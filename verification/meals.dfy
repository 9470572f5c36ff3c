/** One day's meals: cuisine and diet filters with fallbacks, then up to two recipes per slot (choose_meals). */
module Meals {
  import opened Tables
  import opened Sampling

  /** The `meals` dictionary of one day. */
  datatype DayMeals = DayMeals(breakfast: seq<Recipe>, lunch: seq<Recipe>, dinner: seq<Recipe>, totalCal: int)

  function CuisineMask(cuisinePref: seq<string>): Recipe -> bool
  {
    (r: Recipe) => r.cuisine in cuisinePref
  }

  const VegMask: Recipe -> bool := (r: Recipe) => r.typeOfFood == "veg"

  function SlotMask(slot: string): Recipe -> bool
  {
    (r: Recipe) => r.mealType == slot
  }

  /** The table after the cuisine filter, which is dropped when it matches no recipe. */
  function CuisineStage(recipes: seq<Recipe>, cuisinePref: seq<string>): seq<Recipe>
  {
    if cuisinePref != [] then
      var matched := Filter(recipes, CuisineMask(cuisinePref));
      if matched == [] then recipes else matched
    else recipes
  }

  /** The vegetarian filter; any other preference keeps veg and non-veg recipes alike. */
  function DietStage(filtered: seq<Recipe>, dietPref: string): seq<Recipe>
  {
    if dietPref == "Vegetarian" then Filter(filtered, VegMask) else filtered
  }

  /** A slot's candidates: the filtered recipes of that slot, or all recipes of that slot when there are none. */
  function SlotPool(recipes: seq<Recipe>, cuisinePref: seq<string>, dietPref: string, slot: string): seq<Recipe>
  {
    var candidates := Filter(DietStage(CuisineStage(recipes, cuisinePref), dietPref), SlotMask(slot));
    if candidates == [] then Filter(recipes, SlotMask(slot)) else candidates
  }

  /**
   * Whether a recipe survives the soft cuisine filter: its cuisine is
   * preferred, or there is no preference, or no recipe at all has a preferred
   * cuisine.
   */
  predicate CuisineAccepted(recipes: seq<Recipe>, cuisinePref: seq<string>, r: Recipe)
  {
    cuisinePref == [] || r.cuisine in cuisinePref || forall q :: q in recipes ==> q.cuisine !in cuisinePref
  }

  /** Whether a recipe survives both soft filters: the cuisine filter, and veg whenever the user is vegetarian. */
  predicate PassesFilters(recipes: seq<Recipe>, cuisinePref: seq<string>, dietPref: string, r: Recipe)
  {
    CuisineAccepted(recipes, cuisinePref, r) && (dietPref == "Vegetarian" ==> r.typeOfFood == "veg")
  }

  /** The cuisine stage keeps exactly the table's recipes that CuisineAccepted admits, never more often than the table holds them. */
  lemma CuisineStageMembers(recipes: seq<Recipe>, cuisinePref: seq<string>)
    ensures forall x :: x in CuisineStage(recipes, cuisinePref) <==>
      x in recipes && CuisineAccepted(recipes, cuisinePref, x)
    ensures multiset(CuisineStage(recipes, cuisinePref)) <= multiset(recipes)
  {
    if cuisinePref != [] {
      var matched := Filter(recipes, CuisineMask(cuisinePref));
      if matched == [] {
        forall q | q in recipes ensures q.cuisine !in cuisinePref {
          assert q !in matched;
        }
      } else {
        var w := matched[0];
        assert w in recipes && w.cuisine in cuisinePref;
      }
    }
  }

  /**
   * A slot's candidates are exactly the recipes of that slot that pass both
   * filters, or, when no recipe of the slot passes them, every recipe of the
   * slot; no recipe is a candidate more often than it occurs in the table.
   */
  lemma SlotPoolMembers(recipes: seq<Recipe>, cuisinePref: seq<string>, dietPref: string, slot: string)
    ensures forall x :: x in SlotPool(recipes, cuisinePref, dietPref, slot) <==>
      x in recipes && x.mealType == slot &&
      (PassesFilters(recipes, cuisinePref, dietPref, x) ||
       forall y :: y in recipes && y.mealType == slot ==> !PassesFilters(recipes, cuisinePref, dietPref, y))
    ensures multiset(SlotPool(recipes, cuisinePref, dietPref, slot)) <= multiset(recipes)
  {
    CuisineStageMembers(recipes, cuisinePref);
    var stage := DietStage(CuisineStage(recipes, cuisinePref), dietPref);
    assert forall x :: x in stage <==> x in recipes && PassesFilters(recipes, cuisinePref, dietPref, x);
    var candidates := Filter(stage, SlotMask(slot));
    if candidates == [] {
      forall y | y in recipes && y.mealType == slot ensures !PassesFilters(recipes, cuisinePref, dietPref, y) {
        assert y !in candidates;
      }
    } else {
      var w := candidates[0];
      assert w in recipes && w.mealType == slot && PassesFilters(recipes, cuisinePref, dietPref, w);
    }
  }

  /** `picked` is what `sample(min(len(pool), 2))` can return for the slot's candidate pool. */
  predicate SlotDrawn(recipes: seq<Recipe>, cuisinePref: seq<string>, dietPref: string, slot: string, picked: seq<Recipe>)
  {
    var pool := SlotPool(recipes, cuisinePref, dietPref, slot);
    Drawn(picked, pool, Min(|pool|, 2))
  }

  /** The outcomes `choose_meals` can produce: three slot draws and their calorie sum. */
  predicate ValidDay(recipes: seq<Recipe>, cuisinePref: seq<string>, dietPref: string, meals: DayMeals)
  {
    SlotDrawn(recipes, cuisinePref, dietPref, "breakfast", meals.breakfast) &&
    SlotDrawn(recipes, cuisinePref, dietPref, "lunch", meals.lunch) &&
    SlotDrawn(recipes, cuisinePref, dietPref, "dinner", meals.dinner) &&
    meals.totalCal == SumCal(meals.breakfast + meals.lunch + meals.dinner)
  }

  /** The cuisine filter with its fallback, then the diet filter, as `choose_meals` applies them. */
  method FilterRecipes(recipes: seq<Recipe>, cuisinePref: seq<string>, dietPref: string) returns (filtered: seq<Recipe>)
    ensures filtered == DietStage(CuisineStage(recipes, cuisinePref), dietPref)
  {
    if cuisinePref != [] {
      filtered := Filter(recipes, CuisineMask(cuisinePref));
      if filtered == [] {
        filtered := recipes;
      }
    } else {
      filtered := recipes;
    }

    if dietPref == "Vegetarian" {
      filtered := Filter(filtered, VegMask);
    }
  }

  /** One slot's candidates: the slot's filtered recipes, or the slot's recipes in the whole table when none are left. */
  method SlotCandidates(filtered: seq<Recipe>, recipes: seq<Recipe>, ghost cuisinePref: seq<string>, ghost dietPref: string, slot: string)
    returns (pool: seq<Recipe>)
    requires filtered == DietStage(CuisineStage(recipes, cuisinePref), dietPref)
    ensures pool == SlotPool(recipes, cuisinePref, dietPref, slot)
  {
    pool := Filter(filtered, SlotMask(slot));
    if pool == [] {
      pool := Filter(recipes, SlotMask(slot));
    }
  }

  /**
   * Selects one day's meals. `calTarget` is accepted and ignored, as in the
   * source. The result is one of the outcomes described by ValidDay.
   */
  method ChooseMeals(calTarget: int, recipes: seq<Recipe>, cuisinePref: seq<string>, dietPref: string)
    returns (meals: DayMeals)
    ensures ValidDay(recipes, cuisinePref, dietPref, meals)
  {
    var filtered := FilterRecipes(recipes, cuisinePref, dietPref);

    var breakfasts := SlotCandidates(filtered, recipes, cuisinePref, dietPref, "breakfast");
    var lunches := SlotCandidates(filtered, recipes, cuisinePref, dietPref, "lunch");
    var dinners := SlotCandidates(filtered, recipes, cuisinePref, dietPref, "dinner");

    var b := Sample(breakfasts, Min(|breakfasts|, 2));
    var l := Sample(lunches, Min(|lunches|, 2));
    var d := Sample(dinners, Min(|dinners|, 2));

    meals := DayMeals(b, l, d, SumCal(b + l + d));
  }

  /**
   * What a slot of a valid day holds: at most two recipes of that slot, none
   * taken more often than the table has it; at least one whenever the table
   * has a recipe of the slot; and only recipes passing the cuisine and diet
   * filters whenever some recipe of the slot passes them.
   */
  lemma SlotGuarantees(recipes: seq<Recipe>, cuisinePref: seq<string>, dietPref: string, slot: string, picked: seq<Recipe>)
    requires SlotDrawn(recipes, cuisinePref, dietPref, slot, picked)
    ensures |picked| <= 2
    ensures multiset(picked) <= multiset(recipes)
    ensures forall x :: x in picked ==> x in recipes && x.mealType == slot
    ensures (exists r :: r in recipes && r.mealType == slot) ==> 1 <= |picked|
    ensures (exists r :: r in recipes && r.mealType == slot && PassesFilters(recipes, cuisinePref, dietPref, r)) ==>
      forall x :: x in picked ==> PassesFilters(recipes, cuisinePref, dietPref, x)
  {
    var pool := SlotPool(recipes, cuisinePref, dietPref, slot);
    SlotPoolMembers(recipes, cuisinePref, dietPref, slot);
    assert forall x :: x in picked ==> x in pool by {
      forall x | x in picked ensures x in pool {
        assert x in multiset(picked);
      }
    }
    if r :| r in recipes && r.mealType == slot {
      if !PassesFilters(recipes, cuisinePref, dietPref, r) && exists y :: y in recipes && y.mealType == slot && PassesFilters(recipes, cuisinePref, dietPref, y) {
        var y :| y in recipes && y.mealType == slot && PassesFilters(recipes, cuisinePref, dietPref, y);
        assert y in pool;
      } else {
        assert r in pool || exists y :: y in pool;
      }
    }
  }

  /** A day's total is the sum of its three slots' calories. */
  lemma DayTotal(recipes: seq<Recipe>, cuisinePref: seq<string>, dietPref: string, meals: DayMeals)
    requires ValidDay(recipes, cuisinePref, dietPref, meals)
    ensures meals.totalCal == SumCal(meals.breakfast) + SumCal(meals.lunch) + SumCal(meals.dinner)
  {
    SumCalAppend(meals.breakfast + meals.lunch, meals.dinner);
    SumCalAppend(meals.breakfast, meals.lunch);
  }
}
