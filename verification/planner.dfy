/** The weekly plan: BMR, calorie target, seven days of meals and one workout list (generate_plan). */
module Planner {
  import opened Tables
  import opened Calories
  import opened Meals
  import opened Workouts

  datatype Option<T> = None | Some(value: T)

  /** The user dictionary; `name` and `exercises` may be absent from it. */
  datatype UserProfile = UserProfile(
    name: Option<string>,
    age: int,
    sex: string,
    weight: int,
    height: int,
    activityFactor: real,
    goal: string,
    cuisine: seq<string>,
    equipment: seq<string>,
    exercises: Option<seq<string>>,
    dietPref: string)

  /** One entry of the week: its day number and that day's meals. */
  datatype DayEntry = DayEntry(day: int, meals: DayMeals)

  datatype Plan = Plan(name: string, bmr: int, calTarget: int, meals: seq<DayEntry>, workouts: seq<Exercise>)

  function NameOf(user: UserProfile): string
  {
    match user.name
    case Some(n) => n
    case None => "User"
  }

  function SelectedExercises(user: UserProfile): seq<string>
  {
    match user.exercises
    case Some(s) => s
    case None => []
  }

  /** `week` holds days 1, 2, ... in order, each a possible outcome of one day's meal selection. */
  predicate WeekSoFar(recipes: seq<Recipe>, cuisinePref: seq<string>, dietPref: string, week: seq<DayEntry>)
  {
    forall i :: 0 <= i < |week| ==>
      week[i].day == i + 1 && ValidDay(recipes, cuisinePref, dietPref, week[i].meals)
  }

  /** The weekly meal plan: seven independent daily selections, numbered 1 to 7. */
  method PlanWeek(calTarget: int, recipes: seq<Recipe>, cuisinePref: seq<string>, dietPref: string)
    returns (weekPlan: seq<DayEntry>)
    ensures |weekPlan| == 7 && WeekSoFar(recipes, cuisinePref, dietPref, weekPlan)
  {
    weekPlan := [];
    for day := 0 to 7
      invariant |weekPlan| == day
      invariant WeekSoFar(recipes, cuisinePref, dietPref, weekPlan)
    {
      var meals := ChooseMeals(calTarget, recipes, cuisinePref, dietPref);
      ghost var before := weekPlan;
      weekPlan := weekPlan + [DayEntry(day + 1, meals)];
      forall i | 0 <= i < |weekPlan|
        ensures weekPlan[i].day == i + 1 && ValidDay(recipes, cuisinePref, dietPref, weekPlan[i].meals)
      {
        if i < day {
          assert weekPlan[i] == before[i];
        }
      }
    }
  }

  /**
   * Builds the plan from the two tables (passed in instead of read from disk).
   * The week has exactly seven days numbered 1..7, each an independent meal
   * selection, and there is one workout selection for the whole week.
   */
  method GeneratePlan(user: UserProfile, recipes: seq<Recipe>, exercises: seq<Exercise>) returns (plan: Plan)
    ensures plan.name == NameOf(user)
    ensures plan.bmr == Trunc(BmrMifflin(user.age, user.sex, user.weight, user.height))
    ensures plan.calTarget == TargetCalories(BmrMifflin(user.age, user.sex, user.weight, user.height), user.activityFactor, user.goal)
    ensures |plan.meals| == 7 && WeekSoFar(recipes, user.cuisine, user.dietPref, plan.meals)
    ensures ValidWorkouts(exercises, user.equipment, SelectedExercises(user), plan.workouts)
  {
    var bmr := BmrMifflin(user.age, user.sex, user.weight, user.height);
    var calTarget := TargetCalories(bmr, user.activityFactor, user.goal);

    var weekPlan := PlanWeek(calTarget, recipes, user.cuisine, user.dietPref);

    var workouts := ChooseWorkouts(exercises, user.equipment, SelectedExercises(user));

    plan := Plan(NameOf(user), Trunc(bmr), calTarget, weekPlan, workouts);
  }

  /**
   * With a recipe of every slot and a non-empty exercise table, every day of a
   * generated plan has one or two recipes per slot, of that slot, and the plan
   * has between one and four workouts.
   */
  lemma PlanNeverEmpty(user: UserProfile, recipes: seq<Recipe>, exercises: seq<Exercise>, plan: Plan, i: int)
    requires |plan.meals| == 7 && WeekSoFar(recipes, user.cuisine, user.dietPref, plan.meals)
    requires ValidWorkouts(exercises, user.equipment, SelectedExercises(user), plan.workouts)
    requires exists r :: r in recipes && r.mealType == "breakfast"
    requires exists r :: r in recipes && r.mealType == "lunch"
    requires exists r :: r in recipes && r.mealType == "dinner"
    requires exercises != []
    requires 0 <= i < 7
    ensures plan.meals[i].day == i + 1
    ensures 1 <= |plan.meals[i].meals.breakfast| <= 2 && 1 <= |plan.meals[i].meals.lunch| <= 2 && 1 <= |plan.meals[i].meals.dinner| <= 2
    ensures forall x :: x in plan.meals[i].meals.breakfast ==> x.mealType == "breakfast"
    ensures forall x :: x in plan.meals[i].meals.lunch ==> x.mealType == "lunch"
    ensures forall x :: x in plan.meals[i].meals.dinner ==> x.mealType == "dinner"
    ensures 1 <= |plan.workouts| <= 4
  {
    var m := plan.meals[i].meals;
    SlotGuarantees(recipes, user.cuisine, user.dietPref, "breakfast", m.breakfast);
    SlotGuarantees(recipes, user.cuisine, user.dietPref, "lunch", m.lunch);
    SlotGuarantees(recipes, user.cuisine, user.dietPref, "dinner", m.dinner);
    WorkoutGuarantees(exercises, user.equipment, SelectedExercises(user), plan.workouts);
  }
}
