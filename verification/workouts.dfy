/** The week's workouts: equipment and preferred-name filters with a fallback, then up to four exercises (choose_workouts). */
module Workouts {
  import opened Tables
  import opened Sampling

  function EquipmentMask(allowed: seq<string>): Exercise -> bool
  {
    (e: Exercise) => e.equipmentRequired in allowed
  }

  function NameMask(selected: seq<string>): Exercise -> bool
  {
    (e: Exercise) => e.name in selected
  }

  /** The table after the equipment filter; "none" among the user's equipment switches the filter off. */
  function EquipmentStage(exercises: seq<Exercise>, equipment: seq<string>): seq<Exercise>
  {
    if "none" in equipment then exercises else Filter(exercises, EquipmentMask(equipment + ["none"]))
  }

  /** The preferred-name filter, applied only when the user named some exercises. */
  function NameStage(filtered: seq<Exercise>, selected: seq<string>): seq<Exercise>
  {
    if selected != [] then Filter(filtered, NameMask(selected)) else filtered
  }

  /** The pool the workouts are drawn from: the filtered exercises, or the whole table when none pass. */
  function WorkoutPool(exercises: seq<Exercise>, equipment: seq<string>, selected: seq<string>): seq<Exercise>
  {
    var filtered := NameStage(EquipmentStage(exercises, equipment), selected);
    if filtered == [] then exercises else filtered
  }

  /**
   * Whether an exercise passes both filters: the user has its equipment, it
   * needs none, or the user said "none"; and it is among the named exercises
   * whenever the user named any.
   */
  predicate Usable(equipment: seq<string>, selected: seq<string>, e: Exercise)
  {
    ("none" in equipment || e.equipmentRequired in equipment || e.equipmentRequired == "none") &&
    (selected == [] || e.name in selected)
  }

  /**
   * The pool holds exactly the usable exercises, or, when no exercise of the
   * table is usable, the whole table; no exercise is in the pool more often
   * than in the table.
   */
  lemma WorkoutPoolMembers(exercises: seq<Exercise>, equipment: seq<string>, selected: seq<string>)
    ensures forall x :: x in WorkoutPool(exercises, equipment, selected) <==>
      x in exercises &&
      (Usable(equipment, selected, x) || forall y :: y in exercises ==> !Usable(equipment, selected, y))
    ensures multiset(WorkoutPool(exercises, equipment, selected)) <= multiset(exercises)
    ensures exercises != [] ==> WorkoutPool(exercises, equipment, selected) != []
  {
    var filtered := NameStage(EquipmentStage(exercises, equipment), selected);
    assert forall x :: x in filtered <==> x in exercises && Usable(equipment, selected, x);
    if filtered == [] {
      forall y | y in exercises ensures !Usable(equipment, selected, y) {
        assert y !in filtered;
      }
    } else {
      var w := filtered[0];
      assert w in exercises && Usable(equipment, selected, w);
    }
  }

  /** The outcomes `choose_workouts` can produce: `min(4, |pool|)` exercises of the pool, drawn without replacement. */
  predicate ValidWorkouts(exercises: seq<Exercise>, equipment: seq<string>, selected: seq<string>, workouts: seq<Exercise>)
  {
    var pool := WorkoutPool(exercises, equipment, selected);
    Drawn(workouts, pool, Min(4, |pool|))
  }

  /** Selects the week's workouts; the result is one of the outcomes described by ValidWorkouts. */
  method ChooseWorkouts(exercises: seq<Exercise>, equipment: seq<string>, selected: seq<string>)
    returns (workouts: seq<Exercise>)
    ensures ValidWorkouts(exercises, equipment, selected, workouts)
  {
    var filtered: seq<Exercise>;
    if "none" in equipment {
      filtered := exercises;
    } else {
      filtered := Filter(exercises, EquipmentMask(equipment + ["none"]));
    }

    if selected != [] {
      filtered := Filter(filtered, NameMask(selected));
    }

    if filtered == [] {
      filtered := exercises;
    }

    workouts := Sample(filtered, Min(4, |filtered|));
  }

  /**
   * What the week's workouts hold: between one and four exercises whenever the
   * table is non-empty, each from the table and none more often than the table
   * has it, and only usable ones whenever some exercise of the table is usable.
   */
  lemma WorkoutGuarantees(exercises: seq<Exercise>, equipment: seq<string>, selected: seq<string>, workouts: seq<Exercise>)
    requires ValidWorkouts(exercises, equipment, selected, workouts)
    ensures |workouts| <= 4
    ensures exercises != [] ==> 1 <= |workouts|
    ensures multiset(workouts) <= multiset(exercises)
    ensures (exists y :: y in exercises && Usable(equipment, selected, y)) ==>
      forall x :: x in workouts ==> Usable(equipment, selected, x)
  {
    var pool := WorkoutPool(exercises, equipment, selected);
    WorkoutPoolMembers(exercises, equipment, selected);
    forall x | x in workouts ensures x in pool {
      assert x in multiset(workouts);
    }
  }
}
