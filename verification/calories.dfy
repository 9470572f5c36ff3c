/** Basal metabolic rate and daily calorie target (generator.py, first section). */
module Calories {

  /** Python's `str.lower()` on one character, for the ASCII letters. */
  function LowerChar(c: char): char
  {
    if 'A' <= c <= 'Z' then (c as int + 32) as char else c
  }

  function Lower(s: string): string
  {
    seq(|s|, i requires 0 <= i < |s| => LowerChar(s[i]))
  }

  /** The sex test of the Mifflin-St Jeor branch: `sex.lower() == "male"`. */
  predicate IsMale(sex: string)
  {
    Lower(sex) == "male"
  }

  /** The strings that select the male branch are exactly the case variants of "male". */
  lemma IsMaleSpelling(sex: string)
    ensures IsMale(sex) <==>
      |sex| == 4 && sex[0] in "mM" && sex[1] in "aA" && sex[2] in "lL" && sex[3] in "eE"
  {
    if |sex| == 4 && sex[0] in "mM" && sex[1] in "aA" && sex[2] in "lL" && sex[3] in "eE" {
      assert Lower(sex) == "male";
    }
    if IsMale(sex) {
      assert |sex| == 4;
      assert LowerChar(sex[0]) == Lower(sex)[0] == 'm';
      assert LowerChar(sex[1]) == Lower(sex)[1] == 'a';
      assert LowerChar(sex[2]) == Lower(sex)[2] == 'l';
      assert LowerChar(sex[3]) == Lower(sex)[3] == 'e';
    }
  }

  /** Mifflin-St Jeor: 10w + 6.25h - 5a + 5 for "male" (any case), -161 instead of +5 otherwise. */
  function BmrMifflin(age: int, sex: string, weightKg: int, heightCm: int): (bmr: real)
    ensures (4.0 * bmr).Floor as real == 4.0 * bmr  // an exact multiple of 0.25
  {
    var shared := 10.0 * weightKg as real + 6.25 * heightCm as real - 5.0 * age as real;
    var quarters := 40 * weightKg + 25 * heightCm - 20 * age + (if IsMale(sex) then 20 else -644);
    var bmr := if IsMale(sex) then shared + 5.0 else shared - 161.0;
    assert 4.0 * bmr == quarters as real;
    assert (quarters as real).Floor == quarters;
    bmr
  }

  /** For the same body, the male branch is exactly 166 kcal above every other sex string. */
  lemma BmrSexGap(age: int, male: string, other: string, weightKg: int, heightCm: int)
    requires IsMale(male) && !IsMale(other)
    ensures BmrMifflin(age, male, weightKg, heightCm) - BmrMifflin(age, other, weightKg, heightCm) == 166.0
  {
  }

  /** `x` truncated toward zero is `r`. */
  predicate TruncatesTo(x: real, r: int)
  {
    (0.0 <= x ==> r as real <= x < r as real + 1.0) &&
    (x < 0.0 ==> r as real - 1.0 < x <= r as real)
  }

  /** Python's `int()` on a float. */
  function Trunc(x: real): (r: int)
    ensures TruncatesTo(x, r)
  {
    if 0.0 <= x then x.Floor else -((-x).Floor)
  }

  /** The adjustment each goal string makes to the maintenance energy. */
  function GoalOffset(goal: string): real
  {
    if goal == "lose" then -300.0 else if goal == "gain" then 300.0 else 0.0
  }

  /** TDEE = bmr * activity factor, shifted by the goal and truncated toward zero. */
  function TargetCalories(bmr: real, activityFactor: real, goal: string): (target: int)
    ensures TruncatesTo(bmr * activityFactor + GoalOffset(goal), target)
  {
    var tdee := bmr * activityFactor;
    if goal == "lose" then Trunc(tdee - 300.0)
    else if goal == "gain" then Trunc(tdee + 300.0)
    else Trunc(tdee)
  }

  /** Truncation of a non-negative value commutes with adding a whole number that keeps it non-negative. */
  lemma TruncShift(x: real, k: int)
    requires 0.0 <= x && 0.0 <= x + k as real
    ensures Trunc(x + k as real) == Trunc(x) + k
  {
    var a, b := Trunc(x + k as real), Trunc(x);
    assert (a - k) as real <= x < (a - k) as real + 1.0;
    assert b as real <= x < b as real + 1.0;
  }

  /**
   * Every goal other than "lose" and "gain" is treated as "maintain". With a
   * non-negative maintenance energy, "gain" is exactly 300 above it; once it
   * reaches 300 kcal, "lose" is exactly 300 below it.
   */
  lemma TargetGoalSpread(bmr: real, activityFactor: real, goal: string)
    requires goal != "lose" && goal != "gain"
    ensures TargetCalories(bmr, activityFactor, goal) == TargetCalories(bmr, activityFactor, "maintain")
    ensures 0.0 <= bmr * activityFactor ==>
      TargetCalories(bmr, activityFactor, "gain") == TargetCalories(bmr, activityFactor, goal) + 300
    ensures 300.0 <= bmr * activityFactor ==>
      TargetCalories(bmr, activityFactor, "lose") == TargetCalories(bmr, activityFactor, goal) - 300
  {
    var tdee := bmr * activityFactor;
    if 0.0 <= tdee {
      TruncShift(tdee, 300);
    }
    if 300.0 <= tdee {
      TruncShift(tdee, -300);
    }
  }

  /**
   * Below 300 kcal of maintenance energy "lose" is not always "maintain" minus
   * 300, because the shift comes before the truncation: 100.5 kcal gives -199.
   * This is one instance of LoseVersusMaintain below: 100.5 lies strictly
   * between 0 and 300 and is not whole.
   */
  lemma LoseBelowThreshold()
    ensures TargetCalories(100.5, 1.0, "lose") == -199
    ensures TargetCalories(100.5, 1.0, "maintain") - 300 == -200
  {
    var lose := TargetCalories(100.5, 1.0, "lose");
    assert lose as real - 1.0 < -199.5 <= lose as real;
    var keep := TargetCalories(100.5, 1.0, "maintain");
    assert keep as real <= 100.5 < keep as real + 1.0;
  }

  /**
   * "lose" is exactly "maintain" minus 300 unless the maintenance energy lies
   * strictly between 0 and 300 kcal and is not whole; there the shift before
   * the truncation makes the two differ.
   */
  lemma LoseVersusMaintain(bmr: real, activityFactor: real)
    ensures var t := bmr * activityFactor;
      TargetCalories(bmr, activityFactor, "lose") == TargetCalories(bmr, activityFactor, "maintain") - 300 <==>
      (t <= 0.0 || 300.0 <= t || t.Floor as real == t)
  {
    var t := bmr * activityFactor;
    assert TruncatesTo(t - 300.0, TargetCalories(bmr, activityFactor, "lose"));
    assert TruncatesTo(t, TargetCalories(bmr, activityFactor, "maintain"));
  }

  /** A male, 22 years, 70 kg, 170 cm: BMR 1657.5 (reported as 1657); moderately active (1.55) and losing: 2269 kcal. */
  lemma WorkedExample()
    ensures BmrMifflin(22, "male", 70, 170) == 1657.5
    ensures Trunc(BmrMifflin(22, "male", 70, 170)) == 1657
    ensures TargetCalories(1657.5, 1.55, "lose") == 2269
  {
    assert IsMale("male") by { IsMaleSpelling("male"); }
    var t := TargetCalories(1657.5, 1.55, "lose");
    assert 1657.5 * 1.55 - 300.0 == 2269.125;
    assert t as real <= 2269.125 < t as real + 1.0;
  }
}
