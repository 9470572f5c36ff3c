# Personalised planner: plan selection in Dafny

This project models the plan generator of a small diet and workout planner
(`generator.py`). From a user's body metrics and preferences, the generator
does the following:

- It computes the basal metabolic rate (BMR) with the Mifflin-St Jeor equation.
- It turns the BMR into a daily calorie target. It scales by an activity
  factor, shifts by 300 kcal for the goals "lose" and "gain", and truncates
  to an integer.
- It builds seven independent days of meals. For each day it applies a soft
  cuisine filter, then an optional vegetarian filter, and splits the result by
  meal slot. Each slot falls back to every recipe of that slot when nothing is
  left. It then draws up to two recipes per slot without replacement and sums
  their calories.
- It draws up to four exercises without replacement from a pool. The pool is
  filtered by equipment and by preferred names, and falls back to the whole
  table when nothing passes.

Modules, one per file:

- `Calories` (calories.dfy): the BMR formula and the sex test (`sex.lower() == "male"`), truncation toward zero (Python's `int()`), and the calorie target.
- `Tables` (tables.dfy): the recipe and exercise rows, boolean-mask selection (`Filter`) and the calorie sum.
- `Sampling` (sampling.dfy): `DataFrame.sample(n)` as a nondeterministic draw without replacement. `Drawn(drawn, pool, n)` says that `drawn` has `n` rows and takes no row of the pool more often than the pool holds it (`multiset(drawn) <= multiset(pool)`).
- `Meals` (meals.dfy): `choose_meals`. Spec functions `CuisineStage`, `DietStage` and `SlotPool` describe the pipeline. `PassesFilters` is an independent description of which recipes it prefers. `ChooseMeals` is the step-by-step method proved against them.
- `Workouts` (workouts.dfy): `choose_workouts`, in the same style (`WorkoutPool`, `Usable`, `ChooseWorkouts`).
- `Planner` (planner.dfy): `generate_plan`. It has the user profile and plan records, and the seven-day loop.

Randomness is nondeterminism: `Sample` picks its rows with a `:|` choice, so
every property proved about a selection holds for every possible draw. The
data tables are parameters rather than files read from disk.

## Model

| member | source | states |
|---|---|---|
| `Calories.IsMaleSpelling` | generator.py:11 | about `IsMale` (the model of `sex.lower() == "male"`): the male branch is taken exactly for the 16 upper/lower-case spellings of "male"; every other sex string takes the other branch |
| `Calories.BmrMifflin` | generator.py:9-14 | with integer age, weight and height the BMR is an exact multiple of 0.25 |
| `Calories.BmrSexGap` | generator.py:11-14 | for the same age, weight and height, the male BMR is exactly 166 above the BMR of any non-male sex string |
| `Calories.Trunc` | generator.py:21-24 | `int()` on a float truncates toward zero: result ≤ x < result+1 for x ≥ 0, and result-1 < x ≤ result for x < 0 |
| `Calories.TargetCalories` | generator.py:17-24 | the target is bmr·factor, shifted by -300 for "lose", +300 for "gain" and 0 for any other goal, truncated toward zero |
| `Calories.TargetGoalSpread` | generator.py:17-24 | any goal other than "lose"/"gain" gives the "maintain" target, for every input; when bmr·factor ≥ 0, "gain" is exactly 300 above it; when bmr·factor ≥ 300, "lose" is exactly 300 below it |
| `Calories.LoseBelowThreshold` | generator.py:19-21 | below 300 kcal the "lose" target can differ from "maintain" minus 300, because the shift precedes the truncation: at 100.5 kcal it is -199, not -200 (an instance of `LoseVersusMaintain`) |
| `Calories.LoseVersusMaintain` | generator.py:19-24 | for every input, the "lose" target equals the "maintain" target minus 300 exactly when bmr·factor ≤ 0, bmr·factor ≥ 300, or bmr·factor is whole |
| `Calories.WorkedExample` | generator.py:9-24 | male, 22 y, 70 kg, 170 cm: BMR 1657.5, reported as 1657; with factor 1.55 and goal "lose" the target is 2269 |
| `Tables.Filter` | generator.py:65-67 | a mask selection keeps exactly the rows that pass the mask (membership both ways) and never adds copies of a row |
| `Tables.FilterCount` | generator.py:51 | a row that passes the mask is kept exactly as many times as it occurs in the table; a row that fails it is not kept at all |
| `Tables.SumCalAppend` | generator.py:83 | about `SumCal` (the model of `sum(item["cal"] for item in …)`): the calorie sum over `b + l + d` is the sum of the per-list sums |
| `Sampling.Sample` | generator.py:78-80 | `sample(n)` returns exactly n rows of the pool and takes no row more often than the pool holds it (draw without replacement) |
| `Meals.FilterRecipes` | generator.py:49-62 | the result is exactly `DietStage(CuisineStage(recipes, cuisinePref), dietPref)`: the cuisine filter, dropped when it matches nothing, then the vegetarian filter |
| `Meals.CuisineStageMembers` | generator.py:49-55 | after the cuisine step a recipe remains exactly when it is in the table and `CuisineAccepted` holds: its cuisine is preferred, or there is no preference, or no recipe has a preferred cuisine |
| `Meals.SlotCandidates` | generator.py:64-75 | the result is exactly `SlotPool` for the slot: its filtered recipes, or all recipes of the slot in the whole table when none are left |
| `Meals.SlotPoolMembers` | generator.py:49-75 | a slot's pool holds exactly the table's recipes of that slot that pass both filters, or every recipe of the slot when none passes; the pool never holds a row more often than the table |
| `Meals.ChooseMeals` | generator.py:42-91 | each slot holds `min(|pool|, 2)` recipes drawn without replacement from that slot's pool, and `totalCal` is the calorie sum of breakfast, lunch and dinner |
| `Meals.SlotGuarantees` | generator.py:70-80 | each slot holds at most 2 recipes, all of that slot and from the table. It holds at least 1 when the table has a recipe of the slot. All of them pass the cuisine and diet filters when some recipe of the slot does |
| `Meals.DayTotal` | generator.py:82-89 | a day's total equals breakfast calories + lunch calories + dinner calories |
| `Workouts.WorkoutPoolMembers` | generator.py:103-115 | the pool holds exactly the usable exercises: equipment owned, "none" required, or "none" owned, and among the named exercises if any are named. When none is usable the pool is the whole table. It never holds a row more often than the table, and it is non-empty when the table is |
| `Workouts.ChooseWorkouts` | generator.py:98-119 | the workouts are `min(4, |pool|)` exercises drawn without replacement from the pool |
| `Workouts.WorkoutGuarantees` | generator.py:113-118 | there are at most 4 workouts, and at least 1 when the table is non-empty. All come from the table without repeats beyond its own, and all are usable when some exercise is |
| `Planner.PlanWeek` | generator.py:134-138 | the week has exactly 7 entries with day numbers 1..7 in order, each an independent valid meal selection |
| `Planner.GeneratePlan` | generator.py:126-152 | the plan's name defaults to "User"; `bmr` is the truncated Mifflin-St Jeor BMR and `cal_target` the calorie target; the week has 7 valid days numbered 1..7; there is one valid workout selection |
| `Planner.PlanNeverEmpty` | generator.py:131-150 | with a recipe of every slot and a non-empty exercise table, every day has 1 or 2 recipes per slot, each of that slot, and the plan has 1 to 4 workouts |

## Left out

- Loading the CSV files (`load_data`, generator.py:31-35) is file I/O. The recipe and exercise tables are parameters of `GeneratePlan` instead.
- `to_json` (generator.py:159-160) only formats the plan as JSON text. The repository has no parser, so there is no round trip to state.
- app.py is the web form, the display, the speech synthesis, the download button and the table from activity level to factor. None of it is part of this model.
- Sampling.Sample: the uniform distribution of `DataFrame.sample` is not modelled. Every draw without replacement is possible, and nothing is said about probabilities.
- Sampling.Sample: rows are compared by value, not by pandas index label. Two identical rows of a table cannot be told apart, so "no row drawn twice" is stated as a multiset inclusion.
- Sampling.Sample requires `n <= |pool|`, because pandas raises an error for larger `n` without replacement. Every caller passes `min(|pool|, k)`.
- Calories.TargetCalories: BMR, activity factor and target are computed in exact real arithmetic. IEEE double rounding, for example of the factors 1.2, 1.55 or 1.725 (1.375 is exact in binary), is not modelled. Near an integer boundary the truncated target may differ by one from the floating-point result.
- Calories.Lower: only ASCII letters are lowered. Python's `str.lower()` covers all of Unicode, but no non-ASCII character lowers to a letter of "male", so the sex test is unaffected.
- Age, weight and height are integers, as the input form supplies them. A fractional weight or height would make the BMR a real that is not a multiple of 0.25.
- The `cal_target` argument of `choose_meals` is kept in `ChooseMeals` but has no effect, as in the source. No property links meal calories to the target.
- The `type_of_food`, `type` and `cal` columns are not validated. Calories are unbounded integers, and `int(total_cal)` is the identity on their sum.

## Notes

- The calorie target truncates after the goal shift, as `int(tdee - 300)` does. It does not subtract 300 from an already truncated value. The two orders differ exactly when 0 < tdee < 300 and tdee is not whole (`Calories.LoseVersusMaintain`). For example, tdee = 100.5 gives -199 here and -200 the other way.
