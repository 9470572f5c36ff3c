/** The two data tables read by the generator, and the boolean-mask selection applied to them. */
module Tables {

  /** A row of the recipe table (columns name, cuisine, type_of_food, type, cal). */
  datatype Recipe = Recipe(name: string, cuisine: string, typeOfFood: string, mealType: string, cal: int)

  /** A row of the exercise table (columns name, equipment_required, duration_min, difficulty). */
  datatype Exercise = Exercise(name: string, equipmentRequired: string, durationMin: int, difficulty: string)

  /** `table[mask]`: the rows for which `keep` holds, in table order. */
  function Filter<T(==, !new)>(table: seq<T>, keep: T -> bool): (r: seq<T>)
    ensures forall x :: x in r <==> x in table && keep(x)
    ensures multiset(r) <= multiset(table)
  {
    if table == [] then []
    else
      assert table == [table[0]] + table[1..];
      var rest := Filter(table[1..], keep);
      if keep(table[0]) then [table[0]] + rest else rest
  }

  /** A row that passes the mask is kept as often as it occurs in the table; every other row is dropped. */
  lemma {:induction false} FilterCount<T(!new)>(table: seq<T>, keep: T -> bool, x: T)
    ensures multiset(Filter(table, keep))[x] == if keep(x) then multiset(table)[x] else 0
  {
    if table != [] {
      assert table == [table[0]] + table[1..];
      FilterCount(table[1..], keep, x);
    }
  }

  /** `sum(item["cal"] for item in items)`. */
  function SumCal(items: seq<Recipe>): int
  {
    if items == [] then 0 else items[0].cal + SumCal(items[1..])
  }

  /** The calorie sum splits over concatenation. */
  lemma {:induction false} SumCalAppend(a: seq<Recipe>, b: seq<Recipe>)
    ensures SumCal(a + b) == SumCal(a) + SumCal(b)
  {
    if a != [] {
      assert (a + b)[1..] == a[1..] + b;
      SumCalAppend(a[1..], b);
    } else {
      assert a + b == b;
    }
  }
}
