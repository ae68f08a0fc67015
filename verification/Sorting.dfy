/** A stable sort by an integer key. */
module Sorting {
  predicate Ascending<T>(items: seq<T>, key: T -> int) {
    forall i, j :: 0 <= i <= j < |items| ==> key(items[i]) <= key(items[j])
  }

  function InsertByKey<T>(x: T, items: seq<T>, key: T -> int): (r: seq<T>)
    requires Ascending(items, key)
    ensures Ascending(r, key) && multiset(r) == multiset(items) + multiset{x}
    ensures r != [] && (r[0] == x || (items != [] && r[0] == items[0]))
  {
    if items == [] || key(x) < key(items[0]) then [x] + items
    else
      assert items == [items[0]] + items[1..];
      [items[0]] + InsertByKey(x, items[1..], key)
  }

  /** `sort_by_key`: a permutation in ascending order of the key. */
  function SortByKey<T>(items: seq<T>, key: T -> int): (r: seq<T>)
    ensures Ascending(r, key) && multiset(r) == multiset(items)
  {
    if items == [] then []
    else
      assert items == items[..|items| - 1] + [items[|items| - 1]];
      InsertByKey(items[|items| - 1], SortByKey(items[..|items| - 1], key), key)
  }
}
