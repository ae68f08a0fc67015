/** The ends of a sequence, and flattening. */
module Sequences {
  function Last<T>(items: seq<T>): T
    requires items != []
  {
    items[|items| - 1]
  }

  function Front<T>(items: seq<T>): seq<T>
    requires items != []
  {
    items[..|items| - 1]
  }

  lemma TakeOneMore<T>(items: seq<T>, i: nat)
    requires i < |items|
    ensures items[..i + 1] == items[..i] + [items[i]]
    ensures Front(items[..i + 1]) == items[..i] && Last(items[..i + 1]) == items[i]
  {
  }

  lemma TakeAll<T>(items: seq<T>)
    ensures items[..|items|] == items
  {
  }

  function Concat<T>(parts: seq<seq<T>>): seq<T> {
    if parts == [] then [] else parts[0] + Concat(parts[1..])
  }

  lemma {:induction false} ConcatLast<T>(parts: seq<seq<T>>, last: seq<T>)
    ensures Concat(parts + [last]) == Concat(parts) + last
  {
    if parts == [] {
      assert [last][1..] == [];
    } else {
      assert (parts + [last])[1..] == parts[1..] + [last];
      ConcatLast(parts[1..], last);
    }
  }
}
