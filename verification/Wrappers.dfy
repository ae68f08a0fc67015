/** Option and Result, shared by all components. */
module Wrappers {
  datatype Option<+T> = None | Some(value: T) {
    function GetOr(default: T): T {
      match this
      case Some(v) => v
      case None => default
    }
  }

  datatype Result<+T, +E> = Ok(value: T) | Err(error: E)

  /** Any element of a non-empty set, as when iterating a hash map. */
  method Choose<T>(s: set<T>) returns (x: T)
    requires s != {}
    ensures x in s
  {
    x :| x in s;
  }

  lemma SomeNumberIsFree(used: set<int>)
    ensures exists n: int :: n >= 0 && n !in used
  {
    var top := Above(used);
    assert (if top >= 0 then top else 0) !in used;
  }

  lemma Above(s: set<int>) returns (top: int)
    ensures forall x :: x in s ==> x < top
  {
    if x :| x in s {
      var rest := Above(s - {x});
      assert forall y :: y in s ==> y == x || y in s - {x};
      top := if rest > x then rest else x + 1;
    } else {
      top := 0;
    }
  }
}
