/** Shared vocabulary of the pgmqtt model. */
module Prelude {
  datatype Option<+T> = None | Some(value: T)

  datatype Result<+T, +E> = Ok(value: T) | Err(error: E)

  type Byte = x: int | 0 <= x < 256

  /** The elements of a sequence, as a set. */
  function Elems<T>(s: seq<T>): set<T> { set x | x in s }

  /** No element occurs twice. */
  predicate Distinct<T(==)>(s: seq<T>) {
    forall i, j :: 0 <= i < j < |s| ==> s[i] != s[j]
  }

  ghost predicate Least(x: int, q: set<int>) { x in q && forall y | y in q :: x <= y }

  lemma {:induction false} LeastExists(q: set<int>)
    requires q != {}
    ensures exists x :: Least(x, q)
    decreases |q|
  {
    if forall x :: x !in q { assert false; }
    var x :| x in q;
    assert forall z | z in q :: z == x || z in q - {x};
    if q - {x} == {} {
      assert Least(x, q);
    } else {
      LeastExists(q - {x});
      var y :| Least(y, q - {x});
      assert Least(if x < y then x else y, q);
    }
  }
}
