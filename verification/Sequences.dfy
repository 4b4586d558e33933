/** Notions about sequences that several modules share. */
module Sequences {

  function Last<T>(q: seq<T>): T
    requires q != []
  {
    q[|q| - 1]
  }

  predicate Distinct<T(==)>(q: seq<T>) {
    forall i, j :: 0 <= i < j < |q| ==> q[i] != q[j]
  }

  function Members<T>(q: seq<T>): set<T> {
    set x | x in q
  }
}
