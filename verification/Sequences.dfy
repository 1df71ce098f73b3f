// Sequence vocabulary shared by the other modules.
module Sequences {

  datatype Option<T> = None | Some(value: T)

  predicate NoDup<T(==)>(q: seq<T>) { forall i, j :: 0 <= i < j < |q| ==> q[i] != q[j] }

  // std::remove followed by erase.
  function Drop<T(==)>(q: seq<T>, t: T): (r: seq<T>)
    ensures forall i :: 0 <= i < |r| ==> r[i] in q && r[i] != t
    ensures forall i :: 0 <= i < |q| && q[i] != t ==> q[i] in r
    ensures t !in q ==> r == q
    ensures NoDup(q) ==> NoDup(r)
  {
    if q == [] then []
    else
      var rest := Drop(q[..|q| - 1], t);
      assert q == q[..|q| - 1] + [q[|q| - 1]];
      if q[|q| - 1] == t then rest else rest + [q[|q| - 1]]
  }

  // Among |all| values, more than |all| of them cannot be distinct.
  lemma {:induction false} Pigeonhole<T>(q: seq<T>, all: set<T>)
    requires (forall x :: x in q ==> x in all) && |q| > |all|
    ensures !NoDup(q)
    decreases |q|
  {
    if NoDup(q) {
      var last := q[|q| - 1];
      var front := q[..|q| - 1];
      assert q == front + [last];
      assert last in all && last !in front;
      assert |all - {last}| == |all| - 1;
      Pigeonhole(front, all - {last});
    }
  }
}
