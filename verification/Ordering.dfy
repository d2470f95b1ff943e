/** Increasing listings of step ids, as ORDER BY step_id produces them. */
module Ordering {

  predicate Increasing(ids: seq<int>) {
    forall i, j :: 0 <= i < j < |ids| ==> ids[i] < ids[j]
  }

  lemma EmptyOrNot(ids: set<int>)
    ensures ids == {} || exists x :: x in ids
  {
    if !exists x :: x in ids { assert ids == {}; }
  }

  ghost function MinOf(ids: set<int>): (m: int)
    requires ids != {}
    ensures m in ids && forall x :: x in ids ==> m <= x
  {
    EmptyOrNot(ids);
    var x :| x in ids;
    if ids == {x} then x
    else
      var m := MinOf(ids - {x});
      assert forall y :: y in ids ==> y == x || y in ids - {x};
      if m < x then m else x
  }

  ghost function Ordered(ids: set<int>): (s: seq<int>)
    ensures Increasing(s)
    ensures forall x :: x in s <==> x in ids
  {
    if ids == {} then []
    else
      var m := MinOf(ids);
      var rest := Ordered(ids - {m});
      assert forall i :: 0 <= i < |rest| ==> rest[i] in ids - {m};
      [m] + rest
  }

  /** A set of ids has only one increasing listing. */
  lemma {:induction false} IncreasingUnique(a: seq<int>, b: seq<int>)
    requires Increasing(a) && Increasing(b)
    requires forall x :: x in a <==> x in b
    ensures a == b
  {
    assert a == [] || a[0] in a;
    assert b == [] || b[0] in b;
    if a != [] {
      assert a[0] in b && b[0] in a;
      assert a[0] == b[0];
      forall x ensures x in a[1..] <==> x in b[1..] {
        assert x in a <==> x == a[0] || x in a[1..];
        assert x in b <==> x == b[0] || x in b[1..];
        assert a[0] !in a[1..] && b[0] !in b[1..];
      }
      IncreasingUnique(a[1..], b[1..]);
    }
  }
}
