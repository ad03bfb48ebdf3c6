/** Sets of numbers listed in ascending order: a sorted index list and the
    iteration order of a tree map. */
module Ordered {
  ghost predicate IsMin(m: nat, s: set<nat>) {
    m in s && forall x :: x in s ==> m <= x
  }

  lemma HasMinimum(s: set<nat>)
    requires s != {}
    ensures exists m :: IsMin(m, s)
  {
    var e :| e in s;
    var rest := s - {e};
    assert s == rest + {e};
    if rest == {} {
      assert IsMin(e, s);
    } else {
      HasMinimum(rest);
      var m :| IsMin(m, rest);
      assert IsMin(if m <= e then m else e, s);
    }
  }

  predicate Increasing(r: seq<nat>) {
    forall i, j :: 0 <= i < j < |r| ==> r[i] < r[j]
  }

  function Elements(r: seq<nat>): set<nat> {
    set x | x in r
  }

  lemma AscendingExists(s: set<nat>)
    ensures exists r :: Elements(r) == s && Increasing(r)
  {
    if s == {} {
      assert Elements([]) == s;
    } else {
      HasMinimum(s);
      var m :| IsMin(m, s);
      AscendingExists(s - {m});
      var tail :| Elements(tail) == s - {m} && Increasing(tail);
      var r := [m] + tail;
      assert forall k :: 0 <= k < |tail| ==> tail[k] in Elements(tail);
      assert Elements(r) == {m} + Elements(tail);
    }
  }

  /** The members of a set, least first. */
  ghost function Ascending(s: set<nat>): (r: seq<nat>)
    ensures Elements(r) == s && Increasing(r)
  {
    AscendingExists(s);
    var r :| Elements(r) == s && Increasing(r);
    r
  }

  lemma NonEmptyElements(r: seq<nat>)
    ensures r == [] <==> Elements(r) == {}
  {
    if r != [] { assert r[0] in Elements(r); }
  }

  lemma TailElements(r: seq<nat>)
    requires r != [] && Increasing(r)
    ensures Elements(r[1..]) == Elements(r) - {r[0]}
    ensures IsMin(r[0], Elements(r))
  {
    assert r == [r[0]] + r[1..];
    assert Elements(r) == {r[0]} + Elements(r[1..]);
  }

  /** A strictly increasing list is determined by its elements. */
  lemma {:induction false} IncreasingUnique(a: seq<nat>, b: seq<nat>)
    requires Increasing(a) && Increasing(b) && Elements(a) == Elements(b)
    ensures a == b
  {
    NonEmptyElements(a);
    NonEmptyElements(b);
    if a != [] {
      TailElements(a);
      TailElements(b);
      assert a[0] == b[0];
      IncreasingUnique(a[1..], b[1..]);
      assert a == [a[0]] + a[1..] && b == [b[0]] + b[1..];
    }
  }

  lemma Snoc(r: seq<nat>, m: nat)
    ensures Elements(r + [m]) == Elements(r) + {m}
    ensures Increasing(r) && (forall x :: x in Elements(r) ==> x < m) ==> Increasing(r + [m])
  {
    assert forall k :: 0 <= k < |r| ==> r[k] in Elements(r);
  }

  method Least(s: set<nat>) returns (m: nat)
    requires s != {}
    ensures IsMin(m, s)
  {
    HasMinimum(s);
    assert exists m :: m in s && forall x :: x in s ==> m <= x by { var m :| IsMin(m, s); }
    m :| m in s && forall x :: x in s ==> m <= x;
  }

  /** The same list, by repeated selection of the least remaining member. */
  method SortAscending(s: set<nat>) returns (r: seq<nat>)
    ensures r == Ascending(s)
  {
    r := [];
    var left := s;
    while left != {}
      invariant Elements(r) + left == s && Increasing(r)
      invariant forall x, y :: x in Elements(r) && y in left ==> x < y
      decreases left
    {
      var m := Least(left);
      Snoc(r, m);
      r, left := r + [m], left - {m};
    }
    assert Elements(r) == s;
    IncreasingUnique(r, Ascending(s));
  }
}
