/** Picking the elements of a sequence in another order. */
module Reorder {
  import opened Lifecycle

  predicate Within(order: seq<nat>, n: nat) {
    forall x :: x in order ==> x < n
  }

  /** Every number below `n` once. */
  ghost predicate IsPermutation(order: seq<nat>, n: nat) {
    multiset(order) == multiset(Below(n))
  }

  function Pick<T>(src: seq<T>, order: seq<nat>): seq<T>
    requires Within(order, |src|)
  {
    seq(|order|, k requires 0 <= k < |order| => assert order[k] in order; src[order[k]])
  }

  lemma PermutationWithin(order: seq<nat>, n: nat)
    requires IsPermutation(order, n)
    ensures Within(order, n)
    ensures n == 0 ==> order == []
    ensures forall x: nat :: x < n ==> x in order
  {
    forall x | x in order ensures x < n { assert x in multiset(order); }
    forall x: nat | x < n ensures x in order { assert x in multiset(order); }
    assert order != [] ==> order[0] in order;
  }

  lemma RemoveLast(order: seq<nat>, n: nat) returns (a: seq<nat>, b: seq<nat>)
    requires IsPermutation(order, n) && n > 0
    ensures order == a + [n - 1] + b && IsPermutation(a + b, n - 1)
  {
    PermutationWithin(order, n);
    var last: nat := n - 1;
    assert last in order;
    var p :| 0 <= p < |order| && order[p] == last;
    a, b := order[..p], order[p + 1..];
    assert order == a + [n - 1] + b;
    LessLast(last);
    Middle(a, last, b);
    Cancel(multiset(a + b), multiset(Below(n - 1)), last);
  }

  lemma LessLast(n: nat)
    ensures multiset(Below(n + 1)) == multiset(Below(n)) + multiset{n}
  {
  }

  lemma Cancel<T>(a: multiset<T>, b: multiset<T>, x: T)
    requires a + multiset{x} == b + multiset{x}
    ensures a == b
  {
    assert a == (a + multiset{x}) - multiset{x};
  }

  lemma Middle<T>(a: seq<T>, x: T, b: seq<T>)
    ensures multiset(a + [x] + b) == multiset(a + b) + multiset{x}
  {
  }

  lemma PickConcat<T>(src: seq<T>, a: seq<nat>, b: seq<nat>)
    requires Within(a, |src|) && Within(b, |src|)
    ensures Within(a + b, |src|) && Pick(src, a + b) == Pick(src, a) + Pick(src, b)
  {
    forall x | x in a + b ensures x < |src| { assert x in a || x in b; }
  }

  lemma PickShorter<T>(src: seq<T>, order: seq<nat>)
    requires src != [] && Within(order, |src| - 1)
    ensures Within(order, |src|) && Pick(src[..|src| - 1], order) == Pick(src, order)
  {
    var x, y := Pick(src[..|src| - 1], order), Pick(src, order);
    forall k | 0 <= k < |order| ensures x[k] == y[k] { assert order[k] in order; }
  }

  /** All but the last, with the last put in anywhere. */
  lemma PickAround<T>(src: seq<T>, a: seq<nat>, b: seq<nat>)
    requires src != [] && Within(a + b, |src| - 1) && Within(a + [|src| - 1] + b, |src|)
    ensures multiset(Pick(src, a + [|src| - 1] + b))
      == multiset(Pick(src[..|src| - 1], a + b)) + multiset{src[|src| - 1]}
  {
    var last := |src| - 1;
    PickShorter(src, a + b);
    assert Within(a, |src|) && Within(b, |src|) by {
      assert forall x :: x in a || x in b ==> x in a + b;
    }
    PickConcat(src, a, b);
    PickConcat(src, a, [last]);
    PickConcat(src, a + [last], b);
    assert Pick(src, [last]) == [src[last]];
    Middle(Pick(src, a), src[last], Pick(src, b));
  }

  /** Picking every position once only reorders. */
  lemma {:induction false} PickAll<T>(src: seq<T>, order: seq<nat>)
    requires IsPermutation(order, |src|)
    ensures Within(order, |src|)
    ensures multiset(Pick(src, order)) == multiset(src)
    decreases |src|
  {
    PermutationWithin(order, |src|);
    if src != [] {
      var last := |src| - 1;
      var a, b := RemoveLast(order, |src|);
      PickAll(src[..last], a + b);
      PickAround(src, a, b);
      assert src == src[..last] + [src[last]];
    }
  }
}
