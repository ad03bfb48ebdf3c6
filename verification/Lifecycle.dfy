/** Open/close discipline of numbered blocks in a frame sequence: a ledger that
    tracks it frame by frame, and the positional statement it is equivalent to. */
module Lifecycle {
  /** What one frame means for the block it mentions, if it mentions any. */
  datatype Signal = Start(i: nat) | Within(i: nat) | End(i: nat) | Outside
  {
    predicate About(x: nat) { !Outside? && i == x }
  }

  /** `next` blocks started so far, numbered from 0; `live` not yet stopped. */
  datatype Ledger = Ledger(next: nat, live: set<nat>) | Broken

  const FRESH := Ledger(0, {})

  function Post(l: Ledger, s: Signal): Ledger {
    if l.Broken? then Broken else
      match s
      case Start(i) => if i == l.next then Ledger(i + 1, l.live + {i}) else Broken
      case Within(i) => if i in l.live then l else Broken
      case End(i) => if i in l.live then l.(live := l.live - {i}) else Broken
      case Outside => l
  }

  function Track(l: Ledger, sigs: seq<Signal>): Ledger
    decreases sigs
  {
    if sigs == [] then l else Track(Post(l, sigs[0]), sigs[1..])
  }

  lemma {:induction false} TrackAppend(l: Ledger, a: seq<Signal>, b: seq<Signal>)
    ensures Track(l, a + b) == Track(Track(l, a), b)
    decreases a
  {
    if a == [] {
      assert a + b == b;
    } else {
      assert (a + b)[1..] == a[1..] + b;
      TrackAppend(Post(l, a[0]), a[1..], b);
    }
  }

  lemma TrackOne(l: Ledger, s: Signal)
    ensures Track(l, [s]) == Post(l, s)
  {
    assert [s][1..] == [];
    assert Track(Post(l, s), []) == Post(l, s);
  }

  lemma TrackShort(l: Ledger, a: Signal, b: Signal, c: Signal)
    ensures Track(l, []) == l
    ensures Track(l, [a]) == Post(l, a)
    ensures Track(l, [a, b]) == Post(Post(l, a), b)
    ensures Track(l, [a, b, c]) == Post(Post(Post(l, a), b), c)
  {
    TrackOne(l, a);
    TrackAppend(l, [a], [b]);
    TrackOne(Post(l, a), b);
    assert [a, b] == [a] + [b] && [a, b, c] == [a, b] + [c];
    TrackAppend(l, [a, b], [c]);
    TrackOne(Post(Post(l, a), b), c);
  }

  lemma {:induction false} BrokenStays(sigs: seq<Signal>)
    ensures Track(Broken, sigs) == Broken
  {
    if sigs != [] { BrokenStays(sigs[1..]); }
  }

  /** Block `i` starts at `s`; every other frame about it is later and inside. */
  ghost predicate OpenLife(sigs: seq<Signal>, i: nat, s: nat) {
    && s < |sigs| && sigs[s] == Start(i)
    && forall k :: 0 <= k < |sigs| && sigs[k].About(i) && k != s ==> s < k && sigs[k] == Within(i)
  }

  /** Block `i` starts at `s`, stops at `e`; all else about it lies strictly between. */
  ghost predicate OneLife(sigs: seq<Signal>, i: nat, s: nat, e: nat) {
    && s < e < |sigs| && sigs[s] == Start(i) && sigs[e] == End(i)
    && forall k :: 0 <= k < |sigs| && sigs[k].About(i) && k != s && k != e ==> s < k < e && sigs[k] == Within(i)
  }

  ghost predicate IsLive(sigs: seq<Signal>, i: nat) {
    exists s :: OpenLife(sigs, i, s)
  }

  ghost predicate HasLived(sigs: seq<Signal>, i: nat) {
    exists s, e :: OneLife(sigs, i, s, e)
  }

  /** Exactly the blocks 0..n-1 appear, each with one start, one later stop, and
      everything else about it strictly between the two. */
  ghost predicate WellBracketed(sigs: seq<Signal>, n: nat) {
    && (forall i: nat :: i < n ==> HasLived(sigs, i))
    && (forall k :: 0 <= k < |sigs| && !sigs[k].Outside? ==> sigs[k].i < n)
  }

  ghost predicate Explains(sigs: seq<Signal>, n: nat, live: set<nat>) {
    && (forall i :: i in live ==> i < n && IsLive(sigs, i))
    && (forall i: nat :: i < n && i !in live ==> HasLived(sigs, i))
    && (forall k :: 0 <= k < |sigs| && !sigs[k].Outside? ==> sigs[k].i < n)
  }

  lemma ExtendOther(sigs: seq<Signal>, x: Signal, i: nat)
    requires !x.About(i)
    ensures IsLive(sigs, i) ==> IsLive(sigs + [x], i)
    ensures HasLived(sigs, i) ==> HasLived(sigs + [x], i)
  {
    if IsLive(sigs, i) {
      var s :| OpenLife(sigs, i, s);
      assert OpenLife(sigs + [x], i, s);
    }
    if HasLived(sigs, i) {
      var s, e :| OneLife(sigs, i, s, e);
      assert OneLife(sigs + [x], i, s, e);
    }
  }

  lemma {:induction false} LedgerExplains(sigs: seq<Signal>)
    ensures var l := Track(FRESH, sigs); l.Ledger? ==> Explains(sigs, l.next, l.live)
  {
    if sigs != [] {
      var init, x := sigs[..|sigs| - 1], sigs[|sigs| - 1];
      assert sigs == init + [x];
      TrackAppend(FRESH, init, [x]);
      LedgerExplains(init);
      var l := Track(FRESH, init);
      TrackOne(l, x);
      if Post(l, x).Ledger? {
        ExplainsStep(init, x, l);
      }
    }
  }

  lemma ExplainsStep(init: seq<Signal>, x: Signal, l: Ledger)
    requires l.Ledger? && Explains(init, l.next, l.live) && Post(l, x).Ledger?
    ensures var l' := Post(l, x); Explains(init + [x], l'.next, l'.live)
  {
    var sigs, l' := init + [x], Post(l, x);
    forall i: nat | !x.About(i) && i < l.next
      ensures i in l.live ==> IsLive(sigs, i)
      ensures i !in l.live ==> HasLived(sigs, i)
    {
      ExtendOther(init, x, i);
    }
    match x
    case Start(i) => assert OpenLife(sigs, i, |init|);
    case Within(i) =>
      var s :| OpenLife(init, i, s);
      assert OpenLife(sigs, i, s);
    case End(i) =>
      var s :| OpenLife(init, i, s);
      assert OneLife(sigs, i, s, |init|);
    case Outside =>
  }

  lemma LiveHasNotLived(sigs: seq<Signal>, i: nat)
    requires IsLive(sigs, i)
    ensures !HasLived(sigs, i)
  {
    var s: nat :| OpenLife(sigs, i, s);
    forall s': nat, e: nat ensures !OneLife(sigs, i, s', e) {
      if e < |sigs| && sigs[e] == End(i) { assert sigs[e].About(i); }
    }
  }

  /** A ledger that ends with nothing live means well-bracketed frames; one that
      ends with a live block means they are not, whatever the block count. */
  lemma LedgerDecides(sigs: seq<Signal>)
    requires Track(FRESH, sigs).Ledger?
    ensures Track(FRESH, sigs).live == {} ==> WellBracketed(sigs, Track(FRESH, sigs).next)
    ensures Track(FRESH, sigs).live != {} ==> forall n: nat :: !WellBracketed(sigs, n)
  {
    LedgerExplains(sigs);
    var l := Track(FRESH, sigs);
    if l.live != {} {
      var i :| i in l.live;
      LiveHasNotLived(sigs, i);
      forall n: nat ensures !WellBracketed(sigs, n) {
        var s: nat :| OpenLife(sigs, i, s);
        if i < n { assert !HasLived(sigs, i); } else { assert !sigs[s].Outside?; }
      }
    }
  }

  function Ends(sigs: seq<Signal>): seq<nat> {
    if sigs == [] then [] else (if sigs[0].End? then [sigs[0].i] else []) + Ends(sigs[1..])
  }

  function Below(n: nat): (r: set<nat>)
    ensures forall i: nat :: i in r <==> i < n
  {
    if n == 0 then {} else Below(n - 1) + {n - 1}
  }

  /** The stops, in the order they happen, are a permutation of what was opened. */
  lemma {:induction false} EndsBalance(l: Ledger, sigs: seq<Signal>)
    requires l.Ledger? && Track(l, sigs).Ledger? && l.live <= Below(l.next)
    ensures var l' := Track(l, sigs);
      && l'.live <= Below(l'.next) && l.next <= l'.next
      && multiset(Ends(sigs)) + multiset(l'.live) == multiset(l.live) + multiset(Below(l'.next) - Below(l.next))
    decreases sigs
  {
    if sigs != [] {
      var m := Post(l, sigs[0]);
      if m.Broken? { BrokenStays(sigs[1..]); }
      EndsBalance(m, sigs[1..]);
      var l' := Track(l, sigs);
      var ended, later := multiset(Ends(sigs[1..])), multiset(l'.live);
      if sigs[0].Start? {
        assert Below(l'.next) - Below(l.next) == (Below(l'.next) - Below(m.next)) + {l.next};
        StartBalance(l.live, l.next, Below(l'.next) - Below(m.next), ended + later);
      } else if sigs[0].End? {
        EndBalance(l.live, sigs[0].i, multiset(Below(l'.next) - Below(l.next)), ended + later);
        assert multiset(Ends(sigs)) == multiset{sigs[0].i} + ended;
      }
    }
  }

  lemma StartBalance(live: set<nat>, i: nat, begun: set<nat>, total: multiset<nat>)
    requires i !in live && i !in begun && total == multiset(live + {i}) + multiset(begun)
    ensures total == multiset(live) + multiset(begun + {i})
  {
  }

  lemma EndBalance(live: set<nat>, i: nat, begun: multiset<nat>, total: multiset<nat>)
    requires i in live && total == multiset(live - {i}) + begun
    ensures multiset{i} + total == multiset(live) + begun
  {
  }

  lemma EndsArePermutation(sigs: seq<Signal>)
    requires Track(FRESH, sigs).Ledger? && Track(FRESH, sigs).live == {}
    ensures multiset(Ends(sigs)) == multiset(Below(Track(FRESH, sigs).next))
  {
    EndsBalance(FRESH, sigs);
    var l' := Track(FRESH, sigs);
    assert Below(l'.next) - Below(FRESH.next) == Below(l'.next);
    assert multiset(FRESH.live) == multiset{} == multiset(l'.live);
    var ended, all := multiset(Ends(sigs)), multiset(Below(l'.next));
    assert ended + multiset{} == ended && multiset{} + all == all;
  }
}
