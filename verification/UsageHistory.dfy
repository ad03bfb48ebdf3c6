/** The pruned log against the full history of a meter's life. */
module UsageHistory {
  import opened Wrappers
  import opened Usage

  /** The running meter, its event store, the clock, and every row ever accepted. */
  datatype Life = Life(log: Log, store: seq<Row>, clock: int, history: seq<Row>)

  const BIRTH := Life(map[], [], 0, [])

  /** Record usage, or restart: prune the store and load what is left into a new meter. */
  datatype Step = Record(key: Key, amount: real, now: int) | Restart(now: int)

  function KeptRows(rows: seq<Row>, since: int): seq<Row> {
    if rows == [] then [] else (if rows[0].ts >= since then [rows[0]] else []) + KeptRows(rows[1..], since)
  }

  /** `log` is what loading `rows` into a new meter gives. */
  ghost predicate LoadedFrom(log: Log, rows: seq<Row>) {
    forall key :: EventsOf(log, key) == SortByTime(EventsOf(map[], key) + RowsFor(rows, key))
  }

  /** One step, with a clock that does not run backwards. */
  ghost predicate Next(a: Life, st: Step, b: Life) {
    && st.now >= a.clock && b.clock == st.now
    && match st
       case Record(key, amount, now) =>
         var row := Row(key.provider, now, KindName(key.kind), amount);
         && b.log == Recorded(a.log, key, amount, now)
         && b.store == (if amount > 0.0 then a.store + [row] else a.store)
         && b.history == (if amount > 0.0 then a.history + [row] else a.history)
       case Restart(now) =>
         var rows := KeptRows(a.store, now - RETAIN_SECS);
         && b.store == rows && LoadedFrom(b.log, rows) && b.history == a.history
  }

  ghost predicate IsRun(lives: seq<Life>, steps: seq<Step>) {
    && |lives| == |steps| + 1 && lives[0] == BIRTH
    && forall k :: 0 <= k < |steps| ==> Next(lives[k], steps[k], lives[k + 1])
  }

  // ----- the invariant -----

  predicate RowsAscending(rows: seq<Row>) {
    forall i, j :: 0 <= i < j < |rows| ==> rows[i].ts <= rows[j].ts
  }

  function Horizon(l: Life): int {
    l.clock - RETAIN_SECS
  }

  /** Above the horizon, the meter holds exactly what history says. */
  ghost predicate LogInv(l: Life, key: Key) {
    Retain(EventsOf(l.log, key), Horizon(l)) == Retain(RowsFor(l.history, key), Horizon(l))
  }

  ghost predicate Inv(l: Life) {
    && RowsAscending(l.store) && (forall k :: 0 <= k < |l.store| ==> l.store[k].ts <= l.clock)
    && KeptRows(l.store, Horizon(l)) == KeptRows(l.history, Horizon(l))
    && forall key :: LogInv(l, key)
  }

  lemma {:induction false} RetainAppend(a: seq<Event>, b: seq<Event>, c: int)
    ensures Retain(a + b, c) == Retain(a, c) + Retain(b, c)
  {
    if a == [] {
      assert a + b == b;
    } else {
      assert (a + b)[0] == a[0] && (a + b)[1..] == a[1..] + b;
      RetainAppend(a[1..], b, c);
      var first := if a[0].ts >= c then [a[0]] else [];
      assert first + (Retain(a[1..], c) + Retain(b, c)) == first + Retain(a[1..], c) + Retain(b, c);
    }
  }

  lemma {:induction false} RetainTwice(a: seq<Event>, c: int, d: int)
    requires c <= d
    ensures Retain(Retain(a, c), d) == Retain(a, d)
  {
    if a != [] {
      RetainTwice(a[1..], c, d);
      if a[0].ts >= c { assert ([a[0]] + Retain(a[1..], c))[1..] == Retain(a[1..], c); }
      else { assert Retain(a, c) == Retain(a[1..], c); }
    }
  }

  lemma {:induction false} KeptAppend(a: seq<Row>, b: seq<Row>, c: int)
    ensures KeptRows(a + b, c) == KeptRows(a, c) + KeptRows(b, c)
  {
    if a == [] {
      assert a + b == b;
    } else {
      assert (a + b)[0] == a[0] && (a + b)[1..] == a[1..] + b;
      KeptAppend(a[1..], b, c);
      var first := if a[0].ts >= c then [a[0]] else [];
      assert first + (KeptRows(a[1..], c) + KeptRows(b, c)) == first + KeptRows(a[1..], c) + KeptRows(b, c);
    }
  }

  lemma {:induction false} KeptTwice(a: seq<Row>, c: int, d: int)
    requires c <= d
    ensures KeptRows(KeptRows(a, c), d) == KeptRows(a, d)
  {
    if a != [] {
      KeptTwice(a[1..], c, d);
      KeptFirst(a, c);
      KeptFirst(a, d);
      if a[0].ts >= c { KeptFirst([a[0]] + KeptRows(a[1..], c), d); }
    }
  }

  lemma KeptFirst(rows: seq<Row>, since: int)
    requires rows != []
    ensures KeptRows(rows, since)
      == (if rows[0].ts >= since then [rows[0]] + KeptRows(rows[1..], since) else KeptRows(rows[1..], since))
    ensures ([rows[0]] + rows[1..])[1..] == rows[1..]
  {
  }

  lemma {:induction false} RowsForKept(rows: seq<Row>, c: int, key: Key)
    ensures RowsFor(KeptRows(rows, c), key) == Retain(RowsFor(rows, key), c)
  {
    if rows != [] {
      var mine := if RowKey(rows[0]) == Some(key) then [RowEvent(rows[0])] else [];
      RowsForKept(rows[1..], c, key);
      RetainAppend(mine, RowsFor(rows[1..], key), c);
      assert mine != [] ==> mine[1..] == [];
      if rows[0].ts >= c { assert ([rows[0]] + KeptRows(rows[1..], c))[1..] == KeptRows(rows[1..], c); }
      else { assert KeptRows(rows, c) == KeptRows(rows[1..], c); }
    }
  }

  lemma {:induction false} KeptAscending(rows: seq<Row>, c: int)
    requires RowsAscending(rows)
    ensures RowsAscending(KeptRows(rows, c))
    ensures forall r :: r in KeptRows(rows, c) ==> r in rows
  {
    if rows != [] {
      var kept := KeptRows(rows[1..], c);
      KeptAscending(rows[1..], c);
      forall k | 0 <= k < |kept| ensures rows[0].ts <= kept[k].ts {
        assert kept[k] in rows[1..];
      }
    }
  }

  lemma {:induction false} RowsForAscending(rows: seq<Row>, key: Key)
    requires RowsAscending(rows)
    ensures Ascending(RowsFor(rows, key))
    ensures forall e :: e in RowsFor(rows, key) ==> exists k :: 0 <= k < |rows| && RowEvent(rows[k]) == e
  {
    if rows != [] {
      var later := RowsFor(rows[1..], key);
      RowsForAscending(rows[1..], key);
      forall e | e in later ensures rows[0].ts <= e.ts && exists k :: 0 <= k < |rows| && RowEvent(rows[k]) == e {
        var k :| 0 <= k < |rows[1..]| && RowEvent(rows[1..][k]) == e;
        assert RowEvent(rows[k + 1]) == e;
      }
      assert forall k :: 0 <= k < |later| ==> later[k] in later;
      assert RowEvent(rows[0]).ts == rows[0].ts;
    }
  }

  lemma NameBack(k: Kind)
    ensures ParseKind(KindName(k)) == Some(k)
  {
    assert "count"[0] == 'c' && "token"[0] == 't';
  }

  lemma Widen(l: Life, key: Key, horizon: int)
    requires LogInv(l, key) && Horizon(l) <= horizon
    ensures Retain(EventsOf(l.log, key), horizon) == Retain(RowsFor(l.history, key), horizon)
  {
    RetainTwice(EventsOf(l.log, key), Horizon(l), horizon);
    RetainTwice(RowsFor(l.history, key), Horizon(l), horizon);
  }

  lemma WidenStore(l: Life, horizon: int)
    requires Inv(l) && Horizon(l) <= horizon
    ensures KeptRows(l.store, horizon) == KeptRows(l.history, horizon)
  {
    KeptTwice(l.store, Horizon(l), horizon);
    KeptTwice(l.history, Horizon(l), horizon);
  }

  lemma BothGrow(inLog: seq<Event>, inHistory: seq<Event>, e: Event, h: int)
    requires Retain(inLog, h) == Retain(inHistory, h)
    ensures Retain(Retain(inLog + [e], h), h) == Retain(inHistory + [e], h)
  {
    RetainAppend(inLog, [e], h);
    RetainAppend(inHistory, [e], h);
    RetainTwice(inLog + [e], h, h);
  }

  lemma OneRow(row: Row, key: Key)
    ensures RowsFor([row], key) == if RowKey(row) == Some(key) then [RowEvent(row)] else []
  {
    assert [row][1..] == [];
  }

  lemma RowsForRecorded(rows: seq<Row>, key: Key, amount: real, now: int, other: Key)
    ensures RowsFor(rows + [Row(key.provider, now, KindName(key.kind), amount)], other)
      == if other == key then RowsFor(rows, other) + [Event(now, amount)] else RowsFor(rows, other)
  {
    var row := Row(key.provider, now, KindName(key.kind), amount);
    NameBack(key.kind);
    RowsForAppend(rows, [row], other);
    OneRow(row, other);
    assert RowsFor(rows, other) + [] == RowsFor(rows, other);
  }

  /** One log after a record: both it and the history gain the event, or neither does. */
  lemma RecordedLog(log: Log, history: seq<Row>, key: Key, amount: real, now: int, other: Key)
    requires Retain(EventsOf(log, other), now - RETAIN_SECS) == Retain(RowsFor(history, other), now - RETAIN_SECS)
    requires amount > 0.0
    ensures var row := Row(key.provider, now, KindName(key.kind), amount);
      Retain(EventsOf(Recorded(log, key, amount, now), other), now - RETAIN_SECS)
      == Retain(RowsFor(history + [row], other), now - RETAIN_SECS)
  {
    RowsForRecorded(history, key, amount, now, other);
    if other == key {
      BothGrow(EventsOf(log, key), RowsFor(history, key), Event(now, amount), now - RETAIN_SECS);
    }
  }

  lemma RecordKeepsLog(a: Life, key: Key, amount: real, now: int, b: Life, other: Key)
    requires LogInv(a, other) && Next(a, Record(key, amount, now), b)
    ensures LogInv(b, other)
  {
    Widen(a, other, Horizon(b));
    if amount > 0.0 {
      RecordedLog(a.log, a.history, key, amount, now, other);
    } else {
      assert b.log == a.log && b.history == a.history;
    }
  }

  lemma RecordKeeps(a: Life, key: Key, amount: real, now: int, b: Life)
    requires Inv(a) && Next(a, Record(key, amount, now), b)
    ensures Inv(b)
  {
    var row := Row(key.provider, now, KindName(key.kind), amount);
    WidenStore(a, Horizon(b));
    KeptAppend(a.store, [row], Horizon(b));
    KeptAppend(a.history, [row], Horizon(b));
    forall other ensures LogInv(b, other) {
      assert LogInv(a, other);
      RecordKeepsLog(a, key, amount, now, b, other);
    }
  }

  lemma RestartKeepsLog(a: Life, now: int, b: Life, key: Key)
    requires Inv(a) && Next(a, Restart(now), b)
    ensures LogInv(b, key)
  {
    var h := Horizon(b);
    WidenStore(a, h);
    KeptAscending(a.store, h);
    RowsForAscending(b.store, key);
    SortSorted(RowsFor(b.store, key));
    assert EventsOf(map[], key) + RowsFor(b.store, key) == RowsFor(b.store, key);
    RowsForKept(a.history, h, key);
    RetainTwice(RowsFor(a.history, key), h, h);
  }

  lemma RestartKeeps(a: Life, now: int, b: Life)
    requires Inv(a) && Next(a, Restart(now), b)
    ensures Inv(b)
  {
    WidenStore(a, Horizon(b));
    KeptAscending(a.store, Horizon(b));
    KeptTwice(a.store, Horizon(b), Horizon(b));
    forall k | 0 <= k < |b.store| ensures b.store[k].ts <= b.clock { assert b.store[k] in a.store; }
    forall key ensures LogInv(b, key) { RestartKeepsLog(a, now, b, key); }
  }

  lemma {:induction false} EveryLifeIsSound(lives: seq<Life>, steps: seq<Step>, k: nat)
    requires IsRun(lives, steps) && k < |lives|
    ensures Inv(lives[k])
  {
    if k > 0 {
      EveryLifeIsSound(lives, steps, k - 1);
      assert Next(lives[k - 1], steps[k - 1], lives[k]);
      StepKeeps(lives[k - 1], steps[k - 1], lives[k]);
    }
  }

  lemma StepKeeps(a: Life, st: Step, b: Life)
    requires Inv(a) && Next(a, st, b)
    ensures Inv(b)
  {
    match st
    case Record(key, amount, now) => RecordKeeps(a, key, amount, now, b);
    case Restart(now) => RestartKeeps(a, now, b);
  }

  // ----- windows agree -----

  /** Only events after the cutoff count. */
  lemma {:induction false} OldEventsDoNotCount(evts: seq<Event>, horizon: int, cutoff: int)
    requires horizon <= cutoff + 1
    ensures Spent(Retain(evts, horizon), cutoff) == Spent(evts, cutoff)
    ensures Oldest(Retain(evts, horizon), cutoff) == Oldest(evts, cutoff)
  {
    if evts != [] {
      var later := Retain(evts[1..], horizon);
      OldEventsDoNotCount(evts[1..], horizon, cutoff);
      if evts[0].ts >= horizon { assert ([evts[0]] + later)[1..] == later; }
      else { assert Retain(evts, horizon) == later; }
    }
  }

  /** At a later time, the window reads the same from the pruned log as from the full
      history. */
  ghost predicate Agrees(l: Life, key: Key, w: Window, now: int) {
    StatOf(EventsOf(l.log, key), w, now) == StatOf(RowsFor(l.history, key), w, now)
  }

  /** The pruned log refines the full history, over every run of records, evictions
      and restarts, for every window of at most 31 days and one second. */
  lemma PrunedLogRefinesHistory(lives: seq<Life>, steps: seq<Step>, k: nat, key: Key, w: Window, now: int)
    requires IsRun(lives, steps) && k < |lives| && now >= lives[k].clock
    requires w.secs <= RETAIN_SECS + 1
    ensures Agrees(lives[k], key, w, now)
  {
    var l := lives[k];
    EveryLifeIsSound(lives, steps, k);
    assert LogInv(l, key);
    OldEventsDoNotCount(EventsOf(l.log, key), Horizon(l), now - w.secs);
    OldEventsDoNotCount(RowsFor(l.history, key), Horizon(l), now - w.secs);
  }

  ghost predicate AlwaysAgrees(w: Window) {
    forall lives: seq<Life>, steps: seq<Step>, k: nat, key: Key, now: int ::
      IsRun(lives, steps) && k < |lives| && now >= lives[k].clock ==> Agrees(lives[k], key, w, now)
  }

  lemma TwoRows(r0: Row, r1: Row, key: Key)
    requires RowKey(r0) == RowKey(r1) == Some(key)
    ensures RowsFor([r0], key) == [RowEvent(r0)] && RowsFor([r0, r1], key) == [RowEvent(r0), RowEvent(r1)]
  {
    assert [r0][1..] == [] && [r1][1..] == [] && [r0, r1][1..] == [r1];
    assert RowsFor([r1], key) == [RowEvent(r1)];
    assert [RowEvent(r0)] + [RowEvent(r1)] == [RowEvent(r0), RowEvent(r1)];
  }

  /** A run whose second record, 31 days and a second after the first, evicts the first. */
  lemma EvictingRun(key: Key, a0: real, a1: real) returns (lives: seq<Life>, steps: seq<Step>)
    requires a0 > 0.0 && a1 > 0.0
    ensures IsRun(lives, steps) && |lives| == 3
    ensures lives[1].clock == 0 && lives[2].clock == RETAIN_SECS + 1
    ensures EventsOf(lives[1].log, key) == [Event(0, a0)]
    ensures EventsOf(lives[2].log, key) == [Event(RETAIN_SECS + 1, a1)]
    ensures RowsFor(lives[2].history, key) == [Event(0, a0), Event(RETAIN_SECS + 1, a1)]
  {
    var late := RETAIN_SECS + 1;
    var r0, r1 := Row(key.provider, 0, KindName(key.kind), a0), Row(key.provider, late, KindName(key.kind), a1);
    var e0, e1 := RowEvent(r0), RowEvent(r1);
    NameBack(key.kind);
    TwoRows(r0, r1, key);
    RetainShort(e0, e1, 1);
    assert [] + [e0] == [e0] && [e0] + [e1] == [e0, e1];
    var log1: Log := Recorded(map[], key, a0, 0);
    var log2: Log := Recorded(log1, key, a1, late);
    assert EventsOf(log1, key) == [e0] && EventsOf(log2, key) == [e1];
    lives := [BIRTH, Life(log1, [r0], 0, [r0]), Life(log2, [r0, r1], late, [r0, r1])];
    steps := [Record(key, a0, 0), Record(key, a1, late)];
    assert [r0] + [r1] == [r0, r1] && [] + [r0] == [r0];
  }

  lemma RetainShort(e0: Event, e1: Event, cutoff: int)
    requires e0.ts < cutoff <= e1.ts
    ensures Retain([e0, e1], cutoff) == [e1] && Retain([e0], e0.ts - RETAIN_SECS) == [e0]
  {
    assert [e0][1..] == [] && [e1][1..] == [] && [e0, e1][1..] == [e1];
    assert Retain([e1], cutoff) == [e1];
  }

  lemma SpentShort(e0: Event, e1: Event, cutoff: int)
    requires cutoff < e0.ts && cutoff < e1.ts
    ensures Spent([e0], cutoff) == e0.amount && Spent([e1], cutoff) == e1.amount
    ensures Spent([e0, e1], cutoff) == e0.amount + e1.amount
  {
    assert [e0][1..] == [] && [e1][1..] == [] && [e0, e1][1..] == [e1];
  }

  /** A run whose eviction a longer window notices. */
  lemma LongWindowDisagrees(w: Window)
    requires w.secs > RETAIN_SECS + 1
    ensures !AlwaysAgrees(w)
  {
    var key, late := Key("p", Count), RETAIN_SECS + 1;
    var lives, steps := EvictingRun(key, 1.0, 1.0);
    SpentShort(Event(0, 1.0), Event(late, 1.0), late - w.secs);
    assert !Agrees(lives[2], key, w, late);
  }

  /** So eviction is invisible exactly to windows of at most 31 days and a second. */
  lemma EvictionSoundExactly(w: Window)
    ensures AlwaysAgrees(w) <==> w.secs <= 31 * 86400 + 1
  {
    if w.secs <= RETAIN_SECS + 1 {
      forall lives: seq<Life>, steps: seq<Step>, k: nat, key: Key, now: int |
        IsRun(lives, steps) && k < |lives| && now >= lives[k].clock
        ensures Agrees(lives[k], key, w, now)
      {
        PrunedLogRefinesHistory(lives, steps, k, key, w, now);
      }
    } else {
      LongWindowDisagrees(w);
    }
  }

  // ----- the service -----

  /** A meter with its event store, across restarts. */
  class MeteredService {
    var meter: UsageMeter
    var store: seq<Row>
    ghost var clock: int
    ghost var history: seq<Row>

    ghost function State(): Life
      reads this, meter
    {
      Life(meter.events, store, clock, history)
    }

    constructor ()
      ensures State() == BIRTH
    {
      meter := new UsageMeter();
      store, clock, history := [], 0, [];
    }

    method RecordUsage(key: Key, amount: real, now: int)
      requires now >= clock
      modifies this, meter
      ensures Next(old(State()), Record(key, amount, now), State())
    {
      meter.Record(key.provider, key.kind, amount, now);
      clock := now;
      if amount > 0.0 {
        var row := Row(key.provider, now, KindName(key.kind), amount);
        store := store + [row];
        history := history + [row];
      }
    }

    method StartAgain(now: int)
      requires now >= clock
      modifies this
      ensures Next(old(State()), Restart(now), State())
    {
      store := KeptRows(store, now - RETAIN_SECS);
      meter := new UsageMeter();
      meter.Load(store);
      clock := now;
    }
  }
}
