/** What a window's reset time promises. */
module UsageReset {
  import opened Wrappers
  import opened Usage
  import opened UsageHistory

  predicate Positive(evts: seq<Event>) {
    forall k :: 0 <= k < |evts| ==> evts[k].amount > 0.0
  }

  function SpentAt(evts: seq<Event>, secs: nat, now: int): real {
    Spent(evts, now - secs)
  }

  lemma {:induction false} AllCounted(evts: seq<Event>, c: int, d: int)
    requires forall k :: 0 <= k < |evts| ==> evts[k].ts > c && evts[k].ts > d
    ensures Spent(evts, c) == Spent(evts, d)
  {
    if evts != [] { AllCounted(evts[1..], c, d); }
  }

  /** Nothing leaves a window before its oldest event does. */
  lemma {:induction false} SteadyUntilOldest(evts: seq<Event>, c: int, d: int)
    requires Ascending(evts) && c <= d
    requires Oldest(evts, c).Some? ==> d < Oldest(evts, c).value
    ensures Spent(evts, d) == Spent(evts, c)
  {
    if evts != [] {
      if evts[0].ts > c { AllCounted(evts, c, d); } else { SteadyUntilOldest(evts[1..], c, d); }
    }
  }

  /** A later cutoff never counts more. */
  lemma {:induction false} CountsLess(evts: seq<Event>, c: int, d: int)
    requires Positive(evts) && c <= d
    ensures Spent(evts, d) <= Spent(evts, c)
  {
    if evts != [] { CountsLess(evts[1..], c, d); }
  }

  /** Once the oldest event has left, less is spent. */
  lemma {:induction false} DropsAtOldest(evts: seq<Event>, c: int, d: int)
    requires Positive(evts) && c <= d && Oldest(evts, c).Some? && Oldest(evts, c).value <= d
    ensures Spent(evts, d) < Spent(evts, c)
  {
    if evts[0].ts > c { CountsLess(evts[1..], c, d); } else { DropsAtOldest(evts[1..], c, d); }
  }

  lemma {:induction false} OldestIsInside(evts: seq<Event>, c: int)
    ensures Oldest(evts, c).Some? ==> Oldest(evts, c).value > c
  {
    if evts != [] { OldestIsInside(evts[1..], c); }
  }

  /** With nothing recorded, spending stays as it is until the reset time and is
      lower from then on. */
  lemma ResetIsExact(evts: seq<Event>, secs: nat, now: int, t: int)
    requires Ascending(evts) && Positive(evts) && Oldest(evts, now - secs).Some? && now <= t
    ensures SpentAt(evts, secs, t) == SpentAt(evts, secs, now) <==> t < now + ResetIn(evts, secs, now)
    ensures SpentAt(evts, secs, t) <= SpentAt(evts, secs, now)
  {
    OldestIsInside(evts, now - secs);
    CountsLess(evts, now - secs, t - secs);
    if t < now + ResetIn(evts, secs, now) {
      SteadyUntilOldest(evts, now - secs, t - secs);
    } else {
      DropsAtOldest(evts, now - secs, t - secs);
    }
  }

  /** Until the reset time spending is steady, with or without an event inside. */
  lemma SteadyUntilReset(evts: seq<Event>, secs: nat, now: int, t: int)
    requires Ascending(evts) && now <= t < now + ResetIn(evts, secs, now)
    ensures SpentAt(evts, secs, t) == SpentAt(evts, secs, now)
  {
    OldestIsInside(evts, now - secs);
    SteadyUntilOldest(evts, now - secs, t - secs);
  }

  lemma {:induction false} MoreIsMore(before: seq<Event>, after: seq<Event>, cutoff: int)
    requires Positive(after)
    ensures Spent(before, cutoff) <= Spent(before + after, cutoff)
  {
    if before == [] {
      assert before + after == after;
      NotNegative(after, cutoff);
    } else {
      assert (before + after)[1..] == before[1..] + after;
      MoreIsMore(before[1..], after, cutoff);
    }
  }

  lemma {:induction false} NotNegative(evts: seq<Event>, cutoff: int)
    requires Positive(evts)
    ensures Spent(evts, cutoff) >= 0.0
  {
    if evts != [] { NotNegative(evts[1..], cutoff); }
  }

  // ----- over runs -----

  predicate RowsPositive(rows: seq<Row>) {
    forall k :: 0 <= k < |rows| ==> rows[k].amount > 0.0
  }

  /** Every accepted row, in time order and up to the clock. */
  predicate GoodHistory(l: Life) {
    && RowsAscending(l.history) && RowsPositive(l.history)
    && forall k :: 0 <= k < |l.history| ==> l.history[k].ts <= l.clock
  }

  lemma {:induction false} HistoryIsGood(lives: seq<Life>, steps: seq<Step>, k: nat)
    requires IsRun(lives, steps) && k < |lives|
    ensures GoodHistory(lives[k])
  {
    if k > 0 {
      HistoryIsGood(lives, steps, k - 1);
      assert Next(lives[k - 1], steps[k - 1], lives[k]);
      StepIsGood(lives[k - 1], steps[k - 1], lives[k]);
    }
  }

  lemma StepIsGood(a: Life, st: Step, b: Life)
    requires GoodHistory(a) && Next(a, st, b)
    ensures GoodHistory(b)
  {
  }

  lemma {:induction false} HistoryOnlyGrows(lives: seq<Life>, steps: seq<Step>, k: nat, m: nat)
    requires IsRun(lives, steps) && k <= m < |lives|
    ensures lives[k].history <= lives[m].history && lives[k].clock <= lives[m].clock
    decreases m
  {
    if k < m {
      HistoryOnlyGrows(lives, steps, k, m - 1);
      assert Next(lives[m - 1], steps[m - 1], lives[m]);
    }
  }

  lemma {:induction false} PositiveEvents(rows: seq<Row>, key: Key)
    requires RowsPositive(rows)
    ensures Positive(RowsFor(rows, key))
  {
    if rows != [] { PositiveEvents(rows[1..], key); }
  }

  /** A longer history never reads as less spent. */
  lemma LongerHistorySpendsMore(early: seq<Row>, late: seq<Row>, key: Key, cutoff: int)
    requires early <= late && RowsPositive(late)
    ensures Spent(RowsFor(early, key), cutoff) <= Spent(RowsFor(late, key), cutoff)
  {
    var more := late[|early|..];
    assert late == early + more;
    RowsForAppend(early, more, key);
    assert forall k :: 0 <= k < |more| ==> more[k] == late[|early| + k];
    PositiveEvents(more, key);
    MoreIsMore(RowsFor(early, key), RowsFor(more, key), cutoff);
  }

  function StatAt(l: Life, key: Key, w: Window, now: int): Stat {
    StatOf(EventsOf(l.log, key), w, now)
  }

  /** What the meter reads is what its full history says. */
  lemma ReadFromHistory(lives: seq<Life>, steps: seq<Step>, k: nat, key: Key, w: Window, now: int)
    requires IsRun(lives, steps) && k < |lives| && w.secs <= RETAIN_SECS + 1 && lives[k].clock <= now
    ensures StatAt(lives[k], key, w, now) == StatOf(RowsFor(lives[k].history, key), w, now)
  {
    PrunedLogRefinesHistory(lives, steps, k, key, w, now);
  }

  /** The history as read counts as much at any time before the reset. */
  lemma HistorySteady(lives: seq<Life>, steps: seq<Step>, k: nat, key: Key, w: Window, now: int, t: int)
    requires IsRun(lives, steps) && k < |lives| && w.secs <= RETAIN_SECS + 1 && lives[k].clock <= now
    requires now <= t < now + StatAt(lives[k], key, w, now).resetInSecs
    ensures StatAt(lives[k], key, w, now).spent == Spent(RowsFor(lives[k].history, key), t - w.secs)
  {
    ReadFromHistory(lives, steps, k, key, w, now);
    HistoryIsGood(lives, steps, k);
    RowsForAscending(lives[k].history, key);
    SteadyUntilReset(RowsFor(lives[k].history, key), w.secs, now, t);
  }

  lemma LaterLifeSpendsMore(lives: seq<Life>, steps: seq<Step>, k: nat, m: nat, key: Key, cutoff: int)
    requires IsRun(lives, steps) && k <= m < |lives|
    ensures Spent(RowsFor(lives[k].history, key), cutoff) <= Spent(RowsFor(lives[m].history, key), cutoff)
  {
    HistoryIsGood(lives, steps, m);
    HistoryOnlyGrows(lives, steps, k, m);
    LongerHistorySpendsMore(lives[k].history, lives[m].history, key, cutoff);
  }

  /** Whatever is recorded, evicted or reloaded meanwhile, spending read before the
      reset time is at least what was read first. */
  lemma SpentHoldsUntilReset(lives: seq<Life>, steps: seq<Step>, k: nat, m: nat, key: Key, w: Window, now: int, t: int)
    requires IsRun(lives, steps) && k <= m < |lives| && w.secs <= RETAIN_SECS + 1
    requires lives[k].clock <= now <= t && lives[m].clock <= t
    requires t < now + StatAt(lives[k], key, w, now).resetInSecs
    ensures StatAt(lives[m], key, w, t).spent >= StatAt(lives[k], key, w, now).spent
  {
    HistorySteady(lives, steps, k, key, w, now, t);
    LaterLifeSpendsMore(lives, steps, k, m, key, t - w.secs);
    ReadFromHistory(lives, steps, m, key, w, t);
  }

  /** So an exhausted window cannot recover before its reset time. */
  lemma ExhaustedUntilReset(lives: seq<Life>, steps: seq<Step>, k: nat, m: nat, key: Key, w: Window, now: int, t: int)
    requires IsRun(lives, steps) && k <= m < |lives| && w.secs <= RETAIN_SECS + 1
    requires lives[k].clock <= now <= t && lives[m].clock <= t
    requires t < now + StatAt(lives[k], key, w, now).resetInSecs
    requires StatAt(lives[k], key, w, now).remaining == 0.0
    ensures StatAt(lives[m], key, w, t).remaining == 0.0
  {
    SpentHoldsUntilReset(lives, steps, k, m, key, w, now, t);
  }

  // ----- and then falls -----

  /** Nothing is added to the window's key: restarts, other keys and refused amounts only. */
  predicate Untouched(steps: seq<Step>, k: nat, m: nat, key: Key)
    requires k <= m <= |steps|
  {
    forall j :: k <= j < m && steps[j].Record? ==> steps[j].key != key || steps[j].amount <= 0.0
  }

  lemma {:induction false} UntouchedHistory(lives: seq<Life>, steps: seq<Step>, k: nat, m: nat, key: Key)
    requires IsRun(lives, steps) && k <= m < |lives| && Untouched(steps, k, m, key)
    ensures RowsFor(lives[m].history, key) == RowsFor(lives[k].history, key)
    decreases m
  {
    if k < m {
      UntouchedHistory(lives, steps, k, m - 1, key);
      assert Next(lives[m - 1], steps[m - 1], lives[m]);
      UntouchedStep(lives[m - 1], steps[m - 1], lives[m], key);
    }
  }

  lemma UntouchedStep(a: Life, st: Step, b: Life, key: Key)
    requires Next(a, st, b) && (st.Record? ==> st.key != key || st.amount <= 0.0)
    ensures RowsFor(b.history, key) == RowsFor(a.history, key)
  {
    if st.Record? { RowsForRecorded(a.history, st.key, st.amount, st.now, key); }
  }

  lemma {:induction false} SpendingHasOldest(evts: seq<Event>, cutoff: int)
    requires Spent(evts, cutoff) != 0.0
    ensures Oldest(evts, cutoff).Some?
  {
    if evts[0].ts <= cutoff { SpendingHasOldest(evts[1..], cutoff); }
  }

  /** A meter whose key is left alone, however often the service restarts, reads its first
      figure up to the reset time it showed, and a lower one from then on. */
  lemma FallsExactlyAtReset(lives: seq<Life>, steps: seq<Step>, k: nat, m: nat, key: Key, w: Window, now: int, t: int)
    requires IsRun(lives, steps) && k <= m < |lives| && w.secs <= RETAIN_SECS + 1
    requires Untouched(steps, k, m, key)
    requires lives[k].clock <= now <= t && lives[m].clock <= t
    requires StatAt(lives[k], key, w, now).spent != 0.0
    ensures StatAt(lives[m], key, w, t).spent <= StatAt(lives[k], key, w, now).spent
    ensures StatAt(lives[m], key, w, t).spent == StatAt(lives[k], key, w, now).spent <==>
      t < now + StatAt(lives[k], key, w, now).resetInSecs
  {
    var evts := RowsFor(lives[k].history, key);
    ReadFromHistory(lives, steps, k, key, w, now);
    ReadFromHistory(lives, steps, m, key, w, t);
    UntouchedHistory(lives, steps, k, m, key);
    HistoryIsGood(lives, steps, k);
    RowsForAscending(lives[k].history, key);
    PositiveEvents(lives[k].history, key);
    SpendingHasOldest(evts, now - w.secs);
    ResetIsExact(evts, w.secs, now, t);
  }

  // ----- and not for longer windows -----

  /** Life `m`, read at `t`, comes before the reset time that life `k` showed at `now`. */
  ghost predicate BeforeReset(lives: seq<Life>, steps: seq<Step>, k: nat, m: nat, key: Key, w: Window,
                              now: int, t: int)
  {
    && IsRun(lives, steps) && k <= m < |lives| && lives[k].clock <= now <= t && lives[m].clock <= t
    && t < now + StatAt(lives[k], key, w, now).resetInSecs
  }

  ghost predicate AlwaysHolds(w: Window) {
    forall lives: seq<Life>, steps: seq<Step>, k: nat, m: nat, key: Key, now: int, t: int ::
      BeforeReset(lives, steps, k, m, key, w, now, t) ==>
        StatAt(lives[m], key, w, t).spent >= StatAt(lives[k], key, w, now).spent
  }

  ghost predicate NeverRecovers(w: Window) {
    forall lives: seq<Life>, steps: seq<Step>, k: nat, m: nat, key: Key, now: int, t: int ::
      BeforeReset(lives, steps, k, m, key, w, now, t) && StatAt(lives[k], key, w, now).remaining == 0.0 ==>
        StatAt(lives[m], key, w, t).remaining == 0.0
  }

  /** In a window longer than the log keeps, the eviction of an old event lowers what is
      counted before the promised reset time. */
  lemma EvictionLowers(w: Window, key: Key, a0: real, a1: real) returns (lives: seq<Life>, steps: seq<Step>)
    requires w.secs > RETAIN_SECS + 1 && a0 > 0.0 && a1 > 0.0
    ensures BeforeReset(lives, steps, 1, 2, key, w, 0, RETAIN_SECS + 1)
    ensures StatAt(lives[1], key, w, 0).spent == a0 && StatAt(lives[2], key, w, RETAIN_SECS + 1).spent == a1
  {
    lives, steps := EvictingRun(key, a0, a1);
    SpentShort(Event(0, a0), Event(RETAIN_SECS + 1, a1), 0 - w.secs);
    SpentShort(Event(0, a0), Event(RETAIN_SECS + 1, a1), RETAIN_SECS + 1 - w.secs);
    assert Oldest([Event(0, a0)], 0 - w.secs) == Some(0);
  }

  /** Spending holds until the reset time exactly for windows of at most 31 days and a
      second. */
  lemma HoldsExactly(w: Window)
    ensures AlwaysHolds(w) <==> w.secs <= 31 * 86400 + 1
  {
    if w.secs <= RETAIN_SECS + 1 {
      forall lives: seq<Life>, steps: seq<Step>, k: nat, m: nat, key: Key, now: int, t: int |
        BeforeReset(lives, steps, k, m, key, w, now, t)
        ensures StatAt(lives[m], key, w, t).spent >= StatAt(lives[k], key, w, now).spent
      {
        SpentHoldsUntilReset(lives, steps, k, m, key, w, now, t);
      }
    } else {
      var lives, steps := EvictionLowers(w, Key("p", Count), 2.0, 1.0);
    }
  }

  /** An exhausted window recovers early exactly if it is longer than that and its limit
      is positive. */
  lemma NeverRecoversExactly(w: Window)
    ensures NeverRecovers(w) <==> w.secs <= 31 * 86400 + 1 || w.limit <= 0.0
  {
    if w.secs <= RETAIN_SECS + 1 || w.limit <= 0.0 {
      forall lives: seq<Life>, steps: seq<Step>, k: nat, m: nat, key: Key, now: int, t: int |
        BeforeReset(lives, steps, k, m, key, w, now, t) && StatAt(lives[k], key, w, now).remaining == 0.0
        ensures StatAt(lives[m], key, w, t).remaining == 0.0
      {
        if w.secs <= RETAIN_SECS + 1 {
          ExhaustedUntilReset(lives, steps, k, m, key, w, now, t);
        } else {
          LogIsPositive(lives, steps, m, key);
          NotNegative(EventsOf(lives[m].log, key), t - w.secs);
        }
      }
    } else {
      var lives, steps := EvictionLowers(w, Key("p", Count), w.limit, w.limit / 2.0);
    }
  }

  /** No run puts anything but positive amounts into the log or the store. */
  lemma {:induction false} LogIsPositive(lives: seq<Life>, steps: seq<Step>, k: nat, key: Key)
    requires IsRun(lives, steps) && k < |lives|
    ensures Positive(EventsOf(lives[k].log, key)) && RowsPositive(lives[k].store)
  {
    if k > 0 {
      var a, st, b := lives[k - 1], steps[k - 1], lives[k];
      LogIsPositive(lives, steps, k - 1, key);
      assert Next(a, st, b);
      StepPositive(a, st, b, key);
    }
  }

  lemma StepPositive(a: Life, st: Step, b: Life, key: Key)
    requires Next(a, st, b) && Positive(EventsOf(a.log, key)) && RowsPositive(a.store)
    ensures Positive(EventsOf(b.log, key)) && RowsPositive(b.store)
  {
    match st
    case Record(other, amount, now) => RecordedPositive(a.log, other, amount, now, key);
    case Restart(now) => LoadedPositive(a, now, b, key);
  }

  lemma RecordedPositive(log: Log, other: Key, amount: real, now: int, key: Key)
    requires Positive(EventsOf(log, key))
    ensures Positive(EventsOf(Recorded(log, other, amount, now), key))
  {
    if amount > 0.0 && other == key {
      RetainPositive(EventsOf(log, key) + [Event(now, amount)], now - RETAIN_SECS);
    }
  }

  lemma LoadedPositive(a: Life, now: int, b: Life, key: Key)
    requires Next(a, Restart(now), b) && RowsPositive(a.store)
    ensures Positive(EventsOf(b.log, key)) && RowsPositive(b.store)
  {
    KeptPositive(a.store, now - RETAIN_SECS);
    PositiveEvents(b.store, key);
    assert EventsOf(map[], key) + RowsFor(b.store, key) == RowsFor(b.store, key);
    SortedPositive(RowsFor(b.store, key));
  }

  lemma {:induction false} RetainPositive(evts: seq<Event>, cutoff: int)
    requires Positive(evts)
    ensures Positive(Retain(evts, cutoff))
  {
    if evts != [] { RetainPositive(evts[1..], cutoff); }
  }

  lemma {:induction false} KeptPositive(rows: seq<Row>, since: int)
    requires RowsPositive(rows)
    ensures RowsPositive(KeptRows(rows, since))
  {
    if rows != [] { KeptPositive(rows[1..], since); }
  }

  lemma SortedPositive(evts: seq<Event>)
    requires Positive(evts)
    ensures Positive(SortByTime(evts))
  {
    SortMeaning(evts);
    var sorted := SortByTime(evts);
    forall k | 0 <= k < |sorted| ensures sorted[k].amount > 0.0 {
      assert sorted[k] in multiset(sorted) && sorted[k] in multiset(evts);
    }
  }
}
