/** Rolling usage windows over an in-memory log that is pruned, and rebuilt from the
    event store on restart. */
module Usage {
  import opened Wrappers

  datatype Kind = Billing | Count | Token

  function KindName(k: Kind): string {
    match k
    case Billing => "billing"
    case Count => "count"
    case Token => "token"
  }

  function ParseKind(s: string): Option<Kind> {
    if s == "billing" then Some(Billing) else if s == "count" then Some(Count)
    else if s == "token" then Some(Token) else None
  }

  /** 31 days, in seconds. */
  const RETAIN_SECS: int := 31 * 24 * 3600

  datatype Event = Event(ts: int, amount: real)

  datatype Key = Key(provider: string, kind: Kind)

  /** A stored event; the kind is stored by name. */
  datatype Row = Row(provider: string, ts: int, kindName: string, amount: real)

  datatype Window = Window(name: string, secs: nat, limit: real)

  datatype Stat = Stat(name: string, limit: real, spent: real, remaining: real, resetInSecs: int)

  datatype Spec = Spec(kind: Kind, windows: seq<Window>)

  type Log = map<Key, seq<Event>>

  function EventsOf(log: Log, key: Key): seq<Event> {
    if key in log then log[key] else []
  }

  // ----- window arithmetic -----

  function Spent(evts: seq<Event>, cutoff: int): real {
    if evts == [] then 0.0 else (if evts[0].ts > cutoff then evts[0].amount else 0.0) + Spent(evts[1..], cutoff)
  }

  /** Time of the first event inside the window. */
  function Oldest(evts: seq<Event>, cutoff: int): Option<int> {
    if evts == [] then None else if evts[0].ts > cutoff then Some(evts[0].ts) else Oldest(evts[1..], cutoff)
  }

  function NonNegative(r: real): real {
    if r < 0.0 then 0.0 else r
  }

  function ResetIn(evts: seq<Event>, secs: nat, now: int): int {
    match Oldest(evts, now - secs)
    case None => secs
    case Some(ts) => if ts + secs - now < 0 then 0 else ts + secs - now
  }

  function StatOf(evts: seq<Event>, w: Window, now: int): Stat {
    var spent := Spent(evts, now - w.secs);
    Stat(w.name, w.limit, spent, NonNegative(w.limit - spent), ResetIn(evts, w.secs, now))
  }

  function StatsOf(evts: seq<Event>, windows: seq<Window>, now: int): seq<Stat> {
    seq(|windows|, k requires 0 <= k < |windows| => StatOf(evts, windows[k], now))
  }

  // ----- log operations -----

  function Retain(evts: seq<Event>, cutoff: int): seq<Event> {
    if evts == [] then [] else (if evts[0].ts >= cutoff then [evts[0]] else []) + Retain(evts[1..], cutoff)
  }

  lemma {:induction false} RetainMeaning(evts: seq<Event>, cutoff: int)
    ensures forall e :: e in Retain(evts, cutoff) <==> e in evts && e.ts >= cutoff
  {
    if evts != [] {
      RetainMeaning(evts[1..], cutoff);
      assert forall e :: e in evts <==> e == evts[0] || e in evts[1..];
    }
  }

  /** Accepted amounts are positive; others are ignored. */
  function Recorded(log: Log, key: Key, amount: real, now: int): Log {
    if amount <= 0.0 then log
    else log[key := Retain(EventsOf(log, key) + [Event(now, amount)], now - RETAIN_SECS)]
  }

  /** Insert after everything not later: the step of a stable sort. */
  function Insert(sorted: seq<Event>, e: Event): seq<Event> {
    if sorted == [] || sorted[|sorted| - 1].ts <= e.ts then sorted + [e]
    else Insert(sorted[..|sorted| - 1], e) + [sorted[|sorted| - 1]]
  }

  function SortByTime(evts: seq<Event>): seq<Event> {
    if evts == [] then [] else Insert(SortByTime(evts[..|evts| - 1]), evts[|evts| - 1])
  }

  function RowKey(r: Row): Option<Key> {
    match ParseKind(r.kindName)
    case None => None
    case Some(kind) => Some(Key(r.provider, kind))
  }

  function RowEvent(r: Row): Event {
    Event(r.ts, r.amount)
  }

  /** The events of the rows that belong to `key`, in row order. */
  function RowsFor(rows: seq<Row>, key: Key): seq<Event> {
    if rows == [] then [] else
      (if RowKey(rows[0]) == Some(key) then [RowEvent(rows[0])] else []) + RowsFor(rows[1..], key)
  }

  lemma {:induction false} RowsForAppend(a: seq<Row>, b: seq<Row>, key: Key)
    ensures RowsFor(a + b, key) == RowsFor(a, key) + RowsFor(b, key)
  {
    if a == [] {
      assert a + b == b;
    } else {
      assert (a + b)[0] == a[0] && (a + b)[1..] == a[1..] + b;
      RowsForAppend(a[1..], b, key);
    }
  }

  lemma RowsForNext(rows: seq<Row>, k: nat, key: Key)
    requires k < |rows|
    ensures RowsFor(rows[..k + 1], key) == RowsFor(rows[..k], key) + RowsFor([rows[k]], key)
  {
    assert rows[..k + 1] == rows[..k] + [rows[k]];
    RowsForAppend(rows[..k], [rows[k]], key);
  }

  class UsageMeter {
    var events: Log

    constructor ()
      ensures events == map[]
    {
      events := map[];
    }

    /** Add stored rows, unknown kinds skipped, and put every log in time order. */
    method Load(rows: seq<Row>)
      modifies this
      ensures forall key :: EventsOf(events, key) == SortByTime(EventsOf(old(events), key) + RowsFor(rows, key))
    {
      ghost var before := events;
      for k := 0 to |rows|
        invariant forall key :: EventsOf(events, key) == EventsOf(before, key) + RowsFor(rows[..k], key)
      {
        forall key { RowsForNext(rows, k, key); }
        LoadRow(rows[k]);
      }
      assert rows[..|rows|] == rows;
      SortLogs();
    }

    method LoadRow(row: Row)
      modifies this
      ensures forall key :: EventsOf(events, key) == EventsOf(old(events), key) + RowsFor([row], key)
    {
      assert [row][1..] == [];
      var key := RowKey(row);
      if key.Some? {
        events := events[key.value := EventsOf(events, key.value) + [RowEvent(row)]];
      }
    }

    method SortLogs()
      modifies this
      ensures forall key :: EventsOf(events, key) == SortByTime(EventsOf(old(events), key))
    {
      var unsorted := events;
      events := map key | key in unsorted :: SortByTime(unsorted[key]);
    }

    method Record(provider: string, kind: Kind, amount: real, now: int)
      modifies this
      ensures events == Recorded(old(events), Key(provider, kind), amount, now)
      ensures forall other :: other != Key(provider, kind) ==> EventsOf(events, other) == EventsOf(old(events), other)
      ensures amount <= 0.0 ==> events == old(events)
      ensures amount > 0.0 ==> forall e :: e in EventsOf(events, Key(provider, kind)) <==>
                && (e in EventsOf(old(events), Key(provider, kind)) || e == Event(now, amount))
                && e.ts >= now - RETAIN_SECS
    {
      if amount <= 0.0 { return; }
      var key := Key(provider, kind);
      var v := EventsOf(events, key) + [Event(now, amount)];
      var cutoff := now - RETAIN_SECS;
      RetainMeaning(v, cutoff);
      events := events[key := Retain(v, cutoff)];
    }

    method Windows(provider: string, kind: Kind, windows: seq<Window>, now: int) returns (stats: seq<Stat>)
      ensures stats == StatsOf(EventsOf(events, Key(provider, kind)), windows, now)
    {
      stats := [];
      var evts := EventsOf(events, Key(provider, kind));
      for k := 0 to |windows|
        invariant stats == StatsOf(evts, windows[..k], now)
      {
        var w := windows[k];
        var cutoff := now - w.secs;
        var spent, oldest := Tally(evts, cutoff);
        var remaining := if w.limit - spent < 0.0 then 0.0 else w.limit - spent;
        var reset: int := w.secs;
        if oldest.Some? {
          reset := oldest.value + w.secs - now;
          if reset < 0 { reset := 0; }
        }
        stats := stats + [Stat(w.name, w.limit, spent, remaining, reset)];
      }
      assert windows[..|windows|] == windows;
    }

    /** The inner loop over the log. */
    static method Tally(evts: seq<Event>, cutoff: int) returns (spent: real, oldest: Option<int>)
      ensures spent == Spent(evts, cutoff) && oldest == Oldest(evts, cutoff)
    {
      spent, oldest := 0.0, None;
      for k := 0 to |evts|
        invariant spent + Spent(evts[k..], cutoff) == Spent(evts, cutoff)
        invariant (if oldest.Some? then oldest else Oldest(evts[k..], cutoff)) == Oldest(evts, cutoff)
      {
        assert evts[k..][0] == evts[k] && evts[k..][1..] == evts[k + 1..];
        if evts[k].ts > cutoff {
          spent := spent + evts[k].amount;
          if oldest.None? { oldest := Some(evts[k].ts); }
        }
      }
      assert evts[|evts|..] == [];
    }

    /** Whether any window of any spec has nothing remaining. */
    method Exhausted(provider: string, specs: seq<Spec>, now: int) returns (b: bool)
      ensures b <==> IsExhausted(events, provider, specs, now)
    {
      for i := 0 to |specs|
        invariant forall j :: 0 <= j < i ==>
                    !AnyExhausted(EventsOf(events, Key(provider, specs[j].kind)), specs[j].windows, now)
      {
        var stats := Windows(provider, specs[i].kind, specs[i].windows, now);
        b := AnyEmpty(stats);
        NothingRemains(EventsOf(events, Key(provider, specs[i].kind)), specs[i].windows, now);
        if b { return; }
      }
      return false;
    }

    static method AnyEmpty(stats: seq<Stat>) returns (b: bool)
      ensures b <==> exists k :: 0 <= k < |stats| && stats[k].remaining <= 0.0
    {
      for k := 0 to |stats|
        invariant forall j :: 0 <= j < k ==> stats[j].remaining > 0.0
      {
        if stats[k].remaining <= 0.0 { return true; }
      }
      return false;
    }

    /** The providers with an exhausted window. */
    method ExhaustedSet(providers: map<string, seq<Spec>>, now: int) returns (names: set<string>)
      ensures names == set p | p in providers && IsExhausted(events, p, providers[p], now)
    {
      names := {};
      var todo := providers.Keys;
      while todo != {}
        invariant todo <= providers.Keys
        invariant names == set p | p in providers && p !in todo && IsExhausted(events, p, providers[p], now)
        decreases |todo|
      {
        var p :| p in todo;
        var b := Exhausted(p, providers[p], now);
        if b { names := names + {p}; }
        todo := todo - {p};
      }
    }
  }

  /** Some window's spending has reached its limit. */
  predicate AnyExhausted(evts: seq<Event>, windows: seq<Window>, now: int) {
    exists k :: 0 <= k < |windows| && Spent(evts, now - windows[k].secs) >= windows[k].limit
  }

  ghost predicate IsExhausted(log: Log, provider: string, specs: seq<Spec>, now: int) {
    exists i :: 0 <= i < |specs| && AnyExhausted(EventsOf(log, Key(provider, specs[i].kind)), specs[i].windows, now)
  }

  /** Nothing remains in a window exactly when its limit has been spent. */
  lemma NothingRemains(evts: seq<Event>, windows: seq<Window>, now: int)
    ensures AnyExhausted(evts, windows, now) <==>
            exists k :: 0 <= k < |windows| && StatsOf(evts, windows, now)[k].remaining <= 0.0
  {
    var stats := StatsOf(evts, windows, now);
    assert forall k :: 0 <= k < |windows| ==> stats[k] == StatOf(evts, windows[k], now);
    if AnyExhausted(evts, windows, now) {
      var k :| 0 <= k < |windows| && Spent(evts, now - windows[k].secs) >= windows[k].limit;
      assert stats[k].remaining <= 0.0;
    }
  }

  /** Spent and remaining add up to the limit until it is reached; then nothing remains. */
  lemma RemainsExactly(evts: seq<Event>, w: Window, now: int)
    ensures var stat := StatOf(evts, w, now);
      && stat.name == w.name && stat.limit == w.limit && stat.spent == Spent(evts, now - w.secs)
      && (stat.spent <= w.limit ==> stat.spent + stat.remaining == w.limit)
      && (stat.spent >= w.limit ==> stat.remaining == 0.0)
  {
  }

  /** A window with nothing inside has spent nothing and resets after its whole length. */
  lemma {:induction false} EmptyWindow(evts: seq<Event>, w: Window, now: int)
    requires forall k :: 0 <= k < |evts| ==> evts[k].ts <= now - w.secs
    ensures StatOf(evts, w, now).spent == 0.0 && StatOf(evts, w, now).resetInSecs == w.secs
  {
    if evts != [] { EmptyWindow(evts[1..], w, now); }
  }

  // ----- sorting -----

  predicate Ascending(evts: seq<Event>) {
    forall i, j :: 0 <= i < j < |evts| ==> evts[i].ts <= evts[j].ts
  }

  lemma {:induction false} SortSorted(evts: seq<Event>)
    requires Ascending(evts)
    ensures SortByTime(evts) == evts
  {
    if evts != [] {
      var init, last := evts[..|evts| - 1], evts[|evts| - 1];
      SortSorted(init);
      assert SortByTime(evts) == Insert(init, last);
      assert init != [] ==> init[|init| - 1] == evts[|evts| - 2];
      assert Insert(init, last) == init + [last] == evts;
    }
  }

  lemma AscendingSnoc(evts: seq<Event>, e: Event)
    requires Ascending(evts) && forall x :: x in evts ==> x.ts <= e.ts
    ensures Ascending(evts + [e])
  {
    assert forall k :: 0 <= k < |evts| ==> evts[k] in evts;
  }

  lemma {:induction false} InsertKeeps(sorted: seq<Event>, e: Event)
    ensures multiset(Insert(sorted, e)) == multiset(sorted) + multiset{e}
    ensures forall x :: x in Insert(sorted, e) ==> x == e || x in sorted
  {
    if sorted != [] && sorted[|sorted| - 1].ts > e.ts {
      var init, last := sorted[..|sorted| - 1], sorted[|sorted| - 1];
      assert sorted == init + [last];
      InsertKeeps(init, e);
    }
  }

  lemma LastIsLatest(evts: seq<Event>, x: Event)
    requires Ascending(evts) && x in evts
    ensures x.ts <= evts[|evts| - 1].ts
  {
    var k :| 0 <= k < |evts| && evts[k] == x;
  }

  lemma {:induction false} InsertAscending(sorted: seq<Event>, e: Event)
    requires Ascending(sorted)
    ensures Ascending(Insert(sorted, e))
  {
    if sorted == [] || sorted[|sorted| - 1].ts <= e.ts {
      forall x | x in sorted ensures x.ts <= e.ts { LastIsLatest(sorted, x); }
      AscendingSnoc(sorted, e);
    } else {
      var init, last := sorted[..|sorted| - 1], sorted[|sorted| - 1];
      InsertAscending(init, e);
      InsertKeeps(init, e);
      forall x | x in Insert(init, e) ensures x.ts <= last.ts {
        if x != e { assert x in sorted; LastIsLatest(sorted, x); }
      }
      AscendingSnoc(Insert(init, e), last);
    }
  }

  /** Loading leaves every log in time order with exactly the events put into it. */
  lemma {:induction false} SortMeaning(evts: seq<Event>)
    ensures Ascending(SortByTime(evts)) && multiset(SortByTime(evts)) == multiset(evts)
  {
    if evts != [] {
      var init, last := evts[..|evts| - 1], evts[|evts| - 1];
      SortMeaning(init);
      InsertKeeps(SortByTime(init), last);
      InsertAscending(SortByTime(init), last);
      assert evts == init + [last];
    }
  }
}
