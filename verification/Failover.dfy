/** Reactive failover: one request's attempts over its candidates, and the shared
    status map over whole runs of requests, probes and reloads. */
module Failover {
  import opened Errors
  import opened Router
  import opened Usage
  import opened UsageHistory
  import opened UsageReset
  import opened Wrappers

  predicate IsRetryable(e: BridgeError) {
    match e
    case UpstreamUnreachable(_) => true
    case Upstream(status, _) => status in {401, 402, 408, 429} || 500 <= status <= 599
    case _ => false
  }

  // ----- the shared state -----

  datatype World = World(config: Config, status: StatusMap)

  /** Atomic changes: a failed attempt, a probe's report, a configuration reload. */
  datatype Change = Mark(name: string, reason: string) | Probe(name: string, report: Status) | Reload(config: Config)

  const NEVER_CHECKED := Status(false, None, None, None, None, false, None, None)

  predicate Unavailable(status: StatusMap, name: string) {
    name in status && !status[name].available && !status[name].lastOk && status[name].error.Some?
  }

  /** All that a failed attempt leaves alone in a provider's status. */
  predicate SameFigures(a: Status, b: Status) {
    && a.quotaRemaining == b.quotaRemaining && a.quotaUsed == b.quotaUsed && a.quotaLimit == b.quotaLimit
    && a.lastChecked == b.lastChecked && a.note == b.note
  }

  function Marked(status: StatusMap, name: string, reason: string): StatusMap {
    var entry := if name in status then status[name] else NEVER_CHECKED;
    status[name := entry.(available := false, lastOk := false, error := Some(reason))]
  }

  function Apply(w: World, c: Change): World {
    match c
    case Mark(name, reason) => w.(status := Marked(w.status, name, reason))
    case Probe(name, report) => w.(status := w.status[name := report])
    case Reload(config) => World(config, map p | p in w.status && p in config.providers :: w.status[p])
  }

  function ApplyAll(w: World, changes: seq<Change>): World
    decreases changes
  {
    if changes == [] then w else Apply(ApplyAll(w, changes[..|changes| - 1]), changes[|changes| - 1])
  }

  // ----- one request -----

  /** Reply `k` settles the request: a success, an error not worth retrying, or the
      last candidate's answer. */
  predicate Settles<T>(replies: seq<Result<T, BridgeError>>, k: nat)
    requires k < |replies|
  {
    replies[k].Ok? || !IsRetryable(replies[k].error) || k + 1 == |replies|
  }

  /** The number of attempts made. */
  function Attempts<T>(replies: seq<Result<T, BridgeError>>, from: nat): (n: nat)
    requires from <= |replies|
    ensures from <= n <= |replies| && (from < |replies| ==> from < n)
    decreases |replies| - from
  {
    if from == |replies| then from else if Settles(replies, from) then from + 1 else Attempts(replies, from + 1)
  }

  function Reason(e: BridgeError): string {
    "request failed: " + Describe(e)
  }

  /** The marks left by the first `n` attempts, all failed. */
  function Marks<T>(candidates: seq<Target>, replies: seq<Result<T, BridgeError>>, n: nat): seq<Change>
    requires n <= |candidates| == |replies| && forall k :: 0 <= k < n ==> replies[k].Err?
  {
    seq(n, k requires 0 <= k < n => Mark(candidates[k].provider, Reason(replies[k].error)))
  }

  /** Attempts stop at the first settling reply: all before it failed retryably. */
  lemma {:induction false} AttemptsMeaning<T>(replies: seq<Result<T, BridgeError>>, from: nat)
    requires from <= |replies|
    ensures from < |replies| ==> Settles(replies, Attempts(replies, from) - 1)
    ensures forall k :: from <= k < Attempts(replies, from) - 1 ==> replies[k].Err? && IsRetryable(replies[k].error)
    decreases |replies| - from
  {
    if from < |replies| && !Settles(replies, from) { AttemptsMeaning(replies, from + 1); }
  }

  /** The marks of a whole request: every attempt but the last. */
  ghost function RequestMarks<T>(candidates: seq<Target>, replies: seq<Result<T, BridgeError>>): seq<Change>
    requires |candidates| == |replies|
  {
    AttemptsMeaning(replies, 0);
    if candidates == [] then [] else Marks(candidates, replies, Attempts(replies, 0) - 1)
  }

  /** What the caller gets, stated without the loop: the first success, else the first
      error not worth retrying, else the last candidate's error. */
  ghost predicate IsOutcome<T>(candidates: seq<Target>, replies: seq<Result<T, BridgeError>>,
                               r: Result<(Target, T), BridgeError>)
    requires |candidates| == |replies|
  {
    if candidates == [] then r == Err(Internal("no upstream candidates")) else
      exists k ::
        && 0 <= k < |replies|
        && (forall j :: 0 <= j < k ==> replies[j].Err? && IsRetryable(replies[j].error))
        && match replies[k]
           case Ok(body) => r == Ok((candidates[k], body))
           case Err(e) => (!IsRetryable(e) || k + 1 == |replies|) && r == Err(e)
  }

  /** There is one such outcome. */
  lemma OutcomeUnique<T>(candidates: seq<Target>, replies: seq<Result<T, BridgeError>>,
                         r: Result<(Target, T), BridgeError>, s: Result<(Target, T), BridgeError>)
    requires |candidates| == |replies| && IsOutcome(candidates, replies, r) && IsOutcome(candidates, replies, s)
    ensures r == s
  {
  }

  /** The upstreams of one request's candidates: what each answers if asked, and which
      have been asked so far. */
  class Upstream<T> {
    const replies: seq<Result<T, BridgeError>>
    ghost var asked: seq<nat>

    constructor (replies: seq<Result<T, BridgeError>>)
      ensures this.replies == replies && asked == []
    {
      this.replies := replies;
      asked := [];
    }

    method Ask(k: nat) returns (r: Result<T, BridgeError>)
      requires k < |replies|
      modifies this
      ensures r == replies[k] && asked == old(asked) + [k]
    {
      asked := asked + [k];
      r := replies[k];
    }
  }

  function FirstOnes(n: nat): seq<nat> {
    seq(n, k => k)
  }

  class Gateway {
    var config: Config
    var status: StatusMap
    var tracking: bool
    const meter: UsageMeter

    constructor (config: Config, status: StatusMap, tracking: bool, meter: UsageMeter)
      ensures State() == World(config, status) && this.tracking == tracking && this.meter == meter
    {
      this.config, this.status, this.tracking, this.meter := config, status, tracking, meter;
    }

    ghost function State(): World
      reads this
    {
      World(config, status)
    }

    /** The candidates of an alias, with spent providers demoted when usage is tracked. */
    method Candidates(alias: string, now: int) returns (r: Result<seq<Target>, BridgeError>)
      ensures var spent := if tracking then SpentProviders(meter.events, config.providers, now) else {};
        r == Router.Candidates(config, status, spent, alias)
    {
      var exhausted := {};
      if tracking {
        exhausted := meter.ExhaustedSet(map p | p in config.providers :: config.providers[p].usage, now);
        SpentAreExhausted(meter.events, config.providers, now, exhausted);
      }
      r := ResolveCandidates(config, status, exhausted, alias);
    }

    /** The provider becomes unavailable, with the error as its reason; its quota figures
        and every other provider's status stay as they were. */
    method MarkDegraded(name: string, e: BridgeError)
      modifies this`status
      ensures State() == Apply(old(State()), Mark(name, Reason(e)))
      ensures Unavailable(status, name) && status[name].error == Some("request failed: " + Describe(e))
      ensures name in old(status) ==> SameFigures(status[name], old(status)[name])
      ensures name !in old(status) ==>
        status[name] == Status(false, None, None, None, None, false, status[name].error, None)
      ensures status.Keys == old(status).Keys + {name}
      ensures forall p :: p in old(status) && p != name ==> status[p] == old(status)[p]
    {
      var entry := if name in status then status[name] else NEVER_CHECKED;
      var reason := "request failed: " + Describe(e);
      status := status[name := entry.(available := false, lastOk := false, error := Some(reason))];
    }

    /** A probe's report, from the watcher or after a mark. */
    method Report(name: string, report: Status)
      modifies this`status
      ensures State() == Apply(old(State()), Probe(name, report))
    {
      status := status[name := report];
    }

    /** Take a new configuration, forgetting providers it does not have. */
    method ReloadConfig(next: Config)
      modifies this`config, this`status
      ensures State() == Apply(old(State()), Reload(next))
      ensures config == next && status.Keys == old(status).Keys * next.providers.Keys
      ensures forall p :: p in status ==> status[p] == old(status)[p]
    {
      config := next;
      status := map p | p in status && p in next.providers :: status[p];
    }

    /** The loop's step: ask candidate `k`; the reply settles the request, or the
        candidate is marked and left for the next one. */
    method TryOne<T>(candidates: seq<Target>, upstream: Upstream<T>, k: nat, ghost first: World)
      returns (settled: bool, r: Result<(Target, T), BridgeError>)
      requires k < |candidates| == |upstream.replies| && Tried(first, candidates, upstream.replies, k, State())
      modifies this`status, upstream
      ensures upstream.asked == old(upstream.asked) + [k] && r == ReplyOf(candidates, upstream.replies, k)
      ensures settled == Settles(upstream.replies, k)
      ensures Tried(first, candidates, upstream.replies, if settled then k else k + 1, State())
      ensures !settled ==> r.Err? && k + 1 < |candidates|
    {
      var reply := upstream.Ask(k);
      match reply
      case Ok(body) =>
        return true, Ok((candidates[k], body));
      case Err(e) =>
        if IsRetryable(e) && k + 1 < |candidates| {
          MarksNext(first, candidates, upstream.replies, k);
          MarkDegraded(candidates[k].provider, e);
          return false, Err(e);
        }
        return true, Err(e);
    }

    /** Try the candidates in order, each asked once, until a reply settles the request.
        Used for streams and for whole responses alike. */
    method Call<T>(candidates: seq<Target>, upstream: Upstream<T>) returns (r: Result<(Target, T), BridgeError>)
      requires |candidates| == |upstream.replies|
      modifies this`status, upstream
      ensures IsOutcome(candidates, upstream.replies, r)
      ensures upstream.asked == old(upstream.asked) + FirstOnes(Attempts(upstream.replies, 0))
      ensures State() == ApplyAll(old(State()), RequestMarks(candidates, upstream.replies))
    {
      ghost var before, first := upstream.asked, State();
      var lastErr: Option<BridgeError> := None;
      var k := 0;
      NoneTried(first, candidates, upstream.replies);
      while k < |candidates|
        modifies this`status, upstream
        invariant k <= |candidates| && upstream.asked == before + FirstOnes(k)
        invariant k == 0 || k < |candidates|
        invariant k == 0 ==> lastErr == None
        invariant Tried(first, candidates, upstream.replies, k, State())
      {
        var settled, reply := TryOne(candidates, upstream, k, first);
        OneMore(k);
        if settled {
          SettledHere(candidates, upstream.replies, k);
          return reply;
        }
        lastErr := Some(reply.error);
        k := k + 1;
      }
      return Err(UnwrapOr(lastErr, Internal("no upstream candidates")));
    }
  }

  /** The first `k` candidates failed over, and are marked. */
  ghost predicate Tried<T>(first: World, candidates: seq<Target>, replies: seq<Result<T, BridgeError>>, k: nat,
                           now: World)
  {
    && |candidates| == |replies| && TriedBefore(replies, k)
    && now == ApplyAll(first, Marks(candidates, replies, k))
  }

  /** Everything before `k` failed in a way worth retrying. */
  predicate TriedBefore<T>(replies: seq<Result<T, BridgeError>>, k: nat) {
    k <= |replies| && forall j :: 0 <= j < k ==> replies[j].Err? && IsRetryable(replies[j].error)
  }

  lemma OneMore(k: nat)
    ensures FirstOnes(k + 1) == FirstOnes(k) + [k]
  {
  }

  /** Before the first attempt; without candidates that is all. */
  lemma NoneTried<T>(w: World, candidates: seq<Target>, replies: seq<Result<T, BridgeError>>)
    requires |candidates| == |replies|
    ensures FirstOnes(0) == [] && Tried(w, candidates, replies, 0, w)
    ensures candidates == [] ==> Attempts(replies, 0) == 0 && RequestMarks(candidates, replies) == []
    ensures candidates == [] ==> IsOutcome(candidates, replies, Err(Internal("no upstream candidates")))
  {
    assert Marks(candidates, replies, 0) == [];
  }

  lemma MarksNext<T>(w: World, candidates: seq<Target>, replies: seq<Result<T, BridgeError>>, k: nat)
    requires k < |candidates| == |replies| && forall j :: 0 <= j <= k ==> replies[j].Err?
    ensures ApplyAll(w, Marks(candidates, replies, k + 1)) ==
            Apply(ApplyAll(w, Marks(candidates, replies, k)), Mark(candidates[k].provider, Reason(replies[k].error)))
  {
    var mark := Mark(candidates[k].provider, Reason(replies[k].error));
    assert Marks(candidates, replies, k + 1) == Marks(candidates, replies, k) + [mark];
    ApplySnoc(w, Marks(candidates, replies, k), mark);
  }

  lemma ApplySnoc(w: World, changes: seq<Change>, c: Change)
    ensures ApplyAll(w, changes + [c]) == Apply(ApplyAll(w, changes), c)
  {
    assert (changes + [c])[..|changes|] == changes;
  }

  function ReplyOf<T>(candidates: seq<Target>, replies: seq<Result<T, BridgeError>>, k: nat)
    : Result<(Target, T), BridgeError>
    requires k < |candidates| == |replies|
  {
    match replies[k] case Ok(body) => Ok((candidates[k], body)) case Err(e) => Err(e)
  }

  lemma {:induction false} AttemptsReach<T>(replies: seq<Result<T, BridgeError>>, from: nat, k: nat)
    requires from <= k < |replies| && Settles(replies, k) && TriedBefore(replies, k)
    ensures Attempts(replies, from) == k + 1
    decreases k - from
  {
    if from < k { AttemptsReach(replies, from + 1, k); }
  }

  /** At the first settling reply the request is over. */
  lemma SettledHere<T>(candidates: seq<Target>, replies: seq<Result<T, BridgeError>>, k: nat)
    requires k < |candidates| == |replies| && Settles(replies, k) && TriedBefore(replies, k)
    ensures Attempts(replies, 0) == k + 1 && RequestMarks(candidates, replies) == Marks(candidates, replies, k)
    ensures IsOutcome(candidates, replies, ReplyOf(candidates, replies, k))
  {
    AttemptsReach(replies, 0, k);
  }

  // ----- which errors fail over -----

  /** Unreachable, or a status by which another provider may do better: quota and
      authorization, timeout, rate limit, and every server error. */
  predicate WorthRetrying(e: BridgeError) {
    e.UpstreamUnreachable? ||
    (e.Upstream? && (e.status == 401 || e.status == 402 || e.status == 408 || e.status == 429 || e.status / 100 == 5))
  }

  /** A request goes past candidate `k` exactly if it and all before it failed that way. */
  lemma GoesPastExactly<T>(replies: seq<Result<T, BridgeError>>, k: nat)
    requires k + 1 < |replies|
    ensures Attempts(replies, 0) > k + 1 <==>
      forall j :: 0 <= j <= k ==> replies[j].Err? && WorthRetrying(replies[j].error)
  {
    AttemptsMeaning(replies, 0);
    if forall j :: 0 <= j <= k ==> replies[j].Err? && WorthRetrying(replies[j].error) {
      NotSettledBefore(replies, 0, k);
    }
  }

  lemma {:induction false} NotSettledBefore<T>(replies: seq<Result<T, BridgeError>>, from: nat, k: nat)
    requires from <= k && k + 1 < |replies|
    requires forall j :: from <= j <= k ==> replies[j].Err? && WorthRetrying(replies[j].error)
    ensures Attempts(replies, from) > k + 1
    decreases k - from
  {
    if from < k { NotSettledBefore(replies, from + 1, k); }
  }

  /** With two candidates, of which the second would answer: the first one's error is
      passed on or covered up by the second, depending on nothing but that error. */
  lemma SecondAnswers<T>(a: Target, b: Target, e: BridgeError, body: T, r: Result<(Target, T), BridgeError>)
    requires IsOutcome([a, b], [Err(e), Ok(body)], r)
    ensures r == if WorthRetrying(e) then Ok((b, body)) else Err(e)
  {
    var replies := [Err(e), Ok(body)];
    var k :| 0 <= k < |replies| && (forall j :: 0 <= j < k ==> replies[j].Err? && IsRetryable(replies[j].error))
      && match replies[k]
         case Ok(x) => r == Ok(([a, b][k], x))
         case Err(x) => (!IsRetryable(x) || k + 1 == |replies|) && r == Err(x);
    assert replies[0] == Err(e) && replies[1] == Ok(body);
    assert k == 0 || k == 1;
  }

  // ----- what a request marks -----

  /** Marks touch exactly their providers, and only their availability. */
  lemma {:induction false} MarksExactly(w: World, changes: seq<Change>, name: string)
    requires forall k :: 0 <= k < |changes| ==> changes[k].Mark?
    ensures ApplyAll(w, changes).config == w.config
    ensures (exists k :: 0 <= k < |changes| && changes[k].name == name)
      ==> Unavailable(ApplyAll(w, changes).status, name)
    ensures (forall k :: 0 <= k < |changes| ==> changes[k].name != name) ==>
              Lookup(ApplyAll(w, changes).status, name) == Lookup(w.status, name)
    ensures name in w.status ==> name in ApplyAll(w, changes).status
    ensures name in w.status ==> SameFigures(ApplyAll(w, changes).status[name], w.status[name])
    decreases changes
  {
    if changes != [] {
      var init, last := changes[..|changes| - 1], changes[|changes| - 1];
      assert forall k :: 0 <= k < |init| ==> init[k] == changes[k];
      MarksExactly(w, init, name);
      MarkExactly(ApplyAll(w, init), last, name);
      if k :| 0 <= k < |changes| && changes[k].name == name { assert k < |init| ==> init[k].name == name; }
    }
  }

  lemma MarkExactly(w: World, mark: Change, name: string)
    requires mark.Mark?
    ensures var after := Apply(w, mark);
      && after.config == w.config
      && (mark.name == name ==> Unavailable(after.status, name))
      && (mark.name != name ==> Lookup(after.status, name) == Lookup(w.status, name))
      && (name in w.status ==> name in after.status && SameFigures(after.status[name], w.status[name]))
      && (Unavailable(w.status, name) ==> Unavailable(after.status, name))
  {
  }

  /** The provider of an attempt before the last. */
  predicate FailedOver<T>(candidates: seq<Target>, replies: seq<Result<T, BridgeError>>, name: string)
    requires |candidates| == |replies|
  {
    exists k :: 0 <= k < Attempts(replies, 0) - 1 && candidates[k].provider == name
  }

  /** A request marks exactly the providers of all attempts but the final one. */
  lemma RequestMarksExactly<T>(w: World, candidates: seq<Target>, replies: seq<Result<T, BridgeError>>, name: string)
    requires |candidates| == |replies|
    ensures var after := ApplyAll(w, RequestMarks(candidates, replies));
            && after.config == w.config
            && (if FailedOver(candidates, replies, name) then Unavailable(after.status, name)
                else Lookup(after.status, name) == Lookup(w.status, name))
  {
    var marks := RequestMarks(candidates, replies);
    MarksExactly(w, marks, name);
    if FailedOver(candidates, replies, name) {
      var k :| 0 <= k < Attempts(replies, 0) - 1 && candidates[k].provider == name;
      assert marks[k].name == name;
    }
  }

  // ----- whole runs -----

  datatype Word = Silent | Failed | Reported(status: Status)

  /** The last thing a run says about a provider. */
  function LastWord(first: World, changes: seq<Change>, name: string): Word
    decreases changes
  {
    if changes == [] then
      if name in first.status then Reported(first.status[name]) else Silent
    else
      var earlier := LastWord(first, changes[..|changes| - 1], name);
      match changes[|changes| - 1]
      case Mark(p, _) => if p == name then Failed else earlier
      case Probe(p, report) => if p == name then Reported(report) else earlier
      case Reload(config) => if name in config.providers then earlier else Silent
  }

  /** After any interleaving of requests, probes and reloads, a provider is usable
      exactly as the last word about it says. */
  lemma {:induction false} UsableExactly(first: World, changes: seq<Change>, name: string, provider: Provider)
    ensures IsUsable(provider, Lookup(ApplyAll(first, changes).status, name)) <==>
            match LastWord(first, changes, name)
            case Silent => true
            case Failed => false
            case Reported(report) => IsUsable(provider, Some(report))
  {
    LastWordIsStatus(first, changes, name);
  }

  lemma {:induction false} LastWordIsStatus(first: World, changes: seq<Change>, name: string)
    ensures match LastWord(first, changes, name)
            case Silent => name !in ApplyAll(first, changes).status
            case Failed => name in ApplyAll(first, changes).status && !ApplyAll(first, changes).status[name].available
            case Reported(report) => Lookup(ApplyAll(first, changes).status, name) == Some(report)
    decreases changes
  {
    if changes != [] {
      LastWordIsStatus(first, changes[..|changes| - 1], name);
    }
  }

  /** The change says nothing better about the provider. */
  predicate KeepsMarked(c: Change, name: string) {
    match c
    case Mark(_, _) => true
    case Probe(p, report) => p == name ==> !report.available
    case Reload(config) => name in config.providers
  }

  lemma {:induction false} StaysMarked(first: World, changes: seq<Change>, at: nat, name: string)
    requires at < |changes| && changes[at].Mark? && changes[at].name == name
    requires forall k :: at < k < |changes| ==> KeepsMarked(changes[k], name)
    ensures LastWord(first, changes, name).Failed? ||
            (LastWord(first, changes, name).Reported? && !LastWord(first, changes, name).status.available)
    decreases changes
  {
    if at < |changes| - 1 {
      var init := changes[..|changes| - 1];
      assert forall k :: 0 <= k < |init| ==> init[k] == changes[k];
      StaysMarked(first, init, at, name);
      assert KeepsMarked(changes[|changes| - 1], name);
    }
  }

  /** From a mark until a probe finds the provider available or a reload drops it,
      every request ranks it behind all ready candidates. */
  lemma MarkedStaysBehind(first: World, changes: seq<Change>, at: nat, name: string, exhausted: set<string>,
                          alias: string)
    requires at < |changes| && changes[at].Mark? && changes[at].name == name
    requires forall k :: at < k < |changes| ==> KeepsMarked(changes[k], name)
    ensures var w := ApplyAll(first, changes);
            var found := Router.Candidates(w.config, w.status, exhausted, alias);
            found.Ok? ==> Behind(found.value, Health(w.config.providers, w.status, exhausted), name)
  {
    var w := ApplyAll(first, changes);
    StaysMarked(first, changes, at, name);
    LastWordIsStatus(first, changes, name);
    if Router.Candidates(w.config, w.status, exhausted, alias).Ok? {
      RankedBehind(w.config, w.status, exhausted, alias, name);
    }
  }

  // ----- runs of requests -----

  lemma {:induction false} ApplyAllAppend(w: World, a: seq<Change>, b: seq<Change>)
    ensures ApplyAll(w, a + b) == ApplyAll(ApplyAll(w, a), b)
    decreases b
  {
    if b == [] {
      assert a + b == a;
    } else {
      assert (a + b)[..|a + b| - 1] == a + b[..|b| - 1];
      ApplyAllAppend(w, a, b[..|b| - 1]);
    }
  }

  /** What happens to the shared state: a whole request, a probe's report, or a reload. */
  datatype Act<T> =
    | Request(candidates: seq<Target>, replies: seq<Result<T, BridgeError>>)
    | Probed(name: string, report: Status)
    | Reloaded(config: Config)
  {
    predicate Valid() { Request? ==> |candidates| == |replies| }

    ghost function Changes(): seq<Change>
      requires Valid()
    {
      match this
      case Request(candidates, replies) => RequestMarks(candidates, replies)
      case Probed(name, report) => [Probe(name, report)]
      case Reloaded(config) => [Reload(config)]
    }
  }

  predicate AllValid<T>(acts: seq<Act<T>>) {
    forall k :: 0 <= k < |acts| ==> acts[k].Valid()
  }

  /** Lists of changes, one after the other. */
  function Flatten(lists: seq<seq<Change>>): seq<Change> {
    if lists == [] then [] else lists[0] + Flatten(lists[1..])
  }

  lemma {:induction false} FlattenAppend(a: seq<seq<Change>>, b: seq<seq<Change>>)
    ensures Flatten(a + b) == Flatten(a) + Flatten(b)
  {
    if a == [] {
      assert a + b == b;
    } else {
      assert (a + b)[0] == a[0] && (a + b)[1..] == a[1..] + b;
      FlattenAppend(a[1..], b);
    }
  }

  ghost function Lists<T>(acts: seq<Act<T>>): seq<seq<Change>>
    requires AllValid(acts)
  {
    seq(|acts|, k requires 0 <= k < |acts| => acts[k].Changes())
  }

  ghost function History<T>(acts: seq<Act<T>>): seq<Change>
    requires AllValid(acts)
  {
    Flatten(Lists(acts))
  }

  /** The world after the acts, one after the other. */
  ghost function After<T>(w: World, acts: seq<Act<T>>): World
    requires AllValid(acts)
    decreases acts
  {
    if acts == [] then w else After(ApplyAll(w, acts[0].Changes()), acts[1..])
  }

  lemma HistoryFirst<T>(acts: seq<Act<T>>)
    requires AllValid(acts) && acts != []
    ensures History(acts) == acts[0].Changes() + History(acts[1..])
  {
    var now, later := acts[0].Changes(), Lists(acts[1..]);
    assert Lists(acts) == [now] + later;
    assert ([now] + later)[1..] == later;
  }

  /** A run of requests, probes and reloads is one list of changes. */
  lemma {:induction false} RunIsChanges<T>(w: World, acts: seq<Act<T>>)
    requires AllValid(acts)
    ensures After(w, acts) == ApplyAll(w, History(acts))
    decreases acts
  {
    if acts != [] {
      var now, later := acts[0].Changes(), acts[1..];
      RunIsChanges(ApplyAll(w, now), later);
      HistoryFirst(acts);
      ApplyAllAppend(w, now, History(later));
    }
  }

  lemma HistoryAppend<T>(a: seq<Act<T>>, b: seq<Act<T>>)
    requires AllValid(a) && AllValid(b)
    ensures AllValid(a + b) && History(a + b) == History(a) + History(b)
  {
    assert Lists(a + b) == Lists(a) + Lists(b);
    FlattenAppend(Lists(a), Lists(b));
  }

  /** The act brings no better news of the provider. */
  predicate KeepsBehind<T>(act: Act<T>, name: string) {
    match act
    case Request(_, _) => true
    case Probed(p, report) => p == name ==> !report.available
    case Reloaded(config) => name in config.providers
  }

  lemma {:induction false} HistoryKeeps<T>(acts: seq<Act<T>>, name: string)
    requires AllValid(acts) && forall k :: 0 <= k < |acts| ==> KeepsBehind(acts[k], name)
    ensures forall k :: 0 <= k < |History(acts)| ==> KeepsMarked(History(acts)[k], name)
    decreases acts
  {
    if acts != [] {
      assert forall k :: 0 <= k < |acts[1..]| ==> acts[1..][k] == acts[k + 1];
      HistoryKeeps(acts[1..], name);
      HistoryFirst(acts);
      assert KeepsBehind(acts[0], name);
    }
  }

  /** Over a whole run: after a request has failed over from a provider, every later
      request ranks that provider behind all ready candidates, until a probe finds it
      available or a reload drops it. */
  lemma FailedStaysBehind<T>(first: World, before: seq<Act<T>>, request: Act<T>, later: seq<Act<T>>, name: string,
                             exhausted: set<string>, alias: string)
    requires AllValid(before) && request.Request? && request.Valid() && AllValid(later)
    requires FailedOver(request.candidates, request.replies, name)
    requires forall k :: 0 <= k < |later| ==> KeepsBehind(later[k], name)
    ensures AllValid(before + [request] + later)
    ensures var w := After(first, before + [request] + later);
            var found := Router.Candidates(w.config, w.status, exhausted, alias);
            found.Ok? ==> Behind(found.value, Health(w.config.providers, w.status, exhausted), name)
  {
    var k := FailedMark(request.candidates, request.replies, name);
    HistoryAround(before, request, later);
    RunIsChanges(first, before + [request] + later);
    HistoryKeeps(later, name);
    MarkInside(first, History(before), RequestMarks(request.candidates, request.replies), History(later), k, name,
      exhausted, alias);
  }

  lemma FailedMark<T>(candidates: seq<Target>, replies: seq<Result<T, BridgeError>>, name: string) returns (k: nat)
    requires |candidates| == |replies| && FailedOver(candidates, replies, name)
    ensures var marks := RequestMarks(candidates, replies);
      && k < |marks| && marks[k].Mark? && marks[k].name == name
      && forall j :: 0 <= j < |marks| ==> marks[j].Mark?
  {
    k :| k < Attempts(replies, 0) - 1 && candidates[k].provider == name;
  }

  lemma HistoryAround<T>(before: seq<Act<T>>, act: Act<T>, later: seq<Act<T>>)
    requires AllValid(before) && act.Valid() && AllValid(later)
    ensures AllValid(before + [act] + later)
    ensures History(before + [act] + later) == History(before) + act.Changes() + History(later)
  {
    OnlyRequest(act);
    HistoryAppend(before, [act]);
    HistoryAppend(before + [act], later);
  }

  lemma OnlyRequest<T>(act: Act<T>)
    requires act.Valid()
    ensures AllValid([act]) && History([act]) == act.Changes()
  {
    HistoryFirst([act]);
    assert [act][1..] == [] && Lists<T>([]) == [];
    assert act.Changes() + [] == act.Changes();
  }

  lemma MarkInside(first: World, a: seq<Change>, marks: seq<Change>, b: seq<Change>, k: nat, name: string,
                   exhausted: set<string>, alias: string)
    requires k < |marks| && marks[k].Mark? && marks[k].name == name && forall j :: 0 <= j < |marks| ==> marks[j].Mark?
    requires forall j :: 0 <= j < |b| ==> KeepsMarked(b[j], name)
    ensures var w := ApplyAll(first, a + marks + b);
            var found := Router.Candidates(w.config, w.status, exhausted, alias);
            found.Ok? ==> Behind(found.value, Health(w.config.providers, w.status, exhausted), name)
  {
    var all := a + marks + b;
    assert all[|a| + k] == marks[k];
    forall j | |a| + k < j < |all| ensures KeepsMarked(all[j], name) {
      assert all[j] == if j < |a| + |marks| then marks[j - |a|] else b[j - |a| - |marks|];
    }
    MarkedStaysBehind(first, all, |a| + k, name, exhausted, alias);
  }

  // ----- spent providers -----

  ghost function SpentProviders(log: Log, providers: map<string, Provider>, now: int): set<string> {
    set p | p in providers && IsExhausted(log, p, providers[p].usage, now)
  }

  lemma SpentAreExhausted(log: Log, providers: map<string, Provider>, now: int, exhausted: set<string>)
    requires var specs := map p | p in providers :: providers[p].usage;
             exhausted == set p | p in specs && IsExhausted(log, p, specs[p], now)
    ensures exhausted == SpentProviders(log, providers, now)
  {
  }

  /** A provider with an exhausted window is ranked behind every ready candidate by
      every request until that window's reset time, whatever is recorded, evicted or
      reloaded meanwhile. */
  lemma SpentStaysBehind(lives: seq<Life>, steps: seq<Step>, k: nat, m: nat, cfg: Config, status: StatusMap,
                         alias: string, name: string, i: nat, j: nat, now: int, t: int)
    requires IsRun(lives, steps) && k <= m < |lives|
    requires name in cfg.providers && i < |cfg.providers[name].usage| && j < |cfg.providers[name].usage[i].windows|
    requires var spec := cfg.providers[name].usage[i]; var w := spec.windows[j];
             var stat := StatAt(lives[k], Key(name, spec.kind), w, now);
             && w.secs <= RETAIN_SECS + 1 && stat.remaining == 0.0
             && lives[k].clock <= now <= t < now + stat.resetInSecs && lives[m].clock <= t
    ensures var spent := SpentProviders(lives[m].log, cfg.providers, t);
            var found := Router.Candidates(cfg, status, spent, alias);
            found.Ok? ==> Behind(found.value, Health(cfg.providers, status, spent), name)
  {
    var spec := cfg.providers[name].usage[i];
    var w := spec.windows[j];
    ExhaustedUntilReset(lives, steps, k, m, Key(name, spec.kind), w, now, t);
    assert AnyExhausted(EventsOf(lives[m].log, Key(name, spec.kind)), spec.windows, t);
    var spent := SpentProviders(lives[m].log, cfg.providers, t);
    assert name in spent;
    if Router.Candidates(cfg, status, spent, alias).Ok? {
      RankedBehind(cfg, status, spent, alias, name);
    }
  }
}
