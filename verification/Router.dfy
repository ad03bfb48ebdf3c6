/** Model alias to ordered candidate chain: the route's targets or the default
    provider, then the safety net, with ready providers first. */
module Router {
  import opened Errors
  import opened Usage
  import opened Wrappers

  datatype Provider = Provider(modelPrefix: Option<string>, quotaMin: Option<real>, usage: seq<Spec>)

  datatype Target = Target(provider: string, model: string)

  datatype Route = Route(alias: string, primary: Target, fallback: seq<Target>)

  datatype Config = Config(defaultProvider: Option<string>, providers: map<string, Provider>,
                           routes: seq<Route>, fallbackRoute: Option<Target>)

  datatype Status = Status(available: bool, quotaRemaining: Option<real>, quotaUsed: Option<real>,
                           quotaLimit: Option<real>, lastChecked: Option<int>, lastOk: bool,
                           error: Option<string>, note: Option<string>)

  type StatusMap = map<string, Status>

  /** What decides whether a provider is preferred. */
  datatype Health = Health(providers: map<string, Provider>, status: StatusMap, exhausted: set<string>)

  function Lookup(status: StatusMap, name: string): Option<Status> {
    if name in status then Some(status[name]) else None
  }

  /** Usable unless its status says unavailable or below quota. */
  predicate IsUsable(provider: Provider, status: Option<Status>) {
    match status
    case None => true
    case Some(s) =>
      && s.available
      && (s.quotaRemaining.Some? && provider.quotaMin.Some? ==>
            s.quotaRemaining.value >= provider.quotaMin.value)
  }

  /** Configured, usable and within its limits. */
  predicate Ready(h: Health, name: string) {
    name in h.providers && IsUsable(h.providers[name], Lookup(h.status, name)) && name !in h.exhausted
  }

  function FindRoute(routes: seq<Route>, alias: string): Option<Route> {
    if routes == [] then None else if routes[0].alias == alias then Some(routes[0]) else FindRoute(routes[1..], alias)
  }

  /** The default provider's name for an alias that has no route. */
  function DefaultModel(provider: Provider, alias: string): string {
    if provider.modelPrefix.Some? && '/' !in alias then provider.modelPrefix.value + alias else alias
  }

  function BaseChain(cfg: Config, alias: string): Result<seq<Target>, BridgeError> {
    match FindRoute(cfg.routes, alias)
    case Some(route) => Ok([route.primary] + route.fallback)
    case None =>
      match cfg.defaultProvider
      case None => Ok([])
      case Some(name) =>
        if name !in cfg.providers then Err(Internal("default provider " + name + " not configured"))
        else Ok([Target(name, DefaultModel(cfg.providers[name], alias))])
  }

  function WithSafetyNet(chain: seq<Target>, net: Option<Target>): seq<Target> {
    if net.Some? && net.value !in chain then chain + [net.value] else chain
  }

  /** The configured targets of a chain that are ready, or that are not. */
  function Picked(chain: seq<Target>, h: Health, ready: bool): seq<Target>
    decreases chain
  {
    if chain == [] then [] else
      (if chain[0].provider in h.providers && Ready(h, chain[0].provider) == ready then [chain[0]] else [])
        + Picked(chain[1..], h, ready)
  }

  function Ranked(chain: seq<Target>, h: Health): seq<Target> {
    Picked(chain, h, true) + Picked(chain, h, false)
  }

  function Candidates(cfg: Config, status: StatusMap, exhausted: set<string>, alias: string)
    : Result<seq<Target>, BridgeError>
  {
    match BaseChain(cfg, alias)
    case Err(e) => Err(e)
    case Ok(base) =>
      var ranked := Ranked(WithSafetyNet(base, cfg.fallbackRoute), Health(cfg.providers, status, exhausted));
      if ranked == [] then Err(UnknownModel(alias)) else Ok(ranked)
  }

  lemma {:induction false} PickedAppend(a: seq<Target>, b: seq<Target>, h: Health, ready: bool)
    ensures Picked(a + b, h, ready) == Picked(a, h, ready) + Picked(b, h, ready)
    decreases a
  {
    if a == [] {
      assert a + b == b;
    } else {
      assert (a + b)[1..] == a[1..] + b;
      PickedAppend(a[1..], b, h, ready);
      var first := if a[0].provider in h.providers && Ready(h, a[0].provider) == ready then [a[0]] else [];
      assert first + (Picked(a[1..], h, ready) + Picked(b, h, ready))
        == first + Picked(a[1..], h, ready) + Picked(b, h, ready);
    }
  }

  lemma PickedNext(chain: seq<Target>, k: nat, h: Health, ready: bool)
    requires k < |chain|
    ensures Picked(chain[..k + 1], h, ready) == Picked(chain[..k], h, ready) +
              if chain[k].provider in h.providers && Ready(h, chain[k].provider) == ready then [chain[k]] else []
  {
    assert chain[..k + 1] == chain[..k] + [chain[k]];
    PickedAppend(chain[..k], [chain[k]], h, ready);
    assert [chain[k]][1..] == [];
  }

  method ResolveCandidates(cfg: Config, status: StatusMap, exhausted: set<string>, alias: string)
    returns (r: Result<seq<Target>, BridgeError>)
    ensures r == Candidates(cfg, status, exhausted, alias)
  {
    var raw: seq<Target> := [];
    var route := FindRoute(cfg.routes, alias);
    if route.Some? {
      raw := [route.value.primary] + route.value.fallback;
    } else if cfg.defaultProvider.Some? {
      var name := cfg.defaultProvider.value;
      if name !in cfg.providers { return Err(Internal("default provider " + name + " not configured")); }
      raw := [Target(name, DefaultModel(cfg.providers[name], alias))];
    }
    if cfg.fallbackRoute.Some? && cfg.fallbackRoute.value !in raw {
      raw := raw + [cfg.fallbackRoute.value];
    }
    var ranked := RankCandidates(cfg, status, exhausted, raw);
    if ranked == [] { return Err(UnknownModel(alias)); }
    return Ok(ranked);
  }

  method RankCandidates(cfg: Config, status: StatusMap, exhausted: set<string>, raw: seq<Target>)
    returns (ranked: seq<Target>)
    ensures ranked == Ranked(raw, Health(cfg.providers, status, exhausted))
  {
    var usable, degraded: seq<Target> := [], [];
    ghost var h := Health(cfg.providers, status, exhausted);
    for k := 0 to |raw|
      invariant usable == Picked(raw[..k], h, true) && degraded == Picked(raw[..k], h, false)
    {
      PickedNext(raw, k, h, true);
      PickedNext(raw, k, h, false);
      var name := raw[k].provider;
      if name in cfg.providers {
        if IsUsable(cfg.providers[name], Lookup(status, name)) && name !in exhausted {
          usable := usable + [raw[k]];
        } else {
          degraded := degraded + [raw[k]];
        }
      }
    }
    assert raw[..|raw|] == raw;
    return usable + degraded;
  }

  // ----- what the order means -----

  /** No target that is not ready comes before one that is. */
  predicate ReadyFirst(ranked: seq<Target>, h: Health) {
    forall i, j :: 0 <= i < j < |ranked| && Ready(h, ranked[j].provider) ==> Ready(h, ranked[i].provider)
  }

  /** Ready targets first, each group in chain order, unknown providers dropped. */
  ghost predicate IsRanking(ranked: seq<Target>, chain: seq<Target>, h: Health) {
    && ReadyFirst(ranked, h)
    && (forall k :: 0 <= k < |ranked| ==> ranked[k].provider in h.providers)
    && Picked(ranked, h, true) == Picked(chain, h, true)
    && Picked(ranked, h, false) == Picked(chain, h, false)
  }

  lemma {:induction false} PickedAre(chain: seq<Target>, h: Health, ready: bool)
    ensures forall k :: 0 <= k < |Picked(chain, h, ready)| ==>
                          var t := Picked(chain, h, ready)[k];
                          t in chain && t.provider in h.providers && Ready(h, t.provider) == ready
    decreases chain
  {
    if chain != [] {
      PickedAre(chain[1..], h, ready);
    }
  }

  lemma {:induction false} PickedAll(chain: seq<Target>, h: Health, ready: bool)
    requires forall k :: 0 <= k < |chain| ==> chain[k].provider in h.providers && Ready(h, chain[k].provider) == ready
    ensures Picked(chain, h, ready) == chain && Picked(chain, h, !ready) == []
    decreases chain
  {
    if chain != [] {
      PickedAll(chain[1..], h, ready);
      assert chain == [chain[0]] + chain[1..];
    }
  }

  lemma RankedIsRanking(chain: seq<Target>, h: Health)
    ensures IsRanking(Ranked(chain, h), chain, h)
  {
    var front, back := Picked(chain, h, true), Picked(chain, h, false);
    PickedAre(chain, h, true);
    PickedAre(chain, h, false);
    PickedAll(front, h, true);
    PickedAll(back, h, false);
    PickedAppend(front, back, h, true);
    PickedAppend(front, back, h, false);
    assert front + [] == front && [] + back == back;
  }

  /** A ranking of itself is sorted already. */
  lemma {:induction false} RankingSplits(ranked: seq<Target>, h: Health)
    requires ReadyFirst(ranked, h) && forall k :: 0 <= k < |ranked| ==> ranked[k].provider in h.providers
    ensures Ranked(ranked, h) == ranked
    decreases ranked
  {
    if ranked != [] {
      var rest := ranked[1..];
      assert forall i :: 0 <= i < |rest| ==> rest[i] == ranked[i + 1];
      assert ranked == [ranked[0]] + rest;
      if Ready(h, ranked[0].provider) {
        RankingSplits(rest, h);
        ReadyFirstRanked(ranked, h);
      } else {
        PickedAll(ranked, h, false);
      }
    }
  }

  lemma ReadyFirstRanked(chain: seq<Target>, h: Health)
    requires chain != [] && chain[0].provider in h.providers && Ready(h, chain[0].provider)
    ensures Ranked(chain, h) == [chain[0]] + Ranked(chain[1..], h)
  {
    var rest := chain[1..];
    assert Picked(chain, h, true) == [chain[0]] + Picked(rest, h, true);
    assert Picked(chain, h, false) == [] + Picked(rest, h, false) == Picked(rest, h, false);
  }

  /** The candidate order is the only stable ready-first order of the chain. */
  lemma OnlyRanking(ranked: seq<Target>, chain: seq<Target>, h: Health)
    ensures IsRanking(ranked, chain, h) <==> ranked == Ranked(chain, h)
  {
    RankedIsRanking(chain, h);
    if IsRanking(ranked, chain, h) { RankingSplits(ranked, h); }
  }

  function Known(chain: seq<Target>, providers: map<string, Provider>): seq<Target> {
    if chain == [] then [] else
      (if chain[0].provider in providers then [chain[0]] else []) + Known(chain[1..], providers)
  }

  /** Only unknown providers are dropped; nothing is added or repeated. */
  lemma {:induction false} NothingLost(chain: seq<Target>, h: Health)
    ensures multiset(Ranked(chain, h)) == multiset(Known(chain, h.providers))
    decreases chain
  {
    if chain != [] {
      NothingLost(chain[1..], h);
    }
  }

  /** A candidate list is missing exactly when the default provider is not configured,
      or no provider of the chain is. */
  lemma FailsExactly(cfg: Config, status: StatusMap, exhausted: set<string>, alias: string)
    ensures Candidates(cfg, status, exhausted, alias).Err? <==>
            || BaseChain(cfg, alias).Err?
            || forall t :: t in WithSafetyNet(BaseChain(cfg, alias).value, cfg.fallbackRoute) ==>
                 t.provider !in cfg.providers
  {
    var h := Health(cfg.providers, status, exhausted);
    if BaseChain(cfg, alias).Ok? {
      var chain := WithSafetyNet(BaseChain(cfg, alias).value, cfg.fallbackRoute);
      NothingLost(chain, h);
      KnownAre(chain, cfg.providers);
      var known := Known(chain, cfg.providers);
      assert |Ranked(chain, h)| == |multiset(Ranked(chain, h))| == |multiset(known)| == |known|;
      if known != [] { assert known[0] in known; }
    }
  }

  lemma {:induction false} KnownAre(chain: seq<Target>, providers: map<string, Provider>)
    ensures forall t :: t in Known(chain, providers) <==> t in chain && t.provider in providers
  {
    if chain != [] {
      KnownAre(chain[1..], providers);
      assert forall t :: t in chain <==> t == chain[0] || t in chain[1..];
    }
  }

  /** With a configured safety net, an alias fails only when it has no route and the
      default provider is not configured; otherwise the net is among the candidates. */
  lemma SafetyNetCatches(cfg: Config, status: StatusMap, exhausted: set<string>, alias: string)
    requires cfg.fallbackRoute.Some? && cfg.fallbackRoute.value.provider in cfg.providers
    ensures Candidates(cfg, status, exhausted, alias).Err? <==>
            && FindRoute(cfg.routes, alias).None?
            && cfg.defaultProvider.Some? && cfg.defaultProvider.value !in cfg.providers
    ensures Candidates(cfg, status, exhausted, alias).Ok? ==>
              cfg.fallbackRoute.value in Candidates(cfg, status, exhausted, alias).value
  {
    FailsExactly(cfg, status, exhausted, alias);
    if BaseChain(cfg, alias).Ok? {
      var chain := WithSafetyNet(BaseChain(cfg, alias).value, cfg.fallbackRoute);
      assert cfg.fallbackRoute.value in chain;
      NothingLost(chain, Health(cfg.providers, status, exhausted));
      KnownAre(chain, cfg.providers);
      assert cfg.fallbackRoute.value in multiset(Known(chain, cfg.providers));
    }
  }

  /** Nothing ready comes after a target of provider `name`. */
  predicate Behind(ranked: seq<Target>, h: Health, name: string) {
    forall i, j :: 0 <= i < j < |ranked| && ranked[i].provider == name ==> !Ready(h, ranked[j].provider)
  }

  /** A provider that is not ready is ranked behind every ready candidate. */
  lemma RankedBehind(cfg: Config, status: StatusMap, exhausted: set<string>, alias: string, name: string)
    requires Candidates(cfg, status, exhausted, alias).Ok?
    requires !Ready(Health(cfg.providers, status, exhausted), name)
    ensures Behind(Candidates(cfg, status, exhausted, alias).value, Health(cfg.providers, status, exhausted), name)
  {
    RankedIsRanking(WithSafetyNet(BaseChain(cfg, alias).value, cfg.fallbackRoute),
      Health(cfg.providers, status, exhausted));
  }
}
