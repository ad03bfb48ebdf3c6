/** The candidates that a configuration gives, told by positions in the configured list. */
module RouterOrder {
  import opened Errors
  import opened Router
  import opened Wrappers

  // ----- who is ready -----

  /** Configured, not spent, and not known to be unavailable or below its quota. */
  predicate ReadyNow(cfg: Config, status: StatusMap, exhausted: set<string>, name: string) {
    && name in cfg.providers && name !in exhausted
    && !(name in status && !status[name].available)
    && !(name in status && status[name].quotaRemaining.Some? && cfg.providers[name].quotaMin.Some?
         && status[name].quotaRemaining.value < cfg.providers[name].quotaMin.value)
  }

  lemma ReadyMeans(cfg: Config, status: StatusMap, exhausted: set<string>, name: string)
    ensures Ready(Health(cfg.providers, status, exhausted), name) <==> ReadyNow(cfg, status, exhausted, name)
  {
  }

  /** A quota exactly at its minimum is enough, one below it is not, and without a reported
      remainder or a configured minimum the quota does not matter. */
  lemma QuotaBoundary(cfg: Config, status: StatusMap, name: string)
    requires name in cfg.providers && name in status && status[name].available
    ensures var min, rem := cfg.providers[name].quotaMin, status[name].quotaRemaining;
      Ready(Health(cfg.providers, status, {}), name) <==> min.None? || rem.None? || min.value <= rem.value
  {
    ReadyMeans(cfg, status, {}, name);
  }

  // ----- positions -----

  /** Positions of the configured targets that are ready, or that are not. */
  function Places(chain: seq<Target>, h: Health, ready: bool, from: nat): seq<nat>
    requires from <= |chain|
    decreases |chain| - from
  {
    if from == |chain| then [] else
      (if chain[from].provider in h.providers && Ready(h, chain[from].provider) == ready then [from] else [])
      + Places(chain, h, ready, from + 1)
  }

  predicate Within(places: seq<nat>, n: nat) {
    forall k :: 0 <= k < |places| ==> places[k] < n
  }

  function At(chain: seq<Target>, places: seq<nat>): seq<Target>
    requires Within(places, |chain|)
  {
    seq(|places|, k requires 0 <= k < |places| => chain[places[k]])
  }

  predicate Rising(places: seq<nat>) {
    forall a, b :: 0 <= a < b < |places| ==> places[a] < places[b]
  }

  /** Target `x` is configured and its readiness is `ready`. */
  predicate Belongs(chain: seq<Target>, h: Health, ready: bool, x: nat) {
    x < |chain| && chain[x].provider in h.providers && Ready(h, chain[x].provider) == ready
  }

  lemma {:induction false} PlacesAre(chain: seq<Target>, h: Health, ready: bool, from: nat)
    requires from <= |chain|
    ensures var places := Places(chain, h, ready, from);
      Rising(places) && forall x: nat :: x in places <==> from <= x && Belongs(chain, h, ready, x)
    decreases |chain| - from
  {
    if from < |chain| {
      PlacesAre(chain, h, ready, from + 1);
      if Belongs(chain, h, ready, from) {
        FirstPlace(from, Places(chain, h, ready, from + 1));
      } else {
        assert Places(chain, h, ready, from) == Places(chain, h, ready, from + 1);
      }
    }
  }

  lemma PlacesWithin(chain: seq<Target>, h: Health, ready: bool, from: nat)
    requires from <= |chain|
    ensures Within(Places(chain, h, ready, from), |chain|)
  {
    PlacesAre(chain, h, ready, from);
    var places := Places(chain, h, ready, from);
    assert forall k :: 0 <= k < |places| ==> places[k] in places;
  }

  lemma {:induction false} PlacesPick(chain: seq<Target>, h: Health, ready: bool, from: nat)
    requires from <= |chain|
    ensures Within(Places(chain, h, ready, from), |chain|)
    ensures At(chain, Places(chain, h, ready, from)) == Picked(chain[from..], h, ready)
    decreases |chain| - from
  {
    PlacesWithin(chain, h, ready, from);
    if from < |chain| {
      var later := Places(chain, h, ready, from + 1);
      PlacesPick(chain, h, ready, from + 1);
      assert chain[from..][0] == chain[from] && chain[from..][1..] == chain[from + 1..];
      if Belongs(chain, h, ready, from) { assert At(chain, [from] + later) == [chain[from]] + At(chain, later); }
      else { assert [] + later == later && [] + At(chain, later) == At(chain, later); }
    }
  }

  lemma FirstPlace(from: nat, later: seq<nat>)
    requires Rising(later) && forall x :: x in later ==> from < x
    ensures Rising([from] + later) && forall x: nat :: x in [from] + later <==> x == from || x in later
  {
    forall a, b | 0 <= a < b < |[from] + later| ensures ([from] + later)[a] < ([from] + later)[b] {
      if a == 0 { assert later[b - 1] in later; }
    }
  }

  // ----- the order -----

  /** `ranked` is the configured targets of `listed`, each at its place in `places`: the
      ready ones first, and otherwise as they are listed. */
  ghost predicate AsListed(ranked: seq<Target>, listed: seq<Target>, places: seq<nat>, cfg: Config, status: StatusMap,
                     exhausted: set<string>)
  {
    && |ranked| == |places| && Within(places, |listed|)
    && (forall k :: 0 <= k < |places| ==> ranked[k] == listed[places[k]])
    && (forall x: nat :: x in places <==> x < |listed| && listed[x].provider in cfg.providers)
    && (forall a, b :: 0 <= a < b < |places| ==>
         var x, y := listed[places[a]].provider, listed[places[b]].provider;
         if ReadyNow(cfg, status, exhausted, x) == ReadyNow(cfg, status, exhausted, y) then places[a] < places[b]
         else ReadyNow(cfg, status, exhausted, x))
  }

  lemma RankedAsListed(listed: seq<Target>, cfg: Config, status: StatusMap, exhausted: set<string>)
    returns (places: seq<nat>)
    ensures AsListed(Ranked(listed, Health(cfg.providers, status, exhausted)), listed, places, cfg, status, exhausted)
  {
    var h := Health(cfg.providers, status, exhausted);
    var front, back := Places(listed, h, true, 0), Places(listed, h, false, 0);
    PlacesAre(listed, h, true, 0);
    PlacesAre(listed, h, false, 0);
    PlacesPick(listed, h, true, 0);
    PlacesPick(listed, h, false, 0);
    assert listed[0..] == listed;
    places := front + back;
    forall x: nat ensures x in places <==> x < |listed| && listed[x].provider in cfg.providers {
      InEither(front, back, x);
    }
    assert At(listed, front) + At(listed, back) == Ranked(listed, h);
    forall k | 0 <= k < |places|
      ensures places[k] < |listed| && Ranked(listed, h)[k] == listed[places[k]] {}
    forall a, b | 0 <= a < b < |places|
      ensures var x, y := listed[places[a]].provider, listed[places[b]].provider;
        if ReadyNow(cfg, status, exhausted, x) == ReadyNow(cfg, status, exhausted, y) then places[a] < places[b]
        else ReadyNow(cfg, status, exhausted, x)
    {
      PairOrdered(listed, front, back, a, b, h);
      ReadyMeans(cfg, status, exhausted, listed[places[a]].provider);
      ReadyMeans(cfg, status, exhausted, listed[places[b]].provider);
    }
  }

  lemma InEither(a: seq<nat>, b: seq<nat>, x: nat)
    ensures x in a + b <==> x in a || x in b
  {
  }

  lemma PairOrdered(listed: seq<Target>, front: seq<nat>, back: seq<nat>, a: nat, b: nat, h: Health)
    requires Rising(front) && Rising(back) && a < b < |front| + |back|
    requires forall x: nat :: x in front <==> Belongs(listed, h, true, x)
    requires forall x: nat :: x in back <==> Belongs(listed, h, false, x)
    ensures var places := front + back;
      && places[a] < |listed| && places[b] < |listed|
      && var x, y := listed[places[a]].provider, listed[places[b]].provider;
         if Ready(h, x) == Ready(h, y) then places[a] < places[b] else Ready(h, x)
  {
    var places := front + back;
    if a < |front| { assert places[a] == front[a] && front[a] in front; }
    else { assert places[a] == back[a - |front|] && back[a - |front|] in back; }
    if b < |front| { assert places[b] == front[b] && front[b] in front; }
    else { assert places[b] == back[b - |front|] && back[b - |front|] in back; }
  }

  /** Route `i` is the first for the alias. */
  predicate FirstRoute(routes: seq<Route>, alias: string, i: nat) {
    i < |routes| && routes[i].alias == alias && forall j :: 0 <= j < i ==> routes[j].alias != alias
  }

  predicate NoRoute(routes: seq<Route>, alias: string) {
    forall j :: 0 <= j < |routes| ==> routes[j].alias != alias
  }

  lemma {:induction false} FirstIsFound(routes: seq<Route>, alias: string, i: nat)
    requires FirstRoute(routes, alias, i)
    ensures FindRoute(routes, alias) == Some(routes[i])
    decreases i
  {
    if i > 0 { FirstIsFound(routes[1..], alias, i - 1); }
  }

  lemma {:induction false} NoneIsFound(routes: seq<Route>, alias: string)
    requires NoRoute(routes, alias)
    ensures FindRoute(routes, alias) == None
  {
    if routes != [] {
      assert forall j :: 0 <= j < |routes[1..]| ==> routes[1..][j] == routes[j + 1];
      NoneIsFound(routes[1..], alias);
    }
  }

  /** The safety net comes last, unless it is listed already. */
  function Netted(listed: seq<Target>, net: Option<Target>): seq<Target> {
    match net case None => listed case Some(t) => if t in listed then listed else listed + [t]
  }

  /** The candidates are those of `listed` and the net, or there are none. */
  ghost predicate Resolves(r: Result<seq<Target>, BridgeError>, listed: seq<Target>, cfg: Config, status: StatusMap,
                           exhausted: set<string>, alias: string)
  {
    match r
    case Ok(ranked) =>
      ranked != [] && exists places ::
        AsListed(ranked, Netted(listed, cfg.fallbackRoute), places, cfg, status, exhausted)
    case Err(e) =>
      e == UnknownModel(alias) && forall t :: t in Netted(listed, cfg.fallbackRoute) ==> t.provider !in cfg.providers
  }

  lemma ListedResolves(listed: seq<Target>, cfg: Config, status: StatusMap, exhausted: set<string>, alias: string)
    requires BaseChain(cfg, alias) == Ok(listed)
    ensures Resolves(Candidates(cfg, status, exhausted, alias), listed, cfg, status, exhausted, alias)
  {
    var full := WithSafetyNet(listed, cfg.fallbackRoute);
    assert full == Netted(listed, cfg.fallbackRoute);
    var places := RankedAsListed(full, cfg, status, exhausted);
    forall t | t in full && places == [] ensures t.provider !in cfg.providers {
      var x :| 0 <= x < |full| && full[x] == t;
      assert x !in places;
    }
  }

  /** An alias with a route: the route's primary target, then its fallbacks in their order,
      then the safety net; those that are not ready behind the others. */
  lemma RoutedOrder(cfg: Config, status: StatusMap, exhausted: set<string>, alias: string, i: nat)
    requires FirstRoute(cfg.routes, alias, i)
    ensures Resolves(Candidates(cfg, status, exhausted, alias), [cfg.routes[i].primary] + cfg.routes[i].fallback, cfg,
      status, exhausted, alias)
  {
    FirstIsFound(cfg.routes, alias, i);
    ListedResolves([cfg.routes[i].primary] + cfg.routes[i].fallback, cfg, status, exhausted, alias);
  }

  /** So a ready primary is asked first. */
  lemma PrimaryFirst(cfg: Config, status: StatusMap, exhausted: set<string>, alias: string, i: nat)
    requires FirstRoute(cfg.routes, alias, i)
    requires ReadyNow(cfg, status, exhausted, cfg.routes[i].primary.provider)
    ensures var r := Candidates(cfg, status, exhausted, alias);
      r.Ok? && r.value != [] && r.value[0] == cfg.routes[i].primary
  {
    var listed := [cfg.routes[i].primary] + cfg.routes[i].fallback;
    FirstIsFound(cfg.routes, alias, i);
    ReadyMeans(cfg, status, exhausted, cfg.routes[i].primary.provider);
    ReadyFirstRanked(WithSafetyNet(listed, cfg.fallbackRoute), Health(cfg.providers, status, exhausted));
  }

  /** An alias without a route goes to the default provider, under the provider's prefix
      unless the alias names a provider itself by a slash; then to the safety net. */
  lemma DefaultOrder(cfg: Config, status: StatusMap, exhausted: set<string>, alias: string, name: string)
    requires NoRoute(cfg.routes, alias) && cfg.defaultProvider == Some(name)
    ensures name !in cfg.providers ==>
      Candidates(cfg, status, exhausted, alias) == Err(Internal("default provider " + name + " not configured"))
    ensures name in cfg.providers ==>
      var prefix := cfg.providers[name].modelPrefix;
      var model := if prefix.None? || '/' in alias then alias else prefix.value + alias;
      Resolves(Candidates(cfg, status, exhausted, alias), [Target(name, model)], cfg, status, exhausted, alias)
  {
    NoneIsFound(cfg.routes, alias);
    if name in cfg.providers { ListedResolves(BaseChain(cfg, alias).value, cfg, status, exhausted, alias); }
  }

  /** Without a default provider only the safety net is left. */
  lemma NetAlone(cfg: Config, status: StatusMap, exhausted: set<string>, alias: string)
    requires NoRoute(cfg.routes, alias) && cfg.defaultProvider == None
    ensures Resolves(Candidates(cfg, status, exhausted, alias), [], cfg, status, exhausted, alias)
  {
    NoneIsFound(cfg.routes, alias);
    ListedResolves([], cfg, status, exhausted, alias);
  }
}
