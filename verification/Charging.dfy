/** What one request costs, and that the meter counts exactly that. */
module Charging {
  import opened Wrappers
  import opened Usage
  import opened UsageHistory
  import opened UsageReset
  import P = Pipeline

  /** Dollars per million prompt and completion tokens. */
  datatype Price = Price(input: real, output: real)

  /** A kind the provider is metered in, with the model's price if it has one. */
  datatype Metered = Metered(kind: Kind, price: Option<Price>)

  function Estimate(p: Price, prompt: nat, completion: nat): real {
    prompt as real / 1000000.0 * p.input + completion as real / 1000000.0 * p.output
  }

  /** The upstream's own cost if it is positive, otherwise the estimate. */
  function EffectiveCost(price: Option<Price>, t: P.Tally): Option<real> {
    if t.cost.Some? && t.cost.value > 0.0 then t.cost
    else if price.None? then None
    else Some(Estimate(price.value, UnwrapOr(t.prompt, 0), UnwrapOr(t.completion, 0)))
  }

  function AmountFor(m: Metered, t: P.Tally): Option<real> {
    match m.kind
    case Billing => EffectiveCost(m.price, t)
    case Count => Some(1.0)
    case Token => Some((UnwrapOr(t.prompt, 0) + UnwrapOr(t.completion, 0)) as real)
  }

  function ChargeOne(log: Log, provider: string, m: Metered, t: P.Tally, now: int): Log {
    match AmountFor(m, t)
    case None => log
    case Some(amount) => Recorded(log, Key(provider, m.kind), amount, now)
  }

  function Charge(log: Log, provider: string, kinds: seq<Metered>, t: P.Tally, now: int): Log
    decreases kinds
  {
    if kinds == [] then log else Charge(ChargeOne(log, provider, kinds[0], t, now), provider, kinds[1..], t, now)
  }

  method RecordAmounts(meter: UsageMeter, provider: string, kinds: seq<Metered>, t: P.Tally, now: int)
    modifies meter
    ensures meter.events == Charge(old(meter.events), provider, kinds, t, now)
  {
    for k := 0 to |kinds|
      invariant Charge(meter.events, provider, kinds[k..], t, now) == Charge(old(meter.events), provider, kinds, t, now)
    {
      assert kinds[k..][0] == kinds[k] && kinds[k..][1..] == kinds[k + 1..];
      var amount := AmountFor(kinds[k], t);
      if amount.Some? { meter.Record(provider, kinds[k].kind, amount.value, now); }
    }
    assert kinds[|kinds|..] == [];
  }

  /** What the request adds to one key: only positive amounts of its kind. */
  function Due(m: Metered, provider: string, key: Key, t: P.Tally): real {
    if Key(provider, m.kind) == key && AmountFor(m, t).Some? then NonNegative(AmountFor(m, t).value) else 0.0
  }

  function TotalDue(kinds: seq<Metered>, provider: string, key: Key, t: P.Tally): real {
    if kinds == [] then 0.0 else Due(kinds[0], provider, key, t) + TotalDue(kinds[1..], provider, key, t)
  }

  lemma {:induction false} SpentSnoc(evts: seq<Event>, e: Event, cutoff: int)
    ensures Spent(evts + [e], cutoff) == Spent(evts, cutoff) + if e.ts > cutoff then e.amount else 0.0
  {
    if evts == [] {
      assert (evts + [e])[1..] == [];
    } else {
      assert (evts + [e])[0] == evts[0] && (evts + [e])[1..] == evts[1..] + [e];
      SpentSnoc(evts[1..], e, cutoff);
    }
  }

  lemma ChargeOneCounts(log: Log, provider: string, m: Metered, t: P.Tally, now: int, key: Key, secs: nat)
    requires secs <= RETAIN_SECS + 1
    ensures SpentAt(EventsOf(ChargeOne(log, provider, m, t, now), key), secs, now)
      == SpentAt(EventsOf(log, key), secs, now) + if secs == 0 then 0.0 else Due(m, provider, key, t)
  {
    if Key(provider, m.kind) == key && AmountFor(m, t).Some? && AmountFor(m, t).value > 0.0 {
      var e := Event(now, AmountFor(m, t).value);
      OldEventsDoNotCount(EventsOf(log, key) + [e], now - RETAIN_SECS, now - secs);
      SpentSnoc(EventsOf(log, key), e, now - secs);
    }
  }

  /** Conservation of usage: charging a request raises what any window (of at most 31
      days and a second) counts by exactly the amount due for its kind, even though
      old events are evicted by the same step, and touches no other provider. A window
      of no seconds never counts anything new. */
  lemma {:induction false} ChargeCounts(log: Log, provider: string, kinds: seq<Metered>, t: P.Tally, now: int,
                                        key: Key, secs: nat)
    requires secs <= RETAIN_SECS + 1
    ensures SpentAt(EventsOf(Charge(log, provider, kinds, t, now), key), secs, now)
      == SpentAt(EventsOf(log, key), secs, now) + if secs == 0 then 0.0 else TotalDue(kinds, provider, key, t)
    ensures key.provider != provider ==> EventsOf(Charge(log, provider, kinds, t, now), key) == EventsOf(log, key)
    decreases kinds
  {
    if kinds != [] {
      ChargeOneCounts(log, provider, kinds[0], t, now, key, secs);
      ChargeCounts(ChargeOne(log, provider, kinds[0], t, now), provider, kinds[1..], t, now, key, secs);
    }
  }

  // ----- what each kind of metering charges -----

  /** What a window of the key counts. */
  function Counted(log: Log, provider: string, kind: Kind, secs: nat, now: int): real {
    SpentAt(EventsOf(log, Key(provider, kind)), secs, now)
  }

  lemma OneKind(log: Log, provider: string, m: Metered, t: P.Tally, now: int, secs: nat)
    requires 0 < secs <= RETAIN_SECS + 1
    ensures Counted(Charge(log, provider, [m], t, now), provider, m.kind, secs, now)
      == Counted(log, provider, m.kind, secs, now) + Due(m, provider, Key(provider, m.kind), t)
  {
    ChargeCounts(log, provider, [m], t, now, Key(provider, m.kind), secs);
    assert [m][1..] == [] && TotalDue([], provider, Key(provider, m.kind), t) == 0.0;
  }

  /** A request counts as one, whatever it cost. */
  lemma CountCharged(log: Log, provider: string, price: Option<Price>, t: P.Tally, now: int, secs: nat)
    requires 0 < secs <= RETAIN_SECS + 1
    ensures Counted(Charge(log, provider, [Metered(Count, price)], t, now), provider, Count, secs, now)
      == Counted(log, provider, Count, secs, now) + 1.0
  {
    OneKind(log, provider, Metered(Count, price), t, now, secs);
  }

  /** Tokens count as prompt and completion together, those not reported as none. */
  lemma TokensCharged(log: Log, provider: string, price: Option<Price>, t: P.Tally, now: int, secs: nat)
    requires 0 < secs <= RETAIN_SECS + 1
    ensures var prompt, completion := UnwrapOr(t.prompt, 0), UnwrapOr(t.completion, 0);
      Counted(Charge(log, provider, [Metered(Token, price)], t, now), provider, Token, secs, now)
        == Counted(log, provider, Token, secs, now) + prompt as real + completion as real
  {
    OneKind(log, provider, Metered(Token, price), t, now, secs);
  }

  /** Money is the upstream's own cost if that is positive; a subscription that reports
      nothing or zero is charged the model's price per million tokens; without a price
      nothing changes at all. */
  lemma MoneyCharged(log: Log, provider: string, price: Option<Price>, t: P.Tally, now: int, secs: nat)
    requires 0 < secs <= RETAIN_SECS + 1
    ensures var charged := Charge(log, provider, [Metered(Billing, price)], t, now);
      var before, after := Counted(log, provider, Billing, secs, now), Counted(charged, provider, Billing, secs, now);
      var prompt, completion := UnwrapOr(t.prompt, 0), UnwrapOr(t.completion, 0);
      if t.cost.Some? && t.cost.value > 0.0 then after == before + t.cost.value
      else match price
        case None => charged == log
        case Some(p) =>
          var estimate := prompt as real / 1000000.0 * p.input + completion as real / 1000000.0 * p.output;
          after == before + if estimate < 0.0 then 0.0 else estimate
  {
    OneKind(log, provider, Metered(Billing, price), t, now, secs);
    if t.cost.Some? && t.cost.value > 0.0 {
      assert AmountFor(Metered(Billing, price), t) == t.cost;
    } else if price.None? {
      PricelessCharge(log, provider, price, t, now);
    } else {
      assert AmountFor(Metered(Billing, price), t)
        == Some(Estimate(price.value, UnwrapOr(t.prompt, 0), UnwrapOr(t.completion, 0)));
    }
  }

  lemma PricelessCharge(log: Log, provider: string, price: Option<Price>, t: P.Tally, now: int)
    requires price.None? && (t.cost.None? || t.cost.value <= 0.0)
    ensures Charge(log, provider, [Metered(Billing, price)], t, now) == log
  {
    var m := Metered(Billing, price);
    assert [m][1..] == [] && ChargeOne(log, provider, m, t, now) == log;
  }

  /** A million prompt tokens on a plan that reports a cost of zero. */
  lemma ZeroCostIsEstimated(provider: string, now: int)
    ensures var t := P.Tally(Some(0.0), Some(1000000), None);
      var charged := Charge(map[], provider, [Metered(Billing, Some(Price(0.4, 1.6)))], t, now);
      Counted(charged, provider, Billing, 3600, now) == 0.4
  {
    var t := P.Tally(Some(0.0), Some(1000000), None);
    MoneyCharged(map[], provider, Some(Price(0.4, 1.6)), t, now, 3600);
    assert Counted(map[], provider, Billing, 3600, now) == 0.0;
  }
}
