/** A confident loss arms one reversal of the symbol's next direction; the next resolution consumes it. */
module ErrorReversal {
  import opened Numeric
  import opened QuoteGuard
  import opened Trading

  datatype Info = Info(brier: real, residual: real, from: Direction, target: Direction, armedCycle: int)
  datatype Config = Config(enabled: bool, threshold: real, conviction: real)

  function Clamp(p: real): real { Max(0.0, Min(1.0, p)) }

  function Residual(p: real, won: bool, d: Direction): real {
    (if won == d.CALL? then 1.0 else 0.0) - Clamp(p)
  }

  function BrierScore(p: real, won: bool, d: Direction): real {
    Times(Residual(p, won, d), Residual(p, won, d))
  }

  predicate IsArmed(brier: real, p: real, c: Config) {
    brier >= c.threshold && Max(Clamp(p), 1.0 - Clamp(p)) >= c.conviction
  }

  /** With a threshold above a quarter, a loss arms the reversal only if its side was the one the model favoured. */
  lemma ArmedMeansConfidentLoss(p: real, d: Direction, c: Config)
    requires c.threshold > 0.25
    ensures var side := SideOf(Clamp(p), d);
            IsArmed(BrierScore(p, false, d), p, c) <==> Times(side, side) >= c.threshold && side >= c.conviction && side > 0.5
  {
    var side := SideOf(Clamp(p), d);
    assert Times(side, side) == BrierScore(p, false, d);
    if side <= 0.5 {
      HalfSquare(side);
    }
  }

  lemma HalfSquare(x: real)
    requires 0.0 <= x <= 0.5
    ensures Times(x, x) <= 0.25
  {
    assert x * x <= 0.5 * x;
  }

  // ---------- Steps ----------

  /** A side of None stands for a direction that is missing or neither CALL nor PUT. */
  datatype Event =
    | Settled(symbol: Symbol, won: bool, prob: Option<real>, side: Option<Direction>, config: Config, cycle: int)
    | Resolved(symbol: Symbol, current: Direction, calibrated: Option<real>, payout: Option<real>, enabled: bool, guard: Guard, cycle: int)

  type Bag = map<Symbol, Info>

  predicate Clears(e: Event)
    requires e.Settled?
  {
    e.won || !e.config.enabled
  }

  predicate Arms(e: Event) {
    e.Settled? && !Clears(e) && e.prob.Some? && e.side.Some? &&
    IsArmed(BrierScore(e.prob.value, e.won, e.side.value), e.prob.value, e.config)
  }

  function ArmedInfo(e: Event): Info
    requires Arms(e)
  {
    var p, d := e.prob.value, e.side.value;
    Info(BrierScore(p, e.won, d), Residual(p, e.won, d), d, Opposite(d), e.cycle)
  }

  predicate Stale(i: Info, cycle: int) {
    i.armedCycle > 0 && cycle > i.armedCycle + 1
  }

  /** The reversal is applied in this resolution. */
  predicate Applies(bag: Bag, e: Event) {
    e.Resolved? && e.symbol in bag && !Stale(bag[e.symbol], e.cycle) && e.enabled &&
    (e.payout.Some? ==> HasEdge(e.calibrated, bag[e.symbol].target, e.payout.value, e.guard))
  }

  function Step(bag: Bag, e: Event): Bag {
    match e
    case Settled(x, won, prob, side, config, cycle) =>
      if Clears(e) then bag - {x} else if Arms(e) then bag[x := ArmedInfo(e)] else bag
    case Resolved(x, current, calibrated, payout, enabled, guard, cycle) => bag - {x}
  }

  function Run(events: seq<Event>): Bag {
    if events == [] then map[] else Step(Run(events[..|events| - 1]), events[|events| - 1])
  }

  // ---------- The history ----------

  /** The arming that is still open for a symbol, reading the events backwards. */
  function OpenArming(events: seq<Event>, x: Symbol): Option<Info> {
    if events == [] then None
    else
      var before, e := events[..|events| - 1], events[|events| - 1];
      if e.symbol != x then OpenArming(before, x)
      else if e.Resolved? || Clears(e) then None
      else if Arms(e) then Some(ArmedInfo(e))
      else OpenArming(before, x)
  }

  /** The bag holds the last arming not followed by a resolution, a win or a disabled settlement of the symbol. */
  lemma {:induction false} BagIsOpenArming(events: seq<Event>, x: Symbol)
    ensures OpenArming(events, x) == if x in Run(events) then Some(Run(events)[x]) else None
  {
    if events != [] {
      BagIsOpenArming(events[..|events| - 1], x);
      hide Arms, ArmedInfo;
    }
  }

  function Armings(events: seq<Event>, x: Symbol): nat {
    if events == [] then 0
    else Armings(events[..|events| - 1], x) + if events[|events| - 1].symbol == x && Arms(events[|events| - 1]) then 1 else 0
  }

  function Uses(events: seq<Event>, x: Symbol): nat {
    if events == [] then 0
    else
      var before, e := events[..|events| - 1], events[|events| - 1];
      Uses(before, x) + if e.symbol == x && Applies(Run(before), e) then 1 else 0
  }

  /** Every arming is used at most once: uses, and the arming still open, never outnumber the armings. */
  lemma {:induction false} UsedAtMostOnce(events: seq<Event>, x: Symbol)
    ensures Uses(events, x) + (if x in Run(events) then 1 else 0) <= Armings(events, x)
  {
    if events != [] {
      var before, e := events[..|events| - 1], events[|events| - 1];
      UsedAtMostOnce(before, x);
      hide Stale, HasEdge, ArmedInfo;
    }
  }

  /** An applied reversal goes against a side that lost, armed in this cycle or the one before when cycles are counted. */
  lemma AppliedAgainstLoss(events: seq<Event>, e: Event)
    requires Applies(Run(events), e)
    ensures var i := Run(events)[e.symbol];
            && i.target == Opposite(i.from)
            && (i.armedCycle > 0 ==> e.cycle <= i.armedCycle + 1)
            && exists k :: 0 <= k < |events| && events[k].symbol == e.symbol && Arms(events[k]) && ArmedInfo(events[k]) == i
  {
    InfoIsArmed(events, e.symbol);
  }

  lemma {:induction false} InfoIsArmed(events: seq<Event>, x: Symbol)
    requires x in Run(events)
    ensures exists k :: 0 <= k < |events| && events[k].symbol == x && Arms(events[k]) && ArmedInfo(events[k]) == Run(events)[x]
  {
    var before, e := events[..|events| - 1], events[|events| - 1];
    if e.symbol == x && Arms(e) {
      assert events[|events| - 1] == e;
    } else {
      InfoIsArmed(before, x);
      var k :| 0 <= k < |before| && before[k].symbol == x && Arms(before[k]) && ArmedInfo(before[k]) == Run(before)[x];
      assert events[k] == before[k];
    }
  }

  // ---------- The operations ----------

  class AlphaReversal {
    var pending: Bag
    ghost var events: seq<Event>

    ghost predicate Valid()
      reads this
    {
      pending == Run(events)
    }

    constructor ()
      ensures Valid() && events == []
    {
      pending, events := map[], [];
    }

    method RecordOnSettlement(x: Symbol, won: bool, prob: Option<real>, side: Option<Direction>, c: Config, cycle: int)
      requires Valid()
      modifies this
      ensures Valid() && events == old(events) + [Settled(x, won, prob, side, c, cycle)]
    {
      Extend(events, Settled(x, won, prob, side, c, cycle));
      events := events + [Settled(x, won, prob, side, c, cycle)];
      if won {
        pending := pending - {x};
        return;
      }
      if !c.enabled {
        pending := pending - {x};
        return;
      }
      if prob.None? || side.None? {
        return;
      }
      var d := side.value;
      var brier := BrierScore(prob.value, won, d);
      if IsArmed(brier, prob.value, c) {
        pending := pending[x := Info(brier, Residual(prob.value, won, d), d, Opposite(d), cycle)];
      }
    }

    method ApplyToDirection(x: Symbol, current: Direction, calibrated: Option<real>, payout: Option<real>,
                            enabled: bool, g: Guard, cycle: int)
      returns (d: Direction, applied: bool)
      requires Valid()
      modifies this
      ensures Valid() && events == old(events) + [Resolved(x, current, calibrated, payout, enabled, g, cycle)]
      ensures applied <==> Applies(old(pending), Resolved(x, current, calibrated, payout, enabled, g, cycle))
      ensures d == if applied then old(pending)[x].target else current
    {
      ghost var e := Resolved(x, current, calibrated, payout, enabled, g, cycle);
      Extend(events, e);
      events := events + [e];
      if x !in pending {
        assert pending - {x} == pending;
        return current, false;
      }
      var info := pending[x];
      pending := pending - {x};
      if info.armedCycle > 0 && cycle > info.armedCycle + 1 {
        return current, false;
      }
      if !enabled {
        return current, false;
      }
      if payout.Some? && !HasEdge(calibrated, info.target, payout.value, g) {
        return current, false;
      }
      return info.target, true;
    }
  }

  lemma Extend(events: seq<Event>, e: Event)
    ensures Run(events + [e]) == Step(Run(events), e)
  {
    assert (events + [e])[..|events|] == events;
  }
}
