/**
 The order in which the execution direction is settled: anti-trend lock, error-driven reversal, optional
 inversion, market trigger. Each flip is judged on its own; this module says when they all agree.
 */
module FlipChain {
  import opened Numeric
  import opened QuoteGuard
  import opened MarketTrigger
  import opened ErrorReversal
  import opened Trading

  datatype Regime = Explosion | Retraction | Chop | Blank | OtherRegime

  /**
   What the anti-trend lock looks at: edge and losses are those of the proposed side, prob is the probability of a
   rise whichever side is proposed. A side of None stands for any other text.
   */
  datatype Pressure = Pressure(losses: nat, pendingLoss: real, edge: real, prob: real, trend: Option<Direction>, zeta: real,
                               regime: Regime, regimeSide: Option<Direction>, closedCandle: Option<Direction>, rsi: Option<real>)

  /** A weak proposal against the side of an explosive or retracting regime. */
  predicate AgainstRegime(d: Direction, s: Pressure, prob: real) {
    var floor := if s.regime.Retraction? && s.trend == Some(d) then 0.52 else 0.56;
    (s.regime.Explosion? || s.regime.Retraction?) && s.regimeSide == Some(Opposite(d)) && prob < floor && s.edge < 0.045
  }

  /** There is debt and a loss on this side, and the market is neither flat nor closed against it without a regime. */
  predicate DebtRule(d: Direction, s: Pressure) {
    && s.pendingLoss > 0.0 && s.losses >= 1
    && !s.regime.Chop? && !(s.closedCandle == Some(Opposite(d)) && s.regime.Blank?)
  }

  /** A loss on this side while debt is pending, unless the market is flat or the proposal strong. */
  predicate AfterLoss(d: Direction, s: Pressure, prob: real) {
    DebtRule(d, s) && !(prob >= 0.62 && s.edge >= 0.08)
  }

  predicate Overdone(d: Direction, s: Pressure) {
    s.rsi.Some? && if d.CALL? then s.rsi.value <= 0.30 else s.rsi.value >= 0.70
  }

  predicate Stretched(d: Direction, s: Pressure) {
    if d.CALL? then s.zeta > 2.0 else s.zeta < -2.0
  }

  predicate WantsFlip(d: Direction, s: Pressure) {
    if Overdone(d, s) then false
    else if Stretched(d, s) then true
    else AgainstRegime(d, s, s.prob) || s.losses >= 2 || AfterLoss(d, s, s.prob)
  }

  datatype Settings = Settings(allowFlip: bool, antiTrend: bool, vetoWeak: bool, invert: bool, reversal: bool, market: MarketTrigger.Config)

  datatype Inputs = Inputs(symbol: Symbol, proposed: Direction, lossFlip: bool, pressure: Pressure,
                           view: View, calibrated: Option<real>, bag: Bag, cycle: int)

  // ---------- The stages ----------

  /** A missing or zero calibrated probability reads as one half here. */
  function CalibratedOrHalf(p: Option<real>): real {
    if p.None? || p.value == 0.0 then 0.5 else p.value
  }

  predicate WeakRegime(c: Settings, i: Inputs, d: Direction) {
    && c.vetoWeak && i.pressure.trend != Some(d)
    && SideOf(CalibratedOrHalf(i.calibrated), d) + 0.000000001 < 0.50
  }

  predicate LockWanted(c: Settings, i: Inputs) {
    c.allowFlip && c.antiTrend && !i.lossFlip && WantsFlip(i.proposed, i.pressure)
  }

  /** The side the anti-trend lock flips to, when it is accepted. */
  function AntiTrend(c: Settings, payout: real, i: Inputs): Option<Direction> {
    var d := Opposite(i.proposed);
    if LockWanted(c, i) && !WeakRegime(c, i, d) && HasEdge(i.calibrated, d, payout, FlipGuard(c.market)) then Some(d) else None
  }

  function Or(flip: Option<Direction>, d: Direction): Direction {
    if flip.Some? then flip.value else d
  }

  function Resolution(c: Settings, payout: real, i: Inputs): Event {
    Resolved(i.symbol, Or(AntiTrend(c, payout, i), i.proposed), i.calibrated, Some(payout), c.reversal, FlipGuard(c.market), i.cycle)
  }

  /** The side an armed reversal turns to, when it is applied. */
  function Reversal(c: Settings, payout: real, i: Inputs): Option<Direction> {
    if Applies(i.bag, Resolution(c, payout, i)) then Some(i.bag[i.symbol].target) else None
  }

  function BeforeTrigger(c: Settings, payout: real, i: Inputs): Direction {
    var d := Or(Reversal(c, payout, i), Or(AntiTrend(c, payout, i), i.proposed));
    if c.invert then Opposite(d) else d
  }

  /** The side the market trigger turns to, when it is accepted. */
  function Trigger(c: Settings, payout: real, i: Inputs): Option<Direction> {
    var d := BeforeTrigger(c, payout, i);
    if TriggerStatus(d, i.view, i.calibrated, payout, c.market).Accepted? then Some(Opposite(d)) else None
  }

  function Final(c: Settings, payout: real, i: Inputs): Direction {
    Or(Trigger(c, payout, i), BeforeTrigger(c, payout, i))
  }

  // ---------- Agreement ----------

  predicate Same(a: Option<Direction>, b: Option<Direction>) {
    a.Some? && b.Some? ==> a == b
  }

  /** All flips accepted in one resolution choose the same side. */
  predicate Agree(c: Settings, payout: real, i: Inputs) {
    var a, r, t := AntiTrend(c, payout, i), Reversal(c, payout, i), Trigger(c, payout, i);
    Same(a, r) && Same(a, t) && Same(r, t)
  }

  predicate SomeFlip(c: Settings, payout: real, i: Inputs) {
    AntiTrend(c, payout, i).Some? || Reversal(c, payout, i).Some? || Trigger(c, payout, i).Some?
  }

  lemma FlipsHaveEdge(c: Settings, payout: real, i: Inputs)
    ensures var g := FlipGuard(c.market);
            && (AntiTrend(c, payout, i).Some? ==> HasEdge(i.calibrated, AntiTrend(c, payout, i).value, payout, g))
            && (Reversal(c, payout, i).Some? ==> HasEdge(i.calibrated, Reversal(c, payout, i).value, payout, g))
            && (Trigger(c, payout, i).Some? ==> HasEdge(i.calibrated, Trigger(c, payout, i).value, payout, g))
  {
    var d := BeforeTrigger(c, payout, i);
    if TriggerStatus(d, i.view, i.calibrated, payout, c.market).Accepted? {
      TriggerLeavesVetoedSide(d, i.view, i.calibrated, payout, c.market);
    }
    hide HasEdge, TriggerStatus, WeakRegime, LockWanted;
  }

  lemma OnlyOneSide(p: Option<real>, payout: real, g: Guard)
    requires !EvenChancePasses(payout, g)
    ensures !(HasEdge(p, CALL, payout, g) && HasEdge(p, PUT, payout, g))
  {
    if p.Some? && HasEdge(p, CALL, payout, g) && HasEdge(p, PUT, payout, g) {
      OneSideOrEvenChance(p.value, payout, g);
    }
  }

  /**
   Without inversion, when an even chance does not pass the quote test, the accepted flips agree whatever the market
   looks like; their side is the final one, it is the only side with an edge, and the trigger never undoes another flip.
   */
  lemma Confluence(c: Settings, payout: real, i: Inputs)
    requires !c.invert && !EvenChancePasses(payout, FlipGuard(c.market))
    ensures Agree(c, payout, i)
    ensures Trigger(c, payout, i).Some? ==> AntiTrend(c, payout, i).None? && Reversal(c, payout, i).None?
    ensures var final := Final(c, payout, i);
            && Same(AntiTrend(c, payout, i), Some(final)) && Same(Reversal(c, payout, i), Some(final)) && Same(Trigger(c, payout, i), Some(final))
            && if SomeFlip(c, payout, i) then
                 && HasEdge(i.calibrated, final, payout, FlipGuard(c.market))
                 && !HasEdge(i.calibrated, Opposite(final), payout, FlipGuard(c.market))
               else final == i.proposed
  {
    FlipsHaveEdge(c, payout, i);
    OnlyOneSide(i.calibrated, payout, FlipGuard(c.market));
    Stages(c, payout, i);
    hide HasEdge, AntiTrend, Reversal, Trigger, FlipGuard, EvenChancePasses;
  }

  lemma Stages(c: Settings, payout: real, i: Inputs)
    requires !c.invert
    ensures var d := Or(Reversal(c, payout, i), Or(AntiTrend(c, payout, i), i.proposed));
            && Final(c, payout, i) == Or(Trigger(c, payout, i), d)
            && (Trigger(c, payout, i).Some? ==> Trigger(c, payout, i).value == Opposite(d))
  {
    hide TriggerStatus, AntiTrend, Reversal;
  }

  /** The usual case: a payout of at most the stake and a floor that is not negative. */
  lemma UsualConfluence(c: Settings, payout: real, i: Inputs)
    requires !c.invert && payout <= 1.0 && FlipGuard(c.market).minEdge >= 0.0
    ensures Agree(c, payout, i)
    ensures SomeFlip(c, payout, i) ==> HasEdge(i.calibrated, Final(c, payout, i), payout, FlipGuard(c.market))
  {
    AtMostOneSide(i.calibrated, payout, FlipGuard(c.market));
    Confluence(c, payout, i);
    hide Agree, SomeFlip, HasEdge, Final, FlipGuard;
  }

  function Calm(): Pressure {
    Pressure(0, 0.0, 0.0, 0.5, None, 3.0, OtherRegime, None, None, None)
  }

  /** A PUT that lost although the model saw no chance of a fall at all. */
  function LostPut(): Event {
    Settled("R", false, Some(0.0), Some(PUT), ErrorReversal.Config(true, 0.40, 0.60), 0)
  }

  /** The state of the bag after some history. */
  ghost predicate Reachable(b: Bag) {
    exists events :: b == ErrorReversal.Run(events)
  }

  /** An even chance, a CALL that is stretched upwards and a reversal towards CALL armed by a lost PUT. */
  function Torn(): Inputs {
    Inputs("R", CALL, false, Calm(), View(None, None, None, None, None, None), Some(0.5), ErrorReversal.Run([LostPut()]), 0)
  }

  lemma TornBag()
    ensures Torn().bag == map["R" := Info(1.0, 1.0, PUT, CALL, 0)] && Reachable(Torn().bag)
  {
    assert Arms(LostPut());
    assert [LostPut()][..0] == [];
    assert ErrorReversal.Run([]) == map[];
    assert ErrorReversal.Run([LostPut()]) == Step(map[], LostPut());
  }

  lemma TornDisagrees(c: Settings, payout: real)
    requires c.allowFlip && c.antiTrend && c.reversal && EvenChancePasses(payout, FlipGuard(c.market))
    ensures !Agree(c, payout, Torn())
  {
    var i := Torn();
    TornBag();
    EdgeIsWorth(0.5, PUT, payout, FlipGuard(c.market));
    EdgeIsWorth(0.5, CALL, payout, FlipGuard(c.market));
    hide HasEdge, Worth, Usable, Trigger;
    assert WantsFlip(CALL, Calm());
    assert AntiTrend(c, payout, i) == Some(PUT);
    assert Reversal(c, payout, i) == Some(CALL);
  }

  /** With the flips switched on, they agree on all inputs with a reachable bag exactly when an even chance does not pass the quote test. */
  lemma AgreementIsExact(c: Settings, payout: real)
    requires !c.invert && c.allowFlip && c.antiTrend && c.reversal
    ensures (forall i: Inputs :: Reachable(i.bag) ==> Agree(c, payout, i)) <==> !EvenChancePasses(payout, FlipGuard(c.market))
  {
    hide Agree, EvenChancePasses, FlipGuard, Reachable, Torn;
    if EvenChancePasses(payout, FlipGuard(c.market)) {
      TornDisagrees(c, payout);
      TornBag();
    } else {
      forall i: Inputs ensures Agree(c, payout, i) {
        Confluence(c, payout, i);
      }
    }
  }

  /** At a payout of three times the stake the lock flips to PUT and the reversal back to CALL, both accepted. */
  lemma GenerousPayoutDisagrees(c: Settings)
    requires c.allowFlip && c.antiTrend && c.reversal && FlipGuard(c.market) == Guard(0.0, 0.0, 0.0)
    ensures Reachable(Torn().bag) && !Agree(c, 3.0, Torn())
  {
    TornBag();
    TornDisagrees(c, 3.0);
  }

  // ---------- Both sides are treated alike ----------

  /** The pressure on the other side of an upside-down market. */
  function MirrorPressure(s: Pressure): Pressure {
    s.(prob := 1.0 - s.prob, trend := MirrorSide(s.trend), zeta := -s.zeta, regimeSide := MirrorSide(s.regimeSide),
    closedCandle := MirrorSide(s.closedCandle), rsi := MirrorProbability(s.rsi))
  }

  /** An explosive or retracting regime stands against a side without much edge, and the debt rule does not apply. */
  predicate RegimeRuleDecides(d: Direction, s: Pressure) {
    && (s.regime.Explosion? || s.regime.Retraction?) && s.regimeSide == Some(Opposite(d)) && s.edge < 0.045
    && !DebtRule(d, s)
  }

  /**
   The proposal is strong either way, nothing before the probability tests decides, and one of the two rules that compare
   the probability of a rise with a fixed number is left to decide.
   */
  predicate ProbabilityDecides(d: Direction, s: Pressure) {
    var strong := Max(s.prob, 1.0 - s.prob);
    && !Overdone(d, s) && !Stretched(d, s) && s.losses < 2
    && ((RegimeRuleDecides(d, s) && strong >= if s.regime.Retraction? && s.trend == Some(d) then 0.52 else 0.56)
        || (DebtRule(d, s) && s.edge >= 0.08 && strong >= 0.62))
  }

  function MirrorBag(b: Bag): Bag {
    map x | x in b :: Info(b[x].brier, -b[x].residual, Opposite(b[x].from), Opposite(b[x].target), b[x].armedCycle)
  }

  function MirrorInputs(k: real, i: Inputs): Inputs {
    Inputs(i.symbol, Opposite(i.proposed), i.lossFlip, MirrorPressure(i.pressure), MirrorView(k, i.view),
           MirrorProbability(i.calibrated), MirrorBag(i.bag), i.cycle)
  }

  /** The lock treats the sides alike exactly when the probability of a rise is not what decides. */
  lemma LockMirrors(d: Direction, s: Pressure)
    ensures (WantsFlip(Opposite(d), MirrorPressure(s)) <==> WantsFlip(d, s)) <==> !ProbabilityDecides(d, s)
  {
  }

  /** After one loss with debt pending, a CALL at 80% is left alone while the same PUT at 80% is to be flipped. */
  lemma LockIsLopsided()
    ensures var s := Pressure(1, 1.0, 0.1, 0.8, None, 0.0, OtherRegime, None, None, None);
            !WantsFlip(CALL, s) && WantsFlip(PUT, MirrorPressure(s))
  {
  }

  /**
   A calibrated probability of exactly zero reads as one half in the weak-regime test, one of exactly one does not.
   That makes no difference unless the floor lies below the loss of the whole stake.
   */
  predicate ZeroIsHarmless(c: Settings, i: Inputs) {
    c.vetoWeak && i.calibrated.Some? && (i.calibrated.value == 0.0 || i.calibrated.value == 1.0) ==> FlipGuard(c.market).minEdge >= -1.0
  }

  /** The lopsided comparison of the lock reaches the direction: the flip it decides on is allowed and would be accepted. */
  predicate LopsidedFlip(c: Settings, payout: real, i: Inputs) {
    && ProbabilityDecides(i.proposed, i.pressure)
    && c.allowFlip && c.antiTrend && !i.lossFlip
    && !WeakRegime(c, i, Opposite(i.proposed)) && HasEdge(i.calibrated, Opposite(i.proposed), payout, FlipGuard(c.market))
  }

  /** The lock's stage treats the two sides alike exactly when its lopsided comparison does not reach the direction. */
  lemma AntiTrendMirrors(k: real, c: Settings, payout: real, i: Inputs)
    requires ZeroIsHarmless(c, i)
    ensures AntiTrend(c, payout, MirrorInputs(k, i)) == MirrorSide(AntiTrend(c, payout, i)) <==> !LopsidedFlip(c, payout, i)
  {
    var d := Opposite(i.proposed);
    LockMirrors(i.proposed, i.pressure);
    JudgeMirrors(i.calibrated, d, payout, FlipGuard(c.market));
    hide WantsFlip, ProbabilityDecides, Judge, FlipGuard, MirrorView;
    if WeakRegime(c, i, d) != WeakRegime(c, MirrorInputs(k, i), Opposite(d)) {
      assert i.calibrated.Some? && (i.calibrated.value == 0.0 || i.calibrated.value == 1.0);
      if SideOf(i.calibrated.value, d) == 0.0 {
        HopelessSide(i.calibrated.value, d, payout, FlipGuard(c.market));
      }
    }
  }

  /** A proposal that the calibrated probability does not speak against. */
  predicate Favoured(i: Inputs) {
    i.calibrated.Some? ==> SideOf(i.calibrated.value, i.proposed) >= 0.5
  }

  /** When an even chance does not pass, the lock never flips a favoured proposal, whatever it wants. */
  lemma FavouredIsNotFlipped(c: Settings, payout: real, i: Inputs)
    requires Favoured(i) && !EvenChancePasses(payout, FlipGuard(c.market))
    ensures AntiTrend(c, payout, i).None?
  {
    var d, g := Opposite(i.proposed), FlipGuard(c.market);
    if i.calibrated.Some? && HasEdge(i.calibrated, d, payout, g) {
      EdgeIsWorth(i.calibrated.value, d, payout, g);
      WorthGrows(SideOf(i.calibrated.value, d), 0.5, payout, g);
    }
    hide Judge, EvenChancePasses, LockWanted, WeakRegime, FlipGuard;
  }

  lemma ReversalMirrors(k: real, c: Settings, payout: real, i: Inputs)
    requires AntiTrend(c, payout, MirrorInputs(k, i)) == MirrorSide(AntiTrend(c, payout, i))
    ensures Reversal(c, payout, MirrorInputs(k, i)) == MirrorSide(Reversal(c, payout, i))
  {
    if i.symbol in i.bag {
      JudgeMirrors(i.calibrated, i.bag[i.symbol].target, payout, FlipGuard(c.market));
    }
    hide AntiTrend, Judge, FlipGuard, MirrorView, MirrorPressure;
  }

  /** What every later stage does when the lock's stage is mirrored. */
  lemma RestMirrors(k: real, c: Settings, payout: real, i: Inputs)
    requires Reflectable(k, i.view)
    requires AntiTrend(c, payout, MirrorInputs(k, i)) == MirrorSide(AntiTrend(c, payout, i))
    ensures ChainIsMirrored(k, c, payout, i)
  {
    ReversalMirrors(k, c, payout, i);
    StatusMirrors(k, BeforeTrigger(c, payout, i), i.view, i.calibrated, payout, c.market);
    hide AntiTrend, Reversal, TriggerStatus, MirrorView, MirrorPressure, MirrorBag;
  }

  /** In an upside-down market every stage, and the final side, is mirrored. */
  predicate ChainIsMirrored(k: real, c: Settings, payout: real, i: Inputs) {
    var j := MirrorInputs(k, i);
    && AntiTrend(c, payout, j) == MirrorSide(AntiTrend(c, payout, i))
    && Reversal(c, payout, j) == MirrorSide(Reversal(c, payout, i))
    && Trigger(c, payout, j) == MirrorSide(Trigger(c, payout, i))
    && Final(c, payout, j) == Opposite(Final(c, payout, i))
  }

  /** The whole chain treats the two sides alike exactly when the lopsided comparison of the lock does not reach the direction. */
  lemma ChainMirrors(k: real, c: Settings, payout: real, i: Inputs)
    requires Reflectable(k, i.view) && ZeroIsHarmless(c, i)
    ensures ChainIsMirrored(k, c, payout, i) <==> !LopsidedFlip(c, payout, i)
  {
    AntiTrendMirrors(k, c, payout, i);
    if !LopsidedFlip(c, payout, i) {
      RestMirrors(k, c, payout, i);
    }
    hide AntiTrend, Reversal, Trigger, Final, LopsidedFlip, MirrorInputs;
  }

  /** When an even chance does not pass, favoured proposals are always treated alike, a calibrated probability of zero included. */
  lemma FavouredMirrors(k: real, c: Settings, payout: real, i: Inputs)
    requires Reflectable(k, i.view) && Favoured(i) && !EvenChancePasses(payout, FlipGuard(c.market))
    ensures ChainIsMirrored(k, c, payout, i)
  {
    FavouredIsNotFlipped(c, payout, i);
    FavouredIsNotFlipped(c, payout, MirrorInputs(k, i));
    RestMirrors(k, c, payout, i);
    hide AntiTrend, ChainIsMirrored;
  }

  /** A CALL proposed at a rise probability of 20%, against an explosive regime; probability and calibrated probability agree. */
  function AgainstTheOdds(): Inputs {
    Inputs("R", CALL, false, Pressure(0, 0.0, -0.63, 0.2, None, 0.0, Explosion, Some(PUT), None, None),
           View(None, None, None, None, None, None), Some(0.2), map[], 0)
  }

  const USUAL_SETTINGS := Settings(true, true, false, false, true, MarketTrigger.Config(true, true, Some(0.0), 0.01, 0.0))

  /** At a payout of 0.85 this CALL is turned to PUT, while the mirrored PUT at a rise probability of 80% stays PUT. */
  lemma ChainIsLopsided(k: real)
    ensures Final(USUAL_SETTINGS, 0.85, AgainstTheOdds()) == PUT
    ensures Final(USUAL_SETTINGS, 0.85, MirrorInputs(k, AgainstTheOdds())) == PUT
  {
    var i, g := AgainstTheOdds(), FlipGuard(USUAL_SETTINGS.market);
    var j := MirrorInputs(k, i);
    EdgeIsWorth(0.2, PUT, 0.85, g);
    assert Worth(0.8, 0.85, g) by {
      assert Times(0.8, 1.85) == 1.48;
      BreakEvenBelow(0.85, 0.79);
    }
    assert HasEdge(i.calibrated, PUT, 0.85, g);
    assert WantsFlip(CALL, i.pressure) && !WantsFlip(PUT, j.pressure);
    hide Judge, WantsFlip;
    assert AntiTrend(USUAL_SETTINGS, 0.85, i) == Some(PUT) && AntiTrend(USUAL_SETTINGS, 0.85, j) == None;
    assert Reversal(USUAL_SETTINGS, 0.85, i) == None && Reversal(USUAL_SETTINGS, 0.85, j) == None;
    assert MarketVeto(i.view, PUT) == None && MarketVeto(j.view, PUT) == None;
  }

  lemma BreakEvenBelow(rate: real, p: real)
    requires rate > 0.0 && Times(p, 1.0 + rate) >= 1.0
    ensures 1.0 / (1.0 + rate) <= p
  {
    var be := 1.0 / (1.0 + rate);
    assert be * (1.0 + rate) == 1.0;
    MoreThan(be, p, 1.0 + rate);
  }

  // ---------- The operation ----------

  lemma Unfolded(c: Settings, payout: real, i: Inputs)
    ensures var a, r, t := AntiTrend(c, payout, i), Reversal(c, payout, i), Trigger(c, payout, i);
            var afterAnti := Or(a, i.proposed);
            var before := BeforeTrigger(c, payout, i);
            && Resolution(c, payout, i) ==
               Resolved(i.symbol, afterAnti, i.calibrated, Some(payout), c.reversal, FlipGuard(c.market), i.cycle)
            && (r.Some? <==> Applies(i.bag, Resolution(c, payout, i)))
            && (r.Some? ==> i.symbol in i.bag && r == Some(i.bag[i.symbol].target) && Or(r, afterAnti) == r.value)
            && (r.None? ==> Or(r, afterAnti) == afterAnti)
            && before == (if c.invert then Opposite(Or(r, afterAnti)) else Or(r, afterAnti))
            && (t.Some? <==> TriggerStatus(before, i.view, i.calibrated, payout, c.market).Accepted?)
            && Final(c, payout, i) == if t.Some? then Opposite(before) else before
  {
    hide AntiTrend, TriggerStatus, HasEdge, Stale;
  }

  datatype Origin = TcnDirect | FlipAntiTrend | FlipLossClf | FlipAlpha | MarketTriggerTcn

  /** The part of the metrics record the chain writes; flags keep their old value where no stage sets them. */
  class FlipMetrics {
    var lossFlip: bool
    var antiTrendFlip: bool
    var alphaFlip: bool
    var triggerApplied: bool
    var origin: Origin
    var beforeScale: Direction
    var executed: Direction

    constructor (lossFlip: bool)
      ensures this.lossFlip == lossFlip && !antiTrendFlip && !alphaFlip && !triggerApplied
    {
      this.lossFlip, antiTrendFlip, alphaFlip, triggerApplied := lossFlip, false, false, false;
      origin, beforeScale, executed := TcnDirect, CALL, CALL;
    }

    method FinalizeDirection(c: Settings, payout: real, reversal: AlphaReversal, i: Inputs) returns (d: Direction)
      requires reversal.Valid() && i.lossFlip == lossFlip && i.bag == reversal.pending
      modifies this, reversal
      ensures reversal.Valid() && reversal.events == old(reversal.events) + [Resolution(c, payout, i)]
      ensures d == executed == Final(c, payout, i)
      ensures beforeScale == Or(Reversal(c, payout, i), Or(AntiTrend(c, payout, i), i.proposed))
      ensures triggerApplied <==> Trigger(c, payout, i).Some?
      ensures triggerApplied ==> !lossFlip && !antiTrendFlip && !alphaFlip && origin == MarketTriggerTcn
      ensures !triggerApplied ==>
        && lossFlip == old(lossFlip)
        && alphaFlip == (old(alphaFlip) || Reversal(c, payout, i).Some?)
        && antiTrendFlip == (if LockWanted(c, i) then AntiTrend(c, payout, i).Some? else old(antiTrendFlip))
        && origin == if alphaFlip then FlipAlpha else if lossFlip then FlipLossClf else if antiTrendFlip then FlipAntiTrend else TcnDirect
    {
      Unfolded(c, payout, i);
      hide *;
      d := AntiTrendStage(c, payout, i);
      var applied;
      d, applied := reversal.ApplyToDirection(i.symbol, d, i.calibrated, Some(payout), c.reversal, FlipGuard(c.market), i.cycle);
      StampOrigin(applied);
      beforeScale := d;
      if c.invert {
        d := Opposite(d);
      }
      d := TriggerStage(c, payout, i, d);
      executed := d;
    }

    method StampOrigin(applied: bool)
      modifies this`alphaFlip, this`origin
      ensures alphaFlip == (old(alphaFlip) || applied)
      ensures origin == if alphaFlip then FlipAlpha else if lossFlip then FlipLossClf else if antiTrendFlip then FlipAntiTrend else TcnDirect
    {
      if applied {
        alphaFlip := true;
      }
      if alphaFlip {
        origin := FlipAlpha;
      } else if lossFlip {
        origin := FlipLossClf;
      } else if antiTrendFlip {
        origin := FlipAntiTrend;
      } else {
        origin := TcnDirect;
      }
    }

    method TriggerStage(c: Settings, payout: real, i: Inputs, current: Direction) returns (d: Direction)
      modifies this`triggerApplied, this`origin, this`lossFlip, this`antiTrendFlip, this`alphaFlip
      ensures triggerApplied <==> TriggerStatus(current, i.view, i.calibrated, payout, c.market).Accepted?
      ensures d == if triggerApplied then Opposite(current) else current
      ensures triggerApplied ==> !lossFlip && !antiTrendFlip && !alphaFlip && origin == MarketTriggerTcn
      ensures !triggerApplied ==>
        lossFlip == old(lossFlip) && antiTrendFlip == old(antiTrendFlip) && alphaFlip == old(alphaFlip) && origin == old(origin)
    {
      hide TriggerStatus;
      triggerApplied := false;
      d := current;
      if TriggerStatus(current, i.view, i.calibrated, payout, c.market).Accepted? {
        d := Opposite(current);
        triggerApplied, origin := true, MarketTriggerTcn;
        lossFlip, antiTrendFlip, alphaFlip := false, false, false;
      }
    }

    method AntiTrendStage(c: Settings, payout: real, i: Inputs) returns (d: Direction)
      requires i.lossFlip == lossFlip
      modifies this`antiTrendFlip
      ensures d == Or(AntiTrend(c, payout, i), i.proposed)
      ensures antiTrendFlip == if LockWanted(c, i) then AntiTrend(c, payout, i).Some? else old(antiTrendFlip)
    {
      hide HasEdge, WantsFlip;
      d := i.proposed;
      if c.allowFlip && c.antiTrend && !lossFlip {
        if WantsFlip(d, i.pressure) {
          var flipped := Opposite(d);
          antiTrendFlip := true;
          var p := SideOf(CalibratedOrHalf(i.calibrated), flipped);
          var weak := c.vetoWeak && i.pressure.trend != Some(flipped) && p + 0.000000001 < 0.50;
          if weak || !HasEdge(i.calibrated, flipped, payout, FlipGuard(c.market)) {
            antiTrendFlip := false;
          } else {
            d := flipped;
          }
        }
      }
    }
  }

  /** The origin recorded for fresh metrics names the flip that decided, and no flip means the proposal stands. */
  method ResolveFresh(c: Settings, payout: real, reversal: AlphaReversal, i: Inputs) returns (d: Direction, origin: Origin)
    requires reversal.Valid() && !i.lossFlip && i.bag == reversal.pending && !c.invert
    requires !EvenChancePasses(payout, FlipGuard(c.market))
    modifies reversal
    ensures reversal.Valid() && d == Final(c, payout, i) && i.symbol !in reversal.pending
    ensures origin.TcnDirect? <==> !SomeFlip(c, payout, i)
    ensures origin.TcnDirect? ==> d == i.proposed
    ensures !origin.TcnDirect? ==> HasEdge(i.calibrated, d, payout, FlipGuard(c.market))
    ensures origin.MarketTriggerTcn? ==> MarketVeto(i.view, i.proposed).Some? && d == Opposite(i.proposed)
  {
    var metrics := new FlipMetrics(false);
    ghost var was := reversal.events;
    d := metrics.FinalizeDirection(c, payout, reversal, i);
    origin := metrics.origin;
    Confluence(c, payout, i);
    ErrorReversal.Extend(was, Resolution(c, payout, i));
    if metrics.triggerApplied {
      TriggerLeavesVetoedSide(i.proposed, i.view, i.calibrated, payout, c.market);
    }
  }
}
