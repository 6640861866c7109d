/** The four market vetoes and the trigger that turns a vetoed side around. */
module MarketTrigger {
  import opened Numeric
  import opened QuoteGuard
  import opened Trading

  datatype Ohlc = Ohlc(open: real, high: real, low: real, close: real)

  /** What the last closed candle and the indicators show; a side of None stands for any other text. */
  datatype View = View(candle: Option<Ohlc>, rsi: Option<real>, bb: Option<real>, di: Option<real>,
                       trend: Option<Direction>, previous: Option<Direction>)

  datatype Veto = TopRejection | BottomRejection | DownContinuation | UpContinuation

  predicate WellFormed(c: Ohlc) {
    && c.open > 0.0 && c.high > 0.0 && c.low > 0.0 && c.close > 0.0
    && c.low <= Min(c.open, c.close) && Max(c.open, c.close) <= c.high
    && c.high - c.low > 0.0
  }

  function Wick(c: Ohlc, d: Direction): real
    requires WellFormed(c)
  {
    (if d.CALL? then c.high - Max(c.open, c.close) else Min(c.open, c.close) - c.low) / (c.high - c.low)
  }

  function Body(c: Ohlc): real
    requires WellFormed(c)
  {
    Abs(c.close - c.open) / (c.high - c.low)
  }

  predicate Extreme(v: View, d: Direction) {
    v.rsi.Some? && v.bb.Some? &&
    if d.CALL? then v.rsi.value >= 0.68 && v.bb.value >= 0.88 else v.rsi.value <= 0.32 && v.bb.value <= 0.12
  }

  /** The candle closed against the side. */
  predicate ClosedAgainst(c: Ohlc, d: Direction) {
    if d.CALL? then c.close < c.open else c.close > c.open
  }

  predicate ExhaustionTurn(v: View, c: Ohlc, d: Direction) {
    v.rsi.Some? && ClosedAgainst(c, d) &&
    if d.CALL? then v.rsi.value >= 0.68 && (v.bb.None? || v.bb.value >= 0.80)
    else v.rsi.value <= 0.32 && (v.bb.None? || v.bb.value <= 0.20)
  }

  predicate Continuation(v: View, c: Ohlc, d: Direction)
    requires WellFormed(c)
  {
    && v.di.Some? && (if d.CALL? then v.di.value <= -0.12 else v.di.value >= 0.12)
    && ClosedAgainst(c, d) && Body(c) >= 0.70
    && v.trend == Some(Opposite(d)) && v.previous == Some(Opposite(d))
  }

  function MarketVeto(v: View, d: Direction): Option<Veto> {
    if v.candle.None? || !WellFormed(v.candle.value) then None
    else
      var c := v.candle.value;
      if Extreme(v, d) && Wick(c, d) >= 0.30 then Some(if d.CALL? then TopRejection else BottomRejection)
      else if ExhaustionTurn(v, c, d) then Some(if d.CALL? then TopRejection else BottomRejection)
      else if Continuation(v, c, d) then Some(if d.CALL? then DownContinuation else UpContinuation)
      else None
  }

  /** The one picture in which a side is rejected while the other is vetoed by a continuation. */
  predicate OnTheEdge(v: View, d: Direction) {
    && v.candle.Some? && WellFormed(v.candle.value)
    && Extreme(v, d) && Wick(v.candle.value, d) == 0.30 && Body(v.candle.value) == 0.70
    && Continuation(v, v.candle.value, Opposite(d))
  }

  lemma PartsOfCandle(c: Ohlc)
    requires WellFormed(c)
    ensures Wick(c, CALL) + Body(c) + Wick(c, PUT) == 1.0
    ensures Wick(c, CALL) >= 0.0 && Wick(c, PUT) >= 0.0 && Body(c) >= 0.0
  {
    var span := c.high - c.low;
    var up, body, down := c.high - Max(c.open, c.close), Abs(c.close - c.open), Min(c.open, c.close) - c.low;
    ThreeParts(up, body, down, span);
  }

  lemma ThreeParts(a: real, b: real, c: real, s: real)
    requires s > 0.0 && a + b + c == s && a >= 0.0 && b >= 0.0 && c >= 0.0
    ensures a / s + b / s + c / s == 1.0 && a / s >= 0.0 && b / s >= 0.0 && c / s >= 0.0
  {
    var x, y, z := a / s, b / s, c / s;
    assert x * s == a && y * s == b && z * s == c;
    Distribute(x, y, z, s);
    CancelFactor(x + y + z, s);
  }

  lemma Distribute(x: real, y: real, z: real, s: real)
    ensures Times(x + y + z, s) == Times(x, s) + Times(y, s) + Times(z, s)
  {
  }

  lemma CancelFactor(k: real, s: real)
    requires s > 0.0 && Times(k, s) == s
    ensures k == 1.0
  {
    assert (k - 1.0) * s == 0.0;
  }

  /**
   Both sides are vetoed at once in no other picture: the wick of the rejected side is exactly 30% of the candle
   and the body the other 70%. So the trigger almost never finds its candidate vetoed.
   */
  lemma BothSidesVetoed(v: View)
    ensures MarketVeto(v, CALL).Some? && MarketVeto(v, PUT).Some? <==> OnTheEdge(v, CALL) || OnTheEdge(v, PUT)
  {
    if v.candle.Some? && WellFormed(v.candle.value) {
      PartsOfCandle(v.candle.value);
      hide Wick, Body, WellFormed;
    }
  }

  // ---------- The trigger ----------

  datatype Config = Config(vetoes: bool, trigger: bool, minEdge: Option<real>, margin: real, haircut: real)

  /** A missing floor counts as nought for a flip and as one hundredth for the trigger. */
  function FlipGuard(c: Config): Guard {
    Guard(if c.minEdge.Some? then c.minEdge.value else 0.0, c.margin, c.haircut)
  }

  function TriggerGuard(c: Config): Guard {
    Guard(if c.minEdge.Some? then c.minEdge.value else 0.01, c.margin, c.haircut)
  }

  /** A quote that clears the floor of a flip but not that of the trigger. */
  predicate FloorsDiffer(c: Config, p: Option<real>, d: Direction, rate: real) {
    HasEdge(p, d, rate, FlipGuard(c)) != HasEdge(p, d, rate, TriggerGuard(c))
  }

  /** The floor is given, the haircut makes every quote unusable, or the margin alone asks for more than either floor. */
  predicate FloorsAlike(c: Config) {
    c.minEdge.Some? || !(0.0 <= c.haircut < 0.5) || c.margin * 1.01 > 0.01 * (1.0 - c.haircut)
  }

  /** The payout at which a certain side is worth one hundredth of the stake. */
  function SplittingRate(c: Config): real
    requires c.haircut != 1.0
  {
    1.01 / (1.0 - c.haircut) - 1.0
  }

  /** Without a floor, a sure CALL at the splitting payout is good enough for a flip and not for the trigger. */
  lemma FloorsSplit(c: Config)
    requires !FloorsAlike(c)
    ensures HasEdge(Some(1.0), CALL, SplittingRate(c), FlipGuard(c)) && !HasEdge(Some(1.0), CALL, SplittingRate(c), TriggerGuard(c))
  {
    var x, rate := 1.0 - c.haircut, SplittingRate(c);
    assert x * (1.0 + rate) == 1.01;
    EdgeIsWorth(1.0, CALL, rate, FlipGuard(c));
    EdgeIsWorth(1.0, CALL, rate, TriggerGuard(c));
    AtSplittingRate(x, rate, c.margin);
  }

  lemma AtSplittingRate(x: real, rate: real, margin: real)
    requires 0.5 < x <= 1.0 && x * (1.0 + rate) == 1.01 && margin * 1.01 <= 0.01 * x
    ensures rate > 0.0 && Times(x, 1.0 + rate) == 1.01 && x >= 1.0 / (1.0 + rate) + margin
  {
    var q := 1.0 + rate;
    assert q > 1.0 by {
      if q <= 1.0 {
        MoreThan(q, 1.0, x);
      }
    }
    var be := 1.0 / q;
    assert be * q == 1.0 && x * q == 1.01;
    CancelProduct(1.01 * be, x, q);
  }

  lemma MoreThan(q: real, r: real, x: real)
    requires x > 0.0
    ensures q <= r <==> q * x <= r * x
  {
    assert (r - q) * x == r * x - q * x;
  }

  lemma CancelProduct(x: real, y: real, q: real)
    requires q > 0.0 && x * q == y * q
    ensures x == y
  {
    assert (x - y) * q == 0.0;
  }

  /** Otherwise no quote separates the two floors. */
  lemma FloorsAgree(c: Config, p: Option<real>, d: Direction, rate: real)
    requires FloorsAlike(c)
    ensures !FloorsDiffer(c, p, d, rate)
  {
    if p.Some? && c.minEdge.None? {
      EdgeIsWorth(p.value, d, rate, FlipGuard(c));
      EdgeIsWorth(p.value, d, rate, TriggerGuard(c));
      hide Judge;
      if IsProbability(p.value) && rate > 0.0 && 0.0 <= c.haircut < 0.5 {
        SmallMargin(SideOf(p.value, d) - c.haircut, 1.0 - c.haircut, rate, c.margin);
      }
    }
  }

  lemma SmallMargin(x: real, most: real, rate: real, margin: real)
    requires rate > 0.0 && x <= most && most > 0.5 && margin * 1.01 > 0.01 * most
    ensures x >= 1.0 / (1.0 + rate) + margin ==> Times(Max(0.0, x), 1.0 + rate) - 1.0 > 0.01
  {
    var q := 1.0 + rate;
    var be := 1.0 / q;
    assert be * q == 1.0;
    if x >= be + margin && Times(Max(0.0, x), q) <= 1.01 {
      MoreThan(x, 1.01 * be, q);
      assert false;
    }
  }

  /** A missing floor makes no difference between a flip and the trigger, on any quote, exactly under this condition. */
  lemma MissingFloor(c: Config)
    ensures (forall p: Option<real>, d: Direction, rate: real :: !FloorsDiffer(c, p, d, rate)) <==> FloorsAlike(c)
  {
    if FloorsAlike(c) {
      forall p: Option<real>, d: Direction, rate: real ensures !FloorsDiffer(c, p, d, rate) {
        FloorsAgree(c, p, d, rate);
      }
    } else {
      FloorsSplit(c);
      assert FloorsDiffer(c, Some(1.0), CALL, SplittingRate(c));
    }
  }

  predicate ValidQuote(p: Option<real>, rate: real, g: Guard) {
    p.Some? && IsProbability(p.value) && rate > 0.0 && g.minEdge >= 0.0 && g.margin >= 0.0 && 0.0 <= g.haircut && g.haircut < 0.5
  }

  datatype Status = Off | NoExtremeSetup | InvalidProbabilityOrPayout | BelowQuoteMargin | WithoutEdge | CandidateVetoed | Accepted

  function TriggerStatus(d: Direction, v: View, p: Option<real>, rate: real, c: Config): Status {
    var g, candidate := TriggerGuard(c), Opposite(d);
    if !c.vetoes || !c.trigger then Off
    else if MarketVeto(v, d).None? then NoExtremeSetup
    else if !ValidQuote(p, rate, g) then InvalidProbabilityOrPayout
    else
      var verdict := Judge(Plain(p), candidate, rate, g);
      if !verdict.accepted then if verdict.reason.BelowBreakEvenMargin? then BelowQuoteMargin else WithoutEdge
      else if MarketVeto(v, candidate).Some? then CandidateVetoed
      else Accepted
  }

  /** A side the trigger turns to is not vetoed, while the side it leaves is. */
  lemma TriggerLeavesVetoedSide(d: Direction, v: View, p: Option<real>, rate: real, c: Config)
    requires TriggerStatus(d, v, p, rate, c).Accepted?
    ensures MarketVeto(v, d).Some? && MarketVeto(v, Opposite(d)).None?
    ensures HasEdge(p, Opposite(d), rate, TriggerGuard(c)) && HasEdge(p, Opposite(d), rate, FlipGuard(c))
  {
    hide MarketVeto;
  }

  // ---------- Both sides are vetoed alike ----------

  function MirrorSide(d: Option<Direction>): Option<Direction> {
    if d.None? then None else Some(Opposite(d.value))
  }

  function Negated(x: Option<real>): Option<real> {
    if x.None? then None else Some(-x.value)
  }

  function Reflect(k: real, c: Ohlc): Ohlc {
    Ohlc(k - c.open, k - c.low, k - c.high, k - c.close)
  }

  /** The market turned upside down around k. */
  function MirrorView(k: real, v: View): View {
    View(if v.candle.None? then None else Some(Reflect(k, v.candle.value)), MirrorProbability(v.rsi), MirrorProbability(v.bb),
         Negated(v.di), MirrorSide(v.trend), MirrorSide(v.previous))
  }

  function MirrorVeto(v: Option<Veto>): Option<Veto> {
    match v
    case None => None
    case Some(TopRejection) => Some(BottomRejection)
    case Some(BottomRejection) => Some(TopRejection)
    case Some(DownContinuation) => Some(UpContinuation)
    case Some(UpContinuation) => Some(DownContinuation)
  }

  /** The candle keeps positive prices when it is turned upside down, or loses its form both ways. */
  predicate Reflectable(k: real, v: View) {
    v.candle.Some? ==> (WellFormed(v.candle.value) <==> WellFormed(Reflect(k, v.candle.value)))
  }

  lemma CandleMirrors(k: real, c: Ohlc, d: Direction)
    requires WellFormed(c) && WellFormed(Reflect(k, c))
    ensures Wick(Reflect(k, c), Opposite(d)) == Wick(c, d) && Body(Reflect(k, c)) == Body(c)
    ensures ClosedAgainst(Reflect(k, c), Opposite(d)) <==> ClosedAgainst(c, d)
  {
  }

  /** The four vetoes treat the two sides alike: turning the market upside down mirrors the veto of the other side. */
  lemma VetoMirrors(k: real, v: View, d: Direction)
    requires Reflectable(k, v)
    ensures MarketVeto(MirrorView(k, v), Opposite(d)) == MirrorVeto(MarketVeto(v, d))
  {
    if v.candle.Some? && WellFormed(v.candle.value) {
      var c := v.candle.value;
      CandleMirrors(k, c, d);
      hide Wick, Body, ClosedAgainst, WellFormed;
      assert Extreme(MirrorView(k, v), Opposite(d)) <==> Extreme(v, d);
      assert ExhaustionTurn(MirrorView(k, v), Reflect(k, c), Opposite(d)) <==> ExhaustionTurn(v, c, d);
      assert Continuation(MirrorView(k, v), Reflect(k, c), Opposite(d)) <==> Continuation(v, c, d);
    }
  }

  /** So does the trigger. */
  lemma StatusMirrors(k: real, d: Direction, v: View, p: Option<real>, rate: real, c: Config)
    requires Reflectable(k, v)
    ensures TriggerStatus(Opposite(d), MirrorView(k, v), MirrorProbability(p), rate, c) == TriggerStatus(d, v, p, rate, c)
  {
    VetoMirrors(k, v, d);
    VetoMirrors(k, v, Opposite(d));
    JudgeMirrors(p, Opposite(d), rate, TriggerGuard(c));
    hide MarketVeto, Judge, TriggerGuard, MirrorView;
  }
}
