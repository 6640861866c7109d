/** Expected value of a Rise/Fall quote and the test a side must pass before it is executed or flipped to. */
module QuoteGuard {
  import opened Numeric
  import opened Trading

  /** The metrics the guard reads; the last field is the effective probability of the loss classifier. */
  datatype Evidence = Evidence(calibrated: Option<real>, lossFlip: bool, lossProbability: Option<real>)

  datatype Guard = Guard(minEdge: real, margin: real, haircut: real)

  predicate IsProbability(p: real) { 0.0 <= p <= 1.0 }

  function UnitEv(p: real, rate: real): Option<real> {
    if !IsProbability(p) || rate <= 0.0 then None else Some(Times(p, 1.0 + rate) - 1.0)
  }

  function BreakEven(rate: real): Option<real> {
    if rate <= 0.0 then None else Some(1.0 / (1.0 + rate))
  }

  function SideOf(p: real, d: Direction): real {
    if d.CALL? then p else 1.0 - p
  }

  function EffectiveSideProbability(e: Evidence, d: Direction): Option<real> {
    if e.calibrated.None? || !IsProbability(e.calibrated.value) then None
    else
      var side := SideOf(e.calibrated.value, d);
      var p := if e.lossFlip && e.lossProbability.Some? then e.lossProbability.value else side;
      if IsProbability(p) then Some(p) else None
  }

  function QuotedEdge(e: Evidence, d: Direction, rate: real, haircut: real): Option<real> {
    if rate <= 0.0 || !(0.0 <= haircut && haircut < 0.5) then None
    else
      var side := EffectiveSideProbability(e, d);
      if side.None? then None else UnitEv(Max(0.0, side.value - haircut), rate)
  }

  datatype Reason = InsufficientEvidence | EdgeBelowMin | BelowBreakEvenMargin | Ok
  datatype Verdict = Verdict(accepted: bool, edge: Option<real>, reason: Reason)

  function Judge(e: Evidence, d: Direction, rate: real, g: Guard): Verdict {
    var edge := QuotedEdge(e, d, rate, g.haircut);
    if edge.None? then Verdict(false, None, InsufficientEvidence)
    else if edge.value <= g.minEdge then Verdict(false, edge, EdgeBelowMin)
    else
      var side, be := EffectiveSideProbability(e, d), BreakEven(rate);
      if side.Some? && be.Some? && side.value - g.haircut < be.value + g.margin
      then Verdict(false, edge, BelowBreakEvenMargin)
      else Verdict(true, edge, Ok)
  }

  function Plain(p: Option<real>): Evidence { Evidence(p, false, None) }

  /** A flip candidate is judged on the calibrated probability alone. */
  predicate HasEdge(p: Option<real>, d: Direction, rate: real, g: Guard) {
    Judge(Plain(p), d, rate, g).accepted
  }

  // ---------- When both sides pass ----------

  predicate Worth(side: real, rate: real, g: Guard)
    requires rate > 0.0
  {
    && Times(Max(0.0, side - g.haircut), 1.0 + rate) - 1.0 > g.minEdge
    && side - g.haircut >= 1.0 / (1.0 + rate) + g.margin
  }

  predicate Usable(rate: real, g: Guard) {
    rate > 0.0 && 0.0 <= g.haircut < 0.5
  }

  lemma EdgeIsWorth(p: real, d: Direction, rate: real, g: Guard)
    ensures HasEdge(Some(p), d, rate, g) <==> IsProbability(p) && Usable(rate, g) && Worth(SideOf(p, d), rate, g)
  {
    hide Times;
  }

  /** A more probable side is at least as good. */
  lemma WorthGrows(low: real, high: real, rate: real, g: Guard)
    requires rate > 0.0 && low <= high && Worth(low, rate, g)
    ensures Worth(high, rate, g)
  {
    ProductGrows(Max(0.0, low - g.haircut), Max(0.0, high - g.haircut), 1.0 + rate);
  }

  lemma ProductGrows(x: real, y: real, k: real)
    requires x <= y && k > 0.0
    ensures Times(x, k) <= Times(y, k)
  {
    assert (y - x) * k >= 0.0;
  }

  /** An even chance passes on either side. */
  predicate EvenChancePasses(rate: real, g: Guard) {
    Usable(rate, g) && Worth(0.5, rate, g)
  }

  /** Both sides can pass for some probability exactly when an even chance passes. */
  lemma BothSidesPass(rate: real, g: Guard)
    ensures (exists p: real :: HasEdge(Some(p), CALL, rate, g) && HasEdge(Some(p), PUT, rate, g)) <==> EvenChancePasses(rate, g)
  {
    EdgeIsWorth(0.5, CALL, rate, g);
    EdgeIsWorth(0.5, PUT, rate, g);
    forall p: real | HasEdge(Some(p), CALL, rate, g) && HasEdge(Some(p), PUT, rate, g) ensures EvenChancePasses(rate, g) {
      OneSideOrEvenChance(p, rate, g);
    }
    if EvenChancePasses(rate, g) {
      assert HasEdge(Some(0.5), CALL, rate, g) && HasEdge(Some(0.5), PUT, rate, g);
    }
  }

  lemma OneSideOrEvenChance(p: real, rate: real, g: Guard)
    requires HasEdge(Some(p), CALL, rate, g) && HasEdge(Some(p), PUT, rate, g)
    ensures EvenChancePasses(rate, g)
  {
    EdgeIsWorth(p, CALL, rate, g);
    EdgeIsWorth(p, PUT, rate, g);
    WorthGrows(Min(p, 1.0 - p), 0.5, rate, g);
  }

  /** With a payout of at most the stake and a floor that is not negative, at most one side passes. */
  lemma AtMostOneSide(p: Option<real>, rate: real, g: Guard)
    requires rate <= 1.0 && g.minEdge >= 0.0
    ensures !EvenChancePasses(rate, g)
    ensures !(HasEdge(p, CALL, rate, g) && HasEdge(p, PUT, rate, g))
  {
    if Usable(rate, g) {
      ProductGrows(Max(0.0, 0.5 - g.haircut), 0.5, 1.0 + rate);
      assert Times(0.5, 1.0 + rate) <= 1.0;
    }
    if p.Some? && HasEdge(p, CALL, rate, g) && HasEdge(p, PUT, rate, g) {
      OneSideOrEvenChance(p.value, rate, g);
    }
  }

  /**
   Under a loss-classifier flip the calibrated probability only has to be valid: both sides are judged by the
   classifier's probability, so both pass or both fail.
   */
  lemma LossFlipJudgesAlike(q: real, p: real, d: Direction, rate: real, g: Guard)
    ensures var e := Evidence(Some(q), true, Some(p));
            && (Judge(e, d, rate, g).accepted <==> IsProbability(q) && IsProbability(p) && Usable(rate, g) && Worth(p, rate, g))
            && Judge(e, d, rate, g) == Judge(e, Opposite(d), rate, g)
  {
    hide Times;
  }

  /** A passing quote beats the break-even probability by the haircut and the margin, and pays more than the floor. */
  lemma PassingBeatsBreakEven(e: Evidence, d: Direction, rate: real, g: Guard)
    requires Judge(e, d, rate, g).accepted
    ensures rate > 0.0 && EffectiveSideProbability(e, d).Some?
    ensures EffectiveSideProbability(e, d).value >= 1.0 / (1.0 + rate) + g.margin + g.haircut
    ensures g.minEdge >= 0.0 ==> EffectiveSideProbability(e, d).value > 1.0 / (1.0 + rate) + g.haircut
  {
    var side := EffectiveSideProbability(e, d).value;
    if g.minEdge >= 0.0 {
      AboveBreakEven(Max(0.0, side - g.haircut), rate);
    }
  }

  lemma AboveBreakEven(p: real, rate: real)
    requires rate > 0.0 && p >= 0.0 && Times(p, 1.0 + rate) > 1.0
    ensures p > 1.0 / (1.0 + rate) > 0.0
  {
    var be := 1.0 / (1.0 + rate);
    assert be * (1.0 + rate) == 1.0;
    if p <= be {
      ProductGrows(p, be, 1.0 + rate);
    }
  }

  // ---------- Both sides are judged alike ----------

  function MirrorProbability(p: Option<real>): Option<real> {
    if p.None? then None else Some(1.0 - p.value)
  }

  /** Judging a side at p and the other side at 1 - p gives the same verdict. */
  lemma JudgeMirrors(p: Option<real>, d: Direction, rate: real, g: Guard)
    ensures Judge(Plain(MirrorProbability(p)), Opposite(d), rate, g) == Judge(Plain(p), d, rate, g)
  {
    assert EffectiveSideProbability(Plain(MirrorProbability(p)), Opposite(d)) == EffectiveSideProbability(Plain(p), d);
    hide EffectiveSideProbability;
  }

  /** A side without any chance is worth no more than the loss of the stake. */
  lemma HopelessSide(p: real, d: Direction, rate: real, g: Guard)
    requires SideOf(p, d) == 0.0 && g.minEdge >= -1.0
    ensures !HasEdge(Some(p), d, rate, g)
  {
    EdgeIsWorth(p, d, rate, g);
    if Usable(rate, g) {
      assert Times(0.0, 1.0 + rate) == 0.0;
    }
  }
}
