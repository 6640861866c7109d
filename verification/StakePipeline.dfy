/**
 The whole sizing pipeline: from the Kelly base through recovery, turbo, caps, floors and the
 provisional limit. The Kelly fraction and base enter as inputs, so what is proved holds for every
 value that the stages before could produce.
 */
module StakePipeline {
  import opened Numeric
  import opened PendingLoss
  import opened Settlement
  import opened RecoverySizing
  import opened RiskManagement
  import opened Trading

  datatype Kelly = Kelly(
    minPct: real, maxStake: real, maxPct: real, highThreshold: real, maxPctHigh: real,
    weakConvictionCap: real, recoveryMinConviction: real, weakMaxPct: real, stakeMin: real)

  datatype Request = Request(
    bankroll: real, conviction: real, fStar: real, kellyBase: real, quoted: Option<real>,
    stopWin: bool, recoveryAllowed: bool, mandatory: bool)

  datatype Regime = EXPLORE | RECOVER

  datatype Outcome =
    | Refused
    | Placed(stake: real, safeCap: real, m: Option<Metrics>)
  {
    function Stake(): real {
      if Refused? then 0.0 else stake
    }
  }

  // ---------- Stages ----------

  predicate SqueezeFloored(m: Option<Metrics>) {
    m.Some? && m.value.signal.squeezeFloor
  }

  predicate SqueezeSovereign(run: Runtime, m: Option<Metrics>) {
    m.Some? && (m.value.signal.squeezeFloor || Abs(m.value.signal.tradeScore - run.squeezeScore) < 0.000001)
  }

  function NeutralFloored(run: Runtime, kellyBase: real, bankroll: real, m: Option<Metrics>): real {
    if SqueezeFloored(m) then kellyBase else Max(kellyBase, NeutralUnit(run, bankroll))
  }

  function TurboMultiplier(run: Runtime, m: Option<Metrics>): real {
    if m.None? || m.value.signal.squeezeFloor then 1.0
    else
      var sig := m.value.signal;
      if sig.liveCount < run.turboCountMin then 1.0
      else if sig.liveBrier.Some? && sig.liveBrier.value > run.turboBrierMax then 1.0
      else if sig.edgeZscore + 0.000000000001 >= run.turboThreshold then run.turboMultiplier
      else 1.0
  }

  function SafeCapFor(c: Config, s: Session, bankroll: real, m: Option<Metrics>): real {
    if m.Some? && m.value.tel.coverCap then CoverCap(c, bankroll) else MaxSafeCap(c, bankroll, s.linear)
  }

  /** Protects a quarter of the target once half of it has been reached. */
  function ProfitLock(stake: real, s: Session, stakeMin: real): (r: real)
    ensures r <= stake
  {
    var peak, locked := Max(s.peak, s.pnl), s.target * 0.25;
    if s.target <= 0.0 || peak + 0.000000001 < s.target * 0.50 then stake
    else if s.pnl > locked then Min(stake, Max(stakeMin, s.pnl - locked))
    else Min(stake, stakeMin)
  }

  function ClipToMax(k: Kelly, stake: real): (r: real)
    ensures r <= stake && (k.maxStake > 0.0 ==> r <= k.maxStake)
  {
    if k.maxStake > 0.0 then Min(stake, k.maxStake) else stake
  }

  function CapFinal(k: Kelly, c: Config, s: Session, r: Request, stress: bool, stake: real, m: Option<Metrics>): (capped: real)
    ensures capped <= stake && capped <= SafeCapFor(c, s, r.bankroll, m)
  {
    var safeCap := SafeCapFor(c, s, r.bankroll, m);
    var pct := if r.conviction + 0.000000001 >= k.highThreshold then k.maxPctHigh else k.maxPct;
    var capped := if stress then Min(stake, safeCap) else Min(Min(stake, safeCap), Max(0.0, r.bankroll * pct));
    ProfitLock(ClipToMax(k, capped), s, k.stakeMin)
  }

  function WeakExploreCap(k: Kelly, stake: real, bankroll: real, regime: Regime, mandatory: bool, execute: bool): (r: real)
    ensures r <= stake
  {
    if regime != EXPLORE || !mandatory || execute || k.weakMaxPct <= 0.0 then stake
    else Min(stake, Max(0.0, bankroll * k.weakMaxPct))
  }

  function SqueezeStakeFloor(k: Kelly, run: Runtime, stake: real, pending: real, m: Option<Metrics>): real {
    if !SqueezeSovereign(run, m) || pending > 0.0 || m.value.signal.softSizeWaived then stake else k.stakeMin
  }

  function PctCap(stake: real, bankroll: real, pct: Option<real>): (r: real)
    ensures r <= stake
  {
    if pct.None? || pct.value <= 0.0 then stake else Min(stake, Max(0.0, bankroll * pct.value))
  }

  /** The scale, loss-classifier and soft-signal caps; material debt waives all three. */
  function SignalCaps(soft: SoftRecovery, stake: real, bankroll: real, m: Option<Metrics>, pending: real): (r: real)
    ensures r <= stake
  {
    if m.None? || PendingWaives(soft, pending) then stake
    else
      var sig := m.value.signal;
      var scaled := if (sig.scaleDiscordance || sig.scaleAdapted) && sig.scaleMaxPct.Some?
                    then Min(stake, Max(0.0, bankroll * sig.scaleMaxPct.value)) else stake;
      var lossCapped := if sig.lossClfSoft then PctCap(scaled, bankroll, sig.lossClfPct) else scaled;
      if sig.lossClfSoft || sig.softSignal then PctCap(lossCapped, bankroll, sig.softSignalPct) else lossCapped
  }

  /** 1e-12 */
  const BALANCE_SLACK := 0.000000000001

  /** Lifts a stake to the broker's minimum when the entry is wanted, or drops it. */
  function FinalizeWithMin(k: Kelly, stake: real, r: Request, recoveryLinear: bool, mandatory: bool): real {
    if r.bankroll + BALANCE_SLACK < k.stakeMin then 0.0
    else if stake <= 0.0 && !mandatory then 0.0
    else if r.conviction >= 0.50 || recoveryLinear || mandatory then
      if stake < k.stakeMin && r.bankroll >= k.stakeMin then k.stakeMin
      else if stake < k.stakeMin then 0.0
      else stake
    else stake
  }

  /** Lifts a positive stake to the minimum share of the bankroll, and caps it again. */
  function EnforceMinPct(k: Kelly, stake: real, bankroll: real, safeCap: real): real {
    if stake <= 0.0 then 0.0
    else if k.minPct <= 0.0 || bankroll <= 0.0 then ClipToMax(k, stake)
    else
      var lifted := ClipToMax(k, Max(stake, ClipToMax(k, bankroll * k.minPct)));
      ClipToMax(k, if safeCap > 0.0 then Min(lifted, safeCap) else lifted)
  }

  predicate Provisional(m: Option<Metrics>) {
    m.Some? && m.value.signal.provisional
  }

  function CapProvisional(stake: real, bankroll: real, m: Option<Metrics>, safeCap: real): real {
    if !Provisional(m) then stake
    else
      var pct := Min(0.01, Max(0.0, m.value.signal.provisionalPct));
      var capped := Min(stake, bankroll * pct);
      if safeCap > 0.0 then Min(capped, safeCap) else capped
  }

  /** The last two stages, which every path passes through. */
  function LastStages(k: Kelly, stake: real, bankroll: real, m: Option<Metrics>, safeCap: real): real {
    CapProvisional(EnforceMinPct(k, stake, bankroll, safeCap), bankroll, m, safeCap)
  }

  // ---------- The pipeline ----------

  function ClearedSession(c: Config, s: Session): Session {
    if 0.0 < s.pending <= c.params.dustMax then s.(pending := 0.0, linear := 0) else s
  }

  function InitialRegime(c: Config, s: Session, m: Option<Metrics>): Regime {
    if m.Some? && m.value.signal.scaleForceExplore && !PendingWaives(c.soft, s.pending) then EXPLORE
    else if s.pending > 0.0 || s.linear >= 1 then RECOVER
    else EXPLORE
  }

  predicate Vetoed(r: Request, m: Option<Metrics>) {
    && m.Some?
    && (m.value.signal.skipped || m.value.signal.notReady
        || (m.value.signal.softVeto && m.value.signal.seniorConviction < 0.56 && !r.mandatory))
  }

  predicate MandatoryBlocked(k: Kelly, r: Request, regime: Regime) {
    regime == RECOVER && !r.recoveryAllowed && r.conviction + 0.000000001 < Min(k.weakConvictionCap, k.recoveryMinConviction)
  }

  predicate Stressed(c: Config, s: Session, m: Option<Metrics>) {
    (s.pending != 0.0 || s.linear > 0) && !SqueezeSovereign(c.run, m)
  }

  function Pipeline(k: Kelly, c: Config, session: Session, r: Request, m: Option<Metrics>): Outcome
    requires ContractPayout(r.quoted, c.params) > 0.0
  {
    SizeCleared(k, c, ClearedSession(c, session), r, m)
  }

  /** The pipeline once dust has been cleared. */
  function SizeCleared(k: Kelly, c: Config, s: Session, r: Request, m: Option<Metrics>): Outcome
    requires ContractPayout(r.quoted, c.params) > 0.0
  {
    var regime := InitialRegime(c, s, m);
    var blocked := MandatoryBlocked(k, r, regime);
    if r.stopWin || Vetoed(r, m) || (blocked && s.pending <= 0.0) then Refused
    else
      var stress := Stressed(c, s, m);
      var base := NeutralFloored(c.run, r.kellyBase, r.bankroll, m);
      var choice := DlambertStake(c, s, r.bankroll, base, r.fStar, stress, m, r.quoted);
      AfterChoice(k, c, s, r, regime, blocked, stress, choice)
  }

  /** Everything after the choice between Kelly and recovery. */
  function AfterChoice(k: Kelly, c: Config, s: Session, r: Request, regime: Regime, blocked: bool, stress: bool, choice: Choice): Outcome {
    var m := choice.m;
    var regime' := if m.Some? && m.value.tel.forceExplore then EXPLORE else regime;
    var mandatory := r.mandatory && !blocked;
    var execute := m.None? || m.value.signal.execute;
    var capped := CapFinal(k, c, s, r, stress, Times(choice.stake, TurboMultiplier(c.run, m)), m);
    var explored := WeakExploreCap(k, capped, r.bankroll, regime', mandatory, execute);
    if choice.mode == DALEMBERT && explored <= k.stakeMin && !mandatory then Refused
    else
      var floored := SqueezeStakeFloor(k, c.run, explored, s.pending, m);
      var limited := SignalCaps(c.soft, floored, r.bankroll, m, s.pending);
      var final := FinalizeWithMin(k, limited, r, stress && !blocked && limited > 0.0, mandatory);
      var safeCap := SafeCapFor(c, s, r.bankroll, m);
      Placed(LastStages(k, final, r.bankroll, m, safeCap), safeCap, m)
  }

  // ---------- Bounds ----------

  /** The safe cap is a share of the bankroll everywhere outside the micro-account tail. */
  lemma SafeCapShare(c: Config, s: Session, bankroll: real, m: Option<Metrics>)
    requires bankroll >= 0.0
    ensures (m.Some? && m.value.tel.coverCap) || !MicroTail(c, bankroll, s.linear) ==>
              SafeCapFor(c, s, bankroll, m) <= bankroll * SafePct(c.soft)
  {
    ScaleUp(LinearPct(c.soft, MaxInt(0, s.linear)), SafePct(c.soft), bankroll);
  }

  lemma LastStagesBound(k: Kelly, stake: real, bankroll: real, m: Option<Metrics>, safeCap: real)
    requires bankroll > 0.0
    ensures var final := LastStages(k, stake, bankroll, m, safeCap);
            && final >= 0.0
            && (k.maxStake > 0.0 ==> final <= k.maxStake)
            && (k.minPct > 0.0 && safeCap > 0.0 ==> final <= safeCap)
  {
    if k.minPct > 0.0 {
      NonNegativeTimes(bankroll, k.minPct);
    }
    var e := EnforceMinPct(k, stake, bankroll, safeCap);
    assert e >= 0.0 && (k.maxStake > 0.0 ==> e <= k.maxStake);
    if Provisional(m) {
      NonNegativeTimes(bankroll, Min(0.01, Max(0.0, m.value.signal.provisionalPct)));
    }
  }

  /**
   The end-to-end bound: whatever the Kelly fraction, the metrics and the session, the stake lies
   between zero and the safe cap, never above the absolute maximum, and outside the micro-account
   tail never above the configured share of the bankroll.
   */
  lemma StakeBound(k: Kelly, c: Config, session: Session, r: Request, m: Option<Metrics>)
    requires ContractPayout(r.quoted, c.params) > 0.0 && r.bankroll > 0.0 && k.minPct > 0.0
    ensures var outcome := Pipeline(k, c, session, r, m);
            && outcome.Stake() >= 0.0
            && (k.maxStake > 0.0 ==> outcome.Stake() <= k.maxStake)
            && (outcome.Placed? && outcome.safeCap > 0.0 ==> outcome.stake <= outcome.safeCap)
            && (outcome.Placed? && outcome.safeCap > 0.0
                && ((outcome.m.Some? && outcome.m.value.tel.coverCap)
                    || !MicroTail(c, r.bankroll, ClearedSession(c, session).linear)) ==>
                  outcome.stake <= r.bankroll * SafePct(c.soft))
  {
    var s := ClearedSession(c, session);
    hide DlambertStake, LastStages, SafeCapFor, CapFinal, FinalizeWithMin, SignalCaps, MicroTail, ContractPayout, Stressed, MandatoryBlocked, Vetoed, ClearedSession, InitialRegime, NeutralFloored, WeakExploreCap, SqueezeStakeFloor, TurboMultiplier, SafePct;
    var outcome := Pipeline(k, c, session, r, m);
    if outcome.Placed? {
      var final := PlacedBy(k, c, session, r, m);
      LastStagesBound(k, final, r.bankroll, outcome.m, outcome.safeCap);
      SafeCapShare(c, s, r.bankroll, outcome.m);
    }
  }

  /** Every placed stake has been through the last stages with the safe cap of its own metrics. */
  lemma PlacedBy(k: Kelly, c: Config, session: Session, r: Request, m: Option<Metrics>) returns (final: real)
    requires ContractPayout(r.quoted, c.params) > 0.0 && Pipeline(k, c, session, r, m).Placed?
    ensures var outcome := Pipeline(k, c, session, r, m);
            && outcome.safeCap == SafeCapFor(c, ClearedSession(c, session), r.bankroll, outcome.m)
            && outcome.stake == LastStages(k, final, r.bankroll, outcome.m, outcome.safeCap)
            && final <= Max(Max(0.0, outcome.safeCap), k.stakeMin)
            && (m.None? <==> outcome.m.None?) && (m.Some? ==> outcome.m.value.signal == m.value.signal)
            && (m.Some? ==> (outcome.m.value.tel.coverCap <==>
                             m.value.tel.coverCap || EntersCoverMode(c, ClearedSession(c, session), r.fStar, m)))
  {
    hide DlambertStake, LastStages, SafeCapFor, CapFinal, FinalizeWithMin, SignalCaps, ContractPayout, Stressed, MandatoryBlocked, Vetoed, ClearedSession, InitialRegime, NeutralFloored, WeakExploreCap, SqueezeStakeFloor, TurboMultiplier, EntersCoverMode;
    var s := ClearedSession(c, session);
    var regime := InitialRegime(c, s, m);
    var blocked, stress := MandatoryBlocked(k, r, regime), Stressed(c, s, m);
    var choice := DlambertStake(c, s, r.bankroll, NeutralFloored(c.run, r.kellyBase, r.bankroll, m), r.fStar, stress, m, r.quoted);
    var mandatory := r.mandatory && !blocked;
    var regime' := if choice.m.Some? && choice.m.value.tel.forceExplore then EXPLORE else regime;
    var capped := CapFinal(k, c, s, r, stress, Times(choice.stake, TurboMultiplier(c.run, choice.m)), choice.m);
    var explored := WeakExploreCap(k, capped, r.bankroll, regime', mandatory, choice.m.None? || choice.m.value.signal.execute);
    var limited := SignalCaps(c.soft, SqueezeStakeFloor(k, c.run, explored, s.pending, choice.m), r.bankroll, choice.m, s.pending);
    final := FinalizeWithMin(k, limited, r, stress && !blocked && limited > 0.0, mandatory);
    LiftedAtMost(k, c.run, explored, s.pending, choice.m, limited, r, stress && !blocked && limited > 0.0, mandatory);
    DlambertKeepsSignal(c, s, r.bankroll, NeutralFloored(c.run, r.kellyBase, r.bankroll, m), r.fStar, stress, m, r.quoted);
    DlambertCapMode(c, s, r.bankroll, NeutralFloored(c.run, r.kellyBase, r.bankroll, m), r.fStar, m, r.quoted);
  }

  // ---------- Which cap applies ----------

  /** This sizing covers the debt with a single win, and writes so into its metrics. */
  predicate EntersCoverMode(c: Config, s: Session, fStar: real, m: Option<Metrics>) {
    && m.Some? && !(ScaleBlocks(m) && !PendingWaives(c.soft, s.pending))
    && (Stressed(c, s, m) || s.pending > 0.0 || s.linear > 0) && c.soft.enabled && fStar > 0.0
    && Covers(c, s) && AmortCycles(c.soft, MaxInt(0, s.linear)) == 1
  }

  lemma DlambertCapMode(c: Config, s: Session, bankroll: real, kellyBase: real, fStar: real, m: Option<Metrics>, quoted: Option<real>)
    requires ContractPayout(quoted, c.params) > 0.0
    ensures var m' := DlambertStake(c, s, bankroll, kellyBase, fStar, Stressed(c, s, m), m, quoted).m;
            m.Some? ==> m'.Some? && (m'.value.tel.coverCap <==> m.value.tel.coverCap || EntersCoverMode(c, s, fStar, m))
  {
    if m.Some? {
      var payout := ContractPayout(quoted, c.params);
      if Covers(c, s) {
        CoveredRecord(c, s, bankroll, m, payout);
      } else {
        ExploredStake(c, s, bankroll, m, payout);
      }
      hide SoftRecoveryStake, MaxSafeCap, NeutralUnit, AmortCycles, ContractPayout, Covers, Stressed, PendingWaives, ScaleBlocks;
    }
  }

  /** The cap of a sizing from its inputs: that of a single win when it covers with one or the record says so. */
  function CapInForce(c: Config, s: Session, bankroll: real, fStar: real, m: Option<Metrics>): real {
    if EntersCoverMode(c, s, fStar, m) then CoverCap(c, bankroll) else SafeCapFor(c, s, bankroll, m)
  }

  lemma OutcomeCap(k: Kelly, c: Config, session: Session, r: Request, m: Option<Metrics>)
    requires ContractPayout(r.quoted, c.params) > 0.0
    ensures var outcome := Pipeline(k, c, session, r, m);
            outcome.Placed? ==> outcome.safeCap == CapInForce(c, ClearedSession(c, session), r.bankroll, r.fStar, m)
  {
    if Pipeline(k, c, session, r, m).Placed? {
      var _ := PlacedBy(k, c, session, r, m);
      assert m.None? ==> !EntersCoverMode(c, ClearedSession(c, session), r.fStar, m);
      hide Pipeline, CoverCap, MaxSafeCap, ContractPayout, ClearedSession, EntersCoverMode;
    }
  }

  function WithCapMode(m: Metrics, coverCap: bool): Option<Metrics> {
    Some(m.(tel := m.tel.(coverCap := coverCap)))
  }

  /**
   A cap mode left in the metrics by an earlier sizing leaves the cap of a later one as a fresh record would give it
   exactly when the later sizing enters the mode itself, or the two caps are the same amount anyway.
   */
  lemma LeftoverCapMode(k: Kelly, c: Config, session: Session, r: Request, m: Metrics)
    requires ContractPayout(r.quoted, c.params) > 0.0
    ensures var left, clean := Pipeline(k, c, session, r, WithCapMode(m, true)), Pipeline(k, c, session, r, WithCapMode(m, false));
            var s := ClearedSession(c, session);
            left.Placed? && clean.Placed? ==>
              (left.safeCap == clean.safeCap <==>
               EntersCoverMode(c, s, r.fStar, Some(m)) || CoverCap(c, r.bankroll) == MaxSafeCap(c, r.bankroll, s.linear))
  {
    var s := ClearedSession(c, session);
    OutcomeCap(k, c, session, r, WithCapMode(m, true));
    OutcomeCap(k, c, session, r, WithCapMode(m, false));
    assert EntersCoverMode(c, s, r.fStar, WithCapMode(m, true)) == EntersCoverMode(c, s, r.fStar, Some(m));
    assert EntersCoverMode(c, s, r.fStar, WithCapMode(m, false)) == EntersCoverMode(c, s, r.fStar, Some(m));
    hide Pipeline, CoverCap, MaxSafeCap, ContractPayout, ClearedSession, EntersCoverMode;
  }

  /** The lifts on the way never raise a stake above the broker's minimum. */
  lemma LiftedAtMost(k: Kelly, run: Runtime, explored: real, pending: real, m: Option<Metrics>, limited: real, r: Request,
                     recoveryLinear: bool, mandatory: bool)
    requires limited <= SqueezeStakeFloor(k, run, explored, pending, m)
    ensures FinalizeWithMin(k, limited, r, recoveryLinear, mandatory) <= Max(Max(0.0, explored), k.stakeMin)
  {
  }

  /** What has to hold of the settings and the signal for the safe cap to survive the lift to the broker's minimum. */
  predicate CapGuard(k: Kelly, m: Option<Metrics>, safeCap: real) {
    k.minPct > 0.0 || Provisional(m) || k.stakeMin <= safeCap || 0.0 < k.maxStake <= safeCap
  }

  /** Under the guard no request, session or record makes the pipeline exceed its positive safe cap. */
  lemma CapIsKept(k: Kelly, c: Config, session: Session, r: Request, m: Option<Metrics>)
    requires ContractPayout(r.quoted, c.params) > 0.0 && r.bankroll > 0.0
    ensures var outcome := Pipeline(k, c, session, r, m);
            outcome.Placed? && outcome.safeCap > 0.0 && CapGuard(k, m, outcome.safeCap) ==> outcome.stake <= outcome.safeCap
  {
    var outcome := Pipeline(k, c, session, r, m);
    if outcome.Placed? {
      var final := PlacedBy(k, c, session, r, m);
      hide Pipeline, SafeCapFor, ContractPayout, ClearedSession;
      LastStagesBound(k, final, r.bankroll, outcome.m, outcome.safeCap);
    }
  }

  /** A wanted entry with the given Kelly fraction and no Kelly base. */
  function Wanted(bankroll: real, fStar: real): Request {
    Request(bankroll, 1.0, fStar, 0.0, Some(1.0), false, true, true)
  }

  predicate NotSkipped(m: Option<Metrics>) {
    m.Some? ==> !m.value.signal.skipped && !m.value.signal.notReady
  }

  /** A wanted entry is always placed; where the guard fails, at the broker's minimum above the cap. */
  lemma CapIsBroken(k: Kelly, c: Config, session: Session, bankroll: real, fStar: real, m: Option<Metrics>)
    requires 0.0 < k.stakeMin <= bankroll && NotSkipped(m)
    ensures ContractPayout(Wanted(bankroll, fStar).quoted, c.params) > 0.0
    ensures var cap := CapInForce(c, ClearedSession(c, session), bankroll, fStar, m);
            var outcome := Pipeline(k, c, session, Wanted(bankroll, fStar), m);
            && outcome.Placed? && outcome.safeCap == cap
            && (cap > 0.0 && !CapGuard(k, m, cap) ==> outcome.stake == ClipToMax(k, k.stakeMin) > cap)
  {
    var r, s := Wanted(bankroll, fStar), ClearedSession(c, session);
    var regime, stress := InitialRegime(c, s, m), Stressed(c, s, m);
    var base := NeutralFloored(c.run, r.kellyBase, bankroll, m);
    assert ContractPayout(r.quoted, c.params) > 0.0;
    var choice := DlambertStake(c, s, bankroll, base, fStar, stress, m, r.quoted);
    assert !MandatoryBlocked(k, r, regime) && !Vetoed(r, m);
    DlambertKeepsSignal(c, s, bankroll, base, fStar, stress, m, r.quoted);
    hide DlambertStake, InitialRegime, Stressed, NeutralFloored, MandatoryBlocked, Vetoed, ClearedSession, ContractPayout;
    assert Pipeline(k, c, session, r, m) == AfterChoice(k, c, s, r, regime, false, stress, choice);
    OutcomeCap(k, c, session, r, m);
    SameGuard(k, m, choice.m);
    hide Pipeline, CapInForce, CapGuard;
    LiftedAboveCap(k, c, s, r, regime, stress, choice);
  }

  lemma SameGuard(k: Kelly, m: Option<Metrics>, m': Option<Metrics>)
    requires (m.None? <==> m'.None?) && (m.Some? ==> m'.value.signal == m.value.signal)
    ensures forall cap: real :: CapGuard(k, m', cap) == CapGuard(k, m, cap)
  {
  }

  lemma LiftedAboveCap(k: Kelly, c: Config, s: Session, r: Request, regime: Regime, stress: bool, choice: Choice)
    requires r.mandatory && 0.0 < k.stakeMin <= r.bankroll
    ensures var outcome := AfterChoice(k, c, s, r, regime, false, stress, choice);
            var cap := SafeCapFor(c, s, r.bankroll, choice.m);
            && outcome.Placed? && outcome.safeCap == cap
            && (cap > 0.0 && !CapGuard(k, choice.m, cap) ==> outcome.stake == ClipToMax(k, k.stakeMin) > cap)
  {
    var m, cap := choice.m, SafeCapFor(c, s, r.bankroll, choice.m);
    var regime' := if m.Some? && m.value.tel.forceExplore then EXPLORE else regime;
    var capped := CapFinal(k, c, s, r, stress, Times(choice.stake, TurboMultiplier(c.run, m)), m);
    var explored := WeakExploreCap(k, capped, r.bankroll, regime', true, m.None? || m.value.signal.execute);
    var floored := SqueezeStakeFloor(k, c.run, explored, s.pending, m);
    var limited := SignalCaps(c.soft, floored, r.bankroll, m, s.pending);
    if cap > 0.0 && !CapGuard(k, m, cap) {
      assert limited <= k.stakeMin;
      assert FinalizeWithMin(k, limited, r, stress && limited > 0.0, true) == k.stakeMin;
      assert LastStages(k, k.stakeMin, r.bankroll, m, cap) == ClipToMax(k, k.stakeMin) > cap;
    }
    hide CapFinal, WeakExploreCap, SqueezeStakeFloor, SignalCaps, SafeCapFor, FinalizeWithMin, LastStages, CapGuard, TurboMultiplier, Times;
  }

  predicate RespectsCap(k: Kelly, c: Config, session: Session, r: Request, m: Option<Metrics>) {
    ContractPayout(r.quoted, c.params) > 0.0 ==>
      var outcome := Pipeline(k, c, session, r, m);
      outcome.Placed? && outcome.safeCap > 0.0 ==> outcome.stake <= outcome.safeCap
  }

  /** The cap is not positive, or leaves room for the lift. */
  predicate CapFits(k: Kelly, m: Option<Metrics>, cap: real) {
    cap <= 0.0 || CapGuard(k, m, cap)
  }

  /**
   With any metrics that are not skipped, or with none, on an account that holds the minimum, every request respects the
   safe cap exactly when the cap in force fits without a Kelly fraction and with one.
   */
  lemma CapIsExact(k: Kelly, c: Config, session: Session, bankroll: real, m: Option<Metrics>)
    requires 0.0 < k.stakeMin <= bankroll && NotSkipped(m)
    ensures (forall r: Request :: r.bankroll == bankroll ==> RespectsCap(k, c, session, r, m))
       <==> && CapFits(k, m, CapInForce(c, ClearedSession(c, session), bankroll, 0.0, m))
            && CapFits(k, m, CapInForce(c, ClearedSession(c, session), bankroll, 1.0, m))
  {
    var s := ClearedSession(c, session);
    if CapFits(k, m, CapInForce(c, s, bankroll, 0.0, m)) && CapFits(k, m, CapInForce(c, s, bankroll, 1.0, m)) {
      forall r: Request | r.bankroll == bankroll ensures RespectsCap(k, c, session, r, m) {
        FractionDecides(c, s, bankroll, r.fStar, m);
        FittingRequest(k, c, session, r, m);
      }
    } else {
      UnfittingRequest(k, c, session, bankroll, 0.0, m);
      UnfittingRequest(k, c, session, bankroll, 1.0, m);
      hide RespectsCap, CapFits, CapInForce, ClearedSession;
      assert !RespectsCap(k, c, session, Wanted(bankroll, 0.0), m) || !RespectsCap(k, c, session, Wanted(bankroll, 1.0), m);
      assert Wanted(bankroll, 0.0).bankroll == bankroll && Wanted(bankroll, 1.0).bankroll == bankroll;
    }
  }

  /** Only the sign of the Kelly fraction matters for the cap. */
  lemma FractionDecides(c: Config, s: Session, bankroll: real, fStar: real, m: Option<Metrics>)
    ensures CapInForce(c, s, bankroll, fStar, m) == CapInForce(c, s, bankroll, if fStar > 0.0 then 1.0 else 0.0, m)
  {
    hide Covers, Stressed, SafeCapFor, CoverCap;
  }

  lemma FittingRequest(k: Kelly, c: Config, session: Session, r: Request, m: Option<Metrics>)
    requires r.bankroll > 0.0 && CapFits(k, m, CapInForce(c, ClearedSession(c, session), r.bankroll, r.fStar, m))
    ensures RespectsCap(k, c, session, r, m)
  {
    if ContractPayout(r.quoted, c.params) > 0.0 {
      CapIsKept(k, c, session, r, m);
      OutcomeCap(k, c, session, r, m);
      hide Pipeline, CapInForce, ContractPayout, ClearedSession, CapGuard;
    }
  }

  lemma UnfittingRequest(k: Kelly, c: Config, session: Session, bankroll: real, fStar: real, m: Option<Metrics>)
    requires 0.0 < k.stakeMin <= bankroll && NotSkipped(m)
    ensures !CapFits(k, m, CapInForce(c, ClearedSession(c, session), bankroll, fStar, m)) ==>
              !RespectsCap(k, c, session, Wanted(bankroll, fStar), m)
  {
    CapIsBroken(k, c, session, bankroll, fStar, m);
    hide Pipeline, CapInForce, ContractPayout, ClearedSession, CapGuard;
  }

  /** Settings of a small account without a minimum share: a safe share of 3.5% and a minimum stake of 1. */
  const SMALL_ACCOUNT := Config(
    SoftRecovery(true, 1, 3, 0.0, 0.035, 0.035, 0.03, 0.02, 0.0, 0.05, 0.5, true, 1.0, 0.9, true, true, 2, 2, 8, 0.45),
    Runtime(100.0, 4, 4.2, 100.0, 0.01, 0.01, 0.5, 0.5, 10, 0.25, 1.0, 1.1, 0.33),
    Params(None, None, None, 0.85, 0.05))

  const NO_MINIMUM_SHARE := Kelly(0.0, 0.0, 0.05, 0.7, 0.08, 0.55, 0.50, 0.02, 1.0)

  /** A signal without any of the flags that sizing reacts to. */
  const PLAIN_SIGNAL := Signal(
    false, false, false, 0.6, true, false, false, false, None, false, 0.5, false,
    None, false, 0, None, None, 0.0, false, None, None, false, None, false, None, false, 0.0)

  function PlainMetrics(coverCap: bool): Metrics { Metrics(PLAIN_SIGNAL, Telemetry(coverCap, false, false)) }

  /** On a balance of 20 the cap is 0.70, and a wanted entry is placed at the broker's minimum of 1. */
  lemma MinimumStakeOverridesCap()
    ensures ContractPayout(Wanted(20.0, 0.0).quoted, SMALL_ACCOUNT.params) > 0.0
    ensures var outcome := Pipeline(NO_MINIMUM_SHARE, SMALL_ACCOUNT, Session(0, 0.0, 0.0, 0.0, 0.0), Wanted(20.0, 0.0), Some(PlainMetrics(false)));
            outcome.Placed? && outcome.stake == 1.0 && outcome.safeCap == 0.70
  {
    var session, m := Session(0, 0.0, 0.0, 0.0, 0.0), Some(PlainMetrics(false));
    assert ClearedSession(SMALL_ACCOUNT, session) == session;
    assert CapInForce(SMALL_ACCOUNT, session, 20.0, 0.0, m) == 0.70;
    assert !CapGuard(NO_MINIMUM_SHARE, m, 0.70) && ClipToMax(NO_MINIMUM_SHARE, 1.0) == 1.0;
    CapIsBroken(NO_MINIMUM_SHARE, SMALL_ACCOUNT, session, 20.0, 0.0, m);
    hide Pipeline, CapInForce, ContractPayout, ClearedSession, CapGuard;
  }

  /** After three losses on a balance of 200 the cap is 4.00 on a fresh record, and 7.00 on one with a leftover cap mode. */
  lemma LeftoverCapIsHigher()
    ensures ContractPayout(Wanted(200.0, 0.0).quoted, SMALL_ACCOUNT.params) > 0.0
    ensures var session := Session(3, 0.0, 0.0, 0.0, 0.0);
            var left := Pipeline(NO_MINIMUM_SHARE, SMALL_ACCOUNT, session, Wanted(200.0, 0.0), Some(PlainMetrics(true)));
            var clean := Pipeline(NO_MINIMUM_SHARE, SMALL_ACCOUNT, session, Wanted(200.0, 0.0), Some(PlainMetrics(false)));
            left.Placed? && clean.Placed? && left.safeCap == 7.0 && clean.safeCap == 4.0
  {
    var session := Session(3, 0.0, 0.0, 0.0, 0.0);
    assert ClearedSession(SMALL_ACCOUNT, session) == session;
    assert CapInForce(SMALL_ACCOUNT, session, 200.0, 0.0, Some(PlainMetrics(true))) == 7.0;
    assert CapInForce(SMALL_ACCOUNT, session, 200.0, 0.0, Some(PlainMetrics(false))) == 4.0;
    CapIsBroken(NO_MINIMUM_SHARE, SMALL_ACCOUNT, session, 200.0, 0.0, Some(PlainMetrics(true)));
    CapIsBroken(NO_MINIMUM_SHARE, SMALL_ACCOUNT, session, 200.0, 0.0, Some(PlainMetrics(false)));
    hide Pipeline, CapInForce, ContractPayout, ClearedSession, CapGuard;
  }

  // ---------- Winning back the debt ----------

  /** The profit lock is not armed, or leaves at least the cover. */
  predicate LockSpares(k: Kelly, s: Session, cover: real) {
    var locked := s.target * 0.25;
    || s.target <= 0.0
    || Max(s.peak, s.pnl) + 0.000000001 < s.target * 0.50
    || cover <= if s.pnl > locked then Max(k.stakeMin, s.pnl - locked) else k.stakeMin
  }

  /** Settings and signal under which nothing after the recovery stake cuts into it. */
  predicate NothingCuts(k: Kelly, c: Config, s: Session, r: Request, m: Option<Metrics>, cover: real) {
    && m.Some? && !r.stopWin && !Vetoed(r, m) && !SqueezeSovereign(c.run, m) && !Provisional(m)
    && c.run.turboMultiplier >= 1.0 && c.soft.pendingWaives
    && (k.maxStake <= 0.0 || k.maxStake >= cover) && LockSpares(k, s, cover)
    && CapGuard(k, m, CoverCap(c, r.bankroll)) && 0.0 < k.stakeMin <= r.bankroll
    && (cover > k.stakeMin || (r.mandatory && !MandatoryBlocked(k, r, RECOVER)))
  }

  /** The stages after the choice keep at least the cover. */
  lemma StagesKeepCover(k: Kelly, c: Config, s: Session, r: Request, blocked: bool, choice: Choice, cover: real)
    requires NothingCuts(k, c, s, r, choice.m, cover) && s.pending > 0.0 && IsMaterial(c.soft, s.pending)
    requires choice.mode == DALEMBERT && choice.stake >= cover > 0.0
    requires choice.m.value.tel == Telemetry(true, false, false) && CoverCap(c, r.bankroll) > cover
    requires blocked == MandatoryBlocked(k, r, RECOVER)
    ensures var outcome := AfterChoice(k, c, s, r, RECOVER, blocked, true, choice);
            outcome.Placed? && outcome.stake >= cover && outcome.safeCap == CoverCap(c, r.bankroll)
  {
    hide *;
    var m, safeCap := choice.m, SafeCapFor(c, s, r.bankroll, choice.m);
    var capped := CapFinal(k, c, s, r, true, Times(choice.stake, TurboMultiplier(c.run, m)), m);
    var mandatory := r.mandatory && !blocked;
    KeepFacts(k, c, s, r, m, cover);
    CapKeepsCover(k, c, s, r, choice, cover);
    MiddleKeepsCover(k, c, s, r, m, capped, mandatory, m.value.signal.execute, cover);
    var recoveryLinear := !blocked && capped > 0.0;
    var final := FinalizeWithMin(k, capped, r, recoveryLinear, mandatory);
    EndKeepsCover(k, r, m, capped, recoveryLinear, mandatory, safeCap, cover);
    AfterChoiceForm(k, c, s, r, blocked, choice, capped, final);
  }

  lemma KeepFacts(k: Kelly, c: Config, s: Session, r: Request, m: Option<Metrics>, cover: real)
    requires NothingCuts(k, c, s, r, m, cover)
    ensures m.Some? && !Provisional(m) && (k.maxStake <= 0.0 || k.maxStake >= cover) && 0.0 < k.stakeMin <= r.bankroll
    ensures cover > k.stakeMin || (r.mandatory && !MandatoryBlocked(k, r, RECOVER))
  {
    hide MandatoryBlocked, SqueezeSovereign, Vetoed;
  }

  /** The stages after the choice, when the middle ones change nothing. */
  lemma AfterChoiceForm(k: Kelly, c: Config, s: Session, r: Request, blocked: bool, choice: Choice, capped: real, final: real)
    requires choice.mode == DALEMBERT && choice.m.Some? && !choice.m.value.tel.forceExplore
    requires capped == CapFinal(k, c, s, r, true, Times(choice.stake, TurboMultiplier(c.run, choice.m)), choice.m)
    requires var mandatory := r.mandatory && !blocked;
             && WeakExploreCap(k, capped, r.bankroll, RECOVER, mandatory, choice.m.value.signal.execute) == capped
             && SqueezeStakeFloor(k, c.run, capped, s.pending, choice.m) == capped
             && SignalCaps(c.soft, capped, r.bankroll, choice.m, s.pending) == capped
             && (capped > k.stakeMin || mandatory)
             && final == FinalizeWithMin(k, capped, r, !blocked && capped > 0.0, mandatory)
    ensures var safeCap := SafeCapFor(c, s, r.bankroll, choice.m);
            AfterChoice(k, c, s, r, RECOVER, blocked, true, choice) ==
            Placed(LastStages(k, final, r.bankroll, choice.m, safeCap), safeCap, choice.m)
  {
    hide CapFinal, TurboMultiplier, SqueezeStakeFloor, SignalCaps, LastStages, SafeCapFor;
  }

  lemma CapKeepsCover(k: Kelly, c: Config, s: Session, r: Request, choice: Choice, cover: real)
    requires NothingCuts(k, c, s, r, choice.m, cover)
    requires choice.stake >= cover > 0.0 && choice.m.value.tel.coverCap && CoverCap(c, r.bankroll) > cover
    ensures CapFinal(k, c, s, r, true, Times(choice.stake, TurboMultiplier(c.run, choice.m)), choice.m) >= cover
    ensures SafeCapFor(c, s, r.bankroll, choice.m) == CoverCap(c, r.bankroll)
  {
    hide *;
    var multiplier := TurboMultiplier(c.run, choice.m);
    TurboAtLeastOne(k, c, s, r, choice.m, cover);
    KeepFacts(k, c, s, r, choice.m, cover);
    TurboLifts(choice.stake, multiplier);
    CoverCapApplies(c, s, r.bankroll, choice.m);
    CapFinalAtLeast(k, c, s, r, Times(choice.stake, multiplier), choice.m, cover);
  }

  lemma TurboLifts(stake: real, multiplier: real)
    requires stake > 0.0 && multiplier >= 1.0
    ensures Times(stake, multiplier) >= stake
  {
    MultipleAtLeast(stake, multiplier);
  }

  lemma TurboAtLeastOne(k: Kelly, c: Config, s: Session, r: Request, m: Option<Metrics>, cover: real)
    requires NothingCuts(k, c, s, r, m, cover)
    ensures TurboMultiplier(c.run, m) >= 1.0 && LockSpares(k, s, cover)
  {
    hide MandatoryBlocked, SqueezeSovereign, Vetoed;
  }

  lemma CoverCapApplies(c: Config, s: Session, bankroll: real, m: Option<Metrics>)
    requires m.Some? && m.value.tel.coverCap
    ensures SafeCapFor(c, s, bankroll, m) == CoverCap(c, bankroll)
  {
  }

  lemma CapFinalAtLeast(k: Kelly, c: Config, s: Session, r: Request, stake: real, m: Option<Metrics>, cover: real)
    requires stake >= cover && SafeCapFor(c, s, r.bankroll, m) > cover && LockSpares(k, s, cover)
    requires k.maxStake <= 0.0 || k.maxStake >= cover
    ensures CapFinal(k, c, s, r, true, stake, m) >= cover
  {
    hide SafeCapFor;
  }

  /** Material debt passes through the exploration cap, the squeeze floor and the signal caps unchanged. */
  lemma MiddleKeepsCover(k: Kelly, c: Config, s: Session, r: Request, m: Option<Metrics>, stake: real, mandatory: bool, execute: bool, cover: real)
    requires NothingCuts(k, c, s, r, m, cover) && s.pending > 0.0 && IsMaterial(c.soft, s.pending)
    ensures WeakExploreCap(k, stake, r.bankroll, RECOVER, mandatory, execute) == stake
    ensures SqueezeStakeFloor(k, c.run, stake, s.pending, m) == stake
    ensures SignalCaps(c.soft, stake, r.bankroll, m, s.pending) == stake
  {
    hide SqueezeSovereign, Vetoed, MandatoryBlocked, IsMaterial;
  }

  lemma EndKeepsCover(k: Kelly, r: Request, m: Option<Metrics>, stake: real, recoveryLinear: bool, mandatory: bool, safeCap: real, cover: real)
    requires stake >= cover > 0.0 && safeCap > cover && 0.0 < k.stakeMin <= r.bankroll
    requires !Provisional(m) && (k.maxStake <= 0.0 || k.maxStake >= cover)
    ensures LastStages(k, FinalizeWithMin(k, stake, r, recoveryLinear, mandatory), r.bankroll, m, safeCap) >= cover
  {
    var final := FinalizeWithMin(k, stake, r, recoveryLinear, mandatory);
    assert final >= stake;
    hide FinalizeWithMin;
    EnforceAtLeast(k, final, r.bankroll, safeCap, cover);
    hide EnforceMinPct;
  }

  lemma EnforceAtLeast(k: Kelly, stake: real, bankroll: real, safeCap: real, cover: real)
    requires stake >= cover > 0.0 && safeCap > cover && (k.maxStake <= 0.0 || k.maxStake >= cover)
    ensures EnforceMinPct(k, stake, bankroll, safeCap) >= cover
  {
  }

  /** The recovery choice under the whole pipeline. */
  lemma PipelineCoversDebt(k: Kelly, c: Config, session: Session, r: Request, m: Option<Metrics>)
    requires ContractPayout(r.quoted, c.params) > 0.0 && r.fStar > 0.0
    requires var s := ClearedSession(c, session);
             var payout := ContractPayout(r.quoted, c.params);
             && SingleWinCover(c, s, r.bankroll, m, payout)
             && NothingCuts(k, c, s, r, m, CoverStake(c.soft, s.pending, payout, MaxInt(0, s.linear)))
    ensures var outcome := Pipeline(k, c, session, r, m);
            && outcome.Placed? && outcome.safeCap == CoverCap(c, r.bankroll)
            && outcome.stake * ContractPayout(r.quoted, c.params) >= ClearedSession(c, session).pending
            && outcome.stake <= outcome.safeCap
  {
    hide *;
    var s, payout := ClearedSession(c, session), ContractPayout(r.quoted, c.params);
    var cover := CoverStake(c.soft, s.pending, payout, MaxInt(0, s.linear));
    var base := NeutralFloored(c.run, r.kellyBase, r.bankroll, m);
    RecoveryStakeCovers(c, s, r.bankroll, base, r.fStar, true, m, r.quoted);
    var choice := DlambertStake(c, s, r.bankroll, base, r.fStar, true, m, r.quoted);
    var blocked := MandatoryBlocked(k, r, RECOVER);
    CoverFacts(k, c, s, r, m, cover, payout);
    SameSignalCuts(k, c, s, r, m, choice.m, cover);
    StagesKeepCover(k, c, s, r, blocked, choice, cover);
    PipelineForm(k, c, session, r, m);
    AtLeastCoverWins(c.soft, s.pending, payout, MaxInt(0, s.linear), Pipeline(k, c, session, r, m).stake);
    CoverCapKept(k, c, session, r, m);
  }

  lemma CoverCapKept(k: Kelly, c: Config, session: Session, r: Request, m: Option<Metrics>)
    requires ContractPayout(r.quoted, c.params) > 0.0 && r.bankroll > 0.0 && CapGuard(k, m, CoverCap(c, r.bankroll))
    ensures var outcome := Pipeline(k, c, session, r, m);
            outcome.Placed? && outcome.safeCap == CoverCap(c, r.bankroll) > 0.0 ==> outcome.stake <= outcome.safeCap
  {
    CapIsKept(k, c, session, r, m);
    hide *;
  }

  lemma AtLeastCoverWins(soft: SoftRecovery, pending: real, payout: real, losses: int, stake: real)
    requires payout > 0.0 && pending > 0.0 && AmortCycles(soft, losses) == 1 && stake >= CoverStake(soft, pending, payout, losses)
    ensures stake * payout >= pending
  {
    CoverWins(soft, pending, payout, losses);
    ScaleUp(CoverStake(soft, pending, payout, losses), stake, payout);
    hide *;
  }

  lemma CoverFacts(k: Kelly, c: Config, s: Session, r: Request, m: Option<Metrics>, cover: real, payout: real)
    requires SingleWinCover(c, s, r.bankroll, m, payout) && NothingCuts(k, c, s, r, m, cover)
    requires cover == CoverStake(c.soft, s.pending, payout, MaxInt(0, s.linear))
    ensures s.pending > 0.0 && IsMaterial(c.soft, s.pending) && CoverCap(c, r.bankroll) > cover && payout > 0.0
    ensures InitialRegime(c, s, m) == RECOVER && Stressed(c, s, m)
    ensures !r.stopWin && !Vetoed(r, m) && r.bankroll > 0.0 && m.Some? && CapGuard(k, m, CoverCap(c, r.bankroll))
    ensures AmortCycles(c.soft, MaxInt(0, s.linear)) == 1
  {
    hide CoverStake, CoverCap, SqueezeSovereign, Vetoed, MandatoryBlocked, AmortCycles, Downgraded;
  }

  lemma SameSignalCuts(k: Kelly, c: Config, s: Session, r: Request, m: Option<Metrics>, m': Option<Metrics>, cover: real)
    requires NothingCuts(k, c, s, r, m, cover) && m'.Some? && m'.value.signal == m.value.signal
    ensures NothingCuts(k, c, s, r, m', cover)
  {
    hide MandatoryBlocked;
  }

  lemma PipelineForm(k: Kelly, c: Config, session: Session, r: Request, m: Option<Metrics>)
    requires ContractPayout(r.quoted, c.params) > 0.0
    requires var s := ClearedSession(c, session);
             InitialRegime(c, s, m) == RECOVER && Stressed(c, s, m) && !r.stopWin && !Vetoed(r, m) && s.pending > 0.0
    ensures var s := ClearedSession(c, session);
            var base := NeutralFloored(c.run, r.kellyBase, r.bankroll, m);
            Pipeline(k, c, session, r, m) ==
            AfterChoice(k, c, s, r, RECOVER, MandatoryBlocked(k, r, RECOVER), true,
                        DlambertStake(c, s, r.bankroll, base, r.fStar, true, m, r.quoted))
  {
    hide AfterChoice, DlambertStake, MandatoryBlocked, NeutralFloored, InitialRegime, ClearedSession, Stressed, Vetoed, ContractPayout;
  }

  // ---------- The operation ----------

  /** The mutable metrics record of a candidate: sizing writes three of its fields. */
  class MetricsBag {
    const signal: Signal
    var coverCap: bool
    var forceExplore: bool
    var coverDisabled: bool

    constructor (signal: Signal)
      ensures this.signal == signal && !coverCap && !forceExplore && !coverDisabled
    {
      this.signal := signal;
      coverCap, forceExplore, coverDisabled := false, false, false;
    }

    method Store(tel: Telemetry)
      modifies this
      ensures Value(this) == Some(Metrics(signal, tel))
    {
      coverCap, forceExplore, coverDisabled := tel.coverCap, tel.forceExplore, tel.coverDisabled;
    }
  }

  function Value(bag: MetricsBag?): Option<Metrics>
    reads bag
  {
    if bag == null then None
    else Some(Metrics(bag.signal, Telemetry(bag.coverCap, bag.forceExplore, bag.coverDisabled)))
  }

  function SessionOf(rm: RiskManager): Session
    reads rm
  {
    Session(rm.consecutiveLossesLinear, Total(rm.pendingLoss), rm.totalSessionProfit, rm.peakSessionProfit, rm.dailyStopWinTarget)
  }

  lemma DlambertKeepsSignal(c: Config, s: Session, bankroll: real, kellyBase: real, fStar: real,
                            stress: bool, m: Option<Metrics>, quoted: Option<real>)
    requires ContractPayout(quoted, c.params) > 0.0
    ensures var m' := DlambertStake(c, s, bankroll, kellyBase, fStar, stress, m, quoted).m;
            (m.None? <==> m'.None?) && (m.Some? ==> m'.value.signal == m.value.signal)
  {
    hide MaxSafeCap, CoverCap, NeutralUnit, CoverStake, Infeasible, AmortCycles, ContractPayout, Damped;
  }

  /** Sizes a stake stage by stage, clearing dust on the manager and writing the metrics record on the way. */
  method CalculateStake(k: Kelly, c: Config, rm: RiskManager, r: Request, bag: MetricsBag?) returns (stake: real)
    requires rm.Valid() && c.params == rm.params && ContractPayout(r.quoted, c.params) > 0.0
    modifies rm, bag
    ensures stake == Pipeline(k, c, old(SessionOf(rm)), r, old(Value(bag))).Stake()
    ensures rm.World() == if r.stopWin then old(rm.World()) else Apply(rm.params, old(rm.World()), DustStep)
    ensures rm.Valid()
    ensures r.bankroll > 0.0 && k.minPct > 0.0 ==> stake >= 0.0 && (k.maxStake > 0.0 ==> stake <= k.maxStake)
  {
    ghost var session, m0 := SessionOf(rm), Value(bag);
    if r.bankroll > 0.0 && k.minPct > 0.0 {
      StakeBound(k, c, session, r, m0);
    }
    if r.stopWin {
      return 0.0;
    }
    StepKeepsInv(rm.params, rm.World(), DustStep);
    SessionAfterDust(c, rm.Now());
    ApplyDust(rm.params, rm.World());
    hide *;
    ghost var before := rm.Now();
    var _ := rm.ClearDustPendingLoss();
    SessionIsState(rm, before);
    stake := SizeStake(k, c, rm, r, bag);
    PipelineIsCleared(k, c, session, r, m0);
  }

  /** The stages after the dust, each rebinding the stake as the one before left it. */
  method SizeStake(k: Kelly, c: Config, rm: RiskManager, r: Request, bag: MetricsBag?) returns (stake: real)
    requires ContractPayout(r.quoted, c.params) > 0.0 && !r.stopWin
    modifies bag
    ensures stake == SizeCleared(k, c, old(SessionOf(rm)), r, old(Value(bag))).Stake()
    ensures rm.World() == old(rm.World())
  {
    var s, m := SessionOf(rm), Value(bag);
    var regime := InitialRegime(c, s, m);
    if Vetoed(r, m) {
      return 0.0;
    }
    var blocked := MandatoryBlocked(k, r, regime);
    if blocked && s.pending <= 0.0 {
      return 0.0;
    }
    var stress, base := Stressed(c, s, m), NeutralFloored(c.run, r.kellyBase, r.bankroll, m);
    var choice := DlambertStake(c, s, r.bankroll, base, r.fStar, stress, m, r.quoted);
    DlambertKeepsSignal(c, s, r.bankroll, base, r.fStar, stress, m, r.quoted);
    hide DlambertStake, ContractPayout, InitialRegime, Vetoed, MandatoryBlocked, Stressed, NeutralFloored, AfterChoice;
    if bag != null {
      bag.Store(choice.m.value.tel);
    }
    assert Value(bag) == choice.m;
    stake := FinishStake(k, c, s, r, regime, blocked, stress, choice);
  }

  method FinishStake(k: Kelly, c: Config, s: Session, r: Request, regime: Regime, blocked: bool, stress: bool, choice: Choice)
    returns (stake: real)
    ensures stake == AfterChoice(k, c, s, r, regime, blocked, stress, choice).Stake()
  {
    hide TurboMultiplier, CapFinal, WeakExploreCap, SqueezeStakeFloor, SignalCaps, FinalizeWithMin, EnforceMinPct, CapProvisional, SafeCapFor;
    var m := choice.m;
    var regime' := regime;
    if m.Some? && m.value.tel.forceExplore {
      regime' := EXPLORE;
    }
    var mandatory := r.mandatory && !blocked;
    stake := Times(choice.stake, TurboMultiplier(c.run, m));
    stake := CapFinal(k, c, s, r, stress, stake, m);
    stake := WeakExploreCap(k, stake, r.bankroll, regime', mandatory, m.None? || m.value.signal.execute);
    if choice.mode == DALEMBERT && stake <= k.stakeMin && !mandatory {
      return 0.0;
    }
    stake := SqueezeStakeFloor(k, c.run, stake, s.pending, m);
    stake := SignalCaps(c.soft, stake, r.bankroll, m, s.pending);
    stake := FinalizeWithMin(k, stake, r, stress && !blocked && stake > 0.0, mandatory);
    var safeCap := SafeCapFor(c, s, r.bankroll, m);
    stake := EnforceMinPct(k, stake, r.bankroll, safeCap);
    stake := CapProvisional(stake, r.bankroll, m, safeCap);
  }

  function SessionIn(s: State): Session {
    Session(s.linear, Total(s.pending), s.sessionProfit, s.peak, s.target)
  }

  lemma SessionAfterDust(c: Config, s: State)
    ensures SessionIn(ClearDust(c.params, s)) == ClearedSession(c, SessionIn(s))
  {
    EmptyLedger();
  }

  lemma SessionIsState(rm: RiskManager, s: State)
    requires rm.Now() == ClearDust(rm.params, s)
    ensures SessionOf(rm) == SessionIn(ClearDust(rm.params, s))
  {
  }

  lemma PipelineIsCleared(k: Kelly, c: Config, session: Session, r: Request, m: Option<Metrics>)
    requires ContractPayout(r.quoted, c.params) > 0.0
    ensures Pipeline(k, c, session, r, m) == SizeCleared(k, c, ClearedSession(c, session), r, m)
  {
    hide SizeCleared, ClearedSession, ContractPayout;
  }

  lemma ApplyDust(p: Params, w: World)
    ensures Apply(p, w, DustStep) == Settlement.World(ClearDust(p, w.s), w.log, w.known)
  {
  }
}
