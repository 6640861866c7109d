/**
 Sizing a stake that has to win back a pending loss: amortisation, the safe caps, the recovery cover
 and the choice between Kelly and recovery sizing. A metrics record is optional, and the fields that
 one stage writes and a later one reads travel with it.
 */
module RecoverySizing {
  import opened Numeric
  import opened PendingLoss
  import opened Settlement
  import opened Trading

  // ---------- Configuration and signal ----------

  datatype SoftRecovery = SoftRecovery(
    enabled: bool, amortMin: int, amortMax: int,
    safeCap: real, safePct: real, fallbackPct: real, safePctLinear2: real, safePctLinear3: real,
    floorThreshold: real, floorPct: real,
    materialMin: real, coverEnabled: bool, coverMultiple: real, freezePct: real, pendingWaives: bool,
    adaptedForce: bool, adaptedLinearMin: int, liveLinearMin: int, liveCountMin: int, liveRateMax: real)

  datatype Runtime = Runtime(
    microThreshold: real, microTailLevel: int, microTailMultiplier: real,
    neutralThreshold: real, microPct: real, neutralPct: real,
    dampingFloor: real, dampingSpan: real,
    turboCountMin: int, turboBrierMax: real, turboThreshold: real, turboMultiplier: real,
    squeezeScore: real)

  datatype Config = Config(soft: SoftRecovery, run: Runtime, params: Params)

  /** The part of the metrics record that sizing only reads. */
  datatype Signal = Signal(
    skipped: bool, notReady: bool, softVeto: bool, seniorConviction: real, execute: bool,
    scaleForceExplore: bool, scaleAdapted: bool, scaleDiscordance: bool, scaleMaxPct: Option<real>,
    squeezeFloor: bool, tradeScore: real, softSizeWaived: bool,
    hurst: Option<real>, accBelowFloor: bool, liveCount: int, liveRate: Option<real>, liveBrier: Option<real>, edgeZscore: real,
    belowLadder: bool, candle: Option<Direction>, order: Option<Direction>,
    lossClfSoft: bool, lossClfPct: Option<real>, softSignal: bool, softSignalPct: Option<real>,
    provisional: bool, provisionalPct: real)

  /** The part that sizing writes: a stale value from an earlier call may still be present. */
  datatype Telemetry = Telemetry(coverCap: bool, forceExplore: bool, coverDisabled: bool)

  datatype Metrics = Metrics(signal: Signal, tel: Telemetry)

  /** The session fields of the risk manager that sizing reads. */
  datatype Session = Session(linear: int, pending: real, pnl: real, peak: real, target: real)

  // ---------- Caps ----------

  function NeutralUnit(run: Runtime, bankroll: real): real {
    Max(0.0, bankroll) * if bankroll <= run.neutralThreshold then run.microPct else run.neutralPct
  }

  function SafePct(soft: SoftRecovery): real {
    if soft.safePct <= 0.0 then soft.fallbackPct else Min(soft.safePct, 1.0)
  }

  /** Small accounts are capped harder. */
  function SmallAccountFloor(soft: SoftRecovery, cap: real, bankroll: real): (r: real)
    ensures r <= cap
  {
    var balance := Max(0.0, bankroll);
    if balance <= 0.0 || balance >= soft.floorThreshold then cap else Min(cap, balance * soft.floorPct)
  }

  predicate MicroTail(c: Config, bankroll: real, linear: int) {
    Max(0.0, bankroll) <= c.run.microThreshold && MaxInt(0, linear) >= c.run.microTailLevel
  }

  function LinearPct(soft: SoftRecovery, linear: int): (pct: real)
    ensures pct <= SafePct(soft)
  {
    if linear >= 3 then Min(SafePct(soft), soft.safePctLinear3)
    else if linear >= 2 then Min(SafePct(soft), soft.safePctLinear2)
    else SafePct(soft)
  }

  function MaxSafeCap(c: Config, bankroll: real, linear: int): real {
    var balance := Max(0.0, bankroll);
    if MicroTail(c, bankroll, linear) then
      SmallAccountFloor(c.soft,
                        if c.soft.safeCap > 0.0 then c.soft.safeCap else c.run.microTailMultiplier * NeutralUnit(c.run, balance), balance)
    else
      SmallAccountFloor(c.soft, balance * LinearPct(c.soft, MaxInt(0, linear)), balance)
  }

  /** The cap that applies when a single win has to cover everything. */
  function CoverCap(c: Config, bankroll: real): real {
    SmallAccountFloor(c.soft, bankroll * SafePct(c.soft), bankroll)
  }

  // ---------- Amortisation ----------

  function AmortCycles(soft: SoftRecovery, losses: int): (n: int)
    ensures n >= 1
  {
    var low := MaxInt(1, soft.amortMin);
    var high := MaxInt(low, soft.amortMax);
    MaxInt(low, MinInt(high, high - MinInt(MaxInt(0, losses), high - low)))
  }

  function CoverMultiple(soft: SoftRecovery): real {
    Max(1.0, soft.coverMultiple)
  }

  /** The debt does not fit into the longest amortisation at the capped stake. */
  predicate Infeasible(soft: SoftRecovery, pending: real, cap: real, payout: real) {
    if pending <= 0.0 then false
    else if cap <= 0.0 || payout <= 0.0 then true
    else pending * CoverMultiple(soft) / (cap * payout) > MaxInt(1, soft.amortMax) as real
  }

  /** The stake whose payout covers one cycle's share of the debt. */
  function CoverStake(soft: SoftRecovery, pending: real, payout: real, losses: int): real
    requires payout != 0.0
  {
    pending / payout / AmortCycles(soft, losses) as real * CoverMultiple(soft)
  }

  function Damped(run: Runtime, stake: real, target: real, pnl: real): real {
    var damping := if target <= 0.0 then 1.0 else run.dampingFloor + run.dampingSpan * Max(0.0, (target - pnl) / target);
    Max(0.0, stake * damping)
  }

  // ---------- Gates ----------

  predicate LiveEvidenceBlocks(soft: SoftRecovery, m: Metrics, losses: int) {
    && m.signal.liveRate.Some?
    && losses >= soft.liveLinearMin
    && m.signal.liveCount >= soft.liveCountMin
    && m.signal.liveRate.value + 0.000000000001 < soft.liveRateMax
  }

  predicate AdaptedBlocks(soft: SoftRecovery, m: Metrics, losses: int) {
    soft.adaptedForce && m.signal.scaleAdapted && losses >= soft.adaptedLinearMin
  }

  predicate IsMaterial(soft: SoftRecovery, pending: real) {
    pending + 0.000000000001 >= soft.materialMin
  }

  predicate PendingWaives(soft: SoftRecovery, pending: real) {
    soft.pendingWaives && IsMaterial(soft, pending)
  }

  /** Conviction below the recovery ladder, or the last candle closed against the order. */
  predicate Downgraded(m: Option<Metrics>, losses: int) {
    && m.Some?
    && (m.value.signal.belowLadder
        || (losses >= 1 && m.value.signal.candle.Some? && m.value.signal.order.Some?
            && m.value.signal.candle != m.value.signal.order))
  }

  // ---------- Recovery stake ----------

  datatype Sized = Sized(stake: real, m: Option<Metrics>)

  function Write(m: Option<Metrics>, tel: Telemetry -> Telemetry): Option<Metrics> {
    if m.None? then None else Some(m.value.(tel := tel(m.value.tel)))
  }

  /** Exploring with the neutral unit instead of covering. */
  function ForcedExplore(c: Config, s: Session, bankroll: real, m: Option<Metrics>, material: bool): Sized {
    var cap := MaxSafeCap(c, bankroll, s.linear);
    var stake := Max(0.0, Min(Max(0.0, NeutralUnit(c.run, bankroll)), cap));
    if m.None? then Sized(stake, None)
    else
      var sig := m.value.signal;
      var coverDisabled := material && !c.soft.coverEnabled;
      var quality := !material &&
                     (sig.accBelowFloor || LiveEvidenceBlocks(c.soft, m.value, s.linear) || AdaptedBlocks(c.soft, m.value, s.linear));
      var noisy := sig.hurst.Some? && sig.hurst.value < 0.400;
      var nearStop := s.target > 0.0 && s.pnl / s.target + 0.000000000001 >= c.soft.freezePct;
      Sized(stake, Some(m.value.(tel := m.value.tel.(coverDisabled := coverDisabled,
                                                    forceExplore := coverDisabled || quality || noisy || nearStop))))
  }

  /** The stake that wins back the pending loss, or its capped or exploratory replacement. */
  function SoftRecoveryStake(c: Config, s: Session, bankroll: real, m: Option<Metrics>, payout: real): Sized
    requires payout > 0.0
  {
    var material := IsMaterial(c.soft, s.pending);
    if !material || !c.soft.coverEnabled then ForcedExplore(c, s, bankroll, m, material)
    else
      var losses := MaxInt(0, s.linear);
      var amort := AmortCycles(c.soft, losses);
      var full := CoverStake(c.soft, s.pending, payout, losses);
      var cover := if Downgraded(m, losses) then Min(full, NeutralUnit(c.run, bankroll)) else full;
      var cap := if amort <= 1 then CoverCap(c, bankroll) else MaxSafeCap(c, bankroll, s.linear);
      var m' := Write(m, (t: Telemetry) => Telemetry(amort <= 1 || t.coverCap, false, false));
      var infeasible := Infeasible(c.soft, s.pending, cap, payout) || cover + 0.000000000001 >= cap;
      if infeasible && s.pending > 0.0 then Sized(Min(cover, cap), m')
      else
        var stake := if amort > 1 && s.target > 0.0 then Damped(c.run, cover, s.target, s.pnl) else cover;
        Sized(Min(stake, cap), m')
  }

  // ---------- Kelly or recovery ----------

  datatype Mode = KELLY | DALEMBERT

  datatype Choice = Choice(stake: real, mode: Mode, m: Option<Metrics>)

  /** A non-positive fraction falls back to the neutral unit. */
  function KellyChoice(c: Config, bankroll: real, kellyBase: real, fStar: real, m: Option<Metrics>): Choice {
    var stake := if fStar <= 0.000000001 then Min(kellyBase, NeutralUnit(c.run, bankroll)) else kellyBase;
    Choice(FloorCents(stake), KELLY, m)
  }

  predicate ScaleBlocks(m: Option<Metrics>) {
    m.Some? && (m.value.signal.scaleForceExplore || m.value.signal.scaleAdapted)
  }

  function DlambertStake(c: Config, s: Session, bankroll: real, kellyBase: real, fStar: real,
                         stress: bool, m: Option<Metrics>, quoted: Option<real>): Choice
    requires ContractPayout(quoted, c.params) > 0.0
  {
    if ScaleBlocks(m) && !PendingWaives(c.soft, s.pending) then KellyChoice(c, bankroll, kellyBase, fStar, m)
    else if (stress || s.pending > 0.0 || s.linear > 0) && c.soft.enabled then
      if fStar <= 0.0 then Choice(0.0, DALEMBERT, m)
      else
        var raw := SoftRecoveryStake(c, s, bankroll, m, ContractPayout(quoted, c.params));
        var cap := MaxSafeCap(c, bankroll, s.linear);
        if raw.m.Some? && raw.m.value.tel.forceExplore then
          var neutral := NeutralUnit(c.run, bankroll);
          var explore :=
            if raw.m.value.tel.coverDisabled then Min(Max(kellyBase, neutral), cap)
            else Min(if fStar <= 0.000000001 then Min(raw.stake, neutral) else raw.stake, cap);
          Choice(FloorCents(explore), KELLY, raw.m)
        else if raw.m.Some? && raw.m.value.tel.coverCap then Choice(CeilCents(raw.stake), DALEMBERT, raw.m)
        else Choice(Min(CeilCents(raw.stake), cap), DALEMBERT, raw.m)
    else KellyChoice(c, bankroll, kellyBase, fStar, m)
  }

  // ---------- What recovery promises ----------

  /** The cap of the recovery stake itself, before the choice between Kelly and recovery caps it again. */
  function StakeCap(c: Config, s: Session, bankroll: real): real {
    if IsMaterial(c.soft, s.pending) && c.soft.coverEnabled && AmortCycles(c.soft, MaxInt(0, s.linear)) <= 1
    then CoverCap(c, bankroll) else MaxSafeCap(c, bankroll, s.linear)
  }

  predicate Covers(c: Config, s: Session) {
    IsMaterial(c.soft, s.pending) && c.soft.coverEnabled
  }

  /** Material debt with cover enabled is covered within the cap; a downgrade limits the cover to the neutral unit. */
  lemma CoveredStake(c: Config, s: Session, bankroll: real, m: Option<Metrics>, payout: real)
    requires payout > 0.0 && Covers(c, s)
    ensures var r := SoftRecoveryStake(c, s, bankroll, m, payout);
            var losses, cap := MaxInt(0, s.linear), StakeCap(c, s, bankroll);
            var full := CoverStake(c.soft, s.pending, payout, losses);
            && r.stake <= cap
            && (AmortCycles(c.soft, losses) == 1 || s.target <= 0.0 ==>
                  r.stake == Min(if Downgraded(m, losses) then Min(full, NeutralUnit(c.run, bankroll)) else full, cap))
  {
    hide AmortCycles, CoverMultiple, MaxSafeCap, CoverCap, NeutralUnit, Downgraded, Infeasible, Damped, CoverStake, Write, ForcedExplore, IsMaterial;
  }

  /** Where no damping or downgrade applies and the cap leaves room, a win pays exactly one cycle's share of the debt. */
  lemma CoveredShare(c: Config, s: Session, bankroll: real, m: Option<Metrics>, payout: real)
    requires payout > 0.0 && Covers(c, s) && !Downgraded(m, MaxInt(0, s.linear))
    requires AmortCycles(c.soft, MaxInt(0, s.linear)) == 1 || s.target <= 0.0
    requires CoverStake(c.soft, s.pending, payout, MaxInt(0, s.linear)) <= StakeCap(c, s, bankroll)
    ensures Times(Times(SoftRecoveryStake(c, s, bankroll, m, payout).stake, payout), AmortCycles(c.soft, MaxInt(0, s.linear)) as real)
         == Times(s.pending, CoverMultiple(c.soft))
  {
    hide *;
    CoveredStake(c, s, bankroll, m, payout);
    CoverIsShare(c.soft, s.pending, payout, MaxInt(0, s.linear));
    MinOfOrdered(CoverStake(c.soft, s.pending, payout, MaxInt(0, s.linear)), StakeCap(c, s, bankroll));
  }

  lemma MinOfOrdered(x: real, y: real)
    requires x <= y
    ensures Min(x, y) == x
  {
  }

  lemma CoverIsShare(soft: SoftRecovery, pending: real, payout: real, losses: int)
    requires payout > 0.0
    ensures Times(Times(CoverStake(soft, pending, payout, losses), payout), AmortCycles(soft, losses) as real)
         == Times(pending, CoverMultiple(soft))
  {
    ShareOfCycles(pending, payout, AmortCycles(soft, losses) as real, CoverMultiple(soft));
    assert CoverStake(soft, pending, payout, losses) == pending / payout / AmortCycles(soft, losses) as real * CoverMultiple(soft);
    hide *;
  }

  /** The record then says that the debt is covered, and whether the cap of a single win applies. */
  lemma CoveredRecord(c: Config, s: Session, bankroll: real, m: Option<Metrics>, payout: real)
    requires payout > 0.0 && Covers(c, s) && m.Some?
    ensures var r := SoftRecoveryStake(c, s, bankroll, m, payout).m;
            && r.Some? && r.value.signal == m.value.signal
            && !r.value.tel.forceExplore && !r.value.tel.coverDisabled
            && (r.value.tel.coverCap <==> AmortCycles(c.soft, MaxInt(0, s.linear)) == 1 || m.value.tel.coverCap)
  {
    hide AmortCycles, CoverMultiple, MaxSafeCap, CoverCap, NeutralUnit, Downgraded, Infeasible, Damped, CoverStake, ForcedExplore, IsMaterial;
  }

  /** Any other debt is explored with at most the neutral unit; the record says so when cover is switched off. */
  lemma ExploredStake(c: Config, s: Session, bankroll: real, m: Option<Metrics>, payout: real)
    requires payout > 0.0 && !Covers(c, s)
    ensures var r := SoftRecoveryStake(c, s, bankroll, m, payout);
            && 0.0 <= r.stake <= Max(0.0, NeutralUnit(c.run, bankroll)) && r.stake <= Max(0.0, StakeCap(c, s, bankroll))
            && (m.Some? ==> r.m.Some? && r.m.value.signal == m.value.signal && r.m.value.tel.coverCap == m.value.tel.coverCap
                            && (r.m.value.tel.coverDisabled <==> IsMaterial(c.soft, s.pending))
                            && (r.m.value.tel.coverDisabled ==> r.m.value.tel.forceExplore))
  {
    hide AmortCycles, CoverMultiple, MaxSafeCap, CoverCap, NeutralUnit, Downgraded, Infeasible, Damped, CoverStake, IsMaterial, LiveEvidenceBlocks, AdaptedBlocks;
  }

  lemma ShareOfCycles(pending: real, payout: real, cycles: real, multiple: real)
    requires payout > 0.0 && cycles > 0.0
    ensures Times(Times(pending / payout / cycles * multiple, payout), cycles) == Times(pending, multiple)
  {
    var share := pending / payout;
    var part := share / cycles;
    assert share * payout == pending && part * cycles == share;
    assert part * multiple * payout * cycles == part * cycles * payout * multiple;
  }

  /** A debt that one win at a stake below the cap can pay off. */
  predicate SingleWinCover(c: Config, s: Session, bankroll: real, m: Option<Metrics>, payout: real) {
    && payout > 0.0 && s.pending > 0.0 && IsMaterial(c.soft, s.pending)
    && c.soft.enabled && c.soft.coverEnabled
    && AmortCycles(c.soft, MaxInt(0, s.linear)) == 1
    && m.Some? && !Downgraded(m, MaxInt(0, s.linear))
    && (ScaleBlocks(m) ==> c.soft.pendingWaives)
    && CoverStake(c.soft, s.pending, payout, MaxInt(0, s.linear)) + 0.000000000001 < CoverCap(c, bankroll)
  }

  lemma CoverWins(soft: SoftRecovery, pending: real, payout: real, losses: int)
    requires payout > 0.0 && pending > 0.0 && AmortCycles(soft, losses) == 1
    ensures CoverStake(soft, pending, payout, losses) * payout == pending * CoverMultiple(soft) >= pending
    ensures CoverStake(soft, pending, payout, losses) > 0.0
  {
    var share, multiple := pending / payout, CoverMultiple(soft);
    assert CoverStake(soft, pending, payout, losses) == share * multiple;
    hide CoverStake, AmortCycles;
    PositiveQuotient(pending, payout);
    Regroup(share, multiple, payout);
    MultipleAtLeast(pending, multiple);
    MultipleAtLeast(share, multiple);
  }

  lemma PositiveQuotient(a: real, b: real)
    requires a > 0.0 && b > 0.0
    ensures a / b > 0.0 && a / b * b == a
  {
    var q := a / b;
    assert q * b == a;
    SignOfFactor(q, b);
  }

  lemma SignOfFactor(q: real, b: real)
    requires b > 0.0
    ensures q * b > 0.0 ==> q > 0.0
    ensures q >= 1.0 ==> q * b >= b
  {
    if q <= 0.0 {
      assert q * b <= 0.0;
    } else if q >= 1.0 {
      assert (q - 1.0) * b >= 0.0;
    }
  }

  lemma MultipleAtLeast(x: real, m: real)
    requires x > 0.0 && m >= 1.0
    ensures x * m >= x && x * m > 0.0
  {
    NonNegativeTimes(x, m - 1.0);
    assert x * m == x * (m - 1.0) + x;
  }

  lemma Regroup(share: real, multiple: real, payout: real)
    ensures share * multiple * payout == share * payout * multiple
  {
  }

  lemma CoverIsFeasible(soft: SoftRecovery, pending: real, payout: real, losses: int, cap: real)
    requires payout > 0.0 && pending > 0.0 && AmortCycles(soft, losses) == 1
    requires CoverStake(soft, pending, payout, losses) < cap
    ensures !Infeasible(soft, pending, cap, payout)
  {
    CoverWins(soft, pending, payout, losses);
    InfeasibleByProduct(soft, pending, cap, payout);
    ScaleStrictly(CoverStake(soft, pending, payout, losses), cap, payout);
    hide CoverStake, AmortCycles, CoverMultiple, Infeasible;
    QuotientBelowOne(pending * CoverMultiple(soft), cap * payout);
  }

  lemma ScaleStrictly(a: real, b: real, f: real)
    requires a < b && f > 0.0
    ensures a * f < b * f
  {
  }

  lemma QuotientBelowOne(a: real, b: real)
    requires 0.0 < a < b
    ensures a / b < 1.0
  {
    var q := a / b;
    assert q * b == a;
    if q >= 1.0 {
      ScaleUp(1.0, q, b);
    }
  }

  /** The recovery stake then wins at least the whole debt, and exceeds the cap by less than a cent. */
  lemma RecoveryStakeCovers(c: Config, s: Session, bankroll: real, kellyBase: real, fStar: real,
                            stress: bool, m: Option<Metrics>, quoted: Option<real>)
    requires SingleWinCover(c, s, bankroll, m, ContractPayout(quoted, c.params)) && fStar > 0.0
    ensures var payout := ContractPayout(quoted, c.params);
            var choice := DlambertStake(c, s, bankroll, kellyBase, fStar, stress, m, quoted);
            && choice.mode == DALEMBERT && choice.m.Some?
            && choice.m.value == m.value.(tel := Telemetry(true, false, false))
            && choice.stake >= CoverStake(c.soft, s.pending, payout, MaxInt(0, s.linear)) > 0.0
            && choice.stake * payout >= s.pending
            && choice.stake < CoverCap(c, bankroll) + 0.01
  {
    var payout := ContractPayout(quoted, c.params);
    var losses := MaxInt(0, s.linear);
    var cover := CoverStake(c.soft, s.pending, payout, losses);
    CoverWins(c.soft, s.pending, payout, losses);
    CoverIsFeasible(c.soft, s.pending, payout, losses, CoverCap(c, bankroll));
    hide CoverStake, CoverCap, MaxSafeCap, NeutralUnit, Infeasible, AmortCycles, ContractPayout, CeilCents;
    assert SoftRecoveryStake(c, s, bankroll, m, payout) == Sized(cover, Some(m.value.(tel := Telemetry(true, false, false))));
    CeilCentsBounds(cover);
    ScaleUp(cover, CeilCents(cover), payout);
  }

  lemma CeilCentsBounds(x: real)
    ensures x <= CeilCents(x) < x + 0.01
  {
  }

  lemma ScaleUp(a: real, b: real, f: real)
    requires a <= b && f >= 0.0
    ensures a * f <= b * f
  {
  }

  /**
   The infeasibility test is exact: it passes exactly when as many wins at the capped stake as there
   are amortisation cycles bring every ledger of the required total down to zero.
   */
  lemma InfeasibilityIsExact(soft: SoftRecovery, pending: real, cap: real, payout: real)
    requires cap > 0.0 && payout > 0.0 && pending >= 0.0
    ensures !Infeasible(soft, pending, cap, payout) <==> ClearsEveryLedger(pending * CoverMultiple(soft), cap * payout, MaxInt(1, soft.amortMax))
  {
    var need, gain, n := pending * CoverMultiple(soft), cap * payout, MaxInt(1, soft.amortMax);
    NonNegativeTimes(pending, CoverMultiple(soft));
    NonNegativeTimes(cap, payout);
    QuotientAgainst(need, gain, n);
    InfeasibleByProduct(soft, pending, cap, payout);
    hide CoverMultiple, Infeasible;
    ClearedBy(need, gain, n);
  }

  lemma InfeasibleByProduct(soft: SoftRecovery, pending: real, cap: real, payout: real)
    requires cap > 0.0 && payout > 0.0 && pending >= 0.0
    ensures Infeasible(soft, pending, cap, payout) <==>
            pending > 0.0 && pending * CoverMultiple(soft) / (cap * payout) > MaxInt(1, soft.amortMax) as real
    ensures pending == 0.0 ==> pending * CoverMultiple(soft) == 0.0
  {
  }

  lemma NonNegativeTimes(a: real, b: real)
    requires a >= 0.0 && b >= 0.0
    ensures a * b >= 0.0
    ensures a > 0.0 && b > 0.0 ==> a * b > 0.0
  {
  }

  /** n wins of one size clear every ledger of a given total exactly when together they reach that total. */
  lemma ClearedBy(total: real, profit: real, n: nat)
    requires total >= 0.0 && profit >= 0.0
    ensures ClearsEveryLedger(total, profit, n) <==> total <= Times(n as real, profit)
  {
    hide Times, Wins;
    if total <= Times(n as real, profit) {
      forall l: Ledger | NonNegative(l) && Total(l) == total ensures AllZero(Wins(l, profit, n)) {
        WinsTotal(l, profit, n);
        TotalNonNegative(Wins(l, profit, n));
      }
    } else {
      var l := [Entry("debt", total)];
      assert Total(l) == total && NonNegative(l);
      WinsTotal(l, profit, n);
      TotalNonNegative(Wins(l, profit, n));
    }
  }

  ghost predicate AllZero(l: Ledger) {
    forall i :: 0 <= i < |l| ==> l[i].amount == 0.0
  }

  ghost predicate ClearsEveryLedger(total: real, profit: real, n: nat) {
    forall l: Ledger :: NonNegative(l) && Total(l) == total ==> AllZero(Wins(l, profit, n))
  }

  lemma QuotientAgainst(need: real, gain: real, n: int)
    requires gain > 0.0 && n >= 1
    ensures need / gain > n as real <==> need > Times(n as real, gain)
    ensures Times(n as real, gain) >= 0.0
  {
    var q := need / gain;
    assert q * gain == need;
  }
}
