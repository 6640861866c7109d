/**
 The settlement step of the risk ledger, as functions on the ledger's state, and what holds over
 every run of opening, settling, cluster and pruning steps.
 */
module Settlement {
  import opened Numeric
  import opened PendingLoss
  import opened Trading

  // ---------- Configuration ----------

  /** The payout settings of risk_params, the runtime fallback, and the dust limit. */
  datatype Params = Params(
    contractPayout: Option<real>, payout: Option<real>, payoutEstimate: Option<real>,
    payoutFallback: real, dustMax: real)

  function PositiveOr(candidate: Option<real>, otherwise: real): real {
    if candidate.Some? && candidate.value > 0.0 then candidate.value else otherwise
  }

  /** The first positive candidate: the quoted payout, then the settings, then the fallback. */
  function ContractPayout(quoted: Option<real>, p: Params): real {
    PositiveOr(quoted, PositiveOr(p.contractPayout, PositiveOr(p.payout, PositiveOr(p.payoutEstimate, p.payoutFallback))))
  }

  // ---------- State ----------

  datatype Booking = Booking(cid: int, profit: real)

  datatype State = State(
    pending: Ledger, sessionProfit: real, peak: real, lastTick: int, linear: int, linearReset: bool,
    lastLossStake: real, lastLossSymbol: Option<string>, lastLossDirection: Option<string>,
    rolling: map<string, seq<bool>>,
    stakes: map<int, real>, requested: map<int, real>,
    active: seq<int>, symbolOf: map<int, string>, results: seq<Booking>, expected: int,
    bankroll: real, target: real, unit: real)

  const INITIAL := State([], 0.0, 0.0, 0, 0, false, 0.0, None, None, map[], map[], map[], [], map[], [], 0, 0.0, 0.0, 0.0)

  const ROLLING_CAP := 100

  predicate IsResult(results: seq<Booking>, cid: int) {
    exists i :: 0 <= i < |results| && results[i].cid == cid
  }

  function Profits(results: seq<Booking>): real {
    if results == [] then 0.0 else results[0].profit + Profits(results[1..])
  }

  predicate Tracked(s: State, cid: int) {
    cid in s.active || cid in s.symbolOf
  }

  /** A settlement is booked when its contract is tracked and has no result in the cluster yet. */
  predicate Accepts(s: State, cid: int) {
    !IsResult(s.results, cid) && Tracked(s, cid)
  }

  function RollingOf(rolling: map<string, seq<bool>>, symbol: string): seq<bool> {
    if symbol in rolling then rolling[symbol] else []
  }

  function Without(ids: seq<int>, cid: int): (r: seq<int>)
    ensures forall x :: x in r <==> x in ids && x != cid
  {
    if ids == [] then []
    else (if ids[0] == cid then [] else [ids[0]]) + Without(ids[1..], cid)
  }

  function Lookup(m: map<int, real>, cid: int): Option<real> {
    if cid in m then Some(m[cid]) else None
  }

  // ---------- The settlement step ----------

  /** The debt that a losing contract adds. */
  function LossAmount(requested: Option<real>, recorded: Option<real>, profit: real): real {
    if requested.Some? && requested.value > 0.0 then requested.value
    else if recorded.Some? then recorded.value
    else Abs(profit)
  }

  /** The part of a winning profit that pays off debt: less whatever the stake was downgraded by. */
  function CreditedProfit(requested: Option<real>, recorded: Option<real>, profit: real): real {
    if requested.Some? && recorded.Some? then Max(0.0, profit - Max(0.0, requested.value - recorded.value))
    else profit
  }

  /** The difference between the actual and the expected payoff, ignored when it exceeds ten cents. */
  function PayoffResidual(profit: real, stake: real, rate: real): (r: real)
    ensures Abs(r) <= 0.10
  {
    if profit <= 0.0 || stake <= 0.0 then 0.0
    else
      var residual := Round4(profit - Max(0.0, stake) * Max(0.0, rate));
      if Abs(residual) > 0.10 then 0.0 else residual
  }

  /** The ledger after a win. */
  function WinLedger(l: Ledger, p: Params, symbol: string, requested: Option<real>, recorded: Option<real>, profit: real): Ledger {
    var paid := Waterfall(l, CreditedProfit(requested, recorded, profit));
    if recorded.Some? && recorded.value > 0.0 then
      ApplyResidual(paid, symbol, PayoffResidual(profit, recorded.value, ContractPayout(None, p)))
    else paid
  }

  function LossLedger(l: Ledger, symbol: string, requested: Option<real>, recorded: Option<real>, profit: real): Ledger {
    Put(l, symbol, Get(l, symbol) + LossAmount(requested, recorded, profit))
  }

  function LossStake(requested: Option<real>, recorded: Option<real>, profit: real): real {
    if recorded.Some? && recorded.value != 0.0 then recorded.value else LossAmount(requested, recorded, profit)
  }

  function LossDirection(direction: Option<string>, last: Option<string>): Option<string> {
    if direction.Some? && direction.value != "" then direction else last
  }

  function RecordOutcome(rolling: map<string, seq<bool>>, symbol: string, won: bool): map<string, seq<bool>> {
    rolling[symbol := LastN(RollingOf(rolling, symbol) + [won], ROLLING_CAP)]
  }

  /** Everything a booked settlement does before the cluster is checked for completion. */
  function Book(p: Params, s: State, profit: real, cid: int, symbol: string, tick: int, direction: Option<string>): State {
    var recorded, requested := Lookup(s.stakes, cid), Lookup(s.requested, cid);
    var total, won := s.sessionProfit + profit, profit >= 0.0;
    var pending := if won then WinLedger(s.pending, p, symbol, requested, recorded, profit)
                   else LossLedger(s.pending, symbol, requested, recorded, profit);
    s.(stakes := s.stakes - {cid}, requested := s.requested - {cid}, results := s.results + [Booking(cid, profit)],
    sessionProfit := total, peak := Max(s.peak, total), lastTick := tick, active := Without(s.active, cid),
    rolling := RecordOutcome(s.rolling, symbol, won), pending := pending,
    lastLossStake := if won then (if Total(pending) <= 0.0 then 0.0 else s.lastLossStake)
                     else LossStake(requested, recorded, profit),
    lastLossSymbol := if won then s.lastLossSymbol else Some(symbol),
    lastLossDirection := if won then s.lastLossDirection else LossDirection(direction, s.lastLossDirection))
  }

  predicate ClusterFull(s: State) {
    s.expected > 0 && |s.results| >= s.expected
  }

  predicate ClusterDone(s: State) {
    ClusterFull(s) || (s.active == [] && s.results != [])
  }

  predicate IsDust(p: Params, l: Ledger) {
    0.0 < Total(l) <= p.dustMax
  }

  /** A debt of a few cents is forgiven, also whenever a new stake is sized. */
  function ClearDust(p: Params, s: State): State {
    if IsDust(p, s.pending) then s.(pending := [], linear := 0, lastLossStake := 0.0) else s
  }

  /** The loss counter after a cluster: it only returns to zero when the debt is gone. */
  function CounterAfter(linear: int, dust: bool, owed: real, profit: real): int {
    var before := if dust then 0 else linear;
    if profit < 0.0 then before + 1
    else if dust then before
    else if owed > 0.0 then (if before <= 0 then before else MaxInt(1, before - 1))
    else 0
  }

  function ApplyClusterProfit(p: Params, s: State, profit: real): State {
    var dust := IsDust(p, s.pending);
    var owed := if dust then 0.0 else Total(s.pending);
    s.(pending := if dust then [] else s.pending,
    linear := CounterAfter(s.linear, dust, owed, profit),
    lastLossStake := if dust || (profit >= 0.0 && owed <= 0.0) then 0.0 else s.lastLossStake,
    linearReset := s.linearReset || (profit >= 0.0 && (dust || (owed <= 0.0 && s.linear > 0))))
  }

  function Finalize(p: Params, s: State): State {
    ApplyClusterProfit(p, s, Profits(s.results)).(active := [], symbolOf := map[], results := [], expected := 0)
  }

  function Settle(p: Params, s: State, profit: real, cid: int, symbol: string, tick: int, direction: Option<string>): State {
    if !Accepts(s, cid) then s
    else
      var b := Book(p, s, profit, cid, symbol, tick, direction);
      if ClusterDone(b) then Finalize(p, b) else b
  }

  // ---------- The other steps ----------

  /** A new contract; the planned stake is recorded only by the confirmed registration. */
  function Open(s: State, cid: int, symbol: string, stake: real, planned: Option<real>): State {
    s.(active := if cid in s.active then s.active else s.active + [cid],
    symbolOf := s.symbolOf[cid := symbol], stakes := s.stakes[cid := stake],
    requested := if planned.Some? then s.requested[cid := planned.value] else s.requested)
  }

  function Begin(s: State, expected: int): State {
    s.(expected := MaxInt(0, expected), results := [])
  }

  function Reset(s: State, bankroll: real, target: real): State {
    s.(sessionProfit := 0.0, bankroll := bankroll, target := Max(0.0, target), unit := 0.0, linear := 0, pending := [])
  }

  function KeepLive(ids: seq<int>, live: set<int>): (r: seq<int>)
    ensures forall x :: x in r <==> x in ids && x in live
  {
    if ids == [] then []
    else (if ids[0] in live then [ids[0]] else []) + KeepLive(ids[1..], live)
  }

  function DropResults(results: seq<Booking>, ids: set<int>): (r: seq<Booking>)
    ensures forall c :: IsResult(r, c) <==> IsResult(results, c) && c !in ids
  {
    if results == [] then []
    else
      var rest := DropResults(results[1..], ids);
      var r := (if results[0].cid in ids then [] else [results[0]]) + rest;
      assert forall c :: IsResult(r, c) <==> (results[0].cid !in ids && results[0].cid == c) || IsResult(rest, c) by {
        ResultOfConcat(if results[0].cid in ids then [] else [results[0]], rest);
      }
      assert forall c :: IsResult(results, c) <==> results[0].cid == c || IsResult(results[1..], c) by {
        ResultOfConcat([results[0]], results[1..]);
        assert results == [results[0]] + results[1..];
      }
      r
  }

  lemma ResultOfConcat(a: seq<Booking>, b: seq<Booking>)
    ensures forall c :: IsResult(a + b, c) <==> IsResult(a, c) || IsResult(b, c)
  {
    forall c ensures IsResult(a + b, c) <==> IsResult(a, c) || IsResult(b, c) {
      if IsResult(a, c) {
        var i :| 0 <= i < |a| && a[i].cid == c;
        assert (a + b)[i].cid == c;
      }
      if IsResult(b, c) {
        var i :| 0 <= i < |b| && b[i].cid == c;
        assert (a + b)[|a| + i].cid == c;
      }
    }
  }

  /** Forgets contracts that the rest of the system no longer knows. */
  function Prune(s: State, live: set<int>): State {
    var orphans := set c | c in s.active && c !in live;
    s.(active := KeepLive(s.active, live), symbolOf := s.symbolOf - orphans, results := DropResults(s.results, orphans))
  }

  // ---------- Runs ----------

  datatype Step =
    | OpenStep(cid: int, symbol: string, stake: real, planned: Option<real>)
    | SettleStep(profit: real, cid: int, symbol: string, tick: int, direction: Option<string>)
    | BeginStep(expected: int)
    | ResetStep(bankroll: real, goal: real)
    | PruneStep(live: set<int>)
    | AbandonStep
    | DustStep

  datatype Event =
    | Booked(cid: int, symbol: string, profit: real)
    | SessionReset

  /** A state together with everything booked so far and every contract seen so far. */
  datatype World = World(s: State, log: seq<Event>, known: set<int>)

  const START := World(INITIAL, [], {})

  function Apply(p: Params, w: World, step: Step): World {
    match step
    case OpenStep(cid, symbol, stake, planned) =>
      w.(s := Open(w.s, cid, symbol, stake, planned), known := w.known + {cid})
    case SettleStep(profit, cid, symbol, tick, direction) =>
      w.(s := Settle(p, w.s, profit, cid, symbol, tick, direction),
      log := if Accepts(w.s, cid) then w.log + [Booked(cid, symbol, profit)] else w.log)
    case BeginStep(expected) => w.(s := Begin(w.s, expected))
    case ResetStep(bankroll, target) => w.(s := Reset(w.s, bankroll, target), log := w.log + [SessionReset])
    case PruneStep(live) => w.(s := Prune(w.s, live))
    case AbandonStep => w.(s := w.s.(active := []))
    case DustStep => w.(s := ClearDust(p, w.s))
  }

  /** What callers owe: fresh ids, stakes that are not negative, and clusters begun on empty results. */
  predicate Admissible(w: World, step: Step) {
    match step
    case OpenStep(cid, _, stake, planned) =>
      cid !in w.known && stake >= 0.0 && (planned.Some? ==> planned.value >= 0.0)
    case BeginStep(_) => w.s.results == []
    case _ => true
  }

  function Run(p: Params, w: World, steps: seq<Step>): World
    decreases |steps|
  {
    if steps == [] then w else Run(p, Apply(p, w, steps[0]), steps[1..])
  }

  predicate AdmissibleRun(p: Params, w: World, steps: seq<Step>)
    decreases |steps|
  {
    steps == [] || (Admissible(w, steps[0]) && AdmissibleRun(p, Apply(p, w, steps[0]), steps[1..]))
  }

  // ---------- Accounting over the log ----------

  predicate IsBooked(log: seq<Event>, cid: int) {
    exists i :: 0 <= i < |log| && log[i].Booked? && log[i].cid == cid
  }

  ghost predicate BookedOnce(log: seq<Event>) {
    forall i, j :: 0 <= i < j < |log| && log[i].Booked? && log[j].Booked? ==> log[i].cid != log[j].cid
  }

  /** The profit booked since the last session reset. */
  function SessionTotal(log: seq<Event>): real {
    if log == [] then 0.0
    else
      var last := log[|log| - 1];
      if last.SessionReset? then 0.0 else SessionTotal(log[..|log| - 1]) + last.profit
  }

  /** peak is the largest session total reached so far, and at least zero. */
  ghost predicate IsPeak(log: seq<Event>, peak: real) {
    && (forall i :: 0 <= i <= |log| ==> SessionTotal(log[..i]) <= peak)
    && exists i :: 0 <= i <= |log| && SessionTotal(log[..i]) == peak
  }

  /** The outcomes of one symbol, in order. */
  function Outcomes(log: seq<Event>, symbol: string): seq<bool> {
    if log == [] then []
    else
      var last, rest := log[|log| - 1], Outcomes(log[..|log| - 1], symbol);
      if last.Booked? && last.symbol == symbol then rest + [last.profit >= 0.0] else rest
  }

  ghost predicate Inv(w: World) {
    Guarded(w) && Accounted(w) && Solvent(w.s)
  }

  /** The part of the invariant that prevents a second booking. */
  ghost predicate Guarded(w: World) {
    && BookedOnce(w.log)
    && (forall c :: IsBooked(w.log, c) ==> c in w.known && c !in w.s.active && (c in w.s.symbolOf ==> IsResult(w.s.results, c)))
    && (forall c :: c in w.s.active ==> c in w.known && c in w.s.symbolOf)
    && (forall c :: c in w.s.symbolOf ==> c in w.known)
    && (forall c :: IsResult(w.s.results, c) ==> IsBooked(w.log, c) && c in w.s.symbolOf)
  }

  ghost predicate Accounted(w: World) {
    && w.s.sessionProfit == SessionTotal(w.log)
    && IsPeak(w.log, w.s.peak)
    && RollingMatches(w.s.rolling, w.log)
  }

  /** No debt, stake or counter is negative, and the ledger holds one entry a symbol. */
  ghost predicate Solvent(s: State) {
    && NonNegative(s.pending) && Unique(s.pending)
    && (forall c :: c in s.stakes ==> s.stakes[c] >= 0.0)
    && (forall c :: c in s.requested ==> s.requested[c] >= 0.0)
    && s.linear >= 0
  }

  // ---------- Debt ----------

  /** A loss adds exactly the booked stake, on the settled symbol only. */
  lemma LossAddsStake(l: Ledger, symbol: string, requested: Option<real>, recorded: Option<real>, profit: real)
    requires NonNegative(l) && Unique(l) && profit < 0.0
    requires requested.Some? ==> requested.value >= 0.0
    requires recorded.Some? ==> recorded.value >= 0.0
    ensures var l' := LossLedger(l, symbol, requested, recorded, profit);
            && NonNegative(l') && Unique(l')
            && Total(l') == Total(l) + LossAmount(requested, recorded, profit)
            && Get(l', symbol) == Get(l, symbol) + LossAmount(requested, recorded, profit)
            && forall other :: other != symbol ==> Get(l', other) == Get(l, other)
  {
    var amount := Get(l, symbol) + LossAmount(requested, recorded, profit);
    PopEffect(l, symbol);
    PutEffect(l, symbol, amount);
    KeysPreserved(l, symbol, amount);
    forall other | other != symbol ensures Get(Put(l, symbol, amount), other) == Get(l, other) {
      PutOthers(l, symbol, amount, other);
    }
  }

  /** A win takes the debt down by its credited profit, up to ten cents, and clears what it covers. */
  lemma WinPaysDebt(l: Ledger, p: Params, symbol: string, requested: Option<real>, recorded: Option<real>, profit: real)
    requires NonNegative(l) && Unique(l) && profit >= 0.0
    ensures var l' := WinLedger(l, p, symbol, requested, recorded, profit);
            var credited := CreditedProfit(requested, recorded, profit);
            && NonNegative(l') && Unique(l') && credited >= 0.0
            && Abs(Total(l') - Max(0.0, Total(l) - credited)) <= 0.10
            && (Total(l) <= credited ==> Total(l') == 0.0)
  {
    var credited := CreditedProfit(requested, recorded, profit);
    WaterfallTotal(l, credited);
    WaterfallUnique(l, credited);
    hide Waterfall, Total, ApplyResidual, PayoffResidual;
    if recorded.Some? && recorded.value > 0.0 {
      ResidualEffect(Waterfall(l, credited), symbol, PayoffResidual(profit, recorded.value, ContractPayout(None, p)));
    }
  }

  /** A ledger that holds dust is wiped at the end of a cluster; any other is left alone. */
  lemma FinalizeDebt(p: Params, s: State)
    ensures Finalize(p, s).pending == if IsDust(p, s.pending) then [] else s.pending
  {
  }

  /** After a cluster the loss counter is zero exactly when the cluster did not lose and no debt or no loss was left. */
  lemma CounterFollowsDebt(p: Params, s: State)
    requires Solvent(s)
    ensures var f := Finalize(p, s);
            && f.linear >= 0 && f.linear <= s.linear + 1
            && (f.linear == 0 <==> Profits(s.results) >= 0.0 && (Total(f.pending) == 0.0 || s.linear == 0))
            && Total(s.pending) - Max(0.0, p.dustMax) <= Total(f.pending) <= Total(s.pending)
  {
    TotalNonNegative(s.pending);
    EmptyLedger();
    hide Total, Profits;
  }

  // ---------- Every step keeps the invariant ----------

  lemma LogGrows(log: seq<Event>, e: Event)
    ensures SessionTotal(log + [e]) == if e.SessionReset? then 0.0 else SessionTotal(log) + e.profit
    ensures forall symbol :: Outcomes(log + [e], symbol) ==
                             if e.Booked? && e.symbol == symbol then Outcomes(log, symbol) + [e.profit >= 0.0] else Outcomes(log, symbol)
    ensures forall c :: IsBooked(log + [e], c) <==> IsBooked(log, c) || (e.Booked? && e.cid == c)
    ensures BookedOnce(log + [e]) <==> BookedOnce(log) && (e.Booked? ==> !IsBooked(log, e.cid))
  {
    var longer := log + [e];
    assert longer[..|log|] == log && longer[|log|] == e;
    forall c ensures IsBooked(longer, c) <==> IsBooked(log, c) || (e.Booked? && e.cid == c) {
      if IsBooked(log, c) {
        var i :| 0 <= i < |log| && log[i].Booked? && log[i].cid == c;
        assert longer[i] == log[i];
      }
    }
    if BookedOnce(longer) {
      forall i, j | 0 <= i < j < |log| && log[i].Booked? && log[j].Booked? ensures log[i].cid != log[j].cid {
        assert longer[i] == log[i] && longer[j] == log[j];
      }
    }
  }

  /** The peak follows the log when it is raised to the newest total. */
  lemma PeakFollows(log: seq<Event>, e: Event, peak: real)
    requires IsPeak(log, peak)
    ensures IsPeak(log + [e], Max(peak, SessionTotal(log + [e])))
  {
    var longer := log + [e];
    var total := SessionTotal(longer);
    assert longer[..|longer|] == longer;
    forall i | 0 <= i <= |longer| ensures SessionTotal(longer[..i]) <= Max(peak, total) {
      if i <= |log| {
        assert longer[..i] == log[..i];
      }
    }
    if total <= peak {
      var i :| 0 <= i <= |log| && SessionTotal(log[..i]) == peak;
      assert longer[..i] == log[..i];
    } else {
      assert SessionTotal(longer[..|longer|]) == total;
    }
  }

  lemma LastNGrows<T>(s: seq<T>, x: T, n: nat)
    requires n > 0
    ensures LastN(LastN(s, n) + [x], n) == LastN(s + [x], n)
  {
  }

  lemma PeakNotNegative(log: seq<Event>, peak: real)
    requires IsPeak(log, peak)
    ensures peak >= 0.0
  {
    assert SessionTotal(log[..0]) == 0.0;
  }

  /** The accounts of a booked settlement, which the end of the cluster leaves untouched. */
  lemma BookAccounts(p: Params, w: World, profit: real, cid: int, symbol: string, tick: int, direction: Option<string>)
    requires Accounted(w)
    ensures Accounted(World(Book(p, w.s, profit, cid, symbol, tick, direction), w.log + [Booked(cid, symbol, profit)], w.known))
  {
    hide *;
    var e := Booked(cid, symbol, profit);
    AccountedParts(w);
    LogGrows(w.log, e);
    PeakFollows(w.log, e, w.s.peak);
    BookAmounts(p, w.s, profit, cid, symbol, tick, direction);
    RollingFollows(w.s.rolling, w.log, e);
    AccountedFrom(World(Book(p, w.s, profit, cid, symbol, tick, direction), w.log + [e], w.known));
  }

  ghost predicate RollingMatches(rolling: map<string, seq<bool>>, log: seq<Event>) {
    forall symbol :: RollingOf(rolling, symbol) == LastN(Outcomes(log, symbol), ROLLING_CAP)
  }

  lemma AccountedParts(w: World)
    requires Accounted(w)
    ensures w.s.sessionProfit == SessionTotal(w.log) && IsPeak(w.log, w.s.peak) && RollingMatches(w.s.rolling, w.log)
  {
  }

  lemma AccountedFrom(w: World)
    requires w.s.sessionProfit == SessionTotal(w.log) && IsPeak(w.log, w.s.peak) && RollingMatches(w.s.rolling, w.log)
    ensures Accounted(w)
  {
  }

  lemma RollingFollows(rolling: map<string, seq<bool>>, log: seq<Event>, e: Event)
    requires e.Booked? && RollingMatches(rolling, log)
    ensures RollingMatches(RecordOutcome(rolling, e.symbol, e.profit >= 0.0), log + [e])
  {
    LogGrows(log, e);
    LastNGrows(Outcomes(log, e.symbol), e.profit >= 0.0, ROLLING_CAP);
    hide Outcomes, LastN;
    var rolling' := RecordOutcome(rolling, e.symbol, e.profit >= 0.0);
    forall symbol ensures RollingOf(rolling', symbol) == LastN(Outcomes(log + [e], symbol), ROLLING_CAP) {
      assert RollingOf(rolling, symbol) == LastN(Outcomes(log, symbol), ROLLING_CAP);
    }
  }

  lemma BookPending(p: Params, s: State, profit: real, cid: int, symbol: string, tick: int, direction: Option<string>)
    ensures var requested, recorded := Lookup(s.requested, cid), Lookup(s.stakes, cid);
            Book(p, s, profit, cid, symbol, tick, direction).pending ==
            if profit < 0.0 then LossLedger(s.pending, symbol, requested, recorded, profit)
            else WinLedger(s.pending, p, symbol, requested, recorded, profit)
  {
    hide LossLedger, WinLedger, LossAmount, Lookup, RecordOutcome, Total;
  }

  lemma BookAmounts(p: Params, s: State, profit: real, cid: int, symbol: string, tick: int, direction: Option<string>)
    ensures var b := Book(p, s, profit, cid, symbol, tick, direction);
            && b.sessionProfit == s.sessionProfit + profit && b.peak == Max(s.peak, s.sessionProfit + profit)
            && b.rolling == RecordOutcome(s.rolling, symbol, profit >= 0.0)
  {
    hide LossLedger, WinLedger, LossAmount, Lookup, LastN, Total;
  }

  lemma BookSolvent(p: Params, s: State, profit: real, cid: int, symbol: string, tick: int, direction: Option<string>)
    requires Solvent(s)
    ensures Solvent(Book(p, s, profit, cid, symbol, tick, direction))
  {
    var recorded, requested := Lookup(s.stakes, cid), Lookup(s.requested, cid);
    if profit < 0.0 {
      LossAddsStake(s.pending, symbol, requested, recorded, profit);
    } else {
      WinPaysDebt(s.pending, p, symbol, requested, recorded, profit);
    }
    hide LossLedger, WinLedger, LossAmount, RecordOutcome, NonNegative, Unique, Total;
  }

  lemma FinalizeKeepsAccounts(p: Params, s: State)
    ensures var f := Finalize(p, s);
            && f.sessionProfit == s.sessionProfit && f.peak == s.peak && f.rolling == s.rolling
            && f.stakes == s.stakes && f.requested == s.requested
            && (Solvent(s) ==> Solvent(f))
  {
    hide Total, Profits, NonNegative, Unique;
    assert NonNegative([]) && Unique([]) by {
      EmptyLedger();
    }
  }

  lemma EmptyLedger()
    ensures NonNegative([]) && Unique([]) && Total([]) == 0.0
  {
  }

  /** Which contracts a booking leaves tracked. */
  lemma BookTracking(p: Params, s: State, profit: real, cid: int, symbol: string, tick: int, direction: Option<string>)
    ensures var b := Book(p, s, profit, cid, symbol, tick, direction);
            && b.symbolOf == s.symbolOf && b.expected == s.expected
            && |b.results| == |s.results| + 1
            && (forall c :: c in b.active <==> c in s.active && c != cid)
            && (forall c :: IsResult(b.results, c) <==> IsResult(s.results, c) || c == cid)
  {
    ResultOfConcat(s.results, [Booking(cid, profit)]);
    assert [Booking(cid, profit)][0].cid == cid;
    hide LossLedger, WinLedger, LossAmount, RecordOutcome, Total;
  }

  lemma SettleGuarded(p: Params, w: World, profit: real, cid: int, symbol: string, tick: int, direction: Option<string>)
    requires Guarded(w) && Accepts(w.s, cid)
    ensures Guarded(Apply(p, w, SettleStep(profit, cid, symbol, tick, direction)))
  {
    hide Book, ClusterDone, IsResult, IsBooked, BookedOnce, Finalize;
    BookTracking(p, w.s, profit, cid, symbol, tick, direction);
    LogGrows(w.log, Booked(cid, symbol, profit));
    var b := Book(p, w.s, profit, cid, symbol, tick, direction);
    if ClusterDone(b) {
      FinalizeTracking(p, b);
    }
  }

  lemma FinalizeTracking(p: Params, s: State)
    ensures var f := Finalize(p, s);
            f.active == [] && f.symbolOf == map[] && f.results == [] && forall c :: !IsResult(f.results, c)
  {
    hide ApplyClusterProfit, Profits;
  }

  lemma OpenKeepsInv(p: Params, w: World, step: Step)
    requires Inv(w) && step.OpenStep? && Admissible(w, step)
    ensures Inv(Apply(p, w, step))
  {
    hide IsResult, IsBooked, BookedOnce, Accounted, NonNegative, Unique;
    AccountedFrame(w, Apply(p, w, step));
  }

  /** The accounts depend on four fields of the state and on the log. */
  lemma AccountedFrame(w: World, w': World)
    requires w'.log == w.log && w'.s.sessionProfit == w.s.sessionProfit && w'.s.peak == w.s.peak && w'.s.rolling == w.s.rolling
    ensures Accounted(w) ==> Accounted(w')
  {
  }

  lemma SettleKeepsInv(p: Params, w: World, step: Step)
    requires Inv(w) && step.SettleStep?
    ensures Inv(Apply(p, w, step))
  {
    var SettleStep(profit, cid, symbol, tick, direction) := step;
    hide Book, Finalize, ClusterDone, Accounted, Solvent, Accepts;
    if Accepts(w.s, cid) {
      SettleGuarded(p, w, profit, cid, symbol, tick, direction);
      hide Guarded;
      BookAccounts(p, w, profit, cid, symbol, tick, direction);
      BookSolvent(p, w.s, profit, cid, symbol, tick, direction);
      var b := Book(p, w.s, profit, cid, symbol, tick, direction);
      FinalizeKeepsAccounts(p, b);
      AccountedFrame(World(b, w.log + [Booked(cid, symbol, profit)], w.known), Apply(p, w, step));
    }
  }

  lemma ResetKeepsInv(p: Params, w: World, step: Step)
    requires Inv(w) && step.ResetStep?
    ensures Inv(Apply(p, w, step))
  {
    LogGrows(w.log, SessionReset);
    PeakFollows(w.log, SessionReset, w.s.peak);
    PeakNotNegative(w.log, w.s.peak);
    EmptyLedger();
    hide IsResult, IsBooked, BookedOnce, NonNegative, Unique, Outcomes, SessionTotal, IsPeak;
  }

  lemma PruneKeepsInv(p: Params, w: World, step: Step)
    requires Inv(w) && (step.PruneStep? || step.AbandonStep? || step.BeginStep?) && Admissible(w, step)
    ensures Inv(Apply(p, w, step))
  {
    PruneKeepsGuard(p, w, step);
    AccountedFrame(w, Apply(p, w, step));
    hide Guarded, Accounted, NonNegative, Unique, KeepLive, DropResults, Settle, Finalize, Open, Reset, ClearDust;
  }

  lemma PruneKeepsGuard(p: Params, w: World, step: Step)
    requires Guarded(w) && (step.PruneStep? || step.AbandonStep? || step.BeginStep?) && Admissible(w, step)
    ensures Guarded(Apply(p, w, step))
  {
    hide IsResult, IsBooked, BookedOnce, Settle, Finalize, Open, Reset, ClearDust;
  }

  lemma DustKeepsInv(p: Params, w: World, step: Step)
    requires Inv(w) && step.DustStep?
    ensures Inv(Apply(p, w, step))
  {
    AccountedFrame(w, Apply(p, w, step));
    EmptyLedger();
    hide IsResult, IsBooked, BookedOnce, Accounted, NonNegative, Unique, IsDust;
  }

  /** One admissible step of any kind keeps the invariant. */
  lemma StepKeepsInv(p: Params, w: World, step: Step)
    requires Inv(w) && Admissible(w, step)
    ensures Inv(Apply(p, w, step))
  {
    hide Inv, Apply, Admissible;
    match step
    case OpenStep(_, _, _, _) => OpenKeepsInv(p, w, step);
    case SettleStep(_, _, _, _, _) => SettleKeepsInv(p, w, step);
    case ResetStep(_, _) => ResetKeepsInv(p, w, step);
    case BeginStep(_) => PruneKeepsInv(p, w, step);
    case PruneStep(_) => PruneKeepsInv(p, w, step);
    case AbandonStep => PruneKeepsInv(p, w, step);
    case DustStep => DustKeepsInv(p, w, step);
  }

  lemma StartInv()
    ensures Inv(START)
  {
    var log: seq<Event> := [];
    assert SessionTotal(log[..0]) == 0.0;
  }

  lemma {:induction false} RunKeepsInv(p: Params, w: World, steps: seq<Step>)
    requires Inv(w) && AdmissibleRun(p, w, steps)
    ensures Inv(Run(p, w, steps))
    decreases |steps|
  {
    hide Inv, Apply, Admissible;
    if steps != [] {
      StepKeepsInv(p, w, steps[0]);
      RunKeepsInv(p, Apply(p, w, steps[0]), steps[1..]);
    }
  }

  // ---------- What holds over every run ----------

  /**
   Over every admissible run each contract is booked at most once, the session profit is the sum of
   what was booked since the last reset, the peak is the largest total ever reached, the rolling
   window of each symbol is its last hundred outcomes, and no debt is negative.
   */
  lemma RunAccounting(p: Params, steps: seq<Step>)
    requires AdmissibleRun(p, START, steps)
    ensures var w := Run(p, START, steps);
            && BookedOnce(w.log)
            && w.s.sessionProfit == SessionTotal(w.log)
            && IsPeak(w.log, w.s.peak)
            && (forall symbol :: RollingOf(w.s.rolling, symbol) == LastN(Outcomes(w.log, symbol), ROLLING_CAP))
            && NonNegative(w.s.pending) && Unique(w.s.pending)
  {
    StartInv();
    RunKeepsInv(p, START, steps);
    hide *;
    InvParts(Run(p, START, steps));
  }

  lemma InvParts(w: World)
    requires Inv(w)
    ensures BookedOnce(w.log) && w.s.sessionProfit == SessionTotal(w.log) && IsPeak(w.log, w.s.peak)
    ensures forall symbol :: RollingOf(w.s.rolling, symbol) == LastN(Outcomes(w.log, symbol), ROLLING_CAP)
    ensures NonNegative(w.s.pending) && Unique(w.s.pending)
  {
  }

  /** Beginning a cluster keeps the invariant exactly when no result is left. */
  lemma BeginKeepsInv(p: Params, w: World, expected: int)
    requires Inv(w)
    ensures Inv(Apply(p, w, BeginStep(expected))) <==> w.s.results == []
  {
    if w.s.results == [] {
      StepKeepsInv(p, w, BeginStep(expected));
    } else {
      var cid := w.s.results[0].cid;
      assert IsResult(w.s.results, cid);
      assert !IsResult([], cid);
      hide IsResult, IsBooked, BookedOnce, Accounted, Solvent;
    }
  }

  /** Every continuation books each contract at most once. */
  ghost predicate NeverBooksTwice(p: Params, w: World) {
    forall steps :: AdmissibleRun(p, w, steps) ==> BookedOnce(Run(p, w, steps).log)
  }

  /**
   Beginning a cluster is safe exactly when no result of the previous cluster is left. Otherwise the
   settled contract is still mapped, and settling it again books its profit a second time.
   */
  lemma BeginIsSafe(p: Params, w: World, expected: int)
    requires Inv(w)
    ensures NeverBooksTwice(p, Apply(p, w, BeginStep(expected))) <==> w.s.results == []
  {
    var w' := Apply(p, w, BeginStep(expected));
    if w.s.results == [] {
      StepKeepsInv(p, w, BeginStep(expected));
      forall steps | AdmissibleRun(p, w', steps) ensures BookedOnce(Run(p, w', steps).log) {
        RunKeepsInv(p, w', steps);
        InvParts(Run(p, w', steps));
      }
    } else {
      var cid := w.s.results[0].cid;
      assert IsResult(w.s.results, cid);
      BooksAgain(p, w', cid);
    }
  }

  lemma BooksAgain(p: Params, w: World, cid: int)
    requires IsBooked(w.log, cid) && cid in w.s.symbolOf && w.s.results == []
    ensures !NeverBooksTwice(p, w)
  {
    var step := SettleStep(1.0, cid, w.s.symbolOf[cid], 0, None);
    var again := Apply(p, w, step);
    assert Accepts(w.s, cid);
    LogGrows(w.log, Booked(cid, w.s.symbolOf[cid], 1.0));
    hide Settle;
    RunOfOne(p, w, step);
    assert !BookedOnce(Run(p, w, [step]).log);
  }

  lemma RunOfOne(p: Params, w: World, step: Step)
    ensures Run(p, w, [step]) == Apply(p, w, step)
    ensures AdmissibleRun(p, w, [step]) <==> Admissible(w, step)
  {
    hide Apply, Admissible;
    assert [step][1..] == [];
    assert Run(p, Apply(p, w, step), []) == Apply(p, w, step);
  }

  /** The shortest such run: two fresh contracts, one settles, the next cluster begins too early. */
  function EarlyBeginRun(): seq<Step> {
    [OpenStep(1, "A", 1.0, Some(1.0)), OpenStep(2, "A", 1.0, Some(1.0)),
     SettleStep(0.9, 1, "A", 0, None), BeginStep(2), SettleStep(0.9, 1, "A", 0, None)]
  }

  lemma EarlyBeginBooksTwice(p: Params)
    ensures Run(p, START, EarlyBeginRun()).log == [Booked(1, "A", 0.9), Booked(1, "A", 0.9)]
  {
    var steps := EarlyBeginRun();
    var w2 := Apply(p, Apply(p, START, steps[0]), steps[1]);
    assert w2.s.active == [1, 2] && w2.log == [] && Accepts(w2.s, 1);
    BookTracking(p, w2.s, 0.9, 1, "A", 0, None);
    assert 2 in Book(p, w2.s, 0.9, 1, "A", 0, None).active;
    var w3 := Apply(p, w2, steps[2]);
    assert w3.log == [Booked(1, "A", 0.9)];
    var w4 := Apply(p, w3, steps[3]);
    assert w4.s.symbolOf == w2.s.symbolOf by {
      hide Book;
    }
    assert Accepts(w4.s, 1);
    var w5 := Apply(p, w4, steps[4]);
    assert w5.log == [Booked(1, "A", 0.9), Booked(1, "A", 0.9)];
    hide Apply;
    RunOfFive(p, START, steps);
  }

  /**
   Booking one contract stops the tracking of another open one exactly when it fills the cluster, so
   a contract beyond the expected number is never booked.
   */
  lemma FullClusterDropsOthers(p: Params, s: State, profit: real, cid: int, symbol: string, tick: int, direction: Option<string>, other: int)
    requires Accepts(s, cid) && other in s.active && other != cid
    ensures var s' := Settle(p, s, profit, cid, symbol, tick, direction);
            !Tracked(s', other) <==> s.expected > 0 && |s.results| + 1 >= s.expected
  {
    BookTracking(p, s, profit, cid, symbol, tick, direction);
    var b := Book(p, s, profit, cid, symbol, tick, direction);
    FinalizeTracking(p, b);
    hide Book, Finalize;
    assert other in b.active;
  }

  // ---------- Winning streaks ----------

  /** Two contracts in a cluster begun for one: the second settles as well, but is never booked. */
  function CrowdedRun(): seq<Step> {
    [OpenStep(1, "A", 1.0, Some(1.0)), OpenStep(2, "A", 1.0, Some(1.0)), BeginStep(1),
     SettleStep(0.9, 1, "A", 0, None), SettleStep(-1.0, 2, "A", 0, None)]
  }

  lemma SecondContractIsLost(p: Params)
    ensures AdmissibleRun(p, START, CrowdedRun())
    ensures var w := Run(p, START, CrowdedRun()); w.log == [Booked(1, "A", 0.9)] && !Tracked(w.s, 2)
  {
    var steps := CrowdedRun();
    var w2 := Apply(p, Apply(p, START, steps[0]), steps[1]);
    var w3 := Apply(p, w2, steps[2]);
    assert w3.s.active == [1, 2] && w3.s.results == [] && w3.s.expected == 1 && w3.log == [] && Accepts(w3.s, 1);
    BookTracking(p, w3.s, 0.9, 1, "A", 0, None);
    FinalizeTracking(p, Book(p, w3.s, 0.9, 1, "A", 0, None));
    var w4 := Apply(p, w3, steps[3]);
    assert w4.log == [Booked(1, "A", 0.9)] && !Tracked(w4.s, 2) by {
      hide Book, Finalize;
    }
    var w5 := Apply(p, w4, steps[4]);
    assert w5 == w4;
    assert Admissible(START, steps[0]) && Admissible(Apply(p, START, steps[0]), steps[1]) && Admissible(w2, steps[2]);
    hide Apply;
    RunOfFive(p, START, steps);
  }

  lemma RunOfFive(p: Params, w: World, steps: seq<Step>)
    requires |steps| == 5
    ensures var w2 := Apply(p, Apply(p, w, steps[0]), steps[1]);
            var w4 := Apply(p, Apply(p, w2, steps[2]), steps[3]);
            && Run(p, w, steps) == Apply(p, w4, steps[4])
            && (AdmissibleRun(p, w, steps) <==>
                && Admissible(w, steps[0]) && Admissible(Apply(p, w, steps[0]), steps[1]) && Admissible(w2, steps[2])
                && Admissible(Apply(p, w2, steps[2]), steps[3]) && Admissible(w4, steps[4]))
  {
    hide Apply, Admissible;
    var w1 := Apply(p, w, steps[0]);
    var w2 := Apply(p, w1, steps[1]);
    var w3 := Apply(p, w2, steps[2]);
    var w4 := Apply(p, w3, steps[3]);
    AdmissibleStep(p, w, steps);
    AdmissibleStep(p, w1, steps[1..]);
    AdmissibleStep(p, w2, steps[2..]);
    AdmissibleStep(p, w3, steps[3..]);
    AdmissibleStep(p, w4, steps[4..]);
    assert steps[5..] == [];
  }

  lemma AdmissibleStep(p: Params, w: World, steps: seq<Step>)
    requires steps != []
    ensures Run(p, w, steps) == Run(p, Apply(p, w, steps[0]), steps[1..])
    ensures AdmissibleRun(p, w, steps) <==> Admissible(w, steps[0]) && AdmissibleRun(p, Apply(p, w, steps[0]), steps[1..])
  {
    hide Apply, Admissible;
  }

  /** A step that books nothing, or a win credited with at least delta. */
  predicate WinOrQuiet(w: World, step: Step, delta: real) {
    match step
    case SettleStep(profit, cid, _, _, _) =>
      Accepts(w.s, cid) ==>
        profit >= 0.0 && CreditedProfit(Lookup(w.s.requested, cid), Lookup(w.s.stakes, cid), profit) >= delta
    case _ => true
  }

  predicate Streak(p: Params, w: World, steps: seq<Step>, delta: real)
    decreases |steps|
  {
    steps == [] || (WinOrQuiet(w, steps[0], delta) && Streak(p, Apply(p, w, steps[0]), steps[1..], delta))
  }

  /** How many settlements a run books. */
  function BookedWins(p: Params, w: World, steps: seq<Step>): nat
    decreases |steps|
  {
    if steps == [] then 0
    else
      (if steps[0].SettleStep? && Accepts(w.s, steps[0].cid) then 1 else 0)
      + BookedWins(p, Apply(p, w, steps[0]), steps[1..])
  }

  lemma StreakStep(p: Params, w: World, step: Step, delta: real)
    requires Solvent(w.s) && delta > 0.10 && WinOrQuiet(w, step, delta)
    requires step.OpenStep? ==> step.stake >= 0.0 && (step.planned.Some? ==> step.planned.value >= 0.0)
    ensures var s' := Apply(p, w, step).s;
            var booked := step.SettleStep? && Accepts(w.s, step.cid);
            Solvent(s') && Total(s'.pending) <= Max(0.0, Total(w.s.pending) - if booked then delta - 0.10 else 0.0)
  {
    hide *;
    SolventNotNegative(w.s);
    if step.SettleStep? && Accepts(w.s, step.cid) {
      StreakSettle(p, w, step, delta);
    } else {
      QuietStep(p, w, step);
      EmptyLedger();
      QuietBound(Total(w.s.pending));
    }
  }

  /** A step that books nothing leaves the debt alone or forgives it. */
  lemma QuietStep(p: Params, w: World, step: Step)
    requires Solvent(w.s) && !(step.SettleStep? && Accepts(w.s, step.cid))
    requires step.OpenStep? ==> step.stake >= 0.0 && (step.planned.Some? ==> step.planned.value >= 0.0)
    ensures var s' := Apply(p, w, step).s;
            Solvent(s') && (s'.pending == w.s.pending || s'.pending == [])
  {
    EmptyLedger();
    hide Book, Finalize, Accepts, NonNegative, Unique, Total, IsDust;
  }

  lemma QuietBound(total: real)
    ensures total >= 0.0 ==> 0.0 <= Max(0.0, total - 0.0) && total <= Max(0.0, total - 0.0)
  {
  }

  lemma StreakSettle(p: Params, w: World, step: Step, delta: real)
    requires Solvent(w.s) && delta > 0.10 && WinOrQuiet(w, step, delta)
    requires step.SettleStep? && Accepts(w.s, step.cid)
    ensures var s' := Apply(p, w, step).s;
            Solvent(s') && Total(s'.pending) <= Max(0.0, Total(w.s.pending) - (delta - 0.10))
  {
    var SettleStep(profit, cid, symbol, tick, direction) := step;
    var requested, recorded := Lookup(w.s.requested, cid), Lookup(w.s.stakes, cid);
    var b := Book(p, w.s, profit, cid, symbol, tick, direction);
    hide *;
    StreakCredit(w, step, delta);
    BookPending(p, w.s, profit, cid, symbol, tick, direction);
    BookSolvent(p, w.s, profit, cid, symbol, tick, direction);
    SolventLedger(w.s);
    WinPaysDebt(w.s.pending, p, symbol, requested, recorded, profit);
    SolventNotNegative(w.s);
    SolventNotNegative(b);
    MaxFacts(Total(w.s.pending), delta, CreditedProfit(requested, recorded, profit), Total(b.pending));
    FinalizedDebt(p, b);
    ApplySettle(p, w, step);
  }

  lemma FinalizedDebt(p: Params, b: State)
    requires Solvent(b)
    ensures Solvent(Finalize(p, b)) && Total(b.pending) >= Total(Finalize(p, b).pending)
  {
    hide *;
    FinalizeKeepsAccounts(p, b);
    FinalizeDebt(p, b);
    SolventNotNegative(b);
    EmptyLedger();
  }

  lemma SolventNotNegative(s: State)
    requires Solvent(s)
    ensures Total(s.pending) >= 0.0
  {
    TotalNonNegative(s.pending);
  }

  lemma StreakCredit(w: World, step: Step, delta: real)
    requires WinOrQuiet(w, step, delta) && step.SettleStep? && Accepts(w.s, step.cid)
    ensures step.profit >= 0.0
    ensures CreditedProfit(Lookup(w.s.requested, step.cid), Lookup(w.s.stakes, step.cid), step.profit) >= delta
  {
    hide Accepts, CreditedProfit, Lookup;
  }

  lemma SolventLedger(s: State)
    requires Solvent(s)
    ensures NonNegative(s.pending) && Unique(s.pending)
  {
  }

  lemma ApplySettle(p: Params, w: World, step: Step)
    requires step.SettleStep? && Accepts(w.s, step.cid)
    ensures var b := Book(p, w.s, step.profit, step.cid, step.symbol, step.tick, step.direction);
            Apply(p, w, step).s == if ClusterDone(b) then Finalize(p, b) else b
  {
    hide Book, Finalize, ClusterDone, Accepts;
  }

  lemma MaxFacts(total: real, delta: real, credited: real, after: real)
    requires total >= 0.0 && credited >= delta > 0.10 && after >= 0.0
    requires Abs(after - Max(0.0, total - credited)) <= 0.10 && (total <= credited ==> after == 0.0)
    ensures after <= Max(0.0, total - (delta - 0.10)) && 0.0 <= Max(0.0, total - (delta - 0.10))
  {
  }

  lemma StreakAlgebra(total: real, after: real, last: real, gain: real, wins: nat, booked: bool)
    requires gain > 0.0 && total >= 0.0 && after >= 0.0
    requires after <= Max(0.0, total - if booked then gain else 0.0)
    requires last <= Max(0.0, after - Times(wins as real, gain))
    ensures last <= Max(0.0, total - Times((wins + if booked then 1 else 0) as real, gain))
  {
    TimesSuccessor(wins, gain);
    hide Times;
  }

  /** A run of wins takes the debt down by at least delta less ten cents for each booked win. */
  lemma {:induction false} StreakPaysDebt(p: Params, w: World, steps: seq<Step>, delta: real)
    requires Solvent(w.s) && delta > 0.10
    requires AdmissibleRun(p, w, steps) && Streak(p, w, steps, delta)
    ensures Solvent(Run(p, w, steps).s)
    ensures Total(Run(p, w, steps).s.pending) <=
            Max(0.0, Total(w.s.pending) - Times(BookedWins(p, w, steps) as real, delta - 0.10))
    decreases |steps|
  {
    hide Solvent, Apply, WinOrQuiet, Accepts, Times, Total;
    SolventTotal(w.s);
    if steps == [] {
      TimesSuccessor(0, delta - 0.10);
    } else {
      var w' := Apply(p, w, steps[0]);
      AdmissibleStake(w, steps[0]);
      StreakStep(p, w, steps[0], delta);
      SolventTotal(w'.s);
      StreakPaysDebt(p, w', steps[1..], delta);
      StreakAlgebra(Total(w.s.pending), Total(w'.s.pending), Total(Run(p, w, steps).s.pending), delta - 0.10,
                    BookedWins(p, w', steps[1..]), steps[0].SettleStep? && Accepts(w.s, steps[0].cid));
    }
  }

  lemma AdmissibleStake(w: World, step: Step)
    requires Admissible(w, step)
    ensures step.OpenStep? ==> step.stake >= 0.0 && (step.planned.Some? ==> step.planned.value >= 0.0)
  {
  }

  lemma SolventTotal(s: State)
    requires Solvent(s)
    ensures Total(s.pending) >= 0.0
    ensures Total(s.pending) == 0.0 ==> forall i :: 0 <= i < |s.pending| ==> s.pending[i].amount == 0.0
  {
    TotalNonNegative(s.pending);
  }

  /** Wins each credited with at least delta clear the whole debt within ceil(total / (delta - 0.10)) bookings. */
  lemma StreakClearsDebt(p: Params, w: World, steps: seq<Step>, delta: real)
    requires Solvent(w.s) && delta > 0.10
    requires AdmissibleRun(p, w, steps) && Streak(p, w, steps, delta)
    ensures BookedWins(p, w, steps) >= Ceil(Total(w.s.pending) / (delta - 0.10)) ==>
              var l := Run(p, w, steps).s.pending; forall i :: 0 <= i < |l| ==> l[i].amount == 0.0
  {
    hide *;
    StreakPaysDebt(p, w, steps, delta);
    SolventTotal(Run(p, w, steps).s);
    if BookedWins(p, w, steps) >= Ceil(Total(w.s.pending) / (delta - 0.10)) {
      EnoughWins(Total(w.s.pending), delta - 0.10, BookedWins(p, w, steps), Total(Run(p, w, steps).s.pending));
    }
  }

  lemma EnoughWins(total: real, gain: real, wins: nat, last: real)
    requires gain > 0.0 && wins >= Ceil(total / gain)
    requires 0.0 <= last <= Max(0.0, total - Times(wins as real, gain))
    ensures last == 0.0
  {
    var q := total / gain;
    assert q * gain == total;
    assert q <= Ceil(q) as real <= wins as real;
    assert q * gain <= wins as real * gain;
  }
}
