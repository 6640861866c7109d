/**
 The risk manager as the program holds it: an object whose fields the settlement of contracts
 updates in place. Every method leaves the object in the state that the specification functions of
 module Settlement prescribe, and keeps a ghost log of what was booked.
 */
module RiskManagement {
  import opened Numeric
  import opened PendingLoss
  import opened Settlement
  import opened Trading

  class RiskManager {
    const params: Params
    var pendingLoss: Ledger
    var totalSessionProfit: real
    var peakSessionProfit: real
    var lastResultTick: int
    var consecutiveLossesLinear: int
    var linearResetOccurred: bool
    var lastLossStake: real
    var lastLossSymbol: Option<string>
    var lastLossDirection: Option<string>
    var rollingWins: map<string, seq<bool>>
    var contractStakes: map<int, real>
    var contractRequestedStakes: map<int, real>
    var activeContractIds: seq<int>
    var contractToSymbol: map<int, string>
    var clusterResults: seq<Booking>
    var expectedClusterSettlements: int
    var initialBankroll: real
    var dailyStopWinTarget: real
    var dlambertUnit: real

    ghost var log: seq<Event>
    ghost var known: set<int>

    ghost function Now(): State
      reads this
    {
      State(pendingLoss, totalSessionProfit, peakSessionProfit, lastResultTick, consecutiveLossesLinear,
            linearResetOccurred, lastLossStake, lastLossSymbol, lastLossDirection, rollingWins,
            contractStakes, contractRequestedStakes, activeContractIds, contractToSymbol, clusterResults,
            expectedClusterSettlements, initialBankroll, dailyStopWinTarget, dlambertUnit)
    }

    ghost function World(): World
      reads this
    {
      Settlement.World(Now(), log, known)
    }

    ghost predicate Valid()
      reads this
    {
      Inv(World())
    }

    constructor (params: Params)
      ensures this.params == params && World() == START && Valid()
    {
      this.params := params;
      pendingLoss, totalSessionProfit, peakSessionProfit, lastResultTick := [], 0.0, 0.0, 0;
      consecutiveLossesLinear, linearResetOccurred := 0, false;
      lastLossStake, lastLossSymbol, lastLossDirection := 0.0, None, None;
      rollingWins, contractStakes, contractRequestedStakes := map[], map[], map[];
      activeContractIds, contractToSymbol, clusterResults, expectedClusterSettlements := [], map[], [], 0;
      initialBankroll, dailyStopWinTarget, dlambertUnit := 0.0, 0.0, 0.0;
      log, known := [], {};
      new;
      StartInv();
    }

    method ResetSession(bankroll: real, target: real)
      requires Valid()
      modifies this
      ensures World() == Apply(params, old(World()), ResetStep(bankroll, target)) && Valid()
    {
      StepKeepsInv(params, World(), ResetStep(bankroll, target));
      ApplyOther(params, World(), bankroll, target, {});
      WorldForm(this);
      hide *;
      Restart(bankroll, target);
      log := log + [SessionReset];
      WorldForm(this);
    }

    method Restart(bankroll: real, target: real)
      modifies this`totalSessionProfit, this`initialBankroll, this`dailyStopWinTarget, this`dlambertUnit,
               this`consecutiveLossesLinear, this`pendingLoss
      ensures Now() == Reset(old(Now()), bankroll, target)
    {
      NowForm(this);
      ResetForm(Now(), bankroll, target);
      hide *;
      totalSessionProfit := 0.0;
      initialBankroll := bankroll;
      dailyStopWinTarget := Max(0.0, target);
      dlambertUnit := 0.0;
      consecutiveLossesLinear := 0;
      pendingLoss := [];
      NowForm(this);
    }

    /** Safe only when no result of the previous cluster is left, which the caller has to see to. */
    method BeginCluster(expectedSettlements: int)
      requires Valid()
      modifies this
      ensures World() == Apply(params, old(World()), BeginStep(expectedSettlements))
      ensures Valid() <==> old(clusterResults) == []
    {
      BeginKeepsInv(params, World(), expectedSettlements);
      hide Inv;
      expectedClusterSettlements := MaxInt(0, expectedSettlements);
      clusterResults := [];
    }

    method RecordContractStake(cid: int, stake: real, requested: Option<real>)
      modifies this`contractStakes, this`contractRequestedStakes
      ensures contractStakes == old(contractStakes)[cid := stake]
      ensures contractRequestedStakes == old(contractRequestedStakes)[cid := if requested.Some? then requested.value else stake]
    {
      contractStakes := contractStakes[cid := stake];
      var planned := if requested.Some? then requested.value else stake;
      contractRequestedStakes := contractRequestedStakes[cid := planned];
    }

    /**
     A purchase confirmed by the broker is tracked once: not when its settlement came first, and not again when it is
     already among the open contracts.
     */
    method RegisterConfirmed(cid: int, symbol: string, stake: real, requested: Option<real>, settledBefore: bool, alreadyOpen: bool)
      returns (open: bool)
      requires Valid() && stake >= 0.0 && (requested.Some? ==> requested.value >= 0.0)
      requires !settledBefore && !alreadyOpen ==> cid !in known
      modifies this
      ensures var planned := if requested.Some? then requested.value else stake;
              World() == if settledBefore || alreadyOpen then old(World())
                         else Apply(params, old(World()), OpenStep(cid, symbol, stake, Some(planned)))
      ensures Valid() && (open <==> !settledBefore)
    {
      if settledBefore {
        return false;
      }
      if alreadyOpen {
        return true;
      }
      RegisterNew(cid, symbol, stake, requested);
      open := true;
    }

    method RegisterNew(cid: int, symbol: string, stake: real, requested: Option<real>)
      requires Valid() && cid !in known && stake >= 0.0 && (requested.Some? ==> requested.value >= 0.0)
      modifies this
      ensures var planned := if requested.Some? then requested.value else stake;
              World() == Apply(params, old(World()), OpenStep(cid, symbol, stake, Some(planned)))
      ensures Valid()
    {
      ghost var step := OpenStep(cid, symbol, stake, Some(if requested.Some? then requested.value else stake));
      StepKeepsInv(params, World(), step);
      hide Inv, IsResult, Settle, Begin, Reset, Prune;
      Track(cid, symbol, stake, requested);
      known := known + {cid};
    }

    method Track(cid: int, symbol: string, stake: real, requested: Option<real>)
      modifies this`contractToSymbol, this`contractStakes, this`contractRequestedStakes, this`activeContractIds
      ensures Now() == Open(old(Now()), cid, symbol, stake, Some(if requested.Some? then requested.value else stake))
    {
      contractToSymbol := contractToSymbol[cid := symbol];
      RecordContractStake(cid, stake, requested);
      if cid !in activeContractIds {
        activeContractIds := activeContractIds + [cid];
      }
    }

    /** A micro-hedge order: its stake is recorded, a planned stake is not. */
    method AttachHedge(cid: int, symbol: string, stake: real)
      requires Valid() && cid !in known && stake >= 0.0
      modifies this
      ensures World() == Apply(params, old(World()), OpenStep(cid, symbol, stake, None)) && Valid()
    {
      StepKeepsInv(params, World(), OpenStep(cid, symbol, stake, None));
      assert cid !in activeContractIds;
      hide Inv;
      activeContractIds := activeContractIds + [cid];
      contractToSymbol := contractToSymbol[cid := symbol];
      contractStakes := contractStakes[cid := stake];
      known := known + {cid};
    }

    /** Gives up waiting: the contracts stay mapped, so that they can still settle late. */
    method AbandonActive()
      requires Valid()
      modifies this
      ensures World() == Apply(params, old(World()), AbandonStep) && Valid()
    {
      StepKeepsInv(params, World(), AbandonStep);
      hide Inv;
      activeContractIds := [];
    }

    method PruneOrphans(live: set<int>)
      requires Valid()
      modifies this
      ensures World() == Apply(params, old(World()), PruneStep(live)) && Valid()
    {
      StepKeepsInv(params, World(), PruneStep(live));
      ApplyOther(params, World(), 0.0, 0.0, live);
      WorldForm(this);
      hide *;
      ForgetOrphans(live);
      WorldForm(this);
    }

    method ForgetOrphans(live: set<int>)
      modifies this`activeContractIds, this`contractToSymbol, this`clusterResults
      ensures Now() == Prune(old(Now()), live)
    {
      hide KeepLive, DropResults;
      var orphans := set c | c in activeContractIds && c !in live;
      activeContractIds := KeepLive(activeContractIds, live);
      contractToSymbol := contractToSymbol - orphans;
      clusterResults := DropResults(clusterResults, orphans);
    }

    method RecordTradeOutcome(symbol: string, won: bool)
      modifies this`rollingWins
      ensures rollingWins == RecordOutcome(old(rollingWins), symbol, won)
    {
      var outcomes := RollingOf(rollingWins, symbol) + [won];
      if |outcomes| > 100 {
        outcomes := outcomes[|outcomes| - 100..];
      }
      rollingWins := rollingWins[symbol := outcomes];
    }

    method RecordLossContext(symbol: string, direction: Option<string>)
      modifies this`lastLossSymbol, this`lastLossDirection
      ensures lastLossSymbol == Some(symbol)
      ensures lastLossDirection == if direction.Some? && direction.value != "" then direction else old(lastLossDirection)
    {
      lastLossSymbol := Some(symbol);
      if direction.Some? && direction.value != "" {
        lastLossDirection := direction;
      }
    }

    /** Pays the entries off in insertion order until the profit is spent. */
    method ApplyWinToPendingLoss(profit: real)
      modifies this`pendingLoss
      ensures pendingLoss == Waterfall(old(pendingLoss), profit)
    {
      hide Waterfall;
      var remaining, i := profit, 0;
      ghost var before := pendingLoss;
      while i < |pendingLoss| && remaining > 0.0
        invariant 0 <= i <= |pendingLoss| == |before|
        invariant pendingLoss[i..] == before[i..]
        invariant pendingLoss[..i] + Waterfall(before[i..], remaining) == Waterfall(before, profit)
      {
        var entry := pendingLoss[i];
        WaterfallHead(before[i..], remaining);
        assert before[i..][0] == entry && before[i..][1..] == before[i + 1..];
        ghost var paid := pendingLoss[..i];
        if entry.amount <= remaining {
          remaining := remaining - entry.amount;
          pendingLoss := pendingLoss[i := Entry(entry.symbol, 0.0)];
        } else {
          pendingLoss := pendingLoss[i := Entry(entry.symbol, entry.amount - remaining)];
          remaining := 0.0;
        }
        assert pendingLoss[..i + 1] == paid + [pendingLoss[i]];
        i := i + 1;
      }
      assert pendingLoss[..i] + pendingLoss[i..] == pendingLoss;
      WaterfallDone(before[i..], remaining);
    }

    method ApplyFractionalResidual(symbol: string, residual: real)
      modifies this`pendingLoss
      ensures pendingLoss == ApplyResidual(old(pendingLoss), symbol, residual)
    {
      if residual == 0.0 {
        return;
      }
      var current := Get(pendingLoss, symbol);
      if residual < 0.0 && Abs(residual) <= 0.10 && current <= 0.0 {
        pendingLoss := Pop(pendingLoss, symbol);
        return;
      }
      var updated := Max(0.0, current - residual);
      if updated <= 0.0 {
        pendingLoss := Pop(pendingLoss, symbol);
      } else {
        pendingLoss := Put(pendingLoss, symbol, updated);
      }
    }

    method ClearDustPendingLoss() returns (cleared: bool)
      modifies this`pendingLoss, this`consecutiveLossesLinear, this`lastLossStake
      ensures cleared == IsDust(params, old(pendingLoss))
      ensures cleared ==> pendingLoss == [] && consecutiveLossesLinear == 0 && lastLossStake == 0.0
      ensures Now() == ClearDust(params, old(Now()))
    {
      var total := Total(pendingLoss);
      if total <= 0.0 || total > params.dustMax {
        return false;
      }
      pendingLoss := [];
      consecutiveLossesLinear := 0;
      lastLossStake := 0.0;
      return true;
    }

    method ApplyPartialWinRetraction()
      modifies this`consecutiveLossesLinear
      ensures consecutiveLossesLinear ==
              if old(consecutiveLossesLinear) <= 0 then old(consecutiveLossesLinear) else MaxInt(1, old(consecutiveLossesLinear) - 1)
    {
      var linear := consecutiveLossesLinear;
      if linear <= 0 {
        return;
      }
      consecutiveLossesLinear := MaxInt(1, linear - 1);
    }

    method ApplyClusterProfitToRecovery(clusterProfit: real)
      requires consecutiveLossesLinear >= 0
      modifies this`pendingLoss, this`consecutiveLossesLinear, this`lastLossStake, this`linearResetOccurred
      ensures Now() == ApplyClusterProfit(params, old(Now()), clusterProfit)
    {
      hide Total;
      EmptyLedger();
      var linearBefore := consecutiveLossesLinear;
      var dustCleared := ClearDustPendingLoss();
      var pending := Total(pendingLoss);
      var linear := consecutiveLossesLinear;
      if clusterProfit < 0.0 {
        consecutiveLossesLinear := linear + 1;
        return;
      }
      if dustCleared {
        linearResetOccurred := true;
        return;
      }
      if pending > 0.0 {
        ApplyPartialWinRetraction();
        return;
      }
      consecutiveLossesLinear := 0;
      lastLossStake := 0.0;
      if linearBefore > 0 || linear > 0 {
        linearResetOccurred := true;
      }
    }

    method FinalizeCluster()
      requires consecutiveLossesLinear >= 0
      modifies this`pendingLoss, this`consecutiveLossesLinear, this`lastLossStake, this`linearResetOccurred,
               this`activeContractIds, this`contractToSymbol, this`clusterResults, this`expectedClusterSettlements
      ensures Now() == Finalize(params, old(Now())) && log == old(log) && known == old(known)
    {
      var clusterProfit := Profits(clusterResults);
      ApplyClusterProfitToRecovery(clusterProfit);
      activeContractIds := [];
      contractToSymbol := map[];
      clusterResults := [];
      expectedClusterSettlements := 0;
    }

    /** The change of the ledger when the settled contract lost. */
    method BookLoss(profit: real, symbol: string, recorded: Option<real>, requested: Option<real>, direction: Option<string>)
      modifies this`pendingLoss, this`lastLossStake, this`lastLossSymbol, this`lastLossDirection
      ensures pendingLoss == LossLedger(old(pendingLoss), symbol, requested, recorded, profit)
      ensures lastLossStake == LossStake(requested, recorded, profit)
      ensures lastLossSymbol == Some(symbol)
      ensures lastLossDirection == LossDirection(direction, old(lastLossDirection))
    {
      var loss;
      if requested.Some? && requested.value > 0.0 {
        loss := requested.value;
      } else if recorded.Some? {
        loss := recorded.value;
      } else {
        loss := Abs(profit);
      }
      pendingLoss := Put(pendingLoss, symbol, Get(pendingLoss, symbol) + loss);
      lastLossStake := if recorded.Some? && recorded.value != 0.0 then recorded.value else loss;
      RecordLossContext(symbol, direction);
    }

    /** The change of the ledger when the settled contract won. */
    method BookWin(profit: real, symbol: string, recorded: Option<real>, requested: Option<real>)
      modifies this`pendingLoss, this`lastLossStake
      ensures pendingLoss == WinLedger(old(pendingLoss), params, symbol, requested, recorded, profit)
      ensures lastLossStake == if Total(pendingLoss) <= 0.0 then 0.0 else old(lastLossStake)
    {
      var recoveryProfit := profit;
      if requested.Some? && recorded.Some? {
        var downgrade := Max(0.0, requested.value - recorded.value);
        recoveryProfit := Max(0.0, recoveryProfit - downgrade);
      }
      ApplyWinToPendingLoss(recoveryProfit);
      if recorded.Some? && recorded.value > 0.0 {
        var rate := ContractPayout(None, params);
        ApplyFractionalResidual(symbol, PayoffResidual(profit, recorded.value, rate));
      }
      if Total(pendingLoss) <= 0.0 {
        lastLossStake := 0.0;
      }
    }

    /** Books a settlement once, and finalises the cluster when it is complete. */
    method RegisterResult(profit: real, cid: int, symbol: string, tick: int, direction: Option<string>)
      requires Valid()
      modifies this
      ensures World() == Apply(params, old(World()), SettleStep(profit, cid, symbol, tick, direction)) && Valid()
    {
      ghost var step := SettleStep(profit, cid, symbol, tick, direction);
      StepKeepsInv(params, World(), step);
      SettleForm(params, World(), profit, cid, symbol, tick, direction);
      WorldForm(this);
      hide *;
      if IsResult(clusterResults, cid) {
        return;
      }
      var tracked := cid in activeContractIds;
      var late := !tracked && cid in contractToSymbol;
      if !tracked && !late {
        return;
      }
      Register(profit, cid, symbol, tick, direction);
      CloseIfComplete();
      log := log + [Booked(cid, symbol, profit)];
      WorldForm(this);
    }

    /** Finalises the cluster when it is full, or when nothing is left open. */
    method CloseIfComplete()
      requires consecutiveLossesLinear >= 0
      modifies this`pendingLoss, this`consecutiveLossesLinear, this`lastLossStake, this`linearResetOccurred,
               this`activeContractIds, this`contractToSymbol, this`clusterResults, this`expectedClusterSettlements
      ensures Now() == if ClusterDone(old(Now())) then Finalize(params, old(Now())) else old(Now())
      ensures log == old(log) && known == old(known)
    {
      hide Finalize;
      var expected := expectedClusterSettlements;
      var clusterDone := expected > 0 && |clusterResults| >= expected;
      var idleDone := activeContractIds == [] && clusterResults != [];
      if clusterDone || idleDone {
        FinalizeCluster();
      }
    }

    /** The booking itself, before the cluster is looked at. */
    method Register(profit: real, cid: int, symbol: string, tick: int, direction: Option<string>)
      modifies this
      ensures Now() == Book(params, old(Now()), profit, cid, symbol, tick, direction)
      ensures log == old(log) && known == old(known) && consecutiveLossesLinear == old(consecutiveLossesLinear)
    {
      BookInSteps(params, Now(), profit, cid, symbol, tick, direction);
      NowForm(this);
      hide *;
      var recorded, requested := Lookup(contractStakes, cid), Lookup(contractRequestedStakes, cid);
      Take(profit, cid, symbol, tick);
      if profit < 0.0 {
        Lose(profit, symbol, recorded, requested, direction);
      } else {
        Win(profit, symbol, recorded, requested);
      }
    }

    method Take(profit: real, cid: int, symbol: string, tick: int)
      modifies this
      ensures Now() == Taken(old(Now()), profit, cid, symbol, tick)
      ensures log == old(log) && known == old(known) && consecutiveLossesLinear == old(consecutiveLossesLinear)
    {
      TakenForm(Now(), profit, cid, symbol, tick);
      NowForm(this);
      hide *;
      TakeResult(profit, cid, symbol, tick);
      NowForm(this);
    }

    method Lose(profit: real, symbol: string, recorded: Option<real>, requested: Option<real>, direction: Option<string>)
      modifies this
      ensures Now() == Lost(old(Now()), profit, symbol, recorded, requested, direction)
      ensures log == old(log) && known == old(known) && consecutiveLossesLinear == old(consecutiveLossesLinear)
    {
      BookLoss(profit, symbol, recorded, requested, direction);
      hide LossLedger, LossStake, LossDirection;
    }

    method Win(profit: real, symbol: string, recorded: Option<real>, requested: Option<real>)
      modifies this
      ensures Now() == Won(params, old(Now()), profit, symbol, recorded, requested)
      ensures log == old(log) && known == old(known) && consecutiveLossesLinear == old(consecutiveLossesLinear)
    {
      BookWin(profit, symbol, recorded, requested);
      hide WinLedger, Total;
    }

    /** Moves the contract from the open ones to the results and adds up its profit. */
    method TakeResult(profit: real, cid: int, symbol: string, tick: int)
      modifies this`contractStakes, this`contractRequestedStakes, this`clusterResults, this`totalSessionProfit,
               this`peakSessionProfit, this`lastResultTick, this`rollingWins, this`activeContractIds
      ensures contractStakes == old(contractStakes) - {cid} && contractRequestedStakes == old(contractRequestedStakes) - {cid}
      ensures clusterResults == old(clusterResults) + [Booking(cid, profit)]
      ensures totalSessionProfit == old(totalSessionProfit) + profit
      ensures peakSessionProfit == Max(old(peakSessionProfit), totalSessionProfit) && lastResultTick == tick
      ensures activeContractIds == Without(old(activeContractIds), cid)
      ensures rollingWins == RecordOutcome(old(rollingWins), symbol, profit >= 0.0)
    {
      hide RecordOutcome, Without, Max;
      contractStakes := contractStakes - {cid};
      contractRequestedStakes := contractRequestedStakes - {cid};
      clusterResults := clusterResults + [Booking(cid, profit)];
      totalSessionProfit := totalSessionProfit + profit;
      peakSessionProfit := Max(peakSessionProfit, totalSessionProfit);
      lastResultTick := tick;
      RecordTradeOutcome(symbol, profit >= 0.0);
      activeContractIds := Without(activeContractIds, cid);
    }
  }

  lemma ResetForm(s: State, bankroll: real, target: real)
    ensures Reset(s, bankroll, target) ==
            State([], 0.0, s.peak, s.lastTick, 0, s.linearReset, s.lastLossStake, s.lastLossSymbol, s.lastLossDirection,
                  s.rolling, s.stakes, s.requested, s.active, s.symbolOf, s.results, s.expected, bankroll, Max(0.0, target), 0.0)
  {
  }

  lemma ApplyOther(p: Params, w: World, bankroll: real, target: real, live: set<int>)
    ensures Apply(p, w, ResetStep(bankroll, target)) == Settlement.World(Reset(w.s, bankroll, target), w.log + [SessionReset], w.known)
    ensures Apply(p, w, PruneStep(live)) == Settlement.World(Prune(w.s, live), w.log, w.known)
  {
    hide Reset, Prune;
  }

  lemma WorldForm(rm: RiskManager)
    ensures rm.World() == Settlement.World(rm.Now(), rm.log, rm.known) && (rm.Valid() <==> Inv(rm.World()))
    ensures rm.Now().results == rm.clusterResults && rm.Now().active == rm.activeContractIds
    ensures rm.Now().symbolOf == rm.contractToSymbol && rm.Now().linear == rm.consecutiveLossesLinear
  {
    hide Inv;
  }

  lemma NowForm(rm: RiskManager)
    ensures rm.Now() == State(rm.pendingLoss, rm.totalSessionProfit, rm.peakSessionProfit, rm.lastResultTick,
                              rm.consecutiveLossesLinear, rm.linearResetOccurred, rm.lastLossStake, rm.lastLossSymbol,
                              rm.lastLossDirection, rm.rollingWins, rm.contractStakes, rm.contractRequestedStakes,
                              rm.activeContractIds, rm.contractToSymbol, rm.clusterResults, rm.expectedClusterSettlements,
                              rm.initialBankroll, rm.dailyStopWinTarget, rm.dlambertUnit)
  {
  }

  // ---------- Booking in steps ----------

  /** The contract has moved to the results and its profit is added up. */
  function Taken(s: State, profit: real, cid: int, symbol: string, tick: int): State {
    s.(stakes := s.stakes - {cid}, requested := s.requested - {cid}, results := s.results + [Booking(cid, profit)],
    sessionProfit := s.sessionProfit + profit, peak := Max(s.peak, s.sessionProfit + profit), lastTick := tick,
    active := Without(s.active, cid), rolling := RecordOutcome(s.rolling, symbol, profit >= 0.0))
  }

  function Lost(s: State, profit: real, symbol: string, recorded: Option<real>, requested: Option<real>, direction: Option<string>): State {
    s.(pending := LossLedger(s.pending, symbol, requested, recorded, profit), lastLossStake := LossStake(requested, recorded, profit),
    lastLossSymbol := Some(symbol), lastLossDirection := LossDirection(direction, s.lastLossDirection))
  }

  function Won(p: Params, s: State, profit: real, symbol: string, recorded: Option<real>, requested: Option<real>): State {
    var paid := WinLedger(s.pending, p, symbol, requested, recorded, profit);
    s.(pending := paid, lastLossStake := if Total(paid) <= 0.0 then 0.0 else s.lastLossStake)
  }

  lemma BookInSteps(p: Params, s: State, profit: real, cid: int, symbol: string, tick: int, direction: Option<string>)
    ensures var recorded, requested := Lookup(s.stakes, cid), Lookup(s.requested, cid);
            var taken := Taken(s, profit, cid, symbol, tick);
            Book(p, s, profit, cid, symbol, tick, direction) ==
            if profit < 0.0 then Lost(taken, profit, symbol, recorded, requested, direction)
            else Won(p, taken, profit, symbol, recorded, requested)
  {
    hide LossLedger, WinLedger, LossStake, LossDirection, Total, RecordOutcome, Lookup, Without, Max;
  }

  lemma TakenForm(s: State, profit: real, cid: int, symbol: string, tick: int)
    ensures Taken(s, profit, cid, symbol, tick) ==
            State(s.pending, s.sessionProfit + profit, Max(s.peak, s.sessionProfit + profit), tick, s.linear, s.linearReset,
                  s.lastLossStake, s.lastLossSymbol, s.lastLossDirection,
                  RecordOutcome(s.rolling, symbol, profit >= 0.0), s.stakes - {cid}, s.requested - {cid},
                  Without(s.active, cid), s.symbolOf, s.results + [Booking(cid, profit)], s.expected,
                  s.bankroll, s.target, s.unit)
  {
    hide RecordOutcome, Without, Max;
  }

  lemma SettleForm(p: Params, w: World, profit: real, cid: int, symbol: string, tick: int, direction: Option<string>)
    ensures var b := Book(p, w.s, profit, cid, symbol, tick, direction);
            Apply(p, w, SettleStep(profit, cid, symbol, tick, direction)) ==
            if IsResult(w.s.results, cid) || (cid !in w.s.active && cid !in w.s.symbolOf) then w
            else Settlement.World(if ClusterDone(b) then Finalize(p, b) else b, w.log + [Booked(cid, symbol, profit)], w.known)
    ensures Inv(w) ==> w.s.linear >= 0
  {
    hide Book, ClusterDone, Finalize, Guarded, Accounted;
  }
}
