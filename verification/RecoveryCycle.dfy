/** The recovery cycle end to end: the sized stake, bought and won, closes the debt it was sized for. */
module RecoveryCycle {
  import opened Numeric
  import opened PendingLoss
  import opened Settlement
  import opened RecoverySizing
  import opened StakePipeline
  import opened Trading

  /** Opening one contract, beginning a cluster for it and settling it as a win. */
  function WonCycle(p: Params, s: State, cid: int, symbol: string, stake: real, profit: real, tick: int): State {
    Settle(p, Begin(Open(s, cid, symbol, stake, Some(stake)), 1), profit, cid, symbol, tick, None)
  }

  predicate Idle(s: State) {
    s.active == [] && s.results == []
  }

  /** A win of at least the whole debt empties the ledger and resets the loss counter. */
  lemma WinClosesCycle(p: Params, s: State, cid: int, symbol: string, stake: real, profit: real, tick: int)
    requires Solvent(s) && Idle(s) && stake >= 0.0 && profit >= Total(s.pending)
    ensures var s' := WonCycle(p, s, cid, symbol, stake, profit, tick);
            && AllZero(s'.pending) && Total(s'.pending) == 0.0 && s'.linear == 0
            && Idle(s') && s'.symbolOf == map[]
            && s'.sessionProfit == s.sessionProfit + profit
  {
    var ready := Begin(Open(s, cid, symbol, stake, Some(stake)), 1);
    OpenedState(s, cid, symbol, stake);
    hide Begin, Open, Finalize, Book, Solvent, NonNegative, Unique, Total, AllZero;
    SolventNotNegative(s);
    SolventLedger(s);
    var b := Book(p, ready, profit, cid, symbol, tick, None);
    BookPending(p, ready, profit, cid, symbol, tick, None);
    BookAmounts(p, ready, profit, cid, symbol, tick, None);
    BookTracking(p, ready, profit, cid, symbol, tick, None);
    WinPaysDebt(s.pending, p, symbol, Some(stake), Some(stake), profit);
    assert CreditedProfit(Some(stake), Some(stake), profit) == profit;
    TotalNonNegative(b.pending);
    assert AllZero(b.pending) by {
      AllZeroWhen(b.pending);
    }
    CloseWithoutDebt(p, b, profit);
  }

  lemma AllZeroWhen(l: Ledger)
    requires forall i :: 0 <= i < |l| ==> l[i].amount == 0.0
    ensures AllZero(l)
  {
  }

  lemma OpenedState(s: State, cid: int, symbol: string, stake: real)
    requires Idle(s)
    ensures var ready := Begin(Open(s, cid, symbol, stake, Some(stake)), 1);
            && ready.pending == s.pending && ready.sessionProfit == s.sessionProfit && ready.results == [] && ready.expected == 1
            && Lookup(ready.stakes, cid) == Some(stake) && Lookup(ready.requested, cid) == Some(stake)
            && Accepts(ready, cid)
  {
  }

  lemma CloseWithoutDebt(p: Params, b: State, profit: real)
    requires Total(b.pending) == 0.0 && profit >= 0.0 && |b.results| == 1 && b.expected == 1
    requires IsResult(b.results, b.results[0].cid) && b.results[0].profit >= 0.0
    ensures ClusterDone(b)
    ensures var f := Finalize(p, b);
            f.pending == b.pending && f.linear == 0 && Idle(f) && f.symbolOf == map[] && f.sessionProfit == b.sessionProfit
  {
    hide Total;
    assert b.results[1..] == [];
    assert Profits(b.results) == b.results[0].profit;
  }

  /** What the session of a risk state looks like to the sizing pipeline. */
  lemma DebtSurvivesDust(c: Config, s: State)
    requires ClearedSession(c, SessionIn(s)).pending > 0.0
    ensures ClearedSession(c, SessionIn(s)).pending == Total(s.pending)
  {
  }

  /**
   One win closes the debt: whenever the recovery cover lies below the cap and nothing later cuts into
   it, the pipeline's stake, bought and won at the quoted payout as a cluster of its own, leaves every
   entry of the ledger at zero and the loss counter at zero.
   */
  lemma OneWinClearsDebt(k: Kelly, c: Config, s: State, r: Request, m: Option<Metrics>, cid: int, symbol: string, tick: int)
    requires Solvent(s) && Idle(s) && ContractPayout(r.quoted, c.params) > 0.0 && r.fStar > 0.0
    requires var session := ClearedSession(c, SessionIn(s));
             var payout := ContractPayout(r.quoted, c.params);
             && SingleWinCover(c, session, r.bankroll, m, payout)
             && NothingCuts(k, c, session, r, m, CoverStake(c.soft, session.pending, payout, MaxInt(0, session.linear)))
    ensures var outcome := Pipeline(k, c, SessionIn(s), r, m);
            var profit := Times(outcome.Stake(), ContractPayout(r.quoted, c.params));
            var s' := WonCycle(c.params, s, cid, symbol, outcome.Stake(), profit, tick);
            && 0.0 < outcome.Stake() <= CoverCap(c, r.bankroll)
            && AllZero(s'.pending) && s'.linear == 0
  {
    hide *;
    var session, payout := ClearedSession(c, SessionIn(s)), ContractPayout(r.quoted, c.params);
    var cover := CoverStake(c.soft, session.pending, payout, MaxInt(0, session.linear));
    CoverFacts(k, c, session, r, m, cover, payout);
    PipelineCoversDebt(k, c, SessionIn(s), r, m);
    DebtSurvivesDust(c, s);
    var outcome := Pipeline(k, c, SessionIn(s), r, m);
    PlacedStake(outcome);
    PositiveStake(outcome.stake, payout, session.pending);
    WinClosesCycle(c.params, s, cid, symbol, outcome.stake, Times(outcome.stake, payout), tick);
  }

  lemma PlacedStake(outcome: Outcome)
    requires outcome.Placed?
    ensures outcome.Stake() == outcome.stake
  {
  }

  lemma PositiveStake(stake: real, payout: real, pending: real)
    requires stake * payout >= pending > 0.0 && payout > 0.0
    ensures stake > 0.0 && Times(stake, payout) >= pending
  {
    SignOfFactor(stake, payout);
  }
}
