/**
 The event-driven backtester: one pass over the signals settles each against the price series and keeps
 running counters. Its report is tied to definitions over the whole list of results.
 */
module Backtester {
  import opened Numeric
  import opened Trading

  datatype Signal = Signal(index: int, side: Option<Direction>, stake: real)

  /** The stored configuration; the bounds are those the constructor enforces. */
  datatype Config = Config(horizon: int, delay: int, payout: real) {
    ghost predicate Valid() { horizon >= 1 && delay >= 0 && payout >= 0.01 }
  }

  function Configure(horizonSteps: int, delaySteps: int, payoutRate: real): (c: Config)
    ensures c.Valid()
  {
    Config(MaxInt(1, horizonSteps), MaxInt(0, delaySteps), Max(0.01, payoutRate))
  }

  // ---------- One signal ----------

  function Fill(c: Config, s: Signal): int { s.index + c.delay }
  function Expiry(c: Config, s: Signal): int { Fill(c, s) + c.horizon }

  /** Array access where a negative index counts from the end; anything else is an error. */
  function At(prices: seq<real>, i: int): Option<real> {
    if 0 <= i < |prices| then Some(prices[i])
    else if -|prices| <= i < 0 then Some(prices[|prices| + i])
    else None
  }

  predicate Settles(c: Config, prices: seq<real>, s: Signal) {
    Expiry(c, s) < |prices|
  }

  predicate Readable(c: Config, prices: seq<real>, s: Signal) {
    Settles(c, prices, s) ==> At(prices, Fill(c, s)).Some? && At(prices, Expiry(c, s)).Some?
  }

  predicate AllReadable(c: Config, prices: seq<real>, signals: seq<Signal>) {
    forall i :: 0 <= i < |signals| ==> Readable(c, prices, signals[i])
  }

  predicate Wins(c: Config, prices: seq<real>, s: Signal)
    requires Settles(c, prices, s) && Readable(c, prices, s)
  {
    var fill, expiry := At(prices, Fill(c, s)).value, At(prices, Expiry(c, s)).value;
    match s.side
    case Some(CALL) => expiry > fill
    case Some(PUT) => expiry < fill
    case None => false
  }

  function Pnl(c: Config, prices: seq<real>, s: Signal): real
    requires Settles(c, prices, s) && Readable(c, prices, s)
  {
    if Wins(c, prices, s) then Times(s.stake, c.payout) else -s.stake
  }

  // ---------- The whole list ----------

  datatype Trade = Trade(won: bool, stake: real, pnl: real)

  function Trades(c: Config, prices: seq<real>, signals: seq<Signal>): seq<Trade>
    requires AllReadable(c, prices, signals)
  {
    if signals == [] then []
    else
      var s := signals[|signals| - 1];
      Trades(c, prices, signals[..|signals| - 1]) +
      if Settles(c, prices, s) then [Trade(Wins(c, prices, s), s.stake, Pnl(c, prices, s))] else []
  }

  function SettledCount(c: Config, prices: seq<real>, signals: seq<Signal>): nat {
    if signals == [] then 0
    else SettledCount(c, prices, signals[..|signals| - 1]) + if Settles(c, prices, signals[|signals| - 1]) then 1 else 0
  }

  function Won(ts: seq<Trade>): (n: nat)
    ensures n <= |ts|
  {
    if ts == [] then 0 else Won(ts[..|ts| - 1]) + if ts[|ts| - 1].won then 1 else 0
  }

  /** The equity after the first j trades. */
  function Equity(ts: seq<Trade>, j: nat): real
    requires j <= |ts|
  {
    if j == 0 then 0.0 else Equity(ts, j - 1) + ts[j - 1].pnl
  }

  function GrossProfit(ts: seq<Trade>): real {
    if ts == [] then 0.0 else GrossProfit(ts[..|ts| - 1]) + if ts[|ts| - 1].won then ts[|ts| - 1].pnl else 0.0
  }

  function GrossLoss(ts: seq<Trade>): real {
    if ts == [] then 0.0 else GrossLoss(ts[..|ts| - 1]) + if ts[|ts| - 1].won then 0.0 else Abs(ts[|ts| - 1].pnl)
  }

  ghost predicate DropBetween(ts: seq<Trade>, i: nat, j: nat, drop: real) {
    i <= j <= |ts| && Equity(ts, i) - Equity(ts, j) == drop
  }

  /** d is the largest drop of the equity from any point to a later one. */
  ghost predicate IsMaxDrawdown(ts: seq<Trade>, d: real) {
    && (exists i: nat, j: nat :: DropBetween(ts, i, j, d))
    && (forall i: nat, j: nat :: i <= j <= |ts| ==> Equity(ts, i) - Equity(ts, j) <= d)
  }

  /** p is the largest equity up to some point. */
  ghost predicate IsPeak(ts: seq<Trade>, p: real) {
    && (exists i: nat :: i <= |ts| && Equity(ts, i) == p)
    && (forall i: nat :: i <= |ts| ==> Equity(ts, i) <= p)
  }

  lemma {:induction false} EquityPrefix(ts: seq<Trade>, t: Trade, j: nat)
    requires j <= |ts|
    ensures Equity(ts + [t], j) == Equity(ts, j)
  {
    if j > 0 {
      EquityPrefix(ts, t, j - 1);
    }
  }

  lemma EquityExtended(ts: seq<Trade>, t: Trade)
    ensures Equity(ts + [t], |ts| + 1) == Equity(ts, |ts|) + t.pnl
    ensures forall j: nat :: j <= |ts| ==> Equity(ts + [t], j) == Equity(ts, j)
  {
    forall j: nat | j <= |ts| ensures Equity(ts + [t], j) == Equity(ts, j) {
      EquityPrefix(ts, t, j);
    }
    assert (ts + [t])[|ts|] == t;
  }

  lemma PeakStep(ts: seq<Trade>, t: Trade, p: real)
    requires IsPeak(ts, p)
    ensures IsPeak(ts + [t], Max(p, Equity(ts + [t], |ts| + 1)))
  {
    EquityExtended(ts, t);
    hide Equity;
    var now := ts + [t];
    var q := Max(p, Equity(now, |ts| + 1));
    if q == p {
      var i: nat :| i <= |ts| && Equity(ts, i) == p;
      assert i <= |now| && Equity(now, i) == q;
    } else {
      assert |ts| + 1 <= |now| && Equity(now, |ts| + 1) == q;
    }
  }

  /** One step of the one-pass drawdown: the larger of the drop so far and the drop from the peak to now. */
  lemma DrawdownStep(ts: seq<Trade>, t: Trade, p: real, d: real)
    requires IsPeak(ts + [t], p) && IsMaxDrawdown(ts, d)
    ensures IsMaxDrawdown(ts + [t], Max(d, p - Equity(ts + [t], |ts| + 1)))
  {
    EquityExtended(ts, t);
    hide Equity;
    var now := ts + [t];
    var e := Max(d, p - Equity(now, |ts| + 1));
    if e == d {
      var i: nat, j: nat :| DropBetween(ts, i, j, d);
      assert DropBetween(now, i, j, e);
    } else {
      var i: nat :| i <= |now| && Equity(now, i) == p;
      assert DropBetween(now, i, |now|, e);
    }
  }

  // ---------- What the report says ----------

  datatype Ratio = Finite(value: real) | Infinite

  datatype Report = Report(totalTrades: nat, wins: nat, losses: nat, winRate: real, totalPnl: real,
                           profitFactor: Ratio, expectancy: real, maxDrawdown: real)

  function ProfitFactor(profit: real, loss: real): Ratio {
    if loss > 0.0 then Finite(profit / loss) else if profit > 0.0 then Infinite else Finite(0.0)
  }

  ghost predicate Describes(r: Report, ts: seq<Trade>) {
    && r.totalTrades == |ts| && r.wins == Won(ts) && r.losses == |ts| - Won(ts)
    && r.winRate == (if ts == [] then 0.0 else Won(ts) as real / |ts| as real)
    && r.totalPnl == Equity(ts, |ts|)
    && r.profitFactor == ProfitFactor(GrossProfit(ts), GrossLoss(ts))
    && r.expectancy == (if ts == [] then 0.0 else Equity(ts, |ts|) / |ts| as real)
    && IsMaxDrawdown(ts, r.maxDrawdown)
  }

  datatype Result = IndexError | Done(report: Report)

  /** The counters of the pass agree with the trades so far. */
  ghost predicate Running(ts: seq<Trade>, wins: int, losses: int, profit: real, loss: real, equity: real, peak: real, maxDd: real) {
    && wins == Won(ts) && losses == |ts| - Won(ts)
    && profit == GrossProfit(ts) && loss == GrossLoss(ts) && equity == Equity(ts, |ts|)
    && IsPeak(ts, peak) && IsMaxDrawdown(ts, maxDd)
  }

  lemma RunningFromNothing()
    ensures Running([], 0, 0, 0.0, 0.0, 0.0, 0.0, 0.0)
  {
    assert DropBetween([], 0, 0, 0.0) && Equity([], 0) == 0.0;
  }

  lemma RunningStep(ts: seq<Trade>, t: Trade, wins: int, losses: int, profit: real, loss: real, equity: real, peak: real, maxDd: real)
    requires Running(ts, wins, losses, profit, loss, equity, peak, maxDd)
    ensures var equity', peak' := equity + t.pnl, Max(peak, equity + t.pnl);
            var maxDd' := Max(maxDd, peak' - equity');
            if t.won then Running(ts + [t], wins + 1, losses, profit + t.pnl, loss, equity', peak', maxDd')
            else Running(ts + [t], wins, losses + 1, profit, loss + Abs(t.pnl), equity', peak', maxDd')
  {
    CountersSnoc(ts, t);
    PeakStep(ts, t, peak);
    DrawdownStep(ts, t, Max(peak, equity + t.pnl), maxDd);
    hide Won, GrossProfit, GrossLoss, Equity, IsPeak, IsMaxDrawdown, Max, Abs;
  }

  /** The trades of the first k signals, all of them readable. */
  ghost predicate Progress(c: Config, prices: seq<real>, signals: seq<Signal>, k: nat, ts: seq<Trade>)
    requires k <= |signals|
  {
    AllReadable(c, prices, signals[..k]) && ts == Trades(c, prices, signals[..k])
  }

  lemma ProgressStep(c: Config, prices: seq<real>, signals: seq<Signal>, k: nat, ts: seq<Trade>)
    requires k < |signals| && Progress(c, prices, signals, k, ts)
    ensures var s := signals[k];
            Readable(c, prices, s) ==>
              if Settles(c, prices, s) then Progress(c, prices, signals, k + 1, ts + [Trade(Wins(c, prices, s), s.stake, Pnl(c, prices, s))])
              else Progress(c, prices, signals, k + 1, ts)
  {
    assert signals[..k + 1] == signals[..k] + [signals[k]];
    if Readable(c, prices, signals[k]) {
      TradesSnoc(c, prices, signals[..k], signals[k]);
    }
  }

  datatype Settlement = Skipped | Broken | Priced(won: bool, pnl: real)

  method Settle(c: Config, prices: seq<real>, sig: Signal) returns (r: Settlement)
    requires c.Valid()
    ensures r.Broken? <==> !Readable(c, prices, sig)
    ensures Readable(c, prices, sig) ==>
      r == if Settles(c, prices, sig) then Priced(Wins(c, prices, sig), Pnl(c, prices, sig)) else Skipped
  {
    var fillIdx := sig.index + c.delay;
    var expiryIdx := fillIdx + c.horizon;
    if expiryIdx >= |prices| || fillIdx >= |prices| {
      return Skipped;
    }
    var fill, expiry := At(prices, fillIdx), At(prices, expiryIdx);
    if fill.None? || expiry.None? {
      return Broken;
    }
    var isWin := false;
    if sig.side == Some(CALL) {
      isWin := expiry.value > fill.value;
    } else if sig.side == Some(PUT) {
      isWin := expiry.value < fill.value;
    }
    r := Priced(isWin, if isWin then Times(sig.stake, c.payout) else -sig.stake);
  }

  method Run(c: Config, prices: seq<real>, signals: seq<Signal>) returns (result: Result)
    requires c.Valid()
    ensures result.Done? <==> AllReadable(c, prices, signals)
    ensures result.Done? ==> Describes(result.report, Trades(c, prices, signals))
  {
    var wins, losses := 0, 0;
    var totalPnl, grossProfit, grossLoss := 0.0, 0.0, 0.0;
    var equity, peak, maxDd := 0.0, 0.0, 0.0;
    ghost var ts: seq<Trade> := [];
    RunningFromNothing();
    for k := 0 to |signals|
      invariant Progress(c, prices, signals, k, ts)
      invariant totalPnl == equity
      invariant Running(ts, wins, losses, grossProfit, grossLoss, equity, peak, maxDd)
    {
      hide Running, Progress, Max, Abs, Wins, Readable, Settles, Pnl, Describes;
      ProgressStep(c, prices, signals, k, ts);
      var r := Settle(c, prices, signals[k]);
      match r {
        case Skipped =>
        case Broken => return IndexError;
        case Priced(won, pnl) =>
          RunningStep(ts, Trade(won, signals[k].stake, pnl), wins, losses, grossProfit, grossLoss, equity, peak, maxDd);
          ts := ts + [Trade(won, signals[k].stake, pnl)];
          if won {
            wins := wins + 1;
            grossProfit := grossProfit + pnl;
          } else {
            losses := losses + 1;
            grossLoss := grossLoss + Abs(pnl);
          }
          totalPnl := totalPnl + pnl;
          equity := equity + pnl;
          peak := Max(peak, equity);
          maxDd := Max(maxDd, peak - equity);
      }
    }
    assert signals[..|signals|] == signals;
    result := Done(MakeReport(ts, wins, losses, totalPnl, grossProfit, grossLoss, peak, maxDd));
  }

  function MakeReport(ghost ts: seq<Trade>, wins: int, losses: int, totalPnl: real, grossProfit: real, grossLoss: real,
                      ghost peak: real, maxDd: real): (r: Report)
    requires Running(ts, wins, losses, grossProfit, grossLoss, totalPnl, peak, maxDd)
    ensures Describes(r, ts)
  {
    var total := wins + losses;
    Report(
      total, wins, losses,
      if total > 0 then wins as real / total as real else 0.0,
      totalPnl, ProfitFactor(grossProfit, grossLoss),
      if total > 0 then totalPnl / total as real else 0.0, maxDd)
  }

  lemma TradesSnoc(c: Config, prices: seq<real>, signals: seq<Signal>, s: Signal)
    requires AllReadable(c, prices, signals) && Readable(c, prices, s)
    ensures AllReadable(c, prices, signals + [s])
    ensures Trades(c, prices, signals + [s]) ==
            if Settles(c, prices, s) then Trades(c, prices, signals) + [Trade(Wins(c, prices, s), s.stake, Pnl(c, prices, s))]
            else Trades(c, prices, signals)
  {
    assert (signals + [s])[..|signals|] == signals;
  }

  lemma CountersSnoc(ts: seq<Trade>, t: Trade)
    ensures Won(ts + [t]) == Won(ts) + if t.won then 1 else 0
    ensures GrossProfit(ts + [t]) == GrossProfit(ts) + if t.won then t.pnl else 0.0
    ensures GrossLoss(ts + [t]) == GrossLoss(ts) + if t.won then 0.0 else Abs(t.pnl)
    ensures Equity(ts + [t], |ts| + 1) == Equity(ts, |ts|) + t.pnl
  {
    assert (ts + [t])[..|ts|] == ts;
    EquityExtended(ts, t);
  }

  /** Wins and losses together number the signals whose expiry lies inside the series. */
  lemma {:induction false} EverySettledSignalCounts(c: Config, prices: seq<real>, signals: seq<Signal>)
    requires AllReadable(c, prices, signals)
    ensures |Trades(c, prices, signals)| == SettledCount(c, prices, signals)
  {
    if signals != [] {
      EverySettledSignalCounts(c, prices, signals[..|signals| - 1]);
    }
  }

  /** The pass raises an index error exactly when a settled signal is filled before the start of the wrapped series. */
  lemma UnreadableSignal(c: Config, prices: seq<real>, s: Signal)
    requires c.Valid()
    ensures !Readable(c, prices, s) <==> Settles(c, prices, s) && Fill(c, s) < -|prices|
  {
  }

  predicate LossesHaveStakes(ts: seq<Trade>) {
    forall i :: 0 <= i < |ts| && !ts[i].won ==> ts[i].pnl <= 0.0
  }

  /** Profit is gross profit less gross loss exactly when no losing trade has a negative stake. */
  lemma {:induction false} ProfitIsNet(ts: seq<Trade>)
    ensures Equity(ts, |ts|) >= GrossProfit(ts) - GrossLoss(ts)
    ensures Equity(ts, |ts|) == GrossProfit(ts) - GrossLoss(ts) <==> LossesHaveStakes(ts)
  {
    if ts != [] {
      var before, t := ts[..|ts| - 1], ts[|ts| - 1];
      ProfitIsNet(before);
      assert ts == before + [t];
      CountersSnoc(before, t);
      assert LossesHaveStakes(ts) <==> LossesHaveStakes(before) && (!t.won ==> t.pnl <= 0.0);
    }
  }

  /** Every signal that settles as a loss has a stake that is not negative. */
  ghost predicate LosersPay(c: Config, prices: seq<real>, signals: seq<Signal>) {
    forall i :: 0 <= i < |signals| && Loses(c, prices, signals[i]) ==> signals[i].stake >= 0.0
  }

  predicate Loses(c: Config, prices: seq<real>, s: Signal) {
    Settles(c, prices, s) && Readable(c, prices, s) && !Wins(c, prices, s)
  }

  lemma LosersPaySnoc(c: Config, prices: seq<real>, signals: seq<Signal>, s: Signal)
    ensures LosersPay(c, prices, signals + [s]) <==>
            LosersPay(c, prices, signals) && (Loses(c, prices, s) ==> s.stake >= 0.0)
  {
    hide Loses;
    var all := signals + [s];
    assert all[|signals|] == s && forall i :: 0 <= i < |signals| ==> all[i] == signals[i];
  }

  lemma {:induction false} LosersAndLosses(c: Config, prices: seq<real>, signals: seq<Signal>)
    requires AllReadable(c, prices, signals)
    ensures LosersPay(c, prices, signals) <==> LossesHaveStakes(Trades(c, prices, signals))
  {
    if signals != [] {
      var before, s := signals[..|signals| - 1], signals[|signals| - 1];
      assert signals == before + [s];
      assert AllReadable(c, prices, before) && Readable(c, prices, s);
      LosersAndLosses(c, prices, before);
      LosersPaySnoc(c, prices, before, s);
      TradesSnoc(c, prices, before, s);
      hide Trades, LosersPay, AllReadable;
      if Settles(c, prices, s) {
        LossesSnoc(Trades(c, prices, before), Trade(Wins(c, prices, s), s.stake, Pnl(c, prices, s)));
      }
    }
  }

  lemma LossesSnoc(ts: seq<Trade>, t: Trade)
    ensures LossesHaveStakes(ts + [t]) <==> LossesHaveStakes(ts) && (!t.won ==> t.pnl <= 0.0)
  {
    var all := ts + [t];
    assert all[|ts|] == t && forall i :: 0 <= i < |ts| ==> all[i] == ts[i];
  }

  /**
   The reported profit is gross profit less gross loss exactly when every losing signal has a stake that is not
   negative, so in particular whenever no signal has a negative stake.
   */
  lemma ReportedProfitIsNet(c: Config, prices: seq<real>, signals: seq<Signal>, r: Report)
    requires AllReadable(c, prices, signals) && Describes(r, Trades(c, prices, signals))
    ensures var ts := Trades(c, prices, signals);
            && (r.totalPnl == GrossProfit(ts) - GrossLoss(ts) <==> LosersPay(c, prices, signals))
            && ((forall i :: 0 <= i < |signals| ==> signals[i].stake >= 0.0) ==> r.totalPnl == GrossProfit(ts) - GrossLoss(ts))
  {
    LosersAndLosses(c, prices, signals);
    ProfitIsNet(Trades(c, prices, signals));
    hide Trades, LossesHaveStakes, GrossProfit, GrossLoss, Equity;
  }

  lemma OneTrade(c: Config, prices: seq<real>, s: Signal)
    requires Settles(c, prices, s) && Readable(c, prices, s)
    ensures AllReadable(c, prices, [s]) && Trades(c, prices, [s]) == [Trade(Wins(c, prices, s), s.stake, Pnl(c, prices, s))]
  {
    assert [] + [s] == [s];
    assert Trades(c, prices, []) == [];
    TradesSnoc(c, prices, [], s);
    hide Wins, Pnl, Settles, Readable, Trades;
  }

  lemma OneLoss(t: Trade)
    requires !t.won
    ensures Equity([t], 1) == t.pnl && GrossProfit([t]) == 0.0 && GrossLoss([t]) == Abs(t.pnl)
  {
    assert [] + [t] == [t];
    CountersSnoc([], t);
  }

  const FLAT_SERIES: seq<real> := [1.0, 1.0]
  const NEGATIVE_STAKE: Signal := Signal(0, Some(CALL), -1.0)

  /** A CALL with a negative stake over a flat series: its loss is a gain of 1, and is counted as a gross loss of 1. */
  lemma NegativeStakeUnbalances()
    ensures var c := Configure(1, 0, 0.85);
            && AllReadable(c, FLAT_SERIES, [NEGATIVE_STAKE])
            && var ts := Trades(c, FLAT_SERIES, [NEGATIVE_STAKE]);
            |ts| == 1 && Equity(ts, 1) == 1.0 && GrossProfit(ts) == 0.0 && GrossLoss(ts) == 1.0
  {
    var c := Configure(1, 0, 0.85);
    assert Settles(c, FLAT_SERIES, NEGATIVE_STAKE) && !Wins(c, FLAT_SERIES, NEGATIVE_STAKE);
    OneTrade(c, FLAT_SERIES, NEGATIVE_STAKE);
    OneLoss(Trade(false, -1.0, 1.0));
    hide Trades, Equity, GrossProfit, GrossLoss, Wins, Settles, Readable;
  }

  /** With every stake the same positive amount, profit is positive exactly when the win rate beats the break-even rate. */
  lemma ProfitNeedsBreakEvenRate(c: Config, prices: seq<real>, signals: seq<Signal>, stake: real)
    requires c.Valid() && stake > 0.0 && AllReadable(c, prices, signals)
    requires SameStakes(signals, stake)
    requires Trades(c, prices, signals) != []
    ensures var ts := Trades(c, prices, signals);
            Equity(ts, |ts|) > 0.0 <==> Won(ts) as real / |ts| as real > 1.0 / (1.0 + c.payout)
  {
    var ts := Trades(c, prices, signals);
    EqualStakes(c, prices, signals, stake);
    BreakEven(Won(ts) as real, |ts| as real, c.payout, stake, Equity(ts, |ts|));
  }

  predicate SameStakes(signals: seq<Signal>, stake: real) {
    forall i :: 0 <= i < |signals| ==> signals[i].stake == stake
  }

  lemma EqualStakesStep(ts: seq<Trade>, t: Trade, stake: real, payout: real)
    requires Equity(ts, |ts|) == Times(stake, Times(Won(ts) as real, 1.0 + payout) - |ts| as real)
    requires t.pnl == if t.won then Times(stake, payout) else -stake
    ensures var now := ts + [t]; Equity(now, |now|) == Times(stake, Times(Won(now) as real, 1.0 + payout) - |now| as real)
  {
    CountersSnoc(ts, t);
    hide Won, Equity, Times;
    StakeStep(stake, payout, Won(ts) as real, |ts| as real);
    assert (Won(ts) + 1) as real == Won(ts) as real + 1.0;
    assert |ts + [t]| as real == |ts| as real + 1.0;
  }

  lemma {:induction false} EqualStakes(c: Config, prices: seq<real>, signals: seq<Signal>, stake: real)
    requires AllReadable(c, prices, signals)
    requires SameStakes(signals, stake)
    ensures var ts := Trades(c, prices, signals);
            Equity(ts, |ts|) == Times(stake, Times(Won(ts) as real, 1.0 + c.payout) - |ts| as real)
  {
    if signals != [] {
      var before, s := signals[..|signals| - 1], signals[|signals| - 1];
      assert signals == before + [s];
      assert AllReadable(c, prices, before) && SameStakes(before, stake) && s.stake == stake && Readable(c, prices, s);
      hide AllReadable, SameStakes;
      EqualStakes(c, prices, before, stake);
      hide Equity, Won;
      TradesSnoc(c, prices, before, s);
      hide Trades;
      if Settles(c, prices, s) {
        EqualStakesStep(Trades(c, prices, before), Trade(Wins(c, prices, s), s.stake, Pnl(c, prices, s)), stake, c.payout);
      }
    }
  }

  lemma StakeStep(stake: real, payout: real, won: real, n: real)
    ensures Times(stake, Times(won + 1.0, 1.0 + payout) - (n + 1.0)) == Times(stake, Times(won, 1.0 + payout) - n) + Times(stake, payout)
    ensures Times(stake, Times(won, 1.0 + payout) - (n + 1.0)) == Times(stake, Times(won, 1.0 + payout) - n) - stake
  {
    assert Times(won + 1.0, 1.0 + payout) == Times(won, 1.0 + payout) + 1.0 + payout;
  }

  lemma BreakEven(won: real, n: real, payout: real, stake: real, profit: real)
    requires n > 0.0 && payout > 0.0 && stake > 0.0 && profit == Times(stake, Times(won, 1.0 + payout) - n)
    ensures profit > 0.0 <==> won / n > 1.0 / (1.0 + payout)
  {
    var x, y := won / n, 1.0 / (1.0 + payout);
    assert x * n == won && y * (1.0 + payout) == 1.0;
    SignOfProduct(stake, Times(won, 1.0 + payout) - n);
    SignOfProduct(n * (1.0 + payout), x - y);
    assert n * (1.0 + payout) * (x - y) == won * (1.0 + payout) - n;
  }

  lemma SignOfProduct(x: real, y: real)
    requires x > 0.0
    ensures x * y > 0.0 <==> y > 0.0
  {
  }
}
