/** Stake of the pullback strategy: one percent of the balance, or the share of a loss that one win amortises. */
module PullbackStake {
  import opened Numeric

  /** Slack that absorbs binary rounding before a ceiling is taken. */
  const CENT_SLACK := 0.000000001

  /** In how many steps a loss can be amortised without exceeding the cap in any of them. */
  function AmortSteps(loss: real, rate: real, cap: real): int {
    if loss <= 0.0 || rate <= 0.0 || cap <= 0.0 then 1
    else if loss / rate > cap then MaxInt(1, Ceil(loss / rate / cap))
    else 1
  }

  function CapOf(available: real): real {
    FloorCents(Min(available, available * 0.05))
  }

  function CeilWithSlack(target: real): real {
    Ceil(target * 100.0 - CENT_SLACK) as real / 100.0
  }

  /** The stake before the cap: the base, the minimum, and what recovery or a strike target asks for. */
  function Target(available: real, pending: real, rate: real, stakeMin: real, strike: real, steps: int): real
    requires rate > 0.0
  {
    var floor := Max(FloorCents(available * 0.01), stakeMin);
    if pending > 0.0 then Max(floor, pending / MaxInt(1, steps) as real / rate)
    else if strike > 0.0 then Max(floor, strike / rate)
    else floor
  }

  predicate Refused(available: real, rate: real, stakeMin: real) {
    available <= 0.0 || rate <= 0.0 || stakeMin <= 0.0 || CapOf(available) + CENT_SLACK < stakeMin
  }

  /** The stake, and the part of the pending loss that a win would amortise. */
  function StakeAndCover(available: real, pending: real, rate: real, stakeMin: real, strike: real, steps: int): (real, real) {
    if Refused(available, rate, stakeMin) then (0.0, 0.0)
    else
      var stake := Min(CapOf(available), CeilWithSlack(Target(available, pending, rate, stakeMin, strike, steps)));
      (stake, Min(Max(0.0, pending), stake * rate))
  }

  function Stake(available: real, pending: real, rate: real, stakeMin: real, strike: real, steps: int): real {
    StakeAndCover(available, pending, rate, stakeMin, strike, steps).0
  }

  // ---------- Cents ----------

  lemma WholeCentsOf(n: int)
    ensures WholeCents(n as real / 100.0)
  {
    assert n as real / 100.0 * 100.0 == n as real;
  }

  /** Rounding up never leaves a whole-cent bound, and loses at most the slack. */
  lemma CeilWithSlackBounds(target: real, bound: real)
    requires WholeCents(bound)
    ensures target <= bound + CENT_SLACK / 100.0 <==> CeilWithSlack(target) <= bound
    ensures CeilWithSlack(target) >= target - CENT_SLACK / 100.0
    ensures WholeCents(CeilWithSlack(target))
  {
    hide Ceil;
    WholeCentsOf(Ceil(target * 100.0 - CENT_SLACK));
    CeilAgainst(target * 100.0 - CENT_SLACK, (bound * 100.0).Floor);
  }

  lemma CeilAgainst(y: real, n: int)
    ensures Ceil(y) <= n <==> y <= n as real
  {
  }

  lemma CapBounds(available: real)
    requires available > 0.0
    ensures WholeCents(CapOf(available)) && CapOf(available) <= available * 0.05 && CapOf(available) > available * 0.05 - 0.01
  {
    WholeCentsOf((available * 0.05 * 100.0).Floor);
  }

  // ---------- Solvency ----------

  /**
   Every stake is zero or whole cents between the minimum, up to the slack, and five percent of the
   balance; with a minimum of whole cents the slack disappears.
   */
  lemma StakeBounds(available: real, pending: real, rate: real, stakeMin: real, strike: real, steps: int)
    ensures var stake := Stake(available, pending, rate, stakeMin, strike, steps);
            if Refused(available, rate, stakeMin) then stake == 0.0
            else
              && WholeCents(stake) && stakeMin - CENT_SLACK <= stake <= available * 0.05
              && (WholeCents(stakeMin) ==> stakeMin <= stake)
  {
    if !Refused(available, rate, stakeMin) {
      var target := Target(available, pending, rate, stakeMin, strike, steps);
      CapBounds(available);
      CeilWithSlackBounds(target, CapOf(available));
      assert target >= stakeMin;
      if WholeCents(stakeMin) {
        WholeCentsApart(stakeMin, CapOf(available));
        CeilWithSlackBounds(target, CapOf(available));
        WholeCentsApart(stakeMin, CeilWithSlack(target));
      }
    }
  }

  /** Whole-cent amounts that are less than a cent apart in one direction are ordered in the other. */
  lemma WholeCentsApart(a: real, b: real)
    requires WholeCents(a) && WholeCents(b) && a - CENT_SLACK <= b
    ensures a <= b
  {
    var m, n := (a * 100.0).Floor, (b * 100.0).Floor;
    assert m as real == a * 100.0 && n as real == b * 100.0;
    IntegersApart(m, n);
  }

  lemma IntegersApart(m: int, n: int)
    requires m as real <= n as real + 0.5
    ensures m <= n
  {
  }

  datatype Order = Order(pending: real, rate: real, stakeMin: real, strike: real, steps: int)

  /** The balance after losing a sequence of orders, each sized on what was left. */
  function BalanceAfter(balance: real, orders: seq<Order>): real
    decreases |orders|
  {
    if orders == [] then balance
    else
      var o := orders[0];
      BalanceAfter(balance - Stake(balance, o.pending, o.rate, o.stakeMin, o.strike, o.steps), orders[1..])
  }

  function Power(base: real, n: nat): real {
    if n == 0 then 1.0 else Times(base, Power(base, n - 1))
  }

  /** k losses in a row leave at least 0.95 to the k of the balance, whatever the orders were. */
  lemma {:induction false} LosingStreakSolvency(balance: real, orders: seq<Order>)
    requires balance >= 0.0
    ensures BalanceAfter(balance, orders) >= Times(balance, Power(0.95, |orders|))
    decreases |orders|
  {
    if orders == [] {
      assert Times(balance, 1.0) == balance;
    } else {
      var o := orders[0];
      var left := balance - Stake(balance, o.pending, o.rate, o.stakeMin, o.strike, o.steps);
      StakeBounds(balance, o.pending, o.rate, o.stakeMin, o.strike, o.steps);
      assert left >= balance * 0.95 by {
        hide Stake, Power, BalanceAfter;
      }
      hide Stake;
      LosingStreakSolvency(left, orders[1..]);
      PowerPositive(|orders| - 1);
      ShrinkStep(balance, left, Power(0.95, |orders| - 1));
    }
  }

  lemma {:induction false} PowerPositive(n: nat)
    ensures Power(0.95, n) >= 0.0
  {
    if n > 0 {
      PowerPositive(n - 1);
    }
  }

  lemma ShrinkStep(balance: real, left: real, rest: real)
    requires left >= balance * 0.95 && rest >= 0.0
    ensures Times(left, rest) >= Times(balance, Times(0.95, rest))
  {
    assert (left - balance * 0.95) * rest >= 0.0;
  }

  // ---------- Amortisation ----------

  /** The stake that pays back one of k equal parts of the loss. */
  function Share(loss: real, rate: real, k: int): real
    requires k >= 1 && rate != 0.0
  {
    loss / k as real / rate
  }

  /** The step count is the least one whose share of the loss fits the cap. */
  lemma StepsAreLeast(loss: real, rate: real, cap: real)
    requires loss > 0.0 && rate > 0.0 && cap > 0.0
    ensures var n := AmortSteps(loss, rate, cap);
            && n >= 1 && Share(loss, rate, n) <= cap
            && forall k: int :: 1 <= k < n ==> Share(loss, rate, k) > cap
  {
    var n := AmortSteps(loss, rate, cap);
    ShareAgainstCap(loss, rate, cap, n);
    forall k: int | 1 <= k < n ensures Share(loss, rate, k) > cap {
      ShareAgainstCap(loss, rate, cap, k);
    }
  }

  lemma ShareAgainstCap(loss: real, rate: real, cap: real, k: int)
    requires loss > 0.0 && rate > 0.0 && cap > 0.0 && k >= 1
    ensures Share(loss, rate, k) <= cap <==> loss / rate / cap <= k as real
    ensures loss / rate <= cap <==> loss / rate / cap <= 1.0
  {
    var q, f := loss / rate, k as real;
    assert q * rate == loss;
    var share := loss / f / rate;
    assert share * rate == loss / f && loss / f * f == loss;
    assert share * f * rate == q * rate;
    SameFactor(share * f, q, rate);
    var steps := q / cap;
    assert steps * cap == q;
    ScaleBoth(share, cap, f);
    ScaleBoth(steps, f, cap);
    ScaleBoth(steps, 1.0, cap);
  }

  lemma SameFactor(a: real, b: real, f: real)
    requires f != 0.0 && a * f == b * f
    ensures a == b
  {
    assert (a - b) * f == 0.0;
  }

  lemma ScaleBoth(a: real, b: real, f: real)
    requires f > 0.0
    ensures a <= b <==> a * f <= b * f
  {
    if a <= b {
      assert (b - a) * f >= 0.0;
    } else {
      assert (a - b) * f > 0.0;
    }
  }

  /** Sized with its own step count, every order covers its share of the loss up to the slack. */
  lemma ShareIsCovered(available: real, pending: real, rate: real, stakeMin: real, strike: real)
    requires !Refused(available, rate, stakeMin) && pending > 0.0 && CapOf(available) > 0.0
    ensures var steps := AmortSteps(pending, rate, CapOf(available));
            steps >= 1 && Stake(available, pending, rate, stakeMin, strike, steps) >= Share(pending, rate, steps) - CENT_SLACK / 100.0
  {
    var cap := CapOf(available);
    var steps := AmortSteps(pending, rate, cap);
    StepsAreLeast(pending, rate, cap);
    var target := Target(available, pending, rate, stakeMin, strike, steps);
    assert target >= Share(pending, rate, steps);
    CapBounds(available);
    CeilWithSlackBounds(target, cap);
    hide AmortSteps, CeilWithSlack, CapOf, Share, Target;
  }
}
