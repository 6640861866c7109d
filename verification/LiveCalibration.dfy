/**
 Rolling quality of live signals: win rate, Brier score and expected calibration error over a bounded
 window of outcomes of each symbol.
 */
module LiveCalibration {
  import opened Numeric
  import opened Trading

  datatype Row = Row(won: bool, prob: real, target: real)

  predicate Proper(r: Row) {
    0.0 <= r.prob <= 1.0 && (r.target == 0.0 || r.target == 1.0)
  }

  predicate AllProper(s: seq<Row>) {
    forall i :: 0 <= i < |s| ==> Proper(s[i])
  }

  // ---------- Bins ----------

  predicate InBin(p: real, b: nat, bins: nat)
    requires b < bins
  {
    var lo := b as real / bins as real;
    var hi := (b + 1) as real / bins as real;
    (lo <= p && p < hi) || (b == bins - 1 && p >= lo && p <= hi + 0.000000000001)
  }

  lemma Scaled(p: real, b: nat, bins: nat)
    requires bins > 0
    ensures b as real / bins as real <= p <==> b as real <= p * bins as real
  {
    var q := b as real / bins as real;
    assert q * bins as real == b as real;
    ScaledOrder(q, p, bins as real);
  }

  lemma ScaledOrder(q: real, p: real, k: real)
    requires k > 0.0
    ensures q <= p <==> q * k <= p * k
  {
    assert (p - q) * k == p * k - q * k;
  }

  /** The bin of a probability. */
  function BinOf(p: real, bins: nat): (b: nat)
    requires bins >= 1 && 0.0 <= p
    ensures b < bins
  {
    ScaledOrder(0.0, p, bins as real);
    MinInt((p * bins as real).Floor, bins - 1)
  }

  /** Every probability lies in exactly one bin. */
  lemma OneBin(p: real, b: nat, bins: nat)
    requires b < bins && 0.0 <= p <= 1.0
    ensures InBin(p, b, bins) <==> b == BinOf(p, bins)
  {
    Scaled(p, b, bins);
    Scaled(p, b + 1, bins);
    ScaledOrder(p, 1.0, bins as real);
    assert bins as real / bins as real == 1.0;
  }

  // ---------- The error ----------

  function Count(s: seq<Row>, b: nat, bins: nat): (n: nat)
    requires b < bins
    ensures n <= |s|
  {
    if s == [] then 0
    else Count(s[..|s| - 1], b, bins) + if InBin(s[|s| - 1].prob, b, bins) then 1 else 0
  }

  function SumProb(s: seq<Row>, b: nat, bins: nat): real
    requires b < bins
  {
    if s == [] then 0.0
    else SumProb(s[..|s| - 1], b, bins) + if InBin(s[|s| - 1].prob, b, bins) then s[|s| - 1].prob else 0.0
  }

  function SumLabel(s: seq<Row>, b: nat, bins: nat): real
    requires b < bins
  {
    if s == [] then 0.0
    else SumLabel(s[..|s| - 1], b, bins) + if InBin(s[|s| - 1].prob, b, bins) then s[|s| - 1].target else 0.0
  }

  /** The weight of a bin times the distance between its mean probability and its mean label. */
  function Term(count: nat, probs: real, labels: real, n: nat): real
    requires n > 0
  {
    if count == 0 then 0.0
    else (count as real / n as real) * Abs(probs / count as real - labels / count as real)
  }

  /** The contribution of the first k bins. */
  function EceUpTo(s: seq<Row>, bins: nat, k: nat): real
    requires k <= bins && s != []
  {
    if k == 0 then 0.0
    else EceUpTo(s, bins, k - 1) + Term(Count(s, k - 1, bins), SumProb(s, k - 1, bins), SumLabel(s, k - 1, bins), |s|)
  }

  function Ece(s: seq<Row>, bins: int): real {
    if s == [] || bins <= 0 then 0.0 else EceUpTo(s, bins, bins)
  }

  // ---------- Sums over all bins ----------

  function Gap(s: seq<Row>, b: nat, bins: nat): real
    requires b < bins
  {
    SumProb(s, b, bins) - SumLabel(s, b, bins)
  }

  function Counts(s: seq<Row>, bins: nat, k: nat): nat
    requires k <= bins
  {
    if k == 0 then 0 else Counts(s, bins, k - 1) + Count(s, k - 1, bins)
  }

  function Gaps(s: seq<Row>, bins: nat, k: nat): real
    requires k <= bins
  {
    if k == 0 then 0.0 else Gaps(s, bins, k - 1) + Gap(s, k - 1, bins)
  }

  function AbsGaps(s: seq<Row>, bins: nat, k: nat): (r: real)
    requires k <= bins
    ensures r >= Abs(Gaps(s, bins, k))
  {
    if k == 0 then 0.0 else AbsGaps(s, bins, k - 1) + Abs(Gap(s, k - 1, bins))
  }

  function Error(r: Row): real { r.prob - r.target }

  /** Sums over the whole sample. */
  function Total(s: seq<Row>): real {
    if s == [] then 0.0 else Total(s[..|s| - 1]) + Error(s[|s| - 1])
  }

  function TotalAbs(s: seq<Row>): real {
    if s == [] then 0.0 else TotalAbs(s[..|s| - 1]) + Abs(Error(s[|s| - 1]))
  }

  function TotalSquare(s: seq<Row>): real {
    if s == [] then 0.0 else TotalSquare(s[..|s| - 1]) + Times(Error(s[|s| - 1]), Error(s[|s| - 1]))
  }

  /** One more sample changes the bin it lies in and no other. */
  lemma {:induction false} BinsStep(s: seq<Row>, r: Row, bins: nat, k: nat)
    requires 1 <= bins && k <= bins && Proper(r)
    ensures var mine := BinOf(r.prob, bins) < k;
            && Counts(s + [r], bins, k) == Counts(s, bins, k) + (if mine then 1 else 0)
            && Gaps(s + [r], bins, k) == Gaps(s, bins, k) + (if mine then Error(r) else 0.0)
            && AbsGaps(s + [r], bins, k) <= AbsGaps(s, bins, k) + (if mine then Abs(Error(r)) else 0.0)
  {
    if k > 0 {
      assert (s + [r])[..|s|] == s;
      BinsStep(s, r, bins, k - 1);
      OneBin(r.prob, k - 1, bins);
      hide InBin, BinOf;
    }
  }

  /** The bins hold every sample exactly once. */
  lemma {:induction false} BinsPartition(s: seq<Row>, bins: nat)
    requires bins >= 1 && AllProper(s)
    ensures Counts(s, bins, bins) == |s| && Gaps(s, bins, bins) == Total(s)
    ensures AbsGaps(s, bins, bins) <= TotalAbs(s)
  {
    if s == [] {
      EmptyBins(bins, bins);
    } else {
      var t, r := s[..|s| - 1], s[|s| - 1];
      assert s == t + [r];
      BinsPartition(t, bins);
      BinsStep(t, r, bins, bins);
    }
  }

  lemma {:induction false} EmptyBins(bins: nat, k: nat)
    requires k <= bins
    ensures Counts([], bins, k) == 0 && Gaps([], bins, k) == 0.0 && AbsGaps([], bins, k) == 0.0
  {
    if k > 0 {
      EmptyBins(bins, k - 1);
    }
  }

  lemma TermOfGap(count: nat, probs: real, labels: real, n: nat)
    requires n > 0 && (count == 0 ==> probs == 0.0 && labels == 0.0)
    ensures Times(Term(count, probs, labels, n), n as real) == Abs(probs - labels)
  {
    if count > 0 {
      var c, m := count as real, n as real;
      MeanGap(c, probs, labels);
      WeightedGap(c, m, Abs(probs / c - labels / c));
    }
  }

  lemma MeanGap(c: real, probs: real, labels: real)
    requires c > 0.0
    ensures Times(c, Abs(probs / c - labels / c)) == Abs(probs - labels)
  {
    var x, y := probs / c, labels / c;
    assert x * c == probs && y * c == labels;
    assert (x - y) * c == probs - labels;
    if x >= y {
      assert (x - y) * c >= 0.0;
    } else {
      assert (y - x) * c >= 0.0;
    }
  }

  lemma WeightedGap(c: real, m: real, g: real)
    requires m > 0.0
    ensures Times(c / m * g, m) == Times(c, g)
  {
    var w := c / m;
    assert w * m == c;
    assert w * g * m == w * m * g;
  }

  lemma {:induction false} EmptyBinSums(s: seq<Row>, b: nat, bins: nat)
    requires b < bins && Count(s, b, bins) == 0
    ensures SumProb(s, b, bins) == 0.0 && SumLabel(s, b, bins) == 0.0
  {
    if s != [] {
      EmptyBinSums(s[..|s| - 1], b, bins);
    }
  }

  /** The error times the sample size is the sum of the absolute gaps of the bins. */
  lemma {:induction false} EceIsGaps(s: seq<Row>, bins: nat, k: nat)
    requires k <= bins && s != []
    ensures Times(EceUpTo(s, bins, k), |s| as real) == AbsGaps(s, bins, k)
  {
    if k > 0 {
      EceIsGaps(s, bins, k - 1);
      var count, probs, labels := Count(s, k - 1, bins), SumProb(s, k - 1, bins), SumLabel(s, k - 1, bins);
      if count == 0 {
        EmptyBinSums(s, k - 1, bins);
      }
      TermOfGap(count, probs, labels, |s|);
      hide Term, Count, SumProb, SumLabel;
      Distribute(EceUpTo(s, bins, k - 1), Term(count, probs, labels, |s|), |s| as real);
    }
  }

  lemma Distribute(x: real, y: real, n: real)
    ensures Times(x + y, n) == Times(x, n) + Times(y, n)
  {
  }

  lemma {:induction false} ErrorsAtMostOne(s: seq<Row>)
    requires AllProper(s)
    ensures TotalAbs(s) <= |s| as real
  {
    if s != [] {
      ErrorsAtMostOne(s[..|s| - 1]);
      assert Proper(s[|s| - 1]);
    }
  }

  /** The calibration error lies in [0, 1] and is no less than the distance of mean probability and mean label. */
  lemma EceBounds(s: seq<Row>, bins: nat)
    requires bins >= 1 && s != [] && AllProper(s)
    ensures 0.0 <= Ece(s, bins) <= 1.0
    ensures Abs(Total(s) / |s| as real) <= Ece(s, bins) <= TotalAbs(s) / |s| as real
  {
    EceIsGaps(s, bins, bins);
    BinsPartition(s, bins);
    ErrorsAtMostOne(s);
    Averages(Ece(s, bins), Total(s), AbsGaps(s, bins, bins), TotalAbs(s), |s| as real);
  }

  lemma Averages(e: real, total: real, gaps: real, totalAbs: real, n: real)
    requires n > 0.0 && Times(e, n) == gaps && Abs(total) <= gaps <= totalAbs <= n
    ensures 0.0 <= e <= 1.0 && Abs(total / n) <= e <= totalAbs / n
  {
    var t, a := total / n, totalAbs / n;
    assert t * n == total && a * n == totalAbs && e * n == gaps;
    QuotientOrder(0.0, e, n, 0.0, gaps);
    QuotientOrder(e, 1.0, n, gaps, n);
    QuotientOrder(t, e, n, total, gaps);
    QuotientOrder(-t, e, n, -total, gaps);
    QuotientOrder(e, a, n, gaps, totalAbs);
  }

  lemma QuotientOrder(x: real, y: real, n: real, a: real, b: real)
    requires n > 0.0 && x * n == a && y * n == b
    ensures x <= y <==> a <= b
  {
    ScaledOrder(x, y, n);
  }

  /** The square of a sum of n numbers is at most n times the sum of their squares. */
  lemma {:induction false} SquareOfSum(s: seq<Row>)
    ensures Times(TotalAbs(s), TotalAbs(s)) <= Times(|s| as real, TotalSquare(s))
  {
    if s != [] {
      var t, r := s[..|s| - 1], s[|s| - 1];
      SquareOfSum(t);
      Deviations(t, Abs(Error(r)));
      SquareStep(|t| as real, TotalAbs(t), TotalSquare(t), Abs(Error(r)));
      assert Times(Error(r), Error(r)) == Times(Abs(Error(r)), Abs(Error(r)));
      assert |s| as real == |t| as real + 1.0;
    }
  }

  lemma {:induction false} Deviations(s: seq<Row>, d: real)
    ensures TotalSquare(s) - 2.0 * Times(d, TotalAbs(s)) + Times(|s| as real, Times(d, d)) >= 0.0
  {
    if s != [] {
      var t, e := s[..|s| - 1], Abs(Error(s[|s| - 1]));
      Deviations(t, d);
      DeviationStep(TotalSquare(t), TotalAbs(t), |t| as real, d, e);
      assert Times(Error(s[|s| - 1]), Error(s[|s| - 1])) == Times(e, e);
      assert |s| as real == |t| as real + 1.0;
    }
  }

  lemma DeviationStep(squares: real, sum: real, n: real, d: real, e: real)
    requires squares - 2.0 * Times(d, sum) + Times(n, Times(d, d)) >= 0.0
    ensures squares + Times(e, e) - 2.0 * Times(d, sum + e) + Times(n + 1.0, Times(d, d)) >= 0.0
  {
    SquareNonNegative(e - d);
    assert (e - d) * (e - d) == e * e - 2.0 * (d * e) + d * d;
    assert Times(d, sum + e) == Times(d, sum) + d * e;
    assert Times(n + 1.0, Times(d, d)) == Times(n, Times(d, d)) + d * d;
  }

  lemma SquareNonNegative(x: real)
    ensures x * x >= 0.0
  {
  }

  lemma SquareStep(n: real, sum: real, squares: real, d: real)
    requires Times(sum, sum) <= Times(n, squares)
    requires squares - 2.0 * Times(d, sum) + Times(n, Times(d, d)) >= 0.0
    ensures Times(sum + d, sum + d) <= Times(n + 1.0, squares + Times(d, d))
  {
    assert (sum + d) * (sum + d) == sum * sum + 2.0 * (d * sum) + d * d;
    assert (n + 1.0) * (squares + d * d) == n * squares + squares + n * (d * d) + d * d;
  }

  /** The square of the calibration error never exceeds the Brier score. */
  lemma EceBelowBrier(s: seq<Row>, bins: nat)
    requires bins >= 1 && s != [] && AllProper(s)
    ensures Times(Ece(s, bins), Ece(s, bins)) <= Brier(s)
  {
    EceIsGaps(s, bins, bins);
    BinsPartition(s, bins);
    SquareOfSum(s);
    RootOfMean(Ece(s, bins), AbsGaps(s, bins, bins), TotalAbs(s), TotalSquare(s), |s| as real);
  }

  lemma RootOfMean(e: real, gaps: real, sum: real, squares: real, n: real)
    requires n > 0.0 && Times(e, n) == gaps && 0.0 <= gaps <= sum && Times(sum, sum) <= Times(n, squares)
    ensures Times(e, e) <= squares / n
  {
    var m := squares / n;
    assert m * n == squares && e * n == gaps;
    SquareOrder(gaps, sum);
    SquareOfProduct(e, n);
    assert Times(n, squares) == Times(m, Times(n, n));
    PositiveProduct(n, n);
    ScaledOrder(Times(e, e), m, Times(n, n));
  }

  lemma SquareOrder(x: real, y: real)
    requires 0.0 <= x <= y
    ensures Times(x, x) <= Times(y, y)
  {
  }

  lemma SquareOfProduct(x: real, n: real)
    ensures Times(x * n, x * n) == Times(Times(x, x), Times(n, n))
  {
  }

  lemma PositiveProduct(x: real, y: real)
    requires x > 0.0 && y > 0.0
    ensures Times(x, y) > 0.0
  {
  }

  function Brier(s: seq<Row>): real
    requires s != []
  {
    TotalSquare(s) / |s| as real
  }

  // ---------- The operations ----------

  method CalibrationError(s: seq<Row>, bins: int) returns (total: real)
    ensures total == Ece(s, bins)
  {
    var n := |s|;
    if n == 0 {
      return 0.0;
    }
    total := 0.0;
    var b: int := 0;
    while b < bins
      invariant 0 <= b <= MaxInt(bins, 0)
      invariant total == if bins <= 0 then 0.0 else EceUpTo(s, bins, b)
    {
      var count, probs, labels := SumBin(s, b, bins);
      if count != 0 {
        var conf := probs / count as real;
        var acc := labels / count as real;
        total := total + (count as real / n as real) * Abs(conf - acc);
      }
      b := b + 1;
    }
  }

  method SumBin(s: seq<Row>, b: nat, bins: nat) returns (count: nat, probs: real, labels: real)
    requires b < bins
    ensures count == Count(s, b, bins) && probs == SumProb(s, b, bins) && labels == SumLabel(s, b, bins)
  {
    count, probs, labels := 0, 0.0, 0.0;
    for i := 0 to |s|
      invariant count == Count(s[..i], b, bins) && probs == SumProb(s[..i], b, bins) && labels == SumLabel(s[..i], b, bins)
    {
      assert s[..i + 1][..i] == s[..i];
      if InBin(s[i].prob, b, bins) {
        count, probs, labels := count + 1, probs + s[i].prob, labels + s[i].target;
      }
    }
    assert s[..|s|] == s;
  }

  datatype Snapshot = Snapshot(n: nat, winRate: real, brier: real, ece: real)

  function Wins(s: seq<Row>): (n: nat)
    ensures n <= |s|
  {
    if s == [] then 0 else Wins(s[..|s| - 1]) + if s[|s| - 1].won then 1 else 0
  }

  function SnapshotOf(s: seq<Row>, bins: int): Snapshot {
    if s == [] then Snapshot(0, 0.0, 1.0, 0.0)
    else Snapshot(|s|, Wins(s) as real / |s| as real, Brier(s), Ece(s, bins))
  }

  /** A missing probability counts as one half; the label says whether the market went up when the side is known. */
  function Outcome(won: bool, rawProb: Option<real>, direction: Option<Direction>): (r: Row)
    ensures Proper(r)
  {
    var prob := if rawProb.None? then 0.5 else Max(0.0, Min(1.0, rawProb.value));
    var target := if direction.None? then (if won then 1.0 else 0.0) else if won == direction.value.CALL? then 1.0 else 0.0;
    Row(won, prob, target)
  }

  class LiveSignals {
    const window: nat
    const bins: int
    var bag: map<Symbol, seq<Row>>

    ghost predicate Valid()
      reads this
    {
      forall x :: x in bag ==> AllProper(bag[x]) && |bag[x]| <= window
    }

    function History(x: Symbol): seq<Row>
      reads this
    {
      if x in bag then bag[x] else []
    }

    constructor (window: nat, bins: int)
      ensures Valid() && this.window == window && this.bins == bins && bag == map[]
    {
      this.window, this.bins, bag := window, bins, map[];
    }

    method Record(symbol: Symbol, won: bool, rawProb: Option<real>, direction: Option<Direction>) returns (snap: Snapshot)
      requires Valid()
      modifies this
      ensures Valid()
      ensures History(symbol) == LastN(old(History(symbol)) + [Outcome(won, rawProb, direction)], window)
      ensures forall y :: y != symbol ==> History(y) == old(History(y))
      ensures snap == SnapshotOf(History(symbol), bins)
    {
      if symbol !in bag {
        bag := bag[symbol := []];
      }
      bag := bag[symbol := LastN(bag[symbol] + [Outcome(won, rawProb, direction)], window)];
      snap := LiveSignalSnapshot(symbol);
    }

    method LiveSignalSnapshot(symbol: Symbol) returns (snap: Snapshot)
      requires Valid()
      ensures snap == SnapshotOf(History(symbol), bins)
    {
      var hist := History(symbol);
      if hist == [] {
        return Snapshot(0, 0.0, 1.0, 0.0);
      }
      var wins, squares := 0, 0.0;
      for i := 0 to |hist|
        invariant wins == Wins(hist[..i]) && squares == TotalSquare(hist[..i])
      {
        assert hist[..i + 1][..i] == hist[..i];
        if hist[i].won {
          wins := wins + 1;
        }
        squares := squares + Times(hist[i].prob - hist[i].target, hist[i].prob - hist[i].target);
      }
      assert hist[..|hist|] == hist;
      var ece := CalibrationError(hist, bins);
      snap := Snapshot(|hist|, wins as real / |hist| as real, squares / |hist| as real, ece);
    }
  }
}
