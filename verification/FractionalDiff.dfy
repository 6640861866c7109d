/**
 Fractional differencing: binomial weights produced by a one-step recurrence and cut off below a
 threshold, and a causal convolution of a series with them. The weights of two orders convolve to
 the weights of the summed order, which gives composition and inversion of the differencing.
 */
module FractionalDiff {
  import opened Numeric
  import opened PowerSeries

  /** Orders smaller in size than this are treated as zero. */
  const ORDER_EPSILON := 0.000000000001

  /** The weight of lag k in the binomial expansion of order d. */
  function Weight(d: real, k: nat): real {
    if k == 0 then 1.0
    else NextWeight(Weight(d, k - 1), d, k as real)
  }

  function NextWeight(w: real, d: real, k: real): real
    requires k != 0.0
  {
    -w * (d - k + 1.0) / k
  }

  lemma WeightDefinition(d: real, k: nat)
    requires k > 0
    ensures Weight(d, k) == NextWeight(Weight(d, k - 1), d, k as real)
  {
  }

  function Weights(d: real, size: nat): (w: seq<real>)
    ensures |w| == size
    ensures forall k :: 0 <= k < size ==> w[k] == Weight(d, k)
  {
    seq(size, (k: nat) => Weight(d, k))
  }

  // ---------- Vandermonde's identity ----------

  /** The defining recurrence of the weights of order d, free of division. */
  ghost predicate Recurs(d: real, a: seq<real>, n: int) {
    forall k: nat {:trigger At(a, k)} ::
      1 <= k <= n ==> Times(k as real, At(a, k)) == Times((k - 1) as real - d, At(a, k - 1))
  }

  lemma RecursAt(d: real, a: seq<real>, n: int, k: nat)
    requires Recurs(d, a, n) && 1 <= k <= n
    ensures Times(k as real, At(a, k)) == Times((k - 1) as real - d, At(a, k - 1))
  {
  }

  /** The weights produced by the recurrence with a division satisfy the one without. */
  lemma WeightsRecur(d: real, size: nat)
    ensures Recurs(d, Weights(d, size), size - 1)
  {
    forall k: nat | 1 <= k < size
      ensures Times(k as real, Weights(d, size)[k]) == Times((k - 1) as real - d, Weights(d, size)[k - 1])
    {
      WeightStep(d, k);
      hide *;
    }
  }

  lemma WeightStep(d: real, k: nat)
    requires k > 0
    ensures Times(k as real, Weight(d, k)) == Times((k - 1) as real - d, Weight(d, k - 1))
  {
    UndoDivision(Weight(d, k - 1), d, k as real);
  }

  lemma UndoDivision(w: real, d: real, q: real)
    requires q != 0.0
    ensures q * (-w * (d - q + 1.0) / q) == (q - 1.0 - d) * w
  {
  }

  /** A sequence with every term multiplied by its index. */
  lemma ByIndex(a: seq<real>, n: nat) returns (a1: seq<real>)
    requires n < |a|
    ensures IndexWeighted(a, 0.0, a1, n) && At(a1, 0) == 0.0
  {
    a1 := seq(|a|, (k: nat) requires k < |a| => Times(0.0 + k as real, a[k]));
  }

  /** For a recurring sequence, dropping the first index-weighted term is a linear operation. */
  lemma TailByIndex(d: real, a: seq<real>, a1: seq<real>, n: nat)
    requires Recurs(d, a, n) && IndexWeighted(a, 0.0, a1, n)
    ensures Combines(-d, a, a1, Tail(a1), n - 1)
  {
    hide Times;
    forall m: nat | m <= n - 1
      ensures At(Tail(a1), m) == Times(-d, At(a, m)) + At(a1, m)
    {
      RecursAt(d, a, n, m + 1);
      IndexWeightedAt(a, 0.0, a1, n, m + 1);
      IndexWeightedAt(a, 0.0, a1, n, m);
      ByIndexTerms(m as real, d, At(a, m));
      assert 0.0 + (m + 1) as real == (m + 1) as real;
    }
  }

  lemma ByIndexTerms(m: real, d: real, x: real)
    ensures Times(m - d, x) == Times(-d, x) + Times(0.0 + m, x)
  {
  }

  /** The product of two sequences that recur with d1 and d2 recurs with d1 + d2. */
  lemma ProductRecurs(d1: real, a: seq<real>, d2: real, b: seq<real>, n: nat)
    requires 0 < n < |a| && n < |b| && Recurs(d1, a, n) && Recurs(d2, b, n)
    ensures Times(n as real, Conv(a, b, n)) == Times((n - 1) as real - (d1 + d2), Conv(a, b, n - 1))
  {
    hide *;
    var a1 := ByIndex(a, n);
    var b1 := ByIndex(b, n);
    ConvLeibniz(a, 0.0, a1, b, b1, n);
    TailIndexWeighted(a, 0.0, a1, n);
    TailIndexWeighted(b, 0.0, b1, n);
    ConvLeibniz(a, 0.0, a1, b, b1, n - 1);
    TailByIndex(d1, a, a1, n);
    ConvLinearLeft(-d1, a, a1, Tail(a1), b, n - 1);
    ConvStep(a1, b, n);
    TailByIndex(d2, b, b1, n);
    ConvShiftRight(a, b1, n);
    ConvLinearRight(a, -d2, b, b1, Tail(b1), n - 1);
    CollectOrders((n - 1) as real, d1, d2, Conv(a, b, n - 1), At(b, n));
    assert 0.0 + n as real == n as real;
  }

  lemma CollectOrders(n: real, d1: real, d2: real, c: real, y: real)
    ensures Times(0.0 + n, c) + Times(-d1, c) + Times(-d2, c) == Times(n - (d1 + d2), c)
    ensures Times(0.0, y) == 0.0
  {
  }

  /** Vandermonde's identity for any three sequences that start with 1 and recur with d1, d2 and d1 + d2. */
  lemma {:induction false} ProductOfRecurring(d1: real, a: seq<real>, d2: real, b: seq<real>, w: seq<real>, n: nat)
    requires n < |a| && n < |b| && n < |w|
    requires Recurs(d1, a, n) && Recurs(d2, b, n) && Recurs(d1 + d2, w, n)
    requires At(a, 0) == At(b, 0) == At(w, 0) == 1.0
    ensures Conv(a, b, n) == At(w, n)
    decreases n
  {
    hide *;
    if n == 0 {
      ConvStep(a, b, 0);
      SameStep(1.0, 1.0, 1.0, 1.0);
    } else {
      RecursShorter(d1, a, n);
      RecursShorter(d2, b, n);
      RecursShorter(d1 + d2, w, n);
      ProductOfRecurring(d1, a, d2, b, w, n - 1);
      ProductRecurs(d1, a, d2, b, n);
      RecursAt(d1 + d2, w, n, n);
      SameStep(n as real, Times((n - 1) as real - (d1 + d2), At(w, n - 1)), Conv(a, b, n), At(w, n));
    }
  }

  lemma RecursShorter(d: real, a: seq<real>, n: nat)
    requires n > 0 && Recurs(d, a, n)
    ensures Recurs(d, a, n - 1)
  {
    hide Times;
  }

  lemma SameStep(f: real, p: real, x: real, y: real)
    requires f != 0.0
    ensures Times(f, x) == p && Times(f, y) == p ==> x == y
    ensures Times(1.0, 1.0) == 1.0
  {
    if f * x == f * y {
      assert f * (x - y) == 0.0;
    }
  }

  /** Vandermonde's identity: the weights of two orders convolve to the weights of their sum. */
  lemma Vandermonde(d1: real, d2: real, n: nat, size: nat)
    requires n < size
    ensures Conv(Weights(d1, size), Weights(d2, size), n) == Weight(d1 + d2, n)
  {
    var a, b, w := Weights(d1, size), Weights(d2, size), Weights(d1 + d2, size);
    assert At(a, 0) == At(b, 0) == At(w, 0) == 1.0 && At(w, n) == Weight(d1 + d2, n);
    WeightsRecurTo(d1, a, size, n);
    WeightsRecurTo(d2, b, size, n);
    WeightsRecurTo(d1 + d2, w, size, n);
    hide *;
    ProductOfRecurring(d1, a, d2, b, w, n);
  }

  lemma WeightsRecurTo(d: real, a: seq<real>, size: nat, n: nat)
    requires n < size && a == Weights(d, size)
    ensures Recurs(d, a, n)
  {
    hide Weight, Times;
    WeightsRecur(d, size);
  }

  // ---------- The operations ----------

  predicate ZeroOrder(d: real) {
    Abs(d) < ORDER_EPSILON
  }

  /** The order that the source actually applies. */
  function AppliedOrder(d: real): real {
    if ZeroOrder(d) then 0.0 else d
  }

  /** How many weights survive: the first lag from k on whose weight is below the threshold, or size. */
  function Kept(d: real, k: nat, size: nat, threshold: real): (m: nat)
    requires k <= size
    ensures k <= m <= size
    ensures forall j :: k <= j < m ==> Abs(Weight(d, j)) >= threshold
    ensures m < size ==> Abs(Weight(d, m)) < threshold
    decreases size - k
  {
    if k == size || Abs(Weight(d, k)) < threshold then k else Kept(d, k + 1, size, threshold)
  }

  function FractionalWeights(d: real, size: int, threshold: real): seq<real> {
    if size <= 0 then []
    else if ZeroOrder(d) then Weights(0.0, size)
    else Weights(d, Kept(d, 1, size, threshold))
  }

  method GetFractionalWeights(d: real, size: int, threshold: real) returns (weights: seq<real>)
    ensures weights == FractionalWeights(d, size, threshold)
  {
    hide Weight, NextWeight;
    if size <= 0 {
      return [];
    }
    if Abs(d) < ORDER_EPSILON {
      weights := [1.0] + seq(size - 1, _ => 0.0);
      forall k: nat | k < size ensures weights[k] == Weight(0.0, k) {
        ZeroOrderWeight(k);
      }
      return;
    }
    weights := [1.0];
    FirstWeight(d);
    var k := 1;
    while k < size
      invariant 1 <= k <= size && |weights| == k
      invariant forall j :: 0 <= j < k ==> weights[j] == Weight(d, j)
      invariant Kept(d, 1, size, threshold) == Kept(d, k, size, threshold)
    {
      var weight := NextWeight(weights[k - 1], d, k as real);
      WeightDefinition(d, k);
      if Abs(weight) < threshold {
        break;
      }
      weights := weights + [weight];
      k := k + 1;
    }
    assert weights == Weights(d, k);
  }

  lemma {:induction false} ZeroOrderWeight(k: nat)
    ensures Weight(0.0, k) == if k == 0 then 1.0 else 0.0
  {
    if k > 1 {
      ZeroOrderWeight(k - 1);
    }
  }

  function FracDiff(x: seq<real>, d: real, threshold: real): (y: seq<real>)
    ensures |y| == |x|
  {
    if x == [] || ZeroOrder(d) then x
    else Causal(FractionalWeights(d, |x|, threshold), x)
  }

  method FracDiffCausal(x: seq<real>, d: real, threshold: real) returns (y: seq<real>)
    ensures y == FracDiff(x, d, threshold)
  {
    if |x| == 0 || Abs(d) < ORDER_EPSILON {
      return x;
    }
    var weights := GetFractionalWeights(d, |x|, threshold);
    y := Causal(weights, x);
  }

  // ---------- Composition and inversion ----------

  /** Differencing with every weight kept. */
  function ExactDiff(x: seq<real>, d: real): (y: seq<real>)
    ensures |y| == |x|
  {
    Causal(Weights(d, |x|), x)
  }

  /** A zero threshold keeps every weight. */
  lemma ZeroThresholdIsExact(x: seq<real>, d: real)
    ensures FracDiff(x, d, 0.0) == ExactDiff(x, AppliedOrder(d))
  {
    if ZeroOrder(d) {
      ExactDiffOfOrderZero(x);
    } else if x != [] {
      assert Kept(d, 1, |x|, 0.0) == |x|;
    }
  }

  lemma ExactDiffOfOrderZero(x: seq<real>)
    ensures ExactDiff(x, 0.0) == x
  {
    forall t | 0 <= t < |x| ensures ExactDiff(x, 0.0)[t] == x[t] {
      ZeroOrderConv(x, t);
    }
  }

  lemma ZeroOrderConv(x: seq<real>, t: nat)
    requires t < |x|
    ensures Conv(Weights(0.0, |x|), x, t) == x[t]
  {
    var w := Weights(0.0, |x|);
    if t > 0 {
      forall m: nat ensures At(Tail(w), m) == 0.0 {
        if m + 1 < |w| {
          ZeroOrderWeight(m + 1);
        }
      }
      ConvZero(Tail(w), x, t - 1);
    }
  }

  /** Orders add up when exact differences are composed. */
  lemma ExactDiffComposes(x: seq<real>, d1: real, d2: real)
    ensures ExactDiff(ExactDiff(x, d2), d1) == ExactDiff(x, d1 + d2)
  {
    var n, y := |x|, ExactDiff(x, d2);
    forall t | 0 <= t < n ensures ExactDiff(y, d1)[t] == ExactDiff(x, d1 + d2)[t] {
      forall m: nat | m <= t
        ensures At(y, m) == Conv(Weights(d2, n), x, m)
        ensures At(Weights(d1 + d2, n), m) == Conv(Weights(d1, n), Weights(d2, n), m)
      {
        Vandermonde(d1, d2, m, n);
        hide Weight, Conv;
      }
      hide *;
      ConvAssociative(Weights(d1, n), Weights(d2, n), x, y, Weights(d1 + d2, n), t);
    }
  }

  /**
   With no weight dropped, differencing by d2 and then by d1 is differencing by d1 + d2 for every
   series exactly when treating tiny orders as zero does not change the sum of the orders.
   */
  lemma CompositionLaw(d1: real, d2: real)
    ensures (forall x: seq<real> :: FracDiff(FracDiff(x, d2, 0.0), d1, 0.0) == FracDiff(x, d1 + d2, 0.0))
       <==> AppliedOrder(d1) + AppliedOrder(d2) == AppliedOrder(d1 + d2)
  {
    var e1, e2, e := AppliedOrder(d1), AppliedOrder(d2), AppliedOrder(d1 + d2);
    forall x: seq<real>
      ensures FracDiff(FracDiff(x, d2, 0.0), d1, 0.0) == ExactDiff(x, e1 + e2)
      ensures FracDiff(x, d1 + d2, 0.0) == ExactDiff(x, e)
    {
      ComposedOrders(x, d1, d2);
    }
    if forall x: seq<real> :: FracDiff(FracDiff(x, d2, 0.0), d1, 0.0) == FracDiff(x, d1 + d2, 0.0) {
      var impulse := [1.0, 0.0];
      assert FracDiff(FracDiff(impulse, d2, 0.0), d1, 0.0) == FracDiff(impulse, d1 + d2, 0.0);
      SecondTermShowsOrder(e1 + e2);
      SecondTermShowsOrder(e);
    }
  }

  lemma ComposedOrders(x: seq<real>, d1: real, d2: real)
    ensures FracDiff(FracDiff(x, d2, 0.0), d1, 0.0) == ExactDiff(x, AppliedOrder(d1) + AppliedOrder(d2))
    ensures FracDiff(x, d1 + d2, 0.0) == ExactDiff(x, AppliedOrder(d1 + d2))
  {
    hide *;
    ZeroThresholdIsExact(x, d2);
    ZeroThresholdIsExact(FracDiff(x, d2, 0.0), d1);
    ZeroThresholdIsExact(x, d1 + d2);
    ExactDiffComposes(x, AppliedOrder(d1), AppliedOrder(d2));
  }

  lemma SecondTermShowsOrder(d: real)
    ensures ExactDiff([1.0, 0.0], d)[1] == -d
  {
    var w := Weights(d, 2);
    assert Conv(w, [1.0, 0.0], 1) == w[0] * 0.0 + w[1] * 1.0;
    assert Weight(d, 1) == -d;
  }

  /** Two orders that are each tiny but not together break the law. */
  lemma CompositionCounterexample()
    ensures exists d, x :: FracDiff(FracDiff(x, d, 0.0), d, 0.0) != FracDiff(x, d + d, 0.0)
  {
    var d := 0.0000000000006;
    CompositionLaw(d, d);
  }

  /** Differencing by -d undoes differencing by d, for every order and every series. */
  lemma RoundTrip(x: seq<real>, d: real)
    ensures FracDiff(FracDiff(x, d, 0.0), -d, 0.0) == x
  {
    ComposedOrders(x, -d, d);
    ExactDiffOfOrderZero(x);
  }

  /** Order 1 is the ordinary first difference. */
  lemma OrderOneIsFirstDifference(x: seq<real>, t: nat)
    requires t < |x|
    ensures FracDiff(x, 1.0, 0.0)[t] == if t == 0 then x[0] else x[t] - x[t - 1]
  {
    ZeroThresholdIsExact(x, 1.0);
    var w := Weights(1.0, |x|);
    ConvStep(w, x, t);
    if t > 0 {
      ConvStep(Tail(w), x, t - 1);
      assert At(w, 0) == 1.0 && At(Tail(w), 0) == Weight(1.0, 1) == -1.0;
      if t > 1 {
        forall m: nat ensures At(Tail(Tail(w)), m) == 0.0 {
          if m + 2 < |w| {
            OrderOneWeight(m + 2);
          }
        }
        ConvZero(Tail(Tail(w)), x, t - 2);
      }
    }
  }

  lemma {:induction false} OrderOneWeight(k: nat)
    requires k >= 2
    ensures Weight(1.0, k) == 0.0
  {
    if k > 2 {
      OrderOneWeight(k - 1);
    }
  }

  // ---------- Truncation ----------

  /** A weight below 1 in size can only appear at a lag beyond which weights never grow. */
  lemma {:induction false} SmallWeightBounds(d: real, k: nat)
    requires Abs(Weight(d, k)) < 1.0
    ensures k >= 1 && -1.0 < d < 2.0 * k as real - 1.0
  {
    if k > 0 && (d <= -1.0 || d >= 2.0 * k as real - 1.0) {
      WeightDefinition(d, k);
      hide *;
      if k > 1 && Abs(Weight(d, k - 1)) < 1.0 {
        SmallWeightBounds(d, k - 1);
        assert false;
      }
      FirstWeight(d);
      RatioAtLeastOne(Weight(d, k - 1), d, k as real);
    }
  }

  lemma FirstWeight(d: real)
    ensures Weight(d, 0) == 1.0 && Abs(1.0) == 1.0
  {
  }

  lemma RatioAtLeastOne(w: real, d: real, q: real)
    requires q >= 1.0 && (d <= -1.0 || d >= 2.0 * q - 1.0) && Abs(w) >= 1.0
    ensures Abs(NextWeight(w, d, q)) >= 1.0
  {
    var r := (d - q + 1.0) / q;
    if d <= -1.0 {
      assert r <= -1.0;
    } else {
      assert r >= 1.0;
    }
    NextWeightByRatio(w, d, q);
    ProductAtLeastOne(w, r);
  }

  lemma NextWeightByRatio(w: real, d: real, q: real)
    requires q != 0.0
    ensures NextWeight(w, d, q) == -w * ((d - q + 1.0) / q)
  {
    var r := (d - q + 1.0) / q;
    assert r * q == d - q + 1.0;
    assert -w * (d - q + 1.0) == (-w * r) * q;
  }

  lemma ProductAtMost(w: real, r: real)
    requires -1.0 <= r <= 1.0
    ensures Abs(-w * r) <= Abs(w)
  {
    if w >= 0.0 {
      assert -w <= w * r <= w;
    } else {
      assert w <= -w * r <= -w;
    }
  }

  lemma ProductAtLeastOne(w: real, r: real)
    requires Abs(w) >= 1.0 && Abs(r) >= 1.0
    ensures Abs(-w * r) >= 1.0
  {
    assert Abs(-w * r) == Abs(w) * Abs(r);
  }

  lemma RatioAtMostOne(w: real, d: real, q: real)
    requires q >= 1.0 && -1.0 <= d <= 2.0 * q - 1.0
    ensures Abs(NextWeight(w, d, q)) <= Abs(w)
  {
    var r := (d - q + 1.0) / q;
    assert -1.0 <= r <= 1.0;
    NextWeightByRatio(w, d, q);
    ProductAtMost(w, r);
  }

  /** Once the recurrence has passed its peak, weights only shrink. */
  lemma {:induction false} WeightsShrink(d: real, k: nat, j: nat)
    requires k <= j && -1.0 <= d <= 2.0 * k as real + 1.0
    ensures Abs(Weight(d, j)) <= Abs(Weight(d, k))
    decreases j - k
  {
    if k < j {
      WeightDefinition(d, j);
      hide *;
      WeightsShrink(d, k, j - 1);
      assert (k as real) + 1.0 <= j as real;
      RatioAtMostOne(Weight(d, j - 1), d, j as real);
    }
  }

  /** The orders and thresholds for which cutting at the first small weight loses no larger one. */
  predicate CutIsSafe(d: real, threshold: real) {
    threshold <= 1.0 || -1.0 <= d <= 1.0
  }

  /** Every dropped weight is below the threshold, although only the first one was tested. */
  lemma DroppedWeightsAreSmall(d: real, size: nat, threshold: real, j: nat)
    requires CutIsSafe(d, threshold) && size > 0
    requires Kept(d, 1, size, threshold) <= j < size
    ensures Abs(Weight(d, j)) < threshold
  {
    var m := Kept(d, 1, size, threshold);
    if threshold <= 1.0 {
      SmallWeightBounds(d, m);
    }
    WeightsShrink(d, m, j);
  }

  /** f and g differ by at most e up to index n. */
  ghost predicate CloseUpTo(f: seq<real>, g: seq<real>, e: real, n: int) {
    forall m: nat {:trigger At(f, m)} :: m <= n ==> Abs(At(f, m) - At(g, m)) <= e
  }

  ghost predicate BoundedUpTo(x: seq<real>, bound: real, n: int) {
    forall m: nat {:trigger At(x, m)} :: m <= n ==> Abs(At(x, m)) <= bound
  }

  lemma CloseTails(f: seq<real>, g: seq<real>, x: seq<real>, e: real, bound: real, n: nat)
    requires CloseUpTo(f, g, e, n) && BoundedUpTo(x, bound, n)
    ensures Abs(At(f, 0) - At(g, 0)) <= e && Abs(At(x, n)) <= bound
    ensures CloseUpTo(Tail(f), Tail(g), e, n - 1) && BoundedUpTo(x, bound, n - 1)
  {
    forall m: nat | m <= n - 1 ensures Abs(At(Tail(f), m) - At(Tail(g), m)) <= e {
      assert Abs(At(f, m + 1) - At(g, m + 1)) <= e;
    }
  }

  /** Two filters that differ by at most e per weight differ by at most e times the input size per term. */
  lemma {:induction false} ConvClose(f: seq<real>, g: seq<real>, x: seq<real>, e: real, bound: real, n: nat)
    requires CloseUpTo(f, g, e, n) && BoundedUpTo(x, bound, n)
    ensures Abs(Conv(f, x, n) - Conv(g, x, n)) <= Times((n + 1) as real, Times(e, bound))
    decreases n
  {
    hide *;
    CloseTails(f, g, x, e, bound, n);
    ConvStep(f, x, n);
    ConvStep(g, x, n);
    CloseTerm(At(f, 0), At(g, 0), At(x, n), e, bound);
    if n > 0 {
      ConvClose(Tail(f), Tail(g), x, e, bound, n - 1);
      assert (n - 1) + 1 == n && (n + 1) as real == n as real + 1.0;
      AddTerm(Times(At(f, 0), At(x, n)), Times(At(g, 0), At(x, n)),
              Conv(Tail(f), x, n - 1), Conv(Tail(g), x, n - 1), n as real, Times(e, bound));
    } else {
      AddTerm(Times(At(f, 0), At(x, n)), Times(At(g, 0), At(x, n)), 0.0, 0.0, 0.0, Times(e, bound));
    }
  }

  lemma CloseTerm(f: real, g: real, x: real, e: real, bound: real)
    requires Abs(f - g) <= e && Abs(x) <= bound
    ensures Abs(Times(f, x) - Times(g, x)) <= Times(e, bound)
  {
    var u := f - g;
    assert Times(f, x) - Times(g, x) == u * x;
    NonNegativeProduct(e - u, bound + x);
    NonNegativeProduct(e + u, bound - x);
    NonNegativeProduct(e + u, bound + x);
    NonNegativeProduct(e - u, bound - x);
    assert (e - u) * (bound + x) + (e + u) * (bound - x) == 2.0 * (e * bound) - 2.0 * (u * x);
    assert (e + u) * (bound + x) + (e - u) * (bound - x) == 2.0 * (e * bound) + 2.0 * (u * x);
  }

  lemma NonNegativeProduct(a: real, b: real)
    requires a >= 0.0 && b >= 0.0
    ensures a * b >= 0.0
  {
  }

  lemma AddTerm(p: real, q: real, r: real, s: real, n: real, u: real)
    requires Abs(p - q) <= u && (Abs(r - s) <= Times(n, u) || (r == s && n == 0.0))
    ensures Abs((p + r) - (q + s)) <= Times(n + 1.0, u)
  {
  }

  /** Cutting off small weights moves term t by at most (t + 1) times the threshold times the largest input. */
  lemma TruncationError(x: seq<real>, d: real, threshold: real, bound: real, t: nat)
    requires t < |x| && threshold >= 0.0 && CutIsSafe(d, threshold)
    requires forall i :: 0 <= i < |x| ==> Abs(x[i]) <= bound
    ensures Abs(FracDiff(x, d, threshold)[t] - FracDiff(x, d, 0.0)[t]) <= Times((t + 1) as real, Times(threshold, bound))
  {
    assert Abs(x[0]) <= bound;
    if ZeroOrder(d) {
      assert threshold * bound >= 0.0;
    } else {
      var m := Kept(d, 1, |x|, threshold);
      ZeroThresholdIsExact(x, d);
      var full, cut := Weights(d, |x|), Weights(d, m);
      forall j: nat | j <= t ensures Abs(At(cut, j) - At(full, j)) <= threshold {
        if m <= j {
          DroppedWeightsAreSmall(d, |x|, threshold, j);
        }
        hide Weight;
      }
      hide Weight, Conv, Times;
      ConvClose(cut, full, x, threshold, bound, t);
    }
  }

  // ---------- Causality ----------

  /** A term of a convolution reads only terms up to its own index. */
  lemma {:induction false} ConvLocal(w: seq<real>, w': seq<real>, x: seq<real>, x': seq<real>, n: nat)
    requires forall m: nat {:trigger At(w, m)} :: m <= n ==> At(w, m) == At(w', m)
    requires forall m: nat {:trigger At(x, m)} :: m <= n ==> At(x, m) == At(x', m)
    ensures Conv(w, x, n) == Conv(w', x', n)
    decreases n
  {
    hide Times;
    assert At(w, 0) == At(w', 0) && At(x, n) == At(x', n);
    if n > 0 {
      forall m: nat | m <= n - 1 ensures At(Tail(w), m) == At(Tail(w'), m) {
        assert At(w, m + 1) == At(w', m + 1);
      }
      ConvLocal(Tail(w), Tail(w'), x, x', n - 1);
    }
  }

  /** The surviving weights of a longer series extend those of a shorter one. */
  lemma {:induction false} KeptOfLonger(d: real, k: nat, size: nat, longer: nat, threshold: real)
    requires k <= size <= longer
    ensures Kept(d, k, size, threshold) == MinInt(size, Kept(d, k, longer, threshold))
    decreases size - k
  {
    hide Weight;
    if k < size && Abs(Weight(d, k)) >= threshold {
      KeptOfLonger(d, k + 1, size, longer, threshold);
    }
  }

  /** Strict causality: later values never change earlier results, with any order and threshold. */
  lemma Causality(x: seq<real>, later: seq<real>, d: real, threshold: real)
    ensures FracDiff(x + later, d, threshold)[..|x|] == FracDiff(x, d, threshold)
  {
    if x == [] || ZeroOrder(d) {
      assert (x + later)[..|x|] == x;
    } else {
      var w := FractionalWeights(d, |x|, threshold);
      var w' := FractionalWeights(d, |x + later|, threshold);
      KeptOfLonger(d, 1, |x|, |x + later|, threshold);
      forall t | 0 <= t < |x|
        ensures Conv(w, x, t) == Conv(w', x + later, t)
      {
        hide Conv, Weight;
        ConvLocal(w, w', x, x + later, t);
      }
    }
  }
}
