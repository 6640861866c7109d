/** Truncated products of power series, read off finite coefficient sequences. */
module PowerSeries {

  import opened Numeric

  /** Reads a sequence as the coefficients of a power series: zero beyond its end. */
  function At(a: seq<real>, k: nat): real {
    if k < |a| then a[k] else 0.0
  }

  function Tail(a: seq<real>): seq<real> {
    if a == [] then [] else a[1..]
  }

  /** The sum of a[j] * b[n - j] over j from 0 to n. */
  function Conv(a: seq<real>, b: seq<real>, n: nat): real
    decreases n
  {
    Times(At(a, 0), At(b, n)) + if n == 0 then 0.0 else Conv(Tail(a), b, n - 1)
  }

  lemma ConvStep(a: seq<real>, b: seq<real>, n: nat)
    ensures Conv(a, b, n) == Times(At(a, 0), At(b, n)) + if n == 0 then 0.0 else Conv(Tail(a), b, n - 1)
  {
  }

  /** h is s * f + g up to index n. */
  ghost predicate Combines(s: real, f: seq<real>, g: seq<real>, h: seq<real>, n: int) {
    forall m: nat {:trigger At(h, m)} :: m <= n ==> At(h, m) == Times(s, At(f, m)) + At(g, m)
  }

  lemma CombinesAt(s: real, f: seq<real>, g: seq<real>, h: seq<real>, n: int, m: nat)
    requires Combines(s, f, g, h, n) && m <= n
    ensures At(h, m) == Times(s, At(f, m)) + At(g, m)
  {
  }

  lemma TailCombines(s: real, f: seq<real>, g: seq<real>, h: seq<real>, n: int)
    requires Combines(s, f, g, h, n)
    ensures Combines(s, f, g, h, n - 1) && Combines(s, Tail(f), Tail(g), Tail(h), n - 1)
  {
    forall m: nat | m <= n - 1
      ensures At(Tail(h), m) == Times(s, At(Tail(f), m)) + At(Tail(g), m)
    {
      hide Times;
      CombinesAt(s, f, g, h, n, m + 1);
    }
  }

  /** Convolution is linear in its left argument. */
  lemma {:induction false} ConvLinearLeft(s: real, f: seq<real>, g: seq<real>, h: seq<real>, c: seq<real>, n: nat)
    requires Combines(s, f, g, h, n)
    ensures Conv(h, c, n) == Times(s, Conv(f, c, n)) + Conv(g, c, n)
    decreases n
  {
    hide *;
    ConvStep(f, c, n);
    ConvStep(g, c, n);
    ConvStep(h, c, n);
    CombinesAt(s, f, g, h, n, 0);
    if n == 0 {
      LinearLeftTerm(s, At(f, 0), At(g, 0), At(c, n), 0.0, 0.0);
      TimesZero(s);
    } else {
      TailCombines(s, f, g, h, n);
      ConvLinearLeft(s, Tail(f), Tail(g), Tail(h), c, n - 1);
      LinearLeftTerm(s, At(f, 0), At(g, 0), At(c, n), Conv(Tail(f), c, n - 1), Conv(Tail(g), c, n - 1));
    }
  }

  lemma LinearLeftTerm(s: real, x: real, y: real, z: real, p: real, q: real)
    ensures Times(Times(s, x) + y, z) + (Times(s, p) + q) == Times(s, Times(x, z) + p) + (Times(y, z) + q)
  {
  }

  lemma TimesZero(s: real)
    ensures Times(s, 0.0) == 0.0
  {
  }

  /** Convolution is linear in its right argument. */
  lemma {:induction false} ConvLinearRight(a: seq<real>, s: real, f: seq<real>, g: seq<real>, h: seq<real>, n: nat)
    requires Combines(s, f, g, h, n)
    ensures Conv(a, h, n) == Times(s, Conv(a, f, n)) + Conv(a, g, n)
    decreases n
  {
    hide *;
    ConvStep(a, f, n);
    ConvStep(a, g, n);
    ConvStep(a, h, n);
    CombinesAt(s, f, g, h, n, n);
    if n == 0 {
      LinearRightTerm(s, At(a, 0), At(f, n), At(g, n), 0.0, 0.0);
      TimesZero(s);
    } else {
      TailCombines(s, f, g, h, n);
      ConvLinearRight(Tail(a), s, f, g, h, n - 1);
      LinearRightTerm(s, At(a, 0), At(f, n), At(g, n), Conv(Tail(a), f, n - 1), Conv(Tail(a), g, n - 1));
    }
  }

  lemma LinearRightTerm(s: real, x: real, y: real, z: real, p: real, q: real)
    ensures Times(x, Times(s, y) + z) + (Times(s, p) + q) == Times(s, Times(x, y) + p) + (Times(x, z) + q)
  {
  }

  /** A right argument that starts with zero may drop that term. */
  lemma {:induction false} ConvShiftRight(a: seq<real>, b: seq<real>, n: nat)
    requires n > 0 && At(b, 0) == 0.0
    ensures Conv(a, b, n) == Conv(a, Tail(b), n - 1)
    decreases n
  {
    assert At(Tail(b), n - 1) == At(b, n);
    hide *;
    ConvStep(a, b, n);
    ConvStep(a, Tail(b), n - 1);
    if n > 1 {
      ConvShiftRight(Tail(a), b, n - 1);
    } else {
      ConvStep(Tail(a), b, 0);
      TimesZero(At(Tail(a), 0));
    }
  }

  /** p holds the terms of the product of a and b up to index n. */
  ghost predicate IsProduct(p: seq<real>, a: seq<real>, b: seq<real>, n: int) {
    forall m: nat {:trigger At(p, m)} :: m <= n ==> At(p, m) == Conv(a, b, m)
  }

  lemma ProductAt(p: seq<real>, a: seq<real>, b: seq<real>, n: int, m: nat)
    requires IsProduct(p, a, b, n) && m <= n
    ensures At(p, m) == Conv(a, b, m)
  {
  }

  /** Associativity of truncated convolution, with ab and bc standing for the two partial products. */
  lemma {:induction false} ConvAssociative(a: seq<real>, b: seq<real>, c: seq<real>,
                                           bc: seq<real>, ab: seq<real>, n: nat)
    requires IsProduct(bc, b, c, n) && IsProduct(ab, a, b, n)
    ensures Conv(a, bc, n) == Conv(ab, c, n)
    decreases n
  {
    hide *;
    ConvStep(a, b, 0);
    ConvStep(b, c, n);
    ConvStep(a, bc, n);
    ConvStep(ab, c, n);
    ProductAt(ab, a, b, n, 0);
    ProductAt(bc, b, c, n, n);
    if n == 0 {
      AssociativeTerm(At(a, 0), At(b, 0), At(c, 0), 0.0);
      TimesZero(At(a, 0));
    } else {
      var rest := PartialProduct(a, b, ab, n);
      ProductShorter(bc, b, c, n);
      ConvAssociative(Tail(a), b, c, bc, rest, n - 1);
      ConvLinearLeft(At(a, 0), Tail(b), rest, Tail(ab), c, n - 1);
      AssociativeTerm(At(a, 0), At(b, 0), At(c, n), Conv(Tail(b), c, n - 1));
    }
  }

  lemma AssociativeTerm(x: real, y: real, z: real, r: real)
    ensures Times(x, Times(y, z) + r) == Times(Times(x, y), z) + Times(x, r)
    ensures Times(Times(x, y) + 0.0, z) == Times(Times(x, y), z)
  {
  }

  lemma ProductShorter(p: seq<real>, a: seq<real>, b: seq<real>, n: int)
    requires IsProduct(p, a, b, n)
    ensures IsProduct(p, a, b, n - 1)
  {
    hide Conv;
  }

  /** Dropping the first term of a product leaves a multiple of b's tail plus a shorter product. */
  lemma PartialProduct(a: seq<real>, b: seq<real>, ab: seq<real>, n: nat) returns (rest: seq<real>)
    requires n > 0 && IsProduct(ab, a, b, n)
    ensures IsProduct(rest, Tail(a), b, n - 1)
    ensures Combines(At(a, 0), Tail(b), rest, Tail(ab), n - 1)
  {
    hide Conv, Times;
    rest := seq(n, (m: nat) => Conv(Tail(a), b, m));
    forall m: nat | m <= n - 1
      ensures At(Tail(ab), m) == Times(At(a, 0), At(Tail(b), m)) + At(rest, m)
    {
      ProductAt(ab, a, b, n, m + 1);
      ConvStep(a, b, m + 1);
    }
  }

  /** a1 is a with every term weighted by its index, counted from k. */
  ghost predicate IndexWeighted(a: seq<real>, k: real, a1: seq<real>, n: int) {
    forall m: nat {:trigger At(a1, m)} :: m <= n ==> At(a1, m) == Times(k + m as real, At(a, m))
  }

  lemma IndexWeightedAt(a: seq<real>, k: real, a1: seq<real>, n: int, m: nat)
    requires IndexWeighted(a, k, a1, n) && m <= n
    ensures At(a1, m) == Times(k + m as real, At(a, m))
  {
  }

  lemma TailIndexWeighted(a: seq<real>, k: real, a1: seq<real>, n: int)
    requires IndexWeighted(a, k, a1, n)
    ensures IndexWeighted(a, k, a1, n - 1) && IndexWeighted(Tail(a), k + 1.0, Tail(a1), n - 1)
  {
    hide Times;
    forall m: nat | m <= n - 1
      ensures At(Tail(a1), m) == Times(k + 1.0 + m as real, At(Tail(a), m))
    {
      IndexWeightedAt(a, k, a1, n, m + 1);
      assert k + (m + 1) as real == k + 1.0 + m as real;
    }
  }

  /** The Leibniz rule: weighting every term by its index weights the convolution by its index. */
  lemma {:induction false} ConvLeibniz(a: seq<real>, k: real, a1: seq<real>, b: seq<real>, b1: seq<real>, n: nat)
    requires IndexWeighted(a, k, a1, n) && IndexWeighted(b, 0.0, b1, n)
    ensures Times(k + n as real, Conv(a, b, n)) == Conv(a1, b, n) + Conv(a, b1, n)
    decreases n
  {
    hide *;
    IndexWeightedAt(a, k, a1, n, 0);
    IndexWeightedAt(b, 0.0, b1, n, n);
    ConvStep(a, b, n);
    ConvStep(a1, b, n);
    ConvStep(a, b1, n);
    if n == 0 {
      LeibnizTerm(k, 0.0, At(a, 0), At(b, n), 0.0);
    } else {
      TailIndexWeighted(a, k, a1, n);
      TailIndexWeighted(b, 0.0, b1, n);
      ConvLeibniz(Tail(a), k + 1.0, Tail(a1), b, b1, n - 1);
      assert k + 1.0 + (n - 1) as real == k + n as real;
      LeibnizTerm(k, n as real, At(a, 0), At(b, n), Conv(Tail(a), b, n - 1));
    }
  }

  lemma LeibnizTerm(k: real, n: real, x: real, y: real, r: real)
    ensures Times(k + n, Times(x, y) + r)
         == Times(Times(k + 0 as real, x), y) + Times(x, Times(0.0 + n, y)) + Times(k + n, r)
    ensures r == 0.0 ==> Times(k + n, r) == 0.0
  {
  }

  /** The first |x| terms of the full convolution of x with w. */
  function Causal(w: seq<real>, x: seq<real>): (y: seq<real>)
    ensures |y| == |x|
    ensures forall t :: 0 <= t < |x| ==> y[t] == Conv(w, x, t)
  {
    seq(|x|, (t: nat) => Conv(w, x, t))
  }

  /** A factor of zeros makes the product zero. */
  lemma {:induction false} ConvZero(w: seq<real>, x: seq<real>, n: nat)
    requires forall m: nat {:trigger At(w, m)} :: m <= n ==> At(w, m) == 0.0
    ensures Conv(w, x, n) == 0.0
    decreases n
  {
    assert At(w, 0) == 0.0;
    if n > 0 {
      forall m: nat | m <= n - 1 ensures At(Tail(w), m) == 0.0 {
        assert At(w, m + 1) == 0.0;
      }
      ConvZero(Tail(w), x, n - 1);
    }
  }
}
