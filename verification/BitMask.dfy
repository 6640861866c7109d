/** Bitwise "and" of natural numbers, as far as indexing a buffer by a bit mask needs it. */
module BitMask {
  function BitAnd(a: nat, b: nat): nat {
    if a == 0 || b == 0 then 0
    else (if a % 2 == 1 && b % 2 == 1 then 1 else 0) + 2 * BitAnd(a / 2, b / 2)
  }

  function Pow2(k: nat): (p: nat)
    ensures p >= 1
  {
    if k == 0 then 1 else 2 * Pow2(k - 1)
  }

  ghost predicate IsPow2(n: nat) {
    exists k: nat :: n == Pow2(k)
  }

  lemma {:induction false} AndSelf(n: nat)
    ensures BitAnd(n, n) == n
  {
    if n > 0 {
      AndSelf(n / 2);
    }
  }

  lemma Doubling(n: nat)
    requires n > 0
    ensures IsPow2(2 * n) <==> IsPow2(n)
  {
    if IsPow2(n) {
      var k: nat :| n == Pow2(k);
      assert 2 * n == Pow2(k + 1);
    }
    if IsPow2(2 * n) {
      var k: nat :| 2 * n == Pow2(k);
      assert n == Pow2(k - 1);
    }
  }

  lemma OddPower(n: nat)
    requires n % 2 == 1
    ensures IsPow2(n) <==> n == 1
  {
    assert Pow2(0) == 1;
  }

  /** The bit test accepts exactly the powers of two. */
  lemma {:induction false} BitTest(n: nat)
    requires n > 0
    ensures BitAnd(n, n - 1) == 0 <==> IsPow2(n)
  {
    if n % 2 == 0 {
      BitTest(n / 2);
      Doubling(n / 2);
      assert n > 1 ==> (n - 1) / 2 == n / 2 - 1;
    } else {
      OddPower(n);
      if n > 1 {
        AndSelf(n / 2);
        assert (n - 1) / 2 == n / 2;
      }
    }
  }

  lemma HalvesOfRemainder(a: nat, m: nat)
    requires m > 0
    ensures a % (2 * m) == a % 2 + 2 * (a / 2 % m)
  {
    var q, r := a / 2 / m, a / 2 % m;
    assert a / 2 == q * m + r;
    var s := a % 2 + 2 * r;
    assert a == q * (2 * m) + s;
    UniqueRemainder(a, 2 * m, q, s);
  }

  lemma MultipleBound(d: int, m: nat)
    ensures d >= 1 ==> d * m >= m
    ensures d <= -1 ==> d * m <= -1 * m
  {
  }

  lemma UniqueRemainder(a: nat, m: nat, q: nat, r: nat)
    requires a == q * m + r && r < m
    ensures a % m == r
  {
    var d := a / m - q;
    assert d * m == r - a % m;
    MultipleBound(d, m);
  }

  lemma AndOdd(a: nat, m: nat)
    requires m > 0
    ensures BitAnd(a, 2 * m - 1) == a % 2 + 2 * BitAnd(a / 2, m - 1)
  {
    assert (2 * m - 1) / 2 == m - 1;
  }

  /** Masking with the predecessor of a power of two is the remainder. */
  lemma {:induction false} MaskIsRemainder(a: nat, k: nat)
    ensures BitAnd(a, Pow2(k) - 1) == a % Pow2(k)
  {
    if k > 0 {
      var m := Pow2(k - 1);
      assert Pow2(k) == 2 * m;
      hide BitAnd, Pow2;
      MaskIsRemainder(a / 2, k - 1);
      HalvesOfRemainder(a, m);
      AndOdd(a, m);
    }
  }

  /** Of two powers of two, the smaller divides the larger. */
  lemma {:induction false} PowersDivide(j: nat, k: nat)
    requires Pow2(j) <= Pow2(k)
    ensures Pow2(k) % Pow2(j) == 0
  {
    if j == k {
    } else if k == 0 {
    } else {
      PowerOrder(j, k);
      PowersDivide(j, k - 1);
      TwiceMultiple(Pow2(k - 1), Pow2(j));
    }
  }

  lemma {:induction false} PowerOrder(j: nat, k: nat)
    requires Pow2(j) <= Pow2(k)
    ensures j <= k
    ensures j < k ==> Pow2(j) <= Pow2(k - 1)
  {
    if k == 0 {
    } else if j > 0 {
      PowerOrder(j - 1, k - 1);
    }
  }

  lemma TwiceMultiple(a: nat, m: nat)
    requires m > 0 && a % m == 0
    ensures 2 * a % m == 0
  {
    var q := a / m;
    assert a == q * m;
    UniqueRemainder(2 * a, m, 2 * q, 0);
  }

  lemma Regroup(q: int, c: int, m: int, x: int, r: int)
    ensures q * (c * m) + (x * m + r) == (q * c + x) * m + r
  {
    assert q * (c * m) == q * c * m;
  }

  lemma RemainderOfSum(a: nat, q: nat, c: nat, m: nat, x: nat, r: nat)
    requires a == q * (c * m) + (x * m + r) && r < m
    ensures a % m == r
  {
    Regroup(q, c, m, x, r);
    UniqueRemainder(a, m, q * c + x, r);
  }

  /** Reducing first by a multiple of the modulus changes nothing. */
  lemma NestedRemainder(a: nat, w: nat, m: nat)
    requires m > 0 && w > 0 && w % m == 0
    ensures a % w % m == a % m
  {
    var q, b, c := a / w, a % w, w / m;
    var x, r := b / m, b % m;
    assert a == q * w + b;
    assert w == c * m;
    assert b == x * m + r;
    RemainderOfSum(a, q, c, m, x, r);
  }
}
