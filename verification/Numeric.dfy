/** Exact arithmetic shared by the models: the source's floats are real numbers here. */
module Numeric {

  function Min(a: real, b: real): real {
    if a <= b then a else b
  }

  function Max(a: real, b: real): real {
    if a >= b then a else b
  }

  function Abs(a: real): real {
    if a < 0.0 then -a else a
  }

  function MinInt(a: int, b: int): int {
    if a <= b then a else b
  }

  function MaxInt(a: int, b: int): int {
    if a >= b then a else b
  }

  /** The least integer that is not below x. */
  function Ceil(x: real): (n: int)
    ensures n as real - 1.0 < x <= n as real
  {
    -((-x).Floor)
  }

  /** Rounds down to cents. */
  function FloorCents(x: real): real {
    (x * 100.0).Floor as real / 100.0
  }

  /** Rounds up to cents. */
  function CeilCents(x: real): real {
    Ceil(x * 100.0) as real / 100.0
  }

  /** True of amounts that are whole cents. */
  predicate WholeCents(x: real) {
    (x * 100.0).Floor as real == x * 100.0
  }

  /** Rounds to the nearest integer, a tie to the even neighbour. */
  function RoundHalfEven(x: real): (n: int)
    ensures Abs(n as real - x) <= 0.5
  {
    var low := x.Floor;
    var rest := x - low as real;
    if rest < 0.5 || (rest == 0.5 && low % 2 == 0) then low else low + 1
  }

  /** Rounds to four decimals, as the built-in rounding of the source does. */
  function Round4(x: real): (r: real)
    ensures Abs(r - x) <= 0.00005
    ensures x == 0.0 ==> r == 0.0
  {
    RoundHalfEven(x * 10000.0) as real / 10000.0
  }

  /** Multiplication under a name, so that proofs may treat products as atoms. */
  function Times(x: real, y: real): real {
    x * y
  }

  lemma TimesSuccessor(n: nat, x: real)
    ensures Times(0 as real, x) == 0.0
    ensures Times((n + 1) as real, x) == Times(n as real, x) + x
    ensures x >= 0.0 ==> Times(n as real, x) >= 0.0
  {
    assert (n + 1) as real == n as real + 1.0;
  }
}
