/** Facts about integer multiplication, division and remainder that the solver does not find unaided. */
module Arith {

  lemma {:induction false} MulNonNeg(n: int, d: int)
    requires n >= 0 && d >= 0
    ensures n * d >= 0
  {
  }

  lemma {:induction false} MulSmall(n: int, d: int)
    requires n > 0 && -n < n * d < n
    ensures d == 0
  {
    if d >= 1 {
      assert n * d == n * (d - 1) + n;
      MulNonNeg(n, d - 1);
    } else if d <= -1 {
      assert n * d == n * (d + 1) - n;
      MulNonNeg(n, -(d + 1));
      assert n * (-(d + 1)) == -(n * (d + 1));
    }
  }

  lemma {:induction false} MulNonZero(n: int, e: int)
    requires n > 0 && e != 0
    ensures n * e != 0
  {
    if e > 0 {
      assert n * e == n * (e - 1) + n;
      MulNonNeg(n, e - 1);
    } else {
      assert n * e == -(n * (-e - 1)) - n;
      MulNonNeg(n, -e - 1);
    }
  }

  /** Quotient and remainder are determined by any decomposition `i == n * q + r` with `0 <= r < n`. */
  lemma {:induction false} ModUnique(i: int, n: int, q: int, r: int)
    requires n > 0 && 0 <= r < n && i == n * q + r
    ensures i % n == r && i / n == q
  {
    var q0, r0 := i / n, i % n;
    assert i == n * q0 + r0;
    assert n * (q0 - q) == r - r0;
    MulSmall(n, q0 - q);
  }

  lemma {:induction false} ModShift(i: int, n: int)
    requires n > 0 && i >= n
    ensures (i - n) % n == i % n
  {
    var q, r := i / n, i % n;
    assert i == n * q + r;
    assert i - n == n * (q - 1) + r;
    ModUnique(i - n, n, q - 1, r);
  }

  lemma {:induction false} DivShift(i: int, n: int)
    requires n > 0 && i >= n
    ensures (i - n) / n == i / n - 1
  {
    var q, r := i / n, i % n;
    assert i == n * q + r;
    assert i - n == n * (q - 1) + r;
    ModUnique(i - n, n, q - 1, r);
  }

  function Abs(d: int): nat
  {
    if d < 0 then -d else d
  }

  /** Whether `d` divides `x`, found by counting `x` down in steps of `|d|`. */
  predicate Divides(d: int, x: nat)
    requires d != 0
    decreases x
  {
    if x < Abs(d) then x == 0 else Divides(d, x - Abs(d))
  }

  /** How many whole steps of `n` fit in `x`, found by counting `x` down in steps of `n`. */
  function Quot(x: nat, n: nat): nat
    requires n > 0
    decreases x
  {
    if x < n then 0 else 1 + Quot(x - n, n)
  }

  /** The remainder by a divisor does not depend on the divisor's sign. */
  lemma {:induction false} ModSign(x: int, d: int)
    requires d != 0
    ensures x % d == x % Abs(d)
  {
    if d < 0 {
      var n := -d;
      var q, r := x / n, x % n;
      var q1, r1 := x / d, x % d;
      assert x == n * q + r;
      assert x == d * q1 + r1;
      assert d * q1 == -(n * q1);
      assert n * (q + q1) == n * q + n * q1;
      assert n * (q + q1) == r1 - r;
      MulSmall(n, q + q1);
    }
  }

  /** `Divides` is the remainder test `x % d == 0`. */
  lemma {:induction false} DividesMod(d: int, x: nat)
    requires d != 0
    ensures Divides(d, x) <==> x % d == 0
    decreases x
  {
    var n := Abs(d);
    ModSign(x, d);
    if x < n {
      ModUnique(x, n, 0, x);
    } else {
      DividesMod(d, x - n);
      ModSign(x - n, d);
      ModShift(x, n);
    }
  }

  /** `Quot` is integer division: `Quot(x, n) == x / n`. */
  lemma {:induction false} QuotDiv(x: nat, n: nat)
    requires n > 0
    ensures Quot(x, n) == x / n
    decreases x
  {
    if x < n {
      ModUnique(x, n, 0, x);
    } else {
      QuotDiv(x - n, n);
      DivShift(x, n);
    }
  }
}
