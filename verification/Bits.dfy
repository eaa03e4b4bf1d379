/** Bitwise operators on unsigned integers, and the masks that make them
    arithmetic. */
module Bits {

  function Pow2(n: nat): (p: nat)
    ensures p > 0
  {
    if n == 0 then 1 else 2 * Pow2(n - 1)
  }

  function And(a: nat, b: nat): nat {
    if a == 0 || b == 0 then 0 else 2 * And(a / 2, b / 2) + (if a % 2 == 1 && b % 2 == 1 then 1 else 0)
  }

  function Or(a: nat, b: nat): nat
    decreases a + b
  {
    if a == 0 then b else if b == 0 then a
    else 2 * Or(a / 2, b / 2) + (if a % 2 == 1 || b % 2 == 1 then 1 else 0)
  }

  /** x >>> n on a 32-bit value. */
  function ShiftRight(x: nat, n: nat): nat { if n == 0 then x else ShiftRight(x / 2, n - 1) }

  lemma {:induction false} AndOnes(a: nat, n: nat)
    requires a < Pow2(n)
    ensures And(a, Pow2(n) - 1) == a
    decreases n
  {
    if n > 0 && a > 0 {
      AndOnes(a / 2, n - 1);
      assert (Pow2(n) - 1) / 2 == Pow2(n - 1) - 1;
    }
  }

  /** A mask of the high bits clears the low ones. */
  lemma {:induction false} AndHigh(a: nat, n: nat, k: nat)
    requires k <= n && a < Pow2(n)
    ensures Pow2(k) <= Pow2(n)
    ensures And(a, Pow2(n) - Pow2(k)) == Floor(a, Pow2(k))
    decreases n
  {
    hide Floor;
    PowMonotone(k, n);
    if k == 0 {
      AndOnes(a, n);
      FloorOne(a);
    } else {
      AndHigh(a / 2, n - 1, k - 1);
      AndEven(a, Pow2(n - 1) - Pow2(k - 1));
      FloorTwice(a, Pow2(k - 1));
    }
  }

  /** The largest multiple of k that is not above a. */
  function Floor(a: nat, k: nat): int
    requires k > 0
  {
    (a / k) * k
  }

  lemma FloorOne(a: nat)
    ensures Floor(a, 1) == a
  {
  }

  lemma FloorTwice(a: nat, m: nat)
    requires m > 0
    ensures Floor(a, 2 * m) == 2 * Floor(a / 2, m)
  {
    HalfQuotient(a, m);
    var q := a / 2 / m;
    assert 2 * (q * m) == q * (2 * m);
  }

  lemma FloorBelow(a: nat, k: nat)
    requires k > 0
    ensures 0 <= Floor(a, k) <= a < Floor(a, k) + k
  {
    assert a == k * (a / k) + a % k;
  }

  /** a lies in the block of b exactly when both have the same floor. */
  lemma SameFloor(a: nat, b: nat, k: nat)
    requires k > 0
    ensures Floor(a, k) == Floor(b, k) <==> Floor(b, k) <= a < Floor(b, k) + k
  {
    FloorBelow(a, k);
    if Floor(b, k) <= a < Floor(b, k) + k {
      Quotient(a, k, b / k, a - Floor(b, k));
    }
  }

  lemma AndEven(a: nat, b: nat)
    ensures And(a, 2 * b) == 2 * And(a / 2, b)
  {
    var c := 2 * b;
    assert c / 2 == b && c % 2 == 0;
    assert And(0, b) == 0;
  }

  lemma {:induction false} PowMonotone(k: nat, n: nat)
    requires k <= n
    ensures Pow2(k) <= Pow2(n)
  {
    if k < n {
      PowMonotone(k, n - 1);
    }
  }

  lemma HalfThenShift(a: nat, k: nat)
    requires k > 0
    ensures a / Pow2(k) == a / 2 / Pow2(k - 1)
  {
    HalfQuotient(a, Pow2(k - 1));
  }

  lemma {:induction false} ShiftDivides(x: nat, n: nat)
    ensures ShiftRight(x, n) == x / Pow2(n)
    decreases n
  {
    if n > 0 {
      ShiftDivides(x / 2, n - 1);
      HalfThenShift(x, n);
    }
  }

  lemma HalfQuotient(a: nat, m: nat)
    requires m > 0
    ensures a / (2 * m) == a / 2 / m
    ensures a % (2 * m) == 2 * (a / 2 % m) + a % 2
  {
    var q, r := a / 2 / m, a / 2 % m;
    assert a / 2 == m * q + r;
    assert (2 * m) * q == 2 * (m * q);
    Quotient(a, 2 * m, q, 2 * r + a % 2);
  }

  lemma Quotient(a: nat, d: nat, q: nat, r: nat)
    requires d > 0 && a == d * q + r && r < d
    ensures a / d == q && a % d == r
  {
    var k := a / d - q;
    assert a == d * (a / d) + a % d;
    assert d * k == d * (a / d) - d * q;
    Apart(d, k);
  }

  lemma Apart(d: nat, k: int)
    requires d > 0
    ensures k >= 1 ==> d * k >= d
    ensures k <= -1 ==> d * k + d <= 0
  {
    if k >= 1 {
      assert d * k == d + d * (k - 1);
    } else if k <= -1 {
      assert d * k + d == d * (k + 1);
      assert d * (0 - (k + 1)) >= 0;
    }
  }

  /** A mask of the low bits is a remainder. */
  lemma {:induction false} AndLow(a: nat, n: nat)
    ensures And(a, Pow2(n) - 1) == a % Pow2(n)
    decreases n
  {
    if n > 0 {
      AndLow(a / 2, n - 1);
      assert (Pow2(n) - 1) / 2 == Pow2(n - 1) - 1;
      HalfQuotient(a, Pow2(n - 1));
    }
  }

  /** Putting a value into cleared low bits adds it. */
  lemma {:induction false} OrAdds(x: nat, y: nat, n: nat)
    requires y < Pow2(n)
    ensures Or(x * Pow2(n), y) == x * Pow2(n) + y
    decreases n
  {
    hide Or;
    OrNothing(x * Pow2(n), y);
    if n > 0 && y > 0 {
      OrAdds(x, y / 2, n - 1);
      Twice(x, Pow2(n - 1));
      OrStep(x * Pow2(n - 1), y);
    }
  }

  lemma Twice(x: nat, m: nat)
    ensures x * (2 * m) == 2 * (x * m)
  {
  }

  lemma OrNothing(a: nat, b: nat)
    ensures b == 0 ==> Or(a, b) == a
    ensures a == 0 ==> Or(a, b) == b
  {
  }

  lemma OrStep(low: nat, y: nat)
    requires y > 0
    ensures Or(2 * low, y) == 2 * Or(low, y / 2) + y % 2
  {
  }
}
