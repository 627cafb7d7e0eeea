// Fixed-point decimals with 18 digits, as `Decimal` in lib-base: a natural
// number of units of 10^-18.
module Decimals {
  import opened Arithmetic
  import Algebra

  type Decimal = nat

  const DIGITS: nat := 1_000_000_000_000_000_000
  const HALF: Decimal := DIGITS / 2

  // The largest 256-bit word stands for infinity: every division by zero gives it.
  const INFINITY: Decimal := 0xffff_ffff_ffff_ffff_ffff_ffff_ffff_ffff_ffff_ffff_ffff_ffff_ffff_ffff_ffff_ffff

  function Mul(a: Decimal, b: Decimal): Decimal {
    a * b / DIGITS
  }

  function Div(a: Decimal, b: Decimal): Decimal {
    if b == 0 then INFINITY else a * DIGITS / b
  }

  function DivCeil(a: Decimal, b: Decimal): Decimal {
    if b == 0 then INFINITY else (a * DIGITS + (b - 1)) / b
  }

  function MulDiv(a: Decimal, multiplier: Decimal, divider: Decimal): Decimal {
    if divider == 0 then INFINITY else a * multiplier / divider
  }

  // Product rounded half up.
  function RoundedMul(x: Decimal, y: Decimal): Decimal {
    (x * y + HALF) / DIGITS
  }

  // Infinity is the largest number of 256 bits.
  lemma InfinityIsLargestWord()
    ensures INFINITY == Power(2, 256) - 1
  {
    SixtyFourBits();
    PowerSum(2, 64, 64);
    PowerSum(2, 128, 128);
  }

  lemma SixtyFourBits()
    ensures Power(2, 64) == 0x1_0000_0000_0000_0000
  {
    assert Power(2, 8) == 256;
    PowerSum(2, 8, 8);
    PowerSum(2, 16, 16);
    PowerSum(2, 32, 32);
  }

  // Every product and quotient is the exact one rounded down, but for one that is rounded
  // up; dividing by zero gives infinity.
  lemma ProductsAndQuotients(a: Decimal, b: Decimal, c: Decimal, k: nat)
    ensures k <= Mul(a, b) <==> k * DIGITS <= a * b
    ensures b > 0 ==> (k <= Div(a, b) <==> k * b <= a * DIGITS)
    ensures b > 0 ==> (DivCeil(a, b) <= k <==> a * DIGITS <= k * b)
    ensures c > 0 ==> (k <= MulDiv(a, b, c) <==> k * c <= a * b)
    ensures Div(a, 0) == DivCeil(a, 0) == MulDiv(a, b, 0) == INFINITY
  {
    FloorAdjoint(a * b, DIGITS, k);
    if b > 0 {
      FloorAdjoint(a * DIGITS, b, k);
      CeilAdjoint(a * DIGITS, b, k);
    }
    if c > 0 {
      FloorAdjoint(a * b, c, k);
    }
  }

  // ---------- Integer power by square-and-multiply ----------

  // What the loop of `pow` still has to compute from the state (x, y, exponent).
  function PowFrom(x: Decimal, y: Decimal, exponent: nat): Decimal
    requires exponent > 0
    decreases exponent
  {
    if exponent == 1 then
      RoundedMul(x, y)
    else
      PowFrom(RoundedMul(x, x), if exponent % 2 == 1 then RoundedMul(x, y) else y, exponent / 2)
  }

  function PowOf(base: Decimal, exponent: nat): Decimal {
    if exponent == 0 then DIGITS
    else if exponent == 1 then base
    else PowFrom(base, DIGITS, exponent)
  }

  // The source asserts that the exponent is an unsigned 32-bit number.
  method Pow(base: Decimal, exponent: nat) returns (r: Decimal)
    requires exponent <= 0xffff_ffff
    ensures r == PowOf(base, exponent)
  {
    if exponent == 0 {
      return DIGITS;
    }
    if exponent == 1 {
      return base;
    }
    var x, y, e := base, DIGITS, exponent;
    while e > 1
      invariant e > 0
      invariant PowFrom(x, y, e) == PowFrom(base, DIGITS, exponent)
      decreases e
    {
      if e % 2 == 1 {
        y := RoundedMul(x, y);
      }
      x := RoundedMul(x, x);
      e := e / 2;
    }
    r := RoundedMul(x, y);
  }

  // ---------- One rounded product ----------

  lemma RoundedMulError(x: Decimal, y: Decimal)
    ensures 2 * Abs(RoundedMul(x, y) * DIGITS - x * y) <= DIGITS
  {
    FloorBounds(x * y + HALF, DIGITS);
  }

  lemma RoundedMulBelow(x: Decimal, y: Decimal)
    requires x <= DIGITS
    ensures RoundedMul(x, y) <= y
    ensures RoundedMul(y, x) <= y
  {
    MulMonotone(x, DIGITS, y);
    FloorAdjoint(x * y + HALF, DIGITS, y + 1);
  }

  lemma RoundedMulMonotone(x: Decimal, x': Decimal, y: Decimal, y': Decimal)
    requires x <= x' && y <= y'
    ensures RoundedMul(x, y) <= RoundedMul(x', y')
  {
    MulMonotone(x, x', y);
    MulMonotone(y, y', x');
    FloorMonotone(x * y + HALF, x' * y' + HALF, DIGITS);
  }

  lemma RoundedMulWhole(j: nat, k: nat)
    ensures RoundedMul(j * DIGITS, k * DIGITS) == j * k * DIGITS
  {
    assert j * DIGITS * (k * DIGITS) == j * k * DIGITS * DIGITS;
    FloorUnique(j * DIGITS * (k * DIGITS) + HALF, DIGITS, j * k * DIGITS);
  }

  // ---------- Accuracy ----------

  // One squaring: an error of e/2 units left by the m-th power of the rounded
  // square becomes an error of at most (e + m)/2 units of the 2m-th power.
  lemma SquareStep(p: Decimal, x: Decimal, y: Decimal, m: nat, e: nat)
    requires x <= DIGITS && y <= DIGITS
    requires 2 * Abs(p * Power(DIGITS, m) - y * Power(RoundedMul(x, x), m)) <= e * Power(DIGITS, m)
    ensures 2 * Abs(p * Power(DIGITS, 2 * m) - y * Power(x, 2 * m)) <= (e + m) * Power(DIGITS, 2 * m)
  {
    PowerSum(DIGITS, m, m);
    SquareError(x, m);
    Algebra.Compose(p, y, DIGITS, Power(DIGITS, m), Power(DIGITS, 2 * m),
                    Power(RoundedMul(x, x), m), Power(x, 2 * m), e, m);
  }

  // Rounding the square once costs at most m/2 units of the 2m-th power.
  lemma SquareError(x: Decimal, m: nat)
    requires x <= DIGITS
    ensures 2 * Abs(Power(RoundedMul(x, x), m) * Power(DIGITS, m) - Power(x, 2 * m)) * DIGITS
         <= m * Power(DIGITS, 2 * m)
  {
    var z := RoundedMul(x, x);
    assert Power(z, m) * Power(DIGITS, m) == Power(z * DIGITS, m) by { PowerProduct(z, DIGITS, m); }
    assert Power(x, 2 * m) == Power(x * x, m) by { PowerSum(x, m, m); PowerProduct(x, x, m); }
    assert Power(DIGITS, 2 * m) == Power(DIGITS * DIGITS, m) by {
      PowerSum(DIGITS, m, m);
      PowerProduct(DIGITS, DIGITS, m);
    }
    SquareGap(z * DIGITS, x * x, m) by {
      RoundedMulError(x, x);
      RoundedMulBelow(x, x);
      Algebra.Square(x, DIGITS);
      Algebra.Square(z, DIGITS);
    }
  }

  lemma SquareGap(a: nat, b: nat, m: nat)
    requires a <= DIGITS * DIGITS && b <= DIGITS * DIGITS
    requires 2 * Abs(a - b) <= DIGITS
    ensures 2 * Abs(Power(a, m) - Power(b, m)) * DIGITS <= m * Power(DIGITS * DIGITS, m)
  {
    PowerLipschitz(a, b, DIGITS * DIGITS, m);
    Algebra.Cancel(Abs(Power(a, m) - Power(b, m)), Abs(a - b), DIGITS, m, Power(DIGITS * DIGITS, m));
  }

  lemma {:induction false} PowFromAccuracy(x: Decimal, y: Decimal, n: nat)
    requires x <= DIGITS && y <= DIGITS && n > 0
    ensures 2 * Abs(PowFrom(x, y, n) * Power(DIGITS, n) - y * Power(x, n)) <= n * Power(DIGITS, n)
    decreases n
  {
    if n == 1 {
      RoundedMulError(x, y);
      assert Power(DIGITS, 1) == DIGITS && Power(x, 1) == x;
    } else {
      RoundedMulBelow(x, x);
      RoundedMulBelow(x, y);
      if n % 2 == 0 {
        PowFromAccuracy(RoundedMul(x, x), y, n / 2);
        SquareStep(PowFrom(RoundedMul(x, x), y, n / 2), x, y, n / 2, n / 2);
      } else {
        PowFromAccuracy(RoundedMul(x, x), RoundedMul(x, y), n / 2);
        SquareStep(PowFrom(RoundedMul(x, x), RoundedMul(x, y), n / 2), x, RoundedMul(x, y), n / 2, n / 2);
        OddStep(PowFrom(x, y, n), x, y, n / 2, 2 * (n / 2));
      }
    }
  }

  // The odd bit multiplies y once more and adds half a unit.
  lemma OddStep(p: Decimal, x: Decimal, y: Decimal, m: nat, e: nat)
    requires x <= DIGITS
    requires 2 * Abs(p * Power(DIGITS, 2 * m) - RoundedMul(x, y) * Power(x, 2 * m)) <= e * Power(DIGITS, 2 * m)
    ensures 2 * Abs(p * Power(DIGITS, 2 * m + 1) - y * Power(x, 2 * m + 1)) <= (e + 1) * Power(DIGITS, 2 * m + 1)
  {
    RoundedMulError(x, y);
    PowerMonotone(x, DIGITS, 2 * m);
    Algebra.Extend(p, x, y, RoundedMul(x, y), DIGITS, Power(DIGITS, 2 * m), Power(x, 2 * m), e);
  }

  // The first factor of `pow` is exactly one, so the first product is exact.
  lemma {:induction false} PowFromOneAccuracy(x: Decimal, n: nat)
    requires x <= DIGITS && n > 0
    ensures 2 * Abs(PowFrom(x, DIGITS, n) * Power(DIGITS, n) - DIGITS * Power(x, n)) <= (n - 1) * Power(DIGITS, n)
    decreases n
  {
    FloorUnique(x * DIGITS + HALF, DIGITS, x);
    if n == 1 {
      assert Power(DIGITS, 1) == DIGITS && Power(x, 1) == x;
    } else {
      var m, z := n / 2, RoundedMul(x, x);
      RoundedMulBelow(x, x);
      if n % 2 == 0 {
        PowFromOneAccuracy(z, m);
        SquareStep(PowFrom(z, DIGITS, m), x, DIGITS, m, m - 1);
      } else {
        PowFromAccuracy(z, x, m);
        SquareStep(PowFrom(z, x, m), x, x, m, m);
        Algebra.Scale(PowFrom(z, x, m), x, DIGITS, Power(DIGITS, 2 * m), Power(x, 2 * m), 2 * m);
      }
    }
  }

  // For every base in [0, 1] the computed power is within (n - 1)/2 units of
  // the exact one, x^n / DIGITS^(n-1).
  lemma PowAccuracy(x: Decimal, n: nat)
    requires x <= DIGITS && n > 0
    ensures 2 * Abs(PowOf(x, n) * Power(DIGITS, n - 1) - Power(x, n)) <= (n - 1) * Power(DIGITS, n - 1)
  {
    if n == 1 {
      assert Power(x, 1) == x;
    } else {
      PowFromOneAccuracy(x, n);
      Algebra.Unscale(PowOf(x, n), Power(DIGITS, n - 1), Power(x, n), DIGITS, n - 1);
    }
  }

  // Whole numbers are raised exactly.
  lemma PowWhole(k: nat, n: nat)
    ensures PowOf(k * DIGITS, n) == Power(k, n) * DIGITS
  {
    if n > 0 {
      assert 1 * DIGITS == DIGITS;
      PowFromWhole(k, 1, n);
      FloorUnique(k * DIGITS * DIGITS + HALF, DIGITS, k * DIGITS);
    }
  }

  lemma {:induction false} PowFromWhole(k: nat, j: nat, n: nat)
    requires n > 0
    ensures PowFrom(k * DIGITS, j * DIGITS, n) == j * Power(k, n) * DIGITS
    decreases n
  {
    RoundedMulWhole(k, j);
    RoundedMulWhole(k, k);
    if n == 1 {
      assert k * j == j * Power(k, 1);
    } else {
      var m := n / 2;
      assert Power(k * k, m) == Power(k, 2 * m) by { PowerProduct(k, k, m); PowerSum(k, m, m); }
      if n % 2 == 0 {
        PowFromWhole(k * k, j, m);
      } else {
        PowFromWhole(k * k, k * j, m);
        assert k * j * Power(k, 2 * m) == j * Power(k, n) by {
          assert Power(k, n) == k * Power(k, 2 * m);
          Algebra.Swap(k, j, Power(k, 2 * m));
        }
      }
    }
  }

  // ---------- Order ----------

  lemma {:induction false} PowFromMonotone(x: Decimal, x': Decimal, y: Decimal, y': Decimal, n: nat)
    requires x <= x' && y <= y' && n > 0
    ensures PowFrom(x, y, n) <= PowFrom(x', y', n)
    decreases n
  {
    RoundedMulMonotone(x, x', y, y');
    if n <= 1 {
    } else {
      RoundedMulMonotone(x, x', x, x');
      PowFromMonotone(RoundedMul(x, x), RoundedMul(x', x'),
                      if n % 2 == 1 then RoundedMul(x, y) else y, if n % 2 == 1 then RoundedMul(x', y') else y', n / 2);
    }
  }

  lemma PowMonotone(x: Decimal, x': Decimal, n: nat)
    requires x <= x'
    ensures PowOf(x, n) <= PowOf(x', n)
  {
    if n > 1 {
      PowFromMonotone(x, x', DIGITS, DIGITS, n);
    }
  }

  lemma {:induction false} PowFromBelow(x: Decimal, y: Decimal, n: nat)
    requires x <= DIGITS && y <= DIGITS && n > 0
    ensures PowFrom(x, y, n) <= x && PowFrom(x, y, n) <= y
    decreases n
  {
    RoundedMulBelow(x, y);
    RoundedMulBelow(y, x);
    if n <= 1 {
    } else {
      RoundedMulBelow(x, x);
      PowFromBelow(RoundedMul(x, x), if n % 2 == 1 then RoundedMul(x, y) else y, n / 2);
    }
  }

  // A base in [0, 1] never grows.
  lemma PowBelow(x: Decimal, n: nat)
    requires x <= DIGITS
    ensures PowOf(x, n) <= DIGITS
    ensures n > 0 ==> PowOf(x, n) <= x
  {
    if n > 1 {
      PowFromBelow(x, DIGITS, n);
    }
  }
}
