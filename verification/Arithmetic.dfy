// Integer division facts that the fixed-point modules share. Everything is
// reduced to one adjunction for floors and one for ceilings.
module Arithmetic {

  // k <= floor(a / b) exactly when k * b <= a.
  lemma FloorAdjoint(a: int, b: int, k: int)
    requires b > 0
    ensures k <= a / b <==> k * b <= a
  {
    var q := a / b;
    assert q * b <= a < q * b + b;
    if k <= q {
      assert k * b <= q * b;
    } else {
      assert k * b >= (q + 1) * b;
    }
  }

  // ceil(a / b) <= k exactly when a <= k * b.
  lemma CeilAdjoint(a: int, b: int, k: int)
    requires b > 0
    ensures (a + (b - 1)) / b <= k <==> a <= k * b
  {
    FloorAdjoint(a + (b - 1), b, k + 1);
    assert (k + 1) * b == k * b + b;
  }

  lemma FloorUnique(a: int, b: int, q: int)
    requires b > 0
    requires q * b <= a < q * b + b
    ensures a / b == q
  {
    FloorAdjoint(a, b, q);
    FloorAdjoint(a, b, q + 1);
    assert (q + 1) * b == q * b + b;
  }

  lemma FloorBounds(a: int, b: int)
    requires b > 0
    ensures a / b * b <= a < a / b * b + b
    ensures a >= 0 ==> a / b >= 0
  {
  }

  lemma FloorMonotone(a: int, a': int, b: int)
    requires b > 0 && a <= a'
    ensures a / b <= a' / b
  {
    FloorAdjoint(a', b, a / b);
    FloorBounds(a, b);
  }

  // Whole multiples pass through a floor.
  lemma FloorShift(a: int, b: int, k: int)
    requires b > 0
    ensures (a + k * b) / b == a / b + k
  {
    FloorBounds(a, b);
    assert (a / b + k) * b == a / b * b + k * b;
    FloorUnique(a + k * b, b, a / b + k);
  }

  // Splitting a sum before flooring loses at most one.
  lemma FloorSplit(a: int, a': int, b: int)
    requires b > 0
    ensures 0 <= (a + a') / b - (a / b + a' / b) <= 1
  {
    var q := a / b + a' / b;
    FloorBounds(a, b);
    FloorBounds(a', b);
    assert q * b == a / b * b + a' / b * b;
    FloorAdjoint(a + a', b, q);
    FloorAdjoint(a + a', b, q + 2);
    assert (q + 2) * b == q * b + 2 * b;
  }

  // Two floors in a row are one floor.
  lemma FloorFloor(a: int, b: int, c: int)
    requires b > 0 && c > 0
    ensures b * c > 0
    ensures a / b / c == a / (b * c)
  {
    var q := a / b / c;
    FloorAdjoint(a / b, c, q);
    FloorAdjoint(a / b, c, q + 1);
    FloorAdjoint(a, b, q * c);
    FloorAdjoint(a, b, (q + 1) * c);
    assert q * c * b == q * (b * c);
    assert (q + 1) * c * b == q * (b * c) + b * c;
    FloorUnique(a, b * c, q);
  }

  lemma MulMonotone(a: int, b: int, k: int)
    requires a <= b && k >= 0
    ensures a * k <= b * k
    ensures k * a <= k * b
  {
  }

  function Abs(x: int): (r: nat)
    ensures r == x || r == -x
  {
    if x < 0 then -x else x
  }

  function Min(a: int, b: int): int { if a < b then a else b }

  function Max(a: int, b: int): int { if a > b then a else b }

  // Exact integer power: the reference that fixed-point powers are compared with.
  function Power(b: nat, n: nat): (r: nat)
    ensures b > 0 ==> r > 0
  {
    if n == 0 then 1 else b * Power(b, n - 1)
  }

  lemma {:induction false} PowerSum(b: nat, m: nat, n: nat)
    ensures Power(b, m + n) == Power(b, m) * Power(b, n)
  {
    if m == 0 {
    } else {
      PowerSum(b, m - 1, n);
      MulAssoc(b, Power(b, m - 1), Power(b, n));
    }
  }

  lemma Interchange(a: int, b: int, p: int, q: int)
    ensures a * b * (p * q) == a * p * (b * q)
  {
    calc {
      a * b * (p * q);
    == { MulAssoc(a, b, p * q); }
      a * (b * (p * q));
    == { MulAssoc(b, p, q); MulAssoc(p, b, q); }
      a * (p * (b * q));
    == { MulAssoc(a, p, b * q); }
      a * p * (b * q);
    }
  }

  lemma MulAssoc(a: int, b: int, c: int)
    ensures a * b * c == a * (b * c)
  {
  }

  lemma {:induction false} PowerProduct(a: nat, b: nat, n: nat)
    ensures Power(a * b, n) == Power(a, n) * Power(b, n)
  {
    if n == 0 {
    } else {
      PowerProduct(a, b, n - 1);
      Interchange(a, b, Power(a, n - 1), Power(b, n - 1));
    }
  }

  lemma {:induction false} PowerMonotone(a: nat, b: nat, n: nat)
    requires a <= b
    ensures Power(a, n) <= Power(b, n)
  {
    if n == 0 {
    } else {
      PowerMonotone(a, b, n - 1);
      MulMonotone(a, b, Power(a, n - 1));
      MulMonotone(Power(a, n - 1), Power(b, n - 1), b);
    }
  }

  lemma AbsOfProductDifference(a: nat, b: nat, p: nat, q: nat)
    ensures Abs(a * p - b * q) <= a * Abs(p - q) + Abs(a - b) * q
  {
    assert a * p - b * q == a * (p - q) + (a - b) * q;
    if p >= q { assert a * (p - q) >= 0; } else { assert a * (q - p) >= 0; }
    if a >= b { assert (a - b) * q >= 0; } else { assert (b - a) * q >= 0; }
  }

  // Powers are Lipschitz on [0, m]: |a^n - b^n| * m <= n * |a - b| * m^n.
  lemma {:induction false} PowerLipschitz(a: nat, b: nat, m: nat, n: nat)
    requires a <= m && b <= m
    ensures Abs(Power(a, n) - Power(b, n)) * m <= n * Abs(a - b) * Power(m, n)
  {
    if n == 0 {
    } else {
      PowerLipschitz(a, b, m, n - 1);
      PowerMonotone(b, m, n - 1);
      LipschitzStep(a, b, m, n, Power(a, n - 1), Power(b, n - 1), Power(m, n - 1));
    }
  }

  lemma LipschitzStep(a: nat, b: nat, m: nat, n: nat, p: nat, q: nat, r: nat)
    requires a <= m && q <= r && n > 0
    requires Abs(p - q) * m <= (n - 1) * Abs(a - b) * r
    ensures Abs(a * p - b * q) * m <= n * Abs(a - b) * (m * r)
  {
    var e, f := Abs(p - q), Abs(a - b);
    calc {
      Abs(a * p - b * q) * m;
    <= { AbsOfProductDifference(a, b, p, q); MulMonotone(Abs(a * p - b * q), a * e + f * q, m); }
      (a * e + f * q) * m;
    ==
      a * e * m + f * q * m;
    <= { LipschitzLeft(a, m, e, f, r, n); LipschitzRight(f, q, r, m); }
      m * ((n - 1) * f * r) + f * r * m;
    == { LipschitzJoin(n, f, m, r); }
      n * f * (m * r);
    }
  }

  lemma LipschitzLeft(a: nat, m: nat, e: nat, f: nat, r: nat, n: nat)
    requires a <= m && n > 0
    requires e * m <= (n - 1) * f * r
    ensures a * e * m <= m * ((n - 1) * f * r)
  {
    assert a * e * m == a * (e * m);
    MulMonotone(a, m, e * m);
    MulMonotone(e * m, (n - 1) * f * r, m);
  }

  lemma LipschitzRight(f: nat, q: nat, r: nat, m: nat)
    requires q <= r
    ensures f * q * m <= f * r * m
  {
    MulMonotone(q, r, f);
    MulMonotone(f * q, f * r, m);
  }

  lemma LipschitzJoin(n: nat, f: nat, m: nat, r: nat)
    requires n > 0
    ensures m * ((n - 1) * f * r) + f * r * m == n * f * (m * r)
  {
    var g := f * r;
    assert (n - 1) * f * r == (n - 1) * g;
    assert m * ((n - 1) * g) == (n - 1) * (g * m);
    assert n * f * (m * r) == n * (g * m);
  }
}
