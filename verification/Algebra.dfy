// Polynomial inequalities behind the error analysis of the fixed-point power,
// over arbitrary naturals so that the solver sees no recursive definitions.
module Algebra {
  import opened Arithmetic

  lemma Square(x: nat, d: nat)
    requires x <= d
    ensures x * x <= d * d && x * d <= d * d
  {
    MulMonotone(x, d, x);
    MulMonotone(x, d, d);
  }

  lemma Swap(a: nat, b: nat, c: nat)
    ensures a * b * c == b * (a * c)
  {
  }

  lemma AbsScale(a: int, k: nat)
    ensures Abs(a * k) == Abs(a) * k == Abs(k * a)
  {
    if a >= 0 { assert a * k >= 0; } else { assert -a * k >= 0; }
  }

  // |k * a| == k * |a| carried through a bound.
  lemma ScaleBound(a: int, b: nat, k: nat)
    requires 2 * Abs(a) <= b
    ensures 2 * Abs(a * k) <= b * k
  {
    AbsScale(a, k);
    MulMonotone(2 * Abs(a), b, k);
  }

  lemma Distribute(a: int, b: int, k: int)
    ensures (a - b) * k == a * k - b * k
    ensures (a + b) * k == a * k + b * k
  {
  }

  // A common positive factor can be dropped from an inequality.
  lemma DropFactor(a: int, b: int, d: nat)
    requires d > 0 && a * d <= b * d
    ensures a <= b
  {
    if a > b {
      MulMonotone(b + 1, a, d);
      Distribute(b, 1, d);
    }
  }

  // 2f <= d and c * d^2 <= m * f * t give 2 * c * d <= m * t.
  lemma Cancel(c: nat, f: nat, d: nat, m: nat, t: nat)
    requires d > 0
    requires 2 * f <= d
    requires c * (d * d) <= m * f * t
    ensures 2 * c * d <= m * t
  {
    assert 2 * c * d * d == 2 * (c * (d * d)) by { MulAssoc(2 * c, d, d); }
    assert m * f * t == m * t * f by { MulAssoc(m, f, t); MulAssoc(m, t, f); }
    assert m * t * (2 * f) <= m * t * d by { MulMonotone(2 * f, d, m * t); }
    DropFactor(2 * c * d, m * t, d);
  }

  lemma Telescope(p: nat, y: nat, s: nat, w: nat, b: nat)
    ensures p * (s * s) - y * b == (p * s - y * w) * s + y * (w * s - b)
  {
    Distribute(p * s, y * w, s);
    Distribute(w * s, b, y);
    MulAssoc(p, s, s);
    MulAssoc(y, w, s);
  }

  lemma Triangle(a: int, b: int, c: int, u: nat, v: nat)
    requires a == b + c
    requires 2 * Abs(b) <= u && 2 * Abs(c) <= v
    ensures 2 * Abs(a) <= u + v
  {
  }

  lemma LeftTerm(a: int, e: nat, s: nat)
    requires 2 * Abs(a) <= e * s
    ensures 2 * Abs(a * s) <= e * (s * s)
  {
    ScaleBound(a, e * s, s);
    assert e * s * s == e * (s * s);
  }

  lemma RightTerm(a: int, y: nat, d: nat, u: nat)
    requires y <= d
    requires 2 * Abs(a) * d <= u
    ensures 2 * Abs(y * a) <= u
  {
    AbsScale(a, y);
    MulMonotone(y, d, 2 * Abs(a));
  }

  lemma Compose(p: nat, y: nat, d: nat, s: nat, s2: nat, w: nat, b: nat, e: nat, m: nat)
    requires y <= d && s2 == s * s
    requires 2 * Abs(p * s - y * w) <= e * s
    requires 2 * Abs(w * s - b) * d <= m * s2
    ensures 2 * Abs(p * s2 - y * b) <= (e + m) * s2
  {
    var left, right := p * s - y * w, w * s - b;
    LeftTerm(left, e, s);
    RightTerm(right, y, d, m * s2);
    Telescope(p, y, s, w, b);
    Distribute(e, m, s2);
    Triangle(p * s2 - y * b, left * s, y * right, e * s2, m * s2);
  }

  lemma ExtendSplit(p: nat, x: nat, y: nat, w: nat, d: nat, t: nat, v: nat)
    ensures p * (d * t) - y * (x * v) == (p * t - w * v) * d + (w * d - x * y) * v
  {
    assert (p * t - w * v) * d == p * (d * t) - w * v * d by { Distribute(p * t, w * v, d); MulAssoc(p, t, d); }
    assert (w * d - x * y) * v == w * v * d - y * (x * v) by {
      Distribute(w * d, x * y, v);
      MulAssoc(w, d, v);
      MulAssoc(w, v, d);
      MulAssoc(y, x, v);
    }
  }

  lemma Extend(p: nat, x: nat, y: nat, w: nat, d: nat, t: nat, v: nat, e: nat)
    requires v <= t
    requires 2 * Abs(w * d - x * y) <= d
    requires 2 * Abs(p * t - w * v) <= e * t
    ensures 2 * Abs(p * (d * t) - y * (x * v)) <= (e + 1) * (d * t)
  {
    var left, right := p * t - w * v, w * d - x * y;
    var a := p * (d * t) - y * (x * v);
    calc {
      2 * Abs(a);
    <= {
         ScaleBound(left, e * t, d);
         ScaleBound(right, d, v);
         assert a == left * d + right * v by { ExtendSplit(p, x, y, w, d, t, v); }
         Triangle(a, left * d, right * v, e * t * d, d * v);
       }
      e * t * d + d * v;
    <= { MulMonotone(v, t, d); }
      e * t * d + d * t;
    == { MulAssoc(e, t, d); Distribute(e, 1, d * t); }
      (e + 1) * (d * t);
    }
  }

  lemma Factor(p: nat, d: nat, t: nat, z: nat)
    ensures p * (d * t) - d * z == (p * t - z) * d
  {
    Distribute(p * t, z, d);
    MulAssoc(p, t, d);
  }

  lemma Scale(p: nat, x: nat, d: nat, t: nat, v: nat, e: nat)
    requires 2 * Abs(p * t - x * v) <= e * t
    ensures 2 * Abs(p * (d * t) - d * (x * v)) <= e * (d * t)
  {
    Factor(p, d, t, x * v);
    ScaleBound(p * t - x * v, e * t, d);
    MulAssoc(e, t, d);
  }

  lemma Unscale(p: nat, t: nat, v: nat, d: nat, e: nat)
    requires d > 0
    requires 2 * Abs(p * (d * t) - d * v) <= e * (d * t)
    ensures 2 * Abs(p * t - v) <= e * t
  {
    Factor(p, d, t, v);
    AbsScale(p * t - v, d);
    MulAssoc(e, t, d);
    MulAssoc(2, Abs(p * t - v), d);
    DropFactor(2 * Abs(p * t - v), e * t, d);
  }
}
