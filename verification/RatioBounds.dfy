// How a floored total ratio moves when one of its parts is replaced.
module RatioBounds {
  import opened Arithmetic
  import opened Decimals
  import opened Troves

  // A part at or above the critical ratio, merged into a total below it.
  lemma Merge(total: Trove, part: Trove, price: Decimal)
    requires total.IsBelowCritical(price)
    requires part.debt > 0 && !part.IsBelowCritical(price)
    ensures total.CollateralRatio(price) <= total.Add(part).CollateralRatio(price)
  {
    var k := total.CollateralRatio(price);
    FloorBounds(total.collateral * price, total.debt);
    FloorAdjoint(part.collateral * price, part.debt, k);
    FloorAdjoint((total.collateral + part.collateral) * price, total.debt + part.debt, k);
    Distribute(total.collateral, part.collateral, price);
    Distribute(total.debt, part.debt, k);
  }

  lemma Distribute(a: int, b: int, k: int)
    ensures (a + b) * k == a * k + b * k == k * (a + b)
  {
  }

  // More collateral and less debt.
  lemma Improve(total: Trove, old': Trove, new': Trove, price: Decimal)
    requires old'.collateral <= total.collateral && old'.debt <= total.debt
    requires total.IsBelowCritical(price)
    requires old'.collateral <= new'.collateral && new'.debt <= old'.debt
    requires new'.debt > 0 || new'.debt == old'.debt
    ensures total.CollateralRatio(price) <= total.Subtract(old').Add(new').CollateralRatio(price)
  {
    var after := total.Subtract(old').Add(new');
    var k := total.CollateralRatio(price);
    FloorBounds(total.collateral * price, total.debt);
    FloorAdjoint(after.collateral * price, after.debt, k);
    MulMonotone(total.collateral, after.collateral, price);
    MulMonotone(after.debt, total.debt, k);
  }

  // More debt, but at or above the critical ratio and with a floored ratio that
  // has not decreased.
  lemma Borrow(total: Trove, old': Trove, new': Trove, price: Decimal)
    requires old'.collateral <= total.collateral && old'.debt <= total.debt
    requires total.IsBelowCritical(price)
    requires old'.collateral <= new'.collateral && old'.debt < new'.debt
    requires !new'.IsBelowCritical(price)
    requires old'.CollateralRatio(price) <= new'.CollateralRatio(price)
    ensures total.CollateralRatio(price) <= total.Subtract(old').Add(new').CollateralRatio(price) + 1
  {
    var after := total.Subtract(old').Add(new');
    var k: int, q := total.CollateralRatio(price), new'.CollateralRatio(price);
    var X, x, x' := total.collateral * price, old'.collateral * price, new'.collateral * price;
    assert after.collateral * price == X - x + x' by {
      Distribute(total.collateral - old'.collateral, new'.collateral, price);
      Distribute(total.collateral - old'.collateral, old'.collateral, price);
    }
    FloorBounds(X, total.debt);
    FloorBounds(x', new'.debt);
    MulMonotone(old'.collateral, new'.collateral, price);
    if old'.debt == 0 {
      BorrowFromNothing(X, x, x', total.debt, new'.debt, k, q);
    } else {
      FloorBounds(x, old'.debt);
      BorrowMore(X, x, x', total.debt, old'.debt, new'.debt, k, x / old'.debt, q);
    }
    FloorAdjoint(X - x + x', after.debt, k - 1);
  }

  // The products X = k*T + .., x' = q*d' + .., x = r*d + .. without their factors.
  lemma BorrowMore(X: nat, x: nat, x': nat, T: nat, d: nat, d': nat, k: nat, r: nat, q: nat)
    requires k * T <= X && d <= T && d < d'
    requires q * d' <= x' && x < r * d + d
    requires k < q && r <= q
    ensures (k - 1) * (T - d + d') <= X - x + x'
  {
    var g := d' - d;
    if r >= k {
      // the trove keeps r * g - d, and r >= k
      assert q * d' >= r * d' by { MulMonotone(r, q, d'); }
      assert r * d' == r * d + r * g by { Distribute(d, g, r); }
      assert r * g >= k * g by { MulMonotone(k, r, g); }
      assert X - x + x' >= k * T + k * g - d;
    } else {
      assert (r + 1) * d <= k * d by { MulMonotone(r + 1, k, d); }
      assert (r + 1) * d == r * d + d;
      assert q * d' >= k * d' by { MulMonotone(k, q, d'); }
      assert k * d' == k * d + k * g by { Distribute(d, g, k); }
      assert X - x + x' >= k * T + k * g;
    }
    assert (k - 1) * (T + g) == k * T + k * g - (T + g) by { Distribute(T, g, k); }
  }

  // A trove without debt has infinite ratio, and must still have it afterwards.
  lemma BorrowFromNothing(X: nat, x: nat, x': nat, T: nat, d': nat, k: nat, q: nat)
    requires k * T <= X && x <= X && x <= x'
    requires q * d' <= x' && INFINITY <= q
    requires k < CRITICAL_COLLATERAL_RATIO
    ensures (k - 1) * (T + d') <= X - x + x'
  {
    if k > 0 {
      var j := k - 1;
      assert j * (T + d') == j * T + j * d' by { Distribute(T, d', j); }
      assert j * T == k * T - T;
      if j * d' > T {
        SmallSquare(j);
        assert j * T + j * d' <= INFINITY * d' by { SquareBound(j, T, d'); }
        MulMonotone(INFINITY, q, d');
      }
    }
  }

  lemma SmallSquare(j: nat)
    requires j < CRITICAL_COLLATERAL_RATIO
    ensures j * j + j <= INFINITY
  {
    MulMonotone(j, CRITICAL_COLLATERAL_RATIO, j);
  }

  lemma SquareBound(j: nat, T: nat, d: nat)
    requires T <= j * d && j * j + j <= INFINITY
    ensures j * T + j * d <= INFINITY * d
  {
    MulMonotone(T, j * d, j);
    assert j * (j * d) + j * d == (j * j + j) * d by { Distribute(j * j, j, d); assert j * (j * d) == j * j * d; }
    MulMonotone(j * j + j, INFINITY, d);
  }
}
