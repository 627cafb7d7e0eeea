// Troves of lib-base, the changes between them, and the borrowing fee.
module Troves {
  import opened Arithmetic
  import opened Decimals
  import opened Wrappers

  const LIQUIDATION_RESERVE: Decimal := 20 * DIGITS
  const MINIMUM_NET_DEBT: Decimal := 200 * DIGITS
  const MINIMUM_DEBT: Decimal := LIQUIDATION_RESERVE + MINIMUM_NET_DEBT
  const MINIMUM_COLLATERAL_RATIO: Decimal := DIGITS + DIGITS / 10
  const CRITICAL_COLLATERAL_RATIO: Decimal := DIGITS + DIGITS / 2

  datatype Trove = Trove(collateral: Decimal, debt: Decimal) {
    predicate IsEmpty() {
      collateral == 0 && debt == 0
    }

    function NetDebt(): Result<Decimal> {
      if debt < LIQUIDATION_RESERVE then Err("netDebt should not be used") else Ok(debt - LIQUIDATION_RESERVE)
    }

    function CollateralRatio(price: Decimal): Decimal {
      MulDiv(collateral, price, debt)
    }

    predicate IsBelowMinimum(price: Decimal) {
      CollateralRatio(price) < MINIMUM_COLLATERAL_RATIO
    }

    predicate IsBelowCritical(price: Decimal) {
      CollateralRatio(price) < CRITICAL_COLLATERAL_RATIO
    }

    predicate IsOpenableInRecoveryMode(price: Decimal) {
      CollateralRatio(price) >= CRITICAL_COLLATERAL_RATIO
    }

    function Add(that: Trove): Trove {
      Trove(collateral + that.collateral, debt + that.debt)
    }

    // Subtraction saturates at zero, separately in both components.
    function Subtract(that: Trove): Trove {
      Trove(Monus(collateral, that.collateral), Monus(debt, that.debt))
    }

    function AddCollateral(c: Decimal): Trove { this.(collateral := collateral + c) }

    function AddDebt(d: Decimal): Trove { this.(debt := debt + d) }

    function SubtractCollateral(c: Decimal): Trove { this.(collateral := Monus(collateral, c)) }

    function SubtractDebt(d: Decimal): Trove { this.(debt := Monus(debt, d)) }

    function Multiply(multiplier: Decimal): Trove {
      Trove(Mul(collateral, multiplier), Mul(debt, multiplier))
    }
  }

  function Monus(a: Decimal, b: Decimal): Decimal {
    if a > b then a - b else 0
  }

  const EMPTY: Trove := Trove(0, 0)

  // The amounts of an adjustment. The source's types keep a deposit from
  // appearing with a withdrawal, and a borrowing with a repayment.
  datatype Params = Params(
    depositCollateral: Option<Decimal>,
    withdrawCollateral: Option<Decimal>,
    borrowDebtToken: Option<Decimal>,
    repayDebtToken: Option<Decimal>
  )

  datatype Component = Collateral | Debt

  datatype Change =
    | InvalidCreation(invalidTrove: Trove)
    | Creation(depositCollateral: Decimal, borrowDebtToken: Decimal)
    | Closure(withdrawCollateral: Decimal, repayDebtToken: Option<Decimal>)
    | Adjustment(params: Params, setToZero: Option<Component>)

  // The ratio is collateral times price by debt, rounded down, and infinite without debt.
  lemma RatioIsFloor(t: Trove, price: Decimal)
    ensures var r := t.CollateralRatio(price);
            if t.debt == 0 then r == INFINITY else r * t.debt <= t.collateral * price < (r + 1) * t.debt
  {
    if t.debt > 0 {
      FloorBounds(t.collateral * price, t.debt);
      assert (t.CollateralRatio(price) + 1) * t.debt == t.CollateralRatio(price) * t.debt + t.debt;
    }
  }

  // ---------- The fee ----------

  function ApplyFee(rate: Decimal, borrowed: Decimal): Decimal {
    Mul(borrowed, DIGITS + rate)
  }

  function UnapplyFee(rate: Decimal, increase: Decimal): Decimal {
    DivCeil(increase, DIGITS + rate)
  }

  // The fee is the borrowed amount times the rate, rounded down, on top of it.
  lemma FeeIsAdded(rate: Decimal, borrowed: Decimal)
    ensures ApplyFee(rate, borrowed) == borrowed + borrowed * rate / DIGITS
  {
    assert borrowed * (DIGITS + rate) == borrowed * rate + borrowed * DIGITS;
    FloorShift(borrowed * rate, DIGITS, borrowed);
  }

  // Un-applying gives the least borrowing whose debt, fee included, reaches the target.
  lemma FeeAdjunction(rate: Decimal, increase: Decimal, borrowed: Decimal)
    ensures UnapplyFee(rate, increase) <= borrowed <==> increase <= ApplyFee(rate, borrowed)
  {
    CeilAdjoint(increase * DIGITS, DIGITS + rate, borrowed);
    FloorAdjoint(borrowed * (DIGITS + rate), DIGITS, increase);
  }

  // Un-applying undoes applying, at every rate.
  lemma UnapplyApply(rate: Decimal, borrowed: Decimal)
    ensures UnapplyFee(rate, ApplyFee(rate, borrowed)) == borrowed
  {
    var debt := ApplyFee(rate, borrowed);
    FeeAdjunction(rate, debt, borrowed);
    if borrowed > 0 {
      FeeAdjunction(rate, debt, borrowed - 1);
      // one more borrowed unit adds at least one unit of debt
      FloorShift((borrowed - 1) * (DIGITS + rate), DIGITS, 1);
      assert borrowed * (DIGITS + rate) == (borrowed - 1) * (DIGITS + rate) + DIGITS + rate;
      FloorMonotone((borrowed - 1) * (DIGITS + rate) + DIGITS, borrowed * (DIGITS + rate), DIGITS);
    }
  }

  // By how much the applied fee can overshoot: nothing at rate 0, one unit at
  // rates up to 100%.
  function Overshoot(rate: Decimal): (r: Decimal)
    ensures rate == 0 ==> r == 0
    ensures 0 < rate <= DIGITS ==> r == 1
  {
    (DIGITS + rate - 1) / DIGITS
  }

  lemma ApplyUnapply(rate: Decimal, increase: Decimal)
    ensures increase <= ApplyFee(rate, UnapplyFee(rate, increase)) <= increase + Overshoot(rate)
  {
    var u := DIGITS + rate;
    var b := UnapplyFee(rate, increase);
    FeeAdjunction(rate, increase, b);
    FloorBounds(increase * DIGITS + (u - 1), u);
    assert b * u <= u - 1 + increase * DIGITS;
    FloorMonotone(b * u, u - 1 + increase * DIGITS, DIGITS);
    FloorShift(u - 1, DIGITS, increase);
  }

  // The round trip is exact precisely on the increases some borrowing causes.
  lemma ApplyUnapplyExact(rate: Decimal, increase: Decimal)
    ensures ApplyFee(rate, UnapplyFee(rate, increase)) == increase
            <==> exists borrowed :: ApplyFee(rate, borrowed) == increase
  {
    forall borrowed | ApplyFee(rate, borrowed) == increase
      ensures ApplyFee(rate, UnapplyFee(rate, increase)) == increase
    {
      UnapplyApply(rate, borrowed);
    }
  }

  // ---------- Differences ----------

  function DebtChange(from: Trove, to: Trove, rate: Decimal, params: Params): Params {
    if to.debt > from.debt
    then params.(borrowDebtToken := Some(UnapplyFee(rate, to.debt - from.debt)))
    else params.(repayDebtToken := Some(from.debt - to.debt))
  }

  function CollateralChange(from: Trove, to: Trove, params: Params): Params {
    if to.collateral > from.collateral
    then params.(depositCollateral := Some(to.collateral - from.collateral))
    else params.(withdrawCollateral := Some(from.collateral - to.collateral))
  }

  const NO_PARAMS: Params := Params(None, None, None, None)

  function ZeroDebt(t: Trove): Option<Component> { if t.debt == 0 then Some(Debt) else None }

  function ZeroCollateral(t: Trove): Option<Component> { if t.collateral == 0 then Some(Collateral) else None }

  function WhatChanged(from: Trove, to: Trove, rate: Decimal): Result<Option<Change>> {
    if from == to then
      Ok(None)
    else if from.IsEmpty() then
      if to.debt < LIQUIDATION_RESERVE then
        Ok(Some(InvalidCreation(to)))
      else
        var netDebt :- to.NetDebt();
        Ok(Some(Creation(to.collateral, UnapplyFee(rate, netDebt))))
    else if to.IsEmpty() then
      var netDebt :- from.NetDebt();
      Ok(Some(Closure(from.collateral, if netDebt != 0 then Some(netDebt) else None)))
    else if from.collateral == to.collateral then
      Ok(Some(Adjustment(DebtChange(from, to, rate, NO_PARAMS), ZeroDebt(to))))
    else if from.debt == to.debt then
      Ok(Some(Adjustment(CollateralChange(from, to, NO_PARAMS), ZeroCollateral(to))))
    else
      Ok(Some(Adjustment(CollateralChange(from, to, DebtChange(from, to, rate, NO_PARAMS)),
                         if ZeroDebt(to).Some? then ZeroDebt(to) else ZeroCollateral(to))))
  }

  function ApplyAdjustment(t: Trove, p: Params, setToZero: Option<Component>, rate: Decimal): Trove {
    var collateralDecrease := p.withdrawCollateral.GetOr(0);
    var collateralIncrease := p.depositCollateral.GetOr(0);
    var debtDecrease := p.repayDebtToken.GetOr(0);
    var debtIncrease := if p.borrowDebtToken.Some? then ApplyFee(rate, p.borrowDebtToken.value) else 0;
    match setToZero
    case Some(Collateral) => t.(collateral := 0).AddDebt(debtIncrease).SubtractDebt(debtDecrease)
    case Some(Debt) => t.(debt := 0).AddCollateral(collateralIncrease).SubtractCollateral(collateralDecrease)
    case None => t.Add(Trove(collateralIncrease, debtIncrease)).Subtract(Trove(collateralDecrease, debtDecrease))
  }

  function Apply(t: Trove, change: Option<Change>, rate: Decimal): Result<Trove> {
    match change
    case None => Ok(t)
    case Some(InvalidCreation(invalid)) =>
      if t.IsEmpty() then Ok(invalid) else Err("Can't create onto existing Trove")
    case Some(Creation(deposit, borrow)) =>
      if t.IsEmpty() then Ok(Trove(deposit, LIQUIDATION_RESERVE + ApplyFee(rate, borrow)))
      else Err("Can't create onto existing Trove")
    case Some(Closure(_, _)) =>
      if t.IsEmpty() then Err("Can't close empty Trove") else Ok(EMPTY)
    case Some(Adjustment(params, setToZero)) =>
      Ok(ApplyAdjustment(t, params, setToZero, rate))
  }

  // The difference fails only for closing a trove that holds less than the reserve,
  // and is empty only between equal troves.
  lemma WhatChangedOutcome(from: Trove, to: Trove, rate: Decimal)
    ensures WhatChanged(from, to, rate).Err? <==>
              !from.IsEmpty() && to.IsEmpty() && from.debt < LIQUIDATION_RESERVE
    ensures WhatChanged(from, to, rate) == Ok(None) <==> from == to
  {
  }

  // Opening names the deposit and the least borrowing beyond the reserve of 20; below the
  // reserve it is invalid. Closing names all of the collateral, and the debt beyond it.
  lemma OpeningOrClosing(from: Trove, to: Trove, rate: Decimal)
    requires from.IsEmpty() != to.IsEmpty()
    ensures var reserve := 20_000_000_000_000_000_000;
            var change := WhatChanged(from, to, rate);
            if from.IsEmpty() then
              if to.debt < reserve then change == Ok(Some(InvalidCreation(to)))
              else change == Ok(Some(Creation(to.collateral, UnapplyFee(rate, to.debt - reserve))))
            else if from.debt < reserve then change.Err?
            else if from.debt == reserve then change == Ok(Some(Closure(from.collateral, None)))
            else change == Ok(Some(Closure(from.collateral, Some(from.debt - reserve))))
  {
  }

  // What any adjustment does to any trove: a component set to zero is zero, the other gains
  // and loses its amounts, and neither falls below zero.
  lemma AdjustmentFormula(t: Trove, p: Params, setToZero: Option<Component>, rate: Decimal)
    ensures var r := Apply(t, Some(Adjustment(p, setToZero)), rate);
            var borrowed := p.borrowDebtToken.GetOr(0);
            && r.Ok?
            && r.value.collateral == (if setToZero == Some(Collateral) then 0 else
                 Max(0, t.collateral + p.depositCollateral.GetOr(0) - p.withdrawCollateral.GetOr(0)))
            && r.value.debt == (if setToZero == Some(Debt) then 0 else
                 Max(0, t.debt + borrowed + borrowed * rate / DIGITS - p.repayDebtToken.GetOr(0)))
  {
    FeeIsAdded(rate, p.borrowDebtToken.GetOr(0));
  }

  // Applying the difference reaches the target: its collateral exactly, its debt
  // up to the overshoot of the fee; exactly when no debt is added or the rate is 0.
  lemma ApplyWhatChanged(from: Trove, to: Trove, rate: Decimal)
    requires WhatChanged(from, to, rate).Ok?
    ensures Apply(from, WhatChanged(from, to, rate).value, rate).Ok?
    ensures var t := Apply(from, WhatChanged(from, to, rate).value, rate).value;
            && t.collateral == to.collateral
            && to.debt <= t.debt <= to.debt + Overshoot(rate)
            && (rate == 0 || to.debt <= from.debt ==> t == to)
  {
    if to.debt > from.debt {
      ApplyUnapply(rate, to.debt - from.debt);
      if to.debt >= LIQUIDATION_RESERVE {
        ApplyUnapply(rate, to.debt - LIQUIDATION_RESERVE);
      }
    }
  }

  // Among all borrowings that reach the target debt, the difference borrows least.
  lemma WhatChangedBorrowsLeast(from: Trove, to: Trove, rate: Decimal, borrowed: Decimal)
    requires !from.IsEmpty() && to.debt > from.debt
    ensures WhatChanged(from, to, rate).Ok? && WhatChanged(from, to, rate).value.Some?
    ensures var c := WhatChanged(from, to, rate).value.value;
            && c.Adjustment? && c.params.borrowDebtToken.Some?
            && (from.debt + ApplyFee(rate, borrowed) >= to.debt ==> c.params.borrowDebtToken.value <= borrowed)
  {
    FeeAdjunction(rate, to.debt - from.debt, borrowed);
  }

  // Taking the difference to the trove actually reached gives the same change again.
  lemma RediffIsStable(from: Trove, to: Trove, rate: Decimal)
    requires WhatChanged(from, to, rate).Ok?
    ensures var change := WhatChanged(from, to, rate).value;
            Apply(from, change, rate).Ok? && WhatChanged(from, Apply(from, change, rate).value, rate) == Ok(change)
  {
    ApplyWhatChanged(from, to, rate);
    if to.debt > from.debt {
      UnapplyApply(rate, UnapplyFee(rate, to.debt - from.debt));
      if to.debt >= LIQUIDATION_RESERVE {
        UnapplyApply(rate, UnapplyFee(rate, to.debt - LIQUIDATION_RESERVE));
      }
    }
  }

  // A component driven to zero by a change ends at zero on every trove the
  // change is applied to, whatever that trove holds. It does so exactly when the
  // change does drive it there: when it was not zero before.
  lemma ZeroingIsPreserved(from: Trove, to: Trove, rate: Decimal)
    requires !from.IsEmpty() && !to.IsEmpty() && from != to
    ensures WhatChanged(from, to, rate).Ok? && WhatChanged(from, to, rate).value.Some?
    ensures var change := WhatChanged(from, to, rate).value;
            && ((to.debt == 0 && from.debt > 0) <==>
                forall t: Trove :: Apply(t, change, rate).Ok? && Apply(t, change, rate).value.debt == 0)
            && ((to.collateral == 0 && from.collateral > 0) <==>
                forall t: Trove :: Apply(t, change, rate).Ok? && Apply(t, change, rate).value.collateral == 0)
  {
    var change := WhatChanged(from, to, rate).value;
    var big := Trove(from.collateral + to.collateral + 1, from.debt + to.debt + 1);
    var r := Apply(big, change, rate).value;
    if to.debt > from.debt {
      FeeAdjunction(rate, to.debt - from.debt, change.value.params.borrowDebtToken.value);
    }
    assert !(to.debt == 0 && from.debt > 0) ==> r.debt > 0;
    assert !(to.collateral == 0 && from.collateral > 0) ==> r.collateral > 0;
  }

  lemma ClosureEmptiesAnyTrove(from: Trove, t: Trove, rate: Decimal)
    requires !from.IsEmpty() && WhatChanged(from, EMPTY, rate).Ok?
    ensures Apply(t, WhatChanged(from, EMPTY, rate).value, rate)
            == if t.IsEmpty() then Err("Can't close empty Trove") else Ok(EMPTY)
  {
  }

  // ---------- Opening and adjusting ----------

  function Create(deposit: Decimal, borrow: Decimal, rate: Decimal): Result<Trove> {
    Apply(EMPTY, Some(Creation(deposit, borrow)), rate)
  }

  function Recreate(that: Trove, rate: Decimal): Result<(Decimal, Decimal)> {
    var change :- WhatChanged(EMPTY, that, rate);
    if change.Some? && change.value.Creation?
    then Ok((change.value.depositCollateral, change.value.borrowDebtToken))
    else Err("assertion failed")
  }

  function NonZero(amount: Option<Decimal>): Option<Decimal> {
    if amount == Some(0) then None else amount
  }

  function NormalizeAdjustment(p: Params): Result<Params> {
    var q := Params(NonZero(p.depositCollateral), NonZero(p.withdrawCollateral),
                    NonZero(p.borrowDebtToken), NonZero(p.repayDebtToken));
    if q.depositCollateral.Some? && q.withdrawCollateral.Some? then Err("deposit and withdrawal")
    else if q.borrowDebtToken.Some? && q.repayDebtToken.Some? then Err("borrowing and repayment")
    else if q == NO_PARAMS then Err("must include at least one non-zero parameter")
    else Ok(q)
  }

  // An adjustment must change something, and nothing in both directions; amounts of zero
  // do not count.
  lemma NormalizationOutcome(p: Params)
    ensures var deposit, withdraw := p.depositCollateral.GetOr(0), p.withdrawCollateral.GetOr(0);
            var borrow, repay := p.borrowDebtToken.GetOr(0), p.repayDebtToken.GetOr(0);
            var q := NormalizeAdjustment(p);
            && (q.Ok? <==> (deposit == 0 || withdraw == 0) && (borrow == 0 || repay == 0)
                           && deposit + withdraw + borrow + repay > 0)
            && (q.Ok? ==> q.value == Params(if deposit > 0 then Some(deposit) else None,
                                            if withdraw > 0 then Some(withdraw) else None,
                                            if borrow > 0 then Some(borrow) else None,
                                            if repay > 0 then Some(repay) else None))
  {
  }

  function Adjust(t: Trove, p: Params, rate: Decimal): Result<Trove> {
    var q :- NormalizeAdjustment(p);
    Apply(t, Some(Adjustment(q, None)), rate)
  }

  function AdjustTo(t: Trove, that: Trove, rate: Decimal): Result<Params> {
    var change :- WhatChanged(t, that, rate);
    if change.Some? && change.value.Adjustment? then Ok(change.value.params) else Err("assertion failed")
  }

  // Recreating finds the parameters a trove was created with ...
  lemma RecreateCreate(deposit: Decimal, borrow: Decimal, rate: Decimal)
    ensures Create(deposit, borrow, rate).Ok?
    ensures Recreate(Create(deposit, borrow, rate).value, rate) == Ok((deposit, borrow))
  {
    UnapplyApply(rate, borrow);
  }

  // ... and creating from the recreated parameters gives back every trove that
  // holds the reserve, with at most the overshoot of the fee on top of its debt.
  lemma CreateRecreate(that: Trove, rate: Decimal)
    ensures Recreate(that, rate).Ok? <==> that.debt >= LIQUIDATION_RESERVE
    ensures Recreate(that, rate).Ok? ==>
              var (deposit, borrow) := Recreate(that, rate).value;
              var t := Create(deposit, borrow, rate).value;
              t.collateral == that.collateral && that.debt <= t.debt <= that.debt + Overshoot(rate)
  {
    if that.debt >= LIQUIDATION_RESERVE {
      ApplyUnapply(rate, that.debt - LIQUIDATION_RESERVE);
    }
  }

  // An adjustment names exactly the components that differ, each with its
  // non-zero amount.
  lemma AdjustToNamesDifferences(t: Trove, that: Trove, rate: Decimal)
    ensures AdjustTo(t, that, rate).Ok? <==> t != that && !t.IsEmpty() && !that.IsEmpty()
    ensures AdjustTo(t, that, rate).Ok? ==>
              var p := AdjustTo(t, that, rate).value;
              && NormalizeAdjustment(p) == Ok(p)
              && p.depositCollateral == (if that.collateral > t.collateral then Some(that.collateral - t.collateral)
                                         else None)
              && p.withdrawCollateral == (if that.collateral < t.collateral then Some(t.collateral - that.collateral)
                                          else None)
              && p.borrowDebtToken == (if that.debt > t.debt then Some(UnapplyFee(rate, that.debt - t.debt)) else None)
              && p.repayDebtToken == (if that.debt < t.debt then Some(t.debt - that.debt) else None)
  {
    if that.debt > t.debt {
      FeeAdjunction(rate, that.debt - t.debt, 0);
    }
  }

  // `adjustTo` finds the parameters of `adjust` exactly when the trove existed,
  // still exists, and neither subtraction was cut off at zero.
  lemma AdjustToAdjust(t: Trove, p: Params, rate: Decimal)
    requires NormalizeAdjustment(p) == Ok(p)
    ensures Adjust(t, p, rate).Ok?
    ensures var t' := Adjust(t, p, rate).value;
            AdjustTo(t, t', rate) == Ok(p) <==>
              && !t.IsEmpty() && !t'.IsEmpty()
              && p.withdrawCollateral.GetOr(0) <= t.collateral
              && p.repayDebtToken.GetOr(0) <= t.debt
  {
    if p.borrowDebtToken.Some? {
      var b := p.borrowDebtToken.value;
      UnapplyApply(rate, b);
      FeeAdjunction(rate, 1, b);
      FeeAdjunction(rate, 1, 0);
      AdjustBorrowing(t, p, rate, ApplyFee(rate, b));
    } else {
      AdjustNotBorrowing(t, p, rate);
    }
  }

  lemma AdjustBorrowing(t: Trove, p: Params, rate: Decimal, increase: Decimal)
    requires NormalizeAdjustment(p) == Ok(p) && p.borrowDebtToken.Some?
    requires ApplyFee(rate, p.borrowDebtToken.value) == increase
    requires UnapplyFee(rate, increase) == p.borrowDebtToken.value && increase > 0
    ensures Adjust(t, p, rate).Ok?
    ensures var t' := Adjust(t, p, rate).value;
            AdjustTo(t, t', rate) == Ok(p) <==>
              !t.IsEmpty() && !t'.IsEmpty() && p.withdrawCollateral.GetOr(0) <= t.collateral
  {
    var t' := Adjust(t, p, rate).value;
    AdjustToNamesDifferences(t, t', rate);
    assert t'.debt - t.debt == increase;
  }

  lemma AdjustNotBorrowing(t: Trove, p: Params, rate: Decimal)
    requires NormalizeAdjustment(p) == Ok(p) && p.borrowDebtToken.None?
    ensures Adjust(t, p, rate).Ok?
    ensures var t' := Adjust(t, p, rate).value;
            AdjustTo(t, t', rate) == Ok(p) <==>
              && !t.IsEmpty() && !t'.IsEmpty()
              && p.withdrawCollateral.GetOr(0) <= t.collateral
              && p.repayDebtToken.GetOr(0) <= t.debt
  {
    AdjustToNamesDifferences(t, Adjust(t, p, rate).value, rate);
  }
}
