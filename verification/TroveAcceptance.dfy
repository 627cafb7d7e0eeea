// When the validator accepts a trove change, and what its reasons mean: stated by the two
// troves, the total, the price and the balances alone.
module TroveAcceptance {
  import opened Arithmetic
  import opened Decimals
  import opened Wrappers
  import opened Troves
  import opened TroveValidation

  const RESERVE: Decimal := 20_000_000_000_000_000_000
  const LEAST_BORROWED: Decimal := 200_000_000_000_000_000_000
  const LEAST_DEBT: Decimal := 220_000_000_000_000_000_000

  // Collateral at the price is at least so many percent of the debt.
  predicate Covers(collateral: Decimal, debt: Decimal, price: Decimal, percent: nat) {
    100 * (collateral * price) >= percent * DIGITS * debt
  }

  lemma RatiosAreCovers(t: Trove, price: Decimal)
    ensures t.IsBelowMinimum(price) <==> !Covers(t.collateral, t.debt, price, 110)
    ensures t.IsBelowCritical(price) <==> !Covers(t.collateral, t.debt, price, 150)
    ensures t.IsOpenableInRecoveryMode(price) <==> Covers(t.collateral, t.debt, price, 150)
  {
    if t.debt > 0 {
      FloorAdjoint(t.collateral * price, t.debt, MINIMUM_COLLATERAL_RATIO);
      FloorAdjoint(t.collateral * price, t.debt, CRITICAL_COLLATERAL_RATIO);
      PercentOf(t.collateral * price, t.debt);
    } else {
      ProductNotNegative(t.collateral, price);
    }
  }

  lemma ProductNotNegative(a: nat, b: nat)
    ensures a * b >= 0
  {
  }

  lemma PercentOf(value: nat, debt: nat)
    ensures MINIMUM_COLLATERAL_RATIO * debt <= value <==> 100 * value >= 110 * DIGITS * debt
    ensures CRITICAL_COLLATERAL_RATIO * debt <= value <==> 100 * value >= 150 * DIGITS * debt
  {
    Hundredfold(MINIMUM_COLLATERAL_RATIO, debt, 110 * DIGITS);
    Hundredfold(CRITICAL_COLLATERAL_RATIO, debt, 150 * DIGITS);
  }

  lemma Hundredfold(ratio: nat, debt: nat, percent: nat)
    requires percent == 100 * ratio
    ensures percent * debt == 100 * (ratio * debt)
  {
    MulAssoc(100, ratio, debt);
  }

  predicate InRecoveryMode(s: Selected) {
    !Covers(s.total.collateral, s.total.debt, s.price, 150)
  }

  // The total with one trove replaced covers 150%.
  predicate StaysNormal(s: Selected, original: Trove, t: Trove) {
    Covers(Max(0, s.total.collateral - original.collateral) + t.collateral,
           Max(0, s.total.debt - original.debt) + t.debt, s.price, 150)
  }

  lemma TotalCovers(s: Selected, original: Trove, t: Trove)
    ensures s.total.Subtract(original).Add(t).IsBelowCritical(s.price) <==> !StaysNormal(s, original, t)
  {
    RatiosAreCovers(s.total.Subtract(original).Add(t), s.price);
  }

  // ---------- Creations ----------

  // A creation is accepted exactly when its debt holds the reserve, it borrows at least 200,
  // its trove covers 110% and leaves the total at 150%, or covers 150% itself in recovery
  // mode, and its deposit can be paid.
  lemma CreationAcceptedIff(original: Trove, adjusted: Trove, rate: Decimal, s: Selected)
    requires original.IsEmpty() && !adjusted.IsEmpty()
    ensures Accepts(original, adjusted, rate, s) <==>
              && adjusted.debt >= RESERVE
              && var borrowed := UnapplyFee(rate, adjusted.debt - RESERVE);
                 var t := Trove(adjusted.collateral, RESERVE + borrowed + borrowed * rate / DIGITS);
                 && borrowed >= LEAST_BORROWED
                 && (if InRecoveryMode(s) then Covers(t.collateral, t.debt, s.price, 150)
                     else Covers(t.collateral, t.debt, s.price, 110) && StaysNormal(s, original, t))
                 && adjusted.collateral <= s.accountBalance
  {
    OpeningOrClosing(original, adjusted, rate);
    if adjusted.debt >= RESERVE {
      var borrowed := UnapplyFee(rate, adjusted.debt - RESERVE);
      FeeIsAdded(rate, borrowed);
      var t := Trove(adjusted.collateral, RESERVE + borrowed + borrowed * rate / DIGITS);
      RatiosAreCovers(s.total, s.price);
      RatiosAreCovers(t, s.price);
      TotalCovers(s, original, t);
      assert Apply(original, Some(Creation(adjusted.collateral, borrowed)), rate) == Ok(t);
    }
  }

  // ---------- Adjustments ----------

  // The trove that an adjustment leads to.
  function Adjusted(original: Trove, adjusted: Trove, rate: Decimal): Trove {
    if adjusted.debt <= original.debt then adjusted
    else
      var borrowed := UnapplyFee(rate, adjusted.debt - original.debt);
      adjusted.(debt := original.debt + borrowed + borrowed * rate / DIGITS)
  }

  lemma AdjustedIsReached(original: Trove, adjusted: Trove, rate: Decimal)
    requires !original.IsEmpty() && !adjusted.IsEmpty() && original != adjusted
    ensures var change := WhatChanged(original, adjusted, rate);
            && change.Ok? && change.value.Some? && change.value.value.Adjustment?
            && Apply(original, change.value, rate) == Ok(Adjusted(original, adjusted, rate))
  {
    var change := WhatChanged(original, adjusted, rate).value.value;
    AdjustToNamesDifferences(original, adjusted, rate);
    AdjustmentFormula(original, change.params, change.setToZero, rate);
    if adjusted.debt > original.debt {
      FeeIsAdded(rate, UnapplyFee(rate, adjusted.debt - original.debt));
    }
  }

  // An adjustment is accepted exactly when it changes something; in recovery mode takes no
  // collateral, and if it borrows, covers 150% at no lower ratio than before; in normal mode
  // covers 110% and leaves the total at 150%; and when what it repays can be paid and leaves
  // a debt of at least 220, and what it deposits can be paid.
  lemma AdjustmentAcceptedIff(original: Trove, adjusted: Trove, rate: Decimal, s: Selected)
    requires !original.IsEmpty() && !adjusted.IsEmpty()
    ensures var t := Adjusted(original, adjusted, rate);
            Accepts(original, adjusted, rate, s) <==>
              && original != adjusted
              && (if InRecoveryMode(s) then
                    && original.collateral <= adjusted.collateral
                    && (adjusted.debt > original.debt ==>
                          && Covers(t.collateral, t.debt, s.price, 150)
                          && t.CollateralRatio(s.price) >= original.CollateralRatio(s.price))
                  else Covers(t.collateral, t.debt, s.price, 110) && StaysNormal(s, original, t))
              && (adjusted.debt < original.debt ==>
                    adjusted.debt >= LEAST_DEBT && original.debt - adjusted.debt <= s.debtTokenBalance)
              && (adjusted.collateral > original.collateral ==>
                    adjusted.collateral - original.collateral <= s.accountBalance)
  {
    if original != adjusted {
      var t := Adjusted(original, adjusted, rate);
      AdjustedIsReached(original, adjusted, rate);
      AdjustToNamesDifferences(original, adjusted, rate);
      RatiosAreCovers(s.total, s.price);
      RatiosAreCovers(t, s.price);
      TotalCovers(s, original, t);
    }
  }

  // ---------- Closures ----------

  // A closure is accepted exactly when the trove holds the reserve and is not the only one,
  // in normal mode, when the debt beyond the reserve can be paid and the total stays at 150%.
  lemma ClosureAcceptedIff(original: Trove, adjusted: Trove, rate: Decimal, s: Selected)
    requires !original.IsEmpty() && adjusted.IsEmpty()
    ensures Accepts(original, adjusted, rate, s) <==>
              && original.debt >= RESERVE
              && s.numberOfTroves != 1
              && !InRecoveryMode(s)
              && original.debt - RESERVE <= s.debtTokenBalance
              && StaysNormal(s, original, Trove(0, 0))
  {
    OpeningOrClosing(original, adjusted, rate);
    RatiosAreCovers(s.total, s.price);
    TotalCovers(s, original, Trove(0, 0));
  }

  // Without a difference there is nothing to accept.
  lemma NothingToAccept(original: Trove, adjusted: Trove, rate: Decimal, s: Selected)
    requires original == adjusted
    ensures Validate(original, adjusted, rate, s) == Ok(NoChange)
  {
  }

  // ---------- Reasons ----------

  // What a reason says of the change that is rejected with it.
  predicate Explains(reason: Reason, original: Trove, adjusted: Trove, rate: Decimal, t: Trove, s: Selected) {
    match reason
    case DebtBelowMinimum =>
      if original.IsEmpty() then adjusted.debt < RESERVE
      else !adjusted.IsEmpty() && adjusted.debt < original.debt && t.debt < LEAST_DEBT
    case BorrowingBelowMinimum =>
      && original.IsEmpty() && adjusted.debt >= RESERVE
      && UnapplyFee(rate, adjusted.debt - RESERVE) < LEAST_BORROWED
    case BelowCriticalInRecovery =>
      InRecoveryMode(s) && adjusted.debt > original.debt && !Covers(t.collateral, t.debt, s.price, 150)
    case BelowMinimumRatio => !InRecoveryMode(s) && !Covers(t.collateral, t.debt, s.price, 110)
    case WouldTriggerRecovery => !InRecoveryMode(s) && !StaysNormal(s, original, t)
    case DepositExceedsBalance => adjusted.collateral > original.collateral + s.accountBalance
    case WithdrawalInRecovery =>
      InRecoveryMode(s) && adjusted.collateral < original.collateral && !adjusted.IsEmpty()
    case RatioDecreasedInRecovery =>
      && InRecoveryMode(s) && !original.IsEmpty() && adjusted.debt > original.debt
      && t.CollateralRatio(s.price) < original.CollateralRatio(s.price)
    case RepaymentExceedsBalance =>
      original.debt > adjusted.debt + (if adjusted.IsEmpty() then RESERVE else 0) + s.debtTokenBalance
    case LastTrove => adjusted.IsEmpty() && s.numberOfTroves == 1
    case ClosureInRecovery => adjusted.IsEmpty() && InRecoveryMode(s)
  }

  // What a change is judged by.
  datatype Case = Case(original: Trove, adjusted: Trove, rate: Decimal, reached: Trove, selected: Selected) {
    predicate Shows(reason: Reason) { Explains(reason, original, adjusted, rate, reached, selected) }

    // The reason if it is true, or the next one.
    function Or(reason: Reason, next: Option<Reason>): Option<Reason> {
      if Shows(reason) then Some(reason) else next
    }

    function CreationReason(): Option<Reason> {
      Or(DebtBelowMinimum, Or(BorrowingBelowMinimum, Or(BelowCriticalInRecovery, Or(BelowMinimumRatio,
      Or(WouldTriggerRecovery, Or(DepositExceedsBalance, None))))))
    }

    function AdjustmentReason(): Option<Reason> {
      Or(WithdrawalInRecovery, Or(BelowCriticalInRecovery, Or(RatioDecreasedInRecovery, Or(BelowMinimumRatio,
      Or(WouldTriggerRecovery, Or(DebtBelowMinimum, Or(RepaymentExceedsBalance, Or(DepositExceedsBalance, None))))))))
    }

    function ClosureReason(): Option<Reason> {
      Or(LastTrove, Or(ClosureInRecovery, Or(RepaymentExceedsBalance, Or(WouldTriggerRecovery, None))))
    }

    // The first true reason for the kind of change, if any.
    function FirstReason(): Option<Reason> {
      if original.IsEmpty() then CreationReason()
      else if adjusted.IsEmpty() then ClosureReason()
      else AdjustmentReason()
    }
  }

  ghost predicate IsJudged(original: Trove, adjusted: Trove, rate: Decimal, s: Selected) {
    var change := WhatChanged(original, adjusted, rate);
    && change.Ok? && change.value.Some? && Apply(original, change.value, rate).Ok?
    && var reason := Case(original, adjusted, rate, Apply(original, change.value, rate).value, s).FirstReason();
       Validate(original, adjusted, rate, s)
       == Ok(if reason.Some? then Rejected(reason.value) else Accepted(change.value.value))
  }

  lemma CreationIsJudged(original: Trove, adjusted: Trove, rate: Decimal, s: Selected)
    requires original.IsEmpty() && !adjusted.IsEmpty()
    ensures IsJudged(original, adjusted, rate, s)
  {
    OpeningOrClosing(original, adjusted, rate);
    RatiosAreCovers(s.total, s.price);
    var t := Apply(original, WhatChanged(original, adjusted, rate).value, rate).value;
    RatiosAreCovers(t, s.price);
    TotalCovers(s, original, t);
  }

  lemma AdjustmentIsJudged(original: Trove, adjusted: Trove, rate: Decimal, s: Selected)
    requires !original.IsEmpty() && !adjusted.IsEmpty() && original != adjusted
    ensures IsJudged(original, adjusted, rate, s)
  {
    AdjustToNamesDifferences(original, adjusted, rate);
    AdjustedIsReached(original, adjusted, rate);
    var t := Apply(original, WhatChanged(original, adjusted, rate).value, rate).value;
    RatiosAreCovers(s.total, s.price);
    RatiosAreCovers(t, s.price);
    TotalCovers(s, original, t);
  }

  lemma ClosureIsJudged(original: Trove, adjusted: Trove, rate: Decimal, s: Selected)
    requires !original.IsEmpty() && adjusted.IsEmpty() && original.debt >= RESERVE
    ensures IsJudged(original, adjusted, rate, s)
  {
    OpeningOrClosing(original, adjusted, rate);
    RatiosAreCovers(s.total, s.price);
    RatiosAreCovers(Trove(0, 0), s.price);
    TotalCovers(s, original, Trove(0, 0));
  }

  // A change is rejected with the first reason that is true of it, and accepted as it is if
  // none is.
  lemma FirstReasonIsGiven(original: Trove, adjusted: Trove, rate: Decimal, s: Selected)
    requires original != adjusted && (original.IsEmpty() || !adjusted.IsEmpty() || original.debt >= RESERVE)
    ensures IsJudged(original, adjusted, rate, s)
  {
    if original.IsEmpty() {
      CreationIsJudged(original, adjusted, rate, s);
    } else if adjusted.IsEmpty() {
      ClosureIsJudged(original, adjusted, rate, s);
    } else {
      AdjustmentIsJudged(original, adjusted, rate, s);
    }
  }
}
