// The front end's validation of a trove change, as a guarded transition, and
// what the accepted transitions do to the whole system at a fixed price.
module TroveValidation {
  import opened Arithmetic
  import opened Decimals
  import opened Wrappers
  import opened Troves
  import opened MapSums
  import RatioBounds

  datatype Selected = Selected(
    price: Decimal,
    total: Trove,
    accountBalance: Decimal,
    debtTokenBalance: Decimal,
    numberOfTroves: nat
  )

  datatype Reason =
    | DebtBelowMinimum
    | BorrowingBelowMinimum
    | BelowCriticalInRecovery
    | BelowMinimumRatio
    | WouldTriggerRecovery
    | DepositExceedsBalance
    | WithdrawalInRecovery
    | RatioDecreasedInRecovery
    | RepaymentExceedsBalance
    | LastTrove
    | ClosureInRecovery

  datatype Outcome = NoChange | Rejected(reason: Reason) | Accepted(change: Change)

  datatype Context = Context(
    selected: Selected,
    original: Trove,
    resulting: Trove,
    recoveryMode: bool,
    wouldTriggerRecoveryMode: bool
  )

  predicate Exceeds(amount: Option<Decimal>, limit: Decimal) {
    amount.Some? && amount.value > limit
  }

  function Validate(original: Trove, adjusted: Trove, rate: Decimal, selected: Selected): Result<Outcome> {
    var change :- WhatChanged(original, adjusted, rate);
    if change.None? then Ok(NoChange) else
      var resulting :- Apply(original, change, rate);
      var context := Context(selected, original, resulting,
                             selected.total.IsBelowCritical(selected.price),
                             selected.total.Subtract(original).Add(resulting).IsBelowCritical(selected.price));
      if change.value.InvalidCreation? then
        Ok(Rejected(DebtBelowMinimum))
      else
        var error :=
          match change.value
          case Creation(deposit, borrow) => CreationError(deposit, borrow, context)
          case Closure(_, repay) => ClosureError(repay, context)
          case Adjustment(params, _) => AdjustmentError(params, context);
        if error.Some? then Ok(Rejected(error.value)) else Ok(Accepted(change.value))
  }

  function CreationError(deposit: Decimal, borrow: Decimal, c: Context): Option<Reason> {
    var price := c.selected.price;
    if borrow < MINIMUM_NET_DEBT then Some(BorrowingBelowMinimum)
    else if c.recoveryMode && !c.resulting.IsOpenableInRecoveryMode(price) then Some(BelowCriticalInRecovery)
    else if !c.recoveryMode && c.resulting.IsBelowMinimum(price) then Some(BelowMinimumRatio)
    else if !c.recoveryMode && c.wouldTriggerRecoveryMode then Some(WouldTriggerRecovery)
    else if deposit > c.selected.accountBalance then Some(DepositExceedsBalance)
    else None
  }

  function ModeError(p: Params, c: Context): Option<Reason> {
    var price := c.selected.price;
    if c.recoveryMode then
      if p.withdrawCollateral.Some? then Some(WithdrawalInRecovery)
      else if p.borrowDebtToken.Some? && c.resulting.IsBelowCritical(price) then Some(BelowCriticalInRecovery)
      else if p.borrowDebtToken.Some? && c.resulting.CollateralRatio(price) < c.original.CollateralRatio(price)
        then Some(RatioDecreasedInRecovery)
      else None
    else
      if c.resulting.IsBelowMinimum(price) then Some(BelowMinimumRatio)
      else if c.wouldTriggerRecoveryMode then Some(WouldTriggerRecovery)
      else None
  }

  function AdjustmentError(p: Params, c: Context): Option<Reason> {
    if ModeError(p, c).Some? then ModeError(p, c)
    else if p.repayDebtToken.Some? && c.resulting.debt < MINIMUM_DEBT then Some(DebtBelowMinimum)
    else if Exceeds(p.repayDebtToken, c.selected.debtTokenBalance) then Some(RepaymentExceedsBalance)
    else if Exceeds(p.depositCollateral, c.selected.accountBalance) then Some(DepositExceedsBalance)
    else None
  }

  function ClosureError(repay: Option<Decimal>, c: Context): Option<Reason> {
    if c.selected.numberOfTroves == 1 then Some(LastTrove)
    else if c.recoveryMode then Some(ClosureInRecovery)
    else if Exceeds(repay, c.selected.debtTokenBalance) then Some(RepaymentExceedsBalance)
    else if c.wouldTriggerRecoveryMode then Some(WouldTriggerRecovery)
    else None
  }

  // ---------- One accepted change ----------

  predicate Accepts(original: Trove, adjusted: Trove, rate: Decimal, s: Selected) {
    var v := Validate(original, adjusted, rate, s);
    v.Ok? && v.value.Accepted?
  }

  function Resulting(original: Trove, adjusted: Trove, rate: Decimal, s: Selected): Trove
    requires Accepts(original, adjusted, rate, s)
  {
    Apply(original, Some(Validate(original, adjusted, rate, s).value.change), rate).value
  }

  function TotalAfter(original: Trove, adjusted: Trove, rate: Decimal, s: Selected): Trove
    requires Accepts(original, adjusted, rate, s)
  {
    s.total.Subtract(original).Add(Resulting(original, adjusted, rate, s))
  }

  // The edited trove is part of the total.
  predicate PartOf(t: Trove, total: Trove) {
    t.collateral <= total.collateral && t.debt <= total.debt
  }

  // Recovery mode: an accepted change lowers the floored total ratio by at most one
  // unit, and only a borrowing adjustment can lower it at all.
  lemma RecoveryModeSafety(original: Trove, adjusted: Trove, rate: Decimal, s: Selected)
    requires PartOf(original, s.total)
    requires s.total.IsBelowCritical(s.price)
    requires Accepts(original, adjusted, rate, s)
    ensures var before := s.total.CollateralRatio(s.price);
            var after := TotalAfter(original, adjusted, rate, s).CollateralRatio(s.price);
            && before <= after + 1
            && (original.IsEmpty() || adjusted.debt <= original.debt ==> before <= after)
  {
    var resulting := Resulting(original, adjusted, rate, s);
    AcceptedInRecovery(original, adjusted, rate, s);
    if original.IsEmpty() {
      RatioBounds.Merge(s.total, resulting, s.price);
    } else if adjusted.debt <= original.debt {
      RatioBounds.Improve(s.total, original, resulting, s.price);
    } else {
      RatioBounds.Borrow(s.total, original, resulting, s.price);
    }
  }

  // What acceptance in recovery mode says about the resulting trove.
  lemma AcceptedInRecovery(original: Trove, adjusted: Trove, rate: Decimal, s: Selected)
    requires s.total.IsBelowCritical(s.price)
    requires Accepts(original, adjusted, rate, s)
    ensures var t := Resulting(original, adjusted, rate, s);
            && t.collateral >= original.collateral && (t.debt > 0 || t.debt == original.debt)
            && (original.IsEmpty() ==> t.debt > 0 && !t.IsBelowCritical(s.price))
            && (adjusted.debt <= original.debt ==> t.debt == adjusted.debt)
            && (!original.IsEmpty() && adjusted.debt > original.debt ==>
                  && t.debt > original.debt && !t.IsBelowCritical(s.price)
                  && t.CollateralRatio(s.price) >= original.CollateralRatio(s.price))
  {
    RecoveryVerdict(original, adjusted, rate, s);
    ApplyWhatChanged(original, adjusted, rate);
    if !original.IsEmpty() {
      AdjustToNamesDifferences(original, adjusted, rate);
    }
  }

  // The guards that an accepted change has passed in recovery mode.
  lemma RecoveryVerdict(original: Trove, adjusted: Trove, rate: Decimal, s: Selected)
    requires s.total.IsBelowCritical(s.price)
    requires Accepts(original, adjusted, rate, s)
    ensures WhatChanged(original, adjusted, rate) == Ok(Some(Validate(original, adjusted, rate, s).value.change))
    ensures !adjusted.IsEmpty()
    ensures var t := Resulting(original, adjusted, rate, s);
            if original.IsEmpty() then
              !t.IsBelowCritical(s.price)
            else
              var p := AdjustTo(original, adjusted, rate).value;
              && p.withdrawCollateral.None?
              && (p.repayDebtToken.Some? ==> t.debt >= MINIMUM_DEBT)
              && (p.borrowDebtToken.Some? ==>
                    !t.IsBelowCritical(s.price) && t.CollateralRatio(s.price) >= original.CollateralRatio(s.price))
  {
  }

  // The bound is reached: a floored trove ratio can hide a loss that the total shows.
  lemma OneUnitIsLost()
    ensures exists original: Trove, adjusted: Trove, s: Selected ::
              && PartOf(original, s.total) && s.total.IsBelowCritical(s.price)
              && Accepts(original, adjusted, 0, s)
              && s.total.CollateralRatio(s.price) == TotalAfter(original, adjusted, 0, s).CollateralRatio(s.price) + 1
  {
    var original := Trove(440 * DIGITS + 3, 220 * DIGITS);
    var adjusted := Trove(440 * DIGITS + 3, 220 * DIGITS + 1);
    var s := Selected(DIGITS, Trove(528 * DIGITS, 440 * DIGITS), 0, 0, 2);
    assert UnapplyFee(0, 1) == 1 && ApplyFee(0, 1) == 1;
    assert Accepts(original, adjusted, 0, s);
    assert s.total.CollateralRatio(s.price) == TotalAfter(original, adjusted, 0, s).CollateralRatio(s.price) + 1;
  }

  // Normal mode: an accepted change leaves the system out of recovery mode, and
  // the changed trove, unless closed, at or above the minimum ratio.
  lemma NormalModeSafety(original: Trove, adjusted: Trove, rate: Decimal, s: Selected)
    requires !s.total.IsBelowCritical(s.price)
    requires Accepts(original, adjusted, rate, s)
    ensures !TotalAfter(original, adjusted, rate, s).IsBelowCritical(s.price)
    ensures !adjusted.IsEmpty() ==> !Resulting(original, adjusted, rate, s).IsBelowMinimum(s.price)
  {
  }

  // In both modes the resulting trove has the edited collateral and holds the minimum debt.
  lemma AcceptedTrove(original: Trove, adjusted: Trove, rate: Decimal, s: Selected)
    requires original.IsEmpty() || original.debt >= MINIMUM_DEBT
    requires Accepts(original, adjusted, rate, s)
    ensures Validate(original, adjusted, rate, s).value.change.Closure? <==> adjusted.IsEmpty()
    ensures Resulting(original, adjusted, rate, s).collateral == adjusted.collateral
    ensures if adjusted.IsEmpty() then Resulting(original, adjusted, rate, s) == EMPTY && !original.IsEmpty()
            else Resulting(original, adjusted, rate, s).debt >= MINIMUM_DEBT
  {
    ApplyWhatChanged(original, adjusted, rate);
    var change := Validate(original, adjusted, rate, s).value.change;
    if change.Creation? {
      FloorAdjoint(change.borrowDebtToken * (DIGITS + rate), DIGITS, change.borrowDebtToken);
      MulMonotone(DIGITS, DIGITS + rate, change.borrowDebtToken);
    }
  }

  // ---------- Whole runs ----------

  type Owner = nat

  datatype System = System(price: Decimal, troves: map<Owner, Trove>, total: Trove)

  datatype Request = Request(
    owner: Owner,
    edited: Trove,
    rate: Decimal,
    accountBalance: Decimal,
    debtTokenBalance: Decimal
  )

  function TroveOf(s: System, owner: Owner): Trove {
    if owner in s.troves then s.troves[owner] else EMPTY
  }

  function View(s: System, r: Request): Selected {
    Selected(s.price, s.total, r.accountBalance, r.debtTokenBalance, |s.troves|)
  }

  predicate IsAccepted(s: System, r: Request) {
    Accepts(TroveOf(s, r.owner), r.edited, r.rate, View(s, r))
  }

  // A rejected request changes nothing; an accepted one takes effect as computed.
  function Step(s: System, r: Request): System {
    if IsAccepted(s, r) then
      var original := TroveOf(s, r.owner);
      var change := Validate(original, r.edited, r.rate, View(s, r)).value.change;
      var resulting := Resulting(original, r.edited, r.rate, View(s, r));
      System(s.price,
             if change.Closure? then s.troves - {r.owner} else s.troves[r.owner := resulting],
             s.total.Subtract(original).Add(resulting))
    else s
  }

  function Run(s: System, requests: seq<Request>): System
    decreases requests
  {
    if requests == [] then s else Run(Step(s, requests[0]), requests[1..])
  }

  function Collaterals(troves: map<Owner, Trove>): map<Owner, int> {
    map o | o in troves :: troves[o].collateral
  }

  function Debts(troves: map<Owner, Trove>): map<Owner, int> {
    map o | o in troves :: troves[o].debt
  }

  ghost predicate Consistent(s: System) {
    && s.total.collateral == Sum(Collaterals(s.troves))
    && s.total.debt == Sum(Debts(s.troves))
    && forall o :: o in s.troves ==> s.troves[o].debt >= MINIMUM_DEBT
  }

  predicate InRecovery(s: System) {
    s.total.IsBelowCritical(s.price)
  }

  function Ratio(s: System): Decimal {
    s.total.CollateralRatio(s.price)
  }

  lemma TroveIsPart(s: System, owner: Owner)
    requires Consistent(s)
    ensures PartOf(TroveOf(s, owner), s.total)
    ensures At(Collaterals(s.troves), owner) == TroveOf(s, owner).collateral
    ensures At(Debts(s.troves), owner) == TroveOf(s, owner).debt
  {
    SumBelow(Collaterals(s.troves), owner);
    SumBelow(Debts(s.troves), owner);
  }

  // The validator never throws on a consistent system.
  lemma ValidationIsTotal(s: System, r: Request)
    requires Consistent(s)
    ensures Validate(TroveOf(s, r.owner), r.edited, r.rate, View(s, r)).Ok?
  {
    if WhatChanged(TroveOf(s, r.owner), r.edited, r.rate).Ok? {
      ApplyWhatChanged(TroveOf(s, r.owner), r.edited, r.rate);
    }
  }

  lemma ReplaceKeepsConsistent(s: System, owner: Owner, t: Trove)
    requires Consistent(s) && t.debt >= MINIMUM_DEBT
    ensures Consistent(System(s.price, s.troves[owner := t], s.total.Subtract(TroveOf(s, owner)).Add(t)))
  {
    TroveIsPart(s, owner);
    SumUpdate(Collaterals(s.troves), owner, t.collateral);
    SumUpdate(Debts(s.troves), owner, t.debt);
    assert Collaterals(s.troves[owner := t]) == Collaterals(s.troves)[owner := t.collateral];
    assert Debts(s.troves[owner := t]) == Debts(s.troves)[owner := t.debt];
  }

  lemma RemoveKeepsConsistent(s: System, owner: Owner)
    requires Consistent(s) && owner in s.troves && |s.troves| != 1
    ensures Consistent(System(s.price, s.troves - {owner}, s.total.Subtract(TroveOf(s, owner)).Add(EMPTY)))
    ensures s.troves - {owner} != map[]
  {
    TroveIsPart(s, owner);
    SumRemove(Collaterals(s.troves), owner);
    SumRemove(Debts(s.troves), owner);
    assert Collaterals(s.troves - {owner}) == Collaterals(s.troves) - {owner};
    assert Debts(s.troves - {owner}) == Debts(s.troves) - {owner};
    assert (s.troves - {owner}).Keys == s.troves.Keys - {owner};
    assert |s.troves.Keys - {owner}| == |s.troves| - 1;
  }

  lemma StepKeepsConsistent(s: System, r: Request)
    requires Consistent(s)
    ensures Consistent(Step(s, r))
    ensures s.troves != map[] ==> Step(s, r).troves != map[]
  {
    if IsAccepted(s, r) {
      AcceptedTrove(TroveOf(s, r.owner), r.edited, r.rate, View(s, r));
      if r.edited.IsEmpty() {
        RemoveKeepsConsistent(s, r.owner);
      } else {
        ReplaceKeepsConsistent(s, r.owner, Resulting(TroveOf(s, r.owner), r.edited, r.rate, View(s, r)));
        assert r.owner in Step(s, r).troves;
      }
    }
  }

  // The edited trove, up to the fee's rounding.
  predicate Reaches(t: Trove, edited: Trove, from: Trove, rate: Decimal) {
    && t.collateral == edited.collateral && edited.debt <= t.debt
    && (rate <= DIGITS ==> t.debt <= edited.debt + 1)
    && (rate == 0 || edited.debt <= from.debt ==> t == edited)
  }

  lemma AcceptedReaches(original: Trove, adjusted: Trove, rate: Decimal, s: Selected)
    requires Accepts(original, adjusted, rate, s)
    ensures Reaches(Resulting(original, adjusted, rate, s), adjusted, original, rate)
  {
    ApplyWhatChanged(original, adjusted, rate);
  }

  // An accepted request gives its owner the edited trove, or none if edited to nothing; the
  // trove of nobody else changes, and a rejected request changes nothing.
  lemma StepTakesEffect(s: System, r: Request)
    requires Consistent(s)
    ensures Step(s, r).price == s.price
    ensures !IsAccepted(s, r) ==> Step(s, r) == s
    ensures IsAccepted(s, r) ==>
              if r.edited.IsEmpty() then Step(s, r).troves == s.troves - {r.owner}
              else exists t :: Step(s, r).troves == s.troves[r.owner := t]
                               && Reaches(t, r.edited, TroveOf(s, r.owner), r.rate)
  {
    if IsAccepted(s, r) {
      AcceptedTrove(TroveOf(s, r.owner), r.edited, r.rate, View(s, r));
      AcceptedReaches(TroveOf(s, r.owner), r.edited, r.rate, View(s, r));
      if !r.edited.IsEmpty() {
        var t := Resulting(TroveOf(s, r.owner), r.edited, r.rate, View(s, r));
        assert Step(s, r).troves == s.troves[r.owner := t];
      }
    }
  }

  // Does this request borrow on an open trove while in recovery mode?
  predicate BorrowsInRecovery(s: System, r: Request) {
    InRecovery(s) && IsAccepted(s, r) && r.owner in s.troves && r.edited.debt > s.troves[r.owner].debt
  }

  function RecoveryBorrowings(s: System, requests: seq<Request>): nat
    decreases requests
  {
    if requests == [] then 0
    else (if BorrowsInRecovery(s, requests[0]) then 1 else 0) + RecoveryBorrowings(Step(s, requests[0]), requests[1..])
  }

  lemma StepRatio(s: System, r: Request)
    requires Consistent(s)
    ensures Min(Ratio(s), CRITICAL_COLLATERAL_RATIO)
         <= Min(Ratio(Step(s, r)), CRITICAL_COLLATERAL_RATIO) + if BorrowsInRecovery(s, r) then 1 else 0
  {
    if IsAccepted(s, r) {
      var original := TroveOf(s, r.owner);
      TroveIsPart(s, r.owner);
      if InRecovery(s) {
        RecoveryModeSafety(original, r.edited, r.rate, View(s, r));
      } else {
        NormalModeSafety(original, r.edited, r.rate, View(s, r));
      }
    }
  }

  // On every run the total stays the sum of the troves, every trove keeps the minimum
  // debt, and the total ratio, capped at the critical one, falls by no more units than
  // there were borrowings in recovery mode.
  lemma {:induction false} RunSafety(s: System, requests: seq<Request>)
    requires Consistent(s)
    ensures var s' := Run(s, requests);
            && Consistent(s')
            && (s.troves != map[] ==> s'.troves != map[])
            && Min(Ratio(s), CRITICAL_COLLATERAL_RATIO)
               <= Min(Ratio(s'), CRITICAL_COLLATERAL_RATIO) + RecoveryBorrowings(s, requests)
    decreases requests
  {
    if requests == [] {
    } else {
      StepKeepsConsistent(s, requests[0]);
      StepRatio(s, requests[0]);
      RunSafety(Step(s, requests[0]), requests[1..]);
    }
  }

  // From normal mode, recovery mode is never entered, and every trove of the outcome
  // was either never touched or is at or above the minimum ratio.
  lemma {:induction false} NormalRunSafety(s: System, requests: seq<Request>)
    requires Consistent(s) && !InRecovery(s)
    ensures var s' := Run(s, requests);
            && Consistent(s') && !InRecovery(s')
            && forall o :: o in s'.troves ==>
                 (o in s.troves && s'.troves[o] == s.troves[o]) || !s'.troves[o].IsBelowMinimum(s.price)
    decreases requests
  {
    if requests == [] {
    } else {
      var r := requests[0];
      StepKeepsConsistent(s, r);
      if IsAccepted(s, r) {
        NormalModeSafety(TroveOf(s, r.owner), r.edited, r.rate, View(s, r));
        TroveIsPart(s, r.owner);
        AcceptedTrove(TroveOf(s, r.owner), r.edited, r.rate, View(s, r));
      }
      NormalRunSafety(Step(s, r), requests[1..]);
    }
  }
}
