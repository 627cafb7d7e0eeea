// The subgraph's history of system states and changes, with the sums of the
// entities beside it, as a small machine driven by postings. The indexer is shown
// to drive it; the conservation laws are proved here.
module Books {
  import opened Wrappers
  import opened Arithmetic
  import opened Entities
  import opened IndexerSpec
  import opened Redistribution

  datatype History = History(
    states: map<int, SystemState>,
    changes: map<int, Change>,
    stateCount: int,
    changeCount: int,
    current: Option<int>
  )

  // The history, and the sums over all troves, deposits, stakes and users.
  datatype Books = Books(history: History, collateral: int, debt: int, deposits: int, stakes: int, surplus: int)

  datatype Posting =
    | FirstState                          // make sure there is a system state
    | Entry(tx: TxId, detail: Detail)     // a change of the system
    | FirstPrice(price: int)              // fill the price into the current state
    | Fee(fee: int)                       // fill the fee into the last change

  function CurrentOf(h: History): SystemState {
    if h.current.Some? && h.current.value in h.states then h.states[h.current.value] else NewSystemState(h.stateCount)
  }

  function Opened(h: History): (r: History)
    ensures r.current.Some? && r.current.value in r.states
    ensures CurrentOf(r) == CurrentOf(h)
  {
    if h.current.Some? && h.current.value in h.states then h
    else h.(states := h.states[h.stateCount := NewSystemState(h.stateCount)],
            stateCount := h.stateCount + 1, current := Some(h.stateCount))
  }

  function Recorded(h: History, tx: TxId, detail: Detail): History {
    var h1 := Opened(h);
    var n, id := h1.changeCount, h1.stateCount;
    History(h1.states[id := Effect(CurrentOf(h), detail).(sequenceNumber := id)],
            h1.changes[n := Change(n, tx, h1.current.value, id, detail)], id + 1, n + 1, Some(id))
  }

  function Priced(h: History, price: int): History {
    var h1 := Opened(h);
    h1.(states := h1.states[h1.current.value := CurrentOf(h).(price := Some(price))])
  }

  predicate LastIsTrove(h: History) {
    h.changeCount - 1 in h.changes && h.changes[h.changeCount - 1].detail.TroveChange?
  }

  function WithFee(c: Change, fee: int): Change
    requires c.detail.TroveChange?
  {
    c.(detail := TroveChange(c.detail.delta.(borrowingFee := Some(fee))))
  }

  function FeePaid(h: History, fee: int): History
    requires LastIsTrove(h)
  {
    h.(changes := h.changes[h.changeCount - 1 := WithFee(h.changes[h.changeCount - 1], fee)])
  }

  predicate CanPost(b: Books, p: Posting) {
    match p
    case FirstState => true
    case Entry(_, detail) => detail.TroveChange? ==> CurrentOf(b.history).price.Some?
    case FirstPrice(_) => CurrentOf(b.history).price.None?
    case Fee(_) => LastIsTrove(b.history)
  }

  function Post(b: Books, p: Posting): Books
    requires CanPost(b, p)
  {
    match p
    case FirstState => b.(history := Opened(b.history))
    case FirstPrice(price) => b.(history := Priced(b.history, price))
    case Fee(fee) => b.(history := FeePaid(b.history, fee))
    case Entry(tx, detail) =>
      var b1 := b.(history := Recorded(b.history, tx, detail));
      match detail
      case TroveChange(d) => b1.(collateral := b.collateral + d.CollateralChange(), debt := b.debt + d.DebtChange())
      case DepositChange(_, _, before, after, _) => b1.(deposits := b.deposits + (after - before))
      case PriceChange(_) => b1
      case CollSurplusChange(_, before, after) => b1.(surplus := b.surplus + (after - before))
      case StakeChange(_, _, before, after, _, _) => b1.(stakes := b.stakes + (after - before))
  }

  // ---------- Gapless history ----------

  // The change leads from one system state to the next; the price may have been
  // filled in afterwards if it was not known before.
  predicate Leads(s: SystemState, c: Change, s': SystemState) {
    var t := Effect(s, c.detail);
    s' == t.(sequenceNumber := s'.sequenceNumber, price := if s.price.None? then s'.price else t.price)
  }

  ghost predicate Gapless(h: History) {
    if h.stateCount == 0 then
      h == History(map[], map[], 0, 0, None)
    else
      && h.changeCount >= 0 && h.stateCount == h.changeCount + 1 && h.current == Some(h.changeCount)
      && (forall n :: n in h.states <==> 0 <= n <= h.changeCount)
      && (forall n :: n in h.changes <==> 0 <= n < h.changeCount)
      && (forall n :: n in h.states ==> h.states[n].sequenceNumber == n)
      && (forall n :: n in h.changes ==>
            && h.changes[n] == Change(n, h.changes[n].transaction, n, n + 1, h.changes[n].detail)
            && Leads(h.states[n], h.changes[n], h.states[n + 1]))
  }

  // A change is only ever completed by its fee.
  predicate SameButFee(c: Change, c': Change) {
    || c' == c
    || (c.detail.TroveChange? && c'.detail.TroveChange? && c' == WithFee(c, c'.detail.delta.borrowingFee.GetOr(0)))
  }

  // Superseded states and all but the last change are final; the last change can
  // only get its fee.
  ghost predicate Extends(h: History, h': History) {
    && h.changeCount <= h'.changeCount
    && (forall n :: n in h.states && n < h.changeCount ==> n in h'.states && h'.states[n] == h.states[n])
    && (forall n :: n in h.changes && n < h.changeCount - 1 ==> n in h'.changes && h'.changes[n] == h.changes[n])
    && (forall n :: n in h.changes && n == h.changeCount - 1 ==>
          n in h'.changes && SameButFee(h.changes[n], h'.changes[n]))
  }

  lemma OpenedIsGapless(h: History)
    requires Gapless(h)
    ensures Gapless(Opened(h)) && Opened(h).changeCount == h.changeCount && Opened(h).current == Some(h.changeCount)
    ensures Extends(h, Opened(h)) && Opened(h).changes == h.changes
  {
  }

  lemma RecordedIsGapless(h: History, tx: TxId, detail: Detail)
    requires Gapless(h)
    ensures var h' := Recorded(h, tx, detail);
            && Gapless(h') && Extends(h, h') && h'.changeCount == h.changeCount + 1
            && h'.states[h.changeCount] == CurrentOf(h)
            && CurrentOf(h') == Effect(CurrentOf(h), detail).(sequenceNumber := h.changeCount + 1)
            && h'.changes[h.changeCount] == Change(h.changeCount, tx, h.changeCount, h.changeCount + 1, detail)
  {
    OpenedIsGapless(h);
    var h' := Recorded(h, tx, detail);
    assert Leads(h'.states[h.changeCount], h'.changes[h.changeCount], h'.states[h.changeCount + 1]);
  }

  lemma PricedIsGapless(h: History, price: int)
    requires Gapless(h) && CurrentOf(h).price.None?
    ensures var h' := Priced(h, price);
            && Gapless(h') && Extends(h, h') && h'.changeCount == h.changeCount && h'.changes == h.changes
            && CurrentOf(h') == CurrentOf(h).(price := Some(price))
  {
    OpenedIsGapless(h);
    LatestIsPriced(Opened(h), h.changeCount, price);
  }

  lemma LatestIsPriced(h: History, n: int, price: int)
    requires Gapless(h) && h.stateCount > 0 && n == h.changeCount && h.states[n].price.None?
    ensures var h' := h.(states := h.states[n := h.states[n].(price := Some(price))]);
            Gapless(h') && CurrentOf(h') == CurrentOf(h).(price := Some(price))
  {
    if n - 1 in h.changes {
      PriceLeads(h.states[n - 1], h.changes[n - 1], h.states[n], price);
    }
  }

  lemma PriceLeads(s: SystemState, c: Change, s': SystemState, price: int)
    requires Leads(s, c, s') && s'.price.None?
    ensures Leads(s, c, s'.(price := Some(price)))
  {
  }

  lemma FeePaidIsGapless(h: History, fee: int)
    requires Gapless(h) && LastIsTrove(h)
    ensures var h' := FeePaid(h, fee);
            Gapless(h') && Extends(h, h') && h'.changeCount == h.changeCount && h'.states == h.states
  {
    var n, h' := h.changeCount - 1, FeePaid(h, fee);
    FeeLeads(h.states[n], h.changes[n], h.states[n + 1], fee);
    FeeExtends(h, h', n, fee);
    assert forall m :: m in h'.changes && m != n ==> h'.changes[m] == h.changes[m];
  }

  lemma FeeLeads(s: SystemState, c: Change, s': SystemState, fee: int)
    requires Leads(s, c, s') && c.detail.TroveChange?
    ensures Leads(s, WithFee(c, fee), s')
  {
  }

  lemma FeeExtends(h: History, h': History, n: int, fee: int)
    requires n == h.changeCount - 1 && n in h.changes && h.changes[n].detail.TroveChange?
    requires h' == h.(changes := h.changes[n := WithFee(h.changes[n], fee)])
    ensures Extends(h, h')
  {
  }

  lemma PostIsGapless(b: Books, p: Posting)
    requires Gapless(b.history) && CanPost(b, p)
    ensures Gapless(Post(b, p).history) && Extends(b.history, Post(b, p).history)
  {
    match p
    case FirstState => OpenedIsGapless(b.history);
    case Entry(tx, detail) => RecordedIsGapless(b.history, tx, detail);
    case FirstPrice(price) => PricedIsGapless(b.history, price);
    case Fee(fee) => FeePaidIsGapless(b.history, fee);
  }

  lemma ExtendsTransitive(h: History, h': History, h'': History)
    requires Extends(h, h') && Extends(h', h'')
    ensures Extends(h, h'')
  {
    var n := h.changeCount - 1;
    if n in h.changes {
      assert SameButFee(h.changes[n], h'.changes[n]);
    }
  }

  // ---------- Sums over the history ----------

  // Sum of a quantity over the first n changes, each with the state it started from.
  ghost function SumTo(h: History, f: (SystemState, Detail) -> int, n: nat): int {
    if n == 0 then 0
    else SumTo(h, f, n - 1)
         + (if n - 1 in h.states && n - 1 in h.changes then f(h.states[n - 1], h.changes[n - 1].detail) else 0)
  }

  ghost function Total(h: History, f: (SystemState, Detail) -> int): int {
    SumTo(h, f, Max(h.changeCount, 0))
  }

  // The quantity does not depend on the fee that a change may get later.
  ghost predicate FeeBlind(f: (SystemState, Detail) -> int) {
    forall s, d, fee :: f(s, TroveChange(d)) == f(s, TroveChange(d.(borrowingFee := fee)))
  }

  lemma {:induction false} SumToAgrees(h: History, h': History, f: (SystemState, Detail) -> int, n: nat)
    requires FeeBlind(f)
    requires forall i :: 0 <= i < n ==>
      && (i in h.states <==> i in h'.states) && (i in h.changes <==> i in h'.changes)
      && (i in h.states ==> h'.states[i] == h.states[i])
      && (i in h.changes ==> SameButFee(h.changes[i], h'.changes[i]))
    ensures SumTo(h', f, n) == SumTo(h, f, n)
  {
    if n == 0 {
    } else {
      SumToAgrees(h, h', f, n - 1);
      if n - 1 in h.changes {
        assert SameButFee(h.changes[n - 1], h'.changes[n - 1]);
      }
    }
  }

  lemma TotalAfterRecord(h: History, tx: TxId, detail: Detail, f: (SystemState, Detail) -> int)
    requires Gapless(h) && FeeBlind(f)
    ensures Total(Recorded(h, tx, detail), f) == Total(h, f) + f(CurrentOf(h), detail)
  {
    RecordedIsGapless(h, tx, detail);
    LastTotal(h, Recorded(h, tx, detail), h.changeCount, f);
  }

  // The total over one change more.
  lemma LastTotal(h: History, h': History, n: int, f: (SystemState, Detail) -> int)
    requires FeeBlind(f) && n == h.changeCount >= 0 && h'.changeCount == n + 1
    requires n in h'.states && n in h'.changes
    requires forall i :: 0 <= i < n ==> i in h.states && i in h.changes && i in h'.states && i in h'.changes
    requires forall i :: 0 <= i < n ==> h'.states[i] == h.states[i] && SameButFee(h.changes[i], h'.changes[i])
    ensures Total(h', f) == Total(h, f) + f(h'.states[n], h'.changes[n].detail)
  {
    SumToAgrees(h, h', f, n);
  }

  lemma TotalUnchanged(h: History, h': History, f: (SystemState, Detail) -> int)
    requires Gapless(h) && Gapless(h') && Extends(h, h') && h'.changeCount == h.changeCount && FeeBlind(f)
    ensures Total(h', f) == Total(h, f)
  {
    SumToAgrees(h, h', f, h.changeCount);
  }

  // ---------- What changes do to the system state ----------

  // A normal-mode liquidation draws on the stability pool, and so does one in recovery mode
  // of a trove above 100%.
  predicate DrawsOnPool(d: TroveDelta) {
    match d.operation
    case LiquidateInNormalMode => true
    case LiquidateInRecoveryMode => d.ratioBefore.Some? && d.ratioBefore.value > 1_000_000_000_000_000_000
    case _ => false
  }

  // The debt that the pool takes over: as much as both allow, and nothing from an empty
  // pool.
  function PoolDebt(s: SystemState, d: TroveDelta): int {
    var pool := s.tokensInStabilityPool;
    if DrawsOnPool(d) && (d.debtBefore <= pool || pool > 0) then Min(pool, d.debtBefore) else 0
  }

  // The 200th part of the collateral, for the liquidator.
  function Compensation(d: TroveDelta): int {
    TruncDiv(d.collateralBefore, 200)
  }

  // What the pool gets for it: the rest of the collateral, or its share by debt.
  function PoolCollateral(s: SystemState, d: TroveDelta): int {
    var pool, rest := s.tokensInStabilityPool, d.collateralBefore - Compensation(d);
    if !DrawsOnPool(d) then 0
    else if pool >= d.debtBefore then rest
    else if pool > 0 then TruncDiv(rest * pool, d.debtBefore)
    else 0
  }

  // A liquidation moves the totals by the compensation and what the pool takes; a change by
  // its owner or by a redemption moves them by itself; an accrual does not move them.
  function TotalsAfter(s: SystemState, d: TroveDelta): (int, int) {
    match d.operation
    case OpenTrove => (s.totalCollateral + d.CollateralChange(), s.totalDebt + d.DebtChange())
    case CloseTrove => (s.totalCollateral + d.CollateralChange(), s.totalDebt + d.DebtChange())
    case AdjustTrove => (s.totalCollateral + d.CollateralChange(), s.totalDebt + d.DebtChange())
    case RedeemCollateral => (s.totalCollateral + d.CollateralChange(), s.totalDebt + d.DebtChange())
    case AccrueRewards => (s.totalCollateral, s.totalDebt)
    case LiquidateInNormalMode =>
      (s.totalCollateral - Compensation(d) - PoolCollateral(s, d), s.totalDebt - PoolDebt(s, d))
    case LiquidateInRecoveryMode =>
      (s.totalCollateral - Compensation(d) - PoolCollateral(s, d), s.totalDebt - PoolDebt(s, d))
  }

  // The whole state after a change of each kind.
  ghost predicate Moved(s: SystemState, detail: Detail, s': SystemState) {
    match detail
    case TroveChange(d) =>
      && (s'.totalCollateral, s'.totalDebt) == TotalsAfter(s, d)
      && s'.tokensInStabilityPool == s.tokensInStabilityPool - PoolDebt(s, d)
      && s'.totalCollateralRatio == (if s'.totalDebt == 0 then None else
           Some(TruncDiv(s'.totalCollateral * s.price.GetOr(0), s'.totalDebt)))
      && s'.price == s.price && s'.collSurplusPoolBalance == s.collSurplusPoolBalance
      && s'.totalProtocolTokensStaked == s.totalProtocolTokensStaked && s'.sequenceNumber == s.sequenceNumber
    case DepositChange(_, op, before, after, _) =>
      if op == WithdrawCollateralGain then s' == s
      else s' == s.(tokensInStabilityPool := s.tokensInStabilityPool + after - before)
    case PriceChange(change) => s' == s.(price := Some(s.price.GetOr(0) + change))
    case CollSurplusChange(_, before, after) =>
      s' == s.(collSurplusPoolBalance := s.collSurplusPoolBalance + after - before)
    case StakeChange(_, _, before, after, _, _) =>
      s' == s.(totalProtocolTokensStaked := s.totalProtocolTokensStaked + after - before)
  }

  lemma EffectIsMoved(s: SystemState, detail: Detail)
    ensures Moved(s, detail, Effect(s, detail))
  {
    if detail.TroveChange? {
      TroveChangeMoves(s, detail.delta);
    }
  }

  // The pool's part of any change is the one that the indexer subtracts.
  lemma PoolTakesItsPart(s: SystemState, d: TroveDelta)
    ensures OffsetDebt(s, d) == PoolDebt(s, d) && OffsetCollateral(s, d) == PoolCollateral(s, d)
    ensures GasCompensation(d.collateralBefore) == Compensation(d)
  {
  }

  lemma TroveChangeMoves(s: SystemState, d: TroveDelta)
    ensures Moved(s, TroveChange(d), AfterTroveChange(s, d))
  {
    PoolTakesItsPart(s, d);
  }

  // In figures: with nothing negative, a liquidation that draws on the pool takes the smaller
  // of pool and debt from both, and the 200th part of the collateral, rounded down, and with
  // it the rest or, when the pool is too small, the rest times pool by debt, rounded down.
  lemma LiquidationInFigures(s: SystemState, d: TroveDelta)
    requires d.operation.LiquidateInNormalMode? || d.operation.LiquidateInRecoveryMode?
    requires s.tokensInStabilityPool >= 0 && d.debtBefore >= 0 && d.collateralBefore >= 0
    ensures var s', pool, debt := AfterTroveChange(s, d), s.tokensInStabilityPool, d.debtBefore;
            var gas, rest := d.collateralBefore / 200, d.collateralBefore - d.collateralBefore / 200;
            var draws := d.operation.LiquidateInNormalMode?
                         || (d.ratioBefore.Some? && d.ratioBefore.value > 1_000_000_000_000_000_000);
            if !draws then
              && s'.tokensInStabilityPool == pool && s'.totalDebt == s.totalDebt
              && s'.totalCollateral == s.totalCollateral - gas
            else
              && s'.tokensInStabilityPool == pool - Min(pool, debt) && s'.totalDebt == s.totalDebt - Min(pool, debt)
              && s'.totalCollateral == s.totalCollateral - gas - if debt <= pool then rest else rest * pool / debt
  {
    var rest := d.collateralBefore - d.collateralBefore / 200;
    TroveChangeMoves(s, d);
    if s.tokensInStabilityPool < d.debtBefore {
      PoolShare(rest, s.tokensInStabilityPool, d.debtBefore);
    }
    assert Compensation(d) == d.collateralBefore / 200;
  }

  lemma PoolShare(rest: nat, pool: nat, debt: nat)
    requires pool < debt
    ensures TruncDiv(rest * pool, debt) == rest * pool / debt
  {
    ProductNotNegative(rest, pool);
  }

  // ---------- Conservation ----------

  predicate Liquidates(d: Detail) {
    d.TroveChange? && (d.delta.operation.LiquidateInNormalMode? || d.delta.operation.LiquidateInRecoveryMode?)
  }

  predicate Accrues(d: Detail) {
    d.TroveChange? && d.delta.operation.AccrueRewards?
  }

  // Debt of a liquidated trove that the stability pool did not take over.
  function RedistributedDebt(s: SystemState, d: Detail): int {
    if Liquidates(d) then d.delta.debtBefore - PoolDebt(s, d.delta) else 0
  }

  function AccruedDebtOf(s: SystemState, d: Detail): int {
    if Accrues(d) then d.delta.DebtChange() else 0
  }

  function LeftoverDebt(s: SystemState, d: Detail): int {
    if Liquidates(d) then d.delta.debtAfter else 0
  }

  // Collateral of a liquidated trove after the liquidator's compensation, less what
  // the stability pool received.
  function RedistributedCollateral(s: SystemState, d: Detail): int {
    if Liquidates(d)
    then d.delta.collateralBefore - Compensation(d.delta) - PoolCollateral(s, d.delta)
    else 0
  }

  function AccruedCollateralOf(s: SystemState, d: Detail): int {
    if Accrues(d) then d.delta.CollateralChange() else 0
  }

  function LeftoverCollateral(s: SystemState, d: Detail): int {
    if Liquidates(d) then d.delta.collateralAfter else 0
  }

  function OffsetByPool(s: SystemState, d: Detail): int {
    if Liquidates(d) then PoolDebt(s, d.delta) else 0
  }

  // Loss of a deposit that is realised when its gain is withdrawn.
  function RealisedLoss(s: SystemState, d: Detail): int {
    if d.DepositChange? && d.depositOperation.WithdrawCollateralGain? then d.before - d.after else 0
  }

  ghost predicate DebtConserved(b: Books) {
    var h := b.history;
    CurrentOf(h).totalDebt - b.debt == Total(h, RedistributedDebt) - Total(h, AccruedDebtOf) - Total(h, LeftoverDebt)
  }

  ghost predicate CollateralConserved(b: Books) {
    var h := b.history;
    CurrentOf(h).totalCollateral - b.collateral
      == Total(h, RedistributedCollateral) - Total(h, AccruedCollateralOf) - Total(h, LeftoverCollateral)
  }

  ghost predicate PoolsConserved(b: Books) {
    var h, s := b.history, CurrentOf(b.history);
    && b.deposits + Total(h, RealisedLoss) == s.tokensInStabilityPool + Total(h, OffsetByPool)
    && b.stakes == s.totalProtocolTokensStaked
    && b.surplus == s.collSurplusPoolBalance
  }

  ghost predicate Conserved(b: Books) {
    DebtConserved(b) && CollateralConserved(b) && PoolsConserved(b)
  }

  ghost predicate Sound(b: Books) {
    Gapless(b.history) && Conserved(b)
  }

  // The history moved on without recording a change.
  ghost predicate Unrecorded(h: History, h': History) {
    && Gapless(h) && Gapless(h') && Extends(h, h') && h'.changeCount == h.changeCount
    && CurrentOf(h') == CurrentOf(h).(price := CurrentOf(h').price)
  }

  lemma UnrecordedKeepsDebt(b: Books, h': History)
    requires DebtConserved(b) && Unrecorded(b.history, h')
    ensures DebtConserved(b.(history := h'))
  {
    TotalUnchanged(b.history, h', RedistributedDebt);
    TotalUnchanged(b.history, h', AccruedDebtOf);
    TotalUnchanged(b.history, h', LeftoverDebt);
  }

  lemma UnrecordedKeepsCollateral(b: Books, h': History)
    requires CollateralConserved(b) && Unrecorded(b.history, h')
    ensures CollateralConserved(b.(history := h'))
  {
    TotalUnchanged(b.history, h', RedistributedCollateral);
    TotalUnchanged(b.history, h', AccruedCollateralOf);
    TotalUnchanged(b.history, h', LeftoverCollateral);
  }

  lemma UnrecordedKeepsPools(b: Books, h': History)
    requires PoolsConserved(b) && Unrecorded(b.history, h')
    ensures PoolsConserved(b.(history := h'))
  {
    TotalUnchanged(b.history, h', RealisedLoss);
    TotalUnchanged(b.history, h', OffsetByPool);
  }

  lemma UnrecordedKeepsConserved(b: Books, h': History)
    requires Conserved(b) && Unrecorded(b.history, h')
    ensures Conserved(b.(history := h'))
  {
    UnrecordedKeepsDebt(b, h');
    UnrecordedKeepsCollateral(b, h');
    UnrecordedKeepsPools(b, h');
  }

  lemma EntryKeepsDebt(b: Books, tx: TxId, detail: Detail)
    requires Sound(b) && CanPost(b, Entry(tx, detail))
    ensures DebtConserved(Post(b, Entry(tx, detail)))
  {
    var h := b.history;
    RecordedIsGapless(h, tx, detail);
    EffectIsMoved(CurrentOf(h), detail);
    TotalAfterRecord(h, tx, detail, RedistributedDebt);
    TotalAfterRecord(h, tx, detail, AccruedDebtOf);
    TotalAfterRecord(h, tx, detail, LeftoverDebt);
  }

  lemma EntryKeepsCollateral(b: Books, tx: TxId, detail: Detail)
    requires Sound(b) && CanPost(b, Entry(tx, detail))
    ensures CollateralConserved(Post(b, Entry(tx, detail)))
  {
    var h := b.history;
    RecordedIsGapless(h, tx, detail);
    EffectIsMoved(CurrentOf(h), detail);
    TotalAfterRecord(h, tx, detail, RedistributedCollateral);
    TotalAfterRecord(h, tx, detail, AccruedCollateralOf);
    TotalAfterRecord(h, tx, detail, LeftoverCollateral);
  }

  lemma EntryKeepsPools(b: Books, tx: TxId, detail: Detail)
    requires Sound(b) && CanPost(b, Entry(tx, detail))
    ensures PoolsConserved(Post(b, Entry(tx, detail)))
  {
    var h := b.history;
    RecordedIsGapless(h, tx, detail);
    EffectIsMoved(CurrentOf(h), detail);
    TotalAfterRecord(h, tx, detail, RealisedLoss);
    TotalAfterRecord(h, tx, detail, OffsetByPool);
  }

  lemma PostKeepsSound(b: Books, p: Posting)
    requires Sound(b) && CanPost(b, p)
    ensures Sound(Post(b, p))
  {
    PostIsGapless(b, p);
    match p
    case FirstState =>
      OpenedIsGapless(b.history);
      UnrecordedKeepsConserved(b, Opened(b.history));
    case Entry(tx, detail) =>
      EntryKeepsDebt(b, tx, detail);
      EntryKeepsCollateral(b, tx, detail);
      EntryKeepsPools(b, tx, detail);
    case FirstPrice(price) =>
      PricedIsGapless(b.history, price);
      UnrecordedKeepsConserved(b, Priced(b.history, price));
    case Fee(fee) =>
      FeePaidIsGapless(b.history, fee);
      UnrecordedKeepsConserved(b, FeePaid(b.history, fee));
  }

  // When every liquidation empties its trove, nothing is left over.
  lemma {:induction false} NothingLeftOver(h: History, n: nat)
    requires forall i :: i in h.changes && Liquidates(h.changes[i].detail) ==>
               h.changes[i].detail.delta.debtAfter == 0 && h.changes[i].detail.delta.collateralAfter == 0
    ensures SumTo(h, LeftoverDebt, n) == 0 && SumTo(h, LeftoverCollateral, n) == 0
  {
    if n == 0 {
    } else {
      NothingLeftOver(h, n - 1);
    }
  }

  // ---------- Sequences of postings ----------

  predicate CanPostAll(b: Books, ps: seq<Posting>)
    decreases ps
  {
    ps == [] || (CanPost(b, ps[0]) && CanPostAll(Post(b, ps[0]), ps[1..]))
  }

  function PostAll(b: Books, ps: seq<Posting>): Books
    requires CanPostAll(b, ps)
    decreases ps
  {
    if ps == [] then b else PostAll(Post(b, ps[0]), ps[1..])
  }

  lemma ExtendsReflexive(h: History)
    ensures Extends(h, h)
  {
  }

  lemma {:induction false} PostAllKeepsSound(b: Books, ps: seq<Posting>)
    requires Sound(b) && CanPostAll(b, ps)
    ensures Sound(PostAll(b, ps)) && Extends(b.history, PostAll(b, ps).history)
    decreases ps
  {
    if ps == [] {
      ExtendsReflexive(b.history);
    } else {
      PostKeepsSound(b, ps[0]);
      PostIsGapless(b, ps[0]);
      PostAllKeepsSound(Post(b, ps[0]), ps[1..]);
      ExtendsTransitive(b.history, Post(b, ps[0]).history, PostAll(b, ps).history);
    }
  }
}
