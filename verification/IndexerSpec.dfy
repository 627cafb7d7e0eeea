// What each event does to the store, in one step: the whole new contents from
// the old ones, with no loads and saves in between.
module IndexerSpec {
  import opened Wrappers
  import opened Decimals
  import opened Entities
  import opened Redistribution

  function WithCounts(db: Db, c: Counts): Db {
    db.(global := db.global.(count := c))
  }

  // ---------- Records created on first use ----------

  function EnsureUser(db: Db, a: Address): Db {
    if a in db.users then db else db.(users := db.users[a := NEW_USER])
  }

  function EnsureTransaction(db: Db, tx: TxId): Db {
    if tx in db.transactions then db else
      var n := db.global.count.transactions;
      WithCounts(db.(transactions := db.transactions[tx := Transaction(n)]), db.global.count.(transactions := n + 1))
  }

  predicate HasSystemState(db: Db) {
    var id := db.global.currentSystemState;
    id.Some? && id.value in db.systemStates
  }

  // The state the system is in; before the first one is stored, everything is zero.
  function Current(db: Db): SystemState {
    if HasSystemState(db) then db.systemStates[db.global.currentSystemState.value]
    else NewSystemState(db.global.count.systemStates)
  }

  // Store a system state under the next number and make it current.
  function AddSystemState(db: Db, s: SystemState): (r: Db)
    ensures HasSystemState(r)
  {
    var id := db.global.count.systemStates;
    db.(systemStates := db.systemStates[id := s.(sequenceNumber := id)],
        global := db.global.(count := db.global.count.(systemStates := id + 1), currentSystemState := Some(id)))
  }

  function EnsureSystemState(db: Db): (r: Db)
    ensures HasSystemState(r)
  {
    if HasSystemState(db) then db else AddSystemState(db, Current(db))
  }

  predicate HasLiquidation(db: Db) {
    var id := db.global.currentLiquidation;
    id.Some? && id.value in db.liquidations
  }

  function CountLiquidation(db: Db): Db {
    WithCounts(db, db.global.count.(liquidations := db.global.count.liquidations + 1))
  }

  function StoreLiquidation(db: Db, l: Liquidation): Db {
    db.(liquidations := db.liquidations[l.sequenceNumber := l],
        global := db.global.(currentLiquidation := Some(l.sequenceNumber)))
  }

  function AddLiquidation(db: Db, tx: TxId, sender: Address): Db {
    StoreLiquidation(CountLiquidation(db), Liquidation(db.global.count.liquidations, tx, sender, 0, 0, 0, 0))
  }

  function EnsureLiquidation(db: Db, tx: TxId, sender: Address): (r: Db)
    ensures HasLiquidation(r)
  {
    if HasLiquidation(db) then db
    else AddLiquidation(EnsureUser(EnsureTransaction(db, tx), sender), tx, sender)
  }

  predicate HasRedemption(db: Db) {
    var id := db.global.currentRedemption;
    id.Some? && id.value in db.redemptions
  }

  function CountRedemption(db: Db): Db {
    WithCounts(db, db.global.count.(redemptions := db.global.count.redemptions + 1))
  }

  function StoreRedemption(db: Db, r: Redemption): Db {
    db.(redemptions := db.redemptions[r.sequenceNumber := r],
        global := db.global.(currentRedemption := Some(r.sequenceNumber)))
  }

  function AddRedemption(db: Db, tx: TxId, sender: Address): Db {
    StoreRedemption(CountRedemption(db), Redemption(db.global.count.redemptions, tx, sender, 0, 0, 0, false, 0))
  }

  function EnsureRedemption(db: Db, tx: TxId, sender: Address): (r: Db)
    ensures HasRedemption(r)
  {
    if HasRedemption(db) then db
    else AddRedemption(EnsureUser(EnsureTransaction(db, tx), sender), tx, sender)
  }

  // ---------- What a change does to the system state ----------

  function RatioOf(collateral: int, debt: int, price: int): Option<int> {
    if debt == 0 then None else Some(TruncDiv(collateral * price, debt))
  }

  function GasCompensation(collateral: int): int {
    TruncDiv(collateral, 200)
  }

  // A recovery-mode liquidation below 100% is redistributed without the pool.
  predicate GoesToPool(d: TroveDelta) {
    d.operation.IsLiquidation() &&
    (d.operation.LiquidateInRecoveryMode? ==> d.ratioBefore.Some? && d.ratioBefore.value > DIGITS)
  }

  // Debt that the stability pool takes over, and the collateral it gets for it.
  function OffsetDebt(s: SystemState, d: TroveDelta): int {
    if !GoesToPool(d) then 0
    else if d.debtBefore <= s.tokensInStabilityPool then d.debtBefore
    else if s.tokensInStabilityPool > 0 then s.tokensInStabilityPool
    else 0
  }

  function OffsetCollateral(s: SystemState, d: TroveDelta): int {
    var collateral := d.collateralBefore - GasCompensation(d.collateralBefore);
    if !GoesToPool(d) then 0
    else if d.debtBefore <= s.tokensInStabilityPool then collateral
    else if s.tokensInStabilityPool > 0 then TruncDiv(collateral * s.tokensInStabilityPool, d.debtBefore)
    else 0
  }

  function AfterTroveChange(s: SystemState, d: TroveDelta): SystemState {
    var s' :=
      if d.operation.IsBorrowerOperation() || d.operation.IsRedemption() then
        s.(totalCollateral := s.totalCollateral + d.CollateralChange(), totalDebt := s.totalDebt + d.DebtChange())
      else if d.operation.IsLiquidation() then
        s.(totalCollateral := s.totalCollateral - GasCompensation(d.collateralBefore) - OffsetCollateral(s, d),
           totalDebt := s.totalDebt - OffsetDebt(s, d),
           tokensInStabilityPool := s.tokensInStabilityPool - OffsetDebt(s, d))
      else s;
    s'.(totalCollateralRatio := RatioOf(s'.totalCollateral, s'.totalDebt, s.price.GetOr(0)))
  }

  function Effect(s: SystemState, d: Detail): SystemState {
    match d
    case TroveChange(delta) => AfterTroveChange(s, delta)
    case DepositChange(_, op, before, after, _) =>
      if op.WithdrawCollateralGain? then s else s.(tokensInStabilityPool := s.tokensInStabilityPool + (after - before))
    case PriceChange(change) => s.(price := Some(s.price.GetOr(0) + change))
    case CollSurplusChange(_, before, after) =>
      s.(collSurplusPoolBalance := s.collSurplusPoolBalance + (after - before))
    case StakeChange(_, _, before, after, _, _) =>
      s.(totalProtocolTokensStaked := s.totalProtocolTokensStaked + (after - before))
  }

  // Take the next change number.
  function CountChange(db: Db): Db {
    WithCounts(db, db.global.count.(changes := db.global.count.changes + 1))
  }

  // Everything a change needs before it can start.
  function Prepare(db: Db, tx: TxId): (r: Db)
    ensures HasSystemState(r)
  {
    EnsureSystemState(EnsureTransaction(db, tx))
  }

  function AddChange(db: Db, c: Change): Db {
    db.(changes := db.changes[c.sequenceNumber := c])
  }

  // Record a change: the next change number, the next system state, and the link
  // between the two states.
  function Commit(db: Db, tx: TxId, detail: Detail): Db {
    var db1 := Prepare(db, tx);
    var change := Change(db1.global.count.changes, tx, db1.global.currentSystemState.value,
                         db1.global.count.systemStates, detail);
    AddChange(AddSystemState(CountChange(db1), Effect(Current(db), detail)), change)
  }

  // ---------- Troves ----------

  function TroveOf(db: Db, a: Address): Trove {
    if a in db.troves then db.troves[a] else NEW_TROVE
  }

  // Looking up an unknown trove counts it, before it is stored.
  function LookUpTrove(db: Db, a: Address): Db {
    if a in db.troves then db else
      var db1 := EnsureUser(db, a);
      WithTroveCounts(db1, db1.global.troves.(open := db1.global.troves.open + 1, total := db1.global.troves.total + 1))
  }

  function StatusAfter(op: TroveOperation, collateral: int): TroveStatus {
    if collateral != 0 then Open
    else if op.IsLiquidation() then ClosedByLiquidation
    else if op.IsRedemption() then ClosedByRedemption
    else ClosedByOwner
  }

  function WithTroveCounts(db: Db, c: TroveCounts): Db {
    db.(global := db.global.(troves := c))
  }

  function CountStatus(c: TroveCounts, status: TroveStatus, delta: int): TroveCounts {
    match status
    case Open => c.(open := c.open + delta)
    case ClosedByOwner => c.(closedByOwner := c.closedByOwner + delta)
    case ClosedByLiquidation => c.(liquidated := c.liquidated + delta)
    case ClosedByRedemption => c.(redeemed := c.redeemed + delta)
  }

  // Moving between two closed statuses takes the trove from the open counter.
  function CountTransition(c: TroveCounts, before: TroveStatus, after: TroveStatus): TroveCounts {
    if before == after then c
    else if after.Open? then CountStatus(CountStatus(c, before, -1), Open, 1)
    else CountStatus(CountStatus(c, after, 1), Open, -1)
  }

  predicate IsTroveChange(db: Db, a: Address, collateral: int, debt: int) {
    var t := TroveOf(db, a);
    collateral != t.collateral || debt != t.debt
  }

  function DeltaOf(db: Db, op: TroveOperation, a: Address, collateral: int, debt: int): TroveDelta {
    var t, price := TroveOf(db, a), Current(db).price.GetOr(0);
    TroveDelta(a, op, t.collateral, collateral, t.debt, debt,
               RatioOf(t.collateral, t.debt, price), RatioOf(collateral, debt, price),
               if op.IsLiquidation() then db.global.currentLiquidation else None,
               if op.IsRedemption() then db.global.currentRedemption else None,
               None)
  }

  // Open the liquidation or redemption that the operation belongs to.
  function OpenGroup(db: Db, tx: TxId, sender: Address, op: TroveOperation): Db {
    if op.IsLiquidation() then EnsureLiquidation(db, tx, sender)
    else if op.IsRedemption() then EnsureRedemption(db, tx, sender)
    else db
  }

  function StoredTrove(total: PerStake, op: TroveOperation, collateral: int, debt: int, stake: nat): Trove {
    var status := StatusAfter(op, collateral);
    if stake != 0
    then Trove(status, collateral, debt, stake, total, Some(SortKey(debt, stake, total.debt)))
    else Trove(status, collateral, debt, stake, PerStake(0, 0), None)
  }

  function StoreTrove(db: Db, op: TroveOperation, a: Address, collateral: int, debt: int, stake: nat): Db {
    var t := StoredTrove(db.global.redistributed, op, collateral, debt, stake);
    WithTroveCounts(db.(troves := db.troves[a := t]),
                    CountTransition(db.global.troves, TroveOf(db, a).status, t.status))
  }

  function UpdateTrove(db: Db, tx: TxId, sender: Address, op: TroveOperation, a: Address,
                       collateral: int, debt: int, stake: nat): Db
  {
    var db1 := LookUpTrove(db, a);
    if !IsTroveChange(db, a, collateral, debt) then db1 else
      var db2 := OpenGroup(db1, tx, sender, op);
      StoreTrove(Commit(db2, tx, TroveChange(DeltaOf(db2, op, a, collateral, debt))), op, a, collateral, debt, stake)
  }

  function AccruedCollateral(db: Db, a: Address): int {
    TroveOf(db, a).collateral
    + Gain(TroveOf(db, a).stake, TroveOf(db, a).snapshot.collateral, db.global.redistributed.collateral)
  }

  function AccruedDebt(db: Db, a: Address): int {
    TroveOf(db, a).debt
    + Gain(TroveOf(db, a).stake, TroveOf(db, a).snapshot.debt, db.global.redistributed.debt)
  }

  // A trove is credited its share just before it is liquidated.
  function AccrueTrove(db: Db, tx: TxId, sender: Address, a: Address): Db {
    UpdateTrove(db, tx, sender, AccrueRewards, a, AccruedCollateral(db, a), AccruedDebt(db, a), 0)
  }

  function FinishLiquidation(db: Db, tx: TxId, sender: Address, e: Body): Db
    requires e.LiquidationFinished?
  {
    var db1 := EnsureLiquidation(db, tx, sender);
    var id := db1.global.currentLiquidation.value;
    db1.(liquidations := db1.liquidations[id :=
           db1.liquidations[id].(collateral := e.liquidatedCollateral, debt := e.liquidatedDebt,
                                 collateralGasCompensation := e.collateralGas, tokenGasCompensation := e.debtGas)],
         global := db1.global.(currentLiquidation := None))
  }

  function FinishRedemption(db: Db, tx: TxId, sender: Address, e: Body): Db
    requires e.RedemptionFinished?
  {
    var db1 := EnsureRedemption(db, tx, sender);
    var id := db1.global.currentRedemption.value;
    db1.(redemptions := db1.redemptions[id :=
           db1.redemptions[id].(attempted := e.attempted, actual := e.actual, collateral := e.sent,
                                partial := e.actual < e.attempted, fee := e.fee)],
         global := db1.global.(currentRedemption := None,
                               feesPaid := db1.global.feesPaid.(redemption := db1.global.feesPaid.redemption + e.fee)))
  }

  // ---------- Prices, deposits, surpluses, stakes ----------

  // The first price is filled into the current state.
  function FillPrice(db: Db, price: int): Db {
    var db1 := EnsureSystemState(db);
    db1.(systemStates := db1.systemStates[db1.global.currentSystemState.value := Current(db).(price := Some(price))])
  }

  function UpdatePrice(db: Db, tx: TxId, price: int): Db {
    var old' := Current(db).price;
    if old'.None? then FillPrice(db, price)
    else if price == old'.value then EnsureSystemState(db)
    else Commit(EnsureSystemState(db), tx, PriceChange(price - old'.value))
  }

  function DepositOf(db: Db, a: Address): int {
    if a in db.deposits then db.deposits[a] else 0
  }

  function LookUpDeposit(db: Db, a: Address): Db {
    if a in db.deposits then db else EnsureUser(db, a)
  }

  function SetDeposit(db: Db, tx: TxId, a: Address, op: DepositOperation, amount: int, gain: Option<int>): Db {
    var db1 := Commit(db, tx, DepositChange(a, op, DepositOf(db, a), amount, gain));
    db1.(deposits := db1.deposits[a := amount])
  }

  // An update looks up the owner a second time.
  function LookUpDepositAndOwner(db: Db, a: Address): Db {
    EnsureUser(LookUpDeposit(db, a), a)
  }

  function ChangeDeposit(db: Db, tx: TxId, a: Address, amount: int): Db {
    var before := DepositOf(db, a);
    if amount == before then db
    else SetDeposit(db, tx, a, if amount > before then DepositTokens else WithdrawTokens, amount, None)
  }

  function UpdateDeposit(db: Db, tx: TxId, a: Address, amount: int): Db {
    ChangeDeposit(LookUpDepositAndOwner(db, a), tx, a, amount)
  }

  function SetDepositAfterGain(db: Db, tx: TxId, a: Address, amount: int, collateral: int): Db {
    SetDeposit(LookUpDeposit(db, a), tx, a, WithdrawCollateralGain, amount, Some(collateral))
  }

  function WithdrawGain(db: Db, tx: TxId, a: Address, collateral: int, loss: int): Db {
    if collateral == 0 && loss == 0 then db
    else SetDepositAfterGain(db, tx, a, DepositOf(db, a) - loss, collateral)
  }

  // Set the pending deposit update if there is none, and clear it otherwise.
  function SwapPending(db: Db, value: int): Db {
    var pending := db.global.tmpDepositUpdate;
    db.(global := db.global.(tmpDepositUpdate := if pending.None? then Some(value) else None))
  }

  function ChangeUserDeposit(db: Db, tx: TxId, a: Address, amount: int): Db {
    var db1 := SwapPending(db, amount);
    if db.global.tmpDepositUpdate.Some? then UpdateDeposit(db1, tx, a, amount) else db1
  }

  function WithdrawUserGain(db: Db, tx: TxId, a: Address, collateral: int, loss: int): Db {
    var pending := db.global.tmpDepositUpdate;
    var db1 := WithdrawGain(SwapPending(db, 0), tx, a, collateral, loss);
    if pending.Some? then UpdateDeposit(db1, tx, a, pending.value) else db1
  }

  function UserOf(db: Db, a: Address): User {
    if a in db.users then db.users[a] else NEW_USER
  }

  function SetCollSurplus(db: Db, tx: TxId, a: Address, balance: int): Db {
    var db1 := Commit(db, tx, CollSurplusChange(a, UserOf(db, a).collSurplus, balance));
    db1.(users := db1.users[a := UserOf(db, a).(collSurplus := balance)])
  }

  function UpdateCollSurplus(db: Db, tx: TxId, a: Address, balance: int): Db {
    if balance == UserOf(db, a).collSurplus then EnsureUser(db, a)
    else SetCollSurplus(EnsureUser(db, a), tx, a, balance)
  }

  predicate HasStake(db: Db, a: Address) {
    var s := UserOf(db, a).stake;
    s.Some? && s.value in db.stakes
  }

  // A user's stake is stored under the id that the user points at.
  function StakeId(db: Db, a: Address): Address {
    if HasStake(db, a) then UserOf(db, a).stake.value else a
  }

  function StakeOf(db: Db, a: Address): int {
    if HasStake(db, a) then db.stakes[UserOf(db, a).stake.value] else 0
  }

  function LookUpStake(db: Db, a: Address): Db {
    var db1 := EnsureUser(db, a);
    if HasStake(db, a) then db1 else db1.(users := db1.users[a := db1.users[a].(stake := Some(a))])
  }

  function StakeOperationOf(before: int, after: int): StakeOperation {
    if before == 0 && after > 0 then StakeCreated
    else if after > before then StakeIncreased
    else if after == 0 then StakeRemoved
    else StakeDecreased
  }

  function CountStake(c: StakeCounts, op: StakeOperation, first: bool): StakeCounts {
    if op.StakeCreated? then c.(total := c.total + (if first then 1 else 0), active := c.active + 1)
    else if op.StakeRemoved? then c.(active := c.active - 1)
    else c
  }

  function WithStakeCounts(db: Db, c: StakeCounts): Db {
    db.(global := db.global.(stakes := c))
  }

  function SetStake(db: Db, tx: TxId, a: Address, op: StakeOperation, amount: int, issuance: int, redemption: int): Db {
    var id := StakeId(db, a);
    var db1 := Commit(LookUpStake(db, a), tx, StakeChange(id, op, StakeOf(db, a), amount, issuance, redemption));
    db1.(stakes := db1.stakes[id := amount])
  }

  function UpdateStake(db: Db, tx: TxId, a: Address, amount: int): Db {
    var op := StakeOperationOf(StakeOf(db, a), amount);
    WithStakeCounts(SetStake(db, tx, a, op, amount, 0, 0), CountStake(db.global.stakes, op, !HasStake(db, a)))
  }

  function WithdrawStakeGains(db: Db, tx: TxId, a: Address, issuance: int, redemption: int): Db {
    if issuance == 0 && redemption == 0 then db
    else SetStake(db, tx, a, GainsWithdrawn, StakeOf(db, a), issuance, redemption)
  }

  predicate LastIsTroveChange(db: Db) {
    var n := db.global.count.changes - 1;
    n in db.changes && db.changes[n].detail.TroveChange?
  }

  function PayBorrowingFee(db: Db, fee: int): Db
    requires LastIsTroveChange(db)
  {
    var n := db.global.count.changes - 1;
    var c := db.changes[n];
    db.(changes := db.changes[n := c.(detail := TroveChange(c.detail.delta.(borrowingFee := Some(fee))))],
        global := db.global.(feesPaid := db.global.feesPaid.(borrowing := db.global.feesPaid.borrowing + fee)))
  }

  function UpdateTotalRedistributed(db: Db, collateral: int, debt: int): Db {
    db.(global := db.global.(redistributed := PerStake(collateral, debt)))
  }

  // ---------- Events ----------

  // What a handler needs of the store; without it, it would dereference null.
  predicate TroveChangeEnabled(db: Db, op: TroveOperation, a: Address, collateral: int, debt: int) {
    IsTroveChange(db, a, collateral, debt) ==>
      Current(db).price.Some? && (op.LiquidateInRecoveryMode? ==> TroveOf(db, a).debt != 0)
  }

  predicate Enabled(db: Db, e: Event) {
    match e.body
    case TroveUpdated(op, a, collateral, debt, _) => TroveChangeEnabled(db, op, a, collateral, debt)
    case TroveLiquidated(a) =>
      a in db.troves && TroveChangeEnabled(db, AccrueRewards, a, AccruedCollateral(db, a), AccruedDebt(db, a))
    case BorrowingFeePaid(_) => LastIsTroveChange(db)
    case _ => true
  }

  function HandleTroveEvent(db: Db, tx: TxId, sender: Address, e: Body): Db
    requires Enabled(db, Event(tx, sender, e)) && e.IsTroveEvent()
  {
    match e
    case TroveUpdated(op, a, collateral, debt, stake) => UpdateTrove(db, tx, sender, op, a, collateral, debt, stake)
    case TroveLiquidated(a) => AccrueTrove(db, tx, sender, a)
    case LiquidationFinished(_, _, _, _) => FinishLiquidation(db, tx, sender, e)
    case RedemptionFinished(_, _, _, _) => FinishRedemption(db, tx, sender, e)
    case LTermsUpdated(c, d) => UpdateTotalRedistributed(db, c, d)
    case BorrowingFeePaid(fee) => PayBorrowingFee(db, fee)
  }

  function HandlePoolEvent(db: Db, tx: TxId, e: Body): Db
    requires e.IsPoolEvent()
  {
    match e
    case UserDepositChanged(a, amount) => ChangeUserDeposit(db, tx, a, amount)
    case GainWithdrawn(a, collateral, loss) => WithdrawUserGain(db, tx, a, collateral, loss)
  }

  function HandleStakeEvent(db: Db, tx: TxId, e: Body): Db
    requires e.IsStakeEvent()
  {
    match e
    case StakeChanged(a, amount) => UpdateStake(db, tx, a, amount)
    case StakeGainsWithdrawn(a, issuance, redemption) => WithdrawStakeGains(db, tx, a, issuance, redemption)
  }

  function Handle(db: Db, e: Event): Db
    requires Enabled(db, e)
  {
    if e.body.IsTroveEvent() then HandleTroveEvent(db, e.tx, e.sender, e.body)
    else if e.body.IsPoolEvent() then HandlePoolEvent(db, e.tx, e.body)
    else if e.body.IsStakeEvent() then HandleStakeEvent(db, e.tx, e.body)
    else if e.body.PriceUpdated? then UpdatePrice(db, e.tx, e.body.price)
    else UpdateCollSurplus(db, e.tx, e.body.account, e.body.balance)
  }

  function Run(db: Db, events: seq<Event>): Db
    requires RunEnabled(db, events)
    decreases events
  {
    if events == [] then db else Run(Handle(db, events[0]), events[1..])
  }

  predicate RunEnabled(db: Db, events: seq<Event>)
    decreases events
  {
    events == [] || (Enabled(db, events[0]) && RunEnabled(Handle(db, events[0]), events[1..]))
  }
}
