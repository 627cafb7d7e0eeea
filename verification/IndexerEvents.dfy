// What every event leaves in the store: the record of the change, the state of the system,
// the entity that the event is about, and nothing else.
module IndexerEvents {
  import opened Wrappers
  import opened Arithmetic
  import opened Decimals
  import opened Entities
  import opened IndexerSpec
  import opened IndexerSteps
  import opened IndexerTroves
  import opened Redistribution
  import opened MapSums
  import opened Books

  // ---------- Records ----------

  // One more change is recorded, with its transaction, and the system has moved by it.
  ghost predicate Recorded(db: Db, db': Db, tx: TxId, detail: Detail) {
    var n := db.global.count.changes;
    && db'.global.count.changes == n + 1
    && db'.changes.Keys == db.changes.Keys + {n}
    && (forall m :: m in db.changes && m != n ==> db'.changes[m] == db.changes[m])
    && db'.changes[n].sequenceNumber == n && db'.changes[n].transaction == tx && db'.changes[n].detail == detail
    && tx in db'.transactions
    && Moved(Current(db), detail, Current(db').(sequenceNumber := Current(db).sequenceNumber))
  }

  // No change is recorded, and the system has not moved.
  ghost predicate Unmoved(db: Db, db': Db) {
    && db'.changes == db.changes && db'.global.count.changes == db.global.count.changes
    && Current(db') == Current(db)
  }

  ghost predicate RecordedOrNot(db: Db, db': Db, tx: TxId, detail: Detail, changed: bool) {
    if changed then Recorded(db, db', tx, detail) else Unmoved(db, db')
  }

  // What a handler leaves alone besides its own entity.
  ghost predicate SameGlobal(g: Global, g': Global) {
    && g'.troves == g.troves && g'.redistributed == g.redistributed && g'.feesPaid == g.feesPaid
    && g'.currentLiquidation == g.currentLiquidation && g'.currentRedemption == g.currentRedemption
    && g'.count.liquidations == g.count.liquidations && g'.count.redemptions == g.count.redemptions
  }

  ghost predicate SamePending(g: Global, g': Global) {
    g'.stakes == g.stakes && g'.tmpDepositUpdate == g.tmpDepositUpdate
  }

  ghost predicate SameRecords(db: Db, db': Db) {
    db'.liquidations == db.liquidations && db'.redemptions == db.redemptions
  }

  lemma RecordIsMade(db: Db, tx: TxId, detail: Detail)
    ensures Recorded(db, Commit(db, tx, detail), tx, detail)
  {
    var n, db1 := db.global.count.changes, Commit(db, tx, detail);
    TransactionKeeps(db, tx);
    TransactionKeepsState(db, tx);
    StateKeeps(EnsureTransaction(db, tx));
    EffectIsMoved(Current(db), detail);
    assert Current(db1).(sequenceNumber := Current(db).sequenceNumber) == Effect(Current(db), detail) by {
      EffectKeepsNumber(Current(db), detail);
    }
  }

  lemma EffectKeepsNumber(s: SystemState, detail: Detail)
    ensures Effect(s, detail).sequenceNumber == s.sequenceNumber
  {
    EffectIsMoved(s, detail);
  }

  // Whatever was recorded from the one store, was recorded from another one in the same state.
  lemma RecordedFrom(db: Db, db1: Db, db': Db, tx: TxId, detail: Detail)
    requires Unmoved(db, db1) && Recorded(db1, db', tx, detail)
    ensures Recorded(db, db', tx, detail)
  {
  }

  // ---------- Prices ----------

  // The current price is the new one. The first one is filled in, and a different one is a
  // change by the difference.
  ghost predicate PriceTaken(db: Db, db': Db, tx: TxId, price: int) {
    var old' := Current(db).price;
    && Current(db').price == Some(price)
    && (old'.None? ==> db'.changes == db.changes && Current(db') == Current(db).(price := Some(price)))
    && (old'.Some? ==> RecordedOrNot(db, db', tx, PriceChange(price - old'.value), price != old'.value))
    && db'.troves == db.troves && db'.deposits == db.deposits && db'.stakes == db.stakes
    && SameRecords(db, db') && SameGlobal(db.global, db'.global) && SamePending(db.global, db'.global)
  }

  lemma PriceEvent(db: Db, tx: TxId, price: int)
    ensures PriceTaken(db, UpdatePrice(db, tx, price), tx, price)
  {
    var old', db1 := Current(db).price, EnsureSystemState(db);
    StateKeeps(db);
    if old'.None? {
      FirstPriceIsFilled(db, db1, price);
    } else if price != old'.value {
      PriceIsChanged(db, db1, tx, price - old'.value);
    }
  }

  lemma FirstPriceIsFilled(db: Db, db1: Db, price: int)
    requires Current(db).price.None? && db1 == EnsureSystemState(db) && HasSystemState(db1)
    requires Current(db1) == Current(db)
    ensures PriceTaken(db, FillPrice(db, price), 0, price)
  {
    StateKeeps(db);
  }

  lemma PriceIsChanged(db: Db, db1: Db, tx: TxId, change: int)
    requires Current(db).price.Some? && change != 0 && db1 == EnsureSystemState(db)
    ensures PriceTaken(db, Commit(db1, tx, PriceChange(change)), tx, Current(db).price.value + change)
  {
    StateKeeps(db);
    RecordIsMade(db1, tx, PriceChange(change));
    CommitKeeps(db1, tx, PriceChange(change));
    CommitKeepsCounts(db1, tx, PriceChange(change));
    RecordedFrom(db, db1, Commit(db1, tx, PriceChange(change)), tx, PriceChange(change));
  }

  // ---------- Deposits ----------

  // A deposit is set, recorded as a change of the given kind; or nothing happens to it. No
  // other entity and no counter but that of changes moves.
  ghost predicate DepositWritten(db: Db, db': Db, tx: TxId, a: Address, op: DepositOperation, amount: int,
                                 gain: Option<int>, changed: bool) {
    && RecordedOrNot(db, db', tx, DepositChange(a, op, At(db.deposits, a), amount, gain), changed)
    && db'.deposits == (if changed then db.deposits[a := amount] else db.deposits)
    && SameGlobal(db.global, db'.global) && db'.global.tmpDepositUpdate == db.global.tmpDepositUpdate
    && db'.global.stakes == db.global.stakes
    && db'.troves == db.troves && db'.stakes == db.stakes && SameRecords(db, db')
  }

  // Only a user has been looked up.
  ghost predicate LookedUp(db: Db, db1: Db) {
    && Unmoved(db, db1) && db1.global == db.global && db1.deposits == db.deposits && db1.troves == db.troves
    && db1.stakes == db.stakes && SameRecords(db, db1)
  }

  lemma WrittenFrom(db: Db, db1: Db, db': Db, tx: TxId, a: Address, op: DepositOperation, amount: int,
                    gain: Option<int>, changed: bool)
    requires LookedUp(db, db1) && DepositWritten(db1, db', tx, a, op, amount, gain, changed)
    ensures DepositWritten(db, db', tx, a, op, amount, gain, changed)
  {
  }

  lemma UserIsLookedUp(db: Db, a: Address)
    ensures LookedUp(db, EnsureUser(db, a))
  {
  }

  lemma DepositIsLookedUp(db: Db, a: Address)
    ensures LookedUp(db, LookUpDeposit(db, a)) && LookedUp(db, LookUpDepositAndOwner(db, a))
  {
    UserIsLookedUp(db, a);
    UserIsLookedUp(LookUpDeposit(db, a), a);
  }

  lemma DepositIsSet(db: Db, tx: TxId, a: Address, op: DepositOperation, amount: int, gain: Option<int>)
    ensures DepositWritten(db, SetDeposit(db, tx, a, op, amount, gain), tx, a, op, amount, gain, true)
  {
    var detail := DepositChange(a, op, DepositOf(db, a), amount, gain);
    RecordIsMade(db, tx, detail);
    CommitKeeps(db, tx, detail);
    CommitKeepsCounts(db, tx, detail);
  }

  lemma CommitKeepsCounts(db: Db, tx: TxId, detail: Detail)
    ensures var c, c' := db.global.count, Commit(db, tx, detail).global.count;
            c'.liquidations == c.liquidations && c'.redemptions == c.redemptions
  {
    TransactionKeeps(db, tx);
    StateKeeps(EnsureTransaction(db, tx));
  }

  // The deposit is the new amount, and a different one is a deposit or a withdrawal.
  lemma DepositUpdate(db: Db, tx: TxId, a: Address, amount: int)
    ensures var before := At(db.deposits, a);
            DepositWritten(db, UpdateDeposit(db, tx, a, amount), tx, a,
                           if amount > before then DepositTokens else WithdrawTokens, amount, None, amount != before)
  {
    var db1, before := LookUpDepositAndOwner(db, a), At(db.deposits, a);
    DepositIsLookedUp(db, a);
    DepositIsChanged(db1, tx, a, amount);
    WrittenFrom(db, db1, UpdateDeposit(db, tx, a, amount), tx, a,
                if amount > before then DepositTokens else WithdrawTokens, amount, None, amount != before);
  }

  lemma DepositIsChanged(db: Db, tx: TxId, a: Address, amount: int)
    ensures var before := At(db.deposits, a);
            DepositWritten(db, ChangeDeposit(db, tx, a, amount), tx, a,
                           if amount > before then DepositTokens else WithdrawTokens, amount, None, amount != before)
  {
    if amount != At(db.deposits, a) {
      DepositIsSet(db, tx, a, if amount > At(db.deposits, a) then DepositTokens else WithdrawTokens, amount, None);
    }
  }

  // A gain or a loss is recorded and takes the loss from the deposit, unless both are zero.
  lemma GainIsWithdrawn(db: Db, tx: TxId, a: Address, collateral: int, loss: int)
    ensures DepositWritten(db, WithdrawGain(db, tx, a, collateral, loss), tx, a, WithdrawCollateralGain,
                           At(db.deposits, a) - loss, Some(collateral), collateral != 0 || loss != 0)
  {
    if collateral == 0 && loss == 0 {
      NoGain(db, tx, a);
    } else {
      var db1, amount := LookUpDeposit(db, a), At(db.deposits, a) - loss;
      GainIsSet(db, tx, a, collateral, loss, amount);
      DepositIsLookedUp(db, a);
      DepositIsSet(db1, tx, a, WithdrawCollateralGain, amount, Some(collateral));
      WrittenFrom(db, db1, SetDepositAfterGain(db, tx, a, amount, collateral), tx, a, WithdrawCollateralGain, amount,
                  Some(collateral), true);
    }
  }

  // What is pending for a deposit.
  function WithPending(db: Db, pending: Option<int>): Db {
    db.(global := db.global.(tmpDepositUpdate := pending))
  }

  ghost predicate Updated(db: Db, db': Db, tx: TxId, a: Address, amount: int) {
    var before := At(db.deposits, a);
    DepositWritten(db, db', tx, a, if amount > before then DepositTokens else WithdrawTokens, amount, None,
                   amount != before)
  }

  ghost predicate Withdrawn(db: Db, db': Db, tx: TxId, a: Address, collateral: int, loss: int) {
    DepositWritten(db, db', tx, a, WithdrawCollateralGain, At(db.deposits, a) - loss, Some(collateral),
                   collateral != 0 || loss != 0)
  }

  // The first event of a pair waits, the second one makes the update.
  ghost predicate DepositTaken(db: Db, db': Db, tx: TxId, a: Address, amount: int) {
    if db.global.tmpDepositUpdate.None? then db' == WithPending(db, Some(amount))
    else Updated(WithPending(db, None), db', tx, a, amount)
  }

  // The gain is withdrawn at once; if it comes second, the waiting update is made after it.
  ghost predicate GainTaken(db: Db, db': Db, tx: TxId, a: Address, collateral: int, loss: int) {
    if db.global.tmpDepositUpdate.None? then Withdrawn(WithPending(db, Some(0)), db', tx, a, collateral, loss)
    else
      exists db1 ::
        && Withdrawn(WithPending(db, None), db1, tx, a, collateral, loss)
        && Updated(db1, db', tx, a, db.global.tmpDepositUpdate.value)
  }

  lemma DepositEvent(db: Db, tx: TxId, a: Address, amount: int)
    ensures DepositTaken(db, ChangeUserDeposit(db, tx, a, amount), tx, a, amount)
  {
    if db.global.tmpDepositUpdate.Some? {
      DepositUpdate(SwapPending(db, amount), tx, a, amount);
    }
  }

  lemma GainEvent(db: Db, tx: TxId, a: Address, collateral: int, loss: int)
    ensures GainTaken(db, WithdrawUserGain(db, tx, a, collateral, loss), tx, a, collateral, loss)
  {
    if db.global.tmpDepositUpdate.None? {
      FirstGain(db, WithdrawUserGain(db, tx, a, collateral, loss), tx, a, collateral, loss);
    } else {
      SecondGain(db, WithdrawUserGain(db, tx, a, collateral, loss), tx, a, collateral, loss);
    }
  }

  lemma FirstGain(db: Db, db': Db, tx: TxId, a: Address, collateral: int, loss: int)
    requires db.global.tmpDepositUpdate.None? && db' == WithdrawUserGain(db, tx, a, collateral, loss)
    ensures GainTaken(db, db', tx, a, collateral, loss)
  {
    var start := SwapPending(db, 0);
    assert start == WithPending(db, Some(0));
    IsWithdrawn(start, db', tx, a, collateral, loss);
    GainAlone(db, start, db', tx, a, collateral, loss);
  }

  lemma SecondGain(db: Db, db': Db, tx: TxId, a: Address, collateral: int, loss: int)
    requires db.global.tmpDepositUpdate.Some? && db' == WithdrawUserGain(db, tx, a, collateral, loss)
    ensures GainTaken(db, db', tx, a, collateral, loss)
  {
    var start, pending := SwapPending(db, 0), db.global.tmpDepositUpdate.value;
    assert start == WithPending(db, None);
    var db1 := WithdrawGain(start, tx, a, collateral, loss);
    IsWithdrawn(start, db1, tx, a, collateral, loss);
    IsUpdated(db1, db', tx, a, pending);
    GainThenUpdate(db, start, db1, db', tx, a, collateral, loss, pending);
  }

  lemma IsWithdrawn(db: Db, db': Db, tx: TxId, a: Address, collateral: int, loss: int)
    requires db' == WithdrawGain(db, tx, a, collateral, loss)
    ensures Withdrawn(db, db', tx, a, collateral, loss)
  {
    GainIsWithdrawn(db, tx, a, collateral, loss);
  }

  lemma IsUpdated(db: Db, db': Db, tx: TxId, a: Address, amount: int)
    requires db' == UpdateDeposit(db, tx, a, amount)
    ensures Updated(db, db', tx, a, amount)
  {
    DepositUpdate(db, tx, a, amount);
  }

  lemma GainAlone(db: Db, start: Db, db': Db, tx: TxId, a: Address, collateral: int, loss: int)
    requires db.global.tmpDepositUpdate.None? && start == WithPending(db, Some(0))
    requires Withdrawn(start, db', tx, a, collateral, loss)
    ensures GainTaken(db, db', tx, a, collateral, loss)
  {
  }

  lemma GainThenUpdate(db: Db, start: Db, db1: Db, db': Db, tx: TxId, a: Address, collateral: int, loss: int,
                       pending: int)
    requires db.global.tmpDepositUpdate == Some(pending) && start == WithPending(db, None)
    requires Withdrawn(start, db1, tx, a, collateral, loss) && Updated(db1, db', tx, a, pending)
    ensures GainTaken(db, db', tx, a, collateral, loss)
  {
  }

  // ---------- Surpluses and stakes ----------

  ghost predicate SurplusWritten(db: Db, db': Db, tx: TxId, a: Address, before: int, balance: int) {
    && RecordedOrNot(db, db', tx, CollSurplusChange(a, before, balance), balance != before)
    && a in db'.users && db'.users[a].collSurplus == balance
    && (forall b :: b in db.users && b != a ==> b in db'.users && db'.users[b] == db.users[b])
    && db'.troves == db.troves && db'.deposits == db.deposits && db'.stakes == db.stakes && SameRecords(db, db')
    && SameGlobal(db.global, db'.global) && SamePending(db.global, db'.global)
  }

  // The surplus is the new balance, and a different one is a change.
  lemma SurplusEvent(db: Db, tx: TxId, a: Address, balance: int)
    ensures var before := if a in db.users then db.users[a].collSurplus else 0;
            SurplusWritten(db, UpdateCollSurplus(db, tx, a, balance), tx, a, before, balance)
  {
    var db1, before := EnsureUser(db, a), UserOf(db, a).collSurplus;
    UserIsAdded(db, a);
    if balance != before {
      SurplusIsSet(db1, tx, a, balance);
      SurplusFrom(db, db1, SetCollSurplus(db1, tx, a, balance), tx, a, before, balance);
    }
  }

  lemma UserIsAdded(db: Db, a: Address)
    ensures var db1 := EnsureUser(db, a);
            && LookedUp(db, db1) && db1.users.Keys == db.users.Keys + {a}
            && (forall b :: b in db.users ==> db1.users[b] == db.users[b])
            && (a !in db.users ==> db1.users[a].collSurplus == 0)
  {
    UserIsLookedUp(db, a);
    if a in db.users {
      assert db.users.Keys + {a} == db.users.Keys;
    } else {
      NewUserIsAdded(db.users, EnsureUser(db, a).users, a);
    }
  }

  lemma NewUserIsAdded(users: map<Address, User>, users': map<Address, User>, a: Address)
    requires a !in users && users' == users[a := NEW_USER]
    ensures users'.Keys == users.Keys + {a} && users'[a].collSurplus == 0
    ensures forall b :: b in users ==> users'[b] == users[b]
  {
  }

  lemma SurplusIsSet(db: Db, tx: TxId, a: Address, balance: int)
    requires a in db.users && balance != db.users[a].collSurplus
    ensures SurplusWritten(db, SetCollSurplus(db, tx, a, balance), tx, a, db.users[a].collSurplus, balance)
  {
    var detail := CollSurplusChange(a, db.users[a].collSurplus, balance);
    RecordIsMade(db, tx, detail);
    CommitKeeps(db, tx, detail);
    CommitKeepsCounts(db, tx, detail);
  }

  lemma SurplusFrom(db: Db, db1: Db, db': Db, tx: TxId, a: Address, before: int, balance: int)
    requires LookedUp(db, db1) && SurplusWritten(db1, db', tx, a, before, balance)
    requires forall b :: b in db.users ==> b in db1.users && db1.users[b] == db.users[b]
    ensures SurplusWritten(db, db', tx, a, before, balance)
  {
  }

  // The stake that a user points at is the new amount; what kind of change it is follows
  // from the amounts, and moves the counters of stakes.
  ghost predicate StakeMoved(db: Db, db': Db, tx: TxId, a: Address, amount: int) {
    var before := StakeOf(db, a);
    var op := if before == 0 && amount > 0 then StakeCreated else if amount > before then StakeIncreased
              else if amount == 0 then StakeRemoved else StakeDecreased;
    var c, c' := db.global.stakes, db'.global.stakes;
    && Recorded(db, db', tx, StakeChange(StakeId(db, a), op, before, amount, 0, 0))
    && db'.stakes == db.stakes[StakeId(db, a) := amount] && StakeOf(db', a) == amount
    && c'.active == c.active + (if op == StakeCreated then 1 else if op == StakeRemoved then -1 else 0)
    && c'.total == c.total + (if op == StakeCreated && !HasStake(db, a) then 1 else 0)
    && SameGlobal(db.global, db'.global) && db'.global.tmpDepositUpdate == db.global.tmpDepositUpdate
    && db'.troves == db.troves && db'.deposits == db.deposits && SameRecords(db, db')
  }

  lemma StakeEvent(db: Db, tx: TxId, a: Address, amount: int)
    ensures StakeMoved(db, UpdateStake(db, tx, a, amount), tx, a, amount)
  {
    var op := StakeOperationOf(StakeOf(db, a), amount);
    StakeIsSet(db, tx, a, op, amount, 0, 0);
    StakeIsCounted(db, SetStake(db, tx, a, op, amount, 0, 0), UpdateStake(db, tx, a, amount), tx, a, op, amount);
  }

  lemma StakeIsCounted(db: Db, db1: Db, db': Db, tx: TxId, a: Address, op: StakeOperation, amount: int)
    requires op == StakeOperationOf(StakeOf(db, a), amount)
    requires StakeWritten(db, db1, tx, a, StakeId(db, a),
                          StakeChange(StakeId(db, a), op, StakeOf(db, a), amount, 0, 0), amount)
    requires db' == WithStakeCounts(db1, CountStake(db.global.stakes, op, !HasStake(db, a)))
    ensures StakeMoved(db, db', tx, a, amount)
  {
  }

  // Gains are recorded and leave the stake, unless there are none.
  ghost predicate StakeGained(db: Db, db': Db, tx: TxId, a: Address, issuance: int, redemption: int) {
    var id, amount := StakeId(db, a), StakeOf(db, a);
    if issuance == 0 && redemption == 0 then db' == db
    else StakeWritten(db, db', tx, a, id, StakeChange(id, GainsWithdrawn, amount, amount, issuance, redemption), amount)
  }

  lemma StakeGainsEvent(db: Db, tx: TxId, a: Address, issuance: int, redemption: int)
    ensures StakeGained(db, WithdrawStakeGains(db, tx, a, issuance, redemption), tx, a, issuance, redemption)
  {
    StakeIsSet(db, tx, a, GainsWithdrawn, StakeOf(db, a), issuance, redemption);
  }

  // The user points at its stake from then on; the first one is stored under its address.
  ghost predicate StakeWritten(db: Db, db': Db, tx: TxId, a: Address, id: Address, detail: Detail, amount: int) {
    && Recorded(db, db', tx, detail)
    && db'.stakes == db.stakes[id := amount] && db'.global.stakes == db.global.stakes
    && HasStake(db', a) && StakeId(db', a) == id && StakeOf(db', a) == amount
    && SameGlobal(db.global, db'.global) && db'.global.tmpDepositUpdate == db.global.tmpDepositUpdate
    && db'.troves == db.troves && db'.deposits == db.deposits && SameRecords(db, db')
  }

  lemma StakeIsSet(db: Db, tx: TxId, a: Address, op: StakeOperation, amount: int, issuance: int, redemption: int)
    ensures StakeWritten(db, SetStake(db, tx, a, op, amount, issuance, redemption), tx, a, StakeId(db, a),
                         StakeChange(StakeId(db, a), op, StakeOf(db, a), amount, issuance, redemption), amount)
    ensures !HasStake(db, a) ==> StakeId(db, a) == a && StakeOf(db, a) == 0
  {
    var db1, id := LookUpStake(db, a), StakeId(db, a);
    var detail := StakeChange(id, op, StakeOf(db, a), amount, issuance, redemption);
    var db2 := Commit(db1, tx, detail);
    LookUpPoints(db, a);
    RecordIsMade(db1, tx, detail);
    CommitKeeps(db1, tx, detail);
    CommitKeepsCounts(db1, tx, detail);
    StakeIsWritten(db, db1, db2, SetStake(db, tx, a, op, amount, issuance, redemption), tx, a, id, detail, amount);
  }

  lemma StakeIsWritten(db: Db, db1: Db, db2: Db, db': Db, tx: TxId, a: Address, id: Address, detail: Detail,
                       amount: int)
    requires LookedUp(db, db1) && a in db1.users && db1.users[a].stake == Some(id)
    requires Recorded(db1, db2, tx, detail) && db' == db2.(stakes := db2.stakes[id := amount])
    requires db2.users == db1.users && db2.deposits == db1.deposits
    requires db2.troves == db1.troves && db2.stakes == db1.stakes
    requires SameRecords(db1, db2) && SameGlobal(db1.global, db2.global) && db2.global.stakes == db1.global.stakes
    requires db2.global.tmpDepositUpdate == db1.global.tmpDepositUpdate
    ensures StakeWritten(db, db', tx, a, id, detail, amount)
  {
    RecordedFrom(db, db1, db2, tx, detail);
  }

  lemma LookUpPoints(db: Db, a: Address)
    ensures var db1 := LookUpStake(db, a);
            LookedUp(db, db1) && a in db1.users && db1.users[a].stake == Some(StakeId(db, a))
  {
    UserIsLookedUp(db, a);
    if !HasStake(db, a) {
      NewPointer(EnsureUser(db, a), a);
    }
  }

  lemma NewPointer(db: Db, a: Address)
    requires a in db.users
    ensures LookedUp(db, db.(users := db.users[a := db.users[a].(stake := Some(a))]))
  {
  }

  // ---------- Liquidations and redemptions ----------

  predicate IsLiquidating(op: TroveOperation) {
    op.LiquidateInNormalMode? || op.LiquidateInRecoveryMode?
  }

  predicate LiquidationIsOpen(db: Db) {
    db.global.currentLiquidation.Some? && db.global.currentLiquidation.value in db.liquidations
  }

  predicate RedemptionIsOpen(db: Db) {
    db.global.currentRedemption.Some? && db.global.currentRedemption.value in db.redemptions
  }

  // An open liquidation goes on; otherwise one is opened under the next number, with the
  // transaction and its sender, and no amounts yet.
  ghost predicate LiquidationOpened(db: Db, db': Db, tx: TxId, sender: Address) {
    var n := db.global.count.liquidations;
    && (if LiquidationIsOpen(db) then
          db'.liquidations == db.liquidations && db'.global.currentLiquidation == db.global.currentLiquidation
        else
          && db'.liquidations == db.liquidations[n := Liquidation(n, tx, sender, 0, 0, 0, 0)]
          && db'.global.currentLiquidation == Some(n) && db'.global.count.liquidations == n + 1)
    && db'.redemptions == db.redemptions && db'.global.currentRedemption == db.global.currentRedemption
  }

  ghost predicate RedemptionOpened(db: Db, db': Db, tx: TxId, sender: Address) {
    var n := db.global.count.redemptions;
    && (if RedemptionIsOpen(db) then
          db'.redemptions == db.redemptions && db'.global.currentRedemption == db.global.currentRedemption
        else
          && db'.redemptions == db.redemptions[n := Redemption(n, tx, sender, 0, 0, 0, false, 0)]
          && db'.global.currentRedemption == Some(n) && db'.global.count.redemptions == n + 1)
    && db'.liquidations == db.liquidations && db'.global.currentLiquidation == db.global.currentLiquidation
  }

  // Nothing but records, users and transactions has been written.
  ghost predicate OnlyRecords(db: Db, db': Db) {
    && Unmoved(db, db') && db'.troves == db.troves && db'.deposits == db.deposits && db'.stakes == db.stakes
    && db'.global.troves == db.global.troves && db'.global.redistributed == db.global.redistributed
    && db'.global.feesPaid == db.global.feesPaid && db'.global.stakes == db.global.stakes
    && db'.global.tmpDepositUpdate == db.global.tmpDepositUpdate
  }

  lemma LiquidationIsOpened(db: Db, tx: TxId, sender: Address)
    ensures LiquidationOpened(db, EnsureLiquidation(db, tx, sender), tx, sender)
    ensures OnlyRecords(db, EnsureLiquidation(db, tx, sender))
  {
    if !LiquidationIsOpen(db) {
      var db1 := EnsureTransaction(db, tx);
      TransactionKeeps(db, tx);
      TransactionKeepsState(db, tx);
      UserIsLookedUp(db1, sender);
      LiquidationIsAdded(EnsureUser(db1, sender), tx, sender);
    }
  }

  lemma LiquidationIsAdded(db: Db, tx: TxId, sender: Address)
    ensures var n, db' := db.global.count.liquidations, AddLiquidation(db, tx, sender);
            && db'.liquidations == db.liquidations[n := Liquidation(n, tx, sender, 0, 0, 0, 0)]
            && db'.global.currentLiquidation == Some(n) && db'.global.count.liquidations == n + 1
            && db'.redemptions == db.redemptions && db'.global.currentRedemption == db.global.currentRedemption
            && OnlyRecords(db, db')
  {
  }

  lemma RedemptionIsOpened(db: Db, tx: TxId, sender: Address)
    ensures RedemptionOpened(db, EnsureRedemption(db, tx, sender), tx, sender)
    ensures OnlyRecords(db, EnsureRedemption(db, tx, sender))
  {
    if !RedemptionIsOpen(db) {
      var db1 := EnsureTransaction(db, tx);
      TransactionKeeps(db, tx);
      TransactionKeepsState(db, tx);
      UserIsLookedUp(db1, sender);
      RedemptionIsAdded(EnsureUser(db1, sender), tx, sender);
    }
  }

  lemma RedemptionIsAdded(db: Db, tx: TxId, sender: Address)
    ensures var n, db' := db.global.count.redemptions, AddRedemption(db, tx, sender);
            && db'.redemptions == db.redemptions[n := Redemption(n, tx, sender, 0, 0, 0, false, 0)]
            && db'.global.currentRedemption == Some(n) && db'.global.count.redemptions == n + 1
            && db'.liquidations == db.liquidations && db'.global.currentLiquidation == db.global.currentLiquidation
            && OnlyRecords(db, db')
  {
  }

  // The finished liquidation has the amounts of the event, and none is open any more.
  ghost predicate LiquidationClosed(db: Db, db': Db, tx: TxId, sender: Address, e: Body)
    requires e.LiquidationFinished?
  {
    var isOpen := LiquidationIsOpen(db);
    var id := if isOpen then db.global.currentLiquidation.value else db.global.count.liquidations;
    var l := if isOpen then db.liquidations[id] else Liquidation(id, tx, sender, 0, 0, 0, 0);
    && db'.liquidations == db.liquidations[id := Liquidation(
         l.sequenceNumber, l.transaction, l.liquidator, e.liquidatedCollateral, e.liquidatedDebt, e.collateralGas,
         e.debtGas)]
    && db'.global.currentLiquidation == None && db'.redemptions == db.redemptions && OnlyRecords(db, db')
  }

  lemma LiquidationFinishes(db: Db, tx: TxId, sender: Address, e: Body)
    requires e.LiquidationFinished?
    ensures LiquidationClosed(db, FinishLiquidation(db, tx, sender, e), tx, sender, e)
  {
    var db1, db' := EnsureLiquidation(db, tx, sender), FinishLiquidation(db, tx, sender, e);
    LiquidationIsOpened(db, tx, sender);
    LiquidationIsClosed(db1, db', e);
    LiquidationFrom(db, db1, db', tx, sender, e);
  }

  lemma LiquidationIsClosed(db: Db, db': Db, e: Body)
    requires e.LiquidationFinished? && LiquidationIsOpen(db)
    requires var id := db.global.currentLiquidation.value;
             db' == db.(liquidations := db.liquidations[id :=
                          db.liquidations[id].(collateral := e.liquidatedCollateral, debt := e.liquidatedDebt,
                                               collateralGasCompensation := e.collateralGas,
                                               tokenGasCompensation := e.debtGas)],
                        global := db.global.(currentLiquidation := None))
    ensures LiquidationClosed(db, db', 0, 0, e)
  {
  }

  lemma LiquidationFrom(db: Db, db1: Db, db': Db, tx: TxId, sender: Address, e: Body)
    requires e.LiquidationFinished? && LiquidationOpened(db, db1, tx, sender) && OnlyRecords(db, db1)
    requires LiquidationIsOpen(db1) && LiquidationClosed(db1, db', 0, 0, e)
    ensures LiquidationClosed(db, db', tx, sender, e)
  {
  }

  // The finished redemption has the amounts of the event, is partial if not all that was
  // attempted was redeemed, and its fee is added to the fees paid.
  ghost predicate RedemptionClosed(db: Db, db': Db, tx: TxId, sender: Address, e: Body)
    requires e.RedemptionFinished?
  {
    var isOpen := RedemptionIsOpen(db);
    var id := if isOpen then db.global.currentRedemption.value else db.global.count.redemptions;
    var r := if isOpen then db.redemptions[id] else Redemption(id, tx, sender, 0, 0, 0, false, 0);
    && db'.redemptions == db.redemptions[id := Redemption(
         r.sequenceNumber, r.transaction, r.redeemer, e.attempted, e.actual, e.sent, e.actual < e.attempted, e.fee)]
    && db'.global.currentRedemption == None
    && db'.global.feesPaid == FeesPaid(db.global.feesPaid.borrowing, db.global.feesPaid.redemption + e.fee)
    && db'.liquidations == db.liquidations && Unmoved(db, db')
    && db'.troves == db.troves && db'.deposits == db.deposits && db'.stakes == db.stakes
    && db'.global.troves == db.global.troves && db'.global.redistributed == db.global.redistributed
    && db'.global.currentLiquidation == db.global.currentLiquidation && SamePending(db.global, db'.global)
  }

  lemma RedemptionFinishes(db: Db, tx: TxId, sender: Address, e: Body)
    requires e.RedemptionFinished?
    ensures RedemptionClosed(db, FinishRedemption(db, tx, sender, e), tx, sender, e)
  {
    var db1, db' := EnsureRedemption(db, tx, sender), FinishRedemption(db, tx, sender, e);
    RedemptionIsOpened(db, tx, sender);
    RedemptionIsClosed(db1, db', e);
    RedemptionFrom(db, db1, db', tx, sender, e);
  }

  lemma RedemptionIsClosed(db: Db, db': Db, e: Body)
    requires e.RedemptionFinished? && RedemptionIsOpen(db)
    requires var id, g := db.global.currentRedemption.value, db.global;
             db' == db.(redemptions := db.redemptions[id :=
                          db.redemptions[id].(attempted := e.attempted, actual := e.actual, collateral := e.sent,
                                              partial := e.actual < e.attempted, fee := e.fee)],
                        global := g.(currentRedemption := None,
                                     feesPaid := g.feesPaid.(redemption := g.feesPaid.redemption + e.fee)))
    ensures RedemptionClosed(db, db', 0, 0, e)
  {
  }

  lemma RedemptionFrom(db: Db, db1: Db, db': Db, tx: TxId, sender: Address, e: Body)
    requires e.RedemptionFinished? && RedemptionOpened(db, db1, tx, sender) && OnlyRecords(db, db1)
    requires RedemptionIsOpen(db1) && RedemptionClosed(db1, db', 0, 0, e)
    ensures RedemptionClosed(db, db', tx, sender, e)
  {
  }

  // ---------- Fees and totals ----------

  // The last change gets its fee, which is added to the fees paid; nothing else moves.
  ghost predicate FeeTaken(db: Db, db': Db, fee: int) {
    var n, g := db.global.count.changes - 1, db.global;
    && n in db.changes && db.changes[n].detail.TroveChange? && db'.changes.Keys == db.changes.Keys
    && (forall m :: m in db.changes && m != n ==> db'.changes[m] == db.changes[m])
    && db'.changes[n] == WithFee(db.changes[n], fee)
    && db' == db.(changes := db'.changes,
                  global := g.(feesPaid := FeesPaid(g.feesPaid.borrowing + fee, g.feesPaid.redemption)))
  }

  lemma BorrowingFeeEvent(db: Db, fee: int)
    requires LastIsTroveChange(db)
    ensures FeeTaken(db, PayBorrowingFee(db, fee), fee)
  {
  }

  // ---------- Troves ----------

  // A trove with collateral is open; without, what emptied it says how it was closed.
  function StatusOf(op: TroveOperation, collateral: int): TroveStatus {
    if collateral != 0 then Open
    else match op
      case LiquidateInNormalMode => ClosedByLiquidation
      case LiquidateInRecoveryMode => ClosedByLiquidation
      case RedeemCollateral => ClosedByRedemption
      case _ => ClosedByOwner
  }

  // With a stake, the snapshot is that of the current totals, and the sort key is the debt
  // per stake, less the total; without, there is neither.
  function TroveAfter(total: PerStake, op: TroveOperation, collateral: int, debt: int, stake: nat): Trove {
    if stake == 0 then Trove(StatusOf(op, collateral), collateral, debt, 0, PerStake(0, 0), None)
    else Trove(StatusOf(op, collateral), collateral, debt, stake, PerStake(total.collateral, total.debt),
               Some(TruncDiv(debt * 1_000_000_000_000_000_000, stake) - total.debt))
  }

  function RatioAt(collateral: int, debt: int, price: int): Option<int> {
    if debt == 0 then None else Some(TruncDiv(collateral * price, debt))
  }

  // The stored trove, or one that holds nothing.
  function Known(db: Db, a: Address): Trove {
    if a in db.troves then db.troves[a] else Trove(Open, 0, 0, 0, PerStake(0, 0), None)
  }

  // The change, with amounts and ratios before and after, and the open liquidation or
  // redemption that it is part of.
  function DeltaFrom(db: Db, db': Db, op: TroveOperation, a: Address, collateral: int, debt: int): TroveDelta {
    var t, price := Known(db, a), Current(db).price.GetOr(0);
    TroveDelta(a, op, t.collateral, collateral, t.debt, debt, RatioAt(t.collateral, t.debt, price),
               RatioAt(collateral, debt, price),
               if IsLiquidating(op) then db'.global.currentLiquidation else None,
               if op.RedeemCollateral? then db'.global.currentRedemption else None, None)
  }

  // A trove is written, recorded as a change; or nothing about it differs, and only unknown
  // owners are counted.
  ghost predicate TroveWritten(db: Db, db': Db, tx: TxId, sender: Address, op: TroveOperation, a: Address,
                               collateral: int, debt: int, stake: nat) {
    && (if collateral == Known(db, a).collateral && debt == Known(db, a).debt then
          Unmoved(db, db') && db'.troves == db.troves && SameRecords(db, db')
        else
          && Recorded(db, db', tx, TroveChange(DeltaFrom(db, db', op, a, collateral, debt)))
          && db'.troves == db.troves[a := TroveAfter(db.global.redistributed, op, collateral, debt, stake)]
          && (if IsLiquidating(op) then LiquidationOpened(db, db', tx, sender)
              else if op.RedeemCollateral? then RedemptionOpened(db, db', tx, sender)
              else SameRecords(db, db')))
    && db'.global.redistributed == db.global.redistributed && db'.global.feesPaid == db.global.feesPaid
    && db'.global.stakes == db.global.stakes && db'.global.tmpDepositUpdate == db.global.tmpDepositUpdate
    && db'.deposits == db.deposits && db'.stakes == db.stakes
  }

  lemma TroveEvent(db: Db, tx: TxId, sender: Address, op: TroveOperation, a: Address, collateral: int, debt: int,
                   stake: nat)
    ensures TroveWritten(db, UpdateTrove(db, tx, sender, op, a, collateral, debt, stake), tx, sender, op, a,
                         collateral, debt, stake)
  {
    var db1 := LookUpTrove(db, a);
    TroveIsLookedUp(db, a);
    if IsTroveChange(db, a, collateral, debt) {
      var db2 := OpenGroup(db1, tx, sender, op);
      var detail := TroveChange(DeltaOf(db2, op, a, collateral, debt));
      GroupIsOpened(db1, tx, sender, op);
      RecordIsMade(db2, tx, detail);
      CommitKeeps(db2, tx, detail);
      CommitKeepsCounts(db2, tx, detail);
      TroveIsStored(Commit(db2, tx, detail), op, a, collateral, debt, stake);
      TroveIsWritten(db, db1, db2, Commit(db2, tx, detail), UpdateTrove(db, tx, sender, op, a, collateral, debt, stake),
                     tx, sender, op, a, collateral, debt, stake);
    }
  }

  ghost predicate OnlyCounted(db: Db, db1: Db) {
    && Unmoved(db, db1) && db1.troves == db.troves && db1.deposits == db.deposits && db1.stakes == db.stakes
    && SameRecords(db, db1) && db1.global == db.global.(troves := db1.global.troves)
  }

  lemma TroveIsLookedUp(db: Db, a: Address)
    ensures OnlyCounted(db, LookUpTrove(db, a))
  {
    if a !in db.troves {
      UserIsLookedUp(db, a);
    }
  }

  lemma GroupIsOpened(db: Db, tx: TxId, sender: Address, op: TroveOperation)
    ensures var db1 := OpenGroup(db, tx, sender, op);
            && OnlyRecords(db, db1)
            && (if IsLiquidating(op) then LiquidationOpened(db, db1, tx, sender)
                else if op.RedeemCollateral? then RedemptionOpened(db, db1, tx, sender)
                else db1 == db)
  {
    if IsLiquidating(op) {
      LiquidationIsOpened(db, tx, sender);
    } else if op.RedeemCollateral? {
      RedemptionIsOpened(db, tx, sender);
    }
  }

  lemma TroveIsStored(db: Db, op: TroveOperation, a: Address, collateral: int, debt: int, stake: nat)
    ensures var db' := StoreTrove(db, op, a, collateral, debt, stake);
            && db'.troves == db.troves[a := TroveAfter(db.global.redistributed, op, collateral, debt, stake)]
            && db'.transactions == db.transactions && db'.global == db.global.(troves := db'.global.troves)
            && Unmoved(db, db') && db'.deposits == db.deposits && db'.stakes == db.stakes && SameRecords(db, db')
  {
  }

  lemma TroveIsWritten(db: Db, db1: Db, db2: Db, db3: Db, db': Db, tx: TxId, sender: Address, op: TroveOperation,
                       a: Address, collateral: int, debt: int, stake: nat)
    requires collateral != Known(db, a).collateral || debt != Known(db, a).debt
    requires OnlyCounted(db, db1) && OnlyRecords(db1, db2)
    requires if IsLiquidating(op) then LiquidationOpened(db1, db2, tx, sender)
             else if op.RedeemCollateral? then RedemptionOpened(db1, db2, tx, sender)
             else db2 == db1
    requires Recorded(db2, db3, tx, TroveChange(DeltaOf(db2, op, a, collateral, debt)))
    requires db3.troves == db2.troves && db3.deposits == db2.deposits && db3.stakes == db2.stakes
    requires SameRecords(db2, db3)
    requires db3.global == db2.global.(count := db3.global.count, currentSystemState := db3.global.currentSystemState)
    requires db3.global.count.liquidations == db2.global.count.liquidations
    requires db3.global.count.redemptions == db2.global.count.redemptions
    requires Unmoved(db3, db') && db'.deposits == db3.deposits && db'.stakes == db3.stakes && SameRecords(db3, db')
    requires db'.transactions == db3.transactions && db'.global == db3.global.(troves := db'.global.troves)
    requires db'.troves == db3.troves[a := TroveAfter(db3.global.redistributed, op, collateral, debt, stake)]
    ensures TroveWritten(db, db', tx, sender, op, a, collateral, debt, stake)
  {
    DeltaIs(db, db2, db', op, a, collateral, debt);
  }

  lemma DeltaIs(db: Db, db2: Db, db': Db, op: TroveOperation, a: Address, collateral: int, debt: int)
    requires db2.troves == db.troves && Current(db2) == Current(db)
    requires db'.global.currentLiquidation == db2.global.currentLiquidation
    requires db'.global.currentRedemption == db2.global.currentRedemption
    ensures DeltaOf(db2, op, a, collateral, debt) == DeltaFrom(db, db', op, a, collateral, debt)
  {
  }

  // Before a liquidation, a trove is credited its stake's share of what was redistributed
  // since its snapshot, and has no stake from then on.
  ghost predicate TroveAccrued(db: Db, db': Db, tx: TxId, sender: Address, a: Address) {
    var t, total, one := Known(db, a), db.global.redistributed, 1_000_000_000_000_000_000;
    TroveWritten(db, db', tx, sender, AccrueRewards, a,
                 t.collateral + TruncDiv((total.collateral - t.snapshot.collateral) * t.stake, one),
                 t.debt + TruncDiv((total.debt - t.snapshot.debt) * t.stake, one), 0)
  }

  lemma AccrualEvent(db: Db, tx: TxId, sender: Address, a: Address)
    ensures TroveAccrued(db, AccrueTrove(db, tx, sender, a), tx, sender, a)
  {
    var db', collateral, debt := AccrueTrove(db, tx, sender, a), AccruedCollateral(db, a), AccruedDebt(db, a);
    TroveEvent(db, tx, sender, AccrueRewards, a, collateral, debt, 0);
    AccruedAmounts(db, a);
    AccruedIs(db, db', tx, sender, a, collateral, debt);
  }

  lemma AccruedIs(db: Db, db': Db, tx: TxId, sender: Address, a: Address, collateral: int, debt: int)
    requires TroveWritten(db, db', tx, sender, AccrueRewards, a, collateral, debt, 0)
    requires var t, total, one := Known(db, a), db.global.redistributed, 1_000_000_000_000_000_000;
             && collateral == t.collateral + TruncDiv((total.collateral - t.snapshot.collateral) * t.stake, one)
             && debt == t.debt + TruncDiv((total.debt - t.snapshot.debt) * t.stake, one)
    ensures TroveAccrued(db, db', tx, sender, a)
  {
  }

  lemma AccruedAmounts(db: Db, a: Address)
    ensures var t, total, one := Known(db, a), db.global.redistributed, 1_000_000_000_000_000_000;
            && AccruedCollateral(db, a)
               == t.collateral + TruncDiv((total.collateral - t.snapshot.collateral) * t.stake, one)
            && AccruedDebt(db, a) == t.debt + TruncDiv((total.debt - t.snapshot.debt) * t.stake, one)
  {
  }

  // ---------- Every event ----------

  ghost predicate Leaves(db: Db, e: Event, db': Db) {
    match e.body
    case TroveUpdated(op, a, collateral, debt, stake) =>
      TroveWritten(db, db', e.tx, e.sender, op, a, collateral, debt, stake)
    case TroveLiquidated(a) => TroveAccrued(db, db', e.tx, e.sender, a)
    case LiquidationFinished(_, _, _, _) => LiquidationClosed(db, db', e.tx, e.sender, e.body)
    case RedemptionFinished(_, _, _, _) => RedemptionClosed(db, db', e.tx, e.sender, e.body)
    case LTermsUpdated(collateral, debt) =>
      db' == db.(global := db.global.(redistributed := PerStake(collateral, debt)))
    case BorrowingFeePaid(fee) => FeeTaken(db, db', fee)
    case PriceUpdated(price) => PriceTaken(db, db', e.tx, price)
    case UserDepositChanged(a, amount) => DepositTaken(db, db', e.tx, a, amount)
    case GainWithdrawn(a, collateral, loss) => GainTaken(db, db', e.tx, a, collateral, loss)
    case CollBalanceUpdated(a, balance) =>
      SurplusWritten(db, db', e.tx, a, if a in db.users then db.users[a].collSurplus else 0, balance)
    case StakeChanged(a, amount) => StakeMoved(db, db', e.tx, a, amount)
    case StakeGainsWithdrawn(a, issuance, redemption) => StakeGained(db, db', e.tx, a, issuance, redemption)
  }

  lemma TroveEventLeaves(db: Db, e: Event)
    requires Enabled(db, e) && e.body.IsTroveEvent()
    ensures Leaves(db, e, HandleTroveEvent(db, e.tx, e.sender, e.body))
  {
    match e.body {
      case TroveUpdated(op, a, collateral, debt, stake) =>
        TroveEvent(db, e.tx, e.sender, op, a, collateral, debt, stake);
      case TroveLiquidated(a) => AccrualEvent(db, e.tx, e.sender, a);
      case LiquidationFinished(_, _, _, _) => LiquidationFinishes(db, e.tx, e.sender, e.body);
      case RedemptionFinished(_, _, _, _) => RedemptionFinishes(db, e.tx, e.sender, e.body);
      case LTermsUpdated(_, _) =>
      case BorrowingFeePaid(fee) => BorrowingFeeEvent(db, fee);
    }
  }

  lemma PoolEventLeaves(db: Db, e: Event)
    requires e.body.IsPoolEvent()
    ensures Leaves(db, e, HandlePoolEvent(db, e.tx, e.body))
  {
    match e.body {
      case UserDepositChanged(a, amount) => DepositEvent(db, e.tx, a, amount);
      case GainWithdrawn(a, collateral, loss) => GainEvent(db, e.tx, a, collateral, loss);
    }
  }

  lemma StakeEventLeaves(db: Db, e: Event)
    requires e.body.IsStakeEvent()
    ensures Leaves(db, e, HandleStakeEvent(db, e.tx, e.body))
  {
    match e.body {
      case StakeChanged(a, amount) => StakeEvent(db, e.tx, a, amount);
      case StakeGainsWithdrawn(a, issuance, redemption) => StakeGainsEvent(db, e.tx, a, issuance, redemption);
    }
  }

  // What every event leaves in the store, whatever the store was.
  lemma EveryEvent(db: Db, e: Event)
    requires Enabled(db, e)
    ensures Leaves(db, e, Handle(db, e))
  {
    if e.body.IsTroveEvent() {
      TroveEventLeaves(db, e);
    } else if e.body.IsPoolEvent() {
      PoolEventLeaves(db, e);
    } else if e.body.IsStakeEvent() {
      StakeEventLeaves(db, e);
    } else if e.body.PriceUpdated? {
      PriceEvent(db, e.tx, e.body.price);
    } else {
      SurplusEvent(db, e.tx, e.body.account, e.body.balance);
    }
  }
}
