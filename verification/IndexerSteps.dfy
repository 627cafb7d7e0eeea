// The small steps that the handlers are made of, and how they commute.
module IndexerSteps {
  import opened Wrappers
  import opened Entities
  import opened IndexerSpec

  datatype Counter = SystemStates | Transactions | Changes | Liquidations | Redemptions

  function CountOf(c: Counts, key: Counter): int {
    match key
    case SystemStates => c.systemStates
    case Transactions => c.transactions
    case Changes => c.changes
    case Liquidations => c.liquidations
    case Redemptions => c.redemptions
  }

  function SetCount(c: Counts, key: Counter, value: int): Counts {
    match key
    case SystemStates => c.(systemStates := value)
    case Transactions => c.(transactions := value)
    case Changes => c.(changes := value)
    case Liquidations => c.(liquidations := value)
    case Redemptions => c.(redemptions := value)
  }

  // Taking the change number first or last makes no difference.
  lemma PrepareCommutes(db: Db, tx: TxId)
    ensures EnsureSystemState(EnsureTransaction(CountChange(db), tx)) == CountChange(Prepare(db, tx))
  {
    assert EnsureTransaction(CountChange(db), tx) == CountChange(EnsureTransaction(db, tx));
  }

  lemma CurrentIsKept(db: Db, tx: TxId)
    ensures Current(CountChange(Prepare(db, tx))) == Current(Prepare(db, tx)) == Current(db)
    ensures HasSystemState(CountChange(Prepare(db, tx)))
    ensures EnsureSystemState(CountChange(Prepare(db, tx))) == CountChange(Prepare(db, tx))
    ensures Prepare(db, tx).global.count.changes == db.global.count.changes
  {
    TransactionKeeps(db, tx);
    TransactionKeepsState(db, tx);
    StateKeeps(EnsureTransaction(db, tx));
    CountKeepsState(Prepare(db, tx));
  }

  lemma CountKeepsState(db: Db)
    requires HasSystemState(db)
    ensures HasSystemState(CountChange(db)) && Current(CountChange(db)) == Current(db)
    ensures EnsureSystemState(CountChange(db)) == CountChange(db)
  {
  }

  // ---------- Liquidations and redemptions ----------

  lemma TransactionKeeps(db: Db, tx: TxId)
    ensures var db1 := EnsureTransaction(db, tx);
            && tx in db1.transactions
            && db1 == db.(transactions := db1.transactions, global := db.global.(count := db1.global.count))
            && db1.global.count == db.global.count.(transactions := db1.global.count.transactions)
            && (HasLiquidation(db1) <==> HasLiquidation(db)) && (HasRedemption(db1) <==> HasRedemption(db))
  {
    if tx !in db.transactions {
      NewTransactionKeeps(db, tx, db.global.count.transactions);
    }
  }

  lemma NewTransactionKeeps(db: Db, tx: TxId, n: int)
    requires n == db.global.count.transactions && tx !in db.transactions
    ensures var db1 := EnsureTransaction(db, tx);
            && db1.transactions == db.transactions[tx := Transaction(n)]
            && db1.global == db.global.(count := db.global.count.(transactions := n + 1))
            && db1 == db.(transactions := db1.transactions, global := db1.global)
  {
  }

  lemma TransactionKeepsState(db: Db, tx: TxId)
    ensures Current(EnsureTransaction(db, tx)) == Current(db)
    ensures HasSystemState(EnsureTransaction(db, tx)) <==> HasSystemState(db)
  {
  }

  lemma StateKeeps(db: Db)
    ensures var db1 := EnsureSystemState(db);
            && Current(db1) == Current(db)
            && db1 == db.(systemStates := db1.systemStates,
                          global := db.global.(count := db1.global.count,
                                               currentSystemState := db1.global.currentSystemState))
            && db1.global.count == db.global.count.(systemStates := db1.global.count.systemStates)
            && (HasLiquidation(db1) <==> HasLiquidation(db)) && (HasRedemption(db1) <==> HasRedemption(db))
  {
  }

  lemma AddLiquidationKeeps(db: Db, tx: TxId, sender: Address)
    ensures var db1 := AddLiquidation(EnsureUser(db, sender), tx, sender);
            && db1.transactions == db.transactions && db1.systemStates == db.systemStates
            && db1.global.count == db.global.count.(liquidations := db.global.count.liquidations + 1)
            && db1.global.currentSystemState == db.global.currentSystemState
            && HasLiquidation(db1)
  {
  }

  lemma AddRedemptionKeeps(db: Db, tx: TxId, sender: Address)
    ensures var db1 := AddRedemption(EnsureUser(db, sender), tx, sender);
            && db1.transactions == db.transactions && db1.systemStates == db.systemStates
            && db1.global.count == db.global.count.(redemptions := db.global.count.redemptions + 1)
            && db1.global.currentSystemState == db.global.currentSystemState
            && HasRedemption(db1)
  {
  }

  // Taking the liquidation's number before the other records are ensured.
  lemma LiquidationCountCommutes(db: Db, tx: TxId, sender: Address)
    ensures EnsureUser(EnsureTransaction(CountLiquidation(db), tx), sender)
            == CountLiquidation(EnsureUser(EnsureTransaction(db, tx), sender))
    ensures EnsureUser(EnsureTransaction(db, tx), sender).global.count.liquidations == db.global.count.liquidations
  {
    TransactionPastLiquidationCount(db, tx);
    UserPastLiquidationCount(EnsureTransaction(db, tx), sender);
    TransactionKeeps(db, tx);
  }

  lemma TransactionPastLiquidationCount(db: Db, tx: TxId)
    ensures EnsureTransaction(CountLiquidation(db), tx) == CountLiquidation(EnsureTransaction(db, tx))
  {
  }

  lemma UserPastLiquidationCount(db: Db, sender: Address)
    ensures EnsureUser(CountLiquidation(db), sender) == CountLiquidation(EnsureUser(db, sender))
  {
  }

  lemma RedemptionCountCommutes(db: Db, tx: TxId, sender: Address)
    ensures EnsureUser(EnsureTransaction(CountRedemption(db), tx), sender)
            == CountRedemption(EnsureUser(EnsureTransaction(db, tx), sender))
    ensures EnsureUser(EnsureTransaction(db, tx), sender).global.count.redemptions == db.global.count.redemptions
  {
    TransactionPastRedemptionCount(db, tx);
    UserPastRedemptionCount(EnsureTransaction(db, tx), sender);
    TransactionKeeps(db, tx);
  }

  lemma TransactionPastRedemptionCount(db: Db, tx: TxId)
    ensures EnsureTransaction(CountRedemption(db), tx) == CountRedemption(EnsureTransaction(db, tx))
  {
  }

  lemma UserPastRedemptionCount(db: Db, sender: Address)
    ensures EnsureUser(CountRedemption(db), sender) == CountRedemption(EnsureUser(db, sender))
  {
  }

  lemma LiquidationPastTransaction(db: Db, tx: TxId, sender: Address)
    ensures EnsureLiquidation(EnsureTransaction(db, tx), tx, sender)
            == EnsureTransaction(EnsureLiquidation(db, tx, sender), tx)
  {
    TransactionKeeps(db, tx);
    if !HasLiquidation(db) {
      AddLiquidationKeeps(EnsureTransaction(db, tx), tx, sender);
    }
  }

  lemma RedemptionPastTransaction(db: Db, tx: TxId, sender: Address)
    ensures EnsureRedemption(EnsureTransaction(db, tx), tx, sender)
            == EnsureTransaction(EnsureRedemption(db, tx, sender), tx)
  {
    TransactionKeeps(db, tx);
    if !HasRedemption(db) {
      AddRedemptionKeeps(EnsureTransaction(db, tx), tx, sender);
    }
  }

  lemma LiquidationPastState(db: Db, tx: TxId, sender: Address)
    requires tx in db.transactions
    ensures EnsureLiquidation(EnsureSystemState(db), tx, sender) == EnsureSystemState(EnsureLiquidation(db, tx, sender))
  {
    StateKeeps(db);
    if !HasLiquidation(db) && !HasSystemState(db) {
      AddLiquidationKeeps(db, tx, sender);
      assert AddLiquidation(EnsureUser(AddSystemState(db, Current(db)), sender), tx, sender)
          == AddSystemState(AddLiquidation(EnsureUser(db, sender), tx, sender), Current(db));
    }
  }

  lemma RedemptionPastState(db: Db, tx: TxId, sender: Address)
    requires tx in db.transactions
    ensures EnsureRedemption(EnsureSystemState(db), tx, sender) == EnsureSystemState(EnsureRedemption(db, tx, sender))
  {
    StateKeeps(db);
    if !HasRedemption(db) && !HasSystemState(db) {
      AddRedemptionKeeps(db, tx, sender);
      assert AddRedemption(EnsureUser(AddSystemState(db, Current(db)), sender), tx, sender)
          == AddSystemState(AddRedemption(EnsureUser(db, sender), tx, sender), Current(db));
    }
  }

  lemma UserPastChangeCount(db: Db, a: Address)
    ensures EnsureUser(CountChange(db), a) == CountChange(EnsureUser(db, a))
  {
  }

  lemma LiquidationPastCount(db: Db, tx: TxId, sender: Address)
    requires tx in db.transactions
    ensures EnsureLiquidation(CountChange(db), tx, sender) == CountChange(EnsureLiquidation(db, tx, sender))
  {
    assert EnsureTransaction(db, tx) == db && EnsureTransaction(CountChange(db), tx) == CountChange(db);
    if !HasLiquidation(db) {
      UserPastChangeCount(db, sender);
      AddLiquidationPastCount(EnsureUser(db, sender), tx, sender);
    }
  }

  lemma AddLiquidationPastCount(db: Db, tx: TxId, sender: Address)
    ensures AddLiquidation(CountChange(db), tx, sender) == CountChange(AddLiquidation(db, tx, sender))
  {
  }

  lemma RedemptionPastCount(db: Db, tx: TxId, sender: Address)
    requires tx in db.transactions
    ensures EnsureRedemption(CountChange(db), tx, sender) == CountChange(EnsureRedemption(db, tx, sender))
  {
    assert EnsureTransaction(db, tx) == db && EnsureTransaction(CountChange(db), tx) == CountChange(db);
    if !HasRedemption(db) {
      UserPastChangeCount(db, sender);
      AddRedemptionPastCount(EnsureUser(db, sender), tx, sender);
    }
  }

  lemma AddRedemptionPastCount(db: Db, tx: TxId, sender: Address)
    ensures AddRedemption(CountChange(db), tx, sender) == CountChange(AddRedemption(db, tx, sender))
  {
  }

  // Opening the liquidation or redemption inside a started change has the same effect
  // as opening it before.
  lemma GroupCommutes(db: Db, tx: TxId, sender: Address, op: TroveOperation)
    ensures OpenGroup(CountChange(Prepare(db, tx)), tx, sender, op)
            == CountChange(Prepare(OpenGroup(db, tx, sender, op), tx))
  {
    var db1 := EnsureTransaction(db, tx);
    TransactionKeeps(db, tx);
    StateKeeps(db1);
    if op.IsLiquidation() {
      LiquidationPastTransaction(db, tx, sender);
      LiquidationPastState(db1, tx, sender);
      LiquidationPastCount(EnsureSystemState(db1), tx, sender);
    } else if op.IsRedemption() {
      RedemptionPastTransaction(db, tx, sender);
      RedemptionPastState(db1, tx, sender);
      RedemptionPastCount(EnsureSystemState(db1), tx, sender);
    }
  }

  // What the micro-steps of a handler leave alone.
  ghost predicate SameReads(db: Db, db': Db) {
    && Current(db') == Current(db) && db'.troves == db.troves
    && db'.global.count.changes == db.global.count.changes
    && db'.global.troves == db.global.troves && db'.global.redistributed == db.global.redistributed
  }

  lemma LiquidationKeeps(db: Db, tx: TxId, sender: Address)
    ensures SameReads(db, EnsureLiquidation(db, tx, sender))
    ensures var db1 := EnsureLiquidation(db, tx, sender);
            db1.global.currentSystemState == db.global.currentSystemState && db1.systemStates == db.systemStates
            && db1.global.count.systemStates == db.global.count.systemStates
  {
    TransactionKeeps(db, tx);
    TransactionKeepsState(db, tx);
    AddLiquidationKeeps(EnsureTransaction(db, tx), tx, sender);
  }

  lemma RedemptionKeeps(db: Db, tx: TxId, sender: Address)
    ensures SameReads(db, EnsureRedemption(db, tx, sender))
    ensures var db1 := EnsureRedemption(db, tx, sender);
            db1.global.currentSystemState == db.global.currentSystemState && db1.systemStates == db.systemStates
            && db1.global.count.systemStates == db.global.count.systemStates
  {
    TransactionKeeps(db, tx);
    AddRedemptionKeeps(EnsureTransaction(db, tx), tx, sender);
  }

  lemma PrepareKeeps(db: Db, tx: TxId)
    ensures SameReads(db, Prepare(db, tx))
    ensures var db1 := CountChange(Prepare(db, tx));
            && db1.global.currentLiquidation == db.global.currentLiquidation
            && db1.global.currentRedemption == db.global.currentRedemption
    ensures Prepare(db, tx).global.currentSystemState
            == if HasSystemState(db) then db.global.currentSystemState else Some(db.global.count.systemStates)
  {
    TransactionKeeps(db, tx);
    TransactionKeepsState(db, tx);
    StateKeeps(EnsureTransaction(db, tx));
  }

  // Opening a group leaves everything a trove change reads.
  lemma GroupKeeps(db: Db, tx: TxId, sender: Address, op: TroveOperation)
    ensures var db1 := OpenGroup(db, tx, sender, op);
            SameReads(db, db1)
            && Prepare(db1, tx).global.currentSystemState == Prepare(db, tx).global.currentSystemState
  {
    PrepareKeeps(db, tx);
    PrepareKeeps(OpenGroup(db, tx, sender, op), tx);
    LiquidationKeeps(db, tx, sender);
    RedemptionKeeps(db, tx, sender);
  }

  lemma LookUpKeeps(db: Db, a: Address)
    ensures var db1 := LookUpTrove(db, a);
            && Current(db1) == Current(db) && db1.troves == db.troves
            && db1.global.redistributed == db.global.redistributed
  {
  }

  // Withdrawing a gain does nothing, or sets the deposit.
  lemma GainCases(db: Db, tx: TxId, a: Address, collateral: int, loss: int, amount: int)
    requires amount == DepositOf(db, a) - loss
    ensures WithdrawGain(db, tx, a, collateral, loss) == db
         || WithdrawGain(db, tx, a, collateral, loss) == SetDepositAfterGain(db, tx, a, amount, collateral)
  {
    if collateral == 0 && loss == 0 {
      NoGain(db, tx, a);
    } else {
      GainIsSet(db, tx, a, collateral, loss, amount);
    }
  }

  lemma NoGain(db: Db, tx: TxId, a: Address)
    ensures WithdrawGain(db, tx, a, 0, 0) == db
  {
  }

  lemma GainIsSet(db: Db, tx: TxId, a: Address, collateral: int, loss: int, amount: int)
    requires (collateral != 0 || loss != 0) && amount == DepositOf(db, a) - loss
    ensures WithdrawGain(db, tx, a, collateral, loss) == SetDepositAfterGain(db, tx, a, amount, collateral)
  {
    assert DepositOf(db, a) - loss == amount;
  }

  lemma CommitKeeps(db: Db, tx: TxId, detail: Detail)
    ensures var db1 := Commit(db, tx, detail);
            && db1.troves == db.troves && db1.users == db.users
            && db1.deposits == db.deposits && db1.stakes == db.stakes
            && db1.liquidations == db.liquidations && db1.redemptions == db.redemptions
            && db1.global == db.global.(count := db1.global.count, currentSystemState := db1.global.currentSystemState)
  {
    TransactionKeeps(db, tx);
    TransactionKeepsState(db, tx);
    StateKeeps(EnsureTransaction(db, tx));
  }

  // Moving the stake counters inside a started change.
  lemma PrepareKeepsStakeCounts(db: Db, tx: TxId)
    ensures CountChange(Prepare(db, tx)).global.stakes == db.global.stakes
  {
    TransactionKeeps(db, tx);
    StateKeeps(EnsureTransaction(db, tx));
  }

  lemma StakeCountsPastState(db: Db, c: StakeCounts, s: SystemState)
    ensures Current(WithStakeCounts(db, c)) == Current(db)
    ensures HasSystemState(WithStakeCounts(db, c)) <==> HasSystemState(db)
    ensures AddSystemState(WithStakeCounts(db, c), s) == WithStakeCounts(AddSystemState(db, s), c)
  {
  }
}
