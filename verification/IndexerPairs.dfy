// The two events that every deposit operation emits, and why their order does not
// matter to the indexer.
module IndexerPairs {
  import opened Wrappers
  import opened Entities
  import opened IndexerSpec
  import opened IndexerSteps

  // One deposit operation: its transaction emits a UserDepositChanged and a
  // FILGainWithdrawn for the same depositor.
  datatype Operation = Operation(tx: TxId, sender: Address, depositor: Address, newDeposit: nat, collateral: nat,
                                 loss: nat)

  function DepositEvent(o: Operation): Event {
    Event(o.tx, o.sender, UserDepositChanged(o.depositor, o.newDeposit))
  }

  function GainEvent(o: Operation): Event {
    Event(o.tx, o.sender, GainWithdrawn(o.depositor, o.collateral, o.loss))
  }

  function InOrder(o: Operation, gainFirst: bool): seq<Event> {
    if gainFirst then [GainEvent(o), DepositEvent(o)] else [DepositEvent(o), GainEvent(o)]
  }

  // The gain first, then the new amount, with nothing left pending.
  function Settled(db: Db, o: Operation): Db {
    UpdateDeposit(WithdrawGain(db, o.tx, o.depositor, o.collateral, o.loss), o.tx, o.depositor, o.newDeposit)
  }

  function WithPending(db: Db, pending: Option<int>): Db {
    db.(global := db.global.(tmpDepositUpdate := pending))
  }

  // ---------- A pending update is carried along untouched ----------

  lemma TransactionPastPending(db: Db, p: Option<int>, tx: TxId)
    ensures EnsureTransaction(WithPending(db, p), tx) == WithPending(EnsureTransaction(db, tx), p)
  {
  }

  lemma StatePastPending(db: Db, p: Option<int>)
    ensures EnsureSystemState(WithPending(db, p)) == WithPending(EnsureSystemState(db), p)
    ensures Current(WithPending(db, p)) == Current(db)
  {
  }

  lemma RecordPastPending(db: Db, p: Option<int>, s: SystemState)
    ensures AddSystemState(CountChange(WithPending(db, p)), s) == WithPending(AddSystemState(CountChange(db), s), p)
  {
  }

  lemma CommitPastPending(db: Db, p: Option<int>, tx: TxId, detail: Detail)
    ensures Commit(WithPending(db, p), tx, detail) == WithPending(Commit(db, tx, detail), p)
  {
    TransactionPastPending(db, p, tx);
    StatePastPending(EnsureTransaction(db, tx), p);
    StatePastPending(db, p);
    RecordPastPending(Prepare(db, tx), p, Effect(Current(db), detail));
  }

  lemma LookUpPastPending(db: Db, p: Option<int>, a: Address)
    ensures LookUpDeposit(WithPending(db, p), a) == WithPending(LookUpDeposit(db, a), p)
  {
  }

  lemma SetDepositPastPending(db: Db, p: Option<int>, tx: TxId, a: Address, op: DepositOperation, amount: int,
                              gain: Option<int>)
    ensures SetDeposit(WithPending(db, p), tx, a, op, amount, gain)
            == WithPending(SetDeposit(db, tx, a, op, amount, gain), p)
  {
    var detail := DepositChange(a, op, DepositOf(db, a), amount, gain);
    CommitPastPending(db, p, tx, detail);
    WritePastPending(Commit(db, tx, detail), p, a, amount);
  }

  lemma WritePastPending(db: Db, p: Option<int>, a: Address, amount: int)
    ensures var db1 := WithPending(db, p);
            db1.(deposits := db1.deposits[a := amount]) == WithPending(db.(deposits := db.deposits[a := amount]), p)
  {
  }

  lemma SetDepositKeepsPending(db: Db, tx: TxId, a: Address, op: DepositOperation, amount: int, gain: Option<int>)
    ensures SetDeposit(db, tx, a, op, amount, gain).global.tmpDepositUpdate == db.global.tmpDepositUpdate
  {
    CommitKeeps(db, tx, DepositChange(a, op, DepositOf(db, a), amount, gain));
  }

  lemma AfterGainPastPending(db: Db, p: Option<int>, tx: TxId, a: Address, amount: int, collateral: int)
    ensures SetDepositAfterGain(WithPending(db, p), tx, a, amount, collateral)
            == WithPending(SetDepositAfterGain(db, tx, a, amount, collateral), p)
  {
    LookUpPastPending(db, p, a);
    SetDepositPastPending(LookUpDeposit(db, a), p, tx, a, WithdrawCollateralGain, amount, Some(collateral));
  }

  lemma WithdrawPastPending(db: Db, p: Option<int>, tx: TxId, a: Address, collateral: int, loss: int)
    ensures WithdrawGain(WithPending(db, p), tx, a, collateral, loss)
            == WithPending(WithdrawGain(db, tx, a, collateral, loss), p)
  {
    if collateral != 0 || loss != 0 {
      var amount := DepositOf(db, a) - loss;
      GainIsSet(db, tx, a, collateral, loss, amount);
      GainIsSet(WithPending(db, p), tx, a, collateral, loss, amount);
      AfterGainPastPending(db, p, tx, a, amount, collateral);
    }
  }

  lemma AfterGainKeepsPending(db: Db, tx: TxId, a: Address, amount: int, collateral: int)
    ensures SetDepositAfterGain(db, tx, a, amount, collateral).global.tmpDepositUpdate == db.global.tmpDepositUpdate
  {
    SetDepositKeepsPending(LookUpDeposit(db, a), tx, a, WithdrawCollateralGain, amount, Some(collateral));
  }

  lemma WithdrawKeepsPending(db: Db, tx: TxId, a: Address, collateral: int, loss: int)
    ensures WithdrawGain(db, tx, a, collateral, loss).global.tmpDepositUpdate == db.global.tmpDepositUpdate
  {
    AfterGainKeepsPending(db, tx, a, DepositOf(db, a) - loss, collateral);
  }

  lemma ChangeKeepsPending(db: Db, tx: TxId, a: Address, amount: int)
    ensures ChangeDeposit(db, tx, a, amount).global.tmpDepositUpdate == db.global.tmpDepositUpdate
  {
    if amount != DepositOf(db, a) {
      SetDepositKeepsPending(db, tx, a, if amount > DepositOf(db, a) then DepositTokens else WithdrawTokens, amount,
                             None);
    }
  }

  lemma LookUpKeepsGlobal(db: Db, a: Address)
    ensures LookUpDepositAndOwner(db, a).global == db.global
  {
    UserKeepsGlobal(db, a);
    UserKeepsGlobal(LookUpDeposit(db, a), a);
  }

  lemma UserKeepsGlobal(db: Db, a: Address)
    ensures EnsureUser(db, a).global == db.global
  {
  }

  lemma UpdateKeepsPending(db: Db, tx: TxId, a: Address, amount: int)
    ensures UpdateDeposit(db, tx, a, amount).global.tmpDepositUpdate == db.global.tmpDepositUpdate
  {
    LookUpKeepsGlobal(db, a);
    ChangeKeepsPending(LookUpDepositAndOwner(db, a), tx, a, amount);
  }

  // ---------- One operation ----------

  lemma GainFirst(db: Db, o: Operation)
    requires db.global.tmpDepositUpdate == None
    ensures ChangeUserDeposit(WithdrawUserGain(db, o.tx, o.depositor, o.collateral, o.loss), o.tx, o.depositor,
                              o.newDeposit)
            == Settled(db, o)
  {
    var db1 := WithdrawGain(db, o.tx, o.depositor, o.collateral, o.loss);
    WithdrawPastPending(db, Some(0), o.tx, o.depositor, o.collateral, o.loss);
    WithdrawKeepsPending(db, o.tx, o.depositor, o.collateral, o.loss);
    var db2 := WithPending(db1, Some(0));
    assert WithdrawUserGain(db, o.tx, o.depositor, o.collateral, o.loss) == db2;
    assert SwapPending(db2, o.newDeposit) == db1;
  }

  lemma DepositFirst(db: Db, o: Operation)
    requires db.global.tmpDepositUpdate == None
    ensures WithdrawUserGain(ChangeUserDeposit(db, o.tx, o.depositor, o.newDeposit), o.tx, o.depositor, o.collateral,
                             o.loss)
            == Settled(db, o)
  {
    var db1 := SwapPending(db, o.newDeposit);
    assert SwapPending(db1, 0) == db;
  }

  lemma RunTwo(db: Db, e: Event, e': Event)
    requires e.body.IsPoolEvent() && e'.body.IsPoolEvent() && !e.body.IsTroveEvent() && !e'.body.IsTroveEvent()
    ensures RunEnabled(db, [e, e'])
    ensures Run(db, [e, e']) == HandlePoolEvent(HandlePoolEvent(db, e.tx, e.body), e'.tx, e'.body)
  {
    assert [e, e'][1..] == [e'] && [e'][1..] == [];
    var db1 := Handle(db, e);
    assert RunEnabled(db1, [e']);
    assert Run(db1, [e']) == Handle(db1, e');
  }

  // With nothing pending, an operation has the same effect on the whole store in either
  // order, and again leaves nothing pending.
  lemma OrderDoesNotMatter(db: Db, o: Operation, gainFirst: bool)
    requires db.global.tmpDepositUpdate == None
    ensures RunEnabled(db, InOrder(o, gainFirst))
    ensures Run(db, InOrder(o, gainFirst)) == Settled(db, o)
    ensures Settled(db, o).global.tmpDepositUpdate == None
  {
    RunTwo(db, GainEvent(o), DepositEvent(o));
    RunTwo(db, DepositEvent(o), GainEvent(o));
    GainFirst(db, o);
    DepositFirst(db, o);
    WithdrawKeepsPending(db, o.tx, o.depositor, o.collateral, o.loss);
    UpdateKeepsPending(WithdrawGain(db, o.tx, o.depositor, o.collateral, o.loss), o.tx, o.depositor, o.newDeposit);
  }

  // ---------- With an update pending ----------

  // With an update pending, the gain's event makes that update and leaves the new amount
  // pending ...
  lemma GainFirstPending(db: Db, o: Operation)
    requires db.global.tmpDepositUpdate.Some?
    ensures ChangeUserDeposit(WithdrawUserGain(db, o.tx, o.depositor, o.collateral, o.loss), o.tx, o.depositor,
                              o.newDeposit)
            == WithPending(UpdateAfterGain(WithPending(db, None), o, db.global.tmpDepositUpdate.value),
                           Some(o.newDeposit))
  {
    var db1 := WithPending(db, None);
    assert SwapPending(db, 0) == db1;
    WithdrawKeepsPending(db1, o.tx, o.depositor, o.collateral, o.loss);
    UpdateKeepsPending(Withdrawn(db1, o), o.tx, o.depositor, db.global.tmpDepositUpdate.value);
    assert WithdrawUserGain(db, o.tx, o.depositor, o.collateral, o.loss)
        == UpdateAfterGain(db1, o, db.global.tmpDepositUpdate.value);
  }

  // ... and the deposit's event makes its own update, with a dummy value left by the gain.
  lemma DepositFirstPending(db: Db, o: Operation)
    requires db.global.tmpDepositUpdate.Some?
    ensures WithdrawUserGain(ChangeUserDeposit(db, o.tx, o.depositor, o.newDeposit), o.tx, o.depositor, o.collateral,
                             o.loss)
            == WithPending(GainAfterUpdate(WithPending(db, None), o), Some(0))
  {
    var db1 := WithPending(db, None);
    var db2 := UpdateDeposit(db1, o.tx, o.depositor, o.newDeposit);
    assert SwapPending(db, o.newDeposit) == db1;
    UpdateKeepsPending(db1, o.tx, o.depositor, o.newDeposit);
    assert SwapPending(db2, 0) == WithPending(db2, Some(0));
    WithdrawPastPending(db2, Some(0), o.tx, o.depositor, o.collateral, o.loss);
  }

  function Withdrawn(db: Db, o: Operation): Db {
    WithdrawGain(db, o.tx, o.depositor, o.collateral, o.loss)
  }

  function UpdateAfterGain(db: Db, o: Operation, amount: int): Db {
    UpdateDeposit(Withdrawn(db, o), o.tx, o.depositor, amount)
  }

  function GainAfterUpdate(db: Db, o: Operation): Db {
    Withdrawn(UpdateDeposit(db, o.tx, o.depositor, o.newDeposit), o)
  }

  predicate IsNop(o: Operation) {
    o.collateral == 0 && o.loss == 0
  }

  // The store has recorded one more change, of a deposit by this operation.
  ghost predicate RecordsDeposit(db: Db, db': Db, op: DepositOperation) {
    var n := db.global.count.changes;
    && db'.global.count.changes == n + 1
    && n in db'.changes && db'.changes[n].detail.DepositChange? && db'.changes[n].detail.depositOperation == op
    && forall m :: m in db.changes && m != n ==> m in db'.changes && db'.changes[m] == db.changes[m]
  }

  lemma CommitRecordsOne(db: Db, tx: TxId, detail: Detail)
    ensures var n, db1 := db.global.count.changes, Commit(db, tx, detail);
            && db1.global.count.changes == n + 1
            && n in db1.changes && db1.changes[n].detail == detail
            && forall m :: m in db.changes && m != n ==> m in db1.changes && db1.changes[m] == db.changes[m]
  {
    TransactionKeeps(db, tx);
    StateKeeps(EnsureTransaction(db, tx));
  }

  lemma SetDepositRecords(db: Db, tx: TxId, a: Address, op: DepositOperation, amount: int, gain: Option<int>)
    ensures RecordsDeposit(db, SetDeposit(db, tx, a, op, amount, gain), op)
    ensures DepositOf(SetDeposit(db, tx, a, op, amount, gain), a) == amount
  {
    CommitRecordsOne(db, tx, DepositChange(a, op, DepositOf(db, a), amount, gain));
  }

  lemma UserKeepsChanges(db: Db, a: Address)
    ensures EnsureUser(db, a).changes == db.changes && EnsureUser(db, a).global == db.global
    ensures EnsureUser(db, a).deposits == db.deposits
  {
  }

  lemma LookUpKeepsChanges(db: Db, a: Address)
    ensures LookUpDeposit(db, a).changes == db.changes && LookUpDeposit(db, a).global == db.global
    ensures LookUpDeposit(db, a).deposits == db.deposits
  {
    UserKeepsChanges(db, a);
  }

  lemma LookUpWithOwnerKeepsChanges(db: Db, a: Address)
    ensures LookUpDepositAndOwner(db, a).changes == db.changes && LookUpDepositAndOwner(db, a).global == db.global
    ensures LookUpDepositAndOwner(db, a).deposits == db.deposits
  {
    LookUpKeepsChanges(db, a);
    UserKeepsChanges(LookUpDeposit(db, a), a);
  }

  lemma AfterGainRecords(db: Db, tx: TxId, a: Address, amount: int, collateral: int)
    ensures RecordsDeposit(db, SetDepositAfterGain(db, tx, a, amount, collateral), WithdrawCollateralGain)
    ensures DepositOf(SetDepositAfterGain(db, tx, a, amount, collateral), a) == amount
  {
    LookUpKeepsChanges(db, a);
    SetDepositRecords(LookUpDeposit(db, a), tx, a, WithdrawCollateralGain, amount, Some(collateral));
  }

  lemma WithdrawnRecords(db: Db, o: Operation)
    ensures DepositOf(Withdrawn(db, o), o.depositor) == DepositOf(db, o.depositor) - o.loss
    ensures !IsNop(o) ==> RecordsDeposit(db, Withdrawn(db, o), WithdrawCollateralGain)
  {
    if !IsNop(o) {
      var amount := DepositOf(db, o.depositor) - o.loss;
      GainIsSet(db, o.tx, o.depositor, o.collateral, o.loss, amount);
      AfterGainRecords(db, o.tx, o.depositor, amount, o.collateral);
    }
  }

  function OperationFor(before: int, after: int): DepositOperation {
    if after > before then DepositTokens else WithdrawTokens
  }

  lemma ChangeRecords(db: Db, tx: TxId, a: Address, amount: int)
    ensures DepositOf(ChangeDeposit(db, tx, a, amount), a) == amount
    ensures amount != DepositOf(db, a) ==>
              RecordsDeposit(db, ChangeDeposit(db, tx, a, amount), OperationFor(DepositOf(db, a), amount))
  {
    if amount != DepositOf(db, a) {
      SetDepositRecords(db, tx, a, OperationFor(DepositOf(db, a), amount), amount, None);
    }
  }

  lemma UpdateRecords(db: Db, tx: TxId, a: Address, amount: int)
    ensures DepositOf(UpdateDeposit(db, tx, a, amount), a) == amount
    ensures amount != DepositOf(db, a) ==>
              RecordsDeposit(db, UpdateDeposit(db, tx, a, amount), OperationFor(DepositOf(db, a), amount))
  {
    LookUpWithOwnerKeepsChanges(db, a);
    ChangeRecords(LookUpDepositAndOwner(db, a), tx, a, amount);
  }

  // Two records in a row: the first one stays.
  lemma FirstRecordStays(db: Db, db1: Db, db2: Db, op: DepositOperation, op': DepositOperation)
    requires RecordsDeposit(db, db1, op) && RecordsDeposit(db1, db2, op')
    ensures var n := db.global.count.changes;
            n in db2.changes && db2.changes[n].detail.DepositChange? && db2.changes[n].detail.depositOperation == op
  {
  }

  // Different deposits, or a different first change, tell the orders apart.
  lemma OrdersDiffer(db: Db, o: Operation, pending: int)
    requires pending != o.newDeposit - o.loss || (!IsNop(o) && DepositOf(db, o.depositor) != o.newDeposit)
    ensures UpdateAfterGain(db, o, pending) != GainAfterUpdate(db, o)
  {
    var a, n := o.depositor, db.global.count.changes;
    var db1, db2 := Withdrawn(db, o), UpdateDeposit(db, o.tx, a, o.newDeposit);
    WithdrawnRecords(db, o);
    UpdateRecords(db1, o.tx, a, pending);
    UpdateRecords(db, o.tx, a, o.newDeposit);
    WithdrawnRecords(db2, o);
    if pending == o.newDeposit - o.loss {
      FirstRecordStays(db, db1, UpdateAfterGain(db, o, pending), WithdrawCollateralGain,
                       OperationFor(DepositOf(db1, a), pending));
      FirstRecordStays(db, db2, GainAfterUpdate(db, o), OperationFor(DepositOf(db, a), o.newDeposit),
                       WithdrawCollateralGain);
    }
  }

  // ---------- Looking up the owner early or late ----------

  function WithUsers(db: Db, users: map<Address, User>): Db {
    db.(users := users)
  }

  lemma TransactionPastUsers(db: Db, users: map<Address, User>, tx: TxId)
    ensures EnsureTransaction(WithUsers(db, users), tx) == WithUsers(EnsureTransaction(db, tx), users)
  {
  }

  lemma StatePastUsers(db: Db, users: map<Address, User>)
    ensures EnsureSystemState(WithUsers(db, users)) == WithUsers(EnsureSystemState(db), users)
    ensures Current(WithUsers(db, users)) == Current(db)
  {
  }

  lemma RecordPastUsers(db: Db, users: map<Address, User>, s: SystemState)
    ensures AddSystemState(CountChange(WithUsers(db, users)), s) == WithUsers(AddSystemState(CountChange(db), s), users)
  {
  }

  lemma CommitPastUsers(db: Db, users: map<Address, User>, tx: TxId, detail: Detail)
    ensures Commit(WithUsers(db, users), tx, detail) == WithUsers(Commit(db, tx, detail), users)
  {
    TransactionPastUsers(db, users, tx);
    StatePastUsers(EnsureTransaction(db, tx), users);
    StatePastUsers(db, users);
    RecordPastUsers(Prepare(db, tx), users, Effect(Current(db), detail));
  }

  lemma WritePastUsers(db: Db, users: map<Address, User>, a: Address, amount: int)
    ensures var db1 := WithUsers(db, users);
            db1.(deposits := db1.deposits[a := amount]) == WithUsers(db.(deposits := db.deposits[a := amount]), users)
  {
  }

  lemma SetDepositPastUsers(db: Db, users: map<Address, User>, tx: TxId, a: Address, op: DepositOperation, amount: int,
                            gain: Option<int>)
    ensures SetDeposit(WithUsers(db, users), tx, a, op, amount, gain)
            == WithUsers(SetDeposit(db, tx, a, op, amount, gain), users)
  {
    var detail := DepositChange(a, op, DepositOf(db, a), amount, gain);
    CommitPastUsers(db, users, tx, detail);
    WritePastUsers(Commit(db, tx, detail), users, a, amount);
  }

  lemma SetDepositKeepsUsers(db: Db, tx: TxId, a: Address, op: DepositOperation, amount: int, gain: Option<int>)
    ensures SetDeposit(db, tx, a, op, amount, gain).users == db.users
  {
    CommitKeeps(db, tx, DepositChange(a, op, DepositOf(db, a), amount, gain));
  }

  lemma EnsuredUsers(db: Db, db': Db, a: Address)
    requires db'.users == db.users
    ensures EnsureUser(db', a) == WithUsers(db', EnsureUser(db, a).users)
  {
  }

  lemma UserPastSetDeposit(db: Db, tx: TxId, a: Address, op: DepositOperation, amount: int, gain: Option<int>)
    ensures SetDeposit(EnsureUser(db, a), tx, a, op, amount, gain)
            == EnsureUser(SetDeposit(db, tx, a, op, amount, gain), a)
  {
    var users := EnsureUser(db, a).users;
    EnsuredUsers(db, db, a);
    SetDepositPastUsers(db, users, tx, a, op, amount, gain);
    SetDepositKeepsUsers(db, tx, a, op, amount, gain);
    EnsuredUsers(db, SetDeposit(db, tx, a, op, amount, gain), a);
  }

  lemma LookUpAgain(db: Db, a: Address)
    ensures LookUpDeposit(LookUpDepositAndOwner(db, a), a) == LookUpDepositAndOwner(db, a)
  {
    LookUpWithOwnerKeepsChanges(db, a);
  }

  lemma GainAfterLookUp(db: Db, tx: TxId, a: Address, amount: int, collateral: int)
    ensures SetDepositAfterGain(LookUpDepositAndOwner(db, a), tx, a, amount, collateral)
            == LookUpDepositAndOwner(SetDepositAfterGain(db, tx, a, amount, collateral), a)
  {
    var db1 := LookUpDeposit(db, a);
    LookUpAgain(db, a);
    UserPastSetDeposit(db1, tx, a, WithdrawCollateralGain, amount, Some(collateral));
    SetDepositIsStored(db1, tx, a, WithdrawCollateralGain, amount, Some(collateral));
  }

  lemma SetDepositIsStored(db: Db, tx: TxId, a: Address, op: DepositOperation, amount: int, gain: Option<int>)
    ensures var db1 := SetDeposit(db, tx, a, op, amount, gain);
            LookUpDeposit(db1, a) == db1
  {
  }

  // With the same final deposit, and no gain or no change but the gain, both orders agree.
  lemma OrdersAgree(db: Db, o: Operation, pending: int)
    requires pending == o.newDeposit - o.loss && (IsNop(o) || DepositOf(db, o.depositor) == o.newDeposit)
    ensures UpdateAfterGain(db, o, pending) == GainAfterUpdate(db, o)
  {
    if IsNop(o) {
      NopOrdersAgree(db, o);
      assert pending == o.newDeposit;
    } else {
      UpdateNothingAfterGain(db, o, pending);
      GainAfterNoUpdate(db, o, pending);
      GainAfterLookUp(db, o.tx, o.depositor, pending, o.collateral);
    }
  }

  lemma NopOrdersAgree(db: Db, o: Operation)
    requires IsNop(o)
    ensures UpdateAfterGain(db, o, o.newDeposit) == GainAfterUpdate(db, o)
  {
    NoGain(db, o.tx, o.depositor);
    NoGain(UpdateDeposit(db, o.tx, o.depositor, o.newDeposit), o.tx, o.depositor);
  }

  lemma UpdateNothingAfterGain(db: Db, o: Operation, amount: int)
    requires !IsNop(o) && amount == DepositOf(db, o.depositor) - o.loss
    ensures UpdateAfterGain(db, o, amount)
         == LookUpDepositAndOwner(SetDepositAfterGain(db, o.tx, o.depositor, amount, o.collateral), o.depositor)
  {
    GainIsSet(db, o.tx, o.depositor, o.collateral, o.loss, amount);
    UpdateToSame(db, o.tx, o.depositor, amount, o.collateral);
  }

  lemma GainAfterNoUpdate(db: Db, o: Operation, amount: int)
    requires !IsNop(o) && DepositOf(db, o.depositor) == o.newDeposit && amount == o.newDeposit - o.loss
    ensures GainAfterUpdate(db, o)
         == SetDepositAfterGain(LookUpDepositAndOwner(db, o.depositor), o.tx, o.depositor, amount, o.collateral)
  {
    NothingToUpdate(db, o.tx, o.depositor, o.newDeposit);
    LookUpWithOwnerKeepsChanges(db, o.depositor);
    GainIsSet(LookUpDepositAndOwner(db, o.depositor), o.tx, o.depositor, o.collateral, o.loss, amount);
  }

  lemma UpdateToSame(db: Db, tx: TxId, a: Address, amount: int, collateral: int)
    ensures var db1 := SetDepositAfterGain(db, tx, a, amount, collateral);
            UpdateDeposit(db1, tx, a, amount) == LookUpDepositAndOwner(db1, a)
  {
    AfterGainRecords(db, tx, a, amount, collateral);
    NothingToUpdate(SetDepositAfterGain(db, tx, a, amount, collateral), tx, a, amount);
  }

  lemma NothingToUpdate(db: Db, tx: TxId, a: Address, amount: int)
    requires DepositOf(db, a) == amount
    ensures UpdateDeposit(db, tx, a, amount) == LookUpDepositAndOwner(db, a)
  {
    LookUpWithOwnerKeepsChanges(db, a);
  }

  // Nothing is pending; or the new deposit is zero, the pending one is what the gain leaves
  // of it, and there is no gain or no change but the gain's. For a pending amount that is
  // not negative, the loss is zero then, and so is that amount.
  predicate OrderIndependent(db: Db, o: Operation) {
    var pending := db.global.tmpDepositUpdate;
    pending.None? ||
    (o.newDeposit == 0 && pending.value + o.loss == 0 && (IsNop(o) || DepositOf(db, o.depositor) == 0))
  }

  // The order of the two events does not matter under exactly this condition.
  lemma OrderDoesNotMatterIff(db: Db, o: Operation)
    ensures RunEnabled(db, InOrder(o, true)) && RunEnabled(db, InOrder(o, false))
    ensures Run(db, InOrder(o, true)) == Run(db, InOrder(o, false)) <==> OrderIndependent(db, o)
  {
    RunTwo(db, GainEvent(o), DepositEvent(o));
    RunTwo(db, DepositEvent(o), GainEvent(o));
    if db.global.tmpDepositUpdate.None? {
      GainFirst(db, o);
      DepositFirst(db, o);
    } else {
      GainFirstPending(db, o);
      DepositFirstPending(db, o);
      PendingOrders(WithPending(db, None), o, db.global.tmpDepositUpdate.value);
    }
  }

  lemma PendingOrders(db: Db, o: Operation, pending: int)
    requires db.global.tmpDepositUpdate.None?
    ensures WithPending(UpdateAfterGain(db, o, pending), Some(o.newDeposit))
            == WithPending(GainAfterUpdate(db, o), Some(0))
            <==> o.newDeposit == 0 && pending + o.loss == 0 && (IsNop(o) || DepositOf(db, o.depositor) == 0)
  {
    BothLeaveNothingPending(db, o, pending);
    PendingTellsApart(UpdateAfterGain(db, o, pending), GainAfterUpdate(db, o), o.newDeposit);
    if o.newDeposit == 0 {
      if pending + o.loss == 0 && (IsNop(o) || DepositOf(db, o.depositor) == 0) {
        OrdersAgree(db, o, pending);
      } else {
        OrdersDiffer(db, o, pending);
      }
    }
  }

  lemma BothLeaveNothingPending(db: Db, o: Operation, pending: int)
    requires db.global.tmpDepositUpdate.None?
    ensures UpdateAfterGain(db, o, pending).global.tmpDepositUpdate.None?
    ensures GainAfterUpdate(db, o).global.tmpDepositUpdate.None?
  {
    WithdrawKeepsPending(db, o.tx, o.depositor, o.collateral, o.loss);
    UpdateKeepsPending(Withdrawn(db, o), o.tx, o.depositor, pending);
    UpdateKeepsPending(db, o.tx, o.depositor, o.newDeposit);
    WithdrawKeepsPending(UpdateDeposit(db, o.tx, o.depositor, o.newDeposit), o.tx, o.depositor, o.collateral, o.loss);
  }

  lemma PendingTellsApart(db: Db, db': Db, pending: int)
    requires db.global.tmpDepositUpdate.None? && db'.global.tmpDepositUpdate.None?
    ensures WithPending(db, Some(pending)) == WithPending(db', Some(0)) <==> pending == 0 && db == db'
  {
    if WithPending(db, Some(pending)) == WithPending(db', Some(0)) {
      assert WithPending(WithPending(db, Some(pending)), None) == db;
      assert WithPending(WithPending(db', Some(0)), None) == db';
    }
  }

  // ---------- Other events leave what is pending alone ----------

  lemma LiquidationKeepsPending(db: Db, tx: TxId, sender: Address)
    ensures EnsureLiquidation(db, tx, sender).global.tmpDepositUpdate == db.global.tmpDepositUpdate
  {
    TransactionKeeps(db, tx);
    UserKeepsGlobal(EnsureTransaction(db, tx), sender);
  }

  lemma RedemptionKeepsPending(db: Db, tx: TxId, sender: Address)
    ensures EnsureRedemption(db, tx, sender).global.tmpDepositUpdate == db.global.tmpDepositUpdate
  {
    TransactionKeeps(db, tx);
    UserKeepsGlobal(EnsureTransaction(db, tx), sender);
  }

  lemma GroupKeepsPending(db: Db, tx: TxId, sender: Address, op: TroveOperation)
    ensures OpenGroup(db, tx, sender, op).global.tmpDepositUpdate == db.global.tmpDepositUpdate
  {
    LiquidationKeepsPending(db, tx, sender);
    RedemptionKeepsPending(db, tx, sender);
  }

  lemma LookUpTroveKeepsPending(db: Db, a: Address)
    ensures LookUpTrove(db, a).global.tmpDepositUpdate == db.global.tmpDepositUpdate
  {
    UserKeepsGlobal(db, a);
  }

  lemma CommitKeepsPending(db: Db, tx: TxId, detail: Detail)
    ensures Commit(db, tx, detail).global.tmpDepositUpdate == db.global.tmpDepositUpdate
  {
    CommitKeeps(db, tx, detail);
  }

  lemma StoreKeepsPending(db: Db, op: TroveOperation, a: Address, collateral: int, debt: int, stake: nat)
    ensures StoreTrove(db, op, a, collateral, debt, stake).global.tmpDepositUpdate == db.global.tmpDepositUpdate
  {
  }

  lemma UpdateTroveKeepsPending(db: Db, tx: TxId, sender: Address, op: TroveOperation, a: Address,
                                collateral: int, debt: int, stake: nat)
    ensures UpdateTrove(db, tx, sender, op, a, collateral, debt, stake).global.tmpDepositUpdate
            == db.global.tmpDepositUpdate
  {
    var db1 := LookUpTrove(db, a);
    LookUpTroveKeepsPending(db, a);
    if IsTroveChange(db, a, collateral, debt) {
      var db2 := OpenGroup(db1, tx, sender, op);
      var detail := TroveChange(DeltaOf(db2, op, a, collateral, debt));
      GroupKeepsPending(db1, tx, sender, op);
      CommitKeepsPending(db2, tx, detail);
      StoreKeepsPending(Commit(db2, tx, detail), op, a, collateral, debt, stake);
    }
  }

  lemma TroveEventKeepsPending(db: Db, tx: TxId, sender: Address, e: Body)
    requires Enabled(db, Event(tx, sender, e)) && e.IsTroveEvent()
    ensures HandleTroveEvent(db, tx, sender, e).global.tmpDepositUpdate == db.global.tmpDepositUpdate
  {
    match e {
      case TroveUpdated(op, a, collateral, debt, stake) =>
        UpdateTroveKeepsPending(db, tx, sender, op, a, collateral, debt, stake);
      case TroveLiquidated(a) =>
        UpdateTroveKeepsPending(db, tx, sender, AccrueRewards, a, AccruedCollateral(db, a), AccruedDebt(db, a), 0);
      case LiquidationFinished(_, _, _, _) => LiquidationKeepsPending(db, tx, sender);
      case RedemptionFinished(_, _, _, _) => RedemptionKeepsPending(db, tx, sender);
      case LTermsUpdated(_, _) =>
      case BorrowingFeePaid(_) =>
    }
  }

  lemma SetStakeKeepsPending(db: Db, tx: TxId, a: Address, op: StakeOperation, amount: int, issuance: int,
                             redemption: int)
    ensures SetStake(db, tx, a, op, amount, issuance, redemption).global.tmpDepositUpdate == db.global.tmpDepositUpdate
  {
    UserKeepsGlobal(db, a);
    CommitKeepsPending(LookUpStake(db, a), tx,
                       StakeChange(StakeId(db, a), op, StakeOf(db, a), amount, issuance, redemption));
  }

  lemma StakeEventKeepsPending(db: Db, tx: TxId, e: Body)
    requires e.IsStakeEvent()
    ensures HandleStakeEvent(db, tx, e).global.tmpDepositUpdate == db.global.tmpDepositUpdate
  {
    match e {
      case StakeChanged(a, amount) =>
        SetStakeKeepsPending(db, tx, a, StakeOperationOf(StakeOf(db, a), amount), amount, 0, 0);
      case StakeGainsWithdrawn(a, issuance, redemption) =>
        SetStakeKeepsPending(db, tx, a, GainsWithdrawn, StakeOf(db, a), issuance, redemption);
    }
  }

  lemma StateKeepsPending(db: Db)
    ensures EnsureSystemState(db).global.tmpDepositUpdate == db.global.tmpDepositUpdate
  {
    StateKeeps(db);
  }

  lemma UpdatePriceKeepsPending(db: Db, tx: TxId, price: int)
    ensures UpdatePrice(db, tx, price).global.tmpDepositUpdate == db.global.tmpDepositUpdate
  {
    var old' := Current(db).price;
    StateKeepsPending(db);
    if old'.Some? && price != old'.value {
      CommitKeepsPending(EnsureSystemState(db), tx, PriceChange(price - old'.value));
    }
  }

  lemma SurplusKeepsPending(db: Db, tx: TxId, a: Address, balance: int)
    ensures UpdateCollSurplus(db, tx, a, balance).global.tmpDepositUpdate == db.global.tmpDepositUpdate
  {
    var db1 := EnsureUser(db, a);
    UserKeepsGlobal(db, a);
    CommitKeepsPending(db1, tx, CollSurplusChange(a, UserOf(db1, a).collSurplus, balance));
  }

  lemma OtherEventKeepsPending(db: Db, e: Event)
    requires Enabled(db, e) && !e.body.IsPoolEvent()
    ensures Handle(db, e).global.tmpDepositUpdate == db.global.tmpDepositUpdate
  {
    if e.body.IsTroveEvent() {
      TroveEventKeepsPending(db, e.tx, e.sender, e.body);
    } else if e.body.IsStakeEvent() {
      StakeEventKeepsPending(db, e.tx, e.body);
    } else if e.body.PriceUpdated? {
      UpdatePriceKeepsPending(db, e.tx, e.body.price);
    } else {
      SurplusKeepsPending(db, e.tx, e.body.account, e.body.balance);
    }
  }

  // ---------- Any stream ----------

  // A stream consists of deposit operations and of events of all other kinds.
  datatype Item = Pair(operation: Operation) | Other(event: Event) {
    predicate Valid() {
      Other? ==> !event.body.IsPoolEvent()
    }

    function Events(gainFirst: bool): seq<Event> {
      if Pair? then InOrder(operation, gainFirst) else [event]
    }
  }

  // The events of all items, those of each operation in the order chosen for it.
  function Stream(items: seq<Item>, gainFirst: seq<bool>): seq<Event>
    requires |gainFirst| == |items|
  {
    if items == [] then [] else items[0].Events(gainFirst[0]) + Stream(items[1..], gainFirst[1..])
  }

  lemma {:induction false} RunConcat(db: Db, es: seq<Event>, fs: seq<Event>)
    requires RunEnabled(db, es)
    ensures RunEnabled(db, es + fs) <==> RunEnabled(Run(db, es), fs)
    ensures RunEnabled(db, es + fs) ==> Run(db, es + fs) == Run(Run(db, es), fs)
    decreases es
  {
    if es == [] {
      assert es + fs == fs;
    } else {
      assert (es + fs)[0] == es[0] && (es + fs)[1..] == es[1..] + fs;
      RunConcat(Handle(db, es[0]), es[1..], fs);
    }
  }

  lemma RunOne(db: Db, e: Event, fs: seq<Event>)
    ensures RunEnabled(db, [e]) <==> Enabled(db, e)
    ensures Enabled(db, e) ==> Run(db, [e]) == Handle(db, e)
    ensures !Enabled(db, e) ==> !RunEnabled(db, [e] + fs)
  {
    assert [e][1..] == [] && ([e] + fs)[0] == e;
    if Enabled(db, e) {
      assert RunEnabled(Handle(db, e), []);
    }
  }

  // One item has the same effect in either order, if it can be handled at all.
  lemma ItemSettles(db: Db, item: Item, gainFirst: bool, gainFirst': bool, rest: seq<Event>)
    requires item.Valid() && db.global.tmpDepositUpdate.None?
    requires RunEnabled(db, item.Events(gainFirst) + rest)
    ensures RunEnabled(db, item.Events(gainFirst)) && RunEnabled(db, item.Events(gainFirst'))
    ensures Run(db, item.Events(gainFirst')) == Run(db, item.Events(gainFirst))
    ensures Run(db, item.Events(gainFirst)).global.tmpDepositUpdate.None?
  {
    match item
    case Pair(o) =>
      OrderDoesNotMatter(db, o, gainFirst);
      OrderDoesNotMatter(db, o, gainFirst');
    case Other(e) =>
      RunOne(db, e, rest);
      OtherEventKeepsPending(db, e);
  }

  // In a stream of all events, the two events of every operation can be swapped
  // independently of all the others.
  lemma {:induction false} PairsCommute(db: Db, items: seq<Item>, gainFirst: seq<bool>, gainFirst': seq<bool>)
    requires |gainFirst| == |gainFirst'| == |items| && db.global.tmpDepositUpdate.None?
    requires forall item :: item in items ==> item.Valid()
    requires RunEnabled(db, Stream(items, gainFirst))
    ensures RunEnabled(db, Stream(items, gainFirst'))
    ensures Run(db, Stream(items, gainFirst')) == Run(db, Stream(items, gainFirst))
    ensures Run(db, Stream(items, gainFirst)).global.tmpDepositUpdate.None?
    decreases items
  {
    if items == [] {
      assert Stream(items, gainFirst) == [] && Stream(items, gainFirst') == [];
    } else {
      var es, es' := items[0].Events(gainFirst[0]), items[0].Events(gainFirst'[0]);
      var rest, rest' := Stream(items[1..], gainFirst[1..]), Stream(items[1..], gainFirst'[1..]);
      ItemSettles(db, items[0], gainFirst[0], gainFirst'[0], rest);
      RunConcat(db, es, rest);
      RunConcat(db, es', rest');
      PairsCommute(Run(db, es), items[1..], gainFirst[1..], gainFirst'[1..]);
    }
  }
}
