// Every event drives the books of the store by postings; hence, on every run, the
// history is gapless and final, and the running totals agree with the entities.
module IndexerBooks {
  import opened Wrappers
  import opened Entities
  import opened IndexerSpec
  import opened IndexerSteps
  import opened MapSums
  import opened Books

  function Collaterals(troves: map<Address, Trove>): map<Address, int> {
    map a | a in troves :: troves[a].collateral
  }

  function Debts(troves: map<Address, Trove>): map<Address, int> {
    map a | a in troves :: troves[a].debt
  }

  function Surpluses(users: map<Address, User>): map<Address, int> {
    map a | a in users :: users[a].collSurplus
  }

  function HistoryOf(db: Db): History {
    History(db.systemStates, db.changes, db.global.count.systemStates, db.global.count.changes,
            db.global.currentSystemState)
  }

  ghost function BooksOf(db: Db): Books {
    Books(HistoryOf(db), Sum(Collaterals(db.troves)), Sum(Debts(db.troves)),
          Sum(db.deposits), Sum(db.stakes), Sum(Surpluses(db.users)))
  }

  // A stored stake is the one its owner points at.
  ghost predicate Owned(users: map<Address, User>, stakes: map<Address, int>) {
    && (forall a :: a in stakes ==> a in users && users[a].stake == Some(a))
    && (forall a :: a in users ==> users[a].stake == None || users[a].stake == Some(a))
  }

  ghost predicate StakesOwned(db: Db) {
    Owned(db.users, db.stakes)
  }

  // ---------- Steps that post nothing ----------

  ghost predicate Silent(db: Db, db': Db) {
    && HistoryOf(db') == HistoryOf(db)
    && db'.troves == db.troves && db'.deposits == db.deposits && db'.stakes == db.stakes
    && SilentUsers(db.users, db'.users, db.stakes)
  }

  ghost predicate SilentUsers(users: map<Address, User>, users': map<Address, User>, stakes: map<Address, int>) {
    Sum(Surpluses(users')) == Sum(Surpluses(users)) && (Owned(users, stakes) ==> Owned(users', stakes))
  }

  lemma NewUserIsSilent(users: map<Address, User>, stakes: map<Address, int>, a: Address)
    requires a !in users
    ensures SilentUsers(users, users[a := NEW_USER], stakes)
  {
    SumUpdate(Surpluses(users), a, 0);
    assert Surpluses(users[a := NEW_USER]) == Surpluses(users)[a := 0];
  }

  // Changing a user in anything but its surplus.
  lemma ReferenceIsSilent(users: map<Address, User>, stakes: map<Address, int>, a: Address, u: User)
    requires a in users && u.collSurplus == users[a].collSurplus
    requires u.stake == users[a].stake || u.stake == Some(a)
    ensures SilentUsers(users, users[a := u], stakes)
  {
    assert Surpluses(users[a := u]) == Surpluses(users);
  }

  lemma UserIsSilent(db: Db, a: Address)
    ensures Silent(db, EnsureUser(db, a))
  {
    if a !in db.users {
      NewUserIsSilent(db.users, db.stakes, a);
    }
  }

  lemma TransactionIsSilent(db: Db, tx: TxId)
    ensures Silent(db, EnsureTransaction(db, tx))
  {
  }

  lemma LiquidationIsSilent(db: Db, tx: TxId, sender: Address)
    ensures Silent(db, EnsureLiquidation(db, tx, sender))
  {
    TransactionIsSilent(db, tx);
    UserIsSilent(EnsureTransaction(db, tx), sender);
  }

  lemma RedemptionIsSilent(db: Db, tx: TxId, sender: Address)
    ensures Silent(db, EnsureRedemption(db, tx, sender))
  {
    TransactionIsSilent(db, tx);
    UserIsSilent(EnsureTransaction(db, tx), sender);
  }

  lemma GroupIsSilent(db: Db, tx: TxId, sender: Address, op: TroveOperation)
    ensures Silent(db, OpenGroup(db, tx, sender, op))
  {
    if op.IsLiquidation() {
      LiquidationIsSilent(db, tx, sender);
    } else if op.IsRedemption() {
      RedemptionIsSilent(db, tx, sender);
    }
  }

  lemma LookUpTroveIsSilent(db: Db, a: Address)
    ensures Silent(db, LookUpTrove(db, a))
  {
    if a !in db.troves {
      UserIsSilent(db, a);
    }
  }

  lemma LookUpDepositIsSilent(db: Db, a: Address)
    ensures Silent(db, LookUpDeposit(db, a))
  {
    if a !in db.deposits {
      UserIsSilent(db, a);
    }
  }

  lemma LookUpStakeIsSilent(db: Db, a: Address)
    ensures Silent(db, LookUpStake(db, a))
  {
    UserIsSilent(db, a);
    if !HasStake(db, a) {
      var users := EnsureUser(db, a).users;
      ReferenceIsSilent(users, db.stakes, a, users[a].(stake := Some(a)));
    }
  }

  // ---------- Steps that post ----------

  lemma CommitRecords(db: Db, tx: TxId, detail: Detail)
    ensures HistoryOf(Commit(db, tx, detail)) == Recorded(HistoryOf(db), tx, detail)
  {
    TransactionIsSilent(db, tx);
    assert HistoryOf(Prepare(db, tx)) == Opened(HistoryOf(db));
  }

  predicate Posts(b: Books, ps: seq<Posting>, b': Books) {
    CanPostAll(b, ps) && PostAll(b, ps) == b'
  }

  lemma PostOne(b: Books, p: Posting)
    requires CanPost(b, p)
    ensures CanPostAll(b, [p]) && PostAll(b, [p]) == Post(b, p)
  {
    var ps := [p];
    assert ps[0] == p && ps[1..] == [];
  }

  lemma {:induction false} PostMore(b: Books, ps: seq<Posting>, qs: seq<Posting>)
    requires CanPostAll(b, ps) && CanPostAll(PostAll(b, ps), qs)
    ensures CanPostAll(b, ps + qs) && PostAll(b, ps + qs) == PostAll(PostAll(b, ps), qs)
    decreases ps
  {
    if ps == [] {
      assert ps + qs == qs;
    } else {
      assert (ps + qs)[0] == ps[0] && (ps + qs)[1..] == ps[1..] + qs;
      PostMore(Post(b, ps[0]), ps[1..], qs);
    }
  }

  // Some postings lead from the books of one store to those of the other.
  ghost predicate Driven(db: Db, db': Db) {
    StakesOwned(db) ==> StakesOwned(db') && exists ps :: Posts(BooksOf(db), ps, BooksOf(db'))
  }

  lemma SilentIsDriven(db: Db, db': Db)
    requires Silent(db, db')
    ensures Driven(db, db')
  {
    assert Posts(BooksOf(db), [], BooksOf(db'));
  }

  lemma PostIsDriven(db: Db, db': Db, p: Posting)
    requires CanPost(BooksOf(db), p) && Post(BooksOf(db), p) == BooksOf(db')
    requires StakesOwned(db) ==> StakesOwned(db')
    ensures Driven(db, db')
  {
    PostOne(BooksOf(db), p);
    assert Posts(BooksOf(db), [p], BooksOf(db'));
  }

  lemma SilentThenDriven(db: Db, db': Db, db'': Db)
    requires Silent(db, db') && Driven(db', db'')
    ensures Driven(db, db'')
  {
    SilentIsDriven(db, db');
    DrivenTransitive(db, db', db'');
  }

  lemma DrivenTransitive(db: Db, db': Db, db'': Db)
    requires Driven(db, db') && Driven(db', db'')
    ensures Driven(db, db'')
  {
    if StakesOwned(db) {
      var ps :| Posts(BooksOf(db), ps, BooksOf(db'));
      var qs :| Posts(BooksOf(db'), qs, BooksOf(db''));
      PostMore(BooksOf(db), ps, qs);
      assert Posts(BooksOf(db), ps + qs, BooksOf(db''));
    }
  }

  // ---------- Troves ----------

  lemma StoredSums(troves: map<Address, Trove>, a: Address, t: Trove)
    ensures Sum(Collaterals(troves[a := t]))
            == Sum(Collaterals(troves)) + (t.collateral - (if a in troves then troves[a].collateral else 0))
    ensures Sum(Debts(troves[a := t])) == Sum(Debts(troves)) + (t.debt - (if a in troves then troves[a].debt else 0))
  {
    SumUpdate(Collaterals(troves), a, t.collateral);
    SumUpdate(Debts(troves), a, t.debt);
    assert Collaterals(troves[a := t]) == Collaterals(troves)[a := t.collateral];
    assert Debts(troves[a := t]) == Debts(troves)[a := t.debt];
  }

  // A recorded trove change together with the trove it describes.
  lemma TroveIsDriven(db: Db, db': Db, tx: TxId, d: TroveDelta, a: Address, t: Trove)
    requires Current(db).price.Some?
    requires d.collateralBefore == TroveOf(db, a).collateral && d.collateralAfter == t.collateral
    requires d.debtBefore == TroveOf(db, a).debt && d.debtAfter == t.debt
    requires HistoryOf(db') == Recorded(HistoryOf(db), tx, TroveChange(d))
    requires db'.troves == db.troves[a := t]
    requires db'.users == db.users && db'.deposits == db.deposits && db'.stakes == db.stakes
    ensures Driven(db, db')
  {
    StoredSums(db.troves, a, t);
    PostIsDriven(db, db', Entry(tx, TroveChange(d)));
  }

  lemma RecordTroveIsDriven(db: Db, tx: TxId, d: TroveDelta, op: TroveOperation, a: Address,
                            collateral: int, debt: int, stake: nat)
    requires Current(db).price.Some?
    requires d.collateralBefore == TroveOf(db, a).collateral && d.collateralAfter == collateral
    requires d.debtBefore == TroveOf(db, a).debt && d.debtAfter == debt
    ensures Driven(db, StoreTrove(Commit(db, tx, TroveChange(d)), op, a, collateral, debt, stake))
  {
    var db1 := Commit(db, tx, TroveChange(d));
    CommitRecords(db, tx, TroveChange(d));
    CommitKeeps(db, tx, TroveChange(d));
    TroveIsDriven(db, StoreTrove(db1, op, a, collateral, debt, stake), tx, d, a,
                  StoredTrove(db1.global.redistributed, op, collateral, debt, stake));
  }

  lemma UpdateTroveIsDriven(db: Db, tx: TxId, sender: Address, op: TroveOperation, a: Address,
                            collateral: int, debt: int, stake: nat)
    requires TroveChangeEnabled(db, op, a, collateral, debt)
    ensures Driven(db, UpdateTrove(db, tx, sender, op, a, collateral, debt, stake))
  {
    var db1 := LookUpTrove(db, a);
    LookUpTroveIsSilent(db, a);
    SilentIsDriven(db, db1);
    LookUpKeeps(db, a);
    if IsTroveChange(db, a, collateral, debt) {
      var db2 := OpenGroup(db1, tx, sender, op);
      GroupIsSilent(db1, tx, sender, op);
      SilentIsDriven(db1, db2);
      GroupKeeps(db1, tx, sender, op);
      RecordTroveIsDriven(db2, tx, DeltaOf(db2, op, a, collateral, debt), op, a, collateral, debt, stake);
      var db3 := StoreTrove(Commit(db2, tx, TroveChange(DeltaOf(db2, op, a, collateral, debt))), op, a, collateral,
                            debt, stake);
      DrivenTransitive(db1, db2, db3);
      DrivenTransitive(db, db1, db3);
    }
  }

  // ---------- Prices ----------

  lemma StateIsDriven(db: Db)
    ensures Driven(db, EnsureSystemState(db))
  {
    assert HistoryOf(EnsureSystemState(db)) == Opened(HistoryOf(db));
    PostIsDriven(db, EnsureSystemState(db), FirstState);
  }

  lemma FillPriceIsDriven(db: Db, price: int)
    requires Current(db).price.None?
    ensures Driven(db, FillPrice(db, price))
  {
    assert HistoryOf(EnsureSystemState(db)) == Opened(HistoryOf(db));
    FilledIsDriven(db, EnsureSystemState(db), FillPrice(db, price), price);
  }

  lemma FilledIsDriven(db: Db, db1: Db, db': Db, price: int)
    requires Current(db).price.None?
    requires HistoryOf(db1) == Opened(HistoryOf(db)) && HasSystemState(db1)
    requires db1.users == db.users && db1.troves == db.troves && db1.deposits == db.deposits && db1.stakes == db.stakes
    requires db' == db1.(systemStates :=
               db1.systemStates[db1.global.currentSystemState.value := Current(db).(price := Some(price))])
    ensures Driven(db, db')
  {
    PostIsDriven(db, db', FirstPrice(price));
  }

  lemma PriceChangeIsDriven(db: Db, tx: TxId, change: int)
    ensures Driven(db, Commit(db, tx, PriceChange(change)))
  {
    CommitRecords(db, tx, PriceChange(change));
    CommitKeeps(db, tx, PriceChange(change));
    PostIsDriven(db, Commit(db, tx, PriceChange(change)), Entry(tx, PriceChange(change)));
  }

  lemma UpdatePriceIsDriven(db: Db, tx: TxId, price: int)
    ensures Driven(db, UpdatePrice(db, tx, price))
  {
    var old' := Current(db).price;
    if old'.None? {
      FillPriceIsDriven(db, price);
    } else {
      StateIsDriven(db);
      if price != old'.value {
        var db1 := EnsureSystemState(db);
        PriceChangeIsDriven(db1, tx, price - old'.value);
        DrivenTransitive(db, db1, Commit(db1, tx, PriceChange(price - old'.value)));
      }
    }
  }

  // ---------- Deposits ----------

  lemma DepositIsDriven(db: Db, db': Db, tx: TxId, a: Address, d: Detail)
    requires d.DepositChange? && d.before == At(db.deposits, a)
    requires HistoryOf(db') == Recorded(HistoryOf(db), tx, d)
    requires db'.deposits == db.deposits[a := d.after]
    requires db'.users == db.users && db'.troves == db.troves && db'.stakes == db.stakes
    ensures Driven(db, db')
  {
    SumUpdate(db.deposits, a, d.after);
    PostIsDriven(db, db', Entry(tx, d));
  }

  lemma SetDepositIsDriven(db: Db, tx: TxId, a: Address, op: DepositOperation, amount: int, gain: Option<int>)
    ensures Driven(db, SetDeposit(db, tx, a, op, amount, gain))
  {
    var detail := DepositChange(a, op, DepositOf(db, a), amount, gain);
    CommitRecords(db, tx, detail);
    CommitKeeps(db, tx, detail);
    DepositIsDriven(db, SetDeposit(db, tx, a, op, amount, gain), tx, a, detail);
  }

  lemma LookUpDepositAndOwnerIsDriven(db: Db, a: Address)
    ensures Driven(db, LookUpDepositAndOwner(db, a))
  {
    LookUpDepositIsSilent(db, a);
    UserIsSilent(LookUpDeposit(db, a), a);
    SilentIsDriven(db, LookUpDeposit(db, a));
    SilentThenDriven(db, LookUpDeposit(db, a), LookUpDepositAndOwner(db, a)) by {
      SilentIsDriven(LookUpDeposit(db, a), LookUpDepositAndOwner(db, a));
    }
  }

  lemma ChangeDepositIsDriven(db: Db, tx: TxId, a: Address, amount: int)
    ensures Driven(db, ChangeDeposit(db, tx, a, amount))
  {
    if amount == DepositOf(db, a) {
      SilentIsDriven(db, db);
    } else {
      SetDepositIsDriven(db, tx, a, if amount > DepositOf(db, a) then DepositTokens else WithdrawTokens, amount, None);
    }
  }

  lemma UpdateDepositIsDriven(db: Db, tx: TxId, a: Address, amount: int)
    ensures Driven(db, UpdateDeposit(db, tx, a, amount))
  {
    LookUpDepositAndOwnerIsDriven(db, a);
    ChangeDepositIsDriven(LookUpDepositAndOwner(db, a), tx, a, amount);
    DrivenTransitive(db, LookUpDepositAndOwner(db, a), UpdateDeposit(db, tx, a, amount));
  }

  lemma WithdrawGainIsDriven(db: Db, tx: TxId, a: Address, collateral: int, loss: int)
    ensures Driven(db, WithdrawGain(db, tx, a, collateral, loss))
  {
    var amount := DepositOf(db, a) - loss;
    GainCases(db, tx, a, collateral, loss, amount);
    DepositAfterGainIsDriven(db, tx, a, amount, collateral);
    EitherIsDriven(db, SetDepositAfterGain(db, tx, a, amount, collateral), WithdrawGain(db, tx, a, collateral, loss));
  }

  lemma EitherIsDriven(db: Db, db': Db, db'': Db)
    requires Driven(db, db') && (db'' == db || db'' == db')
    ensures Driven(db, db'')
  {
    SilentIsDriven(db, db);
  }

  lemma DepositAfterGainIsDriven(db: Db, tx: TxId, a: Address, amount: int, collateral: int)
    ensures Driven(db, SetDepositAfterGain(db, tx, a, amount, collateral))
  {
    LookUpDepositIsSilent(db, a);
    SetDepositIsDriven(LookUpDeposit(db, a), tx, a, WithdrawCollateralGain, amount, Some(collateral));
    SilentThenDriven(db, LookUpDeposit(db, a), SetDepositAfterGain(db, tx, a, amount, collateral));
  }

  lemma SwapIsDriven(db: Db, value: int)
    ensures Driven(db, SwapPending(db, value))
  {
    SilentIsDriven(db, SwapPending(db, value));
  }

  lemma UserDepositIsDriven(db: Db, tx: TxId, a: Address, amount: int)
    ensures Driven(db, ChangeUserDeposit(db, tx, a, amount))
  {
    SwapIsDriven(db, amount);
    if db.global.tmpDepositUpdate.Some? {
      var db1 := SwapPending(db, amount);
      UpdateDepositIsDriven(db1, tx, a, amount);
      DrivenTransitive(db, db1, UpdateDeposit(db1, tx, a, amount));
    }
  }

  lemma UserGainIsDriven(db: Db, tx: TxId, a: Address, collateral: int, loss: int)
    ensures Driven(db, WithdrawUserGain(db, tx, a, collateral, loss))
  {
    var pending, db1 := db.global.tmpDepositUpdate, SwapPending(db, 0);
    var db2 := WithdrawGain(db1, tx, a, collateral, loss);
    SwapIsDriven(db, 0);
    WithdrawGainIsDriven(db1, tx, a, collateral, loss);
    DrivenTransitive(db, db1, db2);
    if pending.Some? {
      UpdateDepositIsDriven(db2, tx, a, pending.value);
      DrivenTransitive(db, db2, UpdateDeposit(db2, tx, a, pending.value));
    }
  }

  // ---------- Surpluses and stakes ----------

  lemma SurplusWritten(users: map<Address, User>, stakes: map<Address, int>, a: Address, balance: int)
    requires a in users
    ensures var users' := users[a := users[a].(collSurplus := balance)];
            && Sum(Surpluses(users')) == Sum(Surpluses(users)) + (balance - users[a].collSurplus)
            && (Owned(users, stakes) ==> Owned(users', stakes))
  {
    SumUpdate(Surpluses(users), a, balance);
    assert Surpluses(users[a := users[a].(collSurplus := balance)]) == Surpluses(users)[a := balance];
  }

  lemma SurplusIsDriven(db: Db, db': Db, tx: TxId, a: Address, d: Detail)
    requires a in db.users && d.CollSurplusChange? && d.before == db.users[a].collSurplus
    requires HistoryOf(db') == Recorded(HistoryOf(db), tx, d)
    requires db'.users == db.users[a := db.users[a].(collSurplus := d.after)]
    requires db'.deposits == db.deposits && db'.troves == db.troves && db'.stakes == db.stakes
    ensures Driven(db, db')
  {
    SurplusWritten(db.users, db.stakes, a, d.after);
    PostIsDriven(db, db', Entry(tx, d));
  }

  lemma CollSurplusIsDriven(db: Db, tx: TxId, a: Address, balance: int)
    ensures Driven(db, UpdateCollSurplus(db, tx, a, balance))
  {
    var db1 := EnsureUser(db, a);
    UserIsSilent(db, a);
    SilentIsDriven(db, db1);
    if balance != UserOf(db, a).collSurplus {
      var detail := CollSurplusChange(a, UserOf(db1, a).collSurplus, balance);
      CommitRecords(db1, tx, detail);
      CommitKeeps(db1, tx, detail);
      SurplusIsDriven(db1, SetCollSurplus(db1, tx, a, balance), tx, a, detail);
      DrivenTransitive(db, db1, SetCollSurplus(db1, tx, a, balance));
    }
  }

  lemma StakeIsDriven(db: Db, db': Db, tx: TxId, a: Address, d: Detail)
    requires StakesOwned(db) ==> a in db.users && db.users[a].stake == Some(a)
    requires d.StakeChange? && d.before == At(db.stakes, a)
    requires HistoryOf(db') == Recorded(HistoryOf(db), tx, d)
    requires db'.stakes == db.stakes[a := d.after]
    requires db'.deposits == db.deposits && db'.troves == db.troves && db'.users == db.users
    ensures Driven(db, db')
  {
    SumUpdate(db.stakes, a, d.after);
    PostIsDriven(db, db', Entry(tx, d));
  }

  lemma SetStakeIsDriven(db: Db, tx: TxId, a: Address, op: StakeOperation, amount: int, issuance: int, redemption: int)
    ensures Driven(db, SetStake(db, tx, a, op, amount, issuance, redemption))
  {
    if StakesOwned(db) {
      var db1 := LookUpStake(db, a);
      LookUpStakeIsSilent(db, a);
      SilentIsDriven(db, db1);
      assert StakeId(db, a) == a && StakeOf(db, a) == At(db.stakes, a);
      var detail := StakeChange(a, op, StakeOf(db, a), amount, issuance, redemption);
      CommitRecords(db1, tx, detail);
      CommitKeeps(db1, tx, detail);
      var db2 := SetStake(db, tx, a, op, amount, issuance, redemption);
      StakeIsDriven(db1, db2, tx, a, detail);
      DrivenTransitive(db, db1, db2);
    }
  }

  lemma UpdateStakeIsDriven(db: Db, tx: TxId, a: Address, amount: int)
    ensures Driven(db, UpdateStake(db, tx, a, amount))
  {
    var op := StakeOperationOf(StakeOf(db, a), amount);
    var db1 := SetStake(db, tx, a, op, amount, 0, 0);
    SetStakeIsDriven(db, tx, a, op, amount, 0, 0);
    SilentIsDriven(db1, UpdateStake(db, tx, a, amount));
    DrivenTransitive(db, db1, UpdateStake(db, tx, a, amount));
  }

  // ---------- Any event ----------

  lemma TroveEventIsDriven(db: Db, tx: TxId, sender: Address, e: Body)
    requires Enabled(db, Event(tx, sender, e)) && e.IsTroveEvent()
    ensures Driven(db, HandleTroveEvent(db, tx, sender, e))
  {
    match e {
      case TroveUpdated(op, a, collateral, debt, stake) =>
        UpdateTroveIsDriven(db, tx, sender, op, a, collateral, debt, stake);
      case TroveLiquidated(a) =>
        UpdateTroveIsDriven(db, tx, sender, AccrueRewards, a, AccruedCollateral(db, a), AccruedDebt(db, a), 0);
      case LiquidationFinished(_, _, _, _) =>
        LiquidationIsSilent(db, tx, sender);
        SilentIsDriven(db, FinishLiquidation(db, tx, sender, e));
      case RedemptionFinished(_, _, _, _) =>
        RedemptionIsSilent(db, tx, sender);
        SilentIsDriven(db, FinishRedemption(db, tx, sender, e));
      case LTermsUpdated(c, d) =>
        SilentIsDriven(db, UpdateTotalRedistributed(db, c, d));
      case BorrowingFeePaid(fee) =>
        PostIsDriven(db, PayBorrowingFee(db, fee), Fee(fee));
    }
  }

  lemma PoolEventIsDriven(db: Db, tx: TxId, e: Body)
    requires e.IsPoolEvent()
    ensures Driven(db, HandlePoolEvent(db, tx, e))
  {
    if e.UserDepositChanged? {
      UserDepositIsDriven(db, tx, e.depositor, e.newDeposit);
    } else {
      UserGainIsDriven(db, tx, e.depositor, e.collateral, e.loss);
    }
  }

  lemma StakeEventIsDriven(db: Db, tx: TxId, e: Body)
    requires e.IsStakeEvent()
    ensures Driven(db, HandleStakeEvent(db, tx, e))
  {
    if e.StakeChanged? {
      UpdateStakeIsDriven(db, tx, e.staker, e.newStake);
    } else {
      SilentIsDriven(db, db);
      SetStakeIsDriven(db, tx, e.staker, GainsWithdrawn, StakeOf(db, e.staker), e.debtTokenGain, e.collateralGain);
    }
  }

  lemma HandleIsDriven(db: Db, e: Event)
    requires Enabled(db, e)
    ensures Driven(db, Handle(db, e))
  {
    if e.body.IsTroveEvent() {
      TroveEventIsDriven(db, e.tx, e.sender, e.body);
    } else if e.body.IsPoolEvent() {
      PoolEventIsDriven(db, e.tx, e.body);
    } else if e.body.IsStakeEvent() {
      StakeEventIsDriven(db, e.tx, e.body);
    } else if e.body.PriceUpdated? {
      UpdatePriceIsDriven(db, e.tx, e.body.price);
    } else {
      CollSurplusIsDriven(db, e.tx, e.body.account, e.body.balance);
    }
  }

  ghost predicate Consistent(db: Db) {
    StakesOwned(db) && Sound(BooksOf(db))
  }

  lemma HandleKeepsConsistent(db: Db, e: Event)
    requires Enabled(db, e) && Consistent(db)
    ensures Consistent(Handle(db, e)) && Extends(HistoryOf(db), HistoryOf(Handle(db, e)))
  {
    HandleIsDriven(db, e);
    var ps :| Posts(BooksOf(db), ps, BooksOf(Handle(db, e)));
    PostAllKeepsSound(BooksOf(db), ps);
  }

  // From a consistent store, every run keeps it consistent and only extends its history.
  lemma {:induction false} RunKeepsConsistent(db: Db, events: seq<Event>)
    requires RunEnabled(db, events) && Consistent(db)
    ensures Consistent(Run(db, events)) && Extends(HistoryOf(db), HistoryOf(Run(db, events)))
    decreases events
  {
    if events == [] {
      ExtendsReflexive(HistoryOf(db));
    } else {
      HandleKeepsConsistent(db, events[0]);
      RunKeepsConsistent(Handle(db, events[0]), events[1..]);
      ExtendsTransitive(HistoryOf(db), HistoryOf(Handle(db, events[0])), HistoryOf(Run(db, events)));
    }
  }

  lemma FreshIsConsistent(db0: Db)
    requires Fresh(db0)
    ensures Consistent(db0)
  {
    assert Collaterals(db0.troves) == map[] && Debts(db0.troves) == map[] && Surpluses(db0.users) == map[];
  }

  // ---------- The laws on every run of the indexer ----------

  // Either nothing has happened, or there is one more system state than changes and
  // change n leads from state n to state n + 1.
  lemma GaplessHistory(db0: Db, events: seq<Event>)
    requires Fresh(db0) && RunEnabled(db0, events)
    ensures var db := Run(db0, events);
            var g := db.global;
            && ((g.count.systemStates == 0 && g.count.changes == 0) || g.count.systemStates == g.count.changes + 1)
            && (forall n :: n in db.systemStates <==> 0 <= n < g.count.systemStates)
            && (forall n :: n in db.changes <==> 0 <= n < g.count.changes)
            && (forall n :: n in db.changes ==>
                  && db.changes[n].systemStateBefore == n && db.changes[n].systemStateAfter == n + 1
                  && Leads(db.systemStates[n], db.changes[n], db.systemStates[n + 1]))
  {
    FreshIsConsistent(db0);
    RunKeepsConsistent(db0, events);
  }

  // Whatever comes later, superseded system states and completed changes stay as they are,
  // and the last change can only get its fee.
  lemma HistoryIsFinal(db0: Db, events: seq<Event>, later: seq<Event>)
    requires Fresh(db0) && RunEnabled(db0, events) && RunEnabled(Run(db0, events), later)
    ensures var db, db' := Run(db0, events), Run(Run(db0, events), later);
            && (forall n :: 0 <= n < db.global.count.changes ==>
                  n in db.systemStates && n in db'.systemStates && db'.systemStates[n] == db.systemStates[n])
            && (forall n :: 0 <= n < db.global.count.changes - 1 ==>
                  n in db.changes && n in db'.changes && db'.changes[n] == db.changes[n])
            && var n := db.global.count.changes - 1;
               n >= 0 ==> n in db.changes && n in db'.changes && SameButFee(db.changes[n], db'.changes[n])
  {
    FreshIsConsistent(db0);
    RunKeepsConsistent(db0, events);
    RunKeepsConsistent(Run(db0, events), later);
  }

  predicate LiquidationsEmpty(h: History) {
    forall n :: n in h.changes && Liquidates(h.changes[n].detail) ==>
      h.changes[n].detail.delta.debtAfter == 0 && h.changes[n].detail.delta.collateralAfter == 0
  }

  // The system's debt and collateral are those of the troves, plus what liquidations
  // redistributed and the troves have not accrued yet. If no liquidation leaves
  // anything in its trove, the last term is zero.
  lemma DebtAndCollateralConservation(db0: Db, events: seq<Event>)
    requires Fresh(db0) && RunEnabled(db0, events)
    ensures var db := Run(db0, events);
            var h := HistoryOf(db);
            && Current(db).totalDebt - Sum(Debts(db.troves))
               == Total(h, RedistributedDebt) - Total(h, AccruedDebtOf) - Total(h, LeftoverDebt)
            && Current(db).totalCollateral - Sum(Collaterals(db.troves))
               == Total(h, RedistributedCollateral) - Total(h, AccruedCollateralOf) - Total(h, LeftoverCollateral)
            && (LiquidationsEmpty(h) ==> Total(h, LeftoverDebt) == 0 && Total(h, LeftoverCollateral) == 0)
  {
    FreshIsConsistent(db0);
    RunKeepsConsistent(db0, events);
    var h := HistoryOf(Run(db0, events));
    if LiquidationsEmpty(h) && h.changeCount >= 0 {
      NothingLeftOver(h, h.changeCount);
    }
  }

  // Deposits and realised losses account for the pool and everything it has offset;
  // stakes and surpluses add up to their pools.
  lemma PoolConservation(db0: Db, events: seq<Event>)
    requires Fresh(db0) && RunEnabled(db0, events)
    ensures var db := Run(db0, events);
            var h := HistoryOf(db);
            && Sum(db.deposits) + Total(h, RealisedLoss) == Current(db).tokensInStabilityPool + Total(h, OffsetByPool)
            && Sum(db.stakes) == Current(db).totalProtocolTokensStaked
            && Sum(Surpluses(db.users)) == Current(db).collSurplusPoolBalance
  {
    FreshIsConsistent(db0);
    RunKeepsConsistent(db0, events);
  }
}
