// When liquidation events carry (0, 0), as the contracts emit them, no liquidation leaves
// anything in its trove, and the conservation laws hold without a remainder.
module IndexerLiquidations {
  import opened Wrappers
  import opened Entities
  import opened IndexerSpec
  import opened IndexerSteps
  import opened MapSums
  import opened Books
  import opened IndexerBooks

  predicate EmptiesItsTrove(d: Detail) {
    Liquidates(d) ==> d.delta.debtAfter == 0 && d.delta.collateralAfter == 0
  }

  predicate AllEmpty(changes: map<int, Change>) {
    forall n :: n in changes ==> EmptiesItsTrove(changes[n].detail)
  }

  // The changes of one store are those of the other and one more, or one changed.
  predicate Extended(changes: map<int, Change>, changes': map<int, Change>, n: int) {
    && n in changes' && changes'.Keys == changes.Keys + {n}
    && forall m :: m in changes && m != n ==> changes'[m] == changes[m]
  }

  lemma ExtendedIsEmpty(changes: map<int, Change>, changes': map<int, Change>, n: int)
    requires AllEmpty(changes) && Extended(changes, changes', n) && EmptiesItsTrove(changes'[n].detail)
    ensures AllEmpty(changes')
  {
  }

  predicate StaysEmpty(db: Db, db': Db) {
    AllEmpty(db.changes) ==> AllEmpty(db'.changes)
  }

  lemma CommitStaysEmpty(db: Db, tx: TxId, detail: Detail)
    requires EmptiesItsTrove(detail)
    ensures StaysEmpty(db, Commit(db, tx, detail))
  {
    CommitExtends(db, tx, detail);
    if AllEmpty(db.changes) {
      ExtendedIsEmpty(db.changes, Commit(db, tx, detail).changes, db.global.count.changes);
    }
  }

  lemma CommitExtends(db: Db, tx: TxId, detail: Detail)
    ensures var n, db1 := db.global.count.changes, Commit(db, tx, detail);
            Extended(db.changes, db1.changes, n) && db1.changes[n].detail == detail
  {
    TransactionKeeps(db, tx);
    StateKeeps(EnsureTransaction(db, tx));
  }

  // ---------- Steps that record nothing ----------

  lemma UserKeepsChanges(db: Db, a: Address)
    ensures EnsureUser(db, a).changes == db.changes
  {
  }

  lemma LiquidationKeepsChanges(db: Db, tx: TxId, sender: Address)
    ensures EnsureLiquidation(db, tx, sender).changes == db.changes
  {
    TransactionKeeps(db, tx);
    UserKeepsChanges(EnsureTransaction(db, tx), sender);
  }

  lemma RedemptionKeepsChanges(db: Db, tx: TxId, sender: Address)
    ensures EnsureRedemption(db, tx, sender).changes == db.changes
  {
    TransactionKeeps(db, tx);
    UserKeepsChanges(EnsureTransaction(db, tx), sender);
  }

  lemma GroupKeepsChanges(db: Db, tx: TxId, sender: Address, op: TroveOperation)
    ensures OpenGroup(db, tx, sender, op).changes == db.changes
  {
    LiquidationKeepsChanges(db, tx, sender);
    RedemptionKeepsChanges(db, tx, sender);
  }

  lemma LookUpTroveKeepsChanges(db: Db, a: Address)
    ensures LookUpTrove(db, a).changes == db.changes
  {
    UserKeepsChanges(db, a);
  }

  // ---------- Handlers ----------

  // An update whose operation is no liquidation, or which empties the trove.
  lemma UpdateTroveStaysEmpty(db: Db, tx: TxId, sender: Address, op: TroveOperation, a: Address,
                              collateral: int, debt: int, stake: nat)
    requires op.IsLiquidation() ==> collateral == 0 && debt == 0
    ensures StaysEmpty(db, UpdateTrove(db, tx, sender, op, a, collateral, debt, stake))
  {
    var db1 := LookUpTrove(db, a);
    LookUpTroveKeepsChanges(db, a);
    if IsTroveChange(db, a, collateral, debt) {
      var db2 := OpenGroup(db1, tx, sender, op);
      GroupKeepsChanges(db1, tx, sender, op);
      CommitStaysEmpty(db2, tx, TroveChange(DeltaOf(db2, op, a, collateral, debt)));
    }
  }

  lemma FeeStaysEmpty(db: Db, fee: int)
    requires LastIsTroveChange(db)
    ensures StaysEmpty(db, PayBorrowingFee(db, fee))
  {
    if AllEmpty(db.changes) {
      ExtendedIsEmpty(db.changes, PayBorrowingFee(db, fee).changes, db.global.count.changes - 1);
    }
  }

  predicate CarriesNothing(e: Body) {
    e.TroveUpdated? && e.operation.IsLiquidation() ==> e.collateral == 0 && e.debt == 0
  }

  lemma TroveEventStaysEmpty(db: Db, tx: TxId, sender: Address, e: Body)
    requires Enabled(db, Event(tx, sender, e)) && e.IsTroveEvent() && CarriesNothing(e)
    ensures StaysEmpty(db, HandleTroveEvent(db, tx, sender, e))
  {
    match e {
      case TroveUpdated(op, a, collateral, debt, stake) =>
        UpdateTroveStaysEmpty(db, tx, sender, op, a, collateral, debt, stake);
      case TroveLiquidated(a) =>
        UpdateTroveStaysEmpty(db, tx, sender, AccrueRewards, a, AccruedCollateral(db, a), AccruedDebt(db, a), 0);
      case LiquidationFinished(_, _, _, _) => LiquidationKeepsChanges(db, tx, sender);
      case RedemptionFinished(_, _, _, _) => RedemptionKeepsChanges(db, tx, sender);
      case LTermsUpdated(_, _) =>
      case BorrowingFeePaid(fee) => FeeStaysEmpty(db, fee);
    }
  }

  lemma SetDepositStaysEmpty(db: Db, tx: TxId, a: Address, op: DepositOperation, amount: int, gain: Option<int>)
    ensures StaysEmpty(db, SetDeposit(db, tx, a, op, amount, gain))
  {
    CommitStaysEmpty(db, tx, DepositChange(a, op, DepositOf(db, a), amount, gain));
  }

  lemma LookUpDepositKeepsChanges(db: Db, a: Address)
    ensures LookUpDeposit(db, a).changes == db.changes && LookUpDepositAndOwner(db, a).changes == db.changes
  {
    UserKeepsChanges(db, a);
    UserKeepsChanges(LookUpDeposit(db, a), a);
  }

  lemma ChangeDepositStaysEmpty(db: Db, tx: TxId, a: Address, amount: int)
    ensures StaysEmpty(db, ChangeDeposit(db, tx, a, amount))
  {
    if amount != DepositOf(db, a) {
      SetDepositStaysEmpty(db, tx, a, if amount > DepositOf(db, a) then DepositTokens else WithdrawTokens, amount,
                           None);
    }
  }

  lemma UpdateDepositStaysEmpty(db: Db, tx: TxId, a: Address, amount: int)
    ensures StaysEmpty(db, UpdateDeposit(db, tx, a, amount))
  {
    LookUpDepositKeepsChanges(db, a);
    ChangeDepositStaysEmpty(LookUpDepositAndOwner(db, a), tx, a, amount);
  }

  lemma AfterGainStaysEmpty(db: Db, tx: TxId, a: Address, amount: int, collateral: int)
    ensures StaysEmpty(db, SetDepositAfterGain(db, tx, a, amount, collateral))
  {
    var db1 := LookUpDeposit(db, a);
    LookUpDepositKeepsChanges(db, a);
    SetDepositStaysEmpty(db1, tx, a, WithdrawCollateralGain, amount, Some(collateral));
    SameThenStaysEmpty(db, db1, SetDepositAfterGain(db, tx, a, amount, collateral));
  }

  lemma SameThenStaysEmpty(db: Db, db': Db, db'': Db)
    requires db'.changes == db.changes && StaysEmpty(db', db'')
    ensures StaysEmpty(db, db'')
  {
  }

  lemma WithdrawGainStaysEmpty(db: Db, tx: TxId, a: Address, collateral: int, loss: int)
    ensures StaysEmpty(db, WithdrawGain(db, tx, a, collateral, loss))
  {
    var amount := DepositOf(db, a) - loss;
    GainCases(db, tx, a, collateral, loss, amount);
    AfterGainStaysEmpty(db, tx, a, amount, collateral);
    EitherStaysEmpty(db, SetDepositAfterGain(db, tx, a, amount, collateral), WithdrawGain(db, tx, a, collateral, loss));
  }

  lemma EitherStaysEmpty(db: Db, db': Db, db'': Db)
    requires StaysEmpty(db, db') && (db'' == db || db'' == db')
    ensures StaysEmpty(db, db'')
  {
  }

  lemma PoolEventStaysEmpty(db: Db, tx: TxId, e: Body)
    requires e.IsPoolEvent()
    ensures StaysEmpty(db, HandlePoolEvent(db, tx, e))
  {
    match e {
      case UserDepositChanged(a, amount) => UpdateDepositStaysEmpty(SwapPending(db, amount), tx, a, amount);
      case GainWithdrawn(a, collateral, loss) =>
        var db1 := SwapPending(db, 0);
        WithdrawGainStaysEmpty(db1, tx, a, collateral, loss);
        UpdateDepositStaysEmpty(WithdrawGain(db1, tx, a, collateral, loss), tx, a, db.global.tmpDepositUpdate.GetOr(0));
    }
  }

  lemma SetStakeStaysEmpty(db: Db, tx: TxId, a: Address, op: StakeOperation, amount: int, issuance: int,
                           redemption: int)
    ensures StaysEmpty(db, SetStake(db, tx, a, op, amount, issuance, redemption))
  {
    UserKeepsChanges(db, a);
    CommitStaysEmpty(LookUpStake(db, a), tx,
                     StakeChange(StakeId(db, a), op, StakeOf(db, a), amount, issuance, redemption));
  }

  lemma StakeEventStaysEmpty(db: Db, tx: TxId, e: Body)
    requires e.IsStakeEvent()
    ensures StaysEmpty(db, HandleStakeEvent(db, tx, e))
  {
    match e {
      case StakeChanged(a, amount) =>
        SetStakeStaysEmpty(db, tx, a, StakeOperationOf(StakeOf(db, a), amount), amount, 0, 0);
      case StakeGainsWithdrawn(a, issuance, redemption) =>
        SetStakeStaysEmpty(db, tx, a, GainsWithdrawn, StakeOf(db, a), issuance, redemption);
    }
  }

  lemma UpdatePriceStaysEmpty(db: Db, tx: TxId, price: int)
    ensures StaysEmpty(db, UpdatePrice(db, tx, price))
  {
    var old' := Current(db).price;
    StateKeeps(db);
    if old'.Some? && price != old'.value {
      CommitStaysEmpty(EnsureSystemState(db), tx, PriceChange(price - old'.value));
    }
  }

  lemma SurplusStaysEmpty(db: Db, tx: TxId, a: Address, balance: int)
    ensures StaysEmpty(db, UpdateCollSurplus(db, tx, a, balance))
  {
    var db1 := EnsureUser(db, a);
    UserKeepsChanges(db, a);
    CommitStaysEmpty(db1, tx, CollSurplusChange(a, UserOf(db1, a).collSurplus, balance));
  }

  lemma HandleStaysEmpty(db: Db, e: Event)
    requires Enabled(db, e) && CarriesNothing(e.body)
    ensures StaysEmpty(db, Handle(db, e))
  {
    if e.body.IsTroveEvent() {
      TroveEventStaysEmpty(db, e.tx, e.sender, e.body);
    } else if e.body.IsPoolEvent() {
      PoolEventStaysEmpty(db, e.tx, e.body);
    } else if e.body.IsStakeEvent() {
      StakeEventStaysEmpty(db, e.tx, e.body);
    } else if e.body.PriceUpdated? {
      UpdatePriceStaysEmpty(db, e.tx, e.body.price);
    } else {
      SurplusStaysEmpty(db, e.tx, e.body.account, e.body.balance);
    }
  }

  lemma {:induction false} RunStaysEmpty(db: Db, events: seq<Event>)
    requires RunEnabled(db, events) && AllEmpty(db.changes)
    requires forall e :: e in events ==> CarriesNothing(e.body)
    ensures AllEmpty(Run(db, events).changes)
    decreases events
  {
    if events == [] {
      assert Run(db, events) == db;
    } else {
      HandleStaysEmpty(db, events[0]);
      RunStaysEmpty(Handle(db, events[0]), events[1..]);
    }
  }

  // ---------- Conservation without a remainder ----------

  // If every liquidation event carries (0, 0), then on the whole run the system's debt and
  // collateral are those of the troves, plus what liquidations redistributed and the troves
  // have not accrued yet.
  lemma ConservationWithoutRemainder(db0: Db, events: seq<Event>)
    requires Fresh(db0) && RunEnabled(db0, events)
    requires forall e :: e in events ==> CarriesNothing(e.body)
    ensures var db := Run(db0, events);
            var h := HistoryOf(db);
            && LiquidationsEmpty(h)
            && Current(db).totalDebt - Sum(Debts(db.troves)) == Total(h, RedistributedDebt) - Total(h, AccruedDebtOf)
            && Current(db).totalCollateral - Sum(Collaterals(db.troves))
               == Total(h, RedistributedCollateral) - Total(h, AccruedCollateralOf)
  {
    RunStaysEmpty(db0, events);
    EmptyHistory(Run(db0, events));
    DebtAndCollateralConservation(db0, events);
  }

  lemma EmptyHistory(db: Db)
    requires AllEmpty(db.changes)
    ensures LiquidationsEmpty(HistoryOf(db))
  {
    forall n | n in db.changes && Liquidates(db.changes[n].detail)
      ensures db.changes[n].detail.delta.debtAfter == 0 && db.changes[n].detail.delta.collateralAfter == 0
    {
      assert EmptiesItsTrove(db.changes[n].detail);
    }
  }
}
