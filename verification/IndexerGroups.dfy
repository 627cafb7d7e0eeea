// Transactions, and liquidation and redemption records, which are opened by the first trove
// change that needs them and finished by a later event: on every run their numbers are
// gapless, changes refer to stored ones, finished records are final, and fees add up.
module IndexerGroups {
  import opened Wrappers
  import opened Entities
  import opened IndexerSpec
  import opened IndexerSteps
  import opened MapSums

  function Fees(redemptions: map<int, Redemption>): map<int, int> {
    map n | n in redemptions :: redemptions[n].fee
  }

  // Numbered from zero without gaps; only the last one can be open.
  ghost predicate Numbered(keys: set<int>, count: int, current: Option<int>) {
    && count >= 0
    && (forall n :: n in keys <==> 0 <= n < count)
    && (current.Some? ==> 0 <= current.value == count - 1)
  }

  ghost predicate LiquidationsSound(ls: map<int, Liquidation>, count: int, current: Option<int>) {
    Numbered(ls.Keys, count, current) && forall n :: n in ls ==> ls[n].sequenceNumber == n
  }

  // The fees of all records make up the running total; an open record has none yet.
  ghost predicate RedemptionsSound(rs: map<int, Redemption>, count: int, current: Option<int>, feesPaid: int) {
    && Numbered(rs.Keys, count, current)
    && (forall n :: n in rs ==> rs[n].sequenceNumber == n)
    && (current.Some? ==> rs[current.value].fee == 0)
    && Sum(Fees(rs)) == feesPaid
  }

  // A trove change belongs to a stored liquidation exactly when it is part of one, and
  // likewise for redemptions.
  predicate Linked(d: Detail, ls: map<int, Liquidation>, rs: map<int, Redemption>) {
    d.TroveChange? ==>
      var t := d.delta;
      && (t.operation.LiquidateInNormalMode? || t.operation.LiquidateInRecoveryMode? <==> t.liquidation.Some?)
      && (t.liquidation.Some? ==> t.liquidation.value in ls)
      && (t.operation.RedeemCollateral? <==> t.redemption.Some?)
      && (t.redemption.Some? ==> t.redemption.value in rs)
  }

  // What the records and the links to them consist of.
  datatype Groups = Groups(
    liquidations: map<int, Liquidation>,
    liquidationCount: int,
    currentLiquidation: Option<int>,
    redemptions: map<int, Redemption>,
    redemptionCount: int,
    currentRedemption: Option<int>,
    feesPaid: int,
    changes: map<int, Change>,
    transactions: map<TxId, Transaction>,
    transactionCount: int
  )

  function GroupsOf(db: Db): Groups {
    Groups(db.liquidations, db.global.count.liquidations, db.global.currentLiquidation,
           db.redemptions, db.global.count.redemptions, db.global.currentRedemption,
           db.global.feesPaid.redemption, db.changes, db.transactions, db.global.count.transactions)
  }

  predicate AllLinked(g: Groups) {
    forall n :: n in g.changes ==> Linked(g.changes[n].detail, g.liquidations, g.redemptions)
  }

  // As many transactions as numbers, and no number twice.
  ghost predicate TransactionsSound(ts: map<TxId, Transaction>, count: int) {
    && |ts| == count
    && (forall tx :: tx in ts ==> 0 <= ts[tx].sequenceNumber < count)
    && (forall tx, tx' :: tx in ts && tx' in ts && tx != tx' ==> ts[tx].sequenceNumber != ts[tx'].sequenceNumber)
  }

  // Every change and record was made in a stored transaction.
  ghost predicate AllInTransactions(g: Groups) {
    && (forall n :: n in g.changes ==> g.changes[n].transaction in g.transactions)
    && (forall n :: n in g.liquidations ==> g.liquidations[n].transaction in g.transactions)
    && (forall n :: n in g.redemptions ==> g.redemptions[n].transaction in g.transactions)
  }

  ghost predicate Sound(g: Groups) {
    && TransactionsSound(g.transactions, g.transactionCount)
    && AllInTransactions(g)
    && LiquidationsSound(g.liquidations, g.liquidationCount, g.currentLiquidation)
    && RedemptionsSound(g.redemptions, g.redemptionCount, g.currentRedemption, g.feesPaid)
    && AllLinked(g)
  }

  // Finished records stay as they are, and finished.
  ghost predicate Extends(g: Groups, g': Groups) {
    && (forall n :: n in g.liquidations && g.currentLiquidation != Some(n) ==>
          n in g'.liquidations && g'.liquidations[n] == g.liquidations[n] && g'.currentLiquidation != Some(n))
    && (forall n :: n in g.redemptions && g.currentRedemption != Some(n) ==>
          n in g'.redemptions && g'.redemptions[n] == g.redemptions[n] && g'.currentRedemption != Some(n))
    && (forall tx :: tx in g.transactions ==> tx in g'.transactions && g'.transactions[tx] == g.transactions[tx])
  }

  // ---------- The moves that events make ----------

  datatype Move =
    | Enlist(tx: TxId)
    | OpenLiquidation(liquidation: Liquidation)
    | CloseLiquidation(liquidation: Liquidation)
    | OpenRedemption(redemption: Redemption)
    | CloseRedemption(redemption: Redemption)
    | Record(number: int, change: Change)
    | Fee(number: int, fee: int)

  predicate InLiquidation(g: Groups) {
    g.currentLiquidation.Some? && g.currentLiquidation.value in g.liquidations
  }

  predicate InRedemption(g: Groups) {
    g.currentRedemption.Some? && g.currentRedemption.value in g.redemptions
  }

  predicate CanMove(g: Groups, m: Move) {
    match m
    case Enlist(tx) => tx !in g.transactions
    case OpenLiquidation(l) =>
      !InLiquidation(g) && l.sequenceNumber == g.liquidationCount && l.transaction in g.transactions
    case CloseLiquidation(l) =>
      && InLiquidation(g)
      && l.sequenceNumber == g.liquidations[g.currentLiquidation.value].sequenceNumber
      && l.transaction == g.liquidations[g.currentLiquidation.value].transaction
    case OpenRedemption(r) =>
      !InRedemption(g) && r.sequenceNumber == g.redemptionCount && r.fee == 0 && r.transaction in g.transactions
    case CloseRedemption(r) =>
      && InRedemption(g)
      && r.sequenceNumber == g.redemptions[g.currentRedemption.value].sequenceNumber
      && r.transaction == g.redemptions[g.currentRedemption.value].transaction
    case Record(_, c) => Linked(c.detail, g.liquidations, g.redemptions) && c.transaction in g.transactions
    case Fee(n, _) => n in g.changes && g.changes[n].detail.TroveChange?
  }

  function AfterMove(g: Groups, m: Move): Groups
    requires CanMove(g, m)
  {
    match m
    case Enlist(tx) =>
      g.(transactions := g.transactions[tx := Transaction(g.transactionCount)],
         transactionCount := g.transactionCount + 1)
    case OpenLiquidation(l) =>
      g.(liquidations := g.liquidations[l.sequenceNumber := l], liquidationCount := g.liquidationCount + 1,
         currentLiquidation := Some(l.sequenceNumber))
    case CloseLiquidation(l) =>
      g.(liquidations := g.liquidations[g.currentLiquidation.value := l], currentLiquidation := None)
    case OpenRedemption(r) =>
      g.(redemptions := g.redemptions[r.sequenceNumber := r], redemptionCount := g.redemptionCount + 1,
         currentRedemption := Some(r.sequenceNumber))
    case CloseRedemption(r) =>
      g.(redemptions := g.redemptions[g.currentRedemption.value := r], currentRedemption := None,
         feesPaid := g.feesPaid + r.fee)
    case Record(n, c) => g.(changes := g.changes[n := c])
    case Fee(n, fee) =>
      var c := g.changes[n];
      g.(changes := g.changes[n := c.(detail := TroveChange(c.detail.delta.(borrowingFee := Some(fee))))])
  }

  lemma FeeAdded(rs: map<int, Redemption>, n: int, r: Redemption)
    ensures Sum(Fees(rs[n := r])) == Sum(Fees(rs)) + (r.fee - if n in rs then rs[n].fee else 0)
  {
    assert Fees(rs[n := r]) == Fees(rs)[n := r.fee];
    SumUpdate(Fees(rs), n, r.fee);
  }

  lemma TransactionAdded(ts: map<TxId, Transaction>, tx: TxId, count: int)
    requires TransactionsSound(ts, count) && tx !in ts
    ensures TransactionsSound(ts[tx := Transaction(count)], count + 1)
  {
    assert ts[tx := Transaction(count)].Keys == ts.Keys + {tx};
  }

  lemma MoveKeepsSound(g: Groups, m: Move)
    requires Sound(g) && CanMove(g, m)
    ensures Sound(AfterMove(g, m)) && Extends(g, AfterMove(g, m))
  {
    match m {
      case Enlist(tx) => TransactionAdded(g.transactions, tx, g.transactionCount);
      case OpenRedemption(r) => RedemptionKeepsSound(g, m);
      case CloseRedemption(r) => RedemptionKeepsSound(g, m);
      case OpenLiquidation(l) => LiquidationKeepsSound(g, m);
      case CloseLiquidation(l) => LiquidationKeepsSound(g, m);
      case Record(_, _) => ChangeKeepsSound(g, m);
      case Fee(_, _) => ChangeKeepsSound(g, m);
    }
  }

  lemma LiquidationKeepsSound(g: Groups, m: Move)
    requires Sound(g) && CanMove(g, m) && (m.OpenLiquidation? || m.CloseLiquidation?)
    ensures Sound(AfterMove(g, m)) && Extends(g, AfterMove(g, m))
  {
  }

  lemma RedemptionKeepsSound(g: Groups, m: Move)
    requires Sound(g) && CanMove(g, m) && (m.OpenRedemption? || m.CloseRedemption?)
    ensures Sound(AfterMove(g, m)) && Extends(g, AfterMove(g, m))
  {
    FeeAdded(g.redemptions, if m.OpenRedemption? then m.redemption.sequenceNumber else g.currentRedemption.value,
             m.redemption);
  }

  lemma ChangeKeepsSound(g: Groups, m: Move)
    requires Sound(g) && CanMove(g, m) && (m.Record? || m.Fee?)
    ensures Sound(AfterMove(g, m)) && Extends(g, AfterMove(g, m))
  {
  }

  predicate CanMoveAll(g: Groups, ms: seq<Move>)
    decreases ms
  {
    ms == [] || (CanMove(g, ms[0]) && CanMoveAll(AfterMove(g, ms[0]), ms[1..]))
  }

  function AfterMoves(g: Groups, ms: seq<Move>): Groups
    requires CanMoveAll(g, ms)
    decreases ms
  {
    if ms == [] then g else AfterMoves(AfterMove(g, ms[0]), ms[1..])
  }

  lemma {:induction false} MovesKeepSound(g: Groups, ms: seq<Move>)
    requires Sound(g) && CanMoveAll(g, ms)
    ensures Sound(AfterMoves(g, ms)) && Extends(g, AfterMoves(g, ms))
    decreases ms
  {
    if ms == [] {
    } else {
      MoveKeepsSound(g, ms[0]);
      MovesKeepSound(AfterMove(g, ms[0]), ms[1..]);
    }
  }

  predicate Makes(g: Groups, ms: seq<Move>, g': Groups) {
    CanMoveAll(g, ms) && AfterMoves(g, ms) == g'
  }

  // Some moves lead from the records of one store to those of the other.
  ghost predicate Moves(db: Db, db': Db) {
    exists ms :: Makes(GroupsOf(db), ms, GroupsOf(db'))
  }

  lemma {:induction false} MoveMore(g: Groups, ms: seq<Move>, ns: seq<Move>)
    requires CanMoveAll(g, ms) && CanMoveAll(AfterMoves(g, ms), ns)
    ensures CanMoveAll(g, ms + ns) && AfterMoves(g, ms + ns) == AfterMoves(AfterMoves(g, ms), ns)
    decreases ms
  {
    if ms == [] {
      assert ms + ns == ns;
    } else {
      assert (ms + ns)[0] == ms[0] && (ms + ns)[1..] == ms[1..] + ns;
      MoveMore(AfterMove(g, ms[0]), ms[1..], ns);
    }
  }

  lemma MovesTransitive(db: Db, db': Db, db'': Db)
    requires Moves(db, db') && Moves(db', db'')
    ensures Moves(db, db'')
  {
    var ms :| Makes(GroupsOf(db), ms, GroupsOf(db'));
    var ns :| Makes(GroupsOf(db'), ns, GroupsOf(db''));
    MoveMore(GroupsOf(db), ms, ns);
    assert Makes(GroupsOf(db), ms + ns, GroupsOf(db''));
  }

  lemma NoMove(db: Db, db': Db)
    requires GroupsOf(db') == GroupsOf(db)
    ensures Moves(db, db')
  {
    assert Makes(GroupsOf(db), [], GroupsOf(db'));
  }

  lemma OnlyMove(g: Groups, m: Move)
    requires CanMove(g, m)
    ensures CanMoveAll(g, [m]) && AfterMoves(g, [m]) == AfterMove(g, m)
  {
    var ms := [m];
    assert ms[0] == m && ms[1..] == [];
    assert AfterMoves(AfterMove(g, m), []) == AfterMove(g, m);
  }

  lemma OneMove(db: Db, db': Db, m: Move)
    requires CanMove(GroupsOf(db), m) && AfterMove(GroupsOf(db), m) == GroupsOf(db')
    ensures Moves(db, db')
  {
    OnlyMove(GroupsOf(db), m);
    assert Makes(GroupsOf(db), [m], GroupsOf(db'));
  }

  // ---------- Records ----------

  lemma TransactionMoves(db: Db, tx: TxId)
    ensures Moves(db, EnsureTransaction(db, tx)) && tx in EnsureTransaction(db, tx).transactions
  {
    if tx in db.transactions {
      NoMove(db, db);
    } else {
      OneMove(db, EnsureTransaction(db, tx), Enlist(tx));
    }
  }

  lemma UserMoves(db: Db, a: Address)
    ensures Moves(db, EnsureUser(db, a))
  {
    NoMove(db, EnsureUser(db, a));
  }

  lemma CommitMoves(db: Db, tx: TxId, detail: Detail)
    requires Linked(detail, db.liquidations, db.redemptions)
    ensures Moves(db, Commit(db, tx, detail))
  {
    var db1, db2 := EnsureTransaction(db, tx), Commit(db, tx, detail);
    TransactionMoves(db, tx);
    TransactionKeeps(db, tx);
    StateKeeps(db1);
    OneMove(db1, db2, Record(db.global.count.changes, db2.changes[db.global.count.changes]));
    MovesTransitive(db, db1, db2);
  }

  lemma LiquidationMoves(db: Db, tx: TxId, sender: Address)
    ensures Moves(db, EnsureLiquidation(db, tx, sender))
  {
    if HasLiquidation(db) {
      NoMove(db, db);
    } else {
      var db1 := EnsureUser(EnsureTransaction(db, tx), sender);
      TransactionMoves(db, tx);
      UserMoves(EnsureTransaction(db, tx), sender);
      MovesTransitive(db, EnsureTransaction(db, tx), db1);
      TransactionKeeps(db, tx);
      NewLiquidationMoves(db1, tx, sender);
      MovesTransitive(db, db1, AddLiquidation(db1, tx, sender));
    }
  }

  lemma NewLiquidationMoves(db: Db, tx: TxId, sender: Address)
    requires !HasLiquidation(db) && tx in db.transactions
    ensures Moves(db, AddLiquidation(db, tx, sender))
  {
    var n := db.global.count.liquidations;
    OneMove(db, AddLiquidation(db, tx, sender), OpenLiquidation(AddLiquidation(db, tx, sender).liquidations[n]));
  }

  lemma RedemptionMoves(db: Db, tx: TxId, sender: Address)
    ensures Moves(db, EnsureRedemption(db, tx, sender))
  {
    if HasRedemption(db) {
      NoMove(db, db);
    } else {
      var db1 := EnsureUser(EnsureTransaction(db, tx), sender);
      TransactionMoves(db, tx);
      UserMoves(EnsureTransaction(db, tx), sender);
      MovesTransitive(db, EnsureTransaction(db, tx), db1);
      TransactionKeeps(db, tx);
      NewRedemptionMoves(db1, tx, sender);
      MovesTransitive(db, db1, AddRedemption(db1, tx, sender));
    }
  }

  lemma NewRedemptionMoves(db: Db, tx: TxId, sender: Address)
    requires !HasRedemption(db) && tx in db.transactions
    ensures Moves(db, AddRedemption(db, tx, sender))
  {
    var n := db.global.count.redemptions;
    OneMove(db, AddRedemption(db, tx, sender), OpenRedemption(AddRedemption(db, tx, sender).redemptions[n]));
  }

  lemma FinishLiquidationMoves(db: Db, tx: TxId, sender: Address, e: Body)
    requires e.LiquidationFinished?
    ensures Moves(db, FinishLiquidation(db, tx, sender, e))
  {
    var db1 := EnsureLiquidation(db, tx, sender);
    var db2 := FinishLiquidation(db, tx, sender, e);
    LiquidationMoves(db, tx, sender);
    OneMove(db1, db2, CloseLiquidation(db2.liquidations[db1.global.currentLiquidation.value]));
    MovesTransitive(db, db1, db2);
  }

  lemma FinishRedemptionMoves(db: Db, tx: TxId, sender: Address, e: Body)
    requires e.RedemptionFinished?
    ensures Moves(db, FinishRedemption(db, tx, sender, e))
  {
    var db1 := EnsureRedemption(db, tx, sender);
    var db2 := FinishRedemption(db, tx, sender, e);
    RedemptionMoves(db, tx, sender);
    OneMove(db1, db2, CloseRedemption(db2.redemptions[db1.global.currentRedemption.value]));
    MovesTransitive(db, db1, db2);
  }

  // ---------- Handlers ----------

  lemma GroupMoves(db: Db, tx: TxId, sender: Address, op: TroveOperation)
    ensures var db1 := OpenGroup(db, tx, sender, op);
            && Moves(db, db1)
            && (op.IsLiquidation() ==> HasLiquidation(db1)) && (op.IsRedemption() ==> HasRedemption(db1))
  {
    if op.IsLiquidation() {
      LiquidationMoves(db, tx, sender);
    } else if op.IsRedemption() {
      RedemptionMoves(db, tx, sender);
    } else {
      NoMove(db, db);
    }
  }

  lemma RecordedTroveMoves(db: Db, tx: TxId, op: TroveOperation, a: Address, collateral: int, debt: int, stake: nat)
    requires (op.IsLiquidation() ==> HasLiquidation(db)) && (op.IsRedemption() ==> HasRedemption(db))
    ensures Moves(db, StoreTrove(Commit(db, tx, TroveChange(DeltaOf(db, op, a, collateral, debt))), op, a, collateral,
                                 debt, stake))
  {
    var detail := TroveChange(DeltaOf(db, op, a, collateral, debt));
    var db1 := Commit(db, tx, detail);
    CommitMoves(db, tx, detail);
    StoredTroveMoves(db1, op, a, collateral, debt, stake);
    MovesTransitive(db, db1, StoreTrove(db1, op, a, collateral, debt, stake));
  }

  lemma StoredTroveMoves(db: Db, op: TroveOperation, a: Address, collateral: int, debt: int, stake: nat)
    ensures Moves(db, StoreTrove(db, op, a, collateral, debt, stake))
  {
    NoMove(db, StoreTrove(db, op, a, collateral, debt, stake));
  }

  lemma UpdateTroveMoves(db: Db, tx: TxId, sender: Address, op: TroveOperation, a: Address, collateral: int,
                         debt: int, stake: nat)
    ensures Moves(db, UpdateTrove(db, tx, sender, op, a, collateral, debt, stake))
  {
    var db1 := LookUpTrove(db, a);
    NoMove(db, db1);
    if IsTroveChange(db, a, collateral, debt) {
      var db2 := OpenGroup(db1, tx, sender, op);
      GroupMoves(db1, tx, sender, op);
      RecordedTroveMoves(db2, tx, op, a, collateral, debt, stake);
      MovesTransitive(db, db1, db2);
      MovesTransitive(db, db2, UpdateTrove(db, tx, sender, op, a, collateral, debt, stake));
    }
  }

  lemma FeeOfLastMoves(db: Db, fee: int)
    requires LastIsTroveChange(db)
    ensures Moves(db, PayBorrowingFee(db, fee))
  {
    OneMove(db, PayBorrowingFee(db, fee), Fee(db.global.count.changes - 1, fee));
  }

  lemma TroveEventMoves(db: Db, tx: TxId, sender: Address, e: Body)
    requires Enabled(db, Event(tx, sender, e)) && e.IsTroveEvent()
    ensures Moves(db, HandleTroveEvent(db, tx, sender, e))
  {
    match e {
      case TroveUpdated(op, a, collateral, debt, stake) =>
        UpdateTroveMoves(db, tx, sender, op, a, collateral, debt, stake);
      case TroveLiquidated(a) =>
        UpdateTroveMoves(db, tx, sender, AccrueRewards, a, AccruedCollateral(db, a), AccruedDebt(db, a), 0);
      case LiquidationFinished(_, _, _, _) =>
        FinishLiquidationMoves(db, tx, sender, e);
      case RedemptionFinished(_, _, _, _) =>
        FinishRedemptionMoves(db, tx, sender, e);
      case LTermsUpdated(c, d) =>
        NoMove(db, UpdateTotalRedistributed(db, c, d));
      case BorrowingFeePaid(fee) =>
        FeeOfLastMoves(db, fee);
    }
  }

  // A change of another kind, and a write outside the records after it.
  lemma OtherChangeMoves(db: Db, tx: TxId, detail: Detail, db': Db)
    requires !detail.TroveChange? && GroupsOf(db') == GroupsOf(Commit(db, tx, detail))
    ensures Moves(db, db')
  {
    CommitMoves(db, tx, detail);
    NoMove(Commit(db, tx, detail), db');
    MovesTransitive(db, Commit(db, tx, detail), db');
  }

  lemma SetDepositMoves(db: Db, tx: TxId, a: Address, op: DepositOperation, amount: int, gain: Option<int>)
    ensures Moves(db, SetDeposit(db, tx, a, op, amount, gain))
  {
    OtherChangeMoves(db, tx, DepositChange(a, op, DepositOf(db, a), amount, gain),
                     SetDeposit(db, tx, a, op, amount, gain));
  }

  lemma LookUpDepositMoves(db: Db, a: Address)
    ensures Moves(db, LookUpDeposit(db, a))
  {
    if a in db.deposits {
      NoMove(db, db);
    } else {
      UserMoves(db, a);
    }
  }

  lemma ChangeDepositMoves(db: Db, tx: TxId, a: Address, amount: int)
    ensures Moves(db, ChangeDeposit(db, tx, a, amount))
  {
    if amount == DepositOf(db, a) {
      NoMove(db, db);
    } else {
      SetDepositMoves(db, tx, a, if amount > DepositOf(db, a) then DepositTokens else WithdrawTokens, amount, None);
    }
  }

  lemma UpdateDepositMoves(db: Db, tx: TxId, a: Address, amount: int)
    ensures Moves(db, UpdateDeposit(db, tx, a, amount))
  {
    var db1, db2 := LookUpDeposit(db, a), LookUpDepositAndOwner(db, a);
    LookUpDepositMoves(db, a);
    UserMoves(db1, a);
    MovesTransitive(db, db1, db2);
    ChangeDepositMoves(db2, tx, a, amount);
    MovesTransitive(db, db2, UpdateDeposit(db, tx, a, amount));
  }

  lemma DepositAfterGainMoves(db: Db, tx: TxId, a: Address, amount: int, collateral: int)
    ensures Moves(db, SetDepositAfterGain(db, tx, a, amount, collateral))
  {
    LookUpDepositMoves(db, a);
    SetDepositMoves(LookUpDeposit(db, a), tx, a, WithdrawCollateralGain, amount, Some(collateral));
    MovesTransitive(db, LookUpDeposit(db, a), SetDepositAfterGain(db, tx, a, amount, collateral));
  }

  lemma WithdrawGainMoves(db: Db, tx: TxId, a: Address, collateral: int, loss: int)
    ensures Moves(db, WithdrawGain(db, tx, a, collateral, loss))
  {
    if collateral == 0 && loss == 0 {
      NoMove(db, db);
    } else {
      DepositAfterGainMoves(db, tx, a, DepositOf(db, a) - loss, collateral);
    }
  }

  lemma PoolEventMoves(db: Db, tx: TxId, e: Body)
    requires e.IsPoolEvent()
    ensures Moves(db, HandlePoolEvent(db, tx, e))
  {
    var pending := db.global.tmpDepositUpdate;
    match e {
      case UserDepositChanged(a, amount) =>
        var db1 := SwapPending(db, amount);
        NoMove(db, db1);
        if pending.Some? {
          UpdateDepositMoves(db1, tx, a, amount);
          MovesTransitive(db, db1, UpdateDeposit(db1, tx, a, amount));
        }
      case GainWithdrawn(a, collateral, loss) =>
        var db1 := SwapPending(db, 0);
        var db2 := WithdrawGain(db1, tx, a, collateral, loss);
        NoMove(db, db1);
        WithdrawGainMoves(db1, tx, a, collateral, loss);
        MovesTransitive(db, db1, db2);
        if pending.Some? {
          UpdateDepositMoves(db2, tx, a, pending.value);
          MovesTransitive(db, db2, UpdateDeposit(db2, tx, a, pending.value));
        }
    }
  }

  lemma SetStakeMoves(db: Db, tx: TxId, a: Address, op: StakeOperation, amount: int, issuance: int, redemption: int)
    ensures Moves(db, SetStake(db, tx, a, op, amount, issuance, redemption))
  {
    var db1, db2 := LookUpStake(db, a), SetStake(db, tx, a, op, amount, issuance, redemption);
    NoMove(db, db1);
    OtherChangeMoves(db1, tx, StakeChange(StakeId(db, a), op, StakeOf(db, a), amount, issuance, redemption), db2);
    MovesTransitive(db, db1, db2);
  }

  lemma StakeEventMoves(db: Db, tx: TxId, e: Body)
    requires e.IsStakeEvent()
    ensures Moves(db, HandleStakeEvent(db, tx, e))
  {
    match e {
      case StakeChanged(a, amount) =>
        var op := StakeOperationOf(StakeOf(db, a), amount);
        var db1 := SetStake(db, tx, a, op, amount, 0, 0);
        SetStakeMoves(db, tx, a, op, amount, 0, 0);
        NoMove(db1, UpdateStake(db, tx, a, amount));
        MovesTransitive(db, db1, UpdateStake(db, tx, a, amount));
      case StakeGainsWithdrawn(a, issuance, redemption) =>
        NoMove(db, db);
        SetStakeMoves(db, tx, a, GainsWithdrawn, StakeOf(db, a), issuance, redemption);
    }
  }

  lemma StateMoves(db: Db)
    ensures Moves(db, EnsureSystemState(db)) && GroupsOf(EnsureSystemState(db)) == GroupsOf(db)
  {
    StateKeeps(db);
    NoMove(db, EnsureSystemState(db));
  }

  lemma FillPriceMoves(db: Db, price: int)
    ensures Moves(db, FillPrice(db, price))
  {
    StateMoves(db);
    NoMove(db, FillPrice(db, price));
  }

  lemma PriceChangeMoves(db: Db, db1: Db, tx: TxId, change: int)
    requires Moves(db, db1)
    ensures Moves(db, Commit(db1, tx, PriceChange(change)))
  {
    CommitMoves(db1, tx, PriceChange(change));
    MovesTransitive(db, db1, Commit(db1, tx, PriceChange(change)));
  }

  lemma UpdatePriceMoves(db: Db, tx: TxId, price: int)
    ensures Moves(db, UpdatePrice(db, tx, price))
  {
    var old' := Current(db).price;
    if old'.None? {
      FillPriceMoves(db, price);
    } else {
      StateMoves(db);
      PriceChangeMoves(db, EnsureSystemState(db), tx, price - old'.value);
    }
  }

  lemma CollSurplusMoves(db: Db, tx: TxId, a: Address, balance: int)
    ensures Moves(db, UpdateCollSurplus(db, tx, a, balance))
  {
    var db1 := EnsureUser(db, a);
    UserMoves(db, a);
    if balance != UserOf(db, a).collSurplus {
      SetCollSurplusMoves(db1, tx, a, balance);
      MovesTransitive(db, db1, SetCollSurplus(db1, tx, a, balance));
    }
  }

  lemma SetCollSurplusMoves(db: Db, tx: TxId, a: Address, balance: int)
    ensures Moves(db, SetCollSurplus(db, tx, a, balance))
  {
    OtherChangeMoves(db, tx, CollSurplusChange(a, UserOf(db, a).collSurplus, balance),
                     SetCollSurplus(db, tx, a, balance));
  }

  lemma HandleMoves(db: Db, e: Event)
    requires Enabled(db, e)
    ensures Moves(db, Handle(db, e))
  {
    if e.body.IsTroveEvent() {
      TroveEventMoves(db, e.tx, e.sender, e.body);
    } else if e.body.IsPoolEvent() {
      PoolEventMoves(db, e.tx, e.body);
    } else if e.body.IsStakeEvent() {
      StakeEventMoves(db, e.tx, e.body);
    } else if e.body.PriceUpdated? {
      UpdatePriceMoves(db, e.tx, e.body.price);
    } else {
      CollSurplusMoves(db, e.tx, e.body.account, e.body.balance);
    }
  }

  lemma {:induction false} RunMoves(db: Db, events: seq<Event>)
    requires RunEnabled(db, events)
    ensures Moves(db, Run(db, events))
    decreases events
  {
    if events == [] {
      NoMove(db, db);
    } else {
      HandleMoves(db, events[0]);
      RunMoves(Handle(db, events[0]), events[1..]);
      MovesTransitive(db, Handle(db, events[0]), Run(db, events));
    }
  }

  lemma FreshIsSound(db0: Db)
    requires Fresh(db0)
    ensures Sound(GroupsOf(db0))
  {
    assert Fees(db0.redemptions) == map[];
  }

  // ---------- The laws on every run ----------

  // Records are numbered without gaps, only the last can be open, every trove change
  // that is part of a liquidation or redemption refers to a stored record and no other
  // does, and the running total of redemption fees is the sum over all records.
  lemma GroupsOnEveryRun(db0: Db, events: seq<Event>)
    requires Fresh(db0) && RunEnabled(db0, events)
    ensures var db := Run(db0, events);
            var g := db.global;
            && Numbered(db.liquidations.Keys, g.count.liquidations, g.currentLiquidation)
            && Numbered(db.redemptions.Keys, g.count.redemptions, g.currentRedemption)
            && AllLinked(GroupsOf(db))
            && Sum(Fees(db.redemptions)) == g.feesPaid.redemption
  {
    SoundOnEveryRun(db0, events);
  }

  lemma SoundOnEveryRun(db0: Db, events: seq<Event>)
    requires Fresh(db0) && RunEnabled(db0, events)
    ensures Sound(GroupsOf(Run(db0, events)))
  {
    FreshIsSound(db0);
    RunMoves(db0, events);
    var ms :| Makes(GroupsOf(db0), ms, GroupsOf(Run(db0, events)));
    MovesKeepSound(GroupsOf(db0), ms);
  }

  // Transactions are numbered without gaps and without doubles, and every change, liquidation
  // and redemption belongs to a stored one.
  lemma TransactionsOnEveryRun(db0: Db, events: seq<Event>)
    requires Fresh(db0) && RunEnabled(db0, events)
    ensures var db := Run(db0, events);
            TransactionsSound(db.transactions, db.global.count.transactions) && AllInTransactions(GroupsOf(db))
  {
    SoundOnEveryRun(db0, events);
  }

  // A finished liquidation or redemption never changes again, nor does a transaction.
  lemma FinishedGroupsAreFinal(db0: Db, events: seq<Event>, later: seq<Event>)
    requires Fresh(db0) && RunEnabled(db0, events) && RunEnabled(Run(db0, events), later)
    ensures Extends(GroupsOf(Run(db0, events)), GroupsOf(Run(Run(db0, events), later)))
  {
    var db := Run(db0, events);
    SoundOnEveryRun(db0, events);
    RunMoves(db, later);
    var ms :| Makes(GroupsOf(db), ms, GroupsOf(Run(db, later)));
    MovesKeepSound(GroupsOf(db), ms);
  }
}
