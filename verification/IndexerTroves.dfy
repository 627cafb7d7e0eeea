// The troves of the indexer on every run: the status counters, the snapshots, and
// the sort keys.
module IndexerTroves {
  import opened Wrappers
  import opened Entities
  import opened IndexerSpec
  import opened IndexerSteps
  import opened Redistribution
  import opened MapSums
  import Troves

  // ---------- What touches troves ----------

  ghost predicate SameTroves(db: Db, db': Db) {
    && db'.troves == db.troves && db'.global.troves == db.global.troves
    && db'.global.redistributed == db.global.redistributed
  }

  lemma CommitKeepsTroves(db: Db, tx: TxId, detail: Detail)
    ensures SameTroves(db, Commit(db, tx, detail))
  {
    CommitKeeps(db, tx, detail);
  }

  lemma SetDepositKeepsTroves(db: Db, tx: TxId, a: Address, op: DepositOperation, amount: int, gain: Option<int>)
    ensures SameTroves(db, SetDeposit(db, tx, a, op, amount, gain))
  {
    CommitKeepsTroves(db, tx, DepositChange(a, op, DepositOf(db, a), amount, gain));
  }

  lemma LookUpDepositKeepsTroves(db: Db, a: Address)
    ensures SameTroves(db, LookUpDeposit(db, a)) && SameTroves(db, LookUpDepositAndOwner(db, a))
  {
  }

  lemma ChangeDepositKeepsTroves(db: Db, tx: TxId, a: Address, amount: int)
    ensures SameTroves(db, ChangeDeposit(db, tx, a, amount))
  {
    if amount != DepositOf(db, a) {
      SetDepositKeepsTroves(db, tx, a, if amount > DepositOf(db, a) then DepositTokens else WithdrawTokens, amount,
                            None);
    }
  }

  lemma UpdateDepositKeepsTroves(db: Db, tx: TxId, a: Address, amount: int)
    ensures SameTroves(db, UpdateDeposit(db, tx, a, amount))
  {
    LookUpDepositKeepsTroves(db, a);
    ChangeDepositKeepsTroves(LookUpDepositAndOwner(db, a), tx, a, amount);
  }

  lemma WithdrawGainKeepsTroves(db: Db, tx: TxId, a: Address, collateral: int, loss: int)
    ensures SameTroves(db, WithdrawGain(db, tx, a, collateral, loss))
  {
    LookUpDepositKeepsTroves(db, a);
    if collateral != 0 || loss != 0 {
      SetDepositKeepsTroves(LookUpDeposit(db, a), tx, a, WithdrawCollateralGain, DepositOf(db, a) - loss,
                            Some(collateral));
    }
  }

  lemma PoolEventKeepsTroves(db: Db, tx: TxId, e: Body)
    requires e.IsPoolEvent()
    ensures SameTroves(db, HandlePoolEvent(db, tx, e))
  {
    if e.UserDepositChanged? {
      UpdateDepositKeepsTroves(SwapPending(db, e.newDeposit), tx, e.depositor, e.newDeposit);
    } else {
      var db1 := WithdrawGain(SwapPending(db, 0), tx, e.depositor, e.collateral, e.loss);
      WithdrawGainKeepsTroves(SwapPending(db, 0), tx, e.depositor, e.collateral, e.loss);
      UpdateDepositKeepsTroves(db1, tx, e.depositor, db.global.tmpDepositUpdate.GetOr(0));
    }
  }

  lemma StakeEventKeepsTroves(db: Db, tx: TxId, e: Body)
    requires e.IsStakeEvent()
    ensures SameTroves(db, HandleStakeEvent(db, tx, e))
  {
    if e.StakeChanged? {
      SetStakeKeepsTroves(db, tx, e.staker, StakeOperationOf(StakeOf(db, e.staker), e.newStake), e.newStake, 0, 0);
    } else {
      SetStakeKeepsTroves(db, tx, e.staker, GainsWithdrawn, StakeOf(db, e.staker), e.debtTokenGain, e.collateralGain);
    }
  }

  lemma SetStakeKeepsTroves(db: Db, tx: TxId, a: Address, op: StakeOperation, amount: int, issuance: int,
                            redemption: int)
    ensures SameTroves(db, SetStake(db, tx, a, op, amount, issuance, redemption))
  {
    CommitKeepsTroves(LookUpStake(db, a), tx,
                      StakeChange(StakeId(db, a), op, StakeOf(db, a), amount, issuance, redemption));
  }

  lemma StateKeepsTroves(db: Db, price: int)
    ensures SameTroves(db, EnsureSystemState(db)) && SameTroves(db, FillPrice(db, price))
  {
    StateKeeps(db);
  }

  lemma UpdatePriceKeepsTroves(db: Db, tx: TxId, price: int)
    ensures SameTroves(db, UpdatePrice(db, tx, price))
  {
    var old' := Current(db).price;
    if old'.None? {
      StateKeepsTroves(db, price);
    } else if price == old'.value {
      StateKeepsTroves(db, price);
    } else {
      StateKeepsTroves(db, price);
      PriceChangeKeepsTroves(db, EnsureSystemState(db), tx, price - old'.value);
    }
  }

  lemma PriceChangeKeepsTroves(db: Db, db1: Db, tx: TxId, change: int)
    requires SameTroves(db, db1)
    ensures SameTroves(db, Commit(db1, tx, PriceChange(change)))
  {
    CommitKeepsTroves(db1, tx, PriceChange(change));
  }

  lemma SurplusKeepsTroves(db: Db, tx: TxId, a: Address, balance: int)
    ensures SameTroves(db, UpdateCollSurplus(db, tx, a, balance))
  {
    var db1 := EnsureUser(db, a);
    CommitKeepsTroves(db1, tx, CollSurplusChange(a, UserOf(db1, a).collSurplus, balance));
  }

  lemma LiquidationKeepsTroves(db: Db, tx: TxId, sender: Address)
    ensures SameTroves(db, EnsureLiquidation(db, tx, sender))
  {
    LiquidationKeeps(db, tx, sender);
  }

  lemma RedemptionKeepsTroves(db: Db, tx: TxId, sender: Address)
    ensures SameTroves(db, EnsureRedemption(db, tx, sender))
  {
    RedemptionKeeps(db, tx, sender);
  }

  predicate TouchesTroves(e: Body) {
    e.TroveUpdated? || e.TroveLiquidated? || e.LTermsUpdated?
  }

  lemma OtherEventsKeepTroves(db: Db, e: Event)
    requires Enabled(db, e) && !TouchesTroves(e.body)
    ensures SameTroves(db, Handle(db, e))
  {
    if e.body.IsTroveEvent() {
      LiquidationKeepsTroves(db, e.tx, e.sender);
      RedemptionKeepsTroves(db, e.tx, e.sender);
    } else if e.body.IsPoolEvent() {
      PoolEventKeepsTroves(db, e.tx, e.body);
    } else if e.body.IsStakeEvent() {
      StakeEventKeepsTroves(db, e.tx, e.body);
    } else if e.body.PriceUpdated? {
      UpdatePriceKeepsTroves(db, e.tx, e.body.price);
    } else {
      SurplusKeepsTroves(db, e.tx, e.body.account, e.body.balance);
    }
  }

  // An unknown trove is counted as open when it is looked up.
  function CountedOnSight(c: TroveCounts, known: bool): TroveCounts {
    if known then c else c.(open := c.open + 1, total := c.total + 1)
  }

  // The whole effect of a trove update on the troves and their counters.
  predicate Updated(db: Db, db': Db, op: TroveOperation, a: Address, collateral: int, debt: int, stake: nat) {
    var c := CountedOnSight(db.global.troves, a in db.troves);
    && db'.global.redistributed == db.global.redistributed
    && if IsTroveChange(db, a, collateral, debt) then
         var t := StoredTrove(db.global.redistributed, op, collateral, debt, stake);
         && db'.troves == db.troves[a := t]
         && db'.global.troves == CountTransition(c, TroveOf(db, a).status, t.status)
       else
         db'.troves == db.troves && db'.global.troves == c
  }

  lemma UpdateTroveEffect(db: Db, tx: TxId, sender: Address, op: TroveOperation, a: Address,
                          collateral: int, debt: int, stake: nat)
    ensures Updated(db, UpdateTrove(db, tx, sender, op, a, collateral, debt, stake), op, a, collateral, debt, stake)
  {
    var db1 := LookUpTrove(db, a);
    LookUpKeeps(db, a);
    assert db1.global.troves == CountedOnSight(db.global.troves, a in db.troves);
    if IsTroveChange(db, a, collateral, debt) {
      var db2 := OpenGroup(db1, tx, sender, op);
      GroupKeeps(db1, tx, sender, op);
      CommitKeeps(db2, tx, TroveChange(DeltaOf(db2, op, a, collateral, debt)));
    }
  }

  // What an event does to the troves, their counters and the redistributed totals.
  predicate TroveStep(db: Db, e: Body, db': Db) {
    match e
    case TroveUpdated(op, a, collateral, debt, stake) => Updated(db, db', op, a, collateral, debt, stake)
    case TroveLiquidated(a) => Updated(db, db', AccrueRewards, a, AccruedCollateral(db, a), AccruedDebt(db, a), 0)
    case LTermsUpdated(c, d) =>
      db'.troves == db.troves && db'.global.troves == db.global.troves && db'.global.redistributed == PerStake(c, d)
    case _ =>
      && db'.troves == db.troves && db'.global.troves == db.global.troves
      && db'.global.redistributed == db.global.redistributed
  }

  lemma HandleIsTroveStep(db: Db, e: Event)
    requires Enabled(db, e)
    ensures TroveStep(db, e.body, Handle(db, e))
  {
    if e.body.TroveUpdated? {
      UpdateTroveEffect(db, e.tx, e.sender, e.body.operation, e.body.borrower, e.body.collateral, e.body.debt,
                        e.body.stake);
    } else if e.body.TroveLiquidated? {
      var a := e.body.borrower;
      UpdateTroveEffect(db, e.tx, e.sender, AccrueRewards, a, AccruedCollateral(db, a), AccruedDebt(db, a), 0);
    } else if !e.body.LTermsUpdated? {
      OtherEventsKeepTroves(db, e);
    }
  }

  // ---------- Status counters ----------

  function CounterOf(c: TroveCounts, status: TroveStatus): int {
    match status
    case Open => c.open
    case ClosedByOwner => c.closedByOwner
    case ClosedByLiquidation => c.liquidated
    case ClosedByRedemption => c.redeemed
  }

  // One for every stored trove with the status, zero for every other.
  function Marks(troves: map<Address, Trove>, status: TroveStatus): map<Address, int> {
    map a | a in troves :: if troves[a].status == status then 1 else 0
  }

  // The number of stored troves with the status.
  ghost function Number(troves: map<Address, Trove>, status: TroveStatus): int {
    Sum(Marks(troves, status))
  }

  // An update looks up an unknown trove and finds nothing to store.
  predicate IsPhantom(db: Db, a: Address, collateral: int, debt: int) {
    a !in db.troves && collateral == 0 && debt == 0
  }

  // An update gives a trove closed in one way another closed status.
  predicate Recloses(db: Db, op: TroveOperation, a: Address, collateral: int, debt: int) {
    && IsTroveChange(db, a, collateral, debt)
    && !TroveOf(db, a).status.Open? && collateral == 0
    && TroveOf(db, a).status != StatusAfter(op, collateral)
  }

  predicate Phantom(db: Db, e: Body) {
    e.TroveUpdated? && IsPhantom(db, e.borrower, e.collateral, e.debt)
  }

  predicate RecloseFrom(db: Db, e: Body, status: TroveStatus) {
    match e
    case TroveUpdated(op, a, collateral, debt, _) =>
      Recloses(db, op, a, collateral, debt) && TroveOf(db, a).status == status
    case TroveLiquidated(a) =>
      Recloses(db, AccrueRewards, a, AccruedCollateral(db, a), AccruedDebt(db, a)) && TroveOf(db, a).status == status
    case _ => false
  }

  predicate Reclose(db: Db, e: Body) {
    || RecloseFrom(db, e, ClosedByOwner)
    || RecloseFrom(db, e, ClosedByLiquidation)
    || RecloseFrom(db, e, ClosedByRedemption)
  }

  // By how much an event moves the counter of a status away from the stored troves: a
  // trove closed again is not taken from its old counter but from the open one.
  function Drift(db: Db, e: Body, status: TroveStatus): int {
    if status.Open? then (if Phantom(db, e) then 1 else 0) - (if Reclose(db, e) then 1 else 0)
    else if RecloseFrom(db, e, status) then 1 else 0
  }

  function RunDrift(db: Db, events: seq<Event>, status: TroveStatus): int
    requires RunEnabled(db, events)
    decreases events
  {
    if events == [] then 0 else Drift(db, events[0].body, status) + RunDrift(Handle(db, events[0]), events[1..], status)
  }

  // How far the counter of a status is ahead of the stored troves.
  ghost function Lead(db: Db, status: TroveStatus): int {
    CounterOf(db.global.troves, status) - Number(db.troves, status)
  }

  lemma NumberAfterStore(troves: map<Address, Trove>, a: Address, t: Trove, status: TroveStatus)
    ensures Number(troves[a := t], status)
            == Number(troves, status)
               - (if a in troves && troves[a].status == status then 1 else 0) + (if t.status == status then 1 else 0)
  {
    var mark := if t.status == status then 1 else 0;
    SumUpdate(Marks(troves, status), a, mark);
    assert Marks(troves[a := t], status) == Marks(troves, status)[a := mark];
  }

  lemma UpdateDrifts(db: Db, db': Db, op: TroveOperation, a: Address, collateral: int, debt: int, stake: nat,
                     status: TroveStatus)
    requires Updated(db, db', op, a, collateral, debt, stake)
    ensures var reclose := Recloses(db, op, a, collateral, debt);
            Lead(db', status) == Lead(db, status)
              + if status.Open? then (if IsPhantom(db, a, collateral, debt) then 1 else 0) - (if reclose then 1 else 0)
                else if reclose && TroveOf(db, a).status == status then 1 else 0
  {
    if IsTroveChange(db, a, collateral, debt) {
      NumberAfterStore(db.troves, a, StoredTrove(db.global.redistributed, op, collateral, debt, stake), status);
    }
  }

  lemma StepDrifts(db: Db, e: Body, db': Db, status: TroveStatus)
    requires TroveStep(db, e, db') && (e.TroveLiquidated? ==> e.borrower in db.troves)
    ensures Lead(db', status) == Lead(db, status) + Drift(db, e, status)
  {
    if e.TroveUpdated? {
      UpdateDrifts(db, db', e.operation, e.borrower, e.collateral, e.debt, e.stake, status);
    } else if e.TroveLiquidated? {
      var a := e.borrower;
      UpdateDrifts(db, db', AccrueRewards, a, AccruedCollateral(db, a), AccruedDebt(db, a), 0, status);
    }
  }

  lemma {:induction false} RunDrifts(db: Db, events: seq<Event>, status: TroveStatus)
    requires RunEnabled(db, events)
    ensures Lead(Run(db, events), status) == Lead(db, status) + RunDrift(db, events, status)
    decreases events
  {
    if events == [] {
    } else {
      HandleIsTroveStep(db, events[0]);
      StepDrifts(db, events[0].body, Handle(db, events[0]), status);
      RunDrifts(Handle(db, events[0]), events[1..], status);
    }
  }

  // On every run each status counter is off from the stored troves by exactly the
  // run's drift.
  lemma TroveCounters(db0: Db, events: seq<Event>, status: TroveStatus)
    requires Fresh(db0) && RunEnabled(db0, events)
    ensures var db := Run(db0, events);
            CounterOf(db.global.troves, status) == Number(db.troves, status) + RunDrift(db0, events, status)
  {
    RunDrifts(db0, events, status);
    assert Marks(db0.troves, status) == map[];
  }

  predicate Drifts(db: Db, e: Body) {
    Phantom(db, e) || Reclose(db, e)
  }

  predicate NeverDrifts(db: Db, events: seq<Event>)
    requires RunEnabled(db, events)
    decreases events
  {
    events == [] || (!Drifts(db, events[0].body) && NeverDrifts(Handle(db, events[0]), events[1..]))
  }

  // The drifts of closed statuses never cancel, and the open one makes up for them
  // only against phantoms.
  lemma {:induction false} DriftSigns(db: Db, events: seq<Event>)
    requires RunEnabled(db, events)
    ensures var w, l, r := RunDrift(db, events, ClosedByOwner), RunDrift(db, events, ClosedByLiquidation),
                           RunDrift(db, events, ClosedByRedemption);
            && w >= 0 && l >= 0 && r >= 0 && RunDrift(db, events, Open) + w + l + r >= 0
            && (NeverDrifts(db, events) <==> w == 0 && l == 0 && r == 0 && RunDrift(db, events, Open) == 0)
    decreases events
  {
    if events == [] {
    } else {
      DriftSigns(Handle(db, events[0]), events[1..]);
      EventDriftSigns(db, events[0].body);
    }
  }

  lemma EventDriftSigns(db: Db, e: Body)
    ensures var w, l, r := Drift(db, e, ClosedByOwner), Drift(db, e, ClosedByLiquidation),
                           Drift(db, e, ClosedByRedemption);
            && w >= 0 && l >= 0 && r >= 0 && Drift(db, e, Open) + w + l + r >= 0
            && (!Drifts(db, e) <==> w == 0 && l == 0 && r == 0 && Drift(db, e, Open) == 0)
  {
  }

  ghost predicate CountersMatch(db: Db) {
    forall status :: CounterOf(db.global.troves, status) == Number(db.troves, status)
  }

  // So all four match if and only if no event of the run was a first event of (0, 0)
  // for its borrower, or closed a closed trove again in another way.
  lemma CountersMatchIffNoDrift(db0: Db, events: seq<Event>)
    requires Fresh(db0) && RunEnabled(db0, events)
    ensures CountersMatch(Run(db0, events)) <==> NeverDrifts(db0, events)
  {
    DriftSigns(db0, events);
    TroveCounters(db0, events, Open);
    TroveCounters(db0, events, ClosedByOwner);
    TroveCounters(db0, events, ClosedByLiquidation);
    TroveCounters(db0, events, ClosedByRedemption);
    var db := Run(db0, events);
    forall status | NeverDrifts(db0, events)
      ensures CounterOf(db.global.troves, status) == Number(db.troves, status)
    {
      TroveCounters(db0, events, status);
    }
  }

  predicate SumsUp(c: TroveCounts) {
    c.open + c.closedByOwner + c.liquidated + c.redeemed == c.total
  }

  lemma StepSumsUp(db: Db, e: Body, db': Db)
    requires TroveStep(db, e, db') && SumsUp(db.global.troves)
    ensures SumsUp(db'.global.troves)
  {
    if e.TroveUpdated? {
      TransitionSumsUp(CountedOnSight(db.global.troves, e.borrower in db.troves), TroveOf(db, e.borrower).status,
                       StatusAfter(e.operation, e.collateral));
    } else if e.TroveLiquidated? {
      TransitionSumsUp(CountedOnSight(db.global.troves, e.borrower in db.troves), TroveOf(db, e.borrower).status,
                       StatusAfter(AccrueRewards, AccruedCollateral(db, e.borrower)));
    }
  }

  lemma TransitionSumsUp(c: TroveCounts, before: TroveStatus, after: TroveStatus)
    requires SumsUp(c)
    ensures SumsUp(CountTransition(c, before, after))
  {
  }

  // Drifted or not, the four counters always add up to the total.
  lemma {:induction false} CountersSumUp(db: Db, events: seq<Event>)
    requires RunEnabled(db, events) && SumsUp(db.global.troves)
    ensures SumsUp(Run(db, events).global.troves)
    decreases events
  {
    if events == [] {
    } else {
      HandleIsTroveStep(db, events[0]);
      StepSumsUp(db, events[0].body, Handle(db, events[0]));
      CountersSumUp(Handle(db, events[0]), events[1..]);
    }
  }

  // What is asked of the events alone, given the borrowers seen so far and the last
  // totals: collateral is zero exactly when debt is, and then so is the stake; the first
  // update of a borrower is not zero; and the totals per stake never fall.
  predicate WellFormed(known: set<Address>, total: PerStake, events: seq<Event>)
    decreases events
  {
    if events == [] then true
    else match events[0].body
      case TroveUpdated(_, a, collateral, debt, stake) =>
        && (collateral == 0 <==> debt == 0) && (collateral == 0 ==> stake == 0)
        && (a in known || collateral != 0)
        && WellFormed(known + {a}, total, events[1..])
      case LTermsUpdated(collateral, debt) =>
        && total.collateral <= collateral && total.debt <= debt
        && WellFormed(known, PerStake(collateral, debt), events[1..])
      case _ => WellFormed(known, total, events[1..])
  }

  function KnownAfter(known: set<Address>, e: Body): set<Address> {
    if e.TroveUpdated? then known + {e.borrower} else known
  }

  function TotalAfter(total: PerStake, e: Body): PerStake {
    if e.LTermsUpdated? then PerStake(e.lCollateral, e.lDebt) else total
  }

  // An open trove holds both collateral and debt; a closed one neither, nor a stake.
  predicate IsProper(t: Trove, total: PerStake) {
    && t.stake >= 0 && t.collateral >= 0
    && (t.status.Open? <==> t.collateral > 0) && (if t.collateral > 0 then t.debt > 0 else t.debt == 0 && t.stake == 0)
    && 0 <= t.snapshot.collateral <= total.collateral && 0 <= t.snapshot.debt <= total.debt
  }

  predicate AllProper(troves: map<Address, Trove>, known: set<Address>, total: PerStake) {
    && troves.Keys == known && total.collateral >= 0 && total.debt >= 0
    && forall a :: a in troves ==> IsProper(troves[a], total)
  }

  lemma GainOfProper(t: Trove, total: PerStake)
    requires IsProper(t, total)
    ensures Gain(t.stake, t.snapshot.collateral, total.collateral) >= 0
            && Gain(t.stake, t.snapshot.debt, total.debt) >= 0
    ensures t.collateral == 0 ==>
              && Gain(t.stake, t.snapshot.collateral, total.collateral) == 0
              && Gain(t.stake, t.snapshot.debt, total.debt) == 0
  {
    GainIsNotNegative(t.stake, t.snapshot.collateral, total.collateral);
    GainIsNotNegative(t.stake, t.snapshot.debt, total.debt);
  }

  lemma StepKeepsProper(db: Db, e: Event, db': Db, rest: seq<Event>, known: set<Address>)
    requires TroveStep(db, e.body, db') && (e.body.TroveLiquidated? ==> e.body.borrower in db.troves)
    requires AllProper(db.troves, known, db.global.redistributed)
    requires WellFormed(known, db.global.redistributed, [e] + rest)
    ensures !Drifts(db, e.body)
    ensures AllProper(db'.troves, KnownAfter(known, e.body), db'.global.redistributed)
    ensures db'.global.redistributed == TotalAfter(db.global.redistributed, e.body)
    ensures WellFormed(KnownAfter(known, e.body), db'.global.redistributed, rest)
  {
    assert ([e] + rest)[0] == e && ([e] + rest)[1..] == rest;
    if e.body.TroveLiquidated? {
      GainOfProper(db.troves[e.body.borrower], db.global.redistributed);
    }
  }

  lemma {:induction false} WellFormedDoesNotDrift(db: Db, events: seq<Event>, known: set<Address>)
    requires RunEnabled(db, events) && WellFormed(known, db.global.redistributed, events)
    requires AllProper(db.troves, known, db.global.redistributed)
    ensures NeverDrifts(db, events)
    decreases events
  {
    if events == [] {
      assert NeverDrifts(db, []);
    } else {
      assert events == [events[0]] + events[1..];
      HandleIsTroveStep(db, events[0]);
      StepKeepsProper(db, events[0], Handle(db, events[0]), events[1..], known);
      WellFormedDoesNotDrift(Handle(db, events[0]), events[1..], KnownAfter(known, events[0].body));
    }
  }

  // On well-formed events no counter ever drifts, and so all of them match the stored troves.
  lemma WellFormedRunNeverDrifts(db0: Db, events: seq<Event>)
    requires Fresh(db0) && RunEnabled(db0, events) && WellFormed({}, PerStake(0, 0), events)
    ensures NeverDrifts(db0, events) && CountersMatch(Run(db0, events))
  {
    assert db0.troves.Keys == {};
    assert db0.global.redistributed == PerStake(0, 0);
    WellFormedDoesNotDrift(db0, events, {});
    CountersMatchIffNoDrift(db0, events);
  }

  // ---------- Sort keys and snapshots ----------

  predicate KeysValid(troves: map<Address, Trove>) {
    forall a :: a in troves ==>
      var t := troves[a];
      && t.stake >= 0 && (t.stake > 0 ==> t.debt >= 0)
      && t.sortKey == if t.stake > 0 then Some(SortKey(t.debt, t.stake, t.snapshot.debt)) else None
  }

  predicate SnapshotsBehind(troves: map<Address, Trove>, total: PerStake) {
    && total.collateral >= 0 && total.debt >= 0
    && forall a :: a in troves ==>
         var t := troves[a];
         && 0 <= t.snapshot.collateral <= total.collateral && 0 <= t.snapshot.debt <= total.debt
         && t.collateral >= 0 && t.debt >= 0
  }

  predicate TotalsRise(db: Db, e: Body) {
    e.LTermsUpdated? ==>
      db.global.redistributed.collateral <= e.lCollateral && db.global.redistributed.debt <= e.lDebt
  }

  predicate TotalsRiseOn(db: Db, events: seq<Event>)
    requires RunEnabled(db, events)
    decreases events
  {
    events == [] || (TotalsRise(db, events[0].body) && TotalsRiseOn(Handle(db, events[0]), events[1..]))
  }

  lemma StepKeepsKeys(db: Db, e: Body, db': Db)
    requires TroveStep(db, e, db') && KeysValid(db.troves)
    ensures KeysValid(db'.troves)
  {
  }

  lemma GainIsNotNegative(stake: int, snapshot: int, total: int)
    requires stake >= 0 && snapshot <= total
    ensures Gain(stake, snapshot, total) >= 0
  {
    ProductNotNegative(total - snapshot, stake);
  }

  lemma StepKeepsSnapshots(db: Db, e: Body, db': Db)
    requires TroveStep(db, e, db') && TotalsRise(db, e) && (e.TroveLiquidated? ==> e.borrower in db.troves)
    requires KeysValid(db.troves) && SnapshotsBehind(db.troves, db.global.redistributed)
    ensures SnapshotsBehind(db'.troves, db'.global.redistributed)
  {
    if e.TroveLiquidated? {
      var t, total := db.troves[e.borrower], db.global.redistributed;
      GainIsNotNegative(t.stake, t.snapshot.collateral, total.collateral);
      GainIsNotNegative(t.stake, t.snapshot.debt, total.debt);
    }
  }

  lemma {:induction false} RunKeepsKeys(db: Db, events: seq<Event>)
    requires RunEnabled(db, events) && KeysValid(db.troves)
    ensures KeysValid(Run(db, events).troves)
    ensures TotalsRiseOn(db, events) && SnapshotsBehind(db.troves, db.global.redistributed) ==>
              SnapshotsBehind(Run(db, events).troves, Run(db, events).global.redistributed)
    decreases events
  {
    if events == [] {
    } else {
      HandleIsTroveStep(db, events[0]);
      StepKeepsKeys(db, events[0].body, Handle(db, events[0]));
      if TotalsRise(db, events[0].body) && SnapshotsBehind(db.troves, db.global.redistributed) {
        StepKeepsSnapshots(db, events[0].body, Handle(db, events[0]));
      }
      RunKeepsKeys(Handle(db, events[0]), events[1..]);
    }
  }

  // The debt of a stored trove with its pending share, per stake, floored.
  function DebtPerStake(t: Trove, total: PerStake): int
    requires t.stake > 0
  {
    ScaledDebt(t.debt, t.stake, t.snapshot.debt, total.debt) / t.stake
  }

  // On every run, whenever it is read, the order of the stored sort
  // keys is the order of the troves' current debt per stake, although the keys were
  // computed at different times and never updated since.
  lemma SortKeysStayCurrent(db0: Db, events: seq<Event>, a: Address, b: Address)
    requires Fresh(db0) && RunEnabled(db0, events)
    ensures var db := Run(db0, events);
            a in db.troves && b in db.troves && db.troves[a].stake > 0 && db.troves[b].stake > 0 ==>
              var t, u, total := db.troves[a], db.troves[b], db.global.redistributed;
              && t.sortKey.Some? && u.sortKey.Some?
              && t.sortKey.value + total.debt == DebtPerStake(t, total)
              && (t.sortKey.value <= u.sortKey.value <==> DebtPerStake(t, total) <= DebtPerStake(u, total))
  {
    RunKeepsKeys(db0, events);
    var db := Run(db0, events);
    if a in db.troves && b in db.troves && db.troves[a].stake > 0 && db.troves[b].stake > 0 {
      var t, u := db.troves[a], db.troves[b];
      SortKeyIsRedistributionProof(t.debt, t.stake, t.snapshot.debt, db.global.redistributed.debt);
      SortKeyIsRedistributionProof(u.debt, u.stake, u.snapshot.debt, db.global.redistributed.debt);
    }
  }

  // On runs whose totals never fall, the indexer's accrual before a liquidation is
  // lib-base's redistribution.
  lemma AccrualMatchesLibrary(db0: Db, events: seq<Event>, a: Address)
    requires Fresh(db0) && RunEnabled(db0, events) && TotalsRiseOn(db0, events)
    requires a in Run(db0, events).troves
    ensures var db := Run(db0, events);
            var t, total := db.troves[a], db.global.redistributed;
            && t.collateral >= 0 && t.debt >= 0 && t.stake >= 0
            && t.snapshot.collateral >= 0 && t.snapshot.debt >= 0 && total.collateral >= 0 && total.debt >= 0
            && var r := ApplyRedistribution(Troves.Trove(t.collateral, t.debt), t.stake,
                                            Troves.Trove(t.snapshot.collateral, t.snapshot.debt),
                                            Troves.Trove(total.collateral, total.debt));
               r.collateral == AccruedCollateral(db, a) && r.debt == AccruedDebt(db, a)
  {
    RunKeepsKeys(db0, events);
    var db := Run(db0, events);
    var t, total := db.troves[a], db.global.redistributed;
    IndexerMatchesLibrary(t.stake, t.snapshot.collateral, total.collateral);
    IndexerMatchesLibrary(t.stake, t.snapshot.debt, total.debt);
  }
}
