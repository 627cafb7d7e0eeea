// The two counters of protocol token stakes, on every run: how far they are off from the
// stored stakes, and exactly when they are right.
module IndexerStakes {
  import opened Wrappers
  import opened Entities
  import opened IndexerSpec
  import opened IndexerEvents
  import opened IndexerBooks
  import opened MapSums

  function Active(stakes: map<Address, int>): map<Address, int> {
    map a | a in stakes :: if stakes[a] != 0 then 1 else 0
  }

  // The stored stakes that hold something.
  ghost function NumberActive(stakes: map<Address, int>): int { Sum(Active(stakes)) }

  lemma ActiveAfter(stakes: map<Address, int>, a: Address, amount: int)
    ensures NumberActive(stakes[a := amount])
            == NumberActive(stakes) - (if At(stakes, a) != 0 then 1 else 0) + (if amount != 0 then 1 else 0)
  {
    var mark := if amount != 0 then 1 else 0;
    SumUpdate(Active(stakes), a, mark);
    assert Active(stakes[a := amount]) == Active(stakes)[a := mark];
  }

  lemma StoredAfter(stakes: map<Address, int>, a: Address, amount: int)
    ensures |stakes[a := amount]| == |stakes| + if a in stakes then 0 else 1
  {
    assert stakes[a := amount].Keys == stakes.Keys + {a};
    if a in stakes {
      assert stakes.Keys + {a} == stakes.Keys;
    }
  }

  // ---------- What one event does ----------

  // A stake that holds nothing is removed: it is not active any more, for once too often.
  predicate RemovesNothing(db: Db, e: Body) {
    e.StakeChanged? && e.newStake == 0 && At(db.stakes, e.staker) == 0
  }

  // A stake is stored for the first time, but not by putting something in: it is never
  // counted in the total.
  predicate StoresNothing(db: Db, e: Body) {
    || (e.StakeChanged? && e.newStake == 0 && e.staker !in db.stakes)
    || (e.StakeGainsWithdrawn? && (e.debtTokenGain != 0 || e.collateralGain != 0) && e.staker !in db.stakes)
  }

  // What every event does to the stakes and their counters.
  ghost predicate StakeStep(stakes: map<Address, int>, c: StakeCounts, e: Body, stakes': map<Address, int>,
                            c': StakeCounts) {
    match e
    case StakeChanged(a, amount) =>
      var before := At(stakes, a);
      && stakes' == stakes[a := amount]
      && c'.active == c.active + (if before == 0 < amount then 1 else if amount == 0 then -1 else 0)
      && c'.total == c.total + (if amount > 0 && a !in stakes then 1 else 0)
    case StakeGainsWithdrawn(a, issuance, redemption) =>
      c' == c && stakes' == if issuance == 0 && redemption == 0 then stakes else stakes[a := At(stakes, a)]
    case _ => stakes' == stakes && c' == c
  }

  ghost predicate Usual(db: Db) {
    StakesOwned(db) && forall a :: a in db.stakes ==> db.stakes[a] >= 0
  }

  lemma OwnStake(db: Db, a: Address)
    requires StakesOwned(db)
    ensures StakeId(db, a) == a && StakeOf(db, a) == At(db.stakes, a) && (HasStake(db, a) <==> a in db.stakes)
  {
  }

  lemma StakeChangeSteps(db: Db, tx: TxId, a: Address, amount: nat, db': Db)
    requires Usual(db) && StakeMoved(db, db', tx, a, amount)
    ensures StakeStep(db.stakes, db.global.stakes, StakeChanged(a, amount), db'.stakes, db'.global.stakes)
  {
    OwnStake(db, a);
  }

  lemma StakeGainsStep(db: Db, tx: TxId, a: Address, issuance: nat, redemption: nat, db': Db)
    requires Usual(db) && StakeGained(db, db', tx, a, issuance, redemption)
    ensures StakeStep(db.stakes, db.global.stakes, StakeGainsWithdrawn(a, issuance, redemption), db'.stakes,
                      db'.global.stakes)
  {
    OwnStake(db, a);
  }

  lemma UpdatedLeavesStakes(db: Db, db': Db, tx: TxId, a: Address, amount: int)
    requires Updated(db, db', tx, a, amount)
    ensures db'.stakes == db.stakes && db'.global.stakes == db.global.stakes
  {
  }

  lemma DepositLeavesStakes(db: Db, tx: TxId, a: Address, amount: int, db': Db)
    requires DepositTaken(db, db', tx, a, amount)
    ensures db'.stakes == db.stakes && db'.global.stakes == db.global.stakes
  {
    if db.global.tmpDepositUpdate.Some? {
      UpdatedLeavesStakes(WithPending(db, None), db', tx, a, amount);
    }
  }

  lemma GainLeavesStakes(db: Db, tx: TxId, a: Address, collateral: int, loss: int, db': Db)
    requires GainTaken(db, db', tx, a, collateral, loss)
    ensures db'.stakes == db.stakes && db'.global.stakes == db.global.stakes
  {
    if db.global.tmpDepositUpdate.Some? {
      var start, pending := WithPending(db, None), db.global.tmpDepositUpdate.value;
      var db1 :| Withdrawn(start, db1, tx, a, collateral, loss) && Updated(db1, db', tx, a, pending);
      assert db1.stakes == db.stakes && db1.global.stakes == db.global.stakes;
    }
  }

  lemma OthersLeaveStakes(db: Db, e: Event, db': Db)
    requires Leaves(db, e, db') && !e.body.IsStakeEvent()
    ensures db'.stakes == db.stakes && db'.global.stakes == db.global.stakes
  {
    match e.body {
      case UserDepositChanged(a, amount) => DepositLeavesStakes(db, e.tx, a, amount, db');
      case GainWithdrawn(a, collateral, loss) => GainLeavesStakes(db, e.tx, a, collateral, loss, db');
      case _ =>
    }
  }

  lemma UpdateStakeSteps(db: Db, tx: TxId, a: Address, amount: nat, db': Db)
    requires Usual(db) && db' == UpdateStake(db, tx, a, amount)
    ensures StakeStep(db.stakes, db.global.stakes, StakeChanged(a, amount), db'.stakes, db'.global.stakes)
  {
    StakeEvent(db, tx, a, amount);
    StakeChangeSteps(db, tx, a, amount, db');
  }

  lemma WithdrawStakeGainsSteps(db: Db, tx: TxId, a: Address, issuance: nat, redemption: nat, db': Db)
    requires Usual(db) && db' == WithdrawStakeGains(db, tx, a, issuance, redemption)
    ensures StakeStep(db.stakes, db.global.stakes, StakeGainsWithdrawn(a, issuance, redemption), db'.stakes,
                      db'.global.stakes)
  {
    StakeGainsEvent(db, tx, a, issuance, redemption);
    StakeGainsStep(db, tx, a, issuance, redemption, db');
  }

  lemma OtherSteps(db: Db, e: Event, db': Db)
    requires Enabled(db, e) && !e.body.IsStakeEvent() && db' == Handle(db, e)
    ensures StakeStep(db.stakes, db.global.stakes, e.body, db'.stakes, db'.global.stakes)
  {
    EveryEvent(db, e);
    OthersLeaveStakes(db, e, db');
  }

  lemma StakeEventSteps(db: Db, e: Event, db': Db)
    requires Usual(db) && e.body.IsStakeEvent() && db' == HandleStakeEvent(db, e.tx, e.body)
    ensures StakeStep(db.stakes, db.global.stakes, e.body, db'.stakes, db'.global.stakes)
  {
    match e.body {
      case StakeChanged(a, amount) => UpdateStakeSteps(db, e.tx, a, amount, db');
      case StakeGainsWithdrawn(a, issuance, redemption) =>
        WithdrawStakeGainsSteps(db, e.tx, a, issuance, redemption, db');
    }
  }

  lemma HandleStepsStakes(db: Db, e: Event)
    requires Enabled(db, e) && Usual(db)
    ensures var db' := Handle(db, e);
            StakeStep(db.stakes, db.global.stakes, e.body, db'.stakes, db'.global.stakes)
  {
    if e.body.IsStakeEvent() {
      StakeEventSteps(db, e, Handle(db, e));
    } else {
      OtherSteps(db, e, Handle(db, e));
    }
  }

  // ---------- How far the counters are off ----------

  ghost function ActiveLead(stakes: map<Address, int>, c: StakeCounts): int { c.active - NumberActive(stakes) }

  ghost function TotalLead(stakes: map<Address, int>, c: StakeCounts): int { c.total - |stakes| }

  lemma StepLeads(db: Db, e: Body, stakes': map<Address, int>, c': StakeCounts)
    requires Usual(db) && StakeStep(db.stakes, db.global.stakes, e, stakes', c')
    ensures ActiveLead(stakes', c')
            == ActiveLead(db.stakes, db.global.stakes) - (if RemovesNothing(db, e) then 1 else 0)
    ensures TotalLead(stakes', c')
            == TotalLead(db.stakes, db.global.stakes) - (if StoresNothing(db, e) then 1 else 0)
    ensures forall a :: a in stakes' ==> stakes'[a] >= 0
  {
    match e {
      case StakeChanged(a, amount) =>
        ActiveAfter(db.stakes, a, amount);
        StoredAfter(db.stakes, a, amount);
      case StakeGainsWithdrawn(a, _, _) =>
        ActiveAfter(db.stakes, a, At(db.stakes, a));
        StoredAfter(db.stakes, a, At(db.stakes, a));
      case _ =>
    }
  }

  // How many events of a run remove a stake that holds nothing.
  function EmptyRemovals(db: Db, events: seq<Event>): nat
    requires RunEnabled(db, events)
    decreases events
  {
    if events == [] then 0
    else (if RemovesNothing(db, events[0].body) then 1 else 0) + EmptyRemovals(Handle(db, events[0]), events[1..])
  }

  // How many stakes of a run are stored first without anything in them.
  function EmptyStarts(db: Db, events: seq<Event>): nat
    requires RunEnabled(db, events)
    decreases events
  {
    if events == [] then 0
    else (if StoresNothing(db, events[0].body) then 1 else 0) + EmptyStarts(Handle(db, events[0]), events[1..])
  }

  lemma {:induction false} RunLeads(db: Db, events: seq<Event>)
    requires RunEnabled(db, events) && Consistent(db) && Usual(db)
    ensures var db' := Run(db, events);
            && ActiveLead(db'.stakes, db'.global.stakes)
               == ActiveLead(db.stakes, db.global.stakes) - EmptyRemovals(db, events)
            && TotalLead(db'.stakes, db'.global.stakes)
               == TotalLead(db.stakes, db.global.stakes) - EmptyStarts(db, events)
    decreases events
  {
    if events == [] {
    } else {
      var db1 := Handle(db, events[0]);
      HandleStepsStakes(db, events[0]);
      StepLeads(db, events[0].body, db1.stakes, db1.global.stakes);
      HandleKeepsConsistent(db, events[0]);
      RunLeads(db1, events[1..]);
    }
  }

  lemma NoStakes(stakes: map<Address, int>, c: StakeCounts)
    requires stakes == map[] && c == StakeCounts(0, 0)
    ensures ActiveLead(stakes, c) == 0 && TotalLead(stakes, c) == 0
  {
    assert Active(stakes) == map[];
  }

  lemma FreshIsUsual(db0: Db)
    requires Fresh(db0)
    ensures Usual(db0) && db0.stakes == map[] && db0.global.stakes == StakeCounts(0, 0)
  {
  }

  lemma LeadsFrom(db: Db, events: seq<Event>)
    requires RunEnabled(db, events) && Consistent(db) && Usual(db)
    requires ActiveLead(db.stakes, db.global.stakes) == 0 && TotalLead(db.stakes, db.global.stakes) == 0
    ensures var db' := Run(db, events);
            && NumberActive(db'.stakes) == db'.global.stakes.active + EmptyRemovals(db, events)
            && |db'.stakes| == db'.global.stakes.total + EmptyStarts(db, events)
  {
    RunLeads(db, events);
  }

  // On every run, the number of active stakes is the counter plus the removals of stakes
  // that held nothing, and the number of stored stakes is the total plus those that were
  // first stored without anything in them.
  lemma StakeCounters(db0: Db, events: seq<Event>)
    requires Fresh(db0) && RunEnabled(db0, events)
    ensures var db := Run(db0, events);
            && NumberActive(db.stakes) == db.global.stakes.active + EmptyRemovals(db0, events)
            && |db.stakes| == db.global.stakes.total + EmptyStarts(db0, events)
  {
    FreshIsUsual(db0);
    NoStakes(db0.stakes, db0.global.stakes);
    FreshIsConsistent(db0);
    LeadsFrom(db0, events);
  }

  // So each counter is right if and only if no such event happened.
  lemma StakeCountersMatchIff(db0: Db, events: seq<Event>)
    requires Fresh(db0) && RunEnabled(db0, events)
    ensures var db := Run(db0, events);
            && (db.global.stakes.active == NumberActive(db.stakes) <==> EmptyRemovals(db0, events) == 0)
            && (db.global.stakes.total == |db.stakes| <==> EmptyStarts(db0, events) == 0)
  {
    StakeCounters(db0, events);
  }

  // What is asked of the events alone, given the stakes so far: nothing is removed from a
  // stake that holds nothing, and no gains come before the first stake.
  predicate WellStaked(stakes: map<Address, int>, events: seq<Event>)
    decreases events
  {
    if events == [] then true
    else match events[0].body
      case StakeChanged(a, amount) =>
        (amount > 0 || At(stakes, a) > 0) && WellStaked(stakes[a := amount], events[1..])
      case StakeGainsWithdrawn(a, issuance, redemption) =>
        (a in stakes || (issuance == 0 && redemption == 0)) && WellStaked(stakes, events[1..])
      case _ => WellStaked(stakes, events[1..])
  }

  lemma WellStakedStep(db: Db, e: Event, rest: seq<Event>, stakes': map<Address, int>, c': StakeCounts)
    requires WellStaked(db.stakes, [e] + rest) && StakeStep(db.stakes, db.global.stakes, e.body, stakes', c')
    ensures !RemovesNothing(db, e.body) && !StoresNothing(db, e.body) && WellStaked(stakes', rest)
  {
    assert ([e] + rest)[1..] == rest;
    if e.body.StakeGainsWithdrawn? && e.body.staker in db.stakes {
      assert stakes' == db.stakes;
    }
  }

  lemma {:induction false} WellStakedRun(db: Db, events: seq<Event>)
    requires RunEnabled(db, events) && Consistent(db) && Usual(db) && WellStaked(db.stakes, events)
    ensures EmptyRemovals(db, events) == 0 && EmptyStarts(db, events) == 0
    decreases events
  {
    if events == [] {
    } else {
      var e, db1 := events[0], Handle(db, events[0]);
      HandleStepsStakes(db, e);
      StepLeads(db, e.body, db1.stakes, db1.global.stakes);
      assert [e] + events[1..] == events;
      WellStakedStep(db, e, events[1..], db1.stakes, db1.global.stakes);
      HandleKeepsConsistent(db, e);
      WellStakedRun(db1, events[1..]);
    }
  }

  // Then both counters are right on the whole run.
  lemma WellStakedRunMatches(db0: Db, events: seq<Event>)
    requires Fresh(db0) && RunEnabled(db0, events) && WellStaked(map[], events)
    ensures var db := Run(db0, events);
            db.global.stakes.active == NumberActive(db.stakes) && db.global.stakes.total == |db.stakes|
  {
    FreshIsUsual(db0);
    FreshIsConsistent(db0);
    WellStakedRun(db0, events);
    StakeCounters(db0, events);
  }

  lemma OnlyEvent(db: Db, e: Event)
    requires Enabled(db, e)
    ensures RunEnabled(db, [e]) && Run(db, [e]) == Handle(db, e)
  {
    assert [e][1..] == [];
  }

  lemma NothingRemovedFrom(db: Db, tx: TxId, a: Address, db': Db)
    requires Usual(db) && db.stakes == map[] && db.global.stakes == StakeCounts(0, 0)
    requires db' == UpdateStake(db, tx, a, 0)
    ensures db'.global.stakes == StakeCounts(0, -1) && db'.stakes == map[a := 0]
  {
    UpdateStakeSteps(db, tx, a, 0, db');
  }

  // One removal by a user who never staked makes both wrong, and the active ones negative.
  lemma NothingIsRemoved(db0: Db, tx: TxId, sender: Address, a: Address)
    requires Fresh(db0)
    ensures var events := [Event(tx, sender, StakeChanged(a, 0))];
            && RunEnabled(db0, events)
            && var db := Run(db0, events);
               db.global.stakes == StakeCounts(0, -1) && db.stakes == map[a := 0]
  {
    var e := Event(tx, sender, StakeChanged(a, 0));
    FreshIsUsual(db0);
    NothingRemovedFrom(db0, tx, a, UpdateStake(db0, tx, a, 0));
    OnlyEvent(db0, e);
  }
}
