// Short runs of the indexer, from the first event on, on which a property fails that
// holds only under a condition.
module IndexerWitnesses {
  import opened Wrappers
  import opened Entities
  import opened IndexerSpec
  import opened IndexerSteps
  import opened IndexerTroves
  import opened IndexerPairs

  function AtOnce(body: Body): Event {
    Event(0, 0, body)
  }

  // ---------- Counters ----------

  // One event: a trove nobody has seen before, with nothing in it, is counted as open
  // and never stored.
  lemma PhantomIsCounted(db0: Db)
    requires Fresh(db0)
    ensures var events := [AtOnce(TroveUpdated(AdjustTrove, 7, 0, 0, 0))];
            RunEnabled(db0, events) && !CountersMatch(Run(db0, events))
  {
    var e := AtOnce(TroveUpdated(AdjustTrove, 7, 0, 0, 0));
    RunOne(db0, e, []);
    CountersMatchIffNoDrift(db0, [e]);
    assert Drifts(db0, e.body);
  }

  lemma CommitMovesState(db: Db, tx: TxId, detail: Detail)
    ensures Current(Commit(db, tx, detail)).price == Effect(Current(db), detail).price
  {
    TransactionKeeps(db, tx);
    TransactionKeepsState(db, tx);
    StateKeeps(EnsureTransaction(db, tx));
  }

  lemma StoreKeepsState(db: Db, op: TroveOperation, a: Address, collateral: int, debt: int, stake: nat)
    ensures Current(StoreTrove(db, op, a, collateral, debt, stake)) == Current(db)
  {
  }

  lemma UpdateTroveKeepsPrice(db: Db, tx: TxId, sender: Address, op: TroveOperation, a: Address,
                              collateral: int, debt: int, stake: nat)
    ensures Current(UpdateTrove(db, tx, sender, op, a, collateral, debt, stake)).price == Current(db).price
  {
    var db1 := LookUpTrove(db, a);
    LookUpKeeps(db, a);
    if IsTroveChange(db, a, collateral, debt) {
      var db2 := OpenGroup(db1, tx, sender, op);
      var detail := TroveChange(DeltaOf(db2, op, a, collateral, debt));
      GroupKeeps(db1, tx, sender, op);
      CommitMovesState(db2, tx, detail);
      StoreKeepsState(Commit(db2, tx, detail), op, a, collateral, debt, stake);
    }
  }

  lemma FirstPriceIsFilled(db0: Db, price: nat)
    requires Fresh(db0)
    ensures Current(Handle(db0, AtOnce(PriceUpdated(price)))).price.Some?
    ensures Handle(db0, AtOnce(PriceUpdated(price))).troves == map[]
  {
    StateKeeps(db0);
  }

  // A trove that is stored without collateral is closed; closing it again in another way
  // leaves it in both counters.
  lemma TwiceClosedIsCountedTwice(db0: Db)
    requires Fresh(db0)
    ensures var events := [AtOnce(PriceUpdated(1)), AtOnce(TroveUpdated(CloseTrove, 7, 0, 1, 0)),
                           AtOnce(TroveUpdated(RedeemCollateral, 7, 0, 2, 0))];
            RunEnabled(db0, events) && !CountersMatch(Run(db0, events))
  {
    var e1, e2, e3 := AtOnce(PriceUpdated(1)), AtOnce(TroveUpdated(CloseTrove, 7, 0, 1, 0)),
                      AtOnce(TroveUpdated(RedeemCollateral, 7, 0, 2, 0));
    FirstPriceIsFilled(db0, 1);
    var db1 := Handle(db0, e1);
    ClosedTwice(db1, e2, e3);
    var events := [e1, e2, e3];
    assert events[0] == e1 && events[1..] == [e2, e3];
    CountersMatchIffNoDrift(db0, events);
  }

  lemma ClosedTwice(db: Db, e: Event, e': Event)
    requires Current(db).price.Some? && db.troves == map[]
    requires e == AtOnce(TroveUpdated(CloseTrove, 7, 0, 1, 0))
    requires e' == AtOnce(TroveUpdated(RedeemCollateral, 7, 0, 2, 0))
    ensures RunEnabled(db, [e, e']) && !NeverDrifts(db, [e, e'])
  {
    FirstClosing(db, e);
    SecondClosing(Handle(db, e), e');
    DriftsInTwo(db, e, e');
  }

  lemma FirstClosing(db: Db, e: Event)
    requires Current(db).price.Some? && db.troves == map[] && e == AtOnce(TroveUpdated(CloseTrove, 7, 0, 1, 0))
    ensures Enabled(db, e) && Current(Handle(db, e)).price.Some?
    ensures var t := TroveOf(Handle(db, e), 7);
            7 in Handle(db, e).troves && t.status == ClosedByOwner && t.collateral == 0 && t.debt == 1
  {
    UpdateTroveKeepsPrice(db, 0, 0, CloseTrove, 7, 0, 1, 0);
    HandleIsTroveStep(db, e);
  }

  lemma SecondClosing(db: Db, e: Event)
    requires Current(db).price.Some? && e == AtOnce(TroveUpdated(RedeemCollateral, 7, 0, 2, 0))
    requires var t := TroveOf(db, 7); 7 in db.troves && t.status == ClosedByOwner && t.collateral == 0 && t.debt == 1
    ensures Enabled(db, e) && Drifts(db, e.body)
  {
    assert Recloses(db, RedeemCollateral, 7, 0, 2);
  }

  lemma DriftsInTwo(db: Db, e: Event, e': Event)
    requires Enabled(db, e) && Enabled(Handle(db, e), e') && Drifts(Handle(db, e), e'.body)
    ensures RunEnabled(db, [e, e']) && !NeverDrifts(db, [e, e'])
  {
    assert [e, e'][0] == e && [e, e'][1..] == [e'];
    RunOne(Handle(db, e), e', []);
  }

  // ---------- Deposits ----------

  // One event leaves an update pending, and then the order of the next pair matters: even
  // of a pair that withdraws everything.
  lemma LoneEventMakesOrderMatter(db0: Db)
    requires Fresh(db0)
    ensures var lone := AtOnce(UserDepositChanged(7, 5));
            var o := Operation(1, 0, 7, 0, 0, 0);
            && RunEnabled(db0, [lone])
            && var db := Run(db0, [lone]);
               && RunEnabled(db, InOrder(o, true)) && RunEnabled(db, InOrder(o, false))
               && Run(db, InOrder(o, true)) != Run(db, InOrder(o, false))
  {
    var lone := AtOnce(UserDepositChanged(7, 5));
    RunOne(db0, lone, []);
    var db := Run(db0, [lone]);
    assert db == SwapPending(db0, 5);
    OrderDoesNotMatterIff(db, Operation(1, 0, 7, 0, 0, 0));
  }
}
