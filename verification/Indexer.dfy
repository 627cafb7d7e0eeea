// The indexer as it runs: handlers load copies of entities, change the copies, and
// save them back. Every method is proved to have the one-step effect of IndexerSpec,
// so no nested save of the Global record is lost.
module Indexer {
  import opened Wrappers
  import opened Decimals
  import opened Entities
  import opened Redistribution
  import opened IndexerSpec
  import opened IndexerSteps

  // The part of a change entity that is filled in before the system state moves.
  datatype Started = Started(sequenceNumber: int, transaction: TxId, systemStateBefore: int)

  class Store {
    var global: Global
    var systemStates: map<int, SystemState>
    var changes: map<int, Change>
    var transactions: map<TxId, Transaction>
    var users: map<Address, User>
    var troves: map<Address, Trove>
    var deposits: map<Address, int>
    var stakes: map<Address, int>
    var liquidations: map<int, Liquidation>
    var redemptions: map<int, Redemption>

    ghost function Contents(): Db
      reads this
    {
      Db(global, systemStates, changes, transactions, users, troves, deposits, stakes, liquidations, redemptions)
    }

    constructor ()
      ensures Fresh(Contents())
    {
      global := NEW_GLOBAL;
      systemStates, changes, transactions := map[], map[], map[];
      users, troves, deposits, stakes := map[], map[], map[], map[];
      liquidations, redemptions := map[], map[];
    }

    // ---------- Global ----------

    method IncreaseCounter(key: Counter) returns (count: int)
      modifies this`global
      ensures count == CountOf(old(global).count, key)
      ensures Contents() == WithCounts(old(Contents()), SetCount(old(global).count, key, count + 1))
    {
      var g := global;
      count := CountOf(g.count, key);
      g := g.(count := SetCount(g.count, key, count + 1));
      global := g;
    }

    method AdjustStatusCounter(status: TroveStatus, delta: int, openDelta: int)
      modifies this`global
      ensures Contents() ==
              WithTroveCounts(old(Contents()),
                              CountStatus(CountStatus(old(global).troves, status, delta), Open, openDelta))
    {
      var g := global;
      g := g.(troves := CountStatus(g.troves, status, delta));
      g := g.(troves := CountStatus(g.troves, Open, openDelta));
      global := g;
    }

    // ---------- Users and transactions ----------

    method GetUser(a: Address) returns (user: User)
      modifies this`users
      ensures Contents() == EnsureUser(old(Contents()), a)
      ensures a in users && user == users[a]
    {
      if a in users {
        return users[a];
      }
      user := NEW_USER;
      users := users[a := user];
    }

    method GetTransaction(tx: TxId)
      modifies this`global, this`transactions
      ensures Contents() == EnsureTransaction(old(Contents()), tx)
    {
      if tx !in transactions {
        var sequenceNumber := IncreaseCounter(Transactions);
        transactions := transactions[tx := Transaction(sequenceNumber)];
      }
    }

    // ---------- System states ----------

    method GetCurrentSystemState() returns (state: SystemState)
      modifies this`global, this`systemStates
      ensures Contents() == EnsureSystemState(old(Contents()))
      ensures state == Current(old(Contents())) == Current(Contents())
    {
      var id := global.currentSystemState;
      if id.Some? && id.value in systemStates {
        return systemStates[id.value];
      }
      var sequenceNumber := IncreaseCounter(SystemStates);
      state := NewSystemState(sequenceNumber);
      systemStates := systemStates[sequenceNumber := state];
      var g := global;
      g := g.(currentSystemState := Some(sequenceNumber));
      global := g;
    }

    // Save a state under the next number, leaving the one it was loaded from.
    method BumpSystemState(state: SystemState)
      modifies this`global, this`systemStates
      ensures Contents() == AddSystemState(old(Contents()), state)
    {
      var sequenceNumber := IncreaseCounter(SystemStates);
      var renumbered := state.(sequenceNumber := sequenceNumber);
      systemStates := systemStates[sequenceNumber := renumbered];
      var g := global;
      g := g.(currentSystemState := Some(sequenceNumber));
      global := g;
    }

    // ---------- Changes ----------

    method StartChange(tx: TxId) returns (started: Started)
      modifies this`global, this`transactions, this`systemStates
      ensures Contents() == CountChange(Prepare(old(Contents()), tx))
      ensures started == Started(old(global).count.changes, tx, global.currentSystemState.value)
    {
      ghost var db := Contents();
      var n := IncreaseCounter(Changes);
      GetTransaction(tx);
      var state := GetCurrentSystemState();
      PrepareCommutes(db, tx);
      started := Started(n, tx, global.currentSystemState.value);
    }

    method FinishChange(started: Started, detail: Detail)
      requires HasSystemState(Contents())
      modifies this`global, this`systemStates, this`changes
      ensures Contents() ==
              AddChange(old(Contents()),
                        Change(started.sequenceNumber, started.transaction, started.systemStateBefore,
                               old(global).currentSystemState.value, detail))
    {
      var state := GetCurrentSystemState();
      var after := global.currentSystemState.value;
      changes := changes[started.sequenceNumber :=
        Change(started.sequenceNumber, started.transaction, started.systemStateBefore, after, detail)];
    }

    // ---------- Moving the system state ----------

    method OffsetWithStabilityPool(s: SystemState, collateral: int, debt: int) returns (s': SystemState)
      ensures s' ==
        if debt <= s.tokensInStabilityPool then
          s.(totalCollateral := s.totalCollateral - collateral, totalDebt := s.totalDebt - debt,
             tokensInStabilityPool := s.tokensInStabilityPool - debt)
        else if s.tokensInStabilityPool > 0 then
          s.(totalCollateral := s.totalCollateral - TruncDiv(collateral * s.tokensInStabilityPool, debt),
             totalDebt := s.totalDebt - s.tokensInStabilityPool, tokensInStabilityPool := 0)
        else s
    {
      s' := s;
      if debt <= s.tokensInStabilityPool {
        // the pool has enough for all of the debt
        s' := s'.(totalCollateral := s'.totalCollateral - collateral);
        s' := s'.(totalDebt := s'.totalDebt - debt);
        s' := s'.(tokensInStabilityPool := s'.tokensInStabilityPool - debt);
      } else if s.tokensInStabilityPool > 0 {
        // the pool gives what it has
        s' := s'.(totalCollateral := s'.totalCollateral - TruncDiv(collateral * s'.tokensInStabilityPool, debt));
        s' := s'.(totalDebt := s'.totalDebt - s'.tokensInStabilityPool);
        s' := s'.(tokensInStabilityPool := 0);
      }
    }

    method MoveByTroveChange(s: SystemState, d: TroveDelta) returns (s': SystemState)
      requires s.price.Some?
      requires d.operation.LiquidateInRecoveryMode? ==> d.ratioBefore.Some?
      ensures s' == AfterTroveChange(s, d)
    {
      s' := s;
      if d.operation.IsBorrowerOperation() || d.operation.IsRedemption() {
        s' := s'.(totalCollateral := s'.totalCollateral + d.CollateralChange());
        s' := s'.(totalDebt := s'.totalDebt + d.DebtChange());
      } else if d.operation.IsLiquidation() {
        var gas := TruncDiv(d.collateralBefore, 200);
        s' := s'.(totalCollateral := s'.totalCollateral - gas);
        if !d.operation.LiquidateInRecoveryMode? || d.ratioBefore.value > DIGITS {
          s' := OffsetWithStabilityPool(s', d.collateralBefore - gas, d.debtBefore);
        }
      }
      s' := s'.(totalCollateralRatio := RatioOf(s'.totalCollateral, s'.totalDebt, s'.price.value));
    }

    method Move(s: SystemState, detail: Detail) returns (s': SystemState)
      requires detail.TroveChange? ==>
        s.price.Some? && (detail.delta.operation.LiquidateInRecoveryMode? ==> detail.delta.ratioBefore.Some?)
      ensures s' == Effect(s, detail)
    {
      s' := s;
      match detail {
        case TroveChange(d) =>
          s' := MoveByTroveChange(s, d);
        case DepositChange(_, op, before, after, _) =>
          if op == DepositTokens || op == WithdrawTokens {
            s' := s'.(tokensInStabilityPool := s'.tokensInStabilityPool + (after - before));
          }
        case PriceChange(change) =>
          s' := s'.(price := Some(s'.price.GetOr(0) + change));
        case CollSurplusChange(_, before, after) =>
          s' := s'.(collSurplusPoolBalance := s'.collSurplusPoolBalance + (after - before));
        case StakeChange(_, _, before, after, _, _) =>
          s' := s'.(totalProtocolTokensStaked := s'.totalProtocolTokensStaked + (after - before));
      }
    }

    // Load the current state, move the copy, and save it under the next number.
    method UpdateSystemState(detail: Detail)
      requires HasSystemState(Contents())
      requires detail.TroveChange? ==>
        && Current(Contents()).price.Some?
        && (detail.delta.operation.LiquidateInRecoveryMode? ==> detail.delta.ratioBefore.Some?)
      modifies this`global, this`systemStates
      ensures Contents() == AddSystemState(old(Contents()), Effect(Current(old(Contents())), detail))
    {
      var state := GetCurrentSystemState();
      state := Move(state, detail);
      BumpSystemState(state);
    }

    // Changes with nothing else between their start and their end.
    method CommitChange(tx: TxId, detail: Detail)
      requires !detail.TroveChange?
      modifies this`global, this`transactions, this`systemStates, this`changes
      ensures Contents() == Commit(old(Contents()), tx, detail)
    {
      ghost var db := Contents();
      var started := StartChange(tx);
      CurrentIsKept(db, tx);
      UpdateSystemState(detail);
      FinishChange(started, detail);
    }

    // ---------- Troves ----------

    method GetTrove(a: Address) returns (trove: Trove)
      modifies this`global, this`users
      ensures Contents() == LookUpTrove(old(Contents()), a)
      ensures trove == TroveOf(old(Contents()), a)
    {
      if a in troves {
        return troves[a];
      }
      var owner := GetUser(a);
      trove := NEW_TROVE;
      var g := global;
      g := g.(troves := g.troves.(open := g.troves.open + 1, total := g.troves.total + 1));
      global := g;
    }

    method SetTroveStatus(trove: Trove, status: TroveStatus) returns (trove': Trove)
      modifies this`global
      ensures trove' == trove.(status := status)
      ensures Contents() == WithTroveCounts(old(Contents()), CountTransition(old(global).troves, trove.status, status))
    {
      trove' := trove;
      if status != trove.status {
        if status == Open {
          AdjustStatusCounter(trove.status, -1, 1);
        } else {
          AdjustStatusCounter(status, 1, -1);
        }
        trove' := trove.(status := status);
      }
    }

    method SaveLiquidation(l: Liquidation)
      modifies this`global, this`liquidations
      ensures Contents() == StoreLiquidation(old(Contents()), l)
    {
      liquidations := liquidations[l.sequenceNumber := l];
      var g := global;
      g := g.(currentLiquidation := Some(l.sequenceNumber));
      global := g;
    }

    method SaveRedemption(r: Redemption)
      modifies this`global, this`redemptions
      ensures Contents() == StoreRedemption(old(Contents()), r)
    {
      redemptions := redemptions[r.sequenceNumber := r];
      var g := global;
      g := g.(currentRedemption := Some(r.sequenceNumber));
      global := g;
    }

    method GetCurrentLiquidation(tx: TxId, sender: Address) returns (id: int)
      modifies this`global, this`transactions, this`users, this`liquidations
      ensures Contents() == EnsureLiquidation(old(Contents()), tx, sender)
      ensures global.currentLiquidation == Some(id)
    {
      var current := global.currentLiquidation;
      if current.Some? && current.value in liquidations {
        return current.value;
      }
      ghost var db := Contents();
      id := IncreaseCounter(Liquidations);
      assert Contents() == CountLiquidation(db);
      GetTransaction(tx);
      var liquidator := GetUser(sender);
      LiquidationCountCommutes(db, tx, sender);
      assert Contents() == CountLiquidation(EnsureUser(EnsureTransaction(db, tx), sender));
      SaveLiquidation(Liquidation(id, tx, sender, 0, 0, 0, 0));
    }

    method GetCurrentRedemption(tx: TxId, sender: Address) returns (id: int)
      modifies this`global, this`transactions, this`users, this`redemptions
      ensures Contents() == EnsureRedemption(old(Contents()), tx, sender)
      ensures global.currentRedemption == Some(id)
    {
      var current := global.currentRedemption;
      if current.Some? && current.value in redemptions {
        return current.value;
      }
      ghost var db := Contents();
      id := IncreaseCounter(Redemptions);
      assert Contents() == CountRedemption(db);
      GetTransaction(tx);
      var redeemer := GetUser(sender);
      RedemptionCountCommutes(db, tx, sender);
      assert Contents() == CountRedemption(EnsureUser(EnsureTransaction(db, tx), sender));
      SaveRedemption(Redemption(id, tx, sender, 0, 0, 0, false, 0));
    }

    method GetGroup(tx: TxId, sender: Address, op: TroveOperation)
      returns (liquidation: Option<int>, redemption: Option<int>)
      modifies this`global, this`transactions, this`users, this`liquidations, this`redemptions
      ensures Contents() == OpenGroup(old(Contents()), tx, sender, op)
      ensures liquidation == if op.IsLiquidation() then global.currentLiquidation else None
      ensures redemption == if op.IsRedemption() then global.currentRedemption else None
    {
      liquidation, redemption := None, None;
      if op.IsLiquidation() {
        var id := GetCurrentLiquidation(tx, sender);
        liquidation := Some(id);
      }
      if op.IsRedemption() {
        var id := GetCurrentRedemption(tx, sender);
        redemption := Some(id);
      }
    }

    // From the creation of the change entity to its save.
    method RecordTroveChange(tx: TxId, sender: Address, op: TroveOperation, a: Address, trove: Trove, collateral: int,
                             debt: int)
      requires trove == TroveOf(Contents(), a)
      requires Current(Contents()).price.Some? && (op.LiquidateInRecoveryMode? ==> trove.debt != 0)
      modifies this`global, this`transactions, this`users, this`systemStates, this`changes, this`liquidations,
               this`redemptions
      ensures var db := OpenGroup(old(Contents()), tx, sender, op);
              Contents() == Commit(db, tx, TroveChange(DeltaOf(db, op, a, collateral, debt)))
    {
      ghost var db := Contents();
      var started := StartChange(tx);
      CurrentIsKept(db, tx);
      var current := GetCurrentSystemState();
      var price := current.price.value;
      var ratioBefore := RatioOf(trove.collateral, trove.debt, price);
      var ratioAfter := RatioOf(collateral, debt, price);
      var liquidation, redemption := GetGroup(tx, sender, op);
      GroupCommutes(db, tx, sender, op);
      GroupKeeps(db, tx, sender, op);
      CurrentIsKept(OpenGroup(db, tx, sender, op), tx);
      PrepareKeeps(OpenGroup(db, tx, sender, op), tx);
      var d := TroveDelta(a, op, trove.collateral, collateral, trove.debt, debt,
                          ratioBefore, ratioAfter, liquidation, redemption, None);
      UpdateSystemState(TroveChange(d));
      FinishChange(started, TroveChange(d));
    }

    method UpdateTrove(tx: TxId, sender: Address, op: TroveOperation, a: Address, collateral: int, debt: int,
                       stake: nat)
      requires TroveChangeEnabled(Contents(), op, a, collateral, debt)
      modifies this
      ensures Contents() == IndexerSpec.UpdateTrove(old(Contents()), tx, sender, op, a, collateral, debt, stake)
    {
      ghost var db := Contents();
      var g := global;  // a copy that goes stale below, and is only read
      var trove := GetTrove(a);
      if collateral == trove.collateral && debt == trove.debt {
        return;
      }
      LookUpKeeps(db, a);
      RecordTroveChange(tx, sender, op, a, trove, collateral, debt);
      ghost var db1 := OpenGroup(LookUpTrove(db, a), tx, sender, op);
      GroupKeeps(LookUpTrove(db, a), tx, sender, op);
      CommitKeeps(db1, tx, TroveChange(DeltaOf(db1, op, a, collateral, debt)));
      FinishTrove(op, a, trove, g.redistributed, collateral, debt, stake);
    }

    // The fields set after the change was saved, the status, and the save of the trove.
    method FinishTrove(op: TroveOperation, a: Address, trove: Trove, total: PerStake, collateral: int, debt: int,
                       stake: nat)
      requires trove.status == TroveOf(Contents(), a).status
      requires total == global.redistributed
      modifies this`global, this`troves
      ensures Contents() == StoreTrove(old(Contents()), op, a, collateral, debt, stake)
    {
      var t := trove.(collateral := collateral, debt := debt, stake := stake);
      if stake != 0 {
        t := t.(snapshot := total);
        t := t.(sortKey := Some(TruncDiv(debt * DIGITS, stake) - total.debt));
      } else {
        t := t.(snapshot := PerStake(0, 0));
        t := t.(sortKey := None);
      }
      if collateral == 0 {
        if op.IsLiquidation() {
          t := SetTroveStatus(t, ClosedByLiquidation);
        } else if op.IsRedemption() {
          t := SetTroveStatus(t, ClosedByRedemption);
        } else {
          t := SetTroveStatus(t, ClosedByOwner);
        }
      } else {
        t := SetTroveStatus(t, Open);
      }
      troves := troves[a := t];
    }

    method AccrueBeforeLiquidation(tx: TxId, sender: Address, a: Address)
      requires Enabled(Contents(), Event(tx, sender, TroveLiquidated(a)))
      modifies this
      ensures Contents() == AccrueTrove(old(Contents()), tx, sender, a)
    {
      var g := global;
      var trove := GetTrove(a);
      var redistributedCollateral := TruncDiv((g.redistributed.collateral - trove.snapshot.collateral) * trove.stake,
                                              DIGITS);
      var redistributedDebt := TruncDiv((g.redistributed.debt - trove.snapshot.debt) * trove.stake, DIGITS);
      UpdateTrove(tx, sender, AccrueRewards, a, trove.collateral + redistributedCollateral,
                  trove.debt + redistributedDebt, 0);
    }

    // ---------- Liquidations and redemptions ----------

    method FinishLiquidation(tx: TxId, sender: Address, e: Body)
      requires e.LiquidationFinished?
      modifies this`global, this`transactions, this`users, this`liquidations
      ensures Contents() == IndexerSpec.FinishLiquidation(old(Contents()), tx, sender, e)
    {
      var id := GetCurrentLiquidation(tx, sender);
      var current := liquidations[id];
      current := current.(collateral := e.liquidatedCollateral, debt := e.liquidatedDebt);
      current := current.(collateralGasCompensation := e.collateralGas, tokenGasCompensation := e.debtGas);
      liquidations := liquidations[id := current];
      var g := global;
      g := g.(currentLiquidation := None);
      global := g;
    }

    method FinishRedemption(tx: TxId, sender: Address, e: Body)
      requires e.RedemptionFinished?
      modifies this`global, this`transactions, this`users, this`redemptions
      ensures Contents() == IndexerSpec.FinishRedemption(old(Contents()), tx, sender, e)
    {
      var id := GetCurrentRedemption(tx, sender);
      var current := redemptions[id];
      current := current.(attempted := e.attempted, actual := e.actual, collateral := e.sent);
      current := current.(partial := e.actual < e.attempted, fee := e.fee);
      redemptions := redemptions[id := current];
      var g := global;
      g := g.(currentRedemption := None);
      g := g.(feesPaid := g.feesPaid.(redemption := g.feesPaid.redemption + e.fee));
      global := g;
    }

    method PayBorrowingFee(fee: int)
      requires LastIsTroveChange(Contents())
      modifies this`global, this`changes
      ensures Contents() == IndexerSpec.PayBorrowingFee(old(Contents()), fee)
    {
      var n := global.count.changes - 1;
      var last := changes[n];
      last := last.(detail := TroveChange(last.detail.delta.(borrowingFee := Some(fee))));
      changes := changes[n := last];
      var g := global;
      g := g.(feesPaid := g.feesPaid.(borrowing := g.feesPaid.borrowing + fee));
      global := g;
    }

    method UpdateTotalRedistributed(collateral: int, debt: int)
      modifies this`global
      ensures Contents() == IndexerSpec.UpdateTotalRedistributed(old(Contents()), collateral, debt)
    {
      var g := global;
      g := g.(redistributed := PerStake(collateral, debt));
      global := g;
    }

    // ---------- Prices ----------

    method UpdatePrice(tx: TxId, price: int)
      modifies this`global, this`transactions, this`systemStates, this`changes
      ensures Contents() == IndexerSpec.UpdatePrice(old(Contents()), tx, price)
    {
      var state := GetCurrentSystemState();
      var old' := state.price;
      if old'.None? {
        state := state.(price := Some(price));
        var id := global.currentSystemState.value;
        systemStates := systemStates[id := state];
        return;
      }
      if price != old'.value {
        ChangePrice(tx, state, old'.value, price);
      }
    }

    // The copy of the system state is held while the change is started, and then moved and
    // saved under the next number.
    method ChangePrice(tx: TxId, state: SystemState, oldPrice: int, price: int)
      requires state == Current(Contents()) && state.price == Some(oldPrice)
      modifies this`global, this`transactions, this`systemStates, this`changes
      ensures Contents() == Commit(old(Contents()), tx, PriceChange(price - oldPrice))
    {
      ghost var db := Contents();
      var started := StartChange(tx);
      CurrentIsKept(db, tx);
      BumpSystemState(state.(price := Some(price)));
      assert state.(price := Some(price)) == Effect(Current(db), PriceChange(price - oldPrice));
      FinishChange(started, PriceChange(price - oldPrice));
    }

    // ---------- Stability deposits ----------

    method GetStabilityDeposit(a: Address) returns (amount: int)
      modifies this`users
      ensures Contents() == LookUpDeposit(old(Contents()), a)
      ensures amount == DepositOf(old(Contents()), a)
    {
      if a in deposits {
        return deposits[a];
      }
      var owner := GetUser(a);
      amount := 0;
    }

    method SetDeposit(tx: TxId, a: Address, before: int, op: DepositOperation, amount: int, gain: Option<int>)
      requires before == DepositOf(Contents(), a)
      modifies this`global, this`transactions, this`systemStates, this`changes, this`deposits
      ensures Contents() == IndexerSpec.SetDeposit(old(Contents()), tx, a, op, amount, gain)
    {
      CommitChange(tx, DepositChange(a, op, before, amount, gain));
      deposits := deposits[a := amount];
    }

    method UpdateDeposit(tx: TxId, a: Address, amount: int)
      modifies this`global, this`transactions, this`users, this`systemStates, this`changes, this`deposits
      ensures Contents() == IndexerSpec.UpdateDeposit(old(Contents()), tx, a, amount)
    {
      var before := GetStabilityDeposit(a);
      var owner := GetUser(a);
      if amount == before {
        // the user only wanted to withdraw collateral gains
        return;
      }
      SetDeposit(tx, a, before, if amount > before then DepositTokens else WithdrawTokens, amount, None);
    }

    method WithdrawGain(tx: TxId, a: Address, collateral: int, loss: int)
      modifies this`global, this`transactions, this`users, this`systemStates, this`changes, this`deposits
      ensures Contents() == IndexerSpec.WithdrawGain(old(Contents()), tx, a, collateral, loss)
    {
      if collateral == 0 && loss == 0 {
        return;
      }
      var before := GetStabilityDeposit(a);
      SetDeposit(tx, a, before, WithdrawCollateralGain, before - loss, Some(collateral));
    }

    // Store the value if nothing is pending, and clear it otherwise; return what was pending.
    method SwapTmpDepositUpdate(valueToSetIfNull: int) returns (pending: Option<int>)
      modifies this`global
      ensures pending == old(global).tmpDepositUpdate
      ensures Contents() == SwapPending(old(Contents()), valueToSetIfNull)
    {
      var g := global;
      pending := g.tmpDepositUpdate;
      g := g.(tmpDepositUpdate := if pending.None? then Some(valueToSetIfNull) else None);
      global := g;
    }

    method HandleUserDepositChanged(tx: TxId, a: Address, newDeposit: int)
      modifies this`global, this`transactions, this`users, this`systemStates, this`changes, this`deposits
      ensures Contents() == ChangeUserDeposit(old(Contents()), tx, a, newDeposit)
    {
      var gainWithdrawn := SwapTmpDepositUpdate(newDeposit);
      if gainWithdrawn.Some? {
        UpdateDeposit(tx, a, newDeposit);
      }
    }

    method HandleGainWithdrawn(tx: TxId, a: Address, collateral: int, loss: int)
      modifies this`global, this`transactions, this`users, this`systemStates, this`changes, this`deposits
      ensures Contents() == WithdrawUserGain(old(Contents()), tx, a, collateral, loss)
    {
      // a dummy value signals that the gain has been withdrawn
      var depositUpdate := SwapTmpDepositUpdate(0);
      WithdrawGain(tx, a, collateral, loss);
      if depositUpdate.Some? {
        UpdateDeposit(tx, a, depositUpdate.value);
      }
    }

    // ---------- Collateral surpluses and stakes ----------

    method UpdateCollSurplus(tx: TxId, a: Address, balance: int)
      modifies this`global, this`transactions, this`users, this`systemStates, this`changes
      ensures Contents() == IndexerSpec.UpdateCollSurplus(old(Contents()), tx, a, balance)
    {
      var user := GetUser(a);
      if balance == user.collSurplus {
        return;
      }
      CommitChange(tx, CollSurplusChange(a, user.collSurplus, balance));
      user := user.(collSurplus := balance);
      users := users[a := user];
    }

    method GetOrCreateStake(a: Address) returns (id: Address, amount: int, isFirst: bool)
      modifies this`users
      ensures Contents() == LookUpStake(old(Contents()), a)
      ensures id == StakeId(old(Contents()), a) && amount == StakeOf(old(Contents()), a)
      ensures isFirst == !HasStake(old(Contents()), a)
    {
      var user := GetUser(a);
      if user.stake.Some? && user.stake.value in stakes {
        return user.stake.value, stakes[user.stake.value], false;
      }
      user := user.(stake := Some(a));
      users := users[a := user];
      return a, 0, true;
    }

    method SetStake(tx: TxId, a: Address, id: Address, op: StakeOperation, before: int, amount: int, issuance: int,
                    redemption: int)
      modifies this`global, this`transactions, this`systemStates, this`changes, this`stakes
      ensures var db := Commit(old(Contents()), tx, StakeChange(id, op, before, amount, issuance, redemption));
              Contents() == db.(stakes := db.stakes[id := amount])
    {
      CommitChange(tx, StakeChange(id, op, before, amount, issuance, redemption));
      stakes := stakes[id := amount];
    }

    method UpdateStake(tx: TxId, a: Address, amount: int)
      modifies this`global, this`transactions, this`users, this`systemStates, this`changes, this`stakes
      ensures Contents() == IndexerSpec.UpdateStake(old(Contents()), tx, a, amount)
    {
      var id, before, isFirst := GetOrCreateStake(a);
      ghost var db := Contents();
      var op := StakeOperationOf(before, amount);
      ghost var detail := StakeChange(id, op, before, amount, 0, 0);
      RecordStakeChange(tx, id, op, before, amount, isFirst);
      CommitKeeps(db, tx, detail);
      stakes := stakes[id := amount];
    }

    // The counters are moved while the change is being made.
    method RecordStakeChange(tx: TxId, id: Address, op: StakeOperation, before: int, amount: int, isFirst: bool)
      modifies this`global, this`transactions, this`systemStates, this`changes
      ensures Contents() == WithStakeCounts(Commit(old(Contents()), tx, StakeChange(id, op, before, amount, 0, 0)),
                                            CountStake(old(global).stakes, op, isFirst))
    {
      ghost var db := Contents();
      var detail := StakeChange(id, op, before, amount, 0, 0);
      var started := StartChange(tx);
      CurrentIsKept(db, tx);
      PrepareKeepsStakeCounts(db, tx);
      var g := global;
      g := g.(stakes := CountStake(g.stakes, op, isFirst));
      global := g;
      ghost var counted := CountChange(Prepare(db, tx));
      StakeCountsPastState(counted, g.stakes, Effect(Current(db), detail));
      UpdateSystemState(detail);
      FinishChange(started, detail);
    }

    method WithdrawStakeGains(tx: TxId, a: Address, issuance: int, redemption: int)
      modifies this`global, this`transactions, this`users, this`systemStates, this`changes, this`stakes
      ensures Contents() == IndexerSpec.WithdrawStakeGains(old(Contents()), tx, a, issuance, redemption)
    {
      if issuance == 0 && redemption == 0 {
        return;
      }
      var id, before, isFirst := GetOrCreateStake(a);
      SetStake(tx, a, id, GainsWithdrawn, before, before, issuance, redemption);
    }

    // ---------- Events ----------

    method HandleTroveEvent(e: Event)
      requires Enabled(Contents(), e) && e.body.IsTroveEvent()
      modifies this
      ensures Contents() == IndexerSpec.HandleTroveEvent(old(Contents()), e.tx, e.sender, e.body)
    {
      match e.body {
        case TroveUpdated(op, a, collateral, debt, stake) =>
          UpdateTrove(e.tx, e.sender, op, a, collateral, debt, stake);
        case TroveLiquidated(a) => AccrueBeforeLiquidation(e.tx, e.sender, a);
        case LiquidationFinished(_, _, _, _) => FinishLiquidation(e.tx, e.sender, e.body);
        case RedemptionFinished(_, _, _, _) => FinishRedemption(e.tx, e.sender, e.body);
        case LTermsUpdated(c, d) => UpdateTotalRedistributed(c, d);
        case BorrowingFeePaid(fee) => PayBorrowingFee(fee);
      }
    }

    method HandlePoolEvent(e: Event)
      requires e.body.IsPoolEvent()
      modifies this
      ensures Contents() == IndexerSpec.HandlePoolEvent(old(Contents()), e.tx, e.body)
    {
      match e.body {
        case UserDepositChanged(a, amount) => HandleUserDepositChanged(e.tx, a, amount);
        case GainWithdrawn(a, collateral, loss) => HandleGainWithdrawn(e.tx, a, collateral, loss);
      }
    }

    method HandleStakeEvent(e: Event)
      requires e.body.IsStakeEvent()
      modifies this
      ensures Contents() == IndexerSpec.HandleStakeEvent(old(Contents()), e.tx, e.body)
    {
      match e.body {
        case StakeChanged(a, amount) => UpdateStake(e.tx, a, amount);
        case StakeGainsWithdrawn(a, issuance, redemption) => WithdrawStakeGains(e.tx, a, issuance, redemption);
      }
    }

    method HandleEvent(e: Event)
      requires Enabled(Contents(), e)
      modifies this
      ensures Contents() == Handle(old(Contents()), e)
    {
      if e.body.IsTroveEvent() {
        HandleTroveEvent(e);
      } else if e.body.IsPoolEvent() {
        HandlePoolEvent(e);
      } else if e.body.IsStakeEvent() {
        HandleStakeEvent(e);
      } else if e.body.PriceUpdated? {
        UpdatePrice(e.tx, e.body.price);
      } else {
        UpdateCollSurplus(e.tx, e.body.account, e.body.balance);
      }
    }

    // A whole event stream, from any store.
    method Index(events: seq<Event>)
      requires RunEnabled(Contents(), events)
      modifies this
      ensures Contents() == Run(old(Contents()), events)
    {
      var i := 0;
      while i < |events|
        invariant 0 <= i <= |events|
        invariant RunEnabled(Contents(), events[i..])
        invariant Run(Contents(), events[i..]) == Run(old(Contents()), events)
      {
        assert events[i..][0] == events[i] && events[i..][1..] == events[i + 1..];
        HandleEvent(events[i]);
        i := i + 1;
      }
    }
  }
}
