// The store of protocol data: base state read from the chain, and state derived from it
// that is cached, kept as objects that are replaced only when their value changes.
module ProtocolStore {
  import opened Wrappers
  import opened Decimals
  import opened FeeRates
  import opened Troves
  import opened Redistribution
  import opened TroveAcceptance

  // ---------- Objects and states ----------

  datatype TroveStatus = NonExistent | Open | ClosedByOwner | ClosedByLiquidation | ClosedByRedemption

  datatype UserTrove = UserTrove(owner: string, status: TroveStatus, holdings: Trove)

  datatype PendingTrove = PendingTrove(trove: UserTrove, stake: Decimal, snapshot: Trove) {
    function Redistribute(totalRedistributed: Trove): UserTrove {
      trove.(holdings := ApplyRedistribution(trove.holdings, stake, snapshot, totalRedistributed))
    }
  }

  datatype Value =
    | Amount(amount: Decimal)
    | Number(number: nat)
    | Flag(flag: bool)
    | Holdings(trove: Trove)
    | Personal(userTrove: UserTrove)
    | Pending(pending: PendingTrove)
    | Calculator(fees: Fees)
    | FrontendStatus(kickbackRate: Option<Decimal>)
    | Deposit(initial: Decimal, current: Decimal, depositGain: Decimal, reward: Decimal, frontendTag: string)
    | Stake(staked: Decimal, collateralGain: Decimal, debtTokenGain: Decimal)
    | InFront(debt: Decimal, next: string)

  // An immutable value with an identity. Numbers and flags have none of their own.
  datatype Object = Object(id: nat, value: Value) {
    predicate IsPrimitive() { value.Number? || value.Flag? }

    // The strict comparison of JavaScript.
    predicate Identical(that: Object) {
      if IsPrimitive() || that.IsPrimitive() then value == that.value else id == that.id
    }
  }

  datatype Field =
    | Frontend | OwnFrontend | NumberOfTroves | AccountBalance | DebtTokenBalance | ProtocolTokenBalance
    | UniTokenBalance | UniTokenAllowance | RemainingMiningReward | LiquidityMiningStake | TotalStakedUniTokens
    | LiquidityMiningReward | CollateralSurplusBalance | Price | DebtTokenInStabilityPool | Total
    | TotalRedistributed | TroveBeforeRedistribution | StabilityDeposit | RemainingStabilityPoolReward
    | FeesInNormalMode | ProtocolTokenStake | TotalStakedProtocolToken | RiskiestTroveBeforeRedistribution
    | DebtInFront
    // derived
    | UsersTrove | CurrentFees | BorrowingRate | RedemptionRate | HaveUndercollateralizedTroves

  predicate IsDerived(f: Field) {
    f.UsersTrove? || f.CurrentFees? || f.BorrowingRate? || f.RedemptionRate? || f.HaveUndercollateralizedTroves?
  }

  type State = map<Field, Object>

  type Values = map<Field, Value>

  function ValuesOf(s: State): Values {
    map f | f in s :: s[f].value
  }

  // The fields that derived state is computed from hold values of their types, and the
  // fees can be computed at the time of the latest block.
  predicate Fits(f: Field, v: Value) {
    match f
    case Price => v.Amount?
    case Total => v.Holdings?
    case TotalRedistributed => v.Holdings?
    case TroveBeforeRedistribution => v.Pending?
    case RiskiestTroveBeforeRedistribution => v.Pending?
    case FeesInNormalMode => v.Calculator? && v.fees.MinutesSince(v.fees.timeOfLatestBlock) <= LONGEST_DECAY
    case _ => true
  }

  predicate Complete(v: Values) {
    && (forall f: Field :: f in v <==> !IsDerived(f))
    && (forall f: Field :: f in v ==> Fits(f, v[f]))
  }

  // ---------- Operations on values ----------

  function FeesNow(v: Values): Fees
    requires Complete(v)
  {
    v[FeesInNormalMode].fees.SetRecoveryMode(v[Total].trove.IsBelowCritical(v[Price].amount))
  }

  function Redistributed(v: Values, f: Field): UserTrove
    requires Complete(v) && (f == TroveBeforeRedistribution || f == RiskiestTroveBeforeRedistribution)
  {
    v[f].pending.Redistribute(v[TotalRedistributed].trove)
  }

  function DeriveField(v: Values, f: Field): Value
    requires Complete(v) && IsDerived(f)
  {
    match f
    case UsersTrove => Personal(Redistributed(v, TroveBeforeRedistribution))
    case CurrentFees => Calculator(FeesNow(v))
    case BorrowingRate => Amount(FeesNow(v).BorrowingRate(FeesNow(v).timeOfLatestBlock))
    case RedemptionRate => Amount(FeesNow(v).RedemptionRate(0, FeesNow(v).timeOfLatestBlock))
    case HaveUndercollateralizedTroves =>
      Flag(Redistributed(v, RiskiestTroveBeforeRedistribution).holdings.IsBelowMinimum(v[Price].amount))
  }

  function Derive(v: Values): Values
    requires Complete(v)
  {
    map f: Field | IsDerived(f) :: DeriveField(v, f)
  }

  // ---------- Operations on objects ----------

  function UpdateIfChanged(prev: Object, next: Option<Object>): Object {
    if next.Some? && next.value.value != prev.value then next.value else prev
  }

  function Lookup(s: State, f: Field): Option<Object> {
    if f in s then Some(s[f]) else None
  }

  function Reduce(state: State, update: State): State {
    map f | f in state :: UpdateIfChanged(state[f], Lookup(update, f))
  }

  // New objects for derived values, with identities from `id` on.
  function Allocate(v: Values, id: nat): State {
    map f | f in v :: Object(id + Index(f), v[f])
  }

  function Index(f: Field): nat {
    match f
    case UsersTrove => 0
    case CurrentFees => 1
    case BorrowingRate => 2
    case RedemptionRate => 3
    case _ => 4
  }

  // The fields of the first state that are not identical in the second.
  function Difference(a: State, b: State): State {
    map f | f in a && !(f in b && a[f].Identical(b[f])) :: a[f]
  }

  // ---------- Runs ----------

  datatype Store = Store(baseState: State, derivedState: State, nextId: nat) {
    function Whole(): State { baseState + derivedState }
  }

  function AfterLoad(baseState: State, nextId: nat): Store
    requires Complete(ValuesOf(baseState))
  {
    Store(baseState, Allocate(Derive(ValuesOf(baseState)), nextId), nextId + 5)
  }

  predicate Acceptable(update: State) {
    forall f: Field :: f in update ==> Fits(f, update[f].value)
  }

  function AfterUpdate(s: Store, update: State): Store
    requires Complete(ValuesOf(s.baseState)) && Acceptable(update)
  {
    var reduced := Reduce(s.baseState, update);
    ReducedIsComplete(s.baseState, update);
    Store(reduced, Reduce(s.derivedState, Allocate(Derive(ValuesOf(reduced)), s.nextId)), s.nextId + 5)
  }

  // The values that the latest information gives.
  function Overwritten(v: Values, update: State): Values {
    map f | f in v :: if f in update then update[f].value else v[f]
  }

  lemma ReducedIsComplete(base: State, update: State)
    requires Complete(ValuesOf(base)) && Acceptable(update)
    ensures ValuesOf(Reduce(base, update)) == Overwritten(ValuesOf(base), update)
    ensures Complete(ValuesOf(Reduce(base, update)))
  {
    var v, w := ValuesOf(base), ValuesOf(Reduce(base, update));
    assert forall f: Field :: f in w ==> w[f] == Overwritten(v, update)[f];
    forall f: Field | f in w
      ensures Fits(f, w[f])
    {
      assert Fits(f, v[f]);
    }
  }

  // ---------- The cache ----------

  // Derived state holds the values that the base state gives now.
  ghost predicate Current(s: Store) {
    Complete(ValuesOf(s.baseState)) && ValuesOf(s.derivedState) == Derive(ValuesOf(s.baseState))
  }

  // The cached objects are older than the next ones to be made.
  ghost predicate IdsBelow(s: State, id: nat) {
    forall f: Field :: f in s ==> s[f].id < id
  }

  ghost predicate Ready(s: Store) {
    Current(s) && IdsBelow(s.derivedState, s.nextId)
  }

  // Reducing takes over all values, whatever objects hold them.
  lemma ReducedValues(s: State, update: State)
    requires s.Keys == update.Keys
    ensures ValuesOf(Reduce(s, update)) == ValuesOf(update)
  {
  }

  lemma AllocatedValues(v: Values, id: nat)
    ensures ValuesOf(Allocate(v, id)) == v
  {
  }

  lemma UpdateKeepsCurrent(s: Store, update: State)
    requires Current(s) && Acceptable(update)
    ensures Current(AfterUpdate(s, update))
    ensures ValuesOf(AfterUpdate(s, update).baseState) == Overwritten(ValuesOf(s.baseState), update)
  {
    var reduced := Reduce(s.baseState, update);
    ReducedIsComplete(s.baseState, update);
    var derived := Allocate(Derive(ValuesOf(reduced)), s.nextId);
    AllocatedValues(Derive(ValuesOf(reduced)), s.nextId);
    SameFields(s.derivedState, derived, ValuesOf(s.baseState), ValuesOf(reduced));
    ReducedValues(s.derivedState, derived);
  }

  lemma UpdateKeepsReady(s: Store, update: State)
    requires Ready(s) && Acceptable(update)
    ensures Ready(AfterUpdate(s, update))
  {
    UpdateKeepsCurrent(s, update);
    UpdateKeepsIds(s, update, AfterUpdate(s, update));
  }

  lemma UpdateKeepsIds(s: Store, update: State, s': Store)
    requires Complete(ValuesOf(s.baseState)) && Acceptable(update) && s' == AfterUpdate(s, update)
    requires IdsBelow(s.derivedState, s.nextId)
    ensures IdsBelow(s'.derivedState, s'.nextId)
  {
    ReducedIsComplete(s.baseState, update);
    ReducedIds(s.derivedState, Allocate(Derive(ValuesOf(Reduce(s.baseState, update))), s.nextId), s.nextId);
  }

  lemma ReducedIds(s: State, derived: State, id: nat)
    requires IdsBelow(s, id) && IdsBelow(derived, id + 5)
    ensures IdsBelow(Reduce(s, derived), id + 5)
  {
  }

  lemma LoadIsReady(baseState: State, nextId: nat)
    requires Complete(ValuesOf(baseState))
    ensures Ready(AfterLoad(baseState, nextId))
  {
    AllocatedValues(Derive(ValuesOf(baseState)), nextId);
  }

  lemma SameFields(a: State, b: State, v: Values, w: Values)
    requires Complete(v) && Complete(w) && ValuesOf(a) == Derive(v) && ValuesOf(b) == Derive(w)
    ensures a.Keys == b.Keys
  {
    assert a.Keys == Derive(v).Keys by { assert a.Keys == ValuesOf(a).Keys; }
    assert b.Keys == Derive(w).Keys by { assert b.Keys == ValuesOf(b).Keys; }
  }

  function Run(s: Store, updates: seq<State>): Store
    requires Current(s) && forall u :: u in updates ==> Acceptable(u)
    decreases updates
  {
    if updates == [] then s
    else
      UpdateKeepsCurrent(s, updates[0]);
      Run(AfterUpdate(s, updates[0]), updates[1..])
  }

  // The latest value of every field that any of the updates carries.
  function Latest(v: Values, updates: seq<State>): Values
    decreases updates
  {
    if updates == [] then v else Latest(Overwritten(v, updates[0]), updates[1..])
  }

  // After loading and any updates, base state holds the latest values, and derived state
  // is what it would be if it were derived from them from scratch.
  lemma {:induction false} CacheIsCurrent(s: Store, updates: seq<State>)
    requires Current(s) && forall u :: u in updates ==> Acceptable(u)
    ensures var s' := Run(s, updates);
            && ValuesOf(s'.baseState) == Latest(ValuesOf(s.baseState), updates)
            && Complete(ValuesOf(s'.baseState))
            && ValuesOf(s'.derivedState) == Derive(Latest(ValuesOf(s.baseState), updates))
    decreases updates
  {
    if updates == [] {
    } else {
      UpdateKeepsCurrent(s, updates[0]);
      CacheIsCurrent(AfterUpdate(s, updates[0]), updates[1..]);
    }
  }

  // ---------- What the derived fields hold ----------

  // A stake's share of what was redistributed since the snapshot; none if the total is
  // not ahead of it.
  function Share(stake: Decimal, snapshot: Decimal, total: Decimal): Decimal {
    if snapshot < total then (total - snapshot) * stake / DIGITS else 0
  }

  function WithShare(p: PendingTrove, total: Trove): Trove {
    Trove(p.trove.holdings.collateral + Share(p.stake, p.snapshot.collateral, total.collateral),
          p.trove.holdings.debt + Share(p.stake, p.snapshot.debt, total.debt))
  }

  predicate InRecovery(v: Values)
    requires Complete(v)
  {
    !Covers(v[Total].trove.collateral, v[Total].trove.debt, v[Price].amount, 150)
  }

  // The own trove, with its share.
  function LatestTrove(v: Values): UserTrove
    requires Complete(v)
  {
    var own := v[TroveBeforeRedistribution].pending;
    UserTrove(own.trove.owner, own.trove.status, WithShare(own, v[TotalRedistributed].trove))
  }

  // The fees, in recovery mode exactly when the total does not cover 150%.
  function LatestFees(v: Values): Fees
    requires Complete(v)
  {
    var f := v[FeesInNormalMode].fees;
    Fees(f.baseRateWithoutDecay, f.minuteDecayFactor, f.beta, f.lastFeeOperation, f.timeOfLatestBlock, InRecovery(v))
  }

  function LatestBaseRate(v: Values): Decimal
    requires Complete(v)
  {
    v[FeesInNormalMode].fees.BaseRate(v[FeesInNormalMode].fees.timeOfLatestBlock)
  }

  // The rates at the latest block, the latter for a redemption of nothing.
  function LatestBorrowingRate(v: Values): Decimal
    requires Complete(v)
  {
    if InRecovery(v) then 0
    else if LatestBaseRate(v) <= 45_000_000_000_000_000 then 5_000_000_000_000_000 + LatestBaseRate(v)
    else 50_000_000_000_000_000
  }

  function LatestRedemptionRate(v: Values): Decimal
    requires Complete(v)
  {
    if 5_000_000_000_000_000 + LatestBaseRate(v) < DIGITS then 5_000_000_000_000_000 + LatestBaseRate(v) else DIGITS
  }

  // The riskiest trove, with its share, does not cover 110%.
  predicate RiskiestIsShort(v: Values)
    requires Complete(v)
  {
    var worst := WithShare(v[RiskiestTroveBeforeRedistribution].pending, v[TotalRedistributed].trove);
    !Covers(worst.collateral, worst.debt, v[Price].amount, 110)
  }

  // The five derived fields, from base values.
  ghost predicate Describes(d: Values, v: Values)
    requires Complete(v)
  {
    && (forall f: Field :: f in d <==> (f.UsersTrove? || f.CurrentFees? || f.BorrowingRate? || f.RedemptionRate?
                                        || f.HaveUndercollateralizedTroves?))
    && d[UsersTrove] == Personal(LatestTrove(v))
    && d[CurrentFees] == Calculator(LatestFees(v))
    && d[BorrowingRate] == Amount(LatestBorrowingRate(v))
    && d[RedemptionRate] == Amount(LatestRedemptionRate(v))
    && d[HaveUndercollateralizedTroves] == Flag(RiskiestIsShort(v))
  }

  lemma RedistributedHasShare(p: PendingTrove, total: Trove)
    ensures p.Redistribute(total) == UserTrove(p.trove.owner, p.trove.status, WithShare(p, total))
  {
  }

  lemma DerivedTrove(v: Values)
    requires Complete(v)
    ensures DeriveField(v, UsersTrove) == Personal(LatestTrove(v))
  {
    RedistributedHasShare(v[TroveBeforeRedistribution].pending, v[TotalRedistributed].trove);
  }

  lemma DerivedFees(v: Values)
    requires Complete(v)
    ensures FeesNow(v) == LatestFees(v) && DeriveField(v, CurrentFees) == Calculator(LatestFees(v))
  {
    RatiosAreCovers(v[Total].trove, v[Price].amount);
  }

  lemma DerivedFeeRates(v: Values)
    requires Complete(v)
    ensures DeriveField(v, BorrowingRate) == Amount(LatestBorrowingRate(v))
    ensures DeriveField(v, RedemptionRate) == Amount(LatestRedemptionRate(v))
  {
    DerivedFees(v);
    DerivedRates(FeesNow(v));
    assert FeesNow(v).BaseRate(FeesNow(v).timeOfLatestBlock) == LatestBaseRate(v);
  }

  lemma DerivedFlag(v: Values)
    requires Complete(v)
    ensures DeriveField(v, HaveUndercollateralizedTroves) == Flag(RiskiestIsShort(v))
  {
    RedistributedHasShare(v[RiskiestTroveBeforeRedistribution].pending, v[TotalRedistributed].trove);
    RatiosAreCovers(WithShare(v[RiskiestTroveBeforeRedistribution].pending, v[TotalRedistributed].trove),
                    v[Price].amount);
  }

  lemma DerivedValues(v: Values)
    requires Complete(v)
    ensures Describes(Derive(v), v)
  {
    DerivedTrove(v);
    DerivedFees(v);
    DerivedFeeRates(v);
    DerivedFlag(v);
  }

  lemma DerivedRates(f: Fees)
    requires f.MinutesSince(f.timeOfLatestBlock) <= LONGEST_DECAY
    ensures var base := f.BaseRate(f.timeOfLatestBlock);
            && f.BorrowingRate(f.timeOfLatestBlock) ==
                 (if f.recoveryMode then 0
                  else if base <= 45_000_000_000_000_000 then 5_000_000_000_000_000 + base
                  else 50_000_000_000_000_000)
            && f.RedemptionRate(0, f.timeOfLatestBlock) ==
                 if 5_000_000_000_000_000 + base < DIGITS then 5_000_000_000_000_000 + base else DIGITS
  {
    BorrowingRateExactly(f, f.timeOfLatestBlock);
    RedemptionRateExactly(f, 0, f.timeOfLatestBlock);
  }

  // What a current store holds, and so every store that was loaded and is valid.
  ghost predicate HoldsDerived(s: Store) {
    Complete(ValuesOf(s.baseState)) && Describes(ValuesOf(s.derivedState), ValuesOf(s.baseState))
  }

  lemma CurrentHoldsDerived(s: Store)
    requires Current(s)
    ensures HoldsDerived(s)
  {
    DerivedValues(ValuesOf(s.baseState));
  }

  // After loading and any updates, the derived fields are what the latest base values give.
  lemma DerivedFieldsAreCurrent(baseState: State, nextId: nat, updates: seq<State>)
    requires Complete(ValuesOf(baseState)) && forall u :: u in updates ==> Acceptable(u)
    ensures Current(AfterLoad(baseState, nextId))
    ensures var s, v := Run(AfterLoad(baseState, nextId), updates), Latest(ValuesOf(baseState), updates);
            ValuesOf(s.baseState) == v && HoldsDerived(s)
  {
    LoadIsReady(baseState, nextId);
    CacheIsCurrent(AfterLoad(baseState, nextId), updates);
    CurrentHoldsDerived(Run(AfterLoad(baseState, nextId), updates));
  }

  // ---------- What listeners are told ----------

  // Objects are immutable: one identity, one value.
  ghost predicate Coherent(a: State, b: State) {
    forall f: Field :: f in a && f in b && a[f].id == b[f].id ==> a[f].value == b[f].value
  }

  // Reduction keeps the very object when its value did not change, and only then.
  lemma ReducedIdentity(s: State, update: State, f: Field)
    requires f in s && Coherent(s, update)
    ensures f in Reduce(s, update)
    ensures Reduce(s, update)[f].Identical(s[f]) <==> Reduce(s, update)[f].value == s[f].value
    ensures Reduce(s, update)[f].value == s[f].value ==> Reduce(s, update)[f] == s[f]
  {
  }

  // The fields that a change names are exactly those, base or derived, whose values
  // differ, with their new objects; all other fields keep their very objects.
  ghost predicate NamesDifferences(old': State, new': State, change: State) {
    forall f: Field ::
      && f in old' && f in new'
      && (f in change <==> new'[f].value != old'[f].value)
      && (if f in change then change[f] == new'[f] else new'[f] == old'[f])
  }

  lemma ChangeNamesDifferences(s: Store, update: State)
    requires Ready(s) && Acceptable(update) && Coherent(s.baseState, update)
    ensures var (old', new') := (s.Whole(), AfterUpdate(s, update).Whole());
            NamesDifferences(old', new', Difference(new', old'))
  {
    var s' := AfterUpdate(s, update);
    UpdateKeepsReady(s, update);
    forall f: Field
      ensures f in s.Whole() && f in s'.Whole()
      ensures s'.Whole()[f].Identical(s.Whole()[f]) <==> s'.Whole()[f].value == s.Whole()[f].value
      ensures s'.Whole()[f].value == s.Whole()[f].value ==> s'.Whole()[f] == s.Whole()[f]
    {
      FieldIdentity(s, update, f);
    }
  }

  lemma FieldIdentity(s: Store, update: State, f: Field)
    requires Ready(s) && Acceptable(update) && Coherent(s.baseState, update)
    ensures var (old', new') := (s.Whole(), AfterUpdate(s, update).Whole());
            && f in old' && f in new'
            && (new'[f].Identical(old'[f]) <==> new'[f].value == old'[f].value)
            && (new'[f].value == old'[f].value ==> new'[f] == old'[f])
  {
    var s' := AfterUpdate(s, update);
    UpdateKeepsReady(s, update);
    WhichPart(s, f);
    WhichPart(s', f);
    if IsDerived(f) {
      var derived := Allocate(Derive(ValuesOf(s'.baseState)), s.nextId);
      assert Coherent(s.derivedState, derived);
      ReducedIdentity(s.derivedState, derived, f);
    } else {
      ReducedIdentity(s.baseState, update, f);
    }
  }

  // Every field is in exactly one part of the state.
  lemma WhichPart(s: Store, f: Field)
    requires Current(s)
    ensures f in s.baseState <==> !IsDerived(f)
    ensures f in s.derivedState <==> IsDerived(f)
    ensures f in s.Whole() && s.Whole()[f] == if IsDerived(f) then s.derivedState[f] else s.baseState[f]
  {
    assert f in s.baseState <==> f in ValuesOf(s.baseState);
    assert f in s.derivedState <==> f in Derive(ValuesOf(s.baseState)) by {
      assert f in s.derivedState <==> f in ValuesOf(s.derivedState);
    }
  }

  // Fees are derived at the time of the latest block, so without new base values nothing
  // changes, however much time has passed.
  lemma NoNewsNoChange(s: Store, update: State)
    requires Current(s) && Acceptable(update) && SaysNothingNew(s.baseState, update)
    ensures AfterUpdate(s, update).Whole() == s.Whole()
  {
    NothingNewReduced(s.baseState, update);
    DerivedAgain(s.derivedState, Derive(ValuesOf(s.baseState)), s.nextId);
  }

  ghost predicate SaysNothingNew(s: State, update: State) {
    forall f: Field :: f in s && f in update ==> update[f].value == s[f].value
  }

  lemma NothingNewReduced(s: State, update: State)
    requires SaysNothingNew(s, update)
    ensures Reduce(s, update) == s
  {
  }

  // Deriving the same values again changes no object.
  lemma DerivedAgain(s: State, v: Values, id: nat)
    requires ValuesOf(s) == v
    ensures Reduce(s, Allocate(v, id)) == s
  {
    forall f: Field | f in s && f in Allocate(v, id)
      ensures Allocate(v, id)[f].value == s[f].value
    {
      assert v[f] == s[f].value;
    }
    NothingNewReduced(s, Allocate(v, id));
  }

  // ---------- The store itself ----------

  class SfStablecoinStore {
    var loaded: bool
    var baseState: State
    var derivedState: State
    var nextId: nat

    ghost function Contents(): Store
      reads this
    {
      Store(baseState, derivedState, nextId)
    }

    ghost predicate Valid()
      reads this
    {
      loaded ==> Ready(Contents())
    }

    constructor (firstId: nat)
      ensures Valid() && !loaded
    {
      loaded := false;
      baseState := map[];
      derivedState := map[];
      nextId := firstId;
    }

    function GetState(): State
      reads this
    {
      baseState + derivedState
    }

    method Load(base: State)
      requires !loaded && Complete(ValuesOf(base))
      modifies this
      ensures Valid() && loaded
      ensures Contents() == AfterLoad(base, old(nextId))
    {
      LoadIsReady(base, nextId);
      baseState := base;
      derivedState := Allocate(Derive(ValuesOf(base)), nextId);
      nextId := nextId + 5;
      loaded := true;
    }

    // What the listeners get: the new state, the old one, and the change.
    method Update(update: Option<State>) returns (newState: State, oldState: State, stateChange: State)
      requires loaded && Valid()
      requires update.Some? ==> Acceptable(update.value) && Coherent(baseState, update.value)
      modifies this
      ensures Valid() && loaded
      ensures Contents() == AfterUpdate(old(Contents()), update.GetOr(map[]))
      ensures oldState == old(GetState()) && newState == GetState()
      ensures NamesDifferences(oldState, newState, stateChange)
    {
      ghost var before, news := Contents(), update.GetOr(map[]);
      oldState := GetState();
      Advance(update);
      newState := GetState();
      stateChange := Difference(newState, oldState);
      UpdateKeepsReady(before, news);
      ChangeNamesDifferences(before, news);
    }

    // Base state is reduced, and derived state is derived again, whether or not there is news.
    method Advance(update: Option<State>)
      requires Current(Contents()) && (update.Some? ==> Acceptable(update.value))
      modifies this`baseState, this`derivedState, this`nextId
      ensures Contents() == AfterUpdate(old(Contents()), update.GetOr(map[]))
    {
      ghost var before := Contents();
      if update.Some? {
        ReducedIsComplete(baseState, update.value);
        baseState := Reduce(baseState, update.value);
      }
      derivedState := Reduce(derivedState, Allocate(Derive(ValuesOf(baseState)), nextId));
      nextId := nextId + 5;
      NothingReduced(before.baseState);
    }
  }

  lemma NothingReduced(s: State)
    ensures Reduce(s, map[]) == s
  {
  }
}
