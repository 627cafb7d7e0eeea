// The call-batching provider: a debounced queue of calls, dispatched together, that
// must answer every caller as an unbatched provider would.
module Batching {
  import opened Wrappers

  type Address = nat
  type BlockTag = nat
  type Promise = nat
  type TimerId = nat
  type Moment = nat

  datatype Payload = Text(text: string) | Bytes(bytes: seq<bv8>)

  // A call request; the flag says whether it sets a sender, gas, or a value.
  datatype Call = Call(to: Option<Address>, data: Option<Payload>, hasOverrides: bool)

  datatype Answer = Value(value: string) | Failure

  // What a node answers to a call, at a block tag, at the moment it is asked.
  type Chain = (Call, BlockTag, Moment) -> Answer

  datatype Outcome = Pending | Resolved(result: string) | Rejected

  const LATEST: BlockTag := 0

  const AGGREGATE_SIGNATURE: string := "0x252dba42"

  datatype Batch = Batch(blockTag: BlockTag, calls: seq<Call>, callbacks: seq<Promise>)

  const EMPTY_BATCH: Batch := Batch(LATEST, [], [])

  // Calls on their way to the node.
  datatype Flight = Direct(call: Call, blockTag: BlockTag, callback: Promise) | Together(batch: Batch)

  datatype State = State(
    multicall: Option<Address>,
    batched: Batch,
    timeoutId: Option<TimerId>,
    liveTimers: set<TimerId>,
    timerCount: nat,
    requests: seq<(Call, BlockTag)>,   // what was asked for, one entry per promise
    outcomes: seq<Outcome>,            // what each promise has come to
    refused: set<Promise>,             // those rejected by an assertion, without a call
    flights: seq<Flight>,
    landed: map<nat, Moment>           // the flights that came back, and when
  )

  function Initial(multicall: Option<Address>): State {
    State(multicall, EMPTY_BATCH, None, {}, 0, [], [], {}, [], map[])
  }

  datatype Action = Perform(call: Call, blockTag: BlockTag) | Fire(timer: TimerId) | Land(flight: nat, moment: Moment)

  // ---------- Steps ----------

  predicate IsAggregateCall(c: Call, multicall: Address) {
    c.to == Some(multicall) && c.data.Some? && c.data.value.Text? && AGGREGATE_SIGNATURE <= c.data.value.text
  }

  predicate ConflictsWith(b: Batch, tag: BlockTag) {
    b.calls != [] && tag != b.blockTag
  }

  predicate GoesDirect(s: State, c: Call, tag: BlockTag) {
    s.multicall.None? || IsAggregateCall(c, s.multicall.value) || c.hasOverrides || ConflictsWith(s.batched, tag)
  }

  predicate Enabled(s: State, a: Action) {
    match a
    case Perform(_, _) => true
    case Fire(timer) => timer in s.liveTimers
    case Land(flight, _) => flight < |s.flights| && flight !in s.landed
  }

  // A call that could be batched, but lacks its target or its data.
  predicate IsRefused(s: State, c: Call, tag: BlockTag) {
    !GoesDirect(s, c, tag) && (c.to.None? || c.data.None?)
  }

  // An empty batch takes over the block tag of the call.
  function Tagged(b: Batch, tag: BlockTag): Batch {
    if b.calls == [] then b.(blockTag := tag) else b
  }

  function Enqueued(b: Batch, c: Call, tag: BlockTag, p: Promise): Batch {
    var b1 := Tagged(b, tag);
    b1.(calls := b.calls + [c], callbacks := b.callbacks + [p])
  }

  function AfterPerform(s: State, c: Call, tag: BlockTag): State {
    var p := |s.requests|;
    var s1 := s.(requests := s.requests + [(c, tag)], outcomes := s.outcomes + [Pending]);
    if GoesDirect(s, c, tag) then
      s1.(flights := s.flights + [Direct(c, tag, p)])
    else if IsRefused(s, c, tag) then
      s1.(batched := Tagged(s.batched, tag), outcomes := s.outcomes + [Rejected], refused := s.refused + {p})
    else
      var cleared := if s.timeoutId.Some? then s.liveTimers - {s.timeoutId.value} else s.liveTimers;
      s1.(batched := Enqueued(s.batched, c, tag, p), timeoutId := Some(s.timerCount),
          liveTimers := cleared + {s.timerCount}, timerCount := s.timerCount + 1)
  }

  function AfterFire(s: State, timer: TimerId): State {
    s.(liveTimers := s.liveTimers - {timer}, flights := s.flights + [Together(s.batched)], batched := EMPTY_BATCH)
  }

  function ToOutcome(a: Answer): Outcome {
    match a
    case Value(v) => Resolved(v)
    case Failure => Rejected
  }

  predicate AllSucceed(chain: Chain, b: Batch, m: Moment) {
    forall i :: 0 <= i < |b.calls| ==> chain(b.calls[i], b.blockTag, m).Value?
  }

  // A single call is made as it is. Several are aggregated into one, which succeeds
  // only if all of them do.
  function BatchOutcome(chain: Chain, b: Batch, i: nat, m: Moment): Outcome
    requires i < |b.calls|
  {
    if |b.calls| > 1 && !AllSucceed(chain, b, m) then Rejected else ToOutcome(chain(b.calls[i], b.blockTag, m))
  }

  // Settling a promise a second time has no effect.
  function Settle(outcomes: seq<Outcome>, p: Promise, o: Outcome): seq<Outcome> {
    if p < |outcomes| && outcomes[p].Pending? then outcomes[p := o] else outcomes
  }

  // The callbacks of a batch called in turn, the first n of them.
  function SettleFirst(chain: Chain, outcomes: seq<Outcome>, b: Batch, m: Moment, n: nat): seq<Outcome>
    requires n <= |b.calls| && n <= |b.callbacks|
  {
    if n == 0 then outcomes
    else Settle(SettleFirst(chain, outcomes, b, m, n - 1), b.callbacks[n - 1], BatchOutcome(chain, b, n - 1, m))
  }

  function AfterLand(chain: Chain, s: State, flight: nat, m: Moment): State
    requires Enabled(s, Land(flight, m))
  {
    var s1 := s.(landed := s.landed[flight := m]);
    match s.flights[flight]
    case Direct(c, tag, p) => s1.(outcomes := Settle(s.outcomes, p, ToOutcome(chain(c, tag, m))))
    case Together(b) =>
      var n := if |b.calls| <= |b.callbacks| then |b.calls| else |b.callbacks|;
      s1.(outcomes := SettleFirst(chain, s.outcomes, b, m, n))
  }

  function Next(chain: Chain, s: State, a: Action): State
    requires Enabled(s, a)
  {
    match a
    case Perform(c, tag) => AfterPerform(s, c, tag)
    case Fire(timer) => AfterFire(s, timer)
    case Land(flight, m) => AfterLand(chain, s, flight, m)
  }

  predicate RunEnabled(chain: Chain, s: State, actions: seq<Action>)
    decreases actions
  {
    actions == [] || (Enabled(s, actions[0]) && RunEnabled(chain, Next(chain, s, actions[0]), actions[1..]))
  }

  function Run(chain: Chain, s: State, actions: seq<Action>): State
    requires RunEnabled(chain, s, actions)
    decreases actions
  {
    if actions == [] then s else Run(chain, Next(chain, s, actions[0]), actions[1..])
  }

  // ---------- What every step keeps ----------

  // The batch and its callbacks are aligned, and each call is what its promise asked
  // for, at the block tag of the batch.
  predicate Aligned(b: Batch, requests: seq<(Call, BlockTag)>) {
    && |b.calls| == |b.callbacks|
    && forall i :: 0 <= i < |b.calls| ==>
         b.callbacks[i] < |requests| && requests[b.callbacks[i]] == (b.calls[i], b.blockTag)
  }

  predicate FlightAligned(f: Flight, requests: seq<(Call, BlockTag)>) {
    match f
    case Direct(c, tag, p) => p < |requests| && requests[p] == (c, tag)
    case Together(b) => b.calls != [] && Aligned(b, requests)
  }

  // A live timer exists exactly when there is something to dispatch.
  predicate TimerMatches(s: State) {
    && (forall t :: t in s.liveTimers ==> t < s.timerCount)
    && if s.batched.calls == [] then s.liveTimers == {}
       else s.multicall.Some? && s.timeoutId.Some? && s.liveTimers == {s.timeoutId.value}
  }

  function CallbacksOf(f: Flight): seq<Promise> {
    match f
    case Direct(_, _, p) => [p]
    case Together(b) => b.callbacks
  }

  // How often a promise occurs in the flights.
  function CountIn(flights: seq<Flight>, p: Promise): nat {
    if flights == [] then 0
    else CountIn(flights[..|flights| - 1], p) + multiset(CallbacksOf(flights[|flights| - 1]))[p]
  }

  // Every promise that was not refused is in the batch or in one flight, once.
  ghost predicate PlacedOnce(s: State) {
    forall p: Promise :: CountIn(s.flights, p) + multiset(s.batched.callbacks)[p] == if IsPlaced(s, p) then 1 else 0
  }

  predicate IsPlaced(s: State, p: Promise) {
    p < |s.requests| && p !in s.refused
  }

  ghost predicate RefusedRight(s: State) {
    |s.outcomes| == |s.requests| && forall p :: p in s.refused ==> p < |s.outcomes| && s.outcomes[p] == Rejected
  }

  // The outcome that a landed flight gives to a promise.
  predicate LandedRight(chain: Chain, f: Flight, outcomes: seq<Outcome>, m: Moment) {
    match f
    case Direct(c, tag, p) => p < |outcomes| && outcomes[p] == ToOutcome(chain(c, tag, m))
    case Together(b) =>
      |b.calls| == |b.callbacks| &&
      forall i :: 0 <= i < |b.calls| ==>
        b.callbacks[i] < |outcomes| && outcomes[b.callbacks[i]] == BatchOutcome(chain, b, i, m)
  }

  predicate StillPending(ps: seq<Promise>, outcomes: seq<Outcome>) {
    forall i :: 0 <= i < |ps| ==> ps[i] < |outcomes| && outcomes[ps[i]] == Pending
  }

  ghost predicate FlightsRight(chain: Chain, s: State) {
    && |s.outcomes| == |s.requests|
    && (forall k :: k in s.landed ==> k < |s.flights|)
    && (forall k :: 0 <= k < |s.flights| ==> FlightAligned(s.flights[k], s.requests))
    && (forall k :: 0 <= k < |s.flights| ==>
          if k in s.landed then LandedRight(chain, s.flights[k], s.outcomes, s.landed[k])
          else StillPending(CallbacksOf(s.flights[k]), s.outcomes))
    && StillPending(s.batched.callbacks, s.outcomes)
  }

  ghost predicate Invariant(chain: Chain, s: State) {
    Aligned(s.batched, s.requests) && TimerMatches(s) && PlacedOnce(s) && RefusedRight(s) && FlightsRight(chain, s)
  }

  // ---------- Placement ----------

  lemma CountAppended(flights: seq<Flight>, f: Flight, p: Promise)
    ensures CountIn(flights + [f], p) == CountIn(flights, p) + multiset(CallbacksOf(f))[p]
  {
    assert (flights + [f])[..|flights|] == flights;
  }

  lemma {:induction false} InFlight(flights: seq<Flight>, k: nat, p: Promise)
    requires k < |flights|
    ensures multiset(CallbacksOf(flights[k]))[p] <= CountIn(flights, p)
  {
    if k == |flights| - 1 {
    } else {
      InFlight(flights[..|flights| - 1], k, p);
    }
  }

  lemma {:induction false} InTwoFlights(flights: seq<Flight>, j: nat, k: nat, p: Promise)
    requires j < k < |flights|
    ensures multiset(CallbacksOf(flights[j]))[p] + multiset(CallbacksOf(flights[k]))[p] <= CountIn(flights, p)
  {
    var init, last := flights[..|flights| - 1], flights[|flights| - 1];
    assert CountIn(flights, p) == CountIn(init, p) + multiset(CallbacksOf(last))[p];
    assert init[j] == flights[j];
    if k < |init| {
      assert init[k] == flights[k];
      InTwoFlights(init, j, k, p);
    } else {
      InFlight(init, j, p);
    }
  }

  // Different flights, and the batch, hold different promises.
  lemma PlacesAreDisjoint(s: State, j: nat, k: nat, p: Promise)
    requires PlacedOnce(s) && j < |s.flights| && k < |s.flights| && j != k
    ensures p !in CallbacksOf(s.flights[j]) || p !in CallbacksOf(s.flights[k])
  {
    InTwoFlights(s.flights, if j < k then j else k, if j < k then k else j, p);
    InMultiset(CallbacksOf(s.flights[j]), p);
    InMultiset(CallbacksOf(s.flights[k]), p);
  }

  lemma BatchIsDisjoint(s: State, k: nat, p: Promise)
    requires PlacedOnce(s) && k < |s.flights|
    ensures p !in CallbacksOf(s.flights[k]) || p !in s.batched.callbacks
  {
    InFlight(s.flights, k, p);
    InMultiset(CallbacksOf(s.flights[k]), p);
    InMultiset(s.batched.callbacks, p);
  }

  lemma InMultiset(ps: seq<Promise>, p: Promise)
    ensures multiset(ps)[p] > 0 <==> p in ps
  {
  }

  lemma TwiceCountsTwo(ps: seq<Promise>, i: nat, j: nat)
    requires i < j < |ps| && ps[i] == ps[j]
    ensures multiset(ps)[ps[i]] >= 2
  {
    assert ps == ps[..j] + ps[j..];
    assert ps[..j][i] in ps[..j] && ps[j..][0] in ps[j..];
  }

  // A flight holds no promise twice.
  lemma NoneTwice(s: State, k: nat, i: nat, j: nat)
    requires PlacedOnce(s) && k < |s.flights|
    requires i < j < |CallbacksOf(s.flights[k])|
    ensures CallbacksOf(s.flights[k])[i] != CallbacksOf(s.flights[k])[j]
  {
    var ps := CallbacksOf(s.flights[k]);
    InFlight(s.flights, k, ps[i]);
    if ps[i] == ps[j] {
      TwiceCountsTwo(ps, i, j);
    }
  }

  // ---------- Each action ----------

  lemma PushedInBag(ps: seq<Promise>, n: Promise, p: Promise)
    ensures multiset(ps + [n])[p] == multiset(ps)[p] + if p == n then 1 else 0
  {
  }

  lemma PerformKeepsPlace(s: State, c: Call, tag: BlockTag, p: Promise)
    requires RefusedRight(s)
    requires CountIn(s.flights, p) + multiset(s.batched.callbacks)[p] == if IsPlaced(s, p) then 1 else 0
    ensures var s' := AfterPerform(s, c, tag);
            CountIn(s'.flights, p) + multiset(s'.batched.callbacks)[p] == if IsPlaced(s', p) then 1 else 0
  {
    var n := |s.requests|;
    if GoesDirect(s, c, tag) {
      CountAppended(s.flights, Direct(c, tag, n), p);
      PushedInBag([], n, p);
      assert [] + [n] == [n];
    } else if !IsRefused(s, c, tag) {
      PushedInBag(s.batched.callbacks, n, p);
    }
  }

  lemma PerformKeepsPlaces(s: State, c: Call, tag: BlockTag)
    requires PlacedOnce(s) && RefusedRight(s)
    ensures PlacedOnce(AfterPerform(s, c, tag))
  {
    forall p: Promise
      ensures var s' := AfterPerform(s, c, tag);
              CountIn(s'.flights, p) + multiset(s'.batched.callbacks)[p] == if IsPlaced(s', p) then 1 else 0
    {
      PerformKeepsPlace(s, c, tag, p);
    }
  }

  lemma FireKeepsPlaces(s: State, timer: TimerId)
    requires PlacedOnce(s)
    ensures PlacedOnce(AfterFire(s, timer))
  {
    var s' := AfterFire(s, timer);
    forall p: Promise
      ensures CountIn(s'.flights, p) + multiset(s'.batched.callbacks)[p] == if IsPlaced(s', p) then 1 else 0
    {
      assert CountIn(s.flights, p) + multiset(s.batched.callbacks)[p] == if IsPlaced(s, p) then 1 else 0;
      CountAppended(s.flights, Together(s.batched), p);
    }
  }

  // A refused promise is on no flight, so no reply reaches it.
  lemma RefusedIsNowhere(s: State, k: nat, p: Promise)
    requires PlacedOnce(s) && k < |s.flights| && p in s.refused
    ensures p !in CallbacksOf(s.flights[k])
  {
    InFlight(s.flights, k, p);
    InMultiset(CallbacksOf(s.flights[k]), p);
    assert CountIn(s.flights, p) + multiset(s.batched.callbacks)[p] == if IsPlaced(s, p) then 1 else 0;
  }

  // One request more leaves the earlier flights right.
  lemma OlderFlight(chain: Chain, s: State, r: (Call, BlockTag), o: Outcome, k: nat)
    requires FlightsRight(chain, s) && k < |s.flights|
    ensures FlightAligned(s.flights[k], s.requests + [r])
    ensures if k in s.landed then LandedRight(chain, s.flights[k], s.outcomes + [o], s.landed[k])
            else StillPending(CallbacksOf(s.flights[k]), s.outcomes + [o])
  {
    assert FlightAligned(s.flights[k], s.requests);
  }

  lemma PerformKeepsFlights(chain: Chain, s: State, c: Call, tag: BlockTag)
    requires FlightsRight(chain, s)
    ensures FlightsRight(chain, AfterPerform(s, c, tag))
  {
    var s', n := AfterPerform(s, c, tag), |s.requests|;
    forall k | 0 <= k < |s'.flights|
      ensures FlightAligned(s'.flights[k], s'.requests)
      ensures if k in s'.landed then LandedRight(chain, s'.flights[k], s'.outcomes, s'.landed[k])
              else StillPending(CallbacksOf(s'.flights[k]), s'.outcomes)
    {
      if k < |s.flights| {
        OlderFlight(chain, s, (c, tag), s'.outcomes[n], k);
      }
    }
  }

  lemma PerformKeepsInvariant(chain: Chain, s: State, c: Call, tag: BlockTag)
    requires Invariant(chain, s) && Enabled(s, Perform(c, tag))
    ensures Invariant(chain, AfterPerform(s, c, tag))
  {
    PerformKeepsPlaces(s, c, tag);
    PerformKeepsFlights(chain, s, c, tag);
  }

  lemma FireKeepsInvariant(chain: Chain, s: State, timer: TimerId)
    requires Invariant(chain, s) && Enabled(s, Fire(timer))
    ensures Invariant(chain, AfterFire(s, timer))
    ensures s.batched.calls != [] && s.multicall.Some?
  {
    var s' := AfterFire(s, timer);
    FireKeepsPlaces(s, timer);
    forall k | 0 <= k < |s'.flights|
      ensures FlightAligned(s'.flights[k], s'.requests)
      ensures if k in s'.landed then LandedRight(chain, s'.flights[k], s'.outcomes, s'.landed[k])
              else StillPending(CallbacksOf(s'.flights[k]), s'.outcomes)
    {
      if k < |s.flights| {
        assert s'.flights[k] == s.flights[k];
      }
    }
  }

  // Calling the callbacks of a batch settles exactly its promises.
  lemma {:induction false} SettledOnce(chain: Chain, outcomes: seq<Outcome>, b: Batch, m: Moment, n: nat)
    requires |b.calls| == |b.callbacks| && n <= |b.calls|
    requires StillPending(b.callbacks, outcomes)
    requires forall i, j :: 0 <= i < j < |b.callbacks| ==> b.callbacks[i] != b.callbacks[j]
    ensures var after := SettleFirst(chain, outcomes, b, m, n);
            && |after| == |outcomes|
            && (forall i :: 0 <= i < n ==> after[b.callbacks[i]] == BatchOutcome(chain, b, i, m))
            && (forall i :: n <= i < |b.callbacks| ==> after[b.callbacks[i]] == Pending)
            && (forall p :: 0 <= p < |outcomes| && p !in b.callbacks ==> after[p] == outcomes[p])
  {
    if n == 0 {
    } else {
      SettledOnce(chain, outcomes, b, m, n - 1);
    }
  }

  lemma LandSettles(chain: Chain, s: State, flight: nat, m: Moment)
    requires Invariant(chain, s) && Enabled(s, Land(flight, m))
    ensures var s' := AfterLand(chain, s, flight, m);
            && |s'.outcomes| == |s.outcomes|
            && LandedRight(chain, s.flights[flight], s'.outcomes, m)
            && forall p :: 0 <= p < |s.outcomes| && p !in CallbacksOf(s.flights[flight]) ==>
                 s'.outcomes[p] == s.outcomes[p]
  {
    assert FlightAligned(s.flights[flight], s.requests);
    match s.flights[flight]
    case Direct(_, _, p) =>
      assert CallbacksOf(s.flights[flight])[0] == p;
    case Together(b) =>
      forall i, j | 0 <= i < j < |b.callbacks|
        ensures b.callbacks[i] != b.callbacks[j]
      {
        NoneTwice(s, flight, i, j);
      }
      SettledOnce(chain, s.outcomes, b, m, |b.calls|);
  }

  lemma LandKeepsInvariant(chain: Chain, s: State, flight: nat, m: Moment)
    requires Invariant(chain, s) && Enabled(s, Land(flight, m))
    ensures Invariant(chain, AfterLand(chain, s, flight, m))
  {
    var s' := AfterLand(chain, s, flight, m);
    LandSettles(chain, s, flight, m);
    forall p | p in s.refused
      ensures s'.outcomes[p] == Rejected
    {
      RefusedIsNowhere(s, flight, p);
    }
    forall i | 0 <= i < |s.batched.callbacks|
      ensures s'.outcomes[s.batched.callbacks[i]] == Pending
    {
      BatchIsDisjoint(s, flight, s.batched.callbacks[i]);
    }
    forall k | 0 <= k < |s'.flights|
      ensures if k in s'.landed then LandedRight(chain, s'.flights[k], s'.outcomes, s'.landed[k])
              else StillPending(CallbacksOf(s'.flights[k]), s'.outcomes)
    {
      assert FlightAligned(s.flights[k], s.requests);
      if k != flight {
        forall p | p in CallbacksOf(s.flights[k])
          ensures p !in CallbacksOf(s.flights[flight])
        {
          PlacesAreDisjoint(s, flight, k, p);
        }
        OthersUntouched(chain, s.flights[k], s.outcomes, s'.outcomes, if k in s.landed then s.landed[k] else 0);
      }
    }
  }

  lemma OthersUntouched(chain: Chain, f: Flight, outcomes: seq<Outcome>, outcomes': seq<Outcome>, m: Moment)
    requires |outcomes'| == |outcomes|
    requires forall p :: 0 <= p < |outcomes| && p in CallbacksOf(f) ==> outcomes'[p] == outcomes[p]
    ensures LandedRight(chain, f, outcomes, m) ==> LandedRight(chain, f, outcomes', m)
    ensures StillPending(CallbacksOf(f), outcomes) ==> StillPending(CallbacksOf(f), outcomes')
  {
    if f.Direct? {
      assert f.callback in CallbacksOf(f);
    }
  }

  lemma InitialInvariant(chain: Chain, multicall: Option<Address>)
    ensures Invariant(chain, Initial(multicall))
  {
  }

  lemma NextKeepsInvariant(chain: Chain, s: State, a: Action)
    requires Invariant(chain, s) && Enabled(s, a)
    ensures Invariant(chain, Next(chain, s, a))
  {
    match a
    case Perform(c, tag) => PerformKeepsInvariant(chain, s, c, tag);
    case Fire(timer) => FireKeepsInvariant(chain, s, timer);
    case Land(flight, m) => LandKeepsInvariant(chain, s, flight, m);
  }

  // In every interleaving of requests, timers and replies.
  lemma {:induction false} RunKeepsInvariant(chain: Chain, s: State, actions: seq<Action>)
    requires Invariant(chain, s) && RunEnabled(chain, s, actions)
    ensures Invariant(chain, Run(chain, s, actions))
    decreases actions
  {
    if actions == [] {
    } else {
      NextKeepsInvariant(chain, s, actions[0]);
      RunKeepsInvariant(chain, Next(chain, s, actions[0]), actions[1..]);
    }
  }

  // ---------- Who shares a call ----------

  // What may share a call: one that sets no sender, gas or value, and is not itself an
  // aggregation made by the multicall contract.
  predicate Shareable(c: Call, multicall: Address) {
    && !c.hasOverrides
    && !(c.to == Some(multicall) && c.data.Some? && c.data.value.Text? && |c.data.value.text| >= 10
         && c.data.value.text[..10] == "0x252dba42")
  }

  predicate Complete(c: Call) { c.to.Some? && c.data.Some? }

  // A call leaves alone if there is no multicall contract, if it must not share, or if a
  // batch for another block is waiting. Any other call joins the batch and restarts the
  // timer, unless it lacks its target or data, which refuses it.
  lemma WhereACallGoes(s: State, c: Call, tag: BlockTag)
    ensures var s', p := AfterPerform(s, c, tag), |s.requests|;
            && s'.requests == s.requests + [(c, tag)] && s'.multicall == s.multicall && s'.landed == s.landed
            && (if s.multicall.None? || !Shareable(c, s.multicall.value)
                   || (|s.batched.calls| > 0 && s.batched.blockTag != tag) then
                  Leaves(s, s', c, tag, p)
                else if Complete(c) then
                  Joins(s, s', c, tag, p)
                else
                  IsTurnedDown(s, s', tag, p))
  {
    assert s.multicall.Some? ==> (Shareable(c, s.multicall.value)
                                  <==> !c.hasOverrides && !IsAggregateCall(c, s.multicall.value));
  }

  ghost predicate Leaves(s: State, s': State, c: Call, tag: BlockTag, p: Promise) {
    && s'.flights == s.flights + [Direct(c, tag, p)] && s'.outcomes == s.outcomes + [Pending]
    && s'.batched == s.batched && s'.refused == s.refused
    && s'.timeoutId == s.timeoutId && s'.liveTimers == s.liveTimers && s'.timerCount == s.timerCount
  }

  ghost predicate Joins(s: State, s': State, c: Call, tag: BlockTag, p: Promise) {
    && s'.batched == Batch(tag, s.batched.calls + [c], s.batched.callbacks + [p])
    && s'.outcomes == s.outcomes + [Pending] && s'.flights == s.flights && s'.refused == s.refused
    && s'.timeoutId == Some(s.timerCount) && s'.timerCount == s.timerCount + 1
    && s'.liveTimers == (set t | t in s.liveTimers && Some(t) != s.timeoutId) + {s.timerCount}
  }

  ghost predicate IsTurnedDown(s: State, s': State, tag: BlockTag, p: Promise) {
    && s'.outcomes == s.outcomes + [Rejected] && s'.refused == s.refused + {p} && s'.flights == s.flights
    && s'.batched.calls == s.batched.calls && s'.batched.callbacks == s.batched.callbacks && s'.batched.blockTag == tag
    && s'.timeoutId == s.timeoutId && s'.liveTimers == s.liveTimers && s'.timerCount == s.timerCount
  }

  ghost predicate OnlyShareable(b: Batch, multicall: Option<Address>) {
    forall i :: 0 <= i < |b.calls| ==> multicall.Some? && Shareable(b.calls[i], multicall.value) && Complete(b.calls[i])
  }

  ghost predicate SharesRight(s: State) {
    && OnlyShareable(s.batched, s.multicall)
    && (forall k :: 0 <= k < |s.flights| && s.flights[k].Together? ==> OnlyShareable(s.flights[k].batch, s.multicall))
    && (forall p :: p in s.refused ==>
          && p < |s.requests| && s.multicall.Some?
          && Shareable(s.requests[p].0, s.multicall.value) && !Complete(s.requests[p].0))
  }

  lemma NextKeepsShares(chain: Chain, s: State, a: Action)
    requires SharesRight(s) && Enabled(s, a)
    ensures SharesRight(Next(chain, s, a))
  {
    if a.Perform? {
      WhereACallGoes(s, a.call, a.blockTag);
    }
  }

  // On every run, only complete calls that may share are ever in a batch or refused for
  // what they lack: whoever sets a sender, gas or a value gets a call of its own.
  lemma {:induction false} RunKeepsShares(chain: Chain, s: State, actions: seq<Action>)
    requires SharesRight(s) && RunEnabled(chain, s, actions)
    ensures SharesRight(Run(chain, s, actions)) && Run(chain, s, actions).multicall == s.multicall
    decreases actions
  {
    if actions == [] {
    } else {
      NextKeepsShares(chain, s, actions[0]);
      RunKeepsShares(chain, Next(chain, s, actions[0]), actions[1..]);
    }
  }

  lemma OnlyAlikeShare(chain: Chain, multicall: Option<Address>, actions: seq<Action>)
    requires RunEnabled(chain, Initial(multicall), actions)
    ensures SharesRight(Run(chain, Initial(multicall), actions))
    ensures Run(chain, Initial(multicall), actions).multicall == multicall
  {
    RunKeepsShares(chain, Initial(multicall), actions);
  }

  // ---------- Refinement of unbatched calls ----------

  function DirectOutcome(chain: Chain, s: State, p: Promise, m: Moment): Outcome
    requires p < |s.requests|
  {
    ToOutcome(chain(s.requests[p].0, s.requests[p].1, m))
  }

  // On every run, a promise of a landed flight has the outcome that its own call would
  // have had on its own, at its own block tag and at that moment, if and only if its
  // call fails anyway or every call of the flight succeeds; otherwise it is rejected.
  lemma BatchingRefinesDirectCalls(chain: Chain, multicall: Option<Address>, actions: seq<Action>, k: nat, p: Promise)
    requires RunEnabled(chain, Initial(multicall), actions)
    requires var s := Run(chain, Initial(multicall), actions);
             k in s.landed && k < |s.flights| && p in CallbacksOf(s.flights[k])
    ensures var s := Run(chain, Initial(multicall), actions);
            && p < |s.requests| && p < |s.outcomes|
            && (forall q :: q in CallbacksOf(s.flights[k]) ==> q < |s.requests|)
            && var m := s.landed[k];
               var allSucceed := forall q :: q in CallbacksOf(s.flights[k]) ==> DirectOutcome(chain, s, q, m).Resolved?;
               && s.outcomes[p] == (if allSucceed then DirectOutcome(chain, s, p, m) else
                                    if |CallbacksOf(s.flights[k])| > 1 then Rejected else DirectOutcome(chain, s, p, m))
               && (s.outcomes[p] == DirectOutcome(chain, s, p, m) <==>
                     allSucceed || DirectOutcome(chain, s, p, m) == Rejected)
  {
    InitialInvariant(chain, multicall);
    RunKeepsInvariant(chain, Initial(multicall), actions);
    var s := Run(chain, Initial(multicall), actions);
    FlightOutcome(chain, s, k, p);
  }

  lemma FlightOutcome(chain: Chain, s: State, k: nat, p: Promise)
    requires Invariant(chain, s)
    requires k in s.landed && k < |s.flights| && p in CallbacksOf(s.flights[k])
    ensures p < |s.requests| && p < |s.outcomes|
    ensures forall q :: q in CallbacksOf(s.flights[k]) ==> q < |s.requests|
    ensures var m := s.landed[k];
            var allSucceed := forall q :: q in CallbacksOf(s.flights[k]) ==> DirectOutcome(chain, s, q, m).Resolved?;
            s.outcomes[p] == (if allSucceed then DirectOutcome(chain, s, p, m) else
                              if |CallbacksOf(s.flights[k])| > 1 then Rejected else DirectOutcome(chain, s, p, m))
  {
    var f, m := s.flights[k], s.landed[k];
    assert FlightAligned(f, s.requests) && LandedRight(chain, f, s.outcomes, m);
    match f
    case Direct(_, _, q) =>
      assert CallbacksOf(f) == [q];
    case Together(b) =>
      var i :| 0 <= i < |b.callbacks| && b.callbacks[i] == p;
      assert forall j :: 0 <= j < |b.calls| ==> s.requests[b.callbacks[j]] == (b.calls[j], b.blockTag);
      assert AllSucceed(chain, b, m) <==>
             forall q :: q in CallbacksOf(f) ==> DirectOutcome(chain, s, q, m).Resolved? by {
        if forall q :: q in CallbacksOf(f) ==> DirectOutcome(chain, s, q, m).Resolved? {
          forall j | 0 <= j < |b.calls|
            ensures chain(b.calls[j], b.blockTag, m).Value?
          {
            assert b.callbacks[j] in CallbacksOf(f);
          }
        }
      }
  }

  lemma LandedIsNotPending(chain: Chain, s: State, k: nat, p: Promise)
    requires Invariant(chain, s)
    requires k in s.landed && k < |s.flights| && p in CallbacksOf(s.flights[k])
    ensures p < |s.outcomes| && s.outcomes[p] != Pending
  {
    FlightOutcome(chain, s, k, p);
  }

  // No request is lost: a promise that has no outcome yet waits in the batch, with a
  // live timer to dispatch it, or in a flight that has not landed.
  lemma NothingIsLost(chain: Chain, multicall: Option<Address>, actions: seq<Action>, p: Promise)
    requires RunEnabled(chain, Initial(multicall), actions)
    ensures var s := Run(chain, Initial(multicall), actions);
            && |s.outcomes| == |s.requests|
            && (p < |s.requests| && s.outcomes[p] == Pending ==>
                  || (p in s.batched.callbacks && s.liveTimers != {})
                  || exists k :: 0 <= k < |s.flights| && k !in s.landed && p in CallbacksOf(s.flights[k]))
  {
    InitialInvariant(chain, multicall);
    RunKeepsInvariant(chain, Initial(multicall), actions);
    var s := Run(chain, Initial(multicall), actions);
    if p < |s.requests| && s.outcomes[p] == Pending {
      assert IsPlaced(s, p);
      InMultiset(s.batched.callbacks, p);
      if p !in s.batched.callbacks {
        var k := FindFlight(s.flights, p);
        if k in s.landed {
          LandedIsNotPending(chain, s, k, p);
        }
      }
    }
  }

  lemma {:induction false} FindFlight(flights: seq<Flight>, p: Promise) returns (k: nat)
    requires CountIn(flights, p) > 0
    ensures k < |flights| && p in CallbacksOf(flights[k])
  {
    var n := |flights| - 1;
    InMultiset(CallbacksOf(flights[n]), p);
    if p in CallbacksOf(flights[n]) {
      k := n;
    } else {
      k := FindFlight(flights[..n], p);
    }
  }

  // Two calls in one batch: one would succeed alone, and is rejected with the other.
  lemma NeighbourIsRejected(chain: Chain, good: Call, bad: Call)
    requires good == Call(Some(1), Some(Bytes([])), false) && bad == Call(Some(2), Some(Bytes([])), false)
    requires chain(good, LATEST, 0).Value? && chain(bad, LATEST, 0).Failure?
    ensures var actions := [Perform(good, LATEST), Perform(bad, LATEST)] + [Fire(1), Land(0, 0)];
            && RunEnabled(chain, Initial(Some(9)), actions)
            && var s := Run(chain, Initial(Some(9)), actions);
               && s.requests == [(good, LATEST), (bad, LATEST)] && s.outcomes == [Rejected, Rejected]
               && DirectOutcome(chain, s, 0, 0).Resolved?
  {
    var s0 := Initial(Some(9));
    var s := State(Some(9), Batch(LATEST, [good, bad], [0, 1]), Some(1), {1}, 2, [(good, LATEST), (bad, LATEST)],
                   [Pending, Pending], {}, [], map[]);
    BothAreBatched(chain, good, bad, s);
    BatchLands(chain, s);
    RunTwo(chain, s0, Perform(good, LATEST), Perform(bad, LATEST), [Fire(1), Land(0, 0)]);
    RunTwo(chain, s, Fire(1), Land(0, 0), []);
    assert [Fire(1), Land(0, 0)] + [] == [Fire(1), Land(0, 0)];
  }

  lemma BothAreBatched(chain: Chain, good: Call, bad: Call, s: State)
    requires good == Call(Some(1), Some(Bytes([])), false) && bad == Call(Some(2), Some(Bytes([])), false)
    requires s == State(Some(9), Batch(LATEST, [good, bad], [0, 1]), Some(1), {1}, 2, [(good, LATEST), (bad, LATEST)],
                        [Pending, Pending], {}, [], map[])
    ensures Next(chain, Next(chain, Initial(Some(9)), Perform(good, LATEST)), Perform(bad, LATEST)) == s
  {
    var s1 := Next(chain, Initial(Some(9)), Perform(good, LATEST));
    assert s1.batched == Batch(LATEST, [good], [0]) && s1.liveTimers == {0};
    assert AfterPerform(s1, bad, LATEST).liveTimers == {1};
  }

  lemma BatchLands(chain: Chain, s: State)
    requires s.liveTimers == {1} && s.flights == [] && s.landed == map[] && s.outcomes == [Pending, Pending]
    requires |s.batched.calls| == 2 && s.batched.callbacks == [0, 1]
    requires chain(s.batched.calls[1], s.batched.blockTag, 0).Failure?
    ensures Enabled(s, Fire(1)) && Enabled(Next(chain, s, Fire(1)), Land(0, 0))
    ensures var s' := Next(chain, Next(chain, s, Fire(1)), Land(0, 0));
            s'.outcomes == [Rejected, Rejected] && s'.requests == s.requests
  {
    var s1 := AfterFire(s, 1);
    assert s1.flights == [Together(s.batched)];
    NeighbourSettles(chain, s.batched);
  }

  lemma RunTwo(chain: Chain, s: State, a: Action, a': Action, rest: seq<Action>)
    requires Enabled(s, a) && Enabled(Next(chain, s, a), a')
    ensures var s' := Next(chain, Next(chain, s, a), a');
            && (RunEnabled(chain, s, [a, a'] + rest) <==> RunEnabled(chain, s', rest))
            && (RunEnabled(chain, s', rest) ==> Run(chain, s, [a, a'] + rest) == Run(chain, s', rest))
  {
    var actions := [a, a'] + rest;
    assert actions[0] == a && actions[1..] == [a'] + rest;
    assert ([a'] + rest)[0] == a' && ([a'] + rest)[1..] == rest;
  }

  lemma NeighbourSettles(chain: Chain, b: Batch)
    requires |b.calls| == 2 && b.callbacks == [0, 1] && chain(b.calls[1], b.blockTag, 0).Failure?
    ensures SettleFirst(chain, [Pending, Pending], b, 0, 2) == [Rejected, Rejected]
  {
    assert !AllSucceed(chain, b, 0);
    assert SettleFirst(chain, [Pending, Pending], b, 0, 1) == [Rejected, Pending];
  }

  // ---------- The provider ----------

  // The provider with its own fields, and around it the promises it has handed out, the
  // live timers, and the calls on their way.
  class BatchedProvider {
    const multicall: Option<Address>
    var batchTag: BlockTag
    var batchedCalls: seq<Call>
    var batchedCallbacks: seq<Promise>
    var timeoutId: Option<TimerId>
    var liveTimers: set<TimerId>
    var timerCount: nat
    var requests: seq<(Call, BlockTag)>
    var outcomes: seq<Outcome>
    var refused: set<Promise>
    var flights: seq<Flight>
    var landed: map<nat, Moment>

    ghost function Contents(): State
      reads this
    {
      State(multicall, Batch(batchTag, batchedCalls, batchedCallbacks), timeoutId, liveTimers, timerCount,
            requests, outcomes, refused, flights, landed)
    }

    constructor (multicall: Option<Address>)
      ensures Contents() == Initial(multicall)
    {
      this.multicall := multicall;
      batchTag, batchedCalls, batchedCallbacks := LATEST, [], [];
      timeoutId, liveTimers, timerCount := None, {}, 0;
      requests, outcomes, refused, flights, landed := [], [], {}, [], map[];
    }

    method NewPromise(call: Call, blockTag: BlockTag) returns (p: Promise)
      modifies this`requests, this`outcomes
      ensures p == |old(requests)|
      ensures requests == old(requests) + [(call, blockTag)] && outcomes == old(outcomes) + [Pending]
    {
      p := |requests|;
      requests := requests + [(call, blockTag)];
      outcomes := outcomes + [Pending];
    }

    method SetTimeout() returns (timer: TimerId)
      modifies this`liveTimers, this`timerCount
      ensures timer == old(timerCount) && timerCount == old(timerCount) + 1
      ensures liveTimers == old(liveTimers) + {timer}
    {
      timer := timerCount;
      timerCount := timerCount + 1;
      liveTimers := liveTimers + {timer};
    }

    method EnqueueCall(call: Call, blockTag: BlockTag)
      requires !GoesDirect(Contents(), call, blockTag) && !IsRefused(Contents(), call, blockTag)
      requires batchTag == blockTag
      modifies this`batchedCalls, this`batchedCallbacks, this`timeoutId, this`liveTimers, this`timerCount,
               this`requests, this`outcomes
      ensures Contents() == AfterPerform(old(Contents()), call, blockTag)
    {
      if timeoutId.Some? {
        liveTimers := liveTimers - {timeoutId.value};
      }
      batchedCalls := batchedCalls + [call];
      var timer := SetTimeout();
      timeoutId := Some(timer);
      var p := NewPromise(call, blockTag);
      batchedCallbacks := batchedCallbacks + [p];
    }

    method PerformCall(call: Call, blockTag: BlockTag)
      modifies this
      ensures Contents() == AfterPerform(old(Contents()), call, blockTag)
    {
      if multicall.None? || IsAggregateCall(call, multicall.value) || call.hasOverrides
         || (batchedCalls != [] && blockTag != batchTag) {
        var p := NewPromise(call, blockTag);
        flights := flights + [Direct(call, blockTag, p)];
      } else {
        if batchedCalls == [] {
          batchTag := blockTag;
        }
        if call.to.None? || call.data.None? {
          Refuse(call, blockTag);
        } else {
          EnqueueCall(call, blockTag);
        }
      }
    }

    // An assertion of an asynchronous function rejects the promise that the caller holds.
    method Refuse(call: Call, blockTag: BlockTag)
      modifies this`requests, this`outcomes, this`refused
      ensures requests == old(requests) + [(call, blockTag)] && outcomes == old(outcomes) + [Rejected]
      ensures refused == old(refused) + {|old(requests)|}
    {
      var p := |requests|;
      requests := requests + [(call, blockTag)];
      outcomes := outcomes + [Rejected];
      refused := refused + {p};
    }

    // A timer fires and dispatches the batch. On every run there is one to dispatch.
    method DispatchCalls(timer: TimerId)
      requires timer in liveTimers
      modifies this
      ensures Contents() == AfterFire(old(Contents()), timer)
    {
      liveTimers := liveTimers - {timer};
      var batch := Batch(batchTag, batchedCalls, batchedCallbacks);
      batchTag, batchedCalls, batchedCallbacks := LATEST, [], [];
      flights := flights + [Together(batch)];
    }

    // The node's reply to a batch resolves or rejects the callbacks in turn.
    method SettleBatch(chain: Chain, batch: Batch, moment: Moment)
      requires |batch.calls| == |batch.callbacks|
      modifies this`outcomes
      ensures outcomes == SettleFirst(chain, old(outcomes), batch, moment, |batch.calls|)
    {
      var i := 0;
      while i < |batch.calls|
        invariant 0 <= i <= |batch.calls|
        invariant outcomes == SettleFirst(chain, old(outcomes), batch, moment, i)
      {
        outcomes := Settle(outcomes, batch.callbacks[i], BatchOutcome(chain, batch, i, moment));
        i := i + 1;
      }
    }

    method Receive(chain: Chain, flight: nat, moment: Moment)
      requires Enabled(Contents(), Land(flight, moment)) && Invariant(chain, Contents())
      modifies this
      ensures Contents() == AfterLand(chain, old(Contents()), flight, moment)
    {
      assert FlightAligned(flights[flight], requests);
      landed := landed[flight := moment];
      match flights[flight] {
        case Direct(c, tag, p) => outcomes := Settle(outcomes, p, ToOutcome(chain(c, tag, moment)));
        case Together(b) => SettleBatch(chain, b, moment);
      }
    }
  }
}
