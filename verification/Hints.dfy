// Insertion hints for a trove in the list sorted by nominal collateral ratio.
module Hints {
  import opened Wrappers
  import opened Arithmetic
  import opened Decimals

  type Address = nat

  const ADDRESS_ZERO: Address := 0

  const MAX_TRIALS_AT_ONCE: nat := 2500

  // ---------- Splitting the trials ----------

  ghost function SumOf(trials: seq<nat>): nat {
    if trials == [] then 0 else SumOf(trials[..|trials| - 1]) + trials[|trials| - 1]
  }

  lemma SumAppended(trials: seq<nat>, n: nat)
    ensures SumOf(trials + [n]) == SumOf(trials) + n
  {
    assert (trials + [n])[..|trials|] == trials;
  }

  // The number of trials is split into non-empty parts of at most the maximum, all but
  // the last one full.
  method GenerateTrials(totalNumberOfTrials: nat) returns (trials: seq<nat>)
    requires totalNumberOfTrials > 0
    ensures SumOf(trials) == totalNumberOfTrials
    ensures forall i :: 0 <= i < |trials| ==> 0 < trials[i] <= 2500
    ensures forall i :: 0 <= i < |trials| - 1 ==> trials[i] == 2500
    ensures |trials| == (totalNumberOfTrials + 2499) / 2500
  {
    trials := [];
    var left := totalNumberOfTrials;
    while left > 0
      invariant 0 <= left <= totalNumberOfTrials && SumOf(trials) + left == totalNumberOfTrials
      invariant forall i :: 0 <= i < |trials| ==> 0 < trials[i] <= MAX_TRIALS_AT_ONCE
      invariant forall i :: 0 <= i < |trials| - 1 ==> trials[i] == MAX_TRIALS_AT_ONCE
      invariant left > 0 ==> SumOf(trials) == |trials| * MAX_TRIALS_AT_ONCE
      invariant left == 0 ==>
        |trials| > 0 && (|trials| - 1) * MAX_TRIALS_AT_ONCE < totalNumberOfTrials <= |trials| * MAX_TRIALS_AT_ONCE
      invariant left > 0 ==> forall i :: 0 <= i < |trials| ==> trials[i] == MAX_TRIALS_AT_ONCE
    {
      var n := Min(left, MAX_TRIALS_AT_ONCE);
      SumAppended(trials, n);
      trials := trials + [n];
      left := left - n;
    }
  }

  datatype ApproxHint = ApproxHint(diff: nat, hintAddress: Address)

  // Folding the results keeps the later one unless the earlier is strictly closer.
  function Closest(results: seq<ApproxHint>): ApproxHint
    requires results != []
  {
    if |results| == 1 then results[0]
    else
      var best, last := Closest(results[..|results| - 1]), results[|results| - 1];
      if best.diff < last.diff then best else last
  }

  ghost predicate IsLastMinimum(results: seq<ApproxHint>, i: nat) {
    && i < |results|
    && (forall j :: 0 <= j < |results| ==> results[i].diff <= results[j].diff)
    && (forall j :: i < j < |results| ==> results[i].diff < results[j].diff)
  }

  // The fold gives the last of the closest hints.
  lemma ClosestIsLastMinimum(results: seq<ApproxHint>)
    requires results != []
    ensures exists i: nat :: IsLastMinimum(results, i) && results[i] == Closest(results)
  {
    var i := LastMinimum(results);
  }

  lemma {:induction false} LastMinimum(results: seq<ApproxHint>) returns (i: nat)
    requires results != []
    ensures IsLastMinimum(results, i) && results[i] == Closest(results)
  {
    i := 0;
    var n := |results| - 1;
    if n == 0 {
    } else {
      var init := results[..n];
      i := LastMinimum(init);
      assert forall j :: 0 <= j < n ==> results[j] == init[j];
      if results[n].diff <= init[i].diff {
        i := n;
      }
    }
  }

  // ---------- The sorted list ----------

  // Troves in the order of their nominal ratio, highest first, without duplicates.
  ghost predicate Sorted(list: seq<Address>, ratio: Address -> Decimal) {
    && (forall i :: 0 <= i < |list| ==> list[i] != ADDRESS_ZERO)
    && (forall i, j :: 0 <= i < j < |list| ==> list[i] != list[j] && ratio(list[i]) >= ratio(list[j]))
  }

  // The neighbours around position i; the zero address stands for the ends.
  function Before(list: seq<Address>, i: nat): Address
    requires i <= |list|
  {
    if i == 0 then ADDRESS_ZERO else list[i - 1]
  }

  function After(list: seq<Address>, i: nat): Address
    requires i <= |list|
  {
    if i == |list| then ADDRESS_ZERO else list[i]
  }

  function GetPrev(list: seq<Address>, a: Address): Address {
    if list == [] then ADDRESS_ZERO
    else if list[|list| - 1] == a then Before(list, |list| - 1)
    else GetPrev(list[..|list| - 1], a)
  }

  function GetNext(list: seq<Address>, a: Address): Address {
    if list == [] then ADDRESS_ZERO
    else if list[0] == a then After(list, 1)
    else GetNext(list[1..], a)
  }

  // An insert position: adjacent places of the list between which the ratio fits.
  predicate Position(list: seq<Address>, i: nat, prev: Address, next: Address, ratio: Address -> Decimal,
                     nicr: Decimal) {
    && i <= |list| && prev == Before(list, i) && next == After(list, i)
    && (prev != ADDRESS_ZERO ==> ratio(prev) >= nicr)
    && (next != ADDRESS_ZERO ==> nicr >= ratio(next))
  }

  ghost predicate IsInsertPosition(list: seq<Address>, prev: Address, next: Address, ratio: Address -> Decimal,
                                   nicr: Decimal) {
    exists i :: Position(list, i, prev, next, ratio, nicr)
  }

  function Without(list: seq<Address>, a: Address): seq<Address> {
    if list == [] then []
    else if list[0] == a then list[1..]
    else [list[0]] + Without(list[1..], a)
  }

  // ---------- Jumping over the own trove ----------

  // The own trove is deleted before it is inserted again, so it cannot be a hint.
  function JumpOver(list: seq<Address>, prev: Address, next: Address, own: Option<Address>): (Address, Address) {
    if own.None? then (prev, next)
    else if prev == own.value then (GetPrev(list, prev), next)
    else if next == own.value then (prev, GetNext(list, next))
    else (prev, next)
  }

  // A zero hint is replaced by the other one.
  function FillIn(prev: Address, next: Address): (Address, Address) {
    if prev == ADDRESS_ZERO then (next, next)
    else if next == ADDRESS_ZERO then (prev, prev)
    else (prev, next)
  }

  // What findInsertPosition is asked for, and what it is assumed to answer.
  ghost predicate IsAsked(list: seq<Address>, ratio: Address -> Decimal, nicr: Decimal, own: Option<Address>,
                          position: (Address, Address)) {
    && Sorted(list, ratio) && own != Some(ADDRESS_ZERO) && nicr != INFINITY
    && IsInsertPosition(list, position.0, position.1, ratio, nicr)
  }

  // `own` is none, or an address; `position` is what findInsertPosition returns, an insert
  // position in a sorted list. Both hints are then usable in the list without the own
  // trove, unless the ratio is infinite.
  method FindHints(list: seq<Address>, ghost ratio: Address -> Decimal, nicr: Decimal, own: Option<Address>,
                   position: (Address, Address))
    returns (hints: (Address, Address))
    ensures hints == HintsOf(list, nicr, own, position)
    ensures nicr == INFINITY || list == [] ==> hints == (0, if list == [] then 0 else list[0])
    ensures IsAsked(list, ratio, nicr, own, position) ==> Usable(Rest(list, own), ratio, nicr, own, hints)
  {
    if IsAsked(list, ratio, nicr, own, position) {
      HintsAreUsable(list, ratio, nicr, own, position);
    }
    if |list| == 0 {
      return (ADDRESS_ZERO, ADDRESS_ZERO);
    }
    if nicr == INFINITY {
      return (ADDRESS_ZERO, list[0]);
    }
    var prev, next := position.0, position.1;
    if own.Some? {
      if prev == own.value {
        prev := GetPrev(list, prev);
      } else if next == own.value {
        next := GetNext(list, next);
      }
    }
    if prev == ADDRESS_ZERO {
      prev := next;
    } else if next == ADDRESS_ZERO {
      next := prev;
    }
    hints := (prev, next);
  }

  function HintsOf(list: seq<Address>, nicr: Decimal, own: Option<Address>, position: (Address, Address))
    : (Address, Address)
  {
    if list == [] then (ADDRESS_ZERO, ADDRESS_ZERO)
    else if nicr == INFINITY then (ADDRESS_ZERO, list[0])
    else
      var (prev, next) := JumpOver(list, position.0, position.1, own);
      FillIn(prev, next)
  }

  // ---------- What the lists give ----------

  lemma {:induction false} PrevOf(list: seq<Address>, i: nat)
    requires i < |list|
    requires forall j, k :: 0 <= j < k < |list| ==> list[j] != list[k]
    ensures GetPrev(list, list[i]) == Before(list, i)
  {
    if i == |list| - 1 {
    } else {
      PrevOf(list[..|list| - 1], i);
    }
  }

  lemma {:induction false} NextOf(list: seq<Address>, i: nat)
    requires i < |list|
    requires forall j, k :: 0 <= j < k < |list| ==> list[j] != list[k]
    ensures GetNext(list, list[i]) == After(list, i + 1)
  {
    if i == 0 {
    } else {
      NextOf(list[1..], i - 1);
    }
  }

  lemma {:induction false} WithoutAt(list: seq<Address>, i: nat)
    requires i < |list|
    requires forall j, k :: 0 <= j < k < |list| ==> list[j] != list[k]
    ensures Without(list, list[i]) == list[..i] + list[i + 1..]
  {
    if i == 0 {
    } else {
      WithoutAt(list[1..], i - 1);
      assert list[1..][..i - 1] == list[1..i] && list[1..][i..] == list[i + 1..];
      assert [list[0]] + list[1..i] == list[..i];
    }
  }

  lemma {:induction false} WithoutAbsent(list: seq<Address>, a: Address)
    requires a !in list
    ensures Without(list, a) == list
  {
    if list == [] {
    } else {
      WithoutAbsent(list[1..], a);
    }
  }

  // ---------- The corrected hints ----------

  // The list from which the own trove, if any, has been deleted.
  function Rest(list: seq<Address>, own: Option<Address>): seq<Address> {
    if own.None? then list else Without(list, own.value)
  }

  // From position i of the whole list, jumping over gives a position of the list without
  // the trove at k.
  lemma JumpOverAt(list: seq<Address>, ratio: Address -> Decimal, nicr: Decimal, k: nat, i: nat)
    requires Sorted(list, ratio) && k < |list| && i <= |list|
    requires Position(list, i, Before(list, i), After(list, i), ratio, nicr)
    ensures var (p, n) := JumpOver(list, Before(list, i), After(list, i), Some(list[k]));
            IsInsertPosition(Without(list, list[k]), p, n, ratio, nicr)
  {
    WithoutAt(list, k);
    var rest := list[..k] + list[k + 1..];
    if i == k + 1 {
      PrevOf(list, k);
      assert Position(rest, k, Before(list, k), After(list, i), ratio, nicr);
    } else if i == k {
      NextOf(list, k);
      assert Position(rest, k, Before(list, k), After(list, k + 1), ratio, nicr);
    } else {
      var j := if k < i then i - 1 else i;
      assert Before(rest, j) == Before(list, i) && After(rest, j) == After(list, i);
      assert Position(rest, j, Before(list, i), After(list, i), ratio, nicr);
    }
  }

  // From an insert position in the whole list, jumping over gives an insert position in
  // the list without the own trove.
  lemma JumpOverIsInsertPosition(list: seq<Address>, ratio: Address -> Decimal, nicr: Decimal, own: Option<Address>,
                                 prev: Address, next: Address)
    requires Sorted(list, ratio) && own != Some(ADDRESS_ZERO)
    requires IsInsertPosition(list, prev, next, ratio, nicr)
    ensures var (p, n) := JumpOver(list, prev, next, own);
            IsInsertPosition(Rest(list, own), p, n, ratio, nicr)
  {
    var i :| Position(list, i, prev, next, ratio, nicr);
    if own.Some? {
      if own.value in list {
        var k :| 0 <= k < |list| && list[k] == own.value;
        JumpOverAt(list, ratio, nicr, k, i);
      } else {
        WithoutAbsent(list, own.value);
      }
    }
  }

  // Around some position of the list at which the ratio fits, the first hint is the trove
  // before it, or the first one of the list, and the second the trove after it, or the last.
  ghost predicate UsableAt(rest: seq<Address>, ratio: Address -> Decimal, nicr: Decimal, hints: (Address, Address),
                           i: nat) {
    && rest != [] && i <= |rest|
    && (i > 0 ==> ratio(rest[i - 1]) >= nicr)
    && (i < |rest| ==> nicr >= ratio(rest[i]))
    && hints.0 == (if i > 0 then rest[i - 1] else rest[0])
    && hints.1 == (if i < |rest| then rest[i] else rest[|rest| - 1])
  }

  // Both hints are such troves, and none of them the own one; they are zero only if the
  // list is empty.
  ghost predicate Usable(rest: seq<Address>, ratio: Address -> Decimal, nicr: Decimal, own: Option<Address>,
                         hints: (Address, Address)) {
    if rest == [] then hints == (0, 0)
    else
      && hints.0 != 0 && hints.1 != 0 && own != Some(hints.0) && own != Some(hints.1)
      && exists i :: UsableAt(rest, ratio, nicr, hints, i)
  }

  // With a finite ratio the hints are usable in the list without the own trove.
  lemma HintsAreUsable(list: seq<Address>, ratio: Address -> Decimal, nicr: Decimal, own: Option<Address>,
                       position: (Address, Address))
    requires IsAsked(list, ratio, nicr, own, position)
    ensures Usable(Rest(list, own), ratio, nicr, own, HintsOf(list, nicr, own, position))
  {
    JumpOverIsInsertPosition(list, ratio, nicr, own, position.0, position.1);
    var (p, n) := JumpOver(list, position.0, position.1, own);
    var rest := Rest(list, own);
    var i :| Position(rest, i, p, n, ratio, nicr);
    if own.Some? {
      RestIsSorted(list, ratio, own.value);
    }
    if rest != [] {
      FilledIn(rest, ratio, nicr, i, p, n);
      assert own.Some? ==> own.value !in rest;
    }
  }

  lemma FilledIn(rest: seq<Address>, ratio: Address -> Decimal, nicr: Decimal, i: nat, p: Address, n: Address)
    requires Sorted(rest, ratio) && rest != [] && Position(rest, i, p, n, ratio, nicr)
    ensures UsableAt(rest, ratio, nicr, FillIn(p, n), i)
    ensures FillIn(p, n).0 != 0 && FillIn(p, n).0 in rest && FillIn(p, n).1 != 0 && FillIn(p, n).1 in rest
  {
  }

  // Deleting the own trove leaves all others in their order.
  lemma {:induction false} OnlyOwnIsLeftOut(list: seq<Address>, own: Address, before: seq<Address>, after: seq<Address>)
    requires list == before + [own] + after && own !in before
    ensures Without(list, own) == before + after
  {
    if before == [] {
      assert list[0] == own && list[1..] == after && before + after == after;
    } else {
      assert list[0] == before[0] && list[1..] == before[1..] + [own] + after;
      OnlyOwnIsLeftOut(list[1..], own, before[1..], after);
      assert [before[0]] + (before[1..] + after) == before + after;
    }
  }

  lemma RestIsSorted(list: seq<Address>, ratio: Address -> Decimal, own: Address)
    requires Sorted(list, ratio)
    ensures Sorted(Without(list, own), ratio) && own !in Without(list, own)
  {
    if own in list {
      var k :| 0 <= k < |list| && list[k] == own;
      WithoutAt(list, k);
      CutIsSorted(list, ratio, k);
    } else {
      WithoutAbsent(list, own);
    }
  }

  lemma CutIsSorted(list: seq<Address>, ratio: Address -> Decimal, k: nat)
    requires Sorted(list, ratio) && k < |list|
    ensures Sorted(list[..k] + list[k + 1..], ratio) && list[k] !in list[..k] + list[k + 1..]
  {
    var rest := list[..k] + list[k + 1..];
    forall i | 0 <= i < |rest|
      ensures rest[i] == list[if i < k then i else i + 1]
    {
    }
  }

  // With an infinite ratio the first hint is always zero, and the second is a trove of
  // the list without the own one exactly when the own trove is not first.
  lemma InfiniteRatioHints(list: seq<Address>, ratio: Address -> Decimal, own: Address, position: (Address, Address))
    requires Sorted(list, ratio) && list != []
    ensures var (prev, next) := HintsOf(list, INFINITY, Some(own), position);
            && prev == ADDRESS_ZERO
            && (next in Without(list, own) <==> list[0] != own)
  {
    RestIsSorted(list, ratio, own);
    if list[0] != own {
      assert list[0] in Without(list, own) by {
        assert Without(list, own)[0] == list[0];
      }
    }
  }
}
