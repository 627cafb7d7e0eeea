// Redistribution of liquidated debt and collateral by stake: the sort key that
// survives it, and crediting it lazily.
module Redistribution {
  import opened Arithmetic
  import opened Decimals
  import Algebra
  import Troves

  // BigInt and BigDecimal division truncates toward zero.
  function TruncDiv(a: int, b: int): int
    requires b != 0
  {
    if (a >= 0) == (b > 0) then Abs(a) / Abs(b) else -(Abs(a) / Abs(b))
  }

  // The exact quotient with its fraction dropped: its size is rounded down, and its sign is
  // that of the quotient.
  lemma TruncDivDropsFraction(a: int, b: int)
    requires b != 0
    ensures var q := TruncDiv(a, b);
            && Abs(q) * Abs(b) <= Abs(a) < (Abs(q) + 1) * Abs(b)
            && (q > 0 ==> (a > 0) == (b > 0)) && (q < 0 ==> (a > 0) != (b > 0))
  {
    var n := Abs(a) / Abs(b);
    FloorBounds(Abs(a), Abs(b));
    assert (n + 1) * Abs(b) == n * Abs(b) + Abs(b);
  }

  // ---------- The sort key ----------

  function SortKey(debt: int, stake: nat, totalRedistributed: int): int
    requires stake > 0
  {
    TruncDiv(debt * DIGITS, stake) - totalRedistributed
  }

  // Debt with everything redistributed since the snapshot, scaled by DIGITS, unrounded.
  function ScaledDebt(debt: int, stake: nat, snapshot: int, total: int): int {
    debt * DIGITS + (total - snapshot) * stake
  }

  // key + total is the floored debt per stake at every later total.
  lemma SortKeyIsRedistributionProof(debt: nat, stake: nat, snapshot: int, total: int)
    requires stake > 0
    ensures SortKey(debt, stake, snapshot) + total == ScaledDebt(debt, stake, snapshot, total) / stake
  {
    FloorShift(debt * DIGITS, stake, total - snapshot);
  }

  // Comparing two stored keys is comparing the floored debts per stake at any total;
  // a strictly smaller key means a strictly smaller exact debt per stake.
  lemma SortKeyOrder(debt: nat, stake: nat, snapshot: int, debt': nat, stake': nat, snapshot': int, total: int)
    requires stake > 0 && stake' > 0
    ensures SortKey(debt, stake, snapshot) <= SortKey(debt', stake', snapshot') <==>
              ScaledDebt(debt, stake, snapshot, total) / stake <= ScaledDebt(debt', stake', snapshot', total) / stake'
    ensures SortKey(debt, stake, snapshot) < SortKey(debt', stake', snapshot') ==>
              ScaledDebt(debt, stake, snapshot, total) * stake' < ScaledDebt(debt', stake', snapshot', total) * stake
  {
    SortKeyIsRedistributionProof(debt, stake, snapshot, total);
    SortKeyIsRedistributionProof(debt', stake', snapshot', total);
    var a, b := ScaledDebt(debt, stake, snapshot, total), ScaledDebt(debt', stake', snapshot', total);
    if a / stake < b / stake' {
      SmallerFloor(a, stake, b, stake');
    }
  }

  lemma SmallerFloor(a: int, s: nat, b: int, t: nat)
    requires s > 0 && t > 0 && a / s < b / t
    ensures a * t < b * s
  {
    var q := b / t;
    FloorAdjoint(a, s, q);
    FloorAdjoint(b, t, q);
    assert a * t < q * s * t by { MulMonotone(a + 1, q * s, t); }
    assert q * s * t == q * t * s by { MulAssoc(q, s, t); MulAssoc(q, t, s); }
    assert q * t * s <= b * s by { MulMonotone(q * t, b, s); }
  }

  // What a stake is credited when the total moves, as the indexer computes it.
  function Gain(stake: int, snapshot: int, total: int): int {
    TruncDiv((total - snapshot) * stake, DIGITS)
  }

  // Against the debt actually accrued, which is floored, the key is off by less
  // than one unit of debt per stake plus one.
  lemma SortKeyGap(debt: nat, stake: nat, snapshot: nat, total: nat)
    requires stake > 0 && snapshot <= total
    ensures var key, accrued := SortKey(debt, stake, snapshot), debt + Gain(stake, snapshot, total);
            var gap := (key + total) * stake - accrued * DIGITS;
            gap + stake > 0 && gap < DIGITS
  {
    SortKeyIsRedistributionProof(debt, stake, snapshot, total);
    MulMonotone(snapshot, total, stake);
    assert (total - snapshot) * stake >= 0;
    FloorBounds(ScaledDebt(debt, stake, snapshot, total), stake);
    FloorBounds((total - snapshot) * stake, DIGITS);
  }

  // ---------- Lazy accrual ----------

  predicate NonDecreasing(totals: seq<nat>) {
    forall i, j :: 0 <= i < j < |totals| ==> totals[i] <= totals[j]
  }

  function GainInSteps(stake: nat, totals: seq<nat>): int {
    if |totals| < 2 then 0 else Gain(stake, totals[0], totals[1]) + GainInSteps(stake, totals[1..])
  }

  lemma ProductNotNegative(a: nat, b: nat)
    ensures a * b >= 0
  {
  }

  lemma GainSplit(stake: nat, a: nat, b: nat, c: nat)
    requires a <= b <= c
    ensures 0 <= Gain(stake, a, c) - (Gain(stake, a, b) + Gain(stake, b, c)) <= 1
    ensures Gain(stake, a, b) >= 0
  {
    ProductNotNegative(b - a, stake);
    ProductNotNegative(c - b, stake);
    Algebra.Distribute(b - a, c - b, stake);
    FloorSplit((b - a) * stake, (c - b) * stake, DIGITS);
  }

  // Accruing in n >= 1 steps credits between 0 and n - 1 units less than accruing once.
  lemma {:induction false} LazyAccrual(stake: nat, totals: seq<nat>)
    requires |totals| >= 2 && NonDecreasing(totals)
    ensures 0 <= Gain(stake, totals[0], totals[|totals| - 1]) - GainInSteps(stake, totals) <= |totals| - 2
  {
    if |totals| == 2 {
      assert GainInSteps(stake, totals[1..]) == 0;
    } else {
      LazyAccrual(stake, totals[1..]);
      GainSplit(stake, totals[0], totals[1], totals[|totals| - 1]);
    }
  }

  lemma GainOfSum(stake: nat, stake': nat, snapshot: nat, total: nat)
    requires snapshot <= total
    ensures var apart := Gain(stake, snapshot, total) + Gain(stake', snapshot, total);
            0 <= Gain(stake + stake', snapshot, total) - apart <= 1
  {
    ProductNotNegative(total - snapshot, stake);
    ProductNotNegative(total - snapshot, stake');
    Algebra.Distribute(stake, stake', total - snapshot);
    FloorSplit((total - snapshot) * stake, (total - snapshot) * stake', DIGITS);
  }

  function SumStakes(stakes: seq<nat>): nat {
    if stakes == [] then 0 else stakes[0] + SumStakes(stakes[1..])
  }

  function SumGains(stakes: seq<nat>, snapshot: nat, total: nat): int {
    if stakes == [] then 0 else Gain(stakes[0], snapshot, total) + SumGains(stakes[1..], snapshot, total)
  }

  // Crediting every stake separately never pays out more than was redistributed to
  // the sum of the stakes, and at most one unit less per stake.
  lemma {:induction false} GainsNeverExceedPool(stakes: seq<nat>, snapshot: nat, total: nat)
    requires snapshot <= total
    ensures 0 <= Gain(SumStakes(stakes), snapshot, total) - SumGains(stakes, snapshot, total) <= |stakes|
  {
    if stakes == [] {
    } else {
      GainsNeverExceedPool(stakes[1..], snapshot, total);
      GainOfSum(stakes[0], SumStakes(stakes[1..]), snapshot, total);
    }
  }

  // ---------- The same credit in lib-base ----------

  function ApplyRedistribution(t: Troves.Trove, stake: Decimal, snapshot: Troves.Trove,
                               total: Troves.Trove): Troves.Trove {
    t.Add(total.Subtract(snapshot).Multiply(stake))
  }

  // The indexer's credit is lib-base's exactly when the snapshot is not ahead of the
  // total by a whole unit for this stake.
  lemma IndexerMatchesLibrary(stake: Decimal, snapshot: Decimal, total: Decimal)
    ensures Gain(stake, snapshot, total) == Mul(Troves.Monus(total, snapshot), stake)
            <==> (snapshot <= total || (snapshot - total) * stake < DIGITS)
  {
    var x := (total - snapshot) * stake;
    if snapshot <= total {
      assert x >= 0;
    } else {
      assert x == -((snapshot - total) * stake) && x <= 0;
      FloorAdjoint((snapshot - total) * stake, DIGITS, 1);
      FloorBounds((snapshot - total) * stake, DIGITS);
    }
  }
}
