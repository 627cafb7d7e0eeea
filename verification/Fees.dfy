// The fee calculator of lib-base: a base rate that decays by the minute, and
// the borrowing and redemption rates derived from it.
module FeeRates {
  import opened Arithmetic
  import opened Decimals
  import Algebra

  const MINIMUM_BORROWING_RATE: Decimal := 5_000_000_000_000_000
  const MAXIMUM_BORROWING_RATE: Decimal := 50_000_000_000_000_000
  const MINIMUM_REDEMPTION_RATE: Decimal := 5_000_000_000_000_000

  // `pow` asserts that its exponent fits in 32 bits.
  const LONGEST_DECAY: nat := 0xffff_ffff

  // Times are in milliseconds.
  datatype Fees = Fees(
    baseRateWithoutDecay: Decimal,
    minuteDecayFactor: Decimal,
    beta: Decimal,
    lastFeeOperation: int,
    timeOfLatestBlock: int,
    recoveryMode: bool
  ) {
    // Asserted by the constructor.
    predicate Valid() {
      minuteDecayFactor < DIGITS
    }

    function SetRecoveryMode(recovery: bool): Fees {
      this.(recoveryMode := recovery)
    }

    // Whole minutes since the last fee operation; time never runs backwards.
    function MinutesSince(when: int): nat {
      Max(when - lastFeeOperation, 0) / 60_000
    }

    function BaseRate(when: int): Decimal
      requires MinutesSince(when) <= LONGEST_DECAY
    {
      Mul(PowOf(minuteDecayFactor, MinutesSince(when)), baseRateWithoutDecay)
    }

    function BorrowingRate(when: int): Decimal
      requires MinutesSince(when) <= LONGEST_DECAY
    {
      if recoveryMode then 0 else Min(MINIMUM_BORROWING_RATE + BaseRate(when), MAXIMUM_BORROWING_RATE)
    }

    function RedemptionRate(redeemedFraction: Decimal, when: int): Decimal
      requires MinutesSince(when) <= LONGEST_DECAY
    {
      var baseRate := if redeemedFraction != 0 then Div(redeemedFraction, beta) + BaseRate(when) else BaseRate(when);
      Min(MINIMUM_REDEMPTION_RATE + baseRate, DIGITS)
    }
  }

  // The decayed rate never exceeds the undecayed one, and equals it until the
  // first minute has passed.
  lemma BaseRateNeverGrows(f: Fees, when: int)
    requires f.Valid() && f.MinutesSince(when) <= LONGEST_DECAY
    ensures f.BaseRate(when) <= f.baseRateWithoutDecay
    ensures when < f.lastFeeOperation + 60_000 ==> f.BaseRate(when) == f.baseRateWithoutDecay
  {
    var p := PowOf(f.minuteDecayFactor, f.MinutesSince(when));
    PowBelow(f.minuteDecayFactor, f.MinutesSince(when));
    MulMonotone(p, DIGITS, f.baseRateWithoutDecay);
    FloorMonotone(p * f.baseRateWithoutDecay, DIGITS * f.baseRateWithoutDecay, DIGITS);
    FloorUnique(DIGITS * f.baseRateWithoutDecay, DIGITS, f.baseRateWithoutDecay);
  }

  // After n minutes the rate is within (n + 1)/2 units of exact exponential decay.
  lemma BaseRateAccuracy(f: Fees, when: int)
    requires f.Valid() && f.MinutesSince(when) <= LONGEST_DECAY && f.baseRateWithoutDecay <= DIGITS
    ensures var n := f.MinutesSince(when);
            2 * Abs(f.BaseRate(when) * Power(DIGITS, n) - Power(f.minuteDecayFactor, n) * f.baseRateWithoutDecay)
              <= (n + 1) * Power(DIGITS, n)
  {
    var n, b := f.MinutesSince(when), f.baseRateWithoutDecay;
    if n == 0 {
      BaseRateNeverGrows(f, when);
    } else {
      PowAccuracy(f.minuteDecayFactor, n);
      FloorBounds(PowOf(f.minuteDecayFactor, n) * b, DIGITS);
      DecayStep(PowOf(f.minuteDecayFactor, n), b, f.BaseRate(when), DIGITS, Power(DIGITS, n - 1),
                Power(f.minuteDecayFactor, n), n - 1);
    }
  }

  // q is p * b / d rounded down, and p is within e/2 units of v / t.
  lemma DecayStep(p: nat, b: nat, q: nat, d: nat, t: nat, v: nat, e: nat)
    requires b <= d
    requires q * d <= p * b < q * d + d
    requires 2 * Abs(p * t - v) <= e * t
    ensures 2 * Abs(q * (d * t) - v * b) <= (e + 2) * (d * t)
  {
    var left, right := p * t - v, q * d - p * b;
    var a := q * (d * t) - v * b;
    calc {
      2 * Abs(a);
    <= {
         assert a == left * b + right * t by { DecaySplit(p, b, q, d, t, v); }
         DecayLeft(left, b, d, t, e);
         Algebra.ScaleBound(right, 2 * d, t);
         Algebra.Triangle(a, left * b, right * t, e * (d * t), 2 * d * t);
       }
      e * (d * t) + 2 * d * t;
    ==
      (e + 2) * (d * t);
    }
  }

  lemma DecaySplit(p: nat, b: nat, q: nat, d: nat, t: nat, v: nat)
    ensures q * (d * t) - v * b == (p * t - v) * b + (q * d - p * b) * t
  {
    assert (p * t - v) * b == p * t * b - v * b;
    assert (q * d - p * b) * t == q * d * t - p * b * t;
    assert p * t * b == p * b * t;
  }

  lemma DecayLeft(a: int, b: nat, d: nat, t: nat, e: nat)
    requires b <= d
    requires 2 * Abs(a) <= e * t
    ensures 2 * Abs(a * b) <= e * (d * t)
  {
    Algebra.ScaleBound(a, e * t, b);
    MulMonotone(b, d, e * t);
    assert e * t * d == e * (d * t);
  }

  lemma RateMonotone(f: Fees, f': Fees, when: int)
    requires f' == f.(baseRateWithoutDecay := f'.baseRateWithoutDecay, minuteDecayFactor := f'.minuteDecayFactor)
    requires f.baseRateWithoutDecay <= f'.baseRateWithoutDecay && f.minuteDecayFactor <= f'.minuteDecayFactor
    requires f.MinutesSince(when) <= LONGEST_DECAY
    ensures f.BaseRate(when) <= f'.BaseRate(when)
    ensures f.BorrowingRate(when) <= f'.BorrowingRate(when)
  {
    var n := f.MinutesSince(when);
    var p, p' := PowOf(f.minuteDecayFactor, n), PowOf(f'.minuteDecayFactor, n);
    PowMonotone(f.minuteDecayFactor, f'.minuteDecayFactor, n);
    MulMonotone(p, p', f.baseRateWithoutDecay);
    MulMonotone(f.baseRateWithoutDecay, f'.baseRateWithoutDecay, p');
    FloorMonotone(p * f.baseRateWithoutDecay, p' * f'.baseRateWithoutDecay, DIGITS);
  }

  // Borrowing is free in recovery mode, and otherwise costs between 0.5% and 5%,
  // never more than 0.5% above the undecayed base rate.
  lemma BorrowingRateBounds(f: Fees, when: int)
    requires f.Valid() && f.MinutesSince(when) <= LONGEST_DECAY
    ensures f.recoveryMode ==> f.BorrowingRate(when) == 0
    ensures !f.recoveryMode ==>
              MINIMUM_BORROWING_RATE <= f.BorrowingRate(when) <= MAXIMUM_BORROWING_RATE
    ensures f.BorrowingRate(when) <= MINIMUM_BORROWING_RATE + f.baseRateWithoutDecay
  {
    BaseRateNeverGrows(f, when);
  }

  // Redemption costs between 0.5% and 100%, the more the larger the redeemed part.
  lemma RedemptionRateBounds(f: Fees, fraction: Decimal, fraction': Decimal, when: int)
    requires fraction <= fraction' && f.MinutesSince(when) <= LONGEST_DECAY
    ensures MINIMUM_REDEMPTION_RATE <= f.RedemptionRate(fraction, when) <= DIGITS
    ensures f.RedemptionRate(fraction, when) <= f.RedemptionRate(fraction', when)
  {
    if f.beta != 0 {
      FloorMonotone(fraction * DIGITS, fraction' * DIGITS, f.beta);
    }
  }

  // Whole minutes, none before the last fee operation.
  lemma MinutesAreWhole(f: Fees, when: int)
    ensures when <= f.lastFeeOperation ==> f.MinutesSince(when) == 0
    ensures when >= f.lastFeeOperation ==>
              var n := f.MinutesSince(when);
              60_000 * n <= when - f.lastFeeOperation < 60_000 * (n + 1)
  {
    FloorBounds(Max(when - f.lastFeeOperation, 0), 60_000);
  }

  // Outside recovery mode the borrowing rate is 0.5% above the base rate, up to 5%.
  lemma BorrowingRateExactly(f: Fees, when: int)
    requires f.MinutesSince(when) <= LONGEST_DECAY
    ensures var r, base := f.BorrowingRate(when), f.BaseRate(when);
            if f.recoveryMode then r == 0
            else if base <= 45_000_000_000_000_000 then r == 5_000_000_000_000_000 + base
            else r == 50_000_000_000_000_000
  {
  }

  // The redemption rate is 0.5% above the base rate and the redeemed fraction divided by
  // beta, rounded down, up to 100%, which a zero beta gives at once.
  lemma RedemptionRateExactly(f: Fees, fraction: Decimal, when: int)
    requires f.MinutesSince(when) <= LONGEST_DECAY
    ensures var r, fixed := f.RedemptionRate(fraction, when), 5_000_000_000_000_000 + f.BaseRate(when);
            && (fraction == 0 ==> r == if fixed < DIGITS then fixed else DIGITS)
            && (fraction > 0 && f.beta == 0 ==> r == DIGITS)
            && (fraction > 0 && f.beta > 0 ==>
                  if (DIGITS - fixed) * f.beta <= fraction * DIGITS then r == DIGITS
                  else
                    var q := r - fixed;
                    0 <= q && r < DIGITS && q * f.beta <= fraction * DIGITS < (q + 1) * f.beta)
  {
    if fraction > 0 && f.beta > 0 {
      var q := fraction * DIGITS / f.beta;
      FloorBounds(fraction * DIGITS, f.beta);
      FloorAdjoint(fraction * DIGITS, f.beta, DIGITS - MINIMUM_REDEMPTION_RATE - f.BaseRate(when));
      assert (q + 1) * f.beta == q * f.beta + f.beta;
    }
  }
}
