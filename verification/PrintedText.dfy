// What printed decimals look like: without a precision, the shortest text that reads back;
// with one, exactly so many digits after the point.
module PrintedText {
  import opened Wrappers
  import opened Arithmetic
  import opened Decimals
  import opened DecimalText

  // A whole number without a zero in front, unless it is zero.
  predicate IsWhole(s: string) {
    s != "" && AllDigits(s) && (s[0] == '0' ==> s == "0")
  }

  lemma {:induction false} DigitsAreWhole(n: nat)
    ensures IsWhole(Digits(n))
    ensures Digits(n)[0] == '0' <==> n == 0
  {
    if n < 10 {
    } else {
      DigitsAreWhole(n / 10);
      assert Digits(n)[0] == Digits(n / 10)[0];
    }
  }

  // A number's digits are no more than in any other text of it.
  lemma {:induction false} DigitsAreFewest(s: string)
    requires s != "" && AllDigits(s)
    ensures |Digits(Value(s))| <= |s|
  {
    ValueBelow(s);
    DigitsLength(Value(s), |s|);
  }

  lemma {:induction false} TrimmedZero(s: string)
    ensures TrimZeros(s + "0") == TrimZeros(s)
  {
    assert (s + "0")[..|s|] == s;
  }

  lemma {:induction false} TrimmedZeros(s: string, k: nat)
    ensures TrimZeros(s + Zeros(k)) == TrimZeros(s)
  {
    if k == 0 {
      assert s + "" == s;
    } else {
      TrimmedZeros(s, k - 1);
      TrimmedZero(s + Zeros(k - 1));
      assert s + (Zeros(k - 1) + "0") == s + Zeros(k - 1) + "0";
    }
  }

  // Texts of the same length and value are the same.
  lemma {:induction false} SameDigits(a: string, b: string)
    requires AllDigits(a) && AllDigits(b) && |a| == |b| && Value(a) == Value(b)
    ensures a == b
  {
    if a == "" {
    } else {
      var n := |a| - 1;
      SameDigits(a[..n], b[..n]);
      assert a == a[..n] + [a[n]] && b == b[..n] + [b[n]];
    }
  }

  // Cut to 18 digits and trimmed, the digits after the point are no more than they were.
  lemma {:induction false} TrimmedFit(m: string)
    requires AllDigits(m)
    ensures |TrimZeros(Fit(m))| <= |m|
  {
    if |m| < PRECISION {
      TrimmedZeros(m, PRECISION - |m|);
    }
  }

  // No point, or up to 18 digits after it, the last of which is not zero.
  ghost predicate IsTrimmed(text: string, d: Decimal, whole: string, m: string) {
    && IsWhole(whole) && AllDigits(m) && |m| <= PRECISION
    && (m == "" <==> d % DIGITS == 0)
    && (m == "" ==> text == whole)
    && (m != "" ==> text == whole + ("." + m) && m[|m| - 1] != '0')
  }

  lemma {:induction false} PrintedShape(d: Decimal) returns (whole: string, m: string)
    requires d != INFINITY
    ensures ToString(d, None).Ok? && IsTrimmed(ToString(d, None).value, d, whole, m)
  {
    whole, m := Digits(d / DIGITS), "";
    DigitsAreWhole(d / DIGITS);
    if d % DIGITS != 0 {
      m := TrimZeros(Mantissa(d));
      MantissaValue(d);
      TrimmedValue(Mantissa(d));
    }
  }

  // No zeros in front but one before the point, none at the end, and no point without digits.
  lemma {:induction false} PrintIsTrimmed(d: Decimal)
    requires d != INFINITY
    ensures ToString(d, None).Ok?
    ensures exists whole, m :: IsTrimmed(ToString(d, None).value, d, whole, m)
  {
    var whole, m := PrintedShape(d);
  }

  // Of all texts without an exponent that have a digit in front and read back, the printed
  // one is the shortest.
  lemma {:induction false} PrintIsShortest(d: Decimal, n: Numeral)
    requires d != INFINITY && n.Valid() && n.whole != "" && n.exponent.None?
    requires Parse(n.Text()) == Ok(d)
    ensures ToString(d, None).Ok? && |ToString(d, None).value| <= |n.Text()|
  {
    assert n.Text() == n.Coefficient();
    if n.fraction.None? {
      assert n.Text() == n.whole;
      WholeValue(n.whole, Value(n.whole) * DIGITS);
      QuotientAndRest(d, DIGITS, Value(n.whole), 0);
      DigitsAreFewest(n.whole);
    } else {
      assert n.Text() == n.whole + ("." + n.fraction.value);
      ShorterThanPoint(d, n.whole, n.fraction.value);
    }
  }

  lemma {:induction false} ShorterThanPoint(d: Decimal, whole: string, m: string)
    requires AllDigits(whole) && whole != "" && AllDigits(m)
    requires Parse(whole + ("." + m)) == Ok(d)
    ensures |ToStringWithAutomaticPrecision(d)| <= |whole + ("." + m)|
  {
    var fraction := Fit(m);
    PlainParse(whole, m, Value(whole) * DIGITS + Value(fraction));
    OneIsPower();
    ValueBelow(fraction);
    QuotientAndRest(d, DIGITS, Value(whole), Value(fraction));
    DigitsAreFewest(whole);
    MantissaValue(d);
    SameDigits(Mantissa(d), fraction);
    TrimmedFit(m);
  }

  // So many digits after the point, or no point for none of them.
  ghost predicate HasPlaces(text: string, places: nat, whole: string, m: string) {
    && IsWhole(whole) && AllDigits(m) && |m| == places
    && text == if places == 0 then whole else whole + ("." + m)
  }

  // With a precision, exactly so many digits follow the point, up to 18. A negative
  // precision is an error, except for infinity.
  lemma {:induction false} PlacesAreAsAsked(d: Decimal, precision: int)
    ensures var text, places := ToString(d, Some(precision)), if precision < PRECISION then precision else PRECISION;
            && (text.Err? <==> d != INFINITY && precision < 0)
            && (d == INFINITY ==> text == Ok("∞"))
            && (d != INFINITY && precision >= 0 ==> exists whole, m :: HasPlaces(text.value, places, whole, m))
  {
    if d != INFINITY && precision >= 0 {
      var v := if precision < PRECISION then RoundUp(d, precision) else d;
      TextHasPlaces(v, precision);
    }
  }

  lemma {:induction false} TextHasPlaces(v: Decimal, precision: nat)
    ensures var places := if precision < PRECISION then precision else PRECISION;
            exists whole, m :: HasPlaces(TextWith(v, precision), places, whole, m)
  {
    var whole, m := Digits(v / DIGITS), if precision == 0 then "" else Prefix(Mantissa(v), precision);
    DigitsAreWhole(v / DIGITS);
    MantissaValue(v);
    if 0 < precision < PRECISION {
      DigitsSplit(Mantissa(v), precision);
    }
    assert HasPlaces(TextWith(v, precision), if precision < PRECISION then precision else PRECISION, whole, m);
  }
}
