// Decimals as text: the parser and the two printers of `Decimal`. Dafny's own induction
// over strings is switched off throughout; every proof by induction is spelled out.
module DecimalText {
  import opened Wrappers
  import opened Arithmetic
  import opened Decimals

  const PRECISION: nat := 18

  const INFINITY_SIGN: string := "∞"

  // ---------- Digits ----------

  predicate IsDigit(c: char) { '0' <= c <= '9' }

  predicate AllDigits(s: string) {
    s == "" || (IsDigit(s[|s| - 1]) && AllDigits(s[..|s| - 1]))
  }

  // The number that a string of digits denotes.
  function Value(s: string): nat
    requires AllDigits(s)
  {
    if s == "" then 0 else Value(s[..|s| - 1]) * 10 + (s[|s| - 1] - '0') as nat
  }

  function DigitOf(n: nat): char
    requires n < 10
  {
    '0' + n as char
  }

  function Digits(n: nat): (s: string)
    ensures AllDigits(s) && s != ""
  {
    if n < 10 then
      [DigitOf(n)]
    else
      var s := Digits(n / 10) + [DigitOf(n % 10)];
      assert s[..|s| - 1] == Digits(n / 10);
      s
  }

  function Zeros(n: nat): (s: string)
    ensures |s| == n && AllDigits(s)
  {
    if n == 0 then "" else Zeros(n - 1) + "0"
  }

  lemma {:induction false} DigitAt(s: string, i: nat)
    requires AllDigits(s) && i < |s|
    ensures IsDigit(s[i])
  {
    if i == |s| - 1 {
    } else {
      DigitAt(s[..|s| - 1], i);
    }
  }

  lemma {:induction false} NoDigit(s: string, c: char)
    requires AllDigits(s) && !IsDigit(c)
    ensures !Includes(s, c)
  {
    if s == "" {
    } else {
      var init, last := s[..|s| - 1], [s[|s| - 1]];
      NoDigit(init, c);
      IndexInConcat(init, last, c);
      assert init + last == s;
    }
  }

  lemma {:induction false} DigitsConcat(a: string, b: string)
    ensures AllDigits(a + b) <==> AllDigits(a) && AllDigits(b)
  {
    if b == "" {
      assert a + b == a;
    } else {
      DigitsConcat(a, b[..|b| - 1]);
      assert (a + b)[..|a + b| - 1] == a + b[..|b| - 1];
    }
  }

  lemma {:induction false} DigitsSplit(s: string, k: nat)
    requires AllDigits(s) && k <= |s|
    ensures AllDigits(s[..k]) && AllDigits(s[k..])
  {
    assert s == s[..k] + s[k..];
    DigitsConcat(s[..k], s[k..]);
  }

  function PadStart(s: string, width: nat): string {
    if |s| < width then Zeros(width - |s|) + s else s
  }

  function TrimZeros(s: string): (t: string)
    ensures t <= s
  {
    if s != "" && s[|s| - 1] == '0' then TrimZeros(s[..|s| - 1]) else s
  }

  lemma {:induction false} ValueOfDigits(n: nat)
    ensures Value(Digits(n)) == n
  {
    if n < 10 {
      assert Digits(n)[..0] == "";
    } else {
      ValueOfDigits(n / 10);
      assert Digits(n)[..|Digits(n)| - 1] == Digits(n / 10);
    }
  }

  lemma {:induction false} ValueConcat(a: string, b: string)
    requires AllDigits(a) && AllDigits(b)
    ensures AllDigits(a + b)
    ensures Value(a + b) == Value(a) * Power(10, |b|) + Value(b)
  {
    DigitsConcat(a, b);
    if b == "" {
      assert a + b == a;
    } else {
      var c := b[..|b| - 1];
      ValueConcat(a, c);
      assert (a + b)[..|a + b| - 1] == a + c;
      assert Power(10, |b|) == 10 * Power(10, |c|);
      MulAssoc(Value(a), Power(10, |c|), 10);
    }
  }

  lemma {:induction false} ValueOfZeros(n: nat)
    ensures Value(Zeros(n)) == 0
  {
    if n == 0 {
    } else {
      ValueOfZeros(n - 1);
      assert Zeros(n)[..n - 1] == Zeros(n - 1);
    }
  }

  lemma {:induction false} ValueBelow(s: string)
    requires AllDigits(s)
    ensures Value(s) < Power(10, |s|)
  {
    if s == "" {
    } else {
      ValueBelow(s[..|s| - 1]);
    }
  }

  // A number below 10^k has at most k digits.
  lemma {:induction false} DigitsLength(n: nat, k: nat)
    requires k > 0 && n < Power(10, k)
    ensures |Digits(n)| <= k
  {
    if n < 10 {
    } else {
      assert Power(10, 1) == 10;
      assert Power(10, k) == 10 * Power(10, k - 1);
      DigitsLength(n / 10, k - 1);
    }
  }

  lemma {:induction false} PrefixedZeros(k: nat, s: string)
    requires AllDigits(s)
    ensures AllDigits(Zeros(k) + s) && Value(Zeros(k) + s) == Value(s)
  {
    ValueOfZeros(k);
    ValueConcat(Zeros(k), s);
  }

  lemma {:induction false} PaddedValue(n: nat, k: nat)
    requires k > 0 && n < Power(10, k)
    ensures var s := PadStart(Digits(n), k); |s| == k && AllDigits(s) && Value(s) == n
  {
    DigitsLength(n, k);
    ValueOfDigits(n);
    PrefixedZeros(k - |Digits(n)|, Digits(n));
  }

  lemma {:induction false} TrimmedValue(s: string)
    requires AllDigits(s)
    ensures var t := TrimZeros(s);
            && AllDigits(t) && |t| <= |s| && Value(s) == Value(t) * Power(10, |s| - |t|)
            && (t != "" ==> t[|t| - 1] != '0')
  {
    var t := TrimZeros(s);
    if s == "" || s[|s| - 1] != '0' {
    } else {
      var init := s[..|s| - 1];
      TrimmedValue(init);
      assert Power(10, |s| - |t|) == 10 * Power(10, |init| - |t|);
      MulAssoc(Value(t), Power(10, |init| - |t|), 10);
    }
  }

  lemma {:induction false} OneIsPower()
    ensures DIGITS == Power(10, PRECISION)
  {
    assert Power(10, 1) == 10;
    PowerSum(10, 1, 1);
    PowerSum(10, 2, 2);
    PowerSum(10, 4, 4);
    PowerSum(10, 8, 8);
    PowerSum(10, 16, 2);
  }

  // ---------- Parsing ----------

  // The first place of a character, or the length.
  function IndexOf(s: string, c: char): (i: nat)
    ensures i <= |s|
    ensures i < |s| ==> s[i] == c
  {
    if s == "" || s[0] == c then 0 else 1 + IndexOf(s[1..], c)
  }

  predicate Includes(s: string, c: char) { IndexOf(s, c) < |s| }

  // The parts before and after a separator.
  function Split(s: string, c: char): (string, string)
    requires Includes(s, c)
  {
    (s[..IndexOf(s, c)], s[IndexOf(s, c) + 1..])
  }

  function Unsigned(exponent: string): string {
    if exponent != "" && (exponent[0] == '+' || exponent[0] == '-') then exponent[1..] else exponent
  }

  // Digits with at most one point, then perhaps an exponent with at least one digit.
  predicate PlainFormat(s: string) {
    if Includes(s, '.') then AllDigits(Split(s, '.').0) && AllDigits(Split(s, '.').1) else AllDigits(s)
  }

  predicate ExponentFormat(exponent: string) {
    Unsigned(exponent) != "" && AllDigits(Unsigned(exponent))
  }

  predicate Format(s: string) {
    if Includes(s, 'e') then PlainFormat(Split(s, 'e').0) && ExponentFormat(Split(s, 'e').1) else PlainFormat(s)
  }

  lemma {:induction false} FitDigits(mantissa: string)
    requires AllDigits(mantissa)
    ensures |mantissa| < PRECISION ==> AllDigits(mantissa + Zeros(PRECISION - |mantissa|))
    ensures |mantissa| >= PRECISION ==> AllDigits(mantissa[..PRECISION])
  {
    if |mantissa| < PRECISION {
      DigitsConcat(mantissa, Zeros(PRECISION - |mantissa|));
    } else {
      DigitsSplit(mantissa, PRECISION);
    }
  }

  // Exactly 18 digits: zeros are added, or further digits cut off.
  function Fit(mantissa: string): (s: string)
    ensures |s| == PRECISION
    ensures AllDigits(mantissa) ==> AllDigits(s)
  {
    if AllDigits(mantissa) then FitDigits(mantissa); FitTo18(mantissa) else FitTo18(mantissa)
  }

  function FitTo18(mantissa: string): (s: string)
    ensures |s| == PRECISION
  {
    if |mantissa| < PRECISION then mantissa + Zeros(PRECISION - |mantissa|) else mantissa[..PRECISION]
  }

  function Scaled(d: Decimal, exponent: string): Decimal
    requires ExponentFormat(exponent)
  {
    var places := Value(Unsigned(exponent));
    if exponent[0] == '-' then ShiftRight(d, places) else ShiftLeft(d, places)
  }

  // Moving a decimal number by some places, cutting off what falls out.
  function ShiftRight(v: nat, places: nat): nat { v / Power(10, places) }

  function ShiftLeft(v: nat, places: nat): nat { v * Power(10, places) }

  function ParsePlain(s: string): Decimal
    requires PlainFormat(s)
  {
    if Includes(s, '.') then Value(Split(s, '.').0) * DIGITS + Value(Fit(Split(s, '.').1)) else Value(s) * DIGITS
  }

  // A coefficient is parsed on its own. The format holds for it already, so this can only
  // fail on an empty one.
  function Parse(s: string): Result<Decimal> {
    if s == "" || !Format(s) then
      Err("bad decimal format")
    else if Includes(s, 'e') then
      var coefficient :- ParseCoefficient(Split(s, 'e').0);
      Ok(Scaled(coefficient, Split(s, 'e').1))
    else
      ParseCoefficient(s)
  }

  function ParseCoefficient(s: string): Result<Decimal> {
    if s == "" || !PlainFormat(s) then Err("bad decimal format") else Ok(ParsePlain(s))
  }

  lemma {:induction false} CoefficientIsParsedAlone(s: string)
    requires Format(s) && Includes(s, 'e')
    ensures ParseCoefficient(Split(s, 'e').0) == Parse(Split(s, 'e').0)
  {
    FirstOnly(s, 'e');
  }

  lemma {:induction false} FirstOnly(s: string, c: char)
    requires Includes(s, c)
    ensures !Includes(Split(s, c).0, c)
  {
    if s[0] == c {
    } else {
      FirstOnly(s[1..], c);
      assert Split(s, c).0[1..] == Split(s[1..], c).0;
    }
  }

  // ---------- Printing ----------

  function Mantissa(d: Decimal): string {
    PadStart(Digits(d % DIGITS), PRECISION)
  }

  function ToStringWithAutomaticPrecision(d: Decimal): string {
    if d % DIGITS == 0 then Digits(d / DIGITS)
    else Digits(d / DIGITS) + ("." + TrimZeros(Mantissa(d)))
  }

  function RoundUp(d: Decimal, precision: nat): Decimal
    requires precision < PRECISION
  {
    d + Power(10, PRECISION - 1 - precision) * 5
  }

  function ToStringWithPrecision(d: Decimal, precision: int): Result<string> {
    if precision < 0 then Err("precision must not be negative")
    else
      var value := if precision < PRECISION then RoundUp(d, precision) else d;
      Ok(TextWith(value, precision))
  }

  function TextWith(value: Decimal, precision: nat): string {
    Joined(Digits(value / DIGITS), Mantissa(value), precision)
  }

  function Joined(characteristic: string, mantissa: string, precision: nat): string {
    if precision == 0 then characteristic else characteristic + ("." + Prefix(mantissa, precision))
  }

  // At most this many characters from the start.
  function Prefix(s: string, length: nat): string {
    if length < |s| then s[..length] else s
  }

  function ToString(d: Decimal, precision: Option<int>): Result<string> {
    if d == INFINITY then Ok(INFINITY_SIGN)
    else if precision.Some? then ToStringWithPrecision(d, precision.value)
    else Ok(ToStringWithAutomaticPrecision(d))
  }

  // ---------- The meaning of the format ----------

  datatype Sign = Unmarked | Plus | Minus

  // The parts that a text in the format consists of.
  datatype Numeral = Numeral(whole: string, fraction: Option<string>, exponent: Option<(Sign, string)>) {
    predicate Valid() {
      && AllDigits(whole)
      && (fraction.Some? ==> AllDigits(fraction.value))
      && (exponent.Some? ==> exponent.value.1 != "" && AllDigits(exponent.value.1))
    }

    function Coefficient(): string {
      whole + if fraction.Some? then "." + fraction.value else ""
    }

    function Text(): string {
      Coefficient() + if exponent.Some? then "e" + (SignText(exponent.value.0) + exponent.value.1) else ""
    }

    // All the digits of the coefficient, without the point.
    function Significand(): string { whole + fraction.GetOr("") }

    function FractionDigits(): nat { |fraction.GetOr("")| }
  }

  function SignText(s: Sign): string {
    match s
    case Unmarked => ""
    case Plus => "+"
    case Minus => "-"
  }

  lemma {:induction false} IndexInConcat(a: string, b: string, c: char)
    ensures IndexOf(a + b, c) == if Includes(a, c) then IndexOf(a, c) else |a| + IndexOf(b, c)
  {
    if a == "" {
      assert a + b == b;
    } else {
      IndexInConcat(a[1..], b, c);
      assert (a + b)[1..] == a[1..] + b;
    }
  }

  lemma {:induction false} SplitAround(a: string, c: char, b: string)
    requires !Includes(a, c)
    ensures var s := a + ([c] + b); Includes(s, c) && Split(s, c) == (a, b)
  {
    assert ([c] + b)[0] == c;
    IndexInConcat(a, [c] + b, c);
    assert (a + ([c] + b))[..|a|] == a && (a + ([c] + b))[|a| + 1..] == b;
  }

  lemma {:induction false} UnsignedOf(sign: Sign, digits: string)
    requires digits != "" && AllDigits(digits)
    ensures Unsigned(SignText(sign) + digits) == digits
    ensures (SignText(sign) + digits)[0] == '-' <==> sign == Minus
  {
    DigitAt(digits, 0);
    if sign == Unmarked {
      assert "" + digits == digits;
    }
  }

  lemma {:induction false} ParseWithoutExponent(s: string)
    requires s != "" && !Includes(s, 'e') && PlainFormat(s)
    ensures Parse(s) == Ok(ParsePlain(s))
  {
  }

  lemma {:induction false} PlainSplit(whole: string, fraction: string)
    requires AllDigits(whole) && AllDigits(fraction)
    ensures var s := whole + ("." + fraction);
            Includes(s, '.') && Split(s, '.') == (whole, fraction) && !Includes(s, 'e')
  {
    NoDigit(whole, '.');
    NoDigit(whole, 'e');
    NoDigit(fraction, 'e');
    SplitAround(whole, '.', fraction);
    IndexInConcat(".", fraction, 'e');
    IndexInConcat(whole, "." + fraction, 'e');
  }

  lemma {:induction false} SplitParse(s: string, whole: string, fraction: string, d: Decimal)
    requires AllDigits(whole) && AllDigits(fraction)
    requires Includes(s, '.') && Split(s, '.') == (whole, fraction) && !Includes(s, 'e')
    requires d == Value(whole) * DIGITS + Value(Fit(fraction))
    ensures PlainFormat(s) && Parse(s) == Ok(d)
  {
    assert ParsePlain(s) == d;
    ParseWithoutExponent(s);
  }

  lemma {:induction false} PlainParse(whole: string, fraction: string, d: Decimal)
    requires AllDigits(whole) && AllDigits(fraction)
    requires d == Value(whole) * DIGITS + Value(Fit(fraction))
    ensures var s := whole + ("." + fraction);
            !Includes(s, 'e') && PlainFormat(s) && Parse(s) == Ok(d)
  {
    PlainSplit(whole, fraction);
    SplitParse(whole + ("." + fraction), whole, fraction, d);
  }

  // A mantissa is cut off after 18 digits.
  lemma {:induction false} FitValue(m: string)
    requires AllDigits(m)
    ensures Value(Fit(m)) == ShiftRight(Value(m) * DIGITS, |m|)
  {
    OneIsPower();
    if |m| < PRECISION {
      var k := PRECISION - |m|;
      ValueConcat(m, Zeros(k));
      ValueOfZeros(k);
      PowerSum(10, k, |m|);
      MulAssoc(Value(m), Power(10, k), Power(10, |m|));
      FloorUnique(Value(m) * DIGITS, Power(10, |m|), Value(m) * Power(10, k));
    } else {
      FloorOfCut(m, PRECISION);
      PowerSum(10, |m| - PRECISION, PRECISION);
      FloorOfScaled(Value(m), Power(10, |m| - PRECISION), DIGITS);
    }
  }

  // Cutting digits off divides.
  lemma {:induction false} FloorOfCut(m: string, k: nat)
    requires AllDigits(m) && k <= |m|
    ensures AllDigits(m[..k]) && AllDigits(m[k..])
    ensures Value(m[..k]) == ShiftRight(Value(m), |m| - k)
    ensures Value(m[k..]) == Value(m) % Power(10, |m| - k)
  {
    DigitsSplit(m, k);
    assert m == m[..k] + m[k..];
    ValueConcat(m[..k], m[k..]);
    ValueBelow(m[k..]);
    QuotientAndRest(Value(m), Power(10, |m| - k), Value(m[..k]), Value(m[k..]));
  }

  lemma {:induction false} QuotientAndRest(a: nat, b: nat, q: nat, r: nat)
    requires a == q * b + r && r < b
    ensures a / b == q && a % b == r
  {
    FloorUnique(a, b, q);
  }

  lemma {:induction false} FloorOfScaled(a: nat, b: nat, c: nat)
    requires b > 0 && c > 0
    ensures b * c > 0 && a * c / (b * c) == a / b
  {
    MulAssoc(a / b, b, c);
    FloorBounds(a, b);
    MulMonotone(a / b * b, a, c);
    MulMonotone(a, a / b * b + b - 1, c);
    FloorUnique(a * c, b * c, a / b);
  }

  lemma {:induction false} WholeValue(whole: string, d: Decimal)
    requires AllDigits(whole) && whole != "" && d == Value(whole) * DIGITS
    ensures !Includes(whole, 'e') && PlainFormat(whole)
    ensures Parse(whole) == Ok(d)
  {
    NoDigit(whole, '.');
    NoDigit(whole, 'e');
    assert ParsePlain(whole) == d;
    ParseWithoutExponent(whole);
  }

  lemma {:induction false} JoinedValue(whole: string, m: string)
    requires AllDigits(whole) && AllDigits(m)
    ensures AllDigits(whole + m)
    ensures Value(whole) * DIGITS + Value(Fit(m)) == ShiftRight(Value(whole + m) * DIGITS, |m|)
  {
    FitValue(m);
    ValueConcat(whole, m);
    JoinedFloor(Value(whole), Value(m), |m|);
  }

  lemma {:induction false} PointValue(whole: string, m: string)
    requires AllDigits(whole) && AllDigits(m)
    ensures var n := Numeral(whole, Some(m), None);
            AllDigits(n.Significand())
            && Value(whole) * DIGITS + Value(Fit(m)) == ShiftRight(Value(n.Significand()) * DIGITS, n.FractionDigits())
  {
    JoinedValue(whole, m);
    assert Numeral(whole, Some(m), None).Significand() == whole + m;
  }

  lemma {:induction false} NoPointValue(whole: string)
    requires AllDigits(whole)
    ensures var n := Numeral(whole, None, None);
            AllDigits(n.Significand())
            && Value(whole) * DIGITS == ShiftRight(Value(n.Significand()) * DIGITS, n.FractionDigits())
  {
    assert Numeral(whole, None, None).Significand() == whole;
    assert Power(10, 0) == 1;
  }

  // The coefficient is exact up to one floor to 18 digits.
  lemma {:induction false} CoefficientValue(n: Numeral, d: Decimal)
    requires n.Valid() && n.Coefficient() != "" && AllDigits(n.Significand())
    requires d == ShiftRight(Value(n.Significand()) * DIGITS, n.FractionDigits())
    ensures !Includes(n.Coefficient(), 'e') && PlainFormat(n.Coefficient())
    ensures Parse(n.Coefficient()) == Ok(d)
  {
    if n.fraction.None? {
      assert n.Coefficient() == n.whole;
      NoPointValue(n.whole);
      WholeValue(n.whole, d);
    } else {
      PointValue(n.whole, n.fraction.value);
      PlainParse(n.whole, n.fraction.value, d);
      assert n.Coefficient() == n.whole + ("." + n.fraction.value);
    }
  }

  lemma {:induction false} SignificandDigits(n: Numeral)
    requires n.Valid()
    ensures AllDigits(n.Significand())
  {
    if n.fraction.None? {
      assert n.Significand() == n.whole;
    } else {
      DigitsConcat(n.whole, n.fraction.value);
    }
  }

  lemma {:induction false} JoinedFloor(w: nat, v: nat, f: nat)
    ensures w * DIGITS + ShiftRight(v * DIGITS, f) == ShiftRight((w * Power(10, f) + v) * DIGITS, f)
  {
    var p := Power(10, f);
    assert (w * p + v) * DIGITS == v * DIGITS + w * DIGITS * p by {
      MulAssoc(w, p, DIGITS);
      MulAssoc(w, DIGITS, p);
    }
    FloorShift(v * DIGITS, p, w * DIGITS);
  }

  lemma {:induction false} SplitExponent(s: string, coefficient: string, exponent: string, c: Decimal, d: Decimal)
    requires Includes(s, 'e') && Split(s, 'e') == (coefficient, exponent)
    requires PlainFormat(coefficient) && coefficient != "" && ExponentFormat(exponent)
    requires ParsePlain(coefficient) == c && Scaled(c, exponent) == d
    ensures Parse(s) == Ok(d)
  {
  }

  lemma {:induction false} ExponentParse(coefficient: string, sign: Sign, k: string, c: Decimal, d: Decimal)
    requires !Includes(coefficient, 'e') && PlainFormat(coefficient) && coefficient != ""
    requires k != "" && AllDigits(k) && Parse(coefficient) == Ok(c)
    requires ExponentFormat(SignText(sign) + k) && Scaled(c, SignText(sign) + k) == d
    ensures Parse(coefficient + ("e" + (SignText(sign) + k))) == Ok(d)
  {
    SplitAround(coefficient, 'e', SignText(sign) + k);
    SplitExponent(coefficient + ("e" + (SignText(sign) + k)), coefficient, SignText(sign) + k, c, d);
  }

  // What a text of the format denotes: the only rounding is one floor at 18 digits, which
  // a negative exponent moves to the end, and which a positive exponent comes after.
  lemma {:induction false} ParseMeaning(n: Numeral)
    requires n.Valid() && n.Coefficient() != ""
    ensures AllDigits(n.Significand())
    ensures Parse(n.Text()) == Ok(Meaning(Value(n.Significand()) * DIGITS, n.FractionDigits(), n.exponent))
  {
    SignificandDigits(n);
    var v, f := Value(n.Significand()) * DIGITS, n.FractionDigits();
    CoefficientValue(n, ShiftRight(v, f));
    if n.exponent.None? {
      assert n.Text() == n.Coefficient();
    } else {
      var (sign, k) := n.exponent.value;
      UnsignedOf(sign, k);
      ScaledMeaning(v, f, sign, k, SignText(sign) + k);
      ExponentParse(n.Coefficient(), sign, k, ShiftRight(v, f), Meaning(v, f, n.exponent));
    }
  }

  function Meaning(v: nat, f: nat, exponent: Option<(Sign, string)>): Decimal
    requires exponent.Some? ==> AllDigits(exponent.value.1)
  {
    match exponent
    case None => ShiftRight(v, f)
    case Some((sign, k)) =>
      if sign == Minus then ShiftRight(v, f + Value(k)) else ShiftLeft(ShiftRight(v, f), Value(k))
  }

  lemma {:induction false} ScaledMeaning(v: nat, f: nat, sign: Sign, k: string, exponent: string)
    requires AllDigits(k) && ExponentFormat(exponent) && Unsigned(exponent) == k
    requires exponent[0] == '-' <==> sign == Minus
    ensures Scaled(ShiftRight(v, f), exponent) == Meaning(v, f, Some((sign, k)))
  {
    PowerSum(10, f, Value(k));
    FloorFloor(v, Power(10, f), Power(10, Value(k)));
  }

  // Parsing succeeds on exactly the texts of the format with a non-empty coefficient.
  lemma {:induction false} ParseAccepts(s: string)
    ensures Parse(s).Ok? <==> exists n: Numeral :: n.Valid() && n.Coefficient() != "" && n.Text() == s
  {
    if n: Numeral :| n.Valid() && n.Coefficient() != "" && n.Text() == s {
      ParseMeaning(n);
    }
    if Parse(s).Ok? {
      var n := ReadBack(s);
    }
  }

  lemma {:induction false} ReadBack(s: string) returns (n: Numeral)
    requires Parse(s).Ok?
    ensures n.Valid() && n.Coefficient() != "" && n.Text() == s
  {
    if Includes(s, 'e') {
      Rejoined(s, 'e');
      n := Completed(Split(s, 'e').0, Split(s, 'e').1);
    } else {
      n := ReadPlain(s);
      assert s + "" == s;
    }
  }

  function Completed(coefficient: string, exponent: string): (r: Numeral)
    requires PlainFormat(coefficient) && ExponentFormat(exponent)
    ensures r.Valid() && r.Coefficient() == coefficient && r.Text() == coefficient + ("e" + exponent)
  {
    var (sign, k) := ReadExponent(exponent);
    var r := ReadPlain(coefficient).(exponent := Some((sign, k)));
    assert r.Coefficient() == coefficient;
    r
  }

  lemma {:induction false} Rejoined(s: string, c: char)
    requires Includes(s, c)
    ensures s == Split(s, c).0 + ([c] + Split(s, c).1)
  {
  }

  function ReadPlain(s: string): (n: Numeral)
    requires PlainFormat(s)
    ensures n.Valid() && n.exponent.None? && n.Coefficient() == s
  {
    if Includes(s, '.') then
      var (whole, fraction) := Split(s, '.');
      assert s == whole + ("." + fraction);
      Numeral(whole, Some(fraction), None)
    else
      assert s + "" == s;
      Numeral(s, None, None)
  }

  function ReadExponent(exponent: string): (r: (Sign, string))
    ensures r.1 == Unsigned(exponent) && SignText(r.0) + r.1 == exponent
  {
    if exponent != "" && exponent[0] == '+' then (Plus, exponent[1..])
    else if exponent != "" && exponent[0] == '-' then (Minus, exponent[1..])
    else (Unmarked, exponent)
  }

  // A positive exponent is applied after the digits beyond the 18th are lost. The result
  // is the exact one, floored, if and only if the digits that the exponent would have
  // moved to the first 18 places are zeros.
  lemma {:induction false} PositiveExponentIsExactIff(whole: string, m: string, sign: Sign, k: string)
    requires AllDigits(whole) && AllDigits(m) && AllDigits(k) && k != "" && sign != Minus
    ensures AllDigits(whole + m)
    ensures Parse(Numeral(whole, Some(m), Some((sign, k))).Text()) == Ok(Exactly(whole + m, Value(k), |m|))
            <==> ZerosBetween(m, PRECISION, PRECISION + Value(k))
  {
    ExactIffZeros(whole, m, Value(k));
    ParsedBeforeExponent(whole, m, sign, k);
    SameResult(Parse(Numeral(whole, Some(m), Some((sign, k))).Text()), AsParsed(whole + m, Value(k), |m|),
               Exactly(whole + m, Value(k), |m|), ZerosBetween(m, PRECISION, PRECISION + Value(k)));
  }

  // The digits with an exponent and so many places after the point, cut off only at the end.
  function Exactly(digits: string, exponent: nat, places: nat): Decimal
    requires AllDigits(digits)
  {
    ShiftRight(ShiftLeft(Value(digits) * DIGITS, exponent), places)
  }

  // The same, cut off to 18 places before the exponent is applied.
  function AsParsed(digits: string, exponent: nat, places: nat): Decimal
    requires AllDigits(digits)
  {
    ShiftLeft(ShiftRight(Value(digits) * DIGITS, places), exponent)
  }

  lemma {:induction false} ParsedBeforeExponent(whole: string, m: string, sign: Sign, k: string)
    requires AllDigits(whole) && AllDigits(m) && AllDigits(k) && k != "" && sign != Minus && AllDigits(whole + m)
    ensures Parse(Numeral(whole, Some(m), Some((sign, k))).Text()) == Ok(AsParsed(whole + m, Value(k), |m|))
  {
    PointMeaning(whole, m, sign, k, AsParsed(whole + m, Value(k), |m|));
  }

  // A digit in the 19th place is lost, although the exponent would have moved it to the 18th.
  lemma {:induction false} ExponentLosesDigits()
    ensures Parse("0.0000000000000000001e1") == Ok(0)
    ensures AllDigits("00000000000000000001") && Exactly("00000000000000000001", 1, 19) == 1
  {
    SmallestLostDigit();
    LostDigitText();
    PointMeaning("0", "0000000000000000001", Unmarked, "1", 0);
  }

  lemma {:induction false} LostDigitText()
    ensures Numeral("0", Some("0000000000000000001"), Some((Unmarked, "1"))).Text() == "0.0000000000000000001e1"
    ensures "0" + "0000000000000000001" == "00000000000000000001"
  {
  }

  lemma {:induction false} SmallestLostDigit()
    ensures AllDigits("0") && AllDigits("1") && Value("1") == 1
    ensures AllDigits("0000000000000000001") && AllDigits("00000000000000000001")
    ensures AsParsed("00000000000000000001", 1, 19) == 0
    ensures Exactly("00000000000000000001", 1, 19) == 1
  {
    OneDigit();
    PrefixedZeros(18, "1");
    PrefixedZeros(19, "1");
    NineteenZeros();
    assert Zeros(18) + "1" == "0000000000000000001";
    assert Zeros(19) + "1" == "00000000000000000001";
    ShiftedOne();
  }

  lemma {:induction false} OneDigit()
    ensures AllDigits("0") && AllDigits("1") && Value("1") == 1
  {
    assert "0"[..0] == "" && "1"[..0] == "";
  }

  lemma {:induction false} NineteenZeros()
    ensures Zeros(18) == "000000000000000000" && Zeros(19) == "0000000000000000000"
  {
    TwelveZeros();
    SixMoreZeros(12);
    assert Zeros(19) == Zeros(18) + "0";
  }

  lemma {:induction false} TwelveZeros()
    ensures Zeros(12) == "000000000000"
  {
    SixMoreZeros(0);
    assert Zeros(6) == "000000";
    SixMoreZeros(6);
  }

  lemma {:induction false} SixMoreZeros(n: nat)
    ensures Zeros(n + 6) == Zeros(n) + "000000"
  {
    ThreeMoreZeros(n);
    ThreeMoreZeros(n + 3);
  }

  lemma {:induction false} ThreeMoreZeros(n: nat)
    ensures Zeros(n + 3) == Zeros(n) + "000"
  {
    assert Zeros(n + 1) == Zeros(n) + "0";
    assert Zeros(n + 2) == Zeros(n + 1) + "0";
    assert Zeros(n + 3) == Zeros(n + 2) + "0";
  }

  lemma {:induction false} ShiftedOne()
    ensures ShiftLeft(ShiftRight(DIGITS, 19), 1) == 0 && ShiftRight(ShiftLeft(DIGITS, 1), 19) == 1
  {
    OneIsPower();
    assert Power(10, 19) == 10 * DIGITS;
    assert Power(10, 1) == 10;
  }

  lemma {:induction false} SameResult(r: Result<Decimal>, d: Decimal, exact: Decimal, same: bool)
    requires r == Ok(d) && (d == exact <==> same)
    ensures r == Ok(exact) <==> same
  {
  }

  lemma {:induction false} PointMeaning(whole: string, m: string, sign: Sign, k: string, d: Decimal)
    requires AllDigits(whole) && AllDigits(m) && AllDigits(k) && k != "" && sign != Minus && AllDigits(whole + m)
    requires d == AsParsed(whole + m, Value(k), |m|)
    ensures Parse(Numeral(whole, Some(m), Some((sign, k))).Text()) == Ok(d)
  {
    var n := Numeral(whole, Some(m), Some((sign, k)));
    assert n.Coefficient()[|whole|] == '.';
    assert n.Significand() == whole + m;
    ParseMeaning(n);
  }

  predicate ZerosBetween(s: string, from: nat, to: nat) {
    forall i :: from <= i < |s| && i < to ==> s[i] == '0'
  }

  lemma {:induction false} ExactIffZeros(whole: string, m: string, e: nat)
    requires AllDigits(whole) && AllDigits(m)
    ensures AllDigits(whole + m)
    ensures AsParsed(whole + m, e, |m|) == Exactly(whole + m, e, |m|) <==> ZerosBetween(m, PRECISION, PRECISION + e)
  {
    DigitsConcat(whole, m);
    var v := Value(whole + m) * DIGITS;
    ScaledFloor(v, Power(10, |m|), Power(10, e));
    if |m| <= PRECISION {
      Power18Divides(Value(whole + m), |m|);
    } else {
      var cut := m[PRECISION..];
      LostDigits(whole, m);
      OneIsPower();
      PowerSum(10, |cut|, PRECISION);
      CommonFactor(Value(cut), Power(10, e), Power(10, |cut|), DIGITS);
      LeadingZeros(cut, e);
      ZerosBeyond(m, PRECISION, e);
    }
  }

  lemma {:induction false} ZerosBeyond(m: string, k: nat, e: nat)
    requires k <= |m|
    ensures ZerosBetween(m[k..], 0, e) <==> ZerosBetween(m, k, k + e)
  {
    if ZerosBetween(m[k..], 0, e) {
      forall i | k <= i < |m| && i < k + e ensures m[i] == '0' { assert m[i] == m[k..][i - k]; }
    }
  }

  lemma {:induction false} CommonFactor(a: nat, q: nat, r: nat, d: nat)
    requires d > 0
    ensures a * d * q < r * d <==> a * q < r
  {
    assert a * d * q == a * q * d;
    if a * q < r {
      MulMonotone(a * q + 1, r, d);
    } else {
      MulMonotone(r, a * q, d);
    }
  }

  // Flooring before scaling loses nothing when the scaled remainder is below the divisor.
  lemma {:induction false} ScaledFloor(v: nat, p: nat, q: nat)
    requires p > 0 && q > 0
    ensures v / p * q == v * q / p <==> v % p * q < p
  {
    FloorBounds(v, p);
    SplitProduct(v, v / p, v % p, p, q);
    ScaledQuotient(v * q, v / p * q, v % p * q, p);
  }

  lemma {:induction false} SplitProduct(v: nat, w: nat, r: nat, p: nat, q: nat)
    requires v == w * p + r
    ensures v * q == w * q * p + r * q
  {
    MulAssoc(w, p, q);
    MulAssoc(w, q, p);
  }

  lemma {:induction false} ScaledQuotient(v: nat, w: nat, r: nat, p: nat)
    requires p > 0 && v == w * p + r
    ensures v / p == w <==> r < p
  {
    FloorBounds(v, p);
    if r < p {
      FloorUnique(v, p, w);
    }
  }

  lemma {:induction false} Power18Divides(v: nat, f: nat)
    requires f <= PRECISION
    ensures v * DIGITS % Power(10, f) == 0
  {
    OneIsPower();
    PowerSum(10, PRECISION - f, f);
    var g, p := Power(10, PRECISION - f), Power(10, f);
    MulAssoc(v, g, p);
    QuotientAndRest(v * DIGITS, p, v * g, 0);
  }

  // The remainder of the floor is what the digits beyond the 18th denote.
  lemma {:induction false} LostDigits(whole: string, m: string)
    requires AllDigits(whole) && AllDigits(m) && |m| > PRECISION
    ensures AllDigits(whole + m) && AllDigits(m[PRECISION..])
    ensures Value(whole + m) * DIGITS % Power(10, |m|) == Value(m[PRECISION..]) * DIGITS
  {
    var cut, kept := m[PRECISION..], whole + m[..PRECISION];
    DigitsSplit(m, PRECISION);
    DigitsConcat(whole, m[..PRECISION]);
    assert whole + m == kept + cut;
    ValueConcat(kept, cut);
    ValueBelow(cut);
    OneIsPower();
    PowerSum(10, |cut|, PRECISION);
    ScaledRest(Value(kept), Value(cut), Power(10, |cut|), DIGITS);
  }

  lemma {:induction false} ScaledRest(a: nat, b: nat, r: nat, d: nat)
    requires b < r && d > 0
    ensures r * d > 0 && (a * r + b) * d % (r * d) == b * d
  {
    MulMonotone(b + 1, r, d);
    MulAssoc(a, r, d);
    QuotientAndRest((a * r + b) * d, r * d, a, b * d);
  }

  // The first e digits are zeros exactly when e further places leave the number short.
  lemma {:induction false} LeadingZeros(s: string, e: nat)
    requires AllDigits(s)
    ensures Value(s) * Power(10, e) < Power(10, |s|) <==> ZerosBetween(s, 0, e)
  {
    var k := if e < |s| then e else |s|;
    FloorOfCut(s, k);
    ZeroValue(s[..k]);
    HeadZeros(s, k, e);
    FloorAdjoint(Value(s), Power(10, |s| - k), 1);
    PowerSum(10, |s| - k, k);
    PowerSum(10, k, e - k);
    ValueBelow(s);
    ShortIff(Value(s), Power(10, |s| - k), Power(10, k), Power(10, e - k), k == |s|);
  }

  lemma {:induction false} HeadZeros(s: string, k: nat, e: nat)
    requires k <= |s| && k == if e < |s| then e else |s|
    ensures ZerosBetween(s, 0, e) <==> ZerosBetween(s[..k], 0, k)
  {
    if ZerosBetween(s[..k], 0, k) {
      forall i | 0 <= i < |s| && i < e ensures s[i] == '0' { assert s[i] == s[..k][i]; }
    }
  }

  lemma {:induction false} ShortIff(v: nat, p: nat, q: nat, x: nat, all: bool)
    requires p > 0 && q > 0 && x > 0
    requires if all then p == 1 else x == 1
    ensures v * (q * x) < p * q <==> v < p
  {
    if v >= p {
      MulMonotone(p, v, q);
      MulMonotone(1, x, v * q);
      MulAssoc(v, q, x);
    } else if !all {
      MulMonotone(v + 1, p, q);
    }
  }

  lemma {:induction false} ZeroValue(s: string)
    requires AllDigits(s)
    ensures Value(s) == 0 <==> ZerosBetween(s, 0, |s|)
  {
    if s == "" {
    } else {
      var init := s[..|s| - 1];
      ZeroValue(init);
      assert forall i :: 0 <= i < |init| ==> init[i] == s[i];
      assert ZerosBetween(s, 0, |s|) <==> ZerosBetween(init, 0, |init|) && s[|init|] == '0';
    }
  }

  // ---------- Round trips ----------

  // Parsing undoes printing, for every finite decimal and for no other.
  lemma {:induction false} ParsePrint(d: Decimal)
    ensures ToString(d, None).Ok?
    ensures Parse(ToString(d, None).value) == if d == INFINITY then Err("bad decimal format") else Ok(d)
  {
    if d == INFINITY {
      InfinityIsNoNumeral();
    } else if d % DIGITS == 0 {
      ValueOfDigits(d / DIGITS);
      WholeValue(Digits(d / DIGITS), d);
    } else {
      ParseFraction(d);
    }
  }

  lemma {:induction false} InfinityIsNoNumeral()
    ensures !Format(INFINITY_SIGN)
  {
    assert !IsDigit(INFINITY_SIGN[0]);
  }

  lemma {:induction false} MantissaValue(d: Decimal)
    ensures |Mantissa(d)| == PRECISION && AllDigits(Mantissa(d)) && Value(Mantissa(d)) == d % DIGITS
  {
    OneIsPower();
    PaddedValue(d % DIGITS, PRECISION);
  }

  lemma {:induction false} ParseFraction(d: Decimal)
    ensures Parse(Digits(d / DIGITS) + ("." + TrimZeros(Mantissa(d)))) == Ok(d)
  {
    MantissaValue(d);
    FitTrimmed(Mantissa(d));
    ValueOfDigits(d / DIGITS);
    PlainParse(Digits(d / DIGITS), TrimZeros(Mantissa(d)), d);
  }

  lemma {:induction false} SuffixedZeros(s: string, k: nat)
    requires AllDigits(s)
    ensures AllDigits(s + Zeros(k)) && Value(s + Zeros(k)) == Value(s) * Power(10, k)
  {
    ValueConcat(s, Zeros(k));
    ValueOfZeros(k);
  }

  lemma {:induction false} FitTrimmed(m: string)
    requires AllDigits(m) && |m| == PRECISION
    ensures AllDigits(TrimZeros(m)) && Value(Fit(TrimZeros(m))) == Value(m)
  {
    TrimmedValue(m);
    var t := TrimZeros(m);
    var k := PRECISION - |t|;
    SuffixedZeros(t, k);
    if k == 0 {
      FitsAlready(m);
    }
  }

  // No two decimals print alike.
  lemma {:induction false} PrintIsInjective(d: Decimal, e: Decimal)
    requires ToString(d, None) == ToString(e, None)
    ensures d == e
  {
    ParsePrint(d);
    ParsePrint(e);
  }

  // The multiple of u nearest to d, ties up.
  ghost predicate NearestTiesUp(r: nat, d: nat, u: nat)
    requires u > 0
  {
    r % u == 0 && 2 * r <= 2 * d + u && 2 * d < 2 * r + u
  }

  // Printing with fewer than 18 digits rounds to the nearest, carries included; printing
  // with 18 or more is exact.
  lemma {:induction false} ParsePrintWithPrecision(d: Decimal, precision: nat)
    requires d != INFINITY
    ensures var text := ToString(d, Some(precision));
            && text.Ok? && Parse(text.value).Ok?
            && (precision < PRECISION ==> NearestTiesUp(Parse(text.value).value, d, Power(10, PRECISION - precision)))
            && (precision >= PRECISION ==> Parse(text.value).value == d)
  {
    var text, r := ReadBackRounded(d, precision);
  }

  lemma {:induction false} ReadBackRounded(d: Decimal, precision: nat) returns (text: string, r: Decimal)
    requires d != INFINITY
    ensures ToString(d, Some(precision)) == Ok(text) && Parse(text) == Ok(r)
    ensures precision < PRECISION ==> NearestTiesUp(r, d, Power(10, PRECISION - precision))
    ensures precision >= PRECISION ==> r == d
  {
    if precision >= PRECISION {
      text, r := TextWith(d, precision), d;
      PrintedExactly(d, precision);
    } else {
      text := TextWith(RoundUp(d, precision), precision);
      r := RoundedRoundTrip(d, precision);
    }
  }

  lemma {:induction false} RoundedRoundTrip(d: Decimal, precision: nat) returns (r: Decimal)
    requires precision < PRECISION
    ensures Parse(TextWith(RoundUp(d, precision), precision)) == Ok(r)
    ensures NearestTiesUp(r, d, Power(10, PRECISION - precision))
  {
    r := RoundedUp(d, precision);
    PrintedRounded(RoundUp(d, precision), precision, r);
  }

  lemma {:induction false} ParseJoined(whole: string, m: string, p: nat, d: Decimal)
    requires p > 0 && AllDigits(whole) && AllDigits(Prefix(m, p))
    requires d == Value(whole) * DIGITS + Value(Fit(Prefix(m, p)))
    ensures Parse(Joined(whole, m, p)) == Ok(d)
  {
    PlainParse(whole, Prefix(m, p), d);
  }

  lemma {:induction false} PrintedRounded(v: Decimal, precision: nat, r: Decimal)
    requires precision < PRECISION && r == v / Power(10, PRECISION - precision) * Power(10, PRECISION - precision)
    ensures Parse(TextWith(v, precision)) == Ok(r)
  {
    CutBack(v, precision);
    if precision == 0 {
      RoundedWhole(v, r) by { OneIsPower(); }
    } else {
      MantissaParts(v, precision);
      ParseJoined(Digits(v / DIGITS), Mantissa(v), precision, r);
    }
  }

  lemma {:induction false} RoundedWhole(v: Decimal, r: Decimal)
    requires r == v / DIGITS * DIGITS
    ensures Parse(Digits(v / DIGITS)) == Ok(r)
  {
    ValueOfDigits(v / DIGITS);
    WholeValue(Digits(v / DIGITS), r);
  }

  // The parts of the text, cut off after p digits.
  lemma {:induction false} MantissaParts(v: Decimal, p: nat)
    requires p > 0
    ensures AllDigits(Prefix(Mantissa(v), p)) && Value(Digits(v / DIGITS)) == v / DIGITS
    ensures var fraction := Value(Fit(Prefix(Mantissa(v), p)));
            && (p >= PRECISION ==> fraction == v % DIGITS)
            && (p < PRECISION ==> fraction == v % DIGITS / Power(10, PRECISION - p) * Power(10, PRECISION - p))
  {
    MantissaValue(v);
    ValueOfDigits(v / DIGITS);
    if p >= PRECISION {
      FitsAlready(Mantissa(v));
    } else {
      CutValue(Mantissa(v), p);
    }
  }

  // Half a digit more, then cut off: the nearest multiple.
  lemma {:induction false} RoundedUp(d: Decimal, precision: nat) returns (r: Decimal)
    requires precision < PRECISION
    ensures r == RoundUp(d, precision) / Power(10, PRECISION - precision) * Power(10, PRECISION - precision)
    ensures NearestTiesUp(r, d, Power(10, PRECISION - precision))
  {
    HalfDigit(PRECISION - 1 - precision);
    r := HalfAbove(d, RoundUp(d, precision), Power(10, PRECISION - precision));
  }

  lemma {:induction false} HalfDigit(k: nat)
    ensures 2 * (Power(10, k) * 5) == Power(10, k + 1)
  {
  }

  lemma {:induction false} HalfAbove(d: nat, v: nat, u: nat) returns (r: nat)
    requires u > 0 && 2 * v == 2 * d + u
    ensures r == v / u * u && NearestTiesUp(r, d, u)
  {
    r := v / u * u;
    CutHalfAbove(d, v, u, r);
  }

  lemma {:induction false} CutHalfAbove(d: nat, v: nat, u: nat, r: nat)
    requires u > 0 && 2 * v == 2 * d + u && r == v / u * u
    ensures NearestTiesUp(r, d, u)
  {
    FloorBounds(v, u);
    QuotientAndRest(r, u, v / u, 0);
  }

  lemma {:induction false} PrintedExactly(d: Decimal, precision: nat)
    requires precision >= PRECISION
    ensures Parse(TextWith(d, precision)) == Ok(d)
  {
    MantissaParts(d, precision);
    ParseJoined(Digits(d / DIGITS), Mantissa(d), precision, d);
  }

  lemma {:induction false} FitsAlready(m: string)
    requires |m| == PRECISION
    ensures Fit(m) == m
  {
  }

  lemma {:induction false} CutValue(m: string, p: nat)
    requires AllDigits(m) && |m| == PRECISION && p < PRECISION
    ensures AllDigits(Prefix(m, p))
    ensures var g := Power(10, PRECISION - p); Value(Fit(Prefix(m, p))) == Value(m) / g * g
  {
    FloorOfCut(m, p);
    FitShort(Prefix(m, p), PRECISION - p, Value(m) / Power(10, PRECISION - p));
  }

  lemma {:induction false} FitShort(t: string, k: nat, v: nat)
    requires AllDigits(t) && |t| + k == PRECISION && k > 0 && Value(t) == v
    ensures Value(Fit(t)) == v * Power(10, k)
  {
    SuffixedZeros(t, k);
  }

  lemma {:induction false} CutBack(v: nat, p: nat)
    requires p < PRECISION
    ensures var g := Power(10, PRECISION - p);
            v / DIGITS * DIGITS + v % DIGITS / g * g == v / g * g
  {
    OneIsPower();
    PowerSum(10, p, PRECISION - p);
    CutBoth(v / DIGITS, v % DIGITS, Power(10, p), Power(10, PRECISION - p));
  }

  lemma {:induction false} CutBoth(a: nat, b: nat, p: nat, g: nat)
    requires p > 0 && g > 0
    ensures (a * (p * g) + b) / g * g == a * (p * g) + b / g * g
  {
    MulAssoc(a, p, g);
    FloorShift(b, g, a * p);
    assert (b / g + a * p) * g == b / g * g + a * p * g;
  }
}
