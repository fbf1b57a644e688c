/** pkg/money: decimal strings to int64 minor units. */
module Money {
  import opened Base
  import opened Errors
  import opened Decimal

  /** money.ParseToMinorUnits. Arithmetic is int64 and wraps. */
  function ParseToMinorUnits(raw: string): Result<int, Error> {
    var s := TrimSpace(raw);
    if s == "" then Err(EmptyAmount)
    else if '.' !in s then
      var v := ParseInt64(s);
      if v.None? then Err(InvalidAmountFormat) else Ok(v.value)
    else ParseDotted(Unsigned(s), s[0] == '-')
  }

  /** The text after at most one leading sign. */
  function Unsigned(s: string): string
    requires s != ""
  {
    if IsSign(s[0]) then s[1..] else s
  }

  function ParseDotted(body: string, negative: bool): Result<int, Error> {
    var parts := Split(body, '.');
    if |parts| != 2 || parts[0] == "" then Err(InvalidAmountFormat) else ParseParts(parts[0], parts[1], negative)
  }

  function ParseParts(whole: string, frac: string, negative: bool): Result<int, Error> {
    var intPart := ParseInt64(whole);
    if intPart.None? then Err(InvalidAmountFormat)
    else if ByteLen(frac) > 2 then Err(TooManyDecimals)
    else
      var fracPart := ParseInt64(PadFraction(frac));
      if fracPart.None? then Err(InvalidDecimalPart) else Combine(intPart.value, fracPart.value, negative)
  }

  function PadFraction(frac: string): string {
    if ByteLen(frac) == 1 then frac + "0"
    else if ByteLen(frac) == 0 then "00"
    else frac
  }

  function Combine(intPart: int, fracPart: int, negative: bool): Result<int, Error> {
    if intPart > QuotientTowardZero(MAX_INT64, 100) then Err(AmountOverflow)
    else if intPart < QuotientTowardZero(MIN_INT64, 100) then Err(AmountOverflow)
    else
      var base := Wrap64(intPart * 100);
      if base > Wrap64(MAX_INT64 - fracPart) then Err(AmountOverflow)
      else
        var result := Wrap64(base + fracPart);
        Ok(if negative then Wrap64(-result) else result)
  }

  lemma ErrorsAreMoneyErrors(raw: string)
    ensures ParseToMinorUnits(raw).Err? ==>
              ParseToMinorUnits(raw).error
              in {EmptyAmount, InvalidAmountFormat, TooManyDecimals, InvalidDecimalPart, AmountOverflow}
  {
    hide TrimSpace, Split, ParseInt64, ByteLen, PadFraction;
  }

  // ---------------------------------------------------------------------------------------------------------
  // The documented grammar, independently of the parser
  // ---------------------------------------------------------------------------------------------------------

  predicate IsSignText(sign: string) {
    sign == "" || sign == "+" || sign == "-"
  }

  /** [+-]?digits.digits{0,2} */
  predicate IsDecimal(sign: string, whole: string, frac: string) {
    IsSignText(sign) && whole != "" && AllDigits(whole) && AllDigits(frac) && |frac| <= 2
  }

  function DecimalText(sign: string, whole: string, frac: string): string {
    sign + whole + "." + frac
  }

  /** Hundredths: "7" after the point is seventy of them. */
  function Hundredths(frac: string): nat
    requires AllDigits(frac) && |frac| <= 2
  {
    if |frac| == 2 then NatValue(frac) else if |frac| == 1 then 10 * NatValue(frac) else 0
  }

  function Magnitude(whole: string, frac: string): nat
    requires AllDigits(whole) && AllDigits(frac) && |frac| <= 2
  {
    100 * NatValue(whole) + Hundredths(frac)
  }

  function Signed(sign: string, magnitude: nat): int {
    if sign == "-" then 0 - magnitude else magnitude as int
  }

  /** s is a decimal of the documented grammar and v its exact value in minor units. */
  ghost predicate Denotes(s: string, v: int) {
    exists sign, whole, frac ::
      && IsDecimal(sign, whole, frac) && s == DecimalText(sign, whole, frac)
      && v == Signed(sign, Magnitude(whole, frac))
  }

  // ---------------------------------------------------------------------------------------------------------
  // Facts about digits
  // ---------------------------------------------------------------------------------------------------------

  lemma {:induction false} AsciiByteLen(s: string)
    requires forall i :: 0 <= i < |s| ==> s[i] as int < 0x80
    ensures ByteLen(s) == |s|
  {
    if s != "" {
      AsciiByteLen(s[1..]);
    }
  }

  lemma {:induction false} ByteLenAtLeast(s: string)
    ensures ByteLen(s) >= |s|
  {
    if s != "" {
      ByteLenAtLeast(s[1..]);
    }
  }

  lemma ParseDigits(s: string)
    requires s != "" && AllDigits(s)
    ensures ParseInt64(s) == if NatValue(s) <= MAX_INT64 then Some(NatValue(s)) else None
  {
    assert IsDigit(s[0]);
  }

  /** The padded fraction is worth the hundredths of the fraction. */
  lemma PaddedValue(frac: string)
    requires AllDigits(frac) && |frac| <= 2
    ensures ByteLen(frac) == |frac|
    ensures |PadFraction(frac)| == 2 && AllDigits(PadFraction(frac))
    ensures NatValue(PadFraction(frac)) == Hundredths(frac) <= 99
  {
    AsciiByteLen(frac);
    var padded := PadFraction(frac);
    if |frac| == 1 {
      NatValueAppend(frac, '0');
    }
    TwoDigits(padded);
    if |frac| == 0 {
      assert DigitValue('0') == 0;
    }
  }

  lemma TwoDigits(s: string)
    requires |s| == 2 && AllDigits(s)
    ensures NatValue(s) == 10 * DigitValue(s[0]) + DigitValue(s[1])
  {
    var front := s[..1];
    assert front[..0] == "";
    assert NatValue(front) == DigitValue(front[0]);
  }

  /** On non-negative parts no intermediate result of the int64 arithmetic wraps. */
  lemma CombineIsExact(whole: nat, frac: nat, negative: bool)
    requires whole <= MAX_INT64 && frac <= 99
    ensures whole <= QuotientTowardZero(MAX_INT64, 100) ==>
              InInt64(whole * 100) && InInt64(MAX_INT64 - frac)
    ensures Combine(whole, frac, negative)
         == if 100 * whole + frac > MAX_INT64 then Err(AmountOverflow)
            else Ok(if negative then -(100 * whole + frac) else 100 * whole + frac)
    ensures Combine(whole, frac, negative).Ok? ==>
              InInt64(whole * 100 + frac) && InInt64(-(whole * 100 + frac))
  {
  }

  // ---------------------------------------------------------------------------------------------------------
  // Every decimal of the grammar
  // ---------------------------------------------------------------------------------------------------------

  lemma DecimalShape(sign: string, whole: string, frac: string)
    requires IsDecimal(sign, whole, frac)
    ensures var s := DecimalText(sign, whole, frac);
            && s != "" && Trimmed(s) && '.' in s
            && Unsigned(s) == whole + "." + frac && (s[0] == '-' <==> sign == "-")
  {
    var s := DecimalText(sign, whole, frac);
    assert s[|sign| + |whole|] == '.';
    assert s[|sign|] == whole[0] && IsDigit(whole[0]);
    assert s[|s| - 1] == if frac == "" then '.' else frac[|frac| - 1];
    assert s[|sign|..] == whole + "." + frac;
  }

  /**
   * Parsing is exact on the grammar: it succeeds exactly when the magnitude fits int64, and then returns the signed
   * value. The two ways of being too large are told apart.
   */
  lemma DecimalsAreExact(sign: string, whole: string, frac: string)
    requires IsDecimal(sign, whole, frac)
    ensures ParseToMinorUnits(DecimalText(sign, whole, frac))
         == var magnitude := Magnitude(whole, frac);
            if magnitude <= MAX_INT64 then Ok(Signed(sign, magnitude))
            else Err(if NatValue(whole) <= MAX_INT64 then AmountOverflow else InvalidAmountFormat)
  {
    hide ParseDotted, DecimalText, TrimSpace, ParseInt64, NatValue, Hundredths, Unsigned, AllDigits;
    var s := DecimalText(sign, whole, frac);
    DecimalShape(sign, whole, frac);
    TrimmedUnchanged(s);
    DottedBody(whole, frac, s[0] == '-');
  }

  lemma DottedBody(whole: string, frac: string, negative: bool)
    requires IsDecimal("", whole, frac)
    ensures ParseDotted(whole + "." + frac, negative)
         == var magnitude := Magnitude(whole, frac);
            if magnitude <= MAX_INT64 then Ok(Signed(if negative then "-" else "", magnitude))
            else Err(if NatValue(whole) <= MAX_INT64 then AmountOverflow else InvalidAmountFormat)
  {
    SplitTwo(whole, frac, '.');
    hide Split, NatValue, Hundredths, ParseParts;
    DigitParts(whole, frac, negative);
  }

  lemma DigitParts(whole: string, frac: string, negative: bool)
    requires IsDecimal("", whole, frac)
    ensures ParseParts(whole, frac, negative)
         == var magnitude := Magnitude(whole, frac);
            if magnitude <= MAX_INT64 then Ok(Signed(if negative then "-" else "", magnitude))
            else Err(if NatValue(whole) <= MAX_INT64 then AmountOverflow else InvalidAmountFormat)
  {
    hide NatValue, PadFraction, ParseInt64, Hundredths, Combine, ByteLen;
    ParseDigits(whole);
    PaddedValue(frac);
    ParseDigits(PadFraction(frac));
    if NatValue(whole) <= MAX_INT64 {
      CombineIsExact(NatValue(whole), Hundredths(frac), negative);
    }
  }

  /** Missing digits after the point are zeros: x.y is x.y0 and x. is x.00, errors included. */
  lemma MissingDigitsAreZeros(sign: string, whole: string, frac: string)
    requires IsDecimal(sign, whole, frac)
    ensures IsDecimal(sign, whole, PadFraction(frac))
    ensures ParseToMinorUnits(DecimalText(sign, whole, frac))
         == ParseToMinorUnits(DecimalText(sign, whole, PadFraction(frac)))
  {
    hide ParseToMinorUnits, PadFraction, NatValue, AllDigits, ByteLen;
    PaddedValue(frac);
    DecimalsAreExact(sign, whole, frac);
    DecimalsAreExact(sign, whole, PadFraction(frac));
  }

  /** What is left after trimming reads as the whole, so what is proved of trimmed texts holds of all. */
  lemma TrimmedReadsTheSame(raw: string)
    ensures Trimmed(TrimSpace(raw))
    ensures ParseToMinorUnits(raw) == ParseToMinorUnits(TrimSpace(raw))
  {
    hide TrimSpace, Trimmed;
    TrimSpaceTrims(raw);
    TrimmedUnchanged(TrimSpace(raw));
  }

  /** Surrounding space is never significant: tabs, line ends and spaces, the two of Latin-1 included. */
  lemma SurroundingSpace(pre: string, s: string, post: string)
    requires forall c :: c in pre + post ==>
               || c == ' ' || c == '\t' || c == '\n' || c == '\U{0B}' || c == '\U{0C}' || c == '\r'
               || c == '\U{85}' || c == '\U{A0}'
    ensures ParseToMinorUnits(pre + s + post) == ParseToMinorUnits(s)
  {
    hide TrimSpace;
    TrimSpaceSkips(pre, s, post);
  }

  /** The documented formats, and space around one of them. */
  lemma DocumentedFormats()
    ensures ParseToMinorUnits("12345") == Ok(12345)
    ensures ParseToMinorUnits("123.45") == Ok(12345)
    ensures ParseToMinorUnits("-12.34") == Ok(-1234)
    ensures ParseToMinorUnits("  77.10  ") == Ok(7710)
  {
    hide ParseToMinorUnits, NatValue;
    NumbersInFormats();
    DecimalsAreExact("", "123", "45");
    DecimalsAreExact("-", "12", "34");
    DecimalsAreExact("", "77", "10");
    assert DecimalText("", "123", "45") == "123.45" && DecimalText("-", "12", "34") == "-12.34";
    assert DecimalText("", "77", "10") == "77.10";
    SurroundingSpace("  ", "77.10", "  ");
    assert "  " + "77.10" + "  " == "  77.10  ";
    PlainIsExact("", "12345");
    assert "" + "12345" == "12345";
  }

  lemma NumbersInFormats()
    ensures NatValue("10") == 10 && NatValue("12") == 12 && NatValue("34") == 34 && NatValue("45") == 45
    ensures NatValue("77") == 77 && NatValue("123") == 123 && NatValue("12345") == 12345
  {
    hide NatValue;
    TwoDigits("10");
    TwoDigits("12");
    TwoDigits("34");
    TwoDigits("45");
    TwoDigits("77");
    NatValueAppend("12", '3');
    assert "12" + ['3'] == "123";
    NatValueAppend("123", '4');
    assert "123" + ['4'] == "1234";
    NatValueAppend("1234", '5');
    assert "1234" + ['5'] == "12345";
  }

  // ---------------------------------------------------------------------------------------------------------
  // Texts without a point
  // ---------------------------------------------------------------------------------------------------------

  predicate IsPlain(sign: string, digits: string) {
    IsSignText(sign) && digits != "" && AllDigits(digits)
  }

  /** s is a number of the documented grammar, without a point, and v its value, which counts minor units. */
  ghost predicate DenotesPlain(s: string, v: int) {
    exists sign, digits :: IsPlain(sign, digits) && s == sign + digits && v == Signed(sign, NatValue(digits))
  }

  lemma PlainIsExact(sign: string, digits: string)
    requires IsPlain(sign, digits)
    ensures ParseToMinorUnits(sign + digits)
         == var v := Signed(sign, NatValue(digits)); if InInt64(v) then Ok(v) else Err(InvalidAmountFormat)
  {
    var s := sign + digits;
    PlainShape(sign, digits);
    TrimmedUnchanged(s);
    ParseSignedDigits(s);
    hide NatValue, TrimSpace, ParseInt64, SignedDigits, SignedValue, IsPlain;
  }

  lemma PlainShape(sign: string, digits: string)
    requires IsPlain(sign, digits)
    ensures var s := sign + digits;
            && s != "" && Trimmed(s) && '.' !in s
            && SignedDigits(s) && SignedValue(s) == Signed(sign, NatValue(digits))
  {
    PlainIsVisible(sign, digits);
    VisibleIsTrimmed(sign + digits);
    SignInFront(sign, digits);
    hide *;
  }

  lemma PlainIsVisible(sign: string, digits: string)
    requires IsPlain(sign, digits)
    ensures forall i :: 0 <= i < |sign + digits| ==> '!' <= (sign + digits)[i] <= '~' && (sign + digits)[i] != '.'
  {
  }

  lemma SignInFront(sign: string, digits: string)
    requires IsPlain(sign, digits)
    ensures SignedDigits(sign + digits) && SignedValue(sign + digits) == Signed(sign, NatValue(digits))
  {
    hide NatValue;
    var s := sign + digits;
    assert IsDigit(digits[0]);
    if sign == "" {
      assert s == digits;
    } else {
      assert s[0] == sign[0] && s[1..] == digits;
    }
  }

  /** Without a point the parser is the exact reading of the grammar on all of int64, and has one error for the rest. */
  lemma PlainIsExactIff(s: string)
    requires Trimmed(s) && '.' !in s
    ensures forall v :: ParseToMinorUnits(s) == Ok(v) <==> DenotesPlain(s, v) && InInt64(v)
    ensures ParseToMinorUnits(s).Err? ==>
              ParseToMinorUnits(s).error == if s == "" then EmptyAmount else InvalidAmountFormat
  {
    TrimmedUnchanged(s);
    hide TrimSpace, NatValue;
    if s != "" {
      ParseSignedDigits(s);
      if ParseInt64(s).Some? {
        var sign := if IsSign(s[0]) then s[..1] else "";
        assert s == sign + Unsigned(s);
        assert IsPlain(sign, Unsigned(s)) && DenotesPlain(s, SignedValue(s));
      }
    }
    hide ParseToMinorUnits;
    forall v | DenotesPlain(s, v) && InInt64(v) ensures ParseToMinorUnits(s) == Ok(v) {
      var sign, digits :| IsPlain(sign, digits) && s == sign + digits && v == Signed(sign, NatValue(digits));
      PlainIsExact(sign, digits);
    }
  }

  /** The usual rendering of minor units with two decimals. */
  function MinorText(v: int): string {
    var magnitude := if v < 0 then -v else v;
    DecimalText(if v < 0 then "-" else "", NatText(magnitude / 100),
                [DigitChar(magnitude / 10 % 10), DigitChar(magnitude % 10)])
  }

  /**
   * Rendering and parsing are inverse for all int64 values but one: the least of them cannot be written with a point,
   * because the sign is applied last, while the same number without a point is accepted.
   */
  lemma MinorTextRoundTrip(v: int)
    requires InInt64(v)
    ensures ParseToMinorUnits(MinorText(v)) == if v == MIN_INT64 then Err(AmountOverflow) else Ok(v)
    ensures ParseToMinorUnits(IntText(v)) == Ok(v)
  {
    hide ParseToMinorUnits, NatValue, NatText, IntText;
    IntTextParses(v);
    var magnitude := if v < 0 then -v else v;
    var frac := [DigitChar(magnitude / 10 % 10), DigitChar(magnitude % 10)];
    HundredthsText(magnitude);
    DecimalsAreExact(if v < 0 then "-" else "", NatText(magnitude / 100), frac);
    hide Hundredths, DecimalText, IsDecimal, AllDigits;
  }

  lemma HundredthsText(magnitude: nat)
    ensures var frac := [DigitChar(magnitude / 10 % 10), DigitChar(magnitude % 10)];
            Hundredths(frac) == magnitude % 100
  {
    TwoDigits([DigitChar(magnitude / 10 % 10), DigitChar(magnitude % 10)]);
  }

  lemma IntTextParses(v: int)
    requires InInt64(v)
    ensures ParseToMinorUnits(IntText(v)) == Ok(v)
  {
    var s := IntText(v);
    ParseIntText(v);
    var digits := NatText(if v < 0 then -v else v);
    assert s[|s| - 1] == digits[|digits| - 1];
    assert s[0] == if v < 0 then '-' else digits[0];
    assert forall i :: 0 <= i < |s| ==> s[i] == '-' || IsDigit(s[i]);
    TrimmedUnchanged(s);
  }

  // ---------------------------------------------------------------------------------------------------------
  // Everything else that has a point
  // ---------------------------------------------------------------------------------------------------------

  /** A sign anywhere but in front. */
  predicate HasInnerSign(s: string) {
    exists i :: 1 <= i < |s| && IsSign(s[i])
  }

  /** [+-]?digits */
  predicate SignedDigits(s: string) {
    s != "" && Unsigned(s) != "" && AllDigits(Unsigned(s))
  }

  function SignedValue(s: string): int
    requires SignedDigits(s)
  {
    if s[0] == '-' then 0 - NatValue(Unsigned(s)) else NatValue(Unsigned(s)) as int
  }

  lemma ParseSignedDigits(s: string)
    ensures ParseInt64(s) == if SignedDigits(s) && InInt64(SignedValue(s)) then Some(SignedValue(s)) else None
  {
  }

  /**
   * The parts of a dotted text the parser accepts: either may begin with a sign of its own, and what is added up must
   * pass the range tests, whose subtraction wraps for a negative fraction.
   */
  predicate Accepted(body: string) {
    var parts := Split(body, '.');
    && |parts| == 2
    && SignedDigits(parts[0]) && ByteLen(parts[1]) <= 2 && SignedDigits(PadFraction(parts[1]))
    && var whole := SignedValue(parts[0]);
       var frac := SignedValue(PadFraction(parts[1]));
       && -92233720368547758 <= whole <= 92233720368547758
       && if frac >= 0 then 100 * whole + frac <= MAX_INT64 else whole == -92233720368547758 && frac == -9
  }

  lemma PaddedLength(frac: string)
    requires ByteLen(frac) <= 2 && SignedDigits(PadFraction(frac))
    ensures |PadFraction(frac)| == 2
  {
    ByteLenAtLeast(frac);
    if |frac| == 1 && (IsSign(frac[0]) || IsDigit(frac[0])) {
      AsciiByteLen(frac);
    }
  }

  lemma PaddedIsShort(frac: string)
    requires ByteLen(frac) <= 2 && SignedDigits(PadFraction(frac))
    ensures |PadFraction(frac)| == 2 && -9 <= SignedValue(PadFraction(frac)) <= 99
    ensures !IsSign(PadFraction(frac)[0]) ==> AllDigits(frac) && |frac| <= 2
  {
    ByteLenAtLeast(frac);
    PaddedLength(frac);
    var padded := PadFraction(frac);
    if IsSign(padded[0]) {
      var d := padded[1..];
      assert d[..0] == "" && NatValue(d) == DigitValue(d[0]);
    } else {
      TwoDigits(padded);
      assert forall i :: 0 <= i < |frac| ==> frac[i] == padded[i];
    }
  }

  lemma CombineAccepts(whole: int, frac: int, negative: bool)
    requires InInt64(whole) && -9 <= frac <= 99
    ensures Combine(whole, frac, negative).Ok?
       <==> (&& -92233720368547758 <= whole <= 92233720368547758
             && if frac >= 0 then 100 * whole + frac <= MAX_INT64 else whole == -92233720368547758 && frac == -9)
  {
  }

  /**
   * What the parts of an accepted text come to before the leading sign is applied. The one sum that is out of range
   * wraps around to the greatest value.
   */
  function AcceptedValue(body: string): int
    requires Accepted(body)
  {
    var parts := Split(body, '.');
    var sum := 100 * SignedValue(parts[0]) + SignedValue(PadFraction(parts[1]));
    if sum < MIN_INT64 then MAX_INT64 else sum
  }

  /** Why a text with a point is not accepted. */
  function Fault(body: string): Error {
    var parts := Split(body, '.');
    if |parts| != 2 || !SignedDigits(parts[0]) || !InInt64(SignedValue(parts[0])) then InvalidAmountFormat
    else if ByteLen(parts[1]) > 2 then TooManyDecimals
    else if !SignedDigits(PadFraction(parts[1])) then InvalidDecimalPart
    else AmountOverflow
  }

  lemma CombineValue(whole: int, frac: int, negative: bool)
    requires InInt64(whole) && -9 <= frac <= 99
    ensures var sum := 100 * whole + frac;
            var wrapped := if sum < MIN_INT64 then MAX_INT64 else sum;
            Combine(whole, frac, negative)
            == if Combine(whole, frac, negative).Err? then Err(AmountOverflow)
               else Ok(if negative then -wrapped else wrapped)
  {
  }

  /** What an accepted text with a point is read as, and which error the others get. */
  lemma DottedOutcome(s: string)
    requires Trimmed(s) && '.' in s
    ensures ParseToMinorUnits(s)
         == if !Accepted(Unsigned(s)) then Err(Fault(Unsigned(s)))
            else if s[0] == '-' then Ok(-AcceptedValue(Unsigned(s)))
            else Ok(AcceptedValue(Unsigned(s)))
  {
    DottedAcceptedIff(s);
    TrimmedUnchanged(s);
    hide TrimSpace, NatValue, ByteLen, PadFraction, ParseInt64, Split, Combine, SignedDigits, SignedValue;
    var parts := Split(Unsigned(s), '.');
    if |parts| == 2 {
      PartsOutcome(parts[0], parts[1], s[0] == '-');
    }
  }

  lemma PartsOutcome(whole: string, frac: string, negative: bool)
    ensures whole == "" ==> !SignedDigits(whole)
    ensures !(SignedDigits(whole) && InInt64(SignedValue(whole))) ==>
              ParseParts(whole, frac, negative) == Err(InvalidAmountFormat)
    ensures SignedDigits(whole) && InInt64(SignedValue(whole)) ==>
              ParseParts(whole, frac, negative)
              == if ByteLen(frac) > 2 then Err(TooManyDecimals)
                 else if !SignedDigits(PadFraction(frac)) then Err(InvalidDecimalPart)
                 else if Combine(SignedValue(whole), SignedValue(PadFraction(frac)), negative).Err? then
                   Err(AmountOverflow)
                 else
                   var sum := 100 * SignedValue(whole) + SignedValue(PadFraction(frac));
                   var wrapped := if sum < MIN_INT64 then MAX_INT64 else sum;
                   Ok(if negative then -wrapped else wrapped)
  {
    assert whole == "" ==> !SignedDigits(whole);
    hide NatValue, ByteLen, PadFraction, ParseInt64, SignedValue, Combine, SignedDigits, InInt64;
    ParseSignedDigits(whole);
    if ByteLen(frac) <= 2 {
      PaddedOutcome(frac);
      if ParseInt64(whole).Some? && SignedDigits(PadFraction(frac)) {
        CombineValue(SignedValue(whole), SignedValue(PadFraction(frac)), negative);
      }
    }
  }

  /** What the fraction reads as: it is too short to be out of range. */
  lemma PaddedOutcome(frac: string)
    requires ByteLen(frac) <= 2
    ensures ParseInt64(PadFraction(frac))
         == if SignedDigits(PadFraction(frac)) then Some(SignedValue(PadFraction(frac))) else None
    ensures SignedDigits(PadFraction(frac)) ==> -9 <= SignedValue(PadFraction(frac)) <= 99
  {
    ParseSignedDigits(PadFraction(frac));
    if SignedDigits(PadFraction(frac)) {
      PaddedIsShort(frac);
    }
    hide NatValue, ByteLen, PadFraction, ParseInt64, SignedValue, SignedDigits;
  }

  /** Decimals are counted in bytes: one two-byte character is not too many, and a digit with it is. */
  lemma DecimalsAreBytes()
    ensures ParseToMinorUnits("1.\U{e9}") == Err(InvalidDecimalPart)
    ensures ParseToMinorUnits("1.5\U{e9}") == Err(TooManyDecimals)
    ensures ParseToMinorUnits("1.\U{20ac}") == Err(TooManyDecimals)
    ensures ParseToMinorUnits("1.234") == Err(TooManyDecimals)
  {
    hide ParseToMinorUnits, NatValue;
    FaultyFraction("\U{e9}");
    FaultyFraction("5\U{e9}");
    FaultyFraction("\U{20ac}");
    FaultyFraction("234");
    assert "1" + "." + "\U{e9}" == "1.\U{e9}" && "1" + "." + "5\U{e9}" == "1.5\U{e9}";
    assert "1" + "." + "\U{20ac}" == "1.\U{20ac}" && "1" + "." + "234" == "1.234";
    assert "5\U{e9}"[1..] == "\U{e9}" && "234"[1..] == "34" && "34"[1..] == "4";
    assert !IsDigit(PadFraction("\U{e9}")[0]);
  }

  lemma FaultyFraction(frac: string)
    requires frac != "" && '.' !in frac && !IsSpace(frac[|frac| - 1])
    requires ByteLen(frac) > 2 || !SignedDigits(PadFraction(frac))
    ensures ParseToMinorUnits("1" + "." + frac)
         == Err(if ByteLen(frac) > 2 then TooManyDecimals else InvalidDecimalPart)
  {
    hide NatValue, ByteLen, PadFraction, SignedDigits, SignedValue, ParseToMinorUnits;
    var s := "1" + "." + frac;
    assert s[0] == '1' && s[1] == '.' && s[|s| - 1] == frac[|frac| - 1];
    OneDigit("1");
    SplitTwo("1", frac, '.');
    DottedOutcome(s);
  }

  /** Exactly which texts with a point are accepted. */
  lemma DottedAcceptedIff(s: string)
    requires Trimmed(s) && '.' in s
    ensures ParseToMinorUnits(s).Ok? <==> Accepted(Unsigned(s))
  {
    TrimmedUnchanged(s);
    var parts := Split(Unsigned(s), '.');
    if |parts| == 2 {
      ParseSignedDigits(parts[0]);
      ParseSignedDigits(PadFraction(parts[1]));
      if SignedDigits(PadFraction(parts[1])) && ByteLen(parts[1]) <= 2 {
        PaddedIsShort(parts[1]);
        if ParseInt64(parts[0]).Some? {
          CombineAccepts(ParseInt64(parts[0]).value, SignedValue(PadFraction(parts[1])), s[0] == '-');
        }
      }
    }
  }

  /** Without an inner sign, what is accepted is a decimal of the grammar. */
  lemma AcceptedIsDecimal(s: string) returns (sign: string, whole: string, frac: string)
    requires Trimmed(s) && '.' in s && !HasInnerSign(s) && Accepted(Unsigned(s))
    ensures IsDecimal(sign, whole, frac) && s == DecimalText(sign, whole, frac)
  {
    hide Accepted, SignedDigits, IsDecimal, DecimalText;
    var body := Unsigned(s);
    sign := if IsSign(s[0]) then s[..1] else "";
    whole, frac := AcceptedParts(body);
    assert s == sign + body;
    assert body[0] == s[|sign|];
    if frac != "" {
      assert frac[0] == body[|whole| + 1] == s[|sign| + |whole| + 1];
    }
    UnsignedParts(sign, whole, frac);
  }

  lemma UnsignedParts(sign: string, whole: string, frac: string)
    requires IsSignText(sign) && SignedDigits(whole) && !IsSign(whole[0])
    requires ByteLen(frac) <= 2 && SignedDigits(PadFraction(frac)) && (frac != "" ==> !IsSign(frac[0]))
    ensures IsDecimal(sign, whole, frac) && DecimalText(sign, whole, frac) == sign + (whole + "." + frac)
  {
    UnsignedFraction(frac);
    hide PadFraction, ByteLen;
    assert Unsigned(whole) == whole;
    Associates(sign, whole, frac);
    hide DecimalText, SignedDigits;
  }

  lemma Associates(sign: string, whole: string, frac: string)
    ensures DecimalText(sign, whole, frac) == sign + (whole + "." + frac)
  {
  }

  lemma UnsignedFraction(frac: string)
    requires ByteLen(frac) <= 2 && SignedDigits(PadFraction(frac)) && (frac != "" ==> !IsSign(frac[0]))
    ensures AllDigits(frac) && |frac| <= 2
  {
    hide NatValue, ByteLen, PadFraction, SignedDigits, SignedValue;
    PaddedIsShort(frac);
    PaddedHead(frac);
  }

  lemma AcceptedParts(body: string) returns (whole: string, frac: string)
    requires Accepted(body)
    ensures body == whole + "." + frac
    ensures whole != "" && SignedDigits(whole) && ByteLen(frac) <= 2 && SignedDigits(PadFraction(frac))
  {
    hide NatValue, ByteLen, Split, PadFraction, SignedValue;
    SplitJoin(body, '.');
    var parts := Split(body, '.');
    whole, frac := parts[0], parts[1];
    assert Join(parts[1..], '.') == frac;
  }

  lemma PaddedHead(frac: string)
    requires |PadFraction(frac)| == 2
    ensures PadFraction(frac)[0] == if frac == "" then '0' else frac[0]
  {
  }

  /**
   * For texts with a point the parser is the exact reading of the documented grammar, if and only if it is not misled
   * by an inner sign: when there is none it accepts the in-range decimals and nothing else, and with one it should
   * refuse, but accepts what Accepted describes.
   */
  lemma DottedIsExactIff(s: string)
    requires Trimmed(s) && '.' in s
    ensures (forall v :: ParseToMinorUnits(s) == Ok(v) <==> Denotes(s, v) && -MAX_INT64 <= v <= MAX_INT64)
       <==> !(HasInnerSign(s) && Accepted(Unsigned(s)))
  {
    hide ParseToMinorUnits, Accepted, Denotes, HasInnerSign;
    DottedAcceptedIff(s);
    forall v | Denotes(s, v)
      ensures !HasInnerSign(s)
      ensures ParseToMinorUnits(s).Ok? <==> -MAX_INT64 <= v <= MAX_INT64
      ensures ParseToMinorUnits(s).Ok? ==> ParseToMinorUnits(s).value == v
    {
      DenotedIsParsed(s, v);
    }
    if HasInnerSign(s) && Accepted(Unsigned(s)) {
      var v := ParseToMinorUnits(s).value;
      assert ParseToMinorUnits(s) == Ok(v) && !Denotes(s, v);
    } else if Accepted(Unsigned(s)) {
      var v := AcceptedIsDenoted(s);
      assert Denotes(s, v);
    }
  }

  lemma DenotedIsParsed(s: string, v: int)
    requires Denotes(s, v)
    ensures !HasInnerSign(s)
    ensures ParseToMinorUnits(s).Ok? <==> -MAX_INT64 <= v <= MAX_INT64
    ensures ParseToMinorUnits(s).Ok? ==> ParseToMinorUnits(s).value == v
  {
    hide ParseToMinorUnits, NatValue;
    var sign, whole, frac :| IsDecimal(sign, whole, frac) && s == DecimalText(sign, whole, frac)
                             && v == Signed(sign, Magnitude(whole, frac));
    DecimalsAreExact(sign, whole, frac);
    assert forall i :: 1 <= i < |s| ==> s[i] == '.' || IsDigit(s[i]);
  }

  lemma AcceptedIsDenoted(s: string) returns (v: int)
    requires Trimmed(s) && '.' in s && !HasInnerSign(s) && Accepted(Unsigned(s))
    ensures Denotes(s, v)
  {
    hide NatValue, Accepted, HasInnerSign;
    var sign, whole, frac := AcceptedIsDecimal(s);
    v := Signed(sign, Magnitude(whole, frac));
  }

  /**
   * The five kinds of misreading: a doubled sign, a bare sign, a plus or a minus after the point, and a wrap-around.
   */
  lemma InnerSignsMislead()
    ensures ParseToMinorUnits("--5.25") == Ok(475)
    ensures ParseToMinorUnits("1.-") == Ok(100)
    ensures ParseToMinorUnits("1.+5") == Ok(105)
    ensures ParseToMinorUnits("1.-5") == Err(AmountOverflow)
    ensures ParseToMinorUnits("+-" + NatText(92233720368547758) + ".-9") == Ok(MAX_INT64)
  {
    WrapAround();
    DoubledSign();
    BareSign();
    InnerPlus();
    InnerMinus();
    hide ParseToMinorUnits;
  }

  lemma DoubledSign()
    ensures ParseToMinorUnits("--5.25") == Ok(475)
  {
    hide NatValue, ParseToMinorUnits;
    TwoDigits("25");
    OneDigit("5");
    Misread("--5.25", "-5", "25", -5, 25);
  }

  lemma BareSign()
    ensures ParseToMinorUnits("1.-") == Ok(100)
  {
    hide NatValue, ParseToMinorUnits;
    OneDigit("0");
    OneDigit("1");
    Misread("1.-", "1", "-", 1, 0);
  }

  lemma InnerPlus()
    ensures ParseToMinorUnits("1.+5") == Ok(105)
  {
    hide NatValue, ParseToMinorUnits;
    OneDigit("5");
    OneDigit("1");
    Misread("1.+5", "1", "+5", 1, 5);
  }

  lemma InnerMinus()
    ensures ParseToMinorUnits("1.-5") == Err(AmountOverflow)
  {
    hide NatValue, ParseToMinorUnits;
    OneDigit("5");
    OneDigit("1");
    Misread("1.-5", "1", "-5", 1, -5);
  }

  lemma WrapAround()
    ensures ParseToMinorUnits("+-" + NatText(92233720368547758) + ".-9") == Ok(MAX_INT64)
  {
    hide NatValue, NatText, ParseToMinorUnits;
    var digits := NatText(92233720368547758);
    var whole := "-" + digits;
    var s := "+-" + digits + ".-9";
    assert whole[1..] == digits;
    assert s[1..] == whole + "." + "-9";
    OneDigit("9");
    assert SignedDigits(whole) && SignedValue(whole) == -92233720368547758;
    Misread(s, whole, "-9", -92233720368547758, -9);
  }

  lemma OneDigit(s: string)
    requires |s| == 1 && AllDigits(s)
    ensures NatValue(s) == DigitValue(s[0])
    ensures SignedDigits(s) && SignedValue(s) == DigitValue(s[0])
    ensures SignedDigits("+" + s) && SignedValue("+" + s) == DigitValue(s[0])
    ensures SignedDigits("-" + s) && SignedValue("-" + s) == 0 - DigitValue(s[0])
  {
    assert s[..0] == "";
    assert ("+" + s)[1..] == s && ("-" + s)[1..] == s;
  }

  lemma Misread(s: string, whole: string, frac: string, wholeValue: int, fracValue: int)
    requires s != "" && Trimmed(s) && Unsigned(s) == whole + "." + frac && '.' !in whole && '.' !in frac
    requires SignedDigits(whole) && SignedDigits(PadFraction(frac)) && ByteLen(frac) <= 2
    requires SignedValue(whole) == wholeValue && SignedValue(PadFraction(frac)) == fracValue
    requires InInt64(wholeValue) && InInt64(fracValue)
    ensures ParseToMinorUnits(s) == Combine(wholeValue, fracValue, s[0] == '-')
  {
    TrimmedUnchanged(s);
    SplitTwo(whole, frac, '.');
    ParseSignedDigits(whole);
    ParseSignedDigits(PadFraction(frac));
    assert Unsigned(s)[|whole|] == '.';
    hide NatValue, Split, ByteLen, PadFraction, SignedValue, SignedDigits, ParseInt64, Combine, TrimSpace;
  }
}
