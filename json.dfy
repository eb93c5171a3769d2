/** The JSON request values the routes read, JavaScript truthiness, `||` defaults and `Number()`. */
module Json {
  import opened Wrappers
  import opened Text

  /** A field of a parsed JSON body: missing, null, a boolean, an integer or a string. Fractional
      numbers, arrays and objects are not represented. */
  datatype JsonValue = Absent | Null | Bool(b: bool) | Num(n: int) | Str(s: string)

  /** JavaScript truthiness: absent, null, false, 0 and "" are falsy. */
  predicate Truthy(v: JsonValue)
  {
    match v
    case Absent => false
    case Null => false
    case Bool(b) => b
    case Num(n) => n != 0
    case Str(s) => s != ""
  }

  /** `v || fallback`. */
  function OrElse(v: JsonValue, fallback: JsonValue): (r: JsonValue)
    ensures Truthy(v) ==> r == v
    ensures !Truthy(v) ==> r == fallback
  {
    if Truthy(v) then v else fallback
  }

  /** The result of `Number(v)`: an integer, NaN, or, for a string in one of the other numeric
      syntaxes (fraction, exponent, binary, octal or hexadecimal, "Infinity"), the raw text, whose
      value is not computed here. */
  datatype JsNumber = Int(value: int) | NaN | OtherString(text: string)

  /** An optional sign followed by one or more decimal digits. */
  predicate IsSignedDecimal(t: string)
  {
    var digits := Unsigned(t);
    |digits| > 0 && forall i :: 0 <= i < |digits| ==> IsDigit(digits[i])
  }

  /** The text after a leading sign, if there is one. */
  function Unsigned(t: string): string
  {
    if |t| > 0 && (t[0] == '+' || t[0] == '-') then t[1..] else t
  }

  /** The length of the run of decimal digits that `t` starts with. */
  function DigitRun(t: string): (n: nat)
    ensures n <= |t|
    ensures forall i :: 0 <= i < n ==> IsDigit(t[i])
    ensures n < |t| ==> !IsDigit(t[n])
  {
    if |t| > 0 && IsDigit(t[0]) then 1 + DigitRun(t[1..]) else 0
  }

  predicate AllDigits(t: string)
  {
    |t| > 0 && forall i :: 0 <= i < |t| ==> IsDigit(t[i])
  }

  /** ExponentPart: `e` or `E`, an optional sign, and digits. */
  predicate IsExponent(t: string)
  {
    |t| > 1 && (t[0] == 'e' || t[0] == 'E') && AllDigits(Unsigned(t[1..]))
  }

  /** StrUnsignedDecimalLiteral: "Infinity", or digits with an optional fraction (at least one digit
      on one side of the point), then an optional exponent. */
  predicate IsUnsignedDecimalLiteral(t: string)
  {
    if t == "Infinity" then true
    else
      var a := DigitRun(t);
      var rest := t[a..];
      if |rest| > 0 && rest[0] == '.' then
        var b := DigitRun(rest[1..]);
        a + b > 0 && (rest[1 + b..] == [] || IsExponent(rest[1 + b..]))
      else
        a > 0 && (rest == [] || IsExponent(rest))
  }

  predicate IsBaseDigit(c: char, radix: char)
  {
    match radix
    case 'b' => c == '0' || c == '1'
    case 'o' => '0' <= c <= '7'
    case _ => IsDigit(c) || 'a' <= c <= 'f' || 'A' <= c <= 'F'
  }

  /** NonDecimalIntegerLiteral: `0b`, `0o` or `0x` (any letter case) and at least one digit of that
      base; no sign is allowed. */
  predicate IsNonDecimalLiteral(t: string)
  {
    && |t| > 2 && t[0] == '0'
    && var radix := LowerChar(t[1]);
    && (radix == 'b' || radix == 'o' || radix == 'x')
    && forall i :: 2 <= i < |t| ==> IsBaseDigit(t[i], radix)
  }

  /** StrNumericLiteral of section 7.1.4.1.1 of ECMA-262, for text already trimmed. */
  predicate IsNumericText(t: string)
  {
    IsUnsignedDecimalLiteral(Unsigned(t)) || IsNonDecimalLiteral(t)
  }

  /** A signed decimal integer is one of the numeric syntaxes. */
  lemma SignedDecimalIsNumeric(t: string)
    requires IsSignedDecimal(t)
    ensures IsNumericText(t)
  {
    var u := Unsigned(t);
    assert DigitRun(u) == |u|;
    assert u[|u|..] == [];
  }

  function SignedDecimalValue(t: string): int
    requires IsSignedDecimal(t)
  {
    var v: int := DigitsValue(Unsigned(t));
    if t[0] == '-' then -v else v
  }

  /** `Number(v)`: undefined and text outside the numeric syntaxes are NaN; null, false and a blank
      string are 0, true is 1; a trimmed signed decimal string is its value. */
  function ToNumber(v: JsonValue): (r: JsNumber)
    ensures r.NaN? <==> v.Absent? || (v.Str? && !IsBlank(v.s) && !IsNumericText(Trim(v.s)))
    ensures v.Null? ==> r == Int(0)
    ensures v.Num? ==> r == Int(v.n)
    ensures v.Bool? ==> r == Int(if v.b then 1 else 0)
    ensures v.Str? && IsBlank(v.s) ==> r == Int(0)
    ensures v.Str? && IsSignedDecimal(Trim(v.s)) ==> r == Int(SignedDecimalValue(Trim(v.s)))
    ensures r.OtherString? <==> v.Str? && !IsBlank(v.s) && IsNumericText(Trim(v.s)) && !IsSignedDecimal(Trim(v.s))
    ensures r.OtherString? ==> r.text == v.s
  {
    match v
    case Absent => NaN
    case Null => Int(0)
    case Bool(b) => Int(if b then 1 else 0)
    case Num(n) => Int(n)
    case Str(s) =>
      var t := Trim(s);
      if t == "" then Int(0)
      else if IsSignedDecimal(t) then
        SignedDecimalIsNumeric(t);
        Int(SignedDecimalValue(t))
      else if IsNumericText(t) then OtherString(s)
      else NaN
  }

  /** `v ?? fallback` for an optional string. */
  function OrDefault(v: Option<string>, fallback: string): (r: string)
    ensures v.Some? ==> r == v.value
    ensures v.None? ==> r == fallback
  {
    if v.Some? then v.value else fallback
  }

  /** A string without whitespace is its own trim. */
  lemma TrimWithoutWhitespace(s: string)
    requires forall i :: 0 <= i < |s| ==> !IsWhitespace(s[i])
    ensures Trim(s) == s
  {
    var t := TrimStart(s);
    assert |t| == |s|;
    assert |TrimEnd(t)| == |t|;
  }

  /** Non-blank text that is not numeric converts to NaN. */
  lemma NonNumericIsNaN(s: string)
    requires Trim(s) == s && s != "" && !IsNumericText(s)
    ensures ToNumber(Str(s)) == NaN
  {
    assert !IsBlank(s);
  }

  /** A word is NaN. */
  lemma WordIsNaN()
    ensures ToNumber(Str("abc")) == NaN
  {
    TrimWithoutWhitespace("abc");
    assert DigitRun("abc") == 0;
    NonNumericIsNaN("abc");
  }

  /** A lone sign is NaN. */
  lemma LoneSignIsNaN()
    ensures ToNumber(Str("+")) == NaN
  {
    TrimWithoutWhitespace("+");
    NonNumericIsNaN("+");
  }

  /** Two decimal points make NaN. */
  lemma TwoPointsIsNaN()
    ensures ToNumber(Str("1.2.3")) == NaN
  {
    TrimWithoutWhitespace("1.2.3");
    assert DigitRun("2.3") == 1;
    assert !IsExponent(".3");
    NonNumericIsNaN("1.2.3");
  }

  /** A hexadecimal literal may not carry a sign. */
  lemma SignedHexIsNaN()
    ensures ToNumber(Str("-0x10")) == NaN
  {
    TrimWithoutWhitespace("-0x10");
    assert DigitRun("0x10") == 1;
    NonNumericIsNaN("-0x10");
  }

  /** Numeric text in a syntax other than a signed decimal integer is kept as text. */
  lemma OtherSyntaxIsKept(s: string)
    requires Trim(s) == s && s != "" && IsNumericText(s) && !IsSignedDecimal(s)
    ensures ToNumber(Str(s)) == OtherString(s)
  {
    assert !IsBlank(s);
  }

  /** A fraction is numeric text of another syntax. */
  lemma FractionIsOtherSyntax()
    ensures ToNumber(Str("1.5")) == OtherString("1.5")
  {
    TrimWithoutWhitespace("1.5");
    assert DigitRun("1.5") == 1;
    assert DigitRun("5") == 1;
    OtherSyntaxIsKept("1.5");
  }

  /** Hexadecimal is numeric text of another syntax. */
  lemma HexIsOtherSyntax()
    ensures ToNumber(Str("0x1F")) == OtherString("0x1F")
  {
    TrimWithoutWhitespace("0x1F");
    assert DigitRun("0x1F") == 1;
    OtherSyntaxIsKept("0x1F");
  }

  /** The decimal text of a number converts back to the number: "7" becomes 7. */
  lemma DecimalStringConverts(n: nat)
    ensures ToNumber(Str(DecimalString(n))) == Int(n)
  {
    var d := DecimalString(n);
    TrimWithoutWhitespace(d);
    DecimalRoundTrip(n);
  }
}
