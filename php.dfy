/** The parts of PHP's semantics the SDK relies on. */
module Php {
  import opened Wrappers
  import opened Json
  import opened Errors

  /** `empty($s)` for a string: true for "" and also for "0". */
  predicate Empty(s: string) {
    s == "" || s == "0"
  }

  /**
   * `round($x)` to the nearest integer, halves rounded away from zero, on an
   * exact real (the float representation error of `$amount * 100` is not modelled).
   */
  function RoundHalfAway(x: real): (r: int)
    ensures -0.5 <= r as real - x <= 0.5
    ensures r as real - x == 0.5 ==> x >= 0.0
    ensures x - r as real == 0.5 ==> x < 0.0
  {
    if x >= 0.0 then (x + 0.5).Floor else -((-x + 0.5).Floor)
  }

  /** A character of the class `[a-zA-Z0-9]`. */
  predicate IsAlnum(c: char) {
    'a' <= c <= 'z' || 'A' <= c <= 'Z' || '0' <= c <= '9'
  }

  predicate IsDigit(c: char) {
    '0' <= c <= '9'
  }

  predicate IsSpace(c: char) {
    c == ' ' || c == '\t' || c == '\n' || c == '\r' || c == '\U{0C}' || c == '\U{0B}'
  }

  /** The longest prefix of `s` made of decimal digits. */
  function DigitPrefix(s: string): (p: string)
    ensures forall i :: 0 <= i < |p| ==> IsDigit(p[i])
  {
    if s != [] && IsDigit(s[0]) then [s[0]] + DigitPrefix(s[1..]) else []
  }

  /** `DigitPrefix` is a prefix, and the longest one made of digits. */
  lemma {:induction false} DigitPrefixIsLongest(s: string)
    ensures var p := DigitPrefix(s); |p| <= |s| && p == s[..|p|] && (|p| < |s| ==> !IsDigit(s[|p|]))
  {
    if s != [] && IsDigit(s[0]) {
      DigitPrefixIsLongest(s[1..]);
    }
  }

  /** The value of a string of decimal digits. */
  function DigitsValue(d: string): (n: nat)
    requires forall i :: 0 <= i < |d| ==> IsDigit(d[i])
  {
    if d == [] then 0
    else
      assert IsDigit(d[|d| - 1]);
      DigitsValue(d[..|d| - 1]) * 10 + (d[|d| - 1] as int - '0' as int)
  }

  /** `s` without its leading white space. */
  function TrimStart(s: string): string {
    if s != [] && IsSpace(s[0]) then TrimStart(s[1..]) else s
  }

  /** `TrimStart` drops a prefix, and what is left does not start with white space. */
  lemma {:induction false} TrimStartIsSuffix(s: string)
    ensures var t := TrimStart(s); |t| <= |s| && t == s[|s| - |t|..] && (t != [] ==> !IsSpace(t[0]))
  {
    if s != [] && IsSpace(s[0]) {
      TrimStartIsSuffix(s[1..]);
    }
  }

  /**
   * `(int) $s`: leading white space, an optional sign and the digits that follow;
   * 0 when there are none. Exponent forms ("1e3") and saturation at the 64-bit
   * bounds are not modelled.
   */
  function IntOfString(s: string): int {
    var t := TrimStart(s);
    if t != [] && (t[0] == '-' || t[0] == '+') then
      var magnitude: int := DigitsValue(DigitPrefix(t[1..]));
      if t[0] == '-' then -magnitude else magnitude
    else DigitsValue(DigitPrefix(t))
  }

  /** `(int) $value` for a decoded JSON value. */
  function ToInt(j: Json): int {
    match j
    case JNull => 0
    case JBool(b) => if b then 1 else 0
    case JInt(n) => n
    case JString(s) => IntOfString(s)
    case JList(xs) => if |xs| == 0 then 0 else 1
    case JObject(m) => if |m| == 0 then 0 else 1
  }

  function DigitChar(d: nat): (c: char)
    requires d < 10
    ensures IsDigit(c) && c as int - '0' as int == d
  {
    ('0' as int + d) as char
  }

  /** The decimal digits of a natural number, without leading zeros. */
  function Digits(n: nat): (d: string)
    ensures |d| > 0
    ensures forall i :: 0 <= i < |d| ==> IsDigit(d[i])
  {
    if n < 10 then [DigitChar(n)] else Digits(n / 10) + [DigitChar(n % 10)]
  }

  /** How PHP writes an integer when it converts it to a string. */
  function DecimalString(n: int): string {
    if n < 0 then "-" + Digits(-n) else Digits(n)
  }

  /**
   * The string a decoded JSON value becomes in a concatenation or a `%s` of sprintf:
   * true is "1", false and null are "", an array is "Array".
   */
  function Render(j: Json): string {
    match j
    case JNull => ""
    case JBool(b) => if b then "1" else ""
    case JInt(n) => DecimalString(n)
    case JString(s) => s
    case JList(_) => "Array"
    case JObject(_) => "Array"
  }

  /**
   * Assigning `$data[$key] ?? null` to a property of type `?string` under
   * strict_types: null stays null, a string is kept, anything else is a \TypeError.
   */
  function NullableString(v: Option<Json>, property: string): (r: Result<Option<string>, Throwable>)
    ensures r == Success(None) <==> v.None?
    ensures forall s :: r == Success(Some(s)) <==> v == Some(JString(s))
    ensures r.Failure? <==> v.Some? && !v.value.JString?
    ensures r.Failure? ==> r.error == TypeError(property)
  {
    match v
    case None => Success(None)
    case Some(JString(s)) => Success(Some(s))
    case Some(_) => Failure(TypeError(property))
  }

  /** `isset($data[$key]) ? (int) $data[$key] : null` */
  function NullableInt(v: Option<Json>): (r: Option<int>)
    ensures r.None? <==> v.None?
    ensures v.Some? ==> r.value == ToInt(v.value)
  {
    match v
    case None => None
    case Some(j) => Some(ToInt(j))
  }

  /** The digits of n read back give n. */
  lemma {:induction false} DigitsValueOfDigits(n: nat)
    ensures DigitsValue(Digits(n)) == n
  {
    if n >= 10 {
      DigitsValueOfDigits(n / 10);
      var d := Digits(n / 10) + [DigitChar(n % 10)];
      assert d[..|d| - 1] == Digits(n / 10);
    }
  }

  lemma {:induction false} DigitPrefixOfDigits(d: string)
    requires forall i :: 0 <= i < |d| ==> IsDigit(d[i])
    ensures DigitPrefix(d) == d
  {
    if d != [] {
      DigitPrefixOfDigits(d[1..]);
    }
  }

  lemma ReadDigits(d: string)
    requires d != [] && forall i :: 0 <= i < |d| ==> IsDigit(d[i])
    ensures IntOfString(d) == DigitsValue(d)
  {
    assert IsDigit(d[0]);
    assert !IsSpace(d[0]);
    assert TrimStart(d) == d;
    DigitPrefixOfDigits(d);
    assert d[0] != '-' && d[0] != '+';
  }

  lemma ReadNegativeDigits(d: string)
    requires d != [] && forall i :: 0 <= i < |d| ==> IsDigit(d[i])
    ensures IntOfString("-" + d) == -(DigitsValue(d) as int)
  {
    var t := "-" + d;
    assert t[0] == '-' && !IsSpace(t[0]);
    assert TrimStart(t) == t;
    assert t[1..] == d;
    DigitPrefixOfDigits(d);
  }

  /** The cast `(int)` undoes PHP's conversion of an integer to a string. */
  lemma IntOfDecimalString(n: int)
    ensures IntOfString(DecimalString(n)) == n
  {
    if n < 0 {
      DigitsValueOfDigits(-n);
      ReadNegativeDigits(Digits(-n));
    } else {
      DigitsValueOfDigits(n);
      ReadDigits(Digits(n));
    }
  }
}
