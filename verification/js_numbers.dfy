/** The slice of JavaScript number semantics the integer-id handlers depend on:
    `parseInt(value)` on a checkbox value, `===`/`!==` between the parsed numbers, and
    `String(n)`, which is how React writes a numeric id into the checkbox's `value`.
    Only integral numbers are modelled; `NaN` is kept because `parseInt` produces it. */
module JsNumbers {

  /** An integral JavaScript number, or `NaN`. */
  datatype JsNumber = Int(value: int) | NaN

  /** `a === b` on numbers: `NaN` is equal to nothing, not even itself. */
  function StrictEquals(a: JsNumber, b: JsNumber): (eq: bool)
    ensures a.NaN? || b.NaN? ==> !eq
    ensures a.Int? && b.Int? ==> (eq <==> a == b)
  {
    a.Int? && b.Int? && a.value == b.value
  }

  /** JavaScript falsiness of a number: `0` and `NaN`. */
  function Falsy(n: JsNumber): (falsy: bool)
    ensures falsy <==> n == Int(0) || n == NaN
  {
    n.NaN? || n.value == 0
  }

  /** The characters `parseInt` skips before the number: white space and line terminators. */
  predicate IsWhiteSpace(c: char) {
    || c == '\t' || c == '\n' || c == '\U{B}' || c == '\U{C}' || c == '\r' || c == ' '
    || c == '\U{A0}' || c == '\U{1680}' || ('\U{2000}' <= c <= '\U{200A}') || c == '\U{2028}'
    || c == '\U{2029}' || c == '\U{202F}' || c == '\U{205F}' || c == '\U{3000}' || c == '\U{FEFF}'
  }

  /** The string with its leading white space removed. */
  function TrimStart(s: string): (r: string)
    ensures |r| <= |s| && r == s[|s| - |r|..]
    ensures r == [] || !IsWhiteSpace(r[0])
    ensures forall i :: 0 <= i < |s| - |r| ==> IsWhiteSpace(s[i])
  {
    if s != [] && IsWhiteSpace(s[0]) then TrimStart(s[1..]) else s
  }

  /** The value of `c` as a digit, or -1 when it is not one (letters count up to `f`). */
  function DigitValue(c: char): (d: int)
    ensures -1 <= d < 16
  {
    if '0' <= c <= '9' then c as int - '0' as int
    else if 'a' <= c <= 'f' then c as int - 'a' as int + 10
    else if 'A' <= c <= 'F' then c as int - 'A' as int + 10
    else -1
  }

  predicate IsDigit(c: char, radix: nat) {
    0 <= DigitValue(c) < radix
  }

  /** The longest prefix of `s` made of digits in `radix`. */
  function DigitPrefix(s: string, radix: nat): (r: string)
    ensures r <= s
    ensures forall i :: 0 <= i < |r| ==> IsDigit(r[i], radix)
    ensures |r| == |s| || !IsDigit(s[|r|], radix)
  {
    if s != [] && IsDigit(s[0], radix) then [s[0]] + DigitPrefix(s[1..], radix) else []
  }

  /** The number the digit string `s` denotes in `radix`, most significant digit first. */
  function ValueOf(s: string, radix: nat): int
    requires forall i :: 0 <= i < |s| ==> IsDigit(s[i], radix)
  {
    if s == [] then 0
    else
      var init := s[..|s| - 1];
      assert forall i :: 0 <= i < |init| ==> IsDigit(init[i], radix) by {
        forall i | 0 <= i < |init| ensures IsDigit(init[i], radix) {
          assert init[i] == s[i];
        }
      }
      ValueOf(init, radix) * radix + DigitValue(s[|s| - 1])
  }

  /** A non-empty string of decimal digits, with no sign and no white space. */
  predicate IsNumeral(s: string) {
    s != [] && forall i :: 0 <= i < |s| ==> IsDigit(s[i], 10)
  }

  /** `parseInt(s)` with no radix argument: skip white space, read an optional sign, read
      `0x`/`0X` as a switch to base 16, then as many digits as follow; `NaN` when there are none. */
  function ParseInt(s: string): (r: JsNumber)
    ensures TrimStart(s) == [] ==> r == NaN
    ensures IsNumeral(s) ==> r == Int(ValueOf(s, 10))
  {
    NumeralParses(s);
    ParseTrimmed(TrimStart(s))
  }

  /** `parseInt` after the leading white space is gone. */
  function ParseTrimmed(trimmed: string): JsNumber {
    var unsigned := Unsigned(trimmed);
    var radix := Radix(unsigned);
    var digits := DigitPrefix(Unprefixed(unsigned), radix);
    if digits == [] then NaN
    else if trimmed[0] == '-' then Int(-ValueOf(digits, radix))
    else Int(ValueOf(digits, radix))
  }

  /** The string after its optional leading sign. */
  function Unsigned(s: string): string {
    if s != [] && (s[0] == '-' || s[0] == '+') then s[1..] else s
  }

  predicate HasHexPrefix(s: string) {
    |s| >= 2 && s[0] == '0' && (s[1] == 'x' || s[1] == 'X')
  }

  function Radix(s: string): nat {
    if HasHexPrefix(s) then 16 else 10
  }

  function Unprefixed(s: string): string {
    if HasHexPrefix(s) then s[2..] else s
  }

  /** The decimal numeral of `n`: the digits of `String(n)` for non-negative integral `n`. */
  function Decimal(n: nat): (r: string)
    ensures r != []
    ensures forall i :: 0 <= i < |r| ==> IsDigit(r[i], 10)
  {
    var last := ['0' + (n % 10) as char];
    if n < 10 then last else Decimal(n / 10) + last
  }

  /** `String(n)` for an integral number. */
  function NumberToString(n: int): (r: string)
    ensures r != [] && (r[0] == '-' <==> n < 0)
    ensures forall i :: (if n < 0 then 1 else 0) <= i < |r| ==> IsDigit(r[i], 10)
  {
    if n < 0 then "-" + Decimal(-n) else Decimal(n)
  }

  lemma {:induction false} DecimalValue(n: nat)
    ensures ValueOf(Decimal(n), 10) == n
    decreases n
  {
    var d := Decimal(n);
    if n >= 10 {
      DecimalValue(n / 10);
      assert d[..|d| - 1] == Decimal(n / 10);
    }
  }

  /** A numeral never carries the `0x` prefix: its second character is a decimal digit. */
  lemma DecimalIsNotHex(n: nat)
    ensures !HasHexPrefix(Decimal(n))
  {
    var d := Decimal(n);
    if |d| >= 2 {
      assert IsDigit(d[1], 10);
    }
  }

  lemma {:induction false} DigitPrefixOfDigits(s: string, radix: nat)
    requires forall i :: 0 <= i < |s| ==> IsDigit(s[i], radix)
    ensures DigitPrefix(s, radix) == s
    decreases |s|
  {
    if s != [] {
      DigitPrefixOfDigits(s[1..], radix);
    }
  }

  /** `parseInt` reads a decimal numeral, with or without a minus sign, as its value. */
  lemma ParseTrimmedNumeral(d: string, negative: bool)
    requires d != [] && forall i :: 0 <= i < |d| ==> IsDigit(d[i], 10)
    requires !HasHexPrefix(d)
    ensures ParseTrimmed(if negative then "-" + d else d)
         == Int(if negative then -ValueOf(d, 10) else ValueOf(d, 10))
  {
    var t := if negative then "-" + d else d;
    assert IsDigit(d[0], 10);
    assert Unsigned(t) == d by {
      if negative {
        assert t[1..] == d;
      }
    }
    assert Radix(d) == 10 && Unprefixed(d) == d;
    DigitPrefixOfDigits(d, 10);
    assert t[0] == '-' <==> negative;
  }

  lemma TrimStartKeeps(s: string)
    requires s != [] && (s[0] == '-' || IsDigit(s[0], 10))
    ensures TrimStart(s) == s
  {
  }

  /** A plain decimal numeral, with no white space or sign, reads as its value. */
  lemma NumeralParses(s: string)
    ensures IsNumeral(s) ==> ParseTrimmed(TrimStart(s)) == Int(ValueOf(s, 10))
  {
    if IsNumeral(s) {
      assert IsDigit(s[0], 10);
      TrimStartKeeps(s);
      if |s| >= 2 {
        assert IsDigit(s[1], 10);
      }
      ParseTrimmedNumeral(s, false);
    }
  }

  /** Reading back the string React writes for an integral id yields that id:
      the checkbox value round-trips through `String` and `parseInt`. */
  lemma ParseIntInvertsNumberToString(n: int)
    ensures ParseInt(NumberToString(n)) == Int(n)
  {
    var m: nat := if n < 0 then -n else n;
    var d := Decimal(m);
    DecimalIsNotHex(m);
    DecimalValue(m);
    ParseTrimmedNumeral(d, n < 0);
    assert IsDigit(d[0], 10);
    TrimStartKeeps(NumberToString(n));
  }
}
