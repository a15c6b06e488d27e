/**
 * The pieces of JavaScript value semantics the handlers depend on:
 * `parseInt` applied to a request string (no radix argument), the decimal
 * rendering a template literal gives a non-negative integer, and the
 * truthiness of an optional string under `||`.
 */
module JsValues {
  import opened Options

  /** The WhiteSpace and LineTerminator code points that parseInt skips at the start. */
  predicate IsJsWhitespace(c: char) {
    || c == '\t' || c == '\n' || c == '\U{B}' || c == '\U{C}' || c == '\r' || c == ' '
    || c == '\U{A0}' || c == '\U{1680}' || ('\U{2000}' <= c <= '\U{200A}')
    || c == '\U{2028}' || c == '\U{2029}' || c == '\U{202F}' || c == '\U{205F}'
    || c == '\U{3000}' || c == '\U{FEFF}'
  }

  /** The value of `c` as a digit in `radix` (letters count from 10), if it is one. */
  function DigitValue(c: char, radix: nat): Option<nat>
  {
    var v: int :=
      if '0' <= c <= '9' then c as int - '0' as int
      else if 'a' <= c <= 'z' then c as int - 'a' as int + 10
      else if 'A' <= c <= 'Z' then c as int - 'A' as int + 10
      else -1;
    if 0 <= v < radix then Some(v) else None
  }

  predicate IsDigit(c: char, radix: nat) {
    DigitValue(c, radix).Some?
  }

  predicate AllDigits(s: string, radix: nat) {
    forall i :: 0 <= i < |s| ==> IsDigit(s[i], radix)
  }

  /** `s` without its leading JavaScript whitespace. */
  function TrimStart(s: string): (r: string)
    ensures |r| <= |s| && r == s[|s| - |r|..]
    ensures forall i :: 0 <= i < |s| - |r| ==> IsJsWhitespace(s[i])
    ensures r == [] || !IsJsWhitespace(r[0])
  {
    if s != [] && IsJsWhitespace(s[0]) then TrimStart(s[1..]) else s
  }

  /** The longest prefix of `s` made of `radix` digits. */
  function DigitPrefix(s: string, radix: nat): (r: string)
    ensures r <= s
    ensures AllDigits(r, radix)
    ensures |r| < |s| ==> !IsDigit(s[|r|], radix)
  {
    if s != [] && IsDigit(s[0], radix) then [s[0]] + DigitPrefix(s[1..], radix) else []
  }

  /** The number denoted by a string of `radix` digits, most significant first. */
  function DigitsValue(s: string, radix: nat): nat
    requires AllDigits(s, radix)
  {
    if s == [] then 0
    else DigitsValue(s[..|s| - 1], radix) * radix + DigitValue(s[|s| - 1], radix).value
  }

  /**
   * JavaScript `parseInt(s)` without a radix: leading whitespace is skipped,
   * one sign is accepted, a `0x`/`0X` prefix selects radix 16, and the
   * longest run of digits that follows is read; trailing text is ignored.
   * `None` stands for NaN (no digit at all).
   */
  function ParseInt(s: string): Option<int>
  {
    var t := TrimStart(s);
    if t != [] && t[0] == '-' then
      match ParseUnsigned(t[1..])
      case None => None
      case Some(v) => Some(-v)
    else if t != [] && t[0] == '+' then ParseUnsigned(t[1..])
    else ParseUnsigned(t)
  }

  /** parseInt after whitespace and sign: an optional `0x`/`0X` prefix, then digits. */
  function ParseUnsigned(u: string): Option<int>
  {
    var hex := |u| >= 2 && u[0] == '0' && (u[1] == 'x' || u[1] == 'X');
    var radix := if hex then 16 else 10;
    var digits := DigitPrefix(if hex then u[2..] else u, radix);
    if digits == [] then None else Some(DigitsValue(digits, radix))
  }

  function DigitChar(d: nat): (c: char)
    requires d < 10
    ensures DigitValue(c, 10) == Some(d)
  {
    ('0' as int + d) as char
  }

  /** The decimal rendering of a non-negative integer, as a template literal prints it. */
  function DecimalString(n: nat): string
  {
    if n < 10 then [DigitChar(n)] else DecimalString(n / 10) + [DigitChar(n % 10)]
  }

  /** The decimal rendering is a non-empty digit string, without a leading zero, that denotes `n`. */
  lemma {:induction false} DecimalStringDenotes(n: nat)
    ensures var r := DecimalString(n);
      && r != []
      && AllDigits(r, 10)
      && DigitsValue(r, 10) == n
      && (n > 0 ==> r[0] != '0')
  {
    var r := DecimalString(n);
    if n >= 10 {
      DecimalStringDenotes(n / 10);
      var p := DecimalString(n / 10);
      assert r == p + [DigitChar(n % 10)];
      assert r[..|r| - 1] == p;
    }
  }

  /** How many digits the decimal rendering of `n` has, for the sizes the handlers use. */
  lemma DecimalStringLength(n: nat)
    ensures n < 10 ==> |DecimalString(n)| == 1
    ensures 10 <= n < 100 ==> |DecimalString(n)| == 2
    ensures 100 <= n < 1000 ==> |DecimalString(n)| == 3
    ensures 1000 <= n < 10000 ==> |DecimalString(n)| == 4
    ensures 10000 <= n < 100000 ==> |DecimalString(n)| == 5
  {
    if n >= 10 {
      DecimalStringLength(n / 10);
    }
  }

  lemma {:induction false} DigitPrefixOfDigits(d: string, suffix: string, radix: nat)
    requires AllDigits(d, radix)
    requires suffix == [] || !IsDigit(suffix[0], radix)
    ensures DigitPrefix(d + suffix, radix) == d
  {
    if d != [] {
      assert (d + suffix)[1..] == d[1..] + suffix;
      DigitPrefixOfDigits(d[1..], suffix, radix);
    }
  }

  /** A decimal digit is a plain ASCII digit: not whitespace and not a sign. */
  lemma DecimalDigitIsPlain(c: char)
    requires IsDigit(c, 10)
    ensures '0' <= c <= '9'
    ensures !IsJsWhitespace(c) && c != '-' && c != '+'
  {
  }

  /**
   * parseInt reads back what DecimalString wrote, even with trailing text
   * that does not start with a digit (parseInt stops at the first non-digit).
   */
  lemma ParseIntDecimalString(n: nat, suffix: string)
    requires suffix == [] || !IsDigit(suffix[0], 10)
    requires n == 0 ==> suffix == []
    ensures ParseInt(DecimalString(n) + suffix) == Some(n)
  {
    var r := DecimalString(n);
    DecimalStringDenotes(n);
    var s := r + suffix;
    assert s[0] == r[0];
    DecimalDigitIsPlain(s[0]);
    assert TrimStart(s) == s;
    DigitPrefixOfDigits(r, suffix, 10);
    if n == 0 {
      assert s == "0";
    } else {
      assert s[0] != '0';
    }
    assert ParseUnsigned(s) == Some(n);
  }

  /** JavaScript truthiness of an optional string: a missing value and "" are falsy. */
  predicate Truthy(s: Option<string>) {
    s.Some? && s.value != ""
  }
}
