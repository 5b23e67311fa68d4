/**
 * The few JavaScript string primitives the core relies on, stated on
 * `seq<char>`: `String.prototype.trim`, the global `parseInt` with no radix
 * argument, and the decimal rendering of an integer that template literals
 * and `Number.prototype.toString` produce.
 */
module JsStrings {
  import opened Common

  /** The WhiteSpace and LineTerminator code points of ECMAScript, which `trim` and `parseInt` skip. */
  predicate IsJsWhitespace(c: char) {
    || c == '\t' || c == '\n' || c == '\U{000B}' || c == '\U{000C}' || c == '\r' || c == ' '
    || c == '\U{00A0}' || c == '\U{1680}' || ('\U{2000}' <= c <= '\U{200A}')
    || c == '\U{2028}' || c == '\U{2029}' || c == '\U{202F}' || c == '\U{205F}'
    || c == '\U{3000}' || c == '\U{FEFF}'
  }

  /** `s` with its leading whitespace removed. */
  function TrimStart(s: string): (r: string)
    ensures |r| <= |s| && r == s[|s| - |r|..]
    ensures forall i :: 0 <= i < |s| - |r| ==> IsJsWhitespace(s[i])
    ensures r != [] ==> !IsJsWhitespace(r[0])
  {
    if |s| > 0 && IsJsWhitespace(s[0]) then TrimStart(s[1..]) else s
  }

  /** `s` with its trailing whitespace removed. */
  function TrimEnd(s: string): (r: string)
    ensures |r| <= |s| && r == s[..|r|]
    ensures forall i :: |r| <= i < |s| ==> IsJsWhitespace(s[i])
    ensures r != [] ==> !IsJsWhitespace(r[|r| - 1])
  {
    if |s| > 0 && IsJsWhitespace(s[|s| - 1]) then TrimEnd(s[..|s| - 1]) else s
  }

  /**
   * `r` is the part of `s` starting at `k` with only whitespace on either
   * side of it in `s`.
   */
  predicate IsMiddleAt(s: string, k: int, r: string) {
    && 0 <= k && k + |r| <= |s| && r == s[k..k + |r|]
    && (forall i :: 0 <= i < k ==> IsJsWhitespace(s[i]))
    && (forall i :: k + |r| <= i < |s| ==> IsJsWhitespace(s[i]))
  }

  /**
   * `s.trim()`: the middle of `s` left after cutting whitespace only from
   * either end; it is empty exactly when `s` is blank, and otherwise neither
   * starts nor ends with whitespace.
   */
  function Trim(s: string): (r: string)
    ensures |r| <= |s|
    ensures exists k :: IsMiddleAt(s, k, r)
    ensures r == [] <==> forall i :: 0 <= i < |s| ==> IsJsWhitespace(s[i])
    ensures r != [] ==> !IsJsWhitespace(r[0]) && !IsJsWhitespace(r[|r| - 1])
  {
    var t := TrimStart(s);
    var r := TrimEnd(t);
    TrimIsMiddle(s, t, r);
    if r == [] then
      assert t == [];
      r
    else
      assert r[0] == t[0] == s[|s| - |t|];
      r
  }

  /** Cutting trailing whitespace off a suffix `t` of `s` leaves a middle part of `s`. */
  lemma TrimIsMiddle(s: string, t: string, r: string)
    requires |t| <= |s| && t == s[|s| - |t|..]
    requires |r| <= |t| && r == t[..|r|]
    requires forall i :: 0 <= i < |s| - |t| ==> IsJsWhitespace(s[i])
    requires forall i :: |r| <= i < |t| ==> IsJsWhitespace(t[i])
    ensures IsMiddleAt(s, |s| - |t|, r)
  {
    var k := |s| - |t|;
    forall i | k + |r| <= i < |s|
      ensures IsJsWhitespace(s[i])
    {
      assert s[i] == t[i - k];
    }
    assert r == s[k..k + |r|];
  }

  /** A string with no whitespace at either end is its own trim. */
  lemma TrimOfTrimmed(s: string)
    requires s != [] ==> !IsJsWhitespace(s[0]) && !IsJsWhitespace(s[|s| - 1])
    ensures Trim(s) == s
  {
    assert TrimStart(s) == s;
  }

  /** Trimming twice is trimming once. */
  lemma TrimIdempotent(s: string)
    ensures Trim(Trim(s)) == Trim(s)
  {
    TrimOfTrimmed(Trim(s));
  }

  // ---------------------------------------------------------------------
  // Decimal rendering of integers
  // ---------------------------------------------------------------------

  predicate IsDecimalDigit(c: char) {
    '0' <= c <= '9'
  }

  function DigitChar(d: nat): (c: char)
    requires d < 10
    ensures IsDecimalDigit(c) && DigitValue(c) == d
  {
    ('0' as int + d) as char
  }

  /** The shortest decimal numeral of `n`, as `String(n)` writes it. */
  function NatToString(n: nat): (r: string)
    ensures |r| >= 1
    ensures forall i :: 0 <= i < |r| ==> IsDecimalDigit(r[i])
    ensures n > 0 ==> r[0] != '0'
    ensures |r| == 1 <==> n < 10
  {
    if n < 10 then [DigitChar(n)] else NatToString(n / 10) + [DigitChar(n % 10)]
  }

  /**
   * `String(i)` for an integer below 1e21 in magnitude, which JavaScript
   * writes without an exponent: a minus sign before the magnitude when negative.
   */
  function IntToString(i: int): (r: string)
    ensures |r| >= 1
    ensures i >= 0 ==> r == NatToString(i)
    ensures i < 0 ==> r == "-" + NatToString(-i)
  {
    if i < 0 then "-" + NatToString(-i) else NatToString(i)
  }

  // ---------------------------------------------------------------------
  // parseInt(s) with no radix argument
  // ---------------------------------------------------------------------

  /** The value of `c` as a digit of a radix up to 36 (letters of either case count from 10), or -1. */
  function DigitValue(c: char): (v: int)
    ensures -1 <= v < 36
    ensures IsDecimalDigit(c) <==> 0 <= v < 10
  {
    if '0' <= c <= '9' then c as int - '0' as int
    else if 'a' <= c <= 'z' then c as int - 'a' as int + 10
    else if 'A' <= c <= 'Z' then c as int - 'A' as int + 10
    else -1
  }

  predicate IsDigitOf(c: char, radix: nat) {
    0 <= DigitValue(c) < radix
  }

  /** The longest prefix of `s` made of digits of `radix`. */
  function DigitPrefix(s: string, radix: nat): (z: string)
    ensures |z| <= |s| && z == s[..|z|]
    ensures forall i :: 0 <= i < |z| ==> IsDigitOf(z[i], radix)
    ensures |z| < |s| ==> !IsDigitOf(s[|z|], radix)
  {
    if |s| > 0 && IsDigitOf(s[0], radix) then [s[0]] + DigitPrefix(s[1..], radix) else []
  }

  /** The number that the digit string `z` denotes in `radix`. */
  function DigitsValue(z: string, radix: nat): (v: nat)
    requires forall i :: 0 <= i < |z| ==> IsDigitOf(z[i], radix)
  {
    if z == [] then 0
    else
      var init := z[..|z| - 1];
      assert forall i :: 0 <= i < |init| ==> init[i] == z[i];
      var high := DigitsValue(init, radix);
      var low := DigitValue(z[|z| - 1]);
      assert 0 <= low by {
        assert IsDigitOf(z[|z| - 1], radix);
      }
      assert high * radix >= 0 by {
        MulIsNatural(high, radix);
      }
      high * radix + low
  }

  lemma MulIsNatural(a: nat, b: nat)
    ensures a * b >= 0
  {
  }

  /** Whether `u` begins with the hexadecimal prefix `0x` or `0X`. */
  predicate HasHexPrefix(u: string) {
    |u| >= 2 && u[0] == '0' && (u[1] == 'x' || u[1] == 'X')
  }

  /**
   * `parseInt(s)`: skip leading whitespace, take one optional sign, switch to
   * radix 16 after a `0x` or `0X` prefix, then read the longest run of digits;
   * `None` stands for NaN (no digit at all). Whatever follows the digits is ignored.
   */
  function ParseInt(s: string): (r: Option<int>)
    ensures r.None? <==> var u := UnsignedPart(s); DigitPrefix(Unprefixed(u), Radix(u)) == []
  {
    var u := UnsignedPart(s);
    var z := DigitPrefix(Unprefixed(u), Radix(u));
    if z == [] then None
    else
      var magnitude: int := DigitsValue(z, Radix(u));
      Some(if IsNegative(s) then -magnitude else magnitude)
  }

  predicate IsNegative(s: string) {
    var t := TrimStart(s); |t| > 0 && t[0] == '-'
  }

  /** The text after leading whitespace and one optional sign. */
  function UnsignedPart(s: string): string {
    var t := TrimStart(s);
    if |t| > 0 && (t[0] == '-' || t[0] == '+') then t[1..] else t
  }

  function Radix(u: string): nat {
    if HasHexPrefix(u) then 16 else 10
  }

  function Unprefixed(u: string): string {
    if HasHexPrefix(u) then u[2..] else u
  }

  /** The digit prefix of a digit run followed by a non-digit is that run. */
  lemma {:induction false} DigitPrefixOfDigits(z: string, rest: string, radix: nat)
    requires forall i :: 0 <= i < |z| ==> IsDigitOf(z[i], radix)
    requires rest == [] || !IsDigitOf(rest[0], radix)
    ensures DigitPrefix(z + rest, radix) == z
  {
    if z == [] {
      assert z + rest == rest;
    } else {
      assert (z + rest)[1..] == z[1..] + rest;
      DigitPrefixOfDigits(z[1..], rest, radix);
    }
  }

  lemma {:induction false} DigitsValueOfNatToString(n: nat)
    ensures DigitsValue(NatToString(n), 10) == n
  {
    var r := NatToString(n);
    if n >= 10 {
      DigitsValueOfNatToString(n / 10);
      assert r[..|r| - 1] == NatToString(n / 10);
    }
  }

  lemma DigitIsNotWhitespace(c: char)
    requires IsDecimalDigit(c)
    ensures !IsJsWhitespace(c) && c != '-' && c != '+'
  {
  }

  /** A decimal numeral, by itself or followed by a space, starts outside any whitespace, sign or hex prefix. */
  lemma NumeralIsUnsigned(n: nat, rest: string)
    requires rest == [] || rest[0] == ' '
    ensures var s := NatToString(n) + rest;
      TrimStart(s) == s && UnsignedPart(s) == s && !HasHexPrefix(s)
  {
    var d := NatToString(n);
    var s := d + rest;
    assert IsDecimalDigit(s[0]) by {
      assert s[0] == d[0];
    }
    DigitIsNotWhitespace(s[0]);
    assert TrimStart(s) == s;
    assert !HasHexPrefix(s) by {
      if |s| >= 2 && s[0] == '0' {
        assert n == 0 by {
          assert d[0] == '0';
        }
        assert s[1] == rest[0];
      }
    }
  }

  /** A minus sign before a numeral is the sign `parseInt` reads; the numeral is what follows it. */
  lemma MinusNumeral(n: nat)
    ensures var s := "-" + NatToString(n);
      IsNegative(s) && UnsignedPart(s) == NatToString(n)
  {
    var s := "-" + NatToString(n);
    assert TrimStart(s) == s by {
      assert !IsJsWhitespace(s[0]);
    }
    assert s[1..] == NatToString(n);
  }

  /** `parseInt` reads a decimal numeral back, alone or before a space. */
  lemma ParseIntOfNumeral(n: nat, rest: string)
    requires rest == [] || rest[0] == ' '
    ensures ParseInt(NatToString(n) + rest) == Some(n)
  {
    NumeralIsUnsigned(n, rest);
    DigitPrefixOfDigits(NatToString(n), rest, 10);
    DigitsValueOfNatToString(n);
  }

  /** Reading back the decimal rendering of any integer gives the integer: `parseInt(String(i)) == i`. */
  lemma ParseIntOfIntToString(i: int)
    ensures ParseInt(IntToString(i)) == Some(i)
  {
    var m: nat := if i < 0 then -i else i;
    var d := NatToString(m);
    if i >= 0 {
      assert d + [] == d;
      ParseIntOfNumeral(m, []);
    } else {
      assert d + [] == d;
      ParseIntOfNumeral(m, []);
      NumeralIsUnsigned(m, []);
      MinusNumeral(m);
      assert UnsignedPart(IntToString(i)) == UnsignedPart(d);
    }
  }
}
