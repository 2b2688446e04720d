/**
 * Decimal conversion between numbers and strings: JavaScript's `n.toString()`
 * on integers and the global `parseInt(s)` without a radix.
 */
module Decimal {
  import opened Wrappers

  predicate IsDigit(c: char)
  {
    '0' <= c <= '9'
  }

  predicate AllDigits(s: string)
  {
    forall i :: 0 <= i < |s| ==> IsDigit(s[i])
  }

  function DigitChar(d: nat): (c: char)
    requires d < 10
    ensures IsDigit(c)
  {
    ('0' as int + d) as char
  }

  function DigitValue(c: char): (d: nat)
    requires IsDigit(c)
    ensures d < 10 && DigitChar(d) == c
  {
    c as int - '0' as int
  }

  /** `n.toString()` for a non-negative integer: its decimal digits, without leading zeros. */
  function NatToString(n: nat): (r: string)
    ensures |r| >= 1 && AllDigits(r)
    ensures r[0] == '0' ==> n == 0 && |r| == 1
    decreases n
  {
    if n < 10 then [DigitChar(n)] else NatToString(n / 10) + [DigitChar(n % 10)]
  }

  /** `n.toString()` for any integer: a minus sign before the digits of a negative number. */
  function IntToString(n: int): (r: string)
    ensures |r| >= 1
    ensures n >= 0 ==> r == NatToString(n)
    ensures n < 0 ==> r[0] == '-' && r[1..] == NatToString(-n)
  {
    if n < 0 then "-" + NatToString(-n) else NatToString(n)
  }

  /** The value of a string of decimal digits, most significant first. */
  function DigitsValue(ds: string): nat
    requires AllDigits(ds)
    decreases |ds|
  {
    if |ds| == 0 then 0 else DigitsValue(ds[..|ds| - 1]) * 10 + DigitValue(ds[|ds| - 1])
  }

  /** Reading the digits of `n` back gives `n`. */
  lemma {:induction false} DigitsValueOfNatToString(n: nat)
    ensures DigitsValue(NatToString(n)) == n
    decreases n
  {
    if n >= 10 {
      DigitsValueOfNatToString(n / 10);
      var s := NatToString(n);
      assert s[..|s| - 1] == NatToString(n / 10);
    }
  }

  /** `toString` is injective on non-negative integers. */
  lemma NatToStringInjective(a: nat, b: nat)
    requires NatToString(a) == NatToString(b)
    ensures a == b
  {
    DigitsValueOfNatToString(a);
    DigitsValueOfNatToString(b);
  }

  /** The whitespace characters `parseInt` skips (the ASCII ones). */
  predicate IsSpace(c: char)
  {
    c == ' ' || c == '\t' || c == '\n' || c == '\r' || c == '\U{000B}' || c == '\U{000C}'
  }

  function TrimStart(s: string): (r: string)
    ensures |r| <= |s| && r == s[|s| - |r|..]
    ensures |r| > 0 ==> !IsSpace(r[0])
    decreases |s|
  {
    if |s| > 0 && IsSpace(s[0]) then TrimStart(s[1..]) else s
  }

  /** The longest prefix of `s` that satisfies `isDigit` character by character. */
  function DigitPrefix(s: string, isDigit: char -> bool): (r: string)
    ensures |r| <= |s| && r == s[..|r|]
    ensures forall i :: 0 <= i < |r| ==> isDigit(r[i])
    ensures |r| < |s| ==> !isDigit(s[|r|])
    decreases |s|
  {
    if |s| > 0 && isDigit(s[0]) then [s[0]] + DigitPrefix(s[1..], isDigit) else ""
  }

  predicate IsHexDigit(c: char)
  {
    IsDigit(c) || 'a' <= c <= 'f' || 'A' <= c <= 'F'
  }

  function HexDigitValue(c: char): (d: nat)
    requires IsHexDigit(c)
    ensures d < 16
  {
    if IsDigit(c) then DigitValue(c)
    else if 'a' <= c <= 'f' then c as int - 'a' as int + 10
    else c as int - 'A' as int + 10
  }

  function HexValue(hs: string): nat
    requires forall i :: 0 <= i < |hs| ==> IsHexDigit(hs[i])
    decreases |hs|
  {
    if |hs| == 0 then 0 else HexValue(hs[..|hs| - 1]) * 16 + HexDigitValue(hs[|hs| - 1])
  }

  /** The digits after the sign: a `0x`/`0X` prefix selects hexadecimal, otherwise decimal. */
  function ParseUnsigned(u: string): Option<nat>
  {
    if |u| >= 2 && u[0] == '0' && (u[1] == 'x' || u[1] == 'X') then
      var hs := DigitPrefix(u[2..], IsHexDigit);
      if |hs| == 0 then None else Some(HexValue(hs))
    else
      var ds := DigitPrefix(u, IsDigit);
      if |ds| == 0 then None else Some(DigitsValue(ds))
  }

  /** The sign and digits once the leading white space is gone. */
  function ParseSigned(t: string): Option<int>
  {
    if |t| > 0 && t[0] == '-' then
      match ParseUnsigned(t[1..])
      case Some(v) => Some(0 - v as int)
      case None => None
    else if |t| > 0 && t[0] == '+' then
      match ParseUnsigned(t[1..])
      case Some(v) => Some(v)
      case None => None
    else
      match ParseUnsigned(t)
      case Some(v) => Some(v)
      case None => None
  }

  /**
   * `parseInt(s)`: skip leading white space, read an optional sign, then the
   * longest run of digits; the rest of the string is ignored. `None` is `NaN`
   * (no digit at all).
   */
  function ParseInt(s: string): Option<int>
  {
    ParseSigned(TrimStart(s))
  }

  /** The digit run of a string of digits followed by a non-digit is those digits. */
  lemma {:induction false} DigitPrefixOfDigits(ds: string, rest: string)
    requires AllDigits(ds)
    requires |rest| == 0 || !IsDigit(rest[0])
    ensures DigitPrefix(ds + rest, IsDigit) == ds
    decreases |ds|
  {
    if |ds| > 0 {
      DigitPrefixOfDigits(ds[1..], rest);
      assert (ds + rest)[1..] == ds[1..] + rest;
      assert [ds[0]] + ds[1..] == ds;
    } else {
      assert ds + rest == rest;
    }
  }

  /** `parseInt(n.toString())` is `n` for every integer `n`. */
  lemma ParseIntOfIntToString(n: int)
    ensures ParseInt(IntToString(n)) == Some(n)
  {
    if n < 0 {
      assert IntToString(n) == "-" + NatToString(-n);
      ParseIntOfNegative(-n);
    } else {
      assert IntToString(n) == NatToString(n) == NatToString(n) + "";
      ParseIntOfNatToStringThen(n, "");
    }
  }

  /** White space alone, or nothing, is `NaN`. */
  lemma ParseIntOfBlank(s: string)
    requires TrimStart(s) == ""
    ensures ParseInt(s) == None
  {
  }

  /** A non-empty string of decimal digits reads as their value. */
  lemma ParseIntOfDigits(s: string)
    requires |s| > 0 && AllDigits(s)
    ensures ParseInt(s) == Some(DigitsValue(s))
  {
    ParseIntFromDigit(s);
    DigitPrefixOfDigits(s, "");
    assert s + "" == s;
  }

  /** A minus sign before the digits of `m` reads as `-m`. */
  lemma ParseIntOfNegative(m: nat)
    ensures ParseInt("-" + NatToString(m)) == Some(0 - m)
  {
    var u := NatToString(m);
    var s := "-" + u;
    assert TrimStart(s) == s;
    assert u + "" == u;
    ParseUnsignedOfNatToString(m, "");
    assert s[1..] == u;
  }

  /** `parseInt` skips a leading white-space character. */
  lemma ParseIntSkipsSpace(s: string)
    requires |s| > 0 && IsSpace(s[0])
    ensures ParseInt(s) == ParseInt(s[1..])
  {
    assert TrimStart(s) == TrimStart(s[1..]);
  }

  /** `parseInt` of a space, the digits of `n` and text as above is `n`. */
  lemma ParseIntOfSpacedNatToString(n: nat, rest: string)
    requires |rest| == 0 || (!IsDigit(rest[0]) && rest[0] != 'x' && rest[0] != 'X')
    ensures ParseInt(" " + NatToString(n) + rest) == Some(n)
  {
    var t := NatToString(n) + rest;
    assert (" " + t)[1..] == t;
    assert " " + NatToString(n) + rest == " " + t;
    ParseIntSkipsSpace(" " + t);
    ParseIntOfNatToStringThen(n, rest);
  }

  /** A string that starts with a digit has no white space or sign for `parseInt` to skip. */
  lemma ParseIntFromDigit(s: string)
    requires |s| > 0 && IsDigit(s[0])
    ensures ParseInt(s) == ParseUnsigned(s)
  {
    assert TrimStart(s) == s;
    assert s[0] != '-' && s[0] != '+';
  }

  /**
   * The digits of `m` followed by text that starts with neither a digit nor an
   * `x` read back as `m`: `parseInt` stops at the first non-digit.
   */
  lemma ParseUnsignedOfNatToString(m: nat, rest: string)
    requires |rest| == 0 || (!IsDigit(rest[0]) && rest[0] != 'x' && rest[0] != 'X')
    ensures ParseUnsigned(NatToString(m) + rest) == Some(m)
  {
    var digits := NatToString(m);
    DigitPrefixOfDigits(digits, rest);
    DigitsValueOfNatToString(m);
    var u := digits + rest;
    if |u| >= 2 && u[0] == '0' {
      assert |digits| == 1 && u[1] == rest[0];
    }
  }

  /** `parseInt` of the digits of `n` followed by such text is `n`. */
  lemma ParseIntOfNatToStringThen(n: nat, rest: string)
    requires |rest| == 0 || (!IsDigit(rest[0]) && rest[0] != 'x' && rest[0] != 'X')
    ensures ParseInt(NatToString(n) + rest) == Some(n)
  {
    ParseIntFromDigit(NatToString(n) + rest);
    ParseUnsignedOfNatToString(n, rest);
  }
}
