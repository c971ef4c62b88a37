/**
 * The global `parseInt(string)` of JavaScript (section 19.2.5 of ECMA-262), called with no
 * radix: leading white space is skipped, one sign is read, a "0x"/"0X" prefix selects radix 16
 * (radix 10 otherwise), and the longest run of digits that follows is the value; no digits at
 * all gives NaN. So `parseInt("10000.00")` is 10000: the digits stop at the point.
 */
module JsParseInt {
  import opened Js

  /** StrWhiteSpaceChar: the WhiteSpace (TAB, VT, FF, ZWNBSP, every Zs) and LineTerminator code points. */
  predicate IsStrWhiteSpace(c: char)
  {
    c == '\t' || c == '\n' || c == '\U{B}' || c == '\U{C}' || c == '\r' || c == ' ' ||
    c == '\U{A0}' || c == '\U{1680}' || ('\U{2000}' <= c <= '\U{200A}') ||
    c == '\U{2028}' || c == '\U{2029}' || c == '\U{202F}' || c == '\U{205F}' ||
    c == '\U{3000}' || c == '\U{FEFF}'
  }

  /** The value of `c` as a digit of a radix up to 36 (0-9, then a-z or A-Z), or 36 when it is no digit. */
  function DigitValue(c: char): (d: nat)
    ensures d <= 36
    ensures d < 10 <==> '0' <= c <= '9'
  {
    if '0' <= c <= '9' then c as int - '0' as int
    else if 'a' <= c <= 'z' then c as int - 'a' as int + 10
    else if 'A' <= c <= 'Z' then c as int - 'A' as int + 10
    else 36
  }

  /** The length of the white space that `s` starts with. */
  function WhiteSpaceRun(s: string): (n: nat)
    ensures n <= |s|
    ensures forall i :: 0 <= i < n ==> IsStrWhiteSpace(s[i])
    ensures n < |s| ==> !IsStrWhiteSpace(s[n])
  {
    if s != [] && IsStrWhiteSpace(s[0]) then 1 + WhiteSpaceRun(s[1..]) else 0
  }

  /** `s` without its leading white space. */
  function TrimStart(s: string): (t: string)
    ensures |t| <= |s| && t == s[|s| - |t|..]
    ensures t == [] || !IsStrWhiteSpace(t[0])
    ensures forall i :: 0 <= i < |s| - |t| ==> IsStrWhiteSpace(s[i])
  {
    s[WhiteSpaceRun(s)..]
  }

  /** The length of the longest prefix of `s` made of digits of `radix`. */
  function DigitRun(s: string, radix: nat): (n: nat)
    ensures n <= |s|
    ensures forall i :: 0 <= i < n ==> DigitValue(s[i]) < radix
    ensures n < |s| ==> DigitValue(s[n]) >= radix
  {
    if s != [] && DigitValue(s[0]) < radix then 1 + DigitRun(s[1..], radix) else 0
  }

  /** The number that the digit string `ds` denotes in `radix`, most significant digit first. */
  function DigitsValue(ds: string, radix: nat): nat
  {
    if ds == [] then 0 else DigitsValue(ds[..|ds| - 1], radix) * radix + DigitValue(ds[|ds| - 1])
  }

  /**
   * A number comes only from a string that is not blank, and a negative one only from a
   * string whose first non-blank character is '-'.
   */
  function ParseInt(s: string): (r: Number)
    ensures r.Int? ==> TrimStart(s) != []
    ensures r.Int? && r.value < 0 ==> TrimStart(s)[0] == '-'
  {
    var t := TrimStart(s);
    if t != [] && t[0] == '-' then Negate(ParseUnsigned(t[1..]))
    else if t != [] && t[0] == '+' then ParseUnsigned(t[1..])
    else ParseUnsigned(t)
  }

  /** What follows the sign: a "0x"/"0X" prefix selects radix 16, radix 10 otherwise. */
  function ParseUnsigned(u: string): (r: Number)
    ensures r.Int? ==> r.value >= 0
  {
    if |u| >= 2 && u[0] == '0' && (u[1] == 'x' || u[1] == 'X') then ParseDigits(u[2..], 16)
    else ParseDigits(u, 10)
  }

  /** The value of the leading digit run of `z`, or NaN when there is none. */
  function ParseDigits(z: string, radix: nat): (r: Number)
    ensures r.NaN? <==> z == [] || DigitValue(z[0]) >= radix
  {
    var n := DigitRun(z, radix);
    if n == 0 then NaN else Int(DigitsValue(z[..n], radix))
  }

  /** The decimal numeral of `n` with no leading zeros, as `String(n)` writes it. */
  function DecimalString(n: nat): (s: string)
  {
    if n < 10 then ['0' + n as char] else DecimalString(n / 10) + ['0' + (n % 10) as char]
  }

  /** A decimal numeral is a non-empty run of decimal digits, starting with '0' only for zero, denoting `n`. */
  lemma {:induction false} DecimalStringDigits(n: nat)
    ensures |DecimalString(n)| >= 1
    ensures forall i :: 0 <= i < |DecimalString(n)| ==> DigitValue(DecimalString(n)[i]) < 10
    ensures DecimalString(n)[0] == '0' ==> n == 0
    ensures DigitsValue(DecimalString(n), 10) == n
  {
    var s := DecimalString(n);
    if n >= 10 {
      DecimalStringDigits(n / 10);
      assert s[..|s| - 1] == DecimalString(n / 10);
    }
  }

  /** White space in front of a string does not change what `parseInt` reads. */
  lemma ParseIntSkipsWhiteSpace(ws: string, s: string)
    requires forall i :: 0 <= i < |ws| ==> IsStrWhiteSpace(ws[i])
    ensures ParseInt(ws + s) == ParseInt(s)
  {
    TrimStartSkips(ws, s);
  }

  lemma TrimStartSkips(ws: string, s: string)
    requires forall i :: 0 <= i < |ws| ==> IsStrWhiteSpace(ws[i])
    ensures TrimStart(ws + s) == TrimStart(s)
  {
    WhiteSpaceRunSkips(ws, s);
    assert (ws + s)[|ws| + WhiteSpaceRun(s)..] == s[WhiteSpaceRun(s)..];
  }

  /** Leading white space adds its own length to the white-space run. */
  lemma {:induction false} WhiteSpaceRunSkips(ws: string, s: string)
    requires forall i :: 0 <= i < |ws| ==> IsStrWhiteSpace(ws[i])
    ensures WhiteSpaceRun(ws + s) == |ws| + WhiteSpaceRun(s)
  {
    if ws == [] {
      assert ws + s == s;
    } else {
      assert (ws + s)[0] == ws[0];
      assert (ws + s)[1..] == ws[1..] + s;
      WhiteSpaceRunSkips(ws[1..], s);
    }
  }

  /** The digit run of a numeral followed by a non-digit is the numeral itself. */
  lemma {:induction false} DigitRunStopsAt(ds: string, rest: string, radix: nat)
    requires forall i :: 0 <= i < |ds| ==> DigitValue(ds[i]) < radix
    requires rest == [] || DigitValue(rest[0]) >= radix
    ensures DigitRun(ds + rest, radix) == |ds|
  {
    if ds != [] {
      assert (ds + rest)[0] == ds[0];
      assert (ds + rest)[1..] == ds[1..] + rest;
      DigitRunStopsAt(ds[1..], rest, radix);
    }
  }

  /** The unsigned part: the numeral, then anything that does not start with a digit or a hex marker. */
  lemma ParseUnsignedDecimal(n: nat, rest: string)
    requires rest == [] || (DigitValue(rest[0]) >= 10 && (n != 0 || (rest[0] != 'x' && rest[0] != 'X')))
    ensures ParseUnsigned(DecimalString(n) + rest) == Int(n)
  {
    var ds := DecimalString(n);
    DecimalStringDigits(n);
    DigitRunStopsAt(ds, rest, 10);
    var s := ds + rest;
    assert s[0] == ds[0];
    assert |ds| == 1 ==> |s| >= 2 ==> s[1] == rest[0];
    assert |ds| >= 2 ==> s[1] == ds[1];
    assert s[..|ds|] == ds;
  }

  /**
   * `parseInt` reads back a decimal numeral, with or without a minus sign, and ignores whatever
   * follows it once that starts with a non-digit (the ".00" of "10000.00"). The one exception is
   * the numeral "0" followed by 'x' or 'X', which `parseInt` takes as a hexadecimal prefix.
   */
  lemma ParseIntDecimal(n: nat, rest: string)
    requires rest == [] || (DigitValue(rest[0]) >= 10 && (n != 0 || (rest[0] != 'x' && rest[0] != 'X')))
    ensures ParseInt(DecimalString(n) + rest) == Int(n)
    ensures ParseInt("-" + (DecimalString(n) + rest)) == Int(-(n as int))
  {
    NumeralStartsWithDigit(n, rest);
    ParseUnsignedDecimal(n, rest);
    ParseIntOfNumeral(DecimalString(n) + rest, n);
  }

  lemma NumeralStartsWithDigit(n: nat, rest: string)
    ensures DecimalString(n) + rest != [] && '0' <= (DecimalString(n) + rest)[0] <= '9'
  {
    DecimalStringDigits(n);
    assert (DecimalString(n) + rest)[0] == DecimalString(n)[0];
  }

  /** A string that starts with a digit reads as its unsigned part, and negated after a '-'. */
  lemma ParseIntOfNumeral(s: string, v: nat)
    requires s != [] && '0' <= s[0] <= '9' && ParseUnsigned(s) == Int(v)
    ensures ParseInt(s) == Int(v)
    ensures ParseInt("-" + s) == Int(-(v as int))
  {
    ParseIntOfPlain(s);
    ParseIntOfNegative(s);
  }

  lemma ParseIntOfPlain(s: string)
    requires s != [] && '0' <= s[0] <= '9'
    ensures ParseInt(s) == ParseUnsigned(s)
  {
    TrimStartOfNonBlank(s);
  }

  lemma ParseIntOfNegative(s: string)
    ensures ParseInt("-" + s) == Negate(ParseUnsigned(s))
  {
  }

  lemma TrimStartOfNonBlank(s: string)
    requires s != [] && ('0' <= s[0] <= '9' || s[0] == '-')
    ensures TrimStart(s) == s
  {
  }

  /**
   * A string whose first non-blank character is neither a sign nor a decimal digit (or that is
   * blank) parses to NaN: `ws` is the leading white space, `s` what follows it.
   */
  lemma ParseIntNoDigits(ws: string, s: string)
    requires forall i :: 0 <= i < |ws| ==> IsStrWhiteSpace(ws[i])
    requires s == [] || (!IsStrWhiteSpace(s[0]) && s[0] != '-' && s[0] != '+' && DigitValue(s[0]) >= 10)
    ensures ParseInt(ws + s) == NaN
  {
    ParseIntSkipsWhiteSpace(ws, s);
  }

  /** "10000" and "10000.00" both read as 10000: the digits stop at the decimal point. */
  lemma ParseIntTenThousand()
    ensures ParseInt("10000") == Int(10000)
    ensures ParseInt("10000.00") == Int(10000)
  {
    ParseDigitsTenThousand("");
    assert "10000" + "" == "10000";
    ParseDigitsTenThousand(".00");
    assert "10000" + ".00" == "10000.00";
    ParseIntOfPlain("10000");
    ParseIntOfPlain("10000.00");
  }

  /** The numeral "10000", followed by anything that does not start with a digit, reads as 10000. */
  lemma ParseDigitsTenThousand(rest: string)
    requires rest == [] || DigitValue(rest[0]) >= 10
    ensures ParseDigits("10000" + rest, 10) == Int(10000)
  {
    DigitRunStopsAt("10000", rest, 10);
    assert ("10000" + rest)[..5] == "10000";
    assert DigitsValue("10000", 10) == 10000 by {
      assert "10000"[..4] == "1000";
      assert "1000"[..3] == "100";
      assert "100"[..2] == "10";
      assert "10"[..1] == "1";
      assert "1"[..0] == "";
    }
  }

  /** "0x1A" is read in radix 16. */
  lemma ParseIntHexPrefix()
    ensures ParseInt("0x1A") == Int(26)
  {
    ParseIntOfPlain("0x1A");
    assert ParseUnsigned("0x1A") == ParseDigits("1A", 16) by { assert "0x1A"[2..] == "1A"; }
    HexDigits1A();
  }

  lemma HexDigits1A()
    ensures ParseDigits("1A", 16) == Int(26)
  {
    assert DigitRun("1A", 16) == 2 by {
      assert "1A"[1..] == "A";
      assert "A"[1..] == "";
    }
    assert DigitsValue("1A", 16) == 26 by {
      assert "1A"[..1] == "1";
      assert "1"[..0] == "";
    }
    assert "1A"[..2] == "1A";
  }

  /** A hex prefix with no digits after it gives NaN. */
  lemma ParseIntBareHexPrefix()
    ensures ParseInt(" 0x") == NaN
  {
    assert TrimStart(" 0x") == "0x" by {
      assert " 0x"[1..] == "0x";
      TrimStartOfNonBlank("0x");
    }
    assert "0x"[2..] == "";
  }
}
