/**
 * String helpers shared by the server and the browser scripts: the
 * ECMAScript `String.prototype.trim`, `Array.prototype.join`, decimal
 * rendering of integers (`String(n)`) and `Number(s)` on integer text.
 */
module Text {
  import opened Wrappers

  /** The ECMAScript WhiteSpace and LineTerminator code points, which is what `trim` removes. */
  predicate IsSpace(c: char) {
    || c == '\t' || c == '\n' || c == '\U{000B}' || c == '\U{000C}' || c == '\r' || c == ' '
    || c == '\U{00A0}' || c == '\U{1680}' || ('\U{2000}' <= c <= '\U{200A}')
    || c == '\U{2028}' || c == '\U{2029}' || c == '\U{202F}' || c == '\U{205F}'
    || c == '\U{3000}' || c == '\U{FEFF}'
  }

  predicate AllSpace(s: string) {
    forall i :: 0 <= i < |s| ==> IsSpace(s[i])
  }

  /** Drops leading white space: the result is a suffix of `s` that does not start with a space. */
  function TrimStart(s: string): (r: string)
    ensures |r| <= |s| && r == s[|s| - |r|..]
    ensures AllSpace(s[..|s| - |r|])
    ensures r == [] || !IsSpace(r[0])
  {
    if s != [] && IsSpace(s[0]) then TrimStart(s[1..]) else s
  }

  /** Drops trailing white space: the result is a prefix of `s` that does not end with a space. */
  function TrimEnd(s: string): (r: string)
    ensures |r| <= |s| && r == s[..|r|]
    ensures AllSpace(s[|r|..])
    ensures r == [] || !IsSpace(r[|r| - 1])
  {
    if s != [] && IsSpace(s[|s| - 1]) then TrimEnd(s[..|s| - 1]) else s
  }

  /** `s.trim()` */
  function Trim(s: string): (r: string)
    ensures r == [] || (!IsSpace(r[0]) && !IsSpace(r[|r| - 1]))
  {
    var t := TrimStart(s);
    var r := TrimEnd(t);
    assert r != [] ==> r[0] == t[0];
    r
  }

  /** Trimming removes nothing from a string that neither starts nor ends with white space. */
  lemma {:induction false} TrimUnchanged(s: string)
    requires s == [] || (!IsSpace(s[0]) && !IsSpace(s[|s| - 1]))
    ensures Trim(s) == s
  {
  }

  /** A string trims to the empty string exactly when it is all white space. */
  lemma TrimEmptyIff(s: string)
    ensures Trim(s) == [] <==> AllSpace(s)
  {
    var t := TrimStart(s);
    if Trim(s) == [] {
      assert AllSpace(t[0..]);
      assert s == s[..|s| - |t|] + t;
    }
  }

  /** Trimming twice is trimming once. */
  lemma TrimIdempotent(s: string)
    ensures Trim(Trim(s)) == Trim(s)
  {
    TrimUnchanged(Trim(s));
  }

  /** `parts.join(sep)`: the empty list joins to the empty string. */
  function Join(parts: seq<string>, sep: string): string
  {
    if |parts| == 0 then ""
    else if |parts| == 1 then parts[0]
    else parts[0] + sep + Join(parts[1..], sep)
  }

  predicate IsDigit(c: char) {
    '0' <= c <= '9'
  }

  predicate AllDigits(s: string) {
    forall i :: 0 <= i < |s| ==> IsDigit(s[i])
  }

  function DigitChar(d: nat): (c: char)
    requires d < 10
    ensures IsDigit(c) && c as int - '0' as int == d
  {
    (d + '0' as int) as char
  }

  /** Decimal text of a natural number, without leading zeros. */
  function NatToDecimal(n: nat): (r: string)
    ensures |r| >= 1 && AllDigits(r)
    ensures r[0] == '0' ==> n == 0 && |r| == 1
  {
    if n < 10 then [DigitChar(n)] else NatToDecimal(n / 10) + [DigitChar(n % 10)]
  }

  /** `String(i)` for an integer. */
  function IntToDecimal(i: int): (r: string)
    ensures r != [] && !IsSpace(r[0]) && !IsSpace(r[|r| - 1])
  {
    if i < 0 then "-" + NatToDecimal(-i) else NatToDecimal(i)
  }

  /** The value of a non-empty run of decimal digits (leading zeros allowed). */
  function DigitsValue(s: string): nat
    requires AllDigits(s)
  {
    if s == [] then 0 else DigitsValue(s[..|s| - 1]) * 10 + (s[|s| - 1] as int - '0' as int)
  }

  /** Reading back the decimal text of `n` gives `n`. */
  lemma {:induction false} DigitsValueOfDecimal(n: nat)
    ensures DigitsValue(NatToDecimal(n)) == n
  {
    if n >= 10 {
      var r := NatToDecimal(n);
      assert r[..|r| - 1] == NatToDecimal(n / 10);
      DigitsValueOfDecimal(n / 10);
    }
  }

  /** An integer literal: an optional sign followed by decimal digits; anything else is None. */
  function ParseInteger(t: string): Option<int>
  {
    if |t| > 1 && (t[0] == '-' || t[0] == '+') && AllDigits(t[1..]) then
      var v: int := DigitsValue(t[1..]);
      Some(if t[0] == '-' then -v else v)
    else if t != [] && AllDigits(t) then Some(DigitsValue(t))
    else None
  }

  /**
   * `Number(s)` on text that is an integer literal: surrounding white space is
   * ignored, blank text is 0, an optional sign may precede the digits, and any
   * other text is NaN (None). JavaScript also reads fractions, exponents,
   * hexadecimal and `Infinity`; those read as NaN here.
   */
  function JsNumber(s: string): Option<int>
  {
    if AllSpace(s) then Some(0) else ParseInteger(Trim(s))
  }

  /** `Number(String(i)) == i`: reading back the decimal text of an integer gives the integer. */
  lemma NumberOfDecimal(i: int)
    ensures JsNumber(IntToDecimal(i)) == Some(i)
  {
    var r := IntToDecimal(i);
    TrimUnchanged(r);
    assert !AllSpace(r) by { assert !IsSpace(r[0]); }
    ParseDecimal(i);
  }

  lemma ParseDecimal(i: int)
    ensures ParseInteger(IntToDecimal(i)) == Some(i)
  {
    if i < 0 {
      var d := NatToDecimal(-i);
      var r := "-" + d;
      assert r[1..] == d;
      DigitsValueOfDecimal(-i);
    } else {
      DigitsValueOfDecimal(i);
    }
  }

  /** The text before the first point, and the text after it when there is one. */
  function SplitAtPoint(b: string): (r: (string, Option<string>))
  {
    if b == [] then ("", None)
    else if b[0] == '.' then ("", Some(b[1..]))
    else
      var p := SplitAtPoint(b[1..]);
      ([b[0]] + p.0, p.1)
  }

  /** Digits, then an optional point followed by at most two digits, with at least one digit in all: the value in hundredths. */
  function UnsignedHundredths(b: string): Option<nat>
  {
    var p := SplitAtPoint(b);
    var ip := p.0;
    if !AllDigits(ip) then None
    else match p.1
      case None => if ip == [] then None else Some(DigitsValue(ip) * 100)
      case Some(f) =>
        if |f| > 2 || !AllDigits(f) || (ip == [] && f == []) then None
        else if |f| == 1 then Some(DigitsValue(ip) * 100 + DigitsValue(f) * 10)
        else Some(DigitsValue(ip) * 100 + DigitsValue(f))
  }

  lemma {:induction false} SplitNoPoint(ip: string, rest: string)
    requires AllDigits(ip)
    requires rest == [] || rest[0] == '.'
    ensures SplitAtPoint(ip + rest) == (ip, if rest == [] then None else Some(rest[1..]))
  {
    if ip != [] {
      assert (ip + rest)[1..] == ip[1..] + rest;
      SplitNoPoint(ip[1..], rest);
      assert [ip[0]] + ip[1..] == ip;
    } else {
      assert ip + rest == rest;
    }
  }

  /**
   * `Number(s)` in hundredths, for quantity text with at most two decimals:
   * blank text is 0, and otherwise an optional sign precedes the digits.
   * Text JavaScript reads as NaN is None; so is text with more decimals,
   * an exponent or another notation, which this model does not read.
   */
  function ParseHundredths(s: string): Option<int>
  {
    if AllSpace(s) then Some(0) else SignedHundredths(Trim(s))
  }

  /** Trimmed quantity text: an optional sign, then the unsigned quantity. */
  function SignedHundredths(t: string): Option<int>
  {
    var signed := t != [] && (t[0] == '-' || t[0] == '+');
    var body := if signed then t[1..] else t;
    match UnsignedHundredths(body)
    case None => None
    case Some(v) => Some(if signed && t[0] == '-' then -(v as int) else v as int)
  }

  /** Text that starts with a digit carries no sign. */
  lemma SignedOfDigit(t: string, v: nat)
    requires t != [] && IsDigit(t[0]) && UnsignedHundredths(t) == Some(v)
    ensures SignedHundredths(t) == Some(v as int)
  {
  }

  lemma UnsignedDigits(b: string)
    requires b != [] && AllDigits(b)
    ensures UnsignedHundredths(b) == Some(DigitsValue(b) * 100)
  {
    SplitNoPoint(b, "");
    assert b + "" == b;
  }

  /** An integer literal reads as 100 times its value in hundredths. */
  lemma SignedOfInteger(t: string)
    ensures ParseInteger(t).Some? ==> SignedHundredths(t) == Some(100 * ParseInteger(t).value)
  {
    if |t| > 1 && (t[0] == '-' || t[0] == '+') && AllDigits(t[1..]) {
      UnsignedDigits(t[1..]);
    } else if t != [] && AllDigits(t) {
      UnsignedDigits(t);
      assert IsDigit(t[0]);
    }
  }

  /** On integer text the hundredths reading agrees with `Number`: n units are 100 * n hundredths. */
  lemma HundredthsOfInteger(s: string)
    ensures JsNumber(s).Some? ==> ParseHundredths(s) == Some(100 * JsNumber(s).value)
  {
    if !AllSpace(s) {
      SignedOfInteger(Trim(s));
    }
  }

  lemma UnsignedOfSplit(b: string, ip: string, f: string)
    requires SplitAtPoint(b) == (ip, Some(f))
    requires AllDigits(ip) && |f| == 2 && AllDigits(f)
    ensures UnsignedHundredths(b) == Some(DigitsValue(ip) * 100 + DigitsValue(f))
  {
  }

  lemma TwoDigits(d1: nat, d2: nat)
    requires d1 < 10 && d2 < 10
    ensures DigitsValue([DigitChar(d1), DigitChar(d2)]) == 10 * d1 + d2
  {
    var f := [DigitChar(d1), DigitChar(d2)];
    assert f[..1] == [DigitChar(d1)];
    assert [DigitChar(d1)][..0] == [];
    assert DigitsValue([DigitChar(d1)]) == d1;
    assert DigitsValue(f) == DigitsValue(f[..1]) * 10 + d2;
  }

  /** Digits, a point and two digits: the whole part in hundredths plus the two decimals. */
  lemma HundredthsOfDigits(ip: string, f: string)
    requires ip != [] && AllDigits(ip) && |f| == 2 && AllDigits(f)
    ensures ParseHundredths(ip + ("." + f)) == Some(DigitsValue(ip) * 100 + DigitsValue(f))
  {
    SplitDecimal(ip, f);
    DecimalEnds(ip, f);
    HundredthsOfSplit(ip + ("." + f), ip, f);
  }

  /** Digits, a point and more text split at that point. */
  lemma SplitDecimal(ip: string, f: string)
    requires AllDigits(ip)
    ensures SplitAtPoint(ip + ("." + f)) == (ip, Some(f))
  {
    SplitNoPoint(ip, "." + f);
    assert ("." + f)[1..] == f;
  }

  /** Text led and ended by a digit that splits into digits and two decimals reads as the hundredths they spell. */
  lemma HundredthsOfSplit(b: string, ip: string, f: string)
    requires b != [] && IsDigit(b[0]) && IsDigit(b[|b| - 1])
    requires SplitAtPoint(b) == (ip, Some(f)) && AllDigits(ip) && |f| == 2 && AllDigits(f)
    ensures ParseHundredths(b) == Some(DigitsValue(ip) * 100 + DigitsValue(f))
  {
    UnsignedOfSplit(b, ip, f);
    UnsignedRead(b, DigitsValue(ip) * 100 + DigitsValue(f));
  }

  /** Text that starts and ends with a digit reads as its unsigned value. */
  lemma UnsignedRead(b: string, v: nat)
    requires b != [] && IsDigit(b[0]) && IsDigit(b[|b| - 1]) && UnsignedHundredths(b) == Some(v)
    ensures ParseHundredths(b) == Some(v)
  {
    DigitLed(b);
    SignedOfDigit(b, v);
  }

  lemma DecimalEnds(ip: string, f: string)
    requires ip != [] && AllDigits(ip) && |f| == 2 && AllDigits(f)
    ensures var b := ip + ("." + f); b != [] && IsDigit(b[0]) && IsDigit(b[|b| - 1])
  {
    var b := ip + ("." + f);
    assert b[0] == ip[0];
    assert b[|b| - 1] == f[1];
  }

  /** Text that starts and ends with a digit is read without trimming. */
  lemma DigitLed(b: string)
    requires b != [] && IsDigit(b[0]) && IsDigit(b[|b| - 1])
    ensures ParseHundredths(b) == SignedHundredths(b)
  {
    assert !AllSpace(b) by { assert !IsSpace(b[0]); }
    TrimUnchanged(b);
  }

  /** Decimal text with two decimals reads as the hundredths it spells. */
  lemma HundredthsOfDecimal(n: nat, d1: nat, d2: nat)
    requires d1 < 10 && d2 < 10
    ensures ParseHundredths(NatToDecimal(n) + "." + [DigitChar(d1), DigitChar(d2)]) == Some(100 * n + 10 * d1 + d2)
  {
    var ip := NatToDecimal(n);
    var f := [DigitChar(d1), DigitChar(d2)];
    assert ip + "." + f == ip + ("." + f);
    HundredthsOfDigits(ip, f);
    TwoDigits(d1, d2);
    DigitsValueOfDecimal(n);
  }

  /** `hay.includes(needle)` */
  predicate Contains(hay: string, needle: string) {
    exists i :: 0 <= i <= |hay| && needle <= hay[i..]
  }
}
