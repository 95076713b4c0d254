/**
 * The two JavaScript number conversions the user-store handlers rely on:
 * the global `parseInt(string)` (no radix argument), which turns the
 * `userId` placeholder of a profile URI into a number, and the conversion
 * of a positive integer to its decimal text inside a template literal.
 * NaN is `None`; numbers are exact integers.
 */
module JsNumbers {
  import opened Wrappers

  /** StrWhiteSpaceChar of ECMAScript: TAB, VT, FF, ZWNBSP, the space separators (category Zs) and the line terminators. */
  predicate IsStrWhiteSpace(c: char) {
    c == '\t' || c == '\U{B}' || c == '\U{C}' || c == '\U{FEFF}'
    || c == ' ' || c == '\U{A0}' || c == '\U{1680}' || ('\U{2000}' <= c <= '\U{200A}')
    || c == '\U{202F}' || c == '\U{205F}' || c == '\U{3000}'
    || c == '\n' || c == '\r' || c == '\U{2028}' || c == '\U{2029}'
  }

  /** The string with its leading white space removed. */
  function TrimStart(s: string): (r: string)
    ensures |r| <= |s| && r == s[|s| - |r|..]
    ensures r == [] || !IsStrWhiteSpace(r[0])
    ensures forall i :: 0 <= i < |s| - |r| ==> IsStrWhiteSpace(s[i])
  {
    if s != [] && IsStrWhiteSpace(s[0]) then TrimStart(s[1..]) else s
  }

  /** The value of `c` as a digit of the radix (10 or 16), if it is one; letters count in either case. */
  function DigitValue(c: char, radix: nat): (d: Option<nat>)
    requires radix == 10 || radix == 16
    ensures d.Some? ==> d.value < radix
    ensures radix == 10 ==> (d.Some? <==> '0' <= c <= '9')
    ensures radix == 16 ==> (d.Some? <==> '0' <= c <= '9' || 'a' <= c <= 'f' || 'A' <= c <= 'F')
  {
    if '0' <= c <= '9' then Some(c as int - '0' as int)
    else if radix == 16 && 'a' <= c <= 'f' then Some(c as int - 'a' as int + 10)
    else if radix == 16 && 'A' <= c <= 'F' then Some(c as int - 'A' as int + 10)
    else None
  }

  /** Each digit character has its place in `0123456789abcdef` as its value; upper-case letters too. */
  lemma DigitValueTable(radix: nat, v: nat)
    requires radix == 10 || radix == 16
    requires v < radix
    ensures DigitValue("0123456789abcdef"[v], radix) == Some(v)
    ensures DigitValue("0123456789ABCDEF"[v], radix) == Some(v)
  {
  }

  predicate AllDigits(ds: string, radix: nat)
    requires radix == 10 || radix == 16
  {
    forall i :: 0 <= i < |ds| ==> DigitValue(ds[i], radix).Some?
  }

  /** The length of the longest prefix of `s` made of digits of the radix. */
  function DigitRun(s: string, radix: nat): (n: nat)
    requires radix == 10 || radix == 16
    ensures n <= |s| && AllDigits(s[..n], radix)
    ensures n < |s| ==> DigitValue(s[n], radix).None?
  {
    if s != [] && DigitValue(s[0], radix).Some? then 1 + DigitRun(s[1..], radix) else 0
  }

  /** The number a string of digits denotes in the radix, most significant digit first. */
  function DigitsValue(ds: string, radix: nat): nat
    requires radix == 10 || radix == 16
    requires AllDigits(ds, radix)
  {
    if ds == [] then 0
    else DigitsValue(ds[..|ds| - 1], radix) * radix + DigitValue(ds[|ds| - 1], radix).value
  }

  /**
   * The part of `parseInt` after the sign: a `0x`/`0X` prefix selects
   * radix 16 (radix 10 otherwise); the result is the value of the longest
   * run of digits that follows, and NaN when that run is empty. Whatever
   * follows the run is ignored.
   */
  function ParseMagnitude(u: string): (r: Option<nat>)
    ensures r.Some? ==> u != [] && '0' <= u[0] <= '9'
    ensures u != [] && '0' <= u[0] <= '9' && !(|u| >= 2 && u[0] == '0' && (u[1] == 'x' || u[1] == 'X')) ==> r.Some?
  {
    var hex := |u| >= 2 && u[0] == '0' && (u[1] == 'x' || u[1] == 'X');
    var radix := if hex then 16 else 10;
    var body := if hex then u[2..] else u;
    var n := DigitRun(body, radix);
    if n == 0 then None else Some(DigitsValue(body[..n], radix))
  }

  /**
   * `parseInt` after the leading white space: an optional sign, then the
   * digit part. A number comes only from text that starts with a digit, or
   * with a sign and then a digit; a negative number only from a minus sign.
   */
  function ParseSigned(t: string): (r: Option<int>)
    ensures r.Some? ==> t != [] && ('0' <= t[0] <= '9' || ((t[0] == '-' || t[0] == '+') && |t| >= 2 && '0' <= t[1] <= '9'))
    ensures r.Some? && r.value < 0 ==> t[0] == '-'
  {
    if t != [] && t[0] == '-' then
      match ParseMagnitude(t[1..])
      case None => None
      case Some(v) => Some(-(v as int))
    else if t != [] && t[0] == '+' then ParseMagnitude(t[1..])
    else ParseMagnitude(t)
  }

  /**
   * `parseInt(s)`: leading white space is skipped, then an optional sign
   * and the digits are read. A number comes only from text whose first
   * character after the white space is a digit, or a sign and then a digit;
   * a negative number only from a minus sign.
   */
  function ParseInt(s: string): (r: Option<int>)
    ensures r.Some? ==> var t := TrimStart(s);
      t != [] && ('0' <= t[0] <= '9' || ((t[0] == '-' || t[0] == '+') && |t| >= 2 && '0' <= t[1] <= '9'))
    ensures r.Some? && r.value < 0 ==> TrimStart(s)[0] == '-'
  {
    ParseSigned(TrimStart(s))
  }

  function DecimalDigit(d: nat): (c: char)
    requires d < 10
  {
    ('0' as int + d) as char
  }

  /** The decimal text of `n` (what `${n}` produces for a non-negative integer). */
  function NatToString(n: nat): (s: string)
    ensures |s| >= 1 && AllDigits(s, 10)
    ensures s[0] == '0' ==> n == 0
    ensures n == 0 ==> s == "0"
  {
    if n < 10 then [DecimalDigit(n)] else NatToString(n / 10) + [DecimalDigit(n % 10)]
  }

  /** The decimal text of `n` denotes `n`. */
  lemma {:induction false} DigitsValueOfNatToString(n: nat)
    ensures DigitsValue(NatToString(n), 10) == n
  {
    if n >= 10 {
      var s := NatToString(n);
      assert s[..|s| - 1] == NatToString(n / 10);
      DigitsValueOfNatToString(n / 10);
    }
  }

  /** Distinct numbers have distinct decimal texts. */
  lemma NatToStringInjective(a: nat, b: nat)
    requires NatToString(a) == NatToString(b)
    ensures a == b
  {
    DigitsValueOfNatToString(a);
    DigitsValueOfNatToString(b);
  }

  /** A run of digits followed by a non-digit is exactly as long as the digits. */
  lemma {:induction false} DigitRunOfDigits(ds: string, rest: string, radix: nat)
    requires radix == 10 || radix == 16
    requires AllDigits(ds, radix)
    requires rest == [] || DigitValue(rest[0], radix).None?
    ensures DigitRun(ds + rest, radix) == |ds|
  {
    if ds != [] {
      assert (ds + rest)[1..] == ds[1..] + rest;
      DigitRunOfDigits(ds[1..], rest, radix);
    }
  }

  /**
   * Round trip: the digit part of `parseInt` reads back the decimal text of
   * `n`, also when other text follows, provided that text does not start
   * with a digit and, after a lone `0`, does not start with `x` or `X`
   * (which would make the whole a hexadecimal literal).
   */
  lemma ParseMagnitudeOfNatToString(n: nat, rest: string)
    requires rest == [] || !('0' <= rest[0] <= '9')
    requires n == 0 && rest != [] ==> rest[0] != 'x' && rest[0] != 'X'
    ensures ParseMagnitude(NatToString(n) + rest) == Some(n)
  {
    var ds := NatToString(n);
    var s := ds + rest;
    assert s[0] == ds[0];
    if n == 0 && rest != [] {
      assert s[1] == rest[0];
    }
    DigitRunOfDigits(ds, rest, 10);
    assert s[..|ds|] == ds;
    DigitsValueOfNatToString(n);
  }

  /** Text that starts with a digit is neither trimmed nor signed: `parseInt` reads its digit part. */
  lemma ParseIntOfDigitStart(s: string)
    requires s != [] && '0' <= s[0] <= '9'
    ensures ParseInt(s) == ParseMagnitude(s)
  {
    assert !IsStrWhiteSpace(s[0]);
    assert TrimStart(s) == s;
    assert ParseSigned(s) == ParseMagnitude(s);
  }

  /** Round trip: `parseInt` reads back the decimal text of `n` followed by text as above. */
  lemma ParseIntOfNatToString(n: nat, rest: string)
    requires rest == [] || !('0' <= rest[0] <= '9')
    requires n == 0 && rest != [] ==> rest[0] != 'x' && rest[0] != 'X'
    ensures ParseInt(NatToString(n) + rest) == Some(n)
  {
    var s := NatToString(n) + rest;
    assert s[0] == NatToString(n)[0];
    ParseIntOfDigitStart(s);
    ParseMagnitudeOfNatToString(n, rest);
  }

  /** A leading minus sign negates what follows. */
  lemma ParseIntOfNegative(n: nat)
    ensures ParseInt("-" + NatToString(n)) == Some(-(n as int))
  {
    var s := "-" + NatToString(n);
    assert TrimStart(s) == s;
    assert s[1..] == NatToString(n) + [];
    ParseMagnitudeOfNatToString(n, []);
    assert s[0] == '-' && ParseMagnitude(s[1..]) == Some(n);
    assert ParseSigned(s) == Some(-(n as int));
  }

  /** A leading zero adds nothing to the value of a digit string. */
  lemma {:induction false} DigitsValueLeadingZero(ds: string, radix: nat)
    requires radix == 10 || radix == 16
    requires AllDigits(ds, radix)
    ensures AllDigits("0" + ds, radix)
    ensures DigitsValue("0" + ds, radix) == DigitsValue(ds, radix)
  {
    var zs := "0" + ds;
    assert AllDigits(zs, radix) by {
      assert forall i :: 0 < i < |zs| ==> zs[i] == ds[i - 1];
    }
    if ds != [] {
      assert zs[..|zs| - 1] == "0" + ds[..|ds| - 1];
      assert zs[|zs| - 1] == ds[|ds| - 1];
      DigitsValueLeadingZero(ds[..|ds| - 1], radix);
    }
  }

  /** The digit part of `parseInt` reads any run of decimal digits, leading zeros included, as its value. */
  lemma ParseMagnitudeOfDecimal(ds: string, rest: string)
    requires ds != [] && AllDigits(ds, 10)
    requires rest == [] || !('0' <= rest[0] <= '9')
    requires ds == "0" && rest != [] ==> rest[0] != 'x' && rest[0] != 'X'
    ensures ParseMagnitude(ds + rest) == Some(DigitsValue(ds, 10))
  {
    var s := ds + rest;
    if |s| >= 2 {
      if |ds| >= 2 {
        assert s[1] == ds[1];
        assert '0' <= s[1] <= '9';
      } else {
        assert ds == [ds[0]];
        assert s[1] == rest[0];
      }
    }
    assert !(|s| >= 2 && s[0] == '0' && (s[1] == 'x' || s[1] == 'X'));
    DigitRunOfDigits(ds, rest, 10);
    assert s[..|ds|] == ds;
  }

  /**
   * Any run of decimal digits, leading zeros included, reads as its value,
   * whatever non-digit text follows (no `x` or `X` right after a lone `0`).
   */
  lemma ParseIntOfDecimal(ds: string, rest: string)
    requires ds != [] && AllDigits(ds, 10)
    requires rest == [] || !('0' <= rest[0] <= '9')
    requires ds == "0" && rest != [] ==> rest[0] != 'x' && rest[0] != 'X'
    ensures ParseInt(ds + rest) == Some(DigitsValue(ds, 10))
  {
    var s := ds + rest;
    assert s[0] == ds[0];
    ParseIntOfDigitStart(s);
    ParseMagnitudeOfDecimal(ds, rest);
  }

  /** A `+` sign reads the digit part unchanged and a `-` sign negates it. */
  lemma ParseIntOfSign(c: char, t: string)
    requires c == '+' || c == '-'
    ensures ParseInt([c] + t) == match ParseMagnitude(t)
      case None => None
      case Some(v) => Some(if c == '-' then -(v as int) else v)
  {
    var s := [c] + t;
    assert s[0] == c && s[1..] == t;
    assert !IsStrWhiteSpace(c);
    assert TrimStart(s) == s;
    assert ParseInt(s) == ParseSigned(s);
    if c == '-' {
      assert ParseSigned(s) == match ParseMagnitude(t)
        case None => None
        case Some(v) => Some(-(v as int));
    } else {
      assert ParseSigned(s) == ParseMagnitude(t);
    }
  }

  /** Leading white space does not change what `parseInt` reads. */
  lemma ParseIntSkipsWhiteSpace(c: char, s: string)
    requires IsStrWhiteSpace(c)
    ensures ParseInt([c] + s) == ParseInt(s)
  {
    assert TrimStart([c] + s) == TrimStart(s) by {
      assert ([c] + s)[1..] == s;
    }
  }

  /**
   * A `0x` or `0X` prefix makes `parseInt` read the longest run of
   * hexadecimal digits that follows; the text after the run is ignored.
   */
  lemma ParseIntOfHex(x: char, ds: string, rest: string)
    requires x == 'x' || x == 'X'
    requires ds != [] && AllDigits(ds, 16)
    requires rest == [] || DigitValue(rest[0], 16).None?
    ensures ParseInt(['0', x] + ds + rest) == Some(DigitsValue(ds, 16))
  {
    var s := ['0', x] + ds + rest;
    assert TrimStart(s) == s;
    assert s[2..] == ds + rest;
    DigitRunOfDigits(ds, rest, 16);
    assert (ds + rest)[..|ds|] == ds;
  }

  /** A `0x` prefix with no hexadecimal digit after it is NaN, not zero. */
  lemma ParseIntOfBareHexPrefix(x: char, rest: string)
    requires x == 'x' || x == 'X'
    requires rest == [] || DigitValue(rest[0], 16).None?
    ensures ParseInt(['0', x] + rest) == None
  {
    var s := ['0', x] + rest;
    ParseIntOfDigitStart(s);
    assert s[2..] == rest;
    assert DigitRun(rest, 16) == 0;
  }

  /** Text whose first character after the leading white space is no sign and no digit is NaN. */
  lemma ParseIntNaN(s: string)
    requires var t := TrimStart(s); t == [] || (t[0] != '-' && t[0] != '+' && !('0' <= t[0] <= '9'))
    ensures ParseInt(s) == None
  {
  }
}
