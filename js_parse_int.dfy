/** JavaScript's global `parseInt(string)` with no radix, as the transactions
    endpoint applies it to the `limit` query parameter (server/routes.ts, line 146),
    following section 19.2.5 of ECMA-262: skip leading white space, read an
    optional sign, read a "0x"/"0X" prefix as radix 16 (radix 10 otherwise),
    then the longest run of digits of that radix; no digit at all gives NaN,
    which is `None` here. */
module JsParseInt {
  import opened Schema

  /** WhiteSpace and LineTerminator code points of ECMA-262 (sections 12.2 and 12.3). */
  predicate IsJsWhiteSpace(c: char)
  {
    || c == '\t' || c == '\n' || c == '\U{000B}' || c == '\U{000C}' || c == '\r' || c == ' '
    || c == '\U{00A0}' || c == '\U{1680}' || ('\U{2000}' <= c <= '\U{200A}')
    || c == '\U{2028}' || c == '\U{2029}' || c == '\U{202F}' || c == '\U{205F}'
    || c == '\U{3000}' || c == '\U{FEFF}'
  }

  function TrimStart(s: string): (r: string)
    ensures |r| <= |s| && r == s[|s| - |r|..]
    ensures r == [] || !IsJsWhiteSpace(r[0])
    ensures forall i :: 0 <= i < |s| - |r| ==> IsJsWhiteSpace(s[i])
  {
    if s != [] && IsJsWhiteSpace(s[0]) then TrimStart(s[1..]) else s
  }

  /** The value of `c` as a digit of radix up to 36, or -1. */
  function DigitValue(c: char): int
  {
    if '0' <= c <= '9' then c as int - '0' as int
    else if 'a' <= c <= 'z' then c as int - 'a' as int + 10
    else if 'A' <= c <= 'Z' then c as int - 'A' as int + 10
    else -1
  }

  predicate IsDigit(c: char, radix: int)
  {
    0 <= DigitValue(c) < radix
  }

  /** The longest prefix of `s` made of digits of the radix. */
  function LeadingDigits(s: string, radix: int): (r: string)
    ensures |r| <= |s| && r == s[..|r|]
    ensures forall i :: 0 <= i < |r| ==> IsDigit(r[i], radix)
    ensures |r| < |s| ==> !IsDigit(s[|r|], radix)
  {
    if s != [] && IsDigit(s[0], radix) then [s[0]] + LeadingDigits(s[1..], radix) else []
  }

  /** The number a digit string denotes in the radix. */
  function DigitsValue(ds: string, radix: int): int
  {
    if ds == [] then 0 else DigitsValue(ds[..|ds| - 1], radix) * radix + DigitValue(ds[|ds| - 1])
  }

  function HasHexPrefix(u: string): bool
  {
    |u| >= 2 && u[0] == '0' && (u[1] == 'x' || u[1] == 'X')
  }

  /** The unsigned part: a "0x"/"0X" prefix selects radix 16, and the
      longest run of digits of the radix is the value. */
  function ParseUnsigned(u: string): Option<int>
  {
    var radix := if HasHexPrefix(u) then 16 else 10;
    var z := LeadingDigits(if HasHexPrefix(u) then u[2..] else u, radix);
    if z == [] then None else Some(DigitsValue(z, radix))
  }

  /** `parseInt(s)`; `None` stands for NaN. */
  function ParseInt(s: string): Option<int>
  {
    ParseSigned(TrimStart(s))
  }

  /** After the white space: an optional sign, then the unsigned part. */
  function ParseSigned(t: string): Option<int>
  {
    if t != [] && t[0] == '-' then Negated(ParseUnsigned(t[1..]))
    else if t != [] && t[0] == '+' then ParseUnsigned(t[1..])
    else ParseUnsigned(t)
  }

  function Negated(m: Option<int>): Option<int>
  {
    if m.None? then None else Some(-m.value)
  }

  function DigitChar(d: int): char
    requires 0 <= d < 10
  {
    ('0' as int + d) as char
  }

  /** The decimal numeral of a natural number, without leading zeros. */
  function NatDigits(n: nat): string
  {
    if n < 10 then [DigitChar(n)] else NatDigits(n / 10) + [DigitChar(n % 10)]
  }

  /** The decimal numeral of an integer, with a leading "-" when negative. */
  function DecimalString(n: int): string
  {
    if n < 0 then "-" + NatDigits(-n) else NatDigits(n)
  }

  lemma {:induction false} NatDigitsValue(n: nat)
    ensures |NatDigits(n)| > 0
    ensures forall i :: 0 <= i < |NatDigits(n)| ==> '0' <= NatDigits(n)[i] <= '9'
    ensures DigitsValue(NatDigits(n), 10) == n
  {
    if n >= 10 {
      NatDigitsValue(n / 10);
      var ds := NatDigits(n);
      assert ds[..|ds| - 1] == NatDigits(n / 10);
    }
  }

  /** What may not follow a numeral for `parseInt` to stop right after it:
      another digit, or an "x" that would turn "0" into a hexadecimal prefix. */
  predicate IsDecimalDigitOrX(c: char)
  {
    '0' <= c <= '9' || c == 'x' || c == 'X'
  }

  /** A run of decimal digits followed by nothing or by a character other
      than a digit or "x" is read whole, in radix 10. */
  lemma DecimalRunIsRead(ds: string, rest: string)
    requires |ds| > 0 && forall i :: 0 <= i < |ds| ==> '0' <= ds[i] <= '9'
    requires rest == [] || !IsDecimalDigitOrX(rest[0])
    ensures ParseUnsigned(ds + rest) == Some(DigitsValue(ds, 10))
  {
    NotHexPrefixed(ds, rest);
    DecimalRunIsLeading(ds, rest);
  }

  lemma NotHexPrefixed(ds: string, rest: string)
    requires |ds| > 0 && forall i :: 0 <= i < |ds| ==> '0' <= ds[i] <= '9'
    requires rest == [] || !IsDecimalDigitOrX(rest[0])
    ensures !HasHexPrefix(ds + rest)
  {
    var s := ds + rest;
    if |ds| >= 2 {
      assert s[1] == ds[1];
    } else if |s| >= 2 {
      assert s[1] == rest[0];
    }
  }

  lemma {:induction false} DecimalRunIsLeading(ds: string, rest: string)
    requires forall i :: 0 <= i < |ds| ==> '0' <= ds[i] <= '9'
    requires rest == [] || !IsDecimalDigitOrX(rest[0])
    ensures LeadingDigits(ds + rest, 10) == ds
  {
    if ds == [] {
      assert ds + rest == rest;
      if rest != [] {
        assert !IsDigit(rest[0], 10);
      }
    } else {
      assert (ds + rest)[0] == ds[0] && IsDigit(ds[0], 10);
      assert (ds + rest)[1..] == ds[1..] + rest;
      DecimalRunIsLeading(ds[1..], rest);
    }
  }

  /** A leading "-" negates what follows it. */
  lemma ParseNegative(u: string, v: int)
    requires ParseUnsigned(u) == Some(v)
    ensures ParseInt("-" + u) == Some(-v)
  {
    var s := "-" + u;
    assert TrimStart(s) == s by {
      assert s[0] == '-';
    }
    assert ParseSigned(s) == Negated(ParseUnsigned(u)) by {
      assert s[0] == '-' && s[1..] == u;
    }
  }

  /** Text that starts with a digit is read unsigned. */
  lemma ParseStartingWithDigit(u: string)
    requires u != [] && '0' <= u[0] <= '9'
    ensures ParseInt(u) == ParseUnsigned(u)
  {
    assert TrimStart(u) == u;
    assert ParseSigned(u) == ParseUnsigned(u);
  }

  /** `parseInt` reads back the decimal numeral of any integer, whatever
      text follows it that does not start with a digit or an "x" ("12abc"
      and "12.5" give 12; "0x1" would be read as hexadecimal). */
  lemma ParseDecimal(n: int, rest: string)
    requires rest == [] || !IsDecimalDigitOrX(rest[0])
    ensures ParseInt(DecimalString(n) + rest) == Some(n)
  {
    if n < 0 {
      ParseNegativeDecimal(n, rest);
    } else {
      ParseNaturalDecimal(n, rest);
    }
  }

  lemma ParseNaturalDecimal(n: nat, rest: string)
    requires rest == [] || !IsDecimalDigitOrX(rest[0])
    ensures ParseInt(NatDigits(n) + rest) == Some(n)
  {
    var ds := NatDigits(n);
    NaturalRunIsRead(n, rest);
    assert '0' <= (ds + rest)[0] <= '9' by {
      NatDigitsValue(n);
      assert (ds + rest)[0] == ds[0];
    }
    ParseStartingWithDigit(ds + rest);
  }

  lemma ParseNegativeDecimal(n: int, rest: string)
    requires n < 0
    requires rest == [] || !IsDecimalDigitOrX(rest[0])
    ensures ParseInt(DecimalString(n) + rest) == Some(n)
  {
    var u := NatDigits(-n) + rest;
    assert ParseInt("-" + u) == Some(n) by {
      NaturalRunIsRead(-n, rest);
      ParseNegative(u, -n);
    }
    NegativeNumeral(n, rest);
  }

  lemma NegativeNumeral(n: int, rest: string)
    requires n < 0
    ensures DecimalString(n) + rest == "-" + (NatDigits(-n) + rest)
  {
  }

  lemma NaturalRunIsRead(n: nat, rest: string)
    requires rest == [] || !IsDecimalDigitOrX(rest[0])
    ensures ParseUnsigned(NatDigits(n) + rest) == Some(n)
  {
    NatDigitsValue(n);
    DecimalRunIsRead(NatDigits(n), rest);
  }

  ghost predicate NoDecimalDigit(s: string)
  {
    forall i :: 0 <= i < |s| ==> !('0' <= s[i] <= '9')
  }

  /** A string with no decimal digit at all (the absent parameter's
      "undefined", "", "abc") is NaN. */
  lemma NoDigitIsNaN(s: string)
    requires NoDecimalDigit(s)
    ensures ParseInt(s) == None
  {
    var t := TrimStart(s);
    NoDigitSuffix(s, |s| - |t|);
    if t != [] && (t[0] == '-' || t[0] == '+') {
      NoDigitSuffix(t, 1);
      NoDigitUnsigned(t[1..]);
    } else {
      NoDigitUnsigned(t);
    }
  }

  lemma NoDigitSuffix(s: string, k: nat)
    requires NoDecimalDigit(s) && k <= |s|
    ensures NoDecimalDigit(s[k..])
  {
    forall i | 0 <= i < |s| - k ensures !('0' <= s[k..][i] <= '9') {
      assert s[k..][i] == s[k + i];
    }
  }

  lemma NoDigitUnsigned(u: string)
    requires NoDecimalDigit(u)
    ensures ParseUnsigned(u) == None
  {
  }
}
