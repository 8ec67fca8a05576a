/** Decimal text of integers: `Number.prototype.toString` and the global `parseInt`. */
module Decimal {
  import opened Wrappers
  import opened Text

  predicate IsDigit(c: char) { '0' <= c <= '9' }

  predicate AllDigits(s: string) { forall i :: 0 <= i < |s| ==> IsDigit(s[i]) }

  function DigitChar(d: nat): (c: char)
    requires d < 10
    ensures IsDigit(c) && c as int - '0' as int == d
  {
    ('0' as int + d) as char
  }

  /** The numeric value of a string of decimal digits. */
  function DigitsValue(s: string): nat
    requires AllDigits(s)
  {
    if s == [] then 0 else DigitsValue(s[..|s| - 1]) * 10 + (s[|s| - 1] as int - '0' as int)
  }

  /** `n.toString()` for a non-negative integer: no leading zero except for 0 itself. */
  function NatToString(n: nat): (s: string)
    ensures |s| >= 1 && AllDigits(s)
    ensures |s| > 1 ==> s[0] != '0'
  {
    if n < 10 then [DigitChar(n)] else NatToString(n / 10) + [DigitChar(n % 10)]
  }

  /** `i.toString()` for any integer. */
  function IntToString(i: int): (r: string)
    ensures |r| >= 1 && (r[0] == '-' <==> i < 0)
    ensures AllDigits(if i < 0 then r[1..] else r)
    ensures var d := if i < 0 then r[1..] else r;
            (|d| > 1 ==> d[0] != '0') && DigitsValue(d) == if i < 0 then -i else i
  {
    var digits := NatToString(if i < 0 then -i else i);
    NatToStringValue(if i < 0 then -i else i);
    if i < 0 then
      assert ("-" + digits)[1..] == digits;
      "-" + digits
    else digits
  }

  /** Reading back the digits of `n` gives `n`. */
  lemma {:induction false} NatToStringValue(n: nat)
    ensures DigitsValue(NatToString(n)) == n
  {
    if n >= 10 {
      NatToStringValue(n / 10);
      var s := NatToString(n);
      assert s[..|s| - 1] == NatToString(n / 10);
    }
  }

  /** The longest prefix of `s` made of decimal digits. */
  function LeadingDigits(s: string): (d: string)
    ensures |d| <= |s| && AllDigits(d) && d == s[..|d|]
    ensures |d| < |s| ==> !IsDigit(s[|d|])
  {
    if s != [] && IsDigit(s[0]) then [s[0]] + LeadingDigits(s[1..]) else ""
  }

  /**
   * `parseInt(s)`: skip leading whitespace, read an optional sign, then the longest run
   * of decimal digits; `None` (NaN) when there is no digit.
   */
  function ParseInt(s: string): (r: Option<int>)
    ensures r.None? <==> LeadingDigits(SignStripped(TrimStart(s))) == ""
  {
    var t := TrimStart(s);
    var digits := LeadingDigits(SignStripped(t));
    var magnitude: int := if digits == "" then 0 else DigitsValue(digits);
    if digits == "" then None
    else if t[0] == '-' then Some(-magnitude)
    else Some(magnitude)
  }

  /** The text after an optional leading `+` or `-`. */
  function SignStripped(t: string): string
  {
    if t != [] && (t[0] == '-' || t[0] == '+') then t[1..] else t
  }

  /** A string of digits is its own leading digit run. */
  lemma {:induction false} LeadingDigitsOfDigits(s: string, tail: string)
    requires AllDigits(s)
    requires tail == [] || !IsDigit(tail[0])
    ensures LeadingDigits(s + tail) == s
  {
    if s != [] {
      assert (s + tail)[1..] == s[1..] + tail;
      LeadingDigitsOfDigits(s[1..], tail);
      assert [s[0]] + s[1..] == s;
    } else {
      assert s + tail == tail;
    }
  }

  /** Digits followed by a non-digit parse as their value. */
  lemma ParseDigits(d: string, tail: string)
    requires d != [] && AllDigits(d)
    requires tail == [] || !IsDigit(tail[0])
    ensures ParseInt(d + tail) == Some(DigitsValue(d))
  {
    var s := d + tail;
    assert s[0] == d[0] && IsDigit(s[0]);
    StartsWithDigit(s);
    LeadingDigitsOfDigits(d, tail);
  }

  /** A minus sign followed by digits parses as the negated value. */
  lemma ParseNegativeDigits(d: string)
    requires d != [] && AllDigits(d)
    ensures ParseInt("-" + d) == Some(-(DigitsValue(d) as int))
  {
    var t := "-" + d;
    assert t != [] && t[0] == '-' && t[1..] == d;
    ParseSigned(t, d);
  }

  /** Text made of a minus sign and then digits parses as the negated value of the digits. */
  lemma ParseSigned(t: string, d: string)
    requires d != [] && AllDigits(d)
    requires t != [] && t[0] == '-' && t[1..] == d
    ensures ParseInt(t) == Some(-(DigitsValue(d) as int))
  {
    StartsWithMinus(t);
    LeadingDigitsOfDigits(d, "");
    assert d + "" == d;
  }

  /** Text that starts with a digit has no leading whitespace or sign to skip. */
  lemma StartsWithDigit(s: string)
    requires s != [] && IsDigit(s[0])
    ensures TrimStart(s) == s && SignStripped(s) == s
  {
    assert !IsWhitespace(s[0]);
  }

  /** Text that starts with `-` has no leading whitespace, and its sign is that minus. */
  lemma StartsWithMinus(t: string)
    requires t != [] && t[0] == '-'
    ensures TrimStart(t) == t && SignStripped(t) == t[1..]
  {
    assert !IsWhitespace(t[0]);
  }

  /** `parseInt` reads back what `toString` wrote, for every integer. */
  lemma ParseIntToString(i: int)
    ensures ParseInt(IntToString(i)) == Some(i)
  {
    var n: nat := if i < 0 then -i else i;
    var digits := NatToString(n);
    NatToStringValue(n);
    if i < 0 {
      ParseNegativeDigits(digits);
    } else {
      ParseDigits(digits, "");
      assert digits + "" == digits;
    }
  }

  /** `parseInt` stops at the first character that is not a digit. */
  lemma ParseIntIgnoresSuffix(n: nat, tail: string)
    requires tail == [] || !IsDigit(tail[0])
    ensures ParseInt(NatToString(n) + tail) == Some(n)
  {
    ParseDigits(NatToString(n), tail);
    NatToStringValue(n);
  }
}
