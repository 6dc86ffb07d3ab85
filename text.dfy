/** The two pieces of JavaScript string behaviour the components rely on: writing
    an integer in a template string, and `String.prototype.trim`. */
module Text {

  function DigitChar(d: nat): (c: char)
    requires d < 10
    ensures '0' <= c <= '9'
  {
    (d + '0' as int) as char
  }

  /** Decimal digits of a natural number, without leading zeros. */
  function NatToString(n: nat): (s: string)
    ensures |s| >= 1
    ensures forall i :: 0 <= i < |s| ==> '0' <= s[i] <= '9'
    ensures s[0] == '0' ==> n == 0 && s == "0"
    decreases n
  {
    if n < 10 then [DigitChar(n)] else NatToString(n / 10) + [DigitChar(n % 10)]
  }

  /** The value of a string of decimal digits. */
  function DigitsValue(s: string): nat
    requires forall i :: 0 <= i < |s| ==> '0' <= s[i] <= '9'
  {
    if s == [] then 0 else DigitsValue(s[..|s| - 1]) * 10 + (s[|s| - 1] as int - '0' as int)
  }

  /** Reading back the digits gives the number: the decimal form names one number. */
  lemma {:induction false} NatToStringRoundTrip(n: nat)
    ensures DigitsValue(NatToString(n)) == n
    decreases n
  {
    if n >= 10 {
      var s := NatToString(n);
      NatToStringRoundTrip(n / 10);
      assert s[..|s| - 1] == NatToString(n / 10);
    }
  }

  /** Different numbers are written differently. */
  lemma NatToStringInjective(a: nat, b: nat)
    requires NatToString(a) == NatToString(b)
    ensures a == b
  {
    NatToStringRoundTrip(a);
    NatToStringRoundTrip(b);
  }

  /** `${n}` for an integer `n`: a minus sign exactly for a negative number, followed
      by the digits of its magnitude. */
  function IntToString(n: int): (s: string)
    ensures |s| >= 1
    ensures s[0] == '-' <==> n < 0
    ensures n < 0 ==> |s| >= 2
    ensures s[if n < 0 then 1 else 0] == '0' ==> n == 0 && s == "0"
    ensures forall i :: (if n < 0 then 1 else 0) <= i < |s| ==> '0' <= s[i] <= '9'
    ensures DigitsValue(s[if n < 0 then 1 else 0..]) == if n < 0 then -n else n
  {
    var digits := NatToString(if n < 0 then -n else n);
    NatToStringRoundTrip(if n < 0 then -n else n);
    if n < 0 then
      assert ("-" + digits)[1..] == digits;
      "-" + digits
    else digits
  }

  /** Different integers are written differently. */
  lemma IntToStringInjective(a: int, b: int)
    requires IntToString(a) == IntToString(b)
    ensures a == b
  {
  }

  /** The characters `trim` removes: ECMAScript WhiteSpace and LineTerminator. */
  predicate IsWhiteSpace(c: char) {
    c == '\t' || c == '\n' || c == '\U{000B}' || c == '\U{000C}' || c == '\r' || c == ' ' ||
    c == '\U{00A0}' || c == '\U{1680}' || ('\U{2000}' <= c <= '\U{200A}') ||
    c == '\U{2028}' || c == '\U{2029}' || c == '\U{202F}' || c == '\U{205F}' || c == '\U{3000}' ||
    c == '\U{FEFF}'
  }

  /** `s` without its leading white space: a suffix of `s` whose dropped prefix is all
      white space and which does not itself start with white space. */
  function TrimStart(s: string): (r: string)
    ensures |r| <= |s| && r == s[|s| - |r|..] && AllWhiteSpace(s[..|s| - |r|])
    ensures r == [] || !IsWhiteSpace(r[0])
  {
    if s != [] && IsWhiteSpace(s[0]) then TrimStart(s[1..]) else s
  }

  /** `s` without its trailing white space: a prefix of `s` whose dropped suffix is all
      white space and which does not itself end with white space. */
  function TrimEnd(s: string): (r: string)
    ensures |r| <= |s| && r == s[..|r|] && AllWhiteSpace(s[|r|..])
    ensures r == [] || !IsWhiteSpace(r[|r| - 1])
  {
    if s != [] && IsWhiteSpace(s[|s| - 1]) then TrimEnd(s[..|s| - 1]) else s
  }

  /** Where the leading white space of `s` ends: everything before it is white space,
      and the character at it, if any, is not. */
  function LeadingWhiteSpace(s: string): (i: nat)
    ensures i <= |s| && AllWhiteSpace(s[..i])
    ensures i == |s| || !IsWhiteSpace(s[i])
  {
    var t := TrimStart(s);
    assert t == [] || t[0] == s[|s| - |t|];
    |s| - |t|
  }

  /** `s.trim()`: the slice of `s` that starts where its leading white space ends and
      stops where its trailing white space begins; it neither starts nor ends with
      white space. */
  function Trim(s: string): (r: string)
    ensures LeadingWhiteSpace(s) + |r| <= |s|
    ensures r == s[LeadingWhiteSpace(s)..LeadingWhiteSpace(s) + |r|]
    ensures AllWhiteSpace(s[LeadingWhiteSpace(s) + |r|..])
    ensures r == [] || (!IsWhiteSpace(r[0]) && !IsWhiteSpace(r[|r| - 1]))
  {
    TrimKeepsMiddle(s);
    TrimDropsEnds(s);
    TrimKeepsFirst(TrimStart(s));
    TrimEnd(TrimStart(s))
  }

  /** What is left after trimming both ends is the slice of `s` that starts where the
      leading white space ends. */
  lemma TrimKeepsMiddle(s: string)
    ensures LeadingWhiteSpace(s) + |TrimEnd(TrimStart(s))| <= |s|
    ensures TrimEnd(TrimStart(s)) == s[LeadingWhiteSpace(s)..LeadingWhiteSpace(s) + |TrimEnd(TrimStart(s))|]
  {
    var t := TrimStart(s);
    assert t == s[LeadingWhiteSpace(s)..];
  }

  /** Trimming both ends drops only white space at the end. */
  lemma TrimDropsEnds(s: string)
    ensures LeadingWhiteSpace(s) + |TrimEnd(TrimStart(s))| <= |s|
    ensures AllWhiteSpace(s[LeadingWhiteSpace(s) + |TrimEnd(TrimStart(s))|..])
  {
    var t := TrimStart(s);
    var r := TrimEnd(t);
    var i := LeadingWhiteSpace(s);
    assert t == s[i..];
    assert s[i + |r|..] == t[|r|..];
  }

  /** Trimming the end keeps the first character of a string that has some
      non-white-space character. */
  lemma TrimKeepsFirst(t: string)
    ensures TrimEnd(t) == [] || TrimEnd(t)[0] == t[0]
  {
  }

  predicate AllWhiteSpace(s: string) {
    forall i :: 0 <= i < |s| ==> IsWhiteSpace(s[i])
  }

  lemma TrimStartEmpty(s: string)
    ensures TrimStart(s) == [] <==> AllWhiteSpace(s)
  {
    var r := TrimStart(s);
    if r == [] {
      assert s[..|s|] == s;
    } else {
      assert r[0] == s[|s| - |r|];
    }
  }

  lemma TrimEndEmpty(s: string)
    ensures TrimEnd(s) == [] <==> AllWhiteSpace(s)
  {
    var r := TrimEnd(s);
    if r == [] {
      assert s[0..] == s;
    } else {
      assert r[|r| - 1] == s[|r| - 1];
    }
  }

  /** A string trims to nothing exactly when every character of it is white space. */
  lemma TrimEmpty(s: string)
    ensures Trim(s) == [] <==> AllWhiteSpace(s)
  {
    TrimStartEmpty(s);
    var t := TrimStart(s);
    TrimEndEmpty(t);
    if t != [] {
      assert !AllWhiteSpace(t);
    }
  }
}
