/** The two pieces of JavaScript string handling the search pipeline relies on:
    `String.prototype.trim`, applied to every query, and the decimal rendering
    of integers that template literals perform when a number is spliced into a
    URL. */
module Strings {

  /** The characters ECMAScript's `trim` removes: the WhiteSpace set (tab,
      vertical tab, form feed, space, no-break space, byte order mark and the
      Unicode space separators) and the LineTerminator set. */
  predicate IsWhitespace(c: char) {
    || c == '\t' || c == '\n' || c == '\U{B}' || c == '\U{C}' || c == '\r'
    || c == ' ' || c == '\U{A0}' || c == '\U{1680}'
    || ('\U{2000}' <= c <= '\U{200A}')
    || c == '\U{2028}' || c == '\U{2029}' || c == '\U{202F}' || c == '\U{205F}'
    || c == '\U{3000}' || c == '\U{FEFF}'
  }

  /** Every character of `s` is whitespace (the empty string included). */
  predicate IsBlank(s: string) {
    forall i :: 0 <= i < |s| ==> IsWhitespace(s[i])
  }

  /** How many whitespace characters `s` starts with. */
  function LeadingSpace(s: string): (n: nat)
    ensures n <= |s|
    ensures forall k :: 0 <= k < n ==> IsWhitespace(s[k])
    ensures n < |s| ==> !IsWhitespace(s[n])
  {
    if s != [] && IsWhitespace(s[0]) then 1 + LeadingSpace(s[1..]) else 0
  }

  /** How many whitespace characters `s` ends with. */
  function TrailingSpace(s: string): (n: nat)
    ensures n <= |s|
    ensures forall k :: |s| - n <= k < |s| ==> IsWhitespace(s[k])
    ensures n < |s| ==> !IsWhitespace(s[|s| - 1 - n])
  {
    if s != [] && IsWhitespace(s[|s| - 1]) then 1 + TrailingSpace(s[..|s| - 1]) else 0
  }

  /** `String.prototype.trim`: leading and trailing whitespace removed. It is
      empty exactly when `s` is blank; `TrimShape` says what it keeps. */
  function Trim(s: string): (r: string)
    ensures |r| <= |s|
    ensures r == [] <==> IsBlank(s)
  {
    TrimEmptyIffBlank(s);
    var t := s[LeadingSpace(s)..];
    t[..|t| - TrailingSpace(t)]
  }

  lemma TrimEmptyIffBlank(s: string)
    ensures var t := s[LeadingSpace(s)..];
      t[..|t| - TrailingSpace(t)] == [] <==> IsBlank(s)
  {
    var i := LeadingSpace(s);
    var t := s[i..];
    var j := |t| - TrailingSpace(t);
    if j == 0 {
      assert i == |s|;
    } else {
      assert !IsWhitespace(s[i]);
    }
  }

  /** The trim of `s` is the slice `s[i..j]` where everything before `i` and
      from `j` on is whitespace, and neither end of the slice is whitespace. */
  lemma TrimShape(s: string)
    ensures var r := Trim(s); var i := LeadingSpace(s);
      && i + |r| <= |s|
      && r == s[i..i + |r|]
      && (forall k :: 0 <= k < i ==> IsWhitespace(s[k]))
      && (forall k :: i + |r| <= k < |s| ==> IsWhitespace(s[k]))
      && (r != [] ==> !IsWhitespace(r[0]) && !IsWhitespace(r[|r| - 1]))
  {
    var i := LeadingSpace(s);
    var t := s[i..];
    var n := TrailingSpace(t);
    var r := t[..|t| - n];
    assert Trim(s) == r;
    assert r == s[i..|s| - n];
    TrailingOfSuffix(s, i);
    if r != [] {
      assert r[0] == s[i];
      assert r[|r| - 1] == t[|t| - 1 - n];
    }
  }

  /** The whitespace a suffix of `s` ends with is whitespace `s` ends with. */
  lemma TrailingOfSuffix(s: string, i: nat)
    requires i <= |s|
    ensures forall k :: |s| - TrailingSpace(s[i..]) <= k < |s| ==> IsWhitespace(s[k])
  {
    var t := s[i..];
    forall k | |s| - TrailingSpace(t) <= k < |s| ensures IsWhitespace(s[k]) {
      assert s[k] == t[k - i];
    }
  }

  /** A string that neither starts nor ends with whitespace is its own trim. */
  lemma TrimOfTrimmed(s: string)
    requires s != [] ==> !IsWhitespace(s[0]) && !IsWhitespace(s[|s| - 1])
    ensures Trim(s) == s
  {
    assert LeadingSpace(s) == 0;
    assert TrailingSpace(s) == 0;
  }

  /** Trimming a string that is already trimmed changes nothing. */
  lemma TrimIdempotent(s: string)
    ensures Trim(Trim(s)) == Trim(s)
  {
    TrimShape(s);
    TrimOfTrimmed(Trim(s));
  }

  predicate IsDigit(c: char) {
    '0' <= c <= '9'
  }

  predicate AllDigits(s: string) {
    forall i :: 0 <= i < |s| ==> IsDigit(s[i])
  }

  function DigitChar(d: nat): (c: char)
    requires d < 10
    ensures IsDigit(c)
  {
    ('0' as int + d) as char
  }

  function DigitValue(c: char): (d: nat)
    requires IsDigit(c)
    ensures d < 10 && DigitChar(d) == c
  {
    (c as int - '0' as int) as nat
  }

  /** Decimal rendering of a natural number: a non-empty run of digits with no
      leading zero (unless the number is zero itself). */
  function NatToString(n: nat): (r: string)
    ensures |r| >= 1 && AllDigits(r)
    ensures r[0] == '0' <==> n == 0
    decreases n
  {
    if n < 10 then [DigitChar(n)] else NatToString(n / 10) + [DigitChar(n % 10)]
  }

  /** Decimal rendering of an integer, as a JavaScript template literal
      renders an integral number: a minus sign before a negative one. */
  function IntToString(i: int): (r: string)
    ensures |r| >= 1
    ensures r[0] == '-' <==> i < 0
    ensures i >= 0 ==> AllDigits(r)
    ensures i < 0 ==> |r| >= 2 && AllDigits(r[1..])
  {
    if i < 0 then "-" + NatToString(-i) else NatToString(i)
  }

  /** The value of a run of decimal digits (the empty run reads as zero). */
  function ParseDigits(s: string): nat
    requires AllDigits(s)
  {
    if s == [] then 0 else ParseDigits(s[..|s| - 1]) * 10 + DigitValue(s[|s| - 1])
  }

  /** Reading back a rendered natural number gives the number. */
  lemma {:induction false} ParseNatToString(n: nat)
    ensures ParseDigits(NatToString(n)) == n
    decreases n
  {
    if n >= 10 {
      var r := NatToString(n);
      assert r[..|r| - 1] == NatToString(n / 10);
      ParseNatToString(n / 10);
    }
  }

  /** The length of the longest prefix of `s` made of digits. */
  function LeadingDigits(s: string): (k: nat)
    ensures k <= |s|
    ensures forall i :: 0 <= i < k ==> IsDigit(s[i])
    ensures k < |s| ==> !IsDigit(s[k])
  {
    if s != [] && IsDigit(s[0]) then 1 + LeadingDigits(s[1..]) else 0
  }

  /** A run of digits followed by a non-digit is read off in full. */
  lemma LeadingDigitsOfDigitsThen(d: string, rest: string)
    requires AllDigits(d)
    requires rest != [] && !IsDigit(rest[0])
    ensures LeadingDigits(d + rest) == |d|
  {
    var s := d + rest;
    var k := LeadingDigits(s);
    assert s[|d|] == rest[0];
    forall i | 0 <= i < |d| ensures IsDigit(s[i]) {
      assert s[i] == d[i];
    }
  }
}
