/** The parts of the Arduino String class the request handlers rely on:
    indexOf, toInt and the decimal rendering String(n). */
module ArduinoString {

  /** `pat` occurs in `s` starting at index k, compared character by
      character as strstr does. */
  predicate OccursAt(s: string, pat: string, k: nat)
    decreases |pat|
  {
    k + |pat| <= |s| && (pat == [] || (s[k] == pat[0] && OccursAt(s, pat[1..], k + 1)))
  }

  /** indexOf(pat, from): the first index at or after `from` where `pat`
      occurs, or -1; a start at or past the end finds nothing. */
  function IndexOf(s: string, pat: string, from: nat): (r: int)
    decreases |s| - from
    ensures r == -1 || (from <= r < |s| && OccursAt(s, pat, r))
    ensures r == -1 ==> forall k :: from <= k < |s| ==> !OccursAt(s, pat, k)
    ensures r != -1 ==> forall k :: from <= k < r ==> !OccursAt(s, pat, k)
  {
    if from >= |s| then -1
    else if OccursAt(s, pat, from) then from
    else IndexOf(s, pat, from + 1)
  }

  /** The first index at or after `from` that holds `c`, or -1. */
  function FindChar(s: string, c: char, from: nat): (r: int)
    decreases |s| - from
    ensures r == -1 || (from <= r < |s| && s[r] == c)
    ensures r == -1 <==> forall k :: from <= k < |s| ==> s[k] != c
    ensures r != -1 ==> forall k :: from <= k < r ==> s[k] != c
  {
    if from >= |s| then -1
    else if s[from] == c then from
    else FindChar(s, c, from + 1)
  }

  /** indexOf of a one-character string is the search for that character. */
  lemma IndexOfChar(s: string, c: char, from: nat)
    ensures IndexOf(s, [c], from) == FindChar(s, c, from)
  {
    forall k | from <= k < |s|
      ensures OccursAt(s, [c], k) <==> s[k] == c
    {
      assert [c][1..] == [];
    }
  }

  /** A string that begins with `b` has the occurrences `b` has. */
  lemma {:induction false} OccursInPrefix(a: string, b: string, pat: string, k: nat)
    requires |b| <= |a| && a[..|b|] == b
    requires k + |pat| <= |b|
    ensures OccursAt(a, pat, k) <==> OccursAt(b, pat, k)
  {
    if pat != [] {
      assert a[k] == a[..|b|][k];
      OccursInPrefix(a, b, pat[1..], k + 1);
    }
  }

  /** An occurrence at k is the pattern written out at k. */
  lemma {:induction false} OccursAtSlice(s: string, pat: string, k: nat)
    decreases |pat|
    ensures OccursAt(s, pat, k) <==> k + |pat| <= |s| && s[k..k + |pat|] == pat
  {
    if pat != [] && k + |pat| <= |s| {
      OccursAtSlice(s, pat[1..], k + 1);
      var w := s[k..k + |pat|];
      assert w[0] == s[k] && w[1..] == s[k + 1..k + |pat|];
      assert w == pat <==> w[0] == pat[0] && w[1..] == pat[1..];
    }
  }

  /** One mismatching character rules out an occurrence. */
  lemma NotOccursAt(s: string, pat: string, k: nat, j: nat)
    requires j < |pat| && (k + j >= |s| || s[k + j] != pat[j])
    ensures !OccursAt(s, pat, k)
  {
    OccursAtSlice(s, pat, k);
    if k + |pat| <= |s| {
      assert s[k..k + |pat|][j] == s[k + j];
    }
  }

  /** An occurrence at k bounds indexOf by k. */
  lemma IndexOfAtMost(s: string, pat: string, k: nat)
    requires k < |s| && OccursAt(s, pat, k)
    ensures 0 <= IndexOf(s, pat, 0) <= k
  {
  }

  /** The first occurrence of `pat` in `pre + pat` stays the first one
      in any string that begins with `pre + pat`. */
  lemma FirstOccurrenceKept(pre: string, pat: string, s: string)
    requires IndexOf(pre + pat, pat, 0) == |pre|
    requires |pre| + |pat| <= |s| && s[..|pre| + |pat|] == pre + pat
    ensures IndexOf(s, pat, 0) == |pre|
  {
    var t := pre + pat;
    OccursInPrefix(s, t, pat, |pre|);
    IndexOfAtMost(s, pat, |pre|);
    var r := IndexOf(s, pat, 0);
    if r < |pre| {
      OccursInPrefix(s, t, pat, r);
      assert false;
    }
  }

  /** indexOf(pat) >= 0. */
  predicate Contains(s: string, pat: string) {
    IndexOf(s, pat, 0) >= 0
  }

  predicate IsDigit(c: char) {
    '0' <= c <= '9'
  }

  predicate AllDigits(s: string) {
    forall i :: 0 <= i < |s| ==> IsDigit(s[i])
  }

  /** White space as C's isspace sees it. */
  predicate IsSpace(c: char) {
    c == ' ' || c == '\t' || c == '\n' || c == '\U{0B}' || c == '\U{0C}' || c == '\r'
  }

  /** The longest prefix of `s` made of decimal digits. */
  function LeadingDigits(s: string): (r: string)
    ensures |r| <= |s| && AllDigits(r)
    ensures |r| < |s| ==> !IsDigit(s[|r|])
  {
    if s != [] && IsDigit(s[0]) then [s[0]] + LeadingDigits(s[1..]) else []
  }

  /** The digits read are a prefix of the text. */
  lemma {:induction false} LeadingDigitsIsPrefix(s: string)
    ensures LeadingDigits(s) <= s
  {
    if s != [] && IsDigit(s[0]) {
      LeadingDigitsIsPrefix(s[1..]);
      assert s == [s[0]] + s[1..];
    }
  }

  /** `s` without its leading white space. */
  function SkipSpaces(s: string): (r: string)
    ensures |r| <= |s|
    ensures r != [] ==> !IsSpace(r[0])
    ensures forall i :: 0 <= i < |s| - |r| ==> IsSpace(s[i])
  {
    if s != [] && IsSpace(s[0]) then SkipSpaces(s[1..]) else s
  }

  /** What is left after the white space is the rest of the text. */
  lemma {:induction false} SkipSpacesIsSuffix(s: string)
    ensures SkipSpaces(s) == s[|s| - |SkipSpaces(s)|..]
  {
    if s != [] && IsSpace(s[0]) {
      SkipSpacesIsSuffix(s[1..]);
    }
  }

  /** The value of a string of decimal digits, most significant first. */
  function DecimalValue(ds: string): nat
    requires AllDigits(ds)
  {
    if ds == [] then 0
    else 10 * DecimalValue(ds[..|ds| - 1]) + (ds[|ds| - 1] as int - '0' as int)
  }

  const LONG_MIN: int := -0x8000_0000
  const LONG_MAX: int := 0x7FFF_FFFF

  /** toInt: atol on the text, i.e. strtol in base 10 on a 32-bit long:
      leading white space, an optional sign, then the digits that follow;
      0 when no digit follows, and a value beyond the long range saturates. */
  function ToInt(s: string): (r: int)
    ensures LONG_MIN <= r <= LONG_MAX
    ensures LeadingDigits(SignStripped(SkipSpaces(s))) == [] ==> r == 0
  {
    var t := SkipSpaces(s);
    var v: int := DecimalValue(LeadingDigits(SignStripped(t)));
    if t != [] && t[0] == '-' then
      (if -v < LONG_MIN then LONG_MIN else -v)
    else
      (if v > LONG_MAX then LONG_MAX else v)
  }

  /** `t` without one leading '+' or '-'. */
  function SignStripped(t: string): (r: string)
    ensures t != [] && (t[0] == '+' || t[0] == '-') ==> r == t[1..]
    ensures t == [] || (t[0] != '+' && t[0] != '-') ==> r == t
  {
    if t != [] && (t[0] == '+' || t[0] == '-') then t[1..] else t
  }

  function DigitChar(d: nat): (c: char)
    requires d < 10
    ensures IsDigit(c) && c as int - '0' as int == d
  {
    ('0' as int + d) as char
  }

  /** String(n) for an unsigned n: its decimal digits without leading zeros. */
  function DecimalString(n: nat): (r: string)
    ensures |r| >= 1 && AllDigits(r)
    ensures r[0] == '0' ==> n == 0
    ensures DecimalValue(r) == n
  {
    if n < 10 then [DigitChar(n)]
    else
      var prefix := DecimalString(n / 10);
      var r := prefix + [DigitChar(n % 10)];
      assert r[..|r| - 1] == prefix;
      r
  }

  /** A digit string is its own longest digit prefix. */
  lemma {:induction false} LeadingDigitsOfDigits(ds: string, rest: string)
    requires AllDigits(ds)
    requires rest == [] || !IsDigit(rest[0])
    ensures LeadingDigits(ds + rest) == ds
  {
    if ds != [] {
      assert (ds + rest)[1..] == ds[1..] + rest;
      LeadingDigitsOfDigits(ds[1..], rest);
    } else {
      assert ds + rest == rest;
    }
  }

  lemma ConcatAssoc(a: string, b: string, c: string)
    ensures a + (b + c) == a + b + c
  {
  }

  /** toInt of a text that does not begin with white space. */
  lemma ToIntNoSpace(t: string)
    requires t != [] && !IsSpace(t[0])
    ensures var v: int := DecimalValue(LeadingDigits(SignStripped(t)));
      ToInt(t) == if t[0] == '-' then (if -v < LONG_MIN then LONG_MIN else -v)
                  else if v > LONG_MAX then LONG_MAX else v
  {
    assert SkipSpaces(t) == t;
  }

  /** toInt of a digit string followed by a tail that does not begin
      with a digit is the value of the digits, saturated at LONG_MAX. */
  lemma ToIntOfDigits(ds: string, rest: string)
    requires |ds| > 0 && AllDigits(ds)
    requires rest == [] || !IsDigit(rest[0])
    ensures var v: int := DecimalValue(ds);
      ToInt(ds + rest) == if v > LONG_MAX then LONG_MAX else v
  {
    var t := ds + rest;
    assert t[0] == ds[0] && IsDigit(t[0]);
    assert SignStripped(t) == t;
    LeadingDigitsOfDigits(ds, rest);
    ToIntNoSpace(t);
  }

  /** The same digits behind a minus sign are read negated, down to
      LONG_MIN. */
  lemma ToIntOfNegatedDigits(ds: string, rest: string)
    requires |ds| > 0 && AllDigits(ds) && DecimalValue(ds) <= -LONG_MIN
    requires rest == [] || !IsDigit(rest[0])
    ensures ToInt("-" + ds + rest) == -(DecimalValue(ds) as int)
  {
    LeadingDigitsOfDigits(ds, rest);
    ConcatAssoc("-", ds, rest);
    var s := "-" + (ds + rest);
    assert s[0] == '-' && s[1..] == ds + rest;
    ToIntNoSpace(s);
  }

  /** toInt reads back what String(n) wrote, for every n a long can hold,
      and stops at the first character that is not a digit. */
  lemma ToIntOfDecimalString(n: nat, rest: string)
    requires n <= LONG_MAX
    requires rest == [] || !IsDigit(rest[0])
    ensures ToInt(DecimalString(n) + rest) == n
  {
    ToIntOfDigits(DecimalString(n), rest);
  }

  /** A leading minus sign negates the value read. */
  lemma ToIntOfNegativeDecimalString(n: nat, rest: string)
    requires n <= -LONG_MIN
    requires rest == [] || !IsDigit(rest[0])
    ensures ToInt("-" + DecimalString(n) + rest) == -(n as int)
  {
    ToIntOfNegatedDigits(DecimalString(n), rest);
  }

  /** String(v) for a long v: a minus sign before the digits of |v| when
      v is negative. */
  function SignedDecimalString(v: int): (r: string)
    ensures |r| >= 1 && (r[0] == '-' <==> v < 0)
    ensures forall i :: 0 <= i < |r| ==> IsDigit(r[i]) || r[i] == '-'
  {
    if v < 0 then "-" + DecimalString(-v) else DecimalString(v)
  }

  /** toInt reads back every long written by String(v), followed by a
      tail that does not begin with a digit. */
  lemma ToIntOfSignedDecimalString(v: int, rest: string)
    requires LONG_MIN <= v <= LONG_MAX
    requires rest == [] || !IsDigit(rest[0])
    ensures ToInt(SignedDecimalString(v) + rest) == v
  {
    if v < 0 {
      ToIntOfNegativeDecimalString(-v, rest);
    } else {
      ToIntOfDecimalString(v, rest);
    }
  }

  /** Leading white space does not change the value read. */
  lemma ToIntSkipsSpace(c: char, s: string)
    requires IsSpace(c)
    ensures ToInt([c] + s) == ToInt(s)
  {
    assert ([c] + s)[1..] == s;
  }
}
