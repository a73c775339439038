/** The PHP string behaviour the client depends on: truthiness of strings,
    `strpos`, interpolation of integers and booleans into a string, and the
    small parsers used to read a built URL back. */
module Text {
  import opened Results

  /** PHP converts a string to `false` exactly when it is "" or "0". */
  predicate Truthy(s: string) {
    s != "" && s != "0"
  }

  /** A PHP value that is either NULL or a string, converted to bool. */
  predicate TruthyOpt(s: Option<string>) {
    s.Some? && Truthy(s.value)
  }

  predicate OccursAt(s: string, pat: string, i: nat) {
    i + |pat| <= |s| && s[i..i + |pat|] == pat
  }

  ghost predicate Contains(s: string, pat: string) {
    exists i: nat :: OccursAt(s, pat, i)
  }

  /** The first position at or after `from` where `pat` occurs in `s`. */
  function IndexFrom(s: string, pat: string, from: nat): (r: Option<nat>)
    decreases |s| + 1 - from
    ensures r.Some? ==> from <= r.value && OccursAt(s, pat, r.value)
    ensures r.Some? ==> forall i: nat :: from <= i < r.value ==> !OccursAt(s, pat, i)
    ensures r.None? ==> forall i: nat :: from <= i ==> !OccursAt(s, pat, i)
  {
    if from + |pat| > |s| then None
    else if OccursAt(s, pat, from) then Some(from)
    else IndexFrom(s, pat, from + 1)
  }

  /** PHP's `strpos($s, $pat)`: the first position of `pat` in `s`, or
      FALSE (None). */
  function Strpos(s: string, pat: string): (r: Option<nat>)
    ensures r.Some? <==> Contains(s, pat)
    ensures r.Some? ==> OccursAt(s, pat, r.value)
    ensures r.Some? ==> forall i: nat :: i < r.value ==> !OccursAt(s, pat, i)
  {
    var r := IndexFrom(s, pat, 0);
    assert r.Some? ==> OccursAt(s, pat, r.value);
    r
  }

  /** The truth value of `strpos($s, $pat)`: a match at position 0 is the
      integer 0, which PHP treats as false just like "not found". */
  predicate StrposTruthy(s: string, pat: string)
  {
    var r := Strpos(s, pat);
    r.Some? && r.value != 0
  }

  lemma StrposTruthyMeaning(s: string, pat: string)
    ensures StrposTruthy(s, pat) <==> Contains(s, pat) && !OccursAt(s, pat, 0)
  {
  }

  /** A text that lacks the first character of `pat` cannot contain `pat`. */
  lemma NoFirstCharNoMatch(s: string, pat: string)
    requires |pat| > 0 && pat[0] !in s
    ensures !Contains(s, pat)
  {
  }

  /** A pattern followed by two texts occurs right after what precedes it. */
  lemma OccursAtJoin(a: string, pat: string, b: string, c: string)
    ensures OccursAt(a + pat + b + c, pat, |a|)
  {
    assert (a + pat + b + c)[|a|..|a| + |pat|] == pat;
  }

  /** A pattern at the end of a text occurs right after what precedes it. */
  lemma OccursAtEnd(a: string, pat: string)
    ensures OccursAt(a + pat, pat, |a|)
  {
    assert (a + pat)[|a|..|a| + |pat|] == pat;
  }

  /** The parts of a text built as `a + m + b`. */
  lemma Framed(a: string, m: string, b: string)
    ensures
      var s := a + m + b;
      && |s| == |a| + |m| + |b|
      && s[..|a|] == a && s[|s| - |b|..] == b && s[|a|..|s| - |b|] == m
  {
    var s := a + m + b;
    assert s[..|a|] == a;
    assert s[|s| - |b|..] == b;
    assert s[|a|..|s| - |b|] == m;
  }

  /** Regrouping a concatenation of four texts from the right. */
  lemma Regroup4(a: string, b: string, c: string, d: string)
    ensures a + b + c + d == a + (b + c + d)
  {
  }

  /** Regrouping a concatenation of six texts from the right. */
  lemma Regroup(a: string, b: string, c: string, d: string, e: string, f: string)
    ensures a + b + c + d + e + f == a + (b + c + (d + e + f))
  {
  }

  lemma NotInJoin(c: char, a: string, b: string)
    requires c !in a && c !in b
    ensures c !in a + b
  {
  }

  // ----- splitting at a separator -----

  /** Splits `s` at the first occurrence of `c`. */
  function Split(s: string, c: char): (r: Option<(string, string)>)
    ensures r.Some? ==> s == r.value.0 + [c] + r.value.1 && c !in r.value.0
    ensures r.None? ==> c !in s
  {
    if |s| == 0 then None
    else if s[0] == c then Some(([], s[1..]))
    else match Split(s[1..], c)
      case None => None
      case Some(parts) => Some(([s[0]] + parts.0, parts.1))
  }

  /** Splitting a joined text at a separator the first part does not
      contain gives the two parts back. */
  lemma {:induction false} SplitJoin(a: string, c: char, b: string)
    requires c !in a
    ensures Split(a + [c] + b, c) == Some((a, b))
  {
    if a != [] {
      assert (a + [c] + b)[1..] == a[1..] + [c] + b;
      SplitJoin(a[1..], c, b);
      assert [a[0]] + a[1..] == a;
    }
  }

  // ----- integers and booleans interpolated into a string -----

  predicate IsDigit(ch: char) {
    '0' <= ch <= '9'
  }

  function DigitChar(d: nat): (ch: char)
    requires d < 10
    ensures IsDigit(ch)
  {
    ('0' as int + d) as char
  }

  function DigitValue(ch: char): (d: nat)
    requires IsDigit(ch)
    ensures d < 10 && DigitChar(d) == ch
  {
    ch as int - '0' as int
  }

  /** Decimal digits of a natural number, most significant first. */
  function NatToString(n: nat): (s: string)
    decreases n
    ensures |s| >= 1
    ensures forall i :: 0 <= i < |s| ==> IsDigit(s[i])
  {
    if n < 10 then [DigitChar(n)] else NatToString(n / 10) + [DigitChar(n % 10)]
  }

  /** `"$n"` for a PHP integer `n`. */
  function IntToString(n: int): (s: string)
    ensures forall i :: 0 <= i < |s| ==> IsDigit(s[i]) || s[i] == '-'
  {
    if n < 0 then "-" + NatToString(-n) else NatToString(n)
  }

  /** `"$b"` for a PHP boolean: TRUE is "1" and FALSE is the empty string. */
  function BoolToString(b: bool): (s: string)
    ensures Truthy(s) == b
  {
    if b then "1" else ""
  }

  function ParseNat(s: string): Option<nat>
    decreases |s|
  {
    if |s| == 0 || !IsDigit(s[|s| - 1]) then None
    else if |s| == 1 then Some(DigitValue(s[0]))
    else match ParseNat(s[..|s| - 1])
      case None => None
      case Some(n) => Some(n * 10 + DigitValue(s[|s| - 1]))
  }

  function ParseInt(s: string): Option<int>
  {
    if |s| > 0 && s[0] == '-' then
      match ParseNat(s[1..])
      case None => None
      case Some(n) => var v: int := n; Some(-v)
    else ParseNat(s)
  }

  lemma {:induction false} NatToStringRoundTrip(n: nat)
    ensures ParseNat(NatToString(n)) == Some(n)
    decreases n
  {
    if n >= 10 {
      var s := NatToString(n);
      NatToStringRoundTrip(n / 10);
      assert s[..|s| - 1] == NatToString(n / 10);
    }
  }

  /** The decimal text of an integer reads back as that integer. */
  lemma IntToStringRoundTrip(n: int)
    ensures ParseInt(IntToString(n)) == Some(n)
  {
    var s := IntToString(n);
    if n < 0 {
      NatToStringRoundTrip(-n);
      assert s == "-" + NatToString(-n);
      assert s[0] == '-' && s[1..] == NatToString(-n);
    } else {
      NatToStringRoundTrip(n);
      assert s == NatToString(n);
      assert IsDigit(s[0]);
    }
  }
}
