/**
  The Python string built-ins the post generator and the image-path guard rely
  on: `str(n)` for a non-negative integer, `str.strip()` with no argument, and
  `str.split(sep)` for a one-character separator and `str.endswith` (both used
  only in contracts, to state the shape of a post and of the image path).
 */
module PyText {
  import opened Wrappers

  // ---------------------------------------------------------------------------
  // str(n) for n >= 0, and its inverse on canonical decimal strings

  predicate IsDigit(c: char) {
    '0' <= c <= '9'
  }

  function DigitValue(c: char): (d: nat)
    requires IsDigit(c)
    ensures d < 10
  {
    (c as int) - ('0' as int)
  }

  function DigitChar(d: nat): (c: char)
    requires d < 10
    ensures IsDigit(c) && DigitValue(c) == d
  {
    (d + '0' as int) as char
  }

  predicate AllDigits(s: string) {
    forall i :: 0 <= i < |s| ==> IsDigit(s[i])
  }

  /** What `str` prints for a non-negative int: digits only, no leading zero except for "0". */
  predicate Canonical(s: string) {
    |s| > 0 && AllDigits(s) && (s[0] == '0' ==> |s| == 1)
  }

  /** `str(n)` for a non-negative integer `n`. */
  function Str(n: nat): (s: string)
    ensures Canonical(s)
    ensures s[0] == '0' <==> n == 0
    decreases n
  {
    if n < 10 then [DigitChar(n)] else Str(n / 10) + [DigitChar(n % 10)]
  }

  /** The number a string of digits denotes, most significant digit first. */
  function Value(s: string): nat
    requires AllDigits(s)
    decreases |s|
  {
    if |s| == 0 then 0 else Value(s[..|s| - 1]) * 10 + DigitValue(s[|s| - 1])
  }

  /** Reads back a string `Str` could have produced; anything else is rejected. */
  function ParseCanonical(s: string): (r: Option<nat>)
    ensures r.Some? <==> Canonical(s)
  {
    if Canonical(s) then Some(Value(s)) else None
  }

  /** Rendering then parsing gives the number back. */
  lemma {:induction false} StrRoundTrip(n: nat)
    ensures ParseCanonical(Str(n)) == Some(n)
    decreases n
  {
    if n >= 10 {
      StrRoundTrip(n / 10);
      var p, c := Str(n / 10), DigitChar(n % 10);
      assert (p + [c])[..|p|] == p;
      assert Value(p + [c]) == (n / 10) * 10 + n % 10 == n;
      assert Str(n) == p + [c];
    } else {
      var s := [DigitChar(n)];
      assert s[..0] == [];
      assert Value(s) == Value([]) * 10 + DigitValue(s[0]) == n;
    }
  }

  lemma {:induction false} ValuePositive(s: string)
    requires AllDigits(s) && |s| > 0 && s[0] != '0'
    ensures Value(s) >= 1
    decreases |s|
  {
    if |s| > 1 {
      ValuePositive(s[..|s| - 1]);
    }
  }

  /** Parsing then rendering gives the string back: `Str` is onto the canonical strings. */
  lemma {:induction false} ParseRoundTrip(s: string, n: nat)
    requires ParseCanonical(s) == Some(n)
    ensures Str(n) == s
    decreases |s|
  {
    if |s| > 1 {
      var p, c := s[..|s| - 1], s[|s| - 1];
      assert s == p + [c];
      assert p[0] == s[0];
      ValuePositive(p);
      ParseRoundTrip(p, Value(p));
    }
  }

  /** Distinct numbers render differently. */
  lemma StrInjective(m: nat, n: nat)
    requires Str(m) == Str(n)
    ensures m == n
  {
    StrRoundTrip(m);
    StrRoundTrip(n);
  }

  // ---------------------------------------------------------------------------
  // str.strip()

  /** `str.isspace()` of one character: the code points Python treats as whitespace. */
  predicate IsSpace(c: char) {
    || c == ' ' || '\t' <= c <= '\r' || '\U{1C}' <= c <= '\U{1F}'
    || c == '\U{85}' || c == '\U{A0}' || c == '\U{1680}'
    || '\U{2000}' <= c <= '\U{200A}' || c == '\U{2028}' || c == '\U{2029}'
    || c == '\U{202F}' || c == '\U{205F}' || c == '\U{3000}'
  }

  predicate AllSpace(s: string) {
    forall i :: 0 <= i < |s| ==> IsSpace(s[i])
  }

  /** `s.lstrip()`: the longest suffix of `s` that does not start with whitespace. */
  function LStrip(s: string): (r: string)
    ensures |r| <= |s| && r == s[|s| - |r|..]
    ensures r == [] || !IsSpace(r[0])
    ensures AllSpace(s[..|s| - |r|])
    decreases |s|
  {
    if |s| > 0 && IsSpace(s[0]) then
      var r := LStrip(s[1..]);
      assert s[..|s| - |r|] == [s[0]] + s[1..][..|s| - 1 - |r|];
      r
    else
      s
  }

  /** `s.rstrip()`: the longest prefix of `s` that does not end with whitespace. */
  function RStrip(s: string): (r: string)
    ensures |r| <= |s| && r == s[..|r|]
    ensures r == [] || !IsSpace(r[|r| - 1])
    ensures AllSpace(s[|r|..])
    decreases |s|
  {
    if |s| > 0 && IsSpace(s[|s| - 1]) then
      var r := RStrip(s[..|s| - 1]);
      assert s[|r|..] == s[..|s| - 1][|r|..] + [s[|s| - 1]];
      r
    else
      s
  }

  /** `s.strip()`: empty exactly when every character of `s` is whitespace. */
  function Strip(s: string): (r: string)
    ensures r == [] <==> AllSpace(s)
  {
    RStrip(LStrip(s))
  }

  // ---------------------------------------------------------------------------
  // str.split(sep) for a one-character separator, and str.endswith

  /** `s.split(sep)`: the pieces between separators, empty pieces included. */
  function Split(s: string, sep: char): (parts: seq<string>)
    ensures |parts| >= 1
    decreases |s|
  {
    if |s| == 0 then [""]
    else
      var rest := Split(s[1..], sep);
      if s[0] == sep then [""] + rest else [[s[0]] + rest[0]] + rest[1..]
  }

  /** A piece without the separator followed by the separator splits off as one part. */
  lemma {:induction false} SplitConcat(a: string, b: string, sep: char)
    requires sep !in a
    ensures Split(a + [sep] + b, sep) == [a] + Split(b, sep)
    decreases |a|
  {
    var s := a + [sep] + b;
    if a == [] {
      assert s[1..] == b;
    } else {
      assert s[1..] == a[1..] + [sep] + b;
      SplitConcat(a[1..], b, sep);
      assert [a[0]] + a[1..] == a;
    }
  }

  /** `s.endswith(suffix)`. */
  predicate EndsWith(s: string, suffix: string) {
    |suffix| <= |s| && s[|s| - |suffix|..] == suffix
  }
}
