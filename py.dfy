/** The pieces of Python the converter leans on: `X | None` values, exceptions
    as values, and the `str` builtins `isspace`, `rstrip()`, `strip()`,
    `endswith`, `capitalize()` and `str(int)`. Strings are sequences of
    Unicode scalar values. */
module Py {

  /** A Python value of type `X | None`. */
  datatype Option<+T> = None | Some(value: T)

  /** The `except` clause of `evaluate_workout` that would catch an exception:
      the builtin class among SyntaxError, NameError and TypeError it derives
      from, or none of them. Every family is a subclass of `Exception`. */
  datatype Family = SyntaxErrorFamily | NameErrorFamily | TypeErrorFamily | OtherFamily

  /** A raised exception: its family, `type(e).__name__` and `str(e)`. */
  datatype Exception = Exception(family: Family, className: string, text: string)

  /** The result of running Python code that may raise. */
  datatype Completion<+T> = Normal(value: T) | Raised(exception: Exception)

  // ---------------------------------------------------------------------------
  // Whitespace, rstrip() and strip()
  // ---------------------------------------------------------------------------

  /** `c.isspace()`: ASCII whitespace, the separators U+001C..U+001F and the
      Unicode space, line and paragraph separators. */
  predicate IsSpace(c: char) {
    || c == ' ' || c == '\t' || c == '\n' || c == '\r' || c == '\U{B}' || c == '\U{C}'
    || ('\U{1C}' <= c <= '\U{1F}')
    || c == '\U{85}' || c == '\U{A0}' || c == '\U{1680}'
    || ('\U{2000}' <= c <= '\U{200A}')
    || c == '\U{2028}' || c == '\U{2029}' || c == '\U{202F}' || c == '\U{205F}' || c == '\U{3000}'
  }

  predicate AllSpace(s: string) {
    forall i :: 0 <= i < |s| ==> IsSpace(s[i])
  }

  /** Neither the first nor the last character is whitespace. */
  predicate Trimmed(s: string) {
    s == [] || (!IsSpace(s[0]) && !IsSpace(s[|s| - 1]))
  }

  /** `s.rstrip()`. */
  function RStrip(s: string): string {
    if |s| > 0 && IsSpace(s[|s| - 1]) then RStrip(s[..|s| - 1]) else s
  }

  /** `s.lstrip()`. */
  function LStrip(s: string): string {
    if |s| > 0 && IsSpace(s[0]) then LStrip(s[1..]) else s
  }

  /** `s.strip()`. */
  function Strip(s: string): string {
    LStrip(RStrip(s))
  }

  /** RStrip keeps the prefix of `s` that does not end in whitespace and is
      followed only by whitespace. */
  lemma {:induction false} RStripSpec(s: string)
    ensures var r := RStrip(s);
      && |r| <= |s| && r == s[..|r|]
      && AllSpace(s[|r|..])
      && (r == [] || !IsSpace(r[|r| - 1]))
    decreases |s|
  {
    if |s| > 0 && IsSpace(s[|s| - 1]) {
      var s' := s[..|s| - 1];
      RStripSpec(s');
      var r := RStrip(s');
      assert s[|r|..] == s'[|r|..] + [s[|s| - 1]];
      assert s'[..|r|] == s[..|r|];
    } else {
      assert s[..|s|] == s;
    }
  }

  /** LStrip, the mirror image: the suffix of `s` that does not start with
      whitespace and is preceded only by whitespace. */
  lemma {:induction false} LStripSpec(s: string)
    ensures var r := LStrip(s);
      && |r| <= |s| && r == s[|s| - |r|..]
      && AllSpace(s[..|s| - |r|])
      && (r == [] || !IsSpace(r[0]))
    decreases |s|
  {
    if |s| > 0 && IsSpace(s[0]) {
      var s' := s[1..];
      LStripSpec(s');
      var r := LStrip(s');
      assert s[..|s| - |r|] == [s[0]] + s'[..|s'| - |r|];
      assert s'[|s'| - |r|..] == s[|s| - |r|..];
    } else {
      assert s[|s| - |s|..] == s;
    }
  }

  /** `r` sits in `s` at offset `i`, with only whitespace before and after it. */
  ghost predicate StrippedAt(s: string, r: string, i: nat) {
    i + |r| <= |s| && s[i..i + |r|] == r && AllSpace(s[..i]) && AllSpace(s[i + |r|..])
  }

  /** Strip keeps the core of `s` between a whitespace head and a whitespace
      tail, and that core neither starts nor ends with whitespace. */
  lemma StripSpec(s: string)
    ensures Trimmed(Strip(s))
    ensures exists i :: StrippedAt(s, Strip(s), i)
  {
    RStripSpec(s);
    var p := RStrip(s);
    LStripSpec(p);
    var r := LStrip(p);
    assert StrippedAt(s, r, |p| - |r|) by {
      assert s[..|p| - |r|] == p[..|p| - |r|];
      assert s[|p| - |r|..|p|] == r;
      assert s[|p| - |r| + |r|..] == s[|p|..];
      if r != [] {
        assert r[|r| - 1] == p[|p| - 1];
      }
    }
  }

  /** RStrip removes exactly a whitespace tail that follows a non-space. */
  lemma {:induction false} RStripPadded(s: string, k: nat)
    requires k <= |s| && AllSpace(s[k..]) && (k == 0 || !IsSpace(s[k - 1]))
    ensures RStrip(s) == s[..k]
    decreases |s|
  {
    if k < |s| {
      var s' := s[..|s| - 1];
      assert IsSpace(s[k..][|s| - 1 - k]);
      assert s'[k..] == s[k..][..|s| - 1 - k];
      RStripPadded(s', k);
      assert s'[..k] == s[..k];
    } else if |s| > 0 {
      assert s[..k] == s;
    }
  }

  /** LStrip removes exactly a whitespace head that precedes a non-space. */
  lemma {:induction false} LStripPadded(s: string, k: nat)
    requires k <= |s| && AllSpace(s[..k]) && (k == |s| || !IsSpace(s[k]))
    ensures LStrip(s) == s[k..]
    decreases k
  {
    if k > 0 {
      assert IsSpace(s[..k][0]);
      assert s[1..][..k - 1] == s[..k][1..];
      LStripPadded(s[1..], k - 1);
      assert s[1..][k - 1..] == s[k..];
    }
  }

  /** The two properties of Strip's contract pin its result down: the trimmed
      core of `s` is unique. */
  lemma StripUnique(s: string, m: string, i: nat)
    requires StrippedAt(s, m, i) && Trimmed(m)
    ensures Strip(s) == m
  {
    if m == [] {
      assert AllSpace(s[0..]) by {
        forall k | 0 <= k < |s| ensures IsSpace(s[k]) {
          if k < i { assert s[k] == s[..i][k]; } else { assert s[k] == s[i..][k - i]; }
        }
      }
      RStripPadded(s, 0);
    } else {
      var j := i + |m|;
      assert s[j - 1] == m[|m| - 1];
      RStripPadded(s, j);
      var p := s[..j];
      assert p[..i] == s[..i] && p[i] == m[0];
      LStripPadded(p, i);
      assert p[i..] == m;
    }
  }

  lemma StripIdempotent(s: string)
    ensures Strip(Strip(s)) == Strip(s)
  {
    var r := Strip(s);
    StripSpec(s);
    assert StrippedAt(r, r, 0) by { assert r[..0] == [] && r[|r|..] == []; }
    StripUnique(r, r, 0);
  }

  // ---------------------------------------------------------------------------
  // startswith, endswith, capitalize
  // ---------------------------------------------------------------------------

  /** `s.startswith(prefix)`. */
  predicate StartsWith(s: string, prefix: string) {
    |prefix| <= |s| && s[..|prefix|] == prefix
  }

  /** `s.endswith(suffix)`. */
  predicate EndsWith(s: string, suffix: string) {
    |suffix| <= |s| && s[|s| - |suffix|..] == suffix
  }

  /** `sub` occurs in `s` starting at index `i`. */
  predicate OccursAt(s: string, sub: string, i: nat) {
    i + |sub| <= |s| && s[i..i + |sub|] == sub
  }

  predicate IsAsciiLower(c: char) { 'a' <= c <= 'z' }
  predicate IsAsciiUpper(c: char) { 'A' <= c <= 'Z' }

  function ToUpper(c: char): (u: char)
    ensures !IsAsciiLower(u)
    ensures IsAsciiUpper(u) <==> IsAsciiUpper(c) || IsAsciiLower(c)
  {
    if IsAsciiLower(c) then (c as int - 32) as char else c
  }

  function ToLower(c: char): (l: char)
    ensures !IsAsciiUpper(l)
    ensures IsAsciiLower(l) <==> IsAsciiUpper(c) || IsAsciiLower(c)
  {
    if IsAsciiUpper(c) then (c as int + 32) as char else c
  }

  /** `s.lower()` on the ASCII letters. */
  function LowerAll(s: string): (r: string)
    ensures |r| == |s|
    ensures forall i :: 0 <= i < |s| ==> r[i] == ToLower(s[i])
  {
    if s == [] then [] else [ToLower(s[0])] + LowerAll(s[1..])
  }

  /** `s.capitalize()`: the first character in upper case, every other one in
      lower case. */
  function Capitalize(s: string): (r: string)
    ensures |r| == |s|
    ensures |s| > 0 ==> r[0] == ToUpper(s[0])
    ensures forall i :: 0 < i < |s| ==> r[i] == ToLower(s[i])
  {
    if s == [] then [] else [ToUpper(s[0])] + LowerAll(s[1..])
  }

  // ---------------------------------------------------------------------------
  // str(n) for an integer
  // ---------------------------------------------------------------------------

  predicate IsDigit(c: char) { '0' <= c <= '9' }

  function DigitChar(d: nat): (c: char)
    requires d < 10
    ensures IsDigit(c) && c as int - '0' as int == d
  {
    ('0' as int + d) as char
  }

  /** `str(n)` for `n >= 0`: decimal digits without leading zeros. */
  function NatToString(n: nat): (r: string)
    ensures |r| > 0 && forall i :: 0 <= i < |r| ==> IsDigit(r[i])
    ensures |r| > 1 ==> r[0] != '0'
  {
    if n < 10 then [DigitChar(n)] else NatToString(n / 10) + [DigitChar(n % 10)]
  }

  /** The number a string of decimal digits denotes. */
  function DigitsValue(s: string): nat
    requires forall i :: 0 <= i < |s| ==> IsDigit(s[i])
  {
    if s == [] then 0 else assert IsDigit(s[|s| - 1]); DigitsValue(s[..|s| - 1]) * 10 + (s[|s| - 1] as int - '0' as int)
  }

  lemma {:induction false} NatToStringRoundTrip(n: nat)
    ensures DigitsValue(NatToString(n)) == n
  {
    if n >= 10 {
      NatToStringRoundTrip(n / 10);
      var r := NatToString(n);
      assert r[..|r| - 1] == NatToString(n / 10);
    }
  }

  /** `str(n)` for any integer. */
  function IntToString(n: int): (r: string)
    ensures n >= 0 ==> r == NatToString(n)
    ensures n < 0 ==> |r| > 1 && r[0] == '-' && r[1..] == NatToString(-n)
  {
    if n < 0 then "-" + NatToString(-n) else NatToString(n)
  }
}
