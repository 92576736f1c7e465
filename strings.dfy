/**
 * The few string operations of the Kotlin and Python standard libraries that
 * the card generator relies on: trimming, prefix/suffix/substring tests,
 * case mapping and decimal rendering.
 */
module Strings {

  /** Which language's whitespace rule a trim follows. */
  datatype Flavor = Kotlin | Python

  /**
   * Kotlin's `Char.isWhitespace()` on the JVM: `Character.isWhitespace` or
   * `Character.isSpaceChar`, i.e. the ASCII controls TAB..CR and FS..US plus
   * the Unicode space, line and paragraph separators.
   */
  predicate IsKotlinSpace(c: char) {
    || c == ' '
    || ('\t' <= c <= '\r')
    || ('\U{1C}' <= c <= '\U{1F}')
    || c == '\U{A0}' || c == '\U{1680}'
    || ('\U{2000}' <= c <= '\U{200A}')
    || c == '\U{2028}' || c == '\U{2029}' || c == '\U{202F}' || c == '\U{205F}' || c == '\U{3000}'
  }

  /** Python's `str.isspace()` accepts the same characters plus NEL (U+0085). */
  predicate IsSpace(c: char, f: Flavor) {
    IsKotlinSpace(c) || (f == Python && c == '\U{85}')
  }

  function TrimStart(s: string, f: Flavor): (r: string)
    ensures |r| <= |s| && r == s[|s| - |r|..]
    ensures r == [] || !IsSpace(r[0], f)
    ensures forall i :: 0 <= i < |s| - |r| ==> IsSpace(s[i], f)
  {
    if |s| > 0 && IsSpace(s[0], f) then TrimStart(s[1..], f) else s
  }

  function TrimEnd(s: string, f: Flavor): (r: string)
    ensures |r| <= |s| && r == s[..|r|]
    ensures r == [] || !IsSpace(r[|r| - 1], f)
    ensures forall i :: |r| <= i < |s| ==> IsSpace(s[i], f)
  {
    if |s| > 0 && IsSpace(s[|s| - 1], f) then TrimEnd(s[..|s| - 1], f) else s
  }

  /** Kotlin `trim()` (flavor Kotlin) and Python `strip()` (flavor Python). */
  function Trim(s: string, f: Flavor): (r: string)
    ensures r == [] || (!IsSpace(r[0], f) && !IsSpace(r[|r| - 1], f))
  {
    TrimEnd(TrimStart(s, f), f)
  }

  /** Trimming only removes characters. */
  lemma TrimShrinks(s: string, f: Flavor)
    ensures |Trim(s, f)| <= |s|
    ensures forall c :: c in Trim(s, f) ==> c in s
  {
    var t := TrimStart(s, f);
    assert forall c :: c in t ==> c in s by {
      assert t == s[|s| - |t|..];
    }
    assert forall c :: c in Trim(s, f) ==> c in t by {
      assert Trim(s, f) == t[..|Trim(s, f)|];
    }
  }

  /** A string that neither starts nor ends with whitespace is its own trim. */
  lemma TrimUnpadded(s: string, f: Flavor)
    requires s == [] || (!IsSpace(s[0], f) && !IsSpace(s[|s| - 1], f))
    ensures Trim(s, f) == s
  {
  }

  lemma TrimIdempotent(s: string, f: Flavor)
    ensures Trim(Trim(s, f), f) == Trim(s, f)
  {
    TrimUnpadded(Trim(s, f), f);
  }

  predicate StartsWith(s: string, p: string) {
    |p| <= |s| && s[..|p|] == p
  }

  predicate EndsWith(s: string, p: string) {
    |p| <= |s| && s[|s| - |p|..] == p
  }

  /** A prefix of a prefix is a prefix. */
  lemma PrefixOfPrefix(s: string, p: string, q: string)
    requires StartsWith(p, q)
    ensures StartsWith(s, p) ==> StartsWith(s, q)
  {
    if StartsWith(s, p) {
      assert s[..|q|] == s[..|p|][..|q|];
    }
  }

  /** Strings ending in different characters do not end one with the other. */
  lemma LastCharDiffers(s: string, p: string)
    requires |s| > 0 && |p| > 0 && s[|s| - 1] != p[|p| - 1]
    ensures !EndsWith(s, p)
  {
    if |p| <= |s| {
      assert s[|s| - |p|..][|p| - 1] == s[|s| - 1];
    }
  }

  /** Kotlin `contains` / Python `in` on strings: `p` occurs somewhere in `s`. */
  predicate Contains(s: string, p: string)
    decreases |s|
  {
    StartsWith(s, p) || (|s| > 0 && Contains(s[1..], p))
  }

  /** Nothing contains a longer string. */
  lemma {:induction false} ContainsShorter(s: string, p: string)
    requires |s| < |p|
    ensures !Contains(s, p)
    decreases |s|
  {
    if |s| > 0 {
      ContainsShorter(s[1..], p);
    }
  }

  /** Unfolds `Contains` once: an occurrence starts here or further on. */
  lemma ContainsStep(s: string, p: string)
    requires |s| > 0 && (|p| > |s| || s[..|p|] != p)
    ensures Contains(s, p) == Contains(s[1..], p)
  {
  }

  lemma {:induction false} ContainsAt(s: string, p: string, i: nat)
    requires i + |p| <= |s| && s[i..i + |p|] == p
    ensures Contains(s, p)
    decreases i
  {
    if i > 0 {
      assert s[1..][i - 1..i - 1 + |p|] == s[i..i + |p|];
      ContainsAt(s[1..], p, i - 1);
    }
  }

  lemma {:induction false} ContainsWitness(s: string, p: string) returns (i: nat)
    requires Contains(s, p)
    ensures i + |p| <= |s| && s[i..i + |p|] == p
    decreases |s|
  {
    if StartsWith(s, p) {
      i := 0;
    } else {
      var j := ContainsWitness(s[1..], p);
      assert s[1..][j..j + |p|] == s[j + 1..j + 1 + |p|];
      i := j + 1;
    }
  }

  /** Occurrence is transitive: a string containing `p` contains everything `p` contains. */
  lemma ContainsTransitive(s: string, p: string, q: string)
    requires Contains(s, p) && Contains(p, q)
    ensures Contains(s, q)
  {
    var i := ContainsWitness(s, p);
    var j := ContainsWitness(p, q);
    assert forall k :: 0 <= k < |q| ==> q[k] == p[j + k] == s[i + j + k];
    assert s[i + j..i + j + |q|] == p[j..j + |q|];
    ContainsAt(s, q, i + j);
  }

  /** Appending a character that does not end `p` cannot create an occurrence of `p`. */
  lemma {:induction false} ContainsAppend(s: string, c: char, p: string)
    requires |p| > 0 && p[|p| - 1] != c
    ensures Contains(s + [c], p) == Contains(s, p)
    decreases |s|
  {
    var t := s + [c];
    if |p| <= |s| {
      assert t[..|p|] == s[..|p|];
    }
    if |s| > 0 {
      assert t[1..] == s[1..] + [c];
      ContainsAppend(s[1..], c, p);
    }
  }

  function UpperChar(c: char): char {
    if 'a' <= c <= 'z' then (c as int - 32) as char else c
  }

  function LowerChar(c: char): char {
    if 'A' <= c <= 'Z' then (c as int + 32) as char else c
  }

  /** Kotlin `uppercase()` / Python `upper()`, restricted to ASCII letters. */
  function Upper(s: string): (r: string)
    ensures |r| == |s|
  {
    seq(|s|, i requires 0 <= i < |s| => UpperChar(s[i]))
  }

  /** Upper-casing twice is upper-casing once. */
  lemma UpperIdempotent(s: string)
    ensures Upper(Upper(s)) == Upper(s)
  {
  }

  /** Python `lower()`, restricted to ASCII letters. */
  function Lower(s: string): (r: string)
    ensures |r| == |s|
  {
    seq(|s|, i requires 0 <= i < |s| => LowerChar(s[i]))
  }

  predicate IsDigit(c: char) {
    '0' <= c <= '9'
  }

  predicate AllDigits(s: string) {
    forall i :: 0 <= i < |s| ==> IsDigit(s[i])
  }

  function DigitChar(d: nat): (c: char)
    requires d < 10
    ensures IsDigit(c)
  {
    ('0' as int + d) as char
  }

  /** Python `str(n)` / Kotlin `n.toString()` for a non-negative integer. */
  function Decimal(n: nat): (s: string)
    ensures |s| > 0 && AllDigits(s)
    decreases n
  {
    if n < 10 then [DigitChar(n)] else Decimal(n / 10) + [DigitChar(n % 10)]
  }

  /** The value a string of decimal digits denotes. */
  function DecimalValue(s: string): nat
    requires AllDigits(s)
  {
    if s == [] then 0 else DecimalValue(s[..|s| - 1]) * 10 + (s[|s| - 1] as int - '0' as int)
  }

  lemma {:induction false} DecimalRoundTrip(n: nat)
    ensures DecimalValue(Decimal(n)) == n
    decreases n
  {
    if n >= 10 {
      var s := Decimal(n);
      assert s[..|s| - 1] == Decimal(n / 10);
      DecimalRoundTrip(n / 10);
    }
  }
}
