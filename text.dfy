/**
 * String operations the JavaScript code relies on: `includes`, `startsWith`,
 * `trim`, `toLowerCase`/`toUpperCase` and counting the matches of a global
 * regular expression made of a literal keyword.
 *
 * Case mapping covers ASCII letters and the basic Cyrillic block
 * (U+0400 to U+044F, U+0450 to U+045F); every other character maps to itself.
 */
module Text {

  // ---------------------------------------------------------------------------
  // Substrings
  // ---------------------------------------------------------------------------

  /** `s.startsWith(p)` */
  predicate StartsWith(s: string, p: string) {
    |p| <= |s| && s[..|p|] == p
  }

  /** `s.startsWith(p)` compares the first `|p|` characters one by one. */
  lemma {:induction false} StartsWithChars(s: string, p: string)
    ensures StartsWith(s, p) <==> |p| <= |s| && forall i :: 0 <= i < |p| ==> s[i] == p[i]
  {
  }

  /** `s.includes(p)`, searched from the left. */
  predicate Contains(s: string, p: string)
    ensures Contains(s, p) ==> |p| <= |s|
    ensures StartsWith(s, p) ==> Contains(s, p)
    decreases |s|
  {
    StartsWith(s, p) || (|s| > 0 && Contains(s[1..], p))
  }

  /** A text shorter than the pattern cannot contain it. */
  lemma {:induction false} ShortNotContains(s: string, p: string)
    requires |s| < |p|
    ensures !Contains(s, p)
    decreases |s|
  {
    if |s| > 0 {
      ShortNotContains(s[1..], p);
    }
  }

  /** `p` occurs in `s` at position `i`. */
  predicate OccursAt(s: string, p: string, i: nat) {
    i + |p| <= |s| && s[i..i + |p|] == p
  }

  /** `s.includes(p)` holds exactly when `p` occurs at some position of `s`. */
  lemma {:induction false} ContainsIffOccurs(s: string, p: string)
    ensures Contains(s, p) <==> exists i :: OccursAt(s, p, i)
    decreases |s|
  {
    if StartsWith(s, p) {
      assert OccursAt(s, p, 0);
    } else if |s| > 0 {
      ContainsIffOccurs(s[1..], p);
      if Contains(s[1..], p) {
        var i: nat :| OccursAt(s[1..], p, i);
        TailSlice(s, i + 1, |p|);
        assert OccursAt(s, p, i + 1);
      } else {
        var t := s[1..];
        assert forall j: nat :: !OccursAt(t, p, j);
        forall i: nat ensures !OccursAt(s, p, i) {
          if i > 0 && i + |p| <= |s| {
            TailSlice(s, i, |p|);
            assert !OccursAt(t, p, i - 1);
          }
        }
      }
    } else {
      forall i: nat ensures !OccursAt(s, p, i) {
      }
    }
  }

  /** A slice of `s` away from its start is the shifted slice of `s[1..]`. */
  lemma TailSlice(s: string, i: nat, n: nat)
    requires 0 < i && i + n <= |s|
    ensures s[i..i + n] == s[1..][i - 1..i - 1 + n]
  {
    var a, b := s[i..i + n], s[1..][i - 1..i - 1 + n];
    assert |a| == |b| == n;
    forall k | 0 <= k < n ensures a[k] == b[k] {
      assert a[k] == s[i + k];
      assert b[k] == s[1..][i - 1 + k];
    }
  }

  /** Every string contains itself at its own start, with anything after it. */
  lemma {:induction false} PrefixContained(p: string, rest: string)
    ensures Contains(p + rest, p)
  {
    assert (p + rest)[..|p|] == p;
  }

  /** A text that contains `p` still contains it with more text appended. */
  lemma {:induction false} ContainsAppend(a: string, b: string, p: string)
    requires Contains(a, p)
    ensures Contains(a + b, p)
    decreases |a|
  {
    if StartsWith(a, p) {
      assert (a + b)[..|p|] == a[..|p|];
    } else {
      ContainsAppend(a[1..], b, p);
      assert (a + b)[1..] == a[1..] + b;
    }
  }

  /**
   * Number of non-overlapping matches, scanning from the left, that
   * `s.match(new RegExp(p, 'g'))` finds for a keyword `p` free of
   * regular-expression metacharacters.
   */
  function CountOccurrences(s: string, p: string): (n: nat)
    requires |p| > 0
    ensures n <= |s|
    decreases |s|
  {
    if |s| < |p| then 0
    else if s[..|p|] == p then 1 + CountOccurrences(s[|p|..], p)
    else CountOccurrences(s[1..], p)
  }

  /** A keyword is counted at least once exactly when the text contains it. */
  lemma {:induction false} CountPositiveIffContains(s: string, p: string)
    requires |p| > 0
    ensures CountOccurrences(s, p) > 0 <==> Contains(s, p)
    decreases |s|
  {
    if |s| < |p| {
      ShortNotContains(s, p);
    } else if s[..|p|] == p {
      assert StartsWith(s, p);
    } else {
      CountPositiveIffContains(s[1..], p);
      assert !StartsWith(s, p);
    }
  }

  // ---------------------------------------------------------------------------
  // Case mapping
  // ---------------------------------------------------------------------------

  function ToLowerChar(c: char): (d: char) {
    if 'A' <= c <= 'Z' then (c as int + 32) as char
    else if '\U{0410}' <= c <= '\U{042F}' then (c as int + 0x20) as char
    else if '\U{0400}' <= c <= '\U{040F}' then (c as int + 0x50) as char
    else c
  }

  function ToUpperChar(c: char): (d: char) {
    if 'a' <= c <= 'z' then (c as int - 32) as char
    else if '\U{0430}' <= c <= '\U{044F}' then (c as int - 0x20) as char
    else if '\U{0450}' <= c <= '\U{045F}' then (c as int - 0x50) as char
    else c
  }

  /** `s.toLowerCase()` */
  function ToLower(s: string): (r: string)
    ensures |r| == |s|
    ensures forall i :: 0 <= i < |s| ==> r[i] == ToLowerChar(s[i])
  {
    seq(|s|, i requires 0 <= i < |s| => ToLowerChar(s[i]))
  }

  /** `s.toUpperCase()` */
  function ToUpper(s: string): (r: string)
    ensures |r| == |s|
    ensures forall i :: 0 <= i < |s| ==> r[i] == ToUpperChar(s[i])
  {
    seq(|s|, i requires 0 <= i < |s| => ToUpperChar(s[i]))
  }

  lemma {:induction false} ToLowerAppend(a: string, b: string)
    ensures ToLower(a + b) == ToLower(a) + ToLower(b)
  {
  }

  lemma {:induction false} ToUpperCharIdempotent(c: char)
    ensures ToUpperChar(ToUpperChar(c)) == ToUpperChar(c)
  {
  }

  lemma {:induction false} ToUpperIdempotent(s: string)
    ensures ToUpper(ToUpper(s)) == ToUpper(s)
  {
    forall i | 0 <= i < |s| ensures ToUpper(ToUpper(s))[i] == ToUpper(s)[i] {
      ToUpperCharIdempotent(s[i]);
    }
  }

  // ---------------------------------------------------------------------------
  // Whitespace and trim
  // ---------------------------------------------------------------------------

  /** The characters `String.prototype.trim` removes: WhiteSpace and LineTerminator. */
  predicate IsWhitespace(c: char) {
    c == '\t' || c == '\n' || c == '\U{000B}' || c == '\U{000C}' || c == '\r' || c == ' '
    || c == '\U{00A0}' || c == '\U{1680}' || ('\U{2000}' <= c <= '\U{200A}')
    || c == '\U{2028}' || c == '\U{2029}' || c == '\U{202F}' || c == '\U{205F}'
    || c == '\U{3000}' || c == '\U{FEFF}'
  }

  /** Case mapping never turns whitespace into something else, nor the converse. */
  lemma {:induction false} ToUpperCharKeepsWhitespace(c: char)
    ensures IsWhitespace(ToUpperChar(c)) <==> IsWhitespace(c)
  {
  }

  function TrimStart(s: string): (r: string)
    ensures |r| <= |s|
    ensures r == s[|s| - |r|..]
    ensures r == [] || !IsWhitespace(r[0])
    ensures forall i :: 0 <= i < |s| - |r| ==> IsWhitespace(s[i])
  {
    if |s| > 0 && IsWhitespace(s[0]) then TrimStart(s[1..]) else s
  }

  function TrimEnd(s: string): (r: string)
    ensures |r| <= |s|
    ensures r == s[..|r|]
    ensures r == [] || !IsWhitespace(r[|r| - 1])
    ensures forall i :: |r| <= i < |s| ==> IsWhitespace(s[i])
  {
    if |s| > 0 && IsWhitespace(s[|s| - 1]) then TrimEnd(s[..|s| - 1]) else s
  }

  /** `s.trim()` */
  function Trim(s: string): (r: string)
    ensures |r| <= |s|
    ensures r == [] || (!IsWhitespace(r[0]) && !IsWhitespace(r[|r| - 1]))
  {
    TrimStart(TrimEnd(s))
  }

  /** `r` sits at position `i` of `s`, with only whitespace before and after it. */
  predicate InnerPart(s: string, r: string, i: nat) {
    && i + |r| <= |s| && r == s[i..i + |r|]
    && (forall j :: 0 <= j < i ==> IsWhitespace(s[j]))
    && (forall j :: i + |r| <= j < |s| ==> IsWhitespace(s[j]))
  }

  /** What `trim` keeps is the inner part of the string: only whitespace goes, from both ends. */
  lemma {:induction false} TrimIsInnerPart(s: string)
    ensures exists i :: InnerPart(s, Trim(s), i)
  {
    var e := TrimEnd(s);
    var r := TrimStart(e);
    var i: nat := |e| - |r|;
    assert e == s[..|e|];
    assert r == s[i..i + |r|];
    assert forall j :: 0 <= j < i ==> IsWhitespace(s[j]) by {
      forall j | 0 <= j < i ensures IsWhitespace(s[j]) {
        assert IsWhitespace(e[j]);
        assert e[j] == s[j];
      }
    }
    assert forall j :: i + |r| <= j < |s| ==> IsWhitespace(s[j]);
    assert InnerPart(s, r, i);
    assert Trim(s) == r;
  }

  /** A string is blank when it is empty or made only of whitespace. */
  predicate IsBlank(s: string) {
    forall i :: 0 <= i < |s| ==> IsWhitespace(s[i])
  }

  /** `s.trim().length === 0` holds exactly for the blank strings. */
  lemma {:induction false} TrimEmptyIffBlank(s: string)
    ensures Trim(s) == [] <==> IsBlank(s)
  {
  }

  /** A trimmed string is its own trim. */
  lemma {:induction false} TrimIdempotent(s: string)
    ensures Trim(Trim(s)) == Trim(s)
  {
    var t := Trim(s);
    var e := TrimEnd(s);
    if t != [] {
      assert t == e[|e| - |t|..];
      assert t[|t| - 1] == e[|e| - 1];
    }
  }

  /** Trimming and upper-casing commute, because case mapping keeps whitespace. */
  lemma {:induction false} TrimToUpperCommute(s: string)
    ensures Trim(ToUpper(s)) == ToUpper(Trim(s))
    decreases |s|
  {
    var u := ToUpper(s);
    forall i | 0 <= i < |s| ensures IsWhitespace(u[i]) <==> IsWhitespace(s[i]) {
      ToUpperCharKeepsWhitespace(s[i]);
    }
    TrimEndToUpper(s);
    TrimStartToUpper(TrimEnd(s));
  }

  lemma {:induction false} TrimEndToUpper(s: string)
    ensures TrimEnd(ToUpper(s)) == ToUpper(TrimEnd(s))
    decreases |s|
  {
    if |s| > 0 {
      ToUpperCharKeepsWhitespace(s[|s| - 1]);
      assert ToUpper(s)[..|s| - 1] == ToUpper(s[..|s| - 1]);
      TrimEndToUpper(s[..|s| - 1]);
    }
  }

  lemma {:induction false} TrimStartToUpper(s: string)
    ensures TrimStart(ToUpper(s)) == ToUpper(TrimStart(s))
    decreases |s|
  {
    if |s| > 0 {
      ToUpperCharKeepsWhitespace(s[0]);
      assert ToUpper(s)[1..] == ToUpper(s[1..]);
      TrimStartToUpper(s[1..]);
    }
  }
}
