/**
 * The string operations the sanitizer of the agent is built from, with the
 * meaning Python gives them: `str.replace` (left to right, non-overlapping),
 * `str.strip` with no argument, and the substring test `in`.
 */
module Text {

  /** The characters Python's `str.isspace` accepts, which is what
      `str.strip()` with no argument removes from both ends. */
  predicate IsWhitespace(c: char)
  {
    ('\U{0009}' <= c <= '\U{000D}') || ('\U{001C}' <= c <= '\U{0020}')
    || c == '\U{0085}' || c == '\U{00A0}' || c == '\U{1680}'
    || ('\U{2000}' <= c <= '\U{200A}')
    || c == '\U{2028}' || c == '\U{2029}' || c == '\U{202F}' || c == '\U{205F}' || c == '\U{3000}'
  }

  /** `pat` occurs in `s` starting at index `i`. */
  predicate OccursAt(s: string, pat: string, i: nat)
    requires i <= |s|
  {
    pat <= s[i..]
  }

  /** Python's `pat in s`. */
  predicate Contains(s: string, pat: string)
  {
    exists i :: 0 <= i <= |s| && OccursAt(s, pat, i)
  }

  /** Python's `s.replace(pat, rep)`: scans left to right and replaces each
      occurrence of `pat` that does not overlap an earlier one. With an empty
      `pat`, Python puts `rep` before every character and at the end. */
  function ReplaceAll(s: string, pat: string, rep: string): string
    decreases |s|
  {
    if pat == [] then
      if s == [] then rep else rep + [s[0]] + ReplaceAll(s[1..], pat, rep)
    else if s == [] then []
    else if pat <= s then rep + ReplaceAll(s[|pat|..], pat, rep)
    else [s[0]] + ReplaceAll(s[1..], pat, rep)
  }

  /** Scanning forward from `i`, the first character that is not
      whitespace (or the end). */
  function SkipSpace(s: string, i: nat): (j: nat)
    requires i <= |s|
    ensures i <= j <= |s|
    ensures forall k :: i <= k < j ==> IsWhitespace(s[k])
    ensures j == |s| || !IsWhitespace(s[j])
    decreases |s| - i
  {
    if i < |s| && IsWhitespace(s[i]) then SkipSpace(s, i + 1) else i
  }

  /** Scanning backward from `j`, not below `i`, the end of the last
      character that is not whitespace (or `i`). */
  function SkipSpaceBack(s: string, i: nat, j: nat): (e: nat)
    requires i <= j <= |s|
    ensures i <= e <= j
    ensures forall k :: e <= k < j ==> IsWhitespace(s[k])
    ensures e == i || !IsWhitespace(s[e - 1])
    decreases j
  {
    if i < j && IsWhitespace(s[j - 1]) then SkipSpaceBack(s, i, j - 1) else j
  }

  /** Neither end of `s` is whitespace. */
  predicate IsStripped(s: string)
  {
    s == [] || (!IsWhitespace(s[0]) && !IsWhitespace(s[|s| - 1]))
  }

  /** What `strip` means, stated without scanning: `s[i..j]` neither starts
      nor ends with whitespace, and everything of `s` outside it is
      whitespace. */
  predicate Trims(s: string, i: nat, j: nat)
  {
    i <= j <= |s|
    && (forall k :: 0 <= k < i ==> IsWhitespace(s[k]))
    && (forall k :: j <= k < |s| ==> IsWhitespace(s[k]))
    && (i < j ==> !IsWhitespace(s[i]) && !IsWhitespace(s[j - 1]))
  }

  /** Python's `s.strip()`: `lstrip`, then `rstrip` of what is left. */
  function Strip(s: string): (r: string)
    ensures IsStripped(r)
    ensures exists i: nat, j: nat :: Trims(s, i, j) && r == s[i..j]
  {
    var i := SkipSpace(s, 0);
    s[i..SkipSpaceBack(s, i, |s|)]
  }

  /** `a` is `b` with some characters deleted. */
  predicate IsSubsequence(a: string, b: string)
    decreases |b|
  {
    if a == [] then true
    else if b == [] then false
    else (a[0] == b[0] && IsSubsequence(a[1..], b[1..])) || IsSubsequence(a, b[1..])
  }

  // ---------------------------------------------------------------------
  // Occurrences
  // ---------------------------------------------------------------------

  /** A pattern longer than the text cannot occur in it. */
  lemma TooShortToContain(s: string, pat: string)
    requires |s| < |pat|
    ensures !Contains(s, pat)
  {
  }

  /** Whether `pat` occurs at a position depends only on the characters
      it would cover there. */
  lemma OccursAtAgree(s: string, u: string, pat: string, i: nat, k: nat)
    requires i + |pat| <= |s| && k + |pat| <= |u|
    requires s[i..i + |pat|] == u[k..k + |pat|]
    ensures OccursAt(s, pat, i) <==> OccursAt(u, pat, k)
  {
    assert s[i..][..|pat|] == s[i..i + |pat|];
    assert u[k..][..|pat|] == u[k..k + |pat|];
  }

  /** A pattern absent from a string is absent from each of its slices. */
  lemma AbsentFromSlice(s: string, i: nat, j: nat, pat: string)
    requires i <= j <= |s| && !Contains(s, pat)
    ensures !Contains(s[i..j], pat)
  {
    forall k | 0 <= k <= j - i
      ensures !OccursAt(s[i..j], pat, k)
    {
      assert s[i..j][k..] == s[i + k..j];
      assert !OccursAt(s, pat, i + k);
      assert s[i + k..j] <= s[i + k..];
    }
  }

  /** A string without `p` holds no pattern that starts with `p`. */
  lemma AbsentExtension(s: string, p: string, q: string)
    requires p <= q && !Contains(s, p)
    ensures !Contains(s, q)
  {
    forall k | 0 <= k <= |s|
      ensures !OccursAt(s, q, k)
    {
      assert !OccursAt(s, p, k);
    }
  }

  /** Putting a character in front of `t` creates an occurrence only at the
      front. */
  lemma {:induction false} ConsNoOccurrence(c: char, t: string, pat: string)
    requires !Contains(t, pat) && !(pat <= [c] + t)
    ensures !Contains([c] + t, pat)
  {
    var s := [c] + t;
    forall i | 0 < i <= |s|
      ensures !OccursAt(s, pat, i)
    {
      assert s[i..] == t[i - 1..];
      assert !OccursAt(t, pat, i - 1);
    }
    assert !OccursAt(s, pat, 0);
  }

  /** A text with a character that `pat` lacks in every position cannot hold
      `pat` anywhere: here, a text without the first character of `pat`. */
  lemma {:induction false} MissingFirstChar(s: string, pat: string)
    requires pat != []
    requires forall k :: 0 <= k < |s| ==> s[k] != pat[0]
    ensures !Contains(s, pat)
  {
    forall i | 0 <= i <= |s|
      ensures !OccursAt(s, pat, i)
    {
      if i < |s| {
        assert s[i..][0] == s[i];
      }
    }
  }

  // ---------------------------------------------------------------------
  // ReplaceAll
  // ---------------------------------------------------------------------

  /** Replacing a pattern that does not occur changes nothing. */
  lemma {:induction false} ReplaceAbsent(s: string, pat: string, rep: string)
    requires pat != [] && !Contains(s, pat)
    ensures ReplaceAll(s, pat, rep) == s
    decreases |s|
  {
    if s != [] {
      assert !OccursAt(s, pat, 0);
      AbsentFromSlice(s, 1, |s|, pat);
      assert s[1..|s|] == s[1..];
      ReplaceAbsent(s[1..], pat, rep);
    }
  }

  /** A prefix that holds no character starting `pat` is copied through
      unchanged, and the scan resumes right after it. */
  lemma {:induction false} ReplaceAfterPlainPrefix(b: string, t: string, pat: string, rep: string)
    requires pat != []
    requires forall k :: 0 <= k < |b| ==> b[k] != pat[0]
    ensures ReplaceAll(b + t, pat, rep) == b + ReplaceAll(t, pat, rep)
    decreases |b|
  {
    if b != [] {
      var s := b + t;
      assert s[0] == b[0] && s[1..] == b[1..] + t;
      assert !(pat <= s) by {
        assert s[0] != pat[0];
      }
      ReplaceAfterPlainPrefix(b[1..], t, pat, rep);
      calc {
        ReplaceAll(s, pat, rep);
        [s[0]] + ReplaceAll(b[1..] + t, pat, rep);
        [b[0]] + (b[1..] + ReplaceAll(t, pat, rep));
        { assert [b[0]] + b[1..] == b; }
        b + ReplaceAll(t, pat, rep);
      }
    } else {
      assert b + t == t;
    }
  }

  /** Deleting every occurrence of a pattern leaves a subsequence. */
  lemma {:induction false} RemovalIsSubsequence(s: string, pat: string)
    ensures IsSubsequence(ReplaceAll(s, pat, []), s)
    decreases |s|
  {
    if s != [] {
      var r := ReplaceAll(s, pat, []);
      if pat != [] && pat <= s {
        RemovalIsSubsequence(s[|pat|..], pat);
        assert r == ReplaceAll(s[|pat|..], pat, []);
        SubsequenceOfSuffix(r, s, |pat|);
      } else {
        RemovalIsSubsequence(s[1..], pat);
        assert r == [s[0]] + ReplaceAll(s[1..], pat, []);
        assert r[0] == s[0] && r[1..] == ReplaceAll(s[1..], pat, []);
      }
    }
  }

  // ---------------------------------------------------------------------
  // Strip
  // ---------------------------------------------------------------------

  /** Strip computes exactly what `Trims` describes: every slice that
      `Trims` admits is `Strip(s)`. */
  lemma StripUnique(s: string, i: nat, j: nat)
    requires Trims(s, i, j)
    ensures s[i..j] == Strip(s)
  {
    var i' := SkipSpace(s, 0);
    var j' := SkipSpaceBack(s, i', |s|);
    if i < j && i' < j' {
      assert i == i' && j == j';
    }
  }

  /** Stripping a stripped string changes nothing. */
  lemma StripStripped(s: string)
    requires IsStripped(s)
    ensures Strip(s) == s
  {
    StripUnique(s, 0, |s|);
  }

  /** Strip keeps a slice of its input, hence a subsequence of it. */
  lemma StripIsSubsequence(s: string)
    ensures IsSubsequence(Strip(s), s)
  {
    var i := SkipSpace(s, 0);
    SliceIsSubsequence(s, i, SkipSpaceBack(s, i, |s|));
  }

  // ---------------------------------------------------------------------
  // Subsequences
  // ---------------------------------------------------------------------

  lemma {:induction false} PrefixIsSubsequence(p: string, s: string)
    requires p <= s
    ensures IsSubsequence(p, s)
    decreases |p|
  {
    if p != [] {
      PrefixIsSubsequence(p[1..], s[1..]);
    }
  }

  lemma {:induction false} SubsequenceOfSuffix(a: string, s: string, k: nat)
    requires k <= |s| && IsSubsequence(a, s[k..])
    ensures IsSubsequence(a, s)
    decreases k
  {
    if k > 0 {
      assert s[1..][k - 1..] == s[k..];
      SubsequenceOfSuffix(a, s[1..], k - 1);
    }
  }

  lemma SliceIsSubsequence(s: string, i: nat, j: nat)
    requires i <= j <= |s|
    ensures IsSubsequence(s[i..j], s)
  {
    PrefixIsSubsequence(s[i..j], s[i..]);
    SubsequenceOfSuffix(s[i..j], s, i);
  }

  lemma {:induction false} SubsequenceTransitive(a: string, b: string, c: string)
    requires IsSubsequence(a, b) && IsSubsequence(b, c)
    ensures IsSubsequence(a, c)
    decreases |c|
  {
    if a != [] {
      if IsSubsequence(b, c[1..]) {
        SubsequenceTransitive(a, b, c[1..]);
      } else {
        assert b[0] == c[0] && IsSubsequence(b[1..], c[1..]);
        if a[0] == b[0] && IsSubsequence(a[1..], b[1..]) {
          SubsequenceTransitive(a[1..], b[1..], c[1..]);
        } else {
          SubsequenceTransitive(a, b[1..], c[1..]);
        }
      }
    }
  }

  /** A subsequence is never longer than the text it is taken from. */
  lemma {:induction false} SubsequenceNotLonger(a: string, b: string)
    requires IsSubsequence(a, b)
    ensures |a| <= |b|
    decreases |b|
  {
    if a != [] {
      if IsSubsequence(a, b[1..]) {
        SubsequenceNotLonger(a, b[1..]);
      } else {
        SubsequenceNotLonger(a[1..], b[1..]);
      }
    }
  }
}
