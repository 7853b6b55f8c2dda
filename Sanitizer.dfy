/**
 * `clean_code` of app.py: the agent's answer to the code prompt loses every
 * "```python" marker, then every "```" marker, then its surrounding
 * whitespace.
 */
module Sanitizer {
  import opened Text

  /** The closing marker of a Markdown code block. */
  const Fence: string := "```"
  /** The opening marker with the one language tag that is removed. */
  const PythonFence: string := "```python"
  /** The body of a block tagged `python3`, after "```python". */
  const Python3Body: string := "3\nx\n"
  /** The body of a code block of the kind the docstring of `clean_code`
      describes. */
  const PrintBody: string := "\nprint(1)\n"

  /** No character of `s` is a backtick. */
  predicate NoBacktick(s: string)
  {
    forall k :: 0 <= k < |s| ==> s[k] != '`'
  }

  /** `clean_code(text)`: no "```" survives, nothing is left at either end
      that `strip` would remove, and every character that remains was in the
      input, in the same order. */
  function CleanCode(text: string): (r: string)
    ensures !Contains(r, Fence)
    ensures IsStripped(r)
    ensures IsSubsequence(r, text) && |r| <= |text|
  {
    var untagged := ReplaceAll(text, PythonFence, []);
    var unfenced := ReplaceAll(untagged, Fence, []);
    RemoveFencesLeavesNoFence(untagged);
    StripKeepsAbsence(unfenced, Fence);
    RemovalIsSubsequence(text, PythonFence);
    RemovalIsSubsequence(untagged, Fence);
    StripIsSubsequence(unfenced);
    SubsequenceTransitive(unfenced, untagged, text);
    SubsequenceTransitive(Strip(unfenced), unfenced, text);
    SubsequenceNotLonger(Strip(unfenced), text);
    Strip(unfenced)
  }

  /** Deleting "```" left to right leaves no "```" behind: each maximal run
      of backticks keeps fewer than three of them, and since the characters
      between runs stay, no two runs are joined. The two prefix clauses carry
      the induction: an input that does not start with one (two) backticks
      yields an output that does not either. */
  lemma {:induction false} RemoveFencesLeavesNoFence(s: string)
    ensures !Contains(ReplaceAll(s, Fence, []), Fence)
    ensures !("`" <= s) ==> !("`" <= ReplaceAll(s, Fence, []))
    ensures !("``" <= s) ==> !("``" <= ReplaceAll(s, Fence, []))
    decreases |s|
  {
    var r := ReplaceAll(s, Fence, []);
    if s == [] {
      assert !OccursAt(r, Fence, 0);
    } else if Fence <= s {
      RemoveFencesLeavesNoFence(s[3..]);
      assert r == ReplaceAll(s[3..], Fence, []);
      assert s[0] == '`' && s[1] == '`';
    } else {
      var t := ReplaceAll(s[1..], Fence, []);
      RemoveFencesLeavesNoFence(s[1..]);
      assert r == [s[0]] + t;
      PrefixOfCons(s[0], s[1..], Fence);
      PrefixOfCons(s[0], t, Fence);
      ConsNoOccurrence(s[0], t, Fence);
      PrefixOfCons(s[0], s[1..], "``");
      PrefixOfCons(s[0], t, "``");
    }
  }

  lemma PrefixOfCons(c: char, t: string, p: string)
    requires p != []
    ensures p <= [c] + t <==> p[0] == c && p[1..] <= t
  {
    assert ([c] + t)[1..] == t;
  }

  /** Strip keeps a slice, so it cannot create an occurrence. */
  lemma StripKeepsAbsence(s: string, pat: string)
    requires !Contains(s, pat)
    ensures !Contains(Strip(s), pat)
  {
    var i := SkipSpace(s, 0);
    AbsentFromSlice(s, i, SkipSpaceBack(s, i, |s|), pat);
  }

  /** Cleaning twice is cleaning once. */
  lemma CleanCodeIdempotent(text: string)
    ensures CleanCode(CleanCode(text)) == CleanCode(text)
  {
    var once := CleanCode(text);
    AbsentExtension(once, Fence, PythonFence);
    ReplaceAbsent(once, PythonFence, []);
    ReplaceAbsent(once, Fence, []);
    StripStripped(once);
  }

  /** Text without a "```" marker is only stripped. */
  lemma CleanCodeWithoutFence(text: string)
    requires !Contains(text, Fence)
    ensures CleanCode(text) == Strip(text)
  {
    AbsentExtension(text, Fence, PythonFence);
    ReplaceAbsent(text, PythonFence, []);
    ReplaceAbsent(text, Fence, []);
  }

  /** In particular, text without a backtick is only stripped. */
  lemma CleanCodeWithoutBackticks(text: string)
    requires NoBacktick(text)
    ensures CleanCode(text) == Strip(text)
  {
    MissingFirstChar(text, Fence);
    CleanCodeWithoutFence(text);
  }

  /** Deleting "```" from a body that holds none, followed by the closing
      marker, gives back the body: the scan meets no marker inside the
      body, and a marker that starts in a short run of backticks at the
      end of the body takes as many backticks off the closing marker as it
      takes from the body. */
  lemma {:induction false} FenceTail(body: string)
    requires !Contains(body, Fence)
    ensures ReplaceAll(body + Fence, Fence, []) == body
    decreases |body|
  {
    var s := body + Fence;
    if body == [] {
      assert s == Fence;
      assert ReplaceAll(Fence, Fence, []) == ReplaceAll([], Fence, []);
    } else if Fence <= s {
      // the marker starts in the body, so the body is shorter than a marker
      // and made of backticks only
      assert !OccursAt(body, Fence, 0);
      assert |body| < 3;
      forall k | 0 <= k < |body|
        ensures s[3..][k] == body[k]
      {
        assert s[k] == Fence[k] == '`' == s[3 + k];
      }
      assert s[3..] == body;
      TooShortToContain(body, Fence);
      ReplaceAbsent(body, Fence, []);
    } else {
      assert s[1..] == body[1..] + Fence;
      AbsentFromSlice(body, 1, |body|, Fence);
      assert body[1..|body|] == body[1..];
      FenceTail(body[1..]);
      assert [body[0]] + body[1..] == body;
    }
  }

  /** A code block tagged `python` is reduced to its stripped body, whatever
      the body holds besides a "```" marker. */
  lemma PythonBlockUnwrapped(body: string)
    requires !Contains(body, Fence)
    ensures CleanCode(PythonFence + body + Fence) == Strip(body)
  {
    var s := PythonFence + body + Fence;
    var t := body + Fence;
    assert s[|PythonFence|..] == t;
    assert ReplaceAll(s, PythonFence, []) == ReplaceAll(t, PythonFence, []);
    NoPythonMarkerBeforeFence(body);
    ReplaceAbsent(t, PythonFence, []);
    FenceTail(body);
  }

  /** A body without "```", followed by the closing marker, holds no
      "```python": one would start with a "```" inside the body. */
  lemma NoPythonMarkerBeforeFence(body: string)
    requires !Contains(body, Fence)
    ensures !Contains(body + Fence, PythonFence)
  {
    var t := body + Fence;
    forall j | 0 <= j <= |t|
      ensures !OccursAt(t, PythonFence, j)
    {
      if j + |PythonFence| <= |t| {
        assert t[j..j + 3] == body[j..j + 3];
        OccursAtAgree(t, body, Fence, j, j);
        assert !OccursAt(t, Fence, j);
      }
    }
  }

  /** Only the tag `python` goes with the opening marker: a block whose
      tag does not begin with `python` keeps that tag in the result. (A tag
      that does begin with it, such as `python3`, loses those six letters:
      see `Python3TagExample`.) The body
      may hold backticks, but no "```" marker, and it may not start with a
      backtick (the opening marker would then end one character later). */
  lemma OtherTagKept(body: string)
    requires !Contains(body, Fence) && !("python" <= body) && (body == [] || body[0] != '`')
    ensures CleanCode(Fence + body + Fence) == Strip(body)
  {
    var s := Fence + body + Fence;
    NoPythonMarker(body);
    ReplaceAbsent(s, PythonFence, []);
    assert s[|Fence|..] == body + Fence;
    assert ReplaceAll(s, Fence, []) == ReplaceAll(body + Fence, Fence, []);
    FenceTail(body);
  }

  /** Under the conditions of `OtherTagKept`, the block holds no "```python". */
  lemma NoPythonMarker(body: string)
    requires !Contains(body, Fence) && !("python" <= body) && (body == [] || body[0] != '`')
    ensures !Contains(Fence + body + Fence, PythonFence)
  {
    var s := Fence + body + Fence;
    NoPythonMarkerBeforeFence(body);
    forall i | 0 <= i <= |s|
      ensures !OccursAt(s, PythonFence, i)
    {
      if i + |PythonFence| <= |s| {
        if i == 0 {
          // the tag after the opening marker is not `python`
          if |body| >= 6 {
            assert s[3..9] == body[..6];
          } else {
            assert s[3 + |body|] == '`';
          }
          assert s[3..9] != PythonFence[3..];
        } else if i < 3 {
          // a marker cannot start inside the opening one: body[0] follows it
          assert s[3] == body[0] != PythonFence[3 - i];
        } else {
          // a marker further on would start with a "```" inside the body
          assert s[i..] == (body + Fence)[i - 3..];
          assert !OccursAt(body + Fence, PythonFence, i - 3);
        }
      }
    }
  }

  /** An example of what the docstring of `clean_code` describes: the block
      "```python\nprint(1)\n```" comes out as `print(1)`. */
  lemma PythonBlockExample()
    ensures CleanCode(PythonFence + PrintBody + Fence) == "print(1)"
  {
    MissingFirstChar(PrintBody, Fence);
    PythonBlockUnwrapped(PrintBody);
    StripPrintExample();
  }

  /** Strip drops the newline at each end of that body. */
  lemma StripPrintExample()
    ensures Strip(PrintBody) == "print(1)"
  {
    StripUnique(PrintBody, 1, 9);
  }

  /** A tag that begins with `python` loses those six letters: the block
      "```python3\nx\n```" comes out as `3\nx`. */
  lemma Python3TagExample()
    ensures CleanCode(PythonFence + Python3Body + Fence) == "3\nx"
  {
    MissingFirstChar(Python3Body, Fence);
    PythonBlockUnwrapped(Python3Body);
    StripUnique(Python3Body, 0, 3);
  }

  /** The block "```js\nx\n```" keeps its tag: it comes out as `js\nx`. */
  lemma OtherTagExample()
    ensures CleanCode(Fence + "js\nx\n" + Fence) == "js\nx"
  {
    MissingFirstChar("js\nx\n", Fence);
    OtherTagKept("js\nx\n");
    StripTagExample();
  }

  /** Strip drops the trailing newline of the `js` body. */
  lemma StripTagExample()
    ensures Strip("js\nx\n") == "js\nx"
  {
    StripUnique("js\nx\n", 0, 4);
  }
}
