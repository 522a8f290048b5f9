/** The string operations the editor uses to patch model output into the document:
    a first-occurrence search (JavaScript's `indexOf`) and the splice that replaces the
    first occurrence of the selection with the revised text. */
module TextSplice {

  /** `pat` occurs in `s` starting at index `i`. */
  predicate OccursAt(s: string, pat: string, i: int)
  {
    0 <= i && i + |pat| <= |s| && s[i..i + |pat|] == pat
  }

  /** `pat` occurs somewhere in `s`. */
  predicate Contains(s: string, pat: string)
  {
    exists i :: 0 <= i <= |s| && OccursAt(s, pat, i)
  }

  /** `i` is where the first occurrence of `pat` in `s` starts. */
  predicate IsFirstOccurrence(s: string, pat: string, i: int)
  {
    OccursAt(s, pat, i) && forall j :: 0 <= j < i ==> !OccursAt(s, pat, j)
  }

  /** `s.indexOf(pat, from)`, for a `from` before which `pat` is known not to start:
      the first index at or after `from` where `pat` occurs, or -1 when there is none. */
  function IndexOfFrom(s: string, pat: string, from: nat): (r: int)
    requires forall j :: 0 <= j < from ==> !OccursAt(s, pat, j)
    ensures r == -1 <==> !Contains(s, pat)
    ensures r != -1 ==> IsFirstOccurrence(s, pat, r)
    decreases |s| - from
  {
    if from + |pat| > |s| then -1
    else if s[from..from + |pat|] == pat then assert OccursAt(s, pat, from); from
    else IndexOfFrom(s, pat, from + 1)
  }

  /** `s.indexOf(pat)`: where the first occurrence of `pat` starts, or -1. */
  function IndexOf(s: string, pat: string): (r: int)
    ensures r == -1 <==> !Contains(s, pat)
    ensures r != -1 ==> IsFirstOccurrence(s, pat, r)
  {
    IndexOfFrom(s, pat, 0)
  }

  /** Replaces the span `[start, end)` of `doc` by `revised`: the position-based splice. */
  function SpliceRange(doc: string, start: nat, end: nat, revised: string): (r: string)
    requires start <= end <= |doc|
    ensures |r| == |doc| - (end - start) + |revised|
    ensures r[..start] == doc[..start]
    ensures r[start..start + |revised|] == revised
    ensures r[start + |revised|..] == doc[end..]
  {
    doc[..start] + revised + doc[end..]
  }

  /** The targeted-revision splice: the first occurrence of `sel` in `doc` is replaced by
      `revised`; when `sel` does not occur, `doc` is returned as it is. */
  function ReplaceFirst(doc: string, sel: string, revised: string): (r: string)
    ensures !Contains(doc, sel) ==> r == doc
    ensures Contains(doc, sel) ==>
      exists i :: IsFirstOccurrence(doc, sel, i) && r == SpliceRange(doc, i, i + |sel|, revised)
  {
    var start := IndexOf(doc, sel);
    if start == -1 then doc
    else doc[..start] + revised + doc[start + |sel|..]
  }

  /** At most one index is the first occurrence. */
  lemma FirstOccurrenceUnique(s: string, pat: string, i: int, j: int)
    requires IsFirstOccurrence(s, pat, i) && IsFirstOccurrence(s, pat, j)
    ensures i == j
  {
  }

  /** Once the first occurrence is known, the targeted revision is the position-based
      splice of exactly that occurrence's span. */
  lemma ReplaceFirstAt(doc: string, sel: string, revised: string, i: int)
    requires IsFirstOccurrence(doc, sel, i)
    ensures 0 <= i && i + |sel| <= |doc|
    ensures ReplaceFirst(doc, sel, revised) == SpliceRange(doc, i, i + |sel|, revised)
  {
    assert Contains(doc, sel) by {
      assert 0 <= i <= |doc| && OccursAt(doc, sel, i);
    }
    FirstOccurrenceUnique(doc, sel, i, IndexOf(doc, sel));
  }

  /** When the selection occurs, the result is the text before the first occurrence, then
      `revised`, then the text after that occurrence; its length is
      |doc| - |sel| + |revised|. */
  lemma ReplaceFirstParts(doc: string, sel: string, revised: string, i: int)
    requires IsFirstOccurrence(doc, sel, i)
    ensures var r := ReplaceFirst(doc, sel, revised);
      && |r| == |doc| - |sel| + |revised|
      && r[..i] == doc[..i]
      && r[i..i + |revised|] == revised
      && r[i + |revised|..] == doc[i + |sel|..]
      && OccursAt(r, revised, i)
  {
    ReplaceFirstAt(doc, sel, revised, i);
  }

  /** The empty selection occurs at index 0 of every document, so revising it prepends
      the revised text. */
  lemma ReplaceFirstEmptySelection(doc: string, revised: string)
    ensures ReplaceFirst(doc, "", revised) == revised + doc
  {
    assert doc[0..0] == "";
    assert IsFirstOccurrence(doc, "", 0);
    ReplaceFirstAt(doc, "", revised, 0);
    assert doc[..0] == "" && doc[0..] == doc;
  }

  /** Revising a selection into itself leaves the document unchanged. */
  lemma ReplaceFirstWithSelf(doc: string, sel: string)
    ensures ReplaceFirst(doc, sel, sel) == doc
  {
    if Contains(doc, sel) {
      var i := IndexOf(doc, sel);
      ReplaceFirstAt(doc, sel, sel, i);
      assert doc == doc[..i] + doc[i..i + |sel|] + doc[i + |sel|..];
    }
  }

  /** The splice works from the first occurrence only: a later copy of the selection that
      does not overlap the first one survives, shifted by the change in length, so when
      the user selected a later copy of a repeated passage, that copy is not the one
      revised. */
  lemma ReplaceFirstKeepsLaterCopy(doc: string, sel: string, revised: string, i: int, j: int)
    requires IsFirstOccurrence(doc, sel, i) && OccursAt(doc, sel, j) && i + |sel| <= j
    ensures OccursAt(ReplaceFirst(doc, sel, revised), sel, j - |sel| + |revised|)
  {
    ReplaceFirstParts(doc, sel, revised, i);
    var r := ReplaceFirst(doc, sel, revised);
    var k := j - |sel| + |revised|;
    assert r[i + |revised|..] == doc[i + |sel|..];
    assert r[k..k + |sel|] == r[i + |revised|..][j - (i + |sel|)..j - (i + |sel|) + |sel|];
  }
}
