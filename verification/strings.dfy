/** Literal substring replacement with the semantics of Rust's
    `str::replace`: the pattern is searched for left to right, every
    non-overlapping occurrence is replaced, and scanning resumes after
    the replaced occurrence. An empty pattern matches at every character
    boundary, so the replacement is inserted before every character and
    once more at the end. */
module Strings {

  /** `pat` occurs in `s` starting at position `i`. */
  predicate MatchAt(s: string, pat: string, i: nat)
  {
    i + |pat| <= |s| && s[i..i + |pat|] == pat
  }

  /** `pat` occurs somewhere in `s`. */
  predicate Contains(s: string, pat: string)
  {
    exists i :: 0 <= i <= |s| && MatchAt(s, pat, i)
  }

  /** `s.replace(from, to)`. */
  function ReplaceAll(s: string, from: string, to: string): string
    decreases |s|
  {
    if |from| == 0 then InsertAtBoundaries(s, to)
    else if |s| == 0 then ""
    else if MatchAt(s, from, 0) then to + ReplaceAll(s[|from|..], from, to)
    else [s[0]] + ReplaceAll(s[1..], from, to)
  }

  /** The empty-pattern case: `to` before every character and at the end. */
  function InsertAtBoundaries(s: string, to: string): string
    decreases |s|
  {
    if |s| == 0 then to
    else to + [s[0]] + InsertAtBoundaries(s[1..], to)
  }

  /** The number of occurrences of a non-empty `from` that the
      left-to-right scan replaces. */
  function MatchCount(s: string, from: string): nat
    requires |from| > 0
    decreases |s|
  {
    if |s| == 0 then 0
    else if MatchAt(s, from, 0) then 1 + MatchCount(s[|from|..], from)
    else MatchCount(s[1..], from)
  }

  lemma MatchAtTail(s: string, pat: string, k: nat, i: nat)
    requires k <= |s|
    ensures MatchAt(s[k..], pat, i) <==> MatchAt(s, pat, k + i)
  {
  }

  /** The scan finds nothing to replace exactly when the pattern does not
      occur. */
  lemma {:induction false} MatchCountZeroIff(s: string, from: string)
    requires |from| > 0
    ensures MatchCount(s, from) == 0 <==> !Contains(s, from)
    decreases |s|
  {
    if |s| == 0 {
      assert !Contains(s, from) by {
        forall i | 0 <= i <= |s| ensures !MatchAt(s, from, i) { }
      }
    } else if MatchAt(s, from, 0) {
      assert Contains(s, from);
    } else {
      MatchCountZeroIff(s[1..], from);
      if Contains(s, from) {
        var i :| 0 <= i <= |s| && MatchAt(s, from, i);
        assert i != 0;
        MatchAtTail(s, from, 1, i - 1);
        assert Contains(s[1..], from);
      }
      if Contains(s[1..], from) {
        var i :| 0 <= i <= |s[1..]| && MatchAt(s[1..], from, i);
        MatchAtTail(s, from, 1, i);
        assert MatchAt(s, from, 1 + i);
      }
    }
  }

  /** A pattern with a character that `s` lacks does not occur in `s`.
      Used by the path-rewrite example in `Tracks`. */
  lemma MissingCharNoMatch(s: string, pat: string, j: nat)
    requires j < |pat| && pat[j] !in s
    ensures !Contains(s, pat)
  {
  }

  /** A file name in which the pattern does not occur is left unchanged. */
  lemma {:induction false} ReplaceAbsent(s: string, from: string, to: string)
    requires !Contains(s, from)
    ensures ReplaceAll(s, from, to) == s
  {
    assert MatchAt(s, from, 0) ==> Contains(s, from);
    MatchCountZeroIff(s, from);
    ReplaceCountZero(s, from, to);
  }

  /** A leading occurrence followed by a pattern-free rest. Used by the
      path-rewrite example in `Tracks`. */
  lemma ReplaceLeadingMatch(s: string, from: string, to: string, rest: string)
    requires |from| > 0 && MatchAt(s, from, 0) && s[|from|..] == rest && !Contains(rest, from)
    ensures ReplaceAll(s, from, to) == to + rest
  {
    ReplaceAbsent(rest, from, to);
  }

  lemma {:induction false} ReplaceCountZero(s: string, from: string, to: string)
    requires |from| > 0 && MatchCount(s, from) == 0
    ensures ReplaceAll(s, from, to) == s
    decreases |s|
  {
    if |s| > 0 {
      ReplaceCountZero(s[1..], from, to);
      assert [s[0]] + s[1..] == s;
    }
  }

  /** Each replaced occurrence changes the length by `|to| - |from|`. */
  lemma {:induction false} ReplaceLength(s: string, from: string, to: string)
    requires |from| > 0
    ensures |ReplaceAll(s, from, to)| == |s| + MatchCount(s, from) * (|to| - |from|)
    decreases |s|
  {
    if |s| == 0 {
    } else if MatchAt(s, from, 0) {
      var rest := s[|from|..];
      ReplaceLength(rest, from, to);
      calc {
        |ReplaceAll(s, from, to)|;
        |to| + |rest| + MatchCount(rest, from) * (|to| - |from|);
        |s| + (1 + MatchCount(rest, from)) * (|to| - |from|);
      }
    } else {
      ReplaceLength(s[1..], from, to);
    }
  }

  /** Replacing a pattern by itself changes nothing, empty pattern included. */
  lemma {:induction false} ReplaceBySelf(s: string, pat: string)
    ensures ReplaceAll(s, pat, pat) == s
    decreases |s|
  {
    if |pat| == 0 {
      InsertNothing(s);
    } else if |s| == 0 {
    } else if MatchAt(s, pat, 0) {
      ReplaceBySelf(s[|pat|..], pat);
      assert s[..|pat|] + s[|pat|..] == s;
    } else {
      ReplaceBySelf(s[1..], pat);
      assert [s[0]] + s[1..] == s;
    }
  }

  lemma {:induction false} InsertNothing(s: string)
    ensures InsertAtBoundaries(s, "") == s
    decreases |s|
  {
    if |s| > 0 {
      InsertNothing(s[1..]);
      assert [s[0]] + s[1..] == s;
    }
  }

  /** The empty pattern inserts the replacement `|s| + 1` times. */
  lemma {:induction false} InsertAtBoundariesLength(s: string, to: string)
    ensures |InsertAtBoundaries(s, to)| == |s| + (|s| + 1) * |to|
    decreases |s|
  {
    if |s| > 0 {
      InsertAtBoundariesLength(s[1..], to);
    }
  }

  /** The imperative scan of Rust's `str::replace`: copy unmatched
      characters, emit `to` for each match and skip past it. */
  method ReplaceScan(s: string, from: string, to: string) returns (r: string)
    ensures r == ReplaceAll(s, from, to)
  {
    if |from| == 0 {
      r := InsertScan(s, to);
    } else {
      r := MatchScan(s, from, to);
    }
  }

  /** The scan for a non-empty pattern. */
  method MatchScan(s: string, from: string, to: string) returns (r: string)
    requires |from| > 0
    ensures r == ReplaceAll(s, from, to)
  {
    r := "";
    var i := 0;
    assert s[i..] == s;
    while i < |s|
      invariant 0 <= i <= |s|
      invariant r + ReplaceAll(s[i..], from, to) == ReplaceAll(s, from, to)
    {
      r, i := ScanOne(s, from, to, r, i);
    }
  }

  /** One step of the scan at position `i`: emit `to` and skip a match,
      or copy one character. The output so far followed by the
      replacement of what is left stays the replacement of the whole
      string. */
  method ScanOne(s: string, from: string, to: string, r: string, i: nat) returns (next: string, j: nat)
    requires |from| > 0 && i < |s|
    requires r + ReplaceAll(s[i..], from, to) == ReplaceAll(s, from, to)
    ensures i < j <= |s|
    ensures next + ReplaceAll(s[j..], from, to) == ReplaceAll(s, from, to)
  {
    var piece;
    if MatchAt(s, from, i) {
      piece, j := to, i + |from|;
      ScanMatch(s, from, to, i);
    } else {
      piece, j := [s[i]], i + 1;
      ScanSkip(s, from, to, i);
    }
    KeepPrefix(r, piece, ReplaceAll(s[i..], from, to), ReplaceAll(s[j..], from, to), ReplaceAll(s, from, to));
    next := r + piece;
  }

  /** A match at `i` is replaced and the scan resumes after it. */
  lemma ScanMatch(s: string, from: string, to: string, i: nat)
    requires |from| > 0 && MatchAt(s, from, i)
    ensures ReplaceAll(s[i..], from, to) == to + ReplaceAll(s[i + |from|..], from, to)
  {
  }

  /** Without a match at `i` the character is copied. */
  lemma ScanSkip(s: string, from: string, to: string, i: nat)
    requires |from| > 0 && i < |s| && !MatchAt(s, from, i)
    ensures ReplaceAll(s[i..], from, to) == [s[i]] + ReplaceAll(s[i + 1..], from, to)
  {
  }

  lemma KeepPrefix(r: string, piece: string, rest: string, tail: string, whole: string)
    requires r + rest == whole && rest == piece + tail
    ensures (r + piece) + tail == whole
  {
  }

  /** The empty-pattern case of the scan. */
  method InsertScan(s: string, to: string) returns (r: string)
    ensures r == InsertAtBoundaries(s, to)
  {
    r := "";
    var i := 0;
    assert s[i..] == s;
    while i < |s|
      invariant 0 <= i <= |s|
      invariant r + InsertAtBoundaries(s[i..], to) == InsertAtBoundaries(s, to)
    {
      InsertStep(s, to, r, i);
      r, i := r + to + [s[i]], i + 1;
    }
    r := r + to;
  }

  lemma InsertStep(s: string, to: string, r: string, i: nat)
    requires i < |s|
    requires r + InsertAtBoundaries(s[i..], to) == InsertAtBoundaries(s, to)
    ensures (r + to + [s[i]]) + InsertAtBoundaries(s[i + 1..], to) == InsertAtBoundaries(s, to)
  {
  }
}
