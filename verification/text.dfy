/** String primitives the handler relies on, with JavaScript's semantics:
    `toLowerCase` (restricted to ASCII), `includes`, and `split`/`join` on a
    non-empty separator. */
module Text {
  import opened Wrappers

  /** ASCII lowercasing of one character; every other character is kept. */
  function LowerChar(c: char): char {
    if 'A' <= c <= 'Z' then (c as int + 32) as char else c
  }

  /** `s.toLowerCase()`, character by character. */
  function Lower(s: string): (r: string)
    ensures |r| == |s|
    ensures forall i :: 0 <= i < |s| && !('A' <= s[i] <= 'Z') ==> r[i] == s[i]
    ensures forall i :: 0 <= i < |r| ==> !('A' <= r[i] <= 'Z')
    ensures forall i :: 0 <= i < |s| && 'A' <= s[i] <= 'Z' ==> r[i] as int == s[i] as int + 32
  {
    seq(|s|, i requires 0 <= i < |s| => LowerChar(s[i]))
  }

  /** Lowercasing twice is lowercasing once. */
  lemma LowerIdempotent(s: string)
    ensures Lower(Lower(s)) == Lower(s)
  {
  }

  lemma LowerConcat(a: string, b: string)
    ensures Lower(a + b) == Lower(a) + Lower(b)
  {
    assert forall i :: 0 <= i < |a + b| ==> Lower(a + b)[i] == (Lower(a) + Lower(b))[i];
  }

  /** `w` occurs in `s` starting at index `i`. */
  predicate OccursAt(s: string, w: string, i: nat) {
    i + |w| <= |s| && s[i..i + |w|] == w
  }

  /** `s.includes(w)`. */
  predicate Contains(s: string, w: string) {
    exists i: nat :: i <= |s| && OccursAt(s, w, i)
  }

  lemma ContainsSuffix(a: string, b: string, w: string)
    requires Contains(b, w)
    ensures Contains(a + b, w)
  {
    var i: nat :| i <= |b| && OccursAt(b, w, i);
    assert (a + b)[|a| + i .. |a| + i + |w|] == b[i..i + |w|];
    assert OccursAt(a + b, w, |a| + i);
  }

  /** The index of the first occurrence of `sep` in `s`, if any. */
  function IndexOf(s: string, sep: string): (r: Option<nat>)
    requires |sep| > 0
    ensures r.Some? ==> OccursAt(s, sep, r.value)
    ensures r.Some? ==> forall j: nat :: j < r.value ==> !OccursAt(s, sep, j)
    ensures r.None? ==> forall j: nat :: !OccursAt(s, sep, j)
    decreases |s|
  {
    if |s| < |sep| then None
    else if s[..|sep|] == sep then Some(0)
    else
      match IndexOf(s[1..], sep)
      case None =>
        assert forall j: nat :: !OccursAt(s, sep, j) by {
          forall j: nat | 0 < j && OccursAt(s, sep, j)
            ensures OccursAt(s[1..], sep, j - 1)
          {
            assert s[1..][j - 1..j - 1 + |sep|] == s[j..j + |sep|];
          }
        }
        None
      case Some(i) =>
        assert s[1..][i..i + |sep|] == s[i + 1..i + 1 + |sep|];
        assert forall j: nat :: 0 < j <= i ==> (OccursAt(s, sep, j) ==> OccursAt(s[1..], sep, j - 1)) by {
          forall j: nat | 0 < j <= i && OccursAt(s, sep, j)
            ensures OccursAt(s[1..], sep, j - 1)
          {
            assert s[1..][j - 1..j - 1 + |sep|] == s[j..j + |sep|];
          }
        }
        Some(i + 1)
  }

  /** `s.split(sep)`: the pieces between the non-overlapping occurrences of
      `sep`, found from left to right. There is always at least one piece. */
  function Split(s: string, sep: string): (r: seq<string>)
    requires |sep| > 0
    ensures |r| >= 1
    decreases |s|
  {
    match IndexOf(s, sep)
    case None => [s]
    case Some(i) => [s[..i]] + Split(s[i + |sep|..], sep)
  }

  /** `pieces.join(sep)`; an empty array joins to the empty string. */
  function Join(pieces: seq<string>, sep: string): string {
    if |pieces| == 0 then ""
    else if |pieces| == 1 then pieces[0]
    else pieces[0] + sep + Join(pieces[1..], sep)
  }

  /** Cutting a text around an occurrence of the separator loses nothing. */
  lemma CutAround(s: string, sep: string, i: nat)
    requires OccursAt(s, sep, i)
    ensures s[..i] + sep + s[i + |sep|..] == s
  {
    assert s == s[..i] + s[i..i + |sep|] + s[i + |sep|..];
  }

  /** The pieces of a split: the text before the first separator, then the
      pieces of the text after it. */
  lemma SplitUnfold(s: string, sep: string, i: nat)
    requires |sep| > 0 && IndexOf(s, sep) == Some(i)
    ensures Split(s, sep) == [s[..i]] + Split(s[i + |sep|..], sep)
  {
  }

  /** Joining the pieces of a split gives back the original text. */
  lemma {:induction false} JoinSplit(s: string, sep: string)
    requires |sep| > 0
    ensures Join(Split(s, sep), sep) == s
    decreases |s|
  {
    match IndexOf(s, sep)
    case None =>
    case Some(i) =>
      var after := s[i + |sep|..];
      var rest := Split(after, sep);
      JoinSplit(after, sep);
      SplitUnfold(s, sep, i);
      var r := [s[..i]] + rest;
      assert r[1..] == rest;
      assert Join(r, sep) == s[..i] + sep + Join(rest, sep);
      CutAround(s, sep, i);
  }

  /** The cut after a piece is the first occurrence of the separator from
      the piece's start: the piece followed by all but the last character of
      the separator holds no occurrence of it. */
  lemma {:induction false} FirstPieceLeftmost(s: string, sep: string, i: nat)
    requires |sep| > 0 && IndexOf(s, sep) == Some(i)
    ensures !Contains(s[..i] + sep[..|sep| - 1], sep)
  {
    var t := s[..i] + sep[..|sep| - 1];
    assert s[i..i + |sep|] == sep;
    assert t == s[..i + |sep| - 1];
    if Contains(t, sep) {
      var j: nat :| j <= |t| && OccursAt(t, sep, j);
      assert t[j..j + |sep|] == s[j..j + |sep|];
      assert OccursAt(s, sep, j);
      assert false;
    }
  }

  /** Split cuts at the leftmost non-overlapping occurrences: no piece but
      the last, extended by all but the last character of the separator,
      contains the separator. So in "a\n\n\nb" the cut falls right after
      "a", not one newline later. */
  lemma {:induction false} SplitCutsLeftmost(s: string, sep: string)
    requires |sep| > 0
    ensures forall k :: 0 <= k < |Split(s, sep)| - 1 ==> !Contains(Split(s, sep)[k] + sep[..|sep| - 1], sep)
    decreases |s|
  {
    match IndexOf(s, sep)
    case None =>
    case Some(i) =>
      var rest := Split(s[i + |sep|..], sep);
      SplitCutsLeftmost(s[i + |sep|..], sep);
      SplitUnfold(s, sep, i);
      FirstPieceLeftmost(s, sep, i);
      assert Split(s, sep) == [s[..i]] + rest;
      forall k | 1 <= k < |Split(s, sep)| - 1
        ensures !Contains(Split(s, sep)[k] + sep[..|sep| - 1], sep)
      {
        assert Split(s, sep)[k] == rest[k - 1];
      }
  }

  /** In "a\n\n\nb" the cut falls right after "a". */
  lemma SplitExample()
    ensures Split("a\n\n\nb", "\n\n") == ["a", "\nb"]
  {
    var s := "a\n\n\nb";
    assert s[..2] != "\n\n" by { assert s[..2][0] == 'a'; }
    assert s[1..][..2] == "\n\n";
    assert IndexOf(s, "\n\n") == Some(1);
    assert s[3..] == "\nb";
    var tail := "\nb";
    assert tail[..2] != "\n\n" by { assert tail[..2][1] == 'b'; }
    assert tail[1..] == "b";
    assert IndexOf("b", "\n\n") == None;
    assert IndexOf(tail, "\n\n") == None;
    assert s[..1] == "a";
  }

  /** No piece of a split contains the separator. */
  lemma {:induction false} SplitPiecesFree(s: string, sep: string)
    requires |sep| > 0
    ensures forall k :: 0 <= k < |Split(s, sep)| ==> !Contains(Split(s, sep)[k], sep)
    decreases |s|
  {
    match IndexOf(s, sep)
    case None =>
    case Some(i) =>
      SplitPiecesFree(s[i + |sep|..], sep);
      var p := s[..i];
      if Contains(p, sep) {
        var j: nat :| j <= |p| && OccursAt(p, sep, j);
        assert s[j..j + |sep|] == p[j..j + |sep|];
        assert OccursAt(s, sep, j);
        assert false;
      }
      assert Split(s, sep) == [p] + Split(s[i + |sep|..], sep);
  }

  /** Joining a concatenation of two non-empty lists puts one separator
      between the two joins. */
  lemma {:induction false} JoinConcat(a: seq<string>, b: seq<string>, sep: string)
    requires |a| >= 1 && |b| >= 1
    ensures Join(a + b, sep) == Join(a, sep) + sep + Join(b, sep)
    decreases |a|
  {
    if |a| == 1 {
      assert (a + b)[1..] == b;
    } else {
      JoinConcat(a[1..], b, sep);
      assert (a + b)[1..] == a[1..] + b;
    }
  }
}
