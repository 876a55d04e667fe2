/** Literal replacement of every occurrence by splitting and joining, as modify_file does it. */
module TextReplace {
  import opened CodeUnits

  /** `search` occurs in `s` at `i`. */
  predicate OccursAt(s: Text, search: Text, i: nat) {
    i + |search| <= |s| && s[i..i + |search|] == search
  }

  /** The first occurrence at or after `from`, or the length of the text if there is none. */
  function IndexOf(s: Text, search: Text, from: nat := 0): (r: nat)
    requires from <= |s|
    ensures from <= r <= |s|
    ensures r < |s| ==> OccursAt(s, search, r)
    ensures forall i :: from <= i < r ==> !OccursAt(s, search, i)
    decreases |s| - from
  {
    if from == |s| || OccursAt(s, search, from) then from else IndexOf(s, search, from + 1)
  }

  /** String.prototype.split with a non-empty separator. */
  function Split(s: Text, search: Text): (r: seq<Text>)
    requires |search| > 0
    ensures |r| > 0
  {
    var i := IndexOf(s, search);
    if i == |s| then [s] else [s[..i]] + Split(s[i + |search|..], search)
  }

  /** Array.prototype.join. */
  function Join(pieces: seq<Text>, glue: Text): Text {
    if |pieces| == 0 then []
    else if |pieces| == 1 then pieces[0]
    else pieces[0] + glue + Join(pieces[1..], glue)
  }

  /** The first occurrence in the piece followed by the search text is that search text. */
  ghost predicate Leftmost(piece: Text, search: Text) {
    forall i :: 0 <= i < |piece| ==> !OccursAt(piece + search, search, i)
  }

  ghost predicate Absent(piece: Text, search: Text) {
    forall i :: 0 <= i <= |piece| ==> !OccursAt(piece, search, i)
  }

  /** Cutting `s` at its leftmost non-overlapping occurrences gives these pieces. */
  ghost predicate Cuts(s: Text, search: Text, pieces: seq<Text>) {
    && |pieces| > 0
    && Join(pieces, search) == s
    && (forall k :: 0 <= k < |pieces| - 1 ==> Leftmost(pieces[k], search))
    && Absent(pieces[|pieces| - 1], search)
  }

  lemma OccursInPrefix(a: Text, b: Text, search: Text, i: nat)
    requires i + |search| <= |a|
    ensures OccursAt(a, search, i) <==> OccursAt(a + b, search, i)
  {
    assert (a + b)[i..i + |search|] == a[i..i + |search|];
  }

  lemma {:induction false} SplitCuts(s: Text, search: Text)
    requires |search| > 0
    ensures Cuts(s, search, Split(s, search))
    decreases |s|
  {
    hide OccursAt;
    var i := IndexOf(s, search);
    if i < |s| {
      FirstPiece(s, search, i);
      var rest := s[i + |search|..];
      SplitCuts(rest, search);
      assert Split(s, search)[1..] == Split(rest, search);
    } else {
      assert Split(s, search) == [s];
      LongOccursNowhere(s, search);
    }
  }

  lemma LongOccursNowhere(s: Text, search: Text)
    requires |search| > 0
    ensures !OccursAt(s, search, |s|)
  {
  }

  lemma {:induction false} FirstPiece(s: Text, search: Text, i: nat)
    requires |search| > 0 && i == IndexOf(s, search) < |s|
    ensures i + |search| <= |s| && s == s[..i] + search + s[i + |search|..]
    ensures Leftmost(s[..i], search)
  {
    var front, rest := s[..i] + search, s[i + |search|..];
    assert s == front + rest;
    forall j | 0 <= j < i ensures !OccursAt(front, search, j) {
      OccursInPrefix(front, rest, search, j);
    }
  }

  /** There is only one such cutting: the code finds all occurrences, and the leftmost ones. */
  lemma {:induction false} CutsAreUnique(s: Text, search: Text, pieces: seq<Text>)
    requires |search| > 0 && Cuts(s, search, pieces)
    ensures pieces == Split(s, search)
    decreases |pieces|
  {
    hide OccursAt, Leftmost, Absent;
    if |pieces| == 1 {
      assert pieces == [s];
      NoCut(s, search);
    } else {
      var rest := Join(pieces[1..], search);
      var i := |pieces[0]|;
      assert s == pieces[0] + search + rest;
      FirstCut(s, search, pieces[0], rest);
      CutsAreUnique(rest, search, pieces[1..]);
      assert s[i + |search|..] == rest && s[..i] == pieces[0];
    }
  }

  lemma {:induction false} NoCut(s: Text, search: Text)
    requires Absent(s, search)
    ensures IndexOf(s, search) == |s|
  {
  }

  lemma {:induction false} FirstCut(s: Text, search: Text, piece: Text, rest: Text)
    requires |search| > 0 && s == piece + search + rest && Leftmost(piece, search)
    ensures IndexOf(s, search) == |piece| < |s|
  {
    assert OccursAt(s, search, |piece|);
    forall j | 0 <= j < |piece| ensures !OccursAt(s, search, j) {
      assert s == (piece + search) + rest;
      OccursInPrefix(piece + search, rest, search, j);
    }
  }

  /** No piece contains the search text. */
  lemma LeftmostIsAbsent(piece: Text, search: Text)
    requires |search| > 0 && Leftmost(piece, search)
    ensures Absent(piece, search)
  {
    forall i | 0 <= i <= |piece| ensures !OccursAt(piece, search, i) {
      if OccursAt(piece, search, i) {
        assert (piece + search)[i..i + |search|] == piece[i..i + |search|];
        assert OccursAt(piece + search, search, i);
      }
    }
  }

  /** The sum of the lengths of the pieces. */
  function TotalLength(pieces: seq<Text>): nat {
    if |pieces| == 0 then 0 else |pieces[0]| + TotalLength(pieces[1..])
  }

  lemma {:induction false} JoinLength(pieces: seq<Text>, glue: Text)
    requires |pieces| > 0
    ensures |Join(pieces, glue)| == TotalLength(pieces) + (|pieces| - 1) * |glue|
  {
    if |pieces| == 1 {
      assert TotalLength(pieces[1..]) == 0;
    } else {
      JoinLength(pieces[1..], glue);
      assert (|pieces| - 1) * |glue| == |glue| + (|pieces| - 2) * |glue|;
    }
  }

  function Replace(s: Text, search: Text, replacement: Text): Text
    requires |search| > 0
  {
    Join(Split(s, search), replacement)
  }

  function Occurrences(s: Text, search: Text): nat
    requires |search| > 0
  {
    |Split(s, search)| - 1
  }

  /** The pieces between the leftmost non-overlapping occurrences are the only cutting, and none
      of them contains the search text. */
  lemma {:induction false} SplitIsTheCut(s: Text, search: Text, pieces: seq<Text>)
    requires |search| > 0
    ensures Cuts(s, search, pieces) <==> pieces == Split(s, search)
    ensures forall k :: 0 <= k < |Split(s, search)| ==> Absent(Split(s, search)[k], search)
  {
    hide Split, Leftmost, Absent;
    var split := Split(s, search);
    SplitCuts(s, search);
    if Cuts(s, search, pieces) {
      CutsAreUnique(s, search, pieces);
    }
    forall k | 0 <= k < |split| ensures Absent(split[k], search) {
      if k < |split| - 1 {
        LeftmostIsAbsent(split[k], search);
      }
    }
  }

  /** What modify_file does to a text: nothing when the search text is absent, otherwise every
      occurrence changes the length by the same amount. */
  lemma ReplaceIsExact(s: Text, search: Text, replacement: Text)
    requires |search| > 0
    ensures |Replace(s, search, replacement)| == |s| + Occurrences(s, search) * (|replacement| - |search|)
    ensures Occurrences(s, search) == 0 <==> Absent(s, search)
    ensures Occurrences(s, search) == 0 ==> Replace(s, search, replacement) == s
    ensures Replace(s, search, search) == s
  {
    hide Split, Absent;
    var split := Split(s, search);
    SplitCuts(s, search);
    JoinLength(split, search);
    JoinLength(split, replacement);
    Distributes(|split| - 1, |replacement|, |search|);
    OccursWhenCut(s, search);
  }

  lemma OccursWhenCut(s: Text, search: Text)
    requires |search| > 0
    ensures Occurrences(s, search) == 0 <==> Absent(s, search)
  {
    var i := IndexOf(s, search);
    assert !OccursAt(s, search, |s|);
  }

  lemma Distributes(n: nat, a: nat, b: nat)
    ensures n * (a - b) == n * a - n * b
  {
  }
}
