/** Python's `str.split(sep)` and `sep.join(parts)` on strings, the two string
    operations the pipeline builds its identifiers and messages from. */
module Strings {

  function Last<T>(s: seq<T>): T
    requires |s| > 0
  {
    s[|s| - 1]
  }

  /** `s.split(sep)` for a non-empty separator: the pieces between the leftmost
      non-overlapping occurrences of `sep`, scanning from the left. There is
      always at least one piece (`"".split("/") == [""]`). */
  function Split(s: string, sep: string): (pieces: seq<string>)
    requires |sep| > 0
    ensures |pieces| >= 1
    decreases |s|
  {
    if |s| < |sep| then [s]
    else if s[..|sep|] == sep then [""] + Split(s[|sep|..], sep)
    else
      var rest := Split(s[1..], sep);
      [[s[0]] + rest[0]] + rest[1..]
  }

  /** `sep.join(parts)`: the parts with `sep` between neighbours; the empty list
      joins to "". The result begins with the first part. */
  function Join(parts: seq<string>, sep: string): (s: string)
    ensures |parts| == 0 ==> s == ""
    ensures |parts| >= 1 ==> |parts[0]| <= |s| && s[..|parts[0]|] == parts[0]
    decreases |parts|
  {
    if |parts| == 0 then ""
    else if |parts| == 1 then parts[0]
    else parts[0] + sep + Join(parts[1..], sep)
  }

  /** Joining the pieces of a split with the same separator gives back the string. */
  lemma {:induction false} JoinSplit(s: string, sep: string)
    requires |sep| > 0
    ensures Join(Split(s, sep), sep) == s
    decreases |s|
  {
    if |s| < |sep| {
    } else if s[..|sep|] == sep {
      var rest := Split(s[|sep|..], sep);
      JoinSplit(s[|sep|..], sep);
      assert ([""] + rest)[1..] == rest;
      assert s == sep + s[|sep|..];
    } else {
      var rest := Split(s[1..], sep);
      JoinSplit(s[1..], sep);
      JoinConsHead(s[0], rest, sep);
      assert s == [s[0]] + s[1..];
    }
  }

  /** Prepending a character to the first part prepends it to the joined string. */
  lemma JoinConsHead(c: char, parts: seq<string>, sep: string)
    requires |parts| > 0
    ensures Join([[c] + parts[0]] + parts[1..], sep) == [c] + Join(parts, sep)
  {
    var p := [[c] + parts[0]] + parts[1..];
    assert p[1..] == parts[1..];
  }

  /** A string in which the separator's first character never occurs splits into itself alone. */
  lemma {:induction false} SplitNoSeparator(s: string, sep: string)
    requires |sep| > 0 && sep[0] !in s
    ensures Split(s, sep) == [s]
    decreases |s|
  {
    if |s| >= |sep| {
      assert s[..|sep|][0] == s[0];
      SplitNoSeparator(s[1..], sep);
      assert [s[0]] + s[1..] == s;
    }
  }

  /** A piece free of the separator's first character, followed by the separator,
      comes off a split as one whole piece. */
  lemma {:induction false} SplitAfterPiece(p: string, sep: string, t: string)
    requires |sep| > 0 && sep[0] !in p
    ensures Split(p + sep + t, sep) == [p] + Split(t, sep)
    decreases |p|
  {
    var s := p + sep + t;
    if |p| == 0 {
      assert s == sep + t;
      assert s[..|sep|] == sep && s[|sep|..] == t;
    } else {
      assert s[..|sep|][0] == p[0];
      assert s[1..] == p[1..] + sep + t;
      SplitAfterPiece(p[1..], sep, t);
      assert [p[0]] + p[1..] == p;
    }
  }

  /** Splitting a join gives back the parts, provided no part holds the
      separator's first character (and there is at least one part). */
  lemma {:induction false} SplitJoin(parts: seq<string>, sep: string)
    requires |sep| > 0 && |parts| > 0
    requires forall i :: 0 <= i < |parts| ==> sep[0] !in parts[i]
    ensures Split(Join(parts, sep), sep) == parts
    decreases |parts|
  {
    if |parts| == 1 {
      SplitNoSeparator(parts[0], sep);
    } else {
      SplitJoin(parts[1..], sep);
      SplitAfterPiece(parts[0], sep, Join(parts[1..], sep));
      assert [parts[0]] + parts[1..] == parts;
    }
  }

  /** No piece of a split on a one-character separator contains that character. */
  lemma {:induction false} SplitPiecesAvoid(s: string, c: char)
    ensures forall i :: 0 <= i < |Split(s, [c])| ==> c !in Split(s, [c])[i]
    decreases |s|
  {
    if |s| >= 1 {
      SplitPiecesAvoid(s[1..], c);
      if s[..1] != [c] {
        assert s[0] != c;
      }
    }
  }

  /** A join of two or more parts ends with the separator and the last part. */
  lemma {:induction false} JoinSnoc(parts: seq<string>, sep: string)
    requires |parts| > 1
    ensures Join(parts, sep) == Join(parts[..|parts| - 1], sep) + sep + Last(parts)
    decreases |parts|
  {
    var init := parts[..|parts| - 1];
    if |parts| == 2 {
      assert init == [parts[0]];
      assert parts[1..] == [parts[1]];
    } else {
      var tail := parts[1..];
      JoinSnoc(tail, sep);
      assert tail[..|tail| - 1] == init[1..];
      assert Last(tail) == Last(parts);
      var middle := Join(init[1..], sep);
      assert Join(tail, sep) == middle + sep + Last(parts);
      assert Join(init, sep) == parts[0] + sep + middle;
      assert Join(parts, sep) == parts[0] + sep + Join(tail, sep);
      assert parts[0] + sep + (middle + sep + Last(parts)) == (parts[0] + sep + middle) + sep + Last(parts);
    }
  }

  /** `s.split(c)[0]`: the longest prefix of `s` free of `c`. */
  function FirstPiece(s: string, c: char): (piece: string)
    ensures c !in piece
    ensures |piece| <= |s| && s[..|piece|] == piece
    ensures |piece| == |s| || s[|piece|] == c
  {
    var pieces := Split(s, [c]);
    SplitPiecesAvoid(s, c);
    JoinSplit(s, [c]);
    pieces[0]
  }

  /** `s.split(c)[-1]`: the longest suffix of `s` free of `c`. */
  function LastPiece(s: string, c: char): (piece: string)
    ensures c !in piece
    ensures |piece| <= |s| && s[|s| - |piece|..] == piece
    ensures |piece| == |s| || s[|s| - |piece| - 1] == c
  {
    var pieces := Split(s, [c]);
    SplitPiecesAvoid(s, c);
    JoinSplit(s, [c]);
    if |pieces| > 1 then JoinSnoc(pieces, [c]); Last(pieces) else Last(pieces)
  }

  /** The three properties in FirstPiece's contract pick out a single string. */
  lemma FirstPieceUnique(s: string, c: char, t: string)
    requires c !in t
    requires |t| <= |s| && s[..|t|] == t
    requires |t| == |s| || s[|t|] == c
    ensures t == FirstPiece(s, c)
  {
    var f := FirstPiece(s, c);
    assert t == s[..|t|] == s[..|f|] == f;
  }

  /** The three properties in LastPiece's contract pick out a single string. */
  lemma LastPieceUnique(s: string, c: char, t: string)
    requires c !in t
    requires |t| <= |s| && s[|s| - |t|..] == t
    requires |t| == |s| || s[|s| - |t| - 1] == c
    ensures t == LastPiece(s, c)
  {
    var l := LastPiece(s, c);
    assert t == s[|s| - |t|..] == s[|s| - |l|..] == l;
  }
}
