/** The JavaScript string operations the record normaliser relies on:
    `String.prototype.split` with a one-character separator,
    `replace(/c/g, d)` with a one-character pattern, and `trim`. */
module Text {

  /** `s.split(c)` for a one-character separator: there is always at least one piece,
      and an empty input gives the single empty piece. */
  function Split(s: string, c: char): (r: seq<string>)
    ensures |r| >= 1
    decreases |s|
  {
    if s == [] then [""]
    else if s[0] == c then [""] + Split(s[1..], c)
    else
      var rest := Split(s[1..], c);
      [[s[0]] + rest[0]] + rest[1..]
  }

  /** `pieces.join(c)`, the inverse of Split. */
  function Join(pieces: seq<string>, c: char): string
    requires |pieces| >= 1
    decreases |pieces|
  {
    if |pieces| == 1 then pieces[0] else pieces[0] + [c] + Join(pieces[1..], c)
  }

  /** Splitting and joining again gives the input back, and no piece holds the separator. */
  lemma {:induction false} SplitJoin(s: string, c: char)
    ensures Join(Split(s, c), c) == s
    ensures forall i :: 0 <= i < |Split(s, c)| ==> c !in Split(s, c)[i]
    decreases |s|
  {
    if s != [] {
      SplitJoin(s[1..], c);
      var rest := Split(s[1..], c);
      if s[0] == c {
        assert Split(s, c)[1..] == rest;
      } else {
        var r := Split(s, c);
        assert r[1..] == rest[1..];
        if |rest| == 1 {
          assert Join(r, c) == [s[0]] + rest[0];
        } else {
          assert Join(rest, c) == rest[0] + [c] + Join(rest[1..], c);
        }
        assert s == [s[0]] + s[1..];
      }
    }
  }

  /** The first piece is the longest prefix free of the separator. */
  lemma {:induction false} FirstPiece(s: string, c: char)
    ensures var p := Split(s, c)[0];
            |p| <= |s| && p == s[..|p|] && c !in p && (|p| < |s| ==> s[|p|] == c)
    ensures |Split(s, c)| == 1 <==> c !in s
    decreases |s|
  {
    if s != [] && s[0] != c {
      FirstPiece(s[1..], c);
      assert s == [s[0]] + s[1..];
    }
  }

  /** When the separator occurs, the second piece is what lies between its first
      occurrence and the next one (or the end). */
  lemma {:induction false} SecondPiece(s: string, c: char)
    requires |Split(s, c)| >= 2
    ensures var p := Split(s, c)[0];
            var q := Split(s, c)[1];
            |p| < |s| && s[|p|] == c && Split(s[|p| + 1..], c)[0] == q
    decreases |s|
  {
    FirstPiece(s, c);
    if s[0] != c {
      var rest := Split(s[1..], c);
      SecondPiece(s[1..], c);
      assert s[1..][|rest[0]| + 1..] == s[|rest[0]| + 2..];
    } else {
      assert s[1..] == s[0 + 1..];
    }
  }

  /** `s.replace(/from/g, to)` for single characters. */
  function ReplaceAll(s: string, from: char, to: char): (r: string)
    ensures |r| == |s|
    ensures forall i :: 0 <= i < |s| ==> r[i] == (if s[i] == from then to else s[i])
    decreases |s|
  {
    if s == [] then []
    else [if s[0] == from then to else s[0]] + ReplaceAll(s[1..], from, to)
  }

  /** The characters `String.prototype.trim` removes: ECMAScript WhiteSpace and LineTerminator. */
  predicate IsWhitespace(ch: char)
  {
    ch == '\U{9}' || ch == '\U{A}' || ch == '\U{B}' || ch == '\U{C}' || ch == '\U{D}'
    || ch == '\U{20}' || ch == '\U{A0}' || ch == '\U{1680}'
    || ('\U{2000}' <= ch <= '\U{200A}')
    || ch == '\U{2028}' || ch == '\U{2029}' || ch == '\U{202F}' || ch == '\U{205F}'
    || ch == '\U{3000}' || ch == '\U{FEFF}'
  }

  /** `s` without its leading whitespace. */
  function TrimStart(s: string): (r: string)
    ensures |r| <= |s| && r == s[|s| - |r|..]
    ensures forall i :: 0 <= i < |s| - |r| ==> IsWhitespace(s[i])
    ensures r != [] ==> !IsWhitespace(r[0])
    decreases |s|
  {
    if s != [] && IsWhitespace(s[0]) then TrimStart(s[1..]) else s
  }

  /** `s` without its trailing whitespace. */
  function TrimEnd(s: string): (r: string)
    ensures |r| <= |s| && r == s[..|r|]
    ensures forall i :: |r| <= i < |s| ==> IsWhitespace(s[i])
    ensures r != [] ==> !IsWhitespace(r[|r| - 1])
    decreases |s|
  {
    if s != [] && IsWhitespace(s[|s| - 1]) then TrimEnd(s[..|s| - 1]) else s
  }

  /** `s.trim()`: the slice of `s` obtained by removing whitespace at both ends;
      what remains neither starts nor ends with whitespace. */
  function Trim(s: string): (r: string)
    ensures exists i, j :: 0 <= i <= j <= |s| && r == s[i..j]
                           && (forall k :: 0 <= k < i ==> IsWhitespace(s[k]))
                           && (forall k :: j <= k < |s| ==> IsWhitespace(s[k]))
    ensures r != [] ==> !IsWhitespace(r[0]) && !IsWhitespace(r[|r| - 1])
  {
    var t := TrimStart(s);
    var r := TrimEnd(t);
    var i := |s| - |t|;
    assert r == s[i..i + |r|];
    r
  }

  /** Trimming leaves nothing exactly when the input is all whitespace. */
  lemma TrimEmptyIffBlank(p: string)
    ensures Trim(p) == [] <==> forall i :: 0 <= i < |p| ==> IsWhitespace(p[i])
  {
    var d := Trim(p);
    var i, j :| 0 <= i <= j <= |p| && d == p[i..j]
                && (forall k :: 0 <= k < i ==> IsWhitespace(p[k]))
                && (forall k :: j <= k < |p| ==> IsWhitespace(p[k]));
    if d == [] {
      forall k | 0 <= k < |p| ensures IsWhitespace(p[k]) {
        if k >= i { assert k >= j; }
      }
    } else {
      assert p[i] == d[0];
    }
  }
}
