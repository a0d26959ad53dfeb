/**
 * The two string operations the chat client relies on: `String.prototype.trim`,
 * used to decide whether a composed message or a stream line is blank, and
 * `String.prototype.split("\n")`, used to cut a received chunk into lines.
 */
module Text {

  /** A character `trim` removes: ECMAScript's WhiteSpace (tab, vertical tab, form
      feed, space, no-break space, byte order mark and every space separator) and
      LineTerminator (line feed, carriage return, line and paragraph separators). */
  predicate IsJsWhitespace(c: char) {
    || c == '\t' || c == '\n' || c == '\U{B}' || c == '\U{C}' || c == '\r' || c == ' '
    || c == '\U{A0}' || c == '\U{1680}' || ('\U{2000}' <= c <= '\U{200A}')
    || c == '\U{2028}' || c == '\U{2029}' || c == '\U{202F}' || c == '\U{205F}'
    || c == '\U{3000}' || c == '\U{FEFF}'
  }

  /** `s.trim() === ""`, the test both the submit guard and the line filter use,
      stated as: every character is one `trim` removes (see `Trim`). */
  predicate IsBlank(s: string) {
    forall i :: 0 <= i < |s| ==> IsJsWhitespace(s[i])
  }

  /** A leading whitespace character extends a blank prefix of the rest. */
  lemma BlankFront(s: string, k: nat)
    requires 1 <= k <= |s| && IsJsWhitespace(s[0])
    ensures IsBlank(s[..k]) <==> IsBlank(s[1..][..k - 1])
    ensures IsBlank(s) <==> IsBlank(s[1..])
    ensures s[1..][k - 1..] == s[k..]
  {
    assert forall i :: 1 <= i < k ==> s[..k][i] == s[1..][..k - 1][i - 1];
    assert forall i :: 1 <= i < |s| ==> s[i] == s[1..][i - 1];
  }

  /** A trailing whitespace character extends a blank suffix of the rest. */
  lemma BlankBack(s: string, k: nat)
    requires k < |s| && IsJsWhitespace(s[|s| - 1])
    ensures IsBlank(s[k..]) <==> IsBlank(s[..|s| - 1][k..])
    ensures IsBlank(s) <==> IsBlank(s[..|s| - 1])
    ensures s[..|s| - 1][..k] == s[..k]
  {
    assert forall i :: 0 <= i < |s| - 1 - k ==> s[k..][i] == s[..|s| - 1][k..][i];
    assert forall i :: 0 <= i < |s| - 1 ==> s[i] == s[..|s| - 1][i];
  }

  /** Drops leading whitespace: the result is a suffix of `s`, everything dropped
      is whitespace, and the result does not start with whitespace. */
  function TrimStart(s: string): (r: string)
    ensures |r| <= |s| && r == s[|s| - |r|..]
    ensures IsBlank(s[..|s| - |r|])
    ensures r == [] || !IsJsWhitespace(r[0])
    ensures r == [] <==> IsBlank(s)
  {
    if s != [] && IsJsWhitespace(s[0]) then
      var r := TrimStart(s[1..]);
      BlankFront(s, |s| - |r|);
      r
    else s
  }

  /** Drops trailing whitespace: the result is a prefix of `s`, everything dropped
      is whitespace, and the result does not end with whitespace. */
  function TrimEnd(s: string): (r: string)
    ensures |r| <= |s| && r == s[..|r|]
    ensures IsBlank(s[|r|..])
    ensures r == [] || !IsJsWhitespace(r[|r| - 1])
    ensures r == [] <==> IsBlank(s)
  {
    if s != [] && IsJsWhitespace(s[|s| - 1]) then
      var r := TrimEnd(s[..|s| - 1]);
      BlankBack(s, |r|);
      r
    else s
  }

  /** Nothing is dropped from a string that does not start with whitespace. */
  lemma TrimStartKeeps(s: string)
    requires s != [] && !IsJsWhitespace(s[0])
    ensures TrimStart(s) == s
  {
  }

  /** `s.trim()`: the part of `s` between its leading and its trailing
      whitespace. Whatever is cut off on either side is whitespace, the result
      neither starts nor ends with whitespace, and it is empty exactly when `s`
      is blank. */
  function Trim(s: string): (r: string)
    ensures exists i, j :: 0 <= i <= j <= |s| && r == s[i..j] && IsBlank(s[..i]) && IsBlank(s[j..])
    ensures r == [] || (!IsJsWhitespace(r[0]) && !IsJsWhitespace(r[|r| - 1]))
    ensures r == [] <==> IsBlank(s)
  {
    TrimBounds(s);
    TrimEnd(TrimStart(s))
  }

  /** The facts `Trim` promises, about the two trims it composes. */
  lemma TrimBounds(s: string)
    ensures var r := TrimEnd(TrimStart(s));
            && (exists i, j :: 0 <= i <= j <= |s| && r == s[i..j] && IsBlank(s[..i]) && IsBlank(s[j..]))
            && (r == [] || (!IsJsWhitespace(r[0]) && !IsJsWhitespace(r[|r| - 1])))
            && (r == [] <==> IsBlank(s))
  {
    var t := TrimStart(s);
    var r := TrimEnd(t);
    var i := |s| - |t|;
    assert t == s[i..];
    assert r == s[i..i + |r|];
    assert s[i + |r|..] == t[|r|..];
    if r != [] {
      assert r[0] == t[0];
    }
  }

  /** `s.split("\n")`: the pieces between line feeds, in order. The empty string
      splits into one empty piece, and a trailing line feed yields a trailing
      empty piece. */
  function Split(s: string): (r: seq<string>)
    ensures |r| >= 1
  {
    if s == [] then [[]] else Prepend(s[0], Split(s[1..]))
  }

  /** The pieces of `[c] + s`, given the pieces of `s`: a line feed opens a new
      empty first piece, any other character joins the first piece. */
  function Prepend(c: char, pieces: seq<string>): (r: seq<string>)
    requires |pieces| >= 1
    ensures |r| >= 1
  {
    if c == '\n' then [[]] + pieces else [[c] + pieces[0]] + pieces[1..]
  }

  /** No piece of a split contains a line feed. */
  lemma {:induction false} SplitPiecesHaveNoNewline(s: string)
    ensures forall i :: 0 <= i < |Split(s)| ==> '\n' !in Split(s)[i]
  {
    if s != [] {
      SplitPiecesHaveNoNewline(s[1..]);
      var rest := Split(s[1..]);
      if s[0] != '\n' {
        assert '\n' !in [s[0]] + rest[0];
      }
    }
  }

  /** `parts.join("\n")`. */
  function Join(parts: seq<string>): string
    requires |parts| >= 1
  {
    if |parts| == 1 then parts[0] else parts[0] + "\n" + Join(parts[1..])
  }

  /** Splitting loses nothing: joining the pieces back gives the original text. */
  lemma {:induction false} JoinSplit(s: string)
    ensures Join(Split(s)) == s
  {
    if s != [] {
      var rest := Split(s[1..]);
      JoinSplit(s[1..]);
      JoinPrepend(s[0], rest);
      assert [s[0]] + s[1..] == s;
    }
  }

  /** Joining after `Prepend` is prefixing the character. */
  lemma JoinPrepend(c: char, pieces: seq<string>)
    requires |pieces| >= 1
    ensures Join(Prepend(c, pieces)) == [c] + Join(pieces)
  {
    if c == '\n' {
      JoinPrependNewline(pieces);
    } else {
      JoinPrependOther(c, pieces);
    }
  }

  lemma JoinPrependNewline(pieces: seq<string>)
    requires |pieces| >= 1
    ensures Join(Prepend('\n', pieces)) == "\n" + Join(pieces)
  {
    var r := Prepend('\n', pieces);
    assert r[0] == [] && r[1..] == pieces;
    assert Join(r) == [] + "\n" + Join(pieces);
  }

  lemma JoinPrependOther(c: char, pieces: seq<string>)
    requires |pieces| >= 1 && c != '\n'
    ensures Join(Prepend(c, pieces)) == [c] + Join(pieces)
  {
    var r := Prepend(c, pieces);
    var p0 := pieces[0];
    if |pieces| == 1 {
      assert r == [[c] + p0];
    } else {
      var j := Join(pieces[1..]);
      assert r[0] == [c] + p0 && r[1..] == pieces[1..];
      assert Join(r) == ([c] + p0) + "\n" + j;
      ConsAssociates(c, p0, j);
    }
  }

  lemma ConsAssociates(c: char, p: string, j: string)
    ensures ([c] + p) + "\n" + j == [c] + (p + "\n" + j)
  {
  }

  /** The converse: pieces free of line feeds are recovered by splitting their join. */
  lemma {:induction false} SplitJoin(parts: seq<string>)
    requires |parts| >= 1
    requires forall i :: 0 <= i < |parts| ==> '\n' !in parts[i]
    ensures Split(Join(parts)) == parts
  {
    SplitNoNewline(parts[0]);
    if |parts| > 1 {
      var rest := parts[1..];
      assert forall i :: 0 <= i < |rest| ==> '\n' !in rest[i] by {
        forall i | 0 <= i < |rest| ensures '\n' !in rest[i] {
          assert rest[i] == parts[i + 1];
        }
      }
      SplitJoin(rest);
      SplitAfterNewline(parts[0], Join(rest), rest);
      assert parts == [parts[0]] + rest;
    }
  }

  /** One more piece in front: a piece without line feeds, a line feed, then text
      whose pieces are known. */
  lemma SplitAfterNewline(x: string, j: string, ps: seq<string>)
    requires '\n' !in x && |ps| >= 1 && Split(j) == ps
    ensures Split(x + "\n" + j) == [x] + ps
  {
    var tail := "\n" + j;
    assert tail[1..] == j;
    var pt := Split(tail);
    assert pt == [[]] + ps;
    SplitNoNewline(x);
    SplitConcat(x, tail);
    assert x + "\n" + j == x + tail;
    SeamOntoEmpty(x, ps);
  }

  /** Fusing a single piece onto an empty first piece. */
  lemma SeamOntoEmpty(x: string, ps: seq<string>)
    ensures Seam([x], [[]] + ps) == [x] + ps
  {
    assert x + [] == x;
  }

  /** A string without line feeds is a single piece. */
  lemma {:induction false} SplitNoNewline(s: string)
    requires '\n' !in s
    ensures Split(s) == [s]
  {
    if s != [] {
      assert '\n' !in s[1..] by {
        forall i | 0 <= i < |s[1..]| ensures s[1..][i] != '\n' {
          assert s[1..][i] == s[i + 1];
        }
      }
      SplitNoNewline(s[1..]);
      assert [s[0]] + s[1..] == s;
    }
  }

  /** The pieces of a concatenation, from the pieces of its halves: the last piece
      of the first half and the first piece of the second fuse into one. */
  function Seam(pa: seq<string>, pb: seq<string>): (r: seq<string>)
    requires |pa| >= 1 && |pb| >= 1
    ensures |r| == |pa| + |pb| - 1
  {
    pa[..|pa| - 1] + [pa[|pa| - 1] + pb[0]] + pb[1..]
  }

  /** Splitting a concatenation: the last piece of `a` and the first piece of `b`
      fuse into one piece; all other pieces are kept. So splitting two halves
      separately differs from splitting their concatenation exactly at the seam. */
  lemma {:induction false} SplitConcat(a: string, b: string)
    ensures Split(a + b) == Seam(Split(a), Split(b))
  {
    if a == [] {
      assert a + b == b;
      SeamEmpty(Split(b));
    } else {
      assert (a + b)[1..] == a[1..] + b;
      SplitConcat(a[1..], b);
      PrependSeam(a[0], Split(a[1..]), Split(b));
    }
  }

  /** An empty first half adds nothing at the seam. */
  lemma SeamEmpty(pb: seq<string>)
    requires |pb| >= 1
    ensures Seam([[]], pb) == pb
  {
    assert [] + pb[0] == pb[0];
  }

  /** The pieces of a seam, one by one. */
  lemma SeamAt(pa: seq<string>, pb: seq<string>, i: nat)
    requires |pa| >= 1 && |pb| >= 1 && i < |pa| + |pb| - 1
    ensures Seam(pa, pb)[i] == if i < |pa| - 1 then pa[i]
                               else if i == |pa| - 1 then pa[i] + pb[0]
                               else pb[i - |pa| + 1]
  {
  }

  /** The pieces after prefixing a character, one by one. */
  lemma PrependAt(c: char, ps: seq<string>, i: nat)
    requires |ps| >= 1 && i < |Prepend(c, ps)|
    ensures |Prepend(c, ps)| == if c == '\n' then |ps| + 1 else |ps|
    ensures Prepend(c, ps)[i] == if c == '\n' then (if i == 0 then [] else ps[i - 1])
                                 else if i == 0 then [c] + ps[0] else ps[i]
  {
  }

  /** Prefixing a character commutes with fusing at the seam. */
  lemma PrependSeam(c: char, pa: seq<string>, pb: seq<string>)
    requires |pa| >= 1 && |pb| >= 1
    ensures Prepend(c, Seam(pa, pb)) == Seam(Prepend(c, pa), pb)
  {
    var lhs := Prepend(c, Seam(pa, pb));
    var rhs := Seam(Prepend(c, pa), pb);
    PrependAt(c, pa, 0);
    PrependAt(c, Seam(pa, pb), 0);
    forall i | 0 <= i < |lhs| ensures lhs[i] == rhs[i] {
      PrependSeamAt(c, pa, pb, i);
    }
  }

  /** `PrependSeam`, one piece at a time. */
  lemma PrependSeamAt(c: char, pa: seq<string>, pb: seq<string>, i: nat)
    requires |pa| >= 1 && |pb| >= 1 && i < |Prepend(c, Seam(pa, pb))|
    ensures |Prepend(c, Seam(pa, pb))| == |Seam(Prepend(c, pa), pb)|
    ensures Prepend(c, Seam(pa, pb))[i] == Seam(Prepend(c, pa), pb)[i]
  {
    var sp := Seam(pa, pb);
    var pc := Prepend(c, pa);
    PrependAt(c, pa, 0);
    PrependAt(c, sp, i);
    SeamAt(pc, pb, i);
    if c == '\n' {
      if i > 0 {
        SeamAt(pa, pb, i - 1);
        if i < |pc| {
          PrependAt(c, pa, i);
        }
      }
    } else {
      SeamAt(pa, pb, i);
      if i < |pc| {
        PrependAt(c, pa, i);
      }
      if i == 0 && |pa| == 1 {
        assert [c] + (pa[0] + pb[0]) == ([c] + pa[0]) + pb[0];
      }
    }
  }
}
