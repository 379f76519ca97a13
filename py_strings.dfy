/**
 * The Python `str` operations the request validators, the admin login and the PDF
 * ingestion use: `strip()`, `split(' ')`, `sep.join(pieces)` and `startswith`.
 */
module PyStrings {

  /** `c.isspace()`: the characters Python's `str.strip()` removes by default. */
  predicate IsSpace(c: char) {
    || ('\t' <= c <= '\r')                 // \t \n \x0b \x0c \r
    || ('\U{1C}' <= c <= '\U{1F}')          // file, group, record and unit separators
    || c == ' ' || c == '\U{85}' || c == '\U{A0}' || c == '\U{1680}'
    || ('\U{2000}' <= c <= '\U{200A}')
    || c == '\U{2028}' || c == '\U{2029}' || c == '\U{202F}' || c == '\U{205F}' || c == '\U{3000}'
  }

  /** True when every character of `s` is whitespace (so also for the empty string). */
  predicate IsBlank(s: string) {
    forall i | 0 <= i < |s| :: IsSpace(s[i])
  }

  /** `s.lstrip()`. */
  function StripLeading(s: string): string {
    if s != [] && IsSpace(s[0]) then StripLeading(s[1..]) else s
  }

  /** `s.rstrip()`. */
  function StripTrailing(s: string): string {
    if s != [] && IsSpace(s[|s| - 1]) then StripTrailing(s[..|s| - 1]) else s
  }

  /** `s.strip()`. */
  function Strip(s: string): string {
    StripTrailing(StripLeading(s))
  }

  lemma BlankCons(s: string)
    requires s != []
    ensures IsBlank(s) <==> IsSpace(s[0]) && IsBlank(s[1..])
  {
    assert forall i | 1 <= i < |s| :: s[i] == s[1..][i - 1];
  }

  lemma BlankSnoc(s: string)
    requires s != []
    ensures IsBlank(s) <==> IsSpace(s[|s| - 1]) && IsBlank(s[..|s| - 1])
  {
    assert forall i | 0 <= i < |s| - 1 :: s[i] == s[..|s| - 1][i];
  }

  /** `lstrip` empties exactly the blank strings, and otherwise stops at a non-space character. */
  lemma {:induction false} StripLeadingFacts(s: string)
    ensures StripLeading(s) == [] <==> IsBlank(s)
    ensures StripLeading(s) != [] ==> !IsSpace(StripLeading(s)[0])
  {
    if s != [] {
      BlankCons(s);
      if IsSpace(s[0]) {
        StripLeadingFacts(s[1..]);
      }
    }
  }

  /** `rstrip` empties exactly the blank strings. */
  lemma {:induction false} StripTrailingFacts(s: string)
    ensures StripTrailing(s) == [] <==> IsBlank(s)
  {
    if s != [] {
      BlankSnoc(s);
      if IsSpace(s[|s| - 1]) {
        StripTrailingFacts(s[..|s| - 1]);
      }
    }
  }

  /** `not s.strip()` holds exactly when every character of `s` is whitespace. */
  lemma StripEmptyIffBlank(s: string)
    ensures Strip(s) == [] <==> IsBlank(s)
  {
    var lead := StripLeading(s);
    StripLeadingFacts(s);
    StripTrailingFacts(lead);
    if lead != [] {
      assert !IsBlank(lead) by {
        assert !IsSpace(lead[0]);
      }
    }
  }

  /** `sep.join(pieces)`. */
  function Join(pieces: seq<string>, sep: string): string {
    if pieces == [] then []
    else if |pieces| == 1 then pieces[0]
    else pieces[0] + sep + Join(pieces[1..], sep)
  }

  /** `s.split(' ')`: the pieces between single spaces; never empty, and `""` gives `[""]`. */
  function SplitOnSpace(s: string): (pieces: seq<string>)
    ensures |pieces| >= 1
  {
    if s == [] then [[]]
    else
      var rest := SplitOnSpace(s[1..]);
      if s[0] == ' ' then [[]] + rest
      else [[s[0]] + rest[0]] + rest[1..]
  }

  /** `s.split(' ')[-1]`. */
  function LastPiece(s: string): string {
    var pieces := SplitOnSpace(s);
    pieces[|pieces| - 1]
  }

  /** Splitting on a space and joining with a space gives back the original string. */
  lemma {:induction false} JoinSplit(s: string)
    ensures Join(SplitOnSpace(s), " ") == s
  {
    if s != [] {
      JoinSplit(s[1..]);
      var rest := SplitOnSpace(s[1..]);
      if s[0] == ' ' {
        assert s == " " + Join(rest, " ");
      } else {
        var pieces := SplitOnSpace(s);
        if |rest| == 1 {
          assert pieces == [[s[0]] + rest[0]];
        } else {
          assert pieces[1..] == rest[1..];
          assert Join(rest, " ") == rest[0] + " " + Join(rest[1..], " ");
        }
      }
    }
  }

  /** No piece produced by `split(' ')` contains a space. */
  lemma {:induction false} SplitPiecesHaveNoSpace(s: string)
    ensures forall p | p in SplitOnSpace(s) :: ' ' !in p
  {
    if s != [] {
      SplitPiecesHaveNoSpace(s[1..]);
      var rest := SplitOnSpace(s[1..]);
      assert rest[0] in rest;
      assert forall p | p in rest[1..] :: p in rest;
    }
  }

  /** Joining space-free pieces with a space and splitting again gives the pieces back. */
  lemma {:induction false} SplitJoin(pieces: seq<string>)
    requires |pieces| >= 1
    requires forall p | p in pieces :: ' ' !in p
    ensures SplitOnSpace(Join(pieces, " ")) == pieces
  {
    if |pieces| == 1 {
      SplitSpaceFree(pieces[0]);
    } else {
      assert pieces[0] in pieces;
      assert forall p | p in pieces[1..] :: p in pieces;
      SplitJoin(pieces[1..]);
      SplitAfterPrefix(pieces[0], Join(pieces[1..], " "));
      assert Join(pieces, " ") == pieces[0] + (" " + Join(pieces[1..], " "));
    }
  }

  lemma {:induction false} SplitSpaceFree(w: string)
    requires ' ' !in w
    ensures SplitOnSpace(w) == [w]
  {
    if w != [] {
      assert forall i | 0 <= i < |w| - 1 :: w[1..][i] == w[i + 1];
      SplitSpaceFree(w[1..]);
      assert [w[0]] + w[1..] == w;
    }
  }

  /** Splitting `w + " " + t` for a space-free `w` yields `w` followed by the pieces of `t`. */
  lemma {:induction false} SplitAfterPrefix(w: string, t: string)
    requires ' ' !in w
    ensures SplitOnSpace(w + " " + t) == [w] + SplitOnSpace(t)
  {
    if w == [] {
      assert w + " " + t == [' '] + t;
      assert (w + " " + t)[1..] == t;
    } else {
      assert (w + " " + t)[1..] == w[1..] + " " + t;
      SplitAfterPrefix(w[1..], t);
      assert [w[0]] + w[1..] == w;
    }
  }

  /**
   * The last piece is the suffix after the last space: a suffix of `s` with no space in
   * it that is either all of `s` or preceded by a space.
   */
  lemma LastPieceIsSuffixAfterLastSpace(s: string)
    ensures var k := LastPiece(s);
      && |k| <= |s| && k == s[|s| - |k|..] && ' ' !in k
      && (|k| == |s| || s[|s| - |k| - 1] == ' ')
  {
    SplitPiecesHaveNoSpace(s);
    var pieces := SplitOnSpace(s);
    assert pieces[|pieces| - 1] in pieces;
    LastPieceIsSuffix(s);
    LastPieceBoundary(s);
  }

  lemma LastPieceStep(s: string)
    requires s != []
    ensures var t := s[1..];
      LastPiece(s) == if s[0] != ' ' && |SplitOnSpace(t)| == 1 then [s[0]] + LastPiece(t) else LastPiece(t)
  {
  }

  lemma {:induction false} LastPieceIsSuffix(s: string)
    ensures |LastPiece(s)| <= |s| && LastPiece(s) == s[|s| - |LastPiece(s)|..]
  {
    if s != [] {
      var t := s[1..];
      LastPieceIsSuffix(t);
      LastPieceStep(s);
      var k := LastPiece(t);
      if s[0] != ' ' && |SplitOnSpace(t)| == 1 {
        JoinSplit(t);
        assert k == t;
        assert [s[0]] + t == s;
      } else {
        assert s[|s| - |k|..] == t[|t| - |k|..];
      }
    }
  }

  lemma {:induction false} LastPieceBoundary(s: string)
    requires |LastPiece(s)| <= |s|
    ensures |LastPiece(s)| == |s| || s[|s| - |LastPiece(s)| - 1] == ' '
  {
    if s != [] {
      var t := s[1..];
      LastPieceIsSuffix(t);
      LastPieceStep(s);
      var k := LastPiece(t);
      if !(s[0] != ' ' && |SplitOnSpace(t)| == 1) {
        LastPieceBoundary(t);
        if |k| < |t| {
          assert s[|s| - |k| - 1] == t[|t| - |k| - 1];
        } else if s[0] != ' ' {
          assert k == t;
          SplitPiecesHaveNoSpace(t);
          assert SplitOnSpace(t)[|SplitOnSpace(t)| - 1] in SplitOnSpace(t);
          SplitSpaceFree(t);
        }
      } else {
        JoinSplit(t);
        assert k == t;
      }
    }
  }
}
