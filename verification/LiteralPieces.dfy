/** How a source is cut at its triple quotes: in one way only. */
module LiteralPieces {
  import opened TripleQuotes

  /** `d` does not start in the first `n` characters. */
  ghost predicate NotBefore(t: string, d: string, n: nat) {
    forall j: nat | j < n && j <= |t| :: !(d <= t[j..])
  }

  /** A piece before the text `rest`: outside the literals no triple quote starts; a literal goes up to the first of its
      own triple quotes behind it, and only the last may be open. */
  ghost predicate CutBefore(p: Piece, rest: string) {
    match p
    case Outside(c) => !("\"\"\"" <= [c] + rest) && !("'''" <= [c] + rest)
    case Literal(d, body, closed) =>
      && (d == "\"\"\"" || d == "'''") && NotBefore(body + (if closed then d else "") + rest, d, |body|)
      && (closed || rest == "")
  }

  ghost predicate Cut(ps: seq<Piece>) {
    ps == [] || (CutBefore(ps[0], OriginalAll(ps[1..])) && (IsOpen(ps[0]) ==> ps[1..] == []) && Cut(ps[1..]))
  }

  predicate IsOpen(p: Piece) {
    p.Literal? && !p.closed
  }

  lemma {:induction false} BodyEnds(t: string, d: string, n: nat)
    requires n <= |t| && NotBefore(t, d, n) && (n == |t| || d <= t[n..])
    ensures BodyLength(t, d) == n
    decreases n
  {
    if n > 0 {
      assert t[0..] == t;
      assert !(d <= t);
      forall j: nat | j < n - 1
        ensures !(d <= t[1..][j..])
      {
        assert t[1..][j..] == t[j + 1..];
      }
      assert t[1..][n - 1..] == t[n..];
      BodyEnds(t[1..], d, n - 1);
    }
  }

  lemma {:induction false} BodyFirst(t: string, d: string)
    ensures NotBefore(t, d, BodyLength(t, d))
    decreases |t|
  {
    if t != "" && !(d <= t) {
      BodyFirst(t[1..], d);
      forall j: nat | j < BodyLength(t, d)
        ensures !(d <= t[j..])
      {
        if j == 0 {
          assert t[0..] == t;
        } else {
          assert t[1..][j - 1..] == t[j..];
        }
      }
    }
  }

  lemma LiteralOpens(d: string, t: string)
    requires d == DOUBLE || d == SINGLE
    ensures Opening(d + t) == d && (d + t)[|d|..] == t && |d| == 3
  {
    if d == SINGLE {
      assert (d + t)[0] == '\'';
    }
  }

  lemma OneLiteral(p: Piece, rest: string)
    requires p.Literal? && CutBefore(p, rest)
    ensures PiecesOf(Original(p) + rest) == [p] + PiecesOf(rest)
  {
    var d, b := p.delim, p.body;
    var t := b + (if p.closed then d else "") + rest;
    var s := Original(p) + rest;
    assert s == d + t;
    LiteralOpens(d, t);
    assert t[..|b|] == b;
    if p.closed {
      assert t[|b|..] == d + rest;
      assert d + rest != "";
      BodyEnds(t, d, |b|);
      assert t[|b| + 3..] == rest;
      assert Behind(t, d) == rest;
    } else {
      assert t == b;
      BodyEnds(t, d, |b|);
      assert Behind(t, d) == "";
    }
    hide BodyLength, Behind;
    FirstPiece(s);
  }

  lemma OneOutside(c: char, rest: string)
    requires CutBefore(Outside(c), rest)
    ensures PiecesOf([c] + rest) == [Outside(c)] + PiecesOf(rest)
  {
    assert Opening([c] + rest) == "";
    FirstPiece([c] + rest);
    assert ([c] + rest)[1..] == rest;
  }

  /** Pieces that are cut so are the pieces of the text they make. */
  lemma {:induction false} PiecesBack(ps: seq<Piece>)
    requires Cut(ps)
    ensures PiecesOf(OriginalAll(ps)) == ps
    decreases |ps|
  {
    hide CutBefore, Original, PiecesOf;
    NoPieces();
    if ps != [] {
      PiecesBack(ps[1..]);
      if ps[0].Literal? {
        OneLiteral(ps[0], OriginalAll(ps[1..]));
      } else {
        OneOutside(ps[0].c, OriginalAll(ps[1..]));
        PiecesFirst(ps[0], ps[1..]);
      }
      assert ps == [ps[0]] + ps[1..];
    }
  }

  lemma OutsideCut(s: string)
    requires s != "" && Opening(s) == ""
    ensures CutBefore(Outside(s[0]), s[1..])
  {
    assert [s[0]] + s[1..] == s;
  }

  lemma LiteralCut(s: string)
    requires Opening(s) != ""
    ensures var t := s[|Opening(s)|..];
      var n := BodyLength(t, Opening(s));
      CutBefore(Literal(Opening(s), t[..n], n < |t|), Behind(t, Opening(s)))
  {
    var d := Opening(s);
    var t := s[|d|..];
    BodyFirst(t, d);
    Closing(t, d);
    hide BodyLength;
  }

  /** And every text is cut so. */
  lemma {:induction false} PiecesCut(s: string)
    ensures Cut(PiecesOf(s))
    decreases |s|
  {
    hide CutBefore, Original, PiecesOf, OriginalAll, Opening, BodyLength, Behind;
    NoPieces();
    if s != "" {
      FirstPiece(s);
      if Opening(s) == "" {
        OutsideCut(s);
        PiecesWhole(s[1..]);
        PiecesCut(s[1..]);
        CutMore(Outside(s[0]), PiecesOf(s[1..]));
      } else {
        var t := s[|Opening(s)|..];
        var n := BodyLength(t, Opening(s));
        LiteralCut(s);
        OpenLast(t, Opening(s));
        PiecesWhole(Behind(t, Opening(s)));
        PiecesCut(Behind(t, Opening(s)));
        CutMore(Literal(Opening(s), t[..n], n < |t|), PiecesOf(Behind(t, Opening(s))));
      }
    }
  }

  lemma OpenLast(t: string, d: string)
    ensures BodyLength(t, d) == |t| ==> PiecesOf(Behind(t, d)) == []
  {
    NoPieces();
    hide BodyLength;
  }

  lemma CutMore(p: Piece, ps: seq<Piece>)
    requires CutBefore(p, OriginalAll(ps)) && (IsOpen(p) ==> ps == []) && Cut(ps)
    ensures Cut([p] + ps)
  {
    hide CutBefore, OriginalAll;
    assert ([p] + ps)[1..] == ps;
  }

  /** A text has its pieces, and no others. */
  lemma PiecesIff(s: string, ps: seq<Piece>)
    ensures ps == PiecesOf(s) <==> Cut(ps) && OriginalAll(ps) == s
  {
    hide Cut, PiecesOf, OriginalAll;
    PiecesCut(s);
    PiecesWhole(s);
    if Cut(ps) && OriginalAll(ps) == s {
      PiecesBack(ps);
    }
  }
}
