/** Triple-quoted literals rewritten to escaped literals on one line, their scanning, and the compiler's unescaping. */
module TripleQuotes {
  import opened Replace

  const DOUBLE := "\"\"\""
  const SINGLE := "'''"

  predicate Delimiter(d: string) {
    d == DOUBLE || d == SINGLE
  }

  /** A source text in pieces: a character outside the literals, or a literal, which the end of the text may leave
      open. */
  datatype Piece = Outside(c: char) | Literal(delim: string, body: string, closed: bool)

  /** The delimiter a text starts with. */
  function Opening(s: string): (d: string)
    ensures d == "" || (Delimiter(d) && d <= s)
  {
    if DOUBLE <= s then DOUBLE else if SINGLE <= s then SINGLE else ""
  }

  /** How far the body of a literal goes. */
  function BodyLength(s: string, d: string): (n: nat)
    ensures n <= |s| && (n == |s| || d <= s[n..])
  {
    if s == "" || d <= s then 0 else 1 + BodyLength(s[1..], d)
  }

  function Behind(s: string, d: string): (r: string)
    ensures |r| <= |s|
  {
    var n := BodyLength(s, d);
    if n == |s| || n + |d| > |s| then "" else s[n + |d|..]
  }

  function PiecesOf(s: string): seq<Piece>
    decreases |s|
  {
    if s == "" then []
    else if Opening(s) == "" then [Outside(s[0])] + PiecesOf(s[1..])
    else
      var d := Opening(s);
      var t := s[|d|..];
      var n := BodyLength(t, d);
      [Literal(d, t[..n], n < |t|)] + PiecesOf(Behind(t, d))
  }

  function Repeat(c: char, n: nat): (r: string)
    ensures |r| == n
  {
    seq(n, _ => c)
  }

  function Count(c: char, s: string): nat {
    if s == "" then 0 else (if s[0] == c then 1 else 0) + Count(c, s[1..])
  }

  /** One character of a body, as it is written between double quotes. */
  function EscapeChar(c: char): string {
    if c == '\\' then "\\\\"
    else if c == '"' then "\\\""
    else if c == '\n' then "\\n"
    else if c == '\r' then ""
    else [c]
  }

  function EscapeBody(s: string): string {
    if s == "" then "" else EscapeChar(s[0]) + EscapeBody(s[1..])
  }

  /** What a piece was in the source, and what it becomes. */
  function Original(p: Piece): string {
    match p
    case Outside(c) => [c]
    case Literal(d, body, closed) => d + body + if closed then d else ""
  }

  function Rewritten(p: Piece): string {
    match p
    case Outside(c) => [c]
    case Literal(_, body, _) => "\"" + EscapeBody(body) + "\"" + Repeat('\n', Count('\n', body))
  }

  function OriginalAll(ps: seq<Piece>): string {
    if ps == [] then "" else Original(ps[0]) + OriginalAll(ps[1..])
  }

  function RewrittenAll(ps: seq<Piece>): string {
    if ps == [] then "" else Rewritten(ps[0]) + RewrittenAll(ps[1..])
  }

  function Collapsed(s: string): string {
    RewrittenAll(PiecesOf(s))
  }

  // ----- the loops -----

  /** The body of a literal, escaped, and the number of its newlines. */
  method ReadLiteral(s: string, start: nat, delim: string) returns (buf: string, newlines: nat, i: nat)
    requires start <= |s| && Delimiter(delim)
    ensures var n := BodyLength(s[start..], delim);
      i == start + n && buf == EscapeBody(s[start..][..n]) && newlines == Count('\n', s[start..][..n])
  {
    hide EscapeChar, EscapeBody, BodyLength, Count, Delimiter;
    EmptyBody();
    assert s[start..start] == "";
    buf, newlines, i := "", 0, start;
    while i < |s| && !(delim <= s[i..])
      invariant start <= i <= |s|
      invariant i - start + BodyLength(s[i..], delim) == BodyLength(s[start..], delim)
      invariant buf == EscapeBody(s[start..i]) && newlines == Count('\n', s[start..i])
    {
      BodyStep(s, start, i, delim);
      EscapeLast(s[start..i], s[i]);
      assert s[start..i + 1] == s[start..i] + [s[i]];
      assert EscapeBody(s[start..i + 1]) == buf + EscapeChar(s[i]);
      if s[i] == '\n' {
        newlines := newlines + 1;
      }
      buf := buf + EscapeChar(s[i]);
      i := i + 1;
    }
    BodyEnd(s[i..], delim);
    assert s[start..][..i - start] == s[start..i];
  }

  lemma EmptyBody()
    ensures EscapeBody("") == "" && Count('\n', "") == 0
  {
  }

  lemma BodyEnd(s: string, d: string)
    requires s == "" || d <= s
    ensures BodyLength(s, d) == 0
  {
  }

  lemma BodyStep(s: string, start: nat, i: nat, d: string)
    requires start <= i < |s| && !(d <= s[i..])
    ensures BodyLength(s[i..], d) == 1 + BodyLength(s[i + 1..], d)
  {
    assert s[i..][1..] == s[i + 1..];
  }

  lemma {:induction false} EscapeLast(s: string, c: char)
    ensures EscapeBody(s + [c]) == EscapeBody(s) + EscapeChar(c)
    ensures forall x :: Count(x, s + [c]) == Count(x, s) + if c == x then 1 else 0
    decreases |s|
  {
    hide EscapeChar;
    if s == "" {
      assert (s + [c])[1..] == "";
    } else {
      assert (s + [c])[1..] == s[1..] + [c];
      EscapeLast(s[1..], c);
    }
  }

  method Collapse(s: string) returns (out: string)
    ensures out == Collapsed(s)
  {
    hide EscapeBody, BodyLength, Collapsed, Count, Opening, Behind;
    out := "";
    var i: nat := 0;
    assert s[0..] == s;
    while i < |s|
      invariant i <= |s| && out + Collapsed(s[i..]) == Collapsed(s)
      decreases |s| - i
    {
      CollapseStep(s[i..]);
      var delim := Opening(s[i..]);
      if delim != "" {
        assert s[i..][|delim|..] == s[i + |delim|..];
        var buf, newlines, j := ReadLiteral(s, i + |delim|, delim);
        BehindAt(s, i + |delim|, delim);
        var line := "\"" + buf + "\"" + Repeat('\n', newlines);
        i := if j + |delim| <= |s| then j + |delim| else |s|;
        assert out + (line + Collapsed(s[i..])) == (out + line) + Collapsed(s[i..]);
        out := out + line;
      } else {
        assert out + ([s[i]] + Collapsed(s[i + 1..])) == (out + [s[i]]) + Collapsed(s[i + 1..]);
        assert s[i..][1..] == s[i + 1..];
        out := out + [s[i]];
        i := i + 1;
      }
    }
    assert s[i..] == "";
    CollapseNone();
  }

  lemma CollapseNone()
    ensures Collapsed("") == ""
  {
  }

  lemma BehindAt(s: string, i: nat, d: string)
    requires i <= |s|
    ensures var j := i + BodyLength(s[i..], d);
      Behind(s[i..], d) == s[if j + |d| <= |s| then j + |d| else |s|..]
  {
    hide BodyLength;
    var n := BodyLength(s[i..], d);
    if n + |d| <= |s[i..]| {
      assert s[i..][n + |d|..] == s[i + n + |d|..];
    }
  }

  lemma CollapseStep(s: string)
    requires s != ""
    ensures Opening(s) == "" ==> Collapsed(s) == [s[0]] + Collapsed(s[1..])
    ensures Opening(s) != "" ==>
      var t := s[|Opening(s)|..];
      var body := t[..BodyLength(t, Opening(s))];
      Collapsed(s)
        == "\"" + EscapeBody(body) + "\"" + Repeat('\n', Count('\n', body)) + Collapsed(Behind(t, Opening(s)))
  {
  }

  // ----- lines -----

  lemma {:induction false} CountJoin(c: char, s: string, t: string)
    ensures Count(c, s + t) == Count(c, s) + Count(c, t)
    decreases |s|
  {
    if s == "" {
      assert s + t == t;
    } else {
      assert (s + t)[1..] == s[1..] + t;
      CountJoin(c, s[1..], t);
    }
  }

  lemma {:induction false} CountRepeat(c: char, n: nat)
    ensures Count(c, Repeat(c, n)) == n
  {
    if n > 0 {
      assert Repeat(c, n)[1..] == Repeat(c, n - 1);
      CountRepeat(c, n - 1);
    }
  }

  lemma {:induction false} NoNewline(s: string)
    ensures Count('\n', EscapeBody(s)) == 0
    decreases |s|
  {
    if s != "" {
      NoNewline(s[1..]);
      CountJoin('\n', EscapeChar(s[0]), EscapeBody(s[1..]));
    }
  }

  lemma PieceLines(p: Piece)
    requires p.Literal? ==> Delimiter(p.delim)
    ensures Count('\n', Rewritten(p)) == Count('\n', Original(p))
  {
    hide EscapeBody;
    if p.Literal? {
      var e := EscapeBody(p.body);
      NoNewline(p.body);
      CountJoin('\n', "\"" + e + "\"", Repeat('\n', Count('\n', p.body)));
      CountJoin('\n', "\"" + e, "\"");
      CountJoin('\n', "\"", e);
      CountRepeat('\n', Count('\n', p.body));
      CountJoin('\n', p.delim + p.body, if p.closed then p.delim else "");
      CountJoin('\n', p.delim, p.body);
      DelimiterLines(p.delim);
    }
  }

  lemma DelimiterLines(d: string)
    requires Delimiter(d)
    ensures Count('\n', d) == 0
  {
  }

  /** The source is its pieces. */
  lemma {:induction false} PiecesWhole(s: string)
    ensures OriginalAll(PiecesOf(s)) == s
    ensures forall p <- PiecesOf(s) :: p.Literal? ==> Delimiter(p.delim)
    decreases |s|
  {
    hide BodyLength, Opening, Delimiter, Original, OriginalAll, Behind, PiecesOf;
    NoPieces();
    if s != "" {
      var d := Opening(s);
      FirstPiece(s);
      if d == "" {
        PiecesWhole(s[1..]);
        PiecesFirst(Outside(s[0]), PiecesOf(s[1..]));
      } else {
        var t := s[|d|..];
        var n := BodyLength(t, d);
        PiecesWhole(Behind(t, d));
        Closing(t, d);
        PiecesFirst(Literal(d, t[..n], n < |t|), PiecesOf(Behind(t, d)));
        assert s == d + t;
        assert d + (t[..n] + (if n < |t| then d else "") + Behind(t, d))
          == (d + t[..n] + if n < |t| then d else "") + Behind(t, d);
      }
    }
  }

  lemma NoPieces()
    ensures PiecesOf("") == [] && OriginalAll([]) == ""
  {
  }

  lemma FirstPiece(s: string)
    requires s != ""
    ensures Opening(s) == "" ==> PiecesOf(s) == [Outside(s[0])] + PiecesOf(s[1..])
    ensures Opening(s) != "" ==>
      var t := s[|Opening(s)|..];
      var n := BodyLength(t, Opening(s));
      PiecesOf(s) == [Literal(Opening(s), t[..n], n < |t|)] + PiecesOf(Behind(t, Opening(s)))
  {
  }

  lemma PiecesFirst(p: Piece, ps: seq<Piece>)
    ensures OriginalAll([p] + ps) == Original(p) + OriginalAll(ps)
    ensures p.Outside? ==> Original(p) == [p.c]
    ensures p.Literal? ==> Original(p) == p.delim + p.body + if p.closed then p.delim else ""
  {
    assert ([p] + ps)[1..] == ps;
  }

  lemma Closing(t: string, d: string)
    requires d != ""
    ensures var n := BodyLength(t, d);
      t == t[..n] + (if n < |t| then d else "") + Behind(t, d)
  {
    hide BodyLength;
    var n := BodyLength(t, d);
    if n < |t| {
      assert t[n..][..|d|] == d;
      assert t[n..] == d + t[n + |d|..];
    }
  }

  /** Whatever stands outside the literals stays as it is, on the line it was on: any number of first pieces has as many
      newlines after the rewriting as before. */
  lemma {:induction false} LinesKept(ps: seq<Piece>, k: nat)
    requires k <= |ps| && forall p <- ps :: p.Literal? ==> Delimiter(p.delim)
    ensures Count('\n', RewrittenAll(ps[..k])) == Count('\n', OriginalAll(ps[..k]))
    decreases k
  {
    hide Delimiter, Original, Rewritten;
    if k > 0 {
      LinesKept(ps[1..], k - 1);
      assert ps[..k][1..] == ps[1..][..k - 1] && ps[..k][0] == ps[0];
      PieceLines(ps[0]);
      CountJoin('\n', Rewritten(ps[0]), RewrittenAll(ps[1..][..k - 1]));
      CountJoin('\n', Original(ps[0]), OriginalAll(ps[1..][..k - 1]));
    }
  }

  lemma SourceLinesKept(s: string, k: nat)
    requires k <= |PiecesOf(s)|
    ensures OriginalAll(PiecesOf(s)) == s && RewrittenAll(PiecesOf(s)) == Collapsed(s)
    ensures Count('\n', RewrittenAll(PiecesOf(s)[..k])) == Count('\n', OriginalAll(PiecesOf(s)[..k]))
  {
    hide PiecesOf, OriginalAll, RewrittenAll;
    PiecesWhole(s);
    LinesKept(PiecesOf(s), k);
  }

  // ----- what stays as it is -----

  /** No literal opens anywhere in the text. */
  predicate NoTriple(s: string) {
    forall i: nat | i <= |s| :: Opening(s[i..]) == ""
  }

  predicate AllOutside(ps: seq<Piece>) {
    forall p <- ps :: p.Outside?
  }

  lemma {:induction false} NoTripleIff(s: string)
    ensures NoTriple(s) <==> AllOutside(PiecesOf(s))
    decreases |s|
  {
    hide Opening, BodyLength;
    NoPieces();
    if s == "" {
      NothingOpens();
    } else {
      FirstPiece(s);
      assert s[0..] == s;
      if Opening(s) == "" {
        NoTripleIff(s[1..]);
        assert forall i: nat | i <= |s[1..]| :: s[1..][i..] == s[i + 1..];
        if NoTriple(s[1..]) {
          forall i: nat | i <= |s|
            ensures Opening(s[i..]) == ""
          {
            if i > 0 {
              assert s[i..] == s[1..][i - 1..];
            }
          }
        }
        hide PiecesOf;
      } else {
        hide PiecesOf;
        assert PiecesOf(s)[0] in PiecesOf(s);
      }
    }
  }

  lemma NothingOpens()
    ensures Opening("") == "" && forall i: nat | i <= 0 :: ""[i..] == ""
  {
  }

  lemma {:induction false} OutsideStays(ps: seq<Piece>)
    requires AllOutside(ps)
    ensures RewrittenAll(ps) == OriginalAll(ps)
    decreases |ps|
  {
    if ps != [] {
      assert ps[0] in ps;
      OutsideStays(ps[1..]);
    }
  }

  /** Escaping neither adds nor takes a quote. */
  lemma {:induction false} QuotesKept(s: string)
    ensures Count('"', EscapeBody(s)) == Count('"', s) && Count('\'', EscapeBody(s)) == Count('\'', s)
    decreases |s|
  {
    hide EscapeChar;
    if s != "" {
      QuotesKept(s[1..]);
      CountJoin('"', EscapeChar(s[0]), EscapeBody(s[1..]));
      CountJoin('\'', EscapeChar(s[0]), EscapeBody(s[1..]));
      CharQuotes(s[0]);
    }
  }

  lemma CharQuotes(c: char)
    ensures Count('"', EscapeChar(c)) == (if c == '"' then 1 else 0)
    ensures Count('\'', EscapeChar(c)) == (if c == '\'' then 1 else 0)
  {
    hide Count;
    EscapesQuotes();
    OneChar(c);
  }

  lemma OneChar(c: char)
    ensures forall x: char :: Count(x, [c]) == if x == c then 1 else 0
  {
    assert [c][1..] == "";
  }

  lemma EscapesQuotes()
    ensures Count('"', "\\\\") == 0 && Count('"', "\\\"") == 1 && Count('"', "\\n") == 0 && Count('"', "") == 0
    ensures Count('\'', "\\\\") == 0 && Count('\'', "\\\"") == 0 && Count('\'', "\\n") == 0 && Count('\'', "") == 0
  {
  }

  lemma {:induction false} CountOther(c: char, d: char, n: nat)
    requires c != d
    ensures Count(c, Repeat(d, n)) == 0
    decreases n
  {
    if n > 0 {
      assert Repeat(d, n)[1..] == Repeat(d, n - 1);
      CountOther(c, d, n - 1);
    }
  }

  /** The quotes of a literal, before and after. */
  lemma PieceQuotes(p: Piece, c: char)
    requires p.Literal? && (c == '"' || c == '\'')
    ensures Count(c, Rewritten(p)) == Count(c, p.body) + if c == '"' then 2 else 0
    ensures Count(c, Original(p)) >= Count(c, p.delim) + Count(c, p.body)
  {
    hide EscapeBody;
    var e, lines := EscapeBody(p.body), Repeat('\n', Count('\n', p.body));
    QuotesKept(p.body);
    CountJoin(c, "\"" + e + "\"", lines);
    CountJoin(c, "\"" + e, "\"");
    CountJoin(c, "\"", e);
    CountOther(c, '\n', Count('\n', p.body));
    CountJoin(c, p.delim + p.body, if p.closed then p.delim else "");
    CountJoin(c, p.delim, p.body);
    OneQuote();
  }

  lemma OneQuote()
    ensures Count('"', "\"") == 1 && Count('\'', "\"") == 0
    ensures Count('"', DOUBLE) == 3 && Count('\'', SINGLE) == 3 && Count('\'', DOUBLE) == 0 && Count('"', SINGLE) == 0
  {
  }

  /** Single quotes never become more, and a literal between single quotes loses some. */
  lemma {:induction false} SinglesFall(ps: seq<Piece>)
    requires forall p <- ps :: p.Literal? ==> Delimiter(p.delim)
    ensures Count('\'', RewrittenAll(ps)) <= Count('\'', OriginalAll(ps))
    ensures (exists p <- ps :: p.Literal? && p.delim == SINGLE) ==>
      Count('\'', RewrittenAll(ps)) < Count('\'', OriginalAll(ps))
    decreases |ps|
  {
    hide Count, Original, Rewritten, Delimiter;
    if ps != [] {
      var p := ps[0];
      assert p in ps;
      SinglesFall(ps[1..]);
      CountJoin('\'', Rewritten(p), RewrittenAll(ps[1..]));
      CountJoin('\'', Original(p), OriginalAll(ps[1..]));
      OneQuote();
      if p.Literal? {
        PieceQuotes(p, '\'');
      } else {
        OutsideIs(p);
      }
      assert forall q <- ps :: q == p || q in ps[1..];
    }
  }

  lemma OutsideIs(p: Piece)
    requires p.Outside?
    ensures Rewritten(p) == Original(p)
  {
  }

  /** Where there are no such literals, double quotes never become more, and every literal loses some. */
  lemma {:induction false} DoublesFall(ps: seq<Piece>)
    requires forall p <- ps :: p.Literal? ==> p.delim == DOUBLE
    ensures Count('"', RewrittenAll(ps)) <= Count('"', OriginalAll(ps))
    ensures !AllOutside(ps) ==> Count('"', RewrittenAll(ps)) < Count('"', OriginalAll(ps))
    decreases |ps|
  {
    hide Count, Original, Rewritten;
    if ps != [] {
      var p := ps[0];
      assert p in ps;
      DoublesFall(ps[1..]);
      CountJoin('"', Rewritten(p), RewrittenAll(ps[1..]));
      CountJoin('"', Original(p), OriginalAll(ps[1..]));
      OneQuote();
      if p.Literal? {
        PieceQuotes(p, '"');
      } else {
        OutsideIs(p);
      }
      assert forall q <- ps :: q == p || q in ps[1..];
    }
  }

  /** Collapsing changes a source unless no literal opens in it. */
  lemma CollapsedSame(s: string)
    ensures Collapsed(s) == s <==> NoTriple(s)
  {
    var ps := PiecesOf(s);
    NoTripleIff(s);
    PiecesWhole(s);
    hide PiecesOf, OriginalAll, RewrittenAll, NoTriple;
    if AllOutside(ps) {
      OutsideStays(ps);
    } else {
      SinglesFall(ps);
      if forall p <- ps :: p.Literal? ==> p.delim == DOUBLE {
        DoublesFall(ps);
      }
    }
  }

  // ----- scanning -----

  /** How far the line scanner reads a string literal after its opening quote: a backslash takes the next character with
      it. */
  function StringLength(s: string, quote: char): (n: nat)
    ensures n <= |s|
  {
    if s == "" || s[0] == quote then 0
    else if s[0] == '\\' && |s| > 1 then 2 + StringLength(s[2..], quote)
    else 1 + StringLength(s[1..], quote)
  }

  /** The scanner's loop; `end` is where it goes on, behind the closing quote. */
  method ScanString(line: string, start: nat) returns (text: string, end: nat)
    requires start < |line|
    ensures text == line[start + 1..][..StringLength(line[start + 1..], line[start])]
    ensures end == start + 2 + |text|
  {
    hide StringLength;
    var quote := line[start];
    var i := start + 1;
    text := "";
    while i < |line| && line[i] != quote
      invariant start < i <= |line| && text == line[start + 1..i]
      invariant i - (start + 1) + StringLength(line[i..], quote) == StringLength(line[start + 1..], quote)
    {
      StringStep(line, i, quote);
      if line[i] == '\\' && i + 1 < |line| {
        assert line[start + 1..i + 2] == line[start + 1..i] + [line[i], line[i + 1]];
        text := text + [line[i], line[i + 1]];
        i := i + 2;
      } else {
        assert line[start + 1..i + 1] == line[start + 1..i] + [line[i]];
        text := text + [line[i]];
        i := i + 1;
      }
    }
    StringEnds(line, i, quote);
    assert line[start + 1..][..i - (start + 1)] == line[start + 1..i];
    end := i + 1;
  }

  lemma StringStep(s: string, i: nat, quote: char)
    requires i < |s| && s[i] != quote
    ensures StringLength(s[i..], quote) ==
      if s[i] == '\\' && i + 1 < |s| then 2 + StringLength(s[i + 2..], quote) else 1 + StringLength(s[i + 1..], quote)
  {
    assert s[i..][0] == s[i] && s[i..][1..] == s[i + 1..];
    if i + 1 < |s| {
      assert s[i..][2..] == s[i + 2..];
    }
  }

  lemma StringEnds(s: string, i: nat, quote: char)
    requires i <= |s| && (i == |s| || s[i] == quote)
    ensures StringLength(s[i..], quote) == 0
  {
  }

  /** A collapsed literal is one string for the scanner, with the escaped body as its text. */
  lemma {:induction false} LiteralScans(body: string, rest: string)
    ensures StringLength(EscapeBody(body) + "\"" + rest, '"') == |EscapeBody(body)|
    decreases |body|
  {
    if body == "" {
      assert EscapeBody(body) + "\"" + rest == "\"" + rest;
    } else {
      var s, more := EscapeBody(body) + "\"" + rest, EscapeBody(body[1..]) + "\"" + rest;
      LiteralScans(body[1..], rest);
      var e := EscapeChar(body[0]);
      hide EscapeChar;
      assert s == e + more;
      assert s[|e|..] == more;
      EscapedScans(body[0], more);
    }
  }

  lemma EscapedScans(c: char, more: string)
    ensures StringLength(EscapeChar(c) + more, '"') == |EscapeChar(c)| + StringLength(more, '"')
  {
    var e := EscapeChar(c);
    var s := e + more;
    assert s[|e|..] == more;
    if e == "" {
      assert s == more;
    }
  }

  // ----- unescaping -----

  /** The compiler's reading of the text of a string token. */
  function Unescaped(s: string): string {
    Replaced(Replaced(Replaced(s, "\\n", "\n"), "\\t", "\t"), "\\r", "\r")
  }

  function WithoutReturns(s: string): string {
    if s == "" then "" else (if s[0] == '\r' then "" else [s[0]]) + WithoutReturns(s[1..])
  }

  predicate Unescapable(s: string) {
    forall i | 0 <= i < |s| :: s[i] != '\\' && s[i] != '"'
  }

  lemma {:induction false} NewlinesBack(s: string)
    requires Unescapable(s)
    ensures Replaced(EscapeBody(s), "\\n", "\n") == WithoutReturns(s)
    decreases |s|
  {
    if s != "" {
      var e := EscapeBody(s[1..]);
      NewlinesBack(s[1..]);
      assert s[0] != '\\' && s[0] != '"';
      if s[0] == '\n' {
        assert ("\\n" + e)[2..] == e;
      } else if s[0] == '\r' {
        assert "" + e == e;
      } else {
        assert ([s[0]] + e)[1..] == e;
      }
    }
  }

  lemma {:induction false} NoBackslash(s: string, pat: string, put: string)
    requires pat != "" && pat[0] == '\\' && forall i | 0 <= i < |s| :: s[i] != '\\'
    ensures Replaced(s, pat, put) == s
    decreases |s|
  {
    if s != "" {
      NoBackslash(s[1..], pat, put);
    }
  }

  lemma {:induction false} WithoutPlain(s: string)
    requires Unescapable(s)
    ensures Unescapable(WithoutReturns(s))
    decreases |s|
  {
    if s != "" {
      WithoutPlain(s[1..]);
    }
  }

  /** The characters an escape replaces and is replaced by. */
  function Specials(s: string): nat {
    Count('\\', s) + Count('\n', s) + Count('\t', s) + Count('\r', s)
  }

  lemma SpecialsJoin(s: string, t: string)
    ensures Specials(s + t) == Specials(s) + Specials(t)
  {
    CountJoin('\\', s, t);
    CountJoin('\n', s, t);
    CountJoin('\t', s, t);
    CountJoin('\r', s, t);
  }

  lemma {:induction false} SpecialsKept(s: string, pat: string, put: string)
    requires pat != "" && Specials(pat) == Specials(put)
    ensures Specials(Replaced(s, pat, put)) == Specials(s)
    decreases |s|
  {
    hide Specials;
    if s != "" {
      if pat <= s {
        SpecialsKept(s[|pat|..], pat, put);
        assert s == pat + s[|pat|..];
        SpecialsJoin(pat, s[|pat|..]);
        SpecialsJoin(put, Replaced(s[|pat|..], pat, put));
      } else {
        SpecialsKept(s[1..], pat, put);
        assert s == [s[0]] + s[1..];
        SpecialsJoin([s[0]], s[1..]);
        SpecialsJoin([s[0]], Replaced(s[1..], pat, put));
      }
    }
  }

  lemma PatternSpecials()
    ensures Specials("\\n") == Specials("\n") == 1
    ensures Specials("\\t") == Specials("\t") == 1
    ensures Specials("\\r") == Specials("\r") == 1
  {
  }

  /** Each backslash and each double quote of a body is one special character too many in its escaped form. */
  lemma {:induction false} EscapeSpecials(s: string)
    ensures Specials(EscapeBody(s)) == Specials(WithoutReturns(s)) + Count('\\', s) + Count('"', s)
    decreases |s|
  {
    hide Specials;
    if s != "" {
      EscapeSpecials(s[1..]);
      SpecialsJoin(EscapeChar(s[0]), EscapeBody(s[1..]));
      SpecialsJoin(if s[0] == '\r' then "" else [s[0]], WithoutReturns(s[1..]));
      CharSpecials(s[0]);
    }
  }

  lemma CharSpecials(c: char)
    ensures Specials(EscapeChar(c)) ==
      Specials(if c == '\r' then "" else [c]) + (if c == '\\' then 1 else 0) + (if c == '"' then 1 else 0)
  {
    assert [c][1..] == "";
    hide Specials;
    PatternSpecials();
    if c == '\\' || c == '"' || c == '\n' || c == '\r' {
      PairSpecials();
    }
  }

  lemma PairSpecials()
    ensures Specials("\\\\") == 2 && Specials("\\\"") == 1 && Specials("") == 0
    ensures Specials("\\") == 1 && Specials("\"") == 0
  {
  }

  lemma {:induction false} CountNone(c: char, s: string)
    ensures Count(c, s) == 0 <==> forall i | 0 <= i < |s| :: s[i] != c
    decreases |s|
  {
    if s != "" {
      CountNone(c, s[1..]);
      assert forall i | 0 < i < |s| :: s[i] == s[1..][i - 1];
    }
  }

  /** The compiler gets the body back, without its carriage returns, if there is no backslash and no double quote in it,
      and only then. */
  lemma UnescapeBack(s: string)
    ensures Unescaped(EscapeBody(s)) == WithoutReturns(s) <==> Unescapable(s)
  {
    hide Replaced, EscapeBody, WithoutReturns, Specials, Count;
    if Unescapable(s) {
      NewlinesBack(s);
      WithoutPlain(s);
      NoBackslash(WithoutReturns(s), "\\t", "\t");
      NoBackslash(WithoutReturns(s), "\\r", "\r");
    }
    if Unescaped(EscapeBody(s)) == WithoutReturns(s) {
      PatternSpecials();
      var e := EscapeBody(s);
      var a := Replaced(e, "\\n", "\n");
      SpecialsKept(e, "\\n", "\n");
      SpecialsKept(a, "\\t", "\t");
      SpecialsKept(Replaced(a, "\\t", "\t"), "\\r", "\r");
      EscapeSpecials(s);
      CountNone('\\', s);
      CountNone('"', s);
    }
  }
}
