/** Triple quotes are looked for before comments are: one in a comment changes the program. */
module QuotesInComments {
  import opened Wrappers
  import opened StmtParser
  import opened StmtRoundTrip
  import opened Layout
  import opened LayoutRoundTrip
  import opened LineScanner
  import opened LineRoundTrip
  import opened TripleQuotes
  import opened SourceLines

  lemma {:induction false} EscapedWhole(t: string)
    requires forall c <- t :: IsBreak(c) ==> c == '\n' || c == '\r'
    ensures NoBreak(EscapeBody(t))
    decreases |t|
  {
    if t != "" {
      EscapedWhole(t[1..]);
      assert t[0] in t && NoBreak(EscapeChar(t[0]));
      hide EscapeChar, IsBreak;
    }
  }

  lemma {:induction false} NewlinesBlank(n: nat)
    ensures Solid(SplitLines(Repeat('\n', n))) == []
    decreases n
  {
    if n > 0 {
      NewlinesBlank(n - 1);
      var s := Repeat('\n', n);
      assert s[..LineLength(s)] == "" && SourceLines.Behind(s) == Repeat('\n', n - 1);
      hide SourceLines.Behind, LineLength;
      assert SplitLines(s)[1..] == SplitLines(Repeat('\n', n - 1));
    }
  }

  lemma OneLineText(x: string, n: nat)
    requires NoBreak(x) && x != "" && x[0] == '#'
    ensures Solid(SplitLines(x + Repeat('\n', n))) == []
  {
    var ends := Repeat('\n', n);
    var s := x + ends;
    LineEnds(x, ends);
    assert s[..|x|] == x && s[|x|..] == ends;
    assert Blank(x);
    hide Blank, NoBreak, LineLength;
    if n == 0 {
      NewlinesBlank(0);
      assert SourceLines.Behind(s) == ends;
      assert SplitLines(s)[1..] == SplitLines(ends);
    } else {
      NewlinesBlank(n - 1);
      assert ends[1..] == Repeat('\n', n - 1);
      assert SourceLines.Behind(s) == Repeat('\n', n - 1);
      assert SplitLines(s)[1..] == SplitLines(Repeat('\n', n - 1));
    }
  }

  lemma OutsideFirst(c: char, u: string)
    requires c == ' ' || c == '#'
    ensures Collapsed([c] + u) == [c] + Collapsed(u)
  {
    var s := [c] + u;
    assert s[1..] == u && s[0] == c;
    assert DOUBLE[0] == '"' && SINGLE[0] == '\'';
    NoOpening(s);
    hide Opening;
    var ps := PiecesOf(u);
    assert PiecesOf(s) == [Outside(c)] + ps;
    hide PiecesOf;
    assert ([Outside(c)] + ps)[1..] == ps;
  }

  lemma NoOpening(s: string)
    requires !(DOUBLE <= s) && !(SINGLE <= s)
    ensures Opening(s) == ""
  {
  }

  lemma SingleOpens(t: string)
    ensures Opening(SINGLE + t) == SINGLE && (SINGLE + t)[3..] == t
  {
    var q := SINGLE + t;
    assert q[0] == '\'' && SINGLE <= q;
  }

  lemma OpenLiteral(t: string)
    requires BodyLength(t, SINGLE) == |t|
    ensures Collapsed(SINGLE + t) == "\"" + EscapeBody(t) + "\"" + Repeat('\n', Count('\n', t))
  {
    var q, p := SINGLE + t, Literal(SINGLE, t, false);
    SingleOpens(t);
    hide Opening, BodyLength, EscapeBody, Repeat, Count;
    assert t[..|t|] == t && TripleQuotes.Behind(t, SINGLE) == "";
    assert PiecesOf("") == [];
    assert PiecesOf(q) == [p];
    hide PiecesOf;
    assert RewrittenAll([]) == "" && [p][1..] == [];
    assert RewrittenAll([p]) == Rewritten(p) + "";
  }

  /** A source that starts with a comment, which opens a literal. */
  function Remarked(t: string): string {
    ['#'] + ([' '] + (SINGLE + t))
  }

  /** What the rest of the source becomes: still a comment. */
  function Swallowed(t: string): string {
    ['#'] + ([' '] + ("\"" + EscapeBody(t) + "\""))
  }

  lemma OpenedInComment(t: string)
    requires BodyLength(t, SINGLE) == |t|
    ensures Collapsed(Remarked(t)) == Swallowed(t) + Repeat('\n', Count('\n', t))
  {
    var q, a, b := SINGLE + t, "\"" + EscapeBody(t) + "\"", Repeat('\n', Count('\n', t));
    assert Remarked(t) == ['#'] + ([' '] + q) && Swallowed(t) == ['#'] + ([' '] + a);
    hide *;
    OutsideFirst('#', [' '] + q);
    OutsideFirst(' ', q);
    OpenLiteral(t);
    Glue('#', ' ', a, b);
  }

  lemma Glue(c: char, d: char, a: string, b: string)
    ensures [c] + ([d] + (a + b)) == [c] + ([d] + a) + b
  {
  }

  lemma EmptyProgram(source: string)
    requires Solid(SplitLines(Collapsed(source))) == []
    ensures Parse(Unstamp(SourceStream(Scan, source))) == Some([])
  {
    hide *;
    NoLines(NoWidths(), NoStyle());
    TextRoundTrip(NoWidths(), NoStyle(), [], source);
  }

  function NoWidths(): Widths {
    _ => 0
  }

  function NoStyle(): seq<nat> -> Style {
    _ => Style(Hand((_, _) => "", _ => ""), _ => None, None)
  }

  lemma NoLines(w: Widths, styles: seq<nat> -> Style)
    ensures NodesLines(Written(styles), w, [], 0, []) == [] && WritableNodes([]) && WellFormedNodes([])
  {
  }

  lemma SwallowedWhole(t: string)
    requires forall c <- t :: IsBreak(c) ==> c == '\n' || c == '\r'
    ensures var x := Swallowed(t); NoBreak(x) && x != "" && x[0] == '#'
  {
    EscapedWhole(t);
    hide EscapeBody;
  }

  /** A triple quote in a comment opens a literal all the same. If it is not closed, the rest of the source becomes part
      of the comment, and the program is empty. */
  lemma CommentSwallows(t: string)
    requires BodyLength(t, SINGLE) == |t| && forall c <- t :: IsBreak(c) ==> c == '\n' || c == '\r'
    ensures Parse(Unstamp(SourceStream(Scan, Remarked(t)))) == Some([])
  {
    SwallowedWhole(t);
    hide *;
    OpenedInComment(t);
    OneLineText(Swallowed(t), Count('\n', t));
    EmptyProgram(Remarked(t));
  }
}
