/** Statements in other forms than the printed one: several on a line, a body behind the colon, and an augmented
    assignment to something that is no name. */
module StmtForms {
  import opened Wrappers
  import opened Syntax
  import opened ExprParser
  import opened ExprRoundTrip
  import opened StmtParser
  import opened StmtRoundTrip

  // ----- line ends and semicolons -----

  /** Line ends and semicolons, in any number. */
  predicate Ends(ts: Tokens) {
    forall i | 0 <= i < |ts| :: ts[i] == Newline || ts[i] == Semicolon
  }

  /** Simple statements, each with what stands behind it. Only the last may have nothing there. */
  predicate Rows(ss: seq<Node>, ends: seq<Tokens>) {
    && |ss| == |ends|
    && (forall s <- ss :: Simple(s) && WellFormedSimple(s))
    && (forall i | 0 <= i < |ends| :: Ends(ends[i]) && (ends[i] != [] || i == |ends| - 1))
  }

  function ShowRows(ss: seq<Node>, ends: seq<Tokens>): Tokens
    requires Rows(ss, ends)
  {
    if ss == [] then [] else
    assert Simple(ss[0]);
    ShowSimple(ss[0]) + (ends[0] + ShowRows(ss[1..], ends[1..]))
  }

  lemma {:induction false} EndsSkip(ts: Tokens, rest: Tokens)
    requires Ends(ts)
    ensures SkipEnds(ts + rest) == SkipEnds(rest)
    decreases |ts|
  {
    if ts == [] {
      assert ts + rest == rest;
    } else {
      EndsSkip(ts[1..], rest);
      assert (ts + rest)[1..] == ts[1..] + rest;
    }
  }

  lemma RowsStart(ss: seq<Node>, ends: seq<Tokens>)
    requires Rows(ss, ends) && ss != []
    ensures var ts := ShowRows(ss, ends); ts != [] && SkipEnds(ts) == ts
  {
    assert ss[0] in ss;
    SimpleStarts(ss[0]);
    hide ShowSimple, WellFormedSimple;
    SkipNone(ShowRows(ss, ends));
  }

  lemma RowsRest(ss: seq<Node>, ends: seq<Tokens>)
    requires Rows(ss, ends) && ss != []
    ensures Simple(ss[0]) && WellFormedSimple(ss[0]) && Rows(ss[1..], ends[1..]) && Ends(ends[0])
    ensures ShowRows(ss, ends) == ShowSimple(ss[0]) + (ends[0] + ShowRows(ss[1..], ends[1..]))
    ensures |ends| == |ss| && (ends[0] == [] ==> |ss| == 1)
  {
    hide ShowSimple, WellFormedSimple, Ends;
    assert ss[0] in ss;
    assert forall s <- ss[1..] :: s in ss;
  }

  lemma EndsAhead(ends: Tokens, more: Tokens)
    requires Ends(ends) && (ends == [] ==> more == [])
    ensures StmtEnd(ends + more)
  {
    if ends == [] {
      assert ends + more == [];
    } else {
      assert (ends + more)[0] == ends[0];
    }
  }

  /** A semicolon is as good as a line end. */
  lemma {:induction false} RowsParse(ss: seq<Node>, ends: seq<Tokens>)
    requires Rows(ss, ends)
    ensures ParseProgram(ShowRows(ss, ends)) == Some(ss)
    decreases |ss|
  {
    hide *;
    if ss == [] {
      NoRows(ends);
    } else {
      RowsRest(ss, ends);
      var more := ShowRows(ss[1..], ends[1..]);
      RowsStart(ss, ends);
      if ends[0] == [] {
        NoRows(ends[1..]);
        assert ss[1..] == [];
      }
      EndsAhead(ends[0], more);
      SimpleParses(ss[0], ends[0] + more);
      EndsSkip(ends[0], more);
      RowsParse(ss[1..], ends[1..]);
      SameProgram(ends[0] + more, more);
      ProgramStep(ss[0], ShowRows(ss, ends), ends[0] + more, ss[1..]);
      assert ss == [ss[0]] + ss[1..];
    }
  }

  lemma NoRows(ends: seq<Tokens>)
    requires Rows([], ends)
    ensures ShowRows([], ends) == [] && ParseProgram([]) == Some([])
  {
  }

  // ----- a body behind the colon -----

  lemma InlineBody(n: Node, end: Tokens)
    requires Simple(n) && WellFormedSimple(n) && StmtEnd(end)
    ensures var r := ParseBlock(ShowSimple(n) + end);
      r.Some? && r.value.nodes == [n] && SkipEnds(r.value.rest) == SkipEnds(end)
  {
    SimpleParses(n, end);
    SimpleStarts(n);
    hide ShowSimple, WellFormedSimple, ParseStmt;
    var ts := ShowSimple(n) + end;
    assert ts[0] == ShowSimple(n)[0];
    SkipNone(ts);
    hide SkipEnds;
  }

  /** A compound statement with one simple statement behind its colon. */
  predicate Inline(n: Node) {
    && !Simple(n) && |n.body| == 1 && Simple(n.body[0]) && WellFormedSimple(n.body[0])
    && (n.IfS? ==> n.elifs == []) && (!n.DefS? ==> WellFormed(Head(n)) && n.orelse == [])
  }

  lemma NoClauses(us: Tokens, end: Tokens)
    requires SkipEnds(us) == SkipEnds(end) && Follows(end)
    ensures ParseArms(us) == Some(ParsedArms([], SkipEnds(end)))
    ensures ParseElse(SkipEnds(us)) == Some(ParsedNodes([], SkipEnds(end)))
  {
    hide SkipEnds, ParseBlock, ParseHead;
  }

  lemma InlineIs(n: Node)
    requires Inline(n)
    ensures !Simple(n) && Simple(n.body[0]) && WellFormedSimple(n.body[0]) && n.body == [n.body[0]]
    ensures n.IfS? || n.WhileS? || n.ForS? || n.DefS?
    ensures !n.DefS? ==> WellFormed(Head(n)) && n.orelse == []
    ensures n.IfS? ==> n.elifs == []
  {
    hide WellFormed, WellFormedSimple;
  }

  lemma IfHeader(n: Node, vs: Tokens)
    requires n.IfS? || n.WhileS?
    ensures ShowHeader(n) + vs == [if n.IfS? then IfT else WhileT] + (Show(n.test, TERNARY) + ([Colon] + vs))
  {
    hide Show, ShowParams;
  }

  lemma ForHeader(n: Node, vs: Tokens)
    requires n.ForS?
    ensures ShowHeader(n) + vs == [ForT] + ([Name(n.target), Cmp(In)] + (Show(n.iter, TERNARY) + ([Colon] + vs)))
  {
    hide Show, ShowParams;
  }

  lemma DefHeader(n: Node, vs: Tokens)
    requires n.DefS?
    ensures ShowHeader(n) + vs
      == [DefT] + ([Name(n.name), LPar] + (ShowParams(n.params) + ([RPar] + ([Colon] + vs))))
  {
    hide Show, ShowParams;
  }

  /** The body may stand on the line of the header. */
  lemma InlineParses(n: Node, end: Tokens)
    requires Inline(n) && StmtEnd(end) && Follows(end)
    ensures Yields(ParseStmt(ShowHeader(n) + (ShowSimple(n.body[0]) + end)), n, end)
  {
    hide *;
    InlineIs(n);
    var vs := ShowSimple(n.body[0]) + end;
    InlineBody(n.body[0], end);
    var us := ParseBlock(vs).value.rest;
    SkipTwice(end);
    if n.DefS? {
      DefHeader(n, vs);
      ParamsParse(n.params, [Colon] + vs);
      DefStep(n, ShowParams(n.params) + ([RPar] + ([Colon] + vs)), vs, us);
      DoneIs(ParseStmt(ShowHeader(n) + vs), n, us, end);
    } else {
      var ws := Show(Head(n), TERNARY) + ([Colon] + vs);
      HeadParses(Head(n), vs);
      NoClauses(us, end);
      HeadIs(n);
      if n.IfS? {
        IfHeader(n, vs);
        NoClauses(SkipEnds(end), end);
        IfStep(n, ws, vs, us, SkipEnds(end));
      } else if n.WhileS? {
        IfHeader(n, vs);
        WhileStep(n, ws, vs, us, SkipEnds(end));
      } else {
        ForHeader(n, vs);
        ForStep(n, ws, vs, us, SkipEnds(end));
      }
      DoneIs(ParseStmt(ShowHeader(n) + vs), n, SkipEnds(end), end);
    }
  }

  lemma HeadIs(n: Node)
    requires n.IfS? || n.WhileS? || n.ForS?
    ensures Head(n) == if n.ForS? then n.iter else n.test
  {
  }

  // ----- an augmented assignment to something else -----

  /** It is parsed as if only its left side were there. */
  lemma AugDropped(e: Tree, op: Token, v: Tree, end: Tokens)
    requires WellFormed(e) && !e.Ident? && IsAug(op) && WellFormed(v) && StmtEnd(end) && !Ahead(SkipNewline(end), Colon)
    ensures Yields(ParseStmt(Show(e, TERNARY) + ([op] + (Show(v, TERNARY) + end))), ExprS(e), end)
  {
    hide *;
    Levels();
    var vs := Show(v, TERNARY) + end;
    var us := [op] + vs;
    ExprDispatch(e, us);
    AugStops(op, vs);
    Parses(e, TERNARY, us);
    EndStops(end);
    Parses(v, TERNARY, end);
    DroppedStep(e, op, v, vs, end);
    SkipNewlineEnds(end);
    DoneIs(ParseStmt(Show(e, TERNARY) + us), ExprS(e), SkipNewline(end), end);
  }

  lemma DroppedStep(e: Tree, op: Token, v: Tree, vs: Tokens, end: Tokens)
    requires !e.Ident? && IsAug(op) && !Ahead(SkipNewline(end), Colon)
    requires var ts := Show(e, TERNARY) + ([op] + vs);
      ParseStmt(ts) == ParseExprStmt(ts) && ParseAt(TERNARY, ts) == Some(Parsed(e, [op] + vs))
    requires ParseAt(TERNARY, vs) == Some(Parsed(v, end))
    ensures ParseStmt(Show(e, TERNARY) + ([op] + vs)) == Some(ParsedNode(ExprS(e), SkipNewline(end)))
  {
    hide ParseAt, Show, ParseStmt, SkipNewline;
    assert ([op] + vs)[1..] == vs;
  }
}
