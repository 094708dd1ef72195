/** The statement parser gives back every printed tree of statements: the same nesting, and every `elif` and `else` with
    its own header. */
module StmtRoundTrip {
  import opened Wrappers
  import opened Syntax
  import opened ExprParser
  import opened ExprRoundTrip
  import opened StmtParser

  predicate Simple(n: Node) {
    !(n.IfS? || n.WhileS? || n.ForS? || n.DefS?)
  }

  // ----- printing -----

  function ShowTargets(ts: seq<Tree>): Tokens {
    if ts == [] then [] else Show(ts[0], TERNARY) + [Eq] + ShowTargets(ts[1..])
  }

  function ShowSimple(n: Node): Tokens
    requires Simple(n)
  {
    match n
    case ExprS(e) => Show(e, TERNARY)
    case AssignS(ts, v) => ShowTargets(ts) + Show(v, TERNARY)
    case AugS(x, op, v) => [Name(x), op] + Show(v, TERNARY)
    case ReturnS(e) => [ReturnT] + if e.Some? then Show(e.value, TERNARY) else []
    case PassS => [PassT]
    case BreakS => [BreakT]
    case ContinueS => [ContinueT]
  }

  function ShowParams(ps: seq<string>): Tokens {
    if ps == [] then [] else [Name(ps[0])] + ShowMoreParams(ps[1..])
  }

  function ShowMoreParams(ps: seq<string>): Tokens {
    if ps == [] then [] else [Comma] + ([Name(ps[0])] + ShowMoreParams(ps[1..]))
  }

  /** The header line of a compound statement. */
  function ShowHeader(n: Node): Tokens
    requires !Simple(n)
  {
    match n
    case IfS(t, _, _, _) => [IfT] + Show(t, TERNARY) + [Colon]
    case WhileS(t, _, _) => [WhileT] + Show(t, TERNARY) + [Colon]
    case ForS(x, e, _, _) => [ForT, Name(x), Cmp(In)] + Show(e, TERNARY) + [Colon]
    case DefS(f, ps, _) => [DefT, Name(f), LPar] + ShowParams(ps) + [RPar, Colon]
  }

  function ArmHeader(a: Arm): Tokens {
    [ElifT] + Show(a.test, TERNARY) + [Colon]
  }

  function ShowNode(n: Node): Tokens
    decreases n, 0
  {
    if Simple(n) then ShowSimple(n) + [Newline]
    else
      ShowHeader(n) + ShowBody(n.body) + (if n.IfS? then ShowArms(n.elifs) else [])
      + (if n.DefS? then [] else ShowElse(n.orelse))
  }

  /** An indented block, with the end of the header line. */
  function ShowBody(ss: seq<Node>): Tokens
    decreases ss, 1
  {
    [Newline, Indent] + ShowNodes(ss) + [Dedent]
  }

  function ShowArms(arms: seq<Arm>): Tokens
    decreases arms, 0
  {
    if arms == [] then [] else ArmHeader(arms[0]) + ShowBody(arms[0].body) + ShowArms(arms[1..])
  }

  function ShowElse(ss: seq<Node>): Tokens
    decreases ss, 2
  {
    if ss == [] then [] else [ElseT, Colon] + ShowBody(ss)
  }

  function ShowNodes(ss: seq<Node>): Tokens
    decreases ss, 0
  {
    if ss == [] then [] else ShowNode(ss[0]) + ShowNodes(ss[1..])
  }

  // ----- trees the parser can build -----

  predicate WellFormedSimple(n: Node)
    requires Simple(n)
  {
    match n
    case ExprS(e) => WellFormed(e)
    case AssignS(ts, v) => ts != [] && AllWellFormed(ts) && WellFormed(v)
    case AugS(_, op, v) => IsAug(op) && WellFormed(v)
    case ReturnS(e) => e.Some? ==> WellFormed(e.value)
    case _ => true
  }

  /** The test or the iterable. */
  function Head(n: Node): Tree
    requires !Simple(n) && !n.DefS?
  {
    if n.ForS? then n.iter else n.test
  }

  /** Every body has a statement; an `orelse` may be absent. */
  predicate WellFormedNode(n: Node)
    decreases n, 0
  {
    if Simple(n) then WellFormedSimple(n)
    else
      && n.body != [] && WellFormedNodes(n.body)
      && (n.IfS? ==> WellFormedArms(n.elifs))
      && (!n.DefS? ==> WellFormed(Head(n)) && WellFormedNodes(n.orelse))
  }

  predicate WellFormedNodes(ss: seq<Node>)
    decreases ss, 0
  {
    ss == [] || (WellFormedNode(ss[0]) && WellFormedNodes(ss[1..]))
  }

  predicate WellFormedArms(arms: seq<Arm>)
    decreases arms, 0
  {
    arms == [] || (
      && WellFormed(arms[0].test) && arms[0].body != [] && WellFormedNodes(arms[0].body)
      && WellFormedArms(arms[1..]))
  }

  // ----- what may follow -----

  /** After a statement: not a clause that would attach to it. */
  predicate Follows(rest: Tokens) {
    var us := SkipEnds(rest);
    !Ahead(us, ElifT) && !Ahead(us, ElseT)
  }

  /** A token that starts a statement. */
  predicate StartsStmt(t: Token) {
    !(t in {Newline, Semicolon, Indent, Dedent, ElifT, ElseT})
  }

  lemma StartsExpr(t: Token)
    requires Starts(t, TERNARY)
    ensures StartsStmt(t) && !(t in {IfT, WhileT, ForT, DefT, ReturnT, PassT, BreakT, ContinueT})
  {
  }

  lemma SkipNewlineEnds(ts: Tokens)
    ensures SkipEnds(SkipNewline(ts)) == SkipEnds(ts)
  {
  }

  lemma {:induction false} SkipTwice(ts: Tokens)
    ensures SkipEnds(SkipEnds(ts)) == SkipEnds(ts)
  {
    var us := SkipEnds(ts);
    assert SkipEnds(us) == us;
  }

  lemma SkipNone(ts: Tokens)
    requires ts == [] || StartsStmt(ts[0]) || ts[0] == Dedent || ts[0] == ElifT || ts[0] == ElseT
    ensures SkipEnds(ts) == ts
  {
  }

  /** The parse of a simple statement and its line end. */
  ghost predicate Yields(r: Option<ParsedNode>, n: Node, rest: Tokens) {
    r.Some? && r.value.node == n && SkipEnds(r.value.rest) == SkipEnds(rest)
  }

  // ----- simple statements -----

  /** Where a simple statement may end. */
  predicate StmtEnd(ts: Tokens) {
    ts == [] || ts[0] == Newline || ts[0] == Semicolon
  }

  lemma EndStops(ts: Tokens)
    requires StmtEnd(ts)
    ensures Stops(TERNARY, ts)
  {
  }

  lemma {:induction false} AssignParses(done: seq<Tree>, value: Tree, ts: seq<Tree>, v: Tree, end: Tokens)
    requires StmtEnd(end)
    requires AllWellFormed(ts) && WellFormed(v)
    ensures AssignLoop(done, value, [Eq] + (ShowTargets(ts) + (Show(v, TERNARY) + end)))
      == Some(ParsedNode(AssignS(done + [value] + ts, v), SkipNewline(end)))
    decreases |ts|
  {
    hide *;
    Levels();
    EndStops(end);
    if ts == [] {
      Parses(v, TERNARY, end);
      LastTarget(done, value, v, end);
      assert done + [value] + [] == done + [value];
    } else {
      var us := [Eq] + (ShowTargets(ts[1..]) + (Show(v, TERNARY) + end));
      AllIs(ts);
      EqStops(us[1..]);
      assert us == [Eq] + us[1..];
      Parses(ts[0], TERNARY, us);
      AssignParses(done + [value], ts[0], ts[1..], v, end);
      assert done + [value] + [ts[0]] + ts[1..] == done + [value] + ts;
      NextTarget(done, value, ts, Show(v, TERNARY) + end, us);
    }
  }

  lemma EqStops(ts: Tokens)
    ensures Stops(TERNARY, [Eq] + ts)
  {
  }

  lemma LastTarget(done: seq<Tree>, value: Tree, v: Tree, end: Tokens)
    requires StmtEnd(end)
    requires ParseAt(TERNARY, Show(v, TERNARY) + end) == Some(Parsed(v, end))
    ensures AssignLoop(done, value, [Eq] + (ShowTargets([]) + (Show(v, TERNARY) + end)))
      == Some(ParsedNode(AssignS(done + [value], v), SkipNewline(end)))
  {
    hide ParseAt, Show;
    EndStops(end);
    var us := Show(v, TERNARY) + end;
    assert ShowTargets([]) + us == us;
    assert ([Eq] + us)[1..] == us;
  }

  lemma NextTarget(done: seq<Tree>, value: Tree, ts: seq<Tree>, tail: Tokens, us: Tokens)
    requires ts != [] && us == [Eq] + (ShowTargets(ts[1..]) + tail)
    requires ParseAt(TERNARY, Show(ts[0], TERNARY) + us) == Some(Parsed(ts[0], us))
    ensures AssignLoop(done, value, [Eq] + (ShowTargets(ts) + tail)) == AssignLoop(done + [value], ts[0], us)
  {
    hide ParseAt, Show;
    var vs := Show(ts[0], TERNARY) + us;
    assert ShowTargets(ts) + tail == vs;
    assert ([Eq] + vs)[1..] == vs;
  }

  lemma ExprDispatch(e: Tree, us: Tokens)
    requires WellFormed(e)
    ensures var ts := Show(e, TERNARY) + us; ParseStmt(ts) == ParseExprStmt(ts)
  {
    ShowStarts(e, TERNARY);
    hide Show, ParseExprStmt;
    var ts := Show(e, TERNARY) + us;
    assert ts[0] == Show(e, TERNARY)[0];
    StartsExpr(ts[0]);
    SkipNone(ts);
  }

  lemma ExprStmtIs(e: Tree, end: Tokens)
    requires StmtEnd(end)
    requires ParseAt(TERNARY, Show(e, TERNARY) + end) == Some(Parsed(e, end))
    ensures ParseExprStmt(Show(e, TERNARY) + end) == Some(ParsedNode(ExprS(e), SkipNewline(end)))
  {
    EndStops(end);
    hide Show, ParseAt, SkipNewline;
  }

  lemma ExprShows(n: Node)
    requires n.ExprS? && WellFormedSimple(n)
    ensures Simple(n) && WellFormed(n.e) && ShowSimple(n) == Show(n.e, TERNARY) && n == ExprS(n.e)
  {
    hide Show, WellFormed;
  }

  lemma ExprParses(n: Node, end: Tokens)
    requires StmtEnd(end)
    requires n.ExprS? && WellFormedSimple(n)
    ensures Yields(ParseStmt(ShowSimple(n) + end), n, end)
  {
    hide *;
    Levels();
    ExprShows(n);
    ExprDispatch(n.e, end);
    EndStops(end);
    Parses(n.e, TERNARY, end);
    ExprStmtIs(n.e, end);
    SkipNewlineEnds(end);
    DoneIs(ParseStmt(ShowSimple(n) + end), n, SkipNewline(end), end);
  }

  lemma AssignStmtParses(n: Node, end: Tokens)
    requires StmtEnd(end)
    requires n.AssignS? && WellFormedSimple(n)
    ensures Yields(ParseStmt(ShowSimple(n) + end), n, end)
  {
    hide *;
    Levels();
    AssignShows(n, end);
    var tail := Show(n.value, TERNARY) + end;
    var us := [Eq] + (ShowTargets(n.targets[1..]) + tail);
    ExprDispatch(n.targets[0], us);
    EqStops(ShowTargets(n.targets[1..]) + tail);
    Parses(n.targets[0], TERNARY, us);
    if |n.targets| == 1 {
      assert n.targets[1..] == [];
      EndStops(end);
      Parses(n.value, TERNARY, end);
      OneTarget(n, us, end);
    } else {
      var vs := [Eq] + (ShowTargets(n.targets[2..]) + tail);
      TwoTargets(n, us, vs, tail);
      EqStops(ShowTargets(n.targets[2..]) + tail);
      AllIs(n.targets[1..]);
      assert n.targets[1..][1..] == n.targets[2..] && n.targets[1..][0] == n.targets[1];
      Parses(n.targets[1], TERNARY, vs);
      AssignParses([n.targets[0]], n.targets[1], n.targets[2..], n.value, end);
      MoreTargets(n, us, vs, end);
    }
    SkipNewlineEnds(end);
    AssignDone(n, end);
  }

  lemma AssignDone(n: Node, end: Tokens)
    requires Simple(n) && ParseStmt(ShowSimple(n) + end) == Some(ParsedNode(n, SkipNewline(end)))
    requires SkipEnds(SkipNewline(end)) == SkipEnds(end)
    ensures Yields(ParseStmt(ShowSimple(n) + end), n, end)
  {
    hide ParseStmt, ShowSimple, SkipEnds, SkipNewline;
  }

  lemma AssignShows(n: Node, end: Tokens)
    requires n.AssignS? && WellFormedSimple(n)
    ensures n.targets != [] && WellFormed(n.targets[0]) && AllWellFormed(n.targets[1..]) && WellFormed(n.value)
    ensures Simple(n)
    ensures ShowSimple(n) + end
      == Show(n.targets[0], TERNARY)
        + ([Eq] + (ShowTargets(n.targets[1..]) + (Show(n.value, TERNARY) + end)))
  {
    hide Show, WellFormed;
  }

  lemma OneTarget(n: Node, us: Tokens, end: Tokens)
    requires StmtEnd(end)
    requires n.AssignS? && |n.targets| == 1
    requires us == [Eq] + (ShowTargets([]) + (Show(n.value, TERNARY) + end))
    requires var ts := Show(n.targets[0], TERNARY) + us;
      && ParseStmt(ts) == ParseExprStmt(ts) && ParseAt(TERNARY, ts) == Some(Parsed(n.targets[0], us))
    requires ParseAt(TERNARY, Show(n.value, TERNARY) + end) == Some(Parsed(n.value, end))
    ensures ParseStmt(Show(n.targets[0], TERNARY) + us) == Some(ParsedNode(n, SkipNewline(end)))
  {
    hide ParseAt, Show, ParseStmt;
    EndStops(end);
    var vs := Show(n.value, TERNARY) + end;
    assert ShowTargets([]) + vs == vs;
    assert us[1..] == vs;
    assert n.targets == [n.targets[0]];
  }

  lemma TwoTargets(n: Node, us: Tokens, vs: Tokens, tail: Tokens)
    requires n.AssignS? && |n.targets| >= 2 && us == [Eq] + (ShowTargets(n.targets[1..]) + tail)
    requires vs == [Eq] + (ShowTargets(n.targets[2..]) + tail)
    ensures us == [Eq] + (Show(n.targets[1], TERNARY) + vs)
  {
    hide Show;
    assert n.targets[1..][1..] == n.targets[2..];
  }

  lemma MoreTargets(n: Node, us: Tokens, vs: Tokens, end: Tokens)
    requires StmtEnd(end)
    requires n.AssignS? && |n.targets| >= 2 && us == [Eq] + (Show(n.targets[1], TERNARY) + vs)
    requires var ts := Show(n.targets[0], TERNARY) + us;
      && ParseStmt(ts) == ParseExprStmt(ts) && ParseAt(TERNARY, ts) == Some(Parsed(n.targets[0], us))
    requires ParseAt(TERNARY, Show(n.targets[1], TERNARY) + vs) == Some(Parsed(n.targets[1], vs))
    requires AssignLoop([n.targets[0]], n.targets[1], vs)
      == Some(ParsedNode(AssignS([n.targets[0]] + [n.targets[1]] + n.targets[2..], n.value), SkipNewline(end)))
    ensures ParseStmt(Show(n.targets[0], TERNARY) + us) == Some(ParsedNode(n, SkipNewline(end)))
  {
    hide ParseAt, Show, ParseStmt, AssignLoop;
    assert us[1..] == Show(n.targets[1], TERNARY) + vs;
    assert [n.targets[0]] + [n.targets[1]] + n.targets[2..] == n.targets;
  }

  lemma AugParses(n: Node, end: Tokens)
    requires StmtEnd(end)
    requires n.AugS? && WellFormedSimple(n)
    ensures Yields(ParseStmt(ShowSimple(n) + end), n, end)
  {
    hide *;
    Levels();
    var us := [n.op] + (Show(n.value, TERNARY) + end);
    AugShows(n, end);
    ExprDispatch(Ident(n.name), us);
    Parses(Ident(n.name), TERNARY, us);
    EndStops(end);
    Parses(n.value, TERNARY, end);
    AugStep(n, us, end);
    SkipNewlineEnds(end);
    AssignDone(n, end);
  }

  lemma AugStops(op: Token, us: Tokens)
    requires IsAug(op)
    ensures Stops(TERNARY, [op] + us)
  {
  }

  lemma AugIs(n: Node)
    requires n.AugS? && WellFormedSimple(n)
    ensures Simple(n) && ShowSimple(n) == [Name(n.name), n.op] + Show(n.value, TERNARY)
    ensures IsAug(n.op) && WellFormed(n.value)
  {
    hide Show, WellFormed, IsAug;
  }

  lemma AugShows(n: Node, end: Tokens)
    requires n.AugS? && WellFormedSimple(n)
    ensures WellFormed(Ident(n.name)) && WellFormed(n.value) && Simple(n)
    ensures var us := [n.op] + (Show(n.value, TERNARY) + end);
      ShowSimple(n) + end == Show(Ident(n.name), TERNARY) + us && Stops(TERNARY, us)
  {
    hide *;
    ShowName(n.name);
    NameIs(n.name);
    AugIs(n);
    AugStops(n.op, Show(n.value, TERNARY) + end);
  }

  lemma ShowName(x: string)
    ensures Show(Ident(x), TERNARY) == [Name(x)]
  {
  }

  lemma NameIs(x: string)
    ensures WellFormed(Ident(x))
  {
  }

  lemma AugStep(n: Node, us: Tokens, end: Tokens)
    requires StmtEnd(end)
    requires n.AugS? && WellFormedSimple(n)
    requires us == [n.op] + (Show(n.value, TERNARY) + end)
    requires var ts := Show(Ident(n.name), TERNARY) + us;
      && ParseStmt(ts) == ParseExprStmt(ts) && ParseAt(TERNARY, ts) == Some(Parsed(Ident(n.name), us))
    requires ParseAt(TERNARY, Show(n.value, TERNARY) + end) == Some(Parsed(n.value, end))
    ensures ParseStmt(Show(Ident(n.name), TERNARY) + us) == Some(ParsedNode(n, SkipNewline(end)))
  {
    hide ParseAt, Show, ParseStmt, WellFormed;
    EndStops(end);
    assert us[1..] == Show(n.value, TERNARY) + end;
  }

  /** The first token decides, for the statements that start with a word of their own. */
  lemma WordDispatch(t: Token, us: Tokens)
    requires t in {ReturnT, PassT, BreakT, ContinueT}
    ensures ParseStmt([t] + us) == if t == ReturnT then ParseReturn(us)
      else Some(ParsedNode(if t == PassT then PassS else if t == BreakT then BreakS else ContinueS, SkipNewline(us)))
  {
    hide ParseReturn, SkipNewline;
    SkipNone([t] + us);
    assert ([t] + us)[1..] == us;
  }

  lemma ReturnParses(n: Node, end: Tokens)
    requires StmtEnd(end)
    requires n.ReturnS? && WellFormedSimple(n)
    ensures Yields(ParseStmt(ShowSimple(n) + end), n, end)
  {
    hide *;
    Levels();
    EndStops(end);
    SkipNewlineEnds(end);
    if n.result.Some? {
      ReturnShows(n, end);
      ShowStarts(n.result.value, TERNARY);
      StartsExpr(Show(n.result.value, TERNARY)[0]);
      Parses(n.result.value, TERNARY, end);
      WordDispatch(ReturnT, Show(n.result.value, TERNARY) + end);
      ReturnValue(n, end);
    } else {
      ReturnShowsNone(n, end);
      WordDispatch(ReturnT, end);
      ReturnNothing(end);
    }
    DoneIs(ParseStmt(ShowSimple(n) + end), n, SkipNewline(end), end);
  }

  lemma ReturnShows(n: Node, end: Tokens)
    requires n.ReturnS? && n.result.Some? && WellFormedSimple(n)
    ensures WellFormed(n.result.value) && Simple(n)
    ensures ShowSimple(n) + end == [ReturnT] + (Show(n.result.value, TERNARY) + end)
  {
    hide Show, WellFormed;
  }

  lemma ReturnShowsNone(n: Node, end: Tokens)
    requires n.ReturnS? && n.result.None?
    ensures Simple(n) && ShowSimple(n) + end == [ReturnT] + end
  {
  }

  lemma ReturnValue(n: Node, end: Tokens)
    requires StmtEnd(end)
    requires n.ReturnS? && n.result.Some?
    requires Show(n.result.value, TERNARY) != [] && StartsStmt(Show(n.result.value, TERNARY)[0])
    requires ParseAt(TERNARY, Show(n.result.value, TERNARY) + end)
      == Some(Parsed(n.result.value, end))
    ensures ParseReturn(Show(n.result.value, TERNARY) + end) == Some(ParsedNode(n, SkipNewline(end)))
  {
    EndStops(end);
    hide Show, ParseAt, SkipNewline;
    assert (Show(n.result.value, TERNARY) + end)[0] == Show(n.result.value, TERNARY)[0];
  }

  lemma ReturnNothing(end: Tokens)
    requires StmtEnd(end)
    ensures ParseReturn(end) == Some(ParsedNode(ReturnS(None), SkipNewline(end)))
  {
    EndStops(end);
    hide ParseAt, SkipNewline;
  }

  lemma WordParses(n: Node, end: Tokens)
    requires StmtEnd(end)
    requires n.PassS? || n.BreakS? || n.ContinueS?
    ensures Yields(ParseStmt(ShowSimple(n) + end), n, end)
  {
    var t := if n.PassS? then PassT else if n.BreakS? then BreakT else ContinueT;
    assert ShowSimple(n) == [t];
    hide *;
    WordDispatch(t, end);
    EndStops(end);
    SkipNewlineEnds(end);
    DoneIs(ParseStmt(ShowSimple(n) + end), n, SkipNewline(end), end);
  }

  lemma SimpleParses(n: Node, end: Tokens)
    requires StmtEnd(end)
    requires Simple(n) && WellFormedSimple(n)
    ensures Yields(ParseStmt(ShowSimple(n) + end), n, end)
  {
    hide Yields, WellFormedSimple, ShowSimple, ParseStmt;
    match n
    case ExprS(_) => ExprParses(n, end);
    case AssignS(_, _) => AssignStmtParses(n, end);
    case AugS(_, _, _) => AugParses(n, end);
    case ReturnS(_) => ReturnParses(n, end);
    case _ => WordParses(n, end);
  }

  // ----- compound statements -----

  lemma SimpleStarts(n: Node)
    requires Simple(n) && WellFormedSimple(n)
    ensures ShowSimple(n) != [] && StartsStmt(ShowSimple(n)[0])
  {
    match n
    case ExprS(e) =>
      ShowStarts(e, TERNARY);
      StartsExpr(Show(e, TERNARY)[0]);
    case AssignS(ts, v) =>
      ShowStarts(ts[0], TERNARY);
      StartsExpr(Show(ts[0], TERNARY)[0]);
    case _ =>
  }

  /** The first token of a printed statement. */
  lemma NodeStarts(n: Node)
    requires WellFormedNode(n)
    ensures ShowNode(n) != [] && StartsStmt(ShowNode(n)[0])
  {
    if Simple(n) {
      SimpleStarts(n);
      hide ShowSimple;
    } else {
      HeaderStarts(n);
      hide ShowHeader, ShowBody, ShowArms, ShowElse, WellFormedNode, StartsStmt;
      assert ShowNode(n)[0] == ShowHeader(n)[0];
    }
  }

  lemma HeaderStarts(n: Node)
    requires !Simple(n)
    ensures ShowHeader(n) != [] && StartsStmt(ShowHeader(n)[0])
  {
    hide Show, ShowParams;
  }

  lemma HeadParses(e: Tree, us: Tokens)
    requires WellFormed(e)
    ensures ParseHead(Show(e, TERNARY) + ([Colon] + us)) == Some(Parsed(e, us))
  {
    ColonStops(us);
    Parses(e, TERNARY, [Colon] + us);
    hide Show, ParseAt;
    assert ([Colon] + us)[1..] == us;
  }

  lemma ColonStops(us: Tokens)
    ensures Stops(TERNARY, [Colon] + us)
  {
  }

  lemma NodesAre(ss: seq<Node>)
    requires WellFormedNodes(ss) && ss != []
    ensures WellFormedNode(ss[0]) && WellFormedNodes(ss[1..])
  {
    hide WellFormedNode;
  }

  /** What comes after a statement of a block lets it end. */
  lemma NextFollows(ss: seq<Node>, rest: Tokens)
    requires WellFormedNodes(ss)
    ensures var us := ShowNodes(ss) + ([Dedent] + rest);
      && Follows(us) && SkipEnds(us) == us && us != [] && (ss != [] ==> us[0] != Dedent)
      && (ss == [] ==> us == [Dedent] + rest)
  {
    var us := ShowNodes(ss) + ([Dedent] + rest);
    if ss != [] {
      NodeStarts(ss[0]);
      hide ShowNode;
      assert us[0] == ShowNode(ss[0])[0];
    }
    SkipNone(us);
  }

  lemma BlockStep(s: Node, ts: Tokens, us: Tokens, more: seq<Node>, rest: Tokens)
    requires SkipEnds(ts) == ts && ts != [] && ts[0] != Dedent
    requires Yields(ParseStmt(ts), s, us) && SkipEnds(us) == us && BlockLoop(us) == Some(ParsedNodes(more, rest))
    ensures BlockLoop(ts) == Some(ParsedNodes([s] + more, rest))
  {
    hide ParseStmt;
    SameBlock(ParseStmt(ts).value.rest, us);
  }

  /** A block depends only on what is left after the line ends. */
  lemma SameBlock(ts: Tokens, us: Tokens)
    requires SkipEnds(ts) == SkipEnds(us)
    ensures BlockLoop(ts) == BlockLoop(us)
  {
    hide ParseStmt, SkipEnds;
  }

  lemma EndOfBlock(rest: Tokens)
    ensures BlockLoop([Dedent] + rest) == Some(ParsedNodes([], rest))
  {
    SkipNone([Dedent] + rest);
    assert ([Dedent] + rest)[1..] == rest;
    hide ParseStmt, SkipEnds;
  }

  lemma {:induction false} NodesParse(ss: seq<Node>, rest: Tokens)
    requires WellFormedNodes(ss)
    ensures BlockLoop(ShowNodes(ss) + ([Dedent] + rest)) == Some(ParsedNodes(ss, rest))
    decreases ss, 1
  {
    hide *;
    NextFollows(ss, rest);
    if ss == [] {
      EndOfBlock(rest);
    } else {
      var us := ShowNodes(ss[1..]) + ([Dedent] + rest);
      NodesAre(ss);
      NodesShow(ss, [Dedent] + rest);
      NextFollows(ss[1..], rest);
      NodeParses(ss[0], us);
      NodesParse(ss[1..], rest);
      BlockStep(ss[0], ShowNode(ss[0]) + us, us, ss[1..], rest);
      assert [ss[0]] + ss[1..] == ss;
    }
  }

  lemma NodesShow(ss: seq<Node>, end: Tokens)
    requires ss != []
    ensures ShowNodes(ss) + end == ShowNode(ss[0]) + (ShowNodes(ss[1..]) + end)
  {
    hide ShowNode;
  }

  /** An indented block. */
  lemma BodyParses(ss: seq<Node>, rest: Tokens)
    requires WellFormedNodes(ss)
    ensures ParseBlock(ShowBody(ss) + rest) == Some(ParsedNodes(ss, rest))
    decreases ss, 2
  {
    hide *;
    NodesParse(ss, rest);
    BlockOpens(ShowNodes(ss) + ([Dedent] + rest));
    BodyShows(ss, rest);
  }

  lemma BodyShows(ss: seq<Node>, rest: Tokens)
    ensures ShowBody(ss) + rest == [Newline, Indent] + (ShowNodes(ss) + ([Dedent] + rest))
  {
    hide ShowNodes;
  }

  lemma BlockOpens(us: Tokens)
    ensures ParseBlock([Newline, Indent] + us) == BlockLoop(us)
  {
    hide ParseStmt, BlockLoop;
    var ts := [Newline, Indent] + us;
    assert ts[1..] == [Indent] + us;
    assert ([Indent] + us)[1..] == us;
    assert SkipEnds(ts) == SkipEnds([Indent] + us) == [Indent] + us;
  }

  lemma {:induction false} ArmsParse(arms: seq<Arm>, rest: Tokens)
    requires WellFormedArms(arms) && !Ahead(SkipEnds(rest), ElifT)
    ensures ParseArms(ShowArms(arms) + rest) == Some(ParsedArms(arms, SkipEnds(rest)))
    decreases arms, 0
  {
    hide *;
    if arms == [] {
      NoArms(rest);
    } else {
      var us := ShowArms(arms[1..]) + rest;
      var a := arms[0];
      ArmsShow(arms, rest);
      HeadParses(a.test, ShowBody(a.body) + us);
      BodyParses(a.body, us);
      ArmsParse(arms[1..], rest);
      ArmStep(a, arms[1..], us, rest);
      assert [a] + arms[1..] == arms;
    }
  }

  lemma NoArms(rest: Tokens)
    requires !Ahead(SkipEnds(rest), ElifT)
    ensures ParseArms(ShowArms([]) + rest) == Some(ParsedArms([], SkipEnds(rest)))
  {
    assert ShowArms([]) + rest == rest;
    hide ParseHead, ParseBlock, SkipEnds;
  }

  lemma ArmsShow(arms: seq<Arm>, rest: Tokens)
    requires WellFormedArms(arms) && arms != []
    ensures WellFormed(arms[0].test) && WellFormedNodes(arms[0].body) && WellFormedArms(arms[1..])
    ensures ShowArms(arms) + rest
      == [ElifT] + (Show(arms[0].test, TERNARY) + ([Colon] + (ShowBody(arms[0].body) + (ShowArms(arms[1..]) + rest))))
  {
    hide Show, ShowBody, WellFormed, WellFormedNodes;
  }

  lemma ArmStep(a: Arm, more: seq<Arm>, us: Tokens, rest: Tokens)
    requires var vs := ShowBody(a.body) + us;
      && ParseHead(Show(a.test, TERNARY) + ([Colon] + vs)) == Some(Parsed(a.test, vs))
      && ParseBlock(vs) == Some(ParsedNodes(a.body, us))
    requires ParseArms(us) == Some(ParsedArms(more, SkipEnds(rest)))
    ensures ParseArms([ElifT] + (Show(a.test, TERNARY) + ([Colon] + (ShowBody(a.body) + us))))
      == Some(ParsedArms([a] + more, SkipEnds(rest)))
  {
    hide Show, ShowBody, ParseHead, ParseBlock;
    var ws := Show(a.test, TERNARY) + ([Colon] + (ShowBody(a.body) + us));
    assert ([ElifT] + ws)[1..] == ws;
    SkipNone([ElifT] + ws);
    hide SkipEnds;
  }

  /** After an `else` clause, or in place of one. */
  function AfterElse(ss: seq<Node>, rest: Tokens): Tokens {
    if ss == [] then SkipEnds(rest) else rest
  }

  lemma NoElse(rest: Tokens)
    requires Follows(rest)
    ensures var ts := ShowElse([]) + rest;
      !Ahead(SkipEnds(ts), ElifT) && ParseElse(SkipEnds(ts)) == Some(ParsedNodes([], SkipEnds(rest)))
  {
    assert ShowElse([]) + rest == rest;
    hide ParseBlock, SkipEnds;
  }

  lemma SomeElse(ss: seq<Node>, rest: Tokens)
    requires ss != [] && ParseBlock(ShowBody(ss) + rest) == Some(ParsedNodes(ss, rest))
    ensures var ts := ShowElse(ss) + rest;
      !Ahead(SkipEnds(ts), ElifT) && ParseElse(SkipEnds(ts)) == Some(ParsedNodes(ss, rest))
  {
    hide ShowBody, ParseBlock;
    var us := ShowBody(ss) + rest;
    var ts := [ElseT, Colon] + us;
    assert ShowElse(ss) + rest == ts;
    SkipNone(ts);
    assert ts[2..] == us && ts[1..] == [Colon] + us;
    hide SkipEnds;
  }

  lemma ElseParses(ss: seq<Node>, rest: Tokens)
    requires WellFormedNodes(ss) && Follows(rest)
    ensures var ts := ShowElse(ss) + rest;
      && !Ahead(SkipEnds(ts), ElifT)
      && ParseElse(SkipEnds(ts)) == Some(ParsedNodes(ss, AfterElse(ss, rest)))
    decreases ss, 3
  {
    hide ShowElse, ParseElse, SkipEnds, ShowBody, ParseBlock;
    if ss == [] {
      NoElse(rest);
    } else {
      BodyParses(ss, rest);
      SomeElse(ss, rest);
    }
  }

  lemma AfterElseEnds(ss: seq<Node>, rest: Tokens)
    ensures SkipEnds(AfterElse(ss, rest)) == SkipEnds(rest)
  {
    SkipTwice(rest);
    hide SkipEnds;
  }

  lemma CompoundAre(n: Node)
    requires WellFormedNode(n) && !Simple(n) && !n.DefS?
    ensures WellFormed(Head(n)) && WellFormedNodes(n.body) && WellFormedNodes(n.orelse)
    ensures n.IfS? ==> WellFormedArms(n.elifs)
  {
    hide WellFormed, WellFormedNodes, WellFormedArms;
  }

  lemma IfShows(n: Node, rest: Tokens)
    requires n.IfS?
    ensures ShowNode(n) + rest == [IfT] + (Show(n.test, TERNARY) + ([Colon]
      + (ShowBody(n.body) + (ShowArms(n.elifs) + (ShowElse(n.orelse) + rest)))))
  {
    hide Show, ShowBody, ShowArms, ShowElse;
  }

  lemma IfStep(n: Node, ws: Tokens, vs: Tokens, us: Tokens, end: Tokens)
    requires n.IfS? && ParseHead(ws) == Some(Parsed(n.test, vs)) && ParseBlock(vs) == Some(ParsedNodes(n.body, us))
    requires ParseArms(us).Some? && ParseArms(us).value.arms == n.elifs
    requires ParseElse(ParseArms(us).value.rest) == Some(ParsedNodes(n.orelse, end))
    ensures ParseStmt([IfT] + ws) == Some(ParsedNode(n, end))
  {
    hide ParseHead, ParseBlock, ParseArms, ParseElse;
    assert ([IfT] + ws)[1..] == ws;
    SkipNone([IfT] + ws);
  }

  lemma IfStmtParses(n: Node, rest: Tokens)
    requires n.IfS? && WellFormedNode(n) && Follows(rest)
    ensures Yields(ParseStmt(ShowNode(n) + rest), n, rest)
    decreases n, 0
  {
    hide *;
    Levels();
    IfIs(n);
    CompoundAre(n);
    var ts := ShowElse(n.orelse) + rest;
    var us := ShowArms(n.elifs) + ts;
    var vs := ShowBody(n.body) + us;
    IfShows(n, rest);
    HeadParses(n.test, vs);
    BodyParses(n.body, us);
    ElseParses(n.orelse, rest);
    ArmsParse(n.elifs, ts);
    IfStep(n, Show(n.test, TERNARY) + ([Colon] + vs), vs, us, AfterElse(n.orelse, rest));
    AfterElseEnds(n.orelse, rest);
    DoneIs(ParseStmt(ShowNode(n) + rest), n, AfterElse(n.orelse, rest), rest);
  }

  lemma IfIs(n: Node)
    requires n.IfS?
    ensures !Simple(n) && Head(n) == n.test
  {
  }

  lemma DoneIs(r: Option<ParsedNode>, n: Node, end: Tokens, rest: Tokens)
    requires r == Some(ParsedNode(n, end)) && SkipEnds(end) == SkipEnds(rest)
    ensures Yields(r, n, rest)
  {
    hide SkipEnds;
  }

  lemma LoopShows(n: Node, rest: Tokens)
    requires n.WhileS? || n.ForS?
    ensures var ws := Show(Head(n), TERNARY) + ([Colon] + (ShowBody(n.body) + (ShowElse(n.orelse) + rest)));
      ShowNode(n) + rest == if n.WhileS? then [WhileT] + ws else [ForT] + ([Name(n.target), Cmp(In)] + ws)
  {
    hide Show, ShowBody, ShowElse;
  }

  lemma WhileStep(n: Node, ws: Tokens, vs: Tokens, us: Tokens, end: Tokens)
    requires n.WhileS? && ParseHead(ws) == Some(Parsed(n.test, vs)) && ParseBlock(vs) == Some(ParsedNodes(n.body, us))
    requires ParseElse(SkipEnds(us)) == Some(ParsedNodes(n.orelse, end))
    ensures ParseStmt([WhileT] + ws) == Some(ParsedNode(n, end))
  {
    hide ParseHead, ParseBlock, ParseElse;
    assert ([WhileT] + ws)[1..] == ws;
    SkipNone([WhileT] + ws);
    hide SkipEnds;
  }

  lemma ForStep(n: Node, ws: Tokens, vs: Tokens, us: Tokens, end: Tokens)
    requires n.ForS? && ParseHead(ws) == Some(Parsed(n.iter, vs)) && ParseBlock(vs) == Some(ParsedNodes(n.body, us))
    requires ParseElse(SkipEnds(us)) == Some(ParsedNodes(n.orelse, end))
    ensures ParseStmt([ForT] + ([Name(n.target), Cmp(In)] + ws)) == Some(ParsedNode(n, end))
  {
    hide ParseHead, ParseBlock, ParseElse;
    var xs := [Name(n.target), Cmp(In)] + ws;
    assert ([ForT] + xs)[1..] == xs && xs[2..] == ws;
    SkipNone([ForT] + xs);
    hide SkipEnds;
  }

  lemma LoopParses(n: Node, rest: Tokens)
    requires (n.WhileS? || n.ForS?) && WellFormedNode(n) && Follows(rest)
    ensures Yields(ParseStmt(ShowNode(n) + rest), n, rest)
    decreases n, 0
  {
    hide *;
    Levels();
    LoopIs(n);
    CompoundAre(n);
    var us := ShowElse(n.orelse) + rest;
    var vs := ShowBody(n.body) + us;
    LoopShows(n, rest);
    HeadParses(Head(n), vs);
    BodyParses(n.body, us);
    ElseParses(n.orelse, rest);
    var ws := Show(Head(n), TERNARY) + ([Colon] + vs);
    if n.WhileS? {
      WhileStep(n, ws, vs, us, AfterElse(n.orelse, rest));
    } else {
      ForStep(n, ws, vs, us, AfterElse(n.orelse, rest));
    }
    AfterElseEnds(n.orelse, rest);
    DoneIs(ParseStmt(ShowNode(n) + rest), n, AfterElse(n.orelse, rest), rest);
  }

  lemma LoopIs(n: Node)
    requires n.WhileS? || n.ForS?
    ensures !Simple(n) && Head(n) == if n.WhileS? then n.test else n.iter
  {
  }

  lemma {:induction false} MoreParamsParse(ps: seq<string>, rest: Tokens)
    ensures ParseParams(ShowMoreParams(ps) + ([RPar] + rest)) == Some(ParsedNames(ps, [RPar] + rest))
    decreases |ps|
  {
    hide ParseParams;
    var end := [RPar] + rest;
    if ps == [] {
      assert ShowMoreParams(ps) + end == end;
      NoParams(rest);
    } else {
      var us := ShowMoreParams(ps[1..]) + end;
      MoreParamsParse(ps[1..], rest);
      assert ShowMoreParams(ps) + end == [Comma] + ([Name(ps[0])] + us);
      MoreParamsStart(ps[1..], rest);
      hide ShowMoreParams;
      CommaParam(ps[0], us);
      OneParam(ps[0], us);
      assert [ps[0]] + ps[1..] == ps;
    }
  }

  lemma NoParams(rest: Tokens)
    ensures ParseParams([RPar] + rest) == Some(ParsedNames([], [RPar] + rest))
  {
  }

  lemma CommaParam(x: string, us: Tokens)
    ensures ParseParams([Comma] + ([Name(x)] + us)) == ParseParams([Name(x)] + us)
  {
    var vs := [Name(x)] + us;
    assert ([Comma] + vs)[1..] == vs;
    assert SkipCommas([Comma] + vs) == SkipCommas(vs) == vs;
  }

  lemma OneParam(x: string, us: Tokens)
    requires !Ahead(us, Colon) && !Ahead(us, Eq)
    ensures ParseParams([Name(x)] + us) == var more := ParseParams(us);
      if more.None? then None else Some(ParsedNames([x] + more.value.names, more.value.rest))
  {
    var vs := [Name(x)] + us;
    assert SkipCommas(vs) == vs && vs[1..] == us;
  }

  lemma MoreParamsStart(ps: seq<string>, rest: Tokens)
    ensures var us := ShowMoreParams(ps) + ([RPar] + rest); !Ahead(us, Colon) && !Ahead(us, Eq)
  {
  }

  lemma ParamsParse(ps: seq<string>, rest: Tokens)
    ensures ParseParams(ShowParams(ps) + ([RPar] + rest)) == Some(ParsedNames(ps, [RPar] + rest))
  {
    var end := [RPar] + rest;
    if ps == [] {
      assert ShowParams(ps) + end == end;
      NoParams(rest);
    } else {
      var us := ShowMoreParams(ps[1..]) + end;
      assert ShowParams(ps) + end == [Name(ps[0])] + us;
      MoreParamsParse(ps[1..], rest);
      MoreParamsStart(ps[1..], rest);
      hide ShowMoreParams, ShowParams, ParseParams;
      OneParam(ps[0], us);
      assert [ps[0]] + ps[1..] == ps;
    }
  }

  lemma DefShows(n: Node, rest: Tokens)
    requires n.DefS? && WellFormedNode(n)
    ensures !Simple(n) && WellFormedNodes(n.body)
    ensures ShowNode(n) + rest
      == [DefT] + ([Name(n.name), LPar] + (ShowParams(n.params) + ([RPar] + ([Colon] + (ShowBody(n.body) + rest)))))
  {
    hide ShowParams, ShowBody, WellFormedNodes;
  }

  lemma DefStep(n: Node, ws: Tokens, vs: Tokens, rest: Tokens)
    requires n.DefS? && ParseParams(ws) == Some(ParsedNames(n.params, [RPar] + ([Colon] + vs)))
    requires ParseBlock(vs) == Some(ParsedNodes(n.body, rest))
    ensures ParseStmt([DefT] + ([Name(n.name), LPar] + ws)) == Some(ParsedNode(n, rest))
  {
    hide ParseParams, ParseBlock;
    var xs := [Name(n.name), LPar] + ws;
    var ys := [RPar] + ([Colon] + vs);
    assert ([DefT] + xs)[1..] == xs && xs[2..] == ws;
    assert ys[1..] == [Colon] + vs && ys[2..] == vs;
    SkipNone([DefT] + xs);
    hide SkipEnds;
  }

  lemma DefParses(n: Node, rest: Tokens)
    requires n.DefS? && WellFormedNode(n)
    ensures Yields(ParseStmt(ShowNode(n) + rest), n, rest)
    decreases n, 0
  {
    hide *;
    var vs := ShowBody(n.body) + rest;
    DefShows(n, rest);
    BodyParses(n.body, rest);
    ParamsParse(n.params, [Colon] + vs);
    DefStep(n, ShowParams(n.params) + ([RPar] + ([Colon] + vs)), vs, rest);
    DoneIs(ParseStmt(ShowNode(n) + rest), n, rest, rest);
  }

  lemma NewlineEnds(rest: Tokens)
    ensures StmtEnd([Newline] + rest) && SkipEnds([Newline] + rest) == SkipEnds(rest)
  {
    assert ([Newline] + rest)[1..] == rest;
  }

  lemma SameEnd(r: Option<ParsedNode>, n: Node, rest: Tokens)
    requires Yields(r, n, [Newline] + rest)
    ensures Yields(r, n, rest)
  {
    NewlineEnds(rest);
    hide SkipEnds;
  }

  /** A printed statement parses to itself, up to the line ends after it. */
  lemma {:induction false} NodeParses(n: Node, rest: Tokens)
    requires WellFormedNode(n) && Follows(rest)
    ensures Yields(ParseStmt(ShowNode(n) + rest), n, rest)
    decreases n, 1
  {
    hide *;
    if Simple(n) {
      SimpleShows(n, rest);
      NewlineEnds(rest);
      SimpleParses(n, [Newline] + rest);
      SameEnd(ParseStmt(ShowNode(n) + rest), n, rest);
    } else if n.IfS? {
      IfStmtParses(n, rest);
    } else if n.DefS? {
      DefParses(n, rest);
    } else {
      CompoundIs(n);
      LoopParses(n, rest);
    }
  }

  lemma SimpleShows(n: Node, rest: Tokens)
    requires Simple(n) && WellFormedNode(n)
    ensures WellFormedSimple(n) && ShowNode(n) + rest == ShowSimple(n) + ([Newline] + rest)
  {
    hide ShowSimple, WellFormedSimple;
  }

  lemma CompoundIs(n: Node)
    requires !Simple(n) && !n.IfS? && !n.DefS?
    ensures n.WhileS? || n.ForS?
  {
  }

  // ----- programs -----

  lemma SameProgram(ts: Tokens, us: Tokens)
    requires SkipEnds(ts) == SkipEnds(us)
    ensures ParseProgram(ts) == ParseProgram(us)
  {
    hide ParseStmt, SkipEnds;
  }

  lemma ProgramFollows(ss: seq<Node>, end: Tokens)
    requires WellFormedNodes(ss) && SkipEnds(end) == []
    ensures var us := ShowNodes(ss) + end; Follows(us) && (ss != [] ==> SkipEnds(us) == us && us != [])
  {
    var us := ShowNodes(ss) + end;
    if ss != [] {
      NodeStarts(ss[0]);
      hide ShowNode;
      assert us[0] == ShowNode(ss[0])[0];
      SkipNone(us);
    } else {
      assert us == end;
    }
  }

  lemma ProgramStep(s: Node, ts: Tokens, us: Tokens, more: seq<Node>)
    requires SkipEnds(ts) == ts && ts != [] && Yields(ParseStmt(ts), s, us) && ParseProgram(us) == Some(more)
    ensures ParseProgram(ts) == Some([s] + more)
  {
    hide ParseStmt;
    SameProgram(ParseStmt(ts).value.rest, us);
  }

  /** Parsing a printed program gives it back. */
  lemma {:induction false} ProgramParses(ss: seq<Node>, end: Tokens)
    requires WellFormedNodes(ss) && SkipEnds(end) == []
    ensures ParseProgram(ShowNodes(ss) + end) == Some(ss)
    decreases |ss|
  {
    hide *;
    if ss == [] {
      NoProgram(end);
    } else {
      var us := ShowNodes(ss[1..]) + end;
      NodesAre(ss);
      NodesShow(ss, end);
      ProgramFollows(ss, end);
      ProgramFollows(ss[1..], end);
      NodeParses(ss[0], us);
      ProgramParses(ss[1..], end);
      ProgramStep(ss[0], ShowNode(ss[0]) + us, us, ss[1..]);
      assert [ss[0]] + ss[1..] == ss;
    }
  }

  lemma NoProgram(end: Tokens)
    requires SkipEnds(end) == []
    ensures ParseProgram(ShowNodes([]) + end) == Some([])
  {
    assert ShowNodes([]) + end == end;
  }
}
