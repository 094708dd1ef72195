/** The statement parser: blocks, `if`, `while`, `for` and simple statements, as functions from the remaining tokens. */
module StmtParser {
  import opened Wrappers
  import opened Syntax
  import opened ExprParser
  import LineScanner

  datatype Arm = Arm(test: Tree, body: seq<Node>)

  datatype Node =
    | ExprS(e: Tree)
    | AssignS(targets: seq<Tree>, value: Tree)
    | AugS(name: string, op: Token, value: Tree)
    | ReturnS(result: Option<Tree>)
    | PassS
    | BreakS
    | ContinueS
    | IfS(test: Tree, body: seq<Node>, elifs: seq<Arm>, orelse: seq<Node>)
    | WhileS(test: Tree, body: seq<Node>, orelse: seq<Node>)
    | ForS(target: string, iter: Tree, body: seq<Node>, orelse: seq<Node>)
    | DefS(name: string, params: seq<string>, body: seq<Node>)

  datatype ParsedNode = ParsedNode(node: Node, rest: Tokens)
  datatype ParsedNodes = ParsedNodes(nodes: seq<Node>, rest: Tokens)
  datatype ParsedNames = ParsedNames(names: seq<string>, rest: Tokens)
  datatype ParsedArms = ParsedArms(arms: seq<Arm>, rest: Tokens)

  /** `skip(NEWLINE)`. */
  function SkipNewline(ts: Tokens): (r: Tokens)
    ensures |r| <= |ts|
  {
    if Ahead(ts, Newline) then SkipNewline(ts[1..]) else ts
  }

  /** `skip_newlines`: also semicolons. */
  function SkipEnds(ts: Tokens): (r: Tokens)
    ensures |r| <= |ts| && !Ahead(r, Newline) && !Ahead(r, Semicolon)
  {
    if Ahead(ts, Newline) || Ahead(ts, Semicolon) then SkipEnds(ts[1..]) else ts
  }

  predicate IsAug(t: Token) {
    t.Aug? || t.AugDStar?
  }

  // ----- simple statements -----

  /** After the first `=`: the targets so far, and the value that may yet be another target. */
  function AssignLoop(targets: seq<Tree>, value: Tree, ts: Tokens): (r: Option<ParsedNode>)
    ensures r.Some? ==> |r.value.rest| <= |ts|
    decreases |ts|
  {
    if !Ahead(ts, Eq) then Some(ParsedNode(AssignS(targets, value), SkipNewline(ts))) else
    var e := ParseAt(TERNARY, ts[1..]);
    if e.None? then None else AssignLoop(targets + [value], e.value.tree, e.value.rest)
  }

  /** `parse_expr_stmt`. An augmented assignment to anything but a name is dropped, and its left side kept as an
      expression. Annotations are not covered. */
  function ParseExprStmt(ts: Tokens): (r: Option<ParsedNode>)
    ensures r.Some? ==> |r.value.rest| < |ts|
  {
    var e := ParseAt(TERNARY, ts);
    if e.None? then None else
    var us := e.value.rest;
    if Ahead(us, Eq) then
      var v := ParseAt(TERNARY, us[1..]);
      if v.None? then None else AssignLoop([e.value.tree], v.value.tree, v.value.rest)
    else if us != [] && IsAug(us[0]) then
      var v := ParseAt(TERNARY, us[1..]);
      if v.None? then None else
      var vs := SkipNewline(v.value.rest);
      if e.value.tree.Ident? then Some(ParsedNode(AugS(e.value.tree.id, us[0], v.value.tree), vs))
      else if Ahead(vs, Colon) then None
      else Some(ParsedNode(ExprS(e.value.tree), vs))
    else if Ahead(us, Colon) then None
    else Some(ParsedNode(ExprS(e.value.tree), SkipNewline(us)))
  }

  function ParseReturn(ts: Tokens): (r: Option<ParsedNode>)
    ensures r.Some? ==> |r.value.rest| <= |ts|
  {
    if ts == [] || ts[0] == Newline || ts[0] == Semicolon then Some(ParsedNode(ReturnS(None), SkipNewline(ts))) else
    var e := ParseAt(TERNARY, ts);
    if e.None? then None else Some(ParsedNode(ReturnS(Some(e.value.tree)), SkipNewline(e.value.rest)))
  }

  // ----- compound statements -----

  /** A test or an iterable, up to and including the colon. */
  function ParseHead(ts: Tokens): (r: Result)
    ensures r.Some? ==> |r.value.rest| < |ts|
  {
    var e := ParseAt(TERNARY, ts);
    if e.None? || !Ahead(e.value.rest, Colon) then None else Some(Parsed(e.value.tree, e.value.rest[1..]))
  }

  function ParseStmt(ts: Tokens): (r: Option<ParsedNode>)
    ensures r.Some? ==> |r.value.rest| < |ts|
    decreases |ts|, 2
  {
    var us := SkipEnds(ts);
    if us == [] then None else
    match us[0]
    case IfT => ParseIf(us[1..])
    case WhileT => ParseWhile(us[1..])
    case ForT => ParseFor(us[1..])
    case DefT => ParseDef(us[1..])
    case ReturnT => ParseReturn(us[1..])
    case PassT => Some(ParsedNode(PassS, SkipNewline(us[1..])))
    case BreakT => Some(ParsedNode(BreakS, SkipNewline(us[1..])))
    case ContinueT => Some(ParsedNode(ContinueS, SkipNewline(us[1..])))
    case _ => ParseExprStmt(us)
  }

  /** The body of a compound statement, after its colon: indented, or one statement on the same line. */
  function ParseBlock(ts: Tokens): (r: Option<ParsedNodes>)
    ensures r.Some? ==> |r.value.rest| <= |ts|
    decreases |ts|, 3
  {
    var us := SkipEnds(ts);
    if us == [] then Some(ParsedNodes([], us))
    else if us[0] == Indent then BlockLoop(us[1..])
    else
      var s := ParseStmt(us);
      if s.None? then None else Some(ParsedNodes([s.value.node], s.value.rest))
  }

  function BlockLoop(ts: Tokens): (r: Option<ParsedNodes>)
    ensures r.Some? ==> |r.value.rest| <= |ts|
    decreases |ts|, 3
  {
    var us := SkipEnds(ts);
    if us == [] then Some(ParsedNodes([], us))
    else if us[0] == Dedent then Some(ParsedNodes([], us[1..]))
    else
      var s := ParseStmt(us);
      if s.None? then None else
      var more := BlockLoop(s.value.rest);
      if more.None? then None else Some(ParsedNodes([s.value.node] + more.value.nodes, more.value.rest))
  }

  function ParseArms(ts: Tokens): (r: Option<ParsedArms>)
    ensures r.Some? ==> |r.value.rest| <= |ts|
    decreases |ts|, 1
  {
    var us := SkipEnds(ts);
    if !Ahead(us, ElifT) then Some(ParsedArms([], us)) else
    var test := ParseHead(us[1..]);
    if test.None? then None else
    var body := ParseBlock(test.value.rest);
    if body.None? then None else
    var more := ParseArms(body.value.rest);
    if more.None? then None
    else Some(ParsedArms([Arm(test.value.tree, body.value.nodes)] + more.value.arms, more.value.rest))
  }

  /** An `else` clause, if there is one. */
  function ParseElse(ts: Tokens): (r: Option<ParsedNodes>)
    ensures r.Some? ==> |r.value.rest| <= |ts|
    decreases |ts|, 0
  {
    if !Ahead(ts, ElseT) then Some(ParsedNodes([], ts))
    else if Ahead(ts[1..], Colon) then ParseBlock(ts[2..])
    else None
  }

  function ParseIf(ts: Tokens): (r: Option<ParsedNode>)
    ensures r.Some? ==> |r.value.rest| <= |ts|
    decreases |ts|, 4
  {
    var test := ParseHead(ts);
    if test.None? then None else
    var body := ParseBlock(test.value.rest);
    if body.None? then None else
    var arms := ParseArms(body.value.rest);
    if arms.None? then None else
    var orelse := ParseElse(arms.value.rest);
    if orelse.None? then None
    else Some(ParsedNode(IfS(test.value.tree, body.value.nodes, arms.value.arms, orelse.value.nodes),
      orelse.value.rest))
  }

  function ParseWhile(ts: Tokens): (r: Option<ParsedNode>)
    ensures r.Some? ==> |r.value.rest| <= |ts|
    decreases |ts|, 4
  {
    var test := ParseHead(ts);
    if test.None? then None else
    var body := ParseBlock(test.value.rest);
    if body.None? then None else
    var orelse := ParseElse(SkipEnds(body.value.rest));
    if orelse.None? then None
    else Some(ParsedNode(WhileS(test.value.tree, body.value.nodes, orelse.value.nodes), orelse.value.rest))
  }

  /** One loop variable; several are not covered. */
  function ParseFor(ts: Tokens): (r: Option<ParsedNode>)
    ensures r.Some? ==> |r.value.rest| <= |ts|
    decreases |ts|, 4
  {
    if |ts| < 2 || !ts[0].Name? || ts[1] != Cmp(In) then None else
    var iter := ParseHead(ts[2..]);
    if iter.None? then None else
    var body := ParseBlock(iter.value.rest);
    if body.None? then None else
    var orelse := ParseElse(SkipEnds(body.value.rest));
    if orelse.None? then None
    else Some(ParsedNode(ForS(ts[0].id, iter.value.tree, body.value.nodes, orelse.value.nodes), orelse.value.rest))
  }

  /** `parse_funcargs`: plain parameters; annotations, defaults and starred parameters are not covered. */
  function ParseParams(ts: Tokens): (r: Option<ParsedNames>)
    ensures r.Some? ==> |r.value.rest| <= |ts|
    decreases |ts|
  {
    if ts == [] || ts[0] == RPar then Some(ParsedNames([], ts)) else
    var us := SkipCommas(ts);
    if us == [] || us[0] == RPar then Some(ParsedNames([], us))
    else if !us[0].Name? || Ahead(us[1..], Colon) || Ahead(us[1..], Eq) then None
    else
      var more := ParseParams(us[1..]);
      if more.None? then None else Some(ParsedNames([us[0].id] + more.value.names, more.value.rest))
  }

  /** The name may be that of a builtin. A result annotation is not covered. */
  function ParseDef(ts: Tokens): (r: Option<ParsedNode>)
    ensures r.Some? ==> |r.value.rest| <= |ts|
    decreases |ts|, 4
  {
    if |ts| < 2 || !ts[0].Name? || ts[1] != LPar then None else
    var ps := ParseParams(ts[2..]);
    if ps.None? || !Ahead(ps.value.rest, RPar) || !Ahead(ps.value.rest[1..], Colon) then None else
    var body := ParseBlock(ps.value.rest[2..]);
    if body.None? then None else Some(ParsedNode(DefS(ts[0].id, ps.value.names, body.value.nodes), body.value.rest))
  }

  /** `parse`: the statements of a program. */
  function ParseProgram(ts: Tokens): Option<seq<Node>>
    decreases |ts|
  {
    var us := SkipEnds(ts);
    if us == [] then Some([]) else
    var s := ParseStmt(us);
    if s.None? then None else
    var more := ParseProgram(s.value.rest);
    if more.None? then None else Some([s.value.node] + more.value)
  }

  /** The parser does not see comments. */
  function NoComments(ts: Tokens): Tokens {
    if ts == [] then [] else (if IsComment(ts[0]) then [] else [ts[0]]) + NoComments(ts[1..])
  }

  predicate IsComment(t: Token) {
    t == Other(LineScanner.COMMENT)
  }

  /** `Parser(tokens).parse()`. */
  function Parse(ts: Tokens): Option<seq<Node>> {
    ParseProgram(NoComments(ts))
  }
}
