/** The expression ladder of the parser, as functions from the remaining tokens to a tree and what is left. A syntax
    error, and any construct outside the modelled grammar, is `None`. */
module ExprParser {
  import opened Wrappers
  import opened Syntax

  type Tokens = seq<Token>

  /** A tree and the tokens after it. */
  datatype Parsed = Parsed(tree: Tree, rest: Tokens)

  datatype ParsedItems = ParsedItems(trees: seq<Tree>, rest: Tokens)

  type Result = Option<Parsed>

  predicate Ahead(ts: Tokens, t: Token) {
    ts != [] && ts[0] == t
  }

  /** Is the next token an operator of level `k`? */
  predicate AtInfix(ts: Tokens, k: nat) {
    ts != [] && ts[0].Sym? && InfixLevel(ts[0].op) == k
  }

  predicate AtPrefix(ts: Tokens) {
    ts != [] && (ts[0] == Sym(Minus) || ts[0] == Sym(Plus) || ts[0] == Tilde)
  }

  function PrefixOf(t: Token): Prefix
    requires AtPrefix([t])
  {
    if t == Sym(Minus) then Neg else if t == Sym(Plus) then Pos else Inv
  }

  /** `not in`: a comparison, not a negation. */
  predicate AtNotIn(ts: Tokens) {
    |ts| >= 2 && ts[0] == NotT && ts[1] == Cmp(In)
  }

  predicate AtCmp(ts: Tokens) {
    AtNotIn(ts) || (ts != [] && ts[0].Cmp? && ts[0].c != NotIn)
  }

  function CmpWidth(ts: Tokens): nat
    requires AtCmp(ts)
  {
    if AtNotIn(ts) then 2 else 1
  }

  /** The parser at level `k`. Each call either consumes a token or goes to a tighter level. */
  function ParseAt(k: nat, ts: Tokens): (r: Result)
    ensures r.Some? ==> |r.value.rest| < |ts|
    decreases |ts|, if k <= ATOM then 41 - 2 * k else 11
  {
    if k == TERNARY then ParseTernary(ts)
    else if IsInfixLevel(k) then
      var left := ParseAt(k + 1, ts);
      if left.None? then None else InfixLoop(k, left.value.tree, left.value.rest)
    else if k == NOT then
      if Ahead(ts, NotT) && !AtNotIn(ts) then
        var a := ParseAt(NOT, ts[1..]);
        if a.None? then None else Some(Parsed(NotE(a.value.tree), a.value.rest))
      else ParseAt(COMPARE, ts)
    else if k == COMPARE then ParseCompare(ts)
    else if k == UNARY then
      if AtPrefix(ts) then
        var a := ParseAt(UNARY, ts[1..]);
        if a.None? then None else Some(Parsed(Unary(PrefixOf(ts[0]), a.value.tree), a.value.rest))
      else ParseAt(POWER, ts)
    else if k == POWER then ParsePower(ts)
    else if k == AWAIT then
      if Ahead(ts, AwaitT) then
        var a := ParseAt(POSTFIX, ts[1..]);
        if a.None? then None else Some(Parsed(Await(a.value.tree), a.value.rest))
      else ParseAt(POSTFIX, ts)
    else if k == POSTFIX then
      var a := ParseAt(ATOM, ts);
      if a.None? then None else PostfixLoop(a.value.tree, a.value.rest)
    else ParsePrimary(ts)
  }

  function ParseTernary(ts: Tokens): (r: Result)
    ensures r.Some? ==> |r.value.rest| < |ts|
    decreases |ts|, 40
  {
    var body := ParseAt(1, ts);
    if body.None? || !Ahead(body.value.rest, IfT) then body else
    var test := ParseAt(1, body.value.rest[1..]);
    if test.None? || !Ahead(test.value.rest, ElseT) then None else
    var orelse := ParseAt(TERNARY, test.value.rest[1..]);
    if orelse.None? then None
    else Some(Parsed(IfExp(test.value.tree, body.value.tree, orelse.value.tree), orelse.value.rest))
  }

  /** The loop of a left-associative level. */
  function InfixLoop(k: nat, left: Tree, ts: Tokens): (r: Result)
    requires IsInfixLevel(k)
    ensures r.Some? ==> |r.value.rest| <= |ts|
    decreases |ts|, 20
  {
    if !AtInfix(ts, k) then Some(Parsed(left, ts)) else
    var right := ParseAt(k + 1, ts[1..]);
    if right.None? then None else InfixLoop(k, Binary(ts[0].op, left, right.value.tree), right.value.rest)
  }

  function ParseCompare(ts: Tokens): (r: Result)
    ensures r.Some? ==> |r.value.rest| < |ts|
    decreases |ts|, 32
  {
    var first := ParseAt(COMPARE + 1, ts);
    if first.None? then None else ChainLoop(first.value.tree, [], [], first.value.rest)
  }

  /** The loop of a comparison chain, with the links so far. */
  function ChainLoop(first: Tree, ops: seq<CmpOp>, es: seq<Tree>, ts: Tokens): (r: Result)
    ensures r.Some? ==> |r.value.rest| <= |ts|
    decreases |ts|, 20
  {
    if !AtCmp(ts) then Some(Parsed(if ops == [] then first else Compare(first, ops, es), ts)) else
    var e := ParseAt(COMPARE + 1, ts[CmpWidth(ts)..]);
    if e.None? then None
    else ChainLoop(first, ops + [if AtNotIn(ts) then NotIn else ts[0].c], es + [e.value.tree], e.value.rest)
  }

  function ParsePower(ts: Tokens): (r: Result)
    ensures r.Some? ==> |r.value.rest| < |ts|
    decreases |ts|, 16
  {
    var base := ParseAt(AWAIT, ts);
    if base.None? || !Ahead(base.value.rest, DStar) then base else
    var exp := ParseAt(UNARY, base.value.rest[1..]);
    if exp.None? then None else Some(Parsed(Power(base.value.tree, exp.value.tree), exp.value.rest))
  }

  /** A call of `print` or of `range` has its own node. */
  function MakeCall(f: Tree, args: seq<Tree>): Tree {
    if f == Ident("print") then Print(args) else if f == Ident("range") then Range(args) else Call(f, args)
  }

  /** The loop over attributes, calls and subscripts. */
  function PostfixLoop(node: Tree, ts: Tokens): (r: Result)
    ensures r.Some? ==> |r.value.rest| <= |ts|
    decreases |ts|, 20
  {
    if Ahead(ts, Dot) then
      if |ts| >= 2 && ts[1].Name? then PostfixLoop(Attr(node, ts[1].id), ts[2..]) else None
    else if Ahead(ts, LPar) then
      var args := ParseItems(RPar, ts[1..]);
      if args.None? || !Ahead(args.value.rest, RPar) then None
      else PostfixLoop(MakeCall(node, args.value.trees), args.value.rest[1..])
    else if Ahead(ts, LBrack) then
      var i := ParseAt(TERNARY, ts[1..]);
      if i.None? || !Ahead(i.value.rest, RBrack) then None
      else PostfixLoop(Subscript(node, i.value.tree), i.value.rest[1..])
    else Some(Parsed(node, ts))
  }

  function SkipCommas(ts: Tokens): (r: Tokens)
    ensures |r| <= |ts| && !Ahead(r, Comma)
    decreases |ts|
  {
    if Ahead(ts, Comma) then SkipCommas(ts[1..]) else ts
  }

  /** An argument the model does not cover: starred, or with a keyword. */
  predicate AtSpecialArg(ts: Tokens) {
    Ahead(ts, Sym(Star)) || Ahead(ts, DStar) || (|ts| >= 2 && ts[0].Name? && ts[1] == Eq)
  }

  /** The items of a call or a list, up to the closing bracket; any number of commas may stand before an item. */
  function ParseItems(close: Token, ts: Tokens): (r: Option<ParsedItems>)
    ensures r.Some? ==> |r.value.rest| <= |ts|
    decreases |ts|, 50
  {
    var us := SkipCommas(ts);
    if Ahead(ts, close) then Some(ParsedItems([], ts))
    else if us == [] then None
    else if us[0] == close then Some(ParsedItems([], us))
    else if close == RPar && AtSpecialArg(us) then None
    else
      var e := ParseAt(TERNARY, us);
      if e.None? then None else
      var more := ParseItems(close, e.value.rest);
      if more.None? then None else Some(ParsedItems([e.value.tree] + more.value.trees, more.value.rest))
  }

  function ParsePrimary(ts: Tokens): (r: Result)
    ensures r.Some? ==> |r.value.rest| < |ts|
    decreases |ts|, 4
  {
    if ts == [] then None else
    match ts[0]
    case Int(n) => Some(Parsed(Num(n), ts[1..]))
    case Str(s) => Some(Parsed(Text(s), ts[1..]))
    case TrueT => Some(Parsed(Truth(true), ts[1..]))
    case FalseT => Some(Parsed(Truth(false), ts[1..]))
    case NoneT => Some(Parsed(NoneE, ts[1..]))
    case Name(x) => Some(Parsed(Ident(x), ts[1..]))
    case LPar => ParseParens(ts[1..])
    case LBrack =>
      var items := ParseItems(RBrack, ts[1..]);
      if items.None? || !Ahead(items.value.rest, RBrack) then None
      else Some(Parsed(List(items.value.trees), items.value.rest[1..]))
    case _ => None
  }

  /** After an opening parenthesis: a tuple, or a parenthesized expression. */
  function ParseParens(ts: Tokens): (r: Result)
    ensures r.Some? ==> |r.value.rest| < |ts|
    decreases |ts|, 50
  {
    if Ahead(ts, RPar) then Some(Parsed(Tuple([]), ts[1..])) else
    var e := ParseAt(TERNARY, ts);
    if e.None? then None
    else if Ahead(e.value.rest, Comma) then
      var more := TupleLoop(e.value.rest);
      if more.None? || !Ahead(more.value.rest, RPar) then None
      else Some(Parsed(Tuple([e.value.tree] + more.value.trees), more.value.rest[1..]))
    else if Ahead(e.value.rest, RPar) then Some(Parsed(e.value.tree, e.value.rest[1..]))
    else None
  }

  /** The elements of a tuple after its first. */
  function TupleLoop(ts: Tokens): (r: Option<ParsedItems>)
    ensures r.Some? ==> |r.value.rest| <= |ts|
    decreases |ts|, 20
  {
    if !Ahead(ts, Comma) then Some(ParsedItems([], ts))
    else if |ts| == 1 then None
    else if ts[1] == RPar then Some(ParsedItems([], ts[1..]))
    else
      var e := ParseAt(TERNARY, ts[1..]);
      if e.None? then None else
      var more := TupleLoop(e.value.rest);
      if more.None? then None else Some(ParsedItems([e.value.tree] + more.value.trees, more.value.rest))
  }
}
