/** The parser as the program has it: an object with a cursor that `eat` and `skip` move forward. Every method is proved
    to do what the functions in `ExprParser` and `StmtParser` say about the tokens after the cursor. */
module PyParser {
  import opened Wrappers
  import opened Syntax
  import opened ExprParser
  import opened ExprRoundTrip
  import opened StmtParser

  class Parser {
    const tokens: Tokens
    var i: nat

    /** Comments are left out. */
    constructor (tokens: Tokens)
      ensures Valid() && Rest() == NoComments(tokens)
    {
      this.tokens := NoComments(tokens);
      i := 0;
    }

    predicate Valid()
      reads this
    {
      i <= |tokens|
    }

    /** The tokens after the cursor. */
    ghost function Rest(): Tokens
      requires Valid()
      reads this
    {
      tokens[i..]
    }

    /** The parse `spec` is what happened: its tree was returned and the cursor is after it; `None` is a syntax
        error. */
    ghost predicate Did(r: Option<Tree>, spec: Result)
      reads this
    {
      Valid() && match spec { case None => r.None? case Some(p) => r == Some(p.tree) && Rest() == p.rest }
    }

    // ----- the cursor -----

    function Peek(): (t: Option<Token>)
      requires Valid()
      reads this
      ensures t == if Rest() == [] then None else Some(Rest()[0])
    {
      if i < |tokens| then Some(tokens[i]) else None
    }

    function PeekNext(): (t: Option<Token>)
      requires Valid()
      reads this
      ensures t == if |Rest()| < 2 then None else Some(Rest()[1])
    {
      if i + 1 < |tokens| then Some(tokens[i + 1]) else None
    }

    method Eat() returns (t: Token)
      requires Valid() && Rest() != []
      modifies this`i
      ensures Valid() && t == old(Rest())[0] && Rest() == old(Rest())[1..] && i == old(i) + 1
    {
      t := tokens[i];
      i := i + 1;
    }

    /** `eat(expected)`: raises an error when another token is ahead. */
    method Expect(t: Token) returns (ok: bool)
      requires Valid()
      modifies this`i
      ensures Valid() && ok == Ahead(old(Rest()), t)
      ensures ok ==> Rest() == old(Rest())[1..] && i == old(i) + 1
    {
      ok := Peek() == Some(t);
      if ok {
        i := i + 1;
      }
    }

    /** `skip(COMMA)`. */
    method SkipCommas()
      requires Valid()
      modifies this`i
      ensures Valid() && Rest() == ExprParser.SkipCommas(old(Rest())) && i >= old(i)
    {
      while Peek() == Some(Comma)
        invariant old(i) <= i && Valid() && ExprParser.SkipCommas(Rest()) == ExprParser.SkipCommas(old(Rest()))
        decreases |tokens| - i
      {
        i := i + 1;
      }
    }

    // ----- the ladder -----

    method ParseExpr() returns (r: Option<Tree>)
      requires Valid()
      modifies this`i
      ensures Did(r, ParseAt(TERNARY, old(Rest()))) && (r.Some? ==> i > old(i))
      decreases |tokens| - i, 42
    {
      r := ParseTernary();
    }

    method ParseTernary() returns (r: Option<Tree>)
      requires Valid()
      modifies this`i
      ensures Did(r, ParseAt(TERNARY, old(Rest()))) && (r.Some? ==> i > old(i))
      decreases |tokens| - i, 41
    {
      LevelIs(Rest());
      r := ParseInfix(1);
      if r.None? || Peek() != Some(IfT) {
        return;
      }
      var _ := Eat();
      var test := ParseInfix(1);
      if test.None? {
        return None;
      }
      var ok := Expect(ElseT);
      if !ok {
        return None;
      }
      var orelse := ParseTernary();
      if orelse.None? {
        return None;
      }
      r := Some(IfExp(test.value, r.value, orelse.value));
    }

    /** The level just above `k` in the ladder. */
    method ParseAbove(k: nat) returns (r: Option<Tree>)
      requires Valid() && IsInfixLevel(k)
      modifies this`i
      ensures Did(r, ParseAt(k + 1, old(Rest()))) && (r.Some? ==> i > old(i))
      decreases |tokens| - i, 40 - 2 * k
    {
      if IsInfixLevel(k + 1) {
        r := ParseInfix(k + 1);
      } else if k == 2 {
        r := ParseNot();
      } else {
        r := ParseUnary();
      }
    }

    /** `parse_or`, `parse_and`, `parse_bitor` to `parse_mul`: one loop, at level `k`. */
    method ParseInfix(k: nat) returns (r: Option<Tree>)
      requires Valid() && IsInfixLevel(k)
      modifies this`i
      ensures Did(r, ParseAt(k, old(Rest()))) && (r.Some? ==> i > old(i))
      decreases |tokens| - i, 41 - 2 * k
    {
      r := ParseAbove(k);
      if r.None? {
        return;
      }
      var left := r.value;
      while i < |tokens| && tokens[i].Sym? && InfixLevel(tokens[i].op) == k
        invariant old(i) < i && Valid()
        invariant InfixLoop(k, left, Rest()) == ParseAt(k, old(Rest()))
        decreases |tokens| - i
      {
        var t := Eat();
        var right := ParseAbove(k);
        if right.None? {
          return None;
        }
        left := Binary(t.op, left, right.value);
      }
      r := Some(left);
    }

    method ParseNot() returns (r: Option<Tree>)
      requires Valid()
      modifies this`i
      ensures Did(r, ParseAt(NOT, old(Rest()))) && (r.Some? ==> i > old(i))
      decreases |tokens| - i, 35
    {
      if Peek() == Some(NotT) && PeekNext() != Some(Cmp(In)) {
        var _ := Eat();
        r := ParseNot();
        if r.Some? {
          r := Some(NotE(r.value));
        }
        return;
      }
      r := ParseCompare();
    }

    method ParseCompare() returns (r: Option<Tree>)
      requires Valid()
      modifies this`i
      ensures Did(r, ParseAt(COMPARE, old(Rest()))) && (r.Some? ==> i > old(i))
      decreases |tokens| - i, 33
    {
      r := ParseInfix(COMPARE + 1);
      if r.None? {
        return;
      }
      var first, ops, es := r.value, [], [];
      while
        && i < |tokens|
        && ((tokens[i].Cmp? && tokens[i].c != NotIn) || (tokens[i] == NotT && PeekNext() == Some(Cmp(In))))
        invariant old(i) < i && Valid()
        invariant ChainLoop(first, ops, es, Rest()) == ParseAt(COMPARE, old(Rest()))
        decreases |tokens| - i
      {
        var t := Eat();
        var op := NotIn;
        if t == NotT {
          var _ := Eat();
        } else {
          op := t.c;
        }
        var e := ParseInfix(COMPARE + 1);
        if e.None? {
          return None;
        }
        ops, es := ops + [op], es + [e.value];
      }
      r := Some(if ops == [] then first else Compare(first, ops, es));
    }

    method ParseUnary() returns (r: Option<Tree>)
      requires Valid()
      modifies this`i
      ensures Did(r, ParseAt(UNARY, old(Rest()))) && (r.Some? ==> i > old(i))
      decreases |tokens| - i, 19
    {
      if i < |tokens| && (tokens[i] == Sym(Minus) || tokens[i] == Sym(Plus) || tokens[i] == Tilde) {
        var t := Eat();
        r := ParseUnary();
        if r.Some? {
          r := Some(Unary(PrefixOf(t), r.value));
        }
        return;
      }
      r := ParsePower();
    }

    method ParsePower() returns (r: Option<Tree>)
      requires Valid()
      modifies this`i
      ensures Did(r, ParseAt(POWER, old(Rest()))) && (r.Some? ==> i > old(i))
      decreases |tokens| - i, 17
    {
      LevelIs(Rest());
      r := ParseAwait();
      if r.None? || Peek() != Some(DStar) {
        return;
      }
      var _ := Eat();
      var exp := ParseUnary();
      if exp.None? {
        return None;
      }
      r := Some(Power(r.value, exp.value));
    }

    method ParseAwait() returns (r: Option<Tree>)
      requires Valid()
      modifies this`i
      ensures Did(r, ParseAt(AWAIT, old(Rest()))) && (r.Some? ==> i > old(i))
      decreases |tokens| - i, 15
    {
      if Peek() == Some(AwaitT) {
        var _ := Eat();
        r := ParseCallAttr();
        if r.Some? {
          r := Some(Await(r.value));
        }
        return;
      }
      r := ParseCallAttr();
    }

    method ParseCallAttr() returns (r: Option<Tree>)
      requires Valid()
      modifies this`i
      ensures Did(r, ParseAt(POSTFIX, old(Rest()))) && (r.Some? ==> i > old(i))
      decreases |tokens| - i, 13
    {
      r := ParsePrimary();
      if r.None? {
        return;
      }
      while i < |tokens| && (tokens[i] == Dot || tokens[i] == LPar || tokens[i] == LBrack)
        invariant Valid() && old(i) < i && r.Some?
        invariant PostfixLoop(r.value, Rest()) == ParseAt(POSTFIX, old(Rest()))
        decreases |tokens| - i
      {
        r := Trailer(r.value);
        if r.None? {
          return;
        }
      }
    }

    /** One attribute, call or subscript. */
    method Trailer(node: Tree) returns (r: Option<Tree>)
      requires Valid() && (Ahead(Rest(), Dot) || Ahead(Rest(), LPar) || Ahead(Rest(), LBrack))
      modifies this`i
      ensures Valid() && (r.Some? ==> i > old(i))
      ensures r.Some? ==> PostfixLoop(r.value, Rest()) == PostfixLoop(node, old(Rest()))
      ensures r.None? ==> PostfixLoop(node, old(Rest())) == None
      decreases |tokens| - i, 50
    {
      var t := Eat();
      if t == Dot {
        if i < |tokens| && tokens[i].Name? {
          var name := Eat();
          return Some(Attr(node, name.id));
        }
        return None;
      }
      if t == LPar {
        var args := ParseItems(RPar);
        if args.None? {
          return None;
        }
        var ok := Expect(RPar);
        return if ok then Some(MakeCall(node, args.value)) else None;
      }
      var index := ParseExpr();
      if index.None? {
        return None;
      }
      var ok := Expect(RBrack);
      r := if ok then Some(Subscript(node, index.value)) else None;
    }

    predicate SpecialArg()
      requires Valid() && i < |tokens|
      reads this
      ensures SpecialArg() == AtSpecialArg(Rest())
    {
      Peek() == Some(Sym(Star)) || Peek() == Some(DStar) || (tokens[i].Name? && PeekNext() == Some(Eq))
    }

    /** The loops of `parse_callargs` and of list displays. */
    method ParseItems(close: Token) returns (r: Option<seq<Tree>>)
      requires Valid()
      modifies this`i
      ensures Valid() && (r.Some? ==> i >= old(i))
      ensures match ExprParser.ParseItems(close, old(Rest()))
        case None => r.None?
        case Some(p) => r == Some(p.trees) && Rest() == p.rest
      decreases |tokens| - i, 49
    {
      hide ParseAt, ExprParser.ParseItems, ExprParser.SkipCommas, AtSpecialArg;
      var items := [];
      ghost var all := ExprParser.ParseItems(close, Rest());
      JoinNone(all);
      ItemsEnd(close);
      while Peek() != Some(close)
        invariant old(i) <= i && Valid()
        invariant all == Join(items, ExprParser.ParseItems(close, Rest()))
        decreases |tokens| - i
      {
        ghost var ts := Rest();
        SkipCommas();
        if i == |tokens| {
          ItemsMissing(close, ts);
          return None;
        }
        if Peek() == Some(close) {
          ItemsStop(close, ts);
          assert items + [] == items;
          return Some(items);
        }
        ItemsNext(close, ts);
        if close == RPar && SpecialArg() {
          return None;
        }
        var e := ParseExpr();
        if e.None? {
          return None;
        }
        JoinOne(items, e.value, ExprParser.ParseItems(close, Rest()));
        items := items + [e.value];
      }
      assert items + [] == items;
      r := Some(items);
    }

    method ParsePrimary() returns (r: Option<Tree>)
      requires Valid()
      modifies this`i
      ensures Did(r, ParseAt(ATOM, old(Rest()))) && (r.Some? ==> i > old(i))
      decreases |tokens| - i, 11
    {
      LevelIs(Rest());
      PrimaryIs(Rest());
      hide ParseAt, ExprParser.ParseParens, ExprParser.ParseItems, ExprParser.ParsePrimary;
      if i == |tokens| {
        return None;
      }
      var t := Eat();
      match t
      case Int(n) => r := Some(Num(n));
      case Str(s) => r := Some(Text(s));
      case TrueT => r := Some(Truth(true));
      case FalseT => r := Some(Truth(false));
      case NoneT => r := Some(NoneE);
      case Name(x) => r := Some(Ident(x));
      case LPar => r := ParseParens();
      case LBrack => r := ParseList();
      case _ => r := None;
    }

    /** A tree of one token. */
    function Leaf(t: Token): Option<Tree> {
      match t
      case Int(n) => Some(Num(n))
      case Str(s) => Some(Text(s))
      case TrueT => Some(Truth(true))
      case FalseT => Some(Truth(false))
      case NoneT => Some(NoneE)
      case Name(x) => Some(Ident(x))
      case _ => None
    }

    lemma PrimaryIs(ts: Tokens)
      ensures ts == [] ==> ExprParser.ParsePrimary(ts) == None
      ensures ts != [] ==>
        ExprParser.ParsePrimary(ts) ==
        if ts[0] == LPar then ExprParser.ParseParens(ts[1..])
        else if ts[0] == LBrack then ListOf(ExprParser.ParseItems(RBrack, ts[1..]))
        else if Leaf(ts[0]).None? then None
        else Some(Parsed(Leaf(ts[0]).value, ts[1..]))
    {
      hide ExprParser.ParseParens, ExprParser.ParseItems;
    }

    /** After an opening square bracket. */
    method ParseList() returns (r: Option<Tree>)
      requires Valid()
      modifies this`i
      ensures Did(r, ListOf(ExprParser.ParseItems(RBrack, old(Rest())))) && (r.Some? ==> i >= old(i))
      decreases |tokens| - i, 50
    {
      var items := ParseItems(RBrack);
      if items.None? {
        return None;
      }
      var ok := Expect(RBrack);
      r := if ok then Some(List(items.value)) else None;
    }

    /** After an opening parenthesis. */
    method ParseParens() returns (r: Option<Tree>)
      requires Valid()
      modifies this`i
      ensures Did(r, ExprParser.ParseParens(old(Rest()))) && (r.Some? ==> i >= old(i))
      decreases |tokens| - i, 49
    {
      ParensAre(Rest());
      if Peek() == Some(RPar) {
        var _ := Eat();
        return Some(Tuple([]));
      }
      r := ParseExpr();
      if r.None? {
        return None;
      }
      hide ParseAt, TupleLoop, ExprParser.ParseParens;
      if Peek() == Some(Comma) {
        var more := TupleMore();
        if more.None? {
          return None;
        }
        var ok := Expect(RPar);
        return if ok then Some(Tuple([r.value] + more.value)) else None;
      }
      var ok := Expect(RPar);
      if !ok {
        r := None;
      }
    }

    lemma ParensAre(ts: Tokens)
      ensures Ahead(ts, RPar) ==> ExprParser.ParseParens(ts) == Some(Parsed(Tuple([]), ts[1..]))
      ensures !Ahead(ts, RPar) ==> ExprParser.ParseParens(ts) == var e := ParseAt(TERNARY, ts);
        if e.None? then None
        else if Ahead(e.value.rest, Comma) then
          var more := TupleLoop(e.value.rest);
          if more.None? || !Ahead(more.value.rest, RPar) then None
          else Some(Parsed(Tuple([e.value.tree] + more.value.trees), more.value.rest[1..]))
        else if Ahead(e.value.rest, RPar) then Some(Parsed(e.value.tree, e.value.rest[1..]))
        else None
    {
      hide ParseAt, TupleLoop;
    }

    /** The elements of a tuple after its first. */
    method TupleMore() returns (r: Option<seq<Tree>>)
      requires Valid()
      modifies this`i
      ensures Valid() && (r.Some? ==> i >= old(i))
      ensures match TupleLoop(old(Rest()))
        case None => r.None?
        case Some(p) => r == Some(p.trees) && Rest() == p.rest
      decreases |tokens| - i, 48
    {
      var elts := [];
      ghost var all := TupleLoop(Rest());
      JoinNone(all);
      TupleEnds();
      hide ParseAt, TupleLoop;
      while Peek() == Some(Comma)
        invariant old(i) <= i && Valid()
        invariant all == Join(elts, TupleLoop(Rest()))
        decreases |tokens| - i
      {
        TupleUnfold(Rest());
        var _ := Eat();
        if i == |tokens| {
          return None;
        }
        if Peek() == Some(RPar) {
          assert elts + [] == elts;
          return Some(elts);
        }
        var e := ParseExpr();
        if e.None? {
          return None;
        }
        JoinOne(elts, e.value, TupleLoop(Rest()));
        elts := elts + [e.value];
      }
      assert elts + [] == elts;
      r := Some(elts);
    }

    // ----- statements -----

    ghost predicate DidNode(r: Option<Node>, spec: Option<ParsedNode>)
      reads this
    {
      Valid() && match spec { case None => r.None? case Some(p) => r == Some(p.node) && Rest() == p.rest }
    }

    ghost predicate DidNodes(r: Option<seq<Node>>, spec: Option<ParsedNodes>)
      reads this
    {
      Valid() && match spec { case None => r.None? case Some(p) => r == Some(p.nodes) && Rest() == p.rest }
    }

    ghost predicate DidNames(r: Option<seq<string>>, spec: Option<ParsedNames>)
      reads this
    {
      Valid() && match spec { case None => r.None? case Some(p) => r == Some(p.names) && Rest() == p.rest }
    }

    /** `skip(NEWLINE)`. */
    method SkipNewline()
      requires Valid()
      modifies this`i
      ensures Valid() && Rest() == StmtParser.SkipNewline(old(Rest())) && i >= old(i)
    {
      while Peek() == Some(Newline)
        invariant old(i) <= i && Valid() && StmtParser.SkipNewline(Rest()) == StmtParser.SkipNewline(old(Rest()))
        decreases |tokens| - i
      {
        i := i + 1;
      }
    }

    /** `skip_newlines`. */
    method SkipNewlines()
      requires Valid()
      modifies this`i
      ensures Valid() && Rest() == SkipEnds(old(Rest())) && i >= old(i)
    {
      while Peek() == Some(Newline) || Peek() == Some(Semicolon)
        invariant old(i) <= i && Valid() && SkipEnds(Rest()) == SkipEnds(old(Rest()))
        decreases |tokens| - i
      {
        i := i + 1;
      }
    }

    /** After the first value of an assignment. */
    method AssignRest(target: Tree, first: Tree) returns (r: Option<Node>)
      requires Valid()
      modifies this`i
      ensures DidNode(r, AssignLoop([target], first, old(Rest()))) && (r.Some? ==> i >= old(i))
    {
      var targets, value := [target], first;
      while Peek() == Some(Eq)
        invariant old(i) <= i && Valid()
        invariant AssignLoop(targets, value, Rest()) == AssignLoop([target], first, old(Rest()))
        decreases |tokens| - i
      {
        var _ := Eat();
        var e := ParseExpr();
        if e.None? {
          return None;
        }
        targets, value := targets + [value], e.value;
      }
      SkipNewline();
      r := Some(AssignS(targets, value));
    }

    method ParseExprStmt() returns (r: Option<Node>)
      requires Valid()
      modifies this`i
      ensures DidNode(r, StmtParser.ParseExprStmt(old(Rest()))) && (r.Some? ==> i > old(i))
    {
      hide ParseAt, StmtParser.SkipNewline, AssignLoop;
      var e := ParseExpr();
      if e.None? {
        return None;
      }
      if Peek() == Some(Eq) {
        var _ := Eat();
        var v := ParseExpr();
        if v.None? {
          return None;
        }
        r := AssignRest(e.value, v.value);
        return;
      }
      if i < |tokens| && IsAug(tokens[i]) {
        var op := Eat();
        var v := ParseExpr();
        if v.None? {
          return None;
        }
        SkipNewline();
        if e.value.Ident? {
          return Some(AugS(e.value.id, op, v.value));
        }
        return if Peek() == Some(Colon) then None else Some(ExprS(e.value));
      }
      if Peek() == Some(Colon) {
        return None;
      }
      SkipNewline();
      r := Some(ExprS(e.value));
    }

    method ParseReturn() returns (r: Option<Node>)
      requires Valid()
      modifies this`i
      ensures DidNode(r, StmtParser.ParseReturn(old(Rest()))) && (r.Some? ==> i >= old(i))
    {
      hide ParseAt, StmtParser.SkipNewline;
      if i == |tokens| || tokens[i] == Newline || tokens[i] == Semicolon {
        SkipNewline();
        return Some(ReturnS(None));
      }
      var e := ParseExpr();
      if e.None? {
        return None;
      }
      SkipNewline();
      r := Some(ReturnS(Some(e.value)));
    }

    /** A test or an iterable, and the colon after it. */
    method ParseHead() returns (r: Option<Tree>)
      requires Valid()
      modifies this`i
      ensures Did(r, StmtParser.ParseHead(old(Rest()))) && (r.Some? ==> i > old(i))
    {
      hide ParseAt;
      r := ParseExpr();
      if r.None? {
        return;
      }
      var ok := Expect(Colon);
      if !ok {
        r := None;
      }
    }

    method ParseStmt() returns (r: Option<Node>)
      requires Valid()
      modifies this`i
      ensures DidNode(r, StmtParser.ParseStmt(old(Rest()))) && (r.Some? ==> i > old(i))
      decreases |tokens| - i, 2
    {
      StmtIs(Rest());
      SkipNewlines();
      if i == |tokens| {
        return None;
      }
      hide SkipEnds, StmtParser.ParseStmt, StmtParser.ParseExprStmt;
      hide StmtParser.SkipNewline, ParseIf, ParseWhile, ParseFor, ParseDef;
      if tokens[i] in [PassT, BreakT, ContinueT] {
        var t := Eat();
        SkipNewline();
        return Some(if t == PassT then PassS else if t == BreakT then BreakS else ContinueS);
      }
      if tokens[i] in [IfT, WhileT, ForT, DefT, ReturnT] {
        var t := Eat();
        if t == IfT {
          r := ParseIfRest();
        } else if t == WhileT {
          r := ParseWhileRest();
        } else if t == ForT {
          r := ParseForRest();
        } else if t == DefT {
          r := ParseDefRest();
        } else {
          r := ParseReturn();
        }
        return;
      }
      r := ParseExprStmt();
    }

    lemma StmtIs(ts: Tokens)
      ensures StmtParser.ParseStmt(ts) ==
        var us := SkipEnds(ts);
        if us == [] then None
        else if us[0] == IfT then ParseIf(us[1..])
        else if us[0] == WhileT then ParseWhile(us[1..])
        else if us[0] == ForT then ParseFor(us[1..])
        else if us[0] == DefT then ParseDef(us[1..])
        else if us[0] == ReturnT then StmtParser.ParseReturn(us[1..])
        else if us[0] in [PassT, BreakT, ContinueT] then Some(ParsedNode(
          if us[0] == PassT then PassS else if us[0] == BreakT then BreakS else ContinueS,
            StmtParser.SkipNewline(us[1..])))
        else StmtParser.ParseExprStmt(us)
    {
      hide SkipEnds, ParseIf, ParseWhile;
      hide ParseFor, ParseDef, StmtParser.ParseReturn, StmtParser.ParseExprStmt, StmtParser.SkipNewline;
    }

    /** `parse_block`. */
    method ParseBlock() returns (r: Option<seq<Node>>)
      requires Valid()
      modifies this`i
      ensures DidNodes(r, StmtParser.ParseBlock(old(Rest()))) && (r.Some? ==> i >= old(i))
      decreases |tokens| - i, 3
    {
      BlockIs(Rest());
      SkipNewlines();
      if i == |tokens| {
        return Some([]);
      }
      hide SkipEnds, StmtParser.ParseStmt, BlockLoop, StmtParser.ParseBlock;
      if tokens[i] == Indent {
        var _ := Eat();
        r := ParseIndented();
        return;
      }
      var s := ParseStmt();
      if s.None? {
        return None;
      }
      r := Some([s.value]);
    }

    lemma BlockIs(ts: Tokens)
      ensures StmtParser.ParseBlock(ts) ==
        var us := SkipEnds(ts);
        if us == [] then Some(ParsedNodes([], us))
        else if us[0] == Indent then BlockLoop(us[1..])
        else
          var s := StmtParser.ParseStmt(us);
          if s.None? then None else Some(ParsedNodes([s.value.node], s.value.rest))
    {
      hide SkipEnds, StmtParser.ParseStmt, BlockLoop;
    }

    /** The statements of an indented block, and its DEDENT. */
    method ParseIndented() returns (r: Option<seq<Node>>)
      requires Valid()
      modifies this`i
      ensures DidNodes(r, BlockLoop(old(Rest()))) && (r.Some? ==> i >= old(i))
      decreases |tokens| - i, 3
    {
      var body := [];
      ghost var all := BlockLoop(Rest());
      JoinNoNodes(all);
      SkipIdle(Rest());
      hide StmtParser.ParseStmt, SkipEnds, BlockLoop;
      SkipNewlines();
      while i < |tokens| && tokens[i] != Dedent
        invariant old(i) <= i && Valid() && SkipEnds(Rest()) == Rest()
        invariant all == JoinNodes(body, BlockLoop(Rest()))
        decreases |tokens| - i
      {
        BlockNext(Rest());
        var s := ParseStmt();
        if s.None? {
          return None;
        }
        JoinNode(body, s.value, BlockLoop(Rest()));
        body := body + [s.value];
        SkipIdle(Rest());
        SkipNewlines();
      }
      BlockEnd(Rest());
      if i < |tokens| {
        var _ := Eat();
      }
      assert body + [] == body;
      r := Some(body);
    }

    lemma SkipIdle(ts: Tokens)
      ensures SkipEnds(SkipEnds(ts)) == SkipEnds(ts) && BlockLoop(SkipEnds(ts)) == BlockLoop(ts)
    {
      var us := SkipEnds(ts);
      assert SkipEnds(us) == us;
      hide StmtParser.ParseStmt;
    }

    lemma BlockNext(ts: Tokens)
      requires SkipEnds(ts) == ts && ts != [] && ts[0] != Dedent
      ensures BlockLoop(ts) == var s := StmtParser.ParseStmt(ts);
        if s.None? then None else JoinNodes([s.value.node], BlockLoop(s.value.rest))
    {
      hide SkipEnds, StmtParser.ParseStmt;
    }

    lemma BlockEnd(ts: Tokens)
      requires SkipEnds(ts) == ts && (ts == [] || ts[0] == Dedent)
      ensures BlockLoop(ts) == Some(ParsedNodes([], if ts == [] then ts else ts[1..]))
    {
      hide SkipEnds, StmtParser.ParseStmt;
    }

    /** The `elif` clauses. */
    method ParseElifs() returns (r: Option<seq<Arm>>)
      requires Valid()
      modifies this`i
      ensures Valid() && (r.Some? ==> i >= old(i))
      ensures match ParseArms(old(Rest()))
        case None => r.None?
        case Some(p) => r == Some(p.arms) && Rest() == p.rest
      decreases |tokens| - i, 1
    {
      hide SkipEnds, ParseArms, StmtParser.ParseHead, StmtParser.ParseBlock;
      var arms := [];
      ghost var all := ParseArms(Rest());
      JoinNoArms(all);
      ArmsAre(Rest());
      SkipNewlines();
      while Peek() == Some(ElifT)
        invariant old(i) <= i && Valid() && SkipEnds(Rest()) == Rest()
        invariant all == JoinArms(arms, ParseArms(Rest()))
        decreases |tokens| - i
      {
        ArmsAre(Rest());
        var _ := Eat();
        var test := ParseHead();
        if test.None? {
          return None;
        }
        var body := ParseBlock();
        if body.None? {
          return None;
        }
        JoinArm(arms, Arm(test.value, body.value), ParseArms(Rest()));
        arms := arms + [Arm(test.value, body.value)];
        ArmsAre(Rest());
        SkipNewlines();
      }
      ArmsAre(Rest());
      assert arms + [] == arms;
      r := Some(arms);
    }

    lemma ArmsAre(ts: Tokens)
      ensures ParseArms(ts) ==
        var us := SkipEnds(ts);
        if !Ahead(us, ElifT) then Some(ParsedArms([], us)) else
        var test := StmtParser.ParseHead(us[1..]);
        if test.None? then None else
        var body := StmtParser.ParseBlock(test.value.rest);
        if body.None? then None else JoinArms([Arm(test.value.tree, body.value.nodes)], ParseArms(body.value.rest))
      ensures ParseArms(SkipEnds(ts)) == ParseArms(ts) && SkipEnds(SkipEnds(ts)) == SkipEnds(ts)
    {
      var us := SkipEnds(ts);
      assert SkipEnds(us) == us;
      hide SkipEnds, StmtParser.ParseHead, StmtParser.ParseBlock;
    }

    method ParseElse() returns (r: Option<seq<Node>>)
      requires Valid()
      modifies this`i
      ensures DidNodes(r, StmtParser.ParseElse(old(Rest()))) && (r.Some? ==> i >= old(i))
      decreases |tokens| - i, 0
    {
      hide StmtParser.ParseBlock;
      if Peek() != Some(ElseT) {
        return Some([]);
      }
      var _ := Eat();
      var ok := Expect(Colon);
      if !ok {
        return None;
      }
      r := ParseBlock();
    }

    /** `parse_if`, after `if`. */
    method ParseIfRest() returns (r: Option<Node>)
      requires Valid()
      modifies this`i
      ensures DidNode(r, ParseIf(old(Rest()))) && (r.Some? ==> i >= old(i))
      decreases |tokens| - i, 4
    {
      hide StmtParser.ParseHead, StmtParser.ParseBlock, ParseArms, StmtParser.ParseElse;
      var test := ParseHead();
      if test.None? {
        return None;
      }
      var body := ParseBlock();
      if body.None? {
        return None;
      }
      var elifs := ParseElifs();
      if elifs.None? {
        return None;
      }
      var orelse := ParseElse();
      if orelse.None? {
        return None;
      }
      r := Some(IfS(test.value, body.value, elifs.value, orelse.value));
    }

    /** `parse_while`, after `while`. */
    method ParseWhileRest() returns (r: Option<Node>)
      requires Valid()
      modifies this`i
      ensures DidNode(r, ParseWhile(old(Rest()))) && (r.Some? ==> i >= old(i))
      decreases |tokens| - i, 4
    {
      hide StmtParser.ParseHead, StmtParser.ParseBlock, StmtParser.ParseElse, SkipEnds;
      var test := ParseHead();
      if test.None? {
        return None;
      }
      var body := ParseBlock();
      if body.None? {
        return None;
      }
      SkipNewlines();
      var orelse := ParseElse();
      if orelse.None? {
        return None;
      }
      r := Some(WhileS(test.value, body.value, orelse.value));
    }

    /** `parse_for`, after `for`. */
    method ParseForRest() returns (r: Option<Node>)
      requires Valid()
      modifies this`i
      ensures DidNode(r, ParseFor(old(Rest()))) && (r.Some? ==> i >= old(i))
      decreases |tokens| - i, 4
    {
      hide StmtParser.ParseHead, StmtParser.ParseBlock, StmtParser.ParseElse, SkipEnds;
      if i + 1 >= |tokens| || !tokens[i].Name? || tokens[i + 1] != Cmp(In) {
        return None;
      }
      var target := Eat();
      var _ := Eat();
      var iter := ParseHead();
      if iter.None? {
        return None;
      }
      var body := ParseBlock();
      if body.None? {
        return None;
      }
      SkipNewlines();
      var orelse := ParseElse();
      if orelse.None? {
        return None;
      }
      r := Some(ForS(target.id, iter.value, body.value, orelse.value));
    }

    /** `parse_funcargs`. */
    method ParseParams() returns (r: Option<seq<string>>)
      requires Valid()
      modifies this`i
      ensures DidNames(r, StmtParser.ParseParams(old(Rest()))) && (r.Some? ==> i >= old(i))
    {
      var names: seq<string> := [];
      ghost var all := StmtParser.ParseParams(Rest());
      JoinNoNames(all);
      ParamsEnd();
      while Peek() != None && Peek() != Some(RPar)
        invariant old(i) <= i && Valid()
        invariant all == JoinNames(names, StmtParser.ParseParams(Rest()))
        decreases |tokens| - i
      {
        ParamsIs(Rest());
        hide StmtParser.ParseParams, ExprParser.SkipCommas;
        SkipCommas();
        if Peek() == None || Peek() == Some(RPar) {
          break;
        }
        if !Peek().value.Name? {
          return None;
        }
        var x := Eat();
        if Peek() == Some(Colon) || Peek() == Some(Eq) {
          return None;
        }
        JoinOneName(names, x.id, StmtParser.ParseParams(Rest()));
        names := names + [x.id];
      }
      assert names + [] == names;
      r := Some(names);
    }

    lemma ParamsIs(ts: Tokens)
      requires ts != [] && ts[0] != RPar
      ensures StmtParser.ParseParams(ts) == var us := ExprParser.SkipCommas(ts);
        if us == [] || us[0] == RPar then Some(ParsedNames([], us))
        else if !us[0].Name? || Ahead(us[1..], Colon) || Ahead(us[1..], Eq) then None
        else JoinNames([us[0].id], StmtParser.ParseParams(us[1..]))
    {
      hide ExprParser.SkipCommas;
    }

    lemma ParamsEnd()
      ensures forall ts: Tokens :: ts == [] || ts[0] == RPar ==> StmtParser.ParseParams(ts) == Some(ParsedNames([], ts))
    {
    }

    /** `parse_funcdef`, after `def`. */
    method ParseDefRest() returns (r: Option<Node>)
      requires Valid()
      modifies this`i
      ensures DidNode(r, ParseDef(old(Rest()))) && (r.Some? ==> i >= old(i))
      decreases |tokens| - i, 4
    {
      hide StmtParser.ParseBlock, StmtParser.ParseParams;
      if i + 1 >= |tokens| || !tokens[i].Name? || tokens[i + 1] != LPar {
        return None;
      }
      var name := Eat();
      var _ := Eat();
      var params := ParseParams();
      if params.None? {
        return None;
      }
      var closed := Expect(RPar);
      if !closed {
        return None;
      }
      var headed := Expect(Colon);
      if !headed {
        return None;
      }
      var body := ParseBlock();
      if body.None? {
        return None;
      }
      r := Some(DefS(name.id, params.value, body.value));
    }

    /** `parse`: the whole program. */
    method ParseProgram() returns (r: Option<seq<Node>>)
      requires Valid()
      modifies this`i
      ensures Valid() && r == StmtParser.ParseProgram(old(Rest()))
    {
      var body := [];
      ghost var all := StmtParser.ParseProgram(Rest());
      JoinNoProgram(all);
      ProgramIs(Rest());
      SkipNewlines();
      while i < |tokens|
        invariant old(i) <= i && Valid() && SkipEnds(Rest()) == Rest()
        invariant all == JoinProgram(body, StmtParser.ParseProgram(Rest()))
        decreases |tokens| - i
      {
        ProgramIs(Rest());
        hide SkipEnds, StmtParser.ParseProgram, StmtParser.ParseStmt;
        var s := ParseStmt();
        if s.None? {
          return None;
        }
        JoinOneProgram(body, s.value, StmtParser.ParseProgram(Rest()));
        body := body + [s.value];
        ProgramIs(Rest());
        SkipNewlines();
      }
      ProgramIs(Rest());
      assert body + [] == body;
      r := Some(body);
    }

    lemma ProgramIs(ts: Tokens)
      ensures StmtParser.ParseProgram(ts) ==
        var us := SkipEnds(ts);
        if us == [] then Some([]) else
        var s := StmtParser.ParseStmt(us);
        if s.None? then None else JoinProgram([s.value.node], StmtParser.ParseProgram(s.value.rest))
      ensures StmtParser.ParseProgram(SkipEnds(ts)) == StmtParser.ParseProgram(ts)
      ensures SkipEnds(SkipEnds(ts)) == SkipEnds(ts)
    {
      var us := SkipEnds(ts);
      assert SkipEnds(us) == us;
      hide SkipEnds, StmtParser.ParseStmt;
    }
  }

  lemma ItemsMissing(close: Token, ts: Tokens)
    requires !Ahead(ts, close) && ExprParser.SkipCommas(ts) == []
    ensures ExprParser.ParseItems(close, ts) == None
  {
    hide ParseAt, ExprParser.SkipCommas;
  }

  /** Commas may stand before the closing bracket. */
  lemma ItemsStop(close: Token, ts: Tokens)
    requires !Ahead(ts, close) && Ahead(ExprParser.SkipCommas(ts), close)
    ensures ExprParser.ParseItems(close, ts) == Some(ParsedItems([], ExprParser.SkipCommas(ts)))
  {
    hide ParseAt, ExprParser.SkipCommas;
  }

  lemma ItemsNext(close: Token, ts: Tokens)
    requires var us := ExprParser.SkipCommas(ts); !Ahead(ts, close) && us != [] && !Ahead(us, close)
    ensures ExprParser.ParseItems(close, ts) == var us := ExprParser.SkipCommas(ts);
      if close == RPar && AtSpecialArg(us) then None
      else
        var e := ParseAt(TERNARY, us);
        if e.None? then None else Join([e.value.tree], ExprParser.ParseItems(close, e.value.rest))
  {
    hide ParseAt, ExprParser.SkipCommas;
  }

  lemma ItemsEnd(close: Token)
    ensures forall ts: Tokens :: Ahead(ts, close) ==> ExprParser.ParseItems(close, ts) == Some(ParsedItems([], ts))
  {
  }

  lemma TupleUnfold(ts: Tokens)
    requires Ahead(ts, Comma)
    ensures TupleLoop(ts) ==
      if |ts| == 1 then None
      else if ts[1] == RPar then Some(ParsedItems([], ts[1..]))
      else
        var e := ParseAt(TERNARY, ts[1..]);
        if e.None? then None else Join([e.value.tree], TupleLoop(e.value.rest))
  {
    hide ParseAt;
  }

  lemma TupleEnds()
    ensures forall ts: Tokens :: !Ahead(ts, Comma) ==> TupleLoop(ts) == Some(ParsedItems([], ts))
  {
  }

  function JoinNames(done: seq<string>, more: Option<ParsedNames>): Option<ParsedNames> {
    if more.None? then None else Some(ParsedNames(done + more.value.names, more.value.rest))
  }

  lemma JoinNoNames(more: Option<ParsedNames>)
    ensures JoinNames([], more) == more
  {
    if more.Some? {
      assert [] + more.value.names == more.value.names;
    }
  }

  lemma JoinOneName(done: seq<string>, x: string, more: Option<ParsedNames>)
    ensures JoinNames(done + [x], more) == JoinNames(done, JoinNames([x], more))
  {
    if more.Some? {
      assert done + [x] + more.value.names == done + ([x] + more.value.names);
    }
  }

  function JoinNodes(done: seq<Node>, more: Option<ParsedNodes>): Option<ParsedNodes> {
    if more.None? then None else Some(ParsedNodes(done + more.value.nodes, more.value.rest))
  }

  lemma JoinNoNodes(more: Option<ParsedNodes>)
    ensures JoinNodes([], more) == more
  {
    if more.Some? {
      assert [] + more.value.nodes == more.value.nodes;
    }
  }

  lemma JoinNode(done: seq<Node>, n: Node, more: Option<ParsedNodes>)
    ensures JoinNodes(done + [n], more) == JoinNodes(done, JoinNodes([n], more))
  {
    if more.Some? {
      assert done + [n] + more.value.nodes == done + ([n] + more.value.nodes);
    }
  }

  function JoinArms(done: seq<Arm>, more: Option<ParsedArms>): Option<ParsedArms> {
    if more.None? then None else Some(ParsedArms(done + more.value.arms, more.value.rest))
  }

  lemma JoinNoArms(more: Option<ParsedArms>)
    ensures JoinArms([], more) == more
  {
    if more.Some? {
      assert [] + more.value.arms == more.value.arms;
    }
  }

  lemma JoinArm(done: seq<Arm>, a: Arm, more: Option<ParsedArms>)
    ensures JoinArms(done + [a], more) == JoinArms(done, JoinArms([a], more))
  {
    if more.Some? {
      assert done + [a] + more.value.arms == done + ([a] + more.value.arms);
    }
  }

  function JoinProgram(done: seq<Node>, more: Option<seq<Node>>): Option<seq<Node>> {
    if more.None? then None else Some(done + more.value)
  }

  lemma JoinNoProgram(more: Option<seq<Node>>)
    ensures JoinProgram([], more) == more
  {
    if more.Some? {
      assert [] + more.value == more.value;
    }
  }

  lemma JoinOneProgram(done: seq<Node>, n: Node, more: Option<seq<Node>>)
    ensures JoinProgram(done + [n], more) == JoinProgram(done, JoinProgram([n], more))
  {
    if more.Some? {
      assert done + [n] + more.value == done + ([n] + more.value);
    }
  }

  function ListOf(items: Option<ParsedItems>): Result {
    if items.None? || !Ahead(items.value.rest, RBrack) then None
    else Some(Parsed(List(items.value.trees), items.value.rest[1..]))
  }

  /** The items so far, and the ones still to be parsed. */
  function Join(items: seq<Tree>, more: Option<ParsedItems>): Option<ParsedItems> {
    if more.None? then None else Some(ParsedItems(items + more.value.trees, more.value.rest))
  }

  lemma JoinNone(more: Option<ParsedItems>)
    ensures Join([], more) == more
  {
    if more.Some? {
      assert [] + more.value.trees == more.value.trees;
    }
  }

  lemma JoinOne(items: seq<Tree>, e: Tree, more: Option<ParsedItems>)
    ensures Join(items + [e], more) == Join(items, Join([e], more))
  {
    if more.Some? {
      assert items + [e] + more.value.trees == items + ([e] + more.value.trees);
    }
  }
}
