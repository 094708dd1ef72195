/** The expression parser inverts the minimal-parenthesis printer. */
module ExprRoundTrip {
  import opened Wrappers
  import opened Syntax
  import opened ExprParser

  // ----- what may stand before and after an expression -----

  /** The level at which a token continues an expression that could end before it; -1 when it does not. */
  function Continues(t: Token): int {
    match t
    case Sym(op) => InfixLevel(op)
    case Cmp(_) => COMPARE
    case NotT => COMPARE
    case DStar => POWER
    case IfT => TERNARY
    case Dot => POSTFIX
    case LPar => POSTFIX
    case LBrack => POSTFIX
    case _ => -1
  }

  /** An expression parsed at level `k` ends before `rest`. */
  predicate Stops(k: nat, rest: Tokens) {
    rest == [] || Continues(rest[0]) < k
  }

  /** A token that can start an expression of level `k`. */
  predicate Starts(t: Token, k: nat) {
    match t
    case Int(_) => true
    case Str(_) => true
    case TrueT => true
    case FalseT => true
    case NoneT => true
    case Name(_) => true
    case LPar => true
    case LBrack => true
    case Sym(op) => (op.Minus? || op.Plus?) && k <= UNARY
    case Tilde => k <= UNARY
    case NotT => k <= NOT
    case AwaitT => k <= AWAIT
    case _ => false
  }

  lemma StartsLower(t: Token, j: nat, k: nat)
    requires Starts(t, k) && j <= k
    ensures Starts(t, j)
  {
  }

  /** The first token of a printed tree. */
  lemma {:induction false} ShowStarts(e: Tree, k: nat)
    requires k <= ATOM
    ensures Show(e, k) != [] && Starts(Show(e, k)[0], k)
    ensures ShowBare(e) != [] && Starts(ShowBare(e)[0], Level(e))
    decreases e, 1
  {
    BareStarts(e);
    hide ShowBare;
    if Level(e) >= k {
      StartsLower(ShowBare(e)[0], k, Level(e));
    }
  }

  lemma {:induction false} BareStarts(e: Tree)
    ensures ShowBare(e) != [] && Starts(ShowBare(e)[0], Level(e))
    decreases e, 0
  {
    hide ShowItems, ShowChain;
    match e
    case Binary(op, l, r) => ShowStarts(l, InfixLevel(op));
    case Power(b, x) => ShowStarts(b, AWAIT);
    case Compare(first, _, _) => ShowStarts(first, COMPARE + 1);
    case IfExp(_, b, _) => ShowStarts(b, 1);
    case Call(f, _) => ShowStarts(f, POSTFIX);
    case Attr(obj, _) => ShowStarts(obj, POSTFIX);
    case Subscript(obj, _) => ShowStarts(obj, POSTFIX);
    case _ =>
    hide Show;
  }

  predicate NoEq(ts: Tokens) {
    forall t <- ts :: t != Eq
  }

  lemma NoEqAppend(a: Tokens, b: Tokens)
    requires NoEq(a) && NoEq(b)
    ensures NoEq(a + b)
  {
  }

  lemma NoEqTokens()
    ensures NoEq([LPar]) && NoEq([RPar]) && NoEq([Comma, RPar]) && NoEq([DStar]) && NoEq([IfT]) && NoEq([ElseT])
    ensures NoEq([Name("print"), LPar]) && NoEq([Name("range"), LPar]) && NoEq([LBrack]) && NoEq([RBrack]) && NoEq([])
    ensures NoEq([NotT]) && NoEq([AwaitT]) && NoEq([Comma])
    ensures forall p: Prefix :: NoEq([PrefixToken(p)])
    ensures forall op: Infix :: NoEq([Sym(op)])
    ensures forall op: CmpOp :: NoEq(CmpTokens(op))
    ensures forall x: string :: NoEq([Dot, Name(x)])
  {
  }

  /** A printed tree has no `=`. */
  lemma {:induction false} ShowNoEq(e: Tree, k: nat)
    ensures NoEq(Show(e, k)) && NoEq(ShowBare(e))
    decreases e, 1
  {
    NoEqTokens();
    hide NoEq;
    BareNoEq(e);
    NoEqAppend([LPar], ShowBare(e));
    NoEqAppend([LPar] + ShowBare(e), [RPar]);
  }

  lemma {:induction false} BareNoEq(e: Tree)
    ensures NoEq(ShowBare(e))
    decreases e, 0
  {
    if e.Call? || e.Print? || e.Range? || e.Tuple? || e.List? {
      BracketsNoEq(e);
    } else {
      hide ShowItems;
      match e
      case Unary(p, a) => ShowNoEq(a, UNARY);
      case NotE(a) => ShowNoEq(a, NOT);
      case Binary(op, l, r) =>
        ShowNoEq(l, InfixLevel(op));
        ShowNoEq(r, InfixLevel(op) + 1);
      case Power(b, x) =>
        ShowNoEq(b, AWAIT);
        ShowNoEq(x, UNARY);
      case Compare(first, ops, rest) =>
        ShowNoEq(first, COMPARE + 1);
        ChainNoEq(ops, rest);
      case IfExp(t, b, o) =>
        ShowNoEq(b, 1);
        ShowNoEq(t, 1);
        ShowNoEq(o, TERNARY);
      case Await(a) => ShowNoEq(a, POSTFIX);
      case Attr(obj, _) => ShowNoEq(obj, POSTFIX);
      case Subscript(obj, i) =>
        ShowNoEq(obj, POSTFIX);
        ShowNoEq(i, TERNARY);
      case _ =>
    }
  }

  lemma {:induction false} BracketsNoEq(e: Tree)
    requires e.Call? || e.Print? || e.Range? || e.Tuple? || e.List?
    ensures NoEq(ShowBare(e))
    decreases e, -1
  {
    match e
    case Call(f, args) =>
      ShowNoEq(f, POSTFIX);
      ItemsNoEq(args);
    case Print(args) => ItemsNoEq(args);
    case Range(args) => ItemsNoEq(args);
    case Tuple(es) => ItemsNoEq(es);
    case List(es) => ItemsNoEq(es);
    hide ShowItems, Show;
  }

  lemma {:induction false} ChainNoEq(ops: seq<CmpOp>, rest: seq<Tree>)
    ensures NoEq(ShowChain(ops, rest))
    decreases rest, 0
  {
    if ops != [] && rest != [] {
      ShowNoEq(rest[0], COMPARE + 1);
      ChainNoEq(ops[1..], rest[1..]);
    }
  }

  lemma {:induction false} ItemsNoEq(es: seq<Tree>)
    ensures NoEq(ShowItems(es)) && NoEq(ShowMore(es))
    ensures es != [] ==> NoEq(Show(es[0], TERNARY))
    decreases es, 0
  {
    if es != [] {
      ShowNoEq(es[0], TERNARY);
      ItemsNoEq(es[1..]);
    }
  }

  // ----- from a level to a looser one -----

  lemma InfixIs(k: nat, ts: Tokens)
    requires IsInfixLevel(k)
    ensures ParseAt(k, ts) == var left := ParseAt(k + 1, ts);
      if left.None? then None else InfixLoop(k, left.value.tree, left.value.rest)
  {
    hide InfixLoop;
  }

  lemma NotIs(ts: Tokens)
    ensures !Ahead(ts, NotT) ==> ParseAt(NOT, ts) == ParseAt(COMPARE, ts)
    ensures Ahead(ts, NotT) && !AtNotIn(ts) ==> ParseAt(NOT, ts) == var a := ParseAt(NOT, ts[1..]);
      if a.None? then None else Some(Parsed(NotE(a.value.tree), a.value.rest))
  {
    hide ParseCompare;
  }

  lemma UnaryIs(ts: Tokens)
    ensures !AtPrefix(ts) ==> ParseAt(UNARY, ts) == ParseAt(POWER, ts)
    ensures AtPrefix(ts) ==> ParseAt(UNARY, ts) == var a := ParseAt(UNARY, ts[1..]);
      if a.None? then None else Some(Parsed(Unary(PrefixOf(ts[0]), a.value.tree), a.value.rest))
  {
    hide ParsePower;
  }

  lemma AwaitIs(ts: Tokens)
    ensures !Ahead(ts, AwaitT) ==> ParseAt(AWAIT, ts) == ParseAt(POSTFIX, ts)
    ensures Ahead(ts, AwaitT) ==> ParseAt(AWAIT, ts) == var a := ParseAt(POSTFIX, ts[1..]);
      if a.None? then None else Some(Parsed(Await(a.value.tree), a.value.rest))
  {
    hide PostfixLoop;
  }

  lemma PostfixIs(ts: Tokens)
    ensures ParseAt(POSTFIX, ts) == var a := ParseAt(ATOM, ts);
      if a.None? then None else PostfixLoop(a.value.tree, a.value.rest)
  {
    hide PostfixLoop, ParsePrimary;
  }

  lemma LevelIs(ts: Tokens)
    ensures ParseAt(TERNARY, ts) == ParseTernary(ts) && ParseAt(COMPARE, ts) == ParseCompare(ts)
    ensures ParseAt(POWER, ts) == ParsePower(ts) && ParseAt(ATOM, ts) == ParsePrimary(ts)
  {
    hide ParseTernary, ParseCompare, ParsePower, ParsePrimary;
  }

  /** What the loops and the tails do at the end of an expression. */
  lemma StopsHere(k: nat, e: Tree, rest: Tokens)
    requires Stops(k, rest)
    ensures IsInfixLevel(k) ==> InfixLoop(k, e, rest) == Some(Parsed(e, rest))
    ensures k == TERNARY ==> !Ahead(rest, IfT)
    ensures k == COMPARE ==> ChainLoop(e, [], [], rest) == Some(Parsed(e, rest))
    ensures k == POWER ==> !Ahead(rest, DStar)
    ensures k == POSTFIX ==> PostfixLoop(e, rest) == Some(Parsed(e, rest))
  {
    hide ParseAt, ParseItems;
  }

  lemma StartsPlain(ts: Tokens, k: nat)
    requires ts != [] && Starts(ts[0], k + 1)
    ensures k == NOT ==> !Ahead(ts, NotT)
    ensures k == UNARY ==> !AtPrefix(ts)
    ensures k == AWAIT ==> !Ahead(ts, AwaitT)
  {
  }

  lemma TailsAre(ts: Tokens)
    ensures var body := ParseAt(1, ts); body.None? || !Ahead(body.value.rest, IfT) ==> ParseTernary(ts) == body
    ensures var first := ParseAt(COMPARE + 1, ts);
      first.Some? ==> ParseCompare(ts) == ChainLoop(first.value.tree, [], [], first.value.rest)
    ensures var base := ParseAt(AWAIT, ts); base.None? || !Ahead(base.value.rest, DStar) ==> ParsePower(ts) == base
  {
    hide ParseAt, ChainLoop;
  }

  lemma Levels()
    ensures TERNARY == 0 && NOT == 3 && COMPARE == 4 && UNARY == 11 && POWER == 12 && AWAIT == 13 && POSTFIX == 14
      && ATOM == 15
  {
  }

  lemma Down(k: nat, ts: Tokens, e: Tree, rest: Tokens)
    requires k < ATOM && ParseAt(k + 1, ts) == Some(Parsed(e, rest))
    requires ts != [] && Starts(ts[0], k + 1) && Stops(k, rest)
    ensures ParseAt(k, ts) == Some(Parsed(e, rest))
  {
    hide *;
    Levels();
    StopsHere(k, e, rest);
    StartsPlain(ts, k);
    LevelIs(ts);
    TailsAre(ts);
    NotIs(ts);
    UnaryIs(ts);
    AwaitIs(ts);
    PostfixIs(ts);
    InfixLevelsAre(k);
    if IsInfixLevel(k) {
      InfixIs(k, ts);
    }
  }

  lemma InfixLevelsAre(k: nat)
    requires k < ATOM
    ensures IsInfixLevel(k) || k in {TERNARY, NOT, COMPARE, UNARY, POWER, AWAIT, POSTFIX}
  {
  }

  lemma {:induction false} Descend(k: nat, j: nat, ts: Tokens, e: Tree, rest: Tokens)
    requires k <= j <= ATOM && ParseAt(j, ts) == Some(Parsed(e, rest))
    requires ts != [] && Starts(ts[0], j) && Stops(k, rest)
    ensures ParseAt(k, ts) == Some(Parsed(e, rest))
    decreases j - k
  {
    hide ParseAt;
    if k < j {
      StartsLower(ts[0], k + 1, j);
      Descend(k + 1, j, ts, e, rest);
      Down(k, ts, e, rest);
    }
  }

  // ----- round trip -----

  /** Parsing a printed tree at any level gives it back, and stops right after it. */
  lemma {:induction false} Parses(e: Tree, k: nat, rest: Tokens)
    requires WellFormed(e) && k <= ATOM && Stops(k, rest)
    ensures ParseAt(k, Show(e, k) + rest) == Some(Parsed(e, rest))
    decreases e, if Level(e) < k then 3 else 2
  {
    hide *;
    Levels();
    ShowStarts(e, k);
    LevelShows(e, k, rest);
    var ts := Show(e, k) + rest;
    if Level(e) < k {
      LevelShows(e, TERNARY, [RPar] + rest);
      var us := ShowBare(e) + ([RPar] + rest);
      ShowStarts(e, TERNARY);
      ParenStops(us, rest);
      Parses(e, TERNARY, [RPar] + rest);
      ParensParse(ts, e, rest);
      Descend(k, ATOM, ts, e, rest);
    } else {
      StopsHigher(k, Level(e), rest);
      Own(e, rest);
      Descend(k, Level(e), ts, e, rest);
    }
  }

  lemma LevelShows(e: Tree, k: nat, rest: Tokens)
    requires k <= ATOM
    ensures Level(e) < k ==>
      var ts := Show(e, k) + rest;
      && ts == [LPar] + (ShowBare(e) + ([RPar] + rest)) && ts[1..] == ShowBare(e) + ([RPar] + rest)
      && Ahead(ts, LPar) && Starts(ts[0], ATOM)
    ensures Level(e) >= k ==> Show(e, k) + rest == ShowBare(e) + rest
    ensures ShowBare(e) != [] && Starts((ShowBare(e) + rest)[0], Level(e))
  {
    ShowStarts(e, k);
    hide ShowBare;
  }

  lemma ParenStops(us: Tokens, rest: Tokens)
    requires us != [] && Starts(us[0], TERNARY)
    ensures Stops(TERNARY, [RPar] + rest) && !Ahead(us, RPar)
  {
  }

  lemma StopsHigher(k: nat, j: nat, rest: Tokens)
    requires Stops(k, rest) && k <= j
    ensures Stops(j, rest)
  {
  }

  lemma ParensParse(ts: Tokens, e: Tree, rest: Tokens)
    requires Ahead(ts, LPar) && ParseAt(TERNARY, ts[1..]) == Some(Parsed(e, [RPar] + rest)) && !Ahead(ts[1..], RPar)
    ensures ParseAt(ATOM, ts) == Some(Parsed(e, rest))
  {
    hide ParseAt;
    LevelIs(ts);
    assert ([RPar] + rest)[1..] == rest;
  }

  /** A tree printed without parentheses, parsed at its own level. */
  lemma {:induction false} Own(e: Tree, rest: Tokens)
    requires WellFormed(e) && Stops(Level(e), rest)
    ensures ParseAt(Level(e), ShowBare(e) + rest) == Some(Parsed(e, rest))
    decreases e, 1
  {
    match e
    case Unary(p, a) => OwnUnary(e, rest);
    case NotE(a) => OwnNot(e, rest);
    case Binary(op, l, r) => OwnBinary(e, rest);
    case Power(b, x) => OwnPower(e, rest);
    case Compare(first, ops, es) => OwnCompare(e, rest);
    case IfExp(t, b, o) => OwnIf(e, rest);
    case Await(a) => OwnAwait(e, rest);
    case Call(_, _) => OwnPostfix(e, rest);
    case Print(_) => OwnPostfix(e, rest);
    case Range(_) => OwnPostfix(e, rest);
    case Attr(_, _) => OwnPostfix(e, rest);
    case Subscript(_, _) => OwnPostfix(e, rest);
    case Tuple(es) => OwnTuple(e, rest);
    case List(es) => OwnList(e, rest);
    case _ => OwnAtom(e, rest);
  }

  lemma OwnAtom(e: Tree, rest: Tokens)
    requires e.Num? || e.Text? || e.Truth? || e.NoneE? || e.Ident?
    ensures ParseAt(ATOM, ShowBare(e) + rest) == Some(Parsed(e, rest))
  {
    var ts := ShowBare(e) + rest;
    assert ts[1..] == rest;
  }

  lemma UnaryShows(e: Tree, rest: Tokens)
    requires e.Unary? && WellFormed(e)
    ensures WellFormed(e.a)
    ensures var ts := ShowBare(e) + rest;
      ts[1..] == Show(e.a, UNARY) + rest && AtPrefix(ts) && PrefixOf(ts[0]) == e.p
  {
    hide Show;
    var ts := ShowBare(e) + rest;
    assert ts[1..] == Show(e.a, UNARY) + rest;
    assert ts[0] == PrefixToken(e.p);
  }

  lemma OwnUnary(e: Tree, rest: Tokens)
    requires e.Unary? && WellFormed(e) && Stops(UNARY, rest)
    ensures ParseAt(UNARY, ShowBare(e) + rest) == Some(Parsed(e, rest))
    decreases e, 0
  {
    hide *;
    Levels();
    UnaryShows(e, rest);
    Parses(e.a, UNARY, rest);
    UnaryIs(ShowBare(e) + rest);
  }

  lemma NotShows(e: Tree, rest: Tokens)
    requires e.NotE? && WellFormed(e)
    ensures WellFormed(e.a)
    ensures var ts := ShowBare(e) + rest;
      ts[1..] == Show(e.a, NOT) + rest && Ahead(ts, NotT) && !AtNotIn(ts)
  {
    ShowStarts(e.a, NOT);
    var us := Show(e.a, NOT);
    assert ShowBare(e) == [NotT] + us;
    hide Show, ShowBare;
    var ts := [NotT] + us + rest;
    assert ts[1..] == us + rest;
    assert ts[1] == us[0];
  }

  lemma OwnNot(e: Tree, rest: Tokens)
    requires e.NotE? && WellFormed(e) && Stops(NOT, rest)
    ensures ParseAt(NOT, ShowBare(e) + rest) == Some(Parsed(e, rest))
    decreases e, 0
  {
    hide *;
    Levels();
    NotShows(e, rest);
    Parses(e.a, NOT, rest);
    NotIs(ShowBare(e) + rest);
  }

  lemma AwaitShows(e: Tree, rest: Tokens)
    requires e.Await? && WellFormed(e) && Stops(AWAIT, rest)
    ensures WellFormed(e.a) && Stops(POSTFIX, rest)
    ensures var ts := ShowBare(e) + rest; ts[1..] == Show(e.a, POSTFIX) + rest && Ahead(ts, AwaitT)
  {
    hide Show;
    var ts := ShowBare(e) + rest;
    assert ts[1..] == Show(e.a, POSTFIX) + rest;
  }

  lemma OwnAwait(e: Tree, rest: Tokens)
    requires e.Await? && WellFormed(e) && Stops(AWAIT, rest)
    ensures ParseAt(AWAIT, ShowBare(e) + rest) == Some(Parsed(e, rest))
    decreases e, 0
  {
    hide *;
    Levels();
    AwaitShows(e, rest);
    Parses(e.a, POSTFIX, rest);
    AwaitIs(ShowBare(e) + rest);
  }

  lemma PowerShows(e: Tree, rest: Tokens)
    requires e.Power? && WellFormed(e) && Stops(POWER, rest)
    ensures WellFormed(e.base) && WellFormed(e.exp)
    ensures var us := Show(e.exp, UNARY) + rest;
      && ShowBare(e) + rest == Show(e.base, AWAIT) + ([DStar] + us)
      && Stops(AWAIT, [DStar] + us) && Stops(UNARY, rest)
  {
    hide Show;
    assert ShowBare(e) + rest == Show(e.base, AWAIT) + ([DStar] + (Show(e.exp, UNARY) + rest));
  }

  lemma PowerParses(b: Tree, x: Tree, ts: Tokens, us: Tokens, rest: Tokens)
    requires ParseAt(AWAIT, ts) == Some(Parsed(b, [DStar] + us)) && ParseAt(UNARY, us) == Some(Parsed(x, rest))
    ensures ParseAt(POWER, ts) == Some(Parsed(Power(b, x), rest))
  {
    assert ([DStar] + us)[1..] == us;
    LevelIs(ts);
    hide ParseAt;
  }

  lemma OwnPower(e: Tree, rest: Tokens)
    requires e.Power? && WellFormed(e) && Stops(POWER, rest)
    ensures ParseAt(POWER, ShowBare(e) + rest) == Some(Parsed(e, rest))
    decreases e, 0
  {
    hide *;
    Levels();
    var us := Show(e.exp, UNARY) + rest;
    PowerShows(e, rest);
    Parses(e.base, AWAIT, [DStar] + us);
    Parses(e.exp, UNARY, rest);
    PowerParses(e.base, e.exp, ShowBare(e) + rest, us, rest);
  }

  lemma IfShows(e: Tree, rest: Tokens)
    requires e.IfExp? && WellFormed(e)
    ensures WellFormed(e.body) && WellFormed(e.test) && WellFormed(e.orelse)
    ensures var us := Show(e.orelse, TERNARY) + rest;
      var vs := Show(e.test, 1) + ([ElseT] + us);
      && ShowBare(e) + rest == Show(e.body, 1) + ([IfT] + vs)
      && Stops(1, [IfT] + vs) && Stops(1, [ElseT] + us)
  {
    hide Show;
    var us := Show(e.orelse, TERNARY) + rest;
    assert ShowBare(e) + rest == Show(e.body, 1) + ([IfT] + (Show(e.test, 1) + ([ElseT] + us)));
  }

  lemma IfParses(t: Tree, b: Tree, o: Tree, ts: Tokens, vs: Tokens, us: Tokens, rest: Tokens)
    requires ParseAt(1, ts) == Some(Parsed(b, [IfT] + vs)) && ParseAt(1, vs) == Some(Parsed(t, [ElseT] + us))
    requires ParseAt(TERNARY, us) == Some(Parsed(o, rest))
    ensures ParseAt(TERNARY, ts) == Some(Parsed(IfExp(t, b, o), rest))
  {
    assert ([IfT] + vs)[1..] == vs && ([ElseT] + us)[1..] == us;
    LevelIs(ts);
    hide ParseAt;
  }

  lemma OwnIf(e: Tree, rest: Tokens)
    requires e.IfExp? && WellFormed(e) && Stops(TERNARY, rest)
    ensures ParseAt(TERNARY, ShowBare(e) + rest) == Some(Parsed(e, rest))
    decreases e, 0
  {
    hide *;
    Levels();
    var us := Show(e.orelse, TERNARY) + rest;
    var vs := Show(e.test, 1) + ([ElseT] + us);
    IfShows(e, rest);
    Parses(e.body, 1, [IfT] + vs);
    Parses(e.test, 1, [ElseT] + us);
    Parses(e.orelse, TERNARY, rest);
    IfParses(e.test, e.body, e.orelse, ShowBare(e) + rest, vs, us, rest);
  }

  // ----- left-associative levels -----

  lemma LoopEnds(e: Tree, rest: Tokens)
    requires e.Binary? && Stops(Level(e), rest)
    ensures IsInfixLevel(Level(e)) && Stops(Level(e) + 1, rest) && Show(e, Level(e)) == ShowBare(e)
    ensures InfixLoop(Level(e), e, rest) == Some(Parsed(e, rest))
  {
    hide ParseAt, ShowBare;
  }

  lemma OwnBinary(e: Tree, rest: Tokens)
    requires e.Binary? && WellFormed(e) && Stops(Level(e), rest)
    ensures ParseAt(Level(e), ShowBare(e) + rest) == Some(Parsed(e, rest))
    decreases e, 0, 1
  {
    hide *;
    LoopEnds(e, rest);
    InfixSpine(e, Level(e), rest);
  }

  lemma BinaryShows(e: Tree, rest: Tokens)
    requires e.Binary? && WellFormed(e)
    ensures WellFormed(e.l) && WellFormed(e.r) && Level(e) == InfixLevel(e.op) && IsInfixLevel(Level(e))
    ensures var k := Level(e);
      var vs := [Sym(e.op)] + (Show(e.r, k + 1) + rest);
      && Show(e, k) + rest == Show(e.l, k) + vs
      && Stops(k + 1, vs)
  {
    hide ShowBare;
    var k := Level(e);
    assert ShowBare(e) + rest == Show(e.l, k) + ([Sym(e.op)] + (Show(e.r, k + 1) + rest)) by {
      hide Show;
      BareBinary(e);
    }
  }

  lemma BareBinary(e: Tree)
    requires e.Binary?
    ensures ShowBare(e) == Show(e.l, InfixLevel(e.op)) + [Sym(e.op)] + Show(e.r, InfixLevel(e.op) + 1)
  {
    hide Show;
  }

  lemma InfixStep(k: nat, l: Tree, op: Infix, r: Tree, us: Tokens, rest: Tokens)
    requires IsInfixLevel(k) && InfixLevel(op) == k && ParseAt(k + 1, us) == Some(Parsed(r, rest))
    ensures InfixLoop(k, l, [Sym(op)] + us) == InfixLoop(k, Binary(op, l, r), rest)
  {
    assert ([Sym(op)] + us)[1..] == us;
    hide ParseAt;
  }

  /** The operands of a left-associative level come out from left to right. */
  lemma {:induction false} InfixSpine(e: Tree, k: nat, rest: Tokens)
    requires WellFormed(e) && IsInfixLevel(k) && Stops(k + 1, rest)
    ensures ParseAt(k, Show(e, k) + rest) == InfixLoop(k, e, rest)
    decreases e, if e.Binary? && Level(e) == k then 0 else 4, 0
  {
    hide *;
    Levels();
    if e.Binary? && Level(e) == k {
      var us := Show(e.r, k + 1) + rest;
      BinaryShows(e, rest);
      InfixSpine(e.l, k, [Sym(e.op)] + us);
      LevelBound(k);
      Parses(e.r, k + 1, rest);
      InfixStep(k, e.l, e.op, e.r, us, rest);
    } else {
      LevelNot(e, k);
      LevelBound(k);
      Parses(e, k + 1, rest);
      InfixIs(k, Show(e, k) + rest);
    }
  }

  lemma LevelBound(k: nat)
    requires IsInfixLevel(k)
    ensures k + 1 <= ATOM
  {
  }

  lemma LevelNot(e: Tree, k: nat)
    requires IsInfixLevel(k) && !(e.Binary? && Level(e) == k)
    ensures Show(e, k) == Show(e, k + 1)
  {
    hide ShowBare;
  }

  // ----- comparison chains -----

  lemma OwnCompare(e: Tree, rest: Tokens)
    requires e.Compare? && WellFormed(e) && Stops(COMPARE, rest)
    ensures ParseAt(COMPARE, ShowBare(e) + rest) == Some(Parsed(e, rest))
    decreases e, 0, 2
  {
    var us := ShowChain(e.ops, e.rest) + rest;
    assert ShowBare(e) + rest == Show(e.first, COMPARE + 1) + us;
    ChainStops(e.ops, e.rest, rest);
    Parses(e.first, COMPARE + 1, us);
    Chain(e.first, [], [], e.ops, e.rest, rest);
    assert [] + e.ops == e.ops && [] + e.rest == e.rest;
    LevelIs(ShowBare(e) + rest);
    hide Show, ShowChain, ChainLoop, ParseAt;
  }

  lemma ChainStops(ops: seq<CmpOp>, es: seq<Tree>, rest: Tokens)
    requires |ops| == |es| && Stops(COMPARE, rest)
    ensures Stops(COMPARE + 1, ShowChain(ops, es) + rest)
  {
    hide Show;
    if ops != [] {
      assert (ShowChain(ops, es) + rest)[0] == CmpTokens(ops[0])[0];
    } else {
      assert ShowChain(ops, es) + rest == rest;
    }
  }

  lemma AllIs(es: seq<Tree>)
    requires AllWellFormed(es) && es != []
    ensures WellFormed(es[0]) && AllWellFormed(es[1..])
  {
    hide WellFormed;
  }

  lemma Associate(a: Tokens, b: Tokens, c: Tokens, d: Tokens)
    ensures a + b + c + d == a + (b + (c + d))
  {
  }

  lemma ChainShows(ops: seq<CmpOp>, es: seq<Tree>)
    requires |ops| == |es| > 0
    ensures ShowChain(ops, es) == CmpTokens(ops[0]) + Show(es[0], COMPARE + 1) + ShowChain(ops[1..], es[1..])
  {
    hide Show, CmpTokens;
  }

  lemma ChainIs(ops: seq<CmpOp>, es: seq<Tree>, rest: Tokens)
    requires |ops| == |es| > 0
    ensures ShowChain(ops, es) + rest
      == CmpTokens(ops[0]) + (Show(es[0], COMPARE + 1) + (ShowChain(ops[1..], es[1..]) + rest))
  {
    hide ShowChain, Show, CmpTokens;
    ChainShows(ops, es);
    Associate(CmpTokens(ops[0]), Show(es[0], COMPARE + 1), ShowChain(ops[1..], es[1..]), rest);
  }

  lemma ChainEnd(first: Tree, ops: seq<CmpOp>, es: seq<Tree>, rest: Tokens)
    requires Stops(COMPARE, rest) && ops != []
    ensures ShowChain([], []) + rest == rest
    ensures ChainLoop(first, ops, es, rest) == Some(Parsed(Compare(first, ops, es), rest))
  {
    hide ParseAt;
  }

  lemma {:induction false} Chain(first: Tree, ops0: seq<CmpOp>, es0: seq<Tree>, ops: seq<CmpOp>, es: seq<Tree>,
                                 rest: Tokens)
    requires |ops| == |es| && AllWellFormed(es) && Stops(COMPARE, rest) && ops0 + ops != []
    ensures ChainLoop(first, ops0, es0, ShowChain(ops, es) + rest)
      == Some(Parsed(Compare(first, ops0 + ops, es0 + es), rest))
    decreases es, 0
  {
    hide *;
    Levels();
    if es == [] {
      assert ops == [] && ops0 + ops == ops0 && es0 + es == es0;
      ChainEnd(first, ops0, es0, rest);
    } else {
      var us := ShowChain(ops[1..], es[1..]) + rest;
      var vs := Show(es[0], COMPARE + 1) + us;
      AllIs(es);
      ChainIs(ops, es, rest);
      ChainStops(ops[1..], es[1..], rest);
      Parses(es[0], COMPARE + 1, us);
      ShowStarts(es[0], COMPARE + 1);
      Chain(first, ops0 + [ops[0]], es0 + [es[0]], ops[1..], es[1..], rest);
      assert ops0 + [ops[0]] + ops[1..] == ops0 + ops && es0 + [es[0]] + es[1..] == es0 + es;
      ChainStep(first, ops0, es0, ops[0], es[0], vs, us);
    }
  }

  lemma ChainStep(first: Tree, ops0: seq<CmpOp>, es0: seq<Tree>, op: CmpOp, e: Tree, vs: Tokens, us: Tokens)
    requires vs != [] && ParseAt(COMPARE + 1, vs) == Some(Parsed(e, us)) && Starts(vs[0], COMPARE + 1)
    ensures ChainLoop(first, ops0, es0, CmpTokens(op) + vs) == ChainLoop(first, ops0 + [op], es0 + [e], us)
  {
    LinkAt(op, vs);
    hide ParseAt, CmpTokens, AtCmp, AtNotIn, CmpWidth;
  }

  /** An operator, as the loop sees it. */
  lemma LinkAt(op: CmpOp, vs: Tokens)
    requires vs != [] && Starts(vs[0], COMPARE + 1)
    ensures var ts := CmpTokens(op) + vs;
      && AtCmp(ts) && ts[CmpWidth(ts)..] == vs && (AtNotIn(ts) <==> op == NotIn)
      && (op != NotIn ==> ts[0] == Cmp(op))
  {
    var ts := CmpTokens(op) + vs;
    assert ts[CmpWidth(ts)..] == vs;
  }

  // ----- attributes, calls, subscripts -----

  lemma PostfixEnds(e: Tree, rest: Tokens)
    requires Level(e) == POSTFIX && Stops(POSTFIX, rest)
    ensures PostfixLoop(e, rest) == Some(Parsed(e, rest)) && Show(e, POSTFIX) == ShowBare(e)
  {
    hide ShowBare, ParseAt, ParseItems;
  }

  lemma OwnPostfix(e: Tree, rest: Tokens)
    requires Level(e) == POSTFIX && WellFormed(e) && Stops(POSTFIX, rest)
    ensures ParseAt(POSTFIX, ShowBare(e) + rest) == Some(Parsed(e, rest))
    decreases e, 0, 2
  {
    hide *;
    PostfixEnds(e, rest);
    PostfixSpine(e, rest);
  }

  lemma {:induction false} PostfixSpine(e: Tree, rest: Tokens)
    requires WellFormed(e)
    ensures ParseAt(POSTFIX, Show(e, POSTFIX) + rest) == PostfixLoop(e, rest)
    decreases e, if Level(e) == POSTFIX then 0 else 4, 1
  {
    if Level(e) == POSTFIX {
      hide Show, ShowBare, ParseAt, PostfixLoop;
      match e
      case Attr(obj, x) => AttrSpine(e, rest);
      case Subscript(obj, i) => SubscriptSpine(e, rest);
      case Call(f, args) => CallSpine(e, rest);
      case Print(args) => PrintSpine(e, rest);
      case Range(args) => RangeSpine(e, rest);
    } else {
      hide *;
      Levels();
      AtomShows(e, rest);
      Parses(e, ATOM, rest);
      PostfixIs(Show(e, POSTFIX) + rest);
    }
  }

  lemma AtomShows(e: Tree, rest: Tokens)
    requires Level(e) != POSTFIX
    ensures Show(e, POSTFIX) == Show(e, ATOM) && Stops(ATOM, rest)
  {
    hide ShowBare;
  }

  lemma PrintSpine(e: Tree, rest: Tokens)
    requires WellFormed(e) && e.Print?
    ensures ParseAt(POSTFIX, Show(e, POSTFIX) + rest) == PostfixLoop(e, rest)
    decreases e, 0, 0
  {
    Items(e.args, RPar, rest);
    hide ShowItems, ParseItems, ParseAt, PostfixLoop, Show;
    NamedCall("print", e, e.args, rest);
  }

  lemma RangeSpine(e: Tree, rest: Tokens)
    requires WellFormed(e) && e.Range?
    ensures ParseAt(POSTFIX, Show(e, POSTFIX) + rest) == PostfixLoop(e, rest)
    decreases e, 0, 0
  {
    Items(e.args, RPar, rest);
    hide ShowItems, ParseItems, ParseAt, PostfixLoop, Show;
    NamedCall("range", e, e.args, rest);
  }

  lemma AttrSpine(e: Tree, rest: Tokens)
    requires WellFormed(e) && e.Attr?
    ensures ParseAt(POSTFIX, Show(e, POSTFIX) + rest) == PostfixLoop(e, rest)
    decreases e, 0, 0
  {
    var us := [Dot, Name(e.name)] + rest;
    assert Show(e, POSTFIX) + rest == Show(e.obj, POSTFIX) + us;
    PostfixSpine(e.obj, us);
    hide Show, ParseAt;
    assert us[2..] == rest;
  }

  lemma SubscriptSpine(e: Tree, rest: Tokens)
    requires WellFormed(e) && e.Subscript?
    ensures ParseAt(POSTFIX, Show(e, POSTFIX) + rest) == PostfixLoop(e, rest)
    decreases e, 0, 0
  {
    var vs := Show(e.index, TERNARY) + ([RBrack] + rest);
    var us := [LBrack] + vs;
    assert Show(e, POSTFIX) + rest == Show(e.obj, POSTFIX) + us;
    PostfixSpine(e.obj, us);
    Parses(e.index, TERNARY, [RBrack] + rest);
    hide Show, ParseAt, PostfixLoop;
    assert us[1..] == vs;
    IndexLoop(e, us, rest);
  }

  lemma IndexLoop(e: Tree, us: Tokens, rest: Tokens)
    requires e.Subscript? && Ahead(us, LBrack)
    requires ParseAt(TERNARY, us[1..]) == Some(Parsed(e.index, [RBrack] + rest))
    ensures PostfixLoop(e.obj, us) == PostfixLoop(e, rest)
  {
    hide ParseAt;
    assert ([RBrack] + rest)[1..] == rest;
  }

  lemma CallSpine(e: Tree, rest: Tokens)
    requires WellFormed(e) && e.Call?
    ensures ParseAt(POSTFIX, Show(e, POSTFIX) + rest) == PostfixLoop(e, rest)
    decreases e, 0, 0
  {
    var us := [LPar] + (ShowItems(e.args) + ([RPar] + rest));
    assert Show(e, POSTFIX) + rest == Show(e.f, POSTFIX) + us;
    PostfixSpine(e.f, us);
    Items(e.args, RPar, rest);
    hide Show, ParseAt, ShowItems, ParseItems, PostfixLoop;
    CallLoop(e.f, e.args, us, rest);
  }

  lemma CallLoop(f: Tree, args: seq<Tree>, us: Tokens, rest: Tokens)
    requires Ahead(us, LPar) && ParseItems(RPar, us[1..]) == Some(ParsedItems(args, [RPar] + rest))
    ensures PostfixLoop(f, us) == PostfixLoop(MakeCall(f, args), rest)
  {
    hide ParseItems, ParseAt, MakeCall;
    assert ([RPar] + rest)[1..] == rest;
  }

  /** A call of `print` or `range`. */
  lemma NamedCall(x: string, e: Tree, args: seq<Tree>, rest: Tokens)
    requires ShowBare(e) == [Name(x), LPar] + ShowItems(args) + [RPar] && e == MakeCall(Ident(x), args)
    requires Level(e) == POSTFIX
    requires ParseItems(RPar, ShowItems(args) + ([RPar] + rest)) == Some(ParsedItems(args, [RPar] + rest))
    ensures ParseAt(POSTFIX, Show(e, POSTFIX) + rest) == PostfixLoop(e, rest)
  {
    hide *;
    var items := ShowItems(args) + ([RPar] + rest);
    var us := [LPar] + items;
    ShowIs(e);
    var ts := Show(e, POSTFIX) + rest;
    assert ts == [Name(x)] + us;
    NameParses(x, us);
    PostfixIs(ts);
    LeftPar(items);
    CallLoop(Ident(x), args, us, rest);
  }

  lemma LeftPar(items: Tokens)
    ensures Ahead([LPar] + items, LPar) && ([LPar] + items)[1..] == items
  {
  }

  lemma ShowIs(e: Tree)
    ensures Show(e, Level(e)) == ShowBare(e)
  {
    hide ShowBare;
  }

  lemma NameParses(x: string, us: Tokens)
    ensures ParseAt(ATOM, [Name(x)] + us) == Some(Parsed(Ident(x), us))
  {
    hide ParseAt, ParseItems, ParseParens;
    var ts := [Name(x)] + us;
    assert ts[1..] == us;
    LevelIs(ts);
  }

  // ----- items -----

  lemma OwnList(e: Tree, rest: Tokens)
    requires e.List? && WellFormed(e)
    ensures ParseAt(ATOM, ShowBare(e) + rest) == Some(Parsed(e, rest))
    decreases e, 0
  {
    ListShows(e, rest);
    hide ShowItems, ParseItems, ShowBare, ParseAt;
    Items(e.elts, RBrack, rest);
    ListParses(e.elts, rest);
  }

  lemma ListShows(e: Tree, rest: Tokens)
    requires e.List? && WellFormed(e)
    ensures ShowBare(e) + rest == [LBrack] + (ShowItems(e.elts) + ([RBrack] + rest)) && AllWellFormed(e.elts)
  {
    hide ShowItems, AllWellFormed;
  }

  lemma ListParses(es: seq<Tree>, rest: Tokens)
    requires var us := ShowItems(es) + ([RBrack] + rest);
      ParseItems(RBrack, us) == Some(ParsedItems(es, [RBrack] + rest))
    ensures ParseAt(ATOM, [LBrack] + (ShowItems(es) + ([RBrack] + rest))) == Some(Parsed(List(es), rest))
  {
    hide ShowItems, ParseItems, ParseAt;
    var us := ShowItems(es) + ([RBrack] + rest);
    assert ([LBrack] + us)[1..] == us && ([RBrack] + rest)[1..] == rest;
    LevelIs([LBrack] + us);
  }

  /** Why the first token of an item is taken as the start of an expression. */
  lemma ItemStarts(e: Tree, us: Tokens, close: Token)
    requires close == RPar || close == RBrack
    requires us != [] && us[0] != Eq
    ensures var ts := Show(e, TERNARY) + us;
      ts != [] && ts[0] != Comma && ts[0] != close && ts[0] != RPar && !AtSpecialArg(ts)
  {
    ShowStarts(e, TERNARY);
    ShowNoEq(e, TERNARY);
    var s := Show(e, TERNARY);
    hide Show;
    var ts := s + us;
    assert ts[0] == s[0];
    if |ts| >= 2 {
      assert ts[1] == if |s| >= 2 then s[1] else us[0];
      assert |s| >= 2 ==> s[1] in s;
    }
  }

  lemma MoreStarts(es: seq<Tree>, close: Token, rest: Tokens)
    requires close == RPar || close == RBrack
    ensures var us := ShowMore(es) + ([close] + rest); us != [] && (us[0] == Comma || us[0] == close)
    ensures es == [] ==> ShowMore(es) + ([close] + rest) == [close] + rest
  {
    hide Show;
  }

  /** One item of a call or a list. */
  lemma ItemStep(close: Token, ts: Tokens, e: Tree, us: Tokens, more: seq<Tree>, end: Tokens)
    requires ts != [] && ts[0] != Comma && ts[0] != close && !AtSpecialArg(ts)
    requires ParseAt(TERNARY, ts) == Some(Parsed(e, us)) && ParseItems(close, us) == Some(ParsedItems(more, end))
    ensures ParseItems(close, ts) == Some(ParsedItems([e] + more, end))
    ensures close != Comma ==> ParseItems(close, [Comma] + ts) == Some(ParsedItems([e] + more, end))
  {
    hide ParseAt, AtSpecialArg;
    assert SkipCommas(ts) == ts;
    assert ([Comma] + ts)[1..] == ts;
    assert SkipCommas([Comma] + ts) == ts;
  }

  lemma NoItems(close: Token, rest: Tokens)
    ensures ShowItems([]) + ([close] + rest) == [close] + rest && ShowMore([]) + ([close] + rest) == [close] + rest
    ensures ParseItems(close, [close] + rest) == Some(ParsedItems([], [close] + rest))
  {
    hide ParseAt, Show;
  }

  lemma ItemsAre(es: seq<Tree>, end: Tokens)
    requires es != []
    ensures ShowItems(es) + end == Show(es[0], TERNARY) + (ShowMore(es[1..]) + end)
    ensures ShowMore(es) + end == [Comma] + (Show(es[0], TERNARY) + (ShowMore(es[1..]) + end))
  {
    hide *;
    ItemsShow(es);
    Regroup([Comma], Show(es[0], TERNARY), ShowMore(es[1..]), end);
  }

  lemma ItemsShow(es: seq<Tree>)
    requires es != []
    ensures ShowItems(es) == Show(es[0], TERNARY) + ShowMore(es[1..])
    ensures ShowMore(es) == [Comma] + Show(es[0], TERNARY) + ShowMore(es[1..])
  {
    hide Show;
  }

  lemma Regroup(a: Tokens, b: Tokens, c: Tokens, d: Tokens)
    ensures b + c + d == b + (c + d) && a + b + c + d == a + (b + (c + d))
  {
  }

  lemma MoreStops(us: Tokens, close: Token)
    requires us != [] && (us[0] == Comma || us[0] == close) && (close == RPar || close == RBrack)
    ensures Stops(TERNARY, us) && us[0] != Eq
  {
  }

  lemma {:induction false} Items(es: seq<Tree>, close: Token, rest: Tokens)
    requires AllWellFormed(es) && (close == RPar || close == RBrack)
    ensures ParseItems(close, ShowItems(es) + ([close] + rest)) == Some(ParsedItems(es, [close] + rest))
    ensures ParseItems(close, ShowMore(es) + ([close] + rest)) == Some(ParsedItems(es, [close] + rest))
    decreases es, 0
  {
    hide *;
    Levels();
    var end := [close] + rest;
    if es == [] {
      NoItems(close, rest);
    } else {
      var us := ShowMore(es[1..]) + end;
      var ts := Show(es[0], TERNARY) + us;
      AllIs(es);
      ItemsAre(es, end);
      MoreStarts(es[1..], close, rest);
      MoreStops(us, close);
      ItemStarts(es[0], us, close);
      Parses(es[0], TERNARY, us);
      Items(es[1..], close, rest);
      ItemStep(close, ts, es[0], us, es[1..], end);
      HeadTail(es);
    }
  }

  lemma TupleStep(e: Tree, us: Tokens, vs: Tokens, more: seq<Tree>, end: Tokens)
    requires vs != [] && vs[0] != RPar && ParseAt(TERNARY, vs) == Some(Parsed(e, us))
    requires TupleLoop(us) == Some(ParsedItems(more, end))
    ensures TupleLoop([Comma] + vs) == Some(ParsedItems([e] + more, end))
  {
    var ts := [Comma] + vs;
    assert ts[1..] == vs && ts[1] == vs[0];
    hide ParseAt;
  }

  lemma HeadTail(es: seq<Tree>)
    requires es != []
    ensures [es[0]] + es[1..] == es
  {
  }

  lemma TupleEnd(rest: Tokens)
    ensures ShowMore([]) + ([RPar] + rest) == [RPar] + rest
    ensures TupleLoop([RPar] + rest) == Some(ParsedItems([], [RPar] + rest))
  {
    hide ParseAt, Show;
  }

  lemma {:induction false} TupleMore(es: seq<Tree>, rest: Tokens)
    requires AllWellFormed(es)
    ensures TupleLoop(ShowMore(es) + ([RPar] + rest)) == Some(ParsedItems(es, [RPar] + rest))
    decreases es, 0
  {
    hide *;
    Levels();
    var end := [RPar] + rest;
    if es == [] {
      TupleEnd(rest);
    } else {
      var us := ShowMore(es[1..]) + end;
      var vs := Show(es[0], TERNARY) + us;
      AllIs(es);
      ItemsAre(es, end);
      MoreStarts(es[1..], RPar, rest);
      MoreStops(us, RPar);
      ItemStarts(es[0], us, RPar);
      Parses(es[0], TERNARY, us);
      TupleMore(es[1..], rest);
      TupleStep(es[0], us, vs, es[1..], end);
      HeadTail(es);
    }
  }

  lemma OwnTuple(e: Tree, rest: Tokens)
    requires e.Tuple? && WellFormed(e)
    ensures ParseAt(ATOM, ShowBare(e) + rest) == Some(Parsed(e, rest))
    decreases e, 0, 1
  {
    if e.elts == [] {
      NoTuple(rest);
    } else {
      SomeTuple(e, rest);
    }
  }

  lemma NoTuple(rest: Tokens)
    ensures ParseAt(ATOM, ShowBare(Tuple([])) + rest) == Some(Parsed(Tuple([]), rest))
  {
    hide ParseAt, ParseItems, Show;
    var ts := ShowBare(Tuple([])) + rest;
    assert ts == [LPar] + ([RPar] + rest);
    assert ts[1..] == [RPar] + rest;
    assert ([RPar] + rest)[1..] == rest;
    LevelIs(ts);
  }

  /** After its first element, a tuple of one has a comma; a longer one has a comma before every element. */
  function AfterFirst(es: seq<Tree>, end: Tokens): Tokens
    requires es != []
  {
    if |es| == 1 then [Comma] + end else ShowMore(es[1..]) + end
  }

  lemma TupleShows(e: Tree, rest: Tokens)
    requires e.Tuple? && e.elts != []
    ensures var us := AfterFirst(e.elts, [RPar] + rest);
      && ShowBare(e) + rest == [LPar] + (Show(e.elts[0], TERNARY) + us)
      && Ahead(us, Comma)
  {
    hide Show;
    var es := e.elts;
    if |es| == 1 {
      assert ShowBare(e) + rest == [LPar] + (Show(es[0], TERNARY) + ([Comma] + ([RPar] + rest)));
    } else {
      MoreStarts(es[1..], RPar, rest);
      assert ShowBare(e) + rest == [LPar] + (Show(es[0], TERNARY) + (ShowMore(es[1..]) + ([RPar] + rest)));
    }
  }

  lemma AfterFirstLoops(es: seq<Tree>, rest: Tokens)
    requires es != [] && AllWellFormed(es[1..])
    ensures TupleLoop(AfterFirst(es, [RPar] + rest)) == Some(ParsedItems(es[1..], [RPar] + rest))
    decreases es, 1
  {
    var end := [RPar] + rest;
    if |es| == 1 {
      var us := [Comma] + end;
      assert us[1..] == end && es[1..] == [];
      hide ParseAt;
    } else {
      TupleMore(es[1..], rest);
      hide TupleLoop, ShowMore;
    }
  }

  lemma SomeTuple(e: Tree, rest: Tokens)
    requires e.Tuple? && WellFormed(e) && e.elts != []
    ensures ParseAt(ATOM, ShowBare(e) + rest) == Some(Parsed(e, rest))
    decreases e, 0, 0
  {
    var es, end := e.elts, [RPar] + rest;
    var us := AfterFirst(es, end);
    var vs := Show(es[0], TERNARY) + us;
    var ts := ShowBare(e) + rest;
    hide Show, ShowBare, AfterFirst, ParseAt, TupleLoop;
    TupleShows(e, rest);
    ItemStarts(es[0], us, RPar);
    Parses(es[0], TERNARY, us);
    AfterFirstLoops(es, rest);
    assert ts[1..] == vs && end[1..] == rest;
    TupleParse(ts, es, us, end);
  }

  lemma TupleParse(ts: Tokens, es: seq<Tree>, us: Tokens, end: Tokens)
    requires Ahead(ts, LPar) && es != [] && ts[1..] != [] && ts[1] != RPar
    requires ParseAt(TERNARY, ts[1..]) == Some(Parsed(es[0], us)) && Ahead(us, Comma)
    requires TupleLoop(us) == Some(ParsedItems(es[1..], end)) && Ahead(end, RPar)
    ensures ParseAt(ATOM, ts) == Some(Parsed(Tuple(es), end[1..]))
  {
    assert [es[0]] + es[1..] == es;
    LevelIs(ts);
    hide ParseAt, TupleLoop;
  }

  /** For every tree the parser can build: parsing its printed tokens gives it back and consumes exactly those tokens,
      whatever follows that does not continue the expression. */
  lemma RoundTrip(e: Tree, rest: Tokens)
    requires WellFormed(e) && Stops(TERNARY, rest)
    ensures ParseAt(TERNARY, Show(e, TERNARY) + rest) == Some(Parsed(e, rest))
  {
    Parses(e, TERNARY, rest);
  }

  /** The printer is injective: no two trees have the same text. */
  lemma ShowInjective(d: Tree, e: Tree)
    requires WellFormed(d) && WellFormed(e) && Show(d, TERNARY) == Show(e, TERNARY)
    ensures d == e
  {
    RoundTrip(d, []);
    RoundTrip(e, []);
    assert Show(d, TERNARY) + [] == Show(e, TERNARY) + [];
    hide ParseAt, Show;
  }

  /** `is not` cannot be parsed: `is` is taken as the operator, and no operand starts with `not`. */
  lemma IsNotFails(e: Tree, us: Tokens)
    requires WellFormed(e)
    ensures ParseAt(COMPARE, Show(e, COMPARE + 1) + ([Cmp(Is), NotT] + us)) == None
  {
    hide *;
    Levels();
    var vs := [Cmp(Is), NotT] + us;
    IsStops(e, us);
    Parses(e, COMPARE + 1, vs);
    LevelIs(Show(e, COMPARE + 1) + vs);
    TailsAre(Show(e, COMPARE + 1) + vs);
    NoOperand(COMPARE + 1, us);
    NoLink(e, us);
  }

  lemma IsStops(e: Tree, us: Tokens)
    ensures Stops(COMPARE + 1, [Cmp(Is), NotT] + us)
  {
  }

  lemma NoLink(e: Tree, us: Tokens)
    requires ParseAt(COMPARE + 1, [NotT] + us) == None
    ensures ChainLoop(e, [], [], [Cmp(Is), NotT] + us) == None
  {
    assert ([Cmp(Is), NotT] + us)[1..] == [NotT] + us;
    hide ParseAt;
  }

  lemma {:induction false} NoOperand(k: nat, us: Tokens)
    requires COMPARE < k <= ATOM
    ensures ParseAt(k, [NotT] + us) == None
    decreases ATOM - k
  {
    var ts := [NotT] + us;
    hide ParseAt;
    LevelIs(ts);
    if k < ATOM {
      NoOperand(k + 1, us);
      InfixLevelsAre(k);
      if IsInfixLevel(k) {
        InfixIs(k, ts);
      } else if k == UNARY {
        UnaryIs(ts);
      } else if k == AWAIT {
        AwaitIs(ts);
      } else if k == POSTFIX {
        PostfixIs(ts);
      } else {
        TailsAre(ts);
      }
    }
  }
}
