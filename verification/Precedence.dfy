/** The precedence and the associativity of the operators, spelled out, and the trees the parser can build. */
module Precedence {
  import opened Wrappers
  import opened Syntax
  import opened ExprParser
  import opened ExprRoundTrip
  import opened ParserBuilds

  /** The operators of the two-operand levels, the loosest first. */
  const GROUPS: seq<set<Infix>> := [{OrOp}, {AndOp}, {BitOr}, {BitXor}, {BitAnd}, {LShift, RShift}, {Plus, Minus},
    {Star, Slash, DSlash, Percent, At}]

  predicate Tighter(p: Infix, q: Infix) {
    exists i, j | 0 <= i < j < 8 :: q in GROUPS[i] && p in GROUPS[j]
  }

  /** A name, a literal, a call, an attribute, a subscript, a tuple or a list. */
  predicate Operand(e: Tree) {
    && WellFormed(e)
    && !e.Unary? && !e.NotE? && !e.Binary? && !e.Power? && !e.Compare? && !e.IfExp? && !e.Await?
  }

  /** Whatever comes after them, unless it continues the expression, the tokens are parsed to `e`. */
  ghost predicate ParseTo(ts: Tokens, e: Tree) {
    forall rest: Tokens | Stops(TERNARY, rest) :: ParseAt(TERNARY, ts + rest) == Some(Parsed(e, rest))
  }

  lemma Printed(e: Tree)
    requires WellFormed(e)
    ensures ParseTo(Show(e, TERNARY), e)
  {
    hide ParseAt, Show, WellFormed, Stops;
    forall rest: Tokens | Stops(TERNARY, rest)
      ensures ParseAt(TERNARY, Show(e, TERNARY) + rest) == Some(Parsed(e, rest))
    {
      RoundTrip(e, rest);
    }
  }

  lemma Operands(e: Tree, k: nat)
    requires Operand(e) && k <= POSTFIX
    ensures Show(e, k) == ShowBare(e) && WellFormed(e)
  {
  }

  // ----- two operators -----

  lemma RankOf(p: Infix, i: nat)
    requires i < 8
    ensures p in GROUPS[i] <==> i == if InfixLevel(p) <= 2 then InfixLevel(p) - 1 else InfixLevel(p) - 3
  {
  }

  /** The place of an operator's group. */
  function Place(p: Infix): nat {
    if InfixLevel(p) <= 2 then InfixLevel(p) - 1 else InfixLevel(p) - 3
  }

  lemma Placed(p: Infix)
    ensures |GROUPS| == 8 && Place(p) < 8 && forall i: nat | i < 8 :: p in GROUPS[i] <==> i == Place(p)
  {
    forall i: nat | i < 8
      ensures p in GROUPS[i] <==> i == Place(p)
    {
      RankOf(p, i);
    }
    hide GROUPS;
  }

  lemma TighterIs(p: Infix, q: Infix)
    ensures Tighter(p, q) <==> InfixLevel(p) > InfixLevel(q)
  {
    Placed(p);
    Placed(q);
    PlacesOrdered(p, q);
    hide GROUPS, InfixLevel, Place;
    if Place(q) < Place(p) {
      assert q in GROUPS[Place(q)] && p in GROUPS[Place(p)];
    }
  }

  lemma PlacesOrdered(p: Infix, q: Infix)
    ensures Place(q) < Place(p) <==> InfixLevel(q) < InfixLevel(p)
  {
    hide InfixLevel;
  }

  lemma ShowIs(e: Tree, k: nat)
    ensures Show(e, k) == if Level(e) < k then [LPar] + ShowBare(e) + [RPar] else ShowBare(e)
  {
  }

  lemma BinaryIs(op: Infix, l: Tree, r: Tree)
    ensures ShowBare(Binary(op, l, r)) == Show(l, InfixLevel(op)) + [Sym(op)] + Show(r, InfixLevel(op) + 1)
    ensures Level(Binary(op, l, r)) == InfixLevel(op) && 1 <= InfixLevel(op) <= 10
    ensures WellFormed(l) && WellFormed(r) ==> WellFormed(Binary(op, l, r))
  {
    hide InfixLevel;
  }

  lemma CompareIs(l: Tree, op: CmpOp, r: Tree)
    ensures var e := Compare(l, [op], [r]);
      && ShowBare(e) == Show(l, COMPARE + 1) + CmpTokens(op) + Show(r, COMPARE + 1)
      && Level(e) == COMPARE && (WellFormed(l) && WellFormed(r) ==> WellFormed(e))
  {
    hide CmpTokens;
    OneLink(op, r);
    assert AllWellFormed([r]) == WellFormed(r);
  }

  lemma OneLink(op: CmpOp, r: Tree)
    ensures ShowChain([op], [r]) == CmpTokens(op) + Show(r, COMPARE + 1)
  {
    hide CmpTokens;
    assert ShowChain([], []) == [];
  }

  lemma Group5(a: Tokens, b: Tokens, c: Tokens, d: Tokens, e: Tokens)
    ensures a + b + (c + d + e) == a + b + c + d + e
  {
  }

  lemma Group4(a: Tokens, b: Tokens, c: Tokens, d: Tokens)
    ensures a + (b + c + d) == a + b + c + d
  {
  }

  /** Loose operators are those that a comparison or a negation may be an operand of. */
  predicate Loose(p: Infix) {
    p == OrOp || p == AndOp
  }

  lemma LooseIs(p: Infix)
    ensures if Loose(p) then 1 <= InfixLevel(p) <= 2 else 5 <= InfixLevel(p) <= 10
  {
  }

  /** `a p b q c` */
  lemma TwoInfixes(a: Tree, p: Infix, b: Tree, q: Infix, c: Tree)
    requires Operand(a) && Operand(b) && Operand(c)
    ensures ParseTo(ShowBare(a) + [Sym(p)] + ShowBare(b) + [Sym(q)] + ShowBare(c),
      if Tighter(q, p) then Binary(p, a, Binary(q, b, c)) else Binary(q, Binary(p, a, b), c))
  {
    hide *;
    TighterIs(q, p);
    Levels();
    BinaryIs(p, a, b);
    BinaryIs(q, b, c);
    Fits(a);
    Fits(b);
    Fits(c);
    var e := if Tighter(q, p) then Binary(p, a, Binary(q, b, c)) else Binary(q, Binary(p, a, b), c);
    if Tighter(q, p) {
      BinaryIs(p, a, Binary(q, b, c));
      ShowIs(Binary(q, b, c), InfixLevel(p) + 1);
    } else {
      BinaryIs(q, Binary(p, a, b), c);
      ShowIs(Binary(p, a, b), InfixLevel(q));
    }
    ShowIs(e, TERNARY);
    Printed(e);
    Group5(ShowBare(a), [Sym(p)], ShowBare(b), [Sym(q)], ShowBare(c));
  }

  lemma Fits(e: Tree)
    requires Operand(e)
    ensures WellFormed(e) && forall k: nat | k <= POSTFIX :: Show(e, k) == ShowBare(e)
  {
    forall k: nat | k <= POSTFIX
      ensures Show(e, k) == ShowBare(e)
    {
      Operands(e, k);
    }
  }

  /** `a p b < c`: only `and` and `or` are looser than a comparison. */
  lemma InfixCompare(a: Tree, p: Infix, b: Tree, op: CmpOp, c: Tree)
    requires Operand(a) && Operand(b) && Operand(c)
    ensures ParseTo(ShowBare(a) + [Sym(p)] + ShowBare(b) + CmpTokens(op) + ShowBare(c),
      if Loose(p) then Binary(p, a, Compare(b, [op], [c])) else Compare(Binary(p, a, b), [op], [c]))
  {
    hide *;
    Levels();
    LooseIs(p);
    Fits(a);
    Fits(b);
    Fits(c);
    var e := if Loose(p) then Binary(p, a, Compare(b, [op], [c])) else Compare(Binary(p, a, b), [op], [c]);
    if Loose(p) {
      CompareIs(b, op, c);
      BinaryIs(p, a, Compare(b, [op], [c]));
      ShowIs(Compare(b, [op], [c]), InfixLevel(p) + 1);
    } else {
      BinaryIs(p, a, b);
      CompareIs(Binary(p, a, b), op, c);
      ShowIs(Binary(p, a, b), COMPARE + 1);
    }
    ShowIs(e, TERNARY);
    Printed(e);
    Group5(ShowBare(a), [Sym(p)], ShowBare(b), CmpTokens(op), ShowBare(c));
  }

  /** `a < b p c`. */
  lemma CompareInfix(a: Tree, op: CmpOp, b: Tree, p: Infix, c: Tree)
    requires Operand(a) && Operand(b) && Operand(c)
    ensures ParseTo(ShowBare(a) + CmpTokens(op) + ShowBare(b) + [Sym(p)] + ShowBare(c),
      if Loose(p) then Binary(p, Compare(a, [op], [b]), c) else Compare(a, [op], [Binary(p, b, c)]))
  {
    hide *;
    Levels();
    LooseIs(p);
    Fits(a);
    Fits(b);
    Fits(c);
    var e := if Loose(p) then Binary(p, Compare(a, [op], [b]), c) else Compare(a, [op], [Binary(p, b, c)]);
    if Loose(p) {
      CompareIs(a, op, b);
      BinaryIs(p, Compare(a, [op], [b]), c);
      ShowIs(Compare(a, [op], [b]), InfixLevel(p));
    } else {
      BinaryIs(p, b, c);
      CompareIs(a, op, Binary(p, b, c));
      ShowIs(Binary(p, b, c), COMPARE + 1);
    }
    ShowIs(e, TERNARY);
    Printed(e);
    Group5(ShowBare(a), CmpTokens(op), ShowBare(b), [Sym(p)], ShowBare(c));
  }

  lemma NotIs(a: Tree)
    ensures ShowBare(NotE(a)) == [NotT] + Show(a, NOT) && Level(NotE(a)) == NOT
    ensures WellFormed(a) ==> WellFormed(NotE(a))
  {
  }

  /** `not a p b`: `not` is looser than all but `and` and `or`. */
  lemma NotFirst(a: Tree, p: Infix, b: Tree)
    requires Operand(a) && Operand(b)
    ensures ParseTo([NotT] + ShowBare(a) + [Sym(p)] + ShowBare(b),
      if Loose(p) then Binary(p, NotE(a), b) else NotE(Binary(p, a, b)))
  {
    hide *;
    Levels();
    LooseIs(p);
    Fits(a);
    Fits(b);
    NotIs(a);
    BinaryIs(p, a, b);
    BinaryIs(p, NotE(a), b);
    NotIs(Binary(p, a, b));
    ShowIs(NotE(a), InfixLevel(p));
    ShowIs(Binary(p, a, b), NOT);
    var e := if Loose(p) then Binary(p, NotE(a), b) else NotE(Binary(p, a, b));
    ShowIs(e, TERNARY);
    Printed(e);
    Group4([NotT], ShowBare(a), [Sym(p)], ShowBare(b));
  }

  /** `not a < b`. */
  lemma NotCompare(a: Tree, op: CmpOp, b: Tree)
    requires Operand(a) && Operand(b)
    ensures ParseTo([NotT] + ShowBare(a) + CmpTokens(op) + ShowBare(b), NotE(Compare(a, [op], [b])))
  {
    hide *;
    Levels();
    Fits(a);
    Fits(b);
    CompareIs(a, op, b);
    NotIs(Compare(a, [op], [b]));
    ShowIs(Compare(a, [op], [b]), NOT);
    ShowIs(NotE(Compare(a, [op], [b])), TERNARY);
    Printed(NotE(Compare(a, [op], [b])));
    Group4([NotT], ShowBare(a), CmpTokens(op), ShowBare(b));
  }

  lemma PrefixIs(p: Prefix, a: Tree)
    ensures ShowBare(Unary(p, a)) == [PrefixToken(p)] + Show(a, UNARY) && Level(Unary(p, a)) == UNARY
    ensures WellFormed(a) ==> WellFormed(Unary(p, a))
  {
    hide PrefixToken;
  }

  lemma PowerIs(a: Tree, b: Tree)
    ensures ShowBare(Power(a, b)) == Show(a, AWAIT) + [DStar] + Show(b, UNARY) && Level(Power(a, b)) == POWER
    ensures WellFormed(a) && WellFormed(b) ==> WellFormed(Power(a, b))
  {
  }

  /** `-a p b`, `-a ** b` and `a ** -b`: a sign is tighter than every operator with two operands but `**`. */
  lemma SignFirst(m: Prefix, a: Tree, p: Infix, b: Tree)
    requires Operand(a) && Operand(b)
    ensures ParseTo([PrefixToken(m)] + ShowBare(a) + [Sym(p)] + ShowBare(b), Binary(p, Unary(m, a), b))
    ensures ParseTo([PrefixToken(m)] + ShowBare(a) + [DStar] + ShowBare(b), Unary(m, Power(a, b)))
    ensures ParseTo(ShowBare(a) + [DStar] + ([PrefixToken(m)] + ShowBare(b)), Power(a, Unary(m, b)))
  {
    hide *;
    Levels();
    LooseIs(p);
    Fits(a);
    Fits(b);
    PrefixIs(m, a);
    PrefixIs(m, b);
    PowerIs(a, b);
    PrefixIs(m, Power(a, b));
    PowerIs(a, Unary(m, b));
    BinaryIs(p, Unary(m, a), b);
    ShowIs(Unary(m, a), InfixLevel(p));
    ShowIs(Power(a, b), UNARY);
    ShowIs(Unary(m, b), UNARY);
    ShowIs(Binary(p, Unary(m, a), b), TERNARY);
    ShowIs(Unary(m, Power(a, b)), TERNARY);
    ShowIs(Power(a, Unary(m, b)), TERNARY);
    Printed(Binary(p, Unary(m, a), b));
    Printed(Unary(m, Power(a, b)));
    Printed(Power(a, Unary(m, b)));
    Group4([PrefixToken(m)], ShowBare(a), [DStar], ShowBare(b));
  }

  /** `a ** b ** c`, `a p b ** c` and `a ** b p c`: `**` is tighter than the other operators and goes to the right. */
  lemma Powers(a: Tree, p: Infix, b: Tree, c: Tree)
    requires Operand(a) && Operand(b) && Operand(c)
    ensures ParseTo(ShowBare(a) + [DStar] + ShowBare(b) + [DStar] + ShowBare(c), Power(a, Power(b, c)))
    ensures ParseTo(ShowBare(a) + [Sym(p)] + ShowBare(b) + [DStar] + ShowBare(c), Binary(p, a, Power(b, c)))
    ensures ParseTo(ShowBare(a) + [DStar] + ShowBare(b) + [Sym(p)] + ShowBare(c), Binary(p, Power(a, b), c))
  {
    hide *;
    Levels();
    LooseIs(p);
    Fits(a);
    Fits(b);
    Fits(c);
    PowerIs(a, b);
    PowerIs(b, c);
    PowerIs(a, Power(b, c));
    BinaryIs(p, a, Power(b, c));
    BinaryIs(p, Power(a, b), c);
    ShowIs(Power(b, c), UNARY);
    ShowIs(Power(b, c), InfixLevel(p) + 1);
    ShowIs(Power(a, b), InfixLevel(p));
    ShowIs(Power(a, Power(b, c)), TERNARY);
    ShowIs(Binary(p, a, Power(b, c)), TERNARY);
    ShowIs(Binary(p, Power(a, b), c), TERNARY);
    Printed(Power(a, Power(b, c)));
    Printed(Binary(p, a, Power(b, c)));
    Printed(Binary(p, Power(a, b), c));
    Group5(ShowBare(a), [DStar], ShowBare(b), [DStar], ShowBare(c));
    Group5(ShowBare(a), [Sym(p)], ShowBare(b), [DStar], ShowBare(c));
  }

  lemma IfIs(t: Tree, a: Tree, b: Tree)
    ensures ShowBare(IfExp(t, a, b)) == Show(a, 1) + [IfT] + Show(t, 1) + [ElseT] + Show(b, TERNARY)
    ensures Level(IfExp(t, a, b)) == TERNARY
    ensures WellFormed(t) && WellFormed(a) && WellFormed(b) ==> WellFormed(IfExp(t, a, b))
  {
  }

  /** `a if t else b if u else c`: the conditional goes to the right. */
  lemma Conditionals(a: Tree, t: Tree, b: Tree, u: Tree, c: Tree)
    requires Operand(a) && Operand(t) && Operand(b) && Operand(u) && Operand(c)
    ensures ParseTo(
      ShowBare(a) + [IfT] + ShowBare(t) + [ElseT] + (ShowBare(b) + [IfT] + ShowBare(u) + [ElseT] + ShowBare(c)),
      IfExp(t, a, IfExp(u, b, c)))
  {
    hide *;
    Levels();
    Fits(a);
    Fits(t);
    Fits(b);
    Fits(u);
    Fits(c);
    IfIs(u, b, c);
    IfIs(t, a, IfExp(u, b, c));
    ShowIs(IfExp(u, b, c), TERNARY);
    ShowIs(IfExp(t, a, IfExp(u, b, c)), TERNARY);
    Printed(IfExp(t, a, IfExp(u, b, c)));
  }

  /** `a p b if t else c` and `a if t else b p c`: and it is the loosest. */
  lemma ConditionalLoosest(a: Tree, t: Tree, p: Infix, b: Tree, c: Tree)
    requires Operand(a) && Operand(t) && Operand(b) && Operand(c)
    ensures ParseTo((ShowBare(a) + [Sym(p)] + ShowBare(b)) + [IfT] + ShowBare(t) + [ElseT] + ShowBare(c),
      IfExp(t, Binary(p, a, b), c))
    ensures ParseTo(ShowBare(a) + [IfT] + ShowBare(t) + [ElseT] + (ShowBare(b) + [Sym(p)] + ShowBare(c)),
      IfExp(t, a, Binary(p, b, c)))
  {
    hide *;
    Levels();
    LooseIs(p);
    Fits(a);
    Fits(t);
    Fits(b);
    Fits(c);
    BinaryIs(p, a, b);
    BinaryIs(p, b, c);
    IfIs(t, Binary(p, a, b), c);
    IfIs(t, a, Binary(p, b, c));
    ShowIs(Binary(p, a, b), 1);
    ShowIs(Binary(p, b, c), TERNARY);
    ShowIs(IfExp(t, Binary(p, a, b), c), TERNARY);
    ShowIs(IfExp(t, a, Binary(p, b, c)), TERNARY);
    Printed(IfExp(t, Binary(p, a, b), c));
    Printed(IfExp(t, a, Binary(p, b, c)));
  }

  lemma AwaitIs(a: Tree)
    ensures ShowBare(Await(a)) == [AwaitT] + Show(a, POSTFIX) && Level(Await(a)) == AWAIT
    ensures WellFormed(a) ==> WellFormed(Await(a))
  {
  }

  /** `await a ** b`: `await` is tighter than `**`. */
  lemma AwaitFirst(a: Tree, b: Tree)
    requires Operand(a) && Operand(b)
    ensures ParseTo([AwaitT] + ShowBare(a) + [DStar] + ShowBare(b), Power(Await(a), b))
  {
    hide *;
    Levels();
    Fits(a);
    Fits(b);
    AwaitIs(a);
    PowerIs(Await(a), b);
    ShowIs(Await(a), AWAIT);
    ShowIs(Power(Await(a), b), TERNARY);
    Printed(Power(Await(a), b));
  }

  // ----- parentheses and commas that need not be there -----

  /** Whatever stands between parentheses means the same without them. */
  lemma Parenthesized(ts: Tokens, e: Tree)
    requires ParseTo(ts, e)
    ensures ParseTo([LPar] + ts + [RPar], e)
  {
    hide ParseAt, WellFormed;
    forall rest: Tokens | Stops(TERNARY, rest)
      ensures ParseAt(TERNARY, [LPar] + ts + [RPar] + rest) == Some(Parsed(e, rest))
    {
      var us := [LPar] + ts + [RPar] + rest;
      assert us[1..] == ts + ([RPar] + rest);
      assert Stops(TERNARY, [RPar] + rest);
      Builds(TERNARY, us[1..]);
      assert us[1..][0] == ts[0];
      ParensParse(us, e, rest);
      Descend(TERNARY, ATOM, us, e, rest);
    }
  }

  lemma {:induction false} CommasGo(cs: Tokens, ts: Tokens)
    requires (forall i | 0 <= i < |cs| :: cs[i] == Comma) && !Ahead(ts, Comma)
    ensures SkipCommas(cs + ts) == ts
    decreases |cs|
  {
    if cs == [] {
      assert cs + ts == ts;
    } else {
      CommasGo(cs[1..], ts);
      assert (cs + ts)[1..] == cs[1..] + ts;
    }
  }

  /** Any number of commas may stand before an item of a call or a list, and before its closing bracket. */
  lemma Commas(close: Token, cs: Tokens, ts: Tokens)
    requires close != Comma && (forall i | 0 <= i < |cs| :: cs[i] == Comma) && !Ahead(ts, Comma)
    ensures ParseItems(close, cs + ts) == ParseItems(close, ts)
  {
    CommasGo(cs, ts);
    CommasGo([], ts);
    assert [] + ts == ts;
    hide ParseAt, SkipCommas, AtSpecialArg;
    if cs == [] {
      assert cs + ts == ts;
    } else {
      assert (cs + ts)[0] == Comma;
    }
  }
}
