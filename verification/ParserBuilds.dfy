/** The trees the expression parser can build are exactly the well-formed ones. */
module ParserBuilds {
  import opened Wrappers
  import opened Syntax
  import opened ExprParser
  import opened ExprRoundTrip

  lemma {:induction false} AllAppend(es: seq<Tree>, fs: seq<Tree>)
    ensures AllWellFormed(es + fs) == (AllWellFormed(es) && AllWellFormed(fs))
    decreases |es|
  {
    hide WellFormed;
    if es == [] {
      assert es + fs == fs;
    } else {
      AllAppend(es[1..], fs);
      assert (es + fs)[1..] == es[1..] + fs;
    }
  }

  lemma AllOne(e: Tree)
    ensures AllWellFormed([e]) == WellFormed(e)
  {
    hide WellFormed;
    assert AllWellFormed([e][1..]);
  }

  /** A tree of the printer's, from tokens that start like one of level `k`. */
  predicate Built(k: nat, ts: Tokens, r: Result) {
    r.Some? ==> WellFormed(r.value.tree) && ts != [] && Starts(ts[0], k) && |r.value.rest| < |ts|
  }

  lemma {:induction false} Builds(k: nat, ts: Tokens)
    requires k <= ATOM
    ensures Built(k, ts, ParseAt(k, ts))
    decreases |ts|, 41 - 2 * k
  {
    hide *;
    Levels();
    LevelIs(ts);
    if k == ATOM {
      PrimaryBuilds(ts);
    } else {
      InfixLevelsAre(k);
      if IsInfixLevel(k) {
        InfixBuilds(k, ts);
      } else if k == TERNARY {
        TernaryBuilds(ts);
      } else if k == NOT {
        NotBuilds(ts);
      } else if k == COMPARE {
        CompareBuilds(ts);
      } else if k == UNARY {
        UnaryBuilds(ts);
      } else if k == POWER {
        PowerBuilds(ts);
      } else if k == AWAIT {
        AwaitBuilds(ts);
      } else {
        PostfixBuilds(ts);
      }
    }
  }

  /** The first operand of a level is one of the next level. */
  lemma Lower(k: nat, ts: Tokens, r: Result)
    requires Built(k + 1, ts, r)
    ensures Built(k, ts, r)
  {
    hide WellFormed;
    if r.Some? {
      StartsLower(ts[0], k, k + 1);
    }
  }

  lemma InfixBuilds(k: nat, ts: Tokens)
    requires IsInfixLevel(k) && k < ATOM
    ensures Built(k, ts, ParseAt(k, ts))
    decreases |ts|, 40 - 2 * k
  {
    hide ParseAt, InfixLoop, WellFormed, Starts;
    InfixIs(k, ts);
    Builds(k + 1, ts);
    var left := ParseAt(k + 1, ts);
    Lower(k, ts, left);
    if left.Some? {
      LoopBuilds(k, left.value.tree, left.value.rest);
    }
  }

  lemma {:induction false} LoopBuilds(k: nat, left: Tree, ts: Tokens)
    requires IsInfixLevel(k) && WellFormed(left)
    ensures var r := InfixLoop(k, left, ts); r.Some? ==> WellFormed(r.value.tree) && |r.value.rest| <= |ts|
    decreases |ts|, 20
  {
    if AtInfix(ts, k) {
      Builds(k + 1, ts[1..]);
      var right := ParseAt(k + 1, ts[1..]);
      hide ParseAt;
      if right.Some? {
        LoopBuilds(k, Binary(ts[0].op, left, right.value.tree), right.value.rest);
      }
    }
  }

  lemma TernaryBuilds(ts: Tokens)
    ensures Built(TERNARY, ts, ParseTernary(ts))
    decreases |ts|, 40
  {
    Builds(1, ts);
    var body := ParseAt(1, ts);
    Lower(TERNARY, ts, body);
    if body.Some? && Ahead(body.value.rest, IfT) {
      Builds(1, body.value.rest[1..]);
      var test := ParseAt(1, body.value.rest[1..]);
      if test.Some? && Ahead(test.value.rest, ElseT) {
        Builds(TERNARY, test.value.rest[1..]);
      }
    }
    hide ParseAt, Starts;
  }

  lemma NotBuilds(ts: Tokens)
    ensures Built(NOT, ts, ParseAt(NOT, ts))
    decreases |ts|, 34
  {
    NotIs(ts);
    NotInIs(ts);
    if Ahead(ts, NotT) && !AtNotIn(ts) {
      Builds(NOT, ts[1..]);
    } else {
      Builds(COMPARE, ts);
      Lower(NOT, ts, ParseAt(COMPARE, ts));
    }
    hide ParseAt;
  }

  lemma NotInIs(ts: Tokens)
    ensures AtNotIn(ts) ==> ParseAt(NOT, ts) == ParseAt(COMPARE, ts)
  {
    hide ParseCompare;
  }

  lemma CompareBuilds(ts: Tokens)
    ensures Built(COMPARE, ts, ParseCompare(ts))
    decreases |ts|, 32
  {
    Builds(COMPARE + 1, ts);
    var first := ParseAt(COMPARE + 1, ts);
    Lower(COMPARE, ts, first);
    if first.Some? {
      assert AllWellFormed([]);
      ChainBuilds(first.value.tree, [], [], first.value.rest);
    }
    hide ParseAt, Starts, ChainLoop;
  }

  lemma {:induction false} ChainBuilds(first: Tree, ops: seq<CmpOp>, es: seq<Tree>, ts: Tokens)
    requires WellFormed(first) && AllWellFormed(es) && |ops| == |es|
    ensures var r := ChainLoop(first, ops, es, ts); r.Some? ==> WellFormed(r.value.tree) && |r.value.rest| <= |ts|
    decreases |ts|, 20
  {
    if AtCmp(ts) {
      var us := ts[CmpWidth(ts)..];
      Builds(COMPARE + 1, us);
      var e := ParseAt(COMPARE + 1, us);
      hide ParseAt, WellFormed, Starts;
      if e.Some? {
        AllOne(e.value.tree);
        AllAppend(es, [e.value.tree]);
        var op := if AtNotIn(ts) then NotIn else ts[0].c;
        ChainBuilds(first, ops + [op], es + [e.value.tree], e.value.rest);
      }
    }
  }

  lemma UnaryBuilds(ts: Tokens)
    ensures Built(UNARY, ts, ParseAt(UNARY, ts))
    decreases |ts|, 18
  {
    UnaryIs(ts);
    if AtPrefix(ts) {
      Builds(UNARY, ts[1..]);
    } else {
      Builds(POWER, ts);
      Lower(UNARY, ts, ParseAt(POWER, ts));
    }
    hide ParseAt;
  }

  lemma PowerBuilds(ts: Tokens)
    ensures Built(POWER, ts, ParsePower(ts))
    decreases |ts|, 16
  {
    Builds(AWAIT, ts);
    var base := ParseAt(AWAIT, ts);
    Lower(POWER, ts, base);
    if base.Some? && Ahead(base.value.rest, DStar) {
      Builds(UNARY, base.value.rest[1..]);
    }
    hide ParseAt, Starts;
  }

  lemma AwaitBuilds(ts: Tokens)
    ensures Built(AWAIT, ts, ParseAt(AWAIT, ts))
    decreases |ts|, 14
  {
    AwaitIs(ts);
    if Ahead(ts, AwaitT) {
      Builds(POSTFIX, ts[1..]);
    } else {
      Builds(POSTFIX, ts);
      Lower(AWAIT, ts, ParseAt(POSTFIX, ts));
    }
    hide ParseAt;
  }

  lemma PostfixBuilds(ts: Tokens)
    ensures Built(POSTFIX, ts, ParseAt(POSTFIX, ts))
    decreases |ts|, 12
  {
    hide ParseAt, WellFormed, Starts, PostfixLoop;
    PostfixIs(ts);
    Builds(ATOM, ts);
    var a := ParseAt(ATOM, ts);
    Lower(POSTFIX, ts, a);
    if a.Some? {
      TailBuilds(a.value.tree, a.value.rest);
    }
  }

  lemma {:induction false} TailBuilds(node: Tree, ts: Tokens)
    requires WellFormed(node)
    ensures var r := PostfixLoop(node, ts); r.Some? ==> WellFormed(r.value.tree) && |r.value.rest| <= |ts|
    decreases |ts|, 20
  {
    hide ParseAt, ParseItems, Starts, WellFormed, AllWellFormed, MakeCall;
    if Ahead(ts, Dot) && |ts| >= 2 && ts[1].Name? {
      Made(node, [], ts[1].id);
      TailBuilds(Attr(node, ts[1].id), ts[2..]);
    } else if Ahead(ts, LPar) {
      ItemsBuild(RPar, ts[1..]);
      var args := ParseItems(RPar, ts[1..]);
      if args.Some? && Ahead(args.value.rest, RPar) {
        Made(node, args.value.trees, "");
        TailBuilds(MakeCall(node, args.value.trees), args.value.rest[1..]);
      }
    } else if Ahead(ts, LBrack) {
      Builds(TERNARY, ts[1..]);
      var i := ParseAt(TERNARY, ts[1..]);
      if i.Some? && Ahead(i.value.rest, RBrack) {
        Indexed(node, i.value.tree);
        TailBuilds(Subscript(node, i.value.tree), i.value.rest[1..]);
      }
    }
  }

  lemma Made(node: Tree, args: seq<Tree>, x: string)
    ensures WellFormed(node) ==> WellFormed(Attr(node, x))
    ensures WellFormed(node) && AllWellFormed(args) ==> WellFormed(MakeCall(node, args))
  {
    hide AllWellFormed;
  }

  lemma Indexed(node: Tree, i: Tree)
    ensures WellFormed(node) && WellFormed(i) ==> WellFormed(Subscript(node, i))
  {
  }

  lemma {:induction false} ItemsBuild(close: Token, ts: Tokens)
    ensures var r := ParseItems(close, ts); r.Some? ==> AllWellFormed(r.value.trees)
    decreases |ts|, 50
  {
    var us := SkipCommas(ts);
    Builds(TERNARY, us);
    var e := ParseAt(TERNARY, us);
    hide ParseAt, WellFormed, Starts, SkipCommas;
    if e.Some? {
      ItemsBuild(close, e.value.rest);
      var more := ParseItems(close, e.value.rest);
      if more.Some? {
        AllOne(e.value.tree);
        AllAppend([e.value.tree], more.value.trees);
      }
    }
  }

  lemma PrimaryBuilds(ts: Tokens)
    ensures Built(ATOM, ts, ParsePrimary(ts))
    decreases |ts|, 4
  {
    hide ParseParens, ParseItems, AllWellFormed;
    if Ahead(ts, LPar) {
      ParensBuild(ts[1..]);
    } else if Ahead(ts, LBrack) {
      ItemsBuild(RBrack, ts[1..]);
    }
  }

  lemma ParensBuild(ts: Tokens)
    ensures var r := ParseParens(ts); r.Some? ==> WellFormed(r.value.tree) && |r.value.rest| < |ts|
    decreases |ts|, 50
  {
    hide ParseAt, TupleLoop, Starts, WellFormed, AllWellFormed;
    Builds(TERNARY, ts);
    var e := ParseAt(TERNARY, ts);
    Tupled([]);
    if !Ahead(ts, RPar) && e.Some? && Ahead(e.value.rest, Comma) {
      TupleBuilds(e.value.rest);
      var more := TupleLoop(e.value.rest);
      if more.Some? {
        AllOne(e.value.tree);
        AllAppend([e.value.tree], more.value.trees);
        Tupled([e.value.tree] + more.value.trees);
      }
    }
  }

  lemma Tupled(es: seq<Tree>)
    ensures WellFormed(Tuple(es)) == AllWellFormed(es) && AllWellFormed([])
  {
  }

  lemma {:induction false} TupleBuilds(ts: Tokens)
    ensures var r := TupleLoop(ts); r.Some? ==> AllWellFormed(r.value.trees)
    decreases |ts|, 20
  {
    if Ahead(ts, Comma) && |ts| > 1 && ts[1] != RPar {
      Builds(TERNARY, ts[1..]);
      var e := ParseAt(TERNARY, ts[1..]);
      hide ParseAt, WellFormed, Starts;
      if e.Some? {
        TupleBuilds(e.value.rest);
        var more := TupleLoop(e.value.rest);
        if more.Some? {
          AllOne(e.value.tree);
          AllAppend([e.value.tree], more.value.trees);
        }
      }
    }
  }

  /** A tree is what the parser makes of some tokens if and only if it is well-formed. */
  lemma BuiltIff(e: Tree)
    ensures WellFormed(e) <==> exists ts :: ParseAt(TERNARY, ts) == Some(Parsed(e, []))
  {
    hide WellFormed, ParseAt, Show;
    if WellFormed(e) {
      RoundTrip(e, []);
      assert ParseAt(TERNARY, Show(e, TERNARY) + []) == Some(Parsed(e, []));
    }
    forall ts | ParseAt(TERNARY, ts) == Some(Parsed(e, []))
      ensures WellFormed(e)
    {
      Builds(TERNARY, ts);
    }
  }
}
