/** The statements the parser can build are exactly the well-formed ones, but for empty bodies. */
module ProgramBuilds {
  import opened Wrappers
  import opened Syntax
  import opened ExprParser
  import opened StmtParser
  import opened StmtRoundTrip
  import opened ParserBuilds

  /** Every body has a statement. */
  predicate Filled(n: Node)
    decreases n, 0
  {
    Simple(n) || (
      && n.body != [] && AllFilled(n.body) && (n.IfS? ==> ArmsFilled(n.elifs))
      && (!n.DefS? ==> AllFilled(n.orelse)))
  }

  predicate AllFilled(ss: seq<Node>)
    decreases ss, 0
  {
    ss == [] || (Filled(ss[0]) && AllFilled(ss[1..]))
  }

  predicate ArmsFilled(arms: seq<Arm>)
    decreases arms, 0
  {
    arms == [] || (arms[0].body != [] && AllFilled(arms[0].body) && ArmsFilled(arms[1..]))
  }

  /** Well-formed, if the bodies are filled. */
  predicate Built(n: Node) {
    Filled(n) ==> WellFormedNode(n)
  }

  predicate AllBuilt(ss: seq<Node>) {
    AllFilled(ss) ==> WellFormedNodes(ss)
  }

  predicate ArmsBuilt(arms: seq<Arm>) {
    ArmsFilled(arms) ==> WellFormedArms(arms)
  }

  // ----- simple statements -----

  lemma {:induction false} AssignBuilds(targets: seq<Tree>, value: Tree, ts: Tokens)
    requires targets != [] && AllWellFormed(targets) && WellFormed(value)
    ensures var r := AssignLoop(targets, value, ts); r.Some? ==> Built(r.value.node)
    decreases |ts|
  {
    if Ahead(ts, Eq) {
      Builds(TERNARY, ts[1..]);
      var e := ParseAt(TERNARY, ts[1..]);
      hide ParseAt, WellFormed, ExprRoundTrip.Starts;
      if e.Some? {
        AllOne(value);
        AllAppend(targets, [value]);
        AssignBuilds(targets + [value], e.value.tree, e.value.rest);
      }
    } else {
      hide ParseAt, WellFormed, SkipNewline;
    }
  }

  lemma ExprStmtBuilds(ts: Tokens)
    ensures var r := ParseExprStmt(ts); r.Some? ==> Built(r.value.node)
  {
    hide ParseAt, WellFormed, ExprRoundTrip.Starts, SkipNewline, AssignLoop;
    Builds(TERNARY, ts);
    var e := ParseAt(TERNARY, ts);
    if e.Some? {
      var us := e.value.rest;
      if us != [] && (us[0] == Eq || IsAug(us[0])) {
        Builds(TERNARY, us[1..]);
        var v := ParseAt(TERNARY, us[1..]);
        if us[0] == Eq && v.Some? {
          AllOne(e.value.tree);
          AssignBuilds([e.value.tree], v.value.tree, v.value.rest);
        }
      }
    }
  }

  lemma ReturnBuilds(ts: Tokens)
    ensures var r := ParseReturn(ts); r.Some? ==> Built(r.value.node)
  {
    hide ParseAt, WellFormed, ExprRoundTrip.Starts, SkipNewline;
    Builds(TERNARY, ts);
  }

  lemma HeadBuilds(ts: Tokens)
    ensures var r := ParseHead(ts); r.Some? ==> WellFormed(r.value.tree) && |r.value.rest| < |ts|
  {
    hide ParseAt, WellFormed, ExprRoundTrip.Starts;
    Builds(TERNARY, ts);
  }

  // ----- compound statements -----

  lemma {:induction false} StmtBuilds(ts: Tokens)
    ensures var r := ParseStmt(ts); r.Some? ==> Built(r.value.node)
    decreases |ts|, 2
  {
    hide ParseExprStmt, ParseReturn, ParseIf, ParseWhile, ParseFor, ParseDef, SkipNewline, SkipEnds, WellFormed;
    var us := SkipEnds(ts);
    if us != [] {
      ExprStmtBuilds(us);
      ReturnBuilds(us[1..]);
      IfBuilds(us[1..]);
      WhileBuilds(us[1..]);
      ForBuilds(us[1..]);
      DefBuilds(us[1..]);
    }
  }

  lemma OneMore(n: Node, ss: seq<Node>)
    ensures Built(n) && AllBuilt(ss) ==> AllBuilt([n] + ss)
  {
    hide Filled, WellFormedNode;
    assert ([n] + ss)[1..] == ss;
  }

  lemma NoneBuilt()
    ensures AllBuilt([]) && ArmsBuilt([])
  {
  }

  lemma {:induction false} BlockBuilds(ts: Tokens)
    ensures var r := ParseBlock(ts); r.Some? ==> AllBuilt(r.value.nodes)
    decreases |ts|, 3
  {
    hide ParseStmt, BlockLoop, SkipEnds, Built, AllBuilt;
    var us := SkipEnds(ts);
    NoneBuilt();
    if us != [] {
      if us[0] == Indent {
        LoopBuilds(us[1..]);
      } else {
        StmtBuilds(us);
        if ParseStmt(us).Some? {
          OneMore(ParseStmt(us).value.node, []);
          assert [ParseStmt(us).value.node] + [] == [ParseStmt(us).value.node];
        }
      }
    }
  }

  lemma {:induction false} LoopBuilds(ts: Tokens)
    ensures var r := BlockLoop(ts); r.Some? ==> AllBuilt(r.value.nodes)
    decreases |ts|, 3
  {
    hide ParseStmt, SkipEnds, Built, AllBuilt;
    var us := SkipEnds(ts);
    NoneBuilt();
    if us != [] && us[0] != Dedent {
      StmtBuilds(us);
      var s := ParseStmt(us);
      if s.Some? {
        LoopBuilds(s.value.rest);
        var more := BlockLoop(s.value.rest);
        if more.Some? {
          OneMore(s.value.node, more.value.nodes);
        }
      }
    }
  }

  lemma OneArm(a: Arm, arms: seq<Arm>)
    requires WellFormed(a.test) && AllBuilt(a.body) && ArmsBuilt(arms)
    ensures ArmsBuilt([a] + arms)
  {
    hide AllFilled, WellFormedNodes, WellFormed;
    assert ([a] + arms)[1..] == arms;
  }

  lemma {:induction false} ArmsBuild(ts: Tokens)
    ensures var r := ParseArms(ts); r.Some? ==> ArmsBuilt(r.value.arms)
    decreases |ts|, 1
  {
    hide ParseHead, ParseBlock, SkipEnds, AllBuilt, ArmsBuilt, WellFormed;
    var us := SkipEnds(ts);
    NoneBuilt();
    if Ahead(us, ElifT) {
      HeadBuilds(us[1..]);
      var test := ParseHead(us[1..]);
      if test.Some? {
        BlockBuilds(test.value.rest);
        var body := ParseBlock(test.value.rest);
        if body.Some? {
          ArmsBuild(body.value.rest);
          var more := ParseArms(body.value.rest);
          if more.Some? {
            OneArm(Arm(test.value.tree, body.value.nodes), more.value.arms);
          }
        }
      }
    }
  }

  lemma ElseBuilds(ts: Tokens)
    ensures var r := ParseElse(ts); r.Some? ==> AllBuilt(r.value.nodes)
    decreases |ts|, 0
  {
    hide ParseBlock, AllBuilt;
    NoneBuilt();
    if Ahead(ts, ElseT) && Ahead(ts[1..], Colon) {
      BlockBuilds(ts[2..]);
    }
  }

  lemma CompoundBuilt(n: Node)
    requires !Simple(n) && AllBuilt(n.body) && (n.IfS? ==> ArmsBuilt(n.elifs))
    requires !n.DefS? ==> WellFormed(Head(n)) && AllBuilt(n.orelse)
    ensures Built(n)
  {
    hide AllFilled, ArmsFilled, WellFormedNodes, WellFormedArms, WellFormed;
  }

  lemma IfBuilds(ts: Tokens)
    ensures var r := ParseIf(ts); r.Some? ==> Built(r.value.node)
    decreases |ts|, 4
  {
    hide ParseHead, ParseBlock, ParseArms, ParseElse, AllBuilt, ArmsBuilt, Built, WellFormed;
    HeadBuilds(ts);
    var test := ParseHead(ts);
    if test.Some? {
      BlockBuilds(test.value.rest);
      var body := ParseBlock(test.value.rest);
      if body.Some? {
        ArmsBuild(body.value.rest);
        var arms := ParseArms(body.value.rest);
        if arms.Some? {
          ElseBuilds(arms.value.rest);
          if ParseElse(arms.value.rest).Some? {
            CompoundBuilt(ParseIf(ts).value.node);
          }
        }
      }
    }
  }

  lemma WhileBuilds(ts: Tokens)
    ensures var r := ParseWhile(ts); r.Some? ==> Built(r.value.node)
    decreases |ts|, 4
  {
    hide ParseHead, ParseBlock, ParseElse, AllBuilt, Built, WellFormed, SkipEnds;
    HeadBuilds(ts);
    var test := ParseHead(ts);
    if test.Some? {
      BlockBuilds(test.value.rest);
      var body := ParseBlock(test.value.rest);
      if body.Some? {
        ElseBuilds(SkipEnds(body.value.rest));
        if ParseElse(SkipEnds(body.value.rest)).Some? {
          CompoundBuilt(ParseWhile(ts).value.node);
        }
      }
    }
  }

  lemma ForBuilds(ts: Tokens)
    ensures var r := ParseFor(ts); r.Some? ==> Built(r.value.node)
    decreases |ts|, 4
  {
    hide ParseHead, ParseBlock, ParseElse, AllBuilt, Built, WellFormed, SkipEnds;
    if |ts| >= 2 {
      HeadBuilds(ts[2..]);
      var iter := ParseHead(ts[2..]);
      if iter.Some? {
        BlockBuilds(iter.value.rest);
        var body := ParseBlock(iter.value.rest);
        if body.Some? {
          ElseBuilds(SkipEnds(body.value.rest));
          if ParseFor(ts).Some? {
            CompoundBuilt(ParseFor(ts).value.node);
          }
        }
      }
    }
  }

  lemma DefBuilds(ts: Tokens)
    ensures var r := ParseDef(ts); r.Some? ==> Built(r.value.node)
    decreases |ts|, 4
  {
    hide ParseParams, ParseBlock, AllBuilt, Built;
    if ParseDef(ts).Some? {
      var ps := ParseParams(ts[2..]);
      BlockBuilds(ps.value.rest[2..]);
      CompoundBuilt(ParseDef(ts).value.node);
    }
  }

  lemma {:induction false} ProgramBuilds(ts: Tokens)
    ensures var r := ParseProgram(ts); r.Some? ==> AllBuilt(r.value)
    decreases |ts|
  {
    hide ParseStmt, SkipEnds, Built, AllBuilt;
    var us := SkipEnds(ts);
    NoneBuilt();
    if us != [] {
      StmtBuilds(us);
      var s := ParseStmt(us);
      if s.Some? {
        ProgramBuilds(s.value.rest);
        var more := ParseProgram(s.value.rest);
        if more.Some? {
          OneMore(s.value.node, more.value);
        }
      }
    }
  }

  lemma {:induction false} FormedFilled(n: Node)
    requires WellFormedNode(n)
    ensures Filled(n)
    decreases n, 0
  {
    hide WellFormed, WellFormedSimple;
    if !Simple(n) {
      AllFormedFilled(n.body);
      if n.IfS? {
        ArmsFormedFilled(n.elifs);
      }
      if !n.DefS? {
        AllFormedFilled(n.orelse);
      }
    }
  }

  lemma {:induction false} AllFormedFilled(ss: seq<Node>)
    requires WellFormedNodes(ss)
    ensures AllFilled(ss)
    decreases ss, 0
  {
    hide WellFormedNode, Filled;
    if ss != [] {
      FormedFilled(ss[0]);
      AllFormedFilled(ss[1..]);
    }
  }

  lemma {:induction false} ArmsFormedFilled(arms: seq<Arm>)
    requires WellFormedArms(arms)
    ensures ArmsFilled(arms)
    decreases arms, 0
  {
    hide WellFormedNodes, AllFilled, WellFormed;
    if arms != [] {
      AllFormedFilled(arms[0].body);
      ArmsFormedFilled(arms[1..]);
    }
  }

  /** A program without empty bodies is what the parser makes of some tokens if and only if it is well-formed. */
  lemma BuiltIff(ss: seq<Node>)
    ensures WellFormedNodes(ss) <==> AllFilled(ss) && exists ts :: ParseProgram(ts) == Some(ss)
  {
    hide WellFormedNodes, AllFilled, ParseProgram, ShowNodes, SkipEnds;
    if WellFormedNodes(ss) {
      AllFormedFilled(ss);
      NothingLeft();
      ProgramParses(ss, []);
      assert ParseProgram(ShowNodes(ss) + []) == Some(ss);
    }
    forall ts | ParseProgram(ts) == Some(ss) && AllFilled(ss)
      ensures WellFormedNodes(ss)
    {
      ProgramBuilds(ts);
    }
  }

  lemma NothingLeft()
    ensures SkipEnds([]) == []
  {
  }
}
