/** The code of an `if`: its labels, and its arms as parts of the whole. */
module LoweringIf {
  import opened Words
  import opened Wrappers
  import opened Python
  import opened IR
  import opened Lowering
  import opened LoweringGrows
  import opened Typing
  import opened LoweringCorrect
  import opened IRCheck
  import opened LoweringEnds

  /** The states an `if` goes through, in order, up to its merge label. */
  lemma IfChain(s: Stmt, c: Ctx)
    requires s.If?
    ensures var r := LowerExpr(s.test, c);
      var arms := LowerElifs(s, 0, r.c, IfBody(s, r));
      var tail := IfTail(s, r.c, arms);
      && Straight(c, r.c) && Grows(r.c, IfOpen(s, r)) && Grows(IfOpen(s, r), IfBody(s, r))
      && Grows(IfBody(s, r), tail) && Grows(tail, LowerIf(s, c)) && Grows(IfBody(s, r), arms) && Grows(arms, tail)
  {
    var r := LowerExpr(s.test, c);
    var arms := LowerElifs(s, 0, r.c, IfBody(s, r));
    var tail := IfTail(s, r.c, arms);
    ExprGrows(s.test, c);
    IfOpenGrows(s, r);
    BlockGrows(s.body, IfOpen(s, r), MergeLabel(r.c));
    ElifsGrows(s, 0, r.c, IfBody(s, r));
    IfTailGrows(s, r.c, arms);
    EmitGrows(tail, Label(MergeLabel(r.c)));
    Trans(IfBody(s, r), arms, tail);
  }

  lemma ElifChain(s: Stmt, i: nat, at: Ctx, c: Ctx)
    requires s.If? && i < |s.elifs|
    ensures var c1 := Emit(c, Label(TestLabel(at, i)));
      var r := ElifTest(s, i, at, c);
      var open := ElifOpen(s, i, at, r);
      var body := ElifBody(s, i, at, r);
      Grows(c, c1) && Straight(c1, r.c) && Grows(r.c, open) && Grows(open, body) && Grows(body, LowerElifs(s, i, at, c))
  {
    var c1 := Emit(c, Label(TestLabel(at, i)));
    var r := ElifTest(s, i, at, c);
    var open := ElifOpen(s, i, at, r);
    EmitGrows(c, Label(TestLabel(at, i)));
    ExprGrows(s.elifs[i].test, c1);
    BranchGrows(r.c, r.t, BodyLabel(at, i), ArmLabel(s, at, i + 1));
    BlockGrows(s.elifs[i].body, open, MergeLabel(at));
    ElifsGrows(s, i + 1, at, ElifBody(s, i, at, r));
  }

  /** The state at the merge label, when the arms from the `i`-th on start in state `c`. */
  function ArmsEnd(s: Stmt, i: nat, at: Ctx, c: Ctx): Ctx
    requires s.If? && i <= |s.elifs|
  {
    IfTail(s, at, LowerElifs(s, i, at, c))
  }

  lemma ArmsGrow(s: Stmt, i: nat, at: Ctx, c: Ctx)
    requires s.If? && i <= |s.elifs|
    ensures Grows(c, ArmsEnd(s, i, at, c))
  {
    ElifsGrows(s, i, at, c);
    IfTailGrows(s, at, LowerElifs(s, i, at, c));
    Trans(c, LowerElifs(s, i, at, c), ArmsEnd(s, i, at, c));
  }

  /** The arms from the `i`-th on start with the label the tests before them jump to. */
  lemma ArmAt(w: World, s: Stmt, i: nat, at: Ctx, c: Ctx)
    requires s.If? && i <= |s.elifs| && UniqueLabels(w.code)
    requires Prefix(ArmsEnd(s, i, at, c).code + [Label(MergeLabel(at))], w.code)
    ensures At(w.code, ArmLabel(s, at, i), |c.code|)
  {
    var end := ArmsEnd(s, i, at, c);
    if i < |s.elifs| {
      ElifChain(s, i, at, c);
      IfTailGrows(s, at, LowerElifs(s, i, at, c));
      assert c.code + [Label(TestLabel(at, i))] <= end.code;
      LabelAt(w.code, c.code, TestLabel(at, i));
    } else if s.orelse != [] {
      var c1 := Emit(c, Label(ElseLabel(s, at)));
      BlockGrows(s.orelse, c1, MergeLabel(at));
      LabelAt(w.code, c.code, ElseLabel(s, at));
    } else {
      LabelAt(w.code, c.code, MergeLabel(at));
    }
  }

  lemma IfUnfolds(w: World, s: Stmt, c: Ctx, env: Env, fuel: nat)
    requires s.If? && StmtTyped(s, c)
    ensures var r := LowerExpr(s.test, c);
      && WellTyped(s.test, c.vars, c.funcs.Keys) && StmtsTyped(s.body, IfOpen(s, r))
      && ElifsTyped(s, 0, r.c, IfBody(s, r))
      && IfBody(s, r) == JumpIfOpen(LowerStmts(s.body, IfOpen(s, r)), MergeLabel(r.c))
      && IfOpen(s, r).code == Branch(r.c, r.t, ThenLabel(r.c), ArmLabel(s, r.c, 0)).code
    ensures Exec(w.Fs, s, env, fuel) == var ev := EvalExpr(w.Fs, s.test, env);
      if !ev.Val? then OfEval(ev)
      else if Truthy(ev.value) then ExecAll(w.Fs, s.body, env, fuel)
      else ExecElifs(w.Fs, s, 0, env, fuel)
  {
    hide LowerExpr, EvalExpr, ExecAll, ExecElifs, LowerStmts;
  }

  /** The states of an `if` run in its world. */
  lemma IfFits(w: World, s: Stmt, c: Ctx, env: Env, V: Vars)
    requires s.If? && Runs(w, c, LowerIf(s, c), env, V)
    ensures var r := LowerExpr(s.test, c);
      var open, body := IfOpen(s, r), IfBody(s, r);
      var tail := ArmsEnd(s, 0, r.c, body);
      && Runs(w, open, body, env, V) && Ready(w, body, env, V) && Placed(w, body) && Prefix(open.code, w.code)
      && Prefix(tail.code + [Label(MergeLabel(r.c))], w.code)
      && LowerIf(s, c).code == tail.code + [Label(MergeLabel(r.c))]
      && Extends(Emit(tail, Label(MergeLabel(r.c))).vars, w.G)
      && Prefix(Emit(tail, Label(MergeLabel(r.c))).code, w.code)
      && c.tmp <= open.tmp && open.exit == c.exit && open.cont == c.cont
      && c.tmp <= body.tmp && body.exit == c.exit && body.cont == c.cont
  {
    var r := LowerExpr(s.test, c);
    var open, body, d := IfOpen(s, r), IfBody(s, r), LowerIf(s, c);
    var tail := ArmsEnd(s, 0, r.c, body);
    IfChain(s, c);
    assert d.code == tail.code + [Label(MergeLabel(r.c))] && !Terminated(open.code);
    hide Prefix, LowerExpr, LowerStmts, LowerElifs, UniqueLabels, CallsAgree;
    hide Agrees, Typed, IfTail, IfOpen, IfBody, Terminated;
    PrefixTrans(tail.code, d.code, w.code);
    PrefixTrans(body.code, tail.code, w.code);
    PrefixTrans(open.code, body.code, w.code);
  }

  lemma ElseUnfolds(w: World, s: Stmt, at: Ctx, c: Ctx, env: Env, fuel: nat)
    requires s.If?
    ensures ExecElifs(w.Fs, s, |s.elifs|, env, fuel) == ExecAll(w.Fs, s.orelse, env, fuel)
    ensures ArmsEnd(s, |s.elifs|, at, c) == IfTail(s, at, c)
  {
  }

  lemma ElifUnfolds(w: World, s: Stmt, i: nat, at: Ctx, c: Ctx, env: Env, fuel: nat)
    requires s.If? && i < |s.elifs| && ElifsTyped(s, i, at, c)
    ensures var c1 := Emit(c, Label(TestLabel(at, i)));
      var r := ElifTest(s, i, at, c);
      var open, body := ElifOpen(s, i, at, r), ElifBody(s, i, at, r);
      && WellTyped(s.elifs[i].test, c1.vars, c1.funcs.Keys) && StmtsTyped(s.elifs[i].body, open)
      && ElifsTyped(s, i + 1, at, body)
      && c1.code == c.code + [Label(TestLabel(at, i))] && r == LowerExpr(s.elifs[i].test, c1) && c1.tmp == c.tmp
      && open == Branch(r.c, r.t, BodyLabel(at, i), ArmLabel(s, at, i + 1))
      && body == JumpIfOpen(LowerStmts(s.elifs[i].body, open), MergeLabel(at))
    ensures ExecElifs(w.Fs, s, i, env, fuel) == var ev := EvalExpr(w.Fs, s.elifs[i].test, env);
      if !ev.Val? then OfEval(ev)
      else if Truthy(ev.value) then ExecAll(w.Fs, s.elifs[i].body, env, fuel)
      else ExecElifs(w.Fs, s, i + 1, env, fuel)
  {
    hide LowerExpr, EvalExpr, ExecAll, LowerStmts;
  }

  /** The states of an arm run in the world of the whole `if`. */
  lemma ArmFits(w: World, s: Stmt, i: nat, at: Ctx, c: Ctx, env: Env, V: Vars)
    requires s.If? && i < |s.elifs|
    requires Ready(w, c, env, V) && UniqueLabels(w.code) && Placed(w, c)
    requires var d := Emit(ArmsEnd(s, i, at, c), Label(MergeLabel(at)));
      Extends(d.vars, w.G) && Prefix(d.code, w.code)
    ensures var c1 := Emit(c, Label(TestLabel(at, i)));
      var open := ElifOpen(s, i, at, ElifTest(s, i, at, c));
      var body := ElifBody(s, i, at, ElifTest(s, i, at, c));
      && Ready(w, c1, env, V) && Ready(w, body, env, V) && Placed(w, body) && Runs(w, open, body, env, V)
      && ArmsEnd(s, i, at, c) == ArmsEnd(s, i + 1, at, body)
      && Emit(ArmsEnd(s, i, at, c), Label(MergeLabel(at))).code == ArmsEnd(s, i, at, c).code + [Label(MergeLabel(at))]
      && Prefix(c1.code, w.code) && Prefix(open.code, w.code)
      && c.tmp <= open.tmp && c.exit == open.exit && c.cont == open.cont
      && c.tmp <= body.tmp && c.exit == body.exit && c.cont == body.cont
  {
    var r := ElifTest(s, i, at, c);
    var c1, open, body := Emit(c, Label(TestLabel(at, i))), ElifOpen(s, i, at, r), ElifBody(s, i, at, r);
    var end := ArmsEnd(s, i, at, c);
    ElifChain(s, i, at, c);
    ArmsGrow(s, i + 1, at, body);
    assert end == ArmsEnd(s, i + 1, at, body) && !Terminated(open.code);
    EmitGrows(end, Label(MergeLabel(at)));
    hide Prefix, ElifTest, ElifOpen, ElifBody, ArmsEnd, Terminated, Agrees, Typed, CallsAgree, UniqueLabels;
    PrefixTrans(end.code, Emit(end, Label(MergeLabel(at))).code, w.code);
    PrefixTrans(body.code, end.code, w.code);
    PrefixTrans(open.code, body.code, w.code);
    PrefixTrans(r.c.code, open.code, w.code);
    PrefixTrans(c1.code, r.c.code, w.code);
  }
}
