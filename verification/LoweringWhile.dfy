/** The code of a `while`: its labels and its parts. */
module LoweringWhile {
  import opened Words
  import opened Wrappers
  import opened Python
  import opened IR
  import opened Lowering
  import opened LoweringGrows
  import opened Typing
  import opened LoweringCorrect
  import opened IRCheck
  import opened LoweringEnds

  lemma WhileChain(s: Stmt, c: Ctx)
    requires s.While?
    ensures var head := WhileHead(c);
      var r := LowerExpr(s.test, head);
      var open := WhileOpen(s, c, r);
      var body := JumpIfOpen(LowerStmts(s.body, open), c.lbl);
      && Straight(head, r.c) && Grows(r.c, open) && Grows(open, body)
      && LowerWhile(s, c) == CloseLoop(body, c) && body.exit == Some(c.lbl + 2) && body.cont == Some(c.lbl)
  {
    var head := WhileHead(c);
    var r := LowerExpr(s.test, head);
    var open := WhileOpen(s, c, r);
    ExprGrows(s.test, head);
    BranchGrows(r.c, r.t, c.lbl + 1, c.lbl + 2);
    BlockGrows(s.body, open, c.lbl);
  }

  lemma WhileCodes(s: Stmt, c: Ctx)
    requires s.While?
    ensures var head := WhileHead(c);
      var body := JumpIfOpen(LowerStmts(s.body, WhileOpen(s, c, LowerExpr(s.test, head))), c.lbl);
      && head.code == c.code + [Jmp(c.lbl)] + [Label(c.lbl)] && Prefix(body.code, LowerWhile(s, c).code)
      && (body.exit == Some(c.lbl + 2) ==> LowerWhile(s, c).code == body.code + [Label(c.lbl + 2)])
  {
    hide LowerExpr, LowerStmts;
  }

  lemma WhilePrefixes(s: Stmt, c: Ctx)
    requires s.While?
    ensures var body := JumpIfOpen(LowerStmts(s.body, WhileOpen(s, c, LowerExpr(s.test, WhileHead(c)))), c.lbl);
      && WhileHead(c).code == c.code + [Jmp(c.lbl)] + [Label(c.lbl)]
      && Prefix(WhileHead(c).code, LowerWhile(s, c).code)
      && LowerWhile(s, c).code == body.code + [Label(c.lbl + 2)]
  {
    hide *;
    var head := WhileHead(c);
    var r := LowerExpr(s.test, head);
    var open := WhileOpen(s, c, r);
    var body := JumpIfOpen(LowerStmts(s.body, open), c.lbl);
    WhileChain(s, c);
    WhileCodes(s, c);
    StraightGrows(head, r.c);
    GrowsParts(head, r.c);
    GrowsParts(r.c, open);
    GrowsParts(open, body);
    PrefixTrans(head.code, r.c.code, open.code);
    PrefixTrans(head.code, open.code, body.code);
    PrefixTrans(head.code, body.code, LowerWhile(s, c).code);
  }

  /** The labels of a `while` are where control expects them. */
  lemma WhileLabels(w: World, s: Stmt, c: Ctx)
    requires s.While? && UniqueLabels(w.code) && Prefix(LowerWhile(s, c).code, w.code)
    ensures At(w.code, c.lbl, |c.code| + 1) && At(w.code, c.lbl + 2, |LowerWhile(s, c).code| - 1)
    ensures Prefix(WhileHead(c).code, LowerWhile(s, c).code)
  {
    hide *;
    var body := JumpIfOpen(LowerStmts(s.body, WhileOpen(s, c, LowerExpr(s.test, WhileHead(c)))), c.lbl);
    WhilePrefixes(s, c);
    PrefixTrans(WhileHead(c).code, LowerWhile(s, c).code, w.code);
    LabelAt(w.code, c.code + [Jmp(c.lbl)], c.lbl);
    LabelAt(w.code, body.code, c.lbl + 2);
  }

  /** The states of a loop run in the world of the whole statement. */
  lemma WhileFits(w: World, s: Stmt, c: Ctx, env: Env, V: Vars)
    requires s.While? && Runs(w, c, LowerWhile(s, c), env, V)
    ensures var head := WhileHead(c);
      var open := WhileOpen(s, c, LowerExpr(s.test, head));
      var body := JumpIfOpen(LowerStmts(s.body, open), c.lbl);
      && Ready(w, head, env, V) && Prefix(head.code, w.code) && Prefix(open.code, w.code)
      && Runs(w, open, body, env, V) && Prefix(body.code + [Label(c.lbl + 2)], w.code)
      && LowerWhile(s, c).code == body.code + [Label(c.lbl + 2)]
      && c.tmp <= open.tmp && open.exit == Some(c.lbl + 2) && open.cont == Some(c.lbl)
  {
    var head := WhileHead(c);
    var r := LowerExpr(s.test, head);
    var open := WhileOpen(s, c, r);
    var body := JumpIfOpen(LowerStmts(s.body, open), c.lbl);
    WhileChain(s, c);
    WhileLabels(w, s, c);
    PrefixTrans(body.code, LowerWhile(s, c).code, w.code);
    PrefixTrans(open.code, body.code, w.code);
    PrefixTrans(r.c.code, open.code, w.code);
    PrefixTrans(head.code, r.c.code, w.code);
  }

  lemma WhileUnfolds(w: World, s: Stmt, c: Ctx, env: Env, V: Vars, fuel: nat)
    requires s.While? && Runs(w, c, LowerWhile(s, c), env, V) && StmtTyped(s, c)
    ensures var head := WhileHead(c);
      var r := LowerExpr(s.test, head);
      && WellTyped(s.test, head.vars, head.funcs.Keys) && StmtsTyped(s.body, WhileOpen(s, c, r))
      && WhileOpen(s, c, r) == Branch(r.c, r.t, c.lbl + 1, c.lbl + 2)
      && head.code == c.code + [Jmp(c.lbl)] + [Label(c.lbl)] && Emit(c, Jmp(c.lbl)).code == c.code + [Jmp(c.lbl)]
      && head.tmp == c.tmp
    ensures Exec(w.Fs, s, env, fuel) == var ev := EvalExpr(w.Fs, s.test, env);
      if !ev.Val? then OfEval(ev)
      else if !Truthy(ev.value) then Next(env)
      else if fuel == 0 then OutOfTime(0)
      else
        var o := ExecAll(w.Fs, s.body, env, fuel);
        if o.Next? || o.Continued? then Later(Exec(w.Fs, s, o.env, fuel - 1)) else if o.Broke? then Next(o.env) else o
  {
    hide Runs, LowerExpr, EvalExpr, ExecAll, Prefix;
  }

  /** The body stands behind the condition label. */
  lemma WhileOpenFar(s: Stmt, c: Ctx)
    requires s.While?
    ensures |WhileOpen(s, c, LowerExpr(s.test, WhileHead(c))).code| > |c.code| + 1
  {
    WhileChain(s, c);
    hide LowerExpr, LowerStmts;
  }
}
