/** Running the IR emitted for a statement ends as executing the statement does. */
module LoweringStmts {
  import opened Words
  import opened Wrappers
  import opened Python
  import opened IR
  import opened Lowering
  import opened LoweringGrows
  import opened Typing
  import opened LoweringCorrect
  import opened IRCheck
  import opened LoweringEnds
  import opened LoweringSimple
  import opened LoweringIf
  import opened LoweringWhile
  import opened LoweringFor

  // ----- statements -----

  lemma {:induction false} StmtRuns(w: World, s: Stmt, c: Ctx, env: Env, T: Temps, V: Vars, fuel: nat)
    returns (s': State)
    requires Runs(w, c, LowerStmt(s, c), env, V) && StmtTyped(s, c)
    ensures Ends(w, Exec(w.Fs, s, env, fuel), Run(|c.code|, T, V), c, |LowerStmt(s, c).code|, T, s')
    decreases fuel, s, 3
  {
    hide Exec, Ends, Prefix, UniqueLabels, Placed, Extends, Agrees, Typed, CallsAgree;
    hide LowerIf, LowerWhile, LowerFor, LowerExpr, StmtTyped;
    match s
    case If(_, _, _, _) => s' := IfRuns(w, s, c, env, T, V, fuel);
    case While(_, _) => s' := WhileRuns(w, s, c, env, T, V, fuel);
    case ForRange(_, _, _) => s' := ForRuns(w, s, c, env, T, V, fuel);
    case _ => s' := SimpleRuns(w, s, c, env, T, V, fuel);
  }

  lemma {:induction false} StmtsRuns(w: World, ss: seq<Stmt>, c: Ctx, env: Env, T: Temps, V: Vars, fuel: nat)
    returns (s': State)
    requires Runs(w, c, LowerStmts(ss, c), env, V) && StmtsTyped(ss, c)
    ensures Ends(w, ExecAll(w.Fs, ss, env, fuel), Run(|c.code|, T, V), c, |LowerStmts(ss, c).code|, T, s')
    decreases fuel, ss, 0
  {
    var from := Run(|c.code|, T, V);
    if ss == [] {
      s' := from;
      ReachesRefl(w.code, w.Fi, from);
      return;
    }
    var d := LowerStmt(ss[0], c);
    StmtGrows(ss[0], c);
    StmtsGrows(ss[1..], d);
    s' := StmtRuns(w, ss[0], c, env, T, V, fuel);
    var o := Exec(w.Fs, ss[0], env, fuel);
    if o.Next? {
      var mid := s';
      NextIsOpen(w, ss[0], c, env, fuel);
      s' := StmtsRuns(w, ss[1..], d, o.env, mid.temps, mid.vars, fuel);
      EndsAfter(w, ExecAll(w.Fs, ss, env, fuel), from, mid, c, d, |LowerStmts(ss, c).code|, T, mid.temps, s');
    }
  }

  /** A block that jumps to `l` when it ends normally. */
  lemma {:induction false} BlockRuns(w: World, ss: seq<Stmt>, c: Ctx, l: nat, p: nat, env: Env, T: Temps, V: Vars,
                                     fuel: nat) returns (s': State)
    requires Runs(w, c, JumpIfOpen(LowerStmts(ss, c), l), env, V) && StmtsTyped(ss, c) && At(w.code, l, p)
    ensures Ends(w, ExecAll(w.Fs, ss, env, fuel), Run(|c.code|, T, V), c, p, T, s')
    decreases fuel, ss, 1
  {
    var d := LowerStmts(ss, c);
    s' := StmtsRuns(w, ss, c, env, T, V, fuel);
    if ExecAll(w.Fs, ss, env, fuel).Next? {
      BlockIsOpen(w, ss, c, env, fuel);
      JumpRuns(w, d, l, p, s'.temps, s'.vars);
      ReachesTrans(w.code, w.Fi, Run(|c.code|, T, V), s', Run(p, s'.temps, s'.vars));
      s' := Run(p, s'.temps, s'.vars);
    }
  }

  // ----- if -----

  lemma {:induction false} IfRuns(w: World, s: Stmt, c: Ctx, env: Env, T: Temps, V: Vars, fuel: nat) returns (s': State)
    requires s.If?
    requires Runs(w, c, LowerIf(s, c), env, V) && StmtTyped(s, c)
    ensures Ends(w, Exec(w.Fs, s, env, fuel), Run(|c.code|, T, V), c, |LowerIf(s, c).code|, T, s')
    decreases fuel, s, 2
  {
    hide *;
    RunsIs(w, c, LowerIf(s, c), env, V);
    var r := LowerExpr(s.test, c);
    var open, body, d := IfOpen(s, r), IfBody(s, r), LowerIf(s, c);
    var tail := ArmsEnd(s, 0, r.c, body);
    var merge := MergeLabel(r.c);
    var from := Run(|c.code|, T, V);
    var o := Exec(w.Fs, s, env, fuel);
    IfFits(w, s, c, env, V);
    IfUnfolds(w, s, c, env, fuel);
    LabelAt(w.code, tail.code, merge);
    ArmAt(w, s, 0, r.c, body);
    var T1 := TestRuns(w, s.test, c, ThenLabel(r.c), ArmLabel(s, r.c, 0), |body.code|, env, T, V);
    var ev := EvalExpr(w.Fs, s.test, env);
    s' := from;
    if !ev.Val? {
      EvalEnds(w, ev, from, c, |tail.code|, T, s');
    } else if Truthy(ev.value) {
      s' := BlockRuns(w, s.body, open, merge, |tail.code|, env, T1, V, fuel);
      EndsAfter(w, o, from, Run(|open.code|, T1, V), c, open, |tail.code|, T, T1, s');
    } else {
      s' := ElifsRuns(w, s, 0, r.c, body, env, T1, V, fuel);
      EndsAfter(w, o, from, Run(|body.code|, T1, V), c, body, |tail.code|, T, T1, s');
    }
    s' := EndsPastLabel(w, o, from, c, tail, merge, T, s');
  }

  /** The arms of an `if` from the `i`-th on, from their first label to the merge label. */
  lemma {:induction false} ElifsRuns(w: World, s: Stmt, i: nat, at: Ctx, c: Ctx, env: Env, T: Temps, V: Vars, fuel: nat)
    returns (s': State)
    requires s.If? && i <= |s.elifs| && ElifsTyped(s, i, at, c)
    requires Ready(w, c, env, V) && UniqueLabels(w.code) && Placed(w, c)
    requires var d := Emit(ArmsEnd(s, i, at, c), Label(MergeLabel(at)));
      Extends(d.vars, w.G) && Prefix(d.code, w.code)
    ensures Ends(w, ExecElifs(w.Fs, s, i, env, fuel), Run(|c.code|, T, V), c, |ArmsEnd(s, i, at, c).code|, T, s')
    decreases fuel, s, 1, |s.elifs| - i
  {
    hide *;
    var end := ArmsEnd(s, i, at, c);
    var from := Run(|c.code|, T, V);
    var o := ExecElifs(w.Fs, s, i, env, fuel);
    if i == |s.elifs| {
      ElseUnfolds(w, s, at, c, env, fuel);
      s' := ElseRuns(w, s, at, c, env, T, V, fuel);
      return;
    }
    var c1 := Emit(c, Label(TestLabel(at, i)));
    var r := ElifTest(s, i, at, c);
    var open, body := ElifOpen(s, i, at, r), ElifBody(s, i, at, r);
    ElifUnfolds(w, s, i, at, c, env, fuel);
    ArmFits(w, s, i, at, c, env, V);
    LabelAt(w.code, end.code, MergeLabel(at));
    ArmAt(w, s, i + 1, at, body);
    PassLabel(w, c, TestLabel(at, i), T, V);
    var T1 := TestRuns(w, s.elifs[i].test, c1, BodyLabel(at, i), ArmLabel(s, at, i + 1), |body.code|, env, T, V);
    var ev := EvalExpr(w.Fs, s.elifs[i].test, env);
    ReachesVia(w, from, Run(|c1.code|, T, V));
    s' := from;
    if !ev.Val? {
      EvalEnds(w, ev, from, c, |end.code|, T, s');
    } else if Truthy(ev.value) {
      s' := BlockRuns(w, s.elifs[i].body, open, MergeLabel(at), |end.code|, env, T1, V, fuel);
      EndsAfter(w, o, from, Run(|open.code|, T1, V), c, open, |end.code|, T, T1, s');
    } else {
      s' := ElifsRuns(w, s, i + 1, at, body, env, T1, V, fuel);
      EndsAfter(w, o, from, Run(|body.code|, T1, V), c, body, |end.code|, T, T1, s');
    }
  }

  lemma ElseRuns(w: World, s: Stmt, at: Ctx, c: Ctx, env: Env, T: Temps, V: Vars, fuel: nat) returns (s': State)
    requires s.If? && ElifsTyped(s, |s.elifs|, at, c)
    requires Ready(w, c, env, V) && UniqueLabels(w.code) && Placed(w, c)
    requires var d := Emit(IfTail(s, at, c), Label(MergeLabel(at)));
      Extends(d.vars, w.G) && Prefix(d.code, w.code)
    ensures Ends(w, ExecAll(w.Fs, s.orelse, env, fuel), Run(|c.code|, T, V), c, |IfTail(s, at, c).code|, T, s')
    decreases fuel, s, 0
  {
    hide Agrees, Typed, Extends, CallsAgree, UniqueLabels, Keeps, FindLabel;
    var end := IfTail(s, at, c);
    var from := Run(|c.code|, T, V);
    LabelAt(w.code, end.code, MergeLabel(at));
    if s.orelse == [] {
      s' := from;
      ReachesRefl(w.code, w.Fi, from);
      KeepsAll(T, c.tmp);
    } else {
      var c1 := Emit(c, Label(ElseLabel(s, at)));
      BlockGrows(s.orelse, c1, MergeLabel(at));
      PassLabel(w, c, ElseLabel(s, at), T, V);
      s' := BlockRuns(w, s.orelse, c1, MergeLabel(at), |end.code|, env, T, V, fuel);
      KeepsAll(T, c.tmp);
      EndsAfter(w, ExecAll(w.Fs, s.orelse, env, fuel), from, Run(|c1.code|, T, V), c, c1, |end.code|, T, T, s');
    }
  }

  // ----- while -----

  lemma {:induction false} WhileRuns(w: World, s: Stmt, c: Ctx, env: Env, T: Temps, V: Vars, fuel: nat)
    returns (s': State)
    requires s.While?
    requires Runs(w, c, LowerWhile(s, c), env, V) && StmtTyped(s, c)
    ensures Ends(w, Exec(w.Fs, s, env, fuel), Run(|c.code|, T, V), c, |LowerWhile(s, c).code|, T, s')
    decreases fuel, s, 2
  {
    WhileLabels(w, s, c);
    JumpRuns(w, c, c.lbl, |c.code| + 1, T, V);
    s' := WhileLoop(w, s, c, env, T, V, fuel);
    EndsAfter(w, Exec(w.Fs, s, env, fuel), Run(|c.code|, T, V), Run(|c.code| + 1, T, V), c, c,
              |LowerWhile(s, c).code|, T, T, s');
  }

  /** From the condition label on. */
  lemma {:induction false} WhileLoop(w: World, s: Stmt, c: Ctx, env: Env, T: Temps, V: Vars, fuel: nat)
    returns (s': State)
    requires s.While?
    requires Runs(w, c, LowerWhile(s, c), env, V) && StmtTyped(s, c)
    ensures Ends(w, Exec(w.Fs, s, env, fuel), Run(|c.code| + 1, T, V), c, |LowerWhile(s, c).code|, T, s')
    decreases fuel, s, 1
  {
    hide *;
    RunsIs(w, c, LowerWhile(s, c), env, V);
    var head, d := WhileHead(c), LowerWhile(s, c);
    var open := WhileOpen(s, c, LowerExpr(s.test, head));
    var body := JumpIfOpen(LowerStmts(s.body, open), c.lbl);
    var from := Run(|c.code| + 1, T, V);
    var o := Exec(w.Fs, s, env, fuel);
    WhileFits(w, s, c, env, V);
    WhileLabels(w, s, c);
    WhileUnfolds(w, s, c, env, V, fuel);
    PassLabel(w, Emit(c, Jmp(c.lbl)), c.lbl, T, V);
    var T1 := TestRuns(w, s.test, head, c.lbl + 1, c.lbl + 2, |d.code| - 1, env, T, V);
    var ev := EvalExpr(w.Fs, s.test, env);
    ReachesVia(w, from, Run(|head.code|, T, V));
    s' := from;
    if !ev.Val? {
      EvalEnds(w, ev, from, c, |d.code|, T, s');
    } else if !Truthy(ev.value) {
      s' := Run(|d.code| - 1, T1, V);
      EndsNext(w, env, from, c, T, s');
      s' := EndsPastLabel(w, o, from, c, body, c.lbl + 2, T, s');
    } else if fuel == 0 {
      EndsOutOfTime(w, from, c, |d.code|, T, s');
    } else {
      s' := WhileBody(w, s, c, env, T1, V, fuel);
      EndsAfter(w, o, from, Run(|open.code|, T1, V), c, c, |d.code|, T, T1, s');
    }
  }

  /** One execution of the body, and what follows. */
  lemma {:induction false} WhileBody(w: World, s: Stmt, c: Ctx, env: Env, T: Temps, V: Vars, fuel: nat)
    returns (s': State)
    requires s.While? && fuel > 0
    requires Runs(w, c, LowerWhile(s, c), env, V) && StmtTyped(s, c)
    requires var ev := EvalExpr(w.Fs, s.test, env); ev.Val? && Truthy(ev.value)
    ensures Ends(w, Exec(w.Fs, s, env, fuel), Run(|WhileOpen(s, c, LowerExpr(s.test, WhileHead(c))).code|, T, V), c,
                 |LowerWhile(s, c).code|, T, s')
    decreases fuel, s, 0
  {
    hide *;
    RunsIs(w, c, LowerWhile(s, c), env, V);
    var head, d := WhileHead(c), LowerWhile(s, c);
    var open := WhileOpen(s, c, LowerExpr(s.test, head));
    var body := JumpIfOpen(LowerStmts(s.body, open), c.lbl);
    var from := Run(|open.code|, T, V);
    var o, ob := Exec(w.Fs, s, env, fuel), ExecAll(w.Fs, s.body, env, fuel);
    WhileFits(w, s, c, env, V);
    WhileLabels(w, s, c);
    WhileUnfolds(w, s, c, env, V, fuel);
    ReachesRefl(w.code, w.Fi, from);
    KeepsAll(T, c.tmp);
    s' := BlockRuns(w, s.body, open, c.lbl, |c.code| + 1, env, T, V, fuel);
    if ob.Broke? {
      EndsBroken(w, ob, from, from, c, open, |c.code| + 1, |body.code|, T, T, s');
      s' := EndsPastLabel(w, o, from, c, body, c.lbl + 2, T, s');
    } else if ob.Next? || ob.Continued? {
      var again := s';
      EndsRound(w, ob, from, from, c, open, |c.code| + 1, T, T, again);
      RunsLater(w, c, d, env, V, ob.env, again.vars);
      s' := WhileLoop(w, s, c, ob.env, again.temps, again.vars, fuel - 1);
      WhileOpenFar(s, c);
      EndsLater(w, Exec(w.Fs, s, ob.env, fuel - 1), from, again, c, c, |d.code|, T, again.temps, s');
    } else {
      EndsAbrupt(w, ob, from, from, c, open, |c.code| + 1, |d.code|, T, T, s');
    }
  }

  // ----- for -----

  lemma {:induction false} ForRuns(w: World, s: Stmt, c: Ctx, env: Env, T: Temps, V: Vars, fuel: nat)
    returns (s': State)
    requires s.ForRange?
    requires Runs(w, c, LowerFor(s, c), env, V) && StmtTyped(s, c)
    ensures Ends(w, Exec(w.Fs, s, env, fuel), Run(|c.code|, T, V), c, |LowerFor(s, c).code|, T, s')
    decreases fuel, s, 2
  {
    hide Prefix, Agrees, Typed, Extends, CallsAgree, UniqueLabels, Keeps, FindLabel, Reaches, Placed;
    hide ForStart, Runs, BoundsHeld, LowerBounds, ForEntry, LowerFor;
    var b, d := ForEntry(s, c), LowerFor(s, c);
    var from := Run(|c.code|, T, V);
    var o := Exec(w.Fs, s, env, fuel);
    var T1 := ForEnters(w, s, c, env, T, V);
    var ev := EvalAll(w.Fs, s.rangeArgs, env);
    s' := from;
    if ev.Val? {
      var (start, stop, step) := RangeBounds(ev.value);
      var V1 := V[LoopIndex(c.lbl + 4) := start];
      BoundsAre(b, T1, RangeBounds(ev.value));
      s' := ForLoop(w, s, c, start, stop, step, env, T1, V1, fuel, fuel);
      EndsAfter(w, o, from, Run(|ForStart(c, b).code|, T1, V1), c, c, |d.code|, T, T1, s');
    }
  }

  /** From the condition label on. */
  lemma {:induction false} ForLoop(w: World, s: Stmt, c: Ctx, i: Word, stop: Word, step: Word, env: Env, T: Temps,
                                   V: Vars, fuel: nat, passes: nat) returns (s': State)
    requires s.ForRange? && AtCond(w, s, c, i, stop, step, env, T, V)
    ensures Ends(w, ExecLoop(w.Fs, s.target, i, stop, step, s.body, env, fuel, passes),
                 Run(|ForStart(c, ForEntry(s, c)).code|, T, V), c, |LowerFor(s, c).code|, T, s')
    decreases fuel, s, 1, passes, 2
  {
    hide *;
    AtCondIs(w, s, c, i, stop, step, env, T, V);
    var b, d := ForEntry(s, c), LowerFor(s, c);
    var from := Run(|ForStart(c, b).code|, T, V);
    var o := ExecLoop(w.Fs, s.target, i, stop, step, s.body, env, fuel, passes);
    ForFits(w, s, c);
    ForLabels(w, s, c);
    ForBodyTemps(s, c);
    var T1 := ForTestRuns(w, s, c, i, stop, T, V);
    KeepsLess(T, T1, c.tmp, b.c.tmp);
    if i < stop && passes == 0 {
      NoPasses(w.Fs, s, i, stop, step, env, fuel);
      s' := from;
      EndsOutOfTime(w, from, c, |d.code|, T, s');
    } else if i < stop {
      AtCondLater(w, s, c, i, stop, step, env, T, T1, V);
      s' := ForOnce(w, s, c, i, stop, step, env, T1, V, fuel, passes);
      EndsAfter(w, o, from, Run(|ForTest(c, b).code|, T1, V), c, c, |d.code|, T, T1, s');
    } else {
      s' := Run(|ForEnd(s, c).code|, T1, V);
      ForStops(w, s, c, i, stop, step, env, T, V, fuel, passes, s');
      s' := EndsPastLabel(w, o, from, c, ForEnd(s, c), c.lbl + 3, T, s');
    }
  }

  /** One execution of the body, and what follows. */
  lemma {:induction false} ForOnce(w: World, s: Stmt, c: Ctx, i: Word, stop: Word, step: Word, env: Env, T: Temps,
                                   V: Vars, fuel: nat, passes: nat) returns (s': State)
    requires s.ForRange? && AtCond(w, s, c, i, stop, step, env, T, V) && i < stop && passes > 0
    requires ForEntry(s, c).c.tmp in T && T[ForEntry(s, c).c.tmp] == i
    ensures Ends(w, ExecLoop(w.Fs, s.target, i, stop, step, s.body, env, fuel, passes),
                 Run(|ForTest(c, ForEntry(s, c)).code|, T, V), c, |LowerFor(s, c).code|, T, s')
    decreases fuel, s, 1, passes, 1
  {
    hide *;
    var b, d := ForEntry(s, c), LowerFor(s, c);
    var head, body := ForHead(s, c, b), ForBody(s, c);
    var from, start := Run(|ForTest(c, b).code|, T, V), Run(|head.code|, T, V[Local(s.target) := i]);
    var env1 := env[s.target := i];
    AtCondIs(w, s, c, i, stop, step, env, T, V);
    var o, ob := ExecLoop(w.Fs, s.target, i, stop, step, s.body, env, fuel, passes), ExecAll(w.Fs, s.body, env1, fuel);
    ForBodyIs(s, c);
    ForFits(w, s, c);
    ForLabels(w, s, c);
    ForBodyTemps(s, c);
    ForUnfolds(w.Fs, s, i, stop, step, env, fuel, passes);
    var V1 := ForBindRuns(w, s, c, i, env, T, V);
    s' := BlockRuns(w, s.body, head, c.lbl + 2, |body.code|, env1, T, V1, fuel);
    KeepsAll(T, c.tmp);
    if ob.Broke? {
      EndsBroken(w, ob, from, start, c, head, |body.code|, |ForEnd(s, c).code|, T, T, s');
      s' := EndsPastLabel(w, o, from, c, ForEnd(s, c), c.lbl + 3, T, s');
    } else if ob.Next? || ob.Continued? {
      var mid := s';
      EndsRound(w, ob, from, start, c, head, |body.code|, T, T, mid);
      ForKeeps(b, T, mid.temps, head.tmp);
      RunsLater(w, c, d, env, V, ob.env, mid.vars);
      s' := ForAgain(w, s, c, i, stop, step, ob.env, mid.temps, mid.vars, fuel, passes - 1);
      ForBodyFar(s, c);
      EndsLater(w, ExecLoop(w.Fs, s.target, Wrap(i + step), stop, step, s.body, ob.env, fuel, passes - 1), from, mid,
                c, c, |d.code|, T, mid.temps, s');
    } else {
      EndsAbrupt(w, ob, from, start, c, head, |body.code|, |d.code|, T, T, s');
    }
  }

  /** The increment, and the iterations that are left. */
  lemma {:induction false} ForAgain(w: World, s: Stmt, c: Ctx, i: Word, stop: Word, step: Word, env: Env, T: Temps,
                                    V: Vars, fuel: nat, passes: nat) returns (s': State)
    requires s.ForRange?
    requires Runs(w, c, LowerFor(s, c), env, V) && StmtTyped(s, c)
    requires var b := ForEntry(s, c);
      && b.stop < b.c.tmp && b.stop in T && T[b.stop] == stop
      && b.step < b.c.tmp && b.step in T && T[b.step] == step
      && b.c.tmp in T && T[b.c.tmp] == i
    ensures Ends(w, ExecLoop(w.Fs, s.target, Wrap(i + step), stop, step, s.body, env, fuel, passes),
                 Run(|ForBody(s, c).code|, T, V), c, |LowerFor(s, c).code|, T, s')
    decreases fuel, s, 1, passes, 3
  {
    hide *;
    NextIndex(i, step);
    RunsIs(w, c, LowerFor(s, c), env, V);
    var b, d := ForEntry(s, c), LowerFor(s, c);
    var body := ForBody(s, c);
    var from := Run(|body.code|, T, V);
    var j := Wrap(i + step);
    var o := ExecLoop(w.Fs, s.target, j, stop, step, s.body, env, fuel, passes);
    ForFits(w, s, c);
    ForLabels(w, s, c);
    ForBodyTemps(s, c);
    ForBodyIs(s, c);
    var T1 := ForIncRuns(w, c, body, b, T, V);
    var V1 := V[LoopIndex(c.lbl + 4) := j];
    ForKeeps(b, T, T1, body.tmp);
    RunsIndexed(w, c, d, env, V, c.lbl + 4, j);
    AtCondHolds(w, s, c, j, stop, step, env, T1, V1);
    s' := ForLoop(w, s, c, j, stop, step, env, T1, V1, fuel, passes);
    KeepsLess(T, T1, c.tmp, body.tmp);
    EndsAfter(w, o, from, Run(|ForStart(c, b).code|, T1, V1), c, c, |d.code|, T, T1, s');
  }
}
