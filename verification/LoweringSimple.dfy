/** Running the code of assignments, augmented assignments and returns. */
module LoweringSimple {
  import opened Words
  import opened Wrappers
  import opened Python
  import opened IR
  import opened Lowering
  import opened LoweringGrows
  import opened Typing
  import opened LoweringCorrect
  import opened IRCheck
  import opened LoweringEnds

  lemma AssignTyped(w: World, env: Env, x: string, v: Word)
    requires Typed(env, w.G) && Local(x) in w.G && (w.G[Local(x)].BoolTy? ==> IsBit(v))
    ensures Typed(env[x := v], w.G)
  {
  }

  /** Declaring a name and storing into it. */
  lemma StoreRuns(w: World, c: Ctx, x: string, ty: Ty, t: nat, env: Env, T: Temps, V: Vars) returns (V': Vars)
    requires Agrees(env, V) && Typed(env, w.G) && t in T
    requires var d := Emit(Declare(c, Local(x), ty), Store(Tmp(t), Local(x)));
      Prefix(d.code, w.code) && Extends(d.vars, w.G)
    requires Accepts(c.vars, x, ty) && (ty.BoolTy? ==> IsBit(T[t]))
    ensures V' == V[Local(x) := T[t]]
    ensures Reaches(w.code, w.Fi, Run(|c.code|, T, V),
                    Run(|Emit(Declare(c, Local(x), ty), Store(Tmp(t), Local(x))).code|, T, V'))
    ensures Agrees(env[x := T[t]], V') && Typed(env[x := T[t]], w.G)
  {
    V' := V[Local(x) := T[t]];
    var c1 := Declare(c, Local(x), ty);
    if Local(x) in c.vars {
      ReachesRefl(w.code, w.Fi, Run(|c.code|, T, V));
    } else {
      StepHere(w, c, Alloca(Local(x)), T, V);
    }
    StepHere(w, c1, Store(Tmp(t), Local(x)), T, V);
    ReachesTrans(w.code, w.Fi, Run(|c.code|, T, V), Run(|c1.code|, T, V), Run(|c1.code| + 1, T, V'));
    assert w.G[Local(x)] == c1.vars[Local(x)];
    AssignTyped(w, env, x, T[t]);
  }

  lemma {:induction false} StoreAllRuns(w: World, targets: seq<string>, r: Low, c: Ctx, env: Env, T: Temps, V: Vars)
    returns (V': Vars)
    requires Agrees(env, V) && Typed(env, w.G)
    requires Prefix(StoreAll(targets, r, c).code, w.code) && Extends(StoreAll(targets, r, c).vars, w.G)
    requires r.t in T && (r.ty.BoolTy? ==> IsBit(T[r.t]))
    requires forall x <- targets :: Accepts(c.vars, x, r.ty)
    ensures Reaches(w.code, w.Fi, Run(|c.code|, T, V), Run(|StoreAll(targets, r, c).code|, T, V'))
    ensures Agrees(AssignAll(env, targets, T[r.t]), V') && Typed(AssignAll(env, targets, T[r.t]), w.G)
    decreases |targets|
  {
    if targets == [] {
      V' := V;
      ReachesRefl(w.code, w.Fi, Run(|c.code|, T, V));
      return;
    }
    var x := targets[0];
    var c1 := Emit(Declare(c, Local(x), r.ty), Store(Tmp(r.t), Local(x)));
    StoreAllGrows(targets[1..], r, c1);
    assert Accepts(c.vars, x, r.ty);
    var V1 := StoreRuns(w, c, x, r.ty, r.t, env, T, V);
    forall y <- targets[1..]
      ensures Accepts(c1.vars, y, r.ty)
    {
      assert Accepts(c.vars, y, r.ty);
    }
    V' := StoreAllRuns(w, targets[1..], r, c1, env[x := T[r.t]], T, V1);
    ReachesTrans(w.code, w.Fi, Run(|c.code|, T, V), Run(|c1.code|, T, V1), Run(|StoreAll(targets, r, c).code|, T, V'));
  }

  lemma AssignRuns(w: World, s: Stmt, c: Ctx, env: Env, T: Temps, V: Vars, fuel: nat) returns (s': State)
    requires s.Assign?
    requires Runs(w, c, LowerStmt(s, c), env, V) && StmtTyped(s, c)
    ensures Ends(w, Exec(w.Fs, s, env, fuel), Run(|c.code|, T, V), c, |LowerStmt(s, c).code|, T, s')
  {
    var r := LowerExpr(s.value, c);
    var d := LowerStmt(s, c);
    ExprGrows(s.value, c);
    StoreAllGrows(s.targets, r, r.c);
    LoweredType(s.value, c);
    var T1 := ExprRuns(w, s.value, c, env, T, V);
    var ev := EvalExpr(w.Fs, s.value, env);
    s' := Run(0, T, V);
    if ev.Val? {
      var V1 := StoreAllRuns(w, s.targets, r, r.c, env, T1, V);
      s' := Run(|d.code|, T1, V1);
      ReachesTrans(w.code, w.Fi, Run(|c.code|, T, V), Run(|r.c.code|, T1, V), s');
    }
  }

  lemma AugAssignRuns(w: World, s: Stmt, c: Ctx, env: Env, T: Temps, V: Vars, fuel: nat) returns (s': State)
    requires s.AugAssign?
    requires Runs(w, c, LowerStmt(s, c), env, V) && StmtTyped(s, c)
    ensures Ends(w, Exec(w.Fs, s, env, fuel), Run(|c.code|, T, V), c, |LowerStmt(s, c).code|, T, s')
  {
    s' := Run(0, T, V);
    if s.name in env {
      var c1 := EmitTemp(c, Load(c.tmp, Local(s.name)));
      var T1 := T[c.tmp := env[s.name]];
      assert WellTyped(Var(s.name), c.vars, c.funcs.Keys);
      ExprGrows(s.value, c1);
      assert c1.code <= LowerStmt(s, c).code;
      ComputesTemp(w, c, Load(c.tmp, Local(s.name)), T, V, env[s.name]);
      s' := UpdateRuns(w, s, c, env, T1, V, fuel);
      EndsAfter(w, Exec(w.Fs, s, env, fuel), Run(|c.code|, T, V), Run(|c1.code|, T1, V), c, c1,
        |LowerStmt(s, c).code|, T, T1, s');
    }
  }

  /** An augmented assignment, once the current value is loaded. */
  lemma UpdateRuns(w: World, s: Stmt, c: Ctx, env: Env, T: Temps, V: Vars, fuel: nat) returns (s': State)
    requires s.AugAssign? && s.name in env && Local(s.name) in c.vars
    requires Runs(w, c, LowerStmt(s, c), env, V) && StmtTyped(s, c)
    requires c.tmp in T && T[c.tmp] == env[s.name]
    ensures var c1 := EmitTemp(c, Load(c.tmp, Local(s.name)));
      Ends(w, Exec(w.Fs, s, env, fuel), Run(|c1.code|, T, V), c1, |LowerStmt(s, c).code|, T, s')
  {
    var x := Local(s.name);
    var c1 := EmitTemp(c, Load(c.tmp, x));
    var r := LowerExpr(s.value, c1);
    var i := Bin(s.op, r.c.tmp, Tmp(c.tmp), Tmp(r.t));
    var c2 := EmitTemp(r.c, i);
    var d := LowerStmt(s, c);
    var from := Run(|c1.code|, T, V);
    ExprGrows(s.value, c1);
    LoweredType(s.value, c1);
    assert d == Emit(c2, Store(Tmp(r.c.tmp), x)) && r.c.code <= c2.code <= d.code;
    var T2 := ExprRuns(w, s.value, c1, env, T, V);
    var ev := EvalExpr(w.Fs, s.value, env);
    s' := from;
    if ev.Val? {
      StepHere(w, r.c, i, T2, V);
      var q := Binary(s.op, env[s.name], ev.value);
      if q.Some? {
        var T3 := T2[r.c.tmp := q.value];
        ComputesTemp(w, r.c, i, T2, V, q.value);
        ComputesTrans(w, c1, r.c, c2, T, V, T2, T3);
        UpdateTyped(w, s, c, env, ev.value);
        var V1 := StoreRuns(w, c2, s.name, c.vars[x], r.c.tmp, env, T3, V);
        s' := Run(|d.code|, T3, V1);
        ReachesTrans(w.code, w.Fi, from, Run(|c2.code|, T3, V), s');
      } else {
        ComputesThen(w, c1, r.c, T, V, T2, Trap(DivideError));
      }
    }
  }

  /** Updating a `bool` name leaves a bit in it. */
  lemma UpdateTyped(w: World, s: Stmt, c: Ctx, env: Env, v: Word)
    requires s.AugAssign? && s.name in env && Local(s.name) in c.vars && StmtTyped(s, c)
    requires Typed(env, w.G) && Extends(c.vars, w.G) && (TypeOf(s.value, c.vars).BoolTy? ==> IsBit(v))
    ensures var q := Binary(s.op, env[s.name], v);
      q.Some? && c.vars[Local(s.name)].BoolTy? ==> IsBit(q.value)
  {
    if c.vars[Local(s.name)].BoolTy? {
      assert IsBit(env[s.name]);
      assert TypeOf(BinaryE(s.op, Var(s.name), s.value), c.vars).BoolTy?;
      BitsKept(s.op, env[s.name], v);
    }
  }

  lemma ReturnsValue(w: World, s: Stmt, c: Ctx, env: Env, T: Temps, V: Vars) returns (end: State)
    requires s.Return? && s.result.Some?
    requires Runs(w, c, LowerStmt(s, c), env, V) && StmtTyped(s, c)
    ensures var ev := EvalExpr(w.Fs, s.result.value, env);
      && (ev.Val? ==> end == Done(ev.value)) && (ev.Fault? ==> end == Trap(ev.why))
      && (!ev.Lost? ==> Reaches(w.code, w.Fi, Run(|c.code|, T, V), end))
  {
    var e := s.result.value;
    var r := LowerExpr(e, c);
    var T1 := ExprRuns(w, e, c, env, T, V);
    var ev := EvalExpr(w.Fs, e, env);
    end := if ev.Val? then Done(ev.value) else if ev.Fault? then Trap(ev.why) else Stuck(NoAnswer);
    hide LowerExpr, EvalExpr, WellTyped, UniqueLabels, Placed, Ready;
    if ev.Val? {
      StepHere(w, r.c, Ret(Tmp(r.t)), T1, V);
      ComputesThen(w, c, r.c, T, V, T1, Done(ev.value));
    }
  }

  lemma ReturnsNone(w: World, s: Stmt, c: Ctx, env: Env, T: Temps, V: Vars)
    requires s.Return? && s.result.None?
    requires Runs(w, c, LowerStmt(s, c), env, V)
    ensures Reaches(w.code, w.Fi, Run(|c.code|, T, V), Done(0))
  {
    var r := MakeConst(c, 0, IntTy);
    var T1 := T[c.tmp := 0];
    ComputesTemp(w, c, Const(c.tmp, 0), T, V, 0);
    StepHere(w, r.c, Ret(Tmp(r.t)), T1, V);
    hide UniqueLabels, Placed, Ready;
    ComputesThen(w, c, r.c, T, V, T1, Done(0));
  }

  lemma ReturnRuns(w: World, s: Stmt, c: Ctx, env: Env, T: Temps, V: Vars, fuel: nat)
    requires s.Return?
    requires Runs(w, c, LowerStmt(s, c), env, V) && StmtTyped(s, c)
    ensures forall s': State ::
      Ends(w, Exec(w.Fs, s, env, fuel), Run(|c.code|, T, V), c, |LowerStmt(s, c).code|, T, s')
  {
    if s.result.Some? {
      var end := ReturnsValue(w, s, c, env, T, V);
    } else {
      ReturnsNone(w, s, c, env, T, V);
    }
    hide Runs, StmtTyped, LowerStmt, EvalExpr, Reaches;
  }

  /** The statements that hold no others. */
  lemma SimpleRuns(w: World, s: Stmt, c: Ctx, env: Env, T: Temps, V: Vars, fuel: nat) returns (s': State)
    requires !s.If? && !s.While? && !s.ForRange?
    requires Runs(w, c, LowerStmt(s, c), env, V) && StmtTyped(s, c)
    ensures Ends(w, Exec(w.Fs, s, env, fuel), Run(|c.code|, T, V), c, |LowerStmt(s, c).code|, T, s')
  {
    var from := Run(|c.code|, T, V);
    s' := from;
    match s
    case Assign(targets, e) => s' := AssignRuns(w, s, c, env, T, V, fuel);
    case AugAssign(x, op, e) => s' := AugAssignRuns(w, s, c, env, T, V, fuel);
    case CallStmt(e) =>
      var T1 := ExprRuns(w, e, c, env, T, V);
      s' := Run(|LowerExpr(e, c).c.code|, T1, V);
    case Return(e) => ReturnRuns(w, s, c, env, T, V, fuel);
    case Break =>
      var p := FindLabel(w.code, c.exit.value).value;
      JumpRuns(w, c, c.exit.value, p, T, V);
      s' := Run(p, T, V);
    case Continue =>
      var p := FindLabel(w.code, c.cont.value).value;
      JumpRuns(w, c, c.cont.value, p, T, V);
      s' := Run(p, T, V);
    case Pass => ReachesRefl(w.code, w.Fi, from);
  }
}
