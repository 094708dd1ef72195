/** The code of a counting loop: its labels and parts, and the runs of the parts other than the body. */
module LoweringFor {
  import opened Words
  import opened Wrappers
  import opened Python
  import opened IR
  import opened Lowering
  import opened LoweringGrows
  import opened Typing
  import opened LoweringCorrect
  import opened IRCheck
  import opened LoweringEnds
  import opened LoweringSimple

  /** The end of the body of a `for`, at its increment label. */
  function ForBody(s: Stmt, c: Ctx): Ctx
    requires s.ForRange?
  {
    JumpIfOpen(LowerStmts(s.body, ForHead(s, c, ForEntry(s, c))), c.lbl + 2)
  }

  function ForEnd(s: Stmt, c: Ctx): Ctx
    requires s.ForRange?
  {
    ForInc(ForBody(s, c), c, ForEntry(s, c))
  }

  lemma ForExits(s: Stmt, c: Ctx)
    requires s.ForRange?
    ensures ForEnd(s, c).exit == Some(c.lbl + 3) && ForEnd(s, c).cont == Some(c.lbl + 2)
  {
    BoundsGrows(s.rangeArgs, ForIndex(c));
    BlockGrows(s.body, ForHead(s, c, ForEntry(s, c)), c.lbl + 2);
    hide LowerBounds, LowerStmts, Prefix;
  }

  lemma ForTestGrows(c: Ctx, b: Bounds)
    ensures Grows(b.c, ForStart(c, b)) && Grows(ForStart(c, b), ForCond(c, b)) && Grows(ForCond(c, b), ForTest(c, b))
  {
  }

  lemma ForHeadSteps(s: Stmt, c: Ctx, b: Bounds)
    requires s.ForRange?
    ensures Grows(ForTest(c, b), ForHead(s, c, b))
  {
    hide ForTest;
  }

  lemma ForChain(s: Stmt, c: Ctx)
    requires s.ForRange?
    ensures var b := ForEntry(s, c);
      && Straight(ForIndex(c), b.c) && Grows(b.c, ForStart(c, b)) && Grows(ForStart(c, b), ForCond(c, b))
      && Grows(ForCond(c, b), ForTest(c, b)) && Grows(ForTest(c, b), ForHead(s, c, b))
      && Grows(ForHead(s, c, b), ForBody(s, c)) && Grows(ForBody(s, c), ForEnd(s, c))
      && ForEnd(s, c).exit == Some(c.lbl + 3) && ForEnd(s, c).cont == Some(c.lbl + 2)
  {
    var b := ForEntry(s, c);
    BoundsGrows(s.rangeArgs, ForIndex(c));
    BlockGrows(s.body, ForHead(s, c, b), c.lbl + 2);
    ForIncGrows(ForBody(s, c), c, b);
    ForExits(s, c);
    ForTestGrows(c, b);
    ForHeadSteps(s, c, b);
    hide LowerBounds, LowerStmts, ForInc, ForIndex, ForHead, ForTest, ForCond, ForStart, Grows, PlainFrom;
  }

  /** All of a `for` lies in the code it is part of. */
  lemma ForFits(w: World, s: Stmt, c: Ctx)
    requires s.ForRange? && Prefix(LowerFor(s, c).code, w.code) && Extends(LowerFor(s, c).vars, w.G)
    ensures var b := ForEntry(s, c);
      && Prefix(ForIndex(c).code, w.code) && Prefix(b.c.code, w.code) && Prefix(ForCond(c, b).code, w.code)
      && Prefix(ForStart(c, b).code, w.code) && Prefix(ForTest(c, b).code, w.code)
      && Prefix(ForHead(s, c, b).code, w.code) && Prefix(ForBody(s, c).code, w.code)
      && Prefix(ForEnd(s, c).code, w.code) && Extends(ForBody(s, c).vars, w.G) && Extends(ForHead(s, c, b).vars, w.G)
      && LowerFor(s, c).code == ForEnd(s, c).code + [Label(c.lbl + 3)]
      && ForIndex(c).tmp <= b.c.tmp && b.c.tmp < ForHead(s, c, b).tmp && c.tmp <= ForIndex(c).tmp
      && ForHead(s, c, b).exit == Some(c.lbl + 3) && ForHead(s, c, b).cont == Some(c.lbl + 2)
      && ForHead(s, c, b).funcs == c.funcs
  {
    hide PlainFrom, Prefix, LowerBounds, LowerStmts, ForIndex, ForStart, ForCond, ForTest;
    var b := ForEntry(s, c);
    ForChain(s, c);
    ForIndexGrows(c);
    ForTempGrows(s, c, b);
    assert Prefix(ForEnd(s, c).code, w.code) by {
      PrefixTrans(ForEnd(s, c).code, LowerFor(s, c).code, w.code);
    }
    PrefixTrans(ForBody(s, c).code, ForEnd(s, c).code, w.code);
    PrefixTrans(ForHead(s, c, b).code, ForBody(s, c).code, w.code);
    PrefixTrans(ForTest(c, b).code, ForHead(s, c, b).code, w.code);
    PrefixTrans(ForCond(c, b).code, ForTest(c, b).code, w.code);
    PrefixTrans(ForStart(c, b).code, ForCond(c, b).code, w.code);
    PrefixTrans(b.c.code, ForStart(c, b).code, w.code);
    PrefixTrans(ForIndex(c).code, b.c.code, w.code);
  }

  lemma ForTempGrows(s: Stmt, c: Ctx, b: Bounds)
    requires s.ForRange?
    ensures ForHead(s, c, b).tmp == b.c.tmp + 2
    ensures Prefix(ForEnd(s, c).code, LowerFor(s, c).code)
  {
  }

  /** The labels of a `for` are where control expects them. */
  lemma ForLabels(w: World, s: Stmt, c: Ctx)
    requires s.ForRange? && UniqueLabels(w.code) && Prefix(LowerFor(s, c).code, w.code)
    requires Extends(LowerFor(s, c).vars, w.G)
    ensures var b := ForEntry(s, c);
      && At(w.code, c.lbl, |ForStart(c, b).code|) && At(w.code, c.lbl + 2, |ForBody(s, c).code|)
      && At(w.code, c.lbl + 3, |ForEnd(s, c).code|)
    ensures FindLabel(w.code, c.lbl + 2).Some? && FindLabel(w.code, c.lbl + 3).Some?
  {
    var b := ForEntry(s, c);
    ForFits(w, s, c);
    ForIncLabel(w, ForBody(s, c), c, b);
    hide ForStart, Prefix, UniqueLabels, ForBody, ForEnd, Extends, FindLabel;
    LabelAt(w.code, ForStart(c, b).code, c.lbl);
    LabelAt(w.code, ForBody(s, c).code, c.lbl + 2);
    LabelAt(w.code, ForEnd(s, c).code, c.lbl + 3);
  }

  lemma ForIncLabel(w: World, d: Ctx, c: Ctx, b: Bounds)
    requires Prefix(ForInc(d, c, b).code, w.code)
    ensures Prefix(d.code + [Label(c.lbl + 2)], w.code)
  {
  }

  /** The start, stop and step values, in their temporaries. */
  predicate BoundsHeld(b: Bounds, T: Temps, v: (Word, Word, Word)) {
    && b.start < b.c.tmp && b.start in T && T[b.start] == v.0
    && b.stop < b.c.tmp && b.stop in T && T[b.stop] == v.1
    && b.step < b.c.tmp && b.step in T && T[b.step] == v.2
  }

  lemma BoundsRuns(w: World, args: seq<Expr>, c: Ctx, env: Env, T: Temps, V: Vars) returns (T': Temps)
    requires Ready(w, c, env, V) && AllWellTyped(args, c.vars, c.funcs.Keys) && 1 <= |args| <= 3
    requires Prefix(LowerBounds(args, c).c.code, w.code)
    ensures match EvalAll(w.Fs, args, env)
      case Val(vs) =>
        var b := LowerBounds(args, c);
        Computes(w, c, b.c, T, V, T') && BoundsHeld(b, T', RangeBounds(vs))
      case Fault(y) => Reaches(w.code, w.Fi, Run(|c.code|, T, V), Trap(y))
      case Lost => true
  {
    if |args| == 1 {
      T' := OneBound(w, args, c, env, T, V);
    } else {
      T' := MoreBounds(w, args, c, env, T, V);
    }
  }

  lemma ConstRuns(w: World, c: Ctx, v: Word, T: Temps, V: Vars)
    requires Prefix(MakeConst(c, v, IntTy).c.code, w.code)
    ensures Computes(w, c, MakeConst(c, v, IntTy).c, T, V, T[c.tmp := v])
  {
    ComputesTemp(w, c, Const(c.tmp, v), T, V, v);
  }

  lemma OneBound(w: World, args: seq<Expr>, c: Ctx, env: Env, T: Temps, V: Vars) returns (T': Temps)
    requires Ready(w, c, env, V) && AllWellTyped(args, c.vars, c.funcs.Keys) && |args| == 1
    requires Prefix(LowerBounds(args, c).c.code, w.code)
    ensures match EvalAll(w.Fs, args, env)
      case Val(vs) =>
        var b := LowerBounds(args, c);
        Computes(w, c, b.c, T, V, T') && BoundsHeld(b, T', RangeBounds(vs))
      case Fault(y) => Reaches(w.code, w.Fi, Run(|c.code|, T, V), Trap(y))
      case Lost => true
  {
    var start := MakeConst(c, 0, IntTy);
    var stop := LowerExpr(args[0], start.c);
    var step := MakeConst(stop.c, 1, IntTy);
    ExprGrows(args[0], start.c);
    EmitGrows(stop.c, Const(stop.c.tmp, 1));
    EmitGrows(c, Const(c.tmp, 0));
    OneValue(w.Fs, args, env);
    OneBoundIs(args, c);
    hide Prefix, Agrees, Typed, CallsAgree, EvalAll, LowerExpr, LowerBounds, WellTyped, EvalExpr, Reaches;
    hide Computes, Execute, Grows;
    PrefixTrans(stop.c.code, step.c.code, w.code);
    PrefixTrans(start.c.code, stop.c.code, w.code);
    var T1 := T[c.tmp := 0];
    ConstRuns(w, c, 0, T, V);
    var T2 := ExprRuns(w, args[0], start.c, env, T1, V);
    var ev := EvalExpr(w.Fs, args[0], env);
    T' := T2[stop.c.tmp := 1];
    if ev.Val? {
      ComputesTrans(w, c, start.c, stop.c, T, V, T1, T2);
      ConstRuns(w, stop.c, 1, T2, V);
      ComputesTrans(w, c, stop.c, step.c, T, V, T2, T');
    } else if ev.Fault? {
      ComputesThen(w, c, start.c, T, V, T1, Trap(ev.why));
    }
  }

  lemma OneValue(F: CallEnv, args: seq<Expr>, env: Env)
    requires |args| == 1
    ensures EvalAll(F, args, env) ==
      match EvalExpr(F, args[0], env) { case Val(v) => Val([v]) case Fault(y) => Fault(y) case Lost => Lost }
  {
    assert args[1..] == [] && EvalAll(F, args[1..], env) == Val([]);
    var ev := EvalExpr(F, args[0], env);
    if ev.Val? {
      assert [ev.value] + [] == [ev.value];
    }
  }

  lemma OneBoundIs(args: seq<Expr>, c: Ctx)
    requires |args| == 1
    ensures var start := MakeConst(c, 0, IntTy);
      var stop := LowerExpr(args[0], start.c);
      var step := MakeConst(stop.c, 1, IntTy);
      LowerBounds(args, c) == Bounds(step.c, start.t, stop.t, step.t)
  {
    hide LowerExpr;
  }

  lemma MoreBounds(w: World, args: seq<Expr>, c: Ctx, env: Env, T: Temps, V: Vars) returns (T': Temps)
    requires Ready(w, c, env, V) && AllWellTyped(args, c.vars, c.funcs.Keys) && 2 <= |args| <= 3
    requires Prefix(LowerBounds(args, c).c.code, w.code)
    ensures match EvalAll(w.Fs, args, env)
      case Val(vs) =>
        var b := LowerBounds(args, c);
        Computes(w, c, b.c, T, V, T') && BoundsHeld(b, T', RangeBounds(vs))
      case Fault(y) => Reaches(w.code, w.Fi, Run(|c.code|, T, V), Trap(y))
      case Lost => true
  {
    var all := LowerAll(args, c);
    var b := LowerBounds(args, c);
    var start := LowerExpr(args[0], c);
    var stop := LowerExpr(args[1], start.c);
    LowerAllUnfolds(args, c);
    AllGrows(args, c);
    T' := AllRuns(w, args, c, env, T, V);
    var ev := EvalAll(w.Fs, args, env);
    if ev.Val? && |args| == 2 {
      var T1 := T';
      T' := T1[all.c.tmp := 1];
      ComputesTemp(w, all.c, Const(all.c.tmp, 1), T1, V, 1);
      ComputesTrans(w, c, all.c, b.c, T, V, T1, T');
    }
  }

  lemma LowerAllUnfolds(args: seq<Expr>, c: Ctx)
    requires 2 <= |args| <= 3
    ensures var start := LowerExpr(args[0], c);
      var stop := LowerExpr(args[1], start.c);
      var all := LowerAll(args, c);
      && all.ts[0] == start.t && all.ts[1] == stop.t
      && if |args| == 2 then all.c == stop.c
         else all.c == LowerExpr(args[2], stop.c).c && all.ts[2] == LowerExpr(args[2], stop.c).t
  {
    var start := LowerExpr(args[0], c);
    var stop := LowerExpr(args[1], start.c);
    var rest := args[1..];
    assert rest[0] == args[1];
    var more := LowerAll(rest, start.c);
    assert LowerAll(args, c) == Lows(more.c, [start.t] + more.ts, [start.ty] + more.tys);
    var last := LowerAll(rest[1..], stop.c);
    assert more == Lows(last.c, [stop.t] + last.ts, [stop.ty] + last.tys);
    if |args| == 3 {
      assert rest[1..][0] == args[2] && rest[1..][1..] == [];
    } else {
      assert rest[1..] == [];
    }
  }

  /** The hidden index is no name of the program. */
  lemma IndexHidden(env: Env, V: Vars, k: nat, v: Word)
    requires Agrees(env, V)
    ensures Agrees(env, V[LoopIndex(k) := v])
  {
  }

  /** From the iterable's constant to the first store of the index. */
  lemma ForIndexRuns(w: World, c: Ctx, T: Temps, V: Vars) returns (T': Temps)
    requires Prefix(ForIndex(c).code, w.code)
    ensures Reaches(w.code, w.Fi, Run(|c.code|, T, V), Run(|ForIndex(c).code|, T', V[LoopIndex(c.lbl + 4) := 0]))
    ensures Keeps(T, T', c.tmp)
  {
    var k := LoopIndex(c.lbl + 4);
    var c0 := MakeConst(c, 0, NoneTy).c;
    var c1 := Emit(c0, Alloca(k));
    var c2 := EmitTemp(c1, Const(c1.tmp, 0));
    assert ForIndex(c).code == c2.code + [Store(Tmp(c1.tmp), k)];
    var T0 := T[c.tmp := 0];
    T' := T0[c1.tmp := 0];
    StepHere(w, c, Const(c.tmp, 0), T, V);
    StepHere(w, c0, Alloca(k), T0, V);
    StepHere(w, c1, Const(c1.tmp, 0), T0, V);
    StepHere(w, c2, Store(Tmp(c1.tmp), k), T', V);
    ReachesTrans(w.code, w.Fi, Run(|c.code|, T, V), Run(|c0.code|, T0, V), Run(|c1.code|, T0, V));
    ReachesTrans(w.code, w.Fi, Run(|c.code|, T, V), Run(|c1.code|, T0, V), Run(|c2.code|, T', V));
    ReachesTrans(w.code, w.Fi, Run(|c.code|, T, V), Run(|c2.code|, T', V), Run(|ForIndex(c).code|, T', V[k := 0]));
  }

  /** The index takes the start value. */
  lemma ForStartRuns(w: World, c: Ctx, b: Bounds, T: Temps, V: Vars)
    requires Prefix(ForStart(c, b).code, w.code) && At(w.code, c.lbl, |ForStart(c, b).code|) && b.start in T
    ensures Reaches(w.code, w.Fi, Run(|b.c.code|, T, V),
                    Run(|ForStart(c, b).code|, T, V[LoopIndex(c.lbl + 4) := T[b.start]]))
  {
    var c1 := Emit(b.c, Store(Tmp(b.start), LoopIndex(c.lbl + 4)));
    var V1 := V[LoopIndex(c.lbl + 4) := T[b.start]];
    StepHere(w, b.c, Store(Tmp(b.start), LoopIndex(c.lbl + 4)), T, V);
    JumpRuns(w, c1, c.lbl, |ForStart(c, b).code|, T, V1);
    ReachesTrans(w.code, w.Fi, Run(|b.c.code|, T, V), Run(|c1.code|, T, V1), Run(|ForStart(c, b).code|, T, V1));
  }

  /** Up to the condition label for the first time. */
  lemma ForEnters(w: World, s: Stmt, c: Ctx, env: Env, T: Temps, V: Vars) returns (T': Temps)
    requires s.ForRange?
    requires Runs(w, c, LowerFor(s, c), env, V) && StmtTyped(s, c)
    ensures match EvalAll(w.Fs, s.rangeArgs, env)
      case Val(vs) =>
        var b := ForEntry(s, c);
        var V' := V[LoopIndex(c.lbl + 4) := RangeBounds(vs).0];
        && Reaches(w.code, w.Fi, Run(|c.code|, T, V), Run(|ForStart(c, b).code|, T', V'))
        && Keeps(T, T', c.tmp) && BoundsHeld(b, T', RangeBounds(vs)) && Runs(w, c, LowerFor(s, c), env, V')
      case Fault(y) => Reaches(w.code, w.Fi, Run(|c.code|, T, V), Trap(y))
      case Lost => true
  {
    hide *;
    RunsIs(w, c, LowerFor(s, c), env, V);
    var idx, b := ForIndex(c), ForEntry(s, c);
    var k := LoopIndex(c.lbl + 4);
    var from := Run(|c.code|, T, V);
    ForFits(w, s, c);
    ForLabels(w, s, c);
    ForReady(w, s, c, env, V);
    var T1 := ForIndexRuns(w, c, T, V);
    var V1 := V[k := 0];
    ReachesVia(w, from, Run(|idx.code|, T1, V1));
    T' := BoundsRuns(w, s.rangeArgs, idx, env, T1, V1);
    var ev := EvalAll(w.Fs, s.rangeArgs, env);
    if ev.Val? {
      var start := RangeBounds(ev.value).0;
      ComputesKeeps(w, idx, b.c, T1, V1, T');
      KeepsTrans(T, T1, T', c.tmp, idx.tmp);
      BoundsAre(b, T', RangeBounds(ev.value));
      RunsIndexed(w, c, LowerFor(s, c), env, V, c.lbl + 4, start);
      ForStartRuns(w, c, b, T', V1);
      ReachesVia(w, from, Run(|b.c.code|, T', V1));
      assert V1[k := start] == V[k := start];
    }
  }

  lemma BoundsAre(b: Bounds, T: Temps, v: (Word, Word, Word))
    requires BoundsHeld(b, T, v)
    ensures b.start < b.c.tmp && b.start in T && T[b.start] == v.0
    ensures b.stop < b.c.tmp && b.stop in T && T[b.stop] == v.1
    ensures b.step < b.c.tmp && b.step in T && T[b.step] == v.2
  {
  }

  lemma ForReady(w: World, s: Stmt, c: Ctx, env: Env, V: Vars)
    requires s.ForRange? && Runs(w, c, LowerFor(s, c), env, V) && StmtTyped(s, c)
    ensures Ready(w, ForIndex(c), env, V[LoopIndex(c.lbl + 4) := 0])
    ensures AllWellTyped(s.rangeArgs, ForIndex(c).vars, ForIndex(c).funcs.Keys) && 1 <= |s.rangeArgs| <= 3
    ensures ForEntry(s, c) == LowerBounds(s.rangeArgs, ForIndex(c)) && c.tmp <= ForIndex(c).tmp
  {
    ForIndexGrows(c);
    IndexHidden(env, V, c.lbl + 4, 0);
  }

  lemma RunsIndexed(w: World, c: Ctx, d: Ctx, env: Env, V: Vars, k: nat, v: Word)
    requires Runs(w, c, d, env, V)
    ensures Runs(w, c, d, env, V[LoopIndex(k) := v])
  {
    IndexHidden(env, V, k, v);
  }

  /** What holds at the condition label: the index is `i`, and stop and step are still in their temporaries. */
  ghost predicate AtCond(w: World, s: Stmt, c: Ctx, i: Word, stop: Word, step: Word, env: Env, T: Temps, V: Vars)
    requires s.ForRange?
  {
    var b := ForEntry(s, c);
    && Runs(w, c, LowerFor(s, c), env, V) && StmtTyped(s, c)
    && b.stop < b.c.tmp && b.stop in T && T[b.stop] == stop
    && b.step < b.c.tmp && b.step in T && T[b.step] == step
    && LoopIndex(c.lbl + 4) in V && V[LoopIndex(c.lbl + 4)] == i
  }

  lemma AtCondLater(w: World, s: Stmt, c: Ctx, i: Word, stop: Word, step: Word, env: Env, T: Temps, T': Temps, V: Vars)
    requires s.ForRange? && AtCond(w, s, c, i, stop, step, env, T, V) && Keeps(T, T', ForEntry(s, c).c.tmp)
    ensures AtCond(w, s, c, i, stop, step, env, T', V)
  {
  }

  /** No element is left. */
  lemma ForStops(w: World, s: Stmt, c: Ctx, i: Word, stop: Word, step: Word, env: Env, T: Temps, V: Vars, fuel: nat,
                 passes: nat, s': State)
    requires s.ForRange? && AtCond(w, s, c, i, stop, step, env, T, V) && i >= stop
    requires var from := Run(|ForStart(c, ForEntry(s, c)).code|, T, V);
      && Reaches(w.code, w.Fi, from, s') && s'.Run? && s'.pc == |ForEnd(s, c).code| && s'.vars == V
      && Keeps(T, s'.temps, c.tmp)
    ensures Ends(w, ExecLoop(w.Fs, s.target, i, stop, step, s.body, env, fuel, passes),
                 Run(|ForStart(c, ForEntry(s, c)).code|, T, V), c, |ForEnd(s, c).code|, T, s')
  {
  }

  lemma AtCondIs(w: World, s: Stmt, c: Ctx, i: Word, stop: Word, step: Word, env: Env, T: Temps, V: Vars)
    requires s.ForRange? && AtCond(w, s, c, i, stop, step, env, T, V)
    ensures var b := ForEntry(s, c);
      && Runs(w, c, LowerFor(s, c), env, V) && StmtTyped(s, c)
      && b.stop < b.c.tmp && b.stop in T && T[b.stop] == stop
      && b.step < b.c.tmp && b.step in T && T[b.step] == step
      && LoopIndex(c.lbl + 4) in V && V[LoopIndex(c.lbl + 4)] == i
      && UniqueLabels(w.code) && Prefix(LowerFor(s, c).code, w.code) && Extends(LowerFor(s, c).vars, w.G)
  {
  }

  lemma ForBodyIs(s: Stmt, c: Ctx)
    requires s.ForRange?
    ensures ForBody(s, c) == JumpIfOpen(LowerStmts(s.body, ForHead(s, c, ForEntry(s, c))), c.lbl + 2)
    ensures ForEnd(s, c) == ForInc(ForBody(s, c), c, ForEntry(s, c))
  {
  }

  lemma ForUnfolds(F: CallEnv, s: Stmt, i: Word, stop: Word, step: Word, env: Env, fuel: nat, passes: nat)
    requires s.ForRange? && i < stop && passes > 0
    ensures ExecLoop(F, s.target, i, stop, step, s.body, env, fuel, passes)
      == var o := ExecAll(F, s.body, env[s.target := i], fuel);
         if o.Next? || o.Continued?
         then Later(ExecLoop(F, s.target, Wrap(i + step), stop, step, s.body, o.env, fuel, passes - 1))
         else if o.Broke? then Next(o.env)
         else o
  {
  }

  lemma NoPasses(F: CallEnv, s: Stmt, i: Word, stop: Word, step: Word, env: Env, fuel: nat)
    requires s.ForRange? && i < stop
    ensures ExecLoop(F, s.target, i, stop, step, s.body, env, fuel, 0) == OutOfTime(0)
  {
  }

  /** The body leaves the index, the stop and the step of its loop alone. */
  lemma ForKeeps(b: Bounds, T: Temps, T': Temps, n: nat)
    requires Keeps(T, T', n) && b.c.tmp < n && b.stop < b.c.tmp && b.step < b.c.tmp
    requires b.c.tmp in T && b.stop in T && b.step in T
    ensures b.c.tmp in T' && b.stop in T' && b.step in T'
    ensures T'[b.c.tmp] == T[b.c.tmp] && T'[b.stop] == T[b.stop] && T'[b.step] == T[b.step]
  {
  }

  lemma AtCondHolds(w: World, s: Stmt, c: Ctx, i: Word, stop: Word, step: Word, env: Env, T: Temps, V: Vars)
    requires s.ForRange? && Runs(w, c, LowerFor(s, c), env, V) && StmtTyped(s, c)
    requires var b := ForEntry(s, c);
      && b.stop < b.c.tmp && b.stop in T && T[b.stop] == stop
      && b.step < b.c.tmp && b.step in T && T[b.step] == step
    requires LoopIndex(c.lbl + 4) in V && V[LoopIndex(c.lbl + 4)] == i
    ensures AtCond(w, s, c, i, stop, step, env, T, V)
  {
  }

  lemma ForBodyTemps(s: Stmt, c: Ctx)
    requires s.ForRange?
    ensures c.tmp <= ForEntry(s, c).c.tmp < ForBody(s, c).tmp
  {
    hide Prefix, Extends, PlainFrom, LowerStmts, LowerBounds;
    ForChain(s, c);
    ForIndexGrows(c);
    ForTempGrows(s, c, ForEntry(s, c));
  }

  lemma NextIndex(i: Word, step: Word)
    ensures Binary(Add, i, step) == Some(Wrap(i + step))
  {
  }

  /** The loop variable takes the index. */
  lemma ForBindRuns(w: World, s: Stmt, c: Ctx, i: Word, env: Env, T: Temps, V: Vars) returns (V': Vars)
    requires s.ForRange? && Runs(w, c, LowerFor(s, c), env, V) && StmtTyped(s, c)
    requires ForEntry(s, c).c.tmp in T && T[ForEntry(s, c).c.tmp] == i
    ensures V' == V[Local(s.target) := i]
    ensures var b := ForEntry(s, c);
      && Reaches(w.code, w.Fi, Run(|ForTest(c, b).code|, T, V), Run(|ForHead(s, c, b).code|, T, V'))
      && Runs(w, ForHead(s, c, b), ForBody(s, c), env[s.target := i], V') && StmtsTyped(s.body, ForHead(s, c, b))
  {
    hide ExecAll, EvalExpr, EvalAll, LowerExpr, LowerStmts, LowerStmt, LowerElifs, StmtsTyped;
    hide ElifsTyped, WellTyped, AllWellTyped, TypeOf, LowerAll, LowerBounds, Exec, Typed, Agrees;
    var b := ForEntry(s, c);
    var test, head := ForTest(c, b), ForHead(s, c, b);
    ForFits(w, s, c);
    ForLabels(w, s, c);
    ForTestVars(s, c);
    V' := StoreRuns(w, test, s.target, I64Ty, b.c.tmp, env, T, V);
    ForRunsBody(w, s, c, env, V, env[s.target := i], V');
  }

  lemma ForTestVars(s: Stmt, c: Ctx)
    requires s.ForRange?
    ensures ForTest(c, ForEntry(s, c)).vars == ForIndex(c).vars
  {
    BoundsGrows(s.rangeArgs, ForIndex(c));
  }

  lemma HeadIsOpen(s: Stmt, c: Ctx, b: Bounds)
    requires s.ForRange?
    ensures !Terminated(ForHead(s, c, b).code)
  {
  }

  lemma ForRunsBody(w: World, s: Stmt, c: Ctx, env0: Env, V0: Vars, env: Env, V: Vars)
    requires s.ForRange? && Runs(w, c, LowerFor(s, c), env0, V0) && Agrees(env, V) && Typed(env, w.G)
    ensures Runs(w, ForHead(s, c, ForEntry(s, c)), ForBody(s, c), env, V)
  {
    hide *;
    var b := ForEntry(s, c);
    var head, body := ForHead(s, c, b), ForBody(s, c);
    RunsIs(w, c, LowerFor(s, c), env0, V0);
    ForFits(w, s, c);
    ForLabels(w, s, c);
    ForBodyTemps(s, c);
    HeadIsOpen(s, c, b);
    RunsWhen(w, c, head, body, env0, V0, env, V);
  }

  /** The test reads the index into its temporary and branches on it. */
  lemma ForTestRuns(w: World, s: Stmt, c: Ctx, i: Word, stop: Word, T: Temps, V: Vars) returns (T': Temps)
    requires s.ForRange? && UniqueLabels(w.code)
    requires var b := ForEntry(s, c);
      && Prefix(ForTest(c, b).code, w.code) && At(w.code, c.lbl + 3, |ForEnd(s, c).code|)
      && b.stop < b.c.tmp && b.stop in T && T[b.stop] == stop
    requires LoopIndex(c.lbl + 4) in V && V[LoopIndex(c.lbl + 4)] == i
    ensures var b := ForEntry(s, c);
      && Reaches(w.code, w.Fi, Run(|ForStart(c, b).code|, T, V),
                 Run(if i < stop then |ForTest(c, b).code| else |ForEnd(s, c).code|, T', V))
      && Keeps(T, T', b.c.tmp) && b.c.tmp in T' && T'[b.c.tmp] == i
  {
    hide LowerBounds, ForEnd, UniqueLabels, Reaches, ForStart;
    var b := ForEntry(s, c);
    var c0 := ForCond(c, b);
    ForStartTemps(c, b);
    T' := ForCompares(w, c, b, i, stop, T, V);
    var c2 := ForCompare(c, b);
    PassLabel(w, ForStart(c, b), c.lbl, T, V);
    BranchRuns(w, c2, b.c.tmp + 1, c.lbl + 1, c.lbl + 3, |ForEnd(s, c).code|, T', V);
    var p := if i < stop then |ForTest(c, b).code| else |ForEnd(s, c).code|;
    ComputesThen(w, c0, c2, T, V, T', Run(p, T', V));
    ReachesTrans(w.code, w.Fi, Run(|ForStart(c, b).code|, T, V), Run(|c0.code|, T, V), Run(p, T', V));
  }

  /** The index and its comparison with the stop value. */
  function ForCompare(c: Ctx, b: Bounds): Ctx {
    var c1 := EmitTemp(ForCond(c, b), Load(b.c.tmp, LoopIndex(c.lbl + 4)));
    EmitTemp(c1, Bin(CmpLt, c1.tmp, Tmp(b.c.tmp), Tmp(b.stop)))
  }

  lemma ForCompares(w: World, c: Ctx, b: Bounds, i: Word, stop: Word, T: Temps, V: Vars) returns (T': Temps)
    requires Prefix(ForCompare(c, b).code, w.code) && b.stop < b.c.tmp && b.stop in T && T[b.stop] == stop
    requires LoopIndex(c.lbl + 4) in V && V[LoopIndex(c.lbl + 4)] == i
    ensures Computes(w, ForCond(c, b), ForCompare(c, b), T, V, T') && Keeps(T, T', b.c.tmp)
    ensures b.c.tmp in T' && T'[b.c.tmp] == i && b.c.tmp + 1 in T' && T'[b.c.tmp + 1] == BoolWord(i < stop)
  {
    hide ForStart;
    var c0 := ForCond(c, b);
    var load := Load(b.c.tmp, LoopIndex(c.lbl + 4));
    var c1 := EmitTemp(c0, load);
    var cmp := Bin(CmpLt, c1.tmp, Tmp(b.c.tmp), Tmp(b.stop));
    var T1 := T[b.c.tmp := i];
    T' := T1[c1.tmp := BoolWord(i < stop)];
    ForStartTemps(c, b);
    ComputesTemp(w, c0, load, T, V, i);
    ComputesTemp(w, c1, cmp, T1, V, BoolWord(i < stop));
    ComputesTrans(w, c0, c1, EmitTemp(c1, cmp), T, V, T1, T');
  }

  lemma ForStartTemps(c: Ctx, b: Bounds)
    ensures ForStart(c, b).tmp == b.c.tmp
    ensures ForTest(c, b) == Branch(ForCompare(c, b), b.c.tmp + 1, c.lbl + 1, c.lbl + 3)
  {
  }

  /** The increment block adds the step to the index the body started with, and goes back to the test. */
  lemma ForIncRuns(w: World, c: Ctx, d: Ctx, b: Bounds, T: Temps, V: Vars) returns (T': Temps)
    requires Prefix(ForInc(d, c, b).code, w.code) && At(w.code, c.lbl, |ForStart(c, b).code|)
    requires b.c.tmp in T && b.step in T && b.c.tmp < d.tmp
    ensures Reaches(w.code, w.Fi, Run(|d.code|, T, V),
                    Run(|ForStart(c, b).code|, T', V[LoopIndex(c.lbl + 4) := Binary(Add, T[b.c.tmp], T[b.step]).value]))
    ensures Keeps(T, T', d.tmp)
  {
    hide ForStart;
    var c1 := Emit(d, Label(c.lbl + 2));
    var add := Bin(Add, c1.tmp, Tmp(b.c.tmp), Tmp(b.step));
    var c2 := EmitTemp(c1, add);
    var v := Binary(Add, T[b.c.tmp], T[b.step]).value;
    T' := T[c1.tmp := v];
    PassLabel(w, d, c.lbl + 2, T, V);
    StepHere(w, c1, add, T, V);
    ForStoreRuns(w, c, c2, c1.tmp, |ForStart(c, b).code|, T', V, v);
    var s3 := Run(|ForStart(c, b).code|, T', V[LoopIndex(c.lbl + 4) := v]);
    hide Reaches, Prefix, At;
    ReachesTrans(w.code, w.Fi, Run(|c1.code|, T, V), Run(|c2.code|, T', V), s3);
    ReachesTrans(w.code, w.Fi, Run(|d.code|, T, V), Run(|c1.code|, T, V), s3);
  }

  /** The index is stored, and control goes back to the test. */
  lemma ForStoreRuns(w: World, c: Ctx, c2: Ctx, t: nat, p: nat, T: Temps, V: Vars, v: Word)
    requires var st := Store(Tmp(t), LoopIndex(c.lbl + 4)); Prefix(Emit(Emit(c2, st), Jmp(c.lbl)).code, w.code)
    requires At(w.code, c.lbl, p) && t in T && T[t] == v
    ensures Reaches(w.code, w.Fi, Run(|c2.code|, T, V), Run(p, T, V[LoopIndex(c.lbl + 4) := v]))
  {
    var st := Store(Tmp(t), LoopIndex(c.lbl + 4));
    var V' := V[LoopIndex(c.lbl + 4) := v];
    StepHere(w, c2, st, T, V);
    JumpRuns(w, Emit(c2, st), c.lbl, p, T, V');
    hide Reaches, Prefix, At;
    ReachesTrans(w.code, w.Fi, Run(|c2.code|, T, V), Run(|c2.code| + 1, T, V'), Run(p, T, V'));
  }

  /** The increment block stands behind the test. */
  lemma ForBodyFar(s: Stmt, c: Ctx)
    requires s.ForRange?
    ensures |ForBody(s, c).code| > |ForTest(c, ForEntry(s, c)).code|
  {
    ForChain(s, c);
    hide ForTest, ForEntry, ForBody;
  }
}
