/** Running the emitted IR gives what evaluating the tree gives. */
module LoweringCorrect {
  import opened Words
  import opened Wrappers
  import opened Python
  import opened IR
  import opened Lowering
  import opened Builtins
  import opened LoweringGrows
  import opened Typing

  // ----- what relates the two runs -----

  /** Every assigned name has its value in the IR's variables. */
  predicate Agrees(env: Env, V: Vars) {
    forall x <- env :: Local(x) in V && V[Local(x)] == env[x]
  }

  /** Every assigned name is known, and the `bool` ones hold bits. */
  predicate Typed(env: Env, G: Types) {
    forall x <- env :: Local(x) in G && (G[Local(x)].BoolTy? ==> IsBit(env[x]))
  }

  predicate Keeps(T: Temps, T': Temps, n: nat) {
    forall t: nat | t < n && t in T :: t in T' && T'[t] == T[t]
  }

  /** The IR functions give every answer the source functions give. */
  ghost predicate CallsAgree(Fs: CallEnv, Fi: CallEnv, funcs: map<string, string>) {
    forall f, vs | f in funcs && !Fs(f, vs).Unknown? :: Fi(funcs[f], vs) == Fs(f, vs)
  }

  /** What stays fixed while a function runs: its whole code and the two answers to calls. */
  datatype World = World(code: Code, Fs: CallEnv, Fi: CallEnv, G: Types)

  ghost predicate Fits(w: World, c: Ctx) {
    CallsAgree(w.Fs, w.Fi, c.funcs) && Extends(c.vars, w.G)
  }

  /** The instructions between `c` and `d` compute temporaries and nothing else. */
  ghost predicate Computes(w: World, c: Ctx, d: Ctx, T: Temps, V: Vars, T': Temps) {
    && Reaches(w.code, w.Fi, Run(|c.code|, T, V), Run(|d.code|, T', V))
    && Keeps(T, T', c.tmp)
  }

  lemma ComputesTrans(w: World, c: Ctx, d: Ctx, e: Ctx, T: Temps, V: Vars, T': Temps, T'': Temps)
    requires Computes(w, c, d, T, V, T') && Computes(w, d, e, T', V, T'') && c.tmp <= d.tmp
    ensures Computes(w, c, e, T, V, T'')
  {
    ReachesTrans(w.code, w.Fi, Run(|c.code|, T, V), Run(|d.code|, T', V), Run(|e.code|, T'', V));
  }

  lemma ComputesThen(w: World, c: Ctx, d: Ctx, T: Temps, V: Vars, T': Temps, s: State)
    requires Computes(w, c, d, T, V, T') && Reaches(w.code, w.Fi, Run(|d.code|, T', V), s)
    ensures Reaches(w.code, w.Fi, Run(|c.code|, T, V), s)
  {
    ReachesTrans(w.code, w.Fi, Run(|c.code|, T, V), Run(|d.code|, T', V), s);
  }

  lemma ComputesRefl(w: World, c: Ctx, T: Temps, V: Vars)
    ensures Computes(w, c, c, T, V, T)
  {
    ReachesRefl(w.code, w.Fi, Run(|c.code|, T, V));
  }

  lemma StepHere(w: World, c: Ctx, i: Instr, T: Temps, V: Vars)
    requires Prefix(c.code + [i], w.code)
    ensures Reaches(w.code, w.Fi, Run(|c.code|, T, V), Execute(i, w.code, w.Fi, Run(|c.code|, T, V)))
  {
    assert (c.code + [i])[|c.code|] == i;
    ReachesStep(w.code, w.Fi, Run(|c.code|, T, V));
  }

  /** One instruction that assigns the next temporary. */
  lemma ComputesTemp(w: World, c: Ctx, i: Instr, T: Temps, V: Vars, v: Word)
    requires Prefix(c.code + [i], w.code)
    requires Execute(i, w.code, w.Fi, Run(|c.code|, T, V)) == Run(|c.code| + 1, T[c.tmp := v], V)
    ensures Computes(w, c, EmitTemp(c, i), T, V, T[c.tmp := v])
  {
    StepHere(w, c, i, T, V);
  }

  // ----- expressions -----

  lemma {:induction false} LoweredType(e: Expr, c: Ctx)
    requires WellTyped(e, c.vars, c.funcs.Keys)
    ensures LowerExpr(e, c).ty == TypeOf(e, c.vars)
  {
    match e
    case UnaryE(op, a) => LoweredType(a, c);
    case BinaryE(op, l, r) =>
      ExprGrows(l, c);
      LoweredType(l, c);
      LoweredType(r, LowerExpr(l, c).c);
    case IfExp(t, a, b) =>
      ExprGrows(t, c);
      LoweredType(a, LowerExpr(t, c).c);
    case Compare(l, cmps, rs) =>
      ChainType(cmps, rs, LowerExpr(l, c).t, None, LowerExpr(l, c).c);
    case BoolE(op, es) =>
      var vs := LowerAll(es, c);
      FoldType(op, vs.ts[1..], vs.tys[1..], ToBool(vs.c, vs.ts[0], vs.tys[0]));
    case _ =>
  }

  lemma {:induction false} ChainType(cmps: seq<BinOp>, rs: seq<Expr>, left: nat, soFar: Option<nat>, c: Ctx)
    ensures LowerChain(cmps, rs, left, soFar, c).ty == BoolTy
    decreases |rs|
  {
    if rs != [] && cmps != [] {
      var r := LowerExpr(rs[0], c);
      var next := Link(cmps[0], left, r, soFar);
      ChainType(cmps[1..], rs[1..], r.t, Some(next.t), next.c);
    }
  }

  lemma {:induction false} FoldType(op: BoolOp, ts: seq<nat>, tys: seq<Ty>, acc: Low)
    requires |ts| == |tys|
    ensures FoldBools(op, ts, tys, acc).ty == BoolTy
    decreases |ts|
  {
    if ts != [] {
      FoldType(op, ts[1..], tys[1..], FoldOne(op, ts[0], tys[0], acc));
    }
  }

  /** `r` holds `v` after the run: what a lowered expression of value `v` establishes. */
  ghost predicate Holds(w: World, c: Ctx, r: Low, T: Temps, V: Vars, T': Temps, v: Word) {
    && Computes(w, c, r.c, T, V, T')
    && r.t < r.c.tmp
    && r.t in T' && T'[r.t] == v
    && (r.ty.BoolTy? ==> IsBit(v))
  }

  /** A value held before more temporaries are computed is still held after. */
  lemma StillHeld(w: World, c: Ctx, d: Ctx, T: Temps, V: Vars, T': Temps, t: nat)
    requires Computes(w, c, d, T, V, T') && t < c.tmp && t in T
    ensures t in T' && T'[t] == T[t]
  {
  }

  lemma ToBoolRuns(w: World, c: Ctx, t: nat, ty: Ty, T: Temps, V: Vars) returns (T': Temps)
    requires Prefix(ToBool(c, t, ty).c.code, w.code)
    requires t < c.tmp && t in T && (ty.BoolTy? ==> IsBit(T[t]))
    ensures Holds(w, c, ToBool(c, t, ty), T, V, T', BoolWord(Truthy(T[t])))
  {
    if ty.BoolTy? {
      T' := T;
      ComputesRefl(w, c, T, V);
    } else {
      T' := T[c.tmp := BoolWord(Truthy(T[t]))];
      ComputesTemp(w, c, Bin(CmpNe, c.tmp, Tmp(t), Imm(0)), T, V, BoolWord(Truthy(T[t])));
    }
  }

  lemma UnaryRuns(w: World, op: UnaryOp, a: Low, T: Temps, V: Vars) returns (T': Temps)
    requires Prefix(LowerUnary(op, a).c.code, w.code)
    requires a.t < a.c.tmp && a.t in T && (a.ty.BoolTy? ==> IsBit(T[a.t]) && !op.Minus? && !op.Tilde?)
    ensures Holds(w, a.c, LowerUnary(op, a), T, V, T', EvalUnary(op, T[a.t]))
  {
    var c := a.c.(tmp := a.c.tmp + 1);
    var v := T[a.t];
    match op
    case Minus =>
      T' := T[a.c.tmp := EvalUnary(op, v)];
      ComputesTemp(w, a.c, Un(Neg, a.c.tmp, Tmp(a.t)), T, V, EvalUnary(op, v));
    case Tilde =>
      T' := T[a.c.tmp := EvalUnary(op, v)];
      ComputesTemp(w, a.c, Un(BNot, a.c.tmp, Tmp(a.t)), T, V, EvalUnary(op, v));
    case Plus =>
      T' := T;
      ComputesRefl(w, a.c, T, V);
    case LogicalNot =>
      var b := ToBool(c, a.t, a.ty);
      ToBoolGrows(c, a.t, a.ty);
      EmitGrows(b.c, Un(Not, a.c.tmp, Tmp(b.t)));
      var T1 := ToBoolRuns(w, c, a.t, a.ty, T, V);
      T' := T1[a.c.tmp := BoolWord(!Truthy(v))];
      StepHere(w, b.c, Un(Not, a.c.tmp, Tmp(b.t)), T1, V);
      ComputesThen(w, c, b.c, T, V, T1, Run(|b.c.code| + 1, T', V));
  }

  lemma ZeroExtendRuns(w: World, c: Ctx, t: nat, T: Temps, V: Vars) returns (T': Temps)
    requires Prefix(ZeroExtend(c, t).c.code, w.code)
    requires t < c.tmp && t in T && IsBit(T[t])
    ensures Holds(w, c, ZeroExtend(c, t), T, V, T', T[t])
  {
    T' := T[c.tmp := T[t]];
    ComputesTemp(w, c, Un(ZExt, c.tmp, Tmp(t)), T, V, T[t]);
  }

  /** Operands of different types, one of them `bool`, are widened without changing their values. */
  lemma WidenedRuns(w: World, a: Low, b: Low, T: Temps, V: Vars) returns (T': Temps)
    requires Prefix(Widened(a, b).1.c.code, w.code)
    requires a.t < b.c.tmp && a.t in T && (a.ty.BoolTy? ==> IsBit(T[a.t]))
    requires b.t < b.c.tmp && b.t in T && (b.ty.BoolTy? ==> IsBit(T[b.t]))
    ensures var (a', b') := Widened(a, b);
      && Computes(w, b.c, b'.c, T, V, T')
      && a'.t < b'.c.tmp && a'.t in T' && T'[a'.t] == T[a.t]
      && b'.t < b'.c.tmp && b'.t in T' && T'[b'.t] == T[b.t]
  {
    if a.ty != b.ty && a.ty.BoolTy? {
      T' := ZeroExtendRuns(w, b.c, a.t, T, V);
      assert Widened(a, b).1.c == Widened(a, b).0.c;
    } else if a.ty != b.ty && b.ty.BoolTy? {
      T' := ZeroExtendRuns(w, b.c, b.t, T, V);
    } else {
      T' := T;
      ComputesRefl(w, b.c, T, V);
    }
  }

  lemma BinaryRuns(w: World, op: BinOp, a: Low, b: Low, T: Temps, V: Vars) returns (T': Temps)
    requires Prefix(LowerBinary(op, a, b).c.code, w.code)
    requires a.t < b.c.tmp && a.t in T && (a.ty.BoolTy? ==> IsBit(T[a.t]))
    requires b.t < b.c.tmp && b.t in T && (b.ty.BoolTy? ==> IsBit(T[b.t]))
    requires a.ty.BoolTy? && b.ty.BoolTy? ==> KeepsBits(op)
    ensures var v := Binary(op, T[a.t], T[b.t]);
      if v.Some? then Holds(w, b.c, LowerBinary(op, a, b), T, V, T', v.value)
      else Reaches(w.code, w.Fi, Run(|b.c.code|, T, V), Trap(DivideError))
  {
    var (a', b') := Widened(a, b);
    var T1 := WidenedRuns(w, a, b, T, V);
    var v := Binary(op, T[a.t], T[b.t]);
    var i := Bin(op, b'.c.tmp, Tmp(a'.t), Tmp(b'.t));
    StepHere(w, b'.c, i, T1, V);
    if v.Some? {
      T' := T1[b'.c.tmp := v.value];
      ComputesTemp(w, b'.c, i, T1, V, v.value);
      ComputesTrans(w, b.c, b'.c, EmitTemp(b'.c, i), T, V, T1, T');
      if a'.ty.BoolTy? {
        BitsKept(op, T[a.t], T[b.t]);
      }
    } else {
      T' := T1;
      ComputesThen(w, b.c, b'.c, T, V, T1, Trap(DivideError));
    }
  }

  // ----- several values -----

  /** The temporaries `ts` hold `vs`. */
  predicate AllHeld(ts: seq<nat>, tys: seq<Ty>, vs: seq<Word>, n: nat, T: Temps)
    requires |ts| == |tys| == |vs|
  {
    forall i | 0 <= i < |ts| :: ts[i] < n && ts[i] in T && T[ts[i]] == vs[i] && (tys[i].BoolTy? ==> IsBit(vs[i]))
  }

  lemma AllStillHeld(ts: seq<nat>, tys: seq<Ty>, vs: seq<Word>, n: nat, m: nat, T: Temps, T': Temps)
    requires |ts| == |tys| == |vs| && AllHeld(ts, tys, vs, n, T) && Keeps(T, T', n) && n <= m
    ensures AllHeld(ts, tys, vs, m, T')
    ensures ts != [] ==> AllHeld(ts[1..], tys[1..], vs[1..], m, T')
  {
  }

  lemma AllHeldCons(ts: seq<nat>, tys: seq<Ty>, vs: seq<Word>, t: nat, ty: Ty, v: Word, n: nat, T: Temps)
    requires |ts| == |tys| == |vs| && AllHeld(ts, tys, vs, n, T)
    requires t < n && t in T && T[t] == v && (ty.BoolTy? ==> IsBit(v))
    ensures AllHeld([t] + ts, [ty] + tys, [v] + vs, n, T)
  {
  }

  lemma {:induction false} ReadTemps(ts: seq<nat>, T: Temps, vs: seq<Word>)
    requires |ts| == |vs| && forall i | 0 <= i < |ts| :: ts[i] in T && T[ts[i]] == vs[i]
    ensures ReadArgs(TempArgs(ts), T) == Some(vs)
  {
    if ts != [] {
      ReadTemps(ts[1..], T, vs[1..]);
      assert TempArgs(ts)[1..] == TempArgs(ts[1..]);
      assert [vs[0]] + vs[1..] == vs;
    }
  }

  function Fold(op: BoolOp, acc: Word, vs: seq<Word>): bool {
    if op.AndOp? then Truthy(acc) && AllTruthy(vs) else Truthy(acc) || SomeTruthy(vs)
  }

  lemma FoldAll(op: BoolOp, vs: seq<Word>)
    requires vs != []
    ensures Fold(op, BoolWord(Truthy(vs[0])), vs[1..]) == if op.AndOp? then AllTruthy(vs) else SomeTruthy(vs)
  {
    assert vs == [vs[0]] + vs[1..];
  }

  lemma FoldSingle(op: BoolOp, a: Word, v: Word)
    requires IsBit(a)
    ensures Binary(if op.AndOp? then And else Or, a, BoolWord(Truthy(v))) == Some(BoolWord(Fold(op, a, [v])))
  {
    BitwiseOnBits(a, BoolWord(Truthy(v)));
    assert v in [v];
  }

  lemma FoldOneRuns(w: World, op: BoolOp, t: nat, ty: Ty, acc: Low, T: Temps, V: Vars) returns (T': Temps)
    requires Prefix(FoldOne(op, t, ty, acc).c.code, w.code)
    requires acc.t < acc.c.tmp && acc.t in T && IsBit(T[acc.t])
    requires t < acc.c.tmp && t in T && (ty.BoolTy? ==> IsBit(T[t]))
    ensures Holds(w, acc.c, FoldOne(op, t, ty, acc), T, V, T', BoolWord(Fold(op, T[acc.t], [T[t]])))
  {
    var b := ToBool(acc.c, t, ty);
    var i := Bin(if op.AndOp? then And else Or, b.c.tmp, Tmp(acc.t), Tmp(b.t));
    ToBoolGrows(acc.c, t, ty);
    var T1 := ToBoolRuns(w, acc.c, t, ty, T, V);
    var v := BoolWord(Fold(op, T[acc.t], [T[t]]));
    FoldSingle(op, T[acc.t], T[t]);
    T' := T1[b.c.tmp := v];
    ComputesTemp(w, b.c, i, T1, V, v);
    ComputesTrans(w, acc.c, b.c, EmitTemp(b.c, i), T, V, T1, T');
  }

  lemma {:induction false} FoldRuns(w: World, op: BoolOp, ts: seq<nat>, tys: seq<Ty>, acc: Low, vs: seq<Word>,
                                    T: Temps, V: Vars) returns (T': Temps)
    requires |ts| == |tys| == |vs|
    requires Prefix(FoldBools(op, ts, tys, acc).c.code, w.code)
    requires acc.t < acc.c.tmp && acc.t in T && IsBit(T[acc.t]) && AllHeld(ts, tys, vs, acc.c.tmp, T)
    ensures Holds(w, acc.c, FoldBools(op, ts, tys, acc), T, V, T', BoolWord(Fold(op, T[acc.t], vs)))
    decreases |ts|
  {
    hide Prefix, Extends, PlainFrom, Agrees, Typed, Keeps, Reaches;
    if ts == [] {
      T' := T;
      ComputesRefl(w, acc.c, T, V);
      return;
    }
    var next := FoldOne(op, ts[0], tys[0], acc);
    FoldGrows(op, ts[1..], tys[1..], next);
    FoldOneGrows(op, ts[0], tys[0], acc);
    PrefixTrans(next.c.code, FoldBools(op, ts, tys, acc).c.code, w.code);
    var T1 := FoldOneRuns(w, op, ts[0], tys[0], acc, T, V);
    AllStillHeld(ts, tys, vs, acc.c.tmp, next.c.tmp, T, T1);
    T' := FoldRuns(w, op, ts[1..], tys[1..], next, vs[1..], T1, V);
    FoldStep(op, T[acc.t], vs);
    ComputesTrans(w, acc.c, next.c, FoldBools(op, ts, tys, acc).c, T, V, T1, T');
  }

  lemma FoldStep(op: BoolOp, a: Word, vs: seq<Word>)
    requires vs != []
    ensures Fold(op, a, vs) == Fold(op, BoolWord(Fold(op, a, [vs[0]])), vs[1..])
  {
    assert vs == [vs[0]] + vs[1..];
  }

  // ----- expressions -----

  ghost predicate Ready(w: World, c: Ctx, env: Env, V: Vars) {
    Fits(w, c) && Agrees(env, V) && Typed(env, w.G)
  }

  /** The run of a lowered expression ends as its evaluation does. */
  ghost predicate Yields(w: World, ev: Eval<Word>, c: Ctx, r: Low, T: Temps, V: Vars, T': Temps) {
    match ev
    case Val(v) => Holds(w, c, r, T, V, T', v)
    case Fault(y) => Reaches(w.code, w.Fi, Run(|c.code|, T, V), Trap(y))
    case Lost => true
  }

  /** What is computed up to `d` leaves the ending of the rest as it is. */
  lemma YieldsAfter(w: World, ev: Eval<Word>, c: Ctx, d: Ctx, r: Low, T: Temps, V: Vars, T': Temps, T'': Temps)
    requires Computes(w, c, d, T, V, T') && Yields(w, ev, d, r, T', V, T'') && c.tmp <= d.tmp
    ensures Yields(w, ev, c, r, T, V, T'')
  {
    if ev.Val? {
      ComputesTrans(w, c, d, r.c, T, V, T', T'');
    } else if ev.Fault? {
      ComputesThen(w, c, d, T, V, T', Trap(ev.why));
    }
  }

  lemma {:induction false} ExprRuns(w: World, e: Expr, c: Ctx, env: Env, T: Temps, V: Vars) returns (T': Temps)
    requires Ready(w, c, env, V)
    requires WellTyped(e, c.vars, c.funcs.Keys) && Prefix(LowerExpr(e, c).c.code, w.code)
    ensures Yields(w, EvalExpr(w.Fs, e, env), c, LowerExpr(e, c), T, V, T')
    decreases e, 1
  {
    T' := T;
    match e
    case IntLit(v) =>
      T' := T[c.tmp := Wrap(v)];
      ComputesTemp(w, c, Const(c.tmp, Wrap(v)), T, V, Wrap(v));
    case BoolLit(b) =>
      T' := T[c.tmp := BoolWord(b)];
      ComputesTemp(w, c, Const(c.tmp, BoolWord(b)), T, V, BoolWord(b));
    case Var(x) =>
      if x in env {
        T' := T[c.tmp := env[x]];
        ComputesTemp(w, c, Load(c.tmp, Local(x)), T, V, env[x]);
      }
    case UnaryE(op, a) =>
      T' := UnaryExprRuns(w, e, c, env, T, V);
    case BinaryE(op, l, r) =>
      T' := BinaryExprRuns(w, e, c, env, T, V);
    case Compare(l, cmps, rs) =>
      T' := CompareRuns(w, e, c, env, T, V);
    case BoolE(op, es) =>
      T' := BoolExprRuns(w, e, c, env, T, V);
    case IfExp(test, a, b) =>
      T' := IfExpRuns(w, e, c, env, T, V);
    case CallE(f, args) =>
      T' := CallRuns(w, e, c, env, T, V);
  }

  lemma {:induction false} UnaryExprRuns(w: World, e: Expr, c: Ctx, env: Env, T: Temps, V: Vars) returns (T': Temps)
    requires e.UnaryE?
    requires Ready(w, c, env, V)
    requires WellTyped(e, c.vars, c.funcs.Keys) && Prefix(LowerExpr(e, c).c.code, w.code)
    ensures Yields(w, EvalExpr(w.Fs, e, env), c, LowerExpr(e, c), T, V, T')
    decreases e, 0
  {
    hide Prefix, Extends, PlainFrom, Agrees, Typed, Keeps, Reaches;
    var a := LowerExpr(e.operand, c);
    ExprGrows(e.operand, c);
    UnaryGrows(e.uop, a);
    PrefixTrans(a.c.code, LowerExpr(e, c).c.code, w.code);
    LoweredType(e.operand, c);
    T' := ExprRuns(w, e.operand, c, env, T, V);
    var ev := EvalExpr(w.Fs, e.operand, env);
    if ev.Val? {
      var T1 := T';
      T' := UnaryRuns(w, e.uop, a, T1, V);
      YieldsAfter(w, EvalExpr(w.Fs, e, env), c, a.c, LowerExpr(e, c), T, V, T1, T');
    }
  }

  lemma {:induction false} BinaryExprRuns(w: World, e: Expr, c: Ctx, env: Env, T: Temps, V: Vars) returns (T': Temps)
    requires e.BinaryE?
    requires Ready(w, c, env, V)
    requires WellTyped(e, c.vars, c.funcs.Keys) && Prefix(LowerExpr(e, c).c.code, w.code)
    ensures Yields(w, EvalExpr(w.Fs, e, env), c, LowerExpr(e, c), T, V, T')
    decreases e, 0
  {
    hide Prefix, Extends, PlainFrom, Agrees, Typed, Keeps, Reaches;
    var a := LowerExpr(e.left, c);
    var b := LowerExpr(e.right, a.c);
    ExprGrows(e.left, c);
    ExprGrows(e.right, a.c);
    BinaryGrows(e.op, a, b);
    PrefixTrans(b.c.code, LowerExpr(e, c).c.code, w.code);
    PrefixTrans(a.c.code, b.c.code, w.code);
    LoweredType(e.left, c);
    LoweredType(e.right, a.c);
    var r, ev := LowerExpr(e, c), EvalExpr(w.Fs, e, env);
    var T1 := ExprRuns(w, e.left, c, env, T, V);
    T' := T1;
    if EvalExpr(w.Fs, e.left, env).Val? {
      var T2 := ExprRuns(w, e.right, a.c, env, T1, V);
      T' := T2;
      if EvalExpr(w.Fs, e.right, env).Val? {
        StillHeld(w, a.c, b.c, T1, V, T2, a.t);
        T' := BinaryRuns(w, e.op, a, b, T2, V);
        YieldsAfter(w, ev, a.c, b.c, r, T1, V, T2, T');
      }
      YieldsAfter(w, ev, c, a.c, r, T, V, T1, T');
    }
  }

  lemma {:induction false} CompareRuns(w: World, e: Expr, c: Ctx, env: Env, T: Temps, V: Vars) returns (T': Temps)
    requires e.Compare?
    requires Ready(w, c, env, V)
    requires WellTyped(e, c.vars, c.funcs.Keys) && Prefix(LowerExpr(e, c).c.code, w.code)
    ensures Yields(w, EvalExpr(w.Fs, e, env), c, LowerExpr(e, c), T, V, T')
    decreases e, 0
  {
    hide Prefix, Extends, PlainFrom, Agrees, Typed, Keeps, Reaches;
    var a := LowerExpr(e.first, c);
    ExprGrows(e.first, c);
    ChainGrows(e.cmps, e.comparators, a.t, None, a.c);
    PrefixTrans(a.c.code, LowerExpr(e, c).c.code, w.code);
    T' := ExprRuns(w, e.first, c, env, T, V);
    var ev := EvalExpr(w.Fs, e.first, env);
    if ev.Val? {
      var T1 := T';
      T' := ChainRuns(w, e.cmps, e.comparators, a.t, None, a.c, env, T1, V, ev.value, true);
      YieldsAfter(w, EvalExpr(w.Fs, e, env), c, a.c, LowerExpr(e, c), T, V, T1, T');
    }
  }

  lemma {:induction false} BoolExprRuns(w: World, e: Expr, c: Ctx, env: Env, T: Temps, V: Vars) returns (T': Temps)
    requires e.BoolE?
    requires Ready(w, c, env, V)
    requires WellTyped(e, c.vars, c.funcs.Keys) && Prefix(LowerExpr(e, c).c.code, w.code)
    ensures Yields(w, EvalExpr(w.Fs, e, env), c, LowerExpr(e, c), T, V, T')
    decreases e, 0
  {
    hide Prefix, Extends, PlainFrom, Agrees, Typed, Keeps, Reaches;
    var vs := LowerAll(e.values, c);
    var first := ToBool(vs.c, vs.ts[0], vs.tys[0]);
    var r := LowerExpr(e, c);
    AllGrows(e.values, c);
    ToBoolGrows(vs.c, vs.ts[0], vs.tys[0]);
    FoldGrows(e.bop, vs.ts[1..], vs.tys[1..], first);
    PrefixTrans(first.c.code, r.c.code, w.code);
    PrefixTrans(vs.c.code, first.c.code, w.code);
    var T1 := AllRuns(w, e.values, c, env, T, V);
    T' := T1;
    var ev := EvalAll(w.Fs, e.values, env);
    if ev.Val? {
      var T2 := ToBoolRuns(w, vs.c, vs.ts[0], vs.tys[0], T1, V);
      ComputesTrans(w, c, vs.c, first.c, T, V, T1, T2);
      AllStillHeld(vs.ts, vs.tys, ev.value, vs.c.tmp, first.c.tmp, T1, T2);
      T' := FoldRuns(w, e.bop, vs.ts[1..], vs.tys[1..], first, ev.value[1..], T2, V);
      FoldAll(e.bop, ev.value);
      YieldsAfter(w, EvalExpr(w.Fs, e, env), c, first.c, r, T, V, T2, T');
    }
  }

  lemma {:induction false} IfExpRuns(w: World, e: Expr, c: Ctx, env: Env, T: Temps, V: Vars) returns (T': Temps)
    requires e.IfExp?
    requires Ready(w, c, env, V)
    requires WellTyped(e, c.vars, c.funcs.Keys) && Prefix(LowerExpr(e, c).c.code, w.code)
    ensures Yields(w, EvalExpr(w.Fs, e, env), c, LowerExpr(e, c), T, V, T')
    decreases e, 0
  {
    hide Prefix, Extends, PlainFrom, Agrees, Typed, Keeps, Reaches;
    var rt := LowerExpr(e.test, c);
    var ra := LowerExpr(e.body, rt.c);
    var rb := LowerExpr(e.orelse, ra.c);
    var r, ev := LowerExpr(e, c), EvalExpr(w.Fs, e, env);
    ExprGrows(e.test, c);
    ExprGrows(e.body, rt.c);
    ExprGrows(e.orelse, ra.c);
    EmitGrows(rb.c, Select(rb.c.tmp, Tmp(rt.t), Tmp(ra.t), Tmp(rb.t)));
    PrefixTrans(rb.c.code, r.c.code, w.code);
    PrefixTrans(ra.c.code, rb.c.code, w.code);
    PrefixTrans(rt.c.code, ra.c.code, w.code);
    LoweredType(e.body, rt.c);
    LoweredType(e.orelse, ra.c);
    var et, ea, eb := EvalExpr(w.Fs, e.test, env), EvalExpr(w.Fs, e.body, env), EvalExpr(w.Fs, e.orelse, env);
    var T1 := ExprRuns(w, e.test, c, env, T, V);
    T' := T1;
    if et.Val? {
      var T2 := ExprRuns(w, e.body, rt.c, env, T1, V);
      T' := T2;
      if ea.Val? {
        var T3 := ExprRuns(w, e.orelse, ra.c, env, T2, V);
        T' := T3;
        if eb.Val? {
          StillHeld(w, rt.c, ra.c, T1, V, T2, rt.t);
          StillHeld(w, ra.c, rb.c, T2, V, T3, rt.t);
          StillHeld(w, ra.c, rb.c, T2, V, T3, ra.t);
          T' := SelectRuns(w, rb.c, rt.t, ra.t, rb.t, ra.ty, T3, V);
          YieldsAfter(w, ev, ra.c, rb.c, r, T2, V, T3, T');
        }
        YieldsAfter(w, ev, rt.c, ra.c, r, T1, V, T2, T');
      }
      YieldsAfter(w, ev, c, rt.c, r, T, V, T1, T');
    }
  }

  lemma SelectRuns(w: World, c: Ctx, t: nat, a: nat, b: nat, ty: Ty, T: Temps, V: Vars) returns (T': Temps)
    requires Prefix(c.code + [Select(c.tmp, Tmp(t), Tmp(a), Tmp(b))], w.code)
    requires t in T && a in T && b in T && (ty.BoolTy? ==> IsBit(T[a]) && IsBit(T[b]))
    ensures Holds(w, c, Low(EmitTemp(c, Select(c.tmp, Tmp(t), Tmp(a), Tmp(b))), c.tmp, ty), T, V, T',
                  if Truthy(T[t]) then T[a] else T[b])
  {
    var v := if Truthy(T[t]) then T[a] else T[b];
    T' := T[c.tmp := v];
    ComputesTemp(w, c, Select(c.tmp, Tmp(t), Tmp(a), Tmp(b)), T, V, v);
  }

  lemma {:induction false} CallRuns(w: World, e: Expr, c: Ctx, env: Env, T: Temps, V: Vars) returns (T': Temps)
    requires e.CallE?
    requires Ready(w, c, env, V)
    requires WellTyped(e, c.vars, c.funcs.Keys) && Prefix(LowerExpr(e, c).c.code, w.code)
    ensures Yields(w, EvalExpr(w.Fs, e, env), c, LowerExpr(e, c), T, V, T')
    decreases e, 0
  {
    hide Prefix, Extends, PlainFrom, Agrees, Typed, Keeps, Reaches;
    CallIs(e, c);
    hide Handled, LowerExpr, WellTyped;
    var vs := LowerAll(e.args, c);
    AllGrows(e.args, c);
    var i := Call(vs.c.tmp, c.funcs[e.func], TempArgs(vs.ts));
    EmitGrows(vs.c, i);
    PrefixTrans(vs.c.code, LowerExpr(e, c).c.code, w.code);
    T' := AllRuns(w, e.args, c, env, T, V);
    var ev := EvalAll(w.Fs, e.args, env);
    if ev.Val? {
      var T1 := T';
      ReadTemps(vs.ts, T1, ev.value);
      T' := CallStep(w, vs.c, e.func, vs.ts, ev.value, T1, V);
      YieldsAfter(w, EvalExpr(w.Fs, e, env), c, vs.c, LowerExpr(e, c), T, V, T1, T');
    }
  }

  /** The call itself, with its arguments in temporaries. */
  lemma CallStep(w: World, c: Ctx, f: string, ts: seq<nat>, vs: seq<Word>, T: Temps, V: Vars) returns (T': Temps)
    requires f in c.funcs && CallsAgree(w.Fs, w.Fi, c.funcs) && ReadArgs(TempArgs(ts), T) == Some(vs)
    requires Prefix(EmitTemp(c, Call(c.tmp, c.funcs[f], TempArgs(ts))).code, w.code)
    ensures var i := Call(c.tmp, c.funcs[f], TempArgs(ts));
      Yields(w, OfCall(w.Fs(f, vs)), c, Low(EmitTemp(c, i), c.tmp, IntTy), T, V, T')
  {
    var i := Call(c.tmp, c.funcs[f], TempArgs(ts));
    var r := w.Fs(f, vs);
    T' := T;
    StepHere(w, c, i, T, V);
    if r.Returns? {
      T' := T[c.tmp := r.value];
      ComputesTemp(w, c, i, T, V, r.value);
    }
  }

  lemma CallIs(e: Expr, c: Ctx)
    requires e.CallE? && WellTyped(e, c.vars, c.funcs.Keys)
    ensures var vs := LowerAll(e.args, c);
      && e.func in c.funcs && AllWellTyped(e.args, c.vars, c.funcs.Keys)
      && LowerExpr(e, c) == Low(EmitTemp(vs.c, Call(vs.c.tmp, c.funcs[e.func], TempArgs(vs.ts))), vs.c.tmp, IntTy)
  {
  }

  lemma {:induction false} AllRuns(w: World, es: seq<Expr>, c: Ctx, env: Env, T: Temps, V: Vars) returns (T': Temps)
    requires Ready(w, c, env, V)
    requires AllWellTyped(es, c.vars, c.funcs.Keys) && Prefix(LowerAll(es, c).c.code, w.code)
    ensures match EvalAll(w.Fs, es, env)
      case Val(vs) =>
        var r := LowerAll(es, c);
        Computes(w, c, r.c, T, V, T') && AllHeld(r.ts, r.tys, vs, r.c.tmp, T')
      case Fault(y) => Reaches(w.code, w.Fi, Run(|c.code|, T, V), Trap(y))
      case Lost => true
    decreases es, 0
  {
    hide Prefix, Extends, PlainFrom, Agrees, Typed, Keeps, Reaches;
    if es == [] {
      T' := T;
      ComputesRefl(w, c, T, V);
      return;
    }
    var a := LowerExpr(es[0], c);
    ExprGrows(es[0], c);
    AllGrows(es[1..], a.c);
    PrefixTrans(a.c.code, LowerAll(es, c).c.code, w.code);
    var T1 := ExprRuns(w, es[0], c, env, T, V);
    T' := T1;
    var ea := EvalExpr(w.Fs, es[0], env);
    if ea.Val? {
      T' := AllRuns(w, es[1..], a.c, env, T1, V);
      var er := EvalAll(w.Fs, es[1..], env);
      if er.Val? {
        var rest := LowerAll(es[1..], a.c);
        StillHeld(w, a.c, rest.c, T1, V, T', a.t);
        AllHeldCons(rest.ts, rest.tys, er.value, a.t, a.ty, ea.value, rest.c.tmp, T');
        ComputesTrans(w, c, a.c, LowerAll(es, c).c, T, V, T1, T');
      } else if er.Fault? {
        ComputesThen(w, c, a.c, T, V, T1, Trap(er.why));
      }
    }
  }

  /** The rest of a comparison chain that starts from the value `a`. */
  function EvalChain(F: CallEnv, a: Word, cmps: seq<BinOp>, rs: seq<Expr>, env: Env, sofar: bool): Eval<Word>
    requires |cmps| == |rs|
  {
    var vs :- EvalAll(F, rs, env);
    Val(BoolWord(sofar && ChainHolds(a, cmps, vs)))
  }

  lemma LinkRuns(w: World, op: BinOp, left: nat, r: Low, acc: Option<nat>, T: Temps, V: Vars, sofar: bool)
    returns (T': Temps)
    requires Prefix(Link(op, left, r, acc).c.code, w.code) && Compares(op)
    requires left < r.c.tmp && left in T && r.t < r.c.tmp && r.t in T
    requires if acc.Some? then acc.value < r.c.tmp && acc.value in T && T[acc.value] == BoolWord(sofar) else sofar
    ensures Holds(w, r.c, Link(op, left, r, acc), T, V, T', BoolWord(sofar && Binary(op, T[left], T[r.t]) == Some(1)))
  {
    var t := r.c.tmp;
    var i := Bin(op, t, Tmp(left), Tmp(r.t));
    var c := EmitTemp(r.c, i);
    var link := BoolWord(Binary(op, T[left], T[r.t]) == Some(1));
    T' := T[t := link];
    ComputesTemp(w, r.c, i, T, V, link);
    if acc.Some? {
      var j := Bin(And, c.tmp, Tmp(acc.value), Tmp(t));
      var v := BoolWord(sofar && Truthy(link));
      var T1 := T';
      T' := T1[c.tmp := v];
      BitwiseOnBits(BoolWord(sofar), link);
      ComputesTemp(w, c, j, T1, V, v);
      ComputesTrans(w, r.c, c, EmitTemp(c, j), T, V, T1, T');
    }
  }

  /** The rest of a comparison chain: `left` holds `a`, and the links so far hold iff `sofar`. */
  lemma {:induction false} ChainRuns(w: World, cmps: seq<BinOp>, rs: seq<Expr>, left: nat, acc: Option<nat>, c: Ctx,
                                     env: Env, T: Temps, V: Vars, a: Word, sofar: bool) returns (T': Temps)
    requires Ready(w, c, env, V)
    requires AllWellTyped(rs, c.vars, c.funcs.Keys) && Prefix(LowerChain(cmps, rs, left, acc, c).c.code, w.code)
    requires |cmps| == |rs| && forall op <- cmps :: Compares(op)
    requires left < c.tmp && left in T && T[left] == a
    requires
      if acc.Some? then acc.value < c.tmp && acc.value in T && T[acc.value] == BoolWord(sofar) else sofar && rs != []
    ensures Yields(w, EvalChain(w.Fs, a, cmps, rs, env, sofar), c, LowerChain(cmps, rs, left, acc, c), T, V, T')
    decreases rs, 0
  {
    hide LowerExpr, EvalExpr, Link, Binary, TypeOf, WellTyped;
    hide Prefix, Extends, PlainFrom, Agrees, Typed, Keeps, Reaches;
    T' := T;
    if rs == [] {
      ComputesRefl(w, c, T, V);
      return;
    }
    var r := LowerExpr(rs[0], c);
    ExprGrows(rs[0], c);
    var next := Link(cmps[0], left, r, acc);
    ChainGrows(cmps[1..], rs[1..], r.t, Some(next.t), next.c);
    LinkGrows(cmps[0], left, r, acc);
    PrefixTrans(next.c.code, LowerChain(cmps, rs, left, acc, c).c.code, w.code);
    PrefixTrans(r.c.code, next.c.code, w.code);
    var T1 := ExprRuns(w, rs[0], c, env, T, V);
    T' := T1;
    var ev := EvalExpr(w.Fs, rs[0], env);
    if ev.Val? {
      assert Compares(cmps[0]);
      var sofar' := sofar && Binary(cmps[0], a, ev.value) == Some(1);
      StillHeld(w, c, r.c, T, V, T1, left);
      if acc.Some? {
        StillHeld(w, c, r.c, T, V, T1, acc.value);
      }
      var T2 := LinkRuns(w, cmps[0], left, r, acc, T1, V, sofar);
      ComputesTrans(w, c, r.c, next.c, T, V, T1, T2);
      StillHeld(w, r.c, next.c, T1, V, T2, r.t);
      T' := ChainRuns(w, cmps[1..], rs[1..], r.t, Some(next.t), next.c, env, T2, V, ev.value, sofar');
      YieldsAfter(w, EvalChain(w.Fs, a, cmps, rs, env, sofar), c, next.c, LowerChain(cmps, rs, left, acc, c), T, V,
        T2, T');
    }
  }
}
