/** Every name the compiler knows was declared or stored earlier in the code it has emitted, and it only loads names
    it knows; so the backend never meets a load of a name without a slot. */
module LoweringNamed {
  import opened Words
  import opened Wrappers
  import opened Python
  import opened IR
  import opened Lowering
  import opened Builtins
  import opened LoweringGrows
  import opened LoweringProgram
  import opened Backend
  import opened BackendSlots
  import opened BackendLayout
  import opened BackendCorrect

  /** Every load is of a name declared or stored before it. */
  predicate LoadsNamed(code: Code) {
    code == [] || (
      var front, i := code[..|code| - 1], code[|code| - 1];
      LoadsNamed(front) && (i.Load? ==> i.name in NamesIn(front)))
  }

  predicate Named(c: Ctx) {
    c.vars.Keys <= NamesIn(c.code) && LoadsNamed(c.code)
  }

  // ----- emission -----

  lemma EmitIs(c: Code, i: Instr)
    ensures NamesIn(c + [i]) == NamesIn(c) + NamesOf(i)
    ensures LoadsNamed(c + [i]) == (LoadsNamed(c) && (i.Load? ==> i.name in NamesIn(c)))
  {
    assert (c + [i])[..|c + [i]| - 1] == c;
  }

  lemma EmitNamed(c: Ctx, i: Instr)
    requires Named(c) && (i.Load? ==> i.name in c.vars)
    ensures Named(Emit(c, i)) && Named(EmitTemp(c, i))
  {
    EmitIs(c.code, i);
    hide NamesIn, LoadsNamed;
  }

  /** Only the code and the names matter. */
  lemma SameNamed(c: Ctx, d: Ctx)
    requires Named(c) && d.code == c.code && d.vars == c.vars
    ensures Named(d)
  {
    hide NamesIn, LoadsNamed;
  }

  lemma AllocaNamed(c: Ctx, x: Name, ty: Ty)
    requires Named(c)
    ensures Named(Emit(c, Alloca(x)).(vars := c.vars[x := ty]))
  {
    EmitIs(c.code, Alloca(x));
    hide NamesIn, LoadsNamed;
  }

  lemma DeclareNamed(c: Ctx, x: Name, ty: Ty)
    requires Named(c)
    ensures Named(Declare(c, x, ty))
  {
    if x !in c.vars {
      AllocaNamed(c, x, ty);
    }
  }

  lemma ConstNamed(c: Ctx, v: Word, ty: Ty)
    requires Named(c)
    ensures Named(MakeConst(c, v, ty).c)
  {
    EmitNamed(c, Const(c.tmp, v));
    hide Named;
  }

  // ----- expressions -----

  lemma ToBoolNamed(c: Ctx, t: nat, ty: Ty)
    requires Named(c)
    ensures Named(ToBool(c, t, ty).c)
  {
    EmitNamed(c, Bin(CmpNe, c.tmp, Tmp(t), Imm(0)));
    hide Named;
  }

  lemma BinaryNamed(op: BinOp, a: Low, b: Low)
    requires Named(b.c)
    ensures Named(LowerBinary(op, a, b).c)
  {
    var (a', b') := Widened(a, b);
    EmitNamed(b.c, Un(ZExt, b.c.tmp, Tmp(a.t)));
    EmitNamed(b.c, Un(ZExt, b.c.tmp, Tmp(b.t)));
    hide Named;
    assert Named(b'.c);
    EmitNamed(b'.c, Bin(op, b'.c.tmp, Tmp(a'.t), Tmp(b'.t)));
  }

  lemma UnaryNamed(op: UnaryOp, a: Low)
    requires Named(a.c)
    ensures Named(LowerUnary(op, a).c)
  {
    hide Named;
    var t := a.c.tmp;
    var c := a.c.(tmp := t + 1);
    SameNamed(a.c, c);
    match op
    case Minus => EmitNamed(c, Un(Neg, t, Tmp(a.t)));
    case Tilde => EmitNamed(c, Un(BNot, t, Tmp(a.t)));
    case Plus =>
    case LogicalNot =>
      var b := ToBool(c, a.t, a.ty);
      ToBoolNamed(c, a.t, a.ty);
      EmitNamed(b.c, Un(Not, t, Tmp(b.t)));
  }

  lemma {:induction false} ExprNamed(e: Expr, c: Ctx)
    requires Named(c)
    ensures Named(LowerExpr(e, c).c)
    decreases e, 1
  {
    hide Named;
    match e
    case IntLit(v) => ConstNamed(c, Wrap(v), IntTy);
    case BoolLit(b) => ConstNamed(c, BoolWord(b), BoolTy);
    case Var(x) =>
      SameNamed(c, Fail(c));
      if Local(x) in c.vars && !Special(x) {
        EmitNamed(c, Load(c.tmp, Local(x)));
      }
    case UnaryE(op, a) =>
      ExprNamed(a, c);
      UnaryNamed(op, LowerExpr(a, c));
    case BinaryE(op, l, r) =>
      var a := LowerExpr(l, c);
      ExprNamed(l, c);
      ExprNamed(r, a.c);
      BinaryNamed(op, a, LowerExpr(r, a.c));
    case Compare(l, cmps, rs) =>
      ExprNamed(l, c);
      ChainNamed(cmps, rs, LowerExpr(l, c).t, None, LowerExpr(l, c).c);
    case BoolE(op, es) =>
      var vs := LowerAll(es, c);
      AllNamed(es, c);
      SameNamed(c, Fail(c));
      if es != [] {
        var first := ToBool(vs.c, vs.ts[0], vs.tys[0]);
        ToBoolNamed(vs.c, vs.ts[0], vs.tys[0]);
        FoldNamed(op, vs.ts[1..], vs.tys[1..], first);
      }
    case IfExp(test, a, b) =>
      var rt := LowerExpr(test, c);
      var ra := LowerExpr(a, rt.c);
      var rb := LowerExpr(b, ra.c);
      ExprNamed(test, c);
      ExprNamed(a, rt.c);
      ExprNamed(b, ra.c);
      EmitNamed(rb.c, Select(rb.c.tmp, Tmp(rt.t), Tmp(ra.t), Tmp(rb.t)));
    case CallE(f, args) =>
      ConstNamed(c, 0, NoneTy);
      ConstNamed(c, 0, IntTy);
      ConstNamed(c, 1, BoolTy);
      SameNamed(c, Fail(c));
      if f in c.funcs && !Handled(f, |args|) {
        AllNamed(args, c);
        var vs := LowerAll(args, c);
        EmitNamed(vs.c, Call(vs.c.tmp, c.funcs[f], TempArgs(vs.ts)));
      }
  }

  lemma {:induction false} AllNamed(es: seq<Expr>, c: Ctx)
    requires Named(c)
    ensures Named(LowerAll(es, c).c)
    decreases es, 0
  {
    hide Named;
    if es != [] {
      ExprNamed(es[0], c);
      AllNamed(es[1..], LowerExpr(es[0], c).c);
    }
  }

  lemma {:induction false} ChainNamed(cmps: seq<BinOp>, rs: seq<Expr>, left: nat, soFar: Option<nat>, c: Ctx)
    requires Named(c)
    ensures Named(LowerChain(cmps, rs, left, soFar, c).c)
    decreases rs, 0
  {
    hide Named;
    if rs != [] && cmps != [] {
      var r := LowerExpr(rs[0], c);
      ExprNamed(rs[0], c);
      var next := Link(cmps[0], left, r, soFar);
      LinkNamed(cmps[0], left, r, soFar);
      ChainNamed(cmps[1..], rs[1..], r.t, Some(next.t), next.c);
    } else {
      ConstNamed(c, 0, BoolTy);
    }
  }

  lemma LinkNamed(op: BinOp, left: nat, r: Low, acc: Option<nat>)
    requires Named(r.c)
    ensures Named(Link(op, left, r, acc).c)
  {
    var t := r.c.tmp;
    var c := EmitTemp(r.c, Bin(op, t, Tmp(left), Tmp(r.t)));
    EmitNamed(r.c, Bin(op, t, Tmp(left), Tmp(r.t)));
    if acc.Some? {
      EmitNamed(c, Bin(And, c.tmp, Tmp(acc.value), Tmp(t)));
    }
    hide Named;
  }

  lemma {:induction false} FoldNamed(op: BoolOp, ts: seq<nat>, tys: seq<Ty>, acc: Low)
    requires |ts| == |tys| && Named(acc.c)
    ensures Named(FoldBools(op, ts, tys, acc).c)
    decreases |ts|
  {
    hide Named;
    if ts != [] {
      var b := ToBool(acc.c, ts[0], tys[0]);
      ToBoolNamed(acc.c, ts[0], tys[0]);
      EmitNamed(b.c, Bin(if op.AndOp? then And else Or, b.c.tmp, Tmp(acc.t), Tmp(b.t)));
      FoldNamed(op, ts[1..], tys[1..], FoldOne(op, ts[0], tys[0], acc));
    }
  }

  // ----- statements -----

  lemma {:induction false} StoreAllNamed(targets: seq<string>, v: Low, c: Ctx)
    requires Named(c)
    ensures Named(StoreAll(targets, v, c))
    decreases |targets|
  {
    hide Named;
    if targets != [] {
      var c1 := Declare(c, Local(targets[0]), v.ty);
      DeclareNamed(c, Local(targets[0]), v.ty);
      EmitNamed(c1, Store(Tmp(v.t), Local(targets[0])));
      StoreAllNamed(targets[1..], v, Emit(c1, Store(Tmp(v.t), Local(targets[0]))));
    }
  }

  lemma BranchNamed(c: Ctx, t: nat, yes: nat, no: nat)
    requires Named(c)
    ensures Named(Branch(c, t, yes, no))
  {
    hide Named;
    EmitNamed(c, Jnz(Tmp(t), yes));
    EmitNamed(Emit(c, Jnz(Tmp(t), yes)), Jmp(no));
    EmitNamed(Emit(Emit(c, Jnz(Tmp(t), yes)), Jmp(no)), Label(yes));
  }

  lemma {:induction false} StmtNamed(s: Stmt, c: Ctx)
    requires Named(c)
    ensures Named(LowerStmt(s, c))
    decreases s, 2
  {
    hide Named;
    if Terminated(c.code) {
      return;
    }
    match s
    case Assign(targets, e) =>
      ExprNamed(e, c);
      StoreAllNamed(targets, LowerExpr(e, c), LowerExpr(e, c).c);
    case AugAssign(x, op, e) =>
      SameNamed(c, Fail(c));
      if Local(x) in c.vars {
        var c1 := EmitTemp(c, Load(c.tmp, Local(x)));
        EmitNamed(c, Load(c.tmp, Local(x)));
        ExprNamed(e, c1);
        var r := LowerExpr(e, c1);
        var t := r.c.tmp;
        EmitNamed(r.c, Bin(op, t, Tmp(c.tmp), Tmp(r.t)));
        EmitNamed(EmitTemp(r.c, Bin(op, t, Tmp(c.tmp), Tmp(r.t))), Store(Tmp(t), Local(x)));
      }
    case CallStmt(e) => ExprNamed(e, c);
    case If(_, _, _, _) => IfNamed(s, c);
    case While(_, _) => WhileNamed(s, c);
    case ForRange(_, _, _) => ForNamed(s, c);
    case Return(e) =>
      var r := if e.Some? then LowerExpr(e.value, c) else MakeConst(c, 0, IntTy);
      ConstNamed(c, 0, IntTy);
      if e.Some? {
        ExprNamed(e.value, c);
      }
      EmitNamed(r.c, Ret(Tmp(r.t)));
    case Break =>
      if c.exit.Some? {
        EmitNamed(c, Jmp(c.exit.value));
      }
    case Continue =>
      if c.cont.Some? {
        EmitNamed(c, Jmp(c.cont.value));
      }
    case Pass =>
  }

  lemma {:induction false} StmtsNamed(ss: seq<Stmt>, c: Ctx)
    requires Named(c)
    ensures Named(LowerStmts(ss, c))
    decreases ss, 0
  {
    hide Named;
    if ss != [] {
      StmtNamed(ss[0], c);
      StmtsNamed(ss[1..], LowerStmt(ss[0], c));
    }
  }

  lemma BlockNamed(ss: seq<Stmt>, c: Ctx, l: nat)
    requires Named(c)
    ensures Named(JumpIfOpen(LowerStmts(ss, c), l))
    decreases ss, 1
  {
    hide Named;
    StmtsNamed(ss, c);
    EmitNamed(LowerStmts(ss, c), Jmp(l));
  }

  lemma IfNamed(s: Stmt, c: Ctx)
    requires s.If? && Named(c)
    ensures Named(LowerIf(s, c))
    decreases s, 1
  {
    hide Named;
    var r := LowerExpr(s.test, c);
    var arms := LowerElifs(s, 0, r.c, IfBody(s, r));
    ExprNamed(s.test, c);
    SameNamed(r.c, IfLabels(s, r.c));
    BranchNamed(IfLabels(s, r.c), r.t, ThenLabel(r.c), ArmLabel(s, r.c, 0));
    BlockNamed(s.body, IfOpen(s, r), MergeLabel(r.c));
    ElifsNamed(s, 0, r.c, IfBody(s, r));
    if s.orelse != [] {
      EmitNamed(arms, Label(ElseLabel(s, r.c)));
      BlockNamed(s.orelse, Emit(arms, Label(ElseLabel(s, r.c))), MergeLabel(r.c));
    }
    EmitNamed(IfTail(s, r.c, arms), Label(MergeLabel(r.c)));
  }

  lemma {:induction false} ElifsNamed(s: Stmt, i: nat, at: Ctx, c: Ctx)
    requires s.If? && i <= |s.elifs| && Named(c)
    ensures Named(LowerElifs(s, i, at, c))
    decreases s, 0, |s.elifs| - i
  {
    hide Named;
    if i < |s.elifs| {
      var r := ElifTest(s, i, at, c);
      var c1 := Emit(c, Label(TestLabel(at, i)));
      EmitNamed(c, Label(TestLabel(at, i)));
      ExprNamed(s.elifs[i].test, c1);
      BranchNamed(r.c, r.t, BodyLabel(at, i), ArmLabel(s, at, i + 1));
      BlockNamed(s.elifs[i].body, ElifOpen(s, i, at, r), MergeLabel(at));
      ElifsNamed(s, i + 1, at, ElifBody(s, i, at, r));
    }
  }

  lemma CloseNamed(d: Ctx, c: Ctx)
    requires Named(d)
    ensures Named(CloseLoop(d, c))
  {
    var d1 := d.(exit := c.exit, cont := c.cont);
    SameNamed(d, d1);
    hide Named;
    EmitNamed(d1, Label(if d.exit.Some? then d.exit.value else 0));
  }

  lemma WhileNamed(s: Stmt, c: Ctx)
    requires s.While? && Named(c)
    ensures Named(LowerWhile(s, c))
    decreases s, 1
  {
    hide Named;
    var head := WhileHead(c);
    var c1 := c.(lbl := c.lbl + 3, exit := Some(c.lbl + 2), cont := Some(c.lbl));
    SameNamed(c, c1);
    EmitNamed(c1, Jmp(c.lbl));
    EmitNamed(Emit(c1, Jmp(c.lbl)), Label(c.lbl));
    ExprNamed(s.test, head);
    var r := LowerExpr(s.test, head);
    BranchNamed(r.c, r.t, c.lbl + 1, c.lbl + 2);
    BlockNamed(s.body, WhileOpen(s, c, r), c.lbl);
    CloseNamed(JumpIfOpen(LowerStmts(s.body, WhileOpen(s, c, r)), c.lbl), c);
  }

  lemma BoundsNamed(args: seq<Expr>, c: Ctx)
    requires Named(c)
    ensures Named(LowerBounds(args, c).c)
  {
    hide Named;
    if |args| == 0 {
      SameNamed(c, Fail(c));
    } else {
      var start := if |args| == 1 then MakeConst(c, 0, IntTy) else LowerExpr(args[0], c);
      var stop := LowerExpr(if |args| == 1 then args[0] else args[1], start.c);
      ConstNamed(c, 0, IntTy);
      if |args| >= 2 {
        ExprNamed(args[0], c);
      }
      ExprNamed(if |args| == 1 then args[0] else args[1], start.c);
      ConstNamed(stop.c, 1, IntTy);
      if |args| > 2 {
        ExprNamed(args[2], stop.c);
      }
    }
  }

  /** The hidden index is declared, and known from then on. */
  lemma ForIndexNamed(c: Ctx)
    requires Named(c)
    ensures Named(ForIndex(c)) && LoopIndex(c.lbl + 4) in ForIndex(c).vars
  {
    hide Named;
    var x := LoopIndex(c.lbl + 4);
    var c0 := MakeConst(c, 0, NoneTy).c;
    ConstNamed(c, 0, NoneTy);
    var c1 := c0.(lbl := c.lbl + 5, exit := Some(c.lbl + 3), cont := Some(c.lbl + 2));
    SameNamed(c0, c1);
    var c2 := Emit(c1, Alloca(x)).(vars := c1.vars[x := I64Ty]);
    AllocaNamed(c1, x, I64Ty);
    ConstNamed(c2, 0, IntTy);
    var zero := MakeConst(c2, 0, IntTy);
    EmitNamed(zero.c, Store(Tmp(zero.t), x));
  }

  lemma ForHeadNamed(s: Stmt, c: Ctx, b: Bounds)
    requires s.ForRange? && Named(b.c) && LoopIndex(c.lbl + 4) in b.c.vars
    ensures Named(ForHead(s, c, b))
  {
    hide Named;
    var x := LoopIndex(c.lbl + 4);
    EmitNamed(b.c, Store(Tmp(b.start), x));
    EmitNamed(Emit(b.c, Store(Tmp(b.start), x)), Jmp(c.lbl));
    EmitNamed(ForStart(c, b), Label(c.lbl));
    EmitNamed(ForCond(c, b), Load(b.c.tmp, x));
    var c1 := EmitTemp(ForCond(c, b), Load(b.c.tmp, x));
    EmitNamed(c1, Bin(CmpLt, c1.tmp, Tmp(b.c.tmp), Tmp(b.stop)));
    BranchNamed(EmitTemp(c1, Bin(CmpLt, c1.tmp, Tmp(b.c.tmp), Tmp(b.stop))), c1.tmp, c.lbl + 1, c.lbl + 3);
    DeclareNamed(ForTest(c, b), Local(s.target), I64Ty);
    EmitNamed(Declare(ForTest(c, b), Local(s.target), I64Ty), Store(Tmp(b.c.tmp), Local(s.target)));
  }

  lemma ForIncNamed(d: Ctx, c: Ctx, b: Bounds)
    requires Named(d)
    ensures Named(ForInc(d, c, b))
  {
    hide Named;
    var c1 := Emit(d, Label(c.lbl + 2));
    EmitNamed(d, Label(c.lbl + 2));
    EmitNamed(c1, Bin(Add, c1.tmp, Tmp(b.c.tmp), Tmp(b.step)));
    var c2 := EmitTemp(c1, Bin(Add, c1.tmp, Tmp(b.c.tmp), Tmp(b.step)));
    EmitNamed(c2, Store(Tmp(c1.tmp), LoopIndex(c.lbl + 4)));
    EmitNamed(Emit(c2, Store(Tmp(c1.tmp), LoopIndex(c.lbl + 4))), Jmp(c.lbl));
  }

  lemma ForNamed(s: Stmt, c: Ctx)
    requires s.ForRange? && Named(c)
    ensures Named(LowerFor(s, c))
    decreases s, 1
  {
    hide Named, ForIndex, LowerBounds, ForHead, ForInc;
    var b := ForEntry(s, c);
    var body := JumpIfOpen(LowerStmts(s.body, ForHead(s, c, b)), c.lbl + 2);
    ForIndexNamed(c);
    BoundsNamed(s.rangeArgs, ForIndex(c));
    BoundsGrows(s.rangeArgs, ForIndex(c));
    ForHeadNamed(s, c, b);
    BlockNamed(s.body, ForHead(s, c, b), c.lbl + 2);
    ForIncNamed(body, c, b);
    CloseNamed(ForInc(body, c, b), c);
  }

  // ----- functions -----

  lemma {:induction false} ParamsNamed(params: seq<string>, c: Ctx)
    requires Named(c)
    ensures Named(DeclareParams(params, c))
    decreases |params|
  {
    hide Named;
    if params != [] {
      AllocaNamed(c, Local(params[0]), I64Ty);
      ParamsNamed(params[1..], Emit(c, Alloca(Local(params[0]))).(vars := c.vars[Local(params[0]) := I64Ty]));
    }
  }

  lemma BodyNamed(params: seq<string>, body: seq<Stmt>, funcs: map<string, string>)
    ensures LoadsNamed(LowerBody(params, body, map[], funcs).code)
  {
    var c0 := Ctx([], 0, 0, map[], None, None, funcs, true);
    assert Named(c0);
    hide Named;
    var d := LowerStmts(body, DeclareParams(params, c0));
    ParamsNamed(params, c0);
    StmtsNamed(body, DeclareParams(params, c0));
    ConstNamed(d, 0, IntTy);
    EmitNamed(MakeConst(d, 0, IntTy).c, Ret(Tmp(MakeConst(d, 0, IntTy).t)));
    NamedLoads(LowerBody(params, body, map[], funcs));
  }

  lemma NamedLoads(c: Ctx)
    requires Named(c)
    ensures LoadsNamed(c.code)
  {
  }

  // ----- slots -----

  lemma {:induction false} LoadAt(code: Code, k: nat)
    requires LoadsNamed(code) && k < |code| && code[k].Load?
    ensures code[k].name in NamesIn(code[..k])
    decreases |code|
  {
    if k < |code| - 1 {
      LoadAt(code[..|code| - 1], k);
      assert code[..|code| - 1][..k] == code[..k];
    }
  }

  lemma NameTouched(abi: Abi, a: Slots, i: Instr)
    ensures NamesOf(i) <= Touch(abi, a, i).vars.Keys
  {
  }

  lemma {:induction false} NamesTouched(abi: Abi, a: Slots, code: Code)
    ensures NamesIn(code) <= SlotsAfter(abi, a, code).vars.Keys
    decreases |code|
  {
    if code != [] {
      var front, i := code[..|code| - 1], code[|code| - 1];
      NamesTouched(abi, a, front);
      NameTouched(abi, SlotsAfter(abi, a, front), i);
      TouchOnward(abi, SlotsAfter(abi, a, front), i);
      hide Touch, Laid, Spare, NamesOf;
    }
  }

  /** Code that only loads names it has declared or stored never loads a name without a slot. */
  lemma LoadsKnown(abi: Abi, f: IRFunc)
    requires LoadsNamed(f.code)
    ensures KnownLoads(abi, f)
  {
    forall k | 0 <= k < |f.code| && f.code[k].Load?
      ensures f.code[k].name in SlotsAt(abi, f, k).vars
    {
      hide LoadsNamed, NamesIn;
      LoadAt(f.code, k);
      NamesTouched(abi, Start(abi, f), f.code[..k]);
    }
  }
}
