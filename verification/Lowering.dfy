/** What the compiler emits for an expression, a statement and a function: the specification of the
    `IRCompiler` methods, as functions from one compiler state to the next. Emission only appends. */
module Lowering {
  import opened Words
  import opened Wrappers
  import opened Python
  import opened IR
  import opened Builtins

  /** The static types of the subset. Parameters and loop targets are recorded under the IR type `i64`, which
      the compiler does not identify with `int`. */
  datatype Ty = IntTy | I64Ty | BoolTy | NoneTy

  /** The compiler state: the instructions so far, the temporary and label counters, the known names with their
      types, the labels `break` and `continue` jump to, and the native names of the known functions.
      An exception ends a compilation, and a name or a builtin outside the subset leaves it; here both clear `ok`, and
      what is emitted afterwards is meaningless. */
  datatype Ctx = Ctx(code: Code, tmp: nat, lbl: nat, vars: map<Name, Ty>, exit: Option<nat>, cont: Option<nat>,
                     funcs: map<string, string>, ok: bool)

  function Emit(c: Ctx, i: Instr): Ctx {
    c.(code := c.code + [i])
  }

  /** Emits an instruction whose destination is the next temporary. */
  function EmitTemp(c: Ctx, i: Instr): Ctx {
    c.(code := c.code + [i], tmp := c.tmp + 1)
  }

  function Fail(c: Ctx): Ctx {
    c.(ok := false)
  }

  // ----- expressions -----

  /** A lowered expression: the state after it, the temporary that holds it, its type. */
  datatype Low = Low(c: Ctx, t: nat, ty: Ty)

  datatype Lows = Lows(c: Ctx, ts: seq<nat>, tys: seq<Ty>)

  function MakeConst(c: Ctx, v: Word, ty: Ty): Low {
    Low(EmitTemp(c, Const(c.tmp, v)), c.tmp, ty)
  }

  /** `_to_bool`: a value of type `bool` is taken as it is. */
  function ToBool(c: Ctx, t: nat, ty: Ty): Low {
    if ty.BoolTy? then Low(c, t, BoolTy)
    else Low(EmitTemp(c, Bin(CmpNe, c.tmp, Tmp(t), Imm(0))), c.tmp, BoolTy)
  }

  function ZeroExtend(c: Ctx, t: nat): Low {
    Low(EmitTemp(c, Un(ZExt, c.tmp, Tmp(t))), c.tmp, IntTy)
  }

  /** The operands of a binary operation: a `bool` beside another type is widened. */
  function Widened(a: Low, b: Low): (Low, Low) {
    if a.ty != b.ty && a.ty.BoolTy? then var a' := ZeroExtend(b.c, a.t); (a', b.(c := a'.c))
    else if a.ty != b.ty && b.ty.BoolTy? then (a, ZeroExtend(b.c, b.t))
    else (a, b)
  }

  function LowerBinary(op: BinOp, a: Low, b: Low): Low {
    var (a', b') := Widened(a, b);
    Low(EmitTemp(b'.c, Bin(op, b'.c.tmp, Tmp(a'.t), Tmp(b'.t))), b'.c.tmp, a'.ty)
  }

  function LowerUnary(op: UnaryOp, a: Low): Low {
    var t := a.c.tmp;
    var c := a.c.(tmp := t + 1);
    match op
    case Minus => Low(Emit(c, Un(Neg, t, Tmp(a.t))), t, a.ty)
    case Tilde => Low(Emit(c, Un(BNot, t, Tmp(a.t))), t, a.ty)
    case Plus => Low(c, a.t, a.ty)
    case LogicalNot =>
      var b := ToBool(c, a.t, a.ty);
      Low(Emit(b.c, Un(Not, t, Tmp(b.t))), t, BoolTy)
  }

  function LowerExpr(e: Expr, c: Ctx): Low
    decreases e, 1
  {
    match e
    case IntLit(v) => MakeConst(c, Wrap(v), IntTy)
    case BoolLit(b) => MakeConst(c, BoolWord(b), BoolTy)
    case Var(x) =>
      if Local(x) in c.vars && !Special(x) then Low(EmitTemp(c, Load(c.tmp, Local(x))), c.tmp, c.vars[Local(x)])
      else Low(Fail(c), 0, NoneTy)
    case UnaryE(op, a) => LowerUnary(op, LowerExpr(a, c))
    case BinaryE(op, l, r) =>
      var a := LowerExpr(l, c);
      LowerBinary(op, a, LowerExpr(r, a.c))
    case Compare(l, cmps, rs) =>
      var a := LowerExpr(l, c);
      LowerChain(cmps, rs, a.t, None, a.c)
    case BoolE(op, es) =>
      var vs := LowerAll(es, c);
      if es == [] then Low(Fail(c), 0, BoolTy) else
      var first := ToBool(vs.c, vs.ts[0], vs.tys[0]);
      FoldBools(op, vs.ts[1..], vs.tys[1..], first)
    case IfExp(test, a, b) =>
      var rt := LowerExpr(test, c);
      var ra := LowerExpr(a, rt.c);
      var rb := LowerExpr(b, ra.c);
      Low(EmitTemp(rb.c, Select(rb.c.tmp, Tmp(rt.t), Tmp(ra.t), Tmp(rb.t))), rb.c.tmp, ra.ty)
    case CallE(f, args) =>
      if Handled(f, |args|) then LowerBuiltin(f, c)
      else if f in c.funcs then
        var vs := LowerAll(args, c);
        Low(EmitTemp(vs.c, Call(vs.c.tmp, c.funcs[f], TempArgs(vs.ts))), vs.c.tmp, IntTy)
      else MakeConst(c, 0, NoneTy)
  }

  /** A call of a builtin: the ones that are constants, whatever the arguments are. */
  function LowerBuiltin(f: string, c: Ctx): Low {
    if AlwaysTrue(f) then MakeConst(c, 1, BoolTy)
    else if AlwaysZero(f) then MakeConst(c, 0, IntTy)
    else Low(Fail(c), 0, NoneTy)
  }

  function TempArgs(ts: seq<nat>): (os: seq<Operand>)
    ensures |os| == |ts| && forall i | 0 <= i < |ts| :: os[i] == Tmp(ts[i])
  {
    if ts == [] then [] else [Tmp(ts[0])] + TempArgs(ts[1..])
  }

  function LowerAll(es: seq<Expr>, c: Ctx): (r: Lows)
    ensures |r.ts| == |r.tys| == |es|
    decreases es, 0
  {
    if es == [] then Lows(c, [], []) else
    var a := LowerExpr(es[0], c);
    var rest := LowerAll(es[1..], a.c);
    Lows(rest.c, [a.t] + rest.ts, [a.ty] + rest.tys)
  }

  /** A comparison chain: every link is computed, and the links are and-ed together. */
  function LowerChain(cmps: seq<BinOp>, rs: seq<Expr>, left: nat, soFar: Option<nat>, c: Ctx): Low
    decreases rs, 0
  {
    if rs == [] || cmps == [] then
      if soFar.Some? then Low(c, soFar.value, BoolTy) else MakeConst(c, 0, BoolTy)
    else
      var r := LowerExpr(rs[0], c);
      var next := Link(cmps[0], left, r, soFar);
      LowerChain(cmps[1..], rs[1..], r.t, Some(next.t), next.c)
  }

  /** One link of a chain, and-ed with the links before it. */
  function Link(op: BinOp, left: nat, r: Low, acc: Option<nat>): Low {
    var t := r.c.tmp;
    var c := EmitTemp(r.c, Bin(op, t, Tmp(left), Tmp(r.t)));
    if acc.None? then Low(c, t, BoolTy)
    else Low(EmitTemp(c, Bin(And, c.tmp, Tmp(acc.value), Tmp(t))), c.tmp, BoolTy)
  }

  /** One more value folded in. */
  function FoldOne(op: BoolOp, t: nat, ty: Ty, acc: Low): Low {
    var b := ToBool(acc.c, t, ty);
    Low(EmitTemp(b.c, Bin(if op.AndOp? then And else Or, b.c.tmp, Tmp(acc.t), Tmp(b.t))), b.c.tmp, BoolTy)
  }

  function FoldBools(op: BoolOp, ts: seq<nat>, tys: seq<Ty>, acc: Low): Low
    requires |ts| == |tys|
    decreases |ts|
  {
    if ts == [] then acc.(ty := BoolTy) else FoldBools(op, ts[1..], tys[1..], FoldOne(op, ts[0], tys[0], acc))
  }

  // ----- statements -----

  /** `_alloc` with the type then recorded for the name. */
  function Declare(c: Ctx, x: Name, ty: Ty): Ctx {
    if x in c.vars then c else Emit(c, Alloca(x)).(vars := c.vars[x := ty])
  }

  function StoreAll(targets: seq<string>, v: Low, c: Ctx): Ctx
    decreases |targets|
  {
    if targets == [] then c else
    var c1 := Declare(c, Local(targets[0]), v.ty);
    StoreAll(targets[1..], v, Emit(c1, Store(Tmp(v.t), Local(targets[0]))))
  }

  /** `jmp l`, unless the list already ends in a jump or a return. */
  function JumpIfOpen(c: Ctx, l: nat): Ctx {
    if Terminated(c.code) then c else Emit(c, Jmp(l))
  }

  function LowerStmt(s: Stmt, c: Ctx): Ctx
    decreases s, 2
  {
    if Terminated(c.code) then c else
    match s
    case Assign(targets, e) =>
      var r := LowerExpr(e, c);
      StoreAll(targets, r, r.c)
    case AugAssign(x, op, e) =>
      if Local(x) !in c.vars then Fail(c) else
      var cur := c.tmp;
      var r := LowerExpr(e, EmitTemp(c, Load(cur, Local(x))));
      var t := r.c.tmp;
      Emit(EmitTemp(r.c, Bin(op, t, Tmp(cur), Tmp(r.t))), Store(Tmp(t), Local(x)))
    case CallStmt(e) => LowerExpr(e, c).c
    case If(_, _, _, _) => LowerIf(s, c)
    case While(_, _) => LowerWhile(s, c)
    case ForRange(_, _, _) => LowerFor(s, c)
    case Return(e) =>
      if e.Some? then
        var r := LowerExpr(e.value, c);
        Emit(r.c, Ret(Tmp(r.t)))
      else
        var r := MakeConst(c, 0, IntTy);
        Emit(r.c, Ret(Tmp(r.t)))
    case Break => if c.exit.Some? then Emit(c, Jmp(c.exit.value)) else c
    case Continue => if c.cont.Some? then Emit(c, Jmp(c.cont.value)) else c
    case Pass => c
  }

  function LowerStmts(ss: seq<Stmt>, c: Ctx): Ctx
    decreases ss, 0
  {
    if ss == [] then c else LowerStmts(ss[1..], LowerStmt(ss[0], c))
  }

  /** The labels of an `if`: then, merge, a test and a body label for each `elif`, and one for `else`. */
  function ThenLabel(c: Ctx): nat { c.lbl }
  function MergeLabel(c: Ctx): nat { c.lbl + 1 }
  function TestLabel(c: Ctx, i: nat): nat { c.lbl + 2 + 2 * i }
  function BodyLabel(c: Ctx, i: nat): nat { c.lbl + 3 + 2 * i }

  function ElseLabel(s: Stmt, c: Ctx): nat
    requires s.If?
  {
    if s.orelse == [] then MergeLabel(c) else c.lbl + 2 + 2 * |s.elifs|
  }

  /** Where control goes when the tests before the `i`-th `elif` have failed. */
  function ArmLabel(s: Stmt, c: Ctx, i: nat): nat
    requires s.If?
  {
    if i < |s.elifs| then TestLabel(c, i) else ElseLabel(s, c)
  }

  function IfLabels(s: Stmt, c: Ctx): Ctx
    requires s.If?
  {
    c.(lbl := c.lbl + 2 + 2 * |s.elifs| + if s.orelse == [] then 0 else 1)
  }

  /** `jnz t, yes; jmp no; yes:` */
  function Branch(c: Ctx, t: nat, yes: nat, no: nat): Ctx {
    Emit(Emit(Emit(c, Jnz(Tmp(t), yes)), Jmp(no)), Label(yes))
  }

  function IfOpen(s: Stmt, r: Low): Ctx
    requires s.If?
  {
    Branch(IfLabels(s, r.c), r.t, ThenLabel(r.c), ArmLabel(s, r.c, 0))
  }

  function IfBody(s: Stmt, r: Low): Ctx
    requires s.If?
    decreases s, 0
  {
    JumpIfOpen(LowerStmts(s.body, IfOpen(s, r)), MergeLabel(r.c))
  }

  function IfTail(s: Stmt, at: Ctx, arms: Ctx): Ctx
    requires s.If?
    decreases s, 0
  {
    if s.orelse == [] then arms
    else JumpIfOpen(LowerStmts(s.orelse, Emit(arms, Label(ElseLabel(s, at)))), MergeLabel(at))
  }

  function LowerIf(s: Stmt, c: Ctx): Ctx
    requires s.If?
    decreases s, 1
  {
    var r := LowerExpr(s.test, c);
    var arms := LowerElifs(s, 0, r.c, IfBody(s, r));
    Emit(IfTail(s, r.c, arms), Label(MergeLabel(r.c)))
  }

  function ElifTest(s: Stmt, i: nat, at: Ctx, c: Ctx): Low
    requires s.If? && i < |s.elifs|
  {
    LowerExpr(s.elifs[i].test, Emit(c, Label(TestLabel(at, i))))
  }

  function ElifOpen(s: Stmt, i: nat, at: Ctx, r: Low): Ctx
    requires s.If? && i < |s.elifs|
  {
    Branch(r.c, r.t, BodyLabel(at, i), ArmLabel(s, at, i + 1))
  }

  function ElifBody(s: Stmt, i: nat, at: Ctx, r: Low): Ctx
    requires s.If? && i < |s.elifs|
    decreases s, 0, 0
  {
    JumpIfOpen(LowerStmts(s.elifs[i].body, ElifOpen(s, i, at, r)), MergeLabel(at))
  }

  /** The `elif` arms from the `i`-th on; `at` is the state whose label counter the labels start from. */
  function LowerElifs(s: Stmt, i: nat, at: Ctx, c: Ctx): Ctx
    requires s.If? && i <= |s.elifs|
    decreases s, 0, |s.elifs| - i
  {
    if i == |s.elifs| then c
    else LowerElifs(s, i + 1, at, ElifBody(s, i, at, ElifTest(s, i, at, c)))
  }

  function LowerWhile(s: Stmt, c: Ctx): Ctx
    requires s.While?
    decreases s, 1
  {
    var r := LowerExpr(s.test, WhileHead(c));
    CloseLoop(JumpIfOpen(LowerStmts(s.body, WhileOpen(s, c, r)), c.lbl), c)
  }

  function WhileOpen(s: Stmt, c: Ctx, r: Low): Ctx
    requires s.While?
  {
    Branch(r.c, r.t, c.lbl + 1, c.lbl + 2)
  }

  /** Labels `c.lbl` (condition), `c.lbl + 1` (body) and `c.lbl + 2` (exit). */
  function WhileHead(c: Ctx): Ctx {
    var c1 := c.(lbl := c.lbl + 3, exit := Some(c.lbl + 2), cont := Some(c.lbl));
    Emit(Emit(c1, Jmp(c.lbl)), Label(c.lbl))
  }

  /** Back to the enclosing loop's labels, and the exit label of this one. */
  function CloseLoop(d: Ctx, c: Ctx): Ctx {
    Emit(d.(exit := c.exit, cont := c.cont), Label(if d.exit.Some? then d.exit.value else 0))
  }

  /** Start, stop and step of a `range`, in temporaries. */
  datatype Bounds = Bounds(c: Ctx, start: nat, stop: nat, step: nat)

  function LowerBounds(args: seq<Expr>, c: Ctx): Bounds
    decreases args, 0
  {
    if |args| == 0 then Bounds(Fail(c), 0, 0, 0)
    else if |args| == 1 then
      var start := MakeConst(c, 0, IntTy);
      var stop := LowerExpr(args[0], start.c);
      var step := MakeConst(stop.c, 1, IntTy);
      Bounds(step.c, start.t, stop.t, step.t)
    else
      var start := LowerExpr(args[0], c);
      var stop := LowerExpr(args[1], start.c);
      var step := if |args| == 2 then MakeConst(stop.c, 1, IntTy) else LowerExpr(args[2], stop.c);
      Bounds(step.c, start.t, stop.t, step.t)
  }

  /** Labels: condition `c.lbl`, body `+1`, increment `+2`, exit `+3`; the index is named after `+4`.
      The iterable itself lowers to an unused constant, and the index is stored twice. */
  function ForEntry(s: Stmt, c: Ctx): Bounds
    requires s.ForRange?
    decreases s, 1
  {
    LowerBounds(s.rangeArgs, ForIndex(c))
  }

  function ForIndex(c: Ctx): Ctx {
    var c0 := MakeConst(c, 0, NoneTy).c;
    var c1 := c0.(lbl := c.lbl + 5, exit := Some(c.lbl + 3), cont := Some(c.lbl + 2));
    var k := LoopIndex(c.lbl + 4);
    var zero := MakeConst(Emit(c1, Alloca(k)).(vars := c1.vars[k := I64Ty]), 0, IntTy);
    Emit(zero.c, Store(Tmp(zero.t), k))
  }

  /** The store of the start value. */
  function ForStart(c: Ctx, b: Bounds): Ctx {
    Emit(Emit(b.c, Store(Tmp(b.start), LoopIndex(c.lbl + 4))), Jmp(c.lbl))
  }

  function ForCond(c: Ctx, b: Bounds): Ctx {
    Emit(ForStart(c, b), Label(c.lbl))
  }

  /** The test: the index is read into the temporary `b.c.tmp`. */
  function ForTest(c: Ctx, b: Bounds): Ctx {
    var cur := b.c.tmp;
    var c1 := EmitTemp(ForCond(c, b), Load(cur, LoopIndex(c.lbl + 4)));
    var c2 := EmitTemp(c1, Bin(CmpLt, c1.tmp, Tmp(cur), Tmp(b.stop)));
    Branch(c2, c1.tmp, c.lbl + 1, c.lbl + 3)
  }

  /** The loop variable takes the index. */
  function ForHead(s: Stmt, c: Ctx, b: Bounds): Ctx
    requires s.ForRange?
  {
    Emit(Declare(ForTest(c, b), Local(s.target), I64Ty), Store(Tmp(b.c.tmp), Local(s.target)))
  }

  /** The increment block. */
  function ForInc(d: Ctx, c: Ctx, b: Bounds): Ctx {
    var c1 := Emit(d, Label(c.lbl + 2));
    var c2 := EmitTemp(c1, Bin(Add, c1.tmp, Tmp(b.c.tmp), Tmp(b.step)));
    Emit(Emit(c2, Store(Tmp(c1.tmp), LoopIndex(c.lbl + 4))), Jmp(c.lbl))
  }

  function LowerFor(s: Stmt, c: Ctx): Ctx
    requires s.ForRange?
    decreases s, 1
  {
    var b := ForEntry(s, c);
    CloseLoop(ForInc(JumpIfOpen(LowerStmts(s.body, ForHead(s, c, b)), c.lbl + 2), c, b), c)
  }

  // ----- functions -----

  /** The native name of a function: `main` is taken by the entry point. */
  function NativeName(f: string): string {
    if f == "main" then "__pycc_user_main" else f
  }

  /** `_alloc` of each parameter, which redefines a name of the enclosing scope. */
  function DeclareParams(params: seq<string>, c: Ctx): Ctx
    decreases |params|
  {
    if params == [] then c else
    DeclareParams(params[1..], Emit(c, Alloca(Local(params[0]))).(vars := c.vars[Local(params[0]) := I64Ty]))
  }

  /** `ret 0` at the end of a body that can fall through. */
  function CloseBody(c: Ctx): Ctx {
    if Terminated(c.code) then c else
    var r := MakeConst(c, 0, IntTy);
    Emit(r.c, Ret(Tmp(r.t)))
  }

  /** The body of a function; `vars` and `funcs` are what the enclosing scope knows. */
  function LowerBody(params: seq<string>, body: seq<Stmt>, vars: map<Name, Ty>, funcs: map<string, string>): Ctx {
    CloseBody(LowerStmts(body, DeclareParams(params, Ctx([], 0, 0, vars, None, None, funcs, true))))
  }
}
