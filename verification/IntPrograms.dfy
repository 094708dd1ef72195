/** Programs that `Typing` takes, told from their text alone: every name is an integer, and truth values only decide or
    are returned. */
module IntPrograms {
  import opened Words
  import opened Wrappers
  import opened Python
  import opened IR
  import opened Lowering
  import opened LoweringGrows
  import opened Builtins
  import opened Names
  import opened Typing
  import opened LoweringProgram
  import LoweringCorrect

  // ----- expressions -----

  /** An integer over the names in `D`, with calls of the functions in `G`. */
  predicate Number(e: Expr, D: set<string>, G: set<string>)
    decreases e, 1
  {
    match e
    case IntLit(_) => true
    case Var(x) => x in D && !Special(x)
    case UnaryE(op, a) => !op.LogicalNot? && Number(a, D, G)
    case BinaryE(op, l, r) => !Compares(op) && Number(l, D, G) && Number(r, D, G)
    case IfExp(t, a, b) => Decides(t, D, G) && Number(a, D, G) && Number(b, D, G)
    case CallE(f, args) => f in G && !Handled(f, |args|) && Numbers(args, D, G)
    case _ => false
  }

  /** An integer or a truth value. */
  predicate Decides(e: Expr, D: set<string>, G: set<string>)
    decreases e, 2
  {
    match e
    case BoolLit(_) => true
    case UnaryE(op, a) => if op.LogicalNot? then Decides(a, D, G) else Number(e, D, G)
    case Compare(l, cmps, rs) =>
      Number(l, D, G) && Numbers(rs, D, G) && |cmps| == |rs| > 0 && forall op <- cmps :: Compares(op)
    case BoolE(_, es) => es != [] && AllDecide(es, D, G)
    case _ => Number(e, D, G)
  }

  predicate Numbers(es: seq<Expr>, D: set<string>, G: set<string>)
    decreases es, 0
  {
    es == [] || (Number(es[0], D, G) && Numbers(es[1..], D, G))
  }

  predicate AllDecide(es: seq<Expr>, D: set<string>, G: set<string>)
    decreases es, 0
  {
    es == [] || (Decides(es[0], D, G) && AllDecide(es[1..], D, G))
  }

  // ----- statements -----

  /** The names that have a value for certain after a statement that ends at its end. */
  function After(s: Stmt, D: set<string>): set<string> {
    if s.Assign? then D + (set x <- s.targets) else D
  }

  predicate IntOnly(s: Stmt, D: set<string>, G: set<string>, loop: bool)
    decreases s, 2
  {
    match s
    case Assign(targets, e) => Number(e, D, G) && forall x <- targets :: UserName(x)
    case AugAssign(x, op, e) => Number(Var(x), D, G) && UserName(x) && !Compares(op) && Number(e, D, G)
    case CallStmt(e) => e.CallE? && Number(e, D, G)
    case If(t, body, elifs, orelse) =>
      && Decides(t, D, G) && AllIntOnly(body, D, G, loop)
      && ArmsIntOnly(elifs, D, G, loop) && AllIntOnly(orelse, D, G, loop)
    case While(t, body) => Decides(t, D, G) && AllIntOnly(body, D, G, true)
    case ForRange(x, args, body) =>
      1 <= |args| <= 3 && Numbers(args, D, G) && UserName(x) && AllIntOnly(body, D + {x}, G, true)
    case Return(e) => e.Some? ==> Decides(e.value, D, G)
    case Break => loop
    case Continue => loop
    case Pass => true
  }

  predicate AllIntOnly(ss: seq<Stmt>, D: set<string>, G: set<string>, loop: bool)
    decreases ss, 0
  {
    ss == [] || (IntOnly(ss[0], D, G, loop) && AllIntOnly(ss[1..], After(ss[0], D), G, loop))
  }

  predicate ArmsIntOnly(arms: seq<Elif>, D: set<string>, G: set<string>, loop: bool)
    decreases arms, 0
  {
    arms == [] || (
      && Decides(arms[0].test, D, G) && AllIntOnly(arms[0].body, D, G, loop)
      && ArmsIntOnly(arms[1..], D, G, loop))
  }

  // ----- what the compiler knows -----

  predicate NoBools(vars: Types) {
    forall x: Name | x in vars && x.Local? :: !vars[x].BoolTy?
  }

  predicate Has(vars: Types, D: set<string>) {
    forall x: string | x in D :: Local(x) in vars
  }

  /** A compiler state in which the names of `D` are integers. */
  predicate Fine(c: Ctx, D: set<string>, G: set<string>, loop: bool) {
    c.ok && c.funcs.Keys == G && NoBools(c.vars) && Has(c.vars, D) && (loop ==> c.exit.Some? && c.cont.Some?)
  }

  lemma {:induction false} NumberTyped(e: Expr, vars: Types, D: set<string>, G: set<string>)
    requires Number(e, D, G) && NoBools(vars) && Has(vars, D)
    ensures WellTyped(e, vars, G) && !TypeOf(e, vars).BoolTy?
    decreases e, 1
  {
    hide Special, Handled;
    match e
    case UnaryE(_, a) => NumberTyped(a, vars, D, G);
    case BinaryE(_, l, r) =>
      NumberTyped(l, vars, D, G);
      NumberTyped(r, vars, D, G);
    case IfExp(t, a, b) =>
      DecidesTyped(t, vars, D, G);
      NumberTyped(a, vars, D, G);
      NumberTyped(b, vars, D, G);
    case CallE(_, args) => NumbersTyped(args, vars, D, G);
    case _ =>
  }

  lemma {:induction false} DecidesTyped(e: Expr, vars: Types, D: set<string>, G: set<string>)
    requires Decides(e, D, G) && NoBools(vars) && Has(vars, D)
    ensures WellTyped(e, vars, G)
    decreases e, 2
  {
    match e
    case BoolLit(_) =>
    case UnaryE(op, a) =>
      if op.LogicalNot? {
        DecidesTyped(a, vars, D, G);
      } else {
        NumberTyped(e, vars, D, G);
      }
    case Compare(l, _, rs) =>
      NumberTyped(l, vars, D, G);
      NumbersTyped(rs, vars, D, G);
    case BoolE(_, es) => AllTyped(es, vars, D, G);
    case _ => NumberTyped(e, vars, D, G);
  }

  lemma {:induction false} NumbersTyped(es: seq<Expr>, vars: Types, D: set<string>, G: set<string>)
    requires Numbers(es, D, G) && NoBools(vars) && Has(vars, D)
    ensures AllWellTyped(es, vars, G)
    decreases es, 0
  {
    hide Number, WellTyped;
    if es != [] {
      NumberTyped(es[0], vars, D, G);
      NumbersTyped(es[1..], vars, D, G);
    }
  }

  lemma {:induction false} AllTyped(es: seq<Expr>, vars: Types, D: set<string>, G: set<string>)
    requires AllDecide(es, D, G) && NoBools(vars) && Has(vars, D)
    ensures AllWellTyped(es, vars, G)
    decreases es, 0
  {
    hide Decides, WellTyped;
    if es != [] {
      DecidesTyped(es[0], vars, D, G);
      AllTyped(es[1..], vars, D, G);
    }
  }

  // ----- a typed expression is compiled -----

  /** Only the code and the temporaries change. */
  predicate Kept(c: Ctx, d: Ctx) {
    d.ok == c.ok && d.vars == c.vars && d.funcs == c.funcs && d.exit == c.exit && d.cont == c.cont
  }

  lemma {:induction false} ExprKept(e: Expr, c: Ctx)
    requires WellTyped(e, c.vars, c.funcs.Keys)
    ensures Kept(c, LowerExpr(e, c).c)
    decreases e, 1
  {
    hide Special, Handled, FoldBools, LowerBuiltin;
    match e
    case IntLit(_) =>
    case BoolLit(_) =>
    case Var(_) =>
    case UnaryE(_, a) => ExprKept(a, c);
    case BinaryE(_, l, r) =>
      ExprKept(l, c);
      ExprKept(r, LowerExpr(l, c).c);
    case Compare(l, cmps, rs) =>
      ExprKept(l, c);
      ChainKept(cmps, rs, LowerExpr(l, c).t, None, LowerExpr(l, c).c);
    case BoolE(_, es) =>
      AllKept(es, c);
      BoolKept(e, c);
    case IfExp(_, _, _) => IfExpKept(e, c);
    case CallE(_, args) =>
      AllKept(args, c);
      CallKept(e, c);
  }

  lemma IfExpKept(e: Expr, c: Ctx)
    requires e.IfExp? && WellTyped(e, c.vars, c.funcs.Keys)
    ensures Kept(c, LowerExpr(e, c).c)
    decreases e, 0
  {
    var rt := LowerExpr(e.test, c);
    var ra := LowerExpr(e.body, rt.c);
    ExprKept(e.test, c);
    ExprKept(e.body, rt.c);
    ExprKept(e.orelse, ra.c);
  }

  lemma BoolKept(e: Expr, c: Ctx)
    requires e.BoolE? && e.values != [] && Kept(c, LowerAll(e.values, c).c)
    ensures Kept(c, LowerExpr(e, c).c)
  {
    var vs := LowerAll(e.values, c);
    FoldKept(e.bop, vs.ts[1..], vs.tys[1..], ToBool(vs.c, vs.ts[0], vs.tys[0]));
    hide LowerAll, FoldBools;
  }

  lemma CallKept(e: Expr, c: Ctx)
    requires e.CallE? && e.func in c.funcs && !Handled(e.func, |e.args|) && Kept(c, LowerAll(e.args, c).c)
    ensures Kept(c, LowerExpr(e, c).c)
  {
    hide LowerAll, Handled;
  }

  lemma {:induction false} AllKept(es: seq<Expr>, c: Ctx)
    requires AllWellTyped(es, c.vars, c.funcs.Keys)
    ensures Kept(c, LowerAll(es, c).c)
    decreases es, 0
  {
    hide WellTyped, LowerExpr;
    if es != [] {
      ExprKept(es[0], c);
      AllKept(es[1..], LowerExpr(es[0], c).c);
    }
  }

  lemma {:induction false} ChainKept(cmps: seq<BinOp>, rs: seq<Expr>, left: nat, soFar: Option<nat>, c: Ctx)
    requires AllWellTyped(rs, c.vars, c.funcs.Keys)
    ensures Kept(c, LowerChain(cmps, rs, left, soFar, c).c)
    decreases rs, 0
  {
    hide WellTyped, LowerExpr;
    if rs != [] && cmps != [] {
      ExprKept(rs[0], c);
      var r := LowerExpr(rs[0], c);
      var next := Link(cmps[0], left, r, soFar);
      ChainKept(cmps[1..], rs[1..], r.t, Some(next.t), next.c);
    }
  }

  lemma {:induction false} FoldKept(op: BoolOp, ts: seq<nat>, tys: seq<Ty>, acc: Low)
    requires |ts| == |tys|
    ensures Kept(acc.c, FoldBools(op, ts, tys, acc).c)
    decreases |ts|
  {
    if ts != [] {
      FoldKept(op, ts[1..], tys[1..], FoldOne(op, ts[0], tys[0], acc));
    }
  }

  // ----- a statement is typed, and leaves a fine state -----

  lemma FineKept(c: Ctx, d: Ctx, D: set<string>, G: set<string>, loop: bool)
    requires Fine(c, D, G, loop) && Kept(c, d)
    ensures Fine(d, D, G, loop)
  {
    hide NoBools, Has;
  }

  lemma FineFewer(c: Ctx, E: set<string>, D: set<string>, G: set<string>, loop: bool)
    requires Fine(c, E, G, loop) && D <= E
    ensures Fine(c, D, G, loop)
  {
    hide NoBools;
  }

  lemma FineIs(c: Ctx, D: set<string>, G: set<string>, loop: bool)
    requires Fine(c, D, G, loop)
    ensures NoBools(c.vars) && Has(c.vars, D) && c.funcs.Keys == G
  {
    hide NoBools, Has;
  }

  /** A test or an operand is typed, and compiling it leaves the state fine. */
  lemma ValueFine(e: Expr, c: Ctx, D: set<string>, G: set<string>, loop: bool)
    requires Fine(c, D, G, loop) && Decides(e, D, G)
    ensures WellTyped(e, c.vars, c.funcs.Keys) && Fine(LowerExpr(e, c).c, D, G, loop)
  {
    hide *;
    FineIs(c, D, G, loop);
    DecidesTyped(e, c.vars, D, G);
    ExprKept(e, c);
    FineKept(c, LowerExpr(e, c).c, D, G, loop);
  }

  lemma NumberDecides(e: Expr, D: set<string>, G: set<string>)
    requires Number(e, D, G)
    ensures Decides(e, D, G)
  {
  }

  lemma {:induction false} StoreFine(targets: seq<string>, v: Low, c: Ctx, D: set<string>, G: set<string>, loop: bool)
    requires Fine(c, D, G, loop) && !v.ty.BoolTy?
    ensures Fine(StoreAll(targets, v, c), D + (set x <- targets), G, loop)
    decreases |targets|
  {
    if targets == [] {
      assert D + (set x <- targets) == D;
    } else {
      var x := targets[0];
      StoreOne(x, v, c, D, G, loop);
      var c1 := Emit(Declare(c, Local(x), v.ty), Store(Tmp(v.t), Local(x)));
      StoreFine(targets[1..], v, c1, D + {x}, G, loop);
      assert D + {x} + (set y <- targets[1..]) == D + (set y <- targets);
    }
    hide Fine;
  }

  lemma StoreOne(x: string, v: Low, c: Ctx, D: set<string>, G: set<string>, loop: bool)
    requires Fine(c, D, G, loop) && !v.ty.BoolTy?
    ensures Fine(Emit(Declare(c, Local(x), v.ty), Store(Tmp(v.t), Local(x))), D + {x}, G, loop)
  {
  }

  lemma AssignFine(s: Stmt, c: Ctx, D: set<string>, G: set<string>, loop: bool)
    requires s.Assign? && Fine(c, D, G, loop) && IntOnly(s, D, G, loop) && !Terminated(c.code)
    ensures StmtTyped(s, c) && Fine(LowerStmt(s, c), After(s, D), G, loop)
  {
    hide Fine, WellTyped, LowerExpr, Number, Decides, TypeOf, StoreAll, UserName;
    NumberDecides(s.value, D, G);
    ValueFine(s.value, c, D, G, loop);
    FineIs(c, D, G, loop);
    NumberTyped(s.value, c.vars, D, G);
    LoweringCorrect.LoweredType(s.value, c);
    var r := LowerExpr(s.value, c);
    StoreFine(s.targets, r, r.c, D, G, loop);
  }

  lemma SimpleFine(s: Stmt, c: Ctx, D: set<string>, G: set<string>, loop: bool)
    requires s.CallStmt? || s.Return? || s.Break? || s.Continue? || s.Pass?
    requires Fine(c, D, G, loop) && IntOnly(s, D, G, loop) && !Terminated(c.code)
    ensures StmtTyped(s, c) && Fine(LowerStmt(s, c), After(s, D), G, loop)
  {
    hide WellTyped, LowerExpr, Number, Decides, NoBools, Has;
    match s
    case CallStmt(e) =>
      NumberDecides(e, D, G);
      ValueFine(e, c, D, G, loop);
    case Return(e) =>
      if e.Some? {
        ValueFine(e.value, c, D, G, loop);
      }
    case _ =>
  }

  lemma AugFine(s: Stmt, c: Ctx, D: set<string>, G: set<string>, loop: bool)
    requires s.AugAssign? && Fine(c, D, G, loop) && IntOnly(s, D, G, loop) && !Terminated(c.code)
    ensures StmtTyped(s, c) && Fine(LowerStmt(s, c), After(s, D), G, loop)
  {
    var e := BinaryE(s.op, Var(s.name), s.value);
    var c1 := EmitTemp(c, Load(c.tmp, Local(s.name)));
    AugNumber(s, c, D, G, loop);
    hide WellTyped, LowerExpr, Number, Decides, TypeOf, UserName;
    NumberTyped(e, c.vars, D, G);
    NumberDecides(s.value, D, G);
    assert Kept(c, c1);
    FineKept(c, c1, D, G, loop);
    ValueFine(s.value, c1, D, G, loop);
    var r := LowerExpr(s.value, c1);
    hide Fine;
    FineKept(r.c, LowerStmt(s, c), D, G, loop);
  }

  lemma AugNumber(s: Stmt, c: Ctx, D: set<string>, G: set<string>, loop: bool)
    requires s.AugAssign? && Fine(c, D, G, loop) && IntOnly(s, D, G, loop)
    ensures Number(BinaryE(s.op, Var(s.name), s.value), D, G) && Local(s.name) in c.vars
  {
  }

  lemma {:induction false} DeadStmts(ss: seq<Stmt>, c: Ctx)
    requires Terminated(c.code)
    ensures LowerStmts(ss, c) == c
    decreases |ss|
  {
    if ss != [] {
      DeadStmts(ss[1..], c);
    }
  }

  lemma {:induction false} StmtFine(s: Stmt, c: Ctx, D: set<string>, G: set<string>, loop: bool)
    requires Fine(c, D, G, loop) && IntOnly(s, D, G, loop) && !Terminated(c.code)
    ensures StmtTyped(s, c) && Fine(LowerStmt(s, c), After(s, D), G, loop)
    decreases s, 2
  {
    hide *;
    match s
    case Assign(_, _) => AssignFine(s, c, D, G, loop);
    case AugAssign(_, _, _) => AugFine(s, c, D, G, loop);
    case If(_, _, _, _) => IfFine(s, c, D, G, loop);
    case While(_, _) => WhileFine(s, c, D, G, loop);
    case ForRange(_, _, _) => ForFine(s, c, D, G, loop);
    case _ => SimpleFine(s, c, D, G, loop);
  }

  lemma AfterMore(s: Stmt, D: set<string>)
    ensures D <= After(s, D)
  {
  }

  lemma {:induction false} StmtsFine(ss: seq<Stmt>, c: Ctx, D: set<string>, G: set<string>, loop: bool)
    requires Fine(c, D, G, loop) && AllIntOnly(ss, D, G, loop)
    ensures StmtsTyped(ss, c) && Fine(LowerStmts(ss, c), D, G, loop)
    decreases ss, 0
  {
    hide Fine, IntOnly, StmtTyped, LowerStmt, Terminated, After;
    if Terminated(c.code) {
      DeadStmts(ss, c);
    } else if ss != [] {
      StmtFine(ss[0], c, D, G, loop);
      StmtsFine(ss[1..], LowerStmt(ss[0], c), After(ss[0], D), G, loop);
      AfterMore(ss[0], D);
      FineFewer(LowerStmts(ss, c), After(ss[0], D), D, G, loop);
    }
  }

  lemma JumpKept(c: Ctx, l: nat)
    ensures Kept(c, JumpIfOpen(c, l))
  {
  }

  /** A block and the jump that closes it. */
  lemma BlockFine(ss: seq<Stmt>, c: Ctx, l: nat, D: set<string>, G: set<string>, loop: bool)
    requires Fine(c, D, G, loop) && AllIntOnly(ss, D, G, loop)
    ensures StmtsTyped(ss, c) && Fine(JumpIfOpen(LowerStmts(ss, c), l), D, G, loop)
    decreases ss, 1
  {
    hide *;
    StmtsFine(ss, c, D, G, loop);
    JumpKept(LowerStmts(ss, c), l);
    FineKept(LowerStmts(ss, c), JumpIfOpen(LowerStmts(ss, c), l), D, G, loop);
  }

  lemma EmitKept(c: Ctx, i: Instr)
    ensures Kept(c, Emit(c, i)) && Kept(c, EmitTemp(c, i))
  {
  }

  lemma BranchKept(c: Ctx, t: nat, yes: nat, no: nat)
    ensures Kept(c, Branch(c, t, yes, no))
  {
  }

  lemma IfOpenKept(s: Stmt, r: Low)
    requires s.If?
    ensures Kept(r.c, IfOpen(s, r))
  {
  }

  lemma {:induction false} IfFine(s: Stmt, c: Ctx, D: set<string>, G: set<string>, loop: bool)
    requires s.If? && Fine(c, D, G, loop) && IntOnly(s, D, G, loop) && !Terminated(c.code)
    ensures StmtTyped(s, c) && Fine(LowerStmt(s, c), After(s, D), G, loop)
    decreases s, 1
  {
    var r := LowerExpr(s.test, c);
    var open := IfOpen(s, r);
    var body := IfBody(s, r);
    var tail := IfTail(s, r.c, LowerElifs(s, 0, r.c, body));
    IfIs(s, D, G, loop);
    hide Decides, AllIntOnly, IntOnly, ArmsIntOnly, Fine, WellTyped, LowerExpr, StmtsTyped, LowerStmts, ElifsTyped,
      LowerElifs, IfTail, Kept, IfOpen, JumpIfOpen, Terminated;
    ValueFine(s.test, c, D, G, loop);
    IfOpenKept(s, r);
    FineKept(r.c, open, D, G, loop);
    BlockFine(s.body, open, MergeLabel(r.c), D, G, loop);
    ElifsFine(s, 0, r.c, body, D, G, loop);
    EmitKept(tail, Label(MergeLabel(r.c)));
    FineKept(tail, Emit(tail, Label(MergeLabel(r.c))), D, G, loop);
  }

  lemma IfIs(s: Stmt, D: set<string>, G: set<string>, loop: bool)
    requires s.If? && IntOnly(s, D, G, loop)
    ensures Decides(s.test, D, G) && AllIntOnly(s.body, D, G, loop) && ArmsIntOnly(s.elifs[0..], D, G, loop)
    ensures AllIntOnly(s.orelse, D, G, loop)
  {
    hide Decides, AllIntOnly, ArmsIntOnly;
    assert s.elifs[0..] == s.elifs;
  }

  lemma {:induction false} ElifsFine(s: Stmt, i: nat, at: Ctx, c: Ctx, D: set<string>, G: set<string>, loop: bool)
    requires s.If? && i <= |s.elifs| && Fine(c, D, G, loop)
    requires ArmsIntOnly(s.elifs[i..], D, G, loop) && AllIntOnly(s.orelse, D, G, loop)
    ensures ElifsTyped(s, i, at, c) && Fine(IfTail(s, at, LowerElifs(s, i, at, c)), D, G, loop)
    decreases s, 0, |s.elifs| - i
  {
    hide Decides, AllIntOnly, Fine, WellTyped, LowerExpr, StmtsTyped, LowerStmts, Kept, JumpIfOpen, Branch;
    if i == |s.elifs| {
      var c1 := Emit(c, Label(ElseLabel(s, at)));
      EmitKept(c, Label(ElseLabel(s, at)));
      FineKept(c, c1, D, G, loop);
      if s.orelse != [] {
        BlockFine(s.orelse, c1, MergeLabel(at), D, G, loop);
      }
    } else {
      var c1 := Emit(c, Label(TestLabel(at, i)));
      var r := ElifTest(s, i, at, c);
      var open := ElifOpen(s, i, at, r);
      EmitKept(c, Label(TestLabel(at, i)));
      FineKept(c, c1, D, G, loop);
      ArmIs(s, i, D, G, loop);
      ValueFine(s.elifs[i].test, c1, D, G, loop);
      BranchKept(r.c, r.t, BodyLabel(at, i), ArmLabel(s, at, i + 1));
      FineKept(r.c, open, D, G, loop);
      hide ArmsIntOnly;
      BlockFine(s.elifs[i].body, open, MergeLabel(at), D, G, loop);
      ElifsFine(s, i + 1, at, ElifBody(s, i, at, r), D, G, loop);
    }
  }

  lemma ArmIs(s: Stmt, i: nat, D: set<string>, G: set<string>, loop: bool)
    requires s.If? && i < |s.elifs| && ArmsIntOnly(s.elifs[i..], D, G, loop)
    ensures Decides(s.elifs[i].test, D, G) && AllIntOnly(s.elifs[i].body, D, G, loop)
    ensures ArmsIntOnly(s.elifs[i + 1..], D, G, loop)
  {
    hide Decides, AllIntOnly;
    assert s.elifs[i..][1..] == s.elifs[i + 1..];
  }

  /** In the loop, and back out of it. */
  lemma LoopFine(c: Ctx, d: Ctx, D: set<string>, G: set<string>, loop: bool)
    requires Fine(c, D, G, loop) && Fine(d, D, G, true)
    ensures Fine(CloseLoop(d, c), D, G, loop)
  {
    hide NoBools, Has;
  }

  lemma HeadFine(c: Ctx, D: set<string>, G: set<string>, loop: bool)
    requires Fine(c, D, G, loop)
    ensures Fine(WhileHead(c), D, G, true)
  {
    hide NoBools, Has;
  }

  lemma {:induction false} WhileFine(s: Stmt, c: Ctx, D: set<string>, G: set<string>, loop: bool)
    requires s.While? && Fine(c, D, G, loop) && IntOnly(s, D, G, loop) && !Terminated(c.code)
    ensures StmtTyped(s, c) && Fine(LowerStmt(s, c), After(s, D), G, loop)
    decreases s, 1
  {
    var head := WhileHead(c);
    var r := LowerExpr(s.test, head);
    var open := WhileOpen(s, c, r);
    hide Decides, AllIntOnly, Fine, LowerExpr, StmtsTyped, LowerStmts, Kept, JumpIfOpen, Terminated, CloseLoop,
      Branch, WellTyped;
    HeadFine(c, D, G, loop);
    ValueFine(s.test, head, D, G, true);
    BranchKept(r.c, r.t, c.lbl + 1, c.lbl + 2);
    FineKept(r.c, open, D, G, true);
    BlockFine(s.body, open, c.lbl, D, G, true);
    LoopFine(c, JumpIfOpen(LowerStmts(s.body, open), c.lbl), D, G, loop);
    HeadTyped(s.test, c);
  }

  /** The test is typed with the names as they are before the loop. */
  lemma HeadTyped(e: Expr, c: Ctx)
    ensures WhileHead(c).vars == c.vars && WhileHead(c).funcs == c.funcs
  {
  }

  lemma IndexFine(c: Ctx, D: set<string>, G: set<string>, loop: bool)
    requires Fine(c, D, G, loop)
    ensures Fine(ForIndex(c), D, G, true)
  {
  }

  lemma BoundsFine(args: seq<Expr>, c: Ctx, D: set<string>, G: set<string>, loop: bool)
    requires 1 <= |args| <= 3 && Numbers(args, D, G) && Fine(c, D, G, loop)
    ensures AllWellTyped(args, c.vars, c.funcs.Keys) && Fine(LowerBounds(args, c).c, D, G, loop)
  {
    FineIs(c, D, G, loop);
    NumbersTyped(args, c.vars, D, G);
    BoundsKept(args, c);
    hide *;
    FineKept(c, LowerBounds(args, c).c, D, G, loop);
  }

  lemma BoundsKept(args: seq<Expr>, c: Ctx)
    requires 1 <= |args| <= 3 && AllWellTyped(args, c.vars, c.funcs.Keys)
    ensures Kept(c, LowerBounds(args, c).c)
  {
    ArgsTyped(args, c);
    hide WellTyped, LowerExpr, AllWellTyped;
    if |args| == 1 {
      ExprKept(args[0], MakeConst(c, 0, IntTy).c);
    } else {
      var start := LowerExpr(args[0], c);
      ExprKept(args[0], c);
      ExprKept(args[1], start.c);
      if |args| == 3 {
        ExprKept(args[2], LowerExpr(args[1], start.c).c);
      }
    }
  }

  lemma {:induction false} ArgsTyped(args: seq<Expr>, c: Ctx)
    requires AllWellTyped(args, c.vars, c.funcs.Keys)
    ensures forall i | 0 <= i < |args| :: WellTyped(args[i], c.vars, c.funcs.Keys)
    decreases |args|
  {
    hide WellTyped;
    if args != [] {
      ArgsTyped(args[1..], c);
      assert forall i | 1 <= i < |args| :: args[i] == args[1..][i - 1];
    }
  }

  lemma ForHeadFine(s: Stmt, c: Ctx, b: Bounds, D: set<string>, G: set<string>)
    requires s.ForRange? && Fine(b.c, D, G, true)
    ensures Fine(ForHead(s, c, b), D + {s.target}, G, true)
  {
  }

  lemma IncKept(d: Ctx, c: Ctx, b: Bounds)
    ensures Kept(d, ForInc(d, c, b))
  {
  }

  lemma {:induction false} ForFine(s: Stmt, c: Ctx, D: set<string>, G: set<string>, loop: bool)
    requires s.ForRange? && Fine(c, D, G, loop) && IntOnly(s, D, G, loop) && !Terminated(c.code)
    ensures StmtTyped(s, c) && Fine(LowerStmt(s, c), After(s, D), G, loop)
    decreases s, 1
  {
    var b := ForEntry(s, c);
    var head := ForHead(s, c, b);
    var body := JumpIfOpen(LowerStmts(s.body, head), c.lbl + 2);
    var end := ForInc(body, c, b);
    hide Numbers, AllIntOnly, Fine, LowerExpr, StmtsTyped, LowerStmts, Kept, JumpIfOpen, Terminated, CloseLoop,
      WellTyped, ForIndex, LowerBounds, ForHead, ForInc, NoBools, Has, AllWellTyped;
    IndexFine(c, D, G, loop);
    BoundsFine(s.rangeArgs, ForIndex(c), D, G, true);
    ForHeadFine(s, c, b, D, G);
    BlockFine(s.body, head, c.lbl + 2, D + {s.target}, G, true);
    IncKept(body, c, b);
    FineKept(body, end, D + {s.target}, G, true);
    FineFewer(end, D + {s.target}, D, G, true);
    LoopFine(c, end, D, G, loop);
    TargetAccepted(s.target, ForIndex(c), D, G);
  }

  lemma TargetAccepted(x: string, c: Ctx, D: set<string>, G: set<string>)
    requires Fine(c, D, G, true) && UserName(x)
    ensures Accepts(c.vars, x, I64Ty)
  {
  }

  // ----- programs -----

  function FuncNames(defs: seq<FuncDef>, n: nat): set<string>
    requires n <= |defs|
  {
    set i | 0 <= i < n :: defs[i].name
  }

  predicate IntBody(params: seq<string>, body: seq<Stmt>, G: set<string>) {
    (forall x <- params :: UserName(x)) && AllIntOnly(body, (set x <- params), G, false)
  }

  /** A function may call itself and those before it. */
  predicate IntProgram(p: Program) {
    && DistinctNames(p.defs)
    && (forall i | 0 <= i < |p.defs| :: IntBody(p.defs[i].params, p.defs[i].body, FuncNames(p.defs, i + 1)))
    && IntBody([], p.main, FuncNames(p.defs, |p.defs|))
  }

  lemma {:induction false} KnownNames(defs: seq<FuncDef>, n: nat)
    requires n <= |defs|
    ensures Known(defs, n).Keys == FuncNames(defs, n)
    decreases n
  {
    if n > 0 {
      KnownNames(defs, n - 1);
      assert FuncNames(defs, n) == FuncNames(defs, n - 1) + {defs[n - 1].name};
    }
  }

  lemma {:induction false} ParamsFine(params: seq<string>, c: Ctx, D: set<string>, G: set<string>)
    requires Fine(c, D, G, false)
    ensures Fine(DeclareParams(params, c), D + (set x <- params), G, false)
    decreases |params|
  {
    if params == [] {
      assert D + (set x <- params) == D;
    } else {
      var x := params[0];
      var c1 := Emit(c, Alloca(Local(x))).(vars := c.vars[Local(x) := I64Ty]);
      assert Fine(c1, D + {x}, G, false);
      hide Fine;
      ParamsFine(params[1..], c1, D + {x}, G);
      assert D + {x} + (set y <- params[1..]) == D + (set y <- params);
    }
  }

  lemma CloseKept(c: Ctx)
    ensures Kept(c, CloseBody(c))
  {
  }

  lemma BodyTyped(params: seq<string>, body: seq<Stmt>, funcs: map<string, string>)
    requires IntBody(params, body, funcs.Keys)
    ensures DefTyped(params, body, funcs) && LowerBody(params, body, map[], funcs).ok
  {
    var c := Ctx([], 0, 0, map[], None, None, funcs, true);
    var start := DeclareParams(params, c);
    assert Fine(c, {}, funcs.Keys, false);
    ParamsFine(params, c, {}, funcs.Keys);
    assert {} + (set x <- params) == (set x <- params);
    hide AllIntOnly, DeclareParams, LowerStmts, StmtsTyped, CloseBody, UserName;
    StmtsFine(body, start, (set x <- params), funcs.Keys, false);
    CloseKept(LowerStmts(body, start));
  }

  /** Every such program is one the compiler is right about: what is proved for well-typed programs holds for it. */
  lemma Typed(p: Program)
    requires IntProgram(p)
    ensures ProgramTyped(p)
  {
    hide IntBody, LowerBody, DefTyped, DistinctNames;
    forall i | 0 <= i < |p.defs|
      ensures DefTyped(p.defs[i].params, p.defs[i].body, Known(p.defs, i + 1)) && LowerDef(p.defs, i).ok
      ensures NativeName(p.defs[i].name) != "main"
    {
      KnownNames(p.defs, i + 1);
      BodyTyped(p.defs[i].params, p.defs[i].body, Known(p.defs, i + 1));
    }
    KnownNames(p.defs, |p.defs|);
    BodyTyped([], p.main, Known(p.defs, |p.defs|));
  }
}
