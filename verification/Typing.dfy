/** The typing discipline the lowering relies on: an expression whose static type is `bool` yields 0 or 1.
    The compiler itself does not check it. */
module Typing {
  import opened Words
  import opened Wrappers
  import opened Python
  import opened IR
  import opened Lowering
  import opened Builtins
  import opened Names

  type Types = map<Name, Ty>

  /** The static type the compiler computes. */
  function TypeOf(e: Expr, vars: Types): Ty {
    match e
    case IntLit(_) => IntTy
    case BoolLit(_) => BoolTy
    case Var(x) => if Local(x) in vars then vars[Local(x)] else NoneTy
    case UnaryE(op, a) => if op.LogicalNot? then BoolTy else TypeOf(a, vars)
    case BinaryE(_, l, r) =>
      if TypeOf(l, vars).BoolTy? && !TypeOf(r, vars).BoolTy? then IntTy else TypeOf(l, vars)
    case Compare(_, _, _) => BoolTy
    case BoolE(_, _) => BoolTy
    case IfExp(_, a, _) => TypeOf(a, vars)
    case CallE(_, _) => IntTy
  }

  /** No `+`, `-` or `<<` on two `bool`s, no `-` or `~` on one, no `int` in the second arm of a conditional whose first
      arm is a `bool`; names and functions are known, and none that the compiler handles itself. */
  predicate WellTyped(e: Expr, vars: Types, funcs: set<string>)
    decreases e, 1
  {
    match e
    case IntLit(_) => true
    case BoolLit(_) => true
    case Var(x) => Local(x) in vars && !Special(x)
    case UnaryE(op, a) => WellTyped(a, vars, funcs) && (op.Minus? || op.Tilde? ==> !TypeOf(a, vars).BoolTy?)
    case BinaryE(op, l, r) =>
      && WellTyped(l, vars, funcs)
      && WellTyped(r, vars, funcs)
      && !Compares(op)
      && (TypeOf(l, vars).BoolTy? && TypeOf(r, vars).BoolTy? ==> KeepsBits(op))
    case Compare(l, cmps, rs) =>
      && WellTyped(l, vars, funcs)
      && AllWellTyped(rs, vars, funcs)
      && |cmps| == |rs| > 0
      && forall op <- cmps :: Compares(op)
    case BoolE(_, es) => es != [] && AllWellTyped(es, vars, funcs)
    case IfExp(t, a, b) =>
      && WellTyped(t, vars, funcs)
      && WellTyped(a, vars, funcs)
      && WellTyped(b, vars, funcs)
      && (TypeOf(a, vars).BoolTy? ==> TypeOf(b, vars).BoolTy?)
    case CallE(f, args) => f in funcs && !Handled(f, |args|) && AllWellTyped(args, vars, funcs)
  }

  predicate AllWellTyped(es: seq<Expr>, vars: Types, funcs: set<string>)
    decreases es, 0
  {
    es == [] || (WellTyped(es[0], vars, funcs) && AllWellTyped(es[1..], vars, funcs))
  }

  /** A name keeps the type it is first given; a `bool` name takes only `bool` values. The compiler's own names are not
      for a program to use. */
  predicate Accepts(vars: Types, x: string, ty: Ty) {
    UserName(x) && (Local(x) in vars && vars[Local(x)].BoolTy? ==> ty.BoolTy?)
  }

  /** A statement compiled in state `c`; statements the compiler skips are not looked at. */
  predicate StmtTyped(s: Stmt, c: Ctx)
    decreases s, 2
  {
    match s
    case Assign(targets, e) =>
      && WellTyped(e, c.vars, c.funcs.Keys)
      && forall x <- targets :: Accepts(c.vars, x, TypeOf(e, c.vars))
    case AugAssign(x, op, e) =>
      && WellTyped(BinaryE(op, Var(x), e), c.vars, c.funcs.Keys)
      && Accepts(c.vars, x, TypeOf(BinaryE(op, Var(x), e), c.vars))
    case CallStmt(e) => e.CallE? && WellTyped(e, c.vars, c.funcs.Keys)
    case If(t, body, elifs, orelse) =>
      var r := LowerExpr(t, c);
      && WellTyped(t, c.vars, c.funcs.Keys)
      && StmtsTyped(body, IfOpen(s, r))
      && ElifsTyped(s, 0, r.c, IfBody(s, r))
    case While(t, body) =>
      var r := LowerExpr(t, WhileHead(c));
      WellTyped(t, c.vars, c.funcs.Keys) && StmtsTyped(body, WhileOpen(s, c, r))
    case ForRange(x, args, body) =>
      && 1 <= |args| <= 3
      && AllWellTyped(args, ForIndex(c).vars, c.funcs.Keys)
      && Accepts(ForIndex(c).vars, x, I64Ty)
      && StmtsTyped(body, ForHead(s, c, ForEntry(s, c)))
    case Return(e) => e.Some? ==> WellTyped(e.value, c.vars, c.funcs.Keys)
    case Break => c.exit.Some?
    case Continue => c.cont.Some?
    case Pass => true
  }

  predicate StmtsTyped(ss: seq<Stmt>, c: Ctx)
    decreases ss, 0
  {
    ss == [] || Terminated(c.code) || (StmtTyped(ss[0], c) && StmtsTyped(ss[1..], LowerStmt(ss[0], c)))
  }

  predicate ElifsTyped(s: Stmt, i: nat, at: Ctx, c: Ctx)
    requires s.If? && i <= |s.elifs|
    decreases s, 0, |s.elifs| - i
  {
    if i == |s.elifs| then s.orelse == [] || StmtsTyped(s.orelse, Emit(c, Label(ElseLabel(s, at))))
    else
      var r := ElifTest(s, i, at, c);
      && WellTyped(s.elifs[i].test, c.vars, c.funcs.Keys)
      && StmtsTyped(s.elifs[i].body, ElifOpen(s, i, at, r))
      && ElifsTyped(s, i + 1, at, ElifBody(s, i, at, r))
  }
}
