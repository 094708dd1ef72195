/** Emission only appends: a later compiler state keeps the instructions, the names and the counters of an
    earlier one. */
module LoweringGrows {
  import opened Words
  import opened Wrappers
  import opened Python
  import opened IR
  import opened Lowering
  import opened Builtins

  predicate Prefix(c: Code, d: Code) {
    c <= d
  }

  lemma PrefixTrans(c: Code, d: Code, e: Code)
    requires Prefix(c, d) && Prefix(d, e)
    ensures Prefix(c, e)
  {
  }

  /** `d` is a later state than `c`, in the same function and the same loop. */
  predicate Grows(c: Ctx, d: Ctx) {
    && Prefix(c.code, d.code)
    && c.tmp <= d.tmp
    && c.lbl <= d.lbl
    && Extends(c.vars, d.vars)
    && c.exit == d.exit
    && c.cont == d.cont
    && c.funcs == d.funcs
    && (d.ok ==> c.ok)
  }

  /** The types of the program's names are kept. */
  predicate Extends(m: map<Name, Ty>, m': map<Name, Ty>) {
    forall x: Name | x in m && x.Local? :: x in m' && m'[x] == m[x]
  }

  /** Neither a label nor a jump nor a return. */
  predicate Plain(i: Instr) {
    !(i.Label? || i.Jmp? || i.Jz? || i.Jnz? || i.Ret?)
  }

  predicate PlainFrom(code: Code, n: nat) {
    forall i | n <= i < |code| :: Plain(code[i])
  }

  /** As `Grows`, without new labels or names, and by plain instructions only. */
  predicate Straight(c: Ctx, d: Ctx) {
    Grows(c, d) && c.lbl == d.lbl && c.vars == d.vars && PlainFrom(d.code, |c.code|)
  }

  lemma GrowsParts(c: Ctx, d: Ctx)
    requires Grows(c, d)
    ensures Prefix(c.code, d.code) && (d.ok ==> c.ok) && d.exit == c.exit && d.cont == c.cont
  {
    hide Prefix, Extends;
  }

  lemma StraightGrows(c: Ctx, d: Ctx)
    requires Straight(c, d)
    ensures Grows(c, d)
  {
    hide Grows;
  }

  /** Plain instructions do not end a list. */
  lemma StaysOpen(c: Code, d: Code)
    requires Prefix(c, d) && PlainFrom(d, |c|) && !Terminated(c)
    ensures !Terminated(d)
  {
  }

  lemma Trans(c: Ctx, d: Ctx, e: Ctx)
    requires Grows(c, d) && Grows(d, e)
    ensures Grows(c, e)
    ensures Straight(c, d) && Straight(d, e) ==> Straight(c, e)
  {
    if Straight(c, d) && Straight(d, e) {
      forall i | |c.code| <= i < |e.code|
        ensures Plain(e.code[i])
      {
        if i < |d.code| {
          assert Plain(d.code[i]);
        }
      }
    }
  }

  lemma EmitGrows(c: Ctx, i: Instr)
    ensures Grows(c, Emit(c, i)) && Grows(c, EmitTemp(c, i))
    ensures Plain(i) ==> Straight(c, Emit(c, i)) && Straight(c, EmitTemp(c, i))
  {
  }

  lemma ToBoolGrows(c: Ctx, t: nat, ty: Ty)
    ensures Straight(c, ToBool(c, t, ty).c)
  {
  }

  lemma BinaryGrows(op: BinOp, a: Low, b: Low)
    ensures Straight(b.c, LowerBinary(op, a, b).c)
  {
  }

  lemma UnaryGrows(op: UnaryOp, a: Low)
    ensures Straight(a.c, LowerUnary(op, a).c)
  {
  }

  lemma {:induction false} ExprGrows(e: Expr, c: Ctx)
    ensures Straight(c, LowerExpr(e, c).c)
    decreases e, 1
  {
    match e
    case IntLit(_) =>
    case BoolLit(_) =>
    case Var(_) =>
    case UnaryE(op, a) =>
      hide Grows;
      ExprGrows(a, c);
      UnaryGrows(op, LowerExpr(a, c));
      Trans(c, LowerExpr(a, c).c, LowerExpr(e, c).c);
    case BinaryE(op, l, r) =>
      hide Grows;
      var a := LowerExpr(l, c);
      ExprGrows(l, c);
      ExprGrows(r, a.c);
      var b := LowerExpr(r, a.c);
      BinaryGrows(op, a, b);
      Trans(c, a.c, b.c);
      Trans(c, b.c, LowerExpr(e, c).c);
    case Compare(l, cmps, rs) =>
      hide Grows;
      var a := LowerExpr(l, c);
      ExprGrows(l, c);
      ChainGrows(cmps, rs, a.t, None, a.c);
      Trans(c, a.c, LowerExpr(e, c).c);
    case BoolE(op, es) => BoolGrows(op, es, c);
    case IfExp(_, _, _) => IfExpGrows(e, c);
    case CallE(_, _) => CallGrows(e, c);
  }

  lemma {:induction false} IfExpGrows(e: Expr, c: Ctx)
    requires e.IfExp?
    ensures Straight(c, LowerExpr(e, c).c)
    decreases e, 0
  {
    hide Grows;
    var rt := LowerExpr(e.test, c);
    var ra := LowerExpr(e.body, rt.c);
    var rb := LowerExpr(e.orelse, ra.c);
    ExprGrows(e.test, c);
    ExprGrows(e.body, rt.c);
    ExprGrows(e.orelse, ra.c);
    Trans(c, rt.c, ra.c);
    Trans(c, ra.c, rb.c);
    EmitGrows(rb.c, Select(rb.c.tmp, Tmp(rt.t), Tmp(ra.t), Tmp(rb.t)));
    Trans(c, rb.c, LowerExpr(e, c).c);
  }

  lemma {:induction false} CallGrows(e: Expr, c: Ctx)
    requires e.CallE?
    ensures Straight(c, LowerExpr(e, c).c)
    decreases e, 0
  {
    hide Handled;
    AllGrows(e.args, c);
    var vs := LowerAll(e.args, c);
    if Handled(e.func, |e.args|) {
      EmitGrows(c, Const(c.tmp, 1));
      EmitGrows(c, Const(c.tmp, 0));
    } else if e.func in c.funcs {
      var i := Call(vs.c.tmp, c.funcs[e.func], TempArgs(vs.ts));
      EmitGrows(vs.c, i);
      hide Grows, PlainFrom;
      Trans(c, vs.c, EmitTemp(vs.c, i));
    } else {
      EmitGrows(c, Const(c.tmp, 0));
    }
  }

  lemma BoolGrows(op: BoolOp, es: seq<Expr>, c: Ctx)
    ensures Straight(c, LowerExpr(BoolE(op, es), c).c)
    decreases es, 1
  {
    AllGrows(es, c);
    if es != [] {
      var vs := LowerAll(es, c);
      var first := ToBool(vs.c, vs.ts[0], vs.tys[0]);
      ToBoolGrows(vs.c, vs.ts[0], vs.tys[0]);
      FoldGrows(op, vs.ts[1..], vs.tys[1..], first);
      hide Grows;
      Trans(c, vs.c, first.c);
      Trans(c, first.c, LowerExpr(BoolE(op, es), c).c);
    }
  }

  lemma {:induction false} AllGrows(es: seq<Expr>, c: Ctx)
    ensures Straight(c, LowerAll(es, c).c)
    decreases es, 0
  {
    if es != [] {
      hide Grows;
      var a := LowerExpr(es[0], c);
      ExprGrows(es[0], c);
      AllGrows(es[1..], a.c);
      Trans(c, a.c, LowerAll(es, c).c);
    }
  }

  lemma {:induction false} ChainGrows(cmps: seq<BinOp>, rs: seq<Expr>, left: nat, soFar: Option<nat>, c: Ctx)
    ensures Straight(c, LowerChain(cmps, rs, left, soFar, c).c)
    decreases rs, 0
  {
    if rs != [] && cmps != [] {
      var r := LowerExpr(rs[0], c);
      ExprGrows(rs[0], c);
      var next := Link(cmps[0], left, r, soFar);
      LinkGrows(cmps[0], left, r, soFar);
      ChainGrows(cmps[1..], rs[1..], r.t, Some(next.t), next.c);
      hide Grows;
      Trans(c, r.c, next.c);
      Trans(c, next.c, LowerChain(cmps, rs, left, soFar, c).c);
    }
  }

  lemma LinkGrows(op: BinOp, left: nat, r: Low, acc: Option<nat>)
    ensures Straight(r.c, Link(op, left, r, acc).c)
  {
  }

  lemma FoldOneGrows(op: BoolOp, t: nat, ty: Ty, acc: Low)
    ensures Straight(acc.c, FoldOne(op, t, ty, acc).c)
  {
  }

  lemma {:induction false} FoldGrows(op: BoolOp, ts: seq<nat>, tys: seq<Ty>, acc: Low)
    requires |ts| == |tys|
    ensures Straight(acc.c, FoldBools(op, ts, tys, acc).c)
    decreases |ts|
  {
    if ts != [] {
      var next := FoldOne(op, ts[0], tys[0], acc);
      FoldOneGrows(op, ts[0], tys[0], acc);
      FoldGrows(op, ts[1..], tys[1..], next);
      Trans(acc.c, next.c, FoldBools(op, ts, tys, acc).c);
    }
  }

  // ----- statements -----

  lemma {:induction false} StoreAllGrows(targets: seq<string>, v: Low, c: Ctx)
    ensures Grows(c, StoreAll(targets, v, c)) && PlainFrom(StoreAll(targets, v, c).code, |c.code|)
    decreases |targets|
  {
    if targets != [] {
      var c1 := Emit(Declare(c, Local(targets[0]), v.ty), Store(Tmp(v.t), Local(targets[0])));
      StoreAllGrows(targets[1..], v, c1);
      Trans(c, c1, StoreAll(targets, v, c));
    }
  }

  lemma BranchGrows(c: Ctx, t: nat, yes: nat, no: nat)
    ensures Grows(c, Branch(c, t, yes, no)) && Branch(c, t, yes, no).vars == c.vars
  {
  }

  lemma JumpGrows(c: Ctx, l: nat)
    ensures Grows(c, JumpIfOpen(c, l)) && JumpIfOpen(c, l).vars == c.vars
  {
  }

  lemma {:induction false} StmtGrows(s: Stmt, c: Ctx)
    ensures Grows(c, LowerStmt(s, c))
    decreases s, 2
  {
    hide Grows, LowerIf, LowerWhile, LowerFor;
    match s
    case If(_, _, _, _) =>
      IfGrows(s, c);
      GrowsRefl(c);
    case While(_, _) =>
      WhileGrows(s, c);
      GrowsRefl(c);
    case ForRange(_, _, _) =>
      ForGrows(s, c);
      GrowsRefl(c);
    case _ => SimpleGrows(s, c);
  }

  lemma GrowsRefl(c: Ctx)
    ensures Grows(c, c)
  {
  }

  lemma SimpleGrows(s: Stmt, c: Ctx)
    requires !s.If? && !s.While? && !s.ForRange?
    ensures Grows(c, LowerStmt(s, c))
  {
    if Terminated(c.code) {
      return;
    }
    match s
    case Assign(targets, e) =>
      ExprGrows(e, c);
      var r := LowerExpr(e, c);
      StoreAllGrows(targets, r, r.c);
      Trans(c, r.c, LowerStmt(s, c));
    case AugAssign(x, op, e) =>
      if Local(x) in c.vars {
        var c1 := EmitTemp(c, Load(c.tmp, Local(x)));
        ExprGrows(e, c1);
        Trans(c, c1, LowerExpr(e, c1).c);
      }
    case CallStmt(e) => ExprGrows(e, c);
    case Return(e) =>
      if e.Some? {
        ExprGrows(e.value, c);
      }
    case _ =>
  }

  lemma {:induction false} StmtsGrows(ss: seq<Stmt>, c: Ctx)
    ensures Grows(c, LowerStmts(ss, c))
    decreases ss, 0
  {
    if ss != [] {
      hide Grows;
      StmtGrows(ss[0], c);
      StmtsGrows(ss[1..], LowerStmt(ss[0], c));
      Trans(c, LowerStmt(ss[0], c), LowerStmts(ss, c));
    }
  }

  /** A block and the jump that closes it. */
  lemma BlockGrows(ss: seq<Stmt>, c: Ctx, l: nat)
    ensures Grows(c, JumpIfOpen(LowerStmts(ss, c), l))
    decreases ss, 1
  {
    StmtsGrows(ss, c);
    JumpGrows(LowerStmts(ss, c), l);
    Trans(c, LowerStmts(ss, c), JumpIfOpen(LowerStmts(ss, c), l));
  }

  lemma {:induction false} IfGrows(s: Stmt, c: Ctx)
    requires s.If?
    ensures Grows(c, LowerIf(s, c))
    decreases s, 1
  {
    var r := LowerExpr(s.test, c);
    var open := IfOpen(s, r);
    var body := IfBody(s, r);
    var arms := LowerElifs(s, 0, r.c, body);
    var tail := IfTail(s, r.c, arms);
    ExprGrows(s.test, c);
    IfOpenGrows(s, r);
    BlockGrows(s.body, open, MergeLabel(r.c));
    ElifsGrows(s, 0, r.c, body);
    IfTailGrows(s, r.c, arms);
    EmitGrows(tail, Label(MergeLabel(r.c)));
    hide Grows;
    Trans(c, r.c, open);
    Trans(c, open, body);
    Trans(c, body, arms);
    Trans(c, arms, tail);
    Trans(c, tail, LowerIf(s, c));
  }

  lemma IfOpenGrows(s: Stmt, r: Low)
    requires s.If?
    ensures Grows(r.c, IfOpen(s, r))
  {
  }

  lemma IfTailGrows(s: Stmt, at: Ctx, arms: Ctx)
    requires s.If?
    ensures Grows(arms, IfTail(s, at, arms))
    decreases s, 0
  {
    if s.orelse != [] {
      var c1 := Emit(arms, Label(ElseLabel(s, at)));
      BlockGrows(s.orelse, c1, MergeLabel(at));
      Trans(arms, c1, IfTail(s, at, arms));
    }
  }

  lemma {:induction false} ElifsGrows(s: Stmt, i: nat, at: Ctx, c: Ctx)
    requires s.If? && i <= |s.elifs|
    ensures Grows(c, LowerElifs(s, i, at, c))
    decreases s, 0, |s.elifs| - i
  {
    if i < |s.elifs| {
      var r := ElifTest(s, i, at, c);
      var open := ElifOpen(s, i, at, r);
      var body := ElifBody(s, i, at, r);
      var c1 := Emit(c, Label(TestLabel(at, i)));
      ExprGrows(s.elifs[i].test, c1);
      EmitGrows(c, Label(TestLabel(at, i)));
      BranchGrows(r.c, r.t, BodyLabel(at, i), ArmLabel(s, at, i + 1));
      BlockGrows(s.elifs[i].body, open, MergeLabel(at));
      ElifsGrows(s, i + 1, at, body);
      hide Grows;
      Trans(c, c1, r.c);
      Trans(c, r.c, open);
      Trans(c, open, body);
      Trans(c, body, LowerElifs(s, i, at, c));
    }
  }

  /** Up to the loop labels, which the end of the loop restores. */
  lemma InLoop(c: Ctx, d: Ctx, e: Ctx, exit: Option<nat>, cont: Option<nat>)
    requires Grows(c.(exit := exit, cont := cont), d) && Grows(d, e)
    ensures Grows(c, CloseLoop(e, c))
  {
  }

  lemma {:induction false} WhileGrows(s: Stmt, c: Ctx)
    requires s.While?
    ensures Grows(c, LowerWhile(s, c))
    decreases s, 1
  {
    var head := WhileHead(c);
    var r := LowerExpr(s.test, head);
    var open := WhileOpen(s, c, r);
    ExprGrows(s.test, head);
    BranchGrows(r.c, r.t, c.lbl + 1, c.lbl + 2);
    BlockGrows(s.body, open, c.lbl);
    Trans(head, r.c, open);
    Trans(head, open, JumpIfOpen(LowerStmts(s.body, open), c.lbl));
    InLoop(c, head, JumpIfOpen(LowerStmts(s.body, open), c.lbl), Some(c.lbl + 2), Some(c.lbl));
  }

  lemma {:induction false} BoundsGrows(args: seq<Expr>, c: Ctx)
    ensures Straight(c, LowerBounds(args, c).c)
  {
    if |args| == 1 {
      var start := MakeConst(c, 0, IntTy);
      var stop := LowerExpr(args[0], start.c);
      ExprGrows(args[0], start.c);
      Trans(c, start.c, stop.c);
    } else if |args| >= 2 {
      var start := LowerExpr(args[0], c);
      var stop := LowerExpr(args[1], start.c);
      ExprGrows(args[0], c);
      ExprGrows(args[1], start.c);
      Trans(c, start.c, stop.c);
      if |args| > 2 {
        ExprGrows(args[2], stop.c);
        Trans(c, stop.c, LowerExpr(args[2], stop.c).c);
      }
    }
  }

  lemma ForIndexGrows(c: Ctx)
    ensures Grows(c.(exit := Some(c.lbl + 3), cont := Some(c.lbl + 2)), ForIndex(c))
    ensures ForIndex(c).lbl == c.lbl + 5
  {
  }

  lemma ForHeadGrows(s: Stmt, c: Ctx, b: Bounds)
    requires s.ForRange?
    ensures Grows(b.c, ForHead(s, c, b)) && ForHead(s, c, b).lbl == b.c.lbl
  {
  }

  lemma ForIncGrows(d: Ctx, c: Ctx, b: Bounds)
    ensures Grows(d, ForInc(d, c, b)) && ForInc(d, c, b).vars == d.vars
  {
  }

  lemma {:induction false} ForGrows(s: Stmt, c: Ctx)
    requires s.ForRange?
    ensures Grows(c, LowerFor(s, c))
    decreases s, 1
  {
    var b := ForEntry(s, c);
    var head := ForHead(s, c, b);
    var body := JumpIfOpen(LowerStmts(s.body, head), c.lbl + 2);
    var end := ForInc(body, c, b);
    ForIndexGrows(c);
    BoundsGrows(s.rangeArgs, ForIndex(c));
    ForHeadGrows(s, c, b);
    BlockGrows(s.body, head, c.lbl + 2);
    ForIncGrows(body, c, b);
    Trans(ForIndex(c), b.c, head);
    Trans(ForIndex(c), head, body);
    Trans(ForIndex(c), body, end);
    InLoop(c, ForIndex(c), end, Some(c.lbl + 3), Some(c.lbl + 2));
  }
}
