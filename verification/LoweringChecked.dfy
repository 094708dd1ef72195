/** Every function the compiler emits without an error passes the check of `IRCheck`. */
module LoweringChecked {
  import opened Words
  import opened Wrappers
  import opened Python
  import opened IR
  import opened Lowering
  import opened Builtins
  import opened LoweringGrows
  import opened IRCheck

  // ----- what holds between instructions -----

  function After(c: Ctx, L: Notes): Flow {
    Check(c.code, L)
  }

  /** The code so far passes, and the counters are ahead of everything in use. */
  predicate Good(c: Ctx, L: Notes) {
    var f := After(c, L);
    && f.Flow?
    && (forall t <- f.defined :: t < c.tmp)
    && (forall l <- L.Keys :: l < c.lbl)
    && f.placed <= L.Keys
  }

  predicate Live(c: Ctx, L: Notes) {
    Good(c, L) && After(c, L).live
  }

  predicate Has(c: Ctx, L: Notes, t: nat) {
    Live(c, L) && t in After(c, L).avail
  }

  /** Control can get from `c` to `d`, and what was assigned still is. */
  predicate Onward(c: Ctx, d: Ctx, L: Notes) {
    Live(c, L) && Live(d, L) && After(c, L).avail <= After(d, L).avail && After(c, L).placed == After(d, L).placed
  }

  lemma OnwardTrans(c: Ctx, d: Ctx, e: Ctx, L: Notes)
    requires Onward(c, d, L) && Onward(d, e, L)
    ensures Onward(c, e, L)
  {
  }

  lemma OnwardHas(c: Ctx, d: Ctx, L: Notes, t: nat)
    requires Onward(c, d, L) && Has(c, L, t)
    ensures Has(d, L, t)
  {
  }

  /** How the flow goes on after an instruction that assigns temporary `t`. */
  function Assigns(f: Flow, t: nat): Flow
    requires f.Flow?
  {
    f.(avail := f.avail + {t}, defined := f.defined + {t})
  }

  lemma StepAssigns(L: Notes, f: Flow, i: Instr, t: nat)
    requires f.Flow? && f.live && Dest(i) == Some(t) && t !in f.defined && Reads(i) <= f.avail
    ensures CheckStep(L, f, i) == Assigns(f, t)
  {
  }

  lemma StepPlain(L: Notes, f: Flow, i: Instr)
    requires f.Flow? && f.live && (i.Alloca? || i.Store?) && Reads(i) <= f.avail
    ensures CheckStep(L, f, i) == f
  {
  }

  /** An instruction for the next temporary. */
  lemma TempOk(c: Ctx, i: Instr, L: Notes)
    requires Live(c, L) && Dest(i) == Some(c.tmp) && Reads(i) <= After(c, L).avail
    ensures Onward(c, EmitTemp(c, i), L) && Has(EmitTemp(c, i), L, c.tmp)
  {
    hide Check, CheckStep, Dest, Reads;
    assert c.tmp !in After(c, L).defined;
    CheckEmit(c.code, i, L);
    StepAssigns(L, After(c, L), i, c.tmp);
  }

  /** An instruction that assigns no temporary and goes on. */
  lemma EmitOk(c: Ctx, i: Instr, L: Notes)
    requires Live(c, L) && (i.Alloca? || i.Store?) && Reads(i) <= After(c, L).avail
    ensures Onward(c, Emit(c, i), L)
  {
    hide Check, CheckStep, Dest, Reads;
    CheckEmit(c.code, i, L);
    StepPlain(L, After(c, L), i);
  }

  // ----- expressions -----

  lemma ToBoolOk(c: Ctx, t: nat, ty: Ty, L: Notes)
    requires Has(c, L, t)
    ensures var r := ToBool(c, t, ty); Onward(c, r.c, L) && Has(r.c, L, r.t)
  {
    TempOk(c, Bin(CmpNe, c.tmp, Tmp(t), Imm(0)), L);
  }

  lemma UnaryOk(op: UnaryOp, a: Low, L: Notes)
    requires Has(a.c, L, a.t)
    ensures var r := LowerUnary(op, a); Onward(a.c, r.c, L) && Has(r.c, L, r.t)
  {
    var c := a.c.(tmp := a.c.tmp + 1);
    match op
    case Minus => TempOk(a.c, Un(Neg, a.c.tmp, Tmp(a.t)), L);
    case Tilde => TempOk(a.c, Un(BNot, a.c.tmp, Tmp(a.t)), L);
    case Plus =>
    case LogicalNot => NotOk(a, L);
  }

  /** `not` takes its temporary before the test of its operand takes one. */
  lemma NotOk(a: Low, L: Notes)
    requires Has(a.c, L, a.t)
    ensures var r := LowerUnary(LogicalNot, a); Onward(a.c, r.c, L) && Has(r.c, L, r.t)
  {
    var c := a.c.(tmp := a.c.tmp + 1);
    var b := ToBool(c, a.t, a.ty);
    ReserveOk(a.c, L);
    ToBoolOk(c, a.t, a.ty, L);
    ToBoolDefines(c, a.t, a.ty, L);
    assert a.c.tmp !in After(c, L).defined && a.c.tmp !in After(b.c, L).defined && a.c.tmp < b.c.tmp;
    NotIs(a);
    hide *;
    NotReads(a.c.tmp, b.t);
    HasIs(b.c, L, b.t);
    ReservedOk(b.c, a.c.tmp, Un(Not, a.c.tmp, Tmp(b.t)), L);
    OnwardTrans(c, b.c, Emit(b.c, Un(Not, a.c.tmp, Tmp(b.t))), L);
    OnwardTrans(a.c, c, Emit(b.c, Un(Not, a.c.tmp, Tmp(b.t))), L);
  }

  lemma NotIs(a: Low)
    ensures var b := ToBool(a.c.(tmp := a.c.tmp + 1), a.t, a.ty);
      LowerUnary(LogicalNot, a) == Low(Emit(b.c, Un(Not, a.c.tmp, Tmp(b.t))), a.c.tmp, BoolTy)
  {
  }

  lemma HasIs(c: Ctx, L: Notes, t: nat)
    requires Has(c, L, t)
    ensures Live(c, L) && t in After(c, L).avail
  {
    hide Live, After;
  }

  lemma NotReads(d: nat, t: nat)
    ensures Dest(Un(Not, d, Tmp(t))) == Some(d) && Reads(Un(Not, d, Tmp(t))) == {t}
  {
  }

  lemma ReserveOk(c: Ctx, L: Notes)
    requires Live(c, L)
    ensures Onward(c, c.(tmp := c.tmp + 1), L) && c.tmp !in After(c, L).defined
  {
  }

  lemma ToBoolDefines(c: Ctx, t: nat, ty: Ty, L: Notes)
    requires Has(c, L, t)
    ensures After(ToBool(c, t, ty).c, L).Flow? && After(ToBool(c, t, ty).c, L).defined <= After(c, L).defined + {c.tmp}
  {
    CheckEmit(c.code, Bin(CmpNe, c.tmp, Tmp(t), Imm(0)), L);
  }

  /** An instruction for a temporary taken earlier. */
  lemma ReservedOk(c: Ctx, t: nat, i: Instr, L: Notes)
    requires Live(c, L) && t < c.tmp && t !in After(c, L).defined && Dest(i) == Some(t) && Reads(i) <= After(c, L).avail
    ensures Onward(c, Emit(c, i), L) && Has(Emit(c, i), L, t)
  {
    hide Check, CheckStep, Dest, Reads;
    CheckEmit(c.code, i, L);
    StepAssigns(L, After(c, L), i, t);
  }

  lemma WidenedOk(a: Low, b: Low, L: Notes)
    requires Has(b.c, L, a.t) && Has(b.c, L, b.t)
    ensures var (a', b') := Widened(a, b); Onward(b.c, b'.c, L) && Has(b'.c, L, a'.t) && Has(b'.c, L, b'.t)
  {
    TempOk(b.c, Un(ZExt, b.c.tmp, Tmp(a.t)), L);
    TempOk(b.c, Un(ZExt, b.c.tmp, Tmp(b.t)), L);
  }

  lemma BinaryOk(op: BinOp, a: Low, b: Low, L: Notes)
    requires Has(b.c, L, a.t) && Has(b.c, L, b.t)
    ensures var r := LowerBinary(op, a, b); Onward(b.c, r.c, L) && Has(r.c, L, r.t)
  {
    var (a', b') := Widened(a, b);
    WidenedOk(a, b, L);
    TempOk(b'.c, Bin(op, b'.c.tmp, Tmp(a'.t), Tmp(b'.t)), L);
  }

  lemma LinkOk(op: BinOp, left: nat, r: Low, acc: Option<nat>, L: Notes)
    requires Has(r.c, L, left) && Has(r.c, L, r.t) && (acc.Some? ==> Has(r.c, L, acc.value))
    ensures var l := Link(op, left, r, acc); Onward(r.c, l.c, L) && Has(l.c, L, l.t)
  {
    var t := r.c.tmp;
    var i := Bin(op, t, Tmp(left), Tmp(r.t));
    TempOk(r.c, i, L);
    if acc.Some? {
      TempOk(EmitTemp(r.c, i), Bin(And, t + 1, Tmp(acc.value), Tmp(t)), L);
    }
  }

  lemma FoldOneOk(op: BoolOp, t: nat, ty: Ty, acc: Low, L: Notes)
    requires Has(acc.c, L, t) && Has(acc.c, L, acc.t)
    ensures var r := FoldOne(op, t, ty, acc); Onward(acc.c, r.c, L) && Has(r.c, L, r.t)
  {
    var b := ToBool(acc.c, t, ty);
    ToBoolOk(acc.c, t, ty, L);
    TempOk(b.c, Bin(if op.AndOp? then And else Or, b.c.tmp, Tmp(acc.t), Tmp(b.t)), L);
  }

  predicate HasAll(c: Ctx, L: Notes, ts: seq<nat>) {
    forall t <- ts :: Has(c, L, t)
  }

  lemma OnwardHasAll(c: Ctx, d: Ctx, L: Notes, ts: seq<nat>)
    requires Onward(c, d, L) && HasAll(c, L, ts)
    ensures HasAll(d, L, ts)
  {
  }

  lemma {:induction false} FoldOk(op: BoolOp, ts: seq<nat>, tys: seq<Ty>, acc: Low, L: Notes)
    requires |ts| == |tys| && Has(acc.c, L, acc.t) && HasAll(acc.c, L, ts)
    ensures var r := FoldBools(op, ts, tys, acc); Onward(acc.c, r.c, L) && Has(r.c, L, r.t)
    decreases |ts|
  {
    if ts != [] {
      var next := FoldOne(op, ts[0], tys[0], acc);
      FoldOneOk(op, ts[0], tys[0], acc, L);
      OnwardHasAll(acc.c, next.c, L, ts);
      FoldOk(op, ts[1..], tys[1..], next, L);
    }
  }

  lemma {:induction false} ExprOk(e: Expr, c: Ctx, L: Notes)
    requires Live(c, L) && LowerExpr(e, c).c.ok
    ensures var r := LowerExpr(e, c); Onward(c, r.c, L) && Has(r.c, L, r.t)
    decreases e, 1
  {
    hide Onward, Live, Has, Good, Prefix, PlainFrom, Extends;
    match e
    case IntLit(v) => TempOk(c, Const(c.tmp, Wrap(v)), L);
    case BoolLit(b) => TempOk(c, Const(c.tmp, BoolWord(b)), L);
    case Var(x) => TempOk(c, Load(c.tmp, Local(x)), L);
    case UnaryE(op, a) =>
      UnaryGrows(op, LowerExpr(a, c));
      ExprOk(a, c, L);
      UnaryOk(op, LowerExpr(a, c), L);
      OnwardTrans(c, LowerExpr(a, c).c, LowerExpr(e, c).c, L);
    case BinaryE(op, l, r) =>
      var a := LowerExpr(l, c);
      var b := LowerExpr(r, a.c);
      BinaryGrows(op, a, b);
      ExprGrows(r, a.c);
      ExprOk(l, c, L);
      OnwardIs(c, a.c, L);
      ExprOk(r, a.c, L);
      OnwardHas(a.c, b.c, L, a.t);
      BinaryOk(op, a, b, L);
      OnwardTrans(c, a.c, b.c, L);
      OnwardTrans(c, b.c, LowerExpr(e, c).c, L);
    case Compare(l, cmps, rs) =>
      var a := LowerExpr(l, c);
      ChainGrows(cmps, rs, a.t, None, a.c);
      ExprOk(l, c, L);
      OnwardIs(c, a.c, L);
      ChainOk(cmps, rs, a.t, None, a.c, L);
      OnwardTrans(c, a.c, LowerExpr(e, c).c, L);
    case BoolE(op, es) => BoolOk(e, c, L);
    case IfExp(test, a, b) => IfExpOk(e, c, L);
    case CallE(f, args) => CallOk(e, c, L);
  }

  lemma OnwardIs(c: Ctx, d: Ctx, L: Notes)
    requires Onward(c, d, L)
    ensures Live(c, L) && Live(d, L)
  {
  }

  lemma {:induction false} BoolOk(e: Expr, c: Ctx, L: Notes)
    requires e.BoolE? && Live(c, L) && LowerExpr(e, c).c.ok
    ensures var r := LowerExpr(e, c); Onward(c, r.c, L) && Has(r.c, L, r.t)
    decreases e, 0
  {
    var vs := LowerAll(e.values, c);
    var first := ToBool(vs.c, vs.ts[0], vs.tys[0]);
    FoldGrows(e.bop, vs.ts[1..], vs.tys[1..], first);
    AllOk(e.values, c, L);
    assert vs.ts[0] in vs.ts;
    ToBoolOk(vs.c, vs.ts[0], vs.tys[0], L);
    OnwardHasAll(vs.c, first.c, L, vs.ts);
    assert HasAll(first.c, L, vs.ts[1..]);
    FoldOk(e.bop, vs.ts[1..], vs.tys[1..], first, L);
  }

  lemma {:induction false} IfExpOk(e: Expr, c: Ctx, L: Notes)
    requires e.IfExp? && Live(c, L) && LowerExpr(e, c).c.ok
    ensures var r := LowerExpr(e, c); Onward(c, r.c, L) && Has(r.c, L, r.t)
    decreases e, 0
  {
    var rt := LowerExpr(e.test, c);
    var ra := LowerExpr(e.body, rt.c);
    var rb := LowerExpr(e.orelse, ra.c);
    ExprGrows(e.body, rt.c);
    ExprGrows(e.orelse, ra.c);
    hide Prefix, PlainFrom, Extends, LowerExpr;
    ExprOk(e.test, c, L);
    ExprOk(e.body, rt.c, L);
    ExprOk(e.orelse, ra.c, L);
    TempOk(rb.c, Select(rb.c.tmp, Tmp(rt.t), Tmp(ra.t), Tmp(rb.t)), L);
  }

  lemma {:induction false} TempArgsRead(ts: seq<nat>)
    ensures forall t <- TempsOfAll(TempArgs(ts)) :: t in ts
  {
    forall t <- TempsOfAll(TempArgs(ts))
      ensures t in ts
    {
      var o :| o in TempArgs(ts) && o.Tmp? && o.t == t;
      var i :| 0 <= i < |ts| && TempArgs(ts)[i] == o;
      assert ts[i] == t;
    }
  }

  lemma {:induction false} CallOk(e: Expr, c: Ctx, L: Notes)
    requires e.CallE? && Live(c, L) && LowerExpr(e, c).c.ok
    ensures var r := LowerExpr(e, c); Onward(c, r.c, L) && Has(r.c, L, r.t)
    decreases e, 0
  {
    hide Onward, Live, Has, Good, Handled, AlwaysTrue;
    if Handled(e.func, |e.args|) {
      TempOk(c, Const(c.tmp, 1), L);
      TempOk(c, Const(c.tmp, 0), L);
    } else if e.func in c.funcs {
      var vs := LowerAll(e.args, c);
      AllOk(e.args, c, L);
      OnwardIs(c, vs.c, L);
      ArgsAvailable(vs.c, vs.ts, L);
      TempOk(vs.c, Call(vs.c.tmp, c.funcs[e.func], TempArgs(vs.ts)), L);
      OnwardTrans(c, vs.c, LowerExpr(e, c).c, L);
    } else {
      TempOk(c, Const(c.tmp, 0), L);
    }
  }

  lemma ArgsAvailable(c: Ctx, ts: seq<nat>, L: Notes)
    requires HasAll(c, L, ts) && Live(c, L)
    ensures TempsOfAll(TempArgs(ts)) <= After(c, L).avail
  {
    hide Good;
    TempArgsRead(ts);
  }

  lemma {:induction false} AllOk(es: seq<Expr>, c: Ctx, L: Notes)
    requires Live(c, L) && LowerAll(es, c).c.ok
    ensures var r := LowerAll(es, c); Onward(c, r.c, L) && HasAll(r.c, L, r.ts)
    decreases es, 0
  {
    if es != [] {
      var a := LowerExpr(es[0], c);
      var rest := LowerAll(es[1..], a.c);
      AllGrows(es[1..], a.c);
      hide Prefix, PlainFrom, Extends, LowerExpr;
      ExprOk(es[0], c, L);
      AllOk(es[1..], a.c, L);
      OnwardHas(a.c, rest.c, L, a.t);
    }
  }

  lemma {:induction false} ChainOk(cmps: seq<BinOp>, rs: seq<Expr>, left: nat, acc: Option<nat>, c: Ctx, L: Notes)
    requires Has(c, L, left) && (acc.Some? ==> Has(c, L, acc.value)) && LowerChain(cmps, rs, left, acc, c).c.ok
    ensures var r := LowerChain(cmps, rs, left, acc, c); Onward(c, r.c, L) && Has(r.c, L, r.t)
    decreases rs, 0
  {
    if rs == [] || cmps == [] {
      TempOk(c, Const(c.tmp, 0), L);
    } else {
      var r := LowerExpr(rs[0], c);
      var next := Link(cmps[0], left, r, acc);
      LinkGrows(cmps[0], left, r, acc);
      ChainGrows(cmps[1..], rs[1..], r.t, Some(next.t), next.c);
      hide Prefix, PlainFrom, Extends, LowerExpr, Link, Good;
      ExprOk(rs[0], c, L);
      LinkOk(cmps[0], left, r, acc, L);
      OnwardHas(r.c, next.c, L, r.t);
      ChainOk(cmps[1..], rs[1..], r.t, Some(next.t), next.c, L);
    }
  }

  // ----- points between statements -----

  /** Control gets here with at least `A` assigned, and exactly the labels `P` are placed so far. */
  predicate On(c: Ctx, L: Notes, A: set<nat>, P: set<nat>) {
    Live(c, L) && A <= After(c, L).avail && After(c, L).placed == P && !Terminated(c.code)
  }

  /** Control does not get here. */
  predicate Off(c: Ctx, L: Notes, P: set<nat>) {
    Good(c, L) && !After(c, L).live && After(c, L).placed == P && Terminated(c.code)
  }

  predicate Point(c: Ctx, L: Notes, A: set<nat>, P: set<nat>) {
    if Terminated(c.code) then Off(c, L, P) else On(c, L, A, P)
  }

  /** A jump to `l` is allowed wherever `A` is assigned. */
  predicate Allowed(L: Notes, l: nat, A: set<nat>) {
    l in L && L[l] <= A
  }

  /** The loop's labels can be jumped to. */
  predicate Exits(c: Ctx, L: Notes, A: set<nat>) {
    && (c.exit.Some? ==> Allowed(L, c.exit.value, A))
    && (c.cont.Some? ==> Allowed(L, c.cont.value, A))
  }

  /** `L'` adds labels from `n` on. */
  predicate Adds(L: Notes, L': Notes, n: nat) {
    && (forall l <- L :: l in L' && L'[l] == L[l])
    && (forall l <- L' :: l in L || l >= n)
  }

  lemma AddsTrans(L: Notes, L': Notes, L'': Notes, n: nat, m: nat)
    requires Adds(L, L', n) && Adds(L', L'', m) && n <= m
    ensures Adds(L, L'', n) && L.Keys <= L'.Keys <= L''.Keys
  {
  }

  lemma AddsKeeps(L: Notes, L': Notes, n: nat, l: nat, A: set<nat>)
    requires Adds(L, L', n) && Allowed(L, l, A)
    ensures Allowed(L', l, A) && L'[l] == L[l]
  {
  }

  lemma ExitsKept(c: Ctx, L: Notes, L': Notes, n: nat, A: set<nat>)
    requires Adds(L, L', n) && Exits(c, L, A)
    ensures Exits(c, L', A)
  {
  }

  /** Every placed label has a note, and a number below the counter. */
  lemma OnBounds(c: Ctx, L: Notes, A: set<nat>, P: set<nat>)
    requires On(c, L, A, P) || Off(c, L, P)
    ensures P <= L.Keys && forall l <- L :: l < c.lbl
  {
  }

  lemma OnWeaker(c: Ctx, L: Notes, A: set<nat>, A': set<nat>, P: set<nat>)
    requires On(c, L, A, P) && A' <= A
    ensures On(c, L, A', P)
  {
  }

  /** Only the code and the counters matter. */
  lemma OnSame(c: Ctx, d: Ctx, L: Notes, A: set<nat>, P: set<nat>)
    requires On(c, L, A, P) && d.code == c.code && d.tmp == c.tmp && d.lbl == c.lbl
    ensures On(d, L, A, P)
  {
  }

  lemma StepLabel(L: Notes, f: Flow, l: nat)
    requires f.Flow? && !f.live && l in L && l !in f.placed
    ensures CheckStep(L, f, Label(l)) == Flow(L[l], true, f.defined, f.placed + {l})
  {
  }

  lemma StepAway(L: Notes, f: Flow, i: Instr)
    requires f.Flow? && f.live && Reads(i) <= f.avail && (i.Ret? || (i.Jmp? && i.lbl in L && L[i.lbl] <= f.avail))
    ensures CheckStep(L, f, i) == Flow({}, false, f.defined, f.placed)
  {
  }

  lemma StepTest(L: Notes, f: Flow, t: nat, l: nat)
    requires f.Flow? && f.live && t in f.avail && l in L && L[l] <= f.avail
    ensures CheckStep(L, f, Jnz(Tmp(t), l)) == f
  {
  }

  lemma OnLabel(c: Ctx, l: nat, L: Notes, P: set<nat>)
    requires Off(c, L, P) && l in L && l !in P
    ensures On(Emit(c, Label(l)), L, L[l], P + {l})
  {
    hide Check, CheckStep;
    CheckEmit(c.code, Label(l), L);
    StepLabel(L, After(c, L), l);
  }

  lemma OffJump(c: Ctx, l: nat, L: Notes, A: set<nat>, P: set<nat>)
    requires On(c, L, A, P) && Allowed(L, l, A)
    ensures Off(Emit(c, Jmp(l)), L, P)
  {
    hide Check, CheckStep;
    CheckEmit(c.code, Jmp(l), L);
    StepAway(L, After(c, L), Jmp(l));
  }

  lemma OffRet(c: Ctx, t: nat, L: Notes, A: set<nat>, P: set<nat>)
    requires On(c, L, A, P) && Has(c, L, t)
    ensures Off(Emit(c, Ret(Tmp(t))), L, P)
  {
    hide Check, CheckStep;
    CheckEmit(c.code, Ret(Tmp(t)), L);
    StepAway(L, After(c, L), Ret(Tmp(t)));
  }

  lemma OnBranch(c: Ctx, t: nat, yes: nat, no: nat, L: Notes, A: set<nat>, P: set<nat>)
    requires On(c, L, A, P) && Has(c, L, t) && Allowed(L, yes, A) && Allowed(L, no, A) && yes !in P
    ensures On(Branch(c, t, yes, no), L, L[yes], P + {yes})
  {
    hide Check, CheckStep;
    var c1 := Emit(c, Jnz(Tmp(t), yes));
    var c2 := Emit(c1, Jmp(no));
    CheckEmit(c.code, Jnz(Tmp(t), yes), L);
    StepTest(L, After(c, L), t, yes);
    CheckEmit(c1.code, Jmp(no), L);
    StepAway(L, After(c1, L), Jmp(no));
    assert Off(c2, L, P);
    OnLabel(c2, yes, L, P);
  }

  /** Straight code stays on. */
  lemma OnStraight(c: Ctx, d: Ctx, L: Notes, A: set<nat>, P: set<nat>)
    requires On(c, L, A, P) && Onward(c, d, L) && Prefix(c.code, d.code) && PlainFrom(d.code, |c.code|)
    ensures On(d, L, A, P)
  {
    StaysOpen(c.code, d.code);
  }

  lemma OnExpr(e: Expr, c: Ctx, L: Notes, A: set<nat>, P: set<nat>)
    requires On(c, L, A, P) && LowerExpr(e, c).c.ok
    ensures var r := LowerExpr(e, c); On(r.c, L, A, P) && Has(r.c, L, r.t)
  {
    ExprOk(e, c, L);
    ExprGrows(e, c);
    OnStraight(c, LowerExpr(e, c).c, L, A, P);
  }

  /** The numbers from `first` on, `n` of them. */
  function Range(first: nat, n: nat): (r: set<nat>)
    ensures forall l: nat :: l in r <==> first <= l < first + n
  {
    if n == 0 then {} else Range(first, n - 1) + {first + n - 1}
  }

  /** `n` new labels, all with the note `A`. */
  function Noted(L: Notes, first: nat, n: nat, A: set<nat>): (r: Notes)
    ensures r.Keys == L.Keys + Range(first, n)
    ensures forall l <- r :: r[l] == if first <= l < first + n then A else L[l]
  {
    if n == 0 then L else Noted(L, first, n - 1, A)[first + n - 1 := A]
  }

  lemma OnNoted(c: Ctx, d: Ctx, L: Notes, n: nat, A: set<nat>, P: set<nat>)
    requires On(c, L, A, P) && d.code == c.code && c.tmp <= d.tmp && c.lbl + n <= d.lbl
    ensures var L' := Noted(L, c.lbl, n, A);
      On(d, L', A, P) && Adds(L, L', c.lbl) && L'.Keys == L.Keys + Range(c.lbl, n)
  {
    CheckExtends(c.code, L, Noted(L, c.lbl, n, A));
  }

  lemma NotedIs(L: Notes, first: nat, n: nat, A: set<nat>, l: nat)
    requires first <= l < first + n
    ensures Allowed(Noted(L, first, n, A), l, A) && Noted(L, first, n, A)[l] == A
  {
  }

  // ----- statements -----

  lemma {:induction false} StoreAllOk(targets: seq<string>, v: Low, c: Ctx, L: Notes)
    requires Has(c, L, v.t)
    ensures Onward(c, StoreAll(targets, v, c), L)
    decreases |targets|
  {
    if targets != [] {
      var x := Local(targets[0]);
      var c1 := Declare(c, x, v.ty);
      if x !in c.vars {
        EmitOk(c, Alloca(x), L);
      }
      EmitOk(c1, Store(Tmp(v.t), x), L);
      StoreAllOk(targets[1..], v, Emit(c1, Store(Tmp(v.t), x)), L);
    }
  }

  /** A lowered statement: its own labels are all placed, and what was assigned before it still is after it. */
  predicate Lowered(L: Notes, n: nat, d: Ctx, L': Notes, A: set<nat>, P: set<nat>) {
    Adds(L, L', n) && Point(d, L', A, P + (L'.Keys - L.Keys))
  }

  lemma {:induction false} StmtOk(s: Stmt, c: Ctx, L: Notes, A: set<nat>, P: set<nat>) returns (L': Notes)
    requires Point(c, L, A, P) && Exits(c, L, A) && LowerStmt(s, c).ok
    ensures Lowered(L, c.lbl, LowerStmt(s, c), L', A, P)
    decreases s, 2
  {
    L' := L;
    assert P + (L.Keys - L.Keys) == P;
    if Terminated(c.code) { return; }
    match s
    case If(_, _, _, _) => L' := IfOk(s, c, L, A, P);
    case While(_, _) => L' := WhileOk(s, c, L, A, P);
    case ForRange(_, _, _) => L' := ForOk(s, c, L, A, P);
    case _ => SimpleOk(s, c, L, A, P);
  }

  lemma SimpleOk(s: Stmt, c: Ctx, L: Notes, A: set<nat>, P: set<nat>)
    requires On(c, L, A, P) && Exits(c, L, A) && LowerStmt(s, c).ok && !s.If? && !s.While? && !s.ForRange?
    ensures Point(LowerStmt(s, c), L, A, P)
  {
    var d := LowerStmt(s, c);
    hide Check, Good, Onward, Has;
    match s
    case Assign(targets, e) =>
      var r := LowerExpr(e, c);
      StoreAllGrows(targets, r, r.c);
      OnExpr(e, c, L, A, P);
      StoreAllOk(targets, r, r.c, L);
      OnStraight(r.c, d, L, A, P);
    case AugAssign(x, op, e) => AugOk(s, c, L, A, P);
    case CallStmt(e) => OnExpr(e, c, L, A, P);
    case Return(e) =>
      if e.Some? {
        var r := LowerExpr(e.value, c);
        OnExpr(e.value, c, L, A, P);
        OffRet(r.c, r.t, L, A, P);
      } else {
        TempOk(c, Const(c.tmp, 0), L);
        OnStraight(c, MakeConst(c, 0, IntTy).c, L, A, P);
        OffRet(MakeConst(c, 0, IntTy).c, c.tmp, L, A, P);
      }
    case Break => if c.exit.Some? { OffJump(c, c.exit.value, L, A, P); }
    case Continue => if c.cont.Some? { OffJump(c, c.cont.value, L, A, P); }
    case Pass =>
  }

  lemma AugOk(s: Stmt, c: Ctx, L: Notes, A: set<nat>, P: set<nat>)
    requires s.AugAssign? && On(c, L, A, P) && LowerStmt(s, c).ok
    ensures On(LowerStmt(s, c), L, A, P)
  {
    hide *;
    var x := Local(s.name);
    var c1 := EmitTemp(c, Load(c.tmp, x));
    var r := LowerExpr(s.value, c1);
    var i := Bin(s.op, r.c.tmp, Tmp(c.tmp), Tmp(r.t));
    var c2 := EmitTemp(r.c, i);
    var A1 := A + {c.tmp};
    var A2 := A1 + {r.t};
    var A3 := A2 + {r.c.tmp};
    OnIsOpen(c, L, A, P);
    AugIs(s, c);
    AugReads(c.tmp, x, i, r.c.tmp);
    OnTemp(c, Load(c.tmp, x), L, A, P);
    OnExpr(s.value, c1, L, A1, P);
    OnMore(r.c, L, A1, P, r.t);
    OnTemp(r.c, i, L, A2, P);
    OnEmit(c2, Store(Tmp(r.c.tmp), x), L, A3, P);
    OnWeaker(LowerStmt(s, c), L, A3, A, P);
  }

  lemma OnIsOpen(c: Ctx, L: Notes, A: set<nat>, P: set<nat>)
    requires On(c, L, A, P)
    ensures !Terminated(c.code)
  {
    hide Live, After, Terminated;
  }

  lemma AugIs(s: Stmt, c: Ctx)
    requires s.AugAssign? && LowerStmt(s, c).ok && !Terminated(c.code)
    ensures var c1 := EmitTemp(c, Load(c.tmp, Local(s.name)));
      var r := LowerExpr(s.value, c1);
      var c2 := EmitTemp(r.c, Bin(s.op, r.c.tmp, Tmp(c.tmp), Tmp(r.t)));
      LowerStmt(s, c) == Emit(c2, Store(Tmp(r.c.tmp), Local(s.name))) && r.c.ok
  {
    hide LowerExpr;
  }

  lemma AugReads(t: nat, x: Name, i: Instr, d: nat)
    requires i.Bin? && i.a.Tmp? && i.b.Tmp?
    ensures Dest(Load(t, x)) == Some(t) && Reads(Load(t, x)) == {} && Dest(i) == Some(i.dest)
    ensures Reads(i) == {i.a.t, i.b.t} && Reads(Store(Tmp(d), x)) == {d}
  {
  }

  lemma {:induction false} StmtsOk(ss: seq<Stmt>, c: Ctx, L: Notes, A: set<nat>, P: set<nat>) returns (L': Notes)
    requires Point(c, L, A, P) && Exits(c, L, A) && LowerStmts(ss, c).ok
    ensures Lowered(L, c.lbl, LowerStmts(ss, c), L', A, P)
    decreases ss, 0
  {
    L' := L;
    if ss == [] {
      assert P + (L.Keys - L.Keys) == P;
    } else {
      var d := LowerStmt(ss[0], c);
      StmtGrows(ss[0], c);
      StmtsGrows(ss[1..], d);
      hide Point, Adds, Exits, Prefix, Extends;
      var L1 := StmtOk(ss[0], c, L, A, P);
      ExitsKept(c, L, L1, c.lbl, A);
      ExitsIs(c, d, L1, A);
      var P1 := P + (L1.Keys - L.Keys);
      L' := StmtsOk(ss[1..], d, L1, A, P1);
      AddsTrans(L, L1, L', c.lbl, d.lbl);
      assert P1 + (L'.Keys - L1.Keys) == P + (L'.Keys - L.Keys);
    }
  }

  lemma ExitsIs(c: Ctx, d: Ctx, L: Notes, A: set<nat>)
    requires Exits(c, L, A) && c.exit == d.exit && c.cont == d.cont
    ensures Exits(d, L, A)
  {
  }

  /** A block that leaves by a jump to `l`. */
  lemma {:induction false} BlockOk(ss: seq<Stmt>, c: Ctx, l: nat, L: Notes, A: set<nat>, P: set<nat>)
    returns (L': Notes)
    requires On(c, L, A, P) && Exits(c, L, A) && Allowed(L, l, A) && JumpIfOpen(LowerStmts(ss, c), l).ok
    ensures Adds(L, L', c.lbl) && Off(JumpIfOpen(LowerStmts(ss, c), l), L', P + (L'.Keys - L.Keys))
    decreases ss, 1
  {
    var d := LowerStmts(ss, c);
    hide On, Off, Adds, Exits, Allowed;
    OnIsPoint(c, L, A, P);
    L' := StmtsOk(ss, c, L, A, P);
    AddsKeeps(L, L', c.lbl, l, A);
    if !Terminated(d.code) {
      OffJump(d, l, L', A, P + (L'.Keys - L.Keys));
    }
  }

  lemma OnIsPoint(c: Ctx, L: Notes, A: set<nat>, P: set<nat>)
    requires On(c, L, A, P)
    ensures Point(c, L, A, P)
  {
  }

  // ----- while -----

  lemma WhileSteps(s: Stmt, c: Ctx)
    requires s.While?
    ensures var head := WhileHead(c);
      var r := LowerExpr(s.test, head);
      var open := WhileOpen(s, c, r);
      var e := JumpIfOpen(LowerStmts(s.body, open), c.lbl);
      && Straight(head, r.c) && Grows(open, e) && head.tmp == c.tmp && head.lbl == c.lbl + 3
      && open == Branch(r.c, r.t, c.lbl + 1, c.lbl + 2) && open.lbl == r.c.lbl
      && open.exit == Some(c.lbl + 2) && open.cont == Some(c.lbl) && (LowerWhile(s, c).ok ==> e.ok && r.c.ok)
      && LowerWhile(s, c) == Emit(e, Label(c.lbl + 2)).(exit := c.exit, cont := c.cont)
  {
    ExprGrows(s.test, WhileHead(c));
    BlockGrows(s.body, WhileOpen(s, c, LowerExpr(s.test, WhileHead(c))), c.lbl);
  }

  lemma WhileHeadOk(c: Ctx, L: Notes, A: set<nat>, P: set<nat>)
    requires On(c, L, A, P)
    ensures On(WhileHead(c), Noted(L, c.lbl, 3, A), A, P + {c.lbl})
  {
    var c1 := c.(lbl := c.lbl + 3, exit := Some(c.lbl + 2), cont := Some(c.lbl));
    var L' := Noted(L, c.lbl, 3, A);
    OnNoted(c, c1, L, 3, A, P);
    NotedIs(L, c.lbl, 3, A, c.lbl);
    OnBounds(c, L, A, P);
    OffJump(c1, c.lbl, L', A, P);
    OnLabel(Emit(c1, Jmp(c.lbl)), c.lbl, L', P);
  }

  /** The labels of a `while` and of its body are what it adds to the labels placed. */
  lemma WhilePlaced(L: Notes, L1: Notes, L': Notes, c: Ctx, P: set<nat>)
    requires L1.Keys == L.Keys + {c.lbl, c.lbl + 1, c.lbl + 2} && L1.Keys <= L'.Keys && forall l <- L :: l < c.lbl
    ensures P + {c.lbl} + {c.lbl + 1} + (L'.Keys - L1.Keys) + {c.lbl + 2} == P + (L'.Keys - L.Keys)
  {
  }

  lemma {:induction false} WhileOk(s: Stmt, c: Ctx, L: Notes, A: set<nat>, P: set<nat>) returns (L': Notes)
    requires s.While? && On(c, L, A, P) && LowerWhile(s, c).ok
    ensures Lowered(L, c.lbl, LowerWhile(s, c), L', A, P)
    decreases s, 1
  {
    hide On, Off, Adds, Prefix, PlainFrom, Extends, LowerExpr, LowerStmts, Noted, Terminated, LowerWhile, WhileHead;
    var head, d := WhileHead(c), LowerWhile(s, c);
    var r := LowerExpr(s.test, head);
    var open := WhileOpen(s, c, r);
    var e := JumpIfOpen(LowerStmts(s.body, open), c.lbl);
    var L1 := Noted(L, c.lbl, 3, A);
    WhileSteps(s, c);
    WhileHeadOk(c, L, A, P);
    OnBounds(c, L, A, P);
    OnNoted(c, c.(lbl := c.lbl + 3), L, 3, A, P);
    NotedIs(L, c.lbl, 3, A, c.lbl);
    NotedIs(L, c.lbl, 3, A, c.lbl + 1);
    NotedIs(L, c.lbl, 3, A, c.lbl + 2);
    OnExpr(s.test, head, L1, A, P + {c.lbl});
    OnBranch(r.c, r.t, c.lbl + 1, c.lbl + 2, L1, A, P + {c.lbl});
    var P1 := P + {c.lbl} + {c.lbl + 1};
    L' := BlockOk(s.body, open, c.lbl, L1, A, P1);
    var P2 := P1 + (L'.Keys - L1.Keys);
    AddsTrans(L, L1, L', c.lbl, open.lbl);
    AddsKeeps(L1, L', open.lbl, c.lbl + 2, A);
    OnLabel(e, c.lbl + 2, L', P2);
    WhilePlaced(L, L1, L', c, P);
    OnSame(Emit(e, Label(c.lbl + 2)), d, L', A, P2 + {c.lbl + 2});
    OnIsPoint(d, L', A, P2 + {c.lbl + 2});
  }

  // ----- if -----

  lemma IfSteps(s: Stmt, c: Ctx)
    requires s.If?
    ensures var r := LowerExpr(s.test, c);
      var open, body := IfOpen(s, r), IfBody(s, r);
      var arms := LowerElifs(s, 0, r.c, body);
      var tail := IfTail(s, r.c, arms);
      && Straight(c, r.c) && Grows(open, body) && Grows(body, arms) && Grows(arms, tail)
      && open == Branch(IfLabels(s, r.c), r.t, ThenLabel(r.c), ArmLabel(s, r.c, 0)) && open.lbl == IfLabels(s, r.c).lbl
      && body == JumpIfOpen(LowerStmts(s.body, open), MergeLabel(r.c))
      && open.exit == c.exit && open.cont == c.cont
      && LowerIf(s, c) == Emit(tail, Label(MergeLabel(r.c)))
      && IfLabels(s, r.c).code == r.c.code && IfLabels(s, r.c).tmp == r.c.tmp
      && IfLabels(s, r.c).lbl == c.lbl + IfCount(s)
      && c.lbl == r.c.lbl == ThenLabel(r.c) && MergeLabel(r.c) == c.lbl + 1 && IfCount(s) >= 2
      && c.lbl <= ArmLabel(s, r.c, 0) < c.lbl + IfCount(s) && ArmsBefore(s, r.c, 0) == {c.lbl}
      && ArmsAll(s, r.c) + {c.lbl + 1} == Range(c.lbl, IfCount(s)) && c.lbl + 1 !in ArmsAll(s, r.c)
      && body.exit == c.exit && body.cont == c.cont && open.lbl <= body.lbl
      && (LowerIf(s, c).ok ==> r.c.ok && body.ok && tail.ok)
  {
    hide *;
    IfStepsGrow(s, c);
    IfStepsAre(s, c);
    IfStepsFlags(s, c);
    IfStepsLabels(s, c);
  }

  lemma IfStepsGrow(s: Stmt, c: Ctx)
    requires s.If?
    ensures var r := LowerExpr(s.test, c);
      var open, body := IfOpen(s, r), IfBody(s, r);
      var arms := LowerElifs(s, 0, r.c, body);
      && Straight(c, r.c) && Grows(open, body) && Grows(body, arms) && Grows(arms, IfTail(s, r.c, arms))
  {
    hide Grows;
    var r := LowerExpr(s.test, c);
    ExprGrows(s.test, c);
    BlockGrows(s.body, IfOpen(s, r), MergeLabel(r.c));
    ElifsGrows(s, 0, r.c, IfBody(s, r));
    IfTailGrows(s, r.c, LowerElifs(s, 0, r.c, IfBody(s, r)));
  }

  lemma IfStepsAre(s: Stmt, c: Ctx)
    requires s.If?
    ensures var r := LowerExpr(s.test, c);
      var open, body := IfOpen(s, r), IfBody(s, r);
      var tail := IfTail(s, r.c, LowerElifs(s, 0, r.c, body));
      && open == Branch(IfLabels(s, r.c), r.t, ThenLabel(r.c), ArmLabel(s, r.c, 0)) && open.lbl == IfLabels(s, r.c).lbl
      && body == JumpIfOpen(LowerStmts(s.body, open), MergeLabel(r.c))
      && LowerIf(s, c) == Emit(tail, Label(MergeLabel(r.c)))
      && IfLabels(s, r.c).code == r.c.code && IfLabels(s, r.c).tmp == r.c.tmp
      && IfLabels(s, r.c).lbl == r.c.lbl + IfCount(s)
      && open.exit == r.c.exit && open.cont == r.c.cont
  {
    hide LowerExpr, LowerStmts, LowerElifs;
  }

  lemma IfStepsFlags(s: Stmt, c: Ctx)
    requires s.If?
    ensures var r := LowerExpr(s.test, c);
      var open, body := IfOpen(s, r), IfBody(s, r);
      var tail := IfTail(s, r.c, LowerElifs(s, 0, r.c, body));
      && open.exit == c.exit && open.cont == c.cont && body.exit == c.exit && body.cont == c.cont
      && open.lbl <= body.lbl
      && (LowerIf(s, c).ok ==> r.c.ok && body.ok && tail.ok)
  {
    IfStepsGrow(s, c);
    IfStepsAre(s, c);
    hide LowerExpr, LowerStmts, LowerElifs, IfOpen, IfBody, IfTail, IfLabels, LowerIf, Prefix;
  }

  lemma IfStepsLabels(s: Stmt, c: Ctx)
    requires s.If?
    ensures var r := LowerExpr(s.test, c);
      && c.lbl == r.c.lbl == ThenLabel(r.c) && MergeLabel(r.c) == c.lbl + 1 && IfCount(s) >= 2
      && IfLabels(s, r.c).lbl == c.lbl + IfCount(s)
      && c.lbl <= ArmLabel(s, r.c, 0) < c.lbl + IfCount(s) && ArmsBefore(s, r.c, 0) == {c.lbl}
      && ArmsAll(s, r.c) + {c.lbl + 1} == Range(c.lbl, IfCount(s)) && c.lbl + 1 !in ArmsAll(s, r.c)
  {
    ExprGrows(s.test, c);
    hide LowerExpr, LowerStmts, LowerElifs, Prefix;
  }

  /** The number of labels of an `if`. */
  function IfCount(s: Stmt): nat
    requires s.If?
  {
    2 + 2 * |s.elifs| + if s.orelse == [] then 0 else 1
  }

  /** The labels of the arms before the `i`-th `elif`, the then-label included and the merge label not. */
  function ArmsBefore(s: Stmt, at: Ctx, i: nat): set<nat>
    requires s.If?
  {
    {ThenLabel(at)} + Range(at.lbl + 2, 2 * i)
  }

  lemma {:induction false} IfOk(s: Stmt, c: Ctx, L: Notes, A: set<nat>, P: set<nat>) returns (L': Notes)
    requires s.If? && On(c, L, A, P) && Exits(c, L, A) && LowerIf(s, c).ok
    ensures Lowered(L, c.lbl, LowerIf(s, c), L', A, P)
    decreases s, 1
  {
    hide *;
    var r, d := LowerExpr(s.test, c), LowerIf(s, c);
    var n := IfCount(s);
    var c1, open, body := IfLabels(s, r.c), IfOpen(s, r), IfBody(s, r);
    var tail := IfTail(s, r.c, LowerElifs(s, 0, r.c, body));
    var L1 := Noted(L, c.lbl, n, A);
    IfSteps(s, c);
    OnExpr(s.test, c, L, A, P);
    OnBounds(c, L, A, P);
    OnNoted(r.c, c1, L, n, A, P);
    forall l: nat | c.lbl <= l < c.lbl + n
      ensures Allowed(L1, l, A) && L1[l] == A
    {
      NotedIs(L, c.lbl, n, A, l);
    }
    HasNoted(r.c, c1, L, n, A, r.t);
    OnBranch(c1, r.t, c.lbl, ArmLabel(s, r.c, 0), L1, A, P);
    var P1 := P + {c.lbl};
    ExitsKept(c, L, L1, c.lbl, A);
    ExitsIs(c, open, L1, A);
    var L2 := BlockOk(s.body, open, c.lbl + 1, L1, A, P1);
    assert P1 + (L2.Keys - L1.Keys) == P + ArmsBefore(s, r.c, 0) + (L2.Keys - L1.Keys);
    ExitsKept(c, L1, L2, open.lbl, A);
    ExitsIs(c, body, L2, A);
    L' := ElifsOk(s, 0, r.c, body, L1, L2, A, P);
    AddsTrans(L, L1, L', c.lbl, open.lbl);
    AddsKeeps(L1, L', open.lbl, c.lbl + 1, A);
    var P3 := P + ArmsAll(s, r.c) + (L'.Keys - L1.Keys);
    MergeFresh(L, L1, L', P, ArmsAll(s, r.c), c.lbl, n);
    OnLabel(tail, c.lbl + 1, L', P3);
    LoweredIs(L, c.lbl, d, L', A, P, P3 + {c.lbl + 1});
  }

  lemma MergeFresh(L: Notes, L1: Notes, L': Notes, P: set<nat>, arms: set<nat>, first: nat, n: nat)
    requires P <= L.Keys <= L1.Keys <= L'.Keys && (forall l <- L :: l < first) && n >= 2
    requires L1.Keys == L.Keys + Range(first, n) && arms + {first + 1} == Range(first, n) && first + 1 !in arms
    ensures first + 1 !in P + arms + (L'.Keys - L1.Keys)
    ensures P + arms + (L'.Keys - L1.Keys) + {first + 1} == P + (L'.Keys - L.Keys)
  {
  }

  lemma LoweredIs(L: Notes, n: nat, d: Ctx, L': Notes, A: set<nat>, P: set<nat>, Q: set<nat>)
    requires Adds(L, L', n) && On(d, L', A, Q) && Q == P + (L'.Keys - L.Keys)
    ensures Lowered(L, n, d, L', A, P)
  {
  }

  lemma HasNoted(c: Ctx, d: Ctx, L: Notes, n: nat, A: set<nat>, t: nat)
    requires Has(c, L, t) && d.code == c.code && c.tmp <= d.tmp && c.lbl + n <= d.lbl
    ensures Has(d, Noted(L, c.lbl, n, A), t)
  {
    CheckExtends(c.code, L, Noted(L, c.lbl, n, A));
  }

  /** All labels of an `if` but the merge label. */
  function ArmsAll(s: Stmt, at: Ctx): set<nat>
    requires s.If?
  {
    ArmsBefore(s, at, |s.elifs|) + if s.orelse == [] then {} else {ElseLabel(s, at)}
  }

  /** The arms from the `i`-th on. `L1` are the notes when the labels of the `if` were added. */
  lemma {:induction false} ElifsOk(s: Stmt, i: nat, at: Ctx, c: Ctx, L1: Notes, L: Notes, A: set<nat>, P: set<nat>)
    returns (L': Notes)
    requires s.If? && i <= |s.elifs| && IfTail(s, at, LowerElifs(s, i, at, c)).ok
    requires P <= L1.Keys && (forall l <- P :: l < at.lbl) && at.lbl + IfCount(s) <= c.lbl
    requires forall l: nat | at.lbl <= l < at.lbl + IfCount(s) :: Allowed(L1, l, A) && L1[l] == A
    requires Adds(L1, L, at.lbl + IfCount(s)) && Exits(c, L, A)
    requires Off(c, L, P + ArmsBefore(s, at, i) + (L.Keys - L1.Keys))
    ensures Adds(L1, L', at.lbl + IfCount(s))
    ensures Off(IfTail(s, at, LowerElifs(s, i, at, c)), L', P + ArmsAll(s, at) + (L'.Keys - L1.Keys))
    decreases s, 0, |s.elifs| - i + 1
  {
    hide On, Off, Adds, Prefix, PlainFrom, Extends;
    hide LowerExpr, LowerStmts, Noted, Terminated, ElifBody, ElifOpen, ArmsBefore;
    if i == |s.elifs| {
      L' := ElseOk(s, at, c, L1, L, A, P);
      return;
    }
    var n := IfCount(s);
    var test := Emit(c, Label(TestLabel(at, i)));
    var r := ElifTest(s, i, at, c);
    var open, body := ElifOpen(s, i, at, r), ElifBody(s, i, at, r);
    ElifSteps(s, i, at, c);
    var P0 := P + ArmsBefore(s, at, i) + (L.Keys - L1.Keys);
    ArmsStep(s, at, i);
    ArmLabels(s, at, i);
    AddsKeeps(L1, L, at.lbl + n, TestLabel(at, i), A);
    AddsKeeps(L1, L, at.lbl + n, BodyLabel(at, i), A);
    AddsKeeps(L1, L, at.lbl + n, MergeLabel(at), A);
    AddsKeeps(L1, L, at.lbl + n, ArmLabel(s, at, i + 1), A);
    OnLabel(c, TestLabel(at, i), L, P0);
    var P1 := P0 + {TestLabel(at, i)};
    OnExpr(s.elifs[i].test, test, L, A, P1);
    OnBranch(r.c, r.t, BodyLabel(at, i), ArmLabel(s, at, i + 1), L, A, P1);
    var P2 := P1 + {BodyLabel(at, i)};
    ExitsIs(c, open, L, A);
    var L2 := BlockOk(s.elifs[i].body, open, MergeLabel(at), L, A, P2);
    AddsTrans(L1, L, L2, at.lbl + n, open.lbl);
    ExitsKept(open, L, L2, open.lbl, A);
    ExitsIs(open, body, L2, A);
    assert P2 + (L2.Keys - L.Keys) == P + ArmsBefore(s, at, i + 1) + (L2.Keys - L1.Keys);
    L' := ElifsOk(s, i + 1, at, body, L1, L2, A, P);
  }

  lemma ArmsStep(s: Stmt, at: Ctx, i: nat)
    requires s.If?
    ensures ArmsBefore(s, at, i + 1) == ArmsBefore(s, at, i) + {TestLabel(at, i)} + {BodyLabel(at, i)}
    ensures TestLabel(at, i) !in ArmsBefore(s, at, i) && BodyLabel(at, i) !in ArmsBefore(s, at, i)
  {
  }

  lemma ArmLabels(s: Stmt, at: Ctx, i: nat)
    requires s.If? && i < |s.elifs|
    ensures at.lbl <= TestLabel(at, i) < BodyLabel(at, i) < at.lbl + IfCount(s)
    ensures at.lbl <= MergeLabel(at) < at.lbl + IfCount(s) && at.lbl <= ArmLabel(s, at, i + 1) < at.lbl + IfCount(s)
  {
  }

  lemma ElifSteps(s: Stmt, i: nat, at: Ctx, c: Ctx)
    requires s.If? && i < |s.elifs|
    ensures var c1 := Emit(c, Label(TestLabel(at, i)));
      var r := ElifTest(s, i, at, c);
      var open, body := ElifOpen(s, i, at, r), ElifBody(s, i, at, r);
      && r == LowerExpr(s.elifs[i].test, c1) && Straight(c1, r.c) && Grows(open, body)
      && open == Branch(r.c, r.t, BodyLabel(at, i), ArmLabel(s, at, i + 1))
      && body == JumpIfOpen(LowerStmts(s.elifs[i].body, open), MergeLabel(at))
      && (IfTail(s, at, LowerElifs(s, i, at, c)).ok ==> body.ok && r.c.ok)
      && LowerElifs(s, i, at, c) == LowerElifs(s, i + 1, at, body)
  {
    var r := ElifTest(s, i, at, c);
    var open, body := ElifOpen(s, i, at, r), ElifBody(s, i, at, r);
    ExprGrows(s.elifs[i].test, Emit(c, Label(TestLabel(at, i))));
    BlockGrows(s.elifs[i].body, open, MergeLabel(at));
    ElifsGrows(s, i + 1, at, body);
    IfTailGrows(s, at, LowerElifs(s, i + 1, at, body));
  }

  lemma {:induction false} ElseOk(s: Stmt, at: Ctx, c: Ctx, L1: Notes, L: Notes, A: set<nat>, P: set<nat>)
    returns (L': Notes)
    requires s.If? && IfTail(s, at, c).ok
    requires P <= L1.Keys && (forall l <- P :: l < at.lbl) && at.lbl + IfCount(s) <= c.lbl
    requires forall l: nat | at.lbl <= l < at.lbl + IfCount(s) :: Allowed(L1, l, A) && L1[l] == A
    requires Adds(L1, L, at.lbl + IfCount(s)) && Exits(c, L, A)
    requires Off(c, L, P + ArmsBefore(s, at, |s.elifs|) + (L.Keys - L1.Keys))
    ensures Adds(L1, L', at.lbl + IfCount(s))
    ensures Off(IfTail(s, at, c), L', P + ArmsAll(s, at) + (L'.Keys - L1.Keys))
    decreases s, 0, 0
  {
    hide On, Off, Adds, LowerStmts;
    L' := L;
    if s.orelse == [] {
      assert ArmsAll(s, at) == ArmsBefore(s, at, |s.elifs|);
    } else {
      var n := IfCount(s);
      var c1 := Emit(c, Label(ElseLabel(s, at)));
      var P0 := P + ArmsBefore(s, at, |s.elifs|) + (L.Keys - L1.Keys);
      AddsKeeps(L1, L, at.lbl + n, ElseLabel(s, at), A);
      AddsKeeps(L1, L, at.lbl + n, MergeLabel(at), A);
      OnLabel(c, ElseLabel(s, at), L, P0);
      ExitsIs(c, c1, L, A);
      L' := BlockOk(s.orelse, c1, MergeLabel(at), L, A, P0 + {ElseLabel(s, at)});
      AddsTrans(L1, L, L', at.lbl + n, c1.lbl);
      assert P0 + {ElseLabel(s, at)} + (L'.Keys - L.Keys) == P + ArmsAll(s, at) + (L'.Keys - L1.Keys);
    }
  }

  // ----- for -----

  lemma ForSteps(s: Stmt, c: Ctx)
    requires s.ForRange?
    ensures var idx, b := ForIndex(c), ForEntry(s, c);
      var head := ForHead(s, c, b);
      var body := JumpIfOpen(LowerStmts(s.body, head), c.lbl + 2);
      && Straight(idx, b.c) && Grows(b.c, head) && Grows(head, body) && idx.lbl == c.lbl + 5 && b.c.tmp < head.tmp
      && head.exit == Some(c.lbl + 3) && head.cont == Some(c.lbl + 2) && (LowerFor(s, c).ok ==> body.ok && b.c.ok)
      && LowerFor(s, c) == Emit(ForInc(body, c, b), Label(c.lbl + 3)).(exit := c.exit, cont := c.cont)
  {
    var b := ForEntry(s, c);
    var head := ForHead(s, c, b);
    var body := JumpIfOpen(LowerStmts(s.body, head), c.lbl + 2);
    hide *;
    ForIndexIs(c);
    ForEntryIs(s, c);
    BoundsGrows(s.rangeArgs, ForIndex(c));
    ForHeadGrows(s, c, b);
    ForHeadIs(s, c, b);
    BlockGrows(s.body, head, c.lbl + 2);
    ForIncGrows(body, c, b);
    StraightGrows(ForIndex(c), b.c);
    GrowsParts(ForIndex(c), b.c);
    GrowsParts(b.c, head);
    GrowsParts(head, body);
    GrowsParts(body, ForInc(body, c, b));
    ForIs(s, c, b, body);
  }

  lemma ForIndexIs(c: Ctx)
    ensures var idx := ForIndex(c); idx.lbl == c.lbl + 5 && idx.exit == Some(c.lbl + 3) && idx.cont == Some(c.lbl + 2)
  {
  }

  lemma ForEntryIs(s: Stmt, c: Ctx)
    requires s.ForRange?
    ensures ForEntry(s, c) == LowerBounds(s.rangeArgs, ForIndex(c))
  {
    hide LowerBounds, ForIndex;
  }

  lemma ForHeadIs(s: Stmt, c: Ctx, b: Bounds)
    requires s.ForRange?
    ensures var head := ForHead(s, c, b);
      b.c.tmp < head.tmp && head.exit == b.c.exit && head.cont == b.c.cont
  {
  }

  lemma ForIs(s: Stmt, c: Ctx, b: Bounds, body: Ctx)
    requires s.ForRange? && b == ForEntry(s, c)
    requires body == JumpIfOpen(LowerStmts(s.body, ForHead(s, c, b)), c.lbl + 2)
    requires ForInc(body, c, b).exit == Some(c.lbl + 3)
    ensures
      && LowerFor(s, c) == Emit(ForInc(body, c, b), Label(c.lbl + 3)).(exit := c.exit, cont := c.cont)
      && LowerFor(s, c).ok == ForInc(body, c, b).ok
  {
    hide ForEntry, ForHead, ForInc, LowerStmts, JumpIfOpen;
  }

  /** The labels of a `for`: the index is assigned at the body and at the increment. */
  function ForNotes(L: Notes, c: Ctx, A: set<nat>, B: set<nat>): Notes {
    L[c.lbl := A][c.lbl + 1 := B][c.lbl + 2 := B][c.lbl + 3 := A]
  }

  lemma OnHas(c: Ctx, L: Notes, A: set<nat>, P: set<nat>, t: nat)
    requires On(c, L, A, P) && t in A
    ensures Has(c, L, t)
  {
  }

  lemma OnMore(c: Ctx, L: Notes, A: set<nat>, P: set<nat>, t: nat)
    requires On(c, L, A, P) && Has(c, L, t)
    ensures On(c, L, A + {t}, P)
  {
  }

  /** Later counters and more notes. */
  lemma OnLater(c: Ctx, d: Ctx, L: Notes, L': Notes, A: set<nat>, P: set<nat>)
    requires On(c, L, A, P) && d.code == c.code && c.tmp <= d.tmp && c.lbl <= d.lbl
    requires (forall l <- L :: l in L' && L'[l] == L[l]) && forall l <- L' :: l < d.lbl
    ensures On(d, L', A, P)
  {
    CheckExtends(c.code, L, L');
  }

  lemma OnTemp(c: Ctx, i: Instr, L: Notes, A: set<nat>, P: set<nat>)
    requires On(c, L, A, P) && Dest(i) == Some(c.tmp) && Reads(i) <= A
    ensures On(EmitTemp(c, i), L, A + {c.tmp}, P)
  {
    hide Check;
    TempOk(c, i, L);
    OnStraight(c, EmitTemp(c, i), L, A, P);
  }

  lemma OnEmit(c: Ctx, i: Instr, L: Notes, A: set<nat>, P: set<nat>)
    requires On(c, L, A, P) && (i.Alloca? || i.Store?) && Reads(i) <= A
    ensures On(Emit(c, i), L, A, P)
  {
    hide Check;
    EmitOk(c, i, L);
    OnStraight(c, Emit(c, i), L, A, P);
  }

  lemma ForIndexOk(c: Ctx, L: Notes, A: set<nat>, P: set<nat>)
    requires On(c, L, A, P)
    ensures On(ForIndex(c), L, A, P)
  {
    var k := LoopIndex(c.lbl + 4);
    var c0 := MakeConst(c, 0, NoneTy).c;
    var c1 := c0.(lbl := c.lbl + 5, exit := Some(c.lbl + 3), cont := Some(c.lbl + 2));
    var c2 := Emit(c1, Alloca(k)).(vars := c1.vars[k := I64Ty]);
    var zero := MakeConst(c2, 0, IntTy);
    assert c0 == EmitTemp(c, Const(c.tmp, 0)) && zero.c == EmitTemp(c2, Const(c2.tmp, 0)) && zero.t == c2.tmp;
    OnBounds(c, L, A, P);
    assert ForIndex(c) == Emit(zero.c, Store(Tmp(zero.t), k));
    assert c0.code == c1.code && c0.tmp == c1.tmp && c0.lbl <= c1.lbl;
    assert forall l <- L :: l < c1.lbl;
    hide On, ForIndex, MakeConst, Emit, EmitTemp, Check;
    OnTemp(c, Const(c.tmp, 0), L, A, P);
    OnLater(c0, c1, L, L, A + {c.tmp}, P);
    OnEmit(c1, Alloca(k), L, A + {c.tmp}, P);
    OnSame(Emit(c1, Alloca(k)), c2, L, A + {c.tmp}, P);
    OnTemp(c2, Const(c2.tmp, 0), L, A + {c.tmp}, P);
    OnEmit(zero.c, Store(Tmp(zero.t), k), L, A + {c.tmp} + {c2.tmp}, P);
    OnWeaker(ForIndex(c), L, A + {c.tmp} + {c2.tmp}, A, P);
  }

  lemma BoundsOk(args: seq<Expr>, c: Ctx, L: Notes, A: set<nat>, P: set<nat>)
    requires On(c, L, A, P) && LowerBounds(args, c).c.ok
    ensures var b := LowerBounds(args, c);
      On(b.c, L, A + {b.stop} + {b.step}, P) && Has(b.c, L, b.start)
  {
    var b := LowerBounds(args, c);
    if |args| == 0 {
    } else if |args| == 1 {
      var start := MakeConst(c, 0, IntTy);
      var stop := LowerExpr(args[0], start.c);
      ExprGrows(args[0], start.c);
      hide On, Has, Onward, Prefix, PlainFrom, Extends, LowerExpr;
      OnTemp(c, Const(c.tmp, 0), L, A, P);
      OnExpr(args[0], start.c, L, A + {c.tmp}, P);
      OnMore(stop.c, L, A + {c.tmp}, P, stop.t);
      OnTemp(stop.c, Const(stop.c.tmp, 1), L, A + {c.tmp} + {stop.t}, P);
      OnHas(b.c, L, A + {c.tmp} + {stop.t} + {b.step}, P, b.start);
      OnWeaker(b.c, L, A + {c.tmp} + {stop.t} + {b.step}, A + {b.stop} + {b.step}, P);
    } else {
      var start := LowerExpr(args[0], c);
      var stop := LowerExpr(args[1], start.c);
      ExprGrows(args[1], start.c);
      if |args| > 2 {
        ExprGrows(args[2], stop.c);
      }
      hide On, Has, Onward, Prefix, PlainFrom, Extends, LowerExpr;
      OnExpr(args[0], c, L, A, P);
      OnMore(start.c, L, A, P, start.t);
      OnExpr(args[1], start.c, L, A + {start.t}, P);
      OnMore(stop.c, L, A + {start.t}, P, stop.t);
      var A1 := A + {start.t} + {stop.t};
      if |args| == 2 {
        OnTemp(stop.c, Const(stop.c.tmp, 1), L, A1, P);
      } else {
        OnExpr(args[2], stop.c, L, A1, P);
        OnMore(b.c, L, A1, P, b.step);
      }
      OnHas(b.c, L, A1 + {b.step}, P, b.start);
      OnWeaker(b.c, L, A1 + {b.step}, A + {b.stop} + {b.step}, P);
    }
  }

  /** Up to the body of a `for`. */
  lemma ForHeadOk(s: Stmt, c: Ctx, L: Notes, A: set<nat>, P: set<nat>)
    requires s.ForRange? && On(c, L, A, P) && ForEntry(s, c).c.ok
    ensures var b := ForEntry(s, c);
      var A1 := A + {b.stop} + {b.step};
      var B := A1 + {b.c.tmp};
      && On(ForHead(s, c, b), ForNotes(L, c, A1, B), B, P + {c.lbl} + {c.lbl + 1})
  {
    var b := ForEntry(s, c);
    var A1 := A + {b.stop} + {b.step};
    var cur := b.c.tmp;
    var B := A1 + {cur};
    var L1 := ForNotes(L, c, A1, B);
    OnBounds(c, L, A, P);
    ForIndexOk(c, L, A, P);
    BoundsOk(s.rangeArgs, ForIndex(c), L, A, P);
    BoundsGrows(s.rangeArgs, ForIndex(c));
    ForIndexGrows(c);
    assert b.c.lbl == c.lbl + 5;
    hide *;
    ForNotesAre(L, c, A1, B);
    ForStartOk(c, b, L, L1, A1, P);
    ForTestOk(s, c, b, L1, A1, P + {c.lbl});
  }

  lemma ForNotesAre(L: Notes, c: Ctx, A: set<nat>, B: set<nat>)
    requires A <= B && forall l <- L :: l < c.lbl
    ensures var L' := ForNotes(L, c, A, B);
      && (forall l <- L :: l in L' && L'[l] == L[l]) && (forall l <- L' :: l < c.lbl + 5)
      && Allowed(L', c.lbl, A) && L'[c.lbl] == A && Allowed(L', c.lbl + 1, B) && L'[c.lbl + 1] == B
      && Allowed(L', c.lbl + 3, A)
  {
  }

  lemma ForStartOk(c: Ctx, b: Bounds, L: Notes, L': Notes, A: set<nat>, P: set<nat>)
    requires On(b.c, L, A, P) && Has(b.c, L, b.start) && c.lbl !in P && b.c.lbl == c.lbl + 5
    requires (forall l <- L :: l in L' && L'[l] == L[l]) && (forall l <- L' :: l < c.lbl + 5) && Allowed(L', c.lbl, A)
    ensures On(ForCond(c, b), L', L'[c.lbl], P + {c.lbl})
  {
    hide On, Has;
    var st := Store(Tmp(b.start), LoopIndex(c.lbl + 4));
    var c1 := Emit(b.c, st);
    OnMore(b.c, L, A, P, b.start);
    OnEmit(b.c, st, L, A + {b.start}, P);
    OnLater(c1, c1, L, L', A + {b.start}, P);
    OffJump(c1, c.lbl, L', A + {b.start}, P);
    OnLabel(ForStart(c, b), c.lbl, L', P);
  }

  lemma ForTestOk(s: Stmt, c: Ctx, b: Bounds, L: Notes, A: set<nat>, P: set<nat>)
    requires s.ForRange? && On(ForCond(c, b), L, A, P) && b.stop in A && c.lbl + 1 !in P
    requires Allowed(L, c.lbl + 1, A + {b.c.tmp}) && Allowed(L, c.lbl + 3, A) && L[c.lbl + 1] == A + {b.c.tmp}
    ensures On(ForHead(s, c, b), L, A + {b.c.tmp}, P + {c.lbl + 1})
  {
    hide On, Has;
    var cur := b.c.tmp;
    var B := A + {cur};
    var load := Load(cur, LoopIndex(c.lbl + 4));
    var c1 := EmitTemp(ForCond(c, b), load);
    var cmp := Bin(CmpLt, c1.tmp, Tmp(cur), Tmp(b.stop));
    var c2 := EmitTemp(c1, cmp);
    OnTemp(ForCond(c, b), load, L, A, P);
    OnTemp(c1, cmp, L, B, P);
    OnHas(c2, L, B + {c1.tmp}, P, c1.tmp);
    OnBranch(c2, c1.tmp, c.lbl + 1, c.lbl + 3, L, B + {c1.tmp}, P);
    var test := ForTest(c, b);
    var decl := Declare(test, Local(s.target), I64Ty);
    if Local(s.target) !in test.vars {
      OnEmit(test, Alloca(Local(s.target)), L, B, P + {c.lbl + 1});
      OnSame(Emit(test, Alloca(Local(s.target))), decl, L, B, P + {c.lbl + 1});
    }
    OnEmit(decl, Store(Tmp(cur), Local(s.target)), L, B, P + {c.lbl + 1});
  }

  /** The increment block, up to the exit label. */
  lemma ForIncOk(d: Ctx, c: Ctx, b: Bounds, L: Notes, A: set<nat>, P: set<nat>)
    requires Off(d, L, P) && Allowed(L, c.lbl + 2, A) && L[c.lbl + 2] == A && Allowed(L, c.lbl, A) && c.lbl + 2 !in P
    requires b.c.tmp in A && b.step in A
    ensures Off(ForInc(d, c, b), L, P + {c.lbl + 2})
  {
    hide On, Off, Has;
    var P1 := P + {c.lbl + 2};
    var c1 := Emit(d, Label(c.lbl + 2));
    var add := Bin(Add, c1.tmp, Tmp(b.c.tmp), Tmp(b.step));
    var c2 := EmitTemp(c1, add);
    var st := Store(Tmp(c1.tmp), LoopIndex(c.lbl + 4));
    OnLabel(d, c.lbl + 2, L, P);
    OnTemp(c1, add, L, A, P1);
    OnEmit(c2, st, L, A + {c1.tmp}, P1);
    OffJump(Emit(c2, st), c.lbl, L, A + {c1.tmp}, P1);
  }

  /** The labels of a `for` and of its body are what it adds to the labels placed. */
  lemma ForPlaced(L: Notes, L1: Notes, L': Notes, c: Ctx, A: set<nat>, B: set<nat>, P: set<nat>)
    requires L1 == ForNotes(L, c, A, B) && L1.Keys <= L'.Keys && forall l <- L :: l < c.lbl
    ensures P + {c.lbl} + {c.lbl + 1} + (L'.Keys - L1.Keys) + {c.lbl + 2} + {c.lbl + 3} == P + (L'.Keys - L.Keys)
  {
    assert L1.Keys == L.Keys + {c.lbl, c.lbl + 1, c.lbl + 2, c.lbl + 3};
  }

  lemma {:induction false} ForOk(s: Stmt, c: Ctx, L: Notes, A: set<nat>, P: set<nat>) returns (L': Notes)
    requires s.ForRange? && On(c, L, A, P) && LowerFor(s, c).ok
    ensures Lowered(L, c.lbl, LowerFor(s, c), L', A, P)
    decreases s, 1
  {
    hide On, Off, Prefix, PlainFrom, Extends, LowerExpr, LowerStmts, Terminated, LowerFor, ForHead, ForEntry, ForIndex;
    var b, d := ForEntry(s, c), LowerFor(s, c);
    var head := ForHead(s, c, b);
    var body := JumpIfOpen(LowerStmts(s.body, head), c.lbl + 2);
    var A1 := A + {b.stop} + {b.step};
    var B := A1 + {b.c.tmp};
    var L1 := ForNotes(L, c, A1, B);
    var P1 := P + {c.lbl} + {c.lbl + 1};
    ForSteps(s, c);
    OnBounds(c, L, A, P);
    ForHeadOk(s, c, L, A, P);
    L' := BlockOk(s.body, head, c.lbl + 2, L1, B, P1);
    AddsKeeps(L1, L', head.lbl, c.lbl, B);
    AddsKeeps(L1, L', head.lbl, c.lbl + 2, B);
    AddsKeeps(L1, L', head.lbl, c.lbl + 3, B);
    var P2 := P1 + (L'.Keys - L1.Keys);
    ForIncOk(body, c, b, L', B, P2);
    OnLabel(ForInc(body, c, b), c.lbl + 3, L', P2 + {c.lbl + 2});
    var P3 := P2 + {c.lbl + 2} + {c.lbl + 3};
    AddsTrans(L, L1, L', c.lbl, head.lbl);
    ForPlaced(L, L1, L', c, A1, B, P);
    var e := Emit(ForInc(body, c, b), Label(c.lbl + 3));
    OnWeaker(e, L', A1, A, P3);
    OnSame(e, d, L', A, P3);
    OnIsPoint(d, L', A, P3);
  }
}
