/** The compiler as the program has it: an object that emits into the function it is working on. Every method is
    proved to take the state where the specification in `Lowering` says. */
module Compiler {
  import opened Words
  import opened Wrappers
  import opened Python
  import opened IR
  import L = Lowering
  import opened Lowering
  import opened Builtins
  import opened LoweringGrows
  import opened LoweringProgram

  /** `IRFunction`, with its one block: the code, and the counters of temporaries and labels. */
  class IRFunction {
    const name: string
    const params: seq<string>
    var code: Code
    var tmps: nat
    var lbls: nat

    constructor (name: string, params: seq<string>)
      ensures this.name == name && this.params == params && code == [] && tmps == 0 && lbls == 0
    {
      this.name := name;
      this.params := params;
      code := [];
      tmps := 0;
      lbls := 0;
    }

    method Tmp() returns (t: nat)
      modifies this`tmps
      ensures t == old(tmps) && tmps == old(tmps) + 1
    {
      t := tmps;
      tmps := tmps + 1;
    }

    method Label() returns (l: nat)
      modifies this`lbls
      ensures l == old(lbls) && lbls == old(lbls) + 1
    {
      l := lbls;
      lbls := lbls + 1;
    }

    method Emit(i: Instr)
      modifies this`code
      ensures code == old(code) + [i]
    {
      code := code + [i];
    }

    method IsTerminated() returns (b: bool)
      ensures b == Terminated(code)
    {
      if |code| == 0 {
        return false;
      }
      var last := code[|code| - 1];
      return last.Ret? || last.Jmp? || last.Jz? || last.Jnz?;
    }

    function Value(): IRFunc
      reads this
    {
      IRFunc(name, params, code)
    }
  }

  class IRCompiler {
    var fn: IRFunction
    var vars: map<Name, Ty>
    var funcs: map<string, string>
    var loopExit: Option<nat>
    var loopCont: Option<nat>
    /** Cleared by an exception. */
    var ok: bool
    /** The functions of the module, in the order they were added. */
    var functions: seq<IRFunction>

    /** The state the specification speaks about. */
    ghost function State(): Ctx
      reads this, fn
    {
      Ctx(fn.code, fn.tmps, fn.lbls, vars, loopExit, loopCont, funcs, ok)
    }

    constructor ()
      ensures fresh(fn) && functions == [fn] && fn.name == "main" && fn.params == []
      ensures State() == Ctx([], 0, 0, map[], None, None, map[], true)
    {
      var f := new IRFunction("main", []);
      fn := f;
      functions := [f];
      vars := map[];
      funcs := map[];
      loopExit := None;
      loopCont := None;
      ok := true;
    }

    method Emit(i: Instr)
      modifies fn`code
      ensures State() == L.Emit(old(State()), i)
    {
      fn.Emit(i);
    }

    /** `t = tmp(); emit(..., dest=t)`; the instruction is given for the temporary it will get. */
    method EmitTemp(i: Instr) returns (t: nat)
      modifies fn`code, fn`tmps
      ensures State() == L.EmitTemp(old(State()), i) && t == old(State()).tmp
    {
      t := fn.Tmp();
      fn.Emit(i);
    }

    method MakeConst(v: Word) returns (t: nat)
      modifies fn`code, fn`tmps
      ensures forall ty :: Low(State(), t, ty) == L.MakeConst(old(State()), v, ty)
    {
      t := EmitTemp(Const(fn.tmps, v));
    }

    method ToBool(t: nat, ty: Ty) returns (b: nat)
      modifies fn`code, fn`tmps
      ensures Low(State(), b, BoolTy) == L.ToBool(old(State()), t, ty)
    {
      if ty.BoolTy? {
        return t;
      }
      b := EmitTemp(Bin(CmpNe, fn.tmps, Tmp(t), Imm(0)));
    }

    method Load(x: Name) returns (t: nat)
      modifies fn`code, fn`tmps
      ensures State() == L.EmitTemp(old(State()), Instr.Load(old(State()).tmp, x)) && t == old(State()).tmp
    {
      t := EmitTemp(Instr.Load(fn.tmps, x));
    }

    /** `_alloc`. */
    method Alloc(x: Name, ty: Ty)
      modifies this`vars, fn`code
      ensures State() == L.Emit(old(State()), Alloca(x)).(vars := old(vars)[x := ty])
    {
      Emit(Alloca(x));
      vars := vars[x := ty];
    }

    // ----- expressions -----

    method Expr(e: Expr) returns (t: nat, ty: Ty)
      modifies this`ok, fn
      ensures Low(State(), t, ty) == LowerExpr(e, old(State()))
      decreases e, 1
    {
      hide LowerBuiltin, LowerUnary, LowerBinary, LowerChain, LowerAll, FoldBools;
      match e
      case IntLit(v) =>
        t := MakeConst(Wrap(v));
        ty := IntTy;
      case BoolLit(b) =>
        t := MakeConst(BoolWord(b));
        ty := BoolTy;
      case Var(x) =>
        if Local(x) in vars && !Special(x) {
          t := Load(Local(x));
          ty := vars[Local(x)];
        } else {
          ok := false;
          t, ty := 0, NoneTy;
        }
      case UnaryE(op, a) => t, ty := Unary(op, a);
      case BinaryE(_, _, _) => t, ty := Binary(e);
      case Compare(l, cmps, rs) =>
        t, ty := Expr(l);
        t := Chain(cmps, rs, t);
        ty := BoolTy;
      case BoolE(op, es) =>
        t := Bools(op, es);
        ty := BoolTy;
      case IfExp(test, a, b) =>
        var c, _ := Expr(test);
        t, ty := Expr(a);
        var f, _ := Expr(b);
        t := EmitTemp(Select(fn.tmps, Tmp(c), Tmp(t), Tmp(f)));
      case CallE(f, args) =>
        if Handled(f, |args|) {
          t, ty := CallBuiltin(f);
        } else if f in funcs {
          t := Call(funcs[f], args);
          ty := IntTy;
        } else {
          t := MakeConst(0);
          ty := NoneTy;
        }
    }

    /** The builtins that come to a constant; the others are left out. */
    method CallBuiltin(f: string) returns (t: nat, ty: Ty)
      modifies this`ok, fn
      ensures Low(State(), t, ty) == LowerBuiltin(f, old(State()))
    {
      if AlwaysTrue(f) {
        t := MakeConst(1);
        ty := BoolTy;
      } else if AlwaysZero(f) {
        t := MakeConst(0);
        ty := IntTy;
      } else {
        ok := false;
        t, ty := 0, NoneTy;
      }
    }

    method Unary(op: UnaryOp, a: Expr) returns (t: nat, ty: Ty)
      modifies this`ok, fn
      ensures Low(State(), t, ty) == LowerUnary(op, LowerExpr(a, old(State())))
      decreases a, 2
    {
      var v, vty := Expr(a);
      t := fn.Tmp();
      ty := vty;
      match op
      case Minus => Emit(Un(Neg, t, Tmp(v)));
      case Tilde => Emit(Un(BNot, t, Tmp(v)));
      case Plus => t := v;
      case LogicalNot =>
        var b := ToBool(v, vty);
        Emit(Un(Not, t, Tmp(b)));
        ty := BoolTy;
    }

    method Binary(e: Expr) returns (t: nat, ty: Ty)
      requires e.BinaryE?
      modifies this`ok, fn
      ensures Low(State(), t, ty) == LowerExpr(e, old(State()))
      decreases e, 0
    {
      BinaryIs(e, State());
      hide LowerExpr, LowerBinary;
      var a, aty := Expr(e.left);
      ghost var c := State();
      var b, bty := Expr(e.right);
      t, ty := Operate(e.op, a, aty, b, bty, c);
    }

    lemma BinaryIs(e: Expr, c: Ctx)
      requires e.BinaryE?
      ensures LowerExpr(e, c)
        == var a := LowerExpr(e.left, c); LowerBinary(e.op, a, LowerExpr(e.right, a.c))
    {
    }

    /** The operation on two lowered operands, the first widened beside a non-`bool`, or the second. */
    method Operate(op: BinOp, left: nat, lt: Ty, right: nat, rt: Ty, ghost c: Ctx) returns (t: nat, ty: Ty)
      modifies fn`code, fn`tmps
      ensures Low(State(), t, ty) == LowerBinary(op, Low(c, left, lt), Low(old(State()), right, rt))
    {
      var a, b := left, right;
      ty := lt;
      if lt != rt {
        if lt.BoolTy? {
          a := EmitTemp(Un(ZExt, fn.tmps, Tmp(a)));
          ty := IntTy;
        } else if rt.BoolTy? {
          b := EmitTemp(Un(ZExt, fn.tmps, Tmp(b)));
        }
      }
      t := EmitTemp(Bin(op, fn.tmps, Tmp(a), Tmp(b)));
    }

    /** The loop of a comparison chain. */
    method Chain(cmps: seq<BinOp>, rs: seq<Expr>, first: nat) returns (t: nat)
      modifies this`ok, fn
      ensures Low(State(), t, BoolTy) == LowerChain(cmps, rs, first, None, old(State()))
      decreases rs, 0
    {
      var left, result: Option<nat> := first, None;
      var i := 0;
      while i < |cmps| && i < |rs|
        invariant i <= |cmps| && i <= |rs|
        invariant LowerChain(cmps[i..], rs[i..], left, result, State())
          == LowerChain(cmps, rs, first, None, old(State()))
      {
        var right, _ := Expr(rs[i]);
        t := EmitTemp(Bin(cmps[i], fn.tmps, Tmp(left), Tmp(right)));
        if result.Some? {
          t := EmitTemp(Bin(And, fn.tmps, Tmp(result.value), Tmp(t)));
        }
        result := Some(t);
        left := right;
        i := i + 1;
      }
      if result.Some? {
        t := result.value;
      } else {
        t := MakeConst(0);
      }
    }

    /** The list of values, left to right. */
    method All(es: seq<Expr>) returns (ts: seq<nat>, tys: seq<Ty>)
      modifies this`ok, fn
      ensures Lows(State(), ts, tys) == LowerAll(es, old(State())) && |ts| == |tys| == |es|
      decreases es, 0
    {
      ts, tys := [], [];
      var i := 0;
      while i < |es|
        invariant i <= |es| && |ts| == |tys| == i
        invariant var rest := LowerAll(es[i..], State());
          Lows(rest.c, ts + rest.ts, tys + rest.tys) == LowerAll(es, old(State()))
      {
        ghost var c := State();
        var t, ty := Expr(es[i]);
        ghost var rest := LowerAll(es[i + 1..], State());
        assert es[i..][1..] == es[i + 1..];
        assert ts + ([t] + rest.ts) == ts + [t] + rest.ts;
        assert tys + ([ty] + rest.tys) == tys + [ty] + rest.tys;
        ts, tys := ts + [t], tys + [ty];
        i := i + 1;
      }
    }

    /** `and` and `or`: all operands, then the folding. */
    method Bools(op: BoolOp, es: seq<Expr>) returns (t: nat)
      modifies this`ok, fn
      ensures Low(State(), t, BoolTy) == LowerExpr(BoolE(op, es), old(State()))
      decreases es, 1
    {
      BoolIs(op, es, State());
      hide LowerExpr;
      if es == [] {
        ok := false;
        return 0;
      }
      hide LowerAll, FoldBools, L.ToBool;
      var ts, tys := All(es);
      t := ToBool(ts[0], tys[0]);
      t := Fold(op, ts, tys, t);
    }

    /** The folding loop, behind the first operand. */
    method Fold(op: BoolOp, ts: seq<nat>, tys: seq<Ty>, first: nat) returns (t: nat)
      requires |ts| == |tys| > 0
      modifies fn`code, fn`tmps
      ensures Low(State(), t, BoolTy) == FoldBools(op, ts[1..], tys[1..], Low(old(State()), first, BoolTy))
    {
      hide FoldOne;
      t := first;
      var i := 1;
      while i < |ts|
        invariant 1 <= i <= |ts|
        invariant FoldBools(op, ts[i..], tys[i..], Low(State(), t, BoolTy))
          == FoldBools(op, ts[1..], tys[1..], Low(old(State()), first, BoolTy))
      {
        FoldStep(op, ts, tys, i, Low(State(), t, BoolTy));
        t := FoldIn(op, ts[i], tys[i], t);
        i := i + 1;
      }
    }

    lemma FoldStep(op: BoolOp, ts: seq<nat>, tys: seq<Ty>, i: nat, acc: Low)
      requires |ts| == |tys| && i < |ts|
      ensures FoldBools(op, ts[i..], tys[i..], acc)
        == FoldBools(op, ts[i + 1..], tys[i + 1..], FoldOne(op, ts[i], tys[i], acc))
    {
      hide FoldOne;
      assert ts[i..][1..] == ts[i + 1..] && tys[i..][1..] == tys[i + 1..];
    }

    method FoldIn(op: BoolOp, v: nat, ty: Ty, acc: nat) returns (t: nat)
      modifies fn`code, fn`tmps
      ensures Low(State(), t, BoolTy) == FoldOne(op, v, ty, Low(old(State()), acc, BoolTy))
    {
      var b := ToBool(v, ty);
      t := EmitTemp(Bin(if op.AndOp? then And else Or, fn.tmps, Tmp(acc), Tmp(b)));
    }

    lemma BoolIs(op: BoolOp, es: seq<Expr>, c: Ctx)
      ensures var vs := LowerAll(es, c);
        LowerExpr(BoolE(op, es), c) ==
          if es == [] then Low(Fail(c), 0, BoolTy)
          else FoldBools(op, vs.ts[1..], vs.tys[1..], L.ToBool(vs.c, vs.ts[0], vs.tys[0]))
    {
    }

    method Call(f: string, args: seq<Expr>) returns (t: nat)
      modifies this`ok, fn
      ensures var vs := LowerAll(args, old(State()));
        && State() == L.EmitTemp(vs.c, Instr.Call(vs.c.tmp, f, TempArgs(vs.ts)))
        && t == vs.c.tmp
      decreases args, 1
    {
      var ts, _ := All(args);
      t := EmitTemp(Instr.Call(fn.tmps, f, TempArgs(ts)));
    }

    // ----- statements -----

    method StoreTo(targets: seq<string>, t: nat, ty: Ty)
      modifies this`vars, fn`code
      ensures forall c: Ctx :: State() == StoreAll(targets, Low(c, t, ty), old(State()))
    {
      var i := 0;
      while i < |targets|
        invariant i <= |targets|
        invariant forall c: Ctx ::
          StoreAll(targets[i..], Low(c, t, ty), State()) == StoreAll(targets, Low(c, t, ty), old(State()))
      {
        ghost var was := State();
        var x := Local(targets[i]);
        if x !in vars {
          Alloc(x, ty);
        }
        Emit(Store(Tmp(t), x));
        assert forall c: Ctx ::
          StoreAll(targets[i..], Low(c, t, ty), was) == StoreAll(targets[i + 1..], Low(c, t, ty), State())
        by {
          assert targets[i..][1..] == targets[i + 1..];
        }
        i := i + 1;
      }
    }

    /** `emit("jmp", l)` unless the code ends in a jump or a return. */
    method JumpUnlessEnded(l: nat)
      modifies fn`code
      ensures State() == JumpIfOpen(old(State()), l)
    {
      var ended := fn.IsTerminated();
      if !ended {
        Emit(Jmp(l));
      }
    }

    method EmitBranch(t: nat, yes: nat, no: nat)
      modifies fn`code
      ensures State() == L.Branch(old(State()), t, yes, no)
    {
      Emit(Jnz(Tmp(t), yes));
      Emit(Jmp(no));
      Emit(Instr.Label(yes));
    }

    method Stmt(s: Stmt)
      modifies this`vars, this`ok, this`loopExit, this`loopCont, fn
      ensures State() == LowerStmt(s, old(State()))
      decreases s, 2
    {
      hide LowerExpr, LowerIf, LowerWhile, LowerFor, StoreAll;
      var ended := fn.IsTerminated();
      if ended {
        return;
      }
      match s
      case Assign(targets, e) =>
        var t, ty := Expr(e);
        StoreTo(targets, t, ty);
      case AugAssign(x, op, e) => Augment(x, op, e);
      case CallStmt(e) => var _, _ := Expr(e);
      case If(_, _, _, _) => IfStmt(s);
      case While(_, _) => WhileStmt(s);
      case ForRange(_, _, _) => ForStmt(s);
      case Return(e) => ReturnStmt(e);
      case Break =>
        if loopExit.Some? {
          Emit(Jmp(loopExit.value));
        }
      case Continue =>
        if loopCont.Some? {
          Emit(Jmp(loopCont.value));
        }
      case Pass =>
    }

    method ReturnStmt(e: Option<Expr>)
      requires !Terminated(fn.code)
      modifies this`ok, fn
      ensures State() == LowerStmt(Return(e), old(State()))
    {
      hide LowerExpr;
      var t: nat;
      if e.Some? {
        var v, ty := Expr(e.value);
        t := v;
      } else {
        t := MakeConst(0);
      }
      Emit(Ret(Tmp(t)));
    }

    method Augment(x: string, op: BinOp, e: Expr)
      requires !Terminated(fn.code)
      modifies this`ok, fn
      ensures State() == LowerStmt(AugAssign(x, op, e), old(State()))
    {
      if Local(x) !in vars {
        ok := false;
        return;
      }
      var cur := Load(Local(x));
      var right, _ := Expr(e);
      var t := EmitTemp(Bin(op, fn.tmps, Tmp(cur), Tmp(right)));
      Emit(Store(Tmp(t), Local(x)));
    }

    method Stmts(ss: seq<Stmt>)
      modifies this`vars, this`ok, this`loopExit, this`loopCont, fn
      ensures State() == LowerStmts(ss, old(State()))
      decreases ss, 0
    {
      var i := 0;
      while i < |ss|
        invariant i <= |ss|
        invariant LowerStmts(ss[i..], State()) == LowerStmts(ss, old(State()))
      {
        Stmt(ss[i]);
        i := i + 1;
      }
    }

    /** The labels of the `elif` arms: a test and a body label for each. */
    method ElifLabels(n: nat) returns (ls: seq<(nat, nat)>)
      modifies fn`lbls
      ensures |ls| == n && State() == old(State()).(lbl := old(fn.lbls) + 2 * n)
      ensures forall i | 0 <= i < n :: ls[i] == (old(fn.lbls) + 2 * i, old(fn.lbls) + 2 * i + 1)
    {
      ls := [];
      while |ls| < n
        invariant |ls| <= n && State() == old(State()).(lbl := old(fn.lbls) + 2 * |ls|)
        invariant forall i | 0 <= i < |ls| :: ls[i] == (old(fn.lbls) + 2 * i, old(fn.lbls) + 2 * i + 1)
      {
        var test := fn.Label();
        var body := fn.Label();
        ls := ls + [(test, body)];
      }
    }

    /** The labels of an `if`, allocated after its test. */
    method NewIfLabels(s: Stmt) returns (ls: IfLabelSet)
      requires s.If?
      modifies fn`lbls
      ensures State() == L.IfLabels(s, old(State())) && ls.Fits(s, old(State()))
    {
      var yes := fn.Label();
      var merge := fn.Label();
      var elifs := ElifLabels(|s.elifs|);
      var no := merge;
      if s.orelse != [] {
        no := fn.Label();
      }
      ls := IfLabelSet(yes, merge, elifs, no);
    }

    method IfStmt(s: Stmt)
      requires s.If?
      modifies this`vars, this`ok, this`loopExit, this`loopCont, fn
      ensures State() == LowerIf(s, old(State()))
      decreases s, 1
    {
      hide LowerExpr, LowerStmts, LowerElifs, L.Branch, JumpIfOpen, LowerIf, L.IfLabels;
      ghost var c := State();
      var t, ty := Expr(s.test);
      ghost var r := Low(State(), t, ty);
      var ls := NewIfLabels(s);
      EmitBranch(t, ls.yes, ls.First());
      Stmts(s.body);
      JumpUnlessEnded(ls.merge);
      assert State() == IfBody(s, r);
      Elifs(s, r.c, ls);
      if s.orelse != [] {
        Emit(Instr.Label(ls.no));
        Stmts(s.orelse);
        JumpUnlessEnded(ls.merge);
      }
      Emit(Instr.Label(ls.merge));
      IfIs(s, c, r);
    }

    lemma IfIs(s: Stmt, c: Ctx, r: Low)
      requires s.If? && r == LowerExpr(s.test, c)
      ensures LowerIf(s, c)
        == L.Emit(IfTail(s, r.c, LowerElifs(s, 0, r.c, IfBody(s, r))), Instr.Label(MergeLabel(r.c)))
    {
      hide LowerExpr, LowerElifs, IfBody, IfTail;
    }

    method Elifs(s: Stmt, ghost at: Ctx, ls: IfLabelSet)
      requires s.If? && ls.Fits(s, at)
      modifies this`vars, this`ok, this`loopExit, this`loopCont, fn
      ensures State() == LowerElifs(s, 0, at, old(State()))
      decreases s, 0
    {
      var i := 0;
      while i < |s.elifs|
        invariant i <= |s.elifs|
        invariant LowerElifs(s, i, at, State()) == LowerElifs(s, 0, at, old(State()))
      {
        Emit(Instr.Label(ls.elifs[i].0));
        var t, _ := Expr(s.elifs[i].test);
        EmitBranch(t, ls.elifs[i].1, if i + 1 < |ls.elifs| then ls.elifs[i + 1].0 else ls.no);
        Stmts(s.elifs[i].body);
        JumpUnlessEnded(ls.merge);
        i := i + 1;
      }
    }

    /** The labels of a `while`, and its head. */
    method EnterWhile() returns (cond: nat, body: nat, exit: nat)
      modifies this`loopExit, this`loopCont, fn`lbls, fn`code
      ensures State() == WhileHead(old(State()))
      ensures cond == old(State()).lbl && body == cond + 1 && exit == cond + 2
    {
      cond := fn.Label();
      body := fn.Label();
      exit := fn.Label();
      loopExit, loopCont := Some(exit), Some(cond);
      Emit(Jmp(cond));
      Emit(Instr.Label(cond));
    }

    /** Back to the labels of the enclosing loop, and the exit label of this one. */
    method LeaveLoop(exit: nat, prevExit: Option<nat>, prevCont: Option<nat>, ghost c: Ctx)
      requires State().exit == Some(exit) && prevExit == c.exit && prevCont == c.cont
      modifies this`loopExit, this`loopCont, fn`code
      ensures State() == CloseLoop(old(State()), c)
    {
      loopExit, loopCont := prevExit, prevCont;
      Emit(Instr.Label(exit));
    }

    method WhileStmt(s: Stmt)
      requires s.While?
      modifies this`vars, this`ok, this`loopExit, this`loopCont, fn
      ensures State() == LowerWhile(s, old(State()))
      decreases s, 1
    {
      hide LowerExpr, LowerStmts, L.Branch, JumpIfOpen, WhileHead, CloseLoop, Grows;
      ghost var c := State();
      var prevExit, prevCont := loopExit, loopCont;
      var cond, body, exit := EnterWhile();
      var t, ty := Expr(s.test);
      ghost var r := Low(State(), t, ty);
      EmitBranch(t, body, exit);
      Stmts(s.body);
      JumpUnlessEnded(cond);
      WhileGoesOn(s, c, r);
      LeaveLoop(exit, prevExit, prevCont, c);
    }

    lemma WhileGoesOn(s: Stmt, c: Ctx, r: Low)
      requires s.While? && r == LowerExpr(s.test, WhileHead(c))
      ensures JumpIfOpen(LowerStmts(s.body, L.Branch(r.c, r.t, c.lbl + 1, c.lbl + 2)), c.lbl).exit == Some(c.lbl + 2)
    {
      ExprGrows(s.test, WhileHead(c));
      BranchGrows(r.c, r.t, c.lbl + 1, c.lbl + 2);
      BlockGrows(s.body, L.Branch(r.c, r.t, c.lbl + 1, c.lbl + 2), c.lbl);
      hide LowerStmts, LowerExpr, Prefix, Extends, L.Branch, JumpIfOpen;
    }

    /** Start, stop and step. */
    method RangeBounds(args: seq<Expr>) returns (start: nat, stop: nat, step: nat)
      modifies this`ok, fn
      ensures Bounds(State(), start, stop, step) == LowerBounds(args, old(State()))
    {
      var ty: Ty;
      if |args| == 0 {
        ok := false;
        start, stop, step := 0, 0, 0;
      } else if |args| == 1 {
        start := MakeConst(0);
        stop, ty := Expr(args[0]);
        step := MakeConst(1);
      } else if |args| == 2 {
        start, ty := Expr(args[0]);
        stop, ty := Expr(args[1]);
        step := MakeConst(1);
      } else {
        start, ty := Expr(args[0]);
        stop, ty := Expr(args[1]);
        step, ty := Expr(args[2]);
      }
    }

    /** From the store of the start value to the store of the loop variable. */
    method ForTop(s: Stmt, ls: ForLabels, start: nat, stop: nat, ghost c: Ctx, ghost step: nat) returns (cur: nat)
      requires s.ForRange? && ls == NewForLabels(c.lbl)
      modifies this`vars, fn`code, fn`tmps
      ensures State() == ForHead(s, c, Bounds(old(State()), start, stop, step)) && cur == old(State()).tmp
    {
      hide L.Branch;
      Emit(Store(Tmp(start), LoopIndex(ls.idx)));
      Emit(Jmp(ls.cond));
      Emit(Instr.Label(ls.cond));
      cur := Load(LoopIndex(ls.idx));
      var less := EmitTemp(Bin(CmpLt, fn.tmps, Tmp(cur), Tmp(stop)));
      EmitBranch(less, ls.body, ls.exit);
      StoreTarget(s.target, cur);
    }

    method StoreTarget(x: string, cur: nat)
      modifies this`vars, fn`code
      ensures State() == L.Emit(Declare(old(State()), Local(x), I64Ty), Store(Tmp(cur), Local(x)))
    {
      if Local(x) !in vars {
        Alloc(Local(x), I64Ty);
      }
      Emit(Store(Tmp(cur), Local(x)));
    }

    method ForBottom(ls: ForLabels, cur: nat, step: nat, ghost c: Ctx, ghost b: Bounds)
      requires ls == NewForLabels(c.lbl) && cur == b.c.tmp && step == b.step
      modifies fn`code, fn`tmps
      ensures State() == ForInc(old(State()), c, b)
    {
      Emit(Instr.Label(ls.inc));
      var next := EmitTemp(Bin(Add, fn.tmps, Tmp(cur), Tmp(step)));
      Emit(Store(Tmp(next), LoopIndex(ls.idx)));
      Emit(Jmp(ls.cond));
    }

    method ForStmt(s: Stmt)
      requires s.ForRange?
      modifies this`vars, this`ok, this`loopExit, this`loopCont, fn
      ensures State() == LowerFor(s, old(State()))
      decreases s, 1
    {
      hide LowerBounds, LowerStmts, JumpIfOpen, ForIndex, ForHead, ForInc, CloseLoop;
      ghost var c := State();
      var prevExit, prevCont := loopExit, loopCont;
      var ls := ForSetup();
      var start, stop, step := RangeBounds(s.rangeArgs);
      ghost var b := Bounds(State(), start, stop, step);
      var cur := ForTop(s, ls, start, stop, c, step);
      Stmts(s.body);
      JumpUnlessEnded(ls.inc);
      ForBottom(ls, cur, step, c, b);
      ForGoesOn(s, c, b);
      LeaveLoop(ls.exit, prevExit, prevCont, c);
    }

    lemma ForGoesOn(s: Stmt, c: Ctx, b: Bounds)
      requires s.ForRange? && b == ForEntry(s, c)
      ensures ForInc(JumpIfOpen(LowerStmts(s.body, ForHead(s, c, b)), c.lbl + 2), c, b).exit == Some(c.lbl + 3)
    {
      var body := JumpIfOpen(LowerStmts(s.body, ForHead(s, c, b)), c.lbl + 2);
      ForIndexGrows(c);
      BoundsGrows(s.rangeArgs, ForIndex(c));
      ForHeadGrows(s, c, b);
      BlockGrows(s.body, ForHead(s, c, b), c.lbl + 2);
      ForIncGrows(body, c, b);
      hide LowerStmts, LowerBounds, Prefix, Extends, ForIndex, ForHead, ForInc, JumpIfOpen;
    }

    /** The unused value of the iterable, the labels, and the hidden index. */
    method ForSetup() returns (ls: ForLabels)
      modifies this`vars, this`loopExit, this`loopCont, fn
      ensures State() == ForIndex(old(State()))
      ensures ls == NewForLabels(old(fn.lbls))
    {
      var unused := MakeConst(0);
      var cond := fn.Label();
      var body := fn.Label();
      var inc := fn.Label();
      var exit := fn.Label();
      loopExit, loopCont := Some(exit), Some(inc);
      var idx := fn.Label();
      ls := ForLabels(cond, body, inc, exit, idx);
      DeclareIndex(idx);
    }

    method DeclareIndex(idx: nat)
      modifies this`vars, fn`code, fn`tmps
      ensures var c := old(State());
        var zero := L.MakeConst(L.Emit(c, Alloca(LoopIndex(idx))).(vars := c.vars[LoopIndex(idx) := I64Ty]), 0, IntTy);
        State() == L.Emit(zero.c, Store(Tmp(zero.t), LoopIndex(idx)))
    {
      Alloc(LoopIndex(idx), I64Ty);
      var zero := MakeConst(0);
      Emit(Store(Tmp(zero), LoopIndex(idx)));
    }

    // ----- functions -----

    method DeclareParams(params: seq<string>)
      modifies this`vars, fn`code
      ensures State() == L.DeclareParams(params, old(State()))
    {
      var i := 0;
      while i < |params|
        invariant i <= |params|
        invariant L.DeclareParams(params[i..], State()) == L.DeclareParams(params, old(State()))
      {
        Alloc(Local(params[i]), I64Ty);
        i := i + 1;
      }
    }

    /** `return 0` where the body can fall through. */
    method Close()
      modifies fn`code, fn`tmps
      ensures State() == CloseBody(old(State()))
    {
      var ended := fn.IsTerminated();
      if !ended {
        ghost var r := L.MakeConst(State(), 0, IntTy);
        var zero := MakeConst(0);
        assert State() == r.c && zero == r.t;
        Emit(Ret(Tmp(zero)));
      }
    }

    /** `_funcdef`: compiles into a new function of the module, and leaves the enclosing function, its names and its
        loop as they were; from then on the function is known. */
    method FuncDef(d: FuncDef)
      requires ok
      modifies this
      ensures |functions| == |old(functions)| + 1 && functions[..|old(functions)|] == old(functions)
      ensures fn == old(fn)
      ensures fresh(functions[|old(functions)|])
      ensures var funcs' := old(funcs)[d.name := NativeName(d.name)];
        var body := LowerBody(d.params, d.body, old(vars), funcs');
        && functions[|old(functions)|].Value() == IRFunc(NativeName(d.name), d.params, body.code)
        && State() == old(State()).(funcs := funcs', ok := body.ok)
    {
      var savedVars, savedFn, savedExit, savedCont := vars, fn, loopExit, loopCont;
      var name := d.name;
      if name == "main" {
        name := "__pycc_user_main";
      }
      var f := new IRFunction(name, d.params);
      functions := functions + [f];
      funcs := funcs[d.name := name];
      fn := f;
      loopExit, loopCont := None, None;
      ghost var start := State();
      Body(d.params, d.body);
      FuncsKept(d, start);
      vars, fn, loopExit, loopCont := savedVars, savedFn, savedExit, savedCont;
    }

    method Body(params: seq<string>, body: seq<Stmt>)
      modifies this`vars, this`ok, this`loopExit, this`loopCont, fn
      ensures State() == CloseBody(LowerStmts(body, L.DeclareParams(params, old(State()))))
    {
      DeclareParams(params);
      Stmts(body);
      Close();
    }

    lemma FuncsKept(d: FuncDef, c: Ctx)
      ensures CloseBody(LowerStmts(d.body, L.DeclareParams(d.params, c))).funcs == c.funcs
    {
      ParamsFixed(d.params, c);
      StmtsGrows(d.body, L.DeclareParams(d.params, c));
      hide LowerStmts, Prefix, Extends;
    }

    // ----- programs -----

    /** The compiler before the definition number `i`: the functions so far are compiled, nothing is emitted into the
        entry point. */
    ghost predicate Midway(defs: seq<FuncDef>, i: nat)
      requires i <= |defs|
      reads this, fn, functions
    {
      && |functions| == i + 1 && functions[0] == fn && fn !in functions[1..]
      && fn.name == "main" && fn.params == []
      && Values(functions[1..]) == LowerDefs(defs, i)
      && State() == Ctx([], 0, 0, map[], None, None, Known(defs, i), true)
    }

    method NextDef(defs: seq<FuncDef>, i: nat)
      requires i < |defs| && Midway(defs, i)
      modifies this
      ensures fn == old(fn) && ok == LowerDef(defs, i).ok
      ensures ok ==> Midway(defs, i + 1)
      ensures |functions| == i + 2 && fresh(functions[i + 1]) && functions[..i + 1] == old(functions)
    {
      ghost var before := functions;
      FuncDef(defs[i]);
      hide LowerBody;
      ValuesAppend(before[1..], functions[i + 1]);
      assert functions[1..] == before[1..] + [functions[i + 1]];
    }

    /** `compile`, up to the choice of a backend: the entry point, with each function compiled when its definition is
        met. An exception ends it. */
    method Compile(p: Program)
      requires Midway(p.defs, 0)
      modifies this, fn
      ensures ok <==> (forall i | 0 <= i < |p.defs| :: LowerDef(p.defs, i).ok) && LowerMain(p).ok
      ensures ok ==> Values(functions) == LowerProgram(p)
    {
      hide LowerDef, LowerMain, LowerProgram;
      var i := 0;
      while i < |p.defs|
        invariant i <= |p.defs| && fn == old(fn) && Midway(p.defs, i)
        invariant forall j | 0 <= j < i :: LowerDef(p.defs, j).ok
      {
        NextDef(p.defs, i);
        if !ok {
          assert !LowerDef(p.defs, i).ok;
          return;
        }
        i := i + 1;
      }
      TopLevel(p);
    }

    method TopLevel(p: Program)
      requires Midway(p.defs, |p.defs|)
      modifies this, fn
      ensures ok == LowerMain(p).ok && Values(functions) == LowerProgram(p)
    {
      Body([], p.main);
      assert State() == LowerMain(p);
      assert functions == [fn] + functions[1..];
      hide LowerBody, LowerStmts, CloseBody;
    }
  }

  /** The whole compilation of a program, to the IR module. */
  method CompileProgram(p: Program) returns (ok: bool, fs: seq<IRFunc>)
    ensures ok <==> (forall i | 0 <= i < |p.defs| :: LowerDef(p.defs, i).ok) && LowerMain(p).ok
    ensures ok ==> fs == LowerProgram(p)
  {
    var c := new IRCompiler();
    c.Compile(p);
    ok, fs := c.ok, Values(c.functions);
  }

  function Values(fs: seq<IRFunction>): seq<IRFunc>
    reads fs
  {
    if fs == [] then [] else [fs[0].Value()] + Values(fs[1..])
  }

  lemma {:induction false} ValuesAppend(fs: seq<IRFunction>, f: IRFunction)
    ensures Values(fs + [f]) == Values(fs) + [f.Value()]
    decreases |fs|
  {
    if fs == [] {
      assert fs + [f] == [f];
    } else {
      ValuesAppend(fs[1..], f);
      assert (fs + [f])[1..] == fs[1..] + [f];
    }
  }

  datatype ForLabels = ForLabels(cond: nat, body: nat, inc: nat, exit: nat, idx: nat)

  function NewForLabels(l: nat): ForLabels {
    ForLabels(l, l + 1, l + 2, l + 3, l + 4)
  }

  datatype IfLabelSet = IfLabelSet(yes: nat, merge: nat, elifs: seq<(nat, nat)>, no: nat) {
    /** Where control goes when the first test fails. */
    function First(): nat {
      if elifs != [] then elifs[0].0 else no
    }

    /** The labels of the `if` statement `s` compiled at `at`. */
    ghost predicate Fits(s: Stmt, at: Ctx)
      requires s.If?
    {
      && yes == ThenLabel(at) && merge == MergeLabel(at) && no == ElseLabel(s, at)
      && |elifs| == |s.elifs|
      && forall i | 0 <= i < |elifs| :: elifs[i] == (TestLabel(at, i), BodyLabel(at, i))
    }
  }
}
