/** What the typing discipline keeps out. The compiler gives sums, complements and negations of `bool`s, and
    conditionals whose first arm is one, the type `bool`, and then takes their values for truth values as they are; and
    it handles some names itself before it looks for a function of the program, and takes a call of a function that is
    defined later for a constant. */
module TypingNeeded {
  import opened Words
  import opened Wrappers
  import opened Python
  import opened IR
  import opened Lowering
  import opened Builtins
  import opened LoweringGrows
  import opened LoweringProgram

  // ----- one value that is no bit, and `and` or `or` -----

  function Start(): Ctx {
    Ctx([], 0, 0, map[], None, None, map[], true)
  }

  /** `return e and True`, or `return e or False` */
  function Body(op: BoolOp, e: Expr): seq<Stmt> {
    [Return(Some(BoolE(op, [e, BoolLit(op.AndOp?)])))]
  }

  /** What is emitted for it behind the code of `e`, when the compiler takes `e` for a `bool`. */
  function Code3(op: BoolOp, before: Code, t: nat, n: nat): Code {
    before + [Const(n, BoolWord(op.AndOp?)), Bin(if op.AndOp? then And else Or, n + 1, Tmp(t), Tmp(n)), Ret(Tmp(n + 1))]
  }

  lemma BodyLowers(op: BoolOp, e: Expr)
    requires LowerExpr(e, Start()).ty == BoolTy
    ensures var r := LowerExpr(e, Start());
      LowerBody([], Body(op, e), map[], map[]).code == Code3(op, r.c.code, r.t, r.c.tmp)
    ensures LowerBody([], Body(op, e), map[], map[]).ok == LowerExpr(e, Start()).c.ok
  {
    BothLower(op, e);
    hide LowerExpr;
    var c := Start();
    assert Body(op, e)[1..] == [];
    assert LowerStmts(Body(op, e), c) == LowerStmt(Body(op, e)[0], c);
  }

  lemma BothLower(op: BoolOp, e: Expr)
    requires LowerExpr(e, Start()).ty == BoolTy
    ensures var r := LowerExpr(e, Start());
      var c1 := EmitTemp(r.c, Const(r.c.tmp, BoolWord(op.AndOp?)));
      LowerExpr(BoolE(op, [e, BoolLit(op.AndOp?)]), Start())
        == Low(EmitTemp(c1, Bin(if op.AndOp? then And else Or, c1.tmp, Tmp(r.t), Tmp(r.c.tmp))), c1.tmp, BoolTy)
  {
    var c, last := Start(), BoolLit(op.AndOp?);
    var r := LowerExpr(e, c);
    var l := MakeConst(r.c, BoolWord(op.AndOp?), BoolTy);
    assert [e, last][1..] == [last] && [last][1..] == [];
    assert LowerAll([last], r.c) == Lows(l.c, [l.t], [BoolTy]);
    assert LowerAll([e, last], c) == Lows(l.c, [r.t, l.t], [BoolTy, BoolTy]);
    hide LowerAll;
    assert [r.t, l.t][1..] == [l.t] && [BoolTy, BoolTy][1..] == [BoolTy];
    assert FoldBools(op, [l.t], [BoolTy], Low(l.c, r.t, BoolTy)) == FoldOne(op, l.t, BoolTy, Low(l.c, r.t, BoolTy)) by {
      assert [l.t][1..] == [];
    }
  }

  lemma BodyMeans(F: CallEnv, op: BoolOp, e: Expr, v: Word, fuel: nat)
    requires EvalExpr(F, e, map[]) == Val(v) && v != 0
    ensures ExecAll(F, Body(op, e), map[], fuel) == Returned(1)
  {
    var last := BoolLit(op.AndOp?);
    var vs: seq<Word>, one: seq<Word> := [v, BoolWord(op.AndOp?)], [BoolWord(op.AndOp?)];
    assert [e, last][1..] == [last] && [last][1..] == [];
    assert EvalAll(F, [last], map[]) == Val(one) by {
      assert one == [one[0]] + [];
    }
    assert EvalAll(F, [e, last], map[]) == Val(vs) by {
      assert vs == [vs[0]] + one;
    }
    assert vs[0] in vs;
  }

  /** The last three instructions combine the value as it is. */
  lemma LastThree(F: CallEnv, op: BoolOp, before: Code, t: nat, n: nat, from: State, T: Temps, v: Word, u: Word)
    requires t in T && T[t] == v && t != n
    requires u == Bitwise(if op.AndOp? then AndBits else OrBits, v, BoolWord(op.AndOp?))
    requires Reaches(Code3(op, before, t, n), F, from, Run(|before|, T, map[]))
    ensures Reaches(Code3(op, before, t, n), F, from, Done(u))
  {
    hide Bitwise;
    var code, k := Code3(op, before, t, n), |before|;
    var T1 := T[n := BoolWord(op.AndOp?)];
    var T2 := T1[n + 1 := u];
    ReachesStep(code, F, Run(k, T, map[]));
    ReachesStep(code, F, Run(k + 1, T1, map[]));
    ReachesStep(code, F, Run(k + 2, T2, map[]));
    hide Reaches;
    ReachesTrans(code, F, from, Run(k, T, map[]), Run(k + 1, T1, map[]));
    ReachesTrans(code, F, from, Run(k + 1, T1, map[]), Run(k + 2, T2, map[]));
    ReachesTrans(code, F, from, Run(k + 2, T2, map[]), Done(u));
  }

  lemma TwoAndOne()
    ensures Bitwise(AndBits, 2, 1) == 0
  {
    assert Bits(AndBits, 1, 0) == 2 * Bits(AndBits, 0, 0) + 0;
    assert Bits(AndBits, 2, 1) == 2 * Bits(AndBits, 1, 0) + 0;
  }

  /** `(True + True) and True`: the source returns 1, the compiled function 0. */
  lemma BoolSumDiffers(F: CallEnv, fuel: nat)
    ensures var b := Body(AndOp, BinaryE(Add, BoolLit(true), BoolLit(true)));
      && ExecAll(F, b, map[], fuel) == Returned(1) && LowerBody([], b, map[], map[]).ok
      && Reaches(LowerBody([], b, map[], map[]).code, F, Run(0, map[], map[]), Done(0))
  {
    var e := BinaryE(Add, BoolLit(true), BoolLit(true));
    var before := [Const(0, 1), Const(1, 1), Bin(Add, 2, Tmp(0), Tmp(1))];
    BodyLowers(AndOp, e);
    assert LowerExpr(e, Start()).c.code == before;
    BodyMeans(F, AndOp, e, 2, fuel);
    TwoAndOne();
    hide Bits, Bitwise, LowerBody, Reaches;
    SumSteps(F, Code3(AndOp, before, 2, 3));
    LastThree(F, AndOp, before, 2, 3, Run(0, map[], map[]), map[0 := 1, 1 := 1, 2 := 2], 2, 0);
  }

  lemma SumSteps(F: CallEnv, code: Code)
    requires [Const(0, 1), Const(1, 1), Bin(Add, 2, Tmp(0), Tmp(1))] <= code
    ensures Reaches(code, F, Run(0, map[], map[]), Run(3, map[0 := 1, 1 := 1, 2 := 2], map[]))
  {
    var s := Run(0, map[], map[]);
    var T0: Temps, T1: Temps, T2: Temps := map[0 := 1], map[0 := 1, 1 := 1], map[0 := 1, 1 := 1, 2 := 2];
    assert map[][0 := 1] == T0 && T0[1 := 1] == T1 && T1[2 := 2] == T2;
    assert code[0] == Const(0, 1) && code[1] == Const(1, 1) && code[2] == Bin(Add, 2, Tmp(0), Tmp(1));
    ReachesStep(code, F, s);
    ReachesStep(code, F, Run(1, T0, map[]));
    ReachesStep(code, F, Run(2, T1, map[]));
    hide Reaches;
    ReachesTrans(code, F, s, Run(1, T0, map[]), Run(2, T1, map[]));
    ReachesTrans(code, F, s, Run(2, T1, map[]), Run(3, T2, map[]));
  }

  /** `~True and True`: the source returns 1, the compiled function 0. */
  lemma ComplementDiffers(F: CallEnv, fuel: nat)
    ensures var b := Body(AndOp, UnaryE(Tilde, BoolLit(true)));
      && ExecAll(F, b, map[], fuel) == Returned(1) && LowerBody([], b, map[], map[]).ok
      && Reaches(LowerBody([], b, map[], map[]).code, F, Run(0, map[], map[]), Done(0))
  {
    var e := UnaryE(Tilde, BoolLit(true));
    var before := [Const(0, 1), Un(BNot, 1, Tmp(0))];
    BodyLowers(AndOp, e);
    assert LowerExpr(e, Start()).c.code == before;
    BodyMeans(F, AndOp, e, -2, fuel);
    OddBits();
    hide Bits, Bitwise, LowerBody, Reaches;
    TwoSteps(F, BNot, Code3(AndOp, before, 1, 2), -2);
    LastThree(F, AndOp, before, 1, 2, Run(0, map[], map[]), map[0 := 1, 1 := -2], -2, 0);
  }

  /** `-True or False`: the source returns 1, the compiled function -1. */
  lemma NegationDiffers(F: CallEnv, fuel: nat)
    ensures var b := Body(OrOp, UnaryE(Minus, BoolLit(true)));
      && ExecAll(F, b, map[], fuel) == Returned(1) && LowerBody([], b, map[], map[]).ok
      && Reaches(LowerBody([], b, map[], map[]).code, F, Run(0, map[], map[]), Done(-1))
  {
    var e := UnaryE(Minus, BoolLit(true));
    var before := [Const(0, 1), Un(Neg, 1, Tmp(0))];
    NegationLowers();
    BodyLowers(OrOp, e);
    BodyMeans(F, OrOp, e, -1, fuel);
    AllBits();
    hide Bits, Bitwise, LowerBody, Reaches;
    TwoSteps(F, Neg, Code3(OrOp, before, 1, 2), -1);
    LastThree(F, OrOp, before, 1, 2, Run(0, map[], map[]), map[0 := 1, 1 := -1], -1, -1);
  }

  lemma NegationLowers()
    ensures var r := LowerExpr(UnaryE(Minus, BoolLit(true)), Start());
      r.c.code == [Const(0, 1), Un(Neg, 1, Tmp(0))] && r.ty == BoolTy && r.c.ok && r.t == 1 && r.c.tmp == 2
  {
  }

  /** The first two instructions. */
  lemma TwoSteps(F: CallEnv, op: UnOp, code: Code, v: Word)
    requires [Const(0, 1), Un(op, 1, Tmp(0))] <= code && Words.Unary(op, 1) == v
    ensures Reaches(code, F, Run(0, map[], map[]), Run(2, map[0 := 1, 1 := v], map[]))
  {
    var T0: Temps := map[0 := 1];
    assert code[0] == Const(0, 1) && code[1] == Un(op, 1, Tmp(0));
    assert map[][0 := 1] == T0 && T0[1 := v] == map[0 := 1, 1 := v];
    ReachesStep(code, F, Run(0, map[], map[]));
    ReachesStep(code, F, Run(1, T0, map[]));
    ReachesTrans(code, F, Run(0, map[], map[]), Run(1, T0, map[]), Run(2, map[0 := 1, 1 := v], map[]));
  }

  lemma OddBits()
    ensures Bitwise(AndBits, -2, 1) == 0
  {
    hide Bits;
    EvenAndOne(Unsigned(-2));
  }

  lemma {:induction false} EvenAndOne(a: nat)
    requires a % 2 == 0
    ensures Bits(AndBits, a, 1) == 0
  {
    AndZero(a / 2);
  }

  lemma {:induction false} AndZero(a: nat)
    ensures Bits(AndBits, a, 0) == 0
    decreases a
  {
    if a > 0 {
      AndZero(a / 2);
    }
  }

  lemma AllBits()
    ensures Bitwise(OrBits, -1, 0) == -1
  {
    hide Bits;
    OrZero(Unsigned(-1));
  }

  lemma {:induction false} OrZero(a: nat)
    ensures Bits(OrBits, a, 0) == a
    decreases a
  {
    if a > 0 {
      OrZero(a / 2);
    }
  }

  /** `(True if False else 2) and True`: the source returns 1, the compiled function 0. */
  lemma MixedArmsDiffer(F: CallEnv, fuel: nat)
    ensures var b := Body(AndOp, IfExp(BoolLit(false), BoolLit(true), IntLit(2)));
      && ExecAll(F, b, map[], fuel) == Returned(1) && LowerBody([], b, map[], map[]).ok
      && Reaches(LowerBody([], b, map[], map[]).code, F, Run(0, map[], map[]), Done(0))
  {
    var e := IfExp(BoolLit(false), BoolLit(true), IntLit(2));
    var before := [Const(0, 0), Const(1, 1), Const(2, 2), Select(3, Tmp(0), Tmp(1), Tmp(2))];
    BodyLowers(AndOp, e);
    assert LowerExpr(e, Start()).c.code == before;
    BodyMeans(F, AndOp, e, 2, fuel);
    TwoAndOne();
    hide Bits, Bitwise, LowerBody, Reaches;
    SelectSteps(F, Code3(AndOp, before, 3, 4));
    LastThree(F, AndOp, before, 3, 4, Run(0, map[], map[]), map[0 := 0, 1 := 1, 2 := 2, 3 := 2], 2, 0);
  }

  lemma SelectSteps(F: CallEnv, code: Code)
    requires [Const(0, 0), Const(1, 1), Const(2, 2), Select(3, Tmp(0), Tmp(1), Tmp(2))] <= code
    ensures Reaches(code, F, Run(0, map[], map[]), Run(4, map[0 := 0, 1 := 1, 2 := 2, 3 := 2], map[]))
  {
    var s := Run(0, map[], map[]);
    var T0: Temps, T1: Temps, T2: Temps := map[0 := 0], map[0 := 0, 1 := 1], map[0 := 0, 1 := 1, 2 := 2];
    var T3: Temps := map[0 := 0, 1 := 1, 2 := 2, 3 := 2];
    assert map[][0 := 0] == T0 && T0[1 := 1] == T1 && T1[2 := 2] == T2 && T2[3 := 2] == T3;
    assert code[0] == Const(0, 0) && code[1] == Const(1, 1) && code[2] == Const(2, 2);
    assert code[3] == Select(3, Tmp(0), Tmp(1), Tmp(2));
    ReachesStep(code, F, s);
    ReachesStep(code, F, Run(1, T0, map[]));
    ReachesStep(code, F, Run(2, T1, map[]));
    ReachesStep(code, F, Run(3, T2, map[]));
    hide Reaches;
    ReachesTrans(code, F, s, Run(1, T0, map[]), Run(2, T1, map[]));
    ReachesTrans(code, F, s, Run(2, T1, map[]), Run(3, T2, map[]));
    ReachesTrans(code, F, s, Run(3, T2, map[]), Run(4, T3, map[]));
  }

  // ----- names the compiler handles itself -----

  /** `return sum(1)` */
  function CallsSum(): seq<Stmt> {
    [Return(Some(CallE("sum", [IntLit(1)])))]
  }

  /** With a function of the program called `sum`, here any that returns 1 for 1, the source calls it; the compiler
      never does, and returns 0. */
  lemma SumIsNotCalled(F: CallEnv, G: CallEnv, fuel: nat)
    requires F("sum", [1]) == Returns(1)
    ensures ExecAll(F, CallsSum(), map[], fuel) == Returned(1)
    ensures LowerBody([], CallsSum(), map[], map["sum" := "sum"]).ok
    ensures Reaches(LowerBody([], CallsSum(), map[], map["sum" := "sum"]).code, G, Run(0, map[], map[]), Done(0))
  {
    var c := Ctx([], 0, 0, map[], None, None, map["sum" := "sum"], true);
    var one: seq<Word> := [1];
    SumHandled(1);
    hide Handled, AlwaysTrue;
    assert EvalAll(F, [IntLit(1)], map[]) == Val(one) by {
      assert [IntLit(1)][1..] == [] && one == [one[0]] + [];
    }
    assert CallsSum()[1..] == [];
    var code := LowerBody([], CallsSum(), map[], map["sum" := "sum"]).code;
    assert LowerStmts(CallsSum(), c) == LowerStmt(CallsSum()[0], c);
    assert code == [Const(0, 0), Ret(Tmp(0))];
    var T0: Temps := map[][0 := 0];
    ReachesStep(code, G, Run(0, map[], map[]));
    ReachesStep(code, G, Run(1, T0, map[]));
    ReachesTrans(code, G, Run(0, map[], map[]), Run(1, T0, map[]), Done(0));
  }

  // ----- functions defined later -----

  /** A call of `f` is compiled to a call exactly if `f` is known so far and no name the compiler handles itself. */
  lemma CallsIff(f: string, args: seq<Expr>, c: Ctx)
    ensures var code := LowerExpr(CallE(f, args), c).c.code;
      (|code| > |c.code| && code[|code| - 1].Call?) <==> f in c.funcs && !Handled(f, |args|)
    ensures f in c.funcs && !Handled(f, |args|) ==>
      var code := LowerExpr(CallE(f, args), c).c.code; code[|code| - 1].func == c.funcs[f]
  {
    AllGrows(args, c);
    hide Handled, LowerAll;
  }

  /** And the known functions are the ones defined so far, the one that is being compiled included. */
  lemma {:induction false} KnownIff(defs: seq<FuncDef>, n: nat, f: string)
    requires n <= |defs|
    ensures f in Known(defs, n) <==> exists i :: 0 <= i < n && defs[i].name == f
    decreases n
  {
    if n > 0 {
      KnownIff(defs, n - 1, f);
    }
  }

  /** `def f(): return g()` and then `def g(): return 1` */
  function CallsLater(): seq<FuncDef> {
    [FuncDef("f", [], [Return(Some(CallE("g", [])))]), FuncDef("g", [], [Return(Some(IntLit(1)))])]
  }

  /** The source's `f()` is 1; the compiled `f` returns 0, without a word from the compiler. */
  lemma LaterIsNotCalled(G: CallEnv)
    ensures SourceCall(CallsLater(), 2, "f", []) == Returns(1)
    ensures LowerDef(CallsLater(), 0).ok
    ensures Reaches(LowerDef(CallsLater(), 0).code, G, Run(0, map[], map[]), Done(0))
  {
    var defs := CallsLater();
    LaterMeans();
    LaterLowers();
    hide LowerDef, Known;
    var code := LowerDef(defs, 0).code;
    var T0: Temps := map[][0 := 0];
    ReachesStep(code, G, Run(0, map[], map[]));
    ReachesStep(code, G, Run(1, T0, map[]));
    ReachesTrans(code, G, Run(0, map[], map[]), Run(1, T0, map[]), Done(0));
  }

  lemma LaterLowers()
    ensures LowerDef(CallsLater(), 0).ok && LowerDef(CallsLater(), 0).code == [Const(0, 0), Ret(Tmp(0))]
  {
    var defs := CallsLater();
    var c := Ctx([], 0, 0, map[], None, None, Known(defs, 1), true);
    assert Known(defs, 1) == Known(defs, 0)["f" := "f"];
    assert defs[0].body[1..] == [];
    assert "g" !in ALWAYS;
    assert LowerStmts(defs[0].body, c) == LowerStmt(defs[0].body[0], c);
  }

  lemma LaterMeans()
    ensures SourceCall(CallsLater(), 2, "f", []) == Returns(1)
  {
    var defs := CallsLater();
    assert FindDef(defs, "g", 2) == Some(defs[1]) && FindDef(defs, "f", 2) == Some(defs[0]) by {
      assert FindDef(defs, "f", 1) == Some(defs[0]);
    }
    assert defs[0].body[1..] == [] && defs[1].body[1..] == [];
    assert Wrap(1) == 1;
    assert ExecAll(SourceCalls(defs, 0), defs[1].body, map[], 1) == Returned(1);
    assert SourceCall(defs, 1, "g", []) == Returns(1);
    assert EvalAll(SourceCalls(defs, 1), [], map[]) == Val([]);
    assert ExecAll(SourceCalls(defs, 1), defs[0].body, map[], 2) == Returned(1);
  }
}
