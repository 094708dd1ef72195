/** What the compiler is given means what the parser's trees mean. */
module MeaningKept {
  import opened Words
  import W = Words
  import opened Wrappers
  import opened Syntax
  import opened StmtParser
  import opened SubsetTrees
  import opened TreeMeaning
  import opened LoweringProgram
  import P = Python

  // ----- operators -----

  lemma OperatorKept(op: Infix, a: Word, b: Word)
    requires Opcode(op).Some?
    ensures P.OfOption(W.Binary(Opcode(op).value, a, b)) == Arith(op, a, b)
  {
    hide Bitwise, Pow2, TruncDiv, Wrap;
    DividesIs(a, b);
  }

  lemma DividesIs(a: Word, b: Word)
    ensures Divides(a, b) <==> b != 0 && !(a == -TWO_63 && b == -1)
    ensures b != 0 ==> TruncMod(a, b) == a - b * TruncDiv(a, b)
  {
    if b != 0 {
      SmallQuotient(a, b);
    }
  }

  lemma SmallQuotient(a: Word, b: Word)
    requires b != 0
    ensures TruncDiv(a, b) < TWO_63 <==> !(a == -TWO_63 && b == -1)
  {
    if Abs(b) >= 2 {
      AtMostHalf(Abs(a), Abs(b));
    }
  }

  lemma AtMostHalf(a: nat, d: nat)
    requires d >= 2
    ensures 2 * (a / d) <= a
  {
    var q := a / d;
    assert d * q + a % d == a;
    assert d * q == 2 * q + (d - 2) * q;
    Product(d - 2, q);
  }

  lemma Product(x: nat, y: nat)
    ensures x * y >= 0
  {
  }

  lemma AugmentedKept(op: Infix, a: Word, b: Word)
    requires AugOpcode(op).Some?
    ensures P.OfOption(W.Binary(AugOpcode(op).value, a, b)) == Augmented(Aug(op), a, b)
  {
    hide Arith, W.Binary;
    OperatorKept(if op.Slash? then DSlash else op, a, b);
    SlashIs(a, b);
  }

  lemma SlashIs(a: Word, b: Word)
    ensures Arith(DSlash, a, b) == Quotient(a, b)
  {
  }

  lemma RelationKept(op: CmpOp, a: Word, b: Word)
    ensures Comparison(op) == CmpOpcode(op).Some?
    ensures Comparison(op) ==> (W.Binary(CmpOpcode(op).value, a, b) == Some(1)) == Related(op, a, b)
  {
  }

  lemma {:induction false} ChainKept(a: Word, ops: seq<CmpOp>, vs: seq<Word>)
    requires CmpOpcodes(ops).Some? && |ops| == |vs|
    ensures |CmpOpcodes(ops).value| == |ops| && forall op <- ops :: Comparison(op)
    ensures P.ChainHolds(a, CmpOpcodes(ops).value, vs) == AllRelated(a, ops, vs)
    decreases |ops|
  {
    hide W.Binary, Related, Comparison, CmpOpcode;
    if ops != [] {
      ChainKept(vs[0], ops[1..], vs[1..]);
      RelationKept(ops[0], a, vs[0]);
      assert CmpOpcodes(ops).value[1..] == CmpOpcodes(ops[1..]).value;
      assert ops == [ops[0]] + ops[1..];
    }
  }

  lemma {:induction false} OpcodesSize(ops: seq<CmpOp>)
    requires CmpOpcodes(ops).Some?
    ensures |CmpOpcodes(ops).value| == |ops| && forall op <- ops :: Comparison(op)
    decreases |ops|
  {
    hide Comparison, CmpOpcode;
    if ops != [] {
      OpcodesSize(ops[1..]);
      RelationKept(ops[0], 0, 0);
      assert ops == [ops[0]] + ops[1..];
    }
  }

  lemma PrefixKept(p: Prefix, v: Word)
    ensures P.EvalUnary(UnaryFrom(p), v) == Prefixed(p, v)
  {
  }

  // ----- expressions -----

  /** Calls that are answered the same. */
  ghost predicate Same(F: P.CallEnv, G: P.CallEnv) {
    forall f, args :: F(f, args) == G(f, args)
  }

  lemma {:induction false} ValueKept(F: P.CallEnv, G: P.CallEnv, e: Tree, env: P.Env)
    requires Same(F, G) && ExprFrom(e).Some?
    ensures P.EvalExpr(F, ExprFrom(e).value, env) == Value(G, e, env)
    decreases e, 1
  {
    hide Arith, W.Binary, Opcode;
    match e
    case Num(_) =>
    case Truth(_) =>
    case Ident(_) =>
    case Unary(p, a) =>
      ValueKept(F, G, a, env);
      if Value(G, a, env).Val? {
        PrefixKept(p, Value(G, a, env).value);
      }
    case NotE(a) => ValueKept(F, G, a, env);
    case Binary(op, l, r) => BinaryKept(F, G, e, env);
    case Compare(first, ops, rest) => CompareKept(F, G, e, env);
    case IfExp(t, b, o) =>
      ValueKept(F, G, t, env);
      ValueKept(F, G, b, env);
      ValueKept(F, G, o, env);
    case Call(f, args) => ValuesKept(F, G, args, env);
  }

  lemma {:induction false} BinaryKept(F: P.CallEnv, G: P.CallEnv, e: Tree, env: P.Env)
    requires Same(F, G) && e.Binary? && ExprFrom(e).Some?
    ensures P.EvalExpr(F, ExprFrom(e).value, env) == Value(G, e, env)
    decreases e, 0
  {
    hide Arith, W.Binary, Opcode;
    ValueKept(F, G, e.l, env);
    ValueKept(F, G, e.r, env);
    var a, b := Value(G, e.l, env), Value(G, e.r, env);
    if e.op.OrOp? || e.op.AndOp? {
      TwoValues(F, ExprFrom(e.l).value, ExprFrom(e.r).value, env);
      if a.Val? && b.Val? {
        BothKept(a.value, b.value);
      }
    } else if a.Val? && b.Val? {
      OperatorKept(e.op, a.value, b.value);
    }
  }

  lemma TwoValues(F: P.CallEnv, x: P.Expr, y: P.Expr, env: P.Env)
    ensures P.EvalAll(F, [x, y], env) ==
      var a, b := P.EvalExpr(F, x, env), P.EvalExpr(F, y, env);
      if a.Fault? then P.Fault(a.why) else if a.Lost? then P.Lost
      else if b.Fault? then P.Fault(b.why) else if b.Lost? then P.Lost
      else P.Val([a.value, b.value])
  {
    var a, b := P.EvalExpr(F, x, env), P.EvalExpr(F, y, env);
    assert [x, y][1..] == [y];
    OneValue(F, y, env);
    if a.Val? && b.Val? {
      assert [a.value] + [b.value] == [a.value, b.value];
    }
  }

  lemma OneValue(F: P.CallEnv, y: P.Expr, env: P.Env)
    ensures P.EvalAll(F, [y], env) ==
      var b := P.EvalExpr(F, y, env);
      if b.Fault? then P.Fault(b.why) else if b.Lost? then P.Lost else P.Val([b.value])
  {
    assert [y][1..] == [];
    assert P.EvalAll(F, [], env) == P.Val([]);
    var b := P.EvalExpr(F, y, env);
    if b.Val? {
      assert [b.value] + [] == [b.value];
    }
  }

  lemma BothKept(a: Word, b: Word)
    ensures Arith(AndOp, a, b) == P.Val(BoolWord(P.AllTruthy([a, b])))
    ensures Arith(OrOp, a, b) == P.Val(BoolWord(P.SomeTruthy([a, b])))
  {
    var vs := [a, b];
    assert a in vs && b in vs && forall v <- vs :: v == a || v == b;
    assert P.SomeTruthy(vs) <==> Truthy(a) || Truthy(b) by {
      if Truthy(a) {
        assert P.SomeTruthy(vs);
      }
      if Truthy(b) {
        assert P.SomeTruthy(vs);
      }
    }
  }

  lemma {:induction false} CompareKept(F: P.CallEnv, G: P.CallEnv, e: Tree, env: P.Env)
    requires Same(F, G) && e.Compare? && ExprFrom(e).Some?
    ensures P.EvalExpr(F, ExprFrom(e).value, env) == Value(G, e, env)
    decreases e, 0
  {
    hide Comparison, W.Binary, Related;
    ValueKept(F, G, e.first, env);
    ValuesKept(F, G, e.rest, env);
    OpcodesSize(e.ops);
    var a, vs := Value(G, e.first, env), Values(G, e.rest, env);
    if a.Val? && vs.Val? && |vs.value| == |e.ops| {
      ChainKept(a.value, e.ops, vs.value);
    }
  }

  lemma {:induction false} ValuesKept(F: P.CallEnv, G: P.CallEnv, es: seq<Tree>, env: P.Env)
    requires Same(F, G) && ExprsFrom(es).Some?
    ensures P.EvalAll(F, ExprsFrom(es).value, env) == Values(G, es, env)
    decreases es, 0
  {
    hide P.EvalExpr, Value, ExprFrom;
    if es != [] {
      ValueKept(F, G, es[0], env);
      ValuesKept(F, G, es[1..], env);
      assert ExprsFrom(es).value[1..] == ExprsFrom(es[1..]).value;
    }
  }

  // ----- statements -----

  lemma {:induction false} AssignedKept(env: P.Env, ts: seq<Tree>, v: Word)
    requires NamesFrom(ts).Some?
    ensures Assigned(env, ts, v) == P.Next(P.AssignAll(env, NamesFrom(ts).value, v))
    decreases |ts|
  {
    if ts != [] {
      AssignedKept(env[ts[0].id := v], ts[1..], v);
      assert NamesFrom(ts).value[1..] == NamesFrom(ts[1..]).value;
    }
  }

  lemma {:induction false} DoneKept(F: P.CallEnv, G: P.CallEnv, n: Node, env: P.Env, fuel: nat)
    requires Same(F, G) && StmtFrom(n).Some?
    ensures P.Exec(F, StmtFrom(n).value, env, fuel) == Done(G, n, env, fuel)
    decreases fuel, n, 1
  {
    hide P.EvalExpr, Value, ExprFrom, P.ExecAll, AllDone, StmtsFrom, W.Binary, Augmented;
    match n
    case ExprS(e) => ValueKept(F, G, e, env);
    case AssignS(ts, e) =>
      ValueKept(F, G, e, env);
      if Value(G, e, env).Val? {
        AssignedKept(env, ts, Value(G, e, env).value);
      }
    case AugS(x, op, e) =>
      ValueKept(F, G, e, env);
      if x in env && Value(G, e, env).Val? {
        AugmentedKept(op.aug, env[x], Value(G, e, env).value);
      }
    case ReturnS(e) =>
      if e.Some? {
        ValueKept(F, G, e.value, env);
      }
    case PassS =>
    case BreakS =>
    case ContinueS =>
    case IfS(t, body, _, _) => IfKept(F, G, n, env, fuel);
    case WhileS(_, _, _) => WhileKept(F, G, n, env, fuel);
    case ForS(_, _, _, _) => ForKept(F, G, n, env, fuel);
  }

  lemma {:induction false} IfKept(F: P.CallEnv, G: P.CallEnv, n: Node, env: P.Env, fuel: nat)
    requires Same(F, G) && n.IfS? && StmtFrom(n).Some?
    ensures P.Exec(F, StmtFrom(n).value, env, fuel) == Done(G, n, env, fuel)
    decreases fuel, n, 0, |n.elifs| + 1
  {
    hide P.EvalExpr, Value, ExprFrom, P.ExecAll, AllDone, StmtsFrom, ArmsDone, P.ExecElifs, ArmsFrom;
    ValueKept(F, G, n.test, env);
    AllKept(F, G, n.body, env, fuel);
    ArmsKept(F, G, n, 0, env, fuel);
  }

  lemma {:induction false} ArmAt(arms: seq<Arm>, i: nat)
    requires ArmsFrom(arms).Some? && i < |arms|
    ensures |ArmsFrom(arms).value| == |arms|
    ensures ExprFrom(arms[i].test).Some? && StmtsFrom(arms[i].body).Some?
    ensures ArmsFrom(arms).value[i] == P.Elif(ExprFrom(arms[i].test).value, StmtsFrom(arms[i].body).value)
    decreases |arms|
  {
    hide ExprFrom, StmtsFrom;
    if i > 0 {
      ArmAt(arms[1..], i - 1);
    } else if |arms| > 1 {
      ArmAt(arms[1..], 0);
    }
  }

  lemma ArmsSize(arms: seq<Arm>)
    requires ArmsFrom(arms).Some?
    ensures |ArmsFrom(arms).value| == |arms|
  {
    if arms != [] {
      ArmAt(arms, 0);
    }
  }

  lemma {:induction false} ArmsKept(F: P.CallEnv, G: P.CallEnv, n: Node, i: nat, env: P.Env, fuel: nat)
    requires Same(F, G) && n.IfS? && StmtFrom(n).Some? && i <= |n.elifs|
    ensures |StmtFrom(n).value.elifs| == |n.elifs|
    ensures P.ExecElifs(F, StmtFrom(n).value, i, env, fuel) == ArmsDone(G, n, i, env, fuel)
    decreases fuel, n, 0, |n.elifs| - i
  {
    hide P.EvalExpr, Value, ExprFrom, P.ExecAll, AllDone, StmtsFrom, ArmsFrom;
    ArmsSize(n.elifs);
    if i == |n.elifs| {
      AllKept(F, G, n.orelse, env, fuel);
    } else {
      ArmAt(n.elifs, i);
      ValueKept(F, G, n.elifs[i].test, env);
      AllKept(F, G, n.elifs[i].body, env, fuel);
      ArmsKept(F, G, n, i + 1, env, fuel);
    }
  }

  lemma {:induction false} WhileKept(F: P.CallEnv, G: P.CallEnv, n: Node, env: P.Env, fuel: nat)
    requires Same(F, G) && n.WhileS? && StmtFrom(n).Some?
    ensures P.Exec(F, StmtFrom(n).value, env, fuel) == Done(G, n, env, fuel)
    decreases fuel, n, 0
  {
    hide P.EvalExpr, Value, ExprFrom, P.ExecAll, AllDone, StmtsFrom;
    ValueKept(F, G, n.test, env);
    if fuel > 0 {
      AllKept(F, G, n.body, env, fuel);
      var o := AllDone(G, n.body, env, fuel);
      if o.Next? || o.Continued? {
        DoneKept(F, G, n, o.env, fuel - 1);
      }
    }
  }

  lemma {:induction false} ForKept(F: P.CallEnv, G: P.CallEnv, n: Node, env: P.Env, fuel: nat)
    requires Same(F, G) && n.ForS? && StmtFrom(n).Some?
    ensures P.Exec(F, StmtFrom(n).value, env, fuel) == Done(G, n, env, fuel)
    decreases fuel, n, 0
  {
    hide P.EvalAll, Values, ExprsFrom, P.ExecLoop, LoopDone, StmtsFrom;
    ValuesKept(F, G, n.iter.args, env);
    var r := Values(G, n.iter.args, env);
    if r.Val? && 1 <= |r.value| <= 3 {
      var (start, stop, step) := P.RangeBounds(r.value);
      LoopKept(F, G, n.target, start, stop, step, n.body, env, fuel, fuel);
    }
  }

  lemma {:induction false} AllKept(F: P.CallEnv, G: P.CallEnv, ss: seq<Node>, env: P.Env, fuel: nat)
    requires Same(F, G) && StmtsFrom(ss).Some?
    ensures P.ExecAll(F, StmtsFrom(ss).value, env, fuel) == AllDone(G, ss, env, fuel)
    decreases fuel, ss, 0
  {
    hide P.Exec, Done, StmtFrom;
    if ss != [] {
      DoneKept(F, G, ss[0], env, fuel);
      var o := Done(G, ss[0], env, fuel);
      assert StmtsFrom(ss).value[1..] == StmtsFrom(ss[1..]).value;
      if o.Next? {
        AllKept(F, G, ss[1..], o.env, fuel);
      }
    }
  }

  lemma {:induction false} LoopKept(F: P.CallEnv, G: P.CallEnv, x: string, i: Word, stop: Word, step: Word,
                                    body: seq<Node>, env: P.Env, fuel: nat, passes: nat)
    requires Same(F, G) && StmtsFrom(body).Some?
    ensures P.ExecLoop(F, x, i, stop, step, StmtsFrom(body).value, env, fuel, passes)
      == LoopDone(G, x, i, stop, step, body, env, fuel, passes)
    decreases fuel, body, passes
  {
    hide P.ExecAll, AllDone, StmtsFrom;
    if i < stop && passes > 0 {
      AllKept(F, G, body, env[x := i], fuel);
      var o := AllDone(G, body, env[x := i], fuel);
      if o.Next? || o.Continued? {
        LoopKept(F, G, x, Wrap(i + step), stop, step, body, o.env, fuel, passes - 1);
      }
    }
  }

  // ----- programs -----

  lemma {:induction false} FindDefAppend(d: P.FuncDef, more: seq<P.FuncDef>, f: string, n: nat)
    requires n <= |more|
    ensures FindDef([d] + more, f, n + 1) ==
      if FindDef(more, f, n).Some? then FindDef(more, f, n) else if d.name == f then Some(d) else None
    decreases n
  {
    if n > 0 {
      FindDefAppend(d, more, f, n - 1);
    } else {
      assert FindDef([d] + more, f, 0) == None;
    }
  }

  /** The definition of a name in the compiler's program is the one in the tree. */
  lemma {:induction false} DefinedKept(ss: seq<Node>, f: string)
    requires ProgramFrom(ss).Some?
    ensures var p, d := ProgramFrom(ss).value, Defined(ss, f);
      var e := FindDef(p.defs, f, |p.defs|);
      && d.Some? == e.Some?
      && (d.Some? ==>
           && d.value.DefS? && StmtsFrom(d.value.body).Some?
           && e.value.params == d.value.params && e.value.body == StmtsFrom(d.value.body).value)
    decreases |ss|
  {
    hide StmtsFrom;
    if ss != [] && ss[0].DefS? {
      DefinedKept(ss[1..], f);
      var more := ProgramFrom(ss[1..]).value.defs;
      FindDefAppend(P.FuncDef(ss[0].name, ss[0].params, StmtsFrom(ss[0].body).value), more, f, |more|);
    }
  }

  lemma {:induction false} TopLevelKept(ss: seq<Node>)
    requires ProgramFrom(ss).Some?
    ensures StmtsFrom(TopLevel(ss)) == Some(ProgramFrom(ss).value.main)
    decreases |ss|
  {
    hide StmtsFrom;
    if ss != [] && ss[0].DefS? {
      TopLevelKept(ss[1..]);
    }
  }

  lemma {:induction false} ArgumentsKept(params: seq<string>, args: seq<Word>)
    requires |params| == |args|
    ensures BindEnv(params, args) == Arguments(params, args)
    decreases |params|
  {
    if params != [] {
      ArgumentsKept(params[..|params| - 1], args[..|args| - 1]);
    }
  }

  lemma AnsweredKept(o: P.Outcome)
    ensures ResultOf(o) == Answered(o)
  {
  }

  /** A function of a program means the same in the tree and in what the compiler is given. */
  lemma {:induction false} CallKept(ss: seq<Node>, depth: nat, f: string, args: seq<Word>)
    requires ProgramFrom(ss).Some?
    ensures SourceCall(ProgramFrom(ss).value.defs, depth, f, args) == NodeCall(ss, depth, f, args)
    decreases depth, 0
  {
    DefinedKept(ss, f);
    hide Defined, ProgramFrom, StmtsFrom, P.ExecAll, AllDone, BindEnv, Arguments, Answered, ResultOf, FindDef;
    var d := Defined(ss, f);
    if depth > 0 && d.Some? && |args| == |d.value.params| {
      var F, G := SourceCalls(ProgramFrom(ss).value.defs, depth - 1), NodeCalls(ss, depth - 1);
      var env := Arguments(d.value.params, args);
      CallsKept(ss, depth - 1);
      ArgumentsKept(d.value.params, args);
      AllKept(F, G, d.value.body, env, depth);
      AnsweredKept(AllDone(G, d.value.body, env, depth));
    }
  }

  lemma {:induction false} CallsKept(ss: seq<Node>, depth: nat)
    requires ProgramFrom(ss).Some?
    ensures Same(SourceCalls(ProgramFrom(ss).value.defs, depth), NodeCalls(ss, depth))
    decreases depth, 1
  {
    forall f, args
      ensures SourceCalls(ProgramFrom(ss).value.defs, depth)(f, args) == NodeCalls(ss, depth)(f, args)
    {
      CallKept(ss, depth, f, args);
    }
  }

  /** And so do its top-level statements. */
  lemma MainKept(ss: seq<Node>, depth: nat)
    requires ProgramFrom(ss).Some?
    ensures var p := ProgramFrom(ss).value;
      ResultOf(P.ExecAll(SourceCalls(p.defs, depth), p.main, map[], depth + 1)) == NodeMain(ss, depth)
  {
    hide ProgramFrom, StmtsFrom, P.ExecAll, AllDone, Answered, ResultOf, SourceCalls, NodeCalls, TopLevel;
    CallsKept(ss, depth);
    TopLevelKept(ss);
    AllKept(SourceCalls(ProgramFrom(ss).value.defs, depth), NodeCalls(ss, depth), TopLevel(ss), map[], depth + 1);
    AnsweredKept(AllDone(NodeCalls(ss, depth), TopLevel(ss), map[], depth + 1));
  }
}
