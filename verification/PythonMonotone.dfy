/** The bounds on iterations and nested calls never change a result: a larger bound can only turn no claim into
    one. So a program of the source has at most one result. */
module PythonMonotone {
  import opened Words
  import opened Wrappers
  import opened Python
  import opened LoweringProgram

  /** `G` answers whatever `F` answers, and the same. `none` stands for no answer. */
  ghost predicate Below(none: CallResult, F: CallEnv, G: CallEnv) {
    forall f, args :: F(f, args) == none || G(f, args) == F(f, args)
  }

  /** What an expression comes to that needs an answer where there is none. */
  function Blank<T>(none: CallResult): Eval<T>
    requires !none.Returns?
  {
    if none.Faults? then Fault(none.why) else Lost
  }

  lemma {:induction false} EvalMore(none: CallResult, F: CallEnv, G: CallEnv, e: Expr, env: Env)
    requires Below(none, F, G) && !none.Returns?
    ensures EvalExpr(F, e, env) == Blank(none) || EvalExpr(G, e, env) == EvalExpr(F, e, env)
    decreases e, 1
  {
    match e
    case IntLit(_) =>
    case BoolLit(_) =>
    case Var(_) =>
    case UnaryE(_, a) => EvalMore(none, F, G, a, env);
    case BinaryE(_, l, r) =>
      EvalMore(none, F, G, l, env);
      EvalMore(none, F, G, r, env);
    case Compare(l, _, rs) =>
      EvalMore(none, F, G, l, env);
      AllMore(none, F, G, rs, env);
    case BoolE(_, es) => AllMore(none, F, G, es, env);
    case IfExp(t, a, b) =>
      EvalMore(none, F, G, t, env);
      EvalMore(none, F, G, a, env);
      EvalMore(none, F, G, b, env);
    case CallE(_, args) => AllMore(none, F, G, args, env);
  }

  lemma {:induction false} AllMore(none: CallResult, F: CallEnv, G: CallEnv, es: seq<Expr>, env: Env)
    requires Below(none, F, G) && !none.Returns?
    ensures EvalAll(F, es, env) == Blank(none) || EvalAll(G, es, env) == EvalAll(F, es, env)
    decreases es, 0
  {
    if es != [] {
      EvalMore(none, F, G, es[0], env);
      AllMore(none, F, G, es[1..], env);
    }
  }

  /** An answer of the semantics. */
  predicate Answers(none: CallResult, o: Outcome)
    requires !none.Returns?
  {
    !o.OutOfTime? && o != OfEval<Word>(Blank(none))
  }

  lemma {:induction false} ExecMore(none: CallResult, F: CallEnv, G: CallEnv, s: Stmt, env: Env, fuel: nat, more: nat)
    requires Below(none, F, G) && !none.Returns? && fuel <= more
    ensures Answers(none, Exec(F, s, env, fuel)) ==> Exec(G, s, env, more) == Exec(F, s, env, fuel)
    decreases fuel, s, 1
  {
    hide Below, EvalExpr, EvalAll;
    match s
    case Assign(_, e) => EvalMore(none, F, G, e, env);
    case AugAssign(_, _, e) => EvalMore(none, F, G, e, env);
    case CallStmt(e) => EvalMore(none, F, G, e, env);
    case If(t, body, _, _) =>
      EvalMore(none, F, G, t, env);
      ExecAllMore(none, F, G, body, env, fuel, more);
      ElifsMore(none, F, G, s, 0, env, fuel, more);
    case While(t, body) =>
      EvalMore(none, F, G, t, env);
      if fuel > 0 {
        ExecAllMore(none, F, G, body, env, fuel, more);
        var r := ExecAll(F, body, env, fuel);
        if r.Next? || r.Continued? {
          ExecMore(none, F, G, s, r.env, fuel - 1, more - 1);
        }
      }
    case ForRange(x, args, body) =>
      AllMore(none, F, G, args, env);
      var r := EvalAll(F, args, env);
      if r.Val? && 1 <= |r.value| <= 3 {
        var (start, stop, step) := RangeBounds(r.value);
        LoopMore(none, F, G, x, start, stop, step, body, env, fuel, more, fuel, more);
      }
    case Return(e) =>
      if e.Some? {
        EvalMore(none, F, G, e.value, env);
      }
    case Break =>
    case Continue =>
    case Pass =>
  }

  lemma {:induction false} ExecAllMore(none: CallResult, F: CallEnv, G: CallEnv, ss: seq<Stmt>, env: Env, fuel: nat,
                                       more: nat)
    requires Below(none, F, G) && !none.Returns? && fuel <= more
    ensures Answers(none, ExecAll(F, ss, env, fuel)) ==> ExecAll(G, ss, env, more) == ExecAll(F, ss, env, fuel)
    decreases fuel, ss, 0
  {
    hide Below, Exec;
    if ss != [] {
      ExecMore(none, F, G, ss[0], env, fuel, more);
      var r := Exec(F, ss[0], env, fuel);
      if r.Next? {
        ExecAllMore(none, F, G, ss[1..], r.env, fuel, more);
      }
    }
  }

  lemma {:induction false} ElifsMore(none: CallResult, F: CallEnv, G: CallEnv, s: Stmt, i: nat, env: Env, fuel: nat,
                                     more: nat)
    requires Below(none, F, G) && !none.Returns? && fuel <= more && s.If? && i <= |s.elifs|
    ensures Answers(none, ExecElifs(F, s, i, env, fuel)) ==>
      ExecElifs(G, s, i, env, more) == ExecElifs(F, s, i, env, fuel)
    decreases fuel, s, 0, |s.elifs| - i
  {
    hide Below, ExecAll, EvalExpr;
    if i == |s.elifs| {
      ExecAllMore(none, F, G, s.orelse, env, fuel, more);
    } else {
      EvalMore(none, F, G, s.elifs[i].test, env);
      ExecAllMore(none, F, G, s.elifs[i].body, env, fuel, more);
      ElifsMore(none, F, G, s, i + 1, env, fuel, more);
    }
  }

  lemma {:induction false} LoopMore(none: CallResult, F: CallEnv, G: CallEnv, x: string, i: Word, stop: Word,
                                    step: Word, body: seq<Stmt>, env: Env, fuel: nat, more: nat, passes: nat,
                                    others: nat)
    requires Below(none, F, G) && !none.Returns? && fuel <= more && passes <= others
    ensures Answers(none, ExecLoop(F, x, i, stop, step, body, env, fuel, passes)) ==>
      ExecLoop(G, x, i, stop, step, body, env, more, others)
        == ExecLoop(F, x, i, stop, step, body, env, fuel, passes)
    decreases fuel, body, passes
  {
    hide Below, ExecAll;
    if i < stop && passes > 0 {
      var bound := env[x := i];
      ExecAllMore(none, F, G, body, bound, fuel, more);
      var r := ExecAll(F, body, bound, fuel);
      if r.Next? || r.Continued? {
        LoopMore(none, F, G, x, Wrap(i + step), stop, step, body, r.env, fuel, more, passes - 1, others - 1);
      }
    }
  }

  lemma {:induction false} CallMore(defs: seq<FuncDef>, depth: nat, more: nat, f: string, args: seq<Word>)
    requires depth <= more
    ensures SourceCall(defs, depth, f, args).Unknown?
      || SourceCall(defs, more, f, args) == SourceCall(defs, depth, f, args)
    decreases depth, 0
  {
    if depth > 0 {
      CallsMore(defs, depth - 1, more - 1);
      var d := FindDef(defs, f, |defs|);
      if d.Some? && |args| == |d.value.params| {
        ExecAllMore(Unknown, SourceCalls(defs, depth - 1), SourceCalls(defs, more - 1), d.value.body,
                    BindEnv(d.value.params, args), depth, more);
      }
      hide ExecAll, Below;
    }
  }

  lemma {:induction false} CallsMore(defs: seq<FuncDef>, depth: nat, more: nat)
    requires depth <= more
    ensures Below(Unknown, SourceCalls(defs, depth), SourceCalls(defs, more))
    decreases depth, 1
  {
    forall f, args
      ensures SourceCalls(defs, depth)(f, args).Unknown?
        || SourceCalls(defs, more)(f, args) == SourceCalls(defs, depth)(f, args)
    {
      CallMore(defs, depth, more, f, args);
    }
  }

  /** A program has one result, whatever the bounds under which it is found. */
  lemma OneResult(p: Program, depth: nat, more: nat)
    requires 0 < depth <= more
    ensures var r := ResultOf(ExecAll(SourceCalls(p.defs, depth - 1), p.main, map[], depth));
      r.Unknown? || ResultOf(ExecAll(SourceCalls(p.defs, more - 1), p.main, map[], more)) == r
  {
    CallsMore(p.defs, depth - 1, more - 1);
    ExecAllMore(Unknown, SourceCalls(p.defs, depth - 1), SourceCalls(p.defs, more - 1), p.main, map[], depth, more);
  }
}
