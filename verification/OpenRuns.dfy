/** Running out of the bound on depth and passes, told apart from what the semantics does not describe. */
module OpenRuns {
  import opened Words
  import opened Wrappers
  import opened Python
  import opened LoweringProgram
  import opened PythonMonotone

  const OPEN := Faults(Open)

  /** As `ResultOf`, but a run out of passes is left open. */
  function OpenResult(o: Outcome): CallResult {
    if o.OutOfTime? then OPEN else ResultOf(o)
  }

  /** As `SourceCall`, but a call beyond the bounds is left open; `Unknown` is only what the semantics does not
      describe. */
  function OpenCall(defs: seq<FuncDef>, depth: nat, f: string, args: seq<Word>): CallResult
    decreases depth, 0
  {
    if depth == 0 then OPEN else
    var d := FindDef(defs, f, |defs|);
    if d.None? || |args| != |d.value.params| then Unknown
    else OpenResult(ExecAll(OpenCalls(defs, depth - 1), d.value.body, BindEnv(d.value.params, args), depth))
  }

  function OpenCalls(defs: seq<FuncDef>, depth: nat): CallEnv
    decreases depth, 1
  {
    (f: string, args: seq<Word>) => OpenCall(defs, depth, f, args)
  }

  lemma OpenAll(F: CallEnv, G: CallEnv, ss: seq<Stmt>, env: Env, fuel: nat, more: nat)
    requires Below(OPEN, F, G) && fuel <= more
    ensures OpenResult(ExecAll(F, ss, env, fuel)) == OPEN || ExecAll(G, ss, env, more) == ExecAll(F, ss, env, fuel)
  {
    ExecAllMore(OPEN, F, G, ss, env, fuel, more);
    hide ExecAll, Below;
  }

  /** A call that is not left open has its answer under all larger bounds. */
  lemma {:induction false} OpenMore(defs: seq<FuncDef>, depth: nat, more: nat)
    requires depth <= more
    ensures Below(OPEN, OpenCalls(defs, depth), OpenCalls(defs, more))
    decreases depth
  {
    forall f, args
      ensures OpenCalls(defs, depth)(f, args) == OPEN
        || OpenCalls(defs, more)(f, args) == OpenCalls(defs, depth)(f, args)
    {
      if depth > 0 {
        OpenMore(defs, depth - 1, more - 1);
        var d := FindDef(defs, f, |defs|);
        if d.Some? && |args| == |d.value.params| {
          OpenAll(OpenCalls(defs, depth - 1), OpenCalls(defs, more - 1), d.value.body, BindEnv(d.value.params, args),
                  depth, more);
        }
        hide ExecAll, Below;
      }
    }
  }

  /** What is not left open is what the source gives. */
  lemma {:induction false} OpenIsSource(defs: seq<FuncDef>, depth: nat)
    ensures Below(OPEN, OpenCalls(defs, depth), SourceCalls(defs, depth))
    decreases depth
  {
    forall f, args
      ensures OpenCalls(defs, depth)(f, args) == OPEN
        || SourceCalls(defs, depth)(f, args) == OpenCalls(defs, depth)(f, args)
    {
      if depth > 0 {
        OpenIsSource(defs, depth - 1);
        var d := FindDef(defs, f, |defs|);
        if d.Some? && |args| == |d.value.params| {
          OpenAll(OpenCalls(defs, depth - 1), SourceCalls(defs, depth - 1), d.value.body, BindEnv(d.value.params, args),
                  depth, depth);
        }
        hide ExecAll, Below;
      }
    }
  }

  /** And the other way round. */
  lemma {:induction false} SourceIsOpen(defs: seq<FuncDef>, depth: nat)
    ensures Below(Unknown, SourceCalls(defs, depth), OpenCalls(defs, depth))
    decreases depth
  {
    forall f, args
      ensures SourceCalls(defs, depth)(f, args).Unknown?
        || OpenCalls(defs, depth)(f, args) == SourceCalls(defs, depth)(f, args)
    {
      if depth > 0 {
        SourceIsOpen(defs, depth - 1);
        var d := FindDef(defs, f, |defs|);
        if d.Some? && |args| == |d.value.params| {
          ExecAllMore(Unknown, SourceCalls(defs, depth - 1), OpenCalls(defs, depth - 1), d.value.body,
                      BindEnv(d.value.params, args), depth, depth);
        }
        hide ExecAll, Below;
      }
    }
  }

  // ----- answers found under some bound -----

  /** Each answer of `F` is the source's under some bound, unless the source does not describe the call. */
  ghost predicate Tracks(defs: seq<FuncDef>, F: CallEnv) {
    forall f, args :: F(f, args) == OPEN || exists d: nat :: Meets(OpenCalls(defs, d)(f, args), F(f, args))
  }

  predicate Meets(r: CallResult, q: CallResult) {
    r == q || r.Unknown?
  }

  predicate EvalMeets<T(==)>(q: Eval<T>, r: Eval<T>) {
    q == Fault(Open) || r == q || r.Lost?
  }

  predicate ExecMeets(q: Outcome, r: Outcome) {
    q == Crash(Open) || q.OutOfTime? || r == q || r.NoClaim?
  }

  function Max(a: nat, b: nat): nat {
    if a < b then b else a
  }

  lemma EvalLater(defs: seq<FuncDef>, q: Eval<Word>, e: Expr, env: Env, d: nat, d': nat)
    requires d <= d' && EvalMeets(q, EvalExpr(OpenCalls(defs, d), e, env))
    ensures EvalMeets(q, EvalExpr(OpenCalls(defs, d'), e, env))
  {
    OpenMore(defs, d, d');
    EvalMore(OPEN, OpenCalls(defs, d), OpenCalls(defs, d'), e, env);
    hide EvalExpr, OpenCalls, Below;
  }

  lemma AllLater(defs: seq<FuncDef>, q: Eval<seq<Word>>, es: seq<Expr>, env: Env, d: nat, d': nat)
    requires d <= d' && EvalMeets(q, EvalAll(OpenCalls(defs, d), es, env))
    ensures EvalMeets(q, EvalAll(OpenCalls(defs, d'), es, env))
  {
    OpenMore(defs, d, d');
    AllMore(OPEN, OpenCalls(defs, d), OpenCalls(defs, d'), es, env);
    hide EvalAll, OpenCalls, Below;
  }

  lemma {:induction false} EvalTracks(defs: seq<FuncDef>, F: CallEnv, e: Expr, env: Env) returns (d: nat)
    requires Tracks(defs, F)
    ensures EvalMeets(EvalExpr(F, e, env), EvalExpr(OpenCalls(defs, d), e, env))
    decreases e, 1
  {
    hide Tracks, OpenCalls;
    match e
    case UnaryE(_, a) => d := EvalTracks(defs, F, a, env);
    case BinaryE(_, l, r) =>
      var d1 := EvalTracks(defs, F, l, env);
      var d2 := EvalTracks(defs, F, r, env);
      d := Max(d1, d2);
      EvalLater(defs, EvalExpr(F, l, env), l, env, d1, d);
      EvalLater(defs, EvalExpr(F, r, env), r, env, d2, d);
    case Compare(l, _, rs) =>
      var d1 := EvalTracks(defs, F, l, env);
      var d2 := AllTracks(defs, F, rs, env);
      d := Max(d1, d2);
      EvalLater(defs, EvalExpr(F, l, env), l, env, d1, d);
      AllLater(defs, EvalAll(F, rs, env), rs, env, d2, d);
    case BoolE(_, es) => d := AllTracks(defs, F, es, env);
    case IfExp(t, a, b) =>
      var d1 := EvalTracks(defs, F, t, env);
      var d2 := EvalTracks(defs, F, a, env);
      var d3 := EvalTracks(defs, F, b, env);
      d := IfExpLater(defs, F, e, env, d1, d2, d3);
    case CallE(f, args) =>
      var d1 := AllTracks(defs, F, args, env);
      d := ArgsLater(defs, F, f, args, env, d1);
    case _ => d := 0;
  }

  lemma IfExpLater(defs: seq<FuncDef>, F: CallEnv, e: Expr, env: Env, d1: nat, d2: nat, d3: nat) returns (d: nat)
    requires e.IfExp? && EvalMeets(EvalExpr(F, e.test, env), EvalExpr(OpenCalls(defs, d1), e.test, env))
    requires EvalMeets(EvalExpr(F, e.body, env), EvalExpr(OpenCalls(defs, d2), e.body, env))
    requires EvalMeets(EvalExpr(F, e.orelse, env), EvalExpr(OpenCalls(defs, d3), e.orelse, env))
    ensures EvalMeets(EvalExpr(F, e, env), EvalExpr(OpenCalls(defs, d), e, env))
  {
    hide OpenCalls;
    d := Max(d1, Max(d2, d3));
    EvalLater(defs, EvalExpr(F, e.test, env), e.test, env, d1, d);
    EvalLater(defs, EvalExpr(F, e.body, env), e.body, env, d2, d);
    EvalLater(defs, EvalExpr(F, e.orelse, env), e.orelse, env, d3, d);
  }

  lemma ArgsLater(defs: seq<FuncDef>, F: CallEnv, f: string, args: seq<Expr>, env: Env, d1: nat) returns (d: nat)
    requires Tracks(defs, F) && EvalMeets(EvalAll(F, args, env), EvalAll(OpenCalls(defs, d1), args, env))
    ensures EvalMeets(EvalExpr(F, CallE(f, args), env), EvalExpr(OpenCalls(defs, d), CallE(f, args), env))
  {
    hide Tracks, OpenCalls, EvalAll;
    var vs := EvalAll(F, args, env);
    d := d1;
    if vs.Val? {
      var d2 := CallTracks(defs, F, f, vs.value);
      d := Max(d1, d2);
      AllLater(defs, vs, args, env, d1, d);
      CallLater(defs, F(f, vs.value), f, vs.value, d2, d);
    }
  }

  lemma CallTracks(defs: seq<FuncDef>, F: CallEnv, f: string, args: seq<Word>) returns (d: nat)
    requires Tracks(defs, F)
    ensures F(f, args) == OPEN || Meets(OpenCalls(defs, d)(f, args), F(f, args))
  {
    d := 0;
    if F(f, args) != OPEN {
      d :| Meets(OpenCalls(defs, d)(f, args), F(f, args));
    }
  }

  lemma CallLater(defs: seq<FuncDef>, q: CallResult, f: string, args: seq<Word>, d: nat, d': nat)
    requires d <= d' && (q == OPEN || Meets(OpenCalls(defs, d)(f, args), q))
    ensures q == OPEN || Meets(OpenCalls(defs, d')(f, args), q)
  {
    OpenMore(defs, d, d');
    hide OpenCalls;
  }

  lemma {:induction false} AllTracks(defs: seq<FuncDef>, F: CallEnv, es: seq<Expr>, env: Env) returns (d: nat)
    requires Tracks(defs, F)
    ensures EvalMeets(EvalAll(F, es, env), EvalAll(OpenCalls(defs, d), es, env))
    decreases es, 0
  {
    hide Tracks, OpenCalls;
    if es == [] {
      d := 0;
    } else {
      var d1 := EvalTracks(defs, F, es[0], env);
      var d2 := AllTracks(defs, F, es[1..], env);
      d := Max(d1, d2);
      EvalLater(defs, EvalExpr(F, es[0], env), es[0], env, d1, d);
      AllLater(defs, EvalAll(F, es[1..], env), es[1..], env, d2, d);
    }
  }

  lemma ExecLater(defs: seq<FuncDef>, q: Outcome, s: Stmt, env: Env, fuel: nat, d: nat, d': nat)
    requires d <= d' && ExecMeets(q, Exec(OpenCalls(defs, d), s, env, fuel))
    ensures ExecMeets(q, Exec(OpenCalls(defs, d'), s, env, fuel))
  {
    OpenMore(defs, d, d');
    ExecMore(OPEN, OpenCalls(defs, d), OpenCalls(defs, d'), s, env, fuel, fuel);
    hide Exec, OpenCalls, Below;
  }

  lemma ExecAllLater(defs: seq<FuncDef>, q: Outcome, ss: seq<Stmt>, env: Env, fuel: nat, d: nat, d': nat)
    requires d <= d' && ExecMeets(q, ExecAll(OpenCalls(defs, d), ss, env, fuel))
    ensures ExecMeets(q, ExecAll(OpenCalls(defs, d'), ss, env, fuel))
  {
    OpenMore(defs, d, d');
    ExecAllMore(OPEN, OpenCalls(defs, d), OpenCalls(defs, d'), ss, env, fuel, fuel);
    hide ExecAll, OpenCalls, Below;
  }

  lemma ElifsLater(defs: seq<FuncDef>, q: Outcome, s: Stmt, i: nat, env: Env, fuel: nat, d: nat, d': nat)
    requires s.If? && i <= |s.elifs| && d <= d' && ExecMeets(q, ExecElifs(OpenCalls(defs, d), s, i, env, fuel))
    ensures ExecMeets(q, ExecElifs(OpenCalls(defs, d'), s, i, env, fuel))
  {
    OpenMore(defs, d, d');
    ElifsMore(OPEN, OpenCalls(defs, d), OpenCalls(defs, d'), s, i, env, fuel, fuel);
    hide ExecElifs, OpenCalls, Below;
  }

  lemma LoopLater(defs: seq<FuncDef>, q: Outcome, x: string, i: Word, stop: Word, step: Word, body: seq<Stmt>, env: Env,
                  fuel: nat, passes: nat, d: nat, d': nat)
    requires d <= d' && ExecMeets(q, ExecLoop(OpenCalls(defs, d), x, i, stop, step, body, env, fuel, passes))
    ensures ExecMeets(q, ExecLoop(OpenCalls(defs, d'), x, i, stop, step, body, env, fuel, passes))
  {
    OpenMore(defs, d, d');
    LoopMore(OPEN, OpenCalls(defs, d), OpenCalls(defs, d'), x, i, stop, step, body, env, fuel, fuel, passes, passes);
    hide ExecLoop, OpenCalls, Below;
  }

  /** Every run with answers under some bound is the source's run under some bound. */
  lemma {:induction false} ExecTracks(defs: seq<FuncDef>, F: CallEnv, s: Stmt, env: Env, fuel: nat) returns (d: nat)
    requires Tracks(defs, F)
    ensures ExecMeets(Exec(F, s, env, fuel), Exec(OpenCalls(defs, d), s, env, fuel))
    decreases fuel, s, 1
  {
    hide Tracks, OpenCalls, EvalExpr, EvalAll, ExecAll, ExecElifs, ExecLoop;
    match s
    case Assign(_, e) => d := EvalTracks(defs, F, e, env);
    case AugAssign(_, _, e) => d := EvalTracks(defs, F, e, env);
    case CallStmt(e) => d := EvalTracks(defs, F, e, env);
    case If(t, body, _, _) => d := IfTracks(defs, F, s, env, fuel);
    case While(t, body) => d := WhileTracks(defs, F, s, env, fuel);
    case ForRange(x, args, body) => d := ForTracks(defs, F, s, env, fuel);
    case Return(e) =>
      d := 0;
      if e.Some? {
        d := EvalTracks(defs, F, e.value, env);
      }
    case _ => d := 0;
  }

  lemma {:induction false} IfTracks(defs: seq<FuncDef>, F: CallEnv, s: Stmt, env: Env, fuel: nat) returns (d: nat)
    requires Tracks(defs, F) && s.If?
    ensures ExecMeets(Exec(F, s, env, fuel), Exec(OpenCalls(defs, d), s, env, fuel))
    decreases fuel, s, 0, |s.elifs| + 1
  {
    hide Tracks, OpenCalls, EvalExpr, ExecAll, ExecElifs;
    var d1 := EvalTracks(defs, F, s.test, env);
    var d2 := ExecAllTracks(defs, F, s.body, env, fuel);
    var d3 := ElifsTracks(defs, F, s, 0, env, fuel);
    d := Max(d1, Max(d2, d3));
    EvalLater(defs, EvalExpr(F, s.test, env), s.test, env, d1, d);
    ExecAllLater(defs, ExecAll(F, s.body, env, fuel), s.body, env, fuel, d2, d);
    ElifsLater(defs, ExecElifs(F, s, 0, env, fuel), s, 0, env, fuel, d3, d);
  }

  lemma {:induction false} WhileTracks(defs: seq<FuncDef>, F: CallEnv, s: Stmt, env: Env, fuel: nat) returns (d: nat)
    requires Tracks(defs, F) && s.While?
    ensures ExecMeets(Exec(F, s, env, fuel), Exec(OpenCalls(defs, d), s, env, fuel))
    decreases fuel, s, 0
  {
    hide Tracks, OpenCalls, EvalExpr, ExecAll;
    d := EvalTracks(defs, F, s.test, env);
    if fuel > 0 {
      var d1 := d;
      var d2 := ExecAllTracks(defs, F, s.body, env, fuel);
      var o := ExecAll(F, s.body, env, fuel);
      d := Max(d1, d2);
      if o.Next? || o.Continued? {
        var d3 := ExecTracks(defs, F, s, o.env, fuel - 1);
        d := Max(Max(d1, d2), d3);
        ExecLater(defs, Exec(F, s, o.env, fuel - 1), s, o.env, fuel - 1, d3, d);
      }
      EvalLater(defs, EvalExpr(F, s.test, env), s.test, env, d1, d);
      ExecAllLater(defs, o, s.body, env, fuel, d2, d);
    }
  }

  lemma {:induction false} ForTracks(defs: seq<FuncDef>, F: CallEnv, s: Stmt, env: Env, fuel: nat) returns (d: nat)
    requires Tracks(defs, F) && s.ForRange?
    ensures ExecMeets(Exec(F, s, env, fuel), Exec(OpenCalls(defs, d), s, env, fuel))
    decreases fuel, s, 0
  {
    hide Tracks, OpenCalls, EvalAll, ExecLoop;
    d := AllTracks(defs, F, s.rangeArgs, env);
    var r := EvalAll(F, s.rangeArgs, env);
    if r.Val? && 1 <= |r.value| <= 3 {
      var (start, stop, step) := RangeBounds(r.value);
      var d1 := d;
      var d2 := LoopTracks(defs, F, s.target, start, stop, step, s.body, env, fuel, fuel);
      d := Max(d1, d2);
      AllLater(defs, r, s.rangeArgs, env, d1, d);
      LoopLater(defs, ExecLoop(F, s.target, start, stop, step, s.body, env, fuel, fuel), s.target, start, stop, step,
                s.body, env, fuel, fuel, d2, d);
    }
  }

  lemma {:induction false} ExecAllTracks(defs: seq<FuncDef>, F: CallEnv, ss: seq<Stmt>, env: Env, fuel: nat)
    returns (d: nat)
    requires Tracks(defs, F)
    ensures ExecMeets(ExecAll(F, ss, env, fuel), ExecAll(OpenCalls(defs, d), ss, env, fuel))
    decreases fuel, ss, 0
  {
    hide Tracks, OpenCalls, Exec;
    if ss == [] {
      d := 0;
    } else {
      d := ExecTracks(defs, F, ss[0], env, fuel);
      var o := Exec(F, ss[0], env, fuel);
      if o.Next? {
        var d1 := d;
        var d2 := ExecAllTracks(defs, F, ss[1..], o.env, fuel);
        d := Max(d1, d2);
        ExecLater(defs, o, ss[0], env, fuel, d1, d);
        ExecAllLater(defs, ExecAll(F, ss[1..], o.env, fuel), ss[1..], o.env, fuel, d2, d);
      }
    }
  }

  lemma {:induction false} ElifsTracks(defs: seq<FuncDef>, F: CallEnv, s: Stmt, i: nat, env: Env, fuel: nat)
    returns (d: nat)
    requires Tracks(defs, F) && s.If? && i <= |s.elifs|
    ensures ExecMeets(ExecElifs(F, s, i, env, fuel), ExecElifs(OpenCalls(defs, d), s, i, env, fuel))
    decreases fuel, s, 0, |s.elifs| - i
  {
    hide Tracks, OpenCalls, EvalExpr, ExecAll;
    if i == |s.elifs| {
      d := ExecAllTracks(defs, F, s.orelse, env, fuel);
    } else {
      var a := s.elifs[i];
      var d1 := EvalTracks(defs, F, a.test, env);
      var d2 := ExecAllTracks(defs, F, a.body, env, fuel);
      var d3 := ElifsTracks(defs, F, s, i + 1, env, fuel);
      d := Max(d1, Max(d2, d3));
      EvalLater(defs, EvalExpr(F, a.test, env), a.test, env, d1, d);
      ExecAllLater(defs, ExecAll(F, a.body, env, fuel), a.body, env, fuel, d2, d);
      ElifsLater(defs, ExecElifs(F, s, i + 1, env, fuel), s, i + 1, env, fuel, d3, d);
    }
  }

  lemma {:induction false} LoopTracks(defs: seq<FuncDef>, F: CallEnv, x: string, i: Word, stop: Word, step: Word,
                                      body: seq<Stmt>, env: Env, fuel: nat, passes: nat) returns (d: nat)
    requires Tracks(defs, F)
    ensures ExecMeets(ExecLoop(F, x, i, stop, step, body, env, fuel, passes),
                      ExecLoop(OpenCalls(defs, d), x, i, stop, step, body, env, fuel, passes))
    decreases fuel, body, passes
  {
    hide Tracks, OpenCalls, ExecAll;
    d := 0;
    if i < stop && passes > 0 {
      var bound := env[x := i];
      d := ExecAllTracks(defs, F, body, bound, fuel);
      var o := ExecAll(F, body, bound, fuel);
      if o.Next? || o.Continued? {
        var j := Wrap(i + step);
        var d1 := d;
        var d2 := LoopTracks(defs, F, x, j, stop, step, body, o.env, fuel, passes - 1);
        d := Max(d1, d2);
        ExecAllLater(defs, o, body, bound, fuel, d1, d);
        LoopLater(defs, ExecLoop(F, x, j, stop, step, body, o.env, fuel, passes - 1), x, j, stop, step, body, o.env,
                  fuel, passes - 1, d2, d);
      }
    }
  }
}
