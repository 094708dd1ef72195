/** What does not end: a source run that no bound suffices for is an IR run without an end, and the other way round. */
module Divergence {
  import opened Words
  import opened Wrappers
  import opened Python
  import opened IR
  import opened Lowering
  import opened LoweringGrows
  import opened Typing
  import opened LoweringCorrect
  import opened LoweringEnds
  import opened LoweringStmts
  import opened LoweringProgram

  /** A run that is out of time has made as many passes as the bound allows. */
  predicate Late(o: Outcome, n: nat) {
    o.OutOfTime? ==> o.passes >= n
  }

  lemma {:induction false} ExecLate(F: CallEnv, s: Stmt, env: Env, fuel: nat)
    ensures Late(Exec(F, s, env, fuel), fuel)
    decreases fuel, s, 1
  {
    match s
    case If(_, body, _, _) =>
      hide ExecAll, ExecElifs;
      AllLate(F, body, env, fuel);
      ElifsLate(F, s, 0, env, fuel);
    case While(_, body) =>
      AllLate(F, body, env, fuel);
      hide ExecAll;
      var o := ExecAll(F, body, env, fuel);
      if fuel > 0 && (o.Next? || o.Continued?) {
        ExecLate(F, s, o.env, fuel - 1);
      }
    case ForRange(x, args, body) =>
      hide ExecLoop;
      var r := EvalAll(F, args, env);
      if r.Val? && 1 <= |r.value| <= 3 {
        var (start, stop, step) := RangeBounds(r.value);
        LoopLate(F, x, start, stop, step, body, env, fuel, fuel);
      }
    case _ =>
  }

  lemma {:induction false} AllLate(F: CallEnv, ss: seq<Stmt>, env: Env, fuel: nat)
    ensures Late(ExecAll(F, ss, env, fuel), fuel)
    decreases fuel, ss, 0
  {
    if ss != [] {
      hide Exec;
      ExecLate(F, ss[0], env, fuel);
      var o := Exec(F, ss[0], env, fuel);
      if o.Next? {
        AllLate(F, ss[1..], o.env, fuel);
      }
    }
  }

  lemma {:induction false} ElifsLate(F: CallEnv, s: Stmt, i: nat, env: Env, fuel: nat)
    requires s.If? && i <= |s.elifs|
    ensures Late(ExecElifs(F, s, i, env, fuel), fuel)
    decreases fuel, s, 0, |s.elifs| - i
  {
    hide ExecAll;
    if i == |s.elifs| {
      AllLate(F, s.orelse, env, fuel);
    } else {
      AllLate(F, s.elifs[i].body, env, fuel);
      ElifsLate(F, s, i + 1, env, fuel);
    }
  }

  lemma {:induction false} LoopLate(F: CallEnv, x: string, i: Word, stop: Word, step: Word, body: seq<Stmt>, env: Env,
                                    fuel: nat, passes: nat)
    requires passes <= fuel
    ensures Late(ExecLoop(F, x, i, stop, step, body, env, fuel, passes), passes)
    decreases fuel, body, passes
  {
    if i < stop && passes > 0 {
      AllLate(F, body, env[x := i], fuel);
      hide ExecAll;
      var o := ExecAll(F, body, env[x := i], fuel);
      if o.Next? || o.Continued? {
        LoopLate(F, x, Wrap(i + step), stop, step, body, o.env, fuel, passes - 1);
      }
    }
  }

  /** A body that is out of time after some passes runs for as many steps, and no `break` or `continue` leaves it. */
  lemma BodyLasts(params: seq<string>, body: seq<Stmt>, funcs: map<string, string>, Fs: CallEnv, Fi: CallEnv,
                  args: seq<Word>, fuel: nat)
    requires DefTyped(params, body, funcs) && LowerBody(params, body, map[], funcs).ok
    requires CallsAgree(Fs, Fi, funcs) && |params| == |args|
    ensures var o := ExecAll(Fs, body, BindEnv(params, args), fuel);
      && !o.Broke? && !o.Continued?
      && (o.OutOfTime? ==>
           Lasts(LowerBody(params, body, map[], funcs).code, Fi, Run(0, map[], BindParams(params, args)), o.passes))
  {
    hide *;
    var c, code := BodyStart(params, map[], funcs), LowerBody(params, body, map[], funcs).code;
    var env, V := BindEnv(params, args), BindParams(params, args);
    var w := World(code, Fs, Fi, LowerStmts(body, c).vars);
    BodyFits(params, body, funcs, Fs, Fi, args);
    BodyIsTyped(params, body, funcs);
    AllocasRun(code, Fi, |c.code|, map[], V);
    var s := StmtsRuns(w, body, c, env, map[], V, fuel);
    var o := ExecAll(Fs, body, env, fuel);
    var mid := Run(|c.code|, map[], V);
    EndsNowhere(w, o, mid, c, |LowerStmts(body, c).code|, map[], s);
    if o.OutOfTime? {
      LastsAfter(code, Fi, Run(0, map[], V), mid, o.passes);
    }
  }

  lemma BodyIsTyped(params: seq<string>, body: seq<Stmt>, funcs: map<string, string>)
    requires DefTyped(params, body, funcs)
    ensures StmtsTyped(body, BodyStart(params, map[], funcs))
    ensures BodyStart(params, map[], funcs).exit.None? && BodyStart(params, map[], funcs).cont.None?
  {
    hide StmtsTyped;
    ParamsFixed(params, Ctx([], 0, 0, map[], None, None, funcs, true));
  }

  lemma EndsNowhere(w: World, o: Outcome, from: State, c: Ctx, p: nat, T: Temps, s: State)
    requires Ends(w, o, from, c, p, T, s) && c.exit.None? && c.cont.None?
    ensures !o.Broke? && !o.Continued? && (o.OutOfTime? ==> Lasts(w.code, w.Fi, from, o.passes))
  {
  }

  /** No bound meets anything the semantics does not describe. */
  ghost predicate Described(F: CallEnv, body: seq<Stmt>, env: Env) {
    forall fuel: nat :: !ExecAll(F, body, env, fuel).NoClaim?
  }

  /** A run that has ended is one some bound suffices for. */
  lemma EndIsFound(params: seq<string>, body: seq<Stmt>, funcs: map<string, string>, Fs: CallEnv, Fi: CallEnv,
                   args: seq<Word>, n: nat)
    requires DefTyped(params, body, funcs) && LowerBody(params, body, map[], funcs).ok
    requires CallsAgree(Fs, Fi, funcs) && |params| == |args| && Described(Fs, body, BindEnv(params, args))
    requires !Steps(LowerBody(params, body, map[], funcs).code, Fi, Run(0, map[], BindParams(params, args)), n).Run?
    ensures !ResultOf(ExecAll(Fs, body, BindEnv(params, args), n)).Unknown?
  {
    var o := ExecAll(Fs, body, BindEnv(params, args), n);
    BodyLasts(params, body, funcs, Fs, Fi, args, n);
    AllLate(Fs, body, BindEnv(params, args), n);
    assert !o.NoClaim?;
    hide ExecAll, LowerBody, DefTyped, Described;
    if o.OutOfTime? {
      var code, s := LowerBody(params, body, map[], funcs).code, Run(0, map[], BindParams(params, args));
      LastsMeans(code, Fi, s, o.passes);
      StepsAdd(code, Fi, s, n, o.passes - n);
      StepsStay(code, Fi, Steps(code, Fi, s, n), o.passes - n);
    }
  }

  /** For every function whose runs the semantics describes: its IR gives a result if and only if the source gives it
      under some bound. */
  lemma SameResults(name: string, params: seq<string>, body: seq<Stmt>, funcs: map<string, string>, Fs: CallEnv,
                    Fi: CallEnv, args: seq<Word>, r: CallResult)
    requires DefTyped(params, body, funcs) && LowerBody(params, body, map[], funcs).ok && !r.Unknown?
    requires CallsAgree(Fs, Fi, funcs) && |params| == |args| && Described(Fs, body, BindEnv(params, args))
    ensures RunFunc(IRFunc(name, params, LowerBody(params, body, map[], funcs).code), args, Fi) == r
      <==> exists fuel: nat :: ResultOf(ExecAll(Fs, body, BindEnv(params, args), fuel)) == r
  {
    hide *;
    var f, env := IRFunc(name, params, LowerBody(params, body, map[], funcs).code), BindEnv(params, args);
    if RunFunc(f, args, Fi) == r {
      var n := EndOf(f, args, Fi);
      EndIsFound(params, body, funcs, Fs, Fi, args, n);
      BodyResult(name, params, body, funcs, Fs, Fi, args, n);
    }
    if fuel: nat :| ResultOf(ExecAll(Fs, body, env, fuel)) == r {
      BodyResult(name, params, body, funcs, Fs, Fi, args, fuel);
    }
  }

  /** And it runs forever if and only if the source is out of time under every bound. */
  lemma SameEndless(name: string, params: seq<string>, body: seq<Stmt>, funcs: map<string, string>, Fs: CallEnv,
                    Fi: CallEnv, args: seq<Word>)
    requires DefTyped(params, body, funcs) && LowerBody(params, body, map[], funcs).ok
    requires CallsAgree(Fs, Fi, funcs) && |params| == |args| && Described(Fs, body, BindEnv(params, args))
    ensures Endless(IRFunc(name, params, LowerBody(params, body, map[], funcs).code), args, Fi)
      <==> forall fuel: nat :: ExecAll(Fs, body, BindEnv(params, args), fuel).OutOfTime?
  {
    hide *;
    var f, env := IRFunc(name, params, LowerBody(params, body, map[], funcs).code), BindEnv(params, args);
    if !Endless(f, args, Fi) {
      var n := NotEndless(f, args, Fi);
      EndIsFound(params, body, funcs, Fs, Fi, args, n);
      KnownIsInTime(ExecAll(Fs, body, env, n));
    }
    if fuel: nat :| !ExecAll(Fs, body, env, fuel).OutOfTime? {
      BodyLasts(params, body, funcs, Fs, Fi, args, fuel);
      DescribedAt(Fs, body, env, fuel);
      InTimeIsKnown(ExecAll(Fs, body, env, fuel));
      BodyResult(name, params, body, funcs, Fs, Fi, args, fuel);
      var n := EndOf(f, args, Fi);
      EndlessMeans(f, args, Fi, n);
    }
  }

  ghost predicate Endless(f: IRFunc, args: seq<Word>, F: CallEnv)
    requires |f.params| == |args|
  {
    forall n: nat :: Steps(f.code, F, Run(0, map[], BindParams(f.params, args)), n).Run?
  }

  lemma NotEndless(f: IRFunc, args: seq<Word>, F: CallEnv) returns (n: nat)
    requires |f.params| == |args| && !Endless(f, args, F)
    ensures !Steps(f.code, F, Run(0, map[], BindParams(f.params, args)), n).Run?
  {
    n :| !Steps(f.code, F, Run(0, map[], BindParams(f.params, args)), n).Run?;
  }

  lemma EndlessMeans(f: IRFunc, args: seq<Word>, F: CallEnv, n: nat)
    requires |f.params| == |args|
    ensures Endless(f, args, F) ==> Steps(f.code, F, Run(0, map[], BindParams(f.params, args)), n).Run?
  {
  }

  lemma KnownIsInTime(o: Outcome)
    requires !ResultOf(o).Unknown?
    ensures !o.OutOfTime?
  {
  }

  lemma InTimeIsKnown(o: Outcome)
    requires !o.Broke? && !o.Continued? && !o.NoClaim? && !o.OutOfTime?
    ensures !ResultOf(o).Unknown?
  {
  }

  lemma DescribedAt(F: CallEnv, body: seq<Stmt>, env: Env, fuel: nat)
    requires Described(F, body, env)
    ensures !ExecAll(F, body, env, fuel).NoClaim?
  {
  }

  /** Where a run with a result ends. */
  lemma EndOf(f: IRFunc, args: seq<Word>, F: CallEnv) returns (n: nat)
    requires |f.params| == |args| && !RunFunc(f, args, F).Unknown?
    ensures !Steps(f.code, F, Run(0, map[], BindParams(f.params, args)), n).Run?
  {
    var s := Entry(f, args);
    if v :| Reaches(f.code, F, s, Done(v)) {
      n :| Steps(f.code, F, s, n) == Done(v);
    } else {
      var y :| Reaches(f.code, F, s, Trap(y));
      n :| Steps(f.code, F, s, n) == Trap(y);
    }
  }
}
