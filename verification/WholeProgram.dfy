/** Whole programs, over all bounds: the compiled program gives an answer if and only if the source does. */
module WholeProgram {
  import opened Words
  import opened Wrappers
  import opened Python
  import opened IR
  import opened Lowering
  import opened LoweringProgram
  import opened LoweringCorrect
  import opened PythonMonotone
  import opened Divergence
  import opened OpenRuns

  // ----- open calls in the IR -----

  /** The calls `F` does not answer, left open. */
  function Opened(F: CallEnv): CallEnv {
    (f: string, args: seq<Word>) => if F(f, args).Unknown? then OPEN else F(f, args)
  }

  /** A run that is not stuck has not asked for an answer that is missing. */
  lemma {:induction false} StepsOpened(code: Code, F: CallEnv, s: State, n: nat)
    requires !Steps(code, F, s, n).Stuck?
    ensures Steps(code, Opened(F), s, n) == Steps(code, F, s, n)
    decreases n
  {
    if n > 0 {
      var s' := Step(code, F, s);
      if s'.Stuck? {
        StepsStay(code, F, s', n - 1);
      }
      StepOpened(code, F, s);
      hide Step;
      StepsOpened(code, F, s', n - 1);
    }
  }

  lemma StepOpened(code: Code, F: CallEnv, s: State)
    requires !Step(code, F, s).Stuck?
    ensures Step(code, Opened(F), s) == Step(code, F, s)
  {
    hide FindLabel, Binary, Unary;
  }

  lemma RunOpened(f: IRFunc, args: seq<Word>, F: CallEnv)
    requires !RunFunc(f, args, F).Unknown?
    ensures RunFunc(f, args, Opened(F)) == RunFunc(f, args, F)
  {
    hide Steps;
    var s := RunEnd(f, args, F);
    var n: nat :| Steps(f.code, F, Entry(f, args), n) == s;
    StepsOpened(f.code, F, Entry(f, args), n);
    assert Reaches(f.code, Opened(F), Entry(f, args), s);
    RunFuncIs(f, args, Opened(F), s);
  }

  /** The state a run with a result ends in. */
  lemma RunEnd(f: IRFunc, args: seq<Word>, F: CallEnv) returns (s: State)
    requires !RunFunc(f, args, F).Unknown?
    ensures |f.params| == |args| && Reaches(f.code, F, Entry(f, args), s)
    ensures var r := RunFunc(f, args, F); s == if r.Returns? then Done(r.value) else Trap(r.why)
  {
    var r := RunFunc(f, args, F);
    s := if r.Returns? then Done(r.value) else Trap(r.why);
    hide Reaches;
  }

  ghost predicate NeverOpen(F: CallEnv) {
    forall f, args :: F(f, args) != OPEN
  }

  lemma {:induction false} StepsClosed(code: Code, F: CallEnv, s: State, n: nat)
    requires NeverOpen(F) && s != Trap(Open)
    ensures Steps(code, F, s, n) != Trap(Open)
    decreases n
  {
    if n > 0 {
      StepClosed(code, F, s);
      hide Step, NeverOpen;
      StepsClosed(code, F, Step(code, F, s), n - 1);
    }
  }

  lemma {:induction false} ArgsStuck(args: seq<Operand>, temps: Temps)
    ensures FirstUndefined(args, temps).Stuck?
    decreases |args|
  {
    if args != [] {
      ArgsStuck(args[1..], temps);
    }
  }

  lemma StepClosed(code: Code, F: CallEnv, s: State)
    requires NeverOpen(F) && s != Trap(Open)
    ensures Step(code, F, s) != Trap(Open)
  {
    if s.Run? && s.pc < |code| && code[s.pc].Call? {
      var vs := ReadArgs(code[s.pc].args, s.temps);
      assert vs.Some? ==> F(code[s.pc].func, vs.value) != OPEN;
      ArgsStuck(code[s.pc].args, s.temps);
    }
    hide FindLabel, Binary, Unary;
  }

  /** Calls of the IR end in answers or are unknown; they are never left open. */
  lemma {:induction false} IRClosed(fs: seq<IRFunc>, depth: nat)
    ensures NeverOpen(IRCalls(fs, depth))
    decreases depth
  {
    forall f, args
      ensures IRCalls(fs, depth)(f, args) != OPEN
    {
      var d := FindFunc(fs, f);
      if depth > 0 && d.Some? {
        IRClosed(fs, depth - 1);
        RunClosed(d.value, args, IRCalls(fs, depth - 1));
      }
      hide RunFunc;
    }
  }

  lemma RunClosed(f: IRFunc, args: seq<Word>, F: CallEnv)
    requires NeverOpen(F)
    ensures RunFunc(f, args, F) != OPEN
  {
    hide NeverOpen, Steps;
    if RunFunc(f, args, F) == OPEN {
      var s := RunEnd(f, args, F);
      var n: nat :| Steps(f.code, F, Entry(f, args), n) == s;
      StepsClosed(f.code, F, Entry(f, args), n);
    }
  }

  // ----- one body -----

  /** The compiled program's answers to the functions a body knows, as answers for the source. */
  ghost function Compiled(fs: seq<IRFunc>, known: map<string, string>, depth: nat): CallEnv {
    (f: string, args: seq<Word>) => if f in known then Opened(IRCalls(fs, depth))(known[f], args) else OPEN
  }

  lemma CompiledAgrees(fs: seq<IRFunc>, known: map<string, string>, depth: nat)
    ensures CallsAgree(Compiled(fs, known, depth), Opened(IRCalls(fs, depth)), known)
  {
    hide IRCalls, Opened;
  }

  /** If the calls in a body have their answers in the source, so has the body, unless the source does not describe what
      it does. */
  lemma BodyFound(p: Program, n: nat, name: string, params: seq<string>, body: seq<Stmt>, args: seq<Word>, depth: nat)
    returns (d: nat)
    requires n <= |p.defs| && |params| == |args|
    requires var known := Known(p.defs, n);
      && DefTyped(params, body, known) && LowerBody(params, body, map[], known).ok
      && Tracks(p.defs, Compiled(LowerProgram(p), known, depth))
    requires var f := IRFunc(name, params, LowerBody(params, body, map[], Known(p.defs, n)).code);
      !RunFunc(f, args, IRCalls(LowerProgram(p), depth)).Unknown?
    ensures var f := IRFunc(name, params, LowerBody(params, body, map[], Known(p.defs, n)).code);
      Meets(OpenResult(ExecAll(OpenCalls(p.defs, d), body, BindEnv(params, args), d + 1)),
            RunFunc(f, args, IRCalls(LowerProgram(p), depth)))
  {
    hide *;
    var fs, known, env := LowerProgram(p), Known(p.defs, n), BindEnv(params, args);
    var f := IRFunc(name, params, LowerBody(params, body, map[], known).code);
    var Fs, Fi := Compiled(fs, known, depth), Opened(IRCalls(fs, depth));
    var r := RunFunc(f, args, IRCalls(fs, depth));
    RunOpened(f, args, IRCalls(fs, depth));
    IRClosed(fs, depth);
    RunClosed(f, args, IRCalls(fs, depth));
    CompiledAgrees(fs, known, depth);
    var fuel: nat;
    if Described(Fs, body, env) {
      SameResults(name, params, body, known, Fs, Fi, args, r);
      fuel :| ResultOf(ExecAll(Fs, body, env, fuel)) == r;
    } else {
      fuel := NotDescribed(Fs, body, env);
    }
    var e := ExecAllTracks(p.defs, Fs, body, env, fuel);
    d := Max(e, fuel);
    MaxIs(e, fuel);
    ExecAllLater(p.defs, ExecAll(Fs, body, env, fuel), body, env, fuel, e, d);
    MorePasses(OpenCalls(p.defs, d), body, env, fuel, d + 1);
    Found(ExecAll(Fs, body, env, fuel), ExecAll(OpenCalls(p.defs, d), body, env, fuel), r);
  }

  lemma MaxIs(a: nat, b: nat)
    ensures a <= Max(a, b) && b <= Max(a, b)
  {
  }

  lemma NotDescribed(F: CallEnv, body: seq<Stmt>, env: Env) returns (fuel: nat)
    requires !Described(F, body, env)
    ensures ExecAll(F, body, env, fuel).NoClaim?
  {
    fuel :| ExecAll(F, body, env, fuel).NoClaim?;
  }

  lemma MorePasses(F: CallEnv, body: seq<Stmt>, env: Env, fuel: nat, more: nat)
    requires fuel <= more
    ensures OpenResult(ExecAll(F, body, env, fuel)) == OPEN
      || ExecAll(F, body, env, more) == ExecAll(F, body, env, fuel)
  {
    assert Below(OPEN, F, F);
    OpenAll(F, F, body, env, fuel, more);
  }

  lemma Found(q: Outcome, o: Outcome, r: CallResult)
    requires ExecMeets(q, o) && r != OPEN && !r.Unknown? && (q.NoClaim? || ResultOf(q) == r)
    ensures Meets(OpenResult(o), r) && OpenResult(o) != OPEN
  {
  }

  // ----- calls -----

  /** An answer of the compiled program is the source's under some bound, or the source does not describe the call. */
  lemma {:induction false} CallFound(p: Program, depth: nat, f: string, args: seq<Word>) returns (d: nat)
    requires ProgramTyped(p) && f in Known(p.defs, |p.defs|)
    requires !IRCall(LowerProgram(p), depth, Known(p.defs, |p.defs|)[f], args).Unknown?
    ensures Meets(OpenCall(p.defs, d, f, args), IRCall(LowerProgram(p), depth, Known(p.defs, |p.defs|)[f], args))
    decreases depth, 0
  {
    hide *;
    var fs := LowerProgram(p);
    var i := DefOf(p, f);
    FindsDef(p, i);
    IRDepth(fs, depth, NativeName(f), args);
    IRCallUnfolds(fs, depth, NativeName(f), args);
    var g := p.defs[i];
    var code := LowerBody(g.params, g.body, map[], Known(p.defs, i + 1)).code;
    var s := RunEnd(IRFunc(NativeName(f), g.params, code), args, IRCalls(fs, depth - 1));
    CallsFound(p, i + 1, depth - 1);
    var e := BodyFound(p, i + 1, NativeName(f), g.params, g.body, args, depth - 1);
    d := e + 1;
    OpenUnfolds(p.defs, d, f, args);
  }

  lemma IRDepth(fs: seq<IRFunc>, depth: nat, f: string, args: seq<Word>)
    requires !IRCall(fs, depth, f, args).Unknown?
    ensures depth > 0
  {
  }

  lemma OpenUnfolds(defs: seq<FuncDef>, depth: nat, f: string, args: seq<Word>)
    requires depth > 0
    ensures var d := FindDef(defs, f, |defs|);
      d.Some? && |args| == |d.value.params| ==>
        OpenCall(defs, depth, f, args)
          == OpenResult(ExecAll(OpenCalls(defs, depth - 1), d.value.body, BindEnv(d.value.params, args), depth))
  {
    hide ExecAll, FindDef;
  }

  lemma {:induction false} CallsFound(p: Program, n: nat, depth: nat)
    requires ProgramTyped(p) && n <= |p.defs|
    ensures Tracks(p.defs, Compiled(LowerProgram(p), Known(p.defs, n), depth))
    decreases depth, 1
  {
    var fs, known := LowerProgram(p), Known(p.defs, n);
    var F := Compiled(fs, known, depth);
    forall f, args | F(f, args) != OPEN
      ensures exists d: nat :: Meets(OpenCalls(p.defs, d)(f, args), F(f, args))
    {
      FewerNames(p, n, f);
      hide *;
      CompiledIs(fs, known, depth, f, args);
      var d := CallFound(p, depth, f, args);
      OpenCallsIs(p.defs, d, f, args);
    }
  }

  lemma CompiledIs(fs: seq<IRFunc>, known: map<string, string>, depth: nat, f: string, args: seq<Word>)
    requires Compiled(fs, known, depth)(f, args) != OPEN
    ensures f in known && !IRCall(fs, depth, known[f], args).Unknown?
    ensures Compiled(fs, known, depth)(f, args) == IRCall(fs, depth, known[f], args)
  {
    var F := IRCalls(fs, depth);
    assert f in known;
    IRCallsIs(fs, depth, known[f], args);
    hide IRCall, IRCalls;
    OpenedIs(F, known[f], args);
  }

  lemma OpenedIs(F: CallEnv, f: string, args: seq<Word>)
    ensures Opened(F)(f, args) == if F(f, args).Unknown? then OPEN else F(f, args)
  {
  }

  lemma IRCallsIs(fs: seq<IRFunc>, depth: nat, f: string, args: seq<Word>)
    ensures IRCalls(fs, depth)(f, args) == IRCall(fs, depth, f, args)
  {
    hide IRCall;
  }

  lemma OpenCallsIs(defs: seq<FuncDef>, depth: nat, f: string, args: seq<Word>)
    ensures OpenCalls(defs, depth)(f, args) == OpenCall(defs, depth, f, args)
  {
    hide OpenCall;
  }

  lemma FewerNames(p: Program, n: nat, f: string)
    requires ProgramTyped(p) && n <= |p.defs|
    ensures var known, all := Known(p.defs, n), Known(p.defs, |p.defs|);
      f in known ==> f in all && all[f] == known[f]
  {
    KnownIs(p.defs, n, f);
    KnownIs(p.defs, |p.defs|, f);
    hide DefTyped, DistinctNames, LowerDef, LowerMain;
  }

  // ----- the whole -----

  /** The source describes the call: it never reads a name before it is assigned, nor calls `range` with the wrong
      number of arguments. */
  ghost predicate CallDescribed(p: Program, f: string, args: seq<Word>) {
    forall d: nat :: !OpenCall(p.defs, d, f, args).Unknown?
  }

  /** The source gives `r` under some bound. */
  ghost predicate SourceGives(p: Program, f: string, args: seq<Word>, r: CallResult) {
    exists depth: nat :: SourceCall(p.defs, depth, f, args) == r
  }

  /** The compiled program gives `r` under some bound on the calls inside each other. */
  ghost predicate CompiledGives(p: Program, native: string, args: seq<Word>, r: CallResult) {
    exists depth: nat :: IRCall(LowerProgram(p), depth, native, args) == r
  }

  /** For every call of every typed program that the source describes: the compiled program answers `r` if and only if
      the source does. */
  lemma SameAnswers(p: Program, f: string, args: seq<Word>, r: CallResult)
    requires ProgramTyped(p) && f in Known(p.defs, |p.defs|) && CallDescribed(p, f, args) && !r.Unknown?
    ensures CompiledGives(p, Known(p.defs, |p.defs|)[f], args, r) <==> SourceGives(p, f, args, r)
  {
    hide ProgramTyped, LowerProgram, Known, IRCall, SourceCall, OpenCall;
    if SourceGives(p, f, args, r) {
      var depth: nat :| SourceCall(p.defs, depth, f, args) == r;
      ProgramCall(p, depth, f, args);
    }
    if CompiledGives(p, Known(p.defs, |p.defs|)[f], args, r) {
      var depth: nat :| IRCall(LowerProgram(p), depth, Known(p.defs, |p.defs|)[f], args) == r;
      var d := CallFound(p, depth, f, args);
      IRCallClosed(LowerProgram(p), depth, Known(p.defs, |p.defs|)[f], args);
      assert OpenCall(p.defs, d, f, args) == r;
      OpenCallIsSource(p.defs, d, f, args);
    }
  }

  lemma IRCallClosed(fs: seq<IRFunc>, depth: nat, f: string, args: seq<Word>)
    ensures IRCall(fs, depth, f, args) != OPEN
  {
    IRClosed(fs, depth);
    assert IRCalls(fs, depth)(f, args) != OPEN;
    hide IRCall;
  }

  lemma OpenCallIsSource(defs: seq<FuncDef>, depth: nat, f: string, args: seq<Word>)
    ensures OpenCall(defs, depth, f, args) == OPEN || SourceCall(defs, depth, f, args) == OpenCall(defs, depth, f, args)
  {
    OpenIsSource(defs, depth);
    assert OpenCalls(defs, depth)(f, args) == OPEN
      || SourceCalls(defs, depth)(f, args) == OpenCalls(defs, depth)(f, args);
    hide OpenCall, SourceCall;
  }

  /** So a call that has no answer in the source, be it for a loop or for calls without an end, has none in the compiled
      program. */
  lemma NoAnswers(p: Program, f: string, args: seq<Word>)
    requires ProgramTyped(p) && f in Known(p.defs, |p.defs|) && CallDescribed(p, f, args)
    ensures (forall r | CompiledGives(p, Known(p.defs, |p.defs|)[f], args, r) :: r.Unknown?)
      <==> (forall r | SourceGives(p, f, args, r) :: r.Unknown?)
  {
    hide *;
    forall r: CallResult | !r.Unknown?
      ensures CompiledGives(p, Known(p.defs, |p.defs|)[f], args, r) <==> SourceGives(p, f, args, r)
    {
      SameAnswers(p, f, args, r);
    }
  }

  // ----- the entry point -----

  /** The result of the top-level statements under a bound, left open beyond it. */
  function OpenMain(p: Program, depth: nat): CallResult {
    OpenResult(ExecAll(OpenCalls(p.defs, depth), p.main, map[], depth + 1))
  }

  function SourceMain(p: Program, depth: nat): CallResult {
    ResultOf(ExecAll(SourceCalls(p.defs, depth), p.main, map[], depth + 1))
  }

  ghost predicate MainDescribed(p: Program) {
    forall d: nat :: !OpenMain(p, d).Unknown?
  }

  /** The same for the top-level statements of a program. */
  lemma SameMain(p: Program, r: CallResult)
    requires ProgramTyped(p) && MainDescribed(p) && !r.Unknown?
    ensures (exists depth: nat :: IRCall(LowerProgram(p), depth, "main", []) == r)
      <==> (exists depth: nat :: SourceMain(p, depth) == r)
  {
    hide *;
    var fs := LowerProgram(p);
    if depth: nat :| SourceMain(p, depth) == r {
      SourceMainIs(p, depth);
      ProgramMain(p, depth + 1);
    }
    if depth: nat :| IRCall(fs, depth, "main", []) == r {
      var d := MainFound(p, depth);
      IRCallClosed(fs, depth, "main", []);
      MainDescribedAt(p, d);
      MeetsKnown(OpenMain(p, d), r);
      OpenMainIsSource(p, d);
    }
  }

  lemma SourceMainIs(p: Program, depth: nat)
    ensures SourceMain(p, depth) == ResultOf(ExecAll(SourceCalls(p.defs, depth + 1 - 1), p.main, map[], depth + 1))
  {
  }

  lemma MainDescribedAt(p: Program, d: nat)
    requires MainDescribed(p)
    ensures !OpenMain(p, d).Unknown?
  {
    hide OpenMain;
  }

  lemma MeetsKnown(r: CallResult, q: CallResult)
    requires Meets(r, q) && !r.Unknown?
    ensures r == q
  {
  }

  lemma MainFound(p: Program, depth: nat) returns (d: nat)
    requires ProgramTyped(p) && !IRCall(LowerProgram(p), depth, "main", []).Unknown?
    ensures Meets(OpenMain(p, d), IRCall(LowerProgram(p), depth, "main", []))
  {
    hide *;
    var fs, n := LowerProgram(p), |p.defs|;
    MainIs(p);
    IRDepth(fs, depth, "main", []);
    IRCallUnfolds(fs, depth, "main", []);
    CallsFound(p, n, depth - 1);
    d := BodyFound(p, n, "main", [], p.main, [], depth - 1);
    OpenMainIs(p, d);
  }

  lemma OpenMainIs(p: Program, d: nat)
    ensures OpenMain(p, d) == OpenResult(ExecAll(OpenCalls(p.defs, d), p.main, map[], d + 1))
  {
  }

  lemma OpenMainIsSource(p: Program, d: nat)
    requires !OpenMain(p, d).Unknown? && OpenMain(p, d) != OPEN
    ensures SourceMain(p, d) == OpenMain(p, d)
  {
    OpenIsSource(p.defs, d);
    OpenAll(OpenCalls(p.defs, d), SourceCalls(p.defs, d), p.main, map[], d + 1, d + 1);
    hide ExecAll, OpenCalls, SourceCalls;
  }
}
