/** Whole functions and whole programs: every compiled function is well formed, and calling it gives what the
    source function gives, for any depth of calls. */
module LoweringProgram {
  import opened Words
  import opened Wrappers
  import opened Python
  import opened IR
  import opened Lowering
  import opened Names
  import opened LoweringGrows
  import opened Typing
  import opened LoweringCorrect
  import opened IRCheck
  import opened LoweringChecked
  import opened LoweringEnds
  import opened LoweringStmts

  // ----- programs -----

  predicate DistinctNames(defs: seq<FuncDef>) {
    forall i, j | 0 <= i < j < |defs| :: NativeName(defs[i].name) != NativeName(defs[j].name)
  }

  /** The functions known when the first `n` definitions have been met, by native name. */
  function Known(defs: seq<FuncDef>, n: nat): map<string, string>
    requires n <= |defs|
  {
    if n == 0 then map[] else Known(defs, n - 1)[defs[n - 1].name := NativeName(defs[n - 1].name)]
  }

  /** The `i`-th function, which knows itself and the ones before it. */
  function LowerDef(defs: seq<FuncDef>, i: nat): Ctx
    requires i < |defs|
  {
    LowerBody(defs[i].params, defs[i].body, map[], Known(defs, i + 1))
  }

  function LowerMain(p: Program): Ctx {
    LowerBody([], p.main, map[], Known(p.defs, |p.defs|))
  }

  function LowerDefs(defs: seq<FuncDef>, n: nat): seq<IRFunc>
    requires n <= |defs|
  {
    if n == 0 then []
    else LowerDefs(defs, n - 1) + [IRFunc(NativeName(defs[n - 1].name), defs[n - 1].params, LowerDef(defs, n - 1).code)]
  }

  /** The module: the entry point `main`, then the functions. */
  function LowerProgram(p: Program): seq<IRFunc> {
    [IRFunc("main", [], LowerMain(p).code)] + LowerDefs(p.defs, |p.defs|)
  }

  /** A function body as it starts being compiled. */
  function BodyStart(params: seq<string>, vars: Types, funcs: map<string, string>): Ctx {
    DeclareParams(params, Ctx([], 0, 0, vars, None, None, funcs, true))
  }

  predicate DefTyped(params: seq<string>, body: seq<Stmt>, funcs: map<string, string>) {
    (forall x <- params :: UserName(x)) && StmtsTyped(body, BodyStart(params, map[], funcs))
  }

  predicate ProgramTyped(p: Program) {
    && DistinctNames(p.defs)
    && (forall i | 0 <= i < |p.defs| :: NativeName(p.defs[i].name) != "main")
    && (forall i | 0 <= i < |p.defs| :: DefTyped(p.defs[i].params, p.defs[i].body, Known(p.defs, i + 1)))
    && (forall i | 0 <= i < |p.defs| :: LowerDef(p.defs, i).ok)
    && DefTyped([], p.main, Known(p.defs, |p.defs|)) && LowerMain(p).ok
  }

  // ----- every compiled function passes the check -----

  lemma {:induction false} ParamsOk(params: seq<string>, c: Ctx)
    requires On(c, map[], {}, {})
    ensures On(DeclareParams(params, c), map[], {}, {})
    decreases |params|
  {
    if params != [] {
      hide On;
      var x := Local(params[0]);
      OnEmit(c, Alloca(x), map[], {}, {});
      OnSame(Emit(c, Alloca(x)), Emit(c, Alloca(x)).(vars := c.vars[x := I64Ty]), map[], {}, {});
      ParamsOk(params[1..], Emit(c, Alloca(x)).(vars := c.vars[x := I64Ty]));
    }
  }

  lemma ParamsFixed(params: seq<string>, c: Ctx)
    ensures var d := DeclareParams(params, c);
      d.exit == c.exit && d.cont == c.cont && d.funcs == c.funcs && d.lbl == c.lbl && d.ok == c.ok && d.tmp == c.tmp
    decreases |params|
  {
    if params != [] {
      ParamsFixed(params[1..], Emit(c, Alloca(Local(params[0]))).(vars := c.vars[Local(params[0]) := I64Ty]));
    }
  }

  /** Whatever the enclosing scope and the body: unless a name is unknown, the emitted code passes the check. */
  lemma BodyAccepted(params: seq<string>, body: seq<Stmt>, vars: Types, funcs: map<string, string>) returns (L: Notes)
    requires LowerBody(params, body, vars, funcs).ok
    ensures Accepted(LowerBody(params, body, vars, funcs).code, L)
  {
    var c := BodyStart(params, vars, funcs);
    var d := LowerStmts(body, c);
    StartIsOn(params, vars, funcs);
    hide Check, On, Off, LowerStmts;
    var none: Notes := map[];
    OnIsPoint(c, none, {}, {});
    L := StmtsOk(body, c, none, {}, {});
    assert {} + (L.Keys - none.Keys) == L.Keys;
    if Terminated(d.code) {
      OffIsAccepted(d, L);
    } else {
      OnTemp(d, Const(d.tmp, 0), L, {}, L.Keys);
      var d1 := EmitTemp(d, Const(d.tmp, 0));
      OnHas(d1, L, {} + {d.tmp}, L.Keys, d.tmp);
      OffRet(d1, d.tmp, L, {} + {d.tmp}, L.Keys);
      OffIsAccepted(Emit(d1, Ret(Tmp(d.tmp))), L);
    }
  }

  lemma OffIsAccepted(c: Ctx, L: Notes)
    requires Off(c, L, L.Keys)
    ensures Accepted(c.code, L)
  {
  }

  lemma StartIsOn(params: seq<string>, vars: Types, funcs: map<string, string>)
    ensures var c := BodyStart(params, vars, funcs);
      On(c, map[], {}, {}) && c.exit == None && c.cont == None
  {
    var c0 := Ctx([], 0, 0, vars, None, None, funcs, true);
    assert Check([], map[]) == Start;
    ParamsOk(params, c0);
    ParamsFixed(params, c0);
  }

  /** On every run of a compiled function, with any arguments and any answers to its calls: no temporary is read
      before it is written, every jump finds its label, and control never runs off the end. */
  lemma CompiledIsSafe(name: string, params: seq<string>, body: seq<Stmt>, vars: Types, funcs: map<string, string>,
                       F: CallEnv, args: seq<Word>, n: nat)
    requires LowerBody(params, body, vars, funcs).ok && |args| == |params|
    ensures var code := LowerBody(params, body, vars, funcs).code;
      var s := Steps(code, F, Entry(IRFunc(name, params, code), args), n);
      s.Stuck? ==> s.why.UndefinedName? || s.why.NoAnswer?
  {
    var L := BodyAccepted(params, body, vars, funcs);
    AcceptedIsSafe(IRFunc(name, params, LowerBody(params, body, vars, funcs).code), L, F, args, n);
  }

  /** Every compiled function passes the one-pass check; so each label is placed once, each temporary has one
      definition, and each jump's label is placed. */
  lemma CompiledIsTidy(params: seq<string>, body: seq<Stmt>, vars: Types, funcs: map<string, string>)
    requires LowerBody(params, body, vars, funcs).ok
    ensures var code := LowerBody(params, body, vars, funcs).code;
      && WellFormed(code) && UniqueLabels(code)
      && (forall i, j | 0 <= i < j < |code| && Dest(code[i]).Some? :: Dest(code[i]) != Dest(code[j]))
      && (forall i | 0 <= i < |code| && Target(code[i]).Some? :: FindLabel(code, Target(code[i]).value).Some?)
  {
    var code := LowerBody(params, body, vars, funcs).code;
    var L := BodyAccepted(params, body, vars, funcs);
    AcceptedLabels(code, L);
    forall i, j | 0 <= i < j < |code| && Dest(code[i]).Some?
      ensures Dest(code[i]) != Dest(code[j])
    {
      AcceptedTemps(code, L, i, j);
    }
    forall i | 0 <= i < |code| && Target(code[i]).Some?
      ensures FindLabel(code, Target(code[i]).value).Some?
    {
      CheckPrefix(code, L, i);
      CheckPrefix(code, L, i + 1);
      PlacedIs(code, L);
      assert Label(Target(code[i]).value) in code;
    }
  }

  // ----- calling a source function -----

  function BindEnv(params: seq<string>, args: seq<Word>): Env
    requires |params| == |args|
  {
    if params == [] then map[]
    else BindEnv(params[..|params| - 1], args[..|args| - 1])[params[|params| - 1] := args[|args| - 1]]
  }

  /** A body that ends without `return` returns 0. */
  function ResultOf(o: Outcome): CallResult {
    match o
    case Returned(v) => Returns(v)
    case Next(_) => Returns(0)
    case Crash(y) => Faults(y)
    case _ => Unknown
  }

  function FindDef(defs: seq<FuncDef>, f: string, n: nat): Option<FuncDef>
    requires n <= |defs|
  {
    if n == 0 then None else if defs[n - 1].name == f then Some(defs[n - 1]) else FindDef(defs, f, n - 1)
  }

  /** A call of `f`, with at most `depth` calls inside each other and `depth` iterations of each `while`. */
  function SourceCall(defs: seq<FuncDef>, depth: nat, f: string, args: seq<Word>): CallResult
    decreases depth, 0
  {
    var d := FindDef(defs, f, |defs|);
    if depth == 0 || d.None? || |args| != |d.value.params| then Unknown
    else ResultOf(ExecAll(SourceCalls(defs, depth - 1), d.value.body, BindEnv(d.value.params, args), depth))
  }

  function SourceCalls(defs: seq<FuncDef>, depth: nat): CallEnv
    decreases depth, 1
  {
    (f: string, args: seq<Word>) => SourceCall(defs, depth, f, args)
  }

  function FindFunc(fs: seq<IRFunc>, f: string): Option<IRFunc> {
    if fs == [] then None else if fs[0].name == f then Some(fs[0]) else FindFunc(fs[1..], f)
  }

  /** A call of the IR function `f`, with at most `depth` calls inside each other. */
  ghost function IRCall(fs: seq<IRFunc>, depth: nat, f: string, args: seq<Word>): CallResult
    decreases depth, 0
  {
    var d := FindFunc(fs, f);
    if depth == 0 || d.None? then Unknown else RunFunc(d.value, args, IRCalls(fs, depth - 1))
  }

  ghost function IRCalls(fs: seq<IRFunc>, depth: nat): CallEnv
    decreases depth, 1
  {
    (f: string, args: seq<Word>) => IRCall(fs, depth, f, args)
  }

  // ----- one function -----

  lemma {:induction false} BindAgrees(params: seq<string>, args: seq<Word>)
    requires |params| == |args|
    ensures Agrees(BindEnv(params, args), BindParams(params, args))
    ensures forall x <- BindEnv(params, args) :: x in params
    decreases |params|
  {
    if params != [] {
      BindAgrees(params[..|params| - 1], args[..|args| - 1]);
    }
  }

  lemma {:induction false} ParamsTyped(params: seq<string>, c: Ctx)
    ensures var d := DeclareParams(params, c);
      && Prefix(c.code, d.code) && PlainFrom(d.code, |c.code|)
      && (forall x <- params :: Local(x) in d.vars && d.vars[Local(x)] == I64Ty)
      && (forall x: string | Local(x) in c.vars ::
          Local(x) in d.vars && (x !in params ==> d.vars[Local(x)] == c.vars[Local(x)]))
      && (forall i | |c.code| <= i < |d.code| :: d.code[i].Alloca?)
    decreases |params|
  {
    if params != [] {
      var c1 := Emit(c, Alloca(Local(params[0]))).(vars := c.vars[Local(params[0]) := I64Ty]);
      ParamsTyped(params[1..], c1);
    }
  }

  lemma {:induction false} AllocasRun(code: Code, F: CallEnv, n: nat, T: Temps, V: Vars)
    requires n <= |code| && forall i | 0 <= i < n :: code[i].Alloca?
    ensures Reaches(code, F, Run(0, T, V), Run(n, T, V))
    decreases n
  {
    if n == 0 {
      ReachesRefl(code, F, Run(0, T, V));
    } else {
      AllocasRun(code, F, n - 1, T, V);
      ReachesStep(code, F, Run(n - 1, T, V));
      ReachesTrans(code, F, Run(0, T, V), Run(n - 1, T, V), Run(n, T, V));
    }
  }

  /** A compiled body, run on the arguments, ends as the source body does. */
  lemma BodyRuns(params: seq<string>, body: seq<Stmt>, funcs: map<string, string>, Fs: CallEnv, Fi: CallEnv,
                 args: seq<Word>, fuel: nat)
    requires DefTyped(params, body, funcs) && LowerBody(params, body, map[], funcs).ok
    requires CallsAgree(Fs, Fi, funcs) && |params| == |args|
    ensures var code := LowerBody(params, body, map[], funcs).code;
      var start := Run(0, map[], BindParams(params, args));
      match ResultOf(ExecAll(Fs, body, BindEnv(params, args), fuel))
      case Returns(v) => Reaches(code, Fi, start, Done(v))
      case Faults(y) => Reaches(code, Fi, start, Trap(y))
      case Unknown => true
  {
    var c := BodyStart(params, map[], funcs);
    var d, e := LowerStmts(body, c), LowerBody(params, body, map[], funcs);
    var env, V := BindEnv(params, args), BindParams(params, args);
    var w := World(e.code, Fs, Fi, d.vars);
    var start := Run(0, map[], V);
    BodyFits(params, body, funcs, Fs, Fi, args);
    hide *;
    AllocasRun(e.code, Fi, |c.code|, map[], V);
    var s := StmtsRuns(w, body, c, env, map[], V, fuel);
    var o := ExecAll(Fs, body, env, fuel);
    if o.Next? {
      BlockIsOpen(w, body, c, env, fuel);
      EndsAt(w, o, Run(|c.code|, map[], V), c, |d.code|, map[], s);
      ReturnsZero(w, params, body, funcs, s);
      ReachesTrans(e.code, Fi, start, Run(|c.code|, map[], V), s);
      ReachesTrans(e.code, Fi, start, s, Done(0));
    }
    BodyEnds(w, o, start, Run(|c.code|, map[], V), c, |d.code|, map[], s);
  }

  /** The meaning of one function: for all arguments, and whatever the calls in it answer, running its IR gives what
      evaluating its body gives. */
  lemma BodyResult(name: string, params: seq<string>, body: seq<Stmt>, funcs: map<string, string>, Fs: CallEnv,
                   Fi: CallEnv, args: seq<Word>, fuel: nat)
    requires DefTyped(params, body, funcs) && LowerBody(params, body, map[], funcs).ok
    requires CallsAgree(Fs, Fi, funcs) && |params| == |args|
    ensures var r := ResultOf(ExecAll(Fs, body, BindEnv(params, args), fuel));
      !r.Unknown? ==> RunFunc(IRFunc(name, params, LowerBody(params, body, map[], funcs).code), args, Fi) == r
  {
    hide *;
    var f := IRFunc(name, params, LowerBody(params, body, map[], funcs).code);
    var r := ResultOf(ExecAll(Fs, body, BindEnv(params, args), fuel));
    BodyRuns(params, body, funcs, Fs, Fi, args, fuel);
    if !r.Unknown? {
      EntryIs(f, args);
      RunFuncIs(f, args, Fi, if r.Returns? then Done(r.value) else Trap(r.why));
    }
  }

  lemma EntryIs(f: IRFunc, args: seq<Word>)
    requires |f.params| == |args|
    ensures Entry(f, args) == Run(0, map[], BindParams(f.params, args))
  {
  }

  lemma EndsAt(w: World, o: Outcome, from: State, c: Ctx, p: nat, T: Temps, s: State)
    requires Ends(w, o, from, c, p, T, s) && o.Next?
    ensures Reaches(w.code, w.Fi, from, s) && s.Run? && s.pc == p
  {
  }

  lemma BodyEnds(w: World, o: Outcome, start: State, mid: State, c: Ctx, p: nat, T: Temps, s: State)
    requires Reaches(w.code, w.Fi, start, mid) && Ends(w, o, mid, c, p, T, s)
    requires o.Next? ==> Reaches(w.code, w.Fi, start, Done(0))
    ensures match ResultOf(o)
      case Returns(v) => Reaches(w.code, w.Fi, start, Done(v))
      case Faults(y) => Reaches(w.code, w.Fi, start, Trap(y))
      case Unknown => true
  {
    if o.Returned? {
      ReachesTrans(w.code, w.Fi, start, mid, Done(o.result));
    } else if o.Crash? {
      ReachesTrans(w.code, w.Fi, start, mid, Trap(o.why));
    }
  }

  /** The body of a function runs in the world of its code and its final types. */
  lemma BodyFits(params: seq<string>, body: seq<Stmt>, funcs: map<string, string>, Fs: CallEnv, Fi: CallEnv,
                 args: seq<Word>)
    requires LowerBody(params, body, map[], funcs).ok && CallsAgree(Fs, Fi, funcs) && |params| == |args|
    ensures var c := BodyStart(params, map[], funcs);
      var d, code := LowerStmts(body, c), LowerBody(params, body, map[], funcs).code;
      && Runs(World(code, Fs, Fi, d.vars), c, d, BindEnv(params, args), BindParams(params, args))
      && |c.code| <= |code| && (forall i | 0 <= i < |c.code| :: code[i].Alloca?) && !Terminated(c.code)
  {
    var c0 := Ctx([], 0, 0, map[], None, None, funcs, true);
    var c := BodyStart(params, map[], funcs);
    var d, e := LowerStmts(body, c), LowerBody(params, body, map[], funcs);
    var L := BodyAccepted(params, body, map[], funcs);
    AcceptedLabels(e.code, L);
    ParamsTyped(params, c0);
    ParamsFixed(params, c0);
    BindAgrees(params, args);
    StmtsGrows(body, c);
    StaysOpen([], c.code);
    assert Prefix(d.code, e.code);
    hide Accepted, Check, LowerStmts, UniqueLabels;
  }

  /** The implicit `return 0`. */
  lemma ReturnsZero(w: World, params: seq<string>, body: seq<Stmt>, funcs: map<string, string>, s: State)
    requires w.code == LowerBody(params, body, map[], funcs).code
    requires var d := LowerStmts(body, BodyStart(params, map[], funcs));
      !Terminated(d.code) && s.Run? && s.pc == |d.code|
    ensures Reaches(w.code, w.Fi, s, Done(0))
  {
    var d := LowerStmts(body, BodyStart(params, map[], funcs));
    var d1 := MakeConst(d, 0, IntTy).c;
    hide LowerStmts;
    var T := s.temps[d.tmp := 0];
    StepHere(w, d, Const(d.tmp, 0), s.temps, s.vars);
    StepHere(w, d1, Ret(Tmp(d.tmp)), T, s.vars);
    ReachesTrans(w.code, w.Fi, s, Run(|d1.code|, T, s.vars), Done(0));
  }

  lemma RunFuncIs(f: IRFunc, args: seq<Word>, F: CallEnv, end: State)
    requires |f.params| == |args| && Reaches(f.code, F, Entry(f, args), end) && (end.Done? || end.Trap?)
    ensures RunFunc(f, args, F) == if end.Done? then Returns(end.result) else Faults(end.error)
  {
    forall v | Reaches(f.code, F, Entry(f, args), Done(v))
      ensures Done(v) == end
    {
      OneEnd(f.code, F, Entry(f, args), Done(v), end);
    }
    forall y | Reaches(f.code, F, Entry(f, args), Trap(y))
      ensures Trap(y) == end
    {
      OneEnd(f.code, F, Entry(f, args), Trap(y), end);
    }
  }

  // ----- the whole program -----

  lemma {:induction false} KnownIs(defs: seq<FuncDef>, n: nat, f: string)
    requires n <= |defs| && DistinctNames(defs)
    ensures f in Known(defs, n) <==> FindDef(defs, f, n).Some?
    ensures f in Known(defs, n) ==> Known(defs, n)[f] == NativeName(f)
    ensures f in Known(defs, n) ==> FindDef(defs, f, n) == FindDef(defs, f, |defs|)
    decreases |defs| - n
  {
    KnownBelow(defs, n, f);
    if n < |defs| {
      KnownIs(defs, n + 1, f);
      KnownBelow(defs, n + 1, f);
      FindDefIs(defs, f, n);
    }
  }

  lemma {:induction false} KnownBelow(defs: seq<FuncDef>, n: nat, f: string)
    requires n <= |defs|
    ensures f in Known(defs, n) <==> FindDef(defs, f, n).Some?
    ensures f in Known(defs, n) ==> Known(defs, n)[f] == NativeName(f)
    decreases n
  {
    if n > 0 {
      KnownBelow(defs, n - 1, f);
    }
  }

  lemma {:induction false} FindDefIs(defs: seq<FuncDef>, f: string, n: nat)
    requires n <= |defs|
    ensures var d := FindDef(defs, f, n);
      d.Some? ==> d.value.name == f && exists i :: 0 <= i < n && defs[i] == d.value
    decreases n
  {
    if n > 0 {
      FindDefIs(defs, f, n - 1);
    }
  }

  lemma {:induction false} FindLowered(defs: seq<FuncDef>, n: nat, i: nat)
    requires i < n <= |defs| && DistinctNames(defs)
    ensures LowerDefs(defs, n)[..] == LowerDefs(defs, n) && |LowerDefs(defs, n)| == n
    ensures LowerDefs(defs, n)[i] == IRFunc(NativeName(defs[i].name), defs[i].params, LowerDef(defs, i).code)
    decreases n
  {
    if i < n - 1 {
      FindLowered(defs, n - 1, i);
    } else if n > 1 {
      FindLowered(defs, n - 1, 0);
    }
  }

  lemma {:induction false} FindFuncAt(fs: seq<IRFunc>, i: nat)
    requires i < |fs| && forall j | 0 <= j < i :: fs[j].name != fs[i].name
    ensures FindFunc(fs, fs[i].name) == Some(fs[i])
    decreases |fs|
  {
    if i > 0 {
      FindFuncAt(fs[1..], i - 1);
    }
  }

  /** The native name of the `i`-th definition finds its code. */
  lemma FindsDef(p: Program, i: nat)
    requires ProgramTyped(p) && i < |p.defs|
    ensures FindFunc(LowerProgram(p), NativeName(p.defs[i].name))
      == Some(IRFunc(NativeName(p.defs[i].name), p.defs[i].params, LowerDef(p.defs, i).code))
  {
    var fs, n := LowerProgram(p), |p.defs|;
    FindLowered(p.defs, n, i);
    forall j | 0 <= j < i + 1
      ensures fs[j].name != fs[i + 1].name
    {
      if j > 0 {
        FindLowered(p.defs, n, j - 1);
      }
    }
    FindFuncAt(fs, i + 1);
  }

  /** Calls: for every depth, every answer of the source program is the answer of the compiled one. */
  lemma {:induction false} ProgramCalls(p: Program, depth: nat)
    requires ProgramTyped(p)
    ensures CallsAgree(SourceCalls(p.defs, depth), IRCalls(LowerProgram(p), depth), Known(p.defs, |p.defs|))
    decreases depth
  {
    var Fs, Fi := SourceCalls(p.defs, depth), IRCalls(LowerProgram(p), depth);
    var known := Known(p.defs, |p.defs|);
    forall f, args | f in known && !Fs(f, args).Unknown?
      ensures Fi(known[f], args) == Fs(f, args)
    {
      ProgramCall(p, depth, f, args);
    }
  }

  lemma {:induction false} ProgramCall(p: Program, depth: nat, f: string, args: seq<Word>)
    requires ProgramTyped(p) && f in Known(p.defs, |p.defs|) && !SourceCall(p.defs, depth, f, args).Unknown?
    ensures IRCall(LowerProgram(p), depth, Known(p.defs, |p.defs|)[f], args) == SourceCall(p.defs, depth, f, args)
    decreases depth, 0
  {
    hide *;
    var fs := LowerProgram(p);
    var i := DefOf(p, f);
    CallUnfolds(p.defs, depth, f, args);
    FindsDef(p, i);
    IRCallUnfolds(fs, depth, NativeName(f), args);
    ProgramCalls(p, depth - 1);
    var Fs, Fi := SourceCalls(p.defs, depth - 1), IRCalls(fs, depth - 1);
    FewerKnown(p, i + 1, Fs, Fi);
    BodyResult(NativeName(f), p.defs[i].params, p.defs[i].body, Known(p.defs, i + 1), Fs, Fi, args, depth);
  }

  /** Where the definition of a function stands, and what is known about it. */
  lemma DefOf(p: Program, f: string) returns (i: nat)
    requires ProgramTyped(p) && f in Known(p.defs, |p.defs|)
    ensures i < |p.defs| && p.defs[i].name == f && FindDef(p.defs, f, |p.defs|) == Some(p.defs[i])
    ensures Known(p.defs, |p.defs|)[f] == NativeName(f)
    ensures DefTyped(p.defs[i].params, p.defs[i].body, Known(p.defs, i + 1))
    ensures LowerDef(p.defs, i) == LowerBody(p.defs[i].params, p.defs[i].body, map[], Known(p.defs, i + 1))
    ensures LowerDef(p.defs, i).ok
  {
    hide LowerBody, DefTyped, DistinctNames;
    KnownBelow(p.defs, |p.defs|, f);
    FindDefIs(p.defs, f, |p.defs|);
    i :| 0 <= i < |p.defs| && p.defs[i] == FindDef(p.defs, f, |p.defs|).value;
  }

  lemma CallUnfolds(defs: seq<FuncDef>, depth: nat, f: string, args: seq<Word>)
    requires !SourceCall(defs, depth, f, args).Unknown?
    ensures depth > 0 && FindDef(defs, f, |defs|).Some?
    ensures var d := FindDef(defs, f, |defs|).value;
      && |args| == |d.params|
      && SourceCall(defs, depth, f, args)
        == ResultOf(ExecAll(SourceCalls(defs, depth - 1), d.body, BindEnv(d.params, args), depth))
  {
    hide ExecAll, FindDef;
  }

  lemma IRCallUnfolds(fs: seq<IRFunc>, depth: nat, f: string, args: seq<Word>)
    requires depth > 0 && FindFunc(fs, f).Some?
    ensures IRCall(fs, depth, f, args) == RunFunc(FindFunc(fs, f).value, args, IRCalls(fs, depth - 1))
  {
    hide RunFunc, FindFunc;
  }

  /** The functions known to an earlier definition are among those of the program. */
  lemma FewerKnown(p: Program, n: nat, Fs: CallEnv, Fi: CallEnv)
    requires n <= |p.defs| && ProgramTyped(p) && CallsAgree(Fs, Fi, Known(p.defs, |p.defs|))
    ensures CallsAgree(Fs, Fi, Known(p.defs, n))
  {
    hide DefTyped, DistinctNames;
    forall g | g in Known(p.defs, n)
      ensures g in Known(p.defs, |p.defs|) && Known(p.defs, n)[g] == Known(p.defs, |p.defs|)[g]
    {
      KnownIs(p.defs, n, g);
      KnownBelow(p.defs, |p.defs|, g);
    }
  }

  /** The entry point: the exit code of the compiled program is the result of the source's top-level statements. */
  lemma ProgramMain(p: Program, depth: nat)
    requires ProgramTyped(p) && depth > 0
    ensures var r := ResultOf(ExecAll(SourceCalls(p.defs, depth - 1), p.main, map[], depth));
      !r.Unknown? ==> IRCall(LowerProgram(p), depth, "main", []) == r
  {
    hide *;
    var Fs, Fi := SourceCalls(p.defs, depth - 1), IRCalls(LowerProgram(p), depth - 1);
    ProgramCalls(p, depth - 1);
    MainIs(p);
    IRCallUnfolds(LowerProgram(p), depth, "main", []);
    BodyResult("main", [], p.main, Known(p.defs, |p.defs|), Fs, Fi, [], depth);
  }

  lemma MainIs(p: Program)
    requires ProgramTyped(p)
    ensures var known := Known(p.defs, |p.defs|);
      && DefTyped([], p.main, known) && LowerBody([], p.main, map[], known).ok && BindEnv([], []) == map[]
      && LowerProgram(p)[0] == IRFunc("main", [], LowerBody([], p.main, map[], known).code)
      && FindFunc(LowerProgram(p), "main") == Some(LowerProgram(p)[0])
  {
    hide LowerBody, DefTyped, LowerDefs;
  }
}
