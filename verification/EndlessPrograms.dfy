/** From the source to the machine without an end: a loop of the source that never ends never ends in the machine. */
module EndlessPrograms {
  import opened Words
  import opened Wrappers
  import opened Python
  import opened IR
  import opened Lowering
  import opened LoweringProgram
  import opened Divergence
  import opened Backend
  import opened BackendCorrect
  import opened BackendCalls
  import opened BackendEndless
  import opened EndToEnd
  import X = X86

  /** No bound on the passes suffices. */
  ghost predicate NeverEnds(F: CallEnv, body: seq<Stmt>, env: Env) {
    forall fuel: nat :: ExecAll(F, body, env, fuel).OutOfTime?
  }

  lemma NeverEndsIsDescribed(F: CallEnv, body: seq<Stmt>, env: Env)
    requires NeverEnds(F, body, env)
    ensures Described(F, body, env)
  {
    hide ExecAll;
  }

  /** A call of a function of a typed program whose body never ends, with the calls in it answered: its machine code
      runs forever. */
  lemma CompiledForever(abi: Abi, p: Program, depth: nat, f: string, args: seq<Word>, m: X.Machine)
    requires Supported(abi) && ProgramTyped(p) && FewParams(abi, p) && f in Known(p.defs, |p.defs|)
    requires Passes(abi, args, m) && m.rsp % 16 == 8
    requires var d := FindDef(p.defs, f, |p.defs|);
      && d.Some? && |args| == |d.value.params|
      && NeverEnds(SourceCalls(p.defs, depth), d.value.body, BindEnv(d.value.params, args))
    ensures var fs := LowerProgram(p);
      var g := FindFunc(fs, Known(p.defs, |p.defs|)[f]);
      g.Some? && RunsForever(FuncCode(abi, g.value), m, MachineCalls(abi, fs, depth))
  {
    hide *;
    var fs := LowerProgram(p);
    var i := DefOf(p, f);
    var d, known := p.defs[i], Known(p.defs, i + 1);
    var Fs, Fi := SourceCalls(p.defs, depth), IRCalls(fs, depth);
    FindsDef(p, i);
    ProgramCalls(p, depth);
    FewerKnown(p, i + 1, Fs, Fi);
    NeverEndsIsDescribed(Fs, d.body, BindEnv(d.params, args));
    NeverEndsAt(Fs, d.body, BindEnv(d.params, args));
    SameEndless(NativeName(f), d.params, d.body, known, Fs, Fi, args);
    ProgramFits(abi, p);
    BodyForever(abi, fs, IRFunc(NativeName(f), d.params, LowerDef(p.defs, i).code), depth, args, m);
  }

  lemma NeverEndsAt(F: CallEnv, body: seq<Stmt>, env: Env)
    requires NeverEnds(F, body, env)
    ensures forall fuel: nat :: ExecAll(F, body, env, fuel).OutOfTime?
  {
    hide ExecAll;
  }

  lemma BodyForever(abi: Abi, fs: seq<IRFunc>, f: IRFunc, depth: nat, args: seq<Word>, m: X.Machine)
    requires Supported(abi) && AllFit(abi, fs) && FindFunc(fs, f.name) == Some(f)
    requires Passes(abi, args, m) && m.rsp % 16 == 8
    requires |f.params| == |args| && Endless(f, args, IRCalls(fs, depth))
    ensures RunsForever(FuncCode(abi, f), m, MachineCalls(abi, fs, depth))
  {
    FindFuncIn(fs, f.name);
    assert Fit(abi, f);
    hide *;
    ModuleSmall(abi, fs, depth);
    ModuleAnswers(abi, fs, depth);
    FunctionForever(abi, f, IRCalls(fs, depth), MachineCalls(abi, fs, depth), args, m);
  }

  /** And the same for the entry point. */
  lemma MainForever(abi: Abi, p: Program, depth: nat, m: X.Machine)
    requires Supported(abi) && ProgramTyped(p) && FewParams(abi, p) && m.rsp % 16 == 8
    requires NeverEnds(SourceCalls(p.defs, depth), p.main, map[])
    ensures var fs := LowerProgram(p);
      RunsForever(FuncCode(abi, fs[0]), m, MachineCalls(abi, fs, depth))
  {
    assert Passes(abi, [], m);
    hide *;
    var fs, known := LowerProgram(p), Known(p.defs, |p.defs|);
    var Fs, Fi := SourceCalls(p.defs, depth), IRCalls(fs, depth);
    MainIs(p);
    ProgramCalls(p, depth);
    NeverEndsIsDescribed(Fs, p.main, map[]);
    NeverEndsAt(Fs, p.main, map[]);
    SameEndless("main", [], p.main, known, Fs, Fi, []);
    ProgramFits(abi, p);
    BodyForever(abi, fs, fs[0], depth, [], m);
  }
}
