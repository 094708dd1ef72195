/** From the source to the machine: the emitted x86-64 code of a program does what the program means. */
module EndToEnd {
  import opened Words
  import opened Wrappers
  import opened Python
  import opened IR
  import opened Lowering
  import opened LoweringProgram
  import opened LoweringNamed
  import opened Backend
  import opened BackendCorrect
  import opened BackendCalls
  import X = X86

  /** No function has more parameters than there are argument registers. */
  predicate FewParams(abi: Abi, p: Program) {
    forall i | 0 <= i < |p.defs| :: |p.defs[i].params| <= |abi.regs|
  }

  lemma BodyFit(abi: Abi, name: string, params: seq<string>, body: seq<Stmt>, funcs: map<string, string>)
    requires |params| <= |abi.regs|
    ensures Fit(abi, IRFunc(name, params, LowerBody(params, body, map[], funcs).code))
  {
    BodyNamed(params, body, funcs);
    LoadsKnown(abi, IRFunc(name, params, LowerBody(params, body, map[], funcs).code));
    hide LowerBody, KnownLoads, LoadsNamed;
  }

  lemma {:induction false} DefsFit(abi: Abi, p: Program, n: nat)
    requires FewParams(abi, p) && n <= |p.defs|
    ensures AllFit(abi, LowerDefs(p.defs, n))
    decreases n
  {
    hide Fit, LowerBody;
    if n > 0 {
      DefsFit(abi, p, n - 1);
      var d := p.defs[n - 1];
      BodyFit(abi, NativeName(d.name), d.params, d.body, Known(p.defs, n));
    }
  }

  /** Every function of a compiled program is one the backend can take. */
  lemma ProgramFits(abi: Abi, p: Program)
    requires FewParams(abi, p)
    ensures AllFit(abi, LowerProgram(p))
  {
    DefsFit(abi, p, |p.defs|);
    BodyFit(abi, "main", [], p.main, Known(p.defs, |p.defs|));
    hide Fit, LowerBody, LowerDefs;
  }

  /** Calling the machine code of a function of a well-typed program, with the arguments in the registers of the
      calling convention, returns in `rax` what the source function returns, and leaves `rbp`, `rsp` and the caller's
      stack as they were; where the source divides by zero or out of range, the machine raises its divide error. */
  lemma CompiledCall(abi: Abi, p: Program, depth: nat, f: string, args: seq<Word>, m: X.Machine)
    requires Supported(abi) && ProgramTyped(p) && FewParams(abi, p) && f in Known(p.defs, |p.defs|)
    requires Passes(abi, args, m) && m.rsp % 16 == 8
    ensures var r := SourceCall(p.defs, depth, f, args);
      !r.Unknown? ==> Conforms(abi, r, m, MachineCall(abi, LowerProgram(p), depth, Known(p.defs, |p.defs|)[f], m))
  {
    hide *;
    var fs, native := LowerProgram(p), Known(p.defs, |p.defs|)[f];
    if !SourceCall(p.defs, depth, f, args).Unknown? {
      ProgramFits(abi, p);
      ProgramCall(p, depth, f, args);
      ModuleConforms(abi, fs, depth, native, args, m);
    }
  }

  /** The same for the entry point: the exit code of the machine program is the result of the top-level statements. */
  lemma CompiledMain(abi: Abi, p: Program, depth: nat, m: X.Machine)
    requires Supported(abi) && ProgramTyped(p) && FewParams(abi, p) && depth > 0 && m.rsp % 16 == 8
    ensures var r := ResultOf(ExecAll(SourceCalls(p.defs, depth - 1), p.main, map[], depth));
      !r.Unknown? ==> Conforms(abi, r, m, MachineCall(abi, LowerProgram(p), depth, "main", m))
  {
    assert Passes(abi, [], m);
    hide *;
    if !ResultOf(ExecAll(SourceCalls(p.defs, depth - 1), p.main, map[], depth)).Unknown? {
      ProgramFits(abi, p);
      ProgramMain(p, depth);
      ModuleConforms(abi, LowerProgram(p), depth, "main", [], m);
    }
  }
}
