/** A whole call: from the entry of a function to its return, and a module of functions that call each other. */
module BackendCalls {
  import opened Words
  import opened Wrappers
  import opened Python
  import opened IR
  import opened Backend
  import opened BackendSlots
  import opened BackendOps
  import opened BackendLayout
  import opened BackendCorrect
  import opened LoweringProgram
  import X = X86

  // ----- the prologue -----

  /** The machine after `push rbp` and `mov rbp, rsp`. */
  function Entered(m: X.Machine): X.Machine {
    m.(rbp := m.rsp - 8, rsp := m.rsp - 8, mem := m.mem[m.rsp - 8 := m.rbp])
  }

  function Framed(m: X.Machine, frame: nat): X.Machine {
    m.(rsp := m.rsp - frame)
  }

  lemma EntersFrame(m: X.Machine, frame: nat)
    ensures var xs := [X.PushRbp, X.MovRbpRsp, X.SubRsp(frame)];
      X.AllStraight(xs) && X.DoAll(xs, m) == X.Go(Framed(Entered(m), frame))
  {
    DoThree(X.PushRbp, X.MovRbpRsp, X.SubRsp(frame), m);
  }

  /** The parameters bound so far are in their slots. */
  ghost predicate ParamsIn(ps: seq<string>, args: seq<Word>, base: int, m: X.Machine)
    requires |ps| == |args|
  {
    var z, V := ParamSlots(ps), BindParams(ps, args);
    forall x <- V :: x in z.vars && m.Cell(base - z.vars[x]) == V[x]
  }

  lemma ParamsBelow(ps: seq<string>)
    ensures forall x <- ParamSlots(ps).vars :: ParamSlots(ps).vars[x] <= |ps| * 8
  {
    ParamsLaid(ps);
    hide ParamSlots;
    forall x <- ParamSlots(ps).vars
      ensures ParamSlots(ps).vars[x] <= |ps| * 8
    {
      assert IsSlot(ParamSlots(ps).vars[x], ParamSlots(ps).idx);
    }
  }

  lemma ParamsInAt(ps: seq<string>, args: seq<Word>, base: int, m: X.Machine, x: Name)
    requires |ps| == |args| && ParamsIn(ps, args, base, m) && x in BindParams(ps, args)
    ensures x in ParamSlots(ps).vars && m.Cell(base - ParamSlots(ps).vars[x]) == BindParams(ps, args)[x]
  {
  }

  lemma OneParam(ps: seq<string>, args: seq<Word>, base: int, m: X.Machine, v: Word)
    requires |ps| == |args| > 0 && ParamsIn(ps[..|ps| - 1], args[..|ps| - 1], base, m) && v == args[|ps| - 1]
    ensures ParamsIn(ps, args, base, m.Write(base - |ps| * 8, v))
  {
    var front, args0, p := ps[..|ps| - 1], args[..|ps| - 1], Local(ps[|ps| - 1]);
    var z, V := ParamSlots(ps), BindParams(ps, args);
    var m' := m.Write(base - |ps| * 8, v);
    ParamsBelow(front);
    WriteCells(m, base - |ps| * 8, v);
    ParamStep(ps, args);
    forall x <- V
      ensures x in z.vars && m'.Cell(base - z.vars[x]) == V[x]
    {
      hide *;
      if x != p {
        ParamsInAt(front, args0, base, m, x);
      }
    }
  }

  lemma ParamStep(ps: seq<string>, args: seq<Word>)
    requires |ps| == |args| > 0
    ensures BindParams(ps, args) == BindParams(ps[..|ps| - 1], args[..|ps| - 1])[Local(ps[|ps| - 1]) := args[|ps| - 1]]
    ensures var z0 := ParamSlots(ps[..|ps| - 1]);
      z0.idx == |ps| - 1 && ParamSlots(ps).vars == z0.vars[Local(ps[|ps| - 1]) := |ps| * 8]
  {
    ParamsLaid(ps[..|ps| - 1]);
    hide Laid;
  }

  /** Each argument goes from its register to the slot of its parameter; of repeated parameters the last counts. */
  lemma {:induction false} ParamsDo(abi: Abi, ps: seq<string>, args: seq<Word>, m: X.Machine)
    requires |ps| == |args| && Passes(abi, args, m)
    ensures X.AllStraight(ParamCode(abi, ps))
    ensures var o := X.DoAll(ParamCode(abi, ps), m);
      && o.Go? && o.m.regs == m.regs && o.m.rbp == m.rbp && o.m.rsp == m.rsp
      && SameAbove(m.rbp, m, o.m) && ParamsIn(ps, args, m.rbp, o.m)
    decreases |ps|
  {
    if ps != [] {
      var n := |ps| - 1;
      var front, r, st := ps[..n], abi.regs[n], [X.StoreSlot(|ps| * 8, abi.regs[n])];
      ParamsDo(abi, front, args[..n], m);
      var m1 := X.DoAll(ParamCode(abi, front), m).m;
      var m2 := m1.Write(m.rbp - |ps| * 8, args[n]);
      assert m1.Get(r) == args[n];
      DoOne(st[0], m1);
      OneStraight(st[0]);
      assert ParamCode(abi, ps) == ParamCode(abi, front) + st;
      hide ParamCode, X.DoAll, ParamsIn, X.AllStraight, X.Machine.Cell;
      Then(ParamCode(abi, front), st, m, m1);
      OneParam(ps, args, m.rbp, m1, args[n]);
      WriteCells(m1, m.rbp - |ps| * 8, args[n]);
    }
  }

  lemma ParamsFilled(w: World, args: seq<Word>, m: X.Machine)
    requires |w.f.params| == |args| && Bound(w.abi, w.f.params) == w.f.params
    requires m.rbp == w.Base() && m.rsp == w.Base() - w.Frame()
    requires SameAbove(w.Base(), w.top, m) && ParamsIn(w.f.params, args, w.Base(), m)
    ensures Holds(w, map[], BindParams(w.f.params, args), m)
  {
    SlotsFinal(w, 0);
    assert w.f.code[..0] == [];
    assert SlotsAt(w.abi, w.f, 0) == ParamSlots(w.f.params);
    hide *;
    ParamsKept(w, args, m);
    ParamsHold(w, BindParams(w.f.params, args), m);
  }

  lemma ParamsKept(w: World, args: seq<Word>, m: X.Machine)
    requires |w.f.params| == |args| && Keeps(ParamSlots(w.f.params), w.Final())
    requires ParamsIn(w.f.params, args, w.Base(), m)
    ensures var z := w.Final();
      forall x <- BindParams(w.f.params, args) ::
        x in z.vars && m.Cell(w.Base() - z.vars[x]) == BindParams(w.f.params, args)[x]
  {
    hide ParamSlots, BindParams, FuncSlots, X.Machine.Cell;
  }

  lemma ParamsHold(w: World, vars: Vars, m: X.Machine)
    requires m.rbp == w.Base() && m.rsp == w.Base() - w.Frame() && SameAbove(w.Base(), w.top, m)
    requires var z := w.Final(); forall x <- vars :: x in z.vars && m.Cell(w.Base() - z.vars[x]) == vars[x]
    ensures Holds(w, map[], vars, m)
  {
    hide SameAbove, FuncSlots, X.Machine.Cell, FrameSize;
  }

  /** The prologue establishes what the instructions rely on. */
  lemma PrologueDoes(w: World, args: seq<Word>, m: X.Machine)
    requires |w.f.params| == |args| && Bound(w.abi, w.f.params) == w.f.params
    requires Passes(w.abi, args, m) && w.top == Entered(m)
    ensures X.AllStraight(Prologue(w.abi, w.f))
    ensures var o := X.DoAll(Prologue(w.abi, w.f), m);
      o.Go? && Holds(w, map[], BindParams(w.f.params, args), o.m)
  {
    var m1 := Framed(w.top, w.Frame());
    assert Passes(w.abi, args, m1);
    assert m1.rbp == w.Base() && m1.rsp == w.Base() - w.Frame() && m1.mem == w.top.mem;
    hide *;
    EntersFrame(m, w.Frame());
    ParamsDo(w.abi, w.f.params, args, m1);
    var m2 := X.DoAll(ParamCode(w.abi, w.f.params), m1).m;
    SameMemory(w.Base(), w.top, m1);
    SameAboveTrans(w.Base(), w.top, m1, m2);
    ParamsFilled(w, args, m2);
    PrologueIs(w);
    Then([X.PushRbp, X.MovRbpRsp, X.SubRsp(w.Frame())], ParamCode(w.abi, w.f.params), m, m1);
  }

  lemma PrologueIs(w: World)
    requires Bound(w.abi, w.f.params) == w.f.params
    ensures Prologue(w.abi, w.f) == [X.PushRbp, X.MovRbpRsp, X.SubRsp(w.Frame())] + ParamCode(w.abi, w.f.params)
  {
  }

  // ----- one function -----

  lemma PrologueSits(abi: Abi, f: IRFunc)
    ensures X.Sits(FuncCode(abi, f), 0, Prologue(abi, f)) && Pos(abi, f, 0) == |Prologue(abi, f)|
  {
    assert f.code[..0] == [];
    hide Prologue;
  }

  lemma EntryGets(w: World, args: seq<Word>, m: X.Machine)
    requires |w.f.params| == |args| && Bound(w.abi, w.f.params) == w.f.params
    requires Passes(w.abi, args, m) && w.top == Entered(m)
    ensures Gets(w, X.At(0, m), Entry(w.f, args))
  {
    hide *;
    PrologueDoes(w, args, m);
    PrologueSits(w.abi, w.f);
    AsmIs(w);
    X.RunsStraight(w.Asm(), w.Ra(), w.G, 0, Prologue(w.abi, w.f), m);
    var m1 := X.DoAll(Prologue(w.abi, w.f), m).m;
    RunMatches(w, 0, map[], BindParams(w.f.params, args), m1);
    EntryIs(w.f, args);
    GetsNow(w, X.At(Pos(w.abi, w.f, 0), m1), Entry(w.f, args));
    GetsVia(w, X.At(0, m), X.At(Pos(w.abi, w.f, 0), m1), Entry(w.f, args));
  }

  lemma AsmIs(w: World)
    ensures w.Asm() == FuncCode(w.abi, w.f)
  {
  }

  lemma EntryIs(f: IRFunc, args: seq<Word>)
    requires |f.params| == |args|
    ensures Entry(f, args) == Run(0, map[], BindParams(f.params, args))
  {
  }

  lemma SameAboveEntered(m: X.Machine)
    ensures SameAbove(m.rsp, m, Entered(m)) && Entered(m).Cell(m.rsp - 8) == m.rbp
    ensures Entered(m).Cell(m.rsp) == m.Cell(m.rsp)
  {
  }

  /** A run of the machine that ended is the result of the call. */
  lemma RunAsmIs(asm: X.Asm, m: X.Machine, F: X.Callees, q: X.State)
    requires X.Reaches(asm, m.Cell(m.rsp), F, X.At(0, m), q) && (q.Back? || q.Trap?)
    ensures X.RunAsm(asm, m, F) == q
  {
    hide X.Reaches;
    var r := X.RunAsm(asm, m, F);
    X.OneEnd(asm, m.Cell(m.rsp), F, X.At(0, m), r, q);
  }

  lemma ConformsDone(w: World, v: Word, m: X.Machine, q: X.State)
    requires w.top == Entered(m) && Matches(w, Done(v), q)
    ensures Conforms(w.abi, Returns(v), m, q)
  {
    SameAboveEntered(m);
    var hi := m.rsp + 8 + w.abi.shadow;
    SameAboveHigher(m.rsp, hi, m, w.top);
    SameAboveHigher(w.Base(), hi, w.top, q.m);
    SameAboveTrans(hi, m, w.top, q.m);
    hide SameAbove, X.Machine.Cell, X.Machine.Get;
  }

  /** What an ended IR run says about the machine's. */
  lemma EndConforms(w: World, args: seq<Word>, m: X.Machine, n: nat)
    requires Fair(w) && |w.f.params| == |args| && Bound(w.abi, w.f.params) == w.f.params
    requires Passes(w.abi, args, m) && w.top == Entered(m)
    requires var e := Steps(w.f.code, w.F, Entry(w.f, args), n); e.Done? || e.Trap?
    ensures var e := Steps(w.f.code, w.F, Entry(w.f, args), n);
      Conforms(w.abi, if e.Done? then Returns(e.result) else Faults(e.error), m, X.RunAsm(w.Asm(), m, w.G))
  {
    hide *;
    var s := Entry(w.f, args);
    var e := Steps(w.f.code, w.F, s, n);
    EntryGets(w, args, m);
    var q1 := GetsWitness(w, X.At(0, m), s);
    RunGets(w, s, q1, n);
    GetsVia(w, X.At(0, m), q1, e);
    var q := GetsWitness(w, X.At(0, m), e);
    EnteredRa(w, m);
    EndMatches(w, e, q);
    RunAsmIs(w.Asm(), m, w.G, q);
    if e.Done? {
      ConformsDone(w, e.result, m, q);
    } else {
      ConformsTrap(w.abi, e.error, m);
    }
  }

  lemma ConformsTrap(abi: Abi, y: Failure, m: X.Machine)
    ensures Conforms(abi, Faults(y), m, X.Trap)
  {
  }

  lemma EnteredRa(w: World, m: X.Machine)
    requires w.top == Entered(m)
    ensures w.Ra() == m.Cell(m.rsp)
  {
    SameAboveEntered(m);
  }

  lemma EndMatches(w: World, e: State, q: X.State)
    requires Matches(w, e, q) && (e.Done? || e.Trap?)
    ensures if e.Done? then q.Back? else q.Trap?
  {
    hide Restored;
  }

  /** What the backend asks of a function: parameters that fit the registers, and no load of a name that has no slot
      yet. */
  predicate Fit(abi: Abi, f: IRFunc) {
    KnownLoads(abi, f) && |f.params| <= |abi.regs|
  }

  lemma BoundAll(abi: Abi, f: IRFunc)
    requires Fit(abi, f)
    ensures Bound(abi, f.params) == f.params && KnownLoads(abi, f)
  {
    hide KnownLoads;
  }

  lemma FairIs(w: World)
    requires Supported(w.abi) && Fit(w.abi, w.f) && w.Base() % 16 == 0
    requires SmallCalls(w.abi, w.F) && AllAnswered(w.abi, w.F, w.G)
    ensures Fair(w)
  {
    hide Supported, KnownLoads, SmallCalls, AllAnswered;
  }

  /** The result of a call in the IR, and the run that gives it. */
  lemma RunFuncWhy(f: IRFunc, args: seq<Word>, F: CallEnv) returns (n: nat)
    requires !RunFunc(f, args, F).Unknown?
    ensures |f.params| == |args|
    ensures var e := Steps(f.code, F, Entry(f, args), n);
      (e.Done? || e.Trap?) && RunFunc(f, args, F) == if e.Done? then Returns(e.result) else Faults(e.error)
  {
    hide Steps, Entry;
    var r := RunFunc(f, args, F);
    var e := if r.Returns? then Done(r.value) else State.Trap(r.why);
    n :| Steps(f.code, F, Entry(f, args), n) == e;
  }

  lemma BaseAligned(w: World, m: X.Machine)
    requires w.top == Entered(m) && m.rsp % 16 == 8
    ensures w.Base() % 16 == 0
  {
  }

  /** A call of the emitted function, made as the calling convention asks, gives what the IR function gives, as the
      calling convention asks: `rax`, `rbp`, `rsp` and the caller's part of the stack, or a divide error. */
  lemma FunctionConforms(abi: Abi, f: IRFunc, F: CallEnv, G: X.Callees, args: seq<Word>, m: X.Machine)
    requires Supported(abi) && Fit(abi, f) && SmallCalls(abi, F) && AllAnswered(abi, F, G)
    requires Passes(abi, args, m) && m.rsp % 16 == 8
    ensures Conforms(abi, RunFunc(f, args, F), m, X.RunAsm(FuncCode(abi, f), m, G))
  {
    hide *;
    var w := World(abi, f, F, G, Entered(m));
    AsmIs(w);
    BaseAligned(w, m);
    if RunFunc(f, args, F).Unknown? {
      ConformsUnknown(abi, m, X.RunAsm(FuncCode(abi, f), m, G));
    } else {
      var n := RunFuncWhy(f, args, F);
      FairIs(w);
      BoundAll(abi, f);
      EndConforms(w, args, m, n);
    }
  }

  lemma ConformsUnknown(abi: Abi, m: X.Machine, q: X.State)
    ensures Conforms(abi, Unknown, m, q)
  {
  }

  // ----- a module -----

  /** A call of the machine code of `f`, with at most `depth` calls inside each other. */
  ghost function MachineCall(abi: Abi, fs: seq<IRFunc>, depth: nat, f: string, m: X.Machine): X.State
    decreases depth, 0
  {
    var d := FindFunc(fs, f);
    if depth == 0 || d.None? then X.Lost
    else X.RunAsm(FuncCode(abi, d.value), m, MachineCalls(abi, fs, depth - 1))
  }

  ghost function MachineCalls(abi: Abi, fs: seq<IRFunc>, depth: nat): X.Callees
    decreases depth, 1
  {
    (f: string, m: X.Machine) => MachineCall(abi, fs, depth, f, m)
  }

  predicate AllFit(abi: Abi, fs: seq<IRFunc>) {
    forall f <- fs :: Fit(abi, f)
  }

  lemma {:induction false} FindFuncIn(fs: seq<IRFunc>, f: string)
    ensures var d := FindFunc(fs, f); d.Some? ==> d.value in fs
    decreases |fs|
  {
    if fs != [] {
      FindFuncIn(fs[1..], f);
    }
  }

  lemma ModuleSmall(abi: Abi, fs: seq<IRFunc>, depth: nat)
    requires AllFit(abi, fs)
    ensures SmallCalls(abi, IRCalls(fs, depth))
  {
    forall f: string, args: seq<Word> | |args| > |abi.regs|
      ensures IRCalls(fs, depth)(f, args).Unknown?
    {
      FindFuncIn(fs, f);
    }
  }

  /** For every depth, the machine code of a module answers calls as its IR does. */
  lemma {:induction false} ModuleAnswers(abi: Abi, fs: seq<IRFunc>, depth: nat)
    requires Supported(abi) && AllFit(abi, fs)
    ensures AllAnswered(abi, IRCalls(fs, depth), MachineCalls(abi, fs, depth))
    decreases depth
  {
    var F, G := IRCalls(fs, depth), MachineCalls(abi, fs, depth);
    forall f: string, args: seq<Word>, m: X.Machine
      ensures Answered(abi, F, G, f, args, m)
    {
      if Passes(abi, args, m) && m.rsp % 16 == 8 {
        ModuleConforms(abi, fs, depth, f, args, m);
        assert Conforms(abi, F(f, args), m, G(f, m));
      }
    }
  }

  lemma ModuleConforms(abi: Abi, fs: seq<IRFunc>, depth: nat, f: string, args: seq<Word>, m: X.Machine)
    requires Supported(abi) && AllFit(abi, fs) && Passes(abi, args, m) && m.rsp % 16 == 8
    ensures Conforms(abi, IRCall(fs, depth, f, args), m, MachineCall(abi, fs, depth, f, m))
    decreases depth, 0
  {
    hide Conforms, Supported, Passes, RunFunc, X.RunAsm, AllAnswered, SmallCalls, FuncCode;
    var d := FindFunc(fs, f);
    if depth == 0 || d.None? {
      ConformsUnknown(abi, m, MachineCall(abi, fs, depth, f, m));
    } else {
      FindFuncIn(fs, f);
      ModuleAnswers(abi, fs, depth - 1);
      ModuleSmall(abi, fs, depth - 1);
      FunctionConforms(abi, d.value, IRCalls(fs, depth - 1), MachineCalls(abi, fs, depth - 1), args, m);
    }
  }
}
