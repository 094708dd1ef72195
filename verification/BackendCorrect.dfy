/** The emitted x86-64 code simulates the IR: every slot holds the value of its name or temporary, control follows
    the same path, and the stack is left as it was found. */
module BackendCorrect {
  import opened Words
  import opened Wrappers
  import opened Python
  import opened IR
  import opened Backend
  import opened BackendSlots
  import opened BackendOps
  import opened BackendLayout
  import X = X86

  // ----- the two sides -----

  /** A call of `f`: `F` answers its calls in the IR and `G` in the machine; `top` is the machine just after
      `mov rbp, rsp`. */
  datatype World = World(abi: Abi, f: IRFunc, F: CallEnv, G: X.Callees, top: X.Machine) {
    function Base(): int {
      top.rbp
    }

    function Frame(): nat {
      FrameSize(f)
    }

    /** The final slots. */
    function Final(): Slots {
      FuncSlots(abi, f)
    }

    function Asm(): X.Asm {
      FuncCode(abi, f)
    }

    /** The return address. */
    function Ra(): int {
      top.Cell(top.rbp + 8)
    }
  }

  predicate Supported(abi: Abi) {
    abi == SYSTEM_V || abi == WINDOWS
  }

  /** The arguments are in their registers. */
  predicate Passes(abi: Abi, args: seq<Word>, m: X.Machine) {
    |args| <= |abi.regs| && forall i | 0 <= i < |args| :: m.Get(abi.regs[i]) == args[i]
  }

  /** The registers of the two conventions, one by one. */
  lemma Registers(args: seq<Word>, m: X.Machine)
    ensures Passes(SYSTEM_V, args, m) <==>
      && |args| <= 6 && (|args| > 0 ==> m.Get(X.RDI) == args[0]) && (|args| > 1 ==> m.Get(X.RSI) == args[1])
      && (|args| > 2 ==> m.Get(X.RDX) == args[2]) && (|args| > 3 ==> m.Get(X.RCX) == args[3])
      && (|args| > 4 ==> m.Get(X.R8) == args[4]) && (|args| > 5 ==> m.Get(X.R9) == args[5])
    ensures Passes(WINDOWS, args, m) <==>
      && |args| <= 4 && (|args| > 0 ==> m.Get(X.RCX) == args[0]) && (|args| > 1 ==> m.Get(X.RDX) == args[1])
      && (|args| > 2 ==> m.Get(X.R8) == args[2]) && (|args| > 3 ==> m.Get(X.R9) == args[3])
    ensures SYSTEM_V.shadow == 0 && WINDOWS.shadow == 32
  {
  }

  /** What the caller has on the stack, from `a` up, is as it was. */
  ghost predicate SameAbove(a: int, m: X.Machine, m': X.Machine) {
    forall x: int :: x >= a ==> m'.Cell(x) == m.Cell(x)
  }

  /** A call entered with machine `m` ended as the calling convention asks: the result in `rax`, `rbp` restored, the
      return address popped, and the caller's part of the stack unchanged. */
  ghost predicate Conforms(abi: Abi, r: CallResult, m: X.Machine, q: X.State) {
    match r
    case Returns(v) =>
      && q.Back?
      && q.m.Get(X.RAX) == v
      && q.m.rbp == m.rbp
      && q.m.rsp == m.rsp + 8
      && SameAbove(m.rsp + 8 + abi.shadow, m, q.m)
    case Faults(_) => q.Trap?
    case Unknown => true
  }

  /** `G` answers a call as `F` does, when the call is made as the convention asks: the arguments in their registers
      and, the return address being pushed, the stack pointer 8 below a multiple of 16. */
  ghost predicate Answered(abi: Abi, F: CallEnv, G: X.Callees, f: string, args: seq<Word>, m: X.Machine) {
    Passes(abi, args, m) && m.rsp % 16 == 8 ==> Conforms(abi, F(f, args), m, G(f, m))
  }

  ghost predicate AllAnswered(abi: Abi, F: CallEnv, G: X.Callees) {
    forall f: string, args: seq<Word>, m: X.Machine :: Answered(abi, F, G, f, args, m)
  }

  /** Every load is of a name that was touched earlier in the emission order: other loads give 0. */
  predicate KnownLoads(abi: Abi, f: IRFunc) {
    forall k | 0 <= k < |f.code| :: f.code[k].Load? ==> f.code[k].name in SlotsAt(abi, f, k).vars
  }

  /** Calls with more arguments than there are registers have no answer: no function of the module takes them. */
  ghost predicate SmallCalls(abi: Abi, F: CallEnv) {
    forall f: string, args: seq<Word> :: |args| > |abi.regs| ==> F(f, args).Unknown?
  }

  ghost predicate Fair(w: World) {
    && Supported(w.abi)
    && KnownLoads(w.abi, w.f)
    && SmallCalls(w.abi, w.F)
    && AllAnswered(w.abi, w.F, w.G)
    && w.Base() % 16 == 0
  }

  /** Slot by slot, the machine holds the temporaries and the locals, and the caller's part of the stack is as it
      was. */
  ghost predicate Filled(w: World, temps: Temps, vars: Vars, m: X.Machine) {
    var z := w.Final();
    && m.rbp == w.Base()
    && (forall t <- temps :: t in z.tmps && m.Cell(w.Base() - z.tmps[t]) == temps[t])
    && (forall x <- vars :: x in z.vars && m.Cell(w.Base() - z.vars[x]) == vars[x])
    && SameAbove(w.Base(), w.top, m)
  }

  /** Between instructions, the stack pointer is at the end of the frame. */
  ghost predicate Holds(w: World, temps: Temps, vars: Vars, m: X.Machine) {
    Filled(w, temps, vars, m) && m.rsp == w.Base() - w.Frame()
  }

  /** After `ret`: the caller's `rbp` and `rsp` are back. */
  ghost predicate Restored(w: World, m: X.Machine) {
    m.rbp == w.top.Cell(w.Base()) && m.rsp == w.Base() + 16 && SameAbove(w.Base(), w.top, m)
  }

  ghost predicate Matches(w: World, s: State, q: X.State) {
    match s
    case Run(pc, temps, vars) =>
      pc <= |w.f.code| && q.At? && q.pc == Pos(w.abi, w.f, pc) && Holds(w, temps, vars, q.m)
    case Done(v) => q.Back? && q.m.Get(X.RAX) == v && Restored(w, q.m)
    case Trap(_) => q.Trap?
    case Stuck(_) => true
  }

  // ----- frames and slots -----

  lemma SlotFacts(w: World)
    requires Supported(w.abi)
    ensures Laid(w.Final()) && w.Frame() % 16 == 0
    ensures forall x <- w.Final().vars :: 8 <= w.Final().vars[x] <= w.Frame()
    ensures forall t <- w.Final().tmps :: 8 <= w.Final().tmps[t] <= w.Frame()
  {
    FrameHolds(w.abi, w.f);
    hide Laid, FrameSize, CountSlots, FuncSlots;
  }

  lemma {:induction false} SlotsKept(abi: Abi, f: IRFunc, k: nat, n: nat)
    requires k <= n <= |f.code|
    ensures Keeps(SlotsAt(abi, f, k), SlotsAt(abi, f, n))
    decreases n - k
  {
    if k < n {
      CodeGrows(abi, f, k);
      TouchOnward(abi, SlotsAt(abi, f, k), f.code[k]);
      SlotsKept(abi, f, k + 1, n);
      hide Touch, SlotsAt, CodeOf, Laid, Spare;
    }
  }

  /** The slots at instruction `k` are final. */
  lemma SlotsFinal(w: World, k: nat)
    requires k <= |w.f.code|
    ensures Keeps(SlotsAt(w.abi, w.f, k), w.Final())
  {
    SlotsKept(w.abi, w.f, k, |w.f.code|);
    assert w.f.code[..|w.f.code|] == w.f.code;
    hide Keeps;
  }

  lemma SameAboveTrans(a: int, m0: X.Machine, m1: X.Machine, m2: X.Machine)
    requires SameAbove(a, m0, m1) && SameAbove(a, m1, m2)
    ensures SameAbove(a, m0, m2)
  {
  }

  lemma HoldsRegs(w: World, temps: Temps, vars: Vars, m: X.Machine, m': X.Machine)
    requires Holds(w, temps, vars, m) && SameStack(m, m')
    ensures Holds(w, temps, vars, m')
  {
    forall a: int
      ensures m'.Cell(a) == m.Cell(a)
    {
    }
  }

  lemma ApartTemp(w: World, t: nat)
    requires Supported(w.abi) && t in w.Final().tmps
    ensures forall u <- w.Final().tmps :: u != t ==> w.Final().tmps[u] != w.Final().tmps[t]
    ensures forall x <- w.Final().vars :: w.Final().vars[x] != w.Final().tmps[t]
    ensures w.Final().tmps[t] >= 8
  {
    SlotFacts(w);
    hide FuncSlots, FrameSize;
  }

  lemma ApartName(w: World, x: Name)
    requires Supported(w.abi) && x in w.Final().vars
    ensures forall y <- w.Final().vars :: y != x ==> w.Final().vars[y] != w.Final().vars[x]
    ensures forall t <- w.Final().tmps :: w.Final().tmps[t] != w.Final().vars[x]
    ensures w.Final().vars[x] >= 8
  {
    SlotFacts(w);
    hide FuncSlots, FrameSize;
  }

  lemma WriteCells(m: X.Machine, a: int, v: int)
    ensures m.Write(a, v).Cell(a) == v && forall b: int :: b != a ==> m.Write(a, v).Cell(b) == m.Cell(b)
  {
  }

  /** Writing a temporary's slot. */
  lemma WriteTemp(w: World, temps: Temps, vars: Vars, m: X.Machine, t: nat, v: Word)
    requires Supported(w.abi) && Holds(w, temps, vars, m) && t in w.Final().tmps
    ensures Holds(w, temps[t := v], vars, m.Write(m.rbp - w.Final().tmps[t], v))
  {
    ApartTemp(w, t);
    WriteCells(m, m.rbp - w.Final().tmps[t], v);
    hide FuncSlots, FrameSize, X.Machine.Cell;
  }

  lemma WriteName(w: World, temps: Temps, vars: Vars, m: X.Machine, x: Name, v: Word)
    requires Supported(w.abi) && Holds(w, temps, vars, m) && x in w.Final().vars
    ensures Holds(w, temps, vars[x := v], m.Write(m.rbp - w.Final().vars[x], v))
  {
    ApartName(w, x);
    WriteCells(m, m.rbp - w.Final().vars[x], v);
    hide FuncSlots, FrameSize, X.Machine.Cell;
  }

  // ----- the pieces of an instruction -----

  /** An operand's value goes to a register. */
  lemma LoadFrom(w: World, b: Slots, temps: Temps, vars: Vars, m: X.Machine, o: Operand, r: X.Reg)
    requires Filled(w, temps, vars, m) && Keeps(b, w.Final()) && Read(o, temps).Some? && (o.Tmp? ==> o.t in b.tmps)
    ensures X.AllStraight(LoadArg(b, o, r))
    ensures X.DoAll(LoadArg(b, o, r), m) == X.Go(m.Set(r, Read(o, temps).value))
  {
    DoOne(LoadArg(b, o, r)[0], m);
    if o.Tmp? {
      WrapWord(temps[o.t]);
      hide Wrap, FuncSlots;
      assert m.Cell(m.rbp - b.tmps[o.t]) == temps[o.t];
    }
  }

  lemma LoadDoes(w: World, b: Slots, temps: Temps, vars: Vars, m: X.Machine, o: Operand, r: X.Reg)
    requires Holds(w, temps, vars, m) && Keeps(b, w.Final()) && Read(o, temps).Some? && (o.Tmp? ==> o.t in b.tmps)
    ensures X.AllStraight(LoadArg(b, o, r))
    ensures X.DoAll(LoadArg(b, o, r), m) == X.Go(m.Set(r, Read(o, temps).value))
    ensures Holds(w, temps, vars, m.Set(r, Read(o, temps).value))
  {
    LoadFrom(w, b, temps, vars, m, o, r);
    SetStack(m, r, Read(o, temps).value);
    HoldsRegs(w, temps, vars, m, m.Set(r, Read(o, temps).value));
    hide LoadArg, X.DoAll, Filled, X.Machine.Set, Keeps;
  }

  lemma SetStack(m: X.Machine, r: X.Reg, v: Word)
    ensures SameStack(m, m.Set(r, v))
  {
  }

  /** `rax` goes to the slot of a temporary. */
  lemma StoreDoes(w: World, b: Slots, temps: Temps, vars: Vars, m: X.Machine, t: nat)
    requires Supported(w.abi) && Holds(w, temps, vars, m) && Keeps(b, w.Final()) && t in b.tmps
    ensures X.AllStraight(StoreDest(b, t))
    ensures var o := X.DoAll(StoreDest(b, t), m); o.Go? && Holds(w, temps[t := m.Get(X.RAX)], vars, o.m)
  {
    DoOne(X.StoreSlot(b.tmps[t], X.RAX), m);
    WriteTemp(w, temps, vars, m, t, m.Get(X.RAX));
    hide Holds;
  }

  lemma Then(xs: X.Asm, ys: X.Asm, m: X.Machine, m1: X.Machine)
    requires X.AllStraight(xs) && X.AllStraight(ys) && X.DoAll(xs, m) == X.Go(m1)
    ensures X.AllStraight(xs + ys) && X.DoAll(xs + ys, m) == X.DoAll(ys, m1)
  {
    X.DoAppend(xs, ys, m);
  }

  lemma ThenFault(xs: X.Asm, ys: X.Asm, m: X.Machine)
    requires X.AllStraight(xs) && X.AllStraight(ys) && X.DoAll(xs, m) == X.Fault
    ensures X.AllStraight(xs + ys) && X.DoAll(xs + ys, m) == X.Fault
  {
    X.DoAppend(xs, ys, m);
  }

  lemma SetGet(m: X.Machine, r: X.Reg, v: Word)
    ensures m.Set(r, v).Get(r) == v && forall q: X.Reg :: q != r ==> m.Set(r, v).Get(q) == m.Get(q)
  {
  }

  /** What the code of a straight instruction does: it goes from the state to the next, or faults on a trap. */
  ghost predicate Does(w: World, s: State, xs: X.Asm, m: X.Machine, s': State) {
    && X.AllStraight(xs)
    && var o := X.DoAll(xs, m);
       match s'
       case Run(_, temps, vars) => o.Go? && Holds(w, temps, vars, o.m)
       case Trap(_) => o.Fault?
       case _ => true
  }

  /** The operands and the destination of instruction `k` have slots after it. */
  lemma OperandSlots(w: World, k: nat)
    requires k < |w.f.code|
    ensures var b := SlotsAt(w.abi, w.f, k + 1);
      var i := w.f.code[k];
      && Keeps(b, w.Final())
      && Keeps(SlotsAt(w.abi, w.f, k), w.Final())
      && b == Touch(w.abi, SlotsAt(w.abi, w.f, k), i)
  {
    SlotsFinal(w, k);
    SlotsFinal(w, k + 1);
    CodeGrows(w.abi, w.f, k);
    hide Keeps, Touch, SlotsAt, CodeOf;
  }

  lemma KeepsTrans(a: Slots, b: Slots, c: Slots)
    requires Keeps(a, b) && Keeps(b, c)
    ensures Keeps(a, c)
  {
  }

  lemma BinSlots(a: Slots, l: Operand, r: Operand, t: nat)
    ensures var b := TouchTemp(TouchOperand(TouchOperand(a, l), r), t);
      t in b.tmps && (l.Tmp? ==> l.t in b.tmps) && (r.Tmp? ==> r.t in b.tmps)
  {
  }

  lemma BinDoes(w: World, k: nat, temps: Temps, vars: Vars, m: X.Machine)
    requires Supported(w.abi) && k < |w.f.code| && w.f.code[k].Bin? && Holds(w, temps, vars, m)
    requires !Step(w.f.code, w.F, Run(k, temps, vars)).Stuck?
    ensures Does(w, Run(k, temps, vars), Piece(w.abi, w.f, k), m, Step(w.f.code, w.F, Run(k, temps, vars)))
  {
    var i := w.f.code[k];
    var b := SlotsAt(w.abi, w.f, k + 1);
    OperandSlots(w, k);
    BinSlots(SlotsAt(w.abi, w.f, k), i.a, i.b, i.dest);
    var x, y := Read(i.a, temps).value, Read(i.b, temps).value;
    var l1, l2, op, st := LoadArg(b, i.a, X.RAX), LoadArg(b, i.b, X.RCX), BinCode(i.op), StoreDest(b, i.dest);
    assert Piece(w.abi, w.f, k) == l1 + l2 + op + st;
    hide Piece, SlotsAt, Touch, LoadArg, BinCode, StoreDest, Holds, Keeps, TouchTemp, TouchOperand, FuncSlots;
    hide X.DoAll, X.AllStraight, X.Machine.Get, X.Machine.Set, SameStack;
    LoadDoes(w, b, temps, vars, m, i.a, X.RAX);
    var m1 := m.Set(X.RAX, x);
    LoadDoes(w, b, temps, vars, m1, i.b, X.RCX);
    var m2 := m1.Set(X.RCX, y);
    SetGet(m, X.RAX, x);
    SetGet(m1, X.RCX, y);
    Then(l1, l2, m, m1);
    BinCodeDoes(i.op, m2);
    Then(l1 + l2, op, m, m2);
    if Binary(i.op, x, y).Some? {
      var m3 := X.DoAll(op, m2).m;
      HoldsRegs(w, temps, vars, m2, m3);
      StoreDoes(w, b, temps, vars, m3, i.dest);
      Then(l1 + l2 + op, st, m, m3);
    } else {
      StoreStraight(b, i.dest);
      ThenFault(l1 + l2 + op, st, m);
    }
  }

  lemma StoreStraight(b: Slots, t: nat)
    ensures X.AllStraight(StoreDest(b, t))
  {
  }

  lemma UnDoes(w: World, k: nat, temps: Temps, vars: Vars, m: X.Machine)
    requires Supported(w.abi) && k < |w.f.code| && w.f.code[k].Un? && Holds(w, temps, vars, m)
    requires !Step(w.f.code, w.F, Run(k, temps, vars)).Stuck?
    ensures Does(w, Run(k, temps, vars), Piece(w.abi, w.f, k), m, Step(w.f.code, w.F, Run(k, temps, vars)))
  {
    var i := w.f.code[k];
    var b := SlotsAt(w.abi, w.f, k + 1);
    OperandSlots(w, k);
    BinSlots(SlotsAt(w.abi, w.f, k), i.a, Imm(0), i.dest);
    var x := Read(i.a, temps).value;
    var l1, op, st := LoadArg(b, i.a, X.RAX), UnCode(i.uop), StoreDest(b, i.dest);
    assert Piece(w.abi, w.f, k) == l1 + op + st;
    hide Piece, SlotsAt, Touch, LoadArg, UnCode, StoreDest, Holds, Keeps, TouchTemp, TouchOperand, FuncSlots;
    hide X.DoAll, X.AllStraight, X.Machine.Get, X.Machine.Set, SameStack;
    LoadDoes(w, b, temps, vars, m, i.a, X.RAX);
    var m1 := m.Set(X.RAX, x);
    SetGet(m, X.RAX, x);
    UnCodeDoes(i.uop, m1);
    Then(l1, op, m, m1);
    var m2 := X.DoAll(op, m1).m;
    HoldsRegs(w, temps, vars, m1, m2);
    StoreDoes(w, b, temps, vars, m2, i.dest);
    Then(l1 + op, st, m, m2);
  }

  lemma SelectSlots(a: Slots, c: Operand, l: Operand, r: Operand, t: nat)
    ensures var b := TouchTemp(TouchOperand(TouchOperand(TouchOperand(a, c), l), r), t);
      t in b.tmps && (c.Tmp? ==> c.t in b.tmps) && (l.Tmp? ==> l.t in b.tmps) && (r.Tmp? ==> r.t in b.tmps)
  {
  }

  lemma TestDoes(m: X.Machine)
    ensures X.AllStraight([X.Test(X.RAX)])
    ensures var o := X.DoAll([X.Test(X.RAX)], m);
      o.Go? && SameStack(m, o.m) && o.m.zf == !Truthy(m.Get(X.RAX)) && o.m.regs == m.regs
  {
    DoOne(X.Test(X.RAX), m);
  }

  lemma SelectMoves(m: X.Machine)
    ensures var xs := [X.Cmovz(X.RCX, X.RDX), X.MovReg(X.RAX, X.RCX)];
      && X.AllStraight(xs)
      && var o := X.DoAll(xs, m);
         o.Go? && SameStack(m, o.m) && o.m.Get(X.RAX) == if m.zf then m.Get(X.RDX) else m.Get(X.RCX)
  {
    DoTwo(X.Cmovz(X.RCX, X.RDX), X.MovReg(X.RAX, X.RCX), m);
  }

  lemma SetZf(m: X.Machine, r: X.Reg, v: Word)
    ensures m.Set(r, v).zf == m.zf
  {
  }

  /** What a selection does in the IR, and its code. */
  lemma SelectFacts(w: World, k: nat, temps: Temps, vars: Vars)
    requires k < |w.f.code| && w.f.code[k].Select?
    requires !Step(w.f.code, w.F, Run(k, temps, vars)).Stuck?
    ensures var i := w.f.code[k];
      var b := SlotsAt(w.abi, w.f, k + 1);
      && Read(i.c, temps).Some? && Read(i.a, temps).Some? && Read(i.b, temps).Some?
      && Step(w.f.code, w.F, Run(k, temps, vars)) == Run(k + 1,
           temps[i.dest :=
             if Truthy(Read(i.c, temps).value) then Read(i.a, temps).value else Read(i.b, temps).value], vars)
      && Piece(w.abi, w.f, k) == LoadArg(b, i.c, X.RAX) + [X.Test(X.RAX)] + LoadArg(b, i.a, X.RCX)
           + LoadArg(b, i.b, X.RDX) + [X.Cmovz(X.RCX, X.RDX), X.MovReg(X.RAX, X.RCX)] + StoreDest(b, i.dest)
      && Keeps(b, w.Final()) && i.dest in b.tmps && (i.c.Tmp? ==> i.c.t in b.tmps)
      && (i.a.Tmp? ==> i.a.t in b.tmps) && (i.b.Tmp? ==> i.b.t in b.tmps)
  {
    var i := w.f.code[k];
    OperandSlots(w, k);
    SelectSlots(SlotsAt(w.abi, w.f, k), i.c, i.a, i.b, i.dest);
    hide SlotsAt, LoadArg, StoreDest, TouchTemp, TouchOperand, Keeps, FuncSlots;
  }

  lemma DoesRun(w: World, s: State, xs: X.Asm, m: X.Machine, k: nat, temps: Temps, vars: Vars)
    requires X.AllStraight(xs) && var o := X.DoAll(xs, m); o.Go? && Holds(w, temps, vars, o.m)
    ensures Does(w, s, xs, m, Run(k, temps, vars))
  {
    hide X.AllStraight, X.DoAll, Holds;
  }

  lemma SelectDoes(w: World, k: nat, temps: Temps, vars: Vars, m: X.Machine)
    requires Supported(w.abi) && k < |w.f.code| && w.f.code[k].Select? && Holds(w, temps, vars, m)
    requires !Step(w.f.code, w.F, Run(k, temps, vars)).Stuck?
    ensures Does(w, Run(k, temps, vars), Piece(w.abi, w.f, k), m, Step(w.f.code, w.F, Run(k, temps, vars)))
  {
    hide *;
    var i := w.f.code[k];
    var b := SlotsAt(w.abi, w.f, k + 1);
    SelectFacts(w, k, temps, vars);
    var u, x, y := Read(i.c, temps).value, Read(i.a, temps).value, Read(i.b, temps).value;
    var l0, tst, l1, l2 := LoadArg(b, i.c, X.RAX), [X.Test(X.RAX)], LoadArg(b, i.a, X.RCX), LoadArg(b, i.b, X.RDX);
    var mv, st := [X.Cmovz(X.RCX, X.RDX), X.MovReg(X.RAX, X.RCX)], StoreDest(b, i.dest);
    LoadDoes(w, b, temps, vars, m, i.c, X.RAX);
    var m1 := m.Set(X.RAX, u);
    SetGet(m, X.RAX, u);
    TestDoes(m1);
    var m2 := X.DoAll(tst, m1).m;
    HoldsRegs(w, temps, vars, m1, m2);
    Then(l0, tst, m, m1);
    LoadDoes(w, b, temps, vars, m2, i.a, X.RCX);
    var m3 := m2.Set(X.RCX, x);
    Then(l0 + tst, l1, m, m2);
    LoadDoes(w, b, temps, vars, m3, i.b, X.RDX);
    var m4 := m3.Set(X.RDX, y);
    Then(l0 + tst + l1, l2, m, m3);
    SetGet(m2, X.RCX, x);
    SetGet(m3, X.RDX, y);
    SetZf(m2, X.RCX, x);
    SetZf(m3, X.RDX, y);
    SelectMoves(m4);
    var m5 := X.DoAll(mv, m4).m;
    Then(l0 + tst + l1 + l2, mv, m, m4);
    HoldsRegs(w, temps, vars, m4, m5);
    StoreDoes(w, b, temps, vars, m5, i.dest);
    Then(l0 + tst + l1 + l2 + mv, st, m, m5);
    var v := if Truthy(u) then x else y;
    DoesRun(w, Run(k, temps, vars), l0 + tst + l1 + l2 + mv + st, m, k + 1, temps[i.dest := v], vars);
  }

  lemma ConstDoes(w: World, k: nat, temps: Temps, vars: Vars, m: X.Machine)
    requires Supported(w.abi) && k < |w.f.code| && w.f.code[k].Const? && Holds(w, temps, vars, m)
    ensures Does(w, Run(k, temps, vars), Piece(w.abi, w.f, k), m, Step(w.f.code, w.F, Run(k, temps, vars)))
  {
    var i := w.f.code[k];
    var b := SlotsAt(w.abi, w.f, k + 1);
    OperandSlots(w, k);
    var l1, st := LoadArg(b, Imm(i.value), X.RAX), StoreDest(b, i.dest);
    assert Piece(w.abi, w.f, k) == l1 + st;
    hide Piece, SlotsAt, LoadArg, StoreDest, Holds, Keeps, TouchOperand, FuncSlots;
    hide X.DoAll, X.AllStraight, X.Machine.Get, X.Machine.Set, SameStack;
    LoadDoes(w, b, temps, vars, m, Imm(i.value), X.RAX);
    var m1 := m.Set(X.RAX, i.value);
    SetGet(m, X.RAX, i.value);
    StoreDoes(w, b, temps, vars, m1, i.dest);
    Then(l1, st, m, m1);
  }

  lemma LoadNameDoes(w: World, a: Slots, temps: Temps, vars: Vars, m: X.Machine, x: Name)
    requires Holds(w, temps, vars, m) && Keeps(a, w.Final()) && x in vars && x in a.vars
    ensures var xs := [X.LoadSlot(X.RAX, a.vars[x])];
      X.AllStraight(xs) && X.DoAll(xs, m) == X.Go(m.Set(X.RAX, vars[x])) && Holds(w, temps, vars, m.Set(X.RAX, vars[x]))
  {
    DoOne(X.LoadSlot(X.RAX, a.vars[x]), m);
    HoldsRegs(w, temps, vars, m, m.Set(X.RAX, vars[x]));
    WrapWord(vars[x]);
    hide Wrap, FuncSlots;
    assert m.Cell(m.rbp - a.vars[x]) == vars[x];
  }

  lemma LoadInstrDoes(w: World, k: nat, temps: Temps, vars: Vars, m: X.Machine)
    requires Supported(w.abi) && k < |w.f.code| && w.f.code[k].Load? && Holds(w, temps, vars, m)
    requires KnownLoads(w.abi, w.f)
    requires !Step(w.f.code, w.F, Run(k, temps, vars)).Stuck?
    ensures Does(w, Run(k, temps, vars), Piece(w.abi, w.f, k), m, Step(w.f.code, w.F, Run(k, temps, vars)))
  {
    var i := w.f.code[k];
    var a, b := SlotsAt(w.abi, w.f, k), SlotsAt(w.abi, w.f, k + 1);
    OperandSlots(w, k);
    assert i.name in a.vars;
    var l1, st := [X.LoadSlot(X.RAX, a.vars[i.name])], StoreDest(b, i.dest);
    assert Piece(w.abi, w.f, k) == l1 + st;
    hide Piece, SlotsAt, StoreDest, Holds, Keeps, TouchOperand, FuncSlots, KnownLoads;
    hide X.DoAll, X.AllStraight, X.Machine.Get, X.Machine.Set, SameStack;
    LoadNameDoes(w, a, temps, vars, m, i.name);
    var m1 := m.Set(X.RAX, vars[i.name]);
    SetGet(m, X.RAX, vars[i.name]);
    StoreDoes(w, b, temps, vars, m1, i.dest);
    Then(l1, st, m, m1);
  }

  lemma StoreNameDoes(w: World, b: Slots, temps: Temps, vars: Vars, m: X.Machine, x: Name)
    requires Supported(w.abi) && Holds(w, temps, vars, m) && Keeps(b, w.Final()) && x in b.vars
    ensures var xs := [X.StoreSlot(b.vars[x], X.RAX)];
      X.AllStraight(xs) && var o := X.DoAll(xs, m); o.Go? && Holds(w, temps, vars[x := m.Get(X.RAX)], o.m)
  {
    DoOne(X.StoreSlot(b.vars[x], X.RAX), m);
    WriteName(w, temps, vars, m, x, m.Get(X.RAX));
    hide Holds;
  }

  lemma StoreInstrDoes(w: World, k: nat, temps: Temps, vars: Vars, m: X.Machine)
    requires Supported(w.abi) && k < |w.f.code| && w.f.code[k].Store? && Holds(w, temps, vars, m)
    requires !Step(w.f.code, w.F, Run(k, temps, vars)).Stuck?
    ensures Does(w, Run(k, temps, vars), Piece(w.abi, w.f, k), m, Step(w.f.code, w.F, Run(k, temps, vars)))
  {
    var i := w.f.code[k];
    var b := SlotsAt(w.abi, w.f, k + 1);
    OperandSlots(w, k);
    assert i.name in b.vars && (i.src.Tmp? ==> i.src.t in b.tmps);
    var l1, st := LoadArg(b, i.src, X.RAX), [X.StoreSlot(b.vars[i.name], X.RAX)];
    assert Piece(w.abi, w.f, k) == l1 + st;
    hide Piece, SlotsAt, LoadArg, StoreDest, Holds, Keeps, Touch, TouchOperand, FuncSlots;
    hide X.DoAll, X.AllStraight, X.Machine.Get, X.Machine.Set, SameStack;
    var v := Read(i.src, temps).value;
    LoadDoes(w, b, temps, vars, m, i.src, X.RAX);
    var m1 := m.Set(X.RAX, v);
    SetGet(m, X.RAX, v);
    StoreNameDoes(w, b, temps, vars, m1, i.name);
    Then(l1, st, m, m1);
  }

  // ----- one step -----

  /** The machine gets from `q` to a state that matches `s`. */
  ghost predicate Gets(w: World, q: X.State, s: State) {
    exists q' :: X.Reaches(w.Asm(), w.Ra(), w.G, q, q') && Matches(w, s, q')
  }

  lemma GetsVia(w: World, q: X.State, q1: X.State, s: State)
    requires X.Reaches(w.Asm(), w.Ra(), w.G, q, q1) && Gets(w, q1, s)
    ensures Gets(w, q, s)
  {
    hide Matches, X.Reaches, FuncCode;
    var q2 :| X.Reaches(w.Asm(), w.Ra(), w.G, q1, q2) && Matches(w, s, q2);
    X.ReachesTrans(w.Asm(), w.Ra(), w.G, q, q1, q2);
  }

  lemma GetsNow(w: World, q: X.State, s: State)
    requires Matches(w, s, q)
    ensures Gets(w, q, s)
  {
    X.ReachesRefl(w.Asm(), w.Ra(), w.G, q);
  }

  lemma GetsStep(w: World, q: X.State, s: State)
    requires Gets(w, X.Step(w.Asm(), w.Ra(), w.G, q), s)
    ensures Gets(w, q, s)
  {
    X.ReachesStep(w.Asm(), w.Ra(), w.G, q);
    GetsVia(w, q, X.Step(w.Asm(), w.Ra(), w.G, q), s);
  }

  /** An instruction whose code is straight. */
  lemma StraightGets(w: World, k: nat, temps: Temps, vars: Vars, m: X.Machine, s': State)
    requires k < |w.f.code| && Does(w, Run(k, temps, vars), Piece(w.abi, w.f, k), m, s')
    requires s'.Trap? || (s'.Run? && s'.pc == k + 1)
    ensures Gets(w, X.At(Pos(w.abi, w.f, k), m), s')
  {
    hide Holds, X.DoAll, X.AllStraight, X.Reaches, FuncCode, Pos, Piece, X.Sits;
    var xs := Piece(w.abi, w.f, k);
    PieceSits(w.abi, w.f, k);
    PosNext(w.abi, w.f, k);
    X.RunsStraight(w.Asm(), w.Ra(), w.G, Pos(w.abi, w.f, k), xs, m);
    var o := X.DoAll(xs, m);
    GetsNow(w, if o.Go? then X.At(Pos(w.abi, w.f, k + 1), o.m) else X.Trap, s');
    GetsVia(w, X.At(Pos(w.abi, w.f, k), m), if o.Go? then X.At(Pos(w.abi, w.f, k + 1), o.m) else X.Trap, s');
  }

  /** A jump to a label of the code. */
  lemma GotoMatches(w: World, l: nat, s: State, m: X.Machine)
    requires s.Run? && Holds(w, s.temps, s.vars, m) && !Goto(w.f.code, l, s).Stuck?
    ensures Matches(w, Goto(w.f.code, l, s), X.Goto(w.Asm(), l, m))
  {
    MarkFound(w.abi, w.f, l);
    hide Holds, FindLabel, X.FindMark, FuncCode, Pos;
  }

  /** The last instruction of a piece, after a straight part. */
  lemma SplitPiece(w: World, k: nat, xs: X.Asm, j: X.Inst, m: X.Machine, m1: X.Machine)
    requires k < |w.f.code| && Piece(w.abi, w.f, k) == xs + [j]
    requires X.AllStraight(xs) && X.DoAll(xs, m) == X.Go(m1)
    ensures var p := Pos(w.abi, w.f, k);
      && p + |xs| < |w.Asm()| && w.Asm()[p + |xs|] == j
      && p + |xs| + 1 == Pos(w.abi, w.f, k + 1)
      && X.Reaches(w.Asm(), w.Ra(), w.G, X.At(p, m), X.At(p + |xs|, m1))
  {
    hide X.DoAll, X.AllStraight, X.Reaches, FuncCode, Pos, Piece;
    var p := Pos(w.abi, w.f, k);
    PieceSits(w.abi, w.f, k);
    PosNext(w.abi, w.f, k);
    X.SitsSplit(w.Asm(), p, xs, [j]);
    assert w.Asm()[p + |xs|] == w.Asm()[p + |xs|..p + |xs| + 1][0];
    X.RunsStraight(w.Asm(), w.Ra(), w.G, p, xs, m);
  }

  /** The steps of the machine at its control instructions. */
  lemma StepFacts(asm: X.Asm, ra: int, G: X.Callees, p: nat, m: X.Machine)
    requires p < |asm|
    ensures var s' := X.Step(asm, ra, G, X.At(p, m));
      && (asm[p].Mark? ==> s' == X.At(p + 1, m))
      && (asm[p].JmpTo? ==> s' == X.Goto(asm, asm[p].lbl, m))
      && (asm[p].JzTo? ==> s' == if m.zf then X.Goto(asm, asm[p].lbl, m) else X.At(p + 1, m))
      && (asm[p].JnzTo? ==> s' == if m.zf then X.At(p + 1, m) else X.Goto(asm, asm[p].lbl, m))
      && (asm[p].RetNear? && m.Cell(m.rsp) == ra ==> s' == X.Back(m.(rsp := m.rsp + 8)))
  {
    hide X.Goto, X.Do;
  }

  lemma RunMatches(w: World, k: nat, temps: Temps, vars: Vars, m: X.Machine)
    requires k <= |w.f.code| && Holds(w, temps, vars, m)
    ensures Matches(w, Run(k, temps, vars), X.At(Pos(w.abi, w.f, k), m))
  {
    hide Holds, Pos;
  }

  lemma LabelGets(w: World, k: nat, temps: Temps, vars: Vars, m: X.Machine)
    requires k < |w.f.code| && w.f.code[k].Label? && Holds(w, temps, vars, m)
    ensures Gets(w, X.At(Pos(w.abi, w.f, k), m), Run(k + 1, temps, vars))
  {
    var l := w.f.code[k].lbl;
    LabelPiece(w.abi, w.f, k, l);
    assert [] + [X.Mark(l)] == [X.Mark(l)];
    NoCode(m);
    hide *;
    SplitPiece(w, k, [], X.Mark(l), m, m);
    var p := Pos(w.abi, w.f, k);
    StepFacts(w.Asm(), w.Ra(), w.G, p, m);
    RunMatches(w, k + 1, temps, vars, m);
    GetsNow(w, X.At(p + 1, m), Run(k + 1, temps, vars));
    GetsStep(w, X.At(p, m), Run(k + 1, temps, vars));
  }

  lemma NoCode(m: X.Machine)
    ensures X.AllStraight([]) && X.DoAll([], m) == X.Go(m)
  {
  }

  lemma JmpGets(w: World, k: nat, temps: Temps, vars: Vars, m: X.Machine)
    requires k < |w.f.code| && w.f.code[k].Jmp? && Holds(w, temps, vars, m)
    requires !Step(w.f.code, w.F, Run(k, temps, vars)).Stuck?
    ensures Gets(w, X.At(Pos(w.abi, w.f, k), m), Step(w.f.code, w.F, Run(k, temps, vars)))
  {
    var l := w.f.code[k].lbl;
    var s' := Step(w.f.code, w.F, Run(k, temps, vars));
    assert s' == Goto(w.f.code, l, Run(k, temps, vars));
    assert Piece(w.abi, w.f, k) == [] + [X.JmpTo(l)];
    NoCode(m);
    hide *;
    SplitPiece(w, k, [], X.JmpTo(l), m, m);
    GotoMatches(w, l, Run(k, temps, vars), m);
    StepFacts(w.Asm(), w.Ra(), w.G, Pos(w.abi, w.f, k), m);
    GetsNow(w, X.Goto(w.Asm(), l, m), s');
    GetsStep(w, X.At(Pos(w.abi, w.f, k), m), s');
  }

  lemma BranchSlot(w: World, k: nat)
    requires k < |w.f.code| && (w.f.code[k].Jz? || w.f.code[k].Jnz?)
    ensures Keeps(SlotsAt(w.abi, w.f, k + 1), w.Final())
    ensures w.f.code[k].c.Tmp? ==> w.f.code[k].c.t in SlotsAt(w.abi, w.f, k + 1).tmps
  {
    OperandSlots(w, k);
    hide SlotsAt, Keeps, FuncSlots;
  }

  /** The condition of a branch, in the zero flag. */
  lemma TestOperand(w: World, k: nat, temps: Temps, vars: Vars, m: X.Machine) returns (m': X.Machine)
    requires k < |w.f.code| && Holds(w, temps, vars, m)
    requires w.f.code[k].Jz? || w.f.code[k].Jnz?
    requires Read(w.f.code[k].c, temps).Some?
    ensures var xs := LoadArg(SlotsAt(w.abi, w.f, k + 1), w.f.code[k].c, X.RAX) + [X.Test(X.RAX)];
      X.AllStraight(xs) && X.DoAll(xs, m) == X.Go(m')
    ensures Holds(w, temps, vars, m') && m'.zf == !Truthy(Read(w.f.code[k].c, temps).value)
  {
    hide *;
    var b, o := SlotsAt(w.abi, w.f, k + 1), w.f.code[k].c;
    BranchSlot(w, k);
    var v := Read(o, temps).value;
    LoadDoes(w, b, temps, vars, m, o, X.RAX);
    var m1 := m.Set(X.RAX, v);
    SetGet(m, X.RAX, v);
    TestDoes(m1);
    m' := X.DoAll([X.Test(X.RAX)], m1).m;
    HoldsRegs(w, temps, vars, m1, m');
    Then(LoadArg(b, o, X.RAX), [X.Test(X.RAX)], m, m1);
  }

  /** What a branch does in the IR. */
  lemma BranchSteps(w: World, k: nat, temps: Temps, vars: Vars)
    requires k < |w.f.code| && (w.f.code[k].Jz? || w.f.code[k].Jnz?)
    requires !Step(w.f.code, w.F, Run(k, temps, vars)).Stuck?
    ensures var i := w.f.code[k];
      && Read(i.c, temps).Some?
      && Step(w.f.code, w.F, Run(k, temps, vars)) ==
         if i.Jz? == Truthy(Read(i.c, temps).value) then Run(k + 1, temps, vars)
         else Goto(w.f.code, i.lbl, Run(k, temps, vars))
  {
    hide Goto;
  }

  lemma BranchPiece(w: World, k: nat)
    requires k < |w.f.code| && (w.f.code[k].Jz? || w.f.code[k].Jnz?)
    ensures var i := w.f.code[k];
      Piece(w.abi, w.f, k) == LoadArg(SlotsAt(w.abi, w.f, k + 1), i.c, X.RAX) + [X.Test(X.RAX)]
        + [if i.Jz? then X.JzTo(i.lbl) else X.JnzTo(i.lbl)]
  {
    hide SlotsAt, LoadArg, PassArgs, FrameSize, BinCode, UnCode, StoreDest, BeforeCall, AfterCall, Passed;
  }

  lemma BranchGets(w: World, k: nat, temps: Temps, vars: Vars, m: X.Machine)
    requires k < |w.f.code| && (w.f.code[k].Jz? || w.f.code[k].Jnz?) && Holds(w, temps, vars, m)
    requires !Step(w.f.code, w.F, Run(k, temps, vars)).Stuck?
    ensures Gets(w, X.At(Pos(w.abi, w.f, k), m), Step(w.f.code, w.F, Run(k, temps, vars)))
  {
    hide *;
    var i := w.f.code[k];
    var s, s' := Run(k, temps, vars), Step(w.f.code, w.F, Run(k, temps, vars));
    BranchSteps(w, k, temps, vars);
    BranchPiece(w, k);
    var m' := TestOperand(w, k, temps, vars, m);
    var xs := LoadArg(SlotsAt(w.abi, w.f, k + 1), i.c, X.RAX) + [X.Test(X.RAX)];
    SplitPiece(w, k, xs, if i.Jz? then X.JzTo(i.lbl) else X.JnzTo(i.lbl), m, m');
    var p := Pos(w.abi, w.f, k) + |xs|;
    StepFacts(w.Asm(), w.Ra(), w.G, p, m');
    if i.Jz? == Truthy(Read(i.c, temps).value) {
      RunMatches(w, k + 1, temps, vars, m');
      GetsNow(w, X.At(p + 1, m'), s');
    } else {
      GotoMatches(w, i.lbl, s, m');
      GetsNow(w, X.Goto(w.Asm(), i.lbl, m'), s');
    }
    GetsStep(w, X.At(p, m'), s');
    GetsVia(w, X.At(Pos(w.abi, w.f, k), m), X.At(p, m'), s');
  }

  /** The value returned, in `rax`. */
  lemma RetOperand(w: World, k: nat, temps: Temps, vars: Vars, m: X.Machine)
    requires k < |w.f.code| && w.f.code[k].Ret? && Holds(w, temps, vars, m)
    requires !Step(w.f.code, w.F, Run(k, temps, vars)).Stuck?
    ensures Read(w.f.code[k].a, temps).Some?
    ensures var v := Read(w.f.code[k].a, temps).value;
      var xs := LoadArg(SlotsAt(w.abi, w.f, k + 1), w.f.code[k].a, X.RAX);
      && Step(w.f.code, w.F, Run(k, temps, vars)) == Done(v)
      && Piece(w.abi, w.f, k) == xs + [X.Leave] + [X.RetNear]
      && X.AllStraight(xs) && X.DoAll(xs, m) == X.Go(m.Set(X.RAX, v))
      && Holds(w, temps, vars, m.Set(X.RAX, v)) && m.Set(X.RAX, v).Get(X.RAX) == v
  {
    var i := w.f.code[k];
    var v := Read(i.a, temps).value;
    var b := SlotsAt(w.abi, w.f, k + 1);
    OperandSlots(w, k);
    assert i.a.Tmp? ==> i.a.t in b.tmps;
    assert Piece(w.abi, w.f, k) == LoadArg(b, i.a, X.RAX) + [X.Leave] + [X.RetNear];
    hide SlotsAt, LoadArg, Holds, Keeps, Touch, TouchOperand, FuncSlots, Piece;
    hide X.DoAll, X.AllStraight, X.Machine.Get, X.Machine.Set;
    LoadDoes(w, b, temps, vars, m, i.a, X.RAX);
    SetGet(m, X.RAX, v);
  }

  /** `leave` and `ret` give the caller its stack back. */
  lemma RetGets(w: World, k: nat, temps: Temps, vars: Vars, m: X.Machine)
    requires k < |w.f.code| && w.f.code[k].Ret? && Holds(w, temps, vars, m)
    requires !Step(w.f.code, w.F, Run(k, temps, vars)).Stuck?
    ensures Gets(w, X.At(Pos(w.abi, w.f, k), m), Step(w.f.code, w.F, Run(k, temps, vars)))
  {
    hide *;
    RetOperand(w, k, temps, vars, m);
    var v := Read(w.f.code[k].a, temps).value;
    var m1 := m.Set(X.RAX, v);
    var xs := LoadArg(SlotsAt(w.abi, w.f, k + 1), w.f.code[k].a, X.RAX);
    OneStraight(X.Leave);
    DoOne(X.Leave, m1);
    LeaveGoes(m1);
    var m2 := Left(m1);
    Then(xs, [X.Leave], m, m1);
    SplitPiece(w, k, xs + [X.Leave], X.RetNear, m, m2);
    LeaveRestores(w, temps, vars, m1);
    var p := Pos(w.abi, w.f, k) + |xs + [X.Leave]|;
    StepFacts(w.Asm(), w.Ra(), w.G, p, m2);
    var m3 := m2.(rsp := m2.rsp + 8);
    DoneMatches(w, v, m3);
    GetsNow(w, X.Back(m3), Done(v));
    GetsStep(w, X.At(p, m2), Done(v));
    GetsVia(w, X.At(Pos(w.abi, w.f, k), m), X.At(p, m2), Done(v));
  }

  /** The machine after `leave`. */
  function Left(m: X.Machine): X.Machine {
    m.(rsp := m.rbp + 8, rbp := m.Cell(m.rbp))
  }

  lemma LeaveGoes(m: X.Machine)
    ensures X.Straight(X.Leave) && X.Do(X.Leave, m) == X.Go(Left(m))
  {
  }

  lemma DoneMatches(w: World, v: Word, m: X.Machine)
    requires m.Get(X.RAX) == v && Restored(w, m)
    ensures Matches(w, Done(v), X.Back(m))
  {
    hide Restored;
  }

  lemma OneStraight(i: X.Inst)
    requires X.Straight(i)
    ensures X.AllStraight([i])
  {
  }

  lemma HoldsFrame(w: World, temps: Temps, vars: Vars, m: X.Machine)
    requires Holds(w, temps, vars, m)
    ensures m.rbp == w.Base() && m.rsp == w.Base() - w.Frame() && SameAbove(w.Base(), w.top, m)
  {
    hide FuncSlots, FrameSize, SameAbove;
  }

  lemma SameMemory(a: int, m: X.Machine, m': X.Machine)
    requires m'.mem == m.mem
    ensures SameAbove(a, m, m')
  {
  }

  lemma SameAboveAt(a: int, m: X.Machine, m': X.Machine, x: int)
    requires SameAbove(a, m, m') && x >= a
    ensures m'.Cell(x) == m.Cell(x)
  {
  }

  lemma LeftFacts(m: X.Machine)
    ensures var m2 := Left(m);
      m2.rsp == m.rbp + 8 && m2.rbp == m.Cell(m.rbp) && m2.mem == m.mem && m2.Get(X.RAX) == m.Get(X.RAX)
    ensures Left(m).(rsp := Left(m).rsp + 8).Get(X.RAX) == Left(m).Get(X.RAX)
  {
  }

  lemma RestoredIs(w: World, m: X.Machine)
    requires m.rbp == w.top.Cell(w.Base()) && m.rsp == w.Base() + 16 && SameAbove(w.Base(), w.top, m)
    ensures Restored(w, m)
  {
  }

  lemma RaIs(w: World)
    ensures w.Ra() == w.top.Cell(w.Base() + 8)
  {
  }

  lemma LeaveRestores(w: World, temps: Temps, vars: Vars, m: X.Machine)
    requires Holds(w, temps, vars, m)
    ensures var m2 := Left(m);
      && m2.Cell(m2.rsp) == w.Ra()
      && Restored(w, m2.(rsp := m2.rsp + 8))
      && m2.(rsp := m2.rsp + 8).Get(X.RAX) == m.Get(X.RAX)
  {
    hide *;
    HoldsFrame(w, temps, vars, m);
    var m2 := Left(m);
    var m3 := m2.(rsp := m2.rsp + 8);
    LeftFacts(m);
    SameMemory(w.Base(), m, m3);
    SameMemory(w.Base(), m, m2);
    SameAboveTrans(w.Base(), w.top, m, m3);
    SameAboveAt(w.Base(), w.top, m, w.Base());
    SameAboveAt(w.Base(), w.top, m, w.Base() + 8);
    SameAboveAt(w.Base(), m, m2, w.Base() + 8);
    RaIs(w);
    RestoredIs(w, m3);
  }

  // ----- calls -----

  lemma FilledRegs(w: World, temps: Temps, vars: Vars, m: X.Machine, m': X.Machine)
    requires Filled(w, temps, vars, m) && SameStack(m, m')
    ensures Filled(w, temps, vars, m')
  {
    forall a: int
      ensures m'.Cell(a) == m.Cell(a)
    {
    }
  }

  /** The first `n` arguments are in their registers. */
  predicate Loaded(abi: Abi, vs: seq<Word>, n: nat, m: X.Machine)
    requires n <= |vs| <= |abi.regs|
  {
    forall i | 0 <= i < n :: m.Get(abi.regs[i]) == vs[i]
  }

  ghost predicate Readable(args: seq<Operand>, vs: seq<Word>, b: Slots, temps: Temps) {
    && |args| == |vs|
    && forall i | 0 <= i < |args| :: Read(args[i], temps) == Some(vs[i]) && (args[i].Tmp? ==> args[i].t in b.tmps)
  }

  lemma AbiRegs(abi: Abi)
    requires Supported(abi)
    ensures |abi.regs| <= 6 && abi.shadow % 16 == 0
    ensures forall i, j | 0 <= i < j < |abi.regs| :: abi.regs[i] != abi.regs[j]
    ensures forall i | 0 <= i < |abi.regs| :: abi.regs[i] != X.RAX
  {
  }

  /** One argument into its register, over `rax`. */
  lemma OneArg(w: World, b: Slots, temps: Temps, vars: Vars, m: X.Machine, args: seq<Operand>, vs: seq<Word>, n: nat)
    returns (m': X.Machine)
    requires Supported(w.abi) && Filled(w, temps, vars, m) && Keeps(b, w.Final())
    requires n < |args| <= |w.abi.regs| && Readable(args, vs, b, temps) && Loaded(w.abi, vs, n, m)
    ensures var xs := LoadArg(b, args[n], X.RAX) + [X.MovReg(w.abi.regs[n], X.RAX)];
      X.AllStraight(xs) && X.DoAll(xs, m) == X.Go(m')
    ensures SameStack(m, m') && Loaded(w.abi, vs, n + 1, m')
  {
    var o, r := args[n], w.abi.regs[n];
    AbiRegs(w.abi);
    assert Read(o, temps) == Some(vs[n]);
    LoadFrom(w, b, temps, vars, m, o, X.RAX);
    var m1 := m.Set(X.RAX, vs[n]);
    DoOne(X.MovReg(r, X.RAX), m1);
    OneStraight(X.MovReg(r, X.RAX));
    Then(LoadArg(b, o, X.RAX), [X.MovReg(r, X.RAX)], m, m1);
    m' := m1.Set(r, vs[n]);
    SetGet(m, X.RAX, vs[n]);
    SetGet(m1, r, vs[n]);
    hide LoadArg, X.DoAll, Filled, Keeps, X.AllStraight, Supported, X.Machine.Get;
  }

  lemma {:induction false} ArgsDo(w: World, b: Slots, temps: Temps, vars: Vars, m: X.Machine, args: seq<Operand>,
                                  vs: seq<Word>, n: nat)
    requires Supported(w.abi) && Filled(w, temps, vars, m) && Keeps(b, w.Final())
    requires n <= |args| <= |w.abi.regs| && Readable(args, vs, b, temps) && Loaded(w.abi, vs, n, m)
    ensures X.AllStraight(PassArgs(w.abi, b, args, n))
    ensures var o := X.DoAll(PassArgs(w.abi, b, args, n), m); o.Go? && SameStack(m, o.m) && Loaded(w.abi, vs, |vs|, o.m)
    decreases |args| - n
  {
    if n < |args| {
      var xs := LoadArg(b, args[n], X.RAX) + [X.MovReg(w.abi.regs[n], X.RAX)];
      assert PassArgs(w.abi, b, args, n) == xs + PassArgs(w.abi, b, args, n + 1);
      hide LoadArg, X.DoAll, Filled, Keeps, X.AllStraight, Supported, Loaded, Readable, PassArgs;
      var m' := OneArg(w, b, temps, vars, m, args, vs, n);
      FilledRegs(w, temps, vars, m, m');
      ArgsDo(w, b, temps, vars, m', args, vs, n + 1);
      Then(xs, PassArgs(w.abi, b, args, n + 1), m, m');
    }
  }

  lemma {:induction false} ReadArgsAt(args: seq<Operand>, temps: Temps)
    requires ReadArgs(args, temps).Some?
    ensures forall i | 0 <= i < |args| :: Read(args[i], temps) == Some(ReadArgs(args, temps).value[i])
    decreases |args|
  {
    if args != [] {
      ReadArgsAt(args[1..], temps);
      var vs := ReadArgs(args, temps).value;
      forall i | 0 <= i < |args|
        ensures Read(args[i], temps) == Some(vs[i])
      {
        if i > 0 {
          assert args[i] == args[1..][i - 1];
          assert vs[i] == ReadArgs(args[1..], temps).value[i - 1];
        }
      }
    }
  }

  /** The machine when a call is made: the space above it reserved. */
  function Lowered(abi: Abi, m: X.Machine): X.Machine {
    m.(rsp := m.rsp - abi.shadow)
  }

  lemma BeforeDoes(abi: Abi, m: X.Machine)
    requires m.rsp % 16 == 0
    ensures X.AllStraight(BeforeCall(abi)) && X.DoAll(BeforeCall(abi), m) == X.Go(Lowered(abi, m))
  {
    DoOne(X.AndRsp16, m);
    if abi.shadow > 0 {
      DoTwo(X.AndRsp16, X.SubRsp(abi.shadow), m);
      assert BeforeCall(abi) == [X.AndRsp16, X.SubRsp(abi.shadow)];
    } else {
      assert BeforeCall(abi) == [X.AndRsp16];
    }
  }

  lemma AfterDoes(abi: Abi, frame: nat, m: X.Machine)
    ensures X.AllStraight(AfterCall(abi, frame)) && X.DoAll(AfterCall(abi, frame), m) == X.Go(m.(rsp := m.rbp - frame))
  {
    DoOne(X.LeaRsp(frame), m);
    if abi.shadow > 0 {
      DoTwo(X.AddRsp(abi.shadow), X.LeaRsp(frame), m);
      assert AfterCall(abi, frame) == [X.AddRsp(abi.shadow), X.LeaRsp(frame)];
    } else {
      assert AfterCall(abi, frame) == [X.LeaRsp(frame)];
    }
  }

  lemma FilledLowered(w: World, temps: Temps, vars: Vars, m: X.Machine)
    requires Filled(w, temps, vars, m)
    ensures Filled(w, temps, vars, Lowered(w.abi, m))
  {
    forall a: int
      ensures Lowered(w.abi, m).Cell(a) == m.Cell(a)
    {
    }
  }

  /** Up to the call instruction: the arguments are in their registers, and the stack pointer is a multiple of 16, at
      or below the end of the frame. */
  lemma CallReady(w: World, k: nat, temps: Temps, vars: Vars, m: X.Machine) returns (m': X.Machine)
    requires Supported(w.abi) && w.Base() % 16 == 0 && k < |w.f.code| && w.f.code[k].Call? && Holds(w, temps, vars, m)
    requires |w.f.code[k].args| <= |w.abi.regs| && ReadArgs(w.f.code[k].args, temps).Some?
    ensures var b := SlotsAt(w.abi, w.f, k + 1);
      var xs := BeforeCall(w.abi) + PassArgs(w.abi, b, w.f.code[k].args, 0) + [X.XorEax];
      X.AllStraight(xs) && X.DoAll(xs, m) == X.Go(m')
    ensures Filled(w, temps, vars, m') && Passes(w.abi, ReadArgs(w.f.code[k].args, temps).value, m')
    ensures m'.rsp == w.Base() - w.Frame() - w.abi.shadow && m'.rsp % 16 == 0
  {
    hide *;
    var b, args := SlotsAt(w.abi, w.f, k + 1), w.f.code[k].args;
    var vs := ReadArgs(args, temps).value;
    SlotFacts(w);
    AbiRegs(w.abi);
    HoldsFrame(w, temps, vars, m);
    Multiples(w.Base(), w.Frame(), w.abi.shadow);
    BeforeDoes(w.abi, m);
    var m1 := Lowered(w.abi, m);
    LoweredRsp(w.abi, m);
    OperandSlots(w, k);
    CallArgs(w, k, temps);
    HoldsFilled(w, temps, vars, m);
    FilledLowered(w, temps, vars, m);
    NoneLoaded(w.abi, vs, m1);
    ArgsDo(w, b, temps, vars, m1, args, vs, 0);
    var m2 := X.DoAll(PassArgs(w.abi, b, args, 0), m1).m;
    Then(BeforeCall(w.abi), PassArgs(w.abi, b, args, 0), m, m1);
    m' := XoredEax(m2);
    XorDoes(w.abi, vs, m2);
    Then(BeforeCall(w.abi) + PassArgs(w.abi, b, args, 0), [X.XorEax], m, m2);
    FilledRegs(w, temps, vars, m1, m2);
    FilledRegs(w, temps, vars, m2, m');
    SameRsp(m1, m2);
    SameRsp(m2, m');
  }

  lemma SameRsp(m: X.Machine, m': X.Machine)
    requires SameStack(m, m')
    ensures m'.rsp == m.rsp && m'.rbp == m.rbp
  {
  }

  lemma Multiples(a: int, b: int, c: int)
    requires a % 16 == 0 && b % 16 == 0 && c % 16 == 0
    ensures (a - b) % 16 == 0 && (a - b - c) % 16 == 0
  {
  }

  lemma LoweredRsp(abi: Abi, m: X.Machine)
    ensures Lowered(abi, m).rsp == m.rsp - abi.shadow
  {
  }

  lemma HoldsFilled(w: World, temps: Temps, vars: Vars, m: X.Machine)
    requires Holds(w, temps, vars, m)
    ensures Filled(w, temps, vars, m)
  {
  }

  lemma NoneLoaded(abi: Abi, vs: seq<Word>, m: X.Machine)
    requires |vs| <= |abi.regs|
    ensures Loaded(abi, vs, 0, m)
  {
  }

  function XoredEax(m: X.Machine): X.Machine {
    m.Set(X.RAX, 0).Flags(true, false, false)
  }

  lemma XorDoes(abi: Abi, vs: seq<Word>, m: X.Machine)
    requires Supported(abi) && |vs| <= |abi.regs| && Loaded(abi, vs, |vs|, m)
    ensures X.AllStraight([X.XorEax]) && X.DoAll([X.XorEax], m) == X.Go(XoredEax(m))
    ensures SameStack(m, XoredEax(m)) && Passes(abi, vs, XoredEax(m))
  {
    DoOne(X.XorEax, m);
    AbiRegs(abi);
    hide X.DoAll, Supported;
    forall i | 0 <= i < |vs|
      ensures XoredEax(m).Get(abi.regs[i]) == vs[i]
    {
      assert m.Get(abi.regs[i]) == vs[i];
    }
  }

  lemma CallTouch(w: World, k: nat)
    requires k < |w.f.code| && w.f.code[k].Call? && |w.f.code[k].args| <= |w.abi.regs|
    ensures SlotsAt(w.abi, w.f, k + 1)
      == TouchTemp(TouchOperands(SlotsAt(w.abi, w.f, k), w.f.code[k].args), w.f.code[k].dest)
  {
    OperandSlots(w, k);
    hide SlotsAt, TouchTemp, TouchOperands, Keeps, FuncSlots;
  }

  /** After a call, its operands and its destination have slots. */
  lemma CallSlots(a: Slots, args: seq<Operand>, t: nat)
    ensures var b := TouchTemp(TouchOperands(a, args), t);
      t in b.tmps && forall o <- args :: o.Tmp? ==> o.t in b.tmps
  {
    OperandsOnward(a, args);
    TempOnward(TouchOperands(a, args), t);
    hide TouchOperands, Laid, Spare, TouchTemp;
  }

  lemma CallArgs(w: World, k: nat, temps: Temps)
    requires k < |w.f.code| && w.f.code[k].Call? && |w.f.code[k].args| <= |w.abi.regs|
    requires ReadArgs(w.f.code[k].args, temps).Some?
    ensures Readable(w.f.code[k].args, ReadArgs(w.f.code[k].args, temps).value, SlotsAt(w.abi, w.f, k + 1), temps)
    ensures w.f.code[k].dest in SlotsAt(w.abi, w.f, k + 1).tmps
  {
    var i := w.f.code[k];
    CallTouch(w, k);
    CallSlots(SlotsAt(w.abi, w.f, k), i.args, i.dest);
    ReadArgsAt(i.args, temps);
    hide SlotsAt, TouchOperands, TouchTemp, ReadArgs, Read;
    forall j | 0 <= j < |i.args|
      ensures i.args[j].Tmp? ==> i.args[j].t in SlotsAt(w.abi, w.f, k + 1).tmps
    {
      assert i.args[j] in i.args;
    }
  }

  /** The return address pushed. */
  function Pushed(m: X.Machine, a: int): X.Machine {
    m.(rsp := m.rsp - 8, mem := m.mem[m.rsp - 8 := a])
  }

  lemma PushedFacts(abi: Abi, vs: seq<Word>, m: X.Machine, a: int)
    requires Passes(abi, vs, m) && m.rsp % 16 == 0
    ensures Passes(abi, vs, Pushed(m, a)) && Pushed(m, a).rsp % 16 == 8
    ensures Pushed(m, a).rbp == m.rbp && Pushed(m, a).rsp + 8 == m.rsp && SameAbove(m.rsp, m, Pushed(m, a))
  {
  }

  /** Only what lies below the frame changed. */
  lemma FilledBelow(w: World, temps: Temps, vars: Vars, m: X.Machine, m': X.Machine)
    requires Supported(w.abi) && Filled(w, temps, vars, m)
    requires m'.rbp == m.rbp && SameAbove(w.Base() - w.Frame(), m, m')
    ensures Filled(w, temps, vars, m')
  {
    SlotFacts(w);
    hide FuncSlots, FrameSize, Laid, X.Machine.Cell, Supported;
  }

  lemma SameAboveHigher(a: int, b: int, m: X.Machine, m': X.Machine)
    requires SameAbove(a, m, m') && a <= b
    ensures SameAbove(b, m, m')
  {
  }

  /** The step of the machine at a call. */
  lemma StepCall(asm: X.Asm, ra: int, G: X.Callees, p: nat, m: X.Machine)
    requires p < |asm| && asm[p].CallTo?
    ensures var q := G(asm[p].f, Pushed(m, p + 1));
      X.Step(asm, ra, G, X.At(p, m)) == if q.Back? then X.At(p + 1, q.m) else if q.Trap? then X.Trap else X.Lost
  {
    hide X.Goto, X.Do;
  }

  /** The step of the IR at a call. */
  lemma CallSteps(w: World, k: nat, temps: Temps, vars: Vars)
    requires k < |w.f.code| && w.f.code[k].Call?
    requires !Step(w.f.code, w.F, Run(k, temps, vars)).Stuck?
    ensures ReadArgs(w.f.code[k].args, temps).Some?
    ensures var r := w.F(w.f.code[k].func, ReadArgs(w.f.code[k].args, temps).value);
      && !r.Unknown?
      && Step(w.f.code, w.F, Run(k, temps, vars)) ==
         if r.Returns? then Run(k + 1, temps[w.f.code[k].dest := r.value], vars) else State.Trap(r.why)
  {
    hide ReadArgs;
    if ReadArgs(w.f.code[k].args, temps).None? {
      StuckArgs(w.f.code[k].args, temps);
    }
  }

  lemma {:induction false} StuckArgs(args: seq<Operand>, temps: Temps)
    ensures FirstUndefined(args, temps).Stuck?
    decreases |args|
  {
    if args != [] {
      StuckArgs(args[1..], temps);
    }
  }

  lemma CallPiece(w: World, k: nat)
    requires k < |w.f.code| && w.f.code[k].Call? && |w.f.code[k].args| <= |w.abi.regs|
    ensures var i := w.f.code[k];
      var b := SlotsAt(w.abi, w.f, k + 1);
      Piece(w.abi, w.f, k) == BeforeCall(w.abi) + PassArgs(w.abi, b, i.args, 0) + [X.XorEax]
        + ([X.CallTo(i.func)] + (AfterCall(w.abi, w.Frame()) + StoreDest(b, i.dest)))
  {
    hide SlotsAt, PassArgs, FrameSize, BeforeCall, AfterCall, StoreDest, LoadArg;
  }

  /** Where the parts of a call sit. */
  lemma CallSits(w: World, k: nat, pre: X.Asm, j: X.Inst, post: X.Asm)
    requires k < |w.f.code| && Piece(w.abi, w.f, k) == pre + ([j] + post)
    ensures var p := Pos(w.abi, w.f, k);
      && X.Sits(w.Asm(), p, pre)
      && p + |pre| < |w.Asm()| && w.Asm()[p + |pre|] == j
      && X.Sits(w.Asm(), p + |pre| + 1, post)
      && p + |pre| + 1 + |post| == Pos(w.abi, w.f, k + 1)
  {
    hide Piece, Pos, FuncCode;
    var p := Pos(w.abi, w.f, k);
    PieceSits(w.abi, w.f, k);
    PosNext(w.abi, w.f, k);
    X.SitsSplit(w.Asm(), p, pre, [j] + post);
    X.SitsSplit(w.Asm(), p + |pre|, [j], post);
    assert w.Asm()[p + |pre|] == w.Asm()[p + |pre|..p + |pre| + 1][0];
  }

  /** After the call: the stack pointer goes back to the end of the frame, and the result to its slot. */
  lemma AfterReturn(w: World, k: nat, temps: Temps, vars: Vars, m: X.Machine, v: Word) returns (m': X.Machine)
    requires Supported(w.abi) && k < |w.f.code| && w.f.code[k].Call? && |w.f.code[k].args| <= |w.abi.regs|
    requires ReadArgs(w.f.code[k].args, temps).Some?
    requires Filled(w, temps, vars, m) && m.Get(X.RAX) == v
    ensures var xs := AfterCall(w.abi, w.Frame()) + StoreDest(SlotsAt(w.abi, w.f, k + 1), w.f.code[k].dest);
      X.AllStraight(xs) && X.DoAll(xs, m) == X.Go(m')
    ensures Holds(w, temps[w.f.code[k].dest := v], vars, m')
  {
    hide *;
    var b, t := SlotsAt(w.abi, w.f, k + 1), w.f.code[k].dest;
    var m1 := m.(rsp := m.rbp - w.Frame());
    AfterDoes(w.abi, w.Frame(), m);
    Lifted(w, temps, vars, m);
    OperandSlots(w, k);
    CallArgs(w, k, temps);
    StoreDoes(w, b, temps, vars, m1, t);
    Then(AfterCall(w.abi, w.Frame()), StoreDest(b, t), m, m1);
    m' := X.DoAll(StoreDest(b, t), m1).m;
  }

  lemma Lifted(w: World, temps: Temps, vars: Vars, m: X.Machine)
    requires Filled(w, temps, vars, m)
    ensures var m1 := m.(rsp := m.rbp - w.Frame()); Holds(w, temps, vars, m1) && m1.Get(X.RAX) == m.Get(X.RAX)
  {
    var m1 := m.(rsp := m.rbp - w.Frame());
    forall a: int
      ensures m1.Cell(a) == m.Cell(a)
    {
    }
  }

  lemma CallAnswer(w: World, f: string, vs: seq<Word>, m: X.Machine)
    requires AllAnswered(w.abi, w.F, w.G) && Passes(w.abi, vs, m) && m.rsp % 16 == 8
    ensures Conforms(w.abi, w.F(f, vs), m, w.G(f, m))
  {
    assert Answered(w.abi, w.F, w.G, f, vs, m);
    hide Conforms, Passes;
  }

  /** What the caller gets back from a call that returns. */
  lemma Returned(w: World, temps: Temps, vars: Vars, m: X.Machine, a: int, r: CallResult, q: X.State)
    requires Supported(w.abi) && Filled(w, temps, vars, m) && m.rsp == w.Base() - w.Frame() - w.abi.shadow
    requires r.Returns? && Conforms(w.abi, r, Pushed(m, a), q)
    ensures q.Back? && q.m.Get(X.RAX) == r.value && Filled(w, temps, vars, q.m)
  {
    hide Filled, Supported, FrameSize, SameAbove, X.Machine.Get;
    var lo := w.Base() - w.Frame();
    PushedAbove(m, a);
    SameAboveHigher(m.rsp, lo, m, Pushed(m, a));
    SameAboveTrans(lo, m, Pushed(m, a), q.m);
    FilledBelow(w, temps, vars, m, q.m);
  }

  lemma PushedAbove(m: X.Machine, a: int)
    ensures SameAbove(m.rsp, m, Pushed(m, a))
  {
  }

  lemma TrapMatches(w: World, y: Failure)
    ensures Matches(w, State.Trap(y), X.Trap)
  {
  }

  lemma SmallCall(abi: Abi, F: CallEnv, f: string, args: seq<Word>)
    requires SmallCalls(abi, F) && !F(f, args).Unknown?
    ensures |args| <= |abi.regs|
  {
  }

  lemma CallGets(w: World, k: nat, temps: Temps, vars: Vars, m: X.Machine)
    requires Supported(w.abi) && AllAnswered(w.abi, w.F, w.G) && SmallCalls(w.abi, w.F) && w.Base() % 16 == 0
    requires k < |w.f.code| && w.f.code[k].Call? && Holds(w, temps, vars, m)
    requires !Step(w.f.code, w.F, Run(k, temps, vars)).Stuck?
    ensures Gets(w, X.At(Pos(w.abi, w.f, k), m), Step(w.f.code, w.F, Run(k, temps, vars)))
  {
    hide *;
    var i, b := w.f.code[k], SlotsAt(w.abi, w.f, k + 1);
    var s' := Step(w.f.code, w.F, Run(k, temps, vars));
    CallSteps(w, k, temps, vars);
    var vs := ReadArgs(i.args, temps).value;
    var r := w.F(i.func, vs);
    SmallCall(w.abi, w.F, i.func, vs);
    var pre := BeforeCall(w.abi) + PassArgs(w.abi, b, i.args, 0) + [X.XorEax];
    var post := AfterCall(w.abi, w.Frame()) + StoreDest(b, i.dest);
    var p := Pos(w.abi, w.f, k);
    var pc := p + |pre|;
    CallPiece(w, k);
    CallSits(w, k, pre, X.CallTo(i.func), post);
    var m1 := CallReady(w, k, temps, vars, m);
    X.RunsStraight(w.Asm(), w.Ra(), w.G, p, pre, m);
    PushedFacts(w.abi, vs, m1, pc + 1);
    CallAnswer(w, i.func, vs, Pushed(m1, pc + 1));
    StepCall(w.Asm(), w.Ra(), w.G, pc, m1);
    var q := w.G(i.func, Pushed(m1, pc + 1));
    if r.Returns? {
      Returned(w, temps, vars, m1, pc + 1, r, q);
      var m2 := AfterReturn(w, k, temps, vars, q.m, r.value);
      X.RunsStraight(w.Asm(), w.Ra(), w.G, pc + 1, post, q.m);
      RunMatches(w, k + 1, temps[i.dest := r.value], vars, m2);
      GetsNow(w, X.At(pc + 1 + |post|, m2), s');
      GetsVia(w, X.At(pc + 1, q.m), X.At(pc + 1 + |post|, m2), s');
    } else {
      Faulted(w, r, Pushed(m1, pc + 1), q);
      TrapMatches(w, r.why);
      GetsNow(w, X.Trap, s');
    }
    GetsStep(w, X.At(pc, m1), s');
    GetsVia(w, X.At(p, m), X.At(pc, m1), s');
  }

  lemma Faulted(w: World, r: CallResult, m: X.Machine, q: X.State)
    requires r.Faults? && Conforms(w.abi, r, m, q)
    ensures q.Trap?
  {
  }

  // ----- runs -----

  predicate Plain(i: Instr) {
    i.Const? || i.Alloca? || i.Load? || i.Store? || i.Bin? || i.Un? || i.Select?
  }

  lemma PlainDoes(w: World, k: nat, temps: Temps, vars: Vars, m: X.Machine)
    requires Supported(w.abi) && KnownLoads(w.abi, w.f)
    requires k < |w.f.code| && Plain(w.f.code[k]) && Holds(w, temps, vars, m)
    requires !Step(w.f.code, w.F, Run(k, temps, vars)).Stuck?
    ensures Does(w, Run(k, temps, vars), Piece(w.abi, w.f, k), m, Step(w.f.code, w.F, Run(k, temps, vars)))
  {
    hide Holds, Does, Supported, KnownLoads, Piece, Step;
    match w.f.code[k]
    case Const(_, _) => ConstDoes(w, k, temps, vars, m);
    case Alloca(_) => AllocaDoes(w, k, temps, vars, m);
    case Load(_, _) => LoadInstrDoes(w, k, temps, vars, m);
    case Store(_, _) => StoreInstrDoes(w, k, temps, vars, m);
    case Bin(_, _, _, _) => BinDoes(w, k, temps, vars, m);
    case Un(_, _, _) => UnDoes(w, k, temps, vars, m);
    case Select(_, _, _, _) => SelectDoes(w, k, temps, vars, m);
  }

  lemma PlainSteps(w: World, k: nat, temps: Temps, vars: Vars)
    requires k < |w.f.code| && Plain(w.f.code[k])
    ensures var s' := Step(w.f.code, w.F, Run(k, temps, vars)); s'.Stuck? || s'.Trap? || (s'.Run? && s'.pc == k + 1)
  {
    hide Binary, Unary;
  }

  /** What matching a running state says. */
  lemma MatchesRun(w: World, s: State, q: X.State)
    requires s.Run? && Matches(w, s, q)
    ensures s.pc <= |w.f.code| && q.At? && q.pc == Pos(w.abi, w.f, s.pc) && Holds(w, s.temps, s.vars, q.m)
  {
    hide Holds, Pos;
  }

  lemma InCode(w: World, s: State)
    requires s.Run? && !Step(w.f.code, w.F, s).Stuck?
    ensures s.pc < |w.f.code|
  {
    hide Execute;
  }

  lemma FairFacts(w: World)
    requires Fair(w)
    ensures Supported(w.abi) && KnownLoads(w.abi, w.f) && SmallCalls(w.abi, w.F) && AllAnswered(w.abi, w.F, w.G)
    ensures w.Base() % 16 == 0
  {
    hide Supported, KnownLoads, SmallCalls, AllAnswered;
  }

  /** One step of the IR is some steps of the machine, and what the slots, the stack pointer and the caller's stack
      hold still matches. */
  lemma StepGets(w: World, s: State, q: X.State)
    requires Fair(w) && s.Run? && Matches(w, s, q) && !Step(w.f.code, w.F, s).Stuck?
    ensures Gets(w, q, Step(w.f.code, w.F, s))
  {
    hide *;
    MatchesRun(w, s, q);
    var k, temps, vars, m := s.pc, s.temps, s.vars, q.m;
    InCode(w, s);
    FairFacts(w);
    match w.f.code[k]
    case Label(_) =>
      LabelSteps(w, k, temps, vars);
      LabelGets(w, k, temps, vars, m);
    case Jmp(_) => JmpGets(w, k, temps, vars, m);
    case Jz(_, _) => BranchGets(w, k, temps, vars, m);
    case Jnz(_, _) => BranchGets(w, k, temps, vars, m);
    case Call(_, _, _) => CallGets(w, k, temps, vars, m);
    case Ret(_) => RetGets(w, k, temps, vars, m);
    case i =>
      PlainIs(i);
      PlainSteps(w, k, temps, vars);
      PlainDoes(w, k, temps, vars, m);
      StraightGets(w, k, temps, vars, m, Step(w.f.code, w.F, s));
  }

  lemma PlainIs(i: Instr)
    requires !i.Label? && !i.Jmp? && !i.Jz? && !i.Jnz? && !i.Call? && !i.Ret?
    ensures Plain(i)
  {
  }

  lemma LabelSteps(w: World, k: nat, temps: Temps, vars: Vars)
    requires k < |w.f.code| && w.f.code[k].Label?
    ensures Step(w.f.code, w.F, Run(k, temps, vars)) == Run(k + 1, temps, vars)
  {
  }

  lemma AllocaDoes(w: World, k: nat, temps: Temps, vars: Vars, m: X.Machine)
    requires k < |w.f.code| && w.f.code[k].Alloca? && Holds(w, temps, vars, m)
    ensures Does(w, Run(k, temps, vars), Piece(w.abi, w.f, k), m, Step(w.f.code, w.F, Run(k, temps, vars)))
  {
    NoCode(m);
    assert Piece(w.abi, w.f, k) == [];
    hide Holds, X.DoAll, Piece;
  }

  /** Forward simulation: as long as the IR run is not stuck, the machine keeps up with it. */
  lemma GetsWitness(w: World, q: X.State, s: State) returns (q': X.State)
    requires Gets(w, q, s)
    ensures X.Reaches(w.Asm(), w.Ra(), w.G, q, q') && Matches(w, s, q')
  {
    hide Matches, X.Reaches, FuncCode;
    q' :| X.Reaches(w.Asm(), w.Ra(), w.G, q, q') && Matches(w, s, q');
  }

  lemma {:induction false} RunGets(w: World, s: State, q: X.State, n: nat)
    requires Fair(w) && Matches(w, s, q) && !Steps(w.f.code, w.F, s, n).Stuck?
    ensures Gets(w, q, Steps(w.f.code, w.F, s, n))
    decreases n
  {
    hide Matches, Fair, Step, X.Reaches, FuncCode, Gets;
    if n == 0 {
      GetsNow(w, q, s);
    } else if !s.Run? {
      StepsStay(w.f.code, w.F, s, n);
      GetsNow(w, q, s);
    } else {
      var s1 := Step(w.f.code, w.F, s);
      if s1.Stuck? {
        StepsStay(w.f.code, w.F, s1, n - 1);
      }
      StepGets(w, s, q);
      var q1 := GetsWitness(w, q, s1);
      RunGets(w, s1, q1, n - 1);
      GetsVia(w, q, q1, Steps(w.f.code, w.F, s, n));
    }
  }
}
