/** The x86-64 instructions the backend emits, over a small machine: seven general registers, `rbp`, `rsp`, three
    flags and a memory of 64-bit cells. Stack addresses are unbounded integers: the stack does not wrap around. */
module X86 {
  import opened Words
  import opened Wrappers

  datatype Reg = RAX | RCX | RDX | RDI | RSI | R8 | R9

  datatype Cond = E | NE | L | G | LE | GE

  datatype AluOp = AddOp | SubOp | ImulOp | AndOp | OrOp | XorOp

  datatype Inst =
    | MovImm(r: Reg, k: Word)
    | LoadSlot(r: Reg, off: nat)        // mov r, qword [rbp-off]
    | StoreSlot(off: nat, r: Reg)       // mov qword [rbp-off], r
    | MovReg(d: Reg, s: Reg)
    | Alu(op: AluOp, d: Reg, s: Reg)
    | NegReg(d: Reg)
    | NotReg(d: Reg)
    | ShlCl(d: Reg)
    | SarCl(d: Reg)
    | Cqo
    | Idiv(s: Reg)
    | Cmp(a: Reg, b: Reg)
    | Test(a: Reg)                      // test a, a
    | SetAl(c: Cond)
    | MovzxAl                           // movzx rax, al
    | Cmovz(d: Reg, s: Reg)
    | XorEax
    | Mark(lbl: nat)
    | JmpTo(lbl: nat)
    | JzTo(lbl: nat)
    | JnzTo(lbl: nat)
    | PushRbp
    | MovRbpRsp
    | SubRsp(n: nat)
    | AddRsp(n: nat)
    | AndRsp16                          // and rsp, -16
    | LeaRsp(n: nat)                    // lea rsp, [rbp-n]
    | CallTo(f: string)
    | Leave
    | RetNear

  type Asm = seq<Inst>

  datatype Machine = Machine(regs: map<Reg, Word>, rbp: int, rsp: int, zf: bool, sf: bool, ovf: bool,
                             mem: map<int, int>) {
    function Get(r: Reg): Word {
      if r in regs then regs[r] else 0
    }

    function Set(r: Reg, v: Word): Machine {
      this.(regs := regs[r := v])
    }

    function Cell(a: int): int {
      if a in mem then mem[a] else 0
    }

    function Write(a: int, v: int): Machine {
      this.(mem := mem[a := v])
    }

    function Flags(z: bool, s: bool, o: bool): Machine {
      this.(zf := z, sf := s, ovf := o)
    }

    predicate Holds(c: Cond) {
      match c
      case E => zf
      case NE => !zf
      case L => sf != ovf
      case G => !zf && sf == ovf
      case LE => zf || sf != ovf
      case GE => sf == ovf
    }
  }

  predicate Fits(x: int) {
    -TWO_63 <= x < TWO_63
  }

  function AluExact(op: AluOp, a: Word, b: Word): int {
    match op
    case AddOp => a + b
    case SubOp => a - b
    case ImulOp => a * b
    case AndOp => Bitwise(AndBits, a, b)
    case OrOp => Bitwise(OrBits, a, b)
    case XorOp => Bitwise(XorBits, a, b)
  }

  /** The low byte of a register. */
  function LowByte(v: Word): nat {
    Unsigned(v) % 256
  }

  /** The shift count in `cl`: the processor uses its low six bits. */
  function Count(m: Machine): nat {
    LowByte(m.Get(RCX)) % 64
  }

  datatype Out = Go(m: Machine) | Fault

  /** An instruction that goes on to the next one. */
  predicate Straight(i: Inst) {
    !(i.Mark? || i.JmpTo? || i.JzTo? || i.JnzTo? || i.CallTo? || i.RetNear?)
  }

  function Do(i: Inst, m: Machine): Out
    requires Straight(i)
  {
    match i
    case MovImm(r, k) => Go(m.Set(r, k))
    case LoadSlot(r, off) => Go(m.Set(r, Wrap(m.Cell(m.rbp - off))))
    case StoreSlot(off, r) => Go(m.Write(m.rbp - off, m.Get(r)))
    case MovReg(d, s) => Go(m.Set(d, m.Get(s)))
    case Alu(op, d, s) =>
      var x := AluExact(op, m.Get(d), m.Get(s));
      Go(m.Set(d, Wrap(x)).Flags(Wrap(x) == 0, Wrap(x) < 0, !Fits(x)))
    case NegReg(d) =>
      var x := 0 - m.Get(d);
      Go(m.Set(d, Wrap(x)).Flags(Wrap(x) == 0, Wrap(x) < 0, !Fits(x)))
    case NotReg(d) => Go(m.Set(d, -1 - m.Get(d)))
    case ShlCl(d) => Go(m.Set(d, Wrap(m.Get(d) * Pow2(Count(m)))))
    case SarCl(d) => Go(m.Set(d, Wrap(m.Get(d) / Pow2(Count(m)))))
    case Cqo => Go(m.Set(RDX, if m.Get(RAX) < 0 then -1 else 0))
    case Idiv(s) =>
      var dividend := m.Get(RDX) * TWO_64 + Unsigned(m.Get(RAX));
      var b := m.Get(s);
      if b == 0 || !Fits(TruncDiv(dividend, b)) then Fault
      else Go(m.Set(RAX, TruncDiv(dividend, b)).Set(RDX, Wrap(TruncMod(dividend, b))))
    case Cmp(a, b) =>
      var x := m.Get(a) - m.Get(b);
      Go(m.Flags(Wrap(x) == 0, Wrap(x) < 0, !Fits(x)))
    case Test(a) => Go(m.Flags(m.Get(a) == 0, m.Get(a) < 0, false))
    case SetAl(c) => Go(m.Set(RAX, Wrap(m.Get(RAX) - LowByte(m.Get(RAX)) + BoolWord(m.Holds(c)))))
    case MovzxAl => Go(m.Set(RAX, LowByte(m.Get(RAX))))
    case Cmovz(d, s) => Go(if m.zf then m.Set(d, m.Get(s)) else m)
    case XorEax => Go(m.Set(RAX, 0).Flags(true, false, false))
    case PushRbp => Go(m.(rsp := m.rsp - 8, mem := m.mem[m.rsp - 8 := m.rbp]))
    case MovRbpRsp => Go(m.(rbp := m.rsp))
    case SubRsp(n) => Go(m.(rsp := m.rsp - n))
    case AddRsp(n) => Go(m.(rsp := m.rsp + n))
    case AndRsp16 => Go(m.(rsp := m.rsp - m.rsp % 16))
    case LeaRsp(n) => Go(m.(rsp := m.rbp - n))
    case Leave => Go(m.(rsp := m.rbp + 8, rbp := m.Cell(m.rbp)))
  }

  // ----- runs -----

  /** A running machine; a machine after `ret` to the right address; a divide error; anything else. */
  datatype State = At(pc: nat, m: Machine) | Back(m: Machine) | Trap | Lost

  /** What a call of `f` gives, on a machine whose return address is on top of the stack. */
  type Callees = (string, Machine) -> State

  function FindMark(asm: Asm, l: nat): (r: Option<nat>)
    ensures r.Some? ==> r.value < |asm| && asm[r.value] == Mark(l)
    ensures r.Some? ==> forall i | 0 <= i < r.value :: asm[i] != Mark(l)
    ensures r.None? ==> forall i | 0 <= i < |asm| :: asm[i] != Mark(l)
  {
    MarkFrom(asm, l, 0)
  }

  function MarkFrom(asm: Asm, l: nat, i: nat): (r: Option<nat>)
    requires i <= |asm|
    ensures r.Some? ==> i <= r.value < |asm| && asm[r.value] == Mark(l)
    ensures r.Some? ==> forall j | i <= j < r.value :: asm[j] != Mark(l)
    ensures r.None? ==> forall j | i <= j < |asm| :: asm[j] != Mark(l)
    decreases |asm| - i
  {
    if i == |asm| then None else if asm[i] == Mark(l) then Some(i) else MarkFrom(asm, l, i + 1)
  }

  function Goto(asm: Asm, l: nat, m: Machine): State {
    var p := FindMark(asm, l);
    if p.Some? then At(p.value, m) else Lost
  }

  /** One instruction of a function whose return address is `ra`. A call pushes the address of the next instruction. */
  function Step(asm: Asm, ra: int, F: Callees, s: State): State {
    if !s.At? then s
    else if s.pc >= |asm| then Lost
    else
      var m := s.m;
      match asm[s.pc]
      case Mark(_) => At(s.pc + 1, m)
      case JmpTo(l) => Goto(asm, l, m)
      case JzTo(l) => if m.zf then Goto(asm, l, m) else At(s.pc + 1, m)
      case JnzTo(l) => if m.zf then At(s.pc + 1, m) else Goto(asm, l, m)
      case CallTo(f) => (
        match F(f, m.(rsp := m.rsp - 8, mem := m.mem[m.rsp - 8 := s.pc + 1]))
        case Back(m') => At(s.pc + 1, m')
        case Trap => Trap
        case _ => Lost
      )
      case RetNear => if m.Cell(m.rsp) == ra then Back(m.(rsp := m.rsp + 8)) else Lost
      case i => (
        match Do(i, m)
        case Go(m') => At(s.pc + 1, m')
        case Fault => Trap
      )
  }

  function Steps(asm: Asm, ra: int, F: Callees, s: State, n: nat): State
    decreases n
  {
    if n == 0 then s else Steps(asm, ra, F, Step(asm, ra, F, s), n - 1)
  }

  ghost predicate Reaches(asm: Asm, ra: int, F: Callees, s: State, s': State) {
    exists n: nat :: Steps(asm, ra, F, s, n) == s'
  }

  lemma {:induction false} StepsAdd(asm: Asm, ra: int, F: Callees, s: State, m: nat, n: nat)
    ensures Steps(asm, ra, F, s, m + n) == Steps(asm, ra, F, Steps(asm, ra, F, s, m), n)
    decreases m
  {
    if m > 0 {
      StepsAdd(asm, ra, F, Step(asm, ra, F, s), m - 1, n);
    }
  }

  lemma {:induction false} StepsStay(asm: Asm, ra: int, F: Callees, s: State, n: nat)
    requires !s.At?
    ensures Steps(asm, ra, F, s, n) == s
    decreases n
  {
    if n > 0 {
      StepsStay(asm, ra, F, s, n - 1);
    }
  }

  lemma ReachesRefl(asm: Asm, ra: int, F: Callees, s: State)
    ensures Reaches(asm, ra, F, s, s)
  {
    assert Steps(asm, ra, F, s, 0) == s;
  }

  lemma ReachesStep(asm: Asm, ra: int, F: Callees, s: State)
    ensures Reaches(asm, ra, F, s, Step(asm, ra, F, s))
  {
    assert Steps(asm, ra, F, s, 1) == Steps(asm, ra, F, Step(asm, ra, F, s), 0);
  }

  lemma ReachesTrans(asm: Asm, ra: int, F: Callees, s0: State, s1: State, s2: State)
    requires Reaches(asm, ra, F, s0, s1) && Reaches(asm, ra, F, s1, s2)
    ensures Reaches(asm, ra, F, s0, s2)
  {
    var m: nat :| Steps(asm, ra, F, s0, m) == s1;
    var n: nat :| Steps(asm, ra, F, s1, n) == s2;
    StepsAdd(asm, ra, F, s0, m, n);
  }

  /** A run ends in at most one way. */
  lemma OneEnd(asm: Asm, ra: int, F: Callees, s: State, a: State, b: State)
    requires Reaches(asm, ra, F, s, a) && Reaches(asm, ra, F, s, b) && !a.At? && !b.At?
    ensures a == b
  {
    var m: nat :| Steps(asm, ra, F, s, m) == a;
    var n: nat :| Steps(asm, ra, F, s, n) == b;
    if m <= n {
      StepsAdd(asm, ra, F, s, m, n - m);
      StepsStay(asm, ra, F, a, n - m);
    } else {
      StepsAdd(asm, ra, F, s, n, m - n);
      StepsStay(asm, ra, F, b, m - n);
    }
  }

  /** Calling a function: from its first instruction, with the return address on top of the stack. */
  ghost function RunAsm(asm: Asm, m: Machine, F: Callees): State {
    var ra := m.Cell(m.rsp);
    if exists s :: Reaches(asm, ra, F, At(0, m), s) && (s.Back? || s.Trap?) then
      var s :| Reaches(asm, ra, F, At(0, m), s) && (s.Back? || s.Trap?); s
    else Lost
  }

  // ----- straight pieces -----

  predicate AllStraight(xs: Asm) {
    forall i <- xs :: Straight(i)
  }

  function DoAll(xs: Asm, m: Machine): Out
    requires AllStraight(xs)
  {
    if xs == [] then Go(m) else
    var o := Do(xs[0], m);
    if o.Fault? then Fault else DoAll(xs[1..], o.m)
  }

  lemma {:induction false} DoAppend(xs: Asm, ys: Asm, m: Machine)
    requires AllStraight(xs) && AllStraight(ys)
    ensures AllStraight(xs + ys)
    ensures DoAll(xs + ys, m) == var o := DoAll(xs, m); if o.Fault? then Fault else DoAll(ys, o.m)
    decreases |xs|
  {
    if xs == [] {
      assert xs + ys == ys;
    } else {
      assert (xs + ys)[1..] == xs[1..] + ys;
      var o := Do(xs[0], m);
      if o.Go? {
        DoAppend(xs[1..], ys, o.m);
      }
    }
  }

  /** `xs` sits at position `p`. */
  predicate Sits(asm: Asm, p: nat, xs: Asm) {
    p + |xs| <= |asm| && asm[p..p + |xs|] == xs
  }

  lemma SitsSplit(asm: Asm, p: nat, xs: Asm, ys: Asm)
    requires Sits(asm, p, xs + ys)
    ensures Sits(asm, p, xs) && Sits(asm, p + |xs|, ys)
  {
    assert asm[p..p + |xs|] == (xs + ys)[..|xs|];
    assert asm[p + |xs|..p + |xs| + |ys|] == (xs + ys)[|xs|..];
  }

  lemma {:induction false} RunsStraight(asm: Asm, ra: int, F: Callees, p: nat, xs: Asm, m: Machine)
    requires Sits(asm, p, xs) && AllStraight(xs)
    ensures var o := DoAll(xs, m);
      Reaches(asm, ra, F, At(p, m), if o.Go? then At(p + |xs|, o.m) else Trap)
    decreases |xs|
  {
    if xs == [] {
      ReachesRefl(asm, ra, F, At(p, m));
    } else {
      assert asm[p] == asm[p..p + |xs|][0];
      assert Straight(xs[0]);
      var o := Do(xs[0], m);
      ReachesStep(asm, ra, F, At(p, m));
      if o.Go? {
        assert xs == [xs[0]] + xs[1..];
        SitsSplit(asm, p, [xs[0]], xs[1..]);
        RunsStraight(asm, ra, F, p + 1, xs[1..], o.m);
        var e := DoAll(xs[1..], o.m);
        ReachesTrans(asm, ra, F, At(p, m), At(p + 1, o.m), if e.Go? then At(p + |xs|, e.m) else Trap);
      }
    }
  }
}
