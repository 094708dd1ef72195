/** Instruction selection and stack slots: the specification of the `X86_64Backend` methods. Every name and every
    temporary gets a slot the first time it is touched, counting down from `rbp`. */
module Backend {
  import opened Words
  import opened Wrappers
  import opened IR
  import opened IRCheck
  import X = X86

  /** The number of slots handed out, and the offsets of the names and the temporaries. */
  datatype Slots = Slots(idx: nat, vars: map<Name, nat>, tmps: map<nat, nat>)

  /** The calling convention: the registers for the first arguments, and the space reserved above a call. */
  datatype Abi = Abi(regs: seq<X.Reg>, shadow: nat)

  const SYSTEM_V := Abi([X.RDI, X.RSI, X.RDX, X.RCX, X.R8, X.R9], 0)
  const WINDOWS := Abi([X.RCX, X.RDX, X.R8, X.R9], 32)

  // ----- slots -----

  /** `_alloc_local`: also when the name has a slot already. */
  function AllocLocal(a: Slots, x: Name): Slots {
    a.(idx := a.idx + 1, vars := a.vars[x := (a.idx + 1) * 8])
  }

  function TouchName(a: Slots, x: Name): Slots {
    if x in a.vars then a else AllocLocal(a, x)
  }

  /** `_get_tmp`. */
  function TouchTemp(a: Slots, t: nat): Slots {
    if t in a.tmps then a else a.(idx := a.idx + 1, tmps := a.tmps[t := (a.idx + 1) * 8])
  }

  function TouchOperand(a: Slots, o: Operand): Slots {
    if o.Tmp? then TouchTemp(a, o.t) else a
  }

  function TouchOperands(a: Slots, os: seq<Operand>): Slots
    decreases |os|
  {
    if os == [] then a else TouchOperands(TouchOperand(a, os[0]), os[1..])
  }

  /** The arguments that are passed: those beyond the registers are dropped. */
  function Passed(abi: Abi, args: seq<Operand>): seq<Operand> {
    if |args| <= |abi.regs| then args else args[..|abi.regs|]
  }

  /** The slots after an instruction. */
  function Touch(abi: Abi, a: Slots, i: Instr): Slots {
    match i
    case Const(t, _) => TouchTemp(a, t)
    case Alloca(x) => TouchName(a, x)
    case Load(t, _) => TouchTemp(a, t)
    case Store(o, x) => TouchName(TouchOperand(a, o), x)
    case Bin(_, t, l, r) => TouchTemp(TouchOperand(TouchOperand(a, l), r), t)
    case Un(_, t, o) => TouchTemp(TouchOperand(a, o), t)
    case Select(t, c, l, r) => TouchTemp(TouchOperand(TouchOperand(TouchOperand(a, c), l), r), t)
    case Label(_) => a
    case Jmp(_) => a
    case Jz(c, _) => TouchOperand(a, c)
    case Jnz(c, _) => TouchOperand(a, c)
    case Call(t, _, args) => TouchTemp(TouchOperands(a, Passed(abi, args)), t)
    case Ret(o) => TouchOperand(a, o)
  }

  function TempSlot(a: Slots, t: nat): nat {
    if t in a.tmps then a.tmps[t] else 0
  }

  function NameSlot(a: Slots, x: Name): nat {
    if x in a.vars then a.vars[x] else 0
  }

  // ----- instructions -----

  /** `_load_arg`. */
  function LoadArg(a: Slots, o: Operand, r: X.Reg): X.Asm {
    match o
    case Tmp(t) => [X.LoadSlot(r, TempSlot(a, t))]
    case Imm(k) => [X.MovImm(r, k)]
  }

  /** `_store_dest`. */
  function StoreDest(a: Slots, t: nat): X.Asm {
    [X.StoreSlot(TempSlot(a, t), X.RAX)]
  }

  function CondOf(op: BinOp): X.Cond
    requires Compares(op)
  {
    match op
    case CmpEq => X.E
    case CmpNe => X.NE
    case CmpLt => X.L
    case CmpGt => X.G
    case CmpLe => X.LE
    case CmpGe => X.GE
  }

  /** From `rax` and `rcx` to `rax`. */
  function BinCode(op: BinOp): X.Asm {
    match op
    case Add => [X.Alu(X.AddOp, X.RAX, X.RCX)]
    case Sub => [X.Alu(X.SubOp, X.RAX, X.RCX)]
    case Mul => [X.Alu(X.ImulOp, X.RAX, X.RCX)]
    case Div => [X.Cqo, X.Idiv(X.RCX)]
    case Mod => [X.Cqo, X.Idiv(X.RCX), X.MovReg(X.RAX, X.RDX)]
    case And => [X.Alu(X.AndOp, X.RAX, X.RCX)]
    case Or => [X.Alu(X.OrOp, X.RAX, X.RCX)]
    case Xor => [X.Alu(X.XorOp, X.RAX, X.RCX)]
    case Shl => [X.ShlCl(X.RAX)]
    case Shr => [X.SarCl(X.RAX)]
    case _ => [X.Cmp(X.RAX, X.RCX), X.SetAl(CondOf(op)), X.MovzxAl]
  }

  function UnCode(op: UnOp): X.Asm {
    match op
    case Neg => [X.NegReg(X.RAX)]
    case BNot => [X.NotReg(X.RAX)]
    case Not => [X.Test(X.RAX), X.SetAl(X.E), X.MovzxAl]
    case ZExt => [X.MovzxAl]
  }

  /** Each passed argument through `rax` into its register, from the `n`-th on. */
  function PassArgs(abi: Abi, a: Slots, args: seq<Operand>, n: nat): X.Asm
    requires n <= |args| <= |abi.regs|
    decreases |args| - n
  {
    if n == |args| then []
    else LoadArg(a, args[n], X.RAX) + [X.MovReg(abi.regs[n], X.RAX)] + PassArgs(abi, a, args, n + 1)
  }

  function BeforeCall(abi: Abi): X.Asm {
    [X.AndRsp16] + if abi.shadow > 0 then [X.SubRsp(abi.shadow)] else []
  }

  function AfterCall(abi: Abi, frame: nat): X.Asm {
    (if abi.shadow > 0 then [X.AddRsp(abi.shadow)] else []) + [X.LeaRsp(frame)]
  }

  /** `_emit_instr`: `a` are the slots before the instruction, and `b` those after it. A name that has no slot yet
      loads as 0. */
  function InstrCode(abi: Abi, frame: nat, a: Slots, b: Slots, i: Instr): X.Asm {
    match i
    case Const(t, v) => [X.MovImm(X.RAX, v)] + StoreDest(b, t)
    case Alloca(_) => []
    case Load(t, x) => [if x in a.vars then X.LoadSlot(X.RAX, a.vars[x]) else X.MovImm(X.RAX, 0)] + StoreDest(b, t)
    case Store(o, x) => LoadArg(b, o, X.RAX) + [X.StoreSlot(NameSlot(b, x), X.RAX)]
    case Bin(op, t, l, r) => LoadArg(b, l, X.RAX) + LoadArg(b, r, X.RCX) + BinCode(op) + StoreDest(b, t)
    case Un(op, t, o) => LoadArg(b, o, X.RAX) + UnCode(op) + StoreDest(b, t)
    case Select(t, c, l, r) =>
      LoadArg(b, c, X.RAX) + [X.Test(X.RAX)] + LoadArg(b, l, X.RCX) + LoadArg(b, r, X.RDX)
      + [X.Cmovz(X.RCX, X.RDX), X.MovReg(X.RAX, X.RCX)] + StoreDest(b, t)
    case Label(l) => [X.Mark(l)]
    case Jmp(l) => [X.JmpTo(l)]
    case Jz(c, l) => LoadArg(b, c, X.RAX) + [X.Test(X.RAX)] + [X.JzTo(l)]
    case Jnz(c, l) => LoadArg(b, c, X.RAX) + [X.Test(X.RAX)] + [X.JnzTo(l)]
    case Call(t, f, args) =>
      BeforeCall(abi) + PassArgs(abi, b, Passed(abi, args), 0) + [X.XorEax] + [X.CallTo(f)]
      + AfterCall(abi, frame) + StoreDest(b, t)
    case Ret(o) => LoadArg(b, o, X.RAX) + [X.Leave] + [X.RetNear]
  }

  /** The slots after a prefix of the code. */
  function SlotsAfter(abi: Abi, a: Slots, code: Code): Slots {
    if code == [] then a else Touch(abi, SlotsAfter(abi, a, code[..|code| - 1]), code[|code| - 1])
  }

  function CodeOf(abi: Abi, frame: nat, a: Slots, code: Code): X.Asm {
    if code == [] then []
    else
      var before := SlotsAfter(abi, a, code[..|code| - 1]);
      CodeOf(abi, frame, a, code[..|code| - 1])
      + InstrCode(abi, frame, before, Touch(abi, before, code[|code| - 1]), code[|code| - 1])
  }

  // ----- functions -----

  /** The parameters that arrive in registers. */
  function Bound(abi: Abi, params: seq<string>): seq<string> {
    if |params| <= |abi.regs| then params else params[..|abi.regs|]
  }

  function ParamSlots(ps: seq<string>): Slots {
    if ps == [] then Slots(0, map[], map[])
    else AllocLocal(ParamSlots(ps[..|ps| - 1]), Local(ps[|ps| - 1]))
  }

  /** Each parameter's register goes to its slot. */
  function ParamCode(abi: Abi, ps: seq<string>): X.Asm
    requires |ps| <= |abi.regs|
  {
    if ps == [] then []
    else ParamCode(abi, ps[..|ps| - 1]) + [X.StoreSlot(|ps| * 8, abi.regs[|ps| - 1])]
  }

  function NamesOf(i: Instr): set<Name> {
    match i
    case Alloca(x) => {x}
    case Store(_, x) => {x}
    case _ => {}
  }

  function TempsOf(i: Instr): set<nat> {
    Reads(i) + if Dest(i).Some? then {Dest(i).value} else {}
  }

  function NamesIn(code: Code): set<Name> {
    if code == [] then {} else NamesIn(code[..|code| - 1]) + NamesOf(code[|code| - 1])
  }

  function TempsIn(code: Code): set<nat> {
    if code == [] then {} else TempsIn(code[..|code| - 1]) + TempsOf(code[|code| - 1])
  }

  /** `_count_slots`: the distinct names and temporaries, and eight more. */
  function CountSlots(f: IRFunc): nat {
    |(set p <- f.params :: Local(p)) + NamesIn(f.code)| + |TempsIn(f.code)| + 8
  }

  /** The frame size: the slots, rounded up to 16 bytes. */
  function FrameSize(f: IRFunc): nat {
    (CountSlots(f) * 8 + 15) / 16 * 16
  }

  function Prologue(abi: Abi, f: IRFunc): X.Asm {
    [X.PushRbp, X.MovRbpRsp, X.SubRsp(FrameSize(f))] + ParamCode(abi, Bound(abi, f.params))
  }

  function FuncCode(abi: Abi, f: IRFunc): X.Asm {
    Prologue(abi, f) + CodeOf(abi, FrameSize(f), ParamSlots(Bound(abi, f.params)), f.code)
  }

  function FuncSlots(abi: Abi, f: IRFunc): Slots {
    SlotsAfter(abi, ParamSlots(Bound(abi, f.params)), f.code)
  }
}
