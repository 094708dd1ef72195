/** The backend as the program has it: an object that hands out slots and writes instructions as it goes. Every method
    is proved against the specification in `Backend`. */
module X86Backend {
  import opened Words
  import opened Wrappers
  import opened IR
  import opened IRCheck
  import B = Backend
  import opened Backend
  import opened BackendSlots
  import X = X86

  class X86_64Backend {
    const abi: Abi
    var out: X.Asm
    var varMap: map<Name, nat>
    var tmpMap: map<nat, nat>
    var localIdx: nat
    var frameSz: nat

    constructor (abi: Abi)
      ensures this.abi == abi && out == []
    {
      this.abi := abi;
      out := [];
      varMap, tmpMap, localIdx, frameSz := map[], map[], 0, 0;
    }

    /** The slots handed out so far. */
    ghost function State(): Slots
      reads this
    {
      Slots(localIdx, varMap, tmpMap)
    }

    method Write(i: X.Inst)
      modifies this`out
      ensures out == old(out) + [i]
    {
      out := out + [i];
    }

    method AllocLocal(x: Name) returns (off: nat)
      modifies this`localIdx, this`varMap
      ensures State() == B.AllocLocal(old(State()), x) && off == localIdx * 8
    {
      localIdx := localIdx + 1;
      off := localIdx * 8;
      varMap := varMap[x := off];
    }

    method AllocTmp(t: nat) returns (off: nat)
      requires t !in tmpMap
      modifies this`localIdx, this`tmpMap
      ensures State() == TouchTemp(old(State()), t) && off == TempSlot(State(), t)
    {
      localIdx := localIdx + 1;
      off := localIdx * 8;
      tmpMap := tmpMap[t := off];
    }

    method GetTmp(t: nat) returns (off: nat)
      modifies this`localIdx, this`tmpMap
      ensures State() == TouchTemp(old(State()), t) && off == TempSlot(State(), t)
    {
      if t !in tmpMap {
        var _ := AllocTmp(t);
      }
      off := tmpMap[t];
    }

    method LoadArg(o: Operand, r: X.Reg)
      modifies this`localIdx, this`tmpMap, this`out
      ensures State() == TouchOperand(old(State()), o) && out == old(out) + B.LoadArg(State(), o, r)
    {
      match o
      case Tmp(t) =>
        var off := GetTmp(t);
        Write(X.LoadSlot(r, off));
      case Imm(k) => Write(X.MovImm(r, k));
    }

    method StoreDest(t: nat)
      modifies this`localIdx, this`tmpMap, this`out
      ensures State() == TouchTemp(old(State()), t) && out == old(out) + B.StoreDest(State(), t)
    {
      var off := GetTmp(t);
      Write(X.StoreSlot(off, X.RAX));
    }

    method WriteAll(xs: X.Asm)
      modifies this`out
      ensures out == old(out) + xs
    {
      out := out + xs;
    }

    /** The two operands of an opcode, in `rax` and `rcx`. */
    method LoadTwo(l: Operand, r: Operand)
      modifies this`localIdx, this`tmpMap, this`out
      ensures State() == TouchOperand(TouchOperand(old(State()), l), r)
      ensures out == old(out) + B.LoadArg(State(), l, X.RAX) + B.LoadArg(State(), r, X.RCX)
    {
      ghost var a := State();
      LoadArg(l, X.RAX);
      ghost var a1 := State();
      LoadArg(r, X.RCX);
      LoadKept(a1, r, l, X.RAX, a);
    }

    /** An operand that was touched loads from the same slot ever after. */
    lemma LoadKept(a1: Slots, r: Operand, l: Operand, reg: X.Reg, a: Slots)
      requires a1 == TouchOperand(a, l)
      ensures B.LoadArg(TouchOperand(a1, r), l, reg) == B.LoadArg(a1, l, reg)
    {
    }

    lemma LoadKeptTemp(a: Slots, t: nat, l: Operand, reg: X.Reg)
      requires l.Tmp? ==> l.t in a.tmps
      ensures B.LoadArg(TouchTemp(a, t), l, reg) == B.LoadArg(a, l, reg)
      ensures l.Tmp? ==> l.t in TouchTemp(a, t).tmps
    {
    }

    method EmitBin(op: BinOp, t: nat, l: Operand, r: Operand)
      modifies this`localIdx, this`tmpMap, this`out
      ensures State() == Touch(abi, old(State()), Bin(op, t, l, r))
      ensures out == old(out) + InstrCode(abi, frameSz, old(State()), State(), Bin(op, t, l, r))
    {
      hide BinCode, TouchTemp, TouchOperand, B.LoadArg, B.StoreDest;
      ghost var a := State();
      LoadTwo(l, r);
      ghost var b := State();
      WriteAll(BinCode(op));
      StoreDest(t);
      BinKept(a, t, l, r);
      assert out
        == old(out) + (B.LoadArg(b, l, X.RAX) + B.LoadArg(b, r, X.RCX) + BinCode(op) + B.StoreDest(State(), t));
    }

    lemma BinKept(a: Slots, t: nat, l: Operand, r: Operand)
      ensures var b := TouchOperand(TouchOperand(a, l), r);
        && B.LoadArg(b, l, X.RAX) == B.LoadArg(TouchTemp(b, t), l, X.RAX)
        && B.LoadArg(b, r, X.RCX) == B.LoadArg(TouchTemp(b, t), r, X.RCX)
    {
    }

    method EmitUn(op: UnOp, t: nat, o: Operand)
      modifies this`localIdx, this`tmpMap, this`out
      ensures State() == Touch(abi, old(State()), Un(op, t, o))
      ensures out == old(out) + InstrCode(abi, frameSz, old(State()), State(), Un(op, t, o))
    {
      LoadArg(o, X.RAX);
      ghost var b := State();
      WriteAll(UnCode(op));
      StoreDest(t);
      LoadKeptTemp(b, t, o, X.RAX);
      hide UnCode;
      assert out == old(out) + B.LoadArg(State(), o, X.RAX) + UnCode(op) + B.StoreDest(State(), t);
    }

    method EmitSelect(t: nat, c: Operand, l: Operand, r: Operand)
      modifies this`localIdx, this`tmpMap, this`out
      ensures State() == Touch(abi, old(State()), Select(t, c, l, r))
      ensures out == old(out) + InstrCode(abi, frameSz, old(State()), State(), Select(t, c, l, r))
    {
      hide B.LoadArg, TouchOperand, TouchTemp, B.StoreDest;
      ghost var a := State();
      LoadArg(c, X.RAX);
      ghost var a1 := State();
      Write(X.Test(X.RAX));
      LoadArg(l, X.RCX);
      ghost var a2 := State();
      LoadArg(r, X.RDX);
      ghost var a3 := State();
      WriteAll([X.Cmovz(X.RCX, X.RDX), X.MovReg(X.RAX, X.RCX)]);
      StoreDest(t);
      SelectKept(a, t, c, l, r);
      assert out == old(out) + (B.LoadArg(a1, c, X.RAX) + [X.Test(X.RAX)] + B.LoadArg(a2, l, X.RCX)
        + B.LoadArg(a3, r, X.RDX) + [X.Cmovz(X.RCX, X.RDX), X.MovReg(X.RAX, X.RCX)] + B.StoreDest(State(), t));
    }

    lemma SelectKept(a: Slots, t: nat, c: Operand, l: Operand, r: Operand)
      ensures var a1 := TouchOperand(a, c);
        var a2 := TouchOperand(a1, l);
        var a3 := TouchOperand(a2, r);
        var b := TouchTemp(a3, t);
        && B.LoadArg(a1, c, X.RAX) == B.LoadArg(b, c, X.RAX)
        && B.LoadArg(a2, l, X.RCX) == B.LoadArg(b, l, X.RCX)
        && B.LoadArg(a3, r, X.RDX) == B.LoadArg(b, r, X.RDX)
    {
    }

    /** The loop over the arguments of a call; `b` are the slots after it. */
    method PassArgs(args: seq<Operand>, ghost b: Slots)
      requires Keeps(TouchOperands(State(), Passed(abi, args)), b)
      modifies this`localIdx, this`tmpMap, this`out
      ensures State() == TouchOperands(old(State()), Passed(abi, args))
      ensures out == old(out) + B.PassArgs(abi, b, Passed(abi, args), 0)
    {
      ghost var ps := Passed(abi, args);
      var i := 0;
      while i < |args|
        invariant i <= |args| && (i <= |ps| || |ps| == |abi.regs|)
        invariant i <= |ps| ==> TouchOperands(State(), ps[i..]) == TouchOperands(old(State()), ps)
        invariant i <= |ps| ==> out + B.PassArgs(abi, b, ps, i) == old(out) + B.PassArgs(abi, b, ps, 0)
        invariant i > |ps| ==> State() == TouchOperands(old(State()), ps)
        invariant i > |ps| ==> out == old(out) + B.PassArgs(abi, b, ps, 0)
      {
        if i < |abi.regs| {
          ghost var before := out;
          LoadArg(args[i], X.RAX);
          Write(X.MovReg(abi.regs[i], X.RAX));
          ArgKept(State(), ps[i + 1..], b, args[i]);
          assert ps[i..][1..] == ps[i + 1..];
          hide B.LoadArg, TouchOperand;
          assert out + B.PassArgs(abi, b, ps, i + 1)
            == before + (B.LoadArg(b, ps[i], X.RAX) + [X.MovReg(abi.regs[i], X.RAX)] + B.PassArgs(abi, b, ps, i + 1));
        }
        i := i + 1;
      }
    }

    lemma ArgKept(a: Slots, rest: seq<Operand>, b: Slots, o: Operand)
      requires Keeps(TouchOperands(a, rest), b) && (o.Tmp? ==> o.t in a.tmps)
      ensures B.LoadArg(a, o, X.RAX) == B.LoadArg(b, o, X.RAX)
    {
      OperandsOnward(a, rest);
      hide TouchOperands, Laid, Spare;
    }

    method EmitCall(t: nat, f: string, args: seq<Operand>)
      modifies this`localIdx, this`tmpMap, this`out
      ensures State() == Touch(abi, old(State()), Call(t, f, args))
      ensures out == old(out) + InstrCode(abi, frameSz, old(State()), State(), Call(t, f, args))
    {
      hide TouchOperands, B.PassArgs, B.StoreDest, TouchTemp, BeforeCall, AfterCall, Laid, Spare;
      ghost var a := State();
      ghost var b := TouchTemp(TouchOperands(a, Passed(abi, args)), t);
      TempOnward(TouchOperands(a, Passed(abi, args)), t);
      BeforeTheCall();
      PassArgs(args, b);
      Write(X.XorEax);
      Write(X.CallTo(f));
      AfterTheCall();
      StoreDest(t);
      assert out == old(out) + (BeforeCall(abi) + B.PassArgs(abi, b, Passed(abi, args), 0) + [X.XorEax] + [X.CallTo(f)]
        + AfterCall(abi, frameSz) + B.StoreDest(b, t));
    }

    method BeforeTheCall()
      modifies this`out
      ensures out == old(out) + BeforeCall(abi)
    {
      Write(X.AndRsp16);
      if abi.shadow > 0 {
        Write(X.SubRsp(abi.shadow));
      }
    }

    method AfterTheCall()
      modifies this`out
      ensures out == old(out) + AfterCall(abi, frameSz)
    {
      if abi.shadow > 0 {
        Write(X.AddRsp(abi.shadow));
      }
      Write(X.LeaRsp(frameSz));
    }

    method EmitLoad(t: nat, x: Name)
      modifies this`localIdx, this`tmpMap, this`out
      ensures State() == Touch(abi, old(State()), Load(t, x))
      ensures out == old(out) + InstrCode(abi, frameSz, old(State()), State(), Load(t, x))
    {
      if x in varMap {
        Write(X.LoadSlot(X.RAX, varMap[x]));
      } else {
        Write(X.MovImm(X.RAX, 0));
      }
      StoreDest(t);
    }

    method EmitStore(o: Operand, x: Name)
      modifies this`localIdx, this`tmpMap, this`varMap, this`out
      ensures State() == Touch(abi, old(State()), Store(o, x))
      ensures out == old(out) + InstrCode(abi, frameSz, old(State()), State(), Store(o, x))
    {
      LoadArg(o, X.RAX);
      if x !in varMap {
        var _ := AllocLocal(x);
      }
      Write(X.StoreSlot(varMap[x], X.RAX));
    }

    method EmitTest(c: Operand)
      modifies this`localIdx, this`tmpMap, this`out
      ensures State() == TouchOperand(old(State()), c)
      ensures out == old(out) + (B.LoadArg(State(), c, X.RAX) + [X.Test(X.RAX)])
    {
      LoadArg(c, X.RAX);
      Write(X.Test(X.RAX));
    }

    method EmitInstr(i: Instr)
      modifies this`localIdx, this`tmpMap, this`varMap, this`out
      ensures State() == Touch(abi, old(State()), i)
      ensures out == old(out) + InstrCode(abi, frameSz, old(State()), State(), i)
    {
      match i
      case Const(t, v) =>
        Write(X.MovImm(X.RAX, v));
        StoreDest(t);
      case Alloca(x) =>
        if x !in varMap {
          var _ := AllocLocal(x);
        }
      case Load(t, x) => EmitLoad(t, x);
      case Store(o, x) => EmitStore(o, x);
      case Bin(op, t, l, r) => EmitBin(op, t, l, r);
      case Un(op, t, o) => EmitUn(op, t, o);
      case Select(t, c, l, r) => EmitSelect(t, c, l, r);
      case Label(l) => Write(X.Mark(l));
      case Jmp(l) => Write(X.JmpTo(l));
      case Jz(c, l) =>
        EmitTest(c);
        Write(X.JzTo(l));
      case Jnz(c, l) =>
        EmitTest(c);
        Write(X.JnzTo(l));
      case Call(t, f, args) => EmitCall(t, f, args);
      case Ret(o) =>
        LoadArg(o, X.RAX);
        Write(X.Leave);
        Write(X.RetNear);
    }

    /** The names among the parameters. */
    method ParamNames(params: seq<string>) returns (names: set<Name>)
      ensures names == set p <- params :: Local(p)
    {
      names := {};
      var j := 0;
      while j < |params|
        invariant j <= |params| && names == set p <- params[..j] :: Local(p)
      {
        names := names + {Local(params[j])};
        j := j + 1;
      }
      assert params[..j] == params;
    }

    /** The name an instruction gives a slot to: the destination of an `alloca`, the target of a `store`. */
    method TouchedName(i: Instr, names: set<Name>) returns (r: set<Name>)
      ensures r == names + NamesOf(i)
    {
      match i
      case Alloca(x) => r := names + {x};
      case Store(_, x) => r := names + {x};
      case _ => r := names;
    }

    lemma CountNext(code: Code, k: nat)
      requires k < |code|
      ensures NamesIn(code[..k + 1]) == NamesIn(code[..k]) + NamesOf(code[k])
      ensures TempsIn(code[..k + 1]) == TempsIn(code[..k]) + B.TempsOf(code[k])
    {
      assert code[..k + 1][..k] == code[..k];
      hide NamesOf, B.TempsOf;
    }

    /** The dry run: the names and temporaries of the function, counted with sets. */
    method CountSlots(f: IRFunc) returns (n: nat)
      ensures n == B.CountSlots(f)
    {
      hide NamesOf, B.TempsOf;
      ghost var params := set p <- f.params :: Local(p);
      var names := ParamNames(f.params);
      var tmps: set<nat> := {};
      var k := 0;
      while k < |f.code|
        invariant k <= |f.code| && names == params + NamesIn(f.code[..k]) && tmps == TempsIn(f.code[..k])
      {
        CountNext(f.code, k);
        hide NamesIn, TempsIn;
        names := TouchedName(f.code[k], names);
        tmps := tmps + B.TempsOf(f.code[k]);
        k := k + 1;
      }
      assert f.code[..k] == f.code;
      n := |names| + |tmps| + 8;
    }

    method EmitParams(params: seq<string>)
      requires State() == Slots(0, map[], map[])
      modifies this`localIdx, this`varMap, this`out
      ensures State() == ParamSlots(Bound(abi, params))
      ensures out == old(out) + ParamCode(abi, Bound(abi, params))
    {
      ghost var ps := Bound(abi, params);
      var i := 0;
      while i < |params|
        invariant i <= |params|
        invariant var n := if i <= |ps| then i else |ps|;
          && State() == ParamSlots(ps[..n]) && localIdx == n
          && out == old(out) + ParamCode(abi, ps[..n])
      {
        if i < |abi.regs| {
          assert ps[..i + 1][..i] == ps[..i];
          var off := AllocLocal(Local(params[i]));
          Write(X.StoreSlot(off, abi.regs[i]));
        }
        i := i + 1;
      }
      assert ps[..|ps|] == ps;
    }

    lemma CodeNext(frame: nat, start: Slots, code: Code, k: nat)
      requires k < |code|
      ensures var a := SlotsAfter(abi, start, code[..k]);
        && SlotsAfter(abi, start, code[..k + 1]) == Touch(abi, a, code[k])
        && CodeOf(abi, frame, start, code[..k + 1])
          == CodeOf(abi, frame, start, code[..k]) + InstrCode(abi, frame, a, Touch(abi, a, code[k]), code[k])
    {
      var c := code[..k + 1];
      assert c[..|c| - 1] == code[..k] && c[|c| - 1] == code[k];
      hide Touch, InstrCode;
    }

    lemma CodeNone(frame: nat, start: Slots, code: Code)
      ensures SlotsAfter(abi, start, code[..0]) == start && CodeOf(abi, frame, start, code[..0]) == []
    {
    }

    method EmitCode(f: IRFunc, ghost start: Slots)
      requires State() == start
      modifies this`localIdx, this`tmpMap, this`varMap, this`out
      ensures State() == SlotsAfter(abi, start, f.code)
      ensures out == old(out) + CodeOf(abi, frameSz, start, f.code)
    {
      hide Touch, InstrCode, SlotsAfter, CodeOf;
      CodeNone(frameSz, start, f.code);
      var k := 0;
      while k < |f.code|
        invariant k <= |f.code|
        invariant State() == SlotsAfter(abi, start, f.code[..k])
        invariant out == old(out) + CodeOf(abi, frameSz, start, f.code[..k])
      {
        CodeNext(frameSz, start, f.code, k);
        EmitInstr(f.code[k]);
        k := k + 1;
      }
      assert f.code[..k] == f.code;
    }

    method EmitPrologue(f: IRFunc)
      modifies this
      ensures out == old(out) + Prologue(abi, f) && State() == ParamSlots(Bound(abi, f.params))
      ensures frameSz == FrameSize(f)
    {
      hide B.CountSlots, ParamCode, ParamSlots;
      Write(X.PushRbp);
      Write(X.MovRbpRsp);
      var slots := CountSlots(f);
      frameSz := (slots * 8 + 15) / 16 * 16;
      Write(X.SubRsp(frameSz));
      varMap, tmpMap, localIdx := map[], map[], 0;
      EmitParams(f.params);
    }

    /** `_emit_func`, after the function's own label: starts over with no slots, and writes the function's code. */
    method EmitFunc(f: IRFunc)
      modifies this
      ensures out == old(out) + FuncCode(abi, f) && State() == FuncSlots(abi, f) && frameSz == FrameSize(f)
    {
      hide FrameSize, Prologue, CodeOf, SlotsAfter, ParamSlots;
      EmitPrologue(f);
      EmitCode(f, ParamSlots(Bound(abi, f.params)));
    }
  }

  /** The machine code of one function. */
  method Emit(abi: Abi, f: IRFunc) returns (code: X.Asm)
    ensures code == FuncCode(abi, f)
  {
    var b := new X86_64Backend(abi);
    b.EmitFunc(f);
    code := b.out;
  }
}
