/** The instruction sequences the backend selects compute what the IR opcodes mean. */
module BackendOps {
  import opened Words
  import opened Wrappers
  import opened Backend
  import X = X86

  // ----- instruction sequences -----

  /** `m'` differs from `m` in registers and flags only. */
  predicate SameStack(m: X.Machine, m': X.Machine) {
    m'.rbp == m.rbp && m'.rsp == m.rsp && m'.mem == m.mem
  }

  lemma WrapWord(v: Word)
    ensures Wrap(v) == v
  {
  }

  /** Signed comparison from the flags of a subtraction. */
  lemma CompareFlags(a: Word, b: Word)
    ensures var x := a - b;
      && ((Wrap(x) == 0) <==> a == b)
      && (((Wrap(x) < 0) != !X.Fits(x)) <==> a < b)
  {
  }

  /** Sign-extending the dividend over `rdx` leaves its value. */
  lemma SignExtended(a: Word)
    ensures (if a < 0 then -1 else 0) * TWO_64 + Unsigned(a) == a
  {
  }

  lemma ProductGrows(b: nat, q: nat)
    requires b > 0
    ensures b * q >= q
  {
    assert (b - 1) * q >= 0;
  }

  lemma QuotientShrinks(a: nat, b: nat)
    requires b > 0
    ensures 0 <= a / b <= a
  {
    var q := a / b;
    assert q >= 0 && a == b * q + a % b;
    ProductGrows(b, q);
  }

  lemma DivideFits(a: Word, b: Word)
    requires b != 0
    ensures X.Fits(TruncDiv(a, b)) <==> Divides(a, b)
  {
    QuotientShrinks(Abs(a), Abs(b));
  }

  lemma ShiftCount(b: Word)
    ensures Unsigned(b) % 256 % 64 == b % 64
  {
  }

  lemma BoolByte(v: Word, b: bool)
    ensures X.LowByte(Wrap(v - X.LowByte(v) + BoolWord(b))) == BoolWord(b)
  {
  }

  lemma DoOne(i: X.Inst, m: X.Machine)
    requires X.Straight(i)
    ensures X.DoAll([i], m) == X.Do(i, m)
  {
    var o := X.Do(i, m);
    if o.Go? {
      assert X.DoAll([i][1..], o.m) == X.Go(o.m);
    }
  }

  lemma DoTwo(i: X.Inst, j: X.Inst, m: X.Machine)
    requires X.Straight(i) && X.Straight(j)
    ensures X.AllStraight([i, j])
    ensures X.DoAll([i, j], m) == var o := X.Do(i, m); if o.Fault? then X.Fault else X.Do(j, o.m)
  {
    var o := X.Do(i, m);
    assert [i, j][1..] == [j];
    if o.Go? {
      DoOne(j, o.m);
    }
  }

  lemma DoThree(i: X.Inst, j: X.Inst, k: X.Inst, m: X.Machine)
    requires X.Straight(i) && X.Straight(j) && X.Straight(k)
    ensures X.AllStraight([i, j, k])
    ensures X.DoAll([i, j, k], m) ==
      var o := X.Do(i, m); if o.Fault? then X.Fault else
      var o' := X.Do(j, o.m); if o'.Fault? then X.Fault else X.Do(k, o'.m)
  {
    var o := X.Do(i, m);
    assert [i, j, k][1..] == [j, k];
    if o.Go? {
      DoTwo(j, k, o.m);
    }
  }

  /** From the operands in `rax` and `rcx`, the result of the opcode in `rax`. */
  ghost predicate BinDone(op: BinOp, m: X.Machine, o: X.Out) {
    var v := Binary(op, m.Get(X.RAX), m.Get(X.RCX));
    if v.None? then o == X.Fault else o.Go? && o.m.Get(X.RAX) == v.value && SameStack(m, o.m)
  }

  lemma BinCodeDoes(op: BinOp, m: X.Machine)
    ensures X.AllStraight(BinCode(op))
    ensures BinDone(op, m, X.DoAll(BinCode(op), m))
  {
    if op.Div? {
      DivideDoes(m);
    } else if op.Mod? {
      ModuloDoes(m);
    } else if Compares(op) {
      CompareDoes(op, m);
    } else if op.Shl? || op.Shr? {
      ShiftDoes(op, m);
    } else {
      AluDoes(op, m);
    }
  }

  lemma AluIs(op: BinOp, m: X.Machine)
    requires !op.Div? && !op.Mod? && !op.Shl? && !op.Shr? && !Compares(op)
    ensures |BinCode(op)| == 1 && BinCode(op)[0].Alu? && BinCode(op)[0].d == X.RAX && BinCode(op)[0].s == X.RCX
    ensures Binary(op, m.Get(X.RAX), m.Get(X.RCX))
      == Some(Wrap(X.AluExact(BinCode(op)[0].op, m.Get(X.RAX), m.Get(X.RCX))))
  {
    WrapBits(m.Get(X.RAX), m.Get(X.RCX));
    hide Bits, Bitwise, Pow2, TruncDiv, TruncMod, Wrap, Divides, X.Machine.Get;
  }

  lemma WrapBits(a: Word, b: Word)
    ensures Wrap(Bitwise(AndBits, a, b)) == Bitwise(AndBits, a, b)
    ensures Wrap(Bitwise(OrBits, a, b)) == Bitwise(OrBits, a, b)
    ensures Wrap(Bitwise(XorBits, a, b)) == Bitwise(XorBits, a, b)
  {
    hide Bitwise;
    WrapWord(Bitwise(AndBits, a, b));
    WrapWord(Bitwise(OrBits, a, b));
    WrapWord(Bitwise(XorBits, a, b));
  }

  lemma AluStep(op: X.AluOp, m: X.Machine)
    ensures var o := X.Do(X.Alu(op, X.RAX, X.RCX), m);
      o.Go? && o.m.Get(X.RAX) == Wrap(X.AluExact(op, m.Get(X.RAX), m.Get(X.RCX))) && SameStack(m, o.m)
  {
    hide X.AluExact, Wrap, X.Fits;
  }

  lemma AluDoes(op: BinOp, m: X.Machine)
    requires !op.Div? && !op.Mod? && !op.Shl? && !op.Shr? && !Compares(op)
    ensures X.AllStraight(BinCode(op))
    ensures BinDone(op, m, X.DoAll(BinCode(op), m))
  {
    var i := BinCode(op)[0];
    AluIs(op, m);
    AluStep(i.op, m);
    DoOne(i, m);
    hide Binary, X.AluExact, X.DoAll, Wrap, X.Do, BinCode, X.Machine.Get;
    assert BinCode(op) == [i];
  }

  lemma ShiftDoes(op: BinOp, m: X.Machine)
    requires op.Shl? || op.Shr?
    ensures X.AllStraight(BinCode(op))
    ensures BinDone(op, m, X.DoAll(BinCode(op), m))
  {
    var i := BinCode(op)[0];
    DoOne(i, m);
    ShiftCount(m.Get(X.RCX));
    assert X.Count(m) == m.Get(X.RCX) % 64;
    hide Bits, Bitwise, Pow2, TruncDiv, TruncMod, X.DoAll, Wrap, X.Fits, Divides, X.Count, X.AluExact;
    assert BinCode(op) == [i];
  }

  lemma HoldsCompare(op: BinOp, a: Word, b: Word, m: X.Machine)
    requires Compares(op)
    requires m.zf == (Wrap(a - b) == 0) && m.sf == (Wrap(a - b) < 0) && m.ovf == !X.Fits(a - b)
    ensures Binary(op, a, b) == Some(BoolWord(m.Holds(CondOf(op))))
  {
    CompareFlags(a, b);
    hide Wrap, X.Fits, Bits, Bitwise, Pow2, TruncDiv, TruncMod;
  }

  lemma SetAndExtend(c: X.Cond, m: X.Machine)
    ensures var m1 := X.Do(X.SetAl(c), m).m;
      var m2 := X.Do(X.MovzxAl, m1).m;
      m2.Get(X.RAX) == BoolWord(m.Holds(c)) && SameStack(m, m2)
  {
    BoolByte(m.Get(X.RAX), m.Holds(c));
    hide X.LowByte, Wrap, BoolWord, X.Machine.Holds;
  }

  lemma CmpIs(m: X.Machine)
    ensures X.Straight(X.Cmp(X.RAX, X.RCX)) && X.Do(X.Cmp(X.RAX, X.RCX), m).Go?
    ensures var m1 := X.Do(X.Cmp(X.RAX, X.RCX), m).m;
      var x := m.Get(X.RAX) - m.Get(X.RCX);
      SameStack(m, m1) && m1.zf == (Wrap(x) == 0) && m1.sf == (Wrap(x) < 0) && m1.ovf == !X.Fits(x)
  {
    hide Wrap, X.Fits, X.Machine.Get;
  }

  lemma SetsAre(c: X.Cond, m: X.Machine)
    ensures X.Straight(X.SetAl(c)) && X.Do(X.SetAl(c), m).Go?
    ensures X.Straight(X.MovzxAl) && X.Do(X.MovzxAl, m).Go?
  {
    hide Wrap, X.LowByte, X.Machine.Holds, X.Machine.Get;
  }

  lemma CompareCode(op: BinOp)
    requires Compares(op)
    ensures BinCode(op) == [X.Cmp(X.RAX, X.RCX), X.SetAl(CondOf(op)), X.MovzxAl]
  {
  }

  lemma CompareResult(op: BinOp, m: X.Machine, m': X.Machine, b: bool)
    requires Binary(op, m.Get(X.RAX), m.Get(X.RCX)) == Some(BoolWord(b))
    requires m'.Get(X.RAX) == BoolWord(b) && SameStack(m, m')
    ensures BinDone(op, m, X.Go(m'))
  {
    hide Binary, X.Machine.Get, BoolWord;
  }

  lemma SameStackTrans(a: X.Machine, b: X.Machine, c: X.Machine)
    requires SameStack(a, b) && SameStack(b, c)
    ensures SameStack(a, c)
  {
  }

  lemma CompareDoes(op: BinOp, m: X.Machine)
    requires Compares(op)
    ensures X.AllStraight(BinCode(op))
    ensures BinDone(op, m, X.DoAll(BinCode(op), m))
  {
    hide *;
    CmpIs(m);
    var m1 := X.Do(X.Cmp(X.RAX, X.RCX), m).m;
    HoldsCompare(op, m.Get(X.RAX), m.Get(X.RCX), m1);
    SetsAre(CondOf(op), m1);
    var m2 := X.Do(X.SetAl(CondOf(op)), m1).m;
    SetsAre(CondOf(op), m2);
    DoThree(X.Cmp(X.RAX, X.RCX), X.SetAl(CondOf(op)), X.MovzxAl, m);
    SetAndExtend(CondOf(op), m1);
    var m3 := X.Do(X.MovzxAl, m2).m;
    SameStackTrans(m, m1, m3);
    CompareCode(op);
    CompareResult(op, m, m3, m1.Holds(CondOf(op)));
  }

  /** `cqo` and `idiv rcx`. */
  lemma Idiv(m: X.Machine)
    ensures var a, b := m.Get(X.RAX), m.Get(X.RCX);
      var m1 := X.Do(X.Cqo, m).m;
      var o := X.Do(X.Idiv(X.RCX), m1);
      if !Divides(a, b) then o == X.Fault
      else
        && o.Go? && o.m.Get(X.RAX) == Wrap(TruncDiv(a, b)) && o.m.Get(X.RDX) == Wrap(TruncMod(a, b))
        && SameStack(m, o.m)
  {
    var a, b := m.Get(X.RAX), m.Get(X.RCX);
    SignExtended(a);
    if b != 0 {
      DivideFits(a, b);
    }
    hide TruncDiv, TruncMod;
  }

  lemma DivideDoes(m: X.Machine)
    ensures X.AllStraight(BinCode(Div))
    ensures BinDone(Div, m, X.DoAll(BinCode(Div), m))
  {
    Idiv(m);
    DoTwo(X.Cqo, X.Idiv(X.RCX), m);
    hide X.DoAll, X.Do, TruncDiv, TruncMod, Divides, Wrap;
  }

  lemma ModuloDoes(m: X.Machine)
    ensures X.AllStraight(BinCode(Mod))
    ensures BinDone(Mod, m, X.DoAll(BinCode(Mod), m))
  {
    Idiv(m);
    DoThree(X.Cqo, X.Idiv(X.RCX), X.MovReg(X.RAX, X.RDX), m);
    hide X.DoAll, TruncDiv, TruncMod, Divides, Wrap;
  }

  lemma UnCodeDoes(op: UnOp, m: X.Machine)
    ensures X.AllStraight(UnCode(op))
    ensures var o := X.DoAll(UnCode(op), m);
      o.Go? && o.m.Get(X.RAX) == Unary(op, m.Get(X.RAX)) && SameStack(m, o.m)
  {
    if op.Not? {
      NotDoes(m);
    } else {
      DoOne(UnCode(op)[0], m);
      hide X.DoAll, Wrap, X.Fits, X.AluExact, X.Count;
    }
  }

  lemma NotDoes(m: X.Machine)
    ensures X.AllStraight(UnCode(Not))
    ensures var o := X.DoAll(UnCode(Not), m);
      o.Go? && o.m.Get(X.RAX) == BoolWord(m.Get(X.RAX) == 0) && SameStack(m, o.m)
  {
    var m1 := X.Do(X.Test(X.RAX), m).m;
    DoThree(X.Test(X.RAX), X.SetAl(X.E), X.MovzxAl, m);
    SetAndExtend(X.E, m1);
    assert m1.Holds(X.E) == (m.Get(X.RAX) == 0) && SameStack(m, m1);
    hide X.DoAll, X.Do, X.Machine.Holds, Wrap, X.Machine.Get, BoolWord;
  }
}
