/** Where the code of each IR instruction sits in the emitted function, and where its labels end up. */
module BackendLayout {
  import opened IR
  import opened Words
  import opened Wrappers
  import opened Backend
  import X = X86

  function Start(abi: Abi, f: IRFunc): Slots {
    ParamSlots(Bound(abi, f.params))
  }

  /** The slots just before instruction `k` is emitted. */
  function SlotsAt(abi: Abi, f: IRFunc, k: nat): Slots
    requires k <= |f.code|
  {
    SlotsAfter(abi, Start(abi, f), f.code[..k])
  }

  function Piece(abi: Abi, f: IRFunc, k: nat): X.Asm
    requires k < |f.code|
  {
    InstrCode(abi, FrameSize(f), SlotsAt(abi, f, k), SlotsAt(abi, f, k + 1), f.code[k])
  }

  /** Where the code of instruction `k` starts. */
  function Pos(abi: Abi, f: IRFunc, k: nat): nat
    requires k <= |f.code|
  {
    |Prologue(abi, f)| + |CodeOf(abi, FrameSize(f), Start(abi, f), f.code[..k])|
  }

  lemma CodeGrows(abi: Abi, f: IRFunc, k: nat)
    requires k < |f.code|
    ensures SlotsAt(abi, f, k + 1) == Touch(abi, SlotsAt(abi, f, k), f.code[k])
    ensures CodeOf(abi, FrameSize(f), Start(abi, f), f.code[..k + 1])
      == CodeOf(abi, FrameSize(f), Start(abi, f), f.code[..k]) + Piece(abi, f, k)
  {
    var c := f.code[..k + 1];
    assert c[..|c| - 1] == f.code[..k] && c[|c| - 1] == f.code[k];
    hide Touch, InstrCode, FrameSize;
  }

  lemma PosNext(abi: Abi, f: IRFunc, k: nat)
    requires k < |f.code|
    ensures Pos(abi, f, k + 1) == Pos(abi, f, k) + |Piece(abi, f, k)|
  {
    CodeGrows(abi, f, k);
    hide Prologue, CodeOf, Piece, Start;
  }

  lemma {:induction false} CodePrefix(abi: Abi, f: IRFunc, k: nat, n: nat)
    requires k <= n <= |f.code|
    ensures CodeOf(abi, FrameSize(f), Start(abi, f), f.code[..k])
      <= CodeOf(abi, FrameSize(f), Start(abi, f), f.code[..n])
    decreases n - k
  {
    if k < n {
      CodeGrows(abi, f, k);
      CodePrefix(abi, f, k + 1, n);
      hide CodeOf, Piece, Start, FrameSize;
    }
  }

  lemma PrefixSits(pre: X.Asm, front: X.Asm, piece: X.Asm, all: X.Asm)
    requires front + piece <= all
    ensures X.Sits(pre + all, |pre| + |front|, piece)
  {
    var a := |pre| + |front|;
    assert (pre + all)[a..a + |piece|] == all[|front|..|front| + |piece|];
    assert all[..|front| + |piece|] == front + piece;
    assert all[|front|..|front| + |piece|] == all[..|front| + |piece|][|front|..];
  }

  /** The code of every instruction sits at its position. */
  lemma PieceSits(abi: Abi, f: IRFunc, k: nat)
    requires k < |f.code|
    ensures X.Sits(FuncCode(abi, f), Pos(abi, f, k), Piece(abi, f, k))
  {
    hide *;
    CodeGrows(abi, f, k);
    CodePrefix(abi, f, k + 1, |f.code|);
    assert f.code[..|f.code|] == f.code;
    var st, fr := Start(abi, f), FrameSize(f);
    FuncIs(abi, f);
    PosIs(abi, f, k);
    PrefixSits(Prologue(abi, f), CodeOf(abi, fr, st, f.code[..k]), Piece(abi, f, k), CodeOf(abi, fr, st, f.code));
  }

  lemma FuncIs(abi: Abi, f: IRFunc)
    ensures FuncCode(abi, f) == Prologue(abi, f) + CodeOf(abi, FrameSize(f), Start(abi, f), f.code)
  {
    hide Prologue, CodeOf, FrameSize;
  }

  predicate NoMark(xs: X.Asm, l: nat) {
    forall i <- xs :: i != X.Mark(l)
  }

  lemma NoMarkAppend(xs: X.Asm, ys: X.Asm, l: nat)
    requires NoMark(xs, l) && NoMark(ys, l)
    ensures NoMark(xs + ys, l)
  {
  }

  lemma {:induction false} ArgsNoMark(abi: Abi, a: Slots, args: seq<Operand>, n: nat, l: nat)
    requires n <= |args| <= |abi.regs|
    ensures NoMark(PassArgs(abi, a, args, n), l)
    decreases |args| - n
  {
    if n < |args| {
      ArgsNoMark(abi, a, args, n + 1, l);
      NoMarkAppend(LoadArg(a, args[n], X.RAX) + [X.MovReg(abi.regs[n], X.RAX)], PassArgs(abi, a, args, n + 1), l);
    }
  }

  lemma {:induction false} ParamsNoMark(abi: Abi, ps: seq<string>, l: nat)
    requires |ps| <= |abi.regs|
    ensures NoMark(ParamCode(abi, ps), l)
    decreases |ps|
  {
    if ps != [] {
      ParamsNoMark(abi, ps[..|ps| - 1], l);
    }
  }

  /** The marks of an instruction's code are its labels. */
  lemma PieceNoMark(abi: Abi, frame: nat, a: Slots, b: Slots, i: Instr, l: nat)
    requires i != Label(l)
    ensures NoMark(InstrCode(abi, frame, a, b, i), l)
  {
    if i.Call? {
      var args := Passed(abi, i.args);
      ArgsNoMark(abi, b, args, 0, l);
      NoMarkAppend(BeforeCall(abi), PassArgs(abi, b, args, 0), l);
      assert NoMark([X.XorEax] + [X.CallTo(i.func)] + AfterCall(abi, frame) + StoreDest(b, i.dest), l);
      assert InstrCode(abi, frame, a, b, i) == BeforeCall(abi) + PassArgs(abi, b, args, 0)
        + ([X.XorEax] + [X.CallTo(i.func)] + AfterCall(abi, frame) + StoreDest(b, i.dest));
    }
  }

  lemma {:induction false} CodeNoMark(abi: Abi, f: IRFunc, k: nat, l: nat)
    requires k <= |f.code| && forall i | 0 <= i < k :: f.code[i] != Label(l)
    ensures NoMark(CodeOf(abi, FrameSize(f), Start(abi, f), f.code[..k]), l)
    decreases k
  {
    if k > 0 {
      CodeNoMark(abi, f, k - 1, l);
      CodeGrows(abi, f, k - 1);
      PieceNoMark(abi, FrameSize(f), SlotsAt(abi, f, k - 1), SlotsAt(abi, f, k), f.code[k - 1], l);
      var front, piece := CodeOf(abi, FrameSize(f), Start(abi, f), f.code[..k - 1]), Piece(abi, f, k - 1);
      NoMarkAppend(front, piece, l);
      hide NoMark, CodeOf, InstrCode, FrameSize, Start, SlotsAfter;
    }
  }

  lemma FirstMark(asm: X.Asm, p: nat, l: nat)
    requires p < |asm| && asm[p] == X.Mark(l) && NoMark(asm[..p], l)
    ensures X.FindMark(asm, l) == Some(p)
  {
    forall i | 0 <= i < p
      ensures asm[i] != X.Mark(l)
    {
      assert asm[..p][i] == asm[i];
      assert asm[i] in asm[..p];
    }
    hide X.MarkFrom;
  }

  lemma TakePrefix(pre: X.Asm, front: X.Asm, all: X.Asm)
    requires front <= all
    ensures |pre| + |front| <= |pre + all| && (pre + all)[..|pre| + |front|] == pre + front
  {
  }

  /** A jump in the machine code goes where the jump in the IR goes. */
  lemma MarkFound(abi: Abi, f: IRFunc, l: nat)
    requires FindLabel(f.code, l).Some?
    ensures X.FindMark(FuncCode(abi, f), l) == Some(Pos(abi, f, FindLabel(f.code, l).value))
  {
    hide IR.FindFrom, InstrCode, FrameSize, SlotsAfter, CodeOf, X.FindMark, Pos;
    var k := FindLabel(f.code, l).value;
    var pre, front := Prologue(abi, f), CodeOf(abi, FrameSize(f), Start(abi, f), f.code[..k]);
    PieceSits(abi, f, k);
    LabelPiece(abi, f, k, l);
    PosIs(abi, f, k);
    assert FuncCode(abi, f)[Pos(abi, f, k)] == X.Mark(l) by {
      assert FuncCode(abi, f)[Pos(abi, f, k)..Pos(abi, f, k) + 1][0] == X.Mark(l);
    }
    CodePrefix(abi, f, k, |f.code|);
    assert f.code[..|f.code|] == f.code;
    TakePrefix(pre, front, CodeOf(abi, FrameSize(f), Start(abi, f), f.code));
    CodeNoMark(abi, f, k, l);
    ParamsNoMark(abi, Bound(abi, f.params), l);
    NoMarkAppend([X.PushRbp, X.MovRbpRsp, X.SubRsp(FrameSize(f))], ParamCode(abi, Bound(abi, f.params)), l);
    NoMarkAppend(pre, front, l);
    hide Prologue, NoMark, Start, Piece, X.Sits;
    FirstMark(FuncCode(abi, f), Pos(abi, f, k), l);
  }

  lemma PosIs(abi: Abi, f: IRFunc, k: nat)
    requires k <= |f.code|
    ensures Pos(abi, f, k) == |Prologue(abi, f)| + |CodeOf(abi, FrameSize(f), Start(abi, f), f.code[..k])|
  {
  }

  lemma LabelPiece(abi: Abi, f: IRFunc, k: nat, l: nat)
    requires k < |f.code| && f.code[k] == Label(l)
    ensures Piece(abi, f, k) == [X.Mark(l)]
  {
  }
}
