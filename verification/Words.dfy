/** 64-bit machine words, read as signed numbers, and the integer operations the compiler has opcodes for.
    `WordLaws` says what the operations are, bit by bit. */
module Words {
  import opened Wrappers

  const TWO_63 := 0x8000_0000_0000_0000
  const TWO_64 := 0x1_0000_0000_0000_0000

  type Word = x: int | -TWO_63 <= x < TWO_63

  /** The word congruent to `x` modulo 2^64. */
  function Wrap(x: int): Word {
    (x + TWO_63) % TWO_64 - TWO_63
  }

  function Unsigned(x: Word): nat {
    if x < 0 then x + TWO_64 else x
  }

  function BoolWord(b: bool): Word {
    if b then 1 else 0
  }

  predicate Truthy(x: Word) {
    x != 0
  }

  predicate IsBit(x: int) {
    x == 0 || x == 1
  }

  function Abs(x: int): nat {
    if x < 0 then -x else x
  }

  /** Division rounding toward zero. */
  function TruncDiv(a: int, b: int): int
    requires b != 0
  {
    if (a < 0) == (b < 0) then Abs(a) / Abs(b) else -(Abs(a) / Abs(b))
  }

  /** The remainder that goes with `TruncDiv`: it has the sign of the dividend. */
  function TruncMod(a: int, b: int): int
    requires b != 0
  {
    a - b * TruncDiv(a, b)
  }

  /** A division the processor can carry out: a non-zero divisor and a quotient that is a word. */
  predicate Divides(a: Word, b: Word) {
    b != 0 && TruncDiv(a, b) < TWO_63
  }

  datatype BitOp = AndBits | OrBits | XorBits

  function BitPair(op: BitOp, a: nat, b: nat): nat {
    match op
    case AndBits => if a % 2 == 1 && b % 2 == 1 then 1 else 0
    case OrBits => if a % 2 == 1 || b % 2 == 1 then 1 else 0
    case XorBits => if a % 2 != b % 2 then 1 else 0
  }

  function Bits(op: BitOp, a: nat, b: nat): nat
    decreases a + b
  {
    if a == 0 && b == 0 then 0 else 2 * Bits(op, a / 2, b / 2) + BitPair(op, a, b)
  }

  function Bitwise(op: BitOp, a: Word, b: Word): Word {
    Wrap(Bits(op, Unsigned(a), Unsigned(b)))
  }

  function Pow2(n: nat): (p: nat)
    ensures p >= 1
  {
    if n == 0 then 1 else 2 * Pow2(n - 1)
  }

  /** The opcodes with two operands. Shift counts are taken modulo 64. */
  datatype BinOp = Add | Sub | Mul | Div | Mod | And | Or | Xor | Shl | Shr
                 | CmpEq | CmpNe | CmpLt | CmpGt | CmpLe | CmpGe

  datatype UnOp = Neg | BNot | Not | ZExt

  predicate Compares(op: BinOp) {
    op.CmpEq? || op.CmpNe? || op.CmpLt? || op.CmpGt? || op.CmpLe? || op.CmpGe?
  }

  /** `None` is the processor's divide error. */
  function Binary(op: BinOp, a: Word, b: Word): Option<Word> {
    match op
    case Add => Some(Wrap(a + b))
    case Sub => Some(Wrap(a - b))
    case Mul => Some(Wrap(a * b))
    case Div => if Divides(a, b) then Some(Wrap(TruncDiv(a, b))) else None
    case Mod => if Divides(a, b) then Some(Wrap(TruncMod(a, b))) else None
    case And => Some(Bitwise(AndBits, a, b))
    case Or => Some(Bitwise(OrBits, a, b))
    case Xor => Some(Bitwise(XorBits, a, b))
    case Shl => Some(Wrap(a * Pow2(b % 64)))
    case Shr => Some(Wrap(a / Pow2(b % 64)))
    case CmpEq => Some(BoolWord(a == b))
    case CmpNe => Some(BoolWord(a != b))
    case CmpLt => Some(BoolWord(a < b))
    case CmpGt => Some(BoolWord(a > b))
    case CmpLe => Some(BoolWord(a <= b))
    case CmpGe => Some(BoolWord(a >= b))
  }

  function Unary(op: UnOp, a: Word): Word {
    match op
    case Neg => Wrap(0 - a)
    case BNot => -1 - a
    case Not => BoolWord(a == 0)
    case ZExt => a % 256
  }

  lemma BitwiseOnBits(a: Word, b: Word)
    requires IsBit(a) && IsBit(b)
    ensures Bitwise(AndBits, a, b) == BoolWord(Truthy(a) && Truthy(b))
    ensures Bitwise(OrBits, a, b) == BoolWord(Truthy(a) || Truthy(b))
    ensures Bitwise(XorBits, a, b) == BoolWord(Truthy(a) != Truthy(b))
  {
    forall op: BitOp
      ensures Bits(op, a, b) == BitPair(op, a, b)
    {
      assert Bits(op, 0, 0) == 0;
      assert a / 2 == 0 && b / 2 == 0;
    }
  }

  /** The operators whose result on two bits is always a bit. */
  predicate KeepsBits(op: BinOp) {
    !(op.Add? || op.Sub? || op.Shl?)
  }

  lemma DivideByBit(a: Word, b: Word)
    requires IsBit(b) && b != 0
    ensures TruncDiv(a, b) == a && TruncMod(a, b) == 0
  {
  }

  lemma ShiftByBit(a: Word, b: Word)
    requires IsBit(a) && IsBit(b)
    ensures IsBit(a / Pow2(b % 64))
  {
    assert Pow2(0) == 1 && Pow2(1) == 2;
  }

  lemma WrapBit(a: int)
    requires IsBit(a)
    ensures Wrap(a) == a
  {
  }

  lemma BitsKept(op: BinOp, a: Word, b: Word)
    requires IsBit(a) && IsBit(b) && KeepsBits(op)
    ensures var r := Binary(op, a, b); r.Some? ==> IsBit(r.value)
  {
    hide Bits, Bitwise, TruncDiv, TruncMod, Pow2, Wrap, Divides;
    match op
    case Mul =>
      assert a * b == if a == 1 then b else 0;
      WrapBit(a * b);
    case Div => if Divides(a, b) { QuotientBit(a, b); }
    case Mod => if Divides(a, b) { QuotientBit(a, b); }
    case And => BitwiseOnBits(a, b);
    case Or => BitwiseOnBits(a, b);
    case Xor => BitwiseOnBits(a, b);
    case Shr =>
      ShiftByBit(a, b);
      WrapBit(a / Pow2(b % 64));
    case _ =>
  }

  lemma QuotientBit(a: Word, b: Word)
    requires IsBit(a) && IsBit(b) && Divides(a, b)
    ensures Wrap(TruncDiv(a, b)) == a && Wrap(TruncMod(a, b)) == 0
  {
    DivideByBit(a, b);
    WrapBit(a);
    WrapBit(0);
    hide TruncDiv, TruncMod, Wrap;
  }

  /** The other three do not: `1 + 1`, `0 - 1` and `1 << 1`. */
  lemma KeepsBitsIff(op: BinOp)
    ensures KeepsBits(op)
      <==> forall a: Word, b: Word | IsBit(a) && IsBit(b) && Binary(op, a, b).Some? :: IsBit(Binary(op, a, b).value)
  {
    if KeepsBits(op) {
      forall a: Word, b: Word | IsBit(a) && IsBit(b) && Binary(op, a, b).Some?
        ensures IsBit(Binary(op, a, b).value)
      {
        BitsKept(op, a, b);
      }
    } else {
      var a: Word, b: Word := if op.Sub? then 0 else 1, 1;
      BitsLost(op, a);
      assert IsBit(a) && IsBit(b);
      hide Binary;
    }
  }

  lemma BitsLost(op: BinOp, a: Word)
    requires !KeepsBits(op) && a == if op.Sub? then 0 else 1
    ensures var r := Binary(op, a, 1); r.Some? && !IsBit(r.value)
  {
    hide Bits, Bitwise, TruncDiv, TruncMod, Divides;
    match op
    case Add =>
    case Sub =>
    case Shl => assert Pow2(1) == 2;
  }
}
