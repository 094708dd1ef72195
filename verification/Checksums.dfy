/** The runtime's checksums over byte strings: the CRC-32 of section 8 of RFC 1952, and 64-bit FNV-1a. */
module Checksums {
  type Bytes = seq<bv8>

  // ----- CRC-32 -----

  const POLY: bv32 := 0xEDB88320

  function Xor(a: bv32, b: bv32): bv32 {
    a ^ b
  }

  function Half(c: bv32): bv32 {
    c >> 1
  }

  predicate Odd(c: bv32) {
    c & 1 == 1
  }

  /** One bit shifted out of the register: division by x of a polynomial modulo the generator. */
  function BitStep(crc: bv32): bv32 {
    if Odd(crc) then Xor(Half(crc), POLY) else Half(crc)
  }

  function BitSteps(crc: bv32, n: nat): bv32
    decreases n
  {
    if n == 0 then crc else BitSteps(BitStep(crc), n - 1)
  }

  /** The register after the bytes of a message. */
  function Feed(crc: bv32, data: Bytes): bv32
    decreases |data|
  {
    if data == [] then crc else Feed(BitSteps(Xor(crc, data[0] as bv32), 8), data[1..])
  }

  const START: bv32 := 0xFFFF_FFFF

  function Crc32(data: Bytes): bv32 {
    Xor(Feed(START, data), 0xFFFF_FFFF)
  }

  /** The code's step, which has no branch: the generator is masked by the bit shifted out. */
  function MaskedStep(c: bv32): bv32 {
    (c >> 1) ^ (POLY & (0 - (c & 1)))
  }

  lemma MaskedIsStep(c: bv32)
    ensures MaskedStep(c) == BitStep(c)
  {
    hide Half;
    LowBit(c);
    Masking(POLY);
    Unchanged(c >> 1);
    HalfIs(c);
  }

  lemma LowBit(c: bv32)
    ensures if c & 1 == 1 then 0 - (c & 1) == 0xFFFF_FFFF else 0 - (c & 1) == 0
  {
  }

  lemma Masking(p: bv32)
    ensures p & 0xFFFF_FFFF == p && p & 0 == 0
  {
  }

  lemma Unchanged(c: bv32)
    ensures c ^ 0 == c
  {
  }

  lemma HalfIs(c: bv32)
    ensures Half(c) == c >> 1
  {
  }

  lemma Complement(c: bv32)
    ensures !c == Xor(c, 0xFFFF_FFFF)
  {
  }

  method ComputeCrc32(data: Bytes) returns (r: bv32)
    ensures r == Crc32(data)
  {
    hide BitStep, MaskedStep, Xor;
    var crc: bv32 := 0xFFFF_FFFF;
    var i := 0;
    while i < |data|
      invariant i <= |data| && Feed(crc, data[i..]) == Feed(START, data)
    {
      var mixed := Xor(crc, data[i] as bv32);
      crc := mixed;
      var j := 0;
      while j < 8
        invariant j <= 8 && BitSteps(crc, 8 - j) == BitSteps(mixed, 8)
      {
        MaskedIsStep(crc);
        crc := MaskedStep(crc);
        j := j + 1;
      }
      assert data[i..][1..] == data[i + 1..];
      i := i + 1;
    }
    Complement(crc);
    r := !crc;
  }

  // ----- the register, bit by bit -----

  type Bits = seq<bool>

  function Bit(x: bool): bv32 {
    if x then 1 else 0
  }

  /** The same register fed serially: a bit at a time, the lowest bit of a byte first. */
  function FeedBits(crc: bv32, bits: Bits): bv32
    decreases |bits|
  {
    if bits == [] then crc else FeedBits(BitStep(Xor(crc, Bit(bits[0]))), bits[1..])
  }

  function BitsOf(x: bv8): (r: Bits)
    ensures |r| == 8
  {
    [x & 1 == 1, (x >> 1) & 1 == 1, (x >> 2) & 1 == 1, (x >> 3) & 1 == 1,
     (x >> 4) & 1 == 1, (x >> 5) & 1 == 1, (x >> 6) & 1 == 1, (x >> 7) & 1 == 1]
  }

  function BitString(data: Bytes): (r: Bits)
    ensures |r| == 8 * |data|
  {
    if data == [] then [] else BitsOf(data[0]) + BitString(data[1..])
  }

  function Double(c: bv32): bv32 {
    c << 1
  }

  /** Up to 32 bits as a register, the first bit lowest. */
  function Pack(bits: Bits): bv32 {
    if bits == [] then 0 else Xor(Bit(bits[0]), Double(Pack(bits[1..])))
  }

  // ----- exclusive or -----

  lemma XorLaws(a: bv32, b: bv32, c: bv32)
    ensures Xor(a, b) == Xor(b, a) && Xor(a, 0) == a && Xor(a, a) == 0
    ensures Xor(Xor(a, b), c) == Xor(a, Xor(b, c))
  {
  }

  lemma XorPairs(a: bv32, b: bv32, c: bv32, d: bv32)
    ensures Xor(Xor(a, b), Xor(c, d)) == Xor(Xor(a, c), Xor(b, d))
  {
    hide Xor;
    XorLaws(a, b, Xor(c, d));
    XorLaws(b, c, d);
    XorLaws(c, b, d);
    XorLaws(a, c, Xor(b, d));
  }

  lemma XorSame(a: bv32, b: bv32, c: bv32)
    requires Xor(c, a) == Xor(c, b)
    ensures a == b
  {
    assert Xor(c, Xor(c, a)) == a && Xor(c, Xor(c, b)) == b;
  }

  lemma HalfXor(a: bv32, b: bv32)
    ensures Half(Xor(a, b)) == Xor(Half(a), Half(b)) && (Odd(Xor(a, b)) <==> Odd(a) != Odd(b))
  {
  }

  /** The register step is linear. */
  lemma StepLinear(a: bv32, b: bv32)
    ensures BitStep(Xor(a, b)) == Xor(BitStep(a), BitStep(b))
  {
    hide Xor, Half, Odd, POLY;
    HalfXor(a, b);
    var x, y := Half(a), Half(b);
    XorPairs(x, if Odd(a) then POLY else 0, y, if Odd(b) then POLY else 0);
    XorLaws(x, POLY, 0);
    XorLaws(y, POLY, 0);
    XorLaws(Xor(x, y), 0, 0);
    XorLaws(POLY, 0, 0);
    XorLaws(0, POLY, 0);
    XorLaws(Xor(x, y), POLY, 0);
  }

  /** A step can be undone: the top bit tells whether the generator was added. */
  function Unstep(crc: bv32): bv32 {
    if crc >> 31 == 1 then Double(Xor(crc, POLY)) | 1 else Double(crc)
  }

  lemma StepUndone(c: bv32)
    ensures Unstep(BitStep(c)) == c
  {
    hide POLY, Xor, Odd;
    XorLaws(Half(c), POLY, POLY);
    XorLaws(POLY, POLY, 0);
    HalfTop(c);
    HalfBack(c);
  }

  lemma HalfTop(c: bv32)
    ensures Half(c) >> 31 == 0 && Xor(Half(c), POLY) >> 31 == 1
  {
  }

  lemma HalfBack(c: bv32)
    ensures !Odd(c) ==> Double(Half(c)) == c
    ensures Odd(c) ==> Double(Half(c)) | 1 == c
  {
  }

  lemma {:induction false} StepsInjective(a: bv32, b: bv32, n: nat)
    requires BitSteps(a, n) == BitSteps(b, n)
    ensures a == b
    decreases n
  {
    hide BitStep, Unstep;
    if n > 0 {
      StepsInjective(BitStep(a), BitStep(b), n - 1);
      StepUndone(a);
      StepUndone(b);
    }
  }

  lemma {:induction false} StepsAdd(c: bv32, m: nat, n: nat)
    ensures BitSteps(c, m + n) == BitSteps(BitSteps(c, m), n)
    decreases m
  {
    hide BitStep;
    if m > 0 {
      StepsAdd(BitStep(c), m - 1, n);
    }
  }

  // ----- windows of at most 32 bits -----

  function DoubleOne(c: bv32): bv32 {
    (c << 1) | 1
  }

  function WithOne(b: bv32): bv32 {
    b | 1
  }

  /** The `n` low bits. */
  function Mask(n: nat): bv32 {
    if n == 0 then 0 else DoubleOne(Mask(n - 1))
  }

  predicate Inside(a: bv32, b: bv32) {
    a & b == a
  }

  lemma {:induction false} MaskIn(n: nat, m: nat)
    requires n <= m
    ensures Inside(Mask(n), Mask(m))
  {
    hide Inside, DoubleOne;
    NothingInside(Mask(m));
    if n > 0 {
      MaskIn(n - 1, m - 1);
      DoubleIn(Mask(n - 1), Mask(m - 1));
    }
  }

  lemma NothingInside(b: bv32)
    ensures Inside(0, b)
  {
  }

  lemma DoubleIn(a: bv32, b: bv32)
    requires Inside(a, b)
    ensures Inside(DoubleOne(a), DoubleOne(b))
  {
  }

  lemma Mask31()
    ensures Mask(31) == 0x7FFF_FFFF
  {
    assert Mask(8) == 0xFF;
    assert Mask(16) == 0xFFFF;
    assert Mask(24) == 0xFF_FFFF;
  }

  /** A packed window keeps within its bits, and its first bit and the rest can be read off. */
  lemma {:induction false} PackFits(bits: Bits)
    ensures Inside(Pack(bits), Mask(|bits|))
  {
    hide Xor, Double, DoubleOne, Inside;
    NothingInside(0);
    if bits != [] {
      PackFits(bits[1..]);
      FitsMore(bits[0], Pack(bits[1..]), Mask(|bits| - 1));
    }
  }

  lemma FitsMore(x: bool, p: bv32, m: bv32)
    requires Inside(p, m)
    ensures Inside(Xor(Bit(x), Double(p)), DoubleOne(m))
  {
    hide Inside, Xor, Double, DoubleOne, WithOne;
    ShiftIn(p, m);
    EvenShift(p);
    DoubleOneIs(m);
    if x {
      LowOne(Double(p), Double(m));
    } else {
      LowNone(Double(p), Double(m));
    }
  }

  lemma ShiftIn(p: bv32, m: bv32)
    requires Inside(p, m)
    ensures Inside(Double(p), Double(m))
  {
  }

  lemma EvenShift(p: bv32)
    ensures Inside(Double(p), 0xFFFF_FFFE)
  {
  }

  lemma DoubleOneIs(m: bv32)
    ensures DoubleOne(m) == WithOne(Double(m))
  {
  }

  lemma LowOne(a: bv32, b: bv32)
    requires Inside(a, b) && Inside(a, 0xFFFF_FFFE)
    ensures Inside(Xor(1, a), WithOne(b))
  {
  }

  lemma LowNone(a: bv32, b: bv32)
    requires Inside(a, b)
    ensures Inside(Xor(0, a), WithOne(b))
  {
  }

  predicate Small(p: bv32) {
    p & 0x8000_0000 == 0
  }

  lemma TopClear(bits: Bits)
    requires |bits| <= 31
    ensures Small(Pack(bits))
  {
    hide Inside, Mask, Small;
    PackFits(bits);
    MaskIn(|bits|, 31);
    Mask31();
    Within(Pack(bits), Mask(|bits|));
  }

  lemma Within(p: bv32, m: bv32)
    requires Inside(p, m) && Inside(m, 0x7FFF_FFFF)
    ensures Small(p)
  {
  }

  lemma HalfDouble(p: bv32)
    requires Small(p)
    ensures Half(Double(p)) == p && !Odd(Double(p))
  {
  }

  lemma HalfBit(x: bool)
    ensures Half(Bit(x)) == 0 && (Odd(Bit(x)) <==> x)
  {
  }

  lemma Doubled(x: bool, p: bv32)
    requires Small(p)
    ensures Half(Double(p)) == p && !Odd(Double(p))
    ensures Half(Xor(Bit(x), Double(p))) == p && (Odd(Xor(Bit(x), Double(p))) <==> x)
  {
    hide Half, Double, Small, Xor, Odd;
    HalfDouble(p);
    HalfXor(Bit(x), Double(p));
    HalfBit(x);
    XorLaws(p, 0, 0);
    XorLaws(0, p, 0);
  }

  /** Feeding a window is adding it to the register and stepping. */
  lemma {:induction false} WindowAdds(c: bv32, bits: Bits)
    requires |bits| <= 32
    ensures FeedBits(c, bits) == BitSteps(Xor(c, Pack(bits)), |bits|)
    decreases |bits|
  {
    hide Xor, Half, Odd, Double, Bit, Small;
    if bits == [] {
      XorLaws(c, 0, 0);
    } else {
      var x, rest := Bit(bits[0]), Pack(bits[1..]);
      WindowAdds(BitStep(Xor(c, x)), bits[1..]);
      TopClear(bits[1..]);
      Doubled(bits[0], rest);
      StepLinear(Xor(c, x), Double(rest));
      XorLaws(c, x, Double(rest));
    }
  }

  lemma {:induction false} PackInjective(a: Bits, b: Bits)
    requires |a| == |b| <= 32 && Pack(a) == Pack(b)
    ensures a == b
  {
    hide Xor, Half, Odd, Double, Bit, Small;
    if a != [] {
      TopClear(a[1..]);
      TopClear(b[1..]);
      Doubled(a[0], Pack(a[1..]));
      Doubled(b[0], Pack(b[1..]));
      PackInjective(a[1..], b[1..]);
      assert a == [a[0]] + a[1..] && b == [b[0]] + b[1..];
    }
  }

  lemma {:induction false} FeedBitsJoin(c: bv32, a: Bits, b: Bits)
    ensures FeedBits(c, a + b) == FeedBits(FeedBits(c, a), b)
    decreases |a|
  {
    hide BitStep, Xor;
    if a == [] {
      assert a + b == b;
    } else {
      assert (a + b)[1..] == a[1..] + b;
      FeedBitsJoin(BitStep(Xor(c, Bit(a[0]))), a[1..], b);
    }
  }

  /** Different registers stay different, whatever follows. */
  lemma {:induction false} FeedBitsInjective(c: bv32, d: bv32, bits: Bits)
    requires FeedBits(c, bits) == FeedBits(d, bits)
    ensures c == d
    decreases |bits|
  {
    hide BitStep, Xor, Unstep;
    if bits != [] {
      var x := Bit(bits[0]);
      FeedBitsInjective(BitStep(Xor(c, x)), BitStep(Xor(d, x)), bits[1..]);
      StepUndone(Xor(c, x));
      StepUndone(Xor(d, x));
      XorLaws(c, x, x);
      XorLaws(d, x, x);
      XorSame(c, d, x);
    }
  }

  lemma PackByte(x: bv8)
    ensures Pack(BitsOf(x)) == x as bv32
  {
    hide Xor, Double, Bit;
    var s := BitsOf(x);
    Horner(s);
    FromBits(x);
  }

  lemma Horner(s: Bits)
    requires |s| == 8
    ensures Pack(s) == With(s[0], With(s[1], With(s[2], With(s[3], With(s[4], With(s[5], With(s[6], With(s[7], 0))))))))
  {
    hide Xor, Double, Bit;
    forall i: nat | i < 8
      ensures Pack(s[i..]) == With(s[i], Pack(s[i + 1..]))
    {
      assert s[i..][1..] == s[i + 1..];
    }
    assert s[0..] == s;
  }

  function With(b: bool, p: bv32): bv32 {
    Xor(Bit(b), Double(p))
  }

  lemma FromBits(x: bv8)
    ensures var s := BitsOf(x);
      With(s[0], With(s[1], With(s[2], With(s[3], With(s[4], With(s[5], With(s[6], With(s[7], 0)))))))) == x as bv32
  {
  }

  /** The byte-wise loop is the serial register over the bit string. */
  lemma {:induction false} FeedIsSerial(c: bv32, data: Bytes)
    ensures Feed(c, data) == FeedBits(c, BitString(data))
    decreases |data|
  {
    hide BitStep, BitSteps, Xor, BitsOf, Pack;
    if data != [] {
      var x := data[0];
      WindowAdds(c, BitsOf(x));
      PackByte(x);
      FeedBitsJoin(c, BitsOf(x), BitString(data[1..]));
      FeedIsSerial(BitSteps(Xor(c, x as bv32), 8), data[1..]);
    }
  }

  /** Every burst within 32 consecutive bits is detected, wherever it starts. */
  lemma BurstDetected(x: Bytes, y: Bytes, front: Bits, a: Bits, b: Bits, back: Bits)
    requires BitString(x) == front + a + back && BitString(y) == front + b + back
    requires |a| == |b| <= 32
    ensures Crc32(x) == Crc32(y) <==> a == b
  {
    hide *;
    CrcSerial(x, front, a, back);
    CrcSerial(y, front, b, back);
    if Crc32(x) == Crc32(y) {
      var c := FeedBits(START, front);
      FeedBitsInjective(FeedBits(c, a), FeedBits(c, b), back);
      WindowAdds(c, a);
      WindowAdds(c, b);
      StepsInjective(Xor(c, Pack(a)), Xor(c, Pack(b)), |a|);
      XorSame(Pack(a), Pack(b), c);
      PackInjective(a, b);
    }
  }

  lemma CrcSerial(x: Bytes, front: Bits, a: Bits, back: Bits)
    requires BitString(x) == front + a + back
    ensures Crc32(x) == Xor(FeedBits(FeedBits(FeedBits(START, front), a), back), 0xFFFF_FFFF)
    ensures Xor(Crc32(x), 0xFFFF_FFFF) == FeedBits(FeedBits(FeedBits(START, front), a), back)
  {
    hide Xor, Feed, FeedBits, BitString;
    FeedIsSerial(START, x);
    FeedBitsJoin(START, front + a, back);
    FeedBitsJoin(START, front, a);
    XorLaws(Feed(START, x), 0xFFFF_FFFF, 0xFFFF_FFFF);
    XorLaws(Feed(START, x), 0, 0);
    XorLaws(0xFFFF_FFFF, 0, 0);
  }

  lemma {:induction false} BitStringJoin(x: Bytes, y: Bytes)
    ensures BitString(x + y) == BitString(x) + BitString(y)
  {
    hide BitsOf;
    if x == [] {
      assert x + y == y;
    } else {
      assert (x + y)[1..] == x[1..] + y;
      BitStringJoin(x[1..], y);
    }
  }

  lemma {:induction false} BitStringInjective(x: Bytes, y: Bytes)
    requires |x| == |y| && BitString(x) == BitString(y)
    ensures x == y
  {
    hide BitsOf, Pack;
    if x != [] {
      assert BitsOf(x[0]) == BitString(x)[..8] && BitsOf(y[0]) == BitString(y)[..8];
      assert BitString(x[1..]) == BitString(x)[8..] && BitString(y[1..]) == BitString(y)[8..];
      PackByte(x[0]);
      PackByte(y[0]);
      SameByte(x[0], y[0]);
      BitStringInjective(x[1..], y[1..]);
      assert x == [x[0]] + x[1..] && y == [y[0]] + y[1..];
    }
  }

  lemma SameByte(x: bv8, y: bv8)
    requires x as bv32 == y as bv32
    ensures x == y
  {
  }

  /** Messages that differ only within four consecutive bytes have different checksums. */
  lemma FourBytesDetected(front: Bytes, a: Bytes, b: Bytes, back: Bytes)
    requires |a| == |b| <= 4
    ensures Crc32(front + a + back) == Crc32(front + b + back) <==> a == b
  {
    hide *;
    BitStringJoin(front + a, back);
    BitStringJoin(front, a);
    BitStringJoin(front + b, back);
    BitStringJoin(front, b);
    BurstDetected(front + a + back, front + b + back, BitString(front), BitString(a), BitString(b), BitString(back));
    if BitString(a) == BitString(b) {
      BitStringInjective(a, b);
    }
  }

  function XorBits(x: Bits, y: Bits): (r: Bits)
    requires |x| == |y|
  {
    seq(|x|, i requires 0 <= i < |x| => x[i] != y[i])
  }

  /** The register is linear in the register and the message together. */
  lemma {:induction false} FeedBitsLinear(c: bv32, d: bv32, x: Bits, y: Bits)
    requires |x| == |y|
    ensures Xor(FeedBits(c, x), FeedBits(d, y)) == FeedBits(Xor(c, d), XorBits(x, y))
    decreases |x|
  {
    hide BitStep, Xor, Bit;
    if x != [] {
      var a, b := Bit(x[0]), Bit(y[0]);
      assert XorBits(x, y)[1..] == XorBits(x[1..], y[1..]);
      FeedBitsLinear(BitStep(Xor(c, a)), BitStep(Xor(d, b)), x[1..], y[1..]);
      StepLinear(Xor(c, a), Xor(d, b));
      XorPairs(c, a, d, b);
      XorBit(x[0], y[0]);
    }
  }

  lemma XorBit(x: bool, y: bool)
    ensures Xor(Bit(x), Bit(y)) == Bit(x != y)
  {
  }

  /** The difference of two checksums is decided by where the messages differ, not by what they say. */
  lemma DifferenceOnly(x: Bytes, y: Bytes)
    requires |x| == |y|
    ensures Xor(Crc32(x), Crc32(y)) == FeedBits(0, XorBits(BitString(x), BitString(y)))
  {
    hide Xor, FeedBits, BitString, XorBits, Feed;
    FeedIsSerial(START, x);
    FeedIsSerial(START, y);
    FeedBitsLinear(START, START, BitString(x), BitString(y));
    XorPairs(Feed(START, x), 0xFFFF_FFFF, Feed(START, y), 0xFFFF_FFFF);
    XorLaws(START, START, 0);
    XorLaws(Xor(Feed(START, x), Feed(START, y)), 0, 0);
  }

  // ----- FNV-1a -----

  /** A byte goes into the low byte of a hash. */
  function Mix(h: bv64, b: bv8): bv64 {
    h ^ b as bv64
  }

  /** Times the prime, modulo 2^64. */
  function TimesPrime(h: bv64): bv64 {
    h * 1099511628211
  }

  function FnvStep(h: bv64, b: bv8): bv64 {
    TimesPrime(Mix(h, b))
  }

  function FnvFrom(h: bv64, data: Bytes): bv64
    decreases |data|
  {
    if data == [] then h else FnvFrom(FnvStep(h, data[0]), data[1..])
  }

  const OFFSET: bv64 := 14695981039346656037

  function Fnv1a(data: Bytes): bv64 {
    FnvFrom(OFFSET, data)
  }

  method ComputeFnv1a(data: Bytes) returns (h: bv64)
    ensures h == Fnv1a(data)
  {
    hide Mix, TimesPrime;
    h := 14695981039346656037;
    var i := 0;
    while i < |data|
      invariant i <= |data| && FnvFrom(h, data[i..]) == FnvFrom(OFFSET, data)
    {
      assert data[i..][1..] == data[i + 1..];
      h := Mix(h, data[i]);
      h := TimesPrime(h);
      i := i + 1;
    }
  }

  /** Times the inverse of the prime, which has one modulo 2^64 because it is odd. */
  function DividePrime(h: bv64): bv64 {
    h * 14886173955864302971
  }

  lemma ProductDivided(h: bv64)
    ensures DividePrime(h * 1099511628211) == h
  {
  }

  lemma TimesPrimeIs(h: bv64)
    ensures TimesPrime(h) == h * 1099511628211
  {
  }

  lemma PrimeUndone(h: bv64)
    ensures DividePrime(TimesPrime(h)) == h
  {
    hide TimesPrime, DividePrime;
    ProductDivided(h);
    TimesPrimeIs(h);
  }

  lemma PrimeInjective(g: bv64, h: bv64)
    requires TimesPrime(g) == TimesPrime(h)
    ensures g == h
  {
    hide TimesPrime, DividePrime;
    PrimeUndone(g);
    PrimeUndone(h);
  }

  lemma SameMix(g: bv64, h: bv64, b: bv8)
    requires Mix(g, b) == Mix(h, b)
    ensures g == h
  {
  }

  lemma SameMixed(h: bv64, b: bv8, c: bv8)
    requires Mix(h, b) == Mix(h, c)
    ensures b == c
  {
  }

  lemma {:induction false} FnvInjective(g: bv64, h: bv64, data: Bytes)
    requires FnvFrom(g, data) == FnvFrom(h, data)
    ensures g == h
    decreases |data|
  {
    hide Mix, TimesPrime;
    if data != [] {
      FnvInjective(FnvStep(g, data[0]), FnvStep(h, data[0]), data[1..]);
      PrimeInjective(Mix(g, data[0]), Mix(h, data[0]));
      SameMix(g, h, data[0]);
    }
  }

  lemma {:induction false} FnvJoin(h: bv64, x: Bytes, y: Bytes)
    ensures FnvFrom(h, x + y) == FnvFrom(FnvFrom(h, x), y)
    decreases |x|
  {
    hide FnvStep;
    if x == [] {
      assert x + y == y;
    } else {
      assert (x + y)[1..] == x[1..] + y;
      FnvJoin(FnvStep(h, x[0]), x[1..], y);
    }
  }

  /** Messages that differ in exactly one byte have different hashes. */
  lemma OneByteSeparated(front: Bytes, b: bv8, c: bv8, back: Bytes)
    ensures Fnv1a(front + [b] + back) == Fnv1a(front + [c] + back) <==> b == c
  {
    hide Mix, TimesPrime, FnvFrom;
    var h := FnvFrom(OFFSET, front);
    FnvThrough(front, b, back);
    FnvThrough(front, c, back);
    if Fnv1a(front + [b] + back) == Fnv1a(front + [c] + back) {
      FnvInjective(FnvStep(h, b), FnvStep(h, c), back);
      PrimeInjective(Mix(h, b), Mix(h, c));
      SameMixed(h, b, c);
    }
  }

  lemma FnvThrough(front: Bytes, b: bv8, back: Bytes)
    ensures Fnv1a(front + [b] + back) == FnvFrom(FnvStep(FnvFrom(OFFSET, front), b), back)
  {
    hide FnvStep;
    FnvJoin(OFFSET, front + [b], back);
    FnvJoin(OFFSET, front, [b]);
  }
}
