/** CRC-32 as the remainder of a division of polynomials over the field of two elements. */
module CrcRemainder {
  import opened Checksums

  /** A polynomial, by the exponents of its terms. */
  type Poly = set<nat>

  function Plus(p: Poly, q: Poly): Poly {
    (p - q) + (q - p)
  }

  function Raise(p: Poly, n: nat): Poly {
    set e <- p :: e + n
  }

  /** The exponents of the generator of ISO 3309. */
  function Generator(): seq<nat> {
    [32, 26, 23, 22, 16, 12, 11, 10, 8, 7, 5, 4, 2, 1, 0]
  }

  function Times(p: Poly, g: seq<nat>): Poly {
    if g == [] then {} else Plus(Raise(p, g[0]), Times(p, g[1..]))
  }

  predicate BitAt(c: bv32, i: nat) {
    if i == 0 then Odd(c) else BitAt(Half(c), i - 1)
  }

  predicate HasTerm(c: bv32, e: nat) {
    e < 32 && BitAt(c, 31 - e)
  }

  /** The lowest bit of a register is the coefficient of the highest power. */
  function Register(c: bv32): Poly {
    set e: nat | e < 32 && HasTerm(c, e)
  }

  predicate MessageTerm(bits: Bits, e: nat) {
    e < |bits| && bits[|bits| - 1 - e]
  }

  /** The first bit of a message is the coefficient of the highest power. */
  function Message(bits: Bits): Poly {
    set e: nat | e < |bits| && MessageTerm(bits, e)
  }

  /** All powers below the `n`-th. */
  function Ones(n: nat): Poly {
    if n == 0 then {} else Ones(n - 1) + {n - 1}
  }

  // ----- polynomials -----

  lemma RaisePlus(p: Poly, q: Poly, n: nat)
    ensures Raise(Plus(p, q), n) == Plus(Raise(p, n), Raise(q, n))
  {
    forall e: nat
      ensures e in Raise(Plus(p, q), n) <==> e in Plus(Raise(p, n), Raise(q, n))
    {
      RaisedIn(Plus(p, q), n, e);
      RaisedIn(p, n, e);
      RaisedIn(q, n, e);
    }
  }

  lemma RaisedIn(p: Poly, n: nat, e: nat)
    ensures e in Raise(p, n) <==> e >= n && e - n in p
  {
    if e >= n && e - n in p {
      assert e == (e - n) + n;
    }
  }

  lemma RaiseTwice(p: Poly, m: nat, n: nat)
    ensures Raise(Raise(p, m), n) == Raise(p, m + n)
  {
    forall e: nat
      ensures e in Raise(Raise(p, m), n) <==> e in Raise(p, m + n)
    {
      RaisedIn(Raise(p, m), n, e);
      if e >= n {
        RaisedIn(p, m, e - n);
      }
      RaisedIn(p, m + n, e);
    }
  }

  lemma PlusLaws(p: Poly, q: Poly, r: Poly)
    ensures Plus(p, q) == Plus(q, p) && Plus(Plus(p, q), r) == Plus(p, Plus(q, r)) && Plus(p, {}) == p
  {
  }

  lemma Swap(a: Poly, b: Poly, c: Poly, d: Poly)
    ensures Plus(Plus(a, b), Plus(c, d)) == Plus(Plus(a, c), Plus(b, d))
  {
  }

  lemma {:induction false} TimesPlus(p: Poly, q: Poly, g: seq<nat>)
    ensures Times(Plus(p, q), g) == Plus(Times(p, g), Times(q, g))
    decreases |g|
  {
    hide Plus, Raise;
    if g == [] {
      PlusLaws({}, {}, {});
    } else {
      TimesPlus(p, q, g[1..]);
      RaisePlus(p, q, g[0]);
      Swap(Raise(p, g[0]), Raise(q, g[0]), Times(p, g[1..]), Times(q, g[1..]));
    }
  }

  lemma {:induction false} TimesRaise(p: Poly, g: seq<nat>, n: nat)
    ensures Times(Raise(p, n), g) == Raise(Times(p, g), n)
    decreases |g|
  {
    if g != [] {
      TimesRaise(p, g[1..], n);
      RaiseTwice(p, n, g[0]);
      RaiseTwice(p, g[0], n);
      RaisePlus(Raise(p, g[0]), Times(p, g[1..]), n);
    }
    hide Plus;
  }

  /** A product has no terms above the sum of the degrees. */
  lemma {:induction false} TimesBelow(p: Poly, g: seq<nat>, e: nat)
    requires forall k <- p, i <- g :: k + i < e
    ensures e !in Times(p, g)
    decreases |g|
  {
    if g != [] {
      assert g[0] in g && forall i <- g[1..] :: i in g;
      TimesBelow(p, g[1..], e);
      RaisedIn(p, g[0], e);
      assert forall k <- p :: k + g[0] < e;
    }
  }

  lemma Highest(p: Poly) returns (d: nat)
    requires p != {}
    ensures d in p && forall e <- p :: e <= d
    decreases |p|
  {
    var some :| some in p;
    d := some;
    assert forall e <- p :: e == some || e in p - {some};
    if p != {some} {
      var m := Highest(p - {some});
      d := if m > some then m else some;
    }
  }

  /** Only the multiple by 0 of the generator has a degree below 32. */
  lemma NoSmallMultiple(q: Poly)
    requires forall e <- Times(q, Generator()) :: e < 32
    ensures q == {}
  {
    if q != {} {
      var d := TopTerm(q);
    }
  }

  lemma TopTerm(q: Poly) returns (d: nat)
    requires q != {}
    ensures d + 32 in Times(q, Generator())
  {
    var g := Generator();
    d := Highest(q);
    assert g[1..] == [26, 23, 22, 16, 12, 11, 10, 8, 7, 5, 4, 2, 1, 0];
    TimesBelow(q, g[1..], d + 32);
    RaisedIn(q, 32, d + 32);
  }

  // ----- the register -----

  function Halves(c: bv32, k: nat): bv32 {
    if k == 0 then c else Half(Halves(c, k - 1))
  }

  lemma {:induction false} HalvesFirst(c: bv32, k: nat)
    ensures Halves(Half(c), k) == Halves(c, k + 1)
    decreases k
  {
    if k > 0 {
      HalvesFirst(c, k - 1);
    }
  }

  lemma {:induction false} BitIs(c: bv32, k: nat)
    ensures BitAt(c, k) == Odd(Halves(c, k))
    decreases k
  {
    if k > 0 {
      BitIs(Half(c), k - 1);
      HalvesFirst(c, k - 1);
    }
  }

  lemma {:induction false} XorBit(c: bv32, d: bv32, k: nat)
    ensures BitAt(Xor(c, d), k) == (BitAt(c, k) != BitAt(d, k))
    decreases k
  {
    XorOdd(c, d);
    XorHalf(c, d);
    hide Odd, Half, Xor;
    if k > 0 {
      XorBit(Half(c), Half(d), k - 1);
    }
  }

  lemma XorOdd(c: bv32, d: bv32)
    ensures Odd(Xor(c, d)) == (Odd(c) != Odd(d))
  {
  }

  lemma XorHalf(c: bv32, d: bv32)
    ensures Half(Xor(c, d)) == Xor(Half(c), Half(d))
  {
  }

  lemma HalvesEnd(c: bv32)
    ensures Halves(c, 32) == 0
  {
    EightHalves(c);
    EightHalves(Halves(c, 8));
    EightHalves(Halves(c, 16));
    EightHalves(Halves(c, 24));
    HalvesJoin(c, 8, 8);
    HalvesJoin(c, 16, 8);
    HalvesJoin(c, 24, 8);
    hide Halves;
    ShiftedOut(c);
  }

  lemma {:induction false} HalvesJoin(c: bv32, m: nat, n: nat)
    ensures Halves(Halves(c, m), n) == Halves(c, m + n)
    decreases n
  {
    if n > 0 {
      HalvesJoin(c, m, n - 1);
    }
  }

  lemma TwoHalves(c: bv32)
    ensures Halves(c, 2) == c >> 2
  {
    assert Halves(c, 1) == c >> 1;
  }

  lemma FourHalves(c: bv32)
    ensures Halves(c, 4) == c >> 4
  {
    HalvesJoin(c, 2, 2);
    TwoHalves(c);
    TwoHalves(c >> 2);
    hide Halves;
    TwoAndTwo(c);
  }

  lemma TwoAndTwo(c: bv32)
    ensures (c >> 2) >> 2 == c >> 4 && (c >> 4) >> 4 == c >> 8
  {
  }

  lemma EightHalves(c: bv32)
    ensures Halves(c, 8) == c >> 8
  {
    HalvesJoin(c, 4, 4);
    FourHalves(c);
    FourHalves(c >> 4);
    hide Halves;
    TwoAndTwo(c);
  }

  lemma ShiftedOut(c: bv32)
    ensures (((c >> 8) >> 8) >> 8) >> 8 == 0
  {
  }

  lemma NoBitAbove(c: bv32)
    ensures !BitAt(c, 32)
  {
    BitIs(c, 32);
    HalvesEnd(c);
  }

  lemma PolyHigh(k: nat)
    requires k < 16
    ensures BitAt(POLY, k) <==> 31 - k in Generator()
  {
    BitIs(POLY, k);
    assert Halves(POLY, 1) == 0x76DC4190 && Halves(POLY, 2) == 0x3B6E20C8;
    assert Halves(POLY, 3) == 0x1DB71064 && Halves(POLY, 4) == 0xEDB8832;
    assert Halves(POLY, 5) == 0x76DC419 && Halves(POLY, 6) == 0x3B6E20C;
    assert Halves(POLY, 7) == 0x1DB7106 && Halves(POLY, 8) == 0xEDB883;
    assert Halves(POLY, 9) == 0x76DC41 && Halves(POLY, 10) == 0x3B6E20;
    assert Halves(POLY, 11) == 0x1DB710 && Halves(POLY, 12) == 0xEDB88;
    assert Halves(POLY, 13) == 0x76DC4 && Halves(POLY, 14) == 0x3B6E2;
    assert Halves(POLY, 15) == 0x1DB71;
  }

  lemma PolyMiddle()
    ensures Halves(POLY, 16) == 0xEDB8
  {
    HalvesJoin(POLY, 8, 8);
    EightHalves(POLY);
    EightHalves(POLY >> 8);
    hide Halves;
    assert (POLY >> 8) >> 8 == 0xEDB8;
  }

  lemma PolyLow(k: nat)
    requires k < 16
    ensures BitAt(POLY, 16 + k) <==> 15 - k in Generator()
  {
    BitIs(POLY, 16 + k);
    PolyMiddle();
    HalvesJoin(POLY, 16, k);
    hide POLY, BitAt;
    var c: bv32 := 0xEDB8;
    assert Halves(c, 1) == 0x76DC && Halves(c, 2) == 0x3B6E;
    assert Halves(c, 3) == 0x1DB7 && Halves(c, 4) == 0xEDB;
    assert Halves(c, 5) == 0x76D && Halves(c, 6) == 0x3B6;
    assert Halves(c, 7) == 0x1DB && Halves(c, 8) == 0xED;
    assert Halves(c, 9) == 0x76 && Halves(c, 10) == 0x3B;
    assert Halves(c, 11) == 0x1D && Halves(c, 12) == 0xE;
    assert Halves(c, 13) == 0x7 && Halves(c, 14) == 0x3;
    assert Halves(c, 15) == 0x1;
  }

  /** The constant of the code is the generator without its highest term. */
  lemma PolyBits(e: nat)
    requires e < 32
    ensures BitAt(POLY, 31 - e) <==> e in Generator()
  {
    hide *;
    if e >= 16 {
      PolyHigh(31 - e);
    } else {
      PolyLow(15 - e);
    }
  }

  // ----- feeding -----

  lemma TermIs(c: bv32, e: nat)
    ensures e in Register(c) <==> e < 32 && BitAt(c, 31 - e)
  {
    hide BitAt;
  }

  /** A step of the register is a multiplication by x, less the generator if that has the degree 32. */
  lemma StepIs(c: bv32)
    ensures var q: Poly := if 31 in Register(c) then {0} else {};
      Register(BitStep(c)) == Plus(Raise(Register(c), 1), Times(q, Generator()))
  {
    var q: Poly := if 31 in Register(c) then {0} else {};
    TermIs(c, 31);
    forall e: nat
      ensures e in Register(BitStep(c)) <==> e in Plus(Raise(Register(c), 1), Times(q, Generator()))
    {
      RaisedIn(Register(c), 1, e);
      TermIs(BitStep(c), e);
      GeneratorTimes(q, e);
      StepBit(c, e);
      TermIs(c, e);
      hide Generator, Times, Register, BitAt, BitStep, Raise, POLY;
      if e > 0 {
        TermIs(c, e - 1);
      }
    }
  }

  lemma GeneratorTimes(q: Poly, e: nat)
    requires q == {} || q == {0}
    ensures e in Times(q, Generator()) <==> q == {0} && e in Generator()
  {
    if q == {} {
      TimesNone(Generator());
    } else {
      TimesOne(Generator(), e);
    }
  }

  lemma {:induction false} TimesNone(g: seq<nat>)
    ensures Times({}, g) == {}
    decreases |g|
  {
    if g != [] {
      TimesNone(g[1..]);
    }
  }

  lemma {:induction false} TimesOne(g: seq<nat>, e: nat)
    requires forall i, j | 0 <= i < j < |g| :: g[i] != g[j]
    ensures e in Times({0}, g) <==> e in g
    decreases |g|
  {
    if g != [] {
      TimesOne(g[1..], e);
      RaisedIn({0}, g[0], e);
      assert g == [g[0]] + g[1..];
    }
  }

  lemma StepBit(c: bv32, e: nat)
    ensures e < 32 ==>
      BitAt(BitStep(c), 31 - e) == ((e > 0 && BitAt(c, 32 - e)) != (BitAt(c, 0) && e in Generator()))
    ensures e >= 32 ==> (e == 32 <==> e in Generator())
  {
    if e < 32 {
      PolyBits(e);
      XorBit(Half(c), POLY, 31 - e);
      assert BitAt(Half(c), 31 - e) == BitAt(c, 32 - e);
      NoBitAbove(c);
      hide POLY, Generator, Half, Xor;
    }
  }

  lemma FirstBit(c: bv32, b: bool)
    ensures Register(Xor(c, Bit(b))) == Plus(Register(c), if b then {31} else {})
  {
    hide Register, BitAt, Xor, Bit;
    forall e: nat
      ensures e in Register(Xor(c, Bit(b))) <==> e in Plus(Register(c), if b then {31} else {})
    {
      TermIs(c, e);
      TermIs(Xor(c, Bit(b)), e);
      if e < 32 {
        XorBit(c, Bit(b), 31 - e);
        LowBit(b, 31 - e);
      }
    }
  }

  lemma LowBit(b: bool, k: nat)
    ensures BitAt(Bit(b), k) == (b && k == 0)
  {
    BitIs(Bit(b), k);
    NoHalves(b, k);
  }

  lemma {:induction false} NoHalves(b: bool, k: nat)
    ensures Halves(Bit(b), k) == if k == 0 then Bit(b) else 0
    decreases k
  {
    if k > 0 {
      NoHalves(b, k - 1);
    }
  }

  lemma MessageFirst(bits: Bits)
    requires bits != []
    ensures Message(bits) == Plus(Message(bits[1..]), if bits[0] then {|bits| - 1} else {})
  {
    var more := bits[1..];
    forall e: nat
      ensures e in Message(bits) <==> e in Plus(Message(more), if bits[0] then {|bits| - 1} else {})
    {
      if e < |more| {
        assert more[|more| - 1 - e] == bits[|bits| - 1 - e];
      }
    }
  }

  /** The register after a message is what is left of the start value and the message, raised, by the generator. */
  lemma {:induction false} FedIs(c: bv32, bits: Bits) returns (q: Poly)
    ensures Register(FeedBits(c, bits))
      == Plus(Plus(Raise(Register(c), |bits|), Raise(Message(bits), 32)), Times(q, Generator()))
    decreases |bits|
  {
    if bits == [] {
      q := {};
      NothingFed(c);
    } else {
      var b, n := bits[0], |bits| - 1;
      var c0 := Xor(c, Bit(b));
      var top: Poly := if 31 in Register(c0) then {0} else {};
      var q' := FedIs(BitStep(c0), bits[1..]);
      q := Plus(Raise(top, n), q');
      StepIs(c0);
      FirstBit(c, b);
      MessageFirst(bits);
      FedFirst(c, bits);
      hide *;
      SameTerm(b, n);
      Combine(Register(c), if b then {31} else {}, top, Message(bits[1..]), if b then {n} else {}, q', n);
    }
  }

  lemma FedFirst(c: bv32, bits: Bits)
    requires bits != []
    ensures FeedBits(c, bits) == FeedBits(BitStep(Xor(c, Bit(bits[0]))), bits[1..])
  {
    hide BitStep, Xor, Bit;
  }

  lemma NothingFed(c: bv32)
    ensures Register(FeedBits(c, []))
      == Plus(Plus(Raise(Register(c), 0), Raise(Message([]), 32)), Times({}, Generator()))
  {
    TimesNone(Generator());
    assert FeedBits(c, []) == c && Message([]) == {};
    hide *;
    NotRaised(Register(c));
    PlusLaws(Register(c), {}, {});
  }

  lemma NotRaised(p: Poly)
    ensures Raise(p, 0) == p && Raise({}, 32) == {}
  {
  }

  lemma Combine(r: Poly, b: Poly, top: Poly, m: Poly, d: Poly, q: Poly, n: nat)
    requires Raise(b, n + 1) == Raise(d, 32)
    ensures var g := Generator();
      Plus(Plus(Raise(Plus(Raise(Plus(r, b), 1), Times(top, g)), n), Raise(m, 32)), Times(q, g))
        == Plus(Plus(Raise(r, n + 1), Raise(Plus(m, d), 32)), Times(Plus(Raise(top, n), q), g))
  {
    hide *;
    var g := Generator();
    RaisePlus(Raise(Plus(r, b), 1), Times(top, g), n);
    RaiseTwice(Plus(r, b), 1, n);
    RaisePlus(r, b, n + 1);
    TimesRaise(top, g, n);
    TimesPlus(Raise(top, n), q, g);
    RaisePlus(m, d, 32);
    Shuffle(Raise(r, n + 1), Raise(d, 32), Times(Raise(top, n), g), Raise(m, 32), Times(q, g));
  }

  lemma Shuffle(r: Poly, b: Poly, t: Poly, m: Poly, q: Poly)
    ensures Plus(Plus(Plus(Plus(r, b), t), m), q) == Plus(Plus(r, Plus(m, b)), Plus(t, q))
  {
  }

  lemma SameTerm(b: bool, n: nat)
    ensures var p: Poly, r: Poly := if b then {31} else {}, if b then {n} else {};
      Raise(p, n + 1) == Raise(r, 32)
  {
  }

  // ----- the checksum -----

  /** The division whose remainder is the complement of the checksum: the message raised by 32, plus 32 one bits raised
      by its length, which turns its first 32 bits round. */
  ghost predicate Remainder(data: Bytes, r: Poly, q: Poly) {
    Plus(r, Times(q, Generator())) == Plus(Raise(Ones(32), 8 * |data|), Raise(Message(BitString(data)), 32))
  }

  /** A degree below that of the generator. */
  predicate Small(r: Poly) {
    forall e <- r :: e < 32
  }

  lemma AllOnes()
    ensures Register(0xFFFF_FFFF) == Ones(32)
  {
    forall e: nat
      ensures e in Register(0xFFFF_FFFF) <==> e in Ones(32)
    {
      TermIs(0xFFFF_FFFF, e);
      OnesIs(32, e);
      if e < 32 {
        OneBits(31 - e);
      }
    }
  }

  lemma {:induction false} OnesIs(n: nat, e: nat)
    ensures e in Ones(n) <==> e < n
    decreases n
  {
    if n > 0 {
      OnesIs(n - 1, e);
    }
  }

  lemma OneBits(k: nat)
    requires k < 32
    ensures BitAt(0xFFFF_FFFF, k)
  {
    BitIs(0xFFFF_FFFF, k);
    assert Halves(0xFFFF_FFFF, 1) == 0x7FFFFFFF && Halves(0xFFFF_FFFF, 2) == 0x3FFFFFFF;
    assert Halves(0xFFFF_FFFF, 3) == 0x1FFFFFFF && Halves(0xFFFF_FFFF, 4) == 0xFFFFFFF;
    assert Halves(0xFFFF_FFFF, 5) == 0x7FFFFFF && Halves(0xFFFF_FFFF, 6) == 0x3FFFFFF;
    assert Halves(0xFFFF_FFFF, 7) == 0x1FFFFFF && Halves(0xFFFF_FFFF, 8) == 0xFFFFFF;
    assert Halves(0xFFFF_FFFF, 9) == 0x7FFFFF && Halves(0xFFFF_FFFF, 10) == 0x3FFFFF;
    assert Halves(0xFFFF_FFFF, 11) == 0x1FFFFF && Halves(0xFFFF_FFFF, 12) == 0xFFFFF;
    assert Halves(0xFFFF_FFFF, 13) == 0x7FFFF && Halves(0xFFFF_FFFF, 14) == 0x3FFFF;
    assert Halves(0xFFFF_FFFF, 15) == 0x1FFFF && Halves(0xFFFF_FFFF, 16) == 0xFFFF;
    assert Halves(0xFFFF_FFFF, 17) == 0x7FFF && Halves(0xFFFF_FFFF, 18) == 0x3FFF;
    assert Halves(0xFFFF_FFFF, 19) == 0x1FFF && Halves(0xFFFF_FFFF, 20) == 0xFFF;
    assert Halves(0xFFFF_FFFF, 21) == 0x7FF && Halves(0xFFFF_FFFF, 22) == 0x3FF;
    assert Halves(0xFFFF_FFFF, 23) == 0x1FF && Halves(0xFFFF_FFFF, 24) == 0xFF;
    assert Halves(0xFFFF_FFFF, 25) == 0x7F && Halves(0xFFFF_FFFF, 26) == 0x3F;
    assert Halves(0xFFFF_FFFF, 27) == 0x1F && Halves(0xFFFF_FFFF, 28) == 0xF;
    assert Halves(0xFFFF_FFFF, 29) == 0x7 && Halves(0xFFFF_FFFF, 30) == 0x3;
    assert Halves(0xFFFF_FFFF, 31) == 0x1;
  }

  lemma RegisterSmall(c: bv32)
    ensures Small(Register(c))
  {
    forall e <- Register(c)
      ensures e < 32
    {
      TermIs(c, e);
    }
  }

  /** For every message, the complement of the checksum is the remainder. */
  lemma CrcIs(data: Bytes) returns (q: Poly)
    ensures Remainder(data, Register(Xor(Crc32(data), 0xFFFF_FFFF)), q)
  {
    hide *;
    var bits, f := BitString(data), Feed(START, data);
    FeedIsSerial(START, data);
    q := FedIs(START, bits);
    CrcParts(data);
    AllOnes();
    Moved(Plus(Raise(Ones(32), |bits|), Raise(Message(bits), 32)), Times(q, Generator()));
    RemainderIs(data, Register(f), q);
  }

  lemma CrcParts(data: Bytes)
    ensures Xor(Crc32(data), 0xFFFF_FFFF) == Feed(START, data) && START == 0xFFFF_FFFF
    ensures |BitString(data)| == 8 * |data|
  {
    hide Feed, BitString;
    XorLaws(Feed(START, data), 0xFFFF_FFFF, 0xFFFF_FFFF);
    XorLaws(Feed(START, data), 0, 0);
    XorLaws(0xFFFF_FFFF, 0, 0);
  }

  lemma Moved(a: Poly, t: Poly)
    ensures Plus(Plus(a, t), t) == a
  {
  }

  lemma RemainderIs(data: Bytes, r: Poly, q: Poly)
    ensures Remainder(data, r, q) <==>
      Plus(r, Times(q, Generator())) == Plus(Raise(Ones(32), 8 * |data|), Raise(Message(BitString(data)), 32))
  {
  }

  /** Two remainders of a degree below 32 are the same. */
  lemma OneRemainder(data: Bytes, r: Poly, q: Poly, r': Poly, q': Poly)
    requires Remainder(data, r, q) && Remainder(data, r', q') && Small(r) && Small(r')
    ensures r == r' && q == q'
  {
    hide *;
    RemainderIs(data, r, q);
    RemainderIs(data, r', q');
    TimesPlus(q, q', Generator());
    Difference(r, Times(q, Generator()), r', Times(q', Generator()));
    SmallPlus(r, r');
    NoSmallMultiple(Plus(q, q'));
    EqualParts(q, q');
    EqualSums(r, r', Times(q, Generator()));
  }

  lemma Difference(r: Poly, t: Poly, r': Poly, t': Poly)
    requires Plus(r, t) == Plus(r', t')
    ensures Plus(t, t') == Plus(r, r')
  {
    forall e: nat
      ensures e in Plus(t, t') <==> e in Plus(r, r')
    {
      assert e in Plus(r, t) <==> e in Plus(r', t');
    }
  }

  lemma SmallPlus(r: Poly, r': Poly)
    requires Small(r) && Small(r')
    ensures forall e <- Plus(r, r') :: e < 32
  {
  }

  lemma EqualParts(q: Poly, q': Poly)
    requires Plus(q, q') == {}
    ensures q == q'
  {
    forall e: nat
      ensures e in q <==> e in q'
    {
      assert e !in Plus(q, q');
    }
  }

  lemma EqualSums(r: Poly, r': Poly, t: Poly)
    requires Plus(r, t) == Plus(r', t)
    ensures r == r'
  {
    forall e: nat
      ensures e in r <==> e in r'
    {
      assert e in Plus(r, t) <==> e in Plus(r', t);
    }
  }

  lemma HalfAndLow(c: bv32, d: bv32)
    requires Half(c) == Half(d) && Odd(c) == Odd(d)
    ensures c == d
  {
  }

  lemma {:induction false} SameBits(c: bv32, d: bv32, n: nat)
    requires Halves(c, n) == Halves(d, n) && forall k: nat | k < n :: BitAt(c, k) == BitAt(d, k)
    ensures c == d
    decreases n
  {
    if n > 0 {
      BitIs(c, n - 1);
      BitIs(d, n - 1);
      HalfAndLow(Halves(c, n - 1), Halves(d, n - 1));
      hide BitAt, Half, Odd;
      SameBits(c, d, n - 1);
    }
  }

  /** A register is its polynomial. */
  lemma SameRegister(c: bv32, d: bv32)
    requires Register(c) == Register(d)
    ensures c == d
  {
    HalvesEnd(c);
    HalvesEnd(d);
    forall k: nat | k < 32
      ensures BitAt(c, k) == BitAt(d, k)
    {
      TermIs(c, 31 - k);
      TermIs(d, 31 - k);
      hide BitAt, Register;
    }
    hide BitAt, Register, Halves;
    SameBits(c, d, 32);
  }

  /** The checksum of a message is the one word whose complement is the remainder. */
  lemma CrcIff(data: Bytes, c: bv32)
    ensures c == Crc32(data) <==> exists q: Poly :: Remainder(data, Register(Xor(c, 0xFFFF_FFFF)), q)
  {
    hide *;
    var q := CrcIs(data);
    if q': Poly :| Remainder(data, Register(Xor(c, 0xFFFF_FFFF)), q') {
      RegisterSmall(Xor(c, 0xFFFF_FFFF));
      RegisterSmall(Xor(Crc32(data), 0xFFFF_FFFF));
      OneRemainder(data, Register(Xor(c, 0xFFFF_FFFF)), q', Register(Xor(Crc32(data), 0xFFFF_FFFF)), q);
      SameRegister(Xor(c, 0xFFFF_FFFF), Xor(Crc32(data), 0xFFFF_FFFF));
      SameComplement(c, Crc32(data));
    }
  }

  lemma SameComplement(c: bv32, d: bv32)
    requires Xor(c, 0xFFFF_FFFF) == Xor(d, 0xFFFF_FFFF)
    ensures c == d
  {
  }
}
