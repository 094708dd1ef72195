/** What the operations on words are, bit by bit: the opcodes and the machine share these operations. */
module WordLaws {
  import opened Wrappers
  import opened Words

  /** Bit `k` of an integer in two's complement; from the highest bit of a word on, all are its sign. */
  function Bit(x: int, k: nat): bool
    decreases k
  {
    if k == 0 then x % 2 == 1 else Bit(x / 2, k - 1)
  }

  // ----- words and their bits -----

  lemma {:induction false} BitsAdd(x: int, m: int, n: nat, k: nat)
    requires k < n
    ensures Bit(x + m * Pow2(n), k) == Bit(x, k)
    decreases k
  {
    var p := Pow2(n - 1);
    assert m * Pow2(n) == 2 * (m * p);
    Halved(x, m * p);
    if k > 0 {
      BitsAdd(x / 2, m, n - 1, k - 1);
    }
  }

  lemma Halved(x: int, y: int)
    ensures (x + 2 * y) / 2 == x / 2 + y && (x + 2 * y) % 2 == x % 2
  {
  }

  lemma Sixteen()
    ensures Pow2(16) == 0x1_0000
  {
    assert Pow2(4) == 16 && Pow2(8) == 0x100 && Pow2(12) == 0x1000;
  }

  lemma {:induction false} Pow2Add(m: nat, n: nat)
    ensures Pow2(m + n) == Pow2(m) * Pow2(n)
    decreases m
  {
    if m > 0 {
      Pow2Add(m - 1, n);
      Doubled(Pow2(m - 1), Pow2(n));
    }
  }

  lemma Doubled(a: int, b: int)
    ensures 2 * a * b == 2 * (a * b)
  {
  }

  lemma SixtyFour()
    ensures Pow2(64) == TWO_64 && Pow2(63) == TWO_63
  {
    Sixteen();
    Pow2Add(16, 16);
    Pow2Add(32, 32);
    assert Pow2(64) == 2 * Pow2(63);
  }

  /** Wrapping keeps the 64 lowest bits. */
  lemma WrapKeeps(x: int, k: nat)
    requires k < 64
    ensures Bit(Wrap(x), k) == Bit(x, k)
  {
    SixtyFour();
    var m := -((x + TWO_63) / TWO_64);
    assert Wrap(x) == x + m * TWO_64;
    hide Pow2, Wrap;
    BitsAdd(x, m, 64, k);
  }

  lemma {:induction false} SameLow(x: int, y: int, n: nat)
    requires 0 - Pow2(n) <= x < Pow2(n) && 0 - Pow2(n) <= y < Pow2(n)
    requires forall k: nat | k <= n :: Bit(x, k) == Bit(y, k)
    ensures x == y
    decreases n
  {
    assert Bit(x, 0) == Bit(y, 0);
    if n == 0 {
      assert Pow2(0) == 1;
    } else {
      forall k: nat | k <= n - 1
        ensures Bit(x / 2, k) == Bit(y / 2, k)
      {
        assert Bit(x, k + 1) == Bit(y, k + 1);
      }
      assert Pow2(n) == 2 * Pow2(n - 1);
      hide Bit, Pow2;
      SameLow(x / 2, y / 2, n - 1);
    }
  }

  /** A word is its 64 bits. */
  lemma WordIsBits(x: Word, y: Word)
    requires forall k: nat | k < 64 :: Bit(x, k) == Bit(y, k)
    ensures x == y
  {
    SixtyFour();
    hide Pow2, Bit;
    SameLow(x, y, 63);
  }

  lemma {:induction false} HighBits(x: int, n: nat, k: nat)
    requires 0 - Pow2(n) <= x < Pow2(n) && k >= n
    ensures Bit(x, k) == (x < 0)
    decreases k
  {
    if n == 0 {
      assert Pow2(0) == 1;
      if k > 0 {
        HighBits(x / 2, 0, k - 1);
      }
    } else {
      assert Pow2(n) == 2 * Pow2(n - 1);
      hide Pow2;
      HighBits(x / 2, n - 1, k - 1);
    }
  }

  /** The highest bit of a word is its sign, and so are all above it. */
  lemma SignBit(x: Word, k: nat)
    requires k >= 63
    ensures Bit(x, k) == (x < 0)
  {
    SixtyFour();
    hide Pow2, Bit;
    HighBits(x, 63, k);
  }

  // ----- and, or, xor, not -----

  lemma {:induction false} BitsOf(op: BitOp, a: nat, b: nat, k: nat)
    ensures Bit(Bits(op, a, b), k) ==
      match op { case AndBits => Bit(a, k) && Bit(b, k) case OrBits => Bit(a, k) || Bit(b, k)
                 case XorBits => Bit(a, k) != Bit(b, k) }
    decreases k
  {
    if a == 0 && b == 0 {
      NoBits(k);
    } else {
      var x := Bits(op, a / 2, b / 2);
      assert Bits(op, a, b) == 2 * x + BitPair(op, a, b);
      assert (2 * x + BitPair(op, a, b)) / 2 == x;
      if k > 0 {
        BitsOf(op, a / 2, b / 2, k - 1);
      }
    }
  }

  lemma {:induction false} NoBits(k: nat)
    ensures !Bit(0, k)
    decreases k
  {
    if k > 0 {
      NoBits(k - 1);
    }
  }

  lemma UnsignedBits(x: Word, k: nat)
    requires k < 64
    ensures Bit(Unsigned(x), k) == Bit(x, k)
  {
    SixtyFour();
    hide Pow2;
    BitsAdd(x, 1, 64, k);
  }

  /** The bitwise operators work on each of the 64 bits by itself. */
  lemma BitwiseIs(a: Word, b: Word, k: nat)
    requires k < 64
    ensures Bit(Binary(And, a, b).value, k) == (Bit(a, k) && Bit(b, k))
    ensures Bit(Binary(Or, a, b).value, k) == (Bit(a, k) || Bit(b, k))
    ensures Bit(Binary(Xor, a, b).value, k) == (Bit(a, k) != Bit(b, k))
  {
    hide Bit, Bits, Wrap;
    UnsignedBits(a, k);
    UnsignedBits(b, k);
    forall op: BitOp
      ensures Bit(Bitwise(op, a, b), k) == Bit(Bits(op, Unsigned(a), Unsigned(b)), k)
    {
      WrapKeeps(Bits(op, Unsigned(a), Unsigned(b)), k);
    }
    BitsOf(AndBits, Unsigned(a), Unsigned(b), k);
    BitsOf(OrBits, Unsigned(a), Unsigned(b), k);
    BitsOf(XorBits, Unsigned(a), Unsigned(b), k);
  }

  /** And the complement turns every bit round. */
  lemma {:induction false} ComplementIs(a: int, k: nat)
    ensures Bit(-1 - a, k) == !Bit(a, k)
    decreases k
  {
    if k > 0 {
      ComplementIs(a / 2, k - 1);
      assert (-1 - a) / 2 == -1 - a / 2;
    }
  }

  // ----- shifts -----

  lemma {:induction false} LeftBits(a: int, n: nat, k: nat)
    ensures Bit(a * Pow2(n), k) == (k >= n && Bit(a, k - n))
    decreases n
  {
    if n > 0 {
      var y := a * Pow2(n - 1);
      assert a * Pow2(n) == 2 * y;
      if k > 0 {
        LeftBits(a, n - 1, k - 1);
      }
    }
  }

  lemma {:induction false} RightBits(a: int, n: nat, k: nat)
    ensures Bit(a / Pow2(n), k) == Bit(a, k + n)
    decreases n
  {
    if n > 0 {
      HalfFirst(a, Pow2(n - 1));
      hide Pow2;
      RightBits(a / 2, n - 1, k);
    }
  }

  lemma HalfFirst(a: int, p: int)
    requires p > 0
    ensures a / (2 * p) == a / 2 / p
  {
    var q, r := a / 2, a % 2;
    var u, v := q / p, q % p;
    assert a == 2 * p * u + (2 * v + r) by {
      assert q == p * u + v;
      assert 2 * p * u == 2 * (p * u);
    }
    QuotientIs(a, 2 * p, u, 2 * v + r);
  }

  lemma QuotientIs(a: int, d: int, q: int, r: int)
    requires a == d * q + r && 0 <= r < d
    ensures a / d == q
  {
    var e := a / d - q;
    assert d * (a / d) + a % d == a;
    assert d * e == r - a % d;
    Multiple(d, e);
  }

  lemma Multiple(d: int, e: int)
    requires d > 0
    ensures (e >= 1 ==> d * e >= d) && (e <= -1 ==> d * e <= -d)
  {
  }

  /** A left shift moves every bit up and lets zeros in; a right shift moves every bit down and repeats the sign. Only
      the six lowest bits of the count matter. */
  lemma ShiftIs(a: Word, b: Word, k: nat)
    requires k < 64
    ensures var n := b % 64;
      && Bit(Binary(Shl, a, b).value, k) == (k >= n && Bit(a, k - n))
      && Bit(Binary(Shr, a, b).value, k) == if k + n < 64 then Bit(a, k + n) else a < 0
  {
    var n := b % 64;
    hide Bit, Pow2, Wrap;
    WrapKeeps(a * Pow2(n), k);
    LeftBits(a, n, k);
    WrapKeeps(a / Pow2(n), k);
    RightBits(a, n, k);
    if k + n >= 64 {
      SignBit(a, k + n);
    }
  }

  // ----- arithmetic -----

  /** Wrapping changes a number by a multiple of 2^64. */
  lemma WrapIs(x: int)
    ensures exists m: int :: Wrap(x) == x + m * 0x1_0000_0000_0000_0000
  {
    var m := -((x + TWO_63) / TWO_64);
    assert Wrap(x) == x + m * 0x1_0000_0000_0000_0000;
  }

  /** The quotient is rounded toward zero: the remainder is smaller than the divisor and has the dividend's sign. */
  lemma TruncIs(a: int, b: int)
    requires b != 0
    ensures a == TruncDiv(a, b) * b + TruncMod(a, b)
    ensures Abs(TruncMod(a, b)) < Abs(b) && (TruncMod(a, b) == 0 || (TruncMod(a, b) < 0) == (a < 0))
  {
    var q, r := Abs(a) / Abs(b), Abs(a) % Abs(b);
    assert Abs(a) == Abs(b) * q + r;
    if (a < 0) == (b < 0) {
      assert b * q == if b < 0 then -(Abs(b) * q) else Abs(b) * q;
    } else {
      assert b * -q == if b < 0 then Abs(b) * q else -(Abs(b) * q);
    }
  }
}
