/** The runtime's greatest common divisor and least common multiple on 64-bit integers. */
module Gcd {
  import opened Words

  const MIN := -TWO_63

  function Times(d: int, k: int): int {
    d * k
  }

  ghost predicate Factor(d: int, n: int) {
    exists k :: n == Times(d, k)
  }

  /** Euclid's loop on integers of any size, with C's remainder. */
  function Euclid(a: int, b: int): int
    decreases Abs(b)
  {
    if b == 0 then a
    else
      SmallerRemainder(a, b);
      Euclid(b, TruncMod(a, b))
  }

  function GcdOf(a: int, b: int): nat {
    Abs(Euclid(a, b))
  }

  lemma SmallerRemainder(a: int, b: int)
    requires b != 0
    ensures Abs(TruncMod(a, b)) < Abs(b) && Abs(TruncMod(a, b)) <= Abs(a)
  {
    var p, q := Abs(a), Abs(b);
    var m := p / q;
    assert p == q * m + p % q && 0 <= p % q < q;
    assert 0 <= q * m;
    Negated(q, m);
    Negated(m, q);
  }

  lemma Negated(x: int, y: int)
    ensures (-x) * y == -(x * y) && x * (-y) == -(x * y) && (-x) * (-y) == x * y
  {
  }

  /** Coefficients for the value of Euclid's loop. */
  ghost function Bezout(a: int, b: int): (r: (int, int))
    decreases Abs(b)
  {
    if b == 0 then (1, 0)
    else
      SmallerRemainder(a, b);
      var (x, y) := Bezout(b, TruncMod(a, b));
      (y, x - TruncDiv(a, b) * y)
  }

  lemma {:induction false} BezoutWorks(a: int, b: int)
    ensures var (x, y) := Bezout(a, b); a * x + b * y == Euclid(a, b)
    decreases Abs(b)
  {
    hide TruncDiv, Abs;
    if b != 0 {
      SmallerRemainder(a, b);
      BezoutWorks(b, TruncMod(a, b));
      var (x, y) := Bezout(b, TruncMod(a, b));
      var q := TruncDiv(a, b);
      Rearranged(a, b, q, x, y);
    }
  }

  lemma Rearranged(a: int, b: int, q: int, x: int, y: int)
    ensures b * x + (a - b * q) * y == a * y + b * (x - q * y)
  {
  }

  lemma Combined(d: int, k: int, l: int, x: int, y: int)
    ensures Times(d, k) * x + Times(d, l) * y == Times(d, k * x + l * y)
  {
  }

  /** The value divides both. */
  lemma {:induction false} EuclidDivides(a: int, b: int)
    ensures Factor(Euclid(a, b), a) && Factor(Euclid(a, b), b)
    decreases Abs(b)
  {
    hide TruncDiv, Abs;
    if b == 0 {
      assert a == Times(a, 1) && b == Times(a, 0);
    } else {
      SmallerRemainder(a, b);
      EuclidDivides(b, TruncMod(a, b));
      var g, q := Euclid(a, b), TruncDiv(a, b);
      var k :| b == Times(g, k);
      var l :| TruncMod(a, b) == Times(g, l);
      assert a == Times(g, k * q + l) by {
        assert g * k * q + g * l == g * (k * q + l);
      }
    }
  }

  /** It is the greatest common divisor: each common divisor divides it. */
  lemma GcdIs(a: int, b: int)
    ensures Factor(GcdOf(a, b), a) && Factor(GcdOf(a, b), b)
    ensures forall d | Factor(d, a) && Factor(d, b) :: Factor(d, GcdOf(a, b))
    ensures GcdOf(a, b) == 0 <==> a == 0 && b == 0
  {
    hide Euclid, Factor, Bezout;
    EuclidDivides(a, b);
    var g := Euclid(a, b);
    FactorSign(g, a);
    FactorSign(g, b);
    forall d | Factor(d, a) && Factor(d, b)
      ensures Factor(d, GcdOf(a, b))
    {
      CommonFactor(d, a, b);
      SignFactor(d, g);
    }
    ZeroFactor(a);
    ZeroFactor(b);
    BothZero();
    if g == 0 {
      assert Factor(0, a) && Factor(0, b);
    }
  }

  lemma BothZero()
    ensures Euclid(0, 0) == 0
  {
  }

  lemma ZeroFactor(n: int)
    ensures Factor(0, n) <==> n == 0
  {
    assert Times(0, 0) == 0;
  }

  lemma CommonFactor(d: int, a: int, b: int)
    requires Factor(d, a) && Factor(d, b)
    ensures Factor(d, Euclid(a, b))
  {
    hide Euclid, Times, Bezout;
    BezoutWorks(a, b);
    var (x, y) := Bezout(a, b);
    var k :| a == Times(d, k);
    var l :| b == Times(d, l);
    Combined(d, k, l, x, y);
  }

  lemma FactorSign(d: int, n: int)
    requires Factor(d, n)
    ensures Factor(-d, n)
  {
    var k :| n == Times(d, k);
    assert n == Times(-d, -k);
  }

  lemma SignFactor(d: int, n: int)
    requires Factor(d, n)
    ensures Factor(d, -n)
  {
    var k :| n == Times(d, k);
    assert -n == Times(d, -k);
  }

  /** The pairs on which the loop meets a remainder the processor cannot take, or a value whose sign cannot change. */
  predicate Overflows(a: int, b: int) {
    (a == MIN && (b == MIN || b == -1 || b == 0)) || (b == MIN && (a == -1 || a == 0))
  }

  /** Short of these pairs every remainder is one the processor can take, and the result is the greatest common
      divisor. */
  method Gcd(a: Word, b: Word) returns (r: Word)
    requires !Overflows(a, b)
    ensures r == GcdOf(a, b)
  {
    hide Euclid, TruncMod, TruncDiv;
    var x: Word, y: Word := a, b;
    while y != 0
      invariant !Overflows(x, y) && Euclid(x, y) == Euclid(a, b)
      decreases Abs(y)
    {
      CanDivide(x, y);
      assert Divides(x, y);
      SmallerRemainder(x, y);
      EuclidStep(x, y);
      StillFits(x, y);
      var t := y;
      y := TruncMod(x, y);
      x := t;
    }
    EuclidEnd(x);
    r := if x < 0 then -x else x;
  }

  lemma EuclidStep(x: int, y: int)
    requires y != 0
    ensures Euclid(x, y) == Euclid(y, TruncMod(x, y))
  {
  }

  lemma EuclidEnd(x: int)
    ensures Euclid(x, 0) == x
  {
  }

  lemma CanDivide(x: Word, y: Word)
    requires y != 0 && !(x == MIN && y == -1)
    ensures Divides(x, y)
  {
    var p, q := Abs(x), Abs(y);
    if q > 1 {
      HalfAtMost(p, q);
    }
  }

  lemma HalfAtMost(p: nat, q: nat)
    requires q > 1
    ensures 0 <= 2 * (p / q) <= p
  {
    var m := p / q;
    assert p == q * m + p % q;
    Grows(m, q - 1);
    Grows(m, q - 2);
  }

  lemma StillFits(x: Word, y: Word)
    requires y != 0 && !Overflows(x, y)
    ensures !Overflows(y, TruncMod(x, y))
  {
    SmallerRemainder(x, y);
    if y == MIN {
      SmallDividend(x, y);
    }
  }

  lemma SmallDividend(x: int, y: int)
    requires Abs(x) < Abs(y)
    ensures TruncMod(x, y) == x
  {
    assert Abs(x) / Abs(y) == 0;
  }

  /** Does the loop from `x` and `y` meet a remainder the processor cannot take, or end with a value whose sign cannot
      change? */
  predicate LoopFaults(x: Word, y: Word)
    decreases Abs(y)
  {
    if y == 0 then x == MIN
    else
      SmallerRemainder(x, y);
      !Divides(x, y) || LoopFaults(y, TruncMod(x, y))
  }

  /** It does on the pairs of `Overflows`, and on no others. */
  lemma {:induction false} FaultsIff(x: Word, y: Word)
    ensures LoopFaults(x, y) <==> Overflows(x, y)
    decreases Abs(y)
  {
    hide TruncMod, TruncDiv;
    if y != 0 {
      SmallerRemainder(x, y);
      if x == MIN && y == -1 {
        LeastByMinusOne();
      } else {
        CanDivide(x, y);
        FaultsIff(y, TruncMod(x, y));
        if !Overflows(x, y) {
          StillFits(x, y);
        } else if x == MIN {
          SelfRemainder(MIN);
        } else {
          SmallDividend(x, y);
        }
      }
    }
  }

  lemma LeastByMinusOne()
    ensures !Divides(MIN, -1)
  {
  }

  lemma SelfRemainder(x: int)
    requires x != 0
    ensures TruncMod(x, x) == 0
  {
  }

  // ----- least common multiple -----

  /** `a / gcd * b` without overflow. */
  function LcmOf(a: int, b: int): int
    requires GcdOf(a, b) != 0
  {
    TruncDiv(a, GcdOf(a, b)) * b
  }

  lemma ExactDiv(g: int, k: int)
    requires g > 0
    ensures TruncDiv(Times(g, k), g) == k
  {
    var n := Times(g, k);
    if k >= 0 {
      PositiveDiv(g, k);
    } else {
      PositiveDiv(g, -k);
      Negated(g, k);
      assert n < 0 && Abs(n) == g * (-k);
    }
  }

  lemma PositiveDiv(g: int, k: int)
    requires g > 0 && k >= 0
    ensures g * k >= 0 && (g * k) / g == k
  {
    var n := g * k;
    var q := n / g;
    assert n == g * q + n % g;
    assert g * (k - q) == g * k - g * q;
    Between(g, k - q);
  }

  lemma Between(g: int, d: int)
    requires 0 <= g * d < g
    ensures d == 0
  {
    if d >= 1 {
      Grows(g, d - 1);
    } else if d <= -1 {
      Negated(g, d);
      Grows(g, -d - 1);
    }
  }

  lemma Grows(g: int, n: int)
    requires g >= 0 && n >= 0
    ensures g * (n + 1) == g * n + g && g * n >= 0
  {
  }

  /** Every common multiple is a multiple of the result, which is one itself. */
  lemma LcmIs(a: int, b: int)
    requires GcdOf(a, b) != 0
    ensures Factor(a, LcmOf(a, b)) && Factor(b, LcmOf(a, b))
    ensures forall m | Factor(a, m) && Factor(b, m) :: Factor(LcmOf(a, b), m)
  {
    hide Euclid, Factor, TruncDiv;
    GcdIs(a, b);
    var g := GcdOf(a, b);
    var k, l := Cofactor(g, a), Cofactor(g, b);
    ExactDiv(g, k);
    Multiples(g, k, l);
    forall m | Factor(a, m) && Factor(b, m)
      ensures Factor(LcmOf(a, b), m)
    {
      LeastMultiple(a, b, k, m);
    }
  }

  ghost function Cofactor(g: int, n: int): (k: int)
    requires Factor(g, n)
    ensures n == Times(g, k)
  {
    var k :| n == Times(g, k);
    k
  }

  lemma Multiples(g: int, k: int, l: int)
    ensures Factor(Times(g, k), k * Times(g, l)) && Factor(Times(g, l), k * Times(g, l))
  {
    assert k * Times(g, l) == Times(Times(g, k), l);
    assert k * Times(g, l) == Times(Times(g, l), k);
  }

  lemma LeastMultiple(a: int, b: int, k: int, m: int)
    requires GcdOf(a, b) != 0 && a == Times(GcdOf(a, b), k) && Factor(a, m) && Factor(b, m)
    ensures Factor(k * b, m)
  {
    hide Euclid, Bezout;
    var g := GcdOf(a, b);
    BezoutWorks(a, b);
    var (x, y) := Bezout(a, b);
    if Euclid(a, b) < 0 {
      x, y := -x, -y;
    }
    assert a * x + b * y == g;
    var p :| m == Times(a, p);
    var q :| m == Times(b, q);
    LeastArithmetic(a, b, g, k, x, y, m, p, q);
    assert m == Times(k * b, q * x + p * y);
  }

  lemma LeastArithmetic(a: int, b: int, g: int, k: int, x: int, y: int, m: int, p: int, q: int)
    requires g != 0 && a == g * k && a * x + b * y == g && m == a * p && m == b * q
    ensures m == (k * b) * (q * x + p * y)
  {
    assert m * g == m * (a * x) + m * (b * y) == (b * q) * (a * x) + (a * p) * (b * y);
    assert (b * q) * (a * x) + (a * p) * (b * y) == a * (b * (q * x + p * y));
    assert a * (b * (q * x + p * y)) == g * ((k * b) * (q * x + p * y));
    Cancel(g, m, (k * b) * (q * x + p * y));
  }

  lemma Cancel(g: int, x: int, y: int)
    requires g != 0 && x * g == g * y
    ensures x == y
  {
  }

  /** Two zeros are a division by zero in the source. */
  method Lcm(a: Word, b: Word) returns (r: Word)
    requires !Overflows(a, b) && (a != 0 || b != 0)
    requires GcdOf(a, b) != 0 ==> -TWO_63 <= LcmOf(a, b) < TWO_63
    ensures GcdOf(a, b) != 0 && r == LcmOf(a, b)
  {
    hide Euclid, TruncDiv;
    GcdIs(a, b);
    var g := Gcd(a, b);
    r := TruncDiv(a, g) * b;
  }
}
