/** Counting loops: how many times a `for ... in range(...)` runs its body and for which values, and exactly when the
    compiled loop, which always tests `<` and adds modulo 2^64, walks the range that Python means. */
module ForRange {
  import opened Words
  import opened Wrappers
  import opened Python

  // ----- ranges -----

  /** The elements of `range(start, stop, step)` for a positive step. */
  function RangeElements(start: int, stop: int, step: int): seq<int>
    requires step > 0
    decreases stop - start
  {
    if start < stop then [start] + RangeElements(start + step, stop, step) else []
  }

  /** The first element of the progression that is not below `stop`. */
  function RangeEnd(start: int, stop: int, step: int): (end: int)
    requires step > 0
    ensures end >= start && end >= stop
    decreases stop - start
  {
    if start < stop then RangeEnd(start + step, stop, step) else start
  }

  // ----- the closed form -----

  /** How many elements a range with a positive step has: the quotient rounded up. */
  function Count(start: int, stop: int, step: int): nat
    requires step > 0
  {
    if start < stop then (stop - start + step - 1) / step else 0
  }

  lemma OneMoreStep(a: int, step: int)
    requires step > 0
    ensures (a + step) / step == a / step + 1
  {
    var q, r := a / step, a % step;
    assert a + step == (q + 1) * step + r;
    QuotientIs(a + step, step, q + 1, r);
  }

  lemma Multiples(d: int, step: int)
    requires step > 0
    ensures d >= 1 ==> d * step >= step
    ensures d <= -1 ==> d * step <= -step
  {
    if d >= 1 {
      assert (d - 1) * step >= 0;
    } else if d <= -1 {
      assert (-d - 1) * step >= 0;
    }
  }

  lemma QuotientIs(a: int, step: int, q: int, r: int)
    requires step > 0 && 0 <= r < step && a == q * step + r
    ensures a / step == q
  {
    var q', r' := a / step, a % step;
    assert (q' - q) * step == r - r';
    Multiples(q' - q, step);
  }

  lemma CountNext(start: int, stop: int, step: int)
    requires step > 0 && start < stop
    ensures Count(start, stop, step) == Count(start + step, stop, step) + 1
  {
    var a := stop - start - 1;
    OneMoreStep(a, step);
    if start + step >= stop {
      QuotientIs(a, step, 0, a);
    }
  }

  lemma OneLess(start: int, step: int, k: int)
    ensures start + step + (k - 1) * step == start + k * step
  {
  }

  /** The elements are `start`, `start + step`, ..., as many as the quotient says; the progression leaves the range
      right after them. */
  lemma {:induction false} RangeClosed(start: int, stop: int, step: int)
    requires step > 0
    ensures var n := Count(start, stop, step);
      && |RangeElements(start, stop, step)| == n
      && (forall k | 0 <= k < n :: RangeElements(start, stop, step)[k] == start + k * step)
      && RangeEnd(start, stop, step) == start + n * step
    decreases stop - start
  {
    if start < stop {
      CountNext(start, stop, step);
      RangeClosed(start + step, stop, step);
      var n := Count(start, stop, step);
      forall k | 0 <= k < n
        ensures RangeElements(start, stop, step)[k] == start + k * step
      {
        if k > 0 {
          assert RangeElements(start, stop, step)[k] == RangeElements(start + step, stop, step)[k - 1];
          OneLess(start, step, k);
        }
      }
      OneLess(start, step, n);
    }
  }

  // ----- the compiled loop -----

  /** The values a compiled loop stores in its variable, when it ends within `n` passes: test `cmp_lt`, next `add`. */
  function Visits(cur: Word, stop: Word, step: Word, n: nat): Option<seq<int>>
    decreases n
  {
    if Binary(CmpLt, cur, stop) != Some(1) then Some([])
    else if n == 0 then None
    else
      var rest := Visits(Binary(Add, cur, step).value, stop, step, n - 1);
      if rest.Some? then Some([cur] + rest.value) else None
  }

  /** The elements of a range with a negative step. */
  function Descending(start: int, stop: int, step: int): seq<int>
    requires step < 0
    decreases start - stop
  {
    if start > stop then [start] + Descending(start + step, stop, step) else []
  }

  /** `range` as Python defines it; a step of 0 is an error. */
  function PythonRange(start: int, stop: int, step: int): Option<seq<int>> {
    if step > 0 then Some(RangeElements(start, stop, step))
    else if step < 0 then Some(Descending(start, stop, step))
    else None
  }

  ghost predicate WalksPythonRange(start: Word, stop: Word, step: Word) {
    PythonRange(start, stop, step).Some? &&
    exists n: nat :: Visits(start, stop, step, n) == PythonRange(start, stop, step)
  }

  lemma {:induction false} WalksAll(start: Word, stop: Word, step: Word)
    requires step > 0 && RangeEnd(start, stop, step) < TWO_63
    ensures Visits(start, stop, step, |RangeElements(start, stop, step)|) == Some(RangeElements(start, stop, step))
    decreases stop - start
  {
    if start < stop {
      assert Wrap(start + step) == start + step;
      WalksAll(start + step, stop, step);
      assert RangeElements(start, stop, step)[1..] == RangeElements(start + step, stop, step);
    }
  }

  lemma ConsDiffers(x: int, a: seq<int>, b: seq<int>)
    requires a != b
    ensures [x] + a != [x] + b
  {
    assert ([x] + a)[1..] == a && ([x] + b)[1..] == b;
  }

  /** When the progression runs past the largest word, the wrapped index is below `stop` again: the loop makes another
      pass after Python's last. */
  lemma {:induction false} WrapsAround(start: Word, stop: Word, step: Word, n: nat)
    requires step > 0 && RangeEnd(start, stop, step) >= TWO_63
    ensures Visits(start, stop, step, n) != Some(RangeElements(start, stop, step))
    decreases stop - start
  {
    if n > 0 {
      var next := Wrap(start + step);
      assert Binary(Add, start, step) == Some(next);
      var rest := Visits(next, stop, step, n - 1);
      assert RangeElements(start, stop, step) == [start] + RangeElements(start + step, stop, step);
      if start + step < TWO_63 {
        assert next == start + step;
        WrapsAround(next, stop, step, n - 1);
      } else {
        assert next == start + step - TWO_64 && next < stop;
        assert RangeElements(start + step, stop, step) == [];
        assert rest != Some([]);
      }
      if rest.Some? {
        ConsDiffers(start, rest.value, RangeElements(start + step, stop, step));
      }
    }
  }

  /** The compiled loop walks Python's range exactly when the step is positive and the progression does not run past the
      largest word, or when the step is negative and the range is empty because both ends are equal. */
  lemma WalksIff(start: Word, stop: Word, step: Word)
    ensures WalksPythonRange(start, stop, step)
      <==> (step > 0 && start + Count(start, stop, step) * step < TWO_63) || (step < 0 && start == stop)
  {
    if step > 0 {
      RangeClosed(start, stop, step);
      if RangeEnd(start, stop, step) < TWO_63 {
        WalksAll(start, stop, step);
      } else {
        forall n: nat
          ensures Visits(start, stop, step, n) != PythonRange(start, stop, step)
        {
          WrapsAround(start, stop, step, n);
        }
      }
    } else if step < 0 {
      if start == stop {
        assert Visits(start, stop, step, 0) == PythonRange(start, stop, step);
      } else {
        forall n: nat
          ensures Visits(start, stop, step, n) != PythonRange(start, stop, step)
        {
          assert start < stop ==> n == 0 || Visits(start, stop, step, n) != Some([]);
        }
      }
    }
  }

  lemma NoPass(start: Word, stop: Word, step: Word, n: nat)
    requires start >= stop
    ensures Visits(start, stop, step, n) == Some([])
  {
  }

  /** Counting down, the compiled loop never runs its body, where Python's does. */
  lemma DownwardFails(start: Word, stop: Word, step: Word)
    requires step < 0 && start > stop
    ensures PythonRange(start, stop, step).Some? && |PythonRange(start, stop, step).value| > 0
    ensures forall n: nat :: Visits(start, stop, step, n) == Some([])
  {
    assert Descending(start, stop, step) == [start] + Descending(start + step, stop, step);
    forall n: nat
      ensures Visits(start, stop, step, n) == Some([])
    {
      NoPass(start, stop, step, n);
    }
  }

  // ----- statements -----

  /** What Python means by a `for` over some elements: the body once for each, whatever it assigns to the variable. */
  function ExecElements(F: CallEnv, x: string, elements: seq<int>, body: seq<Stmt>, env: Env, fuel: nat): Outcome
    decreases |elements|
  {
    if elements == [] then Next(env)
    else (
      match ExecAll(F, body, env[x := Wrap(elements[0])], fuel)
      case Next(env') => Later(ExecElements(F, x, elements[1..], body, env', fuel))
      case Continued(env') => Later(ExecElements(F, x, elements[1..], body, env', fuel))
      case Broke(env') => Next(env')
      case Returned(v) => Returned(v)
      case Crash(y) => Crash(y)
      case NoClaim => NoClaim
      case OutOfTime(n) => OutOfTime(n)
    )
  }

  /** The compiled loop runs its body for the values `Visits` lists, for every start, stop and step and every body. */
  lemma {:induction false} LoopVisits(F: CallEnv, x: string, i: Word, stop: Word, step: Word, body: seq<Stmt>, env: Env,
                                      fuel: nat, passes: nat)
    requires Visits(i, stop, step, passes).Some?
    ensures ExecLoop(F, x, i, stop, step, body, env, fuel, passes)
      == ExecElements(F, x, Visits(i, stop, step, passes).value, body, env, fuel)
    decreases passes
  {
    hide ExecAll;
    if i < stop {
      var next := Wrap(i + step);
      var o := ExecAll(F, body, env[x := i], fuel);
      var rest := Visits(next, stop, step, passes - 1).value;
      assert Wrap(i) == i;
      assert ([i as int] + rest)[1..] == rest;
      if o.Next? || o.Continued? {
        LoopVisits(F, x, next, stop, step, body, o.env, fuel, passes - 1);
      }
    }
  }

  lemma {:induction false} MorePasses(i: Word, stop: Word, step: Word, n: nat, more: nat)
    requires n <= more && Visits(i, stop, step, n).Some?
    ensures Visits(i, stop, step, more) == Visits(i, stop, step, n)
    decreases n
  {
    if i < stop {
      MorePasses(Wrap(i + step), stop, step, n - 1, more - 1);
    }
  }

  /** With a positive step and no overflow, a compiled `for` runs its body for the elements of Python's range: exactly
      `Count` times, for `start`, `start + step`, ..., unless the body breaks or returns. */
  lemma LoopIsPython(F: CallEnv, x: string, start: Word, stop: Word, step: Word, body: seq<Stmt>, env: Env, fuel: nat,
                     passes: nat)
    requires step > 0 && start + Count(start, stop, step) * step < TWO_63 && passes >= Count(start, stop, step)
    ensures ExecLoop(F, x, start, stop, step, body, env, fuel, passes)
      == ExecElements(F, x, RangeElements(start, stop, step), body, env, fuel)
  {
    hide ExecAll, ExecLoop, ExecElements;
    RangeClosed(start, stop, step);
    WalksAll(start, stop, step);
    MorePasses(start, stop, step, Count(start, stop, step), passes);
    LoopVisits(F, x, start, stop, step, body, env, fuel, passes);
  }

  /** `if i < 0: return 1` */
  function NegativeReturns(): seq<Stmt> {
    [If(Compare(Var("i"), [CmpLt], [IntLit(0)]), [Return(Some(IntLit(1)))], [], [])]
  }

  lemma NegativeIs(F: CallEnv, i: Word, fuel: nat)
    ensures ExecAll(F, NegativeReturns(), map["i" := i], fuel) == if i < 0 then Returned(1) else Next(map["i" := i])
  {
    var env: Env := map["i" := i];
    var s := NegativeReturns()[0];
    var zero: seq<Word> := [0];
    assert NegativeReturns()[1..] == [] && s.body[1..] == [];
    assert EvalAll(F, [IntLit(0)], env) == Val(zero) by {
      assert [IntLit(0)][1..] == [] && zero == [zero[0]] + [];
    }
    assert zero[1..] == [];
    assert EvalExpr(F, s.test, env) == Val(BoolWord(ChainHolds(i, [CmpLt], zero)));
    assert ExecAll(F, s.body, env, fuel) == Returned(1);
    assert ExecElifs(F, s, 0, env, fuel) == Next(env);
  }

  /** Past the largest word the index wraps around: `range(2^63 - 2, 2^63 - 1, 2)` has one element, and the
      compiled loop goes on with the least word, which this body tells. */
  lemma OverflowFails(F: CallEnv, fuel: nat, passes: nat)
    requires passes >= 2
    ensures RangeElements(TWO_63 - 2, TWO_63 - 1, 2) == [TWO_63 - 2]
    ensures ExecElements(F, "i", [TWO_63 - 2], NegativeReturns(), map[], fuel) == Next(map["i" := TWO_63 - 2])
    ensures ExecLoop(F, "i", TWO_63 - 2, TWO_63 - 1, 2, NegativeReturns(), map[], fuel, passes) == Returned(1)
  {
    NegativeIs(F, TWO_63 - 2, fuel);
    NegativeIs(F, -TWO_63, fuel);
    hide ExecAll, NegativeReturns;
    var env: Env := map["i" := TWO_63 - 2];
    assert map[]["i" := TWO_63 - 2] == env && env["i" := -TWO_63] == map["i" := -TWO_63];
    assert Wrap(TWO_63 - 2 + 2) == -TWO_63 && Wrap(TWO_63 - 2) == TWO_63 - 2;
    assert ExecLoop(F, "i", -TWO_63, TWO_63 - 1, 2, NegativeReturns(), env, fuel, passes - 1) == Returned(1);
    assert [TWO_63 - 2][1..] == [];
    assert RangeElements(TWO_63, TWO_63 - 1, 2) == [];
  }
}
