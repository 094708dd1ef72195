/** The dry-run slot count always suffices, and no two names or temporaries share a slot. */
module BackendSlots {
  import opened IR
  import opened IRCheck
  import opened Words
  import opened Wrappers
  import opened Backend

  /** `off` is the offset of one of the first `n` slots. */
  predicate IsSlot(off: nat, n: nat) {
    off % 8 == 0 && 8 <= off <= n * 8
  }

  /** Every offset is one of the slots handed out, and no two are the same. */
  predicate Laid(a: Slots) {
    && (forall x <- a.vars :: IsSlot(a.vars[x], a.idx))
    && (forall t <- a.tmps :: IsSlot(a.tmps[t], a.idx))
    && (forall x <- a.vars, y <- a.vars :: a.vars[x] == a.vars[y] ==> x == y)
    && (forall t <- a.tmps, u <- a.tmps :: a.tmps[t] == a.tmps[u] ==> t == u)
    && (forall x <- a.vars, t <- a.tmps :: a.vars[x] != a.tmps[t])
  }

  /** What has a slot keeps it. */
  predicate Keeps(a: Slots, b: Slots) {
    && (forall x <- a.vars :: x in b.vars && b.vars[x] == a.vars[x])
    && (forall t <- a.tmps :: t in b.tmps && b.tmps[t] == a.tmps[t])
  }

  /** The slots that no name and no temporary has: those of repeated parameters. */
  function Spare(a: Slots): int {
    a.idx - |a.vars.Keys| - |a.tmps.Keys|
  }

  /** The slots grow as they should, for the names and temporaries in `xs` and `ts`. */
  predicate Onward(a: Slots, b: Slots, xs: set<Name>, ts: set<nat>) {
    && Keeps(a, b)
    && (Laid(a) ==> Laid(b))
    && Spare(a) == Spare(b)
    && b.vars.Keys <= a.vars.Keys + xs
    && b.tmps.Keys <= a.tmps.Keys + ts
  }

  lemma OnwardTrans(a: Slots, b: Slots, c: Slots, xs: set<Name>, ts: set<nat>)
    requires Onward(a, b, xs, ts) && Onward(b, c, xs, ts)
    ensures Onward(a, c, xs, ts)
  {
  }

  lemma OnwardWider(a: Slots, b: Slots, xs: set<Name>, ts: set<nat>, xs': set<Name>, ts': set<nat>)
    requires Onward(a, b, xs, ts) && xs <= xs' && ts <= ts'
    ensures Onward(a, b, xs', ts')
  {
  }

  lemma AllocLaid(a: Slots, x: Name)
    requires Laid(a)
    ensures Laid(AllocLocal(a, x))
  {
    var b := AllocLocal(a, x);
    forall y <- b.vars
      ensures IsSlot(b.vars[y], b.idx)
    {
      if y != x {
        assert IsSlot(a.vars[y], a.idx);
      }
    }
  }

  lemma TempLaid(a: Slots, t: nat)
    requires Laid(a) && t !in a.tmps
    ensures Laid(TouchTemp(a, t))
  {
    var b := TouchTemp(a, t);
    forall u <- b.tmps
      ensures IsSlot(b.tmps[u], b.idx)
    {
      if u != t {
        assert IsSlot(a.tmps[u], a.idx);
      }
    }
  }

  lemma NameSpare(a: Slots, x: Name)
    requires x !in a.vars
    ensures Keeps(a, AllocLocal(a, x)) && Spare(AllocLocal(a, x)) == Spare(a)
    ensures AllocLocal(a, x).vars.Keys == a.vars.Keys + {x}
  {
    var b := AllocLocal(a, x);
    assert b.vars.Keys == a.vars.Keys + {x};
  }

  lemma TempSpare(a: Slots, t: nat)
    requires t !in a.tmps
    ensures Keeps(a, TouchTemp(a, t)) && Spare(TouchTemp(a, t)) == Spare(a)
    ensures TouchTemp(a, t).tmps.Keys == a.tmps.Keys + {t}
  {
    var b := TouchTemp(a, t);
    assert b.tmps.Keys == a.tmps.Keys + {t};
  }

  lemma NameOnward(a: Slots, x: Name)
    ensures Onward(a, TouchName(a, x), {x}, {}) && x in TouchName(a, x).vars
  {
    if x !in a.vars {
      NameSpare(a, x);
      hide Laid, Keeps, Spare;
      if Laid(a) {
        AllocLaid(a, x);
      }
    }
  }

  lemma TempOnward(a: Slots, t: nat)
    ensures Onward(a, TouchTemp(a, t), {}, {t}) && t in TouchTemp(a, t).tmps
  {
    if t !in a.tmps {
      TempSpare(a, t);
      hide Laid, Keeps, Spare;
      if Laid(a) {
        TempLaid(a, t);
      }
    }
  }

  lemma OperandOnward(a: Slots, o: Operand)
    ensures Onward(a, TouchOperand(a, o), {}, IRCheck.TempsOf(o)) && (o.Tmp? ==> o.t in TouchOperand(a, o).tmps)
  {
    if o.Tmp? {
      TempOnward(a, o.t);
    }
  }

  lemma OperandTemps(os: seq<Operand>)
    requires os != []
    ensures IRCheck.TempsOf(os[0]) <= TempsOfAll(os) && TempsOfAll(os[1..]) <= TempsOfAll(os)
    ensures forall o <- os :: o == os[0] || o in os[1..]
  {
    assert os == [os[0]] + os[1..];
  }

  lemma OnwardTemps(a: Slots, b: Slots, xs: set<Name>, ts: set<nat>)
    requires Onward(a, b, xs, ts)
    ensures a.tmps.Keys <= b.tmps.Keys
  {
    hide Laid, Spare;
  }

  lemma {:induction false} OperandsOnward(a: Slots, os: seq<Operand>)
    ensures Onward(a, TouchOperands(a, os), {}, TempsOfAll(os))
    ensures forall o <- os :: o.Tmp? ==> o.t in TouchOperands(a, os).tmps
    decreases |os|
  {
    hide Onward, Keeps, Laid, Spare, TouchOperand;
    OnwardRefl(a, {}, TempsOfAll(os));
    if os != [] {
      var b := TouchOperand(a, os[0]);
      OperandOnward(a, os[0]);
      OperandsOnward(b, os[1..]);
      OperandTemps(os);
      OnwardTemps(b, TouchOperands(a, os), {}, TempsOfAll(os[1..]));
      OnwardWider(a, b, {}, IRCheck.TempsOf(os[0]), {}, TempsOfAll(os));
      OnwardWider(b, TouchOperands(a, os), {}, TempsOfAll(os[1..]), {}, TempsOfAll(os));
      OnwardTrans(a, b, TouchOperands(a, os), {}, TempsOfAll(os));
    }
  }

  /** The operands of an instruction that have a slot after it. */
  lemma TouchOnward(abi: Abi, a: Slots, i: Instr)
    ensures Onward(a, Touch(abi, a, i), NamesOf(i), Backend.TempsOf(i))
  {
    hide Onward, Laid, Keeps, Spare, TouchOperand, TouchTemp, TouchName;
    var xs, ts := NamesOf(i), Backend.TempsOf(i);
    var b := Touch(abi, a, i);
    OnwardRefl(a, xs, ts);
    match i
    case Const(t, _) => TempWide(a, t, xs, ts);
    case Alloca(x) => NameWide(a, x, xs, ts);
    case Load(t, _) => TempWide(a, t, xs, ts);
    case Store(o, x) =>
      OperandWide(a, o, xs, ts);
      NameWide(TouchOperand(a, o), x, xs, ts);
      OnwardTrans(a, TouchOperand(a, o), b, xs, ts);
    case Bin(_, t, l, r) =>
      var a1 := TouchOperand(a, l);
      var a2 := TouchOperand(a1, r);
      OperandWide(a, l, xs, ts);
      OperandWide(a1, r, xs, ts);
      TempWide(a2, t, xs, ts);
      OnwardTrans(a, a1, a2, xs, ts);
      OnwardTrans(a, a2, b, xs, ts);
    case Un(_, t, o) =>
      OperandWide(a, o, xs, ts);
      TempWide(TouchOperand(a, o), t, xs, ts);
      OnwardTrans(a, TouchOperand(a, o), b, xs, ts);
    case Select(t, c, l, r) =>
      var a1 := TouchOperand(a, c);
      var a2 := TouchOperand(a1, l);
      var a3 := TouchOperand(a2, r);
      OperandWide(a, c, xs, ts);
      OperandWide(a1, l, xs, ts);
      OperandWide(a2, r, xs, ts);
      TempWide(a3, t, xs, ts);
      OnwardTrans(a, a1, a2, xs, ts);
      OnwardTrans(a, a2, a3, xs, ts);
      OnwardTrans(a, a3, b, xs, ts);
    case Label(_) =>
    case Jmp(_) =>
    case Jz(c, _) => OperandWide(a, c, xs, ts);
    case Jnz(c, _) => OperandWide(a, c, xs, ts);
    case Call(t, _, args) =>
      var ps := Passed(abi, args);
      var a1 := TouchOperands(a, ps);
      OperandsOnward(a, ps);
      assert TempsOfAll(ps) <= TempsOfAll(args);
      OnwardWider(a, a1, {}, TempsOfAll(ps), xs, ts);
      TempWide(a1, t, xs, ts);
      OnwardTrans(a, a1, b, xs, ts);
    case Ret(o) => OperandWide(a, o, xs, ts);
  }

  lemma OnwardRefl(a: Slots, xs: set<Name>, ts: set<nat>)
    ensures Onward(a, a, xs, ts)
  {
  }

  lemma NameWide(a: Slots, x: Name, xs: set<Name>, ts: set<nat>)
    requires x in xs
    ensures Onward(a, TouchName(a, x), xs, ts)
  {
    NameOnward(a, x);
    OnwardWider(a, TouchName(a, x), {x}, {}, xs, ts);
  }

  lemma TempWide(a: Slots, t: nat, xs: set<Name>, ts: set<nat>)
    requires t in ts
    ensures Onward(a, TouchTemp(a, t), xs, ts)
  {
    TempOnward(a, t);
    OnwardWider(a, TouchTemp(a, t), {}, {t}, xs, ts);
  }

  lemma OperandWide(a: Slots, o: Operand, xs: set<Name>, ts: set<nat>)
    requires IRCheck.TempsOf(o) <= ts
    ensures Onward(a, TouchOperand(a, o), xs, ts)
  {
    OperandOnward(a, o);
    OnwardWider(a, TouchOperand(a, o), {}, IRCheck.TempsOf(o), xs, ts);
  }

  lemma {:induction false} AfterOnward(abi: Abi, a: Slots, code: Code)
    ensures Onward(a, SlotsAfter(abi, a, code), NamesIn(code), TempsIn(code))
    decreases |code|
  {
    hide Onward;
    var xs, ts := NamesIn(code), TempsIn(code);
    if code == [] {
      OnwardRefl(a, xs, ts);
    } else {
      var front, i := code[..|code| - 1], code[|code| - 1];
      var b := SlotsAfter(abi, a, front);
      AfterOnward(abi, a, front);
      TouchOnward(abi, b, i);
      OnwardWider(a, b, NamesIn(front), TempsIn(front), xs, ts);
      OnwardWider(b, Touch(abi, b, i), NamesOf(i), Backend.TempsOf(i), xs, ts);
      OnwardTrans(a, b, Touch(abi, b, i), xs, ts);
    }
  }

  lemma {:induction false} ParamsLaid(ps: seq<string>)
    ensures var a := ParamSlots(ps);
      && Laid(a) && a.idx == |ps| && a.tmps == map[] && a.vars.Keys == (set p <- ps :: Local(p))
    decreases |ps|
  {
    if ps != [] {
      var front, p := ps[..|ps| - 1], ps[|ps| - 1];
      ParamsLaid(front);
      AllocLaid(ParamSlots(front), Local(p));
      hide Laid;
      assert ps == front + [p];
      assert ParamSlots(ps).vars.Keys == ParamSlots(front).vars.Keys + {Local(p)};
    }
  }

  lemma {:induction false} SubsetSize<T>(a: set<T>, b: set<T>)
    requires a <= b
    ensures |a| <= |b|
    decreases |a|
  {
    if a != {} {
      var x :| x in a;
      SubsetSize(a - {x}, b - {x});
    }
  }

  lemma FrameRounds(f: IRFunc)
    ensures FrameSize(f) % 16 == 0 && FrameSize(f) >= CountSlots(f) * 8
  {
  }

  /** The slots of repeated parameters are at most those of all parameters but one. */
  lemma SpareAtStart(ps: seq<string>, n: nat)
    requires |ps| <= n
    ensures Spare(ParamSlots(ps)) <= if n == 0 then 0 else n - 1
  {
    ParamsLaid(ps);
    if ps != [] {
      SubsetSize({Local(ps[0])}, ParamSlots(ps).vars.Keys);
    }
  }

  /** For every IR function, repeated parameters included, the slots handed out while emitting it fit the count made
      beforehand: all offsets are distinct, and lie in the frame, whose size is a multiple of 16. */
  lemma FrameHolds(abi: Abi, f: IRFunc)
    requires |abi.regs| <= 9
    ensures var a := FuncSlots(abi, f);
      && Laid(a)
      && a.idx <= CountSlots(f)
      && FrameSize(f) % 16 == 0
      && (forall x <- a.vars :: 8 <= a.vars[x] <= FrameSize(f))
      && (forall t <- a.tmps :: 8 <= a.tmps[t] <= FrameSize(f))
  {
    var ps := Bound(abi, f.params);
    var a0, a := ParamSlots(ps), FuncSlots(abi, f);
    var names := (set p <- f.params :: Local(p)) + NamesIn(f.code);
    ParamsLaid(ps);
    SpareAtStart(ps, 9);
    AfterOnward(abi, a0, f.code);
    assert a.vars.Keys <= names;
    hide NamesIn, TempsIn, SlotsAfter, ParamSlots;
    SubsetSize(a.vars.Keys, names);
    SubsetSize(a.tmps.Keys, TempsIn(f.code));
    FrameRounds(f);
    assert a.idx <= CountSlots(f);
    hide FrameSize, CountSlots;
    forall x <- a.vars
      ensures 8 <= a.vars[x] <= FrameSize(f)
    {
      assert IsSlot(a.vars[x], a.idx);
    }
    forall t <- a.tmps
      ensures 8 <= a.tmps[t] <= FrameSize(f)
    {
      assert IsSlot(a.tmps[t], a.idx);
    }
  }
}
