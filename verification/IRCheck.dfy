/** A one-pass check of IR code, and what it guarantees for every run: the IR analogue of a bytecode verifier. */
module IRCheck {
  import opened Words
  import opened Wrappers
  import opened Python
  import opened IR

  predicate UniqueLabels(code: Code) {
    forall i, j | 0 <= i < j < |code| && code[i].Label? && code[j].Label? :: code[i] != code[j]
  }

  function Dest(i: Instr): Option<nat> {
    match i
    case Const(t, _) => Some(t)
    case Load(t, _) => Some(t)
    case Bin(_, t, _, _) => Some(t)
    case Un(_, t, _) => Some(t)
    case Select(t, _, _, _) => Some(t)
    case Call(t, _, _) => Some(t)
    case _ => None
  }

  function Target(i: Instr): Option<nat> {
    match i
    case Jmp(l) => Some(l)
    case Jz(_, l) => Some(l)
    case Jnz(_, l) => Some(l)
    case _ => None
  }

  function TempsOf(o: Operand): set<nat> {
    if o.Tmp? then {o.t} else {}
  }

  function TempsOfAll(os: seq<Operand>): set<nat> {
    set o <- os | o.Tmp? :: o.t
  }

  function Reads(i: Instr): set<nat> {
    match i
    case Store(o, _) => TempsOf(o)
    case Bin(_, _, a, b) => TempsOf(a) + TempsOf(b)
    case Un(_, _, a) => TempsOf(a)
    case Select(_, c, a, b) => TempsOf(c) + TempsOf(a) + TempsOf(b)
    case Jz(c, _) => TempsOf(c)
    case Jnz(c, _) => TempsOf(c)
    case Call(_, _, args) => TempsOfAll(args)
    case Ret(a) => TempsOf(a)
    case _ => {}
  }

  /** The temporaries that must be assigned whenever control arrives at a label. */
  type Notes = map<nat, set<nat>>

  /** What the check knows after a prefix of the code: the temporaries assigned on every way here, whether control
      can get here, the temporaries with a definition so far, and the labels placed so far. */
  datatype Flow = Flow(avail: set<nat>, live: bool, defined: set<nat>, placed: set<nat>) | Rejected

  const Start := Flow({}, true, {}, {})

  function CheckStep(L: Notes, f: Flow, i: Instr): Flow {
    if f.Rejected? then Rejected
    else if i.Label? then
      if i.lbl in L && i.lbl !in f.placed && (f.live ==> L[i.lbl] <= f.avail)
      then Flow(L[i.lbl], true, f.defined, f.placed + {i.lbl}) else Rejected
    else if !f.live || !(Reads(i) <= f.avail) then Rejected
    else if Target(i).Some? && !(Target(i).value in L && L[Target(i).value] <= f.avail) then Rejected
    else if i.Jmp? || i.Ret? then Flow({}, false, f.defined, f.placed)
    else if Dest(i).None? then f
    else if Dest(i).value in f.defined then Rejected
    else f.(avail := f.avail + {Dest(i).value}, defined := f.defined + {Dest(i).value})
  }

  function Check(code: Code, L: Notes): Flow {
    if code == [] then Start else CheckStep(L, Check(code[..|code| - 1], L), code[|code| - 1])
  }

  /** The whole check: control cannot run past the last instruction, and every label that is used is placed. */
  ghost predicate WellFormed(code: Code) {
    exists L: Notes :: Accepted(code, L)
  }

  predicate Accepted(code: Code, L: Notes) {
    var f := Check(code, L);
    f.Flow? && !f.live && f.placed == L.Keys
  }

  lemma CheckEmit(code: Code, i: Instr, L: Notes)
    ensures Check(code + [i], L) == CheckStep(L, Check(code, L), i)
  {
    assert (code + [i])[..|code|] == code;
  }

  /** Notes about labels the code does not mention do not matter. */
  lemma {:induction false} CheckExtends(code: Code, L: Notes, L': Notes)
    requires forall l <- L :: l in L' && L'[l] == L[l]
    requires Check(code, L).Flow?
    ensures Check(code, L') == Check(code, L)
    decreases |code|
  {
    if code != [] {
      CheckExtends(code[..|code| - 1], L, L');
    }
  }

  lemma {:induction false} CheckPrefix(code: Code, L: Notes, n: nat)
    requires n <= |code| && Check(code, L).Flow?
    ensures Check(code[..n], L).Flow?
    ensures n < |code| ==> Check(code[..n + 1], L) == CheckStep(L, Check(code[..n], L), code[n])
    ensures Check(code[..n], L).placed <= Check(code, L).placed
    ensures Check(code[..n], L).defined <= Check(code, L).defined
    decreases |code|
  {
    if n == |code| {
      assert code[..n] == code;
    } else {
      assert code[..|code|] == code;
      assert code[..n + 1][..n] == code[..n];
      CheckPrefix(code[..|code| - 1], L, n);
      assert code[..|code| - 1][..n] == code[..n];
    }
  }

  // ----- what an accepted code cannot do -----

  lemma {:induction false} PlacedIs(code: Code, L: Notes)
    requires Check(code, L).Flow?
    ensures forall l :: l in Check(code, L).placed <==> Label(l) in code
    decreases |code|
  {
    if code != [] {
      PlacedIs(code[..|code| - 1], L);
      assert code == code[..|code| - 1] + [code[|code| - 1]];
    }
  }

  /** Each label is placed once. */
  lemma {:induction false} AcceptedLabels(code: Code, L: Notes)
    requires Check(code, L).Flow?
    ensures UniqueLabels(code)
    decreases |code|
  {
    if code != [] {
      var front, last := code[..|code| - 1], code[|code| - 1];
      AcceptedLabels(front, L);
      PlacedIs(front, L);
      forall i, j | 0 <= i < j < |code| && code[i].Label? && code[j].Label?
        ensures code[i] != code[j]
      {
        assert code[i] == front[i];
        if j < |front| {
          assert code[j] == front[j];
        }
      }
    }
  }

  lemma {:induction false} DefinedIs(code: Code, L: Notes, i: nat)
    requires Check(code, L).Flow? && i < |code| && Dest(code[i]).Some?
    ensures Dest(code[i]).value in Check(code, L).defined
    decreases |code|
  {
    if i < |code| - 1 {
      assert code[..|code| - 1][i] == code[i];
      DefinedIs(code[..|code| - 1], L, i);
    }
  }

  /** Each temporary has one definition. */
  lemma {:induction false} AcceptedTemps(code: Code, L: Notes, i: nat, j: nat)
    requires Check(code, L).Flow? && i < j < |code| && Dest(code[i]).Some?
    ensures Dest(code[i]) != Dest(code[j])
  {
    CheckPrefix(code, L, j);
    CheckPrefix(code, L, j + 1);
    assert code[..j][i] == code[i];
    DefinedIs(code[..j], L, i);
  }

  /** What the check promises about a running state. */
  predicate Sane(code: Code, L: Notes, s: State) {
    match s
    case Run(pc, temps, _) =>
      pc < |code| &&
      if code[pc].Label? then code[pc].lbl in L && L[code[pc].lbl] <= temps.Keys
      else var f := Check(code[..pc], L); f.Flow? && f.live && f.avail <= temps.Keys
    case Stuck(why) => why.UndefinedName? || why.NoAnswer?
    case _ => true
  }

  lemma SaneNext(code: Code, L: Notes, pc: nat, temps: Temps, vars: Vars)
    requires Accepted(code, L) && pc < |code|
    requires var f := Check(code[..pc + 1], L); f.Flow? && f.live && f.avail <= temps.Keys
    ensures Sane(code, L, Run(pc + 1, temps, vars))
  {
    if pc + 1 < |code| {
      CheckPrefix(code, L, pc + 1);
      CheckPrefix(code, L, pc + 2);
    }
  }

  lemma SaneGoto(code: Code, L: Notes, l: nat, s: State)
    requires Accepted(code, L) && s.Run? && l in L && L[l] <= s.temps.Keys
    ensures Sane(code, L, Goto(code, l, s))
  {
    PlacedIs(code, L);
  }

  lemma {:induction false} ArgsRead(args: seq<Operand>, temps: Temps)
    requires TempsOfAll(args) <= temps.Keys
    ensures ReadArgs(args, temps).Some?
  {
    if args != [] {
      assert args[0] in args;
      assert args[0].Tmp? ==> args[0].t in TempsOfAll(args);
      assert TempsOfAll(args[1..]) <= TempsOfAll(args);
      ArgsRead(args[1..], temps);
    }
  }

  /** An instruction whose reads are assigned goes on, branches, or ends the run. */
  lemma ExecuteSane(i: Instr, code: Code, L: Notes, F: CallEnv, s: State, f: Flow)
    requires s.Run? && f.Flow? && f.live && !i.Label? && CheckStep(L, f, i).Flow? && f.avail <= s.temps.Keys
    ensures var s' := Execute(i, code, F, s);
      || (
        && s'.Run? && s'.pc == s.pc + 1 && !i.Jmp? && CheckStep(L, f, i).live
        && CheckStep(L, f, i).avail <= s'.temps.Keys)
      || (Target(i).Some? && s' == Goto(code, Target(i).value, s))
      || s'.Done? || s'.Trap? || (s'.Stuck? && (s'.why.UndefinedName? || s'.why.NoAnswer?))
  {
    hide Check, FindLabel, Binary, Unary, ReadArgs, FirstUndefined;
    if i.Call? {
      ArgsRead(i.args, s.temps);
    }
  }

  lemma SaneStep(code: Code, L: Notes, F: CallEnv, s: State)
    requires Accepted(code, L) && Sane(code, L, s)
    ensures Sane(code, L, Step(code, F, s))
  {
    if s.Run? {
      var i := code[s.pc];
      CheckPrefix(code, L, s.pc);
      CheckPrefix(code, L, s.pc + 1);
      var f := Check(code[..s.pc], L);
      hide Check, FindLabel, Execute, Goto;
      if i.Label? {
        assert Step(code, F, s) == s.(pc := s.pc + 1) by {
          LabelStep(code, F, s);
        }
        SaneNext(code, L, s.pc, s.temps, s.vars);
      } else {
        ExecuteSane(i, code, L, F, s, f);
        if Target(i).Some? {
          SaneGoto(code, L, Target(i).value, s);
        }
        var s' := Execute(i, code, F, s);
        if s'.Run? && s'.pc == s.pc + 1 && CheckStep(L, f, i).live && CheckStep(L, f, i).avail <= s'.temps.Keys {
          SaneNext(code, L, s.pc, s'.temps, s'.vars);
        }
      }
    }
  }

  lemma LabelStep(code: Code, F: CallEnv, s: State)
    requires s.Run? && s.pc < |code| && code[s.pc].Label?
    ensures Step(code, F, s) == s.(pc := s.pc + 1)
  {
  }

  lemma {:induction false} SaneSteps(code: Code, L: Notes, F: CallEnv, s: State, n: nat)
    requires Accepted(code, L) && Sane(code, L, s)
    ensures Sane(code, L, Steps(code, F, s, n))
    decreases n
  {
    if n > 0 {
      SaneStep(code, L, F, s);
      SaneSteps(code, L, F, Step(code, F, s), n - 1);
    }
  }

  /** On every run of an accepted function, whatever its arguments and whatever calls answer: no temporary is read
      before it is written, no jump misses its label, and control never leaves the code except by a return. */
  lemma AcceptedIsSafe(f: IRFunc, L: Notes, F: CallEnv, args: seq<Word>, n: nat)
    requires Accepted(f.code, L) && |f.params| == |args|
    ensures var s := Steps(f.code, F, Entry(f, args), n);
      s.Stuck? ==> s.why.UndefinedName? || s.why.NoAnswer?
  {
    assert f.code[..0] == [];
    if f.code[0].Label? {
      CheckPrefix(f.code, L, 0);
      CheckPrefix(f.code, L, 1);
    }
    SaneSteps(f.code, L, F, Entry(f, args), n);
  }
}
