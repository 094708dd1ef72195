/** The flat intermediate representation and its step semantics. A function is one list of instructions with
    inline labels; temporaries are numbered, locals are named. */
module IR {
  import opened Words
  import opened Wrappers
  import opened Python

  /** A local of the program, or the hidden index of the loop whose index label has the given number. */
  datatype Name = Local(id: string) | LoopIndex(lbl: nat)

  datatype Operand = Tmp(t: nat) | Imm(k: Word)

  datatype Instr =
    | Const(dest: nat, value: Word)
    | Alloca(name: Name)
    | Load(dest: nat, name: Name)
    | Store(src: Operand, name: Name)
    | Bin(op: BinOp, dest: nat, a: Operand, b: Operand)
    | Un(uop: UnOp, dest: nat, a: Operand)
    | Select(dest: nat, c: Operand, a: Operand, b: Operand)
    | Label(lbl: nat)
    | Jmp(lbl: nat)
    | Jz(c: Operand, lbl: nat)
    | Jnz(c: Operand, lbl: nat)
    | Call(dest: nat, func: string, args: seq<Operand>)
    | Ret(a: Operand)

  type Code = seq<Instr>
  type Temps = map<nat, Word>
  type Vars = map<Name, Word>

  datatype IRFunc = IRFunc(name: string, params: seq<string>, code: Code)

  /** `IRBlock.is_terminated`: does the list end in a jump or a return? */
  predicate Terminated(code: Code) {
    code != [] && var i := code[|code| - 1]; i.Ret? || i.Jmp? || i.Jz? || i.Jnz?
  }

  // ----- running a function -----

  datatype Wrong = UndefinedTemp(t: nat) | UndefinedName(n: Name) | OffTheEnd | MissingLabel(l: nat) | NoAnswer

  datatype State =
    | Run(pc: nat, temps: Temps, vars: Vars) | Done(result: Word) | Trap(error: Failure) | Stuck(why: Wrong)

  function Read(o: Operand, temps: Temps): Option<Word> {
    match o
    case Imm(k) => Some(k)
    case Tmp(t) => if t in temps then Some(temps[t]) else None
  }

  function FindLabel(code: Code, l: nat): (r: Option<nat>)
    ensures r.Some? ==> r.value < |code| && code[r.value] == Label(l)
    ensures r.None? ==> forall i | 0 <= i < |code| :: code[i] != Label(l)
    ensures r.Some? ==> forall i | 0 <= i < r.value :: code[i] != Label(l)
  {
    FindFrom(code, l, 0)
  }

  function FindFrom(code: Code, l: nat, i: nat): (r: Option<nat>)
    requires i <= |code|
    ensures r.Some? ==> i <= r.value < |code| && code[r.value] == Label(l)
    ensures r.None? ==> forall j | i <= j < |code| :: code[j] != Label(l)
    ensures r.Some? ==> forall j | i <= j < r.value :: code[j] != Label(l)
    decreases |code| - i
  {
    if i == |code| then None
    else if code[i] == Label(l) then Some(i)
    else FindFrom(code, l, i + 1)
  }

  function Goto(code: Code, l: nat, s: State): State
    requires s.Run?
  {
    var p := FindLabel(code, l);
    if p.Some? then s.(pc := p.value) else Stuck(MissingLabel(l))
  }

  function Undefined(o: Operand): State {
    Stuck(UndefinedTemp(if o.Tmp? then o.t else 0))
  }

  function Assigned(s: State, t: nat, v: Word): State
    requires s.Run?
  {
    Run(s.pc + 1, s.temps[t := v], s.vars)
  }

  function ReadArgs(args: seq<Operand>, temps: Temps): (r: Option<seq<Word>>)
    ensures r.Some? ==> |r.value| == |args|
  {
    if args == [] then Some([]) else
    var v := Read(args[0], temps);
    var vs := ReadArgs(args[1..], temps);
    if v.Some? && vs.Some? then Some([v.value] + vs.value) else None
  }

  function FirstUndefined(args: seq<Operand>, temps: Temps): State {
    if args == [] then Stuck(NoAnswer)
    else if Read(args[0], temps).None? then Undefined(args[0])
    else FirstUndefined(args[1..], temps)
  }

  /** One instruction. `F` answers calls. */
  function Step(code: Code, F: CallEnv, s: State): State {
    if !s.Run? then s
    else if s.pc >= |code| then Stuck(OffTheEnd)
    else Execute(code[s.pc], code, F, s)
  }

  function Execute(i: Instr, code: Code, F: CallEnv, s: State): State
    requires s.Run?
  {
    match i
    case Const(t, v) => Assigned(s, t, v)
    case Alloca(_) => s.(pc := s.pc + 1)
    case Load(t, x) => if x in s.vars then Assigned(s, t, s.vars[x]) else Stuck(UndefinedName(x))
    case Store(o, x) =>
      var v := Read(o, s.temps);
      if v.Some? then Run(s.pc + 1, s.temps, s.vars[x := v.value]) else Undefined(o)
    case Bin(op, t, a, b) =>
      var v := Read(a, s.temps);
      var w := Read(b, s.temps);
      if v.None? then Undefined(a) else if w.None? then Undefined(b) else
      var r := Binary(op, v.value, w.value);
      if r.Some? then Assigned(s, t, r.value) else Trap(DivideError)
    case Un(op, t, a) =>
      var v := Read(a, s.temps);
      if v.Some? then Assigned(s, t, Unary(op, v.value)) else Undefined(a)
    case Select(t, c, a, b) =>
      var u := Read(c, s.temps);
      var v := Read(a, s.temps);
      var w := Read(b, s.temps);
      if u.None? then Undefined(c) else if v.None? then Undefined(a) else if w.None? then Undefined(b)
      else Assigned(s, t, if Truthy(u.value) then v.value else w.value)
    case Label(_) => s.(pc := s.pc + 1)
    case Jmp(l) => Goto(code, l, s)
    case Jz(c, l) =>
      var v := Read(c, s.temps);
      if v.None? then Undefined(c)
      else if Truthy(v.value) then s.(pc := s.pc + 1) else Goto(code, l, s)
    case Jnz(c, l) =>
      var v := Read(c, s.temps);
      if v.None? then Undefined(c)
      else if Truthy(v.value) then Goto(code, l, s) else s.(pc := s.pc + 1)
    case Call(t, f, args) =>
      var vs := ReadArgs(args, s.temps);
      if vs.None? then FirstUndefined(args, s.temps) else (
        match F(f, vs.value)
        case Returns(v) => Assigned(s, t, v)
        case Faults(y) => Trap(y)
        case Unknown => Stuck(NoAnswer)
      )
    case Ret(a) =>
      var v := Read(a, s.temps);
      if v.Some? then Done(v.value) else Undefined(a)
  }

  function Steps(code: Code, F: CallEnv, s: State, n: nat): State
    decreases n
  {
    if n == 0 then s else Steps(code, F, Step(code, F, s), n - 1)
  }

  lemma {:induction false} StepsAdd(code: Code, F: CallEnv, s: State, m: nat, n: nat)
    ensures Steps(code, F, s, m + n) == Steps(code, F, Steps(code, F, s, m), n)
    decreases m
  {
    if m > 0 {
      StepsAdd(code, F, Step(code, F, s), m - 1, n);
    }
  }

  lemma {:induction false} StepsStay(code: Code, F: CallEnv, s: State, n: nat)
    requires !s.Run?
    ensures Steps(code, F, s, n) == s
    decreases n
  {
    if n > 0 {
      StepsStay(code, F, s, n - 1);
    }
  }

  /** `s'` is reached from `s`. */
  ghost predicate Reaches(code: Code, F: CallEnv, s: State, s': State) {
    exists n: nat :: Steps(code, F, s, n) == s'
  }

  lemma ReachesRefl(code: Code, F: CallEnv, s: State)
    ensures Reaches(code, F, s, s)
  {
    assert Steps(code, F, s, 0) == s;
  }

  lemma ReachesStep(code: Code, F: CallEnv, s: State)
    ensures Reaches(code, F, s, Step(code, F, s))
  {
    assert Steps(code, F, s, 1) == Steps(code, F, Step(code, F, s), 0);
  }

  lemma ReachesTrans(code: Code, F: CallEnv, s0: State, s1: State, s2: State)
    requires Reaches(code, F, s0, s1) && Reaches(code, F, s1, s2)
    ensures Reaches(code, F, s0, s2)
  {
    var m: nat :| Steps(code, F, s0, m) == s1;
    var n: nat :| Steps(code, F, s1, n) == s2;
    StepsAdd(code, F, s0, m, n);
  }

  /** The run goes on for `n` steps and more. */
  ghost predicate Lasts(code: Code, F: CallEnv, s: State, n: nat) {
    exists m: nat :: m >= n && Steps(code, F, s, m).Run?
  }

  lemma LastsNow(code: Code, F: CallEnv, s: State)
    requires s.Run?
    ensures Lasts(code, F, s, 0)
  {
    assert Steps(code, F, s, 0).Run?;
  }

  lemma LastsAfter(code: Code, F: CallEnv, s: State, s': State, n: nat)
    requires Reaches(code, F, s, s') && Lasts(code, F, s', n)
    ensures Lasts(code, F, s, n) && (s != s' ==> Lasts(code, F, s, n + 1))
  {
    var k: nat :| Steps(code, F, s, k) == s';
    var m: nat :| m >= n && Steps(code, F, s', m).Run?;
    StepsAdd(code, F, s, k, m);
    assert Steps(code, F, s, k + m).Run?;
    assert k == 0 ==> s == s';
  }

  /** So it has not ended after `n` steps. */
  lemma LastsMeans(code: Code, F: CallEnv, s: State, n: nat)
    requires Lasts(code, F, s, n)
    ensures Steps(code, F, s, n).Run?
  {
    var m: nat :| m >= n && Steps(code, F, s, m).Run?;
    StepsAdd(code, F, s, n, m - n);
    if !Steps(code, F, s, n).Run? {
      StepsStay(code, F, Steps(code, F, s, n), m - n);
    }
  }

  /** A run ends in at most one way. */
  lemma OneEnd(code: Code, F: CallEnv, s: State, a: State, b: State)
    requires Reaches(code, F, s, a) && Reaches(code, F, s, b) && !a.Run? && !b.Run?
    ensures a == b
  {
    var m: nat :| Steps(code, F, s, m) == a;
    var n: nat :| Steps(code, F, s, n) == b;
    if m <= n {
      StepsAdd(code, F, s, m, n - m);
      StepsStay(code, F, a, n - m);
    } else {
      StepsAdd(code, F, s, n, m - n);
      StepsStay(code, F, b, m - n);
    }
  }

  // ----- calling a function -----

  function BindParams(params: seq<string>, args: seq<Word>): Vars
    requires |params| == |args|
  {
    if params == [] then map[]
    else BindParams(params[..|params| - 1], args[..|args| - 1])[Local(params[|params| - 1]) := args[|args| - 1]]
  }

  function Entry(f: IRFunc, args: seq<Word>): State
    requires |f.params| == |args|
  {
    Run(0, map[], BindParams(f.params, args))
  }

  /** The result of a call, when its run ends. */
  ghost function RunFunc(f: IRFunc, args: seq<Word>, F: CallEnv): CallResult {
    if |f.params| != |args| then Unknown
    else if exists v :: Reaches(f.code, F, Entry(f, args), Done(v)) then
      var v :| Reaches(f.code, F, Entry(f, args), Done(v)); Returns(v)
    else if exists y :: Reaches(f.code, F, Entry(f, args), Trap(y)) then
      var y :| Reaches(f.code, F, Entry(f, args), Trap(y)); Faults(y)
    else Unknown
  }
}
