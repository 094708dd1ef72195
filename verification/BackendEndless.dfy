/** A run of the IR without an end is a run of the machine without an end. */
module BackendEndless {
  import opened Words
  import opened Wrappers
  import opened Python
  import opened IR
  import opened Backend
  import opened BackendLayout
  import opened BackendCorrect
  import opened BackendCalls
  import opened Divergence
  import X = X86

  lemma {:induction false} PosLater(abi: Abi, f: IRFunc, k: nat, n: nat)
    requires k <= n <= |f.code|
    ensures Pos(abi, f, k) <= Pos(abi, f, n)
    decreases n - k
  {
    hide Pos, Piece;
    if k < n {
      PosNext(abi, f, k);
      PosLater(abi, f, k + 1, n);
    }
  }

  /** A step goes on, or back to a label. */
  lemma StepGoes(code: Code, F: CallEnv, s: State)
    requires s.Run? && Step(code, F, s).Run?
    ensures var s' := Step(code, F, s);
      s.pc < |code| && (s'.pc == s.pc + 1 || (s'.pc < |code| && code[s'.pc].Label? && !code[s.pc].Label?))
  {
    hide Binary, Unary, FindFrom;
    if s.pc < |code| && code[s.pc].Call? {
      ArgsStop(code[s.pc].args, s.temps);
    }
  }

  lemma {:induction false} ArgsStop(args: seq<Operand>, temps: Temps)
    ensures !FirstUndefined(args, temps).Run?
    decreases |args|
  {
    if args != [] {
      ArgsStop(args[1..], temps);
    }
  }

  /** A step back moves the machine: the label is an instruction of its own. */
  lemma BackMoves(w: World, s: State, s': State)
    requires s.Run? && s'.Run? && s.pc < |w.f.code| && s'.pc < |w.f.code|
    requires w.f.code[s'.pc].Label? && !w.f.code[s.pc].Label? && s'.pc <= s.pc
    ensures Pos(w.abi, w.f, s'.pc) < Pos(w.abi, w.f, s.pc)
  {
    hide Pos, Piece;
    LabelPiece(w.abi, w.f, s'.pc, w.f.code[s'.pc].lbl);
    PosNext(w.abi, w.f, s'.pc);
    PosLater(w.abi, w.f, s'.pc + 1, s.pc);
  }

  /** One step of the IR is at least one of the machine, unless it goes forward in the code. */
  lemma StepMoves(w: World, s: State, q: X.State) returns (q': X.State, j: nat)
    requires Fair(w) && s.Run? && Matches(w, s, q) && Step(w.f.code, w.F, s).Run?
    ensures X.Steps(w.Asm(), w.Ra(), w.G, q, j) == q' && Matches(w, Step(w.f.code, w.F, s), q')
    ensures s.pc < |w.f.code| && (j == 0 ==> Step(w.f.code, w.F, s).pc > s.pc)
  {
    hide *;
    var s' := Step(w.f.code, w.F, s);
    StepGoes(w.f.code, w.F, s);
    StepGets(w, s, q);
    q' := GetsWitness(w, q, s');
    j := CountSteps(w, q, q');
    if j == 0 {
      MatchesRun(w, s, q);
      MatchesRun(w, s', q');
      if s'.pc <= s.pc {
        BackMoves(w, s, s');
      }
    }
  }

  lemma CountSteps(w: World, q: X.State, q': X.State) returns (j: nat)
    requires X.Reaches(w.Asm(), w.Ra(), w.G, q, q')
    ensures X.Steps(w.Asm(), w.Ra(), w.G, q, j) == q' && (j == 0 ==> q' == q)
  {
    hide FuncCode;
    j :| X.Steps(w.Asm(), w.Ra(), w.G, q, j) == q';
  }

  /** Many steps of the IR are many of the machine: the code is not longer than it is. */
  lemma {:induction false} RunMoves(w: World, s: State, q: X.State, n: nat) returns (q': X.State, j: nat)
    requires Fair(w) && s.Run? && Matches(w, s, q) && Steps(w.f.code, w.F, s, n).Run?
    ensures X.Steps(w.Asm(), w.Ra(), w.G, q, j) == q' && Matches(w, Steps(w.f.code, w.F, s, n), q')
    ensures n + s.pc <= j * (|w.f.code| + 1) + Steps(w.f.code, w.F, s, n).pc
    decreases n
  {
    hide *;
    StepsUnfold(w.f.code, w.F, s, n);
    if n == 0 {
      q', j := q, 0;
      NoSteps(w, q);
    } else {
      var s1 := Step(w.f.code, w.F, s);
      var q1, i := StepMoves(w, s, q);
      var k: nat;
      q', k := RunMoves(w, s1, q1, n - 1);
      X.StepsAdd(w.Asm(), w.Ra(), w.G, q, i, k);
      j := i + k;
      Counted(|w.f.code|, n, s.pc, s1.pc, i, k, Steps(w.f.code, w.F, s, n).pc);
    }
  }

  lemma NoSteps(w: World, q: X.State)
    ensures X.Steps(w.Asm(), w.Ra(), w.G, q, 0) == q
  {
    hide FuncCode;
  }

  lemma StepsUnfold(code: Code, F: CallEnv, s: State, n: nat)
    requires s.Run? && Steps(code, F, s, n).Run?
    ensures n == 0 ==> Steps(code, F, s, n) == s
    ensures n > 0 ==>
      Steps(code, F, s, n) == Steps(code, F, Step(code, F, s), n - 1) && Step(code, F, s).Run?
  {
    hide Step;
    if n > 0 && !Step(code, F, s).Run? {
      StepsStay(code, F, Step(code, F, s), n - 1);
    }
  }

  lemma Counted(size: nat, n: nat, from: nat, next: nat, i: nat, k: nat, last: nat)
    requires n > 0 && from < size && (i == 0 ==> next > from) && n - 1 + next <= k * (size + 1) + last
    ensures n + from <= (i + k) * (size + 1) + last
  {
    if i > 0 {
      assert i * (size + 1) >= size + 1;
    }
    assert (i + k) * (size + 1) == i * (size + 1) + k * (size + 1);
  }

  /** The machine is still running after `n` instructions, for every `n`. */
  ghost predicate RunsForever(asm: X.Asm, m: X.Machine, G: X.Callees) {
    forall n: nat :: X.Steps(asm, m.Cell(m.rsp), G, X.At(0, m), n).At?
  }

  lemma StillRuns(w: World, args: seq<Word>, m: X.Machine, n: nat)
    requires Fair(w) && |w.f.params| == |args| && Bound(w.abi, w.f.params) == w.f.params
    requires Passes(w.abi, args, m) && w.top == Entered(m) && Endless(w.f, args, w.F)
    ensures X.Steps(w.Asm(), w.Ra(), w.G, X.At(0, m), n).At?
  {
    hide *;
    var s, size := Entry(w.f, args), |w.f.code|;
    var long := (n + 1) * (size + 1) + size;
    EntryIs(w.f, args);
    EndlessMeans(w.f, args, w.F, long);
    EntryGets(w, args, m);
    var q := GetsWitness(w, X.At(0, m), s);
    var i := CountSteps(w, X.At(0, m), q);
    var q', j := RunMoves(w, s, q, long);
    var e := Steps(w.f.code, w.F, s, long);
    MatchesRun(w, e, q');
    ManySteps(size, n, j, e.pc);
    X.StepsAdd(w.Asm(), w.Ra(), w.G, X.At(0, m), i, j);
    StillAt(w, X.At(0, m), n, i + j - n);
  }

  lemma ManySteps(size: nat, n: nat, j: nat, last: nat)
    requires (n + 1) * (size + 1) + size <= j * (size + 1) + last && last <= size
    ensures j > n
  {
    Times(j, n, size + 1);
    assert (n + 1) * (size + 1) == n * (size + 1) + size + 1;
  }

  lemma Times(a: nat, b: nat, c: nat)
    ensures a <= b ==> a * c <= b * c
  {
  }

  lemma StillAt(w: World, q: X.State, n: nat, more: nat)
    requires X.Steps(w.Asm(), w.Ra(), w.G, q, n + more).At?
    ensures X.Steps(w.Asm(), w.Ra(), w.G, q, n).At?
  {
    hide FuncCode;
    X.StepsAdd(w.Asm(), w.Ra(), w.G, q, n, more);
    if !X.Steps(w.Asm(), w.Ra(), w.G, q, n).At? {
      X.StepsStay(w.Asm(), w.Ra(), w.G, X.Steps(w.Asm(), w.Ra(), w.G, q, n), more);
    }
  }

  /** If the IR function runs forever, so does its machine code, called as the calling convention asks. */
  lemma FunctionForever(abi: Abi, f: IRFunc, F: CallEnv, G: X.Callees, args: seq<Word>, m: X.Machine)
    requires Supported(abi) && Fit(abi, f) && SmallCalls(abi, F) && AllAnswered(abi, F, G)
    requires Passes(abi, args, m) && m.rsp % 16 == 8 && |f.params| == |args| && Endless(f, args, F)
    ensures RunsForever(FuncCode(abi, f), m, G)
  {
    var w := World(abi, f, F, G, Entered(m));
    forall n: nat
      ensures X.Steps(FuncCode(abi, f), m.Cell(m.rsp), G, X.At(0, m), n).At?
    {
      hide *;
      AsmIs(w);
      BaseAligned(w, m);
      EnteredRa(w, m);
      FairIs(w);
      BoundAll(abi, f);
      StillRuns(w, args, m, n);
    }
  }
}
