/** What it means that emitted code ends as a statement does, and the pieces of control flow all statements share. */
module LoweringEnds {
  import opened Words
  import opened Wrappers
  import opened Python
  import opened IR
  import opened Lowering
  import opened LoweringGrows
  import opened Typing
  import opened LoweringCorrect
  import opened IRCheck

  /** The position of label `l`. */
  predicate At(code: Code, l: nat, p: nat) {
    FindLabel(code, l) == Some(p)
  }

  lemma LabelAt(code: Code, before: Code, l: nat)
    requires UniqueLabels(code) && Prefix(before + [Label(l)], code)
    ensures At(code, l, |before|)
  {
    assert (before + [Label(l)])[|before|] == Label(l);
    assert code[|before|] == Label(l);
  }

  /** The labels of the enclosing loop are placed. */
  ghost predicate Placed(w: World, c: Ctx) {
    && (c.exit.Some? ==> FindLabel(w.code, c.exit.value).Some?)
    && (c.cont.Some? ==> FindLabel(w.code, c.cont.value).Some?)
  }

  /** `c` can run in `w`, and so can what follows up to `d`. */
  ghost predicate Runs(w: World, c: Ctx, d: Ctx, env: Env, V: Vars) {
    && Ready(w, c, env, V)
    && UniqueLabels(w.code)
    && Placed(w, c)
    && Extends(d.vars, w.G)
    && Prefix(d.code, w.code)
    && !Terminated(c.code)
  }

  /** The run ends as `o` says: a normal end at position `p`, a loop exit at its label. */
  ghost predicate Ends(w: World, o: Outcome, from: State, c: Ctx, p: nat, T: Temps, s': State) {
    match o
    case Next(env') => Reaches(w.code, w.Fi, from, s') && Matches(w, env', c, T, s') && s'.pc == p
    case Broke(env') =>
      && Reaches(w.code, w.Fi, from, s') && Matches(w, env', c, T, s')
      && c.exit.Some? && At(w.code, c.exit.value, s'.pc)
    case Continued(env') =>
      && Reaches(w.code, w.Fi, from, s') && Matches(w, env', c, T, s')
      && c.cont.Some? && At(w.code, c.cont.value, s'.pc)
    case Returned(v) => Reaches(w.code, w.Fi, from, Done(v))
    case Crash(y) => Reaches(w.code, w.Fi, from, Trap(y))
    case NoClaim => true
    case OutOfTime(n) => Lasts(w.code, w.Fi, from, n)
  }

  ghost predicate Matches(w: World, env: Env, c: Ctx, T: Temps, s: State) {
    s.Run? && Agrees(env, s.vars) && Typed(env, w.G) && Keeps(T, s.temps, c.tmp)
  }

  /** What happens before `mid` leaves the ending as it is. */
  lemma EndsAfter(w: World, o: Outcome, from: State, mid: State, c: Ctx, d: Ctx, p: nat, T: Temps, T': Temps, s': State)
    requires Reaches(w.code, w.Fi, from, mid) && Ends(w, o, mid, d, p, T', s')
    requires Keeps(T, T', c.tmp) && c.tmp <= d.tmp && c.exit == d.exit && c.cont == d.cont
    ensures Ends(w, o, from, c, p, T, s')
  {
    match o
    case Next(_) => ReachesTrans(w.code, w.Fi, from, mid, s');
    case Broke(_) => ReachesTrans(w.code, w.Fi, from, mid, s');
    case Continued(_) => ReachesTrans(w.code, w.Fi, from, mid, s');
    case Returned(v) => ReachesTrans(w.code, w.Fi, from, mid, Done(v));
    case Crash(y) => ReachesTrans(w.code, w.Fi, from, mid, Trap(y));
    case NoClaim =>
    case OutOfTime(n) => LastsAfter(w.code, w.Fi, from, mid, n);
  }

  /** Leaving a loop's body for good leaves the loop. */
  lemma EndsAbrupt(w: World, o: Outcome, from: State, mid: State, c: Ctx, d: Ctx, p: nat, q: nat, T: Temps,
                   T': Temps, s': State)
    requires Reaches(w.code, w.Fi, from, mid) && Ends(w, o, mid, d, p, T', s')
    requires !o.Next? && !o.Broke? && !o.Continued?
    ensures Ends(w, o, from, c, q, T, s')
  {
    if o.Returned? {
      ReachesTrans(w.code, w.Fi, from, mid, Done(o.result));
    } else if o.Crash? {
      ReachesTrans(w.code, w.Fi, from, mid, Trap(o.why));
    } else if o.OutOfTime? {
      LastsAfter(w.code, w.Fi, from, mid, o.passes);
    }
  }

  /** A pass of a loop before an ending. */
  lemma EndsLater(w: World, o: Outcome, from: State, mid: State, c: Ctx, d: Ctx, p: nat, T: Temps, T': Temps,
                  s': State)
    requires Reaches(w.code, w.Fi, from, mid) && from != mid && Ends(w, o, mid, d, p, T', s')
    requires Keeps(T, T', c.tmp) && c.tmp <= d.tmp && c.exit == d.exit && c.cont == d.cont
    ensures Ends(w, Later(o), from, c, p, T, s')
  {
    if o.OutOfTime? {
      LastsAfter(w.code, w.Fi, from, mid, o.passes);
    } else {
      EndsAfter(w, o, from, mid, c, d, p, T, T', s');
    }
  }

  /** A `break` in a loop's body is a normal end at the loop's exit label. */
  lemma EndsBroken(w: World, o: Outcome, from: State, mid: State, c: Ctx, d: Ctx, p: nat, q: nat, T: Temps,
                   T': Temps, s': State)
    requires Reaches(w.code, w.Fi, from, mid) && Ends(w, o, mid, d, p, T', s') && o.Broke?
    requires d.exit.Some? && At(w.code, d.exit.value, q) && Keeps(T, T', c.tmp) && c.tmp <= d.tmp
    ensures Ends(w, Next(o.env), from, c, q, T, s')
  {
    ReachesTrans(w.code, w.Fi, from, mid, s');
  }

  /** What a body that ends normally, or by `continue`, leaves behind; both lead to the loop's next-iteration label. */
  lemma EndsRound(w: World, o: Outcome, from: State, mid: State, c: Ctx, d: Ctx, p: nat, T: Temps, T': Temps, s': State)
    requires Reaches(w.code, w.Fi, from, mid) && Ends(w, o, mid, d, p, T', s') && (o.Next? || o.Continued?)
    requires d.cont.Some? && At(w.code, d.cont.value, p) && Keeps(T, T', c.tmp) && c.tmp <= d.tmp
    ensures Reaches(w.code, w.Fi, from, s') && s'.Run? && s'.pc == p
    ensures Agrees(o.env, s'.vars) && Typed(o.env, w.G) && Keeps(T', s'.temps, d.tmp) && Keeps(T, s'.temps, c.tmp)
  {
    ReachesTrans(w.code, w.Fi, from, mid, s');
  }

  /** An expression that does not evaluate ends its statement. */
  lemma EvalEnds<A>(w: World, ev: Eval<A>, from: State, c: Ctx, p: nat, T: Temps, s': State)
    requires !ev.Val? && (ev.Fault? ==> Reaches(w.code, w.Fi, from, Trap(ev.why)))
    ensures Ends(w, OfEval(ev), from, c, p, T, s')
  {
  }

  // ----- where a statement leaves the list open -----

  /** A statement that can end normally does not end the list. */
  lemma NextIsOpen(w: World, s: Stmt, c: Ctx, env: Env, fuel: nat)
    requires !Terminated(c.code) && Exec(w.Fs, s, env, fuel).Next?
    ensures !Terminated(LowerStmt(s, c).code)
  {
    match s
    case Assign(targets, e) =>
      ExprGrows(e, c);
      var r := LowerExpr(e, c);
      StaysOpen(c.code, r.c.code);
      StoreAllGrows(targets, r, r.c);
      StaysOpen(r.c.code, LowerStmt(s, c).code);
    case CallStmt(e) =>
      ExprGrows(e, c);
      StaysOpen(c.code, LowerExpr(e, c).c.code);
    case _ =>
  }

  lemma {:induction false} BlockIsOpen(w: World, ss: seq<Stmt>, c: Ctx, env: Env, fuel: nat)
    requires !Terminated(c.code) && ExecAll(w.Fs, ss, env, fuel).Next?
    ensures !Terminated(LowerStmts(ss, c).code)
    decreases |ss|
  {
    if ss != [] {
      NextIsOpen(w, ss[0], c, env, fuel);
      BlockIsOpen(w, ss[1..], LowerStmt(ss[0], c), Exec(w.Fs, ss[0], env, fuel).env, fuel);
    }
  }

  // ----- control flow -----

  lemma JumpRuns(w: World, c: Ctx, l: nat, p: nat, T: Temps, V: Vars)
    requires Prefix(c.code + [Jmp(l)], w.code) && At(w.code, l, p)
    ensures Reaches(w.code, w.Fi, Run(|c.code|, T, V), Run(p, T, V))
  {
    StepHere(w, c, Jmp(l), T, V);
  }

  /** From a placed label to the instruction after it. */
  lemma PassLabel(w: World, c: Ctx, l: nat, T: Temps, V: Vars)
    requires Prefix(c.code + [Label(l)], w.code)
    ensures Reaches(w.code, w.Fi, Run(|c.code|, T, V), Run(|c.code| + 1, T, V))
  {
    StepHere(w, c, Label(l), T, V);
  }

  lemma BranchRuns(w: World, c: Ctx, t: nat, yes: nat, no: nat, p: nat, T: Temps, V: Vars)
    requires Prefix(Branch(c, t, yes, no).code, w.code) && UniqueLabels(w.code) && At(w.code, no, p) && t in T
    ensures Reaches(w.code, w.Fi, Run(|c.code|, T, V),
                    Run(if Truthy(T[t]) then |Branch(c, t, yes, no).code| else p, T, V))
  {
    var c1 := Emit(c, Jnz(Tmp(t), yes));
    var c2 := Emit(c1, Jmp(no));
    StepHere(w, c, Jnz(Tmp(t), yes), T, V);
    LabelAt(w.code, c2.code, yes);
    var s0 := Run(|c.code|, T, V);
    if Truthy(T[t]) {
      PassLabel(w, c2, yes, T, V);
      ReachesTrans(w.code, w.Fi, s0, Run(|c2.code|, T, V), Run(|c2.code| + 1, T, V));
    } else {
      JumpRuns(w, c1, no, p, T, V);
      ReachesTrans(w.code, w.Fi, s0, Run(|c1.code|, T, V), Run(p, T, V));
    }
  }

  /** A test and the branch on it. */
  lemma TestRuns(w: World, e: Expr, c: Ctx, yes: nat, no: nat, p: nat, env: Env, T: Temps, V: Vars) returns (T': Temps)
    requires Ready(w, c, env, V) && UniqueLabels(w.code) && WellTyped(e, c.vars, c.funcs.Keys)
    requires Prefix(Branch(LowerExpr(e, c).c, LowerExpr(e, c).t, yes, no).code, w.code) && At(w.code, no, p)
    ensures Straight(c, LowerExpr(e, c).c)
    ensures match EvalExpr(w.Fs, e, env)
      case Val(v) =>
        var next := Branch(LowerExpr(e, c).c, LowerExpr(e, c).t, yes, no).code;
        && Reaches(w.code, w.Fi, Run(|c.code|, T, V), Run(if Truthy(v) then |next| else p, T', V))
        && Keeps(T, T', c.tmp)
      case Fault(y) => Reaches(w.code, w.Fi, Run(|c.code|, T, V), Trap(y))
      case Lost => true
  {
    var r := LowerExpr(e, c);
    ExprGrows(e, c);
    T' := ExprRuns(w, e, c, env, T, V);
    var ev := EvalExpr(w.Fs, e, env);
    if ev.Val? {
      BranchRuns(w, r.c, r.t, yes, no, p, T', V);
      ComputesThen(w, c, r.c, T, V, T', Run(if Truthy(ev.value) then |Branch(r.c, r.t, yes, no).code| else p, T', V));
    }
  }

  // ----- statements -----

  /** A part of a statement runs in the same world. */
  lemma Inside(w: World, c: Ctx, d: Ctx, a: Ctx, b: Ctx, env0: Env, V0: Vars, env: Env, V: Vars)
    requires Runs(w, c, d, env0, V0)
    requires a.funcs == c.funcs && Grows(a, b) && Grows(b, d.(exit := b.exit, cont := b.cont))
    requires Placed(w, a) && !Terminated(a.code) && Agrees(env, V) && Typed(env, w.G)
    ensures Runs(w, a, b, env, V)
  {
  }

  /** The same statement again, from later values. */
  lemma RunsLater(w: World, c: Ctx, d: Ctx, env0: Env, V0: Vars, env: Env, V: Vars)
    requires Runs(w, c, d, env0, V0) && Agrees(env, V) && Typed(env, w.G)
    ensures Runs(w, c, d, env, V)
  {
  }

  lemma KeepsLess(T: Temps, T': Temps, n: nat, m: nat)
    requires Keeps(T, T', m) && n <= m
    ensures Keeps(T, T', n)
  {
  }

  lemma KeepsAll(T: Temps, n: nat)
    ensures Keeps(T, T, n)
  {
  }

  // ----- if -----

  /** A normal end at a label is a normal end after it. */
  lemma EndsPastLabel(w: World, o: Outcome, from: State, c: Ctx, d: Ctx, l: nat, T: Temps, s: State) returns (s': State)
    requires Ends(w, o, from, c, |d.code|, T, s) && Prefix(d.code + [Label(l)], w.code)
    ensures Ends(w, o, from, c, |d.code| + 1, T, s')
  {
    s' := s;
    if o.Next? {
      s' := Run(|d.code| + 1, s.temps, s.vars);
      PassLabel(w, d, l, s.temps, s.vars);
      ReachesTrans(w.code, w.Fi, from, s, s');
    }
  }

  lemma ReachesVia(w: World, a: State, b: State)
    requires Reaches(w.code, w.Fi, a, b)
    ensures forall s :: Reaches(w.code, w.Fi, b, s) ==> Reaches(w.code, w.Fi, a, s)
  {
    forall s | Reaches(w.code, w.Fi, b, s)
      ensures Reaches(w.code, w.Fi, a, s)
    {
      ReachesTrans(w.code, w.Fi, a, b, s);
    }
  }

  // ----- while -----

  lemma EndsNext(w: World, env: Env, from: State, c: Ctx, T: Temps, s: State)
    requires Reaches(w.code, w.Fi, from, s) && s.Run? && Agrees(env, s.vars) && Typed(env, w.G)
    requires Keeps(T, s.temps, c.tmp)
    ensures Ends(w, Next(env), from, c, s.pc, T, s)
  {
  }

  lemma EndsOutOfTime(w: World, from: State, c: Ctx, p: nat, T: Temps, s: State)
    requires from.Run?
    ensures Ends(w, OutOfTime(0), from, c, p, T, s)
  {
    LastsNow(w.code, w.Fi, from);
  }

  // ----- for -----

  lemma ComputesKeeps(w: World, c: Ctx, d: Ctx, T: Temps, V: Vars, T': Temps)
    requires Computes(w, c, d, T, V, T')
    ensures Reaches(w.code, w.Fi, Run(|c.code|, T, V), Run(|d.code|, T', V)) && Keeps(T, T', c.tmp)
  {
  }

  lemma KeepsTrans(T: Temps, T': Temps, T'': Temps, n: nat, m: nat)
    requires Keeps(T, T', n) && Keeps(T', T'', m) && n <= m
    ensures Keeps(T, T'', n)
  {
  }

  lemma RunsIs(w: World, c: Ctx, d: Ctx, env: Env, V: Vars)
    requires Runs(w, c, d, env, V)
    ensures Ready(w, c, env, V) && Prefix(d.code, w.code) && Extends(d.vars, w.G) && UniqueLabels(w.code)
    ensures Placed(w, c)
    ensures Agrees(env, V) && Typed(env, w.G)
  {
  }

  lemma RunsWhen(w: World, c: Ctx, a: Ctx, b: Ctx, env0: Env, V0: Vars, env: Env, V: Vars)
    requires Ready(w, c, env0, V0) && UniqueLabels(w.code) && Agrees(env, V) && Typed(env, w.G) && a.funcs == c.funcs
    requires Extends(a.vars, w.G) && Extends(b.vars, w.G) && Prefix(b.code, w.code) && !Terminated(a.code)
    requires a.exit.Some? && FindLabel(w.code, a.exit.value).Some? && a.cont.Some?
    requires FindLabel(w.code, a.cont.value).Some?
    ensures Runs(w, a, b, env, V)
  {
  }
}
