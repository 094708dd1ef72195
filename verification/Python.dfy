/** The int/bool subset of the source language: syntax trees as the parser builds them, and a direct
    evaluation of the tree. `bool` is a subset of `int`, so every value is a word; what the compiler decides
    (wrapping, truncating division, strict `and`/`or` yielding 0 or 1, both arms of a conditional evaluated)
    is the meaning of the operators here. */
module Python {
  import opened Words
  import opened Wrappers

  datatype UnaryOp = Minus | Plus | Tilde | LogicalNot
  datatype BoolOp = AndOp | OrOp

  datatype Expr =
    | IntLit(value: int)
    | BoolLit(truth: bool)
    | Var(name: string)
    | UnaryE(uop: UnaryOp, operand: Expr)
    | BinaryE(op: BinOp, left: Expr, right: Expr)
    | Compare(first: Expr, cmps: seq<BinOp>, comparators: seq<Expr>)
    | BoolE(bop: BoolOp, values: seq<Expr>)
    | IfExp(test: Expr, body: Expr, orelse: Expr)
    | CallE(func: string, args: seq<Expr>)

  datatype Elif = Elif(test: Expr, body: seq<Stmt>)

  datatype Stmt =
    | Assign(targets: seq<string>, value: Expr)
    | AugAssign(name: string, op: BinOp, value: Expr)
    | CallStmt(call: Expr)
    | If(test: Expr, body: seq<Stmt>, elifs: seq<Elif>, orelse: seq<Stmt>)
    | While(test: Expr, body: seq<Stmt>)
    | ForRange(target: string, rangeArgs: seq<Expr>, body: seq<Stmt>)
    | Return(result: Option<Expr>)
    | Break
    | Continue
    | Pass

  datatype FuncDef = FuncDef(name: string, params: seq<string>, body: seq<Stmt>)

  datatype Program = Program(defs: seq<FuncDef>, main: seq<Stmt>)

  // ----- evaluation -----

  /** What a call gives: a value, a divide error, or nothing this semantics describes (a name read before it is
      assigned, a `range` without one to three arguments, or no result within the bound on depth and passes). */
  datatype CallResult = Returns(value: Word) | Faults(why: Failure) | Unknown

  /** Why a run is given up: a division by zero or out of range, or a call that is left open, which only ever comes from
      a `CallEnv` that says so. */
  datatype Failure = DivideError | Open

  type CallEnv = (string, seq<Word>) -> CallResult

  type Env = map<string, Word>

  datatype Eval<+T> = Val(value: T) | Fault(why: Failure) | Lost {
    predicate IsFailure() { !Val? }
    function PropagateFailure<U>(): Eval<U>
      requires IsFailure()
    {
      if Fault? then Fault(why) else Lost
    }
    function Extract(): T
      requires !IsFailure()
    {
      value
    }
  }

  function OfOption(r: Option<Word>): Eval<Word> {
    if r.Some? then Val(r.value) else Fault(DivideError)
  }

  function OfCall(r: CallResult): Eval<Word> {
    match r
    case Returns(v) => Val(v)
    case Faults(y) => Fault(y)
    case Unknown => Lost
  }

  function EvalUnary(op: UnaryOp, v: Word): Word {
    match op
    case Minus => Wrap(0 - v)
    case Plus => v
    case Tilde => -1 - v
    case LogicalNot => BoolWord(!Truthy(v))
  }

  predicate AllTruthy(vs: seq<Word>) {
    forall v <- vs :: Truthy(v)
  }

  predicate SomeTruthy(vs: seq<Word>) {
    exists v <- vs :: Truthy(v)
  }

  /** Does `a cmps[0] vs[0] cmps[1] vs[1] ...` hold? */
  predicate ChainHolds(a: Word, cmps: seq<BinOp>, vs: seq<Word>)
    requires |cmps| == |vs|
    decreases vs
  {
    vs == [] ||
    (Binary(cmps[0], a, vs[0]) == Some(1) && ChainHolds(vs[0], cmps[1..], vs[1..]))
  }

  function EvalExpr(F: CallEnv, e: Expr, env: Env): Eval<Word>
    decreases e, 1
  {
    match e
    case IntLit(v) => Val(Wrap(v))
    case BoolLit(b) => Val(BoolWord(b))
    case Var(x) => if x in env then Val(env[x]) else Lost
    case UnaryE(op, a) =>
      var v :- EvalExpr(F, a, env);
      Val(EvalUnary(op, v))
    case BinaryE(op, l, r) =>
      var a :- EvalExpr(F, l, env);
      var b :- EvalExpr(F, r, env);
      OfOption(Binary(op, a, b))
    case Compare(l, cmps, rs) =>
      var a :- EvalExpr(F, l, env);
      var vs :- EvalAll(F, rs, env);
      if |cmps| == |vs| then Val(BoolWord(ChainHolds(a, cmps, vs))) else Lost
    case BoolE(op, es) =>
      var vs :- EvalAll(F, es, env);
      Val(BoolWord(if op.AndOp? then AllTruthy(vs) else SomeTruthy(vs)))
    case IfExp(t, a, b) =>
      var c :- EvalExpr(F, t, env);
      var v :- EvalExpr(F, a, env);
      var w :- EvalExpr(F, b, env);
      Val(if Truthy(c) then v else w)
    case CallE(f, args) =>
      var vs :- EvalAll(F, args, env);
      OfCall(F(f, vs))
  }

  function EvalAll(F: CallEnv, es: seq<Expr>, env: Env): (r: Eval<seq<Word>>)
    ensures r.Val? ==> |r.value| == |es|
    decreases es, 0
  {
    if es == [] then Val([])
    else
      var v :- EvalExpr(F, es[0], env);
      var vs :- EvalAll(F, es[1..], env);
      Val([v] + vs)
  }

  // ----- statements -----

  /** `NoClaim` is what this semantics does not describe; `OutOfTime` says that the bound ended a loop, after this many
      passes at least. */
  datatype Outcome =
    | Next(env: Env) | Broke(env: Env) | Continued(env: Env) | Returned(result: Word) | Crash(why: Failure)
    | NoClaim | OutOfTime(passes: nat)

  /** The outcome of a loop, one pass earlier. */
  function Later(o: Outcome): Outcome {
    if o.OutOfTime? then OutOfTime(o.passes + 1) else o
  }

  function OfEval<T>(r: Eval<T>): Outcome
    requires !r.Val?
  {
    if r.Fault? then Crash(r.why) else NoClaim
  }

  function AssignAll(env: Env, targets: seq<string>, v: Word): Env
    decreases |targets|
  {
    if targets == [] then env else AssignAll(env[targets[0] := v], targets[1..], v)
  }

  /** `fuel` bounds the passes of each loop. */
  function Exec(F: CallEnv, s: Stmt, env: Env, fuel: nat): Outcome
    decreases fuel, s, 1
  {
    match s
    case Assign(targets, e) =>
      var r := EvalExpr(F, e, env);
      if r.Val? then Next(AssignAll(env, targets, r.value)) else OfEval(r)
    case AugAssign(x, op, e) =>
      if x !in env then NoClaim else
      var r := EvalExpr(F, e, env);
      if !r.Val? then OfEval(r) else
      var q := Binary(op, env[x], r.value);
      if q.Some? then Next(env[x := q.value]) else Crash(DivideError)
    case CallStmt(e) =>
      var r := EvalExpr(F, e, env);
      if r.Val? then Next(env) else OfEval(r)
    case If(t, body, elifs, orelse) =>
      var r := EvalExpr(F, t, env);
      if !r.Val? then OfEval(r)
      else if Truthy(r.value) then ExecAll(F, body, env, fuel)
      else ExecElifs(F, s, 0, env, fuel)
    case While(t, body) =>
      var r := EvalExpr(F, t, env);
      if !r.Val? then OfEval(r)
      else if !Truthy(r.value) then Next(env)
      else if fuel == 0 then OutOfTime(0)
      else (
        match ExecAll(F, body, env, fuel)
        case Next(env') => Later(Exec(F, s, env', fuel - 1))
        case Continued(env') => Later(Exec(F, s, env', fuel - 1))
        case Broke(env') => Next(env')
        case Returned(v) => Returned(v)
        case Crash(y) => Crash(y)
        case NoClaim => NoClaim
        case OutOfTime(n) => OutOfTime(n)
      )
    case ForRange(x, args, body) =>
      var r := EvalAll(F, args, env);
      if !r.Val? then OfEval(r)
      else if !(1 <= |r.value| <= 3) then NoClaim
      else
        var (start, stop, step) := RangeBounds(r.value);
        ExecLoop(F, x, start, stop, step, body, env, fuel, fuel)
    case Return(e) =>
      if e.None? then Returned(0) else
      var r := EvalExpr(F, e.value, env);
      if r.Val? then Returned(r.value) else OfEval(r)
    case Break => Broke(env)
    case Continue => Continued(env)
    case Pass => Next(env)
  }

  function RangeBounds(vs: seq<Word>): (Word, Word, Word)
    requires 1 <= |vs| <= 3
  {
    if |vs| == 1 then (0, vs[0], 1)
    else if |vs| == 2 then (vs[0], vs[1], 1)
    else (vs[0], vs[1], vs[2])
  }

  function ExecAll(F: CallEnv, ss: seq<Stmt>, env: Env, fuel: nat): Outcome
    decreases fuel, ss, 0
  {
    if ss == [] then Next(env) else
    var r := Exec(F, ss[0], env, fuel);
    if r.Next? then ExecAll(F, ss[1..], r.env, fuel) else r
  }

  /** The `elif` arms of `s` from the `i`-th on, then its `else`. */
  function ExecElifs(F: CallEnv, s: Stmt, i: nat, env: Env, fuel: nat): Outcome
    requires s.If? && i <= |s.elifs|
    decreases fuel, s, 0, |s.elifs| - i
  {
    if i == |s.elifs| then ExecAll(F, s.orelse, env, fuel) else
    var r := EvalExpr(F, s.elifs[i].test, env);
    if !r.Val? then OfEval(r)
    else if Truthy(r.value) then ExecAll(F, s.elifs[i].body, env, fuel)
    else ExecElifs(F, s, i + 1, env, fuel)
  }

  /** A counting loop as the compiler decides it: the index is tested by `<`, and the step is added to it modulo 2^64,
      whatever the body assigns to the loop variable. `ForRange` says when this is what Python means. */
  function ExecLoop(F: CallEnv, x: string, i: Word, stop: Word, step: Word, body: seq<Stmt>, env: Env, fuel: nat,
                    passes: nat): Outcome
    decreases fuel, body, passes
  {
    if i >= stop then Next(env)
    else if passes == 0 then OutOfTime(0)
    else (
      match ExecAll(F, body, env[x := i], fuel)
      case Next(env') => Later(ExecLoop(F, x, Wrap(i + step), stop, step, body, env', fuel, passes - 1))
      case Continued(env') => Later(ExecLoop(F, x, Wrap(i + step), stop, step, body, env', fuel, passes - 1))
      case Broke(env') => Next(env')
      case Returned(v) => Returned(v)
      case Crash(y) => Crash(y)
      case NoClaim => NoClaim
      case OutOfTime(n) => OutOfTime(n)
    )
  }
}
