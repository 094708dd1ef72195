/** A direct evaluation of the parser's own trees, with every operator spelled out. It knows nothing of opcodes or of
    the compiler's trees; `Lost` and `NoClaim` are what is outside the int/bool subset. */
module TreeMeaning {
  import opened Words
  import opened Wrappers
  import opened Syntax
  import opened StmtParser
  import P = Python

  // ----- expressions -----

  function Quotient(a: Word, b: Word): P.Eval<Word> {
    if b == 0 || (a == -TWO_63 && b == -1) then P.Fault(P.DivideError) else P.Val(Wrap(TruncDiv(a, b)))
  }

  function Remainder(a: Word, b: Word): P.Eval<Word> {
    if b == 0 || (a == -TWO_63 && b == -1) then P.Fault(P.DivideError) else P.Val(Wrap(a - b * TruncDiv(a, b)))
  }

  /** The value of a binary operator on two words. */
  function Arith(op: Infix, a: Word, b: Word): P.Eval<Word> {
    match op
    case Plus => P.Val(Wrap(a + b))
    case Minus => P.Val(Wrap(a - b))
    case Star => P.Val(Wrap(a * b))
    case DSlash => Quotient(a, b)
    case Percent => Remainder(a, b)
    case BitAnd => P.Val(Bitwise(AndBits, a, b))
    case BitOr => P.Val(Bitwise(OrBits, a, b))
    case BitXor => P.Val(Bitwise(XorBits, a, b))
    case LShift => P.Val(Wrap(a * Pow2(b % 64)))
    case RShift => P.Val(Wrap(a / Pow2(b % 64)))
    case AndOp => P.Val(if a != 0 && b != 0 then 1 else 0)
    case OrOp => P.Val(if a != 0 || b != 0 then 1 else 0)
    case Slash => P.Lost
    case At => P.Lost
  }

  predicate Comparison(op: CmpOp) {
    op != In && op != NotIn
  }

  predicate Related(op: CmpOp, a: Word, b: Word) {
    match op
    case EqEq => a == b
    case Is => a == b
    case NotEq => a != b
    case Lt => a < b
    case Gt => a > b
    case Leq => a <= b
    case Geq => a >= b
    case _ => false
  }

  /** `a ops[0] vs[0] ops[1] vs[1] ...` */
  predicate AllRelated(a: Word, ops: seq<CmpOp>, vs: seq<Word>)
    decreases |vs|
  {
    ops == [] || vs == [] || (Related(ops[0], a, vs[0]) && AllRelated(vs[0], ops[1..], vs[1..]))
  }

  function Prefixed(p: Prefix, v: Word): Word {
    match p
    case Neg => Wrap(0 - v)
    case Pos => v
    case Inv => -1 - v
  }

  function Value(F: P.CallEnv, e: Tree, env: P.Env): P.Eval<Word>
    decreases e, 1
  {
    match e
    case Num(n) => P.Val(Wrap(n))
    case Truth(b) => P.Val(if b then 1 else 0)
    case Ident(x) => if x in env then P.Val(env[x]) else P.Lost
    case Unary(p, a) =>
      var v :- Value(F, a, env);
      P.Val(Prefixed(p, v))
    case NotE(a) =>
      var v :- Value(F, a, env);
      P.Val(if v == 0 then 1 else 0)
    case Binary(op, l, r) =>
      var a :- Value(F, l, env);
      var b :- Value(F, r, env);
      Arith(op, a, b)
    case Compare(first, ops, rest) =>
      var a :- Value(F, first, env);
      var vs :- Values(F, rest, env);
      if |ops| != |vs| || exists op <- ops :: !Comparison(op) then P.Lost
      else P.Val(if AllRelated(a, ops, vs) then 1 else 0)
    case IfExp(t, b, o) =>
      var c :- Value(F, t, env);
      var v :- Value(F, b, env);
      var w :- Value(F, o, env);
      P.Val(if c != 0 then v else w)
    case Call(f, args) =>
      var vs :- Values(F, args, env);
      if f.Ident? then Answer(F(f.id, vs)) else P.Lost
    case _ => P.Lost
  }

  function Answer(r: P.CallResult): P.Eval<Word> {
    match r
    case Returns(v) => P.Val(v)
    case Faults(y) => P.Fault(y)
    case Unknown => P.Lost
  }

  function Values(F: P.CallEnv, es: seq<Tree>, env: P.Env): P.Eval<seq<Word>>
    decreases es, 0
  {
    if es == [] then P.Val([]) else
    var v :- Value(F, es[0], env);
    var vs :- Values(F, es[1..], env);
    P.Val([v] + vs)
  }

  // ----- statements -----

  function Given(r: P.Eval<Word>): P.Outcome
    requires !r.Val?
  {
    if r.Fault? then P.Crash(r.why) else P.NoClaim
  }

  /** Each target takes the value, from the left. */
  function Assigned(env: P.Env, ts: seq<Tree>, v: Word): P.Outcome
    decreases |ts|
  {
    if ts == [] then P.Next(env)
    else if !ts[0].Ident? then P.NoClaim
    else Assigned(env[ts[0].id := v], ts[1..], v)
  }

  /** An augmented assignment's operation; `/=` is the integer division. */
  function Augmented(op: Token, a: Word, b: Word): P.Eval<Word> {
    if !op.Aug? || op.aug == OrOp || op.aug == AndOp then P.Lost
    else if op.aug == Slash then Quotient(a, b)
    else Arith(op.aug, a, b)
  }

  /** `fuel` bounds the passes of each loop. */
  function Done(F: P.CallEnv, n: Node, env: P.Env, fuel: nat): P.Outcome
    decreases fuel, n, 1
  {
    match n
    case ExprS(e) =>
      var r := Value(F, e, env);
      if r.Val? then P.Next(env) else Given(r)
    case AssignS(ts, e) =>
      var r := Value(F, e, env);
      if r.Val? then Assigned(env, ts, r.value) else Given(r)
    case AugS(x, op, e) =>
      if x !in env then P.NoClaim else
      var r := Value(F, e, env);
      if !r.Val? then Given(r) else
      var v := Augmented(op, env[x], r.value);
      if v.Val? then P.Next(env[x := v.value]) else Given(v)
    case ReturnS(e) =>
      if e.None? then P.Returned(0) else
      var r := Value(F, e.value, env);
      if r.Val? then P.Returned(r.value) else Given(r)
    case PassS => P.Next(env)
    case BreakS => P.Broke(env)
    case ContinueS => P.Continued(env)
    case IfS(t, body, _, _) =>
      var r := Value(F, t, env);
      if !r.Val? then Given(r)
      else if r.value != 0 then AllDone(F, body, env, fuel)
      else ArmsDone(F, n, 0, env, fuel)
    case WhileS(t, body, orelse) =>
      var r := Value(F, t, env);
      if orelse != [] then P.NoClaim
      else if !r.Val? then Given(r)
      else if r.value == 0 then P.Next(env)
      else if fuel == 0 then P.OutOfTime(0)
      else
        var o := AllDone(F, body, env, fuel);
        if o.Next? || o.Continued? then P.Later(Done(F, n, o.env, fuel - 1))
        else if o.Broke? then P.Next(o.env)
        else o
    case ForS(x, iter, body, orelse) =>
      if orelse != [] || !iter.Range? then P.NoClaim else
      var r := Values(F, iter.args, env);
      if r.Fault? then P.Crash(r.why)
      else if r.Lost? || !(1 <= |r.value| <= 3) then P.NoClaim
      else if |r.value| == 1 then LoopDone(F, x, 0, r.value[0], 1, body, env, fuel, fuel)
      else if |r.value| == 2 then LoopDone(F, x, r.value[0], r.value[1], 1, body, env, fuel, fuel)
      else LoopDone(F, x, r.value[0], r.value[1], r.value[2], body, env, fuel, fuel)
    case DefS(_, _, _) => P.NoClaim
  }

  function AllDone(F: P.CallEnv, ss: seq<Node>, env: P.Env, fuel: nat): P.Outcome
    decreases fuel, ss, 0
  {
    if ss == [] then P.Next(env) else
    var o := Done(F, ss[0], env, fuel);
    if o.Next? then AllDone(F, ss[1..], o.env, fuel) else o
  }

  /** The `elif` arms from the `i`-th on, then `else`. */
  function ArmsDone(F: P.CallEnv, n: Node, i: nat, env: P.Env, fuel: nat): P.Outcome
    requires n.IfS? && i <= |n.elifs|
    decreases fuel, n, 0, |n.elifs| - i
  {
    if i == |n.elifs| then AllDone(F, n.orelse, env, fuel) else
    var r := Value(F, n.elifs[i].test, env);
    if !r.Val? then Given(r)
    else if r.value != 0 then AllDone(F, n.elifs[i].body, env, fuel)
    else ArmsDone(F, n, i + 1, env, fuel)
  }

  /** The counting loop as the compiler decides it; `ForRange` says when this is Python's. */
  function LoopDone(F: P.CallEnv, x: string, i: Word, stop: Word, step: Word, body: seq<Node>, env: P.Env, fuel: nat,
                    passes: nat): P.Outcome
    decreases fuel, body, passes
  {
    if i >= stop then P.Next(env)
    else if passes == 0 then P.OutOfTime(0)
    else
      var o := AllDone(F, body, env[x := i], fuel);
      if o.Next? || o.Continued? then
        P.Later(LoopDone(F, x, Wrap(i + step), stop, step, body, o.env, fuel, passes - 1))
      else if o.Broke? then P.Next(o.env)
      else o
  }

  // ----- programs -----

  /** The definition of `f` among the ones a program starts with: the last one of that name counts. */
  function Defined(ss: seq<Node>, f: string): Option<Node> {
    if ss == [] || !ss[0].DefS? then None
    else if Defined(ss[1..], f).Some? then Defined(ss[1..], f)
    else if ss[0].name == f then Some(ss[0])
    else None
  }

  /** The statements after the definitions. */
  function TopLevel(ss: seq<Node>): seq<Node> {
    if ss != [] && ss[0].DefS? then TopLevel(ss[1..]) else ss
  }

  function Arguments(params: seq<string>, args: seq<Word>): P.Env
    requires |params| == |args|
    decreases |params|
  {
    if params == [] then map[]
    else Arguments(params[..|params| - 1], args[..|args| - 1])[params[|params| - 1] := args[|args| - 1]]
  }

  /** What a run that ended so returns: 0 without a `return`. */
  function Answered(o: P.Outcome): P.CallResult {
    match o
    case Returned(v) => P.Returns(v)
    case Next(_) => P.Returns(0)
    case Crash(y) => P.Faults(y)
    case _ => P.Unknown
  }

  /** A call in the program `ss`, with at most `depth` calls inside each other and `depth` passes of each loop. */
  function NodeCall(ss: seq<Node>, depth: nat, f: string, args: seq<Word>): P.CallResult
    decreases depth, 0
  {
    var d := Defined(ss, f);
    if depth == 0 || d.None? || !d.value.DefS? || |args| != |d.value.params| then P.Unknown
    else Answered(AllDone(NodeCalls(ss, depth - 1), d.value.body, Arguments(d.value.params, args), depth))
  }

  function NodeCalls(ss: seq<Node>, depth: nat): P.CallEnv
    decreases depth, 1
  {
    (f: string, args: seq<Word>) => NodeCall(ss, depth, f, args)
  }

  /** The result of the top-level statements. */
  function NodeMain(ss: seq<Node>, depth: nat): P.CallResult {
    Answered(AllDone(NodeCalls(ss, depth), TopLevel(ss), map[], depth + 1))
  }
}
