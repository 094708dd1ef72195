/** The compiler's reading of the parser's trees: the int/bool subset, with an opcode for each operator. */
module SubsetTrees {
  import opened Words
  import opened Wrappers
  import P = Python
  import S = Syntax
  import N = StmtParser

  /** The integer opcode of an operator; `/`, `@` and `**` have none. */
  function Opcode(op: S.Infix): Option<BinOp> {
    match op
    case Plus => Some(Add)
    case Minus => Some(Sub)
    case Star => Some(Mul)
    case DSlash => Some(Div)
    case Percent => Some(Mod)
    case BitAnd => Some(And)
    case BitOr => Some(Or)
    case BitXor => Some(Xor)
    case LShift => Some(Shl)
    case RShift => Some(Shr)
    case _ => None
  }

  /** In an augmented assignment `/=` is the integer division as well. */
  function AugOpcode(op: S.Infix): Option<BinOp> {
    if op.Slash? then Some(Div) else Opcode(op)
  }

  function CmpOpcode(op: S.CmpOp): Option<BinOp> {
    match op
    case EqEq => Some(CmpEq)
    case NotEq => Some(CmpNe)
    case Lt => Some(CmpLt)
    case Gt => Some(CmpGt)
    case Leq => Some(CmpLe)
    case Geq => Some(CmpGe)
    case Is => Some(CmpEq)
    case _ => None
  }

  function CmpOpcodes(ops: seq<S.CmpOp>): Option<seq<BinOp>> {
    if ops == [] then Some([])
    else if CmpOpcode(ops[0]).None? || CmpOpcodes(ops[1..]).None? then None
    else Some([CmpOpcode(ops[0]).value] + CmpOpcodes(ops[1..]).value)
  }

  function UnaryFrom(p: S.Prefix): P.UnaryOp {
    match p
    case Neg => P.Minus
    case Pos => P.Plus
    case Inv => P.Tilde
  }

  /** The tree of an expression of the int/bool subset. */
  function ExprFrom(e: S.Tree): Option<P.Expr>
    decreases e, 1
  {
    match e
    case Num(n) => Some(P.IntLit(n))
    case Truth(b) => Some(P.BoolLit(b))
    case Ident(x) => Some(P.Var(x))
    case Unary(p, a) =>
      var v := ExprFrom(a);
      if v.None? then None else Some(P.UnaryE(UnaryFrom(p), v.value))
    case NotE(a) =>
      var v := ExprFrom(a);
      if v.None? then None else Some(P.UnaryE(P.LogicalNot, v.value))
    case Binary(op, l, r) =>
      var a, b := ExprFrom(l), ExprFrom(r);
      if a.None? || b.None? then None
      else if op.OrOp? then Some(P.BoolE(P.OrOp, [a.value, b.value]))
      else if op.AndOp? then Some(P.BoolE(P.AndOp, [a.value, b.value]))
      else if Opcode(op).None? then None
      else Some(P.BinaryE(Opcode(op).value, a.value, b.value))
    case Compare(first, ops, rest) =>
      var a, bs, cs := ExprFrom(first), ExprsFrom(rest), CmpOpcodes(ops);
      if a.None? || bs.None? || cs.None? then None else Some(P.Compare(a.value, cs.value, bs.value))
    case IfExp(t, b, o) =>
      var c, v, w := ExprFrom(t), ExprFrom(b), ExprFrom(o);
      if c.None? || v.None? || w.None? then None else Some(P.IfExp(c.value, v.value, w.value))
    case Call(f, args) =>
      var vs := ExprsFrom(args);
      if !f.Ident? || vs.None? then None else Some(P.CallE(f.id, vs.value))
    case _ => None
  }

  function ExprsFrom(es: seq<S.Tree>): Option<seq<P.Expr>>
    decreases es, 0
  {
    if es == [] then Some([]) else
    var v, vs := ExprFrom(es[0]), ExprsFrom(es[1..]);
    if v.None? || vs.None? then None else Some([v.value] + vs.value)
  }

  function NamesFrom(ts: seq<S.Tree>): Option<seq<string>> {
    if ts == [] then Some([])
    else if !ts[0].Ident? || NamesFrom(ts[1..]).None? then None
    else Some([ts[0].id] + NamesFrom(ts[1..]).value)
  }

  /** A statement of the subset. A loop's `else` is dropped by the compiler, so loops with one are not in it. */
  function StmtFrom(n: N.Node): Option<P.Stmt>
    decreases n, 1
  {
    match n
    case AssignS(ts, v) =>
      if NamesFrom(ts).None? || ExprFrom(v).None? then None
      else Some(P.Assign(NamesFrom(ts).value, ExprFrom(v).value))
    case AugS(x, op, v) =>
      if !op.Aug? || AugOpcode(op.aug).None? || ExprFrom(v).None? then None
      else Some(P.AugAssign(x, AugOpcode(op.aug).value, ExprFrom(v).value))
    case ReturnS(e) =>
      if e.None? then Some(P.Return(None))
      else if ExprFrom(e.value).None? then None
      else Some(P.Return(Some(ExprFrom(e.value).value)))
    case PassS => Some(P.Pass)
    case BreakS => Some(P.Break)
    case ContinueS => Some(P.Continue)
    case IfS(t, body, elifs, orelse) =>
      var e, b, arms, o := ExprFrom(t), StmtsFrom(body), ArmsFrom(elifs), StmtsFrom(orelse);
      if e.None? || b.None? || arms.None? || o.None? then None else Some(P.If(e.value, b.value, arms.value, o.value))
    case WhileS(t, body, orelse) =>
      var e, b := ExprFrom(t), StmtsFrom(body);
      if e.None? || b.None? || orelse != [] then None else Some(P.While(e.value, b.value))
    case ForS(x, iter, body, orelse) =>
      if !iter.Range? || orelse != [] then None else
      var args, b := ExprsFrom(iter.args), StmtsFrom(body);
      if args.None? || b.None? then None else Some(P.ForRange(x, args.value, b.value))
    case ExprS(e) => if !e.Call? || ExprFrom(e).None? then None else Some(P.CallStmt(ExprFrom(e).value))
    case DefS(_, _, _) => None
  }

  function StmtsFrom(ss: seq<N.Node>): Option<seq<P.Stmt>>
    decreases ss, 0
  {
    if ss == [] then Some([]) else
    var s, more := StmtFrom(ss[0]), StmtsFrom(ss[1..]);
    if s.None? || more.None? then None else Some([s.value] + more.value)
  }

  function ArmsFrom(arms: seq<N.Arm>): Option<seq<P.Elif>>
    decreases arms, 0
  {
    if arms == [] then Some([]) else
    var t, b, more := ExprFrom(arms[0].test), StmtsFrom(arms[0].body), ArmsFrom(arms[1..]);
    if t.None? || b.None? || more.None? then None else Some([P.Elif(t.value, b.value)] + more.value)
  }

  /** A program of the subset: its functions, then its top-level statements. */
  function ProgramFrom(ss: seq<N.Node>): Option<P.Program> {
    if ss != [] && ss[0].DefS? then
      var body, more := StmtsFrom(ss[0].body), ProgramFrom(ss[1..]);
      if body.None? || more.None? then None
      else Some(P.Program([P.FuncDef(ss[0].name, ss[0].params, body.value)] + more.value.defs, more.value.main))
    else if StmtsFrom(ss).None? then None
    else Some(P.Program([], StmtsFrom(ss).value))
  }
}
