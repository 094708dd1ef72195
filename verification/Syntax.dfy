/** Tokens, the trees the parser builds, and a printer that puts parentheses only where the grammar needs them. */
module Syntax {

  /** The left-associative binary operators, `or` and `and` included. */
  datatype Infix = OrOp | AndOp | BitOr | BitXor | BitAnd | LShift | RShift | Plus | Minus
                 | Star | Slash | DSlash | Percent | At

  datatype CmpOp = EqEq | NotEq | Lt | Gt | Leq | Geq | In | Is | NotIn

  datatype Token =
    | Int(n: nat) | Str(s: string) | TrueT | FalseT | NoneT | Name(id: string)
    | Sym(op: Infix) | Tilde | DStar | Cmp(c: CmpOp) | NotT | IfT | ElifT | ElseT | WhileT | ForT | AwaitT
    | PassT | BreakT | ContinueT | ReturnT | DefT
    | LPar | RPar | LBrack | RBrack | LBrace | RBrace | Comma | Dot | Colon | Eq | Aug(aug: Infix) | AugDStar
    | Newline | Semicolon | Indent | Dedent | Other(code: nat)

  datatype Prefix = Neg | Pos | Inv

  datatype Tree =
    | Num(n: nat)
    | Text(s: string)
    | Truth(b: bool)
    | NoneE
    | Ident(id: string)
    | Unary(p: Prefix, a: Tree)
    | NotE(a: Tree)
    | Binary(op: Infix, l: Tree, r: Tree)
    | Power(base: Tree, exp: Tree)
    | Compare(first: Tree, ops: seq<CmpOp>, rest: seq<Tree>)
    | IfExp(test: Tree, body: Tree, orelse: Tree)
    | Await(a: Tree)
    | Call(f: Tree, args: seq<Tree>)
    | Print(args: seq<Tree>)
    | Range(args: seq<Tree>)
    | Attr(obj: Tree, name: string)
    | Subscript(obj: Tree, index: Tree)
    | Tuple(elts: seq<Tree>)
    | List(elts: seq<Tree>)

  // ----- precedence -----

  const TERNARY: nat := 0
  const NOT: nat := 3
  const COMPARE: nat := 4
  const UNARY: nat := 11
  const POWER: nat := 12
  const AWAIT: nat := 13
  const POSTFIX: nat := 14
  const ATOM: nat := 15

  function InfixLevel(op: Infix): (k: nat)
    ensures 1 <= k <= 10 && k != NOT && k != COMPARE
  {
    match op
    case OrOp => 1
    case AndOp => 2
    case BitOr => 5
    case BitXor => 6
    case BitAnd => 7
    case LShift => 8
    case RShift => 8
    case Plus => 9
    case Minus => 9
    case _ => 10
  }

  /** The levels of the left-associative operators. */
  predicate IsInfixLevel(k: nat) {
    k == 1 || k == 2 || 5 <= k <= 10
  }

  /** How tightly the outermost operation of a tree binds. */
  function Level(e: Tree): (k: nat)
    ensures k <= ATOM
  {
    match e
    case IfExp(_, _, _) => TERNARY
    case Binary(op, _, _) => InfixLevel(op)
    case NotE(_) => NOT
    case Compare(_, _, _) => COMPARE
    case Unary(_, _) => UNARY
    case Power(_, _) => POWER
    case Await(_) => AWAIT
    case Call(_, _) => POSTFIX
    case Print(_) => POSTFIX
    case Range(_) => POSTFIX
    case Attr(_, _) => POSTFIX
    case Subscript(_, _) => POSTFIX
    case _ => ATOM
  }

  /** Trees the parser can build: a chain has as many operators as operands after the first, at least one; calls of
      `print` and `range` have their own nodes. */
  predicate WellFormed(e: Tree)
    decreases e, 1
  {
    match e
    case Unary(_, a) => WellFormed(a)
    case NotE(a) => WellFormed(a)
    case Binary(_, l, r) => WellFormed(l) && WellFormed(r)
    case Power(b, x) => WellFormed(b) && WellFormed(x)
    case Compare(first, ops, rest) => WellFormed(first) && AllWellFormed(rest) && |ops| == |rest| > 0
    case IfExp(t, b, o) => WellFormed(t) && WellFormed(b) && WellFormed(o)
    case Await(a) => WellFormed(a)
    case Call(f, args) => WellFormed(f) && AllWellFormed(args) && f != Ident("print") && f != Ident("range")
    case Print(args) => AllWellFormed(args)
    case Range(args) => AllWellFormed(args)
    case Attr(obj, _) => WellFormed(obj)
    case Subscript(obj, i) => WellFormed(obj) && WellFormed(i)
    case Tuple(es) => AllWellFormed(es)
    case List(es) => AllWellFormed(es)
    case _ => true
  }

  predicate AllWellFormed(es: seq<Tree>)
    decreases es, 0
  {
    es == [] || (WellFormed(es[0]) && AllWellFormed(es[1..]))
  }

  // ----- printing -----

  function PrefixToken(p: Prefix): Token {
    match p
    case Neg => Sym(Minus)
    case Pos => Sym(Plus)
    case Inv => Tilde
  }

  function CmpTokens(op: CmpOp): seq<Token> {
    if op == NotIn then [NotT, Cmp(In)] else [Cmp(op)]
  }

  /** A tree where a level of at least `k` is wanted. */
  function Show(e: Tree, k: nat): seq<Token>
    decreases e, 2
  {
    if Level(e) < k then [LPar] + ShowBare(e) + [RPar] else ShowBare(e)
  }

  function ShowBare(e: Tree): seq<Token>
    decreases e, 1
  {
    match e
    case Num(n) => [Int(n)]
    case Text(s) => [Str(s)]
    case Truth(b) => [if b then TrueT else FalseT]
    case NoneE => [NoneT]
    case Ident(x) => [Name(x)]
    case Unary(p, a) => [PrefixToken(p)] + Show(a, UNARY)
    case NotE(a) => [NotT] + Show(a, NOT)
    case Binary(op, l, r) => Show(l, InfixLevel(op)) + [Sym(op)] + Show(r, InfixLevel(op) + 1)
    case Power(b, x) => Show(b, AWAIT) + [DStar] + Show(x, UNARY)
    case Compare(first, ops, rest) => Show(first, COMPARE + 1) + ShowChain(ops, rest)
    case IfExp(t, b, o) => Show(b, 1) + [IfT] + Show(t, 1) + [ElseT] + Show(o, TERNARY)
    case Await(a) => [AwaitT] + Show(a, POSTFIX)
    case Call(f, args) => Show(f, POSTFIX) + [LPar] + ShowItems(args) + [RPar]
    case Print(args) => [Name("print"), LPar] + ShowItems(args) + [RPar]
    case Range(args) => [Name("range"), LPar] + ShowItems(args) + [RPar]
    case Attr(obj, x) => Show(obj, POSTFIX) + [Dot, Name(x)]
    case Subscript(obj, i) => Show(obj, POSTFIX) + [LBrack] + Show(i, TERNARY) + [RBrack]
    case Tuple(es) =>
      if |es| == 1 then [LPar] + Show(es[0], TERNARY) + [Comma, RPar] else [LPar] + ShowItems(es) + [RPar]
    case List(es) => [LBrack] + ShowItems(es) + [RBrack]
  }

  function ShowChain(ops: seq<CmpOp>, rest: seq<Tree>): seq<Token>
    decreases rest, 0
  {
    if ops == [] || rest == [] then []
    else CmpTokens(ops[0]) + Show(rest[0], COMPARE + 1) + ShowChain(ops[1..], rest[1..])
  }

  function ShowItems(es: seq<Tree>): seq<Token>
    decreases es, 1
  {
    if es == [] then [] else Show(es[0], TERNARY) + ShowMore(es[1..])
  }

  /** The items after the first, each after a comma. */
  function ShowMore(es: seq<Tree>): seq<Token>
    decreases es, 0
  {
    if es == [] then [] else [Comma] + Show(es[0], TERNARY) + ShowMore(es[1..])
  }
}
