/** Text to tree: printing any tree of statements on lines, each block indented more than its header by any amount, with
    blank and comment lines anywhere, then tokenizing and parsing, gives the tree back. */
module LayoutRoundTrip {
  import opened Wrappers
  import opened Syntax
  import opened ExprParser
  import opened ExprRoundTrip
  import opened StmtParser
  import opened StmtRoundTrip
  import opened Layout
  import opened TripleQuotes
  import opened SourceLines

  // ----- lines -----

  /** The text of some tokens, without what stands before it on its first line. Between brackets it may go on on further
      lines. */
  type Printer = Tokens -> seq<string>

  /** A text for each statement's header, by its place in the program. */
  type Printers = seq<nat> -> Printer

  /** How much more than one space a block is indented, by its place in the program. */
  type Widths = seq<nat> -> nat

  function Spaces(n: nat): (s: string)
    ensures |s| == n && forall c <- s :: c == ' '
  {
    if n == 0 then "" else " " + Spaces(n - 1)
  }

  /** Only the first line is indented as its block is. */
  function LinesOf(text: Printer, ind: nat, ts: Tokens): seq<string> {
    var ls := text(ts);
    if ls == [] then [] else [Spaces(ind) + ls[0]] + ls[1..]
  }

  function NodeLines(text: Printers, w: Widths, path: seq<nat>, ind: nat, n: Node): seq<string>
    decreases n, 0
  {
    if Simple(n) then LinesOf(text(path), ind, ShowSimple(n))
    else
      LinesOf(text(path), ind, ShowHeader(n)) + BodyLines(text, w, path + [0], ind, n.body)
      + (if n.IfS? then ArmLines(text, w, path, ind, n.elifs) else [])
      + (if n.DefS? then [] else ElseLines(text, w, path, ind, n.orelse))
  }

  function BodyLines(text: Printers, w: Widths, path: seq<nat>, ind: nat, ss: seq<Node>): seq<string>
    decreases ss, 1
  {
    NodesLines(text, w, path, ind + w(path) + 1, ss)
  }

  function ArmLines(text: Printers, w: Widths, path: seq<nat>, ind: nat, arms: seq<Arm>): seq<string>
    decreases arms, 0
  {
    if arms == [] then []
    else
      LinesOf(text(path + [|arms|, 0]), ind, ArmHeader(arms[0]))
      + BodyLines(text, w, path + [|arms|, 0], ind, arms[0].body)
      + ArmLines(text, w, path, ind, arms[1..])
  }

  function ElseLines(text: Printers, w: Widths, path: seq<nat>, ind: nat, ss: seq<Node>): seq<string>
    decreases ss, 2
  {
    if ss == [] then [] else LinesOf(text(path + [1]), ind, [ElseT, Colon]) + BodyLines(text, w, path + [1], ind, ss)
  }

  function NodesLines(text: Printers, w: Widths, path: seq<nat>, ind: nat, ss: seq<Node>): seq<string>
    decreases ss, 0
  {
    if ss == [] then []
    else NodeLines(text, w, path + [|ss|], ind, ss[0]) + NodesLines(text, w, path, ind, ss[1..])
  }

  /** The scanner reads the tokens back from the lines, none of which looks blank or like a comment; a bracket is open
      at the end of each line but the last, `d` of them before the first. */
  predicate Whole(scan: Scanner, d: nat, ls: seq<string>, ts: Tokens)
    decreases |ls|
  {
    ls != [] && !Blank(ls[0]) &&
    var t := scan(Strip(ls[0]));
    t <= ts &&
    if |ls| == 1 then t == ts
    else DepthAfter(d, t) > 0 && Whole(scan, DepthAfter(d, t), ls[1..], ts[|t|..])
  }

  predicate Readable(scan: Scanner, text: Printer, ts: Tokens) {
    var ls := text(ts);
    ls != [] && ls[0] != "" && !IsSpace(ls[0][0]) && Whole(scan, 0, ls, ts)
  }

  /** They are readable wherever they stand. */
  ghost predicate Legible(scan: Scanner, text: Printers, ts: Tokens) {
    forall path: seq<nat> :: Readable(scan, text(path), ts)
  }

  /** Every line of a statement is readable. */
  ghost predicate NodeReadable(scan: Scanner, text: Printers, n: Node)
    decreases n, 0
  {
    if Simple(n) then Legible(scan, text, ShowSimple(n))
    else
      && Legible(scan, text, ShowHeader(n)) && NodesReadable(scan, text, n.body)
      && (n.IfS? ==> ArmsReadable(scan, text, n.elifs))
      && (!n.DefS? ==> NodesReadable(scan, text, n.orelse) && (n.orelse != [] ==> Legible(scan, text, [ElseT, Colon])))
  }

  ghost predicate NodesReadable(scan: Scanner, text: Printers, ss: seq<Node>)
    decreases ss, 0
  {
    ss == [] || (NodeReadable(scan, text, ss[0]) && NodesReadable(scan, text, ss[1..]))
  }

  ghost predicate ArmsReadable(scan: Scanner, text: Printers, arms: seq<Arm>)
    decreases arms, 0
  {
    arms == [] || (
      && Legible(scan, text, ArmHeader(arms[0])) && NodesReadable(scan, text, arms[0].body)
      && ArmsReadable(scan, text, arms[1..]))
  }

  // ----- the machine without line numbers -----

  datatype View = View(out: Tokens, stack: seq<nat>, depth: nat)

  function Unstamp(ts: seq<Stamped>): (r: Tokens)
    ensures |r| == |ts| && forall i | 0 <= i < |ts| :: r[i] == ts[i].t
  {
    seq(|ts|, i requires 0 <= i < |ts| => ts[i].t)
  }

  function Look(s: Lex): View {
    View(Unstamp(s.out), s.stack, s.depth)
  }

  function VPop(v: View, indent: nat): View
    decreases |v.stack|
  {
    if |v.stack| > 1 && indent < v.stack[|v.stack| - 1]
    then VPop(View(v.out + [Dedent], v.stack[..|v.stack| - 1], v.depth), indent)
    else v
  }

  function VMargin(v: View, indent: nat): View
    requires v.stack != []
  {
    if v.depth > 0 then v
    else if indent > v.stack[|v.stack| - 1] then View(v.out + [Indent], v.stack + [indent], 0)
    else VPop(v, indent)
  }

  function VLine(scan: Scanner, v: View, line: string): View {
    if Blank(line) || v.stack == [] then v else
    var m := VMargin(v, Indentation(line));
    var ts := scan(Strip(line));
    var depth := DepthAfter(m.depth, ts);
    View(m.out + ts + (if depth == 0 then [Newline] else []), m.stack, depth)
  }

  function VLines(scan: Scanner, v: View, lines: seq<string>): View
    decreases |lines|
  {
    if lines == [] then v else VLines(scan, VLine(scan, v, lines[0]), lines[1..])
  }

  lemma {:induction false} VLinesAppend(scan: Scanner, v: View, a: seq<string>, b: seq<string>)
    ensures VLines(scan, v, a + b) == VLines(scan, VLines(scan, v, a), b)
    decreases |a|
  {
    hide VLine;
    if a == [] {
      assert a + b == b;
    } else {
      assert (a + b)[1..] == a[1..] + b;
      VLinesAppend(scan, VLine(scan, v, a[0]), a[1..], b);
    }
  }

  lemma UnstampAppend(a: seq<Stamped>, b: seq<Stamped>)
    ensures Unstamp(a + b) == Unstamp(a) + Unstamp(b)
  {
  }

  lemma UnstampOne(t: Token, n: nat)
    ensures Unstamp([Stamped(t, n)]) == [t] && Unstamp([]) == []
  {
  }

  lemma UnstampStamp(ts: Tokens, n: nat)
    ensures Unstamp(Stamp(ts, n)) == ts
  {
  }

  lemma {:induction false} LookPop(s: Lex, indent: nat, n: nat)
    ensures Look(Pop(s, indent, n)) == VPop(Look(s), indent)
    decreases |s.stack|
  {
    hide Unstamp;
    var top := |s.stack| - 1;
    if top > 0 && indent < s.stack[top] {
      UnstampAppend(s.out, [Stamped(Dedent, n)]);
      UnstampOne(Dedent, n);
      LookPop(Lex(s.out + [Stamped(Dedent, n)], s.stack[..top], s.depth), indent, n);
    }
  }

  lemma LookMargin(s: Lex, indent: nat, n: nat)
    requires s.stack != []
    ensures Look(Margin(s, indent, n)) == VMargin(Look(s), indent)
  {
    hide Unstamp, Pop, VPop;
    LookPop(s, indent, n);
    UnstampAppend(s.out, [Stamped(Indent, n)]);
    UnstampOne(Indent, n);
  }

  lemma LookLine(scan: Scanner, s: Lex, line: string, n: nat)
    requires s.stack != []
    ensures Look(LexLine(scan, s, line, n)) == VLine(scan, Look(s), line)
  {
    if !Blank(line) {
      hide Unstamp, Margin, VMargin, Strip, DepthAfter, Stamp;
      LookMargin(s, Indentation(line), n);
      var m := Margin(s, Indentation(line), n);
      var ts := scan(Strip(line));
      var end := if DepthAfter(m.depth, ts) == 0 then [Stamped(Newline, n)] else [];
      UnstampAppend(m.out + Stamp(ts, n), end);
      UnstampAppend(m.out, Stamp(ts, n));
      UnstampStamp(ts, n);
      UnstampOne(Newline, n);
    }
  }

  lemma {:induction false} LookLines(scan: Scanner, lines: seq<string>, k: nat)
    requires k <= |lines|
    ensures Look(LexLines(scan, lines, k)) == VLines(scan, View([], [0], 0), lines[..k])
    decreases k
  {
    var v0 := View([], [0], 0);
    if k > 0 {
      LookLines(scan, lines, k - 1);
      LookLine(scan, LexLines(scan, lines, k - 1), lines[k - 1], k);
      assert lines[..k] == lines[..k - 1] + [lines[k - 1]];
      VLinesAppend(scan, v0, lines[..k - 1], [lines[k - 1]]);
      hide LexLine, VLine, Look;
      OneLine(scan, VLines(scan, v0, lines[..k - 1]), lines[k - 1]);
    }
  }

  lemma OneLine(scan: Scanner, v: View, line: string)
    ensures VLines(scan, v, [line]) == VLine(scan, v, line)
  {
    hide VLine;
    assert [line][1..] == [];
  }

  // ----- one line -----

  lemma {:induction false} StripSpaces(n: nat, s: string)
    requires s != "" && !IsSpace(s[0])
    ensures Strip(Spaces(n) + s) == s
    decreases n
  {
    if n > 0 {
      assert (Spaces(n) + s)[1..] == Spaces(n - 1) + s;
      StripSpaces(n - 1, s);
    } else {
      assert Spaces(0) + s == s;
    }
  }

  /** The indentation of the first line does not change the tokens. */
  lemma LineIs(scan: Scanner, text: Printer, ind: nat, ts: Tokens)
    requires Readable(scan, text, ts)
    ensures var ls := LinesOf(text, ind, ts);
      ls != [] && Whole(scan, 0, ls, ts) && Indentation(ls[0]) == ind
  {
    var ls := text(ts);
    var indented := LinesOf(text, ind, ts);
    StripSpaces(ind, ls[0]);
    assert Strip(ls[0]) == ls[0];
    assert indented[1..] == ls[1..] && |indented| == |ls| && Strip(indented[0]) == Strip(ls[0]);
    hide Strip, DepthAfter;
  }

  /** Lines that begin inside brackets, whatever their indentation: no INDENT, no DEDENT, and no NEWLINE before the
      brackets are closed. */
  lemma {:induction false} OpenLines(scan: Scanner, v: View, ls: seq<string>, ts: Tokens)
    requires v.depth > 0 && v.stack != [] && Whole(scan, v.depth, ls, ts)
    ensures var d := DepthAfter(v.depth, ts);
      VLines(scan, v, ls) == View(v.out + ts + (if d == 0 then [Newline] else []), v.stack, d)
    decreases |ls|
  {
    hide DepthAfter, Strip, Blank;
    var t := scan(Strip(ls[0]));
    OneLine(scan, v, ls[0]);
    if |ls| == 1 {
      assert ls == [ls[0]];
    } else {
      var d := DepthAfter(v.depth, t);
      assert VLine(scan, v, ls[0]) == View(v.out + t, v.stack, d) by {
        assert v.out + t + [] == v.out + t;
      }
      OpenLines(scan, View(v.out + t, v.stack, d), ls[1..], ts[|t|..]);
      DepthAppend(v.depth, t, ts[|t|..]);
      assert t + ts[|t|..] == ts;
      assert v.out + t + ts[|t|..] == v.out + ts;
    }
  }

  /** A statement's line and the lines it goes on on: INDENT or DEDENTs before the first only, all the tokens, and one
      NEWLINE after the last. */
  lemma WholeLines(scan: Scanner, v: View, ls: seq<string>, ts: Tokens)
    requires v.depth == 0 && v.stack != [] && Whole(scan, 0, ls, ts)
    ensures var m, d := VMargin(v, Indentation(ls[0])), DepthAfter(0, ts);
      VLines(scan, v, ls) == View(m.out + ts + (if d == 0 then [Newline] else []), m.stack, d)
  {
    VMarginIs(v, Indentation(ls[0]));
    hide DepthAfter, Strip, Blank, VMargin;
    var m, t := VMargin(v, Indentation(ls[0])), scan(Strip(ls[0]));
    OneLine(scan, v, ls[0]);
    if |ls| == 1 {
      assert ls == [ls[0]];
    } else {
      var d := DepthAfter(0, t);
      assert VLine(scan, v, ls[0]) == View(m.out + t, m.stack, d) by {
        assert m.out + t + [] == m.out + t;
      }
      OpenLines(scan, View(m.out + t, m.stack, d), ls[1..], ts[|t|..]);
      DepthAppend(0, t, ts[|t|..]);
      assert t + ts[|t|..] == ts;
      assert m.out + t + ts[|t|..] == m.out + ts;
    }
  }

  lemma VMarginIs(v: View, indent: nat)
    requires v.depth == 0 && v.stack != []
    ensures VMargin(v, indent).depth == 0 && VMargin(v, indent).stack != []
  {
    VPopKeeps(v, indent);
    hide VPop;
  }

  lemma {:induction false} VPopKeeps(v: View, indent: nat)
    requires v.stack != []
    ensures VPop(v, indent).depth == v.depth && VPop(v, indent).stack != []
    decreases |v.stack|
  {
    var top := |v.stack| - 1;
    if top > 0 && indent < v.stack[top] {
      VPopKeeps(View(v.out + [Dedent], v.stack[..top], v.depth), indent);
    }
  }

  /** Between lines, with the lines of deeper blocks still open: closing down to `ind` gives `out` and `stack`. */
  predicate Rests(v: View, ind: nat, out: Tokens, stack: seq<nat>) {
    && v.depth == 0 && v.stack != [] && v.stack[|v.stack| - 1] >= ind
    && stack != [] && stack[|stack| - 1] == ind
    && VPop(v, ind) == View(out, stack, 0)
  }

  lemma RestsIs(ind: nat, out: Tokens, stack: seq<nat>)
    requires stack != [] && stack[|stack| - 1] == ind
    ensures Rests(View(out, stack, 0), ind, out, stack)
  {
  }

  /** A line at indentation `ind`. */
  lemma LineRests(scan: Scanner, text: Printer, v: View, ind: nat, out: Tokens, stack: seq<nat>, ts: Tokens)
    requires Rests(v, ind, out, stack) && Readable(scan, text, ts) && DepthAfter(0, ts) == 0
    ensures VLines(scan, v, LinesOf(text, ind, ts)) == View(out + ts + [Newline], stack, 0)
  {
    LineIs(scan, text, ind, ts);
    hide LinesOf, Strip, DepthAfter, VPop, Readable, Whole, Indentation, VLines;
    WholeLines(scan, v, LinesOf(text, ind, ts), ts);
  }

  /** A deeper line opens a block. */
  lemma PushFirst(scan: Scanner, text: Printer, ind: nat, out: Tokens, stack: seq<nat>, deeper: nat, ts: Tokens,
                  more: seq<string>)
    requires stack != [] && stack[|stack| - 1] == ind < deeper && Readable(scan, text, ts)
    ensures VLines(scan, View(out, stack, 0), LinesOf(text, deeper, ts) + more)
      == VLines(scan, View(out + [Indent], stack + [deeper], 0), LinesOf(text, deeper, ts) + more)
  {
    var lines := LinesOf(text, deeper, ts) + more;
    LineIs(scan, text, deeper, ts);
    hide LinesOf, Strip, Blank, DepthAfter, Readable, Whole, Indentation;
    assert lines[0] == LinesOf(text, deeper, ts)[0];
    assert VMargin(View(out, stack, 0), deeper) == View(out + [Indent], stack + [deeper], 0);
    assert VMargin(View(out + [Indent], stack + [deeper], 0), deeper) == View(out + [Indent], stack + [deeper], 0);
  }

  lemma {:induction false} PopFurther(v: View, a: nat, b: nat)
    requires b <= a
    ensures VPop(v, b) == VPop(VPop(v, a), b)
    decreases |v.stack|
  {
    var top := |v.stack| - 1;
    if top > 0 && a < v.stack[top] {
      PopFurther(View(v.out + [Dedent], v.stack[..top], v.depth), a, b);
    }
  }

  /** Closing a block. */
  lemma CloseBlock(v: View, ind: nat, deeper: nat, out: Tokens, stack: seq<nat>)
    requires stack != [] && stack[|stack| - 1] == ind < deeper && Rests(v, deeper, out, stack + [deeper])
    ensures Rests(v, ind, out + [Dedent], stack)
  {
    PopFurther(v, deeper, ind);
    assert (stack + [deeper])[..|stack|] == stack;
    assert VPop(View(out, stack + [deeper], 0), ind) == VPop(View(out + [Dedent], stack, 0), ind);
  }

  // ----- brackets -----

  lemma {:induction false} DepthAppend(d: nat, a: Tokens, b: Tokens)
    ensures DepthAfter(d, a + b) == DepthAfter(DepthAfter(d, a), b)
    decreases |b|
  {
    if b == [] {
      assert a + b == a;
    } else {
      var k := |b| - 1;
      assert (a + b)[..|a + b| - 1] == a + b[..k];
      DepthAppend(d, a, b[..k]);
    }
  }

  /** The brackets in a piece of text match, at any depth. */
  ghost predicate Even(ts: Tokens) {
    forall d: nat :: DepthAfter(d, ts) == d
  }

  lemma EvenAppend(a: Tokens, b: Tokens)
    requires Even(a) && Even(b)
    ensures Even(a + b)
  {
    forall d: nat
      ensures DepthAfter(d, a + b) == d
    {
      DepthAppend(d, a, b);
      hide DepthAfter;
    }
  }

  lemma EvenOne(t: Token)
    requires !Opens(t) && !Closes(t)
    ensures Even([t])
  {
    forall d: nat
      ensures DepthAfter(d, [t]) == d
    {
      assert DepthAfter(d, []) == d;
    }
  }

  lemma EvenNone()
    ensures Even([])
  {
  }

  /** Brackets around an even piece. */
  lemma EvenIn(o: Token, a: Tokens, c: Token)
    requires Opens(o) && Closes(c) && Even(a)
    ensures Even([o] + a + [c])
  {
    forall d: nat
      ensures DepthAfter(d, [o] + a + [c]) == d
    {
      DepthAppend(d, [o] + a, [c]);
      DepthAppend(d, [o], a);
      DepthOne(d, o);
      DepthOne(d + 1, c);
      assert DepthAfter(d + 1, a) == d + 1;
      hide DepthAfter;
    }
  }

  lemma DepthOne(d: nat, t: Token)
    ensures DepthAfter(d, [t]) == OneDepth(d, t)
  {
    assert DepthAfter(d, []) == d;
  }

  lemma {:induction false} ShowEven(e: Tree, k: nat)
    ensures Even(Show(e, k)) && Even(ShowBare(e))
    decreases e, 1
  {
    hide Even, ShowBare;
    BareEven(e);
    EvenIn(LPar, ShowBare(e), RPar);
  }

  /** Something, then a bracketed piece. */
  lemma EvenCall(a: Tokens, o: Token, b: Tokens, c: Token)
    requires Even(a) && Even(b) && Opens(o) && Closes(c)
    ensures Even(a + [o] + b + [c])
  {
    hide Even;
    EvenIn(o, b, c);
    EvenAppend(a, [o] + b + [c]);
    assert a + [o] + b + [c] == a + ([o] + b + [c]);
  }

  lemma EvenPrefix(t: Token, a: Tokens)
    requires Even(a) && !Opens(t) && !Closes(t)
    ensures Even([t] + a)
  {
    EvenOne(t);
    EvenAppend([t], a);
  }

  lemma EvenSuffix(a: Tokens, t: Token)
    requires Even(a) && !Opens(t) && !Closes(t)
    ensures Even(a + [t])
  {
    EvenOne(t);
    EvenAppend(a, [t]);
  }

  lemma {:induction false} BareEven(e: Tree)
    ensures Even(ShowBare(e))
    decreases e, 0
  {
    hide Even, DepthAfter, Show, ShowItems, ShowChain;
    match e
    case Unary(p, a) => PrefixEven(PrefixToken(p), a, UNARY);
    case NotE(a) => PrefixEven(NotT, a, NOT);
    case Binary(op, l, r) => EvenThree(l, InfixLevel(op), Sym(op), r, InfixLevel(op) + 1);
    case Power(b, x) => EvenThree(b, AWAIT, DStar, x, UNARY);
    case Compare(first, ops, rest) => CompareEven(first, ops, rest);
    case IfExp(t, b, o) => IfEven(t, b, o);
    case Await(a) => PrefixEven(AwaitT, a, POSTFIX);
    case Call(f, args) => CallEven(f, args);
    case Print(args) => NamedEven("print", args, ShowBare(e));
    case Range(args) => NamedEven("range", args, ShowBare(e));
    case Attr(obj, x) => AttrEven(obj, x, ShowBare(e));
    case Subscript(obj, i) => IndexEven(obj, i);
    case Tuple(es) => TupleEven(es, ShowBare(e));
    case List(es) =>
      ItemsEven(es);
      EvenIn(LBrack, ShowItems(es), RBrack);
    case _ => EvenOne(ShowBare(e)[0]);
  }

  lemma CompareEven(first: Tree, ops: seq<CmpOp>, rest: seq<Tree>)
    ensures Even(Show(first, COMPARE + 1) + ShowChain(ops, rest))
    decreases Compare(first, ops, rest), -1
  {
    ShowEven(first, COMPARE + 1);
    ChainEven(ops, rest);
    hide Even, Show, ShowChain;
    EvenAppend(Show(first, COMPARE + 1), ShowChain(ops, rest));
  }

  lemma CallEven(f: Tree, args: seq<Tree>)
    ensures Even(Show(f, POSTFIX) + [LPar] + ShowItems(args) + [RPar])
    decreases Call(f, args), -1
  {
    ShowEven(f, POSTFIX);
    ItemsEven(args);
    hide Even, Show, ShowItems;
    EvenCall(Show(f, POSTFIX), LPar, ShowItems(args), RPar);
  }

  lemma IndexEven(obj: Tree, i: Tree)
    ensures Even(Show(obj, POSTFIX) + [LBrack] + Show(i, TERNARY) + [RBrack])
    decreases Subscript(obj, i), -1
  {
    ShowEven(obj, POSTFIX);
    ShowEven(i, TERNARY);
    hide Even, Show;
    EvenCall(Show(obj, POSTFIX), LBrack, Show(i, TERNARY), RBrack);
  }

  lemma PrefixEven(t: Token, a: Tree, k: nat)
    requires !Opens(t) && !Closes(t)
    ensures Even([t] + Show(a, k))
    decreases a, 2
  {
    ShowEven(a, k);
    hide Even, Show;
    EvenPrefix(t, Show(a, k));
  }

  lemma IfEven(t: Tree, b: Tree, o: Tree)
    ensures Even(Show(b, 1) + [IfT] + Show(t, 1) + [ElseT] + Show(o, TERNARY))
    decreases IfExp(t, b, o), -1
  {
    EvenThree(b, 1, IfT, t, 1);
    ShowEven(o, TERNARY);
    hide Even, Show;
    EvenSuffix(Show(b, 1) + [IfT] + Show(t, 1), ElseT);
    EvenAppend(Show(b, 1) + [IfT] + Show(t, 1) + [ElseT], Show(o, TERNARY));
  }

  lemma AttrEven(obj: Tree, x: string, ts: Tokens)
    requires ts == Show(obj, POSTFIX) + [Dot, Name(x)]
    ensures Even(ts)
    decreases obj, 2
  {
    ShowEven(obj, POSTFIX);
    hide Even, Show;
    EvenSuffix(Show(obj, POSTFIX), Dot);
    EvenSuffix(Show(obj, POSTFIX) + [Dot], Name(x));
    assert ts == Show(obj, POSTFIX) + [Dot] + [Name(x)];
  }

  lemma TupleEven(es: seq<Tree>, ts: Tokens)
    requires ts == if |es| == 1 then [LPar] + Show(es[0], TERNARY) + [Comma, RPar] else [LPar] + ShowItems(es) + [RPar]
    ensures Even(ts)
    decreases es, 1
  {
    if |es| == 1 {
      ShowEven(es[0], TERNARY);
      hide Even, Show;
      EvenSuffix(Show(es[0], TERNARY), Comma);
      EvenIn(LPar, Show(es[0], TERNARY) + [Comma], RPar);
      assert ts == [LPar] + (Show(es[0], TERNARY) + [Comma]) + [RPar];
    } else {
      ItemsEven(es);
      hide Even, ShowItems;
      EvenIn(LPar, ShowItems(es), RPar);
    }
  }

  lemma EvenThree(l: Tree, k: nat, t: Token, r: Tree, j: nat)
    requires !Opens(t) && !Closes(t)
    ensures Even(Show(l, k) + [t] + Show(r, j))
    decreases if l < r then r else l, 2
  {
    ShowEven(l, k);
    ShowEven(r, j);
    hide Even, Show;
    EvenOne(t);
    EvenAppend(Show(l, k), [t]);
    EvenAppend(Show(l, k) + [t], Show(r, j));
  }

  lemma NamedEven(x: string, args: seq<Tree>, ts: Tokens)
    requires ts == [Name(x), LPar] + ShowItems(args) + [RPar]
    ensures Even(ts)
    decreases args, 1
  {
    ItemsEven(args);
    hide Even, ShowItems;
    EvenOne(Name(x));
    EvenIn(LPar, ShowItems(args), RPar);
    EvenAppend([Name(x)], [LPar] + ShowItems(args) + [RPar]);
    assert ts == [Name(x)] + ([LPar] + ShowItems(args) + [RPar]);
  }

  lemma CmpEven(op: CmpOp)
    ensures Even(CmpTokens(op))
  {
    EvenOne(NotT);
    EvenOne(Cmp(op));
    EvenOne(Cmp(In));
    EvenAppend([NotT], [Cmp(In)]);
    assert [NotT] + [Cmp(In)] == [NotT, Cmp(In)];
  }

  lemma {:induction false} ChainEven(ops: seq<CmpOp>, rest: seq<Tree>)
    ensures Even(ShowChain(ops, rest))
    decreases rest, 0
  {
    if ops != [] && rest != [] {
      ShowEven(rest[0], COMPARE + 1);
      ChainEven(ops[1..], rest[1..]);
      CmpEven(ops[0]);
      hide Even, Show, CmpTokens;
      EvenAppend(CmpTokens(ops[0]), Show(rest[0], COMPARE + 1));
      EvenAppend(CmpTokens(ops[0]) + Show(rest[0], COMPARE + 1), ShowChain(ops[1..], rest[1..]));
    } else {
      EvenNone();
    }
  }

  lemma {:induction false} ItemsEven(es: seq<Tree>)
    ensures Even(ShowItems(es)) && Even(ShowMore(es))
    decreases es, 0
  {
    EvenNone();
    if es != [] {
      ShowEven(es[0], TERNARY);
      ItemsEven(es[1..]);
      hide Even, Show;
      EvenOne(Comma);
      EvenAppend(Show(es[0], TERNARY), ShowMore(es[1..]));
      EvenAppend([Comma], Show(es[0], TERNARY));
      EvenAppend([Comma] + Show(es[0], TERNARY), ShowMore(es[1..]));
    }
  }

  /** The lines of a program have matching brackets. */
  lemma LineEven(n: Node)
    requires WellFormedNode(n)
    ensures if Simple(n) then Even(ShowSimple(n)) else Even(ShowHeader(n))
  {
    hide Even, Show, ShowSimple, ShowHeader;
    if Simple(n) {
      SimpleEven(n);
    } else if n.DefS? {
      DefEven(n);
    } else if n.ForS? {
      ForEven(n);
    } else {
      TestEven(n);
    }
  }

  lemma {:induction false} ParamsEven(ps: seq<string>)
    ensures Even(ShowParams(ps)) && Even(ShowMoreParams(ps))
    decreases |ps|
  {
    EvenNone();
    if ps != [] {
      ParamsEven(ps[1..]);
      hide Even;
      EvenPrefix(Name(ps[0]), ShowMoreParams(ps[1..]));
      EvenPrefix(Comma, [Name(ps[0])] + ShowMoreParams(ps[1..]));
    }
  }

  lemma DefEven(n: Node)
    requires n.DefS?
    ensures Even(ShowHeader(n))
  {
    var ps := ShowParams(n.params);
    ParamsEven(n.params);
    hide Even, ShowParams;
    EvenIn(LPar, ps, RPar);
    EvenPrefix(Name(n.name), [LPar] + ps + [RPar]);
    EvenPrefix(DefT, [Name(n.name)] + ([LPar] + ps + [RPar]));
    EvenSuffix([DefT] + ([Name(n.name)] + ([LPar] + ps + [RPar])), Colon);
    assert ShowHeader(n) == [DefT] + ([Name(n.name)] + ([LPar] + ps + [RPar])) + [Colon];
  }

  lemma TestEven(n: Node)
    requires n.IfS? || n.WhileS?
    ensures Even(ShowHeader(n))
  {
    ShowEven(n.test, TERNARY);
    hide Even, Show;
    var t := if n.IfS? then IfT else WhileT;
    EvenPrefix(t, Show(n.test, TERNARY));
    EvenSuffix([t] + Show(n.test, TERNARY), Colon);
  }

  lemma ForEven(n: Node)
    requires n.ForS?
    ensures Even(ShowHeader(n))
  {
    ShowEven(n.iter, TERNARY);
    hide Even, Show;
    var e := Show(n.iter, TERNARY);
    EvenPrefix(Cmp(In), e);
    EvenPrefix(Name(n.target), [Cmp(In)] + e);
    EvenPrefix(ForT, [Name(n.target)] + ([Cmp(In)] + e));
    EvenSuffix([ForT] + ([Name(n.target)] + ([Cmp(In)] + e)), Colon);
    ForHeaderIs(n, e);
  }

  lemma ForHeaderIs(n: Node, e: Tokens)
    requires n.ForS? && e == Show(n.iter, TERNARY)
    ensures ShowHeader(n) == [ForT] + ([Name(n.target)] + ([Cmp(In)] + e)) + [Colon]
  {
    hide Show;
  }

  lemma SimpleEven(n: Node)
    requires Simple(n) && WellFormedSimple(n)
    ensures Even(ShowSimple(n))
  {
    hide Even, Show, ShowTargets, WellFormed, AllWellFormed;
    match n
    case ExprS(e) => ShowEven(e, TERNARY);
    case AssignS(ts, v) => AssignEven(ts, v);
    case AugS(x, op, v) => AugEven(x, op, v);
    case ReturnS(e) => ReturnEven(e);
    case PassS => EvenOne(PassT);
    case BreakS => EvenOne(BreakT);
    case ContinueS => EvenOne(ContinueT);
  }

  lemma AssignEven(ts: seq<Tree>, v: Tree)
    ensures Even(ShowTargets(ts) + Show(v, TERNARY))
  {
    TargetsEven(ts);
    ShowEven(v, TERNARY);
    hide Even, Show, ShowTargets;
    EvenAppend(ShowTargets(ts), Show(v, TERNARY));
  }

  lemma AugEven(x: string, op: Token, v: Tree)
    requires IsAug(op)
    ensures Even([Name(x), op] + Show(v, TERNARY))
  {
    ShowEven(v, TERNARY);
    hide Even, Show;
    EvenPrefix(op, Show(v, TERNARY));
    EvenPrefix(Name(x), [op] + Show(v, TERNARY));
    assert [Name(x), op] + Show(v, TERNARY) == [Name(x)] + ([op] + Show(v, TERNARY));
  }

  lemma ReturnEven(e: Option<Tree>)
    ensures Even([ReturnT] + if e.Some? then Show(e.value, TERNARY) else [])
  {
    EvenNone();
    if e.Some? {
      ShowEven(e.value, TERNARY);
    }
    hide Even, Show;
    EvenPrefix(ReturnT, if e.Some? then Show(e.value, TERNARY) else []);
  }

  lemma {:induction false} TargetsEven(ts: seq<Tree>)
    ensures Even(ShowTargets(ts))
    decreases |ts|
  {
    if ts == [] {
      EvenNone();
    } else {
      ShowEven(ts[0], TERNARY);
      TargetsEven(ts[1..]);
      hide Even, Show;
      EvenSuffix(Show(ts[0], TERNARY), Eq);
      EvenAppend(Show(ts[0], TERNARY) + [Eq], ShowTargets(ts[1..]));
    }
  }

  lemma ArmEven(a: Arm)
    ensures Even(ArmHeader(a))
  {
    ShowEven(a.test, TERNARY);
    hide Even, Show;
    EvenPrefix(ElifT, Show(a.test, TERNARY));
    EvenSuffix([ElifT] + Show(a.test, TERNARY), Colon);
  }

  lemma ElseEven()
    ensures Even([ElseT, Colon])
  {
    EvenOne(ElseT);
    EvenSuffix([ElseT], Colon);
    assert [ElseT] + [Colon] == [ElseT, Colon];
  }

  lemma EvenFlat(ts: Tokens)
    requires Even(ts)
    ensures DepthAfter(0, ts) == 0
  {
    hide DepthAfter;
  }

  // ----- blocks -----

  /** After the lines of a piece, its tokens are out, once deeper blocks are closed. */
  ghost predicate Reads(scan: Scanner, lines: seq<string>, ind: nat, ts: Tokens) {
    forall v: View, out: Tokens, stack: seq<nat> ::
      Rests(v, ind, out, stack) ==> Rests(VLines(scan, v, lines), ind, out + ts, stack)
  }

  lemma ReadsNone(scan: Scanner, ind: nat)
    ensures Reads(scan, [], ind, [])
  {
    hide Rests;
    forall v: View, out: Tokens, stack: seq<nat> | Rests(v, ind, out, stack)
      ensures Rests(VLines(scan, v, []), ind, out + [], stack)
    {
      assert out + [] == out;
    }
  }

  lemma ReadsAppend(scan: Scanner, a: seq<string>, b: seq<string>, ind: nat, ts: Tokens, us: Tokens)
    requires Reads(scan, a, ind, ts) && Reads(scan, b, ind, us)
    ensures Reads(scan, a + b, ind, ts + us)
  {
    hide Rests, VLines;
    forall v: View, out: Tokens, stack: seq<nat> | Rests(v, ind, out, stack)
      ensures Rests(VLines(scan, v, a + b), ind, out + (ts + us), stack)
    {
      VLinesAppend(scan, v, a, b);
      assert Rests(VLines(scan, v, a), ind, out + ts, stack);
      assert out + ts + us == out + (ts + us);
      assert Rests(VLines(scan, VLines(scan, v, a), b), ind, out + ts + us, stack);
    }
  }

  /** A line of its own. */
  lemma ReadsLine(scan: Scanner, text: Printer, ind: nat, ts: Tokens)
    requires Readable(scan, text, ts) && Even(ts)
    ensures Reads(scan, LinesOf(text, ind, ts), ind, ts + [Newline])
  {
    EvenFlat(ts);
    forall v: View, out: Tokens, stack: seq<nat> | Rests(v, ind, out, stack)
      ensures Rests(VLines(scan, v, LinesOf(text, ind, ts)), ind, out + (ts + [Newline]), stack)
    {
      hide Even, Readable, LinesOf, VLine, VPop;
      LineRests(scan, text, v, ind, out, stack, ts);
      assert out + ts + [Newline] == out + (ts + [Newline]);
      RestsIs(ind, out + (ts + [Newline]), stack);
    }
  }

  /** A header line and a deeper block. */
  lemma ReadsBlock(scan: Scanner, hText: Printer, ind: nat, hdr: Tokens, deeper: nat, text: Printer, first: Tokens,
                   more: seq<string>, ts: Tokens)
    requires Readable(scan, hText, hdr) && Even(hdr) && ind < deeper && Readable(scan, text, first)
    requires Reads(scan, LinesOf(text, deeper, first) + more, deeper, ts)
    ensures Reads(scan, LinesOf(hText, ind, hdr) + (LinesOf(text, deeper, first) + more), ind,
                  hdr + ([Newline, Indent] + ts + [Dedent]))
  {
    EvenFlat(hdr);
    var lines := LinesOf(text, deeper, first) + more;
    forall v: View, out: Tokens, stack: seq<nat> | Rests(v, ind, out, stack)
      ensures Rests(VLines(scan, v, LinesOf(hText, ind, hdr) + lines), ind,
        out + (hdr + ([Newline, Indent] + ts + [Dedent])), stack)
    {
      BlockRests(scan, hText, v, ind, out, stack, hdr, deeper, text, first, more, ts);
    }
  }

  lemma StackTop(v: View, ind: nat, out: Tokens, stack: seq<nat>)
    requires Rests(v, ind, out, stack)
    ensures stack != [] && stack[|stack| - 1] == ind
  {
    hide VPop;
  }

  lemma BlockRests(scan: Scanner, hText: Printer, v: View, ind: nat, out: Tokens, stack: seq<nat>, hdr: Tokens,
                  deeper: nat, text: Printer,
                   first: Tokens, more: seq<string>, ts: Tokens)
    requires Readable(scan, hText, hdr) && DepthAfter(0, hdr) == 0 && ind < deeper && Readable(scan, text, first)
    requires Reads(scan, LinesOf(text, deeper, first) + more, deeper, ts) && Rests(v, ind, out, stack)
    ensures Rests(VLines(scan, v, LinesOf(hText, ind, hdr) + (LinesOf(text, deeper, first) + more)), ind,
                  out + (hdr + ([Newline, Indent] + ts + [Dedent])), stack)
  {
    hide *;
    var lines := LinesOf(text, deeper, first) + more;
    StackTop(v, ind, out, stack);
    LineRests(scan, hText, v, ind, out, stack, hdr);
    var o1 := out + hdr + [Newline];
    VLinesAppend(scan, v, LinesOf(hText, ind, hdr), lines);
    PushFirst(scan, text, ind, o1, stack, deeper, first, more);
    RestsIs(deeper, o1 + [Indent], stack + [deeper]);
    var v1 := VLines(scan, View(o1 + [Indent], stack + [deeper], 0), lines);
    ReadsAt(scan, lines, deeper, ts, View(o1 + [Indent], stack + [deeper], 0), o1 + [Indent], stack + [deeper]);
    CloseBlock(v1, ind, deeper, o1 + [Indent] + ts, stack);
    assert o1 + [Indent] + ts + [Dedent] == out + (hdr + ([Newline, Indent] + ts + [Dedent]));
  }

  lemma ReadsAt(scan: Scanner, lines: seq<string>, ind: nat, ts: Tokens, v: View, out: Tokens, stack: seq<nat>)
    requires Reads(scan, lines, ind, ts) && Rests(v, ind, out, stack)
    ensures Rests(VLines(scan, v, lines), ind, out + ts, stack)
  {
    hide Rests, VLines;
  }

  // ----- statements -----

  lemma NodesParts(scan: Scanner, text: Printers, ss: seq<Node>)
    requires NodesReadable(scan, text, ss) && WellFormedNodes(ss) && ss != []
    ensures NodeReadable(scan, text, ss[0]) && NodesReadable(scan, text, ss[1..])
    ensures WellFormedNode(ss[0]) && WellFormedNodes(ss[1..])
  {
    hide NodeReadable, WellFormedNode;
  }

  /** The tokens of a statement's first line. */
  function FirstLine(n: Node): Tokens {
    if Simple(n) then ShowSimple(n) else ShowHeader(n)
  }

  /** The lines of a block start with the first line of its first statement. */
  lemma FirstIs(scan: Scanner, text: Printers, w: Widths, path: seq<nat>, ind: nat, n: Node)
    requires NodeReadable(scan, text, n)
    ensures Legible(scan, text, FirstLine(n))
    ensures var ls := NodeLines(text, w, path, ind, n); LinesOf(text(path), ind, FirstLine(n)) <= ls
  {
    hide Legible, LinesOf, ShowSimple, ShowHeader, BodyLines, ArmLines, ElseLines, NodesReadable, ArmsReadable;
    if !Simple(n) {
      var ls := LinesOf(text(path), ind, ShowHeader(n)) + BodyLines(text, w, path + [0], ind, n.body);
      assert LinesOf(text(path), ind, ShowHeader(n)) <= ls;
    }
  }

  lemma StartsWith(scan: Scanner, text: Printers, w: Widths, path: seq<nat>, ind: nat, ss: seq<Node>)
    returns (more: seq<string>)
    requires ss != [] && NodesReadable(scan, text, ss)
    ensures NodesLines(text, w, path, ind, ss) == LinesOf(text(path + [|ss|]), ind, FirstLine(ss[0])) + more
    ensures Legible(scan, text, FirstLine(ss[0]))
  {
    FirstIs(scan, text, w, path + [|ss|], ind, ss[0]);
    hide Legible, LinesOf, FirstLine, NodeLines;
    var lines := NodesLines(text, w, path, ind, ss);
    var first := LinesOf(text(path + [|ss|]), ind, FirstLine(ss[0]));
    more := lines[|first|..];
  }

  lemma {:induction false} NodesRead(scan: Scanner, text: Printers, w: Widths, path: seq<nat>, ind: nat, ss: seq<Node>)
    requires NodesReadable(scan, text, ss) && WellFormedNodes(ss)
    ensures Reads(scan, NodesLines(text, w, path, ind, ss), ind, ShowNodes(ss))
    decreases ss, 0
  {
    hide *;
    NodesAreLines(text, w, path, ind, ss);
    if ss == [] {
      ReadsNone(scan, ind);
    } else {
      NodesParts(scan, text, ss);
      NodeRead(scan, text, w, path + [|ss|], ind, ss[0]);
      NodesRead(scan, text, w, path, ind, ss[1..]);
      ReadsAppend(scan, NodeLines(text, w, path + [|ss|], ind, ss[0]), NodesLines(text, w, path, ind, ss[1..]), ind,
                  ShowNode(ss[0]), ShowNodes(ss[1..]));
    }
  }

  lemma NodesAreLines(text: Printers, w: Widths, path: seq<nat>, ind: nat, ss: seq<Node>)
    ensures NodesLines(text, w, path, ind, ss) == if ss == [] then [] else
      NodeLines(text, w, path + [|ss|], ind, ss[0]) + NodesLines(text, w, path, ind, ss[1..])
    ensures ShowNodes(ss) == if ss == [] then [] else ShowNode(ss[0]) + ShowNodes(ss[1..])
  {
    hide NodeLines, ShowNode;
  }

  lemma LegibleAt(scan: Scanner, text: Printers, ts: Tokens, path: seq<nat>)
    requires Legible(scan, text, ts)
    ensures Readable(scan, text(path), ts)
  {
    hide Readable;
  }

  /** A header and its block. */
  lemma BlockRead(scan: Scanner, text: Printers, at: seq<nat>, w: Widths, path: seq<nat>, ind: nat, hdr: Tokens,
                  ss: seq<Node>)
    requires NodesReadable(scan, text, ss) && WellFormedNodes(ss) && ss != []
    requires Legible(scan, text, hdr) && Even(hdr)
    ensures Reads(scan, LinesOf(text(at), ind, hdr) + BodyLines(text, w, path, ind, ss), ind, hdr + ShowBody(ss))
    decreases ss, 1
  {
    hide *;
    var deeper := ind + w(path) + 1;
    NodesRead(scan, text, w, path, deeper, ss);
    var more := StartsWith(scan, text, w, path, deeper, ss);
    LegibleAt(scan, text, hdr, at);
    LegibleAt(scan, text, FirstLine(ss[0]), path + [|ss|]);
    ReadsBlock(scan, text(at), ind, hdr, deeper, text(path + [|ss|]), FirstLine(ss[0]), more, ShowNodes(ss));
    BodyIs(text, w, path, ind, ss);
  }

  lemma BodyIs(text: Printers, w: Widths, path: seq<nat>, ind: nat, ss: seq<Node>)
    ensures BodyLines(text, w, path, ind, ss) == NodesLines(text, w, path, ind + w(path) + 1, ss)
    ensures ShowBody(ss) == [Newline, Indent] + ShowNodes(ss) + [Dedent]
  {
    hide NodesLines, ShowNodes;
  }

  lemma {:induction false} ArmsRead(scan: Scanner, text: Printers, w: Widths, path: seq<nat>, ind: nat, arms: seq<Arm>)
    requires ArmsReadable(scan, text, arms) && WellFormedArms(arms)
    ensures Reads(scan, ArmLines(text, w, path, ind, arms), ind, ShowArms(arms))
    decreases arms, 0
  {
    hide *;
    ArmsAreLines(text, w, path, ind, arms);
    if arms == [] {
      ReadsNone(scan, ind);
    } else {
      var a := arms[0];
      ArmsParts(scan, text, arms);
      ArmEven(a);
      var at := path + [|arms|, 0];
      BlockRead(scan, text, at, w, at, ind, ArmHeader(a), a.body);
      ArmsRead(scan, text, w, path, ind, arms[1..]);
      ReadsAppend(scan, LinesOf(text(at), ind, ArmHeader(a)) + BodyLines(text, w, at, ind, a.body),
                  ArmLines(text, w, path, ind, arms[1..]), ind, ArmHeader(a) + ShowBody(a.body), ShowArms(arms[1..]));
    }
  }

  lemma ArmsAreLines(text: Printers, w: Widths, path: seq<nat>, ind: nat, arms: seq<Arm>)
    ensures ArmLines(text, w, path, ind, arms) == if arms == [] then [] else
      LinesOf(text(path + [|arms|, 0]), ind, ArmHeader(arms[0]))
      + BodyLines(text, w, path + [|arms|, 0], ind, arms[0].body)
      + ArmLines(text, w, path, ind, arms[1..])
    ensures ShowArms(arms) == if arms == [] then [] else
      ArmHeader(arms[0]) + ShowBody(arms[0].body) + ShowArms(arms[1..])
  {
    hide BodyLines, ShowBody, ArmHeader, LinesOf;
  }

  lemma ArmsParts(scan: Scanner, text: Printers, arms: seq<Arm>)
    requires ArmsReadable(scan, text, arms) && WellFormedArms(arms) && arms != []
    ensures Legible(scan, text, ArmHeader(arms[0])) && NodesReadable(scan, text, arms[0].body)
    ensures ArmsReadable(scan, text, arms[1..])
    ensures arms[0].body != [] && WellFormedNodes(arms[0].body) && WellFormedArms(arms[1..])
  {
    hide Legible, NodesReadable, WellFormedNodes, ArmHeader, WellFormed;
  }

  lemma ElseRead(scan: Scanner, text: Printers, w: Widths, path: seq<nat>, ind: nat, ss: seq<Node>)
    requires NodesReadable(scan, text, ss) && WellFormedNodes(ss)
    requires ss != [] ==> Legible(scan, text, [ElseT, Colon])
    ensures Reads(scan, ElseLines(text, w, path, ind, ss), ind, ShowElse(ss))
    decreases ss, 2
  {
    hide *;
    ElseIsLines(text, w, path, ind, ss);
    if ss == [] {
      ReadsNone(scan, ind);
    } else {
      ElseEven();
      BlockRead(scan, text, path + [1], w, path + [1], ind, [ElseT, Colon], ss);
    }
  }

  lemma ElseIsLines(text: Printers, w: Widths, path: seq<nat>, ind: nat, ss: seq<Node>)
    ensures ElseLines(text, w, path, ind, ss) == if ss == [] then [] else
      LinesOf(text(path + [1]), ind, [ElseT, Colon]) + BodyLines(text, w, path + [1], ind, ss)
    ensures ShowElse(ss) == if ss == [] then [] else [ElseT, Colon] + ShowBody(ss)
  {
    hide BodyLines, ShowBody, LinesOf;
  }

  lemma {:induction false} NodeRead(scan: Scanner, text: Printers, w: Widths, path: seq<nat>, ind: nat, n: Node)
    requires NodeReadable(scan, text, n) && WellFormedNode(n)
    ensures Reads(scan, NodeLines(text, w, path, ind, n), ind, ShowNode(n))
    decreases n, 0
  {
    hide *;
    LineEven(n);
    NodeParts(scan, text, n);
    NodeIsLines(text, w, path, ind, n);
    if Simple(n) {
      LegibleAt(scan, text, ShowSimple(n), path);
      ReadsLine(scan, text(path), ind, ShowSimple(n));
    } else {
      var a, b := LinesOf(text(path), ind, ShowHeader(n)) + BodyLines(text, w, path + [0], ind, n.body),
        ArmsPart(text, w, path, ind, n);
      BlockRead(scan, text, path, w, path + [0], ind, ShowHeader(n), n.body);
      ArmsPartIs(text, w, path, ind, n);
      if n.IfS? {
        ArmsRead(scan, text, w, path, ind, n.elifs);
      } else {
        ReadsNone(scan, ind);
      }
      ElsePartIs(text, w, path, ind, n);
      if n.DefS? {
        ReadsNone(scan, ind);
      } else {
        ElseRead(scan, text, w, path, ind, n.orelse);
      }
      ReadsAppend(scan, a, b, ind, ShowHeader(n) + ShowBody(n.body), ArmTokens(n));
      ReadsAppend(scan, a + b, ElsePart(text, w, path, ind, n), ind,
                  ShowHeader(n) + ShowBody(n.body) + ArmTokens(n), ElseTokens(n));
    }
  }

  function ArmsPart(text: Printers, w: Widths, path: seq<nat>, ind: nat, n: Node): seq<string> {
    if n.IfS? then ArmLines(text, w, path, ind, n.elifs) else []
  }

  function ArmTokens(n: Node): Tokens {
    if n.IfS? then ShowArms(n.elifs) else []
  }

  function ElsePart(text: Printers, w: Widths, path: seq<nat>, ind: nat, n: Node): seq<string>
    requires !Simple(n)
  {
    if n.DefS? then [] else ElseLines(text, w, path, ind, n.orelse)
  }

  function ElseTokens(n: Node): Tokens
    requires !Simple(n)
  {
    if n.DefS? then [] else ShowElse(n.orelse)
  }

  lemma ElsePartIs(text: Printers, w: Widths, path: seq<nat>, ind: nat, n: Node)
    requires !Simple(n)
    ensures n.DefS? ==> ElsePart(text, w, path, ind, n) == [] && ElseTokens(n) == []
    ensures !n.DefS? ==>
      ElsePart(text, w, path, ind, n) == ElseLines(text, w, path, ind, n.orelse) && ElseTokens(n) == ShowElse(n.orelse)
  {
    hide ElseLines, ShowElse;
  }

  lemma ArmsPartIs(text: Printers, w: Widths, path: seq<nat>, ind: nat, n: Node)
    ensures n.IfS? ==>
      ArmsPart(text, w, path, ind, n) == ArmLines(text, w, path, ind, n.elifs) && ArmTokens(n) == ShowArms(n.elifs)
    ensures !n.IfS? ==> ArmsPart(text, w, path, ind, n) == [] && ArmTokens(n) == []
  {
    hide ArmLines, ShowArms;
  }

  lemma NodeIsLines(text: Printers, w: Widths, path: seq<nat>, ind: nat, n: Node)
    ensures NodeLines(text, w, path, ind, n) == if Simple(n) then LinesOf(text(path), ind, ShowSimple(n)) else
      LinesOf(text(path), ind, ShowHeader(n)) + BodyLines(text, w, path + [0], ind, n.body)
      + ArmsPart(text, w, path, ind, n) + ElsePart(text, w, path, ind, n)
    ensures ShowNode(n) == if Simple(n) then ShowSimple(n) + [Newline] else
      ShowHeader(n) + ShowBody(n.body) + ArmTokens(n) + ElseTokens(n)
  {
    hide ShowSimple, ShowHeader, BodyLines, ShowBody, ArmLines, ShowArms, ElseLines, ShowElse, LinesOf;
  }

  lemma NodeParts(scan: Scanner, text: Printers, n: Node)
    requires NodeReadable(scan, text, n) && WellFormedNode(n)
    ensures Simple(n) ==> Legible(scan, text, ShowSimple(n))
    ensures !Simple(n) ==>
      && (n.IfS? || n.WhileS? || n.ForS? || n.DefS?)
      && Legible(scan, text, ShowHeader(n)) && NodesReadable(scan, text, n.body)
      && n.body != [] && WellFormedNodes(n.body)
    ensures !Simple(n) && !n.DefS? ==>
      && NodesReadable(scan, text, n.orelse) && WellFormedNodes(n.orelse)
      && (n.orelse != [] ==> Legible(scan, text, [ElseT, Colon]))
    ensures n.IfS? ==> ArmsReadable(scan, text, n.elifs) && WellFormedArms(n.elifs)
  {
    hide ShowSimple, ShowHeader, Legible, NodesReadable, ArmsReadable, WellFormedNodes, WellFormedArms, WellFormed;
  }

  // ----- blank lines, and the whole -----

  /** The lines that are neither blank nor comments. */
  function Solid(lines: seq<string>): seq<string> {
    if lines == [] then []
    else if Blank(lines[0]) then Solid(lines[1..])
    else [lines[0]] + Solid(lines[1..])
  }

  lemma {:induction false} BlanksSkipped(scan: Scanner, v: View, lines: seq<string>)
    ensures VLines(scan, v, lines) == VLines(scan, v, Solid(lines))
    decreases |lines|
  {
    if lines != [] {
      if Blank(lines[0]) {
        BlanksSkipped(scan, v, lines[1..]);
      } else {
        BlanksSkipped(scan, VLine(scan, v, lines[0]), lines[1..]);
        assert ([lines[0]] + Solid(lines[1..]))[1..] == Solid(lines[1..]);
      }
      hide VLine, Blank;
    }
  }

  // ----- comments -----

  /** A scanner whose comments are left out. */
  function Quiet(scan: Scanner): Scanner {
    s => NoComments(scan(s))
  }

  function Clean(v: View): View {
    View(NoComments(v.out), v.stack, v.depth)
  }

  lemma {:induction false} CommentsAppend(a: Tokens, b: Tokens)
    ensures NoComments(a + b) == NoComments(a) + NoComments(b)
    decreases |a|
  {
    if a == [] {
      assert a + b == b;
    } else {
      assert (a + b)[1..] == a[1..] + b;
      CommentsAppend(a[1..], b);
    }
  }

  lemma CommentsOne(t: Token)
    ensures NoComments([t]) == if IsComment(t) then [] else [t]
    ensures NoComments([]) == []
  {
    assert [t][1..] == [];
  }

  /** A comment is no bracket. */
  lemma {:induction false} DepthClean(d: nat, ts: Tokens)
    ensures DepthAfter(d, NoComments(ts)) == DepthAfter(d, ts)
    decreases |ts|
  {
    if ts != [] {
      var k := |ts| - 1;
      DepthClean(d, ts[..k]);
      assert ts == ts[..k] + [ts[k]];
      CommentsAppend(ts[..k], [ts[k]]);
      CommentsOne(ts[k]);
      hide NoComments;
      var front := NoComments(ts[..k]);
      assert front + [] == front;
      assert (front + [ts[k]])[..|front|] == front;
    }
  }

  lemma {:induction false} PopClean(v: View, indent: nat)
    ensures Clean(VPop(v, indent)) == VPop(Clean(v), indent)
    decreases |v.stack|
  {
    hide NoComments;
    var top := |v.stack| - 1;
    if top > 0 && indent < v.stack[top] {
      CommentsAppend(v.out, [Dedent]);
      CommentsOne(Dedent);
      PopClean(View(v.out + [Dedent], v.stack[..top], v.depth), indent);
    }
  }

  lemma MarginClean(v: View, indent: nat)
    requires v.stack != []
    ensures Clean(VMargin(v, indent)) == VMargin(Clean(v), indent)
  {
    PopClean(v, indent);
    hide NoComments, VPop;
    CommentsAppend(v.out, [Indent]);
    CommentsOne(Indent);
  }

  lemma LineClean(scan: Scanner, v: View, line: string)
    ensures Clean(VLine(scan, v, line)) == VLine(Quiet(scan), Clean(v), line)
  {
    hide NoComments, VMargin, DepthAfter, Strip;
    if !Blank(line) && v.stack != [] {
      var m := VMargin(v, Indentation(line));
      var ts := scan(Strip(line));
      MarginClean(v, Indentation(line));
      DepthClean(m.depth, ts);
      var end := if DepthAfter(m.depth, ts) == 0 then [Newline] else [];
      CommentsAppend(m.out + ts, end);
      CommentsAppend(m.out, ts);
      CommentsOne(Newline);
    }
  }

  /** The machine does the same with and without comments. */
  lemma {:induction false} LinesClean(scan: Scanner, v: View, lines: seq<string>)
    ensures Clean(VLines(scan, v, lines)) == VLines(Quiet(scan), Clean(v), lines)
    decreases |lines|
  {
    hide Clean, VLine;
    if lines != [] {
      LineClean(scan, v, lines[0]);
      LinesClean(scan, VLine(scan, v, lines[0]), lines[1..]);
    }
  }

  /** The tokens of a printed program without its comments, whatever the widths, the spacing and the blank lines. */
  lemma ProgramTokens(scan: Scanner, text: Printers, w: Widths, ss: seq<Node>, lines: seq<string>)
    requires NodesReadable(Quiet(scan), text, ss) && WellFormedNodes(ss)
    requires Solid(lines) == NodesLines(text, w, [], 0, ss)
    ensures NoComments(Unstamp(TokenStream(scan, lines))) == ShowNodes(ss) + [Newline]
  {
    var v0 := View([], [0], 0);
    var s := LexLines(scan, lines, |lines|);
    assert lines[..|lines|] == lines;
    assert [0][|[0]| - 1] == 0;
    assert Clean(v0) == v0;
    hide *;
    LookLines(scan, lines, |lines|);
    LinesClean(scan, v0, lines);
    BlanksSkipped(Quiet(scan), v0, lines);
    NodesRead(Quiet(scan), text, w, [], 0, ss);
    RestsIs(0, [], [0]);
    ReadsAt(Quiet(scan), NodesLines(text, w, [], 0, ss), 0, ShowNodes(ss), v0, [], [0]);
    assert [] + ShowNodes(ss) == ShowNodes(ss);
    LookPop(s, 0, |lines|);
    PopClean(Look(s), 0);
    EndTokens(scan, lines, ShowNodes(ss));
  }

  lemma EndTokens(scan: Scanner, lines: seq<string>, out: Tokens)
    requires var s := LexLines(scan, lines, |lines|);
      && Rests(Clean(Look(s)), 0, out, [0])
      && Look(Pop(s, 0, |lines|)) == VPop(Look(s), 0) && Clean(VPop(Look(s), 0)) == VPop(Clean(Look(s)), 0)
    ensures NoComments(Unstamp(TokenStream(scan, lines))) == out + [Newline]
  {
    hide *;
    var s := LexLines(scan, lines, |lines|);
    var p := Pop(s, 0, |lines|);
    StreamIs(scan, lines);
    RestsOut(Clean(Look(s)), 0, out, [0]);
    LookOut(p);
    CleanOut(Look(p));
    UnstampAppend(p.out, [Stamped(Newline, |lines|)]);
    UnstampOne(Newline, |lines|);
    CommentsAppend(Unstamp(p.out), [Newline]);
    CommentsOne(Newline);
    NewlineSeen();
  }

  lemma CleanOut(v: View)
    ensures Clean(v).out == NoComments(v.out)
  {
  }

  lemma NewlineSeen()
    ensures !IsComment(Newline)
  {
  }

  lemma StreamIs(scan: Scanner, lines: seq<string>)
    ensures TokenStream(scan, lines)
      == Pop(LexLines(scan, lines, |lines|), 0, |lines|).out + [Stamped(Newline, |lines|)]
  {
  }

  lemma RestsOut(v: View, ind: nat, out: Tokens, stack: seq<nat>)
    requires Rests(v, ind, out, stack)
    ensures VPop(v, ind).out == out
  {
    hide VPop;
  }

  lemma LookOut(s: Lex)
    ensures Look(s).out == Unstamp(s.out)
  {
    hide Unstamp;
  }

  /** Tokenizing and parsing a printed program gives the program. The source may hold triple-quoted literals: its lines
      are those of the text they are collapsed in. */
  lemma SourceRoundTrip(scan: Scanner, text: Printers, w: Widths, ss: seq<Node>, source: string)
    requires NodesReadable(Quiet(scan), text, ss) && WellFormedNodes(ss)
    requires Solid(SplitLines(Collapsed(source))) == NodesLines(text, w, [], 0, ss)
    ensures Parse(Unstamp(SourceStream(scan, source))) == Some(ss)
  {
    var lines := SplitLines(Collapsed(source));
    SourceIs(scan, source);
    hide *;
    ProgramTokens(scan, text, w, ss, lines);
    EndsSkipped();
    ProgramParses(ss, [Newline]);
    ParseIs(Unstamp(SourceStream(scan, source)));
  }

  lemma SourceIs(scan: Scanner, source: string)
    ensures SourceStream(scan, source) == TokenStream(scan, SplitLines(Collapsed(source)))
  {
  }

  lemma ParseIs(ts: Tokens)
    ensures Parse(ts) == ParseProgram(NoComments(ts))
  {
  }

  lemma EndsSkipped()
    ensures SkipEnds([Newline]) == []
  {
    assert [Newline][1..] == [];
  }
}
