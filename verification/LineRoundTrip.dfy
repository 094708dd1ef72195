/** Texts for the tokens of a line, with any spacing and a comment behind them, and the scanner reading them back. */
module LineRoundTrip {
  import opened Wrappers
  import opened Syntax
  import opened ExprParser
  import opened TripleQuotes
  import opened LineScanner
  import opened Layout
  import opened StmtParser
  import opened StmtRoundTrip
  import opened ExprRoundTrip
  import opened LayoutRoundTrip
  import opened SourceLines
  import opened Literals
  import F = LayoutFacts

  predicate IsWord(w: string) {
    w != "" && Letter(w[0]) && forall i | 0 <= i < |w| :: WordChar(w[i])
  }

  /** A name that is no keyword and no constant. */
  predicate PlainName(w: string) {
    IsWord(w) && WordToken(w) == Name(w)
  }

  function InfixText(op: Infix): string {
    match op
    case OrOp => "or"
    case AndOp => "and"
    case BitOr => "|"
    case BitXor => "^"
    case BitAnd => "&"
    case LShift => "<<"
    case RShift => ">>"
    case Plus => "+"
    case Minus => "-"
    case Star => "*"
    case Slash => "/"
    case DSlash => "//"
    case Percent => "%"
    case At => "@"
  }

  predicate IsSymbol(op: Infix) {
    op != OrOp && op != AndOp
  }

  function CmpText(op: CmpOp): string {
    match op
    case EqEq => "=="
    case NotEq => "!="
    case Lt => "<"
    case Gt => ">"
    case Leq => "<="
    case Geq => ">="
    case In => "in"
    case Is => "is"
    case NotIn => "not in"
  }

  /** The words among the tokens. */
  function WordText(t: Token): Option<string> {
    match t
    case TrueT => Some("True")
    case FalseT => Some("False")
    case NoneT => Some("None")
    case NotT => Some("not")
    case IfT => Some("if")
    case ElifT => Some("elif")
    case ElseT => Some("else")
    case WhileT => Some("while")
    case ForT => Some("for")
    case AwaitT => Some("await")
    case PassT => Some("pass")
    case BreakT => Some("break")
    case ContinueT => Some("continue")
    case ReturnT => Some("return")
    case DefT => Some("def")
    case Sym(OrOp) => Some("or")
    case Sym(AndOp) => Some("and")
    case Cmp(In) => Some("in")
    case Cmp(Is) => Some("is")
    case Name(w) => Some(w)
    case _ => None
  }

  function BracketText(t: Token): Option<string> {
    match t
    case LPar => Some("(")
    case RPar => Some(")")
    case LBrack => Some("[")
    case RBrack => Some("]")
    case LBrace => Some("{")
    case RBrace => Some("}")
    case Comma => Some(",")
    case Dot => Some(".")
    case Colon => Some(":")
    case Semicolon => Some(";")
    case _ => None
  }

  function OperatorText(t: Token): Option<string> {
    match t
    case Sym(op) => if IsSymbol(op) then Some(InfixText(op)) else None
    case Aug(op) => if IsSymbol(op) then Some(InfixText(op) + "=") else None
    case Cmp(op) => if op == In || op == Is || op == NotIn then None else Some(CmpText(op))
    case DStar => Some("**")
    case AugDStar => Some("**=")
    case Tilde => Some("~")
    case Eq => Some("=")
    case _ => None
  }

  /** The tokens that can be written. */
  predicate TokenOk(t: Token) {
    match t
    case Int(_) => true
    case Str(s) => Quotable(s)
    case Name(w) => PlainName(w)
    case _ => WordText(t).Some? || BracketText(t).Some? || OperatorText(t).Some?
  }

  /** The strings that have a literal. */
  predicate Quotable(s: string) {
    ClosedBy(s, '"') || ClosedBy(s, '\'') || '"' !in s || '\'' !in s
  }

  /** One way to write a token. */
  function TokenText(t: Token): string {
    match t
    case Int(n) => Numeral(n, 10)
    case Str(s) =>
      if ClosedBy(s, '"') then ['"'] + s + ['"'] else if ClosedBy(s, '\'') then ['\''] + s + ['\'']
      else if '"' !in s then ['r', '"'] + s + ['"'] else ['r', '\''] + s + ['\'']
    case _ =>
      if WordText(t).Some? then WordText(t).value
      else if BracketText(t).Some? then BracketText(t).value
      else if OperatorText(t).Some? then OperatorText(t).value
      else ""
  }

  /** Every way to write it. */
  predicate Spells(x: string, t: Token) {
    match t
    case Int(n) => IsNumeral(x, n)
    case Str(s) => IsString(x, s)
    case _ => x == TokenText(t)
  }

  /** May `c` come right after the text of a token? */
  predicate Parts(t: Token, c: char) {
    match t
    case Int(_) => !WordChar(c) && c != '.'
    case Str(_) => true
    case Dot => !Letter(c)
    case _ => LastParts(t, c)
  }

  predicate LastParts(t: Token, c: char) {
    if WordText(t).Some? then !WordChar(c) && !Quote(c)
    else if OperatorText(t).Some? then c != '=' && c != '>' && c != CharAt(OperatorText(t).value, 0)
    else true
  }

  /** How some tokens are written: the text of each, and the blanks behind it, by the number of tokens from it on. */
  datatype Hand = Hand(spell: (nat, Token) -> string, gaps: nat -> string) {
    function Text(ts: Tokens): string
      requires ts != []
    {
      if Spells(spell(|ts|, ts[0]), ts[0]) then spell(|ts|, ts[0]) else TokenText(ts[0])
    }

    function Blanks(n: nat): string {
      if forall c <- gaps(n) :: c == ' ' || c == '\t' then gaps(n) else ""
    }

    /** The same hand with `n` more tokens to come. */
    function Before(n: nat): Hand {
      Hand((k: nat, t: Token) => spell(k + n, t), (k: nat) => gaps(k + n))
    }
  }

  /** The scanner takes a name right after a dot together with it. */
  predicate DotName(ts: Tokens) {
    |ts| > 1 && ts[0] == Dot && ts[1].Name?
  }

  /** The chosen blanks, but a space where two tokens would run together. */
  function Gap(h: Hand, ts: Tokens): string
    requires ts != []
  {
    if |ts| > 1 && !DotName(ts) && !Parts(ts[0], CharAt(h.Text(ts[1..]), 0)) && h.Blanks(|ts|) == "" then " "
    else h.Blanks(|ts|)
  }

  function TextOf(h: Hand, ts: Tokens): string {
    if ts == [] then "" else h.Text(ts) + (Gap(h, ts) + TextOf(h, ts[1..]))
  }

  /** The end of a line: the comment there, and the blanks the next line starts with. */
  datatype Break = Break(remark: Option<string>, indent: nat)

  /** How a statement is written: its hand, where it goes on on another line, and the comment at its end. */
  datatype Style = Style(hand: Hand, breaks: nat -> Option<Break>, remark: Option<string>)

  function RemarkText(r: Option<string>): string {
    if r.None? then "" else "#" + r.value
  }

  /** How many tokens stand on the first line: a line ends only where a bracket is open. `d` are open before. */
  function Cut(style: Style, d: nat, ts: Tokens): (k: nat)
    requires ts != []
    ensures 1 <= k <= |ts|
    decreases |ts|
  {
    if |ts| == 1 then 1
    else if OneDepth(d, ts[0]) > 0 && style.breaks(|ts|).Some? then 1
    else 1 + Cut(style, OneDepth(d, ts[0]), ts[1..])
  }

  function Pieces(style: Style, d: nat, ts: Tokens): seq<string>
    decreases |ts|
  {
    if ts == [] then [] else
    var k := Cut(style, d, ts);
    var b := style.breaks(|ts| - k + 1);
    if k == |ts| || b.None? then [TextOf(style.hand, ts) + RemarkText(style.remark)]
    else
      var front := ts[..k];
      var more := Pieces(style, DepthAfter(d, front), ts[k..]);
      [TextOf(style.hand.Before(|ts| - k), front) + RemarkText(b.value.remark)]
      + (if more == [] then [] else [Spaces(b.value.indent) + more[0]] + more[1..])
  }

  function Styled(style: Style): Printer {
    ts => Pieces(style, 0, ts)
  }

  /** Each statement of a program in a style of its own. */
  function Written(styles: seq<nat> -> Style): Printers {
    path => Styled(styles(path))
  }

  predicate AllOk(ts: Tokens) {
    forall t <- ts :: TokenOk(t)
  }

  // ----- one token -----

  /** The next lexeme is the token alone. */
  ghost predicate ReadsAs(t: Token, rest: string) {
    ReadsSo(TokenText(t), t, rest)
  }

  lemma {:induction false} WordEnds(w: string, rest: string)
    requires (forall i | 0 <= i < |w| :: WordChar(w[i])) && !WordChar(CharAt(rest, 0))
    ensures WordLength(w + rest) == |w|
    decreases |w|
  {
    if w == "" {
      assert w + rest == rest;
    } else {
      assert (w + rest)[1..] == w[1..] + rest;
      WordEnds(w[1..], rest);
    }
  }

  lemma WordReads(t: Token, rest: string)
    requires WordText(t).Some? && IsWord(WordText(t).value) && WordToken(WordText(t).value) == t
    requires !WordChar(CharAt(rest, 0)) && !Quote(CharAt(rest, 0))
    ensures ReadsAs(t, rest)
  {
    hide WordToken, WordText, WordLength, TokenText;
    var w := WordText(t).value;
    var s := w + rest;
    TextIsWord(t);
    WordEnds(w, rest);
    assert s[..|w|] == w;
    assert s[0] == w[0];
    assert CharAt(s, 1) == if |w| > 1 then w[1] else CharAt(rest, 0);
    NextWord(s);
  }

  lemma TextIsWord(t: Token)
    requires WordText(t).Some?
    ensures TokenText(t) == WordText(t).value
  {
  }

  lemma NextWord(s: string)
    requires s != "" && Letter(s[0]) && !Quote(CharAt(s, 1))
    ensures Next(s) == Word(s)
  {
    hide Word;
    assert Special(s[0]).None? && Operator(s).None?;
  }

  lemma SymbolReads(t: Token, rest: string)
    requires OperatorText(t).Some? && Ends(t, CharAt(rest, 0))
    ensures ReadsAs(t, rest)
  {
    hide Operator, Next, OperatorText;
    var x := OperatorText(t).value;
    var s := x + rest;
    SymbolIs(t);
    CharsOf(x, rest);
    OperatorReads(t, s, CharAt(rest, 0));
    NextSymbol(s);
  }

  /** A character that does not make an operator longer. */
  predicate Ends(t: Token, c: char)
    requires OperatorText(t).Some?
  {
    c != '=' && c != '>' && c != CharAt(OperatorText(t).value, 0)
  }

  predicate StartsSymbol(c: char) {
    c in "*/<>+-%@&|^=!~"
  }

  lemma SymbolIs(t: Token)
    requires OperatorText(t).Some?
    ensures var x := OperatorText(t).value;
      TokenText(t) == x && 1 <= |x| <= 3 && StartsSymbol(x[0])
  {
  }

  lemma CharsOf(x: string, rest: string)
    requires 1 <= |x| <= 3
    ensures var s := x + rest;
      && s[0] == x[0] && CharAt(s, 1) == (if |x| > 1 then x[1] else CharAt(rest, 0))
      && (|x| > 1 ==> CharAt(s, 2) == if |x| > 2 then x[2] else CharAt(rest, 0))
  {
  }

  lemma OperatorReads(t: Token, s: string, c: char)
    requires OperatorText(t).Some? && s != "" && 1 <= |OperatorText(t).value| <= 3 && Ends(t, c)
    requires var x := OperatorText(t).value;
      && s[0] == x[0] && CharAt(s, 1) == (if |x| > 1 then x[1] else c)
      && (|x| > 1 ==> CharAt(s, 2) == if |x| > 2 then x[2] else c)
    ensures Operator(s) == Some(Lexeme([t], |OperatorText(t).value|))
  {
    assert CharAt(OperatorText(t).value, 0) == s[0];
    hide CharAt;
    match t
    case Sym(op) =>
    case Aug(op) =>
    case Cmp(op) =>
    case _ =>
  }

  lemma NextSymbol(s: string)
    requires s != "" && StartsSymbol(s[0])
    ensures Operator(s).Some? ==> Next(s) == Operator(s).value
  {
    hide Operator;
  }

  lemma BracketReads(t: Token, rest: string)
    requires BracketText(t).Some? && (t == Dot ==> !Letter(CharAt(rest, 0)))
    ensures ReadsAs(t, rest)
  {
    var s := TokenText(t) + rest;
    assert CharAt(s, 1) == CharAt(rest, 0);
    hide Operator;
  }

  // ----- every token -----

  lemma KeywordIs(t: Token)
    requires WordText(t).Some? && !t.Name?
    ensures IsWord(WordText(t).value) && WordToken(WordText(t).value) == t
  {
    KeywordWord(t);
    KeywordToken(t);
  }

  lemma KeywordWord(t: Token)
    requires WordText(t).Some? && !t.Name?
    ensures IsWord(WordText(t).value)
  {
    hide WordToken;
  }

  lemma KeywordToken(t: Token)
    requires WordText(t).Some? && !t.Name?
    ensures WordToken(WordText(t).value) == t
  {
    if t == TrueT || t == FalseT || t == NoneT {
      ConstantToken(t);
    } else {
      hide OtherKeyword;
    }
  }

  lemma ConstantToken(t: Token)
    requires t == TrueT || t == FalseT || t == NoneT
    ensures WordToken(WordText(t).value) == t
  {
    hide WordToken;
    match t
    case TrueT => CapitalToken("True");
    case FalseT => CapitalToken("False");
    case NoneT => CapitalToken("None");
  }

  /** No keyword starts with a capital letter. */
  lemma CapitalToken(w: string)
    requires w != "" && (w[0] == 'T' || w[0] == 'F' || w[0] == 'N')
    ensures WordToken(w) ==
      if w == "True" then TrueT else if w == "False" then FalseT else if w == "None" then NoneT else Name(w)
  {
    NoKeyword(w);
    hide OtherKeyword;
  }

  lemma NoKeyword(w: string)
    requires w != "" && (w[0] == 'T' || w[0] == 'F' || w[0] == 'N')
    ensures !OtherKeyword(w)
  {
  }

  lemma TokenReads(x: string, t: Token, rest: string)
    requires TokenOk(t) && Spells(x, t) && Parts(t, CharAt(rest, 0))
    ensures ReadsSo(x, t, rest)
  {
    hide ReadsSo, WordText, BracketText, OperatorText, WordToken, IsWord, CharAt, WordChar, Letter, Quote;
    hide IsNumeral, IsString, Quotable, TokenText;
    if t.Int? {
      NumeralReads(x, t.n, rest);
    } else if t.Str? {
      StringReads(x, t.s, rest);
    } else {
      TextsApart(t);
      if t.Name? {
        NameText(t.id);
        WordReads(t, rest);
      } else if WordText(t).Some? {
        KeywordIs(t);
        WordReads(t, rest);
      } else if BracketText(t).Some? {
        BracketReads(t, rest);
      } else {
        SymbolReads(t, rest);
      }
    }
  }

  lemma TextsApart(t: Token)
    ensures BracketText(t).Some? ==> WordText(t).None? && OperatorText(t).None?
    ensures WordText(t).Some? ==> OperatorText(t).None?
    ensures WordText(Dot).None? && OperatorText(Dot).None?
  {
  }

  lemma NameText(w: string)
    ensures WordText(Name(w)) == Some(w)
  {
  }

  lemma ScanToken(x: string, t: Token, rest: string)
    requires TokenOk(t) && Spells(x, t) && Parts(t, CharAt(rest, 0))
    ensures Scan(x + rest) == [t] + Scan(rest)
  {
    hide Next, TokenText, TokenOk, Spells, Scan, Parts, CharAt;
    var s := x + rest;
    TokenReads(x, t, rest);
    assert Drop(s, |x|) == rest;
    ScanStep(s);
  }

  lemma ScanStep(s: string)
    requires s != ""
    ensures Scan(s) == Next(s).tokens + Scan(Drop(s, Next(s).length))
  {
    hide Next;
  }

  lemma BlankReads(c: char, rest: string)
    requires c == ' ' || c == '\t'
    ensures Next([c] + rest) == Lexeme([], 1)
  {
  }

  lemma {:induction false} ScanBlanks(b: string, rest: string)
    requires forall c <- b :: c == ' ' || c == '\t'
    ensures Scan(b + rest) == Scan(rest)
    decreases |b|
  {
    hide Scan, Next;
    if b == "" {
      assert b + rest == rest;
    } else {
      var more := b[1..] + rest;
      assert b[0] in b;
      assert forall c <- b[1..] :: c in b;
      ScanBlanks(b[1..], rest);
      assert b + rest == [b[0]] + more;
      ScanStep([b[0]] + more);
      BlankReads(b[0], more);
      assert Drop([b[0]] + more, 1) == more;
    }
  }

  /** The end of a line: nothing, or a comment. */
  predicate LineEnd(rest: string) {
    rest == "" || rest[0] == '#'
  }

  lemma EndParts(t: Token)
    requires TokenOk(t)
    ensures Parts(t, ' ') && Parts(t, '\t') && Parts(t, '#') && Parts(t, '\0')
  {
    hide TokenOk, WordText, BracketText, OperatorText, Parts, WordChar, Letter, Quote;
    TextsApart(t);
    PartsIs(t);
    if OperatorText(t).Some? {
      SymbolIs(t);
      SymbolEnds(OperatorText(t).value);
    }
    NoWord();
  }

  lemma PartsIs(t: Token)
    ensures t.Int? ==> forall c: char :: Parts(t, c) == (!WordChar(c) && c != '.')
    ensures t.Str? ==> forall c: char :: Parts(t, c)
    ensures t == Dot ==> forall c: char :: Parts(t, c) == !Letter(c)
    ensures !(t.Int? || t.Str? || t.Dot?) ==> forall c: char :: Parts(t, c) == LastParts(t, c)
  {
    hide WordText, OperatorText, WordChar, Letter, Quote, CharAt;
  }

  lemma NoWord()
    ensures forall c: char :: c == ' ' || c == '\t' || c == '#' || c == '\0' ==> !WordChar(c) && !Letter(c) && !Quote(c)
  {
  }

  lemma SymbolEnds(x: string)
    requires x != "" && StartsSymbol(x[0])
    ensures CharAt(x, 0) != ' ' && CharAt(x, 0) != '\t' && CharAt(x, 0) != '#' && CharAt(x, 0) != '\0'
  {
  }

  lemma GapIs(h: Hand, ts: Tokens)
    requires ts != []
    ensures forall c <- Gap(h, ts) :: c == ' ' || c == '\t'
    ensures Gap(h, ts) == "" && |ts| > 1 && !DotName(ts) ==> Parts(ts[0], CharAt(h.Text(ts[1..]), 0))
  {
    hide Parts, TokenText, Spells;
  }

  lemma TextSpells(h: Hand, ts: Tokens)
    requires ts != [] && TokenOk(ts[0])
    ensures Spells(h.Text(ts), ts[0])
  {
    TokenSpells(ts[0]);
    hide Spells, TokenText;
  }

  /** What comes after the first token lets it end. */
  lemma NextParts(h: Hand, ts: Tokens, rest: string)
    requires AllOk(ts) && ts != [] && LineEnd(rest) && (DotName(ts) ==> Gap(h, ts) != "")
    ensures Parts(ts[0], CharAt(Gap(h, ts) + (TextOf(h, ts[1..]) + rest), 0))
  {
    hide TokenOk, TokenText, Parts, Spells, Gap;
    var more := TextOf(h, ts[1..]) + rest;
    assert TokenOk(ts[0]);
    EndParts(ts[0]);
    GapIs(h, ts);
    var gap := Gap(h, ts);
    if gap == "" {
      assert gap + more == more;
      if |ts| > 1 {
        assert TokenOk(ts[1]);
        TextSpells(h, ts[1..]);
        FirstChar(h.Text(ts[1..]), ts[1]);
        assert CharAt(more, 0) == h.Text(ts[1..])[0];
      } else {
        assert more == rest;
      }
    } else {
      assert gap[0] in gap && CharAt(gap + more, 0) == gap[0];
    }
  }

  /** A dot and a name right after it. */
  lemma ScanDotName(w: string, rest: string)
    requires IsWord(w) && !WordChar(CharAt(rest, 0))
    ensures Scan("." + (w + rest)) == [Dot, Name(w)] + Scan(rest)
  {
    hide WordLength, WordChar, Scan;
    var s := "." + (w + rest);
    WordIsLetter(w);
    WordEnds(w, rest);
    assert s[1..] == w + rest;
    assert (w + rest)[..|w|] == w;
    assert s[1] == w[0];
    NextDot(s);
    ScanStep(s);
    assert Drop(s, 1 + |w|) == rest;
  }

  lemma WordIsLetter(w: string)
    requires IsWord(w)
    ensures w != "" && Letter(w[0]) && forall i | 0 <= i < |w| :: WordChar(w[i])
  {
  }

  lemma NextDot(s: string)
    requires s != "" && s[0] == '.'
    ensures Next(s) == AfterDot(s)
  {
    hide AfterDot;
  }

  /** The scanner reads back any tokens that can be written, in any hand. */
  lemma {:induction false} ScanText(h: Hand, ts: Tokens, rest: string)
    requires AllOk(ts) && LineEnd(rest)
    ensures Scan(TextOf(h, ts) + rest) == ts + Scan(rest)
    decreases |ts|
  {
    hide *;
    TextIs(h, ts, rest);
    if ts == [] {
      assert ts + Scan(rest) == Scan(rest);
    } else if DotName(ts) && Gap(h, ts) == "" {
      DotNameIs(ts);
      OkTail(ts);
      OkTail(ts[1..]);
      ScanText(h, ts[2..], rest);
      DotNameStep(h, ts, rest);
      assert ts == [Dot, ts[1]] + ts[2..];
    } else {
      OkTail(ts);
      ScanText(h, ts[1..], rest);
      TokenStep(h, ts, rest);
      assert ts == [ts[0]] + ts[1..];
    }
  }

  lemma TextIs(h: Hand, ts: Tokens, rest: string)
    ensures TextOf(h, ts) + rest == if ts == [] then rest else
      h.Text(ts) + (Gap(h, ts) + (TextOf(h, ts[1..]) + rest))
  {
    hide TokenText, Gap, Spells;
  }

  lemma DotNameIs(ts: Tokens)
    requires DotName(ts)
    ensures |ts| > 1 && ts[0] == Dot && ts[1] == Name(ts[1].id) && ts[1..][1..] == ts[2..] && !DotName(ts[1..])
  {
  }

  lemma OkTail(ts: Tokens)
    requires AllOk(ts) && ts != []
    ensures AllOk(ts[1..]) && TokenOk(ts[0])
  {
    hide TokenOk;
  }

  lemma TokenStep(h: Hand, ts: Tokens, rest: string)
    requires AllOk(ts) && ts != [] && LineEnd(rest) && (DotName(ts) ==> Gap(h, ts) != "")
    ensures Scan(TextOf(h, ts) + rest) == [ts[0]] + Scan(TextOf(h, ts[1..]) + rest)
  {
    hide *;
    var more := TextOf(h, ts[1..]) + rest;
    OkTail(ts);
    TextIs(h, ts, rest);
    NextParts(h, ts, rest);
    TextSpells(h, ts);
    GapIs(h, ts);
    ScanToken(h.Text(ts), ts[0], Gap(h, ts) + more);
    ScanBlanks(Gap(h, ts), more);
  }

  lemma DotNameStep(h: Hand, ts: Tokens, rest: string)
    requires AllOk(ts) && LineEnd(rest) && DotName(ts) && Gap(h, ts) == ""
    ensures Scan(TextOf(h, ts) + rest) == [Dot, ts[1]] + Scan(TextOf(h, ts[2..]) + rest)
  {
    hide *;
    DotNameIs(ts);
    OkTail(ts);
    OkTail(ts[1..]);
    var w, more := ts[1].id, TextOf(h, ts[2..]) + rest;
    var tail := Gap(h, ts[1..]) + more;
    NextParts(h, ts[1..], rest);
    DotNameText(h, ts, rest);
    NamePart(w, CharAt(tail, 0));
    ScanDotName(w, tail);
    GapIs(h, ts[1..]);
    ScanBlanks(Gap(h, ts[1..]), more);
  }

  lemma NamePart(w: string, c: char)
    requires TokenOk(Name(w)) && Parts(Name(w), c)
    ensures IsWord(w) && !WordChar(c)
  {
    hide IsWord, WordToken, WordChar, Quote;
    NameText(w);
  }

  lemma DotNameText(h: Hand, ts: Tokens, rest: string)
    requires DotName(ts) && Gap(h, ts) == "" && TokenOk(ts[0]) && TokenOk(ts[1])
    ensures TextOf(h, ts) + rest == "." + (ts[1].id + (Gap(h, ts[1..]) + (TextOf(h, ts[2..]) + rest)))
  {
    hide *;
    DotNameIs(ts);
    TextIs(h, ts, rest);
    TextIs(h, ts[1..], rest);
    TextSpells(h, ts);
    TextSpells(h, ts[1..]);
    DotText(h.Text(ts), h.Text(ts[1..]), ts[1].id);
    var s := ts[1].id + (Gap(h, ts[1..]) + (TextOf(h, ts[2..]) + rest));
    assert "" + s == s;
  }

  lemma DotText(x: string, y: string, w: string)
    requires Spells(x, Dot) && Spells(y, Name(w))
    ensures x == "." && y == w
  {
    NameText(w);
  }

  lemma TokenSpells(t: Token)
    requires TokenOk(t)
    ensures Spells(TokenText(t), t)
  {
    if t.Int? {
      DecimalSpells(t.n);
    }
    hide IsNumeral, ClosedBy, PlainName, WordText, BracketText, OperatorText;
  }

  lemma DecimalSpells(n: nat)
    ensures IsNumeral(Numeral(n, 10), n)
  {
    NumeralDigits(n);
    PlainDecimal(Numeral(n, 10));
    hide Numeral, DIGITS;
    assert Numeral(n, 10)[0] in "0123456789";
  }

  lemma {:induction false} NumeralDigits(n: nat)
    ensures forall c <- Numeral(n, 10) :: c in "0123456789"
    decreases n
  {
    NumeralIs(n, 10);
    Decimals();
    hide Numeral, DIGITS;
    if n >= 10 {
      NumeralDigits(n / 10);
    }
  }

  lemma Decimals()
    ensures |DIGITS| == 16 && forall k | 0 <= k < 10 :: DIGITS[k] in "0123456789"
    ensures forall c <- "0123456789" :: c in DIGITS[..10] && Lower(c) == c && c != '_'
  {
    assert DIGITS[..10] == "0123456789";
  }

  lemma {:induction false} PlainDecimal(s: string)
    requires forall c <- s :: c in "0123456789"
    ensures Plain(s) == s && forall i | 0 <= i < |s| :: Lower(s[i]) in DIGITS[..10]
    decreases |s|
  {
    Decimals();
    hide DIGITS;
    if s != "" {
      assert s[0] in s;
      PlainDecimal(s[1..]);
      forall i | 0 <= i < |s|
        ensures Lower(s[i]) in DIGITS[..10]
      {
        assert s[i] in s;
      }
    }
  }

  lemma FirstChar(x: string, t: Token)
    requires TokenOk(t) && Spells(x, t)
    ensures x != "" && !IsSpace(x[0]) && x[0] != '#'
  {
    hide WordText, BracketText, OperatorText, WordToken, ClosedBy;
    if t.Int? {
      NumeralStarts(x, t.n);
    } else if WordText(t).Some? && !t.Name? {
      KeywordIs(t);
    } else if t.Name? {
      NameText(t.id);
    } else if BracketText(t).Some? {
      BracketIs(t);
    } else if OperatorText(t).Some? {
      SymbolIs(t);
    }
  }

  lemma NumeralStarts(x: string, n: nat)
    requires IsNumeral(x, n)
    ensures x != "" && x[0] in "0123456789"
  {
    hide StandsFor, DIGITS;
    if |x| > 2 {
      assert x[..2][0] == x[0];
    }
  }

  lemma BracketIs(t: Token)
    requires BracketText(t).Some?
    ensures |BracketText(t).value| == 1 && !IsSpace(BracketText(t).value[0]) && BracketText(t).value[0] != '#'
  {
  }

  lemma ScanNone()
    ensures Scan("") == []
  {
  }

  lemma {:induction false} NoRemarks(ts: Tokens)
    requires AllOk(ts)
    ensures NoComments(ts) == ts
    decreases |ts|
  {
    if ts != [] {
      assert TokenOk(ts[0]);
      NoRemarks(ts[1..]);
    }
  }

  /** A comment is one token, which the parser does not see. */
  lemma RemarkScans(r: Option<string>)
    ensures LineEnd(RemarkText(r)) && NoComments(Scan(RemarkText(r))) == []
  {
    var s := RemarkText(r);
    if s != "" {
      assert Next(s) == Lexeme([Other(COMMENT)], |s|);
      hide Next;
      ScanStep(s);
      assert Drop(s, |s|) == "";
      ScanNone();
      CommentsOne(Other(COMMENT));
    } else {
      ScanNone();
    }
  }

  lemma {:induction false} CutIs(style: Style, d: nat, ts: Tokens)
    requires ts != []
    ensures var k := Cut(style, d, ts);
      k < |ts| ==> DepthAfter(d, ts[..k]) > 0 && style.breaks(|ts| - k + 1).Some?
    decreases |ts|
  {
    hide OneDepth, DepthAfter;
    var d' := OneDepth(d, ts[0]);
    DepthOne(d, ts[0]);
    if |ts| > 1 && !(d' > 0 && style.breaks(|ts|).Some?) {
      CutIs(style, d', ts[1..]);
      var k := Cut(style, d', ts[1..]);
      assert Cut(style, d, ts) == 1 + k;
      hide Cut;
      assert ts[..1 + k] == [ts[0]] + ts[1..][..k];
      DepthAppend(d, [ts[0]], ts[1..][..k]);
    } else {
      assert ts[..1] == [ts[0]];
    }
  }

  /** A line of tokens and a comment: what the parser sees of it. */
  lemma LineScans(h: Hand, ts: Tokens, remark: Option<string>)
    requires AllOk(ts) && ts != []
    ensures var s := TextOf(h, ts) + RemarkText(remark);
      s != "" && !IsSpace(s[0]) && s[0] != '#' && Quiet(Scan)(s) == ts
  {
    hide TokenOk, TokenText, Scan, IsSpace, NoComments, RemarkText, Gap, Spells;
    assert TokenOk(ts[0]);
    TextSpells(h, ts);
    FirstChar(h.Text(ts), ts[0]);
    var end := RemarkText(remark);
    var s := TextOf(h, ts) + end;
    RemarkScans(remark);
    ScanText(h, ts, end);
    CommentsAppend(ts, Scan(end));
    NoRemarks(ts);
    assert s[0] == h.Text(ts)[0];
  }

  lemma Unindented(s: string)
    requires s != "" && !IsSpace(s[0]) && s[0] != '#'
    ensures Strip(s) == s && !Blank(s)
  {
  }

  /** The lines of a text stay whole if the first one is indented. */
  lemma WholeIndented(scan: Scanner, d: nat, n: nat, ls: seq<string>, ts: Tokens)
    requires Whole(scan, d, ls, ts) && ls[0] != "" && !IsSpace(ls[0][0])
    ensures Whole(scan, d, [Spaces(n) + ls[0]] + ls[1..], ts)
  {
    StripSpaces(n, ls[0]);
    StripSpaces(0, ls[0]);
    assert Spaces(0) + ls[0] == ls[0];
    var indented := [Spaces(n) + ls[0]] + ls[1..];
    assert indented[1..] == ls[1..] && |indented| == |ls| && Strip(indented[0]) == Strip(ls[0]);
    hide Strip, DepthAfter;
  }

  lemma {:induction false} PiecesWhole(style: Style, d: nat, ts: Tokens)
    requires AllOk(ts) && ts != []
    ensures var ls := Pieces(style, d, ts);
      ls != [] && ls[0] != "" && !IsSpace(ls[0][0]) && Whole(Quiet(Scan), d, ls, ts)
    decreases |ts|
  {
    hide TokenOk, Scan, IsSpace, NoComments, RemarkText, TextOf, Whole, Quiet, Cut, DepthAfter;
    var k := Cut(style, d, ts);
    CutIs(style, d, ts);
    if k == |ts| {
      LineScans(style.hand, ts, style.remark);
      LastLine(Quiet(Scan), d, TextOf(style.hand, ts) + RemarkText(style.remark), ts);
    } else {
      var b := style.breaks(|ts| - k + 1).value;
      var front := ts[..k];
      var h := style.hand.Before(|ts| - k);
      LineScans(h, front, b.remark);
      PiecesWhole(style, DepthAfter(d, front), ts[k..]);
      var more := Pieces(style, DepthAfter(d, front), ts[k..]);
      WholeIndented(Quiet(Scan), DepthAfter(d, front), b.indent, more, ts[k..]);
      MoreLines(Quiet(Scan), d, TextOf(h, front) + RemarkText(b.remark), [Spaces(b.indent) + more[0]] + more[1..],
                front, ts[k..]);
      assert front + ts[k..] == ts;
    }
  }

  lemma LastLine(scan: Scanner, d: nat, s: string, ts: Tokens)
    requires s != "" && !IsSpace(s[0]) && s[0] != '#' && scan(s) == ts
    ensures Whole(scan, d, [s], ts)
  {
    Unindented(s);
  }

  lemma MoreLines(scan: Scanner, d: nat, s: string, more: seq<string>, front: Tokens, ts: Tokens)
    requires s != "" && !IsSpace(s[0]) && s[0] != '#' && scan(s) == front && DepthAfter(d, front) > 0
    requires more != [] && Whole(scan, DepthAfter(d, front), more, ts)
    ensures Whole(scan, d, [s] + more, front + ts)
  {
    Unindented(s);
    assert ([s] + more)[1..] == more && (front + ts)[|front|..] == ts;
    hide Strip, DepthAfter, Blank;
  }

  lemma StyledReadable(style: Style, ts: Tokens)
    requires AllOk(ts) && ts != []
    ensures Readable(Quiet(Scan), Styled(style), ts)
  {
    PiecesWhole(style, 0, ts);
    hide Pieces, Whole, Quiet, IsSpace;
  }

  lemma TextReadable(styles: seq<nat> -> Style, ts: Tokens)
    requires AllOk(ts) && ts != []
    ensures Legible(Quiet(Scan), Written(styles), ts)
  {
    hide AllOk, Readable, Scan, Styled;
    forall path: seq<nat>
      ensures Readable(Quiet(Scan), Written(styles)(path), ts)
    {
      StyledReadable(styles(path), ts);
    }
  }

  // ----- trees that can be written -----

  predicate Variable(w: string) {
    PlainName(w) && !Reserved(w)
  }

  /** Every name is no keyword, every string can stand between quotes. */
  predicate Writable(e: Tree)
    decreases e, 1
  {
    match e
    case Text(s) => Quotable(s)
    case Ident(x) => PlainName(x)
    case Unary(_, a) => Writable(a)
    case NotE(a) => Writable(a)
    case Binary(_, l, r) => Writable(l) && Writable(r)
    case Power(b, x) => Writable(b) && Writable(x)
    case Compare(first, ops, rest) => Writable(first) && AllWritable(rest)
    case IfExp(t, b, o) => Writable(t) && Writable(b) && Writable(o)
    case Await(a) => Writable(a)
    case Call(f, args) => Writable(f) && AllWritable(args)
    case Print(args) => AllWritable(args)
    case Range(args) => AllWritable(args)
    case Attr(obj, x) => Writable(obj) && Variable(x)
    case Subscript(obj, i) => Writable(obj) && Writable(i)
    case Tuple(es) => AllWritable(es)
    case List(es) => AllWritable(es)
    case _ => true
  }

  predicate AllWritable(es: seq<Tree>)
    decreases es, 0
  {
    es == [] || (Writable(es[0]) && AllWritable(es[1..]))
  }

  lemma OkAppend(a: Tokens, b: Tokens)
    requires AllOk(a) && AllOk(b)
    ensures AllOk(a + b)
  {
    hide TokenOk;
  }

  lemma OkTokens()
    ensures AllOk([]) && AllOk([LPar]) && AllOk([RPar]) && AllOk([LBrack]) && AllOk([RBrack]) && AllOk([Comma, RPar])
    ensures AllOk([Comma]) && AllOk([DStar]) && AllOk([IfT]) && AllOk([ElseT]) && AllOk([NotT]) && AllOk([AwaitT])
    ensures AllOk([Colon]) && AllOk([Eq]) && AllOk([ElifT]) && AllOk([WhileT]) && AllOk([ReturnT])
    ensures AllOk([DefT])
    ensures AllOk([ElseT, Colon])
    ensures AllOk([PassT]) && AllOk([BreakT]) && AllOk([ContinueT]) && AllOk([NoneT]) && AllOk([TrueT])
    ensures AllOk([FalseT])
    ensures forall p: Prefix :: AllOk([PrefixToken(p)])
    ensures forall op: Infix :: AllOk([Sym(op)])
    ensures forall op: CmpOp :: AllOk(CmpTokens(op))
  {
    hide AllOk, TokenOk, CmpTokens, PrefixToken;
    OkNone();
    PunctuationOk();
    WordsOk();
    forall p: Prefix
      ensures AllOk([PrefixToken(p)])
    {
      PrefixOk(p);
    }
    forall op: Infix
      ensures AllOk([Sym(op)])
    {
      InfixOk(op);
    }
    forall op: CmpOp
      ensures AllOk(CmpTokens(op))
    {
      CmpOk(op);
    }
  }

  lemma PunctuationOk()
    ensures AllOk([LPar]) && AllOk([RPar]) && AllOk([LBrack]) && AllOk([RBrack]) && AllOk([Comma, RPar])
    ensures AllOk([Comma]) && AllOk([DStar]) && AllOk([Colon]) && AllOk([Eq])
  {
    BracketsAreOk();
    OthersOk();
    hide *;
  }

  lemma BracketsAreOk()
    ensures AllOk([LPar]) && AllOk([RPar]) && AllOk([LBrack]) && AllOk([RBrack]) && AllOk([Comma, RPar])
  {
    hide WordText, OperatorText;
  }

  lemma OthersOk()
    ensures AllOk([Comma]) && AllOk([DStar]) && AllOk([Colon]) && AllOk([Eq])
  {
    hide WordText;
  }

  lemma WordsOk()
    ensures AllOk([IfT]) && AllOk([ElseT]) && AllOk([NotT]) && AllOk([AwaitT]) && AllOk([ElifT]) && AllOk([WhileT])
    ensures AllOk([DefT]) && AllOk([ReturnT]) && AllOk([ElseT, Colon]) && AllOk([PassT]) && AllOk([BreakT])
    ensures AllOk([ContinueT]) && AllOk([NoneT]) && AllOk([TrueT]) && AllOk([FalseT])
  {
    HeaderWordsOk();
    LeafWordsOk();
    hide *;
  }

  lemma HeaderWordsOk()
    ensures AllOk([IfT]) && AllOk([ElseT]) && AllOk([NotT]) && AllOk([AwaitT]) && AllOk([ElifT]) && AllOk([WhileT])
    ensures AllOk([DefT]) && AllOk([ReturnT]) && AllOk([ElseT, Colon])
  {
    hide OperatorText;
  }

  lemma LeafWordsOk()
    ensures AllOk([PassT]) && AllOk([BreakT]) && AllOk([ContinueT]) && AllOk([NoneT]) && AllOk([TrueT])
    ensures AllOk([FalseT])
  {
    hide OperatorText, BracketText;
  }

  lemma PrefixOk(p: Prefix)
    ensures AllOk([PrefixToken(p)])
  {
  }

  lemma InfixOk(op: Infix)
    ensures AllOk([Sym(op)])
  {
  }

  lemma CmpOk(op: CmpOp)
    ensures AllOk(CmpTokens(op))
  {
  }

  lemma OkNone()
    ensures AllOk([])
  {
  }

  lemma OkCalls()
    ensures AllOk([Name("print"), LPar]) && AllOk([Name("range"), LPar])
  {
    hide AllOk, PlainName;
    PrintName();
    RangeName();
    OkNames("print");
    OkNames("range");
    OkTokens();
    OkAppend([Name("print")], [LPar]);
    OkAppend([Name("range")], [LPar]);
    assert [Name("print"), LPar] == [Name("print")] + [LPar] && [Name("range"), LPar] == [Name("range")] + [LPar];
  }

  lemma PrintName()
    ensures PlainName("print")
  {
  }

  lemma RangeName()
    ensures PlainName("range")
  {
  }

  lemma OkNames(x: string)
    ensures PlainName(x) ==> AllOk([Name(x)]) && AllOk([ForT, Name(x), Cmp(In)]) && AllOk([Dot, Name(x)])
    ensures Quotable(x) ==> AllOk([Str(x)])
    ensures forall n: nat :: AllOk([Int(n)])
  {
    hide PlainName, Quotable;
  }

  lemma {:induction false} ShowOk(e: Tree, k: nat)
    requires Writable(e)
    ensures AllOk(Show(e, k)) && AllOk(ShowBare(e))
    decreases e, 2
  {
    BareOk(e);
    hide AllOk, ShowBare, Writable;
    OkTokens();
    if Level(e) < k {
      OkAppend([LPar] + ShowBare(e), [RPar]);
      OkAppend([LPar], ShowBare(e));
    }
  }

  lemma OkThree(a: Tokens, b: Tokens, c: Tokens)
    requires AllOk(a) && AllOk(b) && AllOk(c)
    ensures AllOk(a + b + c)
  {
    hide AllOk;
    OkAppend(a, b);
    OkAppend(a + b, c);
  }

  lemma VariableIsPlain(x: string)
    requires Variable(x)
    ensures PlainName(x)
  {
    hide PlainName, Reserved;
  }

  lemma {:induction false} BareOk(e: Tree)
    requires Writable(e)
    ensures AllOk(ShowBare(e))
    decreases e, 1
  {
    hide AllOk, Show, ShowItems, ShowChain, PlainName, Variable, Quotable;
    OkTokens();
    match e
    case Num(n) => OkNames("");
    case Text(x) => OkNames(x);
    case Truth(_) =>
    case NoneE =>
    case Ident(x) => OkNames(x);
    case Unary(p, a) =>
      ShowOk(a, UNARY);
      OkAppend([PrefixToken(p)], Show(a, UNARY));
    case NotE(a) =>
      ShowOk(a, NOT);
      OkAppend([NotT], Show(a, NOT));
    case Await(a) =>
      ShowOk(a, POSTFIX);
      OkAppend([AwaitT], Show(a, POSTFIX));
    case Binary(op, l, r) =>
      ShowOk(l, InfixLevel(op));
      ShowOk(r, InfixLevel(op) + 1);
      OkThree(Show(l, InfixLevel(op)), [Sym(op)], Show(r, InfixLevel(op) + 1));
    case Power(b, x) =>
      ShowOk(b, AWAIT);
      ShowOk(x, UNARY);
      OkThree(Show(b, AWAIT), [DStar], Show(x, UNARY));
    case Compare(first, ops, rest) =>
      ShowOk(first, COMPARE + 1);
      ChainOk(ops, rest);
      OkAppend(Show(first, COMPARE + 1), ShowChain(ops, rest));
    case IfExp(t, b, o) =>
      ShowOk(b, 1);
      ShowOk(t, 1);
      ShowOk(o, TERNARY);
      OkThree(Show(b, 1), [IfT], Show(t, 1));
      OkThree(Show(b, 1) + [IfT] + Show(t, 1), [ElseT], Show(o, TERNARY));
    case Attr(obj, x) =>
      ShowOk(obj, POSTFIX);
      VariableIsPlain(x);
      OkNames(x);
      OkAppend(Show(obj, POSTFIX), [Dot, Name(x)]);
    case Subscript(obj, i) =>
      ShowOk(obj, POSTFIX);
      ShowOk(i, TERNARY);
      OkThree(Show(obj, POSTFIX), [LBrack], Show(i, TERNARY));
      OkAppend(Show(obj, POSTFIX) + [LBrack] + Show(i, TERNARY), [RBrack]);
    case _ => BracketsOk(e);
  }

  lemma {:induction false} BracketsOk(e: Tree)
    requires Writable(e) && (e.Call? || e.Print? || e.Range? || e.Tuple? || e.List?)
    ensures AllOk(ShowBare(e))
    decreases e, 0
  {
    hide AllOk, Show, ShowItems;
    OkTokens();
    OkCalls();
    match e
    case Call(f, args) =>
      ShowOk(f, POSTFIX);
      ItemsOk(args);
      OkThree(Show(f, POSTFIX), [LPar], ShowItems(args));
      OkAppend(Show(f, POSTFIX) + [LPar] + ShowItems(args), [RPar]);
    case Print(args) =>
      ItemsOk(args);
      OkThree([Name("print"), LPar], ShowItems(args), [RPar]);
    case Range(args) =>
      ItemsOk(args);
      OkThree([Name("range"), LPar], ShowItems(args), [RPar]);
    case Tuple(es) =>
      ItemsOk(es);
      OkThree([LPar], ShowItems(es), [RPar]);
      if |es| == 1 {
        ShowOk(es[0], TERNARY);
        OkThree([LPar], Show(es[0], TERNARY), [Comma, RPar]);
      }
    case List(es) =>
      ItemsOk(es);
      OkThree([LBrack], ShowItems(es), [RBrack]);
  }

  lemma {:induction false} ChainOk(ops: seq<CmpOp>, rest: seq<Tree>)
    requires AllWritable(rest)
    ensures AllOk(ShowChain(ops, rest))
    decreases rest, 3
  {
    hide AllOk, Show;
    OkTokens();
    if ops != [] && rest != [] {
      ShowOk(rest[0], COMPARE + 1);
      ChainOk(ops[1..], rest[1..]);
      OkThree(CmpTokens(ops[0]), Show(rest[0], COMPARE + 1), ShowChain(ops[1..], rest[1..]));
    }
  }

  lemma {:induction false} ItemsOk(es: seq<Tree>)
    requires AllWritable(es)
    ensures AllOk(ShowItems(es))
    decreases es, 4
  {
    hide AllOk, Show, ShowMore;
    OkTokens();
    if es != [] {
      ShowOk(es[0], TERNARY);
      MoreOk(es[1..]);
      OkAppend(Show(es[0], TERNARY), ShowMore(es[1..]));
    }
  }

  lemma {:induction false} MoreOk(es: seq<Tree>)
    requires AllWritable(es)
    ensures AllOk(ShowMore(es))
    decreases es, 3
  {
    hide AllOk, Show;
    OkTokens();
    if es != [] {
      ShowOk(es[0], TERNARY);
      MoreOk(es[1..]);
      OkThree([Comma], Show(es[0], TERNARY), ShowMore(es[1..]));
    }
  }

  // ----- statements that can be written -----

  predicate AugOk(op: Token) {
    op == AugDStar || (op.Aug? && IsSymbol(op.aug))
  }

  predicate WritableSimple(n: Node)
    requires Simple(n)
  {
    match n
    case ExprS(e) => Writable(e)
    case AssignS(ts, v) => ts != [] && AllWritable(ts) && Writable(v)
    case AugS(x, op, v) => PlainName(x) && AugOk(op) && Writable(v)
    case ReturnS(e) => e.Some? ==> Writable(e.value)
    case _ => true
  }

  predicate WritableHeader(n: Node)
    requires !Simple(n)
  {
    if n.DefS? then PlainName(n.name) && AllVariables(n.params)
    else Writable(Head(n)) && (n.ForS? ==> Variable(n.target))
  }

  predicate AllVariables(ps: seq<string>) {
    forall x <- ps :: Variable(x)
  }

  predicate WritableNode(n: Node)
    decreases n, 0
  {
    hide Reserved;
    if Simple(n) then WritableSimple(n)
    else if n.DefS? then WritableHeader(n) && WritableNodes(n.body)
    else
      WritableHeader(n) && WritableNodes(n.body) && WritableNodes(n.orelse) && (n.IfS? ==> WritableArms(n.elifs))
  }

  predicate WritableNodes(ss: seq<Node>)
    decreases ss, 0
  {
    ss == [] || (WritableNode(ss[0]) && WritableNodes(ss[1..]))
  }

  predicate WritableArms(arms: seq<Arm>)
    decreases arms, 0
  {
    arms == [] || (Writable(arms[0].test) && WritableNodes(arms[0].body) && WritableArms(arms[1..]))
  }

  lemma {:induction false} TargetsOk(ts: seq<Tree>)
    requires AllWritable(ts)
    ensures AllOk(ShowTargets(ts)) && (ts != [] ==> ShowTargets(ts) != [])
    decreases ts
  {
    hide AllOk, Show;
    OkTokens();
    if ts != [] {
      ShowOk(ts[0], TERNARY);
      TargetsOk(ts[1..]);
      OkThree(Show(ts[0], TERNARY), [Eq], ShowTargets(ts[1..]));
    }
  }

  lemma AugTokenOk(x: string, op: Token)
    requires PlainName(x) && AugOk(op)
    ensures AllOk([Name(x), op])
  {
    hide PlainName;
  }

  lemma SimpleOk(n: Node)
    requires Simple(n) && WritableSimple(n)
    ensures AllOk(ShowSimple(n)) && ShowSimple(n) != []
  {
    hide AllOk, Show, AugOk;
    OkTokens();
    match n
    case ExprS(e) =>
      ShowOk(e, TERNARY);
      ShowStarts(e, TERNARY);
    case AssignS(ts, v) =>
      TargetsOk(ts);
      ShowOk(v, TERNARY);
      OkAppend(ShowTargets(ts), Show(v, TERNARY));
    case AugS(x, op, v) =>
      AugTokenOk(x, op);
      ShowOk(v, TERNARY);
      OkAppend([Name(x), op], Show(v, TERNARY));
    case ReturnS(e) =>
      if e.Some? {
        ShowOk(e.value, TERNARY);
        OkAppend([ReturnT], Show(e.value, TERNARY));
      } else {
        OkAppend([ReturnT], []);
      }
    case _ =>
  }

  lemma HeaderOk(n: Node)
    requires !Simple(n) && WritableHeader(n)
    ensures AllOk(ShowHeader(n)) && ShowHeader(n) != []
  {
    hide AllOk, Show, ShowParams, WritableHeader;
    if n.DefS? {
      DefOk(n);
    } else {
      HeadOk(n);
    }
  }

  lemma {:induction false} ParamsOk(ps: seq<string>)
    requires AllVariables(ps)
    ensures AllOk(ShowParams(ps)) && AllOk(ShowMoreParams(ps))
    decreases |ps|
  {
    hide AllOk, PlainName, Variable;
    OkTokens();
    if ps != [] {
      assert Variable(ps[0]);
      VariableIsPlain(ps[0]);
      ParamsOk(ps[1..]);
      OkNames(ps[0]);
      OkAppend([Name(ps[0])], ShowMoreParams(ps[1..]));
      OkAppend([Comma], [Name(ps[0])] + ShowMoreParams(ps[1..]));
    }
  }

  lemma DefOk(n: Node)
    requires n.DefS? && WritableHeader(n)
    ensures AllOk(ShowHeader(n))
  {
    hide AllOk, PlainName, AllVariables, ShowParams;
    OkTokens();
    ParamsOk(n.params);
    OkNames(n.name);
    OkThree([DefT], [Name(n.name)], [LPar]);
    OkAppend([RPar], [Colon]);
    OkThree([DefT] + [Name(n.name)] + [LPar], ShowParams(n.params), [RPar] + [Colon]);
    assert [DefT, Name(n.name), LPar] == [DefT] + [Name(n.name)] + [LPar] && [RPar, Colon] == [RPar] + [Colon];
  }

  lemma HeadOk(n: Node)
    requires !Simple(n) && !n.DefS? && WritableHeader(n)
    ensures AllOk(ShowHeader(n))
  {
    hide AllOk, Show, PlainName, Variable, Writable;
    OkTokens();
    ShowOk(Head(n), TERNARY);
    var first :=
      if n.IfS? then [IfT] else if n.WhileS? then [WhileT] else [ForT, Name(n.target), Cmp(In)];
    if n.ForS? {
      VariableIsPlain(n.target);
      OkNames(n.target);
    }
    OkThree(first, Show(Head(n), TERNARY), [Colon]);
  }

  lemma ArmOk(a: Arm)
    requires Writable(a.test)
    ensures AllOk(ArmHeader(a)) && ArmHeader(a) != []
  {
    hide AllOk, Show, Writable;
    OkTokens();
    ShowOk(a.test, TERNARY);
    OkThree([ElifT], Show(a.test, TERNARY), [Colon]);
  }

  lemma {:induction false} NodeIsReadable(styles: seq<nat> -> Style, n: Node)
    requires WritableNode(n)
    ensures NodeReadable(Quiet(Scan), Written(styles), n)
    decreases n, 0
  {
    hide AllOk, Legible, Writable, WritableSimple, ShowSimple, ShowHeader, Quiet, Written, WritableHeader;
    if Simple(n) {
      SimpleOk(n);
      TextReadable(styles, ShowSimple(n));
    } else {
      HeaderOk(n);
      TextReadable(styles, ShowHeader(n));
      OkTokens();
      TextReadable(styles, [ElseT, Colon]);
      NodesAreReadable(styles, n.body);
      if !n.DefS? {
        NodesAreReadable(styles, n.orelse);
      }
      if n.IfS? {
        ArmsAreReadable(styles, n.elifs);
      }
    }
  }

  lemma {:induction false} NodesAreReadable(styles: seq<nat> -> Style, ss: seq<Node>)
    requires WritableNodes(ss)
    ensures NodesReadable(Quiet(Scan), Written(styles), ss)
    decreases ss, 0
  {
    hide NodeReadable, WritableNode, Quiet, Written;
    if ss != [] {
      NodeIsReadable(styles, ss[0]);
      NodesAreReadable(styles, ss[1..]);
    }
  }

  lemma {:induction false} ArmsAreReadable(styles: seq<nat> -> Style, arms: seq<Arm>)
    requires WritableArms(arms)
    ensures ArmsReadable(Quiet(Scan), Written(styles), arms)
    decreases arms, 0
  {
    hide AllOk, Legible, Writable, NodesReadable, WritableNodes, Quiet, Written, ArmHeader;
    if arms != [] {
      ArmOk(arms[0]);
      TextReadable(styles, ArmHeader(arms[0]));
      NodesAreReadable(styles, arms[0].body);
      ArmsAreReadable(styles, arms[1..]);
    }
  }

  /** Characters to tree: a program written with any indentation, spacing, blank lines and comments is tokenized and
      parsed to itself. Its literals may also be written between triple quotes: only the text they are collapsed in
      counts. */
  lemma TextRoundTrip(w: Widths, styles: seq<nat> -> Style, ss: seq<Node>, source: string)
    requires WritableNodes(ss) && WellFormedNodes(ss)
    requires Solid(SplitLines(Collapsed(source))) == NodesLines(Written(styles), w, [], 0, ss)
    ensures Parse(Unstamp(SourceStream(Scan, source))) == Some(ss)
  {
    hide *;
    NodesAreReadable(styles, ss);
    SourceRoundTrip(Scan, Written(styles), w, ss, source);
  }

  /** Where no triple quote occurs, in strings and comments included, the lines of the source itself count. */
  lemma PlainRoundTrip(w: Widths, styles: seq<nat> -> Style, ss: seq<Node>, source: string)
    requires WritableNodes(ss) && WellFormedNodes(ss) && NoTriple(source)
    requires Solid(SplitLines(source)) == NodesLines(Written(styles), w, [], 0, ss)
    ensures Parse(Unstamp(SourceStream(Scan, source))) == Some(ss)
  {
    hide *;
    CollapsedSame(source);
    TextRoundTrip(w, styles, ss, source);
  }

  // ----- the scanner and the layout -----

  lemma NextFree(s: string)
    requires s != ""
    ensures forall t <- Next(s).tokens :: Change(t) == 0 && !F.IsLayout(t)
  {
    hide StringLength, RawLength, LineScanner.RunLength, ReadNumber, WordLength, ExponentEnd, OtherKeyword;
    if Operator(s).Some? {
      OperatorFree(s);
    }
    hide Operator;
  }

  lemma OperatorFree(s: string)
    requires s != "" && Operator(s).Some?
    ensures forall t <- Operator(s).value.tokens :: Change(t) == 0 && !F.IsLayout(t)
  {
  }

  lemma {:induction false} ScanFree(s: string)
    ensures forall t <- Scan(s) :: Change(t) == 0 && !F.IsLayout(t)
    decreases |s|
  {
    hide Next, Change, F.IsLayout;
    if s != "" {
      NextFree(s);
      ScanFree(Drop(s, Next(s).length));
    }
  }

  /** So what the machine makes of any lines is balanced, and line numbers are true. */
  lemma ScannerLayoutFree()
    ensures LayoutFree(Scan) && F.Plain(Scan)
  {
    hide Scan, Change, F.IsLayout;
    forall s: string, t: Token | t in Scan(s)
      ensures Change(t) == 0 && !F.IsLayout(t)
    {
      ScanFree(s);
    }
  }
}
