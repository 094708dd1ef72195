/** The scanner of one line: characters to tokens, and a text for tokens that it reads back. */
module LineScanner {
  import opened Wrappers
  import opened Syntax
  import opened ExprParser
  import opened Encoders
  import opened TripleQuotes

  // ----- characters -----

  /** Letters and digits are the ASCII ones here. */
  predicate Letter(c: char) {
    'a' <= c <= 'z' || 'A' <= c <= 'Z' || c == '_'
  }

  predicate WordChar(c: char) {
    Letter(c) || IsDigit(c)
  }

  predicate Quote(c: char) {
    c == '"' || c == '\''
  }

  function Drop(s: string, n: nat): (r: string)
    ensures n > 0 && s != "" ==> |r| < |s|
  {
    if n <= |s| then s[n..] else ""
  }

  // ----- words -----

  function WordLength(s: string): (n: nat)
    ensures n <= |s|
  {
    if s == "" || !WordChar(s[0]) then 0 else 1 + WordLength(s[1..])
  }

  /** Keywords outside the modelled grammar have tokens of their own. */
  function WordToken(w: string): Token {
    if w == "and" then Sym(AndOp) else if w == "or" then Sym(OrOp) else if w == "not" then NotT
    else if w == "is" then Cmp(Is) else if w == "in" then Cmp(In) else if w == "await" then AwaitT
    else if w == "break" then BreakT else if w == "continue" then ContinueT else if w == "elif" then ElifT
    else if w == "else" then ElseT else if w == "if" then IfT else if w == "for" then ForT
    else if w == "pass" then PassT else if w == "return" then ReturnT else if w == "while" then WhileT
    else if w == "def" then DefT
    else if OtherKeyword(w) then Other(KEYWORD)
    else if w == "True" then TrueT else if w == "False" then FalseT else if w == "None" then NoneT
    else Name(w)
  }

  predicate OtherKeyword(w: string) {
    w in ["assert", "async", "del", "except", "as", "finally", "from", "global", "import", "lambda",
      "nonlocal", "raise", "try", "with", "yield", "class"]
  }

  /** The 35 keywords in section 2.3.1 of the Python reference. */
  const KEYWORDS := ["False", "None", "True", "and", "as", "assert", "async", "await", "break", "class", "continue",
    "def", "del", "elif", "else", "except", "finally", "for", "from", "global", "if", "import", "in", "is", "lambda",
    "nonlocal", "not", "or", "pass", "raise", "return", "try", "while", "with", "yield"]

  lemma NamesOnly(w: string)
    requires WordToken(w) != Name(w)
    ensures w in KEYWORDS
  {
  }

  lemma KeywordsOnly(w: string)
    requires WordToken(w) == Name(w)
    ensures w !in KEYWORDS
  {
    assert !OtherKeyword(w);
    assert w != "and" && w != "or" && w != "not" && w != "is" && w != "in" && w != "await" && w != "break"
      && w != "continue" && w != "elif" && w != "else" && w != "if" && w != "for" && w != "pass" && w != "return"
      && w != "while" && w != "def" && w != "True" && w != "False" && w != "None";
    hide WordToken;
  }

  /** Names are the words that are no keywords. */
  lemma NamesAre(w: string)
    ensures WordToken(w) == Name(w) <==> w !in KEYWORDS
  {
    hide WordToken, KEYWORDS;
    if WordToken(w) == Name(w) {
      KeywordsOnly(w);
    } else {
      NamesOnly(w);
    }
  }

  /** The names of builtins and exceptions: variables in an expression, but no names of attributes or loop targets. */
  predicate Reserved(w: string) {
    w in [
      "print", "input", "exec", "int", "str", "list", "dict", "tuple", "set", "range", "abs", "divmod", "max", "min",
      "pow", "round", "sum", "bin", "hex", "oct", "bool", "bytearray", "bytes", "complex", "float", "object", "type",
      "all", "any", "enumerate", "filter", "iter", "len", "map", "next", "reversed", "slice", "sorted", "zip", "open",
      "callable", "delattr", "dir", "hasattr", "id", "isinstance", "issubclass", "setattr", "vars", "ascii", "chr",
      "ord", "format", "repr", "globals", "locals", "hash", "property", "classmethod", "staticmethod", "super",
      "Exception", "BaseException", "SystemExit", "KeyboardInterrupt", "GeneratorExit", "ArithmeticError",
      "ZeroDivisionError", "OverflowError", "FloatingPointError", "LookupError", "IndexError", "KeyError",
      "AttributeError", "ImportError", "ModuleNotFoundError", "NameError", "UnboundLocalError", "OSError", "IOError",
      "FileNotFoundError", "PermissionError", "TimeoutError", "RuntimeError", "NotImplementedError", "RecursionError",
      "StopIteration", "StopAsyncIteration", "SyntaxError", "IndentationError", "TabError", "SystemError",
      "TypeError", "ValueError", "UnicodeError", "UnicodeDecodeError", "UnicodeEncodeError", "UnicodeTranslateError",
      "MemoryError", "BufferError", "EOFError", "ConnectionError", "BrokenPipeError", "ConnectionAbortedError",
      "ConnectionRefusedError", "ConnectionResetError", "FileExistsError", "InterruptedError", "IsADirectoryError",
      "NotADirectoryError", "ChildProcessError", "ProcessLookupError", "Warning", "UserWarning", "DeprecationWarning",
      "RuntimeWarning", "SyntaxWarning", "ResourceWarning", "FutureWarning", "ImportWarning", "UnicodeWarning",
      "BytesWarning", "AssertionError", "EnvironmentError", "ExceptionGroup"]
  }

  const COMMENT: nat := 0
  const FSTRING: nat := 1
  const FLOAT: nat := 2
  const KEYWORD: nat := 3
  const ARROW: nat := 4

  // ----- one lexeme -----

  /** The tokens of the next piece of a line, and its length, which may pass the end of the line. */
  datatype Lexeme = Lexeme(tokens: Tokens, length: nat)

  function Special(c: char): Option<Token> {
    match c
    case '(' => Some(LPar)
    case ')' => Some(RPar)
    case '{' => Some(LBrace)
    case '}' => Some(RBrace)
    case '[' => Some(LBrack)
    case ']' => Some(RBrack)
    case ';' => Some(Semicolon)
    case ':' => Some(Colon)
    case ',' => Some(Comma)
    case '.' => Some(Dot)
    case _ => None
  }

  function CharAt(s: string, i: nat): char {
    if i < |s| then s[i] else '\0'
  }

  /** An operator that may be doubled, and followed by `=`. */
  function Doubling(s: string, single: Token, double: Token, singleEq: Token, doubleEq: Token): Lexeme
    requires s != ""
  {
    if CharAt(s, 1) == s[0] then
      if CharAt(s, 2) == '=' then Lexeme([doubleEq], 3) else Lexeme([double], 2)
    else if CharAt(s, 1) == '=' then Lexeme([singleEq], 2)
    else Lexeme([single], 1)
  }

  function MaybeEq(s: string, single: Token, withEq: Token): Lexeme {
    if CharAt(s, 1) == '=' then Lexeme([withEq], 2) else Lexeme([single], 1)
  }

  /** The longest operator a text starts with. */
  function Operator(s: string): (r: Option<Lexeme>)
    requires s != ""
    ensures r.Some? ==> r.value.length > 0
  {
    match s[0]
    case '*' => Some(Doubling(s, Sym(Star), DStar, Aug(Star), AugDStar))
    case '/' => Some(Doubling(s, Sym(Slash), Sym(DSlash), Aug(Slash), Aug(DSlash)))
    case '>' => Some(Doubling(s, Cmp(Gt), Sym(RShift), Cmp(Geq), Aug(RShift)))
    case '<' => Some(Doubling(s, Cmp(Lt), Sym(LShift), Cmp(Leq), Aug(LShift)))
    case '+' => Some(MaybeEq(s, Sym(Plus), Aug(Plus)))
    case '-' => Some(if CharAt(s, 1) == '>' then Lexeme([Other(ARROW)], 2) else MaybeEq(s, Sym(Minus), Aug(Minus)))
    case '%' => Some(MaybeEq(s, Sym(Percent), Aug(Percent)))
    case '@' => Some(MaybeEq(s, Sym(At), Aug(At)))
    case '&' => Some(MaybeEq(s, Sym(BitAnd), Aug(BitAnd)))
    case '|' => Some(MaybeEq(s, Sym(BitOr), Aug(BitOr)))
    case '^' => Some(MaybeEq(s, Sym(BitXor), Aug(BitXor)))
    case '=' => Some(MaybeEq(s, Eq, Cmp(EqEq)))
    case '!' => if CharAt(s, 1) == '=' then Some(Lexeme([Cmp(NotEq)], 2)) else None
    case '~' => Some(Lexeme([Tilde], 1))
    case _ => None
  }

  // ----- numbers -----

  function HexValue(c: char): nat {
    if IsDigit(c) then c as int - '0' as int
    else if 'a' <= c <= 'f' then c as int - 'a' as int + 10
    else if 'A' <= c <= 'F' then c as int - 'A' as int + 10
    else 16
  }

  /** The digits of a base, and underscores, at the start of a text. */
  function RunLength(s: string, base: nat): (n: nat)
    ensures n <= |s|
  {
    if s == "" || !(s[0] == '_' || HexValue(s[0]) < base) then 0 else 1 + RunLength(s[1..], base)
  }

  /** The number the digits stand for; underscores do not count. */
  function ReadNumber(s: string, base: nat, n: nat): nat {
    if s == "" then n else ReadNumber(s[1..], base, if s[0] == '_' then n else base * n + HexValue(s[0]))
  }

  function BaseOf(c: char): nat {
    if c == 'x' || c == 'X' then 16 else if c == 'b' || c == 'B' then 2 else if c == 'o' || c == 'O' then 8 else 0
  }

  predicate DigitAt(s: string, i: nat) {
    i < |s| && IsDigit(s[i])
  }

  function PlainDigits(s: string): (n: nat)
    ensures n <= |s|
  {
    if s == "" || !IsDigit(s[0]) then 0 else 1 + PlainDigits(s[1..])
  }

  /** An exponent at `n`, if there is one. */
  function ExponentEnd(s: string, n: nat): (m: nat)
    requires n <= |s|
    ensures n <= m <= |s|
  {
    if (CharAt(s, n) == 'e' || CharAt(s, n) == 'E') && DigitAt(s, n + 1) then n + 1 + PlainDigits(s[n + 1..])
    else if
      && (CharAt(s, n) == 'e' || CharAt(s, n) == 'E') && (CharAt(s, n + 1) == '+' || CharAt(s, n + 1) == '-')
      && DigitAt(s, n + 2)
    then n + 2 + PlainDigits(s[n + 2..])
    else n
  }

  function Number(s: string): (r: Lexeme)
    requires DigitAt(s, 0)
    ensures r.length > 0
  {
    if s[0] == '0' && BaseOf(CharAt(s, 1)) > 0 then
      var k := RunLength(s[2..], BaseOf(s[1]));
      Lexeme([Int(ReadNumber(s[2..][..k], BaseOf(s[1]), 0))], 2 + k)
    else
      var n := RunLength(s, 10);
      var m := if CharAt(s, n) == '.' then n + 1 + RunLength(s[n + 1..], 10) else n;
      var end := ExponentEnd(s, m);
      if end > n then Lexeme([Other(FLOAT)], end) else Lexeme([Int(ReadNumber(s[..n], 10, 0))], n)
  }

  // ----- the line -----

  function RawLength(s: string, quote: char): (n: nat)
    ensures n <= |s|
  {
    if s == "" || s[0] == quote then 0 else 1 + RawLength(s[1..], quote)
  }

  /** The text before the closing quote. */
  function Literal(s: string, start: nat): Lexeme
    requires start < |s|
  {
    var n := StringLength(s[start + 1..], s[start]);
    Lexeme([Str(s[start + 1..][..n])], start + 2 + n)
  }

  function RawLiteral(s: string): Lexeme
    requires |s| > 1
  {
    var n := RawLength(s[2..], s[1]);
    Lexeme([Str(s[2..][..n])], 3 + n)
  }

  /** A word right after a dot is always a name. */
  function AfterDot(s: string): Lexeme
    requires s != ""
  {
    if |s| > 1 && Letter(s[1]) then
      var n := WordLength(s[1..]);
      Lexeme([Dot, Name(s[1..][..n])], 1 + n)
    else Lexeme([Dot], 1)
  }

  function Word(s: string): (r: Lexeme)
    requires s != "" && Letter(s[0])
    ensures r.length > 0
  {
    var n := WordLength(s);
    Lexeme([WordToken(s[..n])], n)
  }

  /** What a line starts with. A character that starts nothing is passed over. */
  function Next(s: string): (r: Lexeme)
    requires s != ""
    ensures r.length > 0
  {
    var c := s[0];
    if c == ' ' || c == '\t' then Lexeme([], 1)
    else if c == '#' then Lexeme([Other(COMMENT)], |s|)
    else if (c == 'f' || c == 'F') && Quote(CharAt(s, 1)) then Lexeme([Other(FSTRING)], Literal(s, 1).length)
    else if (c == 'r' || c == 'R') && Quote(CharAt(s, 1)) then RawLiteral(s)
    else if Quote(c) then Literal(s, 0)
    else if c == '.' then AfterDot(s)
    else if Special(c).Some? then Lexeme([Special(c).value], 1)
    else if Operator(s).Some? then Operator(s).value
    else if Letter(c) then Word(s)
    else if IsDigit(c) then Number(s)
    else Lexeme([], 1)
  }

  /** `tokenize_line`. */
  function Scan(line: string): Tokens
    decreases |line|
  {
    if line == "" then [] else Next(line).tokens + Scan(Drop(line, Next(line).length))
  }

  // ----- the loops -----

  method TokenizeLine(line: string) returns (tokens: Tokens)
    ensures tokens == Scan(line)
  {
    hide Next, Scan, Drop;
    tokens := [];
    var i: nat := 0;
    ScanEnds(line);
    while i < |line|
      invariant tokens + Scan(Drop(line, i)) == Scan(line)
      decreases |line| - i
    {
      ScanAt(line, i);
      var ts, n := ReadLexeme(line, i);
      assert tokens + (ts + Scan(Drop(line, i + n))) == (tokens + ts) + Scan(Drop(line, i + n));
      tokens := tokens + ts;
      i := i + n;
    }
  }

  lemma ScanEnds(line: string)
    ensures Drop(line, 0) == line
    ensures forall i: nat | i >= |line| :: Scan(Drop(line, i)) == []
  {
  }

  lemma ScanAt(line: string, i: nat)
    requires i < |line|
    ensures var x := Next(line[i..]);
      Scan(Drop(line, i)) == x.tokens + Scan(Drop(line, i + x.length))
  {
    hide Next;
    var x := Next(line[i..]);
    assert Drop(line, i) == line[i..];
    assert Drop(line[i..], x.length) == Drop(line, i + x.length);
  }

  /** Does a string literal start here, with or without a prefix? */
  predicate AtLiteral(s: string)
    requires s != ""
  {
    Quote(s[0]) || (Prefixed(s[0]) && Quote(CharAt(s, 1)))
  }

  predicate Prefixed(c: char) {
    c == 'f' || c == 'F' || c == 'r' || c == 'R'
  }

  method ReadLexeme(line: string, i: nat) returns (ts: Tokens, n: nat)
    requires i < |line|
    ensures n > 0 && Lexeme(ts, n) == Next(line[i..])
  {
    hide Operator, Special, Literal, RawLiteral, Word, Number, AfterDot, CharAt;
    var c := line[i];
    var next := if i + 1 < |line| then line[i + 1] else '\0';
    Heads(line, i);
    if Quote(c) || (Prefixed(c) && Quote(next)) {
      ts, n := ReadLiteral(line, i);
    } else if c == ' ' || c == '\t' {
      ts, n := [], 1;
    } else if c == '#' {
      ts, n := [Other(COMMENT)], |line| - i;
    } else if c == '.' {
      ts, n := ReadDot(line, i);
    } else if Special(c).Some? {
      ts, n := [Special(c).value], 1;
    } else if Operator(line[i..]).Some? {
      ts, n := Operator(line[i..]).value.tokens, Operator(line[i..]).value.length;
    } else if Letter(c) {
      var w := ReadWord(line, i);
      WordIs(line[i..]);
      ts, n := [WordToken(w)], |w|;
    } else if IsDigit(c) {
      ts, n := Number(line[i..]).tokens, Number(line[i..]).length;
    } else {
      ts, n := [], 1;
    }
  }

  lemma Heads(line: string, i: nat)
    requires i < |line|
    ensures line[i..] != "" && |line[i..]| == |line| - i && line[i..][0] == line[i]
    ensures CharAt(line[i..], 1) == if i + 1 < |line| then line[i + 1] else '\0'
  {
  }

  /** The three kinds of string literals. */
  method ReadLiteral(line: string, i: nat) returns (ts: Tokens, n: nat)
    requires i < |line| && AtLiteral(line[i..])
    ensures n > 0 && Lexeme(ts, n) == Next(line[i..])
  {
    hide Next, Literal, RawLiteral, CharAt, StringLength, RawLength;
    Heads(line, i);
    NextLiteral(line[i..]);
    var c := line[i];
    if c == 'f' || c == 'F' {
      var text, end := ScanString(line, i + 1);
      LiteralAt(line, i, 1);
      ts, n := [Other(FSTRING)], end - i;
    } else if c == 'r' || c == 'R' {
      var text := ReadRaw(line, i + 2, line[i + 1]);
      RawAt(line, i);
      ts, n := [Str(text)], 3 + |text|;
    } else {
      var text, end := ScanString(line, i);
      LiteralAt(line, i, 0);
      ts, n := [Str(text)], end - i;
    }
  }

  lemma NextLiteral(s: string)
    requires s != "" && AtLiteral(s)
    ensures |s| > 1 || Quote(s[0])
    ensures s[0] == 'f' || s[0] == 'F' ==> |s| > 1 && Next(s) == Lexeme([Other(FSTRING)], Literal(s, 1).length)
    ensures s[0] == 'r' || s[0] == 'R' ==> |s| > 1 && Quote(s[1]) && Next(s) == RawLiteral(s)
    ensures !Prefixed(s[0]) ==> Next(s) == Literal(s, 0)
  {
    hide Operator, Special, Literal, RawLiteral, Word, Number, AfterDot;
  }

  /** A dot, and the word right after it. */
  method ReadDot(line: string, i: nat) returns (ts: Tokens, n: nat)
    requires i < |line| && line[i] == '.'
    ensures n > 0 && Lexeme(ts, n) == AfterDot(line[i..])
  {
    hide WordLength;
    assert line[i..][1..] == line[i + 1..];
    if i + 1 < |line| && Letter(line[i + 1]) {
      var w := ReadWord(line, i + 1);
      ts, n := [Dot, Name(w)], 1 + |w|;
    } else {
      ts, n := [Dot], 1;
    }
  }

  lemma WordIs(s: string)
    requires s != "" && Letter(s[0])
    ensures WordLength(s) > 0 && Word(s) == Lexeme([WordToken(s[..WordLength(s)])], WordLength(s))
  {
    hide WordToken;
  }

  lemma LiteralAt(line: string, i: nat, start: nat)
    requires i + start < |line|
    ensures var n := StringLength(line[i + start + 1..], line[i + start]);
      Literal(line[i..], start) == Lexeme([Str(line[i + start + 1..][..n])], start + 2 + n)
  {
    assert line[i..][start + 1..] == line[i + start + 1..];
  }

  lemma RawAt(line: string, i: nat)
    requires i + 1 < |line|
    ensures var n := RawLength(line[i + 2..], line[i + 1]);
      RawLiteral(line[i..]) == Lexeme([Str(line[i + 2..][..n])], 3 + n)
  {
    assert line[i..][2..] == line[i + 2..];
  }

  method ReadWord(line: string, start: nat) returns (w: string)
    requires start <= |line|
    ensures w == line[start..][..WordLength(line[start..])]
    ensures |w| == WordLength(line[start..])
  {
    w := "";
    var i := start;
    while i < |line| && WordChar(line[i])
      invariant start <= i <= |line| && w == line[start..i]
      invariant i - start + WordLength(line[i..]) == WordLength(line[start..])
    {
      assert line[i..][1..] == line[i + 1..];
      w := w + [line[i]];
      i := i + 1;
    }
    assert line[start..][..i - start] == line[start..i];
  }

  method ReadRaw(line: string, start: nat, quote: char) returns (text: string)
    requires start <= |line|
    ensures text == line[start..][..RawLength(line[start..], quote)]
    ensures |text| == RawLength(line[start..], quote)
  {
    text := "";
    var i := start;
    while i < |line| && line[i] != quote
      invariant start <= i <= |line| && text == line[start..i]
      invariant i - start + RawLength(line[i..], quote) == RawLength(line[start..], quote)
    {
      assert line[i..][1..] == line[i + 1..];
      text := text + [line[i]];
      i := i + 1;
    }
    assert line[start..][..i - start] == line[start..i];
  }

  /** A collapsed triple-quoted literal is one string token, with exactly the escaped body. */
  lemma CollapsedIsOneToken(body: string, rest: string)
    ensures Next("\"" + EscapeBody(body) + "\"" + rest) == Lexeme([Str(EscapeBody(body))], |EscapeBody(body)| + 2)
  {
    hide EscapeBody, StringLength, Operator, Special;
    var s, e := "\"" + EscapeBody(body) + "\"" + rest, EscapeBody(body);
    LiteralScans(body, rest);
    assert s[1..] == e + "\"" + rest;
    assert s[1..][..|e|] == e;
    assert Next(s) == Literal(s, 0);
  }
}
