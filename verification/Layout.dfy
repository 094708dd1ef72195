/** The indentation machine of `tokenize`: lines to tokens, with INDENT, DEDENT and NEWLINE. How one line is split into
    tokens is a parameter. */
module Layout {
  import opened Syntax

  /** A token with the number of its line, from 1. */
  datatype Stamped = Stamped(t: Token, line: nat)

  /** `tokenize_line`. */
  type Scanner = string -> seq<Token>

  /** The characters `lstrip` removes. */
  predicate IsSpace(c: char) {
    var n := c as int;
    (9 <= n <= 13) || (28 <= n <= 32) || n in {0x85, 0xa0, 0x1680, 0x2028, 0x2029, 0x202f, 0x205f, 0x3000}
    || (0x2000 <= n <= 0x200a)
  }

  function Strip(s: string): (r: string)
    ensures |r| <= |s| && (r == "" || !IsSpace(r[0]))
  {
    if s != "" && IsSpace(s[0]) then Strip(s[1..]) else s
  }

  function Indentation(s: string): nat {
    |s| - |Strip(s)|
  }

  /** Blank lines and comment lines are skipped. */
  predicate Blank(s: string) {
    var r := Strip(s);
    r == "" || r[0] == '#'
  }

  /** The state between lines: the tokens so far, the open indentations, the open brackets. */
  datatype Lex = Lex(out: seq<Stamped>, stack: seq<nat>, depth: nat)

  predicate Opens(t: Token) {
    t == LPar || t == LBrack || t == LBrace
  }

  predicate Closes(t: Token) {
    t == RPar || t == RBrack || t == RBrace
  }

  function OneDepth(d: nat, t: Token): nat {
    if Opens(t) then d + 1 else if Closes(t) then (if d == 0 then 0 else d - 1) else d
  }

  /** The bracket depth after some tokens; it never goes below 0. */
  function DepthAfter(d: nat, ts: seq<Token>): nat {
    if ts == [] then d else OneDepth(DepthAfter(d, ts[..|ts| - 1]), ts[|ts| - 1])
  }

  function Stamp(ts: seq<Token>, n: nat): (r: seq<Stamped>)
    ensures |r| == |ts| && forall i | 0 <= i < |ts| :: r[i] == Stamped(ts[i], n)
  {
    seq(|ts|, i requires 0 <= i < |ts| => Stamped(ts[i], n))
  }

  /** One DEDENT for each open indentation wider than `indent`. */
  function Pop(s: Lex, indent: nat, n: nat): (r: Lex)
    decreases |s.stack|
  {
    if |s.stack| > 1 && indent < s.stack[|s.stack| - 1]
    then Pop(Lex(s.out + [Stamped(Dedent, n)], s.stack[..|s.stack| - 1], s.depth), indent, n)
    else s
  }

  /** INDENT or DEDENTs before a line, unless a bracket is open. */
  function Margin(s: Lex, indent: nat, n: nat): Lex
    requires s.stack != []
  {
    if s.depth > 0 then s
    else if indent > s.stack[|s.stack| - 1] then Lex(s.out + [Stamped(Indent, n)], s.stack + [indent], 0)
    else Pop(s, indent, n)
  }

  function LexLine(scan: Scanner, s: Lex, line: string, n: nat): Lex
    requires s.stack != []
  {
    if Blank(line) then s else
    var m := Margin(s, Indentation(line), n);
    var ts := scan(Strip(line));
    var depth := DepthAfter(m.depth, ts);
    Lex(m.out + Stamp(ts, n) + (if depth == 0 then [Stamped(Newline, n)] else []), m.stack, depth)
  }

  lemma LexLineIs(scan: Scanner, s: Lex, line: string, n: nat)
    requires s.stack != []
    ensures LexLine(scan, s, line, n) == if Blank(line) then s else
      var m := Margin(s, Indentation(line), n);
      var ts := scan(Strip(line));
      var depth := DepthAfter(m.depth, ts);
      Lex(m.out + Stamp(ts, n) + (if depth == 0 then [Stamped(Newline, n)] else []), m.stack, depth)
  {
    hide Blank, Margin, Indentation, Strip, DepthAfter, Stamp;
  }

  /** The state after the first `k` lines. */
  function LexLines(scan: Scanner, lines: seq<string>, k: nat): (s: Lex)
    requires k <= |lines|
    ensures s.stack != []
  {
    if k == 0 then Lex([], [0], 0)
    else var s := LexLine(scan, LexLines(scan, lines, k - 1), lines[k - 1], k);
      MarginNonempty(scan, LexLines(scan, lines, k - 1), lines[k - 1], k);
      s
  }

  lemma {:induction false} PopNonempty(s: Lex, indent: nat, n: nat)
    requires s.stack != []
    ensures Pop(s, indent, n).stack != []
    decreases |s.stack|
  {
    if |s.stack| > 1 && indent < s.stack[|s.stack| - 1] {
      PopNonempty(Lex(s.out + [Stamped(Dedent, n)], s.stack[..|s.stack| - 1], s.depth), indent, n);
    }
  }

  lemma MarginNonempty(scan: Scanner, s: Lex, line: string, n: nat)
    requires s.stack != []
    ensures LexLine(scan, s, line, n).stack != []
  {
    PopNonempty(s, Indentation(line), n);
  }

  /** The whole source: at the end every open indentation is closed, and there is a last NEWLINE. */
  function TokenStream(scan: Scanner, lines: seq<string>): seq<Stamped> {
    Pop(LexLines(scan, lines, |lines|), 0, |lines|).out + [Stamped(Newline, |lines|)]
  }

  // ----- the program's loop -----

  method Tokenize(scan: Scanner, lines: seq<string>) returns (tokens: seq<Stamped>)
    ensures tokens == TokenStream(scan, lines)
  {
    tokens := [];
    var stack: seq<nat>, depth: nat := [0], 0;
    var i := 0;
    while i < |lines|
      invariant i <= |lines|
      invariant Lex(tokens, stack, depth) == LexLines(scan, lines, i)
    {
      hide Strip, DepthAfter, Pop, LexLine, Margin, Stamp;
      LexLineIs(scan, LexLines(scan, lines, i), lines[i], i + 1);
      var stripped := Strip(lines[i]);
      if stripped == "" || stripped[0] == '#' {
        i := i + 1;
        continue;
      }
      tokens, stack := StartLine(tokens, stack, depth, |lines[i]| - |stripped|, i + 1);
      var ts := scan(stripped);
      depth := Brackets(depth, ts);
      tokens := tokens + Stamp(ts, i + 1) + (if depth == 0 then [Stamped(Newline, i + 1)] else []);
      i := i + 1;
    }
    tokens, stack := Unwind(tokens, stack, depth, 0, |lines|);
    tokens := tokens + [Stamped(Newline, |lines|)];
  }

  /** INDENT or DEDENTs, unless a bracket is open. */
  method StartLine(ts: seq<Stamped>, st: seq<nat>, depth: nat, indent: nat, n: nat)
    returns (tokens: seq<Stamped>, stack: seq<nat>)
    requires st != []
    ensures Lex(tokens, stack, depth) == Margin(Lex(ts, st, depth), indent, n) && stack != []
  {
    tokens, stack := ts, st;
    if depth == 0 {
      if indent > stack[|stack| - 1] {
        stack := stack + [indent];
        tokens := tokens + [Stamped(Indent, n)];
      } else {
        tokens, stack := Unwind(tokens, stack, depth, indent, n);
      }
    }
  }

  /** The loop that counts brackets. */
  method Brackets(d: nat, ts: seq<Token>) returns (depth: nat)
    ensures depth == DepthAfter(d, ts)
  {
    depth := d;
    var k := 0;
    while k < |ts|
      invariant k <= |ts| && depth == DepthAfter(d, ts[..k])
    {
      assert ts[..k + 1][..k] == ts[..k];
      if Opens(ts[k]) {
        depth := depth + 1;
      } else if Closes(ts[k]) {
        depth := if depth == 0 then 0 else depth - 1;
      }
      k := k + 1;
    }
    assert ts[..k] == ts;
  }

  /** The loop that pops. */
  method Unwind(ts: seq<Stamped>, st: seq<nat>, ghost depth: nat, indent: nat, n: nat)
    returns (tokens: seq<Stamped>, stack: seq<nat>)
    requires st != []
    ensures Lex(tokens, stack, depth) == Pop(Lex(ts, st, depth), indent, n) && stack != []
  {
    tokens, stack := ts, st;
    while |stack| > 1 && indent < stack[|stack| - 1]
      invariant stack != [] && Pop(Lex(tokens, stack, depth), indent, n) == Pop(Lex(ts, st, depth), indent, n)
    {
      stack := stack[..|stack| - 1];
      tokens := tokens + [Stamped(Dedent, n)];
    }
  }

  // ----- balance -----

  function Change(t: Token): int {
    if t == Indent then 1 else if t == Dedent then -1 else 0
  }

  /** INDENTs less DEDENTs. */
  function Nesting(ts: seq<Stamped>): int {
    if ts == [] then 0 else Nesting(ts[..|ts| - 1]) + Change(ts[|ts| - 1].t)
  }

  /** No prefix has more DEDENTs than INDENTs. */
  predicate NeverBelow(ts: seq<Stamped>) {
    forall k | 0 <= k <= |ts| :: Nesting(ts[..k]) >= 0
  }

  /** Line numbers never decrease, and do not pass `last`. */
  predicate InOrder(ts: seq<Stamped>, last: nat) {
    && (forall i, j | 0 <= i < j < |ts| :: ts[i].line <= ts[j].line)
    && (forall t <- ts :: t.line <= last)
  }

  predicate Increasing(stack: seq<nat>) {
    stack != [] && stack[0] == 0 && forall i, j | 0 <= i < j < |stack| :: stack[i] < stack[j]
  }

  /** The tokens of a line are never INDENT or DEDENT. */
  ghost predicate LayoutFree(scan: Scanner) {
    forall s: string, t: Token :: t in scan(s) ==> Change(t) == 0
  }

  predicate Sound(s: Lex, n: nat) {
    Increasing(s.stack) && Nesting(s.out) == |s.stack| - 1 && NeverBelow(s.out) && InOrder(s.out, n)
  }

  lemma OneMore(ts: seq<Stamped>, t: Stamped, n: nat)
    requires NeverBelow(ts) && InOrder(ts, n) && t.line >= n && Nesting(ts) + Change(t.t) >= 0
    ensures Nesting(ts + [t]) == Nesting(ts) + Change(t.t) && NeverBelow(ts + [t]) && InOrder(ts + [t], t.line)
  {
    var us := ts + [t];
    assert us[..|ts|] == ts;
    forall k | 0 <= k <= |us|
      ensures Nesting(us[..k]) >= 0
    {
      if k <= |ts| {
        assert us[..k] == ts[..k];
      } else {
        assert us[..k] == us;
      }
    }
  }

  lemma NestingOf(ts: seq<Stamped>)
    requires NeverBelow(ts)
    ensures Nesting(ts) >= 0
  {
    assert ts[..|ts|] == ts;
  }

  lemma StampMore(more: seq<Token>, n: nat)
    requires more != []
    ensures Stamp(more, n) == Stamp(more[..|more| - 1], n) + [Stamped(more[|more| - 1], n)]
  {
  }

  lemma InOrderLater(ts: seq<Stamped>, m: nat, n: nat)
    requires InOrder(ts, m) && m <= n
    ensures InOrder(ts, n)
  {
  }

  lemma {:induction false} ManyMore(ts: seq<Stamped>, more: seq<Token>, n: nat, m: nat)
    requires NeverBelow(ts) && InOrder(ts, m) && n >= m && forall t <- more :: Change(t) == 0
    ensures var us := ts + Stamp(more, n); Nesting(us) == Nesting(ts) && NeverBelow(us) && InOrder(us, n)
    decreases |more|
  {
    hide NeverBelow, Nesting, InOrder, Change;
    if more == [] {
      assert ts + Stamp(more, n) == ts;
      InOrderLater(ts, m, n);
    } else {
      var k := |more| - 1;
      var front := more[..k];
      assert more[k] in more && forall t <- front :: t in more;
      ManyMore(ts, front, n, m);
      NestingOf(ts);
      StampMore(more, n);
      assert ts + Stamp(more, n) == ts + Stamp(front, n) + [Stamped(more[k], n)];
      OneMore(ts + Stamp(front, n), Stamped(more[k], n), n);
    }
  }

  lemma PopOnce(s: Lex, n: nat, m: nat)
    requires Sound(s, m) && n >= m && |s.stack| > 1
    ensures Sound(Lex(s.out + [Stamped(Dedent, n)], s.stack[..|s.stack| - 1], s.depth), n)
  {
    OneMore(s.out, Stamped(Dedent, n), m);
    hide NeverBelow, Nesting, InOrder;
  }

  lemma SoundLater(s: Lex, m: nat, n: nat)
    requires Sound(s, m) && m <= n
    ensures Sound(s, n)
  {
    InOrderLater(s.out, m, n);
    hide InOrder, NeverBelow, Nesting, Increasing;
  }

  lemma {:induction false} PopSound(s: Lex, indent: nat, n: nat, m: nat)
    requires Sound(s, m) && n >= m
    ensures Sound(Pop(s, indent, n), n) && Pop(s, indent, n).depth == s.depth
    ensures var st := Pop(s, indent, n).stack; st[|st| - 1] <= indent
    decreases |s.stack|
  {
    hide NeverBelow, Nesting, InOrder;
    var top := |s.stack| - 1;
    if top > 0 && indent < s.stack[top] {
      hide Sound;
      PopOnce(s, n, m);
      PopSound(Lex(s.out + [Stamped(Dedent, n)], s.stack[..top], s.depth), indent, n, n);
    } else {
      SoundLater(s, m, n);
    }
  }

  lemma MarginSound(s: Lex, indent: nat, n: nat, m: nat)
    requires Sound(s, m) && n >= m
    ensures Sound(Margin(s, indent, n), n)
  {
    hide Pop, NeverBelow, Nesting, InOrder;
    if s.depth > 0 {
      SoundLater(s, m, n);
    } else if indent > s.stack[|s.stack| - 1] {
      PushSound(s, indent, n, m);
    } else {
      PopSound(s, indent, n, m);
    }
  }

  lemma PushSound(s: Lex, indent: nat, n: nat, m: nat)
    requires Sound(s, m) && n >= m && indent > s.stack[|s.stack| - 1]
    ensures Sound(Lex(s.out + [Stamped(Indent, n)], s.stack + [indent], 0), n)
  {
    NestingGrows(s, m);
    OneMore(s.out, Stamped(Indent, n), m);
    Pushed(s.stack, indent);
    hide *;
    SoundIs(s, m);
    SoundIs(Lex(s.out + [Stamped(Indent, n)], s.stack + [indent], 0), n);
    IndentChange();
  }

  lemma IndentChange()
    ensures Change(Indent) == 1
  {
  }

  lemma SoundIs(s: Lex, n: nat)
    ensures Sound(s, n) <==>
      Increasing(s.stack) && Nesting(s.out) == |s.stack| - 1 && NeverBelow(s.out) && InOrder(s.out, n)
  {
    hide Increasing, Nesting, NeverBelow, InOrder;
  }

  lemma NestingGrows(s: Lex, m: nat)
    requires Sound(s, m)
    ensures Nesting(s.out) + Change(Indent) >= 0
  {
    NestingOf(s.out);
    hide Nesting, NeverBelow, InOrder, Increasing;
  }

  lemma Pushed(stack: seq<nat>, indent: nat)
    requires Increasing(stack) && indent > stack[|stack| - 1]
    ensures Increasing(stack + [indent])
  {
  }

  lemma LineSound(scan: Scanner, s: Lex, line: string, n: nat, m: nat)
    requires LayoutFree(scan) && Sound(s, m) && n >= m
    ensures Sound(LexLine(scan, s, line, n), n)
  {
    hide *;
    SoundStack(s, m);
    LexLineIs(scan, s, line, n);
    if Blank(line) {
      SoundLater(s, m, n);
    } else {
      var mg := Margin(s, Indentation(line), n);
      var ts := scan(Strip(line));
      var us := mg.out + Stamp(ts, n);
      MarginSound(s, Indentation(line), n, m);
      SoundIs(mg, n);
      FreeTokens(scan, Strip(line));
      ManyMore(mg.out, ts, n, n);
      NestingOf(us);
      OneMore(us, Stamped(Newline, n), n);
      assert us + [] == us;
      SoundIs(LexLine(scan, s, line, n), n);
    }
  }

  lemma SoundStack(s: Lex, m: nat)
    requires Sound(s, m)
    ensures s.stack != []
  {
    hide Nesting, NeverBelow, InOrder;
  }

  lemma FreeTokens(scan: Scanner, s: string)
    requires LayoutFree(scan)
    ensures (forall t <- scan(s) :: Change(t) == 0) && Change(Newline) == 0
  {
  }

  /** After any number of lines: the indent stack is strictly increasing from 0, and its height is the nesting. */
  lemma {:induction false} LinesSound(scan: Scanner, lines: seq<string>, k: nat)
    requires LayoutFree(scan) && k <= |lines|
    ensures Sound(LexLines(scan, lines, k), k)
    decreases k
  {
    hide *;
    LexLinesIs(scan, lines, k);
    if k > 0 {
      LinesSound(scan, lines, k - 1);
      LineSound(scan, LexLines(scan, lines, k - 1), lines[k - 1], k, k - 1);
    } else {
      StartSound();
    }
  }

  lemma LexLinesIs(scan: Scanner, lines: seq<string>, k: nat)
    requires k <= |lines|
    ensures LexLines(scan, lines, k) ==
      if k == 0 then Lex([], [0], 0) else LexLine(scan, LexLines(scan, lines, k - 1), lines[k - 1], k)
  {
    hide LexLine;
  }

  lemma StartSound()
    ensures Sound(Lex([], [0], 0), 0)
  {
    assert Nesting([]) == 0;
  }

  lemma OneLeft(stack: seq<nat>)
    requires Increasing(stack) && stack[|stack| - 1] <= 0
    ensures |stack| == 1
  {
  }

  /** For every source: INDENT and DEDENT balance, no prefix has more DEDENTs than INDENTs, and line numbers never
      decrease or pass the last line. */
  lemma Balanced(scan: Scanner, lines: seq<string>)
    requires LayoutFree(scan)
    ensures var ts := TokenStream(scan, lines); Nesting(ts) == 0 && NeverBelow(ts) && InOrder(ts, |lines|)
  {
    var n := |lines|;
    var s := LexLines(scan, lines, n);
    LinesSound(scan, lines, n);
    PopSound(s, 0, n, n);
    var p := Pop(s, 0, n);
    hide LexLines, Pop, NeverBelow, InOrder, LayoutFree;
    assert Increasing(p.stack) && Nesting(p.out) == |p.stack| - 1 && NeverBelow(p.out) && InOrder(p.out, n);
    OneLeft(p.stack);
    hide Nesting, Increasing;
    OneMore(p.out, Stamped(Newline, n), n);
  }
}
