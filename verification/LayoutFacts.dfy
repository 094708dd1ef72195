/** What the indentation machine does with each line, spelled out: where a line starts, which brackets are open, and
    which tokens carry its number. */
module LayoutFacts {
  import opened Syntax
  import opened Layout

  // ----- one line -----

  /** The spaces among the first 128 characters. */
  lemma Spaces(c: char)
    requires c as int < 128
    ensures IsSpace(c) <==> c in "\t\n\r \U{B}\U{C}\U{1C}\U{1D}\U{1E}\U{1F}"
  {
  }

  /** A line is taken from its first character that is no space, and skipped if there is none or if it is a `#`. */
  lemma {:induction false} StartsAt(s: string, k: nat)
    requires k <= |s| && (forall i | 0 <= i < k :: IsSpace(s[i])) && (k < |s| ==> !IsSpace(s[k]))
    ensures Strip(s) == s[k..] && Indentation(s) == k
    ensures Blank(s) <==> k == |s| || s[k] == '#'
    decreases k
  {
    hide IsSpace;
    if k > 0 {
      StartsAt(s[1..], k - 1);
      assert s[1..][k - 1..] == s[k..];
    } else {
      assert s[0..] == s;
    }
  }

  // ----- brackets -----

  function Sign(t: Token): int {
    if t in {LPar, LBrack, LBrace} then 1 else if t in {RPar, RBrack, RBrace} then -1 else 0
  }

  /** Opening brackets less closing ones. */
  function Net(ts: seq<Token>): int {
    if ts == [] then 0 else Net(ts[..|ts| - 1]) + Sign(ts[|ts| - 1])
  }

  /** `n` is the largest of the numbers of unclosed brackets at the ends of the tokens, all of them behind `d` open
      brackets among these. */
  predicate Largest(n: nat, d: nat, ts: seq<Token>) {
    && n >= d + Net(ts) && (forall k | 0 <= k <= |ts| :: n >= Net(ts[k..]))
    && (n == d + Net(ts) || exists k | 0 <= k <= |ts| :: n == Net(ts[k..]))
  }

  lemma LargestNone(d: nat)
    ensures Largest(d, d, [])
  {
  }

  lemma LargestMore(n: nat, d: nat, us: seq<Token>, t: Token)
    requires Largest(n, d, us)
    ensures Largest(if n + Sign(t) < 0 then 0 else n + Sign(t), d, us + [t])
  {
    hide Sign;
    var ts, m := us + [t], if n + Sign(t) < 0 then 0 else n + Sign(t);
    assert ts[..|us|] == us;
    assert ts[|ts|..] == [];
    forall k | 0 <= k <= |us|
      ensures Net(ts[k..]) == Net(us[k..]) + Sign(t)
    {
      assert ts[k..][..|us| - k] == us[k..] && ts[k..][|us| - k] == t;
    }
    assert Net(ts[|ts|..]) == 0;
    if n != d + Net(us) {
      var k :| 0 <= k <= |us| && n == Net(us[k..]);
      assert Net(ts[k..]) == n + Sign(t);
    }
  }

  /** The bracket depth after some tokens: a closing bracket without an opening one does not count. */
  lemma {:induction false} DepthIs(d: nat, ts: seq<Token>)
    ensures Largest(DepthAfter(d, ts), d, ts)
    decreases |ts|
  {
    hide Largest;
    if ts == [] {
      LargestNone(d);
    } else {
      var us, t := ts[..|ts| - 1], ts[|ts| - 1];
      DepthIs(d, us);
      LargestMore(DepthAfter(d, us), d, us, t);
      assert us + [t] == ts;
    }
  }

  // ----- the tokens of a line -----

  predicate IsLayout(t: Token) {
    t == Newline || t == Indent || t == Dedent
  }

  ghost predicate Plain(scan: Scanner) {
    forall s: string, t: Token :: t in scan(s) ==> !IsLayout(t)
  }

  function IfOf(t: Stamped, n: nat): seq<Token> {
    if t.line == n && !IsLayout(t.t) then [t.t] else []
  }

  /** The tokens with the number `n`, without the layout's own. */
  function OfLine(ts: seq<Stamped>, n: nat): seq<Token> {
    if ts == [] then [] else IfOf(ts[0], n) + OfLine(ts[1..], n)
  }

  lemma OfFirst(t: Stamped, ts: seq<Stamped>, n: nat)
    ensures OfLine([t] + ts, n) == IfOf(t, n) + OfLine(ts, n)
  {
    hide IfOf;
    assert ([t] + ts)[1..] == ts;
  }

  lemma {:induction false} OfBoth(a: seq<Stamped>, b: seq<Stamped>, n: nat)
    ensures OfLine(a + b, n) == OfLine(a, n) + OfLine(b, n)
    decreases |a|
  {
    hide *;
    NoneOf(n);
    if a == [] {
      assert a + b == b;
    } else {
      OfBoth(a[1..], b, n);
      OfFirst(a[0], a[1..], n);
      OfFirst(a[0], a[1..] + b, n);
      assert a == [a[0]] + a[1..] && a + b == [a[0]] + (a[1..] + b);
    }
  }

  lemma {:induction false} OfStamped(ts: seq<Token>, m: nat, n: nat)
    requires forall t <- ts :: !IsLayout(t)
    ensures OfLine(Stamp(ts, m), n) == if m == n then ts else []
    decreases |ts|
  {
    if ts != [] {
      OfStamped(ts[1..], m, n);
      assert Stamp(ts, m)[1..] == Stamp(ts[1..], m);
      assert ts == [ts[0]] + ts[1..];
    }
  }

  lemma OfOne(t: Token, m: nat, n: nat)
    requires IsLayout(t)
    ensures OfLine([Stamped(t, m)], n) == []
  {
    assert [Stamped(t, m)][1..] == [];
  }

  lemma {:induction false} PopAdds(s: Lex, indent: nat, m: nat, n: nat)
    ensures OfLine(Pop(s, indent, m).out, n) == OfLine(s.out, n)
    decreases |s.stack|
  {
    if |s.stack| > 1 && indent < s.stack[|s.stack| - 1] {
      hide OfLine;
      OfBoth(s.out, [Stamped(Dedent, m)], n);
      OfOne(Dedent, m, n);
      PopAdds(Lex(s.out + [Stamped(Dedent, m)], s.stack[..|s.stack| - 1], s.depth), indent, m, n);
    }
  }

  lemma MarginAdds(s: Lex, indent: nat, m: nat, n: nat)
    requires s.stack != []
    ensures OfLine(Margin(s, indent, m).out, n) == OfLine(s.out, n)
  {
    hide OfLine, Pop;
    OfBoth(s.out, [Stamped(Indent, m)], n);
    OfOne(Indent, m, n);
    PopAdds(s, indent, m, n);
  }

  /** The tokens a line has in the stream. */
  function Own(scan: Scanner, line: string): seq<Token> {
    if Blank(line) then [] else scan(Strip(line))
  }

  lemma LineAdds(scan: Scanner, s: Lex, line: string, m: nat, n: nat)
    requires Plain(scan) && s.stack != []
    ensures OfLine(LexLine(scan, s, line, m).out, n) == OfLine(s.out, n) + if m == n then Own(scan, line) else []
  {
    hide OfLine, Margin, Strip, Indentation, Blank, DepthAfter, Stamp;
    LexLineIs(scan, s, line, m);
    if !Blank(line) {
      var mg, ts := Margin(s, Indentation(line), m), scan(Strip(line));
      MarginAdds(s, Indentation(line), m, n);
      OfBoth(mg.out, Stamp(ts, m), n);
      OfStamped(ts, m, n);
      OfBoth(mg.out + Stamp(ts, m), [Stamped(Newline, m)], n);
      OfOne(Newline, m, n);
      assert mg.out + Stamp(ts, m) + [] == mg.out + Stamp(ts, m);
    }
  }

  lemma {:induction false} LinesAdd(scan: Scanner, lines: seq<string>, k: nat, n: nat)
    requires Plain(scan) && k <= |lines|
    ensures OfLine(LexLines(scan, lines, k).out, n) == if 1 <= n <= k then Own(scan, lines[n - 1]) else []
    decreases k
  {
    hide *;
    LexLinesIs(scan, lines, k);
    NoneOf(n);
    if k > 0 {
      LinesAdd(scan, lines, k - 1, n);
      LineAdds(scan, LexLines(scan, lines, k - 1), lines[k - 1], k, n);
    }
  }

  lemma NoneOf(n: nat)
    ensures OfLine([], n) == []
  {
  }

  /** Line numbers are true: the tokens that carry the number of a line are those the scanner finds in that line, in
      their order, and none for a blank line or a comment line. No token has another number. */
  lemma TokensOfLine(scan: Scanner, lines: seq<string>, n: nat)
    requires Plain(scan)
    ensures OfLine(TokenStream(scan, lines), n)
      == if !(1 <= n <= |lines|) || Blank(lines[n - 1]) then [] else scan(Strip(lines[n - 1]))
  {
    hide OfLine, LexLines, Pop, Blank, Strip;
    var s := LexLines(scan, lines, |lines|);
    LinesAdd(scan, lines, |lines|, n);
    PopAdds(s, 0, |lines|, n);
    OfBoth(Pop(s, 0, |lines|).out, [Stamped(Newline, |lines|)], n);
    OfOne(Newline, |lines|, n);
  }

  // ----- lines between brackets -----

  /** The tokens of the lines behind the `i`-th, up to the `j`-th. */
  function Scans(scan: Scanner, lines: seq<string>, i: nat, j: nat): seq<Stamped>
    requires i <= j <= |lines|
  {
    if i == j then [] else Scans(scan, lines, i, j - 1) + Stamp(Own(scan, lines[j - 1]), j)
  }

  lemma OpenLine(scan: Scanner, s: Lex, line: string, n: nat)
    requires s.stack != [] && s.depth > 0
    ensures var d := DepthAfter(s.depth, Own(scan, line));
      LexLine(scan, s, line, n)
        == Lex(s.out + Stamp(Own(scan, line), n) + (if d == 0 then [Stamped(Newline, n)] else []), s.stack, d)
  {
    hide Blank, Indentation, Strip, DepthAfter, Pop;
    LexLineIs(scan, s, line, n);
    NoneDeeper(s.depth);
    assert Stamp([], n) == [] && s.out + [] + [] == s.out;
  }

  lemma NoneDeeper(d: nat)
    ensures DepthAfter(d, []) == d
  {
  }

  /** While a bracket is open at the end of each line, the next line adds its tokens and nothing else, whatever its
      indentation: no INDENT, no DEDENT, and a NEWLINE only behind the last bracket. The open blocks stay as they
      are. */
  lemma {:induction false} BetweenBrackets(scan: Scanner, lines: seq<string>, i: nat, j: nat)
    requires i < j <= |lines| && forall k | i <= k < j :: LexLines(scan, lines, k).depth > 0
    ensures var s, t := LexLines(scan, lines, i), LexLines(scan, lines, j);
      && t.out == s.out + Scans(scan, lines, i, j) + (if t.depth == 0 then [Stamped(Newline, j)] else [])
      && t.stack == s.stack
    decreases j
  {
    hide *;
    LexLinesIs(scan, lines, j);
    var s, u := LexLines(scan, lines, i), LexLines(scan, lines, j - 1);
    var ts := Stamp(Own(scan, lines[j - 1]), j);
    OpenLine(scan, u, lines[j - 1], j);
    ScansIs(scan, lines, i, j);
    ScansIs(scan, lines, i, i);
    if j - 1 == i {
      assert Scans(scan, lines, i, j) == ts;
    } else {
      BetweenBrackets(scan, lines, i, j - 1);
      assert u.out == s.out + Scans(scan, lines, i, j - 1);
      assert u.out + ts == s.out + Scans(scan, lines, i, j);
    }
  }

  lemma ScansIs(scan: Scanner, lines: seq<string>, i: nat, j: nat)
    requires i <= j <= |lines|
    ensures Scans(scan, lines, i, j)
      == if i == j then [] else Scans(scan, lines, i, j - 1) + Stamp(Own(scan, lines[j - 1]), j)
  {
    hide Own, Stamp;
  }
}
