/** The splitting of an f-string into texts and expressions, and the printer it inverts. */
module FString {
  datatype Part = Text(text: string) | Expr(expr: string)

  /** What `str.strip` takes off. */
  predicate Space(c: char) {
    var x := c as int;
    9 <= x <= 13 || 28 <= x <= 32 || x == 0x85 || x == 0xA0 || x == 0x1680 || 0x2000 <= x <= 0x200A
    || x == 0x2028 || x == 0x2029 || x == 0x202F || x == 0x205F || x == 0x3000
  }

  predicate Trimmed(s: string) {
    s == "" || (!Space(s[0]) && !Space(s[|s| - 1]))
  }

  function StripLeft(s: string): (r: string)
    ensures r == "" || !Space(r[0])
    ensures |r| <= |s| && r == s[|s| - |r|..]
  {
    if s != "" && Space(s[0]) then StripLeft(s[1..]) else s
  }

  function StripRight(s: string): (r: string)
    ensures r == "" || !Space(r[|r| - 1])
    ensures r <= s
  {
    if s != "" && Space(s[|s| - 1]) then StripRight(s[..|s| - 1]) else s
  }

  function Strip(s: string): string {
    StripRight(StripLeft(s))
  }

  lemma StripTrims(s: string)
    ensures Trimmed(Strip(s)) && (Trimmed(s) ==> Strip(s) == s)
  {
  }

  /** How far an expression goes, with `depth` braces open: up to the brace that closes the first, or to the end. */
  function ExprLength(s: string, depth: nat): (n: nat)
    ensures n <= |s|
    decreases |s|
  {
    if s == "" then 0
    else if s[0] == '{' then 1 + ExprLength(s[1..], depth + 1)
    else if s[0] != '}' then 1 + ExprLength(s[1..], depth)
    else if depth <= 1 then 0
    else 1 + ExprLength(s[1..], depth - 1)
  }

  function Flush(buf: string): seq<Part> {
    if buf == "" then [] else [Text(buf)]
  }

  /** What is behind an expression and the brace that closes it. */
  function BehindExpr(s: string): (r: string)
    ensures |r| <= |s|
  {
    var n := ExprLength(s, 1);
    if n == |s| then "" else s[n + 1..]
  }

  predicate Opens(s: string) {
    |s| > 1 && s[0] == '{' && s[1] != '{'
  }

  predicate Doubled(s: string) {
    |s| > 1 && s[0] == s[1] && (s[0] == '{' || s[0] == '}')
  }

  /** The parts of `s` behind the text `buf`. */
  function Split(s: string, buf: string): seq<Part>
    decreases |s|
  {
    if s == "" then Flush(buf)
    else if Opens(s) then
      Flush(buf) + [Expr(Strip(s[1..][..ExprLength(s[1..], 1)]))] + Split(BehindExpr(s[1..]), "")
    else if Doubled(s) then Split(s[2..], buf + [s[0]])
    else Split(s[1..], buf + [s[0]])
  }

  /** The loops of the source, for every string. */
  method ParseFString(s: string) returns (parts: seq<Part>)
    ensures parts == Split(s, "")
  {
    hide Strip, Split, ExprLength, BehindExpr;
    parts := [];
    var buf := "";
    var i: nat := 0;
    assert s[0..] == s;
    while i < |s|
      invariant i <= |s| && parts + Split(s[i..], buf) == Split(s, "")
      decreases |s| - i
    {
      SplitStep(s[i..], buf);
      Suffixes(s, i);
      if s[i] == '{' && i + 1 < |s| && s[i + 1] != '{' {
        assert Opens(s[i..]);
        if buf != "" {
          parts := parts + [Text(buf)];
          buf := "";
        }
        var expr, j := ReadExpr(s, i + 1);
        parts := parts + [Expr(Strip(expr))];
        i := if j < |s| then j + 1 else j;
      } else if s[i] == '{' && i + 1 < |s| && s[i + 1] == '{' {
        buf := buf + "{";
        i := i + 2;
      } else if s[i] == '}' && i + 1 < |s| && s[i + 1] == '}' {
        buf := buf + "}";
        i := i + 2;
      } else {
        buf := buf + [s[i]];
        i := i + 1;
      }
    }
    assert s[i..] == "";
    SplitStep("", buf);
    if buf != "" {
      parts := parts + [Text(buf)];
    }
  }

  /** The expression from `start` on, and where it ends. */
  method ReadExpr(s: string, start: nat) returns (expr: string, i: nat)
    requires start <= |s|
    ensures start <= i <= |s| && expr == s[start..][..ExprLength(s[start..], 1)]
    ensures BehindExpr(s[start..]) == if i < |s| then s[i + 1..] else s[i..]
  {
    expr, i := "", start;
    var depth: nat := 1;
    while i < |s| && depth > 0
      invariant start <= i <= |s| && expr == s[start..i] && depth > 0
      invariant i - start + ExprLength(s[i..], depth) == ExprLength(s[start..], 1)
      decreases |s| - i
    {
      Suffixes(s, i);
      if s[i] == '{' {
        depth := depth + 1;
      } else if s[i] == '}' {
        if depth == 1 {
          break;
        }
        depth := depth - 1;
      }
      expr := expr + [s[i]];
      i := i + 1;
    }
    ExprStops(s, start, i, depth);
  }

  lemma SplitStep(s: string, buf: string)
    ensures Split(s, buf) ==
      if s == "" then Flush(buf)
      else if Opens(s) then
        Flush(buf) + [Expr(Strip(s[1..][..ExprLength(s[1..], 1)]))] + Split(BehindExpr(s[1..]), "")
      else if Doubled(s) then Split(s[2..], buf + [s[0]])
      else Split(s[1..], buf + [s[0]])
  {
  }

  lemma Suffixes(s: string, i: nat)
    requires i < |s|
    ensures s[i..][0] == s[i] && s[i..][1..] == s[i + 1..]
    ensures i + 1 < |s| ==> s[i..][1] == s[i + 1] && s[i..][2..] == s[i + 2..]
  {
  }

  /** Where the inner loop stops. */
  lemma ExprStops(s: string, start: nat, i: nat, depth: nat)
    requires start <= i <= |s| && i - start + ExprLength(s[i..], depth) == ExprLength(s[start..], 1)
    requires i == |s| || (s[i] == '}' && depth == 1)
    ensures ExprLength(s[start..], 1) == i - start && s[start..][..i - start] == s[start..i]
    ensures BehindExpr(s[start..]) == if i < |s| then s[i + 1..] else s[i..]
  {
    if i < |s| {
      Suffixes(s, i);
    }
  }

  // ----- printing -----

  function Escape(s: string): string {
    if s == "" then ""
    else if s[0] == '{' then "{{" + Escape(s[1..])
    else if s[0] == '}' then "}}" + Escape(s[1..])
    else [s[0]] + Escape(s[1..])
  }

  function PrintPart(p: Part): string {
    match p
    case Text(s) => Escape(s)
    case Expr(e) => "{" + e + "}"
  }

  function Print(ps: seq<Part>): string {
    if ps == [] then "" else PrintPart(ps[0]) + Print(ps[1..])
  }

  /** The braces of `s`, inside `depth` open ones, close each other. */
  predicate Balanced(s: string, depth: nat)
    decreases |s|
  {
    if s == "" then depth == 0
    else if s[0] == '{' then Balanced(s[1..], depth + 1)
    else if s[0] != '}' then Balanced(s[1..], depth)
    else depth > 0 && Balanced(s[1..], depth - 1)
  }

  predicate GoodExpr(e: string) {
    Trimmed(e) && (e == "" || e[0] != '{') && Balanced(e, 0)
  }

  /** No empty text, no two texts in a row, and expressions that can be told from the rest. */
  predicate Good(ps: seq<Part>) {
    && (forall p <- ps :: if p.Text? then p.text != "" else GoodExpr(p.expr))
    && (forall i | 0 < i < |ps| :: !(ps[i - 1].Text? && ps[i].Text?))
  }

  lemma {:induction false} ExprEnds(e: string, depth: nat, rest: string)
    requires Balanced(e, depth)
    ensures ExprLength(e + "}" + rest, depth + 1) == |e|
    decreases |e|
  {
    if e != "" {
      assert (e + "}" + rest)[1..] == e[1..] + "}" + rest;
      ExprEnds(e[1..], if e[0] == '{' then depth + 1 else if e[0] == '}' then depth - 1 else depth, rest);
    }
  }

  lemma EscapeStep(t: string)
    requires t != ""
    ensures Escape(t) == (if t[0] == '{' || t[0] == '}' then [t[0], t[0]] else [t[0]]) + Escape(t[1..])
  {
  }

  /** One printed character of a text. */
  lemma CharGoes(c: char, rest: string, buf: string)
    ensures Split((if c == '{' || c == '}' then [c, c] else [c]) + rest, buf) == Split(rest, buf + [c])
  {
    hide Strip, ExprLength, BehindExpr, Split;
    var s := (if c == '{' || c == '}' then [c, c] else [c]) + rest;
    SplitStep(s, buf);
    if c == '{' || c == '}' {
      assert s[2..] == rest;
    } else {
      assert s[1..] == rest;
    }
  }

  /** A printed text goes to the buffer, whatever follows. */
  lemma {:induction false} TextGoes(t: string, rest: string, buf: string)
    ensures Split(Escape(t) + rest, buf) == Split(rest, buf + t)
    decreases |t|
  {
    hide Split, Escape;
    if t == "" {
      EscapeNone();
      assert Escape(t) + rest == rest && buf + t == buf;
    } else {
      EscapeStep(t);
      var c := if t[0] == '{' || t[0] == '}' then [t[0], t[0]] else [t[0]];
      assert Escape(t) + rest == c + (Escape(t[1..]) + rest);
      CharGoes(t[0], Escape(t[1..]) + rest, buf);
      TextGoes(t[1..], rest, buf + [t[0]]);
      assert (buf + [t[0]]) + t[1..] == buf + t;
    }
  }

  lemma EscapeNone()
    ensures Escape("") == ""
  {
  }

  /** An expression is opened unless it starts with a brace itself. */
  lemma ExprOpens(e: string, rest: string, buf: string)
    requires e == "" || e[0] != '{'
    ensures var t := e + "}" + rest;
      Split("{" + e + "}" + rest, buf) == Flush(buf) + [Expr(Strip(t[..ExprLength(t, 1)]))] + Split(BehindExpr(t), "")
  {
    hide Strip, Flush, ExprLength, Split, BehindExpr;
    var s, t := "{" + e + "}" + rest, e + "}" + rest;
    assert s[1..] == t;
    assert s[1] == if e == "" then '}' else e[0];
    SplitStep(s, buf);
  }

  lemma ExprGoes(e: string, rest: string, buf: string)
    requires GoodExpr(e)
    ensures Split("{" + e + "}" + rest, buf) == Flush(buf) + [Expr(e)] + Split(rest, "")
  {
    hide Strip, Flush, Trimmed, Balanced, ExprLength, Split;
    ExprOpens(e, rest, buf);
    ExprEnds(e, 0, rest);
    StripTrims(e);
    Cut(e, rest);
  }

  lemma Cut(e: string, rest: string)
    ensures (e + "}" + rest)[..|e|] == e && (e + "}" + rest)[|e| + 1..] == rest
  {
  }

  lemma PrintStep(ps: seq<Part>)
    requires ps != []
    ensures ps[0].Text? ==> Print(ps) == Escape(ps[0].text) + Print(ps[1..])
    ensures ps[0].Expr? ==> Print(ps) == "{" + ps[0].expr + "}" + Print(ps[1..])
    ensures ps == [ps[0]] + ps[1..]
  {
    hide Escape;
    assert Print(ps) == PrintPart(ps[0]) + Print(ps[1..]);
    hide Print;
  }

  lemma PrintNone()
    ensures Print([]) == "" && forall buf :: Split("", buf) == Flush(buf) && Flush(buf) + [] == Flush(buf)
  {
  }

  lemma FlushIs(buf: string, ps: seq<Part>)
    ensures Flush(buf) + ps == (if buf == "" then ps else [Text(buf)] + ps)
  {
  }

  /** Splitting what was printed gives the parts back. */
  lemma {:induction false} SplitPrint(ps: seq<Part>, buf: string)
    requires Good(ps) && (buf != "" && ps != [] ==> ps[0].Expr?)
    ensures Split(Print(ps), buf) == Flush(buf) + ps
    decreases |ps|
  {
    hide *;
    PrintNone();
    if ps != [] {
      var rest := Print(ps[1..]);
      PrintStep(ps);
      GoodRest(ps);
      match ps[0]
      case Text(t) =>
        TextGoes(t, rest, "");
        assert "" + t == t;
        SplitPrint(ps[1..], t);
        FlushIs(t, ps[1..]);
        FlushIs(buf, ps);
      case Expr(e) =>
        ExprGoes(e, rest, buf);
        SplitPrint(ps[1..], "");
        FlushIs("", ps[1..]);
        assert Flush(buf) + [Expr(e)] + ps[1..] == Flush(buf) + ([Expr(e)] + ps[1..]);
    }
  }

  lemma GoodRest(ps: seq<Part>)
    requires Good(ps) && ps != []
    ensures Good(ps[1..]) && (ps[0].Text? && |ps| > 1 ==> ps[1].Expr?)
    ensures if ps[0].Text? then ps[0].text != "" else GoodExpr(ps[0].expr)
  {
    hide GoodExpr;
    assert ps[0] in ps;
  }

  lemma RoundTrip(ps: seq<Part>)
    requires Good(ps)
    ensures Split(Print(ps), "") == ps
  {
    hide Split, Print, Good;
    SplitPrint(ps, "");
  }

  /** What splitting gives, for every string: texts are neither empty nor next to each other, expressions are
      trimmed. */
  ghost predicate Shape(ps: seq<Part>) {
    && (forall p <- ps :: if p.Text? then p.text != "" else Trimmed(p.expr))
    && (forall i | 0 < i < |ps| :: !(ps[i - 1].Text? && ps[i].Text?))
  }

  lemma {:induction false} SplitShape(s: string, buf: string)
    ensures Shape(Split(s, buf))
    ensures buf != "" ==> Split(s, buf) != [] && Split(s, buf)[0].Text? && |Split(s, buf)[0].text| >= |buf|
    decreases |s|
  {
    hide Strip, ExprLength, Trimmed;
    if s != "" {
      if Opens(s) {
        var e := s[1..][..ExprLength(s[1..], 1)];
        SplitShape(BehindExpr(s[1..]), "");
        StripTrims(e);
      } else if Doubled(s) {
        SplitShape(s[2..], buf + [s[0]]);
      } else {
        SplitShape(s[1..], buf + [s[0]]);
      }
    }
  }

  // ----- what it takes to get the parts back -----

  lemma {:induction false} EndsBalanced(e: string, depth: nat, rest: string)
    requires ExprLength(e + "}" + rest, depth + 1) == |e|
    ensures Balanced(e, depth)
    decreases |e|
  {
    var t := e + "}" + rest;
    if e == "" {
      assert t[0] == '}';
    } else {
      assert t[1..] == e[1..] + "}" + rest;
      EndsBalanced(e[1..], if e[0] == '{' then depth + 1 else if e[0] == '}' then depth - 1 else depth, rest);
    }
  }

  lemma {:induction false} StripKeeps(s: string, k: nat)
    requires k < |s| && !Space(s[k])
    ensures |StripRight(s)| > k
    decreases |s|
  {
    if Space(s[|s| - 1]) {
      StripKeeps(s[..|s| - 1], k);
    }
  }

  lemma {:induction false} StripShorter(s: string)
    ensures |Strip(s)| <= |s|
  {
  }

  /** An expression that went on too far is not stripped back. */
  lemma TooFar(e: string, x: string)
    requires Trimmed(e) && e != "" && |e| < |x| && x[..|e|] == e && x[|e|] == '}'
    ensures Strip(x) != e
  {
    hide StripLeft, StripRight, Space;
    assert x[0] == e[0];
    LeftStays(x);
    BraceStays();
    StripKeeps(x, |e|);
  }

  /** An expression comes back only if its braces close each other. */
  lemma ExprTells(e: string, rest: string)
    requires Trimmed(e)
    requires var t := e + "}" + rest; Strip(t[..ExprLength(t, 1)]) == e
    ensures Balanced(e, 0)
  {
    hide Strip, ExprLength, Balanced, Trimmed;
    var t := e + "}" + rest;
    var n := ExprLength(t, 1);
    StripShorter(t[..n]);
    if n > |e| {
      EmptyStops(e, rest);
      var x := t[..n];
      assert x[..|e|] == e;
      assert x[|e|] == '}';
      TooFar(e, x);
    } else {
      EndsBalanced(e, 0, rest);
    }
  }

  lemma EmptyStops(e: string, rest: string)
    ensures e == "" ==> ExprLength(e + "}" + rest, 1) == 0
  {
  }

  lemma LeftStays(s: string)
    requires s != "" && !Space(s[0])
    ensures StripLeft(s) == s
  {
  }

  lemma BraceStays()
    ensures !Space('}')
  {
  }

  /** An expression that starts with a brace is taken for text. */
  lemma BraceDoubles(e: string, rest: string, buf: string, more: seq<Part>)
    requires e != "" && e[0] == '{'
    ensures Split("{" + e + "}" + rest, buf) != Flush(buf) + [Expr(e)] + more
  {
    hide Split;
    var s := "{" + e + "}" + rest;
    assert s[1] == e[0];
    SplitStep(s, buf);
    SplitShape(s[2..], buf + ['{']);
    if buf != "" {
      assert (Flush(buf) + [Expr(e)] + more)[0] == Text(buf);
    } else {
      assert (Flush(buf) + [Expr(e)] + more)[0] == Expr(e);
    }
  }

  lemma {:induction false} Needed(ps: seq<Part>, buf: string)
    requires Shape(ps) && (buf != "" && ps != [] ==> ps[0].Expr?)
    requires Split(Print(ps), buf) == Flush(buf) + ps
    ensures Good(ps)
    decreases |ps|
  {
    hide *;
    GoodMore(ps);
    if ps != [] {
      var rest := Print(ps[1..]);
      PrintStep(ps);
      ShapeRest(ps);
      match ps[0]
      case Text(t) =>
        TextGoes(t, rest, "");
        assert "" + t == t;
        FlushIs(buf, ps);
        FlushIs(t, ps[1..]);
        Needed(ps[1..], t);
      case Expr(e) =>
        assert Flush(buf) + ps == Flush(buf) + [Expr(e)] + ps[1..];
        if e != "" && e[0] == '{' {
          BraceDoubles(e, rest, buf, ps[1..]);
        } else {
          ExprNeeded(e, rest, buf, ps[1..]);
          FlushIs("", ps[1..]);
          Needed(ps[1..], "");
        }
    }
  }

  lemma GoodMore(ps: seq<Part>)
    requires Shape(ps)
    ensures ps == [] ==> Good(ps)
    ensures ps != [] && ps[0].Text? && Good(ps[1..]) ==> Good(ps)
    ensures ps != [] && ps[0].Expr? && Balanced(ps[0].expr, 0) && (ps[0].expr == "" || ps[0].expr[0] != '{')
      ==> Good(ps[1..]) ==> Good(ps)
  {
    hide Balanced, Trimmed;
    if ps != [] && Good(ps[1..]) {
      assert ps[0] in ps;
      forall p | p in ps[1..]
        ensures if p.Text? then p.text != "" else GoodExpr(p.expr)
      {
      }
      assert forall p <- ps :: p == ps[0] || p in ps[1..];
    }
  }

  lemma ShapeRest(ps: seq<Part>)
    requires Shape(ps) && ps != []
    ensures Shape(ps[1..]) && (ps[0].Text? && |ps| > 1 ==> ps[1].Expr?)
    ensures if ps[0].Text? then ps[0].text != "" else Trimmed(ps[0].expr)
  {
    hide Trimmed;
    assert ps[0] in ps;
  }

  lemma ExprNeeded(e: string, rest: string, buf: string, more: seq<Part>)
    requires Trimmed(e) && (e == "" || e[0] != '{')
    requires Split("{" + e + "}" + rest, buf) == Flush(buf) + [Expr(e)] + more
    ensures Balanced(e, 0) && Split(rest, "") == more
  {
    hide Split, Trimmed, Balanced, Strip, ExprLength, Flush, BehindExpr;
    var t := e + "}" + rest;
    ExprOpens(e, rest, buf);
    var a, x := Flush(buf), Strip(t[..ExprLength(t, 1)]);
    SameParts(a, x, Split(BehindExpr(t), ""), e, more);
    ExprTells(e, rest);
    ExprEnds(e, 0, rest);
    BehindIs(e, rest);
  }

  lemma BehindIs(e: string, rest: string)
    requires ExprLength(e + "}" + rest, 1) == |e|
    ensures BehindExpr(e + "}" + rest) == rest
  {
    Cut(e, rest);
  }

  lemma SameParts(a: seq<Part>, x: string, b: seq<Part>, y: string, c: seq<Part>)
    requires a + [Expr(x)] + b == a + [Expr(y)] + c
    ensures x == y && b == c
  {
    assert (a + [Expr(x)] + b)[|a|] == Expr(x) && (a + [Expr(y)] + c)[|a|] == Expr(y);
    assert (a + [Expr(x)] + b)[|a| + 1..] == b && (a + [Expr(y)] + c)[|a| + 1..] == c;
  }

  /** The printed parts are split into the same parts if they are good ones, and only then. */
  lemma RoundTripIff(ps: seq<Part>)
    ensures Split(Print(ps), "") == ps <==> Good(ps)
  {
    hide Split, Print, Good, Shape;
    if Good(ps) {
      RoundTrip(ps);
    }
    if Split(Print(ps), "") == ps {
      SplitShape(Print(ps), "");
      assert Flush("") + ps == ps;
      Needed(ps, "");
    }
  }
}
