/** How any f-string is cut, malformed ones included: in one way only. */
module FStringPieces {
  import opened FString

  /** A character that stands for itself, a brace written twice, or an expression in braces, the last of which may be
      missing. */
  datatype Item = One(c: char) | Two(c: char) | Field(expr: string, closed: bool)

  function Written(i: Item): string {
    match i
    case One(c) => [c]
    case Two(c) => [c, c]
    case Field(e, closed) => "{" + e + (if closed then "}" else "")
  }

  function AllWritten(items: seq<Item>): string {
    if items == [] then "" else Written(items[0]) + AllWritten(items[1..])
  }

  /** Opening braces less closing ones. */
  function Net(s: string): int {
    if s == "" then 0
    else Net(s[..|s| - 1]) + if s[|s| - 1] == '{' then 1 else if s[|s| - 1] == '}' then -1 else 0
  }

  /** An item before the text `rest`. A brace stands for itself only if it is not written twice, and an opening one only
      at the end. An expression goes up to the brace that closes it, or to the end. */
  predicate Before(i: Item, rest: string) {
    match i
    case One(c) => (c == '{' ==> rest == "") && (c == '}' && rest != "" ==> rest[0] != '}')
    case Two(c) => c == '{' || c == '}'
    case Field(e, closed) =>
      && (forall k | 0 <= k <= |e| :: Net(e[..k]) >= 0) && (e != "" ==> e[0] != '{')
      && (if closed then Net(e) == 0 else e != "" && rest == "")
  }

  predicate Cut(items: seq<Item>) {
    items == [] || (Before(items[0], AllWritten(items[1..])) && Cut(items[1..]))
  }

  /** The parts: texts as long as they get, and the expressions without the spaces around them. */
  function Parts(items: seq<Item>, buf: string): seq<Part> {
    if items == [] then Flush(buf)
    else if items[0].Field? then Flush(buf) + [Expr(Strip(items[0].expr))] + Parts(items[1..], "")
    else Parts(items[1..], buf + [items[0].c])
  }

  lemma {:induction false} NetFirst(c: char, s: string)
    ensures Net([c] + s) == Net(s) + if c == '{' then 1 else if c == '}' then -1 else 0
    decreases |s|
  {
    var t := [c] + s;
    if s == "" {
      assert t == [c] && [c][..0] == "";
    } else {
      assert t[..|t| - 1] == [c] + s[..|s| - 1] && t[|t| - 1] == s[|s| - 1];
      NetFirst(c, s[..|s| - 1]);
    }
  }

  /** The scan for the closing brace, with `depth` braces open, stops where more are closed than opened. */
  lemma {:induction false} ExprEnds(e: string, rest: string, depth: nat)
    requires depth > 0 && forall k | 0 <= k <= |e| :: depth + Net(e[..k]) > 0
    requires rest == "" || (rest[0] == '}' && depth + Net(e) == 1)
    ensures ExprLength(e + rest, depth) == |e|
    decreases |e|
  {
    hide Net;
    if e == "" {
      assert e + rest == rest;
      NetNone();
    } else {
      var c := e[0];
      assert (e + rest)[1..] == e[1..] + rest && (e + rest)[0] == c;
      assert e == [c] + e[1..];
      NetFirst(c, e[1..]);
      var d: int := if c == '{' then depth + 1 else if c == '}' then depth - 1 else depth;
      forall k | 0 <= k <= |e[1..]|
        ensures d + Net(e[1..][..k]) > 0
      {
        assert e[..k + 1] == [c] + e[1..][..k];
        NetFirst(c, e[1..][..k]);
        assert depth + Net(e[..k + 1]) > 0;
      }
      assert d + Net(e[1..][..0]) > 0 && e[1..][..0] == "";
      NetNone();
      ExprEnds(e[1..], rest, d);
    }
  }

  lemma NetNone()
    ensures Net("") == 0
  {
  }

  lemma ClosedReads(e: string, rest: string)
    requires Before(Field(e, true), rest)
    ensures var t := e + ("}" + rest); t[..ExprLength(t, 1)] == e && BehindExpr(t) == rest
  {
    ExprEnds(e, "}" + rest, 1);
    hide Net, ExprLength;
    var t := e + ("}" + rest);
    assert t[..|e|] == e && t[|e| + 1..] == rest;
  }

  lemma OpenReads(e: string, rest: string)
    requires Before(Field(e, false), rest)
    ensures e[..ExprLength(e, 1)] == e && BehindExpr(e) == rest
  {
    ExprEnds(e, "", 1);
    hide Net, ExprLength;
    assert e + "" == e;
  }

  lemma FieldSplits(e: string, closed: bool, rest: string, buf: string)
    requires Before(Field(e, closed), rest)
    ensures Split(Written(Field(e, closed)) + rest, buf) == Flush(buf) + [Expr(Strip(e))] + Split(rest, "")
  {
    hide Net, Split, Strip, ExprLength, BehindExpr, Flush;
    var t := if closed then e + ("}" + rest) else e;
    var s := Written(Field(e, closed)) + rest;
    assert s == ['{'] + t && s[1..] == t;
    if closed {
      ClosedReads(e, rest);
    } else {
      OpenReads(e, rest);
    }
    assert t[0] == if e != "" then e[0] else '}';
    assert Opens(s);
    OpenSplits(s, buf);
  }

  lemma OpenSplits(s: string, buf: string)
    requires Opens(s)
    ensures Split(s, buf)
      == Flush(buf) + [Expr(Strip(s[1..][..ExprLength(s[1..], 1)]))] + Split(BehindExpr(s[1..]), "")
  {
    hide Strip, ExprLength, BehindExpr, Flush;
  }

  lemma CharSplits(i: Item, rest: string, buf: string)
    requires !i.Field? && Before(i, rest)
    ensures Split(Written(i) + rest, buf) == Split(rest, buf + [i.c])
  {
    hide Strip, ExprLength, BehindExpr, Flush;
    var s := Written(i) + rest;
    if i.Two? {
      assert s[2..] == rest;
    } else {
      assert s[1..] == rest && !Opens(s) && !Doubled(s);
    }
  }

  lemma NothingSplits(buf: string)
    ensures Split("", buf) == Flush(buf)
  {
  }

  /** A text that is cut so has these parts. */
  lemma {:induction false} CutSplits(items: seq<Item>, buf: string)
    requires Cut(items)
    ensures Split(AllWritten(items), buf) == Parts(items, buf)
    decreases |items|
  {
    hide Split, Before, Written, Flush, Strip;
    if items == [] {
      NothingSplits(buf);
    } else if items[0].Field? {
      FieldSplits(items[0].expr, items[0].closed, AllWritten(items[1..]), buf);
      CutSplits(items[1..], "");
    } else {
      CharSplits(items[0], AllWritten(items[1..]), buf);
      CutSplits(items[1..], buf + [items[0].c]);
    }
  }

  // ----- every text is cut so -----

  lemma CutMore(i: Item, items: seq<Item>)
    requires Before(i, AllWritten(items)) && Cut(items)
    ensures Cut([i] + items) && AllWritten([i] + items) == Written(i) + AllWritten(items)
  {
    hide Before, Written;
    assert ([i] + items)[1..] == items;
  }

  lemma {:induction false} ExprWithin(s: string, depth: nat)
    requires depth > 0
    ensures var n := ExprLength(s, depth);
      && (forall k | 0 <= k <= n :: depth + Net(s[..k]) > 0)
      && (n < |s| ==> s[n] == '}' && depth + Net(s[..n]) == 1)
    decreases |s|
  {
    hide Net;
    var n := ExprLength(s, depth);
    NetNone();
    assert s[..0] == "";
    if n > 0 {
      var c := s[0];
      var d: nat := if c == '{' then depth + 1 else if c == '}' then depth - 1 else depth;
      assert ExprLength(s, depth) == 1 + ExprLength(s[1..], d) && d > 0;
      ExprWithin(s[1..], d);
      forall k | 0 < k <= n
        ensures Net(s[..k]) == d - depth + Net(s[1..][..k - 1])
      {
        assert s[..k] == [c] + s[1..][..k - 1];
        NetFirst(c, s[1..][..k - 1]);
      }
    }
  }

  lemma FieldCut(s: string) returns (i: Item, rest: string)
    requires Opens(s)
    ensures i.Field? && Before(i, rest) && Written(i) + rest == s && |rest| < |s|
  {
    var t := s[1..];
    var n := ExprLength(t, 1);
    ExprWithin(t, 1);
    var e := t[..n];
    i, rest := Field(e, n < |t|), if n < |t| then t[n + 1..] else "";
    forall k | 0 <= k <= |e|
      ensures Net(e[..k]) >= 0
    {
      assert e[..k] == t[..k];
    }
    hide Net;
    assert n < |t| ==> t == e + "}" + rest;
    assert n == |t| ==> t == e;
    assert s == "{" + t;
  }

  lemma {:induction false} Cuts(s: string) returns (items: seq<Item>)
    ensures Cut(items) && AllWritten(items) == s
    decreases |s|
  {
    hide Cut, AllWritten, ExprLength, Net;
    if s == "" {
      items := [];
      NoItems();
    } else if Opens(s) {
      var i, rest := FieldCut(s);
      items := Cuts(rest);
      CutMore(i, items);
      items := [i] + items;
    } else {
      var i, n := One(s[0]), 1;
      if Doubled(s) {
        i, n := Two(s[0]), 2;
      }
      items := Cuts(s[n..]);
      assert Before(i, s[n..]) && Written(i) + s[n..] == s;
      CutMore(i, items);
      items := [i] + items;
    }
  }

  lemma NoItems()
    ensures Cut([]) && AllWritten([]) == ""
  {
  }

  /** For every string: it can be cut so, and however it is cut so, splitting gives the parts of the pieces. */
  lemma SplitIs(s: string)
    ensures exists items :: Cut(items) && AllWritten(items) == s
    ensures forall items | Cut(items) && AllWritten(items) == s :: Split(s, "") == Parts(items, "")
  {
    hide *;
    var found := Cuts(s);
    forall items | Cut(items) && AllWritten(items) == s
      ensures Split(s, "") == Parts(items, "")
    {
      CutSplits(items, "");
    }
  }
}
