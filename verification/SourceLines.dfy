/** `tokenize` from the source text on: triple-quoted literals are collapsed, the text is split into lines, and the
    lines go through the indentation machine. */
module SourceLines {
  import opened Syntax
  import opened Layout
  import opened TripleQuotes

  /** The characters that end a line for `splitlines`; a carriage return and a line feed after it are one end. */
  predicate IsBreak(c: char) {
    var n := c as int;
    (10 <= n <= 13) || (28 <= n <= 30) || n in {0x85, 0x2028, 0x2029}
  }

  /** How far the first line goes. */
  function LineLength(s: string): (n: nat)
    ensures n <= |s|
  {
    if s == "" || IsBreak(s[0]) then 0 else 1 + LineLength(s[1..])
  }

  /** The length of the line end a text starts with. */
  function BreakLength(s: string): (n: nat)
    ensures n <= |s|
  {
    if s == "" then 0 else if s[0] == '\r' && |s| > 1 && s[1] == '\n' then 2 else 1
  }

  function Behind(s: string): (r: string)
    ensures s != "" ==> |r| < |s|
  {
    var n := LineLength(s);
    s[n..][BreakLength(s[n..])..]
  }

  /** `splitlines`: a line end at the end of the text starts no further line. */
  function SplitLines(s: string): (lines: seq<string>)
    decreases |s|
  {
    if s == "" then [] else [s[..LineLength(s)]] + SplitLines(Behind(s))
  }

  function SourceStream(scan: Scanner, source: string): seq<Stamped> {
    TokenStream(scan, SplitLines(Collapsed(source)))
  }

  /** `tokenize`. */
  method Tokenize(scan: Scanner, source: string) returns (tokens: seq<Stamped>)
    ensures tokens == SourceStream(scan, source)
  {
    var text := Collapse(source);
    tokens := Layout.Tokenize(scan, SplitLines(text));
  }

  // ----- lines and their ends -----

  predicate NoBreak(s: string) {
    forall i | 0 <= i < |s| :: !IsBreak(s[i])
  }

  lemma {:induction false} LineEnds(s: string, rest: string)
    requires NoBreak(s) && (rest == "" || IsBreak(rest[0]))
    ensures LineLength(s + rest) == |s|
    decreases |s|
  {
    hide IsBreak;
    if s == "" {
      assert s + rest == rest;
    } else {
      assert (s + rest)[1..] == s[1..] + rest;
      LineEnds(s[1..], rest);
    }
  }

  lemma {:induction false} LineWhole(s: string)
    ensures NoBreak(s[..LineLength(s)])
    decreases |s|
  {
    hide IsBreak;
    if s != "" && !IsBreak(s[0]) {
      LineWhole(s[1..]);
      assert s[..LineLength(s)] == [s[0]] + s[1..][..LineLength(s[1..])];
    }
  }

  /** No line holds a line end. */
  lemma {:induction false} LinesWhole(s: string)
    ensures forall l <- SplitLines(s) :: NoBreak(l)
    decreases |s|
  {
    hide NoBreak, LineLength, Behind;
    if s != "" {
      LineWhole(s);
      LinesWhole(Behind(s));
    }
  }

  /** The line ends. */
  predicate IsEnd(e: string) {
    e == "\r\n" || (|e| == 1 && e[0] in "\n\r\U{B}\U{C}\U{1C}\U{1D}\U{1E}\U{85}\U{2028}\U{2029}")
  }

  /** The characters that end a line are the ones that are a line end alone. */
  lemma BreakIs(c: char)
    ensures IsBreak(c) <==> IsEnd([c])
  {
  }

  /** Lines with the line ends behind them: the last may have none, unless it is empty, and no carriage return comes to
      stand before a line feed that is not its own. */
  predicate Ended(lines: seq<string>, ends: seq<string>) {
    && |lines| == |ends| && (forall l <- lines :: NoBreak(l))
    && (forall i | 0 <= i < |ends| :: IsEnd(ends[i]) || (i == |ends| - 1 && ends[i] == "" && lines[i] != ""))
    && (forall i | 0 <= i < |ends| - 1 :: !(ends[i] == "\r" && lines[i + 1] == "" && ends[i + 1] == "\n"))
  }

  function Joined(lines: seq<string>, ends: seq<string>): string
    requires |lines| == |ends|
  {
    if lines == [] then "" else lines[0] + (ends[0] + Joined(lines[1..], ends[1..]))
  }

  lemma EndIs(e: string, more: string)
    requires IsEnd(e) && !(e == "\r" && more != "" && more[0] == '\n')
    ensures IsBreak((e + more)[0]) && BreakLength(e + more) == |e|
  {
  }

  /** Where the text behind a carriage return may start. */
  lemma NextStarts(lines: seq<string>, ends: seq<string>)
    requires Ended(lines, ends) && lines != []
    ensures Ended(lines[1..], ends[1..])
    ensures var more := Joined(lines[1..], ends[1..]); !(ends[0] == "\r" && more != "" && more[0] == '\n')
  {
    if |lines| > 1 {
      var l, e := lines[1], ends[1];
      assert lines[1..][0] == l && ends[1..][0] == e;
      assert NoBreak(l);
      assert forall i | 0 <= i < |ends[1..]| - 1 :: ends[1..][i] == ends[i + 1] && lines[1..][i + 1] == lines[i + 2];
      if ends[0] == "\r" && l == "" {
        assert IsEnd(e) && e != "\n";
      }
    }
  }

  /** Any lines are the lines of the text they make with any line ends. */
  lemma {:induction false} SplitJoined(lines: seq<string>, ends: seq<string>)
    requires Ended(lines, ends)
    ensures SplitLines(Joined(lines, ends)) == lines
    decreases |lines|
  {
    hide IsEnd, NoBreak, Ended, SplitLines;
    EndedFirst(lines, ends);
    if lines == [] {
      SplitNone();
    } else {
      var more := Joined(lines[1..], ends[1..]);
      NextStarts(lines, ends);
      SplitJoined(lines[1..], ends[1..]);
      if ends[0] == "" {
        assert lines[1..] == [] && lines[0] + ("" + more) == lines[0];
        LineEnds(lines[0], "");
        assert lines[0] + "" == lines[0];
        SplitAll(lines[0]);
      } else {
        FirstSplit(lines[0], ends[0], more);
      }
      assert lines == [lines[0]] + lines[1..];
    }
  }

  lemma SplitNone()
    ensures SplitLines("") == []
  {
  }

  lemma FirstSplit(l: string, e: string, more: string)
    requires NoBreak(l) && IsEnd(e) && !(e == "\r" && more != "" && more[0] == '\n')
    ensures SplitLines(l + (e + more)) == [l] + SplitLines(more)
  {
    EndIs(e, more);
    LineEnds(l, e + more);
    hide IsEnd, NoBreak, LineLength, BreakLength;
    var s := l + (e + more);
    assert s[..|l|] == l && s[|l|..] == e + more;
    assert (e + more)[|e|..] == more;
  }

  lemma EndedFirst(lines: seq<string>, ends: seq<string>)
    requires Ended(lines, ends)
    ensures |lines| == |ends|
    ensures lines != [] ==> NoBreak(lines[0])
    ensures lines != [] && ends[0] != "" ==> IsEnd(ends[0])
    ensures lines != [] && ends[0] == "" ==> |lines| == 1 && lines[0] != ""
  {
  }

  /** A text that is one line. */
  lemma SplitAll(s: string)
    requires s != "" && LineLength(s) == |s|
    ensures SplitLines(s) == [s]
  {
    assert s[..|s|] == s && s[|s|..] == "";
  }
}
