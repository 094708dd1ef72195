/** The two printers of string data for an assembler, and the assembler's reading of what they print. */
module Encoders {
  import opened Wrappers

  type Codes = seq<int>

  function CodesOf(s: string): (r: Codes)
    ensures |r| == |s|
  {
    seq(|s|, i requires 0 <= i < |s| => s[i] as int)
  }

  predicate Plain(c: char) {
    32 <= c as int <= 126 && c != '"'
  }

  predicate AllPlain(s: string) {
    forall i | 0 <= i < |s| :: Plain(s[i])
  }

  // ----- decimal numbers -----

  function Digit(d: int): char
    requires 0 <= d < 10
  {
    (d + '0' as int) as char
  }

  predicate IsDigit(c: char) {
    '0' <= c <= '9'
  }

  function Decimal(n: nat): (r: string)
    ensures r != "" && forall i | 0 <= i < |r| :: IsDigit(r[i])
  {
    if n < 10 then [Digit(n)] else Decimal(n / 10) + [Digit(n % 10)]
  }

  function DigitValue(c: char): nat {
    if IsDigit(c) then c as int - '0' as int else 0
  }

  function ReadDigits(s: string, n: nat): nat {
    if s == "" then n else ReadDigits(s[1..], 10 * n + DigitValue(s[0]))
  }

  lemma {:induction false} ReadDigitsLast(s: string, c: char, n: nat)
    ensures ReadDigits(s + [c], n) == 10 * ReadDigits(s, n) + DigitValue(c)
    decreases |s|
  {
    if s != "" {
      assert (s + [c])[1..] == s[1..] + [c];
      ReadDigitsLast(s[1..], c, 10 * n + DigitValue(s[0]));
    }
  }

  lemma {:induction false} DecimalBack(n: nat)
    ensures ReadDigits(Decimal(n), 0) == n
  {
    if n >= 10 {
      DecimalBack(n / 10);
      ReadDigitsLast(Decimal(n / 10), Digit(n % 10), 0);
    }
  }

  // ----- NASM -----

  function Quoted(s: string): string {
    "\"" + s + "\""
  }

  function RunParts(run: string): seq<string> {
    if run == "" then [] else [Quoted(run)]
  }

  /** The parts for `s` when the run `run` is still to be written. */
  function PartsFrom(s: string, run: string): seq<string>
    decreases |s|
  {
    if s == "" then RunParts(run) + ["0"]
    else if Plain(s[0]) then PartsFrom(s[1..], run + [s[0]])
    else RunParts(run) + [Decimal(s[0] as int)] + PartsFrom(s[1..], "")
  }

  function Joined(parts: seq<string>): string {
    if parts == [] then "" else if |parts| == 1 then parts[0] else parts[0] + ", " + Joined(parts[1..])
  }

  function ForNasm(s: string): string {
    Joined(PartsFrom(s, ""))
  }

  lemma PartsStep(s: string, i: nat, run: string)
    requires i < |s|
    ensures PartsFrom(s[i..], run) ==
      if Plain(s[i]) then PartsFrom(s[i + 1..], run + [s[i]])
      else RunParts(run) + [Decimal(s[i] as int)] + PartsFrom(s[i + 1..], "")
  {
    hide Plain, Decimal, RunParts;
    assert s[i..][0] == s[i] && s[i..][1..] == s[i + 1..];
  }

  method EncodeForNasm(s: string) returns (r: string)
    ensures r == ForNasm(s)
  {
    hide PartsFrom, Plain, Decimal, Quoted, Joined;
    var parts: seq<string>, run := [], "";
    var i := 0;
    assert s[0..] == s && parts + PartsFrom(s, "") == PartsFrom(s, "");
    while i < |s|
      invariant i <= |s| && parts + PartsFrom(s[i..], run) == PartsFrom(s, "")
    {
      PartsStep(s, i, run);
      ghost var rest := PartsFrom(s[i + 1..], "");
      if Plain(s[i]) {
        run := run + [s[i]];
      } else {
        Regroup(parts, RunParts(run), [Decimal(s[i] as int)], rest);
        if run != "" {
          parts := parts + [Quoted(run)];
          run := "";
        }
        parts := parts + [Decimal(s[i] as int)];
      }
      i := i + 1;
    }
    assert s[i..] == "";
    LastParts(run);
    Regroup(parts, RunParts(run), ["0"], []);
    if run != "" {
      parts := parts + [Quoted(run)];
    }
    parts := parts + ["0"];
    assert parts + [] == parts;
    r := Joined(parts);
  }

  lemma LastParts(run: string)
    ensures PartsFrom("", run) == RunParts(run) + ["0"] + []
  {
  }

  lemma Regroup(a: seq<string>, b: seq<string>, c: seq<string>, d: seq<string>)
    ensures a + (b + c + d) == a + b + c + d
    ensures b == [] ==> a + b == a
  {
  }

  /** How many characters come before the first that ends a quoted run, or a number. */
  function RunLength(s: string): (n: nat)
    ensures n <= |s| && (n < |s| ==> s[n] == '"') && forall i | 0 <= i < n :: s[i] != '"'
  {
    if s == "" || s[0] == '"' then 0 else 1 + RunLength(s[1..])
  }

  function DigitsLength(s: string): (n: nat)
    ensures n <= |s| && (n < |s| ==> !IsDigit(s[n])) && forall i | 0 <= i < n :: IsDigit(s[i])
  {
    if s == "" || !IsDigit(s[0]) then 0 else 1 + DigitsLength(s[1..])
  }

  datatype Read = Read(codes: Codes, rest: string)

  /** One operand of `db`: the characters of a quoted run, or a number. */
  function ReadOperand(s: string): (r: Option<Read>)
    ensures r.Some? ==> |r.value.rest| < |s|
  {
    if s == "" then None
    else if s[0] == '"' then
      var n := RunLength(s[1..]);
      if n == |s| - 1 then None else Some(Read(CodesOf(s[1..n + 1]), s[n + 2..]))
    else
      var n := DigitsLength(s);
      if n == 0 then None else Some(Read([ReadDigits(s[..n], 0)], s[n..]))
  }

  function SkipSpaces(s: string): (r: string)
    ensures |r| <= |s|
  {
    if s != "" && s[0] == ' ' then SkipSpaces(s[1..]) else s
  }

  /** The operands of `db`, separated by commas, with the numbers as they are written. */
  function ReadOperands(s: string): Option<Codes>
    decreases |s|
  {
    match ReadOperand(s)
    case None => None
    case Some(r) =>
      if r.rest == "" then Some(r.codes)
      else if r.rest[0] != ',' then None
      else
        match ReadOperands(SkipSpaces(r.rest[1..]))
        case None => None
        case Some(more) => Some(r.codes + more)
  }

  function Cut(cs: Codes): (r: Codes)
    ensures |r| == |cs| && forall i | 0 <= i < |cs| :: r[i] == cs[i] % 256
  {
    seq(|cs|, i requires 0 <= i < |cs| => cs[i] % 256)
  }

  /** `db` keeps the low byte of each number. */
  function ReadNasm(s: string): Option<Codes> {
    match ReadOperands(s)
    case None => None
    case Some(cs) => Some(Cut(cs))
  }

  /** What one printed part stands for. */
  datatype Part = Run(s: string) | Number(n: nat)

  function Print(p: Part): string {
    match p
    case Run(s) => Quoted(s)
    case Number(n) => Decimal(n)
  }

  function Meaning(p: Part): Codes {
    match p
    case Run(s) => CodesOf(s)
    case Number(n) => [n]
  }

  predicate Fine(p: Part) {
    p.Run? ==> AllPlain(p.s)
  }

  function PrintAll(ps: seq<Part>): seq<string> {
    if ps == [] then [] else [Print(ps[0])] + PrintAll(ps[1..])
  }

  function MeaningAll(ps: seq<Part>): Codes {
    if ps == [] then [] else Meaning(ps[0]) + MeaningAll(ps[1..])
  }

  lemma {:induction false} RunEnds(s: string, rest: string)
    requires AllPlain(s)
    ensures RunLength(s + "\"" + rest) == |s|
    decreases |s|
  {
    if s != "" {
      assert (s + "\"" + rest)[1..] == s[1..] + "\"" + rest;
      RunEnds(s[1..], rest);
    }
  }

  lemma {:induction false} DigitsEnd(d: string, rest: string)
    requires (forall i | 0 <= i < |d| :: IsDigit(d[i])) && (rest == "" || !IsDigit(rest[0]))
    ensures DigitsLength(d + rest) == |d|
    decreases |d|
  {
    if d == "" {
      assert d + rest == rest;
    } else {
      assert (d + rest)[1..] == d[1..] + rest;
      DigitsEnd(d[1..], rest);
    }
  }

  lemma RunBack(s: string, rest: string)
    requires AllPlain(s)
    ensures ReadOperand(Quoted(s) + rest) == Some(Read(CodesOf(s), rest))
  {
    hide RunLength, DigitsLength, CodesOf, AllPlain;
    var t := Quoted(s) + rest;
    RunEnds(s, rest);
    assert t[1..] == s + "\"" + rest;
    assert t[1..|s| + 1] == s;
    assert t[|s| + 2..] == rest;
  }

  lemma NumberBack(n: nat, rest: string)
    requires rest == "" || !IsDigit(rest[0])
    ensures ReadOperand(Decimal(n) + rest) == Some(Read([n], rest))
  {
    hide Decimal, RunLength, DigitsLength, ReadDigits;
    var t := Decimal(n) + rest;
    DigitsEnd(Decimal(n), rest);
    DecimalBack(n);
    assert t[0] == Decimal(n)[0];
    assert t[..|Decimal(n)|] == Decimal(n);
    assert t[|Decimal(n)|..] == rest;
  }

  /** A part followed by a comma, or by nothing, is read back. */
  lemma PartBack(p: Part, rest: string)
    requires Fine(p) && (rest == "" || rest[0] == ',')
    ensures ReadOperand(Print(p) + rest) == Some(Read(Meaning(p), rest))
  {
    hide Decimal, Quoted, CodesOf, ReadOperand, AllPlain;
    match p
    case Run(s) => RunBack(s, rest);
    case Number(n) => NumberBack(n, rest);
  }

  lemma ReadOperandsMore(s: string, r: Read, more: string)
    requires ReadOperand(s) == Some(r) && r.rest == ", " + more && more != "" && more[0] != ' '
    ensures ReadOperands(more).Some? ==> ReadOperands(s) == Some(r.codes + ReadOperands(more).value)
  {
    hide ReadOperand;
    assert r.rest[1..] == [' '] + more;
    assert SkipSpaces([' '] + more) == more by {
      assert ([' '] + more)[1..] == more;
      assert SkipSpaces(more) == more;
    }
  }

  lemma {:induction false} PartsBack(ps: seq<Part>)
    requires ps != [] && forall p <- ps :: Fine(p)
    ensures Joined(PrintAll(ps)) != "" && Joined(PrintAll(ps))[0] != ' '
    ensures ReadOperands(Joined(PrintAll(ps))) == Some(MeaningAll(ps))
    decreases |ps|
  {
    hide *;
    NoSpace(ps[0]);
    PartsAre(ps);
    var head := Print(ps[0]);
    if |ps| == 1 {
      PartBack(ps[0], "");
      assert head + "" == head;
      LastOperand(head, Meaning(ps[0]));
    } else {
      var more := Joined(PrintAll(ps[1..]));
      PartsBack(ps[1..]);
      PartBack(ps[0], ", " + more);
      ReadOperandsMore(head + (", " + more), Read(Meaning(ps[0]), ", " + more), more);
    }
  }

  lemma PartsAre(ps: seq<Part>)
    requires ps != []
    ensures |ps| == 1 ==> Joined(PrintAll(ps)) == Print(ps[0]) && MeaningAll(ps) == Meaning(ps[0])
    ensures |ps| > 1 ==>
      Joined(PrintAll(ps)) == Print(ps[0]) + (", " + Joined(PrintAll(ps[1..])))
      && MeaningAll(ps) == Meaning(ps[0]) + MeaningAll(ps[1..])
  {
    var rest := PrintAll(ps[1..]);
    PrintedAre(ps);
    assert |rest| == |ps| - 1;
    hide *;
    JoinedIs(Print(ps[0]), rest);
  }

  lemma PrintedAre(ps: seq<Part>)
    requires ps != []
    ensures PrintAll(ps) == [Print(ps[0])] + PrintAll(ps[1..]) && |PrintAll(ps[1..])| == |ps| - 1
    ensures MeaningAll(ps) == Meaning(ps[0]) + MeaningAll(ps[1..])
    ensures |ps| == 1 ==> MeaningAll(ps) == Meaning(ps[0])
  {
    hide Print, Meaning;
  }

  lemma JoinedIs(x: string, rest: seq<string>)
    ensures Joined([x] + rest) == if rest == [] then x else x + (", " + Joined(rest))
  {
    assert ([x] + rest)[1..] == rest;
  }

  lemma LastOperand(s: string, cs: Codes)
    requires ReadOperand(s) == Some(Read(cs, ""))
    ensures ReadOperands(s) == Some(cs)
  {
    hide ReadOperand;
  }

  lemma NoSpace(p: Part)
    ensures Print(p) != "" && Print(p)[0] != ' '
  {
    if p.Number? {
      assert IsDigit(Decimal(p.n)[0]);
    }
  }

  /** The parts the printer collects. */
  function Collected(s: string, run: string): seq<Part>
    decreases |s|
  {
    if s == "" then RunPart(run) + [Number(0)]
    else if Plain(s[0]) then Collected(s[1..], run + [s[0]])
    else RunPart(run) + [Number(s[0] as int)] + Collected(s[1..], "")
  }

  lemma PrintFirst(p: Part, ps: seq<Part>)
    ensures PrintAll([p] + ps) == [Print(p)] + PrintAll(ps)
    ensures MeaningAll([p] + ps) == Meaning(p) + MeaningAll(ps)
  {
    assert ([p] + ps)[1..] == ps;
  }

  lemma PrintNone()
    ensures PrintAll([]) == [] && MeaningAll([]) == []
  {
  }

  function RunPart(run: string): seq<Part> {
    if run == "" then [] else [Run(run)]
  }

  /** A run before the other parts. */
  lemma RunFirst(run: string, ps: seq<Part>)
    requires AllPlain(run)
    ensures PrintAll(RunPart(run) + ps) == (if run == "" then [] else [Quoted(run)]) + PrintAll(ps)
    ensures MeaningAll(RunPart(run) + ps) == CodesOf(run) + MeaningAll(ps)
    ensures forall p <- RunPart(run) :: Fine(p)
  {
    if run == "" {
      assert RunPart(run) + ps == ps;
    } else {
      PrintFirst(Run(run), ps);
    }
  }

  /** A number and the parts behind it, behind a run. */
  lemma NumberNext(run: string, n: nat, ps: seq<Part>)
    requires AllPlain(run) && forall p <- ps :: Fine(p)
    ensures var qs := RunPart(run) + [Number(n)] + ps;
      && qs != [] && (forall p <- qs :: Fine(p)) && MeaningAll(qs) == CodesOf(run) + [n] + MeaningAll(ps)
      && PrintAll(qs) == RunParts(run) + [Decimal(n)] + PrintAll(ps)
  {
    hide Decimal, Quoted, PrintAll, MeaningAll, AllPlain, CodesOf;
    assert RunPart(run) + [Number(n)] + ps == RunPart(run) + ([Number(n)] + ps);
    PrintFirst(Number(n), ps);
    RunFirst(run, [Number(n)] + ps);
  }

  lemma {:induction false} CollectedIs(s: string, run: string)
    requires AllPlain(run)
    ensures PartsFrom(s, run) == PrintAll(Collected(s, run)) && Collected(s, run) != []
    ensures forall p <- Collected(s, run) :: Fine(p)
    ensures MeaningAll(Collected(s, run)) == CodesOf(run + s) + [0]
    decreases |s|
  {
    hide Plain, Decimal, Quoted, PrintAll, MeaningAll, Fine, CodesOf, AllPlain, RunPart;
    PrintNone();
    EmptyPlain();
    if s == "" {
      ZeroIs();
      NumberNext(run, 0, []);
      assert RunPart(run) + [Number(0)] + [] == RunPart(run) + [Number(0)];
      assert run + s == run;
      CodesNone();
    } else if Plain(s[0]) {
      PlainMore(run, s[0]);
      CollectedIs(s[1..], run + [s[0]]);
      assert (run + [s[0]]) + s[1..] == run + s;
    } else {
      CollectedIs(s[1..], "");
      NumberNext(run, s[0] as int, Collected(s[1..], ""));
      assert "" + s[1..] == s[1..];
      CodesAround(run, s);
    }
  }

  lemma CodesNone()
    ensures CodesOf("") == []
  {
  }

  lemma PlainMore(run: string, c: char)
    requires AllPlain(run) && Plain(c)
    ensures AllPlain(run + [c])
  {
  }

  lemma CodesAround(run: string, s: string)
    requires s != ""
    ensures CodesOf(run + s) == CodesOf(run) + [s[0] as int] + CodesOf(s[1..])
  {
  }

  lemma ZeroIs()
    ensures Decimal(0) == "0"
  {
  }

  /** Read as a list of operands, the NASM form is the string's codes and a final zero. */
  lemma OperandsBack(s: string)
    ensures ReadOperands(ForNasm(s)) == Some(CodesOf(s) + [0])
  {
    hide *;
    EmptyPlain();
    CollectedIs(s, "");
    PartsBack(Collected(s, ""));
    assert "" + s == s;
    NasmIs(s);
  }

  lemma EmptyPlain()
    ensures AllPlain("")
  {
  }

  lemma NasmIs(s: string)
    ensures ForNasm(s) == Joined(PartsFrom(s, ""))
  {
  }

  // ----- GAS -----

  function Octal(n: nat): string
  {
    [Digit(n / 64 % 8), Digit(n / 8 % 8), Digit(n % 8)]
  }

  /** `%03o`, which takes more than three digits from 512 on. */
  function OctalFrom(n: nat): string {
    if n < 512 then Octal(n) else OctalFrom(n / 8) + [Digit(n % 8)]
  }

  function Escaped(c: char): string {
    if c == '\\' then "\\\\"
    else if c == '"' then "\\\""
    else if c == '\n' then "\\n"
    else if c == '\t' then "\\t"
    else if 32 <= c as int <= 126 then [c]
    else "\\" + OctalFrom(c as int)
  }

  function EscapedAll(s: string): string {
    if s == "" then "" else Escaped(s[0]) + EscapedAll(s[1..])
  }

  function ForGas(s: string): string {
    "\"" + EscapedAll(s) + "\""
  }

  method EncodeForGas(s: string) returns (r: string)
    ensures r == ForGas(s)
  {
    hide Escaped, EscapedAll;
    EscapedEnds(s);
    var escaped := "";
    var i := 0;
    while i < |s|
      invariant i <= |s| && escaped + EscapedAll(s[i..]) == EscapedAll(s)
    {
      EscapedStep(s, i);
      assert escaped + (Escaped(s[i]) + EscapedAll(s[i + 1..])) == (escaped + Escaped(s[i])) + EscapedAll(s[i + 1..]);
      escaped := escaped + Escaped(s[i]);
      i := i + 1;
    }
    r := "\"" + escaped + "\"";
  }

  lemma EscapedStep(s: string, i: nat)
    requires i < |s|
    ensures EscapedAll(s[i..]) == Escaped(s[i]) + EscapedAll(s[i + 1..])
  {
    hide Escaped;
    assert s[i..][1..] == s[i + 1..];
  }

  lemma EscapedEnds(s: string)
    ensures s[0..] == s && EscapedAll(s[|s|..]) == ""
  {
  }

  predicate IsOctal(c: char) {
    '0' <= c <= '7'
  }

  /** The octal digits of an escape: at most three. */
  function OctalLength(s: string, most: nat): (n: nat)
    ensures n <= |s| && n <= most
  {
    if most == 0 || s == "" || !IsOctal(s[0]) then 0 else 1 + OctalLength(s[1..], most - 1)
  }

  function ReadOctal(s: string, n: nat): nat {
    if s == "" then n else ReadOctal(s[1..], 8 * n + DigitValue(s[0]))
  }

  /** The character an escape stands for; an octal number is cut to a byte. */
  function ReadEscape(s: string): (r: Option<Read>)
    ensures r.Some? ==> |r.value.rest| < |s|
  {
    if s == "" then None
    else if s[0] == '\\' || s[0] == '"' then Some(Read([s[0] as int], s[1..]))
    else if s[0] == 'n' then Some(Read([10], s[1..]))
    else if s[0] == 't' then Some(Read([9], s[1..]))
    else
      var n := OctalLength(s, 3);
      if n == 0 then None else Some(Read([ReadOctal(s[..n], 0) % 256], s[n..]))
  }

  /** The text of a string up to its closing quote, which must end it. */
  function ReadText(s: string): Option<Codes>
    decreases |s|
  {
    if s == "" then None
    else if s[0] == '"' then (if |s| == 1 then Some([]) else None)
    else if s[0] == '\\' then
      match ReadEscape(s[1..])
      case None => None
      case Some(r) =>
        (match ReadText(r.rest)
         case None => None
         case Some(more) => Some(r.codes + more))
    else
      match ReadText(s[1..])
      case None => None
      case Some(more) => Some([s[0] as int] + more)
  }

  function ReadGas(s: string): Option<Codes> {
    if s == "" || s[0] != '"' then None else ReadText(s[1..])
  }

  predicate Byte(c: char) {
    c as int < 256
  }

  predicate AllBytes(s: string) {
    forall i | 0 <= i < |s| :: Byte(s[i])
  }

  lemma OctalBack(n: nat, rest: string)
    requires n < 256
    ensures ReadEscape(OctalFrom(n) + rest) == Some(Read([n], rest))
  {
    hide *;
    var a, b, c := n / 64 % 8, n / 8 % 8, n % 8;
    OctalIs(n);
    DigitIs(a);
    DigitIs(b);
    DigitIs(c);
    ThreeOctal(a, b, c);
    EscapeOctal(Digit(a), Digit(b), Digit(c), rest);
    Places(n);
  }

  lemma OctalIs(n: nat)
    requires n < 256
    ensures OctalFrom(n) == [Digit(n / 64 % 8), Digit(n / 8 % 8), Digit(n % 8)]
  {
    hide Digit;
  }

  lemma Places(n: nat)
    requires n < 256
    ensures ((n / 64 % 8) * 8 + n / 8 % 8) * 8 + n % 8 == n
  {
  }

  lemma EscapeOctal(x: char, y: char, z: char, rest: string)
    requires IsOctal(x) && IsOctal(y) && IsOctal(z)
    ensures ReadEscape([x, y, z] + rest) == Some(Read([ReadOctal([x, y, z], 0) % 256], rest))
  {
    hide ReadOctal;
    var t := [x, y, z] + rest;
    assert t[1..] == [y, z] + rest;
    assert ([y, z] + rest)[1..] == [z] + rest;
    assert OctalLength([z] + rest, 1) == 1;
    assert OctalLength([y, z] + rest, 2) == 2;
    assert OctalLength(t, 3) == 3;
    assert t[..3] == [x, y, z];
    assert t[3..] == rest;
  }

  lemma DigitIs(d: int)
    requires 0 <= d < 8
    ensures IsOctal(Digit(d)) && DigitValue(Digit(d)) == d
    ensures Digit(d) != '\\' && Digit(d) != '"' && Digit(d) != 'n' && Digit(d) != 't'
  {
  }

  lemma ThreeOctal(a: int, b: int, c: int)
    requires 0 <= a < 8 && 0 <= b < 8 && 0 <= c < 8
    ensures ReadOctal([Digit(a), Digit(b), Digit(c)], 0) == (a * 8 + b) * 8 + c
  {
    DigitIs(a);
    DigitIs(b);
    DigitIs(c);
    hide Digit;
    var s := [Digit(a), Digit(b), Digit(c)];
    assert s[1..] == [Digit(b), Digit(c)] && s[1..][1..] == [Digit(c)];
    assert ReadOctal(s[1..][1..], 8 * a + b) == 8 * (8 * a + b) + c;
    assert ReadOctal(s[1..], a) == 8 * (8 * a + b) + c;
  }

  lemma EscapedBack(c: char, rest: string)
    requires Byte(c)
    ensures ReadText(rest).Some? ==> ReadText(Escaped(c) + rest) == Some([c as int] + ReadText(rest).value)
  {
    hide OctalFrom, OctalLength, ReadOctal;
    var t := Escaped(c) + rest;
    if c == '\\' || c == '"' || c == '\n' || c == '\t' {
      assert t[1..][1..] == rest;
    } else if 32 <= c as int <= 126 {
      assert t[1..] == rest;
    } else {
      OctalBack(c as int, rest);
      assert t[1..] == OctalFrom(c as int) + rest;
    }
  }

  lemma {:induction false} TextBack(s: string)
    requires AllBytes(s)
    ensures ReadText(EscapedAll(s) + "\"") == Some(CodesOf(s))
    decreases |s|
  {
    hide Escaped, ReadEscape;
    if s == "" {
      QuoteEnds();
    } else {
      TextBack(s[1..]);
      EscapedBack(s[0], EscapedAll(s[1..]) + "\"");
      assert EscapedAll(s) + "\"" == Escaped(s[0]) + (EscapedAll(s[1..]) + "\"");
      assert CodesOf(s) == [s[0] as int] + CodesOf(s[1..]);
    }
  }

  lemma QuoteEnds()
    ensures ReadText("\"") == Some([])
  {
  }

  /** What is read from a text of bytes is bytes. */
  lemma {:induction false} ReadsBytes(t: string)
    requires AllBytes(t)
    ensures ReadText(t).Some? ==> forall x <- ReadText(t).value :: x < 256
    decreases |t|
  {
    hide OctalLength, ReadOctal;
    if t != "" && t[0] != '"' {
      if t[0] == '\\' {
        EscapeBytes(t[1..]);
        hide ReadEscape;
        if ReadEscape(t[1..]).Some? {
          ReadsBytes(ReadEscape(t[1..]).value.rest);
        }
      } else {
        ReadsBytes(t[1..]);
        assert Byte(t[0]);
      }
    }
  }

  lemma EscapeBytes(t: string)
    requires AllBytes(t)
    ensures ReadEscape(t).Some? ==>
      AllBytes(ReadEscape(t).value.rest) && forall x <- ReadEscape(t).value.codes :: x < 256
  {
    hide OctalLength, ReadOctal;
    assert t != "" ==> Byte(t[0]);
  }

  lemma {:induction false} OctalBytes(n: nat)
    ensures AllBytes(OctalFrom(n))
  {
    if n >= 512 {
      OctalBytes(n / 8);
    }
  }

  lemma {:induction false} EscapedBytes(s: string)
    ensures AllBytes(EscapedAll(s))
    decreases |s|
  {
    hide OctalFrom;
    if s != "" {
      OctalBytes(s[0] as int);
      EscapedBytes(s[1..]);
    }
  }

  /** Read with its escapes, the GAS form is the string, if it is a string of bytes and only then. */
  lemma GasBack(s: string)
    ensures ReadGas(ForGas(s)) == Some(CodesOf(s)) <==> AllBytes(s)
  {
    hide ReadText, EscapedAll;
    assert ForGas(s)[1..] == EscapedAll(s) + "\"";
    if AllBytes(s) {
      TextBack(s);
    } else {
      EscapedBytes(s);
      ReadsBytes(EscapedAll(s) + "\"");
      var i :| 0 <= i < |s| && !Byte(s[i]);
      assert CodesOf(s)[i] in CodesOf(s);
    }
  }

  /** As data, the NASM form is the string and a final zero, if it is a string of bytes and only then. */
  lemma NasmBack(s: string)
    ensures ReadNasm(ForNasm(s)) == Some(CodesOf(s) + [0]) <==> AllBytes(s)
  {
    hide ReadOperands, ForNasm;
    OperandsBack(s);
    var cs := CodesOf(s) + [0];
    if AllBytes(s) {
      forall i | 0 <= i < |cs|
        ensures Cut(cs)[i] == cs[i]
      {
        assert i < |s| ==> Byte(s[i]);
      }
      assert Cut(cs) == cs;
    } else {
      var i :| 0 <= i < |s| && !Byte(s[i]);
      assert cs[i] == s[i] as int && Cut(cs)[i] == cs[i] % 256;
    }
  }

  /** The two forms stand for the same data, but for the final zero. */
  lemma FormsAgree(s: string)
    requires AllBytes(s)
    ensures ReadGas(ForGas(s)).Some? && ReadNasm(ForNasm(s)) == Some(ReadGas(ForGas(s)).value + [0])
  {
    hide *;
    NasmBack(s);
    GasBack(s);
  }

  lemma CodesInjective(s: string, t: string)
    requires CodesOf(s) == CodesOf(t)
    ensures s == t
  {
    forall i | 0 <= i < |s|
      ensures s[i] == t[i]
    {
      assert CodesOf(s)[i] == CodesOf(t)[i];
    }
  }

  /** No two strings have the same form. */
  lemma FormsInjective(s: string, t: string)
    ensures ForNasm(s) == ForNasm(t) ==> s == t
    ensures AllBytes(s) && AllBytes(t) && ForGas(s) == ForGas(t) ==> s == t
  {
    hide *;
    OperandsBack(s);
    OperandsBack(t);
    if AllBytes(s) && AllBytes(t) {
      GasBack(s);
      GasBack(t);
    }
    if CodesOf(s) + [0] == CodesOf(t) + [0] {
      assert CodesOf(s) == (CodesOf(s) + [0])[..|s|];
      CodesInjective(s, t);
    } else if CodesOf(s) == CodesOf(t) {
      CodesInjective(s, t);
    }
  }

  // ----- readable text -----

  predicate Readable(s: string) {
    forall i | 0 <= i < |s| :: ' ' <= s[i] <= '~' && s[i] != '"'
  }

  lemma {:induction false} ReadableRun(s: string, run: string)
    requires Readable(s)
    ensures PartsFrom(s, run) == RunParts(run + s) + ["0"]
    decreases |s|
  {
    hide RunParts;
    if s == "" {
      assert run + s == run;
    } else {
      ReadableRun(s[1..], run + [s[0]]);
      assert run + [s[0]] + s[1..] == run + s;
    }
  }

  lemma TwoParts(part: string)
    ensures Joined([part, "0"]) == part + ", 0"
  {
    assert [part, "0"][1..] == ["0"];
    assert Joined(["0"]) == "0";
    assert part + ", " + "0" == part + ", 0";
  }

  /** Readable text stands in the NASM form as it is. */
  lemma NasmReadable(s: string)
    requires Readable(s) && s != ""
    ensures ForNasm(s) == "\"" + s + "\", 0"
  {
    ReadableRun(s, "");
    hide PartsFrom;
    assert "" + s == s;
    assert PartsFrom(s, "") == [Quoted(s), "0"];
    TwoParts(Quoted(s));
    assert Quoted(s) + ", 0" == "\"" + s + "\", 0";
  }

  /** And any other character as a number. */
  lemma NasmNumber(c: char)
    requires !Readable([c])
    ensures ForNasm([c]) == Decimal(c as int) + ", 0"
  {
    hide Decimal;
    assert [c][1..] == "";
    assert !Plain(c);
    assert PartsFrom([c], "") == [Decimal(c as int), "0"];
    TwoParts(Decimal(c as int));
  }

  /** In the GAS form readable text without backslashes stands as it is. */
  lemma {:induction false} GasReadable(s: string)
    requires Readable(s) && '\\' !in s
    ensures EscapedAll(s) == s
    decreases |s|
  {
    hide OctalFrom;
    if s != "" {
      assert s[0] in s;
      GasReadable(s[1..]);
    }
  }
}
