/** Numerals and string literals as they may be written, and the scanner reading them. */
module Literals {
  import opened Wrappers
  import opened Syntax
  import opened TripleQuotes
  import opened LineScanner
  import E = Encoders

  // ----- numerals -----

  const DIGITS := "0123456789abcdef"

  /** A number in a base, without leading zeros. */
  function Numeral(n: nat, base: nat): (r: string)
    requires 2 <= base <= 16
    ensures r != ""
  {
    Smaller(n, base);
    if n < base then [DIGITS[n]] else Numeral(n / base, base) + [DIGITS[n % base]]
  }

  lemma Smaller(n: nat, base: nat)
    requires base >= 2
    ensures 0 <= n % base < base && n / base >= 0 && (n > 0 ==> n / base < n)
    ensures base * (n / base) + n % base == n
  {
  }

  function Lower(c: char): char {
    if 'A' <= c <= 'F' then (c as int - 'A' as int + 'a' as int) as char else c
  }

  /** The digits without underscores, and with small letters. */
  function Plain(s: string): string {
    if s == "" then "" else (if s[0] == '_' then "" else [Lower(s[0])]) + Plain(s[1..])
  }

  function NoZeros(s: string): string {
    if s != "" && s[0] == '0' then NoZeros(s[1..]) else s
  }

  /** Digits of a base and underscores that stand for a number. Leading zeros, and underscores anywhere, do not
      count. */
  predicate StandsFor(s: string, base: nat, n: nat)
    requires 2 <= base <= 16
  {
    && (forall i | 0 <= i < |s| :: s[i] == '_' || Lower(s[i]) in DIGITS[..base])
    && Plain(s) != "" && NoZeros(Plain(s)) == NoZeros(Numeral(n, base))
  }

  /** The ways to write a number: decimal, or behind `0b`, `0o` or `0x`. */
  predicate IsNumeral(s: string, n: nat) {
    || (s != "" && s[0] in "0123456789" && StandsFor(s, 10, n))
    || (|s| > 2 && (s[..2] == "0b" || s[..2] == "0B") && StandsFor(s[2..], 2, n))
    || (|s| > 2 && (s[..2] == "0o" || s[..2] == "0O") && StandsFor(s[2..], 8, n))
    || (|s| > 2 && (s[..2] == "0x" || s[..2] == "0X") && StandsFor(s[2..], 16, n))
  }

  // ----- the value of the digits -----

  lemma DigitValues(c: char, base: nat)
    requires 2 <= base <= 16 && Lower(c) in DIGITS[..base]
    ensures HexValue(c) < base && HexValue(Lower(c)) == HexValue(c) && c != '_' && WordChar(c)
    ensures DIGITS[HexValue(c)] == Lower(c)
  {
    var k :| 0 <= k < base && DIGITS[k] == Lower(c);
    DigitIs(k);
  }

  lemma DigitIs(k: nat)
    requires k < 16
    ensures HexValue(DIGITS[k]) == k && DIGITS[k] != '_' && Lower(DIGITS[k]) == DIGITS[k]
    ensures '0' <= DIGITS[k] <= '9' || 'a' <= DIGITS[k] <= 'f'
  {
  }

  lemma {:induction false} PlainValue(s: string, base: nat, n: nat)
    requires 2 <= base <= 16 && forall i | 0 <= i < |s| :: s[i] == '_' || Lower(s[i]) in DIGITS[..base]
    ensures ReadNumber(s, base, n) == ReadNumber(Plain(s), base, n)
    decreases |s|
  {
    if s != "" {
      var m := if s[0] == '_' then n else base * n + HexValue(s[0]);
      PlainValue(s[1..], base, m);
      if s[0] != '_' {
        DigitValues(s[0], base);
        LowerTwice(s[0], base);
        assert Plain(s)[1..] == Plain(s[1..]);
      } else {
        assert Plain(s) == Plain(s[1..]);
      }
      hide DIGITS, HexValue, Lower;
    }
  }

  lemma LowerTwice(c: char, base: nat)
    requires 2 <= base <= 16 && Lower(c) in DIGITS[..base]
    ensures Lower(c) != '_'
  {
    var k :| 0 <= k < base && DIGITS[k] == Lower(c);
    DigitIs(k);
  }

  lemma {:induction false} ZerosValue(s: string, base: nat)
    ensures ReadNumber(NoZeros(s), base, 0) == ReadNumber(s, base, 0)
    decreases |s|
  {
    if s != "" && s[0] == '0' {
      ZerosValue(s[1..], base);
      assert base * 0 + HexValue('0') == 0;
    }
  }

  lemma {:induction false} LastDigit(s: string, c: char, base: nat, n: nat)
    requires c != '_'
    ensures ReadNumber(s + [c], base, n) == base * ReadNumber(s, base, n) + HexValue(c)
    decreases |s|
  {
    hide HexValue;
    if s == "" {
      assert s + [c] == [c];
      assert [c][1..] == "";
    } else {
      assert (s + [c])[1..] == s[1..] + [c] && (s + [c])[0] == s[0];
      LastDigit(s[1..], c, base, if s[0] == '_' then n else base * n + HexValue(s[0]));
    }
  }

  lemma {:induction false} NumeralValue(n: nat, base: nat)
    requires 2 <= base <= 16
    ensures ReadNumber(Numeral(n, base), base, 0) == n
    decreases n
  {
    hide *;
    NumeralIs(n, base);
    Smaller(n, base);
    SixteenDigits();
    if n < base {
      OneDigit(n, base);
    } else {
      NumeralValue(n / base, base);
      DigitIs(n % base);
      LastDigit(Numeral(n / base, base), DIGITS[n % base], base, 0);
    }
  }

  lemma SixteenDigits()
    ensures |DIGITS| == 16
  {
  }

  lemma NumeralIs(n: nat, base: nat)
    requires 2 <= base <= 16
    ensures Numeral(n, base) ==
      if n < base then [DIGITS[n]] else Numeral(n / base, base) + [DIGITS[n % base]]
  {
    hide DIGITS;
  }

  lemma OneDigit(n: nat, base: nat)
    requires n < 16
    ensures ReadNumber([DIGITS[n]], base, 0) == n
  {
    DigitIs(n);
    hide DIGITS;
    assert [DIGITS[n]][1..] == "";
    assert base * 0 + n == n;
  }

  /** The scanner's number is the one the digits stand for. */
  lemma StandingValue(s: string, base: nat, n: nat)
    requires 2 <= base <= 16 && StandsFor(s, base, n)
    ensures ReadNumber(s, base, 0) == n
  {
    hide DIGITS, ReadNumber;
    PlainValue(s, base, 0);
    ZerosValue(Plain(s), base);
    ZerosValue(Numeral(n, base), base);
    NumeralValue(n, base);
  }

  lemma {:induction false} RunEnds(s: string, base: nat, rest: string)
    requires 2 <= base <= 16 && forall i | 0 <= i < |s| :: s[i] == '_' || Lower(s[i]) in DIGITS[..base]
    requires !WordChar(CharAt(rest, 0))
    ensures RunLength(s + rest, base) == |s|
    decreases |s|
  {
    if s == "" {
      assert s + rest == rest;
      NoDigit(CharAt(rest, 0));
    } else {
      assert (s + rest)[1..] == s[1..] + rest;
      if s[0] != '_' {
        DigitValues(s[0], base);
      }
      hide DIGITS, HexValue, Lower, WordChar;
      RunEnds(s[1..], base, rest);
    }
  }

  lemma NoDigit(c: char)
    requires !WordChar(c)
    ensures c != '_' && HexValue(c) >= 16
  {
  }

  // ----- reading numerals -----

  /** The next lexeme of a line is the token, written as `x`. */
  ghost predicate ReadsSo(x: string, t: Token, rest: string) {
    x != "" && Next(x + rest) == Lexeme([t], |x|)
  }

  lemma NextNumber(s: string)
    requires s != "" && E.IsDigit(s[0])
    ensures Next(s) == Number(s)
  {
    hide Number;
    assert Special(s[0]).None? && Operator(s).None? && !Letter(s[0]);
  }

  /** The three prefixes and their bases. */
  lemma PrefixedReads(x: string, base: nat, n: nat, rest: string)
    requires |x| > 2 && x[0] == '0' && !WordChar(CharAt(rest, 0)) && 2 <= base <= 16 && StandsFor(x[2..], base, n)
    requires match x[1] { case 'b' => base == 2 case 'B' => base == 2 case 'o' => base == 8 case 'O' => base == 8
                          case 'x' => base == 16 case 'X' => base == 16 case _ => false }
    ensures ReadsSo(x, Int(n), rest)
  {
    var s, y := x + rest, x[2..];
    assert s[0] == '0' && CharAt(s, 1) == x[1] && s[2..] == y + rest;
    NextNumber(s);
    RunEnds(y, base, rest);
    assert (y + rest)[..|y|] == y;
    StandingValue(y, base, n);
    hide StandsFor, RunLength, ReadNumber, Next, DIGITS;
    assert BaseOf(x[1]) == base;
  }

  lemma DecimalReads(x: string, n: nat, rest: string)
    requires x != "" && x[0] in "0123456789" && StandsFor(x, 10, n)
    requires !WordChar(CharAt(rest, 0)) && CharAt(rest, 0) != '.'
    ensures ReadsSo(x, Int(n), rest)
  {
    var s := x + rest;
    assert s[0] == x[0] && E.IsDigit(s[0]);
    NextNumber(s);
    RunEnds(x, 10, rest);
    StandingValue(x, 10, n);
    NoPrefix(x, n, rest);
    assert s[..|x|] == x;
    assert CharAt(s, |x|) == CharAt(rest, 0);
    hide StandsFor, RunLength, ReadNumber, Next, DIGITS, PlainDigits, BaseOf;
  }

  lemma NoPrefix(x: string, n: nat, rest: string)
    requires x != "" && StandsFor(x, 10, n) && !WordChar(CharAt(rest, 0))
    ensures BaseOf(CharAt(x + rest, 1)) == 0
  {
    var c := CharAt(x + rest, 1);
    if |x| > 1 {
      assert c == x[1];
      if c != '_' {
        assert Lower(c) in DIGITS[..10];
        DigitValues(c, 10);
      }
    } else {
      assert c == CharAt(rest, 0);
    }
  }

  /** A numeral in any of the four bases is one token with its number. */
  lemma NumeralReads(x: string, n: nat, rest: string)
    requires IsNumeral(x, n) && !WordChar(CharAt(rest, 0)) && CharAt(rest, 0) != '.'
    ensures ReadsSo(x, Int(n), rest)
  {
    hide StandsFor, ReadsSo, DIGITS, WordChar;
    if x != "" && x[0] in "0123456789" && StandsFor(x, 10, n) {
      DecimalReads(x, n, rest);
    } else {
      assert x[0] == x[..2][0] && x[1] == x[..2][1];
      var base := if x[1] == 'b' || x[1] == 'B' then 2 else if x[1] == 'o' || x[1] == 'O' then 8 else 16;
      PrefixedReads(x, base, n, rest);
    }
  }

  // ----- strings -----

  /** Text that can stand between two quotes: each such quote in it is behind a backslash, and no backslash is the
      last. */
  predicate ClosedBy(s: string, quote: char) {
    s == "" || (
      if s[0] == '\\' then |s| > 1 && ClosedBy(s[2..], quote)
      else s[0] != quote && ClosedBy(s[1..], quote))
  }

  predicate Quoted(x: string, s: string, quote: char) {
    x == [quote] + s + [quote] && ClosedBy(s, quote)
  }

  /** In a raw string a backslash is a character like any other. */
  predicate RawQuoted(x: string, s: string, prefix: char, quote: char) {
    x == [prefix, quote] + s + [quote] && quote !in s
  }

  /** The ways to write a string. */
  predicate IsString(x: string, s: string) {
    || Quoted(x, s, '"') || Quoted(x, s, '\'')
    || RawQuoted(x, s, 'r', '"') || RawQuoted(x, s, 'r', '\'')
    || RawQuoted(x, s, 'R', '"') || RawQuoted(x, s, 'R', '\'')
  }

  lemma {:induction false} StringEnds(s: string, quote: char, rest: string)
    requires ClosedBy(s, quote) && quote != '\\'
    ensures StringLength(s + ([quote] + rest), quote) == |s|
    decreases |s|
  {
    var t := s + ([quote] + rest);
    if s == "" {
      assert t == [quote] + rest;
    } else if s[0] == '\\' {
      assert t[2..] == s[2..] + ([quote] + rest);
      StringEnds(s[2..], quote, rest);
    } else {
      assert t[1..] == s[1..] + ([quote] + rest);
      StringEnds(s[1..], quote, rest);
    }
  }

  lemma {:induction false} RawEnds(s: string, quote: char, rest: string)
    requires quote !in s
    ensures RawLength(s + ([quote] + rest), quote) == |s|
    decreases |s|
  {
    var t := s + ([quote] + rest);
    if s == "" {
      assert t == [quote] + rest;
    } else {
      assert s[0] in s && t[1..] == s[1..] + ([quote] + rest);
      RawEnds(s[1..], quote, rest);
    }
  }

  lemma QuotedReads(x: string, s: string, quote: char, rest: string)
    requires Quote(quote) && Quoted(x, s, quote)
    ensures ReadsSo(x, Str(s), rest)
  {
    hide StringLength, ClosedBy, Operator, Special;
    var t := x + rest;
    assert t[0] == quote && t[1..] == s + ([quote] + rest);
    StringEnds(s, quote, rest);
    assert t[1..][..|s|] == s;
  }

  lemma RawReads(x: string, s: string, prefix: char, quote: char, rest: string)
    requires Quote(quote) && (prefix == 'r' || prefix == 'R') && RawQuoted(x, s, prefix, quote)
    ensures ReadsSo(x, Str(s), rest)
  {
    hide RawLength, Operator, Special;
    var t := x + rest;
    assert t[0] == prefix && t[1] == quote && CharAt(t, 1) == quote && t[2..] == s + ([quote] + rest);
    RawEnds(s, quote, rest);
    assert t[2..][..|s|] == s;
  }

  /** A string literal, raw or not, is one token with its text. */
  lemma StringReads(x: string, s: string, rest: string)
    requires IsString(x, s)
    ensures ReadsSo(x, Str(s), rest)
  {
    hide Quoted, RawQuoted, ReadsSo;
    if Quoted(x, s, '"') {
      QuotedReads(x, s, '"', rest);
    } else if Quoted(x, s, '\'') {
      QuotedReads(x, s, '\'', rest);
    } else if RawQuoted(x, s, 'r', '"') {
      RawReads(x, s, 'r', '"', rest);
    } else if RawQuoted(x, s, 'r', '\'') {
      RawReads(x, s, 'r', '\'', rest);
    } else if RawQuoted(x, s, 'R', '"') {
      RawReads(x, s, 'R', '"', rest);
    } else {
      RawReads(x, s, 'R', '\'', rest);
    }
  }

  /** An f-string, whose parts are `FString`'s, is one token. */
  lemma FormattedReads(x: string, s: string, prefix: char, quote: char, rest: string)
    requires Quote(quote) && (prefix == 'f' || prefix == 'F') && ClosedBy(s, quote)
    requires x == [prefix, quote] + s + [quote]
    ensures ReadsSo(x, Other(FSTRING), rest)
  {
    hide StringLength, ClosedBy, Operator, Special;
    var t := x + rest;
    assert t[0] == prefix && CharAt(t, 1) == quote && t[1] == quote && t[2..] == s + ([quote] + rest);
    StringEnds(s, quote, rest);
  }

  // ----- floats -----

  /** Decimal digits and underscores, the first a digit. */
  predicate Digital(s: string) {
    s != "" && E.IsDigit(s[0]) && forall i | 0 <= i < |s| :: s[i] == '_' || E.IsDigit(s[i])
  }

  predicate AllDigits(s: string) {
    s != "" && forall i | 0 <= i < |s| :: E.IsDigit(s[i])
  }

  /** `e` or `E`, a sign or none, and digits; or nothing. */
  predicate Exponent(s: string) {
    s == "" || (
      && |s| > 1 && (s[0] == 'e' || s[0] == 'E')
      && (if s[1] == '+' || s[1] == '-' then AllDigits(s[2..]) else AllDigits(s[1..])))
  }

  lemma {:induction false} DigitsEnd(s: string, rest: string)
    requires (forall i | 0 <= i < |s| :: s[i] == '_' || E.IsDigit(s[i])) && !Ten(CharAt(rest, 0))
    ensures RunLength(s + rest, 10) == |s|
    decreases |s|
  {
    if s == "" {
      assert s + rest == rest;
    } else {
      assert (s + rest)[1..] == s[1..] + rest;
      DigitsEnd(s[1..], rest);
    }
  }

  predicate Ten(c: char) {
    c == '_' || E.IsDigit(c)
  }

  lemma {:induction false} PlainDigitsEnd(s: string, rest: string)
    requires (forall i | 0 <= i < |s| :: E.IsDigit(s[i])) && !E.IsDigit(CharAt(rest, 0))
    ensures PlainDigits(s + rest) == |s|
    decreases |s|
  {
    if s == "" {
      assert s + rest == rest;
    } else {
      assert (s + rest)[1..] == s[1..] + rest;
      PlainDigitsEnd(s[1..], rest);
    }
  }

  lemma ExponentReads(front: string, e: string, rest: string)
    requires Exponent(e) && !WordChar(CharAt(rest, 0))
    ensures ExponentEnd(front + (e + rest), |front|) == |front| + |e|
  {
    var s, n := front + (e + rest), |front|;
    assert s[n..] == e + rest;
    assert CharAt(s, n) == CharAt(e + rest, 0) && CharAt(s, n + 1) == CharAt(e + rest, 1);
    assert CharAt(s, n + 2) == CharAt(e + rest, 2);
    if e == "" {
      assert e + rest == rest;
      hide PlainDigits;
    } else if e[1] == '+' || e[1] == '-' {
      assert s[n + 2..] == e[2..] + rest && s[n + 2] == e[2];
      PlainDigitsEnd(e[2..], rest);
      hide PlainDigits;
    } else {
      assert s[n + 1..] == e[1..] + rest && s[n + 1] == e[1];
      PlainDigitsEnd(e[1..], rest);
      hide PlainDigits;
    }
  }

  /** A number with a point, an exponent or both is one token. */
  lemma FloatReads(a: string, point: bool, b: string, e: string, rest: string)
    requires Digital(a) && Exponent(e) && (point || (b == "" && e != "")) && !WordChar(CharAt(rest, 0))
    requires forall i | 0 <= i < |b| :: b[i] == '_' || E.IsDigit(b[i])
    ensures ReadsSo(a + (if point then "." + b else "") + e, Other(FLOAT), rest)
  {
    var front := a + if point then "." + b else "";
    var s, more := front + e + rest, e + rest;
    FirstTen(e, rest);
    assert s == front + more;
    NoBase(a, point, b, more);
    MantissaReads(a, point, b, more);
    ExponentReads(front, e, rest);
    NextNumber(s);
    hide *;
    FloatIs(s, |a|, |front|);
    ReadsIs(front + e, Other(FLOAT), rest);
  }

  lemma ReadsIs(x: string, t: Token, rest: string)
    ensures ReadsSo(x, t, rest) <==> x != "" && Next(x + rest) == Lexeme([t], |x|)
  {
    hide Next;
  }

  lemma MantissaReads(a: string, point: bool, b: string, more: string)
    requires Digital(a) && !Ten(CharAt(more, 0)) && (point || CharAt(more, 0) != '.')
    requires forall i | 0 <= i < |b| :: b[i] == '_' || E.IsDigit(b[i])
    ensures var s := a + (if point then "." + b else "") + more;
      && s != "" && E.IsDigit(s[0]) && DigitAt(s, 0) && RunLength(s, 10) == |a|
      && (point ==> CharAt(s, |a|) == '.' && |a| + 1 <= |s| && RunLength(s[|a| + 1..], 10) == |b|)
      && (!point ==> CharAt(s, |a|) != '.')
  {
    var s := a + (if point then "." + b else "") + more;
    assert s[0] == a[0];
    if point {
      assert s == a + ("." + (b + more)) && s[|a|] == '.';
      DigitsEnd(a, "." + (b + more));
      assert s[|a| + 1..] == b + more;
      DigitsEnd(b, more);
    } else {
      assert s == a + more;
      DigitsEnd(a, more);
      assert CharAt(s, |a|) == CharAt(more, 0);
    }
    hide RunLength;
  }

  lemma FloatIs(s: string, n: nat, m: nat)
    requires DigitAt(s, 0) && BaseOf(CharAt(s, 1)) == 0 && RunLength(s, 10) == n && m <= |s|
    requires if CharAt(s, n) == '.' then n < |s| && m == n + 1 + RunLength(s[n + 1..], 10) else m == n
    requires ExponentEnd(s, m) > n
    ensures Number(s) == Lexeme([Other(FLOAT)], ExponentEnd(s, m))
  {
    hide RunLength, ExponentEnd, CharAt, BaseOf, ReadNumber;
  }

  lemma FirstTen(e: string, rest: string)
    requires Exponent(e) && !WordChar(CharAt(rest, 0))
    ensures !Ten(CharAt(e + rest, 0)) && BaseOf(CharAt(e + rest, 0)) == 0
    ensures e != "" ==> CharAt(e + rest, 0) != '.'
  {
    if e == "" {
      assert e + rest == rest;
    }
  }

  lemma NoBase(a: string, point: bool, b: string, more: string)
    requires Digital(a) && BaseOf(CharAt(more, 0)) == 0
    ensures BaseOf(CharAt(a + (if point then "." + b else "") + more, 1)) == 0
  {
    var c := CharAt(a + (if point then "." + b else "") + more, 1);
    if |a| > 1 {
      assert c == a[1];
    } else if point {
      assert c == '.';
    } else {
      assert c == CharAt(more, 0);
    }
  }

  // ----- what is no token of the grammar -----

  /** The characters a token can start with, but for letters, digits and `!`. */
  const STARTS := "_\"'()[]{};:,.*/<>+-%@&|^=~# \t"

  lemma NoSpecial(c: char)
    requires c !in STARTS
    ensures Special(c).None? && !Quote(c) && c != '_' && c != ' ' && c != '\t' && c != '#' && c != '.'
  {
    assert forall d <- "_\"' \t#()[]{};:,." :: d in STARTS;
  }

  lemma NoOperator(s: string)
    requires s != "" && s[0] !in STARTS && !(s[0] == '!' && CharAt(s, 1) == '=')
    ensures Operator(s).None?
  {
    assert forall d <- "*/<>+-%@&|^=~" :: d in STARTS;
  }

  /** Any other character is passed over, and so is a `!` without a `=`. */
  lemma StrayReads(c: char, rest: string)
    requires c !in STARTS && !Letter(c) && !E.IsDigit(c) && !(c == '!' && CharAt(rest, 0) == '=')
    ensures Next([c] + rest) == Lexeme([], 1)
  {
    hide Operator, Special, STARTS;
    var s := [c] + rest;
    assert CharAt(s, 1) == CharAt(rest, 0);
    NoSpecial(c);
    NoOperator(s);
  }

  /** A comment goes to the end of the line, and an arrow is one token. */
  lemma CommentReads(text: string, rest: string)
    ensures Next("#" + text) == Lexeme([Other(COMMENT)], 1 + |text|)
    ensures Next("->" + rest) == Lexeme([Other(ARROW)], 2)
  {
    var s := "->" + rest;
    assert s[0] == '-' && s[1] == '>';
    hide LineScanner.Literal, RawLiteral, Word, Number, AfterDot;
  }
}
