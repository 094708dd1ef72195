/** The runtime's Base64, section 4 of RFC 4648. Shifting and joining disjoint bits is written in arithmetic. */
module Base64 {
  type Byte = x: int | 0 <= x < 256
  type Sextet = x: int | 0 <= x < 64
  type Bytes = seq<Byte>

  const UPPER := "ABCDEFGHIJKLMNOPQRSTUVWXYZ"
  const LOWER := "abcdefghijklmnopqrstuvwxyz"
  const DIGITS := "0123456789"
  const ALPHABET := UPPER + LOWER + DIGITS + "+/"

  lemma Sizes()
    ensures |UPPER| == |LOWER| == 26 && |DIGITS| == 10 && |ALPHABET| == 64
  {
  }

  lemma UpperAt(x: int)
    requires 0 <= x < 26
    ensures |UPPER| == 26 && UPPER[x] == ('A' as int + x) as char
  {
  }

  lemma LowerAt(x: int)
    requires 0 <= x < 26
    ensures |LOWER| == 26 && LOWER[x] == ('a' as int + x) as char
  {
  }

  lemma DigitAt(x: int)
    requires 0 <= x < 10
    ensures |DIGITS| == 10 && DIGITS[x] == ('0' as int + x) as char
  {
  }

  function CharOf(x: Sextet): char {
    Sizes();
    ALPHABET[x]
  }

  /** The decoder's reading of a character: what is not elsewhere in the alphabet counts as the last sextet. */
  function ValueOf(c: char): Sextet {
    if 'A' <= c <= 'Z' then c as int - 'A' as int
    else if 'a' <= c <= 'z' then c as int - 'a' as int + 26
    else if '0' <= c <= '9' then c as int - '0' as int + 52
    else if c == '+' then 62
    else 63
  }

  predicate InAlphabet(c: char) {
    'A' <= c <= 'Z' || 'a' <= c <= 'z' || '0' <= c <= '9' || c == '+' || c == '/'
  }

  lemma CharIs(x: Sextet)
    ensures CharOf(x) ==
      if x < 26 then ('A' as int + x) as char else if x < 52 then ('a' as int + x - 26) as char
      else if x < 62 then ('0' as int + x - 52) as char else if x == 62 then '+' else '/'
  {
    Sizes();
    if x < 26 {
      UpperAt(x);
    } else if x < 52 {
      LowerAt(x - 26);
    } else if x < 62 {
      DigitAt(x - 52);
    }
    hide UPPER, LOWER, DIGITS;
  }

  /** The two tables are inverse to each other. */
  lemma ValueOfChar(x: Sextet)
    ensures ValueOf(CharOf(x)) == x && InAlphabet(CharOf(x))
  {
    hide ALPHABET, CharOf;
    CharIs(x);
  }

  lemma CharOfValue(c: char)
    requires InAlphabet(c)
    ensures CharOf(ValueOf(c)) == c
  {
    hide ALPHABET, CharOf;
    CharIs(ValueOf(c));
  }

  // ----- groups -----

  function First(data: Bytes): (r: Bytes)
    ensures |r| <= 3 && (data != [] ==> r != [])
  {
    if |data| <= 3 then data else data[..3]
  }

  function Rest(data: Bytes): (r: Bytes)
    ensures First(data) + r == data && |r| == if |data| <= 3 then 0 else |data| - 3
  {
    if |data| <= 3 then [] else data[3..]
  }

  /** Up to three bytes as one number of 24 bits. */
  function Joined(data: Bytes): (v: int)
    requires 1 <= |data| <= 3
    ensures 0 <= v < 0x100_0000
  {
    var a: int, b: int, c: int := data[0], if |data| > 1 then data[1] else 0, if |data| > 2 then data[2] else 0;
    a * 65536 + b * 256 + c
  }

  function EncodeGroup(data: Bytes): (r: string)
    requires 1 <= |data| <= 3
    ensures |r| == 4
  {
    var v := Joined(data);
    [CharOf(v / 262144 % 64), CharOf(v / 4096 % 64), if |data| > 1 then CharOf(v / 64 % 64) else '=',
     if |data| > 2 then CharOf(v % 64) else '=']
  }

  function Encoded(data: Bytes): string
    decreases |data|
  {
    if data == [] then "" else EncodeGroup(First(data)) + Encoded(Rest(data))
  }

  /** A missing character, read behind the end of the text, is the NUL. */
  function CharAt(s: string, i: nat): char {
    if i < |s| then s[i] else '\0'
  }

  function Fold(v: int, c: char): int {
    v * 64 + ValueOf(c)
  }

  /** Four characters as one number of 24 bits. */
  function Read(s: string): (v: int)
    ensures 0 <= v < 0x100_0000
  {
    Fold(Fold(Fold(Fold(0, CharAt(s, 0)), CharAt(s, 1)), CharAt(s, 2)), CharAt(s, 3))
  }

  function Three(v: int): (r: Bytes)
    requires 0 <= v < 0x100_0000
    ensures |r| == 3
  {
    [v / 65536, v / 256 % 256, v % 256]
  }

  function Behind(s: string): string {
    if |s| <= 4 then "" else s[4..]
  }

  /** Every group of four characters, as three bytes. */
  function Groups(s: string): Bytes
    decreases |s|
  {
    if s == "" then [] else Three(Read(s)) + Groups(Behind(s))
  }

  lemma {:induction false} GroupsSize(s: string)
    ensures |Groups(s)| == 3 * ((|s| + 3) / 4)
    decreases |s|
  {
    hide Three, Read;
    if s != "" {
      GroupsSize(Behind(s));
    }
  }

  function Decoded(s: string): Bytes {
    GroupsSize(s);
    Groups(s)[..3 * |s| / 4]
  }

  // ----- the loops -----

  /** One group of the encoder, from position `i` to position `j`. */
  method PutGroup(out: array<char>, j: nat, data: Bytes, i: nat)
    requires i < |data| && j + 4 <= out.Length
    modifies out
    ensures out[..j + 4] == old(out[..j]) + EncodeGroup(First(data[i..]))
  {
    hide CharOf;
    var a: int, b: int, c: int :=
      data[i], if i + 1 < |data| then data[i + 1] else 0, if i + 2 < |data| then data[i + 2] else 0;
    var v := a * 65536 + b * 256 + c;
    assert v == Joined(First(data[i..]));
    out[j] := CharOf(v / 262144 % 64);
    out[j + 1] := CharOf(v / 4096 % 64);
    out[j + 2] := if i + 1 < |data| then CharOf(v / 64 % 64) else '=';
    out[j + 3] := if i + 2 < |data| then CharOf(v % 64) else '=';
  }

  method Encode(data: Bytes) returns (out: array<char>)
    ensures fresh(out) && out.Length == 4 * ((|data| + 2) / 3) && out[..] == Encoded(data)
  {
    hide Encoded;
    EncodedSize(data);
    out := new char[4 * ((|data| + 2) / 3)];
    EncodeInto(out, data);
  }

  method EncodeInto(out: array<char>, data: Bytes)
    requires out.Length == |Encoded(data)|
    modifies out
    ensures out[..] == Encoded(data)
  {
    hide Encoded, EncodeGroup, First, Rest, Joined;
    EncodedEnd();
    var i: nat, j: nat := 0, 0;
    ghost var rest := data;
    while i < |data|
      invariant rest == if i < |data| then data[i..] else []
      invariant j + |Encoded(rest)| == out.Length && out[..j] + Encoded(rest) == Encoded(data)
    {
      EncodedStep(rest);
      Regroup(out[..j], EncodeGroup(First(rest)), Encoded(Rest(rest)));
      PutGroup(out, j, data, i);
      RestAt(data, i);
      rest := Rest(rest);
      i, j := i + 3, j + 4;
    }
    assert out[..] == out[..j] + Encoded(rest);
  }

  lemma EncodedEnd()
    ensures Encoded([]) == ""
  {
  }

  lemma EncodedStep(data: Bytes)
    requires data != []
    ensures Encoded(data) == EncodeGroup(First(data)) + Encoded(Rest(data))
  {
  }

  lemma Regroup(a: string, b: string, c: string)
    ensures a + (b + c) == (a + b) + c
  {
  }

  lemma RestAt(data: Bytes, i: nat)
    requires i < |data|
    ensures Rest(data[i..]) == if i + 3 < |data| then data[i + 3..] else []
  {
  }

  lemma {:induction false} EncodedSize(data: Bytes)
    ensures |Encoded(data)| == 4 * ((|data| + 2) / 3)
    decreases |data|
  {
    hide EncodeGroup;
    if data != [] {
      EncodedSize(Rest(data));
      Third(|Rest(data)| + 2);
    }
  }

  function Min(a: nat, b: nat): nat {
    if a < b then a else b
  }

  /** Three bytes, as far as there is room. */
  method PutBytes(out: array<Byte>, start: nat, v: int) returns (j: nat)
    requires start <= out.Length && 0 <= v < 0x100_0000
    modifies out
    ensures j == Min(start + 3, out.Length) && out[..j] == old(out[..start]) + Three(v)[..j - start]
  {
    j := start;
    if j < out.Length {
      out[j] := v / 65536;
      j := j + 1;
    }
    if j < out.Length {
      out[j] := v / 256 % 256;
      j := j + 1;
    }
    if j < out.Length {
      out[j] := v % 256;
      j := j + 1;
    }
  }

  method ReadAt(s: string, i: nat) returns (v: int)
    requires i < |s|
    ensures v == Read(s[i..])
  {
    hide ValueOf, Fold;
    v := 0;
    for k := 0 to 4
      invariant v == FoldTo(s[i..], k)
    {
      v := Fold(v, CharAt(s, i + k));
      FoldMore(s[i..], k);
    }
    FoldAll(s[i..]);
  }

  /** The length leaves the last group at most one character short, so that nothing is read behind the NUL. */
  method Decode(s: string) returns (out: array<Byte>)
    requires |s| % 4 == 0 || |s| % 4 == 3
    ensures fresh(out) && out.Length == 3 * |s| / 4 && out[..] == Decoded(s)
  {
    hide Groups;
    GroupsSize(s);
    out := new Byte[3 * |s| / 4];
    DecodeInto(out, s);
  }

  method DecodeInto(out: array<Byte>, s: string)
    requires out.Length <= |Groups(s)|
    modifies out
    ensures out[..] == Groups(s)[..out.Length]
  {
    hide Three, Read, Groups, Behind;
    var i: nat, j: nat := 0, 0;
    ghost var n: nat, rest, all := 0, s, Groups(s);
    while i < |s|
      invariant n <= |all| && j == Min(n, out.Length)
      invariant rest == if i < |s| then s[i..] else ""
      invariant out[..j] == all[..j] && all[n..] == Groups(rest)
    {
      var v := ReadAt(s, i);
      GroupsStep(rest);
      BehindAt(s, i);
      NextThree(all, n, Three(v), Groups(Behind(rest)));
      j := PutBytes(out, j, v);
      rest := Behind(rest);
      i, n := i + 4, n + 3;
    }
    GroupsEnd();
    assert out[..] == out[..j];
  }

  lemma NextThree(all: Bytes, n: nat, b: Bytes, rest: Bytes)
    requires n <= |all| && all[n..] == b + rest && |b| == 3
    ensures n + 3 <= |all| && all[n + 3..] == rest && all[n..n + 3] == b
  {
  }

  lemma GroupsEnd()
    ensures Groups("") == []
  {
  }

  lemma GroupsStep(s: string)
    requires s != ""
    ensures Groups(s) == Three(Read(s)) + Groups(Behind(s))
  {
  }

  function FoldTo(s: string, k: nat): int {
    if k == 0 then 0 else Fold(FoldTo(s, k - 1), CharAt(s, k - 1))
  }

  lemma FoldMore(s: string, k: nat)
    ensures FoldTo(s, k + 1) == Fold(FoldTo(s, k), CharAt(s, k))
  {
  }

  lemma FoldAll(s: string)
    ensures FoldTo(s, 4) == Read(s)
  {
    hide Fold;
    FoldMore(s, 0);
    FoldMore(s, 1);
    FoldMore(s, 2);
    FoldMore(s, 3);
  }

  lemma BehindAt(s: string, i: nat)
    requires i < |s|
    ensures Behind(s[i..]) == if i + 4 < |s| then s[i + 4..] else ""
  {
  }

  // ----- round trips -----

  /** What the decoder makes of the padding of `n` bytes. */
  function Tail(n: nat): Bytes {
    if n > 3 then Tail(n - 3) else if n == 1 then [0x0F, 0xFF] else if n == 2 then [0x3F] else []
  }

  lemma Third(n: nat)
    ensures (n + 3) / 3 == n / 3 + 1 && (n + 3) % 3 == n % 3
  {
  }

  lemma {:induction false} TailEmpty(n: nat)
    ensures Tail(n) == [] <==> n % 3 == 0
    ensures n + |Tail(n)| == 3 * ((n + 2) / 3)
  {
    if n > 3 {
      TailEmpty(n - 3);
      Third(n - 1);
      Third(n - 3);
    }
  }

  lemma ReadFour(s: string, a: Sextet, b: Sextet, c: Sextet, d: Sextet)
    requires |s| >= 4 && ValueOf(s[0]) == a && ValueOf(s[1]) == b && ValueOf(s[2]) == c && ValueOf(s[3]) == d
    ensures Read(s) == a * 262144 + b * 4096 + c * 64 + d
  {
    hide ValueOf;
  }

  lemma Sextets(v: int)
    requires 0 <= v < 0x100_0000
    ensures v / 262144 % 64 * 262144 + v / 4096 % 64 * 4096 + v / 64 % 64 * 64 + v % 64 == v
  {
  }

  /** The number that is read back from the characters of `n` bytes with the number `v`. */
  function Seen(v: int, n: nat): int {
    v / 262144 % 64 * 262144 + v / 4096 % 64 * 4096 + (if n > 1 then v / 64 % 64 else 63) * 64
    + (if n > 2 then v % 64 else 63)
  }

  lemma SeenIs(v: int)
    requires 0 <= v < 0x100_0000
    ensures Seen(v, 3) == v && (v % 256 == 0 ==> Seen(v, 2) == v + 63) && (v % 65536 == 0 ==> Seen(v, 1) == v + 4095)
  {
    Sextets(v);
    ShortGroup(v);
  }

  lemma ShortGroup(v: int)
    requires 0 <= v < 0x100_0000
    ensures v % 65536 == 0 ==> v / 64 % 64 == 0 && v % 64 == 0
    ensures v % 256 == 0 ==> v % 64 == 0
  {
  }

  lemma ThreeIs(a: Byte, b: Byte, c: Byte, v: int)
    requires v == (a as int) * 65536 + (b as int) * 256 + c
    ensures 0 <= v < 0x100_0000 && Three(v) == [a, b, c]
  {
    Div256((a as int) * 256 + b, c);
    Div256(a, b);
    Div256Twice(v);
  }

  lemma Div256(q: int, r: Byte)
    ensures (q * 256 + r) / 256 == q && (q * 256 + r) % 256 == r
  {
  }

  lemma Div256Twice(v: int)
    requires 0 <= v
    ensures v / 65536 == v / 256 / 256
  {
  }

  /** The four characters of a group, read back. */
  lemma GroupBack(data: Bytes, rest: string)
    requires 1 <= |data| <= 3
    ensures Three(Read(EncodeGroup(data) + rest)) == data + Tail(|data|)
  {
    hide *;
    GroupRead(data, rest);
    JoinedFits(data);
    SeenIs(Joined(data));
    JoinedIs(data);
    TailIs();
    var v := Read(EncodeGroup(data) + rest);
    if |data| == 3 {
      ThreeIs(data[0], data[1], data[2], v);
    } else if |data| == 2 {
      ThreeIs(data[0], data[1], 63, v);
    } else {
      ThreeIs(data[0], 15, 255, v);
    }
  }

  lemma JoinedFits(data: Bytes)
    requires 1 <= |data| <= 3
    ensures 0 <= Joined(data) < 0x100_0000
  {
  }

  lemma TailIs()
    ensures Tail(3) == [] && Tail(2) == [63] && Tail(1) == [15, 255]
  {
  }

  lemma JoinedIs(data: Bytes)
    requires 1 <= |data| <= 3
    ensures |data| == 3 ==> Joined(data) == (data[0] as int) * 65536 + (data[1] as int) * 256 + data[2]
    ensures |data| == 2 ==> Joined(data) == (data[0] as int) * 65536 + (data[1] as int) * 256 && Joined(data) % 256 == 0
    ensures |data| == 1 ==> Joined(data) == (data[0] as int) * 65536 && Joined(data) % 65536 == 0
  {
  }

  lemma Chars(v: int)
    requires 0 <= v < 0x100_0000
    ensures ValueOf(CharOf(v / 262144 % 64)) == v / 262144 % 64 && ValueOf(CharOf(v / 4096 % 64)) == v / 4096 % 64
    ensures ValueOf(CharOf(v / 64 % 64)) == v / 64 % 64 && ValueOf(CharOf(v % 64)) == v % 64
  {
    hide ValueOf, CharOf;
    ValueOfChar(v / 262144 % 64);
    ValueOfChar(v / 4096 % 64);
    ValueOfChar(v / 64 % 64);
    ValueOfChar(v % 64);
  }

  lemma GroupRead(data: Bytes, rest: string)
    requires 1 <= |data| <= 3
    ensures Read(EncodeGroup(data) + rest) == Seen(Joined(data), |data|)
  {
    hide ValueOf, CharOf, Read, Joined;
    var v := Joined(data);
    Chars(v);
    PadIsLast();
    var c, d := if |data| > 1 then v / 64 % 64 else 63, if |data| > 2 then v % 64 else 63;
    ReadFour(EncodeGroup(data) + rest, v / 262144 % 64, v / 4096 % 64, c, d);
  }

  lemma PadIsLast()
    ensures ValueOf('=') == 63
  {
  }

  lemma Behind4(g: string, rest: string)
    requires |g| == 4
    ensures Behind(g + rest) == rest
  {
  }

  lemma TailStep(n: nat)
    ensures n > 3 ==> Tail(n) == Tail(n - 3)
    ensures Tail(0) == Tail(3) == []
  {
  }

  lemma Parts(data: Bytes)
    requires data != []
    ensures 1 <= |First(data)| && |First(data)| == if |data| <= 3 then |data| else 3
  {
  }

  lemma {:induction false} GroupsBack(data: Bytes)
    ensures Groups(Encoded(data)) == data + Tail(|data|)
    decreases |data|
  {
    hide *;
    EncodedEnd();
    GroupsEnd();
    TailStep(|data|);
    if data != [] {
      var g, rest := First(data), Rest(data);
      Parts(data);
      EncodedStep(data);
      GroupsStep(Encoded(data));
      GroupBack(g, Encoded(rest));
      Behind4(EncodeGroup(g), Encoded(rest));
      GroupsBack(rest);
      assert data + Tail(|data|) == (g + Tail(|g|)) + (rest + Tail(|rest|));
    }
  }

  /** Decoding what was encoded gives the bytes back, followed by what the padding is read as. */
  lemma DecodeEncode(data: Bytes)
    ensures Decoded(Encoded(data)) == data + Tail(|data|)
  {
    hide Encoded, Groups, Tail;
    GroupsBack(data);
    EncodedSize(data);
    TailEmpty(|data|);
  }

  /** So it gives exactly the bytes when there is no padding, and only then. */
  lemma DecodeEncodeExact(data: Bytes)
    ensures data <= Decoded(Encoded(data))
    ensures Decoded(Encoded(data)) == data <==> |data| % 3 == 0
  {
    hide Encoded, Decoded, Tail;
    DecodeEncode(data);
    TailEmpty(|data|);
  }

  /** No two byte strings of the same length are encoded alike. */
  lemma EncodedInjective(x: Bytes, y: Bytes)
    requires |x| == |y| && Encoded(x) == Encoded(y)
    ensures x == y
  {
    hide Encoded, Decoded;
    DecodeEncodeExact(x);
    DecodeEncodeExact(y);
  }

  lemma JoinedThree(v: int)
    requires 0 <= v < 0x100_0000
    ensures Joined(Three(v)) == v
  {
  }

  lemma EncodeThree(v: int)
    requires 0 <= v < 0x100_0000
    ensures EncodeGroup(Three(v))
      == [CharOf(v / 262144 % 64), CharOf(v / 4096 % 64), CharOf(v / 64 % 64), CharOf(v % 64)]
  {
    hide CharOf, Three, Joined;
    JoinedThree(v);
  }

  lemma FourBack(a: Sextet, b: Sextet, c: Sextet, d: Sextet)
    ensures var v := a * 262144 + b * 4096 + c * 64 + d;
      0 <= v < 0x100_0000 && v / 262144 % 64 == a && v / 4096 % 64 == b && v / 64 % 64 == c && v % 64 == d
  {
    var x, y := a * 64 + b, (a * 64 + b) * 64 + c;
    Div64(a, b);
    Div64(x, c);
    Div64(y, d);
    Div64Again(y * 64 + d);
  }

  lemma Div64(q: int, r: Sextet)
    ensures (q * 64 + r) / 64 == q && (q * 64 + r) % 64 == r
  {
  }

  lemma Div64Again(v: int)
    requires 0 <= v
    ensures v / 4096 == v / 64 / 64 && v / 262144 == v / 64 / 64 / 64
  {
  }

  /** The characters of a group, written again. */
  lemma GroupAgain(s: string)
    requires |s| >= 4 && forall i | 0 <= i < 4 :: InAlphabet(s[i])
    ensures EncodeGroup(Three(Read(s))) == s[..4]
  {
    hide ValueOf, CharOf, Three, Read, EncodeGroup, InAlphabet;
    var a, b, c, d := ValueOf(s[0]), ValueOf(s[1]), ValueOf(s[2]), ValueOf(s[3]);
    ReadFour(s, a, b, c, d);
    FourBack(a, b, c, d);
    EncodeThree(Read(s));
    CharOfValue(s[0]);
    CharOfValue(s[1]);
    CharOfValue(s[2]);
    CharOfValue(s[3]);
  }

  lemma DecodedWhole(s: string)
    requires |s| % 4 == 0
    ensures Decoded(s) == Groups(s)
  {
    hide Groups;
    GroupsSize(s);
  }

  lemma FirstThree(g: Bytes, rest: Bytes)
    requires |g| == 3
    ensures First(g + rest) == g && Rest(g + rest) == rest
  {
  }

  lemma {:induction false} GroupsAgain(s: string)
    requires |s| % 4 == 0 && forall i | 0 <= i < |s| :: InAlphabet(s[i])
    ensures Encoded(Groups(s)) == s
    decreases |s|
  {
    hide ValueOf, CharOf, Three, Read, EncodeGroup, InAlphabet, Encoded, Groups, First, Rest;
    GroupsEnd();
    EncodedEnd();
    if s != "" {
      var g := Three(Read(s));
      GroupsStep(s);
      GroupsAgain(Behind(s));
      EncodedStep(Groups(s));
      FirstThree(g, Groups(Behind(s)));
      GroupAgain(s);
      assert s == s[..4] + Behind(s);
    }
  }

  /** And encoding what was decoded gives the text back, for text in the alphabet without padding. */
  lemma EncodeDecode(s: string)
    requires |s| % 4 == 0 && forall i | 0 <= i < |s| :: InAlphabet(s[i])
    ensures Encoded(Decoded(s)) == s
  {
    hide *;
    DecodedWhole(s);
    GroupsAgain(s);
  }
}
