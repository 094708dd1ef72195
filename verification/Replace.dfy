/** The runtime's string replacement, on C strings: the text up to the first NUL. */
module Replace {
  import opened Wrappers

  predicate NoNul(s: string) {
    forall i | 0 <= i < |s| :: s[i] != '\0'
  }

  /** The pattern is in the text at `i`. */
  predicate OccursAt(s: string, pat: string, i: nat) {
    i + |pat| <= |s| && s[i..i + |pat|] == pat
  }

  /** `strstr`: the first occurrence at `i` or later. */
  method FindFrom(s: string, pat: string, i: nat) returns (r: Option<nat>)
    requires pat != "" && i <= |s|
    ensures r.None? ==> forall j: nat | i <= j :: !OccursAt(s, pat, j)
    ensures r.Some? ==> i <= r.value && OccursAt(s, pat, r.value) && forall j | i <= j < r.value :: !OccursAt(s, pat, j)
  {
    var j := i;
    while j + |pat| <= |s|
      invariant i <= j <= |s| && forall k | i <= k < j :: !OccursAt(s, pat, k)
    {
      if s[j..j + |pat|] == pat {
        return Some(j);
      }
      j := j + 1;
    }
    r := None;
  }

  /** Replacement by one scan from the left: where the pattern stands it is replaced and passed over, and any other
      character is kept. */
  function Replaced(s: string, pat: string, put: string): string
    decreases |s|
  {
    if pat == "" || s == "" then s
    else if pat <= s then put + Replaced(s[|pat|..], pat, put)
    else [s[0]] + Replaced(s[1..], pat, put)
  }

  function Max(a: int, b: int): int {
    if a > b then a else b
  }

  /** Each character read makes room for what is written. */
  lemma {:induction false} ReplacedBound(s: string, pat: string, put: string)
    requires pat != ""
    ensures |Replaced(s, pat, put)| <= |s| * Max(|put|, |pat|)
    decreases |s|
  {
    hide Max;
    var m := Max(|put|, |pat|);
    MaxIs(|put|, |pat|);
    if s != "" {
      var k := if pat <= s then |pat| else 1;
      ReplacedBound(s[k..], pat, put);
      Consumed(|s|, k, m);
    }
  }

  lemma MaxIs(a: int, b: int)
    ensures a <= Max(a, b) && b <= Max(a, b)
  {
  }

  lemma Consumed(n: nat, k: nat, m: nat)
    requires 1 <= k <= n
    ensures (n - k) * m + m <= n * m
  {
    assert n * m == (n - k) * m + k * m;
  }

  lemma PrefixIs(s: string, pat: string, i: nat)
    requires i <= |s|
    ensures pat <= s[i..] <==> OccursAt(s, pat, i)
  {
    var t := s[i..];
    assert i + |pat| <= |s| ==> s[i..i + |pat|] == t[..|pat|];
  }

  /** Up to the first occurrence the scan keeps every character. */
  lemma {:induction false} ScanTo(s: string, pat: string, put: string, i: nat, f: nat)
    requires pat != "" && i <= f <= |s| && forall j | i <= j < f :: !OccursAt(s, pat, j)
    ensures Replaced(s[i..], pat, put) == s[i..f] + Replaced(s[f..], pat, put)
    decreases f - i
  {
    if i < f {
      var t := s[i..];
      PrefixIs(s, pat, i);
      assert t[1..] == s[i + 1..];
      ScanTo(s, pat, put, i + 1, f);
      assert s[i..f] == [s[i]] + s[i + 1..f];
    }
  }

  /** An occurrence is replaced, and the scan goes on behind it. */
  lemma ScanMatch(s: string, pat: string, put: string, f: nat)
    requires pat != "" && OccursAt(s, pat, f)
    ensures Replaced(s[f..], pat, put) == put + Replaced(s[f + |pat|..], pat, put)
  {
    var t := s[f..];
    assert t[..|pat|] == s[f..f + |pat|];
    assert t[|pat|..] == s[f + |pat|..];
  }

  /** The text is changed only where the pattern occurs. */
  lemma ReplacedAbsent(s: string, pat: string, put: string)
    requires pat != "" && forall j: nat :: !OccursAt(s, pat, j)
    ensures Replaced(s, pat, put) == s
  {
    ScanTo(s, pat, put, 0, |s|);
    assert s[0..] == s && s[0..|s|] == s;
  }

  // ----- the pieces between the occurrences -----

  function Joined(ps: seq<string>, sep: string): string {
    if ps == [] then "" else if |ps| == 1 then ps[0] else ps[0] + (sep + Joined(ps[1..], sep))
  }

  ghost predicate NoneBefore(s: string, pat: string, n: nat) {
    forall j: nat | j < n :: !OccursAt(s, pat, j)
  }

  /** Reading from the left, no occurrence of the pattern comes before the one that ends each piece. */
  ghost predicate Leftmost(ps: seq<string>, pat: string) {
    && ps != [] && NoneBefore(ps[|ps| - 1], pat, |ps[|ps| - 1]|)
    && forall i | 0 <= i < |ps| - 1 :: NoneBefore(Joined(ps[i..], pat), pat, |ps[i]|)
  }

  lemma LeftmostRest(ps: seq<string>, pat: string)
    requires Leftmost(ps, pat) && |ps| > 1
    ensures Leftmost(ps[1..], pat)
  {
    hide NoneBefore, Joined;
    forall i | 0 <= i < |ps[1..]| - 1
      ensures NoneBefore(Joined(ps[1..][i..], pat), pat, |ps[1..][i]|)
    {
      assert ps[1..][i..] == ps[i + 1..] && ps[1..][i] == ps[i + 1];
    }
  }

  /** A text is cut at the occurrences that a search from the left finds one behind the other. Replacing is putting the
      new text between the pieces. */
  lemma {:induction false} ReplacedIs(ps: seq<string>, pat: string, put: string)
    requires pat != "" && Leftmost(ps, pat)
    ensures Replaced(Joined(ps, pat), pat, put) == Joined(ps, put)
    decreases |ps|
  {
    hide Replaced, OccursAt;
    if |ps| == 1 {
      NoneBeyond(ps[0], pat);
      ReplacedAbsent(ps[0], pat, put);
    } else {
      LeftmostRest(ps, pat);
      ReplacedIs(ps[1..], pat, put);
      var more := Joined(ps[1..], pat);
      var s, n := Joined(ps, pat), |ps[0]|;
      assert s == ps[0] + (pat + more) && ps[0..] == ps;
      assert s[0..] == s && s[0..n] == ps[0] && s[n..] == pat + more;
      ScanTo(s, pat, put, 0, n);
      StartsThere(s, pat, n, more);
      ScanMatch(s, pat, put, n);
    }
  }

  lemma NoneBeyond(s: string, pat: string)
    requires pat != ""
    ensures forall j: nat | j >= |s| :: !OccursAt(s, pat, j)
  {
  }

  lemma StartsThere(s: string, pat: string, n: nat, more: string)
    requires n <= |s| && s[n..] == pat + more
    ensures OccursAt(s, pat, n) && s[n + |pat|..] == more
  {
    assert s[n..][..|pat|] == pat && s[n..][|pat|..] == more;
    assert s[n..n + |pat|] == s[n..][..|pat|] && s[n + |pat|..] == s[n..][|pat|..];
  }

  lemma LeftmostMore(p: string, ps: seq<string>, pat: string)
    requires Leftmost(ps, pat) && NoneBefore(p + (pat + Joined(ps, pat)), pat, |p|)
    ensures Leftmost([p] + ps, pat) && Joined([p] + ps, pat) == p + (pat + Joined(ps, pat))
  {
    var qs := [p] + ps;
    assert qs[1..] == ps && qs[0..] == qs;
    assert Joined(qs, pat) == p + (pat + Joined(ps, pat));
    hide NoneBefore, Joined;
    forall i | 0 <= i < |qs| - 1
      ensures NoneBefore(Joined(qs[i..], pat), pat, |qs[i]|)
    {
      if i > 0 {
        assert qs[i..] == ps[i - 1..] && qs[i] == ps[i - 1];
      }
    }
  }

  /** The first occurrence at `i` or later, if there is one by `n`. */
  lemma FirstOccurrence(s: string, pat: string, n: nat) returns (f: nat)
    ensures f <= n && NoneBefore(s, pat, f) && (f < n ==> OccursAt(s, pat, f))
  {
    hide OccursAt;
    f := 0;
    while f < n && !OccursAt(s, pat, f)
      invariant f <= n && NoneBefore(s, pat, f)
    {
      f := f + 1;
    }
  }

  /** Every text is cut so. */
  lemma {:induction false} Cut(s: string, pat: string) returns (ps: seq<string>)
    requires pat != ""
    ensures Leftmost(ps, pat) && Joined(ps, pat) == s
    decreases |s|
  {
    var n := FirstOccurrence(s, pat, |s|);
    if n == |s| {
      ps := [s];
    } else {
      var p, more := s[..n], s[n + |pat|..];
      assert s == p + (pat + more);
      ps := Cut(more, pat);
      LeftmostMore(p, ps, pat);
      ps := [p] + ps;
    }
  }

  /** `memcpy` of a string into the buffer. */
  method CopyTo(r: array<char>, at: nat, s: string)
    requires at + |s| <= r.Length
    modifies r
    ensures r[..at + |s|] == old(r[..at]) + s
    ensures forall k | at + |s| <= k < r.Length :: r[k] == old(r[k])
  {
    for k := 0 to |s|
      invariant r[..at + k] == old(r[..at]) + s[..k]
      invariant forall j | at + k <= j < r.Length :: r[j] == old(r[j])
    {
      r[at + k] := s[k];
    }
  }

  /** The text of a buffer: up to the first NUL. */
  ghost predicate Text(b: string, s: string) {
    |s| < |b| && b[..|s|] == s && NoNul(s) && b[|s|] == '\0'
  }

  /** What the buffer is allocated with, without the NUL that ends it. */
  function Room(s: string, pat: string, put: string): nat {
    if pat == "" then |s| else |s| * Max(|put|, |pat|) + 1024
  }

  lemma {:induction false} ReplacedNoNul(s: string, pat: string, put: string)
    requires NoNul(s) && NoNul(put)
    ensures NoNul(Replaced(s, pat, put))
    decreases |s|
  {
    if pat != "" && s != "" {
      if pat <= s {
        ReplacedNoNul(s[|pat|..], pat, put);
      } else {
        ReplacedNoNul(s[1..], pat, put);
      }
    }
  }

  /** Every write is within the buffer, and the text it ends with is the scan's. */
  method StrReplace(s: string, pat: string, put: string) returns (r: array<char>)
    requires NoNul(s) && NoNul(pat) && NoNul(put)
    ensures fresh(r) && r.Length == Room(s, pat, put) + 1
    ensures Text(r[..], Replaced(s, pat, put))
  {
    hide Replaced, Room;
    ReplacedNoNul(s, pat, put);
    RoomFor(s, pat, put);
    r := new char[Room(s, pat, put) + 1](_ => '\0');
    if pat == "" {
      CopyTo(r, 0, s);
      EmptyPattern(s, put);
      assert r[..|s|] == s;
    } else {
      ReplaceInto(r, s, pat, put);
    }
    ghost var n := |Replaced(s, pat, put)|;
    assert r[..][..n] == r[..n];
  }

  lemma RoomFor(s: string, pat: string, put: string)
    ensures |Replaced(s, pat, put)| <= Room(s, pat, put)
    ensures pat == "" ==> Replaced(s, pat, put) == s && Room(s, pat, put) == |s|
  {
    if pat != "" {
      ReplacedBound(s, pat, put);
    }
  }

  lemma Regroup(a: string, b: string, c: string, d: string)
    ensures a + (b + (c + d)) == a + b + c + d
  {
  }

  /** The copying loop: text up to an occurrence, then what replaces it. */
  method ReplaceInto(r: array<char>, s: string, pat: string, put: string)
    requires pat != "" && |Replaced(s, pat, put)| < r.Length && forall k | 0 <= k < r.Length :: r[k] == '\0'
    modifies r
    ensures var n := |Replaced(s, pat, put)|; r[..n] == Replaced(s, pat, put) && r[n] == '\0'
  {
    hide Replaced, OccursAt;
    var p: nat, q: nat := 0, 0;
    assert s[0..] == s;
    while p < |s|
      invariant p <= |s| && q <= |Replaced(s, pat, put)|
      invariant r[..q] + Replaced(s[p..], pat, put) == Replaced(s, pat, put)
      invariant forall k | q <= k < r.Length :: r[k] == '\0'
    {
      ghost var done, rest := r[..q], Replaced(s[p..], pat, put);
      var f := FindFrom(s, pat, p);
      if f.None? {
        ScanTo(s, pat, put, p, |s|);
        EmptyText(s, pat, put);
        CopyTo(r, q, s[p..]);
        p, q := |s|, q + (|s| - p);
      } else {
        OccursWithin(s, pat, f.value);
        ScanTo(s, pat, put, p, f.value);
        ScanMatch(s, pat, put, f.value);
        var kept := s[p..f.value];
        Regroup(done, kept, put, Replaced(s[f.value + |pat|..], pat, put));
        assert rest == kept + (put + Replaced(s[f.value + |pat|..], pat, put));
        CopyTo(r, q, kept);
        q := q + |kept|;
        CopyTo(r, q, put);
        q := q + |put|;
        p := f.value + |pat|;
        assert r[..q] == done + kept + put;
      }
    }
    EmptyText(s, pat, put);
    assert r[..q] == Replaced(s, pat, put);
  }

  lemma EmptyPattern(s: string, put: string)
    ensures Replaced(s, "", put) == s
  {
  }

  lemma EmptyText(s: string, pat: string, put: string)
    ensures s[|s|..] == "" && Replaced(s[|s|..], pat, put) == ""
  {
  }

  lemma OccursWithin(s: string, pat: string, i: nat)
    requires OccursAt(s, pat, i)
    ensures i + |pat| <= |s|
  {
  }
}
