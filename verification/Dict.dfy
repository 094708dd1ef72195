/** The runtime's dictionary: 256 chains of entries on the heap, refining a finite map. */
module Dict {
  import opened Wrappers

  const BUCKETS: nat := 256

  /** `_hash`, in 32-bit unsigned arithmetic. */
  function HashFrom(k: string, h: nat): nat
    decreases |k|
  {
    if k == "" then h else HashFrom(k[1..], (h * 33 + k[0] as int % 256) % 0x1_0000_0000)
  }

  function Hash(k: string): (h: nat)
    ensures h < BUCKETS
  {
    HashFrom(k, 5381) % BUCKETS
  }

  // ----- what the hash is -----

  /** 5381 and the characters as the digits of a number with the base 33. */
  function Digits(k: string): nat {
    if k == "" then 5381 else 33 * Digits(k[..|k| - 1]) + k[|k| - 1] as int % 256
  }

  lemma {:induction false} HashLast(k: string, c: char, h: nat)
    ensures HashFrom(k + [c], h) == (HashFrom(k, h) * 33 + c as int % 256) % 0x1_0000_0000
    decreases |k|
  {
    if k == "" {
      assert k + [c] == [c] && [c][1..] == "";
    } else {
      assert (k + [c])[1..] == k[1..] + [c];
      HashLast(k[1..], c, (h * 33 + k[0] as int % 256) % 0x1_0000_0000);
    }
  }

  lemma Wraps(a: nat, b: nat, x: nat)
    requires a == b % 0x1_0000_0000
    ensures (a * 33 + x) % 0x1_0000_0000 == (33 * b + x) % 0x1_0000_0000
  {
    var q := b / 0x1_0000_0000;
    assert 33 * b + x == (33 * q) * 0x1_0000_0000 + (a * 33 + x);
    WrapsAdd(33 * q, a * 33 + x);
  }

  lemma {:induction false} WrapsAdd(q: nat, r: nat)
    ensures (q * 0x1_0000_0000 + r) % 0x1_0000_0000 == r % 0x1_0000_0000
  {
  }

  lemma {:induction false} HashWraps(k: string)
    ensures HashFrom(k, 5381) == Digits(k) % 0x1_0000_0000
    decreases |k|
  {
    hide HashFrom;
    if k == "" {
      HashNone();
    } else {
      var n := |k| - 1;
      HashWraps(k[..n]);
      assert k == k[..n] + [k[n]];
      HashLast(k[..n], k[n], 5381);
      Wraps(HashFrom(k[..n], 5381), Digits(k[..n]), k[n] as int % 256);
    }
  }

  lemma HashNone()
    ensures HashFrom("", 5381) == 5381
  {
  }

  lemma LowByte(b: nat)
    ensures b % 0x1_0000_0000 % 256 == b % 256
  {
    var q, r := b / 0x1_0000_0000, b % 0x1_0000_0000;
    assert b == (q * 0x100_0000) * 256 + r;
    ByteAdd(q * 0x100_0000, r);
  }

  lemma ByteAdd(q: nat, r: nat)
    ensures (q * 256 + r) % 256 == r % 256
  {
  }

  /** Without the wrapping: the bucket is the exact number modulo 256. */
  lemma HashIs(k: string)
    ensures Hash(k) == Digits(k) % 256
  {
    HashWraps(k);
    hide HashFrom, Digits;
    LowByte(Digits(k));
  }

  /** What an entry holds: the string and the integer last set, and which of them counts. A string that was never set
      is `None`; an integer that was never set is not initialized, and is `None` here. */
  datatype Slot = Slot(val: Option<string>, ival: Option<int>, isInt: bool)

  datatype Value = Str(s: string) | Num(n: int)

  /** A slot whose current kind has a value. */
  predicate Sound(s: Slot) {
    if s.isInt then s.ival.Some? else s.val.Some?
  }

  function Current(s: Slot): Value
    requires Sound(s)
  {
    if s.isInt then Num(s.ival.value) else Str(s.val.value)
  }

  type Contents = map<string, Slot>

  ghost predicate AllSound(m: Contents) {
    forall k <- m :: Sound(m[k])
  }

  /** The map as a caller sees it. */
  ghost function Values(m: Contents): map<string, Value>
    requires AllSound(m)
  {
    map k <- m :: Current(m[k])
  }

  class DictEntry {
    const key: string
    var val: Option<string>
    var ival: int
    var isInt: bool
    var next: DictEntry?

    constructor (key: string, val: Option<string>, ival: int, isInt: bool, next: DictEntry?)
      ensures this.key == key && this.val == val && this.ival == ival && this.isInt == isInt && this.next == next
    {
      this.key := key;
      this.val := val;
      this.ival := ival;
      this.isInt := isInt;
      this.next := next;
    }

    /** The entry as it is now. */
    ghost function Now(): Fields
      reads this
    {
      Fields(key, val, ival, isInt, next)
    }
  }

  datatype Fields = Fields(key: string, val: Option<string>, ival: int, isInt: bool, next: DictEntry?)

  ghost predicate Holds(f: Fields, s: Slot) {
    f.val == s.val && f.isInt == s.isInt && (s.ival.Some? ==> f.ival == s.ival.value)
  }

  type Chain = seq<DictEntry>

  ghost function At(c: Chain, i: nat): DictEntry? {
    if i < |c| then c[i] else null
  }

  lemma AtIs(c: Chain, i: nat)
    ensures At(c, i) == if i < |c| then c[i] else null
  {
  }

  /** The entries of a chain as they are now. */
  ghost function Shot(c: Chain): (fs: seq<Fields>)
    reads c
    ensures |fs| == |c| && forall i | 0 <= i < |c| :: fs[i] == c[i].Now()
  {
    seq(|c|, i requires 0 <= i < |c| reads c => c[i].Now())
  }

  /** The chain `c` with fields `fs` hangs from `head`: each entry is followed by the next, every key is in the
      bucket of its hash and no key is there twice, and each entry holds what the contents `m` say. */
  ghost predicate Good(head: DictEntry?, c: Chain, fs: seq<Fields>, b: nat, m: Contents) {
    && |fs| == |c| && head == At(c, 0)
    && (forall i | 0 <= i < |c| :: fs[i].next == At(c, i + 1))
    && (forall i | 0 <= i < |c| :: fs[i].key == c[i].key && Hash(fs[i].key) == b)
    && (forall i, j | 0 <= i < j < |c| :: fs[i].key != fs[j].key)
    && (forall i | 0 <= i < |c| :: fs[i].key in m && Holds(fs[i], m[fs[i].key]))
  }

  ghost predicate HasKey(c: Chain, k: string) {
    exists i | 0 <= i < |c| :: c[i].key == k
  }

  /** A key of another chain, or a new one, makes no difference. */
  lemma GoodOther(head: DictEntry?, c: Chain, fs: seq<Fields>, b: nat, m: Contents, k: string, s: Slot)
    requires Good(head, c, fs, b, m) && (Hash(k) != b || k !in m)
    ensures Good(head, c, fs, b, m[k := s])
  {
    hide Hash, At;
    forall i | 0 <= i < |c|
      ensures fs[i].key in m[k := s] && Holds(fs[i], m[k := s][fs[i].key])
    {
      assert fs[i].key != k;
    }
  }

  /** A new entry in front. */
  lemma GoodCons(e: DictEntry, f: Fields, c: Chain, fs: seq<Fields>, b: nat, m: Contents, s: Slot)
    requires Good(f.next, c, fs, b, m) && f.key == e.key && f.key !in m && Hash(f.key) == b && Holds(f, s)
    ensures Good(e, [e] + c, [f] + fs, b, m[f.key := s])
  {
    hide Hash, Holds, At;
    var d, gs := [e] + c, [f] + fs;
    assert forall i | 0 < i < |d| :: d[i] == c[i - 1] && gs[i] == fs[i - 1];
    AtIs(d, 0);
    forall i | 0 <= i < |d|
      ensures gs[i].next == At(d, i + 1) && gs[i].key == d[i].key && Hash(gs[i].key) == b
      ensures gs[i].key in m[f.key := s] && Holds(gs[i], m[f.key := s][gs[i].key])
    {
      AtIs(d, i + 1);
      if i > 0 {
        AtIs(c, i);
        assert fs[i - 1].next == At(c, i) && fs[i - 1].key in m;
      } else {
        AtIs(c, 0);
      }
    }
    forall i, j | 0 <= i < j < |d|
      ensures gs[i].key != gs[j].key
    {
      assert fs[j - 1].key in m;
    }
  }

  /** Entry `i` takes a new slot. */
  lemma GoodUpdate(head: DictEntry?, c: Chain, fs: seq<Fields>, b: nat, m: Contents, i: nat, f: Fields, s: Slot)
    requires Good(head, c, fs, b, m) && i < |c| && f.key == fs[i].key && f.next == fs[i].next && Holds(f, s)
    ensures Good(head, c, fs[i := f], b, m[f.key := s])
  {
    hide Hash, At;
    var gs := fs[i := f];
    forall j | 0 <= j < |c|
      ensures gs[j].key in m[f.key := s] && Holds(gs[j], m[f.key := s][gs[j].key])
    {
      if j != i {
        assert fs[j].key != fs[i].key;
      }
    }
  }

  /** An entry out of the chain. */
  lemma GoodRemove(head: DictEntry?, c: Chain, fs: seq<Fields>, b: nat, m: Contents, i: nat, head': DictEntry?,
                   gs: seq<Fields>)
    requires Good(head, c, fs, b, m) && i < |c| && |gs| == |c|
    requires forall j | 0 <= j < |c| && j + 1 != i :: gs[j] == fs[j]
    requires if i == 0 then head' == fs[0].next else head' == head && gs[i - 1] == fs[i - 1].(next := fs[i].next)
    ensures Good(head', c[..i] + c[i + 1..], gs[..i] + gs[i + 1..], b, m - {fs[i].key})
  {
    hide Hash, Holds, At;
    var d, hs := c[..i] + c[i + 1..], gs[..i] + gs[i + 1..];
    RemoveLinks(head, c, fs, i, head', gs);
    RemoveKeyed(c, fs, d, hs, b, i, gs);
    RemoveAgrees(c, fs, m, i, gs);
  }

  lemma RemoveLinks(head: DictEntry?, c: Chain, fs: seq<Fields>, i: nat, head': DictEntry?, gs: seq<Fields>)
    requires |fs| == |c| == |gs| && i < |c| && head == At(c, 0) && forall j | 0 <= j < |c| :: fs[j].next == At(c, j + 1)
    requires forall j | 0 <= j < |c| && j + 1 != i :: gs[j] == fs[j]
    requires if i == 0 then head' == fs[0].next else head' == head && gs[i - 1] == fs[i - 1].(next := fs[i].next)
    ensures var d, hs := c[..i] + c[i + 1..], gs[..i] + gs[i + 1..];
      head' == At(d, 0) && forall j | 0 <= j < |d| :: hs[j].next == At(d, j + 1)
  {
    hide At;
    var d, hs := c[..i] + c[i + 1..], gs[..i] + gs[i + 1..];
    AtIs(c, 0);
    AtIs(c, i + 1);
    AtIs(d, 0);
    forall j | 0 <= j < |d|
      ensures hs[j].next == At(d, j + 1)
    {
      AtIs(c, j + 1);
      AtIs(c, j + 2);
      AtIs(d, j + 1);
      if j + 1 < i {
        assert hs[j] == fs[j];
      } else if j + 1 == i {
        assert hs[j] == gs[j];
      } else {
        assert hs[j] == fs[j + 1];
      }
    }
  }

  lemma RemoveAgrees(c: Chain, fs: seq<Fields>, m: Contents, i: nat, gs: seq<Fields>)
    requires |fs| == |c| == |gs| && i < |c| && forall j, k | 0 <= j < k < |c| :: fs[j].key != fs[k].key
    requires forall j | 0 <= j < |c| :: fs[j].key in m && Holds(fs[j], m[fs[j].key])
    requires forall j | 0 <= j < |c| && j != i :: gs[j] == fs[j].(next := gs[j].next)
    ensures var hs, m' := gs[..i] + gs[i + 1..], m - {fs[i].key};
      forall j | 0 <= j < |hs| :: hs[j].key in m' && Holds(hs[j], m'[hs[j].key])
  {
    hide Holds, At;
    var hs, m' := gs[..i] + gs[i + 1..], m - {fs[i].key};
    forall j | 0 <= j < |hs|
      ensures hs[j].key in m' && Holds(hs[j], m'[hs[j].key])
    {
      var o := if j < i then j else j + 1;
      assert hs[j] == gs[o] && fs[o].key != fs[i].key;
      HoldsNext(gs[o], fs[o], m[fs[o].key]);
    }
  }

  /** The link of an entry has no part in what it holds. */
  lemma HoldsNext(g: Fields, f: Fields, s: Slot)
    requires Holds(f, s) && g == f.(next := g.next)
    ensures Holds(g, s)
  {
  }

  lemma RemoveKeyed(c: Chain, fs: seq<Fields>, d: Chain, hs: seq<Fields>, b: nat, i: nat, gs: seq<Fields>)
    requires |fs| == |c| == |gs| && i < |c| && d == c[..i] + c[i + 1..] && hs == gs[..i] + gs[i + 1..]
    requires forall j | 0 <= j < |c| :: fs[j].key == c[j].key && Hash(fs[j].key) == b
    requires forall j | 0 <= j < |c| && j != i :: gs[j].key == fs[j].key
    requires forall j, k | 0 <= j < k < |c| :: fs[j].key != fs[k].key
    ensures forall j | 0 <= j < |d| :: hs[j].key == d[j].key && Hash(hs[j].key) == b
    ensures forall j, k | 0 <= j < k < |d| :: hs[j].key != hs[k].key
  {
    hide Hash, At;
  }

  lemma GoodWithout(head: DictEntry?, c: Chain, fs: seq<Fields>, b: nat, m: Contents, k: string)
    requires Good(head, c, fs, b, m) && Hash(k) != b
    ensures Good(head, c, fs, b, m - {k})
  {
    hide Hash, Holds, At;
    forall i | 0 <= i < |c|
      ensures fs[i].key in m - {k} && Holds(fs[i], (m - {k})[fs[i].key])
    {
      assert fs[i].key != k;
    }
  }

  lemma ShotRemove(c: Chain, i: nat)
    requires i < |c|
    ensures Shot(c[..i] + c[i + 1..]) == Shot(c)[..i] + Shot(c)[i + 1..]
  {
  }

  lemma WasKey(head: DictEntry?, c: Chain, fs: seq<Fields>, b: nat, m: Contents, i: nat)
    requires Good(head, c, fs, b, m) && i < |c|
    ensures i < |fs| && fs[i].key == c[i].key
  {
  }

  lemma ShotCons(e: DictEntry, c: Chain)
    ensures Shot([e] + c) == [e.Now()] + Shot(c)
  {
  }

  lemma Fits(f: Fields, s: Slot)
    requires f.val == s.val && f.isInt == s.isInt && (s.ival.Some? ==> f.ival == s.ival.value)
    ensures Holds(f, s)
  {
  }

  lemma SoundMore(m: Contents, k: string, s: Slot)
    requires AllSound(m) && Sound(s)
    ensures AllSound(m[k := s]) && |m[k := s]| == |m| + if k in m then 0 else 1
  {
    assert m[k := s].Keys == m.Keys + {k};
  }

  lemma SoundLess(m: Contents, k: string)
    requires AllSound(m) && k in m
    ensures AllSound(m - {k}) && |m - {k}| == |m| - 1
  {
    assert (m - {k}).Keys == m.Keys - {k};
  }

  /** Every key is still found after an entry was put in front of its chain. */
  lemma ConsKeys(chains: seq<Chain>, m: Contents, h: nat, e: DictEntry, k: string, s: Slot)
    requires |chains| == BUCKETS && h == Hash(k) && e.key == k
    requires forall x <- m :: HasKey(chains[Hash(x)], x)
    ensures forall x <- m[k := s] :: HasKey(chains[h := [e] + chains[h]][Hash(x)], x)
  {
    var after := chains[h := [e] + chains[h]];
    hide Hash, At;
    forall x <- m[k := s]
      ensures HasKey(after[Hash(x)], x)
    {
      if x == k {
        assert after[h][0].key == k;
      } else {
        var i :| 0 <= i < |chains[Hash(x)]| && chains[Hash(x)][i].key == x;
        assert Hash(x) == h ==> after[h][i + 1].key == x;
      }
    }
  }

  /** And after the entry of another key was taken out. */
  lemma RemoveKeys(chains: seq<Chain>, m: Contents, h: nat, i: nat, k: string)
    requires |chains| == BUCKETS && h == Hash(k) && i < |chains[h]| && chains[h][i].key == k
    requires forall x <- m :: HasKey(chains[Hash(x)], x)
    ensures forall x <- m - {k} :: HasKey(chains[h := chains[h][..i] + chains[h][i + 1..]][Hash(x)], x)
  {
    var d := chains[h][..i] + chains[h][i + 1..];
    hide Hash, At;
    forall x <- m - {k}
      ensures HasKey(chains[h := d][Hash(x)], x)
    {
      var j :| 0 <= j < |chains[Hash(x)]| && chains[Hash(x)][j].key == x;
      if Hash(x) == h {
        assert d[if j < i then j else j - 1].key == x;
      }
    }
  }

  /** Every visited key once, from the first `b` chains. */
  ghost function KeyList(chains: seq<Chain>, b: nat): (ks: seq<string>)
    requires b <= |chains|
  {
    if b == 0 then [] else KeyList(chains, b - 1) + KeysOf(chains[b - 1])
  }

  lemma KeyListStep(chains: seq<Chain>, b: nat)
    ensures KeyList(chains, 0) == []
    ensures b < |chains| ==> KeyList(chains, b + 1) == KeyList(chains, b) + KeysOf(chains[b])
  {
  }

  ghost function KeysOf(c: Chain): (ks: seq<string>)
    ensures |ks| == |c| && forall i | 0 <= i < |c| :: ks[i] == c[i].key
  {
    seq(|c|, i requires 0 <= i < |c| => c[i].key)
  }

  ghost predicate Distinct(ks: seq<string>) {
    forall i, j | 0 <= i < j < |ks| :: ks[i] != ks[j]
  }

  ghost function SetOf(ks: seq<string>): set<string> {
    set k <- ks
  }

  lemma NewKey(ks: seq<string>, i: nat)
    requires Distinct(ks) && i < |ks|
    ensures ks[i] !in SetOf(ks[..i]) && ks[i] in SetOf(ks)
  {
  }

  lemma {:induction false} DistinctSize(ks: seq<string>)
    requires Distinct(ks)
    ensures |SetOf(ks)| == |ks|
    decreases |ks|
  {
    if ks != [] {
      var n := |ks| - 1;
      DistinctSize(ks[..n]);
      assert SetOf(ks) == SetOf(ks[..n]) + {ks[n]};
    }
  }

  /** What `set` leaves for a key. */
  function WithString(m: Contents, k: string, v: string): Slot {
    Slot(Some(v), if k in m then m[k].ival else None, false)
  }

  /** What `set_int` leaves for a key. */
  function WithInt(m: Contents, k: string, v: int): Slot {
    Slot(if k in m then m[k].val else None, Some(v), true)
  }

  /** What `update` leaves for a key, from a source slot: its current kind only. */
  function Given(m: Contents, k: string, s: Slot): Slot
    requires Sound(s)
  {
    if s.isInt then WithInt(m, k, s.ival.value) else WithString(m, k, s.val.value)
  }

  lemma ValuesMore(m: Contents, k: string, s: Slot)
    requires AllSound(m) && Sound(s)
    ensures AllSound(m[k := s]) && Values(m[k := s]) == Values(m)[k := Current(s)]
  {
  }

  lemma ValuesLess(m: Contents, k: string)
    requires AllSound(m)
    ensures AllSound(m - {k}) && Values(m - {k}) == Values(m) - {k}
  {
  }

  /** `m` with the keys in `ks` taken over from `src`. */
  ghost function Taken(m: Contents, src: Contents, ks: set<string>): Contents
    requires AllSound(src) && ks <= src.Keys
  {
    map k | k in m.Keys + ks :: if k in ks then Given(m, k, src[k]) else m[k]
  }

  lemma TakenOne(m: Contents, src: Contents, ks: set<string>, k: string)
    requires AllSound(m) && AllSound(src) && ks <= src.Keys && k in src && k !in ks
    ensures Taken(m, src, ks)[k := Given(Taken(m, src, ks), k, src[k])] == Taken(m, src, ks + {k})
    ensures AllSound(Taken(m, src, ks))
  {
    var t := Taken(m, src, ks);
    assert Given(t, k, src[k]) == Given(m, k, src[k]);
    assert t[k := Given(t, k, src[k])].Keys == Taken(m, src, ks + {k}).Keys;
  }

  lemma NoValues()
    ensures AllSound(map[]) && Values(map[]) == map[]
  {
  }

  lemma TakenNone(m: Contents, src: Contents)
    requires AllSound(src)
    ensures SetOf([]) == {} && Taken(m, src, SetOf([])) == m
  {
  }

  lemma TakenValues(m: Contents, src: Contents)
    requires AllSound(m) && AllSound(src)
    ensures AllSound(Taken(m, src, src.Keys))
    ensures Values(Taken(m, src, src.Keys)) == Values(m) + Values(src)
  {
  }

  /** Each entry of the chain that hangs from `head` is followed by the next. */
  ghost predicate Linked(head: DictEntry?, c: Chain)
    reads c
  {
    head == At(c, 0) && forall i | 0 <= i < |c| :: c[i].next == At(c, i + 1)
  }

  /** The walk along a chain up to a key, keeping the entry before the one it looks at. */
  method Walk(head: DictEntry?, k: string, ghost c: Chain) returns (prev: DictEntry?, e: DictEntry?, ghost i: nat)
    requires Linked(head, c)
    ensures if e == null then forall j | 0 <= j < |c| :: c[j].key != k else i < |c| && e == c[i] && e.key == k
    ensures e != null ==> prev == if i == 0 then null else c[i - 1]
  {
    hide At;
    prev, e, i := null, head, 0;
    while e != null
      invariant i <= |c| && e == At(c, i) && prev == if i == 0 then null else c[i - 1]
      invariant forall j | 0 <= j < i :: c[j].key != k
      decreases |c| - i
    {
      AtIs(c, i);
      if e.key == k {
        return;
      }
      prev, e := e, e.next;
      i := i + 1;
    }
    AtIs(c, i);
  }

  class PyccDict {
    const buckets: array<DictEntry?>
    var len: int
    ghost var chains: seq<Chain>
    ghost var repr: set<DictEntry>
    ghost var contents: Contents

    ghost predicate ChainOk(b: nat)
      requires b < buckets.Length && b < |chains|
      reads this, buckets, repr
    {
      (forall e <- chains[b] :: e in repr) && Good(buckets[b], chains[b], Shot(chains[b]), b, contents)
    }

    ghost predicate Valid()
      reads this, buckets, repr
    {
      && buckets.Length == BUCKETS && |chains| == BUCKETS
      && (forall b | 0 <= b < BUCKETS :: ChainOk(b))
      && (forall k <- contents :: HasKey(chains[Hash(k)], k))
      && AllSound(contents)
      && len == |contents|
    }

    constructor ()
      ensures Valid() && contents == map[] && fresh(buckets) && fresh(repr)
    {
      buckets := new DictEntry?[BUCKETS](_ => null);
      len := 0;
      chains := seq(BUCKETS, _ => []);
      repr := {};
      contents := map[];
    }

    /** What a walk along a chain relies on. */
    lemma ChainFacts(b: nat)
      requires Valid() && b < BUCKETS
      ensures buckets.Length == |chains| == BUCKETS && Linked(buckets[b], chains[b])
    {
      hide Hash, HasKey, AllSound, At;
      assert ChainOk(b);
      forall i | 0 <= i < |chains[b]|
        ensures chains[b][i].next == At(chains[b], i + 1)
      {
        assert Shot(chains[b])[i] == chains[b][i].Now();
      }
    }

    lemma EntryFacts(b: nat, i: nat)
      requires Valid() && b < BUCKETS && i < |chains[b]|
      ensures var e := chains[b][i];
        e in repr && e.key in contents && Hash(e.key) == b && Holds(e.Now(), contents[e.key])
    {
      hide Hash, Holds, HasKey, AllSound, At;
      assert ChainOk(b);
      assert Shot(chains[b])[i] == chains[b][i].Now();
    }

    lemma AllGood()
      requires Valid()
      ensures forall b | 0 <= b < BUCKETS ::
        (forall e <- chains[b] :: e in repr) && Good(buckets[b], chains[b], Shot(chains[b]), b, contents)
    {
      hide Good, Hash, HasKey, AllSound, Shot, At;
      forall b | 0 <= b < BUCKETS
        ensures (forall e <- chains[b] :: e in repr) && Good(buckets[b], chains[b], Shot(chains[b]), b, contents)
      {
        assert ChainOk(b);
      }
    }

    lemma NotThere(k: string)
      requires Valid() && forall j | 0 <= j < |chains[Hash(k)]| :: chains[Hash(k)][j].key != k
      ensures k !in contents
    {
      hide Hash, Good, AllSound, At, ChainOk;
      assert !HasKey(chains[Hash(k)], k);
    }

    /** The entry of a key, and the one before it in its chain. */
    method Find(k: string) returns (prev: DictEntry?, e: DictEntry?, ghost i: nat)
      requires Valid()
      ensures e == null <==> k !in contents
      ensures e != null ==> i < |chains[Hash(k)]| && e == chains[Hash(k)][i] && e.key == k && e in repr
      ensures e != null ==> Holds(e.Now(), contents[k])
      ensures e != null ==> prev == if i == 0 then null else chains[Hash(k)][i - 1]
    {
      hide *;
      ChainFacts(Hash(k));
      prev, e, i := Walk(buckets[Hash(k)], k, chains[Hash(k)]);
      if e == null {
        NotThere(k);
      } else {
        EntryFacts(Hash(k), i);
      }
    }

    /** The writes of an insertion: a new entry at the head of its chain. */
    method Link(k: string, val: Option<string>, ival: int, isInt: bool, ghost s: Slot) returns (e: DictEntry)
      requires buckets.Length == BUCKETS && |chains| == BUCKETS
      modifies this, buckets
      ensures fresh(e) && e.key == k && e.val == val && e.ival == ival && e.isInt == isInt
      ensures e.next == old(buckets[Hash(k)]) && buckets[Hash(k)] == e
      ensures forall b | 0 <= b < BUCKETS && b != Hash(k) :: buckets[b] == old(buckets[b])
      ensures len == old(len) + 1 && repr == old(repr) + {e} && contents == old(contents)[k := s]
      ensures chains == old(chains)[Hash(k) := [e] + old(chains)[Hash(k)]]
    {
      var h := Hash(k);
      e := new DictEntry(k, val, ival, isInt, buckets[h]);
      buckets[h] := e;
      len := len + 1;
      chains := chains[h := [e] + chains[h]];
      repr := repr + {e};
      contents := contents[k := s];
    }

    method Insert(k: string, val: Option<string>, ival: int, isInt: bool, ghost s: Slot)
      requires Valid() && k !in contents && Sound(s)
      requires val == s.val && isInt == s.isInt && (s.ival.Some? ==> ival == s.ival.value)
      modifies this, buckets
      ensures Valid() && contents == old(contents)[k := s] && fresh(repr - old(repr)) && old(repr) <= repr
    {
      hide Good, Hash, HasKey, AllSound, Holds, Sound, At;
      var e := Link(k, val, ival, isInt, s);
      forall b | 0 <= b < BUCKETS
        ensures ChainOk(b)
      {
        assert old(ChainOk(b));
        assert Shot(old(chains)[b]) == old(Shot(chains[b]));
        InsertedChain(b, old(buckets[b]), old(chains)[b], old(contents), e, k, s);
      }
      ConsKeys(old(chains), old(contents), Hash(k), e, k, s);
      SoundMore(old(contents), k, s);
    }

    /** A chain after the insertion of `e`, from what it was before. */
    lemma InsertedChain(b: nat, head: DictEntry?, c: Chain, m: Contents, e: DictEntry, k: string, s: Slot)
      requires b < buckets.Length && b < |chains| && (forall x <- c :: x in repr) && e in repr
      requires Good(head, c, Shot(c), b, m) && contents == m[k := s] && k !in m && e.key == k
      requires chains[b] == if b == Hash(k) then [e] + c else c
      requires buckets[b] == if b == Hash(k) then e else head
      requires e.val == s.val && e.isInt == s.isInt && (s.ival.Some? ==> e.ival == s.ival.value)
      requires b == Hash(k) ==> e.next == head
      ensures ChainOk(b)
    {
      hide Good, Hash, Holds, At;
      if b == Hash(k) {
        Fits(e.Now(), s);
        GoodCons(e, e.Now(), c, Shot(c), b, m, s);
        ShotCons(e, c);
      } else {
        GoodOther(head, c, Shot(c), b, m, k, s);
      }
    }

    /** The writes of an update. */
    method Overwrite(e: DictEntry, k: string, val: Option<string>, ival: int, isInt: bool, ghost s: Slot)
      modifies e, this`contents
      ensures e.Now() == old(e.Now()).(val := val, ival := ival, isInt := isInt)
      ensures contents == old(contents)[k := s]
    {
      e.val := val;
      e.ival := ival;
      e.isInt := isInt;
      contents := contents[k := s];
    }

    /** An entry that is there takes a new value. */
    method Renew(e: DictEntry, ghost i: nat, k: string, val: Option<string>, ival: int, isInt: bool, ghost s: Slot)
      requires Valid() && k in contents && Sound(s)
      requires i < |chains[Hash(k)]| && e == chains[Hash(k)][i] && e.key == k && e in repr
      requires val == s.val && isInt == s.isInt && (s.ival.Some? ==> ival == s.ival.value)
      modifies e, this`contents
      ensures Valid() && contents == old(contents)[k := s] && repr == old(repr)
    {
      hide Good, Hash, HasKey, AllSound, Holds, Sound, Shot, At;
      OneEntry(e, i);
      Overwrite(e, k, val, ival, isInt, s);
      forall b | 0 <= b < BUCKETS
        ensures ChainOk(b)
      {
        assert old(ChainOk(b));
        ghost var c, was := chains[b], old(Shot(chains[b]));
        forall j | 0 <= j < |c|
          ensures Shot(c)[j] == if b == Hash(k) && j == i then e.Now() else was[j]
        {
          assert (b == Hash(k) && j == i) || c[j] != e;
        }
        UpdatedChain(b, old(Shot(chains[b])), old(contents), e, i, k, s);
      }
      SoundMore(old(contents), k, s);
    }

    /** A chain after an update of `e`, from what it was before. */
    lemma UpdatedChain(b: nat, was: seq<Fields>, m: Contents, e: DictEntry, i: nat, k: string, s: Slot)
      requires b < buckets.Length && b < |chains| && (forall x <- chains[b] :: x in repr)
      requires Good(buckets[b], chains[b], was, b, m) && contents == m[k := s] && e.key == k
      requires b == Hash(k) ==> i < |chains[b]| && e == chains[b][i]
      requires e.val == s.val && e.isInt == s.isInt && (s.ival.Some? ==> e.ival == s.ival.value)
      requires b == Hash(k) ==> e.next == was[i].next
      requires |was| == |chains[b]|
      requires forall j | 0 <= j < |was| :: Shot(chains[b])[j] == if b == Hash(k) && j == i then e.Now() else was[j]
      ensures ChainOk(b)
    {
      hide Good, Hash, Holds, At;
      Fits(e.Now(), s);
      assert Shot(chains[b]) == if b == Hash(k) then was[i := e.Now()] else was;
      if b == Hash(k) {
        WasKey(buckets[b], chains[b], was, b, m, i);
        GoodUpdate(buckets[b], chains[b], was, b, m, i, e.Now(), s);
      } else {
        GoodOther(buckets[b], chains[b], was, b, m, k, s);
      }
    }

    /** The entry is in chain `h`, at `i`, and nowhere else. */
    ghost predicate OnlyAt(e: DictEntry, h: nat, i: nat)
      reads this
    {
      forall b, j | 0 <= b < |chains| && 0 <= j < |chains[b]| && chains[b][j] == e :: b == h && j == i
    }

    lemma OneEntry(e: DictEntry, i: nat)
      requires Valid() && i < |chains[Hash(e.key)]| && e == chains[Hash(e.key)][i]
      ensures OnlyAt(e, Hash(e.key), i)
    {
      hide HasKey, AllSound, At;
      var h := Hash(e.key);
      assert ChainOk(h);
      forall b, j | 0 <= b < |chains| && 0 <= j < |chains[b]| && chains[b][j] == e
        ensures b == h && j == i
      {
        assert ChainOk(b);
        assert Shot(chains[b])[j].key == e.key && Shot(chains[h])[i].key == e.key;
      }
    }

    /** The value goes to the entry of its key, or to a new one, whose integer is not initialized. */
    method Set(k: string, v: string)
      requires Valid()
      modifies this, buckets, repr
      ensures Valid() && fresh(repr - old(repr)) && old(repr) <= repr
      ensures contents == old(contents)[k := WithString(old(contents), k, v)]
      ensures Values(contents) == Values(old(contents))[k := Str(v)]
    {
      hide Good, Hash, HasKey, Values, At;
      ghost var s := WithString(contents, k, v);
      var _, e, i := Find(k);
      ValuesMore(contents, k, s);
      if e != null {
        Renew(e, i, k, Some(v), e.ival, false, s);
      } else {
        var garbage: int := *;
        Insert(k, Some(v), garbage, false, s);
      }
    }

    method SetInt(k: string, v: int)
      requires Valid()
      modifies this, buckets, repr
      ensures Valid() && fresh(repr - old(repr)) && old(repr) <= repr
      ensures contents == old(contents)[k := WithInt(old(contents), k, v)]
      ensures Values(contents) == Values(old(contents))[k := Num(v)]
    {
      hide Good, Hash, HasKey, Values, At;
      ghost var s := WithInt(contents, k, v);
      var _, e, i := Find(k);
      ValuesMore(contents, k, s);
      if e != null {
        Renew(e, i, k, e.val, v, true, s);
      } else {
        Insert(k, None, v, true, s);
      }
    }

    method Has(k: string) returns (r: bool)
      requires Valid()
      ensures r <==> k in contents
    {
      var _, e, _ := Find(k);
      r := e != null;
    }

    /** `None` is the null pointer. */
    method Get(k: string) returns (r: Option<string>)
      requires Valid()
      ensures k !in contents ==> r == None
      ensures k in contents ==> r == Some(if contents[k].val.Some? then contents[k].val.value else "")
      ensures k in contents && !contents[k].isInt ==> r == Some(Current(contents[k]).s)
    {
      var _, e, i := Find(k);
      if e == null {
        return None;
      }
      r := if e.val.Some? then e.val else Some("");
    }

    method GetInt(k: string, def: int) returns (r: int)
      requires Valid()
      ensures k !in contents ==> r == def
      ensures k in contents && contents[k].ival.Some? ==> r == contents[k].ival.value
      ensures k in contents && contents[k].isInt ==> r == Current(contents[k]).n
    {
      var _, e, i := Find(k);
      if e == null {
        return def;
      }
      r := e.ival;
    }

    method Len() returns (r: int)
      requires Valid()
      ensures r == |contents|
    {
      r := len;
    }

    // ----- deletion -----

    /** The writes of a deletion: the entry is bypassed. */
    method Unlink(prev: DictEntry?, e: DictEntry, h: nat, ghost i: nat, k: string)
      requires h < BUCKETS && buckets.Length == BUCKETS && |chains| == BUCKETS && i < |chains[h]|
      modifies this, buckets, if prev == null then {} else {prev}
      ensures if prev == null then buckets[h] == old(e.next) else
        buckets[h] == old(buckets[h]) && prev.Now() == old(prev.Now()).(next := old(e.next))
      ensures forall b | 0 <= b < BUCKETS && b != h :: buckets[b] == old(buckets[b])
      ensures len == old(len) - 1 && repr == old(repr) && contents == old(contents) - {k}
      ensures chains == old(chains)[h := old(chains)[h][..i] + old(chains)[h][i + 1..]]
    {
      if prev == null {
        buckets[h] := e.next;
      } else {
        prev.next := e.next;
      }
      len := len - 1;
      chains := chains[h := chains[h][..i] + chains[h][i + 1..]];
      contents := contents - {k};
    }

    /** Takes out entry `i` of the chain of `k`; `prev` is the one before it. */
    method Remove(prev: DictEntry?, e: DictEntry, ghost i: nat, k: string)
      requires Valid() && k in contents && i < |chains[Hash(k)]| && e == chains[Hash(k)][i] && e.key == k
      requires if i == 0 then prev == null else prev == chains[Hash(k)][i - 1]
      requires prev != null ==> prev in repr && OnlyAt(prev, Hash(k), i - 1)
      modifies this, buckets, repr
      ensures Valid() && repr == old(repr) && contents == old(contents) - {k}
    {
      hide Good, Hash, HasKey, AllSound, Holds, Shot, Sound, ChainOk, At;
      ghost var h := Hash(k);
      AllGood();
      Unlink(prev, e, Hash(k), i, k);
      forall b | 0 <= b < BUCKETS
        ensures ChainOk(b)
      {
        ghost var c, was := old(chains)[b], old(Shot(chains[b]));
        forall j | 0 <= j < |c|
          ensures Shot(c)[j] == if b == h && j + 1 == i then was[j].(next := old(e.next)) else was[j]
        {
          assert (b == h && j + 1 == i) || old(chains)[b][j] != prev;
        }
        RemovedChain(b, old(buckets[b]), c, was, old(contents), i, old(e.next), k);
      }
      RemoveKeys(old(chains), old(contents), h, i, k);
      SoundLess(old(contents), k);
    }

    method Del(k: string) returns (r: int)
      requires Valid()
      modifies this, buckets, repr
      ensures Valid() && repr == old(repr) && contents == old(contents) - {k}
      ensures Values(contents) == Values(old(contents)) - {k}
      ensures r == if k in old(contents) then 0 else -1
    {
      hide *;
      Known();
      ValuesLess(contents, k);
      var prev, e, i := Find(k);
      if e == null {
        assert contents - {k} == contents;
        return -1;
      }
      if i > 0 {
        OneBefore(Hash(k), i - 1);
      }
      Remove(prev, e, i, k);
      r := 0;
    }

    lemma Known()
      requires Valid()
      ensures AllSound(contents)
    {
    }

    lemma OneBefore(b: nat, i: nat)
      requires Valid() && b < BUCKETS && i < |chains[b]|
      ensures b < |chains| && i < |chains[b]| && chains[b][i] in repr && OnlyAt(chains[b][i], b, i)
    {
      hide *;
      ChainFacts(b);
      EntryFacts(b, i);
      OneEntry(chains[b][i], i);
    }

    /** A chain after the deletion of `k`, from what it was before. */
    lemma RemovedChain(b: nat, head: DictEntry?, c: Chain, was: seq<Fields>, m: Contents, i: nat, next: DictEntry?,
                       k: string)
      requires b < buckets.Length && b < |chains| && forall x <- c :: x in repr
      requires Good(head, c, was, b, m) && contents == m - {k} && |was| == |c|
      requires b == Hash(k) ==> i < |c| && c[i].key == k && next == was[i].next
      requires forall j | 0 <= j < |c| ::
        Shot(c)[j] == if b == Hash(k) && j + 1 == i then was[j].(next := next) else was[j]
      requires chains[b] == if b == Hash(k) then c[..i] + c[i + 1..] else c
      requires buckets[b] == if b == Hash(k) && i == 0 then next else head
      ensures ChainOk(b)
    {
      hide Good, Hash, Holds, At;
      if b == Hash(k) {
        WasKey(head, c, was, b, m, i);
        GoodRemove(head, c, was, b, m, i, buckets[b], Shot(c));
        ShotRemove(c, i);
      } else {
        assert Shot(c) == was;
        GoodWithout(head, c, was, b, m, k);
      }
    }

    // ----- listing -----

    lemma {:induction false} KeyListIs(b: nat)
      requires Valid() && b <= BUCKETS
      ensures Distinct(KeyList(chains, b))
      ensures forall k :: k in KeyList(chains, b) <==> k in contents && Hash(k) < b
      decreases b
    {
      hide Hash, AllSound, At;
      if b > 0 {
        KeyListIs(b - 1);
        var ks, c := KeyList(chains, b - 1), chains[b - 1];
        assert ChainOk(b - 1);
        ChainKeys(b - 1);
        DistinctJoin(ks, KeysOf(c), b - 1);
        hide Good, At;
        forall k
          ensures k in KeyList(chains, b) <==> k in contents && Hash(k) < b
        {
          assert KeyList(chains, b) == ks + KeysOf(c);
        }
      }
    }

    /** The keys of a chain are the keys with its hash. */
    lemma ChainKeys(b: nat)
      requires Valid() && b < BUCKETS
      ensures Distinct(KeysOf(chains[b]))
      ensures forall k :: k in KeysOf(chains[b]) <==> k in contents && Hash(k) == b
    {
      hide Hash, AllSound, At;
      var c := chains[b];
      var fs := Shot(c);
      assert ChainOk(b);
      assert forall i | 0 <= i < |c| :: fs[i].key == KeysOf(c)[i];
      forall k | k in KeysOf(c)
        ensures k in contents && Hash(k) == b
      {
        var i :| 0 <= i < |c| && KeysOf(c)[i] == k;
        assert fs[i].key == k;
      }
      forall k | k in contents && Hash(k) == b
        ensures k in KeysOf(c)
      {
        var i :| 0 <= i < |c| && c[i].key == k;
        assert KeysOf(c)[i] == k;
      }
    }

    lemma DistinctJoin(a: seq<string>, c: seq<string>, b: nat)
      requires Distinct(a) && Distinct(c)
      requires (forall k <- a :: Hash(k) < b) && (forall k <- c :: Hash(k) == b)
      ensures Distinct(a + c)
    {
      hide Hash, At;
      forall i, j | 0 <= i < j < |a + c|
        ensures (a + c)[i] != (a + c)[j]
      {
        if i < |a| <= j {
          assert a[i] in a && c[j - |a|] in c;
        }
      }
    }

    /** The listing has as many keys as the dictionary. */
    lemma KeyListSize()
      requires Valid()
      ensures |chains| == BUCKETS && |KeyList(chains, BUCKETS)| == len == |contents|
      ensures Distinct(KeyList(chains, BUCKETS)) && SetOf(KeyList(chains, BUCKETS)) == contents.Keys
    {
      KeyListIs(BUCKETS);
      hide Good, At;
      DistinctSize(KeyList(chains, BUCKETS));
      assert SetOf(KeyList(chains, BUCKETS)) == contents.Keys;
    }

    /** There is room for every key the walk meets. */
    lemma {:induction false} KeyListPrefix(b: nat, n: nat)
      requires b <= n <= |chains|
      ensures KeyList(chains, b) <= KeyList(chains, n)
      decreases n - b
    {
      if b < n {
        KeyListPrefix(b, n - 1);
      }
    }

    /** The walk of the listing along one chain. */
    method ListChain(head: DictEntry?, r: array<string>, start: nat, ghost c: Chain) returns (count: nat)
      requires Linked(head, c) && start + |c| <= r.Length
      modifies r
      ensures count == start + |c| && r[..count] == old(r[..start]) + KeysOf(c)
    {
      hide At;
      count := start;
      var e := head;
      ghost var i := 0;
      while e != null
        invariant i <= |c| && e == At(c, i) && count == start + i
        invariant r[..count] == old(r[..start]) + KeysOf(c)[..i]
        decreases |c| - i
      {
        AtIs(c, i);
        r[count] := e.key;
        count := count + 1;
        assert KeysOf(c)[..i + 1] == KeysOf(c)[..i] + [e.key];
        e := e.next;
        i := i + 1;
      }
      AtIs(c, i);
      assert KeysOf(c)[..i] == KeysOf(c);
    }

    /** Every key once, in an array of just the right size. */
    method Keys() returns (r: array<string>, count: nat)
      requires Valid()
      ensures fresh(r) && count == r.Length == |contents|
      ensures Distinct(r[..]) && SetOf(r[..]) == contents.Keys
    {
      hide *;
      KeyListSize();
      r := new string[len];
      count := 0;
      var b := 0;
      assert KeyList(chains, 0) == [] by {
        KeyListStep(chains, 0);
      }
      while b < BUCKETS
        invariant b <= BUCKETS == |chains| && Valid() && r.Length == |KeyList(chains, BUCKETS)| && count <= r.Length
        invariant count == |KeyList(chains, b)| && r[..count] == KeyList(chains, b)
      {
        KeyListPrefix(b + 1, BUCKETS);
        KeyListStep(chains, b);
        ChainFacts(b);
        count := ListChain(buckets[b], r, count, chains[b]);
        b := b + 1;
      }
      assert r[..] == KeyList(chains, BUCKETS);
    }

    // ----- copying -----

    /** Nothing of the other dictionary is part of this one. */
    ghost predicate Apart(src: PyccDict)
      reads this, src
    {
      src != this && src.buckets != buckets && src.repr !! repr
    }

    /** The source's values of some keys have been taken over `m`. */
    ghost predicate Taking(src: PyccDict, m: Contents, ks: set<string>)
      reads this, src
    {
      AllSound(m) && AllSound(src.contents) && ks <= src.contents.Keys && contents == Taken(m, src.contents, ks)
    }

    /** One entry of the source: its current kind is set here. */
    method TakeEntry(src: PyccDict, e: DictEntry, ghost m: Contents, ghost ks: set<string>)
      requires Valid() && src.Valid() && Apart(src)
      requires e in src.repr && e.key in src.contents && Holds(e.Now(), src.contents[e.key])
      requires Taking(src, m, ks) && e.key !in ks
      modifies this, buckets, repr
      ensures Valid() && fresh(repr - old(repr)) && old(repr) <= repr && Apart(src) && src.Valid()
      ensures Taking(src, m, ks + {e.key})
    {
      hide Valid, Values, Taken;
      assert Sound(src.contents[e.key]);
      TakenOne(m, src.contents, ks, e.key);
      if e.isInt {
        SetInt(e.key, e.ival);
      } else {
        Set(e.key, e.val.value);
      }
    }

    /** The entries of one chain of the source. */
    method TakeChain(src: PyccDict, b: nat, ghost m: Contents, ghost ks: set<string>)
      requires Valid() && src.Valid() && Apart(src) && b < BUCKETS == |src.chains|
      requires Taking(src, m, ks)
      requires Distinct(KeysOf(src.chains[b])) && SetOf(KeysOf(src.chains[b])) <= src.contents.Keys - ks
      modifies this, buckets, repr
      ensures Valid() && fresh(repr - old(repr)) && old(repr) <= repr && Apart(src) && src.Valid()
      ensures Taking(src, m, ks + SetOf(KeysOf(src.chains[b])))
    {
      hide Valid, Taken, AllSound, Values, Good, At, Holds, Hash;
      ghost var c := src.chains[b];
      src.ChainFacts(b);
      var e := src.buckets[b];
      ghost var i := 0;
      assert ks + SetOf(KeysOf(c)[..i]) == ks;
      while e != null
        invariant i <= |c| && e == At(c, i) && Valid() && src.Valid() && Apart(src)
        invariant fresh(repr - old(repr)) && old(repr) <= repr
        invariant Taking(src, m, ks + SetOf(KeysOf(c)[..i]))
        decreases |c| - i
      {
        AtIs(c, i);
        src.EntryFacts(b, i);
        assert KeysOf(c)[..i + 1] == KeysOf(c)[..i] + [e.key];
        NewKey(KeysOf(c), i);
        assert ks + SetOf(KeysOf(c)[..i + 1]) == ks + SetOf(KeysOf(c)[..i]) + {e.key};
        TakeEntry(src, e, m, ks + SetOf(KeysOf(c)[..i]));
        src.ChainFacts(b);
        e := e.next;
        i := i + 1;
      }
      AtIs(c, i);
      assert KeysOf(c)[..i] == KeysOf(c);
    }

    /** Every key of the source takes its value; the other keys stay, and so does the source. */
    method Update(src: PyccDict)
      requires Valid() && src.Valid() && Apart(src)
      modifies this, buckets, repr
      ensures Valid() && fresh(repr - old(repr)) && old(repr) <= repr && Apart(src) && src.Valid()
      ensures contents == Taken(old(contents), src.contents, src.contents.Keys)
      ensures Values(contents) == Values(old(contents)) + Values(src.contents)
    {
      hide Valid, Taken, AllSound, Values, KeyList, SetOf, KeysOf, Distinct;
      Known();
      src.Known();
      src.KeyListSize();
      ghost var m := contents;
      KeyListStep(src.chains, 0);
      TakenNone(m, src.contents);
      var b := 0;
      while b < BUCKETS
        invariant b <= BUCKETS == |src.chains| && Valid() && src.Valid() && Apart(src)
        invariant fresh(repr - old(repr)) && old(repr) <= repr
        invariant Taking(src, m, SetOf(KeyList(src.chains, b)))
      {
        src.NextKeys(b);
        TakeChain(src, b, m, SetOf(KeyList(src.chains, b)));
        b := b + 1;
      }
      TakenValues(m, src.contents);
    }

    /** The keys of the next chain are new. */
    lemma NextKeys(b: nat)
      requires Valid() && b < BUCKETS
      ensures b < |chains| && Distinct(KeysOf(chains[b]))
      ensures SetOf(KeyList(chains, b)) <= contents.Keys
      ensures SetOf(KeysOf(chains[b])) <= contents.Keys - SetOf(KeyList(chains, b))
      ensures SetOf(KeyList(chains, b + 1)) <= contents.Keys
      ensures SetOf(KeyList(chains, b + 1)) == SetOf(KeyList(chains, b)) + SetOf(KeysOf(chains[b]))
    {
      hide Hash, AllSound, ChainOk;
      KeyListIs(b);
      ChainKeys(b);
      KeyListStep(chains, b);
    }

    /** A dictionary of its own with the same keys and values. */
    method Copy() returns (n: PyccDict)
      requires Valid()
      ensures fresh(n) && fresh(n.buckets) && fresh(n.repr) && n.Valid() && Valid()
      ensures Values(n.contents) == Values(contents)
    {
      hide Valid, Taken, AllSound, Values;
      Known();
      n := new PyccDict();
      n.Update(this);
      assert Values(map[]) == map[] by {
        NoValues();
      }
    }

    /** No entry is left. */
    method Clear()
      requires Valid()
      modifies this, buckets
      ensures Valid() && contents == map[] && repr == {}
    {
      var b := 0;
      while b < BUCKETS
        invariant b <= BUCKETS == buckets.Length && forall i | 0 <= i < b :: buckets[i] == null
        modifies buckets
      {
        buckets[b] := null;
        b := b + 1;
      }
      len, contents, repr, chains := 0, map[], {}, seq(BUCKETS, _ => []);
    }
  }
}
