/**
 Sorting and deduplicating a write batch (server/engine.cc, executePersist). The
 writer compares (8-byte prefix, length, index) triples instead of keys; the
 order is shown to be unsigned lexicographic key order, then arrival order.
 std::sort is stood for by an insertion sort: the order is total, so every
 correct sort gives the same sequence.
 */
module BatchSort {

  import opened Octets
  import opened Totals

  type Key = seq<Byte>

  /** Byte j of the key, zero past its end. */
  function PadAt(k: Key, j: nat): Byte {
    if j < |k| then k[j] else 0
  }

  /** The first n bytes, zero padded, as a big-endian number. */
  function Prefix(k: Key, n: nat): nat {
    if n == 0 then 0 else Prefix(k, n - 1) * 256 + PadAt(k, n - 1)
  }

  function Pow256(n: nat): nat {
    if n == 0 then 1 else 256 * Pow256(n - 1)
  }

  /** Unsigned lexicographic order, a proper prefix first: operator< of string_view. */
  predicate Less(a: Key, b: Key) {
    b != [] && (a == [] || a[0] < b[0] || (a[0] == b[0] && Less(a[1..], b[1..])))
  }

  datatype SortKey = SortKey(prefix: nat, idx: nat, len: nat)

  datatype Request<+V> = Request(key: Key, value: V, deleted: bool)

  // ---- The key prefix ----

  lemma {:induction false} PrefixRange(k: Key, n: nat)
    ensures Prefix(k, n) < Pow256(n)
  {
    if n == 0 {
    } else {
      PrefixRange(k, n - 1);
    }
  }

  /** x with n zero bytes after it. */
  function Padded(x: nat, n: nat): nat {
    if n == 0 then x else 256 * Padded(x, n - 1)
  }

  lemma {:induction false} PaddedAdds(x: nat, y: nat, n: nat)
    ensures Padded(256 * x + y, n) == Padded(x, n + 1) + Padded(y, n)
  {
    if n > 0 { PaddedAdds(x, y, n - 1); }
  }

  lemma {:induction false} NothingPadded(n: nat)
    ensures Padded(0, n) == 0
  {
    if n > 0 { NothingPadded(n - 1); }
  }

  lemma {:induction false} PrefixPast(k: Key, n: nat)
    requires |k| <= n
    ensures Prefix(k, n) == Padded(Prefix(k, |k|), n - |k|)
  {
    if n == |k| {
    } else {
      PrefixPast(k, n - 1);
    }
  }

  lemma PutByte(k: Key, j: nat)
    requires j < |k| < 8
    ensures Padded(Prefix(k, j), 8 - j) + Padded(k[j], 7 - j) == Padded(Prefix(k, j + 1), 7 - j)
  {
    PaddedAdds(Prefix(k, j), k[j], 7 - j);
  }

  lemma EightBytes()
    ensures Pow256(8) == 0x1_0000_0000_0000_0000
  {
    assert Pow256(4) == 0x1_0000_0000;
  }

  /** A key shorter than a word, byte by byte into a zero word. */
  method ShortPrefix(k: Key) returns (p: nat)
    requires |k| < 8
    ensures p == Prefix(k, 8)
  {
    p := 0;
    NothingPadded(8);
    for j := 0 to |k|
      invariant p == Padded(Prefix(k, j), 8 - j)
    {
      PutByte(k, j);
      p := p + Padded(k[j], 7 - j);
    }
    PrefixPast(k, 8);
  }

  /** Big-endian load of the first 8 bytes of a key, a shorter one zero padded. */
  method KeyPrefix(k: Key) returns (p: nat)
    ensures p == Prefix(k, 8) && p < 0x1_0000_0000_0000_0000
  {
    if |k| >= 8 {
      p := 0;
      for j := 0 to 8
        invariant p == Prefix(k, j)
      {
        p := p * 256 + k[j];
      }
    } else {
      p := ShortPrefix(k);
    }
    PrefixRange(k, 8);
    EightBytes();
  }

  /** Equal prefixes have equal padded bytes; unequal ones differ first where the order says. */
  lemma {:induction false} PrefixCompare(a: Key, b: Key, n: nat) returns (i: nat)
    ensures i <= n && forall j | 0 <= j < i :: PadAt(a, j) == PadAt(b, j)
    ensures i == n <==> Prefix(a, n) == Prefix(b, n)
    ensures i < n ==> PadAt(a, i) != PadAt(b, i) && (PadAt(a, i) < PadAt(b, i) <==> Prefix(a, n) < Prefix(b, n))
  {
    if n == 0 {
      i := 0;
    } else {
      i := PrefixCompare(a, b, n - 1);
      if i == n - 1 && PadAt(a, n - 1) == PadAt(b, n - 1) {
        i := n;
      }
    }
  }

  // ---- Lexicographic order ----

  lemma {:induction false} LessAfter(a: Key, b: Key, i: nat)
    requires i <= |a| && i <= |b| && a[..i] == b[..i]
    ensures Less(a, b) == Less(a[i..], b[i..])
  {
    if i == 0 {
      assert a[0..] == a && b[0..] == b;
    } else {
      assert a[0] == a[..i][0] == b[..i][0] == b[0];
      assert a[1..][..i - 1] == a[..i][1..] == b[..i][1..] == b[1..][..i - 1];
      LessAfter(a[1..], b[1..], i - 1);
      assert a[1..][i - 1..] == a[i..] && b[1..][i - 1..] == b[i..];
    }
  }

  lemma {:induction false} LessTotal(a: Key, b: Key)
    ensures Less(a, b) || a == b || Less(b, a)
    ensures !(Less(a, b) && Less(b, a)) && !Less(a, a)
  {
    if a == [] || b == [] {
    } else {
      LessTotal(a[1..], b[1..]);
      assert a == [a[0]] + a[1..] && b == [b[0]] + b[1..];
    }
    if a != [] { LessIrreflexive(a); }
  }

  lemma {:induction false} LessIrreflexive(a: Key)
    ensures !Less(a, a)
  {
    if a != [] { LessIrreflexive(a[1..]); }
  }

  lemma {:induction false} LessTransitive(a: Key, b: Key, c: Key)
    requires Less(a, b) && Less(b, c)
    ensures Less(a, c)
  {
    if a != [] && a[0] == b[0] == c[0] {
      LessTransitive(a[1..], b[1..], c[1..]);
    }
  }

  /** Keys that agree up to i, where a's padded byte is the smaller one. */
  lemma PadLess(a: Key, b: Key, i: nat)
    requires forall j | 0 <= j < i :: PadAt(a, j) == PadAt(b, j)
    requires PadAt(a, i) < PadAt(b, i)
    ensures Less(a, b)
  {
    var m := if i < |a| then i else |a|;
    assert forall j | 0 <= j < m :: a[j] == PadAt(a, j) == PadAt(b, j) == b[j];
    assert a[..m] == b[..m];
    LessAfter(a, b, m);
  }

  // ---- The comparator ----

  function MakeSortKey(k: Key, i: nat): SortKey {
    SortKey(Prefix(k, 8), i, |k|)
  }

  predicate Compare(a: SortKey, ka: Key, b: SortKey, kb: Key) {
    if a.prefix != b.prefix then a.prefix < b.prefix
    else if a.len <= 8 && b.len <= 8 then (if a.len != b.len then a.len < b.len else a.idx < b.idx)
    else if ka != kb then Less(ka, kb)
    else a.idx < b.idx
  }

  predicate SameKey(a: SortKey, ka: Key, b: SortKey, kb: Key) {
    a.prefix == b.prefix && a.len == b.len && (a.len <= 8 || ka == kb)
  }

  /** Key order, then arrival order. */
  predicate Before(ka: Key, i: nat, kb: Key, j: nat) {
    Less(ka, kb) || (ka == kb && i < j)
  }

  lemma ShortKeysEqual(a: Key, b: Key)
    requires |a| == |b| <= 8 && Prefix(a, 8) == Prefix(b, 8)
    ensures a == b
  {
    var n := PrefixCompare(a, b, 8);
    assert forall j | 0 <= j < |a| :: a[j] == PadAt(a, j) == PadAt(b, j) == b[j];
  }

  /** The comparator is key order then arrival, for all keys: embedded zeros and mixed lengths included. */
  lemma CompareIsBefore(ka: Key, i: nat, kb: Key, j: nat)
    ensures Compare(MakeSortKey(ka, i), ka, MakeSortKey(kb, j), kb) <==> Before(ka, i, kb, j)
  {
    LessTotal(ka, kb);
    var n := PrefixCompare(ka, kb, 8);
    if n < 8 {
      if PadAt(ka, n) < PadAt(kb, n) { PadLess(ka, kb, n); } else { PadLess(kb, ka, n); }
    } else if |ka| <= 8 && |kb| <= 8 {
      var m := if |ka| < |kb| then |ka| else |kb|;
      assert forall x | 0 <= x < m :: ka[x] == PadAt(ka, x) == PadAt(kb, x) == kb[x];
      assert ka[..m] == kb[..m];
      LessAfter(ka, kb, m);
      LessAfter(kb, ka, m);
      if |ka| == |kb| { ShortKeysEqual(ka, kb); }
    }
  }

  lemma SameKeyIsEqual(ka: Key, i: nat, kb: Key, j: nat)
    ensures SameKey(MakeSortKey(ka, i), ka, MakeSortKey(kb, j), kb) <==> ka == kb
  {
    if |ka| == |kb| <= 8 && Prefix(ka, 8) == Prefix(kb, 8) {
      ShortKeysEqual(ka, kb);
    }
  }

  // ---- Sorting ----

  /** Index i of the batch sorts before index j. */
  ghost predicate Earlier<V>(batch: seq<Request<V>>, i: nat, j: nat) {
    i < |batch| && j < |batch| && Before(batch[i].key, i, batch[j].key, j)
  }

  ghost predicate SortedPerm<V>(batch: seq<Request<V>>, perm: seq<nat>, n: nat) {
    && n <= |batch| && |perm| == n
    && (forall a, b | 0 <= a < b < n :: Earlier(batch, perm[a], perm[b]))
    && (forall i | 0 <= i < n :: i in perm)
    && (forall a | 0 <= a < n :: perm[a] < n)
  }

  lemma EarlierTransitive<V>(batch: seq<Request<V>>, i: nat, j: nat, k: nat)
    requires Earlier(batch, i, j) && Earlier(batch, j, k)
    ensures Earlier(batch, i, k)
  {
    if Less(batch[i].key, batch[j].key) && Less(batch[j].key, batch[k].key) {
      LessTransitive(batch[i].key, batch[j].key, batch[k].key);
    }
  }

  function SortKeyAt<V>(batch: seq<Request<V>>, i: nat): SortKey
    requires i < |batch|
  {
    MakeSortKey(batch[i].key, i)
  }

  lemma CompareAt<V>(batch: seq<Request<V>>, i: nat, j: nat)
    requires i < |batch| && j < |batch|
    ensures Compare(SortKeyAt(batch, i), batch[i].key, SortKeyAt(batch, j), batch[j].key) <==> Earlier(batch, i, j)
    ensures i != j ==> Earlier(batch, i, j) || Earlier(batch, j, i)
    ensures !(Earlier(batch, i, j) && Earlier(batch, j, i))
  {
    CompareIsBefore(batch[i].key, i, batch[j].key, j);
    LessTotal(batch[i].key, batch[j].key);
    LessTotal(batch[j].key, batch[i].key);
  }

  lemma InsertedMembers(perm: seq<nat>, i: nat, p: nat, x: nat)
    requires p <= |perm| && (x in perm || x == i)
    ensures x in perm[..p] + [i] + perm[p..]
  {
    var r := perm[..p] + [i] + perm[p..];
    if x == i {
      assert r[p] == i;
    } else {
      var a :| 0 <= a < |perm| && perm[a] == x;
      assert r[if a < p then a else a + 1] == x;
    }
  }

  lemma BeforeInserted<V>(batch: seq<Request<V>>, perm: seq<nat>, i: nat, p: nat, a: nat)
    requires SortedPerm(batch, perm, i) && a < p <= |perm| && Earlier(batch, perm[p - 1], i)
    ensures Earlier(batch, perm[a], i)
  {
    if a < p - 1 { EarlierTransitive(batch, perm[a], perm[p - 1], i); }
  }

  lemma InsertedPair<V>(batch: seq<Request<V>>, perm: seq<nat>, i: nat, p: nat, a: nat, b: nat)
    requires i < |batch| && SortedPerm(batch, perm, i) && a < b <= |perm| && p <= |perm|
    requires p > 0 ==> Earlier(batch, perm[p - 1], i)
    requires forall b | p <= b < |perm| :: Earlier(batch, i, perm[b])
    ensures var r := perm[..p] + [i] + perm[p..]; Earlier(batch, r[a], r[b])
  {
    var r := perm[..p] + [i] + perm[p..];
    if b < p {
      assert r[a] == perm[a] && r[b] == perm[b];
    } else if b == p {
      assert r[a] == perm[a] && r[b] == i;
      BeforeInserted(batch, perm, i, p, a);
    } else if a == p {
      assert r[a] == i && r[b] == perm[b - 1];
    } else {
      assert r[b] == perm[b - 1] && r[a] == perm[if a < p then a else a - 1];
    }
  }

  lemma InsertedSorted<V>(batch: seq<Request<V>>, perm: seq<nat>, i: nat, p: nat)
    requires i < |batch| && SortedPerm(batch, perm, i) && p <= |perm|
    requires p > 0 ==> Earlier(batch, perm[p - 1], i)
    requires forall b | p <= b < |perm| :: Earlier(batch, i, perm[b])
    ensures SortedPerm(batch, perm[..p] + [i] + perm[p..], i + 1)
  {
    var r := perm[..p] + [i] + perm[p..];
    forall x | 0 <= x < i + 1 ensures x in r {
      InsertedMembers(perm, i, p, x);
    }
    forall a, b | 0 <= a < b < |r| ensures Earlier(batch, r[a], r[b]) {
      InsertedPair(batch, perm, i, p, a, b);
    }
    forall a | 0 <= a < |r| ensures r[a] < i + 1 {
      assert r[a] == if a < p then perm[a] else if a == p then i else perm[a - 1];
    }
  }

  /** One index more into a sorted sequence, with the source's comparator. */
  method InsertIndex<V>(batch: seq<Request<V>>, perm: seq<nat>, i: nat) returns (r: seq<nat>)
    requires i < |batch| && SortedPerm(batch, perm, i)
    ensures SortedPerm(batch, r, i + 1)
  {
    var p := |perm|;
    while p > 0 && Compare(SortKeyAt(batch, i), batch[i].key, SortKeyAt(batch, perm[p - 1]), batch[perm[p - 1]].key)
      invariant 0 <= p <= |perm|
      invariant forall b | p <= b < |perm| :: Earlier(batch, i, perm[b])
    {
      CompareAt(batch, i, perm[p - 1]);
      p := p - 1;
    }
    r := perm[..p] + [i] + perm[p..];
    if p > 0 {
      CompareAt(batch, i, perm[p - 1]);
    }
    InsertedSorted(batch, perm, i, p);
  }

  method SortIndices<V>(batch: seq<Request<V>>) returns (perm: seq<nat>)
    ensures SortedPerm(batch, perm, |batch|)
  {
    perm := [];
    for i := 0 to |batch|
      invariant SortedPerm(batch, perm, i)
    {
      perm := InsertIndex(batch, perm, i);
    }
  }

  // ---- Deduplication ----

  /** No later request of the batch writes the same key. */
  ghost predicate Newest<V>(batch: seq<Request<V>>, i: nat) {
    i < |batch| && forall j | i < j < |batch| :: batch[j].key != batch[i].key
  }

  /** Exactly the newest request of each key, each once. */
  ghost predicate Survivors<V>(batch: seq<Request<V>>, out: seq<nat>) {
    && (forall a | 0 <= a < |out| :: Newest(batch, out[a]))
    && (forall i | Newest(batch, i) :: i in out)
    && (forall a, b | 0 <= a < b < |out| :: out[a] != out[b])
  }

  /** In the sorted order, an index is its key's newest exactly when the next index has another key. */
  lemma RunEnd<V>(batch: seq<Request<V>>, perm: seq<nat>, a: nat)
    requires SortedPerm(batch, perm, |batch|) && a < |perm|
    ensures Newest(batch, perm[a]) <==> a + 1 == |perm| || batch[perm[a + 1]].key != batch[perm[a]].key
  {
    var i := perm[a];
    LessIrreflexive(batch[i].key);
    if a + 1 < |perm| && batch[perm[a + 1]].key == batch[i].key {
      assert Earlier(batch, i, perm[a + 1]);
    } else {
      forall j | i < j < |batch|
        ensures batch[j].key != batch[i].key
      {
        assert j in perm;
        var b :| 0 <= b < |perm| && perm[b] == j;
        LessTotal(batch[i].key, batch[j].key);
        if b > a + 1 {
          assert Earlier(batch, i, perm[a + 1]) && Earlier(batch, perm[a + 1], j);
          LessTotal(batch[i].key, batch[perm[a + 1]].key);
        } else if b < a {
          assert Earlier(batch, j, i);
        }
      }
    }
  }

  /** The source's test: the next index of the sorted order has the same key. */
  predicate Superseded<V>(batch: seq<Request<V>>, perm: seq<nat>, a: nat)
    requires a < |perm| && forall b | 0 <= b < |perm| :: perm[b] < |batch|
  {
    a + 1 < |perm|
    && SameKey(SortKeyAt(batch, perm[a]), batch[perm[a]].key, SortKeyAt(batch, perm[a + 1]), batch[perm[a + 1]].key)
  }

  /** Which indices of the sorted order are superseded. */
  function Repeats<V>(batch: seq<Request<V>>, perm: seq<nat>): (r: seq<bool>)
    requires forall b | 0 <= b < |perm| :: perm[b] < |batch|
    ensures |r| == |perm| && forall a | 0 <= a < |perm| :: r[a] == Superseded(batch, perm, a)
  {
    seq(|perm|, a requires 0 <= a < |perm| => Superseded(batch, perm, a))
  }

  /** The first a indices of the sorted order that are kept (or, with `drop`, dropped). */
  function Part(perm: seq<nat>, repeat: seq<bool>, a: nat, drop: bool): seq<nat>
    requires a <= |perm| == |repeat|
  {
    if a == 0 then []
    else if repeat[a - 1] == drop then Part(perm, repeat, a - 1, drop) + [perm[a - 1]]
    else Part(perm, repeat, a - 1, drop)
  }

  method Dedupe<V>(batch: seq<Request<V>>, perm: seq<nat>) returns (kept: seq<nat>, dropped: seq<nat>)
    requires SortedPerm(batch, perm, |batch|)
    ensures Survivors(batch, kept) && multiset(kept) + multiset(dropped) == multiset(perm)
    ensures forall a, b | 0 <= a < b < |kept| :: Less(batch[kept[a]].key, batch[kept[b]].key)
  {
    kept, dropped := [], [];
    ghost var repeat := Repeats(batch, perm);
    for a := 0 to |perm|
      invariant kept == Part(perm, repeat, a, false) && dropped == Part(perm, repeat, a, true)
    {
      if Superseded(batch, perm, a) {
        dropped := dropped + [perm[a]];
      } else {
        kept := kept + [perm[a]];
      }
    }
    PartsPermute(perm, repeat, kept, dropped);
    RepeatsAreOld(batch, perm);
    KeptNewest(batch, perm, repeat, |perm|);
    KeptDistinct(batch, kept);
    assert forall i | Newest(batch, i) :: i in perm;
  }

  /** The elements of a sequence, built up one by one. */
  function Bag<T>(s: seq<T>): multiset<T> {
    if s == [] then multiset{} else Bag(s[..|s| - 1]) + multiset{s[|s| - 1]}
  }

  lemma {:induction false} BagIs<T>(s: seq<T>)
    ensures Bag(s) == multiset(s)
  {
    if s != [] {
      var n := |s| - 1;
      BagIs(s[..n]);
      assert s == s[..n] + [s[n]];
    }
  }

  lemma BagSnoc<T>(s: seq<T>, x: T)
    ensures Bag(s + [x]) == Bag(s) + multiset{x}
  {
    assert (s + [x])[..|s|] == s;
  }

  lemma PlusOne<T>(a: multiset<T>, b: multiset<T>, x: multiset<T>)
    ensures (a + x) + b == (a + b) + x == a + (b + x)
  {}

  ghost predicate Splits<T>(kept: seq<T>, dropped: seq<T>, whole: seq<T>) {
    Bag(kept) + Bag(dropped) == Bag(whole)
  }

  lemma OneMore<T>(kept: seq<T>, dropped: seq<T>, whole: seq<T>, x: T)
    requires Splits(kept, dropped, whole)
    ensures Splits(kept + [x], dropped, whole + [x]) && Splits(kept, dropped + [x], whole + [x])
  {
    BagSnoc(kept, x);
    BagSnoc(dropped, x);
    BagSnoc(whole, x);
    PlusOne(Bag(kept), Bag(dropped), multiset{x});
  }

  lemma {:induction false} PartsSplit(perm: seq<nat>, repeat: seq<bool>, a: nat)
    requires a <= |perm| == |repeat|
    ensures Splits(Part(perm, repeat, a, false), Part(perm, repeat, a, true), perm[..a])
  {
    if a == 0 {
    } else {
      assert perm[..a] == perm[..a - 1] + [perm[a - 1]];
      PartsSplit(perm, repeat, a - 1);
      OneMore(Part(perm, repeat, a - 1, false), Part(perm, repeat, a - 1, true), perm[..a - 1], perm[a - 1]);
    }
  }

  lemma PartsPermute(perm: seq<nat>, repeat: seq<bool>, kept: seq<nat>, dropped: seq<nat>)
    requires |perm| == |repeat| && kept == Part(perm, repeat, |perm|, false) && dropped == Part(perm, repeat, |perm|, true)
    ensures multiset(kept) + multiset(dropped) == multiset(perm)
  {
    PartsSplit(perm, repeat, |perm|);
    assert perm[..|perm|] == perm;
    BagIs(kept);
    BagIs(dropped);
    BagIs(perm);
  }

  lemma SupersededIsOld<V>(batch: seq<Request<V>>, perm: seq<nat>, a: nat)
    requires SortedPerm(batch, perm, |batch|) && a < |perm|
    ensures Superseded(batch, perm, a) <==> !Newest(batch, perm[a])
  {
    RunEnd(batch, perm, a);
    if a + 1 < |perm| {
      SameKeyIsEqual(batch[perm[a]].key, perm[a], batch[perm[a + 1]].key, perm[a + 1]);
    }
  }

  /** Of the first a indices the kept ones are the newest of their keys, sorted, and before all that follow. */
  ghost predicate KeptSoFar<V>(batch: seq<Request<V>>, perm: seq<nat>, a: nat, kept: seq<nat>) {
    && AllNewest(batch, kept) && KeptSorted(batch, kept)
    && (forall x, b | 0 <= x < |kept| && a <= b < |perm| :: Earlier(batch, kept[x], perm[b]))
    && (forall b | 0 <= b < a && b < |perm| && Newest(batch, perm[b]) :: perm[b] in kept)
  }

  lemma KeepOne<V>(batch: seq<Request<V>>, perm: seq<nat>, a: nat, kept: seq<nat>)
    requires SortedPerm(batch, perm, |batch|) && a < |perm| && KeptSoFar(batch, perm, a, kept)
    ensures KeptSoFar(batch, perm, a + 1, if Newest(batch, perm[a]) then kept + [perm[a]] else kept)
  {}

  /** The repeats are marked: the indices that are not the newest of their key. */
  ghost predicate MarksOld<V>(batch: seq<Request<V>>, perm: seq<nat>, repeat: seq<bool>) {
    |repeat| == |perm| && forall a | 0 <= a < |perm| :: repeat[a] <==> !Newest(batch, perm[a])
  }

  lemma RepeatsAreOld<V>(batch: seq<Request<V>>, perm: seq<nat>)
    requires SortedPerm(batch, perm, |batch|)
    ensures MarksOld(batch, perm, Repeats(batch, perm))
  {
    forall a | 0 <= a < |perm| ensures Repeats(batch, perm)[a] <==> !Newest(batch, perm[a]) {
      SupersededIsOld(batch, perm, a);
    }
  }

  lemma KeptNext<V>(batch: seq<Request<V>>, perm: seq<nat>, repeat: seq<bool>, a: nat)
    requires SortedPerm(batch, perm, |batch|) && |repeat| == |perm| && a < |perm|
    requires repeat[a] <==> !Newest(batch, perm[a])
    requires KeptSoFar(batch, perm, a, Part(perm, repeat, a, false))
    ensures KeptSoFar(batch, perm, a + 1, Part(perm, repeat, a + 1, false))
  {
    KeepOne(batch, perm, a, Part(perm, repeat, a, false));
  }

  lemma {:induction false} KeptNewest<V>(batch: seq<Request<V>>, perm: seq<nat>, repeat: seq<bool>, a: nat)
    requires SortedPerm(batch, perm, |batch|) && MarksOld(batch, perm, repeat) && a <= |perm|
    ensures KeptSoFar(batch, perm, a, Part(perm, repeat, a, false))
  {
    if a == 0 {
    } else {
      KeptNewest(batch, perm, repeat, a - 1);
      KeptNext(batch, perm, repeat, a - 1);
    }
  }

  ghost predicate AllNewest<V>(batch: seq<Request<V>>, kept: seq<nat>) {
    forall x | 0 <= x < |kept| :: Newest(batch, kept[x])
  }

  ghost predicate KeptSorted<V>(batch: seq<Request<V>>, kept: seq<nat>) {
    forall x, y | 0 <= x < y < |kept| :: Earlier(batch, kept[x], kept[y])
  }

  lemma KeptDistinct<V>(batch: seq<Request<V>>, kept: seq<nat>)
    requires AllNewest(batch, kept) && KeptSorted(batch, kept)
    ensures forall x, y | 0 <= x < y < |kept| :: Less(batch[kept[x]].key, batch[kept[y]].key) && kept[x] != kept[y]
  {
    forall x, y | 0 <= x < y < |kept|
      ensures Less(batch[kept[x]].key, batch[kept[y]].key) && kept[x] != kept[y]
    {
      assert Earlier(batch, kept[x], kept[y]);
      LessIrreflexive(batch[kept[x]].key);
    }
  }

  // ---- What the store sees ----

  /** The store after one write: a delete removes the key. */
  function ApplyOne<V>(store: map<Key, V>, r: Request<V>): map<Key, V> {
    if r.deleted then store - {r.key} else store[r.key := r.value]
  }

  function Apply<V>(store: map<Key, V>, reqs: seq<Request<V>>): map<Key, V> {
    if reqs == [] then store else ApplyOne(Apply(store, reqs[..|reqs| - 1]), reqs[|reqs| - 1])
  }

  function Pick<V>(batch: seq<Request<V>>, idx: seq<nat>): (r: seq<Request<V>>)
    requires forall a | 0 <= a < |idx| :: idx[a] < |batch|
    ensures |r| == |idx| && forall a | 0 <= a < |idx| :: r[a] == batch[idx[a]]
  {
    seq(|idx|, a requires 0 <= a < |idx| => batch[idx[a]])
  }

  /** After the writes, key k is what its last write left, wherever that write stands. */
  lemma {:induction false} ApplyLast<V>(store: map<Key, V>, reqs: seq<Request<V>>, k: Key, i: int)
    requires -1 <= i < |reqs| && (i >= 0 ==> reqs[i].key == k)
    requires forall j | i < j < |reqs| :: reqs[j].key != k
    ensures var t := Apply(store, reqs);
      if i < 0 then (k in t <==> k in store) && (k in t ==> t[k] == store[k])
      else (k in t <==> !reqs[i].deleted) && (k in t ==> t[k] == reqs[i].value)
  {
    if reqs == [] {
    } else {
      var n := |reqs| - 1;
      if i < n {
        ApplyLast(store, reqs[..n], k, i);
      }
    }
  }

  /** The newest request for k in the batch, if any. */
  lemma {:induction false} FindNewest<V>(batch: seq<Request<V>>, k: Key) returns (i: int)
    ensures -1 <= i < |batch| && (i >= 0 ==> batch[i].key == k && Newest(batch, i))
    ensures forall j | i < j < |batch| :: batch[j].key != k
  {
    if batch == [] {
      i := -1;
    } else {
      var n := |batch| - 1;
      if batch[n].key == k {
        i := n;
      } else {
        i := FindNewest(batch[..n], k);
        assert i >= 0 ==> batch[..n][i] == batch[i];
        assert forall j | i < j < n :: batch[..n][j] == batch[j];
      }
    }
  }

  ghost predicate SameAt<V>(a: map<Key, V>, b: map<Key, V>, k: Key) {
    (k in a <==> k in b) && (k in a ==> a[k] == b[k])
  }

  lemma SurvivorsAgree<V>(store: map<Key, V>, batch: seq<Request<V>>, out: seq<nat>, k: Key)
    requires Survivors(batch, out)
    ensures SameAt(Apply(store, Pick(batch, out)), Apply(store, batch), k)
  {
    var i := FindNewest(batch, k);
    ApplyLast(store, batch, k, i);
    if i < 0 {
      assert forall x | 0 <= x < |out| :: batch[out[x]].key != k;
      ApplyLast(store, Pick(batch, out), k, -1);
    } else {
      assert i in out;
      var x :| 0 <= x < |out| && out[x] == i;
      forall y | x < y < |out|
        ensures batch[out[y]].key != k
      {
        assert Newest(batch, out[y]) && out[y] != i;
      }
      ApplyLast(store, Pick(batch, out), k, x);
    }
  }

  /** Writing only the survivors, in any order, leaves the store as writing the whole batch in arrival order. */
  lemma SurvivorsSuffice<V>(store: map<Key, V>, batch: seq<Request<V>>, out: seq<nat>)
    requires Survivors(batch, out)
    ensures Apply(store, Pick(batch, out)) == Apply(store, batch)
  {
    var a, b := Apply(store, Pick(batch, out)), Apply(store, batch);
    forall k: Key ensures (k in a <==> k in b) && (k in a ==> a[k] == b[k]) {
      SurvivorsAgree(store, batch, out, k);
    }
  }

  /** The writer's whole treatment of a batch: survivors to write, and the dropped rest. */
  method SortAndDedupe<V>(batch: seq<Request<V>>) returns (write: seq<Request<V>>, kept: seq<nat>, dropped: seq<nat>)
    ensures Survivors(batch, kept) && write == Pick(batch, kept)
    ensures forall store :: Apply(store, write) == Apply(store, batch)
    ensures |kept| + |dropped| == |batch|
    ensures forall i | 0 <= i < |batch| :: i in kept || i in dropped
  {
    var perm := SortIndices(batch);
    kept, dropped := Dedupe(batch, perm);
    write := Pick(batch, kept);
    forall store: map<Key, V>
      ensures Apply(store, write) == Apply(store, batch)
    {
      SurvivorsSuffice(store, batch, kept);
    }
    assert |multiset(kept) + multiset(dropped)| == |multiset(perm)|;
    forall i | 0 <= i < |batch|
      ensures i in kept || i in dropped
    {
      assert i in perm;
      assert i in multiset(perm);
    }
  }

  // ---- Several batches ----

  datatype Logged<+V> = Logged(req: Request<V>, seqno: nat)

  /** One batch as written: arrival order, or its survivors; seqnos count on from `last`. */
  ghost predicate WrittenAs<V>(batch: seq<Request<V>>, out: seq<Logged<V>>, last: nat) {
    && (forall a | 0 <= a < |out| :: out[a].seqno == last + a + 1)
    && (Requests(out) == batch || exists idx :: Survivors(batch, idx) && Requests(out) == Pick(batch, idx))
  }

  function Requests<V>(log: seq<Logged<V>>): (r: seq<Request<V>>)
    ensures |r| == |log| && forall a | 0 <= a < |log| :: r[a] == log[a].req
  {
    seq(|log|, a requires 0 <= a < |log| => log[a].req)
  }

  /** The writer's loop: each surviving request gets the vbucket's next seqno. */
  method PersistBatch<V>(batch: seq<Request<V>>, sort: bool, last: nat) returns (out: seq<Logged<V>>, next: nat)
    ensures WrittenAs(batch, out, last) && next == last + |out|
  {
    var write := batch;
    if sort {
      var kept, dropped;
      write, kept, dropped := SortAndDedupe(batch);
      assert Survivors(batch, kept) && write == Pick(batch, kept);
    }
    out, next := [], last;
    var i: nat := 0;
    while i < |write|
      invariant i == |out| <= |write| && next == last + i && Requests(out) == write[..i]
      invariant forall a | 0 <= a < i :: out[a].seqno == last + a + 1
    {
      next := next + 1;
      out := out + [Logged(write[i], next)];
      i := i + 1;
    }
    assert write[..i] == write;
  }

  /** Every batch of a vbucket in turn, each sorted or not as the writer chose. */
  ghost predicate WrittenRun<V>(batches: seq<seq<Request<V>>>, outs: seq<seq<Logged<V>>>, first: nat) {
    && |batches| == |outs|
    && forall b | 0 <= b < |batches| :: WrittenAs(batches[b], outs[b], first + |Concat(outs[..b])|)
  }

  lemma {:induction false} ApplyConcat<V>(store: map<Key, V>, a: seq<Request<V>>, b: seq<Request<V>>)
    ensures Apply(store, a + b) == Apply(Apply(store, a), b)
  {
    if b == [] {
      assert a + b == a;
    } else {
      var n := |b| - 1;
      ApplyConcat(store, a, b[..n]);
      assert (a + b)[..|a| + n] == a + b[..n];
    }
  }

  lemma BatchPreservesMeaning<V>(store: map<Key, V>, batch: seq<Request<V>>, out: seq<Logged<V>>, last: nat)
    requires WrittenAs(batch, out, last)
    ensures Apply(store, Requests(out)) == Apply(store, batch)
  {
    if Requests(out) != batch {
      var idx :| Survivors(batch, idx) && Requests(out) == Pick(batch, idx);
      SurvivorsSuffice(store, batch, idx);
    }
  }

  lemma RunPrefix<V>(batches: seq<seq<Request<V>>>, outs: seq<seq<Logged<V>>>, first: nat)
    requires WrittenRun(batches, outs, first) && batches != []
    ensures WrittenRun(batches[..|batches| - 1], outs[..|batches| - 1], first)
  {
    var n := |batches| - 1;
    forall b | 0 <= b < n
      ensures WrittenAs(batches[..n][b], outs[..n][b], first + |Concat(outs[..n][..b])|)
    {
      assert outs[..n][..b] == outs[..b];
    }
  }

  lemma RequestsAppend<V>(a: seq<Logged<V>>, b: seq<Logged<V>>)
    ensures Requests(a + b) == Requests(a) + Requests(b)
  {}

  lemma MeaningAfter<V>(store: map<Key, V>, reqs: seq<Request<V>>, log: seq<Logged<V>>, batch: seq<Request<V>>, out: seq<Logged<V>>, last: nat)
    requires Apply(store, Requests(log)) == Apply(store, reqs) && WrittenAs(batch, out, last)
    ensures Apply(store, Requests(log + out)) == Apply(store, reqs + batch)
  {
    RequestsAppend(log, out);
    ApplyConcat(store, Requests(log), Requests(out));
    ApplyConcat(store, reqs, batch);
    BatchPreservesMeaning(Apply(store, reqs), batch, out, last);
  }

  /** Over any run of batches the log leaves the store as the writes in arrival order do. */
  lemma {:induction false} RunPreservesMeaning<V>(store: map<Key, V>, batches: seq<seq<Request<V>>>, outs: seq<seq<Logged<V>>>, first: nat)
    requires WrittenRun(batches, outs, first)
    ensures Apply(store, Requests(Concat(outs))) == Apply(store, Concat(batches))
  {
    if batches == [] {
      assert Requests(Concat(outs)) == [];
    } else {
      var n := |batches| - 1;
      RunPrefix(batches, outs, first);
      RunPreservesMeaning(store, batches[..n], outs[..n], first);
      MeaningAfter(store, Concat(batches[..n]), Concat(outs[..n]), batches[n], outs[n], first + |Concat(outs[..n])|);
    }
  }

  /** Seqnos strictly increase along the whole log, so also per key and across batches. */
  lemma {:induction false} RunSeqnos<V>(batches: seq<seq<Request<V>>>, outs: seq<seq<Logged<V>>>, first: nat)
    requires WrittenRun(batches, outs, first)
    ensures forall x | 0 <= x < |Concat(outs)| :: Concat(outs)[x].seqno == first + x + 1
  {
    if batches == [] {
    } else {
      var n := |batches| - 1;
      RunPrefix(batches, outs, first);
      RunSeqnos(batches[..n], outs[..n], first);
      assert WrittenAs(batches[n], outs[n], first + |Concat(outs[..n])|);
    }
  }

  lemma RunSnoc<V>(batches: seq<seq<Request<V>>>, outs: seq<seq<Logged<V>>>, first: nat, batch: seq<Request<V>>, out: seq<Logged<V>>)
    requires WrittenRun(batches, outs, first) && WrittenAs(batch, out, first + |Concat(outs)|)
    ensures WrittenRun(batches + [batch], outs + [out], first)
  {
    var bs, os := batches + [batch], outs + [out];
    forall b | 0 <= b < |bs| ensures WrittenAs(bs[b], os[b], first + |Concat(os[..b])|) {
      if b < |batches| {
        assert os[..b] == outs[..b];
      } else {
        assert os[..b] == outs;
      }
    }
  }

  /** A vbucket's batches one after another, each sorted or not, the seqno carried on. */
  method PersistRun<V>(batches: seq<seq<Request<V>>>, sorts: seq<bool>, first: nat) returns (outs: seq<seq<Logged<V>>>, last: nat)
    requires |sorts| == |batches|
    ensures WrittenRun(batches, outs, first) && last == first + |Concat(outs)|
  {
    outs, last := [], first;
    var i: nat := 0;
    while i < |batches|
      invariant i <= |batches| && WrittenRun(batches[..i], outs, first) && last == first + |Concat(outs)|
    {
      var out, next := PersistBatch(batches[i], sorts[i], last);
      RunSnoc(batches[..i], outs, first, batches[i], out);
      assert batches[..i + 1] == batches[..i] + [batches[i]];
      assert (outs + [out])[..|outs|] == outs;
      outs, last := outs + [out], next;
      i := i + 1;
    }
    assert batches[..i] == batches;
  }
}
