/**
 The capped seqno side index of one cache shard (server/cache/s3fifo_cache.cc):
 it remembers each key's latest applied seqno past the eviction of its value, and
 evicts by CLOCK. The source splits the entries by hash over 64 maps; a hash
 belongs to one part only, so one map holds them all here and a part is the
 entries of its hashes. The maps' iteration order, bucket count and allocation
 size belong to the container library and are parameters. The deleted and used
 bits of the packed word are fields; seqnos stay below 2^62 in the source.
 */
module SeqnoIndexes {

  import opened Options

  const SEQ_PARTS: nat := 64
  const MAX_SCAN: nat := 64

  datatype SeqEntry = SeqEntry(seqno: nat, deleted: bool, used: bool, valuePtr: nat)

  type Entries = map<nat, SeqEntry>

  const FRESH := SeqEntry(0, false, false, 0)

  function PartOf(h: nat): (r: nat)
    ensures r < SEQ_PARTS
  {
    (h / 0x100_0000_0000) % SEQ_PARTS
  }

  ghost predicate PartEmpty(es: Entries, i: nat) {
    forall h | h in es :: PartOf(h) != i
  }

  // ---- CLOCK ----

  /** `order` is one pass of the iterator of part i. */
  ghost predicate Enumerates(order: seq<nat>, es: Entries, i: nat) {
    && (forall j | 0 <= j < |order| :: order[j] in es && PartOf(order[j]) == i)
    && (forall j, k | 0 <= j < k < |order| :: order[j] != order[k])
    && (forall h | h in es && PartOf(h) == i :: h in order)
  }

  /** The k-th slot a scan that starts at `start` looks at. */
  function ScanAt(start: nat, k: nat, n: nat): (r: nat)
    requires start <= n && k < n
    ensures r < n
  {
    if start + k < n then start + k else start + k - n
  }

  /** An iterator at the end starts over. */
  function Wrap(i: nat, n: nat): nat {
    if i == n then 0 else i
  }

  function PositionOf(order: seq<nat>, h: nat): (r: nat)
    ensures r <= |order|
    ensures r < |order| ==> order[r] == h
    ensures h in order ==> r < |order|
  {
    if order == [] then 0 else if order[0] == h then 0 else 1 + PositionOf(order[1..], h)
  }

  /** Where the hand resumes; without one, at the end, which wraps to the beginning. */
  function ScanStart(hand: Option<nat>, order: seq<nat>): (r: nat)
    ensures r <= |order|
  {
    if hand.Some? then PositionOf(order, hand.value) else |order|
  }

  /** Equal up to the used bit. */
  predicate SameNote(a: SeqEntry, b: SeqEntry) {
    a == b.(used := a.used)
  }

  ghost predicate OnlyUsedCleared(m: Entries, was: Entries) {
    m.Keys == was.Keys && forall h | h in m :: SameNote(m[h], was[h]) && (m[h].used ==> was[h].used)
  }

  /** The first n slots of the scan were used and have lost their bit; the others are untouched. */
  ghost predicate PassedOver(m: Entries, was: Entries, order: seq<nat>, start: nat, n: nat)
    requires start <= |order| && n <= |order|
    requires m.Keys == was.Keys && forall j | 0 <= j < |order| :: order[j] in was
  {
    && (forall k | 0 <= k < n :: was[order[ScanAt(start, k, |order|)]].used && !m[order[ScanAt(start, k, |order|)]].used)
    && (forall k | n <= k < |order| :: m[order[ScanAt(start, k, |order|)]] == was[order[ScanAt(start, k, |order|)]])
  }

  /** Moves the hand past used entries, clearing their bits, for at most MAX_SCAN steps. */
  method Scan(was: Entries, order: seq<nat>, start: nat) returns (m: Entries, i: nat, ghost n: nat)
    requires order != [] && start <= |order|
    requires forall j | 0 <= j < |order| :: order[j] in was
    requires forall j, k | 0 <= j < k < |order| :: order[j] != order[k]
    ensures OnlyUsedCleared(m, was) && n <= |order| && PassedOver(m, was, order, start, n)
    ensures i < |order| && i == ScanAt(start, if n < |order| then n else 0, |order|)
    ensures n == MAX_SCAN || !m[order[i]].used
  {
    m, i, n := was, start, 0;
    var steps := 0;
    while steps < MAX_SCAN
      invariant 0 <= steps <= MAX_SCAN && n == steps && n <= |order| && i <= |order|
      invariant OnlyUsedCleared(m, was) && PassedOver(m, was, order, start, n)
      invariant Wrap(i, |order|) == ScanAt(start, if n < |order| then n else 0, |order|)
    {
      i := Wrap(i, |order|);
      if !m[order[i]].used {
        break;
      }
      assert n < |order|;
      assert forall k | 0 <= k < |order| && k != n :: ScanAt(start, k, |order|) != i;
      m := m[order[i] := m[order[i]].(used := false)];
      i, n, steps := i + 1, n + 1, steps + 1;
    }
    i := Wrap(i, |order|);
  }

  /**
   Evicts one entry of a part. A used entry goes only if everything the bounded scan could
   look at was used; otherwise the first unused entry from the hand on goes.
   */
  method EvictSeq(es: Entries, i: nat, hand: Option<nat>, order: seq<nat>) returns (r: Entries, next: Option<nat>, victim: nat)
    requires !PartEmpty(es, i) && Enumerates(order, es, i)
    requires hand.Some? ==> hand.value in es && PartOf(hand.value) == i
    ensures victim in es && PartOf(victim) == i && r.Keys == es.Keys - {victim} && |r| == |es| - 1
    ensures forall h | h in r :: SameNote(r[h], es[h]) && (r[h].used ==> es[h].used)
    ensures next.Some? ==> next.value in r && PartOf(next.value) == i
    ensures es[victim].used ==>
      forall k | 0 <= k < MAX_SCAN && k < |order| :: es[order[ScanAt(ScanStart(hand, order), k, |order|)]].used
    ensures !es[victim].used ==>
      exists v :: 0 <= v < |order| && order[ScanAt(ScanStart(hand, order), v, |order|)] == victim
        && forall k | 0 <= k < v :: es[order[ScanAt(ScanStart(hand, order), k, |order|)]].used
  {
    assert order != [];
    var start := ScanStart(hand, order);
    var m, at, n := Scan(es, order, start);
    victim := order[at];
    r := m - {victim};
    assert |r.Keys| == |m.Keys| - 1;
    next := if at + 1 < |order| then Some(order[at + 1]) else None;
    if n < |order| {
      assert order[ScanAt(start, n, |order|)] == victim;
    } else {
      assert es[order[ScanAt(start, 0, |order|)]].used;
    }
  }

  // ---- The index ----

  /** What a note leaves in the key's entry: seqnos only rise, and a newer one resets the value pointer. */
  function Noted(v: SeqEntry, seqno: nat, deleted: bool, valuePtr: nat): (r: SeqEntry)
    ensures r.seqno == if seqno > v.seqno then seqno else v.seqno
    ensures r.used == v.used
  {
    if seqno > v.seqno || (seqno == v.seqno && deleted)
    then SeqEntry(seqno, deleted, v.used, if deleted then 0 else valuePtr)
    else if seqno == v.seqno && valuePtr != 0 && !v.deleted then v.(valuePtr := valuePtr)
    else v
  }

  /** Past this point a part that is still empty never gets an entry. */
  predicate Saturated(cap: nat, bytes: nat) {
    cap > 0 && bytes > cap
  }

  /** The index answers for every write but those of hash `but`. */
  ghost predicate Covered(es: Entries, written: map<nat, nat>, but: int, evictions: nat, full: bool) {
    forall h | h in written && h != but ::
      if h in es then written[h] <= es[h].seqno else evictions > 0 || (full && PartEmpty(es, PartOf(h)))
  }

  ghost predicate PointersOk(es: Entries, reported: set<(nat, nat, nat)>) {
    forall h | h in es && es[h].valuePtr != 0 :: !es[h].deleted && (h, es[h].seqno, es[h].valuePtr) in reported
  }

  ghost predicate HandsOk(es: Entries, hands: seq<Option<nat>>) {
    |hands| == SEQ_PARTS
    && forall i | 0 <= i < SEQ_PARTS && hands[i].Some? :: hands[i].value in es && PartOf(hands[i].value) == i
  }

  ghost predicate BytesOk(es: Entries, partBytes: seq<nat>) {
    |partBytes| == SEQ_PARTS && forall i | 0 <= i < SEQ_PARTS && PartEmpty(es, i) :: partBytes[i] == 0
  }

  /**
   What a note does: the hash's entry, if it ends up with one, takes the note; every other
   entry keeps its own note, and goes only if evicted from the same part.
   */
  ghost predicate NoteStep(was: Entries, now: Entries, h: nat, seqno: nat, deleted: bool, valuePtr: nat, evicted: int) {
    && 0 <= evicted <= 1 && |now| <= |was| + 1 - evicted
    && (h in was ==> h in now && evicted == 0)
    && (h in now ==> now[h] == Noted(if h in was then was[h] else FRESH, seqno, deleted, valuePtr))
    && (forall k | k in now && k != h :: k in was && SameNote(now[k], was[k]))
    && (forall k | k in was && k !in now :: evicted == 1 && PartOf(k) == PartOf(h))
  }

  /** An admission: a blank entry for h and, if it had to evict, one entry of h's part less. */
  ghost predicate AdmitStep(was: Entries, now: Entries, h: nat, evicted: bool) {
    && h !in was && h in now && now[h] == FRESH && |now| == |was| + (if evicted then 0 else 1)
    && (forall k | k in now && k != h :: k in was && SameNote(now[k], was[k]))
    && (forall k | k in was && k !in now :: evicted && PartOf(k) == PartOf(h))
  }

  lemma AdmitThenNote(was: Entries, mid: Entries, h: nat, evicted: bool, seqno: nat, deleted: bool, valuePtr: nat)
    requires AdmitStep(was, mid, h, evicted)
    ensures NoteStep(was, mid[h := Noted(FRESH, seqno, deleted, valuePtr)], h, seqno, deleted, valuePtr, if evicted then 1 else 0)
  {
    var now := mid[h := Noted(FRESH, seqno, deleted, valuePtr)];
    assert now.Keys == mid.Keys;
    assert |now| == |now.Keys| == |mid.Keys| == |mid|;
  }

  lemma NoteInPlace(was: Entries, h: nat, seqno: nat, deleted: bool, valuePtr: nat)
    requires h in was
    ensures NoteStep(was, was[h := Noted(was[h], seqno, deleted, valuePtr)], h, seqno, deleted, valuePtr, 0)
  {
    var now := was[h := Noted(was[h], seqno, deleted, valuePtr)];
    assert now.Keys == was.Keys;
    assert |now| == |now.Keys| == |was.Keys| == |was|;
  }

  method AddBlank(es: Entries, hand: Option<nat>, order: seq<nat>, h: nat, evict: bool)
      returns (r: Entries, next: Option<nat>)
    requires h !in es && Enumerates(order, es, PartOf(h)) && (evict ==> order != [])
    requires hand.Some? ==> hand.value in es && PartOf(hand.value) == PartOf(h)
    ensures AdmitStep(es, r, h, evict)
    ensures next.Some? ==> next.value in r && PartOf(next.value) == PartOf(h)
  {
    r, next := es, hand;
    if evict {
      assert order[0] in es && PartOf(order[0]) == PartOf(h);
      var victim;
      r, next, victim := EvictSeq(es, PartOf(h), hand, order);
    }
    r := r[h := FRESH];
  }

  lemma AdmitCovered(was: Entries, now: Entries, h: nat, evicted: bool, written: map<nat, nat>, evictions: nat, full: bool, full': bool)
    requires AdmitStep(was, now, h, evicted) && Covered(was, written, -1, evictions, full) && (full ==> full')
    requires PartEmpty(was, PartOf(h)) ==> !full
    ensures Covered(now, written, h, if evicted then evictions + 1 else evictions, full')
  {
    forall k | k in written && k != h && k !in now
      ensures evicted || evictions > 0 || (full' && PartEmpty(now, PartOf(k)))
    {
      if !evicted && evictions == 0 {
        assert k !in was && full && PartEmpty(was, PartOf(k));
        assert PartOf(k) != PartOf(h);
      }
    }
  }

  lemma AdmitKeeps(was: Entries, now: Entries, h: nat, evicted: bool, hands: seq<Option<nat>>, next: Option<nat>,
                   partBytes: seq<nat>, newBytes: nat, reported: set<(nat, nat, nat)>)
    requires AdmitStep(was, now, h, evicted) && HandsOk(was, hands) && BytesOk(was, partBytes) && PointersOk(was, reported)
    requires next.Some? ==> next.value in now && PartOf(next.value) == PartOf(h)
    ensures HandsOk(now, hands[PartOf(h) := next]) && BytesOk(now, partBytes[PartOf(h) := newBytes]) && PointersOk(now, reported)
  {
    var i := PartOf(h);
    forall j | 0 <= j < SEQ_PARTS && j != i && PartEmpty(now, j)
      ensures PartEmpty(was, j)
    {}
  }

  class SeqnoIndex {
    var entries: Entries
    var partBytes: seq<nat>
    var hands: seq<Option<nat>>
    const cap: nat // 0: unbounded
    var bytes: nat
    var evictions: nat
    var rejected: nat

    // History: the newest seqno a writer noted per hash, every (hash, seqno, pointer)
    // reported, and how many entries were ever admitted.
    ghost var written: map<nat, nat>
    ghost var reported: set<(nat, nat, nat)>
    ghost var admitted: nat

    ghost predicate Valid()
      reads this
    {
      ValidBut(-1)
    }

    ghost predicate ValidBut(but: int)
      reads this
    {
      && HandsOk(entries, hands) && BytesOk(entries, partBytes)
      && Covered(entries, written, but, evictions, Saturated(cap, bytes))
      && PointersOk(entries, reported)
      && |entries| + evictions == admitted
    }

    constructor (cap: nat)
      ensures Valid() && this.cap == cap && entries == map[] && written == map[] && reported == {} && admitted == 0
    {
      this.cap := cap;
      entries := map[];
      partBytes, hands := seq(SEQ_PARTS, _ => 0), seq(SEQ_PARTS, _ => None);
      bytes, evictions, rejected := 0, 0, 0;
      written, reported, admitted := map[], {}, 0;
    }

    /** A full part doubles on insert with both allocations live, so the cap is checked against that peak. */
    predicate Fits(i: nat, size: nat, bucketCount: nat)
      reads this
      requires i < |partBytes|
    {
      cap == 0 || bytes + (if size >= bucketCount then 2 * partBytes[i] else 0) <= cap
    }

    /** A fill on a shard that has evicted, or no room and nothing in the part to evict. */
    predicate Refuses(i: nat, size: nat, admit: bool, bucketCount: nat)
      reads this
      requires i < |partBytes|
    {
      (!admit && evictions > 0) || (!Fits(i, size, bucketCount) && size == 0)
    }

    lemma RefusalIsFinal(h: nat, admit: bool, order: seq<nat>, bucketCount: nat)
      requires Valid() && h !in entries && Enumerates(order, entries, PartOf(h))
      ensures Refuses(PartOf(h), |order|, admit, bucketCount) ==>
        evictions > 0 || (PartEmpty(entries, PartOf(h)) && Saturated(cap, bytes))
      ensures !Refuses(PartOf(h), |order|, admit, bucketCount) ==>
        (PartEmpty(entries, PartOf(h)) ==> !Saturated(cap, bytes)) && (admit || h !in written)
    {
      assert PartEmpty(entries, PartOf(h)) <==> order == [] by {
        if order != [] { assert order[0] in entries && PartOf(order[0]) == PartOf(h); }
      }
    }

    /** Makes room for, and adds, a blank entry for a hash the index does not hold. */
    method Admit(h: nat, order: seq<nat>, evict: bool, newBytes: nat)
      requires Valid() && h !in entries && Enumerates(order, entries, PartOf(h)) && partBytes[PartOf(h)] <= newBytes
      requires (evict ==> order != []) && (PartEmpty(entries, PartOf(h)) ==> !Saturated(cap, bytes))
      modifies this`entries, this`partBytes, this`hands, this`bytes, this`evictions, this`admitted
      ensures ValidBut(h) && AdmitStep(old(entries), entries, h, evict)
      ensures evictions == old(evictions) + if evict then 1 else 0
    {
      var now, next := AddBlank(entries, hands[PartOf(h)], order, h, evict);
      Install(h, evict, now, next, newBytes);
    }

    method Install(h: nat, evict: bool, now: Entries, next: Option<nat>, newBytes: nat)
      requires Valid() && AdmitStep(entries, now, h, evict) && partBytes[PartOf(h)] <= newBytes
      requires PartEmpty(entries, PartOf(h)) ==> !Saturated(cap, bytes)
      requires next.Some? ==> next.value in now && PartOf(next.value) == PartOf(h)
      modifies this`entries, this`partBytes, this`hands, this`bytes, this`evictions, this`admitted
      ensures ValidBut(h) && entries == now && evictions == old(evictions) + if evict then 1 else 0
    {
      var i := PartOf(h);
      AdmitKeeps(entries, now, h, evict, hands, next, partBytes, newBytes, reported);
      var more := bytes + (newBytes - partBytes[i]);
      AdmitCovered(entries, now, h, evict, written, evictions, Saturated(cap, bytes), Saturated(cap, more));
      entries, hands, bytes := now, hands[i := next], more;
      partBytes := partBytes[i := newBytes];
      evictions, admitted := if evict then evictions + 1 else evictions, admitted + 1;
    }

    /** Rewrites the entry of a hash the index holds, and adds to the history. */
    method SetEntry(h: nat, e: SeqEntry, ghost writ: map<nat, nat>, ghost rep: set<(nat, nat, nat)>)
      requires ValidBut(h) && h in entries && reported <= rep
      requires e.valuePtr != 0 ==> !e.deleted && (h, e.seqno, e.valuePtr) in rep
      requires (forall k | k != h :: k in writ <==> k in written) && (forall k | k in written && k != h :: writ[k] == written[k])
      requires h in writ ==> writ[h] <= e.seqno
      modifies this`entries, this`written, this`reported
      ensures Valid() && written == writ && reported == rep && entries == old(entries)[h := e]
    {
      assert entries[h := e].Keys == entries.Keys;
      assert |entries[h := e].Keys| == |entries.Keys|;
      assert forall i | 0 <= i < SEQ_PARTS && PartEmpty(entries[h := e], i) :: PartEmpty(entries, i);
      assert forall i | 0 <= i < SEQ_PARTS && PartEmpty(entries, i) :: PartEmpty(entries[h := e], i);
      entries, written, reported := entries[h := e], writ, rep;
    }

    /**
     Records a seqno. Writers (admit) note one hash in increasing order; a read fill may
     carry an older seqno, and adds a key only while the shard has never evicted.
     */
    method NoteSeqno(h: nat, seqno: nat, deleted: bool, valuePtr: nat, admit: bool,
                     order: seq<nat>, bucketCount: nat, newBytes: nat)
      requires Valid()
      requires admit && h in written ==> written[h] <= seqno
      requires Enumerates(order, entries, PartOf(h)) && partBytes[PartOf(h)] <= newBytes
      modifies this
      ensures Valid()
      ensures written == if admit then old(written)[h := seqno] else old(written)
      ensures reported == old(reported) + {(h, seqno, valuePtr)}
      ensures NoteStep(old(entries), entries, h, seqno, deleted, valuePtr, evictions - old(evictions))
    {
      ghost var rep := reported + {(h, seqno, valuePtr)};
      ghost var writ := if admit then written[h := seqno] else written;
      if h !in entries {
        RefusalIsFinal(h, admit, order, bucketCount);
        if Refuses(PartOf(h), |order|, admit, bucketCount) {
          rejected, reported, written := rejected + 1, rep, writ;
        } else {
          NoteNew(h, seqno, deleted, valuePtr, order, !Fits(PartOf(h), |order|, bucketCount), newBytes, writ, rep);
        }
      } else {
        NoteInPlace(entries, h, seqno, deleted, valuePtr);
        SetEntry(h, Noted(entries[h], seqno, deleted, valuePtr), writ, rep);
      }
    }

    method NoteNew(h: nat, seqno: nat, deleted: bool, valuePtr: nat, order: seq<nat>, evict: bool, newBytes: nat,
                   ghost writ: map<nat, nat>, ghost rep: set<(nat, nat, nat)>)
      requires Valid() && h !in entries && Enumerates(order, entries, PartOf(h)) && partBytes[PartOf(h)] <= newBytes
      requires (evict ==> order != []) && (PartEmpty(entries, PartOf(h)) ==> !Saturated(cap, bytes))
      requires rep == reported + {(h, seqno, valuePtr)}
      requires writ == written[h := seqno] || (writ == written && h !in written)
      modifies this
      ensures Valid() && written == writ && reported == rep
      ensures NoteStep(old(entries), entries, h, seqno, deleted, valuePtr, evictions - old(evictions))
    {
      Admit(h, order, evict, newBytes);
      AdmitThenNote(old(entries), entries, h, evict, seqno, deleted, valuePtr);
      SetEntry(h, Noted(FRESH, seqno, deleted, valuePtr), writ, rep);
    }

    /** Where the doc at seqno was found; kept only while seqno is the hash's latest and alive. */
    method NoteValuePtr(h: nat, seqno: nat, valuePtr: nat)
      requires Valid()
      modifies this`entries, this`written, this`reported
      ensures Valid() && written == old(written) && reported == old(reported) + {(h, seqno, valuePtr)}
      ensures entries ==
        if h in old(entries) && old(entries)[h].seqno == seqno && !old(entries)[h].deleted
        then old(entries)[h := old(entries)[h].(valuePtr := valuePtr)] else old(entries)
    {
      ghost var rep := reported + {(h, seqno, valuePtr)};
      if h in entries && entries[h].seqno == seqno && !entries[h].deleted {
        SetEntry(h, entries[h].(valuePtr := valuePtr), written, rep);
      } else {
        reported := rep;
      }
    }

    /**
     A hint that is not 0 is at least every seqno a writer noted for the hash, and a
     value pointer given with it was reported for exactly that seqno.
     */
    method SeqnoHint(h: nat) returns (hint: nat, valuePtr: nat)
      requires Valid()
      modifies this`entries, this`written, this`reported
      ensures Valid() && written == old(written) && reported == old(reported)
      ensures hint != 0 && h in written ==> written[h] <= hint
      ensures valuePtr != 0 ==> (h, hint, valuePtr) in reported
      ensures
        if h in old(entries) && !old(entries)[h].deleted
        then hint == old(entries)[h].seqno && valuePtr == old(entries)[h].valuePtr
             && entries == old(entries)[h := old(entries)[h].(used := true)]
        else hint == 0 && valuePtr == 0 && entries == old(entries)
    {
      if h !in entries || entries[h].deleted {
        return 0, 0;
      }
      hint, valuePtr := entries[h].seqno, entries[h].valuePtr;
      SetEntry(h, entries[h].(used := true), written, reported);
    }
  }
}
