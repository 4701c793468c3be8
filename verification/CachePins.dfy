/**
 The pinning contract of the document cache over whole runs: an entry with
 unapplied writes is never lost and always shows its newest write, the index
 holds exactly the queued entries, and a read fill lands only on a clean key.
 */
module CachePins {

  import opened Options
  import opened CacheModel
  import CacheEviction

  // ---- Queues as maps ----

  lemma {:induction false} FindView(q: seq<Entry>, k: DocKey)
    ensures Find(q, k) == if k in View(q) then Some(View(q)[k]) else None
  {
    if q == [] {
    } else {
      FindView(q[1..], k);
    }
  }

  lemma {:induction false} ViewAt(q: seq<Entry>, which: Queue, k: DocKey)
    requires QueueOk(q, which) && k in View(q)
    ensures View(q)[k].key == k && View(q)[k].freq <= MAX_FREQ && View(q)[k].queue == which
  {
    if q[0].key != k {
      ViewAt(q[1..], which, k);
    }
  }

  lemma {:induction false} PushOk(q: seq<Entry>, e: Entry)
    requires QueueOk(q, e.queue) && e.key !in View(q) && e.freq <= MAX_FREQ
    ensures QueueOk(q + [e], e.queue)
    ensures Pinned(q + [e]) == Pinned(q) + if e.pending > 0 then 1 else 0
    ensures View(q + [e]) == View(q)[e.key := e]
  {
    if q == [] {
      assert [e][1..] == [];
    } else {
      PushOk(q[1..], e);
      assert (q + [e])[1..] == q[1..] + [e];
    }
  }

  lemma {:induction false} RemoveOk(q: seq<Entry>, which: Queue, k: DocKey)
    requires QueueOk(q, which) && k in View(q)
    ensures QueueOk(Remove(q, k), which)
    ensures Pinned(q) == Pinned(Remove(q, k)) + if View(q)[k].pending > 0 then 1 else 0
    ensures View(Remove(q, k)) == View(q) - {k}
  {
    if q[0].key != k {
      RemoveOk(q[1..], which, k);
      assert Remove(q, k)[1..] == Remove(q[1..], k);
    }
  }

  lemma {:induction false} ReplaceOk(q: seq<Entry>, e: Entry)
    requires QueueOk(q, e.queue) && e.freq <= MAX_FREQ && e.key in View(q)
    ensures QueueOk(Replace(q, e), e.queue)
    ensures Pinned(Replace(q, e)) + (if View(q)[e.key].pending > 0 then 1 else 0)
         == Pinned(q) + if e.pending > 0 then 1 else 0
    ensures View(Replace(q, e)) == View(q)[e.key := e]
  {
    var r := Replace(q, e);
    if q[0].key != e.key {
      ReplaceOk(q[1..], e);
      assert r[1..] == Replace(q[1..], e);
    } else {
      assert r[1..] == q[1..];
    }
  }

  lemma LookupLive(H: DocKey -> nat, s: Shard, k: DocKey)
    requires Ok(H, s)
    ensures Lookup(s, k) == if k in Live(s) then Some(Live(s)[k]) else None
    ensures k in Live(s) ==> Live(s)[k].key == k && Live(s)[k].freq <= MAX_FREQ
    ensures k in Live(s) ==> (Live(s)[k].queue == Small <==> k in View(s.small))
    ensures k in Live(s) ==> (Live(s)[k].queue == Main <==> k in View(s.main))
  {
    FindView(s.small, k);
    FindView(s.main, k);
    if k in View(s.small) { ViewAt(s.small, Small, k); }
    if k in View(s.main) { ViewAt(s.main, Main, k); }
  }

  // ---- What each piece of a critical section keeps ----

  /** Unapplied writes of a key. */
  ghost function Pending(live: map<DocKey, Entry>, k: DocKey): nat {
    if k in live then live[k].pending else 0
  }

  /** Pins and pinned documents are the same in both views. */
  ghost predicate SamePins(a: map<DocKey, Entry>, b: map<DocKey, Entry>) {
    forall k :: Pending(a, k) == Pending(b, k) && (Pending(a, k) > 0 ==> a[k].doc == b[k].doc)
  }

  lemma IndexedPut(H: DocKey -> nat, live: map<DocKey, Entry>, k: DocKey, e: Entry)
    ensures Indexed(H, live[k := e].Keys) == Indexed(H, live.Keys) + {(H(k), k)}
  {
    assert live[k := e].Keys == live.Keys + {k};
  }

  lemma IndexedDrop(H: DocKey -> nat, live: map<DocKey, Entry>, k: DocKey)
    ensures Indexed(H, (live - {k}).Keys) == Indexed(H, live.Keys) - {(H(k), k)}
  {
    assert (live - {k}).Keys == live.Keys - {k};
  }

  /** Writing key k through to main, when small does not hold it. */
  lemma LivePutMain(s: Shard, t: Shard, k: DocKey, e: Entry)
    requires t.small == s.small && View(t.main) == View(s.main)[k := e] && k !in View(s.small)
    requires View(s.small).Keys !! View(s.main).Keys
    ensures Live(t) == Live(s)[k := e] && View(t.small).Keys !! View(t.main).Keys
  {}

  lemma LivePutSmall(s: Shard, t: Shard, k: DocKey, e: Entry)
    requires t.main == s.main && View(t.small) == View(s.small)[k := e] && k !in View(s.main)
    requires View(s.small).Keys !! View(s.main).Keys
    ensures Live(t) == Live(s)[k := e] && View(t.small).Keys !! View(t.main).Keys
  {}

  lemma LiveDropMain(s: Shard, t: Shard, k: DocKey)
    requires t.small == s.small && View(t.main) == View(s.main) - {k} && k in View(s.main)
    requires View(s.small).Keys !! View(s.main).Keys
    ensures Live(t) == Live(s) - {k} && View(t.small).Keys !! View(t.main).Keys
  {}

  lemma LiveDropSmall(s: Shard, t: Shard, k: DocKey)
    requires t.main == s.main && View(t.small) == View(s.small) - {k} && k in View(s.small)
    requires View(s.small).Keys !! View(s.main).Keys
    ensures Live(t) == Live(s) - {k} && View(t.small).Keys !! View(t.main).Keys
  {}

  lemma EvictSmallKeeps(H: DocKey -> nat, s: Shard)
    requires Ok(H, s) && s.small != []
    ensures Ok(H, EvictSmall(H, s)) && SamePins(Live(s), Live(EvictSmall(H, s)))
  {
    var e, t := s.small[0], EvictSmall(H, s);
    var cut := s.(small := s.small[1..]);
    assert View(cut.small) == View(s.small) - {e.key};
    LiveDropSmall(s, cut, e.key);
    if e.pending > 0 || e.freq > 1 {
      var e' := e.(freq := 0, queue := Main);
      PushOk(s.main, e');
      LivePutMain(cut, t, e.key, e');
      assert Live(t).Keys == Live(s).Keys;
    } else {
      IndexedDrop(H, Live(s), e.key);
    }
  }

  lemma PopMainKeeps(H: DocKey -> nat, s: Shard)
    requires Ok(H, s) && s.main != []
    ensures Ok(H, Free(H, s.(main := s.main[1..]), s.main[0]))
    ensures Live(s.(main := s.main[1..])) == Live(s) - {s.main[0].key} && s.main[0].key in Live(s)
    ensures Live(s)[s.main[0].key] == s.main[0]
  {
    var e := s.main[0];
    assert View(s.main[1..]) == View(s.main) - {e.key};
    LiveDropMain(s, s.(main := s.main[1..]), e.key);
    IndexedDrop(H, Live(s), e.key);
  }

  /** An entry taken off main's tail goes back to its head with a frequency still in range. */
  lemma RequeueKeeps(H: DocKey -> nat, s: Shard, e: Entry)
    requires Ok(H, s) && s.main != [] && e == s.main[0].(freq := e.freq) && e.freq <= MAX_FREQ
    ensures
      var t := s.(main := s.main[1..] + [e]);
      Ok(H, t) && Live(t) == Live(s)[e.key := e]
  {
    var t := s.(main := s.main[1..] + [e]);
    var cut := s.(main := s.main[1..]);
    PopMainKeeps(H, s);
    PushOk(cut.main, e);
    LivePutMain(cut, t, e.key, e);
    assert Live(t) == Live(s)[e.key := e];
    assert Live(t).Keys == Live(s).Keys;
  }

  lemma EvictMainKeeps(H: DocKey -> nat, s: Shard)
    requires Ok(H, s) && s.main != []
    ensures Ok(H, EvictMain(H, s)) && SamePins(Live(s), Live(EvictMain(H, s)))
  {
    var e := s.main[0];
    PopMainKeeps(H, s);
    if e.pending > 0 || e.freq > 0 {
      RequeueKeeps(H, s, e.(freq := if e.freq > 0 then e.freq - 1 else 0));
    }
  }

  lemma {:induction false} EvictKeeps(H: DocKey -> nat, s: Shard, g: nat)
    requires Ok(H, s)
    ensures Ok(H, EvictLoop(H, s, g)) && SamePins(Live(s), Live(EvictLoop(H, s, g)))
    decreases g
  {
    if g > 0 && CanEvict(s) {
      if FromSmall(s) {
        EvictSmallKeeps(H, s);
      } else {
        EvictMainKeeps(H, s);
      }
      EvictKeeps(H, EvictOne(H, s), g - 1);
    }
  }

  /** Removing a resident entry from its queue, the index and the pin count. */
  lemma DropKeeps(H: DocKey -> nat, s: Shard, k: DocKey)
    requires Ok(H, s) && k in Live(s)
    ensures Ok(H, Free(H, Unlink(s, Live(s)[k]), Live(s)[k]))
    ensures Live(Free(H, Unlink(s, Live(s)[k]), Live(s)[k])) == Live(s) - {k}
  {
    LookupLive(H, s, k);
    IndexedDrop(H, Live(s), k);
    var t := Free(H, Unlink(s, Live(s)[k]), Live(s)[k]);
    if k in View(s.small) {
      RemoveOk(s.small, Small, k);
      LiveDropSmall(s, t, k);
    } else {
      RemoveOk(s.main, Main, k);
      LiveDropMain(s, t, k);
    }
  }

  /** Inserting a new entry and counting its pin. */
  lemma InsertKeeps(H: DocKey -> nat, s: Shard, e: Entry)
    requires Ok(H, s) && e.key !in Live(s) && e.freq == 0
    ensures
      var s' := if e.pending > 0 then s.(pendingItems := s.pendingItems + 1) else s;
      && Ok(H, Insert(H, s', e))
      && Live(Insert(H, s', e)) == Live(s)[e.key := e.(queue := if H(e.key) in s.ghosts then Main else Small)]
  {
    var t := Insert(H, s, e);
    IndexedPut(H, Live(s), e.key, e);
    if H(e.key) in s.ghosts {
      PushOk(s.main, e.(queue := Main));
      LivePutMain(s, t, e.key, e.(queue := Main));
    } else {
      PushOk(s.small, e.(queue := Small));
      LivePutSmall(s, t, e.key, e.(queue := Small));
    }
    assert Live(t).Keys == Live(s)[e.key := e].Keys;
  }

  lemma UpdateKeeps(H: DocKey -> nat, s: Shard, e: Entry)
    requires Ok(H, s) && e.key in Live(s) && e.freq <= MAX_FREQ && e.queue == Live(s)[e.key].queue
    ensures
      var was := if Live(s)[e.key].pending > 0 then 1 else 0;
      var now := if e.pending > 0 then 1 else 0;
      && Ok(H, Update(s, e).(pendingItems := s.pendingItems - was + now))
      && Live(Update(s, e)) == Live(s)[e.key := e]
  {
    LookupLive(H, s, e.key);
    var t := Update(s, e);
    if e.key in View(s.small) {
      ReplaceOk(s.small, e);
      LivePutSmall(s, t, e.key, e);
    } else {
      ReplaceOk(s.main, e);
      LivePutMain(s, t, e.key, e);
    }
    assert Live(t).Keys == Live(s).Keys;
  }

  lemma OverwriteIs(H: DocKey -> nat, s: Shard, e: Entry, doc: Doc, charge: nat)
    requires Lookup(s, e.key) == Some(e)
    ensures
      var t := Free(H, Unlink(s, e), e);
      WriteThrough(H, s, e.key, doc, charge)
      == Insert(H, t.(pendingItems := t.pendingItems + 1), Entry(e.key, doc, 0, charge, e.pending + 1, 0, Small))
  {
    assert Displace(H, s, e.key) == Free(H, Unlink(s, e), e).(pendingItems := s.pendingItems);
  }

  ghost function WrittenEntry(H: DocKey -> nat, s: Shard, k: DocKey, doc: Doc, charge: nat): Entry {
    Entry(k, doc, 0, charge, Pending(Live(s), k) + 1, 0, if H(k) in s.ghosts then Main else Small)
  }

  lemma PutBack(live: map<DocKey, Entry>, k: DocKey, e: Entry)
    ensures (live - {k})[k := e] == live[k := e]
  {}

  lemma OverwriteKeeps(H: DocKey -> nat, s: Shard, k: DocKey, doc: Doc, charge: nat)
    requires Ok(H, s) && k in Live(s)
    ensures Ok(H, WriteThrough(H, s, k, doc, charge))
    ensures Live(WriteThrough(H, s, k, doc, charge)) == Live(s)[k := WrittenEntry(H, s, k, doc, charge)]
  {
    var e := Live(s)[k];
    LookupLive(H, s, k);
    DropKeeps(H, s, k);
    var t := Free(H, Unlink(s, e), e);
    assert t.ghosts == s.ghosts;
    OverwriteIs(H, s, e, doc, charge);
    InsertKeeps(H, t, Entry(k, doc, 0, charge, e.pending + 1, 0, Small));
    PutBack(Live(s), k, WrittenEntry(H, s, k, doc, charge));
  }

  lemma FreshIs(H: DocKey -> nat, s: Shard, k: DocKey, doc: Doc, charge: nat)
    requires Lookup(s, k) == None
    ensures WriteThrough(H, s, k, doc, charge)
      == Insert(H, s.(pendingItems := s.pendingItems + 1), Entry(k, doc, 0, charge, 1, 0, Small))
  {}

  lemma FreshKeeps(H: DocKey -> nat, s: Shard, k: DocKey, doc: Doc, charge: nat)
    requires Ok(H, s) && k !in Live(s)
    ensures Ok(H, WriteThrough(H, s, k, doc, charge))
    ensures Live(WriteThrough(H, s, k, doc, charge)) == Live(s)[k := WrittenEntry(H, s, k, doc, charge)]
  {
    LookupLive(H, s, k);
    FreshIs(H, s, k, doc, charge);
    InsertKeeps(H, s, Entry(k, doc, 0, charge, 1, 0, Small));
  }

  /** The new entry carries every unapplied write of its key, its own included. */
  lemma WriteThroughKeeps(H: DocKey -> nat, s: Shard, k: DocKey, doc: Doc, charge: nat)
    requires Ok(H, s)
    ensures Ok(H, WriteThrough(H, s, k, doc, charge))
    ensures Live(WriteThrough(H, s, k, doc, charge)) == Live(s)[k := WrittenEntry(H, s, k, doc, charge)]
  {
    if k in Live(s) {
      OverwriteKeeps(H, s, k, doc, charge);
    } else {
      FreshKeeps(H, s, k, doc, charge);
    }
  }

  // ---- Runs ----

  function Change(op: Op, k: DocKey): int {
    if op.Put? && op.key == k then 1 else if (op.Mark? || op.Refuse?) && op.key == k then -1 else 0
  }

  /** Puts of k neither refused nor yet matched by a MarkPersisted. */
  function Outstanding(ops: seq<Op>, k: DocKey): int {
    if ops == [] then 0 else Outstanding(ops[..|ops| - 1], k) + Change(ops[|ops| - 1], k)
  }

  /** The document of the last Put of k. */
  function Newest(ops: seq<Op>, k: DocKey): Option<Doc> {
    if ops == [] then None
    else
      var op := ops[|ops| - 1];
      if op.Put? && op.key == k then Some(op.doc) else Newest(ops[..|ops| - 1], k)
  }

  /** At most one MarkPersisted or refusal per Put, and no other Erase of a key with writes outstanding. */
  ghost predicate Legal(ops: seq<Op>) {
    ops != [] ==>
      var pre, op := ops[..|ops| - 1], ops[|ops| - 1];
      && Legal(pre)
      && (op.Mark? || op.Refuse? ==> Outstanding(pre, op.key) > 0)
      && (op.Erase? ==> Outstanding(pre, op.key) == 0)
  }

  /** Whenever a write was refused it was the only one outstanding for its key. */
  ghost predicate Alone(ops: seq<Op>) {
    ops != [] ==>
      var pre, op := ops[..|ops| - 1], ops[|ops| - 1];
      Alone(pre) && (op.Refuse? ==> Outstanding(pre, op.key) == 1)
  }

  /** The live entries agree with the history of the operations. */
  ghost predicate Faithful(live: map<DocKey, Entry>, ops: seq<Op>) {
    forall k :: Pending(live, k) == Outstanding(ops, k) && (Pending(live, k) > 0 ==> Newest(ops, k) == Some(live[k].doc))
  }

  lemma EvictFaithful(H: DocKey -> nat, s: Shard, ops: seq<Op>)
    requires Ok(H, s) && Faithful(Live(s), ops)
    ensures Ok(H, Evict(H, s)) && Faithful(Live(Evict(H, s)), ops)
  {
    EvictKeeps(H, s, Guard(s));
  }

  /** What one more operation does to the history. */
  lemma HistorySnoc(pre: seq<Op>, op: Op)
    ensures forall k :: Outstanding(pre + [op], k) == Outstanding(pre, k) + Change(op, k)
    ensures forall k :: Newest(pre + [op], k) == if op.Put? && op.key == k then Some(op.doc) else Newest(pre, k)
  {
    assert (pre + [op])[..|pre|] == pre;
  }

  /** An operation on key e.key whose entry afterwards is e. */
  lemma EntryFaithful(live: map<DocKey, Entry>, pre: seq<Op>, op: Op, e: Entry)
    requires Faithful(live, pre) && e.pending == Pending(live, e.key) + Change(op, e.key)
    requires forall k | k != e.key :: Change(op, k) == 0
    requires e.pending > 0 ==> e.doc == if op.Put? then op.doc else if e.key in live then live[e.key].doc else e.doc
    requires op.Put? ==> op.key == e.key
    requires !op.Put? && e.pending > 0 ==> Pending(live, e.key) > 0
    ensures Faithful(live[e.key := e], pre + [op])
  {
    HistorySnoc(pre, op);
    assert Pending(live, e.key) == Outstanding(pre, e.key);
    forall k | k != e.key
      ensures Pending(live[e.key := e], k) == Pending(live, k)
    {}
  }

  /** An operation that neither puts, marks nor refuses leaves the history of every key. */
  lemma QuietFaithful(live: map<DocKey, Entry>, pre: seq<Op>, op: Op)
    requires Faithful(live, pre) && !op.Put? && !op.Mark? && !op.Refuse?
    ensures Faithful(live, pre + [op])
  {
    HistorySnoc(pre, op);
  }

  lemma DropFaithful(live: map<DocKey, Entry>, ops: seq<Op>, k: DocKey)
    requires Faithful(live, ops) && Pending(live, k) == 0
    ensures Faithful(live - {k}, ops)
  {
    forall j ensures Pending(live - {k}, j) == Pending(live, j) {}
  }

  lemma PutFaithful(H: DocKey -> nat, s: Shard, pre: seq<Op>, op: Op)
    requires Ok(H, s) && Faithful(Live(s), pre) && op.Put?
    ensures Ok(H, Step(H, s, op)) && Faithful(Live(Step(H, s, op)), pre + [op])
  {
    var t := WriteThrough(H, s, op.key, op.doc, op.charge);
    WriteThroughKeeps(H, s, op.key, op.doc, op.charge);
    EntryFaithful(Live(s), pre, op, WrittenEntry(H, s, op.key, op.doc, op.charge));
    EvictFaithful(H, t, pre + [op]);
  }

  lemma MarkKeeps(H: DocKey -> nat, s: Shard, k: DocKey, seqno: nat)
    requires Ok(H, s) && k in Live(s) && Live(s)[k].pending > 0
    ensures Ok(H, MarkEntry(s, k, seqno))
    ensures Live(MarkEntry(s, k, seqno)) == Live(s)[k := Marked(Live(s)[k], seqno)]
  {
    LookupLive(H, s, k);
    var e' := Marked(Live(s)[k], seqno);
    UpdateKeeps(H, s, e');
    assert MarkEntry(s, k, seqno) == Update(s, e').(pendingItems := s.pendingItems - 1 + if e'.pending > 0 then 1 else 0);
  }

  lemma MarkFaithful(H: DocKey -> nat, s: Shard, pre: seq<Op>, op: Op)
    requires Ok(H, s) && Faithful(Live(s), pre) && op.Mark? && Outstanding(pre, op.key) > 0
    ensures Ok(H, Step(H, s, op)) && Faithful(Live(Step(H, s, op)), pre + [op])
  {
    assert Pending(Live(s), op.key) > 0;
    LookupLive(H, s, op.key);
    MarkKeeps(H, s, op.key, op.seqno);
    EntryFaithful(Live(s), pre, op, Marked(Live(s)[op.key], op.seqno));
  }

  lemma FillFaithful(H: DocKey -> nat, s: Shard, pre: seq<Op>, op: Op)
    requires Ok(H, s) && Faithful(Live(s), pre) && op.Fill?
    ensures Ok(H, Step(H, s, op)) && Faithful(Live(Step(H, s, op)), pre + [op])
  {
    LookupLive(H, s, op.key);
    if Lookup(s, op.key).None? {
      var e := Entry(op.key, op.doc, op.seqno, op.charge, 0, 0, Small);
      InsertKeeps(H, s, e);
      EntryFaithful(Live(s), pre, op, e.(queue := if H(e.key) in s.ghosts then Main else Small));
      EvictFaithful(H, Insert(H, s, e), pre + [op]);
    } else {
      QuietFaithful(Live(s), pre, op);
    }
  }

  lemma TouchIs(s: Shard, k: DocKey, e: Entry)
    requires Lookup(s, k) == Some(e) && e.freq < MAX_FREQ
    ensures TouchEntry(s, k) == Update(s, e.(freq := e.freq + 1))
    ensures TouchEntry(s, k) == TouchEntry(s, k).(pendingItems := s.pendingItems)
  {}

  lemma TouchKeeps(H: DocKey -> nat, s: Shard, k: DocKey)
    requires Ok(H, s) && k in Live(s) && Live(s)[k].freq < MAX_FREQ
    ensures Ok(H, TouchEntry(s, k))
    ensures Live(TouchEntry(s, k)) == Live(s)[k := Live(s)[k].(freq := Live(s)[k].freq + 1)]
  {
    var e := Live(s)[k];
    LookupLive(H, s, k);
    TouchIs(s, k, e);
    UpdateKeeps(H, s, e.(freq := e.freq + 1));
  }

  lemma NotTouched(s: Shard, k: DocKey)
    requires Lookup(s, k).Some? ==> Lookup(s, k).value.freq >= MAX_FREQ
    ensures TouchEntry(s, k) == s
  {}

  lemma TouchedFaithful(H: DocKey -> nat, s: Shard, pre: seq<Op>, op: Op, e: Entry)
    requires Ok(H, s) && Faithful(Live(s), pre) && op.Touch? && op.key in Live(s) && e == Live(s)[op.key] && e.key == op.key
    ensures Faithful(Live(s)[op.key := e.(freq := e.freq + 1)], pre + [op])
  {
    EntryFaithful(Live(s), pre, op, e.(freq := e.freq + 1));
  }

  lemma TouchFaithful(H: DocKey -> nat, s: Shard, pre: seq<Op>, op: Op)
    requires Ok(H, s) && Faithful(Live(s), pre) && op.Touch?
    ensures Ok(H, Step(H, s, op)) && Faithful(Live(Step(H, s, op)), pre + [op])
  {
    LookupLive(H, s, op.key);
    if op.key in Live(s) && Live(s)[op.key].freq < MAX_FREQ {
      TouchKeeps(H, s, op.key);
      TouchedFaithful(H, s, pre, op, Live(s)[op.key]);
    } else {
      NotTouched(s, op.key);
      QuietFaithful(Live(s), pre, op);
    }
  }

  lemma EraseKeeps(H: DocKey -> nat, s: Shard, k: DocKey)
    requires Ok(H, s)
    ensures Ok(H, EraseEntry(H, s, k)) && Live(EraseEntry(H, s, k)) == Live(s) - {k}
  {
    LookupLive(H, s, k);
    if k in Live(s) {
      DropKeeps(H, s, k);
    } else {
      assert Live(s) - {k} == Live(s);
    }
  }

  lemma EraseFaithful(H: DocKey -> nat, s: Shard, pre: seq<Op>, op: Op)
    requires Ok(H, s) && Faithful(Live(s), pre) && op.Erase? && Outstanding(pre, op.key) == 0
    ensures Ok(H, Step(H, s, op)) && Faithful(Live(Step(H, s, op)), pre + [op])
  {
    EraseKeeps(H, s, op.key);
    QuietFaithful(Live(s), pre, op);
    assert Pending(Live(s), op.key) == 0;
    DropFaithful(Live(s), pre + [op], op.key);
  }

  lemma RefusedHistory(live: map<DocKey, Entry>, pre: seq<Op>, op: Op)
    requires Faithful(live, pre) && op.Refuse?
    ensures Faithful(live - {op.key}, pre + [op]) <==> Outstanding(pre, op.key) == 1
  {
    var k, left := op.key, live - {op.key};
    HistorySnoc(pre, op);
    assert Pending(left, k) == 0;
    forall j | j != k ensures Pending(left, j) == Pending(live, j) {}
  }

  /** Undoing a refused write takes the entry away; the pins stay right exactly if it was the key's only write outstanding. */
  lemma RefuseFaithful(H: DocKey -> nat, s: Shard, pre: seq<Op>, op: Op)
    requires Ok(H, s) && Faithful(Live(s), pre) && op.Refuse?
    ensures Ok(H, Step(H, s, op)) && op.key !in Live(Step(H, s, op))
    ensures Faithful(Live(Step(H, s, op)), pre + [op]) <==> Outstanding(pre, op.key) == 1
  {
    EraseKeeps(H, s, op.key);
    RefusedHistory(Live(s), pre, op);
  }

  lemma StepFaithful(H: DocKey -> nat, s: Shard, pre: seq<Op>, op: Op)
    requires Ok(H, s) && Faithful(Live(s), pre) && Legal(pre + [op]) && Alone(pre + [op])
    ensures Ok(H, Step(H, s, op)) && Faithful(Live(Step(H, s, op)), pre + [op])
  {
    assert (pre + [op])[..|pre|] == pre;
    match op
    case Put(_, _, _) => PutFaithful(H, s, pre, op);
    case Mark(_, _) => MarkFaithful(H, s, pre, op);
    case Fill(_, _, _, _) => FillFaithful(H, s, pre, op);
    case Touch(_) => TouchFaithful(H, s, pre, op);
    case Erase(_) => EraseFaithful(H, s, pre, op);
    case Refuse(_) => RefuseFaithful(H, s, pre, op);
    case Trim =>
      QuietFaithful(Live(s), pre, op);
      EvictFaithful(H, s, pre + [op]);
    case SetBudget(b) =>
      QuietFaithful(Live(s), pre, op);
      EvictFaithful(H, s.(budget := b, smallBudget := b * SMALL_PERCENT / 100), pre + [op]);
    case Remember(k) =>
      QuietFaithful(Live(s), pre, op);
  }

  /**
   Over every legal run in which no other write of a key was outstanding when one was refused:
   pending(k) is Puts minus MarkPersisteds and refusals; a key with an outstanding write is
   resident with its newest Put's document; the index holds exactly the queued entries;
   pendingItems counts the pinned ones.
   */
  lemma {:induction false} PinsOverRuns(H: DocKey -> nat, perShard: nat, ops: seq<Op>)
    requires Legal(ops) && Alone(ops)
    ensures Ok(H, Run(H, perShard, ops)) && Faithful(Live(Run(H, perShard, ops)), ops)
  {
    if ops == [] {
    } else {
      var pre := ops[..|ops| - 1];
      PinsOverRuns(H, perShard, pre);
      assert pre + [ops[|ops| - 1]] == ops;
      StepFaithful(H, Run(H, perShard, pre), pre, ops[|ops| - 1]);
    }
  }

  lemma RunStep(H: DocKey -> nat, perShard: nat, pre: seq<Op>, op: Op)
    ensures Run(H, perShard, pre + [op]) == Step(H, Run(H, perShard, pre), op)
  {
    assert (pre + [op])[..|pre|] == pre;
  }

  /** A read fill never replaces, nor even disturbs the shard of, a key with a write outstanding. */
  lemma FillNeverOverWrite(H: DocKey -> nat, perShard: nat, ops: seq<Op>, k: DocKey, doc: Doc, seqno: nat, charge: nat)
    requires Legal(ops) && Alone(ops) && Outstanding(ops, k) > 0
    ensures Step(H, Run(H, perShard, ops), Fill(k, doc, seqno, charge)) == Run(H, perShard, ops)
  {
    PinsOverRuns(H, perShard, ops);
    assert Pending(Live(Run(H, perShard, ops)), k) > 0;
    LookupLive(H, Run(H, perShard, ops), k);
  }

  // ---- The overshoot, in every run whatever ----

  ghost predicate InRange(q: seq<Entry>) {
    forall i | 0 <= i < |q| :: q[i].freq <= MAX_FREQ
  }

  /** What eviction relies on. */
  ghost predicate Trimmable(s: Shard) {
    InRange(s.small) && InRange(s.main) && s.smallBudget <= s.budget
  }

  lemma {:induction false} QueueInRange(q: seq<Entry>, e: Entry, k: DocKey)
    requires InRange(q) && e.freq <= MAX_FREQ
    ensures InRange(Remove(q, k)) && InRange(Replace(q, e))
  {
    if q != [] { QueueInRange(q[1..], e, k); }
  }

  lemma {:induction false} EvictTrimmable(H: DocKey -> nat, s: Shard, g: nat)
    requires Trimmable(s)
    ensures Trimmable(EvictLoop(H, s, g))
    decreases g
  {
    if g > 0 && CanEvict(s) { EvictTrimmable(H, EvictOne(H, s), g - 1); }
  }

  lemma UpdateTrimmable(s: Shard, e: Entry, k: DocKey)
    requires Trimmable(s) && e.freq <= MAX_FREQ
    ensures Trimmable(Update(s, e)) && Trimmable(Unlink(s, e.(key := k)))
  {
    QueueInRange(s.small, e, k);
    QueueInRange(s.main, e, k);
  }

  lemma FoundInRange(s: Shard, k: DocKey)
    requires Trimmable(s) && Lookup(s, k).Some?
    ensures Lookup(s, k).value.freq <= MAX_FREQ && Lookup(s, k).value.key == k
  {}

  lemma EraseTrimmable(H: DocKey -> nat, s: Shard, k: DocKey)
    requires Trimmable(s)
    ensures Trimmable(EraseEntry(H, s, k)) && Trimmable(Displace(H, s, k))
  {
    if Lookup(s, k).Some? {
      FoundInRange(s, k);
      UpdateTrimmable(s, Lookup(s, k).value, k);
    }
  }

  lemma InsertTrimmable(H: DocKey -> nat, s: Shard, e: Entry)
    requires Trimmable(s) && e.freq <= MAX_FREQ
    ensures Trimmable(Insert(H, s, e))
  {}

  lemma WriteTrimmable(H: DocKey -> nat, s: Shard, k: DocKey, doc: Doc, charge: nat)
    requires Trimmable(s)
    ensures Trimmable(WriteThrough(H, s, k, doc, charge))
  {
    EraseTrimmable(H, s, k);
    var carry := CarryOf(s, k);
    InsertTrimmable(H, CountedPin(Displace(H, s, k), carry), Entry(k, doc, 0, charge, carry + 1, 0, Small));
  }

  lemma TouchTrimmable(s: Shard, k: DocKey, seqno: nat)
    requires Trimmable(s)
    ensures Trimmable(TouchEntry(s, k)) && Trimmable(MarkEntry(s, k, seqno))
  {
    if Lookup(s, k).Some? {
      var e := Lookup(s, k).value;
      FoundInRange(s, k);
      UpdateTrimmable(s, Marked(e, seqno), k);
      if e.freq < MAX_FREQ { UpdateTrimmable(s, e.(freq := e.freq + 1), k); }
    }
  }

  /** What an operation that evicts hands to the eviction. */
  function BeforeEvict(H: DocKey -> nat, s: Shard, op: Op): Option<Shard> {
    match op
    case Put(k, doc, charge) => Some(WriteThrough(H, s, k, doc, charge))
    case Fill(k, doc, seqno, charge) =>
      if Lookup(s, k).Some? then None else Some(Insert(H, s, Entry(k, doc, seqno, charge, 0, 0, Small)))
    case Trim => Some(s)
    case SetBudget(b) => Some(s.(budget := b, smallBudget := b * SMALL_PERCENT / 100))
    case _ => None
  }

  lemma BeforeTrimmable(H: DocKey -> nat, s: Shard, op: Op)
    requires Trimmable(s) && BeforeEvict(H, s, op).Some?
    ensures Trimmable(BeforeEvict(H, s, op).value) && Step(H, s, op) == Evict(H, BeforeEvict(H, s, op).value)
  {
    match op
    case Put(k, doc, charge) => WriteTrimmable(H, s, k, doc, charge);
    case _ =>
  }

  lemma StepTrimmable(H: DocKey -> nat, s: Shard, op: Op)
    requires Trimmable(s)
    ensures Trimmable(Step(H, s, op))
  {
    if BeforeEvict(H, s, op).Some? {
      var t := BeforeEvict(H, s, op).value;
      BeforeTrimmable(H, s, op);
      EvictTrimmable(H, t, Guard(t));
    } else {
      match op
      case Touch(k) => TouchTrimmable(s, k, 0);
      case Mark(k, seqno) => TouchTrimmable(s, k, seqno);
      case Erase(k) => EraseTrimmable(H, s, k);
      case Refuse(k) => EraseTrimmable(H, s, k);
      case _ =>
    }
  }

  lemma {:induction false} RunTrimmable(H: DocKey -> nat, perShard: nat, ops: seq<Op>)
    ensures Trimmable(Run(H, perShard, ops))
  {
    if ops != [] {
      RunTrimmable(H, perShard, ops[..|ops| - 1]);
      StepTrimmable(H, Run(H, perShard, ops[..|ops| - 1]), ops[|ops| - 1]);
    }
  }

  /** After every operation that evicts, in any run at all, the shard is over budget by at most its pinned bytes. */
  lemma OvershootIsPinned(H: DocKey -> nat, perShard: nat, pre: seq<Op>, op: Op)
    requires op.Put? || op.Trim? || op.SetBudget? || (op.Fill? && Lookup(Run(H, perShard, pre), op.key).None?)
    ensures
      var s := Run(H, perShard, pre + [op]);
      TotalBytes(s) <= s.budget + PinnedBytes(s.main)
  {
    var s := Run(H, perShard, pre);
    RunStep(H, perShard, pre, op);
    RunTrimmable(H, perShard, pre);
    BeforeTrimmable(H, s, op);
    var t := BeforeEvict(H, s, op).value;
    assert forall e | e in t.main :: e.freq <= MAX_FREQ;
    CacheEviction.GuardSuffices(H, t);
  }
}
