/**
 The shard as the source keeps it: two queues with running byte counts, the
 open-addressing index, the ghost deque beside its set, and counters, all updated
 in place. Every method is proved to take State() where CacheModel says it goes.
 */
module CacheShards {

  import opened FlatIndexes
  import opened Options
  import opened CacheModel
  import opened CachePins

  lemma {:induction false} BytesSnoc(q: seq<Entry>, e: Entry)
    ensures Bytes(q + [e]) == Bytes(q) + e.charge
  {
    if q == [] {
      assert [e][1..] == [];
    } else {
      BytesSnoc(q[1..], e);
      assert (q + [e])[1..] == q[1..] + [e];
    }
  }

  lemma {:induction false} BytesRemove(q: seq<Entry>, k: DocKey)
    requires Find(q, k).Some?
    ensures Bytes(q) == Bytes(Remove(q, k)) + Find(q, k).value.charge
  {
    if q[0].key != k {
      BytesRemove(q[1..], k);
      assert Remove(q, k)[1..] == Remove(q[1..], k);
    }
  }

  lemma {:induction false} BytesReplace(q: seq<Entry>, e: Entry)
    requires Find(q, e.key).Some? && Find(q, e.key).value.charge == e.charge
    ensures Bytes(Replace(q, e)) == Bytes(q)
  {
    var r := Replace(q, e);
    if q[0].key != e.key {
      BytesReplace(q[1..], e);
      assert r[1..] == Replace(q[1..], e);
    } else {
      assert r[1..] == q[1..];
    }
  }

  ghost function Elems(s: seq<nat>): set<nat> {
    set x | x in s
  }

  ghost predicate NoDups(s: seq<nat>) {
    forall i, j | 0 <= i < j < |s| :: s[i] != s[j]
  }

  lemma ElemsSnoc(s: seq<nat>, x: nat)
    requires NoDups(s) && x !in Elems(s)
    ensures Elems(s + [x]) == Elems(s) + {x} && NoDups(s + [x])
  {
    assert forall i | 0 <= i < |s| :: s[i] in Elems(s);
  }

  /** Pops the front of the deque, and its hash from the set, until at most `cap` are left. */
  method DropOldest(deque: seq<nat>, members: set<nat>, cap: nat) returns (d: seq<nat>, m: set<nat>)
    requires members == Elems(deque) && NoDups(deque)
    ensures d == if |deque| > cap then deque[|deque| - cap..] else deque
    ensures m == Elems(d) && NoDups(d)
  {
    d, m := deque, members;
    ghost var out := 0;
    while |d| > cap
      invariant 0 <= out <= |deque| && d == deque[out..] && m == Elems(d) && NoDups(d)
      invariant |d| >= cap || out == 0
      decreases |d|
    {
      assert d == [d[0]] + d[1..];
      m := m - {d[0]};
      d := d[1..];
      out := out + 1;
    }
  }

  datatype GetResult = Miss | Tombstone(seqno: nat) | TooLarge | Hit(doc: Doc, seqno: nat)

  class ShardCache {
    const hashKey: DocKey -> nat
    var small: seq<Entry>
    var main: seq<Entry>
    var smallBytes: nat
    var mainBytes: nat
    const index: FlatIndex<DocKey>
    var ghosts: seq<nat>
    var ghostSet: set<nat>
    var budget: nat
    var smallBudget: nat
    var pendingItems: int

    ghost function State(): Shard
      reads this, index, index.slots
    {
      Shard(small, main, index.Contents(), ghosts, budget, smallBudget, pendingItems)
    }

    /** The running counts and the index agree with the queues. */
    ghost predicate Counted()
      reads this, index, index.slots
    {
      && index.Valid()
      && smallBytes == Bytes(small) && mainBytes == Bytes(main)
      && ghostSet == Elems(ghosts) && NoDups(ghosts)
    }

    ghost predicate Valid()
      reads this, index, index.slots
    {
      Counted() && Ok(hashKey, State())
    }

    constructor (hashKey: DocKey -> nat, perShard: nat)
      ensures Valid() && State() == Init(perShard) && this.hashKey == hashKey && fresh(index) && fresh(index.slots)
    {
      this.hashKey := hashKey;
      small, main, smallBytes, mainBytes, ghosts, ghostSet := [], [], 0, 0, [], {};
      budget, smallBudget, pendingItems := perShard, perShard * SMALL_PERCENT / 100, 0;
      index := new FlatIndex();
    }

    /** The index finds a key exactly when a queue holds it. */
    method FindEntry(k: DocKey) returns (r: Option<Entry>)
      requires Valid()
      ensures r == Lookup(State(), k)
    {
      var found := index.Find(hashKey(k), k' => k' == k);
      LookupLive(hashKey, State(), k);
      if found.None? {
        assert (hashKey(k), k) !in index.Contents();
        return None;
      }
      r := Find(small, k);
      if r.None? {
        r := Find(main, k);
      }
    }

    /** Keeps the deque and the set in step. */
    method RememberGhost(h: nat)
      requires Counted()
      modifies this`ghosts, this`ghostSet
      ensures Counted()
      ensures State() == old(State()).(ghosts := GhostAdd(old(ghosts), h, |main|))
    {
      if h in ghostSet {
        return;
      }
      ElemsSnoc(ghosts, h);
      ghosts, ghostSet := DropOldest(ghosts + [h], ghostSet + {h}, GhostCap(|main|));
    }

    method PushMain(e: Entry)
      requires Counted()
      modifies this`main, this`mainBytes
      ensures Counted() && State() == old(State()).(main := old(main) + [e])
    {
      BytesSnoc(main, e);
      main, mainBytes := main + [e], mainBytes + e.charge;
    }

    method PushSmall(e: Entry)
      requires Counted()
      modifies this`small, this`smallBytes
      ensures Counted() && State() == old(State()).(small := old(small) + [e])
    {
      BytesSnoc(small, e);
      small, smallBytes := small + [e], smallBytes + e.charge;
    }

    method EraseIndex(k: DocKey)
      requires Counted()
      requires forall x | x in index.Contents() && x.1 == k :: x.0 == hashKey(k)
      modifies index, index.slots
      ensures Counted() && index.slots == old(index.slots)
      ensures State() == old(State()).(index := old(State().index) - {(hashKey(k), k)})
    {
      index.Erase(hashKey(k), k);
    }

    method FreeEntry(e: Entry)
      requires Counted()
      requires forall x | x in index.Contents() && x.1 == e.key :: x.0 == hashKey(e.key)
      modifies this`pendingItems, index, index.slots
      ensures Counted() && index.slots == old(index.slots)
      ensures State() == Free(hashKey, old(State()), e)
    {
      EraseIndex(e.key);
      if e.pending > 0 {
        pendingItems := pendingItems - 1;
      }
    }

    method EvictSmallTail()
      requires Valid() && small != []
      modifies this, index, index.slots
      ensures Valid() && State() == EvictSmall(hashKey, old(State())) && index.slots == old(index.slots)
    {
      EvictSmallKeeps(hashKey, State());
      IndexHashes(hashKey, State());
      var e := small[0];
      small, smallBytes := small[1..], smallBytes - e.charge;
      if e.pending > 0 || e.freq > 1 {
        PushMain(e.(freq := 0, queue := Main));
      } else {
        RememberGhost(hashKey(e.key));
        FreeEntry(e);
      }
    }

    method PopMain() returns (e: Entry)
      requires Counted() && main != []
      modifies this`main, this`mainBytes
      ensures Counted() && e == old(main)[0] && State() == old(State()).(main := old(main)[1..])
    {
      e := main[0];
      main, mainBytes := main[1..], mainBytes - e.charge;
    }

    /** The oldest main entry goes round again, less frequent, or is freed. */
    method RotateMain()
      requires Counted() && main != []
      requires forall x | x in index.Contents() :: x.0 == hashKey(x.1)
      modifies this, index, index.slots
      ensures Counted() && State() == EvictMain(hashKey, old(State())) && index.slots == old(index.slots)
    {
      var e := PopMain();
      if e.pending > 0 || e.freq > 0 {
        PushMain(e.(freq := if e.freq > 0 then e.freq - 1 else 0));
      } else {
        FreeEntry(e);
      }
    }

    method EvictMainTail()
      requires Valid() && main != []
      modifies this, index, index.slots
      ensures Valid() && State() == EvictMain(hashKey, old(State())) && index.slots == old(index.slots)
    {
      EvictMainKeeps(hashKey, State());
      IndexHashes(hashKey, State());
      RotateMain();
    }

    method EvictToBudget()
      requires Valid()
      modifies this, index, index.slots
      ensures Valid() && State() == Evict(hashKey, old(State())) && index.slots == old(index.slots)
    {
      var guard: nat := (MAX_FREQ + 1) * (|small| + |main|) + 1;
      while smallBytes + mainBytes > budget && guard > 0
        invariant Valid() && index.slots == old(index.slots)
        invariant EvictLoop(hashKey, State(), guard) == Evict(hashKey, old(State()))
        decreases guard
      {
        // The source's last resort, small when main is empty, is the second disjunct.
        if small != [] && (smallBytes > smallBudget || main == []) {
          EvictSmallTail();
        } else if main != [] {
          EvictMainTail();
        } else {
          break;
        }
        guard := guard - 1;
      }
    }

    method InsertEntry(e: Entry)
      requires Counted()
      requires forall x | x in index.Contents() :: x.1 != e.key
      modifies this, index, index.slots
      ensures Counted() && State() == Insert(hashKey, old(State()), e)
      ensures index.slots == old(index.slots) || fresh(index.slots)
    {
      if hashKey(e.key) in ghostSet {
        PushMain(e.(queue := Main));
      } else {
        PushSmall(e.(queue := Small));
      }
      index.Insert(hashKey(e.key), e.key);
    }

    method UnlinkEntry(e: Entry)
      requires Valid() && Lookup(State(), e.key) == Some(e)
      modifies this`small, this`main, this`smallBytes, this`mainBytes
      ensures Counted() && State() == Unlink(old(State()), e)
    {
      LookupLive(hashKey, State(), e.key);
      FindView(small, e.key);
      FindView(main, e.key);
      if e.queue == Small {
        BytesRemove(small, e.key);
        small, smallBytes := Remove(small, e.key), smallBytes - e.charge;
      } else {
        BytesRemove(main, e.key);
        main, mainBytes := Remove(main, e.key), mainBytes - e.charge;
      }
    }

    /** An in-place change to an entry's own fields. */
    method UpdateEntry(e: Entry)
      requires Valid() && Lookup(State(), e.key).Some?
      requires Lookup(State(), e.key).value.queue == e.queue && Lookup(State(), e.key).value.charge == e.charge
      modifies this`small, this`main
      ensures Counted() && State() == Update(old(State()), e)
    {
      LookupLive(hashKey, State(), e.key);
      FindView(small, e.key);
      FindView(main, e.key);
      if e.queue == Small {
        BytesReplace(small, e);
        small := Replace(small, e);
      } else {
        BytesReplace(main, e);
        main := Replace(main, e);
      }
    }

    method DisplaceOld(k: DocKey) returns (carry: nat)
      requires Valid()
      modifies this`small, this`main, this`smallBytes, this`mainBytes, index, index.slots
      ensures Counted() && State() == Displace(hashKey, old(State()), k) && index.slots == old(index.slots)
      ensures carry == CarryOf(old(State()), k)
      ensures forall x | x in index.Contents() :: x.1 != k
    {
      IndexHashes(hashKey, State());
      LookupLive(hashKey, State(), k);
      var prev := FindEntry(k);
      carry := 0;
      if prev.Some? {
        carry := prev.value.pending;
        UnlinkEntry(prev.value);
        EraseIndex(k);
      }
    }

    method CountPin(carry: nat)
      requires Counted()
      modifies this`pendingItems
      ensures Counted() && State() == CountedPin(old(State()), carry) && index.Contents() == old(index.Contents())
    {
      if carry == 0 { pendingItems := pendingItems + 1; }
    }

    method LandNew(k: DocKey, doc: Doc, charge: nat, carry: nat)
      requires Counted()
      requires forall x | x in index.Contents() :: x.1 != k
      modifies this, index, index.slots
      ensures Counted() && State() == Land(hashKey, old(State()), k, doc, charge, carry)
      ensures index.slots == old(index.slots) || fresh(index.slots)
    {
      CountPin(carry);
      InsertEntry(Entry(k, doc, 0, charge, carry + 1, 0, Small));
    }

    method Put(k: DocKey, doc: Doc, charge: nat)
      requires Valid()
      modifies this, index, index.slots
      ensures Valid() && State() == Step(hashKey, old(State()), Op.Put(k, doc, charge))
      ensures index.slots == old(index.slots) || fresh(index.slots)
    {
      WriteThroughKeeps(hashKey, State(), k, doc, charge);
      var carry := DisplaceOld(k);
      LandNew(k, doc, charge, carry);
      EvictToBudget();
    }

    /** The doorkeeper's section: a hash not remembered yet is remembered, and its fill put off. */
    method DeferFill(k: DocKey) returns (deferred: bool)
      requires Valid()
      modifies this`ghosts, this`ghostSet
      ensures Valid() && (deferred <==> hashKey(k) !in old(ghosts))
      ensures State() == if deferred then Step(hashKey, old(State()), Remember(k)) else old(State())
    {
      deferred := hashKey(k) !in ghostSet;
      if deferred { RememberGhost(hashKey(k)); }
    }

    /** The filling section looks again, as another fill may have landed since. */
    method FillIfAbsent(k: DocKey, doc: Doc, seqno: nat, charge: nat)
      requires Valid()
      modifies this, index, index.slots
      ensures Valid() && State() == Step(hashKey, old(State()), Fill(k, doc, seqno, charge))
      ensures index.slots == old(index.slots) || fresh(index.slots)
    {
      LookupLive(hashKey, State(), k);
      IndexHashes(hashKey, State());
      var found := FindEntry(k);
      if found.None? {
        InsertKeeps(hashKey, State(), Entry(k, doc, seqno, charge, 0, 0, Small));
        InsertEntry(Entry(k, doc, seqno, charge, 0, 0, Small));
        EvictToBudget();
      }
    }

    /** Look, doorkeeper and fill, each in a section of its own. */
    method PutIfAbsent(k: DocKey, doc: Doc, seqno: nat, charge: nat, doorkeeper: bool)
      requires Valid()
      modifies this, index, index.slots
      ensures Valid() && State() == Step(hashKey, old(State()),
        if doorkeeper && Lookup(old(State()), k).None? && hashKey(k) !in old(ghosts) then Remember(k) else Fill(k, doc, seqno, charge))
      ensures index.slots == old(index.slots) || fresh(index.slots)
    {
      var found := FindEntry(k);
      if found.Some? {
        return;
      }
      if doorkeeper {
        var deferred := DeferFill(k);
        if deferred {
          return;
        }
      }
      FillIfAbsent(k, doc, seqno, charge);
    }

    method TouchKey(k: DocKey)
      requires Valid() && Lookup(State(), k).Some?
      modifies this`small, this`main
      ensures Valid() && State() == TouchEntry(old(State()), k)
    {
      LookupLive(hashKey, State(), k);
      var found := FindEntry(k);
      var e := found.value;
      if e.freq < MAX_FREQ {
        TouchKeeps(hashKey, State(), k);
        TouchIs(State(), k, e);
        UpdateEntry(e.(freq := e.freq + 1));
      }
    }

    /** The resident document, its frequency raised up to three; a buffer too small is told so and gets nothing. */
    method Get(k: DocKey, room: nat) returns (r: GetResult)
      requires Valid()
      modifies this`small, this`main
      ensures Valid() && State() == Step(hashKey, old(State()), Touch(k))
      ensures r == match old(Lookup(State(), k))
                   case None => Miss
                   case Some(e) =>
                     if e.doc.deleted then Tombstone(e.seqno) else if |e.doc.value| > room then TooLarge else Hit(e.doc, e.seqno)
    {
      var found := FindEntry(k);
      if found.None? {
        return Miss;
      }
      var e := found.value;
      TouchKey(k);
      if e.doc.deleted {
        return Tombstone(e.seqno);
      }
      r := if |e.doc.value| > room then TooLarge else Hit(e.doc, e.seqno);
    }

    /** One pin fewer; over says that it was the last one and the shard is over budget. */
    method ReleasePin(k: DocKey, seqno: nat) returns (over: bool)
      requires Valid() && Lookup(State(), k).Some?
      modifies this`small, this`main, this`pendingItems
      ensures Counted() && State() == MarkEntry(old(State()), k, seqno)
      ensures CarryOf(old(State()), k) > 0 ==> Valid()
      ensures over <==> CarryOf(old(State()), k) == 1 && TotalBytes(State()) > budget
    {
      LookupLive(hashKey, State(), k);
      var found := FindEntry(k);
      var e := found.value;
      if e.pending > 0 { MarkKeeps(hashKey, State(), k, seqno); }
      UpdateEntry(Marked(e, seqno));
      over := false;
      if e.pending == 1 {
        pendingItems := pendingItems - 1;
        over := smallBytes + mainBytes > budget;
      }
    }

    /**
     Releases one pin and, when the last one goes while the shard is over budget,
     trims it. A pin released where there is none wraps the count. The trim runs under its own lock, so a run may put other operations
     between the two.
     */
    method MarkPersisted(k: DocKey, seqno: nat)
      requires Valid()
      modifies this, index, index.slots
      ensures Counted() && index.slots == old(index.slots)
      ensures Lookup(old(State()), k).None? || CarryOf(old(State()), k) > 0 ==> Valid()
      ensures State() == var marked := Step(hashKey, old(State()), Mark(k, seqno));
                if CarryOf(old(State()), k) == 1 then Step(hashKey, marked, Trim) else marked
    {
      var found := FindEntry(k);
      if found.None? {
        return;
      }
      var over := ReleasePin(k, seqno);
      if over {
        EvictToBudget();
      }
    }

    method EraseKey(k: DocKey)
      requires Valid()
      modifies this, index, index.slots
      ensures Valid() && State() == Step(hashKey, old(State()), Op.Erase(k)) && index.slots == old(index.slots)
    {
      LookupLive(hashKey, State(), k);
      IndexHashes(hashKey, State());
      var found := FindEntry(k);
      if found.Some? {
        DropKeeps(hashKey, State(), k);
        UnlinkEntry(found.value);
        FreeEntry(found.value);
      }
    }

    method SetBudget(perShard: nat)
      requires Valid()
      modifies this, index, index.slots
      ensures Valid() && State() == Step(hashKey, old(State()), Op.SetBudget(perShard)) && index.slots == old(index.slots)
    {
      budget, smallBudget := perShard, perShard * SMALL_PERCENT / 100;
      EvictToBudget();
    }
  }

  lemma IndexHashes(H: DocKey -> nat, s: Shard)
    requires Ok(H, s)
    ensures forall x | x in s.index :: x.0 == H(x.1) && x.1 in Live(s)
  {}
}
