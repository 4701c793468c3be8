/**
 The write-queue byte budget (server/engine.cc) as interleaved steps of IO
 threads, writers, the durable notifier and the shards' completion threads. An
 IO thread admits writes against the shared counter plus what it has staged
 itself, and charges what it staged at once when it flushes; every path a batch
 can take gives back what its writes were charged.
 */
module QueueBytes {
  import opened Totals

  /** A write: its charged size (key, value and the request itself) and the IO thread that staged it. */
  datatype Item = Item(size: nat, origin: nat)

  datatype Io = Io(thread: nat, staged: seq<Item>, bytes: nat)

  datatype Writer = Off | Holding(batch: seq<Item>)

  /** Bytes to give back once `lsn` is durable, and the writes they were charged for. */
  datatype Entry = Entry(lsn: nat, bytes: nat, items: seq<Item>)

  datatype State = State(
    limit: nat,
    queued: int,                        // the shared counter
    io: seq<Io>,
    queue: seq<Item>,                   // flushed, not yet swept by a writer
    writers: seq<Writer>,
    ledger: seq<Entry>,                 // the notifier's
    settling: seq<Item>,                // summed up by the notifier, not yet given back
    settlingBytes: nat,
    pending: seq<Entry>)                // with the shards' completion threads, in whatever order those get to them

  datatype Step =
    | Stage(i: nat, size: nat)
    | Flush(i: nat)
    | Sweep(j: nat, batch: seq<Item>, rest: seq<Item>)
    | ReleaseNow(j: nat, kept: seq<Item>, dropped: seq<Item>)
    | ToLedger(j: nat, kept: seq<Item>, dropped: seq<Item>, lsn: nat)
    | ToPending(j: nat, kept: seq<Item>, dropped: seq<Item>, lsn: nat)
    | Collect(durable: nat)
    | Settle
    | Complete(before: seq<Entry>, entry: Entry, after: seq<Entry>)

  function SizeOf(x: Item): nat { x.size }

  function Bytes(items: seq<Item>): nat { Sum(items, SizeOf) }

  function Init(limit: nat, threads: nat, writers: nat): State {
    State(limit, 0, seq(threads, (i: nat) => Io(i, [], 0)), [], Repeat(writers, Off), [], [], 0, [])
  }

  predicate Splits(whole: seq<Item>, a: seq<Item>, b: seq<Item>) {
    multiset(whole) == multiset(a) + multiset(b)
  }

  /** A writer's batch, deduplicated: survivors and dropped duplicates are both given back. */
  predicate CanFinish(s: State, j: nat, kept: seq<Item>, dropped: seq<Item>) {
    j < |s.writers| && s.writers[j].Holding? && Splits(s.writers[j].batch, kept, dropped)
  }

  predicate Can(s: State, a: Step) {
    match a
    case Stage(i, size) => i < |s.io| && size > 0
    case Flush(i) => i < |s.io|
    case Sweep(j, batch, rest) => j < |s.writers| && s.writers[j] == Off && Splits(s.queue, batch, rest)
    case ReleaseNow(j, kept, dropped) => CanFinish(s, j, kept, dropped)
    case ToLedger(j, kept, dropped, _) => CanFinish(s, j, kept, dropped)
    case ToPending(j, kept, dropped, _) => CanFinish(s, j, kept, dropped)
    case Collect(_) => s.settling == [] && s.settlingBytes == 0
    case Settle => true
    case Complete(before, e, after) => s.pending == before + [e] + after
  }

  predicate Admits(s: State, i: nat, size: nat)
    requires i < |s.io|
  {
    s.queued + s.io[i].bytes + size <= s.limit
  }

  function ItemsOf(e: Entry): seq<Item> { e.items }

  function BytesOf(e: Entry): nat { e.bytes }

  function Due(ledger: seq<Entry>, durable: nat): seq<Entry> {
    if ledger == [] then []
    else Due(ledger[..|ledger| - 1], durable) + if ledger[|ledger| - 1].lsn <= durable then [ledger[|ledger| - 1]] else []
  }

  function Kept(ledger: seq<Entry>, durable: nat): seq<Entry> {
    if ledger == [] then []
    else Kept(ledger[..|ledger| - 1], durable) + if ledger[|ledger| - 1].lsn <= durable then [] else [ledger[|ledger| - 1]]
  }

  function Staging(io: Io, size: nat): Io {
    io.(staged := io.staged + [Item(size, io.thread)], bytes := io.bytes + size)
  }

  function Do(s: State, a: Step): State
    requires Can(s, a)
  {
    match a
    case Stage(i, size) =>
      if Admits(s, i, size) then s.(io := s.io[i := Staging(s.io[i], size)]) else s
    case Flush(i) =>
      s.(queued := s.queued + s.io[i].bytes, queue := s.queue + s.io[i].staged, io := s.io[i := s.io[i].(staged := [], bytes := 0)])
    case Sweep(j, batch, rest) => s.(writers := s.writers[j := Holding(batch)], queue := rest)
    case ReleaseNow(j, kept, dropped) =>
      s.(writers := s.writers[j := Off], queued := s.queued - (Bytes(kept) + Bytes(dropped)))
    case ToLedger(j, kept, dropped, lsn) =>
      s.(writers := s.writers[j := Off], ledger := s.ledger + [Entry(lsn, Bytes(kept) + Bytes(dropped), kept + dropped)])
    case ToPending(j, kept, dropped, lsn) =>
      s.(writers := s.writers[j := Off], pending := s.pending + [Entry(lsn, Bytes(kept) + Bytes(dropped), kept + dropped)])
    case Collect(durable) =>
      var due := Due(s.ledger, durable);
      s.(ledger := Kept(s.ledger, durable), settling := Held(due, ItemsOf), settlingBytes := Sum(due, BytesOf))
    case Settle => s.(queued := s.queued - s.settlingBytes, settling := [], settlingBytes := 0)
    case Complete(before, e, after) => s.(queued := s.queued - e.bytes, pending := before + after)
  }

  ghost predicate Legal(s: State, run: seq<Step>)
    decreases |run|
  {
    run == [] || (Can(s, run[0]) && Legal(Do(s, run[0]), run[1..]))
  }

  function Run(s: State, run: seq<Step>): State
    requires Legal(s, run)
    decreases |run|
  {
    if run == [] then s else Run(Do(s, run[0]), run[1..])
  }

  // ---- Flushed writes not yet released ----

  function BatchOf(w: Writer): seq<Item> {
    if w.Holding? then w.batch else []
  }

  function Unreleased(s: State): seq<Item> {
    s.queue + Held(s.writers, BatchOf) + Held(s.ledger, ItemsOf) + s.settling + Held(s.pending, ItemsOf)
  }

  /** A total over the unreleased writes, place by place. */
  function Owed(s: State, w: Item -> nat): nat {
    Sum(s.queue, w) + Sum(Held(s.writers, BatchOf), w) + Sum(Held(s.ledger, ItemsOf), w)
    + Sum(s.settling, w) + Sum(Held(s.pending, ItemsOf), w)
  }

  lemma OwedIs(s: State, w: Item -> nat)
    ensures Owed(s, w) == Sum(Unreleased(s), w)
  {
    var a, b, c := s.queue, Held(s.writers, BatchOf), Held(s.ledger, ItemsOf);
    SumAppend(a, b, w);
    SumAppend(a + b, c, w);
    SumAppend(a + b + c, s.settling, w);
    SumAppend(a + b + c + s.settling, Held(s.pending, ItemsOf), w);
  }

  /** What a step adds to the unreleased writes, and what it releases. */
  function Added(s: State, a: Step): seq<Item>
    requires Can(s, a)
  {
    if a.Flush? then s.io[a.i].staged else []
  }

  function Released(s: State, a: Step): seq<Item>
    requires Can(s, a)
  {
    match a
    case ReleaseNow(j, kept, dropped) => s.writers[j].batch
    case Settle => s.settling
    case Complete(_, e, _) => e.items
    case _ => []
  }

  ghost predicate Moves(s: State, a: Step, w: Item -> nat)
    requires Can(s, a)
  {
    Owed(Do(s, a), w) + Sum(Released(s, a), w) == Owed(s, w) + Sum(Added(s, a), w)
  }

  lemma HeldSnoc(es: seq<Entry>, e: Entry, w: Item -> nat)
    ensures Sum(Held(es + [e], ItemsOf), w) == Sum(Held(es, ItemsOf), w) + Sum(e.items, w)
  {
    assert (es + [e])[..|es|] == es;
    SumAppend(Held(es, ItemsOf), e.items, w);
  }

  lemma EntriesAppend(a: seq<Entry>, b: seq<Entry>, w: Item -> nat)
    ensures Sum(Held(a + b, ItemsOf), w) == Sum(Held(a, ItemsOf), w) + Sum(Held(b, ItemsOf), w)
  {
    HeldAppend(a, b, ItemsOf);
    SumAppend(Held(a, ItemsOf), Held(b, ItemsOf), w);
  }

  lemma DueLast(ledger: seq<Entry>, durable: nat)
    requires ledger != []
    ensures var n := |ledger| - 1;
      var front, e := ledger[..n], ledger[n];
      && ledger == front + [e]
      && (e.lsn <= durable ==> Due(ledger, durable) == Due(front, durable) + [e] && Kept(ledger, durable) == Kept(front, durable))
      && (e.lsn > durable ==> Due(ledger, durable) == Due(front, durable) && Kept(ledger, durable) == Kept(front, durable) + [e])
  {}

  lemma {:induction false} DueKept(ledger: seq<Entry>, durable: nat, w: Item -> nat)
    ensures Sum(Held(ledger, ItemsOf), w) == Sum(Held(Kept(ledger, durable), ItemsOf), w) + Sum(Held(Due(ledger, durable), ItemsOf), w)
  {
    if ledger != [] {
      var n := |ledger| - 1;
      var e := ledger[n];
      DueKept(ledger[..n], durable, w);
      HeldSnoc(ledger[..n], e, w);
      DueLast(ledger, durable);
      if e.lsn <= durable {
        HeldSnoc(Due(ledger[..n], durable), e, w);
      } else {
        HeldSnoc(Kept(ledger[..n], durable), e, w);
      }
    }
  }

  lemma SweepMoves(s: State, a: Step, w: Item -> nat)
    requires Can(s, a) && a.Sweep?
    ensures Moves(s, a, w)
  {
    HeldTotal(s.writers, BatchOf, a.j, Holding(a.batch), w);
    SumParts(s.queue, a.batch, a.rest, w);
  }

  lemma EntryMoves(s: State, a: Step, w: Item -> nat)
    requires Can(s, a) && (a.ToLedger? || a.ToPending?)
    ensures Moves(s, a, w)
  {
    HeldTotal(s.writers, BatchOf, a.j, Off, w);
    SumParts(s.writers[a.j].batch, a.kept, a.dropped, w);
    SumAppend(a.kept, a.dropped, w);
    HeldSnoc(if a.ToLedger? then s.ledger else s.pending, Entry(a.lsn, Bytes(a.kept) + Bytes(a.dropped), a.kept + a.dropped), w);
  }

  lemma CompleteMoves(s: State, a: Step, w: Item -> nat)
    requires Can(s, a) && a.Complete?
    ensures Moves(s, a, w)
  {
    HeldSnoc(a.before, a.entry, w);
    EntriesAppend(a.before + [a.entry], a.after, w);
    EntriesAppend(a.before, a.after, w);
  }

  /** Totals over the unreleased writes change by what is added and released, whatever is totalled. */
  lemma StepMoves(s: State, a: Step, w: Item -> nat)
    requires Can(s, a)
    ensures Moves(s, a, w)
  {
    match a
    case Stage(_, _) =>
    case Flush(i) => SumAppend(s.queue, s.io[i].staged, w);
    case Sweep(_, _, _) => SweepMoves(s, a, w);
    case ReleaseNow(j, _, _) => HeldTotal(s.writers, BatchOf, j, Off, w);
    case ToLedger(_, _, _, _) => EntryMoves(s, a, w);
    case ToPending(_, _, _, _) => EntryMoves(s, a, w);
    case Collect(durable) => DueKept(s.ledger, durable, w);
    case Settle =>
    case Complete(_, _, _) => CompleteMoves(s, a, w);
  }

  // ---- Conservation ----

  ghost predicate EntryOk(e: Entry) {
    e.bytes == Bytes(e.items)
  }

  ghost predicate EntriesOk(es: seq<Entry>) {
    forall k | 0 <= k < |es| :: EntryOk(es[k])
  }

  ghost predicate StagedOk(io: Io, i: nat) {
    io.thread == i && io.bytes == Bytes(io.staged) && forall k | 0 <= k < |io.staged| :: io.staged[k].origin == i && io.staged[k].size > 0
  }

  ghost predicate BooksOk(s: State) {
    && (forall i | 0 <= i < |s.io| :: StagedOk(s.io[i], i))
    && EntriesOk(s.ledger) && EntriesOk(s.pending) && s.settlingBytes == Bytes(s.settling)
    && s.queued == Owed(s, SizeOf)
  }

  lemma {:induction false} DueOk(ledger: seq<Entry>, durable: nat)
    requires EntriesOk(ledger)
    ensures EntriesOk(Kept(ledger, durable)) && Sum(Due(ledger, durable), BytesOf) == Bytes(Held(Due(ledger, durable), ItemsOf))
  {
    if ledger != [] {
      var n := |ledger| - 1;
      var e, due := ledger[n], Due(ledger[..n], durable);
      assert EntriesOk(ledger[..n]) && EntryOk(e);
      DueOk(ledger[..n], durable);
      DueLast(ledger, durable);
      if e.lsn <= durable {
        SumAppend(due, [e], BytesOf);
        assert Sum([e], BytesOf) == e.bytes;
        HeldSnoc(due, e, SizeOf);
      }
    }
  }

  lemma FinishBytes(s: State, j: nat, kept: seq<Item>, dropped: seq<Item>)
    requires CanFinish(s, j, kept, dropped)
    ensures Bytes(kept) + Bytes(dropped) == Bytes(s.writers[j].batch) == Bytes(kept + dropped)
  {
    SumParts(s.writers[j].batch, kept, dropped, SizeOf);
    SumAppend(kept, dropped, SizeOf);
  }

  lemma OthersOk(before: seq<Entry>, e: Entry, after: seq<Entry>)
    requires EntriesOk(before + [e] + after)
    ensures EntriesOk(before + after) && EntryOk(e)
  {
    var all, n := before + [e] + after, |before|;
    assert all[n] == e;
    forall k | 0 <= k < |before + after| ensures EntryOk((before + after)[k]) {
      assert (before + after)[k] == all[if k < n then k else k + 1];
    }
  }

  lemma EntriesKept(s: State, a: Step)
    requires BooksOk(s) && Can(s, a)
    ensures var t := Do(s, a); EntriesOk(t.ledger) && EntriesOk(t.pending) && t.settlingBytes == Bytes(t.settling)
  {
    match a
    case ToLedger(j, kept, dropped, _) => FinishBytes(s, j, kept, dropped);
    case ToPending(j, kept, dropped, _) => FinishBytes(s, j, kept, dropped);
    case Collect(durable) => DueOk(s.ledger, durable);
    case Complete(before, e, after) => OthersOk(before, e, after);
    case _ =>
  }

  lemma StagedSnoc(io: Io, i: nat, size: nat)
    requires StagedOk(io, i) && size > 0
    ensures StagedOk(Staging(io, size), i)
  {
    SumAppend(io.staged, [Item(size, i)], SizeOf);
    assert Bytes([Item(size, i)]) == size;
  }

  lemma StagedKept(s: State, a: Step, i: nat)
    requires BooksOk(s) && Can(s, a) && i < |s.io|
    ensures StagedOk(Do(s, a).io[i], i)
  {
    assert StagedOk(s.io[i], i);
    if a.Stage? && a.i == i {
      StagedSnoc(s.io[i], i, a.size);
    }
  }

  /** The counter moves by the charged size of what is added and released. */
  ghost predicate Charged(s: State, a: Step)
    requires Can(s, a)
  {
    Do(s, a).queued + Sum(Released(s, a), SizeOf) == s.queued + Sum(Added(s, a), SizeOf)
  }

  lemma StepCharged(s: State, a: Step)
    requires BooksOk(s) && Can(s, a)
    ensures Charged(s, a)
  {
    match a
    case Flush(i) => assert StagedOk(s.io[i], i);
    case ReleaseNow(j, kept, dropped) => FinishBytes(s, j, kept, dropped);
    case Complete(before, e, after) => OthersOk(before, e, after);
    case _ =>
  }

  lemma CounterKept(s: State, a: Step)
    requires BooksOk(s) && Can(s, a)
    ensures Do(s, a).queued == Owed(Do(s, a), SizeOf)
  {
    StepMoves(s, a, SizeOf);
    StepCharged(s, a);
    assert s.queued == Owed(s, SizeOf);
  }

  lemma BooksKept(s: State, a: Step)
    requires BooksOk(s) && Can(s, a)
    ensures BooksOk(Do(s, a))
  {
    EntriesKept(s, a);
    forall i | 0 <= i < |s.io| ensures StagedOk(Do(s, a).io[i], i) {
      StagedKept(s, a, i);
    }
    CounterKept(s, a);
  }

  // ---- The limit, thread by thread ----

  /** The charged size of the writes one IO thread staged. */
  function Own(i: nat): Item -> nat {
    (x: Item) => if x.origin == i then x.size else 0
  }

  /** Counts writes of no size or of no thread: there are none. */
  function Stray(threads: nat): Item -> nat {
    (x: Item) => if x.origin < threads && x.size > 0 then 0 else 1
  }

  ghost predicate ShareOk(s: State, i: nat)
    requires i < |s.io|
  {
    s.io[i].bytes + Owed(s, Own(i)) <= s.limit
  }

  ghost predicate LimitOk(s: State) {
    && Owed(s, Stray(|s.io|)) == 0
    && forall i | 0 <= i < |s.io| :: ShareOk(s, i)
  }

  lemma {:induction false} StagedTotals(staged: seq<Item>, i: nat, j: nat, threads: nat)
    requires i < threads && forall k | 0 <= k < |staged| :: staged[k].origin == i && staged[k].size > 0
    ensures Sum(staged, Own(j)) == if i == j then Bytes(staged) else 0
    ensures Sum(staged, Stray(threads)) == 0
  {
    if staged != [] {
      StagedTotals(staged[..|staged| - 1], i, j, threads);
    }
  }

  lemma OwnBelow(s: State, i: nat)
    ensures Owed(s, Own(i)) <= Owed(s, SizeOf)
  {
    OwedIs(s, Own(i));
    OwedIs(s, SizeOf);
    SumBelow(Unreleased(s), Own(i), SizeOf);
  }

  lemma ShareKept(s: State, a: Step, i: nat)
    requires BooksOk(s) && LimitOk(s) && Can(s, a) && i < |s.io|
    ensures ShareOk(Do(s, a), i)
  {
    assert ShareOk(s, i);
    StepMoves(s, a, Own(i));
    if a.Flush? {
      assert StagedOk(s.io[a.i], a.i);
      StagedTotals(s.io[a.i].staged, a.i, i, |s.io|);
    } else if a.Stage? {
      OwnBelow(s, i);
    }
  }

  lemma NoStrays(s: State, a: Step)
    requires BooksOk(s) && LimitOk(s) && Can(s, a)
    ensures Owed(Do(s, a), Stray(|s.io|)) == 0
  {
    StepMoves(s, a, Stray(|s.io|));
    if a.Flush? {
      assert StagedOk(s.io[a.i], a.i);
      StagedTotals(s.io[a.i].staged, a.i, a.i, |s.io|);
    }
  }

  lemma SameThreads(s: State, a: Step)
    requires Can(s, a)
    ensures |Do(s, a).io| == |s.io| && Do(s, a).limit == s.limit
  {}

  lemma LimitKept(s: State, a: Step)
    requires BooksOk(s) && LimitOk(s) && Can(s, a)
    ensures LimitOk(Do(s, a))
  {
    var t := Do(s, a);
    SameThreads(s, a);
    NoStrays(s, a);
    forall i | 0 <= i < |t.io| ensures ShareOk(t, i) {
      ShareKept(s, a, i);
    }
  }

  lemma {:induction false} RunKeeps(s: State, run: seq<Step>)
    requires BooksOk(s) && LimitOk(s) && Legal(s, run)
    ensures BooksOk(Run(s, run)) && LimitOk(Run(s, run))
    ensures Run(s, run).limit == s.limit && |Run(s, run).io| == |s.io|
    decreases |run|
  {
    if run != [] {
      SameThreads(s, run[0]);
      BooksKept(s, run[0]);
      LimitKept(s, run[0]);
      RunKeeps(Do(s, run[0]), run[1..]);
    }
  }

  lemma {:induction false} OffHoldNothing(n: nat)
    ensures Held(Repeat(n, Off), BatchOf) == []
  {
    if n > 0 {
      OffHoldNothing(n - 1);
      assert Repeat(n, Off)[..n - 1] == Repeat(n - 1, Off);
    }
  }

  lemma InitOk(limit: nat, threads: nat, writers: nat)
    ensures BooksOk(Init(limit, threads, writers)) && LimitOk(Init(limit, threads, writers))
  {
    OffHoldNothing(writers);
  }

  // ---- Over every run ----

  /** The counter is the charged size of the flushed writes not yet released: it never underflows. */
  lemma CounterExact(limit: nat, threads: nat, writers: nat, run: seq<Step>)
    requires Legal(Init(limit, threads, writers), run)
    ensures var s := Run(Init(limit, threads, writers), run);
      s.queued == Bytes(Unreleased(s)) && s.queued >= 0
  {
    InitOk(limit, threads, writers);
    RunKeeps(Init(limit, threads, writers), run);
    OwedIs(Run(Init(limit, threads, writers), run), SizeOf);
  }

  /** And it is zero exactly when there are none. */
  lemma ZeroIffReleased(limit: nat, threads: nat, writers: nat, run: seq<Step>)
    requires Legal(Init(limit, threads, writers), run)
    ensures var s := Run(Init(limit, threads, writers), run); s.queued == 0 <==> Unreleased(s) == []
  {
    var s := Run(Init(limit, threads, writers), run);
    var u := Unreleased(s);
    InitOk(limit, threads, writers);
    RunKeeps(Init(limit, threads, writers), run);
    OwedIs(s, SizeOf);
    OwedIs(s, Stray(|s.io|));
    if u != [] {
      SumMove(u, SizeOf, 0, u[0]);
      SumMove(u, Stray(|s.io|), 0, u[0]);
    }
  }

  /** Summing thread by thread. */
  function Owners(u: seq<Item>, threads: nat): nat {
    if threads == 0 then 0 else Owners(u, threads - 1) + Sum(u, Own(threads - 1))
  }

  lemma {:induction false} OwnersSnoc(u: seq<Item>, threads: nat)
    requires u != []
    ensures var x := u[|u| - 1];
      Owners(u, threads) == Owners(u[..|u| - 1], threads) + if x.origin < threads then x.size else 0
  {
    if threads > 0 { OwnersSnoc(u, threads - 1); }
  }

  lemma {:induction false} NoOwners(threads: nat)
    ensures Owners([], threads) == 0
  {
    if threads > 0 { NoOwners(threads - 1); }
  }

  lemma {:induction false} OwnersTotal(u: seq<Item>, threads: nat)
    requires Sum(u, Stray(threads)) == 0
    ensures Owners(u, threads) == Bytes(u)
  {
    if u == [] {
      NoOwners(threads);
    } else {
      OwnersSnoc(u, threads);
      OwnersTotal(u[..|u| - 1], threads);
    }
  }

  function StagedBytes(io: Io): nat { io.bytes }

  lemma OneMore(t: nat, limit: nat)
    ensures (t + 1) * limit == t * limit + limit
  {}

  lemma {:induction false} SharesAdd(s: State, t: nat)
    requires LimitOk(s) && t <= |s.io|
    ensures Sum(s.io[..t], StagedBytes) + Owners(Unreleased(s), t) <= t * s.limit
  {
    if t > 0 {
      SharesAdd(s, t - 1);
      assert s.io[..t][..t - 1] == s.io[..t - 1];
      assert ShareOk(s, t - 1);
      OwedIs(s, Own(t - 1));
      OneMore(t - 1, s.limit);
    }
  }

  /** Staged and queued bytes together stay within the limit times the number of IO threads. */
  lemma WithinLimit(limit: nat, threads: nat, writers: nat, run: seq<Step>)
    requires Legal(Init(limit, threads, writers), run)
    ensures var s := Run(Init(limit, threads, writers), run);
      Sum(s.io, StagedBytes) + s.queued <= threads * limit
  {
    var s := Run(Init(limit, threads, writers), run);
    InitOk(limit, threads, writers);
    RunKeeps(Init(limit, threads, writers), run);
    SharesAdd(s, threads);
    assert s.io[..threads] == s.io;
    OwedIs(s, Stray(threads));
    OwedIs(s, SizeOf);
    OwnersTotal(Unreleased(s), threads);
  }

  // ---- The loops that add the bytes up ----

  /** The writer's sum over its batch, dropped duplicates included. */
  method BatchBytes(kept: seq<Item>, dropped: seq<Item>) returns (bytes: nat)
    ensures bytes == Bytes(kept) + Bytes(dropped)
  {
    bytes := 0;
    var i: nat := 0;
    while i < |kept|
      invariant i <= |kept| && bytes == Bytes(kept[..i])
    {
      assert kept[..i + 1][..i] == kept[..i];
      bytes := bytes + kept[i].size;
      i := i + 1;
    }
    assert kept[..i] == kept;
    var j: nat := 0;
    while j < |dropped|
      invariant j <= |dropped| && bytes == Bytes(kept) + Bytes(dropped[..j])
    {
      assert dropped[..j + 1][..j] == dropped[..j];
      bytes := bytes + dropped[j].size;
      j := j + 1;
    }
    assert dropped[..j] == dropped;
  }

  /** What a pass over the first i entries has kept and summed up. */
  ghost predicate Collected(all: seq<Entry>, i: nat, durable: nat, kept: seq<Entry>, bytes: nat)
    requires i <= |all|
  {
    kept == Kept(all[..i], durable) && bytes == Sum(Due(all[..i], durable), BytesOf)
  }

  lemma DueNext(all: seq<Entry>, i: nat, durable: nat, kept: seq<Entry>, bytes: nat)
    requires i < |all| && Collected(all, i, durable, kept, bytes)
    ensures var e := all[i];
      if e.lsn <= durable then Collected(all, i + 1, durable, kept, bytes + e.bytes)
      else Collected(all, i + 1, durable, kept + [e], bytes)
  {
    assert all[..i + 1][..i] == all[..i];
    DueLast(all[..i + 1], durable);
    SumAppend(Due(all[..i], durable), [all[i]], BytesOf);
  }

  method PutBack(ledger: array<Entry>, at: nat, e: Entry)
    requires at < ledger.Length
    modifies ledger
    ensures ledger[..at + 1] == old(ledger[..at]) + [e]
    ensures forall k | at < k < ledger.Length :: ledger[k] == old(ledger[k])
  {
    ledger[at] := e;
  }

  /** The notifier's pass over the ledger, closing up in place what is not yet durable. */
  method CollectDue(ledger: array<Entry>, n: nat, durable: nat) returns (kept: nat, bytes: nat)
    requires n <= ledger.Length
    modifies ledger
    ensures kept <= n && ledger[..kept] == Kept(old(ledger[..n]), durable)
    ensures bytes == Sum(Due(old(ledger[..n]), durable), BytesOf)
  {
    kept, bytes := 0, 0;
    var i: nat := 0;
    ghost var all := ledger[..n];
    while i < n
      invariant kept <= i <= n
      invariant Collected(all, i, durable, ledger[..kept], bytes)
      invariant forall k | i <= k < n :: ledger[k] == all[k]
    {
      DueNext(all, i, durable, ledger[..kept], bytes);
      var e := ledger[i];
      if e.lsn <= durable {
        bytes := bytes + e.bytes;
      } else {
        PutBack(ledger, kept, e);
        kept := kept + 1;
      }
      i := i + 1;
    }
    assert all[..n] == all;
  }
}
