/**
 What a refused write does to the pins of its key. The server caches a write
 before it stages it (server/connection.cc); when staging refuses it, the entry
 is erased, and with it the pins of every other write of the key.
 */
module CacheRefusals {

  import opened Options
  import opened CacheModel
  import opened CachePins

  /** After every operation so far the pins agreed with the history. */
  ghost predicate AlwaysFaithful(H: DocKey -> nat, perShard: nat, ops: seq<Op>) {
    && (ops != [] ==> AlwaysFaithful(H, perShard, ops[..|ops| - 1]))
    && Faithful(Live(Run(H, perShard, ops)), ops)
  }

  /** Pins hold throughout a run exactly when every refused write was its key's only one outstanding. */
  lemma {:induction false} PinsHoldIff(H: DocKey -> nat, perShard: nat, ops: seq<Op>)
    requires Legal(ops)
    ensures AlwaysFaithful(H, perShard, ops) <==> Alone(ops)
  {
    if ops == [] {
      PinsOverRuns(H, perShard, ops);
    } else {
      var pre, op := ops[..|ops| - 1], ops[|ops| - 1];
      PinsHoldIff(H, perShard, pre);
      if Alone(pre) {
        PinsOverRuns(H, perShard, pre);
        assert pre + [op] == ops;
        if op.Refuse? {
          RefuseFaithful(H, Run(H, perShard, pre), pre, op);
        } else {
          StepFaithful(H, Run(H, perShard, pre), pre, op);
        }
      }
    }
  }

  lemma HistoryStep(pre: seq<Op>, op: Op)
    requires op.Put? || op.Refuse? || op.Fill? || op.Mark?
    ensures Outstanding(pre + [op], op.key) == Outstanding(pre, op.key) + Change(op, op.key)
    ensures Alone(pre + [op]) <==> Alone(pre) && (op.Refuse? ==> Outstanding(pre, op.key) == 1)
    ensures Legal(pre + [op]) <==> Legal(pre) && (op.Mark? || op.Refuse? ==> Outstanding(pre, op.key) > 0)
  {
    assert (pre + [op])[..|pre|] == pre;
  }

  /** With two writes of a key outstanding, refusing one leaves the other without its entry. */
  lemma RefusalUnpins(H: DocKey -> nat, perShard: nat, pre: seq<Op>, k: DocKey)
    requires Legal(pre) && Alone(pre) && Outstanding(pre, k) >= 2
    ensures var ops := pre + [Refuse(k)];
      Legal(ops) && Outstanding(ops, k) >= 1 && k !in Live(Run(H, perShard, ops))
  {
    HistoryStep(pre, Refuse(k));
    RunStep(H, perShard, pre, Refuse(k));
    PinsOverRuns(H, perShard, pre);
    RefuseFaithful(H, Run(H, perShard, pre), pre, Refuse(k));
  }

  /** Two writes of one key by two connections, the second refused. */
  lemma RefusalRun(H: DocKey -> nat, perShard: nat, k: DocKey, first: Doc, second: Doc, charge: nat)
    ensures var ops := [Put(k, first, charge), Put(k, second, charge)] + [Refuse(k)];
      Legal(ops) && Outstanding(ops, k) == 1 && k !in Live(Run(H, perShard, ops))
  {
    var p, q := Put(k, first, charge), Put(k, second, charge);
    HistoryStep([], p);
    HistoryStep([] + [p], q);
    assert [] + [p] + [q] == [p, q];
    HistoryStep([p, q], Refuse(k));
    RefusalUnpins(H, perShard, [p, q], k);
  }

  /** Within budget an operation that evicts evicts nothing. */
  lemma EvictsNone(H: DocKey -> nat, s: Shard)
    requires TotalBytes(s) <= s.budget
    ensures Evict(H, s) == s
  {}

  ghost predicate Only(s: Shard, e: Entry) {
    s.small == [e] && s.main == [] && s.ghosts == []
  }

  lemma OnlyFound(s: Shard, e: Entry)
    requires Only(s, e)
    ensures Lookup(s, e.key) == Some(e) && Remove(s.small, e.key) == [] && TotalBytes(s) == e.charge
  {
    assert [e][1..] == [];
  }

  lemma FirstPut(H: DocKey -> nat, s: Shard, k: DocKey, doc: Doc, charge: nat)
    requires s.small == [] && s.main == [] && s.ghosts == [] && charge <= s.budget
    ensures Only(Step(H, s, Put(k, doc, charge)), Entry(k, doc, 0, charge, 1, 0, Small))
    ensures Step(H, s, Put(k, doc, charge)).budget == s.budget
  {
    var t := WriteThrough(H, s, k, doc, charge);
    OnlyFound(t, t.small[0]);
    EvictsNone(H, t);
  }

  lemma NextPut(H: DocKey -> nat, s: Shard, e: Entry, doc: Doc, charge: nat)
    requires Only(s, e) && e.queue == Small && charge <= s.budget
    ensures Only(Step(H, s, Put(e.key, doc, charge)), Entry(e.key, doc, 0, charge, e.pending + 1, 0, Small))
    ensures Step(H, s, Put(e.key, doc, charge)).budget == s.budget
  {
    OnlyFound(s, e);
    var t := WriteThrough(H, s, e.key, doc, charge);
    assert t.small == [] + [Entry(e.key, doc, 0, charge, e.pending + 1, 0, Small)];
    OnlyFound(t, t.small[0]);
    EvictsNone(H, t);
  }

  lemma OnlyRefused(H: DocKey -> nat, s: Shard, e: Entry)
    requires Only(s, e) && e.queue == Small
    ensures var t := Step(H, s, Refuse(e.key)); t.small == [] && t.main == [] && t.ghosts == [] && t.budget == s.budget
  {
    OnlyFound(s, e);
  }

  lemma FirstFill(H: DocKey -> nat, s: Shard, k: DocKey, doc: Doc, charge: nat)
    requires s.small == [] && s.main == [] && s.ghosts == [] && charge <= s.budget
    ensures Only(Step(H, s, Fill(k, doc, 0, charge)), Entry(k, doc, 0, charge, 0, 0, Small))
  {
    var t := Insert(H, s, Entry(k, doc, 0, charge, 0, 0, Small));
    OnlyFound(t, t.small[0]);
    EvictsNone(H, t);
  }

  lemma MarkWraps(H: DocKey -> nat, s: Shard, e: Entry)
    requires Only(s, e) && e.queue == Small && e.pending == 0
    ensures Only(Step(H, s, Mark(e.key, 0)), e.(pending := MAX_PENDING))
  {
    OnlyFound(s, e);
  }

  /**
   The write that lost its entry still has its pin released: if a read has filled the key in
   between, that wraps the fill's count, and the key stays pinned with no write outstanding.
   */
  lemma ReleaseWraps(H: DocKey -> nat, perShard: nat, k: DocKey, first: Doc, second: Doc, charge: nat)
    requires charge <= perShard
    ensures var ops := [Put(k, first, charge), Put(k, second, charge), Refuse(k), Fill(k, first, 0, charge), Mark(k, 0)];
      && Legal(ops) && Outstanding(ops, k) == 0
      && Only(Run(H, perShard, ops), Entry(k, first, 0, charge, MAX_PENDING, 0, Small))
  {
    var p, q, f := Put(k, first, charge), Put(k, second, charge), Fill(k, first, 0, charge);
    var e := Entry(k, first, 0, charge, 1, 0, Small);
    WrapHistory(p, q, Refuse(k), f, Mark(k, 0));
    WrapSteps(H, perShard, p, q, Refuse(k), f, Mark(k, 0));
    var s1 := Step(H, Init(perShard), p);
    FirstPut(H, Init(perShard), k, first, charge);
    NextPut(H, s1, e, second, charge);
    var s2 := Step(H, s1, q);
    OnlyRefused(H, s2, e.(doc := second, pending := 2));
    var s3 := Step(H, s2, Refuse(k));
    FirstFill(H, s3, k, first, charge);
    MarkWraps(H, Step(H, s3, f), e.(pending := 0));
  }

  lemma WrapHistory(p: Op, q: Op, r: Op, f: Op, m: Op)
    requires p.Put? && q.Put? && r.Refuse? && f.Fill? && m.Mark? && p.key == q.key == r.key == f.key == m.key
    ensures Legal([p, q, r, f, m]) && Outstanding([p, q, r, f, m], p.key) == 0
  {
    HistoryStep([], p);
    assert [] + [p] == [p];
    HistoryStep([p], q);
    assert [p] + [q] == [p, q];
    HistoryStep([p, q], r);
    assert [p, q] + [r] == [p, q, r];
    HistoryStep([p, q, r], f);
    assert [p, q, r] + [f] == [p, q, r, f];
    HistoryStep([p, q, r, f], m);
    assert [p, q, r, f] + [m] == [p, q, r, f, m];
  }

  lemma WrapSteps(H: DocKey -> nat, perShard: nat, p: Op, q: Op, r: Op, f: Op, m: Op)
    ensures Run(H, perShard, [p, q, r, f, m])
      == Step(H, Step(H, Step(H, Step(H, Step(H, Init(perShard), p), q), r), f), m)
  {
    RunStep(H, perShard, [], p);
    assert [] + [p] == [p];
    RunStep(H, perShard, [p], q);
    assert [p] + [q] == [p, q];
    RunStep(H, perShard, [p, q], r);
    assert [p, q] + [r] == [p, q, r];
    RunStep(H, perShard, [p, q, r], f);
    assert [p, q, r] + [f] == [p, q, r, f];
    RunStep(H, perShard, [p, q, r, f], m);
    assert [p, q, r, f] + [m] == [p, q, r, f, m];
  }
}
