/**
 What a written batch does to the cache's pins (server/engine.cc,
 executePersist). The writer releases one pin for each request it wrote; the
 duplicates it dropped were put too, and no one releases theirs.
 */
module CacheBatches {

  import opened CacheModel
  import opened CachePins
  import B = BatchSort

  /** How many of the requests write the key. */
  function Times<V>(reqs: seq<B.Request<V>>, key: B.Key): nat {
    if reqs == [] then 0 else Times(reqs[..|reqs| - 1], key) + if reqs[|reqs| - 1].key == key then 1 else 0
  }

  /** The releases after a batch, each with a trim after it or not; a batch that failed reports no seqnos. */
  function Releases<V>(vbid: nat, log: seq<B.Logged<V>>, ok: bool, trims: seq<bool>): seq<Op>
    requires |trims| == |log|
    decreases |log|
  {
    if log == [] then []
    else
      var n := |log| - 1;
      var l := log[n];
      Releases(vbid, log[..n], ok, trims[..n])
      + [Mark(DocKey(vbid, l.req.key), if ok then l.seqno else 0)] + if trims[n] then [Trim] else []
  }

  /** The history after the releases: one write fewer outstanding for each request of a key. */
  ghost predicate Released<V>(ops: seq<Op>, after: seq<Op>, vbid: nat, reqs: seq<B.Request<V>>) {
    && Legal(after) && Alone(after)
    && forall key: B.Key :: Outstanding(after, DocKey(vbid, key)) == Outstanding(ops, DocKey(vbid, key)) - Times(reqs, key)
  }

  /** Every request has been put and neither refused nor marked. */
  ghost predicate AllPut<V>(ops: seq<Op>, vbid: nat, reqs: seq<B.Request<V>>) {
    forall key: B.Key :: Times(reqs, key) <= Outstanding(ops, DocKey(vbid, key))
  }

  lemma TimesNext<V>(reqs: seq<B.Request<V>>, key: B.Key)
    requires reqs != []
    ensures var n := |reqs| - 1;
      Times(reqs, key) == Times(reqs[..n], key) + if reqs[n].key == key then 1 else 0
  {}

  lemma MarkOne<V>(ops: seq<Op>, before: seq<Op>, vbid: nat, reqs: seq<B.Request<V>>, seqno: nat, trim: bool)
    requires reqs != [] && AllPut(ops, vbid, reqs) && Released(ops, before, vbid, reqs[..|reqs| - 1])
    ensures var mark := Mark(DocKey(vbid, reqs[|reqs| - 1].key), seqno);
      Released(ops, before + [mark] + if trim then [Trim] else [], vbid, reqs)
  {
    var n := |reqs| - 1;
    var key := reqs[n].key;
    var mark := Mark(DocKey(vbid, key), seqno);
    TimesNext(reqs, key);
    assert Outstanding(before, DocKey(vbid, key)) > 0;
    HistorySnoc(before, mark);
    assert (before + [mark])[..|before|] == before;
    assert Released(ops, before + [mark], vbid, reqs);
    if trim {
      HistorySnoc(before + [mark], Trim);
      assert (before + [mark] + [Trim])[..|before + [mark]|] == before + [mark];
    } else {
      assert before + [mark] + [] == before + [mark];
    }
  }

  lemma PrefixPut<V>(ops: seq<Op>, vbid: nat, reqs: seq<B.Request<V>>)
    requires reqs != [] && AllPut(ops, vbid, reqs)
    ensures AllPut(ops, vbid, reqs[..|reqs| - 1])
  {
    forall key: B.Key ensures Times(reqs[..|reqs| - 1], key) <= Outstanding(ops, DocKey(vbid, key)) {
      TimesNext(reqs, key);
    }
  }

  lemma {:induction false} ReleaseAll<V>(ops: seq<Op>, vbid: nat, log: seq<B.Logged<V>>, ok: bool, trims: seq<bool>)
    requires Legal(ops) && Alone(ops) && |trims| == |log| && AllPut(ops, vbid, B.Requests(log))
    ensures Released(ops, ops + Releases(vbid, log, ok, trims), vbid, B.Requests(log))
    decreases |log|
  {
    var reqs := B.Requests(log);
    if log == [] {
      assert ops + [] == ops;
    } else {
      var n := |log| - 1;
      assert B.Requests(log[..n]) == reqs[..n];
      PrefixPut(ops, vbid, reqs);
      ReleaseAll(ops, vbid, log[..n], ok, trims[..n]);
      var before := ops + Releases(vbid, log[..n], ok, trims[..n]);
      var seqno := if ok then log[n].seqno else 0;
      MarkOne(ops, before, vbid, reqs, seqno, trims[n]);
      var mark, last := Mark(DocKey(vbid, reqs[n].key), seqno), if trims[n] then [Trim] else [];
      assert before + [mark] + last == ops + Releases(vbid, log, ok, trims);
    }
  }

  // ---- Survivors ----

  lemma {:induction false} NoneTimes<V>(reqs: seq<B.Request<V>>, key: B.Key)
    requires forall i | 0 <= i < |reqs| :: reqs[i].key != key
    ensures Times(reqs, key) == 0
  {
    if reqs != [] { NoneTimes(reqs[..|reqs| - 1], key); }
  }

  lemma {:induction false} OnceTimes<V>(reqs: seq<B.Request<V>>, key: B.Key, x: nat)
    requires x < |reqs| && reqs[x].key == key && forall i | 0 <= i < |reqs| && i != x :: reqs[i].key != key
    ensures Times(reqs, key) == 1
  {
    var n := |reqs| - 1;
    if x < n { OnceTimes(reqs[..n], key, x); } else { NoneTimes(reqs[..n], key); }
  }

  lemma {:induction false} SomeTimes<V>(reqs: seq<B.Request<V>>, key: B.Key, x: nat)
    requires x < |reqs| && reqs[x].key == key
    ensures Times(reqs, key) >= 1
  {
    var n := |reqs| - 1;
    if x < n { SomeTimes(reqs[..n], key, x); }
  }

  /** Of each key the batch writes exactly one request survives. */
  lemma SurvivorTimes<V>(batch: seq<B.Request<V>>, kept: seq<nat>, key: B.Key)
    requires B.Survivors(batch, kept)
    ensures Times(B.Pick(batch, kept), key) == if Times(batch, key) > 0 then 1 else 0
  {
    var out := B.Pick(batch, kept);
    var i := B.FindNewest(batch, key);
    if i < 0 {
      NoneTimes(batch, key);
      NoneTimes(out, key);
    } else {
      SomeTimes(batch, key, i);
      assert i in kept;
      var x :| 0 <= x < |kept| && kept[x] == i;
      forall y | 0 <= y < |out| && y != x ensures out[y].key != key {
        assert B.Newest(batch, kept[y]) && kept[y] != i;
      }
      OnceTimes(out, key, x);
    }
  }

  /** A batch as written releases each key at most as often as it was put. */
  lemma WrittenTimes<V>(batch: seq<B.Request<V>>, out: seq<B.Logged<V>>, last: nat, key: B.Key)
    requires B.WrittenAs(batch, out, last)
    ensures Times(B.Requests(out), key) <= Times(batch, key)
    ensures Times(batch, key) <= 1 ==> Times(B.Requests(out), key) == Times(batch, key)
  {
    if B.Requests(out) != batch {
      var kept :| B.Survivors(batch, kept) && B.Requests(out) == B.Pick(batch, kept);
      SurvivorTimes(batch, kept, key);
    }
  }

  // ---- What stays pinned ----

  /** Pins of a key beyond the writes of it that are still to be applied, once the batch is. */
  ghost function ExtraPins<V>(H: DocKey -> nat, perShard: nat, ops: seq<Op>, after: seq<Op>,
                              vbid: nat, batch: seq<B.Request<V>>, key: B.Key): int {
    var k := DocKey(vbid, key);
    Pending(Live(Run(H, perShard, after)), k) - (Outstanding(ops, k) - Times(batch, key))
  }

  lemma WrittenPins<V>(H: DocKey -> nat, perShard: nat, ops: seq<Op>, vbid: nat, batch: seq<B.Request<V>>,
                       out: seq<B.Logged<V>>, last: nat, ok: bool, trims: seq<bool>, key: B.Key)
    requires Legal(ops) && Alone(ops) && AllPut(ops, vbid, batch) && B.WrittenAs(batch, out, last) && |trims| == |out|
    ensures ExtraPins(H, perShard, ops, ops + Releases(vbid, out, ok, trims), vbid, batch, key)
      == Times(batch, key) - Times(B.Requests(out), key)
  {
    var after := ops + Releases(vbid, out, ok, trims);
    forall other: B.Key ensures Times(B.Requests(out), other) <= Outstanding(ops, DocKey(vbid, other)) {
      WrittenTimes(batch, out, last, other);
    }
    ReleaseAll(ops, vbid, out, ok, trims);
    PinsOverRuns(H, perShard, after);
    assert Pending(Live(Run(H, perShard, after)), DocKey(vbid, key)) == Outstanding(after, DocKey(vbid, key));
  }

  /**
   After a deduplicated batch every key it writes keeps exactly as many pins too many as it had
   duplicates dropped, whether or not the storage took the batch; the other keys keep none.
   */
  lemma DroppedStayPinned<V>(H: DocKey -> nat, perShard: nat, ops: seq<Op>, vbid: nat, batch: seq<B.Request<V>>,
                             kept: seq<nat>, out: seq<B.Logged<V>>, last: nat, ok: bool, trims: seq<bool>, key: B.Key)
    requires Legal(ops) && Alone(ops) && AllPut(ops, vbid, batch) && B.WrittenAs(batch, out, last) && |trims| == |out|
    requires B.Survivors(batch, kept) && B.Requests(out) == B.Pick(batch, kept)
    ensures ExtraPins(H, perShard, ops, ops + Releases(vbid, out, ok, trims), vbid, batch, key)
      == if Times(batch, key) > 0 then Times(batch, key) - 1 else 0
  {
    WrittenPins(H, perShard, ops, vbid, batch, out, last, ok, trims, key);
    SurvivorTimes(batch, kept, key);
  }

  /** However the batch was written, a key it writes at most once keeps none; unsorted, no key does. */
  lemma NothingDropped<V>(H: DocKey -> nat, perShard: nat, ops: seq<Op>, vbid: nat, batch: seq<B.Request<V>>,
                          out: seq<B.Logged<V>>, last: nat, ok: bool, trims: seq<bool>, key: B.Key)
    requires Legal(ops) && Alone(ops) && AllPut(ops, vbid, batch) && B.WrittenAs(batch, out, last) && |trims| == |out|
    requires Times(batch, key) <= 1 || B.Requests(out) == batch
    ensures ExtraPins(H, perShard, ops, ops + Releases(vbid, out, ok, trims), vbid, batch, key) == 0
  {
    WrittenPins(H, perShard, ops, vbid, batch, out, last, ok, trims, key);
    WrittenTimes(batch, out, last, key);
  }
}
