/**
 What a vbucket's writes come to: the write queue's batches, in whatever way
 threads interleave, each sorted and deduplicated or not, leave the store as the
 writes do one by one in the order they arrived.
 */
module WriteEffects {
  import opened BatchSort
  import RequestStacks
  import opened Totals
  import opened WriteQueues

  type Req = RequestStacks.Req

  /** What the requests ask for; payload says what each of them carries. */
  function Payloads<V>(ids: seq<Req>, payload: Req -> Request<V>): (r: seq<Request<V>>)
    ensures |r| == |ids| && forall i | 0 <= i < |ids| :: r[i] == payload(ids[i])
  {
    seq(|ids|, i requires 0 <= i < |ids| => payload(ids[i]))
  }

  function BatchPayloads<V>(batches: seq<seq<Req>>, payload: Req -> Request<V>): (r: seq<seq<Request<V>>>)
    ensures |r| == |batches| && forall b | 0 <= b < |batches| :: r[b] == Payloads(batches[b], payload)
  {
    seq(|batches|, b requires 0 <= b < |batches| => Payloads(batches[b], payload))
  }

  lemma PayloadsAppend<V>(a: seq<Req>, b: seq<Req>, payload: Req -> Request<V>)
    ensures Payloads(a + b, payload) == Payloads(a, payload) + Payloads(b, payload)
  {}

  lemma {:induction false} PayloadsConcat<V>(batches: seq<seq<Req>>, payload: Req -> Request<V>)
    ensures Concat(BatchPayloads(batches, payload)) == Payloads(Concat(batches), payload)
  {
    if batches != [] {
      var n := |batches| - 1;
      PayloadsConcat(batches[..n], payload);
      assert BatchPayloads(batches, payload)[..n] == BatchPayloads(batches[..n], payload);
      PayloadsAppend(Concat(batches[..n]), batches[n], payload);
    }
  }

  /**
   In every run, whatever log the batches were written as, the store is the one the writes
   executed so far give in arrival order; with no task and no thread midway, all that arrived.
   */
  lemma StoreInArrivalOrder<V>(threads: nat, run: seq<Step>, payload: Req -> Request<V>,
                               outs: seq<seq<Logged<V>>>, first: nat, store: map<Key, V>)
    requires Legal(Init(threads), run)
    requires WrittenRun(BatchPayloads(Run(Init(threads), run).batches, payload), outs, first)
    ensures var s := Run(Init(threads), run);
      && s.written <= s.arrived
      && Apply(store, Requests(Concat(outs))) == Apply(store, Payloads(s.written, payload))
      && (Settled(s) ==> Apply(store, Requests(Concat(outs))) == Apply(store, Payloads(s.arrived, payload)))
  {
    var s := Run(Init(threads), run);
    ArrivalOrder(threads, run);
    NothingStranded(threads, run);
    RunPreservesMeaning(store, BatchPayloads(s.batches, payload), outs, first);
    PayloadsConcat(s.batches, payload);
  }

  ghost predicate Settled(s: State) {
    AtRest(s) && s.deferred + s.tasks == 0
  }
}
