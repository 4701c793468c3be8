/**
 The request lists under both queues (server/engine.h, server/engine.cc),
 linked through the requests themselves: the stack, newest at the head, and the
 read queue's overflow, oldest first. Each method is one thread's work between
 two accesses others can see: an insertion takes effect at its swap, a sweep at
 its exchange, and the overflow is only touched under its mutex.
 */
module RequestStacks {

  /** A request's identity. */
  type Req = nat

  function Reverse<T>(s: seq<T>): (r: seq<T>)
    ensures |r| == |s|
  {
    if s == [] then [] else Reverse(s[1..]) + [s[0]]
  }

  lemma {:induction false} ReverseAppend<T>(a: seq<T>, b: seq<T>)
    ensures Reverse(a + b) == Reverse(b) + Reverse(a)
  {
    if a == [] {
      assert a + b == b;
    } else {
      assert (a + b)[1..] == a[1..] + b;
      ReverseAppend(a[1..], b);
    }
  }

  lemma {:induction false} ReversePermutes<T>(s: seq<T>)
    ensures multiset(Reverse(s)) == multiset(s)
  {
    if s != [] {
      ReversePermutes(s[1..]);
      assert s == [s[0]] + s[1..];
    }
  }

  class Request {
    var next: Request?
  }

  ghost predicate Distinct(chain: seq<Request>) {
    forall i, j | 0 <= i < j < |chain| :: chain[i] != chain[j]
  }

  /** Who is at position i, null past the end. */
  ghost function At(chain: seq<Request>, i: nat): Request? {
    if i < |chain| then chain[i] else null
  }

  /** The requests from position k on, each linked to the one after it and the last to null. */
  ghost predicate LinkedFrom(chain: seq<Request>, k: nat)
    reads chain
  {
    forall i {:trigger chain[i].next} | k <= i < |chain| :: chain[i].next == At(chain, i + 1)
  }

  ghost predicate Linked(head: Request?, chain: seq<Request>)
    reads chain
  {
    Distinct(chain) && head == At(chain, 0) && LinkedFrom(chain, 0)
  }

  lemma DistinctParts(a: seq<Request>, b: seq<Request>)
    requires Distinct(a + b)
    ensures Distinct(a) && Distinct(b)
    ensures forall i, j | 0 <= i < |a| && 0 <= j < |b| :: a[i] != b[j]
  {
    var c := a + b;
    assert forall i | 0 <= i < |a| :: c[i] == a[i];
    assert forall j | 0 <= j < |b| :: c[|a| + j] == b[j];
  }

  lemma DistinctDrop(a: seq<Request>, b: seq<Request>, k: nat)
    requires Distinct(a + b) && k <= |b|
    ensures Distinct(a + b[k..])
  {
    var c, d := a + b, a + b[k..];
    forall i, j | 0 <= i < j < |d| ensures d[i] != d[j] {
      var i', j' := if i < |a| then i else i + k, if j < |a| then j else j + k;
      assert d[i] == c[i'] && d[j] == c[j'];
    }
  }

  class RequestStack {
    var head: Request?
    ghost var chain: seq<Request>

    ghost predicate Valid()
      reads this, chain
    {
      Linked(head, chain)
    }

    constructor ()
      ensures Valid() && chain == []
    {
      head, chain := null, [];
    }

    /** first to last are linked already, newest first; what last pointed at does not matter. */
    method InsertChain(first: Request, last: Request, ghost more: seq<Request>) returns (wasEmpty: bool)
      requires Valid() && more != [] && more[0] == first && more[|more| - 1] == last
      requires Distinct(more + chain) && forall i | 0 <= i < |more| - 1 :: more[i].next == more[i + 1]
      modifies this, last
      ensures Valid() && chain == more + old(chain) && wasEmpty == (old(chain) == [])
    {
      DistinctParts(more, chain);
      last.next := head;
      wasEmpty := head == null;
      head := first;
      ghost var rest := chain;
      chain := more + rest;
      assert forall i | 0 <= i < |rest| :: chain[|more| + i] == rest[i];
    }

    /** One grab: the whole chain, unlinked, newest first. */
    method SweepOnce() returns (batch: seq<Request>)
      requires Valid()
      modifies this, chain
      ensures Valid() && chain == [] && batch == old(chain)
      ensures forall r | r in batch :: r.next == null
    {
      ghost var all := chain;
      var h := head;
      head, chain := null, [];
      batch := [];
      while h != null
        invariant batch <= all && h == At(all, |batch|) && LinkedFrom(all, |batch|)
        invariant forall i | 0 <= i < |batch| :: all[i].next == null
        invariant head == null && chain == []
        decreases |all| - |batch|
      {
        var next := h.next;
        h.next := null;
        batch := batch + [h];
        h := next;
      }
    }
  }

  class OverflowList {
    var head: Request?
    var tail: Request?
    ghost var chain: seq<Request>

    ghost predicate Valid()
      reads this, chain
    {
      Linked(head, chain) && tail == if chain == [] then null else chain[|chain| - 1]
    }

    constructor ()
      ensures Valid() && chain == []
    {
      head, tail, chain := null, null, [];
    }

    /** Up to cap of the oldest requests, unlinked. */
    method Drain(cap: nat) returns (batch: seq<Request>)
      requires Valid()
      modifies this, chain
      ensures Valid() && batch + chain == old(chain)
      ensures |batch| == if |old(chain)| <= cap then |old(chain)| else cap
      ensures forall i | 0 <= i < |batch| :: batch[i].next == null
    {
      ghost var all := chain;
      var ovf;
      batch, ovf := Detach(head, cap, all);
      ghost var rest := all[|batch|..];
      RestLinked(all, |batch|);
      assert Linked(ovf, rest) && batch + rest == all;
      head, chain := ovf, rest;
      if ovf == null {
        tail := null;
      }
    }

    /** Links what a batch holds past the cap and appends it. */
    method Append(batch: seq<Request>, cap: nat)
      requires Valid() && cap < |batch| && Distinct(chain + batch)
      modifies this, chain, batch
      ensures Valid() && chain == old(chain) + batch[cap..]
    {
      DistinctParts(chain, batch);
      DistinctDrop(chain, batch, cap);
      LinkExcess(batch, cap);
      ghost var front, back := chain, batch[cap..];
      if tail != null {
        tail.next := batch[cap];
      } else {
        head := batch[cap];
      }
      tail := batch[|batch| - 1];
      chain := front + back;
      JoinLinked(front, back);
    }
  }

  lemma RestLinked(all: seq<Request>, k: nat)
    requires Distinct(all) && k <= |all| && LinkedFrom(all, k)
    ensures Linked(At(all, k), all[k..]) && all[..k] + all[k..] == all
    ensures k < |all| ==> all[k..][|all| - k - 1] == all[|all| - 1]
  {
    var rest := all[k..];
    forall i | 0 <= i < |rest| ensures rest[i].next == At(rest, i + 1) {
      assert rest[i] == all[k + i];
      assert all[k + i].next == At(all, k + i + 1);
    }
    forall i, j | 0 <= i < j < |rest| ensures rest[i] != rest[j] {
      assert rest[i] == all[k + i] && rest[j] == all[k + j];
    }
  }

  lemma JoinLinkedAt(front: seq<Request>, back: seq<Request>, all: seq<Request>, i: nat)
    requires all == front + back && back != [] && LinkedFrom(back, 0) && i < |all|
    requires i < |front| ==> front[i].next == if i + 1 < |front| then front[i + 1] else back[0]
    ensures all[i].next == At(all, i + 1)
  {
    if i < |front| {
      assert all[i] == front[i];
      assert all[i + 1] == if i + 1 < |front| then front[i + 1] else back[0];
    } else {
      var j := i - |front|;
      assert all[i] == back[j] && back[j].next == At(back, j + 1);
      assert j + 1 < |back| ==> all[i + 1] == back[j + 1];
    }
  }

  lemma JoinLinked(front: seq<Request>, back: seq<Request>)
    requires back != [] && LinkedFrom(back, 0)
    requires forall i | 0 <= i < |front| :: front[i].next == if i + 1 < |front| then front[i + 1] else back[0]
    ensures LinkedFrom(front + back, 0)
  {
    var all := front + back;
    forall i | 0 <= i < |all| ensures all[i].next == At(all, i + 1) {
      JoinLinkedAt(front, back, all, i);
    }
  }

  /** Unlinks up to cap requests from the front of a linked chain. */
  method Detach(h: Request?, cap: nat, ghost all: seq<Request>) returns (batch: seq<Request>, ovf: Request?)
    requires Linked(h, all)
    modifies all
    ensures |batch| <= |all| && batch == all[..|batch|] && |batch| == if |all| <= cap then |all| else cap
    ensures ovf == At(all, |batch|) && LinkedFrom(all, |batch|)
    ensures forall i | 0 <= i < |batch| :: batch[i].next == null
  {
    ovf, batch := h, [];
    while ovf != null && |batch| < cap
      invariant batch <= all && |batch| <= cap && ovf == At(all, |batch|) && LinkedFrom(all, |batch|)
      invariant forall i | 0 <= i < |batch| :: all[i].next == null
      decreases |all| - |batch|
    {
      var next := ovf.next;
      ovf.next := null;
      batch := batch + [ovf];
      ovf := next;
    }
  }

  /** Links a batch from the cap on, each request to the next and the last to null. */
  method LinkExcess(batch: seq<Request>, cap: nat)
    requires cap < |batch| && Distinct(batch)
    modifies batch
    ensures LinkedFrom(batch[cap..], 0)
  {
    var i := cap;
    while i + 1 < |batch|
      invariant cap <= i < |batch|
      invariant forall k | cap <= k < i :: batch[k].next == batch[k + 1]
    {
      batch[i].next := batch[i + 1];
      i := i + 1;
    }
    batch[|batch| - 1].next := null;
    assert forall k | 0 <= k < |batch| - cap :: batch[cap..][k] == batch[cap + k];
  }
}
