/**
 A connection's output with --direct-send (server/connection.cc,
 server/connection.h). Reader threads write responses straight to the socket and
 the loop writes through folly, taking turns under one lock. A method is one
 section under that lock, or one piece of work the loop does alone; any
 interleaving of threads is a sequence of such calls. What the kernel accepts of
 a write and how far folly has come are parameters. Runs without socket errors.
 */
module SendPaths {
  import opened Octets
  import opened Totals

  /** One response frame: header and extras, then the value, which may be empty. */
  datatype Response = Response(header: Bytes, value: Bytes)

  const HEADER_SIZE: nat := 24

  function Same(b: Bytes): Bytes { b }

  function Flatten(parts: seq<Bytes>): Bytes {
    Held<Bytes, Byte>(parts, Same)
  }

  function Frame(r: Response): Bytes {
    r.header + r.value
  }

  /** The byte stream of whole frames. */
  function Encode(rs: seq<Response>): Bytes {
    Held<Response, Byte>(rs, Frame)
  }

  lemma FlattenSnoc(parts: seq<Bytes>, b: Bytes)
    ensures Flatten(parts + [b]) == Flatten(parts) + b
  {
    assert (parts + [b])[..|parts|] == parts;
  }

  lemma FlattenNext(parts: seq<Bytes>, i: nat)
    requires i < |parts|
    ensures Flatten(parts[..i + 1]) == Flatten(parts[..i]) + parts[i]
  {
    assert parts[..i + 1][..i] == parts[..i];
  }

  lemma EncodeNext(rs: seq<Response>, i: nat)
    requires i < |rs|
    ensures Encode(rs[..i + 1]) == Encode(rs[..i]) + rs[i].header + rs[i].value
  {
    assert rs[..i + 1][..i] == rs[..i];
  }

  /** The scatter list for a batch: a value only where there is one. */
  method Gather(rs: seq<Response>) returns (iov: seq<Bytes>, total: nat)
    ensures Flatten(iov) == Encode(rs) && total == |Encode(rs)|
  {
    iov, total := [], 0;
    var i: nat := 0;
    while i < |rs|
      invariant i <= |rs| && Flatten(iov) == Encode(rs[..i]) && total == |Encode(rs[..i])|
    {
      EncodeNext(rs, i);
      FlattenSnoc(iov, rs[i].header);
      iov := iov + [rs[i].header];
      total := total + |rs[i].header|;
      if rs[i].value != [] {
        FlattenSnoc(iov, rs[i].value);
        iov := iov + [rs[i].value];
        total := total + |rs[i].value|;
      }
      i := i + 1;
    }
    assert rs[..i] == rs;
  }

  /** What a short write left unsent: skip whole parts, then the rest of one, then all after it. */
  method Unsent(iov: seq<Bytes>, sent: nat) returns (tail: Bytes)
    requires sent <= |Flatten(iov)|
    ensures tail == Flatten(iov)[sent..]
  {
    tail := [];
    var skip: nat := sent;
    var i: nat := 0;
    while i < |iov|
      invariant i <= |iov|
      invariant var before := Flatten(iov[..i]);
        if sent < |before| then skip == 0 && tail == before[sent..] else skip == sent - |before| && tail == []
    {
      FlattenNext(iov, i);
      ghost var before := Flatten(iov[..i]);
      if skip >= |iov[i]| {
        skip := skip - |iov[i]|;
        if iov[i] == [] {
          assert before + iov[i] == before;
        }
      } else {
        assert (before + iov[i])[sent..] == tail + iov[i][skip..];
        tail := tail + iov[i][skip..];
        skip := 0;
      }
      i := i + 1;
    }
    assert iov[..i] == iov;
  }

  // ---- The stream: on the wire, with folly, in the spill ----

  function Stream(wire: Bytes, folly: seq<Bytes>, spill: Bytes): Bytes {
    wire + Flatten(folly) + spill
  }

  lemma SpillToFolly(wire: Bytes, folly: seq<Bytes>, spill: Bytes)
    ensures Stream(wire, folly + [spill], []) == Stream(wire, folly, spill)
  {
    FlattenSnoc(folly, spill);
  }

  lemma BytesToFolly(wire: Bytes, folly: seq<Bytes>, b: Bytes)
    ensures Stream(wire, folly + [b], []) == Stream(wire, folly, []) + b
  {
    FlattenSnoc(folly, b);
  }

  lemma BytesToSpill(wire: Bytes, folly: seq<Bytes>, spill: Bytes, b: Bytes)
    ensures Stream(wire, folly, spill + b) == Stream(wire, folly, spill) + b
  {}

  lemma BytesToWire(wire: Bytes, b: Bytes, sent: nat)
    requires sent <= |b|
    ensures Stream(wire + b[..sent], [], b[sent..]) == Stream(wire, [], []) + b
  {
    assert b[..sent] + b[sent..] == b;
  }

  lemma FlattenHead(folly: seq<Bytes>, b: Bytes)
    requires folly != []
    ensures Flatten(folly[0 := b]) == b + Flatten(folly[1..])
  {
    HeldAround(folly, Same, 0, b);
    assert folly[..0] == [];
  }

  lemma Joined(wire: Bytes, a: Bytes, b: Bytes, rest: Bytes, spill: Bytes)
    ensures (wire + a) + (b + rest) + spill == wire + ((a + b) + rest) + spill
  {}

  lemma FollyToWire(wire: Bytes, folly: seq<Bytes>, spill: Bytes, k: nat)
    requires folly != [] && k <= |folly[0]|
    ensures Stream(wire + folly[0][..k], folly[0 := folly[0][k..]], spill) == Stream(wire, folly, spill)
  {
    var b := folly[0];
    FlattenHead(folly, b);
    FlattenHead(folly, b[k..]);
    assert folly[0 := b] == folly && b[..k] + b[k..] == b;
    Joined(wire, b[..k], b[k..], Flatten(folly[1..]), spill);
  }

  lemma FollyDone(wire: Bytes, folly: seq<Bytes>, spill: Bytes)
    requires folly != [] && folly[0] == []
    ensures Stream(wire, folly[1..], spill) == Stream(wire, folly, spill)
  {
    FlattenHead(folly, folly[0]);
    assert folly[0 := folly[0]] == folly;
    assert [] + Flatten(folly[1..]) == Flatten(folly[1..]);
  }

  lemma EncodeAppend(a: seq<Response>, b: seq<Response>)
    ensures Encode(a + b) == Encode(a) + Encode(b)
  {
    HeldAppend(a, b, Frame);
  }

  /** A batch of which the kernel took so much, with nothing ahead of it. */
  lemma DirectStream(wire: Bytes, frames: seq<Response>, rs: seq<Response>, taken: nat)
    requires Stream(wire, [], []) == Encode(frames) && taken <= |Encode(rs)|
    ensures Stream(wire + Encode(rs)[..taken], [], Encode(rs)[taken..]) == Encode(frames + rs)
  {
    BytesToWire(wire, Encode(rs), taken);
    EncodeAppend(frames, rs);
  }

  lemma SpilledStream(wire: Bytes, folly: seq<Bytes>, spill: Bytes, frames: seq<Response>, rs: seq<Response>)
    requires Stream(wire, folly, spill) == Encode(frames)
    ensures Stream(wire, folly, spill + Encode(rs)) == Encode(frames + rs)
  {
    BytesToSpill(wire, folly, spill, Encode(rs));
    EncodeAppend(frames, rs);
  }

  lemma OwnedStream(wire: Bytes, folly: seq<Bytes>, frames: seq<Response>, rs: seq<Response>)
    requires Stream(wire, folly, []) == Encode(frames)
    ensures Stream(wire, folly + [Encode(rs)], []) == Encode(frames + rs)
  {
    BytesToFolly(wire, folly, Encode(rs));
    EncodeAppend(frames, rs);
  }

  lemma EncodeOne(r: Response)
    ensures Encode([r]) == Frame(r)
  {
    assert Held<Response, Byte>([r][..0], Frame) == [];
    assert Encode([r]) == [] + Frame(r);
  }

  lemma EncodeSnoc(rs: seq<Response>, r: Response)
    ensures Encode(rs + [r]) == Encode(rs) + r.header + r.value
  {
    EncodeAppend(rs, [r]);
    EncodeOne(r);
  }

  /** The requests of a batch that spilled first. */
  datatype Batch = Batch(n: nat)

  function Size(b: Batch): nat { b.n }

  lemma AddOne(bs: seq<Batch>, b: Batch)
    ensures Sum(bs + [b], Size) == Sum(bs, Size) + b.n
  {
    assert (bs + [b])[..|bs|] == bs;
  }

  lemma NoneLeft(bs: seq<Batch>)
    requires Sum(bs, Size) == 0 && forall k | 0 <= k < |bs| :: bs[k].n > 0
    ensures bs == []
  {}

  /** Without one batch the others are still all counted. */
  lemma BatchTaken(bs: seq<Batch>, k: nat)
    requires k < |bs| && forall i | 0 <= i < |bs| :: bs[i].n > 0
    ensures var rest := bs[..k] + bs[k + 1..];
      Sum(bs, Size) == Sum(rest, Size) + bs[k].n && bs[k].n > 0 && forall i | 0 <= i < |rest| :: rest[i].n > 0
  {
    SumRemove(bs, k, Size);
  }

  class Connection {
    ghost var wire: Bytes                  // what the peer has been sent
    ghost var folly: seq<Bytes>            // the unwritten part of each write folly has not finished
    ghost var frames: seq<Response>        // every response put into the stream
    ghost var answers: seq<Response>       // the responses in the pending buffer
    ghost var engine: nat                  // requests the engine has not answered
    ghost var finishing: nat               // answered directly, not yet released
    ghost var posted: seq<Batch>           // batches whose callback on the loop has not flushed yet
    ghost var flushed: nat                 // flushed by their callback, not yet released
    var follyWrites: nat
    var inflightBufs: nat
    var spill: Bytes
    var spillPosted: bool
    var pending: Bytes
    var outstanding: nat
    var migrating: bool
    var detached: bool                     // between two loops

    ghost predicate StreamOk()
      reads this`wire, this`folly, this`spill, this`frames, this`follyWrites, this`inflightBufs
    {
      Stream(wire, folly, spill) == Encode(frames) && follyWrites == inflightBufs == |folly|
    }

    ghost predicate AnswersOk()
      reads this`pending, this`answers
    {
      pending == Encode(answers) && (pending == [] <==> answers == [])
    }

    /** Every callback keeps requests in the count. */
    ghost predicate PostsOk()
      reads this`posted, this`outstanding, this`engine, this`finishing, this`flushed
    {
      && (forall k | 0 <= k < |posted| :: posted[k].n > 0)
      && outstanding == engine + finishing + Sum(posted, Size) + flushed
    }

    /** A spill has a callback coming. */
    ghost predicate HandoffOk()
      reads this`spill, this`spillPosted, this`posted, this`outstanding, this`engine, this`finishing, this`flushed
    {
      (spill != [] ==> spillPosted) && (spillPosted ==> posted != []) && PostsOk()
    }

    ghost predicate Valid()
      reads this
    {
      StreamOk() && AnswersOk() && HandoffOk() && MoveOk()
    }

    /** Between two loops nothing is on its way out, nor asked for. */
    ghost predicate MoveOk()
      reads this`migrating, this`detached, this`spill, this`folly, this`pending, this`outstanding
    {
      detached ==> migrating && spill == [] && folly == [] && pending == [] && outstanding == 0
    }

    constructor ()
      ensures Valid() && frames == [] && answers == [] && outstanding == 0
    {
      wire, folly, frames, answers := [], [], [], [];
      engine, finishing, posted, flushed := 0, 0, [], 0;
      follyWrites, inflightBufs, spill, spillPosted, pending := 0, 0, [], false, [];
      outstanding, migrating, detached := 0, false, false;
    }

    /** A request goes to the engine; a migrating connection reads no more. */
    method Dispatch()
      requires Valid() && !migrating
      modifies this`engine, this`outstanding
      ensures Valid() && outstanding == old(outstanding) + 1
    {
      outstanding := outstanding + 1;
      engine := engine + 1;
    }

    method WriteOwned(b: Bytes, ghost rs: seq<Response>)
      requires StreamOk() && spill == [] && b == Encode(rs)
      modifies this`folly, this`frames, this`follyWrites, this`inflightBufs
      ensures StreamOk() && frames == old(frames) + rs
    {
      OwnedStream(wire, folly, frames, rs);
      follyWrites, inflightBufs := follyWrites + 1, inflightBufs + 1;
      folly, frames := folly + [b], frames + rs;
    }

    method WriteSpill()
      requires StreamOk()
      modifies this`folly, this`follyWrites, this`inflightBufs, this`spill
      ensures StreamOk() && spill == []
    {
      if spill != [] {
        SpillToFolly(wire, folly, spill);
        follyWrites, inflightBufs := follyWrites + 1, inflightBufs + 1;
        folly := folly + [spill];
        spill := [];
      }
    }

    /** A whole frame given to folly, an answer built as a chain. A half-written frame goes first. */
    method WriteChain(r: Response)
      requires Valid() && !detached
      modifies this`folly, this`frames, this`follyWrites, this`inflightBufs, this`spill
      ensures Valid() && frames == old(frames) + [r] && spill == []
    {
      EncodeOne(r);
      ghost var rs := [r];
      assert PostsOk();
      WriteWhole(Frame(r), rs);
      assert PostsOk();
    }

    method WriteWhole(b: Bytes, ghost rs: seq<Response>)
      requires StreamOk() && b == Encode(rs)
      modifies this`folly, this`frames, this`follyWrites, this`inflightBufs, this`spill
      ensures StreamOk() && frames == old(frames) + rs && spill == []
    {
      WriteSpill();
      WriteOwned(b, rs);
    }

    /** The loop's flush: the spill first, as it may finish a half-written frame, then the pending buffer. */
    method FlushPending()
      requires Valid() && !detached
      modifies this`folly, this`frames, this`answers, this`follyWrites, this`inflightBufs, this`spill, this`spillPosted, this`pending
      ensures Valid() && frames == old(frames + answers) && answers == [] && spill == [] && pending == [] && !spillPosted
    {
      assert PostsOk();
      spillPosted := false;
      FlushBuffers();
      assert PostsOk();
    }

    method FlushBuffers()
      requires StreamOk() && AnswersOk()
      modifies this`folly, this`frames, this`answers, this`follyWrites, this`inflightBufs, this`spill, this`pending
      ensures StreamOk() && AnswersOk() && frames == old(frames + answers) && answers == [] && spill == [] && pending == []
    {
      WriteSpill();
      if pending != [] {
        WriteOwned(pending, answers);
        pending, answers := [], [];
      } else {
        assert frames + [] == frames;
      }
    }

    /** Bytes onto the wire if nothing is ahead of them, and what does not go there into the spill. */
    method PutInStream(rs: seq<Response>, taken: nat) returns (spilled: bool)
      requires StreamOk() && taken <= |Encode(rs)|
      modifies this`wire, this`frames, this`spill
      ensures StreamOk() && frames == old(frames) + rs
      ensures if spilled then |spill| > |old(spill)| else spill == old(spill)
    {
      var iov, total := Gather(rs);
      if spill == [] && follyWrites == 0 {
        var tail := Unsent(iov, taken);
        PutDirect(rs, taken, tail);
        return taken < total;
      } else {
        var tail := Unsent(iov, 0);
        assert tail == Encode(rs);
        PutBehind(rs, tail);
        return 0 < total;
      }
    }

    method PutDirect(ghost rs: seq<Response>, ghost taken: nat, tail: Bytes)
      requires StreamOk() && spill == [] && follyWrites == 0 && taken <= |Encode(rs)| && tail == Encode(rs)[taken..]
      modifies this`wire, this`frames, this`spill
      ensures StreamOk() && frames == old(frames) + rs && spill == tail
    {
      assert folly == [];
      DirectStream(wire, frames, rs, taken);
      wire, spill, frames := wire + Encode(rs)[..taken], tail, frames + rs;
    }

    method PutBehind(ghost rs: seq<Response>, tail: Bytes)
      requires StreamOk() && tail == Encode(rs)
      modifies this`frames, this`spill
      ensures StreamOk() && frames == old(frames) + rs && spill == old(spill) + tail
    {
      SpilledStream(wire, folly, spill, frames, rs);
      spill, frames := spill + tail, frames + rs;
    }

    /**
     A reader's responses: written directly if nothing is ahead of them, in which case the kernel
     takes `taken` bytes; what is not taken goes to the spill, and the first to spill since the
     last flush leaves its requests to a callback on the loop.
     */
    method WriteDirect(rs: seq<Response>, taken: nat) returns (post: bool)
      requires Valid() && 1 <= |rs| <= engine && taken <= |Encode(rs)|
      modifies this`wire, this`frames, this`spill, this`spillPosted, this`engine, this`finishing, this`posted
      ensures Valid() && frames == old(frames) + rs
      ensures engine == old(engine) - |rs|
      ensures if post then posted == old(posted) + [Batch(|rs|)] && finishing == old(finishing)
              else posted == old(posted) && finishing == old(finishing) + |rs|
    {
      assert outstanding > 0 && !detached;
      var spilled := PutInStream(rs, taken);
      assert PostsOk();
      post := HandOff(|rs|, spilled);
    }

    /** Who releases the requests: the writer, or a callback on the loop if it was the first to spill. */
    method HandOff(n: nat, spilled: bool) returns (post: bool)
      requires (spill != [] ==> spillPosted || spilled) && (spillPosted ==> posted != [])
      requires PostsOk() && 1 <= n <= engine
      modifies this`spillPosted, this`engine, this`finishing, this`posted
      ensures HandoffOk() && engine == old(engine) - n
      ensures if post then posted == old(posted) + [Batch(n)] && finishing == old(finishing)
              else posted == old(posted) && finishing == old(finishing) + n
    {
      post := spilled && !spillPosted;
      engine := engine - n;
      if post {
        spillPosted := true;
        AddOne(posted, Batch(n));
        posted := posted + [Batch(n)];
      } else {
        finishing := finishing + n;
      }
    }

    /** Requests whose responses are out, or left to another's flush, are released. */
    method FinishDirect(n: nat)
      requires Valid() && n <= finishing
      modifies this`finishing, this`outstanding
      ensures Valid() && outstanding == old(outstanding) - n
    {
      finishing, outstanding := finishing - n, outstanding - n;
    }

    /** The callback a spilling reader left on the loop. */
    method RunPosted(ghost k: nat)
      requires Valid() && k < |posted|
      modifies this`folly, this`frames, this`answers, this`follyWrites, this`inflightBufs, this`spill, this`spillPosted, this`pending
      modifies this`posted, this`flushed
      ensures Valid() && frames == old(frames + answers) && spill == [] && pending == []
      ensures posted == old(posted[..k] + posted[k + 1..]) && flushed == old(flushed + posted[k].n)
    {
      ghost var rest := posted[..k] + posted[k + 1..];
      BatchTaken(posted, k);
      FlushPending();
      flushed := flushed + posted[k].n;
      posted := rest;
    }

    /** The callback releases its batch. */
    method ReleasePosted(n: nat)
      requires Valid() && n <= flushed
      modifies this`flushed, this`outstanding
      ensures Valid() && outstanding == old(outstanding) - n
    {
      flushed, outstanding := flushed - n, outstanding - n;
    }

    /** The loop answers a request through the pending buffer. */
    method Respond(r: Response)
      requires Valid() && engine > 0 && |r.header| >= HEADER_SIZE
      modifies this`answers, this`pending, this`engine, this`outstanding
      ensures Valid() && answers == old(answers) + [r] && outstanding == old(outstanding) - 1
    {
      EncodeSnoc(answers, r);
      pending, answers := pending + r.header + r.value, answers + [r];
      engine, outstanding := engine - 1, outstanding - 1;
    }

    /** Folly gets k more bytes of its oldest write onto the wire. */
    ghost method Progress(k: nat)
      requires Valid() && folly != [] && k <= |folly[0]|
      modifies this`wire, this`folly
      ensures Valid() && wire == old(wire + folly[0][..k])
    {
      FollyToWire(wire, folly, spill, k);
      wire, folly := wire + folly[0][..k], folly[0 := folly[0][k..]];
    }

    /** Folly reports its oldest write done. */
    method WriteSuccess()
      requires Valid() && folly != [] && folly[0] == []
      modifies this`folly, this`follyWrites, this`inflightBufs
      ensures Valid() && folly == old(folly[1..])
    {
      FollyDone(wire, folly, spill);
      follyWrites, inflightBufs := follyWrites - 1, inflightBufs - 1;
      folly := folly[1..];
    }

    /** Refused if the connection is already on its way. */
    method MigrateTo() returns (ok: bool)
      requires Valid()
      modifies this`migrating
      ensures Valid() && migrating && ok == !old(migrating)
    {
      ok := !migrating;
      migrating := true;
    }

    /**
     The migration check looks at requests, pending buffer and folly's writes; that the spill is
     empty too follows. A socket that detaches has every byte of every response on the wire.
     */
    method TryFinishMigrate() returns (detach: bool)
      requires Valid() && migrating && !detached
      modifies this`folly, this`frames, this`answers, this`follyWrites, this`inflightBufs, this`spill, this`spillPosted, this`pending
      modifies this`detached
      ensures Valid() && frames == old(frames) + (if outstanding == 0 then old(answers) else [])
      ensures detached == detach && (detach <==> old(outstanding == 0 && pending == [] && folly == []))
      ensures detach ==> spill == [] && folly == [] && pending == [] && wire == Encode(frames) && engine == 0
    {
      if outstanding != 0 {
        return false;
      }
      if pending != [] {
        FlushPending();
        return false;
      }
      if inflightBufs != 0 {
        return false;
      }
      NoneLeft(posted);
      detached := true;
      return true;
    }

    /** On the new loop reading resumes; nothing was in between. */
    method FinishAttach()
      requires Valid() && detached
      modifies this`migrating, this`detached
      ensures Valid() && !migrating && !detached && wire == Encode(frames) && outstanding == 0
    {
      migrating, detached := false, false;
    }
  }
}
