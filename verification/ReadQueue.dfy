/**
 One vbucket's read queue (server/engine.cc) as interleaved steps of any number
 of threads. An enqueuer pushes a read, counts it and may add an owner; an owner
 takes a batch (overflow first, then one sweep of the list), leaves what is over
 the cap in the overflow, dispatches the batch, steps down and looks again.
 Every step is one atomic access or one mutex section; the tests a thread makes
 on what it just read belong to that step. A compare-and-swap may fail even when
 the value matches.
 */
module ReadQueues {
  import opened Totals
  import opened RequestStacks

  datatype Pc =
    | Idle
    // EnqueueRead
    | Inserted                                     // pushed, not yet counted
    | Counted(depth: int)                          // counted, owners not yet read
    | Trying(depth: int, seen: nat)                // about to swap seen for seen + 1
    // holding an owner slot
    | Armed                                        // slot taken, task not yet submitted
    | Assigned                                     // a worker took it from the pool
    | Drained(batch: seq<Req>)                     // overflow drained, list not yet swept
    | Swept(batch: seq<Req>, excess: seq<Req>)     // batch cut at the cap, excess not yet put back
    | Trimmed(batch: seq<Req>)                     // excess in the overflow, depth not yet reduced
    | Booked(batch: seq<Req>)                      // depth reduced, batch not yet dispatched
    | Leaving                                      // slot not yet given up
    // releaseReadVBQueue, after giving up the slot
    | Left                                         // overflow not yet looked at
    | Peeked                                       // overflow was empty, list not yet looked at
    | Looked                                       // list was empty, depth not yet read
    | Rearming                                     // work remains, owners not yet read
    | Retrying(seen: nat)                          // about to swap seen for seen + 1

  datatype State = State(
    maxOwners: nat,
    cap: nat,
    list: seq<Req>,                                // newest first
    overflow: seq<Req>,                            // oldest first
    owners: nat,
    depth: int,
    tasks: nat,                                    // tasks for this vbucket in the pool's queue
    pcs: seq<Pc>,
    arrived: seq<Req>,
    dispatched: seq<Req>)

  datatype Step =
    | Insert(i: nat, r: Req)
    | Count(i: nat)
    | LoadOwners(i: nat)
    | TryOwner(i: nat, weak: bool)                 // weak: the swap fails although the value matches
    | Submit(i: nat)
    | Take(i: nat)
    | Drain(i: nat)
    | Sweep(i: nat)
    | Spill(i: nat)
    | Book(i: nat)
    | Dispatch(i: nat)
    | Leave(i: nat)
    | PeekOverflow(i: nat)
    | LookList(i: nat)
    | LookDepth(i: nat)
    | ReloadOwners(i: nat)
    | RetryOwner(i: nat, weak: bool)

  function Init(maxOwners: nat, cap: nat, threads: nat): State {
    State(maxOwners, cap, [], [], 0, 0, 0, Repeat(threads, Idle), [], [])
  }

  predicate Can(s: State, a: Step) {
    && a.i < |s.pcs|
    && var pc := s.pcs[a.i];
      match a
      case Insert(_, r) => pc == Idle && r !in s.arrived
      case Count(_) => pc == Inserted
      case LoadOwners(_) => pc.Counted?
      case TryOwner(_, _) => pc.Trying?
      case Submit(_) => pc == Armed
      case Take(_) => pc == Idle && s.tasks > 0
      case Drain(_) => pc == Assigned
      case Sweep(_) => pc.Drained?
      case Spill(_) => pc.Swept?
      case Book(_) => pc.Trimmed?
      case Dispatch(_) => pc.Booked?
      case Leave(_) => pc == Leaving && s.owners > 0
      case PeekOverflow(_) => pc == Left
      case LookList(_) => pc == Peeked
      case LookDepth(_) => pc == Looked
      case ReloadOwners(_) => pc == Rearming
      case RetryOwner(_, _) => pc.Retrying?
  }

  /** The enqueuer's test: the first owner always starts, another one only for a deep backlog. */
  function WantOwner(s: State, depth: int, seen: nat): Pc {
    if seen != 0 && (seen >= s.maxOwners || depth <= seen * s.cap) then Idle else Trying(depth, seen)
  }

  function WantRetry(s: State, seen: nat): Pc {
    if seen < s.maxOwners then Retrying(seen) else Idle
  }

  function Cut(batch: seq<Req>, cap: nat): nat {
    if |batch| <= cap then |batch| else cap
  }

  /** What the owner has once it has swept, if it had room to. */
  function Gathered(s: State, batch: seq<Req>): seq<Req> {
    if |batch| < s.cap then batch + Reverse(s.list) else batch
  }

  function AfterSweep(s: State, batch: seq<Req>): Pc {
    var all := Gathered(s, batch);
    var k := Cut(all, s.cap);
    if all == [] then Leaving else Swept(all[..k], all[k..])
  }

  /** Where the step leaves the thread that takes it. */
  function Next(s: State, a: Step): Pc
    requires Can(s, a)
  {
    var pc := s.pcs[a.i];
    match a
    case Insert(_, _) => Inserted
    case Count(_) => Counted(s.depth + 1)
    case LoadOwners(_) => WantOwner(s, pc.depth, s.owners)
    case TryOwner(_, weak) => if s.owners == pc.seen && !weak then Armed else WantOwner(s, pc.depth, s.owners)
    case Submit(_) => Idle
    case Take(_) => Assigned
    case Drain(_) => Drained(s.overflow[..Cut(s.overflow, s.cap)])
    case Sweep(_) => AfterSweep(s, pc.batch)
    case Spill(_) => Trimmed(pc.batch)
    case Book(_) => Booked(pc.batch)
    case Dispatch(_) => Leaving
    case Leave(_) => Left
    case PeekOverflow(_) => if s.overflow != [] then Rearming else Peeked
    case LookList(_) => if s.list != [] then Rearming else Looked
    case LookDepth(_) => if s.depth <= 0 then Idle else Rearming
    case ReloadOwners(_) => WantRetry(s, s.owners)
    case RetryOwner(_, weak) => if s.owners == pc.seen && !weak then Armed else WantRetry(s, s.owners)
  }

  function Do(s: State, a: Step): State
    requires Can(s, a)
  {
    var pc := s.pcs[a.i];
    var t := s.(pcs := s.pcs[a.i := Next(s, a)]);
    match a
    case Insert(_, r) => t.(list := [r] + s.list, arrived := s.arrived + [r])
    case Count(_) => t.(depth := s.depth + 1)
    case TryOwner(_, _) => if Next(s, a) == Armed then t.(owners := s.owners + 1) else t
    case Submit(_) => t.(tasks := s.tasks + 1)
    case Take(_) => t.(tasks := s.tasks - 1)
    case Drain(_) => t.(overflow := s.overflow[Cut(s.overflow, s.cap)..])
    case Sweep(_) => if |pc.batch| < s.cap then t.(list := []) else t
    case Spill(_) => t.(overflow := s.overflow + pc.excess)
    case Book(_) => t.(depth := s.depth - |pc.batch|)
    case Dispatch(_) => t.(dispatched := s.dispatched + pc.batch)
    case Leave(_) => t.(owners := s.owners - 1)
    case RetryOwner(_, _) => if Next(s, a) == Armed then t.(owners := s.owners + 1) else t
    case _ => t
  }

  ghost predicate Legal(s: State, run: seq<Step>)
    decreases |run|
  {
    run == [] || (Can(s, run[0]) && Legal(Do(s, run[0]), run[1..]))
  }

  function Run(s: State, run: seq<Step>): State
    requires Legal(s, run)
    decreases |run|
  {
    if run == [] then s else Run(Do(s, run[0]), run[1..])
  }

  // ---- Owner slots ----

  function Token(pc: Pc): nat {
    if pc == Armed || pc == Assigned || pc.Drained? || pc.Swept? || pc.Trimmed? || pc.Booked? || pc == Leaving then 1 else 0
  }

  predicate Bounded(s: State, pc: Pc) {
    && (pc.Trying? ==> pc.seen < s.maxOwners && (pc.seen == 0 || pc.depth > pc.seen * s.cap))
    && (pc.Retrying? ==> pc.seen < s.maxOwners)
  }

  ghost predicate OwnersOk(s: State) {
    && s.maxOwners >= 1 && s.cap >= 1
    && s.owners == Sum(s.pcs, Token) + s.tasks
    && s.owners <= s.maxOwners
    && forall i | 0 <= i < |s.pcs| :: Bounded(s, s.pcs[i])
  }

  lemma OwnersMove(s: State, a: Step)
    requires OwnersOk(s) && Can(s, a)
    ensures var t := Do(s, a);
      && t.owners - s.owners == Token(Next(s, a)) - Token(s.pcs[a.i]) + t.tasks - s.tasks
      && t.owners <= s.maxOwners && Bounded(s, Next(s, a))
  {
    assert Bounded(s, s.pcs[a.i]);
  }

  lemma OwnersKept(s: State, a: Step)
    requires OwnersOk(s) && Can(s, a)
    ensures OwnersOk(Do(s, a))
  {
    SumMove(s.pcs, Token, a.i, Next(s, a));
    OwnersMove(s, a);
    var t := Do(s, a);
    forall i | 0 <= i < |t.pcs| ensures Bounded(t, t.pcs[i]) {
      assert i != a.i ==> Bounded(s, s.pcs[i]);
    }
  }

  // ---- Wake-ups ----

  /** Threads that will still look at the list, or claim a slot, before they go idle. */
  function ListLooker(pc: Pc): nat {
    if pc == Inserted || pc.Counted? || pc.Trying? || pc == Left || pc == Peeked || pc == Rearming || pc.Retrying? then 1 else 0
  }

  function OverflowLooker(pc: Pc): nat {
    if pc == Left || pc == Rearming || pc.Retrying? then 1 else 0
  }

  ghost predicate ListWake(s: State) {
    s.owners == 0 && s.list != [] ==> Sum(s.pcs, ListLooker) > 0
  }

  ghost predicate OverflowWake(s: State) {
    s.owners == 0 && s.overflow != [] ==> Sum(s.pcs, OverflowLooker) > 0
  }

  ghost predicate WakeOk(s: State) {
    ListWake(s) && OverflowWake(s)
  }

  lemma ListWakeKept(s: State, a: Step)
    requires OwnersOk(s) && ListWake(s) && Can(s, a)
    ensures ListWake(Do(s, a))
  {
    SumMove(s.pcs, ListLooker, a.i, Next(s, a));
    SumMove(s.pcs, Token, a.i, Next(s, a));
  }

  lemma OverflowWakeKept(s: State, a: Step)
    requires OwnersOk(s) && OverflowWake(s) && Can(s, a)
    ensures OverflowWake(Do(s, a))
  {
    SumMove(s.pcs, OverflowLooker, a.i, Next(s, a));
    SumMove(s.pcs, Token, a.i, Next(s, a));
  }

  lemma WakeKept(s: State, a: Step)
    requires OwnersOk(s) && WakeOk(s) && Can(s, a)
    ensures WakeOk(Do(s, a))
  {
    ListWakeKept(s, a);
    OverflowWakeKept(s, a);
  }

  // ---- Depth ----

  function Uncounted(pc: Pc): nat {
    if pc == Inserted then 1 else 0
  }

  function Unbooked(pc: Pc): nat {
    if pc.Drained? || pc.Trimmed? then |pc.batch| else if pc.Swept? then |pc.batch| + |pc.excess| else 0
  }

  /** readDepth is the backlog, but for pushes not yet counted and batches not yet booked. */
  ghost predicate DepthOk(s: State) {
    s.depth + Sum(s.pcs, Uncounted) == |s.list| + |s.overflow| + Sum(s.pcs, Unbooked)
  }

  lemma DepthMoves(s: State, a: Step)
    requires Can(s, a)
    ensures var t, pc := Do(s, a), s.pcs[a.i];
      t.depth - s.depth + Uncounted(Next(s, a)) - Uncounted(pc)
        == |t.list| - |s.list| + |t.overflow| - |s.overflow| + Unbooked(Next(s, a)) - Unbooked(pc)
  {}

  lemma DepthKept(s: State, a: Step)
    requires DepthOk(s) && Can(s, a)
    ensures DepthOk(Do(s, a))
  {
    SumMove(s.pcs, Uncounted, a.i, Next(s, a));
    SumMove(s.pcs, Unbooked, a.i, Next(s, a));
    DepthMoves(s, a);
  }

  // ---- Every read in exactly one place ----

  function Content(pc: Pc): seq<Req> {
    if pc.Drained? || pc.Trimmed? || pc.Booked? then pc.batch else if pc.Swept? then pc.batch + pc.excess else []
  }

  /** Every batch in an owner's hands, thread by thread. */
  function InHand(pcs: seq<Pc>): seq<Req> {
    Held(pcs, Content)
  }

  ghost predicate Distinct(s: seq<Req>) {
    forall r | r in s :: multiset(s)[r] == 1
  }

  function Elsewhere(s: State): multiset<Req> {
    multiset(s.list) + multiset(s.overflow) + multiset(s.dispatched)
  }

  ghost predicate PlacesOk(s: State) {
    multiset(s.arrived) == multiset(InHand(s.pcs)) + Elsewhere(s) && Distinct(s.arrived)
  }

  lemma Moved(h: multiset<Req>, h': multiset<Req>, x: multiset<Req>, y: multiset<Req>, rest: multiset<Req>, rest': multiset<Req>)
    requires h' + x == h + y && rest + x == rest' + y
    ensures h + rest == h' + rest'
  {
    assert (h' + rest') + (x + y) == (h' + x) + (rest' + y) == (h + y) + (rest + x) == (h + rest) + (x + y);
    assert (h' + rest') + (x + y) - (x + y) == h' + rest';
    assert (h + rest) + (x + y) - (x + y) == h + rest;
  }

  /** What the thread takes on beyond what it held is what the queues and the log give up. */
  ghost predicate Moves(s: State, a: Step)
    requires Can(s, a)
  {
    Elsewhere(s) + multiset(Content(s.pcs[a.i])) == Elsewhere(Do(s, a)) + multiset(Content(Next(s, a)))
  }

  lemma DrainMoves(s: State, a: Step)
    requires Can(s, a) && a.Drain?
    ensures Moves(s, a)
  {
    var k := Cut(s.overflow, s.cap);
    assert s.overflow == s.overflow[..k] + s.overflow[k..];
  }

  lemma SweepContent(s: State, batch: seq<Req>)
    ensures Content(AfterSweep(s, batch)) == Gathered(s, batch)
  {
    var all := Gathered(s, batch);
    var k := Cut(all, s.cap);
    assert all == all[..k] + all[k..];
  }

  lemma GatheredPlaces(batch: seq<Req>, list: seq<Req>)
    ensures multiset(batch + Reverse(list)) == multiset(batch) + multiset(list)
  {
    ReversePermutes(list);
  }

  lemma FromListToBatch(l: multiset<Req>, o: multiset<Req>, d: multiset<Req>, b: multiset<Req>)
    ensures l + o + d + b == multiset{} + o + d + (b + l)
  {}

  lemma SweepMoves(s: State, a: Step)
    requires Can(s, a) && a.Sweep?
    ensures Moves(s, a)
  {
    var b := s.pcs[a.i].batch;
    SweepContent(s, b);
    if |b| < s.cap {
      GatheredPlaces(b, s.list);
      FromListToBatch(multiset(s.list), multiset(s.overflow), multiset(s.dispatched), multiset(b));
    }
  }

  lemma SpillMoves(s: State, a: Step)
    requires Can(s, a) && a.Spill?
    ensures Moves(s, a)
  {
    var pc := s.pcs[a.i];
    assert multiset(s.overflow + pc.excess) == multiset(s.overflow) + multiset(pc.excess);
  }

  lemma DispatchMoves(s: State, a: Step)
    requires Can(s, a) && a.Dispatch?
    ensures Moves(s, a)
  {
    assert multiset(s.dispatched + s.pcs[a.i].batch) == multiset(s.dispatched) + multiset(s.pcs[a.i].batch);
  }

  lemma OtherMoves(s: State, a: Step)
    requires Can(s, a) && !a.Insert? && !a.Drain? && !a.Sweep? && !a.Spill? && !a.Dispatch?
    ensures Moves(s, a)
  {
    QueuesStay(s, a);
    ContentStays(s, a);
  }

  lemma QueuesStay(s: State, a: Step)
    requires Can(s, a) && !a.Insert? && !a.Drain? && !a.Sweep? && !a.Spill? && !a.Dispatch?
    ensures var t := Do(s, a); t.list == s.list && t.overflow == s.overflow && t.dispatched == s.dispatched
  {}

  lemma ContentStays(s: State, a: Step)
    requires Can(s, a) && !a.Insert? && !a.Drain? && !a.Sweep? && !a.Spill? && !a.Dispatch?
    ensures Content(Next(s, a)) == Content(s.pcs[a.i])
  {}

  lemma InsertKept(s: State, a: Step)
    requires PlacesOk(s) && Can(s, a) && a.Insert?
    ensures PlacesOk(Do(s, a))
  {
    var t := Do(s, a);
    HeldSame(s.pcs, Content, a.i, Inserted);
    assert a.r !in multiset(s.arrived);
    assert multiset(t.arrived) == multiset(s.arrived) + multiset{a.r};
    assert multiset(t.list) == multiset(s.list) + multiset{a.r};
    assert Elsewhere(t) == Elsewhere(s) + multiset{a.r};
  }

  lemma MoveKept(s: State, a: Step)
    requires PlacesOk(s) && Can(s, a) && Moves(s, a) && Do(s, a).arrived == s.arrived
    ensures PlacesOk(Do(s, a))
  {
    var t := Do(s, a);
    HeldMove(s.pcs, Content, a.i, Next(s, a));
    Moved(multiset(InHand(s.pcs)), multiset(InHand(t.pcs)),
      multiset(Content(s.pcs[a.i])), multiset(Content(Next(s, a))), Elsewhere(s), Elsewhere(t));
  }

  lemma PlacesKept(s: State, a: Step)
    requires PlacesOk(s) && Can(s, a)
    ensures PlacesOk(Do(s, a))
  {
    match a
    case Insert(_, _) => InsertKept(s, a);
    case Drain(_) => DrainMoves(s, a); MoveKept(s, a);
    case Sweep(_) => SweepMoves(s, a); MoveKept(s, a);
    case Spill(_) => SpillMoves(s, a); MoveKept(s, a);
    case Dispatch(_) => DispatchMoves(s, a); MoveKept(s, a);
    case _ => OtherMoves(s, a); MoveKept(s, a);
  }

  // ---- Over every run ----

  ghost predicate Ok(s: State) {
    OwnersOk(s) && WakeOk(s) && DepthOk(s) && PlacesOk(s)
  }

  lemma InitOk(maxOwners: nat, cap: nat, threads: nat)
    requires maxOwners >= 1 && cap >= 1
    ensures Ok(Init(maxOwners, cap, threads))
  {
    AllIdle(Init(maxOwners, cap, threads).pcs);
  }

  lemma {:induction false} RunKeeps(s: State, run: seq<Step>)
    requires Ok(s) && Legal(s, run)
    ensures Ok(Run(s, run))
    decreases |run|
  {
    if run != [] {
      OwnersKept(s, run[0]);
      WakeKept(s, run[0]);
      DepthKept(s, run[0]);
      PlacesKept(s, run[0]);
      RunKeeps(Do(s, run[0]), run[1..]);
    }
  }

  /** Slots taken are exactly the tasks queued and the threads working, and never over the maximum. */
  lemma OwnerSlots(maxOwners: nat, cap: nat, threads: nat, run: seq<Step>)
    requires maxOwners >= 1 && cap >= 1 && Legal(Init(maxOwners, cap, threads), run)
    ensures var s := Run(Init(maxOwners, cap, threads), run);
      s.owners == Sum(s.pcs, Token) + s.tasks && s.owners <= s.maxOwners
  {
    InitOk(maxOwners, cap, threads);
    RunKeeps(Init(maxOwners, cap, threads), run);
  }

  /** A push adds an owner beside others only when it found more queued than a full batch for each of them. */
  lemma ExtraOwnerEarned(maxOwners: nat, cap: nat, threads: nat, run: seq<Step>, a: Step)
    requires maxOwners >= 1 && cap >= 1 && Legal(Init(maxOwners, cap, threads), run)
    ensures var s := Run(Init(maxOwners, cap, threads), run);
      a.TryOwner? && Can(s, a) && Do(s, a).owners > s.owners ==> s.owners == 0 || s.pcs[a.i].depth > s.owners * s.cap
  {
    InitOk(maxOwners, cap, threads);
    RunKeeps(Init(maxOwners, cap, threads), run);
    var s := Run(Init(maxOwners, cap, threads), run);
    if a.TryOwner? && Can(s, a) {
      assert Bounded(s, s.pcs[a.i]);
    }
  }

  lemma OnePlaceOf(s: State, r: Req)
    requires PlacesOk(s)
    ensures multiset(s.list)[r] + multiset(s.overflow)[r] + multiset(InHand(s.pcs))[r] + multiset(s.dispatched)[r]
      == if r in s.arrived then 1 else 0
  {
    var held := multiset(InHand(s.pcs));
    assert multiset(s.arrived)[r] == held[r] + Elsewhere(s)[r] by {
      assert multiset(s.arrived) == held + Elsewhere(s);
    }
    assert multiset(s.arrived)[r] == if r in s.arrived then 1 else 0 by {
      assert r in s.arrived <==> r in multiset(s.arrived);
      assert Distinct(s.arrived);
    }
    assert Elsewhere(s)[r] == multiset(s.list)[r] + multiset(s.overflow)[r] + multiset(s.dispatched)[r];
  }

  /** Every read enqueued, and no other, is in exactly one of list, overflow, one batch and dispatched. */
  lemma OnePlace(maxOwners: nat, cap: nat, threads: nat, run: seq<Step>, r: Req)
    requires maxOwners >= 1 && cap >= 1 && Legal(Init(maxOwners, cap, threads), run)
    ensures var s := Run(Init(maxOwners, cap, threads), run);
      multiset(s.list)[r] + multiset(s.overflow)[r] + multiset(InHand(s.pcs))[r] + multiset(s.dispatched)[r]
        == if r in s.arrived then 1 else 0
  {
    InitOk(maxOwners, cap, threads);
    RunKeeps(Init(maxOwners, cap, threads), run);
    var s := Run(Init(maxOwners, cap, threads), run);
    OnePlaceOf(s, r);
  }

  /**
   With no thread mid-step the slots are all tasks in the pool's queue; with no slot taken
   either, list and overflow are empty, the depth is zero and every read has been dispatched.
   */
  lemma NothingStranded(maxOwners: nat, cap: nat, threads: nat, run: seq<Step>)
    requires maxOwners >= 1 && cap >= 1 && Legal(Init(maxOwners, cap, threads), run)
    ensures var s := Run(Init(maxOwners, cap, threads), run);
      (forall i | 0 <= i < |s.pcs| :: s.pcs[i] == Idle) ==>
        && s.owners == s.tasks && s.depth == |s.list| + |s.overflow|
        && (s.owners == 0 ==> s.list == [] && s.overflow == [] && multiset(s.dispatched) == multiset(s.arrived))
  {
    InitOk(maxOwners, cap, threads);
    RunKeeps(Init(maxOwners, cap, threads), run);
    var s := Run(Init(maxOwners, cap, threads), run);
    if forall i | 0 <= i < |s.pcs| :: s.pcs[i] == Idle {
      AllIdle(s.pcs);
    }
  }

  lemma AllIdle(pcs: seq<Pc>)
    requires forall i | 0 <= i < |pcs| :: pcs[i] == Idle
    ensures Sum(pcs, Token) == Sum(pcs, ListLooker) == Sum(pcs, OverflowLooker) == Sum(pcs, Uncounted) == Sum(pcs, Unbooked) == 0
    ensures InHand(pcs) == []
  {
    SumZero(pcs, Token);
    SumZero(pcs, ListLooker);
    SumZero(pcs, OverflowLooker);
    SumZero(pcs, Uncounted);
    SumZero(pcs, Unbooked);
    HeldNone(pcs, Content, Token);
  }
}
