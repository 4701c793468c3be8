/**
 One vbucket's write queue (server/engine.cc, server/engine.h) as interleaved
 steps of any number of threads. IO threads push chains of writes and claim the
 `scheduled` flag; whoever sets it owes exactly one task to the pool, through
 the defer queue or directly; a worker sweeps the list once, writes the batch,
 clears the flag and looks again. Every step is one atomic access.
 */
module WriteQueues {
  import opened Totals
  import opened RequestStacks

  datatype Pc =
    | Idle
    | Pushed                         // chain inserted, flag not yet claimed
    | Claimed                        // set the flag: a task must be submitted or deferred
    | Forwarding                     // defer thread, between the two queues
    | Assigned                       // a worker took it from the pool, list not yet swept
    | Holding(batch: seq<Req>)       // worker writing its batch
    | Written                        // batch written, flag still set
    | Cleared                        // flag cleared, list not yet looked at
    | Found                          // list looked non-empty, flag not yet claimed

  datatype State = State(
    list: seq<Req>,                  // newest first, as the stack links them
    scheduled: bool,
    deferred: nat,                   // tasks for this vbucket in the defer queue
    tasks: nat,                      // tasks for this vbucket in the pool's queue
    pcs: seq<Pc>,
    arrived: seq<Req>,               // every write pushed, in the order of the pushes
    written: seq<Req>,               // every write executed, in the order of execution
    batches: seq<seq<Req>>)          // the same, batch by batch

  datatype Step =
    | Push(i: nat, chain: seq<Req>)
    | Claim(i: nat)
    | Defer(i: nat)
    | Submit(i: nat)
    | TakeDeferred(i: nat)
    | Forward(i: nat)
    | Take(i: nat)
    | Sweep(i: nat)
    | Write(i: nat)
    | Clear(i: nat)
    | Recheck(i: nat)

  function Init(threads: nat): State {
    State([], false, 0, 0, Repeat(threads, Idle), [], [], [])
  }

  predicate Can(s: State, a: Step) {
    && a.i < |s.pcs|
    && var pc := s.pcs[a.i];
      match a
      case Push(_, chain) => pc == Idle && chain != []
      case Claim(_) => pc == Pushed || pc == Found
      case Defer(_) => pc == Claimed
      case Submit(_) => pc == Claimed
      case TakeDeferred(_) => pc == Idle && s.deferred > 0
      case Forward(_) => pc == Forwarding
      case Take(_) => pc == Idle && s.tasks > 0
      case Sweep(_) => pc == Assigned
      case Write(_) => pc.Holding?
      case Clear(_) => pc == Written
      case Recheck(_) => pc == Cleared
  }

  function At(s: State, i: nat, pc: Pc): State
    requires i < |s.pcs|
  {
    s.(pcs := s.pcs[i := pc])
  }

  function Do(s: State, a: Step): State
    requires Can(s, a)
  {
    match a
    case Push(i, chain) => At(s, i, Pushed).(list := chain + s.list, arrived := s.arrived + Reverse(chain))
    case Claim(i) => At(s, i, if s.scheduled then Idle else Claimed).(scheduled := true)
    case Defer(i) => At(s, i, Idle).(deferred := s.deferred + 1)
    case Submit(i) => At(s, i, Idle).(tasks := s.tasks + 1)
    case TakeDeferred(i) => At(s, i, Forwarding).(deferred := s.deferred - 1)
    case Forward(i) => At(s, i, Idle).(tasks := s.tasks + 1)
    case Take(i) => At(s, i, Assigned).(tasks := s.tasks - 1)
    case Sweep(i) => At(s, i, Holding(Reverse(s.list))).(list := [])
    case Write(i) => At(s, i, Written).(written := s.written + s.pcs[i].batch, batches := s.batches + [s.pcs[i].batch])
    case Clear(i) => At(s, i, Cleared).(scheduled := false)
    case Recheck(i) => At(s, i, if s.list == [] then Idle else Found)
  }

  ghost predicate Legal(s: State, run: seq<Step>)
    decreases |run|
  {
    run == [] || (Can(s, run[0]) && Legal(Do(s, run[0]), run[1..]))
  }

  function Run(s: State, run: seq<Step>): State
    requires Legal(s, run)
    decreases |run|
  {
    if run == [] then s else Run(Do(s, run[0]), run[1..])
  }

  // ---- The invariant ----

  function Token(pc: Pc): nat {
    if pc == Claimed || pc == Forwarding || pc == Assigned || pc.Holding? || pc == Written then 1 else 0
  }

  /** Threads that will still look at the flag before they go idle. */
  function Looking(pc: Pc): nat {
    if pc == Pushed || pc == Cleared || pc == Found then 1 else 0
  }

  predicate Executing(pc: Pc) {
    pc == Assigned || pc.Holding? || pc == Written
  }

  function Tokens(s: State): nat {
    Sum(s.pcs, Token) + s.deferred + s.tasks
  }

  function BatchOf(pc: Pc): seq<Req> {
    if pc.Holding? then pc.batch else []
  }

  ghost predicate FlagOk(s: State) {
    && Tokens(s) == (if s.scheduled then 1 else 0)
    && (s.list != [] && !s.scheduled ==> Sum(s.pcs, Looking) > 0)
  }

  ghost predicate OrderOk(s: State) {
    s.written + Held(s.pcs, BatchOf) + Reverse(s.list) == s.arrived
  }

  ghost predicate Ok(s: State) {
    FlagOk(s) && OrderOk(s) && Concat(s.batches) == s.written
  }

  lemma MoveTo(s: State, i: nat, pc: Pc)
    requires i < |s.pcs|
    ensures Sum(At(s, i, pc).pcs, Token) == Sum(s.pcs, Token) - Token(s.pcs[i]) + Token(pc)
    ensures Sum(At(s, i, pc).pcs, Looking) == Sum(s.pcs, Looking) - Looking(s.pcs[i]) + Looking(pc)
    ensures Token(s.pcs[i]) <= Sum(s.pcs, Token) && Looking(s.pcs[i]) <= Sum(s.pcs, Looking)
  {
    SumMove(s.pcs, Token, i, pc);
    SumMove(s.pcs, Looking, i, pc);
  }

  lemma FlagKept(s: State, a: Step)
    requires FlagOk(s) && Can(s, a)
    ensures FlagOk(Do(s, a))
  {
    MoveTo(s, a.i, Do(s, a).pcs[a.i]);
  }

  /** The steps that neither push, sweep nor write. */
  lemma ControlKeeps(s: State, a: Step)
    requires OrderOk(s) && Can(s, a) && !a.Push? && !a.Sweep? && !a.Write?
    ensures OrderOk(Do(s, a))
  {
    HeldSame(s.pcs, BatchOf, a.i, Do(s, a).pcs[a.i]);
  }

  lemma Grows(a: seq<Req>, b: seq<Req>, c: seq<Req>, d: seq<Req>, whole: seq<Req>)
    requires a + b + c == whole
    ensures a + b + (c + d) == whole + d
  {}

  lemma PushKeeps(s: State, a: Step)
    requires OrderOk(s) && Can(s, a) && a.Push?
    ensures OrderOk(Do(s, a))
  {
    HeldSame(s.pcs, BatchOf, a.i, Pushed);
    ReverseAppend(a.chain, s.list);
    Grows(s.written, Held(s.pcs, BatchOf), Reverse(s.list), Reverse(a.chain), s.arrived);
  }

  lemma NothingBetween(a: seq<Req>, b: seq<Req>)
    ensures a + [] + b == a + b + [] == a + b
  {}

  /** The one thread with the task holds all that is swept and not yet written. */
  lemma HoldsAll(s: State, i: nat)
    requires FlagOk(s) && i < |s.pcs| && Token(s.pcs[i]) == 1
    ensures Held(s.pcs, BatchOf) == BatchOf(s.pcs[i])
  {
    HeldOnly(s.pcs, BatchOf, Token, i);
  }

  lemma SweepKeeps(s: State, a: Step)
    requires FlagOk(s) && OrderOk(s) && Can(s, a) && a.Sweep?
    ensures OrderOk(Do(s, a))
  {
    FlagKept(s, a);
    HoldsAll(s, a.i);
    HoldsAll(Do(s, a), a.i);
    NothingBetween(s.written, Reverse(s.list));
  }

  lemma WriteKeeps(s: State, a: Step)
    requires FlagOk(s) && OrderOk(s) && Can(s, a) && a.Write?
    ensures OrderOk(Do(s, a))
  {
    FlagKept(s, a);
    HoldsAll(s, a.i);
    HoldsAll(Do(s, a), a.i);
    NothingBetween(s.written + s.pcs[a.i].batch, Reverse(s.list));
  }

  lemma BatchesKept(s: State, a: Step)
    requires Concat(s.batches) == s.written && Can(s, a)
    ensures Concat(Do(s, a).batches) == Do(s, a).written
  {
    if a.Write? { ConcatSnoc(s.batches, s.pcs[a.i].batch); }
  }

  lemma StepKeeps(s: State, a: Step)
    requires Ok(s) && Can(s, a)
    ensures Ok(Do(s, a))
  {
    FlagKept(s, a);
    BatchesKept(s, a);
    match a
    case Push(_, _) => PushKeeps(s, a);
    case Sweep(_) => SweepKeeps(s, a);
    case Write(_) => WriteKeeps(s, a);
    case _ => ControlKeeps(s, a);
  }

  lemma {:induction false} RunKeeps(s: State, run: seq<Step>)
    requires Ok(s) && Legal(s, run)
    ensures Ok(Run(s, run))
    decreases |run|
  {
    if run != [] {
      StepKeeps(s, run[0]);
      RunKeeps(Do(s, run[0]), run[1..]);
    }
  }

  lemma InitOk(threads: nat)
    ensures Ok(Init(threads))
  {
    SumZero(Init(threads).pcs, Token);
    HeldNone(Init(threads).pcs, BatchOf, Token);
  }

  // ---- What holds over every run ----

  /** The flag is set exactly when one task exists, and one worker at most runs the vbucket. */
  lemma OneOwner(threads: nat, run: seq<Step>)
    requires Legal(Init(threads), run)
    ensures var s := Run(Init(threads), run);
      && Tokens(s) == (if s.scheduled then 1 else 0)
      && forall i, j | 0 <= i < j < |s.pcs| :: !(Executing(s.pcs[i]) && Executing(s.pcs[j]))
  {
    var s := Run(Init(threads), run);
    InitOk(threads);
    RunKeeps(Init(threads), run);
    forall i, j | 0 <= i < j < |s.pcs| ensures !(Executing(s.pcs[i]) && Executing(s.pcs[j])) {
      SumPair(s.pcs, Token, i, j);
    }
  }

  /** However threads interleave, writes execute once each, in the order they arrived. */
  lemma ArrivalOrder(threads: nat, run: seq<Step>)
    requires Legal(Init(threads), run)
    ensures var s := Run(Init(threads), run);
      && s.written + Held(s.pcs, BatchOf) + Reverse(s.list) == s.arrived && s.written <= s.arrived
      && Concat(s.batches) == s.written
  {
    InitOk(threads);
    RunKeeps(Init(threads), run);
  }

  ghost predicate AtRest(s: State) {
    forall i | 0 <= i < |s.pcs| :: s.pcs[i] == Idle
  }

  lemma RestOk(s: State)
    requires Ok(s) && AtRest(s)
    ensures s.list != [] ==> s.scheduled && s.deferred + s.tasks == 1
    ensures s.deferred + s.tasks == 0 ==> s.written == s.arrived && !s.scheduled
  {
    SumZero(s.pcs, Looking);
    SumZero(s.pcs, Token);
    HeldNone(s.pcs, BatchOf, Token);
  }

  /** Nothing is stranded: at rest a non-empty list has its task queued, and with no task all is written. */
  lemma NothingStranded(threads: nat, run: seq<Step>)
    requires Legal(Init(threads), run)
    ensures var s := Run(Init(threads), run);
      AtRest(s) ==>
        && (s.list != [] ==> s.scheduled && s.deferred + s.tasks == 1)
        && (s.deferred + s.tasks == 0 ==> s.written == s.arrived && !s.scheduled)
  {
    var s := Run(Init(threads), run);
    InitOk(threads);
    RunKeeps(Init(threads), run);
    if AtRest(s) { RestOk(s); }
  }
}
