/**
 Retiring an IO loop (server/server.cc, server/iothread.h,
 server/connection.cc), seen from one loop, as interleaved steps of any number
 of accepting threads, the tuner thread and the loop itself. The loop's counters
 are read one at a time, so a reader can see a connection neither arriving nor
 arrived. `need` is the number of consecutive empty ticks a loop is stopped
 after: the server uses two.
 */
module LoopRetire {
  import opened Totals

  datatype Acceptor =
    | Away
    | Picking                            // holds the pool's lock, chose this loop, slot not yet reserved

  datatype Tuner =
    | Idle
    | Looking                            // holds the pool's lock, nothing read yet
    | SawConns(c: int)                   // connection count read
    | SawEmpty                           // load was zero, held replies not yet read

  datatype State = State(
    need: nat,
    acceptors: seq<Acceptor>,
    tuner: Tuner,
    locked: bool,
    retiring: bool,
    ticks: nat,                          // consecutive empty ticks
    connCount: int,
    pending: int,
    holds: int,
    adding: bool,                        // the loop is between its two updates for an arrival
    conns: nat,                          // connections on the loop
    coming: nat,                         // slots reserved and not yet taken or given back
    replies: nat,                        // durable writes whose reply is held
    asked: nat,                          // unanswered reads of connections on the loop
    orphans: nat,                        // of connections closed since: still to be answered on the loop
    stopped: bool)

  datatype Step =
    | Pick(i: nat)                       // pickIOThread: this loop is live and least loaded
    | Reserve(i: nat)
    | Plan                               // rebalance or planMoves reserve a slot on a live loop
    | Unreserve                          // a planned move came to nothing
    | Arrive                             // Add: connection listed and counted
    | Arrived                            // Add: its slot given back
    | Read                               // handed to the engine; holds nothing
    | Answer
    | Leave(left: nat)                   // Remove: moved away, or closed with so many reads unanswered
    | AnswerLate                         // a read whose connection is closed
    | Hold
    | Release
    | Shrink
    | Look
    | ReadConns
    | ReadPending
    | ReadHolds

  function Init(need: nat, acceptors: nat): State {
    State(need, Repeat(acceptors, Away), Idle, false, false, 0, 0, 0, 0, false, 0, 0, 0, 0, 0, false)
  }

  predicate Can(s: State, a: Step) {
    match a
    case Pick(i) => i < |s.acceptors| && s.acceptors[i] == Away && !s.locked && !s.retiring
    case Reserve(i) => i < |s.acceptors| && s.acceptors[i] == Picking
    case Plan => s.tuner == Idle && !s.retiring
    case Unreserve => s.coming > (if s.adding then 1 else 0)
    case Arrive => !s.stopped && !s.adding && s.coming > 0
    case Arrived => s.adding
    case Read => !s.stopped && !s.adding && s.conns > 0
    case Answer => !s.stopped && !s.adding && s.asked > 0
    case Leave(left) => !s.stopped && !s.adding && s.conns > 0 && left <= s.asked && (s.conns == 1 ==> left == s.asked)
    case AnswerLate => !s.stopped && !s.adding && s.orphans > 0
    case Hold => !s.stopped && !s.adding && s.conns > 0
    case Release => !s.stopped && !s.adding && s.replies > 0
    case Shrink => s.tuner == Idle && !s.retiring
    case Look => s.tuner == Idle && s.retiring && !s.stopped && !s.locked
    case ReadConns => s.tuner == Looking
    case ReadPending => s.tuner.SawConns?
    case ReadHolds => s.tuner == SawEmpty
  }

  function Do(s: State, a: Step): State
    requires Can(s, a)
  {
    match a
    case Pick(i) => s.(acceptors := s.acceptors[i := Picking], locked := true)
    case Reserve(i) =>
      s.(acceptors := s.acceptors[i := Away], locked := false, pending := s.pending + 1, coming := s.coming + 1)
    case Plan => s.(pending := s.pending + 1, coming := s.coming + 1)
    case Unreserve => s.(pending := s.pending - 1, coming := s.coming - 1)
    case Arrive => s.(adding := true, conns := s.conns + 1, connCount := s.connCount + 1)
    case Arrived => s.(adding := false, pending := s.pending - 1, coming := if s.coming == 0 then 0 else s.coming - 1)
    case Read => s.(asked := s.asked + 1)
    case Answer => s.(asked := s.asked - 1)
    case Leave(left) =>
      s.(conns := s.conns - 1, connCount := s.connCount - 1, asked := s.asked - left, orphans := s.orphans + left)
    case AnswerLate => s.(orphans := s.orphans - 1)
    case Hold => s.(holds := s.holds + 1, replies := s.replies + 1)
    case Release => s.(holds := s.holds - 1, replies := s.replies - 1)
    case Shrink => s.(retiring := true, ticks := 0)
    case Look => s.(tuner := Looking, locked := true)
    case ReadConns => s.(tuner := SawConns(s.connCount))
    case ReadPending =>
      if s.tuner.c + s.pending > 0 then s.(tuner := Idle, locked := false, ticks := 0) else s.(tuner := SawEmpty)
    case ReadHolds =>
      if s.holds > 0 then s.(tuner := Idle, locked := false, ticks := 0)
      else s.(tuner := Idle, locked := false, ticks := s.ticks + 1, stopped := s.ticks + 1 >= s.need)
  }

  ghost predicate Legal(s: State, run: seq<Step>)
    decreases |run|
  {
    run == [] || (Can(s, run[0]) && Legal(Do(s, run[0]), run[1..]))
  }

  function Run(s: State, run: seq<Step>): State
    requires Legal(s, run)
    decreases |run|
  {
    if run == [] then s else Run(Do(s, run[0]), run[1..])
  }

  // ---- Counters ----

  function HasLock(a: Acceptor): nat {
    if a == Picking then 1 else 0
  }

  ghost predicate ConnsOk(s: State) {
    s.connCount == s.conns && (s.asked > 0 ==> s.conns > 0)
  }

  ghost predicate SlotsOk(s: State) {
    s.pending == s.coming && (s.adding ==> s.coming > 0)
  }

  ghost predicate LockOk(s: State) {
    && Sum(s.acceptors, HasLock) + (if s.tuner == Idle then 0 else 1) == (if s.locked then 1 else 0)
    && (s.tuner != Idle || s.ticks > 0 ==> s.retiring)
  }

  ghost predicate BooksOk(s: State) {
    ConnsOk(s) && SlotsOk(s) && s.holds == s.replies && LockOk(s)
  }

  lemma ConnsKept(s: State, a: Step)
    requires ConnsOk(s) && Can(s, a)
    ensures ConnsOk(Do(s, a))
  {}

  lemma SlotsKept(s: State, a: Step)
    requires SlotsOk(s) && Can(s, a)
    ensures SlotsOk(Do(s, a))
  {}

  lemma HoldsKept(s: State, a: Step)
    requires s.holds == s.replies && Can(s, a)
    ensures Do(s, a).holds == Do(s, a).replies
  {}

  lemma LockKept(s: State, a: Step)
    requires LockOk(s) && Can(s, a)
    ensures LockOk(Do(s, a))
  {
    match a
    case Pick(i) => SumMove(s.acceptors, HasLock, i, Picking);
    case Reserve(i) => SumMove(s.acceptors, HasLock, i, Away);
    case _ =>
  }

  lemma BooksKept(s: State, a: Step)
    requires BooksOk(s) && Can(s, a)
    ensures BooksOk(Do(s, a))
  {
    ConnsKept(s, a);
    SlotsKept(s, a);
    HoldsKept(s, a);
    LockKept(s, a);
  }

  // ---- What two empty ticks have shown ----

  /** No slot will be reserved any more: the loop is retiring and no acceptor is past that test. */
  ghost predicate Sealed(s: State) {
    s.retiring && Sum(s.acceptors, HasLock) == 0
  }

  ghost predicate TicksOk(s: State) {
    && (s.tuner != Idle ==> Sealed(s))
    && (s.ticks > 0 ==> Sealed(s) && s.coming == 0)
    && (s.tuner == SawEmpty ==> s.coming == 0)
    && (s.tuner.SawConns? ==> s.tuner.c >= 0)
    && (s.ticks > 0 && s.tuner.SawConns? && s.tuner.c == 0 ==> s.conns == 0)
    && (s.ticks > 0 && s.tuner == SawEmpty ==> s.conns == 0)
    && (s.stopped ==> Sealed(s) && s.tuner == Idle && s.conns == 0 && s.coming == 0 && s.replies == 0)
  }

  lemma TicksKept(s: State, a: Step)
    requires s.need >= 2 && BooksOk(s) && TicksOk(s) && Can(s, a)
    ensures TicksOk(Do(s, a))
  {
    match a
    case Pick(i) => SumMove(s.acceptors, HasLock, i, Picking);
    case Reserve(i) => SumMove(s.acceptors, HasLock, i, Away);
    case _ =>
  }

  lemma {:induction false} RunKeeps(s: State, run: seq<Step>)
    requires s.need >= 2 && BooksOk(s) && TicksOk(s) && Legal(s, run)
    ensures BooksOk(Run(s, run)) && TicksOk(Run(s, run))
    decreases |run|
  {
    if run != [] {
      BooksKept(s, run[0]);
      TicksKept(s, run[0]);
      RunKeeps(Do(s, run[0]), run[1..]);
    }
  }

  /** A loop stopped after two empty ticks has no connection, so none with a read, none in transit to it and no reply held. */
  lemma StopsEmpty(need: nat, acceptors: nat, run: seq<Step>)
    requires need >= 2 && Legal(Init(need, acceptors), run)
    ensures var s := Run(Init(need, acceptors), run);
      s.stopped ==> s.conns == 0 && s.asked == 0 && s.coming == 0 && s.replies == 0
  {
    var s := Init(need, acceptors);
    SumZero(s.acceptors, HasLock);
    RunKeeps(s, run);
  }

  lemma RunOn(s: State, a: Step, rest: seq<Step>)
    requires Can(s, a) && Legal(Do(s, a), rest)
    ensures Legal(s, [a] + rest) && Run(s, [a] + rest) == Run(Do(s, a), rest)
  {
    assert ([a] + rest)[1..] == rest;
  }

  /** The tuner has read no connection; one is on its way. */
  function Midway(need: nat): State {
    State(need, [Away], SawConns(0), true, true, 0, 0, 1, 0, false, 0, 1, 0, 0, 0, false)
  }

  lemma MidwayReached(need: nat, rest: seq<Step>) returns (run: seq<Step>)
    requires Legal(Midway(need), rest)
    ensures Legal(Init(need, 1), run) && Run(Init(need, 1), run) == Run(Midway(need), rest)
  {
    var s0 := Init(need, 1);
    assert s0.acceptors == [Away];
    var s1 := Do(s0, Plan);
    var s2 := Do(s1, Shrink);
    var s3 := Do(s2, Look);
    assert Do(s3, ReadConns) == Midway(need);
    RunOn(s3, ReadConns, rest);
    run := [ReadConns] + rest;
    RunOn(s2, Look, run);
    run := [Look] + run;
    RunOn(s1, Shrink, run);
    run := [Shrink] + run;
    RunOn(s0, Plan, run);
    run := [Plan] + run;
  }

  /** Fewer are not enough: an arrival between the two reads hides from both, and its loop stops. */
  lemma FewerTicksUnsafe(need: nat) returns (run: seq<Step>)
    requires need <= 1
    ensures Legal(Init(need, 1), run) && Run(Init(need, 1), run).stopped && Run(Init(need, 1), run).conns == 1
  {
    var s4 := Midway(need);
    var s5 := Do(s4, Arrive);
    var s6 := Do(s5, Arrived);
    var s7 := Do(s6, ReadPending);
    RunOn(s7, ReadHolds, []);
    run := [ReadHolds] + [];
    RunOn(s6, ReadPending, run);
    run := [ReadPending] + run;
    RunOn(s5, Arrived, run);
    run := [Arrived] + run;
    RunOn(s4, Arrive, run);
    run := MidwayReached(need, [Arrive] + run);
  }

  // ---- Reads of closed connections ----

  /** Reads left unanswered by the connections that went, and those answered since. */
  function LeftBehind(run: seq<Step>): nat {
    if run == [] then 0 else (if run[0].Leave? then run[0].left else 0) + LeftBehind(run[1..])
  }

  function AnsweredLate(run: seq<Step>): nat {
    if run == [] then 0 else (if run[0] == AnswerLate then 1 else 0) + AnsweredLate(run[1..])
  }

  lemma OrphanStep(s: State, a: Step)
    requires Can(s, a)
    ensures Do(s, a).orphans + (if a == AnswerLate then 1 else 0) == s.orphans + if a.Leave? then a.left else 0
  {}

  lemma {:induction false} OrphansCount(s: State, run: seq<Step>)
    requires Legal(s, run)
    ensures Run(s, run).orphans + AnsweredLate(run) == s.orphans + LeftBehind(run)
    decreases |run|
  {
    if run != [] {
      OrphanStep(s, run[0]);
      OrphansCount(Do(s, run[0]), run[1..]);
    }
  }

  /** No connection goes with more than so many reads unanswered. */
  ghost predicate LeavesAtMost(run: seq<Step>, most: nat) {
    forall i | 0 <= i < |run| && run[i].Leave? :: run[i].left <= most
  }

  lemma {:induction false} NoneLeftBehind(run: seq<Step>)
    requires LeavesAtMost(run, 0)
    ensures LeftBehind(run) == 0
  {
    if run != [] {
      assert forall i | 0 <= i < |run[1..]| :: run[1..][i] == run[i + 1];
      NoneLeftBehind(run[1..]);
    }
  }

  /** A run that stops the loop with a read still to be answered on it. */
  ghost predicate Strands(need: nat, acceptors: nat, run: seq<Step>) {
    Legal(Init(need, acceptors), run) && Run(Init(need, acceptors), run).stopped && Run(Init(need, acceptors), run).orphans > 0
  }

  /** A retiring loop with nothing on it but one closed connection's read. */
  function Emptied(need: nat, acceptors: nat, ticks: nat): State {
    State(need, Repeat(acceptors, Away), Idle, false, true, ticks, 0, 0, 0, false, 0, 0, 0, 0, 1, false)
  }

  lemma AtMostMore(a: Step, rest: seq<Step>, most: nat)
    requires LeavesAtMost(rest, most) && (a.Leave? ==> a.left <= most)
    ensures LeavesAtMost([a] + rest, most)
  {}

  lemma Prepend(s: State, a: Step, rest: seq<Step>, most: nat) returns (run: seq<Step>)
    requires Can(s, a) && Legal(Do(s, a), rest) && LeavesAtMost(rest, most) && (a.Leave? ==> a.left <= most)
    ensures Legal(s, run) && Run(s, run) == Run(Do(s, a), rest) && LeavesAtMost(run, most)
  {
    run := [a] + rest;
    RunOn(s, a, rest);
    AtMostMore(a, rest, most);
  }

  /** One empty tick, up to the tuner's last look. */
  lemma Tick(need: nat, acceptors: nat, ticks: nat, rest: seq<Step>, most: nat) returns (run: seq<Step>)
    requires var s := Emptied(need, acceptors, ticks).(tuner := SawEmpty, locked := true);
      Legal(Do(s, ReadHolds), rest) && LeavesAtMost(rest, most)
    ensures Legal(Emptied(need, acceptors, ticks), run) && LeavesAtMost(run, most)
    ensures var s := Emptied(need, acceptors, ticks).(tuner := SawEmpty, locked := true);
      Run(Emptied(need, acceptors, ticks), run) == Run(Do(s, ReadHolds), rest)
  {
    var s0 := Emptied(need, acceptors, ticks);
    var s1 := Do(s0, Look);
    var s2 := Do(s1, ReadConns);
    var s3 := Do(s2, ReadPending);
    run := Prepend(s3, ReadHolds, rest, most);
    run := Prepend(s2, ReadPending, run, most);
    run := Prepend(s1, ReadConns, run, most);
    run := Prepend(s0, Look, run, most);
  }

  lemma {:induction false} TicksOn(need: nat, acceptors: nat, ticks: nat, most: nat) returns (run: seq<Step>)
    ensures Legal(Emptied(need, acceptors, ticks), run) && LeavesAtMost(run, most)
    ensures var s := Run(Emptied(need, acceptors, ticks), run); s.stopped && s.orphans == 1
    decreases if ticks >= need then 0 else need - ticks
  {
    var rest: seq<Step> := [];
    if ticks + 1 < need {
      rest := TicksOn(need, acceptors, ticks + 1, most);
    }
    run := Tick(need, acceptors, ticks, rest, most);
  }

  /** A connection arrives, reads, and is closed before the answer; then the loop retires. */
  lemma CloseReading(need: nat, acceptors: nat, rest: seq<Step>, most: nat) returns (run: seq<Step>)
    requires most >= 1 && Legal(Emptied(need, acceptors, 0), rest) && LeavesAtMost(rest, most)
    ensures Legal(Init(need, acceptors), run) && LeavesAtMost(run, most)
    ensures Run(Init(need, acceptors), run) == Run(Emptied(need, acceptors, 0), rest)
  {
    var s0 := Init(need, acceptors);
    var s1 := Do(s0, Plan);
    var s2 := Do(s1, Arrive);
    var s3 := Do(s2, Arrived);
    var s4 := Do(s3, Read);
    var s5 := Do(s4, Leave(1));
    assert Do(s5, Shrink) == Emptied(need, acceptors, 0);
    run := Prepend(s5, Shrink, rest, most);
    run := Prepend(s4, Leave(1), run, most);
    run := Prepend(s3, Read, run, most);
    run := Prepend(s2, Arrived, run, most);
    run := Prepend(s1, Arrive, run, most);
    run := Prepend(s0, Plan, run, most);
  }

  /**
   However many ticks are asked for, a loop can be stopped with a read still to be answered on it
   exactly when a connection may be closed with a read unanswered.
   */
  lemma StrandedIff(need: nat, acceptors: nat, most: nat)
    ensures (exists run :: Strands(need, acceptors, run) && LeavesAtMost(run, most)) <==> most >= 1
  {
    if most >= 1 {
      var run := TicksOn(need, acceptors, 0, most);
      run := CloseReading(need, acceptors, run, most);
      assert Strands(need, acceptors, run);
    } else {
      forall run | Strands(need, acceptors, run) ensures !LeavesAtMost(run, most) {
        OrphansCount(Init(need, acceptors), run);
        if LeavesAtMost(run, most) { NoneLeftBehind(run); }
      }
    }
  }
}
