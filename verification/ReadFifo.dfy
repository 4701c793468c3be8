/**
 The read queue with a single owner (gMaxReadOwners = 1): reads dispatch in
 arrival order, and a read waits a bounded number of rounds. A round is one
 dispatch of a batch.
 */
module ReadFifo {
  import opened Arithmetic
  import opened Totals
  import opened RequestStacks
  import opened ReadQueues

  /** What a batch on its way says of the rest: room was left only if nothing older remained. */
  ghost predicate Fits(s: State, pc: Pc) {
    && (pc.Drained? ==> |pc.batch| <= s.cap && (|pc.batch| < s.cap ==> s.overflow == []))
    && (pc.Swept? ==> 1 <= |pc.batch| <= s.cap && (pc.excess != [] ==> |pc.batch| == s.cap && s.overflow == []))
    && (pc.Trimmed? ==> 1 <= |pc.batch| <= s.cap)
    && (pc.Booked? ==> 1 <= |pc.batch| <= s.cap)
  }

  /** Log, batch in hand, overflow and list, end to end, are the arrivals. */
  ghost predicate Ordered(done: seq<Req>, hand: seq<Req>, over: seq<Req>, behind: seq<Req>, arrived: seq<Req>) {
    done + hand + over + behind == arrived
  }

  ghost predicate InOrder(s: State) {
    Ordered(s.dispatched, InHand(s.pcs), s.overflow, Reverse(s.list), s.arrived)
  }

  ghost predicate FifoOk(s: State) {
    && OwnersOk(s) && s.maxOwners == 1
    && InOrder(s)
    && forall i | 0 <= i < |s.pcs| :: Fits(s, s.pcs[i])
  }

  /** The only owner's batch is all there is in hand. */
  lemma OwnerHolds(s: State, i: nat)
    requires OwnersOk(s) && s.maxOwners == 1 && i < |s.pcs| && Token(s.pcs[i]) == 1
    ensures InHand(s.pcs) == Content(s.pcs[i])
    ensures forall j | 0 <= j < |s.pcs| && j != i :: Token(s.pcs[j]) == 0
  {
    HeldOnly(s.pcs, Content, Token, i);
    forall j | 0 <= j < |s.pcs| && j != i ensures Token(s.pcs[j]) == 0 {
      if j < i { SumPair(s.pcs, Token, j, i); } else { SumPair(s.pcs, Token, i, j); }
    }
  }

  // ---- Order, for each step that moves a read ----

  lemma InsertInOrder(s: State, a: Step)
    requires FifoOk(s) && Can(s, a) && a.Insert?
    ensures InOrder(Do(s, a))
  {
    HeldSame(s.pcs, Content, a.i, Inserted);
    ReverseAppend([a.r], s.list);
    assert Reverse([a.r]) == [a.r];
    assert s.dispatched + InHand(s.pcs) + s.overflow + (Reverse(s.list) + [a.r]) == s.arrived + [a.r];
  }

  lemma StillInOrder(s: State, a: Step)
    requires FifoOk(s) && Can(s, a) && Content(Next(s, a)) == Content(s.pcs[a.i])
    requires var t := Do(s, a); t.list == s.list && t.overflow == s.overflow && t.dispatched == s.dispatched && t.arrived == s.arrived
    ensures InOrder(Do(s, a))
  {
    HeldSame(s.pcs, Content, a.i, Next(s, a));
  }

  lemma DrainOrdered(done: seq<Req>, over: seq<Req>, behind: seq<Req>, arrived: seq<Req>, k: nat)
    requires k <= |over| && Ordered(done, [], over, behind, arrived)
    ensures Ordered(done, over[..k], over[k..], behind, arrived)
  {
    assert over == over[..k] + over[k..];
  }

  lemma SpillOrdered(done: seq<Req>, batch: seq<Req>, excess: seq<Req>, over: seq<Req>, behind: seq<Req>, arrived: seq<Req>)
    requires Ordered(done, batch + excess, over, behind, arrived) && (excess != [] ==> over == [])
    ensures Ordered(done, batch, over + excess, behind, arrived)
  {
    if excess != [] {
      assert done + (batch + excess) + [] + behind == done + batch + ([] + excess) + behind;
    } else {
      assert batch + [] == batch && over + [] == over;
    }
  }

  lemma DispatchOrdered(done: seq<Req>, batch: seq<Req>, over: seq<Req>, behind: seq<Req>, arrived: seq<Req>)
    requires Ordered(done, batch, over, behind, arrived)
    ensures Ordered(done + batch, [], over, behind, arrived)
  {
    assert done + batch + [] == done + batch;
  }

  lemma DrainInOrder(s: State, a: Step)
    requires FifoOk(s) && Can(s, a) && a.Drain?
    ensures InOrder(Do(s, a))
  {
    OwnersKept(s, a);
    OwnerHolds(s, a.i);
    OwnerHolds(Do(s, a), a.i);
    DrainOrdered(s.dispatched, s.overflow, Reverse(s.list), s.arrived, Cut(s.overflow, s.cap));
  }

  lemma GatheredAll(s: State, a: Step)
    requires Can(s, a) && a.Sweep? && FifoOk(s)
    ensures Content(Next(s, a)) == Gathered(s, s.pcs[a.i].batch)
    ensures s.overflow + Reverse(s.list) == if |s.pcs[a.i].batch| < s.cap then Reverse(s.list) else s.overflow + Reverse(s.list)
  {
    SweepContent(s, s.pcs[a.i].batch);
    assert Fits(s, s.pcs[a.i]);
  }

  lemma SweepInOrder(s: State, a: Step)
    requires FifoOk(s) && Can(s, a) && a.Sweep? && Next(s, a).Swept?
    ensures InOrder(Do(s, a))
  {
    var t, b := Do(s, a), s.pcs[a.i].batch;
    OwnersKept(s, a);
    OwnerHolds(s, a.i);
    OwnerHolds(t, a.i);
    GatheredAll(s, a);
    if |b| < s.cap {
      assert Fits(s, s.pcs[a.i]);
      SweptOrdered(s.dispatched, b, Reverse(s.list), s.arrived);
    }
  }

  lemma SweptOrdered(done: seq<Req>, batch: seq<Req>, behind: seq<Req>, arrived: seq<Req>)
    requires Ordered(done, batch, [], behind, arrived)
    ensures Ordered(done, batch + behind, [], [], arrived)
  {
    assert done + batch + [] + behind == done + (batch + behind) + [] + [];
  }

  lemma SpillInOrder(s: State, a: Step)
    requires FifoOk(s) && Can(s, a) && a.Spill?
    ensures InOrder(Do(s, a))
  {
    var pc := s.pcs[a.i];
    assert Fits(s, pc);
    OwnersKept(s, a);
    OwnerHolds(s, a.i);
    OwnerHolds(Do(s, a), a.i);
    SpillOrdered(s.dispatched, pc.batch, pc.excess, s.overflow, Reverse(s.list), s.arrived);
  }

  lemma DispatchInOrder(s: State, a: Step)
    requires FifoOk(s) && Can(s, a) && a.Dispatch?
    ensures InOrder(Do(s, a))
  {
    OwnersKept(s, a);
    OwnerHolds(s, a.i);
    OwnerHolds(Do(s, a), a.i);
    DispatchOrdered(s.dispatched, s.pcs[a.i].batch, s.overflow, Reverse(s.list), s.arrived);
  }

  lemma OrderKept(s: State, a: Step)
    requires FifoOk(s) && Can(s, a)
    ensures InOrder(Do(s, a))
  {
    match a
    case Insert(_, _) => InsertInOrder(s, a);
    case Drain(_) => DrainInOrder(s, a);
    case Sweep(_) =>
      if Next(s, a).Swept? {
        SweepInOrder(s, a);
      } else {
        EmptySweepInOrder(s, a);
      }
    case Spill(_) => SpillInOrder(s, a);
    case Dispatch(_) => DispatchInOrder(s, a);
    case _ => StillInOrder(s, a);
  }

  /** Nothing gathered: nothing was in the batch, the overflow or the list. */
  lemma EmptySweepInOrder(s: State, a: Step)
    requires FifoOk(s) && Can(s, a) && a.Sweep? && Next(s, a) == Leaving
    ensures InOrder(Do(s, a))
  {
    assert s.list == [];
    StillInOrder(s, a);
  }

  lemma OwnFits(s: State, a: Step)
    requires FifoOk(s) && Can(s, a)
    ensures Fits(Do(s, a), Next(s, a))
  {
    assert Fits(s, s.pcs[a.i]);
  }

  lemma OtherFits(s: State, a: Step, i: nat)
    requires FifoOk(s) && Can(s, a) && i < |s.pcs| && i != a.i
    ensures Fits(Do(s, a), s.pcs[i])
  {
    assert Fits(s, s.pcs[i]);
    if Token(s.pcs[a.i]) == 1 {
      OwnerHolds(s, a.i);
    }
  }

  lemma FitsAt(s: State, a: Step, i: nat)
    requires FifoOk(s) && Can(s, a) && i < |s.pcs|
    ensures Fits(Do(s, a), s.pcs[a.i := Next(s, a)][i])
  {
    if i != a.i { OtherFits(s, a, i); } else { OwnFits(s, a); }
  }

  lemma FitsKept(s: State, a: Step)
    requires FifoOk(s) && Can(s, a)
    ensures forall i | 0 <= i < |Do(s, a).pcs| :: Fits(Do(s, a), Do(s, a).pcs[i])
  {
    var t, pcs := Do(s, a), s.pcs[a.i := Next(s, a)];
    assert t.pcs == pcs;
    forall i | 0 <= i < |pcs| ensures Fits(t, pcs[i]) {
      FitsAt(s, a, i);
    }
  }

  lemma FifoKept(s: State, a: Step)
    requires FifoOk(s) && Can(s, a)
    ensures FifoOk(Do(s, a))
  {
    OwnersKept(s, a);
    OrderKept(s, a);
    FitsKept(s, a);
  }

  // ---- Bounded waiting ----

  /** The owner's batch is settled: it will dispatch these and no more this round. */
  function Settled(pc: Pc): nat {
    if pc.Swept? || pc.Trimmed? || pc.Booked? then 1 else 0
  }

  function SettledSize(pc: Pc): nat {
    if pc.Swept? || pc.Trimmed? || pc.Booked? then |pc.batch| else 0
  }

  /** Rounds for a read with `ahead` reads before it when none is settled yet. */
  function Need(ahead: nat, cap: nat): nat
    requires cap >= 1
  {
    if ahead < cap then 1 else 1 + Need(ahead - cap, cap)
  }

  lemma {:induction false} NeedIs(ahead: nat, cap: nat)
    requires cap >= 1
    ensures Need(ahead, cap) == ahead / cap + 1
    decreases ahead
  {
    if ahead < cap {
      QuotientIs(ahead, cap, 0);
    } else {
      NeedIs(ahead - cap, cap);
      QuotientSteps(ahead - cap, cap);
    }
  }

  /** Rounds until the read that arrived as number k is dispatched. */
  function RoundsOf(done: nat, settled: nat, size: nat, cap: nat, k: nat): nat
    requires cap >= 1
  {
    if k < done then 0
    else if settled == 0 then Need(k - done, cap)
    else if k < done + size then 1
    else 1 + Need(k - done - size, cap)
  }

  function RoundsLeft(s: State, k: nat): nat
    requires s.cap >= 1
  {
    RoundsOf(|s.dispatched|, Sum(s.pcs, Settled), Sum(s.pcs, SettledSize), s.cap, k)
  }

  lemma SettlingCosts(done: nat, size: nat, cap: nat, arrived: nat, k: nat)
    requires 1 <= cap && size <= cap && (size == cap || done + size == arrived) && k < arrived
    ensures RoundsOf(done, 1, size, cap, k) == RoundsOf(done, 0, 0, cap, k)
  {}

  /** Taking size off the front saves a round exactly when it reaches past the last full batch ahead. */
  lemma SavesRound(ahead: nat, size: nat, cap: nat)
    requires cap >= 1 && size <= ahead
    ensures (ahead - size) / cap < ahead / cap <==> ahead % cap < size
  {
    var q := ahead / cap;
    assert ahead == q * cap + ahead % cap;
    if ahead % cap < size {
      assert (ahead - size) / cap <= q - 1 by {
        var d := (ahead - size) / cap;
        assert d * cap <= ahead - size;
        assert (q - 1) * cap + cap == q * cap;
        Cancel(d, q - 1, cap);
      }
    } else {
      QuotientIs(ahead - size, cap, q);
    }
  }

  /** When a read with `ahead` before it keeps to ahead / cap + 1 rounds. */
  lemma BoundMet(done: nat, settled: nat, size: nat, cap: nat, ahead: nat)
    requires cap >= 1
    ensures RoundsOf(done, settled, size, cap, done + ahead) <= ahead / cap + 1
      <==> settled == 0 || ahead < size || ahead % cap < size
  {
    NeedIs(ahead, cap);
    if settled > 0 && ahead >= size {
      NeedIs(ahead - size, cap);
      SavesRound(ahead, size, cap);
    }
  }

  lemma SettledIs(s: State, i: nat)
    requires FifoOk(s) && i < |s.pcs| && Token(s.pcs[i]) == 1
    ensures Sum(s.pcs, Settled) == Settled(s.pcs[i]) && Sum(s.pcs, SettledSize) == SettledSize(s.pcs[i])
  {
    SumOnly(s.pcs, Settled, Token, i);
    SumOnly(s.pcs, SettledSize, Token, i);
  }

  lemma ArrivedCount(s: State)
    requires InOrder(s)
    ensures |s.arrived| == |s.dispatched| + |InHand(s.pcs)| + |s.overflow| + |s.list|
  {}

  /** A sweep settles a full batch, or everything that has arrived. */
  lemma SweepSettles(s: State, a: Step)
    requires FifoOk(s) && Can(s, a) && a.Sweep? && Next(s, a).Swept?
    ensures SettledSize(Next(s, a)) <= s.cap
    ensures SettledSize(Next(s, a)) == s.cap || |s.dispatched| + SettledSize(Next(s, a)) == |s.arrived|
  {
    var pc := s.pcs[a.i];
    OwnerHolds(s, a.i);
    ArrivedCount(s);
    assert Fits(s, pc);
  }

  lemma SweepRounds(s: State, a: Step, k: nat)
    requires FifoOk(s) && Can(s, a) && a.Sweep? && k < |s.arrived|
    ensures RoundsLeft(Do(s, a), k) == RoundsLeft(s, k)
  {
    FifoKept(s, a);
    SettledIs(s, a.i);
    SettledIs(Do(s, a), a.i);
    if Next(s, a).Swept? {
      SweepSettles(s, a);
      SettlingCosts(|s.dispatched|, SettledSize(Next(s, a)), s.cap, |s.arrived|, k);
    }
  }

  lemma DispatchRounds(s: State, a: Step, k: nat)
    requires FifoOk(s) && Can(s, a) && a.Dispatch?
    ensures RoundsLeft(Do(s, a), k) == if RoundsLeft(s, k) == 0 then 0 else RoundsLeft(s, k) - 1
  {
    FifoKept(s, a);
    SettledIs(s, a.i);
    SettledIs(Do(s, a), a.i);
  }

  lemma OtherSettled(s: State, a: Step)
    requires FifoOk(s) && Can(s, a) && !a.Sweep? && !a.Dispatch?
    ensures Settled(s.pcs[a.i]) == Settled(Next(s, a)) && SettledSize(s.pcs[a.i]) == SettledSize(Next(s, a))
    ensures Do(s, a).dispatched == s.dispatched && Do(s, a).cap == s.cap && Do(s, a).pcs == s.pcs[a.i := Next(s, a)]
  {}

  lemma OtherRounds(s: State, a: Step, k: nat)
    requires FifoOk(s) && Can(s, a) && !a.Sweep? && !a.Dispatch?
    ensures RoundsLeft(Do(s, a), k) == RoundsLeft(s, k)
  {
    OtherSettled(s, a);
    SumMove(s.pcs, Settled, a.i, Next(s, a));
    SumMove(s.pcs, SettledSize, a.i, Next(s, a));
  }

  function Rounds(run: seq<Step>): nat {
    if run == [] then 0 else (if run[0].Dispatch? then 1 else 0) + Rounds(run[1..])
  }

  function Fewer(rounds: nat, had: nat): nat {
    if had >= rounds then 0 else rounds - had
  }

  lemma StepRounds(s: State, a: Step, k: nat)
    requires FifoOk(s) && Can(s, a) && k < |s.arrived|
    ensures RoundsLeft(Do(s, a), k) == Fewer(RoundsLeft(s, k), if a.Dispatch? then 1 else 0)
  {
    match a
    case Sweep(_) => SweepRounds(s, a, k);
    case Dispatch(_) => DispatchRounds(s, a, k);
    case _ => OtherRounds(s, a, k);
  }

  lemma StepGrows(s: State, a: Step)
    requires Can(s, a)
    ensures s.arrived <= Do(s, a).arrived && Do(s, a).cap == s.cap
  {}

  /** From s to t so many rounds have gone by, and every read has come that much nearer. */
  ghost predicate CountsDown(s: State, t: State, rounds: nat, k: nat) {
    && FifoOk(t) && s.arrived <= t.arrived && s.cap == t.cap
    && RoundsLeft(t, k) == Fewer(RoundsLeft(s, k), rounds)
  }

  lemma CountsOn(s: State, t: State, u: State, first: nat, rounds: nat, k: nat)
    requires CountsDown(s, t, first, k) && CountsDown(t, u, rounds, k)
    ensures CountsDown(s, u, first + rounds, k)
  {}

  lemma {:induction false} RoundsCount(s: State, run: seq<Step>, k: nat)
    requires FifoOk(s) && Legal(s, run) && k < |s.arrived|
    ensures CountsDown(s, Run(s, run), Rounds(run), k)
    decreases |run|
  {
    if run != [] {
      var a, t := run[0], Do(s, run[0]);
      FifoKept(s, a);
      StepGrows(s, a);
      StepRounds(s, a, k);
      RoundsCount(t, run[1..], k);
      CountsOn(s, t, Run(t, run[1..]), if a.Dispatch? then 1 else 0, Rounds(run[1..]), k);
    }
  }

  lemma InitFifo(cap: nat, threads: nat)
    requires cap >= 1
    ensures FifoOk(Init(1, cap, threads))
  {
    InitOk(1, cap, threads);
    HeldNone(Init(1, cap, threads).pcs, Content, Token);
  }

  lemma {:induction false} FifoRun(s: State, run: seq<Step>)
    requires FifoOk(s) && Legal(s, run)
    ensures FifoOk(Run(s, run)) && Run(s, run).cap == s.cap
    decreases |run|
  {
    if run != [] {
      FifoKept(s, run[0]);
      FifoRun(Do(s, run[0]), run[1..]);
    }
  }

  /** Reads dispatch in arrival order, over every run with one owner. */
  lemma DispatchOrder(cap: nat, threads: nat, run: seq<Step>)
    requires cap >= 1 && Legal(Init(1, cap, threads), run)
    ensures var s := Run(Init(1, cap, threads), run);
      s.dispatched + InHand(s.pcs) + s.overflow + Reverse(s.list) == s.arrived && s.dispatched <= s.arrived
  {
    InitFifo(cap, threads);
    FifoRun(Init(1, cap, threads), run);
  }

  /** The settled batch does not cost the read a round beyond ahead / cap + 1. */
  ghost predicate KeepsBound(s: State, ahead: nat)
    requires s.cap >= 1
  {
    Sum(s.pcs, Settled) == 0 || ahead < Sum(s.pcs, SettledSize) || ahead % s.cap < Sum(s.pcs, SettledSize)
  }

  /** Over `rounds` rounds from s to t the read with `ahead` undispatched reads before it goes out, in its place, once RoundsLeft have passed. */
  ghost predicate WaitsExactly(s: State, t: State, rounds: nat, ahead: nat)
    requires s.cap >= 1 && |s.dispatched| + ahead < |s.arrived|
  {
    var k := |s.dispatched| + ahead;
    (k < |t.dispatched| <==> rounds >= RoundsLeft(s, k)) && (k < |t.dispatched| ==> t.dispatched[k] == s.arrived[k])
  }

  lemma ExactWait(s: State, run: seq<Step>, t: State, rounds: nat, ahead: nat)
    requires FifoOk(s) && s.cap >= 1 && Legal(s, run) && |s.dispatched| + ahead < |s.arrived|
    requires t == Run(s, run) && rounds == Rounds(run)
    ensures WaitsExactly(s, t, rounds, ahead)
  {
    var k := |s.dispatched| + ahead;
    RoundsCount(s, run, k);
    DispatchedThen(t, s.arrived, k);
  }

  /** A state that some run with one owner comes to. */
  ghost predicate Reached(s: State) {
    exists cap: nat, threads: nat, past: seq<Step> ::
      cap >= 1 && Legal(Init(1, cap, threads), past) && s == Run(Init(1, cap, threads), past)
  }

  lemma ReachedFifo(s: State)
    requires Reached(s)
    ensures FifoOk(s) && s.cap >= 1
  {
    var cap: nat, threads: nat, past: seq<Step> :|
      cap >= 1 && Legal(Init(1, cap, threads), past) && s == Run(Init(1, cap, threads), past);
    InitFifo(cap, threads);
    FifoRun(Init(1, cap, threads), past);
  }

  /**
   From any reachable state a read waits exactly RoundsLeft rounds. That is within ahead / cap + 1
   exactly when no batch is settled, or the settled one has the read in it or reaches past the
   last full batch ahead of it.
   */
  lemma BoundedWait(s: State, run: seq<Step>, ahead: nat)
    requires Reached(s) && Legal(s, run) && |s.dispatched| + ahead < |s.arrived|
    ensures s.cap >= 1 && WaitsExactly(s, Run(s, run), Rounds(run), ahead)
    ensures RoundsLeft(s, |s.dispatched| + ahead) <= ahead / s.cap + 1 <==> KeepsBound(s, ahead)
  {
    ReachedFifo(s);
    ExactWait(s, run, Run(s, run), Rounds(run), ahead);
    BoundKept(s, ahead);
  }

  lemma BoundKept(s: State, ahead: nat)
    requires s.cap >= 1
    ensures RoundsLeft(s, |s.dispatched| + ahead) <= ahead / s.cap + 1 <==> KeepsBound(s, ahead)
  {
    BoundMet(|s.dispatched|, Sum(s.pcs, Settled), Sum(s.pcs, SettledSize), s.cap, ahead);
  }

  lemma DispatchedThen(t: State, arrived: seq<Req>, k: nat)
    requires FifoOk(t) && arrived <= t.arrived && k < |arrived|
    ensures RoundsLeft(t, k) == 0 <==> k < |t.dispatched|
    ensures k < |t.dispatched| ==> t.dispatched[k] == arrived[k]
  {
    assert t.dispatched <= t.arrived;
  }

  lemma RunOn(s: State, a: Step, rest: seq<Step>)
    requires Can(s, a) && Legal(Do(s, a), rest)
    ensures Legal(s, [a] + rest) && Run(s, [a] + rest) == Run(Do(s, a), rest)
  {
    assert ([a] + rest)[1..] == rest;
  }

  /** The state once one read has been taken up and swept, and a second one has arrived behind it. */
  function MidRound(): State {
    State(1, 2, [1], [], 1, 1, 0, [Inserted, Swept([0], [])], [0, 1], [])
  }

  /** One read enqueued, its task submitted. */
  function Enqueued(): State {
    State(1, 2, [0], [], 1, 1, 1, [Idle, Idle], [0], [])
  }

  lemma EnqueuedReached(rest: seq<Step>) returns (past: seq<Step>)
    requires Legal(Enqueued(), rest)
    ensures Legal(Init(1, 2, 2), past) && Run(Init(1, 2, 2), past) == Run(Enqueued(), rest)
  {
    var s0 := Init(1, 2, 2);
    assert s0.pcs == [Idle, Idle];
    var s1 := Do(s0, Insert(0, 0));
    var s2 := Do(s1, Count(0));
    var s3 := Do(s2, LoadOwners(0));
    var s4 := Do(s3, TryOwner(0, false));
    assert Do(s4, Submit(0)) == Enqueued();
    RunOn(s4, Submit(0), rest);
    past := [Submit(0)] + rest;
    RunOn(s3, TryOwner(0, false), past);
    past := [TryOwner(0, false)] + past;
    RunOn(s2, LoadOwners(0), past);
    past := [LoadOwners(0)] + past;
    RunOn(s1, Count(0), past);
    past := [Count(0)] + past;
    RunOn(s0, Insert(0, 0), past);
    past := [Insert(0, 0)] + past;
  }

  /** Its owner has taken it up, the list not yet swept. */
  function TakenUp(): State {
    State(1, 2, [0], [], 1, 1, 0, [Idle, Drained([])], [0], [])
  }

  lemma TakenUpReached(rest: seq<Step>) returns (past: seq<Step>)
    requires Legal(TakenUp(), rest)
    ensures Legal(Init(1, 2, 2), past) && Run(Init(1, 2, 2), past) == Run(TakenUp(), rest)
  {
    var s5 := Enqueued();
    var s6 := Do(s5, Take(1));
    assert Do(s6, Drain(1)) == TakenUp();
    RunOn(s6, Drain(1), rest);
    past := [Drain(1)] + rest;
    RunOn(s5, Take(1), past);
    past := EnqueuedReached([Take(1)] + past);
  }

  lemma MidRoundReached() returns (past: seq<Step>)
    ensures Legal(Init(1, 2, 2), past) && Run(Init(1, 2, 2), past) == MidRound()
  {
    var s7 := TakenUp();
    assert Reverse([0]) == [0] && Gathered(s7, []) == [0] && Next(s7, Sweep(1)) == Swept([0], []);
    var s8 := Do(s7, Sweep(1));
    assert s8 == State(1, 2, [], [], 1, 1, 0, [Idle, Swept([0], [])], [0], []);
    assert Do(s8, Insert(0, 1)) == MidRound();
    RunOn(s8, Insert(0, 1), []);
    past := [Insert(0, 1)] + [];
    RunOn(s7, Sweep(1), past);
    past := TakenUpReached([Sweep(1)] + past);
  }

  /** The extra round is real: one read ahead, room for two, one full round, and still not dispatched. */
  lemma ExtraRoundNeeded() returns (past: seq<Step>, run: seq<Step>)
    ensures Legal(Init(1, 2, 2), past) && Legal(Run(Init(1, 2, 2), past), run)
    ensures var s := Run(Init(1, 2, 2), past);
      |s.dispatched| + 1 < |s.arrived| && Rounds(run) >= 1 / 2 + 1 && Run(s, run).dispatched == s.dispatched + [s.arrived[0]]
  {
    past := MidRoundReached();
    var s := MidRound();
    var s1 := Do(s, Spill(1));
    var s2 := Do(s1, Book(1));
    RunOn(s2, Dispatch(1), []);
    RunOn(s1, Book(1), [Dispatch(1)]);
    RunOn(s, Spill(1), [Book(1), Dispatch(1)]);
    assert [Book(1)] + [Dispatch(1)] == [Book(1), Dispatch(1)];
    run := [Spill(1)] + [Book(1), Dispatch(1)];
    assert run == [Spill(1), Book(1), Dispatch(1)];
  }
}
