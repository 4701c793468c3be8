/**
 A connection's in-flight count (server/connection.cc) as interleaved steps of
 any number of sender threads and the loop. The count decides when a closed
 connection may be freed and when a migrating one may leave its loop, so it must
 only reach zero on the loop once either is under way. A sender that finds the
 send lock taken leaves its responses to the holder and keeps an extra count.
 A try-lock may fail, and a compare-and-swap may fail although the value
 matches.
 */
module InFlight {
  import opened Totals

  datatype Place =
    | Holding                                           // between calls; idle when nothing is held
    | Extra                                             // took the extra count, responses not yet left to others
    | Releasing                                         // about to drop k counts
    | Locked                                            // has the lock, saw neither flag, k still to drop
    | Unlocking                                         // dropped them, lock still held
    | Slow                                              // k still to drop, count last seen as v

  /** n unreleased requests, extra references of its own; k and v mean something while counts are dropped. */
  datatype Sender = Sender(at: Place, n: nat, extra: nat, k: nat, v: int)

  /** A callback posted to the loop that releases k counts. */
  datatype Release = Release(k: nat)

  datatype Tally = Tally(
    count: int,
    engine: nat,                                        // requests no sender has picked up
    left: nat,                                          // requests left to the lock holder
    senders: seq<Sender>,
    posted: seq<Release>,
    locked: bool)

  datatype Loop =
    | Free
    | Drained                                           // took the count to zero, not yet acted on it
    | Closing                                           // destroy: senders not yet shut out
    | Closed                                            // destroy: count not yet read
    | Migrating                                         // migrateTo: senders not yet told
    | Attaching                                         // on the new loop: senders not yet told

  datatype Life = Life(
    loop: Loop,
    closed: bool,                                       // sendClosed_, set under the lock
    watch: bool,                                        // drainWatch_, set under the lock
    closing: bool,
    migrating: bool,
    check: bool,                                        // migration check scheduled
    waiting: bool,                                      // check waits for output to finish
    detached: bool,
    deletes: nat,                                       // deletions posted
    freed: nat)                                         // deletions done

  datatype State = State(t: Tally, l: Life)

  datatype Send =
    | PickUp(i: nat, k: nat)
    | AddExtra(i: nat)
    | LeaveToOthers(i: nat)
    | TakeLeft(i: nat)
    | PostBatch(i: nat, k: nat)
    | ReleaseSome(i: nat, k: nat)
    | ReleaseExtra(i: nat)
    | TryFast(i: nat)
    | FastSub(i: nat)
    | Unlock(i: nat)
    | GoSlow(i: nat)
    | Swap(i: nat, weak: bool)
    | PostRest(i: nat)
    | SlowDone(i: nat)

  datatype Act =
    | Dispatch
    | Answer
    | RunPosted(j: nat)
    | OnDrained
    | Destroy
    | ShutOut
    | ReadCount
    | RunDelete
    | MigrateTo
    | SetWatch
    | Check(quiet: bool)
    | OutputDone
    | Attach
    | ClearWatch

  datatype Step = OffLoop(send: Send) | OnLoop(act: Act)

  /** Where a run starts: an open connection with nothing outstanding. */
  ghost predicate Initial(s: State) {
    var t, l := s.t, s.l;
    && t.count == 0 && t.engine == 0 && t.left == 0 && t.posted == [] && !t.locked
    && (forall i | 0 <= i < |t.senders| :: IsIdle(t.senders[i]))
    && l.loop == Free && !l.closed && !l.watch && !l.closing && !l.migrating
    && !l.check && !l.waiting && !l.detached && l.deletes == 0 && l.freed == 0
  }

  // ---- Senders ----

  predicate IsIdle(pc: Sender) {
    pc.at.Holding? && pc.n == 0 && pc.extra == 0
  }

  predicate CanSend(t: Tally, a: Send) {
    && a.i < |t.senders|
    && var pc := t.senders[a.i];
      match a
      case PickUp(_, k) => IsIdle(pc) && 1 <= k <= t.engine
      case AddExtra(_) => pc.at.Holding? && pc.n > 0 && pc.extra == 0
      case LeaveToOthers(_) => pc.at.Extra?
      case TakeLeft(_) => pc.at.Holding? && t.left > 0
      case PostBatch(_, k) => pc.at.Holding? && 1 <= k <= pc.n
      case ReleaseSome(_, k) => pc.at.Holding? && 1 <= k <= pc.n
      case ReleaseExtra(_) => pc.at.Holding? && pc.n == 0 && pc.extra == 1
      case TryFast(_) => pc.at.Releasing? && !t.locked
      case FastSub(_) => pc.at.Locked?
      case Unlock(_) => pc.at.Unlocking?
      case GoSlow(_) => pc.at.Releasing?
      case Swap(_, _) => pc.at.Slow? && pc.k > 0 && pc.v > 1
      case PostRest(_) => pc.at.Slow? && pc.k > 0 && pc.v <= 1
      case SlowDone(_) => pc.at.Slow? && pc.k == 0
  }

  /** How many counts a sender may drop without taking the count it saw to zero. */
  function Droppable(k: nat, v: int): nat
    requires v > 1
  {
    if k <= v - 1 then k else v - 1
  }

  /** Counts the swap drops: none if it fails. */
  function Swapped(t: Tally, a: Send): nat
    requires a.Swap? && CanSend(t, a)
  {
    var pc := t.senders[a.i];
    if t.count == pc.v && !a.weak then Droppable(pc.k, pc.v) else 0
  }

  function NextPc(t: Tally, a: Send): Sender
    requires CanSend(t, a)
  {
    var pc := t.senders[a.i];
    match a
    case PickUp(_, k) => pc.(n := k)
    case AddExtra(_) => pc.(at := Extra, extra := pc.extra + 1)
    case LeaveToOthers(_) => pc.(at := Holding, n := 0)
    case TakeLeft(_) => pc.(n := pc.n + t.left)
    case PostBatch(_, k) => pc.(n := pc.n - k)
    case ReleaseSome(_, k) => pc.(at := Releasing, k := k, n := pc.n - k)
    case ReleaseExtra(_) => pc.(at := Releasing, k := pc.extra, extra := 0)
    case TryFast(_) => pc.(at := Locked)
    case FastSub(_) => pc.(at := Unlocking)
    case Unlock(_) => pc.(at := Holding)
    case GoSlow(_) => pc.(at := Slow, v := t.count)
    case Swap(_, _) => var d := Swapped(t, a); pc.(k := pc.k - d, v := t.count - d)
    case PostRest(_) => pc.(at := Holding)
    case SlowDone(_) => pc.(at := Holding)
  }

  function DoSend(t: Tally, a: Send): Tally
    requires CanSend(t, a)
  {
    var pc := t.senders[a.i];
    var u := t.(senders := t.senders[a.i := NextPc(t, a)]);
    match a
    case PickUp(_, k) => u.(engine := t.engine - k)
    case AddExtra(_) => u.(count := t.count + 1)
    case LeaveToOthers(_) => u.(left := t.left + pc.n)
    case TakeLeft(_) => u.(left := 0)
    case PostBatch(_, k) => u.(posted := t.posted + [Release(k)])
    case TryFast(_) => u.(locked := true)
    case FastSub(_) => u.(count := t.count - pc.k)
    case Unlock(_) => u.(locked := false)
    case Swap(_, _) => u.(count := t.count - Swapped(t, a))
    case PostRest(_) => u.(posted := t.posted + [Release(pc.k)])
    case _ => u
  }

  // ---- The loop ----

  predicate CanAct(s: State, b: Act) {
    var t, l := s.t, s.l;
    && l.freed == 0
    && (l.detached ==> b == Attach)
    && match b
      case Dispatch => l.loop == Free && !l.closing && !l.migrating
      case Answer => l.loop == Free && t.engine > 0
      case RunPosted(j) => l.loop == Free && j < |t.posted|
      case OnDrained => l.loop == Drained
      case Destroy => l.loop == Free && !l.closing
      case ShutOut => l.loop == Closing && !t.locked
      case ReadCount => l.loop == Closed
      case RunDelete => l.loop == Free && l.deletes > 0
      case MigrateTo => l.loop == Free && !l.closing && !l.migrating
      case SetWatch => l.loop == Migrating && !t.locked
      case Check(_) => l.loop == Free && l.check && l.migrating
      case OutputDone => l.loop == Free && l.waiting
      case Attach => l.detached
      case ClearWatch => l.loop == Attaching && !t.locked
  }

  function ActTally(s: State, b: Act): Tally
    requires CanAct(s, b)
  {
    var t := s.t;
    match b
    case Dispatch => t.(count := t.count + 1, engine := t.engine + 1)
    case Answer => t.(count := t.count - 1, engine := t.engine - 1)
    case RunPosted(j) => t.(count := t.count - t.posted[j].k, posted := t.posted[..j] + t.posted[j + 1..])
    case _ => t
  }

  function ActLife(s: State, b: Act): Life
    requires CanAct(s, b)
  {
    var l, count := s.l, ActTally(s, b).count;
    match b
    case Dispatch => l
    case Answer => l.(loop := if count == 0 then Drained else Free)
    case RunPosted(_) => l.(loop := if count == 0 then Drained else Free)
    case OnDrained =>
      if l.closing then l.(loop := Free, freed := l.freed + 1) else l.(loop := Free, check := l.check || l.migrating)
    case Destroy => l.(loop := Closing, closing := true, migrating := false, check := false, waiting := false)
    case ShutOut => l.(loop := Closed, closed := true)
    case ReadCount => l.(loop := Free, deletes := l.deletes + One(count == 0))
    case RunDelete => l.(deletes := l.deletes - 1, freed := l.freed + 1)
    case MigrateTo => l.(loop := Migrating, migrating := true)
    case SetWatch => l.(loop := Free, watch := true, check := true)
    case Check(quiet) => l.(check := false, waiting := count == 0 && !quiet, detached := count == 0 && quiet)
    case OutputDone => l.(waiting := false, check := true)
    case Attach => l.(detached := false, migrating := false, loop := Attaching)
    case ClearWatch => l.(loop := Free, watch := false)
  }

  predicate Open(l: Life) { !l.closed && !l.watch }

  /** The fast release is for a connection neither closed nor watched, seen so under the lock. */
  predicate MaySend(l: Life, a: Send) { a.TryFast? ==> Open(l) }

  predicate Can(s: State, a: Step) {
    match a
    case OffLoop(send) => CanSend(s.t, send) && MaySend(s.l, send)
    case OnLoop(act) => CanAct(s, act)
  }

  function Do(s: State, a: Step): State
    requires Can(s, a)
  {
    match a
    case OffLoop(send) => State(DoSend(s.t, send), s.l)
    case OnLoop(act) => State(ActTally(s, act), ActLife(s, act))
  }

  ghost predicate Legal(s: State, run: seq<Step>)
    decreases |run|
  {
    run == [] || (Can(s, run[0]) && Legal(Do(s, run[0]), run[1..]))
  }

  function Run(s: State, run: seq<Step>): State
    requires Legal(s, run)
    decreases |run|
  {
    if run == [] then s else Run(Do(s, run[0]), run[1..])
  }

  // ---- The count and the lock ----

  /** The counts a sender is in the middle of dropping. */
  function Dropping(pc: Sender): nat {
    if pc.at.Releasing? || pc.at.Locked? || pc.at.Slow? then pc.k else 0
  }

  function Counts(pc: Sender): nat {
    pc.n + pc.extra + Dropping(pc)
  }

  function HasLock(pc: Sender): nat {
    if pc.at.Locked? || pc.at.Unlocking? then 1 else 0
  }

  function Size(r: Release): nat { r.k }

  function One(b: bool): nat {
    if b then 1 else 0
  }

  ghost predicate CountOk(t: Tally) {
    && t.count == t.engine + t.left + Sum(t.senders, Counts) + Sum(t.posted, Size)
    && forall j | 0 <= j < |t.posted| :: t.posted[j].k > 0
  }

  ghost predicate LockOk(s: State) {
    Sum(s.t.senders, HasLock) == One(s.t.locked) && (s.t.locked ==> Open(s.l))
  }

  lemma PostedSnoc(rs: seq<Release>, r: Release)
    ensures Sum(rs + [r], Size) == Sum(rs, Size) + r.k
  {
    assert (rs + [r])[..|rs|] == rs;
  }

  /** What one sender gives up or takes on shows in the count, the engine or a list. */
  ghost predicate Balanced(t: Tally, u: Tally, pc: Sender, next: Sender) {
    u.count - t.count == (u.engine - t.engine) + (u.left - t.left) + (Counts(next) - Counts(pc))
                         + (Sum(u.posted, Size) - Sum(t.posted, Size))
  }

  lemma PostBalance(t: Tally, a: Send)
    requires CanSend(t, a) && (a.PostBatch? || a.PostRest?)
    ensures Balanced(t, DoSend(t, a), t.senders[a.i], NextPc(t, a))
  {
    PostedSnoc(t.posted, Release(if a.PostBatch? then a.k else t.senders[a.i].k));
  }

  lemma SwapBalance(t: Tally, a: Send)
    requires CanSend(t, a) && (a.Swap? || a.FastSub? || a.AddExtra?)
    ensures Balanced(t, DoSend(t, a), t.senders[a.i], NextPc(t, a))
  {}

  lemma HandBalance(t: Tally, a: Send)
    requires CanSend(t, a) && (a.PickUp? || a.LeaveToOthers? || a.TakeLeft?)
    ensures Balanced(t, DoSend(t, a), t.senders[a.i], NextPc(t, a))
  {}

  lemma StillBalance(t: Tally, a: Send)
    requires CanSend(t, a)
    requires a.ReleaseSome? || a.ReleaseExtra? || a.TryFast? || a.Unlock? || a.GoSlow? || a.SlowDone?
    ensures Balanced(t, DoSend(t, a), t.senders[a.i], NextPc(t, a))
  {}

  lemma SendBalance(t: Tally, a: Send)
    requires CanSend(t, a)
    ensures Balanced(t, DoSend(t, a), t.senders[a.i], NextPc(t, a))
  {
    if a.PostBatch? || a.PostRest? {
      PostBalance(t, a);
    } else if a.Swap? || a.FastSub? || a.AddExtra? {
      SwapBalance(t, a);
    } else if a.PickUp? || a.LeaveToOthers? || a.TakeLeft? {
      HandBalance(t, a);
    } else {
      StillBalance(t, a);
    }
  }

  lemma SendCount(t: Tally, a: Send)
    requires CountOk(t) && CanSend(t, a)
    ensures CountOk(DoSend(t, a))
  {
    SumMove(t.senders, Counts, a.i, NextPc(t, a));
    SendBalance(t, a);
  }

  lemma SendLock(s: State, a: Send)
    requires LockOk(s) && CanSend(s.t, a) && MaySend(s.l, a)
    ensures LockOk(State(DoSend(s.t, a), s.l))
  {
    SumMove(s.t.senders, HasLock, a.i, NextPc(s.t, a));
  }

  lemma ActCount(s: State, b: Act)
    requires CountOk(s.t) && CanAct(s, b)
    ensures CountOk(ActTally(s, b))
  {
    if b.RunPosted? { SumRemove(s.t.posted, b.j, Size); }
  }

  /** A sender's counts are in the total. */
  lemma SenderCounted(t: Tally, i: nat)
    requires CountOk(t) && i < |t.senders|
    ensures Counts(t.senders[i]) <= t.count
  {
    SumMove(t.senders, Counts, i, t.senders[i]);
  }

  /** With the lock held by a sender, neither flag is set. */
  lemma LockerSeesOpen(s: State, i: nat)
    requires LockOk(s) && i < |s.t.senders| && s.t.senders[i].at.Locked?
    ensures Open(s.l)
  {
    SumMove(s.t.senders, HasLock, i, s.t.senders[i]);
  }

  lemma SwapLeavesSome(t: Tally, a: Send)
    requires a.Swap? && CanSend(t, a) && CountOk(t)
    ensures t.count > 0 && DoSend(t, a).count > 0
  {
    SenderCounted(t, a.i);
  }

  lemma AddExtraLeavesSome(t: Tally, a: Send)
    requires a.AddExtra? && CanSend(t, a) && CountOk(t)
    ensures t.count > 0 && DoSend(t, a).count > 0
  {
    SenderCounted(t, a.i);
  }

  lemma FastSubAtZero(t: Tally, a: Send)
    requires a.FastSub? && CanSend(t, a) && CountOk(t)
    ensures t.count == 0 ==> DoSend(t, a).count == 0
  {
    SenderCounted(t, a.i);
  }

  /** Once closed or watched, no step off the loop takes the count to zero; and zero stays zero anyhow. */
  lemma OffLoopStep(s: State, a: Send)
    requires CountOk(s.t) && LockOk(s) && CanSend(s.t, a) && MaySend(s.l, a)
    ensures s.t.count == 0 ==> DoSend(s.t, a).count == 0
    ensures !Open(s.l) && s.t.count != 0 ==> DoSend(s.t, a).count != 0
  {
    match a
    case FastSub(i) => LockerSeesOpen(s, i); FastSubAtZero(s.t, a);
    case Swap(_, _) => SwapLeavesSome(s.t, a);
    case AddExtra(_) => AddExtraLeavesSome(s.t, a);
    case _ =>
  }

  // ---- The life of the connection ----

  function Ending(l: Life): nat {
    l.freed + l.deletes + One(l.loop == Drained && l.closing)
  }

  ghost predicate LifeOk(l: Life, count: int) {
    && (l.closed ==> l.closing)
    && (l.closing && !l.closed ==> l.loop == Closing)
    && (l.loop == Closing ==> l.closing && !l.closed)
    && (l.loop == Closed ==> l.closing && l.closed)
    && (l.loop == Drained ==> count == 0)
    && Ending(l) <= 1
    && (Ending(l) == 1 ==> count == 0 && l.closed && l.loop != Closed)
    && (l.closed && count == 0 && l.loop != Closed ==> Ending(l) == 1)
  }

  ghost predicate MoveOk(l: Life, count: int) {
    && (l.migrating ==> !l.closing && (l.loop == Migrating || l.watch))
    && (l.loop == Migrating ==> l.migrating) && (l.loop == Attaching ==> !l.closing && !l.migrating)
    && (l.detached ==> count == 0 && l.migrating && l.watch && l.loop == Free && !l.waiting)
    && (l.migrating && l.watch && l.loop == Free && !l.detached && count == 0 ==> l.check || l.waiting)
    && (l.waiting ==> l.migrating)
  }

  ghost predicate Ok(s: State) {
    CountOk(s.t) && LockOk(s) && LifeOk(s.l, s.t.count) && MoveOk(s.l, s.t.count)
  }

  lemma SendKeeps(s: State, a: Send)
    requires Ok(s) && CanSend(s.t, a) && MaySend(s.l, a)
    ensures Ok(State(DoSend(s.t, a), s.l))
  {
    SendCount(s.t, a);
    SendLock(s, a);
    OffLoopStep(s, a);
  }

  lemma ActKeepsLife(s: State, b: Act)
    requires Ok(s) && CanAct(s, b)
    ensures LifeOk(ActLife(s, b), ActTally(s, b).count)
  {
    ActCount(s, b);
  }

  lemma ActKeepsMove(s: State, b: Act)
    requires Ok(s) && CanAct(s, b)
    ensures MoveOk(ActLife(s, b), ActTally(s, b).count)
  {
    ActCount(s, b);
  }

  lemma ActKeepsLock(s: State, b: Act)
    requires Ok(s) && CanAct(s, b)
    ensures LockOk(State(ActTally(s, b), ActLife(s, b)))
  {}

  lemma {:induction false} RunKeeps(s: State, run: seq<Step>)
    requires Ok(s) && Legal(s, run)
    ensures Ok(Run(s, run))
    decreases |run|
  {
    if run != [] {
      match run[0] {
        case OffLoop(send) => SendKeeps(s, send);
        case OnLoop(act) =>
          ActCount(s, act);
          ActKeepsLife(s, act);
          ActKeepsMove(s, act);
          ActKeepsLock(s, act);
      }
      RunKeeps(Do(s, run[0]), run[1..]);
    }
  }

  lemma AllIdle(pcs: seq<Sender>)
    requires forall i | 0 <= i < |pcs| :: IsIdle(pcs[i])
    ensures Sum(pcs, Counts) == 0 && Sum(pcs, HasLock) == 0
  {
    SumZero(pcs, Counts);
    SumZero(pcs, HasLock);
  }

  lemma InitOk(s: State)
    requires Initial(s)
    ensures Ok(s)
  {
    AllIdle(s.t.senders);
  }

  // ---- Over every run ----

  /** Nothing of the connection's is with the engine, left to a sender, with a sender or posted. */
  ghost predicate NothingOut(t: Tally) {
    && t.engine == 0 && t.left == 0 && t.posted == []
    && forall i | 0 <= i < |t.senders| :: Counts(t.senders[i]) == 0
  }

  lemma ZeroMeansNothing(t: Tally)
    requires CountOk(t) && t.count == 0
    ensures NothingOut(t)
  {
    NonePosted(t.posted);
    forall i | 0 <= i < |t.senders| ensures Counts(t.senders[i]) == 0 {
      SumMove(t.senders, Counts, i, t.senders[i]);
    }
  }

  lemma NonePosted(rs: seq<Release>)
    requires Sum(rs, Size) == 0 && forall j | 0 <= j < |rs| :: rs[j].k > 0
    ensures rs == []
  {}

  /** The count is the unreleased requests, extra references and posted releases. */
  lemma CountExact(s0: State, run: seq<Step>)
    requires Initial(s0) && Legal(s0, run)
    ensures var t := Run(s0, run).t;
      t.count == t.engine + t.left + Sum(t.senders, Counts) + Sum(t.posted, Size)
  {
    InitOk(s0);
    RunKeeps(s0, run);
  }

  /** Once closed or migrating, no step off the loop takes the count to zero. */
  lemma NeverZeroOffLoop(s0: State, run: seq<Step>, a: Step)
    requires Initial(s0) && Legal(s0, run)
    ensures var s := Run(s0, run);
      a.OffLoop? && Can(s, a) && !Open(s.l) && s.t.count != 0 ==> Do(s, a).t.count != 0
  {
    InitOk(s0);
    RunKeeps(s0, run);
    var s := Run(s0, run);
    if a.OffLoop? && Can(s, a) && !Open(s.l) { OffLoopStep(s, a.send); }
  }

  /**
   The connection is freed at most once, and only when nothing is outstanding and no sender is
   still inside it; a closed connection with nothing outstanding has been freed or is about to be.
   */
  lemma FreedOnce(s0: State, run: seq<Step>)
    requires Initial(s0) && Legal(s0, run)
    ensures var s := Run(s0, run);
      && s.l.freed <= 1
      && (s.l.freed == 1 ==> NothingOut(s.t) && s.l.deletes == 0 && Sum(s.t.senders, HasLock) == 0)
      && (s.l.closed && s.l.loop == Free && s.t.count == 0 ==> s.l.freed + s.l.deletes == 1)
  {
    InitOk(s0);
    RunKeeps(s0, run);
    var s := Run(s0, run);
    if s.l.freed == 1 {
      ZeroMeansNothing(s.t);
    }
  }

  /**
   A connection between two loops has nothing outstanding; one that waits to move with nothing
   outstanding has its check scheduled or waits for output, so no release off the loop strands it.
   */
  lemma MovesClean(s0: State, run: seq<Step>)
    requires Initial(s0) && Legal(s0, run)
    ensures var s := Run(s0, run);
      && (s.l.detached ==> NothingOut(s.t) && !s.l.closing)
      && (s.l.migrating && s.l.loop == Free && !s.l.detached && s.t.count == 0 ==> s.l.check || s.l.waiting)
  {
    InitOk(s0);
    RunKeeps(s0, run);
    var s := Run(s0, run);
    if s.l.detached {
      ZeroMeansNothing(s.t);
    }
  }
}
