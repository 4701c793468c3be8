/**
 Acknowledging durable writes (server/engine.cc, server/iothread.h), seen from
 one IO loop, as interleaved steps of any number of writers, the notifier thread
 and the loop. Writers park committed requests on the loop and bump a
 generation; the notifier, whenever generation or durable watermark moved, wakes
 the loop unless a wake is already queued; the loop answers what the watermark
 covers. Batches answered on other loops only bump the generation.
 */
module DurableAcks {
  import opened Totals

  datatype Req = Req(id: nat, lsn: nat)

  datatype WriterPc =
    | Free
    | Pushed(n: nat)                    // chain on the loop's list, not yet counted
    | Counted                           // counted, registration not yet looked at
    | Registering                       // loop looked unregistered
    | Parked                            // generation not yet bumped

  datatype NotifierPc =
    | Waiting
    | HasGen(g: nat)                    // watermark not yet read
    | Waking(g: nat, d: nat)            // saw a change, lock not yet taken
    | AtCount(g: nat, d: nat)           // holding the lock, parked count not yet read
    | AtFlag(g: nat, d: nat)            // count was positive, flag not yet set
    | Posting(g: nat, d: nat)           // set the flag, drain not yet posted
    | Woken(g: nat, d: nat)             // what it saw not yet recorded

  datatype LoopPc =
    | Away
    | Starting                          // drain running, flag not yet cleared
    | Cleared                           // list not yet taken
    | Taken                             // list taken over, watermark not yet read
    | Answered(done: nat)               // count not yet reduced

  datatype State = State(
    writers: seq<WriterPc>,
    notifier: NotifierPc,
    loop: LoopPc,
    head: seq<Req>,                     // parked by writers
    local: seq<Req>,                    // taken over by the loop
    count: int,
    wakeQueued: bool,
    registered: bool,
    mail: nat,                          // drains posted to the loop
    gen: nat,
    durable: nat,
    lastGen: nat,
    lastDurable: nat,
    parked: seq<Req>,                   // every request ever parked
    answered: seq<Req>)                 // every answer sent

  datatype Step =
    | Push(i: nat, chain: seq<Req>)
    | AddCount(i: nat)
    | LookRegistered(i: nat)
    | Register(i: nat)
    | BumpGen(i: nat)
    | OtherBatch
    | Advance(d: nat)
    | LoadGen
    | LoadDurable
    | LockWake
    | LoadCount
    | SetFlag
    | Post
    | Finish
    | TakeMail
    | ClearFlag
    | TakeHead
    | Answer
    | SubCount

  function Init(writers: nat, durable: nat): State {
    State(Repeat(writers, Free), Waiting, Away, [], [], 0, false, false, 0, 0, durable, 0, 0, [], [])
  }

  ghost predicate Distinct(rs: seq<Req>) {
    forall r | r in rs :: multiset(rs)[r] == 1
  }

  /** The notifier holds the loops' lock while it walks them. */
  predicate HoldsLock(n: NotifierPc) {
    n.AtCount? || n.AtFlag? || n.Posting?
  }

  ghost predicate Can(s: State, a: Step) {
    match a
    case Push(i, chain) => i < |s.writers| && s.writers[i] == Free && chain != [] && Distinct(s.parked + chain)
    case AddCount(i) => i < |s.writers| && s.writers[i].Pushed?
    case LookRegistered(i) => i < |s.writers| && s.writers[i] == Counted
    case Register(i) => i < |s.writers| && s.writers[i] == Registering && !HoldsLock(s.notifier)
    case BumpGen(i) => i < |s.writers| && s.writers[i] == Parked
    case OtherBatch => true
    case Advance(d) => d >= s.durable
    case LoadGen => s.notifier == Waiting
    case LoadDurable => s.notifier.HasGen?
    case LockWake => s.notifier.Waking?
    case LoadCount => s.notifier.AtCount?
    case SetFlag => s.notifier.AtFlag?
    case Post => s.notifier.Posting?
    case Finish => s.notifier.Woken?
    case TakeMail => s.loop == Away && s.mail > 0
    case ClearFlag => s.loop == Starting
    case TakeHead => s.loop == Cleared
    case Answer => s.loop == Taken
    case SubCount => s.loop.Answered?
  }

  function At(s: State, i: nat, pc: WriterPc): State
    requires i < |s.writers|
  {
    s.(writers := s.writers[i := pc])
  }

  function Covered(rs: seq<Req>, d: nat): seq<Req> {
    if rs == [] then []
    else Covered(rs[..|rs| - 1], d) + if rs[|rs| - 1].lsn <= d then [rs[|rs| - 1]] else []
  }

  function Uncovered(rs: seq<Req>, d: nat): seq<Req> {
    if rs == [] then []
    else Uncovered(rs[..|rs| - 1], d) + if rs[|rs| - 1].lsn <= d then [] else [rs[|rs| - 1]]
  }

  function Do(s: State, a: Step): State
    requires Can(s, a)
  {
    var n := s.notifier;
    match a
    case Push(i, chain) => At(s, i, Pushed(|chain|)).(head := chain + s.head, parked := s.parked + chain)
    case AddCount(i) => At(s, i, Counted).(count := s.count + s.writers[i].n)
    case LookRegistered(i) => At(s, i, if s.registered then Parked else Registering)
    case Register(i) => At(s, i, Parked).(registered := true)
    case BumpGen(i) => At(s, i, Free).(gen := s.gen + 1)
    case OtherBatch => s.(gen := s.gen + 1)
    case Advance(d) => s.(durable := d)
    case LoadGen => s.(notifier := HasGen(s.gen))
    case LoadDurable =>
      s.(notifier := if s.durable != s.lastDurable || n.g != s.lastGen then Waking(n.g, s.durable) else Waiting)
    case LockWake => s.(notifier := if s.registered then AtCount(n.g, n.d) else Woken(n.g, n.d))
    case LoadCount => s.(notifier := if s.count > 0 then AtFlag(n.g, n.d) else Woken(n.g, n.d))
    case SetFlag => s.(notifier := if s.wakeQueued then Woken(n.g, n.d) else Posting(n.g, n.d), wakeQueued := true)
    case Post => s.(notifier := Woken(n.g, n.d), mail := s.mail + 1)
    case Finish => s.(notifier := Waiting, lastGen := n.g, lastDurable := n.d)
    case TakeMail => s.(loop := Starting, mail := s.mail - 1)
    case ClearFlag => s.(loop := Cleared, wakeQueued := false)
    case TakeHead => s.(loop := if s.local + s.head == [] then Away else Taken, local := s.local + s.head, head := [])
    case Answer =>
      var done := Covered(s.local, s.durable);
      s.(loop := if done == [] then Away else Answered(|done|),
         answered := s.answered + done, local := Uncovered(s.local, s.durable))
    case SubCount => s.(loop := Away, count := s.count - s.loop.done)
  }

  ghost predicate Legal(s: State, run: seq<Step>)
    decreases |run|
  {
    run == [] || (Can(s, run[0]) && Legal(Do(s, run[0]), run[1..]))
  }

  function Run(s: State, run: seq<Step>): State
    requires Legal(s, run)
    decreases |run|
  {
    if run == [] then s else Run(Do(s, run[0]), run[1..])
  }

  // ---- Answered once, and only when covered ----

  lemma {:induction false} Splits(rs: seq<Req>, d: nat)
    ensures |Covered(rs, d)| + |Uncovered(rs, d)| == |rs|
    ensures multiset(Covered(rs, d)) + multiset(Uncovered(rs, d)) == multiset(rs)
    ensures forall r | r in Covered(rs, d) :: r.lsn <= d
    ensures forall r | r in Uncovered(rs, d) :: r.lsn > d
  {
    if rs != [] {
      var n := |rs| - 1;
      Splits(rs[..n], d);
      assert rs == rs[..n] + [rs[n]];
    }
  }

  ghost predicate AnswersOk(s: State) {
    && multiset(s.parked) == multiset(s.head) + multiset(s.local) + multiset(s.answered)
    && Distinct(s.parked)
    && forall r | r in s.answered :: r.lsn <= s.durable
  }

  lemma AnswerStep(s: State, a: Step)
    requires AnswersOk(s) && Can(s, a) && a == Answer
    ensures AnswersOk(Do(s, a))
  {
    Splits(s.local, s.durable);
    var t := Do(s, a);
    assert multiset(t.answered) == multiset(s.answered) + multiset(Covered(s.local, s.durable));
  }

  lemma AnswersKept(s: State, a: Step)
    requires AnswersOk(s) && Can(s, a)
    ensures AnswersOk(Do(s, a))
  {
    var t := Do(s, a);
    match a
    case Push(i, chain) =>
      assert multiset(t.parked) == multiset(s.parked) + multiset(chain);
      assert multiset(t.head) == multiset(chain) + multiset(s.head);
    case TakeHead =>
      assert multiset(t.local) == multiset(s.local) + multiset(s.head);
    case Answer => AnswerStep(s, a);
    case _ =>
  }

  // ---- Counts, the wake flag and registration ----

  function Uncounted(pc: WriterPc): nat {
    if pc.Pushed? then pc.n else 0
  }

  function Unregistered(pc: WriterPc): nat {
    if pc.Pushed? || pc == Counted || pc == Registering then 1 else 0
  }

  function Busy(pc: WriterPc): nat {
    if pc == Free then 0 else 1
  }

  function One(b: bool): nat {
    if b then 1 else 0
  }

  ghost predicate CountOk(s: State) {
    s.count + Sum(s.writers, Uncounted) == |s.head| + |s.local| + if s.loop.Answered? then s.loop.done else 0
  }

  /** The flag is set exactly while one drain is being posted, is in the mail or has just started. */
  ghost predicate FlagOk(s: State) {
    One(s.wakeQueued) == One(s.notifier.Posting?) + s.mail + One(s.loop == Starting)
  }

  ghost predicate RegisteredOk(s: State) {
    (s.head != [] || s.local != []) && !s.registered ==> Sum(s.writers, Unregistered) > 0
  }

  ghost predicate BooksOk(s: State) {
    CountOk(s) && FlagOk(s) && RegisteredOk(s)
  }

  predicate IsWriter(a: Step) {
    a.Push? || a.AddCount? || a.LookRegistered? || a.Register? || a.BumpGen?
  }

  lemma WriterBooks(s: State, a: Step)
    requires BooksOk(s) && Can(s, a) && IsWriter(a)
    ensures BooksOk(Do(s, a))
  {
    var pc := Do(s, a).writers[a.i];
    SumMove(s.writers, Uncounted, a.i, pc);
    SumMove(s.writers, Unregistered, a.i, pc);
  }

  lemma OtherBooks(s: State, a: Step)
    requires BooksOk(s) && Can(s, a) && !IsWriter(a)
    ensures BooksOk(Do(s, a))
  {
    if a == Answer {
      Splits(s.local, s.durable);
    }
  }

  // ---- No covered request is forgotten ----

  function SeenGen(s: State): nat {
    if s.notifier == Waiting || s.notifier.HasGen? then s.lastGen else s.notifier.g
  }

  function SeenDurable(s: State): nat {
    if s.notifier == Waiting || s.notifier.HasGen? then s.lastDurable else s.notifier.d
  }

  ghost predicate SeenOk(s: State) {
    && s.lastGen <= SeenGen(s) <= s.gen
    && SeenDurable(s) <= s.durable
    && (s.notifier.HasGen? ==> s.lastGen <= s.notifier.g <= s.gen)
  }

  /** Someone is still going to drain the loop's list, whatever it holds. */
  ghost predicate Coming(s: State) {
    || Sum(s.writers, Busy) > 0
    || SeenGen(s) != s.gen || SeenDurable(s) != s.durable
    || s.notifier.Waking? || s.notifier.AtCount? || s.notifier.AtFlag? || s.notifier.Posting?
    || s.mail > 0
    || s.loop == Starting || s.loop == Cleared
  }

  ghost predicate AnyCovered(rs: seq<Req>, d: nat) {
    exists i :: 0 <= i < |rs| && rs[i].lsn <= d
  }

  ghost predicate WakeOk(s: State) {
    && SeenOk(s)
    && (AnyCovered(s.head, s.durable) ==> Coming(s))
    && (AnyCovered(s.local, s.durable) ==> Coming(s) || s.loop == Taken)
  }

  lemma WriterComing(s: State, a: Step)
    requires SeenOk(s) && Can(s, a) && IsWriter(a)
    ensures Coming(Do(s, a)) && SeenOk(Do(s, a))
  {
    SumMove(s.writers, Busy, a.i, Do(s, a).writers[a.i]);
  }

  /** A parked request makes the notifier's look at the loop succeed, unless a writer is on its way. */
  lemma LookSucceeds(s: State)
    requires BooksOk(s) && (s.head != [] || s.local != []) && Sum(s.writers, Busy) == 0
    ensures s.registered && s.count > 0
  {
    forall i | 0 <= i < |s.writers| ensures Uncounted(s.writers[i]) == 0 && Unregistered(s.writers[i]) == 0 {
      SumMove(s.writers, Busy, i, Free);
    }
    SumZero(s.writers, Uncounted);
    SumZero(s.writers, Unregistered);
  }

  lemma NotifierWake(s: State, a: Step)
    requires BooksOk(s) && WakeOk(s) && Can(s, a)
    requires a == LoadGen || a == LoadDurable || a == LockWake || a == LoadCount || a == SetFlag || a == Post || a == Finish
    ensures WakeOk(Do(s, a))
  {
    if (s.head != [] || s.local != []) && Sum(s.writers, Busy) == 0 {
      LookSucceeds(s);
    }
  }

  lemma AnswerWake(s: State)
    requires WakeOk(s) && s.loop == Taken
    ensures WakeOk(Do(s, Answer))
  {
    Splits(s.local, s.durable);
  }

  lemma TakeHeadWake(s: State)
    requires WakeOk(s) && s.loop == Cleared
    ensures WakeOk(Do(s, TakeHead))
  {}

  lemma LoopWake(s: State, a: Step)
    requires WakeOk(s) && Can(s, a) && (a == TakeMail || a == ClearFlag || a == SubCount)
    ensures WakeOk(Do(s, a))
  {}

  lemma WakeKept(s: State, a: Step)
    requires BooksOk(s) && WakeOk(s) && Can(s, a)
    ensures WakeOk(Do(s, a))
  {
    if IsWriter(a) {
      WriterComing(s, a);
    } else {
      match a
      case LoadGen => NotifierWake(s, a);
      case LoadDurable => NotifierWake(s, a);
      case LockWake => NotifierWake(s, a);
      case LoadCount => NotifierWake(s, a);
      case SetFlag => NotifierWake(s, a);
      case Post => NotifierWake(s, a);
      case Finish => NotifierWake(s, a);
      case OtherBatch =>
      case Advance(_) =>
      case TakeHead => TakeHeadWake(s);
      case Answer => AnswerWake(s);
      case _ => LoopWake(s, a);
    }
  }

  // ---- Over every run ----

  ghost predicate Ok(s: State) {
    AnswersOk(s) && BooksOk(s) && WakeOk(s)
  }

  lemma {:induction false} RunKeeps(s: State, run: seq<Step>)
    requires Ok(s) && Legal(s, run)
    ensures Ok(Run(s, run))
    decreases |run|
  {
    if run != [] {
      var a := run[0];
      AnswersKept(s, a);
      if IsWriter(a) { WriterBooks(s, a); } else { OtherBooks(s, a); }
      WakeKept(s, a);
      RunKeeps(Do(s, a), run[1..]);
    }
  }

  lemma InitOk(writers: nat, durable: nat)
    ensures Ok(Init(writers, durable))
  {
    SumZero(Init(writers, durable).writers, Uncounted);
  }

  lemma OnePlaceOf(s: State, r: Req)
    requires AnswersOk(s) && r in s.parked
    ensures multiset(s.head)[r] + multiset(s.local)[r] + multiset(s.answered)[r] == 1
  {
    assert multiset(s.parked)[r] == 1;
    var queued := multiset(s.head) + multiset(s.local);
    assert multiset(s.parked) == queued + multiset(s.answered);
    assert (queued + multiset(s.answered))[r] == queued[r] + multiset(s.answered)[r];
  }

  /**
   Every request parked is in exactly one of the list, the loop's own list and the answers;
   so it is answered once at most. No answer is sent before the watermark covers it.
   */
  lemma AnsweredOnce(writers: nat, durable: nat, run: seq<Step>, r: Req)
    requires Legal(Init(writers, durable), run)
    ensures var s := Run(Init(writers, durable), run);
      && (r in s.parked ==> multiset(s.head)[r] + multiset(s.local)[r] + multiset(s.answered)[r] == 1)
      && (r in s.answered ==> r in s.parked && r.lsn <= s.durable)
  {
    InitOk(writers, durable);
    RunKeeps(Init(writers, durable), run);
    var s := Run(Init(writers, durable), run);
    if r in s.parked { OnePlaceOf(s, r); }
    if r in s.answered {
      assert r in multiset(s.answered);
      assert r in multiset(s.parked);
    }
  }

  /** No writer mid-way, and notifier and loop idle having seen the latest generation and watermark. */
  ghost predicate Quiet(s: State) {
    && (forall i | 0 <= i < |s.writers| :: s.writers[i] == Free)
    && Rested(s)
  }

  ghost predicate Rested(s: State) {
    && s.notifier == Waiting && s.lastGen == s.gen && s.lastDurable == s.durable
    && s.mail == 0 && s.loop == Away
  }

  /** At rest everything covered has been answered, however parking, waking and draining interleaved. */
  lemma NothingForgotten(writers: nat, durable: nat, run: seq<Step>, r: Req)
    requires Legal(Init(writers, durable), run)
    ensures var s := Run(Init(writers, durable), run);
      Quiet(s) && r in s.parked && r.lsn <= s.durable ==>
        r !in s.head && r !in s.local && multiset(s.answered)[r] == 1
  {
    InitOk(writers, durable);
    RunKeeps(Init(writers, durable), run);
    var s := Run(Init(writers, durable), run);
    if Quiet(s) && r in s.parked && r.lsn <= s.durable {
      SumZero(s.writers, Busy);
      assert !Coming(s);
      OnePlaceOf(s, r);
    }
  }

  // ---- A writer midway may hide another writer's request ----

  lemma RunOn(s: State, a: Step, rest: seq<Step>)
    requires Can(s, a) && Legal(Do(s, a), rest)
    ensures Legal(s, [a] + rest) && Run(s, [a] + rest) == Run(Do(s, a), rest)
  {
    assert ([a] + rest)[1..] == rest;
  }

  /** Three covered requests, none of them at zero. */
  ghost predicate ThreeCovered(a: Req, b: Req, c: Req, d: nat) {
    a.id != b.id && a.id != c.id && b.id != c.id && 0 < a.lsn <= d && 0 < b.lsn <= d && 0 < c.lsn <= d
  }

  lemma DistinctThree(a: Req, b: Req, c: Req)
    requires a.id != b.id && a.id != c.id && b.id != c.id
    ensures Distinct([c]) && Distinct([c] + [b]) && Distinct([c, b] + [a])
  {
    assert multiset([c]) == multiset{c};
    assert multiset([c] + [b]) == multiset{c, b};
    assert multiset([c, b] + [a]) == multiset{c, b, a};
  }

  /** The first request parked, counted and registered, its generation bumped. */
  function FirstParked(c: Req, d: nat): State {
    State([Free, Free], Waiting, Away, [c], [], 1, false, true, 0, 1, d, 0, 0, [c], [])
  }

  /** The notifier has posted a drain and seen everything there is. */
  function DrainPosted(c: Req, d: nat): State {
    FirstParked(c, d).(wakeQueued := true, mail := 1, lastGen := 1, lastDurable := d)
  }

  /** The drain answered that request and one the second writer had pushed but not yet counted. */
  function AnsweredEarly(b: Req, c: Req, d: nat): State {
    State([Free, Pushed(1)], Waiting, Away, [], [], -1, false, true, 0, 1, d, 1, d, [c, b], [b, c])
  }

  /** The first writer has parked another request, counted it, bumped the generation and gone. */
  function ParkedAgain(a: Req, b: Req, c: Req, d: nat): State {
    State([Free, Pushed(1)], Waiting, Away, [a], [], 0, false, true, 0, 2, d, 1, d, [c, b, a], [b, c])
  }

  lemma ReachFirstParked(c: Req, d: nat, rest: seq<Step>) returns (run: seq<Step>)
    requires Legal(FirstParked(c, d), rest)
    ensures Legal(Init(2, d), run) && Run(Init(2, d), run) == Run(FirstParked(c, d), rest)
  {
    DistinctThree(Req(c.id + 2, 0), Req(c.id + 1, 0), c);
    var s0 := Init(2, d);
    assert s0.writers == [Free, Free] && [] + [c] == [c];
    var s1 := Do(s0, Push(0, [c]));
    var s2 := Do(s1, AddCount(0));
    var s3 := Do(s2, LookRegistered(0));
    var s4 := Do(s3, Register(0));
    assert Do(s4, BumpGen(0)) == FirstParked(c, d);
    RunOn(s4, BumpGen(0), rest);
    run := [BumpGen(0)] + rest;
    RunOn(s3, Register(0), run);
    run := [Register(0)] + run;
    RunOn(s2, LookRegistered(0), run);
    run := [LookRegistered(0)] + run;
    RunOn(s1, AddCount(0), run);
    run := [AddCount(0)] + run;
    RunOn(s0, Push(0, [c]), run);
    run := [Push(0, [c])] + run;
  }

  lemma ReachDrainPosted(c: Req, d: nat, rest: seq<Step>) returns (run: seq<Step>)
    requires d > 0 && Legal(DrainPosted(c, d), rest)
    ensures Legal(FirstParked(c, d), run) && Run(FirstParked(c, d), run) == Run(DrainPosted(c, d), rest)
  {
    var s0 := FirstParked(c, d);
    var s1 := Do(s0, LoadGen);
    var s2 := Do(s1, LoadDurable);
    var s3 := Do(s2, LockWake);
    var s4 := Do(s3, LoadCount);
    var s5 := Do(s4, SetFlag);
    var s6 := Do(s5, Post);
    assert Do(s6, Finish) == DrainPosted(c, d);
    RunOn(s6, Finish, rest);
    run := [Finish] + rest;
    RunOn(s5, Post, run);
    run := [Post] + run;
    RunOn(s4, SetFlag, run);
    run := [SetFlag] + run;
    RunOn(s3, LoadCount, run);
    run := [LoadCount] + run;
    RunOn(s2, LockWake, run);
    run := [LockWake] + run;
    RunOn(s1, LoadDurable, run);
    run := [LoadDurable] + run;
    RunOn(s0, LoadGen, run);
    run := [LoadGen] + run;
  }

  lemma BothCovered(b: Req, c: Req, d: nat)
    requires b.lsn <= d && c.lsn <= d
    ensures Covered([b, c], d) == [b, c] && Uncovered([b, c], d) == []
  {
    assert [b, c][..1] == [b] && [b][..0] == [];
    assert Covered([b], d) == [b] && Uncovered([b], d) == [];
  }

  /** The drain has taken over that request and one the second writer has pushed but not yet counted. */
  function TakenOver(b: Req, c: Req, d: nat): State {
    State([Free, Pushed(1)], Waiting, Taken, [], [b, c], 1, false, true, 0, 1, d, 1, d, [c, b], [])
  }

  lemma ReachTakenOver(b: Req, c: Req, d: nat, rest: seq<Step>) returns (run: seq<Step>)
    requires b.id != c.id && Legal(TakenOver(b, c, d), rest)
    ensures Legal(DrainPosted(c, d), run) && Run(DrainPosted(c, d), run) == Run(TakenOver(b, c, d), rest)
  {
    DistinctThree(Req(b.id + c.id + 1, 0), b, c);
    var s0 := DrainPosted(c, d);
    assert [c] + [b] == [c, b] && [b] + [c] == [b, c] && [] + [b, c] == [b, c];
    var s1 := Do(s0, Push(1, [b]));
    var s2 := Do(s1, TakeMail);
    var s3 := Do(s2, ClearFlag);
    assert Do(s3, TakeHead) == TakenOver(b, c, d);
    RunOn(s3, TakeHead, rest);
    run := [TakeHead] + rest;
    RunOn(s2, ClearFlag, run);
    run := [ClearFlag] + run;
    RunOn(s1, TakeMail, run);
    run := [TakeMail] + run;
    RunOn(s0, Push(1, [b]), run);
    run := [Push(1, [b])] + run;
  }

  lemma ReachAnsweredEarly(b: Req, c: Req, d: nat, rest: seq<Step>) returns (run: seq<Step>)
    requires b.lsn <= d && c.lsn <= d && Legal(AnsweredEarly(b, c, d), rest)
    ensures Legal(TakenOver(b, c, d), run) && Run(TakenOver(b, c, d), run) == Run(AnsweredEarly(b, c, d), rest)
  {
    BothCovered(b, c, d);
    var s0 := TakenOver(b, c, d);
    assert [] + [b, c] == [b, c];
    var s1 := Do(s0, Answer);
    assert Do(s1, SubCount) == AnsweredEarly(b, c, d);
    RunOn(s1, SubCount, rest);
    run := [SubCount] + rest;
    RunOn(s0, Answer, run);
    run := [Answer] + run;
  }

  lemma ReachParkedAgain(a: Req, b: Req, c: Req, d: nat, rest: seq<Step>) returns (run: seq<Step>)
    requires ThreeCovered(a, b, c, d) && Legal(ParkedAgain(a, b, c, d), rest)
    ensures Legal(AnsweredEarly(b, c, d), run) && Run(AnsweredEarly(b, c, d), run) == Run(ParkedAgain(a, b, c, d), rest)
  {
    DistinctThree(a, b, c);
    var s0 := AnsweredEarly(b, c, d);
    assert [c, b] + [a] == [c, b, a] && [a] + [] == [a];
    var s1 := Do(s0, Push(0, [a]));
    var s2 := Do(s1, AddCount(0));
    var s3 := Do(s2, LookRegistered(0));
    assert Do(s3, BumpGen(0)) == ParkedAgain(a, b, c, d);
    RunOn(s3, BumpGen(0), rest);
    run := [BumpGen(0)] + rest;
    RunOn(s2, LookRegistered(0), run);
    run := [LookRegistered(0)] + run;
    RunOn(s1, AddCount(0), run);
    run := [AddCount(0)] + run;
    RunOn(s0, Push(0, [a]), run);
    run := [Push(0, [a])] + run;
  }

  lemma ReachPassedOver(a: Req, b: Req, c: Req, d: nat) returns (run: seq<Step>)
    ensures Legal(ParkedAgain(a, b, c, d), run)
    ensures Run(ParkedAgain(a, b, c, d), run) == ParkedAgain(a, b, c, d).(lastGen := 2)
  {
    var s0 := ParkedAgain(a, b, c, d);
    var s1 := Do(s0, LoadGen);
    var s2 := Do(s1, LoadDurable);
    var s3 := Do(s2, LockWake);
    var s4 := Do(s3, LoadCount);
    RunOn(s4, Finish, []);
    run := [Finish] + [];
    RunOn(s3, LoadCount, run);
    run := [LoadCount] + run;
    RunOn(s2, LockWake, run);
    run := [LockWake] + run;
    RunOn(s1, LoadDurable, run);
    run := [LoadDurable] + run;
    RunOn(s0, LoadGen, run);
    run := [LoadGen] + run;
  }

  /**
   While some writer is between its push and its bump, notifier and loop may rest with a covered
   request still parked, even one whose own writer is done: the midway writer's push was answered
   before it was counted, so the count is one short and the notifier passes the loop over.
   */
  lemma WriterMidway(a: Req, b: Req, c: Req, d: nat) returns (run: seq<Step>)
    requires ThreeCovered(a, b, c, d)
    ensures Legal(Init(2, d), run)
    ensures var s := Run(Init(2, d), run);
      Rested(s) && s.durable == d && s.head == [a] && s.writers == [Free, Pushed(1)] && s.answered == [b, c]
  {
    run := ReachPassedOver(a, b, c, d);
    run := ReachParkedAgain(a, b, c, d, run);
    run := ReachAnsweredEarly(b, c, d, run);
    run := ReachTakenOver(b, c, d, run);
    run := ReachDrainPosted(c, d, run);
    run := ReachFirstParked(c, d, run);
  }

  // ---- At which writer positions a covered request can be left parked at rest ----

  ghost predicate AllAt(rs: seq<Req>, d: nat) {
    forall i | 0 <= i < |rs| :: rs[i].lsn == d
  }

  /** n requests covered at d, numbered on from `from`. */
  function Batch(from: nat, n: nat, d: nat): (rs: seq<Req>)
    ensures |rs| == n && forall i | 0 <= i < n :: rs[i] == Req(from + i, d)
  {
    if n == 0 then [] else Batch(from, n - 1, d) + [Req(from + n - 1, d)]
  }

  /** Requests named by their place. */
  ghost predicate Numbered(rs: seq<Req>) {
    forall i | 0 <= i < |rs| :: rs[i].id == i
  }

  lemma {:induction false} NumberedDistinct(rs: seq<Req>)
    requires Numbered(rs)
    ensures Distinct(rs)
  {
    if rs != [] {
      var n := |rs| - 1;
      NumberedDistinct(rs[..n]);
      DistinctSnoc(rs[..n], rs[n]);
      assert rs == rs[..n] + [rs[n]];
    }
  }

  lemma DistinctSnoc(rs: seq<Req>, x: Req)
    requires Distinct(rs) && forall i | 0 <= i < |rs| :: rs[i] != x
    ensures Distinct(rs + [x])
  {
    assert x !in rs;
    assert multiset(rs + [x]) == multiset(rs) + multiset{x};
  }

  lemma {:induction false} RunThen(s: State, run: seq<Step>, a: Step)
    requires Legal(s, run) && Can(Run(s, run), a)
    ensures Legal(s, run + [a]) && Run(s, run + [a]) == Do(Run(s, run), a)
    decreases |run|
  {
    if run == [] {
      assert [] + [a] == [a];
    } else {
      RunThen(Do(s, run[0]), run[1..], a);
      assert (run + [a])[1..] == run[1..] + [a];
    }
  }

  /** Reached by a run from the start. */
  ghost predicate Reached(s: State, writers: nat, d: nat) {
    exists run :: Legal(Init(writers, d), run) && s == Run(Init(writers, d), run)
  }

  lemma ReachedThen(s: State, writers: nat, d: nat, a: Step)
    requires Reached(s, writers, d) && Can(s, a)
    ensures Reached(Do(s, a), writers, d)
  {
    var run :| Legal(Init(writers, d), run) && s == Run(Init(writers, d), run);
    RunThen(Init(writers, d), run, a);
    assert Legal(Init(writers, d), run + [a]);
  }

  /** Where a writer stands before the loop is registered. */
  function Early(pc: WriterPc): WriterPc {
    if pc == Parked then Registering else pc
  }

  ghost predicate Midway(ws: seq<WriterPc>) {
    exists i :: 0 <= i < |ws| && ws[i] != Free
  }

  /** A writer that has pushed has pushed something. */
  ghost predicate Possible(ws: seq<WriterPc>) {
    forall i | 0 <= i < |ws| && ws[i].Pushed? :: ws[i].n > 0
  }

  /** At rest with everything parked still on the list, each request covered. */
  ghost predicate Idling(s: State, d: nat) {
    && Rested(s) && s.durable == d && s.local == []
    && Numbered(s.parked) && AllAt(s.head, d)
  }

  /** The first i writers stand as asked, but for registering; the others have not begun. */
  ghost predicate Placed(s: State, ws: seq<WriterPc>, i: nat, d: nat) {
    && Reached(s, |ws|, d) && Idling(s, d) && !s.registered && |s.writers| == |ws|
    && (forall j | 0 <= j < |ws| :: s.writers[j] == if j < i then Early(ws[j]) else Free)
    && (s.head == [] ==> forall j | 0 <= j < i && j < |ws| :: ws[j] == Free)
  }

  lemma PlaceNone(ws: seq<WriterPc>, d: nat) returns (s: State)
    ensures Placed(s, ws, 0, d)
  {
    s := Init(|ws|, d);
    assert Legal(s, []) && s == Run(s, []);
    if d > 0 {
      ReachedThen(s, |ws|, d, LoadGen);
      s := Do(s, LoadGen);
      ReachedThen(s, |ws|, d, LoadDurable);
      s := Do(s, LoadDurable);
      ReachedThen(s, |ws|, d, LockWake);
      s := Do(s, LockWake);
      ReachedThen(s, |ws|, d, Finish);
      s := Do(s, Finish);
    }
  }

  lemma MoreParked(parked: seq<Req>, n: nat, d: nat)
    requires Numbered(parked)
    ensures Numbered(parked + Batch(|parked|, n, d))
  {}

  lemma BothAt(a: seq<Req>, b: seq<Req>, d: nat)
    requires AllAt(a, d) && AllAt(b, d)
    ensures AllAt(a + b, d)
  {}

  lemma PushIdles(s: State, i: nat, chain: seq<Req>, d: nat)
    requires Idling(s, d) && Can(s, Push(i, chain)) && AllAt(chain + s.head, d)
    requires Numbered(s.parked + chain)
    ensures var t := Do(s, Push(i, chain));
      Idling(t, d) && t.head != [] && t.writers == s.writers[i := Pushed(|chain|)] && t.registered == s.registered
  {}

  /** Writer i pushes n new requests. */
  lemma PushNew(s: State, ws: seq<WriterPc>, i: nat, n: nat, d: nat) returns (t: State)
    requires Reached(s, |ws|, d) && Idling(s, d) && i < |s.writers| && s.writers[i] == Free && n > 0
    ensures Reached(t, |ws|, d) && Idling(t, d) && t.head != []
    ensures t.writers == s.writers[i := Pushed(n)] && t.registered == s.registered
  {
    var chain := Batch(|s.parked|, n, d);
    MoreParked(s.parked, n, d);
    NumberedDistinct(s.parked + chain);
    BothAt(chain, s.head, d);
    var a := Push(i, chain);
    assert Can(s, a);
    PushIdles(s, i, chain, d);
    ReachedThen(s, |ws|, d, a);
    t := Do(s, a);
  }

  /** A step of writer i that leaves the lists alone. */
  lemma Onward(s: State, ws: seq<WriterPc>, i: nat, d: nat, a: Step)
    requires Reached(s, |ws|, d) && Idling(s, d) && Can(s, a) && (a == AddCount(i) || a == LookRegistered(i) || a == Register(i))
    ensures var t := Do(s, a);
      Reached(t, |ws|, d) && Idling(t, d) && t.head == s.head && t.registered == (s.registered || a == Register(i))
  {
    ReachedThen(s, |ws|, d, a);
  }

  lemma PlaceOne(s: State, ws: seq<WriterPc>, i: nat, d: nat) returns (t: State)
    requires Possible(ws) && i < |ws| && Placed(s, ws, i, d)
    ensures Placed(t, ws, i + 1, d)
  {
    t := s;
    if ws[i] != Free {
      t := PushNew(t, ws, i, if ws[i].Pushed? then ws[i].n else 1, d);
      if !ws[i].Pushed? {
        Onward(t, ws, i, d, AddCount(i));
        t := Do(t, AddCount(i));
        if ws[i] != Counted {
          Onward(t, ws, i, d, LookRegistered(i));
          t := Do(t, LookRegistered(i));
        }
      }
    }
  }

  lemma {:induction false} PlaceFirst(ws: seq<WriterPc>, i: nat, d: nat) returns (s: State)
    requires Possible(ws) && i <= |ws|
    ensures Placed(s, ws, i, d)
  {
    if i == 0 {
      s := PlaceNone(ws, d);
    } else {
      s := PlaceFirst(ws, i - 1, d);
      s := PlaceOne(s, ws, i - 1, d);
    }
  }

  /** The first i writers stand as asked, the others before registering. */
  ghost predicate Settled(s: State, ws: seq<WriterPc>, i: nat, d: nat) {
    && Reached(s, |ws|, d) && Idling(s, d) && |s.writers| == |ws|
    && (forall j | 0 <= j < |ws| :: s.writers[j] == if j < i then ws[j] else Early(ws[j]))
    && (s.head == [] ==> !Midway(ws))
  }

  lemma {:induction false} SettleFirst(ws: seq<WriterPc>, i: nat, d: nat) returns (s: State)
    requires Possible(ws) && i <= |ws|
    ensures Settled(s, ws, i, d)
  {
    if i == 0 {
      s := PlaceFirst(ws, |ws|, d);
    } else {
      s := SettleFirst(ws, i - 1, d);
      if ws[i - 1] == Parked {
        Onward(s, ws, i - 1, d, Register(i - 1));
        s := Do(s, Register(i - 1));
      }
    }
  }

  /** Notifier and loop at rest, the writers so, and a covered request not answered. */
  ghost predicate Forgets(s: State, ws: seq<WriterPc>, d: nat) {
    Reached(s, |ws|, d) && Rested(s) && s.writers == ws && (AnyCovered(s.head, s.durable) || AnyCovered(s.local, s.durable))
  }

  lemma {:induction false} RunPossible(s: State, run: seq<Step>)
    requires Possible(s.writers) && Legal(s, run)
    ensures Possible(Run(s, run).writers)
    decreases |run|
  {
    if run != [] {
      StepPossible(s, run[0]);
      RunPossible(Do(s, run[0]), run[1..]);
    }
  }

  lemma StepPossible(s: State, a: Step)
    requires Possible(s.writers) && Can(s, a)
    ensures Possible(Do(s, a).writers)
  {}

  lemma RestIsCalm(s: State)
    requires Rested(s) && !Midway(s.writers)
    ensures !Coming(s)
  {
    SumZero(s.writers, Busy);
  }

  lemma ForgetsMidway(s: State, ws: seq<WriterPc>, d: nat)
    requires Forgets(s, ws, d)
    ensures Possible(ws) && Midway(ws)
  {
    var run :| Legal(Init(|ws|, d), run) && s == Run(Init(|ws|, d), run);
    RunPossible(Init(|ws|, d), run);
    InitOk(|ws|, d);
    RunKeeps(Init(|ws|, d), run);
    if !Midway(ws) { RestIsCalm(s); }
  }

  /**
   For every vector of writer positions and every watermark: some run comes to rest there with a
   covered request still parked if and only if some writer is between its push and its bump, and
   none has pushed an empty chain, which no run does.
   */
  lemma ForgetsIff(ws: seq<WriterPc>, d: nat)
    ensures (exists s :: Forgets(s, ws, d)) <==> Possible(ws) && Midway(ws)
  {
    if Possible(ws) && Midway(ws) {
      var s := SettleFirst(ws, |ws|, d);
      assert s.writers == ws;
      assert s.head[0].lsn <= s.durable;
      assert Forgets(s, ws, d);
    }
    forall s | Forgets(s, ws, d) ensures Possible(ws) && Midway(ws) {
      ForgetsMidway(s, ws, d);
    }
  }

  // ---- The loop's pass over its own list, in place ----

  method DrainLocal(local: array<Req>, n: nat, durable: nat) returns (kept: nat, done: seq<Req>)
    requires n <= local.Length
    modifies local
    ensures kept <= n && local[..kept] == Uncovered(old(local[..n]), durable)
    ensures done == Covered(old(local[..n]), durable)
  {
    kept, done := 0, [];
    var i: nat := 0;
    ghost var all := local[..n];
    while i < n
      invariant kept <= i <= n
      invariant local[..kept] == Uncovered(all[..i], durable) && done == Covered(all[..i], durable)
      invariant forall k | i <= k < n :: local[k] == all[k]
    {
      assert all[..i + 1][..i] == all[..i];
      var r := local[i];
      if r.lsn <= durable {
        done := done + [r];
      } else {
        ghost var before := local[..kept];
        local[kept] := r;
        kept := kept + 1;
        assert local[..kept] == before + [r];
      }
      i := i + 1;
    }
    assert all[..n] == all;
  }
}
