/**
 An IO loop's mailbox (server/iothread.h) as interleaved steps of any number of
 posting threads and the loop. A post wakes the loop only when it found the
 mailbox empty; a busy loop notices mail through a flag instead. Either way the
 loop schedules one pump, which takes the whole mailbox and runs it.
 */
module Mailboxes {
  import opened Totals

  type Mail = nat

  datatype PosterPc =
    | Free
    | Left(first: bool)                 // mail left, flag not yet raised
    | Raised(first: bool)               // flag raised, wake not yet sent

  datatype State = State(
    posters: seq<PosterPc>,
    mail: seq<Mail>,
    hasMail: bool,
    wakes: nat,                         // wake-ups in the loop's cross-thread queue
    pump: bool,                         // pump scheduled as a loop callback
    batch: seq<Mail>,                   // taken by the pump, not yet run
    posted: seq<Mail>,
    ran: seq<Mail>)

  datatype Step =
    | Leave(i: nat, m: Mail)
    | Raise(i: nat)
    | Wake(i: nat)
    | HandleWake
    | NoticeFlag
    | TakeAll
    | RunOne

  function Init(posters: nat): State {
    State(Repeat(posters, Free), [], false, 0, false, [], [], [])
  }

  predicate Can(s: State, a: Step) {
    match a
    case Leave(i, _) => i < |s.posters| && s.posters[i] == Free
    case Raise(i) => i < |s.posters| && s.posters[i].Left?
    case Wake(i) => i < |s.posters| && s.posters[i].Raised?
    case HandleWake => s.wakes > 0 && s.batch == []
    case NoticeFlag => s.hasMail && s.batch == []
    case TakeAll => s.pump && s.batch == []
    case RunOne => s.batch != []
  }

  function Do(s: State, a: Step): State
    requires Can(s, a)
  {
    match a
    case Leave(i, m) =>
      s.(posters := s.posters[i := Left(s.mail == [])], mail := s.mail + [m], posted := s.posted + [m])
    case Raise(i) => s.(posters := s.posters[i := Raised(s.posters[i].first)], hasMail := true)
    case Wake(i) => s.(posters := s.posters[i := Free], wakes := s.wakes + if s.posters[i].first then 1 else 0)
    case HandleWake => s.(wakes := s.wakes - 1, pump := true)
    case NoticeFlag => s.(pump := true)
    case TakeAll => s.(pump := false, batch := s.mail, mail := [], hasMail := false)
    case RunOne => s.(batch := s.batch[1..], ran := s.ran + [s.batch[0]])
  }

  ghost predicate Legal(s: State, run: seq<Step>)
    decreases |run|
  {
    run == [] || (Can(s, run[0]) && Legal(Do(s, run[0]), run[1..]))
  }

  function Run(s: State, run: seq<Step>): State
    requires Legal(s, run)
    decreases |run|
  {
    if run == [] then s else Run(Do(s, run[0]), run[1..])
  }

  function OwesWake(pc: PosterPc): nat {
    if pc != Free && pc.first then 1 else 0
  }

  function OwesFlag(pc: PosterPc): nat {
    if pc.Left? then 1 else 0
  }

  ghost predicate Ok(s: State) {
    && s.ran + s.batch + s.mail == s.posted
    && (s.mail != [] ==> s.pump || s.wakes > 0 || Sum(s.posters, OwesWake) > 0)
    && (s.mail != [] ==> s.hasMail || Sum(s.posters, OwesFlag) > 0)
  }

  lemma PosterKeeps(s: State, a: Step)
    requires Ok(s) && Can(s, a) && (a.Leave? || a.Raise? || a.Wake?)
    ensures Ok(Do(s, a))
  {
    SumMove(s.posters, OwesWake, a.i, Do(s, a).posters[a.i]);
    SumMove(s.posters, OwesFlag, a.i, Do(s, a).posters[a.i]);
    if a.Leave? {
      assert s.ran + s.batch + (s.mail + [a.m]) == s.posted + [a.m];
    }
  }

  lemma LoopKeeps(s: State, a: Step)
    requires Ok(s) && Can(s, a) && !(a.Leave? || a.Raise? || a.Wake?)
    ensures Ok(Do(s, a))
  {
    if a == RunOne {
      assert s.ran + [s.batch[0]] + s.batch[1..] == s.ran + s.batch;
    }
  }

  lemma {:induction false} RunKeeps(s: State, run: seq<Step>)
    requires Ok(s) && Legal(s, run)
    ensures Ok(Run(s, run))
    decreases |run|
  {
    if run != [] {
      var a := run[0];
      if a.Leave? || a.Raise? || a.Wake? { PosterKeeps(s, a); } else { LoopKeeps(s, a); }
      RunKeeps(Do(s, a), run[1..]);
    }
  }

  /** Mail runs once each, in the order it was posted. */
  lemma RunsInOrder(posters: nat, run: seq<Step>)
    requires Legal(Init(posters), run)
    ensures var s := Run(Init(posters), run); s.ran + s.batch + s.mail == s.posted && s.ran <= s.posted
  {
    RunKeeps(Init(posters), run);
  }

  /** With no post under way, waiting mail has its pump or a wake on the way, and shows in the flag. */
  lemma NoMailStranded(posters: nat, run: seq<Step>)
    requires Legal(Init(posters), run)
    ensures var s := Run(Init(posters), run);
      (forall i | 0 <= i < |s.posters| :: s.posters[i] == Free) && s.mail != [] ==>
        (s.pump || s.wakes > 0) && s.hasMail
  {
    RunKeeps(Init(posters), run);
    var s := Run(Init(posters), run);
    if forall i | 0 <= i < |s.posters| :: s.posters[i] == Free {
      SumZero(s.posters, OwesWake);
      SumZero(s.posters, OwesFlag);
    }
  }
}
