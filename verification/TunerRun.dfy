/**
 The tuner's decision window over all its pools, and a per-shard pool group
 (server/tuner.cc, server/tuner.h).
 */
module TunerRuns {
  import opened Tuners

  /** What one pool reported for the window. */
  datatype Window = Window(settled: bool, busy: real)

  /** Steady-window statistics; calm says the baseline is there and not moving. */
  datatype Stats = Stats(level: real, noise: real, calm: bool)

  function Abs(x: real): real { if x < 0.0 then -x else x }

  // ---- Closing a window ----

  function ClosedDir(d: Direction, tput: real, busy: real, rested: bool): Direction {
    if d.backoff == 0 then d
    else
      var moved := (d.tputAtFail > 0.0 && Abs(tput - d.tputAtFail) / d.tputAtFail > LOAD_CHANGE_TPUT)
                   || Abs(busy - d.busyAtFail) > LOAD_CHANGE_BUSY;
      if rested && moved then d.(backoff := 0, nextBackoff := 0) else d.(backoff := d.backoff - 1)
  }

  function Closed(p: Pool, tput: real, busy: real, steady: bool): Pool {
    var since := p.windowsSinceChange + 1;
    var rested := steady && since >= 2;
    p.(windowsSinceChange := since, grow := ClosedDir(p.grow, tput, busy, rested), shrink := ClosedDir(p.shrink, tput, busy, rested))
  }

  lemma ClosedOk(p: Pool, tput: real, busy: real, steady: bool)
    requires PoolOk(p)
    ensures PoolOk(Closed(p, tput, busy, steady))
  {}

  // ---- A trial in flight ----

  predicate StillSettling(p: Pool, settled: bool) {
    p.settledWindows == 0 && !settled && p.windowsSinceChange < MAX_SETTLE
  }

  /** Wait for the change to settle, measure, judge; or undo it if there is no load to judge it by. */
  function TrialStep(p: Pool, settled: bool, tput: real, v: Measured): Pool
    requires PoolOk(p) && p.trial != NoTrial
  {
    if StillSettling(p, settled) then p
    else if tput <= 0.0 then
      if p.windowsSinceChange > MAX_SETTLE then Abandoned(p) else p.(measured := 0, settledWindows := 0)
    else
      var q := p.(settledWindows := p.settledWindows + 1);
      if q.settledWindows <= SETTLE_WINDOWS then q
      else
        var r := q.(measured := q.measured + 1);
        if r.measured >= r.measure then Judged(r, v) else r
  }

  /** A trial goes on at its size, is kept at it, or ends at exactly the size before it. */
  ghost predicate TrialFollows(p: Pool, q: Pool) {
    && PoolOk(q) && q.step == p.step && q.min == p.min && q.max == p.max
    && (q.trial == NoTrial || (q.trial == p.trial && q.size == p.size && q.sizeBefore == p.sizeBefore))
    && (q.size == p.size || q.size == p.sizeBefore)
  }

  lemma JudgedFollows(p: Pool, v: Measured)
    requires PoolOk(p) && p.trial != NoTrial
    ensures TrialFollows(p, Judged(p, v))
  {
    JudgedOk(p, v);
  }

  lemma AbandonedFollows(p: Pool)
    requires PoolOk(p) && p.trial != NoTrial
    ensures TrialFollows(p, Abandoned(p))
  {
    UndoneExactly(p);
  }

  lemma CountersFollow(p: Pool, measured: nat, settledWindows: nat)
    requires PoolOk(p) && p.trial != NoTrial
    ensures TrialFollows(p, p.(measured := measured, settledWindows := settledWindows))
  {}

  lemma TrialStepOk(p: Pool, settled: bool, tput: real, v: Measured)
    requires PoolOk(p) && p.trial != NoTrial
    ensures TrialFollows(p, TrialStep(p, settled, tput, v))
  {
    if StillSettling(p, settled) {
      CountersFollow(p, p.measured, p.settledWindows);
    } else if tput <= 0.0 {
      AbandonedFollows(p);
      CountersFollow(p, 0, 0);
    } else {
      MeasuringFollows(p, settled, tput, v);
    }
  }

  lemma MeasuringFollows(p: Pool, settled: bool, tput: real, v: Measured)
    requires PoolOk(p) && p.trial != NoTrial && !StillSettling(p, settled) && tput > 0.0
    ensures TrialFollows(p, TrialStep(p, settled, tput, v))
  {
    var more := p.settledWindows + 1;
    if more <= SETTLE_WINDOWS {
      CountersFollow(p, p.measured, more);
    } else {
      var r := p.(measured := p.measured + 1, settledWindows := more);
      CountersFollow(p, p.measured + 1, more);
      JudgedFollows(r, v);
    }
  }

  predicate HasMomentum(p: Pool) {
    && p.trial == NoTrial
    && if p.lastTrialGrew then p.grow.lastGained && p.grow.backoff == 0 && p.size < p.max
       else p.shrink.lastGained && p.shrink.backoff == 0 && p.size > p.min
  }

  // ---- All pools ----

  ghost predicate AllOk(pools: seq<Pool>) {
    forall k | 0 <= k < |pools| :: PoolOk(pools[k])
  }

  ghost predicate OneTrial(pools: seq<Pool>) {
    forall i, j | 0 <= i < j < |pools| :: pools[i].trial == NoTrial || pools[j].trial == NoTrial
  }

  /** The pool's limits stay; its size stays, a trial starts from it, or the trial ends at the size before. */
  ghost predicate Follows(p: Pool, q: Pool) {
    && q.step == p.step && q.min == p.min && q.max == p.max
    && (q.size != p.size ==>
         if p.trial == NoTrial then q.trial != NoTrial && q.sizeBefore == p.size
         else q.trial == NoTrial && q.size == p.sizeBefore)
  }

  /** One window's effect: every pool follows on, and no more than one changes size. */
  ghost predicate WindowOk(before: seq<Pool>, after: seq<Pool>) {
    && |after| == |before|
    && (forall k | 0 <= k < |before| :: Follows(before[k], after[k]))
    && (forall i, j | 0 <= i < j < |before| :: after[i].size == before[i].size || after[j].size == before[j].size)
  }

  /** Same sizes and trials: only counters moved. */
  ghost predicate SameTrials(before: seq<Pool>, after: seq<Pool>) {
    && |after| == |before|
    && forall k | 0 <= k < |before| ::
         && after[k].step == before[k].step && after[k].min == before[k].min && after[k].max == before[k].max
         && after[k].size == before[k].size && after[k].trial == before[k].trial && after[k].sizeBefore == before[k].sizeBefore
  }

  // ---- What a window does, in full ----

  ghost predicate NoneInFlight(ps: seq<Pool>) {
    forall k | 0 <= k < |ps| :: ps[k].trial == NoTrial
  }

  ghost function ClosedAll(ps: seq<Pool>, tput: real, w: seq<Window>, steady: bool): (r: seq<Pool>)
    requires |w| == |ps|
    ensures |r| == |ps| && forall k | 0 <= k < |ps| :: r[k] == Closed(ps[k], tput, w[k].busy, steady)
  {
    seq(|ps|, k requires 0 <= k < |ps| => Closed(ps[k], tput, w[k].busy, steady))
  }

  /** The first pool with a trial in flight. */
  ghost function FirstTrial(ps: seq<Pool>, i: nat): nat
    decreases |ps| - i
  {
    if i >= |ps| || ps[i].trial != NoTrial then i else FirstTrial(ps, i + 1)
  }

  ghost predicate Plans(ps: seq<Pool>, w: seq<Window>, k: nat)
    requires AllOk(ps) && |w| == |ps| && k < |ps|
  {
    MakePlan(ps[k], w[k].busy).Plan?
  }

  /** The first pool with momentum that has something to try. */
  ghost function FirstReady(ps: seq<Pool>, w: seq<Window>, i: nat): nat
    requires AllOk(ps) && |w| == |ps|
    decreases |ps| - i
  {
    if i >= |ps| || (HasMomentum(ps[i]) && ps[i].windowsSinceChange >= 1 && Plans(ps, w, i)) then i else FirstReady(ps, w, i + 1)
  }

  /** A position counted on from one pool, round to the first after the last: the remainder, as x is below 2n. */
  function Turn(x: nat, n: nat): (k: nat)
    requires x < 2 * n
    ensures k < n
  {
    if x < n then x else x - n
  }

  /** The pool i places on has rested and has something to try. */
  ghost predicate ReadyInTurn(ps: seq<Pool>, w: seq<Window>, next: nat, i: nat)
    requires AllOk(ps) && |w| == |ps| && next < |ps| && i < |ps|
  {
    var k := Turn(next + i, |ps|);
    ps[k].windowsSinceChange >= 2 && Plans(ps, w, k)
  }

  /** How far past the pool whose turn it is the first rested one with something to try is. */
  ghost function FirstInTurn(ps: seq<Pool>, w: seq<Window>, next: nat, i: nat): nat
    requires AllOk(ps) && |w| == |ps| && (ps != [] ==> next < |ps|)
    decreases |ps| - i
  {
    if i >= |ps| || ReadyInTurn(ps, w, next, i) then i
    else FirstInTurn(ps, w, next, i + 1)
  }

  ghost function StartedAt(ps: seq<Pool>, w: seq<Window>, st: Stats, k: nat): seq<Pool>
    requires AllOk(ps) && |w| == |ps| && k < |ps| && Plans(ps, w, k)
  {
    PlanOk(ps[k], w[k].busy);
    ps[k := Started(ps[k], MakePlan(ps[k], w[k].busy), w[k].busy, st.level, st.noise)]
  }

  ghost predicate BegunAt(ps: seq<Pool>, next: nat, w: seq<Window>, st: Stats, i: nat, after: seq<Pool>)
    requires AllOk(ps) && |w| == |ps| && next < |ps| && i < |ps|
  {
    ReadyInTurn(ps, w, next, i) && after == StartedAt(ps, w, st, Turn(next + i, |ps|))
  }

  ghost predicate BegunInTurn(ps: seq<Pool>, next: nat, w: seq<Window>, st: Stats, after: seq<Pool>)
    requires AllOk(ps) && |w| == |ps| && (ps != [] ==> next < |ps|)
  {
    var i := FirstInTurn(ps, w, next, 0);
    if i < |ps| then BegunAt(ps, next, w, st, i, after) else after == ps
  }

  ghost predicate BegunReady(ps: seq<Pool>, w: seq<Window>, st: Stats, after: seq<Pool>)
    requires AllOk(ps) && |w| == |ps|
  {
    var k := FirstReady(ps, w, 0);
    k < |ps| && Plans(ps, w, k) && after == StartedAt(ps, w, st, k)
  }

  ghost predicate Begun(ps: seq<Pool>, next: nat, w: seq<Window>, st: Stats, after: seq<Pool>)
    requires AllOk(ps) && |w| == |ps| && (ps != [] ==> next < |ps|)
  {
    if FirstReady(ps, w, 0) < |ps| then BegunReady(ps, w, st, after) else BegunInTurn(ps, next, w, st, after)
  }

  ghost predicate Advanced(ps: seq<Pool>, tput: real, w: seq<Window>, v: Measured, after: seq<Pool>)
    requires |w| == |ps|
  {
    var i := FirstTrial(ps, 0);
    i < |ps| && PoolOk(ps[i]) && ps[i].trial != NoTrial && after == ps[i := TrialStep(ps[i], w[i].settled, tput, v)]
  }

  /** A trial in flight moves on; with none, and a calm load, one may begin. */
  ghost predicate Decided(before: seq<Pool>, next: nat, tput: real, w: seq<Window>, st: Stats, v: Measured, after: seq<Pool>)
    requires |w| == |before| && (before != [] ==> next < |before|)
  {
    var closed := ClosedAll(before, tput, w, NoneInFlight(before));
    if !NoneInFlight(before) then Advanced(closed, tput, w, v, after)
    else if st.calm then AllOk(closed) && Begun(closed, next, w, st, after)
    else after == closed
  }

  lemma AdvanceKeeps(ps: seq<Pool>, i: nat, settled: bool, tput: real, v: Measured)
    requires AllOk(ps) && OneTrial(ps) && i < |ps| && ps[i].trial != NoTrial
    ensures var after := ps[i := TrialStep(ps[i], settled, tput, v)];
      AllOk(after) && OneTrial(after) && WindowOk(ps, after)
  {
    TrialStepOk(ps[i], settled, tput, v);
  }

  lemma SameWindow(ps: seq<Pool>)
    ensures WindowOk(ps, ps)
  {}

  class ThreadTuner {
    var pools: seq<Pool>
    var nextPool: nat

    ghost predicate Valid()
      reads this
    {
      AllOk(pools) && OneTrial(pools) && (pools != [] ==> nextPool < |pools|)
    }

    constructor (ps: seq<Pool>)
      requires AllOk(ps) && NoneInFlight(ps)
      ensures Valid() && pools == ps
    {
      pools, nextPool := ps, 0;
    }

    method CloseWindows(tput: real, w: seq<Window>) returns (steady: bool)
      requires Valid() && |w| == |pools|
      modifies this`pools
      ensures Valid() && SameTrials(old(pools), pools)
      ensures steady == NoneInFlight(old(pools)) && pools == ClosedAll(old(pools), tput, w, steady)
    {
      steady := true;
      var i: nat := 0;
      while i < |pools|
        invariant i <= |pools| && pools == old(pools)
        invariant steady <==> forall k | 0 <= k < i :: pools[k].trial == NoTrial
      {
        steady := steady && pools[i].trial == NoTrial;
        i := i + 1;
      }
      CloseAll(tput, w, steady);
    }

    method CloseAll(tput: real, w: seq<Window>, steady: bool)
      requires Valid() && |w| == |pools|
      modifies this`pools
      ensures Valid() && SameTrials(old(pools), pools) && pools == ClosedAll(old(pools), tput, w, steady)
    {
      var i: nat := 0;
      while i < |pools|
        invariant i <= |pools| == |old(pools)|
        invariant forall k | 0 <= k < i :: pools[k] == Closed(old(pools)[k], tput, w[k].busy, steady)
        invariant forall k | i <= k < |pools| :: pools[k] == old(pools)[k]
      {
        pools := pools[i := Closed(pools[i], tput, w[i].busy, steady)];
        i := i + 1;
      }
      forall k | 0 <= k < |pools| ensures PoolOk(pools[k]) {
        ClosedOk(old(pools)[k], tput, w[k].busy, steady);
      }
    }

    /** Tries to start a trial on pool k; none is in flight. */
    method StartTrial(k: nat, w: seq<Window>, st: Stats) returns (started: bool)
      requires Valid() && |w| == |pools| && k < |pools| && NoneInFlight(pools)
      modifies this`pools
      ensures Valid() && started == Plans(old(pools), w, k) && WindowOk(old(pools), pools)
      ensures pools == if started then StartedAt(old(pools), w, st, k) else old(pools)
    {
      var busy := w[k].busy;
      var plan := PlanTrial(pools[k], busy);
      started := plan.Plan?;
      if started {
        PlanOk(pools[k], busy);
        StartedOk(pools[k], busy, st.level, st.noise);
        pools := pools[k := Started(pools[k], plan, busy, st.level, st.noise)];
      }
    }

    /** A trial in flight owns the window. */
    method AdvanceTrial(tput: real, w: seq<Window>, v: Measured) returns (found: bool)
      requires Valid() && |w| == |pools|
      modifies this`pools
      ensures Valid() && WindowOk(old(pools), pools)
      ensures found == !NoneInFlight(old(pools))
      ensures if found then Advanced(old(pools), tput, w, v, pools) else pools == old(pools)
    {
      var i: nat := 0;
      while i < |pools|
        invariant i <= |pools| && pools == old(pools) && FirstTrial(pools, 0) == FirstTrial(pools, i)
        invariant forall k | 0 <= k < i :: pools[k].trial == NoTrial
      {
        if pools[i].trial != NoTrial {
          AdvanceKeeps(pools, i, w[i].settled, tput, v);
          pools := pools[i := TrialStep(pools[i], w[i].settled, tput, v)];
          return true;
        }
        i := i + 1;
      }
      found := false;
    }

    /** A pool whose last step gained goes next, without the rest window. */
    method StartMomentum(w: seq<Window>, st: Stats) returns (started: bool)
      requires Valid() && |w| == |pools| && NoneInFlight(pools)
      modifies this`pools
      ensures Valid() && WindowOk(old(pools), pools)
      ensures started <==> FirstReady(old(pools), w, 0) < |old(pools)|
      ensures if started then BegunReady(old(pools), w, st, pools) else pools == old(pools)
    {
      var i: nat := 0;
      while i < |pools|
        invariant i <= |pools| && pools == old(pools) && FirstReady(pools, w, 0) == FirstReady(pools, w, i)
      {
        if HasMomentum(pools[i]) && pools[i].windowsSinceChange >= 1 {
          started := StartTrial(i, w, st);
          if started {
            return;
          }
        }
        i := i + 1;
      }
      started := false;
    }

    /** The turn of the pool i places on. */
    method TryTurn(i: nat, w: seq<Window>, st: Stats) returns (started: bool)
      requires Valid() && |w| == |pools| && NoneInFlight(pools) && i < |pools|
      modifies this
      ensures Valid() && WindowOk(old(pools), pools) && started == ReadyInTurn(old(pools), w, old(nextPool), i)
      ensures if started then BegunAt(old(pools), old(nextPool), w, st, i, pools) && nextPool == Turn(old(nextPool) + i + 1, |pools|)
              else pools == old(pools) && nextPool == old(nextPool)
    {
      var k := Turn(nextPool + i, |pools|);
      started := false;
      if pools[k].windowsSinceChange >= 2 {
        started := StartTrial(k, w, st);
        if started {
          nextPool := Turn(nextPool + i + 1, |pools|);
        }
      }
    }

    /** Otherwise pools are taken in turn, each resting a window after a kept change. */
    method StartInTurn(w: seq<Window>, st: Stats)
      requires Valid() && |w| == |pools| && NoneInFlight(pools)
      modifies this
      ensures Valid() && WindowOk(old(pools), pools)
      ensures BegunInTurn(old(pools), old(nextPool), w, st, pools)
    {
      var i: nat := 0;
      while i < |pools|
        invariant i <= |pools| && pools == old(pools) && nextPool == old(nextPool)
        invariant FirstInTurn(pools, w, nextPool, 0) == FirstInTurn(pools, w, nextPool, i)
      {
        var started := TryTurn(i, w, st);
        if started {
          return;
        }
        i := i + 1;
      }
      SameWindow(pools);
    }

    /** One change per window: a pool with momentum, or else the next in turn. */
    method BeginTrial(w: seq<Window>, st: Stats)
      requires Valid() && |w| == |pools| && NoneInFlight(pools)
      modifies this
      ensures Valid() && WindowOk(old(pools), pools) && Begun(old(pools), old(nextPool), w, st, pools)
    {
      var started := StartMomentum(w, st);
      if !started {
        StartInTurn(w, st);
      }
    }

    /** One decision window: the trial in flight moves on, or one trial starts, or nothing changes size. */
    method Decide(tput: real, w: seq<Window>, st: Stats, v: Measured)
      requires Valid() && |w| == |pools|
      modifies this
      ensures Valid() && WindowOk(old(pools), pools)
      ensures Decided(old(pools), old(nextPool), tput, w, st, v, pools)
    {
      var steady := CloseWindows(tput, w);
      var found := AdvanceTrial(tput, w, v);
      if !found && st.calm {
        BeginTrial(w, st);
      }
    }
  }

  // ---- A pool replicated per shard ----

  ghost predicate Even(sizes: seq<nat>, per: nat) {
    forall k | 0 <= k < |sizes| :: sizes[k] == per
  }

  function Total(sizes: seq<nat>): nat {
    if sizes == [] then 0 else Total(sizes[..|sizes| - 1]) + sizes[|sizes| - 1]
  }

  lemma {:induction false} EvenTotal(sizes: seq<nat>, per: nat)
    requires Even(sizes, per)
    ensures Total(sizes) == |sizes| * per
  {
    if sizes != [] {
      var n := |sizes| - 1;
      EvenTotal(sizes[..n], per);
      OneMore(n, per);
    }
  }

  lemma OneMore(n: nat, per: nat)
    ensures (n + 1) * per == n * per + per
  {}

  class ShardedPoolGroup {
    const sizes: array<nat>
    const spare: nat                     // threads a shard never retires
    ghost var per: nat                   // threads in each shard

    ghost predicate Valid()
      reads this, sizes
    {
      sizes.Length >= 1 && Even(sizes[..], per)
    }

    constructor (shards: nat, each: nat, spare: nat)
      requires shards >= 1
      ensures Valid() && fresh(sizes) && sizes.Length == shards && per == each && this.spare == spare
    {
      this.spare := spare;
      sizes := new nat[shards](i => each);
      per := each;
    }

    method Size() returns (n: nat)
      requires Valid()
      ensures n == sizes.Length * per
    {
      n := 0;
      var i: nat := 0;
      while i < sizes.Length
        invariant i <= sizes.Length && n == Total(sizes[..i])
      {
        assert sizes[..i + 1][..i] == sizes[..i];
        n := n + sizes[i];
        i := i + 1;
      }
      assert sizes[..i] == sizes[..];
      EvenTotal(sizes[..], per);
    }

    /** The total grows as the tuner reckons. */
    method Grow(n: nat)
      requires Valid()
      modifies this, sizes
      ensures Valid() && sizes.Length * per == Grown(sizes.Length * old(per), sizes.Length, n)
    {
      var each := Larger(1, n / sizes.Length);
      var i: nat := 0;
      while i < sizes.Length
        invariant i <= sizes.Length
        invariant forall k | 0 <= k < i :: sizes[k] == old(sizes[k]) + each
        invariant forall k | i <= k < sizes.Length :: sizes[k] == old(sizes[k])
        modifies sizes
      {
        sizes[i] := sizes[i] + each;
        i := i + 1;
      }
      Distribute(sizes.Length, per, each);
      per := per + each;
    }

    /** The total shrinks as the tuner reckons; a shard never retires its spare thread. */
    method Shrink(n: nat)
      requires Valid()
      modifies this, sizes
      ensures Valid() && sizes.Length * per == Shrunk(sizes.Length * old(per), sizes.Length, n, spare)
    {
      var each := Larger(1, n / sizes.Length);
      var i: nat := 0;
      while i < sizes.Length
        invariant i <= sizes.Length
        invariant forall k | 0 <= k < i :: sizes[k] == old(sizes[k]) - Retired(old(sizes[k]), each, spare)
        invariant forall k | i <= k < sizes.Length :: sizes[k] == old(sizes[k])
        modifies sizes
      {
        sizes[i] := sizes[i] - Retired(sizes[i], each, spare);
        i := i + 1;
      }
      ghost var gone := Retired(per, each, spare);
      PerOf(sizes.Length, per);
      Distribute(sizes.Length, per - gone, gone);
      per := per - gone;
    }
  }

  lemma Distribute(shards: nat, a: nat, b: nat)
    ensures shards * (a + b) == shards * a + shards * b
  {}

  lemma PerOf(shards: nat, per: nat)
    requires shards >= 1
    ensures shards * per / shards == per
  {
    MultIs(per, shards);
  }
}
