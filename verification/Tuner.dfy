/**
 The thread tuner (server/tuner.cc, server/tuner.h): it changes one pool at a
 time, waits, and keeps the change only if throughput responded. Floating-point
 values are reals. The steady-window statistics (level, noise, trend) and the
 pools' measurements are inputs: what is proved holds whatever they are. Pool
 sizes and bounds are multiples of the pool's step, and every shard keeps a
 thread.
 */
module Tuners {
  import opened Arithmetic

  // TunerConfig's defaults
  const HIGH_BUSY: real := 0.80
  const MIN_GAIN: real := 0.01
  const GROW_FLOOR: real := 0.006
  const SHRINK_FLOOR: real := 0.003
  const MAX_ALLOW: real := 0.02
  const PEGGED_BUSY: real := 0.95
  const IDLE_BUSY: real := 0.02
  const RAMP_BUSY: real := 0.90
  const RAMP_AFTER: nat := 2
  const SETTLE_WINDOWS: nat := 1
  const MAX_SETTLE: nat := 15
  const FIRST_BACKOFF: nat := 8
  const MAX_BACKOFF: nat := 256
  const LOAD_CHANGE_TPUT: real := 0.10
  const LOAD_CHANGE_BUSY: real := 0.15

  datatype Trial = NoTrial | Grow | Shrink

  /** One direction of one pool; `fails` counts its reverts since a keep or a back-off, the first of size `first`. */
  datatype Direction = Direction(
    cap: nat, backoff: nat, nextBackoff: nat, keptStreak: nat, streakRef: real, lastGained: bool,
    tputAtFail: real, busyAtFail: real, fails: nat, first: nat)

  /** `spare` threads of each shard are never retired: one of writers and IO loops, none of readers. */
  datatype Pool = Pool(
    size: nat, step: nat, min: nat, max: nat, spare: nat,
    trial: Trial, sizeBefore: nat, noise: real, measure: nat, measured: nat, refTput: real, busyBefore: real,
    windowsSinceChange: nat, settledWindows: nat, shrinkScale: real, lastTrialGrew: bool,
    grow: Direction, shrink: Direction)

  // ---- Verdicts ----

  function Max(a: real, b: real): real { if a >= b then a else b }
  function Min(a: real, b: real): real { if a <= b then a else b }

  /** What a grow must gain, at noise `tol`; root2 is the square root of two. */
  function Margin(tol: real, root2: real): real { Max(GROW_FLOOR, 2.0 * root2 * tol) }

  /** What a shrink may lose. */
  function Allow(tol: real, root2: real): real { Max(SHRINK_FLOOR, Min(root2 * tol, MAX_ALLOW)) }

  predicate KeepsGrow(ratio: real, tol: real, root2: real) {
    ratio >= 1.0 + Margin(tol, root2)
  }

  predicate KeepsShrink(ratio: real, streakRatio: real, tol: real, root2: real) {
    ratio >= 1.0 - Allow(tol, root2) && streakRatio >= 1.0 - Allow(tol, root2)
  }

  type Positive = r: real | r > 0.0 witness 1.0

  predicate IsRoot(r: real, n: nat) { r > 0.0 && r * r == n as real }

  predicate IsRoot2(r: real) { IsRoot(r, 2) }

  /** The noise of a median over `measure` windows; root is the square root of that number. */
  function Tolerance(noise: real, root: Positive): real { noise / root }

  lemma MarginBeatsAllow(x: real)
    requires x >= 0.0
    ensures var m, a := Max(GROW_FLOOR, 2.0 * x), Max(SHRINK_FLOOR, Min(x, MAX_ALLOW)); (1.0 + m) * (1.0 - a) > 1.0
  {
    if x <= SHRINK_FLOOR {
    } else if x <= MAX_ALLOW {
      assert (1.0 + 2.0 * x) * (1.0 - x) == 1.0 + x * (1.0 - 2.0 * x);
    }
  }

  lemma SmallerRoot(r: real, q: real, m: nat, n: nat)
    requires IsRoot(r, m) && IsRoot(q, n) && m <= n
    ensures r <= q
  {
    assert (q - r) * (q + r) == q * q - r * r;
  }

  lemma QuotientFalls(x: real, r: real, q: real)
    requires x >= 0.0 && 0.0 < r <= q
    ensures x / q <= x / r
  {
    var a, b := x / r, x / q;
    assert a * r == x && b * q == x;
    assert b * (q - r) >= 0.0;
    assert (a - b) * r >= 0.0;
  }

  /** A larger step is measured over no more windows: the reverse of a grow over no fewer than the grow. */
  lemma MeasureGrows(n: nat, size: nat, noise: real)
    requires size >= 1
    ensures Measure(n, size, noise) <= Measure(n, size + n, noise)
  {
    QuotientFalls(n as real, size as real, (size + n) as real);
  }

  lemma AllowGrows(x: real, y: real, root2: real)
    requires x <= y && root2 > 0.0
    ensures Allow(x, root2) <= Allow(y, root2)
  {
    assert root2 * (y - x) >= 0.0;
  }

  /**
   A grow by n threads and the shrink back see reciprocal ratios. Whatever the noise, and although
   each is judged at the tolerance of its own number of windows, they are never both kept.
   */
  lemma NeverBothKept(before: real, after: real, streakRatio: real, noise: real, n: nat, size: nat,
                      rootGrow: real, rootShrink: real, root2: real)
    requires before > 0.0 && after > 0.0 && noise >= 0.0 && size >= 1 && IsRoot2(root2)
    requires IsRoot(rootGrow, Measure(n, size, noise)) && IsRoot(rootShrink, Measure(n, size + n, noise))
    ensures !(KeepsGrow(after / before, Tolerance(noise, rootGrow), root2)
              && KeepsShrink(before / after, streakRatio, Tolerance(noise, rootShrink), root2))
  {
    MeasureGrows(n, size, noise);
    SmallerRoot(rootGrow, rootShrink, Measure(n, size, noise), Measure(n, size + n, noise));
    QuotientFalls(noise, rootGrow, rootShrink);
    ThresholdsApart(Tolerance(noise, rootGrow), Tolerance(noise, rootShrink), root2);
    BothKeptIff(before, after, Margin(Tolerance(noise, rootGrow), root2), Allow(Tolerance(noise, rootShrink), root2));
  }

  /** A shrink judged at no more tolerance than the grow cannot lose what the grow must gain. */
  lemma ThresholdsApart(tolGrow: real, tolShrink: real, root2: real)
    requires 0.0 <= tolShrink <= tolGrow && root2 > 0.0
    ensures (1.0 + Margin(tolGrow, root2)) * (1.0 - Allow(tolShrink, root2)) > 1.0
  {
    AllowGrows(tolShrink, tolGrow, root2);
    assert root2 * tolGrow >= 0.0 && 2.0 * root2 * tolGrow == 2.0 * (root2 * tolGrow);
    MarginBeatsAllow(root2 * tolGrow);
    LowerAllow(Margin(tolGrow, root2), Allow(tolGrow, root2), Allow(tolShrink, root2));
  }

  lemma LowerAllow(m: real, a: real, b: real)
    requires m >= 0.0 && b <= a && (1.0 + m) * (1.0 - a) > 1.0
    ensures (1.0 + m) * (1.0 - b) > 1.0
  {
    assert (1.0 + m) * (a - b) >= 0.0;
  }

  lemma BothKeptIff(before: real, after: real, m: real, a: real)
    requires before > 0.0 && after > 0.0 && m >= 0.0 && a < 1.0
    ensures after / before >= 1.0 + m && before / after >= 1.0 - a ==> (1.0 + m) * (1.0 - a) <= 1.0
  {
    var r, q := after / before, before / after;
    assert r * q == 1.0 by {
      assert r * before == after;
      assert q * after == before;
      Reciprocal(before, after, r, q);
    }
    if r >= 1.0 + m && q >= 1.0 - a {
      ProductBelow(1.0 + m, 1.0 - a, r, q);
    }
  }

  lemma Reciprocal(b: real, a: real, r: real, q: real)
    requires b > 0.0 && r * b == a && q * a == b
    ensures r * q == 1.0
  {
    assert q * (r * b) == b;
    assert (q * r - 1.0) * b == 0.0;
  }

  lemma ProductBelow(x: real, y: real, r: real, q: real)
    requires 0.0 < x <= r && 0.0 < y <= q
    ensures x * y <= r * q
  {
    assert (r - x) * q >= 0.0;
    assert x * (q - y) >= 0.0;
  }

  /** Some step can be kept as a grow at one noise level and its reverse at another exactly when the thresholds meet. */
  lemma CrossNoise(tolGrow: real, tolShrink: real, root2: real)
    requires tolGrow >= 0.0 && tolShrink >= 0.0 && IsRoot2(root2)
    ensures (exists r: real :: r > 0.0 && KeepsGrow(r, tolGrow, root2) && KeepsShrink(1.0 / r, 1.0 / r, tolShrink, root2))
      <==> (1.0 + Margin(tolGrow, root2)) * (1.0 - Allow(tolShrink, root2)) <= 1.0
  {
    var m, a := Margin(tolGrow, root2), Allow(tolShrink, root2);
    if (1.0 + m) * (1.0 - a) <= 1.0 {
      var r := 1.0 + m;
      InverseAtLeast(r, 1.0 - a);
      assert r > 0.0 && KeepsGrow(r, tolGrow, root2) && KeepsShrink(1.0 / r, 1.0 / r, tolShrink, root2);
    }
    forall r: real | r > 0.0 && KeepsGrow(r, tolGrow, root2) && KeepsShrink(1.0 / r, 1.0 / r, tolShrink, root2)
      ensures (1.0 + m) * (1.0 - a) <= 1.0
    {
      assert r / 1.0 == r;
      BothKeptIff(1.0, r, m, a);
    }
  }

  lemma InverseAtLeast(r: real, y: real)
    requires r > 0.0 && r * y <= 1.0
    ensures 1.0 / r >= y
  {
    var q := 1.0 / r;
    assert q * r == 1.0;
    if q < y {
      assert (y - q) * r > 0.0;
    }
  }

  /** And they can meet: a grow judged without noise, its reverse judged with two percent. */
  lemma CrossNoiseMeets(root2: real)
    requires IsRoot2(root2)
    ensures (1.0 + Margin(0.0, root2)) * (1.0 - Allow(0.02, root2)) <= 1.0
  {
    assert root2 >= 1.0 by {
      if root2 < 1.0 { ProductBelow(root2, root2, 1.0, 1.0); }
    }
  }

  // ---- Multiples of the step ----

  predicate Mult(n: nat, step: nat)
    requires step >= 1
  {
    n % step == 0
  }

  function Steps(n: nat, step: nat): nat
    requires step >= 1
  {
    n / step
  }

  // ---- What a pool does when asked to grow or shrink by n ----

  /** Threads a shard retires when asked for n. */
  function Retired(live: nat, n: nat, spare: nat): (r: nat)
    ensures r <= live && (live >= spare ==> live - r >= spare)
  {
    Smaller(n, if live > spare then live - spare else 0)
  }

  function PerShard(n: nat, step: nat): (r: nat)
    requires step >= 1
    ensures r >= 1
  {
    Larger(1, n / step)
  }

  /** Every shard gets its share of n, at least one. */
  function Grown(size: nat, step: nat, n: nat): nat
    requires step >= 1
  {
    size + step * PerShard(n, step)
  }

  /** Every shard retires its share of n, at least one, as far as it may. */
  function Shrunk(size: nat, step: nat, n: nat, spare: nat): nat
    requires step >= 1
  {
    Covers(size, step, Retired(size / step, PerShard(n, step), spare));
    size - step * Retired(size / step, PerShard(n, step), spare)
  }

  lemma Covers(size: nat, step: nat, r: nat)
    requires step >= 1 && r <= size / step
    ensures step * r <= size
  {
    var q := size / step;
    assert step * q <= size;
    assert step * (q - r) >= 0;
  }

  lemma GrownExactly(size: nat, step: nat, n: nat)
    requires step >= 1 && Mult(n, step) && n > 0
    ensures Grown(size, step, n) == size + n
  {
    MultAtLeast(n, step);
  }

  /** Whole steps that leave every shard its spare thread are retired exactly. */
  lemma ShrunkExactly(size: nat, step: nat, n: nat, spare: nat)
    requires step >= 1 && Mult(size, step) && Mult(n, step) && n > 0 && spare <= 1 && n < size
    ensures Shrunk(size, step, n, spare) == size - n
  {
    MultAtLeast(n, step);
    var q, r := size / step, n / step;
    assert size == q * step && n == r * step;
    assert r < q by { Cancel(r + 1, q, step); }
  }

  function RoundToStep(n: nat, step: nat): nat
    requires step >= 1
  {
    n / step * step
  }

  lemma MultIs(q: nat, step: nat)
    requires step >= 1
    ensures Mult(q * step, step) && q * step / step == q
  {
    QuotientIs(q * step, step, q);
  }

  lemma RoundIs(n: nat, step: nat)
    requires step >= 1
    ensures Mult(RoundToStep(n, step), step) && RoundToStep(n, step) <= n
  {
    MultIs(n / step, step);
  }

  lemma MultSum(a: nat, b: nat, step: nat)
    requires step >= 1 && Mult(a, step) && Mult(b, step)
    ensures Mult(a + b, step) && (a >= b ==> Mult(a - b, step))
  {
    var p, q := a / step, b / step;
    assert a == p * step && b == q * step;
    MultsAdd(p, q, step);
    if a >= b {
      Cancel(q, p, step);
      MultsAdd(p - q, q, step);
    }
  }

  lemma MultsAdd(p: nat, q: nat, step: nat)
    requires step >= 1
    ensures p * step + q * step == (p + q) * step && Mult(p * step + q * step, step) && Mult(p * step, step)
  {
    MultIs(p + q, step);
    MultIs(p, step);
  }

  lemma MultAtLeast(n: nat, step: nat)
    requires step >= 1 && Mult(n, step) && n > 0
    ensures n >= step && n / step >= 1
  {
    var q := n / step;
    assert n == q * step;
    assert q >= 1;
    Cancel(1, q, step);
    assert q * step >= step by { assert (q - 1) * step >= 0; }
  }

  // ---- Halving ----

  /** How often a step count can be halved, down to and including one. */
  function Halvings(q: nat): (r: nat)
    ensures q >= 1 ==> r >= 1
  {
    if q == 0 then 0 else 1 + Halvings(q / 2)
  }

  /** It is one more than the whole part of the binary logarithm. */
  lemma {:induction false} HalvingsIsLog(q: nat)
    requires q >= 1
    ensures Pow2(Halvings(q) - 1) <= q < Pow2(Halvings(q))
  {
    if q > 1 {
      HalvingsIsLog(q / 2);
    } else {
      assert Halvings(1) == 1 && Pow2(0) == 1 && Pow2(1) == 2;
    }
  }

  lemma {:induction false} HalvingsGrows(p: nat, q: nat)
    requires p <= q
    ensures Halvings(p) <= Halvings(q)
  {
    if p > 0 { HalvingsGrows(p / 2, q / 2); }
  }

  lemma HalfOf(q: nat, step: nat)
    requires step >= 1
    ensures (q * step / 2) / step == q / 2
  {
    var h := q / 2;
    assert q * step / 2 >= h * step && q * step / 2 < h * step + step by {
      assert q == 2 * h || q == 2 * h + 1;
      assert (2 * h) * step == 2 * (h * step) && (2 * h + 1) * step == 2 * (h * step) + step;
    }
    QuotientIs(q * step / 2, step, h);
  }

  /** The step allowed after a revert of more than one step takes one halving off what is left. */
  lemma HalvedCap(delta: nat, step: nat)
    requires step >= 1 && Mult(delta, step) && delta > step
    ensures var half := RoundToStep(delta / 2, step);
      var cap := if step >= half then step else half;
      Mult(cap, step) && cap >= step && 1 + Halvings(Steps(cap, step)) <= Halvings(Steps(delta, step))
  {
    var q := delta / step;
    assert delta == q * step;
    MultAtLeast(delta, step);
    Cancel(2, q, step);
    HalfOf(q, step);
    RoundIs(delta / 2, step);
    MultIs(1, step);
    MultIs(q / 2, step);
    assert Halvings(q) == 1 + Halvings(q / 2) && q / 2 >= 1;
    HalvingsGrows(1, q / 2);
  }

  // ---- Starting a trial ----

  datatype Plan = NoPlan | Plan(grew: bool, n: nat)

  function Dir(p: Pool, grew: bool): Direction { if grew then p.grow else p.shrink }

  predicate ProbeShrink(p: Pool, busy: real) {
    busy > HIGH_BUSY && p.lastTrialGrew && !p.grow.lastGained && p.shrink.backoff == 0 && p.size > p.min
  }

  predicate WantGrow(p: Pool, busy: real) {
    !ProbeShrink(p, busy) && busy > HIGH_BUSY && p.grow.backoff == 0 && p.size < p.max
  }

  predicate WantShrink(p: Pool, busy: real) {
    && !WantGrow(p, busy) && p.shrink.backoff == 0 && p.size > p.min
    && (busy <= HIGH_BUSY || p.grow.backoff > 0 || ProbeShrink(p, busy))
  }

  function Larger(a: nat, b: nat): nat { if a >= b then a else b }
  function Smaller(a: nat, b: nat): nat { if a <= b then a else b }

  /** A quarter of the pool, more on a streak, no more than the direction's cap. */
  function BaseStep(p: Pool, grew: bool, busy: real): nat
    requires p.step >= 1
  {
    var d := Dir(p, grew);
    var quarter := Larger(p.step, RoundToStep(p.size / 4, p.step));
    var ramping := d.keptStreak >= RAMP_AFTER && if grew then busy >= RAMP_BUSY else d.lastGained;
    var mult := if grew && d.keptStreak >= RAMP_AFTER + 1 then 4 else 2;
    var n := if ramping then Larger(quarter, RoundToStep(p.size / 4 * mult, p.step)) else quarter;
    if d.cap > 0 then Smaller(n, d.cap) else n
  }

  function GrowStep(p: Pool, busy: real): nat
    requires p.step >= 1 && p.size <= p.max
  {
    Smaller(BaseStep(p, true, busy), p.max - p.size)
  }

  function ShrinkStep(p: Pool, busy: real): nat
    requires p.step >= 1 && p.min <= p.size
  {
    var n := Smaller(BaseStep(p, false, busy), p.size - p.min);
    if busy >= PEGGED_BUSY && !p.shrink.lastGained then Smaller(n, RoundToStep(p.size / 4, p.step)) else n
  }

  /** The busy fraction to expect after a shrink by n. */
  function Projected(b: real, size: nat, n: nat): real
    requires n < size
  {
    b * size as real / (size - n) as real
  }

  /** Smaller shrinks while one would just ask to grow again. */
  function Soften(n: nat, step: nat, b: real, size: nat): (r: nat)
    requires step >= 1 && n < size
    ensures r <= n
    decreases n
  {
    if n > step && TooBusy(b, size, n) then Soften(n - step, step, b, size) else n
  }

  predicate TooBusy(b: real, size: nat, n: nat)
    requires n < size
  {
    Projected(b, size, n) >= HIGH_BUSY
  }

  /** q is one of n, n - step, n - 2 * step and so on. */
  ghost predicate Tried(n: nat, step: nat, q: nat)
    requires step >= 1
  {
    q <= n && Mult(n - q, step)
  }

  /** Every one of them above m is over a step and would leave the pool too busy. */
  ghost predicate PassedOver(n: nat, step: nat, b: real, size: nat, m: nat)
    requires step >= 1 && n < size
  {
    forall q: nat | Tried(n, step, q) && m < q :: q > step && TooBusy(b, size, q)
  }

  /** m is the first of them that is one step at most or would not. */
  ghost predicate IsSoftened(n: nat, step: nat, b: real, size: nat, m: nat)
    requires step >= 1 && n < size
  {
    Tried(n, step, m) && PassedOver(n, step, b, size, m) && (m <= step || !TooBusy(b, size, m))
  }

  lemma NoneBetween(d: nat, step: nat)
    requires step >= 1 && Mult(d, step) && d < step
    ensures d == 0
  {}

  lemma PassOne(n: nat, step: nat, b: real, size: nat, m: nat)
    requires 1 <= step < m && n < size && Tried(n, step, m) && PassedOver(n, step, b, size, m) && TooBusy(b, size, m)
    ensures Tried(n, step, m - step) && PassedOver(n, step, b, size, m - step)
  {
    MultIs(1, step);
    MultSum(n - m, step, step);
    assert n - (m - step) == n - m + step;
    forall q: nat | Tried(n, step, q) && m - step < q ensures q > step && TooBusy(b, size, q) {
      if q <= m {
        MultSum(n - q, n - m, step);
        NoneBetween(m - q, step);
      }
    }
  }

  method SoftenShrink(n: nat, step: nat, b: real, size: nat) returns (m: nat)
    requires step >= 1 && n < size
    ensures IsSoftened(n, step, b, size, m) && m == Soften(n, step, b, size)
  {
    m := n;
    while m > step && TooBusy(b, size, m)
      invariant Tried(n, step, m) && PassedOver(n, step, b, size, m)
      invariant Soften(m, step, b, size) == Soften(n, step, b, size)
    {
      PassOne(n, step, b, size, m);
      m := m - step;
    }
  }

  /** The plan as startTrial computes it. */
  method PlanTrial(p: Pool, busy: real) returns (plan: Plan)
    requires p.step >= 1 && 1 <= p.min <= p.size <= p.max
    ensures plan == MakePlan(p, busy)
  {
    if WantGrow(p, busy) {
      var n := GrowStep(p, busy);
      return if n == 0 then NoPlan else Plan(true, n);
    }
    if !WantShrink(p, busy) {
      return NoPlan;
    }
    var n := ShrinkStep(p, busy);
    if Guarded(p, busy) {
      var b := OwnBusy(p, busy);
      n := SoftenShrink(n, p.step, b, p.size);
      if TooBusy(b, p.size, n) {
        return NoPlan;
      }
    }
    return if n == 0 then NoPlan else Plan(false, n);
  }

  /** The shrink guard is off once growing has failed, a shrink has gained, or this is a probe. */
  predicate Guarded(p: Pool, busy: real) {
    p.grow.backoff == 0 && !p.shrink.lastGained && !ProbeShrink(p, busy)
  }

  /** Busy as far as earlier shrinks of this pool showed it to be its own. */
  function OwnBusy(p: Pool, busy: real): real { busy * p.shrinkScale }

  function SoftenedStep(p: Pool, busy: real): (m: nat)
    requires p.step >= 1 && 1 <= p.min <= p.size
    ensures m <= ShrinkStep(p, busy)
  {
    if Guarded(p, busy) then Soften(ShrinkStep(p, busy), p.step, OwnBusy(p, busy), p.size) else ShrinkStep(p, busy)
  }

  predicate StillTooBusy(p: Pool, busy: real)
    requires p.step >= 1 && 1 <= p.min <= p.size
  {
    Guarded(p, busy) && TooBusy(OwnBusy(p, busy), p.size, SoftenedStep(p, busy))
  }

  function MakePlan(p: Pool, busy: real): Plan
    requires p.step >= 1 && 1 <= p.min <= p.size <= p.max
  {
    if WantGrow(p, busy) then
      if GrowStep(p, busy) == 0 then NoPlan else Plan(true, GrowStep(p, busy))
    else if WantShrink(p, busy) && SoftenedStep(p, busy) != 0 && !StillTooBusy(p, busy) then
      Plan(false, SoftenedStep(p, busy))
    else NoPlan
  }

  /** More windows for a small step or a noisy load. */
  function Measure(n: nat, size: nat, noise: real): (m: nat)
    requires size >= 1
    ensures 2 <= m <= 8
  {
    var m := if n as real / size as real < 2.0 * MIN_GAIN then 4 else 2;
    if noise > MIN_GAIN then
      var want := -((-(noise / MIN_GAIN)).Floor);
      if want > 8 then 8 else if want > m then want else m
    else m
  }

  function Started(p: Pool, plan: Plan, busy: real, level: real, noise: real): Pool
    requires plan.Plan? && p.size >= 1 && p.step >= 1
  {
    p.(trial := if plan.grew then Grow else Shrink, sizeBefore := p.size,
       size := if plan.grew then Grown(p.size, p.step, plan.n) else Shrunk(p.size, p.step, plan.n, p.spare),
       noise := noise, measure := Measure(plan.n, p.size, noise), measured := 0, refTput := level, busyBefore := busy,
       windowsSinceChange := 0, settledWindows := 0)
  }

  // ---- What holds of a pool ----

  /** Reverts so far and halvings left never exceed what the first revert allowed. */
  ghost predicate DirOk(d: Direction, step: nat)
    requires step >= 1
  {
    && Mult(d.cap, step)
    && d.backoff <= MAX_BACKOFF && d.nextBackoff <= MAX_BACKOFF
    && (d.fails > 0 ==>
         d.cap >= step && Mult(d.first, step) && d.first >= step && d.fails + Halvings(Steps(d.cap, step)) <= Halvings(Steps(d.first, step)))
  }

  ghost predicate SizesOk(p: Pool) {
    && p.step >= 1 && Mult(p.size, p.step) && Mult(p.min, p.step) && Mult(p.max, p.step)
    && p.step <= p.min <= p.size <= p.max && p.spare <= 1
  }

  /** The change under trial: in bounds before and after, a whole number of steps, within the cap. */
  ghost predicate TrialOk(p: Pool)
    requires p.step >= 1 && p.min >= 1
  {
    && Mult(p.sizeBefore, p.step) && p.min <= p.sizeBefore <= p.max
    && (p.trial == Grow ==> p.sizeBefore < p.size && (p.grow.cap > 0 ==> p.size - p.sizeBefore <= p.grow.cap))
    && (p.trial == Shrink ==> p.size < p.sizeBefore && (p.shrink.cap > 0 ==> p.sizeBefore - p.size <= p.shrink.cap))
    && (p.trial != NoTrial ==> p.measure == Measure(Delta(p), p.sizeBefore, p.noise))
  }

  ghost predicate PoolOk(p: Pool) {
    SizesOk(p) && DirOk(p.grow, p.step) && DirOk(p.shrink, p.step) && (p.trial != NoTrial ==> TrialOk(p))
  }

  lemma BaseStepOk(p: Pool, grew: bool, busy: real)
    requires PoolOk(p)
    ensures Mult(BaseStep(p, grew, busy), p.step)
    ensures Dir(p, grew).cap > 0 ==> BaseStep(p, grew, busy) <= Dir(p, grew).cap
  {
    RoundIs(p.size / 4, p.step);
    RoundIs(p.size / 4 * 2, p.step);
    RoundIs(p.size / 4 * 4, p.step);
    MultIs(1, p.step);
  }

  lemma {:induction false} SoftenOk(n: nat, step: nat, b: real, size: nat)
    requires step >= 1 && n < size && Mult(n, step)
    ensures Mult(Soften(n, step, b, size), step)
    decreases n
  {
    if n > step && TooBusy(b, size, n) {
      MultIs(1, step);
      MultSum(n, step, step);
      SoftenOk(n - step, step, b, size);
    }
  }

  lemma StepsOk(p: Pool, busy: real)
    requires PoolOk(p)
    ensures Mult(GrowStep(p, busy), p.step) && Mult(ShrinkStep(p, busy), p.step)
    ensures GrowStep(p, busy) <= p.max - p.size && ShrinkStep(p, busy) <= p.size - p.min
    ensures p.grow.cap > 0 ==> GrowStep(p, busy) <= p.grow.cap
    ensures p.shrink.cap > 0 ==> ShrinkStep(p, busy) <= p.shrink.cap
  {
    BaseStepOk(p, true, busy);
    BaseStepOk(p, false, busy);
    MultSum(p.max, p.size, p.step);
    MultSum(p.size, p.min, p.step);
    RoundIs(p.size / 4, p.step);
  }

  lemma SoftenedOk(p: Pool, busy: real)
    requires PoolOk(p)
    ensures Mult(SoftenedStep(p, busy), p.step)
  {
    StepsOk(p, busy);
    if Guarded(p, busy) {
      assert SoftenedStep(p, busy) == Soften(ShrinkStep(p, busy), p.step, OwnBusy(p, busy), p.size);
      SoftenOk(ShrinkStep(p, busy), p.step, OwnBusy(p, busy), p.size);
    }
  }

  /** A plan is a whole number of steps, stays in bounds and respects the cap a revert left. */
  lemma PlanOk(p: Pool, busy: real)
    requires PoolOk(p)
    ensures var plan := MakePlan(p, busy);
      plan.Plan? ==>
        && plan.n > 0 && Mult(plan.n, p.step) && (Dir(p, plan.grew).cap > 0 ==> plan.n <= Dir(p, plan.grew).cap)
        && (if plan.grew then p.size + plan.n <= p.max else p.min + plan.n <= p.size)
  {
    StepsOk(p, busy);
    SoftenedOk(p, busy);
  }

  lemma BaseStepAtMost(p: Pool, grew: bool, busy: real)
    requires p.step >= 1
    ensures BaseStep(p, grew, busy) <= Larger(p.step, if grew then p.size else p.size / 2)
  {
    RoundIs(p.size / 4, p.step);
    RoundIs(p.size / 4 * 2, p.step);
    RoundIs(p.size / 4 * 4, p.step);
  }

  /**
   A direction in back-off is not tried. A grow is of a busy pool and at most doubles it; a shrink
   takes at most half, a quarter of a pegged pool, and while the guard is on never goes where the
   pool would just ask to grow again.
   */
  lemma PlanRestrained(p: Pool, busy: real)
    requires PoolOk(p)
    ensures var plan := MakePlan(p, busy);
      plan.Plan? ==>
        && Dir(p, plan.grew).backoff == 0
        && (plan.grew ==> busy > HIGH_BUSY && plan.n <= Larger(p.step, p.size))
        && (!plan.grew ==> plan.n <= Larger(p.step, p.size / 2) && plan.n < p.size)
        && (!plan.grew && busy >= PEGGED_BUSY && !p.shrink.lastGained ==> plan.n <= p.size / 4)
        && (!plan.grew && Guarded(p, busy) ==> Projected(OwnBusy(p, busy), p.size, plan.n) < HIGH_BUSY)
  {
    BaseStepAtMost(p, true, busy);
    BaseStepAtMost(p, false, busy);
    RoundIs(p.size / 4, p.step);
    StepsOk(p, busy);
  }

  lemma StartedOk(p: Pool, busy: real, level: real, noise: real)
    requires PoolOk(p) && MakePlan(p, busy).Plan?
    ensures PoolOk(Started(p, MakePlan(p, busy), busy, level, noise))
  {
    var plan := MakePlan(p, busy);
    PlanOk(p, busy);
    MultSum(p.size, plan.n, p.step);
    if plan.grew {
      GrownExactly(p.size, p.step, plan.n);
    } else {
      ShrunkExactly(p.size, p.step, plan.n, p.spare);
    }
  }

  // ---- The verdict ----

  /**
   What the measurement says: throughput against its reference and against the start of the
   streak; root is the square root of the number of windows measured, root2 that of two.
   */
  datatype Measured = Measured(ratio: real, streakRatio: real, root: Positive, root2: real, busyNow: real)

  predicate Keep(p: Pool, v: Measured) {
    var tol := Tolerance(p.noise, v.root);
    if p.refTput == 0.0 then p.trial != Grow
    else if p.trial != Grow && p.busyBefore < IDLE_BUSY then true
    else if p.trial == Grow then KeepsGrow(v.ratio, tol, v.root2)
    else KeepsShrink(v.ratio, v.streakRatio, tol, v.root2)
  }

  function Delta(p: Pool): nat
    requires p.trial == Grow ==> p.sizeBefore <= p.size
    requires p.trial != Grow ==> p.size <= p.sizeBefore
  {
    if p.trial == Grow then p.size - p.sizeBefore else p.sizeBefore - p.size
  }

  /** The size after the pool is asked to take the change back. */
  function Undone(p: Pool): nat
    requires p.step >= 1
    requires p.trial == Grow ==> p.sizeBefore <= p.size
    requires p.trial != Grow ==> p.size <= p.sizeBefore
  {
    if p.trial == Grow then Shrunk(p.size, p.step, Delta(p), p.spare) else Grown(p.size, p.step, Delta(p))
  }

  /** The pool's own rounding and its refusal to retire a last thread do not get in the way. */
  lemma UndoneExactly(p: Pool)
    requires PoolOk(p) && p.trial != NoTrial
    ensures Undone(p) == p.sizeBefore
  {
    MultSum(p.size, p.sizeBefore, p.step);
    MultSum(p.sizeBefore, p.size, p.step);
    if p.trial == Grow {
      ShrunkExactly(p.size, p.step, Delta(p), p.spare);
    } else {
      GrownExactly(p.size, p.step, Delta(p));
    }
  }

  function Kept(d: Direction, refTput: real, gained: bool): Direction {
    d.(cap := 0, nextBackoff := 0, keptStreak := d.keptStreak + 1, lastGained := gained,
       streakRef := if d.keptStreak == 0 then refTput else d.streakRef, fails := 0, first := 0)
  }

  /** Half the step next time; once the smallest fails, back off, twice as long each time. */
  function Reverted(d: Direction, delta: nat, step: nat, refTput: real, busyBefore: real): Direction
    requires step >= 1
  {
    var e := d.(keptStreak := 0, streakRef := 0.0, lastGained := false);
    if delta > step then
      e.(cap := Larger(step, RoundToStep(delta / 2, step)), fails := d.fails + 1, first := if d.fails == 0 then delta else d.first)
    else
      var wait := if d.nextBackoff == 0 then FIRST_BACKOFF else d.nextBackoff;
      e.(cap := step, backoff := wait, nextBackoff := Smaller(wait * 2, MAX_BACKOFF),
         tputAtFail := refTput, busyAtFail := busyBefore, fails := 0, first := 0)
  }

  function Scaled(p: Pool, keep: bool, busyNow: real): real {
    if keep && p.trial != Grow && p.busyBefore >= IDLE_BUSY && p.size > 0 then
      var projected := p.busyBefore * p.sizeBefore as real / p.size as real;
      if projected > 0.0 then 0.5 * p.shrinkScale + 0.5 * Max(0.1, Min(busyNow / projected, 1.0)) else p.shrinkScale
    else p.shrinkScale
  }

  function Judged(p: Pool, v: Measured): Pool
    requires p.step >= 1
    requires p.trial == Grow ==> p.sizeBefore <= p.size
    requires p.trial != Grow ==> p.size <= p.sizeBefore
  {
    var grew := p.trial == Grow;
    var keep := Keep(p, v);
    var d := if keep then Kept(Dir(p, grew), p.refTput, KeepsGrow(v.ratio, Tolerance(p.noise, v.root), v.root2))
             else Reverted(Dir(p, grew), Delta(p), p.step, p.refTput, p.busyBefore);
    p.(trial := NoTrial, windowsSinceChange := 0, lastTrialGrew := grew, shrinkScale := Scaled(p, keep, v.busyNow),
       size := if keep then p.size else Undone(p),
       grow := if grew then d else p.grow, shrink := if grew then p.shrink else d)
  }

  function Abandoned(p: Pool): Pool
    requires p.step >= 1
    requires p.trial == Grow ==> p.sizeBefore <= p.size
    requires p.trial != Grow ==> p.size <= p.sizeBefore
  {
    p.(size := Undone(p), trial := NoTrial, windowsSinceChange := 0, settledWindows := 0, measured := 0)
  }

  lemma RevertedOk(d: Direction, delta: nat, step: nat, refTput: real, busyBefore: real)
    requires step >= 1 && DirOk(d, step) && Mult(delta, step) && delta > 0 && (d.cap > 0 ==> delta <= d.cap)
    ensures DirOk(Reverted(d, delta, step, refTput, busyBefore), step)
  {
    MultIs(1, step);
    MultAtLeast(delta, step);
    if delta > step {
      HalvedCap(delta, step);
      if d.fails > 0 {
        QuotientMonotone(delta, d.cap, step);
        HalvingsGrows(Steps(delta, step), Steps(d.cap, step));
      }
    }
  }

  lemma JudgedOk(p: Pool, v: Measured)
    requires PoolOk(p) && p.trial != NoTrial
    ensures PoolOk(Judged(p, v))
    ensures Judged(p, v).size == if Keep(p, v) then p.size else p.sizeBefore
  {
    UndoneExactly(p);
    MultSum(p.size, p.sizeBefore, p.step);
    MultSum(p.sizeBefore, p.size, p.step);
    RevertedOk(Dir(p, p.trial == Grow), Delta(p), p.step, p.refTput, p.busyBefore);
  }

  /**
   A direction backs off after at most one more revert than the binary logarithm of the first
   one's size in steps: `fails` reverts came before this one, the first of them of size `first`.
   */
  lemma RevertsBeforeBackoff(d: Direction, delta: nat, step: nat, refTput: real, busyBefore: real)
    requires step >= 1 && DirOk(d, step) && Mult(delta, step) && delta > 0 && (d.cap > 0 ==> delta <= d.cap)
    ensures var e := Reverted(d, delta, step, refTput, busyBefore);
      var most := Halvings(Steps(if d.fails == 0 then delta else d.first, step));
      && d.fails + 1 <= most
      && (delta == step ==> e.fails == 0 && e.backoff >= 1)
      && (delta > step ==> e.fails == d.fails + 1 < most)
  {
    MultAtLeast(delta, step);
    if delta > step {
      HalvedCap(delta, step);
    }
    if d.fails > 0 {
      QuotientMonotone(delta, d.cap, step);
      HalvingsGrows(Steps(delta, step), Steps(d.cap, step));
    }
  }

  /**
   No change of a pool that is not idle is kept both as a grow and, at the same noise, as the
   shrink that undoes it. The throughputs at the two sizes are what both verdicts compare.
   */
  lemma StepNotKeptBothWays(p: Pool, q: Pool, v: Measured, w: Measured, before: real, after: real)
    requires PoolOk(p) && PoolOk(q) && p.trial == Grow && q.trial == Shrink
    requires q.sizeBefore == p.size && q.size == p.sizeBefore && q.noise == p.noise >= 0.0
    requires p.refTput != 0.0 && q.refTput != 0.0 && q.busyBefore >= IDLE_BUSY
    requires before > 0.0 && after > 0.0 && v.ratio == after / before && w.ratio == before / after
    requires IsRoot(v.root, p.measure) && IsRoot(w.root, q.measure) && IsRoot2(v.root2) && w.root2 == v.root2
    ensures !(Keep(p, v) && Keep(q, w))
  {
    var n := Delta(p);
    NeverBothKept(before, after, w.streakRatio, p.noise, n, p.sizeBefore, v.root, w.root, v.root2);
  }
}
