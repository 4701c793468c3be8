/**
 The benchmark client's latency histogram (client/fluxbench.cc): log-linear
 buckets, 64 per power of two, counted in a fixed array. Samples are unsigned
 32-bit microseconds; counts are unbounded here and 64-bit in the program.
 */
module LatencyHists {
  import opened Arithmetic
  import opened Totals

  const SUB: nat := 64
  const BUCKETS: nat := 31 * 64
  const TWO_31: nat := 0x8000_0000
  const TWO_32: nat := 0x1_0000_0000

  /** Position of the highest set bit. */
  function Log2(us: nat): (lg: nat)
    requires us >= 1
    ensures Pow2(lg) <= us < 2 * Pow2(lg)
  {
    if us < 2 then 0 else 1 + Log2(us / 2)
  }

  /** The low six bits below the highest one, scaled up when there are fewer than six. */
  function Sub(us: nat, lg: nat): nat {
    if lg >= 6 then Shr(us, lg - 6) % SUB else Shl(us, 6 - lg) % SUB
  }

  function Bucket(sample: nat): (b: nat)
    ensures b < BUCKETS
  {
    var us := if sample < 1 then 1 else sample;
    var b := Log2(us) * SUB + Sub(us, Log2(us));
    if b < BUCKETS then b else BUCKETS - 1
  }

  function Upper(b: nat): int {
    var lg, sub := b / SUB, b % SUB + 1;
    if lg >= 6 then Pow2(lg) + Shl(sub, lg - 6) else Pow2(lg) + Shr(sub, 6 - lg)
  }

  // ---- The two shift regimes ----

  lemma Pow2Of31()
    ensures Pow2(6) == 64 && Pow2(31) == TWO_31 && Pow2(32) == TWO_32
  {
    assert Pow2(8) == 256;
    Pow2Byte(8);
    Pow2Byte(16);
    Pow2Byte(24);
    assert Pow2(32) == 2 * Pow2(31);
  }

  lemma {:induction false} ShlSub(n: nat)
    ensures Shl(SUB, n) == Pow2(n + 6)
  {
    if n > 0 { ShlSub(n - 1); } else { Pow2Of31(); }
  }

  lemma {:induction false} PowShl(lg: nat, n: nat)
    ensures Shl(Pow2(lg), n) == Pow2(lg + n)
  {
    if n > 0 { PowShl(lg, n - 1); }
  }

  /** At least six bits below the top one: shifted down, seven bits are left. */
  lemma {:induction false} WideSeven(us: nat, lg: nat)
    requires lg >= 6 && Pow2(lg) <= us < 2 * Pow2(lg)
    ensures SUB <= Shr(us, lg - 6) < 2 * SUB
  {
    if lg == 6 {
      Pow2Of31();
    } else {
      WideSeven(us / 2, lg - 1);
    }
  }

  /** Fewer: shifted up, there are seven bits too. */
  lemma {:induction false} NarrowSeven(us: nat, lg: nat)
    requires lg <= 6 && Pow2(lg) <= us < 2 * Pow2(lg)
    ensures SUB <= Shl(us, 6 - lg) < 2 * SUB
    decreases 6 - lg
  {
    if lg == 6 {
      Pow2Of31();
    } else {
      NarrowSeven(2 * us, lg + 1);
      ShlDouble(us, 5 - lg);
    }
  }

  /** They are the top bit, and the value above it shifted up. */
  lemma NarrowTop(us: nat, lg: nat)
    requires lg < 6 && Pow2(lg) <= us
    ensures Shl(us, 6 - lg) == SUB + Shl(us - Pow2(lg), 6 - lg)
  {
    PowShl(lg, 6 - lg);
    Pow2Of31();
    ShlAdds(us - Pow2(lg), Pow2(lg), 6 - lg);
  }

  lemma LowSix(q: nat)
    requires SUB <= q < 2 * SUB
    ensures q % SUB == q - SUB
  {}

  function Seven(us: nat, lg: nat): nat {
    if lg >= 6 then Shr(us, lg - 6) else Shl(us, 6 - lg)
  }

  /** Of the seven bits the six below the top one. */
  lemma SubIs(us: nat)
    requires us >= 1
    ensures SUB <= Seven(us, Log2(us)) < 2 * SUB && Sub(us, Log2(us)) == Seven(us, Log2(us)) - SUB
  {
    var lg := Log2(us);
    if lg >= 6 { WideSeven(us, lg); } else { NarrowSeven(us, lg); }
    LowSix(Seven(us, lg));
  }

  /** The bucket as its two parts, which do not overlap. */
  lemma Parts(us: nat)
    requires 1 <= us < TWO_31
    ensures Log2(us) < 31 && Sub(us, Log2(us)) < SUB
    ensures Bucket(us) == Log2(us) * SUB + Sub(us, Log2(us))
    ensures Bucket(us) / SUB == Log2(us) && Bucket(us) % SUB == Sub(us, Log2(us))
  {
    Pow2Of31();
    SubIs(us);
    if Log2(us) >= 31 {
      Pow2Grows(31, Log2(us));
    }
  }

  lemma {:induction false} Log2Of(us: nat, lg: nat)
    requires us >= 1 && Pow2(lg) <= us < 2 * Pow2(lg)
    ensures Log2(us) == lg
  {
    if lg > 0 {
      Log2Of(us / 2, lg - 1);
    }
  }

  lemma WideBounds(us: nat, lg: nat, q: nat)
    requires lg >= 6 && Pow2(lg) <= us < 2 * Pow2(lg) && q == Shr(us, lg - 6)
    ensures q >= SUB
    ensures var u := Pow2(lg) + Shl(q - 63, lg - 6); us < u && 64 * u <= 65 * us
  {
    var n := lg - 6;
    WideSeven(us, lg);
    ShrBounds(us, n);
    ShlAdds(q, 1, n);
    ShlSub(n);
    ShlAdds(q - 63, 64, n);
    ShlOne(n);
    SixtyFour(n);
  }

  lemma {:induction false} SixtyFour(n: nat)
    ensures Pow2(n + 6) == 64 * Pow2(n)
  {
    if n > 0 { SixtyFour(n - 1); } else { Pow2Of31(); }
  }

  lemma UpperOf(us: nat, lg: nat, seven: nat)
    requires 1 <= us < TWO_31 && lg == Log2(us) && seven == Seven(us, lg)
    ensures seven >= SUB && Upper(Bucket(us)) == Pow2(lg) + if lg >= 6 then Shl(seven - 63, lg - 6) else Shr(seven - 63, 6 - lg)
  {
    Parts(us);
    SubIs(us);
  }

  lemma WideUpper(us: nat)
    requires 1 <= us < TWO_31 && Log2(us) >= 6
    ensures us < Upper(Bucket(us)) && 64 * Upper(Bucket(us)) <= 65 * us
  {
    WideBounds(us, Log2(us), Shr(us, Log2(us) - 6));
    UpperOf(us, Log2(us), Shr(us, Log2(us) - 6));
  }

  /** A value shifted up keeps its own sub-step: the step's end shifts back to it. */
  lemma StepBack(d: nat, n: nat)
    requires n >= 1
    ensures Shr(Shl(d, n) + 1, n) == d
  {
    assert (Shl(d, n) + 1) / 2 == Shl(d, n - 1);
    ShrShl(d, n - 1);
  }

  lemma NarrowBack(us: nat, lg: nat)
    requires lg < 6 && Pow2(lg) <= us
    ensures Shl(us, 6 - lg) >= SUB && Pow2(lg) + Shr(Shl(us, 6 - lg) - 63, 6 - lg) == us
  {
    NarrowTop(us, lg);
    StepBack(us - Pow2(lg), 6 - lg);
  }

  lemma NarrowUpper(us: nat)
    requires 1 <= us < TWO_31 && Log2(us) < 6
    ensures Upper(Bucket(us)) == us
  {
    NarrowBack(us, Log2(us));
    UpperOf(us, Log2(us), Shl(us, 6 - Log2(us)));
  }

  lemma Clamped(us: nat)
    requires TWO_31 <= us < TWO_32
    ensures Bucket(us) == BUCKETS - 1 && Upper(Bucket(us)) == TWO_31
  {
    Pow2Of31();
    assert Pow2(31) == 2 * Pow2(30);
    Log2Of(us, 31);
    ShlSub(24);
    assert Upper(BUCKETS - 1) == Pow2(30) + Shl(SUB, 24);
  }

  /** A bucket's upper bound is never below its samples nor over a 64th above them, exactly on 1..2^31. */
  lemma UpperIsTight(us: nat)
    requires us < TWO_32
    ensures us <= Upper(Bucket(us)) && 64 * Upper(Bucket(us)) <= 65 * us <==> 1 <= us <= TWO_31
    ensures 1 <= us < 64 ==> Upper(Bucket(us)) == us
  {
    if us >= TWO_31 {
      Clamped(us);
    } else if us == 0 {
      NarrowUpper(1);
    } else {
      Pow2Of31();
      if Log2(us) >= 6 {
        Pow2Grows(6, Log2(us));
        WideUpper(us);
      } else {
        NarrowUpper(us);
      }
    }
  }

  lemma SubMonotone(x: nat, y: nat)
    requires 1 <= x <= y && Log2(x) == Log2(y)
    ensures Sub(x, Log2(x)) <= Sub(y, Log2(y))
  {
    var lg := Log2(x);
    SubIs(x);
    SubIs(y);
    if lg >= 6 { ShrGrows(x, y, lg - 6); } else { ShlGrows(x, y, 6 - lg, 6 - lg); }
  }

  lemma {:induction false} Log2Monotone(x: nat, y: nat)
    requires 1 <= x <= y
    ensures Log2(x) <= Log2(y)
  {
    if x >= 2 { Log2Monotone(x / 2, y / 2); }
  }

  lemma BucketMonotone(x: nat, y: nat)
    requires x <= y < TWO_32
    ensures Bucket(x) <= Bucket(y)
  {
    var x', y' := if x < 1 then 1 else x, if y < 1 then 1 else y;
    if y >= TWO_31 {
      Clamped(y);
    } else {
      Parts(x');
      Parts(y');
      Log2Monotone(x', y');
      if Log2(x') == Log2(y') {
        SubMonotone(x', y');
      }
    }
  }

  // ---- Counting samples by bucket ----

  function InFirst(i: nat): nat -> nat {
    (sample: nat) => if Bucket(sample) < i then 1 else 0
  }

  /** How many samples fall in the first i buckets. */
  function Below(s: seq<nat>, i: nat): nat {
    Sum(s, InFirst(i))
  }

  ghost predicate Sorted(s: seq<nat>) {
    forall i, j | 0 <= i < j < |s| :: s[i] <= s[j]
  }

  /** r is the samples s in increasing order. */
  ghost predicate IsSorting(r: seq<nat>, s: seq<nat>) {
    Sorted(r) && multiset(r) == multiset(s)
  }

  ghost predicate Words(s: seq<nat>) {
    forall i | 0 <= i < |s| :: s[i] < TWO_32
  }

  lemma {:induction false} AtMostAll(s: seq<nat>, i: nat)
    ensures Below(s, i) <= |s|
  {
    if s != [] { AtMostAll(s[..|s| - 1], i); }
  }

  lemma {:induction false} AllBelow(s: seq<nat>, i: nat)
    requires forall k | 0 <= k < |s| :: Bucket(s[k]) < i
    ensures Below(s, i) == |s|
  {
    if s != [] { AllBelow(s[..|s| - 1], i); }
  }

  /** In sorted order, a prefix of the buckets holds a prefix of the samples. */
  lemma {:induction false} RankBucket(r: seq<nat>, i: nat, k: nat)
    requires Sorted(r) && Words(r) && k < |r|
    ensures Below(r, i) > k <==> Bucket(r[k]) < i
    decreases |r|
  {
    var n := |r| - 1;
    if Bucket(r[n]) < i {
      forall j | 0 <= j < |r| ensures Bucket(r[j]) < i {
        BucketMonotone(r[j], r[n]);
      }
      AllBelow(r, i);
    } else if k < n {
      RankBucket(r[..n], i, k);
    } else {
      AtMostAll(r[..n], i);
    }
  }

  lemma WordsPermute(s: seq<nat>, t: seq<nat>)
    requires Words(s) && multiset(s) == multiset(t)
    ensures Words(t)
  {
    forall i | 0 <= i < |t| ensures t[i] < TWO_32 {
      assert t[i] in multiset(t);
      assert t[i] in s;
    }
  }

  /** The bucket holding rank k is the one of the k-th smallest sample. */
  lemma RankFound(s: seq<nat>, r: seq<nat>, i: nat, k: nat)
    requires IsSorting(r, s) && Words(s) && k < |s|
    requires Below(s, i) <= k < Below(s, i + 1)
    ensures k < |r| && Bucket(r[k]) == i
  {
    WordsPermute(s, r);
    SumPermutes(s, r, InFirst(i));
    SumPermutes(s, r, InFirst(i + 1));
    RankBucket(r, i, k);
    RankBucket(r, i + 1, k);
  }

  /** The rank asked for by a fraction p of n samples. */
  function Rank(p: real, n: nat): (k: nat)
    requires p >= 0.0 && n > 0
    ensures k < n
  {
    var want := (p * n as real).Floor;
    if want >= n then n - 1 else want
  }

  /** What a percentile promises: the exact bucket bound, a 64th above the sample at most. */
  ghost predicate Answers(v: int, s: seq<nat>, k: nat) {
    forall r | IsSorting(r, s) && k < |r| ::
      v == Upper(Bucket(r[k])) && (1 <= r[k] <= TWO_31 ==> r[k] <= v && 64 * v <= 65 * r[k])
  }

  lemma UpperAnswers(s: seq<nat>, i: nat, k: nat)
    requires Words(s) && k < |s| && Below(s, i) <= k < Below(s, i + 1)
    ensures Answers(Upper(i), s, k)
  {
    forall r | IsSorting(r, s) && k < |r|
      ensures Bucket(r[k]) == i && (1 <= r[k] <= TWO_31 ==> r[k] <= Upper(i) && 64 * Upper(i) <= 65 * r[k])
    {
      RankFound(s, r, i, k);
      WordsPermute(s, r);
      UpperIsTight(r[k]);
    }
  }

  class LatencyHist {
    const counts: array<nat>
    var total: nat
    ghost var samples: seq<nat>

    ghost predicate Valid()
      reads this, counts
    {
      && counts.Length == BUCKETS
      && total == |samples| && Words(samples)
      && forall i | 0 <= i < BUCKETS :: counts[i] == Below(samples, i + 1) - Below(samples, i)
    }

    constructor ()
      ensures Valid() && fresh(counts) && samples == []
    {
      counts := new nat[BUCKETS](i => 0);
      total := 0;
      samples := [];
    }

    method Add(us: nat)
      requires Valid() && us < TWO_32
      modifies this, counts
      ensures Valid() && samples == old(samples) + [us]
    {
      var b := Bucket(us);
      counts[b] := counts[b] + 1;
      total := total + 1;
      forall j: nat ensures Below(samples + [us], j) == Below(samples, j) + if b < j then 1 else 0 {
        assert (samples + [us])[..|samples|] == samples;
      }
      samples := samples + [us];
    }

    /** A histogram may be merged with itself. */
    method Merge(o: LatencyHist)
      requires Valid() && o.Valid()
      modifies this, counts
      ensures Valid() && samples == old(samples) + old(o.samples)
    {
      var i := 0;
      while i < BUCKETS
        invariant 0 <= i <= BUCKETS
        invariant forall j | 0 <= j < i :: counts[j] == old(counts[j]) + old(o.counts[j])
        invariant forall j | i <= j < BUCKETS :: counts[j] == old(counts[j]) && o.counts[j] == old(o.counts[j])
        modifies counts
      {
        counts[i] := counts[i] + o.counts[i];
        i := i + 1;
      }
      total := total + o.total;
      ghost var before, more := samples, o.samples;
      samples := before + more;
      forall j: nat ensures Below(samples, j) == Below(before, j) + Below(more, j) {
        SumAppend(before, more, InFirst(j));
      }
    }

    method Percentile(p: real) returns (v: int)
      requires Valid() && p >= 0.0
      ensures samples == [] ==> v == 0
      ensures samples != [] ==> Answers(v, samples, Rank(p, |samples|))
    {
      if total == 0 {
        return 0;
      }
      var want := Rank(p, total);
      var seen: nat, i: nat := 0, 0;
      SumZero(samples, InFirst(0));
      while i < BUCKETS
        invariant i <= BUCKETS && seen == Below(samples, i) <= want
      {
        seen := seen + counts[i];
        if seen > want {
          UpperAnswers(samples, i, want);
          return Upper(i);
        }
        i := i + 1;
      }
      AllBelow(samples, BUCKETS);
      assert false;
    }
  }
}
