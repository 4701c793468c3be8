/**
 The work guard of S3-FIFO eviction is large enough. An unpinned entry at
 distance i from the tail of a main queue of n entries with frequency f is freed
 within f*n + i + 1 visits to main, and every visit lowers that number by one.
 */
module CacheEviction {

  import opened CacheModel

  /** Visits to main after which an unpinned entry at position i is gone. */
  function Due(e: Entry, i: nat, n: nat): nat {
    e.freq * n + i + 1
  }

  ghost predicate Within(q: seq<Entry>, g: nat) {
    forall i | 0 <= i < |q| && q[i].pending == 0 :: Due(q[i], i, |q|) <= g
  }

  ghost predicate AllPinned(q: seq<Entry>) {
    forall e | e in q :: e.pending > 0
  }

  lemma DueShrinks(e: Entry, i: nat, n: nat)
    requires 0 < i && 0 < n
    ensures Due(e, i - 1, n) == Due(e, i, n) - 1
    ensures Due(e, i - 1, n - 1) <= Due(e, i, n) - 1
  {
    assert e.freq * (n - 1) <= e.freq * n;
  }

  lemma VisitCountsDown(H: DocKey -> nat, s: Shard, g: nat)
    requires s.main != [] && g > 0 && Within(s.main, g)
    ensures Within(EvictMain(H, s).main, g - 1)
  {
    var q, r := s.main, EvictMain(H, s).main;
    var n := |q|;
    forall i | 0 <= i < |r| && r[i].pending == 0
      ensures Due(r[i], i, |r|) <= g - 1
    {
      if i + 1 < n {
        assert r[i] == q[i + 1];
        DueShrinks(q[i + 1], i + 1, n);
      } else {
        assert Due(q[0], 0, n) <= g;
        assert (q[0].freq - 1) * n + n == q[0].freq * n;
      }
    }
  }

  ghost predicate Trimmed(s: Shard) {
    TotalBytes(s) <= s.budget || (Bytes(s.small) <= s.smallBudget && AllPinned(s.main))
  }

  ghost predicate SameBudgets(s: Shard, t: Shard) {
    t.budget == s.budget && t.smallBudget == s.smallBudget
  }

  lemma NoneDue(q: seq<Entry>)
    requires Within(q, 0)
    ensures AllPinned(q)
  {
    forall i | 0 <= i < |q| ensures q[i].pending > 0 {
      assert Due(q[i], i, |q|) >= 1;
    }
  }

  lemma {:induction false} MainPhase(H: DocKey -> nat, s: Shard, g: nat)
    requires Bytes(s.small) <= s.smallBudget <= s.budget && Within(s.main, g)
    ensures Trimmed(EvictLoop(H, s, g)) && SameBudgets(s, EvictLoop(H, s, g))
    decreases g
  {
    if g == 0 || !CanEvict(s) {
      if g == 0 { NoneDue(s.main); }
    } else {
      VisitCountsDown(H, s, g);
      MainPhase(H, EvictMain(H, s), g - 1);
    }
  }

  /** Entries past the first m0 of main came from small with their frequency cleared. */
  ghost predicate Appended(q: seq<Entry>, m0: nat) {
    m0 <= |q| && forall i | 0 <= i < |q| :: q[i].freq <= if i < m0 then MAX_FREQ else 0
  }

  lemma AppendedWithin(q: seq<Entry>, m0: nat, g: nat)
    requires Appended(q, m0) && g >= 3 * |q| + m0
    ensures Within(q, g)
  {
    forall i | 0 <= i < |q| && q[i].pending == 0
      ensures Due(q[i], i, |q|) <= g
    {
      assert q[i].freq * |q| <= (if i < m0 then 3 else 0) * |q|;
    }
  }

  lemma {:induction false} SmallPhase(H: DocKey -> nat, s: Shard, m0: nat, g: nat)
    requires Appended(s.main, m0) && s.smallBudget <= s.budget
    requires g >= 4 * |s.small| + 3 * |s.main| + m0
    ensures Trimmed(EvictLoop(H, s, g)) && SameBudgets(s, EvictLoop(H, s, g))
    decreases |s.small|
  {
    if Bytes(s.small) <= s.smallBudget {
      AppendedWithin(s.main, m0, g);
      MainPhase(H, s, g);
    } else if CanEvict(s) && g > 0 {
      SmallPhase(H, EvictSmall(H, s), m0, g - 1);
    }
  }

  lemma {:induction false} PinnedBytesAll(q: seq<Entry>)
    ensures PinnedBytes(q) <= Bytes(q)
    ensures AllPinned(q) ==> PinnedBytes(q) == Bytes(q)
  {
    if q == [] {
    } else {
      PinnedBytesAll(q[1..]);
      assert q[0] in q;
    }
  }

  /**
   From any shard whose frequencies are in range, the guard never stops eviction
   early: the shard ends within budget, or with small inside its share and nothing
   but pinned entries in main. Either way it is over budget by at most pinned bytes.
   */
  lemma GuardSuffices(H: DocKey -> nat, s: Shard)
    requires forall e | e in s.main :: e.freq <= MAX_FREQ
    requires s.smallBudget <= s.budget
    ensures Trimmed(Evict(H, s)) && SameBudgets(s, Evict(H, s))
    ensures TotalBytes(Evict(H, s)) <= s.budget + PinnedBytes(Evict(H, s).main)
  {
    SmallPhase(H, s, |s.main|, Guard(s));
    PinnedBytesAll(Evict(H, s).main);
  }

  // ---- And so many visits can be needed ----

  /** Visits a queue of unpinned entries takes to empty: each entry one more than its frequency. */
  function Visits(q: seq<Entry>): nat {
    if q == [] then 0 else q[0].freq + 1 + Visits(q[1..])
  }

  ghost predicate Loose(q: seq<Entry>) {
    forall i | 0 <= i < |q| :: q[i].pending == 0 && q[i].charge > 0
  }

  lemma {:induction false} VisitsSnoc(q: seq<Entry>, e: Entry)
    ensures Visits(q + [e]) == Visits(q) + e.freq + 1
  {
    if q == [] {
      assert q + [e] == [e];
    } else {
      VisitsSnoc(q[1..], e);
      assert (q + [e])[1..] == q[1..] + [e];
    }
  }

  lemma LooseVisit(H: DocKey -> nat, s: Shard)
    requires s.main != [] && Loose(s.main)
    ensures var t := EvictMain(H, s);
      Visits(t.main) == Visits(s.main) - 1 && Loose(t.main) && t.small == s.small && SameBudgets(s, t)
  {
    var e := s.main[0];
    if e.freq > 0 {
      VisitsSnoc(s.main[1..], e.(freq := e.freq - 1));
    }
  }

  lemma LooseOver(s: Shard)
    requires s.main != [] && Loose(s.main) && s.budget == 0
    ensures TotalBytes(s) > 0 && !Trimmed(s)
  {
    assert s.main[0] in s.main;
  }

  /** With nothing but unpinned entries in main and no budget, eviction takes exactly that many visits. */
  lemma {:induction false} VisitsNeeded(H: DocKey -> nat, s: Shard, g: nat)
    requires s.small == [] && s.budget == 0 && Loose(s.main)
    ensures Trimmed(EvictLoop(H, s, g)) <==> g >= Visits(s.main)
    decreases g
  {
    if s.main != [] {
      LooseOver(s);
      if g > 0 {
        LooseVisit(H, s);
        VisitsNeeded(H, EvictMain(H, s), g - 1);
      }
    }
  }

  lemma {:induction false} FullVisits(q: seq<Entry>)
    requires forall i | 0 <= i < |q| :: q[i].freq == MAX_FREQ
    ensures Visits(q) == (MAX_FREQ + 1) * |q|
  {
    if q != [] { FullVisits(q[1..]); }
  }

  /** For every number of entries: all but one of the guard's steps are needed when main is full of unpinned, often-read entries. */
  lemma GuardIsTight(H: DocKey -> nat, s: Shard, g: nat)
    requires s.small == [] && s.budget == 0 && Loose(s.main) && forall i | 0 <= i < |s.main| :: s.main[i].freq == MAX_FREQ
    ensures Trimmed(EvictLoop(H, s, g)) <==> g >= Guard(s) - 1
  {
    VisitsNeeded(H, s, g);
    FullVisits(s.main);
  }
}
