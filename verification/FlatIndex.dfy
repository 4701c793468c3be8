/**
 The document cache's open-addressing index (server/cache/s3fifo_cache.cc):
 linear probing with backward-shift deletion, doubled at 70% load. Capacities
 are powers of two in the source, so a slot's home `h & mask` is `h % capacity`.
 The index is shown to be a set of (hash, entry) pairs.
 */
module FlatIndexes {

  import opened Options

  datatype Slot<+E> = Empty | Full(hash: nat, e: E)

  function Next(i: nat, cap: nat): (r: nat)
    requires i < cap
    ensures r < cap
  {
    if i + 1 == cap then 0 else i + 1
  }

  /** Steps of linear probing from slot a to slot b. */
  function Dist(a: nat, b: nat, cap: nat): (r: nat)
    requires a < cap && b < cap
    ensures r < cap
  {
    if a <= b then b - a else b + cap - a
  }

  function Home(h: nat, cap: nat): (r: nat)
    requires 0 < cap
    ensures r < cap
  {
    h % cap
  }

  /** Slot m lies on the probe path from `from` up to, but not including, `to`. */
  ghost predicate OnPath(from: nat, m: nat, to: nat, cap: nat) {
    from < cap && m < cap && to < cap && Dist(from, m, cap) < Dist(from, to, cap)
  }

  /** No probe path crosses a hole, except possibly the slot `hole`. */
  ghost predicate LinkedBut<E>(s: seq<Slot<E>>, hole: int) {
    forall k, m | 0 <= k < |s| && 0 <= m < |s| && s[k].Full? && k != hole && m != hole
      && OnPath(Home(s[k].hash, |s|), m, k, |s|) :: s[m].Full?
  }

  ghost predicate Linked<E>(s: seq<Slot<E>>) {
    LinkedBut(s, -1)
  }

  /** Each entry sits in one slot; the slot `hole` is not looked at. */
  ghost predicate DistinctBut<E>(s: seq<Slot<E>>, hole: int) {
    forall i, j | 0 <= i < j < |s| && i != hole && j != hole && s[i].Full? && s[j].Full? :: s[i].e != s[j].e
  }

  ghost predicate Distinct<E>(s: seq<Slot<E>>) {
    DistinctBut(s, -1)
  }

  ghost function Pairs<E>(s: seq<Slot<E>>): set<(nat, E)> {
    set i | 0 <= i < |s| && s[i].Full? :: (s[i].hash, s[i].e)
  }

  lemma PairsSnoc<E>(s: seq<Slot<E>>, i: nat)
    requires i < |s|
    requires Distinct(s)
    ensures Pairs(s[..i + 1]) == Pairs(s[..i]) + (if s[i].Full? then {(s[i].hash, s[i].e)} else {})
    ensures s[i].Full? ==> forall x | x in Pairs(s[..i]) :: x.1 != s[i].e
  {
    var t := s[..i + 1];
    assert s[..i] == t[..i];
    forall k | 0 <= k < |t| && t[k].Full?
      ensures (t[k].hash, t[k].e) in Pairs(s[..i]) || k == i
    {
      if k < i { assert s[..i][k] == t[k]; }
    }
    forall x | x in Pairs(s[..i])
      ensures x in Pairs(t)
    {
      var k :| 0 <= k < i && s[..i][k].Full? && x == (s[..i][k].hash, s[..i][k].e);
      assert t[k] == s[..i][k];
    }
  }

  lemma {:induction false} FullPairsCount<E>(s: seq<Slot<E>>)
    requires Distinct(s)
    requires forall i | 0 <= i < |s| :: s[i].Full?
    ensures |Pairs(s)| == |s|
  {
    if s == [] {
    } else {
      var n := |s| - 1;
      FullPairsCount(s[..n]);
      PairsSnoc(s, n);
      assert s[..n + 1] == s;
    }
  }

  /** Fewer entries than slots leave a hole, so every probe loop ends. */
  lemma HoleExists<E>(s: seq<Slot<E>>)
    requires Distinct(s) && |Pairs(s)| < |s|
    ensures exists z :: 0 <= z < |s| && s[z].Empty?
  {
    if forall i | 0 <= i < |s| :: s[i].Full? {
      FullPairsCount(s);
      assert false;
    }
  }

  /** Filling the hole at the end of a full probe path keeps the table linked. */
  lemma PlaceKeeps<E>(s: seq<Slot<E>>, i: nat, h: nat, e: E)
    requires Linked(s) && Distinct(s) && i < |s| && s[i].Empty?
    requires forall m | 0 <= m < |s| && OnPath(Home(h, |s|), m, i, |s|) :: s[m].Full?
    requires forall x | x in Pairs(s) :: x.1 != e
    ensures Linked(s[i := Full(h, e)]) && Distinct(s[i := Full(h, e)])
    ensures Pairs(s[i := Full(h, e)]) == Pairs(s) + {(h, e)}
  {
    var t := s[i := Full(h, e)];
    forall a | 0 <= a < |s| && s[a].Full?
      ensures s[a].e != e
    {
      assert (s[a].hash, s[a].e) in Pairs(s);
    }
    assert t[i].Full?;
    forall x | x in Pairs(s)
      ensures x in Pairs(t)
    {
      var a :| 0 <= a < |s| && s[a].Full? && x == (s[a].hash, s[a].e);
      assert t[a] == s[a];
    }
  }

  /** The slot that a probe for `h` reaches empty proves `h` is nowhere in the table. */
  lemma ProbeComplete<E>(s: seq<Slot<E>>, h: nat, i: nat, j: nat)
    requires Linked(s) && i < |s| && j < |s| && s[i].Empty? && s[j].Full? && s[j].hash == h
    ensures OnPath(Home(h, |s|), j, i, |s|)
  {
    assert !OnPath(Home(s[j].hash, |s|), i, j, |s|);
  }

  /** From the home of h up to slot i, which is not past the hole z, no entry of hash h is wanted. */
  ghost predicate Searched<E>(s: seq<Slot<E>>, h: nat, i: nat, z: nat, eq: E -> bool) {
    && i < |s| && z < |s| && s[z].Empty?
    && Dist(Home(h, |s|), i, |s|) <= Dist(Home(h, |s|), z, |s|)
    && forall m | 0 <= m < |s| && OnPath(Home(h, |s|), m, i, |s|) && s[m].Full? && s[m].hash == h :: !eq(s[m].e)
  }

  lemma SearchStart<E>(s: seq<Slot<E>>, h: nat, z: nat, eq: E -> bool)
    requires z < |s| && s[z].Empty?
    ensures Searched(s, h, Home(h, |s|), z, eq)
  {}

  lemma SearchStep<E>(s: seq<Slot<E>>, h: nat, i: nat, z: nat, eq: E -> bool)
    requires Searched(s, h, i, z, eq) && s[i].Full? && !(s[i].hash == h && eq(s[i].e))
    ensures Searched(s, h, Next(i, |s|), z, eq) && Dist(Next(i, |s|), z, |s|) < Dist(i, z, |s|)
  {
    var n, home := |s|, Home(h, |s|);
    forall m | 0 <= m < n && OnPath(home, m, Next(i, n), n) && s[m].Full? && s[m].hash == h ensures !eq(s[m].e) {
      assert m == i || OnPath(home, m, i, n);
    }
  }

  lemma SearchDone<E>(s: seq<Slot<E>>, h: nat, i: nat, z: nat, eq: E -> bool)
    requires Linked(s) && Searched(s, h, i, z, eq) && s[i].Empty?
    ensures forall x | x in Pairs(s) && x.0 == h :: !eq(x.1)
  {
    forall x | x in Pairs(s) && x.0 == h ensures !eq(x.1) {
      var j :| 0 <= j < |s| && s[j].Full? && x == (s[j].hash, s[j].e);
      ProbeComplete(s, h, i, j);
    }
  }

  /** The deletion loop's range test asks whether the hole is off the entry's probe path. */
  lemma RangeTest(i: nat, j: nat, home: nat, cap: nat)
    requires i < cap && j < cap && home < cap && i != j
    ensures (if i <= j then home > i && home <= j else home > i || home <= j) <==> !OnPath(home, i, j, cap)
  {}

  /** What backward-shift deletion keeps: slot i is the hole, (i, j) has been compacted. */
  ghost predicate Shifting<E>(s: seq<Slot<E>>, i: nat, j: nat, z: nat) {
    && i < |s| && j < |s| && z < |s| && i != z && s[z].Empty?
    && Dist(i, j, |s|) + Dist(j, z, |s|) == Dist(i, z, |s|) && i != j
    && LinkedBut(s, i) && DistinctBut(s, i)
    && (forall m | 0 <= m < |s| && 0 < Dist(i, m, |s|) < Dist(i, j, |s|) :: s[m].Full?)
    && (forall k | 0 <= k < |s| && s[k].Full? && 0 < Dist(i, k, |s|) < Dist(i, j, |s|) ::
          !OnPath(Home(s[k].hash, |s|), i, k, |s|))
  }

  lemma ShiftSkip<E>(s: seq<Slot<E>>, i: nat, j: nat, z: nat)
    requires Shifting(s, i, j, z) && s[j].Full?
    requires !OnPath(Home(s[j].hash, |s|), i, j, |s|)
    ensures Shifting(s, i, Next(j, |s|), z)
    ensures Dist(Next(j, |s|), z, |s|) < Dist(j, z, |s|)
  {
    assert j != z;
    forall m | 0 <= m < |s| && 0 < Dist(i, m, |s|) < Dist(i, Next(j, |s|), |s|)
      ensures m == j || 0 < Dist(i, m, |s|) < Dist(i, j, |s|)
    {}
  }

  lemma ShiftMove<E>(s: seq<Slot<E>>, i: nat, j: nat, z: nat)
    requires Shifting(s, i, j, z) && s[j].Full?
    requires OnPath(Home(s[j].hash, |s|), i, j, |s|)
    ensures Shifting(s[i := s[j]], j, Next(j, |s|), z)
    ensures Dist(Next(j, |s|), z, |s|) < Dist(j, z, |s|)
  {
    var t := s[i := s[j]];
    var n := |s|;
    assert j != z;
    forall k, m | 0 <= k < n && 0 <= m < n && t[k].Full? && k != j && m != j && OnPath(Home(t[k].hash, n), m, k, n)
      ensures t[m].Full?
    {
      if k == i {
        assert m != i;
        assert OnPath(Home(s[j].hash, n), m, j, n);
      }
    }
  }

  lemma ShiftDone<E>(s: seq<Slot<E>>, i: nat, j: nat, z: nat)
    requires Shifting(s, i, j, z) && s[j].Empty?
    ensures Linked(s[i := Empty]) && Distinct(s[i := Empty])
  {
    var t := s[i := Empty];
    var n := |s|;
    forall k | 0 <= k < n && s[k].Full? && k != i
      ensures !OnPath(Home(s[k].hash, n), i, k, n)
    {
      var home := Home(s[k].hash, n);
      assert !OnPath(home, j, k, n);
    }
  }

  lemma PairsButHole<E>(s: seq<Slot<E>>, i: nat, j: nat)
    requires i < |s| && j < |s| && i != j && s[j].Full?
    ensures Pairs(s[i := s[j]][j := Empty]) == Pairs(s[i := Empty])
  {
    var a, b := s[i := s[j]][j := Empty], s[i := Empty];
    forall x | x in Pairs(a)
      ensures x in Pairs(b)
    {
      var k :| 0 <= k < |a| && a[k].Full? && x == (a[k].hash, a[k].e);
      assert b[if k == i then j else k].Full?;
    }
    forall x | x in Pairs(b)
      ensures x in Pairs(a)
    {
      var k :| 0 <= k < |b| && b[k].Full? && x == (b[k].hash, b[k].e);
      assert a[if k == j then i else k].Full?;
    }
  }

  lemma PairsWithout<E>(s: seq<Slot<E>>, i: nat)
    requires Distinct(s) && i < |s| && s[i].Full?
    ensures Pairs(s[i := Empty]) == Pairs(s) - {(s[i].hash, s[i].e)}
  {
    var t := s[i := Empty];
    forall x | x in Pairs(s) && x != (s[i].hash, s[i].e)
      ensures x in Pairs(t)
    {
      var k :| 0 <= k < |s| && s[k].Full? && x == (s[k].hash, s[k].e);
      assert t[k] == s[k];
    }
  }

  /** First empty slot on h's probe path takes the pair. */
  method Place<E(==)>(t: array<Slot<E>>, h: nat, e: E)
    requires Linked(t[..]) && Distinct(t[..]) && |Pairs(t[..])| < t.Length
    requires forall x | x in Pairs(t[..]) :: x.1 != e
    modifies t
    ensures Linked(t[..]) && Distinct(t[..])
    ensures Pairs(t[..]) == old(Pairs(t[..])) + {(h, e)}
  {
    HoleExists(t[..]);
    ghost var z :| 0 <= z < t.Length && t[..][z].Empty?;
    ghost var cap := t.Length;
    var i: nat := Home(h, t.Length);
    while t[i].Full?
      invariant i < t.Length
      invariant Dist(Home(h, cap), i, cap) <= Dist(Home(h, cap), z, cap)
      invariant forall m | 0 <= m < cap && OnPath(Home(h, cap), m, i, cap) :: t[..][m].Full?
      decreases Dist(i, z, cap)
    {
      i := Next(i, t.Length);
    }
    PlaceKeeps(t[..], i, h, e);
    ghost var s := t[..];
    t[i] := Full(h, e);
    assert t[..] == s[i := Full(h, e)];
  }

  class FlatIndex<E(==)> {
    // Length 0 stands for the table not allocated yet.
    var slots: array<Slot<E>>
    var count: nat

    ghost predicate Valid()
      reads this, slots
    {
      && Linked(slots[..]) && Distinct(slots[..])
      && count == |Pairs(slots[..])|
      && (slots.Length == 0 || 1024 <= slots.Length)
      && count * 10 <= slots.Length * 7
    }

    ghost function Contents(): set<(nat, E)>
      reads this, slots
    {
      Pairs(slots[..])
    }

    constructor ()
      ensures Valid() && Contents() == {} && fresh(slots)
    {
      slots := new Slot<E>[0];
      count := 0;
    }

    /** Exactly a live entry with this hash and key; none only when there is none. */
    method Find(h: nat, eq: E -> bool) returns (r: Option<E>)
      requires Valid()
      ensures r.Some? ==> (h, r.value) in Contents() && eq(r.value)
      ensures r.None? ==> forall x | x in Contents() && x.0 == h :: !eq(x.1)
    {
      if slots.Length == 0 {
        return None;
      }
      HoleExists(slots[..]);
      ghost var z :| 0 <= z < slots.Length && slots[..][z].Empty?;
      var i: nat := Home(h, slots.Length);
      SearchStart(slots[..], h, z, eq);
      while slots[i].Full?
        invariant i < slots.Length && Searched(slots[..], h, i, z, eq)
        decreases Dist(i, z, slots.Length)
      {
        if slots[i].hash == h && eq(slots[i].e) {
          assert slots[..][i].Full?;
          return Some(slots[i].e);
        }
        SearchStep(slots[..], h, i, z, eq);
        i := Next(i, slots.Length);
      }
      SearchDone(slots[..], h, i, z, eq);
      return None;
    }

    /** The caller guarantees the entry is absent. */
    method Insert(h: nat, e: E)
      requires Valid()
      requires forall x | x in Contents() :: x.1 != e
      modifies this, slots
      ensures Valid() && (slots == old(slots) || fresh(slots))
      ensures Contents() == old(Contents()) + {(h, e)}
    {
      if slots.Length == 0 || (count + 1) * 10 > slots.Length * 7 {
        Grow();
      }
      Place(slots, h, e);
      count := count + 1;
    }

    /** Doubles the table, or allocates the first one; every pair is placed afresh. */
    method Grow()
      requires Valid()
      modifies this
      ensures Linked(slots[..]) && Distinct(slots[..]) && fresh(slots)
      ensures Contents() == old(Contents()) && count == old(count)
      ensures slots.Length == if old(slots.Length) == 0 then 1024 else 2 * old(slots.Length)
    {
      var cap := if slots.Length == 0 then 1024 else 2 * slots.Length;
      var fresh' := new Slot<E>[cap](_ => Empty);
      ghost var s := slots[..];
      assert Pairs(fresh'[..]) == Pairs(s[..0]);
      for i := 0 to slots.Length
        invariant slots[..] == s && Pairs(fresh'[..]) == Pairs(s[..i])
        invariant Linked(fresh'[..]) && Distinct(fresh'[..]) && |Pairs(s[..i])| <= i
        modifies fresh'
      {
        PairsSnoc(s, i);
        if slots[i].Full? {
          Place(fresh', slots[i].hash, slots[i].e);
        }
      }
      assert s[..|s|] == s;
      slots := fresh';
    }

    /** Removes the pair, if present. */
    method Erase(h: nat, e: E)
      requires Valid()
      requires forall x | x in Contents() && x.1 == e :: x.0 == h
      modifies this, slots
      ensures Valid() && slots == old(slots)
      ensures Contents() == old(Contents()) - {(h, e)}
    {
      if slots.Length == 0 {
        return;
      }
      var at := Locate(h, e);
      if at.Some? {
        assert (slots[..][at.value].hash, e) in Contents();
        CloseHole(slots, at.value);
        count := count - 1;
      }
    }

    method Locate(h: nat, e: E) returns (r: Option<nat>)
      requires Valid() && 0 < slots.Length
      ensures r.Some? ==> r.value < slots.Length && slots[r.value].Full? && slots[r.value].e == e
      ensures r.None? ==> (h, e) !in Contents()
    {
      HoleExists(slots[..]);
      ghost var z :| 0 <= z < slots.Length && slots[..][z].Empty?;
      ghost var cap := slots.Length;
      var i: nat := Home(h, slots.Length);
      while !(slots[i].Full? && slots[i].e == e)
        invariant i < slots.Length
        invariant Dist(Home(h, cap), i, cap) <= Dist(Home(h, cap), z, cap)
        invariant forall m | 0 <= m < cap && OnPath(Home(h, cap), m, i, cap) && slots[..][m].Full? :: slots[..][m].e != e
        decreases Dist(i, z, cap)
      {
        if slots[i].Empty? {
          forall j | 0 <= j < cap && slots[..][j].Full? && slots[..][j].hash == h
            ensures slots[..][j].e != e
          {
            ProbeComplete(slots[..], h, i, j);
          }
          return None;
        }
        i := Next(i, slots.Length);
      }
      return Some(i);
    }
  }

  method SetSlot<E>(t: array<Slot<E>>, i: nat, slot: Slot<E>)
    requires i < t.Length
    modifies t
    ensures t[..] == old(t[..])[i := slot]
  {
    t[i] := slot;
  }

  /** Empties slot `at`, pulling later members of the cluster back so no probe crosses a hole. */
  method CloseHole<E>(t: array<Slot<E>>, at: nat)
    requires Linked(t[..]) && Distinct(t[..]) && |Pairs(t[..])| < t.Length
    requires at < t.Length && t[at].Full?
    modifies t
    ensures Linked(t[..]) && Distinct(t[..])
    ensures Pairs(t[..]) == old(Pairs(t[..])) - {(old(t[at].hash), old(t[at].e))}
  {
    HoleExists(t[..]);
    ghost var z :| 0 <= z < t.Length && t[..][z].Empty?;
    PairsWithout(t[..], at);
    ghost var kept := Pairs(t[..][at := Empty]);
    var i: nat, j: nat := at, Next(at, t.Length);
    while t[j].Full?
      invariant i < t.Length && j < t.Length
      invariant Shifting(t[..], i, j, z)
      invariant Pairs(t[..][i := Empty]) == kept
      decreases Dist(j, z, t.Length)
    {
      var home := Home(t[j].hash, t.Length);
      var inRange := if i <= j then home > i && home <= j else home > i || home <= j;
      RangeTest(i, j, home, t.Length);
      if !inRange {
        ShiftMove(t[..], i, j, z);
        PairsButHole(t[..], i, j);
        SetSlot(t, i, t[j]);
        i := j;
      } else {
        ShiftSkip(t[..], i, j, z);
      }
      j := Next(j, t.Length);
    }
    ShiftDone(t[..], i, j, z);
    SetSlot(t, i, Empty);
  }
}
