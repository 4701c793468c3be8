/**
 Totals over sequences. In the protocols the sequence holds one program counter
 per thread, for any number of threads; a step moves one of them, so a total
 over all of them changes by what that one thread gives up and takes on.
 */
module Totals {

  function Sum<P>(pcs: seq<P>, weight: P -> nat): nat {
    if pcs == [] then 0 else Sum(pcs[..|pcs| - 1], weight) + weight(pcs[|pcs| - 1])
  }

  lemma {:induction false} SumMove<P>(pcs: seq<P>, weight: P -> nat, i: nat, pc: P)
    requires i < |pcs|
    ensures Sum(pcs[i := pc], weight) == Sum(pcs, weight) - weight(pcs[i]) + weight(pc)
    ensures weight(pcs[i]) <= Sum(pcs, weight)
  {
    var n := |pcs| - 1;
    if i < n {
      assert pcs[i := pc][..n] == pcs[..n][i := pc];
      SumMove(pcs[..n], weight, i, pc);
    } else {
      assert pcs[i := pc][..n] == pcs[..n];
    }
  }

  lemma {:induction false} SumPair<P>(pcs: seq<P>, weight: P -> nat, i: nat, j: nat)
    requires i < j < |pcs|
    ensures weight(pcs[i]) + weight(pcs[j]) <= Sum(pcs, weight)
  {
    var n := |pcs| - 1;
    if j < n {
      SumPair(pcs[..n], weight, i, j);
    } else {
      SumMove(pcs[..n], weight, i, pcs[i]);
    }
  }

  lemma {:induction false} SumZero<P>(pcs: seq<P>, weight: P -> nat)
    requires forall i | 0 <= i < |pcs| :: weight(pcs[i]) == 0
    ensures Sum(pcs, weight) == 0
  {
    if pcs != [] { SumZero(pcs[..|pcs| - 1], weight); }
  }

  lemma {:induction false} SumBelow<P>(pcs: seq<P>, v: P -> nat, w: P -> nat)
    requires forall i | 0 <= i < |pcs| :: v(pcs[i]) <= w(pcs[i])
    ensures Sum(pcs, v) <= Sum(pcs, w)
  {
    if pcs != [] { SumBelow(pcs[..|pcs| - 1], v, w); }
  }

  /** With one token at most, a total over token holders is its holder's. */
  lemma {:induction false} SumOnly<P(!new)>(pcs: seq<P>, weight: P -> nat, token: P -> nat, i: nat)
    requires forall p | token(p) == 0 :: weight(p) == 0
    requires i < |pcs| && Sum(pcs, token) <= 1 && token(pcs[i]) == 1
    ensures Sum(pcs, weight) == weight(pcs[i])
  {
    var n := |pcs| - 1;
    if i < n {
      SumMove(pcs[..n], token, i, pcs[i]);
      SumOnly(pcs[..n], weight, token, i);
    } else {
      forall j | 0 <= j < n ensures weight(pcs[..n][j]) == 0 {
        SumMove(pcs[..n], token, j, pcs[j]);
      }
      SumZero(pcs[..n], weight);
    }
  }

  lemma {:induction false} SumAppend<P>(a: seq<P>, b: seq<P>, weight: P -> nat)
    ensures Sum(a + b, weight) == Sum(a, weight) + Sum(b, weight)
    decreases |b|
  {
    if b == [] {
      assert a + b == a;
    } else {
      assert (a + b)[..|a + b| - 1] == a + b[..|b| - 1];
      SumAppend(a, b[..|b| - 1], weight);
    }
  }

  lemma SumOne<P>(x: P, weight: P -> nat)
    ensures Sum([x], weight) == weight(x)
  {
    assert [x][..0] == [];
  }

  lemma SumAround<P>(a: seq<P>, x: P, b: seq<P>, weight: P -> nat)
    ensures Sum(a + [x] + b, weight) == Sum(a + b, weight) + weight(x)
  {
    SumAppend(a + [x], b, weight);
    SumAppend(a, [x], weight);
    SumAppend(a, b, weight);
    SumOne(x, weight);
  }

  lemma CutAt<P>(s: seq<P>, i: nat)
    requires i < |s|
    ensures s == s[..i] + [s[i]] + s[i + 1..]
  {}

  lemma SumRemove<P>(pcs: seq<P>, i: nat, weight: P -> nat)
    requires i < |pcs|
    ensures Sum(pcs, weight) == Sum(pcs[..i] + pcs[i + 1..], weight) + weight(pcs[i])
  {
    CutAt(pcs, i);
    SumAround(pcs[..i], pcs[i], pcs[i + 1..], weight);
  }

  lemma CancelPart<P>(m: multiset<P>, n: multiset<P>, x: multiset<P>)
    requires m + x == n + x
    ensures m == n
  {
    assert m == (m + x) - x && n == (n + x) - x;
  }

  lemma RemoveOne<P>(s: seq<P>, a: seq<P>, b: seq<P>, x: P)
    requires multiset(s + [x]) == multiset(a + [x] + b)
    ensures multiset(s) == multiset(a + b)
  {
    assert multiset(a + [x] + b) == multiset(a + b) + multiset{x};
    CancelPart(multiset(s), multiset(a + b), multiset{x});
  }

  /** A total does not depend on the order. */
  lemma {:induction false} SumPermutes<P>(s: seq<P>, t: seq<P>, weight: P -> nat)
    requires multiset(s) == multiset(t)
    ensures |s| == |t| && Sum(s, weight) == Sum(t, weight)
    decreases |s|
  {
    assert |s| == |multiset(s)| && |t| == |multiset(t)|;
    if s != [] {
      var x, s' := s[|s| - 1], s[..|s| - 1];
      assert s == s' + [x];
      assert x in multiset(t);
      var k :| 0 <= k < |t| && t[k] == x;
      var a, b := t[..k], t[k + 1..];
      assert t == a + [x] + b;
      RemoveOne(s', a, b, x);
      SumPermutes(s', a + b, weight);
      SumAround(a, x, b, weight);
    }
  }

  lemma SumParts<P>(s: seq<P>, a: seq<P>, b: seq<P>, weight: P -> nat)
    requires multiset(s) == multiset(a) + multiset(b)
    ensures Sum(s, weight) == Sum(a, weight) + Sum(b, weight)
  {
    assert multiset(a + b) == multiset(a) + multiset(b);
    SumPermutes(s, a + b, weight);
    SumAppend(a, b, weight);
  }

  /** What the threads hold between them, thread by thread. */
  function Held<P, R>(pcs: seq<P>, hold: P -> seq<R>): seq<R> {
    if pcs == [] then [] else Held(pcs[..|pcs| - 1], hold) + hold(pcs[|pcs| - 1])
  }

  lemma {:induction false} HeldAppend<P, R>(a: seq<P>, b: seq<P>, hold: P -> seq<R>)
    ensures Held(a + b, hold) == Held(a, hold) + Held(b, hold)
    decreases |b|
  {
    if b == [] {
      assert a + b == a;
    } else {
      var n := |b| - 1;
      assert (a + b)[..|a + b| - 1] == a + b[..n];
      HeldAppend(a, b[..n], hold);
    }
  }

  /** What is held when thread i stands at pc, between what the threads before and after it hold. */
  lemma HeldAround<P, R>(pcs: seq<P>, hold: P -> seq<R>, i: nat, pc: P)
    requires i < |pcs|
    ensures Held(pcs[i := pc], hold) == Held(pcs[..i], hold) + hold(pc) + Held(pcs[i + 1..], hold)
  {
    HeldAppend(pcs[..i] + [pc], pcs[i + 1..], hold);
    assert pcs[i := pc] == pcs[..i] + [pc] + pcs[i + 1..];
    assert (pcs[..i] + [pc])[..i] == pcs[..i];
  }

  lemma HeldMove<P, R>(pcs: seq<P>, hold: P -> seq<R>, i: nat, pc: P)
    requires i < |pcs|
    ensures multiset(Held(pcs[i := pc], hold)) + multiset(hold(pcs[i])) == multiset(Held(pcs, hold)) + multiset(hold(pc))
  {
    HeldAround(pcs, hold, i, pc);
    HeldAround(pcs, hold, i, pcs[i]);
    assert pcs[i := pcs[i]] == pcs;
  }

  lemma HeldTotal<P, R>(pcs: seq<P>, hold: P -> seq<R>, i: nat, pc: P, weight: R -> nat)
    requires i < |pcs|
    ensures Sum(Held(pcs[i := pc], hold), weight) + Sum(hold(pcs[i]), weight) == Sum(Held(pcs, hold), weight) + Sum(hold(pc), weight)
  {
    var a, b := Held(pcs[..i], hold), Held(pcs[i + 1..], hold);
    HeldAround(pcs, hold, i, pc);
    HeldAround(pcs, hold, i, pcs[i]);
    assert pcs[i := pcs[i]] == pcs;
    SumAppend(a + hold(pc), b, weight);
    SumAppend(a, hold(pc), weight);
    SumAppend(a + hold(pcs[i]), b, weight);
    SumAppend(a, hold(pcs[i]), weight);
  }

  lemma HeldSame<P, R>(pcs: seq<P>, hold: P -> seq<R>, i: nat, pc: P)
    requires i < |pcs| && hold(pcs[i]) == hold(pc)
    ensures Held(pcs[i := pc], hold) == Held(pcs, hold)
  {
    HeldAround(pcs, hold, i, pc);
    HeldAround(pcs, hold, i, pcs[i]);
    assert pcs[i := pcs[i]] == pcs;
  }

  /** Only a thread with a token may hold anything. */
  ghost predicate Needs<P(!new), R>(hold: P -> seq<R>, token: P -> nat) {
    forall p | token(p) == 0 :: hold(p) == []
  }

  lemma {:induction false} HeldNone<P(!new), R>(pcs: seq<P>, hold: P -> seq<R>, token: P -> nat)
    requires Needs(hold, token) && Sum(pcs, token) == 0
    ensures Held(pcs, hold) == []
  {
    if pcs != [] { HeldNone(pcs[..|pcs| - 1], hold, token); }
  }

  /** With one token at most, what is held is what its holder has. */
  lemma {:induction false} HeldOnly<P(!new), R>(pcs: seq<P>, hold: P -> seq<R>, token: P -> nat, i: nat)
    requires Needs(hold, token) && i < |pcs| && Sum(pcs, token) <= 1 && token(pcs[i]) == 1
    ensures Held(pcs, hold) == hold(pcs[i])
  {
    var n := |pcs| - 1;
    if i < n {
      SumMove(pcs[..n], token, i, pcs[i]);
      HeldOnly(pcs[..n], hold, token, i);
    } else {
      HeldNone(pcs[..n], hold, token);
    }
  }

  function Concat<T>(parts: seq<seq<T>>): seq<T> {
    if parts == [] then [] else Concat(parts[..|parts| - 1]) + parts[|parts| - 1]
  }

  lemma ConcatSnoc<T>(parts: seq<seq<T>>, part: seq<T>)
    ensures Concat(parts + [part]) == Concat(parts) + part
  {
    assert (parts + [part])[..|parts|] == parts;
  }

  function Repeat<P>(n: nat, pc: P): (r: seq<P>)
    ensures |r| == n && forall i | 0 <= i < n :: r[i] == pc
  {
    seq(n, i => pc)
  }
}
