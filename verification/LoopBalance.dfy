/**
 Spreading connections over IO loops (server/server.cc): picking the least
 loaded loop for an arrival, planning moves onto the emptiest loops, and
 levelling the pool.
 */
module LoopBalance {

  function Total(load: seq<int>): int {
    if load == [] then 0 else Total(load[..|load| - 1]) + load[|load| - 1]
  }

  /** The square of x, by the differences of successive squares. */
  function Square(x: int): nat
    decreases if x < 0 then -x else x
  {
    if x == 0 then 0 else if x > 0 then Square(x - 1) + 2 * x - 1 else Square(x + 1) - 2 * x - 1
  }

  function Squares(load: seq<int>): nat {
    if load == [] then 0 else Squares(load[..|load| - 1]) + Square(load[|load| - 1])
  }

  lemma {:induction false} SetTotal(load: seq<int>, i: nat, x: int)
    requires i < |load|
    ensures Total(load[i := x]) == Total(load) - load[i] + x
  {
    var n := |load| - 1;
    if i < n {
      assert load[i := x][..n] == load[..n][i := x];
      SetTotal(load[..n], i, x);
    } else {
      assert load[i := x][..n] == load[..n];
    }
  }

  lemma {:induction false} SetSquares(load: seq<int>, i: nat, x: int)
    requires i < |load|
    ensures Squares(load[i := x]) == Squares(load) - Square(load[i]) + Square(x)
  {
    var n := |load| - 1;
    if i < n {
      assert load[i := x][..n] == load[..n][i := x];
      SetSquares(load[..n], i, x);
    } else {
      assert load[i := x][..n] == load[..n];
    }
  }

  ghost predicate IsLeast(load: seq<int>, i: nat) {
    i < |load| && forall j | 0 <= j < |load| :: load[i] <= load[j]
  }

  ghost predicate IsMost(load: seq<int>, i: nat) {
    i < |load| && forall j | 0 <= j < |load| :: load[j] <= load[i]
  }

  method MinElement(load: seq<int>) returns (i: nat)
    requires load != []
    ensures IsLeast(load, i) && forall j | 0 <= j < i :: load[j] > load[i]
  {
    i := 0;
    var k: nat := 1;
    while k < |load|
      invariant i < k <= |load|
      invariant forall j | 0 <= j < k :: load[i] <= load[j]
      invariant forall j | 0 <= j < i :: load[j] > load[i]
    {
      if load[k] < load[i] { i := k; }
      k := k + 1;
    }
  }

  method MaxElement(load: seq<int>) returns (i: nat)
    requires load != []
    ensures IsMost(load, i) && forall j | 0 <= j < i :: load[j] < load[i]
  {
    i := 0;
    var k: nat := 1;
    while k < |load|
      invariant i < k <= |load|
      invariant forall j | 0 <= j < k :: load[j] <= load[i]
      invariant forall j | 0 <= j < i :: load[j] < load[i]
    {
      if load[k] > load[i] { i := k; }
      k := k + 1;
    }
  }

  // ---- Levelling ----

  datatype Move = Move(source: nat, dest: nat)

  ghost predicate Level(load: seq<int>) {
    forall i, j | 0 <= i < |load| && 0 <= j < |load| :: load[i] - load[j] <= 1
  }

  /** The loads after one connection has moved. */
  function Moved(load: seq<int>, m: Move): seq<int> {
    if m.source < |load| && m.dest < |load| then
      var l := load[m.source := load[m.source] - 1];
      l[m.dest := l[m.dest] + 1]
    else load
  }

  function MovedAll(load: seq<int>, moves: seq<Move>): seq<int> {
    if moves == [] then load else Moved(MovedAll(load, moves[..|moves| - 1]), moves[|moves| - 1])
  }

  lemma SquareStep(x: int)
    ensures Square(x) == Square(x - 1) + 2 * x - 1
  {}

  lemma SquaresDrop(a: int, b: int)
    requires a - b > 1
    ensures Square(a - 1) + Square(b + 1) < Square(a) + Square(b)
  {
    SquareStep(a);
    SquareStep(b + 1);
  }

  lemma MovedTotal(load: seq<int>, m: Move)
    requires m.source < |load| && m.dest < |load|
    ensures |Moved(load, m)| == |load| && Total(Moved(load, m)) == Total(load)
  {
    var l := load[m.source := load[m.source] - 1];
    SetTotal(load, m.source, load[m.source] - 1);
    SetTotal(l, m.dest, l[m.dest] + 1);
  }

  lemma MovedSquares(load: seq<int>, m: Move, a: int, b: int)
    requires m.source < |load| && m.dest < |load| && m.source != m.dest && a == load[m.source] && b == load[m.dest]
    ensures Squares(Moved(load, m)) == Squares(load) - Square(a) - Square(b) + Square(a - 1) + Square(b + 1)
  {
    var l := load[m.source := a - 1];
    SetSquares(load, m.source, a - 1);
    SetSquares(l, m.dest, b + 1);
  }

  lemma MoveLevels(load: seq<int>, m: Move)
    requires m.source < |load| && m.dest < |load| && load[m.source] - load[m.dest] > 1
    ensures |Moved(load, m)| == |load| && Total(Moved(load, m)) == Total(load) && Squares(Moved(load, m)) < Squares(load)
  {
    var a, b := load[m.source], load[m.dest];
    MovedTotal(load, m);
    MovedSquares(load, m, a, b);
    SquaresDrop(a, b);
  }

  /** Where the moves away from one loop go, in the order planned. */
  function DestsOf(moves: seq<Move>, i: nat): seq<nat> {
    if moves == [] then []
    else
      var m := moves[|moves| - 1];
      DestsOf(moves[..|moves| - 1], i) + if m.source == i then [m.dest] else []
  }

  /** How many moves go to one loop. */
  function ArrivalsAt(moves: seq<Move>, i: nat): nat {
    if moves == [] then 0 else ArrivalsAt(moves[..|moves| - 1], i) + if moves[|moves| - 1].dest == i then 1 else 0
  }

  lemma OneMove(moves: seq<Move>, m: Move, i: nat)
    ensures DestsOf(moves + [m], i) == DestsOf(moves, i) + (if m.source == i then [m.dest] else [])
    ensures ArrivalsAt(moves + [m], i) == ArrivalsAt(moves, i) + if m.dest == i then 1 else 0
  {
    assert (moves + [m])[..|moves|] == moves;
  }

  /** Each loop's list and reservations agree with the moves planned so far. */
  ghost predicate Planned(dests: seq<seq<nat>>, pending: seq<int>, before: seq<int>, moves: seq<Move>) {
    && |dests| == |pending| == |before|
    && forall i | 0 <= i < |dests| :: dests[i] == DestsOf(moves, i) && pending[i] == before[i] + ArrivalsAt(moves, i)
  }

  lemma PlanOne(dests: seq<seq<nat>>, pending: seq<int>, before: seq<int>, moves: seq<Move>, m: Move)
    requires Planned(dests, pending, before, moves) && m.source < |dests| && m.dest < |dests|
    ensures Planned(dests[m.source := dests[m.source] + [m.dest]], pending[m.dest := pending[m.dest] + 1], before, moves + [m])
  {
    forall i | 0 <= i < |dests| ensures DestsOf(moves + [m], i) == DestsOf(moves, i) + (if m.source == i then [m.dest] else [])
      && ArrivalsAt(moves + [m], i) == ArrivalsAt(moves, i) + if m.dest == i then 1 else 0
    {
      OneMove(moves, m, i);
    }
  }

  /** A loop's load after the moves: those that leave it gone, those that come to it added. */
  lemma {:induction false} MovedAllAt(load: seq<int>, moves: seq<Move>, i: nat)
    requires i < |load| && forall k | 0 <= k < |moves| :: moves[k].source < |load| && moves[k].dest < |load|
    ensures |MovedAll(load, moves)| == |load|
    ensures MovedAll(load, moves)[i] == load[i] - |DestsOf(moves, i)| + ArrivalsAt(moves, i)
  {
    if moves != [] {
      MovedAllAt(load, moves[..|moves| - 1], i);
    }
  }

  /** Levelling under way: the loads are the first ones with the moves made, and a level pool has none. */
  ghost predicate Levelling(first: seq<int>, load: seq<int>, moves: seq<Move>) {
    load == MovedAll(first, moves) && Total(load) == Total(first) && (Level(first) ==> moves == [])
  }

  lemma LevelOne(first: seq<int>, load: seq<int>, moves: seq<Move>, m: Move)
    requires Levelling(first, load, moves)
    requires m.source < |load| && m.dest < |load| && load[m.source] - load[m.dest] > 1
    ensures Levelling(first, Moved(load, m), moves + [m]) && Squares(Moved(load, m)) < Squares(load)
  {
    MoveLevels(load, m);
    assert (moves + [m])[..|moves|] == moves;
    assert moves == [] ==> load == first;
  }

  lemma NowLevel(load: seq<int>, most: nat, least: nat)
    requires IsMost(load, most) && IsLeast(load, least) && load[most] - load[least] <= 1
    ensures Level(load)
  {}

  method MoveOne(load: array<int>, m: Move)
    requires m.source < load.Length && m.dest < load.Length
    modifies load
    ensures load[..] == Moved(old(load[..]), m)
  {
    load[m.source] := load[m.source] - 1;
    load[m.dest] := load[m.dest] + 1;
  }

  /** A slot reserved on one loop. */
  method Reserve(pending: array<int>, dest: nat)
    requires dest < pending.Length
    modifies pending
    ensures pending[..] == old(pending[..])[dest := old(pending[dest]) + 1]
  {
    pending[dest] := pending[dest] + 1;
  }

  /**
   The levelling loop: one connection from the fullest to the emptiest until they are within one.
   It ends, leaves the pool level with the same total, and a level pool moves nothing. Every move
   has a slot reserved where it goes, and is on the list of the loop it leaves.
   */
  method Rebalance(load: array<int>, pending: array<int>) returns (dests: seq<seq<nat>>, ghost moves: seq<Move>)
    requires pending.Length == load.Length && pending != load
    modifies load, pending
    ensures Level(load[..])
    ensures Total(load[..]) == Total(old(load[..])) && load[..] == MovedAll(old(load[..]), moves)
    ensures Planned(dests, pending[..], old(pending[..]), moves)
    ensures Level(old(load[..])) ==> moves == []
  {
    moves := [];
    dests := seq(load.Length, i => []);
    if load.Length < 2 {
      return;
    }
    while true
      invariant Planned(dests, pending[..], old(pending[..]), moves)
      invariant Levelling(old(load[..]), load[..], moves)
      decreases Squares(load[..])
    {
      var most := MaxElement(load[..]);
      var least := MinElement(load[..]);
      if load[most] - load[least] <= 1 {
        NowLevel(load[..], most, least);
        return;
      }
      var m := Move(most, least);
      LevelOne(old(load[..]), load[..], moves, m);
      PlanOne(dests, pending[..], old(pending[..]), moves, m);
      MoveOne(load, m);
      Reserve(pending, least);
      dests := dests[most := dests[most] + [least]];
      moves := moves + [m];
    }
  }

  // ---- Arrivals and planned moves ----

  datatype LoopInfo = LoopInfo(retiring: bool, load: int)

  /** Least-loaded live loop, reserving a slot on it; none if all are retiring. */
  method Pick(loops: array<LoopInfo>) returns (best: int)
    modifies loops
    ensures best == -1 ==> loops[..] == old(loops[..]) && forall j | 0 <= j < loops.Length :: loops[j].retiring
    ensures best != -1 ==> 0 <= best < loops.Length && !old(loops[best]).retiring
    ensures best != -1 ==> forall j | 0 <= j < loops.Length && !old(loops[j]).retiring :: old(loops[best]).load <= old(loops[j]).load
    ensures best != -1 ==> loops[..] == old(loops[..])[best := old(loops[best]).(load := old(loops[best]).load + 1)]
  {
    best := -1;
    var k: nat := 0;
    while k < loops.Length
      invariant k <= loops.Length && -1 <= best < k
      invariant best == -1 ==> forall j | 0 <= j < k :: loops[j].retiring
      invariant best != -1 ==> !loops[best].retiring
      invariant best != -1 ==> forall j | 0 <= j < k && !loops[j].retiring :: loops[best].load <= loops[j].load
      invariant loops[..] == old(loops[..])
    {
      if !loops[k].retiring {
        if best == -1 || loops[k].load < loops[best].load { best := k; }
      }
      k := k + 1;
    }
    if best != -1 {
      loops[best] := loops[best].(load := loops[best].load + 1);
    }
  }

  function Reserved(load: seq<int>, dests: seq<nat>): seq<int> {
    if dests == [] then load
    else
      var l, d := Reserved(load, dests[..|dests| - 1]), dests[|dests| - 1];
      if d < |l| then l[d := l[d] + 1] else l
  }

  /** No loop chosen ends more than one above any candidate, nor above the fill mark. */
  ghost predicate Spread(load: seq<int>, dests: seq<nat>, fillTo: int) {
    forall k | 0 <= k < |dests| ::
      dests[k] < |load| && load[dests[k]] <= fillTo && forall j | 0 <= j < |load| :: load[dests[k]] - load[j] <= 1
  }

  lemma ReservedSnoc(first: seq<int>, load: seq<int>, dests: seq<nat>, d: nat)
    requires load == Reserved(first, dests) && d < |load|
    ensures Reserved(first, dests + [d]) == load[d := load[d] + 1]
  {
    assert (dests + [d])[..|dests|] == dests;
  }

  /** One slot more on an emptiest candidate, still under the mark, keeps the spread. */
  lemma SpreadSnoc(load: seq<int>, dests: seq<nat>, d: nat, fillTo: int)
    requires Spread(load, dests, fillTo) && IsLeast(load, d) && load[d] < fillTo
    ensures Spread(load[d := load[d] + 1], dests + [d], fillTo)
  {
    var l, ds := load[d := load[d] + 1], dests + [d];
    forall k | 0 <= k < |ds|
      ensures ds[k] < |l| && l[ds[k]] <= fillTo && forall j | 0 <= j < |l| :: l[ds[k]] - l[j] <= 1
    {
      if k < |dests| { assert ds[k] == dests[k]; }
    }
  }

  /** Up to k slots on the emptiest candidates, stopping once all are filled to the mark. */
  method PlanMoves(k: nat, to: array<int>, fillTo: int) returns (dests: seq<nat>)
    modifies to
    ensures |dests| <= k && to[..] == Reserved(old(to[..]), dests)
    ensures Spread(to[..], dests, fillTo)
    ensures |dests| < k ==> forall j | 0 <= j < to.Length :: to[j] >= fillTo
  {
    dests := [];
    while |dests| < k && to.Length > 0
      invariant |dests| <= k && to[..] == Reserved(old(to[..]), dests)
      invariant Spread(to[..], dests, fillTo)
    {
      var d := MinElement(to[..]);
      if to[d] >= fillTo {
        return;
      }
      ReservedSnoc(old(to[..]), to[..], dests, d);
      SpreadSnoc(to[..], dests, d, fillTo);
      Reserve(to, d);
      dests := dests + [d];
    }
  }
}
