/**
 One shard of the S3-FIFO document cache as a value: what each critical section
 of server/cache/s3fifo_cache.cc does to the queues, the index, the ghost list
 and the pin counters. The hash function is a parameter. An entry is named by
 its map key, which is unique among live entries. Queues run from tail (index 0,
 the next victim) to head (the last element).
 */
module CacheModel {

  import opened Options

  const MAX_FREQ: nat := 3
  const MAX_PENDING: nat := 0xFFFF_FFFF
  const SMALL_PERCENT: nat := 10
  const GHOST_FLOOR: nat := 1024

  datatype DocKey = DocKey(vbid: nat, key: seq<nat>)

  datatype Doc = Doc(value: seq<nat>, flags: nat, expiry: nat, dataType: nat, deleted: bool)

  datatype Queue = Small | Main

  datatype Entry = Entry(key: DocKey, doc: Doc, seqno: nat, charge: nat, pending: nat, freq: nat, queue: Queue)

  datatype Shard = Shard(
    small: seq<Entry>,
    main: seq<Entry>,
    index: set<(nat, DocKey)>,
    ghosts: seq<nat>,
    budget: nat,
    smallBudget: nat,
    pendingItems: int)

  // ---- Queues ----

  function Bytes(q: seq<Entry>): nat {
    if q == [] then 0 else q[0].charge + Bytes(q[1..])
  }

  function Pinned(q: seq<Entry>): nat {
    if q == [] then 0 else (if q[0].pending > 0 then 1 else 0) + Pinned(q[1..])
  }

  function PinnedBytes(q: seq<Entry>): nat {
    if q == [] then 0 else (if q[0].pending > 0 then q[0].charge else 0) + PinnedBytes(q[1..])
  }

  function Find(q: seq<Entry>, k: DocKey): (r: Option<Entry>)
    ensures r.Some? ==> r.value in q && r.value.key == k
    ensures r.None? ==> forall e | e in q :: e.key != k
  {
    if q == [] then None else if q[0].key == k then Some(q[0]) else Find(q[1..], k)
  }

  /** Replaces the entry for e.key in place; absent keys leave the queue alone. */
  function Replace(q: seq<Entry>, e: Entry): (r: seq<Entry>)
    ensures |r| == |q|
  {
    if q == [] then [] else if q[0].key == e.key then [e] + q[1..] else [q[0]] + Replace(q[1..], e)
  }

  function Remove(q: seq<Entry>, k: DocKey): seq<Entry> {
    if q == [] then [] else if q[0].key == k then q[1..] else [q[0]] + Remove(q[1..], k)
  }

  // ---- Shard operations ----

  function TotalBytes(s: Shard): nat {
    Bytes(s.small) + Bytes(s.main)
  }

  function Lookup(s: Shard, k: DocKey): Option<Entry> {
    if Find(s.small, k).Some? then Find(s.small, k) else Find(s.main, k)
  }

  function GhostCap(mainCount: nat): nat {
    if mainCount > GHOST_FLOOR then mainCount else GHOST_FLOOR
  }

  /** A remembered hash stays where it is; a new one pushes the oldest out past the cap. */
  function GhostAdd(ghosts: seq<nat>, h: nat, mainCount: nat): seq<nat> {
    if h in ghosts then ghosts
    else
      var g := ghosts + [h];
      if |g| > GhostCap(mainCount) then g[|g| - GhostCap(mainCount)..] else g
  }

  function Insert(H: DocKey -> nat, s: Shard, e: Entry): Shard {
    var s' := s.(index := s.index + {(H(e.key), e.key)});
    if H(e.key) in s.ghosts
    then s'.(main := s.main + [e.(queue := Main)])
    else s'.(small := s.small + [e.(queue := Small)])
  }

  function Unlink(s: Shard, e: Entry): Shard {
    if e.queue == Small then s.(small := Remove(s.small, e.key)) else s.(main := Remove(s.main, e.key))
  }

  /** The entry is already off its queue; drop it from the index and the pin count. */
  function Free(H: DocKey -> nat, s: Shard, e: Entry): Shard {
    s.(index := s.index - {(H(e.key), e.key)},
       pendingItems := if e.pending > 0 then s.pendingItems - 1 else s.pendingItems)
  }

  function EvictSmall(H: DocKey -> nat, s: Shard): Shard
    requires s.small != []
  {
    var e := s.small[0];
    var s' := s.(small := s.small[1..]);
    if e.pending > 0 || e.freq > 1
    then s'.(main := s.main + [e.(freq := 0, queue := Main)])
    else Free(H, s'.(ghosts := GhostAdd(s.ghosts, H(e.key), |s.main|)), e)
  }

  function EvictMain(H: DocKey -> nat, s: Shard): Shard
    requires s.main != []
  {
    var e := s.main[0];
    var s' := s.(main := s.main[1..]);
    if e.pending > 0 || e.freq > 0
    then s'.(main := s.main[1..] + [e.(freq := if e.freq > 0 then e.freq - 1 else 0)])
    else Free(H, s', e)
  }

  predicate CanEvict(s: Shard) {
    TotalBytes(s) > s.budget && (s.small != [] || s.main != [])
  }

  predicate FromSmall(s: Shard) {
    s.small != [] && (Bytes(s.small) > s.smallBudget || s.main == [])
  }

  function EvictOne(H: DocKey -> nat, s: Shard): Shard
    requires CanEvict(s)
  {
    if FromSmall(s) then EvictSmall(H, s) else EvictMain(H, s)
  }

  function EvictLoop(H: DocKey -> nat, s: Shard, guard: nat): Shard
    decreases guard
  {
    if guard > 0 && CanEvict(s) then EvictLoop(H, EvictOne(H, s), guard - 1) else s
  }

  function Guard(s: Shard): nat {
    (MAX_FREQ + 1) * (|s.small| + |s.main|) + 1
  }

  function Evict(H: DocKey -> nat, s: Shard): Shard {
    EvictLoop(H, s, Guard(s))
  }

  // ---- Critical sections ----

  datatype Op =
    | Put(key: DocKey, doc: Doc, charge: nat)              // Put and PutShared
    | Fill(key: DocKey, doc: Doc, seqno: nat, charge: nat) // PutIfAbsent, the part that inserts
    | Touch(key: DocKey)                                   // Get and GetCopy
    | Mark(key: DocKey, seqno: nat)                        // MarkPersisted under the shared lock
    | Trim                                                 // MarkPersisted's evict
    | SetBudget(perShard: nat)
    | Erase(key: DocKey)                                   // of a key with nothing unapplied
    | Refuse(key: DocKey)                                  // Erase after a write of the key was refused
    | Remember(key: DocKey)                                // the fill doorkeeper

  /** The old version of a key leaves its queue and the index; its pin count stays for the new version to take over. */
  function Displace(H: DocKey -> nat, s: Shard, k: DocKey): Shard {
    match Lookup(s, k)
    case None => s
    case Some(e) => Unlink(s, e).(index := s.index - {(H(k), k)})
  }

  function CarryOf(s: Shard, k: DocKey): nat {
    match Lookup(s, k)
    case None => 0
    case Some(e) => e.pending
  }

  /** The first unapplied write of a key pins it. */
  function CountedPin(s: Shard, carry: nat): Shard {
    if carry == 0 then s.(pendingItems := s.pendingItems + 1) else s
  }

  function Land(H: DocKey -> nat, s: Shard, k: DocKey, doc: Doc, charge: nat, carry: nat): Shard {
    Insert(H, CountedPin(s, carry), Entry(k, doc, 0, charge, carry + 1, 0, Small))
  }

  /** putEntry up to its evict. */
  function WriteThrough(H: DocKey -> nat, s: Shard, k: DocKey, doc: Doc, charge: nat): Shard {
    Land(H, Displace(H, s, k), k, doc, charge, CarryOf(s, k))
  }

  function Update(s: Shard, e: Entry): Shard {
    if e.queue == Small then s.(small := Replace(s.small, e)) else s.(main := Replace(s.main, e))
  }

  /** The count is unsigned: releasing a pin that is not there wraps it round. */
  function Marked(e: Entry, seqno: nat): Entry {
    e.(seqno := if seqno != 0 then seqno else e.seqno, pending := if e.pending > 0 then e.pending - 1 else MAX_PENDING)
  }

  function MarkEntry(s: Shard, k: DocKey, seqno: nat): Shard {
    match Lookup(s, k)
    case None => s
    case Some(e) =>
      Update(s, Marked(e, seqno)).(pendingItems := if e.pending == 1 then s.pendingItems - 1 else s.pendingItems)
  }

  function TouchEntry(s: Shard, k: DocKey): Shard {
    match Lookup(s, k)
    case None => s
    case Some(e) => if e.freq < MAX_FREQ then Update(s, e.(freq := e.freq + 1)) else s
  }

  /** The entry goes with whatever pins it has. */
  function EraseEntry(H: DocKey -> nat, s: Shard, k: DocKey): Shard {
    match Lookup(s, k)
    case None => s
    case Some(e) => Free(H, Unlink(s, e), e)
  }

  function Step(H: DocKey -> nat, s: Shard, op: Op): Shard {
    match op
    case Put(k, doc, charge) => Evict(H, WriteThrough(H, s, k, doc, charge))
    case Fill(k, doc, seqno, charge) =>
      if Lookup(s, k).Some? then s else Evict(H, Insert(H, s, Entry(k, doc, seqno, charge, 0, 0, Small)))
    case Touch(k) => TouchEntry(s, k)
    case Mark(k, seqno) => MarkEntry(s, k, seqno)
    case Trim => Evict(H, s)
    case SetBudget(b) => Evict(H, s.(budget := b, smallBudget := b * SMALL_PERCENT / 100))
    case Erase(k) => EraseEntry(H, s, k)
    case Refuse(k) => EraseEntry(H, s, k)
    case Remember(k) => s.(ghosts := GhostAdd(s.ghosts, H(k), |s.main|))
  }

  function Init(perShard: nat): Shard {
    Shard([], [], {}, [], perShard, perShard * SMALL_PERCENT / 100, 0)
  }

  function Run(H: DocKey -> nat, perShard: nat, ops: seq<Op>): Shard {
    if ops == [] then Init(perShard) else Step(H, Run(H, perShard, ops[..|ops| - 1]), ops[|ops| - 1])
  }

  // ---- The shard invariant ----

  /** The live entries of a queue by key. */
  ghost function View(q: seq<Entry>): map<DocKey, Entry> {
    if q == [] then map[] else View(q[1..])[q[0].key := q[0]]
  }

  ghost function Live(s: Shard): map<DocKey, Entry> {
    View(s.small) + View(s.main)
  }

  /** Keys are distinct, frequencies in range, and every entry knows its queue. */
  ghost predicate QueueOk(q: seq<Entry>, which: Queue) {
    q == [] || (q[0].freq <= MAX_FREQ && q[0].queue == which && q[0].key !in View(q[1..]) && QueueOk(q[1..], which))
  }

  /** The index's pairs for a set of keys. */
  ghost function Indexed(H: DocKey -> nat, keys: set<DocKey>): set<(nat, DocKey)> {
    set k | k in keys :: (H(k), k)
  }

  ghost predicate Ok(H: DocKey -> nat, s: Shard) {
    && QueueOk(s.small, Small) && QueueOk(s.main, Main)
    && View(s.small).Keys !! View(s.main).Keys
    && s.index == Indexed(H, Live(s).Keys)
    && s.pendingItems == Pinned(s.small) + Pinned(s.main)
    && s.smallBudget <= s.budget
  }
}
