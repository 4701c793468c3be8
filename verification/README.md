# fluxkv: a verified model of its cache, queues, connections, tuner and codec

fluxkv is a memcached-binary-protocol server in front of a storage engine. This
project models the parts of it that are its own state machines and data
structures, and proves what they keep over every run. The storage engine itself
is not modelled: where it matters it is a map from keys to documents and a
durable watermark that only rises.

Five parts of the server are covered.

- **Document cache.** `FlatIndex.dfy` is the open-addressing index with
  backward-shift deletion. `CacheModel.dfy` gives one shard's operations on
  values, `CacheEviction.dfy` proves the eviction guard, `CachePins.dfy` proves
  what pins guarantee over every run, `CacheRefusal.dfy` and `CacheBatch.dfy` what
  refused writes and deduplicated batches do to them, and `CacheShard.dfy` is the
  shard as a class whose methods are proved against the model. `SeqnoIndex.dfy` is
  the capped seqno side index.
- **Request queues and durable completion.** `RequestStack.dfy` holds the linked
  request lists, `WriteQueue.dfy`, `ReadQueue.dfy` and `ReadFifo.dfy` the
  per-vbucket protocols, `BatchSort.dfy` the sort and dedupe of write batches,
  `WriteEffect.dfy` what queue and batches together do to the store,
  `QueueBytes.dfy` the byte budget, `DurableAck.dfy` the acknowledgement of
  durable writes and `Mailbox.dfy` the loop mailbox they travel through.
- **Connections and loops.** `SendPath.dfy` is the shared socket,
  `InFlight.dfy` the in-flight count, `LoopRetire.dfy` and `LoopBalance.dfy` the
  retirement and balancing of IO loops.
- **Thread tuner.** `Tuner.dfy` has the decisions about one pool,
  `TunerRun.dfy` the decision window over all pools.
- **Codec and histogram.** `DocMeta.dfy` and `LatencyHist.dfy`.

`Totals.dfy`, `Arithmetic.dfy` and `Basics.dfy` hold what several of these share:
totals over any number of threads; powers of two, shifts and quotients; the
option type and bytes.

## How threads are modelled

Each operation of the cache, and each section of the send path, runs under a
lock in the server, so it is a method of a class. The lock-free protocols are
state machines: a state holds the shared variables and one program counter per
thread, for any number of threads, and a step is one atomic access or one
section under a mutex. `Can` says when a step is possible, `Do` what it does, and
a theorem is about `Run` of every `Legal` sequence of steps. Interleavings are
sequentially consistent. A compare-and-swap may fail although the value matches,
and a try-lock may fail.

## Hypotheses

- Cache pins: at most one MarkPersisted or refusal per Put (`CachePins.Legal`);
  the pin theorems also ask that a refused write was its key's only one
  outstanding (`CachePins.Alone`), which `PinsHoldIff` shows to be exactly what is
  needed.
- Cache entries are named by their key, which is unique among live entries. The
  hash of a key is a parameter.
- Seqno index: writer notes for one hash do not go backwards, the cap is fixed
  and a part's allocation never shrinks; the flag bits of a seqno are fields of
  their own, which needs seqnos below 2^62.
- Read queue: a batch cap and an owner maximum of at least one.
- Durable acknowledgement: parked requests are distinct; a loop is not
  unregistered while it has work.
- Send path: runs without socket errors; what the kernel takes of a write and
  how far folly has come are inputs.
- Tuner: pool sizes and bounds are multiples of the pool's step and every shard
  has a thread; the steady-window statistics are inputs; floating point is exact,
  and a square root is an input whose square is what it is the root of.
- Fixed-width fields of the codec are little-endian, as on every platform the
  server builds for.
- Counters the program keeps in 32 or 64 bits do not overflow upwards here; a
  width is modelled where it is part of the behaviour (key prefix, varint,
  metadata fields, samples, a pin count taken below zero).

## Results that qualify what the source says

- The eviction guard suffices (`GuardSuffices`), and for every number of entries
  all but one of its steps can be needed: four visits per entry (`GuardIsTight`).
- The cache erases the entry of a write that is refused, and with it the pins of
  any other write of the key. So pins hold throughout a run if and only if every
  refused write was its key's only one outstanding (`PinsHoldIff`); with another
  outstanding that one loses its entry (`RefusalUnpins`, `RefusalRun`), and
  releasing its pin later can wrap the count of an entry a read has filled, which
  then stays pinned for good (`ReleaseWraps`).
- The writer releases pins for the survivors of a batch only: every key keeps
  exactly as many pins too many as it had duplicates dropped
  (`DroppedStayPinned`), and none if nothing of it was dropped (`NothingDropped`).
- A truncated compact metadata is refused exactly when it is not 30 bytes long: a
  prefix of that length reads as a legacy one (`TruncationRejected`), and there
  are encodings long enough to have one (`TruncationAccepted`).
- With a single read owner the number of rounds a read waits is known exactly. It
  is within `ahead / cap + 1` if and only if no batch is settled, or the settled
  batch holds the read, or is larger than `ahead % cap` (`BoundedWait`); a run in
  which it is not is `ExtraRoundNeeded`.
- While some writer is between its push and its bump of the generation, notifier
  and loop may both be at rest with a covered request still parked, even one whose
  own writer has finished (`WriterMidway`); with no writer midway they may not
  (`NothingForgotten`). Both ways, and for every vector of writer positions:
  `ForgetsIff`.
- Two consecutive empty ticks are enough to stop a retiring loop (`StopsEmpty`);
  one is not (`FewerTicksUnsafe`). Neither number covers a read whose connection
  was closed before its answer: a loop can be stopped with one still to be answered
  on it if and only if connections may be closed with a read unanswered
  (`StrandedIff`), as the server closes them.
- No step is kept both as a grow and as the reverse shrink at one noise level,
  although the two are judged over different numbers of windows and so at
  different tolerances (`NeverBothKept`). At two different noise levels some step
  can be, exactly when the two thresholds meet (`CrossNoise`), and they can
  (`CrossNoiseMeets`).
- A reverted or abandoned change restores the exact size before it, although the
  pool rounds what it is asked for and may refuse to retire a shard's last thread
  (`UndoneExactly`).
- A histogram bucket's bound is within a 64th above its samples exactly on
  1..2^31 (`UpperIsTight`).

## Model

| member | source | states |
|---|---|---|
| FlatIndexes.HoleExists | server/cache/s3fifo_cache.cc:250-257 | a table holding fewer pairs than slots has an empty slot, so every probe loop ends |
| FlatIndexes.Place | server/cache/s3fifo_cache.cc:336-343 | placing an entry keeps every probe path unbroken and adds exactly its pair |
| FlatIndexes.ProbeComplete | server/cache/s3fifo_cache.cc:233-247 | an entry of the probed hash cannot lie past the empty slot the probe stops at |
| FlatIndexes.RangeTest | server/cache/s3fifo_cache.cc:259-292 | the deletion loop's cyclic range test asks exactly whether the hole is off the entry's probe path |
| FlatIndexes.ShiftSkip | server/cache/s3fifo_cache.cc:259-292 | passing over an entry whose path avoids the hole keeps the shift invariant and comes nearer the next empty slot |
| FlatIndexes.ShiftMove | server/cache/s3fifo_cache.cc:259-292 | moving an entry into the hole keeps the shift invariant with the hole at its old slot |
| FlatIndexes.ShiftDone | server/cache/s3fifo_cache.cc:259-292 | at the next empty slot no probe path crosses the hole any more |
| FlatIndexes.CloseHole | server/cache/s3fifo_cache.cc:259-292 | backward-shift deletion removes exactly one pair and leaves no probe path crossing a hole |
| FlatIndexes.FlatIndex.constructor | server/cache/s3fifo_cache.cc:230-231 | an empty index |
| FlatIndexes.FlatIndex.Find | server/cache/s3fifo_cache.cc:233-247 | returns a live entry with this hash and key, and none only when there is none |
| FlatIndexes.FlatIndex.Insert | server/cache/s3fifo_cache.cc:250-257 | adds exactly the pair, growing before the load passes 70 percent |
| FlatIndexes.FlatIndex.Grow | server/cache/s3fifo_cache.cc:345-362 | the doubled table holds exactly the same pairs |
| FlatIndexes.FlatIndex.Locate | server/cache/s3fifo_cache.cc:259-270 | finds the slot of an entry by identity, or none when it is not in the table |
| FlatIndexes.FlatIndex.Erase | server/cache/s3fifo_cache.cc:259-292 | removes exactly the pair, or nothing when it is absent |
| CacheEviction.VisitCountsDown | server/cache/s3fifo_cache.cc:590-603 | one visit to main's oldest entry takes one off the number of visits every unpinned entry can still survive |
| CacheEviction.MainPhase | server/cache/s3fifo_cache.cc:556-603 | with small inside its share, as many visits as the longest-surviving unpinned entry needs end eviction |
| CacheEviction.SmallPhase | server/cache/s3fifo_cache.cc:556-603 | entries moved from small arrive with frequency zero, so four visits per entry cover both phases |
| CacheEviction.GuardSuffices | server/cache/s3fifo_cache.cc:556-603 | from any shard the guard never stops eviction early: within budget, or small in its share and all of main pinned; overshoot is at most pinned bytes |
| CacheEviction.VisitsNeeded | server/cache/s3fifo_cache.cc:556-603 | with main unpinned and no budget, eviction is complete exactly when the loop may make each entry's frequency plus one visits, summed over main |
| CacheEviction.GuardIsTight | server/cache/s3fifo_cache.cc:556-603 | for every number of unpinned entries of frequency three and no budget, eviction is complete exactly from four visits per entry on, one less than the guard allows |
| CachePins.EvictKeeps | server/cache/s3fifo_cache.cc:556-603 | eviction keeps the shard's invariant and every pinned entry, with its document and its pins |
| CachePins.WriteThroughKeeps | server/cache/s3fifo_cache.cc:799-818 | a write replaces the old entry and carries its pins over, one more |
| CachePins.MarkKeeps | server/cache/s3fifo_cache.cc:865-888 | releasing one pin changes that entry's count alone |
| CachePins.RefuseFaithful | server/cache/s3fifo_cache.cc:897-908 | undoing a refused write keeps the invariant and takes the entry away; the pins still agree with the history exactly if it was the only write of its key outstanding |
| CachePins.StepFaithful | server/cache/s3fifo_cache.cc:799-908 | every operation keeps the live entries in agreement with the history |
| CachePins.PinsOverRuns | server/cache/s3fifo_cache.cc:526-551 | over every run in which refused writes were alone, pending is Puts minus MarkPersisteds and refusals, a pinned key is resident with its newest Put, the index holds exactly the queued entries and pendingItems counts the pinned |
| CachePins.FillNeverOverWrite | server/cache/s3fifo_cache.cc:820-863 | a read fill for a key with a write outstanding changes nothing at all, refused writes having been alone |
| CachePins.OvershootIsPinned | server/cache/s3fifo_cache.cc:553-572 | after every operation that evicts, in any sequence of operations whatever, the shard is over budget by at most its pinned bytes |
| CacheRefusals.PinsHoldIff | server/connection.cc:1197-1207 | pins agree with the history after every operation of a run if and only if every refused write was its key's only one outstanding |
| CacheRefusals.RefusalUnpins | server/connection.cc:1197-1207 | after any such run with two writes of a key outstanding, refusing one leaves the other outstanding and the key not resident |
| CacheRefusals.RefusalRun | server/connection.cc:1213-1235 | for every key and documents a run in which that happens |
| CacheRefusals.ReleaseWraps | server/cache/s3fifo_cache.cc:873-888 | a run in which the release of the write that lost its entry wraps the count of a filled entry, pinned from then on with no write outstanding |
| CacheBatches.ReleaseAll | server/engine.cc:1217-1228 | the releases after a batch are one legal run more, with one write fewer outstanding per request written |
| CacheBatches.SurvivorTimes | server/engine.cc:1142-1154 | of every key the batch writes exactly one request survives |
| CacheBatches.WrittenPins | server/engine.cc:1217-1228 | after a batch as written, a key's pins beyond its writes still to be applied are the requests put less the requests written |
| CacheBatches.DroppedStayPinned | server/engine.cc:1217-1232 | after a deduplicated batch, failed or not, every key keeps exactly as many pins too many as duplicates were dropped |
| CacheBatches.NothingDropped | server/engine.cc:1217-1228 | a key the batch writes at most once, or any key of an unsorted batch, keeps none |
| CacheShards.DropOldest | server/cache/s3fifo_cache.cc:514-524 | the ghost deque is cut to its cap from the oldest end, with the set kept in step |
| CacheShards.ShardCache.constructor | server/cache/s3fifo_cache.cc:606-618 | an empty shard with its budgets |
| CacheShards.ShardCache.FindEntry | server/cache/s3fifo_cache.cc:510-512 | the index lookup finds exactly the queued entry of that key |
| CacheShards.ShardCache.RememberGhost | server/cache/s3fifo_cache.cc:514-524 | the hash is remembered once, the oldest forgotten past the cap |
| CacheShards.ShardCache.EvictSmallTail | server/cache/s3fifo_cache.cc:574-588 | moves the oldest small entry to main, or frees it and remembers its hash; the index and the counts follow |
| CacheShards.ShardCache.EvictMainTail | server/cache/s3fifo_cache.cc:590-603 | the oldest main entry goes round again less frequent, or is freed; the index and the counts follow |
| CacheShards.ShardCache.EvictToBudget | server/cache/s3fifo_cache.cc:556-572 | the guarded loop is the eviction the guard theorem is about, and keeps the shard's invariant |
| CacheShards.ShardCache.InsertEntry | server/cache/s3fifo_cache.cc:530-540 | a remembered hash enters main, any other small; the index gains exactly the entry |
| CacheShards.ShardCache.UnlinkEntry | server/cache/s3fifo_cache.cc:526-528 | the entry leaves the queue it names, and its bytes with it |
| CacheShards.ShardCache.Put | server/cache/s3fifo_cache.cc:799-818 | the shard is as the write-through and eviction of the model leave it, invariant kept |
| CacheShards.ShardCache.DeferFill | server/cache/s3fifo_cache.cc:842-851 | a hash not remembered is remembered and the fill put off; a remembered one changes nothing |
| CacheShards.ShardCache.FillIfAbsent | server/cache/s3fifo_cache.cc:852-863 | looks again, and fills and evicts only if the key is still absent |
| CacheShards.ShardCache.PutIfAbsent | server/cache/s3fifo_cache.cc:820-863 | look, doorkeeper and fill in turn: a fill lands only when the key is absent, then evicts; with the doorkeeper the first miss of a hash is only remembered |
| CacheShards.ShardCache.Get | server/cache/s3fifo_cache.cc:740-767 | miss, tombstone, too large for the room given, or the resident document, exactly when each holds; a resident entry's frequency rises up to three in all but the first |
| CacheShards.ShardCache.ReleasePin | server/cache/s3fifo_cache.cc:873-888 | one pin fewer, or the count wrapped if there was none; reports exactly whether it was the last and the shard is over budget |
| CacheShards.ShardCache.MarkPersisted | server/cache/s3fifo_cache.cc:865-895 | a pin is released, and the shard trimmed when that was the last one over budget |
| CacheShards.ShardCache.EraseKey | server/cache/s3fifo_cache.cc:897-908 | the key's entry leaves queue, index and counts |
| CacheShards.ShardCache.SetBudget | server/cache/s3fifo_cache.cc:620-630 | new budgets, then eviction to them |
| SeqnoIndexes.Scan | server/cache/s3fifo_cache.cc:439-454 | at most 64 used entries lose their bit, each passed over once, before one not used, or the next one, is reached |
| SeqnoIndexes.EvictSeq | server/cache/s3fifo_cache.cc:439-462 | exactly one entry of the part goes; of the others only used bits change; the hand stays on an entry or is unset |
| SeqnoIndexes.SeqnoIndex.constructor | server/cache/s3fifo_cache.cc:410-420 | an empty index |
| SeqnoIndexes.SeqnoIndex.RefusalIsFinal | server/cache/s3fifo_cache.cc:477-488 | when a note is refused, and when not, what holds of the part, so a refused writer note can never leave a stale hint behind |
| SeqnoIndexes.SeqnoIndex.Admit | server/cache/s3fifo_cache.cc:482-493 | a new entry, after an eviction if it does not fit, keeps the index's invariant for every other hash |
| SeqnoIndexes.SeqnoIndex.NoteSeqno | server/cache/s3fifo_cache.cc:469-504 | entries only rise, a pointer belongs to the current seqno, entries present plus evictions equal entries admitted |
| SeqnoIndexes.SeqnoIndex.NoteValuePtr | server/cache/s3fifo_cache.cc:922-937 | a pointer is stored only for the current, not deleted, seqno |
| SeqnoIndexes.SeqnoIndex.SeqnoHint | server/cache/s3fifo_cache.cc:939-961 | a hint that is not zero is at least every writer-noted seqno of that hash, and its pointer was reported for exactly that seqno |
| BatchSort.KeyPrefix | server/engine.cc:84-96 | the prefix is the first eight bytes, zero-padded, as one big-endian number |
| BatchSort.PrefixCompare | server/engine.cc:84-96 | two prefixes compare as the first byte in which the padded keys differ |
| BatchSort.CompareIsBefore | server/engine.cc:1123-1137 | the comparator is unsigned lexicographic key order, then arrival, for all keys, embedded zeros and mixed lengths included |
| BatchSort.SameKeyIsEqual | server/engine.cc:1119-1122 | the run test is key equality |
| BatchSort.InsertIndex | server/engine.cc:1123-1137 | an index inserted with the comparator keeps a sorted permutation |
| BatchSort.SortIndices | server/engine.cc:1123-1137 | a permutation of the batch in key order, arrival order within a key |
| BatchSort.Dedupe | server/engine.cc:1142-1154 | the last of each run of equal keys is kept and the rest dropped |
| BatchSort.PartsPermute | server/engine.cc:1142-1154 | survivors plus dropped are a permutation of the batch |
| BatchSort.KeptNewest | server/engine.cc:1138-1154 | every survivor is the newest write of its key |
| BatchSort.SurvivorsSuffice | server/engine.cc:1082-1092 | applying the survivors gives the same store as applying the batch in arrival order |
| BatchSort.SortAndDedupe | server/engine.cc:1093-1158 | the survivors leave every store as the batch does, and every request is kept or dropped |
| BatchSort.PersistBatch | server/engine.cc:1173-1176 | each written request gets the vbucket's next seqno, sorted or not |
| BatchSort.PersistRun | server/engine.cc:1065-1176 | batch after batch, each sorted or not, gives a log whose seqnos count on from the first and whose batches each mean what arrived |
| BatchSort.BatchPreservesMeaning | server/engine.cc:1065-1158 | a batch as written has the meaning of the batch in arrival order |
| BatchSort.RunPreservesMeaning | server/engine.cc:1065-1158 | over any run of batches, such as PersistRun writes, the log leaves the store as the writes in arrival order do |
| BatchSort.RunSeqnos | server/engine.h:582-584 | seqnos strictly increase along the whole log, so per key and across batches |
| RequestStacks.ReverseAppend | server/engine.h:463-471 | reversing one grabbed chain gives arrival order, later chains after earlier ones |
| RequestStacks.RequestStack.constructor | server/engine.h:435-436 | an empty stack |
| RequestStacks.RequestStack.InsertChain | server/engine.h:443-452 | the chain goes in front of what was there, links unbroken, and the result says whether it was empty |
| RequestStacks.RequestStack.SweepOnce | server/engine.h:468-485 | one grab takes the whole chain in link order and unlinks every request |
| RequestStacks.Detach | server/engine.cc:1564-1571 | up to the cap of the oldest overflow requests, unlinked, and where the rest begins |
| RequestStacks.LinkExcess | server/engine.cc:1596-1606 | the requests past the cap are linked in order, ending in null |
| RequestStacks.OverflowList.Drain | server/engine.cc:1562-1575 | batch and remaining overflow are the old overflow, split at the cap |
| RequestStacks.OverflowList.Append | server/engine.cc:1596-1621 | the excess of a batch is appended to the overflow, oldest first |
| WriteQueues.StepKeeps | server/engine.cc:712-719 | every step of every thread keeps one task per set flag, no unseen non-empty list, and arrival order |
| WriteQueues.OneOwner | server/engine.cc:2354-2372 | in every run the flag is set exactly when one task exists, so one worker at most executes a vbucket |
| WriteQueues.ArrivalOrder | server/engine.cc:1055-1071 | written, in hand and queued, in that order, are the writes in arrival order: each executes once, in order |
| WriteQueues.NothingStranded | server/engine.cc:824-857 | at rest a non-empty list has its one task queued or deferred, and with no task everything is written |
| WriteEffects.StoreInArrivalOrder | server/engine.cc:1055-1158 | in every interleaving, however each batch was sorted and deduplicated, the store is what the executed writes give one by one in arrival order, and at rest with no task what all writes give |
| ReadQueues.OwnersKept | server/engine.cc:2390-2416 | every step keeps owner slots equal to tasks and working threads, and at most the maximum |
| ReadQueues.WakeKept | server/engine.cc:725-745 | every step keeps a thread that will still look whenever no owner is left and list or overflow is not empty |
| ReadQueues.PlacesKept | server/engine.cc:1547-1622 | every step moves reads between list, overflow, batches and dispatched without losing or doubling one |
| ReadQueues.OwnerSlots | server/engine.cc:2374-2416 | in every run readOwners is the tasks queued plus the threads working, and never over the maximum |
| ReadQueues.ExtraOwnerEarned | server/engine.cc:2393-2416 | a push adds an owner beside others only when it found more queued than a full batch for each of them |
| ReadQueues.OnePlace | server/engine.cc:1547-1622 | every read enqueued, and no other, is in exactly one of list, overflow, one owner's batch and dispatched |
| ReadQueues.NothingStranded | server/engine.cc:725-745 | with no thread mid-step and no owner, list and overflow are empty and every read is dispatched; readDepth is the backlog |
| ReadFifo.OrderKept | server/engine.cc:1547-1623 | with one owner every step keeps dispatched, batch, overflow and reversed list in arrival order |
| ReadFifo.DispatchOrder | server/engine.cc:1547-1623 | in every run with one owner reads dispatch in arrival order |
| ReadFifo.SweepSettles | server/engine.cc:1577-1621 | a settled batch is full, or is everything that has arrived |
| ReadFifo.RoundsCount | server/engine.cc:1591-1621 | over any run the rounds a read still waits fall by exactly one per dispatch, to zero, and by nothing else |
| ReadFifo.BoundedWait | server/engine.cc:1591-1621 | from every reachable state a read is dispatched, in its place, after exactly the computed number of rounds; that is within ahead / cap + 1 if and only if no batch is settled, or the settled one holds the read or is larger than ahead % cap |
| ReadFifo.ExtraRoundNeeded | server/engine.cc:1577-1621 | a run in which the extra round is needed |
| QueueBytes.StepMoves | server/engine.cc:1230-1294 | every step changes any total over the unreleased writes by exactly what it flushes and releases |
| QueueBytes.BooksKept | server/engine.cc:413-430 | every step keeps the counter equal to the unreleased bytes, entries equal to their writes, and staged bytes to the staged writes |
| QueueBytes.CounterExact | server/engine.cc:1233-1294 | in every run, completions in any order, queuedBytes is the charged size of the flushed writes not yet released, so it never underflows |
| QueueBytes.ZeroIffReleased | server/engine.cc:1233-1294 | it is zero exactly when none is unreleased |
| QueueBytes.WithinLimit | server/engine.cc:2334-2358 | staged plus queued bytes never exceed the limit times the number of IO threads |
| QueueBytes.BatchBytes | server/engine.cc:1188-1235 | the writer's sum covers survivors and dropped duplicates |
| QueueBytes.CollectDue | server/engine.cc:413-426 | the in-place pass keeps the entries not yet durable, in order, and sums the rest |
| DurableAcks.WakeKept | server/engine.cc:431-465 | every step keeps someone coming for each covered parked request: a writer midway, a stale notifier, a wake or a drain |
| DurableAcks.AnsweredOnce | server/engine.cc:497-527 | every parked request is in exactly one of list, loop and answers, and none is answered before the watermark covers it |
| DurableAcks.NothingForgotten | server/engine.cc:375-465 | at rest, having seen the latest generation and watermark, every covered request has been answered exactly once |
| DurableAcks.WriterMidway | server/engine.cc:375-398 | for any three requests the watermark covers, a run to where notifier and loop rest with one parked although its writer has finished, while another writer has pushed and not yet bumped |
| DurableAcks.ForgetsIff | server/engine.cc:375-465 | for every vector of writer positions and every watermark, some run rests there with a covered request unanswered if and only if some writer is midway and none has pushed an empty chain |
| DurableAcks.DrainLocal | server/engine.cc:509-521 | the in-place pass answers exactly the covered requests and keeps the others in order |
| Mailboxes.RunsInOrder | server/iothread.h:127-142 | mail runs once each, in the order it was posted |
| Mailboxes.NoMailStranded | server/iothread.h:96-118 | with no post under way, waiting mail has a pump scheduled or a wake on its way, and shows in the flag |
| SendPaths.Gather | server/connection.cc:1532-1568 | the scatter list is the frames' bytes, and the total their number |
| SendPaths.Unsent | server/connection.cc:1588-1599 | after a short write the spill gains exactly the bytes not sent |
| SendPaths.FollyToWire | server/connection.cc:475-486 | folly's progress moves bytes from its queue to the wire and changes the stream not at all |
| SendPaths.Connection.constructor | server/connection.h:125-155 | a connection with nothing sent and nothing outstanding |
| SendPaths.Connection.WriteOwned | server/connection.cc:475-486 | whole frames handed to folly extend the stream by exactly those frames |
| SendPaths.Connection.WriteSpill | server/connection.cc:461-463 | the spill moves to folly, which keeps the stream as it was |
| SendPaths.Connection.WriteChain | server/connection.cc:488-508 | the spill first, then one whole frame |
| SendPaths.Connection.FlushPending | server/connection.cc:452-473 | spill, then pending answers, reach folly as whole frames in order |
| SendPaths.Connection.PutInStream | server/connection.cc:1570-1606 | whatever the kernel takes, wire, folly and spill stay a concatenation of whole frames |
| SendPaths.Connection.WriteDirect | server/connection.cc:1522-1610 | the responses join the stream whole; the first to spill since a flush leaves its requests to the loop |
| SendPaths.Connection.HandOff | server/connection.cc:1601-1604 | a spill always has a callback coming that keeps its requests in the count |
| SendPaths.Connection.RunPosted | server/connection.cc:1690-1709 | the callback flushes before its requests are released |
| SendPaths.Connection.ReleasePosted | server/connection.cc:1701-1708 | the flushed batch leaves the count, and nothing else changes |
| SendPaths.Connection.FinishDirect | server/connection.cc:1711-1759 | requests answered directly leave the count, and nothing else changes |
| SendPaths.Connection.Respond | server/connection.cc:1493-1520 | a loop's answer joins the pending buffer as a whole frame |
| SendPaths.Connection.WriteSuccess | server/connection.h:57-72 | a finished write leaves folly's queue, its count and the in-flight buffers together |
| SendPaths.Connection.Progress | server/connection.cc:475-486 | bytes of folly's oldest write reach the wire and the stream is unchanged |
| SendPaths.Connection.TryFinishMigrate | server/connection.cc:306-370 | a socket detaches exactly when requests, pending buffer and folly's writes are done; then the spill is empty too and every response is on the wire |
| SendPaths.Connection.FinishAttach | server/connection.cc:372-381 | on the new loop the connection is open again with every response on the wire and nothing outstanding |
| InFlight.SendCount | server/connection.cc:1612-1759 | every sender step keeps the count equal to what is outstanding |
| InFlight.OffLoopStep | server/connection.cc:1728-1759 | with a flag set no sender step takes the count to zero, and at zero none moves it |
| InFlight.CountExact | server/connection.cc:1612-1639 | in every run the count is unreleased requests, extra references and releases posted to the loop |
| InFlight.NeverZeroOffLoop | server/connection.cc:1728-1759 | once the connection is closed or migrating no release off the loop takes the count to zero |
| InFlight.FreedOnce | server/connection.cc:215-258 | the connection is freed at most once, with nothing outstanding and no sender inside; closed with nothing outstanding it has been, or is about to be |
| InFlight.MovesClean | server/connection.cc:306-343 | between loops nothing is outstanding, and a migration with nothing outstanding always has its check or its output pending |
| LoopRetire.BooksKept | server/iothread.h:170-185 | every step keeps the three counters equal to what they count, but for an arrival midway |
| LoopRetire.StopsEmpty | server/server.cc:236-275 | a loop stopped after two empty ticks has no connection and so no read of one, none in transit to it and no reply held, in every run |
| LoopRetire.FewerTicksUnsafe | server/server.cc:236-268 | with fewer ticks a run stops a loop that has a connection |
| LoopRetire.OrphansCount | server/connection.cc:238-241 | in every run the reads still to be answered for closed connections are those left behind less those answered since |
| LoopRetire.StrandedIff | server/connection.cc:238-241 | whatever number of ticks is asked for, a run stops the loop with a read still to be answered on it if and only if connections may be closed with one unanswered |
| LoopBalance.MinElement | server/server.cc:154-157 | the first of the least loads |
| LoopBalance.MaxElement | server/server.cc:190 | the first of the greatest loads |
| LoopBalance.MoveLevels | server/server.cc:189-201 | moving one across a gap over one lowers the sum of squared loads and keeps the total |
| LoopBalance.PlanOne | server/server.cc:194-201 | one more move adds its destination to its source's list and one reservation at its destination, and nothing else |
| LoopBalance.MovedAllAt | server/server.cc:189-201 | a loop ends with its load less the moves on its list plus the slots reserved on it |
| LoopBalance.Rebalance | server/server.cc:171-205 | levelling ends with loads within one, the total unchanged, the loads those of the planned moves, each move on its source's list in order and a slot reserved for it at its destination; a level pool plans none |
| LoopBalance.Pick | server/server.cc:74-89 | the least loaded live loop, with a slot reserved on it, or none if all are retiring |
| LoopBalance.PlanMoves | server/server.cc:149-165 | each slot is on a least loaded candidate, none ends over one above another or over the fill mark, and planning stops short only when all are filled |
| Tuners.NeverBothKept | server/tuner.cc:513-541 | for every noise, step and size, each verdict at the tolerance of its own number of windows, no step is kept as a grow and its reverse as a shrink |
| Tuners.StepNotKeptBothWays | server/tuner.cc:486-541 | of two trials of pools, one the reverse of the other at the same noise and not idle, not both are kept |
| Tuners.MeasureGrows | server/tuner.cc:445-451 | the same change is measured over no fewer windows from the larger size, so at no larger tolerance |
| Tuners.CrossNoise | server/tuner.cc:532-540 | at two noise levels some step can be, exactly when the two thresholds meet |
| Tuners.CrossNoiseMeets | server/tuner.cc:532-540 | two noise levels at which they meet |
| Tuners.SoftenShrink | server/tuner.cc:424-428 | the largest of the shrink, one step less, two steps less and so on that is at most a step or would not leave the pool asking to grow again |
| Tuners.PlanTrial | server/tuner.cc:367-436 | the imperative plan, shrink softened by the loop, is the plan the bounds below are proved of |
| Tuners.Retired | server/engine.cc:777-786 | a shard retires at most what it has over the thread it keeps |
| Tuners.GrownExactly | server/tuner.h:80-85 | asked for whole steps, a pool grows by exactly that |
| Tuners.ShrunkExactly | server/tuner.h:86-91 | asked for whole steps short of its size, a pool shrinks by exactly that, whether or not a shard keeps its last thread |
| Tuners.UndoneExactly | server/tuner.cc:276-280 | asking the pool to take a trial's change back restores the size before it |
| Tuners.PlanOk | server/tuner.cc:367-436 | a planned change is a whole number of steps, within the bounds and within the cap a revert left |
| Tuners.PlanRestrained | server/tuner.cc:373-436 | no trial in a direction backing off; a grow only of a busy pool and at most doubling it; a shrink of at most half, a quarter of a pegged pool, and not to where the pool would ask to grow again |
| Tuners.StartedOk | server/tuner.cc:438-483 | a started trial, its size what the pool makes of the request, is within bounds and exactly the planned change from the size before |
| Tuners.JudgedOk | server/tuner.cc:486-602 | a verdict keeps the change, or asks the pool to take it back and so restores the exact size before |
| Tuners.HalvingsIsLog | server/tuner.cc:584-597 | the number of halvings is one more than the binary logarithm |
| Tuners.RevertsBeforeBackoff | server/tuner.cc:568-602 | a direction reverts at most one more time than the binary logarithm of its first reverted change in steps, and then backs off |
| TunerRuns.ClosedOk | server/tuner.cc:337-365 | closing a window keeps a pool's sizes, caps and revert bounds |
| TunerRuns.TrialStepOk | server/tuner.cc:253-296 | a trial in flight goes on, is kept, or ends at exactly the size before it, judged and reverted or abandoned |
| TunerRuns.ThreadTuner.constructor | server/tuner.h:183-191 | pools with no trial in flight |
| TunerRuns.ThreadTuner.CloseWindows | server/tuner.cc:210-251 | every pool's window is closed, and the load counts as steady exactly when no trial is in flight |
| TunerRuns.ThreadTuner.StartTrial | server/tuner.cc:367-484 | starts exactly the planned change, or nothing |
| TunerRuns.ThreadTuner.AdvanceTrial | server/tuner.cc:253-296 | the one trial in flight moves on and every other pool is left alone |
| TunerRuns.ThreadTuner.StartMomentum | server/tuner.cc:321-325 | the first pool with momentum and something to try starts |
| TunerRuns.ThreadTuner.StartInTurn | server/tuner.cc:328-334 | otherwise the first rested pool in turn with something to try starts |
| TunerRuns.ThreadTuner.Decide | server/tuner.cc:210-335 | in every window: one trial at most across all pools, one pool at most changes size, sizes in bounds, and which pool does what |
| TunerRuns.ShardedPoolGroup.constructor | server/tuner.h:63-65 | shards of equal size |
| TunerRuns.ShardedPoolGroup.Size | server/tuner.h:73-79 | the total over the shards |
| TunerRuns.ShardedPoolGroup.Grow | server/tuner.h:80-85 | shard by shard, the total becomes what the tuner reckons a grow to give |
| TunerRuns.ShardedPoolGroup.Shrink | server/tuner.h:86-91 | shard by shard, each stopping at the thread it must keep, the total becomes what the tuner reckons a shrink to give |
| DocMetas.TakeWrittenVarint | server/metadata.h:71-92 | reading where a varint was written gives its value, or a refusal if the input ends inside it |
| DocMetas.DecodeAgreeing | server/metadata.h:139-178 | any input agreeing with an encoding and not 30 bytes long decodes to the meta if the encoding is all there, and is refused if not |
| DocMetas.CompactRoundTrip | server/metadata.h:105-178 | the encoding is never 30 bytes, fits the buffer and decodes to what was encoded |
| DocMetas.TruncationRejected | server/metadata.h:139-178 | a strict prefix of the unpadded encoding is refused exactly when it is not 30 bytes long |
| DocMetas.TruncationAccepted | server/metadata.h:139-150 | for every cas there is a meta of 33 encoded bytes whose first 30 read as a legacy meta |
| DocMetas.TrailingIgnored | server/metadata.h:130-178 | bytes after the encoding, the pad among them, are ignored |
| DocMetas.LegacyRoundTrip | server/metadata.h:37-40 | a legacy meta decodes to what was encoded |
| DocMetas.PutVarint | server/metadata.h:71-79 | the loop writes exactly the varint and leaves what is before it |
| DocMetas.EncodeUnpadded | server/metadata.h:105-133 | the buffer holds the fields in order |
| DocMetas.EncodeCompact | server/metadata.h:105-137 | the buffer holds the compact form, padded if it would be 30 bytes |
| DocMetas.GetVarint | server/metadata.h:81-92 | the loop reads seven bits a byte, never past the input, up to 64 bits |
| LatencyHists.UpperIsTight | client/fluxbench.cc:481-496 | a bucket's bound lies between its samples and 65/64 of them exactly on 1..2^31, and is exact below 64 |
| LatencyHists.BucketMonotone | client/fluxbench.cc:481-490 | larger samples never fall in smaller buckets, across both shift regimes and the clamp |
| LatencyHists.RankFound | client/fluxbench.cc:535-543 | the bucket where the running count passes rank k is the bucket of the k-th smallest sample |
| LatencyHists.LatencyHist.constructor | client/fluxbench.cc:476-480 | an empty histogram |
| LatencyHists.LatencyHist.Add | client/fluxbench.cc:497-500 | the histogram counts one sample more |
| LatencyHists.LatencyHist.Merge | client/fluxbench.cc:501-506 | the histogram counts both sets of samples, its own twice when merged with itself |
| LatencyHists.LatencyHist.Percentile | client/fluxbench.cc:527-543 | for every sorting of the samples added or merged, the bound of the bucket of the sample at that rank, at most a 64th above it |

## Left out

- The storage engine, its log, compaction and iterators: foreign code, a map and a rising watermark here.
- Sockets, event loops, HTTP stats, cluster configuration, SASL and HELLO: plumbing around library calls.
- Memory orders and pointer reuse at the level of single instructions: steps are sequentially consistent.
- Handing a sender's responses to the lock holder is modelled for the count and for frame integrity; that no response is ever left behind is not claimed, as some holders release the lock without draining.
- Value linearizability of cached reads: a slow disk read may fill after a newer write was applied and evicted.
- Prefetching, latency traces, statistics, allocator routing and spin loops: no effect on results.
- The memory, compaction and space governors, option parsing, the client's network loops and its key generator: clamps and I/O.
- Shutdown, and loops being unregistered from the durable notifier: steady-state operation only.
- CacheShards.ShardCache.Get: the document is returned as a value; the bytes copied into the caller's buffer are its value.
- CacheShards.ShardCache.ReleasePin: reads and releases that share the shard's lock are taken one at a time; each touches its entry's counters atomically.
- CacheShards.ShardCache.PutIfAbsent: its note to the seqno index is SeqnoIndexes.SeqnoIndex.NoteSeqno, called apart; its contract is for its three sections run one after another, and what others do in between is covered by DeferFill and FillIfAbsent, which are steps of any run.
- BatchSort.SortIndices: the library sort is an insertion sort with the source's comparator; only its result is relied on.
- SeqnoIndexes.EvictSeq: the map's iteration order is a parameter, and the 64 part maps are one map with a part number per hash.
- WriteQueues.NothingStranded: whether a write is deferred is left open, so the coalescing delay is not modelled.
- DurableAcks.NothingForgotten: seen from one loop; batches answered on other loops only bump the generation.
- LoopRetire.StopsEmpty: seen from one loop; moves between other loops do not touch it.
- LatencyHists.LatencyHist.Percentile: the product of fraction and count is exact, and mean and maximum are left out as easy.
- TunerRuns.ThreadTuner.Decide: the steady-window history, its level, noise and trend, is an input, as is whether the load is calm.
- InFlight.MovesClean: what the output still waits for is one flag, set and cleared by the send path's events.
