# Verified models of the concurrency and reclamation layer

This project models the machinery under `structs_bench/common`: the lock-free synchronisation
primitives, the memory reclaimers, the locks, and the sequential structures they rely on. Each
protocol is a transition system in which any number of threads interleave, one shared-memory access
per step, over runs of any length. The sequential structures are classes and methods with loops over
heap objects, proved against functions on sequences and sets.

| file | what it models |
|---|---|
| `Scx.dfy`, `ScxSafety.dfy`, `ScxTheorems.dfy`, `ScxFinal.dfy` | LLX and SCX over reused descriptors |
| `Kcas.dfy`, `KcasSafety.dfy`, `KcasTheorems.dfy` | k-CAS over RDCSS with reused descriptors and nested helping |
| `Dcss.dfy`, `DcssSafety.dfy`, `DcssTheorems.dfy`, `DcssLateReport.dfy` | DCSS with reused descriptors |
| `Limbo.dfy`, `LimboRefinement.dfy` | limbo bags and the pool, shared by the three epoch reclaimers; why they stand for block bags |
| `Debra.dfy`, `TokenRing.dfy`, `EpochTree.dfy` | DEBRA, token-based and tournament-tree reclamation |
| `Rlu.dfy` | the ring of RLU write-set logs, quiescence and write-back |
| `ClhLock.dfy`, `RangeQuery.dfy` | the CLH reader-writer lock; the packed-word lock and range queries |
| `Probing.dfy`, `HashList.dfy` | cumulative-square probing and the hash list |
| `BlockBag.dfy`, `PointerSet.dfy`, `DebraPlus.dfy` | block bags, the probing set of addresses, the DEBRA+ partition |
| `TreeStats.dfy` | tree statistics by recursion and by cut |
| `WordCopies.dfy`, `FiniteSets.dfy`, `PowersOfTwo.dfy` | copies taken word by word, sizes of subsets, powers of two and their rounding: shared by the files above |

`dafny verify dfyconfig.toml` verifies all of it.

## How to read the protocols

`Init`, `Next` and `Run` define the runs. A predicate such as `FreezeCas(s, t, s')` is one step of
thread t; its comment or name says which access of the code it is. Thread-local work belongs to the
step of the access before it. Fields called ghost in the comments record the past (every operation
ever published and its fate, the epoch at a retirement, the order of tail exchanges) and never
influence a step. `Inv` is the invariant, split into facts about shared memory (`Glob`), facts about
one thread, and a relation (`Rely`, `Moves`, `Grows`) that says what other threads may do to it.

Assumptions about the callers, all stated in the step predicates:

- LLX/SCX: nodes are added with the results of this thread's last LLX on them, the field belongs to an
  added node, oldVal is the value in that LLX's snapshot, and newVal was never in the field before.
- k-CAS: the addresses of one operation are distinct, and words are written only by these operations.
  Plain values and tags are different constructors, as the tag bits make them.
- DCSS: addr2 is written only by DCSS; addr1 is changed by anybody at any time. old2 and new2 are plain.
- Epoch reclaimers: an object is retired once until it is allocated again; one `initThread` per thread.
- RLU: `max_write_sets >= 1` and `2 * max_write_sets <= RLU_MAX_WRITE_SETS`, as `rlu_init` asserts.
- Range queries: an update inserts new nodes and deletes present ones; a structure without logical
  deletion shows a traversal only nodes that were linked at some time after the cut.
- Hash list: the capacity is a power of two. The table allows capacity 1, the list needs at least 2.
- Pointer set: keys are addresses, 0 is no key, and after an insertion one cell is still empty.
- Tree statistics: the depth of the tree is below `MAX_HEIGHT`.

Where code and expectation differ:

- The state that `MUTABLES_VAL_CAS_FIELD` reports after a failed CAS can belong to a newer operation.
  `DcssLateReport.ReportCanBeWrong` is a run in which it does; `DcssTheorems.ReportIsExactOrLate` says that
  the report is right as long as the descriptor has not been reused, and that otherwise the tag is gone and
  the report is the outcome of the newer operation;
  `DcssTheorems.StaleHelperIsHarmless` says that nothing comes of it.
- The parallel constructor of the tree statistics counts a root without children twice, because
  `currDepth - 1` wraps around. The constructor's contract is an equivalence with that condition.
- `init` of the hash table accepts capacity 1, for which an insertion leaves no empty slot, so that the next
  search for another element does not end: `HashLists.HashTable.InsertNode` and `Probing.RoomAfterInsert` say
  that there is an empty slot for exactly the capacities from 2 on, `Probing.OneSlotIsStuck` why it matters.

## Model

| member | source | states |
|---|---|---|
| ScxTheorems.ScxIsAtomic | structs_bench/common/scx_provider.h:94-131 | When the update CAS of an SCX succeeds, every node listed in it carries its tag, put directly over the handle its LLX returned, and has the contents that LLX saw; the SCX is undecided, its field is in one of these nodes and still has oldVal, and its owner is inside scxExecute |
| ScxTheorems.UpdatesOnce | structs_bench/common/scx_provider.h:126-127 | Over all helpers and all later steps of a run, the update CAS of one SCX succeeds at most once |
| ScxTheorems.OneVerdict | structs_bench/common/scx_provider.h:96-130 | A verdict, once it has left IN_PROGRESS, never changes; an SCX whose all-frozen bit is set is never aborted |
| ScxTheorems.AbortsOnlyHopeless | structs_bench/common/scx_provider.h:101-117 | The abort CAS succeeds only for an SCX without the all-frozen bit that was not committed; at every later state it is aborted, not updated, and its nodes are not all frozen |
| ScxSafety.StuckFate | structs_bench/common/scx_provider.h:106-113 | A helper that found a node taken: with the bit set the SCX is committed, without it the SCX is not committed and can never freeze that node |
| ScxSafety.BlockedStable | structs_bench/common/scx_provider.h:97-104 | An SCX that cannot freeze one of its nodes stays so at every step that does not freeze that node for it |
| ScxSafety.AcceptedSnapshot | structs_bench/common/descriptors/descriptors_impl.h:87-92 | A word-by-word copy whose sequence number still fits is exactly the body published under the tag |
| ScxTheorems.ResultIsTruth | structs_bench/common/scx_provider.h:211-223 | scxExecute returns true if and only if the update took effect; if it returns false, one of the nodes has left the handle its LLX returned, for good |
| ScxTheorems.LlxIsAtomic | structs_bench/common/scx_provider.h:167-189 | A successful LLX returns all fields as they are together at its last read, with the handle of a decided SCX, and no committed SCX has finalised the node |
| ScxFinalization.FinalizedIsTrue | structs_bench/common/scx_provider.h:167-188 | When llx on a node returns FINALIZED, a committed SCX has finalised that node |
| ScxFinalization.MarkedIsFrozen | structs_bench/common/scx_provider.h:121-124 | A marked node carries the tag of an SCX that has all its nodes frozen and finalises this one |
| ScxTheorems.FinalisedForEver | structs_bench/common/scx_provider.h:121-189 | A node finalised by a committed SCX keeps its tag and its mark for ever, and no later llx on it succeeds, also after the descriptor has been reused |
| ScxTheorems.OnlyUpdatesWrite | structs_bench/common/scx_provider.h:126-127 | No field of a node changes except at a successful update CAS, and then it is the field of that SCX and gets its newVal |
| ScxSafety.RunOk | structs_bench/common/scx_provider.h:94-223 | The invariant of LLX/SCX holds at every state of every run |
| KcasTheorems.KcasIsAtomic | structs_bench/common/kcas/kcas_reuse_impl.h:366-427 | At the step that sets SUCCEEDED the operation was undecided, all its words hold its tag, and the logical memory changes from old to new at exactly these words |
| KcasTheorems.OnlyCommitsWrite | structs_bench/common/kcas/kcas_reuse_impl.h:302-427 | No other step, be it help, RDCSS, clean-up or a failing CAS, changes the logical memory |
| KcasTheorems.OneVerdict | structs_bench/common/kcas/kcas_reuse_impl.h:410-413 | A k-CAS is decided once |
| KcasTheorems.CommitsOnce | structs_bench/common/kcas/kcas_reuse_impl.h:410-413 | Over all helpers one k-CAS takes effect at most once |
| KcasTheorems.FailsOnlyOnMismatch | structs_bench/common/kcas/kcas_reuse_impl.h:396-413 | FAILED is set only if, at an earlier step while the operation was undecided, one of its words had a logical value other than the expected one |
| KcasTheorems.CommitsInsideCall | structs_bench/common/kcas/kcas_reuse_impl.h:444-456 | A k-CAS takes effect while its owner is inside execute, working on that operation |
| KcasTheorems.ExecuteTellsTruth | structs_bench/common/kcas/kcas_reuse_impl.h:444-456 | execute returns true exactly if the k-CAS took effect before; false means a mismatch was seen and it never takes effect |
| KcasSafety.RunOk | structs_bench/common/kcas/kcas_reuse_impl.h:302-495 | The invariant of the k-CAS holds at every state of every run |
| DcssTheorems.SuccessIsLinearizable | structs_bench/common/dcss/dcss_impl.h:27-64 | SUCCESS: at a step inside the call addr1 held old1 while addr2 held the tag over old2, and at a later step before the return the operation took effect |
| DcssTheorems.EffectIsAtomic | structs_bench/common/dcss/dcss_impl.h:41-55 | The effect changes the logical memory at addr2 alone, from old2 to new2, after addr1 was seen to hold old1 |
| DcssTheorems.EffectOnce | structs_bench/common/dcss/dcss_impl.h:41-55 | Over all helpers an operation takes effect at most once |
| DcssTheorems.LockedBetween | structs_bench/common/dcss/dcss_impl.h:32-55 | From the deciding read of addr1 to the effect the tag stays in addr2 and the call has not returned |
| DcssTheorems.FailedAddr1IsJustified | structs_bench/common/dcss/dcss_impl.h:56-63 | FAILED_ADDR1: at a step inside the call addr1 differed from old1 while addr2 held the tag, and the operation never takes effect |
| DcssTheorems.FailedAddr2IsJustified | structs_bench/common/dcss/dcss_impl.h:141-158 | FAILED_ADDR2: at a step inside the call addr2 logically held the returned value, which is not old2; the tag is never installed and the operation never takes effect |
| DcssTheorems.InstalledOnce | structs_bench/common/dcss/dcss_impl.h:141-153 | Each tag is put into memory at most once |
| DcssTheorems.GoneOnReturn | structs_bench/common/dcss/dcss_impl.h:125-159 | When the owner has returned its tag is nowhere in memory, and it stays away |
| DcssTheorems.OnlyEffectsWrite | structs_bench/common/dcss/dcss_impl.h:27-159 | Helping, failing, cleaning up, publishing and writes to addr1 leave the logical memory as it is |
| DcssTheorems.SnapshotIsExact | structs_bench/common/descriptors/descriptors_impl2.h:127-132 | An accepted snapshot holds only fields written for the sequence number of its tag |
| DcssTheorems.StaleHelperIsHarmless | structs_bench/common/dcss/dcss_impl.h:40-63 | The state CAS and the final CAS of a helper whose tag is stale change nothing |
| DcssTheorems.ReportIsExactOrLate | structs_bench/common/descriptors/descriptors_impl2.h:79-104 | While the descriptor belongs to the operation the helper is told its outcome. Once it has been reused the tag has left memory, and the helper is told the outcome of the newer operation, which is right if and only if the two are the same |
| DcssLateReport.ReportCanBeWrong | structs_bench/common/descriptors/descriptors_impl2.h:94-100 | A run in which the macro tells a helper that an operation succeeded which has failed and whose owner has returned, because the reused descriptor belongs to a newer, successful one |
| DcssSafety.RunOk | structs_bench/common/dcss/dcss_impl.h:27-177 | The invariant of DCSS holds at every state of every run |
| DebraSafety.GracePeriod | structs_bench/common/recordmgr/reclaimer_debra.h:157-270 | When an object reaches the pool, every operation that was running at its retirement has ended |
| DebraSafety.HeldBack | structs_bench/common/recordmgr/reclaimer_debra.h:157-176 | While one such operation runs, the object stays in limbo under the record made at its retirement |
| DebraSafety.EpochAdvancesOnce | structs_bench/common/recordmgr/reclaimer_debra.h:203-260 | While a thread stays in one operation the epoch advances at most once past its value at the announcement, however stale the announced epoch was |
| DebraSafety.ScanCoversAll | structs_bench/common/recordmgr/reclaimer_debra.h:241-253 | The scan never indexes past the last thread; before the CAS on the epoch every thread was seen quiescent or announced no earlier than the scanner read |
| DebraSafety.RotatedAge | structs_bench/common/recordmgr/reclaimer_debra.h:157-176 | One rotation later every object that is left is still old enough for the place of its bag |
| DebraSafety.RunOk | structs_bench/common/recordmgr/reclaimer_debra.h:157-270 | The invariant of DEBRA holds at every state of every run |
| Limbo.FreeFullOk | structs_bench/common/recordmgr/blockbag.h:617-645 | Moving the full blocks of a limbo bag keeps every object in exactly one place |
| LimboRefinement.AddRefines | structs_bench/common/recordmgr/blockbag.h:362-380 | Adding to the blocks of a bag is adding to its abstraction, a head and the objects of the full blocks |
| LimboRefinement.MoveRefines | structs_bench/common/recordmgr/blockbag.h:617-645 | Moving the full blocks leaves the head alone, and the pool gets exactly the objects that the abstraction names |
| TokenSafety.OneToken | structs_bench/common/recordmgr/reclaimer_ebr_token.h:148-163 | Of all threads exactly one has its flag set or is passing the token on |
| TokenSafety.FairCounts | structs_bench/common/recordmgr/reclaimer_ebr_token.h:158-162 | The token counts of two threads never differ by more than one |
| TokenSafety.FreedAfterFullCircle | structs_bench/common/recordmgr/reclaimer_ebr_token.h:115-124 | When a rotation frees an object, every thread has passed the token on since its retirement |
| TokenSafety.GracePeriod | structs_bench/common/recordmgr/reclaimer_ebr_token.h:115-201 | When an object reaches the pool, every operation that was running at its retirement has ended |
| TokenSafety.HeldBack | structs_bench/common/recordmgr/reclaimer_ebr_token.h:115-201 | While one such operation runs the object stays in limbo |
| PowersOfTwo.RoundUpIsNextPow2 | structs_bench/common/recordmgr/reclaimer_ebr_tree.h:39-49 | The bit smearing yields the least power of two that is not below its argument, for every argument from 1 to 2^30, the largest power of two an int holds |
| EpochTreeModel.PropagateQ | structs_bench/common/recordmgr/reclaimer_ebr_tree.h:86-103 | Propagation restores the rule that a node is quiescent exactly if both children are, for all leaves handled so far |
| EpochTreeModel.NewTree | structs_bench/common/recordmgr/reclaimer_ebr_tree.h:106-123 | The constructor builds, with the next power of two as its width, the tree in which real leaves and the nodes above them are 0, fake leaves and the nodes with only such leaves below are quiescent, and the root is one increment |
| EpochTreeSafety.TreeIsBehindLeaves | structs_bench/common/recordmgr/reclaimer_ebr_tree.h:86-205 | Every node between the root and a real leaf is non-quiescent and at most that leaf; the root is at least every real leaf and at most one increment above it |
| EpochTreeSafety.GracePeriod | structs_bench/common/recordmgr/reclaimer_ebr_tree.h:276-353 | An object leaves limbo only after each thread active at its retirement has begun a new operation |
| EpochTreeSafety.HeldBack | structs_bench/common/recordmgr/reclaimer_ebr_tree.h:276-353 | While a thread is in the operation it was in at the retirement the object stays in limbo |
| EpochTreeSafety.CasParentOk | structs_bench/common/recordmgr/reclaimer_ebr_tree.h:179-193 | The CAS on an inner node keeps the tree in order even if it was prepared long before |
| RluSafety.ResetIsSafe | structs_bench/common/rlu/rlu.cpp:371-391 | A log is reset only in a later sync than the one that wrote it back, when no object is locked by it and no running section holds a pointer into it |
| RluSafety.StealersAreGone | structs_bench/common/rlu/rlu.cpp:482-602 | By then every section in which a thread stole a copy out of that log has ended, also if writers have computed the same writer_version |
| RluSafety.NoOldReaders | structs_bench/common/rlu/rlu.cpp:510-547 | While a thread resets or writes back, every running section that has read its version runs at one not below the writer version |
| RluSafety.RingNeverFull | structs_bench/common/rlu/rlu.cpp:609-627 | The slot of the log being written is never that of a log not yet reset |
| RluSafety.RunOk | structs_bench/common/rlu/rlu.cpp:371-627 | The invariant of the logs holds at every state of every run |
| Probing.HalfShift | structs_bench/common/rq/hashlist.h:112-122 | After 2^(k+1) more probes the position has moved by 2^k modulo 2^(k+1) |
| Probing.ProbesVisitEverySlot | structs_bench/common/rq/hashlist.h:112-122 | Cumulative-square probing reaches every slot of a table of 2^k slots from every start, within 2^(k+1) probes |
| Probing.RoomAfterInsert | structs_bench/common/rq/hashlist.h:125-173 | An insertion below half load leaves an empty slot if and only if the table has at least two slots |
| Probing.OneSlotIsStuck | structs_bench/common/rq/hashlist.h:112-122 | In a table with one slot every probe comes to that slot, so a search in a full one would not end |
| HashLists.HashTable.FindIx | structs_bench/common/rq/hashlist.h:112-122 | findIx ends, at the slot of the element, or at an empty one and then no node has the element |
| HashLists.HashTable.Find | structs_bench/common/rq/hashlist.h:155-158 | The node found is in the table and has the element; null means that none has |
| HashLists.HashTable.TryExpand | structs_bench/common/rq/hashlist.h:125-139 | Afterwards the table indexes the same nodes and is below half load; below half load nothing changes |
| HashLists.HashTable.InsertNode | structs_bench/common/rq/hashlist.h:161-173 | The table holds the old nodes and the new one, each in the slot it names and where probing ends; an empty slot is left if and only if the capacity is at least 2, and then the table is at most half full |
| HashLists.HashTable.Clear | structs_bench/common/rq/hashlist.h:175-197 | Both ways of clearing leave the table of no nodes |
| HashLists.HashTable.SomeEmptySlot | structs_bench/common/rq/hashlist.h:112-122 | At half load some slot is empty |
| HashLists.HashTable.NotThere | structs_bench/common/rq/hashlist.h:112-122 | An element that probing misses before an empty slot is in no node of the table |
| HashLists.HashTable.FilledOk | structs_bench/common/rq/hashlist.h:166-172 | Filling the slot where probing ends keeps every node reachable and the index exact |
| HashLists.HashList.Contains | structs_bench/common/rq/hashlist.h:260-262 | contains is true exactly for the elements inserted since the last clear |
| HashLists.HashList.Insert | structs_bench/common/rq/hashlist.h:264-279 | insert adds the element to the set, and a node only if it is new, through expansion and node reuse |
| HashLists.HashList.AllocateNode | structs_bench/common/rq/hashlist.h:211-220 | A recycled or fresh node in neither list, linked before the head |
| HashLists.HashList.Clear | structs_bench/common/rq/hashlist.h:231-245 | clear empties the set; its nodes go to the front of the free list |
| RangeQuerySafety.StampsCutTheUpdates | structs_bench/common/rq/rq_rwlock.h:203-270 | The write of an update comes before the timestamp increment of a query if and only if its stamp is below rq_lin_time |
| RangeQuerySafety.VerdictIsRight | structs_bench/common/rq/rq_rwlock.h:275-333 | An accepted node was inserted before the cut and not deleted before it; a rejected one was inserted after it or deleted before it, unless its announcement went away while dtime was unknown |
| RangeQuerySafety.StampedNodePasses | structs_bench/common/rq/rq_rwlock.h:283-332 | A node whose dtime was set when the visit began passes if and only if itime < rq_lin_time <= dtime |
| RangeQuerySafety.StampsAreTrue | structs_bench/common/rq/rq_rwlock.h:160-184 | The stamps stored after the lock is released are those of the events that inserted and deleted the node |
| RangeQuerySafety.Exclusion | structs_bench/common/rwlock.h:129-175 | A writer, by writeLock or by upgradeLock, holds the lock alone |
| RangeQuerySafety.OneUpgrader | structs_bench/common/rwlock.h:141-156 | At most one thread is upgrading, and none while there is a writer |
| RangeQuerySafety.WordIsExact | structs_bench/common/rwlock.h:108-136 | The packed word is 0 if and only if nobody holds the lock, upgrades it or waits for it as a reader |
| RangeQuerySafety.RunOk | structs_bench/common/rq/rq_rwlock.h:191-345 | The invariant of lock, stamps and visits holds at every state of every run |
| ClhLockSafety.Exclusion | structs_bench/common/CLHRWLock.h:104-190 | A writer never holds the lock together with any other holder |
| ClhLockSafety.CounterIsExact | structs_bench/common/CLHRWLock.h:119-137 | readers_counter is the number of threads that hold the lock for reading |
| ClhLockSafety.GrantedInOrder | structs_bench/common/CLHRWLock.h:110-117 | The thread that stops waiting is the one whose tail exchange came right after that of the last one granted |
| ClhLockSafety.ExchangeOrder | structs_bench/common/CLHRWLock.h:107-108 | The exchange hands out the next position, with the node of the position before as predecessor |
| ClhLockSafety.AccessesAreSafe | structs_bench/common/CLHRWLock.h:107-189 | Every node that is read, written or freed is allocated then, and is the node of the position meant, although freed cells may be handed out again |
| ClhLockSafety.FreedOnceBySuccessor | structs_bench/common/CLHRWLock.h:125-179 | A node is freed by the owner of the next position, after its own owner has cleared its flag, and was not freed before |
| ClhLockSafety.NeverFreedTwice | structs_bench/common/CLHRWLock.h:125-179 | Over a whole run no position is freed twice |
| BlockBags.BlockBag.Add | structs_bench/common/recordmgr/blockbag.h:362-380 | The object goes on top; a head that becomes full gets an empty block in front of it |
| BlockBags.AddViewOk | structs_bench/common/recordmgr/blockbag.h:362-380 | Adding keeps the shape of the bag and adds that object once |
| BlockBags.BlockBag.Remove | structs_bench/common/recordmgr/blockbag.h:449-473 | The last object of the first block that is not empty; an empty head is dropped |
| BlockBags.RemoveViewOk | structs_bench/common/recordmgr/blockbag.h:449-473 | Removing keeps the shape of the bag and takes that object once |
| BlockBags.BlockBag.Erase | structs_bench/common/recordmgr/blockbag.h:411-446 | The erased place gets the last object of the head, so that only the head shrinks; the result says whether the block was not the head |
| BlockBags.EraseViewOk | structs_bench/common/recordmgr/blockbag.h:411-446 | Erasing keeps the shape of the bag and takes exactly that object once |
| BlockBags.BlockBag.RemoveFullBlock | structs_bench/common/recordmgr/blockbag.h:538-561 | With at least three blocks the second one is unlinked, otherwise nothing happens |
| BlockBags.BlockBag.AddFullBlock | structs_bench/common/recordmgr/blockbag.h:562-575 | The full block becomes the last one |
| BlockBags.BlockBag.AppendMoveFullBlocks | structs_bench/common/recordmgr/blockbag.h:617-642 | The blocks after the predecessor become the end of this bag, in order; both bags keep head, tail, shape and block count |
| BlockBags.BlockBag.AppendMoveAll | structs_bench/common/recordmgr/blockbag.h:646-655 | The other bag ends up empty, and this one has everything both had |
| BlockBags.BlockBag.ComputeSizeInBlocks | structs_bench/common/recordmgr/blockbag.h:303-311 | The walk along the list counts its blocks |
| BlockBags.BlockBag.ValidView | structs_bench/common/recordmgr/blockbag.h:280-293 | The invariant on the linked blocks means that the head is not full and all other blocks are |
| BlockBags.Cursor.Advance | structs_bench/common/recordmgr/blockbag.h:191-227 | Exactly the object the iterator stood on is added to those before it |
| BlockBags.Cursor.SwapWith | structs_bench/common/recordmgr/blockbag.h:228-232 | The objects under two iterators change places |
| BlockBags.SwapCount | structs_bench/common/recordmgr/blockbag.h:228-232 | A swap loses and doubles nothing |
| PointerSets.PointerSet.constructor | structs_bench/common/recordmgr/hashtable.h:190-199 | An empty set whose table has at least twice the requested number of cells, and fewer than four times unless it is the smallest one |
| PointerSets.PointerSet.GetIndex | structs_bench/common/recordmgr/hashtable.h:170-182 | Linear probing ends, at the key or at an empty cell, having met neither before |
| PointerSets.PointerSet.Contains | structs_bench/common/recordmgr/hashtable.h:210-215 | contains is exact |
| PointerSets.PointerSet.Insert | structs_bench/common/recordmgr/hashtable.h:216-223 | Adds the key; one cell always stays empty |
| PointerSets.PointerSet.Clear | structs_bench/common/recordmgr/hashtable.h:204-209 | Empties the set, also where the table is not cleared because the size is 0 |
| PointerSets.Lookup | structs_bench/common/recordmgr/hashtable.h:170-182 | Where probing ends tells whether the key is stored |
| PointerSets.Placed | structs_bench/common/recordmgr/hashtable.h:216-223 | Putting a new key where probing ended keeps all other keys findable |
| PointerSets.NoRepeat | structs_bench/common/recordmgr/hashtable.h:170-182 | No key is stored twice |
| PointerSets.SomeEmpty | structs_bench/common/recordmgr/hashtable.h:170-182 | A table with fewer keys than cells has an empty cell |
| DebraPlusRotation.Collect | structs_bench/common/recordmgr/reclaimer_debraplus.h:211-223 | The set holds exactly the announced objects, null announcements left out |
| DebraPlusRotation.AnnouncedAtMost | structs_bench/common/recordmgr/reclaimer_debraplus.h:370-370 | There are no more announced objects than places in the lists |
| DebraPlusRotation.AnnouncementsFit | structs_bench/common/recordmgr/reclaimer_debraplus.h:370-370 | A set built for numProcesses lists of at most MAX_PROTECT_EVEN_IF_QUIESCENT cells has room for whatever such lists announce |
| DebraPlusRotation.Partition | structs_bench/common/recordmgr/reclaimer_debraplus.h:229-237 | The bag has the same objects as before; those before nextswap are announced and all others are not |
| DebraPlusRotation.Swaps | structs_bench/common/recordmgr/reclaimer_debraplus.h:232-236 | The turn of the loop at an announced object keeps the partition |
| DebraPlusRotation.BehindNextswap | structs_bench/common/recordmgr/reclaimer_debraplus.h:238-241 | No announced object is behind the block of nextswap, and every block before it has announced objects only |
| DebraPlusRotation.Reclaim | structs_bench/common/recordmgr/reclaimer_debraplus.h:211-241 | Both bags keep their invariant, and the blocks behind nextswap go to the end of the pool |
| DebraPlusRotation.HandOverIsSafe | structs_bench/common/recordmgr/reclaimer_debraplus.h:225-241 | No object is lost or doubled between bag and pool, and no announced object goes to the pool |
| DebraPlusRotation.BagRotator.RotateEpochBags | structs_bench/common/recordmgr/reclaimer_debraplus.h:205-244 | The oldest of the three bags becomes the current one; it is scanned only from the threshold on, the other bags are as before, and all bags stay apart |
| DebraPlusRotation.BagRotator.constructor | structs_bench/common/recordmgr/reclaimer_debraplus.h:354-370 | Three empty bags that share nothing, and a set with room for all announcements |
| TreeStatistics.TreeStats.constructor | structs_bench/common/tree_stats.h:67-173 | The tables are the sums over the levels of the tree if and only if the plain recursion was used or the root has a visited child |
| TreeStatistics.TreeStats.ComputeStats | structs_bench/common/tree_stats.h:46-64 | The recursion adds, at each depth down to maxDepth, the sums over that level of the subtree |
| TreeStatistics.Cut | structs_bench/common/tree_stats.h:96-137 | The queue segment is the whole level at currDepth, which is the first one with minNodes nodes or the last; currDepth is 0 exactly if the root has no visited child |
| TreeStatistics.TreeStats.AddSubtrees | structs_bench/common/tree_stats.h:143-155 | The shifted tables of the subtrees add up to those of the forest below the cut |
| TreeStatistics.TopAndBottom | structs_bench/common/tree_stats.h:143-166 | A tree counted from the cut down and then above it is counted once |
| TreeStatistics.TwiceIsWrong | structs_bench/common/tree_stats.h:166-166 | Counting a tree twice never gives its statistics |
| TreeStatistics.LevelOfLevel | structs_bench/common/tree_stats.h:96-137 | Level d below level c is level c + d |
| TreeStatistics.TreeStats.GetHeight | structs_bench/common/tree_stats.h:187-193 | The number of levels that are not empty |

## Left out

- Weak memory, fences, padding, hardware transactions, signals and recovery, allocation failure: steps are sequentially consistent, and sequence numbers, versions, epochs and sums are unbounded.
- Progress of any kind: that spin loops, CAS loops and helping end is claimed only for the sequential structures.
- k-CAS: that no old tag remains in memory and that `readPtr` ends. A helper that read UNDECIDED may install its tag after the operation has failed. The sorting of the entries matters for progress only and is left out, as are `casword` and the value shift.
- DCSS: the value returned with FAILED_ADDR1, which is the caller's own read and may equal old1, and `helpProcess`/`getDescriptorTagptr`, which look at descriptors no word points to.
- SCX: the bit layout of tags and mutable words; a tag is a pair of thread and sequence number.
- Epoch reclaimers: `deinitThread`, repeated `initThread`, several record types rotated together and the tournament tree for one thread, where the root is the leaf, or for more than 2^30 threads.
- RLU: contents of the copies, consistency of a snapshot across several writers, `rlu_abort`, `rlu_process_free`, coarse-grained writer locks, and `is_check_locks`.
- Range queries: the keys of a node, duplicates in the result, the collection of announcements and limbo bags, and whether every node of the cut is visited. A node whose announcement disappears while its dtime is unknown is left to another source, as in the code.
- CLH lock: `clh_rwlock_destroy` and the readunlock without a lock.
- Hash functions: the integer finalizers are arbitrary functions. The mask `& (capacity - 1)` is the remainder modulo the power of two.
- Hash list: `destroy`; both alternatives to the simplified class.
- Block bag: the block pool, the shared pool, `computeSize`, the destructor, iterators with erase, and clearing without freeing. A dropped empty head is not reused.
- DebraPlusRotation.BagRotator.RotateEpochBags: announcements are fixed during the scan; `tryGiveFreeObjects` of the pool, neutralizing and recovery are not modelled.
- Tree statistics: bytes per depth and the averages. The parallel loop over the subtrees runs in order; its fetch-and-adds commute.
- Not modelled at all: `HZLock.h`, the old `hashset`, `lockfreeblockstack.h`, `reclaimer_ebr_tree_q.h`, the variants `dcss_plus_impl.h`, `kcas_reuse_htm_impl.h`, `reclaimer_debracap.h`, `rq_htm_rwlock.h`, and the benchmarks, scripts and wrappers, which repeat the cores above or would add only easy members.
