# Izem locks and queues, modelled and proved

Izem is a library of hand-written concurrent locks and queues.  This project models its protocols in
Dafny and proves what they are for, over every interleaving, any number of threads and, for the
hierarchical lock, trees of any depth.

Each protocol is a state machine: a state of shared words and one control state per thread, and a step
that executes one atomic instruction.  A schedule says who executes next and settles every other choice
(which call an idle thread makes, spurious CAS failures, the address malloc returns).  Theorems speak of
the state after an arbitrary schedule.  Beside the state machine stands a class whose fields are the same
words; its methods execute one instruction each, keep the invariant and are proved to make exactly the
state machine's step.  Code that runs alone (building and freeing the lock tree, the linked list, the
hazard scan, the skip queue's wake, the bucket queue's consumer) is modelled as methods with the loops of
the original on heap objects.  History variables (queues in swap order, owners, delivered values) are
recorded beside the words and never read by the protocol.

| file | what it models |
|---|---|
| `Cells.dfy`, `Arith.dfy` | word-addressed memory with default contents; division lemmas |
| `Mcs.dfy`, `McsCalls.dfy` | the MCS queue lock and its refinement of an abstract FIFO lock; what its callers get |
| `Hmcs.dfy` | the hierarchical MCS lock: states, instructions, invariant, runs |
| `HmcsQuiet.dfy`, `HmcsJoin.dfy`, `HmcsLeave.dfy` | every instruction keeps the invariant: no queue touched, joining, leaving |
| `HmcsRuns.dfy`, `HmcsPassing.dfy`, `HmcsObject.dfy` | mutual exclusion, embedded nodes and hand-off over every run; bounded passing; the lock as an object |
| `HmcsCalls.dfy`, `HmcsCohort.dfy` | what callers of the hierarchical lock get; that the lock stays in a cohort as long as it may |
| `HmcsShape.dfy`, `HmcsTree.dfy` | the arithmetic of the lock tree; building it and tearing it down |
| `PriorityLock.dfy`, `McsGroup.dfy`, `Mcsp.dfy` | the two-level priority locks over any group lock; the MCS lock as one; zm_mcsp put together from them |
| `PriorityCalls.dfy`, `McspCalls.dfy` | what callers of the priority locks get; who is next after a high thread |
| `Ticket.dfy`, `TicketCalls.dfy` | the ticket lock with 32-bit counters; what its callers get |
| `ScanSpec.dfy`, `SdList.dfy`, `Hazard.dfy` | what a scan keeps; the linked list; scan, helpscan, retire, allocate |
| `MsQueue.dfy` | the Michael-Scott queue with hazard pointers, one protocol |
| `MsCalls.dfy`, `MsProgress.dfy` | each call of that queue does what it was called for; solo termination and lock-freedom |
| `SwapQueue.dfy`, `FaQueue.dfy` | the SWAP-based and the fetch-and-add queue |
| `SwapCalls.dfy`, `FaCalls.dfy` | what enqueue, dequeue and the tests of those two do for their callers |
| `Buckets.dfy`, `BucketRuns.dfy`, `BucketQueue.dfy` | the bucket queue: what a call may do; latency and drain over whole runs; the consumer as an object |
| `BucketBackoff.dfy` | how seldom an empty bucket queue is looked at |
| `Wskip.dfy` | the wake-up of the skip queue |

`dafny verify dfyconfig.toml` checks everything.

## Assumptions

Memory is sequentially consistent, allocation succeeds, each thread has a queue node or leaf of its own,
callers release only what they hold, and each single-consumer queue has one consumer.  The hierarchical
lock is given a threshold T with 1 <= T < 0xcffffffc; the code takes it from the environment unchecked
(src/lock/zm_hmcs.c:429-432).  The tree is built from group sizes of which each divides the next and the
last is the number of threads.

## Where the code falls short of a promise

- The assertion in free_lock (src/lock/zm_hmcs.c:490) is not always true: set_hierarchy can list the
  machine twice (lines 369-381), and with two hardware threads and group sizes 1, 2, 2 it fails.
  `HmcsTree.FreeLock` states exactly when it holds; strictly growing group sizes suffice.
- The ticket lock does not exclude for ever: its counters have 32 bits.  `Ticket.ExcludesExactly` says when it
  does in terms of what its callers know, the number of threads and of calls and whether tryacq is called;
  `Ticket.TooManyThreads` and `Ticket.OvertakenTryacq` are schedules that put two threads inside.
- zm_sdlist_pop_front lowers the length of an empty list (src/include/list/zm_sdlist.h:79), so
  zm_sdlist_free leaves it one too low.  Only the discarded list of a scan is affected.
- A producer that stores the value ALPHA stops the fetch-and-add queue (`FaQueue.AlphaBlocks`).
- zm_mpbqueue_dequeue_range takes one element even when asked for none (`BucketQueue.Queue.DequeueRange`).
- The counter of a bucket set is reset only by a look at its buckets that finds nothing
  (src/queue/zm_mpbqueue.c:36-51).  It is an int, and a look that finds an element raises it for good; when it
  overflows (undefined in C; here it wraps around) elements go unnoticed for about 2^31 calls.
  `BucketRuns.LatencyExactly` and `BucketRuns.DrainsExactly` say for how many calls the bounds hold, and
  `BucketRuns.TooManyCalls` is the run that breaks them one call later.
- Two comments differ from the code, which the model follows: the hazard list grows at its front, not by
  push_back (src/include/mem/zm_hzdptr.h:20-21 against 53-60), and the number of tree nodes is the sum of
  max_threads/p[i], not of the p[i] (src/lock/zm_hmcs.c:413 against 421-423).

## Model

| member | source | states |
|---|---|---|
| `Mcs.Lock.constructor` | src/lock/zm_mcs.c:56-57 | the lock word is null, nobody is queued, and the invariant holds |
| `Mcs.Lock.Acquire` | src/lock/zm_mcs.c:63-87 | each instruction of acquire_c and tryacq_c keeps the invariant and makes exactly the shared-state change of one abstract step |
| `Mcs.Lock.Release` | src/lock/zm_mcs.c:90-104 | the same for release_c, including the CAS that empties the lock and the wait for a successor that has swapped but not linked |
| `Mcs.StepKeepsInv` | src/lock/zm_mcs.c:63-104 | the inductive invariant: lock word names the last queued node, each node waits right behind its predecessor, only the head is past its acquire |
| `Mcs.RunKeepsInv` | src/lock/zm_mcs.c:63-104 | the invariant holds after every schedule of any number of threads |
| `Mcs.MutualExclusion` | src/lock/zm_mcs.c:63-104 | in every reachable state at most one thread is between the end of acquire and the end of release |
| `Mcs.HandoffKeepsInv` | src/lock/zm_mcs.c:102 | release hands over to exactly the node swapped in right after the holder |
| `Mcs.StepRefines` | src/lock/zm_mcs.c:63-104 | every instruction is one event of an abstract FIFO lock, or none |
| `Mcs.RefinesFifo` | src/lock/zm_mcs.c:63-104 | every interleaving is a history of the abstract FIFO lock |
| `Mcs.FifoHistories` | src/lock/zm_mcs.c:63-104 | what such a history means: requests are departures followed by the line, entries are departures plus the one inside |
| `Mcs.EntersInSwapOrder` | src/lock/zm_mcs.c:63-104 | threads enter in the order of their swaps, one at a time; a tryacq enters only an empty lock |
| `Mcs.NoLostHandoff` | src/lock/zm_mcs.c:66-71 | if any thread is inside a call, some thread has an instruction that is not a spin retry |
| `Mcs.NowaitersVersusQueue` | src/lock/zm_mcs.c:106-108 | nowaiters false means someone waits; nowaiters true overlooks only a thread that has not linked itself yet |
| `McsCalls.AcquireEnters` | src/lock/zm_mcs.c:63-73 | an acquire is over only after its own thread has been in the critical section since the call |
| `McsCalls.TryFailsOnlyIfTaken` | src/lock/zm_mcs.c:75-87 | a call ends without an entry only if it is a tryacq, and the lock word is taken at that moment |
| `McsCalls.TryNeverWaits` | src/lock/zm_mcs.c:75-87 | a tryacq never stands in the queue behind another thread |
| `McsCalls.BoundedWork` | src/lock/zm_mcs.c:63-104 | from its call to the end of its release a thread executes at most 12 instructions besides spin retries |
| `McsGroup.McsIsGroupLock` | src/lock/zm_mcsp.c:18-20 | each MCS instruction is a move the two-level lock allows a group lock; `Mcsp` puts the two together |
| `McsGroup.NowaitersIsHonest` | src/lock/zm_mcsp.c:62 | when the high MCS lock denies having no waiters, a thread is inside its acquire |
| `Mcsp.StepRefines` | src/lock/zm_mcsp.c:18-73 | each instruction of zm_mcsp, built from two MCS locks and the filter words, is one instruction of the two-level lock, or invisible from outside its MCS locks |
| `Mcsp.StepKeepsInv` | src/lock/zm_mcsp.c:18-73 | the invariant that ties where a thread is in each MCS lock to where it is in the two-level lock |
| `Mcsp.RunRefines` | src/lock/zm_mcsp.c:18-73 | every run of zm_mcsp is, from outside its MCS locks, a run of the two-level lock |
| `Mcsp.MutualExclusion` | src/lock/zm_mcsp.c:18-73 | across both classes at most one thread is in the critical section of zm_mcsp itself |
| `Mcsp.PriorityBound` | src/lock/zm_mcsp.c:42-44 | a high thread of zm_mcsp with a filter ticket sees at most one low critical section before its own |
| `Mcsp.NoLostHandoff` | src/lock/zm_mcsp.c:18-73 | if any thread is inside a call of zm_mcsp, some thread has an instruction that is not a spin retry, inside the MCS locks included |
| `McspCalls.AcquireEnters` | src/lock/zm_mcsp.c:18-73 | an acquire of zm_mcsp is over only after its thread has been inside, for the class it called for, within 21 instructions besides spin retries |
| `McspCalls.NextIsSuccessor` | src/lock/zm_mcsp.c:61-66 | if the releasing high thread reads successor u behind its node when it asks for waiters, the next thread of either class to enter is u |
| `HmcsObject.Lock.constructor` | src/lock/zm_hmcs.c:445-449 | a new lock over a valid tree: every lock word null, nothing owned |
| `HmcsObject.Lock.FromLeaf` | src/lock/zm_hmcs.c:279-300 | each instruction of acquire_from_leaf and tryacq_from_leaf, both peeks included, keeps the invariant and performs its step |
| `HmcsObject.Lock.ReuseNode` | src/lock/zm_hmcs.c:107-110 | each store of reuse_qnode |
| `HmcsObject.Lock.JoinQueue` | src/lock/zm_hmcs.c:147-152 | the swap of acquire_root and acquire_helper: takes a free tree node or queues behind the last |
| `HmcsObject.Lock.TryRoot` | src/lock/zm_hmcs.c:160-167 | the CAS of tryacq_root |
| `HmcsObject.Lock.AwaitTurn` | src/lock/zm_hmcs.c:193-213 | linking behind the predecessor, waiting, and going one level up at the start of a cohort |
| `HmcsObject.Lock.Release` | src/lock/zm_hmcs.c:302-311 | release_from_leaf chooses between the root and the whole path by took_fast_path |
| `HmcsObject.Lock.ReleaseHelper` | src/lock/zm_hmcs.c:217-248 | release_helper passes the count plus one to a known successor below the threshold, and otherwise releases the parent first |
| `HmcsObject.Lock.NormalRelease` | src/lock/zm_hmcs.c:128-139 | the successor test, the CAS and the wait of normal_mcs_release_with_value |
| `HmcsObject.Lock.WakeSuccessor` | src/lock/zm_hmcs.c:131-140 | the store of the release value into the successor gives it every tree node the releaser still owns |
| `HmcsRuns.StepKeepsInv` | src/lock/zm_hmcs.c:128-311 | the inductive invariant over all tree nodes and threads, for trees of any depth |
| `HmcsRuns.RunKeepsInv` | src/lock/zm_hmcs.c:128-311 | the invariant holds after every schedule of slow, fast and try acquisitions and releases |
| `HmcsRuns.MutualExclusion` | src/lock/zm_hmcs.c:128-311 | at most one thread is in the critical section, for any tree depth and number of threads |
| `HmcsRuns.HolderHeadsItsPath` | src/lock/zm_hmcs.c:182-215 | the holder heads every queue on its path, or heads the root queue with its own leaf node |
| `HmcsRuns.EmbeddedNodeOwnership` | src/lock/zm_hmcs.c:187-195 | a tree node's embedded queue node is re-initialised and enqueued only by the tree node's owner, and never while it is in a queue |
| `HmcsLeave.SuccessorWaits` | src/lock/zm_hmcs.c:128-142 | the successor a release or pass signals is the second in the queue and is spinning there |
| `HmcsLeave.GrantKeepsInv` | src/lock/zm_hmcs.c:238-247 | signalling a successor moves ownership of the release site and all levels above to it, keeping the invariant |
| `HmcsRuns.NoLostHandoff` | src/lock/zm_hmcs.c:154-156 | if any thread is inside a call, some thread has an instruction that is not a spin retry |
| `HmcsRuns.WaitingLeadsUp` | src/lock/zm_hmcs.c:199-212 | from every waiting thread, owners of the nodes waited at lead, through ever higher levels, to a thread that can move |
| `HmcsPassing.CountsInRange` | src/lock/zm_hmcs.c:222-240 | below the root a thread inside the lock has a pass count in [1, threshold] at each level |
| `HmcsPassing.PassRaisesRadix` | src/lock/zm_hmcs.c:237-241 | a pass hands over counts that form a strictly larger number in base threshold |
| `HmcsPassing.BoundedPassing` | src/lock/zm_hmcs.c:222-246 | between two releases of the root at most threshold^(levels-1) critical sections are entered |
| `HmcsCohort.CohortFirst` | src/lock/zm_hmcs.c:217-248 | a thread that came in through its leaf gives up the root only if every level below was at the threshold or had no linked successor when it looked; otherwise the lock passes, at the lowest level where neither holds, straight to the thread behind it, with the count plus one |
| `HmcsCohort.PassPasses` | src/lock/zm_hmcs.c:236-241 | a pass moves the ownership of the root to the thread behind the holder in the queue of that level |
| `HmcsCalls.AcquireEnters` | src/lock/zm_hmcs.c:279-288 | an acquire is over only after its own thread has been in the critical section since the call |
| `HmcsCalls.TryFailsOnlyIfTaken` | src/lock/zm_hmcs.c:290-300 | a call ends without an entry only if it is a tryacq and the lock word it looks at, of its leaf or of the root, is taken at that moment |
| `HmcsCalls.TryNeverWaits` | src/lock/zm_hmcs.c:290-300 | a tryacq never stands behind another node in any queue |
| `HmcsCalls.FastPathExactly` | src/lock/zm_hmcs.c:279-300 | inside, a thread holds the root by its own leaf exactly if both lock words its call looked at were free |
| `HmcsCalls.BoundedWork` | src/lock/zm_hmcs.c:128-311 | from its call to the end of its release a thread executes at most 14 instructions a level and 10 more, besides spin retries |
| `HmcsShape.SlotsDiffer` | src/lock/zm_hmcs.c:443-449 | different tree nodes have different places in the table of lock locations |
| `HmcsShape.SlotOf` | src/lock/zm_hmcs.c:421-425 | every place of the table is some tree node |
| `HmcsShape.MasterBelow` | src/lock/zm_hmcs.c:441 | a thread that is first of its group at a level is first at every level below, so the running table offset is right |
| `HmcsShape.ParentGroup` | src/lock/zm_hmcs.c:463 | the parent place computed from tid is the same for all threads of the child group |
| `HmcsShape.StrictChainIsSmall` | src/lock/zm_hmcs.c:490 | with strictly growing group sizes there are fewer nodes than twice the threads |
| `HmcsShape.RepeatedLevelIsTooMany` | src/lock/zm_hmcs.c:490 | with group sizes 1, 2, 2 and two threads there are four nodes, as many as the assertion forbids |
| `HmcsShape.AncestorIsGroup` | src/lock/zm_hmcs.c:463 | thread t's level-i node is number tid/p[i] of that level |
| `HmcsShape.SharedNodes` | src/lock/zm_hmcs.c:441-449 | two threads share a level-i node exactly if tid/p[i] agrees |
| `HmcsShape.ShapeIsValid` | src/lock/zm_hmcs.c:455-468 | every leaf reaches the one root in exactly `levels` nodes: the built tree is one the lock protocol is proved for |
| `HmcsTree.CreateFor` | src/lock/zm_hmcs.c:439-451 | one thread's levels of the first loop write only places that were empty, one fresh node each |
| `HmcsTree.CreateNodes` | src/lock/zm_hmcs.c:435-452 | after the first loop every place of the table holds a node of its own, parentless and with the threshold |
| `HmcsTree.LinkOne` | src/lock/zm_hmcs.c:460-465 | one parent assignment reaches the node of the same group one level up |
| `HmcsTree.NewLeaf` | src/lock/zm_hmcs.c:261-277 | the walk of new_leaf ends at the one root, through exactly one node per level |
| `HmcsTree.SetupParents` | src/lock/zm_hmcs.c:455-468 | after the second loop all parents are right and each thread has a leaf at its level-0 node |
| `HmcsTree.NewLock` | src/lock/zm_hmcs.c:421-478 | new_lock builds the whole tree, every node fresh, with a leaf for each thread |
| `HmcsTree.TreeIsTheLocks` | src/lock/zm_hmcs.c:464 | the parent pointers of the built tree are the ancestors the lock protocol climbs |
| `HmcsTree.SearchNodes` | src/lock/zm_hmcs.c:480-494 | the recursive search adds exactly the not yet listed nodes of one path; its assertion fails only if the tree has at least twice as many nodes as threads |
| `HmcsTree.FreeLock` | src/lock/zm_hmcs.c:496-510 | the assertion at line 490 holds if and only if the tree has fewer than 2*max_threads nodes, and then each node is freed exactly once |
| `PriorityLock.Lock.Acquire` | src/lock/zm_tlp.c:174-182 | each instruction of a high acquire: group lock, go_straight test, ticket, flag |
| `PriorityLock.Lock.AcquireLow` | src/lock/zm_tlp.c:197-203 | each instruction of a low acquire |
| `PriorityLock.Lock.Release` | src/lock/zm_tlp.c:219-232 | each instruction of release, whichever class the thread is of |
| `PriorityLock.StepKeepsInv` | src/lock/zm_mcsp.c:18-73 | the inductive invariant that ties the two plain flags to the filter line and the two holders |
| `PriorityLock.MutualExclusion` | src/lock/zm_mcsp.c:18-73 | across both classes at most one thread is in the critical section, although one high thread may give back a ticket another took |
| `PriorityLock.LowFlagNamesReleaser` | src/lock/zm_mcsp.c:61 | low_p_acq read at release is set exactly if the releaser is of the low class |
| `PriorityLock.FilterBound` | src/lock/zm_mcsp.c:20-23 | at most two filter tickets are out, one per class, so the wrap of 32-bit counters does not matter; go_straight implies the high class is at the front |
| `PriorityLock.SpinEndsInTurn` | src/lock/zm_ticket.c:18-20 | a filter spin ends exactly when the class is at the front of the ticket line |
| `PriorityLock.PriorityBound` | src/lock/zm_mcsp.c:42-44 | a high thread with a filter ticket sees at most one low critical section before its own |
| `PriorityLock.FilterNotStranded` | src/lock/zm_mcsp.c:62-65 | while the high class holds the filter some high thread is there to give it back |
| `PriorityLock.NoLostHandoff` | src/lock/zm_mcsp.c:18-73 | if any thread is inside a call, some thread can move |
| `PriorityCalls.AcquireEnters` | src/lock/zm_mcsp.c:18-73 | an acquire is over only after its thread has been inside, for the class it called for |
| `PriorityCalls.NextIsHigh` | src/lock/zm_mcsp.c:61-66 | from the moment the releasing high thread is told that a high thread waits, the next thread to enter is a high one |
| `Ticket.Lock.Acquire` | src/lock/zm_ticket.c:17-22 | each instruction of acquire on the wrapped words; with at most 2^32 threads it always keeps the invariant |
| `Ticket.Lock.TryAcquire` | src/lock/zm_ticket.c:24-38 | each instruction of tryacq on the wrapped words; with at most 2^32 threads only its CAS can break the invariant, and only if 2^32 tickets were drawn since its load |
| `Ticket.Lock.GiveBack` | src/lock/zm_ticket.c:41-44 | release keeps the invariant unconditionally |
| `Ticket.Lock.AskNowaiters` | src/lock/zm_ticket.c:46-49 | for the holder: true exactly if its ticket is the only one out |
| `Ticket.OldestTicketHolds` | src/lock/zm_ticket.c:17-44 | while no counter wraps around what is outstanding, the thread inside is the one with the oldest ticket |
| `Ticket.ExcludesExactly` | src/lock/zm_ticket.c:17-44 | all runs of n threads with at most c calls are mutually exclusive if and only if n <= 1, or c <= 2^32, or n <= 2^32 and tryacq is not called |
| `Ticket.DrawPassesAtOnce` | src/lock/zm_ticket.c:18-19 | a draw behind a holder enters at once if and only if 2^32 tickets are already out |
| `Ticket.TryIsWrongOnlyOnWrap` | src/lock/zm_ticket.c:26-33 | the compare of tryacq passes iff now_serving and the ticket seen are a multiple of 2^32 apart, its CAS iff next_ticket and the ticket seen are; with the lock held that needs 2^32 draws since its load |
| `TicketCalls.AcquireEnters` | src/lock/zm_ticket.c:17-44 | whatever the counters do, an acquire draws one ticket with its first instruction and is over only after its thread has been inside; a call takes at most five instructions besides spin retries |
| `TicketCalls.TryFailsOnlyIfTaken` | src/lock/zm_ticket.c:24-38 | while the counters suffice, a call ends without an entry only if it is a tryacq and a ticket is out or was drawn since it looked |
| `TicketCalls.OldestMoves` | src/lock/zm_ticket.c:17-44 | while the counters suffice and a ticket is out, the thread with the oldest one is in its call and its next instruction is no spin retry |
| `Ticket.TooManyThreads` | src/lock/zm_ticket.c:18-19 | a concrete schedule: with 2^32 + 1 threads in acquire two of them enter together |
| `Ticket.OvertakenTryacq` | src/lock/zm_ticket.c:26-33 | a concrete schedule with two threads: a tryacq overtaken by 2^32 acquisitions enters while the other holds |
| `SdList.List.PushBack` | src/include/list/zm_sdlist.h:49-65 | appends one fresh cell |
| `SdList.List.PopFront` | src/include/list/zm_sdlist.h:67-81 | removes and returns the first entry; on an empty list returns NULL and still lowers the length |
| `SdList.List.RmNode` | src/include/list/zm_sdlist.h:84-95 | unlinks exactly the given cell, both directions of links kept |
| `SdList.List.Remove` | src/include/list/zm_sdlist.h:99-112 | removes the first equal entry if there is one, and says whether |
| `SdList.List.Free` | src/include/list/zm_sdlist.h:114-116 | empties the list up to and including the first NULL entry; without NULL entries the length ends one too low |
| `ScanSpec.KeptIsIntersection` | src/include/mem/zm_hzdptr.h:81-88 | what stage 2 keeps is the multiset intersection of the retire list and the hazards |
| `ScanSpec.KeptMembers` | src/include/mem/zm_hzdptr.h:81-88 | from a list without duplicates exactly the entries some hazard names are kept |
| `Hazard.Match` | src/include/mem/zm_hzdptr.h:81-88 | stage 2 of scan, in place on the two linked lists, leaves exactly that list |
| `Hazard.Domain.Publish` | src/queue/zm_msqueue.c:27 | a published hazard is among those the next scan collects |
| `Hazard.Domain.Collect` | src/include/mem/zm_hzdptr.h:71-79 | stage 1 of scan puts every non-null hazard of every record into a new linked list, in order |
| `Hazard.Domain.Scan` | src/include/mem/zm_hzdptr.h:67-90 | scan, by stage 2 on the linked lists, leaves the multiset intersection with the hazards, at most two entries per record |
| `Hazard.Domain.Drain` | src/include/mem/zm_hzdptr.h:99-105 | draining the linked list of an idle record loses nothing but what the scans on the way drop, and nothing hazards cover |
| `Hazard.Domain.HelpScan` | src/include/mem/zm_hzdptr.h:92-109 | helpscan empties the linked lists of idle records only, restores their flags, keeps the bound, and conserves all entries up to what its scans drop, which is nothing hazards cover |
| `Hazard.Domain.Retire` | src/include/mem/zm_hzdptr.h:111-118 | after every retire the list has at most two entries per counted record; below that nothing else changes, and from there on every entry is kept or dropped by a scan that spares what hazards cover, and an entry of the caller's own list stays at most as often as hazards name it and idle lists bring it in |
| `Hazard.Domain.Allocate` | src/include/mem/zm_hzdptr.h:36-65 | claims the first idle record with its retire list and changes no list, or puts a fresh record with null slots in front and counts it first |
| `MsQueue.Queue.Register` | src/include/mem/zm_hzdptr.h:36-65 | each instruction of hazard registration: the walk over busy records, the count, the weak CAS of the list head with its retries, and slots that are arbitrary until cleared |
| `MsQueue.Queue.Enqueue` | src/queue/zm_msqueue.c:25-50 | each instruction of the enqueue loop and the final weak CAS, spurious failures included |
| `MsQueue.Queue.Dequeue` | src/queue/zm_msqueue.c:60-85 | each instruction of the dequeue loop; data is returned exactly by the read after a successful head CAS |
| `MsQueue.Queue.Retire` | src/include/mem/zm_hzdptr.h:67-90 | each instruction of retire and scan, one hazard slot at a time |
| `MsQueue.StepKeepsInv` | src/queue/zm_msqueue.c:25-87 | the inductive invariant over queue, retire lists, hazard slots and scans in progress |
| `MsQueue.NoUseAfterReclaim` | src/queue/zm_msqueue.c:62-86 | no thread ever dereferences a node that has left a retire list, including the next node protected by slot 1 that is never re-checked |
| `MsQueue.RetiredOnce` | src/queue/zm_msqueue.c:86 | over a whole run a node is retired exactly once if it is in a retire list or was dropped from one, else never |
| `MsQueue.ListedOnce` | src/include/mem/zm_hzdptr.h:112 | a node in a retire list is there once, in no other list, and was before head in the queue |
| `MsQueue.EndsInOrder` | src/queue/zm_msqueue.c:46-50 | head never passes tail, and tail lags the last node by at most one |
| `MsQueue.StepRefines` | src/queue/zm_msqueue.c:25-85 | each instruction is one event of an atomic FIFO queue, or none; they are the link CAS, the head CAS and the NULL read |
| `MsQueue.RefinesFifo` | src/queue/zm_msqueue.c:18-88 | every interleaving is a history of the atomic FIFO queue |
| `MsQueue.DequeuesInLinkOrder` | src/queue/zm_msqueue.c:18-88 | what was dequeued followed by what is in the queue is what was linked, in order |
| `MsCalls.CallsDoTheirWork` | src/queue/zm_msqueue.c:18-88 | every enqueue that is over has offered and linked its own argument once; every dequeue that is over has taken one value and returned it, or seen the queue empty and returned nothing, within that call |
| `MsCalls.OffersAreArguments` | src/queue/zm_msqueue.c:18-24 | what a thread offers to the queue are the arguments of its enqueue calls, in order, but for a call still registering |
| `MsCalls.FinishesAlone` | src/queue/zm_msqueue.c:25-88 | from every reachable state a thread that runs alone finishes its call within 4N + 31 instructions, N being the number of hazard records |
| `MsProgress.LockFree` | src/queue/zm_msqueue.c:25-88 | a call executes at most 4N + 31 instructions for each time another thread links, takes off, swings the tail or registers, or its own weak CAS fails spuriously, and as many besides |
| `MsProgress.ProgressIsWork` | src/queue/zm_msqueue.c:25-88 | all that can disturb calls is paid for by nodes linked, nodes taken off and hazard records |
| `MsCalls.SlotsNameNodes` | src/include/mem/zm_hzdptr.h:36-65 | whatever a new hazard record's memory contained, past its registration a thread publishes only nodes that are or have been in the queue |
| `MsQueue.RetireListBound` | src/include/mem/zm_hzdptr.h:112-117 | over whole runs a retire list never exceeds 2N entries outside a retire, nor 2N+1 inside |
| `SwapQueue.Queue.Enqueue` | src/queue/zm_swpqueue.c:17-25 | each instruction of enqueue, with reused node addresses |
| `SwapQueue.Queue.Dequeue` | src/queue/zm_swpqueue.c:27-42 | each instruction of dequeue; the data it returns is the next value in tail-swap order |
| `SwapQueue.DequeueReturnsNext` | src/queue/zm_swpqueue.c:36-38 | when a dequeue reads its data it is the next value in tail-swap order |
| `SwapQueue.Queue.IsEmptyWeak` | src/queue/zm_swpqueue.c:44-48 | true exactly if the queue is empty or a producer still owes the first link |
| `SwapQueue.Queue.IsEmptyStrong` | src/queue/zm_swpqueue.c:50-55 | true exactly if the queue was empty when the tail was loaded and the first link is still missing |
| `SwapQueue.RunKeepsInv` | src/queue/zm_swpqueue.c:17-55 | the inductive invariant of the chain with its missing links |
| `SwapQueue.DeliversInSwapOrder` | src/queue/zm_swpqueue.c:17-42 | delivered values are a prefix of the values in tail-swap order |
| `SwapQueue.NothingLost` | src/queue/zm_swpqueue.c:17-42 | between calls, delivered values followed by those in the nodes behind head are all values swapped in |
| `SwapQueue.OneDebtorPerGap` | src/queue/zm_swpqueue.c:22-23 | each missing link has exactly one producer about to write it |
| `SwapQueue.FreedIsNotPending` | src/queue/zm_swpqueue.c:39 | a freed head is no producer's predecessor or node |
| `SwapQueue.NoUseAfterFree` | src/queue/zm_swpqueue.c:17-55 | no one touches freed memory although addresses are reused |
| `SwapQueue.StrongTestIsSound` | src/queue/zm_swpqueue.c:50-55 | the strong test finds head and tail equal if and only if the queue was empty at its tail load |
| `SwapQueue.WeakTestMeans` | src/queue/zm_swpqueue.c:44-48 | the first link is missing exactly if the queue is empty or a producer is between its swap and its link |
| `SwapCalls.EnqueueStoresItsArgument` | src/queue/zm_swpqueue.c:17-25 | an enqueue that is over has swapped its own argument in, once, and owes no link |
| `SwapCalls.CallsDeliver` | src/queue/zm_swpqueue.c:27-55 | a dequeue delivers one value, or nothing; nothing exactly if the queue was empty or a producer owed the first link at its look; the weak test answers as exactly, and the strong one by the emptiness at its tail load and the link after it; six instructions at most |
| `SwapCalls.DequeueFindsLinked` | src/queue/zm_swpqueue.c:35 | at its look at the first link a dequeue goes on to deliver if and only if the queue is not empty and no producer owes that link |
| `SwapCalls.NothingLeaks` | src/queue/zm_swpqueue.c:17-42 | a node is allocated exactly while it is a producer's, in the chain, or in the hand of the dequeue that took it off |
| `FaQueue.Queue.Enqueue` | src/queue/zm_faqueue.c:74-79 | each instruction of enqueue and of the search for the cell |
| `FaQueue.Queue.FasegAdvance` | src/queue/zm_faqueue.c:28-48 | each instruction of advancing a segment, with the race to append one |
| `FaQueue.Queue.Dequeue` | src/queue/zm_faqueue.c:81-106 | each instruction of dequeue; the data it returns is the next value in ticket order |
| `FaQueue.RunKeepsInv` | src/queue/zm_faqueue.c:28-106 | the inductive invariant of segments, tickets and cells |
| `FaQueue.WritesAreDisjoint` | src/queue/zm_faqueue.c:74-79 | producers about to write have different cells, none of them written |
| `FaQueue.AssertsNeverFail` | src/queue/zm_faqueue.c:29-57 | no assertion in advance, find or dequeue fails under any interleaving with one consumer |
| `FaQueue.OneSegmentPerId` | src/queue/zm_faqueue.c:34-45 | at most one segment per id joins the chain |
| `FaQueue.DeliversInTicketOrder` | src/queue/zm_faqueue.c:74-105 | delivered values are a prefix of the values in ticket order |
| `FaQueue.DequeueFindsComplete` | src/queue/zm_faqueue.c:99-104 | a dequeue finds data exactly if the oldest undelivered ticket is written, with a value other than ALPHA |
| `FaQueue.MissingSegmentMeansEmpty` | src/queue/zm_faqueue.c:88-90 | reporting empty for a missing segment overlooks no such ticket |
| `FaQueue.AlphaBlocks` | src/queue/zm_faqueue.c:99-100 | a producer that stores ALPHA stops the queue at its ticket for good |
| `FaCalls.EnqueueStoresItsArgument` | src/queue/zm_faqueue.c:74-79 | an enqueue that is over has drawn one ticket, for its own argument, and the argument is in the ticket's cell |
| `FaCalls.EnqueueIsWaitFree` | src/queue/zm_faqueue.c:28-79 | however the others are scheduled, an enqueue takes at most five instructions for each segment up to its ticket's, and four besides |
| `FaCalls.DequeueDelivers` | src/queue/zm_faqueue.c:81-106 | a dequeue delivers one value, or nothing; nothing exactly if at its last look the oldest undelivered ticket had no data; four instructions at most |
| `Buckets.WordBounds` | src/queue/zm_mpbqueue.c:33 | the eight flags read as one word are positive exactly if a flag is set |
| `BucketQueue.Queue.constructor` | src/queue/zm_mpbqueue.c:57-88 | at least eight buckets, all empty, flags down, counters at 0 and bounds at 1 |
| `BucketQueue.Queue.GetSetState` | src/queue/zm_mpbqueue.c:25-54 | EMPTY for a set that holds an element raises its 32-bit counter to below the bound; a set is never further than one poll can bring it; bounds stay powers of two in [1, 1024] |
| `BucketQueue.Queue.TakeFromSet` | src/queue/zm_mpbqueue.c:111-120 | takes the head of the first nonempty bucket of the set and takes down only flags of empty buckets, or the set held nothing |
| `BucketQueue.Queue.Dequeue` | src/queue/zm_mpbqueue.c:98-127 | each call removes nothing, after polling every set, or one head, whatever producers append meanwhile: that of the first nonempty bucket of its set, all sets between the last one served and this one having been polled in vain; undisturbed, it leaves exactly the state the function `Alone` gives |
| `BucketQueue.Queue.DequeueRange` | src/queue/zm_mpbqueue.c:166-179 | at most one element per bucket of the range, in order, none skipped; one is taken even for a count of 0 |
| `BucketRuns.RunAges` | src/queue/zm_mpbqueue.c:33-52 | after c calls no set is further than c calls can bring it: beyond its bound a counter costs two calls a step, so it wraps after 2^32 - 2 calls at the earliest |
| `BucketRuns.Latency` | src/queue/zm_mpbqueue.c:33-52 | while some bucket holds an element at most 1023 calls in a row return NULL, in the first 2^32 + 1021 calls, whatever producers do |
| `BucketRuns.DrainsInTime` | src/queue/zm_mpbqueue.c:108-125 | once producers stop, M elements are drained within 1024*M calls, if there are at most 2^32 + 1021 calls in all |
| `BucketRuns.Overlooks` | src/queue/zm_mpbqueue.c:36-37 | at INT_MAX, and as long as the counter is negative after that, an undisturbed call returns NULL although an element is linked |
| `BucketRuns.TooManyCalls` | src/queue/zm_mpbqueue.c:33-52 | a run of 2^32 + 1022 undisturbed calls, with elements coming one at a time, that breaks both bounds |
| `BucketRuns.LatencyExactly` | src/queue/zm_mpbqueue.c:33-52 | the latency bound holds in all runs of at most c calls if and only if c <= 2^32 + 1021, with or without interrupted calls |
| `BucketRuns.DrainsExactly` | src/queue/zm_mpbqueue.c:108-125 | the drain bound holds in all runs of at most c calls if and only if c <= 2^32 + 1021 |
| `BucketBackoff.EmptyBacksOff` | src/queue/zm_mpbqueue.c:36-51 | while the queue stays empty, a set that starts to count at bound 2^j does so again at bound 2^m after 2^m - 2^j calls, up to 1024 |
| `BucketBackoff.LooksEvery1024` | src/queue/zm_mpbqueue.c:36-51 | from then on a set looks at its buckets with every 1024th call only |
| `Wskip.Lock.Forward` | src/cond/zm_wskip.c:123-141 | the forward pass wakes the first waiting node and reverses every link before it |
| `Wskip.Lock.Backward` | src/cond/zm_wskip.c:143-148 | the backward pass makes every node passed recyclable and nothing else |
| `Wskip.Lock.Wake` | src/cond/zm_wskip.c:113-165 | a node whose status is not WAKE is left alone; otherwise wake recycles exactly the caller and the leading skipped nodes, wakes the first waiting node or clears the lock word, and leaves the rest a well-formed queue |

## Left out

- Memory orders and cache-line alignment: every atomic instruction is one step of sequentially consistent memory.
- Topology and affinity queries, environment parsing, aligned allocation: the group sizes, the number of threads and thread numbers are inputs.
- zm_mcsp_tryacq and zm_tlp_tryacq in all variants: they test the pointer instead of the result, or never write it, so there is no try-lock contract to prove.
- zm_mpbqueue_dequeue_bulk: its output count is always one more than the number of dequeues attempted.
- Concurrent runs of enq, wait, skip and wake of the skip queue, and all of zm_hmpr.c: nodes are marked recyclable before the lock word is settled.
- nowaiters of the hierarchical lock: it only reads next fields on the path.
- Reclamation in the fetch-and-add queue, its hazard slots, and the wrap of its 64-bit counters: segments are never reused in the model.
- Physical freeing of retired blocks: scan never frees them, so leaving a retire list is the reclaim event; in the Michael-Scott queue addresses are not reused.
- Helpscan inside the concurrent Michael-Scott model: no thread ever clears its record's active flag, so helpscan finds every record busy and changes nothing; `Hazard` treats it, and idle records, sequentially.
- MsQueue.Queue.Register: has no branch that claims an idle record, because no thread of that model clears an active flag; `Hazard.Domain.Allocate` has it.
- The hazard slots stay as they are while a scan of `Hazard` runs; in `MsQueue` they change under the scan.
- zm_tlp over ticket or hierarchical locks: only zm_mcsp, over MCS locks, is put together; `PriorityLock` assumes of any other group lock what `McsGroup` proves of MCS.
- The chain below a bucket is a sequence of linked elements in `BucketQueue`; `SwapQueue` treats the chain itself.
- The initial value of last_bucket_set, which zm_mpbqueue_init does not write, is 0.
- Fairness and termination of spin loops under a scheduler; the theorems say that some thread can always move.
- zm_mmcs.c, zm_glqueue.c, zm_ccond.c, zm_scount.c, the dispatch macros and the allocation of contexts: variants and plumbing that would add easy members only.
- Ticket.Lock.Acquire: with more than 2^32 threads it keeps the invariant only for steps that fit the counters, because others break it.
- Ticket.Lock.TryAcquire: likewise, and its CAS also needs fewer than 2^32 draws since its load.
