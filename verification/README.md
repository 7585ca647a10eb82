# residctl verification

A Dafny 4.11 model of residctl, a userspace pager that keeps a model file within a memory budget: chunks
of the file are fetched on a page fault, evicted by a policy and prefetched ahead of use. The project
models the pager's logic and proves what it is for. `dafny verify dfyconfig.toml` checks all of it.

## What is modelled

**The offline optimum** (`Demand.dfy`, `MaxHeap.dfy`, `Belady.dfy`, `NaiveBelady.dfy`, `ByteBudget.dfy`,
`Wp2Opt.dfy`, `CyclicFloor.dfy`). A *demand schedule* is a sequence of cache contents, one per reference:
the referenced chunk is in it, it never exceeds the capacity, and nothing but the referenced chunk is ever
loaded. Belady's rule is proved minimal among all of them, by a potential that counts, for every point in
the future, how many cached chunks are needed before it. The heap solver, the naive solver and (for equal
lengths) the byte-budget solver are proved against that notion, and the floor that real runs are checked
against is proved to lie below it.

**Policies, budget, synchronous fault path** (`Chunks.dfy`, `LearnedPolicy.dfy`, `DeclaredPolicy.dfy`,
`Policies.dfy`, `RetentionRing.dfy`, `Budgets.dfy`, `Pager.dfy`, `Serial.dfy`, `SignalModes.dfy`). Classes
with the source's fields. `Serial.dfy` drives the declared policy through a whole repeated sequence and
proves that the online run costs exactly what the offline solvers compute, whenever pre mode gets its
signal before the read; `SignalModes.dfy` shows that it needs it there.

**The asynchronous fetch protocol** (`Protocol.dfy`, `Invariant.dfy`, `Steps.dfy`, `WorkerSteps.dfy`,
`AsyncRuns.dfy`, `AsyncTheorems.dfy`, `AsyncProgress.dfy`, `AsyncBudget.dfy`, `Watchdog.dfy`,
`StaleJobs.dfy`, `StepLaws.dfy`). A state machine of one dispatcher, any number of fetch workers,
consumption-signalling threads and faulting threads, over per-chunk locks, the budget lock, the pool lock
and the pool's condition variable. A transition takes one lock, or runs one section of code up to the next
lock; the theorems hold for every interleaving, any victim a policy may choose, and any short reads. The
entry fields `acct` and `job` are bookkeeping that no guard reads. Every abort of the source is a transition
to a state marked `aborted`.

**The bounded-lookahead driver** (`Lookahead.dfy`). Any number of replay threads over shared completion
counters, in both consumption-signal modes.

**Layout and fetching** (`TensorNames.dfy`, `Layout.dfy`, `Fetch.dfy`). From tensor names and offsets to a
chunk table and a declared sequence, the lookup of a faulting offset, and the read loops under arbitrary
short and interrupted reads.

`Foundations.dfy` holds facts about division and finite sets.

Where the code and its comments differ, the model follows the code:

- The comment above the FETCHING watchdog calls what it reclaims an orphaned slot; FETCHING with a free
  lock is in fact exactly the state of a demand job that is queued or just taken
  (`Watchdog.ReclaimStrandsJob`), and no later run makes up for the reclaim
  (`StaleJobs.ReclaimNeverHeals`). All other protocol theorems are about runs in which it does not fire.
- The comment above the equal-size cross-check of the byte solver speaks of the sequence's distinct chunks,
  but the check compares with chunk 0, declared or not (`Wp2Opt.Run`, `Wp2Opt.CrossCheckMisfires`).
- The layout comment says a boundary is placed at the first tensor of each run of one group; a run that
  begins on the page of the previous boundary gets none (`Layout.Boundaries`).

## Model

| member | source | states |
|---|---|---|
| `Optimality.GreedyOptimal` | src/belady.c:57-145 | Evicting the furthest next use misses no more often than any demand schedule of the same capacity, for every reference string |
| `Optimality.PotentialInvariant` | src/belady.c:87-133 | After every prefix, for every future point, the other schedule's cached chunks needed before it outnumber the greedy ones by at most its extra misses |
| `Optimality.GreedyIsMinimum` | src/belady.c:57-145 | A greedy schedule's misses are attained and are the least of all demand schedules |
| `Demand.GreedyIsDemand` | src/belady.c:87-133 | Belady's rule never exceeds the capacity and loads only what is referenced |
| `MaxHeap.Heap.Push` | src/belady.c:26-36 | Sifting up keeps the heap order and adds exactly one entry |
| `MaxHeap.Heap.PopMax` | src/belady.c:39-53 | Removes exactly one entry, one that no other outranks; fails exactly on an empty heap |
| `MaxHeap.RootIsMax` | src/belady.c:39-53 | In a heap-ordered array nothing outranks the root |
| `MaxHeap.Heap.SiftRoot` | src/belady.c:43-51 | Sinking the root restores the heap order and keeps all entries |
| `MaxHeap.Heap.Largest` | src/belady.c:45-48 | Picks the child that outranks its parent and its sibling, if any does |
| `Belady.Occurrences` | src/belady.c:61-75 | The queues hold every chunk's reference positions in order |
| `Belady.NextPosition` | src/belady.c:89-91 | Consuming an occurrence yields the true next use of the chunk |
| `Belady.NextByRank` | src/belady.c:70-75 | The occurrence after those consumed is the next use, for every chunk and position |
| `Belady.FirstPopIsVictim` | src/belady.c:105-125 | With a full cache the first entry popped is live and names a chunk used furthest ahead: lazy deletion never has to discard |
| `Belady.EvictFurthest` | src/belady.c:105-125 | The search evicts a furthest chunk and meets no stale entry; it finds nothing exactly when nothing is cached |
| `Belady.Reference` | src/belady.c:87-133 | Each reference follows Belady's rule and keeps one live entry per cached chunk, stale ones behind |
| `Belady.NoSlots` | src/belady.c:131-132 | Without slots every reference misses |
| `Belady.BeladySimulate` | src/belady.c:57-145 | The result is the minimum over all demand schedules (or all references, without slots); no stale pop; the heap never outgrows the string |
| `NaiveBelady.NaiveNextOccurrence` | src/belady_main.c:94-97 | The forward scan finds the next use |
| `NaiveBelady.NaiveBelady` | src/belady_main.c:99-125 | The quadratic solver too reports the minimum |
| `NaiveBelady.SelfTest` | src/belady_main.c:198-218 | Both solvers agree on every string and every capacity of at least 1, although they break ties differently |
| `CyclicFloor.FloorHolds` | src/belady_main.c:158-169 | Every demand schedule of a cyclic scan misses at least as often as the floor says |
| `CyclicFloor.WindowMisses` | src/belady_main.c:158-165 | A stretch of distinct references misses at least as often as its length less what was cached before it |
| `CyclicFloor.PeriodIsForced` | src/belady_main.c:132-141 | The only possible period of a cyclic scan is one more than the largest id |
| `CyclicFloor.DetectCyclicScan` | src/belady_main.c:132-156 | Recognises exactly the cyclic scans, with their period and number of passes |
| `CyclicFloor.CheckCyclicFloor` | src/belady_main.c:174-193 | Checks exactly the cyclic scans, declares a result impossible exactly if it is below the floor of the scan, and never a true optimum |
| `CyclicFloor.SolveAndCheck` | src/belady_main.c:174-193 | The check cannot abort on the heap solver's result, whatever the string and capacity |
| `ByteBudget.ByteAgreement` | src/wp2_opt.c:78-103 | For chunks of any lengths, misses, bytes fetched and chunks still needed do not depend on tie-breaking or on the order dead chunks go |
| `ByteBudget.ByteCostUnique` | src/wp2_opt.c:78-103 | The byte rule has one cost in misses and bytes |
| `ByteBudget.ByteStepLive` | src/wp2_opt.c:88-102 | One reference served by the rule turns equal needed contents into equal needed contents |
| `ByteBudget.Compulsory` | src/wp2_opt.c:105-115 | Every chunk referenced is fetched at least once |
| `ByteBudget.EqualIsMinimum` | src/wp2_opt.c:78-103 | With equal lengths the byte rule is the optimum on budget/length slots, at that length per miss |
| `Wp2Opt.NextUses` | src/wp2_opt.c:65-72 | The reverse pass fills in every true next use |
| `Wp2Opt.FurthestResident` | src/wp2_opt.c:90-96 | The scan picks a resident chunk used furthest ahead, or finds nothing resident |
| `Wp2Opt.MakeRoom` | src/wp2_opt.c:88-99 | Evicts furthest first and no more than needed |
| `Wp2Opt.Simulate` | src/wp2_opt.c:74-103 | The counts are the byte rule's cost |
| `Wp2Opt.Distinct` | src/wp2_opt.c:107-109 | Counts a pass's distinct chunks and their bytes |
| `Wp2Opt.Run` | src/wp2_opt.c:61-130 | The compulsory floors never fail; the equal-size check reports a failure if and only if the declared chunks share a length that chunk 0 does not have |
| `Wp2Opt.CrossCheckMisfires` | src/wp2_opt.c:119-129 | A concrete table on which that check reports a failure although nothing is wrong |
| `Wp2Opt.Agree` | src/wp2_opt.c:78-103 | With equal lengths the byte solver and the heap solver report the same misses |
| `LearnedPolicies.LearnedPolicy.OnFault` | src/policy.c:104-110 | The previous fetch now leads to this one, and nothing else changes |
| `LearnedPolicies.LearnedPolicy.PredictNext` | src/policy.c:114-119 | One hop along the chain, or -1; never a chunk outside the table |
| `LearnedPolicies.LearnedPolicy.ComputeDist` | src/policy.c:127-140 | Every chunk gets the least number of hops from the last fetch, or "unknown" if no number of hops ever reaches it |
| `LearnedPolicies.WalkComplete` | src/policy.c:133-138 | However the walk ends - unknown hop, closed cycle or all chunks met - what it recorded is exact for every chunk |
| `LearnedPolicies.ChainDistIsFirst` | src/policy.c:127-140 | Looking as many hops ahead as there are chunks finds the first hop that reaches a chunk, if any ever does |
| `LearnedPolicies.HopCycles` | src/policy.c:135 | Past the hop that closes a cycle the chain meets nothing new |
| `DeclaredPolicies.DeclaredPolicy.DeclareSequence` | src/policy.c:331-347 | Each declared chunk is linked to the slot after its last occurrence, cyclically; others to none |
| `DeclaredPolicies.DeclaredPolicy.Dist` | src/policy.c:239-269 | The scan finds the cyclic distance to the first slot of the chunk, in both signal modes and with protection, and no distance exactly for a chunk that is not declared |
| `DeclaredPolicies.DistanceLaw` | src/policy.c:213-269 | The distance is 0 for the current slot's chunk and the one before it under protection, the number of slots to the next one for any other declared chunk, and unreachable for a chunk that is not declared |
| `DeclaredPolicies.DeclaredPolicy.OnAccess` | src/policy.c:277-288 | The position moves to the chunk's first slot past it, or stays if it is not declared |
| `DeclaredPolicies.AdvancedLaw` | src/policy.c:271-288 | The signal moves the position to the first slot of the chunk past the old one, round the cycle, even if references were skipped or reordered; a chunk that is not declared moves nothing |
| `DeclaredPolicies.DeclaredPolicy.PredictNext` | src/policy.c:293-299 | The chunk the declared sequence has right after its last use of this one, cyclically; -1 for a chunk that is not declared |
| `Policies.PredictionInRange` | src/prefetch.c:26-33 | A prediction misses the table exactly if it is a declared link to a chunk outside it: never under the learned policy, nor for sequences of chunks of the table |
| `DeclaredPolicies.NextInCycle` | src/policy.c:258-267 | One cycle of the scan finds every declared chunk, from wherever it starts |
| `DeclaredPolicies.InOrderAdvance` | src/policy.c:271-276 | Consumed in declared order, the position advances by exactly one slot each time |
| `Policies.LruSelectVictim` | src/policy.c:42-54 | The least recently faulted evictable chunk, or none if none is evictable |
| `Policies.LearnedSelectVictim` | src/policy.c:142-161 | The evictable chunk furthest along the learned chain, unknown ones first |
| `Policies.DeclaredSelectVictim` | src/policy.c:301-315 | The evictable chunk with the furthest declared next use, the first of equals |
| `Policies.UndeclaredFirst` | src/policy.c:301-315 | A declared chunk is evicted only when every evictable chunk is declared: what is never used again always goes first |
| `Policies.VictimMetLast` | src/policy.c:142-161 | The learned chain meets no evictable chunk later than the victim, "never" counting as latest |
| `Policies.NextUseMeans` | src/policy.c:163-174 | What the prefetch gate and a broken retention compare is the hops to the chunk's first meeting on the chain, or the slots to its next declared use |
| `Policies.DefaultSelectVictim` | src/budget.c:141-147 | The first evictable chunk |
| `Policies.SelectVictim` | src/budget.c:175 | Every policy returns its furthest evictable chunk, and none exactly when nothing is evictable |
| `RetentionRings.RetentionRing.DropOldest` | src/budget.c:306-309 | Takes off the oldest entry, across the wrap-around |
| `RetentionRings.RetentionRing.Append` | src/budget.c:311-312 | Adds the youngest entry, across the wrap-around |
| `RetentionRings.RetentionRing.Release` | src/budget.c:319-337 | Removes the entry if it is there and keeps the order of the others |
| `RetentionRings.RemovedKeeps` | src/budget.c:319-337 | Releasing from a duplicate-free queue removes exactly that chunk and leaves it duplicate-free |
| `RetentionRings.RetentionRing.ShiftDown` | src/budget.c:325-329 | Shifting the tail down closes the gap in the ring |
| `Budgets.Region.EvictChunk` | src/budget.c:85-104 | The victim is absent, its bytes are off the count, the count still equals the resident bytes |
| `Budgets.Region.PinBreakSelectVictim` | src/budget.c:340-357 | The retained chunk with the furthest next use, the oldest of equals; none exactly when nothing is retained |
| `Budgets.Region.RetainRelease` | src/budget.c:319-337 | Drops one retention with its pin; the others stay resident with exactly theirs |
| `Budgets.Region.EnsureBudget` | src/budget.c:165-211 | Terminates with the bytes reserved within budget, every victim having been the policy's choice or the coldest retention at its turn and none evicted needlessly; or with nothing evictable and nothing retained; the counters of evictions, punched bytes, broken pins and refusals agree |
| `Budgets.Region.EnsureBudgetPrefetch` | src/budget.c:217-260 | The same without breaking retentions: guarded, every victim is needed strictly later than the target, and it declines only if no evictable chunk is |
| `Budgets.Region.CommitReservedAndPin` | src/budget.c:280-286 | Bytes move from reserved to resident while the pin goes on |
| `Budgets.Region.RetainOnResident` | src/budget.c:301-316 | The fetch pin becomes the retention pin; a full queue first lets go of its oldest |
| `Budgets.Region.NotifyAccess` | src/pager.c:363-378 | The signal advances the declared position and releases the chunk's retention, keeping the accounts |
| `Budgets.EvictionKeeps` | src/budget.c:173-207 | Any eviction, ordinary or pin-breaking, removes one resident chunk and keeps retained chunks resident and pinned once |
| `Budgets.RetentionsGoLast` | src/budget.c:173-191 | A retention is broken only when nothing is evictable, and then the one needed furthest ahead; any other victim was unpinned and leaves the retentions alone |
| `Budgets.RunLoses` | src/budget.c:173-207 | Only the victims lose their residency, and there are none if the bytes fit at once |
| `Pager.HandleAbsent` | src/pager.c:61-170 | A demand fetch ends with the chunk resident within budget, or absent with nothing left to evict, having evicted by the policy alone |
| `Pager.RunLeaves` | src/pager.c:117-144 | Whatever is evicted for a fetch, the chunk being fetched is not touched |
| `Pager.MaybePrefetch` | src/prefetch.c:21-99 | The chunk the policy predicts ends up resident and retained, unless it is the chunk just fetched or already resident, or its bytes do not fit and no evictable chunk may make way for it; whoever made way is needed later; the chunk just fetched is never the victim; no reservation leaks; the fatal branch is taken exactly for a declared link outside the table |
| `Pager.HandleAbsentPrefetching` | src/pager.c:61-170 | A demand fetch with its inline prefetch keeps the accounts; it fails only with nothing evictable, and the prefetch is made unless refused for want of room; afterwards nothing is being fetched and every pin is a retention |
| `Serial.DistanceNotified` | src/policy.c:258-267 | After the signal both modes measure a chunk's true distance from the reference being served |
| `Serial.DistanceLagging` | src/policy.c:258-267 | Before the signal post mode measures exactly one more |
| `Serial.RanksByNextUse` | src/policy.c:239-269 | In every matching mode the ranking is that of true next uses in the repeated string |
| `SignalModes.LaggingRun` | src/policy.c:21-36 | Pre mode with the signal after the read thrashes: on three chunks in space for two, every reference of every pass is fetched |
| `SignalModes.LaggingIsNotOptimal` | src/policy.c:239-315 | In that one unmatched mode the run exceeds the optimum for every number of passes above one, so the online policy is optimal on all inputs exactly in the matched modes |
| `SignalModes.OlderGoes` | src/policy.c:301-315 | There the policy evicts the very chunk that is referenced next |
| `Serial.VictimIsFurthest` | src/policy.c:301-315 | The online victim is a furthest one in the offline sense |
| `Serial.RunIsEvicting` | src/budget.c:173-207 | An eviction run of the declared policy follows Belady's rule step by step |
| `Serial.ServeRun` | src/pager.c:61-170 | The online run over the repeated sequence costs what the byte rule costs, for chunks of any lengths |
| `Serial.OnlineMatchesOffline` | src/wp2_opt.c:74-103 | The fetches and bytes of the run equal the byte solver's misses and bytes |
| `Serial.OnlineIsOptimal` | src/policy.c:203-315 | With equal lengths the declared policy fetches exactly as often as the offline minimum, in every matching signal mode |
| `AsyncRuns.ReachableInv` | src/prefetch_pool.c:59-412 | The protocol invariant holds in every reachable state |
| `AsyncRuns.NextInv` | src/prefetch_pool.c:59-412 | Every transition of every thread keeps the invariant |
| `StepLaws.DemandFirst` | src/prefetch_pool.c:281-316 | An idle worker takes the oldest demand job; only without one the oldest prefetch; it leaves or sleeps only when both queues are empty |
| `StepLaws.JobsInOrder` | src/prefetch_pool.c:294-363 | Over every run the jobs of either kind are taken up in the order in which they were queued, each once |
| `StepLaws.AskingRound` | src/budget.c:165-260 | Bytes that fit are granted; else an evictable chunk goes, unless a guarded prefetch declines; with nothing evictable a prefetch gives up, and a demand fetch breaks a retention or, with none, asks again while it may |
| `StepLaws.GivenUpLate` | src/prefetch_pool.c:77-110 | Over every run a demand fetch is given up only after its worker has asked in vain 201 times |
| `StepLaws.EvictsForRoomOnly` | src/budget.c:173-207 | Under every interleaving whoever is about to evict still lacks the room it asks for |
| `StepLaws.RetainedUntil` | src/budget.c:301-337 | A retained chunk stays so until its consumption is signalled, a new one enters a full queue of which it is the oldest, or a demand fetch finds nothing else to evict; only landed prefetches become retained, as the youngest |
| `StepLaws.TakesOver` | src/prefetch_pool.c:59-112 | A demand job taken up asks for budget, a queued prefetch is fetched exactly if its chunk is still absent, and an eviction leads back to asking |
| `StepLaws.TopUpTurn` | src/prefetch_pool.c:365-412 | A landed demand fetch asks for as many predictions as prefetches are missing, and queues each exactly if it is absent, not tracked and not backed off |
| `AsyncTheorems.NeverAborts` | src/prefetch_pool.c:65-71 | No abort is reachable: wrong state at pickup, full demand queue, victim not resident or pinned, chunk left FETCHING, accounts contradicted by the kernel |
| `AsyncTheorems.WithinBudget` | src/budget.c:40-82 | Under every interleaving resident plus reserved fit the budget; reserved is exactly the bytes of the chunks some worker reads, maps or is about to commit, resident exactly those of the RESIDENT chunks and of committed ones still FETCHING; the kernel's bytes lie between resident and the sum of both |
| `Invariant.PopulatedBounds` | src/budget.c:44-82 | So neither fatal branch of the reconciliation can be taken |
| `AsyncTheorems.PinConservation` | src/budget.c:269-316 | A chunk's pin is its retention or the pin of exactly one worker, never both, and retained chunks are resident |
| `AsyncTheorems.FetchOwnership` | src/prefetch_pool.c:283-363 | A chunk is FETCHING exactly while one party is responsible for it; with its lock free that is a queued or just taken demand job; neither queue holds duplicates |
| `AsyncTheorems.TrackedPrefetches` | src/prefetch_pool.c:302-412 | A chunk is tracked exactly while its prefetch is queued once or handled by one worker, never both, and the outstanding count is that of the tracked chunks |
| `AsyncTheorems.NoLostFault` | src/pager.c:225-261 | Every blocked thread's message is unread, or its chunk is queued, or some thread has yet to issue the CONTINUE or WAKE that frees it |
| `Invariant.QueueRoom` | src/prefetch_pool.c:348-363 | The demand queue never holds more jobs than there are chunks |
| `Invariant.CoreMove` | src/prefetch_pool.c:59-279 | A step that changes only what its locks cover disturbs no other thread's knowledge |
| `AsyncProgress.WaitForAcyclic` | src/prefetch_pool.c:103-111 | No chain of threads waiting for each other's locks closes into a cycle |
| `AsyncProgress.VictimFree` | src/budget.c:85-92 | Whoever holds the lock of a chosen victim waits for nothing |
| `AsyncProgress.NoDeadlock` | src/prefetch_pool.c:59-279 | While any thread is in the middle of something, some thread can get on with its work |
| `AsyncProgress.NoLostWakeup` | src/prefetch_pool.c:283-292 | Signalling one worker per job suffices: while jobs are queued some worker is awake, and none sleeps through the stop |
| `AsyncProgress.QuiescentMeansDone` | src/prefetch_pool.c:283-316 | When nothing can move, no lock is held, no job queued, no chunk FETCHING, nothing reserved, every worker asleep or gone, and no thread blocked unless the pager has stopped |
| `AsyncBudget.LoopUndisturbed` | src/budget.c:165-211 | While one thread holds the budget lock nobody changes the accounts, the pins or the retained chunks, or makes a resident chunk absent |
| `AsyncBudget.EvictionsBounded` | src/budget.c:173-207 | The eviction loop ends under any interleaving: it evicts at most as often as there were resident bytes |
| `AsyncBudget.AskingOutcome` | src/budget.c:165-211 | A worker gets its space within budget; a demand fetch is refused only if every resident chunk is pinned by a worker |
| `Watchdog.ReclaimStrandsJob` | src/pager.c:272-296 | Whatever the watchdog would reclaim still has a demand job, queued or just taken, and a worker that has taken it aborts on picking the chunk up |
| `StaleJobs.ReclaimNeverHeals` | src/pager.c:272-296 | However a run goes on after a reclaim, the chunk has one demand job more than its fetch accounts for until the pager aborts, so it never comes to rest; and a worker that picks a job up while the chunk is not FETCHING aborts |
| `StaleJobs.StepBalances` | src/prefetch_pool.c:59-363 | No transition of any thread, short of aborting, makes up for the surplus job: the balance between a chunk's demand jobs and its fetches is kept |
| `Watchdog.WatchdogAborts` | src/pager.c:283-291 | A concrete run in which a merely queued job is reclaimed and the pager aborts four transitions later |
| `Lookahead.LookaheadBound` | src/replay.c:187-214 | At most window + 1 steps are begun but incomplete, and completion runs in step order, for any number of threads |
| `Lookahead.HeldUpOnly` | src/replay.c:215-222 | A thread is held up only at the gate of a step beyond the window of an incomplete one, or, thread 0 alone, until the others finish its step: every thread may use the whole window |
| `Lookahead.WindowAttained` | src/replay.c:187-214 | With two threads or more some reachable state has window + 1 steps in flight, or all of them |
| `Lookahead.Progress` | src/replay.c:215-266 | In every reachable state that is not final some thread can move |
| `Lookahead.AnnouncementsInOrder` | src/replay.c:228-250 | Consumption signals are sent once per step in step order, all of them by the end: in all-threads mode only for complete steps, in thread-0 mode before thread 0 reads; only complete steps are traced, and trace and byte count are those of the single-threaded driver |
| `Lookahead.ReachableInv` | src/replay.c:280-342 | The counters count the threads past each step, and at most one announcement is owed at any time |
| `Lookahead.PositionFollowsSteps` | src/replay.c:239-249 | With the chunks declared in order, the policy's position is always the last announced step |
| `Lookahead.ReadStride` | src/replay.c:310-317 | One thread reads exactly its pages of the chunk, in order, and its bytes are theirs |
| `Lookahead.StridesPartition` | src/replay.c:300-317 | The threads' strides add up to the chunk, every byte once, for any number of threads |
| `TensorNames.ParseLayer` | src/residctl_llama.c:139-147 | The number between the first "blk." and a dot, or -1 exactly if there is no such number |
| `TensorNames.Classify` | src/residctl_llama.c:149-156 | A name with a layer number, wherever its "blk." stands, gets that layer; exactly the others their role, in the source's order of precedence |
| `TensorNames.ClassifyLayer` | src/residctl_llama.c:139-156 | Writing a layer number into a tensor name and classifying it gives the number back |
| `Layout.Boundaries` | src/residctl_llama.c:191-209 | The boundaries are exactly 0 and the pages on which a run of one group begins, each once, ascending |
| `Layout.TensorTable` | src/residctl_llama.c:210-219 | The table is accepted exactly unless its last chunk would be empty, and tiles the region exactly if the last boundary lies inside it |
| `Layout.TensorsInsideFile` | src/residctl_llama.c:183-219 | For tensors that begin inside the file the table is accepted and tiles the region |
| `Layout.BuildInventoryAndTable` | src/residctl_llama.c:163-236 | From a sorted tensor list inside the file to a tiling table whose chunks begin where runs begin |
| `Layout.BuildExplicit` | src/region.c:196-242 | Accepts exactly the tables that pass every check, and otherwise names the first chunk that fails and why |
| `Layout.BuildUniform` | src/region.c:244-275 | Any region and chunk size but 0 yields a tiling by page-aligned chunks of that size rounded up |
| `Layout.UniqueCover` | src/region.c:190-195 | In a tiling every offset of the region has exactly one covering chunk |
| `Layout.Lookup` | src/pager.c:22-37 | Binary search finds a covering chunk if there is one |
| `Layout.LookupTiled` | src/pager.c:22-37 | In a tiled region it finds the covering chunk of every offset, and none past the end |
| `Layout.DeclaredSequence` | src/residctl_llama.c:221-252 | The sequence is embedding, layers in order, output norm, output, with the fall-backs dropped |
| `Layout.DeclaredOrder` | src/residctl_llama.c:238-252 | Declared ids follow the order of use: embedding, layer after layer from the first, output norm, output, and within a layer in file order |
| `Layout.DeclaredExact` | src/residctl_llama.c:230-252 | Declared ids are distinct chunks of the table: exactly the last of each role and the first six of each layer |
| `Fetch.ReadRange` | src/fetch.c:71-86 | Under any short or interrupted reads the loop ends with the range equal to the file, writing nothing else |
| `Fetch.FetchRead` | src/fetch.c:35-100 | A fetched chunk's pages hold the file's bytes and zeros past its end; no wrong byte is ever written, even on failure; it fails exactly on a failed read, or if the file's size is unknown and too small |
| `Fetch.WritesInside` | src/fetch.c:41-69 | A fetch writes nothing outside its chunk if and only if the chunk begins and ends on a page and the file reaches its start |
| `Fetch.TableWritesInside` | src/fetch.c:41-69 | In a table that tiles the file's pages no fetch writes outside its chunk |
| `Fetch.FetchAll` | src/fetch.c:35-100 | Fetched in any order and repeatedly, every fetched chunk holds its part of the file and no other is touched |

## Left out

- Kernel calls: userfaultfd, `fallocate`, `mmap`, `pread`, `poll` and cgroup files appear as their effect (CONTINUE maps a chunk and wakes its waiters, WAKE wakes them, a punch empties and unmaps, a read delivers at least one byte unless the file has ended); their failure branches are not modelled, except failed and interrupted reads.
- Time: retry sleeps, the 100 ms back-off after a declined prefetch and the watchdog's timeout are nondeterministic choices; no liveness under a fair scheduler, throughput or latency is claimed. The compute phase of the replay driver is left out.
- 32- and 64-bit wrap-around: numbers are unbounded except in `Layout.BuildExplicit`, where lengths and sums wrap; reference strings are at most UINT64_MAX long and chunk counts below 0xFFFFFFFF, so that the "never" and "none" values stay distinct from positions and ids.
- Belady.Occurrences: the occurrence queues are built by appending in one pass instead of counting and then filling.
- Wp2Opt.Run: takes the pass as an argument; reading the files and the default pass (all chunks in order) are left out.
- Pager.HandleAbsent: covers demand fetches with prefetching off, `Pager.HandleAbsentPrefetching` those with the inline prefetch; the bounded retry, which only exists together with fetch workers, is part of the asynchronous protocol.
- Budgets.Region.EvictChunk: the two aborts, victim not resident or pinned, are its precondition, which every caller is shown to meet; in the protocol they are transitions shown unreachable.
- Budgets.Region.EnsureBudget: the reconciliation with the kernel and its interval are left to the protocol, which reconciles at every turn of the loop instead of every so many fetches.
- Serial.ServeRun: assumes protection of the current chunk off and every declared chunk to fit the budget; protection deliberately departs from the optimum.
- The protocol and the lookahead driver are state machines on values, one transition per thread at a time, so that interleavings can be quantified over; update in place is modelled for the synchronous path only.
- In the protocol a section under the pool lock is one transition after taking it; the demand and prefetch queues are sequences (the ring arithmetic is that of `RetentionRings.RetentionRing.Append` and `DropOldest`); stopping the pool sets the flag and wakes all sleepers in one transition; spurious wake-ups of sleeping workers are left out.
- In the protocol any evictable victim may be chosen and any chunk predicted, so nothing about optimality is claimed for asynchronous runs, where CONTINUE wakes the workload before the chunk is marked RESIDENT.
- AsyncTheorems.TrackedPrefetches: does not bound the outstanding prefetches by the depth, because topping up computes the need and enqueues in separate sections.
- Lookahead: the state machine has one transition per access to the shared counters; a thread's page reads are `Lookahead.ReadStride`.
- Layout.Boundaries: takes the tensors sorted; a run that begins on the page of the previous boundary keeps the earlier label, so labels are those of some run on the page.
- Fetch.FetchRead: covers regions that map the file one to one, as both table builders produce.
- Trace and statistics writers, manifests, metrics, the model-loading hooks and the benchmark programs.
