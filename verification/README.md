# KVFlow-Sim, modelled and proved in Dafny

KVFlow-Sim is a discrete-event simulator of an LLM serving cluster. Requests arrive, have their prompt prefilled on a
GPU, are decoded on a GPU, and leave a result with timestamps. A cache of KV objects, spread over GPU, CPU, SSD and
remote tiers, can spare a later turn of a session part of its prefill. This project models the simulator's state
machine, its closed-form baseline, its cache with the placement policies, and its transfer arithmetic, and proves
properties of whole runs.

`dafny verify dfyconfig.toml` checks everything.

## How the model is laid out

* `Numbers`, `Simulation`: 64- and 32-bit values with saturating arithmetic; events, the pending queue and the clock.
  The queue is a set from which a step takes any event that no other precedes.
* `Cluster`, `Requests`: nodes, GPUs and the search for a worker; requests, results and the sort by (arrival, id).
* `Machine`, `Lifecycle`: the state that both event-driven runners share, the steps taken on it, and what every step
  keeps: where each request is, what its timestamps are there, which pending completion keeps a GPU busy, and that some
  GPU for each role will be free by the time of an event still to come.
* `EventDriven`, `TieFree`, `Fcfs`: the event-driven runner as a transition relation and its runs. `NoReuse` is the
  closed-form baseline and `TwoStage` the closed form of what the event-driven runner computes; `Refinement` and
  `Equivalence` relate the three.
* `Cache`, `Lru`, `Placement`, `NetworkAware`: the cache, the eviction loop and the five placement policies.
* `Transfer`, `Decision`: transfer times, the shared NIC, and the fetch-or-recompute decision.
* `CacheRunner`, `CacheLifecycle`, `CacheTieFree`, `CacheMoves`, `CacheArrivals`, `CacheLedger`, `CacheTiers`,
  `CachePrefills`, `CacheHits`, `CacheRecency`, `CachePolicies`, `CacheOrder`, `WithoutReuse`: the cache-aware runner and
  its runs.
* `StageTimes`, `DrainOrder`: how long the stages take in all three runners, and which queue is served first.
* `ServingState`, `EventDrivenRunner`, `CacheStore`, `CacheAwareRunner`, and the classes in `Simulation`, `NoReuse`
  and `Transfer`: the objects the program mutates, with methods proved equal to the functions above. Both runners of
  the program repeat the same queue loops; the model has them once, in `ServingState.Serving`.
* `Counterexamples`: small runs that break what the theorems' conditions exclude.

A run is a sequence of states with the events between them (`Traces.IsTrace`). Theorems about runs quantify over every
such sequence from the loaded state. The `Run` methods show that the loops produce one, that it ends, and that nothing is
pending at its end.

## Conditions that matter

* **Ties.** A GPU counts as idle as soon as its release time is reached, although its own completion may still be
  pending at that very moment; an arrival at that moment is handled first and the GPU is given away twice. A run is
  *tie-free* when after every event all pending completions lie strictly in the future. Exactly-once service and the
  order of timestamps hold with ties; mutual exclusion, first come first served, and the equivalence with the baseline
  need their absence. `Counterexamples.TieBreaksExclusionAndEquivalence` shows why.
* **Released GPUs.** A second run on the same runner keeps the GPUs' release times, and no event announces such a
  release. A run still serves every request as long as, for each role, one GPU is released by the last arrival; the
  others may stay marked busy for ever. Given such a decode GPU, a run serves every request if and only if there is such
  a prefill GPU; otherwise it produces no result at all (`EventDriven.ServedIffReady`, and `CacheLifecycle.ServedIffReady`
  for the cache-aware runner when no stored prefix can be found at the start). What is said about waiting, exclusion and
  order in tie-free runs asks for all GPUs to be released by the first arrival.
* **The claimed equivalence.** The comment at src/serving/scheduler.rs:14-18 calls the event-driven runner functionally
  equivalent to the baseline. It is not: it serves decodes in the order in which prefills end, the baseline in order of
  arrival. On a fresh cluster of any number of prefill and of decode GPUs it reports exactly the *two-stage* schedule:
  the baseline's prefills, then decodes in the order in which they end. That schedule is computed from the trace alone; it
  must have no *harmful ties*: no end of a prefill at the moment of an arrival or of another end, and no two decodes
  ending at once (a decode may end as a request arrives). Without them the results equal the baseline's if and only if
  the two schedules start every decode at the same moment (`Equivalence.EquivalentIff`). That is so whenever prefills end
  in order of arrival, hence always with one prefill GPU. `Counterexamples.OvertakingBreaksEquivalence` and
  `Counterexamples.OutOfStepYetEqual` lie on either side of the condition.
* **GPUs for both roles.** There the order of prefill completion is not the order of decodes: a request whose prefill ends
  takes its GPU past a waiting decode queue, exactly when that GPU serves decode too (`Fcfs.WhoOvertakes`).
* **Duplicate keys.** Inserting a second object under a key in use hides the first, and removing the first then hides
  the second (`Cache.DuplicateKeyHidesBoth`). Soundness of the index does not depend on it, completeness does.
* **Saturation.** A recompute time that is capped never changes the fetch decision. When a token is no dearer to fetch
  than to recompute, one threshold decides all prefixes up to a length if and only if the transfer of the longest ends
  before the end of the clock or no prefix is fetched at all; when it is no cheaper, if and only if the size of the longest
  is not capped, or it is not fetched, or all are. `Decision.SaturationBreaksThreshold` and
  `Decision.SizeCapBreaksThreshold` show both failures.

## Modelling decisions

* Clocks, durations, sizes and sequence numbers are 64-bit with the program's saturating operations. Counters the program
  increases with a plain `+=` are unbounded; those it increases with saturation saturate.
* Node ids of a cluster are distinct. Looking up a GPU by node id and position finds it.
* `HashMap` iteration order is unspecified, so an LRU victim is any object with the least access time.
* Utilities of tiers are mathematical integers; a failed estimate costs the largest 128-bit value, as in the program.
  There the program's subtraction leaves its 128 bits exactly when the penalty exceeds the recompute time by more than one
  (`NetworkAware.UtilityFits`).
* The compute model, the placement policy and the transfer model of the cache-aware runner are function values; theorems
  hold for all of them unless a condition is named (`Honest`, `Careful`, `Timely`), and the shipped policies and models
  are shown to meet those conditions.
* The decode batch size is part of the compute model and already raised to at least one.
* KV bytes per token are one 64-bit number instead of the product of the four shape fields.

## Model

| member | source | states |
|---|---|---|
| Simulation.PopOvertakes | src/core/simulator.rs:36-40 | After one turn that schedules nothing into the past, everything pending comes after the event just handled in (time, sequence) order, and the clock shows that event's time. |
| Simulation.NumbersStayUnique | src/core/event.rs:63-72 | The sequence counter stays within the number of events handled or pending, so numbers name one event each until it saturates. |
| Simulation.EventQueue.Schedule | src/core/event.rs:63-68 | The new event carries the current counter; the counter grows by one, saturating. |
| Simulation.EventQueue.Pop | src/core/event.rs:70-72 | Takes out an event that none pending precedes in (time, sequence) order; nothing exactly when the queue is empty. |
| Simulation.Simulator.Step | src/core/simulator.rs:36-40 | Pops the earliest event and moves the clock to the later of now and its time. |
| Cluster.FindIdle | src/cluster/topology.rs:50-64 | Finds a GPU exactly when one is idle for the role, and then one with the least release time. |
| Cluster.EarliestGpuFor | src/cluster/topology.rs:23-38 | The scan over nodes returns a GPU that serves the role and can start no later than any other. |
| Cluster.IdleIffEarliestNow | src/cluster/node.rs:43-62 | The two searches agree: an idle worker exists exactly when the earliest start is now. |
| Cluster.FirstIdle | src/cluster/topology.rs:50-64 | Among equally busy idle GPUs the search takes the first one on the first such node. |
| Cluster.FirstEarliest | src/cluster/topology.rs:23-38 | Among GPUs that can start equally early the scan takes the first one on the first such node. |
| Requests.MetricsOfOrdered | src/serving/runner.rs:37-55 | For an ordered result with output, job completion takes at least the time to first token, and first token plus mean gaps fit into it. |
| Requests.MetricsExactly | src/serving/runner.rs:37-55 | For an ordered result, arrival plus time to first token is the first token, arrival plus completion time is the finish, and the mean gap is the whole part of the decode phase over the gaps. |
| Requests.SortedIsUnique | src/serving/runner.rs:84-88 | With distinct keys the sorted arrangement of a trace or of results is unique. |
| NoReuse.NoReuseRunner.RunOne | src/serving/runner.rs:95-126 | One request takes the earliest prefill worker, then the earliest decode worker, and occupies both until its prefill and its decode end. |
| NoReuse.NoReuseRunner.Run | src/serving/runner.rs:84-88 | The loop over the sorted trace returns the closed form, request by request. |
| NoReuse.EarliestWorker | src/serving/runner.rs:128-135 | The first position of the least release time. |
| NoReuse.NoAnomaly | src/serving/runner.rs:95-135 | Earlier arrivals in the same order, shorter prefills and decodes, fewer output tokens and more workers, in any combination, never delay any timestamp of any request. |
| NoReuse.BaselineInOrder | src/serving/runner.rs:95-126 | Every result of the baseline answers its request and runs through its stages in order. |
| StageTimes.BaselineTimes | src/serving/runner.rs:95-126 | In the baseline each prefill takes the time of its whole prompt, the first token comes one decode step of the configured batch at that prompt length after the start, and the finish after one step per output token, capped at the end of the clock. |
| ServingState.Serving.TryAssignPrefill | src/serving/scheduler.rs:187-207 | The loop serves the head of the prefill queue while a GPU is idle, as the specification function does. |
| ServingState.Serving.StartPrefill | src/serving/scheduler.rs:233-267 | Stamps start and end, occupies the GPU until the end, schedules the completion there. |
| ServingState.Serving.StartDecode | src/serving/scheduler.rs:269-303 | Stamps start, first token and finish, occupies the GPU until the finish, schedules the completion there. |
| EventDrivenRunner.Runner.HandleEvent | src/serving/scheduler.rs:95-185 | The three handlers, as mutations of the runner, do exactly what the transition function says. |
| EventDrivenRunner.Runner.Run | src/serving/scheduler.rs:52-78 | On every trace and every addressable cluster the loop ends, meets no event it cannot handle, has nothing pending at its end and returns the results sorted; the run it takes is recorded as a trace. |
| EventDriven.TurnShrinks | src/serving/scheduler.rs:72-75 | A turn always uses up allowance, whatever the state: no trace, repeated id or tie makes the loop run on. |
| EventDriven.TurnKeeps | src/serving/scheduler.rs:95-230 | Every turn keeps, whatever release times the GPUs started with: each request in flight is in exactly one of pending event, prefill queue or decode queue with the timestamps of that stage; for each role some GPU is free or will be when a pending event is due; a queued request implies an event to come; and exactly one of the events still to come is used up. |
| EventDriven.BusyMeansPending | src/serving/scheduler.rs:140-303 | When all GPUs are released by the first arrival, after every event, ties and repeated ids allowed, a GPU that is not free has its own completion pending at exactly its release time. |
| EventDriven.ExactlyOnce | src/serving/scheduler.rs:52-185 | With unique ids and, for each role, one GPU released by the last arrival, ties and other GPUs that stay busy allowed, every run handles at most three events per request, is finished exactly after three per request, and then has one ordered result for each request. |
| EventDriven.LateGpusStrandAll | src/serving/scheduler.rs:87-138 | When every prefill GPU is released after the last arrival, no run ever produces a result. |
| EventDriven.ServedIffReady | src/serving/scheduler.rs:52-138 | Given a decode GPU released by the last arrival, a finished run has one result for each request if and only if some prefill GPU is released by the last arrival. |
| EventDriven.OneEachIffUnique | src/serving/scheduler.rs:52-78 | A finished run has as many results as requests if and only if the ids are unique. |
| EventDriven.EventOrder | src/core/event.rs:30-72 | Over a whole run events come out in strict (time, sequence) order, so simultaneous ones in the order they were scheduled, and the clock shows each event's time. |
| StageTimes.EventDrivenTimes | src/serving/scheduler.rs:233-303 | The same durations in every run of the event-driven runner, on any trace and any cluster, repeated ids, ties and late GPUs included. |
| TieFree.ExclusionAndNoWaste | src/serving/scheduler.rs:140-230 | In a tie-free run, after every event: at most one pending completion per GPU, which is its release time, and no request waits for a role that an idle GPU serves. |
| TieFree.TasksDoNotOverlap | src/serving/scheduler.rs:233-303 | In a tie-free run, once a task on a GPU is under way every other task ever seen on that GPU is over. |
| TieFree.IntervalsDisjoint | src/serving/scheduler.rs:233-303 | In a tie-free run, of any two tasks ever under way on one GPU, each from the start its request's entry records to its own end, one ends before the other starts. |
| Fcfs.PrefillsInArrivalOrder | src/serving/scheduler.rs:120-138 | In a tie-free run, on any cluster, prefills start in arrival order. |
| Fcfs.DecodesInCompletionOrder | src/serving/scheduler.rs:140-230 | In a tie-free run with separate roles, decodes start in the order in which prefills completed. |
| Fcfs.WhoOvertakes | src/serving/scheduler.rs:140-185 | In a tie-free run on any cluster, while others wait for decode, a request whose prefill ends starts its decode at once if and only if the GPU it was prefilled on serves decode too. |
| DrainOrder.DecodeGoesFirst | src/serving/scheduler.rs:169-185 | In a tie-free run on any cluster, when a decode ends on a GPU for both roles while requests wait for both, the longest waiting decode starts there at that moment and the prefill queue stays as it is. |
| DrainOrder.DecodeDoneServesDecode | src/serving/scheduler.rs:169-185 | With ties too: if the GPU whose decode ends is then the only free one, it goes to the head of the decode queue. |
| DrainOrder.PrefillDoneServesPrefill | src/serving/scheduler.rs:140-167 | After a prefill ends and its request is sent on, a GPU for both roles that is then the only free one goes to the head of the prefill queue. |
| DrainOrder.FetchDoneServesDecode | src/serving/cache_runner.rs:481-484 | After a fetch ends and its request is sent on, such a GPU goes to the head of the decode queue. |
| DrainOrder.ArrivalIffIdle | src/serving/scheduler.rs:120-138 | An arrival starts at once if and only if some GPU is idle for it, whoever waits, and otherwise joins the end of the queue. |
| DrainOrder.PrefillDrains | src/serving/scheduler.rs:187-207 | From any state, draining ends with an empty queue or nobody idle, past queued ids that are no longer in flight. |
| DrainOrder.DecodeDrains | src/serving/scheduler.rs:209-230 | The same for the decode queue. |
| Refinement.FoundIsFirst | src/cluster/topology.rs:50-64 | The idle GPU found and the worker the baseline claims have the same release time, as long as both sides release equally many workers at every moment. |
| Refinement.NextPrefillIsNext | src/serving/scheduler.rs:140-185 | In a state that follows a schedule without harmful ties, the prefill completion that comes next is that of the next request in order of prefill ends, queued and future requests included. |
| Refinement.TurnMirrors | src/serving/scheduler.rs:95-303 | Every turn over a schedule without harmful ties keeps the correspondence with the two-stage closed form: started prefills form an initial segment of the trace, started decodes one of the line of prefill ends, with the planned timestamps, and GPUs are released when the plan's workers are. |
| TwoStage.PlanOfValid | src/serving/scheduler.rs:140-185 | The line computed from the trace holds every request once, by end of prefill, and with equal ends the one that started first. |
| TwoStage.SameResultsIffSameStarts | src/serving/runner.rs:84-126 | The two closed forms give the same results if and only if they start every decode at the same moment. |
| TwoStage.InStepSameStarts | src/serving/runner.rs:95-126 | They are the same whenever prefills end in order of arrival. |
| Equivalence.RunnerIsTwoStage | src/serving/scheduler.rs:14-78 | Over a schedule without harmful ties and matching release times, every run of the event-driven runner ends with exactly the results of the two-stage closed form, and is tie-free throughout unless a request arrives as a decode ends. |
| Equivalence.ReportsTwoStage | src/serving/scheduler.rs:52-78 | On a fresh cluster of p prefill and d decode GPUs, for any p and d, a finished run reports the two-stage schedule of the trace when that has no harmful ties. |
| Equivalence.EquivalentIff | src/serving/scheduler.rs:14-78 | There, without harmful ties, the results equal those of the baseline with p and d workers if and only if decode starts in order of arrival and in order of prefill completion coincide. |
| Equivalence.EquivalentWhenClean | src/serving/scheduler.rs:14-78 | In particular they are equal when prefills end in order of arrival. |
| Equivalence.EquivalentWithOnePrefillGpu | src/serving/runner.rs:84-126 | With one prefill GPU and any number of decode GPUs, absence of harmful ties suffices. |
| Counterexamples.TieBreaksExclusionAndEquivalence | src/cluster/gpu.rs:39-41 | A concrete run on one prefill and one decode GPU with an arrival at the end of a prefill: two completions pending on one GPU, and a third request started before the baseline's time. |
| Counterexamples.OvertakingBreaksEquivalence | src/serving/scheduler.rs:14-18 | A concrete run without ties on two prefill GPUs and one decode GPU in which a short request decodes before an earlier long one, unlike in the baseline. |
| Counterexamples.OutOfStepYetEqual | src/serving/scheduler.rs:14-18 | The same two requests with two decode workers: prefills overtake each other, yet both closed forms start both decodes at the same moments. |
| Counterexamples.UnifiedGpuOvertakes | src/serving/scheduler.rs:140-185 | A concrete tie-free run on one GPU for both roles and one for prefill in which a request waits for decode from 11 on and is overtaken at 100 by one prefilled until then. |
| Counterexamples.StaleGpusStrandRequests | src/serving/scheduler.rs:87-93 | A concrete run of one request on two prefill GPUs with later release times: it ends after one event with the request still queued. |
| Cache.InsertAccounted | src/cache/state.rs:107-126 | Inserting under a fresh id keeps usage equal to the stored bytes and within capacity, and charges exactly the new object; a refused insert charges nothing. |
| Cache.RemoveAccounted | src/cache/state.rs:92-104 | Removing keeps the accounts and gives back exactly the object's bytes. |
| Cache.SetCapacityAccounted | src/cache/state.rs:39-42 | A new capacity keeps the accounts in order if and only if it is not below the usage. |
| Cache.ReusedIdBreaksAccounts | src/cache/state.rs:107-126 | Inserting under an id in use keeps the accounts if and only if the replaced object took no bytes. |
| Cache.RelocateRestores | src/cache/state.rs:136-180 | A refused relocation leaves the whole state exactly as it was. |
| Cache.RelocateSucceeds | src/cache/state.rs:136-180 | A relocation succeeds exactly when the new slot has room once the old place is given up; within one slot always. |
| Cache.RelocateMoves | src/cache/state.rs:136-180 | A relocation that succeeds changes place and access time of the one object, moves its bytes from the old slot's account to the new one's, and nothing else. |
| Cache.RelocateAccounted | src/cache/state.rs:136-180 | A relocation keeps the accounts in order, whether it succeeds or not. |
| Cache.InsertIndexed | src/cache/state.rs:107-126 | With a fresh id the index stays sound and finds the new object; it stays complete if and only if the key was new. |
| Cache.RemoveIndexed | src/cache/state.rs:92-104 | Removing keeps the index sound, and complete if it was. |
| Cache.LookupSound | src/cache/state.rs:52-55 | What a lookup finds is a live object of that session and exactly that length. |
| Cache.LookupComplete | src/cache/state.rs:52-55 | In a complete index every object is found under its key. |
| Cache.InsertRemove | src/cache/state.rs:92-126 | Removing what was just inserted gives back objects and usage, and the index if and only if the key was new. |
| Cache.DuplicateKeyHidesBoth | src/cache/state.rs:94-124 | After a second insert under a key in use and the removal of the first object, the second one is stored but not found. |
| Cache.AllocFresh | src/cache/state.rs:45-49 | The allocator hands out unused ids, up to the last one it can name. |
| Cache.HistoryCoherent | src/cache/state.rs:39-180 | Over any history of operations from the empty cache, with fresh ids and capacities that do not shrink below usage, usage is the sum of what is stored and within capacity and the index is sound; with new keys it is complete. |
| CacheStore.CacheState.Insert | src/cache/state.rs:107-126 | The mutating insert does what the specification function says, and changes nothing when it fails. |
| CacheStore.CacheState.Remove | src/cache/state.rs:92-104 | The mutating removal does what the specification function says and returns the object. |
| CacheStore.CacheState.Relocate | src/cache/state.rs:136-180 | The step-by-step relocation with rollback does what the specification function says. |
| CacheStore.CacheState.EvictLru | src/policy/network_aware.rs:147-162 | The loop removes a least recently used object while room is lacking and the slot is not empty, and reports each one removed. |
| Lru.EvictMakesRoom | src/policy/network_aware.rs:147-162 | With the accounts in order, the loop reaches enough room if and only if the slot's capacity suffices; otherwise it empties the slot. |
| Lru.EvictLeastRecent | src/policy/local_gpu_lru.rs:51-70 | Victims come out by ascending access time, none was used after a survivor, other slots keep their objects, and no more go than were there. |
| Lru.LastEvictionNeeded | src/policy/cpu_offload_lru.rs:47-66 | Without the last victim the room would not have sufficed. |
| Lru.ChosenUsage | src/policy/baselines.rs:30-49 | Only the slot's own usage falls, by exactly the bytes of the victims. |
| CacheRecency.HitProtects | src/cache/state.rs:129-133 | After an object is touched, no eviction run removes it while an object of the slot that was used earlier survives. |
| NetworkAware.RankingIsStable | src/policy/network_aware.rs:27-126 | The ranking holds each candidate tier once, by falling utility and between equals in the listed order; the GPU always comes first. |
| NetworkAware.OrderOfTiers | src/policy/network_aware.rs:27-66 | Pair by pair, one tier precedes another if and only if the duration of its own path plus its share of the size (a hundredth, a tenth, all of it) is no larger. |
| NetworkAware.OnePathChanges | src/policy/network_aware.rs:27-66 | Changing the duration of one path never reorders tiers that do not use it, and a longer one never moves its own tier forward. |
| NetworkAware.EqualPathsNearestFirst | src/policy/network_aware.rs:27-66 | At equal transfer times the CPU precedes remote memory and remote memory precedes remote SSD. |
| NetworkAware.UnfetchableLast | src/policy/network_aware.rs:37-54 | A tier whose path has no estimate comes behind every tier whose path has one. |
| NetworkAware.UtilityFits | src/policy/network_aware.rs:37-66 | The utility stays within 128 bits if and only if the path has an estimate or the penalty exceeds the recompute time by at most one. |
| NetworkAware.NetworkAwarePlacement.Place | src/policy/network_aware.rs:96-189 | The loop over the ranked tiers, on any cache: skip what cannot hold the object, make room in the next tier and store there, go on should the room not do. |
| NetworkAware.NetworkAwareContract | src/policy/network_aware.rs:96-189 | With the accounts in order, the call succeeds if and only if some candidate tier has a location and enough capacity, stores in the first such tier of the ranking, on the GPU whenever that can be, evicts there only, and leaves the cache unchanged when it refuses. |
| NetworkAware.WhereItGoes | src/policy/network_aware.rs:68-189 | With capacities and places written out: the call succeeds if and only if one of the four tiers is large enough (the GPU tier only on a node with a GPU); the object goes to such a tier on the target node, on its first GPU if that is the GPU tier, and no tier ranked before it is large enough. |
| CachePolicies.PriceIsFetchPath | src/policy/network_aware.rs:27-94 | The price of a tier is the duration over the path by which the runner fetches from the place where that tier stores, and nothing for the GPU. |
| CachePolicies.PriceIsFetchTime | src/transfer/queued.rs:85-107 | With prices from the queued model a fetch takes exactly that price from its start on, if and only if its end fits the clock or it starts at zero. |
| Placement.RemoteLru.Place | src/policy/baselines.rs:13-64 | Evict in remote memory, then a fallible insert there. |
| Placement.SizeAware.Place | src/policy/baselines.rs:75-137 | The same in the tier the size selects, with GPU number 0. |
| Placement.SizeAwareContract | src/policy/baselines.rs:75-137 | Objects up to the threshold go to the GPU tier, larger ones to the CPU tier, each if and only if that tier is large enough; the other tier is untouched. |
| Placement.EvictAndInsertContract | src/policy/baselines.rs:30-64 | These two succeed if and only if the tier's capacity suffices, and only that tier loses objects. |
| Placement.RefusedEmptiesTier | src/policy/baselines.rs:30-64 | When they refuse, the tier has been emptied and its whole usage is lost without report. |
| Placement.LocalGpuLru.Place | src/policy/local_gpu_lru.rs:16-132 | Evict on the GPU tier, store there if possible, otherwise on the CPU if it has room. |
| Placement.GpuThenCpuContract | src/policy/local_gpu_lru.rs:16-115 | The object goes to the GPU if and only if the node has one and its tier's capacity suffices, otherwise to the CPU if and only if that has room as it is. |
| Placement.FirstGpuIsFirst | src/policy/local_gpu_lru.rs:118-132 | The GPU named in a placement is the one in the node's first position. |
| Placement.GpuThenCpuVictims | src/policy/local_gpu_lru.rs:51-115 | The CPU tier never gives anything up; a GPU tier that is too small is emptied all the same. |
| Placement.CpuOffloadLru.Place | src/policy/cpu_offload_lru.rs:15-168 | Evict on the GPU tier, store there if possible, otherwise evict on the CPU tier and store there. |
| Placement.OffloadContract | src/policy/cpu_offload_lru.rs:15-142 | The call succeeds if and only if one of the two tiers is large enough, and prefers the GPU whenever that can be. |
| Placement.EffectBytes | src/policy/placement.rs:22-34 | For every policy a successful call conserves bytes: stored afterwards plus reported evicted equals stored before plus the new object. |
| Placement.EffectCoherent | src/policy/placement.rs:22-34 | For every policy, under a fresh id, accounts and index stay in order, nothing but the new object is added, and a placed object is found. |
| Transfer.QueuedTransferModel.Estimate | src/transfer/queued.rs:40-83 | The mutating estimate, with the NIC's new release time, is the specification function; an error leaves the NIC alone. |
| Transfer.QueuedVersusAnalytical | src/transfer/queued.rs:40-83 | Queueing never ends a transfer before the analytical model does; the two ends are equal if and only if the NIC is idle or unused, or the clock is exhausted; errors coincide and leave the state unchanged. |
| Transfer.DurationIsStateless | src/transfer/queued.rs:85-107 | The duration of an estimate equals the stateless estimate if and only if its end fits the clock or it starts at zero. |
| Transfer.OwnLink | src/transfer/analytical.rs:54-109 | There is an estimate if and only if the link of its path has bandwidth; it names that link's bandwidth and latency and ends its latency and serialisation after its start. |
| Transfer.BitsOverBandwidth | src/transfer/analytical.rs:101-109 | Serialisation is the bits over the bandwidth in whole nanoseconds, unless the clock runs out. |
| Transfer.OtherLinksDoNotMatter | src/transfer/analytical.rs:54-109 | An estimate does not depend on the links of other paths. |
| Transfer.OnlyRemoteWaits | src/transfer/queued.rs:40-83 | Local transfers start at once and leave the NIC alone; both remote kinds wait for it and hold it for their serialisation, so that each waits for the other. |
| Transfer.CalibratedFirst | src/transfer/table.rs:27-48 | A calibrated path and size takes exactly its latency; anything else is left to the analytical model. |
| Transfer.NicClosedForm | src/transfer/queued.rs:40-83 | After any sequence of calls the NIC is free at the maximum of the initial backlog with all work and, for each remote call, its time with all work from it on, capped at the end of the clock. |
| Transfer.WindowsDisjoint | src/transfer/queued.rs:66-74 | Serialisation windows of remote calls follow call order; an earlier one lies before a later one if and only if its end fits the clock. |
| Transfer.FinishNotBeforeNow | src/transfer/table.rs:27-48 | None of the three models ends a transfer before it is asked for. |
| Decision.FetchIffSaves | src/decision.rs:21-51 | There is a decision exactly when the path has bandwidth, and it is to fetch exactly when that saves time. |
| Decision.VerdictOfReused | src/decision.rs:29-51 | The prefix priced is the one reused, as far as the prompt reaches; the prompt matters in no other way. |
| Decision.CostDifference | src/transfer/analytical.rs:54-109 | Without saturation, fetching costs over recomputing a constant plus one floor of slope times tokens over bandwidth. |
| Decision.BreakEvenCheaper | src/decision.rs:29-51 | When a token is no dearer to fetch than to recompute, the prefixes up to a length that are fetched are those from one threshold on if and only if the transfer of the longest ends or no prefix is fetched, whatever is capped otherwise. |
| Decision.BreakEvenDearer | src/decision.rs:29-51 | When it is no cheaper, they are those below one threshold if and only if the size of the longest is not capped, or it is not fetched, or all are. |
| Decision.BreakEven | src/model/compute.rs:40-45 | Hence one threshold decides every prefix whose size fits and whose transfer ends, whatever the recompute time. |
| Decision.SaturationBreaksThreshold | src/transfer/analytical.rs:101-109 | A concrete case with a capped transfer in which the decision changes twice. |
| Decision.SizeCapBreaksThreshold | src/transfer/analytical.rs:54-109 | A concrete case with a capped size in which a long prefix is fetched and a short one is not, although a token is dearer to fetch. |
| CacheAwareRunner.Runner.OnArrival | src/serving/cache_runner.rs:187-264 | The mutating handler does what the specification function says: hit, fetch or miss. |
| CacheAwareRunner.Runner.HandleFetch | src/serving/cache_runner.rs:266-303 | Waits for the estimated end of the transfer, or counts an error and degrades to a full prefill when there is no estimate or the object is somewhere it cannot be fetched from. |
| CacheAwareRunner.Runner.DegradeToMiss | src/serving/cache_runner.rs:313-348 | Takes the pending fetch back, counts a miss and prefills the whole prompt; of a request no longer in flight only the miss is counted. |
| CacheAwareRunner.Runner.Store | src/serving/cache_runner.rs:405-435 | Allocates an id, calls the policy, and adds up evicted bytes or counts the refusal. |
| CacheAwareRunner.Runner.OnFetchDone | src/serving/cache_runner.rs:462-484 | Credits the hit to its tier once, prefills the rest, drains both queues. |
| CacheAwareRunner.Runner.Run | src/serving/cache_runner.rs:115-138 | On every trace, with every policy and transfer model, the loop ends with nothing pending; the run it takes is recorded. |
| CacheLifecycle.TurnKeeps | src/serving/cache_runner.rs:187-543 | Every turn keeps each request in exactly one place with the timestamps of its stage, each role staffed by a GPU that is free or will be when a pending event is due, and queues live, and uses up at least one of the events still allowed. |
| CacheLifecycle.ExactlyOnce | src/serving/cache_runner.rs:115-543 | With any policy, any outcome of fetches, ties, a cold or warm cache, and for each role one GPU released by the last arrival: at most four events per request, and at the end one ordered result for each. |
| CacheLifecycle.LateGpusStrandAll | src/serving/cache_runner.rs:187-264 | When every prefill GPU is released after the last arrival and no request finds a stored prefix, no run ever produces a result. |
| CacheLifecycle.ServedIffReady | src/serving/cache_runner.rs:115-264 | Given a decode GPU released by the last arrival and no stored prefix to be found at the start, a finished run serves every request exactly once if and only if some prefill GPU is released by the last arrival. |
| CacheTieFree.BusyMeansPending | src/serving/cache_runner.rs:187-543 | When all GPUs are released by the first arrival, after every event, ties allowed, a GPU that is not free has its own completion pending at its release time. |
| CacheTieFree.ExclusionAndNoWaste | src/serving/cache_runner.rs:395-543 | In a tie-free run with fetches, after every event: at most one pending completion per GPU, which is its release time, and no request waits for a role that an idle GPU serves. |
| CacheTieFree.TasksDoNotOverlap | src/serving/cache_runner.rs:395-543 | There too, once a task on a GPU is under way every other task ever seen on that GPU is over. |
| CacheMoves.ArrivalMoves | src/serving/cache_runner.rs:187-303 | An arrival is exactly one of a miss, a hit on the GPU, a fetch that starts or a fetch that fails, with the counters each of them moves; no two of them explain the same step. |
| CacheArrivals.HitIffOnGpu | src/serving/cache_runner.rs:196-207 | An arrival is a hit at once if and only if the lookup finds the tokens that are not new on a GPU. |
| CacheArrivals.FetchIffAway | src/serving/cache_runner.rs:208-303 | It starts a fetch if and only if the prefix is in CPU memory, in remote memory or on remote SSD and the path from there has an estimate; the fetch ends at that estimate and the request carries that tier. |
| CacheArrivals.FailureIffNoEstimate | src/serving/cache_runner.rs:266-348 | It is a failed fetch if and only if the prefix is in one of those places and the path has no estimate. |
| CacheArrivals.MissIffUnusable | src/serving/cache_runner.rs:187-264 | It is a plain miss if and only if nothing is found, or something on local SSD or nowhere. |
| CacheRecency.HitTouches | src/serving/cache_runner.rs:200-207 | After a hit the object found was last used now, and nothing else in the cache has changed. |
| CacheLedger.HitLedger | docs/architecture.md:345-363 | After every event hits are the credited requests, hits, misses and pending fetches make up the arrivals handled, pending fetches are the fetch events and exactly the requests they belong to carry a tier, errors are misses; at the end no fetch is pending and recomputed tokens plus the reused prefixes of credited hits are all prompt tokens. |
| CacheTiers.HitsByTier | src/serving/cache_runner.rs:462-484 | After every event the GPU, CPU and remote hit counters are the numbers of credited requests whose prefix, at their arrival, lay on a GPU, in CPU memory, and in remote memory or on remote SSD; no credited request found it anywhere else. |
| CachePrefills.PrefillDurations | src/serving/cache_runner.rs:241-393 | Each result's prefill took the time of exactly the new tokens if its hit was credited, no time at all if there were none, and of the whole prompt otherwise. |
| StageTimes.CacheAwareTimes | src/serving/scheduler.rs:269-303 | In every run of the cache-aware runner, whatever policy, cache and transfers do, each first token comes one decode step after the decode began and each finish one step per output token after it. |
| CacheHits.HitsWereStored | src/serving/cache_runner.rs:187-238 | From an empty cache every credited hit is on a prefix of the same session and exactly the looked-up length that an earlier prefill stored. |
| CacheHits.BytesConserved | src/serving/cache_runner.rs:405-435 | From an empty cache with a policy that leaves the cache alone when it refuses, bytes placed equal bytes there plus bytes evicted at every moment, up to the end of the eviction counter. |
| CacheRecency.AccessIsLastUse | src/cache/state.rs:107-133 | From an empty cache with any honest policy, at every moment each object's access time is the later of the time it was stored and the time it was last found on the GPU. |
| CachePolicies.NetworkAwareConservesBytes | src/policy/network_aware.rs:128-187 | The network-aware policy is such a policy, so its runs conserve bytes. |
| CachePolicies.OthersAreHonest | src/policy/baselines.rs:13-137 | Whatever the other four policies do to a cache in good order, under a fresh id, is an eviction followed by at most the placement they report, which is what the soundness of hits asks for. |
| CacheOrder.EventOrder | src/core/simulator.rs:31-40 | With a transfer model that never ends a transfer early, the cache-aware runner too handles events in strict (time, sequence) order. |
| CacheOrder.QueueIsTimely | src/transfer/queued.rs:66-83 | The queued model never ends a transfer early. |
| CacheOrder.TableIsTimely | src/transfer/table.rs:27-48 | Neither does the calibration table with its analytical fallback. |
| WithoutReuse.CacheMakesNoDifference | src/serving/cache_runner.rs:240-264 | Without reusable prefixes every run of the cache-aware runner is, state by state, a run of the event-driven runner with the same results, whatever policy, cache and transfer model do. |
| WithoutReuse.BaselineWithoutReuse | src/serving/cache_runner.rs:115-138 | Hence, without harmful ties, it reports the two-stage schedule, and what the baseline reports if and only if the decode starts coincide. |

## Left out

- Equivalence.EquivalentIff: schedules with harmful ties are left open; there the runners may disagree or agree by accident.
- NetworkAware.NetworkAwarePlacement.Place: does not model the overflow of a utility that leaves its 128 bits, see `NetworkAware.UtilityFits`; a checked build stops there.
- Cluster.FindIdle: asks for distinct node ids, as do EarliestGpuFor, IdleIffEarliestNow and the runs; the program would address the first of two nodes with one id.
- CacheAwareRunner.Runner: holds the cache as a value, not as the mutable object of `CacheStore`; updates of the cache in place are proved there.
- CacheAwareRunner.Runner.constructor: takes the cache with its capacities as given; deriving them from memory sizes of the nodes is not modelled.
- Placement policies are called as function values in the runner, so a policy with state of its own besides cache and transfer model is not covered.
- `BinaryHeap` and `HashMap` internals; the queue is a set and maps are maps.
- JSONL traces, synthetic traces, error texts and warnings: input, output and formatting.
- Means, throughput, percentiles and SLO counts: floating point and counting.
- `CacheState::lookup_mut`, `ref_count`, `model_id`, the `FetchPolicy` trait and the stand-alone eviction policies: nothing in the modelled code calls or reads them.
- Preset profiles and link constants, and the decode part of the linear compute model: they add only easy members.
