# Verified model of the inference runtime

The runtime takes inference requests from clients, schedules them, routes each to a worker, and lets the
worker batch requests of one model, make that model resident and call its backend. This project models the
parts of it that decide whether requests are lost, duplicated, starved, mixed up or answered wrongly, and
proves what those parts promise, over all inputs and all interleavings.

How it is laid out:

- `Types`, `RequestLifecycle`: statuses and results; one request, its states, its observers.
- `LlamaContext`, `Greedy`, `LlamaBackend`: the packing loop of the llama backend. The tokenizer, the decoder and the
  sampler are uninterpreted functions; what a decode answers for a sequence depends on the cells of that
  sequence and on nothing else. `Solo` is the reference: one request on its own, token by token;
  `Greedy` says what an answer is without computing it.
- `SchedulerSpec`, `WorkloadAwareScheduler`: what the workload-aware scheduler may do, step by step, and the
  imperative scheduler over per-model deques that does it while requests die at every probe.
- `EvictionPolicy`, `ResidencySpec`, `LruRefinement`, `EvictionOrder`, `ModelManager`: victim orders, one
  `ensure_resident` on values, the recency list it refines, who goes and who stays by their figures, and the
  imperative manager with its resource manager and any backend.
- `Router`: the round-robin router.
- `Protocol`: clients, scheduler, routing thread and workers as one step system. Each lock-held section is a
  step; between any two, any request may be cancelled or time out. `Ownership`, `Places`, `Delivery`,
  `BoundedWork`, `LaneOrder`, `FifoOrder`, `Endings` and `Drain` prove what holds in every run; `Siblings` is one
  run; `SchedulerJoin` shows that each step of the workload-aware scheduler is steps of such a run.
- `Threads`, `Custody`, `Workers`, `Runtime`, `CounterDrift`: the threads as code. Each method is written over the
  shared memory with the other threads running in between (`Shared.Others`), and every state it leaves is the last
  of a run of the step system (`Shared.Valid`), so the results about runs hold for the code. `Shared.own` marks the
  steps the thread took itself. Whether the runtime accepts, and what registry and router answer, are parameters.

A request that a probe finds dead stays dead; one found alive may die before the next statement. That is why
probes are calls that let the other threads run. Clocks and deadlines appear as such deaths. Iteration over a
hash map is a choice of any remaining key. Loops that wait for other threads are bounded by an arbitrary
number, since a call that never returns promises nothing.

Where the code and its documentation differ, the code is followed: `docs/architecture.md:19` says that the
push to a lane waits, while `src/runtime.cpp:245` rejects the request when the lane is full. Some obvious
claims are false of the code, and the model says what is true instead:

- The workload-aware scheduler answers with nothing once all it holds has died, even while open, and the
  routing thread ends (`StrandsIffEndedOpen`, `WorkloadAwareMayNotDrain`).
- The counter of queued requests drifts in three windows; `Workers.Worker.Counted` is the exact law, with `late`,
  `doubled`, `raced` and `skipped` counting what happened there. `RunLoop` states when the counter is exact, and
  `CounterFallsBehind`, `CounterStaysAhead` and `CounterMissesDiscard` are executions that break it.
- An output limit of zero is not kept (`ZeroLimitCanYieldOneToken`); a limit is kept on every model if and only if
  it is at least one (`LimitAlwaysKeptIff`); `LimitKeptIff` says when one model keeps it.
- Members of a batch are not isolated: the start of a batch fails as a whole if and only if a member has ended
  since its probe (`StartFailsIffDead`, `StartAll`), and `CancelFailsSibling` is such a run.

## Model

| member | source | states |
|---|---|---|
| `LlamaContext.Validate` | src/llama/llama_cpp_backend_config.cpp:5-43 | a valid configuration has at least one sequence, and every model's buffer has room for one row per sequence |
| `LlamaContext.GeneratedWithinLimit` | src/llama/llama_cpp_backend.cpp:388-421 | greedy generation never exceeds an output limit of at least one, and only appends to the text |
| `LlamaContext.SoloWithinLimit` | src/llama/llama_cpp_backend.cpp:388-421 | a request alone keeps its limit, or yields at most one token when the limit is zero; it has output exactly when it is ok |
| `LlamaContext.GenerateOkIffOutput` | src/llama/llama_cpp_backend.cpp:400-421 | a generation is ok if and only if it carries output, so no slot is left as it was initialised |
| `LlamaContext.ZeroLimitCanYieldOneToken` | src/llama/llama_cpp_backend.cpp:415-421 | for every request with limit zero some model answers it with one token |
| `LlamaContext.ZeroLimitYields` | src/llama/llama_cpp_backend.cpp:396-421 | with limit zero one token comes out if and only if the request is admitted, its first sample does not end the generation and has a piece; otherwise none |
| `LlamaContext.LimitKeptIff` | src/llama/llama_cpp_backend.cpp:396-421 | one request on one model keeps its limit if and only if the limit is at least one or no first token comes |
| `LlamaContext.LimitAlwaysKeptIff` | src/llama/llama_cpp_backend.cpp:388-421 | a request keeps its limit on every model and configuration if and only if the limit is at least one |
| `Greedy.GenerateAnswers` | src/llama/llama_cpp_backend.cpp:388-421 | from any tokens already chosen, the generation ends with a list of tokens each of which is the sample after the prompt and those before it, with their pieces end to end as text |
| `Greedy.SoloIsRight` | src/llama/llama_cpp_backend.cpp:289-421 | a request alone is refused with its own code, or answered: the text is the pieces of all its tokens, their number is reported, and it ends at the limit or where the next sample ends the generation; it fails exactly when the next sample has no piece |
| `Greedy.AnswerIsUnique` | src/llama/llama_cpp_backend.cpp:388-421 | there is only one such list of tokens, and one result |
| `Greedy.RightIsUnique` | src/llama/llama_cpp_backend.cpp:289-421 | so a request on a model has one right result |
| `LlamaContext.FeedIsProject` | src/llama/llama_cpp_backend.cpp:35-44 | a buffer leaves each sequence with its old cells followed by its own rows, whatever rows of others lie between |
| `LlamaContext.SoleRow` | src/llama/llama_cpp_backend.cpp:367-385 | when a sequence has one row in the buffer, that row sees the whole history of the sequence and its own token |
| `LlamaContext.Batch.Clear` | src/llama/llama_cpp_backend.cpp:31-33 | empties the buffer in place |
| `LlamaContext.Batch.Add` | src/llama/llama_cpp_backend.cpp:35-44 | appends one row in place, within the capacity of the buffer |
| `LlamaContext.Context.ClearMemory` | src/llama/llama_cpp_backend.cpp:109-117 | forgets every sequence |
| `LlamaContext.Context.Decode` | src/llama/llama_cpp_backend.cpp:361-364 | logs the call; a success feeds the rows and gives each row that asks for logits what its own sequence had up to it |
| `LlamaBackend.Refusal` | src/llama/llama_cpp_backend.cpp:289-315 | a refused request gets what it would get alone; an admitted one fits the context and would alone generate from its prompt |
| `LlamaBackend.Admit` | src/llama/llama_cpp_backend.cpp:278-318 | every slot is answered as alone or belongs to exactly one opened sequence; sequences are numbered in request order |
| `LlamaBackend.PackSequence` | src/llama/llama_cpp_backend.cpp:348-356 | hands over prompt tokens in order, none twice, all but the last, until the buffer is full |
| `LlamaBackend.PackPrefix` | src/llama/llama_cpp_backend.cpp:342-357 | one pass over the sequences either fills the buffer or leaves only last prompt tokens |
| `LlamaBackend.PrefixRound` | src/llama/llama_cpp_backend.cpp:341-365 | a round that is not the last submits at least one prompt token |
| `LlamaBackend.PrefixStage` | src/llama/llama_cpp_backend.cpp:339-365 | terminates with every sequence at its last prompt token, whatever the chunk boundaries, or with the first failed decode |
| `LlamaBackend.Submit` | src/llama/llama_cpp_backend.cpp:361-364 | the log stays within the buffer size and the context size, and sends each sequence its tokens from position 0 upwards |
| `LlamaBackend.SubmitAligned` | src/llama/llama_cpp_backend.cpp:379-385 | after a decode each running sequence points at logits computed from its own tokens and no others |
| `LlamaBackend.Bootstrap` | src/llama/llama_cpp_backend.cpp:367-378 | adds each sequence's last prompt token, one row per sequence, with its own logits index |
| `LlamaBackend.SampleOnTrack` | src/llama/llama_cpp_backend.cpp:396-426 | a sample from one's own logits leads to the answer of the request alone, or finishes with it |
| `LlamaBackend.SampleOne` | src/llama/llama_cpp_backend.cpp:392-427 | one sequence of a round finishes with its own answer or queues its next token |
| `LlamaBackend.SampleRound` | src/llama/llama_cpp_backend.cpp:388-427 | a round advances every running sequence by one token and keeps all of them on the way to their own answers |
| `LlamaBackend.FailLive` | src/llama/llama_cpp_backend.cpp:329-337 | a failed decode fails the sequences still running and leaves finished answers alone |
| `LlamaBackend.GenerationLoop` | src/llama/llama_cpp_backend.cpp:388-437 | terminates with every slot answered as alone, or with a failed decode |
| `LlamaBackend.BootAndGenerate` | src/llama/llama_cpp_backend.cpp:367-446 | from fully prefilled sequences to answers |
| `LlamaBackend.Decoding` | src/llama/llama_cpp_backend.cpp:320-446 | the three stages together answer every slot, and log no decode beyond the limits |
| `LlamaBackend.PromptsCarried` | src/llama/llama_cpp_backend.cpp:339-377 | each admitted request owns one sequence, which begins with its whole prompt |
| `LlamaBackend.LlamaCppBackend.InferBatch` | src/llama/llama_cpp_backend.cpp:195-447 | batch transparency: if no decode fails, result i is exactly what request i gives alone, and it is right by the sampled tokens themselves (`Greedy.Right`); otherwise it is that or a failure; every decode is within the buffer, every position below the context size, each prompt token sent once and in order; a batch fails as a whole if and only if it mixes models, is too large or its model is not loaded |
| `LlamaBackend.LlamaCppBackend.Infer` | src/llama/llama_cpp_backend.cpp:491-499 | a single request yields the right result, or a failure when a decode fails or the model is not loaded |
| `SchedulerSpec.ChoiceIsUnique` | src/workload_aware_scheduler.cpp:103-161 | the oldest starved entry, else the oldest of the largest live group with ties to the older, is one entry, so hash-map order cannot matter |
| `SchedulerSpec.PrunedThenDispatch` | src/workload_aware_scheduler.cpp:88-92 | pruning before a dispatch is part of the dispatch |
| `SchedulerSpec.PrunedInv` | src/workload_aware_scheduler.cpp:35-54 | pruning keeps the starvation accounting |
| `SchedulerSpec.EnqueueInv` | src/workload_aware_scheduler.cpp:56-76 | an enqueue keeps it |
| `SchedulerSpec.DispatchPaysOlder` | src/workload_aware_scheduler.cpp:163-207 | each dispatch that passes over a starved entry costs it one of the entries older than itself |
| `SchedulerSpec.DispatchInv` | src/workload_aware_scheduler.cpp:88-210 | a dispatch keeps the accounting, whoever dies during the select |
| `SchedulerSpec.NextInv` | src/workload_aware_scheduler.cpp:56-210 | so does every step |
| `SchedulerSpec.RunInv` | src/workload_aware_scheduler.cpp:56-210 | so does every run |
| `SchedulerSpec.LeavesByDispatch` | src/workload_aware_scheduler.cpp:88-210 | an entry that leaves the queue and is alive was dispatched |
| `SchedulerSpec.BypassBound` | src/workload_aware_scheduler.cpp:56-210 | in every run a live entry's bypass count equals the dispatches since its enqueue and is at most max_bypass + capacity - 1 |
| `SchedulerSpec.DispatchedInTime` | src/workload_aware_scheduler.cpp:56-210 | a request that stays alive is among the first max_bypass + capacity dispatches after its enqueue |
| `SchedulerSpec.PerModelFifo` | src/workload_aware_scheduler.cpp:94-187 | requests of one model are dispatched in enqueue order, under any deaths |
| `SchedulerSpec.PromotionIsOldest` | src/workload_aware_scheduler.cpp:107-120 | a promotion takes the globally oldest live entry |
| `SchedulerSpec.PromotionIsNotReordering` | src/workload_aware_scheduler.cpp:193-198 | hence it is never also counted as reordered |
| `WorkloadAwareScheduler.WorkloadAwareScheduler.Enqueue` | src/workload_aware_scheduler.cpp:56-76 | closed, full or an enqueue step of the specification; a refusal changes nothing |
| `WorkloadAwareScheduler.WorkloadAwareScheduler.PruneQueue` | src/workload_aware_scheduler.cpp:37-47 | one deque loses only entries that are dead, in place |
| `WorkloadAwareScheduler.WorkloadAwareScheduler.Prune` | src/workload_aware_scheduler.cpp:35-54 | only dead entries leave, size stays the number of entries, no entry that was dead at the start remains |
| `WorkloadAwareScheduler.WorkloadAwareScheduler.OldestFront` | src/workload_aware_scheduler.cpp:94-101 | a queued entry; when nothing is dead, the globally oldest one |
| `WorkloadAwareScheduler.WorkloadAwareScheduler.OldestStarved` | src/workload_aware_scheduler.cpp:107-120 | the oldest starved entry found alive, with its place |
| `WorkloadAwareScheduler.WorkloadAwareScheduler.CountLive` | src/workload_aware_scheduler.cpp:131-139 | the number of entries found alive, each at its own probe, and the oldest of these; zero only if the whole deque is dead; when nothing is dead, its length and its front |
| `WorkloadAwareScheduler.WorkloadAwareScheduler.VisitGroup` | src/workload_aware_scheduler.cpp:127-155 | the best so far stays the best of the deques visited |
| `WorkloadAwareScheduler.WorkloadAwareScheduler.LargestGroup` | src/workload_aware_scheduler.cpp:122-156 | under any deaths, a model of which the most entries were found alive, with ties to the older of those, in whatever order the map is walked; no model exactly when none was found alive; when nothing is dead, a largest group |
| `WorkloadAwareScheduler.WorkloadAwareScheduler.Choose` | src/workload_aware_scheduler.cpp:103-161 | an entry that was chosen among those alive at the start of the scans, or all are dead |
| `WorkloadAwareScheduler.WorkloadAwareScheduler.SkipDead` | src/workload_aware_scheduler.cpp:168-174 | erases dead entries at the chosen index and nothing else |
| `WorkloadAwareScheduler.WorkloadAwareScheduler.BumpAll` | src/workload_aware_scheduler.cpp:200-207 | every live entry left is passed over once more |
| `WorkloadAwareScheduler.WorkloadAwareScheduler.TakeReached` | src/workload_aware_scheduler.cpp:182-209 | takes the entry out and dispatches it with its metrics, or prunes it when it has died |
| `WorkloadAwareScheduler.WorkloadAwareScheduler.TakeChoice` | src/workload_aware_scheduler.cpp:163-209 | the entry at the chosen place is dispatched, or the queue has shrunk by dead entries |
| `WorkloadAwareScheduler.WorkloadAwareScheduler.Attempt` | src/workload_aware_scheduler.cpp:88-210 | one pass ends empty, dispatches, or shrinks the queue and asks for another pass |
| `WorkloadAwareScheduler.WorkloadAwareScheduler.Select` | src/workload_aware_scheduler.cpp:88-210 | the recursion terminates and amounts to one dispatch step of the specification, or everything queued was dead |
| `WorkloadAwareScheduler.WorkloadAwareScheduler.Next` | src/workload_aware_scheduler.cpp:78-86 | a call is a dispatch step or comes back empty with nothing left; the accounting holds after it |
| `WorkloadAwareScheduler.DispatchMade` | src/workload_aware_scheduler.cpp:88-210 | what one pass did, death by death, is a dispatch step; with no death during it, exactly the choice |
| `WorkloadAwareScheduler.ChosenGroup` | src/workload_aware_scheduler.cpp:122-156 | the front of the largest deque is the choice of the specification |
| `EvictionPolicy.BeforeTotal` | src/eviction_policy.cpp:10-38 | either comparator decides between any two candidates of different models |
| `EvictionPolicy.BeforeTransitive` | src/eviction_policy.cpp:10-38 | and is transitive |
| `EvictionPolicy.OrderVictims` | src/eviction_policy.cpp:7-40 | a sorted permutation of the candidates |
| `EvictionPolicy.CostAwareOrder` | src/eviction_policy.cpp:20-40 | in the cost-aware victim order load costs do not fall, at equal cost use counts do not fall, at equal count sizes do not rise, at equal size stamps do not fall, and the last tie goes to the smaller id |
| `EvictionPolicy.LruOrder` | src/eviction_policy.cpp:7-18 | in the other stamps do not fall, and ties go to the smaller id |
| `EvictionPolicy.SortedIsUnique` | src/eviction_policy.cpp:7-40 | there is only one, so any sorting algorithm gives it |
| `ResidencySpec.VictimOrderIsUnique` | src/model_manager.cpp:101-127 | the victim order depends on the resident models only, not on the order the map lists them |
| `ResidencySpec.UnloadFront` | src/model_manager.cpp:127-133 | after the first victim is unloaded, sorting again gives the rest of the old order |
| `ResidencySpec.HeldIsResident` | src/model_manager.cpp:66-139 | between calls the memory held is the sum over the resident models |
| `LruRefinement.RecencyIsVictimOrder` | src/eviction_policy.cpp:7-18 | under LRU the recency list is the victim order |
| `LruRefinement.EvictDropsFront` | src/model_manager.cpp:99-139 | evicting victims drops models from the front of the list |
| `LruRefinement.HitStep` | src/model_manager.cpp:144-152 | a hit moves the model to the end |
| `LruRefinement.MissStep` | src/model_manager.cpp:156-204 | a miss drops from the front until the model fits, then appends it if its load succeeds |
| `LruRefinement.LruStep` | src/model_manager.cpp:141-204 | every call on the store is one step of the recency list, with the same status |
| `LruRefinement.LruRun` | src/model_manager.cpp:99-204 | every run of calls, with arbitrary load and unload failures, is a run of the recency list |
| `LruRefinement.EvictConserves` | src/model_manager.cpp:99-139 | evictions free exactly the victims' bytes |
| `LruRefinement.StepConserves` | src/model_manager.cpp:141-204 | a call keeps memory within the budget and stamps within the counter, whatever the backend does, for either policy |
| `LruRefinement.RunConserves` | src/model_manager.cpp:66-204 | so does every run |
| `EvictionOrder.EvictedGoFirst` | src/model_manager.cpp:99-139 | no model left resident has figures that would have put it before one that a call evicted: under the cost-aware policy, no smaller load cost |
| `EvictionOrder.UsesOnlyIt` | src/model_manager.cpp:144-204 | a hit or a successful load adds one to the use count of that model and gives it the newest stamp; nothing else is used or stamped |
| `ModelManager.ResourceManager.Reserve` | src/resource_manager.cpp:22-34 | reserves exactly when it fits, and never exceeds the budget |
| `ModelManager.ResourceManager.Release` | src/resource_manager.cpp:36-43 | releases exactly when that much is used |
| `ModelManager.Backend.Load` | include/airuntime/backend.hpp:17-17 | any backend: a success loads the model, a failure changes nothing |
| `ModelManager.Backend.Unload` | include/airuntime/backend.hpp:18-18 | a success unloads the model, a failure changes nothing |
| `ModelManager.ModelManager.BeginEviction` | src/model_manager.cpp:67-74 | only a resident model becomes Evicting; the account is in order while the backend works |
| `ModelManager.ModelManager.FinishEviction` | src/model_manager.cpp:78-96 | the bytes are released with the unload, never too many; a failed unload restores the entry |
| `ModelManager.ModelManager.EvictOne` | src/model_manager.cpp:66-97 | one victim is unloaded, or nothing has changed and the backend failed |
| `ModelManager.ModelManager.CollectCandidates` | src/model_manager.cpp:101-121 | lists every resident model once |
| `ModelManager.ModelManager.FreeMemoryFor` | src/model_manager.cpp:99-139 | the victims are the shortest prefix of the victim order at the start that makes room, although each round sorts again; it fails only with the backend |
| `ModelManager.ModelManager.FinishLoad` | src/model_manager.cpp:187-203 | a loaded model gets the newest stamp; a failed load gives its memory back |
| `ModelManager.ModelManager.LoadInto` | src/model_manager.cpp:172-204 | reserve, load and settle, with the account in order throughout |
| `ModelManager.ModelManager.Touch` | src/model_manager.cpp:147-151 | a hit changes the stamp, the use count and the hit metric only |
| `ModelManager.ModelManager.EnsureResident` | src/model_manager.cpp:141-204 | one step of the specification; used memory is the sum over Resident, Loading and Evicting entries and within the budget; the backend has exactly the resident models; a registered model that could fit is refused if and only if a backend call fails; no model kept should have gone before one evicted, by load cost, use count, size, stamp and id; the use count of its model alone grows, by one, on success; loads, unloads, reloads, hits and misses balance |
| `RequestLifecycle.ApplyInv` | src/request.cpp:83-280 | every operation keeps the account of notices |
| `RequestLifecycle.RunInv` | src/request.cpp:83-280 | so does every sequence of operations |
| `RequestLifecycle.ExactlyOnceTerminalNotice` | src/request.cpp:83-108 | once terminal, every registered observer has exactly one terminal notice, with the final state and result |
| `RequestLifecycle.NoEarlyTerminalNotice` | src/request.cpp:149-175 | before that it has none |
| `RequestLifecycle.FirstTerminalWins` | src/request.cpp:140-280 | no later operation changes the first terminal state or its result |
| `RequestLifecycle.RankMonotone` | src/request.cpp:116-138 | a request never goes back |
| `RequestLifecycle.ClaimedOnce` | src/request.cpp:116-147 | after one successful claim the request is never Received again, so no second claim succeeds |
| `RequestLifecycle.OneCall` | src/request.cpp:116-280 | each call ends a request in its own state with its own error, from exactly the states that allow it, moves it on to the queue or to running, or leaves it because it can do neither |
| `RequestLifecycle.NoResultYet` | src/request.cpp:140-280 | a request has no result before it ends |
| `RequestLifecycle.EndedByOneCall` | src/request.cpp:140-280 | after any sequence of calls, an ended request was ended by one of them and has the state and the result of that one |
| `RequestLifecycle.CanEndWillEnd` | src/request.cpp:186-280 | and a call that can end it does |
| `RequestLifecycle.InferenceRequest.Transition` | src/request.cpp:177-184 | the locked transition is the abstract one, in place |
| `RequestLifecycle.InferenceRequest.TrySettle` | src/request.cpp:186-280 | the try operations win exactly when the transition is allowed |
| `RequestLifecycle.InferenceRequest.Register` | src/request.cpp:83-108 | a late observer gets the terminal snapshot at once |
| `Router.RotaOnce` | src/router.cpp:24-31 | the round of a cursor holds each feasible worker once |
| `Router.PickTurnsRota` | src/router.cpp:12-35 | a pick is the head of the round and moves it to the end |
| `Router.SelectionsFollowRota` | src/router.cpp:12-35 | consecutive picks spell out the round |
| `Router.RoundRobinFair` | src/router.cpp:8-35 | any k consecutive selections, with k feasible workers and from any cursor, return each feasible worker exactly once |
| `Router.RoundRobinRouter.Select` | src/router.cpp:8-35 | the first worker at or after the cursor, cyclically, that is accepting and has a budget for the model; a failure exactly when there is none |
| `Ownership.KeptCounts` | src/worker.cpp:180-190 | a filter drops only dead requests and duplicates none |
| `Ownership.ActBalanced` | src/worker.cpp:192-391 | a worker's step lets go of a request only if it is dead |
| `Ownership.StepBalanced` | src/runtime.cpp:55-261 | any step moves a request between places; it drops only dead ones and takes in only what it claims |
| `Ownership.StateStep` | src/request.cpp:116-147 | a request changes state only by its claim, by being started by the worker that holds it, or by ending |
| `Ownership.DeathIsFinal` | src/request.cpp:116-147 | no step changes a terminal request |
| `Ownership.OwnershipKept` | src/admission_controller.cpp:19-24 | at most one place, and while neither unclaimed nor terminal exactly one, is kept by every step |
| `Places.CalmUnlessStarted` | src/request.cpp:116-147 | a step of one thread does not disturb what another knows of its requests |
| `Places.StartOk` | src/worker.cpp:302-310 | starting a request keeps started and unstarted members of the batch apart |
| `Places.SettleOk` | src/worker.cpp:366-381 | whoever has been settled is terminal |
| `Places.SystemInvKept` | src/runtime.cpp:55-261 | ownership and each thread's knowledge are kept by every step |
| `Places.SingleOwnership` | src/runtime.cpp:215-261 | in every state of every run, with duplicate submits, cancels and timeouts, a request is in at most one of admission, scheduler, routing hand, one lane, deferred slot or batch, and in exactly one while queued or running |
| `Places.FirstTerminalStays` | src/request.cpp:140-280 | in every run the first terminal state and result of a request stay |
| `Places.ClaimedInRun` | src/admission_controller.cpp:19-22 | whoever is queued or running was claimed by a submission |
| `Delivery.SpentNowhere` | src/worker.cpp:346-354 | once a batch is with the backend no place could send a member there again |
| `Delivery.OnceInRun` | src/worker.cpp:192-251 | in every run a request was inferred at most once, and if so waits nowhere |
| `Delivery.InferredAtMostOnce` | src/worker.cpp:346-354 | no request occurs twice in the calls of infer_batch of a run |
| `Delivery.CompletedByAct` | src/worker.cpp:366-381 | a worker completes a request only with the result of its own index |
| `Delivery.CompletedHoldsOwnResult` | src/worker.cpp:356-381 | in every run a completed request holds the result of its own index in a call of matching size that carried it |
| `BoundedWork.KeptFits` | src/worker.cpp:180-190 | a filter keeps a batch within size and of one model |
| `BoundedWork.FitsInRun` | src/batch_builder.cpp:42-82 | in every run each worker keeps its own limits: batches have 1 to its max_batch_size members of one model, a deferred request leaves room beside the batch, its lane its queue_capacity; the scheduler keeps its capacity, and an ended worker holds nothing |
| `BoundedWork.WorkHeldIsBounded` | include/airuntime/bounded_queue.hpp:27-38 | scheduler, hand and workers together hold at most scheduler_capacity + 1 + the sum over the workers of their own queue_capacity + max_batch_size |
| `LaneOrder.ActConserves` | src/worker.cpp:192-251 | a worker's step keeps arrivals equal to decided, undecided and lane, in this order |
| `LaneOrder.InOrderKept` | src/worker.cpp:192-251 | so does every step of any thread |
| `LaneOrder.LaneOrderConserved` | src/batch_builder.cpp:42-82 | in every run the formed batches end to end, then the deferred request, then the lane, spell out the arrival order without requests that were dead when dropped; each batch is of one model and within this worker's own batch size |
| `FifoOrder.FifoConserves` | src/scheduler.cpp:28-38 | in every run of the first-in-first-out scheduler what it has handed out, then what it holds, is what it accepted, in order |
| `FifoOrder.RoutedInOrder` | src/runtime.cpp:253-261 | in every run the arrivals of a lane keep the order in which the scheduler handed them out |
| `FifoOrder.FirstInFirstOut` | src/runtime.cpp:215-261 | with the first-in-first-out scheduler the batches of a worker, end to end, keep the order of acceptance, in every run and through deferrals and deaths |
| `Endings.StartFailsIffDead` | src/worker.cpp:302-310 | starting the next member fails the whole batch if and only if that member has ended |
| `Endings.StartFailsIffMetDead` | src/worker.cpp:302-310 | the same for every start in every run |
| `Endings.HeldUntouched` | src/worker.cpp:253-391 | only its own worker and its client change a request in a batch |
| `Endings.OnCourseKept` | src/worker.cpp:273-287 | each step keeps a member on its way to the end the batch owes it |
| `Endings.EndsAsOwed` | src/worker.cpp:366-381 | in every run, once a batch is settled or failed, a live member its client does not end takes the outcome of its own result, or the error that failed the batch, or its turn is still to come |
| `Endings.EndedAsOwed` | src/worker.cpp:273-287 | once the worker has let go of the batch, it has ended so |
| `Endings.BatchFailsTogether` | src/worker.cpp:273-287 | from a failing batch every member that is alive and that its client does not end finishes Failed with the batch's error |
| `Endings.AnsweredInRun` | src/worker.cpp:356-381 | in every run, a request that a call answered at its place and that its client leaves alone is, once its worker has let go, Completed with that result if it is ok, and otherwise Failed with its status |
| `Endings.StaysAlive` | src/worker.cpp:301-338 | until the worker settles or fails its batch, a member its client does not end stays alive and in its hands |
| `Siblings.CancelFailsSibling` | src/worker.cpp:302-310 | a concrete run: of two batch members the second is cancelled between its probe and its start, and the first, untouched by its client, ends Failed without any backend call |
| `Drain.AcceptedInRun` | src/admission_controller.cpp:19-24 | an accepted request has left admission for good |
| `Drain.RoutingInRun` | src/runtime.cpp:253-261 | an ended routing thread holds nothing, and with the first-in-first-out scheduler has left nothing scheduled |
| `Drain.LeftIsScheduled` | src/worker.cpp:192-251 | after a stop, an accepted request that has not ended can only be in the scheduler |
| `Drain.FifoDrains` | src/runtime.cpp:76-101 | with the first-in-first-out scheduler every request ever accepted is terminal when stop has returned |
| `Drain.ClosedEndDrains` | src/runtime.cpp:76-101 | with either scheduler this holds if the routing thread ended on a closed scheduler |
| `Drain.StrandedStays` | src/runtime.cpp:253-261 | a request accepted after the routing thread has ended is never run and never ends unless its client ends it |
| `Drain.OpenEndStrands` | src/workload_aware_scheduler.cpp:80-84 | from any run that ended routing on an open scheduler, one more submission is stranded |
| `Drain.StrandsIffEndedOpen` | src/workload_aware_scheduler.cpp:78-86 | a request can be stranded after the routing thread has ended if and only if it ended while the scheduler was open |
| `Drain.FifoNeverStrands` | src/scheduler.cpp:28-38 | the first-in-first-out scheduler strands nothing |
| `Drain.WorkloadAwareMayNotDrain` | src/workload_aware_scheduler.cpp:80-84 | a concrete run to the end of stop that leaves an accepted request queued |
| `SchedulerJoin.DeathsJoin` | src/workload_aware_scheduler.cpp:12-21 | deaths seen by the scheduler are deaths in the run |
| `SchedulerJoin.PruneTo` | src/workload_aware_scheduler.cpp:35-54 | pruning the scheduler's queue is a series of prune steps of the run |
| `SchedulerJoin.DispatchJoins` | src/workload_aware_scheduler.cpp:88-210 | every dispatch of the workload-aware scheduler, with the deaths during it, is deaths, prunings and the take of exactly the chosen entry in the step system; the two queues agree before and after |
| `SchedulerJoin.EmptyJoins` | src/workload_aware_scheduler.cpp:78-86 | an empty answer is deaths and the end of the routing thread, by giving up or on a closed and empty scheduler |
| `SchedulerJoin.EnqueueJoins` | src/workload_aware_scheduler.cpp:56-76 | an enqueue is an acceptance, at the end of the queue |
| `Threads.LaterInRun` | src/request.cpp:116-147 | along a run, ended requests stay as they ended and begun ones do not wait again |
| `Custody.WhyNotReceived` | src/admission_controller.cpp:9-22 | a request leaves Received only by a claim or by its client |
| `Custody.HandLeftAlone` | src/runtime.cpp:215-251 | while the other threads run, a request in hand stays as it is unless its client ends it |
| `Workers.Worker.Interfere` | src/worker.cpp:75-90 | pushes by the routing thread extend the lane; each is counted in a later step, before the next push |
| `Workers.Worker.Discard` | src/worker.cpp:173-178 | one off the counter unless it is zero |
| `Workers.Worker.PopOnce` | src/worker.cpp:215-224 | a request popped from the front of the lane is held, or discarded if dead |
| `Workers.Worker.PopUntil` | src/worker.cpp:214-225 | ends with a request in hand, or with an empty lane |
| `Workers.Worker.DeferDead` | src/batch_builder.cpp:70-73 | a request that died since it was popped is counted off and still deferred |
| `Workers.Worker.Extend` | src/batch_builder.cpp:64-79 | the batch grows by the next request of its model, or ends there with another deferred |
| `Workers.Worker.Form` | src/batch_builder.cpp:42-82 | a batch of one model, within size, that starts with the first request; below that size only if the lane was empty or another request is deferred |
| `Workers.Worker.FilterLive` | src/worker.cpp:180-190 | keeps the order, drops only requests that are dead, and keeps none that was dead at the call |
| `Workers.Worker.StartNext` | src/worker.cpp:302-310 | the next member is started or skipped as dead; the whole batch fails if and only if it died between its probe and its start |
| `Workers.Worker.StartAll` | src/worker.cpp:302-310 | the batch is started to the last member, or fails if and only if some member died between its probe and its start |
| `Workers.Worker.FailAll` | src/worker.cpp:273-287 | every member is terminal, one that its client left alone Failed with the error of the batch; the worker is idle with active count 0 |
| `Workers.Worker.SettleAll` | src/worker.cpp:366-381 | every member is terminal; one that its client left alone is Completed with the result of its own index if that is ok, and otherwise Failed with its status and no output |
| `Workers.Worker.InferAndSettle` | src/worker.cpp:340-383 | whatever the backend returns or throws, every member is terminal and the worker idle; a member left alone ends by the result of its own index, or with an internal error if the results are not as many or the backend threw |
| `Workers.Worker.LoadAndInfer` | src/worker.cpp:318-383 | the same from the load on; if the model does not become resident, a member left alone fails with that status |
| `Workers.Worker.RunBatch` | src/worker.cpp:301-390 | the same from the start of the batch on; members left alone fail with an invalid transition if and only if a start met a dead member |
| `Workers.Worker.EnterStarting` | src/worker.cpp:253-265 | the second filter: the worker is busy with those left, and those dropped stay on the counter |
| `Workers.Worker.ExecuteBatch` | src/worker.cpp:253-391 | for any answer of manager and backend and any concurrent deaths every member is terminal on return, the worker idle with active count 0, and the counter law holds; a completed one holds the result of its own index; one left alone ends exactly as start, load and the logged call decide: Completed with its own ok result, or Failed with the status of that result, of the load, or of the fault; nobody who was dead at the call is sent to the backend |
| `Workers.Worker.TakeFirstRequest` | src/worker.cpp:192-204 | the deferred request is held, or else the head of a lane that is not empty; the thread ends only with nothing left and the lane closed |
| `Workers.Worker.FilterFormed` | src/worker.cpp:239-245 | the first filter, with its subtraction |
| `Workers.Worker.Iterate` | src/worker.cpp:192-251 | one pass returns to an idle worker with the counter law intact, or ends with lane and deferred slot empty; the request that waited first, deferred or at the head of the lane, has ended by then |
| `Workers.Worker.RunLoop` | src/worker.cpp:192-251 | any number of passes; the counter equals lane plus deferred if and only if what was never taken off balances what was taken off twice or is not counted yet |
| `CounterDrift.CounterFallsBehind` | src/worker.cpp:215-233 | an execution after which the counter of queued requests is one too low |
| `CounterDrift.CounterStaysAhead` | src/worker.cpp:239-265 | an execution in which a member dies between the two filters and stays on the counter |
| `CounterDrift.CounterMissesDiscard` | src/worker.cpp:75-90 | an execution in which a request is discarded before its push is counted and stays on the counter |
| `Workers.Worker.InArrivalOrder` | src/worker.cpp:192-251 | the code keeps the lane order |
| `Workers.Worker.RecordBatch` | src/worker.cpp:289-299 | each executed batch adds one batch, its members, one multi-request batch if larger than one, and raises the largest size |
| `Runtime.Runtime.ClaimRequest` | src/admission_controller.cpp:19-22 | afterwards the request is claimed or has ended; this thread took no step but the claim |
| `Runtime.Runtime.RefuseRequest` | src/admission_controller.cpp:24-37 | a request the scheduler turned away is Rejected, with RuntimeStopped if it was closed and QueueFull if it was full, unless its client ended it first |
| `Runtime.Runtime.Admit` | src/admission_controller.cpp:9-41 | a submission that claims the request is decided at one step of its own: accepted, with success, exactly if the scheduler was then open and below capacity; turned away with RuntimeStopped exactly if it was closed, else with QueueFull; one that does not claim it was forestalled by a claim or an end, and takes no step |
| `Runtime.Runtime.Submit` | src/runtime.cpp:55-74 | the same while the runtime accepts; when it does not, the request is Rejected with RuntimeStopped unless it was claimed or ended before; in any case no longer Received |
| `Runtime.Runtime.EnqueueTo` | src/worker.cpp:75-90 | a live request goes to the end of the lane, its life unchanged and nothing else touched, exactly if the lane is open and has room; otherwise it is Rejected with QueueClosed or QueueFull; a dead one is let go |
| `Runtime.Runtime.RouteRequest` | src/runtime.cpp:215-251 | one step places the request: a live one is in the selected lane exactly if the model is known, a worker was selected and exists, and its lane was open and had room at that step; otherwise Rejected with the code of what was missing; and if its client leaves it alone, it is then as it was at the call |
| `Runtime.Runtime.NextFifo` | src/scheduler.cpp:28-38 | the front of a scheduler that is not empty is in hand, or dead, and the rest waits in order; ends the routing thread only when closed and empty |
| `Runtime.Runtime.NextWorkloadAware` | src/workload_aware_scheduler.cpp:78-86 | takes a live entry if there is one and loses none; ends the routing thread when nothing alive is left, open or not |
| `Runtime.Runtime.RouteNext` | src/runtime.cpp:253-261 | a pass leaves nothing in hand, the thread ends only on an empty scheduler, and first in first out the front is in a lane or has ended |
| `Runtime.Runtime.Stop` | src/runtime.cpp:76-101 | the scheduler is closed, and once routing has ended every lane; it returns exactly when everything has stopped, and with the first-in-first-out scheduler every accepted request is then terminal |

## Left out

- HTTP server, sessions and JSON: plumbing around the runtime.
- The llama library itself: tokenizer, decoder, sampler and model loading are functions or arbitrary outcomes; that a decode depends on a sequence's own cells only is the assumption of batch transparency.
- Exceptions thrown by a backend's load or unload inside the model manager; a worker that sees one fails its batch.
- Null requests and null pointers: the callers in scope never pass them.
- Real time: deadlines appear as deaths at any moment; the length of the batch wait window, which restarts at each pop, is not modelled.
- Wrap-around of 64-bit sequence numbers, stamps and metrics; the counter of queued requests is an integer whose negative values stand for the wrapped ones.
- The least-loaded and residency-aware routers, and the synthetic backend, which is one of the backends `ModelManager.Backend` allows.
- Display snapshots, status messages, the registry builder, command line and benchmark harness.
- `Worker::enqueue` and `enqueue_until`, which the runtime does not call; closing a worker other than through `stop`.
- `BoundedQueue` as a class of its own: its operations are the steps on `scheduled` and on the lanes.
- `Runtime.Runtime.NextWorkloadAware`: takes any live entry; that what the scheduler takes is one of them is `SchedulerJoin.DispatchJoins`, and which one it takes is `SchedulerSpec.DispatchStep`.
- `Runtime.Runtime.EnqueueTo`: its tests and its push are one step, so a death between them shows only in the step system, where a push may find its request dead.
- No claim is made about progress or fairness of threads, nor about the order in which observers see notices that were sent.
- `Workers.Worker.RunLoop`: bounded by an arbitrary number of passes and pops, so what a loop that never ends does is not stated.
- `Drain.FifoDrains`: states what holds when `stop` has returned, not that it returns.
