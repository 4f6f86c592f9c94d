# The flashQ job engine, modelled and verified

flashQ is a job queue server: clients push jobs, workers pull and acknowledge them. This project models
its in-memory job engine (`engine/src/queue`), the ordering of jobs (`engine/src/protocol/types.rs`), the
key-value store with its glob matcher, and the framing of its binary protocol, and proves what they promise.

- `protocol.dfy` — jobs and the comparison that orders them.
- `priority_queue.dfy` — the per-queue heap with lazy removal, as a class.
- `pull.dfy`, `shard_queue.dfy` — one pull attempt, the batch form, and the loops that compute them.
- `engine.dfy` — the engine as a state machine whose steps are the source's critical sections. A job that
  is between two locks is in one of the places `InFlight`, `Leaving`, `TimedOut`, `Notifying`, `Allocated`;
  a job that a stall check has in hand is among the `suspects`. A run (`Run`) is any interleaving of
  operations at lock granularity; what a section leads to outside its lock is named under "Left out".
- `exclusion.dfy`, `unique_keys.dfy`, `slots.dfy`, `retries.dfy`, `dependencies.dfy`, `flows.dfy`,
  `stalls.dfy`, `custom_ids.dfy` — what holds in every state of every run.
- `push_batch.dfy` — the batch push against single pushes.
- `promises.dfy` — what each operation does in the fields of the jobs it meets and leaves, said without the
  functions that the engine and the operations are written with, and proved of them; the manager's methods
  state it.
- `containers.dfy`, `operations.dfy`, `manager.dfy` — the queue manager: its containers, its index, and
  every operation as a method that is proved to be a sequence of engine steps and to leave containers and
  index in step with the job table.
- `glob.dfy`, `kv.dfy` — the key-value store.
- `frame.dfy` — frames and the choice of protocol.

Where the code does less than it promises, the exact condition under which the promise holds is proved.

- `check_dependencies` moves a job from `waiting_deps` to its queue without telling the index. Until it is
  pulled, the job cannot be found, cancelled or changed, is still reported as waiting, and its custom id
  no longer protects it: pushing that id again creates a second live job (`ReleasedJobIsDuplicated`,
  `PushExact`, `IndexAgreesExactly`).
- Cancelling, delaying or discarding an active job, timing it out, burying it as stalled, obliterating its
  queue, and acking it in a batch under another queue's name leave its group marked active; nothing else
  does (`LeaksExactly`), and no job of that group is served again until another queue's batch happens to
  free the name (`ForgottenGroupIsDead`).
- `obliterate` drops the unique keys of a queue before it sweeps the queue's jobs out of processing. A job
  that gets away in between is live without its key, and the key can be taken again (`ObliterateIsExact`,
  `EscapedJobIsDuplicated`).
- A batch ack that spans queues of one shard releases under the first queue seen. When this breaks group
  exclusion, unique keys, the limit or the account of slots is said by one condition each
  (`GroupSafetyIsExact`, `KeySafetyIsExact`, `SlotSafetyIsExact`).
- A heartbeat call can be answered and yet not keep the job from being buried within three stall timeouts,
  when a stall check has the job in hand. For every state in which a call returns, the earliest check that
  can bury the job is computed and shown to be met (`StallBoundIsExact`), and with it exactly when the call
  is worth three timeouts (`HeartbeatBuysExactly`, `CondemnedIsBuried`, `OverlappedCallBuysOneTimeout`).
  Operations read the clock before they wait for a lock; the bounds are for sections whose times may be
  behind by any lag up to the timeout, and beyond that there is no bound (`LongLagBuriesAtOnce`).
- A job that expires, is cancelled while it waits for its dependencies, is removed by its last failure or
  from the dead letters, is swept away with its queue or acked in a batch under another queue leaves its
  unique key taken; nothing else does (`KeyLeaksExactly`), and the key is refused until its queue is
  obliterated or another queue's batch happens to free it (`LeakedKeyIsDead`).
- A job buried as stalled or swept away with its queue takes its slot along (`SlotsAreConserved`).
- A flow child acknowledged by `ack_batch` is never counted, and its parent waits for good
  (`BatchAckStrandsParent`).
- `push_batch` answers with the id of a job that is gone where `push` creates a new one (`CleanIsNecessary`).
- `glob_match` says no to every pattern with more than ten stars before its last character (`GlobIsExact`),
  and some pattern makes it panic on a text exactly when the text is not ASCII (`GlobPanicsExactly`).

`is_binary_protocol` and the connection handler disagree on a leading line end and on nothing else
(`DetectionsDisagree`). The comment in `engine/src/protocol/mod.rs:5-8` describes the former; the model
follows the handler. A deletion gives a cleanup of the key-value store away (`DelTellsExpired`).

## Model

| member | source | states |
|---|---|---|
| Protocol.OrderlyIffTransitive | engine/src/protocol/types.rs:183-203 | `Job::cmp` is transitive on a set of jobs exactly when no LIFO job lies, by id, between two FIFO jobs of the same priority and run time |
| Protocol.UniformLifoIsOrderly | engine/src/protocol/types.rs:190-201 | on jobs that share one `lifo` flag the order is sound |
| Protocol.MixedFlagsCycle | engine/src/protocol/types.rs:190-201 | three jobs of equal priority and run time that beat each other in a circle |
| Protocol.BackoffBounds | engine/src/protocol/types.rs:165-171 | retry delays do not shrink from one failure to the next, lie between 2 and 1024 times the base, and stay at 1024 from the tenth on |
| PriorityQueue.RootExists | engine/src/queue/types/indexed_priority_queue.rs:26-57 | a heap ordered by this comparison has a root that nothing outranks, if the order is sound on it |
| PriorityQueue.IndexedPriorityQueue.Pop | engine/src/queue/types/indexed_priority_queue.rs:108-119 | stale entries are skipped; a greatest queued job is removed and returned, or the queue is empty |
| PriorityQueue.IndexedPriorityQueue.Push | engine/src/queue/types/indexed_priority_queue.rs:88-105 | the job replaces any of the same id |
| PriorityQueue.IndexedPriorityQueue.Peek | engine/src/queue/types/indexed_priority_queue.rs:122-134 | a greatest queued job is shown, stale entries above it dropped |
| PriorityQueue.IndexedPriorityQueue.Remove | engine/src/queue/types/indexed_priority_queue.rs:150-154 | the job is gone although its heap entry stays |
| PriorityQueue.IndexedPriorityQueue.Update | engine/src/queue/types/indexed_priority_queue.rs:157-163 | the job replaces the one of its id, which is returned |
| PriorityQueue.IndexedPriorityQueue.Len | engine/src/queue/types/indexed_priority_queue.rs:166-168 | the number of queued jobs, stale entries not counted |
| PriorityQueue.IndexedPriorityQueue.Retain | engine/src/queue/types/indexed_priority_queue.rs:202-217 | exactly the jobs that pass the test stay |
| Pull.ScanExplained | engine/src/queue/pull.rs:54-92 | one scan in the fields of the jobs: it passes jobs past their time to live and due jobs of a busy group, takes the job it stops at if that is due, drops just the passed ones past their time, and keeps every other job in order |
| Pull.AttemptExplained | engine/src/queue/pull.rs:37-112 | one attempt in the fields of limiter and jobs: a paused queue or one without a slot yields nothing; otherwise the job taken is started now, takes a slot and marks its group |
| Pull.BatchExplained | engine/src/queue/pull.rs:298-388 | a batch hands out only jobs that are due and alive, at most one of a group and none of a busy one, drops only jobs past their time to live, takes a slot for each, begins as a single attempt does and ends early only where one finds nothing |
| Pull.ServedInOrder | engine/src/queue/pull.rs:54-92 | ready, unexpired, ungrouped jobs leave the queue one per pull in the order the heap yields them, until it is empty |
| Pull.DescendingByFlag | engine/src/protocol/types.rs:183-203 | descending order in a caller's terms: priority, then run time, then id by the shared flag |
| Pull.DescendingIsUnique | engine/src/queue/pull.rs:54-92 | under a sound order the contents of a heap fix what it serves |
| Pull.ListingExists | engine/src/queue/pull.rs:54-92 | every heap has such an order to serve |
| Pull.BatchRefinesSingle | engine/src/queue/pull.rs:292-398 | `pull_batch_nowait(k)` returns the same jobs in the same order, and leaves the same heap, groups and slots, as up to k single attempts |
| ShardQueues.ShardQueue.Pull | engine/src/queue/pull.rs:23-112 | the scan loop on a real heap, with its skipped jobs and slot accounting, computes one attempt, and what that comes to in the fields of the jobs |
| ShardQueues.ShardQueue.Drain | engine/src/queue/pull.rs:23-112 | on a real heap of jobs of one `lifo` flag that are ready, unexpired and ungrouped, pulling until nothing is found empties the heap: each job once, by priority, then run time, then id |
| ShardQueues.ShardQueue.ScanHeap | engine/src/queue/pull.rs:54-92 | the pop loop: what it passed, what it kept for later, what it found |
| ShardQueues.ShardQueue.ScanHeapBatch | engine/src/queue/pull.rs:329-364 | the batch pop loop likewise |
| ShardQueues.ShardQueue.PullBatchNowait | engine/src/queue/pull.rs:298-388 | the batch loops compute repeated single attempts, and what those come to in the fields of the jobs |
| ShardQueues.ShardQueue.AcquireUpTo | engine/src/queue/pull.rs:311-320 | as many slots as are free, up to the batch size |
| Exclusion.GroupExclusion | engine/src/queue/pull.rs:49-103 | over every interleaving at most one job of a group is held between pull and release, and its group is marked active |
| Exclusion.GroupSafetyIsExact | engine/src/queue/ack.rs:117-171 | every step of the engine keeps exclusion, except a batch ack under another queue where somebody holds a group of that name, and that one never does |
| Exclusion.MisnamedAckLetsTwoOut | engine/src/queue/ack.rs:117-171 | after a batch ack under a queue where somebody holds a group of that name, the next job of that group is taken beside the first |
| Exclusion.LeaksExactly | engine/src/queue/job_ops.rs:301-352 | for every step and every group: the group is marked active with nobody to release it exactly when it was and is not freed under another queue, or when its holder leaves in one of the listed ways, the sweep of an obliterated queue among them |
| Exclusion.ForgottenGroupIsDead | engine/src/queue/pull.rs:49-92 | a leaked group is not served again in any continuation in which no batch ack of another queue frees its name |
| UniqueKeys.OneJobPerKey | engine/src/queue/push.rs:107-116 | over every safe run at most one live job has a key in a queue, and the key is taken; jobs that a running `obliterate` is about to sweep out of processing are not counted |
| UniqueKeys.KeySafetyIsExact | engine/src/queue/ack.rs:117-171 | every step keeps this except a misnamed batch ack of a key somebody has, the shard section of `obliterate` with a keyed job between two containers, and the escape of a doomed job whose key is not taken again or belongs to another; those never do |
| UniqueKeys.ObliterateIsExact | engine/src/queue/browser.rs:289-361 | the shard section keeps keys unique exactly when no keyed job of the queue is between two containers; the keyed jobs in processing wait for the sweep without their keys |
| UniqueKeys.EscapedJobIsDuplicated | engine/src/queue/browser.rs:346-361 | failed back into its queue before the sweep, such a job is live together with a new job of the same key |
| UniqueKeys.KeyLeaksExactly | engine/src/queue/job_ops.rs:15-94 | for every step and every key: the key is taken with no live job to free it exactly when it was and is not shed, or when the only job that had it goes in one of the listed ways |
| UniqueKeys.LeakedKeyIsDead | engine/src/queue/push.rs:107-116 | in every continuation that does not shed the key, no job has it and every push with it is refused |
| Slots.ConcurrencyLimit | engine/src/queue/rate_limit.rs:40-50 | from the moment a limit is set, jobs out are at most the slots taken plus the jobs out at that moment, and slots at most the limit |
| Slots.SlotSafetyIsExact | engine/src/queue/ack.rs:157-160 | every step keeps the limit, and the account of slots, exactly when it does not give back a slot of the queue for a job of another one, or set the limit anew, with the counts that make it harmful |
| Slots.SlotsAreConserved | engine/src/queue/monitoring.rs:244-271 | if no job was out when the limit was set, slots taken are jobs out plus slots lost, one for every job buried as stalled, swept away or acked under another queue; when the lost ones reach the limit no job can be taken |
| Retries.AttemptsLeft | engine/src/queue/ack.rs:219-221 | over every run a live job with limited attempts that is not dead has some left |
| Retries.FailuresAreBounded | engine/src/queue/ack.rs:213-339 | between dead letter retries a job fails at most `max_attempts` times in all, and the last failure leaves it dead or gone |
| Flows.FlowSafety | engine/src/queue/flows.rs:147-189 | over every run a parent outside `waiting_children` has all its distinct children acked, and one that waits has counted no more than were |
| Flows.ReleasedByLastChild | engine/src/queue/flows.rs:147-189 | if no flow child is acked by a batch, a parent waits exactly as long as some child is not acked and reported, and its count is exact |
| Flows.BatchAckStrandsParent | engine/src/queue/ack.rs:106-149 | one child acked by a batch, and in no continuation does the parent leave `waiting_children` but by removal |
| Stalls.StallBound | engine/src/queue/monitoring.rs:204-294 | under positive times, each at most a lag behind one used before, with one check at a time and every section its own step: a check that buries a job began more than three stall timeouts, each less the lag, after the first pull, across failures and dead letter retries |
| Stalls.StallBoundIsExact | engine/src/queue/monitoring.rs:204-294 | from any state of such a run on, whatever happens: every check that buries an active job begins later than a given time exactly when the earliest burial, computed from count, suspicion, last heartbeat and clock, is later |
| Stalls.HeartbeatBuysExactly | engine/src/queue/monitoring.rs:204-215 | the exact condition, by the state in which a heartbeat call returns, when no section is late, under which no check begun within three timeouts of the call buries the job; it holds whenever no check has the job in hand and none set its heartbeat back |
| Stalls.LongLagBuriesAtOnce | engine/src/queue/pull.rs:28-75 | with times further behind than the timeout, a job of two stalls can be buried by a check that begins now |
| Stalls.CondemnedIsBuried | engine/src/queue/monitoring.rs:249-271 | a heartbeat call answered after the third stall was counted does not save the job |
| Stalls.OverlappedCallBuysOneTimeout | engine/src/queue/monitoring.rs:271-278 | the smaller bound is met: whatever the timeout, a job can be buried one timeout and a tick after a call returned |
| CustomIds.CustomIdIsIdempotent | engine/src/queue/push.rs:72-84 | at most one live job per custom id, and pushing the id again returns it and changes nothing but debounce times |
| CustomIds.PushExact | engine/src/queue/push.rs:36-150 | a push keeps the custom-id map right exactly when it is not considered, bears no custom id, or no live job of that id is out of the index's sight; the index is taken to be written within the section that moves the job |
| CustomIds.ReleasedJobIsDuplicated | engine/src/queue/background/timeout.rs:81-113 | after a dependency release the same custom id can be live twice |
| PushBatches.BatchRefinesSingles | engine/src/queue/push.rs:218-413 | a batch without stale custom ids accepts the same inputs and answers in the same order as single pushes, and ends in the same state up to an order-preserving renaming of new ids |
| PushBatches.CleanIsNecessary | engine/src/queue/push.rs:276-295 | the two forms agree exactly on the batches without a stale custom id |
| PushBatches.PhasesFuse | engine/src/queue/push.rs:237-395 | the phases treat an input as if they had run on it alone before the rest |
| PushBatches.PushNowMeans | engine/src/queue/push.rs:36-150 | what a single push comes to, stale custom ids and rollback included |
| PushBatches.PushNowSteps | engine/src/queue/push.rs:67-84 | a single push is a push step of the engine, and one id more is burned when it is answered with an existing job |
| PushBatches.ReachableIsUnused | engine/src/queue/push.rs:67-69 | ids from the next one on are in use nowhere, in every reachable state |
| PushBatches.AdmitAll | engine/src/queue/push.rs:237-264 | the loop of phase 1: oversized and debounced inputs are dropped, debounce times noted |
| PushBatches.AnswerKnown | engine/src/queue/push.rs:270-295 | the loop of phase 2: inputs with a known custom id are answered |
| PushBatches.RegisterAll | engine/src/queue/push.rs:306-353 | the loop of phases 3 and 4 with its rollback |
| PushBatches.Collect | engine/src/queue/push.rs:406-409 | answers in input order |
| Containers.OneSlot | engine/src/queue/types/shard.rs:17-27 | no job is in two slots of one container, or in two containers |
| Containers.ContainsMeans | engine/src/queue/types/shard.rs:17-27 | a slot contains exactly the live jobs that belong there, by place, shard, queue or id |
| Containers.LookUpMeans | engine/src/queue/query.rs:13-72 | the index leads to a job exactly when it is live and was not moved by a dependency release |
| Containers.EffectKeepsConsistent | engine/src/queue/query.rs:191-199 | moving, removing or completing one job keeps containers and index in step |
| Containers.ExpiryKeepsConsistent | engine/src/queue/pull.rs:58-61 | an expired job leaves its index entry behind, the one kind of entry that leads nowhere |
| Containers.ScanMeans | engine/src/queue/browser.rs:31-109 | the full scan reports every live job once, in its state |
| Manager.QueueManager.Push | engine/src/queue/push.rs:36-150 | refused, answered or stored, by name, size, debounce time, custom id and unique key; the stored job has every field from its input, and waits if one of its dependencies is not completed |
| Manager.QueueManager.PushBatch | engine/src/queue/push.rs:218-413 | the six phases, on the manager's containers; every new job has every field from one of the inputs, in their order, and its id is among the answers; an input without custom id, unique key and debounce id always makes one; no old job is touched |
| Manager.QueueManager.Pull | engine/src/queue/pull.rs:30-119 | one attempt: a job handed out was due and alive in this queue, a job that goes was past its time to live, a job that is alive but not due holds up those behind it, a paused queue or one without a slot yields nothing |
| Manager.QueueManager.Ack | engine/src/queue/ack.rs:19-104 | the job goes, its slot, group and key are given back, it is completed unless it is to be forgotten, and a waiting parent counts it and is queued after the last |
| Manager.QueueManager.AckBatch | engine/src/queue/ack.rs:106-211 | of the ids given, exactly the jobs in processing go and are counted, released under the queue first seen in their shard; no parent is told |
| Manager.QueueManager.Fail | engine/src/queue/ack.rs:213-348 | one attempt more; back in the queue with its run time at now plus the backoff times two to the number of attempts, ten at most, or as it was without a backoff; after the last attempt dead or gone; slot and group given back |
| Manager.QueueManager.Cancel | engine/src/queue/job_ops.rs:15-94 | by place; succeeds exactly for jobs the index finds that are not dead |
| Manager.QueueManager.Amend | engine/src/queue/job_ops.rs:160-298 | priority, data (409-502) and promotion (355-406): changes a job where it is; succeeds exactly when the index finds it in a place that allows the change |
| Manager.QueueManager.MoveToDelayed | engine/src/queue/job_ops.rs:301-352 | back to the queue with its run time at now plus the delay and its slot given back |
| Manager.QueueManager.Discard | engine/src/queue/job_ops.rs:505-602 | to the dead letters from the queue or from processing |
| Manager.QueueManager.OnChildCompleted | engine/src/queue/flows.rs:147-189 | the parent is found in its shard, counts, and is queued after the last child |
| Manager.QueueManager.PushFlow | engine/src/queue/flows.rs:14-144 | the i-th id is a job queued with the i-th child's queue, data, priority and delay; the parent waits and names them all |
| Manager.QueueManager.Heartbeat | engine/src/queue/monitoring.rs:204-215 | its two sections: renews the heartbeat and clears the stall count, of a job in processing and of no other |
| Manager.QueueManager.CheckStalledJobs | engine/src/queue/monitoring.rs:218-295 | collects, counts and handles each job in processing not heard of for its stall timeout, once, and no other; the third stall buries |
| Manager.QueueManager.CheckTimedOutJobs | engine/src/queue/background/timeout.rs:7-79 | retries or buries exactly the jobs started longer ago than their timeout, each once, with the delay of a failure, and touches no other |
| Manager.QueueManager.CheckDependencies | engine/src/queue/background/timeout.rs:81-113 | queues exactly the waiting jobs all of whose dependencies are completed, unless none was ever completed, and touches no other |
| Manager.QueueManager.RetryDlq | engine/src/queue/dlq.rs:24-41 | one letter back to its queue with no attempts counted and due now |
| Manager.QueueManager.RetryAllDlq | engine/src/queue/dlq.rs:42-67 | all letters of a queue, each once, from the front, with no attempts counted and due now |
| Manager.QueueManager.CleanFailed | engine/src/queue/browser.rs:152-171 | from the front, the letters no younger than the cutoff, each counted once, up to the limit; without either, the purge of `engine/src/queue/dlq.rs:71-99` |
| Manager.QueueManager.CleanWaiting | engine/src/queue/browser.rs:173-206 | waiting jobs no younger than the cutoff, each counted once, up to the limit, with their keys; without either, the drain of lines 249-280 |
| Manager.QueueManager.CleanCompleted | engine/src/queue/browser.rs:208-225 | the oldest completed ids, up to the limit |
| Manager.QueueManager.Obliterate | engine/src/queue/browser.rs:283-375 | the shard section and the sweep of processing: every job of the queue is gone and no other, and so are its keys and settings, but groups stay as they were; returns how many there were |
| Manager.QueueManager.Configure | engine/src/queue/rate_limit.rs:40-62 | sets and clears a limit, counted anew, and pauses and resumes as in `engine/src/queue/queue_control.rs:11-37`, for that queue and no other |
| Manager.QueueManager.GetJob | engine/src/queue/query.rs:13-72 | the job exactly if the index finds it, and its state; of an expired id, what its leftover index entry says |
| Manager.QueueManager.GetState | engine/src/queue/query.rs:76-102 | the same state as `get_job`, for expired ids too |
| Manager.QueueManager.GetJobByCustomId | engine/src/queue/query.rs:110-117 | the job under a custom id exactly if it is known and found |
| Manager.QueueManager.GetJobs | engine/src/queue/browser.rs:20-133 | the live jobs that match, each once, newest first, and the page asked for |
| Manager.QueueManager.GetJobCounts | engine/src/queue/queue_control.rs:101-142 | the numbers of jobs the full scan reports in each state |
| Manager.IndexAgreesExactly | engine/src/queue/query.rs:76-102 | on the manager's own containers between operations: the full scan has one item for each live job, and what `get_job` and `get_state` read through the index agrees with it exactly when no dependency release moved the job |
| Manager.NewestFirst | engine/src/queue/browser.rs:125-126 | sorted by id, descending, each item once |
| Promises.CreatedJobBehaves | engine/src/protocol/builder.rs:266-300 | a job made at some time is ready from the end of its delay on and not before, lapses just after its time to live, and once pulled is overdue just after its timeout |
| Promises.PushPromise | engine/src/queue/push.rs:13-150 | the single push of the specification, in the fields of input and job |
| Promises.BatchPromise | engine/src/queue/push.rs:218-413 | the batch push likewise: which input each new job is made of |
| Promises.PullFacts | engine/src/queue/pull.rs:54-92 | what the stopping place of a scan means for the jobs handed out, dropped and held up |
| Promises.FailPromise | engine/src/queue/ack.rs:213-339 | a failure in the fields of the job, and what is given back |
| Promises.TimeOutPromise | engine/src/queue/background/timeout.rs:24-76 | a timeout likewise; the group stays taken |
| Promises.DelaysBounded | engine/src/protocol/types.rs:165-171 | the delay after a failure is at least twice and at most 1024 times the backoff, and the next one is no shorter |
| Promises.BackoffIsWaited | engine/src/queue/ack.rs:303-309 | in no continuation is a job that failed or timed out with a backoff in a worker's hands before its delay is over, unless it is promoted or revived from the dead letters |
| Promises.NotServedEarly | engine/src/queue/pull.rs:79-83 | the same for any job that waits for its run time |
| Promises.DelayIsWaited | engine/src/queue/push.rs:13-33 | and for a job pushed with a delay |
| Dependencies.DependenciesFirst | engine/src/queue/push.rs:94-99 | over every run, a live job anywhere but in `waiting_deps` has all the jobs it depends on acked, and as long as one is not no pull takes it |
| Operations.AckMeans | engine/src/queue/ack.rs:96-99 | an ack is a batch ack under the job's own queue, with the parent told |
| Operations.LeaveThen | engine/src/queue/ack.rs:20-32 | taking a job out of processing and then releasing it is one effect on the state |
| Glob.GlobIsExact | engine/src/queue/kv.rs:270-320 | over ASCII text the matcher says yes exactly when the pattern matches and has at most ten stars that something follows |
| Glob.GlobIsSound | engine/src/queue/kv.rs:270-320 | over any text a yes is a match |
| Glob.GlobPanicsExactly | engine/src/queue/kv.rs:288-305 | some pattern panics on a text exactly when it is not ASCII; one with a single star does, and one of twelve stars, which matches everything |
| Glob.GlobPanics | engine/src/queue/kv.rs:300 | such a panic can hide a match of a pattern within the depth limit |
| Glob.GlobMatchInner | engine/src/queue/kv.rs:274-320 | the walk with its loop and recursion decides as specified, and terminates |
| KeyValue.CleanupIsUnobservable | engine/src/queue/kv.rs:242-246 | under a clock that does not go back, cleanups anywhere in a run change no answer but those of `kv_del` and `kv_stats` |
| KeyValue.StepAgrees | engine/src/queue/kv.rs:93-236 | answers depend on the unexpired entries only |
| KeyValue.SetThenAsk | engine/src/queue/kv.rs:63-89 | a key and value of legal size are found until just after their time, with the time that is left; other keys are as before |
| KeyValue.ExpireThenAsk | engine/src/queue/kv.rs:164-185 | a key that is there keeps its value for the new time |
| KeyValue.IncrThenAsk | engine/src/queue/kv.rs:210-236 | what an increment answers for every kind of value, what is found afterwards, and for how long |
| KeyValue.MSetThenAsk | engine/src/queue/kv.rs:126-151 | after a batch a key has the last value that could be stored under it |
| KeyValue.KeysAreFound | engine/src/queue/kv.rs:187-205 | the keys listed are those that a get finds, as far as they match |
| KeyValue.Wrap64 | engine/src/queue/kv.rs:225 | 64-bit addition of a release build: congruent, in range, exact when it fits |
| KeyValue.KvStore.MGet | engine/src/queue/kv.rs:110-123 | the first thousand keys, expired ones as absent |
| KeyValue.KvStore.MSet | engine/src/queue/kv.rs:126-151 | every acceptable entry is stored, in order, and counted |
| KeyValue.KvStore.Incr | engine/src/queue/kv.rs:210-236 | counts from an integer, a null or an expired entry, and refuses anything else |
| KeyValue.KvStore.Keys | engine/src/queue/kv.rs:187-205 | the unexpired keys that match, unless the matcher panics on one of the unexpired keys |
| KeyValue.KvStore.Cleanup | engine/src/queue/kv.rs:242-246 | exactly the expired entries go |
| Frames.CreateBinaryFrame | engine/src/protocol/mod.rs:46-52 | a message is framed as its length in four bytes, big end first, and itself |
| Frames.DecodeIsExact | engine/src/server/connection.rs:105-146 | messages and ending are read exactly when the stream is the frames of those messages, each of legal size, and a leftover that explains the ending |
| Frames.DecodeIsIncremental | engine/src/server/connection.rs:105-146 | bytes that arrive later take no message back, and nothing is read after an oversized length |
| Frames.SurvivesExactly | engine/src/protocol/mod.rs:46-52 | a framed message comes back exactly when it is at most 16 MiB |
| Frames.FramesAreNeverText | engine/src/server/connection.rs:36-53 | a stream that starts with a legal frame is never taken for text |
| Frames.ReadMessages | engine/src/server/connection.rs:105-146 | the read loop computes the decoding |

## Left out

- Persistence, recovery and backup: treated as doing nothing, in either persistence mode.
- The wait loop around a pull attempt (sleeping, notification) and all liveness, save where a run is shown
  never to serve a group or release a parent again.
- The token-bucket rate limiter of a queue.
- Waiters, subscribers, events, logs, progress, partial results and metrics: they change no job.
- Results and data of completed jobs, retention settings, and the listing and counting of completed jobs.
- `reset`, `clear_all_queues`, `clear_completed_jobs`, `run_cleanup`, and the background sweeps that cap
  memory, except that completed ids and their custom ids may be forgotten at any time.
- Cron jobs, webhooks, workers, authentication, and the HTTP, gRPC, WebSocket and command layers.
- Overflow of 32- and 64-bit counters and times in the job engine: numbers are unbounded there.
- Queue names outside ASCII letters and digits: the source's test accepts any Unicode letter or digit.
- The hash of queue names: any function of the name.
- Engine.PushAs: one step; a second push between its locks is not modelled.
- Engine.Apply: what a critical section leads to outside its lock (the index entry, the set of completed
  ids, the count dropped when a job is forgotten) is written in the same step, and a dependency release
  reads the completed ids in the step that moves the job. `discard` and `on_child_completed` write the
  index after the lock; a dead letter retry or a pull in between can leave the entry pointing to the wrong
  place, which hides the job from the index as a dependency release does.
- Engine.OpenFlow: the ids of a flow are taken in one step and are consecutive; in the source a push can
  take an id between the parent's and the children's.
- PriorityQueue.IndexedPriorityQueue.Pop: the binary heap below it is a set that yields some root; how it
  sifts is not modelled.
- Manager.QueueManager.Pull: the manager holds the heaps as maps, and its loop goes over the order in which
  the heap yields, leaving skipped jobs where they are; popping and pushing back is `ShardQueue`. Stale
  heap entries take no part in that order; with mixed `lifo` flags they can change what a heap yields.
- Manager.QueueManager.CheckStalledJobs: handles each job right after collecting it instead of collecting
  all of them first; without interruption that is the same.
- Manager.QueueManager.GetJobs: completed jobs are not listed, nor counted by `GetJobCounts`.
- Manager.QueueManager.AckBatch: releases after each job instead of after the whole batch; what is
  released is the same.
- Manager.QueueManager.PushBatch: `push_batch` runs as a whole here; a custom id registered by another
  thread between its phases is not modelled.
- Manager.QueueManager: the manager's maps are fields of one record that operations rewrite, and the maps
  of maps are keyed by shard and queue; locks and aliasing are not modelled.
- KeyValue.KvStore.Expire: the source reads the clock twice, the model once; likewise `kv_ttl`. `kv_get`,
  `kv_del`, `kv_exists`, `kv_ttl` and `kv_stats` are cases of the function `Step` only.
- KeyValue.KvStore.Keys: keys are text of one byte per character as far as their length is concerned.
- Message bodies: only their framing is modelled.
