/** The job engine as a state machine whose steps are the source's critical sections.

    `State.jobs` says where every live job is. Between two locks a job is in no container of the
    source; the places InFlight, Leaving, TimedOut, Notifying and Allocated stand for those moments,
    so a run of steps is any interleaving of the source's operations at lock granularity. */
module Engine {
  import opened Protocol
  import opened Pull

  datatype Place =
    | Allocated          // a flow child whose id is given out but which is not queued yet
    | WaitingDeps
    | WaitingChildren
    | Queued
    | InFlight           // popped by a pull, not yet in processing
    | Processing
    | Leaving            // out of processing, its resources still to be released
    | TimedOut           // timed out, slot given back, still to be requeued
    | Notifying          // acked, its flow parent still to be told
    | Dead               // in the dead letter queue

  datatype Placed = Placed(place: Place, job: Job)

  datatype State = State(
    jobs: map<JobId, Placed>,
    completed: set<JobId>,
    keys: set<(string, string)>,            // unique keys taken, by queue
    groups: set<(string, string)>,          // active groups, by queue
    limiters: map<string, Limiter>,
    paused: set<string>,
    customIds: map<string, JobId>,
    debounce: map<(string, string), nat>,   // expiry, by queue and debounce id
    stalled: map<JobId, nat>,
    suspects: map<JobId, Suspicion>,        // what a running stall check has still to do
    released: set<JobId>,                   // queued by dependency release, which does not reindex
    acked: set<JobId>,                      // history only: no step reads it
    nextId: JobId)

  /** A job that a stall check has in hand: collected at a time and with a stall count, then counted,
      and by that count spared or condemned. */
  datatype Suspicion = Seen(at: nat, stalls: nat) | Spared(at: nat, stalls: nat) | Condemned(at: nat)

  const INITIAL := State(map[], {}, {}, {}, map[], {}, map[], map[], map[], map[], {}, {}, 1)

  predicate At(s: State, id: JobId, place: Place) {
    id in s.jobs && s.jobs[id].place == place
  }

  // ---- Push ----

  datatype JobInput = JobInput(
    data: string,
    dataSize: nat,                 // estimated JSON size
    priority: int,
    delay: Option<nat>,
    ttl: Option<nat>,
    timeout: Option<nat>,
    maxAttempts: Option<nat>,
    backoff: Option<nat>,
    uniqueKey: Option<string>,
    dependsOn: Option<seq<JobId>>,
    lifo: bool,
    removeOnComplete: bool,
    removeOnFail: bool,
    stallTimeout: Option<nat>,
    debounceId: Option<string>,
    debounceTtl: Option<nat>,
    customId: Option<string>,
    groupId: Option<string>)

  const MAX_JOB_DATA_SIZE := 10_485_760
  const MAX_QUEUE_NAME_LENGTH := 256
  const MAX_BATCH_SIZE := 1000

  predicate ValidQueueName(queue: string) {
    && 0 < |queue| <= MAX_QUEUE_NAME_LENGTH
    && forall c | c in queue ::
         'a' <= c <= 'z' || 'A' <= c <= 'Z' || '0' <= c <= '9' || c == '_' || c == '-' || c == '.'
  }

  function GetOr<T>(o: Option<T>, default: T): T {
    if o.Some? then o.value else default
  }

  function CreateJob(id: JobId, queue: string, input: JobInput, now: nat): Job {
    Job(id, queue, input.data, input.priority, now,
        now + GetOr(input.delay, 0), 0, 0, GetOr(input.maxAttempts, 0), GetOr(input.backoff, 0),
        GetOr(input.ttl, 0), GetOr(input.timeout, 0), input.uniqueKey, GetOr(input.dependsOn, []),
        input.lifo, input.removeOnComplete, input.removeOnFail, 0, GetOr(input.stallTimeout, 0), 0,
        None, [], 0, input.customId, input.groupId)
  }

  /** `get_job(id).0` is Some: the job is live and the index leads to it. */
  predicate Retrievable(s: State, id: JobId) {
    id in s.jobs && id !in s.released && s.jobs[id].place in {WaitingDeps, WaitingChildren, Queued, Processing, Dead}
  }

  predicate Debounced(s: State, queue: string, input: JobInput, now: nat) {
    && input.debounceId.Some?
    && (queue, input.debounceId.value) in s.debounce
    && now < s.debounce[(queue, input.debounceId.value)]
  }

  /** No id twice. */
  ghost predicate NoneTwice(ids: seq<JobId>) {
    forall i, k | 0 <= i < k < |ids| :: ids[i] != ids[k]
  }

  /** A push that gets as far as looking at the custom id. */
  predicate Considered(s: State, queue: string, input: JobInput, now: nat) {
    ValidQueueName(queue) && input.dataSize <= MAX_JOB_DATA_SIZE && !Debounced(s, queue, input, now)
  }

  function NoteDebounce(s: State, queue: string, input: JobInput, now: nat): State {
    if input.debounceId.None? then s
    else s.(debounce := s.debounce[(queue, input.debounceId.value) := now + GetOr(input.debounceTtl, 5000)])
  }

  /** The job a push with this custom id is answered with instead of creating one. */
  function ExistingJob(s: State, input: JobInput): Option<JobId> {
    if input.customId.Some? && input.customId.value in s.customIds
       && Retrievable(s, s.customIds[input.customId.value])
    then Some(s.customIds[input.customId.value]) else None
  }

  predicate DepsPending(completed: set<JobId>, job: Job) {
    exists d | d in job.dependsOn :: d !in completed
  }

  function StartPlace(completed: set<JobId>, job: Job): Place {
    if DepsPending(completed, job) then WaitingDeps else Queued
  }

  datatype PushOutcome = Rejected | Existing(id: JobId) | Created(id: JobId)

  datatype PushResult = PushResult(state: State, outcome: PushOutcome)

  /** Registers the custom id and the unique key and stores the job; a taken key rolls the custom id back. */
  function Store(s: State, queue: string, input: JobInput, id: JobId, now: nat): PushResult {
    if input.uniqueKey.Some? && (queue, input.uniqueKey.value) in s.keys then
      PushResult(s.(customIds := if input.customId.Some? then s.customIds - {input.customId.value} else s.customIds,
                    nextId := id + 1),
                 Rejected)
    else
      var job := CreateJob(id, queue, input, now);
      var s' := s.(customIds := if input.customId.Some? then s.customIds[input.customId.value := id] else s.customIds,
                   keys := if input.uniqueKey.Some? then s.keys + {(queue, input.uniqueKey.value)} else s.keys,
                   nextId := id + 1);
      PushResult(s'.(jobs := s.jobs[id := Placed(StartPlace(s.completed, job), job)]), Created(id))
  }

  /** `push` with the id it was handed. */
  function PushAs(s: State, queue: string, input: JobInput, id: JobId, now: nat): PushResult {
    if !Considered(s, queue, input, now) then
      PushResult(s, Rejected)
    else
      var s' := NoteDebounce(s, queue, input, now);
      if ExistingJob(s', input).Some? then PushResult(s', Existing(ExistingJob(s', input).value))
      else Store(s', queue, input, id, now)
  }

  datatype FlowChild = FlowChild(queue: string, data: string, priority: int, delay: Option<nat>)

  function FlowJob(id: JobId, queue: string, data: string, priority: int, now: nat, runAt: nat,
                   parentId: Option<JobId>, childrenIds: seq<JobId>): Job {
    Job(id, queue, data, priority, now, runAt, 0, 0, 0, 0, 0, 0, None, [], false, false, false, 0, 0, 0,
        parentId, childrenIds, 0, None, None)
  }

  function ChildIds(parent: JobId, count: nat): (ids: seq<JobId>)
    ensures |ids| == count && forall i | 0 <= i < count :: ids[i] == parent + 1 + i
  {
    seq(count, i requires 0 <= i < count => parent + 1 + i)
  }

  function ChildJob(parent: JobId, children: seq<FlowChild>, id: JobId, now: nat): Job
    requires parent < id <= parent + |children|
  {
    var c := children[id - parent - 1];
    FlowJob(id, c.queue, c.data, c.priority, now, now + GetOr(c.delay, 0), Some(parent), [])
  }

  function Children(parent: JobId, children: seq<FlowChild>, now: nat): map<JobId, Placed> {
    map id | parent < id <= parent + |children| :: Placed(Allocated, ChildJob(parent, children, id, now))
  }

  /** The parent goes to `waiting_children`; the children have their ids but are not queued yet. */
  function OpenFlow(s: State, queue: string, data: string, children: seq<FlowChild>, priority: int, now: nat): State {
    var parent := s.nextId;
    var job := FlowJob(parent, queue, data, priority, now, now, None, ChildIds(parent, |children|));
    s.(jobs := s.jobs[parent := Placed(WaitingChildren, job)] + Children(parent, children, now),
       nextId := parent + |children| + 1)
  }

  // ---- What an operation does to one job ----

  datatype StallNote = Keep | Clear | Count(n: nat)

  datatype Mark = Unmarked | Suspects(suspicion: Suspicion) | Cleared

  /** The effect of a critical section on the job it is about: where the job goes, and which of its
      resources are taken or given back, under which queue name. */
  datatype Effect = Effect(
    after: Option<Placed>,         // None: the job is gone
    takes: bool,                   // takes a slot and the group
    freesSlot: bool,
    freesGroup: bool,
    freesKey: bool,
    queue: string,                 // the queue name under which they are given back
    acks: bool,
    completes: bool,
    note: StallNote,
    mark: Mark,
    hides: bool)                   // the index is not told

  function Moves(job: Job, place: Place): Effect {
    Effect(Some(Placed(place, job)), false, false, false, false, job.queue, false, false, Keep, Unmarked, false)
  }

  function Vanishes(job: Job): Effect {
    Effect(None, false, false, false, false, job.queue, false, false, Keep, Unmarked, false)
  }

  /** `release_job_resources` under `queue`, and the job counted as done. `ack_batch` uses the queue it
      saw first in the job's shard, and tells no parent. */
  function AckEffect(job: Job, queue: string, tells: bool): Effect {
    (if tells && job.parentId.Some? then Moves(job, Notifying) else Vanishes(job))
    .(freesSlot := true, freesGroup := true, freesKey := true, queue := queue,
      acks := true, completes := !job.removeOnComplete, note := if job.removeOnComplete then Clear else Keep)
  }

  function Retried(job: Job, now: nat): Job {
    job.(runAt := if job.NextBackoff() > 0 then now + job.NextBackoff() else job.runAt, startedAt := 0)
  }

  function Failed(job: Job): Job {
    job.(attempts := job.attempts + 1)
  }

  function FailEffect(job: Job, now: nat): Effect {
    var failed := Failed(job);
    (if !failed.ShouldGoToDlq() then Moves(Retried(failed, now), Queued)
     else if job.removeOnFail then Vanishes(job).(note := Clear)
     else Moves(failed, Dead))
    .(freesSlot := true, freesGroup := true)
  }

  function RequeueEffect(job: Job, now: nat): Effect {
    var failed := Failed(job);
    if failed.ShouldGoToDlq() then Moves(failed, Dead) else Moves(Retried(failed, now), Queued)
  }

  function StallTimeout(job: Job): nat {
    if job.stallTimeout > 0 then job.stallTimeout else 30_000
  }

  function LastActivity(job: Job): nat {
    if job.lastHeartbeat > 0 then job.lastHeartbeat else job.startedAt
  }

  predicate IsStalled(job: Job, now: nat) {
    now > LastActivity(job) + StallTimeout(job)
  }

  function StallCount(s: State, id: JobId): nat {
    if id in s.stalled then s.stalled[id] else 0
  }

  /** The stall count was raised to `count`. */
  function Judged(suspicion: Suspicion, count: nat): Suspicion
    requires suspicion.Seen?
  {
    if count >= 3 then Condemned(suspicion.at) else Spared(suspicion.at, suspicion.stalls)
  }

  /** The end of a stall check for one job, if it is still in processing: buried, with neither slot nor
      group given back, or taken to have been heard of when the check began. */
  function HandledEffect(place: Place, job: Job, suspicion: Suspicion): Effect {
    (if place != Processing then Moves(job, place)
     else if suspicion.Condemned? then Moves(job, Dead)
     else Moves(job.(lastHeartbeat := suspicion.at, stallCount := suspicion.stalls + 1), Processing))
    .(mark := Cleared)
  }

  /** A critical section about one job. */
  datatype Action =
    | QueueChild
    | Expire(now: nat)
    | Take(now: nat)
    | Enter
    | Leave
    | Ack
    | BatchAck(queue: string)
    | Fail(now: nat)
    | CancelActive
    | Delay(delay: nat, now: nat)
    | DiscardActive
    | TimeOut
    | Requeue(now: nat)
    | Suspect(now: nat)            // the three sections of a stall check
    | CountStall
    | HandleStall
    | Heartbeat(now: nat)          // the two sections of a heartbeat call
    | HeartbeatDone(began: nat)
    | Wipe                         // the sweep of processing at the end of `obliterate`
    | ReleaseDeps
    | CancelWaiting
    | DiscardQueued
    | DropQueued
    | Promote(now: nat)
    | ChangePriority(priority: int)
    | UpdateData(data: string)
    | RetryDead(now: nat)
    | DropDead

  /** The actions of a job on its way out of a worker's hands. */
  predicate OnTheWayOut(action: Action) {
    action.Ack? || action.BatchAck? || action.Fail? || action.CancelActive? || action.Delay? || action.DiscardActive?
    || action.TimeOut? || action.Requeue?
  }

  predicate CanTake(s: State, job: Job, now: nat) {
    && job.queue !in s.paused
    && (job.queue in s.limiters ==> s.limiters[job.queue].HasSlot())
    && !job.IsExpired(now) && job.IsReady(now)
    && (job.groupId.Some? ==> (job.queue, job.groupId.value) !in s.groups)
  }

  /** None: the action finds nothing to do. */
  function EffectOf(s: State, id: JobId, action: Action): Option<Effect>
    requires id in s.jobs
  {
    var Placed(place, job) := s.jobs[id];
    var found := place == Queued && id !in s.released;   // in a heap that the index leads to
    match action
    case QueueChild => if place == Allocated then Some(Moves(job, Queued)) else None
    case Expire(now) => if place == Queued && job.IsExpired(now) then Some(Vanishes(job)) else None
    case Take(now) =>
      if place == Queued && CanTake(s, job, now)
      then Some(Moves(Started(job, now), InFlight).(takes := true)) else None
    case Enter => if place == InFlight then Some(Moves(job, Processing)) else None
    case Leave => if place == Processing then Some(Moves(job, Leaving)) else None
    case Ack => if place == Leaving then Some(AckEffect(job, job.queue, true)) else None
    case BatchAck(queue) => if place == Leaving then Some(AckEffect(job, queue, false)) else None
    case Fail(now) => if place == Leaving then Some(FailEffect(job, now)) else None
    case CancelActive => if place == Leaving then Some(Vanishes(job).(freesSlot := true, freesKey := true)) else None
    case Delay(delay, now) =>
      if place == Leaving
      then Some(Moves(job.(runAt := now + delay, startedAt := 0), Queued).(freesSlot := true)) else None
    case DiscardActive => if place == Leaving then Some(Moves(job, Dead).(freesSlot := true)) else None
    case TimeOut => if place == Leaving then Some(Moves(job, TimedOut).(freesSlot := true)) else None
    case Requeue(now) => if place == TimedOut then Some(RequeueEffect(job, now)) else None
    case Suspect(now) =>
      if place == Processing && IsStalled(job, now)
      then Some(Moves(job, Processing).(mark := Suspects(Seen(now, job.stallCount)))) else None
    case CountStall =>
      if id in s.suspects && s.suspects[id].Seen?
      then Some(Moves(job, place).(note := Count(StallCount(s, id) + 1),
                                   mark := Suspects(Judged(s.suspects[id], StallCount(s, id) + 1)))) else None
    case HandleStall =>
      if id in s.suspects && !s.suspects[id].Seen? then Some(HandledEffect(place, job, s.suspects[id])) else None
    case Heartbeat(now) =>
      if place == Processing then Some(Moves(job.(lastHeartbeat := now), Processing)) else None
    case HeartbeatDone(_) => Some(Moves(job, place).(note := Clear))
    case Wipe => if place == Processing then Some(Vanishes(job)) else None
    case ReleaseDeps =>
      if place == WaitingDeps && !DepsPending(s.completed, job) then Some(Moves(job, Queued).(hides := true)) else None
    case CancelWaiting =>
      if found then Some(Vanishes(job).(freesKey := true))
      else if place == WaitingDeps || place == WaitingChildren then Some(Vanishes(job)) else None
    case DiscardQueued => if found then Some(Moves(job, Dead)) else None
    case DropQueued => if place == Queued then Some(Vanishes(job).(freesKey := true)) else None
    case Promote(now) => if found && job.runAt > now then Some(Moves(job.(runAt := now), Queued)) else None
    case ChangePriority(priority) =>
      if Retrievable(s, id) then Some(Moves(job.(priority := priority), place)) else None
    case UpdateData(data) =>
      if found || place == Processing || place == Dead then Some(Moves(job.(data := data), place)) else None
    case RetryDead(now) => if place == Dead then Some(Moves(job.(attempts := 0, runAt := now), Queued)) else None
    case DropDead => if place == Dead then Some(Vanishes(job)) else None
  }

  function JobsAfter(jobs: map<JobId, Placed>, id: JobId, e: Effect): map<JobId, Placed> {
    if e.after.Some? then jobs[id := e.after.value] else jobs - {id}
  }

  function LimitersAfter(limiters: map<string, Limiter>, job: Job, e: Effect): map<string, Limiter> {
    if e.takes then
      if job.queue in limiters then limiters[job.queue := limiters[job.queue].Acquire()] else limiters
    else if e.freesSlot && e.queue in limiters then limiters[e.queue := limiters[e.queue].Release()]
    else limiters
  }

  function GroupsAfter(groups: set<(string, string)>, job: Job, e: Effect): set<(string, string)> {
    if job.groupId.None? then groups
    else if e.takes then groups + {(job.queue, job.groupId.value)}
    else if e.freesGroup then groups - {(e.queue, job.groupId.value)}
    else groups
  }

  function KeysAfter(keys: set<(string, string)>, job: Job, e: Effect): set<(string, string)> {
    if job.uniqueKey.Some? && e.freesKey then keys - {(e.queue, job.uniqueKey.value)} else keys
  }

  function Apply(s: State, id: JobId, e: Effect): State
    requires id in s.jobs
  {
    var job := s.jobs[id].job;
    s.(jobs := JobsAfter(s.jobs, id, e),
       limiters := LimitersAfter(s.limiters, job, e),
       groups := GroupsAfter(s.groups, job, e),
       keys := KeysAfter(s.keys, job, e),
       acked := if e.acks then s.acked + {id} else s.acked,
       completed := if e.completes then s.completed + {id} else s.completed,
       stalled := match e.note case Keep => s.stalled case Clear => s.stalled - {id}
                               case Count(n) => s.stalled[id := n],
       suspects := match e.mark case Unmarked => s.suspects case Cleared => s.suspects - {id}
                                case Suspects(suspicion) => s.suspects[id := suspicion],
       released := if e.hides then s.released + {id}
                   else if e.after.Some? && e.after.value.place == Queued then s.released else s.released - {id})
  }

  function Act(s: State, id: JobId, action: Action): State {
    if id in s.jobs && EffectOf(s, id, action).Some? then Apply(s, id, EffectOf(s, id, action).value) else s
  }

  /** `on_child_completed`: the told child is done with; its parent counts it and is queued after the last. */
  function TellParent(s: State, id: JobId): State {
    if !At(s, id, Notifying) then s
    else
      var s' := Apply(s, id, Vanishes(s.jobs[id].job));
      if s.jobs[id].job.parentId.None? || !At(s', s.jobs[id].job.parentId.value, WaitingChildren) then s'
      else
        var p := s.jobs[id].job.parentId.value;
        var told := s'.jobs[p].job.(childrenCompleted := s'.jobs[p].job.childrenCompleted + 1);
        Apply(s', p, Moves(told, if told.childrenCompleted >= |told.childrenIds| then Queued else WaitingChildren))
  }

  /** What `obliterate` removes under the shard lock. The jobs in processing are swept afterwards, one by
      one, and jobs that are between two containers escape it. */
  predicate Obliterates(p: Placed, queue: string) {
    p.job.queue == queue && p.place in {WaitingDeps, WaitingChildren, Queued, Dead}
  }

  function Obliterated(s: State, queue: string): State {
    var gone := set id | id in s.jobs && Obliterates(s.jobs[id], queue);
    s.(jobs := s.jobs - gone, released := s.released - gone,
       keys := (set k | k in s.keys && k.0 != queue),
       limiters := s.limiters - {queue}, paused := s.paused - {queue})
  }

  /** A completed job is forgotten; the background cleanup drops its custom id too. */
  function Forgotten(s: State, id: JobId, customIdToo: bool): State {
    if id !in s.completed then s
    else s.(completed := s.completed - {id},
            customIds := if customIdToo then map c | c in s.customIds && s.customIds[c] != id :: s.customIds[c]
                         else s.customIds)
  }

  // ---- Steps and runs ----

  datatype Step =
    | On(id: JobId, action: Action)
    | Push(queue: string, input: JobInput, newId: JobId, now: nat)
    | BurnId
    | PushFlow(queue: string, data: string, children: seq<FlowChild>, priority: int, now: nat)
    | Tell(id: JobId)
    | ForgetCompleted(id: JobId, customIdToo: bool)
    | Obliterate(queue: string)
    | SetConcurrency(queue: string, limit: nat)
    | ClearConcurrency(queue: string)
    | Pause(queue: string)
    | Resume(queue: string)

  /** A step that is not enabled leaves the state as it is. */
  function Next(s: State, step: Step): State {
    match step
    case On(id, action) => Act(s, id, action)
    case Push(queue, input, newId, now) => if newId >= s.nextId then PushAs(s, queue, input, newId, now).state else s
    case BurnId => s.(nextId := s.nextId + 1)
    case PushFlow(queue, data, children, priority, now) =>
      if children == [] then s else OpenFlow(s, queue, data, children, priority, now)
    case Tell(id) => TellParent(s, id)
    case ForgetCompleted(id, customIdToo) => Forgotten(s, id, customIdToo)
    case Obliterate(queue) => Obliterated(s, queue)
    case SetConcurrency(queue, limit) => s.(limiters := s.limiters[queue := Limiter(limit, 0)])
    case ClearConcurrency(queue) => s.(limiters := s.limiters - {queue})
    case Pause(queue) => s.(paused := s.paused + {queue})
    case Resume(queue) => s.(paused := s.paused - {queue})
  }

  function Run(s: State, steps: seq<Step>): State
    decreases |steps|
  {
    if steps == [] then s else Run(Next(s, steps[0]), steps[1..])
  }

  // ---- Sequences of steps ----

  lemma RunNone(s: State)
    ensures Run(s, []) == s
  {
  }

  lemma RunOne(s: State, a: Step)
    ensures Run(s, [a]) == Next(s, a)
  {
    hide Next;
    assert [a][1..] == [];
  }

  lemma RunTwo(s: State, a: Step, b: Step)
    ensures Run(s, [a, b]) == Next(Next(s, a), b)
  {
    hide Next;
    assert [a, b][1..] == [b];
    RunOne(Next(s, a), b);
  }

  lemma RunThree(s: State, a: Step, b: Step, c: Step)
    ensures Run(s, [a, b, c]) == Next(Next(Next(s, a), b), c)
  {
    hide Next;
    assert [a, b, c][1..] == [b, c];
    RunTwo(Next(s, a), b, c);
  }

  lemma {:induction false} RunAppend(s: State, a: seq<Step>, b: seq<Step>)
    ensures Run(s, a + b) == Run(Run(s, a), b)
    decreases |a|
  {
    hide Next;
    if a == [] {
      assert a + b == b;
    } else {
      RunAppend(Next(s, a[0]), a[1..], b);
      assert (a + b)[1..] == a[1..] + b;
    }
  }

  /** All a push can do to the jobs and the keys. */
  ghost predicate PushShaped(s: State, queue: string, input: JobInput, id: JobId, now: nat, r: PushResult) {
    var job, s' := CreateJob(id, queue, input, now), r.state;
    && s' == s.(jobs := s'.jobs, keys := s'.keys, customIds := s'.customIds, debounce := s'.debounce,
                nextId := s'.nextId)
    && (!r.outcome.Created? ==> s'.jobs == s.jobs && s'.keys == s.keys && s'.nextId in {s.nextId, id + 1})
    && (r.outcome.Created? ==>
          && s'.jobs == s.jobs[id := Placed(StartPlace(s.completed, job), job)]
          && s'.nextId == id + 1
          && s'.keys == (if job.uniqueKey.Some? then s.keys + {(queue, job.uniqueKey.value)} else s.keys)
          && (job.uniqueKey.Some? ==> (queue, job.uniqueKey.value) !in s.keys))
  }

  lemma StoreShape(s: State, s': State, queue: string, input: JobInput, id: JobId, now: nat)
    requires s' == s.(debounce := s'.debounce)
    ensures PushShaped(s, queue, input, id, now, Store(s', queue, input, id, now))
  {
    assert CreateJob(id, queue, input, now).uniqueKey == input.uniqueKey;
    hide CreateJob, StartPlace;
  }

  lemma PushShape(s: State, queue: string, input: JobInput, id: JobId, now: nat)
    ensures PushShaped(s, queue, input, id, now, PushAs(s, queue, input, id, now))
  {
    StoreShape(s, NoteDebounce(s, queue, input, now), queue, input, id, now);
    hide Store, CreateJob, StartPlace;
  }

  predicate IsQuiet(step: Step) {
    !step.On? && !step.Push? && !step.PushFlow? && !step.Tell? && !step.Obliterate?
  }

  lemma QuietShape(s: State, step: Step)
    requires IsQuiet(step)
    ensures var s' := Next(s, step);
            && s' == s.(nextId := s'.nextId, completed := s'.completed, customIds := s'.customIds,
                        limiters := s'.limiters, paused := s'.paused)
            && s'.nextId >= s.nextId && s'.completed <= s.completed
  {
  }

  /** A job fresh out of `push_flow`. */
  predicate Plain(p: Placed) {
    && (p.place == Allocated || p.place == WaitingChildren)
    && p.job.uniqueKey.None? && p.job.groupId.None? && p.job.customId.None?
    && p.job.maxAttempts == 0 && p.job.dependsOn == [] && p.job.lastHeartbeat == 0
  }

  ghost predicate Within(few: map<JobId, Placed>, many: map<JobId, Placed>) {
    forall k | k in few :: k in many && few[k] == many[k]
  }

  lemma FlowShape(s: State, queue: string, data: string, children: seq<FlowChild>, priority: int, now: nat)
    ensures var s' := OpenFlow(s, queue, data, children, priority, now);
            && s' == s.(jobs := s'.jobs, nextId := s.nextId + |children| + 1)
            && (forall k | k in s'.jobs :: (k in s.jobs && s'.jobs[k] == s.jobs[k])
                                           || (s.nextId <= k < s'.nextId && s'.jobs[k].job.id == k
                                               && Plain(s'.jobs[k])))
            && (forall k | k in s.jobs && k < s.nextId :: k in s'.jobs && s'.jobs[k] == s.jobs[k])
  {
  }

  lemma ObliterateShape(s: State, queue: string)
    ensures var s' := Obliterated(s, queue);
            && s' == s.(jobs := s'.jobs, keys := s'.keys, limiters := s'.limiters, paused := s'.paused,
                        released := s'.released)
            && Within(s'.jobs, s.jobs)
            && (forall k | k in s.jobs && !Obliterates(s.jobs[k], queue) :: k in s'.jobs)
            && (forall k | k in s'.jobs :: !Obliterates(s'.jobs[k], queue))
  {
  }

  /** Ids are handed out once. */
  ghost predicate Fresh(s: State) {
    && (forall id | id in s.jobs :: id < s.nextId && s.jobs[id].job.id == id)
    && (forall id | id in s.acked :: id < s.nextId)
    && (forall id | id in s.completed :: id < s.nextId)
  }

  lemma EffectKeepsIdentity(s: State, id: JobId, action: Action)
    requires id in s.jobs && EffectOf(s, id, action).Some?
    ensures var e := EffectOf(s, id, action).value;
            e.after.Some? ==>
              && e.after.value.job.id == s.jobs[id].job.id
              && e.after.value.job.queue == s.jobs[id].job.queue
              && e.after.value.job.parentId == s.jobs[id].job.parentId
              && e.after.value.job.childrenIds == s.jobs[id].job.childrenIds
              && e.after.value.job.childrenCompleted == s.jobs[id].job.childrenCompleted
              && e.after.value.job.customId == s.jobs[id].job.customId
  {
    hide *;
    if OnTheWayOut(action) {
      EffectKeepsIdentityOut(s, id, action);
    } else {
      EffectKeepsIdentityElse(s, id, action);
    }
  }

  lemma EffectKeepsIdentityOut(s: State, id: JobId, action: Action)
    requires id in s.jobs && EffectOf(s, id, action).Some? && OnTheWayOut(action)
    ensures var e := EffectOf(s, id, action).value;
            e.after.Some? ==>
              && e.after.value.job.id == s.jobs[id].job.id
              && e.after.value.job.queue == s.jobs[id].job.queue
              && e.after.value.job.parentId == s.jobs[id].job.parentId
              && e.after.value.job.childrenIds == s.jobs[id].job.childrenIds
              && e.after.value.job.childrenCompleted == s.jobs[id].job.childrenCompleted
              && e.after.value.job.customId == s.jobs[id].job.customId
  {
  }

  lemma EffectKeepsIdentityElse(s: State, id: JobId, action: Action)
    requires id in s.jobs && EffectOf(s, id, action).Some? && !OnTheWayOut(action)
    ensures var e := EffectOf(s, id, action).value;
            e.after.Some? ==>
              && e.after.value.job.id == s.jobs[id].job.id
              && e.after.value.job.queue == s.jobs[id].job.queue
              && e.after.value.job.parentId == s.jobs[id].job.parentId
              && e.after.value.job.childrenIds == s.jobs[id].job.childrenIds
              && e.after.value.job.childrenCompleted == s.jobs[id].job.childrenCompleted
              && e.after.value.job.customId == s.jobs[id].job.customId
  {
    hide AckEffect, FailEffect, RequeueEffect, StallCount, DepsPending, IsStalled, Judged, Retrievable, CanTake;
  }

  lemma ActKeepsFresh(s: State, id: JobId, action: Action)
    requires Fresh(s)
    ensures Fresh(Act(s, id, action)) && Act(s, id, action).nextId == s.nextId
  {
    hide EffectOf, LimitersAfter, GroupsAfter, KeysAfter;
    if id in s.jobs && EffectOf(s, id, action).Some? {
      EffectKeepsIdentity(s, id, action);
    }
  }

  lemma TellKeepsFresh(s: State, id: JobId)
    requires Fresh(s)
    ensures Fresh(TellParent(s, id)) && TellParent(s, id).nextId == s.nextId
  {
    hide LimitersAfter, GroupsAfter, KeysAfter;
  }

  lemma StepKeepsFresh(s: State, step: Step)
    requires Fresh(s)
    ensures Fresh(Next(s, step)) && Next(s, step).nextId >= s.nextId
  {
    hide PushAs, OpenFlow, Obliterated, Act, TellParent;
    match step
    case On(id, action) => ActKeepsFresh(s, id, action);
    case Push(queue, input, newId, now) => PushShape(s, queue, input, newId, now);
    case PushFlow(queue, data, children, priority, now) => FlowShape(s, queue, data, children, priority, now);
    case Tell(id) => TellKeepsFresh(s, id);
    case Obliterate(queue) => ObliterateShape(s, queue);
    case _ =>
  }
}
