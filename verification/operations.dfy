/** What the operations of the source come to when they run without interruption: each is a few engine
    steps, and these lemmas say what the steps add up to. */
module Operations {
  import opened Protocol
  import opened Pull
  import opened Engine
  import opened Containers

  /** The manager's tables beside the containers and the index. */
  datatype Tables = Tables(
    limiters: map<string, Limiter>,
    groups: set<(string, string)>,
    keys: set<(string, string)>,
    completed: set<JobId>,
    stalled: map<JobId, nat>,
    paused: set<string>,
    customIds: map<string, JobId>,
    debounce: map<(string, string), nat>,
    nextId: JobId)

  function TablesOf(s: State): Tables {
    Tables(s.limiters, s.groups, s.keys, s.completed, s.stalled, s.paused, s.customIds, s.debounce, s.nextId)
  }

  function ReleaseConcurrency(limiters: map<string, Limiter>, queue: string): map<string, Limiter> {
    if queue in limiters then limiters[queue := limiters[queue].Release()] else limiters
  }

  function ReleaseGroup(groups: set<(string, string)>, queue: string, group: Option<string>): set<(string, string)> {
    if group.Some? then groups - {(queue, group.value)} else groups
  }

  function RemoveUniqueKey(keys: set<(string, string)>, queue: string, key: Option<string>): set<(string, string)> {
    if key.Some? then keys - {(queue, key.value)} else keys
  }

  // ---- Leaving a worker's hands ----

  predicate LeavesBy(action: Action) {
    action.Ack? || action.BatchAck? || action.Fail? || action.CancelActive? || action.Delay? || action.DiscardActive?
  }

  function LeavingEffect(job: Job, action: Action): Effect
    requires LeavesBy(action)
  {
    match action
    case Ack => AckEffect(job, job.queue, true)
    case BatchAck(queue) => AckEffect(job, queue, false)
    case Fail(now) => FailEffect(job, now)
    case CancelActive => Vanishes(job).(freesSlot := true, freesKey := true)
    case Delay(delay, now) => Moves(Delayed(job, delay, now), Queued).(freesSlot := true)
    case DiscardActive => Moves(job, Dead).(freesSlot := true)
  }

  /** Out of processing, then the locked part. */
  function LeaveBy(id: JobId, action: Action): (steps: seq<Step>)
    ensures |steps| == 2
  {
    [On(id, Leave), On(id, action)]
  }

  predicate Active(s: State, id: JobId) {
    At(s, id, Processing) && s.jobs[id].job.id == id && id !in s.released
  }

  lemma LeaveThen(s: State, id: JobId, action: Action)
    requires LeavesBy(action)
    ensures At(s, id, Processing) && id !in s.released ==>
              Run(s, LeaveBy(id, action)) == Apply(s, id, LeavingEffect(s.jobs[id].job, action))
    ensures !At(s, id, Processing) && !At(s, id, Leaving) ==> Run(s, LeaveBy(id, action)) == s
  {
    RunTwo(s, On(id, Leave), On(id, action));
    LeaveMeans(s, id);
    hide Run, Act, LeavingEffect;
    if At(s, id, Processing) && id !in s.released {
      var s1 := s.(jobs := s.jobs[id := Placed(Leaving, s.jobs[id].job)]);
      LeavingMeans(s1, id, action);
      ApplyForgets(s, s1, id, Leaving, LeavingEffect(s.jobs[id].job, action));
    } else if !At(s, id, Processing) && !At(s, id, Leaving) {
      NothingLeaves(s, id, action);
    }
  }

  lemma LeaveMeans(s: State, id: JobId)
    ensures At(s, id, Processing) && id !in s.released ==>
              Act(s, id, Leave) == s.(jobs := s.jobs[id := Placed(Leaving, s.jobs[id].job)])
    ensures !At(s, id, Processing) ==> Act(s, id, Leave) == s
  {
  }

  lemma NothingLeaves(s: State, id: JobId, action: Action)
    requires LeavesBy(action) && !At(s, id, Leaving)
    ensures Act(s, id, action) == s
  {
    hide Apply, AckEffect, FailEffect;
  }

  lemma LeavingMeans(s: State, id: JobId, action: Action)
    requires LeavesBy(action) && At(s, id, Leaving)
    ensures Act(s, id, action) == Apply(s, id, LeavingEffect(s.jobs[id].job, action))
  {
    hide Apply, AckEffect, FailEffect;
  }

  /** Where the job was just before makes no difference to the effect. */
  lemma ApplyForgets(s: State, s1: State, id: JobId, place: Place, e: Effect)
    requires id in s.jobs && s1 == s.(jobs := s.jobs[id := Placed(place, s.jobs[id].job)])
    ensures Apply(s1, id, e) == Apply(s, id, e)
  {
    hide LimitersAfter, GroupsAfter, KeysAfter;
    assert JobsAfter(s1.jobs, id, e) == JobsAfter(s.jobs, id, e);
  }

  /** A job that moves, or changes, and nothing is completed or hidden from the index. */
  predicate Settles(s: State, id: JobId, e: Effect, after: Option<Placed>) {
    && e.after == after && !e.completes && !e.hides
    && (after.Some? ==> after.value.job.id == id && Resting(after.value.place))
  }

  lemma FailRetries(s: State, id: JobId, now: nat)
    requires Active(s, id) && !Failed(s.jobs[id].job).ShouldGoToDlq()
    ensures var job, e, t := s.jobs[id].job, LeavingEffect(s.jobs[id].job, Action.Fail(now)), TablesOf(s);
            && Settles(s, id, e, Some(Placed(Queued, Retried(Failed(job), now)))) && Retried(Failed(job), now).id == id
            && TablesOf(Apply(s, id, e)) == t.(limiters := ReleaseConcurrency(t.limiters, job.queue),
                                               groups := ReleaseGroup(t.groups, job.queue, job.groupId))
  {
  }

  lemma FailBuries(s: State, id: JobId, now: nat)
    requires Active(s, id) && Failed(s.jobs[id].job).ShouldGoToDlq() && !s.jobs[id].job.removeOnFail
    ensures var job, e, t := s.jobs[id].job, LeavingEffect(s.jobs[id].job, Action.Fail(now)), TablesOf(s);
            && Settles(s, id, e, Some(Placed(Dead, Failed(job)))) && Failed(job).id == id
            && TablesOf(Apply(s, id, e)) == t.(limiters := ReleaseConcurrency(t.limiters, job.queue),
                                               groups := ReleaseGroup(t.groups, job.queue, job.groupId))
  {
  }

  lemma FailVanishes(s: State, id: JobId, now: nat)
    requires Active(s, id) && Failed(s.jobs[id].job).ShouldGoToDlq() && s.jobs[id].job.removeOnFail
    ensures var job, e, t := s.jobs[id].job, LeavingEffect(s.jobs[id].job, Action.Fail(now)), TablesOf(s);
            && Settles(s, id, e, None)
            && TablesOf(Apply(s, id, e)) == t.(limiters := ReleaseConcurrency(t.limiters, job.queue),
                                               groups := ReleaseGroup(t.groups, job.queue, job.groupId),
                                               stalled := t.stalled - {id})
  {
  }

  lemma CancelActiveMeans(s: State, id: JobId)
    requires Active(s, id)
    ensures var job, e, t := s.jobs[id].job, LeavingEffect(s.jobs[id].job, CancelActive), TablesOf(s);
            && Settles(s, id, e, None)
            && TablesOf(Apply(s, id, e)) == t.(limiters := ReleaseConcurrency(t.limiters, job.queue),
                                               keys := RemoveUniqueKey(t.keys, job.queue, job.uniqueKey))
  {
  }

  function Delayed(job: Job, delay: nat, now: nat): Job {
    job.(runAt := now + delay, startedAt := 0)
  }

  lemma DelayMeans(s: State, id: JobId, delay: nat, now: nat)
    requires Active(s, id)
    ensures var job, e, t := s.jobs[id].job, LeavingEffect(s.jobs[id].job, Delay(delay, now)), TablesOf(s);
            && Settles(s, id, e, Some(Placed(Queued, Delayed(job, delay, now)))) && Delayed(job, delay, now).id == id
            && TablesOf(Apply(s, id, e)) == t.(limiters := ReleaseConcurrency(t.limiters, job.queue))
  {
  }

  lemma DiscardActiveMeans(s: State, id: JobId)
    requires Active(s, id)
    ensures var job, e, t := s.jobs[id].job, LeavingEffect(s.jobs[id].job, DiscardActive), TablesOf(s);
            && Settles(s, id, e, Some(Placed(Dead, job)))
            && TablesOf(Apply(s, id, e)) == t.(limiters := ReleaseConcurrency(t.limiters, job.queue))
  {
  }

  /** An ack under some queue name, the parent not told. */
  lemma BatchAckMeans(s: State, id: JobId, queue: string)
    requires Active(s, id)
    ensures var job, e, t := s.jobs[id].job, LeavingEffect(s.jobs[id].job, BatchAck(queue)), TablesOf(s);
            && e.after == None && e.completes == !job.removeOnComplete && !e.hides
            && TablesOf(Apply(s, id, e)) == t.(limiters := ReleaseConcurrency(t.limiters, queue),
                                               groups := ReleaseGroup(t.groups, queue, job.groupId),
                                               keys := RemoveUniqueKey(t.keys, queue, job.uniqueKey),
                                               completed := if job.removeOnComplete then t.completed
                                                   else t.completed + {id},
                                               stalled := if job.removeOnComplete then t.stalled - {id} else t.stalled)
  {
  }

  // ---- Timing out ----

  function TimingOut(id: JobId, now: nat): seq<Step> {
    [On(id, Leave), On(id, TimeOut), On(id, Requeue(now))]
  }

  function TimeOutEffect(job: Job, now: nat): Effect {
    RequeueEffect(job, now).(freesSlot := true)
  }

  lemma TimeOutRuns(s: State, id: JobId, now: nat)
    requires Active(s, id)
    ensures Run(s, TimingOut(id, now)) == Apply(s, id, TimeOutEffect(s.jobs[id].job, now))
  {
    var job, e := s.jobs[id].job, RequeueEffect(s.jobs[id].job, now);
    var s2 := s.(jobs := s.jobs[id := Placed(TimedOut, job)], limiters := ReleaseConcurrency(s.limiters, job.queue));
    RunThree(s, On(id, Leave), On(id, TimeOut), On(id, Requeue(now)));
    TimesOut(s, s2, id);
    RequeueMeans(s2, id, now);
    RequeueNeverVanishes(job, now);
    hide Run, Act, ReleaseConcurrency, RequeueEffect;
    assert s2.jobs[id := e.after.value] == s.jobs[id := e.after.value];
    SlotFirst(s, s2, id, e);
  }

  lemma TimesOut(s: State, s2: State, id: JobId)
    requires Active(s, id)
    requires var job := s.jobs[id].job;
             s2 == s.(jobs := s.jobs[id := Placed(TimedOut, job)],
                      limiters := ReleaseConcurrency(s.limiters, job.queue))
    ensures Act(Act(s, id, Leave), id, TimeOut) == s2
  {
    var s1 := s.(jobs := s.jobs[id := Placed(Leaving, s.jobs[id].job)]);
    assert Act(s, id, Leave) == s1;
    assert s1.jobs[id := Placed(TimedOut, s.jobs[id].job)] == s2.jobs;
  }

  lemma RequeueMeans(s: State, id: JobId, now: nat)
    requires At(s, id, TimedOut)
    ensures Act(s, id, Requeue(now)) == Apply(s, id, RequeueEffect(s.jobs[id].job, now))
  {
    hide Failed, Retried, Job.ShouldGoToDlq;
  }

  lemma RequeueNeverVanishes(job: Job, now: nat)
    ensures var e := RequeueEffect(job, now);
            e.after.Some? && !e.takes && !e.freesSlot && e.queue == job.queue
                && TimeOutEffect(job, now) == e.(freesSlot := true)
  {
  }

  /** Giving the slot back first or with the rest is the same. */
  lemma SlotFirst(s: State, s2: State, id: JobId, e: Effect)
    requires id in s.jobs && id in s2.jobs && s2.jobs[id].job == s.jobs[id].job
    requires s2 == s.(jobs := s2.jobs, limiters := ReleaseConcurrency(s.limiters, s.jobs[id].job.queue))
    requires JobsAfter(s2.jobs, id, e) == JobsAfter(s.jobs, id, e)
    requires !e.takes && !e.freesSlot && e.queue == s.jobs[id].job.queue
    ensures Apply(s2, id, e) == Apply(s, id, e.(freesSlot := true))
  {
  }

  lemma TimeOutMeans(s: State, id: JobId, now: nat)
    requires Active(s, id)
    ensures var job, t := s.jobs[id].job, TablesOf(s);
            var e := TimeOutEffect(job, now);
            && Settles(s, id, e, Some(if Failed(job).ShouldGoToDlq() then Placed(Dead, Failed(job))
                                      else Placed(Queued, Retried(Failed(job), now))))
            && Failed(job).id == id && Retried(Failed(job), now).id == id
            && TablesOf(Apply(s, id, e)) == t.(limiters := ReleaseConcurrency(t.limiters, job.queue))
  {
  }

  // ---- Acking a flow child ----

  function Acking(id: JobId): seq<Step> {
    [On(id, Leave), On(id, Ack), Tell(id)]
  }

  function CountEffect(parent: Job): Effect {
    var told := parent.(childrenCompleted := parent.childrenCompleted + 1);
    Moves(told, if told.childrenCompleted >= |told.childrenIds| then Queued else WaitingChildren)
  }

  /** `on_child_completed`. */
  function CountChild(s: State, p: JobId): State {
    if At(s, p, WaitingChildren) then Apply(s, p, CountEffect(s.jobs[p].job)) else s
  }

  /** An ack tells the parent, and is otherwise like a batch ack under the job's own queue. */
  lemma AckMeans(s: State, id: JobId)
    requires Active(s, id)
    ensures var job := s.jobs[id].job;
            var s' := Apply(s, id, LeavingEffect(job, BatchAck(job.queue)));
            Run(s, Acking(id)) == if job.parentId.Some? then CountChild(s', job.parentId.value) else s'
  {
    var job := s.jobs[id].job;
    var s1 := Apply(s, id, LeavingEffect(job, Ack));
    RunThree(s, On(id, Leave), On(id, Ack), Tell(id));
    RunTwo(s, On(id, Leave), On(id, Ack));
    LeaveThen(s, id, Ack);
    assert s1 == Next(Next(s, On(id, Leave)), On(id, Ack));
    hide Run, Act;
    NotifyingIsBrief(s, s1, id);
  }

  lemma NotifyingIsBrief(s: State, s1: State, id: JobId)
    requires Active(s, id) && s1 == Apply(s, id, LeavingEffect(s.jobs[id].job, Ack))
    ensures var job := s.jobs[id].job;
            var s' := Apply(s, id, LeavingEffect(job, BatchAck(job.queue)));
            TellParent(s1, id) == if job.parentId.Some? then CountChild(s', job.parentId.value) else s'
  {
    var job := s.jobs[id].job;
    var s' := Apply(s, id, LeavingEffect(job, BatchAck(job.queue)));
    if job.parentId.Some? {
      assert At(s1, id, Notifying) && s1.jobs[id].job == job;
      assert s1.jobs - {id} == s'.jobs;
      assert Apply(s1, id, Vanishes(job)) == s';
    } else {
      assert s1 == s';
    }
  }

  lemma AckIdle(s: State, id: JobId)
    requires !At(s, id, Processing) && !At(s, id, Leaving) && !At(s, id, Notifying)
    ensures Run(s, Acking(id)) == s
  {
    RunThree(s, On(id, Leave), On(id, Ack), Tell(id));
  }

  lemma CountMeans(s: State, p: JobId)
    requires At(s, p, WaitingChildren) && s.jobs[p].job.id == p
    ensures var e := CountEffect(s.jobs[p].job);
            && TablesOf(CountChild(s, p)) == TablesOf(s) && CountChild(s, p) == Apply(s, p, e)
            && Settles(s, p, e, e.after) && e.after.Some? && e.after.value.job.queue == s.jobs[p].job.queue
  {
  }

  // ---- One step on one job ----

  lemma CancelWaitingMeans(s: State, id: JobId) returns (e: Effect)
    requires Retrievable(s, id) && s.jobs[id].place in {Queued, WaitingDeps, WaitingChildren}
    ensures Run(s, [On(id, CancelWaiting)]) == Apply(s, id, e) && Settles(s, id, e, None)
    ensures var job, t := s.jobs[id].job, TablesOf(s);
            TablesOf(Apply(s, id, e))
              == if s.jobs[id].place == Queued then t.(keys := RemoveUniqueKey(t.keys, job.queue, job.uniqueKey)) else t
    ensures !e.acks
  {
    RunOne(s, On(id, CancelWaiting));
    e := EffectOf(s, id, CancelWaiting).value;
  }

  lemma CancelWaitingIdle(s: State, id: JobId)
    requires !(Retrievable(s, id) && s.jobs[id].place in {Queued, WaitingDeps, WaitingChildren})
    requires id in s.released ==> At(s, id, Queued)
    ensures Run(s, [On(id, CancelWaiting)]) == s
  {
    RunOne(s, On(id, CancelWaiting));
  }

  /** An action that changes its job in place, or finds nothing to change. */
  predicate Amends(action: Action) {
    action.ChangePriority? || action.UpdateData? || action.Promote?
  }

  function Amended(job: Job, action: Action): Job
    requires Amends(action)
  {
    match action
    case ChangePriority(priority) => job.(priority := priority)
    case UpdateData(data) => job.(data := data)
    case Promote(now) => job.(runAt := now)
  }

  predicate CanAmend(s: State, id: JobId, action: Action)
    requires Amends(action)
  {
    && Retrievable(s, id)
    && match action
       case ChangePriority(_) => true
       case UpdateData(_) => s.jobs[id].place in {Queued, Processing, Dead}
       case Promote(now) => s.jobs[id].place == Queued && s.jobs[id].job.runAt > now
  }

  lemma AmendMeans(s: State, id: JobId, action: Action) returns (e: Effect)
    requires Amends(action) && CanAmend(s, id, action) && s.jobs[id].job.id == id
    ensures Run(s, [On(id, action)]) == Apply(s, id, e)
    ensures Settles(s, id, e, Some(Placed(s.jobs[id].place, Amended(s.jobs[id].job, action))))
    ensures Amended(s.jobs[id].job, action).queue == s.jobs[id].job.queue && Amended(s.jobs[id].job, action).id == id
    ensures TablesOf(Apply(s, id, e)) == TablesOf(s)
    ensures !e.acks
  {
    RunOne(s, On(id, action));
    e := EffectOf(s, id, action).value;
  }

  lemma AmendIdle(s: State, id: JobId, action: Action)
    requires Amends(action) && !CanAmend(s, id, action)
    requires id in s.released ==> At(s, id, Queued)
    ensures Run(s, [On(id, action)]) == s
  {
    RunOne(s, On(id, action));
  }

  lemma DiscardQueuedMeans(s: State, id: JobId) returns (e: Effect)
    requires Retrievable(s, id) && s.jobs[id].place == Queued && s.jobs[id].job.id == id
    ensures Run(s, [On(id, DiscardQueued)]) == Apply(s, id, e) && Settles(s, id, e, Some(Placed(Dead, s.jobs[id].job)))
    ensures TablesOf(Apply(s, id, e)) == TablesOf(s)
    ensures !e.acks
  {
    RunOne(s, On(id, DiscardQueued));
    e := EffectOf(s, id, DiscardQueued).value;
  }

  lemma DiscardQueuedIdle(s: State, id: JobId)
    requires !(Retrievable(s, id) && s.jobs[id].place == Queued)
    ensures Run(s, [On(id, DiscardQueued)]) == s
  {
    RunOne(s, On(id, DiscardQueued));
  }

  lemma DropQueuedMeans(s: State, id: JobId) returns (e: Effect)
    requires At(s, id, Queued)
    ensures Next(s, On(id, DropQueued)) == Apply(s, id, e) && Settles(s, id, e, None)
    ensures var job, t := s.jobs[id].job, TablesOf(s);
            TablesOf(Apply(s, id, e)) == t.(keys := RemoveUniqueKey(t.keys, job.queue, job.uniqueKey))
    ensures !e.acks
  {
    e := EffectOf(s, id, DropQueued).value;
  }

  function Revived(job: Job, now: nat): Job {
    job.(attempts := 0, runAt := now)
  }

  lemma RetryDeadMeans(s: State, id: JobId, now: nat) returns (e: Effect)
    requires At(s, id, Dead) && s.jobs[id].job.id == id
    ensures Next(s, On(id, RetryDead(now))) == Apply(s, id, e)
    ensures Settles(s, id, e, Some(Placed(Queued, Revived(s.jobs[id].job, now))))
            && Revived(s.jobs[id].job, now).id == id
    ensures TablesOf(Apply(s, id, e)) == TablesOf(s)
    ensures !e.acks
  {
    e := EffectOf(s, id, RetryDead(now)).value;
  }

  lemma DropDeadMeans(s: State, id: JobId) returns (e: Effect)
    requires At(s, id, Dead)
    ensures Next(s, On(id, DropDead)) == Apply(s, id, e) && Settles(s, id, e, None)
    ensures TablesOf(Apply(s, id, e)) == TablesOf(s)
    ensures !e.acks
  {
    e := EffectOf(s, id, DropDead).value;
  }

  lemma ReleaseDepsMeans(s: State, id: JobId) returns (e: Effect)
    requires At(s, id, WaitingDeps) && !DepsPending(s.completed, s.jobs[id].job)
    ensures Next(s, On(id, ReleaseDeps)) == Apply(s, id, e)
    ensures e.after == Some(Placed(Queued, s.jobs[id].job)) && e.hides && !e.completes
    ensures TablesOf(Apply(s, id, e)) == TablesOf(s)
    ensures !e.acks
  {
    e := EffectOf(s, id, ReleaseDeps).value;
  }

  lemma WipeMeans(s: State, id: JobId) returns (e: Effect)
    requires At(s, id, Processing)
    ensures Next(s, On(id, Wipe)) == Apply(s, id, e) && Settles(s, id, e, None)
    ensures TablesOf(Apply(s, id, e)) == TablesOf(s)
  {
    e := EffectOf(s, id, Wipe).value;
  }

  // ---- Stall checks and heartbeats ----

  function Suspected(job: Job, now: nat): Job {
    job.(lastHeartbeat := now, stallCount := job.stallCount + 1)
  }

  function Stalling(id: JobId, now: nat): seq<Step> {
    [On(id, Suspect(now)), On(id, CountStall), On(id, HandleStall)]
  }

  /** A silent job collected, counted and handled at one go. */
  function StallEffect(job: Job, count: nat, now: nat): Effect {
    (if count >= 3 then Moves(job, Dead) else Moves(Suspected(job, now), Processing)).(note := Count(count),
                                                                                       mark := Cleared)
  }

  lemma StallRuns(s: State, id: JobId, now: nat)
    requires Active(s, id) && IsStalled(s.jobs[id].job, now)
    ensures Run(s, Stalling(id, now)) == Apply(s, id, StallEffect(s.jobs[id].job, StallCount(s, id) + 1, now))
  {
    var job, count := s.jobs[id].job, StallCount(s, id) + 1;
    RunThree(s, On(id, Suspect(now)), On(id, CountStall), On(id, HandleStall));
    var seen := s.(suspects := s.suspects[id := Seen(now, job.stallCount)]);
    var judged := s.(suspects := s.suspects[id := Judged(Seen(now, job.stallCount), count)],
                     stalled := s.stalled[id := count]);
    StallCollects(s, seen, id, now);
    StallCounts(s, seen, judged, id, now);
    hide Run, Act;
    StallHandles(s, judged, id, now);
  }

  lemma StallCollects(s: State, seen: State, id: JobId, now: nat)
    requires Active(s, id) && IsStalled(s.jobs[id].job, now)
    requires seen == s.(suspects := s.suspects[id := Seen(now, s.jobs[id].job.stallCount)])
    ensures Act(s, id, Suspect(now)) == seen
  {
    assert s.jobs[id := s.jobs[id]] == s.jobs;
  }

  lemma StallCounts(s: State, seen: State, judged: State, id: JobId, now: nat)
    requires Active(s, id)
    requires var suspicion, count := Seen(now, s.jobs[id].job.stallCount), StallCount(s, id) + 1;
             && seen == s.(suspects := s.suspects[id := suspicion])
             && judged == s.(suspects := s.suspects[id := Judged(suspicion, count)], stalled := s.stalled[id := count])
    ensures Act(seen, id, CountStall) == judged
  {
    assert seen.jobs[id := seen.jobs[id]] == seen.jobs;
    assert StallCount(seen, id) == StallCount(s, id);
  }

  lemma StallHandles(s: State, judged: State, id: JobId, now: nat)
    requires Active(s, id)
    requires var job, count := s.jobs[id].job, StallCount(s, id) + 1;
             judged == s.(suspects := s.suspects[id := Judged(Seen(now, job.stallCount), count)],
                          stalled := s.stalled[id := count])
    ensures Act(judged, id, HandleStall) == Apply(s, id, StallEffect(s.jobs[id].job, StallCount(s, id) + 1, now))
  {
    var job, count := s.jobs[id].job, StallCount(s, id) + 1;
    var e, all := HandledEffect(Processing, job, Judged(Seen(now, job.stallCount), count)),
        StallEffect(job, count, now);
    assert EffectOf(judged, id, HandleStall) == Some(e);
    assert all == e.(note := Count(count)) && e.note == Keep && e.mark == Cleared;
    hide EffectOf, HandledEffect, StallEffect, StallCount, LimitersAfter, GroupsAfter, KeysAfter;
    assert judged.suspects - {id} == s.suspects - {id};
  }

  lemma StallMeans(s: State, id: JobId, now: nat)
    requires Active(s, id)
    ensures var job, t, count := s.jobs[id].job, TablesOf(s), StallCount(s, id) + 1;
            var e := StallEffect(job, count, now);
            && Settles(s, id, e, Some(if count >= 3 then Placed(Dead, job)
                                      else Placed(Processing, Suspected(job, now))))
            && Suspected(job, now).id == id && Suspected(job, now).queue == job.queue
            && TablesOf(Apply(s, id, e)) == t.(stalled := t.stalled[id := count])
  {
  }

  function Beating(id: JobId, now: nat): seq<Step> {
    [On(id, Heartbeat(now)), On(id, HeartbeatDone(now))]
  }

  function HeartbeatEffect(job: Job, now: nat): Effect {
    Moves(job.(lastHeartbeat := now), Processing).(note := Clear)
  }

  lemma HeartbeatRuns(s: State, id: JobId, now: nat)
    requires Active(s, id)
    ensures Run(s, Beating(id, now)) == Apply(s, id, HeartbeatEffect(s.jobs[id].job, now))
  {
    var p := Placed(Processing, s.jobs[id].job.(lastHeartbeat := now));
    var s1 := s.(jobs := s.jobs[id := p]);
    RunTwo(s, On(id, Heartbeat(now)), On(id, HeartbeatDone(now)));
    HeartbeatBegins(s, s1, id, now);
    hide Run, Act;
    HeartbeatEnds(s, s1, id, now);
  }

  lemma HeartbeatBegins(s: State, s1: State, id: JobId, now: nat)
    requires Active(s, id) && s1 == s.(jobs := s.jobs[id := Placed(Processing, s.jobs[id].job.(lastHeartbeat := now))])
    ensures Act(s, id, Heartbeat(now)) == s1
  {
  }

  lemma HeartbeatEnds(s: State, s1: State, id: JobId, now: nat)
    requires Active(s, id) && s1 == s.(jobs := s.jobs[id := Placed(Processing, s.jobs[id].job.(lastHeartbeat := now))])
    ensures Act(s1, id, HeartbeatDone(now)) == Apply(s, id, HeartbeatEffect(s.jobs[id].job, now))
  {
    assert s1.jobs[id := s1.jobs[id]] == s1.jobs;
  }

  lemma HeartbeatMeans(s: State, id: JobId, now: nat)
    requires Active(s, id)
    ensures var job, t := s.jobs[id].job, TablesOf(s);
            var e := HeartbeatEffect(job, now);
            && Settles(s, id, e, Some(Placed(Processing, job.(lastHeartbeat := now))))
            && TablesOf(Apply(s, id, e)) == t.(stalled := t.stalled - {id})
  {
  }

  // ---- Sweeps: the same operation on one job after the other ----

  datatype Sweep = EachBy(action: Action) | EachTimesOut(now: nat) | EachStalls(now: nat)

  function StepsOf(sweep: Sweep, id: JobId): seq<Step> {
    match sweep
    case EachBy(action) => [On(id, action)]
    case EachTimesOut(now) => TimingOut(id, now)
    case EachStalls(now) => Stalling(id, now)
  }

  function Swept(sweep: Sweep, ids: seq<JobId>): seq<Step> {
    if ids == [] then [] else StepsOf(sweep, ids[0]) + Swept(sweep, ids[1..])
  }

  lemma {:induction false} SweptAppend(sweep: Sweep, ids: seq<JobId>, id: JobId)
    ensures Swept(sweep, ids + [id]) == Swept(sweep, ids) + StepsOf(sweep, id)
  {
    if ids == [] {
      assert ids + [id] == [id];
      assert Swept(sweep, [id]) == StepsOf(sweep, id) + Swept(sweep, []);
    } else {
      SweptAppend(sweep, ids[1..], id);
      assert (ids + [id])[1..] == ids[1..] + [id];
    }
  }

  lemma SweepOne(s: State, s1: State, s2: State, sweep: Sweep, ids: seq<JobId>, id: JobId)
    requires s1 == Run(s, Swept(sweep, ids)) && s2 == Run(s1, StepsOf(sweep, id))
    requires NoneTwice(ids) && id !in ids
    ensures s2 == Run(s, Swept(sweep, ids + [id])) && NoneTwice(ids + [id])
  {
    hide Run, StepsOf, Swept;
    SweptAppend(sweep, ids, id);
    RunAppend(s, Swept(sweep, ids), StepsOf(sweep, id));
  }

  /** Only job `id` was touched. */
  ghost predicate Touches(s: State, s': State, id: JobId) {
    forall k | k != id :: (k in s.jobs <==> k in s'.jobs) && (k in s.jobs ==> s'.jobs[k] == s.jobs[k])
  }

  lemma ApplyTouches(s: State, id: JobId, e: Effect)
    requires id in s.jobs
    ensures Touches(s, Apply(s, id, e), id)
  {
  }

  // ---- Pulling ----

  function ActiveIn(groups: set<(string, string)>, queue: string): set<string> {
    set g | g in groups && g.0 == queue :: g.1
  }

  /** The steps of one scan over the heap in the order it yields. */
  function ScanSteps(order: seq<Job>, active: set<string>, now: nat): seq<Step> {
    if order == [] then []
    else if order[0].IsExpired(now) then [On(order[0].id, Expire(now))] + ScanSteps(order[1..], active, now)
    else if !order[0].IsReady(now) then []
    else if Busy(order[0], active) then ScanSteps(order[1..], active, now)
    else [On(order[0].id, Take(now)), On(order[0].id, Enter)]
  }

  function PullSteps(q: QueueView, now: nat): seq<Step> {
    if q.Admits() then ScanSteps(q.order, q.active, now) else []
  }

  function TakeEffect(job: Job, now: nat): Effect {
    Moves(Started(job, now), Processing).(takes := true)
  }

  lemma TakeMeans(s: State, id: JobId, now: nat)
    requires At(s, id, Queued) && s.jobs[id].job.id == id && CanTake(s, s.jobs[id].job, now)
    ensures var job, t := s.jobs[id].job, TablesOf(s);
            var e := TakeEffect(job, now);
            && Run(s, [On(id, Take(now)), On(id, Enter)]) == Apply(s, id, e)
            && Settles(s, id, e, Some(Placed(Processing, Started(job, now)))) && Started(job, now).id == id
            && TablesOf(Apply(s, id, e))
               == t.(limiters := if job.queue in t.limiters
                                 then t.limiters[job.queue := t.limiters[job.queue].Acquire()] else t.limiters,
                     groups := if job.groupId.Some? then t.groups + {(job.queue, job.groupId.value)} else t.groups)
  {
    var job := s.jobs[id].job;
    var s1 := Act(s, id, Take(now));
    RunTwo(s, On(id, Take(now)), On(id, Enter));
    assert s1 == Apply(s, id, Moves(Started(job, now), InFlight).(takes := true));
    hide Started, CanTake;
    assert Act(s1, id, Enter) == Apply(s1, id, Moves(Started(job, now), Processing));
    assert s1.jobs[id := Placed(Processing, Started(job, now))] == s.jobs[id := Placed(Processing, Started(job, now))];
  }

  lemma ExpireMeans(s: State, id: JobId, now: nat)
    requires At(s, id, Queued) && s.jobs[id].job.IsExpired(now)
    ensures Run(s, [On(id, Expire(now))]) == Apply(s, id, Vanishes(s.jobs[id].job))
    ensures Settles(s, id, Vanishes(s.jobs[id].job), None)
            && TablesOf(Apply(s, id, Vanishes(s.jobs[id].job))) == TablesOf(s)
  {
    RunOne(s, On(id, Expire(now)));
  }
}
