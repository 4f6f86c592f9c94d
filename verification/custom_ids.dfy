/** Custom job ids: a live job answers for its custom id, so pushing it again creates nothing. */
module CustomIds {
  import opened Protocol
  import opened Engine

  predicate Named(jobs: map<JobId, Placed>, id: JobId, c: string) {
    id in jobs && jobs[id].job.customId == Some(c)
  }

  /** Every live job with a custom id is the one the map knows under it. */
  ghost predicate Registered(s: State) {
    && (forall id, c | Named(s.jobs, id, c) :: c in s.customIds && s.customIds[c] == id)
    && (forall id | id in s.jobs && (s.jobs[id].job.parentId.Some? || id in s.completed) ::
          s.jobs[id].job.customId.None?)
  }

  /** No live job of that custom id is out of the index's sight when it is pushed again: none between
      two containers, and none queued by a dependency release. */
  ghost predicate InSight(s: State, c: string) {
    forall id | Named(s.jobs, id, c) :: Retrievable(s, id)
  }

  ghost predicate Guarded(s: State, step: Step) {
    step.Push? && step.input.customId.Some? ==> InSight(s, step.input.customId.value)
  }

  ghost predicate GuardedRun(s: State, steps: seq<Step>)
    decreases |steps|
  {
    steps == [] || (Guarded(s, steps[0]) && GuardedRun(Next(s, steps[0]), steps[1..]))
  }

  predicate KeyTaken(s: State, queue: string, input: JobInput) {
    input.uniqueKey.Some? && (queue, input.uniqueKey.value) in s.keys
  }

  /** What becomes of a push whose custom id names no job. */
  ghost predicate Stores(s: State, queue: string, input: JobInput, id: JobId, r: PushResult) {
    if KeyTaken(s, queue, input) then
      && r.outcome == Rejected && r.state.jobs == s.jobs && r.state.completed == s.completed
      && r.state.customIds == if input.customId.Some? then s.customIds - {input.customId.value} else s.customIds
    else
      && r.outcome == Created(id) && r.state.completed == s.completed
      && r.state.customIds == (if input.customId.Some? then s.customIds[input.customId.value := id] else s.customIds)
      && id in r.state.jobs && r.state.jobs == s.jobs[id := r.state.jobs[id]]
      && r.state.jobs[id].job.customId == input.customId && r.state.jobs[id].job.parentId == None
  }

  lemma StoreMeans(s: State, s': State, queue: string, input: JobInput, id: JobId, now: nat)
    requires s' == s.(debounce := s'.debounce)
    ensures Stores(s, queue, input, id, Store(s', queue, input, id, now))
  {
    CreatedBears(id, queue, input, now);
    hide CreateJob, StartPlace;
  }

  lemma CreatedBears(id: JobId, queue: string, input: JobInput, now: nat)
    ensures var job := CreateJob(id, queue, input, now); job.customId == input.customId && job.parentId == None
  {
  }

  lemma PushOutcomes(s: State, queue: string, input: JobInput, id: JobId, now: nat)
    ensures var r := PushAs(s, queue, input, id, now);
            if !Considered(s, queue, input, now) then r == PushResult(s, Rejected)
            else if ExistingJob(s, input).Some? then
              r == PushResult(NoteDebounce(s, queue, input, now), Existing(ExistingJob(s, input).value))
            else Stores(s, queue, input, id, r)
  {
    var s' := NoteDebounce(s, queue, input, now);
    assert ExistingJob(s', input) == ExistingJob(s, input);
    hide Store, Stores, ExistingJob;
    StoreMeans(s, s', queue, input, id, now);
  }

  lemma StoringKeepsRegistered(s: State, queue: string, input: JobInput, id: JobId, r: PushResult)
    requires Fresh(s) && Registered(s) && id >= s.nextId && Stores(s, queue, input, id, r)
    requires forall k | k in s.jobs && input.customId.Some? :: s.jobs[k].job.customId != input.customId
    ensures Registered(r.state)
  {
    assert forall k, c | Named(r.state.jobs, k, c) && k != id :: Named(s.jobs, k, c);
    hide KeyTaken;
  }

  lemma StoringBreaksRegistered(s: State, queue: string, input: JobInput, id: JobId, r: PushResult, hidden: JobId)
    requires Fresh(s) && Registered(s) && id >= s.nextId && Stores(s, queue, input, id, r)
    requires input.customId.Some? && Named(s.jobs, hidden, input.customId.value)
    ensures !Registered(r.state)
  {
    assert Named(r.state.jobs, hidden, input.customId.value);
    hide KeyTaken;
  }

  /** The job the map knows is answered with just when it is in sight. */
  lemma AnswersWhenInSight(s: State, input: JobInput)
    requires Registered(s) && input.customId.Some?
    ensures ExistingJob(s, input).Some? ==> InSight(s, input.customId.value)
    ensures ExistingJob(s, input).None? && InSight(s, input.customId.value) ==>
              forall k | k in s.jobs :: s.jobs[k].job.customId != input.customId
  {
    var c := input.customId.value;
    assert forall k | k in s.jobs && s.jobs[k].job.customId == input.customId :: Named(s.jobs, k, c);
  }

  /** A push keeps live jobs registered exactly when it is not considered at all, or bears no custom
      id, or no live job of its custom id is out of sight. */
  lemma PushExact(s: State, queue: string, input: JobInput, id: JobId, now: nat)
    requires Fresh(s) && Registered(s) && id >= s.nextId
    ensures Registered(Next(s, Push(queue, input, id, now)))
            <==> !Considered(s, queue, input, now) || input.customId.None? || InSight(s, input.customId.value)
  {
    var r := PushAs(s, queue, input, id, now);
    assert r.state == Next(s, Push(queue, input, id, now));
    PushOutcomes(s, queue, input, id, now);
    if input.customId.Some? {
      AnswersWhenInSight(s, input);
    }
    hide PushAs, Next, Considered, KeyTaken, Stores, Retrievable;
    if !Considered(s, queue, input, now) {
    } else if ExistingJob(s, input).Some? {
      NoNewNameKeepsRegistered(s, r.state);
    } else if input.customId.None? || InSight(s, input.customId.value) {
      StoringKeepsRegistered(s, queue, input, id, r);
    } else {
      var hidden :| Named(s.jobs, hidden, input.customId.value) && !Retrievable(s, hidden);
      StoringBreaksRegistered(s, queue, input, id, r, hidden);
    }
  }

  predicate KeepsName(p: Placed, e: Effect) {
    && (e.after.Some? ==> e.after.value.job.customId == p.job.customId && e.after.value.job.parentId == p.job.parentId)
    && (e.completes && e.after.Some? ==> p.job.parentId.Some?)
  }

  lemma ActionKeepsName(s: State, id: JobId, action: Action)
    requires id in s.jobs && EffectOf(s, id, action).Some?
    ensures KeepsName(s.jobs[id], EffectOf(s, id, action).value)
  {
    EffectKeepsIdentity(s, id, action);
    OnlyChildrenLinger(s, id, action);
    hide EffectOf;
  }

  lemma OnlyChildrenLinger(s: State, id: JobId, action: Action)
    requires id in s.jobs && EffectOf(s, id, action).Some?
    ensures var e := EffectOf(s, id, action).value;
            e.completes && e.after.Some? ==> s.jobs[id].job.parentId.Some?
  {
  }

  lemma EffectKeepsRegistered(s: State, s': State, id: JobId, e: Effect)
    requires Registered(s) && id in s.jobs && KeepsName(s.jobs[id], e)
    requires s'.jobs == JobsAfter(s.jobs, id, e) && s'.customIds == s.customIds
    requires s'.completed == if e.completes then s.completed + {id} else s.completed
    ensures Registered(s')
  {
    assert forall k, c | Named(s'.jobs, k, c) :: Named(s.jobs, k, c);
  }

  lemma ActionKeepsRegistered(s: State, id: JobId, action: Action)
    requires Registered(s)
    ensures Registered(Act(s, id, action))
  {
    hide EffectOf, Registered, JobsAfter;
    if id in s.jobs && EffectOf(s, id, action).Some? {
      ActionKeepsName(s, id, action);
      EffectKeepsRegistered(s, Act(s, id, action), id, EffectOf(s, id, action).value);
    }
  }

  ghost predicate NoNewName(s: State, s': State) {
    && s'.customIds == s.customIds && s'.completed == s.completed
    && (forall k | k in s'.jobs ::
          || (k in s.jobs && s'.jobs[k].job.customId == s.jobs[k].job.customId
                          && s'.jobs[k].job.parentId == s.jobs[k].job.parentId)
          || s'.jobs[k].job.customId.None?)
  }

  lemma NoNewNameKeepsRegistered(s: State, s': State)
    requires Registered(s) && NoNewName(s, s')
    ensures Registered(s')
  {
    assert forall k, c | Named(s'.jobs, k, c) :: Named(s.jobs, k, c);
  }

  lemma TellAddsNoName(s: State, id: JobId)
    ensures NoNewName(s, TellParent(s, id))
  {
  }

  lemma QuietKeepsRegistered(s: State, step: Step)
    requires Registered(s) && IsQuiet(step)
    ensures Registered(Next(s, step))
  {
    QuietShape(s, step);
    if step.ForgetCompleted? {
      assert Next(s, step) == Forgotten(s, step.id, step.customIdToo);
      hide Next;
      assert forall k, c | Named(s.jobs, k, c) :: k != step.id || step.id !in s.completed;
    } else {
      assert Next(s, step).customIds == s.customIds && Next(s, step).completed == s.completed;
      hide Next;
      NoNewNameKeepsRegistered(s, Next(s, step));
    }
  }

  lemma StepKeepsRegistered(s: State, step: Step)
    requires Fresh(s) && Registered(s) && Guarded(s, step)
    ensures Registered(Next(s, step))
  {
    var s' := Next(s, step);
    hide Registered, PushAs, OpenFlow, Obliterated, TellParent, Act;
    match step
    case On(id, action) => ActionKeepsRegistered(s, id, action);
    case Push(queue, input, newId, now) =>
      if newId >= s.nextId {
        PushExact(s, queue, input, newId, now);
      }
    case PushFlow(queue, data, children, priority, now) =>
      FlowShape(s, queue, data, children, priority, now);
      NoNewNameKeepsRegistered(s, s');
    case Tell(id) =>
      TellAddsNoName(s, id);
      NoNewNameKeepsRegistered(s, s');
    case Obliterate(queue) =>
      ObliterateShape(s, queue);
      NoNewNameKeepsRegistered(s, s');
    case _ => QuietKeepsRegistered(s, step);
  }

  lemma {:induction false} RunKeepsRegistered(s: State, steps: seq<Step>)
    requires Fresh(s) && Registered(s) && GuardedRun(s, steps)
    ensures Fresh(Run(s, steps)) && Registered(Run(s, steps))
    decreases |steps|
  {
    hide Registered, Next, Guarded, Fresh;
    if steps != [] {
      StepKeepsFresh(s, steps[0]);
      StepKeepsRegistered(s, steps[0]);
      RunKeepsRegistered(Next(s, steps[0]), steps[1..]);
    }
  }

  /** Idempotence: at most one live job per custom id, and a push of that custom id is answered with it
      and changes nothing but the debounce times. */
  lemma CustomIdIsIdempotent(steps: seq<Step>, a: JobId, b: JobId, c: string, queue: string, input: JobInput,
                             newId: JobId, now: nat)
    requires GuardedRun(INITIAL, steps)
    requires var s := Run(INITIAL, steps); Named(s.jobs, a, c) && Named(s.jobs, b, c) && Retrievable(s, a)
    requires input.customId == Some(c) && Considered(Run(INITIAL, steps), queue, input, now)
    ensures a == b
    ensures var s := Run(INITIAL, steps);
            PushAs(s, queue, input, newId, now) == PushResult(NoteDebounce(s, queue, input, now), Existing(a))
  {
    RunKeepsRegistered(INITIAL, steps);
    PushOutcomes(Run(INITIAL, steps), queue, input, newId, now);
  }

  /** Where the promise fails: a job queued by the release of its dependencies is live, yet pushing its
      custom id again creates a second job beside it. */
  lemma ReleasedJobIsDuplicated(s: State, id: JobId, queue: string, input: JobInput, newId: JobId, now: nat)
    requires Fresh(s) && Registered(s) && At(s, id, WaitingDeps) && !DepsPending(s.completed, s.jobs[id].job)
             && newId >= s.nextId
    requires input.customId.Some? && s.jobs[id].job.customId == input.customId
    requires Considered(s, queue, input, now) && !KeyTaken(s, queue, input)
    ensures var s1 := Next(s, On(id, ReleaseDeps));
            var s2 := Next(s1, Push(queue, input, newId, now));
            && Named(s2.jobs, id, input.customId.value) && Named(s2.jobs, newId, input.customId.value) && id != newId
  {
    var s1 := Next(s, On(id, ReleaseDeps));
    assert s1 == Apply(s, id, Moves(s.jobs[id].job, Queued).(hides := true));
    assert Named(s.jobs, id, input.customId.value);
    PushOutcomes(s1, queue, input, newId, now);
    hide PushAs;
  }
}
