/** A job runs after the jobs it depends on (engine/src/queue/push.rs, engine/src/queue/background/timeout.rs). */
module Dependencies {
  import opened Protocol
  import opened Engine

  ghost predicate Met(job: Job, done: set<JobId>) {
    forall d | d in job.dependsOn :: d in done
  }

  /** Only acked jobs count as completed, and every live job that does not wait for its dependencies has seen
      them all acked. */
  ghost predicate Ordered(s: State) {
    && s.completed <= s.acked
    && forall id | id in s.jobs && s.jobs[id].place != WaitingDeps :: Met(s.jobs[id].job, s.acked)
  }

  /** No action changes what a job depends on, and none lets it out of `waiting_deps` before all is completed. */
  ghost predicate KeepsWaiting(s: State, id: JobId, e: Effect)
    requires id in s.jobs
  {
    && (e.completes ==> e.acks)
    && (e.after.Some? ==>
          && e.after.value.job.dependsOn == s.jobs[id].job.dependsOn
          && (s.jobs[id].place == WaitingDeps && e.after.value.place != WaitingDeps ==>
                forall d | d in s.jobs[id].job.dependsOn :: d in s.completed))
  }

  lemma ActionKeepsWaiting(s: State, id: JobId, action: Action)
    requires id in s.jobs && EffectOf(s, id, action).Some?
    ensures KeepsWaiting(s, id, EffectOf(s, id, action).value)
  {
    hide *;
    if OnTheWayOut(action) {
      ActionKeepsWaitingOut(s, id, action);
    } else {
      ActionKeepsWaitingElse(s, id, action);
    }
  }

  lemma ActionKeepsWaitingOut(s: State, id: JobId, action: Action)
    requires id in s.jobs && EffectOf(s, id, action).Some? && OnTheWayOut(action)
    ensures KeepsWaiting(s, id, EffectOf(s, id, action).value)
  {
  }

  lemma ActionKeepsWaitingElse(s: State, id: JobId, action: Action)
    requires id in s.jobs && EffectOf(s, id, action).Some? && !OnTheWayOut(action)
    ensures KeepsWaiting(s, id, EffectOf(s, id, action).value)
  {
    hide AckEffect, FailEffect, RequeueEffect, StallCount, IsStalled, Judged, Retrievable, CanTake;
  }

  lemma ApplyKeepsOrdered(s: State, id: JobId, e: Effect)
    requires Ordered(s) && id in s.jobs && KeepsWaiting(s, id, e)
    ensures Ordered(Apply(s, id, e))
  {
    hide LimitersAfter, GroupsAfter, KeysAfter;
  }

  lemma TellKeepsOrdered(s: State, id: JobId)
    requires Ordered(s)
    ensures Ordered(TellParent(s, id))
  {
    hide LimitersAfter, GroupsAfter, KeysAfter;
  }

  lemma PushKeepsOrdered(s: State, queue: string, input: JobInput, id: JobId, now: nat)
    requires Ordered(s)
    ensures Ordered(PushAs(s, queue, input, id, now).state)
  {
    PushShape(s, queue, input, id, now);
    hide PushAs, CreateJob;
  }

  lemma StepKeepsOrdered(s: State, step: Step)
    requires Ordered(s)
    ensures Ordered(Next(s, step))
  {
    hide PushAs, OpenFlow, Obliterated, EffectOf, Apply, KeepsWaiting, TellParent;
    match step
    case On(id, action) =>
      if id in s.jobs && EffectOf(s, id, action).Some? {
        ActionKeepsWaiting(s, id, action);
        ApplyKeepsOrdered(s, id, EffectOf(s, id, action).value);
      }
    case Push(queue, input, newId, now) => PushKeepsOrdered(s, queue, input, newId, now);
    case PushFlow(queue, data, children, priority, now) => FlowShape(s, queue, data, children, priority, now);
    case Tell(id) => TellKeepsOrdered(s, id);
    case Obliterate(queue) => ObliterateShape(s, queue);
    case _ =>
  }

  lemma {:induction false} RunKeepsOrdered(steps: seq<Step>, s: State)
    requires Ordered(s)
    ensures Ordered(Run(s, steps))
    decreases |steps|
  {
    hide Next, Ordered;
    if steps != [] {
      StepKeepsOrdered(s, steps[0]);
      RunKeepsOrdered(steps[1..], Next(s, steps[0]));
    }
  }

  /** Over every run: a live job that is anywhere but in `waiting_deps` has seen all the jobs it depends on
      acked, and as long as one of them is not, no pull takes it. */
  lemma DependenciesFirst(steps: seq<Step>, id: JobId, now: nat)
    ensures var s := Run(INITIAL, steps);
            && (id in s.jobs && s.jobs[id].place != WaitingDeps ==>
                  forall d | d in s.jobs[id].job.dependsOn :: d in s.acked)
            && (id in s.jobs && (exists d | d in s.jobs[id].job.dependsOn :: d !in s.acked) ==>
                  At(s, id, WaitingDeps) && Next(s, On(id, Take(now))) == s)
  {
    RunKeepsOrdered(steps, INITIAL);
    hide Run;
    var s := Run(INITIAL, steps);
    if id in s.jobs && s.jobs[id].place == WaitingDeps {
      assert EffectOf(s, id, Take(now)) == None;
    }
  }
}
