/** How often a job can fail. */
module Retries {
  import opened Protocol
  import opened Engine

  /** Outside the dead letter queue a limited job has attempts left. */
  ghost predicate Bounded(jobs: map<JobId, Placed>) {
    forall id | id in jobs && jobs[id].place != Dead ::
      jobs[id].job.maxAttempts == 0 || jobs[id].job.attempts < jobs[id].job.maxAttempts
  }

  /** What an action does to the failure count: a failure adds one, a dead letter retry starts over. */
  lemma ActionCounts(s: State, id: JobId, action: Action)
    requires id in s.jobs && EffectOf(s, id, action).Some?
    requires s.jobs[id].place != Dead ==> !s.jobs[id].job.ShouldGoToDlq()
    ensures var p, e := s.jobs[id], EffectOf(s, id, action).value;
            && (e.after.Some? ==> e.after.value.job.maxAttempts == p.job.maxAttempts)
            && (e.after.Some? && e.after.value.place != Dead ==> !e.after.value.job.ShouldGoToDlq())
            && (e.after.Some? && !action.RetryDead? ==>
                  e.after.value.job.attempts == p.job.attempts + if action.Fail? || action.Requeue? then 1 else 0)
            && (action.Fail? || action.Requeue? ==> p.place != Dead)
            && (p.place == Dead && e.after.Some? && !action.RetryDead? ==> e.after.value.place == Dead)
  {
    ActionCountsAttempts(s, id, action);
    ActionsThatMayBury(s, id, action);
    hide EffectOf;
  }

  lemma ActionCountsAttempts(s: State, id: JobId, action: Action)
    requires id in s.jobs && EffectOf(s, id, action).Some?
    ensures var p, e := s.jobs[id], EffectOf(s, id, action).value;
            && (e.after.Some? ==> e.after.value.job.maxAttempts == p.job.maxAttempts)
            && (e.after.Some? && !action.RetryDead? ==>
                  e.after.value.job.attempts == p.job.attempts + if action.Fail? || action.Requeue? then 1 else 0)
            && (action.Fail? || action.Requeue? ==> p.place != Dead)
            && (p.place == Dead && e.after.Some? && !action.RetryDead? ==> e.after.value.place == Dead)
  {
    hide *;
    if OnTheWayOut(action) {
      ActionCountsAttemptsOut(s, id, action);
    } else {
      ActionCountsAttemptsElse(s, id, action);
    }
  }

  lemma ActionCountsAttemptsOut(s: State, id: JobId, action: Action)
    requires id in s.jobs && EffectOf(s, id, action).Some? && OnTheWayOut(action)
    ensures var p, e := s.jobs[id], EffectOf(s, id, action).value;
            && (e.after.Some? ==> e.after.value.job.maxAttempts == p.job.maxAttempts)
            && (e.after.Some? && !action.RetryDead? ==>
                  e.after.value.job.attempts == p.job.attempts + if action.Fail? || action.Requeue? then 1 else 0)
            && (action.Fail? || action.Requeue? ==> p.place != Dead)
            && (p.place == Dead && e.after.Some? && !action.RetryDead? ==> e.after.value.place == Dead)
  {
  }

  lemma ActionCountsAttemptsElse(s: State, id: JobId, action: Action)
    requires id in s.jobs && EffectOf(s, id, action).Some? && !OnTheWayOut(action)
    ensures var p, e := s.jobs[id], EffectOf(s, id, action).value;
            && (e.after.Some? ==> e.after.value.job.maxAttempts == p.job.maxAttempts)
            && (e.after.Some? && !action.RetryDead? ==>
                  e.after.value.job.attempts == p.job.attempts + if action.Fail? || action.Requeue? then 1 else 0)
            && (action.Fail? || action.Requeue? ==> p.place != Dead)
            && (p.place == Dead && e.after.Some? && !action.RetryDead? ==> e.after.value.place == Dead)
  {
  }

  lemma ActionsThatMayBury(s: State, id: JobId, action: Action)
    requires id in s.jobs && EffectOf(s, id, action).Some?
    requires s.jobs[id].place != Dead ==> !s.jobs[id].job.ShouldGoToDlq()
    ensures var e := EffectOf(s, id, action).value;
            e.after.Some? && e.after.value.place != Dead ==> !e.after.value.job.ShouldGoToDlq()
  {
  }

  lemma StepKeepsBounded(s: State, step: Step)
    requires Bounded(s.jobs)
    ensures Bounded(Next(s, step).jobs)
  {
    hide PushAs, OpenFlow, Obliterated, EffectOf, TellParent;
    match step
    case On(id, action) =>
      if id in s.jobs && EffectOf(s, id, action).Some? {
        ActionCounts(s, id, action);
      }
    case Push(queue, input, newId, now) => PushShape(s, queue, input, newId, now);
    case PushFlow(queue, data, children, priority, now) => FlowShape(s, queue, data, children, priority, now);
    case Tell(id) => TellKeepsBounded(s, id);
    case Obliterate(queue) => ObliterateShape(s, queue);
    case _ =>
  }

  lemma TellKeepsBounded(s: State, id: JobId)
    requires Bounded(s.jobs)
    ensures Bounded(TellParent(s, id).jobs)
  {
  }

  lemma {:induction false} AttemptsLeft(steps: seq<Step>, s: State)
    requires Bounded(s.jobs)
    ensures Bounded(Run(s, steps).jobs)
    decreases |steps|
  {
    hide Next, Bounded;
    if steps != [] {
      StepKeepsBounded(s, steps[0]);
      AttemptsLeft(steps[1..], Next(s, steps[0]));
    }
  }

  /** `fail` or a timeout of `id` that took effect. */
  predicate IsFailure(s: State, step: Step, id: JobId) {
    step.On? && step.id == id && (step.action.Fail? || step.action.Requeue?)
    && id in s.jobs && EffectOf(s, id, step.action).Some?
  }

  function Failures(s: State, steps: seq<Step>, id: JobId): nat
    decreases |steps|
  {
    if steps == [] then 0
    else (if IsFailure(s, steps[0], id) then 1 else 0) + Failures(Next(s, steps[0]), steps[1..], id)
  }

  predicate Retries(step: Step, id: JobId) {
    step.On? && step.id == id && step.action.RetryDead?
  }

  /** One step as seen by one job: gone jobs stay gone, and the count moves by the step's failures. */
  ghost predicate Counts(s: State, step: Step, id: JobId) {
    var s' := Next(s, step);
    && (id !in s.jobs ==> id !in s'.jobs)
    && (id in s.jobs && id in s'.jobs ==>
          && s'.jobs[id].job.maxAttempts == s.jobs[id].job.maxAttempts
          && s'.jobs[id].job.attempts == s.jobs[id].job.attempts + (if IsFailure(s, step, id) then 1 else 0))
    && (IsFailure(s, step, id) ==> s.jobs[id].place != Dead)
  }

  lemma ActionStepCounts(s: State, k: JobId, action: Action, id: JobId)
    requires Bounded(s.jobs) && !Retries(On(k, action), id)
    ensures Counts(s, On(k, action), id)
  {
    hide EffectOf;
    if k in s.jobs && EffectOf(s, k, action).Some? {
      ActionCounts(s, k, action);
    }
  }

  lemma TellCounts(s: State, k: JobId, id: JobId)
    ensures Counts(s, Tell(k), id)
  {
  }

  lemma StepCounts(s: State, step: Step, id: JobId)
    requires Fresh(s) && Bounded(s.jobs) && !Retries(step, id) && id < s.nextId
    ensures Counts(s, step, id)
  {
    hide PushAs, OpenFlow, Obliterated, EffectOf, TellParent;
    match step
    case On(k, action) =>
      hide Next;
      ActionStepCounts(s, k, action, id);
    case Push(queue, input, newId, now) => PushShape(s, queue, input, newId, now);
    case PushFlow(queue, data, children, priority, now) => FlowShape(s, queue, data, children, priority, now);
    case Tell(k) => TellCounts(s, k, id);
    case Obliterate(queue) => ObliterateShape(s, queue);
    case _ => QuietShape(s, step);
  }

  /** Between two dead letter retries a job fails at most `maxAttempts` times in all, and the failure
      that reaches the bound leaves it dead or gone. */
  lemma {:induction false} FailuresAreBounded(s: State, steps: seq<Step>, id: JobId)
    requires Fresh(s) && Bounded(s.jobs) && id in s.jobs
    requires s.jobs[id].job.maxAttempts > 0 && s.jobs[id].job.attempts <= s.jobs[id].job.maxAttempts
    requires forall i | 0 <= i < |steps| :: !Retries(steps[i], id)
    ensures var f, s' := s.jobs[id].job.attempts + Failures(s, steps, id), Run(s, steps);
            && f <= s.jobs[id].job.maxAttempts
            && (f == s.jobs[id].job.maxAttempts ==> !(id in s'.jobs && s'.jobs[id].place != Dead))
    decreases |steps|
  {
    if steps != [] {
      var s' := Next(s, steps[0]);
      StepKeepsFresh(s, steps[0]);
      StepKeepsBounded(s, steps[0]);
      StepCounts(s, steps[0], id);
      var rest := steps[1..];
      assert forall i | 0 <= i < |rest| :: !Retries(rest[i], id);
      hide Next;
      if id in s'.jobs {
        FailuresAreBounded(s', rest, id);
      } else {
        GoneForGood(s', rest, id);
      }
    }
  }

  lemma {:induction false} GoneForGood(s: State, steps: seq<Step>, id: JobId)
    requires Fresh(s) && Bounded(s.jobs) && id !in s.jobs && id < s.nextId
    requires forall i | 0 <= i < |steps| :: !Retries(steps[i], id)
    ensures Failures(s, steps, id) == 0 && id !in Run(s, steps).jobs
    decreases |steps|
  {
    if steps != [] {
      StepKeepsFresh(s, steps[0]);
      StepKeepsBounded(s, steps[0]);
      StepCounts(s, steps[0], id);
      var rest := steps[1..];
      assert forall i | 0 <= i < |rest| :: !Retries(rest[i], id);
      hide Next;
      GoneForGood(Next(s, steps[0]), rest, id);
    }
  }
}
