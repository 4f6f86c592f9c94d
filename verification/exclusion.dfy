/** Group exclusion: one job at a time per (queue, group), in every interleaving of the steps. */
module Exclusion {
  import opened Protocol
  import opened Pull
  import opened Engine

  type Group = (string, string)

  /** The job is out with a worker, or on its way there or back. */
  predicate Out(p: Place) {
    p in {InFlight, Processing, Leaving, TimedOut}
  }

  predicate Holds(jobs: map<JobId, Placed>, id: JobId) {
    id in jobs && Out(jobs[id].place) && jobs[id].job.groupId.Some?
  }

  function GroupOf(jobs: map<JobId, Placed>, id: JobId): Group
    requires Holds(jobs, id)
  {
    (jobs[id].job.queue, jobs[id].job.groupId.value)
  }

  ghost predicate Exclusive(jobs: map<JobId, Placed>, groups: set<Group>) {
    && (forall id | Holds(jobs, id) :: GroupOf(jobs, id) in groups)
    && (forall a, b | Holds(jobs, a) && Holds(jobs, b) && GroupOf(jobs, a) == GroupOf(jobs, b) :: a == b)
  }

  ghost predicate Held(jobs: map<JobId, Placed>, g: Group) {
    exists k :: Holds(jobs, k) && GroupOf(jobs, k) == g
  }

  /** A batch ack is about to release the group name of its job under another queue. */
  predicate Misnames(s: State, step: Step) {
    step.On? && step.action.BatchAck? && At(s, step.id, Leaving)
    && s.jobs[step.id].job.groupId.Some? && step.action.queue != s.jobs[step.id].job.queue
  }

  function Misnamed(s: State, step: Step): Group
    requires Misnames(s, step)
  {
    (step.action.queue, s.jobs[step.id].job.groupId.value)
  }

  /** The condition the source needs of its caller: a batch ack stays within one queue per shard, so
      that "the first queue seen" is the job's own, or nobody holds a group of that name there. */
  ghost predicate GroupSafe(s: State, step: Step) {
    Misnames(s, step) ==> !Held(s.jobs, Misnamed(s, step))
  }

  ghost predicate GroupSafeRun(s: State, steps: seq<Step>)
    decreases |steps|
  {
    steps == [] || (GroupSafe(s, steps[0]) && GroupSafeRun(Next(s, steps[0]), steps[1..]))
  }

  // What the invariant needs to know of an effect.
  predicate HandsOver(p: Placed, e: Effect) {
    && (e.after.Some? ==> e.after.value.job.queue == p.job.queue && e.after.value.job.groupId == p.job.groupId)
    && (e.takes ==> !Out(p.place) && e.after.Some? && Out(e.after.value.place))
    && (e.after.Some? && Out(e.after.value.place) ==> (e.takes || Out(p.place)) && !e.freesGroup)
    && (e.freesGroup ==> Out(p.place))
  }

  lemma EffectKeepsExclusion(jobs: map<JobId, Placed>, groups: set<Group>, id: JobId, e: Effect)
    requires Exclusive(jobs, groups) && id in jobs && HandsOver(jobs[id], e)
    requires e.takes && jobs[id].job.groupId.Some? ==> (jobs[id].job.queue, jobs[id].job.groupId.value) !in groups
    ensures var job := jobs[id].job;
            Exclusive(JobsAfter(jobs, id, e), GroupsAfter(groups, job, e))
            <==> (e.freesGroup && job.groupId.Some? && e.queue != job.queue ==>
                    !Held(jobs, (e.queue, job.groupId.value)))
  {
    var jobs', job := JobsAfter(jobs, id, e), jobs[id].job;
    assert forall k | Holds(jobs', k) && k != id :: Holds(jobs, k) && GroupOf(jobs, k) == GroupOf(jobs', k);
    assert Out(jobs[id].place) && job.groupId.Some? ==> Holds(jobs, id);
    assert Holds(jobs', id) && !e.takes ==> Holds(jobs, id) && GroupOf(jobs, id) == GroupOf(jobs', id);
    if e.freesGroup && job.groupId.Some? && e.queue != job.queue && Held(jobs, (e.queue, job.groupId.value)) {
      var k :| Holds(jobs, k) && GroupOf(jobs, k) == (e.queue, job.groupId.value);
      assert Holds(jobs', k) && GroupOf(jobs', k) !in GroupsAfter(groups, job, e);
    }
  }

  lemma ActionHandsOver(s: State, id: JobId, action: Action)
    requires id in s.jobs && EffectOf(s, id, action).Some?
    ensures var p, e := s.jobs[id], EffectOf(s, id, action).value;
            && HandsOver(p, e)
            && (e.takes && p.job.groupId.Some? ==> (p.job.queue, p.job.groupId.value) !in s.groups)
            && (e.freesGroup && p.job.groupId.Some? && e.queue != p.job.queue <==> Misnames(s, On(id, action)))
            && (Misnames(s, On(id, action)) ==> e.queue == action.queue)
  {
    ActionTakesOrFrees(s, id, action);
    OnlyBatchesMisname(s, id, action);
    hide EffectOf, HandsOver;
  }

  lemma ActionTakesOrFrees(s: State, id: JobId, action: Action)
    requires id in s.jobs && EffectOf(s, id, action).Some?
    ensures var p, e := s.jobs[id], EffectOf(s, id, action).value;
            HandsOver(p, e) && (e.takes && p.job.groupId.Some? ==> (p.job.queue, p.job.groupId.value) !in s.groups)
  {
    hide *;
    if OnTheWayOut(action) {
      ActionTakesOrFreesOut(s, id, action);
    } else {
      ActionTakesOrFreesElse(s, id, action);
    }
  }

  lemma ActionTakesOrFreesOut(s: State, id: JobId, action: Action)
    requires id in s.jobs && EffectOf(s, id, action).Some? && OnTheWayOut(action)
    ensures var p, e := s.jobs[id], EffectOf(s, id, action).value;
            HandsOver(p, e) && (e.takes && p.job.groupId.Some? ==> (p.job.queue, p.job.groupId.value) !in s.groups)
  {
  }

  lemma ActionTakesOrFreesElse(s: State, id: JobId, action: Action)
    requires id in s.jobs && EffectOf(s, id, action).Some? && !OnTheWayOut(action)
    ensures var p, e := s.jobs[id], EffectOf(s, id, action).value;
            HandsOver(p, e) && (e.takes && p.job.groupId.Some? ==> (p.job.queue, p.job.groupId.value) !in s.groups)
  {
    hide AckEffect, FailEffect, RequeueEffect, StallCount, DepsPending, IsStalled, Judged, Retrievable;
  }

  lemma OnlyBatchesMisname(s: State, id: JobId, action: Action)
    requires id in s.jobs && EffectOf(s, id, action).Some?
    ensures var e := EffectOf(s, id, action).value;
            e.queue == if action.BatchAck? then action.queue else s.jobs[id].job.queue
    ensures action.BatchAck? ==> EffectOf(s, id, action).value.freesGroup && s.jobs[id].place == Leaving
  {
  }

  lemma NoNewHolderKeepsExclusion(jobs: map<JobId, Placed>, jobs': map<JobId, Placed>, groups: set<Group>)
    requires Exclusive(jobs, groups)
    requires forall k | Holds(jobs', k) :: Holds(jobs, k) && GroupOf(jobs, k) == GroupOf(jobs', k)
    ensures Exclusive(jobs', groups)
  {
  }

  lemma TellKeepsExclusion(s: State, id: JobId)
    requires Exclusive(s.jobs, s.groups)
    ensures Exclusive(TellParent(s, id).jobs, TellParent(s, id).groups)
  {
    NoNewHolderKeepsExclusion(s.jobs, TellParent(s, id).jobs, s.groups);
  }

  /** A step keeps the invariant exactly when it is safe. */
  lemma GroupSafetyIsExact(s: State, step: Step)
    requires Exclusive(s.jobs, s.groups)
    ensures Exclusive(Next(s, step).jobs, Next(s, step).groups) <==> GroupSafe(s, step)
  {
    var s' := Next(s, step);
    hide Exclusive, Held, PushAs, CreateJob, TellParent, OpenFlow, Obliterated, EffectOf;
    match step
    case On(id, action) =>
      if id in s.jobs && EffectOf(s, id, action).Some? {
        ActionHandsOver(s, id, action);
        EffectKeepsExclusion(s.jobs, s.groups, id, EffectOf(s, id, action).value);
      } else {
        IdleIsSafe(s, id, action);
      }
    case Push(queue, input, newId, now) =>
      PushShape(s, queue, input, newId, now);
      NoNewHolderKeepsExclusion(s.jobs, s'.jobs, s.groups);
    case PushFlow(queue, data, children, priority, now) =>
      FlowShape(s, queue, data, children, priority, now);
      NoNewHolderKeepsExclusion(s.jobs, s'.jobs, s.groups);
    case Tell(id) => TellKeepsExclusion(s, id);
    case Obliterate(queue) =>
      ObliterateShape(s, queue);
      NoNewHolderKeepsExclusion(s.jobs, s'.jobs, s.groups);
    case _ => QuietShape(s, step);
  }

  lemma IdleIsSafe(s: State, id: JobId, action: Action)
    requires id in s.jobs ==> EffectOf(s, id, action).None?
    ensures !Misnames(s, On(id, action))
  {
  }

  lemma {:induction false} RunKeepsExclusion(s: State, steps: seq<Step>)
    requires Exclusive(s.jobs, s.groups) && GroupSafeRun(s, steps)
    ensures Exclusive(Run(s, steps).jobs, Run(s, steps).groups)
    decreases |steps|
  {
    hide Exclusive, Next, GroupSafe;
    if steps != [] {
      GroupSafetyIsExact(s, steps[0]);
      RunKeepsExclusion(Next(s, steps[0]), steps[1..]);
    }
  }

  /** In every state of every interleaving at most one job of a group is out with a worker, and its
      group is marked active. */
  lemma GroupExclusion(steps: seq<Step>, a: JobId, b: JobId)
    requires GroupSafeRun(INITIAL, steps)
    requires var jobs := Run(INITIAL, steps).jobs;
             Holds(jobs, a) && Holds(jobs, b) && GroupOf(jobs, a) == GroupOf(jobs, b)
    ensures a == b && GroupOf(Run(INITIAL, steps).jobs, a) in Run(INITIAL, steps).groups
  {
    RunKeepsExclusion(INITIAL, steps);
  }

  /** Why a batch ack under another queue is not safe while somebody holds a group of that name there: the
      next job of that group is served beside the first. */
  lemma MisnamedAckLetsTwoOut(s: State, id: JobId, queue: string, first: JobId, second: JobId, now: nat)
    requires Misnames(s, On(id, BatchAck(queue))) && Holds(s.jobs, first)
    requires GroupOf(s.jobs, first) == Misnamed(s, On(id, BatchAck(queue)))
    requires At(s, second, Queued) && s.jobs[second].job.queue == queue
             && s.jobs[second].job.groupId == s.jobs[first].job.groupId
    requires queue !in s.paused && (queue in s.limiters ==> s.limiters[queue].HasSlot())
    requires !s.jobs[second].job.IsExpired(now) && s.jobs[second].job.IsReady(now)
    ensures var s' := Next(Next(s, On(id, BatchAck(queue))), On(second, Take(now)));
            && first != second && Holds(s'.jobs, first) && Holds(s'.jobs, second)
            && GroupOf(s'.jobs, first) == GroupOf(s'.jobs, second)
  {
    var job := s.jobs[id].job;
    var s1 := Next(s, On(id, BatchAck(queue)));
    assert s1 == Apply(s, id, AckEffect(job, queue, false));
    assert s1.jobs == s.jobs - {id} && s1.paused == s.paused && s1.groups == s.groups - {(queue, job.groupId.value)};
    assert queue in s1.limiters ==> s1.limiters[queue].HasSlot();
    hide Next, Apply;
    TakesNext(s1, second, now);
  }

  lemma TakesNext(s: State, id: JobId, now: nat)
    requires At(s, id, Queued) && CanTake(s, s.jobs[id].job, now)
    ensures Next(s, On(id, Take(now))).jobs == s.jobs[id := Placed(InFlight, Started(s.jobs[id].job, now))]
  {
  }

  // ---- Leaked groups ----

  /** Marked active although no job of the group is out: nobody is left to release it. */
  ghost predicate Leaked(jobs: map<JobId, Placed>, groups: set<Group>, g: Group) {
    g in groups && forall k | Holds(jobs, k) :: GroupOf(jobs, k) != g
  }

  /** The ways out of a worker's hands that forget the group: cancelling, delaying or discarding an
      active job, timing it out, burying it as stalled, sweeping it away with its queue, and acking it in
      a batch under another queue. */
  predicate ForgetsGroup(s: State, id: JobId, step: Step) {
    && step.On? && step.id == id && Holds(s.jobs, id)
    && (match s.jobs[id].place
        case Leaving => step.action.CancelActive? || step.action.Delay? || step.action.DiscardActive?
            || Misnames(s, step)
        case TimedOut => step.action.Requeue?
        case Processing =>
          step.action.Wipe? || (step.action.HandleStall? && id in s.suspects && s.suspects[id].Condemned?)
        case _ => false)
  }

  /** The step frees `g` although no job of it is out: a batch ack of another queue. */
  ghost predicate Revives(s: State, step: Step, g: Group) {
    Misnames(s, step) && Misnamed(s, step) == g && Leaked(s.jobs, s.groups, g)
  }

  lemma ActionForgets(s: State, id: JobId, action: Action)
    requires Holds(s.jobs, id)
    ensures var e := EffectOf(s, id, action);
            ForgetsGroup(s, id, On(id, action))
            <==> e.Some? && !(e.value.after.Some? && Out(e.value.after.value.place))
                 && !(e.value.freesGroup && e.value.queue == s.jobs[id].job.queue)
  {
  }

  lemma EffectLeaks(jobs: map<JobId, Placed>, groups: set<Group>, id: JobId, e: Effect, g: Group)
    requires Exclusive(jobs, groups) && id in jobs && HandsOver(jobs[id], e)
    requires e.takes && jobs[id].job.groupId.Some? ==> (jobs[id].job.queue, jobs[id].job.groupId.value) !in groups
    ensures var job := jobs[id].job;
            Leaked(JobsAfter(jobs, id, e), GroupsAfter(groups, job, e), g)
            <==> || (Leaked(jobs, groups, g) && !(e.freesGroup && job.groupId.Some?
                                                  && (e.queue, job.groupId.value) == g))
                 || (Holds(jobs, id) && GroupOf(jobs, id) == g && !(e.after.Some? && Out(e.after.value.place))
                     && !(e.freesGroup && e.queue == job.queue))
  {
    var jobs', groups' := JobsAfter(jobs, id, e), GroupsAfter(groups, jobs[id].job, e);
    assert forall k | k != id :: Holds(jobs', k) <==> Holds(jobs, k);
    assert forall k | Holds(jobs, k) && k != id :: GroupOf(jobs, k) == GroupOf(jobs', k);
    assert Holds(jobs', id) <==> jobs[id].job.groupId.Some? && e.after.Some? && Out(e.after.value.place);
    assert Holds(jobs', id) && !e.takes ==> Holds(jobs, id) && GroupOf(jobs, id) == GroupOf(jobs', id);
    if Leaked(jobs', groups', g) && !Leaked(jobs, groups, g) {
      assert g in groups;
      var k :| Holds(jobs, k) && GroupOf(jobs, k) == g;
      assert k == id;
    }
  }

  lemma SameHoldersSameLeaks(jobs: map<JobId, Placed>, jobs': map<JobId, Placed>, groups: set<Group>, g: Group)
    requires forall k :: Holds(jobs', k) <==> Holds(jobs, k)
    requires forall k | Holds(jobs', k) :: GroupOf(jobs, k) == GroupOf(jobs', k)
    ensures Leaked(jobs', groups, g) <==> Leaked(jobs, groups, g)
  {
  }

  lemma TellKeepsHolders(s: State, id: JobId)
    ensures var s' := TellParent(s, id);
            && (forall k :: Holds(s'.jobs, k) <==> Holds(s.jobs, k)) && s'.groups == s.groups
            && (forall k | Holds(s'.jobs, k) :: GroupOf(s.jobs, k) == GroupOf(s'.jobs, k))
  {
  }

  lemma ActionLeaks(s: State, id: JobId, action: Action, g: Group)
    requires Exclusive(s.jobs, s.groups)
    ensures var s', step := Act(s, id, action), On(id, action);
            Leaked(s'.jobs, s'.groups, g)
            <==> || (Leaked(s.jobs, s.groups, g) && !Revives(s, step, g))
                 || (ForgetsGroup(s, id, step) && GroupOf(s.jobs, id) == g)
  {
    hide EffectOf, Exclusive, Leaked, ForgetsGroup;
    if id in s.jobs && EffectOf(s, id, action).Some? {
      ActionHandsOver(s, id, action);
      EffectLeaks(s.jobs, s.groups, id, EffectOf(s, id, action).value, g);
      if Leaked(s.jobs, s.groups, g) {
        ReleaseRevives(s, id, action, g);
      }
    } else {
      IdleIsSafe(s, id, action);
    }
    if Holds(s.jobs, id) {
      ActionForgets(s, id, action);
    } else {
      OnlyHoldersForget(s, id, action);
    }
  }

  lemma OnlyHoldersForget(s: State, id: JobId, action: Action)
    requires !Holds(s.jobs, id)
    ensures !ForgetsGroup(s, id, On(id, action))
  {
  }

  lemma ReleaseRevives(s: State, id: JobId, action: Action, g: Group)
    requires id in s.jobs && EffectOf(s, id, action).Some? && Leaked(s.jobs, s.groups, g)
    ensures var e, job := EffectOf(s, id, action).value, s.jobs[id].job;
            Revives(s, On(id, action), g) <==> e.freesGroup && job.groupId.Some? && (e.queue, job.groupId.value) == g
  {
    ActionHandsOver(s, id, action);
    hide EffectOf;
    assert Out(s.jobs[id].place) && s.jobs[id].job.groupId.Some? ==> Holds(s.jobs, id);
  }

  lemma PushKeepsHolders(s: State, queue: string, input: JobInput, id: JobId, now: nat)
    requires Fresh(s) && id >= s.nextId
    ensures var s' := PushAs(s, queue, input, id, now).state;
            && (forall k :: Holds(s'.jobs, k) <==> Holds(s.jobs, k)) && s'.groups == s.groups
            && (forall k | Holds(s'.jobs, k) :: GroupOf(s.jobs, k) == GroupOf(s'.jobs, k))
  {
    PushShape(s, queue, input, id, now);
    hide PushAs;
  }

  lemma FlowKeepsHolders(s: State, queue: string, data: string, children: seq<FlowChild>, priority: int, now: nat)
    requires Fresh(s)
    ensures var s' := OpenFlow(s, queue, data, children, priority, now);
            && (forall k :: Holds(s'.jobs, k) <==> Holds(s.jobs, k)) && s'.groups == s.groups
            && (forall k | Holds(s'.jobs, k) :: GroupOf(s.jobs, k) == GroupOf(s'.jobs, k))
  {
    FlowShape(s, queue, data, children, priority, now);
    hide OpenFlow;
  }

  lemma ObliterateKeepsHolders(s: State, queue: string)
    ensures var s' := Obliterated(s, queue);
            && (forall k :: Holds(s'.jobs, k) <==> Holds(s.jobs, k)) && s'.groups == s.groups
            && (forall k | Holds(s'.jobs, k) :: GroupOf(s.jobs, k) == GroupOf(s'.jobs, k))
  {
    ObliterateShape(s, queue);
    hide Obliterated;
  }

  /** Where leaked groups come from and where they go, for every step and every group: a group is leaked
      after the step exactly when it was and is not freed under another queue's name, or when its holder
      is taken out of a worker's hands in one of the ways that forget the group. */
  lemma LeaksExactly(s: State, step: Step, g: Group)
    requires Fresh(s) && Exclusive(s.jobs, s.groups)
    ensures var s' := Next(s, step);
            Leaked(s'.jobs, s'.groups, g)
            <==> || (Leaked(s.jobs, s.groups, g) && !Revives(s, step, g))
                 || (exists id :: ForgetsGroup(s, id, step) && GroupOf(s.jobs, id) == g)
  {
    var s' := Next(s, step);
    hide Leaked, Exclusive, PushAs, CreateJob, TellParent, OpenFlow, Obliterated, Act;
    match step
    case On(id, action) => ActionLeaks(s, id, action, g);
    case Push(queue, input, newId, now) =>
      if newId >= s.nextId {
        PushKeepsHolders(s, queue, input, newId, now);
        SameHoldersSameLeaks(s.jobs, s'.jobs, s.groups, g);
      }
    case PushFlow(queue, data, children, priority, now) =>
      FlowKeepsHolders(s, queue, data, children, priority, now);
      SameHoldersSameLeaks(s.jobs, s'.jobs, s.groups, g);
    case Tell(id) =>
      TellKeepsHolders(s, id);
      SameHoldersSameLeaks(s.jobs, s'.jobs, s.groups, g);
    case Obliterate(queue) =>
      ObliterateKeepsHolders(s, queue);
      SameHoldersSameLeaks(s.jobs, s'.jobs, s.groups, g);
    case _ => QuietShape(s, step);
  }

  ghost predicate NeverRevived(s: State, steps: seq<Step>, g: Group)
    decreases |steps|
  {
    steps == [] || (!Revives(s, steps[0], g) && NeverRevived(Next(s, steps[0]), steps[1..], g))
  }

  lemma {:induction false} RunKeepsLeak(s: State, steps: seq<Step>, g: Group)
    requires Fresh(s) && Exclusive(s.jobs, s.groups) && GroupSafeRun(s, steps)
    requires Leaked(s.jobs, s.groups, g) && NeverRevived(s, steps, g)
    ensures Leaked(Run(s, steps).jobs, Run(s, steps).groups, g)
    decreases |steps|
  {
    hide Leaked, Next, Fresh, Exclusive, GroupSafe, Revives, ForgetsGroup;
    if steps != [] {
      StepKeepsFresh(s, steps[0]);
      GroupSafetyIsExact(s, steps[0]);
      LeaksExactly(s, steps[0], g);
      RunKeepsLeak(Next(s, steps[0]), steps[1..], g);
    }
  }

  /** A forgotten group is dead: until a batch ack of another queue happens to free its name, no job of it
      is out again, in any continuation. */
  lemma ForgottenGroupIsDead(s: State, id: JobId, step: Step, steps: seq<Step>, k: JobId)
    requires Fresh(s) && Exclusive(s.jobs, s.groups) && ForgetsGroup(s, id, step) && GroupSafe(s, step)
    requires GroupSafeRun(Next(s, step), steps) && NeverRevived(Next(s, step), steps, GroupOf(s.jobs, id))
    ensures var s' := Run(Next(s, step), steps);
            && GroupOf(s.jobs, id) in s'.groups
            && (Holds(s'.jobs, k) ==> GroupOf(s'.jobs, k) != GroupOf(s.jobs, id))
  {
    var g := GroupOf(s.jobs, id);
    LeaksExactly(s, step, g);
    GroupSafetyIsExact(s, step);
    StepKeepsFresh(s, step);
    hide Next, ForgetsGroup, Fresh, Exclusive, GroupSafe;
    RunKeepsLeak(Next(s, step), steps, g);
  }
}
