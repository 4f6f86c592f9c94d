/** Flows: a parent is queued only after all its children were acked. */
module Flows {
  import opened Protocol
  import opened Engine

  function ToSet(ids: seq<JobId>): set<JobId> {
    set c | c in ids
  }

  lemma {:induction false} Cardinality<T>(a: set<T>, b: set<T>)
    requires a <= b
    ensures |a| <= |b| && (|a| == |b| ==> a == b)
    decreases |a|
  {
    if a != {} {
      var x :| x in a;
      Cardinality(a - {x}, b - {x});
      assert a == (a - {x}) + {x} && b == (b - {x}) + {x};
    }
  }

  lemma {:induction false} DistinctCardinality(ids: seq<JobId>)
    requires NoneTwice(ids)
    ensures |ToSet(ids)| == |ids|
  {
    if ids != [] {
      var rest := ids[1..];
      assert forall i | 0 <= i < |rest| :: rest[i] == ids[i + 1];
      DistinctCardinality(rest);
      assert ids[0] !in ToSet(rest);
      assert ToSet(ids) == ToSet(rest) + {ids[0]};
    }
  }

  // ---- The invariant ----

  /** Children that were acked and whose ack the parent has heard of, or will never hear of. */
  function Done(s: State, children: seq<JobId>): set<JobId> {
    set c | c in children && c in s.acked && c !in s.jobs
  }

  function Acked(s: State, children: seq<JobId>): set<JobId> {
    set c | c in children && c in s.acked
  }

  /** Every child was acked, and the parent told. */
  ghost predicate AllDone(s: State, children: seq<JobId>) {
    forall c | c in children :: c in s.acked && c !in s.jobs
  }

  /** What holds of a parent that waits. */
  ghost predicate Waits(s: State, parent: Job) {
    && NoneTwice(parent.childrenIds)
    && (forall c | c in parent.childrenIds :: c < s.nextId)
    && parent.childrenCompleted <= |Done(s, parent.childrenIds)|
    && parent.childrenCompleted < |parent.childrenIds|
  }

  /** The live children of a waiting parent are just the live jobs that name it. */
  ghost predicate Linked(s: State) {
    && (forall c | c in s.jobs && s.jobs[c].job.parentId.Some? :: s.jobs[c].job.parentId.value < s.nextId)
    && (forall c, p | c in s.jobs && s.jobs[c].job.parentId == Some(p) && At(s, p, WaitingChildren) ::
          c in s.jobs[p].job.childrenIds)
    && (forall p, c | At(s, p, WaitingChildren) && c in s.jobs[p].job.childrenIds && c in s.jobs ::
          s.jobs[c].job.parentId == Some(p))
  }

  /** A live job was acked just when its parent is still to be told. */
  ghost predicate AckedIsUntold(s: State) {
    forall c | c in s.jobs :: c in s.acked <==> s.jobs[c].place == Notifying
  }

  ghost predicate Waiting(s: State) {
    forall p | At(s, p, WaitingChildren) :: Waits(s, s.jobs[p].job)
  }

  /** Whoever no longer waits has all its children acked. */
  ghost predicate Ready(s: State) {
    forall p | p in s.jobs && s.jobs[p].place != WaitingChildren :: AllDone(s, s.jobs[p].job.childrenIds)
  }

  ghost predicate Sound(s: State) {
    Fresh(s) && Linked(s) && AckedIsUntold(s) && Waiting(s) && Ready(s)
  }

  // ---- Steps that leave the flows alone ----

  predicate SameFlow(p: Placed, p': Placed) {
    && p'.job.parentId == p.job.parentId
    && p'.job.childrenIds == p.job.childrenIds
    && p'.job.childrenCompleted == p.job.childrenCompleted
    && (p'.place == WaitingChildren <==> p.place == WaitingChildren)
  }

  /** Jobs may go, come or be acked, but no flow is opened and no parent counts. */
  ghost predicate Similar(s: State, s': State) {
    && s'.nextId >= s.nextId && s.acked <= s'.acked
    && (forall k | k in s'.jobs && k in s.jobs :: SameFlow(s.jobs[k], s'.jobs[k]))
    && (forall k | k in s'.jobs && k !in s.jobs ::
          && k >= s.nextId && s'.jobs[k].place != WaitingChildren
          && s'.jobs[k].job.parentId == None && s'.jobs[k].job.childrenIds == [])
  }

  lemma DoneGrows(s: State, s': State, children: seq<JobId>)
    requires s.acked <= s'.acked
    requires forall c | c in children && c in s.acked && c in s'.jobs :: c in s.jobs
    ensures |Done(s, children)| <= |Done(s', children)|
  {
    Cardinality(Done(s, children), Done(s', children));
  }

  lemma SimilarKeepsLinked(s: State, s': State)
    requires Linked(s) && Waiting(s) && Similar(s, s')
    ensures Linked(s')
  {
  }

  lemma SimilarKeepsWaiting(s: State, s': State)
    requires Fresh(s) && Waiting(s) && Similar(s, s')
    ensures Waiting(s')
  {
    forall p | At(s', p, WaitingChildren)
      ensures Waits(s', s'.jobs[p].job)
    {
      assert At(s, p, WaitingChildren);
      DoneGrows(s, s', s.jobs[p].job.childrenIds);
    }
  }

  lemma SimilarKeepsSound(s: State, s': State)
    requires Sound(s) && Similar(s, s') && Fresh(s') && AckedIsUntold(s')
    ensures Sound(s')
  {
    SimilarKeepsLinked(s, s');
    SimilarKeepsWaiting(s, s');
    hide Linked, Waiting, Fresh, AckedIsUntold;
  }

  predicate KeepsFlow(p: Placed, e: Effect) {
    && (e.acks ==> p.place == Leaving)
    && (p.place == Notifying ==> e.after.Some?)
    && (e.after.Some? ==>
          SameFlow(p, e.after.value) && (e.after.value.place == Notifying <==> e.acks || p.place == Notifying))
  }

  lemma ActionKeepsFlow(s: State, id: JobId, action: Action)
    requires id in s.jobs && EffectOf(s, id, action).Some?
    ensures KeepsFlow(s.jobs[id], EffectOf(s, id, action).value)
  {
    EffectKeepsIdentity(s, id, action);
    ActionPlaces(s, id, action);
    hide EffectOf;
  }

  lemma ActionPlaces(s: State, id: JobId, action: Action)
    requires id in s.jobs && EffectOf(s, id, action).Some?
    ensures var p, e := s.jobs[id], EffectOf(s, id, action).value;
            && (e.acks ==> p.place == Leaving) && (p.place == Notifying ==> e.after.Some?)
            && (e.after.Some? ==>
                  && (e.after.value.place == WaitingChildren <==> p.place == WaitingChildren)
                  && (e.after.value.place == Notifying <==> e.acks || p.place == Notifying))
  {
    hide *;
    if OnTheWayOut(action) {
      ActionPlacesOut(s, id, action);
    } else {
      ActionPlacesElse(s, id, action);
    }
  }

  lemma ActionPlacesOut(s: State, id: JobId, action: Action)
    requires id in s.jobs && EffectOf(s, id, action).Some? && OnTheWayOut(action)
    ensures var p, e := s.jobs[id], EffectOf(s, id, action).value;
            && (e.acks ==> p.place == Leaving) && (p.place == Notifying ==> e.after.Some?)
            && (e.after.Some? ==>
                  && (e.after.value.place == WaitingChildren <==> p.place == WaitingChildren)
                  && (e.after.value.place == Notifying <==> e.acks || p.place == Notifying))
  {
  }

  lemma ActionPlacesElse(s: State, id: JobId, action: Action)
    requires id in s.jobs && EffectOf(s, id, action).Some? && !OnTheWayOut(action)
    ensures var p, e := s.jobs[id], EffectOf(s, id, action).value;
            && (e.acks ==> p.place == Leaving) && (p.place == Notifying ==> e.after.Some?)
            && (e.after.Some? ==>
                  && (e.after.value.place == WaitingChildren <==> p.place == WaitingChildren)
                  && (e.after.value.place == Notifying <==> e.acks || p.place == Notifying))
  {
    hide AckEffect, FailEffect, RequeueEffect, StallCount, DepsPending, IsStalled, Judged, Retrievable, CanTake;
  }

  lemma EffectIsSimilar(s: State, id: JobId, e: Effect)
    requires id in s.jobs && (e.after.Some? ==> SameFlow(s.jobs[id], e.after.value))
    ensures Similar(s, Apply(s, id, e))
  {
  }

  lemma EffectKeepsUntold(s: State, id: JobId, e: Effect)
    requires AckedIsUntold(s) && id in s.jobs && KeepsFlow(s.jobs[id], e)
    ensures AckedIsUntold(Apply(s, id, e))
  {
  }

  lemma ActionKeepsSound(s: State, id: JobId, action: Action)
    requires Sound(s)
    ensures Sound(Act(s, id, action))
  {
    hide EffectOf, Linked, AckedIsUntold, Waiting, Ready, Fresh, Similar, Apply;
    StepKeepsFresh(s, On(id, action));
    if id in s.jobs && EffectOf(s, id, action).Some? {
      var e := EffectOf(s, id, action).value;
      ActionKeepsFlow(s, id, action);
      EffectIsSimilar(s, id, e);
      EffectKeepsUntold(s, id, e);
      SimilarKeepsSound(s, Apply(s, id, e));
    }
  }

  lemma AddingKeepsSound(s: State, s': State, id: JobId, p: Placed)
    requires Sound(s) && id >= s.nextId && Fresh(s')
    requires s'.jobs == s.jobs[id := p] && s'.acked == s.acked && s'.nextId >= s.nextId
    requires (p.place == Queued || p.place == WaitingDeps) && p.job.parentId == None && p.job.childrenIds == []
    ensures Sound(s')
  {
    assert Similar(s, s') && AckedIsUntold(s');
    hide Linked, Waiting, Ready, Similar, AckedIsUntold, Fresh;
    SimilarKeepsSound(s, s');
  }

  lemma SameJobsKeepSound(s: State, s': State)
    requires Sound(s) && Fresh(s')
    requires s'.jobs == s.jobs && s'.acked == s.acked && s'.nextId >= s.nextId
    ensures Sound(s')
  {
    assert Similar(s, s') && AckedIsUntold(s');
    hide Linked, Waiting, Ready, Similar, AckedIsUntold, Fresh;
    SimilarKeepsSound(s, s');
  }

  lemma PushKeepsSound(s: State, queue: string, input: JobInput, id: JobId, now: nat)
    requires Sound(s) && id >= s.nextId
    ensures Sound(PushAs(s, queue, input, id, now).state)
  {
    var r, job := PushAs(s, queue, input, id, now), CreateJob(id, queue, input, now);
    PushShape(s, queue, input, id, now);
    StepKeepsFresh(s, Push(queue, input, id, now));
    hide PushAs, Sound, Fresh;
    if r.outcome.Created? {
      AddingKeepsSound(s, r.state, id, Placed(StartPlace(s.completed, job), job));
    } else {
      SameJobsKeepSound(s, r.state);
    }
  }

  lemma ObliterateKeepsSound(s: State, queue: string)
    requires Sound(s)
    ensures Sound(Obliterated(s, queue))
  {
    var s' := Obliterated(s, queue);
    ObliterateShape(s, queue);
    StepKeepsFresh(s, Obliterate(queue));
    hide Obliterated;
    assert Similar(s, s') && AckedIsUntold(s');
    hide Linked, Waiting, Ready, Similar, AckedIsUntold, Fresh;
    SimilarKeepsSound(s, s');
  }

  lemma QuietKeepsSound(s: State, step: Step)
    requires Sound(s) && IsQuiet(step)
    ensures Sound(Next(s, step))
  {
    QuietShape(s, step);
    StepKeepsFresh(s, step);
    hide Next, Sound, Fresh;
    SameJobsKeepSound(s, Next(s, step));
  }

  // ---- Opening a flow ----

  ghost predicate AddsFlow(s: State, s': State, ids: seq<JobId>) {
    var p := s.nextId;
    && At(s', p, WaitingChildren) && s'.jobs[p].job.parentId == None
    && s'.jobs[p].job.childrenCompleted == 0 && s'.jobs[p].job.childrenIds == ids
    && (forall k: JobId | k in s'.jobs && k < p :: k in s.jobs && s'.jobs[k] == s.jobs[k])
    && (forall k: JobId | k in s'.jobs && k > p ::
          && s'.jobs[k].place == Allocated && s'.jobs[k].job.parentId == Some(p) && k in ids
          && s'.jobs[k].job.childrenIds == [])
    && (forall k | k in ids :: p < k < s'.nextId)
    && s'.acked == s.acked && p < s'.nextId
  }

  lemma OpenFlowAdds(s: State, queue: string, data: string, children: seq<FlowChild>, priority: int, now: nat)
    requires Fresh(s)
    ensures AddsFlow(s, OpenFlow(s, queue, data, children, priority, now), ChildIds(s.nextId, |children|))
    ensures NoneTwice(ChildIds(s.nextId, |children|))
  {
    var s', p := OpenFlow(s, queue, data, children, priority, now), s.nextId;
    forall k: JobId | k in s'.jobs && k > p
      ensures s'.jobs[k] == Placed(Allocated, ChildJob(p, children, k, now)) && k in ChildIds(p, |children|)
    {
      assert ChildIds(p, |children|)[k - p - 1] == k;
    }
  }

  lemma AddedFlowIsLinked(s: State, s': State, ids: seq<JobId>)
    requires Fresh(s) && Linked(s) && Waiting(s) && AddsFlow(s, s', ids)
    ensures Linked(s')
  {
    ChildrenAreOld(s);
    hide Waiting, Waits, Fresh;
    AddedParents(s, s', ids);
  }

  lemma ChildrenAreOld(s: State)
    requires Fresh(s) && Waiting(s)
    ensures forall k | k in s.jobs :: k < s.nextId
    ensures forall p, c | At(s, p, WaitingChildren) && c in s.jobs[p].job.childrenIds :: c < s.nextId
  {
    assert forall p | At(s, p, WaitingChildren) :: Waits(s, s.jobs[p].job);
  }

  lemma AddedParents(s: State, s': State, ids: seq<JobId>)
    requires Linked(s) && AddsFlow(s, s', ids)
    requires forall k | k in s.jobs :: k < s.nextId
    requires forall p, c | At(s, p, WaitingChildren) && c in s.jobs[p].job.childrenIds :: c < s.nextId
    ensures Linked(s')
  {
    forall c | c in s'.jobs && s'.jobs[c].job.parentId.Some?
      ensures s'.jobs[c].job.parentId.value < s'.nextId
      ensures var p := s'.jobs[c].job.parentId.value; At(s', p, WaitingChildren) ==> c in s'.jobs[p].job.childrenIds
    {
      AddedChild(s, s', ids, c);
    }
    forall p, c | At(s', p, WaitingChildren) && c in s'.jobs[p].job.childrenIds && c in s'.jobs
      ensures s'.jobs[c].job.parentId == Some(p)
    {
      AddedParent(s, s', ids, p, c);
    }
    hide AddsFlow;
  }

  lemma AddedChild(s: State, s': State, ids: seq<JobId>, c: JobId)
    requires Linked(s) && AddsFlow(s, s', ids) && c in s'.jobs && s'.jobs[c].job.parentId.Some?
    ensures s'.jobs[c].job.parentId.value < s'.nextId
    ensures var p := s'.jobs[c].job.parentId.value; At(s', p, WaitingChildren) ==> c in s'.jobs[p].job.childrenIds
  {
  }

  lemma AddedParent(s: State, s': State, ids: seq<JobId>, p: JobId, c: JobId)
    requires Linked(s) && AddsFlow(s, s', ids)
    requires forall q, d | At(s, q, WaitingChildren) && d in s.jobs[q].job.childrenIds :: d < s.nextId
    requires At(s', p, WaitingChildren) && c in s'.jobs[p].job.childrenIds && c in s'.jobs
    ensures s'.jobs[c].job.parentId == Some(p)
  {
    if p != s.nextId {
      assert p < s.nextId && At(s, p, WaitingChildren);
    }
  }

  lemma AddedFlowWaits(s: State, s': State, ids: seq<JobId>)
    requires Fresh(s) && Waiting(s) && AckedIsUntold(s) && Ready(s) && AddsFlow(s, s', ids) && NoneTwice(ids)
             && ids != []
    ensures Waiting(s') && AckedIsUntold(s') && Ready(s')
  {
    forall p: JobId | At(s', p, WaitingChildren)
      ensures Waits(s', s'.jobs[p].job)
    {
      if p != s.nextId {
        assert p < s.nextId && At(s, p, WaitingChildren);
        DoneGrows(s, s', s.jobs[p].job.childrenIds);
      }
    }
  }

  lemma FlowKeepsSound(s: State, queue: string, data: string, children: seq<FlowChild>, priority: int, now: nat)
    requires Sound(s) && children != []
    ensures Sound(OpenFlow(s, queue, data, children, priority, now))
  {
    hide OpenFlow, Linked, Waiting, AckedIsUntold, Ready, AddsFlow, Fresh, NoneTwice;
    var s', ids := OpenFlow(s, queue, data, children, priority, now), ChildIds(s.nextId, |children|);
    StepKeepsFresh(s, PushFlow(queue, data, children, priority, now));
    OpenFlowAdds(s, queue, data, children, priority, now);
    AddedFlowIsLinked(s, s', ids);
    AddedFlowWaits(s, s', ids);
  }

  // ---- Telling the parent ----

  /** The parent's count moves with the set of done children, and the last one completes it. */
  lemma TellingCounts(s: State, s1: State, id: JobId, p: JobId)
    requires Sound(s) && At(s, id, Notifying) && s.jobs[id].job.parentId == Some(p)
    requires s1 == Apply(s, id, Vanishes(s.jobs[id].job))
    requires At(s1, p, WaitingChildren)
    ensures var parent := s1.jobs[p].job;
            && At(s, p, WaitingChildren) && parent == s.jobs[p].job
            && |Done(s1, parent.childrenIds)| == |Done(s, parent.childrenIds)| + 1
            && (parent.childrenCompleted + 1 >= |parent.childrenIds| ==> AllDone(s1, parent.childrenIds))
  {
    var ids := s1.jobs[p].job.childrenIds;
    assert id in ids && id !in Done(s, ids);
    assert Done(s1, ids) == Done(s, ids) + {id};
    Cardinality(Done(s1, ids), ToSet(ids));
    DistinctCardinality(ids);
    assert |Done(s1, ids)| == |ids| ==> forall c | c in ids :: c in ToSet(ids) && c in Done(s1, ids);
  }

  /** The parent counts: it keeps waiting, or it is queued with all children acked. */
  lemma CountingKeepsSound(s: State, s': State, p: JobId, told: Job, place: Place)
    requires Sound(s) && At(s, p, WaitingChildren) && Fresh(s')
    requires s'.jobs == s.jobs[p := Placed(place, told)] && s'.acked == s.acked && s'.nextId == s.nextId
    requires told.parentId == s.jobs[p].job.parentId && told.childrenIds == s.jobs[p].job.childrenIds
    requires told.childrenCompleted <= |Done(s, told.childrenIds)|
    requires place == if told.childrenCompleted >= |told.childrenIds| then Queued else WaitingChildren
    requires place == Queued ==> AllDone(s, told.childrenIds)
    ensures Sound(s')
  {
    CountingKeepsLinked(s, s', p, told, place);
    CountingKeepsReady(s, s', p, told, place);
    hide Linked, AckedIsUntold, Ready, AllDone, Fresh;
    forall q | At(s', q, WaitingChildren)
      ensures Waits(s', s'.jobs[q].job)
    {
      assert Done(s', s'.jobs[q].job.childrenIds) == Done(s, s'.jobs[q].job.childrenIds);
    }
  }

  lemma CountingKeepsReady(s: State, s': State, p: JobId, told: Job, place: Place)
    requires AckedIsUntold(s) && Ready(s) && At(s, p, WaitingChildren) && (place == Queued || place == WaitingChildren)
    requires s'.jobs == s.jobs[p := Placed(place, told)] && s'.acked == s.acked
    requires place == Queued ==> AllDone(s, told.childrenIds)
    ensures AckedIsUntold(s') && Ready(s')
  {
    assert s'.jobs.Keys == s.jobs.Keys;
  }

  lemma CountingKeepsLinked(s: State, s': State, p: JobId, told: Job, place: Place)
    requires Linked(s) && At(s, p, WaitingChildren)
    requires s'.jobs == s.jobs[p := Placed(place, told)] && s'.nextId == s.nextId
    requires told.parentId == s.jobs[p].job.parentId && told.childrenIds == s.jobs[p].job.childrenIds
    ensures Linked(s')
  {
    assert forall q | At(s', q, WaitingChildren) :: At(s, q, WaitingChildren)
                                                    && s'.jobs[q].job.childrenIds == s.jobs[q].job.childrenIds;
  }

  lemma TellKeepsSound(s: State, id: JobId)
    requires Sound(s) && At(s, id, Notifying)
    ensures Sound(TellParent(s, id))
  {
    hide Linked, Waiting, Ready, Similar, Fresh, Done, Sound;
    var gone, parentId := Vanishes(s.jobs[id].job), s.jobs[id].job.parentId;
    var s1 := Apply(s, id, gone);
    EffectIsSimilar(s, id, gone);
    TellKeepsParts(s, s1, id);
    SimilarKeepsSound(s, s1);
    if parentId.Some? && At(s1, parentId.value, WaitingChildren) {
      var p := parentId.value;
      TellingCounts(s, s1, id, p);
      WaitsMeans(s, p);
      var told := s1.jobs[p].job.(childrenCompleted := s1.jobs[p].job.childrenCompleted + 1);
      CountingKeepsSound(s1, TellParent(s, id), p, told,
                         if told.childrenCompleted >= |told.childrenIds| then Queued else WaitingChildren);
    }
  }

  lemma WaitsMeans(s: State, p: JobId)
    requires Sound(s) && At(s, p, WaitingChildren)
    ensures Waits(s, s.jobs[p].job)
  {
  }

  lemma TellKeepsParts(s: State, s1: State, id: JobId)
    requires Sound(s) && At(s, id, Notifying) && s1 == Apply(s, id, Vanishes(s.jobs[id].job))
    ensures AckedIsUntold(s) && Fresh(s1) && AckedIsUntold(s1) && Fresh(TellParent(s, id))
  {
    StepKeepsFresh(s, Tell(id));
  }

  // ---- Runs ----

  lemma StepKeepsSound(s: State, step: Step)
    requires Sound(s)
    ensures Sound(Next(s, step))
  {
    hide Sound, Act, PushAs, OpenFlow, Obliterated;
    match step
    case On(id, action) => ActionKeepsSound(s, id, action);
    case Push(queue, input, newId, now) =>
      if newId >= s.nextId {
        PushKeepsSound(s, queue, input, newId, now);
      }
    case PushFlow(queue, data, children, priority, now) =>
      if children != [] {
        FlowKeepsSound(s, queue, data, children, priority, now);
      }
    case Tell(id) =>
      if At(s, id, Notifying) {
        TellKeepsSound(s, id);
      }
    case Obliterate(queue) => ObliterateKeepsSound(s, queue);
    case _ => QuietKeepsSound(s, step);
  }

  lemma {:induction false} RunKeepsSound(s: State, steps: seq<Step>)
    requires Sound(s)
    ensures Sound(Run(s, steps))
    decreases |steps|
  {
    hide Sound, Next;
    if steps != [] {
      StepKeepsSound(s, steps[0]);
      RunKeepsSound(Next(s, steps[0]), steps[1..]);
    }
  }

  // ---- Exact counting ----

  /** A waiting parent has counted every child whose ack it could hear of. */
  ghost predicate Exact(s: State) {
    forall p | At(s, p, WaitingChildren) :: s.jobs[p].job.childrenCompleted == |Done(s, s.jobs[p].job.childrenIds)|
  }

  /** No flow child is acked by a batch, which tells no parent. */
  predicate Tells(s: State, step: Step) {
    step.On? && step.action.BatchAck? && At(s, step.id, Leaving) ==> s.jobs[step.id].job.parentId.None?
  }

  predicate TellingRun(s: State, steps: seq<Step>)
    decreases |steps|
  {
    steps == [] || (Tells(s, steps[0]) && TellingRun(Next(s, steps[0]), steps[1..]))
  }

  /** Who is acked was live, and leaves no parent untold. */
  ghost predicate Heard(s: State, s': State) {
    && (forall c | c in s'.acked && c !in s.acked :: c in s.jobs)
    && (forall c | c in s'.acked && c in s.jobs && c !in s'.jobs :: s.jobs[c].job.parentId.None?)
  }

  lemma HeardKeepsExact(s: State, s': State)
    requires Sound(s) && Similar(s, s') && Heard(s, s') && Exact(s)
    ensures Exact(s')
  {
    forall p | At(s', p, WaitingChildren)
      ensures s'.jobs[p].job.childrenCompleted == |Done(s', s'.jobs[p].job.childrenIds)|
    {
      var ids := s.jobs[p].job.childrenIds;
      assert Waits(s, s.jobs[p].job);
      forall c | c in ids
        ensures c in Done(s', ids) <==> c in Done(s, ids)
      {
      }
      assert Done(s', ids) == Done(s, ids);
    }
  }

  lemma ActionKeepsExact(s: State, id: JobId, action: Action)
    requires Sound(s) && Exact(s) && Tells(s, On(id, action))
    ensures Exact(Act(s, id, action))
  {
    hide EffectOf, Linked, Waiting, Ready, Fresh, Similar, Exact;
    if id in s.jobs && EffectOf(s, id, action).Some? {
      var e := EffectOf(s, id, action).value;
      ActionKeepsFlow(s, id, action);
      AckTells(s, id, action);
      EffectIsSimilar(s, id, e);
      HeardKeepsExact(s, Apply(s, id, e));
    }
  }

  lemma AckTells(s: State, id: JobId, action: Action)
    requires id in s.jobs && EffectOf(s, id, action).Some? && Tells(s, On(id, action))
    ensures var e := EffectOf(s, id, action).value;
            e.acks && e.after.None? ==> s.jobs[id].job.parentId.None?
  {
  }

  lemma PushKeepsExact(s: State, queue: string, input: JobInput, id: JobId, now: nat)
    requires Sound(s) && id >= s.nextId && Exact(s)
    ensures Exact(PushAs(s, queue, input, id, now).state)
  {
    var s' := PushAs(s, queue, input, id, now).state;
    PushShape(s, queue, input, id, now);
    hide PushAs;
    assert Similar(s, s') && Heard(s, s');
    HeardKeepsExact(s, s');
  }

  lemma ObliterateKeepsExact(s: State, queue: string)
    requires Sound(s) && Exact(s)
    ensures Exact(Obliterated(s, queue))
  {
    var s' := Obliterated(s, queue);
    ObliterateShape(s, queue);
    hide Obliterated;
    assert Similar(s, s') && Heard(s, s');
    HeardKeepsExact(s, s');
  }

  lemma FlowKeepsExact(s: State, queue: string, data: string, children: seq<FlowChild>, priority: int, now: nat)
    requires Sound(s) && Exact(s)
    ensures Exact(OpenFlow(s, queue, data, children, priority, now))
  {
    var s', ids := OpenFlow(s, queue, data, children, priority, now), ChildIds(s.nextId, |children|);
    OpenFlowAdds(s, queue, data, children, priority, now);
    hide OpenFlow, ChildIds, Linked, Ready, AckedIsUntold;
    forall p: JobId | At(s', p, WaitingChildren)
      ensures s'.jobs[p].job.childrenCompleted == |Done(s', s'.jobs[p].job.childrenIds)|
    {
      if p == s.nextId {
        assert Done(s', ids) == {};
      } else {
        assert p < s.nextId && At(s, p, WaitingChildren) && Waits(s, s.jobs[p].job);
        assert Done(s', s.jobs[p].job.childrenIds) == Done(s, s.jobs[p].job.childrenIds);
      }
    }
  }

  lemma TellKeepsExact(s: State, id: JobId)
    requires Sound(s) && At(s, id, Notifying) && Exact(s)
    ensures Exact(TellParent(s, id))
  {
    var parentId, s1, s' := s.jobs[id].job.parentId, Apply(s, id, Vanishes(s.jobs[id].job)), TellParent(s, id);
    TellShape(s, s1, id);
    VanishShape(s, s1, id);
    ChildrenOf(s, id);
    hide TellParent, Apply, Sound;
    forall q | At(s', q, WaitingChildren)
      ensures s'.jobs[q].job.childrenCompleted == |Done(s', s'.jobs[q].job.childrenIds)|
    {
      var ids := s1.jobs[q].job.childrenIds;
      assert Done(s', ids) == Done(s1, ids);
      if parentId == Some(q) {
        TellingCounts(s, s1, id, q);
      } else {
        assert Done(s1, ids) == Done(s, ids);
      }
    }
  }

  lemma VanishShape(s: State, s1: State, id: JobId)
    requires id in s.jobs && s1 == Apply(s, id, Vanishes(s.jobs[id].job))
    ensures s1.jobs == s.jobs - {id} && s1.acked == s.acked && s1.nextId == s.nextId
  {
  }

  /** A live child is a child of nobody but its parent. */
  lemma ChildrenOf(s: State, id: JobId)
    requires Sound(s) && id in s.jobs
    ensures forall q | At(s, q, WaitingChildren) && s.jobs[id].job.parentId != Some(q) ::
              id !in s.jobs[q].job.childrenIds
  {
  }

  lemma StepKeepsExact(s: State, step: Step)
    requires Sound(s) && Exact(s) && Tells(s, step)
    ensures Exact(Next(s, step))
  {
    hide Sound, Exact, Act, PushAs, OpenFlow, Obliterated, Tells;
    match step
    case On(id, action) => ActionKeepsExact(s, id, action);
    case Push(queue, input, newId, now) =>
      if newId >= s.nextId {
        PushKeepsExact(s, queue, input, newId, now);
      }
    case PushFlow(queue, data, children, priority, now) => FlowKeepsExact(s, queue, data, children, priority, now);
    case Tell(id) =>
      if At(s, id, Notifying) {
        TellKeepsExact(s, id);
      }
    case Obliterate(queue) => ObliterateKeepsExact(s, queue);
    case _ => QuietKeepsExact(s, step);
  }

  lemma QuietKeepsExact(s: State, step: Step)
    requires Sound(s) && Exact(s) && IsQuiet(step)
    ensures Exact(Next(s, step))
  {
    QuietShape(s, step);
    hide Next;
    assert Similar(s, Next(s, step)) && Heard(s, Next(s, step));
    HeardKeepsExact(s, Next(s, step));
  }

  lemma {:induction false} RunKeepsExact(s: State, steps: seq<Step>)
    requires Sound(s) && Exact(s) && TellingRun(s, steps)
    ensures Sound(Run(s, steps)) && Exact(Run(s, steps))
    decreases |steps|
  {
    hide Sound, Exact, Next, Tells;
    if steps != [] {
      StepKeepsSound(s, steps[0]);
      StepKeepsExact(s, steps[0]);
      RunKeepsExact(Next(s, steps[0]), steps[1..]);
    }
  }

  /** Flow safety: wherever a parent is found outside `waiting_children`, in any run, every one of its
      distinct children was acked; while it waits it has counted no more acks than there were. */
  lemma FlowSafety(steps: seq<Step>, p: JobId)
    requires p in Run(INITIAL, steps).jobs
    ensures var s := Run(INITIAL, steps);
            var parent := s.jobs[p].job;
            && (s.jobs[p].place != WaitingChildren ==> AllDone(s, parent.childrenIds))
            && (s.jobs[p].place == WaitingChildren ==>
                  && NoneTwice(parent.childrenIds)
                  && parent.childrenCompleted <= |Acked(s, parent.childrenIds)|)
  {
    RunKeepsSound(INITIAL, steps);
    var s := Run(INITIAL, steps);
    var ids := s.jobs[p].job.childrenIds;
    if s.jobs[p].place == WaitingChildren {
      assert Waits(s, s.jobs[p].job);
      Cardinality(Done(s, ids), Acked(s, ids));
    }
  }

  /** When flow children are acked one by one, a flow parent waits just as long as some child has not
      been acked and reported: it is released by its last child, neither sooner nor later. */
  lemma ReleasedByLastChild(steps: seq<Step>, p: JobId)
    requires TellingRun(INITIAL, steps) && p in Run(INITIAL, steps).jobs
    requires Run(INITIAL, steps).jobs[p].job.childrenIds != []
    ensures var s := Run(INITIAL, steps);
            var parent := s.jobs[p].job;
            && (s.jobs[p].place == WaitingChildren <==> !AllDone(s, parent.childrenIds))
            && (s.jobs[p].place == WaitingChildren ==> parent.childrenCompleted == |Done(s, parent.childrenIds)|)
  {
    RunKeepsExact(INITIAL, steps);
    var s := Run(INITIAL, steps);
    var ids := s.jobs[p].job.childrenIds;
    if s.jobs[p].place == WaitingChildren {
      assert Waits(s, s.jobs[p].job);
      DistinctCardinality(ids);
      assert AllDone(s, ids) ==> Done(s, ids) == ToSet(ids);
    }
  }

  // ---- Stranded parents ----

  /** `p` waits for one ack too many: `c` is done and will not be counted. */
  ghost predicate Stranded(s: State, p: JobId, c: JobId) {
    p < s.nextId
    && (p in s.jobs ==>
          && At(s, p, WaitingChildren) && c in Done(s, s.jobs[p].job.childrenIds)
          && s.jobs[p].job.childrenCompleted <= |Done(s, s.jobs[p].job.childrenIds) - {c}|)
  }

  lemma SimilarKeepsStranded(s: State, s': State, p: JobId, c: JobId)
    requires Fresh(s) && Similar(s, s') && Stranded(s, p, c)
    ensures Stranded(s', p, c)
  {
    if p in s'.jobs {
      var ids := s.jobs[p].job.childrenIds;
      assert Done(s, ids) <= Done(s', ids);
      Cardinality(Done(s, ids) - {c}, Done(s', ids) - {c});
    }
  }

  lemma FlowKeepsStranded(s: State, s': State, ids: seq<JobId>, p: JobId, c: JobId)
    requires Fresh(s) && AddsFlow(s, s', ids) && Stranded(s, p, c)
    ensures Stranded(s', p, c)
  {
    if p in s'.jobs {
      var children := s.jobs[p].job.childrenIds;
      assert Done(s, children) <= Done(s', children);
      Cardinality(Done(s, children) - {c}, Done(s', children) - {c});
    }
  }

  lemma TellKeepsStranded(s: State, id: JobId, p: JobId, c: JobId)
    requires Sound(s) && At(s, id, Notifying) && Stranded(s, p, c)
    ensures Stranded(TellParent(s, id), p, c)
  {
    var s1 := Apply(s, id, Vanishes(s.jobs[id].job));
    SoundMeansFresh(s);
    EffectIsSimilar(s, id, Vanishes(s.jobs[id].job));
    TellShape(s, s1, id);
    hide Sound, Fresh, Similar, TellParent, Apply, Stranded;
    SimilarKeepsStranded(s, s1, p, c);
    if s.jobs[id].job.parentId == Some(p) && At(s1, p, WaitingChildren) {
      TellingStranded(s, s1, id, p, c);
    }
    ToldStranded(s, s1, TellParent(s, id), id, p, c);
  }

  lemma ToldStranded(s: State, s1: State, s': State, id: JobId, p: JobId, c: JobId)
    requires Stranded(s1, p, c) && id in s.jobs
    requires s'.acked == s1.acked && s'.nextId == s1.nextId && s'.jobs.Keys == s1.jobs.Keys
    requires var parentId := s.jobs[id].job.parentId;
             && (p in s1.jobs && parentId != Some(p) ==> s'.jobs[p] == s1.jobs[p])
             && (p in s1.jobs && parentId == Some(p) ==>
                   var was, now := s1.jobs[p].job, s'.jobs[p];
                   && now.job == was.(childrenCompleted := was.childrenCompleted + 1)
                   && (now.place == WaitingChildren <==> was.childrenCompleted + 1 < |was.childrenIds|)
                   && was.childrenCompleted + 1 <= |Done(s1, was.childrenIds) - {c}|
                   && was.childrenCompleted + 1 < |was.childrenIds|)
    ensures Stranded(s', p, c)
  {
    if p in s1.jobs {
      assert Done(s', s1.jobs[p].job.childrenIds) == Done(s1, s1.jobs[p].job.childrenIds);
    }
  }

  lemma TellShape(s: State, s1: State, id: JobId)
    requires At(s, id, Notifying) && s1 == Apply(s, id, Vanishes(s.jobs[id].job))
    ensures var s', parentId := TellParent(s, id), s.jobs[id].job.parentId;
            && s'.acked == s1.acked && s'.nextId == s1.nextId && s'.jobs.Keys == s1.jobs.Keys
            && (forall k | k in s1.jobs && parentId != Some(k) :: s'.jobs[k] == s1.jobs[k])
            && (parentId.Some? && At(s1, parentId.value, WaitingChildren) ==>
                  var was, now := s1.jobs[parentId.value].job, s'.jobs[parentId.value];
                  && now.job == was.(childrenCompleted := was.childrenCompleted + 1)
                  && (now.place == WaitingChildren <==> was.childrenCompleted + 1 < |was.childrenIds|))
            && (parentId.Some? && !At(s1, parentId.value, WaitingChildren) ==> s' == s1)
  {
  }

  lemma SoundMeansFresh(s: State)
    requires Sound(s)
    ensures Fresh(s)
  {
  }

  /** The parent counts one more, of one more done; it stays short by `c`. */
  lemma TellingStranded(s: State, s1: State, id: JobId, p: JobId, c: JobId)
    requires Sound(s) && At(s, id, Notifying) && s.jobs[id].job.parentId == Some(p) && Stranded(s, p, c)
    requires s1 == Apply(s, id, Vanishes(s.jobs[id].job)) && At(s1, p, WaitingChildren)
    ensures var parent := s1.jobs[p].job;
            && parent.childrenCompleted + 1 <= |Done(s1, parent.childrenIds) - {c}|
            && parent.childrenCompleted + 1 < |parent.childrenIds|
  {
    var ids := s1.jobs[p].job.childrenIds;
    TellingCounts(s, s1, id, p);
    assert Waits(s, s.jobs[p].job);
    assert c in Done(s, ids) && c in Done(s1, ids);
    DistinctCardinality(ids);
    Cardinality(Done(s1, ids), ToSet(ids));
  }

  lemma StepKeepsStranded(s: State, step: Step, p: JobId, c: JobId)
    requires Sound(s) && Stranded(s, p, c)
    ensures Stranded(Next(s, step), p, c)
  {
    hide Sound, Stranded, PushAs, OpenFlow, Obliterated, TellParent, Similar, Fresh, EffectOf, Apply, AddsFlow;
    SoundMeansFresh(s);
    match step
    case On(id, action) =>
      if id in s.jobs && EffectOf(s, id, action).Some? {
        ActionKeepsFlow(s, id, action);
        EffectIsSimilar(s, id, EffectOf(s, id, action).value);
        SimilarKeepsStranded(s, Next(s, step), p, c);
      }
    case PushFlow(queue, data, children, priority, now) =>
      if children != [] {
        OpenFlowAdds(s, queue, data, children, priority, now);
        FlowKeepsStranded(s, Next(s, step), ChildIds(s.nextId, |children|), p, c);
      }
    case Tell(id) =>
      if At(s, id, Notifying) {
        TellKeepsStranded(s, id, p, c);
      } else {
        NoTell(s, id);
      }
    case _ =>
      OthersAreSimilar(s, step);
      SimilarKeepsStranded(s, Next(s, step), p, c);
  }

  lemma NoTell(s: State, id: JobId)
    requires !At(s, id, Notifying)
    ensures TellParent(s, id) == s
  {
  }

  lemma OthersAreSimilar(s: State, step: Step)
    requires Fresh(s) && !step.On? && !step.PushFlow? && !step.Tell?
    ensures Similar(s, Next(s, step))
  {
    hide PushAs, Obliterated;
    match step
    case Push(queue, input, newId, now) => PushShape(s, queue, input, newId, now);
    case Obliterate(queue) => ObliterateShape(s, queue);
    case _ => QuietShape(s, step);
  }

  lemma {:induction false} RunKeepsStranded(s: State, steps: seq<Step>, p: JobId, c: JobId)
    requires Sound(s) && Stranded(s, p, c)
    ensures Stranded(Run(s, steps), p, c)
    decreases |steps|
  {
    hide Sound, Stranded, Next;
    if steps != [] {
      StepKeepsSound(s, steps[0]);
      StepKeepsStranded(s, steps[0], p, c);
      RunKeepsStranded(Next(s, steps[0]), steps[1..], p, c);
    }
  }

  /** The condition of `ReleasedByLastChild` cannot be dropped: one flow child acked by a batch, and its
      parent never leaves `waiting_children` again but by being removed. */
  lemma BatchAckStrandsParent(s: State, c: JobId, p: JobId, queue: string, steps: seq<Step>)
    requires Sound(s) && At(s, c, Leaving) && s.jobs[c].job.parentId == Some(p) && At(s, p, WaitingChildren)
    ensures var s' := Run(Next(s, On(c, BatchAck(queue))), steps);
            p in s'.jobs ==> At(s', p, WaitingChildren)
  {
    var step := On(c, BatchAck(queue));
    StepKeepsSound(s, step);
    BatchAckStrands(s, c, p, queue);
    hide Next, Sound;
    RunKeepsStranded(Next(s, step), steps, p, c);
  }

  lemma BatchAckStrands(s: State, c: JobId, p: JobId, queue: string)
    requires Sound(s) && At(s, c, Leaving) && s.jobs[c].job.parentId == Some(p) && At(s, p, WaitingChildren)
    ensures Stranded(Next(s, On(c, BatchAck(queue))), p, c)
  {
    var s1, ids := Next(s, On(c, BatchAck(queue))), s.jobs[p].job.childrenIds;
    BatchAckShape(s, c, queue);
    assert Waits(s, s.jobs[p].job) && c in ids && c !in Done(s, ids) && p < s.nextId;
    hide Sound, Next;
    assert Done(s1, ids) - {c} == Done(s, ids);
  }

  lemma BatchAckShape(s: State, c: JobId, queue: string)
    requires At(s, c, Leaving)
    ensures var s1 := Next(s, On(c, BatchAck(queue)));
            s1.jobs == s.jobs - {c} && s1.acked == s.acked + {c} && s1.nextId == s.nextId
  {
    assert Next(s, On(c, BatchAck(queue))) == Apply(s, c, AckEffect(s.jobs[c].job, queue, false));
  }
}
