/** Unique keys: at most one live job per (queue, key), and its key is taken. */
module UniqueKeys {
  import opened Protocol
  import opened Engine

  type Key = (string, string)

  predicate Bears(jobs: map<JobId, Placed>, id: JobId) {
    id in jobs && jobs[id].place != Notifying && jobs[id].job.uniqueKey.Some?
  }

  function KeyOf(jobs: map<JobId, Placed>, id: JobId): Key
    requires Bears(jobs, id)
  {
    (jobs[id].job.queue, jobs[id].job.uniqueKey.value)
  }

  /** `obliterate` drops the keys of a queue under the shard lock and sweeps its jobs out of processing
      afterwards. In between the keyed ones among them are doomed: live, but without their key. */
  datatype Watch = Watch(state: State, doomed: set<JobId>)

  predicate Claims(w: Watch, id: JobId) {
    Bears(w.state.jobs, id) && id !in w.doomed
  }

  ghost predicate Unique(w: Watch) {
    && (forall id | Claims(w, id) :: KeyOf(w.state.jobs, id) in w.state.keys)
    && (forall a, b | Claims(w, a) && Claims(w, b) && KeyOf(w.state.jobs, a) == KeyOf(w.state.jobs, b) :: a == b)
  }

  /** A doomed job is in processing, where the sweep will find it. */
  ghost predicate Watched(w: Watch) {
    forall id | id in w.doomed :: At(w.state, id, Processing) && Bears(w.state.jobs, id)
  }

  predicate Strips(s: State, step: Step, id: JobId) {
    step.Obliterate? && Bears(s.jobs, id) && s.jobs[id].job.queue == step.queue
  }

  function Follow(w: Watch, step: Step): Watch {
    var s := Next(w.state, step);
    Watch(s, set id | id in s.jobs && At(s, id, Processing) && (id in w.doomed || Strips(w.state, step, id)))
  }

  // ---- Which steps are safe ----

  /** Nobody who counts has this key. */
  ghost predicate Free(w: Watch, key: Key) {
    forall k | Claims(w, k) :: KeyOf(w.state.jobs, k) != key
  }

  predicate MisnamesKey(s: State, step: Step) {
    step.On? && step.action.BatchAck? && At(s, step.id, Leaving)
    && s.jobs[step.id].job.uniqueKey.Some? && step.action.queue != s.jobs[step.id].job.queue
  }

  function MisnamedKey(s: State, step: Step): Key
    requires MisnamesKey(s, step)
  {
    (step.action.queue, s.jobs[step.id].job.uniqueKey.value)
  }

  /** A doomed job gets away before the sweep. */
  predicate Escapes(w: Watch, step: Step) {
    && step.On? && step.id in w.doomed && At(w.state, step.id, Processing) && Bears(w.state.jobs, step.id)
    && (step.action.Leave?
        || (step.action.HandleStall? && step.id in w.state.suspects && w.state.suspects[step.id].Condemned?))
  }

  /** No keyed job of the queue is between two containers. */
  ghost predicate NoneBetween(w: Watch, queue: string) {
    forall id | Claims(w, id) && w.state.jobs[id].job.queue == queue ::
      Obliterates(w.state.jobs[id], queue) || w.state.jobs[id].place == Processing
  }

  /** What the source needs: a batch ack names the job's own queue, or a queue where nobody has that key;
      a queue is obliterated while no keyed job of it is between two containers; and no doomed job gets
      away, unless its key was taken again and nobody has it. */
  ghost predicate KeySafe(w: Watch, step: Step) {
    && (MisnamesKey(w.state, step) ==> Free(w, MisnamedKey(w.state, step)))
    && (step.Obliterate? ==> NoneBetween(w, step.queue))
    && (Escapes(w, step) ==> var key := KeyOf(w.state.jobs, step.id); key in w.state.keys && Free(w, key))
  }

  ghost predicate KeySafeRun(w: Watch, steps: seq<Step>)
    decreases |steps|
  {
    steps == [] || (KeySafe(w, steps[0]) && KeySafeRun(Follow(w, steps[0]), steps[1..]))
  }

  function FollowAll(w: Watch, steps: seq<Step>): Watch
    decreases |steps|
  {
    if steps == [] then w else FollowAll(Follow(w, steps[0]), steps[1..])
  }

  // ---- One job ----

  // What the invariant needs to know of an effect.
  predicate KeepsKey(p: Placed, e: Effect) {
    && (e.after.Some? ==>
          && e.after.value.job.queue == p.job.queue && e.after.value.job.uniqueKey == p.job.uniqueKey
          && (e.after.value.place != Notifying ==> p.place != Notifying && !e.freesKey)
          && (e.after.value.place == Notifying && p.place != Notifying ==> p.place == Leaving))
    && (e.freesKey ==> p.place != Notifying && p.place != Processing)
  }

  lemma ActionKeepsKey(s: State, id: JobId, action: Action)
    requires id in s.jobs && EffectOf(s, id, action).Some?
    ensures var p, e := s.jobs[id], EffectOf(s, id, action).value;
            && KeepsKey(p, e)
            && (e.freesKey && p.job.uniqueKey.Some? && e.queue != p.job.queue <==> MisnamesKey(s, On(id, action)))
            && (MisnamesKey(s, On(id, action)) ==> e.queue == action.queue)
  {
    ActionMovesKey(s, id, action);
    OnlyBatchesMisname(s, id, action);
    hide EffectOf, KeepsKey;
  }

  lemma ActionMovesKey(s: State, id: JobId, action: Action)
    requires id in s.jobs && EffectOf(s, id, action).Some?
    ensures KeepsKey(s.jobs[id], EffectOf(s, id, action).value)
  {
    hide *;
    if OnTheWayOut(action) {
      ActionMovesKeyOut(s, id, action);
    } else {
      ActionMovesKeyElse(s, id, action);
    }
  }

  lemma ActionMovesKeyOut(s: State, id: JobId, action: Action)
    requires id in s.jobs && EffectOf(s, id, action).Some? && OnTheWayOut(action)
    ensures KeepsKey(s.jobs[id], EffectOf(s, id, action).value)
  {
  }

  lemma ActionMovesKeyElse(s: State, id: JobId, action: Action)
    requires id in s.jobs && EffectOf(s, id, action).Some? && !OnTheWayOut(action)
    ensures KeepsKey(s.jobs[id], EffectOf(s, id, action).value)
  {
    hide AckEffect, FailEffect, RequeueEffect, StallCount, DepsPending, IsStalled, Judged, Retrievable;
  }

  lemma OnlyBatchesMisname(s: State, id: JobId, action: Action)
    requires id in s.jobs && EffectOf(s, id, action).Some?
    ensures var e := EffectOf(s, id, action).value;
            e.queue == if action.BatchAck? then action.queue else s.jobs[id].job.queue
    ensures action.BatchAck? ==> EffectOf(s, id, action).value.freesKey && s.jobs[id].place == Leaving
  {
  }

  lemma DoomedEscapes(w: Watch, id: JobId, action: Action)
    requires Watched(w) && id in w.doomed && EffectOf(w.state, id, action).Some?
    ensures var e := EffectOf(w.state, id, action).value;
            Escapes(w, On(id, action)) <==> e.after.Some? && e.after.value.place != Processing
    ensures !MisnamesKey(w.state, On(id, action))
  {
  }

  /** An effect on a job that counts. */
  lemma EffectKeepsUnique(w: Watch, w': Watch, id: JobId, e: Effect)
    requires Unique(w) && id in w.state.jobs && id !in w.doomed && KeepsKey(w.state.jobs[id], e)
    requires w'.doomed == w.doomed && w'.state.jobs == JobsAfter(w.state.jobs, id, e)
    requires w'.state.keys == KeysAfter(w.state.keys, w.state.jobs[id].job, e)
    ensures var job := w.state.jobs[id].job;
            Unique(w')
            <==> (e.freesKey && job.uniqueKey.Some? && e.queue != job.queue ==> Free(w, (e.queue, job.uniqueKey.value)))
  {
    var jobs, jobs', job := w.state.jobs, w'.state.jobs, w.state.jobs[id].job;
    assert forall k | Claims(w', k) && k != id :: Claims(w, k) && KeyOf(jobs, k) == KeyOf(jobs', k);
    assert e.freesKey && job.uniqueKey.Some? ==> Claims(w, id);
    assert Claims(w', id) ==> Claims(w, id) && KeyOf(jobs, id) == KeyOf(jobs', id);
    if e.freesKey && job.uniqueKey.Some? && e.queue != job.queue && !Free(w, (e.queue, job.uniqueKey.value)) {
      var k :| Claims(w, k) && KeyOf(jobs, k) == (e.queue, job.uniqueKey.value);
      assert Claims(w', k) && KeyOf(jobs', k) !in w'.state.keys;
    }
  }

  /** An effect on a doomed job. */
  lemma DoomedKeepsUnique(w: Watch, w': Watch, id: JobId, e: Effect)
    requires Unique(w) && Watched(w) && id in w.doomed && KeepsKey(w.state.jobs[id], e)
    requires w'.state.jobs == JobsAfter(w.state.jobs, id, e) && w'.state.keys == w.state.keys
    requires w'.doomed == if e.after.Some? && e.after.value.place == Processing then w.doomed else w.doomed - {id}
    ensures Unique(w')
            <==> (e.after.Some? && e.after.value.place != Processing ==>
                    var key := KeyOf(w.state.jobs, id); key in w.state.keys && Free(w, key))
  {
    var jobs, jobs' := w.state.jobs, w'.state.jobs;
    assert forall k | k != id :: Claims(w', k) <==> Claims(w, k);
    assert forall k | Claims(w', k) && k != id :: KeyOf(jobs, k) == KeyOf(jobs', k);
    if e.after.Some? && e.after.value.place != Processing {
      var key := KeyOf(jobs, id);
      assert Claims(w', id) && KeyOf(jobs', id) == key;
      if !Free(w, key) {
        var k :| Claims(w, k) && KeyOf(jobs, k) == key;
        assert Claims(w', k) && k != id && KeyOf(jobs', k) == key;
      }
    }
  }

  lemma ActionIsExact(w: Watch, id: JobId, action: Action)
    requires Unique(w) && Watched(w)
    ensures Unique(Follow(w, On(id, action))) <==> KeySafe(w, On(id, action))
    ensures Watched(Follow(w, On(id, action)))
  {
    var w', s := Follow(w, On(id, action)), w.state;
    if id in s.jobs && EffectOf(s, id, action).Some? {
      var e := EffectOf(s, id, action).value;
      ActionKeepsKey(s, id, action);
      if id in w.doomed {
        DoomedEscapes(w, id, action);
        hide EffectOf, Escapes, MisnamesKey;
        assert w'.doomed == if e.after.Some? && e.after.value.place == Processing then w.doomed else w.doomed - {id};
        hide Unique, Free;
        DoomedKeepsUnique(w, w', id, e);
      } else {
        hide EffectOf, MisnamesKey;
        assert w'.doomed == w.doomed;
        hide Unique, Free;
        EffectKeepsUnique(w, w', id, e);
      }
    } else {
      IdleIsSafe(w, id, action);
      hide EffectOf, MisnamesKey, Escapes;
      assert w'.doomed == w.doomed;
    }
  }

  lemma IdleIsSafe(w: Watch, id: JobId, action: Action)
    requires id in w.state.jobs ==> EffectOf(w.state, id, action).None?
    ensures !MisnamesKey(w.state, On(id, action)) && !Escapes(w, On(id, action))
  {
  }

  // ---- The other steps ----

  /** No job with a key comes in, and none loses its key. */
  lemma NoNewBearerKeepsUnique(w: Watch, w': Watch)
    requires Unique(w) && w'.state.keys == w.state.keys
    requires forall k | Claims(w', k) :: Claims(w, k) && KeyOf(w.state.jobs, k) == KeyOf(w'.state.jobs, k)
    ensures Unique(w')
  {
  }

  /** The jobs in processing stay there as they are. */
  ghost predicate LeavesActive(s: State, s': State) {
    forall id | At(s, id, Processing) :: id in s'.jobs && s'.jobs[id] == s.jobs[id]
  }

  lemma DoomedStay(w: Watch, step: Step)
    requires Watched(w) && LeavesActive(w.state, Next(w.state, step)) && !step.Obliterate?
    ensures Follow(w, step).doomed == w.doomed && Watched(Follow(w, step))
  {
    hide Next;
  }

  lemma TellKeepsUnique(w: Watch, id: JobId)
    requires Unique(w) && Watched(w)
    ensures Unique(Follow(w, Tell(id))) && Watched(Follow(w, Tell(id)))
  {
    TellKeepsBearers(w.state, id);
    DoomedStay(w, Tell(id));
    hide TellParent;
    NoNewBearerKeepsUnique(w, Follow(w, Tell(id)));
  }

  lemma TellKeepsBearers(s: State, id: JobId)
    ensures var s' := TellParent(s, id);
            && LeavesActive(s, s') && s'.keys == s.keys && (forall k :: Bears(s'.jobs, k) <==> Bears(s.jobs, k))
            && (forall k | Bears(s'.jobs, k) :: KeyOf(s.jobs, k) == KeyOf(s'.jobs, k))
  {
  }

  lemma PushKeepsUnique(w: Watch, queue: string, input: JobInput, id: JobId, now: nat)
    requires Fresh(w.state) && Unique(w) && Watched(w) && id >= w.state.nextId
    ensures var step := Push(queue, input, id, now); Unique(Follow(w, step)) && Watched(Follow(w, step))
  {
    var s, w' := w.state, Follow(w, Push(queue, input, id, now));
    PushShape(s, queue, input, id, now);
    assert CreateJob(id, queue, input, now).queue == queue;
    hide PushAs, CreateJob;
    DoomedStay(w, Push(queue, input, id, now));
    assert forall k | Bears(w'.state.jobs, k) && k != id ::
             Bears(s.jobs, k) && KeyOf(s.jobs, k) == KeyOf(w'.state.jobs, k);
    if w'.state.jobs == s.jobs && w'.state.keys == s.keys {
      NoNewBearerKeepsUnique(w, w');
    } else {
      assert forall k | Claims(w', k) && k != id :: Claims(w, k);
      assert Claims(w', id) ==> KeyOf(w'.state.jobs, id) !in s.keys;
    }
  }

  lemma FlowKeepsUnique(w: Watch, step: Step)
    requires Fresh(w.state) && Unique(w) && Watched(w) && step.PushFlow?
    ensures Unique(Follow(w, step)) && Watched(Follow(w, step))
  {
    var s := w.state;
    FlowShape(s, step.queue, step.data, step.children, step.priority, step.now);
    hide OpenFlow;
    DoomedStay(w, step);
    assert forall k | Bears(Next(s, step).jobs, k) ::
             Bears(s.jobs, k) && KeyOf(s.jobs, k) == KeyOf(Next(s, step).jobs, k);
    NoNewBearerKeepsUnique(w, Follow(w, step));
  }

  lemma QuietKeepsUnique(w: Watch, step: Step)
    requires Unique(w) && Watched(w) && IsQuiet(step)
    ensures Unique(Follow(w, step)) && Watched(Follow(w, step))
  {
    QuietShape(w.state, step);
    DoomedStay(w, step);
    hide Next;
    NoNewBearerKeepsUnique(w, Follow(w, step));
  }

  /** The shard section of `obliterate` keeps keys unique exactly when no keyed job of the queue is between
      two containers; those in processing are doomed. */
  lemma ObliterateIsExact(w: Watch, queue: string)
    requires Unique(w) && Watched(w)
    ensures var w' := Follow(w, Obliterate(queue));
            && (Unique(w') <==> NoneBetween(w, queue)) && Watched(w')
            && (forall id | At(w.state, id, Processing) && Bears(w.state.jobs, id) :: At(w'.state, id, Processing))
            && (forall id | id in w'.doomed && id !in w.doomed :: w.state.jobs[id].job.queue == queue)
  {
    var s, w' := w.state, Follow(w, Obliterate(queue));
    var s' := w'.state;
    ObliterateShape(s, queue);
    assert s'.keys == set k | k in s.keys && k.0 != queue;
    hide Obliterated;
    assert forall k | Bears(s'.jobs, k) :: Bears(s.jobs, k) && KeyOf(s.jobs, k) == KeyOf(s'.jobs, k);
    assert forall k | Claims(w', k) :: Claims(w, k);
    if NoneBetween(w, queue) {
      assert forall k | Claims(w', k) :: KeyOf(s.jobs, k).0 != queue;
    } else {
      var id :| Claims(w, id) && s.jobs[id].job.queue == queue && !Obliterates(s.jobs[id], queue)
          && s.jobs[id].place != Processing;
      assert Claims(w', id) && KeyOf(s'.jobs, id) !in s'.keys;
    }
  }

  /** A step keeps the invariant exactly when it is safe. */
  lemma KeySafetyIsExact(w: Watch, step: Step)
    requires Fresh(w.state) && Unique(w) && Watched(w)
    ensures Unique(Follow(w, step)) <==> KeySafe(w, step)
    ensures Watched(Follow(w, step))
  {
    hide Unique, Watched, Follow, NoneBetween, Free, Fresh;
    match step
    case On(id, action) => ActionIsExact(w, id, action);
    case Push(queue, input, newId, now) =>
      if newId >= w.state.nextId {
        PushKeepsUnique(w, queue, input, newId, now);
      } else {
        NothingHappens(w, step);
      }
    case PushFlow(_, _, _, _, _) => FlowKeepsUnique(w, step);
    case Tell(id) => TellKeepsUnique(w, id);
    case Obliterate(queue) => ObliterateIsExact(w, queue);
    case _ => QuietKeepsUnique(w, step);
  }

  lemma NothingHappens(w: Watch, step: Step)
    requires Unique(w) && Watched(w) && Next(w.state, step) == w.state && !step.Obliterate?
    ensures Unique(Follow(w, step)) && Watched(Follow(w, step))
  {
    DoomedStay(w, step);
    hide Next;
  }

  lemma {:induction false} RunKeepsUnique(w: Watch, steps: seq<Step>)
    requires Fresh(w.state) && Unique(w) && Watched(w) && KeySafeRun(w, steps)
    ensures Unique(FollowAll(w, steps)) && Watched(FollowAll(w, steps))
    ensures FollowAll(w, steps).state == Run(w.state, steps)
    decreases |steps|
  {
    hide Unique, Watched, Next, KeySafe, Fresh;
    if steps != [] {
      StepKeepsFresh(w.state, steps[0]);
      KeySafetyIsExact(w, steps[0]);
      RunKeepsUnique(Follow(w, steps[0]), steps[1..]);
    }
  }

  /** From an empty start, over every run: one job per queue and key, waiting, queued, active or dead,
      beside those that a running `obliterate` is about to sweep out of processing. */
  lemma OneJobPerKey(steps: seq<Step>, a: JobId, b: JobId)
    requires KeySafeRun(Watch(INITIAL, {}), steps)
    requires var w := FollowAll(Watch(INITIAL, {}), steps);
             Claims(w, a) && Claims(w, b) && KeyOf(w.state.jobs, a) == KeyOf(w.state.jobs, b)
    ensures var w := FollowAll(Watch(INITIAL, {}), steps);
            && w.state == Run(INITIAL, steps)
            && a == b && KeyOf(w.state.jobs, a) in w.state.keys
            && (forall id | id in w.doomed :: At(w.state, id, Processing))
  {
    RunKeepsUnique(Watch(INITIAL, {}), steps);
  }

  /** Why a doomed job must not get away: failed back into its queue before the sweep, it is live when its
      key is taken by another push. */
  lemma EscapedJobIsDuplicated(w: Watch, id: JobId, queue: string, input: JobInput, newId: JobId, now: nat)
    requires Fresh(w.state) && Watched(w) && id in w.doomed && KeyOf(w.state.jobs, id) !in w.state.keys
    requires !Failed(w.state.jobs[id].job).ShouldGoToDlq() && newId >= w.state.nextId
    requires queue == w.state.jobs[id].job.queue && input.uniqueKey == w.state.jobs[id].job.uniqueKey
    requires Considered(w.state, queue, input, now) && input.customId.None?
    ensures var s := Run(w.state, [On(id, Leave), On(id, Action.Fail(now)), Push(queue, input, newId, now),
                                   On(id, Wipe)]);
            && At(s, id, Queued) && id != newId
            && Bears(s.jobs, id) && Bears(s.jobs, newId) && KeyOf(s.jobs, id) == KeyOf(s.jobs, newId)
  {
    var s := w.state;
    FailsBack(s, id, now);
    var s2 := Next(Next(s, On(id, Leave)), On(id, Action.Fail(now)));
    PushShape(s2, queue, input, newId, now);
    PushIsAccepted(s2, queue, input, newId, now);
    var s3 := Next(s2, Push(queue, input, newId, now));
    hide PushAs, CreateJob, Considered, Retried, Failed;
    assert At(s3, id, Queued) && s3.jobs[newId].job.uniqueKey == input.uniqueKey && s3.jobs[newId].job.queue == queue;
    WipesNothing(s3, id);
    RunFour(s, On(id, Leave), On(id, Action.Fail(now)), Push(queue, input, newId, now), On(id, Wipe));
    hide Next, Run;
  }

  lemma WipesNothing(s: State, id: JobId)
    requires !At(s, id, Processing)
    ensures Next(s, On(id, Wipe)) == s
  {
  }

  lemma FailsBack(s: State, id: JobId, now: nat)
    requires At(s, id, Processing) && !Failed(s.jobs[id].job).ShouldGoToDlq()
    ensures var s', job := Next(Next(s, On(id, Leave)), On(id, Action.Fail(now))), Retried(Failed(s.jobs[id].job), now);
            && s'.jobs == s.jobs[id := Placed(Queued, job)] && s'.keys == s.keys && s'.nextId == s.nextId
            && s'.debounce == s.debounce && s'.customIds == s.customIds
            && job.queue == s.jobs[id].job.queue && job.uniqueKey == s.jobs[id].job.uniqueKey
  {
    var s1 := Next(s, On(id, Leave));
    assert s1.jobs == s.jobs[id := Placed(Leaving, s.jobs[id].job)];
  }

  lemma PushIsAccepted(s: State, queue: string, input: JobInput, id: JobId, now: nat)
    requires Considered(s, queue, input, now) && input.customId.None?
    requires input.uniqueKey.Some? && (queue, input.uniqueKey.value) !in s.keys
    ensures var job := CreateJob(id, queue, input, now);
            && PushAs(s, queue, input, id, now).outcome == Created(id)
            && job.uniqueKey == input.uniqueKey && job.queue == queue
  {
  }

  lemma RunFour(s: State, a: Step, b: Step, c: Step, d: Step)
    ensures Run(s, [a, b, c, d]) == Next(Next(Next(Next(s, a), b), c), d)
  {
    hide Next, Run;
    RunAppend(s, [a, b], [c, d]);
    RunTwo(s, a, b);
    RunTwo(Next(Next(s, a), b), c, d);
    assert [a, b] + [c, d] == [a, b, c, d];
  }

  // ---- Leaked keys ----

  /** Taken although no live job has it: nobody is left to free it. */
  ghost predicate KeyLeaked(jobs: map<JobId, Placed>, keys: set<Key>, key: Key) {
    key in keys && forall k | Bears(jobs, k) :: KeyOf(jobs, k) != key
  }

  /** The ways in which a job goes and leaves its key behind: it expires in its queue, fails for the last
      time and is removed, is cancelled while it waits for others, is dropped from the dead letters, is
      swept away with its queue, or is acked in a batch under another queue. */
  predicate ForgetsKey(s: State, id: JobId, step: Step) {
    && step.On? && step.id == id && Bears(s.jobs, id)
    && var Placed(place, job) := s.jobs[id];
       match place
       case Queued => step.action.Expire? && job.IsExpired(step.action.now)
       case WaitingDeps => step.action.CancelWaiting?
       case WaitingChildren => step.action.CancelWaiting?
       case Dead => step.action.DropDead?
       case Processing => step.action.Wipe?
       case Leaving => (step.action.Fail? && Failed(job).ShouldGoToDlq() && job.removeOnFail) || MisnamesKey(s, step)
       case _ => false
  }

  /** No other live job has the key of this one. */
  ghost predicate Sole(jobs: map<JobId, Placed>, id: JobId)
    requires Bears(jobs, id)
  {
    forall k | Bears(jobs, k) && KeyOf(jobs, k) == KeyOf(jobs, id) :: k == id
  }

  /** The step frees a key whoever had it: a batch ack of another queue, or the obliteration of its queue. */
  predicate Sheds(s: State, step: Step, key: Key) {
    (MisnamesKey(s, step) && MisnamedKey(s, step) == key) || (step.Obliterate? && step.queue == key.0)
  }

  lemma ActionForgetsKey(s: State, id: JobId, action: Action)
    requires Bears(s.jobs, id)
    ensures var e := EffectOf(s, id, action);
            ForgetsKey(s, id, On(id, action))
            <==> e.Some? && !(e.value.after.Some? && e.value.after.value.place != Notifying)
                 && !(e.value.freesKey && e.value.queue == s.jobs[id].job.queue)
  {
    hide *;
    if OnTheWayOut(action) {
      ActionForgetsKeyOut(s, id, action);
    } else {
      ActionForgetsKeyElse(s, id, action);
    }
  }

  lemma ActionForgetsKeyOut(s: State, id: JobId, action: Action)
    requires Bears(s.jobs, id) && OnTheWayOut(action)
    ensures var e := EffectOf(s, id, action);
            ForgetsKey(s, id, On(id, action))
            <==> e.Some? && !(e.value.after.Some? && e.value.after.value.place != Notifying)
                 && !(e.value.freesKey && e.value.queue == s.jobs[id].job.queue)
  {
  }

  lemma ActionForgetsKeyElse(s: State, id: JobId, action: Action)
    requires Bears(s.jobs, id) && !OnTheWayOut(action)
    ensures var e := EffectOf(s, id, action);
            ForgetsKey(s, id, On(id, action))
            <==> e.Some? && !(e.value.after.Some? && e.value.after.value.place != Notifying)
                 && !(e.value.freesKey && e.value.queue == s.jobs[id].job.queue)
  {
    hide AckEffect, FailEffect, RequeueEffect, StallCount, DepsPending, IsStalled, Judged, Retrievable, CanTake;
  }

  lemma EffectLeaksKey(jobs: map<JobId, Placed>, keys: set<Key>, id: JobId, e: Effect, key: Key)
    requires id in jobs && KeepsKey(jobs[id], e)
    ensures var job := jobs[id].job;
            KeyLeaked(JobsAfter(jobs, id, e), KeysAfter(keys, job, e), key)
            <==> || (KeyLeaked(jobs, keys, key)
                     && !(e.freesKey && job.uniqueKey.Some? && (e.queue, job.uniqueKey.value) == key))
                 || (Bears(jobs, id) && KeyOf(jobs, id) == key && key in keys && Sole(jobs, id)
                     && !(e.after.Some? && e.after.value.place != Notifying)
                     && !(e.freesKey && e.queue == job.queue))
  {
    var jobs', keys' := JobsAfter(jobs, id, e), KeysAfter(keys, jobs[id].job, e);
    assert forall k | k != id :: Bears(jobs', k) <==> Bears(jobs, k);
    assert forall k | Bears(jobs, k) && k != id :: KeyOf(jobs, k) == KeyOf(jobs', k);
    assert Bears(jobs', id) ==> Bears(jobs, id) && KeyOf(jobs, id) == KeyOf(jobs', id);
    if KeyLeaked(jobs', keys', key) && !KeyLeaked(jobs, keys, key) {
      assert key in keys;
      var k :| Bears(jobs, k) && KeyOf(jobs, k) == key;
      assert k == id;
    }
  }

  lemma ActionLeaksKey(s: State, id: JobId, action: Action, key: Key)
    ensures var s', step := Act(s, id, action), On(id, action);
            KeyLeaked(s'.jobs, s'.keys, key)
            <==> || (KeyLeaked(s.jobs, s.keys, key) && !Sheds(s, step, key))
                 || (ForgetsKey(s, id, step) && KeyOf(s.jobs, id) == key && key in s.keys && Sole(s.jobs, id))
  {
    if id in s.jobs && EffectOf(s, id, action).Some? {
      var e := EffectOf(s, id, action).value;
      ActionKeepsKey(s, id, action);
      EffectLeaksKey(s.jobs, s.keys, id, e, key);
      if Bears(s.jobs, id) {
        ActionForgetsKey(s, id, action);
      }
      hide EffectOf, Sole, ForgetsKey, MisnamesKey;
      assert e.freesKey && s.jobs[id].job.uniqueKey.Some? ==> Bears(s.jobs, id);
      OnlyBearersForget(s, id, On(id, action));
    } else {
      IdleIsSafe(Watch(s, {}), id, action);
      if Bears(s.jobs, id) {
        ActionForgetsKey(s, id, action);
      }
      hide EffectOf, Sole, ForgetsKey, MisnamesKey;
      OnlyBearersForget(s, id, On(id, action));
    }
  }

  lemma OnlyBearersForget(s: State, id: JobId, step: Step)
    ensures ForgetsKey(s, id, step) ==> Bears(s.jobs, id) && step.On? && step.id == id
  {
  }

  lemma SameBearersSameLeaks(s: State, s': State, key: Key)
    requires s'.keys == s.keys && forall k :: Bears(s'.jobs, k) <==> Bears(s.jobs, k)
    requires forall k | Bears(s'.jobs, k) :: KeyOf(s.jobs, k) == KeyOf(s'.jobs, k)
    ensures KeyLeaked(s'.jobs, s'.keys, key) <==> KeyLeaked(s.jobs, s.keys, key)
  {
  }

  lemma PushLeaksNoKey(s: State, queue: string, input: JobInput, id: JobId, now: nat, key: Key)
    requires Fresh(s) && id >= s.nextId
    ensures var s' := PushAs(s, queue, input, id, now).state;
            KeyLeaked(s'.jobs, s'.keys, key) <==> KeyLeaked(s.jobs, s.keys, key)
  {
    var s' := PushAs(s, queue, input, id, now).state;
    PushShape(s, queue, input, id, now);
    var job := CreateJob(id, queue, input, now);
    assert job.queue == queue;
    hide PushAs, CreateJob, StartPlace;
    assert forall k | k != id :: Bears(s'.jobs, k) <==> Bears(s.jobs, k);
    assert forall k | Bears(s'.jobs, k) && k != id :: KeyOf(s.jobs, k) == KeyOf(s'.jobs, k);
    assert !Bears(s.jobs, id);
    if s'.jobs != s.jobs && job.uniqueKey.Some? {
      NewJobBears(s.completed, job);
      assert Bears(s'.jobs, id) && KeyOf(s'.jobs, id) !in s.keys;
    }
  }

  lemma NewJobBears(completed: set<JobId>, job: Job)
    ensures StartPlace(completed, job) != Notifying
  {
  }

  lemma FlowKeepsBearers(s: State, queue: string, data: string, children: seq<FlowChild>, priority: int, now: nat)
    requires Fresh(s)
    ensures var s' := OpenFlow(s, queue, data, children, priority, now);
            && s'.keys == s.keys && (forall k :: Bears(s'.jobs, k) <==> Bears(s.jobs, k))
            && (forall k | Bears(s'.jobs, k) :: KeyOf(s.jobs, k) == KeyOf(s'.jobs, k))
  {
    FlowShape(s, queue, data, children, priority, now);
    hide OpenFlow;
  }

  lemma ObliterateLeaksNoKey(s: State, queue: string, key: Key)
    ensures var s' := Obliterated(s, queue);
            KeyLeaked(s'.jobs, s'.keys, key) <==> KeyLeaked(s.jobs, s.keys, key) && key.0 != queue
  {
    var s' := Obliterated(s, queue);
    ObliterateShape(s, queue);
    assert s'.keys == set k | k in s.keys && k.0 != queue;
    hide Obliterated;
    assert forall k | Bears(s'.jobs, k) :: Bears(s.jobs, k) && KeyOf(s.jobs, k) == KeyOf(s'.jobs, k);
    assert forall k | Bears(s.jobs, k) && KeyOf(s.jobs, k).0 != queue ::
             Bears(s'.jobs, k) && KeyOf(s.jobs, k) == KeyOf(s'.jobs, k);
  }

  /** Where leaked keys come from and where they go, for every step and every key: a key is leaked after the
      step exactly when it was and is not shed, or when the only job that had it goes in one of the ways
      that leave the key behind. */
  lemma KeyLeaksExactly(s: State, step: Step, key: Key)
    requires Fresh(s)
    ensures var s' := Next(s, step);
            KeyLeaked(s'.jobs, s'.keys, key)
            <==> || (KeyLeaked(s.jobs, s.keys, key) && !Sheds(s, step, key))
                 || (exists id ::
                       ForgetsKey(s, id, step) && KeyOf(s.jobs, id) == key && key in s.keys && Sole(s.jobs, id))
  {
    var s' := Next(s, step);
    hide KeyLeaked, PushAs, TellParent, OpenFlow, Obliterated, Act, Sole;
    match step
    case On(id, action) => ActionLeaksKey(s, id, action, key);
    case Push(queue, input, newId, now) =>
      if newId >= s.nextId {
        PushLeaksNoKey(s, queue, input, newId, now, key);
      }
    case PushFlow(queue, data, children, priority, now) =>
      FlowKeepsBearers(s, queue, data, children, priority, now);
      SameBearersSameLeaks(s, s', key);
    case Tell(id) =>
      TellKeepsBearers(s, id);
      SameBearersSameLeaks(s, s', key);
    case Obliterate(queue) => ObliterateLeaksNoKey(s, queue, key);
    case _ =>
      QuietShape(s, step);
      SameBearersSameLeaks(s, s', key);
  }

  predicate NeverShed(s: State, steps: seq<Step>, key: Key)
    decreases |steps|
  {
    steps == [] || (!Sheds(s, steps[0], key) && NeverShed(Next(s, steps[0]), steps[1..], key))
  }

  /** A leaked key is dead: until something sheds it, no job has it again, in any continuation, and every
      push with it is refused. */
  lemma {:induction false} LeakedKeyIsDead(s: State, steps: seq<Step>, key: Key, input: JobInput, id: JobId, now: nat)
    requires Fresh(s) && KeyLeaked(s.jobs, s.keys, key) && NeverShed(s, steps, key)
    requires input.uniqueKey == Some(key.1)
    ensures var s' := Run(s, steps);
            KeyLeaked(s'.jobs, s'.keys, key) && !PushAs(s', key.0, input, id, now).outcome.Created?
    decreases |steps|
  {
    if steps == [] {
      assert CreateJob(id, key.0, input, now).uniqueKey == input.uniqueKey;
      PushShape(s, key.0, input, id, now);
      hide PushAs, CreateJob;
    } else {
      KeyLeaksExactly(s, steps[0], key);
      StepKeepsFresh(s, steps[0]);
      hide Next, Fresh, KeyLeaked, Sheds, PushAs;
      LeakedKeyIsDead(Next(s, steps[0]), steps[1..], key, input, id, now);
    }
  }
}
