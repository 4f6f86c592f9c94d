/** Concurrency slots of a queue against the jobs that hold one. */
module Slots {
  import opened Protocol
  import opened Pull
  import opened Engine

  predicate HoldsSlot(p: Placed, queue: string) {
    p.place in {InFlight, Processing, Leaving} && p.job.queue == queue
  }

  function Holders(jobs: map<JobId, Placed>, queue: string): set<JobId> {
    set id | id in jobs && HoldsSlot(jobs[id], queue)
  }

  /** `extra` jobs were out already when the limiter was installed. */
  ghost predicate Limited(jobs: map<JobId, Placed>, limiters: map<string, Limiter>, queue: string, limit: nat,
                          extra: nat) {
    queue in limiters ==>
      && limiters[queue].limit == limit && limiters[queue].current <= limit
      && |Holders(jobs, queue)| <= limiters[queue].current + extra
  }

  /** The slots taken are the jobs out and the slots lost. */
  ghost predicate Accounts(jobs: map<JobId, Placed>, limiters: map<string, Limiter>, queue: string, lost: nat) {
    queue in limiters ==> limiters[queue].current == |Holders(jobs, queue)| + lost <= limiters[queue].limit
  }

  // ---- Which steps are safe ----

  /** A job of the queue is out no more, and its slot is not given back: it is buried as stalled, swept
      away with its queue, or acked in a batch under another queue. */
  predicate LosesSlot(s: State, step: Step, queue: string) {
    && step.On? && step.id in s.jobs && s.jobs[step.id].job.queue == queue
    && (match s.jobs[step.id].place
        case Processing =>
          step.action.Wipe? || (step.action.HandleStall? && step.id in s.suspects && s.suspects[step.id].Condemned?)
        case Leaving => step.action.BatchAck? && step.action.queue != queue
        case _ => false)
  }

  /** A slot of the queue is given back for a job of another queue. */
  predicate GivesAway(s: State, step: Step, queue: string) {
    step.On? && step.action.BatchAck? && At(s, step.id, Leaving)
    && s.jobs[step.id].job.queue != queue && step.action.queue == queue && queue in s.limiters
  }

  ghost predicate LimitSafe(s: State, step: Step, queue: string, limit: nat, extra: nat) {
    && (step.SetConcurrency? && step.queue == queue ==> step.limit == limit && |Holders(s.jobs, queue)| <= extra)
    && (GivesAway(s, step, queue) ==>
          s.limiters[queue].current == 0 || |Holders(s.jobs, queue)| < s.limiters[queue].current + extra)
  }

  ghost predicate LimitSafeRun(s: State, steps: seq<Step>, queue: string, limit: nat, extra: nat)
    decreases |steps|
  {
    steps == [] || (LimitSafe(s, steps[0], queue, limit, extra)
                    && LimitSafeRun(Next(s, steps[0]), steps[1..], queue, limit, extra))
  }

  ghost predicate AccountSafe(s: State, step: Step, queue: string, lost: nat) {
    && (step.SetConcurrency? && step.queue == queue ==> Holders(s.jobs, queue) == {} && lost == 0)
    && (GivesAway(s, step, queue) ==> s.limiters[queue].current == 0)
  }

  function Lost(s: State, step: Step, queue: string, lost: nat): nat {
    if LosesSlot(s, step, queue) then lost + 1 else lost
  }

  function Losses(s: State, steps: seq<Step>, queue: string, lost: nat): nat
    decreases |steps|
  {
    if steps == [] then lost else Losses(Next(s, steps[0]), steps[1..], queue, Lost(s, steps[0], queue, lost))
  }

  ghost predicate AccountSafeRun(s: State, steps: seq<Step>, queue: string, lost: nat)
    decreases |steps|
  {
    steps == [] || (AccountSafe(s, steps[0], queue, lost)
                    && AccountSafeRun(Next(s, steps[0]), steps[1..], queue, Lost(s, steps[0], queue, lost)))
  }

  // ---- One job ----

  predicate KeepsSlot(p: Placed, e: Effect) {
    && (e.after.Some? ==> e.after.value.job.queue == p.job.queue)
    && (e.takes <==> !HoldsSlot(p, p.job.queue) && e.after.Some? && HoldsSlot(e.after.value, p.job.queue))
    && (e.freesSlot ==> HoldsSlot(p, p.job.queue) && !(e.after.Some? && HoldsSlot(e.after.value, p.job.queue)))
  }

  /** A slot is given up without being given back. */
  predicate Loses(p: Placed, e: Effect) {
    HoldsSlot(p, p.job.queue) && !(e.after.Some? && HoldsSlot(e.after.value, p.job.queue))
    && !(e.freesSlot && e.queue == p.job.queue)
  }

  lemma HoldersAfter(jobs: map<JobId, Placed>, id: JobId, e: Effect, queue: string)
    requires id in jobs && KeepsSlot(jobs[id], e)
    ensures var p := jobs[id];
            Holders(JobsAfter(jobs, id, e), queue)
              == if p.job.queue != queue then Holders(jobs, queue)
                 else if e.takes then Holders(jobs, queue) + {id}
                 else if e.freesSlot || Loses(p, e) then Holders(jobs, queue) - {id}
                 else Holders(jobs, queue)
    ensures jobs[id].job.queue == queue ==> (id in Holders(jobs, queue) <==> HoldsSlot(jobs[id], queue))
  {
  }

  lemma EffectKeepsSlots(jobs: map<JobId, Placed>, limiters: map<string, Limiter>, id: JobId, e: Effect,
                         queue: string, limit: nat, extra: nat, lost: nat)
    requires id in jobs && KeepsSlot(jobs[id], e)
    requires e.takes && jobs[id].job.queue in limiters ==> limiters[jobs[id].job.queue].HasSlot()
    ensures var jobs', limiters', job := JobsAfter(jobs, id, e), LimitersAfter(limiters, jobs[id].job, e), jobs[id].job;
            var foreign := e.freesSlot && e.queue == queue != job.queue && queue in limiters;
            && (Limited(jobs, limiters, queue, limit, extra) ==>
                  (Limited(jobs', limiters', queue, limit, extra)
                   <==> (foreign ==>
                           limiters[queue].current == 0 || |Holders(jobs, queue)| < limiters[queue].current + extra)))
            && (Accounts(jobs, limiters, queue, lost) ==>
                  (Accounts(jobs', limiters', queue, if job.queue == queue && Loses(jobs[id], e) then lost + 1
                            else lost)
                   <==> (foreign ==> limiters[queue].current == 0)))
  {
    HoldersAfter(jobs, id, e, queue);
    hide JobsAfter, Holders;
  }

  lemma ActionKeepsSlot(s: State, id: JobId, action: Action, queue: string)
    requires id in s.jobs && EffectOf(s, id, action).Some?
    ensures var p, e, step := s.jobs[id], EffectOf(s, id, action).value, On(id, action);
            && KeepsSlot(p, e)
            && (e.takes && p.job.queue in s.limiters ==> s.limiters[p.job.queue].HasSlot())
            && (p.job.queue == queue && Loses(p, e) <==> LosesSlot(s, step, queue))
            && (e.freesSlot && e.queue == queue != p.job.queue && queue in s.limiters <==> GivesAway(s, step, queue))
  {
    ActionTakesOrFrees(s, id, action);
    ActionLoses(s, id, action, queue);
    hide EffectOf, KeepsSlot, LosesSlot;
    OnlyBatchesGiveAway(s, id, action);
  }

  lemma ActionTakesOrFrees(s: State, id: JobId, action: Action)
    requires id in s.jobs && EffectOf(s, id, action).Some?
    ensures var p, e := s.jobs[id], EffectOf(s, id, action).value;
            KeepsSlot(p, e) && (e.takes && p.job.queue in s.limiters ==> s.limiters[p.job.queue].HasSlot())
  {
    hide *;
    if OnTheWayOut(action) {
      ActionTakesOrFreesOut(s, id, action);
    } else {
      ActionTakesOrFreesElse(s, id, action);
    }
  }

  lemma ActionTakesOrFreesOut(s: State, id: JobId, action: Action)
    requires id in s.jobs && EffectOf(s, id, action).Some? && OnTheWayOut(action)
    ensures var p, e := s.jobs[id], EffectOf(s, id, action).value;
            KeepsSlot(p, e) && (e.takes && p.job.queue in s.limiters ==> s.limiters[p.job.queue].HasSlot())
  {
  }

  lemma ActionTakesOrFreesElse(s: State, id: JobId, action: Action)
    requires id in s.jobs && EffectOf(s, id, action).Some? && !OnTheWayOut(action)
    ensures var p, e := s.jobs[id], EffectOf(s, id, action).value;
            KeepsSlot(p, e) && (e.takes && p.job.queue in s.limiters ==> s.limiters[p.job.queue].HasSlot())
  {
    hide AckEffect, FailEffect, RequeueEffect, StallCount, DepsPending, IsStalled, Judged, Retrievable;
  }

  lemma ActionLoses(s: State, id: JobId, action: Action, queue: string)
    requires id in s.jobs && EffectOf(s, id, action).Some?
    ensures var p, e := s.jobs[id], EffectOf(s, id, action).value;
            p.job.queue == queue && Loses(p, e) <==> LosesSlot(s, On(id, action), queue)
  {
  }

  lemma OnlyBatchesGiveAway(s: State, id: JobId, action: Action)
    requires id in s.jobs && EffectOf(s, id, action).Some?
    ensures var e := EffectOf(s, id, action).value;
            e.queue == if action.BatchAck? then action.queue else s.jobs[id].job.queue
    ensures action.BatchAck? ==> EffectOf(s, id, action).value.freesSlot && s.jobs[id].place == Leaving
  {
  }

  lemma IdleIsSafe(s: State, id: JobId, action: Action, queue: string)
    requires id in s.jobs ==> EffectOf(s, id, action).None?
    ensures !LosesSlot(s, On(id, action), queue) && !GivesAway(s, On(id, action), queue)
  {
  }

  lemma SameHoldersKeepSlots(s: State, s': State, queue: string, limit: nat, extra: nat, lost: nat)
    requires Holders(s'.jobs, queue) == Holders(s.jobs, queue)
    requires queue in s'.limiters ==> queue in s.limiters && s'.limiters[queue] == s.limiters[queue]
    ensures Limited(s.jobs, s.limiters, queue, limit, extra) ==> Limited(s'.jobs, s'.limiters, queue, limit, extra)
    ensures Accounts(s.jobs, s.limiters, queue, lost) ==> Accounts(s'.jobs, s'.limiters, queue, lost)
  {
  }

  lemma PushKeepsHolders(s: State, queue: string, input: JobInput, id: JobId, now: nat, q: string)
    requires Fresh(s) && id >= s.nextId
    ensures var s' := PushAs(s, queue, input, id, now).state;
            Holders(s'.jobs, q) == Holders(s.jobs, q) && s'.limiters == s.limiters
  {
    PushShape(s, queue, input, id, now);
    hide PushAs;
  }

  lemma FlowKeepsHolders(s: State, queue: string, data: string, children: seq<FlowChild>, priority: int, now: nat,
                         q: string)
    requires Fresh(s)
    ensures var s' := OpenFlow(s, queue, data, children, priority, now);
            Holders(s'.jobs, q) == Holders(s.jobs, q) && s'.limiters == s.limiters
  {
    FlowShape(s, queue, data, children, priority, now);
    hide OpenFlow;
  }

  lemma TellKeepsHolders(s: State, id: JobId, q: string)
    ensures Holders(TellParent(s, id).jobs, q) == Holders(s.jobs, q) && TellParent(s, id).limiters == s.limiters
  {
  }

  lemma ObliterateKeepsHolders(s: State, queue: string, q: string)
    ensures var s' := Obliterated(s, queue);
            Holders(s'.jobs, q) == Holders(s.jobs, q) && s'.limiters == s.limiters - {queue}
  {
    ObliterateShape(s, queue);
  }

  /** A step keeps the limit, and the account of slots, exactly when it is safe. */
  lemma SlotSafetyIsExact(s: State, step: Step, queue: string, limit: nat, extra: nat, lost: nat)
    requires Fresh(s)
    ensures var s' := Next(s, step);
            && (Limited(s.jobs, s.limiters, queue, limit, extra) ==>
                  (Limited(s'.jobs, s'.limiters, queue, limit, extra) <==> LimitSafe(s, step, queue, limit, extra)))
            && (Accounts(s.jobs, s.limiters, queue, lost) ==>
                  (Accounts(s'.jobs, s'.limiters, queue, Lost(s, step, queue, lost))
                   <==> AccountSafe(s, step, queue, lost)))
  {
    var s' := Next(s, step);
    hide Holders, PushAs, CreateJob, TellParent, OpenFlow, Obliterated, EffectOf, Act;
    match step
    case On(id, action) => ActionIsExact(s, id, action, queue, limit, extra, lost);
    case Push(q, input, newId, now) =>
      hide Limited, Accounts;
      if newId >= s.nextId {
        PushKeepsHolders(s, q, input, newId, now, queue);
      }
      SameHoldersKeepSlots(s, s', queue, limit, extra, lost);
    case PushFlow(q, data, children, priority, now) =>
      hide Limited, Accounts;
      FlowKeepsHolders(s, q, data, children, priority, now, queue);
      SameHoldersKeepSlots(s, s', queue, limit, extra, lost);
    case Tell(id) =>
      hide Limited, Accounts;
      TellKeepsHolders(s, id, queue);
      SameHoldersKeepSlots(s, s', queue, limit, extra, lost);
    case Obliterate(q) =>
      hide Limited, Accounts;
      ObliterateKeepsHolders(s, q, queue);
      SameHoldersKeepSlots(s, s', queue, limit, extra, lost);
    case SetConcurrency(q, _) =>
      if q != queue {
        SameHoldersKeepSlots(s, s', queue, limit, extra, lost);
      } else {
        NoneHold(Holders(s.jobs, queue));
      }
    case _ => SameHoldersKeepSlots(s, s', queue, limit, extra, lost);
  }

  lemma NoneHold(ids: set<JobId>)
    ensures |ids| == 0 <==> ids == {}
  {
  }

  lemma ActionIsExact(s: State, id: JobId, action: Action, queue: string, limit: nat, extra: nat, lost: nat)
    ensures var s', step := Act(s, id, action), On(id, action);
            && (Limited(s.jobs, s.limiters, queue, limit, extra) ==>
                  (Limited(s'.jobs, s'.limiters, queue, limit, extra) <==> LimitSafe(s, step, queue, limit, extra)))
            && (Accounts(s.jobs, s.limiters, queue, lost) ==>
                  (Accounts(s'.jobs, s'.limiters, queue, Lost(s, step, queue, lost))
                   <==> AccountSafe(s, step, queue, lost)))
  {
    hide Limited, Accounts, Holders, EffectOf;
    if id in s.jobs && EffectOf(s, id, action).Some? {
      ActionKeepsSlot(s, id, action, queue);
      EffectKeepsSlots(s.jobs, s.limiters, id, EffectOf(s, id, action).value, queue, limit, extra, lost);
    } else {
      IdleIsSafe(s, id, action, queue);
    }
    hide LosesSlot, GivesAway, Loses, KeepsSlot, LimitersAfter, JobsAfter;
  }

  lemma {:induction false} RunKeepsLimit(s: State, steps: seq<Step>, queue: string, limit: nat, extra: nat)
    requires Fresh(s) && Limited(s.jobs, s.limiters, queue, limit, extra) && LimitSafeRun(s, steps, queue, limit, extra)
    ensures var s' := Run(s, steps); Limited(s'.jobs, s'.limiters, queue, limit, extra)
    decreases |steps|
  {
    hide Limited, Next, LimitSafe, LosesSlot, Fresh;
    if steps != [] {
      StepKeepsFresh(s, steps[0]);
      SlotSafetyIsExact(s, steps[0], queue, limit, extra, 0);
      RunKeepsLimit(Next(s, steps[0]), steps[1..], queue, limit, extra);
    }
  }

  lemma {:induction false} RunKeepsAccount(s: State, steps: seq<Step>, queue: string, lost: nat)
    requires Fresh(s) && Accounts(s.jobs, s.limiters, queue, lost) && AccountSafeRun(s, steps, queue, lost)
    ensures var s' := Run(s, steps); Accounts(s'.jobs, s'.limiters, queue, Losses(s, steps, queue, lost))
    decreases |steps|
  {
    hide Accounts, Next, AccountSafe, LosesSlot, Fresh;
    if steps != [] {
      StepKeepsFresh(s, steps[0]);
      SlotSafetyIsExact(s, steps[0], queue, 0, 0, lost);
      RunKeepsAccount(Next(s, steps[0]), steps[1..], queue, Lost(s, steps[0], queue, lost));
    }
  }

  /** From the moment a limit is set on a queue, whatever happens, at most `limit` jobs of it are out
      beyond those that were out at that moment. */
  lemma ConcurrencyLimit(s: State, queue: string, limit: nat, steps: seq<Step>)
    requires Fresh(s)
    requires var s0 := Next(s, SetConcurrency(queue, limit));
             LimitSafeRun(s0, steps, queue, limit, |Holders(s.jobs, queue)|)
    requires var s0 := Next(s, SetConcurrency(queue, limit)); queue in Run(s0, steps).limiters
    ensures var s0, out := Next(s, SetConcurrency(queue, limit)), |Holders(s.jobs, queue)|;
            var s' := Run(s0, steps);
            |Holders(s'.jobs, queue)| <= s'.limiters[queue].current + out <= limit + out
  {
    var s0 := Next(s, SetConcurrency(queue, limit));
    RunKeepsLimit(s0, steps, queue, limit, |Holders(s.jobs, queue)|);
  }

  /** Conservation: if no job was out when the limit was set, the slots taken are exactly the jobs out and
      the slots lost since, one for every step that loses one; they are never more than the limit, so
      when the lost ones reach it the queue is served no more. */
  lemma SlotsAreConserved(s: State, queue: string, limit: nat, steps: seq<Step>)
    requires Fresh(s) && Holders(s.jobs, queue) == {}
    requires var s0 := Next(s, SetConcurrency(queue, limit)); AccountSafeRun(s0, steps, queue, 0)
    requires var s0 := Next(s, SetConcurrency(queue, limit)); queue in Run(s0, steps).limiters
    ensures var s0 := Next(s, SetConcurrency(queue, limit));
            var s', lost := Run(s0, steps), Losses(s0, steps, queue, 0);
            && s'.limiters[queue].current == |Holders(s'.jobs, queue)| + lost <= s'.limiters[queue].limit
            && (lost == s'.limiters[queue].limit ==>
                  forall id, now | id in s'.jobs && s'.jobs[id].job.queue == queue ::
                        !CanTake(s', s'.jobs[id].job, now))
  {
    var s0 := Next(s, SetConcurrency(queue, limit));
    RunKeepsAccount(s0, steps, queue, 0);
  }
}
