/** How long a job must have been silent before it is buried as stalled. */
module Stalls {
  import opened Protocol
  import opened Pull
  import opened Engine

  // ---- Runs and their times ----

  function TimeOf(step: Step): Option<nat> {
    match step
    case Push(_, _, _, now) => Some(now)
    case PushFlow(_, _, _, _, now) => Some(now)
    case On(_, action) =>
      (match action
       case Expire(now) => Some(now)
       case Take(now) => Some(now)
       case Fail(now) => Some(now)
       case Delay(_, now) => Some(now)
       case Requeue(now) => Some(now)
       case Suspect(now) => Some(now)
       case Heartbeat(now) => Some(now)
       case Promote(now) => Some(now)
       case RetryDead(now) => Some(now)
       case _ => None)
    case _ => None
  }

  predicate Effective(s: State, id: JobId, action: Action) {
    id in s.jobs && EffectOf(s, id, action).Some?
  }

  function Later(a: nat, b: nat): nat {
    if a >= b then a else b
  }

  /** A state and the latest time that any section so far has used. */
  datatype Trace = Trace(state: State, clock: nat)

  function Follow(t: Trace, step: Step): Trace {
    Trace(Next(t.state, step), Later(t.clock, GetOr(TimeOf(step), 0)))
  }

  function FollowAll(t: Trace, steps: seq<Step>): Trace
    decreases |steps|
  {
    if steps == [] then t else FollowAll(Follow(t, steps[0]), steps[1..])
  }

  /** The earliest time a section may use: operations read the clock before they wait for a lock, so a
      section may come with a time up to `lag` older than one that was used before. */
  function Floor(clock: nat, lag: nat): nat {
    if clock > lag then clock - lag else 1
  }

  /** Times are positive and at most `lag` behind, and stall checks do not overlap: the background task runs
      one after the other. */
  predicate Regular(t: Trace, step: Step, lag: nat) {
    && (TimeOf(step).Some? ==> TimeOf(step).value >= Floor(t.clock, lag))
    && (step.On? && step.action.Suspect? ==> step.id !in t.state.suspects)
  }

  predicate RegularRun(t: Trace, steps: seq<Step>, lag: nat)
    decreases |steps|
  {
    steps == [] || (Regular(t, steps[0], lag) && RegularRun(Follow(t, steps[0]), steps[1..], lag))
  }

  lemma {:induction false} FollowAppend(t: Trace, a: seq<Step>, b: seq<Step>, lag: nat)
    ensures FollowAll(t, a + b) == FollowAll(FollowAll(t, a), b)
    ensures RegularRun(t, a + b, lag) <==> RegularRun(t, a, lag) && RegularRun(FollowAll(t, a), b, lag)
    decreases |a|
  {
    hide Follow, Regular;
    if a == [] {
      assert a + b == b;
    } else {
      assert (a + b)[0] == a[0] && (a + b)[1..] == a[1..] + b;
      FollowAppend(Follow(t, a[0]), a[1..], b, lag);
    }
  }

  lemma {:induction false} FollowsRun(t: Trace, steps: seq<Step>)
    ensures FollowAll(t, steps).state == Run(t.state, steps)
    decreases |steps|
  {
    hide Next;
    if steps != [] {
      FollowsRun(Follow(t, steps[0]), steps[1..]);
    }
  }

  // ---- The earliest burial ----

  predicate WithWorker(p: Placed) {
    p.place == InFlight || p.place == Processing
  }

  /** The earliest check that finds a job silent which was last heard of at `heard`, or may be heard of
      anew with an old time. */
  function First(heard: nat, clock: nat, timeout: nat, lag: nat): nat {
    Later(Min(heard, Floor(clock, lag)) + timeout + 1, Floor(clock, lag))
  }

  /** The earliest time of the last of `rounds` such checks, each of which takes the job to have been heard
      of when it began. */
  function Earliest(rounds: nat, heard: nat, clock: nat, timeout: nat, lag: nat): nat
    decreases rounds
  {
    var at := First(heard, clock, timeout, lag);
    if rounds <= 1 then at else Earliest(rounds - 1, at, Later(clock, at), timeout, lag)
  }

  /** The third stall buries, and so does every later one. */
  function Rounds(count: nat): nat {
    if count >= 2 then 1 else 3 - count
  }

  function Get<T>(m: map<JobId, T>, id: JobId): Option<T> {
    if id in m then Some(m[id]) else None
  }

  /** A job is taken to have been heard of when the check began that has it in hand, unless it was pulled
      again in the meantime and the check misses it. */
  function HeardAt(p: Placed, at: nat): nat {
    if p.place == InFlight then Min(at, p.job.lastHeartbeat) else at
  }

  /** The earliest time at which a check can begin that buries the job. */
  function BurialOf(p: Placed, count: nat, suspicion: Option<Suspicion>, clock: nat, lag: nat): nat {
    var timeout := StallTimeout(p.job);
    match suspicion
    case None => Earliest(Rounds(count), if WithWorker(p) then p.job.lastHeartbeat else clock, clock, timeout, lag)
    case Some(Seen(at, _)) =>
      if count >= 2 then at else Earliest(Rounds(count + 1), HeardAt(p, at), clock, timeout, lag)
    case Some(Spared(at, _)) => Earliest(Rounds(count), HeardAt(p, at), clock, timeout, lag)
    case Some(Condemned(at)) => at
  }

  function EarliestBurial(t: Trace, id: JobId, lag: nat): nat
    requires id in t.state.jobs
  {
    BurialOf(t.state.jobs[id], StallCount(t.state, id), Get(t.state.suspects, id), t.clock, lag)
  }

  lemma FirstGrows(heard: nat, heard': nat, clock: nat, clock': nat, timeout: nat, lag: nat)
    requires Min(heard, Floor(clock, lag)) <= heard' && clock <= clock'
    ensures First(heard, clock, timeout, lag) <= First(heard', clock', timeout, lag)
    ensures Min(heard, Floor(clock, lag)) < First(heard, clock, timeout, lag)
  {
  }

  lemma {:induction false} EarliestIsLater(rounds: nat, heard: nat, clock: nat, timeout: nat, lag: nat)
    ensures Earliest(rounds, heard, clock, timeout, lag) >= First(heard, clock, timeout, lag)
    decreases rounds
  {
    if rounds > 1 {
      var at := First(heard, clock, timeout, lag);
      EarliestIsLater(rounds - 1, at, Later(clock, at), timeout, lag);
      FirstGrows(heard, at, clock, Later(clock, at), timeout, lag);
    }
  }

  lemma {:induction false} EarliestGrows(rounds: nat, rounds': nat, heard: nat, heard': nat, clock: nat, clock': nat,
                                         timeout: nat, lag: nat)
    requires rounds <= rounds' && Min(heard, Floor(clock, lag)) <= heard' && clock <= clock'
    ensures Earliest(rounds, heard, clock, timeout, lag) <= Earliest(rounds', heard', clock', timeout, lag)
    decreases rounds
  {
    var at, at' := First(heard, clock, timeout, lag), First(heard', clock', timeout, lag);
    FirstGrows(heard, heard', clock, clock', timeout, lag);
    hide First, Floor;
    if rounds <= 1 {
      EarliestIsLater(rounds', heard', clock', timeout, lag);
    } else {
      EarliestGrows(rounds - 1, rounds' - 1, at, at', Later(clock, at), Later(clock', at'), timeout, lag);
    }
  }

  /** Each round takes more than one timeout, less the lag. */
  lemma {:induction false} EarliestAtLeast(rounds: nat, heard: nat, clock: nat, timeout: nat, lag: nat)
    requires rounds > 0 && heard <= clock && lag <= timeout
    ensures Earliest(rounds, heard, clock, timeout, lag) >= heard + rounds * (timeout + 1 - lag)
    decreases rounds
  {
    var at := First(heard, clock, timeout, lag);
    assert at >= heard + timeout + 1 - lag;
    hide First;
    if rounds > 1 {
      EarliestAtLeast(rounds - 1, at, Later(clock, at), timeout, lag);
      assert rounds * (timeout + 1 - lag) == (rounds - 1) * (timeout + 1 - lag) + (timeout + 1 - lag);
    }
  }

  // ---- What holds of the times in every run ----

  /** Times lie in the past; a job never pulled has no stalls; and one pulled while a check has it in hand
      was heard of not long before the check. */
  predicate Plausible(p: Placed, count: nat, suspicion: Option<Suspicion>, clock: nat, lag: nat) {
    && p.job.lastHeartbeat <= clock
    && (p.job.lastHeartbeat == 0 ==> !WithWorker(p) && count == 0 && suspicion.None?)
    && (suspicion.Some? ==>
          0 < suspicion.value.at <= clock && (p.place == InFlight ==> suspicion.value.at <= p.job.lastHeartbeat + lag))
  }

  ghost predicate JobSane(t: Trace, id: JobId, lag: nat)
    requires id in t.state.jobs
  {
    Plausible(t.state.jobs[id], StallCount(t.state, id), Get(t.state.suspects, id), t.clock, lag)
  }

  ghost predicate Sane(t: Trace, lag: nat) {
    && Fresh(t.state) && t.clock > 0
    && (forall id | id in t.state.stalled || id in t.state.suspects :: id < t.state.nextId)
    && (forall id | id in t.state.jobs :: JobSane(t, id, lag))
  }

  // ---- One job ----

  function CountAfter(count: nat, note: StallNote): nat {
    match note
    case Keep => count
    case Clear => 0
    case Count(n) => n
  }

  function SuspicionAfter(suspicion: Option<Suspicion>, mark: Mark): Option<Suspicion> {
    match mark
    case Unmarked => suspicion
    case Suspects(suspicion') => Some(suspicion')
    case Cleared => None
  }

  predicate Checks(action: Action) {
    action.Suspect? || action.CountStall? || action.HandleStall?
  }

  /** What an action that is no part of a stall check does to the times of its job. */
  lemma ActionTimes(s: State, id: JobId, action: Action)
    requires id in s.jobs && EffectOf(s, id, action).Some? && !Checks(action)
    ensures var p, e := s.jobs[id], EffectOf(s, id, action).value;
            e.after.Some? ==>
              && StallTimeout(e.after.value.job) == StallTimeout(p.job) && e.mark == Unmarked
              && (e.note == Clear || e.note == Keep) && (action.HeartbeatDone? ==> e.note == Clear)
              && (action.Take? ==> e.after.value.place == InFlight && e.after.value.job.lastHeartbeat == action.now)
              && (action.Heartbeat? ==>
                    p.place == Processing == e.after.value.place && e.after.value.job.lastHeartbeat == action.now)
              && (!action.Take? && !action.Heartbeat? ==>
                    && e.after.value.job.lastHeartbeat == p.job.lastHeartbeat
                    && (WithWorker(e.after.value) ==> WithWorker(p))
                        && (e.after.value.place == InFlight ==> p.place == InFlight))
  {
    hide *;
    if OnTheWayOut(action) {
      ActionTimesOut(s, id, action);
    } else {
      ActionTimesElse(s, id, action);
    }
  }

  lemma ActionTimesOut(s: State, id: JobId, action: Action)
    requires id in s.jobs && EffectOf(s, id, action).Some? && OnTheWayOut(action) && !Checks(action)
    ensures var p, e := s.jobs[id], EffectOf(s, id, action).value;
            e.after.Some? ==>
              && StallTimeout(e.after.value.job) == StallTimeout(p.job) && e.mark == Unmarked
              && (e.note == Clear || e.note == Keep) && (action.HeartbeatDone? ==> e.note == Clear)
              && (action.Take? ==> e.after.value.place == InFlight && e.after.value.job.lastHeartbeat == action.now)
              && (action.Heartbeat? ==>
                    p.place == Processing == e.after.value.place && e.after.value.job.lastHeartbeat == action.now)
              && (!action.Take? && !action.Heartbeat? ==>
                    && e.after.value.job.lastHeartbeat == p.job.lastHeartbeat
                    && (WithWorker(e.after.value) ==> WithWorker(p))
                        && (e.after.value.place == InFlight ==> p.place == InFlight))
  {
  }

  lemma ActionTimesElse(s: State, id: JobId, action: Action)
    requires id in s.jobs && EffectOf(s, id, action).Some? && !OnTheWayOut(action) && !Checks(action)
    ensures var p, e := s.jobs[id], EffectOf(s, id, action).value;
            e.after.Some? ==>
              && StallTimeout(e.after.value.job) == StallTimeout(p.job) && e.mark == Unmarked
              && (e.note == Clear || e.note == Keep) && (action.HeartbeatDone? ==> e.note == Clear)
              && (action.Take? ==> e.after.value.place == InFlight && e.after.value.job.lastHeartbeat == action.now)
              && (action.Heartbeat? ==>
                    p.place == Processing == e.after.value.place && e.after.value.job.lastHeartbeat == action.now)
              && (!action.Take? && !action.Heartbeat? ==>
                    && e.after.value.job.lastHeartbeat == p.job.lastHeartbeat
                    && (WithWorker(e.after.value) ==> WithWorker(p))
                        && (e.after.value.place == InFlight ==> p.place == InFlight))
  {
    hide AckEffect, FailEffect, RequeueEffect, StallCount, DepsPending, Retrievable, CanTake, IsStalled;
  }

  lemma CheckTimes(s: State, id: JobId, action: Action)
    requires id in s.jobs && EffectOf(s, id, action).Some? && Checks(action)
    ensures var p, e, count, suspicion := s.jobs[id], EffectOf(s, id, action).value, StallCount(s, id),
            Get(s.suspects, id);
            && e.after.Some? && StallTimeout(e.after.value.job) == StallTimeout(p.job)
            && (action.Suspect? ==>
                  && p.place == Processing && IsStalled(p.job, action.now) && e.after.value == p
                  && e.note == Keep && e.mark == Suspects(Seen(action.now, p.job.stallCount)))
            && (action.CountStall? ==>
                  && e.after.value == p && e.note == Count(count + 1) && suspicion.Some? && suspicion.value.Seen?
                  && e.mark == Suspects(Judged(suspicion.value, count + 1)))
            && (action.HandleStall? ==>
                  && e.note == Keep && e.mark == Cleared && suspicion.Some? && !suspicion.value.Seen?
                  && (p.place != Processing ==> e.after.value == p)
                  && (p.place == Processing && suspicion.value.Spared? ==>
                        e.after.value.place == Processing && e.after.value.job.lastHeartbeat == suspicion.value.at)
                  && (p.place == Processing && suspicion.value.Condemned? ==>
                        e.after.value.place == Dead && e.after.value.job.lastHeartbeat == p.job.lastHeartbeat))
  {
  }

  lemma JudgedKeepsTime(suspicion: Option<Suspicion>, count: nat)
    ensures suspicion.Some? && suspicion.value.Seen? ==>
              var judged := Judged(suspicion.value, count);
              judged.at == suspicion.value.at && !judged.Seen? && (judged.Condemned? <==> count >= 3)
  {
  }

  /** A job that is collected, counted or let go of by a check. */
  lemma CheckDelaysBurial(p: Placed, p': Placed, count: nat, suspicion: Option<Suspicion>, clock: nat, clock': nat,
                          lag: nat,
                          action: Action, e: Effect)
    requires Checks(action) && Plausible(p, count, suspicion, clock, lag) && clock' >= clock > 0
    requires e.after == Some(p') && StallTimeout(p'.job) == StallTimeout(p.job)
    requires action.Suspect? ==>
               && suspicion.None? && clock' == Later(clock, action.now) && action.now >= Floor(clock, lag)
               && p.place == Processing && IsStalled(p.job, action.now) && p' == p
               && e.note == Keep && e.mark == Suspects(Seen(action.now, p.job.stallCount))
    requires action.CountStall? ==>
               && p' == p && e.note == Count(count + 1) && suspicion.Some? && suspicion.value.Seen?
               && e.mark == Suspects(Judged(suspicion.value, count + 1))
    requires action.HandleStall? ==>
               && e.note == Keep && e.mark == Cleared && suspicion.Some? && !suspicion.value.Seen?
               && (p.place != Processing ==> p' == p)
               && (p.place == Processing && suspicion.value.Spared? ==>
                     p'.place == Processing && p'.job.lastHeartbeat == suspicion.value.at)
               && (p.place == Processing && suspicion.value.Condemned? ==>
                     p'.place == Dead && p'.job.lastHeartbeat == p.job.lastHeartbeat)
    ensures var count', suspicion' := CountAfter(count, e.note), SuspicionAfter(suspicion, e.mark);
            && Plausible(p', count', suspicion', clock', lag)
            && (lag <= StallTimeout(p.job) ==>
                  BurialOf(p', count', suspicion', clock', lag) >= BurialOf(p, count, suspicion, clock, lag))
  {
    if action.Suspect? {
      CollectDelays(p, count, clock, clock', lag, action.now);
    } else if action.CountStall? {
      CountDelays(p, count, suspicion.value, clock, clock', lag);
    } else {
      HandleDelays(p, p', count, suspicion.value, clock, clock', lag);
    }
    hide BurialOf, Plausible, Judged;
  }

  lemma CollectDelays(p: Placed, count: nat, clock: nat, clock': nat, lag: nat, now: nat)
    requires Plausible(p, count, None, clock, lag) && p.place == Processing && IsStalled(p.job, now)
    requires clock' == Later(clock, now) && now >= Floor(clock, lag)
    ensures var seen := Some(Seen(now, p.job.stallCount));
            Plausible(p, count, seen, clock', lag)
            && BurialOf(p, count, seen, clock', lag) >= BurialOf(p, count, None, clock, lag)
  {
    var timeout, heard := StallTimeout(p.job), p.job.lastHeartbeat;
    var first := First(heard, clock, timeout, lag);
    assert now >= first;
    if count < 2 {
      EarliestGrows(2 - count, 2 - count, first, now, Later(clock, first), clock', timeout, lag);
    }
  }

  lemma CountDelays(p: Placed, count: nat, suspicion: Suspicion, clock: nat, clock': nat, lag: nat)
    requires Plausible(p, count, Some(suspicion), clock, lag) && suspicion.Seen? && clock' >= clock
    ensures var judged := Some(Judged(suspicion, count + 1));
            Plausible(p, count + 1, judged, clock', lag)
            && BurialOf(p, count + 1, judged, clock', lag) >= BurialOf(p, count, Some(suspicion), clock, lag)
  {
    JudgedKeepsTime(Some(suspicion), count + 1);
    hide Judged;
    var heard := HeardAt(p, suspicion.at);
    EarliestGrows(Rounds(count + 1), Rounds(count + 1), heard, heard, clock, clock', StallTimeout(p.job), lag);
    hide Earliest, StallTimeout;
  }

  lemma HandleDelays(p: Placed, p': Placed, count: nat, suspicion: Suspicion, clock: nat, clock': nat, lag: nat)
    requires Plausible(p, count, Some(suspicion), clock, lag) && !suspicion.Seen? && clock' >= clock > 0
    requires StallTimeout(p'.job) == StallTimeout(p.job)
    requires p.place != Processing ==> p' == p
    requires p.place == Processing && suspicion.Spared? ==>
               p'.place == Processing && p'.job.lastHeartbeat == suspicion.at
    requires p.place == Processing && suspicion.Condemned? ==>
               p'.place == Dead && p'.job.lastHeartbeat == p.job.lastHeartbeat
    ensures Plausible(p', count, None, clock', lag)
    ensures lag <= StallTimeout(p.job) ==>
              BurialOf(p', count, None, clock', lag) >= BurialOf(p, count, Some(suspicion), clock, lag)
  {
    var timeout, at := StallTimeout(p.job), suspicion.at;
    var heard' := if WithWorker(p') then p'.job.lastHeartbeat else clock';
    hide StallTimeout;
    if suspicion.Condemned? {
      EarliestIsLater(Rounds(count), heard', clock', timeout, lag);
    } else {
      EarliestGrows(Rounds(count), Rounds(count), HeardAt(p, at), heard', clock, clock', timeout, lag);
    }
    hide Earliest;
  }

  /** The job was heard of now, or is as it was heard of before. */
  predicate HeardNow(p: Placed, p': Placed, clock: nat, clock': nat, lag: nat) {
    && StallTimeout(p'.job) == StallTimeout(p.job)
    && (p'.job.lastHeartbeat != p.job.lastHeartbeat ==>
          && WithWorker(p') && Floor(clock, lag) <= p'.job.lastHeartbeat <= clock')
    && (WithWorker(p') && !WithWorker(p) ==>
          p'.place == InFlight && Floor(clock, lag) <= p'.job.lastHeartbeat <= clock')
    && (p'.place == InFlight && p.place != InFlight ==> Floor(clock, lag) <= p'.job.lastHeartbeat)
  }

  /** Any other action on the job. */
  lemma OtherDelaysBurial(p: Placed, p': Placed, count: nat, count': nat, suspicion: Option<Suspicion>, clock: nat,
                          clock': nat, lag: nat)
    requires Plausible(p, count, suspicion, clock, lag) && clock' >= clock > 0
    requires HeardNow(p, p', clock, clock', lag) && (count' == count || count' == 0)
    ensures Plausible(p', count', suspicion, clock', lag)
    ensures lag <= StallTimeout(p.job) ==>
              BurialOf(p', count', suspicion, clock', lag) >= BurialOf(p, count, suspicion, clock, lag)
  {
    OtherIsPlausible(p, p', count, count', suspicion, clock, clock', lag);
    hide Plausible;
    if lag <= StallTimeout(p.job) {
      match suspicion
      case None => NoneDelays(p, p', count, count', clock, clock', lag);
      case Some(Seen(at, _)) => SeenDelays(p, p', count, count', suspicion.value, clock, clock', lag);
      case Some(Spared(at, _)) => SparedDelays(p, p', count, count', suspicion.value, clock, clock', lag);
      case Some(Condemned(at)) =>
    }
    hide BurialOf, HeardNow;
  }

  lemma OtherIsPlausible(p: Placed, p': Placed, count: nat, count': nat, suspicion: Option<Suspicion>, clock: nat,
                         clock': nat, lag: nat)
    requires Plausible(p, count, suspicion, clock, lag) && clock' >= clock > 0
    requires HeardNow(p, p', clock, clock', lag) && (count' == count || count' == 0)
    ensures Plausible(p', count', suspicion, clock', lag)
  {
    hide StallTimeout;
  }

  lemma NoneDelays(p: Placed, p': Placed, count: nat, count': nat, clock: nat, clock': nat, lag: nat)
    requires Plausible(p, count, None, clock, lag) && clock' >= clock > 0
    requires HeardNow(p, p', clock, clock', lag) && (count' == count || count' == 0)
    ensures BurialOf(p', count', None, clock', lag) >= BurialOf(p, count, None, clock, lag)
  {
    var heard := if WithWorker(p) then p.job.lastHeartbeat else clock;
    var heard' := if WithWorker(p') then p'.job.lastHeartbeat else clock';
    EarliestGrows(Rounds(count), Rounds(count'), heard, heard', clock, clock', StallTimeout(p.job), lag);
    hide Earliest, StallTimeout;
  }

  lemma SeenDelays(p: Placed, p': Placed, count: nat, count': nat, suspicion: Suspicion, clock: nat, clock': nat,
                   lag: nat)
    requires Plausible(p, count, Some(suspicion), clock, lag) && clock' >= clock > 0 && suspicion.Seen?
    requires HeardNow(p, p', clock, clock', lag) && (count' == count || count' == 0) && lag <= StallTimeout(p.job)
    ensures BurialOf(p', count', Some(suspicion), clock', lag) >= BurialOf(p, count, Some(suspicion), clock, lag)
  {
    var heard, heard', timeout := HeardAt(p, suspicion.at), HeardAt(p', suspicion.at), StallTimeout(p.job);
    hide StallTimeout;
    if count < 2 {
      EarliestGrows(Rounds(count + 1), Rounds(count' + 1), heard, heard', clock, clock', timeout, lag);
    } else if count' == 0 {
      EarliestIsLater(2, heard', clock', timeout, lag);
    }
    hide Earliest;
  }

  lemma SparedDelays(p: Placed, p': Placed, count: nat, count': nat, suspicion: Suspicion, clock: nat, clock': nat,
                     lag: nat)
    requires Plausible(p, count, Some(suspicion), clock, lag) && clock' >= clock > 0 && suspicion.Spared?
    requires HeardNow(p, p', clock, clock', lag) && (count' == count || count' == 0)
    ensures BurialOf(p', count', Some(suspicion), clock', lag) >= BurialOf(p, count, Some(suspicion), clock, lag)
  {
    EarliestGrows(Rounds(count), Rounds(count'), HeardAt(p, suspicion.at), HeardAt(p', suspicion.at), clock, clock',
                  StallTimeout(p.job), lag);
    hide Earliest, StallTimeout;
  }

  // ---- One step ----

  ghost predicate Delays(t: Trace, t': Trace, id: JobId, lag: nat)
    requires id in t.state.jobs && id in t'.state.jobs
  {
    JobSane(t', id, lag)
    && (lag <= StallTimeout(t.state.jobs[id].job) ==> EarliestBurial(t', id, lag) >= EarliestBurial(t, id, lag))
    && StallTimeout(t'.state.jobs[id].job) == StallTimeout(t.state.jobs[id].job)
  }
  /** Jobs that come in are not out with a worker, and nothing else changes the pace of a job. */
  ghost predicate Arrives(s: State, s': State) {
    && s'.stalled == s.stalled && s'.suspects == s.suspects && s'.nextId >= s.nextId
    && (forall k | k in s'.jobs && k in s.jobs ::
          && (WithWorker(s'.jobs[k]) ==> s'.jobs[k].place == s.jobs[k].place)
          && s'.jobs[k].job.lastHeartbeat == s.jobs[k].job.lastHeartbeat
          && s'.jobs[k].job.stallTimeout == s.jobs[k].job.stallTimeout)
    && (forall k | k in s'.jobs && k !in s.jobs ::
          k >= s.nextId && !WithWorker(s'.jobs[k]) && s'.jobs[k].job.lastHeartbeat == 0)
  }

  lemma StepArrives(s: State, step: Step)
    requires Fresh(s) && !step.On?
    ensures Arrives(s, Next(s, step))
  {
    hide PushAs, OpenFlow, Obliterated, TellParent;
    match step
    case Push(queue, input, newId, now) => PushShape(s, queue, input, newId, now);
    case PushFlow(queue, data, children, priority, now) => FlowShape(s, queue, data, children, priority, now);
    case Tell(id) => TellArrives(s, id);
    case Obliterate(queue) => ObliterateShape(s, queue);
    case _ => QuietShape(s, step);
  }

  lemma TellArrives(s: State, id: JobId)
    ensures Arrives(s, TellParent(s, id))
  {
  }

  /** How a step that acts on job `id` leaves what is told about it. */
  ghost predicate Becomes(t: Trace, t': Trace, id: JobId, action: Action)
    requires Effective(t.state, id, action)
  {
    var e, s := EffectOf(t.state, id, action).value, t.state;
    && e.after.Some? && id in t'.state.jobs && t'.state.jobs[id] == e.after.value
    && StallCount(t'.state, id) == CountAfter(StallCount(s, id), e.note)
    && Get(t'.state.suspects, id) == SuspicionAfter(Get(s.suspects, id), e.mark)
    && t'.clock == Later(t.clock, GetOr(TimeOf(On(id, action)), 0))
  }

  lemma CheckDelays(t: Trace, t': Trace, id: JobId, action: Action, lag: nat)
    requires Effective(t.state, id, action) && Checks(action) && Regular(t, On(id, action), lag) && t.clock > 0
    requires JobSane(t, id, lag) && Becomes(t, t', id, action)
    ensures Delays(t, t', id, lag)
  {
    CheckTimes(t.state, id, action);
    var e := EffectOf(t.state, id, action).value;
    hide EffectOf, StallCount, StallTimeout, IsStalled, Floor;
    CheckDelaysBurial(t.state.jobs[id], t'.state.jobs[id], StallCount(t.state, id), Get(t.state.suspects, id),
                      t.clock, t'.clock, lag, action, e);
    hide BurialOf, Plausible;
  }

  lemma OtherDelays(t: Trace, t': Trace, id: JobId, action: Action, lag: nat)
    requires Effective(t.state, id, action) && !Checks(action) && Regular(t, On(id, action), lag) && t.clock > 0
    requires JobSane(t, id, lag) && Becomes(t, t', id, action)
    ensures Delays(t, t', id, lag)
  {
    ActionTimes(t.state, id, action);
    hide EffectOf, StallCount, StallTimeout, Floor;
    OtherDelaysBurial(t.state.jobs[id], t'.state.jobs[id], StallCount(t.state, id), StallCount(t'.state, id),
                      Get(t.state.suspects, id), t.clock, t'.clock, lag);
    hide BurialOf, Plausible;
  }

  lemma ActionDelays(t: Trace, id: JobId, action: Action, lag: nat)
    requires Effective(t.state, id, action) && Regular(t, On(id, action), lag) && t.clock > 0 && JobSane(t, id, lag)
    ensures var t' := Follow(t, On(id, action)); id in t'.state.jobs ==> Delays(t, t', id, lag)
  {
    var t' := Follow(t, On(id, action));
    hide JobSane, Delays, EffectOf, TimeOf;
    if id in t'.state.jobs {
      assert Becomes(t, t', id, action);
      if Checks(action) {
        CheckDelays(t, t', id, action, lag);
      } else {
        OtherDelays(t, t', id, action, lag);
      }
    }
  }

  /** Nothing is told of the job, but time goes on. */
  lemma WaitingDelays(t: Trace, t': Trace, k: JobId, lag: nat)
    requires k in t.state.jobs && k in t'.state.jobs && JobSane(t, k, lag) && t'.clock >= t.clock > 0
    requires var p, p' := t.state.jobs[k], t'.state.jobs[k];
             && (WithWorker(p') ==> p'.place == p.place) && p'.job.lastHeartbeat == p.job.lastHeartbeat
             && StallTimeout(p'.job) == StallTimeout(p.job)
    requires StallCount(t'.state, k) == StallCount(t.state, k) && Get(t'.state.suspects, k) == Get(t.state.suspects, k)
    ensures Delays(t, t', k, lag)
  {
    hide StallCount, StallTimeout, Floor;
    OtherDelaysBurial(t.state.jobs[k], t'.state.jobs[k], StallCount(t.state, k), StallCount(t.state, k),
                      Get(t.state.suspects, k), t.clock, t'.clock, lag);
    hide BurialOf, Plausible;
  }

  lemma OnDelays(t: Trace, id: JobId, action: Action, lag: nat)
    requires Sane(t, lag) && Regular(t, On(id, action), lag)
    ensures var t' := Follow(t, On(id, action));
            && (forall k | k in t.state.jobs && k in t'.state.jobs :: Delays(t, t', k, lag))
            && t'.state.jobs.Keys <= t.state.jobs.Keys
  {
    var t' := Follow(t, On(id, action));
    hide JobSane, Delays, EffectOf, TimeOf;
    forall k | k in t.state.jobs && k in t'.state.jobs
      ensures Delays(t, t', k, lag)
    {
      if k == id && Effective(t.state, id, action) {
        ActionDelays(t, id, action, lag);
      } else {
        WaitingDelays(t, t', k, lag);
      }
    }
  }

  lemma ArrivalDelays(t: Trace, step: Step, lag: nat)
    requires Sane(t, lag) && !step.On? && Arrives(t.state, Next(t.state, step))
    ensures var t' := Follow(t, step);
            && (forall k | k in t.state.jobs && k in t'.state.jobs :: Delays(t, t', k, lag))
            && (forall k | k in t'.state.jobs && k !in t.state.jobs :: JobSane(t', k, lag))
  {
    var t' := Follow(t, step);
    hide Next, JobSane, Delays, TimeOf;
    forall k | k in t.state.jobs && k in t'.state.jobs
      ensures Delays(t, t', k, lag)
    {
      WaitingDelays(t, t', k, lag);
    }
    forall k | k in t'.state.jobs && k !in t.state.jobs
      ensures JobSane(t', k, lag)
    {
      NewJobIsSane(t', k, lag);
    }
  }

  lemma NewJobIsSane(t: Trace, k: JobId, lag: nat)
    requires k in t.state.jobs && !WithWorker(t.state.jobs[k]) && t.state.jobs[k].job.lastHeartbeat == 0
    requires k !in t.state.stalled && k !in t.state.suspects
    ensures JobSane(t, k, lag)
  {
  }

  lemma OnKeepsNotes(s: State, id: JobId, action: Action)
    requires Fresh(s) && forall k | k in s.stalled || k in s.suspects :: k < s.nextId
    ensures var s' := Act(s, id, action); forall k | k in s'.stalled || k in s'.suspects :: k < s'.nextId
  {
    hide EffectOf;
  }

  /** A step leaves the times plausible, and no job's earliest burial falls. */
  lemma StepDelays(t: Trace, step: Step, lag: nat)
    requires Sane(t, lag) && Regular(t, step, lag)
    ensures var t' := Follow(t, step);
            Sane(t', lag) && forall k | k in t.state.jobs && k in t'.state.jobs :: Delays(t, t', k, lag)
  {
    var t' := Follow(t, step);
    StepKeepsFresh(t.state, step);
    if step.On? {
      OnDelays(t, step.id, step.action, lag);
      OnKeepsNotes(t.state, step.id, step.action);
    } else {
      StepArrives(t.state, step);
      ArrivalDelays(t, step, lag);
    }
    hide Next, TimeOf, Fresh;
    forall k | k in t'.state.jobs
      ensures JobSane(t', k, lag)
    {
      assert k in t.state.jobs ==> Delays(t, t', k, lag);
    }
  }

  lemma {:induction false} RunDelays(t: Trace, steps: seq<Step>, lag: nat, id: JobId)
    requires Sane(t, lag) && RegularRun(t, steps, lag) && id < t.state.nextId
    ensures var t' := FollowAll(t, steps);
            && Sane(t', lag)
            && (id in t'.state.jobs ==> id in t.state.jobs && Delays(t, t', id, lag))
    decreases |steps|
  {
    if steps == [] {
      assert id in t.state.jobs ==> JobSane(t, id, lag);
    } else {
      var t1 := Follow(t, steps[0]);
      StepDelays(t, steps[0], lag);
      NoIdTwice(t.state, steps[0], id);
      hide Next, TimeOf, Regular, Fresh;
      RunDelays(t1, steps[1..], lag, id);
      hide Sane, EarliestBurial, JobSane, StallTimeout, Follow;
    }
  }

  /** An id once gone does not come back. */
  lemma NoIdTwice(s: State, step: Step, id: JobId)
    requires Fresh(s) && id < s.nextId
    ensures id in Next(s, step).jobs ==> id in s.jobs
    ensures id < Next(s, step).nextId
  {
    StepKeepsFresh(s, step);
    if step.On? {
      hide EffectOf;
    } else {
      StepArrives(s, step);
      hide Next;
    }
  }

  // ---- Burials ----

  /** In a regular run of these steps a check that began at `at` condemns the job; its last section will bury
      it. */
  ghost predicate Buries(t: Trace, steps: seq<Step>, id: JobId, at: nat, lag: nat) {
    RegularRun(t, steps, lag)
    && var s := FollowAll(t, steps).state;
       At(s, id, Processing) && id in s.suspects && s.suspects[id] == Condemned(at)
  }

  lemma BuriedMeans(s: State, id: JobId)
    requires At(s, id, Processing)
    ensures At(Next(s, On(id, HandleStall)), id, Dead) <==> id in s.suspects && s.suspects[id].Condemned?
  {
  }

  lemma NoEarlierBurial(t: Trace, steps: seq<Step>, id: JobId, at: nat, lag: nat)
    requires Sane(t, lag) && id in t.state.jobs && lag <= StallTimeout(t.state.jobs[id].job)
    requires Buries(t, steps, id, at, lag)
    ensures at >= EarliestBurial(t, id, lag)
  {
    RunDelays(t, steps, lag, id);
    hide Sane, RegularRun, FollowAll, StallTimeout, StallCount;
  }

  datatype Phase = Idle | Collected | Acquitted | Sentenced

  function PhaseOf(s: State, id: JobId): Phase {
    var suspicion: Option<Suspicion> := Get(s.suspects, id);
    match suspicion
    case None => Idle
    case Some(Seen(_, _)) => Collected
    case Some(Spared(_, _)) => Acquitted
    case Some(Condemned(_)) => Sentenced
  }

  /** What a stall check and a heartbeat call see of an active job. */
  ghost predicate Looks(s: State, id: JobId, heard: nat, count: nat, phase: Phase, at: nat, timeout: nat) {
    && At(s, id, Processing) && s.jobs[id].job.lastHeartbeat == heard && StallTimeout(s.jobs[id].job) == timeout
    && StallCount(s, id) == count && PhaseOf(s, id) == phase && (phase != Idle ==> s.suspects[id].at == at)
  }

  lemma CallLooks(s: State, id: JobId, heard: nat, count: nat, phase: Phase, at: nat, timeout: nat, now: nat)
    requires Looks(s, id, heard, count, phase, at, timeout)
    ensures Looks(Next(Next(s, On(id, Heartbeat(now))), On(id, HeartbeatDone(now))), id, now, 0, phase, at, timeout)
  {
    HeartbeatLooks(s, id, heard, count, phase, at, timeout, now);
    hide Next, Looks;
    ReturnLooks(Next(s, On(id, Heartbeat(now))), id, now, count, phase, at, timeout, now);
  }

  lemma HeartbeatLooks(s: State, id: JobId, heard: nat, count: nat, phase: Phase, at: nat, timeout: nat, now: nat)
    requires Looks(s, id, heard, count, phase, at, timeout)
    ensures Looks(Next(s, On(id, Heartbeat(now))), id, now, count, phase, at, timeout)
  {
  }

  lemma ReturnLooks(s: State, id: JobId, heard: nat, count: nat, phase: Phase, at: nat, timeout: nat, now: nat)
    requires Looks(s, id, heard, count, phase, at, timeout)
    ensures Looks(Next(s, On(id, HeartbeatDone(now))), id, heard, 0, phase, at, timeout)
  {
  }

  lemma CollectLooks(s: State, id: JobId, heard: nat, count: nat, at: nat, timeout: nat, now: nat)
    requires Looks(s, id, heard, count, Idle, at, timeout) && heard > 0 && now > heard + timeout
    ensures Looks(Next(s, On(id, Suspect(now))), id, heard, count, Collected, now, timeout)
  {
  }

  lemma CountLooks(s: State, id: JobId, heard: nat, count: nat, at: nat, timeout: nat)
    requires Looks(s, id, heard, count, Collected, at, timeout)
    ensures Looks(Next(s, On(id, CountStall)), id, heard, count + 1, if count + 1 >= 3 then Sentenced
                  else Acquitted, at, timeout)
  {
  }

  lemma HandleLooks(s: State, id: JobId, heard: nat, count: nat, phase: Phase, at: nat, timeout: nat)
    requires Looks(s, id, heard, count, phase, at, timeout) && (phase == Acquitted || phase == Sentenced)
    ensures var s' := Next(s, On(id, HandleStall));
            if phase == Acquitted then Looks(s', id, at, count, Idle, at, timeout) else At(s', id, Dead)
  {
  }

  /** The same, with the clock. */
  ghost predicate Seems(t: Trace, id: JobId, heard: nat, count: nat, phase: Phase, at: nat, timeout: nat, clock: nat) {
    Looks(t.state, id, heard, count, phase, at, timeout) && t.clock == clock
  }

  /** A silent job made to look as silent as the lag allows. */
  function Ageing(id: JobId, heard: nat, clock: nat, lag: nat): seq<Step> {
    if heard > Floor(clock, lag) then [On(id, Heartbeat(Floor(clock, lag)))] else []
  }

  lemma AgeingSeems(t: Trace, id: JobId, heard: nat, count: nat, at: nat, timeout: nat, clock: nat, lag: nat)
    requires Seems(t, id, heard, count, Idle, at, timeout, clock) && clock > 0
    ensures var steps := Ageing(id, heard, clock, lag);
            && RegularRun(t, steps, lag)
            && Seems(FollowAll(t, steps), id, Min(heard, Floor(clock, lag)), count, Idle, at, timeout, clock)
  {
    if heard > Floor(clock, lag) {
      var step := On(id, Heartbeat(Floor(clock, lag)));
      HeartbeatLooks(t.state, id, heard, count, Idle, at, timeout, Floor(clock, lag));
      assert [step][1..] == [];
      assert FollowAll(t, [step]) == Follow(t, step);
    }
  }

  /** A check collects the job and counts. */
  function Accusing(id: JobId, now: nat): seq<Step> {
    [On(id, Suspect(now)), On(id, CountStall)]
  }

  lemma AccusingSeems(t: Trace, id: JobId, heard: nat, count: nat, at: nat, timeout: nat, clock: nat, lag: nat,
                      now: nat)
    requires Seems(t, id, heard, count, Idle, at, timeout, clock)
    requires heard > 0 && now > heard + timeout && now >= Floor(clock, lag)
    ensures RegularRun(t, Accusing(id, now), lag)
    ensures Seems(FollowAll(t, Accusing(id, now)), id, heard, count + 1, if count + 1 >= 3 then Sentenced
                  else Acquitted,
                  now, timeout, Later(clock, now))
  {
    var a, b := On(id, Suspect(now)), On(id, CountStall);
    CollectLooks(t.state, id, heard, count, at, timeout, now);
    CountLooks(Next(t.state, a), id, heard, count, now, timeout);
    IdleIsUnsuspected(t.state, id);
    hide Next, Looks, Floor;
    FollowTwo(t, a, b, lag);
  }

  lemma IdleIsUnsuspected(s: State, id: JobId)
    ensures PhaseOf(s, id) == Idle <==> id !in s.suspects
  {
  }

  lemma FollowOne(t: Trace, a: Step, lag: nat)
    ensures FollowAll(t, [a]) == Follow(t, a) && (RegularRun(t, [a], lag) <==> Regular(t, a, lag))
  {
    hide Follow, Regular;
    assert [a][1..] == [];
  }

  lemma FollowTwo(t: Trace, a: Step, b: Step, lag: nat)
    ensures FollowAll(t, [a, b]) == Follow(Follow(t, a), b)
    ensures RegularRun(t, [a, b], lag) <==> Regular(t, a, lag) && Regular(Follow(t, a), b, lag)
  {
    hide Follow, Regular;
    FollowOne(Follow(t, a), b, lag);
    assert [a, b][1..] == [b];
  }

  lemma HandlingSeems(t: Trace, id: JobId, heard: nat, count: nat, at: nat, timeout: nat, clock: nat, lag: nat)
    requires Seems(t, id, heard, count, Acquitted, at, timeout, clock)
    ensures RegularRun(t, [On(id, HandleStall)], lag)
    ensures Seems(FollowAll(t, [On(id, HandleStall)]), id, at, count, Idle, at, timeout, clock)
  {
    HandleLooks(t.state, id, heard, count, Acquitted, at, timeout);
    FollowOne(t, On(id, HandleStall), lag);
    hide Next, Looks;
  }

  /** As many checks as it takes, each as early as can be. */
  lemma {:induction false} RoundsBury(t: Trace, id: JobId, heard: nat, count: nat, at: nat, timeout: nat, clock: nat,
                                      lag: nat)
      returns (steps: seq<Step>)
    requires Seems(t, id, heard, count, Idle, at, timeout, clock) && heard > 0 && clock > 0
    ensures Buries(t, steps, id, Earliest(Rounds(count), heard, clock, timeout, lag), lag)
    decreases Rounds(count)
  {
    var low, now := Min(heard, Floor(clock, lag)), First(heard, clock, timeout, lag);
    var ageing, accusing := Ageing(id, heard, clock, lag), Accusing(id, now);
    AgeingSeems(t, id, heard, count, at, timeout, clock, lag);
    var t1 := FollowAll(t, ageing);
    AccusingSeems(t1, id, low, count, at, timeout, clock, lag, now);
    FollowAppend(t, ageing, accusing, lag);
    var t2 := FollowAll(t1, accusing);
    hide FollowAll, RegularRun, First, Floor;
    if count >= 2 {
      SentencedBuries(t, ageing + accusing, id, low, count + 1, now, timeout, Later(clock, now), lag);
      steps := ageing + accusing;
    } else {
      HandlingSeems(t2, id, low, count + 1, now, timeout, Later(clock, now), lag);
      var before := ageing + accusing + [On(id, HandleStall)];
      FollowAppend(t, ageing + accusing, [On(id, HandleStall)], lag);
      hide Seems;
      var more := RoundsBury(FollowAll(t, before), id, now, count + 1, now, timeout, Later(clock, now), lag);
      steps := before + more;
      BuriesAfter(t, before, more, id, Earliest(Rounds(count), heard, clock, timeout, lag), lag);
    }
  }

  lemma SentencedBuries(t: Trace, steps: seq<Step>, id: JobId, heard: nat, count: nat, at: nat, timeout: nat,
                        clock: nat, lag: nat)
    requires RegularRun(t, steps, lag) && Seems(FollowAll(t, steps), id, heard, count, Sentenced, at, timeout, clock)
    ensures Buries(t, steps, id, at, lag)
  {
    hide FollowAll, RegularRun, StallCount;
  }

  lemma BuriesAfter(t: Trace, before: seq<Step>, more: seq<Step>, id: JobId, at: nat, lag: nat)
    requires RegularRun(t, before, lag) && Buries(FollowAll(t, before), more, id, at, lag)
    ensures Buries(t, before + more, id, at, lag)
  {
    hide FollowAll, RegularRun;
    FollowAppend(t, before, more, lag);
  }

  /** Why a call that a check overlaps does not count: once the job is condemned, a heartbeat call that
      succeeds comes too late. */
  lemma CondemnedIsBuried(s: State, id: JobId, now: nat)
    requires At(s, id, Processing) && PhaseOf(s, id) == Sentenced
    ensures At(Run(s, [On(id, Heartbeat(now)), On(id, HeartbeatDone(now)), On(id, HandleStall)]), id, Dead)
  {
    var s2 := Next(Next(s, On(id, Heartbeat(now))), On(id, HeartbeatDone(now)));
    var job := s.jobs[id].job;
    RunThree(s, On(id, Heartbeat(now)), On(id, HeartbeatDone(now)), On(id, HandleStall));
    CallLooks(s, id, job.lastHeartbeat, StallCount(s, id), Sentenced, s.suspects[id].at, StallTimeout(job), now);
    hide Next, Run;
    HandleLooks(s2, id, now, 0, Sentenced, s.suspects[id].at, StallTimeout(job));
  }

  function Check(id: JobId, now: nat): seq<Step> {
    [On(id, Suspect(now)), On(id, CountStall), On(id, HandleStall)]
  }

  /** What one check comes to for a silent job. */
  lemma CheckLooks(s: State, id: JobId, heard: nat, count: nat, at: nat, timeout: nat, now: nat)
    requires Looks(s, id, heard, count, Idle, at, timeout) && heard > 0 && now > heard + timeout
    ensures var s' := Run(s, Check(id, now));
            if count + 1 >= 3 then At(s', id, Dead) else Looks(s', id, now, count + 1, Idle, now, timeout)
  {
    var s1 := Next(s, On(id, Suspect(now)));
    RunThree(s, On(id, Suspect(now)), On(id, CountStall), On(id, HandleStall));
    CollectLooks(s, id, heard, count, at, timeout, now);
    CountLooks(s1, id, heard, count, now, timeout);
    HandleLooks(Next(s1, On(id, CountStall)), id, heard, count + 1, if count + 1 >= 3 then Sentenced
                else Acquitted, now, timeout);
    hide Next, Run, Looks;
  }

  /** A heartbeat call made, and answered, while a check has the job in hand. */
  function CallWithin(id: JobId, called: nat): seq<Step> {
    [On(id, Heartbeat(called)), On(id, HeartbeatDone(called)), On(id, CountStall), On(id, HandleStall)]
  }

  lemma CallWithinLooks(s: State, id: JobId, called: nat, at: nat, timeout: nat)
    requires At(s, id, Processing) && PhaseOf(s, id) == Collected && s.suspects[id].at == at
    requires StallTimeout(s.jobs[id].job) == timeout
    ensures Looks(Run(s, CallWithin(id, called)), id, at, 1, Idle, at, timeout)
  {
    var heard, count := s.jobs[id].job.lastHeartbeat, StallCount(s, id);
    var s1 := Next(Next(s, On(id, Heartbeat(called))), On(id, HeartbeatDone(called)));
    assert Looks(s, id, heard, count, Collected, at, timeout);
    hide Next, Run, Looks, StallCount;
    CallLooks(s, id, heard, count, Collected, at, timeout, called);
    CountLooks(s1, id, called, 0, at, timeout);
    HandleLooks(Next(s1, On(id, CountStall)), id, called, 1, Acquitted, at, timeout);
    RunTwo(s, On(id, Heartbeat(called)), On(id, HeartbeatDone(called)));
    RunTwo(s1, On(id, CountStall), On(id, HandleStall));
    RunAppend(s, [On(id, Heartbeat(called)), On(id, HeartbeatDone(called))], [On(id, CountStall), On(id, HandleStall)]);
    assert [On(id, Heartbeat(called)), On(id, HeartbeatDone(called))] + [On(id, CountStall), On(id, HandleStall)]
        == CallWithin(id, called);
  }

  /** The smaller bound is met: a job collected at `at` makes a heartbeat call one timeout later, the check
      goes on and takes it to have been heard of at `at`, and the check that begins one timeout and a
      tick after the call returned is the one that buries it. */
  lemma OverlappedCallBuysOneTimeout(s: State, id: JobId, at: nat, timeout: nat)
    requires At(s, id, Processing) && PhaseOf(s, id) == Collected && s.suspects[id].at == at > 0
    requires StallTimeout(s.jobs[id].job) == timeout
    ensures var called := at + timeout + 1;
            At(Run(Run(Run(s, CallWithin(id, called)), Check(id, called)), Check(id, called + timeout + 1)), id, Dead)
  {
    hide *;
    var called := at + timeout + 1;
    CallWithinLooks(s, id, called, at, timeout);
    var s2 := Run(s, CallWithin(id, called));
    CheckLooks(s2, id, at, 1, at, timeout, called);
    CheckLooks(Run(s2, Check(id, called)), id, called, 2, called, timeout, called + timeout + 1);
  }

  // ---- The bound ----

  lemma EarliestBurialIsMet(t: Trace, id: JobId, lag: nat) returns (steps: seq<Step>)
    requires Sane(t, lag) && At(t.state, id, Processing)
    ensures Buries(t, steps, id, EarliestBurial(t, id, lag), lag)
  {
    var s, count, timeout := t.state, StallCount(t.state, id), StallTimeout(t.state.jobs[id].job);
    var heard, phase := s.jobs[id].job.lastHeartbeat, PhaseOf(s, id);
    var at := if phase == Idle then 0 else s.suspects[id].at;
    assert JobSane(t, id, lag);
    assert Seems(t, id, heard, count, phase, at, timeout, t.clock);
    hide Sane, JobSane, StallTimeout, StallCount, Looks;
    match phase
    case Idle => steps := RoundsBury(t, id, heard, count, at, timeout, t.clock, lag);
    case Collected => steps := CollectedBuries(t, id, heard, count, at, timeout, t.clock, lag);
    case Acquitted => steps := AcquittedBuries(t, id, heard, count, at, timeout, t.clock, lag);
    case Sentenced =>
      steps := [];
      SentencedBuries(t, steps, id, heard, count, at, timeout, t.clock, lag);
  }

  lemma AcquittedBuries(t: Trace, id: JobId, heard: nat, count: nat, at: nat, timeout: nat, clock: nat, lag: nat)
      returns (steps: seq<Step>)
    requires Seems(t, id, heard, count, Acquitted, at, timeout, clock) && at > 0 && clock > 0
    ensures Buries(t, steps, id, Earliest(Rounds(count), at, clock, timeout, lag), lag)
  {
    var handling := [On(id, HandleStall)];
    HandlingSeems(t, id, heard, count, at, timeout, clock, lag);
    hide Seems, FollowAll, RegularRun;
    var more := RoundsBury(FollowAll(t, handling), id, at, count, at, timeout, clock, lag);
    steps := handling + more;
    BuriesAfter(t, handling, more, id, Earliest(Rounds(count), at, clock, timeout, lag), lag);
  }

  lemma CollectedBuries(t: Trace, id: JobId, heard: nat, count: nat, at: nat, timeout: nat, clock: nat, lag: nat)
      returns (steps: seq<Step>)
    requires Seems(t, id, heard, count, Collected, at, timeout, clock) && at > 0 && clock > 0
    ensures Buries(t, steps, id, if count >= 2 then at else Earliest(Rounds(count + 1), at, clock, timeout, lag), lag)
  {
    var counting := [On(id, CountStall)];
    CountLooks(t.state, id, heard, count, at, timeout);
    FollowOne(t, On(id, CountStall), lag);
    var t1 := FollowAll(t, counting);
    hide Next, Looks, FollowAll, RegularRun;
    if count >= 2 {
      steps := counting;
      SentencedBuries(t, steps, id, heard, count + 1, at, timeout, clock, lag);
    } else {
      var more := AcquittedBuries(t1, id, heard, count + 1, at, timeout, clock, lag);
      steps := counting + more;
      BuriesAfter(t, counting, more, id, Earliest(Rounds(count + 1), at, clock, timeout, lag), lag);
    }
  }

  /** The stall bound, exact: from any state of a run on, whatever else happens, the checks that bury an
      active job begin no earlier than `EarliestBurial`, and one can begin just then. */
  lemma StallBoundIsExact(t: Trace, id: JobId, lag: nat, after: int)
    requires Sane(t, lag) && At(t.state, id, Processing) && lag <= StallTimeout(t.state.jobs[id].job)
    ensures (forall steps, at: nat | Buries(t, steps, id, at, lag) :: at > after)
            <==> EarliestBurial(t, id, lag) > after
  {
    assert id in t.state.jobs;
    hide *;
    var met := EarliestBurialIsMet(t, id, lag);
    if EarliestBurial(t, id, lag) > after {
      forall steps, at: nat | Buries(t, steps, id, at, lag)
        ensures at > after
      {
        NoEarlierBurial(t, steps, id, at, lag);
      }
    }
  }

  /** Beyond the timeout a lag voids the bound: with two stalls noted, a section that comes with an old
      enough time makes the job fit to be buried by a check that begins now, or before. */
  lemma LongLagBuriesAtOnce(t: Trace, id: JobId, lag: nat) returns (steps: seq<Step>, at: nat)
    requires Sane(t, lag) && At(t.state, id, Processing) && StallCount(t.state, id) >= 2 && id !in t.state.suspects
    requires t.clock > lag > StallTimeout(t.state.jobs[id].job)
    ensures Buries(t, steps, id, at, lag) && at <= t.clock
  {
    at := EarliestBurial(t, id, lag);
    steps := EarliestBurialIsMet(t, id, lag);
    assert at == First(t.state.jobs[id].job.lastHeartbeat, t.clock, StallTimeout(t.state.jobs[id].job), lag);
    hide Buries, Sane, BurialOf, StallTimeout;
  }

  /** What a heartbeat call is good for, by the state it returns in. */
  predicate BuysThreeTimeouts(p: Placed, suspicion: Option<Suspicion>, clock: nat, began: nat) {
    var timeout := StallTimeout(p.job);
    match suspicion
    case None => Later(p.job.lastHeartbeat + timeout + 1, clock) + 2 * (timeout + 1) > began + 3 * timeout
    case Some(Seen(at, _)) => Later(at + timeout + 1, clock) + timeout + 1 > began + 3 * timeout
    case Some(Spared(at, _)) => Later(at + timeout + 1, clock) + 2 * (timeout + 1) > began + 3 * timeout
    case Some(Condemned(at)) => at > began + 3 * timeout
  }

  /** Exactly when a heartbeat call that returns now, and began at `began`, keeps the job from being buried
      by any check that begins within three timeouts. It always does when no check has the job in hand
      and none took it to be older than the call; a condemned job it saves only if it took that long. */
  lemma HeartbeatBuysExactly(t: Trace, id: JobId, began: nat)
    requires Sane(t, 0) && At(t.state, id, Processing) && StallCount(t.state, id) == 0
    ensures var p, suspicion, timeout := t.state.jobs[id], Get(t.state.suspects, id),
            StallTimeout(t.state.jobs[id].job);
            && ((forall steps, at: nat | Buries(t, steps, id, at, 0) :: at > began + 3 * timeout)
                <==> BuysThreeTimeouts(p, suspicion, t.clock, began))
            && (suspicion.None? && began <= p.job.lastHeartbeat ==> BuysThreeTimeouts(p, suspicion, t.clock, began))
  {
    var timeout := StallTimeout(t.state.jobs[id].job);
    StallBoundIsExact(t, id, 0, began + 3 * timeout);
    assert JobSane(t, id, 0);
    Undelayed(t.state.jobs[id], Get(t.state.suspects, id), t.clock);
    hide Buries, Sane, BurialOf, StallTimeout;
  }

  /** The earliest burial in plain numbers, for a job without stalls and sections that are never late. */
  lemma Undelayed(p: Placed, suspicion: Option<Suspicion>, clock: nat)
    requires Plausible(p, 0, suspicion, clock, 0) && p.place == Processing && clock > 0
    ensures var timeout := StallTimeout(p.job);
            BurialOf(p, 0, suspicion, clock, 0)
              == match suspicion
                 case None => Later(p.job.lastHeartbeat + timeout + 1, clock) + 2 * (timeout + 1)
                 case Some(Seen(at, _)) => Later(at + timeout + 1, clock) + timeout + 1
                 case Some(Spared(at, _)) => Later(at + timeout + 1, clock) + 2 * (timeout + 1)
                 case Some(Condemned(at)) => at
  {
    var timeout := StallTimeout(p.job);
    hide StallTimeout;
    match suspicion
    case None => UndelayedRounds(p.job.lastHeartbeat, clock, timeout);
    case Some(Seen(at, _)) => UndelayedRounds(at, clock, timeout);
    case Some(Spared(at, _)) => UndelayedRounds(at, clock, timeout);
    case Some(Condemned(at)) =>
  }

  lemma UndelayedRounds(heard: nat, clock: nat, timeout: nat)
    requires 0 < heard <= clock
    ensures Earliest(2, heard, clock, timeout, 0) == Later(heard + timeout + 1, clock) + timeout + 1
    ensures Earliest(3, heard, clock, timeout, 0) == Later(heard + timeout + 1, clock) + 2 * (timeout + 1)
  {
    var first := First(heard, clock, timeout, 0);
    var second := First(first, Later(clock, first), timeout, 0);
    assert first == Later(heard + timeout + 1, clock) && second == first + timeout + 1;
    assert First(second, Later(Later(clock, first), second), timeout, 0) == second + timeout + 1;
    assert Earliest(1, first, Later(clock, first), timeout, 0) == second;
    assert Earliest(2, first, Later(clock, first), timeout, 0)
           == Earliest(1, second, Later(Later(clock, first), second), timeout, 0);
  }

  lemma InitialIsSane(clock: nat, lag: nat)
    requires clock > 0
    ensures Sane(Trace(INITIAL, clock), lag)
  {
  }

  /** The stall bound from the first pull on: however often the job fails, is retried or comes back from
      the dead letter queue, the check that buries it begins more than three stall timeouts after its
      first pull, less the lag for each. */
  lemma StallBound(start: nat, before: seq<Step>, now: nat, later: seq<Step>, id: JobId, at: nat, lag: nat)
    requires start > 0 && RegularRun(Trace(INITIAL, start), before + [On(id, Take(now))], lag)
    requires var t := FollowAll(Trace(INITIAL, start), before);
             && id in t.state.jobs && t.state.jobs[id].job.lastHeartbeat == 0
             && EffectOf(t.state, id, Take(now)).Some? && lag <= StallTimeout(t.state.jobs[id].job)
    requires Buries(FollowAll(Trace(INITIAL, start), before + [On(id, Take(now))]), later, id, at, lag)
    ensures at > now + 3 * (StallTimeout(FollowAll(Trace(INITIAL, start), before).state.jobs[id].job) - lag)
  {
    var t0, pull := Trace(INITIAL, start), On(id, Take(now));
    var t := FollowAll(t0, before);
    var t1 := Follow(t, pull);
    InitialIsSane(start, lag);
    FollowAppend(t0, before, [pull], lag);
    FollowOne(t, pull, lag);
    hide FollowAll, RegularRun, Buries, EffectOf;
    RunKeepsSane(t0, before, lag);
    FirstPull(t, id, now, lag);
    StepDelays(t, pull, lag);
    hide Follow, Sane, EarliestBurial, StallTimeout, Regular;
    NoEarlierBurial(t1, later, id, at, lag);
  }

  lemma {:induction false} RunKeepsSane(t: Trace, steps: seq<Step>, lag: nat)
    requires Sane(t, lag) && RegularRun(t, steps, lag)
    ensures Sane(FollowAll(t, steps), lag)
    decreases |steps|
  {
    hide Sane, Follow, Regular, EarliestBurial, JobSane, StallTimeout;
    if steps != [] {
      StepDelays(t, steps[0], lag);
      RunKeepsSane(Follow(t, steps[0]), steps[1..], lag);
    }
  }

  lemma FirstPull(t: Trace, id: JobId, now: nat, lag: nat)
    requires Sane(t, lag) && Regular(t, On(id, Take(now)), lag)
    requires id in t.state.jobs && t.state.jobs[id].job.lastHeartbeat == 0 && EffectOf(t.state, id, Take(now)).Some?
    requires lag <= StallTimeout(t.state.jobs[id].job)
    ensures var t1, timeout := Follow(t, On(id, Take(now))), StallTimeout(t.state.jobs[id].job);
            && id in t1.state.jobs && StallTimeout(t1.state.jobs[id].job) == timeout
            && EarliestBurial(t1, id, lag) > now + 3 * (timeout - lag)
  {
    var t1, timeout := Follow(t, On(id, Take(now))), StallTimeout(t.state.jobs[id].job);
    assert JobSane(t, id, lag);
    ActionTimes(t.state, id, Take(now));
    assert Becomes(t, t1, id, Take(now));
    hide EffectOf, StallTimeout, Sane, Follow;
    EarliestAtLeast(3, now, t1.clock, timeout, lag);
    hide Earliest, StallCount;
  }
}
