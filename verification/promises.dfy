/** What the operations come to in a caller's terms: in the fields of the jobs, and not in the words in which
    the engine is written. */
module Promises {
  import opened Protocol
  import opened Pull
  import opened Engine
  import opened Containers
  import opened Operations
  import opened PushBatches

  // ---- In the fields of a job ----

  function Given(given: Option<nat>, otherwise: nat): nat {
    match given
    case Some(n) => n
    case None => otherwise
  }

  /** The powers of two up to the tenth. */
  const POWERS := [1, 2, 4, 8, 16, 32, 64, 128, 256, 512, 1024]

  /** The delay after the failure that is a job's `n`-th. */
  function DelayAfter(backoff: nat, n: nat): nat {
    backoff * POWERS[if n < 10 then n else 10]
  }

  ghost predicate OthersStay(s: State, s': State, id: JobId) {
    forall k | k != id :: (k in s.jobs <==> k in s'.jobs) && (k in s.jobs ==> s'.jobs[k] == s.jobs[k])
  }

  /** Nothing but jobs, slots, groups, keys and the notes of stalls and completion has changed. */
  ghost predicate RestStays(s: State, s': State) {
    && s'.paused == s.paused && s'.customIds == s.customIds && s'.debounce == s.debounce && s'.nextId == s.nextId
  }

  /** One slot of the queue was given back, if there was one to give. */
  ghost predicate SlotBack(before: map<string, Limiter>, after: map<string, Limiter>, queue: string) {
    && after.Keys == before.Keys
    && forall q | q in before ::
         && after[q].limit == before[q].limit
         && after[q].current == before[q].current - if q == queue && before[q].current > 0 then 1 else 0
  }

  ghost predicate SlotTaken(before: map<string, Limiter>, after: map<string, Limiter>, queue: string) {
    && after.Keys == before.Keys
    && forall q | q in before ::
         && after[q].limit == before[q].limit
         && after[q].current == before[q].current + if q == queue then 1 else 0
  }

  ghost predicate GroupBack(before: set<(string, string)>, after: set<(string, string)>, queue: string, job: Job) {
    forall g :: g in after <==> g in before && !(job.groupId == Some(g.1) && g.0 == queue)
  }

  ghost predicate KeyBack(before: set<(string, string)>, after: set<(string, string)>, queue: string, job: Job) {
    forall k :: k in after <==> k in before && !(job.uniqueKey == Some(k.1) && k.0 == queue)
  }

  lemma PowersOfTwo(n: nat)
    requires n <= 10
    ensures PowerOfTwo(n) == POWERS[n]
  {
    assert PowerOfTwo(2) == 4 && PowerOfTwo(4) == 16 && PowerOfTwo(6) == 64 && PowerOfTwo(8) == 256;
  }

  lemma DelayIsBackoff(job: Job)
    ensures job.NextBackoff() == DelayAfter(job.backoff, job.attempts)
  {
    PowersOfTwo(if job.attempts < 10 then job.attempts else 10);
  }

  // ---- Pushing ----

  /** The job that a push of this input creates. */
  predicate Describes(job: Job, id: JobId, queue: string, input: JobInput, now: nat) {
    && job.id == id && job.queue == queue && job.data == input.data && job.priority == input.priority
    && job.createdAt == now && job.runAt == now + Given(input.delay, 0)
    && job.ttl == Given(input.ttl, 0) && job.timeout == Given(input.timeout, 0)
    && job.maxAttempts == Given(input.maxAttempts, 0) && job.backoff == Given(input.backoff, 0)
    && job.attempts == job.startedAt == job.lastHeartbeat == job.stallCount == 0
    && job.stallTimeout == Given(input.stallTimeout, 0)
    && job.uniqueKey == input.uniqueKey && job.customId == input.customId && job.groupId == input.groupId
    && job.dependsOn == (if input.dependsOn.Some? then input.dependsOn.value else [])
    && job.lifo == input.lifo && job.removeOnComplete == input.removeOnComplete
        && job.removeOnFail == input.removeOnFail
    && job.parentId.None? && job.childrenIds == []
  }

  /** Pushed at `now`, a job is ready from the end of its delay on and not before, lapses just after its time
      to live, and once pulled is overdue just after its timeout. */
  lemma CreatedJobBehaves(id: JobId, queue: string, input: JobInput, now: nat, pulled: nat, later: nat)
    ensures var job := CreateJob(id, queue, input, now);
            && Describes(job, id, queue, input, now)
            && (job.IsReady(later) <==> now + Given(input.delay, 0) <= later)
            && (job.IsExpired(later) <==> Given(input.ttl, 0) != 0 && now + Given(input.ttl, 0) < later)
            && (pulled > 0 ==>
                  (Started(job, pulled).IsTimedOut(later)
                   <==> Given(input.timeout, 0) != 0 && pulled + Given(input.timeout, 0) < later))
  {
  }

  /** One letter, digit, `_`, `-` or `.` of a queue name. */
  predicate MayName(c: char) {
    ('a' <= c && c <= 'z') || ('A' <= c && c <= 'Z') || ('0' <= c && c <= '9') || c in {'_', '-', '.'}
  }

  predicate IsQueueName(queue: string) {
    1 <= |queue| && |queue| <= 256 && forall i | 0 <= i < |queue| :: MayName(queue[i])
  }

  /** The push is neither malformed, nor too large, nor too soon after another of its debounce id. */
  predicate Accepts(s: State, queue: string, input: JobInput, now: nat) {
    && IsQueueName(queue) && input.dataSize <= 10 * 1024 * 1024
    && (match input.debounceId
        case None => true
        case Some(d) => (queue, d) !in s.debounce || s.debounce[(queue, d)] <= now)
  }

  /** Its custom id names a live job in sight. */
  predicate Answers(s: State, input: JobInput) {
    match input.customId
    case None => false
    case Some(c) => c in s.customIds && s.customIds[c] in s.jobs && s.customIds[c] !in s.released
                    && s.jobs[s.customIds[c]].place !in {Allocated, InFlight, Leaving, TimedOut, Notifying}
  }

  predicate KeyInUse(s: State, queue: string, input: JobInput) {
    match input.uniqueKey
    case None => false
    case Some(key) => (queue, key) in s.keys
  }

  /** Where a new job goes: it waits as long as one of its dependencies is not completed. */
  ghost predicate Starts(completed: set<JobId>, p: Placed) {
    if forall d | d in p.job.dependsOn :: d in completed then p.place == Queued else p.place == WaitingDeps
  }

  /** The job of this input is stored under the next id, its unique key is taken and its custom id known. */
  ghost predicate StoresJob(s: State, s': State, queue: string, input: JobInput, now: nat) {
    var id := s.nextId;
    && id in s'.jobs && s'.jobs == s.jobs[id := s'.jobs[id]]
    && Describes(s'.jobs[id].job, id, queue, input, now) && Starts(s.completed, s'.jobs[id])
    && (forall k :: k in s'.keys <==> k in s.keys || (k.0 == queue && input.uniqueKey == Some(k.1)))
    && (input.customId.Some? ==> s'.customIds == s.customIds[input.customId.value := id])
  }

  /** What a push does. */
  ghost predicate Pushed(s: State, s': State, queue: string, input: JobInput, now: nat, outcome: PushOutcome) {
    && s' == s.(jobs := s'.jobs, keys := s'.keys, customIds := s'.customIds, debounce := s'.debounce,
                nextId := s'.nextId)
    && (outcome.Rejected? <==> !Accepts(s, queue, input, now) || (!Answers(s, input) && KeyInUse(s, queue, input)))
    && (outcome.Existing? <==> Accepts(s, queue, input, now) && Answers(s, input))
    && (outcome.Existing? ==> outcome.id == s.customIds[input.customId.value])
    && (!outcome.Created? ==> s'.jobs == s.jobs && s'.keys == s.keys)
    && (outcome.Created? ==> outcome.id == s.nextId && StoresJob(s, s', queue, input, now))
    && s'.nextId == s.nextId + (if Accepts(s, queue, input, now) then 1 else 0)
    && (if Accepts(s, queue, input, now) && input.debounceId.Some?
        then s'.debounce == s.debounce[(queue, input.debounceId.value) := now + Given(input.debounceTtl, 5000)]
        else s'.debounce == s.debounce)
    && (outcome.Rejected? && Accepts(s, queue, input, now) && input.customId.Some? ==>
          s'.customIds == s.customIds - {input.customId.value})
    && (outcome.Existing? || !Accepts(s, queue, input, now) || input.customId.None? ==> s'.customIds == s.customIds)
  }

  lemma QueueNamesAgree(queue: string)
    ensures IsQueueName(queue) <==> ValidQueueName(queue)
  {
    assert (forall c | c in queue :: MayName(c)) <==> (forall i | 0 <= i < |queue| :: MayName(queue[i]));
  }

  lemma AcceptsIsConsidered(s: State, queue: string, input: JobInput, now: nat)
    ensures Accepts(s, queue, input, now) <==> Considered(s, queue, input, now)
  {
    QueueNamesAgree(queue);
  }

  lemma AnswersWithExisting(s: State, input: JobInput)
    ensures Answers(s, input) <==> ExistingJob(s, input).Some?
    ensures Answers(s, input) ==> ExistingJob(s, input).value == s.customIds[input.customId.value]
  {
    if input.customId.Some? && input.customId.value in s.customIds {
      var id := s.customIds[input.customId.value];
      if id in s.jobs {
        match s.jobs[id].place
        case Allocated | InFlight | Leaving | TimedOut | Notifying =>
        case WaitingDeps | WaitingChildren | Queued | Processing | Dead =>
      }
    }
  }

  lemma StartsSomewhere(completed: set<JobId>, job: Job)
    ensures Starts(completed, Placed(StartPlace(completed, job), job))
  {
  }

  lemma PushPromise(s: State, queue: string, input: JobInput, now: nat)
    ensures var r := PushNow(s, queue, input, now); Pushed(s, r.state, queue, input, now, r.outcome)
  {
    var noted := NoteDebounce(s, queue, input, now);
    ExistingUnnoted(s, noted, input);
    hide Pushed, Considered, Store, ExistingJob;
    if !Considered(s, queue, input, now) {
      PushRefuses(s, queue, input, now);
    } else if ExistingJob(s, input).Some? {
      PushAnswers(s, queue, input, now);
    } else {
      PushStores(s, queue, input, now);
    }
  }

  lemma PushRefuses(s: State, queue: string, input: JobInput, now: nat)
    requires !Considered(s, queue, input, now)
    ensures Pushed(s, s, queue, input, now, Rejected)
  {
    AcceptsIsConsidered(s, queue, input, now);
    hide Considered, Accepts, Answers, KeyInUse, Describes, Starts;
  }

  lemma PushAnswers(s: State, queue: string, input: JobInput, now: nat)
    requires Considered(s, queue, input, now) && ExistingJob(s, input).Some?
    ensures var noted := NoteDebounce(s, queue, input, now);
            Pushed(s, noted.(nextId := s.nextId + 1), queue, input, now, Existing(ExistingJob(s, input).value))
  {
    AcceptsIsConsidered(s, queue, input, now);
    AnswersWithExisting(s, input);
    hide Considered, Accepts, Answers, KeyInUse, ExistingJob, Describes, Starts;
  }

  lemma PushStores(s: State, queue: string, input: JobInput, now: nat)
    requires Considered(s, queue, input, now) && ExistingJob(s, input).None?
    ensures var r := Store(NoteDebounce(s, queue, input, now), queue, input, s.nextId, now);
            Pushed(s, r.state.(nextId := s.nextId + 1), queue, input, now, r.outcome)
  {
    AcceptsIsConsidered(s, queue, input, now);
    AnswersWithExisting(s, input);
    StorePromise(s, NoteDebounce(s, queue, input, now), queue, input, now);
    hide Considered, Accepts, Answers, KeyInUse, Store, ExistingJob, StoresJob;
  }

  lemma ExistingUnnoted(s: State, noted: State, input: JobInput)
    requires noted == s.(debounce := noted.debounce)
    ensures ExistingJob(noted, input) == ExistingJob(s, input)
  {
  }

  lemma StorePromise(s: State, noted: State, queue: string, input: JobInput, now: nat)
    requires noted == s.(debounce := noted.debounce)
    ensures var r, id := Store(noted, queue, input, s.nextId, now), s.nextId;
            var s' := r.state;
            && s' == s.(jobs := s'.jobs, keys := s'.keys, customIds := s'.customIds, debounce := noted.debounce,
                        nextId := id + 1)
            && (if KeyInUse(s, queue, input) then
                  && r.outcome == Rejected && s'.jobs == s.jobs && s'.keys == s.keys
                  && s'.customIds == (if input.customId.Some? then s.customIds - {input.customId.value}
                                      else s.customIds)
                else
                  && r.outcome == Created(id) && StoresJob(s, s', queue, input, now)
                  && (input.customId.None? ==> s'.customIds == s.customIds))
  {
    var job := CreateJob(s.nextId, queue, input, now);
    CreatedJobBehaves(s.nextId, queue, input, now, 0, 0);
    StartsSomewhere(s.completed, job);
    hide CreateJob, StartPlace, Starts, Describes;
    KeyTaken(s.keys, queue, input.uniqueKey);
    if KeyInUse(s, queue, input) {
    } else {
      var p := Placed(StartPlace(s.completed, job), job);
      assert Store(noted, queue, input, s.nextId, now).state.jobs == s.jobs[s.nextId := p];
    }
  }

  lemma KeyTaken(keys: set<(string, string)>, queue: string, key: Option<string>)
    ensures forall k :: k in (if key.Some? then keys + {(queue, key.value)} else keys)
                        <==> k in keys || (k.0 == queue && key == Some(k.1))
  {
  }

  // ---- Pulling ----

  /** The queue hands out nothing. */
  predicate Bars(s: State, queue: string) {
    queue in s.paused || (queue in s.limiters && s.limiters[queue].current >= s.limiters[queue].limit)
  }

  predicate InBusyGroup(s: State, queue: string, job: Job) {
    job.groupId.Some? && (queue, job.groupId.value) in s.groups
  }

  /** The scan gets as far as place `n`. */
  ghost predicate ReachedAt(s: State, queue: string, order: seq<Job>, now: nat, n: nat) {
    && n <= |order|
    && (forall i | 0 <= i < n :: TooOld(order[i], now) || (order[i].runAt <= now && InBusyGroup(s, queue, order[i])))
    && (n < |order| ==> !TooOld(order[n], now) && (order[n].runAt <= now ==> !InBusyGroup(s, queue, order[n])))
  }

  /** One of the jobs before place `n` that are past their time to live. */
  ghost predicate DroppedBefore(order: seq<Job>, now: nat, n: nat, id: JobId) {
    exists i | 0 <= i < n <= |order| :: order[i].id == id && TooOld(order[i], now)
  }

  /** The dropped jobs are gone, the taken one is in processing, the others are as they were. */
  ghost predicate HeapChanges(s: State, s': State, order: seq<Job>, job: Option<Job>, now: nat, n: nat) {
    && (forall id :: id in s'.jobs <==> id in s.jobs && !DroppedBefore(order, now, n, id))
    && (forall id | id in s'.jobs ::
          s'.jobs[id] == if job.Some? && job.value.id == id then Placed(Processing, job.value) else s.jobs[id])
  }

  /** What one attempt of `pull` does when the heap yields its jobs in this order and the scan stops at
      place `n`. */
  ghost predicate PullDoes(s: State, s': State, queue: string, order: seq<Job>, job: Option<Job>, now: nat, n: nat) {
    if Bars(s, queue) then job.None? && s' == s
    else
      && ReachedAt(s, queue, order, now, n) && HeapChanges(s, s', order, job, now, n)
      && s'.keys == s.keys && s'.completed == s.completed && s'.acked == s.acked && RestStays(s, s')
      && if n < |order| && order[n].runAt <= now then
           && job == Some(order[n].(startedAt := now, lastHeartbeat := now))
               && SlotTaken(s.limiters, s'.limiters, queue)
           && (forall g :: g in s'.groups <==> g in s.groups || (g.0 == queue && order[n].groupId == Some(g.1)))
         else job.None? && s'.limiters == s.limiters && s'.groups == s.groups
  }

  /** `order` are jobs of this queue's heap. */
  ghost predicate InHeap(s: State, queue: string, order: seq<Job>) {
    && (forall k | 0 <= k < |order| ::
          AtIn(s.jobs, order[k].id, Queued, queue) && s.jobs[order[k].id].job == order[k])
    && (forall i, k | 0 <= i < k < |order| :: order[i].id != order[k].id)
  }

  /** A job that was due and alive in the queue, and is handed out now. */
  ghost predicate HandedOut(s: State, s': State, queue: string, job: Job, now: nat) {
    && AtIn(s.jobs, job.id, Queued, queue) && At(s', job.id, Processing) && s'.jobs[job.id].job == job
    && var was := s.jobs[job.id].job;
       && was.runAt <= now && (was.ttl == 0 || now <= was.createdAt + was.ttl)
       && job == was.(startedAt := now, lastHeartbeat := now)
  }

  /** The job at place `k` is alive but not due yet, and all before it are past their time to live or of a
      busy group. */
  ghost predicate BlockedAt(s: State, queue: string, order: seq<Job>, now: nat, k: nat) {
    && k < |order| && order[k].runAt > now && (order[k].ttl == 0 || now <= order[k].createdAt + order[k].ttl)
    && forall i | 0 <= i < k ::
         || (order[i].ttl > 0 && now > order[i].createdAt + order[i].ttl)
         || (order[i].groupId.Some? && (queue, order[i].groupId.value) in s.groups)
  }

  /** What one attempt of `pull` does; and what that means for a job: only one that is due and alive is handed
      out, only those past their time to live are dropped, and one that is not due yet holds up those behind. */
  ghost predicate PullsInTime(s: State, s': State, queue: string, order: seq<Job>, job: Option<Job>, now: nat) {
    && (exists n :: PullDoes(s, s', queue, order, job, now, n))
    && (job.Some? ==> HandedOut(s, s', queue, job.value, now))
    && (forall id | id in s.jobs && id !in s'.jobs ::
          && AtIn(s.jobs, id, Queued, queue)
          && s.jobs[id].job.ttl > 0 && now > s.jobs[id].job.createdAt + s.jobs[id].job.ttl)
    && ((exists k :: BlockedAt(s, queue, order, now, k)) ==> job.None?)
  }

  lemma PullFacts(s: State, s': State, queue: string, order: seq<Job>, job: Option<Job>, now: nat, n: nat)
    requires PullDoes(s, s', queue, order, job, now, n) && InHeap(s, queue, order)
    ensures PullsInTime(s, s', queue, order, job, now)
  {
    hide RestStays, SlotTaken;
    if !Bars(s, queue) {
      forall id | id in s.jobs && id !in s'.jobs
        ensures AtIn(s.jobs, id, Queued, queue)
                && s.jobs[id].job.ttl > 0 && now > s.jobs[id].job.createdAt + s.jobs[id].job.ttl
      {
        var i :| 0 <= i < n <= |order| && order[i].id == id && TooOld(order[i], now);
      }
      if job.Some? {
        forall i | 0 <= i < n
          ensures order[i].id != order[n].id
        {
        }
        forall k: nat
          ensures !BlockedAt(s, queue, order, now, k)
        {
        }
      }
    }
  }

  lemma PullPromise(s: State, queue: string, view: QueueView, now: nat)
    requires InHeap(s, queue, view.order)
    requires view.paused == (queue in s.paused) && view.active == ActiveIn(s.groups, queue)
    requires view.limiter == if queue in s.limiters then Some(s.limiters[queue]) else None
    ensures var jobs, s' := PullOnce(view, now).jobs, Run(s, PullSteps(view, now));
            |jobs| <= 1 && PullsInTime(s, s', queue, view.order, if jobs == [] then None else Some(jobs[0]), now)
  {
    var job, n, s' := Scan(view.order, view.active, now).found, 0, Run(s, PullSteps(view, now));
    hide Run, ScanSteps, Scan, PullDoes, PullsInTime, InHeap, ActiveIn;
    if Bars(s, queue) {
      RunNone(s);
      PullBarred(s, queue, view.order, now);
      job := None;
    } else {
      n := ScanRuns(s, queue, view.order, now);
    }
    PullFacts(s, s', queue, view.order, job, now, n);
  }

  lemma PullBarred(s: State, queue: string, order: seq<Job>, now: nat)
    requires Bars(s, queue)
    ensures PullDoes(s, s, queue, order, None, now, 0)
  {
  }

  lemma {:induction false} ScanRuns(s: State, queue: string, order: seq<Job>, now: nat) returns (n: nat)
    requires !Bars(s, queue) && InHeap(s, queue, order)
    ensures var active := ActiveIn(s.groups, queue);
            PullDoes(s, Run(s, ScanSteps(order, active, now)), queue, order, Scan(order, active, now).found, now, n)
    decreases |order|
  {
    hide Run, PullDoes, InHeap, ActiveIn, Bars;
    var active := ActiveIn(s.groups, queue);
    RunNone(s);
    if order == [] {
      n := 0;
      PullNothing(s, queue, order, now);
      return;
    }
    var head, rest := order[0], order[1..];
    HeapTail(s, queue, order);
    BusyIs(s, queue, head);
    if head.IsExpired(now) {
      var s1 := Run(s, [On(head.id, Expire(now))]);
      ExpireStep(s, queue, order, now);
      var m := ScanRuns(s1, queue, rest, now);
      n := m + 1;
      RunAppend(s, [On(head.id, Expire(now))], ScanSteps(rest, active, now));
      PastDropped(s, s1, Run(s1, ScanSteps(rest, active, now)), queue, order, Scan(rest, active, now).found, now, m);
    } else if !head.IsReady(now) {
      n := 0;
      PullNothing(s, queue, order, now);
    } else if Busy(head, active) {
      var m := ScanRuns(s, queue, rest, now);
      n := m + 1;
      PastBusy(s, Run(s, ScanSteps(rest, active, now)), queue, order, Scan(rest, active, now).found, now, m);
    } else {
      n := 0;
      TakeStep(s, queue, order, now);
    }
  }

  lemma PullNothing(s: State, queue: string, order: seq<Job>, now: nat)
    requires !Bars(s, queue)
    requires order == [] || (!order[0].IsExpired(now) && !order[0].IsReady(now))
    ensures PullDoes(s, s, queue, order, None, now, 0)
  {
  }

  lemma HeapTail(s: State, queue: string, order: seq<Job>)
    requires InHeap(s, queue, order) && order != []
    ensures InHeap(s, queue, order[1..])
    ensures AtIn(s.jobs, order[0].id, Queued, queue) && s.jobs[order[0].id].job == order[0]
    ensures forall k | 0 <= k < |order[1..]| :: order[1..][k].id != order[0].id
  {
    assert forall k | 0 <= k < |order[1..]| :: order[1..][k] == order[k + 1];
  }

  lemma BusyIs(s: State, queue: string, job: Job)
    ensures Busy(job, ActiveIn(s.groups, queue)) <==> InBusyGroup(s, queue, job)
  {
    assert forall g | g in s.groups && g.0 == queue :: g.1 in ActiveIn(s.groups, queue);
  }

  lemma ExpireStep(s: State, queue: string, order: seq<Job>, now: nat)
    requires InHeap(s, queue, order) && order != [] && order[0].IsExpired(now)
    ensures var s1 := Run(s, [On(order[0].id, Expire(now))]);
            && s1 == s.(jobs := s.jobs - {order[0].id}, released := s1.released) && InHeap(s1, queue, order[1..])
            && (Bars(s1, queue) <==> Bars(s, queue))
  {
    HeapTail(s, queue, order);
    ExpireMeans(s, order[0].id, now);
    hide Run;
  }

  lemma PastDropped(s: State, s1: State, s': State, queue: string, order: seq<Job>, job: Option<Job>, now: nat, m: nat)
    requires !Bars(s, queue) && !Bars(s1, queue) && order != [] && order[0].IsExpired(now) && InHeap(s, queue, order)
    requires s1 == s.(jobs := s.jobs - {order[0].id}, released := s1.released)
    requires PullDoes(s1, s', queue, order[1..], job, now, m)
    ensures PullDoes(s, s', queue, order, job, now, m + 1)
  {
    hide Bars, SlotTaken;
    assert TooOld(order[0], now);
    assert ReachedAt(s, queue, order[1..], now, m);
    ReachedLater(s, queue, order, now, m);
    DropsLater(order, now, m);
    hide DroppedBefore, ReachedAt, TooOld;
  }

  lemma ReachedLater(s: State, queue: string, order: seq<Job>, now: nat, m: nat)
    requires order != [] && (TooOld(order[0], now) || (order[0].runAt <= now && InBusyGroup(s, queue, order[0])))
    ensures ReachedAt(s, queue, order[1..], now, m) ==> ReachedAt(s, queue, order, now, m + 1)
    ensures m < |order| - 1 ==> order[1..][m] == order[m + 1]
  {
    hide TooOld, InBusyGroup;
    assert forall i | 1 <= i < |order| :: order[i] == order[1..][i - 1];
  }

  lemma DropsLater(order: seq<Job>, now: nat, m: nat)
    requires order != [] && m < |order|
    ensures forall id :: DroppedBefore(order, now, m + 1, id)
                         <==> (order[0].id == id && TooOld(order[0], now)) || DroppedBefore(order[1..], now, m, id)
  {
    hide TooOld;
    forall id
      ensures DroppedBefore(order, now, m + 1, id)
              <==> (order[0].id == id && TooOld(order[0], now)) || DroppedBefore(order[1..], now, m, id)
    {
      if i :| 0 <= i < m <= |order[1..]| && order[1..][i].id == id && TooOld(order[1..][i], now) {
        assert order[i + 1].id == id && TooOld(order[i + 1], now);
      }
      if i :| 0 < i < m + 1 <= |order| && order[i].id == id && TooOld(order[i], now) {
        assert order[1..][i - 1].id == id && TooOld(order[1..][i - 1], now);
      }
    }
  }

  lemma PastBusy(s: State, s': State, queue: string, order: seq<Job>, job: Option<Job>, now: nat, m: nat)
    requires !Bars(s, queue) && order != [] && InHeap(s, queue, order)
    requires !order[0].IsExpired(now) && order[0].IsReady(now) && InBusyGroup(s, queue, order[0])
    requires PullDoes(s, s', queue, order[1..], job, now, m)
    ensures PullDoes(s, s', queue, order, job, now, m + 1)
  {
    hide Bars, RestStays, SlotTaken;
    assert !TooOld(order[0], now);
    ReachedLater(s, queue, order, now, m);
    DropsLater(order, now, m);
    hide DroppedBefore, ReachedAt, TooOld;
  }

  lemma TakeStep(s: State, queue: string, order: seq<Job>, now: nat)
    requires !Bars(s, queue) && InHeap(s, queue, order) && order != []
    requires !order[0].IsExpired(now) && order[0].IsReady(now) && !InBusyGroup(s, queue, order[0])
    ensures PullDoes(s, Run(s, [On(order[0].id, Take(now)), On(order[0].id, Enter)]), queue, order,
                     Some(Started(order[0], now)), now, 0)
  {
    HeapTail(s, queue, order);
    TakeMeans(s, order[0].id, now);
    TakenSlot(s.limiters, queue);
    hide Run, SlotTaken;
  }

  lemma TakenSlot(limiters: map<string, Limiter>, queue: string)
    ensures SlotTaken(limiters, if queue in limiters then limiters[queue := limiters[queue].Acquire()]
                      else limiters, queue)
  {
  }

  // ---- Leaving a worker's hands ----

  lemma SlotIsBack(limiters: map<string, Limiter>, queue: string)
    ensures SlotBack(limiters, ReleaseConcurrency(limiters, queue), queue)
  {
  }

  lemma GroupIsBack(groups: set<(string, string)>, queue: string, job: Job)
    ensures GroupBack(groups, ReleaseGroup(groups, queue, job.groupId), queue, job)
  {
  }

  lemma KeyIsBack(keys: set<(string, string)>, queue: string, job: Job)
    ensures KeyBack(keys, RemoveUniqueKey(keys, queue, job.uniqueKey), queue, job)
  {
  }

  /** Where one effect leaves its job, and what it leaves alone. */
  lemma EffectDoes(s: State, id: JobId, e: Effect)
    requires id in s.jobs
    ensures var s' := Apply(s, id, e);
            && OthersStay(s, s', id) && RestStays(s, s') && (e.after.None? ==> id !in s'.jobs)
            && (e.after.Some? ==> id in s'.jobs && s'.jobs[id] == e.after.value)
            && s'.acked == if e.acks then s.acked + {id} else s.acked
  {
    hide LimitersAfter, GroupsAfter, KeysAfter;
  }

  /** One failure more: back into the queue after a delay that doubles up to the tenth failure, or, after the
      last attempt, among the dead letters. */
  ghost predicate RetriesOrBuries(job: Job, s': State, id: JobId, now: nat) {
    var n := job.attempts + 1;
    if job.maxAttempts == 0 || n < job.maxAttempts then
      At(s', id, Queued)
      && s'.jobs[id].job == job.(attempts := n, startedAt := 0,
                                 runAt := if job.backoff == 0 then job.runAt else now + DelayAfter(job.backoff, n))
    else At(s', id, Dead) && s'.jobs[id].job == job.(attempts := n)
  }

  lemma FailedJob(job: Job, now: nat)
    ensures var failed, n := Failed(job), job.attempts + 1;
            && (failed.ShouldGoToDlq() <==> !(job.maxAttempts == 0 || n < job.maxAttempts))
            && failed == job.(attempts := n)
            && Retried(failed, now)
               == job.(attempts := n, startedAt := 0,
                       runAt := if job.backoff == 0 then job.runAt else now + DelayAfter(job.backoff, n))
  {
    var n := job.attempts + 1;
    DelayIsBackoff(Failed(job));
    DelaysBounded(job.backoff, n);
  }

  /** A delay is at least twice and at most 1024 times the backoff, and the next is no shorter. */
  lemma DelaysBounded(backoff: nat, n: nat)
    requires n >= 1
    ensures 2 * backoff <= DelayAfter(backoff, n) <= DelayAfter(backoff, n + 1) <= 1024 * backoff
    ensures DelayAfter(backoff, n) == backoff * PowerOfTwo(Min(n, 10))
  {
    PowersOfTwo(if n < 10 then n else 10);
  }

  ghost predicate FailDoes(s: State, s': State, id: JobId, now: nat)
    requires id in s.jobs
  {
    var job := s.jobs[id].job;
    && OthersStay(s, s', id) && RestStays(s, s')
    && s'.keys == s.keys && s'.completed == s.completed && s'.acked == s.acked
    && SlotBack(s.limiters, s'.limiters, job.queue) && GroupBack(s.groups, s'.groups, job.queue, job)
    && if job.maxAttempts != 0 && job.attempts + 1 >= job.maxAttempts && job.removeOnFail then id !in s'.jobs
       else RetriesOrBuries(job, s', id, now)
  }

  lemma FailRuns(s: State, id: JobId, now: nat)
    requires Active(s, id)
    ensures var e := LeavingEffect(s.jobs[id].job, Action.Fail(now));
            var s' := Run(s, LeaveBy(id, Action.Fail(now)));
            && s' == Apply(s, id, e) && OthersStay(s, s', id) && RestStays(s, s') && s'.acked == s.acked
            && (e.after.None? ==> id !in s'.jobs) && (e.after.Some? ==> id in s'.jobs && s'.jobs[id] == e.after.value)
  {
    var e := LeavingEffect(s.jobs[id].job, Action.Fail(now));
    LeaveThen(s, id, Action.Fail(now));
    assert !e.acks;
    hide *;
    EffectDoes(s, id, e);
  }

  lemma FailPromise(s: State, id: JobId, now: nat)
    requires Active(s, id)
    ensures FailDoes(s, Run(s, LeaveBy(id, Action.Fail(now))), id, now)
  {
    var job := s.jobs[id].job;
    FailRuns(s, id, now);
    FailedJob(job, now);
    SlotIsBack(s.limiters, job.queue);
    GroupIsBack(s.groups, job.queue, job);
    hide Run, LeaveBy, Apply, LeavingEffect, Retried, Failed, Job.ShouldGoToDlq, DelayAfter, SlotBack, GroupBack,
         OthersStay, RestStays, ReleaseConcurrency, ReleaseGroup;
    if !Failed(job).ShouldGoToDlq() {
      FailRetries(s, id, now);
    } else if job.removeOnFail {
      FailVanishes(s, id, now);
    } else {
      FailBuries(s, id, now);
    }
  }

  /** A timed-out job is retried or buried; its group stays taken. */
  ghost predicate TimeOutDoes(s: State, s': State, id: JobId, now: nat)
    requires id in s.jobs
  {
    var job := s.jobs[id].job;
    && OthersStay(s, s', id) && RestStays(s, s')
    && s'.keys == s.keys && s'.completed == s.completed && s'.acked == s.acked && s'.groups == s.groups
    && SlotBack(s.limiters, s'.limiters, job.queue) && RetriesOrBuries(job, s', id, now)
  }

  lemma TimeOutPromise(s: State, id: JobId, now: nat)
    requires Active(s, id)
    ensures TimeOutDoes(s, Run(s, TimingOut(id, now)), id, now)
  {
    var job, e := s.jobs[id].job, TimeOutEffect(s.jobs[id].job, now);
    TimeOutRuns(s, id, now);
    TimeOutMeans(s, id, now);
    EffectDoes(s, id, e);
    FailedJob(job, now);
    SlotIsBack(s.limiters, job.queue);
    assert !e.acks;
    hide Run, TimingOut, Apply, TimeOutEffect, Retried, Failed, Job.ShouldGoToDlq, DelayAfter, SlotBack,
         OthersStay, RestStays, ReleaseConcurrency;
  }

  ghost predicate DelayDoes(s: State, s': State, id: JobId, delay: nat, now: nat)
    requires id in s.jobs
  {
    var job := s.jobs[id].job;
    && OthersStay(s, s', id) && RestStays(s, s')
    && s'.keys == s.keys && s'.completed == s.completed && s'.acked == s.acked && s'.groups == s.groups
    && SlotBack(s.limiters, s'.limiters, job.queue)
    && At(s', id, Queued) && s'.jobs[id].job == job.(runAt := now + delay, startedAt := 0)
  }

  lemma DelayPromise(s: State, id: JobId, delay: nat, now: nat)
    requires Active(s, id)
    ensures DelayDoes(s, Run(s, LeaveBy(id, Delay(delay, now))), id, delay, now)
  {
    var job, e := s.jobs[id].job, LeavingEffect(s.jobs[id].job, Delay(delay, now));
    LeaveThen(s, id, Delay(delay, now));
    EffectDoes(s, id, e);
    DelayMeans(s, id, delay, now);
    SlotIsBack(s.limiters, job.queue);
    assert !e.acks;
    hide Run, LeaveBy, Apply, LeavingEffect, SlotBack, OthersStay, RestStays, ReleaseConcurrency;
  }

  /** Discarded out of a worker's hands or out of the queue. */
  ghost predicate DiscardDoes(s: State, s': State, id: JobId)
    requires id in s.jobs
  {
    var job := s.jobs[id].job;
    && OthersStay(s, s', id) && RestStays(s, s')
    && s'.keys == s.keys && s'.completed == s.completed && s'.acked == s.acked && s'.groups == s.groups
    && (if s.jobs[id].place == Processing then SlotBack(s.limiters, s'.limiters, job.queue)
        else s'.limiters == s.limiters)
    && At(s', id, Dead) && s'.jobs[id].job == job
  }

  lemma DiscardActivePromise(s: State, id: JobId)
    requires Active(s, id)
    ensures DiscardDoes(s, Run(s, LeaveBy(id, DiscardActive)), id)
  {
    var job, e := s.jobs[id].job, LeavingEffect(s.jobs[id].job, DiscardActive);
    LeaveThen(s, id, DiscardActive);
    EffectDoes(s, id, e);
    DiscardActiveMeans(s, id);
    SlotIsBack(s.limiters, job.queue);
    assert !e.acks;
    hide Run, LeaveBy, Apply, LeavingEffect, SlotBack, OthersStay, RestStays, ReleaseConcurrency;
  }

  lemma DiscardQueuedPromise(s: State, id: JobId)
    requires Retrievable(s, id) && s.jobs[id].place == Queued && s.jobs[id].job.id == id
    ensures DiscardDoes(s, Run(s, [On(id, DiscardQueued)]), id)
  {
    var e := DiscardQueuedMeans(s, id);
    hide Run, Apply, SlotBack, OthersStay, RestStays, Retrievable;
    EffectDoes(s, id, e);
  }

  /** Cancelled where it is: a worker's slot is given back, and the key of a job that a worker has or that is
      queued; not the group. */
  ghost predicate CancelDoes(s: State, s': State, id: JobId)
    requires id in s.jobs
  {
    var job, place := s.jobs[id].job, s.jobs[id].place;
    && OthersStay(s, s', id) && RestStays(s, s') && id !in s'.jobs
    && s'.completed == s.completed && s'.acked == s.acked && s'.groups == s.groups
    && (if place == Processing then SlotBack(s.limiters, s'.limiters, job.queue) else s'.limiters == s.limiters)
    && (if place == Processing || place == Queued then KeyBack(s.keys, s'.keys, job.queue, job) else s'.keys == s.keys)
  }

  lemma CancelActivePromise(s: State, id: JobId)
    requires Active(s, id)
    ensures CancelDoes(s, Run(s, LeaveBy(id, CancelActive)), id)
  {
    var job, e := s.jobs[id].job, LeavingEffect(s.jobs[id].job, CancelActive);
    KeyIsBack(s.keys, job.queue, job);
    LeaveThen(s, id, CancelActive);
    EffectDoes(s, id, e);
    CancelActiveMeans(s, id);
    SlotIsBack(s.limiters, job.queue);
    assert !e.acks;
    hide Run, LeaveBy, Apply, LeavingEffect, SlotBack, KeyBack, OthersStay, RestStays, ReleaseConcurrency,
         RemoveUniqueKey;
  }

  lemma CancelWaitingPromise(s: State, id: JobId)
    requires Retrievable(s, id) && s.jobs[id].place in {Queued, WaitingDeps, WaitingChildren}
    ensures CancelDoes(s, Run(s, [On(id, CancelWaiting)]), id)
  {
    KeyIsBack(s.keys, s.jobs[id].job.queue, s.jobs[id].job);
    var e := CancelWaitingMeans(s, id);
    hide Run, Apply, SlotBack, KeyBack, OthersStay, RestStays, RemoveUniqueKey, Retrievable;
    EffectDoes(s, id, e);
  }

  // ---- Acknowledgment ----

  /** What is given back when a job completes goes to `queue`. */
  ghost predicate CompleteDoes(s: State, s': State, id: JobId, queue: string)
    requires id in s.jobs
  {
    var job := s.jobs[id].job;
    && OthersStay(s, s', id) && RestStays(s, s') && id !in s'.jobs
    && SlotBack(s.limiters, s'.limiters, queue) && GroupBack(s.groups, s'.groups, queue, job)
    && KeyBack(s.keys, s'.keys, queue, job)
    && s'.acked == s.acked + {id} && s'.completed == s.completed + if job.removeOnComplete then {} else {id}
  }

  lemma CompletePromise(s: State, id: JobId, queue: string)
    requires Active(s, id)
    ensures CompleteDoes(s, Apply(s, id, LeavingEffect(s.jobs[id].job, BatchAck(queue))), id, queue)
  {
    var job, e := s.jobs[id].job, LeavingEffect(s.jobs[id].job, BatchAck(queue));
    EffectDoes(s, id, e);
    BatchAckMeans(s, id, queue);
    SlotIsBack(s.limiters, queue);
    GroupIsBack(s.groups, queue, job);
    KeyIsBack(s.keys, queue, job);
    assert e.acks;
    hide Apply, LeavingEffect, SlotBack, GroupBack, KeyBack, OthersStay, RestStays, ReleaseConcurrency, ReleaseGroup,
         RemoveUniqueKey;
  }

  /** A waiting parent has one child more completed, and is queued when that was the last. */
  ghost predicate Counts(before: Placed, after: Placed) {
    var n := before.job.childrenCompleted + 1;
    after == Placed(if n >= |before.job.childrenIds| then Queued else WaitingChildren,
                    before.job.(childrenCompleted := n))
  }

  ghost predicate CountDoes(s: State, s': State, p: JobId) {
    if At(s, p, WaitingChildren) then
      OthersStay(s, s', p) && s' == s.(jobs := s'.jobs, released := s'.released)
      && p in s'.jobs && Counts(s.jobs[p], s'.jobs[p])
    else s' == s
  }

  lemma CountPromise(s: State, p: JobId)
    ensures CountDoes(s, CountChild(s, p), p)
  {
    if At(s, p, WaitingChildren) {
      EffectDoes(s, p, CountEffect(s.jobs[p].job));
    }
  }

  /** `ack`: the job is done with, and a parent that waits for it is told. */
  ghost predicate AckDoes(s: State, s': State, id: JobId)
    requires id in s.jobs
  {
    exists mid :: CompleteDoes(s, mid, id, s.jobs[id].job.queue)
                  && if s.jobs[id].job.parentId.Some? then CountDoes(mid, s', s.jobs[id].job.parentId.value)
                     else s' == mid
  }

  lemma AckPromise(s: State, id: JobId)
    requires Active(s, id)
    ensures AckDoes(s, Run(s, Acking(id)), id)
  {
    var job := s.jobs[id].job;
    var mid := Apply(s, id, LeavingEffect(job, BatchAck(job.queue)));
    AckMeans(s, id);
    CompletePromise(s, id, job.queue);
    hide Run, Acking, Apply, LeavingEffect, CompleteDoes, CountDoes, CountChild;
    if job.parentId.Some? {
      CountPromise(mid, job.parentId.value);
    }
  }

  /** `ack_batch` so far: of these ids, the jobs in processing are done with; no parent is told. */
  ghost predicate BatchAckDoes(s: State, s': State, ids: seq<JobId>) {
    && RestStays(s, s')
    && (forall k :: k in s'.jobs <==> k in s.jobs && !(k in ids && s.jobs[k].place == Processing))
    && (forall k | k in s'.jobs :: s'.jobs[k] == s.jobs[k])
    && (forall k :: k in s'.acked <==> k in s.acked || (k in ids && At(s, k, Processing)))
    && (forall k :: k in s'.completed
                    <==> k in s.completed || (k in ids && At(s, k, Processing) && !s.jobs[k].job.removeOnComplete))
  }

  lemma BatchAckStep(s: State, mid: State, s': State, ids: seq<JobId>, id: JobId)
    requires BatchAckDoes(s, mid, ids)
    requires if At(mid, id, Processing) then exists queue :: CompleteDoes(mid, s', id, queue) else s' == mid
    ensures BatchAckDoes(s, s', ids + [id])
  {
    hide SlotBack, GroupBack, KeyBack;
    assert forall k :: k in ids + [id] <==> k in ids || k == id;
  }

  // ---- Changes where a job is ----

  /** Changed where it is: its priority, its data, or its run time brought forward to now. */
  ghost predicate AmendDoes(s: State, s': State, id: JobId, action: Action)
    requires id in s.jobs && Amends(action)
  {
    var job := s.jobs[id].job;
    && s' == s.(jobs := s'.jobs, released := s'.released) && OthersStay(s, s', id) && At(s', id, s.jobs[id].place)
    && s'.jobs[id].job == match action
                          case ChangePriority(priority) => job.(priority := priority)
                          case UpdateData(data) => job.(data := data)
                          case Promote(now) => job.(runAt := now)
  }

  lemma AmendPromise(s: State, id: JobId, action: Action)
    requires Amends(action) && CanAmend(s, id, action) && s.jobs[id].job.id == id
    ensures AmendDoes(s, Run(s, [On(id, action)]), id, action)
  {
    var e := AmendMeans(s, id, action);
    EffectDoes(s, id, e);
    var s' := Apply(s, id, e);
    AmendLeaves(s, id, action);
    hide Run, Apply;
  }

  lemma AmendLeaves(s: State, id: JobId, action: Action)
    requires Amends(action) && CanAmend(s, id, action)
    ensures var s' := Run(s, [On(id, action)]);
            s' == s.(jobs := s'.jobs, released := s'.released)
  {
    RunOne(s, On(id, action));
    hide Run;
  }

  ghost predicate HeartbeatDoes(s: State, s': State, id: JobId, now: nat)
    requires id in s.jobs
  {
    && s' == s.(jobs := s'.jobs, stalled := s.stalled - {id}, released := s'.released) && OthersStay(s, s', id)
    && At(s', id, Processing) && s'.jobs[id].job == s.jobs[id].job.(lastHeartbeat := now)
  }

  lemma HeartbeatPromise(s: State, id: JobId, now: nat)
    requires Active(s, id)
    ensures HeartbeatDoes(s, Run(s, Beating(id, now)), id, now)
  {
    HeartbeatRuns(s, id, now);
    hide Run, Beating;
  }

  // ---- Sweeps ----

  /** What a sweep does with each job it handles. */
  datatype Treatment =
    | AsOverrun(now: nat)
    | AsSilent(now: nat)
    | AsUnblocked
    | AsRevived(now: nat)
    | AsDropped          // taken out of its queue, the unique key given back
    | AsPurged           // taken out of the dead letters

  ghost predicate Treated(h: Treatment, s: State, s': State, id: JobId)
    requires id in s.jobs
  {
    var job := s.jobs[id].job;
    match h
    case AsOverrun(now) => RetriesOrBuries(job, s', id, now)
    case AsSilent(now) =>
      var count := (if id in s.stalled then s.stalled[id] else 0) + 1;
      && id in s'.stalled && s'.stalled[id] == count && id in s'.jobs
      && s'.jobs[id] == if count >= 3 then Placed(Dead, job)
                        else Placed(Processing, job.(lastHeartbeat := now, stallCount := job.stallCount + 1))
    case AsUnblocked => At(s', id, Queued) && s'.jobs[id].job == job
    case AsRevived(now) => At(s', id, Queued) && s'.jobs[id].job == job.(attempts := 0, runAt := now)
    case AsDropped => id !in s'.jobs
    case AsPurged => id !in s'.jobs
  }

  /** The key goes with one of these jobs. */
  ghost predicate KeyGoes(s: State, ids: seq<JobId>, key: (string, string)) {
    exists id | id in ids && id in s.jobs ::
      s.jobs[id].job.uniqueKey == Some(key.1) && s.jobs[id].job.queue == key.0
  }

  /** No other job is touched. */
  ghost predicate RestUntouched(s: State, s': State, ids: seq<JobId>) {
    forall k | k !in ids ::
      && (k in s.jobs <==> k in s'.jobs) && (k in s.jobs ==> s'.jobs[k] == s.jobs[k])
      && (k in s.stalled <==> k in s'.stalled) && (k in s.stalled ==> s'.stalled[k] == s.stalled[k])
  }

  /** Each of these jobs was handled, and no other touched. */
  ghost predicate SweepDoes(h: Treatment, s: State, s': State, ids: seq<JobId>) {
    && RestUntouched(s, s', ids) && AllTreated(h, s, s', ids)
    && RestStays(s, s') && s'.groups == s.groups && s'.completed == s.completed && s'.acked == s.acked
    && (!h.AsOverrun? ==> s'.limiters == s.limiters)
    && KeysLeft(h, s, s', ids)
  }

  ghost predicate AllTreated(h: Treatment, s: State, s': State, ids: seq<JobId>) {
    forall id | id in ids :: id in s.jobs && Treated(h, s, s', id)
  }

  ghost predicate KeysLeft(h: Treatment, s: State, s': State, ids: seq<JobId>) {
    forall key :: key in s'.keys <==> key in s.keys && !(h.AsDropped? && KeyGoes(s, ids, key))
  }

  lemma SweepNone(h: Treatment, s: State)
    ensures SweepDoes(h, s, s, [])
  {
  }

  lemma SweepStep(h: Treatment, s: State, mid: State, s': State, ids: seq<JobId>, id: JobId)
    requires SweepDoes(h, s, mid, ids) && id !in ids && SweepDoes(h, mid, s', [id])
    ensures SweepDoes(h, s, s', ids + [id])
  {
    hide Treated, KeyGoes, RestUntouched, KeysLeft, AllTreated;
    TreatedStep(h, s, mid, s', ids, id);
    UntouchedStep(s, mid, s', ids, id);
    KeysStep(h, s, mid, s', ids, id);
  }

  lemma KeysStep(h: Treatment, s: State, mid: State, s': State, ids: seq<JobId>, id: JobId)
    requires RestUntouched(s, mid, ids) && KeysLeft(h, s, mid, ids) && KeysLeft(h, mid, s', [id])
    requires id !in ids && id in s.jobs
    ensures KeysLeft(h, s, s', ids + [id])
  {
    KeysGo(s, mid, ids, id);
    hide KeyGoes;
  }

  lemma UntouchedStep(s: State, mid: State, s': State, ids: seq<JobId>, id: JobId)
    requires RestUntouched(s, mid, ids) && RestUntouched(mid, s', [id])
    ensures RestUntouched(s, s', ids + [id])
  {
  }

  lemma TreatedStep(h: Treatment, s: State, mid: State, s': State, ids: seq<JobId>, id: JobId)
    requires RestUntouched(s, mid, ids) && RestUntouched(mid, s', [id]) && id !in ids
    requires AllTreated(h, s, mid, ids) && AllTreated(h, mid, s', [id])
    ensures id in s.jobs && AllTreated(h, s, s', ids + [id])
  {
    assert id in [id];
    forall k | k in ids + [id]
      ensures k in s.jobs && Treated(h, s, s', k)
    {
      if k in ids {
        StaysTreated(h, s, mid, s', id, k);
      } else {
        WasUntouched(h, s, mid, s', k);
      }
      hide Treated;
    }
  }

  lemma StaysTreated(h: Treatment, s: State, mid: State, s': State, id: JobId, k: JobId)
    requires RestUntouched(mid, s', [id]) && k != id && k in s.jobs && Treated(h, s, mid, k)
    ensures Treated(h, s, s', k)
  {
    hide DelayAfter;
    assert k !in [id];
  }

  lemma WasUntouched(h: Treatment, s: State, mid: State, s': State, id: JobId)
    requires id in s.jobs && id in mid.jobs && mid.jobs[id] == s.jobs[id] && Treated(h, mid, s', id)
    requires (id in s.stalled <==> id in mid.stalled) && (id in s.stalled ==> s.stalled[id] == mid.stalled[id])
    ensures Treated(h, s, s', id)
  {
    hide DelayAfter;
  }

  lemma KeysGo(s: State, mid: State, ids: seq<JobId>, id: JobId)
    requires id in s.jobs && id in mid.jobs && mid.jobs[id] == s.jobs[id]
    ensures forall key :: KeyGoes(s, ids + [id], key) <==> KeyGoes(s, ids, key) || KeyGoes(mid, [id], key)
  {
    assert forall k :: k in ids + [id] <==> k in ids || k == id;
    forall key
      ensures KeyGoes(s, ids + [id], key) <==> KeyGoes(s, ids, key) || KeyGoes(mid, [id], key)
    {
      if KeyGoes(mid, [id], key) {
        assert id in ids + [id];
      }
      if k :| k in ids && k in s.jobs && s.jobs[k].job.uniqueKey == Some(key.1) && s.jobs[k].job.queue == key.0 {
        assert k in ids + [id];
      }
      if k :| k in ids + [id] && k in s.jobs && s.jobs[k].job.uniqueKey == Some(key.1) && s.jobs[k].job.queue == key.0 {
        assert k in ids || k in [id];
      }
    }
  }

  /** One job handled. */
  lemma SweepOneDoes(h: Treatment, s: State, s': State, id: JobId)
    requires id in s.jobs && OthersStay(s, s', id) && RestStays(s, s') && Treated(h, s, s', id)
    requires s'.groups == s.groups && s'.completed == s.completed && s'.acked == s.acked
    requires !h.AsOverrun? ==> s'.limiters == s.limiters
    requires forall k | k != id :: (k in s.stalled <==> k in s'.stalled)
                                   && (k in s.stalled ==> s'.stalled[k] == s.stalled[k])
    requires if h.AsDropped? then KeyBack(s.keys, s'.keys, s.jobs[id].job.queue, s.jobs[id].job) else s'.keys == s.keys
    ensures SweepDoes(h, s, s', [id])
  {
    hide Treated;
    assert id in [id];
    assert forall key :: KeyGoes(s, [id], key)
                         <==> s.jobs[id].job.uniqueKey == Some(key.1) && s.jobs[id].job.queue == key.0;
  }

  lemma OverrunSweeps(s: State, id: JobId, now: nat)
    requires Active(s, id)
    ensures var s' := Run(s, TimingOut(id, now)); TimeOutDoes(s, s', id, now) && SweepDoes(AsOverrun(now), s, s', [id])
  {
    TimeOutPromise(s, id, now);
    TimeOutRuns(s, id, now);
    TimeOutMeans(s, id, now);
    var s' := Run(s, TimingOut(id, now));
    hide Run, TimingOut, Apply, TimeOutEffect, RetriesOrBuries, ReleaseConcurrency, OthersStay, RestStays;
    SweepOneDoes(AsOverrun(now), s, s', id);
  }

  lemma SilentSweeps(s: State, id: JobId, now: nat)
    requires Active(s, id) && IsStalled(s.jobs[id].job, now)
    ensures SweepDoes(AsSilent(now), s, Run(s, Stalling(id, now)), [id])
  {
    StallRuns(s, id, now);
    StallMeans(s, id, now);
    var e := StallEffect(s.jobs[id].job, StallCount(s, id) + 1, now);
    EffectDoes(s, id, e);
    var s' := Run(s, Stalling(id, now));
    hide Run, Stalling, Apply, OthersStay, RestStays;
    SweepOneDoes(AsSilent(now), s, s', id);
  }

  lemma UnblockedSweeps(s: State, id: JobId)
    requires At(s, id, WaitingDeps) && forall d | d in s.jobs[id].job.dependsOn :: d in s.completed
    ensures SweepDoes(AsUnblocked, s, Run(s, StepsOf(EachBy(ReleaseDeps), id)), [id])
  {
    RunOne(s, On(id, ReleaseDeps));
    var e := ReleaseDepsMeans(s, id);
    EffectDoes(s, id, e);
    var s' := Apply(s, id, e);
    hide Run, Apply, OthersStay, RestStays, DepsPending;
    SweepOneDoes(AsUnblocked, s, s', id);
  }

  lemma RevivedSweeps(s: State, id: JobId, now: nat)
    requires At(s, id, Dead) && s.jobs[id].job.id == id
    ensures SweepDoes(AsRevived(now), s, Run(s, StepsOf(EachBy(RetryDead(now)), id)), [id])
  {
    RunOne(s, On(id, RetryDead(now)));
    var e := RetryDeadMeans(s, id, now);
    EffectDoes(s, id, e);
    var s' := Apply(s, id, e);
    hide Run, Apply, OthersStay, RestStays;
    SweepOneDoes(AsRevived(now), s, s', id);
  }

  lemma DroppedSweeps(s: State, id: JobId)
    requires At(s, id, Queued)
    ensures SweepDoes(AsDropped, s, Run(s, StepsOf(EachBy(DropQueued), id)), [id])
  {
    RunOne(s, On(id, DropQueued));
    var e := DropQueuedMeans(s, id);
    EffectDoes(s, id, e);
    KeyIsBack(s.keys, s.jobs[id].job.queue, s.jobs[id].job);
    var s' := Apply(s, id, e);
    hide Run, Apply, OthersStay, RestStays, KeyBack, RemoveUniqueKey;
    SweepOneDoes(AsDropped, s, s', id);
  }

  lemma PurgedSweeps(s: State, id: JobId)
    requires At(s, id, Dead)
    ensures SweepDoes(AsPurged, s, Run(s, StepsOf(EachBy(DropDead), id)), [id])
  {
    RunOne(s, On(id, DropDead));
    var e := DropDeadMeans(s, id);
    EffectDoes(s, id, e);
    var s' := Apply(s, id, e);
    hide Run, Apply, OthersStay, RestStays;
    SweepOneDoes(AsPurged, s, s', id);
  }

  lemma TimesAgree(job: Job, now: nat)
    ensures job.IsExpired(now) <==> TooOld(job, now)
    ensures job.IsTimedOut(now) <==> TooLong(job, now)
    ensures IsStalled(job, now) <==> TooSilent(job, now)
  {
  }

  // ---- Pushing a batch ----

  /** Job `id` is made of input `origin`, and answers it. */
  ghost predicate MadeOf(jobs: map<JobId, Placed>, completed: set<JobId>, queue: string, inputs: seq<JobInput>,
                         index: nat, now: nat, answers: map<nat, JobId>, id: JobId, origin: nat) {
    && id in jobs && index <= origin < index + |inputs|
    && Describes(jobs[id].job, id, queue, inputs[origin - index], now) && Starts(completed, jobs[id])
    && origin in answers && answers[origin] == id
  }

  lemma MadeLater(jobs: map<JobId, Placed>, completed: set<JobId>, queue: string, inputs: seq<JobInput>,
                  index: nat, now: nat, answers: map<nat, JobId>, answer: Option<JobId>, id: JobId, origin: nat)
    requires inputs != [] && MadeOf(jobs, completed, queue, inputs[1..], index + 1, now, answers, id, origin)
    ensures MadeOf(jobs, completed, queue, inputs, index, now, Noted(answers, index, answer), id, origin)
    ensures origin > index
  {
    hide Describes, Starts;
  }

  /** The jobs that are new: `origins` says which input each is made of. New jobs are numbered in the order of
      their inputs, each is the answer to its input, and the old jobs are as they were. */
  ghost predicate Creates(jobs: map<JobId, Placed>, jobs': map<JobId, Placed>, completed: set<JobId>, queue: string,
                          inputs: seq<JobInput>, index: nat, now: nat, answers: map<nat, JobId>,
                          origins: map<JobId, nat>) {
    && (forall id | id in origins ::
          id !in jobs && MadeOf(jobs', completed, queue, inputs, index, now, answers, id, origins[id]))
    && (forall i, k | i in origins && k in origins && i < k :: origins[i] < origins[k])
    && (forall id :: id in jobs' <==> id in jobs || id in origins)
    && (forall id | id in jobs :: id in jobs' && jobs'[id] == jobs[id])
  }

  /** Nothing can keep a push of this input from creating a job. */
  predicate Unconditional(input: JobInput) {
    && input.dataSize <= 10 * 1024 * 1024
    && input.debounceId.None? && input.customId.None? && input.uniqueKey.None?
  }

  /** Some job is made of input `i`. */
  ghost predicate IsOrigin(origins: map<JobId, nat>, i: nat) {
    exists id :: id in origins && origins[id] == i
  }

  ghost predicate Covers(inputs: seq<JobInput>, index: nat, origins: map<JobId, nat>) {
    forall i | 0 <= i < |inputs| && Unconditional(inputs[i]) :: IsOrigin(origins, index + i)
  }

  lemma CoversMore(inputs: seq<JobInput>, index: nat, later: map<JobId, nat>, origins: map<JobId, nat>)
    requires inputs != [] && Covers(inputs[1..], index + 1, later)
    requires forall id | id in later :: id in origins && origins[id] == later[id]
    requires Unconditional(inputs[0]) ==> IsOrigin(origins, index)
    ensures Covers(inputs, index, origins)
  {
    hide Unconditional;
    forall i | 0 <= i < |inputs| && Unconditional(inputs[i])
      ensures IsOrigin(origins, index + i)
    {
      if i > 0 {
        assert inputs[1..][i - 1] == inputs[i] && IsOrigin(later, index + 1 + (i - 1));
        var id :| id in later && later[id] == index + i;
        assert id in origins && origins[id] == index + i;
      }
    }
  }

  lemma {:induction false} PhasesCreate(f: Front, completed: set<JobId>, known: map<string, JobId>, queue: string,
                                        inputs: seq<JobInput>, index: nat, now: nat) returns (origins: map<JobId, nat>)
    requires forall id | id in f.jobs :: id < f.nextId
    ensures var b := Phases(f, completed, known, queue, inputs, index, now);
            Creates(f.jobs, b.front.jobs, completed, queue, inputs, index, now, b.answers, origins)
    ensures forall id | id in origins :: id >= f.nextId
    ensures Covers(inputs, index, origins)
    decreases |inputs|
  {
    if inputs == [] {
      origins := map[];
    } else {
      hide Phases, Creates, Handle, Noted, Covers, Unconditional;
      var h := Handle(f, completed, known, queue, inputs[0], now);
      HandleCreates(f, completed, known, queue, inputs[0], now);
      var later := PhasesCreate(h.front, completed, known, queue, inputs[1..], index + 1, now);
      var b := Phases(h.front, completed, known, queue, inputs[1..], index + 1, now);
      PhasesFuse(f, completed, known, queue, inputs, index, now);
      if h.front.jobs == f.jobs {
        origins := later;
        CoversMore(inputs, index, later, origins);
        CreatesNone(f.jobs, b.front.jobs, completed, queue, inputs, index, now, b.answers, h.answer, later);
      } else {
        origins := later[f.nextId := index];
        assert f.nextId in origins && origins[f.nextId] == index;
        CoversMore(inputs, index, later, origins);
        CreatesFirst(f.jobs, h.front.jobs, b.front.jobs, completed, queue, inputs, index, now, b.answers, later,
                     f.nextId);
      }
    }
  }

  lemma HandleCreates(f: Front, completed: set<JobId>, known: map<string, JobId>, queue: string, input: JobInput,
                      now: nat)
    requires forall id | id in f.jobs :: id < f.nextId
    ensures var h := Handle(f, completed, known, queue, input, now);
            && f.nextId <= h.front.nextId && (forall id | id in h.front.jobs :: id < h.front.nextId)
            && (Unconditional(input) ==> h.front.jobs != f.jobs)
            && (h.front.jobs == f.jobs
                || (f.nextId in h.front.jobs && h.front.jobs == f.jobs[f.nextId := h.front.jobs[f.nextId]]
                    && h.front.nextId == f.nextId + 1 && h.answer == Some(f.nextId)
                    && Describes(h.front.jobs[f.nextId].job, f.nextId, queue, input, now)
                    && Starts(completed, h.front.jobs[f.nextId])))
  {
    var job := CreateJob(f.nextId, queue, input, now);
    CreatedJobBehaves(f.nextId, queue, input, now, 0, 0);
    StartsSomewhere(completed, job);
    assert Unconditional(input) ==> Admissible(f.debounce, queue, input, now);
    assert f.nextId !in f.jobs;
    hide CreateJob, StartPlace, Starts, Describes, Admissible, Debounce;
  }

  lemma CreatesNone(jobs: map<JobId, Placed>, jobs': map<JobId, Placed>, completed: set<JobId>, queue: string,
                    inputs: seq<JobInput>, index: nat, now: nat, answers: map<nat, JobId>, answer: Option<JobId>,
                    later: map<JobId, nat>)
    requires inputs != []
    requires Creates(jobs, jobs', completed, queue, inputs[1..], index + 1, now, answers, later)
    ensures Creates(jobs, jobs', completed, queue, inputs, index, now, Noted(answers, index, answer), later)
  {
    hide MadeOf;
    forall id | id in later
      ensures MadeOf(jobs', completed, queue, inputs, index, now, Noted(answers, index, answer), id, later[id])
    {
      MadeLater(jobs', completed, queue, inputs, index, now, answers, answer, id, later[id]);
    }
    hide Noted;
  }

  lemma CreatesFirst(jobs: map<JobId, Placed>, jobs1: map<JobId, Placed>, jobs': map<JobId, Placed>,
                     completed: set<JobId>, queue: string, inputs: seq<JobInput>, index: nat, now: nat,
                     answers: map<nat, JobId>, later: map<JobId, nat>, first: JobId)
    requires inputs != [] && first !in jobs
    requires first in jobs1 && jobs1 == jobs[first := jobs1[first]] && (forall id | id in later :: id > first)
    requires Describes(jobs1[first].job, first, queue, inputs[0], now) && Starts(completed, jobs1[first])
    requires Creates(jobs1, jobs', completed, queue, inputs[1..], index + 1, now, answers, later)
    ensures Creates(jobs, jobs', completed, queue, inputs, index, now, Noted(answers, index, Some(first)),
                    later[first := index])
  {
    var answers' := Noted(answers, index, Some(first));
    hide Describes, Starts;
    assert MadeOf(jobs', completed, queue, inputs, index, now, answers', first, index);
    hide MadeOf;
    forall id | id in later
      ensures MadeOf(jobs', completed, queue, inputs, index, now, answers', id, later[id]) && later[id] > index
    {
      MadeLater(jobs', completed, queue, inputs, index, now, answers, Some(first), id, later[id]);
    }
    hide Noted;
  }

  lemma {:induction false} OrderedAnswers(answers: map<nat, JobId>, from: nat, count: nat, i: nat)
    requires from <= i < from + count && i in answers
    ensures answers[i] in InOrder(answers, from, count)
    decreases count
  {
    if from < i {
      OrderedAnswers(answers, from + 1, count - 1, i);
    }
  }

  /** `push_batch`: an input that nothing can keep from it creates a job; every job that is new is made of one of
      the inputs, and its id is among the answers. */
  ghost predicate BatchDoes(s: State, s': State, queue: string, inputs: seq<JobInput>, now: nat, ids: seq<JobId>,
                            origins: map<JobId, nat>) {
    && (if IsQueueName(queue) && |inputs| <= 1000 then Covers(inputs, 0, origins) else s' == s && ids == [])
    && s' == s.(jobs := s'.jobs, keys := s'.keys, customIds := s'.customIds, debounce := s'.debounce,
                nextId := s'.nextId)
    && (forall id | id in origins ::
          && id !in s.jobs && id in s'.jobs && id in ids && origins[id] < |inputs|
          && Describes(s'.jobs[id].job, id, queue, inputs[origins[id]], now) && Starts(s.completed, s'.jobs[id]))
    && (forall i, k | i in origins && k in origins && i < k :: origins[i] < origins[k])
    && (forall id :: id in s'.jobs <==> id in s.jobs || id in origins)
    && (forall id | id in s.jobs :: id in s'.jobs && s'.jobs[id] == s.jobs[id])
  }

  lemma BatchPromise(s: State, queue: string, inputs: seq<JobInput>, now: nat) returns (origins: map<JobId, nat>)
    requires forall id | id in s.jobs :: id < s.nextId
    ensures var (s', ids) := PushBatches.PushBatch(s, queue, inputs, now);
            BatchDoes(s, s', queue, inputs, now, ids, origins)
  {
    QueueNamesAgree(queue);
    hide Phases, BatchDoes, ValidQueueName, IsQueueName, InOrder;
    if ValidQueueName(queue) && |inputs| <= MAX_BATCH_SIZE {
      var b := Phases(FrontOf(s), s.completed, s.customIds, queue, inputs, 0, now);
      origins := PhasesCreate(FrontOf(s), s.completed, s.customIds, queue, inputs, 0, now);
      BatchCreates(s, b, queue, inputs, now, origins);
    } else {
      origins := map[];
      BatchIdle(s, queue, inputs, now);
    }
  }

  lemma BatchIdle(s: State, queue: string, inputs: seq<JobInput>, now: nat)
    requires !IsQueueName(queue) || |inputs| > 1000
    ensures BatchDoes(s, s, queue, inputs, now, [], map[])
  {
  }

  lemma BatchCreates(s: State, b: Batch, queue: string, inputs: seq<JobInput>, now: nat, origins: map<JobId, nat>)
    requires IsQueueName(queue) && |inputs| <= 1000
    requires Creates(s.jobs, b.front.jobs, s.completed, queue, inputs, 0, now, b.answers, origins)
    requires Covers(inputs, 0, origins)
    ensures BatchDoes(s, WithFront(s, b.front), queue, inputs, now, InOrder(b.answers, 0, |inputs|), origins)
  {
    hide Describes, Starts, InOrder;
    forall id | id in origins
      ensures id in InOrder(b.answers, 0, |inputs|)
    {
      OrderedAnswers(b.answers, 0, |inputs|, origins[id]);
    }
  }

  // ---- Pushing a flow ----

  /** A job of a flow, new and with nothing special about it. */
  predicate Unworked(job: Job, id: JobId, queue: string, data: string, priority: int, now: nat) {
    && job.id == id && job.queue == queue && job.data == data && job.priority == priority && job.createdAt == now
    && job.attempts == job.maxAttempts == job.backoff == job.ttl == job.timeout == job.startedAt == 0
    && job.lastHeartbeat == job.stallTimeout == job.stallCount == job.childrenCompleted == 0
    && job.uniqueKey.None? && job.customId.None? && job.groupId.None? && job.dependsOn == []
    && !job.lifo && !job.removeOnComplete && !job.removeOnFail
  }

  /** The `i`-th child of a flow. */
  predicate IsChild(p: Placed, id: JobId, child: FlowChild, parent: JobId, now: nat) {
    && p.place == Queued && Unworked(p.job, id, child.queue, child.data, child.priority, now)
    && p.job.runAt == now + Given(child.delay, 0) && p.job.parentId == Some(parent) && p.job.childrenIds == []
  }

  /** The parent of these children. */
  predicate IsParent(p: Placed, id: JobId, queue: string, data: string, priority: int, now: nat, ids: seq<JobId>) {
    && p.place == WaitingChildren && Unworked(p.job, id, queue, data, priority, now)
    && p.job.runAt == now && p.job.parentId.None? && p.job.childrenIds == ids
  }

  /** `push_flow`: child by child, and the parent that waits for them. */
  ghost predicate FlowDoes(s: State, s': State, queue: string, data: string, children: seq<FlowChild>, priority: int,
                           now: nat, ids: seq<JobId>) {
    var parent := s.nextId;
    && s' == s.(jobs := s'.jobs, nextId := s.nextId + |children| + 1) && |ids| == |children|
    && (forall i | 0 <= i < |children| ::
          ids[i] == parent + 1 + i && ids[i] in s'.jobs && IsChild(s'.jobs[ids[i]], ids[i], children[i], parent, now))
    && parent in s'.jobs && IsParent(s'.jobs[parent], parent, queue, data, priority, now, ids)
    && (forall k | k != parent && k !in ids ::
          (k in s'.jobs <==> k in s.jobs) && (k in s.jobs ==> s'.jobs[k] == s.jobs[k]))
  }

  // ---- Settings ----

  /** A queue is paused, or not, and its limit is what was set, counted from none; no other queue changes. */
  ghost predicate ConfigureDoes(s: State, s': State, step: Step) {
    && s' == s.(paused := s'.paused, limiters := s'.limiters)
    && (forall q :: q in s'.paused <==> step == Pause(q) || (q in s.paused && step != Resume(q)))
    && (forall q :: q in s'.limiters <==> (step.SetConcurrency? && step.queue == q)
                                          || (q in s.limiters && step != ClearConcurrency(q)))
    && (forall q | q in s'.limiters ::
          s'.limiters[q] == if step.SetConcurrency? && step.queue == q then Limiter(step.limit, 0) else s.limiters[q])
  }

  // ---- No pull before its time ----

  /** In its queue or waiting for its dependencies with a run time of `t` or later, among the dead letters, or
      gone. */
  ghost predicate Held(s: State, id: JobId, t: nat) {
    id < s.nextId && (id in s.jobs ==> Waits(s.jobs[id], t))
  }

  predicate Waits(p: Placed, t: nat) {
    p.place == Dead || ((p.place == Queued || p.place == WaitingDeps) && p.job.runAt >= t)
  }

  /** A step that brings a run time forward, or a pull that reads the clock at `t` or later. */
  predicate Hastens(step: Step, id: JobId, t: nat) {
    step.On? && step.id == id
    && (step.action.Promote? || step.action.RetryDead? || (step.action.Take? && step.action.now >= t))
  }

  lemma EffectHolds(s: State, id: JobId, action: Action, t: nat)
    requires Held(s, id, t) && id in s.jobs && EffectOf(s, id, action).Some? && !Hastens(On(id, action), id, t)
    ensures var e := EffectOf(s, id, action).value;
            e.after.Some? ==> Waits(e.after.value, t)
  {
    hide AckEffect, FailEffect, RequeueEffect, StallCount, DepsPending, IsStalled, Judged, Retrievable;
  }

  lemma ActionHolds(s: State, k: JobId, action: Action, id: JobId, t: nat)
    requires Held(s, id, t) && !Hastens(On(k, action), id, t)
    ensures Held(Act(s, k, action), id, t)
  {
    hide EffectOf;
    if k in s.jobs && EffectOf(s, k, action).Some? {
      var e := EffectOf(s, k, action).value;
      if k == id {
        EffectHolds(s, id, action, t);
      }
      EffectDoes(s, k, e);
      hide Apply, Hastens;
    }
  }

  lemma TellHolds(s: State, k: JobId, id: JobId, t: nat)
    requires Held(s, id, t)
    ensures Held(TellParent(s, k), id, t)
  {
    hide LimitersAfter, GroupsAfter, KeysAfter;
  }

  lemma StepHolds(s: State, step: Step, id: JobId, t: nat)
    requires Held(s, id, t) && !Hastens(step, id, t)
    ensures Held(Next(s, step), id, t)
  {
    hide PushAs, OpenFlow, Obliterated, Act, TellParent, Hastens;
    match step
    case On(k, action) => ActionHolds(s, k, action, id, t);
    case Push(queue, input, newId, now) => PushShape(s, queue, input, newId, now);
    case PushFlow(queue, data, children, priority, now) => FlowShape(s, queue, data, children, priority, now);
    case Tell(k) => TellHolds(s, k, id, t);
    case Obliterate(queue) => ObliterateShape(s, queue);
    case _ =>
  }

  /** A job that waits in its queue for its run time is in no worker's hands before it, whatever happens, unless
      it is promoted or comes back from the dead letters. */
  lemma {:induction false} NotServedEarly(s: State, id: JobId, t: nat, steps: seq<Step>)
    requires Held(s, id, t) && forall step | step in steps :: !Hastens(step, id, t)
    ensures Held(Run(s, steps), id, t)
    ensures !At(Run(s, steps), id, InFlight) && !At(Run(s, steps), id, Processing)
    decreases |steps|
  {
    if steps != [] {
      assert steps[0] in steps;
      StepHolds(s, steps[0], id, t);
      hide Next, Hastens, Held;
      NotServedEarly(Next(s, steps[0]), id, t, steps[1..]);
    }
  }

  /** A job that failed or timed out, with a backoff, is in no worker's hands again until its delay is over, and
      that is at least twice and at most 1024 times its backoff. */
  lemma BackoffIsWaited(job: Job, s: State, id: JobId, now: nat, steps: seq<Step>)
    requires RetriesOrBuries(job, s, id, now) && job.backoff > 0 && id < s.nextId
    requires forall step | step in steps :: !Hastens(step, id, now + DelayAfter(job.backoff, job.attempts + 1))
    ensures !At(Run(s, steps), id, InFlight) && !At(Run(s, steps), id, Processing)
    ensures 2 * job.backoff <= DelayAfter(job.backoff, job.attempts + 1) <= 1024 * job.backoff
  {
    DelaysBounded(job.backoff, job.attempts + 1);
    hide Run, DelayAfter, Hastens;
    NotServedEarly(s, id, now + DelayAfter(job.backoff, job.attempts + 1), steps);
  }

  /** A delayed push waits just so. */
  lemma DelayIsWaited(s: State, s': State, queue: string, input: JobInput, now: nat, outcome: PushOutcome,
                      steps: seq<Step>)
    requires Pushed(s, s', queue, input, now, outcome) && outcome.Created?
    requires forall step | step in steps :: !Hastens(step, outcome.id, now + Given(input.delay, 0))
    ensures !At(Run(s', steps), outcome.id, InFlight) && !At(Run(s', steps), outcome.id, Processing)
  {
    hide Run, Hastens;
    assert Held(s', outcome.id, now + Given(input.delay, 0));
    hide Pushed;
    NotServedEarly(s', outcome.id, now + Given(input.delay, 0), steps);
  }
}
