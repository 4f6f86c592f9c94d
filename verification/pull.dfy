/** Taking jobs off one queue (engine/src/queue/pull.rs).

    `Scan` is the meaning of one attempt on the jobs in the order the heap yields them; the class
    below runs the source's loops on a real heap and is proved to compute it. */
module Pull {
  import opened Protocol
  import opened PriorityQueue

  // ---- Concurrency slots (engine/src/queue/types/limiters.rs) ----

  datatype Limiter = Limiter(limit: nat, current: nat)
  {
    predicate HasSlot() {
      current < limit
    }

    function Acquire(): Limiter {
      this.(current := current + 1)
    }

    function Release(): Limiter {
      this.(current := SaturatingSub(current, 1))
    }

    function Free(): nat {
      SaturatingSub(limit, current)
    }
  }

  // ---- One scan ----

  predicate Busy(job: Job, active: set<string>) {
    job.groupId.Some? && job.groupId.value in active
  }

  predicate Eligible(job: Job, active: set<string>, now: nat) {
    !job.IsExpired(now) && job.IsReady(now) && !Busy(job, active)
  }

  /** A job the scan moves past: an expired one, or a ready one of a busy group. */
  predicate Passed(job: Job, active: set<string>, now: nat) {
    job.IsExpired(now) || (job.IsReady(now) && Busy(job, active))
  }

  function Started(job: Job, now: nat): Job {
    job.(startedAt := now, lastHeartbeat := now)
  }

  function Claim(job: Job, active: set<string>): set<string> {
    if job.groupId.Some? then active + {job.groupId.value} else active
  }

  datatype Scanned = Scanned(found: Option<Job>, kept: seq<Job>)

  function Scan(order: seq<Job>, active: set<string>, now: nat): Scanned {
    if order == [] then Scanned(None, [])
    else if order[0].IsExpired(now) then Scan(order[1..], active, now)
    else if !order[0].IsReady(now) then Scanned(None, order)
    else if Busy(order[0], active) then
      var rest := Scan(order[1..], active, now);
      Scanned(rest.found, [order[0]] + rest.kept)
    else Scanned(Some(Started(order[0], now)), order[1..])
  }

  /** What survives of a stretch of passed jobs. */
  function Unexpired(jobs: seq<Job>, now: nat): seq<Job> {
    if jobs == [] then []
    else if TooOld(jobs[0], now) then Unexpired(jobs[1..], now)
    else [jobs[0]] + Unexpired(jobs[1..], now)
  }

  lemma ScanPastOne(order: seq<Job>, active: set<string>, now: nat)
    requires order != [] && Passed(order[0], active, now)
    ensures var s, kept := Scan(order[1..], active, now), if TooOld(order[0], now) then [] else [order[0]];
            Scan(order, active, now) == Scanned(s.found, kept + s.kept)
    ensures Unexpired(order, now) == (if TooOld(order[0], now) then [] else [order[0]]) + Unexpired(order[1..], now)
  {
  }

  lemma {:induction false} ScanPasses(passed: seq<Job>, rest: seq<Job>, active: set<string>, now: nat)
    requires forall j | j in passed :: Passed(j, active, now)
    ensures var s := Scan(rest, active, now);
            Scan(passed + rest, active, now) == Scanned(s.found, Unexpired(passed, now) + s.kept)
  {
    if passed == [] {
      assert passed + rest == rest;
    } else {
      hide Passed, TooOld, Scan, Unexpired;
      assert passed[0] in passed;
      assert (passed + rest)[0] == passed[0] && (passed + rest)[1..] == passed[1..] + rest;
      ScanPastOne(passed + rest, active, now);
      ScanPastOne(passed, active, now);
      ScanPasses(passed[1..], rest, active, now);
    }
  }

  /** A scan gets as far as place `n`: it passes jobs past their time to live and ready jobs whose group
      is busy, and stops at any other. */
  ghost predicate StopsAt(order: seq<Job>, active: set<string>, now: nat, n: nat) {
    && n <= |order|
    && (forall i | 0 <= i < n ::
          || TooOld(order[i], now)
          || (order[i].runAt <= now && order[i].groupId.Some? && order[i].groupId.value in active))
    && (n < |order| ==>
          && !TooOld(order[n], now)
          && (order[n].runAt <= now ==> order[n].groupId.None? || order[n].groupId.value !in active))
  }

  /** The scan read declaratively, in the fields of the jobs: it takes the job it stops at if that one is
      due, drops just those before it that are past their time to live, and keeps all the rest in order. */
  lemma {:induction false} ScanExplained(order: seq<Job>, active: set<string>, now: nat) returns (n: nat)
    ensures n <= |order| && StopsAt(order, active, now, n)
    ensures Scan(order, active, now)
            == if n < |order| && order[n].runAt <= now
               then Scanned(Some(order[n].(startedAt := now, lastHeartbeat := now)),
                            Unexpired(order[..n], now) + order[n + 1..])
               else Scanned(None, Unexpired(order[..n], now) + order[n..])
  {
    if order == [] || !Passed(order[0], active, now) {
      n := 0;
      assert order[0..] == order;
    } else {
      var m := ScanExplained(order[1..], active, now);
      n := m + 1;
      StopsLater(order, active, now, m);
      hide StopsAt, Passed, Busy;
      assert order[..n] == [order[0]] + order[1..][..m] && order[..n][1..] == order[1..][..m];
      assert order[n..] == order[1..][m..];
      if n < |order| {
        assert order[n + 1..] == order[1..][m + 1..];
      }
    }
  }

  lemma StopsLater(order: seq<Job>, active: set<string>, now: nat, m: nat)
    requires order != [] && Passed(order[0], active, now) && StopsAt(order[1..], active, now, m)
    ensures StopsAt(order, active, now, m + 1)
    ensures !order[0].IsExpired(now) ==> order[0].IsReady(now) && Busy(order[0], active)
    ensures order[0].IsExpired(now) <==> TooOld(order[0], now)
  {
    forall i | 0 <= i < m + 1
      ensures TooOld(order[i], now)
              || (order[i].runAt <= now && order[i].groupId.Some? && order[i].groupId.value in active)
    {
      if i > 0 {
        assert order[i] == order[1..][i - 1];
      }
    }
  }

  // ---- The batch form ----

  datatype BatchScanned = BatchScanned(jobs: seq<Job>, kept: seq<Job>, active: set<string>)

  function ScanBatch(order: seq<Job>, active: set<string>, now: nat, count: nat): BatchScanned {
    if count == 0 || order == [] then BatchScanned([], order, active)
    else if order[0].IsExpired(now) then ScanBatch(order[1..], active, now, count)
    else if !order[0].IsReady(now) then BatchScanned([], order, active)
    else if Busy(order[0], active) then
      var rest := ScanBatch(order[1..], active, now, count);
      rest.(kept := [order[0]] + rest.kept)
    else
      var rest := ScanBatch(order[1..], Claim(order[0], active), now, count - 1);
      rest.(jobs := [Started(order[0], now)] + rest.jobs)
  }

  /** What a shard holds for one queue. */
  datatype QueueView = QueueView(paused: bool, limiter: Option<Limiter>, active: set<string>, order: seq<Job>)
  {
    predicate Admits() {
      !paused && (limiter.Some? ==> limiter.value.HasSlot())
    }
  }

  datatype Pulled = Pulled(jobs: seq<Job>, queue: QueueView)

  /** One attempt of `pull` on a queue without a rate limiter. */
  function PullOnce(q: QueueView, now: nat): Pulled {
    if !q.Admits() then Pulled([], q)
    else
      var s := Scan(q.order, q.active, now);
      if s.found.None? then Pulled([], q.(order := s.kept))
      else Pulled([s.found.value],
                  q.(limiter := if q.limiter.Some? then Some(q.limiter.value.Acquire()) else None,
                     active := Claim(s.found.value, q.active),
                     order := s.kept))
  }

  /** What one attempt comes to, in the fields of limiter and jobs. */
  ghost predicate Attempted(q: QueueView, r: Pulled, now: nat, n: nat) {
    if q.paused || (q.limiter.Some? && q.limiter.value.current >= q.limiter.value.limit) then r == Pulled([], q)
    else
      && StopsAt(q.order, q.active, now, n)
      && if n < |q.order| && q.order[n].runAt <= now then
           && r.jobs == [q.order[n].(startedAt := now, lastHeartbeat := now)]
           && r.queue == QueueView(false, r.queue.limiter, r.queue.active,
                                   Unexpired(q.order[..n], now) + q.order[n + 1..])
           && r.queue.active == q.active + (if q.order[n].groupId.Some? then {q.order[n].groupId.value} else {})
           && r.queue.limiter == (if q.limiter.None? then None
                                  else Some(Limiter(q.limiter.value.limit, q.limiter.value.current + 1)))
         else r == Pulled([], q.(order := Unexpired(q.order[..n], now) + q.order[n..]))
  }

  lemma AttemptExplained(q: QueueView, now: nat) returns (n: nat)
    ensures Attempted(q, PullOnce(q, now), now, n)
  {
    n := ScanExplained(q.order, q.active, now);
    hide StopsAt, Unexpired, Scan;
  }

  /** Up to `count` attempts of `pull`, stopping at the first that finds nothing. */
  function PullRepeatedly(q: QueueView, now: nat, count: nat): Pulled
    decreases count
  {
    if count == 0 then Pulled([], q)
    else
      var one := PullOnce(q, now);
      if one.jobs == [] then one
      else
        var more := PullRepeatedly(one.queue, now, count - 1);
        Pulled(one.jobs + more.jobs, more.queue)
  }

  /** `pull_batch_nowait`: slots for the whole batch first, one pass over the heap, surplus slots back. */
  function PullBatch(q: QueueView, now: nat, count: nat): Pulled {
    var slots := if q.limiter.Some? then Min(count, q.limiter.value.Free()) else count;
    if q.paused || slots == 0 then Pulled([], q)
    else
      var b := ScanBatch(q.order, q.active, now, slots);
      Pulled(b.jobs,
             q.(limiter := if q.limiter.Some?
                           then Some(q.limiter.value.(current := q.limiter.value.current + |b.jobs|)) else None,
                active := b.active,
                order := b.kept))
  }

  /** Only jobs that are due and alive are handed out; only jobs past their time to live are dropped. */
  ghost predicate HandsOut(order: seq<Job>, jobs: seq<Job>, left: seq<Job>, now: nat) {
    && (forall i | 0 <= i < |jobs| :: exists j | j in order ::
          j.runAt <= now && !TooOld(j, now) && jobs[i] == j.(startedAt := now, lastHeartbeat := now))
    && (forall j | j in order :: j in left || TooOld(j, now) || j.(startedAt := now, lastHeartbeat := now) in jobs)
    && (forall j | j in left :: j in order)
  }

  /** No two jobs of one group, and none of a busy one, are handed out; their groups are busy from then on. */
  ghost predicate Grouped(before: set<string>, jobs: seq<Job>, after: set<string>) {
    && (forall i | 0 <= i < |jobs| && jobs[i].groupId.Some? :: jobs[i].groupId.value !in before)
    && (forall i, k | 0 <= i < k < |jobs| && jobs[i].groupId.Some? :: jobs[i].groupId != jobs[k].groupId)
    && (forall g :: g in after <==> g in before || exists i | 0 <= i < |jobs| :: jobs[i].groupId == Some(g))
  }

  /** A slot is taken for each of `count` jobs, and there were as many. */
  predicate SlotsFor(before: Option<Limiter>, count: nat, after: Option<Limiter>) {
    if before.None? then after.None?
    else
      && after == Some(Limiter(before.value.limit, before.value.current + count))
      && (count > 0 ==> before.value.current + count <= before.value.limit)
  }

  /** What a batch comes to, in the fields of limiter and jobs; it begins as a single attempt does and ends
      early only where one finds nothing. */
  ghost predicate BatchAttempted(q: QueueView, r: Pulled, now: nat, count: nat) {
    && |r.jobs| <= count && r.queue.paused == q.paused && (q.paused ==> r == Pulled([], q))
    && HandsOut(q.order, r.jobs, r.queue.order, now) && Grouped(q.active, r.jobs, r.queue.active)
    && SlotsFor(q.limiter, |r.jobs|, r.queue.limiter)
    && (count > 0 ==> exists one, n :: Attempted(q, one, now, n) && one.jobs <= r.jobs && (one.jobs == [] ==> r == one))
    && (|r.jobs| < count ==> exists last, n :: Attempted(last, Pulled([], r.queue), now, n))
  }

  lemma {:induction false} UnexpiredMeans(jobs: seq<Job>, now: nat)
    ensures forall j :: j in Unexpired(jobs, now) <==> j in jobs && !TooOld(j, now)
  {
    if jobs != [] {
      UnexpiredMeans(jobs[1..], now);
      assert forall j :: j in jobs <==> j == jobs[0] || j in jobs[1..];
    }
  }

  /** The jobs and the tables after one attempt that found a job. */
  lemma AttemptTakes(q: QueueView, one: Pulled, now: nat, n: nat) returns (job: Job)
    requires Attempted(q, one, now, n) && one.jobs != []
    ensures job in q.order && job.runAt <= now && !TooOld(job, now)
    ensures one.jobs == [job.(startedAt := now, lastHeartbeat := now)]
    ensures forall j | j in q.order :: j in one.queue.order || TooOld(j, now) || j == job
    ensures forall j | j in one.queue.order :: j in q.order
    ensures job.groupId.Some? ==> job.groupId.value !in q.active
    ensures one.queue.active == q.active + if job.groupId.Some? then {job.groupId.value} else {}
    ensures !q.paused && !one.queue.paused
    ensures if q.limiter.None? then one.queue.limiter.None?
            else q.limiter.value.current < q.limiter.value.limit
                 && one.queue.limiter == Some(Limiter(q.limiter.value.limit, q.limiter.value.current + 1))
  {
    job := q.order[n];
    UnexpiredMeans(q.order[..n], now);
    forall j | j in q.order
      ensures j in one.queue.order || TooOld(j, now) || j == job
    {
      var i :| 0 <= i < |q.order| && q.order[i] == j;
      if i < n {
        assert q.order[..n][i] == j;
      } else if i > n {
        assert q.order[n + 1..][i - n - 1] == j;
      }
    }
  }

  lemma AttemptFails(q: QueueView, one: Pulled, now: nat, count: nat, n: nat)
    requires Attempted(q, one, now, n) && one.jobs == [] && count > 0
    ensures BatchAttempted(q, one, now, count)
  {
    UnexpiredMeans(if n <= |q.order| then q.order[..n] else [], now);
    if one.queue != q {
      forall j | j in q.order
        ensures j in one.queue.order || TooOld(j, now)
      {
        var i :| 0 <= i < |q.order| && q.order[i] == j;
        if i < n {
          assert q.order[..n][i] == j;
        } else {
          assert q.order[n..][i - n] == j;
        }
      }
    }
  }

  lemma BatchGrows(q: QueueView, one: Pulled, more: Pulled, now: nat, count: nat, n: nat)
    requires Attempted(q, one, now, n) && one.jobs != [] && count > 0
    requires BatchAttempted(one.queue, more, now, count - 1)
    ensures BatchAttempted(q, Pulled(one.jobs + more.jobs, more.queue), now, count)
  {
    var job := AttemptTakes(q, one, now, n);
    hide Attempted, TooOld, HandsOut, Grouped;
    HandsOutNext(q.order, job, one.queue.order, more.jobs, more.queue.order, now);
    GroupedOn(q.active, job.(startedAt := now, lastHeartbeat := now), one.queue.active, more.jobs, more.queue.active);
  }

  lemma HandsOutNext(order: seq<Job>, job: Job, order': seq<Job>, jobs: seq<Job>, left: seq<Job>, now: nat)
    requires job in order && job.runAt <= now && !TooOld(job, now) && HandsOut(order', jobs, left, now)
    requires forall j | j in order :: j in order' || TooOld(j, now) || j == job
    requires forall j | j in order' :: j in order
    ensures HandsOut(order, [job.(startedAt := now, lastHeartbeat := now)] + jobs, left, now)
  {
    hide TooOld;
    var taken := job.(startedAt := now, lastHeartbeat := now);
    var all := [taken] + jobs;
    assert all[0] == taken && forall i | 1 <= i < |all| :: all[i] == jobs[i - 1];
    assert taken in all && forall j | j in jobs :: j in all;
  }

  lemma GroupedOn(before: set<string>, job: Job, between: set<string>, jobs: seq<Job>, after: set<string>)
    requires job.groupId.Some? ==> job.groupId.value !in before
    requires between == before + if job.groupId.Some? then {job.groupId.value} else {}
    requires Grouped(between, jobs, after)
    ensures Grouped(before, [job] + jobs, after)
  {
    var all := [job] + jobs;
    assert all[0] == job && forall i | 1 <= i < |all| :: all[i] == jobs[i - 1];
    forall g
      ensures g in after <==> g in before || exists i | 0 <= i < |all| :: all[i].groupId == Some(g)
    {
      if i :| 0 <= i < |jobs| && jobs[i].groupId == Some(g) {
        assert all[i + 1].groupId == Some(g);
      }
    }
  }

  lemma {:induction false} BatchExplained(q: QueueView, now: nat, count: nat)
    ensures BatchAttempted(q, PullRepeatedly(q, now, count), now, count)
    decreases count
  {
    hide Attempted, TooOld;
    if count > 0 {
      var one := PullOnce(q, now);
      var n := AttemptExplained(q, now);
      if one.jobs == [] {
        AttemptFails(q, one, now, count, n);
      } else {
        BatchExplained(one.queue, now, count - 1);
        BatchGrows(q, one, PullRepeatedly(one.queue, now, count - 1), now, count, n);
      }
      hide *;
    } else {
      hide PullOnce;
    }
  }

  lemma {:induction false} RepeatedlyPastPassed(q: QueueView, now: nat, count: nat)
    requires q.order != [] && count > 0 && q.Admits() && Passed(q.order[0], q.active, now)
    ensures var rest := PullRepeatedly(q.(order := q.order[1..]), now, count);
            PullRepeatedly(q, now, count)
              == Pulled(rest.jobs, rest.queue.(order := Unexpired([q.order[0]], now) + rest.queue.order))
    decreases count
  {
    var head, tail := q.order[0], q.order[1..];
    var without := q.(order := tail);
    assert Unexpired([head], now) == if head.IsExpired(now) then [] else [head];
    var one, one' := PullOnce(q, now), PullOnce(without, now);
    assert one.jobs == one'.jobs;
    assert one.queue == one'.queue.(order := Unexpired([head], now) + one'.queue.order);
    if !head.IsExpired(now) && one.jobs != [] && count > 1 {
      assert one.queue.order[1..] == one'.queue.order;
      if one.queue.Admits() {
        RepeatedlyPastPassed(one.queue, now, count - 1);
      }
    }
  }

  lemma {:induction false} BatchScanIsRepeatedPull(q: QueueView, now: nat, count: nat)
    requires !q.paused
    requires q.limiter.Some? ==> count <= q.limiter.value.Free()
    ensures var b, r := ScanBatch(q.order, q.active, now, count), PullRepeatedly(q, now, count);
            && r.jobs == b.jobs
            && r.queue == q.(limiter := if q.limiter.Some?
                                        then Some(q.limiter.value.(current := q.limiter.value.current + |b.jobs|))
                                        else None,
                             active := b.active,
                             order := b.kept)
    decreases |q.order|
  {
    if count > 0 && q.order != [] {
      var head, rest := q.order[0], q.(order := q.order[1..]);
      if Passed(head, q.active, now) {
        BatchScanIsRepeatedPull(rest, now, count);
        RepeatedlyPastPassed(q, now, count);
        assert Unexpired([head], now) == if head.IsExpired(now) then [] else [head];
      } else if head.IsReady(now) {
        BatchScanIsRepeatedPull(PullOnce(q, now).queue, now, count - 1);
      }
    }
  }

  lemma {:induction false} RepeatedPullSaturates(q: QueueView, now: nat, count: nat)
    requires !q.paused && q.limiter.Some? && q.limiter.value.Free() <= count
    ensures PullRepeatedly(q, now, count) == PullRepeatedly(q, now, q.limiter.value.Free())
    decreases count
  {
    if q.Admits() && PullOnce(q, now).jobs != [] {
      RepeatedPullSaturates(PullOnce(q, now).queue, now, count - 1);
    }
  }

  /** The batch form refines the single form: same jobs, same order, same heap, groups and slots. */
  lemma BatchRefinesSingle(q: QueueView, now: nat, count: nat)
    ensures PullBatch(q, now, count) == PullRepeatedly(q, now, count)
  {
    if !q.paused {
      if q.limiter.Some? && q.limiter.value.Free() < count {
        RepeatedPullSaturates(q, now, count);
        BatchScanIsRepeatedPull(q, now, q.limiter.value.Free());
      } else {
        BatchScanIsRepeatedPull(q, now, count);
      }
    }
  }

  /** `ScanBatch` takes or passes every job of `jobs` before its slots run out. */
  predicate Consumes(jobs: seq<Job>, active: set<string>, now: nat, count: nat) {
    jobs == [] || (
      && count > 0
      && if Passed(jobs[0], active, now) then Consumes(jobs[1..], active, now, count)
         else Eligible(jobs[0], active, now) && Consumes(jobs[1..], Claim(jobs[0], active), now, count - 1))
  }

  lemma {:induction false} BatchPasses(jobs: seq<Job>, rest: seq<Job>, active: set<string>, now: nat, count: nat)
    requires Consumes(jobs, active, now, count)
    ensures var b := ScanBatch(jobs, active, now, count);
            && |b.jobs| <= count
            && var r := ScanBatch(rest, b.active, now, count - |b.jobs|);
               ScanBatch(jobs + rest, active, now, count) == BatchScanned(b.jobs + r.jobs, b.kept + r.kept, r.active)
  {
    if jobs == [] {
      assert jobs + rest == rest;
    } else {
      assert (jobs + rest)[0] == jobs[0] && (jobs + rest)[1..] == jobs[1..] + rest;
      if Passed(jobs[0], active, now) {
        BatchPasses(jobs[1..], rest, active, now, count);
      } else {
        BatchPasses(jobs[1..], rest, Claim(jobs[0], active), now, count - 1);
      }
    }
  }

  lemma {:induction false} ConsumesAppend(jobs: seq<Job>, job: Job, active: set<string>, now: nat, count: nat)
    requires Consumes(jobs, active, now, count)
    requires var b := ScanBatch(jobs, active, now, count);
             |b.jobs| < count && (Passed(job, b.active, now) || Eligible(job, b.active, now))
    ensures Consumes(jobs + [job], active, now, count)
  {
    if jobs == [] {
      assert jobs + [job] == [job];
    } else {
      assert (jobs + [job])[0] == jobs[0] && (jobs + [job])[1..] == jobs[1..] + [job];
      if Passed(jobs[0], active, now) {
        ConsumesAppend(jobs[1..], job, active, now, count);
      } else {
        ConsumesAppend(jobs[1..], job, Claim(jobs[0], active), now, count - 1);
      }
    }
  }

  /** What a batch scan does with one more job in front of it. */
  lemma BatchStep(jobs: seq<Job>, job: Job, active: set<string>, now: nat, count: nat)
    requires Consumes(jobs, active, now, count)
    requires |ScanBatch(jobs, active, now, count).jobs| < count
    ensures var b, c := ScanBatch(jobs, active, now, count), ScanBatch(jobs + [job], active, now, count);
            && (Passed(job, b.active, now) ==>
                  && Consumes(jobs + [job], active, now, count)
                  && c == b.(kept := b.kept + if job.IsExpired(now) then [] else [job]))
            && (Eligible(job, b.active, now) ==>
                  && Consumes(jobs + [job], active, now, count)
                  && c == BatchScanned(b.jobs + [Started(job, now)], b.kept, Claim(job, b.active)))
  {
    var b := ScanBatch(jobs, active, now, count);
    if Passed(job, b.active, now) || Eligible(job, b.active, now) {
      ConsumesAppend(jobs, job, active, now, count);
      BatchPasses(jobs, [job], active, now, count);
    }
  }

  // ---- Orders over a heap's contents ----

  /** `order` enumerates the jobs of `m`, each once. */
  ghost predicate Lists(order: seq<Job>, m: map<JobId, Job>) {
    && (forall j | j in order :: j.id in m && m[j.id] == j)
    && (forall id | id in m :: m[id].id == id && m[id] in order)
    && Distinct(order)
  }

  ghost predicate Distinct(order: seq<Job>) {
    forall i, k | 0 <= i < k < |order| :: order[i].id != order[k].id
  }

  predicate Outranks(a: Job, b: Job) {
    Compare(a.Ranking(), b.Ranking()) == Greater
  }

  ghost predicate Descending(order: seq<Job>) {
    forall i, k | 0 <= i < k < |order| :: Outranks(order[i], order[k])
  }

  function RanksIn(m: map<JobId, Job>): set<Rank> {
    set id | id in m :: m[id].Ranking()
  }

  ghost predicate Keyed(m: map<JobId, Job>) {
    forall id | id in m :: m[id].id == id
  }

  lemma ListsAppend(order: seq<Job>, m: map<JobId, Job>, job: Job)
    requires Lists(order, m) && job.id !in m
    ensures Lists(order + [job], m[job.id := job])
  {
    var order', m' := order + [job], m[job.id := job];
    forall id | id in m'
      ensures m'[id] in order'
    {
      if id != job.id {
        assert m[id] in order;
      } else {
        assert order'[|order|] == job;
      }
    }
  }

  lemma ListsSwap(a: seq<Job>, b: seq<Job>, m: map<JobId, Job>)
    requires Lists(a + b, m)
    ensures Lists(b + a, m)
  {
    assert forall j :: j in b + a <==> j in a + b;
    forall i, k | 0 <= i < k < |b + a|
      ensures (b + a)[i].id != (b + a)[k].id
    {
      var i' := if i < |b| then i + |a| else i - |b|;
      var k' := if k < |b| then k + |a| else k - |b|;
      assert (b + a)[i] == (a + b)[i'] && (b + a)[k] == (a + b)[k'];
    }
  }

  /** Every heap has an enumeration, and a descending one if the order is sound on it. */
  lemma {:induction false} ListingExists(m: map<JobId, Job>) returns (order: seq<Job>)
    requires Keyed(m)
    ensures Lists(order, m)
    ensures Orderly(RanksIn(m)) ==> Descending(order)
    decreases |m|
  {
    if m == map[] {
      order := [];
    } else {
      var least := Least(m);
      var rest := m - {least};
      assert RanksIn(rest) <= RanksIn(m);
      var head := ListingExists(rest);
      order := head + [m[least]];
      OrderlySubset(RanksIn(rest), RanksIn(m));
      ListingExtends(head, m, least);
    }
  }

  lemma ListingExtends(head: seq<Job>, m: map<JobId, Job>, least: JobId)
    requires Keyed(m) && least in m && Lists(head, m - {least})
    ensures Lists(head + [m[least]], m)
    ensures Descending(head) && (forall k | k in m && k != least :: Outranks(m[k], m[least])) ==>
              Descending(head + [m[least]])
  {
    assert m == (m - {least})[least := m[least]];
    ListsAppend(head, m - {least}, m[least]);
    assert forall i | 0 <= i < |head| :: head[i] in head;
  }

  lemma {:induction false} Least(m: map<JobId, Job>) returns (id: JobId)
    requires m != map[] && Keyed(m)
    ensures id in m
    ensures Orderly(RanksIn(m)) ==> forall k | k in m && k != id :: Outranks(m[k], m[id])
    decreases |m|
  {
    var any :| any in m;
    var rest := m - {any};
    if rest == map[] {
      id := any;
      assert forall k | k in m :: k in rest || k == any;
    } else {
      assert RanksIn(rest) <= RanksIn(m);
      var low := Least(rest);
      id := if Outranks(m[low], m[any]) then any else low;
      forall k | k in m && k != id && Orderly(RanksIn(m))
        ensures Outranks(m[k], m[id])
      {
        if k != low && k != any {
          assert k in rest;
          OrderlyTriple(RanksIn(m), m[k].Ranking(), m[low].Ranking(), m[id].Ranking());
        }
      }
    }
  }

  lemma ListsEmpty(order: seq<Job>, m: map<JobId, Job>)
    requires Lists(order, m)
    ensures order == [] <==> m == map[]
  {
    if order != [] {
      assert order[0] in order;
    }
  }

  lemma GreatestLeads(order: seq<Job>, m: map<JobId, Job>, job: Job)
    requires Lists(order, m) && Descending(order)
    requires job.id in m && m[job.id] == job
    ensures order != [] && (order[0] == job || Outranks(order[0], job))
  {
    assert m[job.id] in order;
    var i :| 0 <= i < |order| && order[i] == job;
  }

  /** Under a sound order there is only one descending enumeration: what a heap serves is fixed by
      its contents. */
  lemma {:induction false} DescendingIsUnique(a: seq<Job>, b: seq<Job>, m: map<JobId, Job>)
    requires Lists(a, m) && Lists(b, m) && Descending(a) && Descending(b)
    ensures a == b
    decreases |a|
  {
    ListsEmpty(a, m);
    ListsEmpty(b, m);
    if a != [] {
      assert a[0] in a;
      GreatestLeads(b, m, a[0]);
      assert b[0] in b;
      GreatestLeads(a, m, b[0]);
      assert a[0] == b[0];
      ListsTail(a, m);
      ListsTail(b, m);
      DescendingIsUnique(a[1..], b[1..], m - {a[0].id});
    }
  }

  lemma ListsTail(order: seq<Job>, m: map<JobId, Job>)
    requires Lists(order, m) && order != []
    ensures Lists(order[1..], m - {order[0].id})
  {
    var rest := m - {order[0].id};
    forall id | id in rest
      ensures m[id] in order[1..]
    {
      var i :| 0 <= i < |order| && order[i] == m[id];
      assert order[0] in order;
      assert i > 0 && order[1..][i - 1] == m[id];
    }
    forall j | j in order[1..]
      ensures j.id in rest && rest[j.id] == j
    {
      assert j in order;
    }
  }

  /** Due, alive and in no group. */
  predicate Serves(job: Job, now: nat) {
    job.runAt <= now && (job.ttl == 0 || now <= job.createdAt + job.ttl) && job.groupId.None?
  }

  /** One attempt on a queue of such jobs takes the first. */
  lemma ServesNext(q: QueueView, order: seq<Job>, now: nat)
    requires q.order == order && (order != [] ==> q.Admits()) && forall j | j in order :: Serves(j, now)
    ensures var one := PullOnce(q, now);
            if order == [] then one == Pulled([], q)
            else one == Pulled([Started(order[0], now)],
                               q.(limiter := if q.limiter.Some? then Some(q.limiter.value.Acquire()) else None,
                                  order := order[1..]))
  {
    assert order != [] ==> order[0] in order;
  }

  /** Service order: jobs that are all ready, unexpired and ungrouped leave the queue exactly in the
      descending order of their ranks, one per pull, until the heap is empty. */
  lemma {:induction false} ServedInOrder(q: QueueView, now: nat)
    requires !q.paused && (q.limiter.Some? ==> |q.order| <= q.limiter.value.Free())
    requires forall j | j in q.order :: Serves(j, now)
    ensures var r := PullRepeatedly(q, now, |q.order|);
            && r.queue.order == [] && |r.jobs| == |q.order|
            && forall i | 0 <= i < |q.order| :: r.jobs[i] == q.order[i].(startedAt := now, lastHeartbeat := now)
    decreases |q.order|
  {
    if q.order != [] {
      ServesNext(q, q.order, now);
      hide PullOnce, Serves;
      ServedInOrder(PullOnce(q, now).queue, now);
    }
  }

  /** `a` is served before `b`, in a caller's terms. */
  predicate Precedes(a: Job, b: Job, lifo: bool) {
    || a.priority > b.priority
    || (a.priority == b.priority && a.runAt < b.runAt)
    || (a.priority == b.priority && a.runAt == b.runAt && if lifo then a.id > b.id else a.id < b.id)
  }

  /** What descending means to a caller when all jobs share one `lifo` flag. */
  lemma DescendingByFlag(order: seq<Job>, lifo: bool, i: nat, k: nat)
    requires Descending(order) && i < k < |order|
    requires forall j | j in order :: j.lifo == lifo
    ensures Precedes(order[i], order[k], lifo)
  {
    assert order[i] in order && order[k] in order && Outranks(order[i], order[k]);
  }

  // ---- The loops of the source ----

  /** `popped` went from contents `all` to contents `left`, each job once. */
  ghost predicate Removed(popped: seq<Job>, all: map<JobId, Job>, left: map<JobId, Job>) {
    && left.Keys <= all.Keys
    && (forall id | id in left :: left[id] == all[id])
    && (forall j | j in popped :: j.id in all && all[j.id] == j && j.id !in left)
    && (forall id | id in all && id !in left :: all[id] in popped)
    && Distinct(popped)
  }

  ghost predicate AboveRest(popped: seq<Job>, left: map<JobId, Job>) {
    Descending(popped) && forall j, id | j in popped && id in left :: Outranks(j, left[id])
  }

  lemma RemovedStep(popped: seq<Job>, all: map<JobId, Job>, left: map<JobId, Job>, job: Job)
    requires Keyed(all) && Removed(popped, all, left) && job.id in left && left[job.id] == job
    ensures Removed(popped + [job], all, left - {job.id})
    ensures AboveRest(popped, left) && (forall id | id in left :: AtLeast(job.Ranking(), left[id].Ranking()))
            ==> AboveRest(popped + [job], left - {job.id})
  {
    var popped' := popped + [job];
    hide Outranks, AtLeast;
    assert forall j :: j in popped' <==> j in popped || j == job;
    assert forall i | 0 <= i < |popped| :: popped'[i] == popped[i] && popped[i] in popped;
    RanksOn(popped, left, job);
  }

  lemma RanksOn(popped: seq<Job>, left: map<JobId, Job>, job: Job)
    requires job.id in left && left[job.id] == job && forall id | id in left :: left[id].id == id
    ensures AboveRest(popped, left) && (forall id | id in left :: AtLeast(job.Ranking(), left[id].Ranking()))
            ==> AboveRest(popped + [job], left - {job.id})
  {
    var popped' := popped + [job];
    assert forall j :: j in popped' <==> j in popped || j == job;
    assert forall i | 0 <= i < |popped| :: popped'[i] == popped[i] && popped[i] in popped;
  }

  lemma RemovedJoin(popped: seq<Job>, tail: seq<Job>, all: map<JobId, Job>, left: map<JobId, Job>)
    requires Keyed(all) && Removed(popped, all, left) && Lists(tail, left)
    ensures Lists(popped + tail, all)
    ensures AboveRest(popped, left) && Descending(tail) ==> Descending(popped + tail)
  {
    var order := popped + tail;
    forall i, k | 0 <= i < k < |order|
      ensures order[i].id != order[k].id
      ensures AboveRest(popped, left) && Descending(tail) ==> Outranks(order[i], order[k])
    {
      assert order[i] in order && order[k] in order;
      if i < |popped| <= k {
        assert order[i] in popped && order[k] in tail;
      }
    }
    forall id | id in all
      ensures all[id] in order
    {
      if id in left {
        assert left[id] in tail;
      } else {
        assert all[id] in popped;
      }
    }
  }
}
