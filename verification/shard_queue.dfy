/** The pull loops of one queue, on a real priority queue (engine/src/queue/pull.rs). */
module ShardQueues {
  import opened Protocol
  import opened PriorityQueue
  import opened Pull

  lemma {:induction false} UnexpiredAppend(jobs: seq<Job>, job: Job, now: nat)
    ensures Unexpired(jobs + [job], now) == Unexpired(jobs, now) + if job.IsExpired(now) then [] else [job]
  {
    if jobs == [] {
      assert jobs + [job] == [job];
    } else {
      UnexpiredAppend(jobs[1..], job, now);
      assert (jobs + [job])[1..] == jobs[1..] + [job];
    }
  }

  lemma {:induction false} UnexpiredWithin(jobs: seq<Job>, now: nat)
    requires Distinct(jobs)
    ensures forall j | j in Unexpired(jobs, now) :: j in jobs
    ensures Distinct(Unexpired(jobs, now))
    ensures Descending(jobs) ==> Descending(Unexpired(jobs, now))
  {
    if jobs != [] {
      var rest := Unexpired(jobs[1..], now);
      UnexpiredWithin(jobs[1..], now);
      if !jobs[0].IsExpired(now) {
        assert Unexpired(jobs, now) == [jobs[0]] + rest;
        forall i | 0 <= i < |rest|
          ensures jobs[0].id != rest[i].id
          ensures Descending(jobs) ==> Outranks(jobs[0], rest[i])
        {
          assert rest[i] in rest;
          var k :| 0 <= k < |jobs[1..]| && jobs[1..][k] == rest[i];
          assert jobs[k + 1] == rest[i];
        }
      }
    }
  }

  /** How far a scan has come: from contents `all` down to `left`. */
  ghost predicate Scanning(passed: seq<Job>, skipped: seq<Job>, all: map<JobId, Job>, left: map<JobId, Job>,
                           ranks: set<Rank>, active: set<string>, now: nat) {
    && Keyed(all) && RanksIn(all) <= ranks && Removed(passed, all, left)
    && (Orderly(ranks) ==> AboveRest(passed, left))
    && (forall j | j in passed :: Passed(j, active, now))
    && skipped == Unexpired(passed, now)
  }

  lemma ScanningStep(passed: seq<Job>, skipped: seq<Job>, all: map<JobId, Job>, left: map<JobId, Job>,
                     ranks: set<Rank>, active: set<string>, now: nat, job: Job)
    requires Scanning(passed, skipped, all, left, ranks, active, now)
    requires job.id in left && left[job.id] == job && Passed(job, active, now)
    requires Orderly(ranks) ==> forall id | id in left :: AtLeast(job.Ranking(), left[id].Ranking())
    ensures Scanning(passed + [job], if job.IsExpired(now) then skipped else skipped + [job], all, left - {job.id},
                     ranks, active, now)
  {
    RemovedStep(passed, all, left, job);
    UnexpiredAppend(passed, job, now);
    hide Removed, AboveRest, Unexpired, Orderly, Keyed;
  }

  /** How a scan ends. `passed + rest` is the order in which the heap yields contents `all`: the passed jobs
      are expired or of a busy group, those not expired are to be put back; it holds the first of `rest`, or
      that one is not due, or there is none; and the others of `rest` are in the heap. */
  ghost predicate ScanEnded(found: Option<Job>, skipped: seq<Job>, passed: seq<Job>, rest: seq<Job>,
                            all: map<JobId, Job>, left: map<JobId, Job>, ranks: set<Rank>, active: set<string>,
                                now: nat) {
    && Lists(passed + rest, all) && (Orderly(ranks) ==> Descending(passed + rest))
    && skipped == Unexpired(passed, now)
    && (forall j | j in passed :: Passed(j, active, now) && j.id !in left && j.Ranking() in ranks)
    && (if found.Some? then
          rest != [] && rest[0] == found.value && Eligible(rest[0], active, now) && Lists(rest[1..], left)
        else
          (rest == [] || (!rest[0].IsExpired(now) && !rest[0].IsReady(now))) && Lists(rest, left))
  }

  lemma ScanningAll(passed: seq<Job>, skipped: seq<Job>, all: map<JobId, Job>, ranks: set<Rank>, active: set<string>,
                    now: nat) returns (rest: seq<Job>)
    requires Scanning(passed, skipped, all, map[], ranks, active, now)
    ensures ScanEnded(None, skipped, passed, rest, all, map[], ranks, active, now)
  {
    rest := [];
    AllRemoved(passed, all, ranks);
    hide Removed, Descending, AboveRest, Lists;
  }

  lemma ScanningEnds(passed: seq<Job>, skipped: seq<Job>, all: map<JobId, Job>, left: map<JobId, Job>,
                     ranks: set<Rank>, active: set<string>, now: nat, job: Job) returns (rest: seq<Job>)
    requires Scanning(passed, skipped, all, left, ranks, active, now)
    requires job.id in left && left[job.id] == job && !Passed(job, active, now)
    requires Orderly(ranks) ==> forall id | id in left :: AtLeast(job.Ranking(), left[id].Ranking())
    ensures job.IsReady(now) ==> ScanEnded(Some(job), skipped, passed, rest, all, left - {job.id}, ranks, active, now)
    ensures !job.IsReady(now) ==> ScanEnded(None, skipped, passed, rest, all, left, ranks, active, now)
  {
    hide Lists, Descending, Removed, AboveRest, RanksIn, Keyed, Unexpired;
    RemovedFacts(passed, all, left, ranks);
    rest := RestOrder(passed, job, all, left, ranks);
  }

  /** That many slots taken. */
  function Charged(limiter: Option<Limiter>, slots: nat): Option<Limiter> {
    if limiter.None? then None else Some(limiter.value.(current := limiter.value.current + slots))
  }

  /** `jobs` are the first of `order`, taken one by one, and `left` are the rest. */
  ghost predicate Drains(order: seq<Job>, jobs: seq<Job>, left: seq<Job>, was: Option<Limiter>,
                         limiter: Option<Limiter>,
                         active: set<string>, now: nat) {
    && |jobs| <= |order| && left == order[|jobs|..]
    && (forall i | 0 <= i < |jobs| :: jobs[i] == Started(order[i], now))
    && Descending(order) && (forall j | j in order :: Serves(j, now))
    && limiter == Charged(was, |jobs|) && (was.Some? ==> |order| <= was.value.Free())
  }

  lemma DrainsNext(order: seq<Job>, jobs: seq<Job>, left: seq<Job>, was: Option<Limiter>, limiter: Option<Limiter>,
                   active: set<string>, now: nat)
    requires Drains(order, jobs, left, was, limiter, active, now)
    ensures Descending(left) && forall j | j in left :: Serves(j, now)
    ensures limiter.Some? && left != [] ==> limiter.value.HasSlot()
    ensures left != [] ==>
              Drains(order, jobs + [Started(left[0], now)], left[1..], was, Charged(limiter, 1), active, now)
  {
    SuffixDescends(order, |jobs|);
    hide Descending, Serves;
  }

  lemma DrainsMeans(order: seq<Job>, jobs: seq<Job>, was: Option<Limiter>, limiter: Option<Limiter>,
                    active: set<string>, now: nat)
    requires Drains(order, jobs, [], was, limiter, active, now)
    ensures |jobs| == |order|
    ensures forall i | 0 <= i < |jobs| :: jobs[i] == order[i].(startedAt := now, lastHeartbeat := now)
    ensures limiter == Charged(was, |jobs|)
  {
  }

  lemma SuffixDescends(order: seq<Job>, n: nat)
    requires Descending(order) && n <= |order|
    ensures Descending(order[n..])
  {
  }

  lemma {:induction false} ListingLength(order: seq<Job>, m: map<JobId, Job>)
    requires Lists(order, m)
    ensures |order| == |m|
    decreases |order|
  {
    ListsEmpty(order, m);
    if order != [] {
      ListsTail(order, m);
      assert order[0] in order;
      TakeOut(m, order[0]);
      hide Lists;
      ListingLength(order[1..], m - {order[0].id});
    }
  }

  class ShardQueue {
    const heap: IndexedPriorityQueue
    var paused: bool
    var limiter: Option<Limiter>
    var active: set<string>

    ghost predicate Valid()
      reads this, heap
    {
      heap.Valid()
    }

    /** `q` is this queue, with its jobs enumerated in some order. */
    ghost predicate Shows(q: QueueView)
      reads this, heap
    {
      q.paused == paused && q.limiter == limiter && q.active == active && Lists(q.order, heap.Contents())
    }

    constructor ()
      ensures Valid() && fresh(heap) && Shows(QueueView(false, None, {}, []))
    {
      heap := new IndexedPriorityQueue();
      paused, limiter, active := false, None, {};
    }

    /** Puts skipped jobs back. */
    method PushAll(jobs: seq<Job>, ghost order: seq<Job>, ghost bound: set<Rank>)
      requires Valid() && Lists(order, heap.Contents()) && heap.Ranks() <= bound
      requires Distinct(jobs) && forall j | j in jobs :: j.id !in heap.Contents() && j.Ranking() in bound
      modifies heap
      ensures Valid() && Lists(jobs + order, heap.Contents()) && heap.Ranks() <= bound
    {
      ghost var before := heap.Contents();
      assert order + jobs[..0] == order;
      for i := 0 to |jobs|
        invariant Valid() && heap.Ranks() <= bound
        invariant Lists(order + jobs[..i], heap.Contents())
        invariant forall k | i <= k < |jobs| :: jobs[k].id !in heap.Contents()
      {
        ExtendListing(order, jobs, i, heap.Contents());
        assert jobs[i] in jobs;
        heap.Push(jobs[i]);
      }
      assert jobs[..|jobs|] == jobs;
      ListsSwap(order, jobs, heap.Contents());
    }

    /** The scan loop of `pull`: pops until it holds an eligible job, meets one that is not due
        (which goes back), or runs dry. `passed + rest` is the order in which the heap yields. */
    method ScanHeap(now: nat)
        returns (found: Option<Job>, skipped: seq<Job>, ghost passed: seq<Job>, ghost rest: seq<Job>)
      requires Valid()
      modifies heap
      ensures Valid() && heap.Ranks() <= old(heap.Ranks())
      ensures ScanEnded(found, skipped, passed, rest, old(heap.Contents()), heap.Contents(), old(heap.Ranks()),
                        active, now)
    {
      ghost var all, ranks := heap.Contents(), heap.Ranks();
      heap.RanksCover();
      skipped, passed := [], [];
      NothingRemoved(all);
      assert Scanning(passed, skipped, all, all, ranks, active, now);
      hide Lists, Scanning, ScanEnded, Descending, Orderly, Unexpired, Passed, Eligible, Busy;
      hide Job.IsExpired, Job.IsReady;
      hide IndexedPriorityQueue.Contents, IndexedPriorityQueue.Valid, IndexedPriorityQueue.Ranks;
      while true
        invariant Valid() && heap.Ranks() <= ranks
        invariant Scanning(passed, skipped, all, heap.Contents(), ranks, active, now)
        decreases |heap.Contents()|
      {
        ghost var left := heap.Contents();
        OrderlySubset(heap.Ranks(), ranks);
        var popped := heap.Pop();
        if popped.None? {
          rest := ScanningAll(passed, skipped, all, ranks, active, now);
          return None, skipped, passed, rest;
        }
        var job := popped.value;
        TakeOut(left, job);
        if Passed(job, active, now) {
          ScanningStep(passed, skipped, all, left, ranks, active, now, job);
          passed := passed + [job];
          if !job.IsExpired(now) {
            skipped := skipped + [job];
          }
        } else {
          rest := ScanningEnds(passed, skipped, all, left, ranks, active, now, job);
          if job.IsReady(now) {
            return Some(job), skipped, passed, rest;
          }
          heap.Push(job);
          assert heap.Contents() == left;
          return None, skipped, passed, rest;
        }
      }
    }

    /** The scan with the skipped jobs put back and the winner's group marked. */
    method TakeNext(now: nat) returns (found: Option<Job>, ghost order: seq<Job>)
      requires Valid()
      modifies heap, `active
      ensures Valid() && heap.Ranks() <= old(heap.Ranks())
      ensures Lists(order, old(heap.Contents()))
      ensures Lists(Scan(order, old(active), now).kept, heap.Contents())
      ensures found == Scan(order, old(active), now).found
      ensures active == if found.Some? then Claim(found.value, old(active)) else old(active)
      ensures Orderly(old(heap.Ranks())) ==> Descending(order)
    {
      var job, skipped, passed, rest := ScanHeap(now);
      order := passed + rest;
      ScanPasses(passed, rest, active, now);
      ScanStops(rest, active, now);
      PassedFacts(passed, rest, old(heap.Contents()), now);
      hide Lists, Distinct, Descending, Orderly, Unexpired, Scan, Passed, Eligible;
      hide IndexedPriorityQueue.Contents, IndexedPriorityQueue.Valid, IndexedPriorityQueue.Ranks;
      PushAll(skipped, if job.Some? then rest[1..] else rest, old(heap.Ranks()));
      if job.Some? {
        active := Claim(job.value, active);
        found := Some(Started(job.value, now));
      } else {
        found := None;
      }
    }

    /** One attempt of `pull`. `before` is the queue as the heap was about to yield it. */
    method Pull(now: nat) returns (result: Option<Job>, ghost before: QueueView)
      requires Valid()
      modifies this, heap
      ensures Valid()
      ensures old(Shows(before)) && Shows(PullOnce(before, now).queue)
      ensures PullOnce(before, now).jobs == if result.Some? then [result.value] else []
      ensures exists n :: Attempted(before, PullOnce(before, now), now, n)
      ensures Orderly(old(heap.Ranks())) ==> Descending(before.order) && Orderly(heap.Ranks())
    {
      hide Lists, Descending, Orderly, Scan, Attempted, IndexedPriorityQueue.Contents;
      if paused || (limiter.Some? && !limiter.value.HasSlot()) {
        before := ViewExists();
        ghost var n := AttemptExplained(before, now);
        return None, before;
      }
      if limiter.Some? {
        limiter := Some(limiter.value.Acquire());
      }
      ghost var order;
      result, order := TakeNext(now);
      before := QueueView(paused, old(limiter), old(active), order);
      ghost var n := AttemptExplained(before, now);
      OrderlySubset(heap.Ranks(), old(heap.Ranks()));
      if result.None? && limiter.Some? {
        limiter := Some(limiter.value.Release());
      }
    }

    /** Pulls until nothing is found. On jobs of one `lifo` flag that are ready, unexpired and ungrouped, and
        with a slot for each, this empties the heap in service order: by priority, then run time, then id. */
    method Drain(now: nat, ghost lifo: bool) returns (jobs: seq<Job>, ghost order: seq<Job>)
      requires Valid() && !paused
      requires forall rank | rank in heap.Ranks() :: rank.lifo == lifo
      requires limiter.Some? ==> |heap.Contents()| <= limiter.value.Free()
      requires forall id | id in heap.Contents() :: Serves(heap.Contents()[id], now)
      modifies this, heap
      ensures Valid() && heap.Contents() == map[] && active == old(active)
      ensures Lists(order, old(heap.Contents()))
      ensures forall i, k | 0 <= i < k < |order| :: Precedes(order[i], order[k], lifo)
      ensures |jobs| == |order|
      ensures forall i | 0 <= i < |order| :: jobs[i] == order[i].(startedAt := now, lastHeartbeat := now)
      ensures limiter == Charged(old(limiter), |jobs|)
    {
      order := DrainOrder(lifo, now);
      UniformLifoIsOrderly(heap.Ranks(), lifo);
      jobs := [];
      ghost var was, groups, left := limiter, active, order;
      assert Drains(order, jobs, left, was, limiter, groups, now);
      hide Lists, Descending, Orderly, Precedes, Serves, Drains, Charged, Started;
      hide IndexedPriorityQueue.Contents, IndexedPriorityQueue.Valid, IndexedPriorityQueue.Ranks;
      var going := true;
      while going
        invariant Valid() && !paused && active == groups && Orderly(heap.Ranks())
        invariant Drains(order, jobs, left, was, limiter, groups, now) && Lists(left, heap.Contents())
        invariant !going ==> left == []
        decreases |left|, going
      {
        DrainsNext(order, jobs, left, was, limiter, groups, now);
        var result := DrainOne(left, now);
        if result.None? {
          going := false;
        } else {
          jobs, left := jobs + [result.value], left[1..];
        }
      }
      DrainsMeans(order, jobs, was, limiter, groups, now);
      ListsEmpty([], heap.Contents());
    }

    /** One pull, when it is known what the heap has to yield. */
    method DrainOne(ghost left: seq<Job>, now: nat) returns (result: Option<Job>)
      requires Valid() && !paused && Orderly(heap.Ranks())
      requires Lists(left, heap.Contents()) && Descending(left)
      requires limiter.Some? && left != [] ==> limiter.value.HasSlot()
      requires forall j | j in left :: Serves(j, now)
      modifies this, heap
      ensures Valid() && !paused && active == old(active) && Orderly(heap.Ranks())
      ensures result == if left == [] then None else Some(Started(left[0], now))
      ensures Lists(if left == [] then [] else left[1..], heap.Contents())
      ensures limiter == if left == [] then old(limiter) else Charged(old(limiter), 1)
    {
      hide Lists, Descending, Orderly, Serves, IndexedPriorityQueue.Contents, IndexedPriorityQueue.Valid;
      hide IndexedPriorityQueue.Ranks;
      ghost var contents := heap.Contents();
      ghost var before;
      result, before := Pull(now);
      DescendingIsUnique(before.order, left, contents);
      ServesNext(before, left, now);
      hide PullOnce;
    }

    /** What the heap will serve, in order. */
    lemma DrainOrder(lifo: bool, now: nat) returns (order: seq<Job>)
      requires Valid()
      requires forall rank | rank in heap.Ranks() :: rank.lifo == lifo
      requires forall id | id in heap.Contents() :: Serves(heap.Contents()[id], now)
      ensures Lists(order, heap.Contents()) && Descending(order) && |order| == |heap.Contents()|
      ensures forall i, k | 0 <= i < k < |order| :: Precedes(order[i], order[k], lifo)
      ensures forall j | j in order :: Serves(j, now)
    {
      heap.RanksCover();
      UniformLifoIsOrderly(RanksIn(heap.Contents()), lifo);
      order := ListingExists(heap.Contents());
      forall i, k | 0 <= i < k < |order|
        ensures Precedes(order[i], order[k], lifo)
      {
        assert forall j | j in order :: j.lifo == j.Ranking().lifo && j.Ranking() in heap.Ranks();
        DescendingByFlag(order, lifo, i, k);
      }
      ListingLength(order, heap.Contents());
    }

    lemma ViewExists() returns (q: QueueView)
      requires Valid()
      ensures Shows(q) && (Orderly(heap.Ranks()) ==> Descending(q.order))
    {
      heap.RanksCover();
      assert RanksIn(heap.Contents()) <= heap.Ranks();
      OrderlySubset(RanksIn(heap.Contents()), heap.Ranks());
      var order := ListingExists(heap.Contents());
      q := QueueView(paused, limiter, active, order);
    }

    /** The scan loop of `pull_batch_nowait`. */
    method ScanHeapBatch(now: nat, slots: nat)
      returns (jobs: seq<Job>, skipped: seq<Job>, ghost consumed: seq<Job>, ghost rest: seq<Job>)
      requires Valid()
      modifies heap
      ensures Valid() && heap.Ranks() <= old(heap.Ranks())
      ensures Lists(consumed + rest, old(heap.Contents())) && Lists(rest, heap.Contents())
      ensures Orderly(old(heap.Ranks())) ==> Descending(consumed + rest)
      ensures Consumes(consumed, active, now, slots)
      ensures ScanBatch(consumed, active, now, slots) == BatchScanned(jobs, skipped, active + GroupsOf(jobs))
      ensures |jobs| == slots || rest == [] || (!rest[0].IsExpired(now) && !rest[0].IsReady(now))
      ensures forall j | j in consumed :: j.id !in heap.Contents() && j.Ranking() in old(heap.Ranks())
    {
      ghost var scan := BatchLoop(heap.Contents(), heap.Ranks(), active, now, slots);
      heap.RanksCover();
      jobs, skipped, consumed := [], [], [];
      var newlyActivated: set<string> := {};
      assert Progress(scan, consumed, jobs, skipped, newlyActivated, heap.Contents());
      hide Lists, Orderly, Descending, Progress, ScanBatch, Consumes, GroupsOf, Claim;
      hide IndexedPriorityQueue.Contents, IndexedPriorityQueue.Valid, IndexedPriorityQueue.Ranks;
      while |jobs| < slots
        invariant Valid() && heap.Ranks() <= scan.ranks && |jobs| <= slots
        invariant Progress(scan, consumed, jobs, skipped, newlyActivated, heap.Contents())
        decreases |heap.Contents()|
      {
        ghost var left := heap.Contents();
        OrderlySubset(heap.Ranks(), scan.ranks);
        var popped := heap.Pop();
        if popped.None? {
          break;
        }
        var job := popped.value;
        TakeOut(left, job);
        if !job.IsExpired(now) && !job.IsReady(now) {
          rest := ProgressBlocked(scan, consumed, jobs, skipped, newlyActivated, left, job);
          heap.Push(job);
          return jobs, skipped, consumed, rest;
        }
        ProgressStep(scan, consumed, jobs, skipped, newlyActivated, left, job);
        consumed := consumed + [job];
        if job.IsExpired(now) {
          continue;
        }
        if Busy(job, active + newlyActivated) {
          skipped := skipped + [job];
          continue;
        }
        newlyActivated := Claim(job, newlyActivated);
        jobs := jobs + [Started(job, now)];
      }
      rest := ProgressEnd(scan, consumed, jobs, skipped, newlyActivated, heap.Contents());
    }

    /** The locked part of a batch once it has `slots` slots: scan, put back, mark the groups. */
    method TakeUpTo(now: nat, slots: nat) returns (jobs: seq<Job>, ghost order: seq<Job>)
      requires Valid()
      modifies heap, `active
      ensures Valid() && heap.Ranks() <= old(heap.Ranks())
      ensures Lists(order, old(heap.Contents()))
      ensures Lists(ScanBatch(order, old(active), now, slots).kept, heap.Contents())
      ensures jobs == ScanBatch(order, old(active), now, slots).jobs && |jobs| <= slots
      ensures active == ScanBatch(order, old(active), now, slots).active
      ensures Orderly(old(heap.Ranks())) ==> Descending(order)
    {
      hide Lists, Distinct, Descending, Orderly, ScanBatch, Consumes, GroupsOf;
      hide IndexedPriorityQueue.Contents, IndexedPriorityQueue.Valid, IndexedPriorityQueue.Ranks;
      var skipped;
      ghost var consumed, rest;
      jobs, skipped, consumed, rest := ScanHeapBatch(now, slots);
      order := consumed + rest;
      BatchPasses(consumed, rest, active, now, slots);
      BatchSkips(consumed, rest, old(heap.Contents()), active, now, slots);
      BatchStops(rest, active + GroupsOf(jobs), now, slots - |jobs|);
      PushAll(skipped, rest, old(heap.Ranks()));
      MarkGroups(jobs);
    }

    method MarkGroups(jobs: seq<Job>)
      modifies `active
      ensures active == old(active) + GroupsOf(jobs)
    {
      for i := 0 to |jobs|
        invariant active == old(active) + GroupsOf(jobs[..i])
      {
        assert jobs[..i + 1] == jobs[..i] + [jobs[i]];
        active := Claim(jobs[i], active);
      }
      assert jobs[..|jobs|] == jobs;
    }

    /** `pull_batch_nowait`, and one attempt of `pull_batch`. */
    method PullBatchNowait(count: nat, now: nat) returns (jobs: seq<Job>, ghost before: QueueView)
      requires Valid()
      modifies this, heap
      ensures Valid()
      ensures old(Shows(before)) && Shows(PullRepeatedly(before, now, count).queue)
      ensures jobs == PullRepeatedly(before, now, count).jobs
      ensures BatchAttempted(before, PullRepeatedly(before, now, count), now, count)
      ensures Orderly(old(heap.Ranks())) ==> Descending(before.order) && Orderly(heap.Ranks())
    {
      hide Lists, Descending, Orderly, ScanBatch, PullRepeatedly, BatchAttempted, IndexedPriorityQueue.Contents;
      if paused {
        before := ViewExists();
        BatchRefinesSingle(before, now, count);
        BatchExplained(before, now, count);
        return [], before;
      }
      var slots := count;
      if limiter.Some? {
        slots := AcquireUpTo(count);
      }
      if slots == 0 {
        before := ViewExists();
        BatchRefinesSingle(before, now, count);
        BatchExplained(before, now, count);
        return [], before;
      }
      ghost var order;
      jobs, order := TakeUpTo(now, slots);
      before := QueueView(paused, old(limiter), old(active), order);
      BatchRefinesSingle(before, now, count);
      BatchExplained(before, now, count);
      OrderlySubset(heap.Ranks(), old(heap.Ranks()));
      if limiter.Some? && |jobs| < slots {
        for i := 0 to slots - |jobs|
          invariant limiter == Some(old(limiter).value.(current := old(limiter).value.current + slots - i))
          modifies `limiter
        {
          limiter := Some(limiter.value.Release());
        }
      }
    }

    /** Slots for a whole batch. */
    method AcquireUpTo(count: nat) returns (slots: nat)
      requires limiter.Some?
      modifies `limiter
      ensures slots == Min(count, old(limiter).value.Free())
      ensures limiter == Some(old(limiter).value.(current := old(limiter).value.current + slots))
    {
      slots := 0;
      while slots < count && limiter.value.HasSlot()
        invariant limiter == Some(old(limiter).value.(current := old(limiter).value.current + slots))
        invariant slots <= count && slots <= old(limiter).value.Free()
      {
        limiter := Some(limiter.value.Acquire());
        slots := slots + 1;
      }
    }
  }

  /** What a batch scan starts from. */
  datatype BatchLoop = BatchLoop(all: map<JobId, Job>, ranks: set<Rank>, active: set<string>, now: nat, slots: nat)

  /** The invariant of the batch loop. */
  ghost predicate Progress(s: BatchLoop, consumed: seq<Job>, jobs: seq<Job>, skipped: seq<Job>, newly: set<string>,
                           left: map<JobId, Job>)
  {
    && Keyed(s.all) && RanksIn(s.all) <= s.ranks
    && Removed(consumed, s.all, left)
    && (Orderly(s.ranks) ==> AboveRest(consumed, left))
    && |jobs| <= s.slots && Consumes(consumed, s.active, s.now, s.slots)
    && ScanBatch(consumed, s.active, s.now, s.slots) == BatchScanned(jobs, skipped, s.active + newly)
    && newly == GroupsOf(jobs)
  }

  lemma ProgressStep(s: BatchLoop, consumed: seq<Job>, jobs: seq<Job>, skipped: seq<Job>, newly: set<string>,
                     left: map<JobId, Job>, job: Job)
    requires Progress(s, consumed, jobs, skipped, newly, left) && |jobs| < s.slots
    requires job.id in left && left[job.id] == job
    requires Orderly(s.ranks) ==> forall id | id in left :: AtLeast(job.Ranking(), left[id].Ranking())
    requires job.IsExpired(s.now) || job.IsReady(s.now)
    ensures var consumed', left' := consumed + [job], left - {job.id};
            if job.IsExpired(s.now) then Progress(s, consumed', jobs, skipped, newly, left')
            else if Busy(job, s.active + newly) then Progress(s, consumed', jobs, skipped + [job], newly, left')
            else Progress(s, consumed', jobs + [Started(job, s.now)], skipped, Claim(job, newly), left')
  {
    RemovedStep(consumed, s.all, left, job);
    BatchStep(consumed, job, s.active, s.now, s.slots);
    BatchGroups(jobs, newly, job, s.active, s.now);
    hide Removed, AboveRest, Orderly, Consumes, ScanBatch, GroupsOf, Claim;
  }

  lemma ProgressBlocked(s: BatchLoop, consumed: seq<Job>, jobs: seq<Job>, skipped: seq<Job>, newly: set<string>,
                        left: map<JobId, Job>, job: Job) returns (rest: seq<Job>)
    requires Progress(s, consumed, jobs, skipped, newly, left)
    requires job.id in left && left[job.id] == job
    requires Orderly(s.ranks) ==> forall id | id in left :: AtLeast(job.Ranking(), left[id].Ranking())
    ensures rest != [] && rest[0] == job && Lists(rest, left) && Lists(consumed + rest, s.all)
    ensures Orderly(s.ranks) ==> Descending(consumed + rest)
    ensures Progress(s, consumed, jobs, skipped, newly, left)
    ensures Consumes(consumed, s.active, s.now, s.slots)
    ensures ScanBatch(consumed, s.active, s.now, s.slots) == BatchScanned(jobs, skipped, s.active + GroupsOf(jobs))
    ensures forall j | j in consumed :: j.id !in left && j.Ranking() in s.ranks
  {
    hide Lists, Removed, AboveRest, Descending, Orderly, Consumes, ScanBatch, GroupsOf, Distinct;
    rest := RestOrder(consumed, job, s.all, left, s.ranks);
    RemovedFacts(consumed, s.all, left, s.ranks);
  }

  lemma ProgressEnd(s: BatchLoop, consumed: seq<Job>, jobs: seq<Job>, skipped: seq<Job>, newly: set<string>,
                    left: map<JobId, Job>) returns (rest: seq<Job>)
    requires Progress(s, consumed, jobs, skipped, newly, left)
    ensures Lists(rest, left) && Lists(consumed + rest, s.all) && (left == map[] ==> rest == [])
    ensures Orderly(s.ranks) ==> Descending(consumed + rest)
    ensures Consumes(consumed, s.active, s.now, s.slots)
    ensures ScanBatch(consumed, s.active, s.now, s.slots) == BatchScanned(jobs, skipped, s.active + GroupsOf(jobs))
    ensures forall j | j in consumed :: j.id !in left && j.Ranking() in s.ranks
  {
    hide Lists, Removed, AboveRest, Descending, Orderly, Consumes, ScanBatch, GroupsOf, Distinct;
    rest := LeftOrder(consumed, s.all, left, s.ranks);
    ListsEmpty(rest, left);
    RemovedFacts(consumed, s.all, left, s.ranks);
  }

  function GroupsOf(jobs: seq<Job>): set<string> {
    set j | j in jobs && j.groupId.Some? :: j.groupId.value
  }

  lemma BatchGroups(jobs: seq<Job>, newly: set<string>, job: Job, active: set<string>, now: nat)
    requires newly == GroupsOf(jobs)
    ensures GroupsOf(jobs + [Started(job, now)]) == Claim(job, newly)
    ensures Claim(job, active + newly) == active + Claim(job, newly)
  {
    assert forall j :: j in jobs + [Started(job, now)] <==> j in jobs || j == Started(job, now);
  }

  lemma BatchStops(rest: seq<Job>, active: set<string>, now: nat, count: nat)
    requires count == 0 || rest == [] || (!rest[0].IsExpired(now) && !rest[0].IsReady(now))
    ensures ScanBatch(rest, active, now, count) == BatchScanned([], rest, active)
  {
  }

  lemma {:induction false} BatchKeeps(jobs: seq<Job>, active: set<string>, now: nat, count: nat)
    requires Distinct(jobs)
    ensures var kept := ScanBatch(jobs, active, now, count).kept;
            Distinct(kept) && forall j | j in kept :: j in jobs
    decreases |jobs|
  {
    if count > 0 && jobs != [] {
      var rest := jobs[1..];
      if Passed(jobs[0], active, now) {
        BatchKeeps(rest, active, now, count);
        var kept := ScanBatch(rest, active, now, count).kept;
        assert forall i | 0 <= i < |kept| :: kept[i] in kept && kept[i] in rest;
      } else if Eligible(jobs[0], active, now) {
        BatchKeeps(rest, Claim(jobs[0], active), now, count - 1);
      }
    }
  }

  lemma BatchSkips(consumed: seq<Job>, rest: seq<Job>, all: map<JobId, Job>, active: set<string>, now: nat, count: nat)
    requires Lists(consumed + rest, all)
    ensures var kept := ScanBatch(consumed, active, now, count).kept;
            Distinct(kept) && forall j | j in kept :: j in consumed
  {
    DistinctPrefix(consumed, rest);
    BatchKeeps(consumed, active, now, count);
  }

  lemma DistinctPrefix(jobs: seq<Job>, rest: seq<Job>)
    requires Distinct(jobs + rest)
    ensures Distinct(jobs)
  {
    forall i, k | 0 <= i < k < |jobs|
      ensures jobs[i].id != jobs[k].id
    {
      assert jobs[i] == (jobs + rest)[i] && jobs[k] == (jobs + rest)[k];
    }
  }

  lemma LeftOrder(passed: seq<Job>, all: map<JobId, Job>, left: map<JobId, Job>, ranks: set<Rank>)
      returns (rest: seq<Job>)
    requires Keyed(all) && Removed(passed, all, left) && RanksIn(all) <= ranks
    requires Orderly(ranks) ==> AboveRest(passed, left)
    ensures Lists(rest, left) && Lists(passed + rest, all)
    ensures Orderly(ranks) ==> Descending(passed + rest)
  {
    SubMap(left, all, passed, left);
    OrderlySubset(RanksIn(left), ranks);
    rest := ListingExists(left);
    RemovedJoin(passed, rest, all, left);
  }

  lemma TakeOut(m: map<JobId, Job>, job: Job)
    requires job.id in m && m[job.id] == job
    ensures |m - {job.id}| + 1 == |m|
    ensures (m - {job.id})[job.id := job] == m
  {
    assert (m - {job.id})[job.id := job] == m;
  }

  lemma NothingRemoved(all: map<JobId, Job>)
    ensures Removed([], all, all) && AboveRest([], all)
  {
  }

  lemma AllRemoved(passed: seq<Job>, all: map<JobId, Job>, ranks: set<Rank>)
    requires Keyed(all) && RanksIn(all) <= ranks && Removed(passed, all, map[])
    requires Orderly(ranks) ==> AboveRest(passed, map[])
    ensures Lists([], map[]) && Lists(passed + [], all)
    ensures Orderly(ranks) ==> Descending(passed + [])
    ensures forall j | j in passed :: j.Ranking() in ranks
  {
    RemovedJoin(passed, [], all, map[]);
    RemovedFacts(passed, all, map[], ranks);
  }

  lemma RemovedFacts(passed: seq<Job>, all: map<JobId, Job>, left: map<JobId, Job>, ranks: set<Rank>)
    requires Removed(passed, all, left) && RanksIn(all) <= ranks
    ensures forall j | j in passed :: j.id !in left && j.Ranking() in ranks
  {
  }

  lemma ScanStops(rest: seq<Job>, active: set<string>, now: nat)
    ensures rest != [] && Eligible(rest[0], active, now) ==>
              Scan(rest, active, now) == Scanned(Some(Started(rest[0], now)), rest[1..])
    ensures rest == [] || (!rest[0].IsExpired(now) && !rest[0].IsReady(now)) ==>
              Scan(rest, active, now) == Scanned(None, rest)
  {
  }

  lemma PassedFacts(passed: seq<Job>, rest: seq<Job>, all: map<JobId, Job>, now: nat)
    requires Lists(passed + rest, all)
    ensures Distinct(Unexpired(passed, now)) && forall j | j in Unexpired(passed, now) :: j in passed
  {
    DistinctPrefix(passed, rest);
    UnexpiredWithin(passed, now);
  }

  lemma SubMap(m: map<JobId, Job>, all: map<JobId, Job>, passed: seq<Job>, left: map<JobId, Job>)
    requires Keyed(all) && Removed(passed, all, left)
    requires m.Keys <= left.Keys && forall id | id in m :: m[id] == left[id]
    ensures Keyed(m) && RanksIn(m) <= RanksIn(all)
  {
  }

  /** Completes the popped prefix and the job after it to an enumeration of the whole heap. */
  lemma RestOrder(passed: seq<Job>, job: Job, all: map<JobId, Job>, left: map<JobId, Job>, ranks: set<Rank>)
    returns (rest: seq<Job>)
    requires Keyed(all) && Removed(passed, all, left)
    requires job.id in left && left[job.id] == job
    requires RanksIn(all) <= ranks
    requires Orderly(ranks) ==> AboveRest(passed, left)
    requires Orderly(ranks) ==> forall id | id in left :: AtLeast(job.Ranking(), left[id].Ranking())
    ensures rest != [] && rest[0] == job
    ensures Lists(rest[1..], left - {job.id}) && Lists(rest, left)
    ensures Lists(passed + rest, all)
    ensures Orderly(ranks) ==> Descending(passed + rest)
  {
    hide Lists, Removed, Descending, AboveRest, Distinct;
    var left' := left - {job.id};
    assert Keyed(left') && RanksIn(left') <= RanksIn(all) by {
      SubMap(left', all, passed, left);
    }
    var tail := ListingExists(left');
    rest := [job] + tail;
    RemovedStep(passed, all, left, job);
    RemovedJoin(passed + [job], tail, all, left');
    assert passed + [job] + tail == passed + rest;
    ListsAppend(tail, left', job);
    assert left'[job.id := job] == left;
    ListsSwap(tail, [job], left);
  }

  lemma ExtendListing(order: seq<Job>, jobs: seq<Job>, i: nat, m: map<JobId, Job>)
    requires i < |jobs| && Lists(order + jobs[..i], m) && jobs[i].id !in m
    ensures Lists(order + jobs[..i + 1], m[jobs[i].id := jobs[i]])
  {
    ListsAppend(order + jobs[..i], m, jobs[i]);
    assert (order + jobs[..i]) + [jobs[i]] == order + jobs[..i + 1];
  }
}
