/** The queue manager with its containers, index and tables (engine/src/queue/manager.rs). Every method
    runs one operation of the source without interruption; it is proved to be a sequence of the engine's
    steps that leaves containers and index in step with the job table. */
module Manager {
  import opened Protocol
  import PriorityQueue
  import opened Pull
  import opened Engine
  import opened Containers
  import opened Operations
  import opened PushBatches
  import opened Promises

  /** Everything the manager keeps. An operation works on the record step by step and puts it back. */
  datatype Books = Books(shelves: Shelves, index: Index, tables: Tables)

  ghost predicate Good(b: Books, hash: Hash, s: State, expired: set<JobId>) {
    b.tables == TablesOf(s) && Consistent(b.shelves, b.index, hash, s, expired)
  }

  // ---- Changes to the books ----

  function Enqueue(b: Books, hash: Hash, job: Job): Books {
    b.(shelves := Insert(b.shelves, hash, Placed(Queued, job)),
       index := b.index[job.id := LocationOf(hash, Placed(Queued, job))])
  }

  function DeadLetter(b: Books, hash: Hash, job: Job): Books {
    b.(shelves := Insert(b.shelves, hash, Placed(Dead, job)),
       index := b.index[job.id := LocationOf(hash, Placed(Dead, job))])
  }

  function TakeOut(b: Books, l: Location, id: JobId): Books {
    b.(shelves := TakeAt(b.shelves, l, id))
  }

  function Write(b: Books, l: Location, job: Job): Books {
    b.(shelves := WriteAt(b.shelves, l, job))
  }

  function Unindex(b: Books, id: JobId): Books {
    b.(index := b.index - {id})
  }

  // ---- Ends of operations ----

  /** What the index leads to. */
  lemma Finds(b: Books, hash: Hash, s: State, expired: set<JobId>, id: JobId)
    requires Good(b, hash, s, expired)
    ensures Retrievable(s, id) <==> id in s.jobs && id !in s.released
    ensures Retrievable(s, id) ==>
              && id in b.index && b.index[id] == LocationOf(hash, s.jobs[id])
              && LookUp(b.shelves, b.index[id], id) == Some(s.jobs[id].job) && s.jobs[id].job.id == id
              && TakeAt(b.shelves, b.index[id], id) == Extract(b.shelves, hash, s.jobs[id])
    ensures !Retrievable(s, id) && id in b.index ==> LookUp(b.shelves, b.index[id], id) == None
    ensures id in s.released ==> At(s, id, Queued)
    ensures id in s.jobs ==> Resting(s.jobs[id].place)
  {
    LookUpMeans(b.shelves, b.index, hash, s, expired, id);
    ConsistentMeans(b.shelves, b.index, hash, s, expired, id);
    hide Consistent, LookUp, TakeAt, Extract, LocationOf, EntryOf;
    if id in s.jobs {
      AtLocation(b.shelves, hash, s.jobs[id]);
    }
  }

  /** A job in processing is found there without the index. */
  lemma FindsActive(b: Books, hash: Hash, s: State, expired: set<JobId>, id: JobId)
    requires Good(b, hash, s, expired)
    ensures LookUp(b.shelves, InProcessing, id) == if At(s, id, Processing) then Some(s.jobs[id].job) else None
    ensures At(s, id, Processing) ==> Active(s, id) && LocationOf(hash, s.jobs[id]) == InProcessing
    ensures At(s, id, Processing) ==> TakeAt(b.shelves, InProcessing, id) == Extract(b.shelves, hash, s.jobs[id])
    ensures id in s.jobs ==> Resting(s.jobs[id].place) && s.jobs[id].job.id == id
    ensures id in s.released ==> At(s, id, Queued)
  {
    LookUpFinds(b.shelves, hash, s.jobs, InProcessing, id);
    ConsistentMeans(b.shelves, b.index, hash, s, expired, id);
    hide Consistent, LookUp, TakeAt, Extract, EntryOf;
    if At(s, id, Processing) {
      AtLocation(b.shelves, hash, s.jobs[id]);
    }
  }

  /** The operation moved job `id`. */
  lemma Moved(b: Books, b': Books, hash: Hash, s: State, expired: set<JobId>, id: JobId, e: Effect, p: Placed)
    requires Good(b, hash, s, expired) && id in s.jobs && id !in s.released && Settles(s, id, e, Some(p))
    requires b'.shelves == Insert(Extract(b.shelves, hash, s.jobs[id]), hash, p)
    requires b'.index == b.index[id := LocationOf(hash, p)]
    requires b'.tables == TablesOf(Apply(s, id, e))
    ensures Good(b', hash, Apply(s, id, e), expired)
  {
    hide Consistent, Apply, Insert, Extract, LocationOf, TablesOf;
    ConsistentMeans(b.shelves, b.index, hash, s, expired, id);
    EffectKeepsConsistent(b.shelves, b.index, hash, s, expired, id, e);
  }

  /** The operation removed job `id` for good. */
  lemma Gone(b: Books, b': Books, hash: Hash, s: State, expired: set<JobId>, id: JobId, e: Effect)
    requires Good(b, hash, s, expired) && id in s.jobs && Settles(s, id, e, None)
    requires b'.shelves == Extract(b.shelves, hash, s.jobs[id]) && b'.index == b.index - {id}
    requires b'.tables == TablesOf(Apply(s, id, e))
    ensures Good(b', hash, Apply(s, id, e), expired)
  {
    hide Consistent, Apply, Extract, TablesOf;
    EffectKeepsConsistent(b.shelves, b.index, hash, s, expired, id, e);
  }

  /** The operation completed job `id`. */
  lemma Done(b: Books, b': Books, hash: Hash, s: State, expired: set<JobId>, id: JobId, e: Effect)
    requires Good(b, hash, s, expired) && id in s.jobs && e.after == None && e.completes && !e.hides
    requires b'.shelves == Extract(b.shelves, hash, s.jobs[id]) && b'.index == b.index[id := InCompleted]
    requires b'.tables == TablesOf(Apply(s, id, e))
    ensures Good(b', hash, Apply(s, id, e), expired)
  {
    hide Consistent, Apply, Extract, TablesOf;
    EffectKeepsConsistent(b.shelves, b.index, hash, s, expired, id, e);
  }

  /** The operation changed job `id` where it is. */
  lemma Rewritten(b: Books, b': Books, hash: Hash, s: State, expired: set<JobId>, id: JobId, e: Effect, p: Placed,
                  l: Location)
    requires Good(b, hash, s, expired) && id in s.jobs && id !in s.released && Settles(s, id, e, Some(p))
    requires p.place == s.jobs[id].place && p.job.queue == s.jobs[id].job.queue
    requires l == LocationOf(hash, s.jobs[id])
    requires b'.shelves == WriteAt(b.shelves, l, p.job) && b'.index == b.index
    requires b'.tables == TablesOf(Apply(s, id, e))
    ensures Good(b', hash, Apply(s, id, e), expired)
  {
    assert LocationOf(hash, p) == l;
    hide Consistent, Apply, Replace, TablesOf, WriteAt, LocationOf;
    AtLocation(b.shelves, hash, p);
    ReplaceKeepsConsistent(b.shelves, b.index, hash, s, expired, id, e, p);
  }

  /** A waiting parent is found in its own shard and in no other. */
  lemma FindsWaiting(b: Books, hash: Hash, s: State, expired: set<JobId>, p: JobId, shard: nat) returns (here: bool)
    requires Good(b, hash, s, expired)
    ensures here == (At(s, p, WaitingChildren) && ShardIndex(hash, s.jobs[p].job.queue) == shard)
    ensures LookUp(b.shelves, InWaitingChildren(shard), p) == if here then Some(s.jobs[p].job) else None
    ensures here ==>
              && TakeAt(b.shelves, InWaitingChildren(shard), p) == Extract(b.shelves, hash, s.jobs[p])
              && s.jobs[p].job.id == p && p !in s.released && LocationOf(hash, s.jobs[p]) == InWaitingChildren(shard)
  {
    here := At(s, p, WaitingChildren) && ShardIndex(hash, s.jobs[p].job.queue) == shard;
    LookUpFinds(b.shelves, hash, s.jobs, InWaitingChildren(shard), p);
    ConsistentMeans(b.shelves, b.index, hash, s, expired, p);
    hide Consistent, LookUp, TakeAt, Extract, EntryOf;
    if here {
      AtLocation(b.shelves, hash, s.jobs[p]);
    }
  }

  lemma TellsParent(parent: Job)
    ensures var told := parent.(childrenCompleted := parent.childrenCompleted + 1);
            && CountEffect(parent).after == Some(Placed(if told.childrenCompleted >= |told.childrenIds| then Queued
                                                        else WaitingChildren, told))
            && told.id == parent.id && told.queue == parent.queue
  {
  }

  /** The steps of a batch ack; `first` is the queue first seen in each shard. */
  ghost function BatchSteps(s: State, hash: Hash, ids: seq<JobId>, first: map<nat, string>): seq<Step>
    decreases |ids|
  {
    if ids == [] then []
    else if !At(s, ids[0], Processing) then BatchSteps(s, hash, ids[1..], first)
    else
      var shard := ShardIndex(hash, s.jobs[ids[0]].job.queue);
      var first' := if shard in first then first else first[shard := s.jobs[ids[0]].job.queue];
      var steps := LeaveBy(ids[0], BatchAck(first'[shard]));
      steps + BatchSteps(Run(s, steps), hash, ids[1..], first')
  }

  lemma BatchHead(s: State, hash: Hash, ids: seq<JobId>, first: map<nat, string>)
    requires ids != []
    ensures BatchSteps(s, hash, ids, first)
            == if !At(s, ids[0], Processing) then BatchSteps(s, hash, ids[1..], first)
               else
                 var shard := ShardIndex(hash, s.jobs[ids[0]].job.queue);
                 var first' := if shard in first then first else first[shard := s.jobs[ids[0]].job.queue];
                 var steps := LeaveBy(ids[0], BatchAck(first'[shard]));
                 steps + BatchSteps(Run(s, steps), hash, ids[1..], first')
  {
  }

  /** The operation queued job `id` behind the index's back. */
  lemma Hidden(b: Books, b': Books, hash: Hash, s: State, expired: set<JobId>, id: JobId, e: Effect, p: Placed)
    requires Good(b, hash, s, expired) && At(s, id, WaitingDeps) && p.place == Queued && p.job == s.jobs[id].job
    requires e.after == Some(p) && e.hides && !e.completes
    requires b'.shelves == Insert(Extract(b.shelves, hash, s.jobs[id]), hash, p) && b'.index == b.index
    requires b'.tables == TablesOf(Apply(s, id, e))
    ensures Good(b', hash, Apply(s, id, e), expired)
  {
    ConsistentMeans(b.shelves, b.index, hash, s, expired, id);
    hide Consistent, Apply, Insert, Extract, TablesOf;
    EffectKeepsConsistent(b.shelves, b.index, hash, s, expired, id, e);
    assert IndexAfter(b.index, hash, id, e) == b.index;
  }

  /** The jobs of processing and of `waiting_deps`, picked by a condition. */
  lemma FindsEach(b: Books, hash: Hash, s: State, expired: set<JobId>, pick: Job -> bool)
    requires Good(b, hash, s, expired)
    ensures forall id :: id in IdsWhere(b.shelves.processing, pick) <==> At(s, id, Processing) && pick(s.jobs[id].job)
    ensures forall id :: id in IdsWhere(b.shelves.deps, pick) <==> At(s, id, WaitingDeps) && pick(s.jobs[id].job)
    ensures b.tables.completed == s.completed
  {
    IdsWhereMeans(b.shelves.processing, hash, s.jobs, Processing, pick);
    IdsWhereMeans(b.shelves.deps, hash, s.jobs, WaitingDeps, pick);
    hide IdsWhere, Tally, IndexTally;
  }

  lemma TouchesOne(s: State, s': State, id: JobId)
    requires Touches(s, s', id)
    ensures forall k | k != id :: (k in s.jobs <==> k in s'.jobs) && (k in s.jobs ==> s'.jobs[k] == s.jobs[k])
  {
  }

  lemma StayIn(s: State, s': State, id: JobId, ids: set<JobId>, place: Place, queue: string)
    requires Touches(s, s', id) && forall k | k in ids :: AtIn(s.jobs, k, place, queue)
    ensures forall k | k in ids && k != id :: AtIn(s'.jobs, k, place, queue)
  {
  }

  lemma SweptNone(s: State, sweep: Sweep)
    ensures Run(s, Swept(sweep, [])) == s && NoneTwice([])
  {
  }

  lemma TablesCount(s: State, id: JobId)
    ensures StallCount(s, id) == if id in TablesOf(s).stalled then TablesOf(s).stalled[id] else 0
  {
  }

  lemma TablesKeepCompleted(s: State, s': State)
    requires TablesOf(s') == TablesOf(s)
    ensures s'.completed == s.completed
  {
  }

  /** No younger than the cutoff, if there is one. */
  predicate Old(job: Job, cutoff: Option<nat>) {
    cutoff.Some? ==> job.createdAt <= cutoff.value
  }

  lemma OldMeans(job: Job, cutoff: Option<nat>)
    ensures Old(job, cutoff) <==> (cutoff.Some? ==> job.createdAt <= cutoff.value)
  {
  }

  /** The letters no younger than the cutoff, from the front, up to a limit. */
  function OldFront(letters: seq<Job>, cutoff: Option<nat>, limit: Option<nat>): seq<JobId>
    decreases |letters|
  {
    if letters == [] then []
    else
      var front, last := OldFront(letters[..|letters| - 1], cutoff, limit), letters[|letters| - 1];
      if Old(last, cutoff) && (limit.Some? ==> |front| < limit.value) then front + [last.id] else front
  }

  lemma {:induction false} OldFrontMeans(letters: seq<Job>, cutoff: Option<nat>, limit: Option<nat>)
    ensures var front := OldFront(letters, cutoff, limit);
            && (forall id | id in front :: exists k ::
                  0 <= k < |letters| && letters[k].id == id && Old(letters[k], cutoff))
            && (limit.Some? ==> |front| <= limit.value)
            && ((limit.Some? ==> |front| < limit.value) ==>
                  forall k | 0 <= k < |letters| && Old(letters[k], cutoff) :: letters[k].id in front)
    decreases |letters|
  {
    hide Old;
    if letters != [] {
      var n := |letters| - 1;
      var front := OldFront(letters[..n], cutoff, limit);
      OldFrontMeans(letters[..n], cutoff, limit);
      forall id | id in OldFront(letters, cutoff, limit)
        ensures exists k :: 0 <= k < |letters| && letters[k].id == id && Old(letters[k], cutoff)
      {
        if id in front {
          var k :| 0 <= k < n && letters[..n][k].id == id && Old(letters[..n][k], cutoff);
          assert letters[k] == letters[..n][k];
        } else {
          assert letters[n].id == id && Old(letters[n], cutoff);
        }
      }
      assert forall k | 0 <= k < n :: letters[k] == letters[..n][k];
    }
  }

  lemma OldFrontNext(letters: seq<Job>, i: nat, cutoff: Option<nat>, limit: Option<nat>)
    requires i < |letters|
    ensures var front := OldFront(letters[..i], cutoff, limit);
            OldFront(letters[..i + 1], cutoff, limit)
              == if Old(letters[i], cutoff) && (limit.Some? ==> |front| < limit.value) then front + [letters[i].id]
                  else front
  {
    assert letters[..i + 1][..i] == letters[..i];
  }

  lemma FindsDead(b: Books, hash: Hash, s: State, expired: set<JobId>, queue: string, id: JobId)
    requires Good(b, hash, s, expired)
    ensures var l := InDlq(ShardIndex(hash, queue), queue);
            && LookUp(b.shelves, l, id) == (if AtIn(s.jobs, id, Dead, queue) then Some(s.jobs[id].job) else None)
            && (AtIn(s.jobs, id, Dead, queue) ==>
                  TakeAt(b.shelves, l, id) == Extract(b.shelves, hash, s.jobs[id]) && s.jobs[id].job.id == id
                      && id !in s.released)
  {
    LookUpFinds(b.shelves, hash, s.jobs, InDlq(ShardIndex(hash, queue), queue), id);
    ConsistentMeans(b.shelves, b.index, hash, s, expired, id);
    hide Consistent, LookUp, TakeAt, Extract, EntryOf;
    if id in s.jobs {
      AtLocation(b.shelves, hash, s.jobs[id]);
    }
  }

  lemma FindsQueued(b: Books, hash: Hash, s: State, expired: set<JobId>, queue: string, id: JobId)
    requires Good(b, hash, s, expired)
    ensures var l := InQueue(ShardIndex(hash, queue), queue);
            && LookUp(b.shelves, l, id) == (if AtIn(s.jobs, id, Queued, queue) then Some(s.jobs[id].job) else None)
            && (AtIn(s.jobs, id, Queued, queue) ==>
                  TakeAt(b.shelves, l, id) == Extract(b.shelves, hash, s.jobs[id]) && s.jobs[id].job.id == id)
  {
    LookUpFinds(b.shelves, hash, s.jobs, InQueue(ShardIndex(hash, queue), queue), id);
    ConsistentMeans(b.shelves, b.index, hash, s, expired, id);
    hide Consistent, LookUp, TakeAt, Extract, EntryOf;
    if id in s.jobs {
      AtLocation(b.shelves, hash, s.jobs[id]);
    }
  }

  lemma FindsLetters(b: Books, hash: Hash, s: State, expired: set<JobId>, queue: string)
    requires Good(b, hash, s, expired)
    ensures var letters := LettersIn(b.shelves.dlq, Key(ShardIndex(hash, queue), queue));
            && (forall k | 0 <= k < |letters| ::
                  AtIn(s.jobs, letters[k].id, Dead, queue) && s.jobs[letters[k].id].job == letters[k])
            && (forall id | AtIn(s.jobs, id, Dead, queue) :: exists k :: 0 <= k < |letters| && letters[k].id == id)
            && (forall i, k | 0 <= i < k < |letters| :: letters[i].id != letters[k].id)
  {
    LettersMean(b.shelves.dlq, hash, s.jobs, queue);
    var letters := LettersIn(b.shelves.dlq, Key(ShardIndex(hash, queue), queue));
    forall id | AtIn(s.jobs, id, Dead, queue)
      ensures exists k :: 0 <= k < |letters| && letters[k].id == id
    {
      var k :| 0 <= k < |letters| && letters[k] == s.jobs[id].job;
      assert letters[k].id == id;
    }
    hide DeadTally, Tally, IndexTally;
  }

  lemma FindsHeap(b: Books, hash: Hash, s: State, expired: set<JobId>, queue: string)
    requires Good(b, hash, s, expired)
    ensures var heap := Bucket(b.shelves.queues, Key(ShardIndex(hash, queue), queue));
            && (forall id :: id in heap <==> AtIn(s.jobs, id, Queued, queue))
            && (forall id | id in heap :: heap[id] == s.jobs[id].job && heap[id].id == id)
  {
    BucketMeans(b.shelves.queues, hash, s.jobs, queue);
    hide DeadTally, Tally, IndexTally;
  }

  lemma ObliterateKeepsGood(b: Books, b': Books, hash: Hash, s: State, expired: set<JobId>, queue: string,
                            gone: set<JobId>)
    requires Good(b, hash, s, expired)
    requires forall id :: id in gone <==> id in s.jobs && Obliterates(s.jobs[id], queue)
    requires Tallies(b'.shelves, hash, QueueGone(s.jobs, queue)) && b'.index == b.index - gone
    requires var t := b.tables;
             b'.tables == t.(keys := (set k | k in t.keys && k.0 != queue), limiters := t.limiters - {queue},
                             paused := t.paused - {queue})
    ensures Good(b', hash, Obliterated(s, queue), expired)
  {
    StepKeepsFresh(s, Step.Obliterate(queue));
    ObliterateMeans(s, queue, gone);
    hide Tallies, Fresh, Obliterated, TablesOf;
    ObliterateKeepsIndex(b.index, hash, s, Obliterated(s, queue), expired, queue, gone);
    hide IndexTally;
  }

  lemma ObliterateMeans(s: State, queue: string, gone: set<JobId>)
    requires forall id :: id in gone <==> id in s.jobs && Obliterates(s.jobs[id], queue)
    ensures var s', t := Obliterated(s, queue), TablesOf(s);
            && s'.jobs == QueueGone(s.jobs, queue) && s'.released == s.released - gone
            && TablesOf(s') == t.(keys := (set k | k in t.keys && k.0 != queue), limiters := t.limiters - {queue},
                                  paused := t.paused - {queue})
            && s'.completed == s.completed && s'.nextId == s.nextId
  {
    var all := set id | id in s.jobs && Obliterates(s.jobs[id], queue);
    assert all == gone;
  }

  lemma ObliterateTables(s: State, s': State, queue: string)
    requires s' == Run(s, [Step.Obliterate(queue)])
    ensures s'.groups == s.groups && s'.limiters == s.limiters - {queue}
    ensures forall key :: key in s'.keys <==> key in s.keys && key.0 != queue
  {
    RunOne(s, Step.Obliterate(queue));
    hide Run;
  }

  ghost function ShelvedOf(s: State, queue: string): set<JobId> {
    set id | id in s.jobs && Obliterates(s.jobs[id], queue)
  }

  /** The state after the shard section of `obliterate`. */
  ghost predicate Unshelved(s: State, s': State, queue: string) {
    && (forall id | id in s'.jobs :: id in s.jobs && s'.jobs[id] == s.jobs[id])
    && (forall id | id in s.jobs :: id in s'.jobs <==> !Obliterates(s.jobs[id], queue))
  }

  lemma ActiveStay(s: State, s': State, queue: string, active: set<JobId>)
    requires Unshelved(s, s', queue)
    requires forall id :: id in active <==> AtIn(s'.jobs, id, Processing, queue)
    ensures forall id :: id in active <==> AtIn(s.jobs, id, Processing, queue)
  {
  }

  lemma PlacesOfQueue(s: State, queue: string)
    requires Filed(s.jobs)
    ensures forall id | id in s.jobs ::
              && (Obliterates(s.jobs[id], queue) ==>
                    s.jobs[id].job.queue == queue && !AtIn(s.jobs, id, Processing, queue))
              && (s.jobs[id].job.queue == queue ==>
                    Obliterates(s.jobs[id], queue) || AtIn(s.jobs, id, Processing, queue))
    ensures forall id :: AtIn(s.jobs, id, Processing, queue) ==> id in s.jobs && s.jobs[id].job.queue == queue
  {
  }

  ghost function AllOf(s: State, queue: string): set<JobId> {
    set id | id in s.jobs && s.jobs[id].job.queue == queue
  }

  function NoneOf(jobs: map<JobId, Placed>, queue: string): map<JobId, Placed> {
    map id | id in jobs && jobs[id].job.queue != queue :: jobs[id]
  }

  lemma ShelvedAndActive(s: State, queue: string, active: set<JobId>)
    requires Filed(s.jobs) && forall id :: id in active <==> AtIn(s.jobs, id, Processing, queue)
    ensures |AllOf(s, queue)| == |ShelvedOf(s, queue)| + |active|
  {
    PlacesOfQueue(s, queue);
    hide Filed, Obliterates, AtIn;
    var all, shelved := AllOf(s, queue), ShelvedOf(s, queue);
    assert forall id :: id in all <==> id in shelved || id in active;
    assert all == shelved + active;
    assert shelved * active == {};
  }

  lemma OthersRemain(s: State, s': State, queue: string, active: set<JobId>)
    requires Filed(s.jobs) && Unshelved(s, s', queue)
    requires forall id :: id in active <==> AtIn(s.jobs, id, Processing, queue)
    ensures s'.jobs - active == NoneOf(s.jobs, queue)
  {
    PlacesOfQueue(s, queue);
    hide Filed, Obliterates, AtIn;
    var left, others := s'.jobs - active, NoneOf(s.jobs, queue);
    forall id
      ensures id in left <==> id in others
    {
    }
  }

  lemma WipeLeaves(s: State, id: JobId, e: Effect)
    requires At(s, id, Processing) && Next(s, On(id, Wipe)) == Apply(s, id, e)
    ensures var s' := Apply(s, id, e);
            s'.jobs == s.jobs - {id} && s'.groups == s.groups && s'.keys == s.keys && s'.limiters == s.limiters
  {
  }

  lemma ObliterateKeepsIndex(i: Index, hash: Hash, s: State, s': State, expired: set<JobId>, queue: string,
                             gone: set<JobId>)
    requires IndexTally(i, hash, s, expired)
    requires forall id :: id in gone <==> id in s.jobs && Obliterates(s.jobs[id], queue)
    requires s'.jobs == QueueGone(s.jobs, queue) && s'.released == s.released - gone
    requires s'.completed == s.completed && s'.nextId == s.nextId
    ensures IndexTally(i - gone, hash, s', expired)
  {
    hide EntryOf;
  }

  /** The tables once the debounce time is noted and the id taken. */
  function Opened(t: Tables, queue: string, input: JobInput, now: nat): Tables {
    t.(debounce := Debounce(t.debounce, queue, input, now), nextId := t.nextId + 1)
  }

  ghost predicate SameTable(s: State, s': State) {
    s'.jobs == s.jobs && s'.released == s.released && s'.acked == s.acked && s'.completed == s.completed
        && s'.nextId >= s.nextId
  }

  lemma PushRejected(s: State, queue: string, input: JobInput, now: nat)
    requires !ValidQueueName(queue) || !Admissible(s.debounce, queue, input, now)
    ensures PushNow(s, queue, input, now) == PushResult(s, Rejected)
  {
  }

  lemma PushAnswered(s: State, queue: string, input: JobInput, now: nat)
    requires ValidQueueName(queue) && Admissible(s.debounce, queue, input, now) && ExistingJob(s, input).Some?
    ensures var r := PushNow(s, queue, input, now);
            && r.outcome == Existing(ExistingJob(s, input).value) && SameTable(s, r.state)
            && TablesOf(r.state) == Opened(TablesOf(s), queue, input, now)
  {
    PushNowMeans(s, queue, input, now);
    hide PushNow, Debounce, Admissible, ExistingJob;
  }

  lemma PushDropped(s: State, queue: string, input: JobInput, now: nat)
    requires ValidQueueName(queue) && Admissible(s.debounce, queue, input, now) && ExistingJob(s, input).None?
    requires input.uniqueKey.Some? && (queue, input.uniqueKey.value) in s.keys
    ensures var r, t := PushNow(s, queue, input, now), Opened(TablesOf(s), queue, input, now);
            && r.outcome == Rejected && SameTable(s, r.state)
            && TablesOf(r.state) == if input.customId.Some? then t.(customIds := t.customIds - {input.customId.value})
                                    else t
  {
    PushNowMeans(s, queue, input, now);
    hide PushNow, CreateJob, StartPlace, ExistingJob, Debounce, Admissible;
    var c := GetOr(input.customId, "");
    assert s.customIds - {c} - {c} == s.customIds - {c};
  }

  lemma PushCreated(s: State, queue: string, input: JobInput, now: nat)
    requires ValidQueueName(queue) && Admissible(s.debounce, queue, input, now) && ExistingJob(s, input).None?
    requires input.uniqueKey.Some? ==> (queue, input.uniqueKey.value) !in s.keys
    ensures var r, t := PushNow(s, queue, input, now), Opened(TablesOf(s), queue, input, now);
            var job := CreateJob(s.nextId, queue, input, now);
            var p := Placed(StartPlace(s.completed, job), job);
            && r.outcome == Created(s.nextId) && SameTable(s, r.state.(jobs := s.jobs))
                && r.state.jobs == s.jobs[s.nextId := p]
            && r.state.nextId == s.nextId + 1
            && TablesOf(r.state) == t.(customIds := if input.customId.Some?
                                       then t.customIds[input.customId.value := s.nextId] else t.customIds,
                                       keys := if input.uniqueKey.Some?
                                           then t.keys + {(queue, input.uniqueKey.value)} else t.keys)
            && p.job.id == s.nextId && Resting(p.place)
  {
    PushNowMeans(s, queue, input, now);
    assert CreateJob(s.nextId, queue, input, now).id == s.nextId;
    hide PushNow, CreateJob, ExistingJob, Debounce, Admissible;
    var c := GetOr(input.customId, "");
    assert (s.customIds - {c})[c := s.nextId] == s.customIds[c := s.nextId];
  }

  lemma GoodMeans(b: Books, hash: Hash, s: State, expired: set<JobId>)
    requires Good(b, hash, s, expired)
    ensures b.tables == TablesOf(s) && b.tables.debounce == s.debounce && b.tables.keys == s.keys
    ensures b.tables.nextId == s.nextId && b.tables.completed == s.completed
  {
  }

  lemma RolledBack(customIds: map<string, JobId>, c: string, id: JobId)
    ensures customIds[c := id] - {c} == customIds - {c}
  {
  }

  /** Nothing came in. */
  lemma PushSettles(b: Books, b': Books, hash: Hash, s: State, expired: set<JobId>, s': State)
    requires Good(b, hash, s, expired) && SameTable(s, s') && b'.tables == TablesOf(s')
    requires b'.shelves == b.shelves && b'.index == b.index
    ensures Good(b', hash, s', expired)
  {
    hide Consistent;
    TablesDoNotMatter(b.shelves, b.index, hash, s, s', expired);
  }

  /** A pushed job comes in under the next id. */
  lemma PushArrives(b: Books, b': Books, hash: Hash, s: State, expired: set<JobId>, s': State, p: Placed)
    requires Good(b, hash, s, expired) && b'.tables == TablesOf(s') && p.job.id == s.nextId && Resting(p.place)
    requires s'.jobs == s.jobs[s.nextId := p] && SameTable(s, s'.(jobs := s.jobs)) && s'.nextId == s.nextId + 1
    requires b'.shelves == Insert(b.shelves, hash, p) && b'.index == b.index[s.nextId := LocationOf(hash, p)]
    ensures Good(b', hash, s', expired)
  {
    var s1 := s.(nextId := s.nextId + 1);
    TablesDoNotMatter(b.shelves, b.index, hash, s, s1, expired);
    assert s.nextId !in s.jobs && s.nextId !in b.index by { hide Tallies, EntryOf; }
    hide Consistent, Insert, LocationOf;
    ArrivalKeepsConsistent(b.shelves, b.index, hash, s1, expired, s.nextId, p);
    TablesDoNotMatter(b'.shelves, b'.index, hash, s1.(jobs := s1.jobs[s.nextId := p]), s', expired);
  }

  // ---- Pulling ----

  /** The queued jobs of a queue. */
  ghost function HeapOf(s: State, queue: string): map<JobId, Job> {
    map id | id in s.jobs && AtIn(s.jobs, id, Queued, queue) :: s.jobs[id].job
  }

  /** `view` is the queue as the engine has it, in an order in which its heap may yield the jobs. */
  ghost predicate Views(s: State, queue: string, view: QueueView) {
    && view.paused == (queue in s.paused)
    && view.limiter == (if queue in s.limiters then Some(s.limiters[queue]) else None)
    && view.active == ActiveIn(s.groups, queue)
    && Yields(view.order, HeapOf(s, queue))
  }

  ghost predicate Yields(order: seq<Job>, heap: map<JobId, Job>) {
    Lists(order, heap) && (Orderly(RanksIn(heap)) ==> Descending(order))
  }

  predicate IsTop(left: map<JobId, Job>, id: JobId) {
    id in left && (Orderly(RanksIn(left)) ==> forall k | k in left :: AtLeast(left[id].Ranking(), left[k].Ranking()))
  }

  ghost predicate Yielding(order: seq<Job>, heap: map<JobId, Job>, left: map<JobId, Job>) {
    Keyed(heap) && Removed(order, heap, left) && (Orderly(RanksIn(heap)) ==> AboveRest(order, left))
  }

  lemma NothingYielded(heap: map<JobId, Job>)
    requires Keyed(heap)
    ensures Yielding([], heap, heap)
  {
  }

  lemma TopExists(left: map<JobId, Job>)
    requires left != map[]
    ensures exists id :: IsTop(left, id)
  {
    var any :| any in left;
    if Orderly(RanksIn(left)) {
      assert left[any].Ranking() in RanksIn(left);
      PriorityQueue.GreatestExists(RanksIn(left));
      var g :| g in RanksIn(left) && forall x | x in RanksIn(left) :: AtLeast(g, x);
      var id :| id in left && left[id].Ranking() == g;
      assert IsTop(left, id);
    } else {
      assert IsTop(left, any);
    }
  }

  lemma YieldOne(order: seq<Job>, heap: map<JobId, Job>, left: map<JobId, Job>, id: JobId)
    requires Yielding(order, heap, left) && IsTop(left, id)
    ensures Yielding(order + [left[id]], heap, left - {id}) && |left - {id}| < |left|
  {
    assert left[id].id == id;
    RemovedStep(order, heap, left, left[id]);
    assert RanksIn(left) <= RanksIn(heap);
    OrderlySubset(RanksIn(left), RanksIn(heap));
    hide Removed, AboveRest, Orderly;
  }

  lemma AllYielded(order: seq<Job>, heap: map<JobId, Job>)
    requires Yielding(order, heap, map[])
    ensures Yields(order, heap)
  {
    RemovedJoin(order, [], heap, map[]);
    assert order + [] == order;
  }

  lemma YieldsMeans(order: seq<Job>, s: State, queue: string)
    requires Yields(order, HeapOf(s, queue))
    ensures forall k | 0 <= k < |order| ::
              AtIn(s.jobs, order[k].id, Queued, queue) && s.jobs[order[k].id].job == order[k]
    ensures forall i, k | 0 <= i < k < |order| :: order[i].id != order[k].id
  {
    forall k | 0 <= k < |order|
      ensures AtIn(s.jobs, order[k].id, Queued, queue) && s.jobs[order[k].id].job == order[k]
    {
      assert order[k] in order;
    }
  }

  lemma ScanHead(order: seq<Job>, active: set<string>, now: nat)
    requires order != []
    ensures ScanSteps(order, active, now)
            == if order[0].IsExpired(now) then [On(order[0].id, Expire(now))] + ScanSteps(order[1..], active, now)
               else if !order[0].IsReady(now) then []
               else if Busy(order[0], active) then ScanSteps(order[1..], active, now)
               else [On(order[0].id, Action.Take(now)), On(order[0].id, Enter)]
    ensures Scan(order, active, now).found
            == if order[0].IsExpired(now) then Scan(order[1..], active, now).found
               else if !order[0].IsReady(now) then None
               else if Busy(order[0], active) then Scan(order[1..], active, now).found
               else Some(Started(order[0], now))
  {
  }

  lemma HeapStays(s: State, s': State, queue: string, order: seq<Job>, id: JobId)
    requires InHeap(s, queue, order) && Touches(s, s', id) && forall k | 0 <= k < |order| :: order[k].id != id
    ensures InHeap(s', queue, order)
  {
  }

  lemma YieldsInHeap(order: seq<Job>, s: State, queue: string)
    requires Yields(order, HeapOf(s, queue))
    ensures InHeap(s, queue, order)
  {
    YieldsMeans(order, s, queue);
  }

  lemma ScanNothing(active: set<string>, now: nat)
    ensures Scan([], active, now).found == None && ScanSteps([], active, now) == []
  {
  }

  lemma MayTake(s: State, queue: string, job: Job, now: nat)
    requires AtIn(s.jobs, job.id, Queued, queue) && s.jobs[job.id].job == job
    requires queue !in s.paused && (queue in s.limiters ==> s.limiters[queue].HasSlot())
    requires !job.IsExpired(now) && job.IsReady(now) && !Busy(job, ActiveIn(s.groups, queue))
    ensures CanTake(s, job, now)
  {
    assert forall g | (queue, g) in s.groups :: g in ActiveIn(s.groups, queue) by {
      assert forall p | p in s.groups && p.0 == queue :: p.1 in ActiveIn(s.groups, queue);
    }
  }

  /** The operation dropped job `id` as expired. */
  lemma Lapsed(b: Books, b': Books, hash: Hash, s: State, expired: set<JobId>, id: JobId, e: Effect)
    requires Good(b, hash, s, expired) && At(s, id, Queued) && Settles(s, id, e, None)
    requires b'.shelves == Extract(b.shelves, hash, s.jobs[id]) && b'.index == b.index
    requires b'.tables == TablesOf(Apply(s, id, e))
    ensures Good(b', hash, Apply(s, id, e), expired + {id})
  {
    hide Consistent, Apply, Extract, TablesOf;
    ExpiryKeepsConsistent(b.shelves, b.index, hash, s, expired, id, e);
  }

  /** The operation took job `id` into processing. */
  lemma Taken(b: Books, b': Books, hash: Hash, s: State, expired: set<JobId>, id: JobId, e: Effect, p: Placed)
    requires Good(b, hash, s, expired) && id in s.jobs && Settles(s, id, e, Some(p)) && p.place == Processing
    requires b'.shelves == Insert(Extract(b.shelves, hash, s.jobs[id]), hash, p)
    requires b'.index == b.index[id := InProcessing]
    requires b'.tables == TablesOf(Apply(s, id, e))
    ensures Good(b', hash, Apply(s, id, e), expired)
  {
    ConsistentMeans(b.shelves, b.index, hash, s, expired, id);
    hide Consistent, Apply, Insert, Extract, TablesOf;
    EffectKeepsConsistent(b.shelves, b.index, hash, s, expired, id, e);
  }

  lemma TablesSay(s: State, s': State)
    requires TablesOf(s') == TablesOf(s)
    ensures s'.groups == s.groups && s'.limiters == s.limiters && s'.paused == s.paused
  {
  }

  lemma GoodSays(b: Books, hash: Hash, s: State, expired: set<JobId>)
    requires Good(b, hash, s, expired)
    ensures b.tables.groups == s.groups && b.tables.limiters == s.limiters && b.tables.paused == s.paused
  {
  }

  // ---- Forgetting completed jobs ----

  predicate IsOldest(ids: set<JobId>, id: JobId) {
    id in ids && forall k | k in ids :: id <= k
  }

  lemma {:induction false} OldestExists(ids: set<JobId>)
    requires ids != {}
    ensures exists id :: IsOldest(ids, id)
    decreases |ids|
  {
    var any :| any in ids;
    var rest := ids - {any};
    assert forall k | k in ids :: k in rest || k == any;
    if rest != {} {
      OldestExists(rest);
      var id: JobId :| IsOldest(rest, id);
      assert IsOldest(ids, if id <= any then id else any);
    } else {
      assert IsOldest(ids, any);
    }
  }

  lemma Forgets(b: Books, b': Books, hash: Hash, s: State, expired: set<JobId>, id: JobId)
    requires Good(b, hash, s, expired) && id in s.completed
    requires b' == b.(index := b.index - {id}, tables := b.tables.(completed := b.tables.completed - {id}))
    ensures var s' := Next(s, ForgetCompleted(id, false));
            Good(b', hash, s', expired) && s' == s.(completed := s.completed - {id})
            && b'.tables.completed == s'.completed
  {
    hide Tallies, EntryOf;
  }

  // ---- Pushing a batch ----

  lemma GoodNames(b: Books, hash: Hash, s: State, expired: set<JobId>)
    requires Good(b, hash, s, expired)
    ensures b.tables.customIds == s.customIds
  {
  }

  /** The jobs of `s` and those created. */
  function WithJobs(s: State, queue: string, creates: seq<NewJob>, now: nat): map<JobId, Placed> {
    if creates == [] then s.jobs
    else
      var last := creates[|creates| - 1];
      var job := CreateJob(last.id, queue, last.input, now);
      WithJobs(s, queue, creates[..|creates| - 1], now)[last.id := Placed(StartPlace(s.completed, job), job)]
  }

  lemma {:induction false} InsertAllCreates(s: State, queue: string, done: seq<NewJob>, creates: seq<NewJob>, now: nat)
    ensures InsertAll(WithJobs(s, queue, done, now), s.completed, queue, creates, now)
            == WithJobs(s, queue, done + creates, now)
    decreases |creates|
  {
    hide CreateJob, StartPlace;
    if creates == [] {
      assert done + creates == done;
    } else {
      var next := done + [creates[0]];
      assert next[..|next| - 1] == done;
      InsertAllCreates(s, queue, next, creates[1..], now);
      assert next + creates[1..] == done + creates;
    }
  }

  ghost predicate Ascending(creates: seq<NewJob>, from: JobId, to: JobId) {
    && (forall k | 0 <= k < |creates| :: from <= creates[k].id < to)
    && (forall i, k | 0 <= i < k < |creates| :: creates[i].id < creates[k].id)
  }

  /** New jobs get ids in ascending order, out of those handed out in phase 3. */
  lemma {:induction false} CreatesAscend(r: Registry, queue: string, needing: seq<Numbered>, id: JobId)
    ensures Ascending(Register(r, queue, needing, id).creates, id, id + |needing|)
    decreases |needing|
  {
    if needing != [] {
      var head := needing[0];
      var rest := Register(Enroll(r, queue, head.input, id), queue, needing[1..], id + 1).creates;
      CreatesAscend(Enroll(r, queue, head.input, id), queue, needing[1..], id + 1);
      assert needing == [Numbered(head.index, head.input)] + needing[1..];
      RegisterHead(r, queue, head.index, head.input, needing[1..], id);
      AscendsOn(rest, NewJob(head.index, head.input, id), id + |needing|);
      hide Register, Enroll, Ascending, Enrolls, Known;
    }
  }

  lemma AscendsOn(rest: seq<NewJob>, head: NewJob, to: JobId)
    requires Ascending(rest, head.id + 1, to) && head.id < to
    ensures Ascending([head] + rest, head.id, to) && Ascending(rest, head.id, to)
  {
    var all := [head] + rest;
    assert forall k | 1 <= k < |all| :: all[k] == rest[k - 1];
  }

  lemma BatchOpens(b: Books, b': Books, hash: Hash, s: State, expired: set<JobId>, s': State, queue: string,
                   needing: seq<Numbered>, now: nat)
    requires Good(b, hash, s, expired)
    requires s' == s.(debounce := s'.debounce, customIds := s'.customIds, keys := s'.keys,
                      nextId := s.nextId + |needing|)
    requires b' == b.(tables := TablesOf(s'))
    ensures Good(b', hash, s'.(jobs := WithJobs(s, queue, [], now)), expired)
    ensures forall k: JobId | s.nextId <= k :: k !in b'.index && k !in s.jobs
    ensures var r := Registry(s.customIds, s.keys);
            var creates := Register(r, queue, needing, s.nextId).creates;
            && (forall k | 0 <= k < |creates| ::
                  creates[k].id !in b'.index && creates[k].id !in s.jobs && creates[k].id < s'.nextId)
            && (forall i, k | 0 <= i < k < |creates| :: creates[i].id < creates[k].id)
  {
    NextIsNew(b, hash, s, expired);
    CreatesAscend(Registry(s.customIds, s.keys), queue, needing, s.nextId);
    hide Consistent, Register;
    TablesDoNotMatter(b.shelves, b.index, hash, s, s', expired);
    assert s'.(jobs := WithJobs(s, queue, [], now)) == s';
  }

  lemma OpenedTables(s: State, s': State)
    requires s' == s.(debounce := s'.debounce, customIds := s'.customIds, keys := s'.keys, nextId := s'.nextId)
    ensures var t := TablesOf(s);
            TablesOf(s') == t.(debounce := s'.debounce, customIds := s'.customIds, keys := s'.keys, nextId := s'.nextId)
  {
  }

  lemma NoneYet(s: State, queue: string, creates: seq<NewJob>, now: nat)
    ensures WithJobs(s, queue, [], now) == s.jobs && [] + creates == creates
  {
  }

  lemma BatchGoesOn(b: Books, b': Books, hash: Hash, s: State, begun: State, expired: set<JobId>, queue: string,
                    creates: seq<NewJob>, i: nat, now: nat, p: Placed)
    requires i < |creates| && Good(b, hash, begun.(jobs := WithJobs(s, queue, creates[..i], now)), expired)
    requires forall k | i <= k < |creates| ::
               creates[k].id !in b.index && creates[k].id !in WithJobs(s, queue, creates[..i], now)
                   && creates[k].id < begun.nextId
    requires forall j, k | 0 <= j < k < |creates| :: creates[j].id < creates[k].id
    requires var job := CreateJob(creates[i].id, queue, creates[i].input, now);
             p == Placed(StartPlace(s.completed, job), job)
    requires b' == Books(Insert(b.shelves, hash, p), b.index[p.job.id := LocationOf(hash, p)], b.tables)
    ensures Good(b', hash, begun.(jobs := WithJobs(s, queue, creates[..i + 1], now)), expired)
    ensures forall k | i + 1 <= k < |creates| ::
              creates[k].id !in b'.index && creates[k].id !in WithJobs(s, queue, creates[..i + 1], now)
  {
    var id, s1 := creates[i].id, begun.(jobs := WithJobs(s, queue, creates[..i], now));
    assert p.job.id == id && Resting(p.place);
    assert creates[..i + 1][..i] == creates[..i];
    assert WithJobs(s, queue, creates[..i + 1], now) == WithJobs(s, queue, creates[..i], now)[id := p];
    hide Good, Insert, LocationOf, WithJobs, CreateJob, StartPlace;
    Arrives(b, b', hash, s1, expired, id, p);
  }

  // ---- Queries ----

  /** What a caller is told of a job in some place. */
  ghost function StateOf(p: Placed, now: nat): JobState {
    match p.place
    case Queued => if now < p.job.runAt then JobDelayed else JobWaiting
    case WaitingDeps => JobWaitingChildren
    case WaitingChildren => JobWaitingParent
    case Dead => JobFailed
    case _ => JobActive
  }

  /** What the index tells of a job. A job queued by a dependency release is still reported as waiting
      for its dependencies. */
  ghost function Told(s: State, id: JobId, now: nat): JobState {
    if id in s.released then JobWaitingChildren
    else if id in s.jobs then StateOf(s.jobs[id], now)
    else if id in s.completed then JobCompleted
    else JobUnknown
  }

  /** What the index finds of a job, and what it tells of its state. */
  function JobByIndex(b: Books, id: JobId): Option<Job> {
    if id in b.index then LookUp(b.shelves, b.index[id], id) else None
  }

  function StateByIndex(b: Books, id: JobId, now: nat): JobState {
    if id !in b.index then JobUnknown
    else if !b.index[id].InQueue? then ToState(b.index[id], 0, now)
    else if JobByIndex(b, id).Some? then ToState(b.index[id], JobByIndex(b, id).value.runAt, now)
    else JobUnknown
  }

  /** The full scan has one item for every live job and none for any other, and on every live job the index
      agrees with that item, on the job as on its state, exactly when no dependency release moved the job
      behind the index's back. */
  lemma IndexAgreesExactly(b: Books, hash: Hash, s: State, expired: set<JobId>, id: JobId, now: nat)
    requires Good(b, hash, s, expired)
    ensures (exists item :: item in AllItems(b.shelves, now) && item.job.id == id) <==> id in s.jobs
    ensures forall x, y | x in AllItems(b.shelves, now) && y in AllItems(b.shelves, now)
            && x.job.id == id == y.job.id :: x == y
    ensures forall item | item in AllItems(b.shelves, now) && item.job.id == id ::
              && (JobByIndex(b, id) == Some(item.job) <==> id !in s.released)
              && (StateByIndex(b, id, now) == item.state <==> id !in s.released)
    ensures id !in s.jobs ==> JobByIndex(b, id) == None
  {
    ScanMeans(b.shelves, hash, s.jobs, now);
    AllRest(b, hash, s, expired);
    Finds(b, hash, s, expired, id);
    ConsistentMeans(b.shelves, b.index, hash, s, expired, id);
    hide Consistent, LookUp, TakeAt, Extract, AllItems, Filed;
    if id in s.jobs {
      var item := Reported(s.jobs[id].place, s.jobs[id].job, now);
      ReportsJob(s.jobs[id].place, s.jobs[id].job, now);
      assert item in AllItems(b.shelves, now) && item.job.id == id;
      hide Retrievable, ShardIndex;
    }
  }

  predicate Matches(item: Item, queue: Option<string>, state: Option<JobState>) {
    (queue.Some? ==> item.job.queue == queue.value) && (state.Some? ==> item.state == state.value)
  }

  ghost function ItemOf(s: State, id: JobId, now: nat): Item
    requires id in s.jobs
  {
    Item(s.jobs[id].job, StateOf(s.jobs[id], now))
  }

  /** The live jobs of a queue that are in some state. */
  ghost function MatchingIds(s: State, queue: Option<string>, state: Option<JobState>, now: nat): set<JobId> {
    set id | id in s.jobs && (queue.Some? ==> s.jobs[id].job.queue == queue.value)
             && (state.Some? ==> StateOf(s.jobs[id], now) == state.value)
  }

  /** What the full scan finds. */
  ghost function Matching(s: State, queue: Option<string>, state: Option<JobState>, now: nat): set<Item> {
    set id | id in MatchingIds(s, queue, state, now) :: ItemOf(s, id, now)
  }

  lemma {:induction false} EachOnce(s: State, ids: set<JobId>, now: nat)
    requires Filed(s.jobs) && forall id | id in ids :: id in s.jobs
    ensures |set id | id in ids :: ItemOf(s, id, now)| == |ids|
    decreases |ids|
  {
    var items := set id | id in ids :: ItemOf(s, id, now);
    if ids != {} {
      var id :| id in ids;
      var rest := ids - {id};
      EachOnce(s, rest, now);
      var others := set k | k in rest :: ItemOf(s, k, now);
      assert ItemOf(s, id, now) !in others by {
        assert forall k | k in rest :: ItemOf(s, k, now).job.id == k;
        assert ItemOf(s, id, now).job.id == id;
      }
      hide ItemOf;
      assert items == others + {ItemOf(s, id, now)};
    }
  }

  function IdsOfJobs(jobs: seq<Job>): set<JobId> {
    set j | j in jobs :: j.id
  }

  lemma {:induction false} DistinctLetters(jobs: seq<Job>)
    requires forall i, k | 0 <= i < k < |jobs| :: jobs[i].id != jobs[k].id
    ensures |IdsOfJobs(jobs)| == |jobs|
  {
    if jobs != [] {
      var head, rest := jobs[0], jobs[1..];
      assert forall i | 0 <= i < |rest| :: rest[i] == jobs[i + 1];
      DistinctLetters(rest);
      assert head.id !in IdsOfJobs(rest);
      assert forall j :: j in jobs <==> j == head || j in rest;
      assert IdsOfJobs(jobs) == IdsOfJobs(rest) + {head.id};
    }
  }

  lemma MatchQueued(s: State, queue: string, now: nat, id: JobId)
    requires Filed(s.jobs)
    ensures id in MatchingIds(s, Some(queue), Some(JobWaiting), now)
            <==> AtIn(s.jobs, id, Queued, queue) && s.jobs[id].job.runAt <= now
    ensures id in MatchingIds(s, Some(queue), Some(JobDelayed), now)
            <==> AtIn(s.jobs, id, Queued, queue) && s.jobs[id].job.runAt > now
  {
  }

  lemma MatchActive(s: State, queue: string, now: nat, id: JobId)
    requires Filed(s.jobs)
    ensures id in MatchingIds(s, Some(queue), Some(JobActive), now) <==> AtIn(s.jobs, id, Processing, queue)
  {
  }

  lemma MatchFailed(s: State, queue: string, now: nat, id: JobId)
    requires Filed(s.jobs)
    ensures id in MatchingIds(s, Some(queue), Some(JobFailed), now) <==> AtIn(s.jobs, id, Dead, queue)
  {
  }

  /** The jobs of a queue in one place. */
  ghost function IdsAt(s: State, queue: string, place: Place): set<JobId> {
    set id | id in s.jobs && s.jobs[id].place == place && s.jobs[id].job.queue == queue
  }

  ghost function DueIds(s: State, queue: string, now: nat): set<JobId> {
    set id | id in s.jobs && s.jobs[id].place == Queued && s.jobs[id].job.queue == queue && s.jobs[id].job.runAt <= now
  }

  lemma CountsMean(s: State, queue: string, now: nat)
    requires Filed(s.jobs)
    ensures MatchingIds(s, Some(queue), Some(JobWaiting), now) == DueIds(s, queue, now)
    ensures MatchingIds(s, Some(queue), Some(JobDelayed), now) == IdsAt(s, queue, Queued) - DueIds(s, queue, now)
    ensures MatchingIds(s, Some(queue), Some(JobActive), now) == IdsAt(s, queue, Processing)
    ensures MatchingIds(s, Some(queue), Some(JobFailed), now) == IdsAt(s, queue, Dead)
  {
    forall id {
      MatchQueued(s, queue, now, id);
    }
    forall id {
      MatchActive(s, queue, now, id);
    }
    forall id {
      MatchFailed(s, queue, now, id);
    }
    hide MatchingIds, Filed;
  }

  lemma QueuedCounts(b: Books, hash: Hash, s: State, expired: set<JobId>, queue: string, now: nat)
    requires Good(b, hash, s, expired)
    ensures var heap := Bucket(b.shelves.queues, Key(ShardIndex(hash, queue), queue));
            && Due(heap, now) == MatchingIds(s, Some(queue), Some(JobWaiting), now)
            && NotDue(heap, now) == MatchingIds(s, Some(queue), Some(JobDelayed), now)
  {
    FindsHeap(b, hash, s, expired, queue);
    AllRest(b, hash, s, expired);
    hide Good, MatchingIds, Filed;
    forall id {
      MatchQueued(s, queue, now, id);
    }
  }

  lemma ActiveCount(b: Books, hash: Hash, s: State, expired: set<JobId>, queue: string, now: nat)
    requires Good(b, hash, s, expired)
    ensures IdsWhere(b.shelves.processing, OfQueue(queue)) == MatchingIds(s, Some(queue), Some(JobActive), now)
  {
    FindsEach(b, hash, s, expired, OfQueue(queue));
    AllRest(b, hash, s, expired);
    hide Good, MatchingIds, Filed, IdsWhere;
    forall id {
      MatchActive(s, queue, now, id);
    }
  }

  lemma FailedCount(b: Books, hash: Hash, s: State, expired: set<JobId>, queue: string, now: nat)
    requires Good(b, hash, s, expired)
    ensures |LettersIn(b.shelves.dlq, Key(ShardIndex(hash, queue), queue))|
            == |MatchingIds(s, Some(queue), Some(JobFailed), now)|
  {
    var letters := LettersIn(b.shelves.dlq, Key(ShardIndex(hash, queue), queue));
    FindsLetters(b, hash, s, expired, queue);
    AllRest(b, hash, s, expired);
    hide Good, MatchingIds, Filed, LettersIn;
    LetterIds(letters, s, queue);
    DistinctLetters(letters);
    var ids := IdsOfJobs(letters);
    forall id
      ensures id in ids <==> id in MatchingIds(s, Some(queue), Some(JobFailed), now)
    {
      MatchFailed(s, queue, now, id);
    }
    assert ids == MatchingIds(s, Some(queue), Some(JobFailed), now);
  }

  lemma LetterIds(letters: seq<Job>, s: State, queue: string)
    requires forall k | 0 <= k < |letters| :: AtIn(s.jobs, letters[k].id, Dead, queue)
    requires forall id | AtIn(s.jobs, id, Dead, queue) :: exists k :: 0 <= k < |letters| && letters[k].id == id
    ensures forall id :: id in IdsOfJobs(letters) <==> AtIn(s.jobs, id, Dead, queue)
  {
    forall id | AtIn(s.jobs, id, Dead, queue)
      ensures exists j | j in letters :: j.id == id
    {
      var k :| 0 <= k < |letters| && letters[k].id == id;
      assert letters[k] in letters;
    }
  }

  lemma ItemMatches(s: State, id: JobId, queue: Option<string>, state: Option<JobState>, now: nat)
    requires id in s.jobs
    ensures Reported(s.jobs[id].place, s.jobs[id].job, now) == ItemOf(s, id, now)
    ensures Matches(ItemOf(s, id, now), queue, state) <==> id in MatchingIds(s, queue, state, now)
  {
  }

  lemma ScanFinds(b: Books, hash: Hash, s: State, expired: set<JobId>, queue: Option<string>, state: Option<JobState>,
                  now: nat)
    requires Good(b, hash, s, expired)
    ensures (set item | item in AllItems(b.shelves, now) && Matches(item, queue, state))
            == Matching(s, queue, state, now)
    ensures |Matching(s, queue, state, now)| == |MatchingIds(s, queue, state, now)|
    ensures forall a, b | a in Matching(s, queue, state, now) && b in Matching(s, queue, state, now)
            && a.job.id == b.job.id :: a == b
  {
    ScanMeans(b.shelves, hash, s.jobs, now);
    AllRest(b, hash, s, expired);
    ItemsKeepIds(s, now);
    MatchingAreLive(s, queue, state, now);
    EachOnce(s, MatchingIds(s, queue, state, now), now);
    hide Good, AllItems, Matches, MatchingIds, Reported, ItemOf, Filed;
    var found := set item | item in AllItems(b.shelves, now) && Matches(item, queue, state);
    forall item
      ensures item in found <==> item in Matching(s, queue, state, now)
    {
      if item.job.id in s.jobs {
        ItemMatches(s, item.job.id, queue, state, now);
      }
    }
  }

  lemma MatchingAreLive(s: State, queue: Option<string>, state: Option<JobState>, now: nat)
    ensures forall id | id in MatchingIds(s, queue, state, now) :: id in s.jobs
  {
  }

  lemma AllRest(b: Books, hash: Hash, s: State, expired: set<JobId>)
    requires Good(b, hash, s, expired)
    ensures Filed(s.jobs)
  {
  }

  lemma ItemsKeepIds(s: State, now: nat)
    requires Filed(s.jobs)
    ensures forall id | id in s.jobs :: ItemOf(s, id, now).job.id == id
  {
  }

  lemma RetrievableIsLive(b: Books, hash: Hash, s: State, expired: set<JobId>, id: JobId)
    requires Good(b, hash, s, expired)
    ensures Retrievable(s, id) ==> id !in expired
  {
    hide Tallies, EntryOf;
  }

  lemma {:induction false} NewestExists(items: set<Item>)
    requires items != {}
    ensures exists newest :: IsNewest(items, newest)
    decreases |items|
  {
    var any :| any in items;
    var rest := items - {any};
    assert forall item | item in items :: item in rest || item == any;
    if rest != {} {
      NewestExists(rest);
      var newest :| IsNewest(rest, newest);
      assert IsNewest(items, if newest.job.id >= any.job.id then newest else any);
    } else {
      assert IsNewest(items, any);
    }
  }

  ghost predicate Sorting(items: set<Item>, sorted: seq<Item>, todo: set<Item>) {
    && todo <= items && |sorted| + |todo| == |items|
    && (forall item | item in items :: item in todo || item in sorted)
    && (forall item | item in sorted :: item in items)
    && (forall item, i | item in todo && 0 <= i < |sorted| :: sorted[i].job.id > item.job.id)
    && (forall i, k | 0 <= i < k < |sorted| :: sorted[i].job.id > sorted[k].job.id)
  }

  predicate IsNewest(items: set<Item>, newest: Item) {
    newest in items && forall item | item in items :: item.job.id <= newest.job.id
  }

  lemma SortingStep(items: set<Item>, sorted: seq<Item>, todo: set<Item>, newest: Item)
    requires Sorting(items, sorted, todo) && IsNewest(todo, newest)
    requires forall a, b | a in items && b in items && a.job.id == b.job.id :: a == b
    ensures Sorting(items, sorted + [newest], todo - {newest})
  {
    var sorted', todo' := sorted + [newest], todo - {newest};
    assert forall item | item in sorted' :: item in sorted || item == newest;
    assert sorted'[|sorted|] == newest;
    forall item, i | item in todo' && 0 <= i < |sorted'|
      ensures sorted'[i].job.id > item.job.id
    {
      if i == |sorted| {
        assert item.job.id != newest.job.id;
      }
    }
  }

  /** `sorted` has exactly these items, each once, newest first. */
  ghost predicate ListsNewest(sorted: seq<Item>, items: set<Item>) {
    && (forall item :: item in sorted <==> item in items)
    && (forall i, k | 0 <= i < k < |sorted| :: sorted[i].job.id > sorted[k].job.id)
  }

  /** `sort_by` id, newest first. */
  method NewestFirst(items: set<Item>) returns (sorted: seq<Item>)
    requires forall a, b | a in items && b in items && a.job.id == b.job.id :: a == b
    ensures |sorted| == |items| && ListsNewest(sorted, items)
  {
    var todo := items;
    sorted := [];
    while todo != {}
      invariant Sorting(items, sorted, todo)
    {
      NewestExists(todo);
      var newest: Item :| IsNewest(todo, newest);
      SortingStep(items, sorted, todo, newest);
      hide Sorting, IsNewest;
      todo := todo - {newest};
      sorted := sorted + [newest];
    }
  }

  function Due(heap: map<JobId, Job>, now: nat): set<JobId> {
    set id | id in heap && heap[id].runAt <= now
  }

  function NotDue(heap: map<JobId, Job>, now: nat): set<JobId> {
    set id | id in heap && heap[id].runAt > now
  }

  /** The loop has counted the jobs outside `todo`. */
  ghost predicate Counted(heap: map<JobId, Job>, now: nat, todo: set<JobId>, due: nat, later: nat) {
    todo <= heap.Keys && due == |Due(heap, now) - todo| && later == |NotDue(heap, now) - todo|
  }

  lemma CountOne(heap: map<JobId, Job>, now: nat, todo: set<JobId>, due: nat, later: nat, id: JobId)
    requires Counted(heap, now, todo, due, later) && id in todo
    ensures if heap[id].runAt > now then Counted(heap, now, todo - {id}, due, later + 1)
            else Counted(heap, now, todo - {id}, due + 1, later)
  {
    Leaves(Due(heap, now), todo, id);
    Leaves(NotDue(heap, now), todo, id);
    assert id in Due(heap, now) <==> heap[id].runAt <= now;
    assert id in NotDue(heap, now) <==> heap[id].runAt > now;
    hide Due, NotDue;
  }

  lemma Leaves(ids: set<JobId>, todo: set<JobId>, id: JobId)
    requires id in todo
    ensures |ids - (todo - {id})| == |ids - todo| + if id in ids then 1 else 0
  {
    assert ids - (todo - {id}) == (ids - todo) + if id in ids then {id} else {};
  }

  lemma CountEnds(heap: map<JobId, Job>, now: nat, due: nat, later: nat)
    ensures Counted(heap, now, heap.Keys, 0, 0)
    ensures Counted(heap, now, {}, due, later) ==> due == |Due(heap, now)| && later == |NotDue(heap, now)|
  {
    assert Due(heap, now) - heap.Keys == {} && NotDue(heap, now) - heap.Keys == {};
    assert Due(heap, now) - {} == Due(heap, now) && NotDue(heap, now) - {} == NotDue(heap, now);
  }

  method CountDue(heap: map<JobId, Job>, now: nat) returns (due: nat, later: nat)
    ensures due == |Due(heap, now)| && later == |NotDue(heap, now)|
  {
    hide Counted;
    var todo := heap.Keys;
    due, later := 0, 0;
    CountEnds(heap, now, due, later);
    while todo != {}
      invariant todo <= heap.Keys && Counted(heap, now, todo, due, later)
    {
      var id :| id in todo;
      CountOne(heap, now, todo, due, later, id);
      todo := todo - {id};
      if heap[id].runAt > now {
        later := later + 1;
      } else {
        due := due + 1;
      }
    }
    CountEnds(heap, now, due, later);
  }

  // ---- Opening a flow ----

  /** The parent waits, then one child after the other is queued. */
  ghost function FlowSteps(s: State, queue: string, data: string, children: seq<FlowChild>, priority: int,
                           now: nat): seq<Step> {
    [Step.PushFlow(queue, data, children, priority, now)]
    + if children == [] then [] else Swept(EachBy(QueueChild), ChildIds(s.nextId, |children|))
  }

  /** The first `count` children queued. */
  function WithChildren(jobs: map<JobId, Placed>, parent: JobId, children: seq<FlowChild>, now: nat,
                        count: nat): map<JobId, Placed>
    requires count <= |children|
  {
    if count == 0 then jobs
    else
      var id: JobId := parent + count;
      WithChildren(jobs, parent, children, now, count - 1)[id := Placed(Queued, ChildJob(parent, children, id, now))]
  }

  lemma {:induction false} WithChildrenMeans(jobs: map<JobId, Placed>, parent: JobId, children: seq<FlowChild>,
                                             now: nat, count: nat)
    requires count <= |children|
    ensures var m := WithChildren(jobs, parent, children, now, count);
            forall k: JobId ::
              if parent < k <= parent + count then k in m && m[k] == Placed(Queued, ChildJob(parent, children, k, now))
              else (k in m <==> k in jobs) && (k in jobs ==> m[k] == jobs[k])
    decreases count
  {
    hide ChildJob;
    if count > 0 {
      WithChildrenMeans(jobs, parent, children, now, count - 1);
    }
  }

  function FlowParent(s: State, queue: string, data: string, children: seq<FlowChild>, priority: int,
                      now: nat): Placed {
    Placed(WaitingChildren, FlowJob(s.nextId, queue, data, priority, now, now, None, ChildIds(s.nextId, |children|)))
  }

  /** The parent and the first `count` children are there. */
  ghost function FlowSoFar(s: State, p: Placed, children: seq<FlowChild>, now: nat, count: nat): State
    requires count <= |children|
  {
    s.(nextId := s.nextId + |children| + 1, jobs := WithChildren(s.jobs[s.nextId := p], s.nextId, children, now, count))
  }

  lemma FlowParentIs(s: State, queue: string, data: string, children: seq<FlowChild>, priority: int, now: nat)
    ensures FlowParent(s, queue, data, children, priority, now).job.id == s.nextId
  {
  }

  lemma FlowNone(s: State, queue: string, data: string, priority: int, now: nat)
    ensures Run(s, FlowSteps(s, queue, data, [], priority, now)) == s
  {
    var step := Step.PushFlow(queue, data, [], priority, now);
    assert FlowSteps(s, queue, data, [], priority, now) == [step];
    RunOne(s, step);
  }

  /** Ids from the next one on are nowhere. */
  lemma NextIsNew(b: Books, hash: Hash, s: State, expired: set<JobId>)
    requires Good(b, hash, s, expired)
    ensures forall k: JobId | k >= s.nextId :: k !in s.jobs && k !in b.index
  {
    hide Tallies, EntryOf;
  }

  /** A job came in. */
  lemma Arrives(b: Books, b': Books, hash: Hash, s: State, expired: set<JobId>, id: JobId, p: Placed)
    requires Good(b, hash, s, expired) && id !in s.jobs && id !in b.index && id < s.nextId
    requires p.job.id == id && Resting(p.place)
    requires b' == b.(shelves := Insert(b.shelves, hash, p), index := b.index[id := LocationOf(hash, p)])
    ensures Good(b', hash, s.(jobs := s.jobs[id := p]), expired)
  {
    hide Consistent, Insert, LocationOf;
    ArrivalKeepsConsistent(b.shelves, b.index, hash, s, expired, id, p);
  }

  lemma FlowStarts(b: Books, b': Books, hash: Hash, s: State, expired: set<JobId>, p: Placed,
                   children: seq<FlowChild>, now: nat)
    requires Good(b, hash, s, expired) && p.job.id == s.nextId && p.place == WaitingChildren
    requires b'.tables == b.tables.(nextId := s.nextId + |children| + 1)
    requires b'.shelves == Insert(b.shelves, hash, p) && b'.index == b.index[s.nextId := LocationOf(hash, p)]
    ensures Good(b', hash, FlowSoFar(s, p, children, now, 0), expired)
    ensures forall k: JobId | s.nextId < k :: k !in b'.index && k !in FlowSoFar(s, p, children, now, 0).jobs
  {
    var s1 := s.(nextId := s.nextId + |children| + 1);
    NextIsNew(b, hash, s, expired);
    hide Consistent, Insert, LocationOf;
    TablesDoNotMatter(b.shelves, b.index, hash, s, s1, expired);
    ArrivalKeepsConsistent(b.shelves, b.index, hash, s1, expired, s.nextId, p);
    assert s1.(jobs := s1.jobs[s.nextId := p]) == FlowSoFar(s, p, children, now, 0);
  }

  lemma FlowGoesOn(b: Books, b': Books, hash: Hash, s: State, expired: set<JobId>, p: Placed,
                   children: seq<FlowChild>, now: nat, i: nat)
    requires i < |children| && Good(b, hash, FlowSoFar(s, p, children, now, i), expired)
    requires forall k: JobId | s.nextId + i < k :: k !in b.index && k !in FlowSoFar(s, p, children, now, i).jobs
    requires b' == Enqueue(b, hash, ChildJob(s.nextId, children, s.nextId + 1 + i, now))
    ensures Good(b', hash, FlowSoFar(s, p, children, now, i + 1), expired)
    ensures forall k: JobId | s.nextId + i + 1 < k :: k !in b'.index && k !in FlowSoFar(s, p, children, now, i + 1).jobs
  {
    var id: JobId := s.nextId + 1 + i;
    var child := Placed(Queued, ChildJob(s.nextId, children, id, now));
    assert child.job.id == id;
    FlowGrows(s, p, children, now, i);
    hide Good, ChildJob, FlowSoFar, Insert, LocationOf;
    Arrives(b, b', hash, FlowSoFar(s, p, children, now, i), expired, id, child);
  }

  lemma FlowGrows(s: State, p: Placed, children: seq<FlowChild>, now: nat, i: nat)
    requires i < |children|
    ensures var id: JobId := s.nextId + 1 + i;
            var s1, s2 := FlowSoFar(s, p, children, now, i), FlowSoFar(s, p, children, now, i + 1);
            && s2 == s1.(jobs := s1.jobs[id := Placed(Queued, ChildJob(s.nextId, children, id, now))]) && id < s1.nextId
  {
    hide ChildJob;
  }

  /** When all children are queued, the engine is where its steps lead. */
  lemma FlowSteadies(s: State, queue: string, data: string, children: seq<FlowChild>, priority: int, now: nat)
    requires children != []
    ensures FlowSoFar(s, FlowParent(s, queue, data, children, priority, now), children, now, |children|)
            == Run(s, FlowSteps(s, queue, data, children, priority, now))
  {
    var step, ids := Step.PushFlow(queue, data, children, priority, now), ChildIds(s.nextId, |children|);
    var s0 := OpenFlow(s, queue, data, children, priority, now);
    assert ids[0..] == ids;
    assert s0.(jobs := WithChildren(s0.jobs, s.nextId, children, now, 0)) == s0;
    QueueChildren(s, s0, children, now, 0);
    FlowsMeet(s, queue, data, children, priority, now);
    RunAppend(s, [step], Swept(EachBy(QueueChild), ids));
    RunOne(s, step);
    hide Run, OpenFlow, Swept, ChildIds, WithChildren, FlowSoFar;
  }

  lemma FlowsMeet(s: State, queue: string, data: string, children: seq<FlowChild>, priority: int, now: nat)
    ensures var s0, p := OpenFlow(s, queue, data, children, priority, now),
            FlowParent(s, queue, data, children, priority, now);
            s0.(jobs := WithChildren(s0.jobs, s.nextId, children, now, |children|))
                == FlowSoFar(s, p, children, now, |children|)
  {
    var s0, p := OpenFlow(s, queue, data, children, priority, now), FlowParent(s, queue, data, children, priority, now);
    WithChildrenMeans(s0.jobs, s.nextId, children, now, |children|);
    WithChildrenMeans(s.jobs[s.nextId := p], s.nextId, children, now, |children|);
    var m, m' := WithChildren(s0.jobs, s.nextId, children, now, |children|),
        WithChildren(s.jobs[s.nextId := p], s.nextId, children, now, |children|);
    hide WithChildren, ChildJob, FlowJob;
    assert m == m' by {
      forall k: JobId
        ensures (k in m <==> k in m') && (k in m ==> m[k] == m'[k])
      {
      }
    }
  }

  lemma ChildIs(parent: JobId, children: seq<FlowChild>, now: nat, i: nat)
    requires i < |children|
    ensures var id: JobId := parent + 1 + i;
            IsChild(Placed(Queued, ChildJob(parent, children, id, now)), id, children[i], parent, now)
  {
  }

  lemma FlowHasChild(s: State, p: Placed, children: seq<FlowChild>, now: nat, i: nat)
    requires i < |children|
    ensures var id: JobId, m := s.nextId + 1 + i, FlowSoFar(s, p, children, now, |children|).jobs;
            id in m && IsChild(m[id], id, children[i], s.nextId, now)
  {
    WithChildrenMeans(s.jobs[s.nextId := p], s.nextId, children, now, |children|);
    ChildIs(s.nextId, children, now, i);
    hide WithChildren, ChildJob, IsChild;
  }

  lemma IsChildId(parent: JobId, count: nat, k: JobId)
    requires parent < k <= parent + count
    ensures k in ChildIds(parent, count)
  {
    assert ChildIds(parent, count)[k - parent - 1] == k;
  }

  lemma FlowHasRest(s: State, p: Placed, children: seq<FlowChild>, now: nat, k: JobId)
    requires k !in ChildIds(s.nextId, |children|)
    ensures var m := FlowSoFar(s, p, children, now, |children|).jobs;
            if k == s.nextId then k in m && m[k] == p
            else (k in m <==> k in s.jobs) && (k in s.jobs ==> m[k] == s.jobs[k])
  {
    WithChildrenMeans(s.jobs[s.nextId := p], s.nextId, children, now, |children|);
    if s.nextId < k <= s.nextId + |children| {
      IsChildId(s.nextId, |children|, k);
    }
    hide WithChildren, ChildJob;
  }

  /** Which child an id stands for. */
  lemma FlowPromise(s: State, queue: string, data: string, children: seq<FlowChild>, priority: int, now: nat)
    ensures var s' := FlowSoFar(s, FlowParent(s, queue, data, children, priority, now), children, now, |children|);
            FlowDoes(s, s', queue, data, children, priority, now, ChildIds(s.nextId, |children|))
  {
    var p, ids := FlowParent(s, queue, data, children, priority, now), ChildIds(s.nextId, |children|);
    var s' := FlowSoFar(s, p, children, now, |children|);
    assert s' == s.(jobs := s'.jobs, nextId := s.nextId + |children| + 1);
    assert IsParent(p, s.nextId, queue, data, priority, now, ids);
    hide FlowSoFar, FlowParent, ChildIds, IsChild, IsParent;
    forall i | 0 <= i < |children|
      ensures ids[i] in s'.jobs && IsChild(s'.jobs[ids[i]], ids[i], children[i], s.nextId, now)
    {
      FlowHasChild(s, p, children, now, i);
    }
    FlowHasRest(s, p, children, now, s.nextId);
    forall k | k != s.nextId && k !in ids
      ensures (k in s'.jobs <==> k in s.jobs) && (k in s.jobs ==> s'.jobs[k] == s.jobs[k])
    {
      FlowHasRest(s, p, children, now, k);
    }
  }

  lemma {:induction false} QueueChildren(s: State, s0: State, children: seq<FlowChild>, now: nat, i: nat)
    requires i <= |children|
    requires forall id: JobId | s.nextId < id <= s.nextId + |children| ::
               id in s0.jobs && s0.jobs[id] == Placed(Allocated, ChildJob(s.nextId, children, id, now))
    ensures Run(s0.(jobs := WithChildren(s0.jobs, s.nextId, children, now, i)),
                Swept(EachBy(QueueChild), ChildIds(s.nextId, |children|)[i..]))
            == s0.(jobs := WithChildren(s0.jobs, s.nextId, children, now, |children|))
    decreases |children| - i
  {
    hide ChildJob, WithChildren, Run, Act, Next, Swept, StepsOf;
    var s1, ids := s0.(jobs := WithChildren(s0.jobs, s.nextId, children, now, i)), ChildIds(s.nextId, |children|);
    if i < |children| {
      var id := ids[i];
      QueueChildStep(s, s0, children, now, i);
      assert ids[i..] == [id] + ids[i + 1..];
      SweptFirst(s1, EachBy(QueueChild), id, ids[i + 1..]);
      OneStep(s1, id);
      QueueChildren(s, s0, children, now, i + 1);
    } else {
      assert ids[i..] == [];
      SweptNone(s1, EachBy(QueueChild));
    }
  }

  lemma SweptFirst(s: State, sweep: Sweep, id: JobId, ids: seq<JobId>)
    ensures Run(s, Swept(sweep, [id] + ids)) == Run(Run(s, StepsOf(sweep, id)), Swept(sweep, ids))
  {
    assert ([id] + ids)[1..] == ids;
    RunAppend(s, StepsOf(sweep, id), Swept(sweep, ids));
  }

  lemma OneStep(s: State, id: JobId)
    ensures Run(s, StepsOf(EachBy(QueueChild), id)) == Next(s, On(id, QueueChild))
  {
    RunOne(s, On(id, QueueChild));
  }

  lemma QueueChildStep(s: State, s0: State, children: seq<FlowChild>, now: nat, i: nat)
    requires i < |children|
    requires forall id: JobId | s.nextId < id <= s.nextId + |children| ::
               id in s0.jobs && s0.jobs[id] == Placed(Allocated, ChildJob(s.nextId, children, id, now))
    ensures Next(s0.(jobs := WithChildren(s0.jobs, s.nextId, children, now, i)), On(s.nextId + 1 + i, QueueChild))
            == s0.(jobs := WithChildren(s0.jobs, s.nextId, children, now, i + 1))
  {
    var id: JobId := s.nextId + 1 + i;
    var m, child := WithChildren(s0.jobs, s.nextId, children, now, i), ChildJob(s.nextId, children, id, now);
    WithChildrenMeans(s0.jobs, s.nextId, children, now, i);
    assert WithChildren(s0.jobs, s.nextId, children, now, i + 1) == m[id := Placed(Queued, child)];
    hide ChildJob, WithChildren;
    QueueChildMeans(s0.(jobs := m), id);
  }

  lemma QueueChildMeans(s: State, id: JobId)
    requires At(s, id, Allocated)
    ensures Next(s, On(id, QueueChild)) == s.(jobs := s.jobs[id := Placed(Queued, s.jobs[id].job)])
  {
  }

  /** The jobs of `ids` that a batch ack is done with. */
  ghost function DoneOf(s: State, ids: seq<JobId>): set<JobId> {
    set id | id in ids && At(s, id, Processing)
  }

  lemma BatchAckNone(s: State)
    ensures BatchAckDoes(s, s, []) && DoneOf(s, []) == {}
  {
  }

  lemma DoneGrows(s: State, mid: State, ids: seq<JobId>, id: JobId)
    requires BatchAckDoes(s, mid, ids)
    ensures |DoneOf(s, ids + [id])| == |DoneOf(s, ids)| + if At(mid, id, Processing) then 1 else 0
  {
    var done, done' := DoneOf(s, ids), DoneOf(s, ids + [id]);
    assert forall k :: k in ids + [id] <==> k in ids || k == id;
    assert At(mid, id, Processing) <==> At(s, id, Processing) && id !in ids;
    assert done' == if At(mid, id, Processing) then done + {id} else done;
  }

  lemma DependenciesMet(s: State)
    ensures forall id | id in s.jobs ::
              var deps := s.jobs[id].job.dependsOn;
              !DepsPending(s.completed, s.jobs[id].job) <==> forall d | d in deps :: d in s.completed
  {
  }

  lemma IdsBelow(b: Books, hash: Hash, s: State, expired: set<JobId>)
    requires Good(b, hash, s, expired)
    ensures forall id | id in s.jobs :: id < s.nextId
  {
    hide Tallies, IndexTally;
  }

  class QueueManager {
    const hash: Hash
    var books: Books
    ghost var model: State
    ghost var expired: set<JobId>      // dropped by a pull as expired; their index entries stay

    ghost predicate Valid()
      reads this
    {
      Good(books, hash, model, expired)
    }

    constructor (hash: Hash)
      ensures Valid() && model == INITIAL && this.hash == hash && expired == {}
    {
      this.hash := hash;
      books := Books(Shelves(map[], map[], map[], map[], map[]), map[],
                     Tables(map[], {}, {}, {}, map[], {}, map[], map[], 1));
      model, expired := INITIAL, {};
    }

    // ---- Acknowledgment (engine/src/queue/ack.rs) ----

    /** `fail` */
    method Fail(id: JobId, now: nat) returns (ok: bool)
      requires Valid()
      modifies this
      ensures Valid()
      ensures ok == At(old(model), id, Processing)
      ensures model == Run(old(model), LeaveBy(id, Action.Fail(now)))
      ensures if ok then FailDoes(old(model), model, id, now) else model == old(model)
    {
      hide FailDoes, Consistent, Apply, LeavingEffect, Run, Settles, LeaveBy, Retried, Failed, Insert, Extract,
           LocationOf,
           LookUp, TakeAt;
      hide ReleaseConcurrency, ReleaseGroup, Job.ShouldGoToDlq, TablesOf;
      ghost var s, action := model, Action.Fail(now);
      FindsActive(books, hash, s, expired, id);
      LeaveThen(s, id, action);
      var found := LookUp(books.shelves, InProcessing, id);
      if found.None? {
        return false;
      }
      FailPromise(s, id, now);
      var job := found.value;
      ghost var e := LeavingEffect(job, action);
      var b := TakeOut(books, InProcessing, id);
      b := b.(tables := b.tables.(limiters := ReleaseConcurrency(b.tables.limiters, job.queue),
                                  groups := ReleaseGroup(b.tables.groups, job.queue, job.groupId)));
      if !Failed(job).ShouldGoToDlq() {
        FailRetries(s, id, now);
        b := Enqueue(b, hash, Retried(Failed(job), now));
        Moved(books, b, hash, s, expired, id, e, Placed(Queued, Retried(Failed(job), now)));
      } else if job.removeOnFail {
        FailVanishes(s, id, now);
        b := Unindex(b, id);
        b := b.(tables := b.tables.(stalled := b.tables.stalled - {id}));
        Gone(books, b, hash, s, expired, id, e);
      } else {
        FailBuries(s, id, now);
        b := DeadLetter(b, hash, Failed(job));
        Moved(books, b, hash, s, expired, id, e, Placed(Dead, Failed(job)));
      }
      books, model := b, Apply(s, id, e);
      return true;
    }

    /** `on_child_completed`: every shard is searched for the parent. */
    method OnChildCompleted(p: JobId)
      requires Valid()
      modifies this
      ensures Valid() && model == CountChild(old(model), p)
      ensures CountDoes(old(model), model, p)
    {
      hide CountDoes, Consistent, Apply, CountEffect, Settles, Insert, Extract, LookUp, TakeAt, WriteAt, TablesOf,
           LocationOf;
      ghost var s := model;
      CountPromise(s, p);
      for shard := 0 to NUM_SHARDS
        invariant books == old(books) && model == s && expired == old(expired)
        invariant forall i | 0 <= i < shard :: LookUp(books.shelves, InWaitingChildren(i), p).None?
      {
        ghost var here := FindsWaiting(books, hash, s, expired, p, shard);
        var found := LookUp(books.shelves, InWaitingChildren(shard), p);
        if found.Some? {
          CountMeans(s, p);
          var told := found.value.(childrenCompleted := found.value.childrenCompleted + 1);
          ghost var e := CountEffect(found.value);
          TellsParent(found.value);
          if told.childrenCompleted >= |told.childrenIds| {
            var b := Enqueue(TakeOut(books, InWaitingChildren(shard), p), hash, told);
            Moved(books, b, hash, s, expired, p, e, Placed(Queued, told));
            books, model := b, Apply(s, p, e);
          } else {
            var b := Write(books, InWaitingChildren(shard), told);
            Rewritten(books, b, hash, s, expired, p, e, Placed(WaitingChildren, told), InWaitingChildren(shard));
            books, model := b, Apply(s, p, e);
          }
          return;
        }
      }
      if At(s, p, WaitingChildren) {
        ghost var here := FindsWaiting(books, hash, s, expired, p, ShardIndex(hash, s.jobs[p].job.queue));
        assert false;
      }
    }

    /** `ack` */
    method Ack(id: JobId) returns (ok: bool)
      requires Valid()
      modifies this
      ensures Valid()
      ensures ok == At(old(model), id, Processing)
      ensures model == Run(old(model), Acking(id))
      ensures if ok then AckDoes(old(model), model, id) else model == old(model)
    {
      hide AckDoes, CompleteDoes, CountDoes, Consistent, Apply, LeavingEffect, Run, LookUp, TakeAt, Extract, Acking,
           CountChild;
      hide ReleaseConcurrency, ReleaseGroup, RemoveUniqueKey, TablesOf;
      ghost var s := model;
      FindsActive(books, hash, s, expired, id);
      var found := LookUp(books.shelves, InProcessing, id);
      if found.None? {
        AckIdle(s, id);
        return false;
      }
      AckMeans(s, id);
      AckPromise(s, id);
      var job := found.value;
      Complete(id, job, job.queue);
      if job.parentId.Some? {
        OnChildCompleted(job.parentId.value);
      }
      return true;
    }

    /** What `ack` and `ack_batch` do with a job found in processing, but for telling the parent. */
    method Complete(id: JobId, job: Job, queue: string)
      requires Valid() && At(model, id, Processing) && model.jobs[id].job == job
      modifies this
      ensures Valid() && model == Apply(old(model), id, LeavingEffect(job, BatchAck(queue)))
      ensures CompleteDoes(old(model), model, id, queue)
      ensures expired == old(expired)
    {
      hide CompleteDoes, Consistent, Apply, LeavingEffect, LookUp, TakeAt, Extract, ReleaseConcurrency, ReleaseGroup,
           RemoveUniqueKey, TablesOf;
      ghost var s, e := model, LeavingEffect(job, BatchAck(queue));
      FindsActive(books, hash, s, expired, id);
      BatchAckMeans(s, id, queue);
      CompletePromise(s, id, queue);
      var b := TakeOut(books, InProcessing, id);
      b := b.(tables := b.tables.(limiters := ReleaseConcurrency(b.tables.limiters, queue),
                                  groups := ReleaseGroup(b.tables.groups, queue, job.groupId),
                                  keys := RemoveUniqueKey(b.tables.keys, queue, job.uniqueKey)));
      if job.removeOnComplete {
        b := Unindex(b, id);
        b := b.(tables := b.tables.(stalled := b.tables.stalled - {id}));
        Gone(books, b, hash, s, expired, id, e);
      } else {
        b := b.(index := b.index[id := InCompleted], tables := b.tables.(completed := b.tables.completed + {id}));
        Done(books, b, hash, s, expired, id, e);
      }
      books, model := b, Apply(s, id, e);
    }

    /** `ack_batch`: what is given back goes to the queue first seen in the job's shard. */
    method AckBatch(ids: seq<JobId>) returns (acked: nat)
      requires Valid()
      modifies this
      ensures Valid()
      ensures model == Run(old(model), BatchSteps(old(model), hash, ids, map[]))
      ensures acked == |BatchSteps(old(model), hash, ids, map[])| / 2
      ensures BatchAckDoes(old(model), model, ids) && acked == |DoneOf(old(model), ids)|
    {
      hide CompleteDoes, BatchAckDoes, DoneOf, Consistent, Apply, LeavingEffect, Run, LeaveBy, LookUp;
      ghost var s, steps := model, [];
      var first: map<nat, string> := map[];
      acked := 0;
      RunNone(s);
      assert ids[0..] == ids && ids[..0] == [];
      BatchAckNone(s);
      for i := 0 to |ids|
        invariant Valid() && model == Run(s, steps) && |steps| == 2 * acked
        invariant steps + BatchSteps(model, hash, ids[i..], first) == BatchSteps(s, hash, ids, map[])
        invariant BatchAckDoes(s, model, ids[..i]) && acked == |DoneOf(s, ids[..i])|
      {
        ghost var before := model;
        assert ids[..i + 1] == ids[..i] + [ids[i]];
        var id := ids[i];
        BatchHead(model, hash, ids[i..], first);
        assert ids[i..][1..] == ids[i + 1..];
        FindsActive(books, hash, model, expired, id);
        var found := LookUp(books.shelves, InProcessing, id);
        if found.Some? {
          var job := found.value;
          var shard := ShardIndex(hash, job.queue);
          if shard !in first {
            first := first[shard := job.queue];
          }
          LeaveThen(model, id, BatchAck(first[shard]));
          RunAppend(s, steps, LeaveBy(id, BatchAck(first[shard])));
          steps := steps + LeaveBy(id, BatchAck(first[shard]));
          Complete(id, job, first[shard]);
          acked := acked + 1;
        }
        DoneGrows(s, before, ids[..i], id);
        BatchAckStep(s, before, model, ids[..i], id);
      }
      assert ids[..|ids|] == ids;
      assert ids[|ids|..] == [] && steps + [] == steps;
    }

    // ---- Job operations (engine/src/queue/job_ops.rs) ----

    /** `cancel` */
    method Cancel(id: JobId) returns (ok: bool)
      requires Valid()
      modifies this
      ensures Valid()
      ensures ok == (id in old(model).jobs && id !in old(model).released && old(model).jobs[id].place != Dead)
      ensures if ok then CancelDoes(old(model), model, id) else model == old(model)
      ensures model == Run(old(model), if At(old(model), id, Processing) then LeaveBy(id, CancelActive)
                           else [On(id, CancelWaiting)])
    {
      hide CancelDoes, Consistent, Apply, LeavingEffect, Run, Settles, LeaveBy, Insert, Extract, LookUp, TakeAt,
           Retrievable;
      hide ReleaseConcurrency, RemoveUniqueKey, TablesOf;
      ghost var s := model;
      Finds(books, hash, s, expired, id);
      FindsActive(books, hash, s, expired, id);
      if id !in books.index || LookUp(books.shelves, books.index[id], id).None? {
        CancelWaitingIdle(s, id);
        return false;
      }
      var l := books.index[id];
      var job := LookUp(books.shelves, l, id).value;
      var b := Unindex(TakeOut(books, l, id), id);
      if l.InProcessing? {
        LeaveThen(s, id, CancelActive);
        CancelActiveMeans(s, id);
        CancelActivePromise(s, id);
        b := b.(tables := b.tables.(limiters := ReleaseConcurrency(b.tables.limiters, job.queue),
                                    keys := RemoveUniqueKey(b.tables.keys, job.queue, job.uniqueKey)));
        Gone(books, b, hash, s, expired, id, LeavingEffect(job, CancelActive));
        books, model := b, Apply(s, id, LeavingEffect(job, CancelActive));
        return true;
      }
      if l.InDlq? {
        CancelWaitingIdle(s, id);
        return false;
      }
      ghost var e := CancelWaitingMeans(s, id);
      CancelWaitingPromise(s, id);
      if l.InQueue? {
        b := b.(tables := b.tables.(keys := RemoveUniqueKey(b.tables.keys, l.queue, job.uniqueKey)));
      }
      Gone(books, b, hash, s, expired, id, e);
      books, model := b, Apply(s, id, e);
      return true;
    }

    /** `change_priority`, `update_job_data` and `promote`: the job is looked up by the index, taken out,
        changed and put back. */
    method Amend(id: JobId, action: Action) returns (ok: bool)
      requires Valid() && Amends(action)
      modifies this
      ensures Valid()
      ensures ok == (id in old(model).jobs && id !in old(model).released
                     && var p := old(model).jobs[id];
                        match action
                        case ChangePriority(_) => true
                        case UpdateData(_) => p.place == Queued || p.place == Processing || p.place == Dead
                        case Promote(now) => p.place == Queued && p.job.runAt > now)
      ensures if ok then AmendDoes(old(model), model, id, action) else model == old(model)
      ensures model == Run(old(model), [On(id, action)])
    {
      hide AmendDoes, Consistent, Apply, Run, Settles, Extract, LookUp, TakeAt, WriteAt, Amended, TablesOf;
      ghost var s := model;
      Finds(books, hash, s, expired, id);
      if !CanAmend(s, id, action) {
        AmendIdle(s, id, action);
      }
      if id !in books.index || LookUp(books.shelves, books.index[id], id).None? {
        return false;
      }
      var l := books.index[id];
      var job := LookUp(books.shelves, l, id).value;
      var can := match action
                 case ChangePriority(_) => true
                 case UpdateData(_) => l.InQueue? || l.InProcessing? || l.InDlq?
                 case Promote(now) => l.InQueue? && job.runAt > now;
      if !can {
        return false;
      }
      ghost var e := AmendMeans(s, id, action);
      AmendPromise(s, id, action);
      var b := Write(books, l, Amended(job, action));
      Rewritten(books, b, hash, s, expired, id, e, Placed(s.jobs[id].place, Amended(job, action)), l);
      books, model := b, Apply(s, id, e);
      return true;
    }

    /** `heartbeat` */
    method Heartbeat(id: JobId, now: nat) returns (ok: bool)
      requires Valid()
      modifies this
      ensures Valid()
      ensures ok == At(old(model), id, Processing)
      ensures model == Run(old(model), if ok then Beating(id, now) else [])
      ensures if ok then HeartbeatDoes(old(model), model, id, now) else model == old(model)
    {
      hide HeartbeatDoes, Consistent, Apply, Run, Settles, LookUp, TakeAt, WriteAt, TablesOf, Beating, HeartbeatEffect;
      ghost var s := model;
      RunNone(s);
      FindsActive(books, hash, s, expired, id);
      var found := LookUp(books.shelves, InProcessing, id);
      if found.None? {
        return false;
      }
      var job := found.value.(lastHeartbeat := now);
      ghost var e := HeartbeatEffect(found.value, now);
      HeartbeatRuns(s, id, now);
      HeartbeatMeans(s, id, now);
      HeartbeatPromise(s, id, now);
      var b := Write(books, InProcessing, job);
      b := b.(tables := b.tables.(stalled := b.tables.stalled - {id}));
      Rewritten(books, b, hash, s, expired, id, e, Placed(Processing, job), InProcessing);
      books, model := b, Apply(s, id, e);
      return true;
    }

    /** `move_to_delayed` */
    method MoveToDelayed(id: JobId, delay: nat, now: nat) returns (ok: bool)
      requires Valid()
      modifies this
      ensures Valid()
      ensures ok == At(old(model), id, Processing)
      ensures model == Run(old(model), LeaveBy(id, Delay(delay, now)))
      ensures if ok then DelayDoes(old(model), model, id, delay, now) else model == old(model)
    {
      hide DelayDoes, Consistent, Apply, LeavingEffect, Run, Settles, LeaveBy, Delayed, Insert, Extract, LocationOf,
           LookUp,
           TakeAt;
      hide ReleaseConcurrency, TablesOf;
      ghost var s, action := model, Delay(delay, now);
      FindsActive(books, hash, s, expired, id);
      LeaveThen(s, id, action);
      var found := LookUp(books.shelves, InProcessing, id);
      if found.None? {
        return false;
      }
      var job := found.value;
      DelayMeans(s, id, delay, now);
      DelayPromise(s, id, delay, now);
      var b := Enqueue(TakeOut(books, InProcessing, id), hash, Delayed(job, delay, now));
      b := b.(tables := b.tables.(limiters := ReleaseConcurrency(b.tables.limiters, job.queue)));
      Moved(books, b, hash, s, expired, id, LeavingEffect(job, action), Placed(Queued, Delayed(job, delay, now)));
      books, model := b, Apply(s, id, LeavingEffect(job, action));
      return true;
    }

    /** `discard` */
    method Discard(id: JobId) returns (ok: bool)
      requires Valid()
      modifies this
      ensures Valid()
      ensures ok == (id in old(model).jobs && id !in old(model).released
                     && (old(model).jobs[id].place == Queued || old(model).jobs[id].place == Processing))
      ensures if ok then DiscardDoes(old(model), model, id) else model == old(model)
      ensures model == Run(old(model), if At(old(model), id, Processing) then LeaveBy(id, DiscardActive)
                           else [On(id, DiscardQueued)])
    {
      hide DiscardDoes, Consistent, Apply, LeavingEffect, Run, Settles, LeaveBy, Insert, Extract, LookUp, TakeAt,
           Retrievable;
      hide ReleaseConcurrency, TablesOf;
      ghost var s := model;
      Finds(books, hash, s, expired, id);
      FindsActive(books, hash, s, expired, id);
      if id !in books.index || LookUp(books.shelves, books.index[id], id).None?
         || !(books.index[id].InProcessing? || books.index[id].InQueue?) {
        DiscardQueuedIdle(s, id);
        return false;
      }
      var l := books.index[id];
      var job := LookUp(books.shelves, l, id).value;
      var b := DeadLetter(TakeOut(books, l, id), hash, job);
      if l.InProcessing? {
        LeaveThen(s, id, DiscardActive);
        DiscardActiveMeans(s, id);
        DiscardActivePromise(s, id);
        b := b.(tables := b.tables.(limiters := ReleaseConcurrency(b.tables.limiters, job.queue)));
        Moved(books, b, hash, s, expired, id, LeavingEffect(job, DiscardActive), Placed(Dead, job));
        books, model := b, Apply(s, id, LeavingEffect(job, DiscardActive));
      } else {
        ghost var e := DiscardQueuedMeans(s, id);
        DiscardQueuedPromise(s, id);
        Moved(books, b, hash, s, expired, id, e, Placed(Dead, job));
        books, model := b, Apply(s, id, e);
      }
      return true;
    }

    // ---- Background checks (engine/src/queue/background/timeout.rs, engine/src/queue/monitoring.rs) ----

    method TimeOutOne(id: JobId, now: nat)
      requires Valid() && At(model, id, Processing)
      modifies `books, `model
      ensures Valid() && model == Run(old(model), TimingOut(id, now)) && Touches(old(model), model, id)
      ensures TimeOutDoes(old(model), model, id, now) && SweepDoes(AsOverrun(now), old(model), model, [id])
    {
      hide TimeOutDoes, SweepDoes, Consistent, Apply, Run, Settles, TimingOut, TimeOutEffect, Retried, Failed, Insert,
           Extract, LocationOf,
           LookUp, TakeAt;
      hide ReleaseConcurrency, Job.ShouldGoToDlq, TablesOf, Touches;
      ghost var s := model;
      FindsActive(books, hash, s, expired, id);
      var job := LookUp(books.shelves, InProcessing, id).value;
      ghost var e := TimeOutEffect(job, now);
      TimeOutRuns(s, id, now);
      TimeOutMeans(s, id, now);
      OverrunSweeps(s, id, now);
      ApplyTouches(s, id, e);
      var b := TakeOut(books, InProcessing, id);
      b := b.(tables := b.tables.(limiters := ReleaseConcurrency(b.tables.limiters, job.queue)));
      if Failed(job).ShouldGoToDlq() {
        b := DeadLetter(b, hash, Failed(job));
        Moved(books, b, hash, s, expired, id, e, Placed(Dead, Failed(job)));
      } else {
        b := Enqueue(b, hash, Retried(Failed(job), now));
        Moved(books, b, hash, s, expired, id, e, Placed(Queued, Retried(Failed(job), now)));
      }
      books, model := b, Apply(s, id, e);
    }

    /** `check_timed_out_jobs`: `ids` are the jobs found overdue, in the order they are handled. */
    method CheckTimedOutJobs(now: nat) returns (ghost ids: seq<JobId>)
      requires Valid()
      modifies `books, `model
      ensures Valid() && model == Run(old(model), Swept(EachTimesOut(now), ids)) && NoneTwice(ids)
      ensures forall id :: id in ids <==> At(old(model), id, Processing) && TooLong(old(model).jobs[id].job, now)
      ensures SweepDoes(AsOverrun(now), old(model), model, ids)
    {
      hide SweepDoes, TimeOutDoes, TooLong, Consistent, Run, Swept, Touches, IdsWhere, NoneTwice, Job.IsTimedOut;
      ghost var s := model;
      var overdue := (j: Job) => j.IsTimedOut(now);
      FindsEach(books, hash, s, expired, overdue);
      forall job {
        TimesAgree(job, now);
      }
      var todo := IdsWhere(books.shelves.processing, overdue);
      ghost var all := todo;
      ids := [];
      SweptNone(s, EachTimesOut(now));
      SweepNone(AsOverrun(now), s);
      while todo != {}
        invariant SweepDoes(AsOverrun(now), s, model, ids)
        invariant Valid() && model == Run(s, Swept(EachTimesOut(now), ids)) && NoneTwice(ids)
        invariant forall id :: id in all <==> id in todo || id in ids
        invariant forall id | id in todo :: id !in ids
        invariant forall id | id in todo :: At(model, id, Processing)
      {
        var id :| id in todo;
        ghost var before := model;
        TimeOutOne(id, now);
        TouchesOne(before, model, id);
        SweepOne(s, before, model, EachTimesOut(now), ids, id);
        SweepStep(AsOverrun(now), s, before, model, ids, id);
        ids := ids + [id];
        todo := todo - {id};
      }
    }

    method StallOne(id: JobId, now: nat)
      requires Valid() && At(model, id, Processing) && IsStalled(model.jobs[id].job, now)
      modifies `books, `model
      ensures Valid() && model == Run(old(model), Stalling(id, now)) && Touches(old(model), model, id)
      ensures SweepDoes(AsSilent(now), old(model), model, [id])
    {
      hide SweepDoes, Consistent, Apply, Run, Settles, Suspected, Stalling, StallEffect, IsStalled, Insert, Extract,
           LocationOf,
           LookUp, TakeAt;
      hide WriteAt, TablesOf, Touches, StallCount;
      ghost var s := model;
      FindsActive(books, hash, s, expired, id);
      ghost var e := StallEffect(s.jobs[id].job, StallCount(s, id) + 1, now);
      StallRuns(s, id, now);
      StallMeans(s, id, now);
      SilentSweeps(s, id, now);
      ApplyTouches(s, id, e);
      var job := LookUp(books.shelves, InProcessing, id).value;
      var count := (if id in books.tables.stalled then books.tables.stalled[id] else 0) + 1;
      TablesCount(s, id);
      var b := books.(tables := books.tables.(stalled := books.tables.stalled[id := count]));
      if count >= 3 {
        b := DeadLetter(TakeOut(b, InProcessing, id), hash, job);
        Moved(books, b, hash, s, expired, id, e, Placed(Dead, job));
      } else {
        b := Write(b, InProcessing, Suspected(job, now));
        Rewritten(books, b, hash, s, expired, id, e, Placed(Processing, Suspected(job, now)), InProcessing);
      }
      books, model := b, Apply(s, id, e);
    }

    /** `check_stalled_jobs` */
    method CheckStalledJobs(now: nat) returns (ghost ids: seq<JobId>)
      requires Valid()
      modifies `books, `model
      ensures Valid() && model == Run(old(model), Swept(EachStalls(now), ids)) && NoneTwice(ids)
      ensures forall id :: id in ids <==> At(old(model), id, Processing) && TooSilent(old(model).jobs[id].job, now)
      ensures SweepDoes(AsSilent(now), old(model), model, ids)
    {
      hide SweepDoes, TooSilent, Consistent, Run, Swept, Touches, IdsWhere, NoneTwice, Stalling, IsStalled;
      ghost var s := model;
      var silent := (j: Job) => IsStalled(j, now);
      FindsEach(books, hash, s, expired, silent);
      forall job {
        TimesAgree(job, now);
      }
      var todo := IdsWhere(books.shelves.processing, silent);
      ghost var all := todo;
      ids := [];
      SweptNone(s, EachStalls(now));
      SweepNone(AsSilent(now), s);
      while todo != {}
        invariant SweepDoes(AsSilent(now), s, model, ids)
        invariant Valid() && model == Run(s, Swept(EachStalls(now), ids)) && NoneTwice(ids)
        invariant forall id :: id in all <==> id in todo || id in ids
        invariant forall id | id in todo :: id !in ids
        invariant forall id | id in todo :: At(model, id, Processing) && IsStalled(model.jobs[id].job, now)
      {
        var id :| id in todo;
        ghost var before := model;
        StallOne(id, now);
        TouchesOne(before, model, id);
        SweepOne(s, before, model, EachStalls(now), ids, id);
        SweepStep(AsSilent(now), s, before, model, ids, id);
        ids := ids + [id];
        todo := todo - {id};
      }
    }

    /** A job whose dependencies are met goes from `waiting_deps` to its queue; the index is not told. */
    method ReleaseOne(id: JobId)
      requires Valid() && At(model, id, WaitingDeps) && !DepsPending(model.completed, model.jobs[id].job)
      modifies `books, `model
      ensures Valid() && model == Run(old(model), StepsOf(EachBy(ReleaseDeps), id)) && Touches(old(model), model, id)
      ensures model.completed == old(model).completed
      ensures SweepDoes(AsUnblocked, old(model), model, [id])
    {
      hide SweepDoes, Consistent, Apply, Run, Insert, Extract, LookUp, TakeAt, TablesOf, Touches, DepsPending,
           Retrievable;
      ghost var s := model;
      Finds(books, hash, s, expired, id);
      RunOne(s, On(id, ReleaseDeps));
      ghost var e := ReleaseDepsMeans(s, id);
      DependenciesMet(s);
      UnblockedSweeps(s, id);
      ApplyTouches(s, id, e);
      var l := books.index[id];
      var job := LookUp(books.shelves, l, id).value;
      var b := TakeOut(books, l, id);
      b := b.(shelves := Insert(b.shelves, hash, Placed(Queued, job)));
      Hidden(books, b, hash, s, expired, id, e, Placed(Queued, job));
      TablesKeepCompleted(s, Apply(s, id, e));
      books, model := b, Apply(s, id, e);
    }

    /** `check_dependencies` */
    method CheckDependencies() returns (ghost ids: seq<JobId>)
      requires Valid()
      modifies `books, `model
      ensures Valid() && model == Run(old(model), Swept(EachBy(ReleaseDeps), ids)) && NoneTwice(ids)
      ensures old(model).completed != {} ==>
                forall id :: id in ids <==>
                  && At(old(model), id, WaitingDeps)
                  && forall d | d in old(model).jobs[id].job.dependsOn :: d in old(model).completed
      ensures old(model).completed == {} ==> ids == []
      ensures SweepDoes(AsUnblocked, old(model), model, ids)
    {
      DependenciesMet(model);
      hide SweepDoes, Consistent, Run, Swept, Touches, IdsWhere, NoneTwice, StepsOf, DepsPending;
      ghost var s := model;
      ids := [];
      SweptNone(s, EachBy(ReleaseDeps));
      SweepNone(AsUnblocked, s);
      if books.tables.completed == {} {
        return;
      }
      var completed := books.tables.completed;
      var met := (j: Job) => !DepsPending(completed, j);
      FindsEach(books, hash, s, expired, met);
      var todo := IdsWhere(books.shelves.deps, met);
      ghost var all := todo;
      while todo != {}
        invariant Valid() && model == Run(s, Swept(EachBy(ReleaseDeps), ids)) && NoneTwice(ids)
                  && model.completed == completed && SweepDoes(AsUnblocked, s, model, ids)
        invariant forall id :: id in all <==> id in todo || id in ids
        invariant forall id | id in todo :: id !in ids
        invariant forall id | id in todo :: At(model, id, WaitingDeps) && !DepsPending(completed, model.jobs[id].job)
      {
        var id :| id in todo;
        ghost var before := model;
        ReleaseOne(id);
        TouchesOne(before, model, id);
        SweepOne(s, before, model, EachBy(ReleaseDeps), ids, id);
        SweepStep(AsUnblocked, s, before, model, ids, id);
        ids := ids + [id];
        todo := todo - {id};
      }
    }

    // ---- Dead letters (engine/src/queue/dlq.rs) ----

    method ReviveOne(queue: string, id: JobId, now: nat)
      requires Valid() && AtIn(model.jobs, id, Dead, queue)
      modifies `books, `model
      ensures Valid() && model == Run(old(model), StepsOf(EachBy(RetryDead(now)), id)) && Touches(old(model), model, id)
      ensures SweepDoes(AsRevived(now), old(model), model, [id])
    {
      hide SweepDoes, Consistent, Apply, Run, Settles, Revived, Insert, Extract, LocationOf, LookUp, TakeAt, TablesOf,
           Touches;
      ghost var s := model;
      FindsDead(books, hash, s, expired, queue, id);
      var l := InDlq(ShardIndex(hash, queue), queue);
      var job := LookUp(books.shelves, l, id).value;
      RunOne(s, On(id, RetryDead(now)));
      ghost var e := RetryDeadMeans(s, id, now);
      RevivedSweeps(s, id, now);
      ApplyTouches(s, id, e);
      var b := Enqueue(TakeOut(books, l, id), hash, Revived(job, now));
      Moved(books, b, hash, s, expired, id, e, Placed(Queued, Revived(job, now)));
      books, model := b, Apply(s, id, e);
    }

    method DropLetter(queue: string, id: JobId)
      requires Valid() && AtIn(model.jobs, id, Dead, queue)
      modifies `books, `model
      ensures Valid() && model == Run(old(model), StepsOf(EachBy(DropDead), id)) && Touches(old(model), model, id)
      ensures SweepDoes(AsPurged, old(model), model, [id])
    {
      hide SweepDoes, Consistent, Apply, Run, Settles, Extract, LookUp, TakeAt, TablesOf, Touches;
      ghost var s := model;
      FindsDead(books, hash, s, expired, queue, id);
      RunOne(s, On(id, DropDead));
      ghost var e := DropDeadMeans(s, id);
      PurgedSweeps(s, id);
      ApplyTouches(s, id, e);
      var b := Unindex(TakeOut(books, InDlq(ShardIndex(hash, queue), queue), id), id);
      Gone(books, b, hash, s, expired, id, e);
      books, model := b, Apply(s, id, e);
    }

    /** `retry_dlq` with a job id. */
    method RetryDlq(queue: string, id: JobId, now: nat) returns (retried: nat)
      requires Valid()
      modifies `books, `model
      ensures Valid()
      ensures retried == if AtIn(old(model).jobs, id, Dead, queue) then 1 else 0
      ensures model == Run(old(model), if AtIn(old(model).jobs, id, Dead, queue) then [On(id, RetryDead(now))] else [])
      ensures if retried == 1 then SweepDoes(AsRevived(now), old(model), model, [id]) else model == old(model)
    {
      hide SweepDoes, Consistent, Run, LookUp, TakeAt, Extract, Touches;
      RunNone(model);
      FindsDead(books, hash, model, expired, queue, id);
      if LookUp(books.shelves, InDlq(ShardIndex(hash, queue), queue), id).None? {
        return 0;
      }
      ReviveOne(queue, id, now);
      return 1;
    }

    /** `retry_dlq` without: the letters of a queue from the front. */
    method RetryAllDlq(queue: string, now: nat) returns (retried: nat, ghost ids: seq<JobId>)
      requires Valid()
      modifies `books, `model
      ensures Valid() && model == Run(old(model), Swept(EachBy(RetryDead(now)), ids)) && NoneTwice(ids)
              && retried == |ids|
      ensures var letters := LettersIn(old(books).shelves.dlq, Key(ShardIndex(hash, queue), queue));
              |ids| == |letters| && forall k | 0 <= k < |letters| :: ids[k] == letters[k].id
      ensures forall id :: id in ids <==> AtIn(old(model).jobs, id, Dead, queue)
      ensures SweepDoes(AsRevived(now), old(model), model, ids)
    {
      hide SweepDoes, Consistent, Run, Swept, Touches, StepsOf, NoneTwice;
      ghost var s := model;
      FindsLetters(books, hash, s, expired, queue);
      var letters := LettersIn(books.shelves.dlq, Key(ShardIndex(hash, queue), queue));
      ids, retried := [], 0;
      SweptNone(s, EachBy(RetryDead(now)));
      SweepNone(AsRevived(now), s);
      while retried < |letters|
        invariant SweepDoes(AsRevived(now), s, model, ids)
        invariant retried <= |letters| && retried == |ids| && forall k | 0 <= k < retried :: ids[k] == letters[k].id
        invariant Valid() && model == Run(s, Swept(EachBy(RetryDead(now)), ids)) && NoneTwice(ids)
        invariant forall id :: id in ids <==> exists k :: 0 <= k < retried && letters[k].id == id
        invariant forall k | retried <= k < |letters| ::
                    letters[k].id !in ids && AtIn(model.jobs, letters[k].id, Dead, queue)
      {
        ghost var before := model;
        var id := letters[retried].id;
        ReviveOne(queue, id, now);
        TouchesOne(before, model, id);
        SweepOne(s, before, model, EachBy(RetryDead(now)), ids, id);
        SweepStep(AsRevived(now), s, before, model, ids, id);
        ids, retried := ids + [id], retried + 1;
      }
      assert forall id | AtIn(s.jobs, id, Dead, queue) :: exists k :: 0 <= k < retried && letters[k].id == id;
    }

    /** `clean` of failed jobs: letters no younger than the cutoff, from the front, up to a limit; and
        `purge_dlq`, which takes them all. */
    method CleanFailed(queue: string, cutoff: Option<nat>, limit: Option<nat>)
        returns (removed: nat, ghost ids: seq<JobId>)
      requires Valid()
      modifies `books, `model
      ensures Valid() && model == Run(old(model), Swept(EachBy(DropDead), ids)) && NoneTwice(ids) && removed == |ids|
      ensures ids == OldFront(LettersIn(old(books).shelves.dlq, Key(ShardIndex(hash, queue), queue)), cutoff, limit)
      ensures forall id | id in ids :: AtIn(old(model).jobs, id, Dead, queue) && Old(old(model).jobs[id].job, cutoff)
      ensures limit.Some? ==> removed <= limit.value
      ensures (limit.Some? ==> removed < limit.value) ==>
                forall id | AtIn(old(model).jobs, id, Dead, queue) && Old(old(model).jobs[id].job, cutoff) :: id in ids
      ensures SweepDoes(AsPurged, old(model), model, ids)
    {
      hide SweepDoes, Good, Consistent, Run, Swept, Touches, StepsOf, NoneTwice, Old;
      ghost var s := model;
      FindsLetters(books, hash, s, expired, queue);
      var letters := LettersIn(books.shelves.dlq, Key(ShardIndex(hash, queue), queue));
      ids, removed := [], 0;
      SweptNone(s, EachBy(DropDead));
      SweepNone(AsPurged, s);
      for i := 0 to |letters|
        invariant ids == OldFront(letters[..i], cutoff, limit) && removed == |ids|
        invariant SweepDoes(AsPurged, s, model, ids)
        invariant Valid() && model == Run(s, Swept(EachBy(DropDead), ids)) && NoneTwice(ids)
        invariant forall k | i <= k < |letters| ::
                    letters[k].id !in ids && AtIn(model.jobs, letters[k].id, Dead, queue)
      {
        OldFrontNext(letters, i, cutoff, limit);
        OldMeans(letters[i], cutoff);
        if (cutoff.Some? ==> letters[i].createdAt <= cutoff.value) && (limit.Some? ==> removed < limit.value) {
          ghost var before := model;
          DropLetter(queue, letters[i].id);
          TouchesOne(before, model, letters[i].id);
          SweepOne(s, before, model, EachBy(DropDead), ids, letters[i].id);
          SweepStep(AsPurged, s, before, model, ids, letters[i].id);
          ids, removed := ids + [letters[i].id], removed + 1;
        }
      }
      assert letters[..|letters|] == letters;
      OldFrontMeans(letters, cutoff, limit);
      hide OldFront;
    }

    // ---- Whole queues (engine/src/queue/browser.rs) ----

    method DropOne(queue: string, id: JobId)
      requires Valid() && AtIn(model.jobs, id, Queued, queue)
      modifies `books, `model
      ensures Valid() && model == Run(old(model), StepsOf(EachBy(DropQueued), id)) && Touches(old(model), model, id)
      ensures SweepDoes(AsDropped, old(model), model, [id])
    {
      hide SweepDoes, Consistent, Apply, Run, Settles, Extract, LookUp, TakeAt, TablesOf, Touches, RemoveUniqueKey;
      ghost var s := model;
      FindsQueued(books, hash, s, expired, queue, id);
      var l := InQueue(ShardIndex(hash, queue), queue);
      var job := LookUp(books.shelves, l, id).value;
      RunOne(s, On(id, DropQueued));
      ghost var e := DropQueuedMeans(s, id);
      DroppedSweeps(s, id);
      ApplyTouches(s, id, e);
      var b := Unindex(TakeOut(books, l, id), id);
      b := b.(tables := b.tables.(keys := RemoveUniqueKey(b.tables.keys, queue, job.uniqueKey)));
      Gone(books, b, hash, s, expired, id, e);
      books, model := b, Apply(s, id, e);
    }

    /** `clean` of waiting jobs: any no younger than the cutoff, up to a limit; and `drain`, which takes
        them all. */
    method CleanWaiting(queue: string, cutoff: Option<nat>, limit: Option<nat>)
        returns (removed: nat, ghost ids: seq<JobId>)
      requires Valid()
      modifies `books, `model
      ensures Valid() && model == Run(old(model), Swept(EachBy(DropQueued), ids)) && NoneTwice(ids) && removed == |ids|
      ensures forall id | id in ids :: AtIn(old(model).jobs, id, Queued, queue) && Old(old(model).jobs[id].job, cutoff)
      ensures limit.Some? ==> removed <= limit.value
      ensures (limit.Some? ==> removed < limit.value) ==>
                forall id | AtIn(old(model).jobs, id, Queued, queue) && Old(old(model).jobs[id].job, cutoff) ::
                      id in ids
      ensures SweepDoes(AsDropped, old(model), model, ids)
    {
      hide SweepDoes, Good, Consistent, Run, Swept, Touches, StepsOf, NoneTwice, AtIn;
      ghost var s := model;
      FindsHeap(books, hash, s, expired, queue);
      var heap := Bucket(books.shelves.queues, Key(ShardIndex(hash, queue), queue));
      var todo := set id | id in heap && (cutoff.Some? ==> heap[id].createdAt <= cutoff.value);
      ghost var all := todo;
      ids, removed := [], 0;
      SweptNone(s, EachBy(DropQueued));
      SweepNone(AsDropped, s);
      while todo != {} && (limit.Some? ==> removed < limit.value)
        invariant removed == |ids| && (limit.Some? ==> removed <= limit.value)
        invariant SweepDoes(AsDropped, s, model, ids)
        invariant Valid() && model == Run(s, Swept(EachBy(DropQueued), ids)) && NoneTwice(ids)
        invariant forall id :: id in all <==> id in todo || id in ids
        invariant forall id | id in todo :: id !in ids
        invariant forall id | id in todo :: AtIn(model.jobs, id, Queued, queue)
        decreases |todo|
      {
        var id :| id in todo;
        ghost var before := model;
        DropOne(queue, id);
        StayIn(before, model, id, todo, Queued, queue);
        SweepOne(s, before, model, EachBy(DropQueued), ids, id);
        SweepStep(AsDropped, s, before, model, ids, id);
        ids, removed := ids + [id], removed + 1;
        todo := todo - {id};
      }
    }

    /** `clean` of completed jobs: the oldest by id, up to a limit. */
    method CleanCompleted(limit: Option<nat>) returns (removed: nat, ghost steps: seq<Step>)
      requires Valid()
      modifies `books, `model
      ensures Valid() && model == Run(old(model), steps)
      ensures forall step | step in steps :: step.ForgetCompleted? && !step.customIdToo
      ensures model == old(model).(completed := model.completed)
      ensures model.completed <= old(model).completed && removed == |old(model).completed| - |model.completed|
      ensures removed == if limit.Some? then Min(limit.value, |old(model).completed|) else |old(model).completed|
      ensures forall gone, kept | gone in old(model).completed - model.completed && kept in model.completed ::
                gone < kept
    {
      hide Good, Run, Forgotten, Next;
      ghost var s := model;
      RunNone(s);
      removed, steps := 0, [];
      GoodMeans(books, hash, model, expired);
      while books.tables.completed != {} && (limit.Some? ==> removed < limit.value)
        invariant Valid() && model == Run(s, steps) && books.tables.completed == model.completed
        invariant forall step | step in steps :: step.ForgetCompleted? && !step.customIdToo
        invariant model == s.(completed := model.completed)
        invariant model.completed <= s.completed && removed == |s.completed| - |model.completed|
        invariant limit.Some? ==> removed <= limit.value
        invariant forall gone, kept | gone in s.completed - model.completed && kept in model.completed :: gone < kept
        decreases |books.tables.completed|
      {
        var completed := books.tables.completed;
        OldestExists(completed);
        var id: JobId :| IsOldest(completed, id);
        ghost var step := ForgetCompleted(id, false);
        RunAppend(s, steps, [step]);
        RunOne(model, step);
        var b := books.(index := books.index - {id}, tables := books.tables.(completed := completed - {id}));
        Forgets(books, b, hash, model, expired, id);
        ghost var before := model.completed;
        books, model := b, Next(model, step);
        removed, steps := removed + 1, steps + [step];
        assert forall gone: JobId | gone in s.completed - model.completed :: gone == id || gone in s.completed - before;
        assert forall kept: JobId | kept in model.completed :: id < kept;
      }
    }

    /** The shard section of `obliterate`. */
    method ObliterateShard(queue: string) returns (removed: nat)
      requires Valid()
      modifies `books, `model
      ensures Valid() && model == Run(old(model), [Step.Obliterate(queue)])
      ensures removed == |ShelvedOf(old(model), queue)|
      ensures Unshelved(old(model), model, queue)
    {
      hide Run, Tallies, WithoutAll, GoneFrom;
      ghost var s := model;
      RunOne(s, Step.Obliterate(queue));
      GoneFromMeans(books.shelves, hash, s.jobs, queue);
      WithoutAllTallies(books.shelves, hash, s.jobs, queue);
      var gone := GoneFrom(books.shelves, hash, queue);
      var t := books.tables;
      var b := Books(WithoutAll(books.shelves, hash, queue), books.index - gone,
                     t.(keys := (set k | k in t.keys && k.0 != queue), limiters := t.limiters - {queue},
                        paused := t.paused - {queue}));
      ObliterateKeepsGood(books, b, hash, s, expired, queue, gone);
      assert gone == ShelvedOf(s, queue);
      books, model := b, Obliterated(s, queue);
      return |gone|;
    }

    method WipeOne(id: JobId)
      requires Valid() && At(model, id, Processing)
      modifies `books, `model
      ensures Valid() && model == Run(old(model), StepsOf(EachBy(Wipe), id))
      ensures model.jobs == old(model).jobs - {id} && model.groups == old(model).groups
      ensures model.keys == old(model).keys && model.limiters == old(model).limiters
    {
      hide Consistent, Apply, Run, Settles, Extract, LookUp, TakeAt, TablesOf;
      ghost var s := model;
      FindsActive(books, hash, s, expired, id);
      RunOne(s, On(id, Wipe));
      ghost var e := WipeMeans(s, id);
      WipeLeaves(s, id, e);
      var b := Unindex(TakeOut(books, InProcessing, id), id);
      Gone(books, b, hash, s, expired, id, e);
      books, model := b, Apply(s, id, e);
    }

    /** The sweep of `obliterate`: the jobs of the queue found in processing go, one by one. */
    method SweepActive(queue: string) returns (removed: nat, ghost ids: seq<JobId>, ghost active: set<JobId>)
      requires Valid()
      modifies `books, `model
      ensures Valid() && model == Run(old(model), Swept(EachBy(Wipe), ids)) && NoneTwice(ids) && removed == |active|
      ensures forall id :: id in ids <==> id in active
      ensures forall id :: id in active <==> AtIn(old(model).jobs, id, Processing, queue)
      ensures model.jobs == old(model).jobs - active
      ensures model.groups == old(model).groups && model.keys == old(model).keys
              && model.limiters == old(model).limiters
    {
      hide Good, Consistent, Run, Swept, IdsWhere, NoneTwice, StepsOf;
      ghost var s := model;
      var ofQueue := OfQueue(queue);
      FindsEach(books, hash, s, expired, ofQueue);
      var todo := IdsWhere(books.shelves.processing, ofQueue);
      active := todo;
      ids, removed := [], 0;
      SweptNone(s, EachBy(Wipe));
      while todo != {}
        invariant Valid() && model == Run(s, Swept(EachBy(Wipe), ids)) && NoneTwice(ids)
        invariant forall id :: id in active <==> id in todo || id in ids
        invariant forall id | id in todo :: id !in ids
        invariant removed + |todo| == |active| && todo <= active
        invariant model.jobs == s.jobs - (active - todo)
        invariant model.groups == s.groups && model.keys == s.keys && model.limiters == s.limiters
      {
        var id :| id in todo;
        ghost var before := model;
        WipeOne(id);
        SweepOne(s, before, model, EachBy(Wipe), ids, id);
        ids, removed := ids + [id], removed + 1;
        todo := todo - {id};
      }
    }

    /** `obliterate`: the shard section, then the sweep. Nothing of the queue is left, except that the
        groups of the swept jobs stay marked active. */
    method Obliterate(queue: string) returns (removed: nat, ghost ids: seq<JobId>)
      requires Valid()
      modifies `books, `model
      ensures Valid() && model == Run(old(model), [Step.Obliterate(queue)] + Swept(EachBy(Wipe), ids)) && NoneTwice(ids)
      ensures forall id :: id in ids <==> AtIn(old(model).jobs, id, Processing, queue)
      ensures removed == |AllOf(old(model), queue)| && model.jobs == NoneOf(old(model).jobs, queue)
      ensures model.groups == old(model).groups && model.limiters == old(model).limiters - {queue}
      ensures forall key :: key in model.keys <==> key in old(model).keys && key.0 != queue
    {
      hide Good, Run, Swept, NoneTwice, Obliterated, Unshelved, AtIn;
      ghost var s := model;
      AllRest(books, hash, s, expired);
      var shelved := ObliterateShard(queue);
      ghost var s1 := model;
      ObliterateTables(s, s1, queue);
      var swept;
      ghost var active;
      swept, ids, active := SweepActive(queue);
      ActiveStay(s, s1, queue, active);
      ShelvedAndActive(s, queue, active);
      OthersRemain(s, s1, queue, active);
      RunAppend(s, [Step.Obliterate(queue)], Swept(EachBy(Wipe), ids));
      removed := shelved + swept;
    }

    // ---- Settings (engine/src/queue/queue_control.rs, engine/src/queue/rate_limit.rs) ----

    /** `pause`, `resume`, `set_concurrency` and `clear_concurrency`. */
    method Configure(step: Step)
      requires Valid() && (step.Pause? || step.Resume? || step.SetConcurrency? || step.ClearConcurrency?)
      modifies `books, `model
      ensures Valid() && model == Run(old(model), [step])
      ensures ConfigureDoes(old(model), model, step)
    {
      hide Run, Consistent;
      ghost var s := model;
      RunOne(s, step);
      var t := books.tables;
      t := match step
           case Pause(queue) => t.(paused := t.paused + {queue})
           case Resume(queue) => t.(paused := t.paused - {queue})
           case SetConcurrency(queue, limit) => t.(limiters := t.limiters[queue := Limiter(limit, 0)])
           case ClearConcurrency(queue) => t.(limiters := t.limiters - {queue});
      TablesDoNotMatter(books.shelves, books.index, hash, s, Next(s, step), expired);
      books, model := books.(tables := t), Next(s, step);
    }

    // ---- Pushing (engine/src/queue/push.rs) ----

    /** `push` */
    method Push(queue: string, input: JobInput, now: nat) returns (outcome: PushOutcome)
      requires Valid()
      modifies `books, `model
      ensures Valid()
      ensures PushResult(model, outcome) == PushNow(old(model), queue, input, now)
      ensures Pushed(old(model), model, queue, input, now, outcome)
    {
      hide Pushed, Good, PushNow, Insert, LocationOf, CreateJob, StartPlace, LookUp, Retrievable, TablesOf, SameTable,
           Debounce, ExistingJob;
      hide ValidQueueName;
      ghost var s, r := model, PushNow(model, queue, input, now);
      PushPromise(s, queue, input, now);
      GoodMeans(books, hash, s, expired);
      var t := books.tables;
      if !ValidQueueName(queue) || !Admissible(t.debounce, queue, input, now) {
        PushRejected(s, queue, input, now);
        return Rejected;
      }
      t := Opened(t, queue, input, now);
      var existing := LookUpCustomId(input);
      if existing.Some? {
        PushAnswered(s, queue, input, now);
        PushSettles(books, books.(tables := t), hash, s, expired, r.state);
        books, model := books.(tables := t), r.state;
        return Existing(existing.value);
      }
      var id := books.tables.nextId;
      if input.customId.Some? {
        t := t.(customIds := t.customIds[input.customId.value := id]);
      }
      if input.uniqueKey.Some? && (queue, input.uniqueKey.value) in t.keys {
        PushDropped(s, queue, input, now);
        if input.customId.Some? {
          RolledBack(books.tables.customIds, input.customId.value, id);
          t := t.(customIds := t.customIds - {input.customId.value});
        }
        PushSettles(books, books.(tables := t), hash, s, expired, r.state);
        books, model := books.(tables := t), r.state;
        return Rejected;
      }
      PushCreated(s, queue, input, now);
      if input.uniqueKey.Some? {
        t := t.(keys := t.keys + {(queue, input.uniqueKey.value)});
      }
      var job := CreateJob(id, queue, input, now);
      var p := Placed(StartPlace(t.completed, job), job);
      var b := Books(Insert(books.shelves, hash, p), books.index[id := LocationOf(hash, p)], t);
      PushArrives(books, b, hash, s, expired, r.state, p);
      books, model := b, r.state;
      return Created(id);
    }

    /** The job a custom id leads to, if the index still finds it. */
    method LookUpCustomId(input: JobInput) returns (existing: Option<JobId>)
      requires Valid()
      ensures existing == ExistingJob(model, input)
    {
      hide LookUp, Consistent, Retrievable;
      if input.customId.None? || input.customId.value !in books.tables.customIds {
        return None;
      }
      var id := books.tables.customIds[input.customId.value];
      Finds(books, hash, model, expired, id);
      existing := if id in books.index && LookUp(books.shelves, books.index[id], id).Some? then Some(id) else None;
    }

    /** `push_batch` */
    method PushBatch(queue: string, inputs: seq<JobInput>, now: nat)
        returns (ids: seq<JobId>, ghost origins: map<JobId, nat>)
      requires Valid()
      modifies `books, `model
      ensures Valid() && (model, ids) == PushBatches.PushBatch(old(model), queue, inputs, now)
      ensures BatchDoes(old(model), model, queue, inputs, now, ids, origins)
    {
      hide BatchDoes, Good, ValidQueueName, Admit, Answer, Register, InsertAll, InOrder, Increasing, WithJobs,
           TablesOf, Insert,
           LocationOf;
      hide CreateJob, StartPlace;
      ghost var s := model;
      IdsBelow(books, hash, s, expired);
      origins := BatchPromise(s, queue, inputs, now);
      if !ValidQueueName(queue) || |inputs| > MAX_BATCH_SIZE {
        return [], origins;
      }
      GoodMeans(books, hash, s, expired);
      GoodNames(books, hash, s, expired);
      var t := books.tables;
      var admitted := AdmitAll(t.debounce, queue, inputs, now);
      var sorted := AnswerKnown(t.customIds, admitted.inputs, |inputs|);
      var r := RegisterAll(Registry(t.customIds, t.keys), queue, sorted.needing, t.nextId, |inputs|);
      ids := Collect(sorted.answers + r.answers, |inputs|);
      t := t.(debounce := admitted.debounce, customIds := r.registry.customIds, keys := r.registry.keys,
              nextId := t.nextId + |sorted.needing|);
      ghost var begun := s.(debounce := t.debounce, customIds := t.customIds, keys := t.keys, nextId := t.nextId);
      OpenedTables(s, begun);
      var b := books.(tables := t);
      BatchOpens(books, b, hash, s, expired, begun, queue, sorted.needing, now);
      assert r.creates[..0] == [];
      NoneYet(s, queue, r.creates, now);
      for i := 0 to |r.creates|
        invariant Good(b, hash, begun.(jobs := WithJobs(s, queue, r.creates[..i], now)), expired)
        invariant forall k | i <= k < |r.creates| ::
                    r.creates[k].id !in b.index && r.creates[k].id !in WithJobs(s, queue, r.creates[..i], now)
        invariant model == s && books == old(books) && expired == old(expired)
      {
        var job := CreateJob(r.creates[i].id, queue, r.creates[i].input, now);
        var p := Placed(StartPlace(t.completed, job), job);
        ghost var b0 := b;
        b := Books(Insert(b.shelves, hash, p), b.index[job.id := LocationOf(hash, p)], b.tables);
        BatchGoesOn(b0, b, hash, s, begun, expired, queue, r.creates, i, now, p);
      }
      assert r.creates[..|r.creates|] == r.creates;
      InsertAllCreates(s, queue, [], r.creates, now);
      books, model := b, begun.(jobs := WithJobs(s, queue, r.creates, now));
    }

    // ---- Flows (engine/src/queue/flows.rs) ----

    /** `push_flow` */
    method PushFlow(queue: string, data: string, children: seq<FlowChild>, priority: int, now: nat)
      returns (parent: Option<JobId>, ids: seq<JobId>)
      requires Valid()
      modifies `books, `model
      ensures Valid()
      ensures parent == if children == [] then None else Some(old(model).nextId)
      ensures ids == if children == [] then [] else ChildIds(old(model).nextId, |children|)
      ensures model == Run(old(model), FlowSteps(old(model), queue, data, children, priority, now))
      ensures if children == [] then model == old(model)
              else FlowDoes(old(model), model, queue, data, children, priority, now, ids)
    {
      hide FlowDoes, Good, Run, FlowJob, ChildJob, Insert, LocationOf, TablesOf, FlowSoFar, FlowSteps;
      ghost var s := model;
      GoodMeans(books, hash, s, expired);
      if children == [] {
        FlowNone(s, queue, data, priority, now);
        return None, [];
      }
      var id := books.tables.nextId;
      ids := ChildIds(id, |children|);
      var p := Placed(WaitingChildren, FlowJob(id, queue, data, priority, now, now, None, ids));
      FlowParentIs(s, queue, data, children, priority, now);
      var b := Books(Insert(books.shelves, hash, p), books.index[id := LocationOf(hash, p)],
                     books.tables.(nextId := id + |children| + 1));
      FlowStarts(books, b, hash, s, expired, p, children, now);
      for i := 0 to |children|
        invariant Good(b, hash, FlowSoFar(s, p, children, now, i), expired)
        invariant forall k: JobId | id + i < k :: k !in b.index && k !in FlowSoFar(s, p, children, now, i).jobs
        invariant model == s && books == old(books) && expired == old(expired)
      {
        ghost var b0 := b;
        b := Enqueue(b, hash, ChildJob(id, children, ids[i], now));
        FlowGoesOn(b0, b, hash, s, expired, p, children, now, i);
      }
      FlowSteadies(s, queue, data, children, priority, now);
      FlowPromise(s, queue, data, children, priority, now);
      books, model := b, FlowSoFar(s, p, children, now, |children|);
      return Some(id), ids;
    }

    // ---- Pulling (engine/src/queue/pull.rs) ----

    method ExpireOne(queue: string, id: JobId, now: nat)
      requires Valid() && AtIn(model.jobs, id, Queued, queue) && model.jobs[id].job.IsExpired(now)
      modifies this
      ensures Valid() && model == Run(old(model), [On(id, Expire(now))]) && Touches(old(model), model, id)
      ensures model.groups == old(model).groups && model.limiters == old(model).limiters
              && model.paused == old(model).paused
      ensures expired == old(expired) + {id}
    {
      hide Consistent, Apply, Run, Vanishes, Extract, LookUp, TakeAt, Touches, Settles, TablesOf;
      ghost var s := model;
      FindsQueued(books, hash, s, expired, queue, id);
      ghost var e := Vanishes(s.jobs[id].job);
      ExpireMeans(s, id, now);
      ApplyTouches(s, id, e);
      var b := TakeOut(books, InQueue(ShardIndex(hash, queue), queue), id);
      Lapsed(books, b, hash, s, expired, id, e);
      TablesSay(s, Apply(s, id, e));
      books, model, expired := b, Apply(s, id, e), expired + {id};
    }

    method TakeOne(queue: string, id: JobId, now: nat) returns (job: Job)
      requires Valid() && AtIn(model.jobs, id, Queued, queue) && CanTake(model, model.jobs[id].job, now)
      modifies `books, `model
      ensures Valid() && model == Run(old(model), [On(id, Take(now)), On(id, Enter)])
      ensures job == Started(old(model).jobs[id].job, now)
    {
      hide Consistent, Apply, Run, TakeEffect, Insert, Extract, LookUp, TakeAt, Settles, TablesOf, Started, CanTake;
      ghost var s := model;
      FindsQueued(books, hash, s, expired, queue, id);
      var l := InQueue(ShardIndex(hash, queue), queue);
      var was := LookUp(books.shelves, l, id).value;
      ghost var e := TakeEffect(was, now);
      TakeMeans(s, id, now);
      job := Started(was, now);
      var b := TakeOut(books, l, id);
      var t := b.tables;
      b := Books(Insert(b.shelves, hash, Placed(Processing, job)), b.index[id := InProcessing],
                 t.(limiters := if queue in t.limiters then t.limiters[queue := t.limiters[queue].Acquire()]
                    else t.limiters,
                    groups := if was.groupId.Some? then t.groups + {(queue, was.groupId.value)} else t.groups));
      Taken(books, b, hash, s, expired, id, e, Placed(Processing, job));
      books, model := b, Apply(s, id, e);
    }

    /** One attempt of `pull`. The heap yields its jobs in some `order`, a descending one if the order of
        jobs is sound on them; skipped jobs go back where they were. */
    method Pull(queue: string, now: nat) returns (job: Option<Job>, ghost view: QueueView)
      requires Valid()
      modifies this
      ensures Valid()
      ensures Views(old(model), queue, view)
      ensures PullOnce(view, now).jobs == if job.Some? then [job.value] else []
      ensures model == Run(old(model), PullSteps(view, now))
      ensures PullsInTime(old(model), model, queue, view.order, job, now)
    {
      hide PullsInTime, InHeap, AtIn, Good, Run, Touches, ScanSteps, Scan, Yields, HeapOf, CanTake, ActiveIn;
      ghost var s := model;
      RunNone(s);
      var order := HeapOrder(queue);
      YieldsInHeap(order, s, queue);
      var t := books.tables;
      GoodSays(books, hash, s, expired);
      var active := ActiveIn(t.groups, queue);
      view := QueueView(queue in t.paused, if queue in t.limiters then Some(t.limiters[queue])
                        else None, active, order);
      PullPromise(s, queue, view, now);
      if queue in t.paused || (queue in t.limiters && !t.limiters[queue].HasSlot()) {
        return None, view;
      }
      ghost var steps := [];
      var i := 0;
      assert order[0..] == order;
      while i < |order|
        invariant i <= |order| && Valid() && model == Run(s, steps)
        invariant steps + ScanSteps(order[i..], active, now) == ScanSteps(order, active, now)
        invariant Scan(order[i..], active, now).found == Scan(order, active, now).found
        invariant InHeap(model, queue, order[i..])
        invariant model.groups == s.groups && model.limiters == s.limiters && model.paused == s.paused
      {
        var head := order[i];
        ScanHead(order[i..], active, now);
        HeapTail(model, queue, order[i..]);
        assert order[i..][1..] == order[i + 1..];
        ghost var before := model;
        if head.IsExpired(now) {
          ExpireOne(queue, head.id, now);
          HeapStays(before, model, queue, order[i + 1..], head.id);
          RunAppend(s, steps, [On(head.id, Expire(now))]);
          steps := steps + [On(head.id, Expire(now))];
        } else if !head.IsReady(now) {
          assert steps + [] == steps;
          return None, view;
        } else if !Busy(head, active) {
          MayTake(before, queue, head, now);
          var taken := TakeOne(queue, head.id, now);
          RunAppend(s, steps, [On(head.id, Take(now)), On(head.id, Enter)]);
          return Some(taken), view;
        }
        i := i + 1;
      }
      assert order[i..] == [] && steps + [] == steps;
      ScanNothing(active, now);
      return None, view;
    }

    /** The jobs of a queue in the order in which its heap yields them. */
    method HeapOrder(queue: string) returns (order: seq<Job>)
      requires Valid()
      ensures Yields(order, HeapOf(model, queue))
    {
      FindsHeap(books, hash, model, expired, queue);
      var heap := Bucket(books.shelves.queues, Key(ShardIndex(hash, queue), queue));
      assert heap == HeapOf(model, queue);
      hide Good, HeapOf, Orderly, Removed, AboveRest;
      var left: map<JobId, Job> := heap;
      order := [];
      NothingYielded(heap);
      while left != map[]
        invariant Yielding(order, heap, left)
        decreases |left|
      {
        TopExists(left);
        var id: JobId :| IsTop(left, id);
        YieldOne(order, heap, left, id);
        order, left := order + [left[id]], left - {id};
      }
      AllYielded(order, heap);
    }

    // ---- Queries (engine/src/queue/query.rs, engine/src/queue/browser.rs) ----

    /** `get_job` */
    method GetJob(id: JobId, now: nat) returns (job: Option<Job>, state: JobState)
      requires Valid()
      ensures state == StateByIndex(books, id, now)
      ensures job == JobByIndex(books, id) == if Retrievable(model, id) then Some(model.jobs[id].job) else None
      ensures id !in expired ==> state == Told(model, id, now)
      ensures id in expired ==>
                id in books.index && state == if books.index[id].InQueue? then JobUnknown else JobWaitingChildren
    {
      hide Tallies;
      Finds(books, hash, model, expired, id);
      ConsistentMeans(books.shelves, books.index, hash, model, expired, id);
      if id !in books.index {
        return None, JobUnknown;
      }
      var l := books.index[id];
      job := LookUp(books.shelves, l, id);
      hide LookUp, TakeAt, Extract;
      state := match l
               case InProcessing => if job.Some? then ToState(l, job.value.runAt, now) else JobActive
               case InQueue(_, _) => if job.Some? then ToState(l, job.value.runAt, now) else JobUnknown
               case InDlq(_, _) => if job.Some? then JobFailed else JobUnknown
               case InWaitingDeps(_) => JobWaitingChildren
               case InWaitingChildren(_) => JobWaitingParent
               case InCompleted => JobCompleted;
    }

    /** `get_state` */
    method GetState(id: JobId, now: nat) returns (state: JobState)
      requires Valid()
      ensures state == StateByIndex(books, id, now)
      ensures id !in expired ==> state == Told(model, id, now)
      ensures id in expired ==>
                id in books.index && state == if books.index[id].InQueue? then JobUnknown else JobWaitingChildren
    {
      hide Tallies;
      Finds(books, hash, model, expired, id);
      ConsistentMeans(books.shelves, books.index, hash, model, expired, id);
      if id !in books.index {
        return JobUnknown;
      }
      var l := books.index[id];
      if !l.InQueue? {
        return ToState(l, 0, now);
      }
      var job := LookUp(books.shelves, l, id);
      hide LookUp, TakeAt, Extract;
      state := if job.Some? then ToState(l, job.value.runAt, now) else JobUnknown;
    }

    /** `get_job_by_custom_id` */
    method GetJobByCustomId(c: string, now: nat) returns (found: Option<Item>)
      requires Valid()
      ensures found.Some? <==> c in model.customIds && Retrievable(model, model.customIds[c])
      ensures found.Some? ==> var id := model.customIds[c];
              found.value == Item(model.jobs[id].job, Told(model, id, now))
    {
      hide Consistent;
      if c !in books.tables.customIds {
        return None;
      }
      var job, state := GetJob(books.tables.customIds[c], now);
      RetrievableIsLive(books, hash, model, expired, books.tables.customIds[c]);
      found := if job.Some? then Some(Item(job.value, state)) else None;
    }

    /** `get_jobs`: everything found in every container, newest first, one page of it. Completed jobs are
        not among the live ones and are not listed here. */
    method GetJobs(queue: Option<string>, state: Option<JobState>, limit: nat, offset: nat, now: nat)
      returns (page: seq<Item>, total: nat)
      requires Valid()
      ensures total == |MatchingIds(model, queue, state, now)|
      ensures exists all :: ListsNewest(all, Matching(model, queue, state, now)) && |all| == total
                            && page == all[Min(offset, total)..][..Min(Min(limit, 1000), total - Min(offset, total))]
    {
      hide Good, AllItems, Matches, Reported, Matching, MatchingIds;
      ScanFinds(books, hash, model, expired, queue, state, now);
      var scan := AllItems(books.shelves, now);
      var todo := set item | item in scan && Matches(item, queue, state);
      var items := NewestFirst(todo);
      total := |items|;
      assert ListsNewest(items, Matching(model, queue, state, now));
      var rest := items[Min(offset, total)..];
      page := rest[..Min(Min(limit, 1000), |rest|)];
    }

    /** `get_job_counts` without the completed ones. */
    method GetJobCounts(queue: string, now: nat) returns (waiting: nat, active: nat, delayed: nat, failed: nat)
      requires Valid()
      ensures waiting == |MatchingIds(model, Some(queue), Some(JobWaiting), now)|
      ensures delayed == |MatchingIds(model, Some(queue), Some(JobDelayed), now)|
      ensures active == |MatchingIds(model, Some(queue), Some(JobActive), now)|
      ensures failed == |MatchingIds(model, Some(queue), Some(JobFailed), now)|
      ensures waiting == |DueIds(model, queue, now)|
              && delayed == |IdsAt(model, queue, Queued) - DueIds(model, queue, now)|
      ensures active == |IdsAt(model, queue, Processing)| && failed == |IdsAt(model, queue, Dead)|
    {
      hide Good, MatchingIds, IdsWhere, IdsAt, DueIds;
      var key := Key(ShardIndex(hash, queue), queue);
      waiting, delayed := CountDue(Bucket(books.shelves.queues, key), now);
      failed := |LettersIn(books.shelves.dlq, key)|;
      active := |IdsWhere(books.shelves.processing, OfQueue(queue))|;
      AllRest(books, hash, model, expired);
      CountsMean(model, queue, now);
      QueuedCounts(books, hash, model, expired, queue, now);
      ActiveCount(books, hash, model, expired, queue, now);
      FailedCount(books, hash, model, expired, queue, now);
    }
  }
}
