/** Where the manager keeps its jobs (engine/src/queue/manager.rs, engine/src/queue/types/shard.rs), and
    the index that says where each one is (engine/src/queue/types/location.rs). */
module Containers {
  import opened Protocol
  import opened Pull
  import opened Engine

  const NUM_SHARDS := 32

  /** A slot of a sharded container: the shard, and the queue where the container is split by queue. */
  datatype Key = Key(shard: nat, queue: string)

  type Hash = string -> nat

  function ShardIndex(hash: Hash, queue: string): nat {
    hash(queue) % NUM_SHARDS
  }

  function ProcessingShardIndex(id: JobId): nat {
    id % NUM_SHARDS
  }

  function KeyFor(hash: Hash, place: Place, job: Job): Key {
    match place
    case Processing => Key(ProcessingShardIndex(job.id), "")
    case WaitingDeps => Key(ShardIndex(hash, job.queue), "")
    case WaitingChildren => Key(ShardIndex(hash, job.queue), "")
    case _ => Key(ShardIndex(hash, job.queue), job.queue)
  }

  // ---- Maps of maps, and the dead letter queues ----

  type Buckets = map<Key, map<JobId, Job>>

  type Letters = map<Key, seq<Job>>

  function Bucket(b: Buckets, k: Key): map<JobId, Job> {
    if k in b then b[k] else map[]
  }

  function LettersIn(d: Letters, k: Key): seq<Job> {
    if k in d then d[k] else []
  }

  function Put(b: Buckets, k: Key, job: Job): Buckets {
    b[k := Bucket(b, k)[job.id := job]]
  }

  function Drop(b: Buckets, k: Key, id: JobId): Buckets {
    if k in b then b[k := b[k] - {id}] else b
  }

  function Find(b: Buckets, k: Key, id: JobId): Option<Job> {
    if id in Bucket(b, k) then Some(Bucket(b, k)[id]) else None
  }

  function Strike(jobs: seq<Job>, id: JobId): seq<Job> {
    if jobs == [] then []
    else if jobs[0].id == id then jobs[1..]
    else [jobs[0]] + Strike(jobs[1..], id)
  }

  function Bury(d: Letters, k: Key, job: Job): Letters {
    d[k := LettersIn(d, k) + [job]]
  }

  function Unearth(d: Letters, k: Key, id: JobId): Letters {
    if k in d then d[k := Strike(d[k], id)] else d
  }

  function FindLetter(jobs: seq<Job>, id: JobId): Option<Job> {
    if jobs == [] then None else if jobs[0].id == id then Some(jobs[0]) else FindLetter(jobs[1..], id)
  }

  /** A letter changed where it lies. */
  function Rewrite(jobs: seq<Job>, job: Job): seq<Job> {
    if jobs == [] then []
    else if jobs[0].id == job.id then [job] + jobs[1..]
    else [jobs[0]] + Rewrite(jobs[1..], job)
  }

  datatype Shelves = Shelves(queues: Buckets, deps: Buckets, children: Buckets, processing: Buckets, dlq: Letters)

  function Insert(c: Shelves, hash: Hash, p: Placed): Shelves {
    var k := KeyFor(hash, p.place, p.job);
    match p.place
    case Queued => c.(queues := Put(c.queues, k, p.job))
    case WaitingDeps => c.(deps := Put(c.deps, k, p.job))
    case WaitingChildren => c.(children := Put(c.children, k, p.job))
    case Processing => c.(processing := Put(c.processing, k, p.job))
    case Dead => c.(dlq := Bury(c.dlq, k, p.job))
    case _ => c
  }

  function Extract(c: Shelves, hash: Hash, p: Placed): Shelves {
    var k := KeyFor(hash, p.place, p.job);
    match p.place
    case Queued => c.(queues := Drop(c.queues, k, p.job.id))
    case WaitingDeps => c.(deps := Drop(c.deps, k, p.job.id))
    case WaitingChildren => c.(children := Drop(c.children, k, p.job.id))
    case Processing => c.(processing := Drop(c.processing, k, p.job.id))
    case Dead => c.(dlq := Unearth(c.dlq, k, p.job.id))
    case _ => c
  }

  /** A job changed in place: its queue and its place stay. */
  function Replace(c: Shelves, hash: Hash, p: Placed): Shelves {
    var k := KeyFor(hash, p.place, p.job);
    match p.place
    case Queued => c.(queues := Put(c.queues, k, p.job))
    case WaitingDeps => c.(deps := Put(c.deps, k, p.job))
    case WaitingChildren => c.(children := Put(c.children, k, p.job))
    case Processing => c.(processing := Put(c.processing, k, p.job))
    case Dead => c.(dlq := c.dlq[k := Rewrite(LettersIn(c.dlq, k), p.job)])
    case _ => c
  }

  // ---- The containers hold the live jobs, each in its place ----

  predicate Resting(place: Place) {
    place in {WaitingDeps, WaitingChildren, Queued, Processing, Dead}
  }

  /** The jobs that belong in one slot. */
  ghost function Select(hash: Hash, jobs: map<JobId, Placed>, place: Place, k: Key): map<JobId, Job> {
    map id | id in jobs && jobs[id].place == place && KeyFor(hash, place, jobs[id].job) == k :: jobs[id].job
  }

  ghost predicate Tally(b: Buckets, hash: Hash, jobs: map<JobId, Placed>, place: Place) {
    forall k :: Bucket(b, k) == Select(hash, jobs, place, k)
  }

  ghost predicate DeadTally(d: Letters, hash: Hash, jobs: map<JobId, Placed>) {
    forall k :: Lists(LettersIn(d, k), Select(hash, jobs, Dead, k))
  }

  ghost predicate Filed(jobs: map<JobId, Placed>) {
    forall id | id in jobs :: jobs[id].job.id == id && Resting(jobs[id].place)
  }

  ghost predicate Tallies(c: Shelves, hash: Hash, jobs: map<JobId, Placed>) {
    && Filed(jobs)
    && Tally(c.queues, hash, jobs, Queued) && Tally(c.deps, hash, jobs, WaitingDeps)
    && Tally(c.children, hash, jobs, WaitingChildren) && Tally(c.processing, hash, jobs, Processing)
    && DeadTally(c.dlq, hash, jobs)
  }

  lemma SelectWithout(hash: Hash, jobs: map<JobId, Placed>, place: Place, k: Key, id: JobId)
    ensures Select(hash, jobs - {id}, place, k) == Select(hash, jobs, place, k) - {id}
  {
  }

  lemma SelectWith(hash: Hash, jobs: map<JobId, Placed>, place: Place, k: Key, id: JobId, p: Placed)
    requires id !in jobs
    ensures Select(hash, jobs[id := p], place, k)
            == if p.place == place && KeyFor(hash, place, p.job) == k then Select(hash, jobs, place, k)[id := p.job]
               else Select(hash, jobs, place, k)
  {
  }

  lemma DropTallies(b: Buckets, hash: Hash, jobs: map<JobId, Placed>, place: Place, id: JobId)
    requires Tally(b, hash, jobs, place) && id in jobs && jobs[id].job.id == id
    ensures var p := jobs[id];
            Tally(if p.place == place then Drop(b, KeyFor(hash, place, p.job), id) else b, hash, jobs - {id}, place)
  {
    var p, k0 := jobs[id], KeyFor(hash, place, jobs[id].job);
    var b' := if p.place == place then Drop(b, k0, id) else b;
    forall k
      ensures Bucket(b', k) == Select(hash, jobs - {id}, place, k)
    {
      SelectWithout(hash, jobs, place, k, id);
      assert Bucket(b, k) == Select(hash, jobs, place, k);
      if p.place != place || k != k0 {
        assert id !in Select(hash, jobs, place, k);
        assert Select(hash, jobs, place, k) - {id} == Select(hash, jobs, place, k);
      }
    }
  }

  lemma PutTallies(b: Buckets, hash: Hash, jobs: map<JobId, Placed>, place: Place, id: JobId, p: Placed)
    requires Tally(b, hash, jobs, place) && id !in jobs && p.job.id == id
    ensures Tally(if p.place == place then Put(b, KeyFor(hash, place, p.job), p.job) else b, hash, jobs[id := p], place)
  {
    var k0 := KeyFor(hash, place, p.job);
    var b' := if p.place == place then Put(b, k0, p.job) else b;
    forall k
      ensures Bucket(b', k) == Select(hash, jobs[id := p], place, k)
    {
      SelectWith(hash, jobs, place, k, id, p);
      assert Bucket(b, k) == Select(hash, jobs, place, k);
    }
  }

  lemma {:induction false} StrikeLists(jobs: seq<Job>, m: map<JobId, Job>, id: JobId)
    requires Lists(jobs, m) && id in m
    ensures Lists(Strike(jobs, id), m - {id})
    decreases |jobs|
  {
    ListsEmpty(jobs, m);
    ListsTail(jobs, m);
    ListsSomething(jobs, m, id);
    hide Lists;
    if jobs[0].id != id {
      var head, tail, rest := jobs[0], Strike(jobs[1..], id), m - {jobs[0].id} - {id};
      StrikeLists(jobs[1..], m - {head.id}, id);
      hide Strike;
      ListsCons(head, tail, rest, m - {id});
    }
  }

  lemma ListsCons(head: Job, tail: seq<Job>, rest: map<JobId, Job>, m: map<JobId, Job>)
    requires Lists(tail, rest) && head.id !in rest && head.id in m && m[head.id] == head
    requires forall k | k != head.id :: (k in m <==> k in rest) && (k in m ==> m[k] == rest[k])
    ensures Lists([head] + tail, m)
  {
    hide Lists;
    assert rest[head.id := head] == m;
    ListsAppend(tail, rest, head);
    ListsSwap(tail, [head], m);
  }

  lemma ListsSomething(jobs: seq<Job>, m: map<JobId, Job>, id: JobId)
    requires Lists(jobs, m) && id in m
    ensures jobs != [] && m[id] in jobs && m[id].id == id && jobs[0].id in m && m[jobs[0].id] == jobs[0]
  {
    assert jobs[0] in jobs;
  }

  lemma UnearthTallies(d: Letters, hash: Hash, jobs: map<JobId, Placed>, id: JobId)
    requires DeadTally(d, hash, jobs) && id in jobs && jobs[id].job.id == id
    ensures var p := jobs[id];
            DeadTally(if p.place == Dead then Unearth(d, KeyFor(hash, Dead, p.job), id) else d, hash, jobs - {id})
  {
    var p, k0 := jobs[id], KeyFor(hash, Dead, jobs[id].job);
    var d' := if p.place == Dead then Unearth(d, k0, id) else d;
    hide Lists;
    forall k
      ensures Lists(LettersIn(d', k), Select(hash, jobs - {id}, Dead, k))
    {
      SelectWithout(hash, jobs, Dead, k, id);
      var was := Select(hash, jobs, Dead, k);
      assert Lists(LettersIn(d, k), was);
      if p.place != Dead || k != k0 {
        assert id !in was && was - {id} == was;
      } else {
        ListsSomething(LettersIn(d, k), was, id);
        StrikeLists(LettersIn(d, k), was, id);
      }
    }
  }

  lemma BuryTallies(d: Letters, hash: Hash, jobs: map<JobId, Placed>, id: JobId, p: Placed)
    requires DeadTally(d, hash, jobs) && id !in jobs && p.job.id == id
    ensures DeadTally(if p.place == Dead then Bury(d, KeyFor(hash, Dead, p.job), p.job) else d, hash, jobs[id := p])
  {
    var k0 := KeyFor(hash, Dead, p.job);
    var d' := if p.place == Dead then Bury(d, k0, p.job) else d;
    hide Lists;
    forall k
      ensures Lists(LettersIn(d', k), Select(hash, jobs[id := p], Dead, k))
    {
      SelectWith(hash, jobs, Dead, k, id, p);
      assert Lists(LettersIn(d, k), Select(hash, jobs, Dead, k));
      if p.place == Dead && k == k0 {
        ListsAppend(LettersIn(d, k), Select(hash, jobs, Dead, k), p.job);
      }
    }
  }

  /** Taking a job out of its container. */
  lemma ExtractTallies(c: Shelves, hash: Hash, jobs: map<JobId, Placed>, id: JobId)
    requires Tallies(c, hash, jobs) && id in jobs
    ensures Tallies(Extract(c, hash, jobs[id]), hash, jobs - {id})
  {
    DropTallies(c.queues, hash, jobs, Queued, id);
    DropTallies(c.deps, hash, jobs, WaitingDeps, id);
    DropTallies(c.children, hash, jobs, WaitingChildren, id);
    DropTallies(c.processing, hash, jobs, Processing, id);
    UnearthTallies(c.dlq, hash, jobs, id);
    hide Tally, DeadTally, KeyFor, Drop, Unearth;
  }

  lemma InsertTallies(c: Shelves, hash: Hash, jobs: map<JobId, Placed>, id: JobId, p: Placed)
    requires Tallies(c, hash, jobs) && id !in jobs && p.job.id == id && Resting(p.place)
    ensures Tallies(Insert(c, hash, p), hash, jobs[id := p])
  {
    hide Tally, DeadTally, KeyFor, Put, Bury;
    assert Filed(jobs[id := p]);
    hide Filed;
    PutTallies(c.queues, hash, jobs, Queued, id, p);
    PutTallies(c.deps, hash, jobs, WaitingDeps, id, p);
    PutTallies(c.children, hash, jobs, WaitingChildren, id, p);
    PutTallies(c.processing, hash, jobs, Processing, id, p);
    BuryTallies(c.dlq, hash, jobs, id, p);
  }

  /** Moving a job from one container to another, or changing it in place. */
  lemma MoveTallies(c: Shelves, hash: Hash, jobs: map<JobId, Placed>, id: JobId, p: Placed)
    requires Tallies(c, hash, jobs) && id in jobs && p.job.id == id && Resting(p.place)
    ensures Tallies(Insert(Extract(c, hash, jobs[id]), hash, p), hash, jobs[id := p])
  {
    ExtractTallies(c, hash, jobs, id);
    hide Tallies, Insert, Extract;
    InsertTallies(Extract(c, hash, jobs[id]), hash, jobs - {id}, id, p);
    assert (jobs - {id})[id := p] == jobs[id := p];
  }

  lemma SelectReplaced(hash: Hash, jobs: map<JobId, Placed>, place: Place, k: Key, id: JobId, p: Placed)
    requires id in jobs && jobs[id].place == p.place
             && KeyFor(hash, p.place, jobs[id].job) == KeyFor(hash, p.place, p.job)
    ensures Select(hash, jobs[id := p], place, k)
            == if p.place == place && k == KeyFor(hash, place, p.job) then Select(hash, jobs, place, k)[id := p.job]
               else Select(hash, jobs, place, k)
  {
    hide KeyFor;
  }

  lemma ReplaceTally(b: Buckets, hash: Hash, jobs: map<JobId, Placed>, place: Place, id: JobId, p: Placed)
    requires Tally(b, hash, jobs, place) && id in jobs && jobs[id].place == p.place && p.job.id == id
    requires KeyFor(hash, p.place, jobs[id].job) == KeyFor(hash, p.place, p.job)
    ensures Tally(if p.place == place then Put(b, KeyFor(hash, place, p.job), p.job) else b, hash, jobs[id := p], place)
  {
    hide KeyFor;
    var k0 := KeyFor(hash, place, p.job);
    var b' := if p.place == place then Put(b, k0, p.job) else b;
    forall k
      ensures Bucket(b', k) == Select(hash, jobs[id := p], place, k)
    {
      assert Bucket(b, k) == Select(hash, jobs, place, k);
      SelectReplaced(hash, jobs, place, k, id, p);
      hide Select;
    }
  }

  lemma {:induction false} RewriteLists(jobs: seq<Job>, m: map<JobId, Job>, job: Job)
    requires Lists(jobs, m) && job.id in m
    ensures Lists(Rewrite(jobs, job), m[job.id := job])
    decreases |jobs|
  {
    ListsEmpty(jobs, m);
    ListsTail(jobs, m);
    ListsSomething(jobs, m, job.id);
    var head, rest := jobs[0], m - {jobs[0].id};
    hide Lists;
    if head.id == job.id {
      ListsCons(job, jobs[1..], rest, m[job.id := job]);
    } else {
      RewriteLists(jobs[1..], rest, job);
      ListsCons(head, Rewrite(jobs[1..], job), rest[job.id := job], m[job.id := job]);
    }
  }

  lemma RewriteTally(d: Letters, hash: Hash, jobs: map<JobId, Placed>, id: JobId, p: Placed)
    requires DeadTally(d, hash, jobs) && id in jobs && jobs[id].place == p.place && p.job.id == id
    requires KeyFor(hash, p.place, jobs[id].job) == KeyFor(hash, p.place, p.job)
    ensures var k := KeyFor(hash, Dead, p.job);
            DeadTally(if p.place == Dead then d[k := Rewrite(LettersIn(d, k), p.job)] else d, hash, jobs[id := p])
  {
    var k0 := KeyFor(hash, Dead, p.job);
    var d' := if p.place == Dead then d[k0 := Rewrite(LettersIn(d, k0), p.job)] else d;
    hide Lists;
    forall k
      ensures Lists(LettersIn(d', k), Select(hash, jobs[id := p], Dead, k))
    {
      var was := Select(hash, jobs, Dead, k);
      assert Lists(LettersIn(d, k), was);
      SelectReplaced(hash, jobs, Dead, k, id, p);
      if p.place == Dead && k == k0 {
        assert id in was;
        RewriteLists(LettersIn(d, k), was, p.job);
      }
    }
  }

  lemma ReplaceTallies(c: Shelves, hash: Hash, jobs: map<JobId, Placed>, id: JobId, p: Placed)
    requires Tallies(c, hash, jobs) && id in jobs && jobs[id].place == p.place && p.job.id == id
    requires p.job.queue == jobs[id].job.queue
    ensures Tallies(Replace(c, hash, p), hash, jobs[id := p])
  {
    assert KeyFor(hash, p.place, jobs[id].job) == KeyFor(hash, p.place, p.job);
    ReplaceTally(c.queues, hash, jobs, Queued, id, p);
    ReplaceTally(c.deps, hash, jobs, WaitingDeps, id, p);
    ReplaceTally(c.children, hash, jobs, WaitingChildren, id, p);
    ReplaceTally(c.processing, hash, jobs, Processing, id, p);
    RewriteTally(c.dlq, hash, jobs, id, p);
    hide Tally, DeadTally, KeyFor, Put, Rewrite;
  }

  // ---- Looking jobs up ----

  /** Slot `k` of the container for `place` holds job `id`. */
  predicate Contains(c: Shelves, place: Place, k: Key, id: JobId) {
    match place
    case Queued => id in Bucket(c.queues, k)
    case WaitingDeps => id in Bucket(c.deps, k)
    case WaitingChildren => id in Bucket(c.children, k)
    case Processing => id in Bucket(c.processing, k)
    case Dead => exists j | j in LettersIn(c.dlq, k) :: j.id == id
    case _ => false
  }

  lemma ContainsMeans(c: Shelves, hash: Hash, jobs: map<JobId, Placed>, place: Place, k: Key, id: JobId)
    requires Tallies(c, hash, jobs)
    ensures Contains(c, place, k, id)
            <==> id in jobs && jobs[id].place == place && KeyFor(hash, place, jobs[id].job) == k
  {
    hide KeyFor;
    var here := Select(hash, jobs, place, k);
    if place == Dead {
      assert Lists(LettersIn(c.dlq, k), here);
      assert id in here ==> here[id] in LettersIn(c.dlq, k) && here[id].id == id;
    } else if Resting(place) {
      assert Contains(c, place, k, id) <==> id in here;
    }
  }

  /** What a lookup finds. */
  lemma FindMeans(c: Shelves, hash: Hash, jobs: map<JobId, Placed>, place: Place, k: Key, id: JobId)
    requires Tallies(c, hash, jobs) && place in {Queued, WaitingDeps, WaitingChildren, Processing}
    ensures var b := match place case Queued => c.queues case WaitingDeps => c.deps
                                 case WaitingChildren => c.children case _ => c.processing;
            Find(b, k, id) == if id in jobs && jobs[id].place == place && KeyFor(hash, place, jobs[id].job) == k
                              then Some(jobs[id].job) else None
    ensures id in jobs ==> jobs[id].job.id == id
  {
    hide KeyFor;
    var here := Select(hash, jobs, place, k);
    assert id in here ==> here[id] == jobs[id].job;
  }

  /** Location partition: no job is in two slots, of one container or of two. */
  lemma OneSlot(c: Shelves, hash: Hash, jobs: map<JobId, Placed>, id: JobId, p: Place, j: Key, q: Place, k: Key)
    requires Tallies(c, hash, jobs) && Contains(c, p, j, id) && Contains(c, q, k, id)
    ensures p == q && j == k
  {
    ContainsMeans(c, hash, jobs, p, j, id);
    ContainsMeans(c, hash, jobs, q, k, id);
  }

  // ---- The index ----

  datatype Location =
    | InQueue(shard: nat, queue: string)
    | InProcessing
    | InDlq(shard: nat, queue: string)
    | InWaitingDeps(shard: nat)
    | InWaitingChildren(shard: nat)
    | InCompleted

  type Index = map<JobId, Location>

  function LocationOf(hash: Hash, p: Placed): Location {
    var shard := ShardIndex(hash, p.job.queue);
    match p.place
    case Queued => InQueue(shard, p.job.queue)
    case WaitingDeps => InWaitingDeps(shard)
    case WaitingChildren => InWaitingChildren(shard)
    case Dead => InDlq(shard, p.job.queue)
    case _ => InProcessing
  }

  /** The entry of a live job. A dependency release does not touch the index. */
  function EntryOf(hash: Hash, p: Placed, released: bool): Location {
    if released then InWaitingDeps(ShardIndex(hash, p.job.queue)) else LocationOf(hash, p)
  }

  /** Every live job is indexed where it is, unless a dependency release moved it; besides live jobs the
      index knows the completed ones, and those that expired in a queue. */
  ghost predicate IndexTally(index: Index, hash: Hash, s: State, expired: set<JobId>) {
    && (forall id | id in s.jobs :: id in index && index[id] == EntryOf(hash, s.jobs[id], id in s.released))
    && (forall id | id in s.released :: At(s, id, Queued))
    && (forall id | id in s.completed :: id !in s.jobs && id in index && index[id] == InCompleted)
    && (forall id | id in expired ::
          id !in s.jobs && id !in s.completed && id in index && (index[id].InQueue? || index[id].InWaitingDeps?))
    && (forall id | id in index :: (id in s.jobs || id in s.completed || id in expired) && id < s.nextId)
  }

  ghost predicate Consistent(c: Shelves, index: Index, hash: Hash, s: State, expired: set<JobId>) {
    Tallies(c, hash, s.jobs) && IndexTally(index, hash, s, expired) && Fresh(s)
  }

  function ShelvesAfter(c: Shelves, hash: Hash, p: Placed, after: Option<Placed>): Shelves {
    if after.Some? then Insert(Extract(c, hash, p), hash, after.value) else Extract(c, hash, p)
  }

  function IndexAfter(index: Index, hash: Hash, id: JobId, e: Effect): Index {
    if e.after.Some? then index[id := if e.hides then InWaitingDeps(ShardIndex(hash, e.after.value.job.queue))
                                else LocationOf(hash, e.after.value)]
    else if e.completes then index[id := InCompleted]
    else index - {id}
  }

  predicate Rests(p: Placed, released: bool, e: Effect) {
    && (e.hides ==> e.after.Some?)
    && (e.after.Some? ==>
          && e.after.value.job.id == p.job.id && Resting(e.after.value.place) && !e.completes
          && (released || e.hides ==> (e.after.value.place == Queued <==> e.hides)))
  }

  /** One operation on one job keeps containers and index in step with the job table. */
  lemma EffectKeepsConsistent(c: Shelves, index: Index, hash: Hash, s: State, expired: set<JobId>, id: JobId, e: Effect)
    requires Consistent(c, index, hash, s, expired) && id in s.jobs && Rests(s.jobs[id], id in s.released, e)
    ensures Consistent(ShelvesAfter(c, hash, s.jobs[id], e.after), IndexAfter(index, hash, id, e), hash,
                       Apply(s, id, e), expired)
  {
    TalliesMeans(c, hash, s.jobs, id);
    EffectKeepsFresh(s, id, e);
    if e.after.Some? {
      MoveTallies(c, hash, s.jobs, id, e.after.value);
    } else {
      ExtractTallies(c, hash, s.jobs, id);
    }
    hide Tallies, Fresh, LocationOf;
    EffectKeepsIndex(index, hash, s, expired, id, e);
  }

  lemma EffectKeepsFresh(s: State, id: JobId, e: Effect)
    requires Fresh(s) && id in s.jobs && Rests(s.jobs[id], id in s.released, e)
    ensures Fresh(Apply(s, id, e))
  {
    hide LimitersAfter, GroupsAfter, KeysAfter;
  }

  lemma ConsistentMeans(c: Shelves, index: Index, hash: Hash, s: State, expired: set<JobId>, id: JobId)
    requires Consistent(c, index, hash, s, expired)
    ensures id in s.jobs ==>
              && s.jobs[id].job.id == id < s.nextId && Resting(s.jobs[id].place)
              && id in index && index[id] == EntryOf(hash, s.jobs[id], id in s.released)
    ensures id in s.released ==> At(s, id, Queued)
    ensures id !in s.jobs && id in index ==> (id in s.completed && index[id] == InCompleted) || id in expired
  {
  }

  lemma TalliesMeans(c: Shelves, hash: Hash, jobs: map<JobId, Placed>, id: JobId)
    requires Tallies(c, hash, jobs) && id in jobs
    ensures jobs[id].job.id == id && Resting(jobs[id].place)
  {
  }

  lemma EffectKeepsIndex(index: Index, hash: Hash, s: State, expired: set<JobId>, id: JobId, e: Effect)
    requires IndexTally(index, hash, s, expired) && id in s.jobs && Rests(s.jobs[id], id in s.released, e)
    requires id < s.nextId
    ensures IndexTally(IndexAfter(index, hash, id, e), hash, Apply(s, id, e), expired)
  {
    hide LocationOf, LimitersAfter, GroupsAfter, KeysAfter, ShardIndex;
  }

  /** One operation that changes a job in place. */
  lemma ReplaceKeepsConsistent(c: Shelves, index: Index, hash: Hash, s: State, expired: set<JobId>, id: JobId,
                               e: Effect, p: Placed)
    requires Consistent(c, index, hash, s, expired) && id in s.jobs && id !in s.released
    requires e.after == Some(p) && !e.hides && !e.completes
    requires p.place == s.jobs[id].place && p.job.id == id && p.job.queue == s.jobs[id].job.queue
    ensures Consistent(Replace(c, hash, p), index, hash, Apply(s, id, e), expired)
  {
    ReplaceTallies(c, hash, s.jobs, id, p);
    TalliesMeans(c, hash, s.jobs, id);
    hide Replace, Tallies;
    EffectKeepsFresh(s, id, e);
    hide Fresh;
    EffectKeepsIndex(index, hash, s, expired, id, e);
    SameEntry(index, hash, s, expired, id, e, p);
    hide IndexTally, IndexAfter, Rests, Apply;
  }

  lemma SameEntry(index: Index, hash: Hash, s: State, expired: set<JobId>, id: JobId, e: Effect, p: Placed)
    requires IndexTally(index, hash, s, expired) && id in s.jobs && id !in s.released
    requires e.after == Some(p) && !e.hides && p.place == s.jobs[id].place && p.job.queue == s.jobs[id].job.queue
    ensures IndexAfter(index, hash, id, e) == index
  {
    assert index[id] == LocationOf(hash, p);
  }

  /** A job that comes in. */
  lemma ArrivalKeepsConsistent(c: Shelves, index: Index, hash: Hash, s: State, expired: set<JobId>, id: JobId,
                               p: Placed)
    requires Consistent(c, index, hash, s, expired) && id !in s.jobs && id !in index && id < s.nextId
    requires p.job.id == id && Resting(p.place)
    ensures Consistent(Insert(c, hash, p), index[id := LocationOf(hash, p)], hash, s.(jobs := s.jobs[id := p]), expired)
  {
    InsertTallies(c, hash, s.jobs, id, p);
    ArrivalKeepsIndex(index, hash, s, expired, id, p);
    hide Tallies, Insert, IndexTally, LocationOf;
  }

  lemma ArrivalKeepsIndex(index: Index, hash: Hash, s: State, expired: set<JobId>, id: JobId, p: Placed)
    requires IndexTally(index, hash, s, expired) && id !in s.jobs && id !in index && id < s.nextId
    ensures IndexTally(index[id := LocationOf(hash, p)], hash, s.(jobs := s.jobs[id := p]), expired)
  {
    hide LocationOf, ShardIndex;
  }

  /** Nothing else in the state matters to containers and index. */
  lemma TablesDoNotMatter(c: Shelves, index: Index, hash: Hash, s: State, s': State, expired: set<JobId>)
    requires Consistent(c, index, hash, s, expired)
    requires s'.jobs == s.jobs && s'.released == s.released && s'.completed == s.completed && s'.acked == s.acked
    requires s'.nextId >= s.nextId
    ensures Consistent(c, index, hash, s', expired)
  {
    hide Tallies, EntryOf;
  }

  // ---- Looking a job up by the index ----

  function LookUp(c: Shelves, l: Location, id: JobId): Option<Job> {
    match l
    case InQueue(shard, queue) => Find(c.queues, Key(shard, queue), id)
    case InProcessing => Find(c.processing, Key(ProcessingShardIndex(id), ""), id)
    case InDlq(shard, queue) => FindLetter(LettersIn(c.dlq, Key(shard, queue)), id)
    case InWaitingDeps(shard) => Find(c.deps, Key(shard, ""), id)
    case InWaitingChildren(shard) => Find(c.children, Key(shard, ""), id)
    case InCompleted => None
  }

  lemma {:induction false} FindLetterMeans(jobs: seq<Job>, m: map<JobId, Job>, id: JobId)
    requires Lists(jobs, m)
    ensures FindLetter(jobs, id) == if id in m then Some(m[id]) else None
    decreases |jobs|
  {
    ListsEmpty(jobs, m);
    if jobs != [] {
      ListsTail(jobs, m);
      assert jobs[0] in jobs;
      FindLetterMeans(jobs[1..], m - {jobs[0].id}, id);
    }
  }

  /** The index leads to a job exactly when it is live and was not queued by a dependency release; and
      the entry tells its place. */
  lemma LookUpMeans(c: Shelves, index: Index, hash: Hash, s: State, expired: set<JobId>, id: JobId)
    requires Consistent(c, index, hash, s, expired)
    ensures Retrievable(s, id) ==>
              && id in index && index[id] == LocationOf(hash, s.jobs[id])
              && LookUp(c, index[id], id) == Some(s.jobs[id].job) && s.jobs[id].job.id == id
    ensures !Retrievable(s, id) && id in index ==> LookUp(c, index[id], id) == None
    ensures Retrievable(s, id) <==> id in s.jobs && id !in s.released
  {
    ConsistentMeans(c, index, hash, s, expired, id);
    if id in index {
      var l := index[id];
      LookUpFinds(c, hash, s.jobs, l, id);
      hide Consistent, LookUp;
    }
  }

  /** What a lookup at any location comes to. */
  lemma LookUpFinds(c: Shelves, hash: Hash, jobs: map<JobId, Placed>, l: Location, id: JobId)
    requires Tallies(c, hash, jobs)
    ensures LookUp(c, l, id) == if id in jobs && l == LocationOf(hash, jobs[id]) then Some(jobs[id].job) else None
  {
    match l
    case InQueue(shard, queue) => FindMeans(c, hash, jobs, Queued, Key(shard, queue), id);
    case InProcessing => FindMeans(c, hash, jobs, Processing, Key(ProcessingShardIndex(id), ""), id);
    case InDlq(shard, queue) =>
      assert Lists(LettersIn(c.dlq, Key(shard, queue)), Select(hash, jobs, Dead, Key(shard, queue)));
      FindLetterMeans(LettersIn(c.dlq, Key(shard, queue)), Select(hash, jobs, Dead, Key(shard, queue)), id);
    case InWaitingDeps(shard) => FindMeans(c, hash, jobs, WaitingDeps, Key(shard, ""), id);
    case InWaitingChildren(shard) => FindMeans(c, hash, jobs, WaitingChildren, Key(shard, ""), id);
    case InCompleted =>
  }

  /** Removes a job from the slot a location names. */
  function TakeAt(c: Shelves, l: Location, id: JobId): Shelves {
    match l
    case InQueue(shard, queue) => c.(queues := Drop(c.queues, Key(shard, queue), id))
    case InProcessing => c.(processing := Drop(c.processing, Key(ProcessingShardIndex(id), ""), id))
    case InDlq(shard, queue) => c.(dlq := Unearth(c.dlq, Key(shard, queue), id))
    case InWaitingDeps(shard) => c.(deps := Drop(c.deps, Key(shard, ""), id))
    case InWaitingChildren(shard) => c.(children := Drop(c.children, Key(shard, ""), id))
    case InCompleted => c
  }

  /** Writes a job over its old self in the slot a location names. */
  function WriteAt(c: Shelves, l: Location, job: Job): Shelves {
    match l
    case InQueue(shard, queue) => c.(queues := Put(c.queues, Key(shard, queue), job))
    case InProcessing => c.(processing := Put(c.processing, Key(ProcessingShardIndex(job.id), ""), job))
    case InDlq(shard, queue) => c.(dlq := c.dlq[Key(shard, queue) := Rewrite(LettersIn(c.dlq, Key(shard, queue)), job)])
    case InWaitingDeps(shard) => c.(deps := Put(c.deps, Key(shard, ""), job))
    case InWaitingChildren(shard) => c.(children := Put(c.children, Key(shard, ""), job))
    case InCompleted => c
  }

  lemma AtLocation(c: Shelves, hash: Hash, p: Placed)
    requires Resting(p.place)
    ensures TakeAt(c, LocationOf(hash, p), p.job.id) == Extract(c, hash, p)
    ensures WriteAt(c, LocationOf(hash, p), p.job) == Replace(c, hash, p)
  {
    hide Drop, Put, Unearth, Rewrite, LettersIn, ShardIndex, ProcessingShardIndex;
  }

  // ---- Whole containers ----

  function IdsWhere(b: Buckets, keep: Job -> bool): set<JobId> {
    set k, id | k in b && id in b[k] && keep(b[k][id]) :: id
  }

  lemma IdsWhereMeans(b: Buckets, hash: Hash, jobs: map<JobId, Placed>, place: Place, keep: Job -> bool)
    requires Tally(b, hash, jobs, place)
    ensures forall id :: id in IdsWhere(b, keep) <==> id in jobs && jobs[id].place == place && keep(jobs[id].job)
  {
    hide KeyFor;
    forall id
      ensures id in IdsWhere(b, keep) <==> id in jobs && jobs[id].place == place && keep(jobs[id].job)
    {
      if id in IdsWhere(b, keep) {
        var k :| k in b && id in b[k] && keep(b[k][id]);
        assert Bucket(b, k) == Select(hash, jobs, place, k);
      }
      if id in jobs && jobs[id].place == place && keep(jobs[id].job) {
        var k := KeyFor(hash, place, jobs[id].job);
        assert id in Select(hash, jobs, place, k) && Bucket(b, k) == Select(hash, jobs, place, k);
        assert k in b && id in b[k] && keep(b[k][id]);
      }
    }
  }

  /** The jobs of one slot, for a container split by queue. */
  lemma BucketMeans(b: Buckets, hash: Hash, jobs: map<JobId, Placed>, queue: string)
    requires Tally(b, hash, jobs, Queued)
    ensures var heap := Bucket(b, Key(ShardIndex(hash, queue), queue));
            && (forall id :: id in heap <==> AtIn(jobs, id, Queued, queue))
            && (forall id | id in heap :: heap[id] == jobs[id].job)
  {
    assert Bucket(b, Key(ShardIndex(hash, queue), queue))
           == Select(hash, jobs, Queued, Key(ShardIndex(hash, queue), queue));
  }

  predicate AtIn(jobs: map<JobId, Placed>, id: JobId, place: Place, queue: string) {
    id in jobs && jobs[id].place == place && jobs[id].job.queue == queue
  }

  lemma LettersMean(d: Letters, hash: Hash, jobs: map<JobId, Placed>, queue: string)
    requires DeadTally(d, hash, jobs) && Filed(jobs)
    ensures var letters := LettersIn(d, Key(ShardIndex(hash, queue), queue));
            && (forall j | j in letters :: AtIn(jobs, j.id, Dead, queue) && jobs[j.id].job == j)
            && (forall id | AtIn(jobs, id, Dead, queue) :: jobs[id].job in letters)
            && Distinct(letters)
  {
    var k := Key(ShardIndex(hash, queue), queue);
    var here := Select(hash, jobs, Dead, k);
    assert Lists(LettersIn(d, k), here);
    assert forall id | AtIn(jobs, id, Dead, queue) :: id in here;
  }

  /** A container without the jobs of a queue. `obliterate` takes everything under the shard lock but the
      jobs in processing. */
  function WithoutQueue(b: Buckets, queue: string): Buckets {
    map k | k in b :: map id | id in b[k] && b[k][id].queue != queue :: b[k][id]
  }

  function OfQueue(queue: string): Job -> bool {
    (j: Job) => j.queue == queue
  }

  function GoneFrom(c: Shelves, hash: Hash, queue: string): set<JobId> {
    var k := Key(ShardIndex(hash, queue), queue);
    Bucket(c.queues, k).Keys + (set j | j in LettersIn(c.dlq, k) :: j.id)
    + IdsWhere(c.deps, OfQueue(queue)) + IdsWhere(c.children, OfQueue(queue))
  }

  function WithoutAll(c: Shelves, hash: Hash, queue: string): Shelves {
    var k := Key(ShardIndex(hash, queue), queue);
    Shelves(c.queues - {k}, WithoutQueue(c.deps, queue), WithoutQueue(c.children, queue), c.processing, c.dlq - {k})
  }

  function QueueGone(jobs: map<JobId, Placed>, queue: string): map<JobId, Placed> {
    map id | id in jobs && !Obliterates(jobs[id], queue) :: jobs[id]
  }

  lemma WithoutQueueTally(b: Buckets, hash: Hash, jobs: map<JobId, Placed>, place: Place, queue: string)
    requires Tally(b, hash, jobs, place) && (place == WaitingDeps || place == WaitingChildren)
    ensures Tally(WithoutQueue(b, queue), hash, QueueGone(jobs, queue), place)
  {
    hide KeyFor;
    forall k
      ensures Bucket(WithoutQueue(b, queue), k) == Select(hash, QueueGone(jobs, queue), place, k)
    {
      assert Bucket(b, k) == Select(hash, jobs, place, k);
    }
  }

  lemma ActiveTally(b: Buckets, hash: Hash, jobs: map<JobId, Placed>, queue: string)
    requires Tally(b, hash, jobs, Processing)
    ensures Tally(b, hash, QueueGone(jobs, queue), Processing)
  {
    hide KeyFor;
    forall k
      ensures Bucket(b, k) == Select(hash, QueueGone(jobs, queue), Processing, k)
    {
      assert Bucket(b, k) == Select(hash, jobs, Processing, k);
    }
  }

  lemma QueueGoneTally(b: Buckets, hash: Hash, jobs: map<JobId, Placed>, queue: string)
    requires Tally(b, hash, jobs, Queued)
    ensures Tally(b - {Key(ShardIndex(hash, queue), queue)}, hash, QueueGone(jobs, queue), Queued)
  {
    forall k
      ensures Bucket(b - {Key(ShardIndex(hash, queue), queue)}, k) == Select(hash, QueueGone(jobs, queue), Queued, k)
    {
      assert Bucket(b, k) == Select(hash, jobs, Queued, k);
    }
  }

  lemma QueueGoneDeadTally(d: Letters, hash: Hash, jobs: map<JobId, Placed>, queue: string)
    requires DeadTally(d, hash, jobs)
    ensures DeadTally(d - {Key(ShardIndex(hash, queue), queue)}, hash, QueueGone(jobs, queue))
  {
    hide Lists;
    var k0 := Key(ShardIndex(hash, queue), queue);
    forall k
      ensures Lists(LettersIn(d - {k0}, k), Select(hash, QueueGone(jobs, queue), Dead, k))
    {
      assert Lists(LettersIn(d, k), Select(hash, jobs, Dead, k));
      if k == k0 {
        assert Select(hash, QueueGone(jobs, queue), Dead, k) == map[];
        ListsNothing();
      } else {
        assert Select(hash, QueueGone(jobs, queue), Dead, k) == Select(hash, jobs, Dead, k);
      }
    }
  }

  lemma ListsNothing()
    ensures Lists([], map[])
  {
  }

  lemma GoneFromMeans(c: Shelves, hash: Hash, jobs: map<JobId, Placed>, queue: string)
    requires Tallies(c, hash, jobs)
    ensures forall id :: id in GoneFrom(c, hash, queue) <==> id in jobs && Obliterates(jobs[id], queue)
  {
    BucketMeans(c.queues, hash, jobs, queue);
    LettersMean(c.dlq, hash, jobs, queue);
    IdsWhereMeans(c.deps, hash, jobs, WaitingDeps, OfQueue(queue));
    IdsWhereMeans(c.children, hash, jobs, WaitingChildren, OfQueue(queue));
    hide Tally, DeadTally, IdsWhere, KeyFor, Distinct;
    forall id
      ensures id in GoneFrom(c, hash, queue) <==> id in jobs && Obliterates(jobs[id], queue)
    {
      if AtIn(jobs, id, Dead, queue) {
        assert jobs[id].job in LettersIn(c.dlq, Key(ShardIndex(hash, queue), queue)) && jobs[id].job.id == id;
      }
    }
  }

  lemma WithoutAllTallies(c: Shelves, hash: Hash, jobs: map<JobId, Placed>, queue: string)
    requires Tallies(c, hash, jobs)
    ensures Tallies(WithoutAll(c, hash, queue), hash, QueueGone(jobs, queue))
  {
    WithoutQueueTally(c.deps, hash, jobs, WaitingDeps, queue);
    WithoutQueueTally(c.children, hash, jobs, WaitingChildren, queue);
    ActiveTally(c.processing, hash, jobs, queue);
    QueueGoneTally(c.queues, hash, jobs, queue);
    QueueGoneDeadTally(c.dlq, hash, jobs, queue);
    hide Tally, DeadTally, WithoutQueue;
  }

  /** A queued job that expired: taken out, but not unindexed. */
  lemma ExpiryKeepsConsistent(c: Shelves, index: Index, hash: Hash, s: State, expired: set<JobId>, id: JobId, e: Effect)
    requires Consistent(c, index, hash, s, expired) && At(s, id, Queued)
    requires e.after == None && !e.completes && !e.hides
    ensures Consistent(Extract(c, hash, s.jobs[id]), index, hash, Apply(s, id, e), expired + {id})
  {
    ExtractTallies(c, hash, s.jobs, id);
    EffectKeepsFresh(s, id, e);
    hide Tallies, Fresh, Extract, ShardIndex;
  }

  // ---- What a caller sees of a job ----

  datatype JobState =
    | JobWaiting | JobDelayed | JobActive | JobCompleted | JobFailed
    | JobWaitingChildren | JobWaitingParent | JobUnknown

  /** `JobLocation::to_state` */
  function ToState(l: Location, runAt: nat, now: nat): JobState {
    match l
    case InQueue(_, _) => if runAt > now then JobDelayed else JobWaiting
    case InProcessing => JobActive
    case InDlq(_, _) => JobFailed
    case InWaitingDeps(_) => JobWaitingChildren
    case InWaitingChildren(_) => JobWaitingParent
    case InCompleted => JobCompleted
  }

  datatype Item = Item(job: Job, state: JobState)

  /** How the full scan reports a job found in the container of some place. */
  function Reported(place: Place, job: Job, now: nat): Item {
    Item(job, match place
              case Queued => if job.runAt > now then JobDelayed else JobWaiting
              case WaitingDeps => JobWaitingChildren
              case WaitingChildren => JobWaitingParent
              case Dead => JobFailed
              case _ => JobActive)
  }

  function ItemsIn(b: Buckets, place: Place, now: nat): set<Item> {
    set k, id | k in b && id in b[k] :: Reported(place, b[k][id], now)
  }

  function LetterItems(d: Letters, now: nat): set<Item> {
    set k, j | k in d && j in d[k] :: Reported(Dead, j, now)
  }

  function AllItems(c: Shelves, now: nat): set<Item> {
    ItemsIn(c.queues, Queued, now) + LetterItems(c.dlq, now) + ItemsIn(c.children, WaitingChildren, now)
    + ItemsIn(c.deps, WaitingDeps, now) + ItemsIn(c.processing, Processing, now)
  }

  ghost predicate Shows(jobs: map<JobId, Placed>, place: Place, now: nat, item: Item) {
    item.job.id in jobs && jobs[item.job.id] == Placed(place, item.job) && item == Reported(place, item.job, now)
  }

  lemma ItemsInMean(b: Buckets, hash: Hash, jobs: map<JobId, Placed>, place: Place, now: nat)
    requires Tally(b, hash, jobs, place) && Filed(jobs)
    ensures forall item :: item in ItemsIn(b, place, now) <==> Shows(jobs, place, now, item)
  {
    hide KeyFor, Reported;
    forall item
      ensures item in ItemsIn(b, place, now) <==> Shows(jobs, place, now, item)
    {
      if item in ItemsIn(b, place, now) {
        var k, id :| k in b && id in b[k] && item == Reported(place, b[k][id], now);
        assert Bucket(b, k) == Select(hash, jobs, place, k);
        ReportsJob(place, b[k][id], now);
      }
      if Shows(jobs, place, now, item) {
        var k := KeyFor(hash, place, item.job);
        assert item.job.id in Select(hash, jobs, place, k) && Bucket(b, k) == Select(hash, jobs, place, k);
        assert k in b && item.job.id in b[k] && b[k][item.job.id] == item.job;
      }
    }
  }

  lemma ReportsJob(place: Place, job: Job, now: nat)
    ensures Reported(place, job, now).job == job
  {
  }

  lemma LetterItemsMean(d: Letters, hash: Hash, jobs: map<JobId, Placed>, now: nat)
    requires DeadTally(d, hash, jobs) && Filed(jobs)
    ensures forall item :: item in LetterItems(d, now) <==> Shows(jobs, Dead, now, item)
  {
    hide KeyFor, Reported;
    forall item
      ensures item in LetterItems(d, now) <==> Shows(jobs, Dead, now, item)
    {
      if item in LetterItems(d, now) {
        var k, j :| k in d && j in d[k] && item == Reported(Dead, j, now);
        assert Lists(LettersIn(d, k), Select(hash, jobs, Dead, k));
        ReportsJob(Dead, j, now);
      }
      if Shows(jobs, Dead, now, item) {
        var k := KeyFor(hash, Dead, item.job);
        assert item.job.id in Select(hash, jobs, Dead, k) && Lists(LettersIn(d, k), Select(hash, jobs, Dead, k));
        assert item.job in LettersIn(d, k);
        assert k in d && item.job in d[k];
      }
    }
  }

  /** The full scan reports every live job, once, as what it is. */
  lemma ScanMeans(c: Shelves, hash: Hash, jobs: map<JobId, Placed>, now: nat)
    requires Tallies(c, hash, jobs)
    ensures forall item :: item in AllItems(c, now) <==>
              item.job.id in jobs && item == Reported(jobs[item.job.id].place, jobs[item.job.id].job, now)
  {
    ItemsInMean(c.queues, hash, jobs, Queued, now);
    LetterItemsMean(c.dlq, hash, jobs, now);
    ItemsInMean(c.children, hash, jobs, WaitingChildren, now);
    ItemsInMean(c.deps, hash, jobs, WaitingDeps, now);
    ItemsInMean(c.processing, hash, jobs, Processing, now);
    hide Tally, DeadTally, ItemsIn, LetterItems;
    forall item
      ensures item in AllItems(c, now) <==>
                item.job.id in jobs && item == Reported(jobs[item.job.id].place, jobs[item.job.id].job, now)
    {
      if item.job.id in jobs && item == Reported(jobs[item.job.id].place, jobs[item.job.id].job, now) {
        assert Shows(jobs, jobs[item.job.id].place, now, item);
      }
    }
  }
}
