/** Jobs and the order in which a queue serves them (engine/src/protocol/types.rs). */
module Protocol {

  datatype Option<+T> = None | Some(value: T)

  type JobId = nat

  datatype Job = Job(
    id: JobId,
    queue: string,
    data: string,
    priority: int,
    createdAt: nat,
    runAt: nat,
    startedAt: nat,
    attempts: nat,
    maxAttempts: nat,              // 0 = unlimited
    backoff: nat,
    ttl: nat,                      // 0 = never expires
    timeout: nat,                  // 0 = no timeout
    uniqueKey: Option<string>,
    dependsOn: seq<JobId>,
    lifo: bool,
    removeOnComplete: bool,
    removeOnFail: bool,
    lastHeartbeat: nat,
    stallTimeout: nat,             // 0 = default
    stallCount: nat,
    parentId: Option<JobId>,
    childrenIds: seq<JobId>,
    childrenCompleted: nat,
    customId: Option<string>,
    groupId: Option<string>)
  {
    predicate IsReady(now: nat) {
      runAt <= now
    }

    predicate IsExpired(now: nat) {
      ttl > 0 && SaturatingSub(now, createdAt) > ttl
    }

    predicate IsTimedOut(now: nat) {
      timeout > 0 && startedAt > 0 && SaturatingSub(now, startedAt) > timeout
    }

    predicate ShouldGoToDlq() {
      maxAttempts > 0 && attempts >= maxAttempts
    }

    function NextBackoff(): nat {
      if backoff == 0 then 0 else backoff * PowerOfTwo(Min(attempts, 10))
    }

    function Ranking(): Rank {
      Rank(priority, runAt, lifo, id)
    }
  }

  // ---- Times, in the fields of a job ----

  /** Past its time to live. */
  predicate TooOld(job: Job, now: nat) {
    job.ttl != 0 && job.createdAt + job.ttl < now
  }

  /** Longer in a worker's hands than it may be. */
  predicate TooLong(job: Job, now: nat) {
    job.timeout != 0 && job.startedAt != 0 && job.startedAt + job.timeout < now
  }

  /** Nothing heard of it for its stall timeout, since its last heartbeat or else its start. */
  predicate TooSilent(job: Job, now: nat) {
    (if job.lastHeartbeat != 0 then job.lastHeartbeat else job.startedAt)
    + (if job.stallTimeout != 0 then job.stallTimeout else 30_000) < now
  }

  function SaturatingSub(a: nat, b: nat): nat {
    if a >= b then a - b else 0
  }

  function Min(a: nat, b: nat): nat {
    if a <= b then a else b
  }

  function PowerOfTwo(n: nat): (p: nat)
    ensures p >= 1
  {
    if n == 0 then 1 else 2 * PowerOfTwo(n - 1)
  }

  lemma {:induction false} PowerOfTwoMonotone(m: nat, n: nat)
    requires m <= n
    ensures PowerOfTwo(m) <= PowerOfTwo(n)
  {
    if m < n {
      PowerOfTwoMonotone(m, n - 1);
    }
  }

  /** Retry delays. `fail` increments `attempts` before it asks for the delay, so the exponent
      starts at one; it stops growing at ten. */
  lemma BackoffBounds(job: Job, later: Job)
    requires job.backoff == later.backoff > 0
    requires 1 <= job.attempts <= later.attempts
    ensures 2 * job.backoff <= job.NextBackoff() <= later.NextBackoff() <= 1024 * job.backoff
    ensures later.attempts >= 10 ==> later.NextBackoff() == 1024 * job.backoff
  {
    var m, n := Min(job.attempts, 10), Min(later.attempts, 10);
    assert PowerOfTwo(1) == 2 && PowerOfTwo(10) == 1024 by {
      assert PowerOfTwo(2) == 4 && PowerOfTwo(4) == 16 && PowerOfTwo(6) == 64 && PowerOfTwo(8) == 256;
    }
    PowerOfTwoMonotone(1, m);
    PowerOfTwoMonotone(m, n);
    PowerOfTwoMonotone(n, 10);
    Scale(job.backoff, 2, PowerOfTwo(m));
    Scale(job.backoff, PowerOfTwo(m), PowerOfTwo(n));
    Scale(job.backoff, PowerOfTwo(n), 1024);
  }

  lemma Scale(b: nat, x: nat, y: nat)
    requires x <= y
    ensures b * x <= b * y
  {
  }

  // ---- Service order ----

  /** What both `Job` and a heap entry compare by. */
  datatype Rank = Rank(priority: int, runAt: nat, lifo: bool, id: JobId)

  datatype Ordering = Less | Equal | Greater

  function CompareInts(a: int, b: int): Ordering {
    if a < b then Less else if a == b then Equal else Greater
  }

  function Then(first: Ordering, second: Ordering): Ordering {
    if first == Equal then second else first
  }

  /** `Ord::cmp` of `Job` and of `HeapEntry`; Greater is served first. */
  function Compare(a: Rank, b: Rank): Ordering {
    Then(CompareInts(a.priority, b.priority),
         Then(CompareInts(b.runAt, a.runAt),
              if a.lifo || b.lifo then CompareInts(a.id, b.id) else CompareInts(b.id, a.id)))
  }

  predicate AtLeast(a: Rank, b: Rank) {
    Compare(a, b) != Less
  }

  /** The order on `s` is a total preorder (a heap needs exactly this to pop a greatest element). */
  ghost predicate Transitive(s: set<Rank>) {
    forall a, b, c | a in s && b in s && c in s :: AtLeast(a, b) && AtLeast(b, c) ==> AtLeast(a, c)
  }

  predicate Crossing(first: Rank, mid: Rank, last: Rank) {
    && first.priority == mid.priority == last.priority
    && first.runAt == mid.runAt == last.runAt
    && !first.lifo && mid.lifo && !last.lifo
    && first.id <= mid.id <= last.id && first.id < last.id
  }

  /** No LIFO job sits, by id, between two FIFO jobs of the same priority and run time. */
  predicate Orderly(s: set<Rank>) {
    forall a, b, c | a in s && b in s && c in s :: !Crossing(a, b, c)
  }

  lemma OrderlySubset(s: set<Rank>, all: set<Rank>)
    requires s <= all
    ensures Orderly(all) ==> Orderly(s)
  {
  }

  lemma OrderlyTriple(s: set<Rank>, a: Rank, b: Rank, c: Rank)
    requires Orderly(s) && a in s && b in s && c in s
    requires AtLeast(a, b) && AtLeast(b, c)
    ensures AtLeast(a, c)
    ensures Compare(a, b) == Greater || Compare(b, c) == Greater ==> Compare(a, c) == Greater
  {
    assert !Crossing(a, b, c) && !Crossing(a, c, b) && !Crossing(b, a, c)
        && !Crossing(b, c, a) && !Crossing(c, a, b) && !Crossing(c, b, a);
  }

  /** Exactly when `Job::cmp` orders a set of jobs. */
  lemma OrderlyIffTransitive(s: set<Rank>)
    ensures Orderly(s) <==> Transitive(s)
  {
    if Orderly(s) {
      forall a, b, c | a in s && b in s && c in s && AtLeast(a, b) && AtLeast(b, c)
        ensures AtLeast(a, c)
      {
        OrderlyTriple(s, a, b, c);
      }
    }
    if Transitive(s) {
      forall a, b, c | a in s && b in s && c in s
        ensures !Crossing(a, b, c)
      {
        assert Crossing(a, b, c) ==> AtLeast(c, b) && AtLeast(b, a) && !AtLeast(c, a);
      }
    }
  }

  lemma UniformLifoIsOrderly(s: set<Rank>, lifo: bool)
    requires forall r | r in s :: r.lifo == lifo
    ensures Orderly(s)
  {
  }

  /** Three jobs of one priority and one run time that beat each other in a circle. */
  lemma MixedFlagsCycle()
    ensures exists a, b, c ::
              Compare(a, b) == Greater && Compare(b, c) == Greater && Compare(c, a) == Greater
  {
    var a, b, c := Rank(0, 0, false, 1), Rank(0, 0, false, 3), Rank(0, 0, true, 2);
    assert Compare(a, b) == Greater && Compare(b, c) == Greater && Compare(c, a) == Greater;
  }
}
