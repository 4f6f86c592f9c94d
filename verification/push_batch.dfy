/** `push_batch` (engine/src/queue/push.rs:218-413) against a sequence of single pushes. */
module PushBatches {
  import opened Protocol
  import opened Engine

  // ---- The batch, phase by phase ----

  /** An input with its place in the batch. */
  datatype Numbered = Numbered(index: nat, input: JobInput)

  datatype Admitted = Admitted(inputs: seq<Numbered>, debounce: map<(string, string), nat>)

  predicate Admissible(debounce: map<(string, string), nat>, queue: string, input: JobInput, now: nat) {
    && input.dataSize <= MAX_JOB_DATA_SIZE
    && !(input.debounceId.Some? && (queue, input.debounceId.value) in debounce
         && now < debounce[(queue, input.debounceId.value)])
  }

  function Debounce(debounce: map<(string, string), nat>, queue: string, input: JobInput, now: nat)
    : map<(string, string), nat>
  {
    if input.debounceId.None? then debounce
    else debounce[(queue, input.debounceId.value) := now + GetOr(input.debounceTtl, 5000)]
  }

  /** Phase 1: drops oversized and debounced inputs. */
  function Admit(debounce: map<(string, string), nat>, queue: string, inputs: seq<JobInput>, index: nat,
                 now: nat): Admitted
    decreases |inputs|
  {
    if inputs == [] then Admitted([], debounce)
    else if !Admissible(debounce, queue, inputs[0], now) then Admit(debounce, queue, inputs[1..], index + 1, now)
    else
      var rest := Admit(Debounce(debounce, queue, inputs[0], now), queue, inputs[1..], index + 1, now);
      rest.(inputs := [Numbered(index, inputs[0])] + rest.inputs)
  }

  predicate Known(customIds: map<string, JobId>, input: JobInput) {
    input.customId.Some? && input.customId.value in customIds
  }

  datatype Sorted = Sorted(answers: map<nat, JobId>, needing: seq<Numbered>)

  /** Phase 2: inputs with a known custom id are answered, without asking whether its job still exists. */
  function Answer(customIds: map<string, JobId>, inputs: seq<Numbered>): Sorted {
    if inputs == [] then Sorted(map[], [])
    else
      var rest := Answer(customIds, inputs[1..]);
      if Known(customIds, inputs[0].input)
      then rest.(answers := rest.answers[inputs[0].index := customIds[inputs[0].input.customId.value]])
      else rest.(needing := [inputs[0]] + rest.needing)
  }

  datatype NewJob = NewJob(index: nat, input: JobInput, id: JobId)

  datatype Registry = Registry(customIds: map<string, JobId>, keys: set<(string, string)>)

  datatype Registration = Registration(registry: Registry, answers: map<nat, JobId>, creates: seq<NewJob>)

  /** Phase 4 on one input: a custom id registered meanwhile answers it, a taken unique key drops it. */
  function Enroll(r: Registry, queue: string, input: JobInput, id: JobId): Registry {
    if Known(r.customIds, input) then r
    else if input.uniqueKey.Some? && (queue, input.uniqueKey.value) in r.keys then
      r.(customIds := if input.customId.Some? then r.customIds - {input.customId.value} else r.customIds)
    else
      Registry(if input.customId.Some? then r.customIds[input.customId.value := id] else r.customIds,
               if input.uniqueKey.Some? then r.keys + {(queue, input.uniqueKey.value)} else r.keys)
  }

  predicate Enrolls(r: Registry, queue: string, input: JobInput) {
    !Known(r.customIds, input) && !(input.uniqueKey.Some? && (queue, input.uniqueKey.value) in r.keys)
  }

  /** Phases 3 and 4: consecutive ids for the rest. */
  function Register(r: Registry, queue: string, needing: seq<Numbered>, id: JobId): Registration
    decreases |needing|
  {
    if needing == [] then Registration(r, map[], [])
    else
      var head := needing[0];
      var rest := Register(Enroll(r, queue, head.input, id), queue, needing[1..], id + 1);
      if Known(r.customIds, head.input)
      then rest.(answers := rest.answers[head.index := r.customIds[head.input.customId.value]])
      else if Enrolls(r, queue, head.input)
      then rest.(answers := rest.answers[head.index := id],
                 creates := [NewJob(head.index, head.input, id)] + rest.creates)
      else rest
  }

  /** Phases 5 and 6. */
  function InsertAll(jobs: map<JobId, Placed>, completed: set<JobId>, queue: string, creates: seq<NewJob>, now: nat)
    : map<JobId, Placed>
    decreases |creates|
  {
    if creates == [] then jobs
    else
      var job := CreateJob(creates[0].id, queue, creates[0].input, now);
      InsertAll(jobs[creates[0].id := Placed(StartPlace(completed, job), job)], completed, queue, creates[1..], now)
  }

  /** The answers in the order of the inputs. */
  function InOrder(answers: map<nat, JobId>, from: nat, count: nat): seq<JobId>
    decreases count
  {
    if count == 0 then []
    else (if from in answers then [answers[from]] else []) + InOrder(answers, from + 1, count - 1)
  }

  /** The part of the engine that pushing touches. */
  datatype Front = Front(jobs: map<JobId, Placed>, debounce: map<(string, string), nat>, registry: Registry,
                         nextId: JobId)

  function FrontOf(s: State): Front {
    Front(s.jobs, s.debounce, Registry(s.customIds, s.keys), s.nextId)
  }

  function WithFront(s: State, f: Front): State {
    s.(jobs := f.jobs, debounce := f.debounce, customIds := f.registry.customIds, keys := f.registry.keys,
       nextId := f.nextId)
  }

  datatype Batch = Batch(front: Front, answers: map<nat, JobId>)

  /** Phases 3 to 6 on what phase 2 left. */
  function Complete(f: Front, completed: set<JobId>, queue: string, debounce: map<(string, string), nat>,
                    sorted: Sorted, now: nat): Batch {
    var r := Register(f.registry, queue, sorted.needing, f.nextId);
    Batch(Front(InsertAll(f.jobs, completed, queue, r.creates, now), debounce, r.registry, f.nextId + |sorted.needing|),
          sorted.answers + r.answers)
  }

  /** All phases on the inputs from `index` on; `known` is the custom-id map as phase 2 saw it. */
  function Phases(f: Front, completed: set<JobId>, known: map<string, JobId>, queue: string, inputs: seq<JobInput>,
                  index: nat, now: nat): Batch
  {
    var admitted := Admit(f.debounce, queue, inputs, index, now);
    Complete(f, completed, queue, admitted.debounce, Answer(known, admitted.inputs), now)
  }

  function PushBatch(s: State, queue: string, inputs: seq<JobInput>, now: nat): (State, seq<JobId>) {
    if !ValidQueueName(queue) || |inputs| > MAX_BATCH_SIZE then (s, [])
    else
      var b := Phases(FrontOf(s), s.completed, s.customIds, queue, inputs, 0, now);
      (WithFront(s, b.front), InOrder(b.answers, 0, |inputs|))
  }

  // ---- One by one ----

  /** `push`, which takes its id before it looks at the custom id. */
  function PushNow(s: State, queue: string, input: JobInput, now: nat): PushResult {
    var r := PushAs(s, queue, input, s.nextId, now);
    if Considered(s, queue, input, now) then r.(state := r.state.(nextId := s.nextId + 1)) else r
  }

  /** A single push is a push step, and an id burned when it is answered with an existing job. */
  lemma PushNowSteps(s: State, queue: string, input: JobInput, now: nat)
    ensures var r := PushNow(s, queue, input, now);
            var pushed := Next(s, Push(queue, input, s.nextId, now));
            r.state == if r.outcome.Existing? then Next(pushed, BurnId) else pushed
  {
    var r := PushAs(s, queue, input, s.nextId, now);
    if Considered(s, queue, input, now) && !r.outcome.Existing? {
      PushShape(s, queue, input, s.nextId, now);
      assert r.state.nextId == s.nextId + 1;
    }
    hide PushAs, Considered;
  }

  function IdsOf(o: PushOutcome): seq<JobId> {
    if o.Rejected? then [] else [o.id]
  }

  function PushAll(s: State, queue: string, inputs: seq<JobInput>, now: nat): (State, seq<JobId>)
    decreases |inputs|
  {
    if inputs == [] then (s, [])
    else
      var r := PushNow(s, queue, inputs[0], now);
      var rest := PushAll(r.state, queue, inputs[1..], now);
      (rest.0, IdsOf(r.outcome) + rest.1)
  }

  // ---- The phases fused into one pass ----

  lemma {:induction false} AdmitNumbers(debounce: map<(string, string), nat>, queue: string, inputs: seq<JobInput>,
                                        index: nat, now: nat)
    ensures forall n | n in Admit(debounce, queue, inputs, index, now).inputs :: n.index >= index
    decreases |inputs|
  {
    if inputs != [] {
      var debounce' := if Admissible(debounce, queue, inputs[0], now) then Debounce(debounce, queue, inputs[0], now)
          else debounce;
      AdmitNumbers(debounce', queue, inputs[1..], index + 1, now);
    }
  }

  ghost predicate Later(answers: map<nat, JobId>, index: nat) {
    forall i: nat | i in answers :: i >= index
  }

  ghost predicate From(inputs: seq<Numbered>, index: nat) {
    forall n | n in inputs :: n.index >= index
  }

  lemma {:induction false} AnswerNumbers(customIds: map<string, JobId>, inputs: seq<Numbered>, index: nat)
    requires From(inputs, index)
    ensures var s := Answer(customIds, inputs);
            From(s.needing, index) && Later(s.answers, index)
  {
    if inputs != [] {
      AnswerNumbers(customIds, inputs[1..], index);
    }
  }

  lemma {:induction false} RegisterNumbers(r: Registry, queue: string, needing: seq<Numbered>, id: JobId, index: nat)
    requires From(needing, index)
    ensures Later(Register(r, queue, needing, id).answers, index)
    decreases |needing|
  {
    if needing != [] {
      RegisterNumbers(Enroll(r, queue, needing[0].input, id), queue, needing[1..], id + 1, index);
    }
  }

  /** Phases on the tail answer no input of the head. */
  lemma AnswersAreLater(debounce: map<(string, string), nat>, r: Registry, known: map<string, JobId>, queue: string,
                        inputs: seq<JobInput>, index: nat, id: JobId, now: nat)
    ensures var sorted := Answer(known, Admit(debounce, queue, inputs, index, now).inputs);
            Later(sorted.answers, index) && Later(Register(r, queue, sorted.needing, id).answers, index)
  {
    var admitted := Admit(debounce, queue, inputs, index, now);
    AdmitNumbers(debounce, queue, inputs, index, now);
    AnswerNumbers(known, admitted.inputs, index);
    RegisterNumbers(r, queue, Answer(known, admitted.inputs).needing, id, index);
  }

  /** What phase 4 and later do with one input. */
  function Enrolled(f: Front, completed: set<JobId>, queue: string, input: JobInput, now: nat): Front {
    var job := CreateJob(f.nextId, queue, input, now);
    Front(if Enrolls(f.registry, queue, input) then f.jobs[f.nextId := Placed(StartPlace(completed, job), job)]
          else f.jobs,
          Debounce(f.debounce, queue, input, now),
          Enroll(f.registry, queue, input, f.nextId),
          f.nextId + 1)
  }

  lemma SkippedHead(f: Front, completed: set<JobId>, known: map<string, JobId>, queue: string, inputs: seq<JobInput>,
                    index: nat, now: nat)
    requires inputs != [] && !Admissible(f.debounce, queue, inputs[0], now)
    ensures Phases(f, completed, known, queue, inputs, index, now)
            == Phases(f, completed, known, queue, inputs[1..], index + 1, now)
  {
  }

  lemma Merge(a: map<nat, JobId>, b: map<nat, JobId>, i: nat, id: JobId)
    requires i !in b
    ensures a[i := id] + b == (a + b)[i := id]
    ensures a + b[i := id] == (a + b)[i := id]
  {
  }

  /** Phases 1 and 2 with an admissible head. */
  lemma AdmittedHead(debounce: map<(string, string), nat>, known: map<string, JobId>, queue: string,
                     inputs: seq<JobInput>,
                     index: nat, now: nat)
    requires inputs != [] && Admissible(debounce, queue, inputs[0], now)
    ensures var h, debounce' := inputs[0], Debounce(debounce, queue, inputs[0], now);
            var admitted, admitted' := Admit(debounce, queue, inputs, index, now),
                Admit(debounce', queue, inputs[1..], index + 1, now);
            var sorted, sorted' := Answer(known, admitted.inputs), Answer(known, admitted'.inputs);
            && admitted.debounce == admitted'.debounce
            && sorted == if Known(known, h) then sorted'.(answers := sorted'.answers[index := known[h.customId.value]])
                         else sorted'.(needing := [Numbered(index, h)] + sorted'.needing)
  {
    var debounce' := Debounce(debounce, queue, inputs[0], now);
    var admitted, admitted' := Admit(debounce, queue, inputs, index, now),
        Admit(debounce', queue, inputs[1..], index + 1, now);
    assert admitted == Admitted([Numbered(index, inputs[0])] + admitted'.inputs, admitted'.debounce);
    assert admitted.inputs[1..] == admitted'.inputs;
  }

  function AnswerOf(r: Registry, queue: string, input: JobInput, id: JobId): Option<JobId> {
    if Known(r.customIds, input) then Some(r.customIds[input.customId.value])
    else if Enrolls(r, queue, input) then Some(id) else None
  }

  function Noted(answers: map<nat, JobId>, index: nat, answer: Option<JobId>): map<nat, JobId> {
    if answer.Some? then answers[index := answer.value] else answers
  }

  lemma RegisterHead(r: Registry, queue: string, index: nat, input: JobInput, needing: seq<Numbered>, id: JobId)
    ensures var r' := Enroll(r, queue, input, id);
            var done, done' := Register(r, queue, [Numbered(index, input)] + needing, id),
                Register(r', queue, needing, id + 1);
            && done.registry == done'.registry
            && done.creates == (if Enrolls(r, queue, input) then [NewJob(index, input, id)] + done'.creates
                                else done'.creates)
            && done.answers == Noted(done'.answers, index, AnswerOf(r, queue, input, id))
  {
    assert ([Numbered(index, input)] + needing)[1..] == needing;
  }

  lemma KnownHead(f: Front, completed: set<JobId>, known: map<string, JobId>, queue: string, inputs: seq<JobInput>,
                  index: nat, now: nat)
    requires inputs != [] && Admissible(f.debounce, queue, inputs[0], now) && Known(known, inputs[0])
    ensures var b := Phases(f, completed, known, queue, inputs, index, now);
            var b' := Phases(f.(debounce := Debounce(f.debounce, queue, inputs[0], now)), completed, known, queue,
                             inputs[1..], index + 1, now);
            b == Batch(b'.front, b'.answers[index := known[inputs[0].customId.value]])
  {
    var debounce' := Debounce(f.debounce, queue, inputs[0], now);
    AdmittedHead(f.debounce, known, queue, inputs, index, now);
    AnswersAreLater(debounce', f.registry, known, queue, inputs[1..], index + 1, f.nextId, now);
    var sorted' := Answer(known, Admit(debounce', queue, inputs[1..], index + 1, now).inputs);
    hide Admit, Answer, Register, InsertAll, Known;
    Merge(sorted'.answers, Register(f.registry, queue, sorted'.needing, f.nextId).answers, index,
          known[inputs[0].customId.value]);
  }

  lemma EnrolledHead(f: Front, completed: set<JobId>, known: map<string, JobId>, queue: string, inputs: seq<JobInput>,
                     index: nat, now: nat)
    requires inputs != [] && Admissible(f.debounce, queue, inputs[0], now) && !Known(known, inputs[0])
    ensures var b := Phases(f, completed, known, queue, inputs, index, now);
            var b' := Phases(Enrolled(f, completed, queue, inputs[0], now), completed, known, queue, inputs[1..],
                             index + 1, now);
            b == Batch(b'.front, Noted(b'.answers, index, AnswerOf(f.registry, queue, inputs[0], f.nextId)))
  {
    var debounce' := Debounce(f.debounce, queue, inputs[0], now);
    var f' := Enrolled(f, completed, queue, inputs[0], now);
    AdmittedHead(f.debounce, known, queue, inputs, index, now);
    AnswersAreLater(debounce', f'.registry, known, queue, inputs[1..], index + 1, f.nextId + 1, now);
    assert f'.debounce == debounce' && f'.nextId == f.nextId + 1;
    hide Admit, Answer, Complete, Enrolled, Debounce, Known, Admissible, AnswerOf, Register, Noted;
    var admitted' := Admit(debounce', queue, inputs[1..], index + 1, now);
    CompleteHead(f, completed, queue, admitted'.debounce, Answer(known, admitted'.inputs), index, inputs[0], now);
  }

  lemma CompleteHead(f: Front, completed: set<JobId>, queue: string, debounce: map<(string, string), nat>,
                     sorted: Sorted,
                     index: nat, input: JobInput, now: nat)
    requires var f' := Enrolled(f, completed, queue, input, now);
             Later(Register(f'.registry, queue, sorted.needing, f'.nextId).answers, index + 1)
    ensures var f' := Enrolled(f, completed, queue, input, now);
            var b := Complete(f, completed, queue, debounce,
                              sorted.(needing := [Numbered(index, input)] + sorted.needing), now);
            var b' := Complete(f', completed, queue, debounce, sorted, now);
            b == Batch(b'.front, Noted(b'.answers, index, AnswerOf(f.registry, queue, input, f.nextId)))
  {
    var r' := Enroll(f.registry, queue, input, f.nextId);
    RegisterHead(f.registry, queue, index, input, sorted.needing, f.nextId);
    var done', answer := Register(r', queue, sorted.needing, f.nextId + 1),
        AnswerOf(f.registry, queue, input, f.nextId);
    InsertAllHead(f.jobs, completed, queue, NewJob(index, input, f.nextId), done'.creates, now);
    hide Register, InsertAll, Enroll, CreateJob, StartPlace, Enrolls, AnswerOf, Debounce;
    if answer.Some? {
      Merge(sorted.answers, done'.answers, index, answer.value);
    }
  }

  lemma InsertAllHead(jobs: map<JobId, Placed>, completed: set<JobId>, queue: string, head: NewJob, tail: seq<NewJob>,
                      now: nat)
    ensures var job := CreateJob(head.id, queue, head.input, now);
            InsertAll(jobs, completed, queue, [head] + tail, now)
              == InsertAll(jobs[head.id := Placed(StartPlace(completed, job), job)], completed, queue, tail, now)
  {
    assert ([head] + tail)[1..] == tail;
  }

  // ---- Equal up to an order-preserving renaming of fresh ids ----

  function Renamed(m: map<JobId, JobId>, id: JobId): JobId {
    if id in m then m[id] else id
  }

  function AllRenamed(m: map<JobId, JobId>, ids: seq<JobId>): seq<JobId> {
    if ids == [] then [] else [Renamed(m, ids[0])] + AllRenamed(m, ids[1..])
  }

  /** `m` pairs ids from `base` on, keeping their order. */
  ghost predicate Fits(m: map<JobId, JobId>, base: JobId, a: JobId, b: JobId) {
    && base <= a && base <= b
    && (forall k | k in m :: base <= k < a && base <= m[k] < b)
    && (forall j, k | j in m && k in m && j < k :: m[j] < m[k])
  }

  /** The same job under another id. */
  predicate Twin(p: Placed, q: Placed, id: JobId) {
    q == Placed(p.place, p.job.(id := id))
  }

  ghost predicate Hit(m: map<JobId, JobId>, id: JobId) {
    exists k :: k in m && m[k] == id
  }

  /** The jobs pushed before are the same. */
  ghost predicate SameOld(a: map<JobId, Placed>, b: map<JobId, Placed>, base: JobId) {
    forall k: JobId | k < base :: (k in a <==> k in b) && (k in a ==> a[k] == b[k])
  }

  /** Those pushed since correspond. */
  ghost predicate SameNew(a: map<JobId, Placed>, b: map<JobId, Placed>, base: JobId, m: map<JobId, JobId>) {
    && (forall k: JobId | k in a && k >= base :: k in m)
    && (forall k: JobId | k in b && k >= base :: Hit(m, k))
    && (forall k | k in m :: k in a && m[k] in b && Twin(a[k], b[m[k]], m[k]))
  }

  ghost predicate SameJobs(a: map<JobId, Placed>, b: map<JobId, Placed>, base: JobId, m: map<JobId, JobId>) {
    SameOld(a, b, base) && SameNew(a, b, base, m)
  }

  ghost predicate SameNames(a: map<string, JobId>, b: map<string, JobId>, m: map<JobId, JobId>) {
    a.Keys == b.Keys && forall c | c in a :: b[c] == Renamed(m, a[c])
  }

  /** `b` is `a` but for the choice of the ids handed out from `base` on. */
  ghost predicate Alike(a: Front, b: Front, base: JobId, m: map<JobId, JobId>) {
    && Fits(m, base, a.nextId, b.nextId)
    && SameJobs(a.jobs, b.jobs, base, m)
    && SameNames(a.registry.customIds, b.registry.customIds, m)
    && a.registry.keys == b.registry.keys && a.debounce == b.debounce
  }

  lemma AlikeMoves(a: Front, b: Front, a': Front, b': Front, base: JobId, m: map<JobId, JobId>)
    requires Alike(a, b, base, m)
    requires a' == a.(debounce := a'.debounce, nextId := a'.nextId, registry := a'.registry) && a'.nextId >= a.nextId
    requires b' == b.(debounce := b'.debounce, nextId := b'.nextId, registry := b'.registry) && b'.nextId >= b.nextId
    requires a'.debounce == b'.debounce && a'.registry.keys == b'.registry.keys
    requires SameNames(a'.registry.customIds, b'.registry.customIds, m)
    ensures Alike(a', b', base, m)
  {
  }

  lemma FitsGrow(m: map<JobId, JobId>, base: JobId, i: JobId, k: JobId)
    requires Fits(m, base, i, k)
    ensures i !in m && !Hit(m, k) && Fits(m[i := k], base, i + 1, k + 1)
    ensures Hit(m[i := k], k) && forall x | Hit(m, x) :: Hit(m[i := k], x)
  {
    assert m[i := k][i] == k;
    forall x | Hit(m, x)
      ensures Hit(m[i := k], x)
    {
      var j :| j in m && m[j] == x;
      assert m[i := k][j] == x;
    }
  }

  lemma SameJobsGrow(a: map<JobId, Placed>, b: map<JobId, Placed>, base: JobId, m: map<JobId, JobId>,
                     i: JobId, k: JobId, p: Placed, q: Placed)
    requires SameJobs(a, b, base, m) && Fits(m, base, i, k) && Twin(p, q, k)
    ensures SameJobs(a[i := p], b[k := q], base, m[i := k])
  {
    assert SameOld(a[i := p], b[k := q], base);
    hide SameOld, Twin;
    SameNewGrow(a, b, base, m, i, k, p, q);
  }

  lemma SameNewGrow(a: map<JobId, Placed>, b: map<JobId, Placed>, base: JobId, m: map<JobId, JobId>,
                    i: JobId, k: JobId, p: Placed, q: Placed)
    requires SameNew(a, b, base, m) && Fits(m, base, i, k) && Twin(p, q, k)
    ensures SameNew(a[i := p], b[k := q], base, m[i := k])
  {
    FitsGrow(m, base, i, k);
    assert forall j | j in m :: m[j] < k && j != i;
    hide Twin, Hit, Fits;
  }

  lemma SameNamesGrow(a: map<string, JobId>, b: map<string, JobId>, m: map<JobId, JobId>, i: JobId, k: JobId,
                      name: Option<string>)
    requires SameNames(a, b, m) && i !in m && (forall c | c in a :: a[c] != i)
    ensures SameNames(if name.Some? then a[name.value := i] else a, if name.Some? then b[name.value := k]
                      else b, m[i := k])
  {
  }

  // ---- One input, in the batch and alone ----

  datatype Handled = Handled(front: Front, answer: Option<JobId>)

  /** What the phases together do with one input. */
  function Handle(f: Front, completed: set<JobId>, known: map<string, JobId>, queue: string, input: JobInput,
                  now: nat): Handled {
    if !Admissible(f.debounce, queue, input, now) then Handled(f, None)
    else if Known(known, input) then
      Handled(f.(debounce := Debounce(f.debounce, queue, input, now)), Some(known[input.customId.value]))
    else Handled(Enrolled(f, completed, queue, input, now), AnswerOf(f.registry, queue, input, f.nextId))
  }

  /** The phases treat the head as if they had run on it alone before. */
  lemma PhasesFuse(f: Front, completed: set<JobId>, known: map<string, JobId>, queue: string, inputs: seq<JobInput>,
                   index: nat, now: nat)
    requires inputs != []
    ensures var h := Handle(f, completed, known, queue, inputs[0], now);
            var b := Phases(h.front, completed, known, queue, inputs[1..], index + 1, now);
            Phases(f, completed, known, queue, inputs, index, now) == Batch(b.front, Noted(b.answers, index, h.answer))
  {
    hide Phases, Enrolled;
    if !Admissible(f.debounce, queue, inputs[0], now) {
      SkippedHead(f, completed, known, queue, inputs, index, now);
    } else if Known(known, inputs[0]) {
      KnownHead(f, completed, known, queue, inputs, index, now);
    } else {
      EnrolledHead(f, completed, known, queue, inputs, index, now);
    }
  }

  function Without(f: Front, input: JobInput): Front {
    if input.customId.None? then f
    else f.(registry := f.registry.(customIds := f.registry.customIds - {input.customId.value}))
  }

  /** A single push in the same terms: answered by a job the index still finds, or enrolled afresh. */
  lemma PushNowMeans(t: State, queue: string, input: JobInput, now: nat)
    requires ValidQueueName(queue)
    ensures var f, r := FrontOf(t), PushNow(t, queue, input, now);
            if !Admissible(f.debounce, queue, input, now) then r == PushResult(t, Rejected)
            else if ExistingJob(t, input).Some? then
              r == PushResult(WithFront(t, f.(debounce := Debounce(f.debounce, queue, input, now),
                                              nextId := f.nextId + 1)),
                              Existing(ExistingJob(t, input).value))
            else
              r == PushResult(WithFront(t, Enrolled(Without(f, input), t.completed, queue, input, now)),
                              if Enrolls(Without(f, input).registry, queue, input) then Created(f.nextId) else Rejected)
  {
    var t' := NoteDebounce(t, queue, input, now);
    assert ExistingJob(t', input) == ExistingJob(t, input);
    hide ExistingJob, CreateJob;
    if Admissible(t.debounce, queue, input, now) && ExistingJob(t, input).None? {
      StoreMeans(t, t', queue, input, now);
    }
    hide Store, Enrolled;
  }

  lemma StoreMeans(t: State, t': State, queue: string, input: JobInput, now: nat)
    requires t' == NoteDebounce(t, queue, input, now)
    ensures var f := Without(FrontOf(t), input);
            Store(t', queue, input, t.nextId, now)
              == PushResult(WithFront(t, Enrolled(f, t.completed, queue, input, now)),
                            if Enrolls(f.registry, queue, input) then Created(t.nextId) else Rejected)
  {
    var f := Without(FrontOf(t), input);
    assert t' == t.(debounce := Debounce(t.debounce, queue, input, now));
    EnrolledAfresh(f, t.completed, queue, input, now);
    hide CreateJob, StartPlace, Debounce, NoteDebounce, Enrolled, Enrolls;
    if input.customId.Some? {
      Forgetting(t.customIds, input.customId.value, t.nextId);
    }
  }

  lemma Forgetting(customIds: map<string, JobId>, c: string, id: JobId)
    ensures (customIds - {c})[c := id] == customIds[c := id] && customIds - {c} - {c} == customIds - {c}
  {
  }

  lemma EnrolledAfresh(f: Front, completed: set<JobId>, queue: string, input: JobInput, now: nat)
    requires !Known(f.registry.customIds, input)
    ensures var g, taken := Enrolled(f, completed, queue, input, now), input.uniqueKey.Some?
            && (queue, input.uniqueKey.value) in f.registry.keys;
            var job, r := CreateJob(f.nextId, queue, input, now), f.registry;
            && Enrolls(r, queue, input) == !taken
            && g.debounce == Debounce(f.debounce, queue, input, now) && g.nextId == f.nextId + 1
            && g.jobs == (if taken then f.jobs else f.jobs[f.nextId := Placed(StartPlace(completed, job), job)])
            && g.registry.keys == (if taken || input.uniqueKey.None? then r.keys
                                   else r.keys + {(queue, input.uniqueKey.value)})
            && g.registry.customIds == if input.customId.None? then r.customIds
                                       else if taken then r.customIds - {input.customId.value}
                                       else r.customIds[input.customId.value := f.nextId]
  {
    hide CreateJob, StartPlace, Debounce;
  }

  // ---- The refinement ----

  ghost predicate Extends(m': map<JobId, JobId>, m: map<JobId, JobId>) {
    forall k | k in m :: k in m' && m'[k] == m[k]
  }

  /** Custom ids are either as phase 2 knew them, or name jobs of this batch. */
  ghost predicate Names(customIds: map<string, JobId>, known: map<string, JobId>, base: JobId, m: map<JobId, JobId>) {
    && (forall c | c in known :: c in customIds && customIds[c] == known[c] && known[c] < base)
    && (forall c | c in customIds && c !in known :: customIds[c] in m)
  }

  /** The jobs pushed since `base` are all still where pushing put them. */
  ghost predicate InPlace(t: State, base: JobId, m: map<JobId, JobId>) {
    && (forall id | id in t.released :: id < base)
    && (forall k | k in m :: k in t.jobs && t.jobs[k].place in {Queued, WaitingDeps})
  }

  /** The single pushes are at `t` where the batch is at `f`. */
  ghost predicate Abreast(t: State, f: Front, known: map<string, JobId>, base: JobId, m: map<JobId, JobId>) {
    Alike(FrontOf(t), f, base, m) && InPlace(t, base, m) && Names(t.customIds, known, base, m)
  }

  /** No input gets its answer from a custom-id entry whose job is no longer to be found. */
  ghost predicate Clean(t: State, known: map<string, JobId>, inputs: seq<Numbered>) {
    forall n | n in inputs && Known(known, n.input) :: Retrievable(t, known[n.input.customId.value])
  }

  lemma AnsweredAlike(t: State, f: Front, known: map<string, JobId>, base: JobId, m: map<JobId, JobId>, f': Front,
                      debounce: map<(string, string), nat>)
    requires Abreast(t, f, known, base, m)
    requires f' == f.(debounce := debounce, nextId := f'.nextId) && f'.nextId >= f.nextId
    ensures Abreast(WithFront(t, FrontOf(t).(debounce := debounce, nextId := t.nextId + 1)), f', known, base, m)
  {
    var a := FrontOf(t);
    AlikeMoves(a, f, a.(debounce := debounce, nextId := a.nextId + 1), f', base, m);
    hide Alike;
  }

  /** A custom id known to the batch so far is known to the single pushes, and the other way round. */
  lemma NamesAgree(t: State, f: Front, known: map<string, JobId>, base: JobId, m: map<JobId, JobId>, input: JobInput)
    requires Abreast(t, f, known, base, m) && input.customId.Some?
    ensures var c := input.customId.value;
            && (c in t.customIds <==> c in f.registry.customIds)
            && (c in t.customIds ==> f.registry.customIds[c] == Renamed(m, t.customIds[c]))
            && (c in t.customIds && c !in known ==> t.customIds[c] in m && Retrievable(t, t.customIds[c]))
            && (c in known ==> t.customIds[c] == known[c] == f.registry.customIds[c])
  {
  }

  /** Both sides store the input. */
  lemma CreatedAlike(a: Front, f: Front, base: JobId, m: map<JobId, JobId>, completed: set<JobId>,
                     queue: string, input: JobInput, now: nat)
    requires Alike(a, f, base, m) && Enrolls(f.registry, queue, input) && Enrolls(a.registry, queue, input)
    requires forall c | c in a.registry.customIds :: a.registry.customIds[c] != a.nextId
    ensures Alike(Enrolled(a, completed, queue, input, now), Enrolled(f, completed, queue, input, now), base,
                  m[a.nextId := f.nextId])
  {
    var job, job' := CreateJob(a.nextId, queue, input, now), CreateJob(f.nextId, queue, input, now);
    var p, q := Placed(StartPlace(completed, job), job), Placed(StartPlace(completed, job'), job');
    assert Twin(p, q, f.nextId);
    hide CreateJob, StartPlace, Twin, SameJobs;
    FitsGrow(m, base, a.nextId, f.nextId);
    SameJobsGrow(a.jobs, f.jobs, base, m, a.nextId, f.nextId, p, q);
    SameNamesGrow(a.registry.customIds, f.registry.customIds, m, a.nextId, f.nextId, input.customId);
    hide Fits, SameNames;
  }

  lemma CreatedInPlace(t: State, base: JobId, m: map<JobId, JobId>, queue: string, input: JobInput, now: nat, k: JobId)
    requires InPlace(t, base, m) && Enrolls(FrontOf(t).registry, queue, input)
    ensures InPlace(WithFront(t, Enrolled(FrontOf(t), t.completed, queue, input, now)), base, m[t.nextId := k])
  {
    hide CreateJob;
  }

  lemma CreatedNames(t: State, known: map<string, JobId>, base: JobId, m: map<JobId, JobId>, queue: string,
                     input: JobInput,
                     now: nat, k: JobId)
    requires Names(t.customIds, known, base, m) && Enrolls(FrontOf(t).registry, queue, input)
    ensures Names(Enrolled(FrontOf(t), t.completed, queue, input, now).registry.customIds, known, base,
                  m[t.nextId := k])
  {
    hide CreateJob;
  }

  /** An input that both sides store, or both drop for its unique key. */
  lemma EnrolledAlike(t: State, f: Front, known: map<string, JobId>, base: JobId, m: map<JobId, JobId>,
                      queue: string, input: JobInput, now: nat)
    requires Abreast(t, f, known, base, m) && !Known(f.registry.customIds, input)
    ensures var g, enrolls := Enrolled(FrontOf(t), t.completed, queue, input, now), Enrolls(f.registry, queue, input);
            var m' := if enrolls then m[t.nextId := f.nextId] else m;
            && enrolls == Enrolls(FrontOf(t).registry, queue, input)
            && Abreast(WithFront(t, g), Enrolled(f, t.completed, queue, input, now), known, base, m')
            && Extends(m', m)
  {
    var a := FrontOf(t);
    assert Enrolls(a.registry, queue, input) == Enrolls(f.registry, queue, input);
    if Enrolls(f.registry, queue, input) {
      assert t.nextId !in m && forall c | c in t.customIds :: t.customIds[c] != t.nextId;
      hide Alike, InPlace, Names, Enrolls;
      CreatedAlike(a, f, base, m, t.completed, queue, input, now);
      CreatedInPlace(t, base, m, queue, input, now, f.nextId);
      CreatedNames(t, known, base, m, queue, input, now, f.nextId);
      assert FrontOf(WithFront(t, Enrolled(a, t.completed, queue, input, now)))
             == Enrolled(a, t.completed, queue, input, now);
      hide Enrolled;
    } else {
      DroppedAlike(t, f, known, base, m, queue, input, now);
    }
  }

  lemma Dropped(f: Front, completed: set<JobId>, queue: string, input: JobInput, now: nat)
    requires !Enrolls(f.registry, queue, input)
    ensures Enrolled(f, completed, queue, input, now)
            == f.(debounce := Debounce(f.debounce, queue, input, now), nextId := f.nextId + 1)
  {
    var customIds := f.registry.customIds;
    assert input.customId.Some? && input.customId.value !in customIds ==>
             customIds - {input.customId.value} == customIds;
  }

  lemma DroppedAlike(t: State, f: Front, known: map<string, JobId>, base: JobId, m: map<JobId, JobId>,
                     queue: string, input: JobInput, now: nat)
    requires Abreast(t, f, known, base, m) && !Known(f.registry.customIds, input) && !Enrolls(f.registry, queue, input)
    ensures Abreast(WithFront(t, Enrolled(FrontOf(t), t.completed, queue, input, now)),
                    Enrolled(f, t.completed, queue, input, now), known, base, m)
  {
    Dropped(f, t.completed, queue, input, now);
    Dropped(FrontOf(t), t.completed, queue, input, now);
    hide Enrolled;
    AnsweredAlike(t, f, known, base, m, Enrolled(f, t.completed, queue, input, now),
                  Debounce(t.debounce, queue, input, now));
  }

  ghost predicate Corresponds(o: PushOutcome, answer: Option<JobId>, base: JobId, m: map<JobId, JobId>) {
    if o.Rejected? then answer.None?
    else answer == Some(Renamed(m, o.id)) && (o.id < base || o.id in m)
  }

  /** What a push never takes away. */
  ghost predicate Keeps(t: State, t': State, base: JobId) {
    && t'.completed == t.completed
    && (forall k: JobId | k < base && Retrievable(t, k) :: Retrievable(t', k))
  }

  lemma KnownMeans(t: State, f: Front, known: map<string, JobId>, base: JobId, m: map<JobId, JobId>,
                   queue: string, input: JobInput, now: nat)
    requires Abreast(t, f, known, base, m)
    requires Admissible(f.debounce, queue, input, now) && Known(f.registry.customIds, input)
    requires Known(known, input) ==> Retrievable(t, known[input.customId.value])
    ensures var h := Handle(f, t.completed, known, queue, input, now);
            && h.front == f.(debounce := Debounce(f.debounce, queue, input, now), nextId := h.front.nextId)
            && h.front.nextId >= f.nextId
            && ExistingJob(t, input).Some?
            && Corresponds(Existing(ExistingJob(t, input).value), h.answer, base, m)
            && t.debounce == f.debounce
  {
    NamesAgree(t, f, known, base, m, input);
    Dropped(f, t.completed, queue, input, now);
    hide Enrolled, Debounce, Retrievable, Alike, InPlace;
    assert t.debounce == f.debounce by { AlikeMeans(t, f, known, base, m); }
  }

  lemma AlikeMeans(t: State, f: Front, known: map<string, JobId>, base: JobId, m: map<JobId, JobId>)
    requires Abreast(t, f, known, base, m)
    ensures t.debounce == f.debounce && base <= t.nextId && t.keys == f.registry.keys
  {
  }

  lemma KnownFollows(t: State, f: Front, known: map<string, JobId>, base: JobId, m: map<JobId, JobId>,
                     queue: string, input: JobInput, now: nat)
    requires ValidQueueName(queue) && Abreast(t, f, known, base, m)
    requires Admissible(f.debounce, queue, input, now) && Known(f.registry.customIds, input)
    requires Known(known, input) ==> Retrievable(t, known[input.customId.value])
    ensures var r, h := PushNow(t, queue, input, now), Handle(f, t.completed, known, queue, input, now);
            && Abreast(r.state, h.front, known, base, m) && Corresponds(r.outcome, h.answer, base, m)
            && Keeps(t, r.state, base)
  {
    hide PushNow, Enrolled, Debounce, Abreast, Retrievable, Handle, ExistingJob, Corresponds, Admissible, Known;
    KnownMeans(t, f, known, base, m, queue, input, now);
    PushNowMeans(t, queue, input, now);
    AnsweredAlike(t, f, known, base, m, Handle(f, t.completed, known, queue, input, now).front,
                  Debounce(t.debounce, queue, input, now));
    AnsweredKeeps(t, Debounce(t.debounce, queue, input, now), base);
  }

  lemma AnsweredKeeps(t: State, debounce: map<(string, string), nat>, base: JobId)
    ensures Keeps(t, WithFront(t, FrontOf(t).(debounce := debounce, nextId := t.nextId + 1)), base)
  {
  }

  lemma NewMeans(t: State, f: Front, known: map<string, JobId>, base: JobId, m: map<JobId, JobId>,
                 queue: string, input: JobInput, now: nat)
    requires Abreast(t, f, known, base, m)
    requires Admissible(f.debounce, queue, input, now) && !Known(f.registry.customIds, input)
    ensures ExistingJob(t, input).None? && Without(FrontOf(t), input) == FrontOf(t) && !Known(known, input)
    ensures AnswerOf(f.registry, queue, input, f.nextId) == if Enrolls(f.registry, queue, input) then Some(f.nextId)
            else None
  {
    if input.customId.Some? {
      NamesAgree(t, f, known, base, m, input);
      assert t.customIds - {input.customId.value} == t.customIds;
    }
    hide Alike, InPlace;
  }

  lemma NewFollows(t: State, f: Front, known: map<string, JobId>, base: JobId, m: map<JobId, JobId>,
                   queue: string, input: JobInput, now: nat) returns (m': map<JobId, JobId>)
    requires ValidQueueName(queue) && Abreast(t, f, known, base, m)
    requires Admissible(f.debounce, queue, input, now) && !Known(f.registry.customIds, input)
    ensures var r, h := PushNow(t, queue, input, now), Handle(f, t.completed, known, queue, input, now);
            && Abreast(r.state, h.front, known, base, m') && Corresponds(r.outcome, h.answer, base, m')
            && Keeps(t, r.state, base) && Extends(m', m)
  {
    hide PushNow, Enrolled, Enrolls, Abreast, Keeps, ExistingJob, AnswerOf, Without, Extends;
    m' := if Enrolls(f.registry, queue, input) then m[t.nextId := f.nextId] else m;
    AlikeMeans(t, f, known, base, m);
    NewMeans(t, f, known, base, m, queue, input, now);
    EnrolledAlike(t, f, known, base, m, queue, input, now);
    PushNowMeans(t, queue, input, now);
    EnrolledKeeps(t, queue, input, now, base);
  }

  lemma EnrolledKeeps(t: State, queue: string, input: JobInput, now: nat, base: JobId)
    requires base <= t.nextId
    ensures Keeps(t, WithFront(t, Enrolled(FrontOf(t), t.completed, queue, input, now)), base)
  {
    hide CreateJob, StartPlace;
  }

  /** One input: the single push and the batch stay abreast, and answer alike. */
  lemma HeadFollows(t: State, f: Front, known: map<string, JobId>, base: JobId, m: map<JobId, JobId>,
                    queue: string, input: JobInput, now: nat) returns (m': map<JobId, JobId>)
    requires ValidQueueName(queue) && Abreast(t, f, known, base, m)
    requires Admissible(f.debounce, queue, input, now) && Known(known, input) ==>
               Retrievable(t, known[input.customId.value])
    ensures var r, h := PushNow(t, queue, input, now), Handle(f, t.completed, known, queue, input, now);
            && Abreast(r.state, h.front, known, base, m') && Corresponds(r.outcome, h.answer, base, m')
            && Keeps(t, r.state, base) && Extends(m', m)
  {
    if Admissible(f.debounce, queue, input, now) && !Known(f.registry.customIds, input) {
      m' := NewFollows(t, f, known, base, m, queue, input, now);
    } else {
      m' := m;
      if Admissible(f.debounce, queue, input, now) {
        KnownFollows(t, f, known, base, m, queue, input, now);
      } else {
        PushNowMeans(t, queue, input, now);
        assert FrontOf(t).debounce == f.debounce;
        hide PushNow, Abreast, Retrievable, Admissible;
      }
    }
  }

  lemma {:induction false} InOrderSkips(answers: map<nat, JobId>, index: nat, answer: Option<JobId>, from: nat,
                                        count: nat)
    requires index < from
    ensures InOrder(Noted(answers, index, answer), from, count) == InOrder(answers, from, count)
    decreases count
  {
    if count > 0 {
      InOrderSkips(answers, index, answer, from + 1, count - 1);
    }
  }

  lemma {:induction false} RenamedAlike(ids: seq<JobId>, base: JobId, m: map<JobId, JobId>, m': map<JobId, JobId>)
    requires Extends(m', m) && (forall k | k in m' :: k >= base) && forall id | id in ids :: id < base || id in m
    ensures AllRenamed(m', ids) == AllRenamed(m, ids)
  {
    if ids != [] {
      RenamedAlike(ids[1..], base, m, m');
    }
  }

  lemma {:induction false} RenamedAppend(m: map<JobId, JobId>, a: seq<JobId>, b: seq<JobId>)
    ensures AllRenamed(m, a + b) == AllRenamed(m, a) + AllRenamed(m, b)
  {
    if a == [] {
      assert a + b == b;
    } else {
      RenamedAppend(m, a[1..], b);
      assert (a + b)[1..] == a[1..] + b;
    }
  }

  lemma CleanHead(t: State, f: Front, known: map<string, JobId>, queue: string, inputs: seq<JobInput>, index: nat,
                  now: nat)
    requires inputs != [] && Clean(t, known, Admit(f.debounce, queue, inputs, index, now).inputs)
    ensures Admissible(f.debounce, queue, inputs[0], now) && Known(known, inputs[0]) ==>
              Retrievable(t, known[inputs[0].customId.value])
  {
    if Admissible(f.debounce, queue, inputs[0], now) {
      var all := Admit(f.debounce, queue, inputs, index, now).inputs;
      assert all[0] in all && all[0].input == inputs[0];
    }
    hide Retrievable;
  }

  lemma CleanTail(t: State, t': State, f: Front, known: map<string, JobId>, base: JobId, queue: string,
                  inputs: seq<JobInput>,
                  index: nat, now: nat)
    requires inputs != [] && Clean(t, known, Admit(f.debounce, queue, inputs, index, now).inputs)
    requires Keeps(t, t', base) && forall c | c in known :: known[c] < base
    ensures var f' := Handle(f, t.completed, known, queue, inputs[0], now).front;
            Clean(t', known, Admit(f'.debounce, queue, inputs[1..], index + 1, now).inputs)
  {
    var all := Admit(f.debounce, queue, inputs, index, now).inputs;
    if Admissible(f.debounce, queue, inputs[0], now) {
      assert all[0] in all && all[0].input == inputs[0];
      var f' := Handle(f, t.completed, known, queue, inputs[0], now).front;
      assert all == [all[0]] + Admit(f'.debounce, queue, inputs[1..], index + 1, now).inputs;
    }
    hide Retrievable;
  }

  /** The phases on all inputs against the single pushes, one after the other. */
  lemma {:induction false} PhasesFollow(t: State, f: Front, known: map<string, JobId>, base: JobId,
                                        m: map<JobId, JobId>,
                                        queue: string, inputs: seq<JobInput>, index: nat, now: nat)
    returns (m': map<JobId, JobId>)
    requires ValidQueueName(queue) && Abreast(t, f, known, base, m)
    requires Clean(t, known, Admit(f.debounce, queue, inputs, index, now).inputs)
    ensures var r, b := PushAll(t, queue, inputs, now), Phases(f, t.completed, known, queue, inputs, index, now);
            && Abreast(r.0, b.front, known, base, m') && Extends(m', m)
            && InOrder(b.answers, index, |inputs|) == AllRenamed(m', r.1)
    decreases |inputs|
  {
    hide Abreast, Phases, PushNow, Handle, Clean, Known, Admissible, Extends, Keeps, Admit, InOrder, AllRenamed, Later;
    if inputs == [] {
      NothingFollows(t, f, known, base, m, queue, index, now);
      m' := m;
      return;
    }
    var r, h := PushNow(t, queue, inputs[0], now), Handle(f, t.completed, known, queue, inputs[0], now);
    NamesMeans(t, f, known, base, m);
    CleanHead(t, f, known, queue, inputs, index, now);
    var m1 := HeadFollows(t, f, known, base, m, queue, inputs[0], now);
    CleanTail(t, r.state, f, known, base, queue, inputs, index, now);
    KeepsMeans(t, r.state, base);
    m' := PhasesFollow(r.state, h.front, known, base, m1, queue, inputs[1..], index + 1, now);
    ExtendsIsTransitive(m', m1, m);
    PhasesFuse(f, t.completed, known, queue, inputs, index, now);
    var rest, b := PushAll(r.state, queue, inputs[1..], now),
        Phases(h.front, t.completed, known, queue, inputs[1..], index + 1, now);
    NamesMeans(rest.0, b.front, known, base, m');
    PhasesAnswerLater(h.front, t.completed, known, queue, inputs[1..], index + 1, now);
    HeadAnswers(b.answers, index, |inputs|, r.outcome, h.answer, base, m1, m', rest.1);
  }

  lemma NothingFollows(t: State, f: Front, known: map<string, JobId>, base: JobId, m: map<JobId, JobId>,
                       queue: string, index: nat, now: nat)
    requires Abreast(t, f, known, base, m)
    ensures var b := Phases(f, t.completed, known, queue, [], index, now);
            Abreast(t, b.front, known, base, m) && Extends(m, m) && InOrder(b.answers, index, 0) == AllRenamed(m, [])
  {
    assert Phases(f, t.completed, known, queue, [], index, now).front == f;
  }

  lemma KeepsMeans(t: State, t': State, base: JobId)
    requires Keeps(t, t', base)
    ensures t'.completed == t.completed
  {
  }

  lemma ExtendsIsTransitive(m2: map<JobId, JobId>, m1: map<JobId, JobId>, m: map<JobId, JobId>)
    requires Extends(m2, m1) && Extends(m1, m)
    ensures Extends(m2, m)
  {
  }

  /** The answer to the head goes before those to the tail, under its final name. */
  lemma HeadAnswers(answers: map<nat, JobId>, index: nat, count: nat, o: PushOutcome, answer: Option<JobId>,
                    base: JobId,
                    m: map<JobId, JobId>, m': map<JobId, JobId>, rest: seq<JobId>)
    requires Later(answers, index + 1) && count > 0
    requires Corresponds(o, answer, base, m) && Extends(m', m) && forall k | k in m' :: k >= base
    requires InOrder(answers, index + 1, count - 1) == AllRenamed(m', rest)
    ensures InOrder(Noted(answers, index, answer), index, count) == AllRenamed(m', IdsOf(o) + rest)
  {
    InOrderSkips(answers, index, answer, index + 1, count - 1);
    RenamedAppend(m', IdsOf(o), rest);
  }

  lemma PhasesAnswerLater(f: Front, completed: set<JobId>, known: map<string, JobId>, queue: string,
                          inputs: seq<JobInput>,
                          index: nat, now: nat)
    ensures Later(Phases(f, completed, known, queue, inputs, index, now).answers, index)
  {
    AnswersAreLater(f.debounce, f.registry, known, queue, inputs, index, f.nextId, now);
    var sorted := Answer(known, Admit(f.debounce, queue, inputs, index, now).inputs);
    hide Admit, Answer, Register;
    MergeAbove(sorted.answers, Register(f.registry, queue, sorted.needing, f.nextId).answers, index);
  }

  lemma MergeAbove(a: map<nat, JobId>, b: map<nat, JobId>, index: nat)
    requires Later(a, index) && Later(b, index)
    ensures Later(a + b, index)
  {
  }

  lemma NamesMeans(t: State, f: Front, known: map<string, JobId>, base: JobId, m: map<JobId, JobId>)
    requires Abreast(t, f, known, base, m)
    ensures (forall c | c in known :: known[c] < base) && (forall k | k in m :: k >= base)
  {
  }

  ghost predicate Below(s: State) {
    && (forall id | id in s.released :: id < s.nextId)
    && (forall c | c in s.customIds :: s.customIds[c] < s.nextId)
  }

  /** No id from `nextId` on is in use. Holds in every reachable state. */
  ghost predicate Unused(s: State) {
    Fresh(s) && Below(s)
  }

  lemma StoreKeepsBelow(s: State, queue: string, input: JobInput, id: JobId, now: nat)
    requires Below(s) && id >= s.nextId
    ensures Below(Store(s, queue, input, id, now).state)
  {
    hide CreateJob, StartPlace;
  }

  lemma PushKeepsBelow(s: State, queue: string, input: JobInput, id: JobId, now: nat)
    requires Below(s) && id >= s.nextId
    ensures Below(PushAs(s, queue, input, id, now).state)
  {
    hide Store, ExistingJob;
    StoreKeepsBelow(NoteDebounce(s, queue, input, now), queue, input, id, now);
  }

  lemma ActionKeepsUnused(s: State, id: JobId, action: Action)
    requires Unused(s)
    ensures Below(Act(s, id, action))
  {
    hide EffectOf;
  }

  lemma TellKeepsUnused(s: State, id: JobId)
    requires Unused(s)
    ensures Below(TellParent(s, id))
  {
  }

  lemma StepKeepsUnused(s: State, step: Step)
    requires Unused(s)
    ensures Unused(Next(s, step))
  {
    StepKeepsFresh(s, step);
    hide Fresh, PushAs, OpenFlow, Obliterated, TellParent, Act;
    match step
    case On(id, action) => ActionKeepsUnused(s, id, action);
    case Push(queue, input, newId, now) =>
      if newId >= s.nextId {
        PushKeepsBelow(s, queue, input, newId, now);
      }
    case PushFlow(queue, data, children, priority, now) => FlowShape(s, queue, data, children, priority, now);
    case Tell(id) => TellKeepsUnused(s, id);
    case Obliterate(queue) =>
      ObliterateShape(s, queue);
      ObliterateReleases(s, queue);
    case _ =>
  }

  lemma ObliterateReleases(s: State, queue: string)
    ensures Obliterated(s, queue).released <= s.released
  {
  }

  lemma {:induction false} ReachableIsUnused(s: State, steps: seq<Step>)
    requires Unused(s)
    ensures Unused(Run(s, steps))
    decreases |steps|
  {
    hide Unused, Next;
    if steps != [] {
      StepKeepsUnused(s, steps[0]);
      ReachableIsUnused(Next(s, steps[0]), steps[1..]);
    }
  }

  /** Pushing touches nothing but the front. */
  lemma {:induction false} PushAllTouchesFront(t: State, queue: string, inputs: seq<JobInput>, now: nat)
    ensures var r := PushAll(t, queue, inputs, now).0;
            r == WithFront(t, FrontOf(r)) && r.nextId >= t.nextId
    ensures !ValidQueueName(queue) ==> PushAll(t, queue, inputs, now) == (t, [])
    decreases |inputs|
  {
    if inputs != [] {
      hide PushNow;
      PushNowTouchesFront(t, queue, inputs[0], now);
      PushAllTouchesFront(PushNow(t, queue, inputs[0], now).state, queue, inputs[1..], now);
      assert IdsOf(Rejected) + [] == [];
    }
  }

  lemma PushNowTouchesFront(t: State, queue: string, input: JobInput, now: nat)
    ensures var r := PushNow(t, queue, input, now);
            && r.state == WithFront(t, FrontOf(r.state)) && r.state.nextId >= t.nextId
            && (!ValidQueueName(queue) ==> r == PushResult(t, Rejected))
  {
    if ValidQueueName(queue) {
      PushNowMeans(t, queue, input, now);
      hide PushNow, CreateJob, StartPlace, ExistingJob;
    }
  }

  /** The batch form refines the single form, on every batch in which no input names a custom id whose
      job is gone: the same inputs are accepted and answered in order, and jobs, keys, custom ids and
      debounce times are the same, up to an order-preserving renaming of the ids handed out. */
  lemma BatchRefinesSingles(s: State, queue: string, inputs: seq<JobInput>, now: nat) returns (m: map<JobId, JobId>)
    requires Unused(s) && |inputs| <= 1000
    requires ValidQueueName(queue) ==> Clean(s, s.customIds, Admit(s.debounce, queue, inputs, 0, now).inputs)
    ensures var r, b := PushAll(s, queue, inputs, now), PushBatch(s, queue, inputs, now);
            && Alike(FrontOf(r.0), FrontOf(b.0), s.nextId, m)
            && b.1 == AllRenamed(m, r.1)
            && r.0 == WithFront(s, FrontOf(r.0)) && b.0 == WithFront(s, FrontOf(b.0))
  {
    PushAllTouchesFront(s, queue, inputs, now);
    m := map[];
    StartsAbreast(s);
    hide Fresh, Clean, Admit, PushNow, Abreast, Unused, Phases, Extends;
    if ValidQueueName(queue) {
      m := PhasesFollow(s, FrontOf(s), s.customIds, s.nextId, map[], queue, inputs, 0, now);
      AbreastMeans(PushAll(s, queue, inputs, now).0,
                   Phases(FrontOf(s), s.completed, s.customIds, queue, inputs, 0, now).front,
                   s.customIds, s.nextId, m);
    }
    hide Alike, PushAll;
  }

  lemma StartsAbreast(s: State)
    requires Unused(s)
    ensures Abreast(s, FrontOf(s), s.customIds, s.nextId, map[]) && Alike(FrontOf(s), FrontOf(s), s.nextId, map[])
  {
  }

  lemma AbreastMeans(t: State, f: Front, known: map<string, JobId>, base: JobId, m: map<JobId, JobId>)
    requires Abreast(t, f, known, base, m)
    ensures Alike(FrontOf(t), f, base, m)
  {
  }

  // ---- Necessity ----

  lemma {:induction false} KnownStays(f: Front, completed: set<JobId>, known: map<string, JobId>, queue: string,
                                      inputs: seq<JobInput>, index: nat, now: nat, c: string)
    requires c in known && c in f.registry.customIds && f.registry.customIds[c] == known[c]
    ensures var r := Phases(f, completed, known, queue, inputs, index, now).front.registry;
            c in r.customIds && r.customIds[c] == known[c]
    decreases |inputs|
  {
    if inputs != [] {
      var h := Handle(f, completed, known, queue, inputs[0], now);
      PhasesFuse(f, completed, known, queue, inputs, index, now);
      assert c in h.front.registry.customIds && h.front.registry.customIds[c] == known[c] by {
        hide Phases, CreateJob, StartPlace;
      }
      hide Phases, Handle;
      KnownStays(h.front, completed, known, queue, inputs[1..], index + 1, now, c);
    }
  }

  ghost predicate Refreshed(t: State, c: string, base: JobId) {
    base <= t.nextId && (c in t.customIds ==> t.customIds[c] >= base)
  }

  ghost predicate Stale(t: State, c: string, base: JobId) {
    base <= t.nextId && c in t.customIds && t.customIds[c] < base && !Retrievable(t, t.customIds[c])
  }

  lemma EnrollMoves(f: Front, completed: set<JobId>, queue: string, input: JobInput, now: nat, c: string)
    ensures var customIds, g := f.registry.customIds, Enrolled(Without(f, input), completed, queue, input, now);
            && g.debounce == Debounce(f.debounce, queue, input, now) && g.nextId == f.nextId + 1
            && (forall k | k in f.jobs && k != f.nextId :: k in g.jobs && g.jobs[k] == f.jobs[k])
            && (forall k | k in g.jobs && k != f.nextId :: k in f.jobs)
            && (input.customId != Some(c) ==> (c in g.registry.customIds <==> c in customIds)
                                              && (c in customIds ==> g.registry.customIds[c] == customIds[c]))
            && (input.customId == Some(c) && c in g.registry.customIds ==> g.registry.customIds[c] == f.nextId)
  {
    hide CreateJob, StartPlace, Debounce;
  }

  /** A single push that meets a stale custom id replaces or drops it. */
  lemma PushNowMoves(t: State, queue: string, input: JobInput, now: nat, c: string, base: JobId)
    requires ValidQueueName(queue) && (Refreshed(t, c, base) || Stale(t, c, base))
    ensures var t' := PushNow(t, queue, input, now).state;
            && (Refreshed(t', c, base) || Stale(t', c, base))
            && (Refreshed(t, c, base) || (Admissible(t.debounce, queue, input, now) && input.customId == Some(c)) ==>
                  Refreshed(t', c, base))
            && t'.debounce == if Admissible(t.debounce, queue, input, now)
                then Debounce(t.debounce, queue, input, now) else t.debounce
  {
    PushNowMeans(t, queue, input, now);
    EnrollMoves(FrontOf(t), t.completed, queue, input, now, c);
    hide PushNow, Enrolled, Without, Enrolls, Debounce, Admissible, ValidQueueName;
  }

  lemma {:induction false} PushAllMoves(t: State, queue: string, inputs: seq<JobInput>, index: nat, now: nat,
                                        c: string, base: JobId)
    requires ValidQueueName(queue) && (Refreshed(t, c, base) || Stale(t, c, base))
    requires Refreshed(t, c, base) || exists n ::
               n in Admit(t.debounce, queue, inputs, index, now).inputs && n.input.customId == Some(c)
    ensures Refreshed(PushAll(t, queue, inputs, now).0, c, base)
    decreases |inputs|
  {
    if inputs != [] {
      var t' := PushNow(t, queue, inputs[0], now).state;
      PushNowMoves(t, queue, inputs[0], now, c, base);
      hide PushNow, Refreshed, Stale, Debounce, Admissible;
      if !Refreshed(t', c, base) {
        var n :| n in Admit(t.debounce, queue, inputs, index, now).inputs && n.input.customId == Some(c);
        assert n in Admit(t'.debounce, queue, inputs[1..], index + 1, now).inputs;
      }
      PushAllMoves(t', queue, inputs[1..], index + 1, now, c, base);
    }
  }

  /** The condition cannot be weakened: batch and single pushes agree, up to a renaming, exactly on the
      batches without a stale custom id. */
  lemma CleanIsNecessary(s: State, queue: string, inputs: seq<JobInput>, now: nat)
    requires Unused(s) && |inputs| <= 1000 && ValidQueueName(queue)
    ensures Clean(s, s.customIds, Admit(s.debounce, queue, inputs, 0, now).inputs)
            <==> exists m :: Alike(FrontOf(PushAll(s, queue, inputs, now).0),
                                   FrontOf(PushBatch(s, queue, inputs, now).0), s.nextId, m)
  {
    hide PushAll, Phases, Retrievable, Fresh;
    if Clean(s, s.customIds, Admit(s.debounce, queue, inputs, 0, now).inputs) {
      var m := BatchRefinesSingles(s, queue, inputs, now);
    } else {
      hide Admit;
      var n :| n in Admit(s.debounce, queue, inputs, 0, now).inputs && Known(s.customIds, n.input)
               && !Retrievable(s, s.customIds[n.input.customId.value]);
      var c := n.input.customId.value;
      KnownStays(FrontOf(s), s.completed, s.customIds, queue, inputs, 0, now, c);
      assert Stale(s, c, s.nextId);
      PushAllMoves(s, queue, inputs, 0, now, c, s.nextId);
      hide Known, Clean;
      forall m
        ensures !Alike(FrontOf(PushAll(s, queue, inputs, now).0), FrontOf(PushBatch(s, queue, inputs, now).0),
                       s.nextId, m)
      {
        StaleTellsApart(FrontOf(PushAll(s, queue, inputs, now).0), FrontOf(PushBatch(s, queue, inputs, now).0),
                        s.nextId, m, c);
      }
    }
  }

  lemma StaleTellsApart(a: Front, b: Front, base: JobId, m: map<JobId, JobId>, c: string)
    requires c in b.registry.customIds && b.registry.customIds[c] < base
    requires c in a.registry.customIds ==> a.registry.customIds[c] >= base
    ensures !Alike(a, b, base, m)
  {
  }

  // ---- The loops of the batch ----

  ghost predicate Increasing(inputs: seq<Numbered>, below: nat) {
    && (forall i, k | 0 <= i < k < |inputs| :: inputs[i].index < inputs[k].index)
    && (forall i | 0 <= i < |inputs| :: inputs[i].index < below)
  }

  method AdmitAll(debounce: map<(string, string), nat>, queue: string, inputs: seq<JobInput>, now: nat)
    returns (admitted: Admitted)
    ensures admitted == Admit(debounce, queue, inputs, 0, now) && Increasing(admitted.inputs, |inputs|)
  {
    var after: seq<Numbered>, times: map<(string, string), nat> := [], debounce;
    assert inputs[0..] == inputs;
    for i := 0 to |inputs|
      invariant Increasing(after, i)
      invariant var rest := Admit(times, queue, inputs[i..], i, now);
                Admit(debounce, queue, inputs, 0, now) == Admitted(after + rest.inputs, rest.debounce)
    {
      assert inputs[i..][1..] == inputs[i + 1..];
      ghost var rest := Admit(times, queue, inputs[i..], i, now);
      if Admissible(times, queue, inputs[i], now) {
        times := Debounce(times, queue, inputs[i], now);
        assert after + rest.inputs == after + [Numbered(i, inputs[i])]
               + Admit(times, queue, inputs[i + 1..], i + 1, now).inputs;
        after := after + [Numbered(i, inputs[i])];
      }
    }
    admitted := Admitted(after, times);
    assert after + [] == after;
  }

  /** Phase 2 after `i` inputs. */
  ghost predicate Answering(known: map<string, JobId>, inputs: seq<Numbered>, i: nat, answers: map<nat, JobId>,
                            needing: seq<Numbered>, below: nat)
  {
    && i <= |inputs| && Increasing(inputs, below) && Increasing(needing, below)
    && (forall k | 0 <= k < |needing| && i < |inputs| :: needing[k].index < inputs[i].index)
    && var rest := Answer(known, inputs[i..]);
       Answer(known, inputs) == Sorted(answers + rest.answers, needing + rest.needing)
  }

  lemma AnsweringStep(known: map<string, JobId>, inputs: seq<Numbered>, i: nat, answers: map<nat, JobId>,
                      needing: seq<Numbered>, below: nat)
    requires Answering(known, inputs, i, answers, needing, below) && i < |inputs|
    ensures if Known(known, inputs[i].input)
            then Answering(known, inputs, i + 1, answers[inputs[i].index := known[inputs[i].input.customId.value]],
                           needing, below)
            else Answering(known, inputs, i + 1, answers, needing + [inputs[i]], below)
  {
    var head, rest := inputs[i], Answer(known, inputs[i + 1..]);
    assert inputs[i..][0] == head && inputs[i..][1..] == inputs[i + 1..];
    assert From(inputs[i + 1..], head.index + 1);
    AnswerNumbers(known, inputs[i + 1..], head.index + 1);
    if Known(known, head.input) {
      var id := known[head.input.customId.value];
      assert Answer(known, inputs[i..]) == rest.(answers := rest.answers[head.index := id]);
      hide Answer, Known, Increasing;
      Merge(answers, rest.answers, head.index, id);
    } else {
      assert Answer(known, inputs[i..]) == rest.(needing := [head] + rest.needing);
      hide Answer, Known;
      assert needing + ([head] + rest.needing) == needing + [head] + rest.needing;
    }
  }

  lemma AnsweringEnds(known: map<string, JobId>, inputs: seq<Numbered>, answers: map<nat, JobId>,
                      needing: seq<Numbered>, below: nat)
    requires Increasing(inputs, below)
    ensures Answering(known, inputs, 0, map[], [], below)
    ensures Answering(known, inputs, |inputs|, answers, needing, below) ==>
              Answer(known, inputs) == Sorted(answers, needing)
  {
    assert inputs[0..] == inputs && inputs[|inputs|..] == [];
    var all := Answer(known, inputs);
    assert map[] + all.answers == all.answers && [] + all.needing == all.needing;
    assert answers + map[] == answers && needing + [] == needing;
  }

  method AnswerKnown(known: map<string, JobId>, inputs: seq<Numbered>, ghost below: nat) returns (sorted: Sorted)
    requires Increasing(inputs, below)
    ensures sorted == Answer(known, inputs) && Increasing(sorted.needing, below)
  {
    var answers: map<nat, JobId>, needing: seq<Numbered> := map[], [];
    AnsweringEnds(known, inputs, answers, needing, below);
    for i := 0 to |inputs|
      invariant Answering(known, inputs, i, answers, needing, below)
    {
      AnsweringStep(known, inputs, i, answers, needing, below);
      hide Answering;
      if Known(known, inputs[i].input) {
        answers := answers[inputs[i].index := known[inputs[i].input.customId.value]];
      } else {
        needing := needing + [inputs[i]];
      }
    }
    AnsweringEnds(known, inputs, answers, needing, below);
    sorted := Sorted(answers, needing);
  }

  /** Phases 3 and 4 after `i` inputs. */
  ghost predicate Registering(start: Registry, queue: string, needing: seq<Numbered>, first: JobId, i: nat,
                              r: Registry, answers: map<nat, JobId>, creates: seq<NewJob>, below: nat)
  {
    && i <= |needing| && Increasing(needing, below)
    && var rest := Register(r, queue, needing[i..], first + i);
       Register(start, queue, needing, first) == Registration(rest.registry, answers + rest.answers,
                                                              creates + rest.creates)
  }

  lemma RegisteringStep(start: Registry, queue: string, needing: seq<Numbered>, first: JobId, i: nat,
                        r: Registry, answers: map<nat, JobId>, creates: seq<NewJob>, below: nat)
    requires Registering(start, queue, needing, first, i, r, answers, creates, below) && i < |needing|
    ensures var h, id := needing[i], first + i;
            Registering(start, queue, needing, first, i + 1, Enroll(r, queue, h.input, id),
                        Noted(answers, h.index, AnswerOf(r, queue, h.input, id)),
                        if Enrolls(r, queue, h.input) then creates + [NewJob(h.index, h.input, id)] else creates, below)
  {
    var h, id: JobId, r' := needing[i], first + i, Enroll(r, queue, needing[i].input, first + i);
    var rest := Register(r', queue, needing[i + 1..], id + 1);
    var one := [NewJob(h.index, h.input, id)];
    assert needing[i..] == [Numbered(h.index, h.input)] + needing[i + 1..];
    RegisterHead(r, queue, h.index, h.input, needing[i + 1..], id);
    assert From(needing[i + 1..], h.index + 1);
    RegisterNumbers(r', queue, needing[i + 1..], id + 1, h.index + 1);
    hide Register, Enroll, Enrolls, AnswerOf, Known, Increasing;
    var answer := AnswerOf(r, queue, h.input, id);
    if answer.Some? {
      Merge(answers, rest.answers, h.index, answer.value);
    }
    assert creates + (one + rest.creates) == creates + one + rest.creates;
  }

  lemma RegisteringEnds(start: Registry, queue: string, needing: seq<Numbered>, first: JobId,
                        r: Registry, answers: map<nat, JobId>, creates: seq<NewJob>, below: nat)
    requires Increasing(needing, below)
    ensures Registering(start, queue, needing, first, 0, start, map[], [], below)
    ensures Registering(start, queue, needing, first, |needing|, r, answers, creates, below) ==>
              Register(start, queue, needing, first) == Registration(r, answers, creates)
  {
    var all := Register(start, queue, needing, first);
    assert needing[0..] == needing && needing[|needing|..] == [];
    assert map[] + all.answers == all.answers && [] + all.creates == all.creates;
    assert answers + map[] == answers && creates + [] == creates;
  }

  /** Undoing the registration of a custom id that was not known. */
  lemma Rollback(r: Registry, c: string, id: JobId)
    ensures r.customIds[c := id] - {c} == r.customIds - {c}
  {
  }

  method RegisterAll(start: Registry, queue: string, needing: seq<Numbered>, first: JobId, ghost below: nat)
    returns (done: Registration)
    requires Increasing(needing, below)
    ensures done == Register(start, queue, needing, first)
  {
    var r, answers: map<nat, JobId>, creates: seq<NewJob> := start, map[], [];
    RegisteringEnds(start, queue, needing, first, r, answers, creates, below);
    for i := 0 to |needing|
      invariant Registering(start, queue, needing, first, i, r, answers, creates, below)
    {
      RegisteringStep(start, queue, needing, first, i, r, answers, creates, below);
      hide Registering;
      var head, id := needing[i], first + i;
      if Known(r.customIds, head.input) {
        answers := answers[head.index := r.customIds[head.input.customId.value]];
        continue;
      }
      var customIds, keys := r.customIds, r.keys;
      if head.input.customId.Some? {
        customIds := customIds[head.input.customId.value := id];
      }
      if head.input.uniqueKey.Some? {
        var key := (queue, head.input.uniqueKey.value);
        if key in keys {
          if head.input.customId.Some? {
            Rollback(r, head.input.customId.value, id);
            customIds := customIds - {head.input.customId.value};
          }
          r := Registry(customIds, keys);
          continue;
        }
        keys := keys + {key};
      }
      r := Registry(customIds, keys);
      answers := answers[head.index := id];
      creates := creates + [NewJob(head.index, head.input, id)];
    }
    RegisteringEnds(start, queue, needing, first, r, answers, creates, below);
    done := Registration(r, answers, creates);
  }

  method Collect(answers: map<nat, JobId>, count: nat) returns (ids: seq<JobId>)
    ensures ids == InOrder(answers, 0, count)
  {
    ids := [];
    for i := 0 to count
      invariant ids + InOrder(answers, i, count - i) == InOrder(answers, 0, count)
    {
      ghost var rest := InOrder(answers, i + 1, count - i - 1);
      if i in answers {
        assert ids + ([answers[i]] + rest) == ids + [answers[i]] + rest;
        ids := ids + [answers[i]];
      } else {
        assert [] + rest == rest;
      }
    }
    assert ids + [] == ids;
  }
}
