/** The key-value store with expiry (engine/src/queue/kv.rs:17-263). */
module KeyValue {
  import opened Protocol
  import Glob

  const MAX_KEY_LENGTH := 1024
  const MAX_VALUE_SIZE := 10_485_760
  const MAX_BATCH_SIZE := 1000

  /** A JSON value, as far as the store looks into it: `text` is its serialisation. */
  datatype Value = Null | Int(n: int) | Fraction(text: string) | Other(text: string)

  datatype Entry = Entry(value: Value, expiresAt: Option<nat>)
  {
    predicate IsExpired(now: nat) {
      expiresAt.Some? && now > expiresAt.value
    }
  }

  type Store = map<string, Entry>

  datatype Result<T> = Ok(value: T) | Err

  function EntryFor(value: Value, ttl: Option<nat>, now: nat): Entry {
    Entry(value, if ttl.Some? then Some(now + ttl.value) else None)
  }

  predicate Oversized(value: Value) {
    (value.Fraction? || value.Other?) && |value.text| > MAX_VALUE_SIZE
  }

  predicate Acceptable(key: string, value: Value) {
    key != "" && |key| <= MAX_KEY_LENGTH && !Oversized(value)
  }

  predicate IsInt64(n: int) {
    -0x8000_0000_0000_0000 <= n < 0x8000_0000_0000_0000
  }

  /** Signed 64-bit addition as release builds do it. */
  function Wrap64(n: int): (w: int)
    ensures IsInt64(w) && (w - n) % 0x1_0000_0000_0000_0000 == 0
    ensures IsInt64(n) ==> w == n
  {
    (n + 0x8000_0000_0000_0000) % 0x1_0000_0000_0000_0000 - 0x8000_0000_0000_0000
  }

  // ---- Operations and what they answer ----

  datatype Op =
    | Set(key: string, value: Value, ttl: Option<nat>)
    | Get(key: string)
    | Del(key: string)
    | MGet(keys: seq<string>)
    | MSet(entries: seq<(string, Value, Option<nat>)>)
    | Exists(key: string)
    | Expire(key: string, after: nat)
    | Ttl(key: string)
    | Keys(pattern: Option<string>)
    | Incr(key: string, delta: int)
    | Cleanup
    | Stats

  datatype Reply =
    | Done(ok: bool)
    | Values(values: seq<Option<Value>>)
    | Count(count: Result<nat>)
    | Truth(b: bool)
    | Millis(ms: int)
    | Found(keys: set<string>)
    | Panicked
    | Sum(sum: Result<int>)
    | Sizes(total: nat, withTtl: nat)

  predicate IsLive(store: Store, key: string, now: nat) {
    key in store && !store[key].IsExpired(now)
  }

  function ValueAt(store: Store, key: string, now: nat): Option<Value> {
    if IsLive(store, key, now) then Some(store[key].value) else None
  }

  function PutAll(store: Store, entries: seq<(string, Value, Option<nat>)>, now: nat): Store
    decreases |entries|
  {
    if entries == [] then store
    else
      var (key, value, ttl) := entries[0];
      PutAll(if Acceptable(key, value) then store[key := EntryFor(value, ttl, now)] else store, entries[1..], now)
  }

  function CountAcceptable(entries: seq<(string, Value, Option<nat>)>): nat {
    if entries == [] then 0
    else (if Acceptable(entries[0].0, entries[0].1) then 1 else 0) + CountAcceptable(entries[1..])
  }

  function Incremented(value: Value, delta: int): Result<int> {
    match value
    case Int(n) => if IsInt64(n) then Ok(Wrap64(n + delta)) else Err
    case Null => Ok(Wrap64(delta))
    case _ => Err
  }

  predicate Selected(key: string, pattern: Option<string>) {
    pattern.Some? ==> Glob.Inner(pattern.value, key, 0) == Glob.Yes
  }

  function Matching(store: Store, pattern: Option<string>, now: nat): set<string> {
    set key | key in store && IsLive(store, key, now) && Selected(key, pattern)
  }

  /** The matcher panics on some key it is shown. */
  predicate Breaks(store: Store, pattern: Option<string>, now: nat) {
    pattern.Some? && exists key | key in store ::
          IsLive(store, key, now) && Glob.Inner(pattern.value, key, 0) == Glob.Panic
  }

  function Step(store: Store, op: Op, now: nat): (Store, Reply) {
    match op
    case Set(key, value, ttl) =>
      if Acceptable(key, value) then (store[key := EntryFor(value, ttl, now)], Done(true)) else (store, Done(false))
    case Get(key) => (store, Values([ValueAt(store, key, now)]))
    case Del(key) => (store - {key}, Truth(key in store))
    case MGet(keys) =>
      var count := Min(|keys|, MAX_BATCH_SIZE);
      (store, Values(seq(count, i requires 0 <= i < count => ValueAt(store, keys[i], now))))
    case MSet(entries) =>
      if |entries| > MAX_BATCH_SIZE then (store, Count(Err))
      else (PutAll(store, entries, now), Count(Ok(CountAcceptable(entries))))
    case Exists(key) => (store, Truth(IsLive(store, key, now)))
    case Expire(key, ttl) =>
      if IsLive(store, key, now) then (store[key := store[key].(expiresAt := Some(now + ttl))], Truth(true))
      else (store, Truth(false))
    case Ttl(key) =>
      (store, Millis(if !IsLive(store, key, now) then -2
                     else if store[key].expiresAt.None? then -1 else store[key].expiresAt.value - now))
    case Keys(pattern) =>
      (store, if Breaks(store, pattern, now) then Panicked
              else Found(Matching(store, pattern, now)))
    case Incr(key, delta) =>
      if !IsLive(store, key, now) then (store[key := Entry(Int(delta), None)], Sum(Ok(delta)))
      else
        var sum := Incremented(store[key].value, delta);
        (if sum.Ok? then store[key := store[key].(value := Int(sum.value))] else store, Sum(sum))
    case Cleanup => (Cleaned(store, now), Done(true))
    case Stats =>
      (store, Sizes(|store|, |set key | key in store && store[key].expiresAt.Some? && !store[key].IsExpired(now)|))
  }

  function Cleaned(store: Store, now: nat): Store {
    map key | key in store && !store[key].IsExpired(now) :: store[key]
  }

  // ---- What a later question is answered ----

  /** A key of 1 to 1024 characters and a value that is short enough. */
  predicate MayStore(key: string, value: Value) {
    && 1 <= |key| && |key| <= 1024
    && match value
       case Null => true
       case Int(_) => true
       case Fraction(text) => |text| <= 10 * 1024 * 1024
       case Other(text) => |text| <= 10 * 1024 * 1024
  }

  function GetReply(value: Option<Value>): Reply {
    Values([value])
  }

  /** Other keys are answered as before. */
  ghost predicate OthersAnswer(store: Store, store': Store, key: string, later: nat) {
    forall k | k != key ::
      && Step(store', Get(k), later).1 == Step(store, Get(k), later).1
      && Step(store', Ttl(k), later).1 == Step(store, Ttl(k), later).1
  }

  /** A value that was set is found until just after its time is over, with the time that is left. */
  lemma SetThenAsk(store: Store, key: string, value: Value, ttl: Option<nat>, now: nat, later: nat)
    ensures var (store', reply) := Step(store, Set(key, value, ttl), now);
            var there := ttl.None? || later <= now + ttl.value;
            && reply == Done(MayStore(key, value)) && OthersAnswer(store, store', key, later)
            && (!MayStore(key, value) ==> store' == store)
            && (MayStore(key, value) ==>
                  && Step(store', Get(key), later).1 == GetReply(if there then Some(value) else None)
                  && Step(store', Exists(key), later).1 == Truth(there)
                  && Step(store', Ttl(key), later).1
                     == Millis(if ttl.None? then -1 else if there then now + ttl.value - later else -2))
  {
  }

  /** `kv_expire` gives a key that is there a new time and keeps its value. */
  lemma ExpireThenAsk(store: Store, key: string, after: nat, now: nat, later: nat)
    ensures var (store', reply) := Step(store, Expire(key, after), now);
            var found, there := Step(store, Get(key), now).1.values[0], later <= now + after;
            && reply == Truth(found.Some?) && OthersAnswer(store, store', key, later)
            && (found.None? ==> store' == store)
            && (found.Some? ==>
                  && Step(store', Get(key), later).1 == GetReply(if there then found else None)
                  && Step(store', Ttl(key), later).1 == Millis(if there then now + after - later else -2))
  {
  }

  /** `kv_incr` adds to an integer, counts null as zero and a missing key as zero without an end, and refuses
      anything else; what it says is what is found, as long as the key lasted before. */
  lemma IncrThenAsk(store: Store, key: string, delta: int, now: nat, later: nat)
    requires IsInt64(delta)
    ensures var (store', reply) := Step(store, Incr(key, delta), now);
            var found := Step(store, Get(key), now).1.values[0];
            var refused := found.Some? && !found.value.Null? && !(found.value.Int? && IsInt64(found.value.n));
            && OthersAnswer(store, store', key, later)
            && (refused <==> reply == Sum(Err)) && (refused ==> store' == store)
            && (!refused ==>
                  && reply == Sum(Ok(Wrap64(delta + if found.Some? && found.value.Int? then found.value.n else 0)))
                  && (found.None? ==> Step(store', Get(key), later).1 == GetReply(Some(Int(reply.sum.value)))
                                      && Step(store', Ttl(key), later).1 == Millis(-1))
                  && (found.Some? ==>
                        && Step(store', Ttl(key), later).1 == Step(store, Ttl(key), later).1
                        && Step(store', Get(key), later).1
                           == GetReply(if Step(store, Get(key), later).1 == GetReply(None) then None
                                       else Some(Int(reply.sum.value)))))
  {
  }

  lemma DelThenAsk(store: Store, key: string, now: nat, later: nat)
    ensures var store' := Step(store, Del(key), now).0;
            && Step(store', Get(key), later).1 == GetReply(None) && OthersAnswer(store, store', key, later)
  {
  }

  /** `kv_keys` lists the keys that `kv_get` would find, as far as they match. */
  lemma KeysAreFound(store: Store, pattern: Option<string>, key: string, now: nat)
    requires Step(store, Keys(pattern), now).1.Found?
    ensures key in Step(store, Keys(pattern), now).1.keys
            <==> Step(store, Get(key), now).1 != GetReply(None)
                 && (pattern.Some? ==> Glob.Inner(pattern.value, key, 0) == Glob.Yes)
  {
    assert Values([ValueAt(store, key, now)]).values[0] == ValueAt(store, key, now);
    assert GetReply(None).values[0] == None;
  }

  /** `kv_mget` answers for the first thousand keys as `kv_get` does for each. */
  lemma MGetAsksEach(store: Store, keys: seq<string>, now: nat)
    ensures var reply := Step(store, MGet(keys), now).1;
            && |reply.values| == (if |keys| <= 1000 then |keys| else 1000)
            && forall i | 0 <= i < |reply.values| :: Step(store, Get(keys[i]), now).1 == GetReply(reply.values[i])
  {
  }

  /** A batch of more than a thousand entries is refused. */
  lemma MSetRefuses(store: Store, entries: seq<(string, Value, Option<nat>)>, now: nat)
    ensures var (store', reply) := Step(store, MSet(entries), now);
            && (reply == Count(Err) <==> |entries| > 1000)
            && store' == if |entries| > 1000 then store else PutAll(store, entries, now)
  {
  }

  /** An entry of a batch that stores something under this key. */
  predicate Stores(entry: (string, Value, Option<nat>), key: string) {
    entry.0 == key && MayStore(key, entry.1)
  }

  lemma {:induction false} MSetLeaves(store: Store, entries: seq<(string, Value, Option<nat>)>, key: string, now: nat)
    requires forall i | 0 <= i < |entries| :: !Stores(entries[i], key)
    ensures var store' := PutAll(store, entries, now);
            (key in store' <==> key in store) && (key in store ==> store'[key] == store[key])
    decreases |entries|
  {
    if entries != [] {
      var (k, value, ttl) := entries[0];
      MSetLeaves(if Acceptable(k, value) then store[k := EntryFor(value, ttl, now)] else store, entries[1..], key, now);
    }
  }

  /** After `kv_mset` a key has the last value that could be stored under it. */
  lemma {:induction false} MSetThenAsk(store: Store, entries: seq<(string, Value, Option<nat>)>, i: nat, key: string,
                                       now: nat, later: nat)
    requires i < |entries| && Stores(entries[i], key)
    requires forall k | i < k < |entries| :: !Stores(entries[k], key)
    ensures var (_, value, ttl) := entries[i];
            Step(PutAll(store, entries, now), Get(key), later).1
            == GetReply(if ttl.None? || later <= now + ttl.value then Some(value) else None)
    decreases |entries|
  {
    var (k, value, ttl) := entries[0];
    var store1 := if Acceptable(k, value) then store[k := EntryFor(value, ttl, now)] else store;
    if i == 0 {
      MSetLeaves(store1, entries[1..], key, now);
    } else {
      assert forall m | 0 <= m < |entries| - 1 :: entries[1..][m] == entries[m + 1];
      MSetThenAsk(store1, entries[1..], i - 1, key, now, later);
    }
  }

  // ---- The store itself ----

  class KvStore {
    var entries: Store

    constructor ()
      ensures entries == map[]
    {
      entries := map[];
    }

    method Set(key: string, value: Value, ttl: Option<nat>, now: nat) returns (ok: bool)
      modifies this
      ensures (entries, Done(ok)) == Step(old(entries), Op.Set(key, value, ttl), now)
    {
      if key == "" || |key| > MAX_KEY_LENGTH {
        return false;
      }
      if Oversized(value) {
        return false;
      }
      entries := entries[key := EntryFor(value, ttl, now)];
      return true;
    }

    method MGet(keys: seq<string>, now: nat) returns (values: seq<Option<Value>>)
      ensures Step(entries, Op.MGet(keys), now) == (entries, Values(values))
    {
      values := [];
      var count := Min(|keys|, MAX_BATCH_SIZE);
      for i := 0 to count
        invariant |values| == i && forall k | 0 <= k < i :: values[k] == ValueAt(entries, keys[k], now)
      {
        var value := if keys[i] in entries && !entries[keys[i]].IsExpired(now) then Some(entries[keys[i]].value)
            else None;
        values := values + [value];
      }
      assert values == Step(entries, Op.MGet(keys), now).1.values;
    }

    method MSet(batch: seq<(string, Value, Option<nat>)>, now: nat) returns (count: Result<nat>)
      modifies this
      ensures (entries, Count(count)) == Step(old(entries), Op.MSet(batch), now)
    {
      if |batch| > MAX_BATCH_SIZE {
        return Err;
      }
      var n := 0;
      assert batch[0..] == batch;
      for i := 0 to |batch|
        invariant PutAll(entries, batch[i..], now) == PutAll(old(entries), batch, now)
        invariant n + CountAcceptable(batch[i..]) == CountAcceptable(batch)
      {
        assert batch[i..][1..] == batch[i + 1..];
        var (key, value, ttl) := batch[i];
        if key == "" || |key| > MAX_KEY_LENGTH {
          continue;
        }
        if Oversized(value) {
          continue;
        }
        entries := entries[key := EntryFor(value, ttl, now)];
        n := n + 1;
      }
      count := Ok(n);
    }

    /** The two readings of the clock in `kv_expire` are taken as one. */
    method Expire(key: string, ttl: nat, now: nat) returns (done: bool)
      modifies this
      ensures (entries, Truth(done)) == Step(old(entries), Op.Expire(key, ttl), now)
    {
      if key !in entries || entries[key].IsExpired(now) {
        return false;
      }
      entries := entries[key := entries[key].(expiresAt := Some(now + ttl))];
      return true;
    }

    method Incr(key: string, delta: int, now: nat) returns (sum: Result<int>)
      requires IsInt64(delta)
      modifies this
      ensures (entries, Sum(sum)) == Step(old(entries), Op.Incr(key, delta), now)
    {
      if key !in entries {
        entries := entries[key := EntryFor(Int(delta), None, now)];
        return Ok(delta);
      }
      if entries[key].IsExpired(now) {
        entries := entries[key := Entry(Int(delta), None)];
        return Ok(delta);
      }
      var current := 0;
      match entries[key].value {
        case Int(n) =>
          if !IsInt64(n) {
            return Err;
          }
          current := n;
        case Null =>
        case _ => return Err;
      }
      sum := Ok(Wrap64(current + delta));
      entries := entries[key := entries[key].(value := Int(sum.value))];
    }

    method Keys(pattern: Option<string>, now: nat) returns (reply: Reply)
      ensures Step(entries, Op.Keys(pattern), now) == (entries, reply)
    {
      var found := {};
      var todo := entries.Keys;
      while todo != {}
        invariant todo <= entries.Keys
        invariant found == set key | key in entries && key !in todo && IsLive(entries, key, now)
                  && Selected(key, pattern)
        invariant pattern.Some? ==> forall key | key in entries && key !in todo ::
                                      IsLive(entries, key, now) ==> Glob.Inner(pattern.value, key, 0) != Glob.Panic
      {
        var key :| key in todo;
        todo := todo - {key};
        if !entries[key].IsExpired(now) {
          var verdict := Glob.Yes;
          if pattern.Some? {
            verdict := Glob.GlobMatch(pattern.value, key);
          }
          if verdict == Glob.Panic {
            return Panicked;
          }
          if verdict == Glob.Yes {
            found := found + {key};
          }
        }
      }
      assert found == Matching(entries, pattern, now);
      return Found(found);
    }

    method Cleanup(now: nat)
      modifies this
      ensures entries == Cleaned(old(entries), now)
    {
      var todo := entries.Keys;
      while todo != {}
        invariant todo <= entries.Keys <= old(entries).Keys
        invariant forall key | key in entries ::
                    entries[key] == old(entries)[key] && (key in todo || !entries[key].IsExpired(now))
        invariant forall key | key in old(entries) && key !in entries :: old(entries)[key].IsExpired(now)
      {
        var key :| key in todo;
        todo := todo - {key};
        if entries[key].IsExpired(now) {
          entries := entries - {key};
        }
      }
    }
  }

  // ---- Cleanup cannot be observed ----

  /** The stores hold the same at `now`, and so at any later time. */
  ghost predicate Agree(a: Store, b: Store, now: nat) {
    forall key :: (IsLive(a, key, now) <==> IsLive(b, key, now)) && (IsLive(a, key, now) ==> a[key] == b[key])
  }

  lemma AgreeLater(a: Store, b: Store, now: nat, later: nat)
    requires Agree(a, b, now) && now <= later
    ensures Agree(a, b, later)
  {
    assert forall key | IsLive(a, key, later) || IsLive(b, key, later) :: IsLive(a, key, now) && IsLive(b, key, now);
  }

  lemma {:induction false} PutAllAgrees(a: Store, b: Store, entries: seq<(string, Value, Option<nat>)>, now: nat)
    requires Agree(a, b, now)
    ensures Agree(PutAll(a, entries, now), PutAll(b, entries, now), now)
    decreases |entries|
  {
    if entries != [] {
      var (key, value, ttl) := entries[0];
      var e := EntryFor(value, ttl, now);
      if Acceptable(key, value) {
        assert Agree(a[key := e], b[key := e], now);
        PutAllAgrees(a[key := e], b[key := e], entries[1..], now);
      } else {
        PutAllAgrees(a, b, entries[1..], now);
      }
    }
  }

  /** Operations whose answer tells of expired entries. */
  predicate Peeks(op: Op) {
    op.Del? || op.Stats?
  }

  /** Stores that agree answer alike and go on agreeing. */
  lemma StepAgrees(a: Store, b: Store, op: Op, now: nat)
    requires Agree(a, b, now)
    ensures Agree(Step(a, op, now).0, Step(b, op, now).0, now)
    ensures !Peeks(op) ==> Step(a, op, now).1 == Step(b, op, now).1
  {
    match op
    case MSet(entries) => PutAllAgrees(a, b, entries, now);
    case Keys(pattern) =>
      assert Matching(a, pattern, now) == Matching(b, pattern, now);
      assert Breaks(a, pattern, now) <==> Breaks(b, pattern, now);
    case MGet(keys) =>
      assert Step(a, op, now).1.values == Step(b, op, now).1.values;
    case _ =>
  }

  datatype Event = Event(op: Op, now: nat)

  predicate Timed(clock: nat, events: seq<Event>)
    decreases |events|
  {
    events == [] || (clock <= events[0].now && Timed(events[0].now, events[1..]))
  }

  /** The answers of a run, without those of cleanups, deletions and statistics. */
  function Answers(store: Store, events: seq<Event>): seq<Reply>
    decreases |events|
  {
    if events == [] then []
    else
      var (store', reply) := Step(store, events[0].op, events[0].now);
      (if events[0].op.Cleanup? || Peeks(events[0].op) then [] else [reply]) + Answers(store', events[1..])
  }

  function WithoutCleanups(events: seq<Event>): seq<Event> {
    if events == [] then []
    else (if events[0].op.Cleanup? then [] else [events[0]]) + WithoutCleanups(events[1..])
  }

  /** Under a clock that does not go back, cleanups, wherever they come in a run, change no answer but
      those of `kv_del` and `kv_stats`. */
  lemma {:induction false} CleanupIsUnobservable(a: Store, b: Store, clock: nat, events: seq<Event>)
    requires Agree(a, b, clock) && Timed(clock, events)
    ensures Answers(a, events) == Answers(b, WithoutCleanups(events))
    decreases |events|
  {
    if events != [] {
      var Event(op, now) := events[0];
      AgreeLater(a, b, clock, now);
      var a' := Step(a, op, now).0;
      if op.Cleanup? {
        assert Agree(a', b, now);
        assert WithoutCleanups(events) == WithoutCleanups(events[1..]);
        CleanupIsUnobservable(a', b, now, events[1..]);
        assert Answers(a, events) == Answers(a', events[1..]);
      } else {
        StepAgrees(a, b, op, now);
        CleanupIsUnobservable(a', Step(b, op, now).0, now, events[1..]);
        var rest := WithoutCleanups(events[1..]);
        assert WithoutCleanups(events) == [events[0]] + rest;
        assert ([events[0]] + rest)[1..] == rest;
      }
    }
  }

  /** Where the exception bites: a deletion's answer gives a cleanup away exactly when the key was stored
      and had expired. */
  lemma DelTellsExpired(store: Store, key: string, now: nat)
    ensures Step(store, Del(key), now).1 == Step(Cleaned(store, now), Del(key), now).1
            <==> !(key in store && store[key].IsExpired(now))
  {
  }
}
