/** The per-queue priority queue with lazy removal (engine/src/queue/types/indexed_priority_queue.rs).

    `index` is the truth about which jobs are queued. `heap` orders light entries; an entry whose
    generation no longer matches the index is stale and is thrown away when it surfaces. */
module PriorityQueue {
  import opened Protocol

  datatype HeapEntry = HeapEntry(rank: Rank, generation: nat)

  datatype Stored = Stored(job: Job, generation: nat)
  {
    function Entry(): HeapEntry {
      HeapEntry(job.Ranking(), generation)
    }
  }

  function RanksOf(heap: set<HeapEntry>): set<Rank> {
    set e | e in heap :: e.rank
  }

  /** What a binary heap over `Ord` promises of its root: nothing outranks it, provided the
      comparison orders the entries at all. */
  predicate IsRoot(e: HeapEntry, heap: set<HeapEntry>) {
    e in heap && (Orderly(RanksOf(heap)) ==> forall x | x in heap :: AtLeast(e.rank, x.rank))
  }

  lemma {:induction false} GreatestExists(s: set<Rank>)
    requires s != {} && Orderly(s)
    ensures exists g | g in s :: forall x | x in s :: AtLeast(g, x)
    decreases |s|
  {
    var r :| r in s;
    var rest := s - {r};
    if rest == {} {
      assert s == {r};
    } else {
      GreatestExists(rest);
      var g :| g in rest && forall x | x in rest :: AtLeast(g, x);
      var top := if AtLeast(r, g) then r else g;
      forall x | x in s
        ensures AtLeast(top, x)
      {
        if AtLeast(r, g) && x != r {
          OrderlyTriple(s, r, g, x);
        }
      }
    }
  }

  lemma RootExists(heap: set<HeapEntry>)
    requires heap != {}
    ensures exists e :: IsRoot(e, heap)
  {
    var e :| e in heap;
    if Orderly(RanksOf(heap)) {
      assert e.rank in RanksOf(heap);
      GreatestExists(RanksOf(heap));
      var g :| g in RanksOf(heap) && forall x | x in RanksOf(heap) :: AtLeast(g, x);
      var top :| top in heap && top.rank == g;
      assert IsRoot(top, heap);
    } else {
      assert IsRoot(e, heap);
    }
  }

  class IndexedPriorityQueue {
    var heap: set<HeapEntry>
    var index: map<JobId, Stored>
    var generation: nat

    ghost predicate Valid()
      reads this
    {
      && (forall id | id in index :: index[id].job.id == id && index[id].Entry() in heap)
      && (forall e | e in heap :: e.generation < generation)
      && (forall e | e in heap && Live(e) :: e == index[e.rank.id].Entry())
    }

    predicate Live(e: HeapEntry)
      reads this
    {
      e.rank.id in index && index[e.rank.id].generation == e.generation
    }

    /** The queued jobs. */
    ghost function Contents(): map<JobId, Job>
      reads this
    {
      map id | id in index :: index[id].job
    }

    /** Ranks in the heap, those of lazily removed jobs included. */
    ghost function Ranks(): set<Rank>
      reads this
    {
      RanksOf(heap)
    }

    lemma RanksCover()
      requires Valid()
      ensures forall id | id in Contents() :: Contents()[id].id == id && Contents()[id].Ranking() in Ranks()
    {
      forall id | id in Contents()
        ensures Contents()[id].Ranking() in Ranks()
      {
        assert index[id].Entry() in heap;
      }
    }

    constructor ()
      ensures Valid() && Contents() == map[] && Ranks() == {}
    {
      heap, index, generation := {}, map[], 0;
    }

    method Push(job: Job)
      requires Valid()
      modifies this
      ensures Valid()
      ensures Contents() == old(Contents())[job.id := job]
      ensures Ranks() == old(Ranks()) + {job.Ranking()}
    {
      var stored := Stored(job, generation);
      index := index[job.id := stored];
      heap := heap + {stored.Entry()};
      generation := generation + 1;
    }

    lemma RootOutranks(e: HeapEntry)
      requires Valid() && IsRoot(e, heap) && Live(e)
      ensures e == index[e.rank.id].Entry()
      ensures Orderly(Ranks()) ==>
                forall id | id in Contents() :: AtLeast(e.rank, Contents()[id].Ranking())
    {
      assert forall id | id in index :: index[id].Entry() in heap;
    }

    method Pop() returns (popped: Option<Job>)
      requires Valid()
      modifies this
      ensures Valid()
      ensures popped.None? ==> old(Contents()) == map[] == Contents()
      ensures popped.Some? ==>
                && popped.value.id in old(Contents()) && old(Contents())[popped.value.id] == popped.value
                && Contents() == old(Contents()) - {popped.value.id}
                && popped.value.Ranking() in old(Ranks())
      ensures Ranks() <= old(Ranks())
      ensures popped.Some? && Orderly(old(Ranks())) ==>
                forall id | id in old(Contents()) :: AtLeast(popped.value.Ranking(), old(Contents())[id].Ranking())
    {
      while heap != {}
        invariant Valid() && index == old(index) && Ranks() <= old(Ranks())
        decreases |heap|
      {
        RootExists(heap);
        var e :| IsRoot(e, heap);
        if Live(e) {
          RootOutranks(e);
          var job := index[e.rank.id].job;
          heap, index := heap - {e}, index - {e.rank.id};
          return Some(job);
        }
        heap := heap - {e};
      }
      popped := None;
      assert forall id :: id !in index;
    }

    method Peek() returns (top: Option<Job>)
      requires Valid()
      modifies `heap
      ensures Valid() && Ranks() <= old(Ranks())
      ensures top.None? <==> Contents() == map[]
      ensures top.Some? ==> top.value.id in Contents() && Contents()[top.value.id] == top.value
      ensures top.Some? && Orderly(old(Ranks())) ==>
                forall id | id in Contents() :: AtLeast(top.value.Ranking(), Contents()[id].Ranking())
    {
      while heap != {}
        invariant Valid() && Ranks() <= old(Ranks())
        decreases |heap|
      {
        RootExists(heap);
        var e: HeapEntry :| IsRoot(e, heap);
        if Live(e) {
          RootOutranks(e);
          assert e.rank.id in Contents();
          return Some(index[e.rank.id].job);
        }
        heap := heap - {e};
      }
      top := None;
      assert forall id :: id !in index;
    }

    method Get(id: JobId) returns (job: Option<Job>)
      ensures job == if id in Contents() then Some(Contents()[id]) else None
    {
      job := if id in index then Some(index[id].job) else None;
    }

    /** Lazy: the heap entry stays behind and turns stale. */
    method Remove(id: JobId) returns (removed: Option<Job>)
      requires Valid()
      modifies `index
      ensures Valid() && Contents() == old(Contents()) - {id}
      ensures removed == if id in old(Contents()) then Some(old(Contents())[id]) else None
    {
      removed := if id in index then Some(index[id].job) else None;
      index := index - {id};
    }

    method Update(job: Job) returns (replaced: Option<Job>)
      requires Valid()
      modifies this
      ensures Valid() && Contents() == old(Contents())[job.id := job]
      ensures replaced == if job.id in old(Contents()) then Some(old(Contents())[job.id]) else None
    {
      replaced := Remove(job.id);
      Push(job);
    }

    method Len() returns (n: nat)
      ensures n == |Contents()|
    {
      n := |index|;
      assert Contents().Keys == index.Keys;
    }

    method Retain(keep: Job -> bool)
      requires Valid()
      modifies `index
      ensures Valid()
      ensures Contents() == map id | id in old(Contents()) && keep(old(Contents())[id]) :: old(Contents())[id]
    {
      var removed := set id | id in index && !keep(index[id].job);
      while removed != {}
        invariant removed <= index.Keys
        invariant index.Keys <= old(index.Keys)
        invariant forall id | id in index :: index[id] == old(index)[id]
        invariant forall id | id in index && id !in removed :: keep(index[id].job)
        invariant forall id | id in old(index) && id !in index :: !keep(old(index)[id].job)
        invariant forall id | id in removed :: !keep(index[id].job)
      {
        var id :| id in removed;
        removed := removed - {id};
        index := index - {id};
      }
    }

    method Clear()
      requires Valid()
      modifies this
      ensures Valid() && Contents() == map[] && Ranks() == {}
    {
      heap, index := {}, map[];
    }
  }
}
