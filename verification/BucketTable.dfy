/**
 * The table of bucket allocators: a search that stops at the first empty slot, an insertion into
 * it, and the double-checked creation of a bucket by any number of threads, where the new
 * allocator is constructed outside the lock.
 */
module BucketTable {
  import opened Common

  const MAX_ALLOCATORS: nat := 15   // DMQ_XALLOCATOR_MAX_ALLOCATORS

  /** An allocator object and the block size it serves. */
  datatype Bucket = Bucket(id: nat, blockSize: nat)

  /** The table slots hold exactly these buckets, without a gap, and then nothing. */
  ghost predicate Dense(slots: seq<Option<Bucket>>, buckets: seq<Bucket>) {
    && |slots| == MAX_ALLOCATORS && |buckets| <= MAX_ALLOCATORS
    && (forall i | 0 <= i < |buckets| :: slots[i] == Some(buckets[i]))
    && (forall i | |buckets| <= i < |slots| :: slots[i] == None)
  }

  ghost predicate OneEach(buckets: seq<Bucket>) {
    forall i, j | 0 <= i < j < |buckets| :: buckets[i].blockSize != buckets[j].blockSize
      && buckets[i].id != buckets[j].id
  }

  predicate Serves(buckets: seq<Bucket>, size: nat) {
    exists b :: b in buckets && b.blockSize == size
  }

  class Table {
    var slots: seq<Option<Bucket>>
    ghost var buckets: seq<Bucket>

    ghost predicate Valid()
      reads this
    {
      Dense(slots, buckets) && OneEach(buckets)
    }

    constructor ()
      ensures Valid() && buckets == []
    {
      slots := seq(MAX_ALLOCATORS, i => None);
      buckets := [];
    }

    /** `find_allocator`. */
    method Find(size: nat) returns (r: Option<Bucket>)
      requires Valid()
      ensures r == Search(buckets, size)
    {
      var i := 0;
      while i < MAX_ALLOCATORS
        invariant i <= |buckets|
        invariant forall j | 0 <= j < i :: buckets[j].blockSize != size
      {
        if slots[i].None? {
          break;
        }
        if slots[i].value.blockSize == size {
          FoundFirst(buckets, size, i);
          return slots[i];
        }
        i := i + 1;
      }
      FoundFirst(buckets, size, |buckets|);
      r := None;
    }

    /** `xallocator_get_allocator` on one thread: look up, construct, look up again, insert. */
    method GetAllocator(size: nat, id: nat) returns (r: Option<Bucket>)
      requires Valid() && forall b | b in buckets :: b.id != id
      modifies this
      ensures Valid()
      ensures Alone(World(old(buckets), id, [Looking(size)])).buckets == buckets
      ensures Alone(World(old(buckets), id, [Looking(size)])).calls
           == [if r.Some? then Got(size, r.value) else Failed(size)]
    {
      r := Find(size);
      if r.Some? {
        return;
      }
      var own := Bucket(id, size);
      r := Find(size);
      var inserted := Insert(own);
      r := if inserted then Some(own) else None;
    }

    /** `insert_allocator`: the first empty slot is taken. */
    method Insert(b: Bucket) returns (inserted: bool)
      requires Valid() && !Serves(buckets, b.blockSize) && forall c | c in buckets :: c.id != b.id
      modifies this
      ensures Valid() && inserted == (old(|buckets|) < MAX_ALLOCATORS)
      ensures buckets == if inserted then old(buckets) + [b] else old(buckets)
    {
      var i := 0;
      while i < MAX_ALLOCATORS
        invariant i <= |buckets| && slots == old(slots) && buckets == old(buckets)
      {
        if slots[i].None? {
          slots := slots[i := Some(b)];
          buckets := buckets + [b];
          return true;
        }
        i := i + 1;
      }
      inserted := false;
    }
  }

  /** Where a thread that wants a bucket of `size` stands. */
  datatype Call =
    | Looking(size: nat)
    | Constructing(size: nat)
    | Rechecking(own: Bucket)
    | Got(size: nat, b: Bucket)
    | Failed(size: nat)          // the table was full

  datatype World = World(buckets: seq<Bucket>, next: nat, calls: seq<Call>)

  const START := World([], 0, [])

  datatype Event = Ask(size: nat) | Advance(i: nat)

  /** The bucket a search finds. */
  function Search(buckets: seq<Bucket>, size: nat): (r: Option<Bucket>)
    ensures r.Some? ==> r.value in buckets && r.value.blockSize == size
    ensures r.None? ==> !Serves(buckets, size)
  {
    if buckets == [] then None
    else if buckets[0].blockSize == size then Some(buckets[0])
    else Search(buckets[1..], size)
  }

  /** The first `i` buckets serve another size: the search ends at the next one, or at none. */
  lemma {:induction false} FoundFirst(buckets: seq<Bucket>, size: nat, i: nat)
    requires i <= |buckets| && (forall j | 0 <= j < i :: buckets[j].blockSize != size)
    requires i < |buckets| ==> buckets[i].blockSize == size
    ensures Search(buckets, size) == if i < |buckets| then Some(buckets[i]) else None
  {
    if i > 0 {
      FoundFirst(buckets[1..], size, i - 1);
    }
  }

  /** One critical section, or the construction between two of them, of `xallocator_get_allocator`. */
  function Moved(w: World, i: nat): World
    requires i < |w.calls|
  {
    match w.calls[i]
    case Looking(size) =>
      var found := Search(w.buckets, size);
      w.(calls := w.calls[i := if found.Some? then Got(size, found.value) else Constructing(size)])
    case Constructing(size) =>
      w.(next := w.next + 1, calls := w.calls[i := Rechecking(Bucket(w.next, size))])
    case Rechecking(own) =>
      var found := Search(w.buckets, own.blockSize);
      if found.Some? then w.(calls := w.calls[i := Got(own.blockSize, found.value)])
      else if |w.buckets| < MAX_ALLOCATORS then
        w.(buckets := w.buckets + [own], calls := w.calls[i := Got(own.blockSize, own)])
      else w.(calls := w.calls[i := Failed(own.blockSize)])
    case _ => w
  }

  function Step(w: World, e: Event): World {
    match e
    case Ask(size) => w.(calls := w.calls + [Looking(size)])
    case Advance(i) => if i < |w.calls| then Moved(w, i) else w
  }

  /** One thread's three steps in a row. */
  function Alone(w: World): World
    requires |w.calls| == 1
  {
    Moved(Moved(Moved(w, 0), 0), 0)
  }

  function Exec(w: World, events: seq<Event>): World {
    if events == [] then w else Step(Exec(w, events[..|events| - 1]), events[|events| - 1])
  }

  ghost predicate CallSound(c: Call, buckets: seq<Bucket>, next: nat) {
    match c
    case Rechecking(own) => own.id < next && forall b | b in buckets :: b.id != own.id
    case Got(size, b) => b in buckets && b.blockSize == size
    case Failed(size) => |buckets| == MAX_ALLOCATORS && !Serves(buckets, size)
    case _ => true
  }

  /** Allocators under construction are all different objects. */
  ghost predicate OwnApart(calls: seq<Call>) {
    forall i, j | 0 <= i < j < |calls| && calls[i].Rechecking? && calls[j].Rechecking? ::
      calls[i].own.id != calls[j].own.id
  }

  ghost predicate Sound(w: World) {
    && OneEach(w.buckets) && |w.buckets| <= MAX_ALLOCATORS && (forall b | b in w.buckets :: b.id < w.next)
    && (forall i | 0 <= i < |w.calls| :: CallSound(w.calls[i], w.buckets, w.next))
    && OwnApart(w.calls)
  }

  lemma StepSound(w: World, e: Event)
    requires Sound(w)
    ensures Sound(Step(w, e)) && w.buckets <= Step(w, e).buckets
  {
  }

  lemma {:induction false} RunsSound(events: seq<Event>)
    ensures Sound(Exec(START, events))
  {
    if events != [] {
      RunsSound(events[..|events| - 1]);
      StepSound(Exec(START, events[..|events| - 1]), events[|events| - 1]);
    }
  }

  /** Under every interleaving, all threads that asked for one block size got the same allocator,
      however many of them constructed one; and it is in the table. */
  lemma OneAllocatorPerSize(events: seq<Event>, i: nat, j: nat)
    requires i < |Exec(START, events).calls| && j < |Exec(START, events).calls|
    requires Exec(START, events).calls[i].Got? && Exec(START, events).calls[j].Got?
    requires Exec(START, events).calls[i].size == Exec(START, events).calls[j].size
    ensures Exec(START, events).calls[i].b == Exec(START, events).calls[j].b
    ensures Exec(START, events).calls[i].b in Exec(START, events).buckets
  {
    RunsSound(events);
    var w := Exec(START, events);
    assert CallSound(w.calls[i], w.buckets, w.next) && CallSound(w.calls[j], w.buckets, w.next);
    var k :| 0 <= k < |w.buckets| && w.buckets[k] == w.calls[i].b;
    var l :| 0 <= l < |w.buckets| && w.buckets[l] == w.calls[j].b;
  }

  /** A block size names an allocator: in every run the table has one bucket a size, one size a bucket. */
  lemma SizeNamesAllocator(events: seq<Event>, b: Bucket, c: Bucket)
    requires b in Exec(START, events).buckets && c in Exec(START, events).buckets
    ensures b.blockSize == c.blockSize <==> b == c
    ensures b.id == c.id <==> b == c
    ensures Search(Exec(START, events).buckets, b.blockSize) == Some(b)
  {
    RunsSound(events);
    var buckets := Exec(START, events).buckets;
    var k :| 0 <= k < |buckets| && buckets[k] == b;
    var l :| 0 <= l < |buckets| && buckets[l] == c;
    FoundFirst(buckets, b.blockSize, k);
  }

  /** A request for a size that is served already gets its bucket in its first step, and no allocator is
      constructed for it. */
  lemma ServedAtOnce(events: seq<Event>, i: nat)
    requires i < |Exec(START, events).calls| && Exec(START, events).calls[i].Looking?
    requires Serves(Exec(START, events).buckets, Exec(START, events).calls[i].size)
    ensures var w, w' := Exec(START, events), Exec(START, events + [Advance(i)]);
            && w'.buckets == w.buckets && w'.next == w.next && i < |w'.calls|
            && w'.calls[i].Got? && w'.calls[i].size == w.calls[i].size && w'.calls[i].b in w.buckets
  {
    assert (events + [Advance(i)])[..|events|] == events;
  }

  /** Buckets are never replaced or moved: a later table extends an earlier one. */
  lemma {:induction false} TableOnlyGrows(w: World, events: seq<Event>)
    requires Sound(w)
    ensures Sound(Exec(w, events)) && w.buckets <= Exec(w, events).buckets
  {
    if events != [] {
      TableOnlyGrows(w, events[..|events| - 1]);
      StepSound(Exec(w, events[..|events| - 1]), events[|events| - 1]);
    }
  }

  /** A request fails only when the table is full of buckets of other sizes. */
  lemma FailsOnlyWhenFull(events: seq<Event>, i: nat)
    requires i < |Exec(START, events).calls| && Exec(START, events).calls[i].Failed?
    ensures |Exec(START, events).buckets| == MAX_ALLOCATORS
    ensures OneEach(Exec(START, events).buckets)
            && !Serves(Exec(START, events).buckets, Exec(START, events).calls[i].size)
  {
    RunsSound(events);
    assert CallSound(Exec(START, events).calls[i], Exec(START, events).buckets, Exec(START, events).next);
  }
}
