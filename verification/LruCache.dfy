/** The block cache of a handle: a list in order of use and a map over the same
    blocks, with a running total of their sizes. */
module LruCache {
  import opened Bytes
  import opened Lists

  datatype Block = Block(start: int, end: int, dirty: bool)

  function Size(b: Block): int {
    b.end - b.start
  }

  function Occupancy(l: seq<Ptr>, elements: map<Ptr, Block>): int {
    if l == [] then 0
    else (if l[0] in elements then Size(elements[l[0]]) else 0) + Occupancy(l[1..], elements)
  }

  lemma {:induction false} OccupancyRemove(l: seq<Ptr>, elements: map<Ptr, Block>, k: Ptr)
    requires NoDup(l) && k in elements
    ensures Occupancy(Remove(l, k), elements - {k}) == Occupancy(l, elements) - if k in l then Size(elements[k]) else 0
  {
    if l != [] {
      OccupancyRemove(l[1..], elements, k);
      assert l[0] !in l[1..];
      assert Remove(l, k) == if l[0] == k then Remove(l[1..], k) else [l[0]] + Remove(l[1..], k);
    }
  }

  lemma {:induction false} OccupancyUpdate(l: seq<Ptr>, elements: map<Ptr, Block>, k: Ptr, b: Block)
    requires NoDup(l) && k in elements
    ensures Occupancy(l, elements[k := b]) == Occupancy(l, elements) + if k in l then Size(b) - Size(elements[k]) else 0
  {
    if l != [] {
      OccupancyUpdate(l[1..], elements, k, b);
      assert l[0] !in l[1..];
    }
  }

  lemma {:induction false} OccupancyFrame(l: seq<Ptr>, a: map<Ptr, Block>, b: map<Ptr, Block>)
    requires forall k | k in l :: k in a && k in b && a[k] == b[k]
    ensures Occupancy(l, a) == Occupancy(l, b)
  {
    if l != [] {
      OccupancyFrame(l[1..], a, b);
    }
  }

  lemma {:induction false} OccupancyMove(l: seq<Ptr>, elements: map<Ptr, Block>, k: Ptr)
    requires NoDup(l) && k in l && k in elements
    ensures Occupancy([k] + Remove(l, k), elements) == Occupancy(l, elements)
  {
    assert ([k] + Remove(l, k))[1..] == Remove(l, k);
    if l[0] == k {
      assert l[0] !in l[1..];
      RemoveProps(l[1..], k);
    } else {
      OccupancyMove(l[1..], elements, k);
      assert ([k] + Remove(l[1..], k))[1..] == Remove(l[1..], k);
      assert ([l[0]] + Remove(l[1..], k))[1..] == Remove(l[1..], k);
    }
  }

  lemma {:induction false} OccupancyUniform(l: seq<Ptr>, elements: map<Ptr, Block>, size: nat)
    requires forall k | k in l :: k in elements && Size(elements[k]) == size
    ensures Occupancy(l, elements) == |l| * size
  {
    if l != [] {
      OccupancyUniform(l[1..], elements, size);
      assert |l| * size == |l[1..]| * size + size;
    }
  }

  datatype State = State(capacity: int, list: seq<Ptr>, elements: map<Ptr, Block>, occupied: int)

  /** List and map hold the same keys, and the total is right. */
  ghost predicate Valid(s: State) {
    && NoDup(s.list)
    && (forall k :: k in s.list <==> k in s.elements)
    && s.occupied == Occupancy(s.list, s.elements)
  }

  /** The clean block that was used least recently: all behind it are dirty. */
  ghost predicate Victim(s: State, i: nat) {
    && i < |s.list| && s.list[i] in s.elements && !s.elements[s.list[i]].dirty
    && forall j | i < j < |s.list| :: s.list[j] in s.elements && s.elements[s.list[j]].dirty
  }

  function Removed(s: State, k: Ptr): State
    requires k in s.elements
  {
    s.(list := Remove(s.list, k), elements := s.elements - {k}, occupied := s.occupied - Size(s.elements[k]))
  }

  function Added(s: State, k: Ptr, b: Block): State {
    s.(list := [k] + s.list, elements := s.elements[k := b], occupied := s.occupied + Size(b))
  }

  lemma RemovedValid(s: State, k: Ptr)
    requires Valid(s) && k in s.elements
    ensures Valid(Removed(s, k))
  {
    RemoveProps(s.list, k);
    OccupancyRemove(s.list, s.elements, k);
  }

  lemma AddedValid(s: State, k: Ptr, b: Block)
    requires Valid(s) && k !in s.elements
    ensures Valid(Added(s, k, b))
  {
    OccupancyFrame(s.list, s.elements, s.elements[k := b]);
    assert ([k] + s.list)[1..] == s.list;
  }

  /** What inserting a new key does: evict when full, fail when nothing can be evicted. */
  ghost predicate Puts(s: State, t: State, k: Ptr, b: Block, ok: bool) {
    if s.occupied < s.capacity then ok && t == Added(s, k, b)
    else if exists i: nat :: Victim(s, i) then ok && exists i: nat {:trigger Victim(s, i)} :: Victim(s, i) && t == Added(Removed(s, s.list[i]), k, b)
    else !ok && t == s
  }

  /** Less than one block over the capacity. */
  ghost predicate Within(s: State, size: nat) {
    && (forall k | k in s.elements :: Size(s.elements[k]) == size)
    && s.occupied < s.capacity + size
  }

  /** A put of a block of that size keeps it so. */
  lemma PutsWithin(s: State, t: State, k: Ptr, b: Block, ok: bool, size: nat)
    requires Puts(s, t, k, b, ok) && Within(s, size) && Size(b) == size && k !in s.elements
    ensures Within(t, size)
  {
  }

  lemma UsedIsListed(s: State)
    requires Valid(s)
    ensures s.occupied > 0 ==> s.list != []
  {
  }

  /** With blocks of different sizes it need not: one eviction makes room for
      any block, however large. */
  lemma PutsBeyond(capacity: nat, large: nat) returns (s: State, t: State)
    requires 0 < capacity < large
    ensures Valid(s) && s.occupied == s.capacity == capacity
    ensures Puts(s, t, 1, Block(0, large, false), true) && t.occupied == large
  {
    s := State(capacity, [0], map[0 := Block(0, capacity, false)], capacity);
    t := Added(Removed(s, 0), 1, Block(0, large, false));
    assert Victim(s, 0);
  }

  datatype Op = Use(k: Ptr, b: Block) | Mark(k: Ptr, dirty: bool) | Drop(k: Ptr)

  class LRUCache {
    const capacity: int
    var list: seq<Ptr>
    var elements: map<Ptr, Block>
    var occupied: int

    function View(): State
      reads this
    {
      State(capacity, list, elements, occupied)
    }

    constructor (capacity: int)
      ensures Valid(View()) && list == [] && this.capacity == capacity
      ensures capacity > 0 ==> forall size: nat :: Within(View(), size)
    {
      this.capacity := capacity;
      list, elements, occupied := [], map[], 0;
    }

    /** Look a block up and make it the most recently used one. */
    method Get(k: Ptr) returns (found: bool, b: Block)
      requires Valid(View())
      modifies this`list
      ensures Valid(View())
      ensures found <==> k in elements
      ensures found ==> b == elements[k] && list == [k] + Remove(old(list), k)
      ensures !found ==> list == old(list)
      ensures forall size: nat :: Within(old(View()), size) ==> Within(View(), size)
    {
      found, b := k in elements, Block(0, 0, false);
      if found {
        b := elements[k];
        RemoveProps(list, k);
        OccupancyMove(list, elements, k);
        list := [k] + Remove(list, k);
      }
    }

    /** Move the end of a cached block. */
    method Resize(k: Ptr, end: int) returns (ok: bool)
      requires Valid(View())
      modifies this`elements, this`occupied
      ensures Valid(View())
      ensures ok <==> k in old(elements)
      ensures elements == if ok then old(elements)[k := old(elements)[k].(end := end)] else old(elements)
    {
      ok := k in elements;
      if ok {
        var b := elements[k];
        OccupancyUpdate(list, elements, k, b.(end := end));
        occupied := occupied + (end - b.end);
        elements := elements[k := b.(end := end)];
      }
    }

    /** The owner of a block changes its dirty mark. */
    method SetDirty(k: Ptr, dirty: bool)
      requires Valid(View()) && k in elements
      modifies this`elements
      ensures Valid(View()) && elements == old(elements)[k := old(elements)[k].(dirty := dirty)]
      ensures forall size: nat :: Within(old(View()), size) ==> Within(View(), size)
    {
      OccupancyUpdate(list, elements, k, elements[k].(dirty := dirty));
      elements := elements[k := elements[k].(dirty := dirty)];
    }

    method RemoveKey(k: Ptr)
      requires Valid(View())
      modifies this`list, this`elements, this`occupied
      ensures Valid(View())
      ensures View() == if k in old(elements) then Removed(old(View()), k) else old(View())
      ensures forall size: nat :: Within(old(View()), size) ==> Within(View(), size)
    {
      if k in elements {
        RemovedValid(View(), k);
        occupied := occupied - Size(elements[k]);
        elements := elements - {k};
        list := Remove(list, k);
      }
    }

    /** Remove the least recently used clean block. */
    method Evict() returns (evicted: bool)
      requires Valid(View()) && list != []
      modifies this`list, this`elements, this`occupied
      ensures Valid(View())
      ensures evicted <==> exists i: nat :: Victim(old(View()), i)
      ensures evicted ==> exists i: nat {:trigger Victim(old(View()), i)} :: Victim(old(View()), i) && View() == Removed(old(View()), old(list)[i])
      ensures !evicted ==> View() == old(View())
    {
      ghost var s := View();
      var node := |list| - 1;
      for i := 0 to |list|
        invariant 0 <= node < |list| && node == |list| - 1 - i && View() == s
        invariant forall j | node < j < |list| :: elements[list[j]].dirty
      {
        if !elements[list[node]].dirty {
          assert Victim(s, node);
          RemoveKey(list[node]);
          return true;
        }
        if node == 0 {
          return false;
        }
        node := node - 1;
      }
      evicted := false;
    }

    /** Insert a block under a new key, evicting one block when the cache is full. */
    method Put(k: Ptr, b: Block) returns (ok: bool)
      requires Valid(View()) && k !in elements && capacity > 0
      modifies this`list, this`elements, this`occupied
      ensures Valid(View()) && Puts(old(View()), View(), k, b, ok)
      ensures forall size: nat :: Within(old(View()), size) && Size(b) == size ==> Within(View(), size)
    {
      hide Valid, Within, Occupancy;
      ghost var s := View();
      UsedIsListed(s);
      if occupied >= capacity {
        var evicted := Evict();
        if !evicted {
          return false;
        }
      }
      AddedValid(View(), k, b);
      list := [k] + list;
      occupied := occupied + Size(b);
      elements := elements[k := b];
      ok := true;
      forall size: nat | Within(s, size) && Size(b) == size ensures Within(View(), size) {
        PutsWithin(s, View(), k, b, ok, size);
      }
    }

    /** Any sequence of uses with blocks of one size: a block is put only after it
        was looked up in vain, marks come and go, and blocks are removed. The cache
        never holds as much as one block over its capacity. */
    method Run(ops: seq<Op>, size: nat)
      requires Valid(View()) && Within(View(), size) && capacity > 0
      requires forall i | 0 <= i < |ops| && ops[i].Use? :: Size(ops[i].b) == size
      modifies this`list, this`elements, this`occupied
      ensures Valid(View()) && Within(View(), size)
    {
      hide Valid, Within, Puts, Size;
      for i := 0 to |ops|
        invariant Valid(View()) && Within(View(), size)
      {
        match ops[i] {
          case Use(k, b) =>
            var found, _ := Get(k);
            if !found {
              var _ := Put(k, b);
            }
          case Mark(k, dirty) =>
            if k in elements {
              SetDirty(k, dirty);
            }
          case Drop(k) =>
            RemoveKey(k);
        }
      }
    }
  }
}
