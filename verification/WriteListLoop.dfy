/** The loop that builds the id list: its invariant, and one lemma per branch. */
module WriteListLoop {
  import opened Bytes
  import opened Storage
  import opened Lists
  import opened WriteState
  import opened WriteCalm
  import opened WriteCommit
  import opened WriteList
  import opened BlockIdList

  datatype Cursor = Cursor(
    i: nat, index: nat, ids: seq<Id>, restage: seq<Id>, fillers: map<nat, Id>,
    zeroStaged: bool, zeroId: Id, limit: nat)

  ghost predicate RestageOf(s: State, c: Cursor) {
    && (forall k: nat :: k in c.fillers <==> k < c.index && Stale(s, k))
    && (forall i | 0 <= i < |FillerKeys(c.fillers, c.index)| :: FillerKeys(c.fillers, c.index)[i] in s.blockList)
    && c.restage == IdsAt(s.blockList, FillerKeys(c.fillers, c.index))
  }

  ghost predicate Position(s: State, t: State, c: Cursor)
    requires Known(t.store, c.ids)
  {
    var o, bytes := Offsets(s), ConcatIds(t.store, c.ids);
    && c.i <= |o|
    && (forall j | 0 <= j < c.i :: o[j] < c.index)
    && (c.i < |o| ==> c.index <= o[c.i])
    && (|o| == 0 ==> c.index == 0)
    && (c.i < |o| || |o| == 0 ==> Ends(|bytes|, c.index * s.bs, c.index > c.limit))
    && bytes == Spread(s, c.index)
    && (c.i == |o| > 0 ==> Ends(|bytes|, s.size, c.index > c.limit) && s.size <= c.index * s.bs)
  }

  ghost predicate ZeroReady(s: State, t: State, c: Cursor) {
    && (c.zeroStaged ==> s.store.nextId <= c.zeroId < t.store.nextId && Find(t.store, c.zeroId) == Found(Zeros(s.bs)))
    && (!c.zeroStaged ==> t.blockList == s.blockList)
  }

  ghost predicate LoopInv(s: State, t: State, c: Cursor) {
    && ListInv(s, t, c.index, c.ids, c.fillers, c.zeroId, c.limit)
    && Position(s, t, c)
    && RestageOf(s, c)
    && ZeroReady(s, t, c)
  }

  lemma LoopInit(s: State, x: nat)
    requires Settled(s) && IsLimit(s, x)
    ensures LoopInv(s, s, Cursor(0, 0, [], [], map[], false, 0, x))
  {
    ListEmpty(s, 0, x);
    assert FillerKeys(map[], 0) == [];
  }

  /** Staging a block in between. */
  lemma LoopStage(s: State, t: State, c: Cursor, store: Store)
    requires Settled(s) && LoopInv(s, t, c) && StoreGrew(t.store, store)
    ensures LoopInv(s, t.(store := store), c)
  {
    ListStage(s, t, c.index, c.ids, c.fillers, c.zeroId, c.limit, store);
    if c.zeroStaged {
      assert Find(store, c.zeroId) == Find(t.store, c.zeroId);
    }
  }

  lemma RestageSkip(s: State, c: Cursor, d: Cursor)
    requires RestageOf(s, c) && d.index == c.index + 1 && d.fillers == c.fillers && d.restage == c.restage
    requires !Stale(s, c.index)
    ensures RestageOf(s, d)
  {
    assert FillerKeys(d.fillers, d.index) == FillerKeys(c.fillers, c.index);
  }

  lemma RestageAdd(s: State, c: Cursor, d: Cursor, id: Id)
    requires RestageOf(s, c) && Stale(s, c.index) && d.index == c.index + 1
    requires d.fillers == c.fillers[c.index := id] && d.restage == c.restage + [s.blockList[c.index].id]
    ensures RestageOf(s, d)
  {
    SortedBelowFrame(c.fillers.Keys, d.fillers.Keys, c.index);
    assert FillerKeys(d.fillers, d.index) == FillerKeys(c.fillers, c.index) + [c.index];
    assert IdsAt(s.blockList, FillerKeys(c.fillers, c.index)) + [s.blockList[c.index].id]
        == IdsAt(s.blockList, FillerKeys(d.fillers, d.index));
  }

  ghost predicate Increasing(o: seq<nat>) {
    forall i, j | 0 <= i < j < |o| :: o[i] < o[j]
  }

  lemma PositionNext(s: State, t: State, c: Cursor, d: Cursor)
    requires Known(t.store, c.ids) && Known(t.store, d.ids) && Position(s, t, c) && Increasing(Offsets(s))
    requires c.i < |Offsets(s)| && c.index == Offsets(s)[c.i]
    requires d.i == c.i + 1 && d.index == c.index + 1 && d.limit == c.limit
    requires c.i + 1 < |Offsets(s)| ==> Ends(|ConcatIds(t.store, d.ids)|, d.index * s.bs, d.index > d.limit)
    requires c.i + 1 == |Offsets(s)| ==>
               Ends(|ConcatIds(t.store, d.ids)|, s.size, d.index > d.limit) && s.size <= d.index * s.bs
    requires ConcatIds(t.store, d.ids) == Spread(s, d.index)
    ensures Position(s, t, d)
  {
  }

  lemma OffsetsIncreasing(s: State)
    requires Base(s)
    ensures Increasing(Offsets(s))
  {
    OffsetsSorted(s);
  }

  /** What the list gains with the entry at the cursor. */
  lemma EntryLength(s: State, c: Cursor)
    requires Settled(s) && c.i < |Offsets(s)| && c.index == Offsets(s)[c.i]
    ensures c.index in s.blockList && (c.index + 1) * s.bs == c.index * s.bs + s.bs
    ensures 0 < s.blockList[c.index].size <= s.bs
    ensures !Stale(s, c.index) && c.i + 1 < |Offsets(s)| ==> s.blockList[c.index].size == s.bs
    ensures Stale(s, c.index) ==> c.i + 1 < |Offsets(s)|
    ensures c.i + 1 == |Offsets(s)| ==> c.index * s.bs + s.blockList[c.index].size == s.size
  {
    FillerTest(s, c.i);
  }

  /** The entry at the cursor goes into the list as it is. */
  lemma LoopEntry(s: State, t: State, c: Cursor)
    requires Settled(s) && LoopInv(s, t, c) && c.i < |Offsets(s)| && c.index == Offsets(s)[c.i]
    requires !Stale(s, c.index)
    ensures c.index in t.blockList
    ensures LoopInv(s, t, c.(i := c.i + 1, index := c.index + 1, ids := c.ids + [t.blockList[c.index].id]))
  {
    hide ListInv, Settled, Stale, RestageOf, Position, ConcatIds, Known, Spread;
    EntryLength(s, c);
    LoopAt(s, t, c);
    LoopKnown(s, t, c);
    ListEntry(s, t, c.index, c.ids, c.fillers, c.zeroId, c.limit);
    var d := c.(i := c.i + 1, index := c.index + 1, ids := c.ids + [t.blockList[c.index].id]);
    ListKnown(s, t, d);
    EntryPiece(s, c.index, []);
    RestageSkip(s, c, d);
    PositionNext(s, t, c, d);
    assert ZeroReady(s, t, d);
  }

  /** Where the list ends before the entry at the cursor. */
  lemma LoopAt(s: State, t: State, c: Cursor)
    requires Settled(s) && LoopInv(s, t, c) && c.i < |Offsets(s)| && c.index == Offsets(s)[c.i]
    ensures c.index in s.blockList && (!Stale(s, c.index) ==> c.index != c.limit) && Increasing(Offsets(s)) && ZeroReady(s, t, c)
    ensures Known(t.store, c.ids) && Ends(|ConcatIds(t.store, c.ids)|, c.index * s.bs, c.index > c.limit)
    ensures ConcatIds(t.store, c.ids) == Spread(s, c.index)
    ensures c.index !in c.fillers
  {
    OffsetsIncreasing(s);
    OffsetsSorted(s);
    assert EntryOk(s, c.index);
  }

  /** A short entry goes into the list with its filler, and on the restage list. */
  lemma LoopFiller(s: State, t: State, c: Cursor, id: Id, z: bytes)
    requires Settled(s) && LoopInv(s, t, c) && c.i < |Offsets(s)| && c.index == Offsets(s)[c.i]
    requires Stale(s, c.index)
    requires id < t.store.nextId && Find(t.store, id) == Found(z)
    requires |z| == s.bs - s.blockList[c.index].size && forall i | 0 <= i < |z| :: z[i] == 0
    ensures c.index in t.blockList
    ensures LoopInv(s, t, c.(i := c.i + 1, index := c.index + 1,
              ids := c.ids + [t.blockList[c.index].id] + [id],
              restage := c.restage + [t.blockList[c.index].id],
              fillers := c.fillers[c.index := id]))
  {
    hide ListInv, Settled, Stale, RestageOf, Position, ConcatIds, Known, Spread;
    EntryLength(s, c);
    LoopAt(s, t, c);
    LoopKnown(s, t, c);
    ListEntry(s, t, c.index, c.ids, c.fillers, c.zeroId, c.limit);
    var ids := c.ids + [t.blockList[c.index].id];
    var e := c.(index := c.index + 1, ids := ids);
    ListKnown(s, t, e);
    ListFiller(s, t, c.index + 1, ids, c.fillers, c.zeroId, c.limit, id, z);
    var d := c.(i := c.i + 1, index := c.index + 1, ids := ids + [id],
                restage := c.restage + [t.blockList[c.index].id], fillers := c.fillers[c.index := id]);
    ListKnown(s, t, d);
    EntryPiece(s, c.index, z);
    Longer(ConcatIds(t.store, c.ids), Find(s.store, s.blockList[c.index].id).data, z);
    RestageAdd(s, c, d, id);
    PositionNext(s, t, c, d);
    assert ZeroReady(s, t, d);
  }

  /** The list gains what the block brings: the stored bytes and, if the file has
      outgrown the entry, zeros. */
  lemma EntryPiece(s: State, k: nat, z: bytes)
    requires k in s.blockList && 0 < s.blockList[k].size <= s.bs && Find(s.store, s.blockList[k].id).Found?
    requires |z| == (if Stale(s, k) then s.bs - s.blockList[k].size else 0) && forall i | 0 <= i < |z| :: z[i] == 0
    ensures Spread(s, k + 1) == Spread(s, k) + (Find(s.store, s.blockList[k].id).data + z)
    ensures z == [] ==> Spread(s, k + 1) == Spread(s, k) + Find(s.store, s.blockList[k].id).data
  {
    hide Stale, Find;
    SpreadNext(s, k);
    if Stale(s, k) {
      assert z == Zeros(s.bs - s.blockList[k].size);
    }
  }

  lemma HolePiece(s: State, k: nat)
    requires k !in s.blockList
    ensures Spread(s, k + 1) == Spread(s, k) + Zeros(s.bs)
  {
    SpreadNext(s, k);
  }

  lemma Longer(a: bytes, b: bytes, c: bytes)
    ensures a + b + c == a + (b + c)
  {
  }

  lemma PositionZero(s: State, t: State, u: State, c: Cursor, d: Cursor)
    requires Known(t.store, c.ids) && u.store == t.store && Known(t.store, d.ids) && Position(s, t, c)
    requires c.i < |Offsets(s)| && c.index < Offsets(s)[c.i]
    requires d.i == c.i && d.index == c.index + 1 && d.limit == c.limit
    requires Ends(|ConcatIds(t.store, d.ids)|, d.index * s.bs, d.index > d.limit)
    requires ConcatIds(t.store, d.ids) == Spread(s, d.index)
    ensures Position(s, u, d)
  {
  }

  lemma HoleFits(s: State, c: Cursor)
    requires Settled(s) && c.i < |Offsets(s)| && c.index < Offsets(s)[c.i]
    ensures (c.index + 1) * s.bs == c.index * s.bs + s.bs <= s.size && c.index < MAX_BLOCKS
  {
    FillerTest(s, c.i);
    MulLe(c.index + 1, Offsets(s)[c.i], s.bs);
  }

  /** A hole is filled with the zero block. */
  lemma LoopZero(s: State, t: State, c: Cursor)
    requires Settled(s) && LoopInv(s, t, c) && c.i < |Offsets(s)| && c.index < Offsets(s)[c.i] && c.zeroStaged
    ensures LoopInv(s, t.(blockList := t.blockList[c.index := BlockInfo(c.zeroId, false, s.bs)]),
                    c.(index := c.index + 1, ids := c.ids + [c.zeroId]))
  {
    hide ListInv, Settled, Stale, RestageOf, Position, ConcatIds, Known, Offsets, Spread, Ends;
    HoleFits(s, c);
    LoopHole(s, t, c);
    LoopKnown(s, t, c);
    ListZero(s, t, c.index, c.ids, c.fillers, c.zeroId, c.limit);
    var u := t.(blockList := t.blockList[c.index := BlockInfo(c.zeroId, false, s.bs)]);
    var d := c.(index := c.index + 1, ids := c.ids + [c.zeroId]);
    ListKnown(s, u, d);
    HolePiece(s, c.index);
    RestageSkip(s, c, d);
    PositionZero(s, t, u, c, d);
    assert ZeroReady(s, u, d);
  }

  lemma LoopHole(s: State, t: State, c: Cursor)
    requires Settled(s) && LoopInv(s, t, c) && c.i < |Offsets(s)| && c.index < Offsets(s)[c.i]
    ensures c.index !in s.blockList && !Stale(s, c.index)
    ensures Known(t.store, c.ids) && Ends(|ConcatIds(t.store, c.ids)|, c.index * s.bs, c.index > c.limit)
    ensures ConcatIds(t.store, c.ids) == Spread(s, c.index)
  {
    HoleHasNoEntry(s, c.i, c.index);
  }

  lemma LoopKnown(s: State, t: State, c: Cursor)
    requires LoopInv(s, t, c)
    ensures ListInv(s, t, c.index, c.ids, c.fillers, c.zeroId, c.limit) && Known(t.store, c.ids)
    ensures Position(s, t, c) && RestageOf(s, c)
  {
  }

  lemma ListKnown(s: State, u: State, d: Cursor)
    requires ListInv(s, u, d.index, d.ids, d.fillers, d.zeroId, d.limit)
    ensures Known(u.store, d.ids)
  {
  }

  lemma HoleHasNoEntry(s: State, i: nat, index: nat)
    requires Base(s) && i < |Offsets(s)| && index < Offsets(s)[i]
    requires forall j | 0 <= j < i :: Offsets(s)[j] < index
    ensures index !in s.blockList
  {
    OffsetsSorted(s);
    var o := Offsets(s);
    forall j | 0 <= j < |o| ensures o[j] != index {
      assert i < j ==> o[i] < o[j];
    }
  }

  /** The zero block is staged when the first hole shows up. */
  lemma LoopZeroStaged(s: State, t: State, c: Cursor, store: Store, zid: Id)
    requires Settled(s) && LoopInv(s, t, c) && !c.zeroStaged && StoreGrew(t.store, store)
    requires t.store.nextId <= zid < store.nextId && Find(store, zid) == Found(Zeros(s.bs))
    ensures LoopInv(s, t.(store := store), c.(zeroStaged := true, zeroId := zid))
  {
    LoopStage(s, t, c, store);
    ListZeroId(s, t.(store := store), c.index, c.ids, c.fillers, c.zeroId, c.limit, zid);
  }

  lemma LoopStoreOk(s: State, t: State, c: Cursor)
    requires LoopInv(s, t, c)
    ensures IdsBelow(t.store) && t.bs == s.bs
    ensures c.i <= |Offsets(s)| && (c.i < |Offsets(s)| ==> c.index <= Offsets(s)[c.i])
    ensures t == s.(blockList := t.blockList, store := t.store)
  {
  }

  lemma LoopLookup(s: State, t: State, c: Cursor)
    requires Settled(s) && LoopInv(s, t, c) && c.index in s.blockList
    ensures c.index in t.blockList && t.blockList[c.index] == s.blockList[c.index]
  {
    EntryLookup(s, t, c.index, c.zeroId);
  }

  lemma LoopAbandoned(s: State, t: State, c: Cursor)
    requires Settled(s) && LoopInv(s, t, c)
    ensures Settled(t) && Tame(s, t)
  {
    BuildingKeeps(s, t, c.index, c.zeroId);
  }

  lemma LoopDone(s: State, t: State, c: Cursor)
    requires Settled(s) && LoopInv(s, t, c) && c.i == |Offsets(s)|
    ensures Tame(s, t) && ListResult(t, c.ids, c.restage, c.index, c.fillers, c.limit) && KeepsEntries(s, t)
  {
    BuildingKeepsEntries(s, t, c.index, c.zeroId);
    AllSeen(s, c);
    LastOffset(s);
    ListDone(s, t, c.index, c.ids, c.fillers, c.zeroId, c.limit);
    forall k: nat ensures k in c.fillers <==> Stale(t, k) {
      StaleSame(s, t, c, k);
    }
    RestageDone(s, t, c);
  }

  lemma AllSeen(s: State, c: Cursor)
    requires Base(s) && c.i == |Offsets(s)| && forall j | 0 <= j < c.i :: Offsets(s)[j] < c.index
    ensures forall k | k in s.blockList :: k < c.index
  {
    OffsetsSorted(s);
    forall k | k in s.blockList ensures k < c.index {
      var j :| 0 <= j < |Offsets(s)| && Offsets(s)[j] == k;
    }
  }

  lemma RestageDone(s: State, t: State, c: Cursor)
    requires Building(s, t, c.index, c.zeroId) && RestageOf(s, c)
    ensures forall i | 0 <= i < |FillerKeys(c.fillers, c.index)| :: FillerKeys(c.fillers, c.index)[i] in t.blockList
    ensures IdsAt(t.blockList, FillerKeys(c.fillers, c.index)) == c.restage
  {
    forall i | 0 <= i < |FillerKeys(c.fillers, c.index)|
      ensures FillerKeys(c.fillers, c.index)[i] in t.blockList
           && t.blockList[FillerKeys(c.fillers, c.index)[i]] == s.blockList[FillerKeys(c.fillers, c.index)[i]]
    {
      assert EntryBuilt(s, t, c.index, c.zeroId, FillerKeys(c.fillers, c.index)[i]);
    }
  }

  lemma StaleSame(s: State, t: State, c: Cursor, k: nat)
    requires Settled(s) && LoopInv(s, t, c)
    requires forall k | k in s.blockList :: k < c.index
    ensures k in c.fillers <==> Stale(t, k)
  {
    assert EntryBuilt(s, t, c.index, c.zeroId, k) && !DirtyAt(s, k);
  }
}
