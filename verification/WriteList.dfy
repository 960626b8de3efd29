/** Building the id list step by step: what holds after `index` entries. */
module WriteList {
  import opened Bytes
  import opened Storage
  import opened Lists
  import opened WriteState
  import opened WriteCalm
  import opened WriteCommit
  import opened BlockIdList

  predicate HasBelow(m: map<nat, BlockInfo>, n: nat) {
    forall k | 0 <= k < n :: k in m
  }

  function EntryIds(m: map<nat, BlockInfo>, n: nat): (r: seq<Id>)
    requires HasBelow(m, n)
    ensures |r| == n
  {
    seq(n, k requires 0 <= k < n => m[k].id)
  }

  /** A length, or more than it once an entry has been listed that brings along
      more bytes than were recorded. */
  predicate Ends(length: nat, at: int, over: bool) {
    if over then length > at else length == at
  }

  ghost predicate ListInv(s: State, t: State, n: nat, ids: seq<Id>, fillers: map<nat, Id>, zid: Id, x: nat) {
    && Building(s, t, n, zid)
    && Known(t.store, ids)
    && IsLimit(s, x) && Laid(s, ConcatIds(t.store, ids), Upto(n, x))
    && HasBelow(t.blockList, n)
    && ids == Interleave(EntryIds(t.blockList, n), fillers, n)
    && (forall k | k in fillers :: k < n)
    && (forall i {:trigger ids[i]} | 0 <= i < |ids| :: ids[i] < t.store.nextId)
  }

  lemma ListEmpty(s: State, zid: Id, x: nat)
    requires Settled(s) && IsLimit(s, x)
    ensures ListInv(s, s, 0, [], map[], zid, x) && ConcatIds(s.store, []) == []
  {
    forall k: nat ensures EntryBuilt(s, s, 0, zid, k) {
    }
  }

  /** Staging one more block under the next id. */
  function StageNext(st: Store, data: bytes): Store {
    Stage(st.(nextId := st.nextId + 1), st.nextId, data)
  }

  lemma StageNextGrows(st: Store, data: bytes)
    requires IdsBelow(st)
    ensures StoreGrew(st, StageNext(st, data))
    ensures Find(StageNext(st, data), st.nextId) == Found(data)
  {
  }

  lemma StoreGrewTrans(a: Store, b: Store, c: Store)
    requires StoreGrew(a, b) && StoreGrew(b, c)
    ensures StoreGrew(a, c)
  {
    forall id: Id | id < a.nextId ensures Find(c, id) == Find(a, id) && (id in c.staged <==> id in a.staged) {
      assert Find(b, id) == Find(a, id);
    }
  }

  lemma ListStage(s: State, t: State, n: nat, ids: seq<Id>, fillers: map<nat, Id>, zid: Id, x: nat, store: Store)
    requires Settled(s) && ListInv(s, t, n, ids, fillers, zid, x) && StoreGrew(t.store, store)
    ensures ListInv(s, t.(store := store), n, ids, fillers, zid, x)
    ensures ConcatIds(store, ids) == ConcatIds(t.store, ids)
  {
    var u := t.(store := store);
    StoreGrewTrans(s.store, t.store, store);
    ConcatIdsFrame(t.store, store, ids);
    forall k: nat ensures EntryBuilt(s, u, n, zid, k) {
      assert EntryBuilt(s, t, n, zid, k);
    }
  }

  /** Another zero id may be chosen as long as no hole has been filled yet. */
  lemma ListZeroId(s: State, t: State, n: nat, ids: seq<Id>, fillers: map<nat, Id>, zid: Id, x: nat, zid': Id)
    requires ListInv(s, t, n, ids, fillers, zid, x) && t.blockList == s.blockList
    ensures ListInv(s, t, n, ids, fillers, zid', x)
  {
    forall k: nat ensures EntryBuilt(s, t, n, zid', k) {
      assert EntryBuilt(s, t, n, zid, k);
    }
  }

  lemma ListBytes(s: State, t: State, n: nat, ids: seq<Id>, id: Id, d: bytes, x: nat)
    requires Known(t.store, ids) && Laid(s, ConcatIds(t.store, ids), Upto(n, x))
    requires Ends(|ConcatIds(t.store, ids)|, n * s.bs, n > x)
    requires Find(t.store, id) == Found(d) && |d| <= s.bs && Resize(d, s.bs) == StoredBlk(s, n)
    ensures Known(t.store, ids + [id])
    ensures Laid(s, ConcatIds(t.store, ids + [id]), Upto(n + 1, x))
    ensures ConcatIds(t.store, ids + [id]) == ConcatIds(t.store, ids) + d
  {
    ConcatIdsSnoc(t.store, ids, id);
    if n <= x {
      LaidStep(s, ConcatIds(t.store, ids), d, n);
    } else {
      MulLe(x + 1, n, s.bs);
      LaidLonger(s, ConcatIds(t.store, ids), d, x + 1);
    }
  }

  /** What comes behind does not move the blocks that are laid out. */
  lemma LaidLonger(s: State, c: bytes, d: bytes, n: nat)
    requires Laid(s, c, n) && n * s.bs <= |c|
    ensures Laid(s, c + d, n)
  {
    forall k: nat | k < n ensures LaidAt(s, c + d, k) {
      assert LaidAt(s, c, k);
      MulLe(k + 1, n, s.bs);
      assert (k + 1) * s.bs == k * s.bs + s.bs;
      SliceAppend(c, d, k, s.bs);
    }
  }

  lemma ListSnoc(m: map<nat, BlockInfo>, m': map<nat, BlockInfo>, fillers: map<nat, Id>, n: nat)
    requires HasBelow(m, n) && HasBelow(m', n + 1)
    requires forall k | 0 <= k < n :: m'[k] == m[k]
    requires forall k | k in fillers :: k < n
    ensures Interleave(EntryIds(m', n + 1), fillers, n + 1) == Interleave(EntryIds(m, n), fillers, n) + [m'[n].id]
  {
    InterleaveFrame(EntryIds(m, n), EntryIds(m', n + 1), fillers, fillers, n);
  }

  lemma BuildingEntry(s: State, t: State, n: nat, m: nat, zid: Id)
    requires Building(s, t, n, zid) && n in s.blockList && m == n + 1
    ensures Building(s, t, m, zid)
  {
    forall k: nat ensures EntryBuilt(s, t, m, zid, k) {
      assert EntryBuilt(s, t, n, zid, k);
    }
  }

  /** Append the entry of index `n`, whichever way it came into the map. */
  lemma ListAppend(s: State, t: State, u: State, n: nat, ids: seq<Id>, fillers: map<nat, Id>, zid: Id, x: nat)
    requires ListInv(s, t, n, ids, fillers, zid, x) && u == t.(blockList := u.blockList)
    requires Building(s, u, n + 1, zid) && HasBelow(u.blockList, n + 1)
    requires forall k | 0 <= k < n :: u.blockList[k] == t.blockList[k]
    requires Ends(|ConcatIds(t.store, ids)|, n * s.bs, n > x)
    requires var f := Find(t.store, u.blockList[n].id);
             && f.Found? && u.blockList[n].size <= |f.data| <= s.bs && Resize(f.data, s.bs) == StoredBlk(s, n)
             && (n <= x ==> Ends(|f.data|, u.blockList[n].size, n == x))
    requires u.blockList[n].id < t.store.nextId
    ensures ListInv(s, u, n + 1, ids + [u.blockList[n].id], fillers, zid, x)
    ensures Ends(|ConcatIds(t.store, ids + [u.blockList[n].id])|, n * s.bs + u.blockList[n].size, n >= x)
    ensures ConcatIds(t.store, ids + [u.blockList[n].id]) == ConcatIds(t.store, ids) + Find(t.store, u.blockList[n].id).data
  {
    ListBytes(s, t, n, ids, u.blockList[n].id, Find(t.store, u.blockList[n].id).data, x);
    ListSnoc(t.blockList, u.blockList, fillers, n);
  }

  /** The next index has an entry of its own. */
  lemma ListEntry(s: State, t: State, n: nat, ids: seq<Id>, fillers: map<nat, Id>, zid: Id, x: nat)
    requires Settled(s) && ListInv(s, t, n, ids, fillers, zid, x) && n in s.blockList
    requires Ends(|ConcatIds(t.store, ids)|, n * s.bs, n > x)
    ensures n in t.blockList && t.blockList[n] == s.blockList[n]
    ensures ListInv(s, t, n + 1, ids + [t.blockList[n].id], fillers, zid, x)
    ensures Ends(|ConcatIds(t.store, ids + [t.blockList[n].id])|, n * s.bs + s.blockList[n].size, n >= x)
    ensures Find(s.store, s.blockList[n].id).Found?
    ensures ConcatIds(t.store, ids + [t.blockList[n].id]) == ConcatIds(t.store, ids) + Find(s.store, s.blockList[n].id).data
  {
    hide ConcatIds, ListInv, Late, IsLimit, EntryOk, Base, InStore, InPlace, Building, HasBelow, Find, StoredBlk;
    ListParts(s, t, n, ids, fillers, zid, x);
    EntryLookup(s, t, n, zid);
    InsideList(s, n);
    LimitTells(s, x, n);
    BelowOneMore(t.blockList, n);
    BuildingEntry(s, t, n, n + 1, zid);
    ListAppend(s, t, t, n, ids, fillers, zid, x);
  }

  lemma ListParts(s: State, t: State, n: nat, ids: seq<Id>, fillers: map<nat, Id>, zid: Id, x: nat)
    requires ListInv(s, t, n, ids, fillers, zid, x)
    ensures Building(s, t, n, zid) && Known(t.store, ids) && IsLimit(s, x) && HasBelow(t.blockList, n)
  {
  }

  lemma InsideList(s: State, n: nat)
    requires Settled(s) && n in s.blockList
    ensures n < MAX_BLOCKS
  {
    assert EntryOk(s, n);
  }

  /** Up to the limit an entry is late exactly if it is the limit. */
  lemma LimitTells(s: State, x: nat, n: nat)
    requires IsLimit(s, x) && n < MAX_BLOCKS
    ensures n <= x ==> (Late(s, n) <==> n == x)
  {
  }

  lemma BelowOneMore(m: map<nat, BlockInfo>, n: nat)
    requires HasBelow(m, n) && n in m
    ensures HasBelow(m, n + 1)
  {
  }

  lemma EntryLookup(s: State, t: State, n: nat, zid: Id)
    requires Settled(s) && Building(s, t, n, zid) && n in s.blockList
    ensures n in t.blockList && t.blockList[n] == s.blockList[n]
    ensures var f := Find(t.store, s.blockList[n].id);
            && f == Find(s.store, s.blockList[n].id)
            && f.Found? && s.blockList[n].size <= |f.data| <= s.bs && Resize(f.data, s.bs) == StoredBlk(s, n)
            && Ends(|f.data|, s.blockList[n].size, Late(s, n))
    ensures s.blockList[n].id < t.store.nextId
  {
    assert EntryBuilt(s, t, n, zid, n) && EntryOk(s, n) && !DirtyAt(s, n);
  }

  lemma FillerBytes(s: State, c: bytes, z: bytes, n: nat)
    requires Laid(s, c, n)
    requires forall i | 0 <= i < |z| :: z[i] == 0
    ensures Laid(s, c + z, n)
  {
    forall k: nat | k < n ensures LaidAt(s, c + z, k) {
      assert LaidAt(s, c, k);
      forall j | 0 <= j < s.bs ensures Slice(c + z, k, s.bs)[j] == Slice(c, k, s.bs)[j] {
      }
    }
  }

  lemma InterleaveFiller(e: seq<Id>, fillers: map<nat, Id>, n: nat, id: Id)
    requires 0 < n <= |e| && n - 1 !in fillers
    ensures Interleave(e, fillers[n - 1 := id], n) == Interleave(e, fillers, n) + [id]
  {
    InterleaveFrame(e, e, fillers, fillers[n - 1 := id], n - 1);
  }

  /** A short entry gets a filler of zeros right behind it. */
  lemma ListFiller(s: State, t: State, n: nat, ids: seq<Id>, fillers: map<nat, Id>, zid: Id, x: nat, id: Id, z: bytes)
    requires Settled(s) && n > 0 && ListInv(s, t, n, ids, fillers, zid, x) && n - 1 !in fillers
    requires id < t.store.nextId && Find(t.store, id) == Found(z)
    requires forall i | 0 <= i < |z| :: z[i] == 0
    requires Ends(|ConcatIds(t.store, ids)|, n * s.bs - |z|, n > x)
    ensures ListInv(s, t, n, ids + [id], fillers[n - 1 := id], zid, x)
    ensures Ends(|ConcatIds(t.store, ids + [id])|, n * s.bs, n > x)
    ensures ConcatIds(t.store, ids + [id]) == ConcatIds(t.store, ids) + z
  {
    ConcatIdsSnoc(t.store, ids, id);
    FillerBytes(s, ConcatIds(t.store, ids), z, Upto(n, x));
    InterleaveFiller(EntryIds(t.blockList, n), fillers, n, id);
  }

  lemma ResizeZeros(n: nat)
    ensures Resize(Zeros(n), n) == Zeros(n)
  {
  }

  lemma BuildingZero(s: State, t: State, n: nat, m: nat, zid: Id)
    requires Building(s, t, n, zid) && n !in s.blockList && m == n + 1
    requires n < MAX_BLOCKS && n * s.bs + s.bs <= s.size
    requires s.store.nextId <= zid < t.store.nextId && Find(t.store, zid) == Found(Zeros(s.bs))
    ensures Building(s, t.(blockList := t.blockList[n := BlockInfo(zid, false, s.bs)]), m, zid)
  {
    var u := t.(blockList := t.blockList[n := BlockInfo(zid, false, s.bs)]);
    forall k: nat ensures EntryBuilt(s, u, m, zid, k) {
      assert EntryBuilt(s, t, n, zid, k);
    }
  }

  /** The next index has no entry: it becomes a shared block of zeros. */
  lemma ListZero(s: State, t: State, n: nat, ids: seq<Id>, fillers: map<nat, Id>, zid: Id, x: nat)
    requires ListInv(s, t, n, ids, fillers, zid, x) && n !in s.blockList
    requires Ends(|ConcatIds(t.store, ids)|, n * s.bs, n > x) && n < MAX_BLOCKS && n * s.bs + s.bs <= s.size
    requires s.store.nextId <= zid < t.store.nextId && Find(t.store, zid) == Found(Zeros(s.bs))
    ensures ListInv(s, t.(blockList := t.blockList[n := BlockInfo(zid, false, s.bs)]), n + 1, ids + [zid], fillers, zid, x)
    ensures Ends(|ConcatIds(t.store, ids + [zid])|, n * s.bs + s.bs, n >= x) && n != x
    ensures ConcatIds(t.store, ids + [zid]) == ConcatIds(t.store, ids) + Zeros(s.bs)
  {
    var u := t.(blockList := t.blockList[n := BlockInfo(zid, false, s.bs)]);
    BuildingZero(s, t, n, n + 1, zid);
    ResizeZeros(s.bs);
    assert u.blockList[n] == BlockInfo(zid, false, s.bs);
    assert StoredBlk(s, n) == Zeros(s.bs);
    assert HasBelow(u.blockList, n + 1);
    assert forall k | 0 <= k < n :: u.blockList[k] == t.blockList[k];
    assert Find(t.store, zid) == Found(Zeros(s.bs));
    ListAppend(s, t, u, n, ids, fillers, zid, x);
  }

  lemma {:induction false} InterleaveHas(entries: seq<Id>, fillers: map<nat, Id>, n: nat, k: nat)
    requires k < n <= |entries|
    ensures entries[k] in Interleave(entries, fillers, n)
  {
    if k < n - 1 {
      InterleaveHas(entries, fillers, n - 1, k);
    }
  }

  /** The finished list can be committed. */
  lemma ListDone(s: State, t: State, n: nat, ids: seq<Id>, fillers: map<nat, Id>, zid: Id, x: nat)
    requires Settled(s) && ListInv(s, t, n, ids, fillers, zid, x)
    requires forall k | k in s.blockList :: k < n
    requires Ends(|ConcatIds(t.store, ids)|, s.size, n > x) && s.size <= n * s.bs
    requires ConcatIds(t.store, ids) == Spread(s, n)
    ensures Settled(t) && Tame(s, t) && CanCommit(t, ids, n, x)
    ensures forall k: nat :: k in t.blockList <==> k < n
  {
    BuildingKeeps(s, t, n, zid);
    forall k: nat ensures k in t.blockList <==> k < n {
      assert EntryBuilt(s, t, n, zid, k);
    }
    forall k: nat | k < n ensures t.blockList[k].id in ids {
      InterleaveHas(EntryIds(t.blockList, n), fillers, n, k);
    }
    forall k: nat ensures StoredBlk(t, k) == StoredBlk(s, k) && (Late(t, k) <==> Late(s, k)) {
      BuildingStored(s, t, n, zid, k);
    }
    LaidFrame(s, t, ConcatIds(t.store, ids), Upto(n, x));
    forall k: nat | k < n ensures Piece(t, k) == Piece(s, k) {
      BuildingPiece(s, t, n, zid, k);
    }
    SpreadFrame(s, t, n);
  }

  // ---------- The sorted keys ----------

  /** The keys of the block list in increasing order; all are below the size. */
  function Offsets(s: State): seq<nat> {
    SortedBelow(s.blockList.Keys, s.size)
  }

  lemma OffsetsSorted(s: State)
    requires Base(s)
    ensures var o := Offsets(s);
            && (forall k | k in s.blockList :: k in o)
            && (forall i | 0 <= i < |o| :: o[i] in s.blockList)
            && (forall i, j | 0 <= i < j < |o| :: o[i] < o[j])
  {
    SortedBelowProps(s.blockList.Keys, s.size);
    forall k | k in s.blockList ensures k < s.size {
      assert EntryOk(s, k);
      MulLe(1, s.bs, k);
      assert k * s.bs == s.bs * k;
    }
  }

  /** The last key is the block that holds the last byte. */
  lemma LastOffset(s: State)
    requires Settled(s)
    ensures var o := Offsets(s);
            && (|o| == 0 <==> s.size == 0)
            && (|o| > 0 ==> o[|o| - 1] in s.blockList && IsLast(s, o[|o| - 1]))
  {
    OffsetsSorted(s);
    var o := Offsets(s);
    if |o| > 0 {
      var k := o[0];
      assert k in s.blockList && EntryOk(s, k);
      LastEntry(s);
      var m: nat :| m in s.blockList && IsLast(s, m);
      assert !DirtyAt(s, m);
      var l := o[|o| - 1];
      EntryBelowLast(s, m, l);
      assert m in o;
    } else if s.size > 0 {
      LastEntry(s);
    }
  }

  /** The test for a filler picks exactly the entries the file has outgrown. */
  lemma FillerTest(s: State, i: nat)
    requires Settled(s) && i < |Offsets(s)|
    ensures var o := Offsets(s);
            && o[i] in s.blockList
            && 0 < s.blockList[o[i]].size <= s.bs
            && o[i] < MAX_BLOCKS
            && (Stale(s, o[i]) <==> i != |o| - 1 && s.blockList[o[i]].size != s.bs)
            && o[i] * s.bs < s.size
            && (i == |o| - 1 ==> o[i] * s.bs + s.blockList[o[i]].size == s.size)
  {
    OffsetsSorted(s);
    LastOffset(s);
    var o := Offsets(s);
    var l := o[|o| - 1];
    assert EntryOk(s, o[i]) && !DirtyAt(s, o[i]) && !DirtyAt(s, l);
    EntryBelowLast(s, l, o[i]);
  }

  function IdsAt(m: map<nat, BlockInfo>, keys: seq<nat>): seq<Id>
    requires forall i | 0 <= i < |keys| :: keys[i] in m
  {
    seq(|keys|, i requires 0 <= i < |keys| => m[keys[i]].id)
  }

  lemma {:induction false} SortedBelowFrame(keys: set<nat>, keys': set<nat>, n: nat)
    requires forall k: nat | k < n :: k in keys <==> k in keys'
    ensures SortedBelow(keys, n) == SortedBelow(keys', n)
  {
    if n > 0 {
      SortedBelowFrame(keys, keys', n - 1);
    }
  }

  function FillerKeys(fillers: map<nat, Id>, n: nat): seq<nat> {
    SortedBelow(fillers.Keys, n)
  }

  /** A finished list, its fillers and the ids to restage. */
  ghost predicate ListResult(t: State, ids: seq<Id>, restage: seq<Id>, n: nat, fillers: map<nat, Id>, x: nat) {
    && Settled(t) && CanCommit(t, ids, n, x)
    && (forall k: nat :: k in t.blockList <==> k < n)
    && HasBelow(t.blockList, n)
    && ids == Interleave(EntryIds(t.blockList, n), fillers, n)
    && (forall k: nat :: k in fillers <==> Stale(t, k))
    && (forall i | 0 <= i < |FillerKeys(fillers, n)| :: FillerKeys(fillers, n)[i] in t.blockList)
    && restage == IdsAt(t.blockList, FillerKeys(fillers, n))
  }
}
