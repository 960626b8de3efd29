/** Committing: the block list is completed with zero blocks and fillers so that
    every entry lands at its own place, then sent. */
module WriteCommit {
  import opened Bytes
  import opened Storage
  import opened Lists
  import opened WriteState
  import opened WriteSteps
  import opened WriteCalm

  ghost predicate Settled(s: State) {
    Base(s) && NothingDirty(s) && s.uploads == map[]
  }

  // ---------- Completing the list ----------

  /** More blocks were staged under ids that were not in use. */
  ghost predicate StoreGrew(a: Store, b: Store) {
    && b.committed == a.committed && b.flat == a.flat && a.nextId <= b.nextId && IdsBelow(b)
    && forall id: Id {:trigger Find(b, id)} | id < a.nextId ::
         Find(b, id) == Find(a, id) && (id in b.staged <==> id in a.staged)
  }

  /** Entry `k` while the list has been completed up to index `n`. */
  ghost predicate EntryBuilt(s: State, t: State, n: nat, zid: Id, k: nat) {
    && (k in t.blockList <==> k in s.blockList || k < n)
    && (k in s.blockList ==> t.blockList[k] == s.blockList[k])
    && (k in t.blockList && k !in s.blockList ==>
          && t.blockList[k] == BlockInfo(zid, false, s.bs)
          && k < MAX_BLOCKS && k * s.bs + s.bs <= s.size
          && s.store.nextId <= zid < t.store.nextId
          && Find(t.store, zid) == Found(Zeros(s.bs)))
  }

  /** No entry before `x` has more bytes in storage than recorded; entry `x` has,
      unless `x` is the block limit. */
  ghost predicate IsLimit(s: State, x: nat) {
    && x <= MAX_BLOCKS && (x < MAX_BLOCKS ==> Late(s, x))
    && forall k: nat {:trigger Late(s, k)} | k < x :: !Late(s, k)
  }

  lemma LimitExists(s: State)
    ensures exists x :: IsLimit(s, x)
  {
    LimitFrom(s, 0);
  }

  lemma {:induction false} LimitFrom(s: State, x: nat)
    requires x <= MAX_BLOCKS && forall k: nat {:trigger Late(s, k)} | k < x :: !Late(s, k)
    ensures exists y :: IsLimit(s, y)
    decreases MAX_BLOCKS - x
  {
    if x == MAX_BLOCKS || Late(s, x) {
      assert IsLimit(s, x);
    } else {
      LimitFrom(s, x + 1);
    }
  }

  ghost predicate Building(s: State, t: State, n: nat, zid: Id) {
    && t == s.(blockList := t.blockList, store := t.store)
    && StoreGrew(s.store, t.store)
    && forall k: nat {:trigger EntryBuilt(s, t, n, zid, k)} :: EntryBuilt(s, t, n, zid, k)
  }

  /** Entries are added, none is dropped or resized. */
  ghost predicate KeepsEntries(s: State, t: State) {
    forall k | k in s.blockList :: k in t.blockList && t.blockList[k].size == s.blockList[k].size
  }

  lemma BuildingKeepsEntries(s: State, t: State, n: nat, zid: Id)
    requires Building(s, t, n, zid)
    ensures KeepsEntries(s, t)
  {
    forall k | k in s.blockList ensures k in t.blockList && t.blockList[k] == s.blockList[k] {
      assert EntryBuilt(s, t, n, zid, k);
    }
  }

  lemma BuildingStored(s: State, t: State, n: nat, zid: Id, k: nat)
    requires Settled(s) && Building(s, t, n, zid)
    ensures StoredBlk(t, k) == StoredBlk(s, k) && Blk(t, k) == Blk(s, k)
    ensures k in t.blockList ==> EntryOk(t, k)
    ensures Stale(t, k) ==> Stale(s, k) && t.blockList[k] == s.blockList[k]
    ensures Late(t, k) <==> Late(s, k)
    ensures k in s.blockList ==> SamePlace(s, t, k)
  {
    assert EntryBuilt(s, t, n, zid, k);
    assert !DirtyAt(s, k);
    if k in s.blockList {
      assert EntryOk(s, k);
      assert Find(t.store, s.blockList[k].id) == Find(s.store, s.blockList[k].id);
    }
  }

  /** Filling the holes leaves the pieces as they are. */
  lemma BuildingPiece(s: State, t: State, n: nat, zid: Id, k: nat)
    requires Settled(s) && Building(s, t, n, zid)
    ensures Piece(t, k) == Piece(s, k)
  {
    assert EntryBuilt(s, t, n, zid, k);
    assert !DirtyAt(s, k);
    if k in s.blockList {
      assert EntryOk(s, k);
      assert Find(t.store, s.blockList[k].id) == Find(s.store, s.blockList[k].id);
    }
  }

  lemma BuildingBlock(s: State, t: State, n: nat, zid: Id, q: Ptr)
    requires Settled(s) && Building(s, t, n, zid) && Linked(s, q)
    ensures BlockOk(t, q)
  {
    assert BlockOk(s, q);
    BuildingStored(s, t, n, zid, s.mem[q].id);
    assert EntryBuilt(s, t, n, zid, s.mem[q].id);
  }

  lemma BuildingIds(s: State, t: State, n: nat, zid: Id)
    requires Settled(s) && Building(s, t, n, zid)
    ensures SharedIds(t.blockList, t.bs)
  {
    forall k, l | k in t.blockList && l in t.blockList && k != l && t.blockList[k].id == t.blockList[l].id
      ensures t.blockList[k].size == t.bs
    {
      assert EntryBuilt(s, t, n, zid, k) && EntryBuilt(s, t, n, zid, l);
      assert k in s.blockList ==> EntryOk(s, k);
      assert l in s.blockList ==> EntryOk(s, l);
    }
  }

  lemma BuildingKeeps(s: State, t: State, n: nat, zid: Id)
    requires Settled(s) && Building(s, t, n, zid)
    ensures Settled(t) && Tame(s, t)
  {
    BuildingIds(s, t, n, zid);
    forall q | Linked(t, q) ensures BlockOk(t, q) {
      assert Linked(s, q);
      BuildingBlock(s, t, n, zid, q);
    }
    forall k | k in t.values ensures ValueOk(t, k) {
      assert ValueOk(s, k);
    }
    forall k | k in t.blockList ensures EntryOk(t, k) {
      BuildingStored(s, t, n, zid, k);
    }
    forall k: nat ensures TameAt(s, t, k) && !DirtyAt(t, k) {
      BuildingStored(s, t, n, zid, k);
      assert !DirtyAt(s, k);
    }
    forall m: nat | IsLast(t, m) ensures Covered(t, m) {
      assert IsLast(s, m) && Covered(s, m);
      assert EntryBuilt(s, t, n, zid, m) && !DirtyAt(s, m);
    }
  }

  // ---------- Bytes of the list ----------

  ghost predicate LaidAt(s: State, c: bytes, k: nat) {
    Slice(c, k, s.bs) == StoredBlk(s, k)
  }

  ghost predicate Laid(s: State, c: bytes, n: nat) {
    forall k: nat {:trigger LaidAt(s, c, k)} | k < n :: LaidAt(s, c, k)
  }

  lemma SliceAppend(c: bytes, d: bytes, k: nat, bs: nat)
    requires k * bs + bs <= |c|
    ensures Slice(c + d, k, bs) == Slice(c, k, bs)
  {
  }

  lemma SliceLast(c: bytes, d: bytes, n: nat, bs: nat)
    requires |c| == n * bs && |d| <= bs
    ensures Slice(c + d, n, bs) == Resize(d, bs)
  {
  }

  /** Appending the bytes of block `n` to a list that ends where block `n` starts. */
  lemma LaidStep(s: State, c: bytes, d: bytes, n: nat)
    requires Laid(s, c, n) && |c| == n * s.bs && |d| <= s.bs && Resize(d, s.bs) == StoredBlk(s, n)
    ensures Laid(s, c + d, n + 1)
  {
    forall k: nat | k < n + 1 ensures LaidAt(s, c + d, k) {
      if k == n {
        SliceLast(c, d, n, s.bs);
      } else {
        assert LaidAt(s, c, k);
        MulLe(k + 1, n, s.bs);
        assert (k + 1) * s.bs == k * s.bs + s.bs;
        SliceAppend(c, d, k, s.bs);
      }
    }
  }

  /** `Laid` only depends on the stored bytes. */
  lemma LaidFrame(s: State, t: State, c: bytes, n: nat)
    requires Laid(s, c, n) && t.bs == s.bs
    requires forall k: nat | k < n :: StoredBlk(t, k) == StoredBlk(s, k)
    ensures Laid(t, c, n)
  {
    forall k: nat | k < n ensures LaidAt(t, c, k) {
      assert LaidAt(s, c, k);
    }
  }

  // ---------- The commit ----------

  function Committed(s: State, ids: seq<Id>): State
    requires Known(s.store, ids)
  {
    s.(store := Commit(s.store, ids),
       blockList := map k | k in s.blockList :: s.blockList[k].(committed := true))
  }

  /** Where the blocks end that the list is known to put in their place. */
  function Upto(n: nat, x: nat): nat {
    if n <= x then n else x + 1
  }

  /** What the list brings for block `k`: what is stored for its entry, with a filler
      behind if the file has outgrown it, or a block of zeros. */
  function Piece(s: State, k: nat): bytes {
    if k !in s.blockList || Find(s.store, s.blockList[k].id).Missing? then Zeros(s.bs)
    else Find(s.store, s.blockList[k].id).data + if Stale(s, k) && s.blockList[k].size <= s.bs then Zeros(s.bs - s.blockList[k].size) else []
  }

  /** The pieces of the blocks below `n`, one behind the other. */
  function Spread(s: State, n: nat): bytes {
    if n == 0 then [] else Spread(s, n - 1) + Piece(s, n - 1)
  }

  lemma SpreadNext(s: State, n: nat)
    ensures Spread(s, n + 1) == Spread(s, n) + Piece(s, n)
  {
  }

  lemma {:induction false} SpreadFrame(s: State, t: State, n: nat)
    requires forall k: nat | k < n :: Piece(t, k) == Piece(s, k)
    ensures Spread(t, n) == Spread(s, n)
  {
    if n > 0 {
      SpreadFrame(s, t, n - 1);
    }
  }

  /** The list of `n` entries names every one, lays out all up to `x`, and is as
      long as the file exactly if no entry brings along more than was recorded. */
  ghost predicate CanCommit(s: State, ids: seq<Id>, n: nat, x: nat) {
    && Settled(s) && Known(s.store, ids) && IsLimit(s, x)
    && (forall k: nat :: k in s.blockList <==> k < n)
    && (forall k {:trigger s.blockList[k]} | k in s.blockList :: s.blockList[k].id in ids)
    && Laid(s, ConcatIds(s.store, ids), Upto(n, x))
    && s.size <= n * s.bs
    && (n <= x ==> |ConcatIds(s.store, ids)| == s.size)
    && (n > x ==> |ConcatIds(s.store, ids)| > s.size)
    && ConcatIds(s.store, ids) == Spread(s, n)
  }

  lemma CommittedStored(s: State, ids: seq<Id>, n: nat, x: nat, k: nat)
    requires CanCommit(s, ids, n, x)
    ensures StoredBlk(Committed(s, ids), k) == StoredBlk(s, k)
    ensures k in s.blockList ==>
              && Find(Committed(s, ids).store, s.blockList[k].id) == Find(s.store, s.blockList[k].id)
              && InStore(s, k) && InStore(Committed(s, ids), k)
  {
    if k in s.blockList {
      assert EntryOk(s, k) && !DirtyAt(s, k);
      CommitFinds(s.store, ids, s.blockList[k].id);
    }
  }

  /** Up to `x` the commit puts every entry in its place. */
  lemma CommittedPlace(s: State, ids: seq<Id>, n: nat, x: nat, k: nat)
    requires CanCommit(s, ids, n, x) && k in s.blockList && k <= x
    ensures InPlace(Committed(s, ids), k)
  {
    CommittedStored(s, ids, n, x, k);
    CommitContent(s.store, ids);
    assert EntryOk(s, k);
    assert LaidAt(s, ConcatIds(s.store, ids), k);
  }

  lemma RecordedLimit(s: State, x: nat)
    requires IsLimit(s, x) && s.recorded
    ensures x == MAX_BLOCKS
  {
  }

  lemma CommittedEntry(s: State, ids: seq<Id>, n: nat, x: nat, k: nat)
    requires CanCommit(s, ids, n, x) && k in s.blockList
    ensures EntryOk(Committed(s, ids), k)
  {
    hide Laid;
    assert EntryOk(s, k) && !DirtyAt(s, k);
    CommittedStored(s, ids, n, x, k);
    if s.recorded {
      RecordedLimit(s, x);
      CommittedPlace(s, ids, n, x, k);
    }
  }

  lemma CommittedBlock(s: State, ids: seq<Id>, n: nat, x: nat, q: Ptr)
    requires CanCommit(s, ids, n, x) && Linked(s, q)
    ensures BlockOk(Committed(s, ids), q)
  {
    hide Laid, InPlace, InStore, StoredBlk, EntryOk, Commit;
    assert BlockOk(s, q);
    CommittedStored(s, ids, n, x, s.mem[q].id);
    if q in s.downloads {
      CommittedPlace(s, ids, n, x, 0);
    }
  }

  lemma CommittedIds(s: State, ids: seq<Id>)
    requires Settled(s) && Known(s.store, ids)
    ensures IdsBelow(Committed(s, ids).store)
  {
    forall i | 0 <= i < |ids| ensures ids[i] < s.store.nextId {
      FindBlockAt(s.store.committed, ids[i]);
    }
  }

  lemma CommittedTame(s: State, ids: seq<Id>, n: nat, x: nat)
    requires CanCommit(s, ids, n, x)
    ensures Tame(s, Committed(s, ids)) && NothingDirty(Committed(s, ids)) && AllCommitted(Committed(s, ids))
    ensures forall k: nat {:trigger Late(s, k)} :: Late(Committed(s, ids), k) <==> Late(s, k)
    ensures IsLimit(Committed(s, ids), x)
  {
    hide Laid, InPlace, InStore;
    var t := Committed(s, ids);
    forall k: nat ensures TameAt(s, t, k) && !DirtyAt(t, k) && (Late(t, k) <==> Late(s, k)) {
      CommittedStored(s, ids, n, x, k);
      assert !DirtyAt(s, k);
    }
  }

  lemma CommittedBase(s: State, ids: seq<Id>, n: nat, x: nat)
    requires CanCommit(s, ids, n, x)
    ensures Settled(Committed(s, ids)) && Tame(s, Committed(s, ids))
    ensures AllCommitted(Committed(s, ids)) && IsLimit(Committed(s, ids), x)
    ensures forall k | k in s.blockList && k <= x :: InPlace(Committed(s, ids), k)
  {
    hide Laid, InPlace, InStore, BlockOk, EntryOk;
    var t := Committed(s, ids);
    CommittedIds(s, ids);
    CommittedTame(s, ids, n, x);
    forall q | Linked(t, q) ensures BlockOk(t, q) {
      assert Linked(s, q);
      CommittedBlock(s, ids, n, x, q);
    }
    forall k | k in t.values ensures ValueOk(t, k) {
      assert ValueOk(s, k);
    }
    forall k | k in t.blockList ensures EntryOk(t, k) {
      CommittedEntry(s, ids, n, x, k);
    }
    forall m: nat | IsLast(t, m) ensures Covered(t, m) {
      assert IsLast(s, m) && Covered(s, m);
      assert !DirtyAt(s, m);
    }
    forall k | k in s.blockList && k <= x ensures InPlace(t, k) {
      CommittedPlace(s, ids, n, x, k);
    }
  }

  /** The blob that is sent is the logical file, byte for byte, if and only if
      storage has no more bytes for any entry than were recorded. */
  lemma CommittedContent(s: State, ids: seq<Id>, n: nat, x: nat)
    requires CanCommit(s, ids, n, x) && Blocks(s)
    ensures Content(Commit(s.store, ids)) == Logical(s) <==> forall k: nat :: !Late(s, k)
    ensures n <= x <==> forall k: nat :: !Late(s, k)
  {
    var c := ConcatIds(s.store, ids);
    CommitContent(s.store, ids);
    LimitIff(s, ids, n, x);
    if n <= x {
      forall i | 0 <= i < s.size ensures c[i] == Logical(s)[i] {
        ContentByte(s, ids, n, x, i);
      }
    }
  }

  lemma LimitIff(s: State, ids: seq<Id>, n: nat, x: nat)
    requires CanCommit(s, ids, n, x)
    ensures n <= x <==> forall k: nat :: !Late(s, k)
  {
    if n <= x {
      forall k: nat ensures !Late(s, k) {
        assert Late(s, k) ==> k in s.blockList && k < n;
      }
    } else if x == MAX_BLOCKS {
      forall k: nat ensures !Late(s, k) {
        assert k in s.blockList ==> EntryOk(s, k);
      }
      TooManyBlocks(s, ids, n, x);
    }
  }

  /** The list has no more entries than there can be blocks. */
  lemma TooManyBlocks(s: State, ids: seq<Id>, n: nat, x: nat)
    requires CanCommit(s, ids, n, x)
    ensures n <= MAX_BLOCKS
  {
    assert n > 0 ==> n - 1 in s.blockList && EntryOk(s, n - 1);
  }

  lemma ContentByte(s: State, ids: seq<Id>, n: nat, x: nat, i: nat)
    requires CanCommit(s, ids, n, x) && Blocks(s) && i < s.size && n <= x
    ensures ConcatIds(s.store, ids)[i] == Logical(s)[i]
  {
    hide Spread, Piece, ConcatIds, StoredBlk, Late, IsLimit, Base;
    var k, j := i / s.bs, i % s.bs;
    assert k * s.bs + j == i;
    if k >= n {
      MulLe(n, k, s.bs);
    }
    assert LaidAt(s, ConcatIds(s.store, ids), k);
    assert !DirtyAt(s, k);
    assert Slice(ConcatIds(s.store, ids), k, s.bs)[j] == At(ConcatIds(s.store, ids), k * s.bs + j);
  }

  // ---------- The last entry ----------

  /** With nothing modified in the cache, the entry with the largest index ends
      exactly at the end of the file, and there is none only in an empty file. */
  lemma LastEntry(s: State)
    requires Settled(s) && s.size > 0
    ensures exists m: nat :: m in s.blockList && IsLast(s, m)
  {
    var m: nat := (s.size - 1) / s.bs;
    assert IsLast(s, m);
    assert Covered(s, m) && !DirtyAt(s, m);
  }

  lemma EntryBelowLast(s: State, m: nat, k: nat)
    requires Base(s) && !DirtyAt(s, m) && IsLast(s, m) && k in s.blockList
    ensures k <= m
    ensures k == m ==> k * s.bs + s.blockList[k].size == s.size
    ensures k < m ==> k * s.bs + s.bs <= m * s.bs
  {
    assert EntryOk(s, k) && Covered(s, m);
    var size, last := s.size, s.blockList[k].size;
    hide Base, EntryOk, Covered;
    BelowLast(k, m, s.bs, last, size);
  }

  lemma BelowLast(k: nat, m: nat, bs: nat, n: nat, size: nat)
    requires k * bs + n <= size <= m * bs + bs && n > 0
    ensures k <= m && (k < m ==> k * bs + bs <= m * bs)
  {
    assert (m + 1) * bs == m * bs + bs && (k + 1) * bs == k * bs + bs;
    if k > m {
      MulLe(m + 1, k, bs);
    } else if k < m {
      MulLe(k + 1, m, bs);
    }
  }
}
