/** When a write keeps the file right, decided before the call. */
module WriteGuard {
  import opened Bytes
  import opened Storage
  import opened Lists
  import opened WriteState
  import opened WriteSteps
  import opened WriteEdit
  import opened WriteCalm
  import opened WriteWait
  import opened WriteRestage
  import opened WriteFetch
  import opened WriteImage

  /** How many of the blocks from `a` up to `b` are not cached. */
  function Missing(s: State, a: nat, b: nat): nat
    decreases b - a
  {
    if a >= b then 0 else Missing(s, a, b - 1) + if b - 1 in s.values then 0 else 1
  }

  /** Buffers a write from block `first` on will have by block `j`, if none goes. */
  function Buffers(s: State, first: nat, j: nat): nat {
    |s.cooked| + |s.cooking| + Missing(s, first, j)
  }

  /** Getting block `j` may cost another one its buffer: there are `room` of them by
      then, or everything has to be committed first. */
  predicate Crowds(s: State, first: nat, j: nat, room: nat) {
    j !in s.values && (Buffers(s, first, j) >= room || NeedsCommit(s, j))
  }

  /** A write of [from, end) may find block `k` not cached when it gets there: it
      is not cached now, or an earlier block of the range may push it out. */
  predicate Loose(s: State, from: nat, end: nat, k: nat, room: nat)
    requires s.bs > 0
  {
    && from < end && from < k * s.bs + s.bs && k * s.bs < end
    && (k !in s.values || exists j | from / s.bs <= j < k :: Crowds(s, from / s.bs, j, room))
  }

  /** Fetching block `k` goes well: when it needs a commit first, its own entry is
      not outgrown, since the commit would cache it while the caller is about to
      link another buffer for it, and the commit is one that reads what it restages
      from the right place; else its bytes are in their place in the blob. */
  predicate NotTrapped(s: State, k: nat) {
    !(NeedsCommit(s, k) && Stale(s, k))
  }

  ghost predicate MayFetchAt(s: State, k: nat) {
    NotTrapped(s, k) && (Unsettled(s, k) ==> SafeOrder(s)) && Fetchable(s, k)
  }

  ghost predicate MayWriteAt(s: State, from: nat, end: nat, k: nat, room: nat)
    requires s.bs > 0
  {
    Loose(s, from, end, k, room) ==> MayFetchAt(s, k)
  }

  ghost predicate MayWrite(s: State, from: nat, end: nat, room: nat)
    requires s.bs > 0
  {
    forall k: nat {:trigger MayWriteAt(s, from, end, k, room)} :: MayWriteAt(s, from, end, k, room)
  }

  /** Where uploads stage what was recorded, only the first condition can fail. */
  lemma RecordedMayFetch(s: State, k: nat)
    requires Base(s) && s.recorded
    ensures MayFetchAt(s, k) <==> NotTrapped(s, k)
    ensures CommitSafe(s)
  {
    assert k in s.blockList ==> EntryOk(s, k);
    if k in s.blockList && s.blockList[k].committed {
      PlacedReadsRight(s, k);
    }
  }

  /** There only a loose block that is outgrown and not committed refuses a write. */
  lemma RecordedMayWrite(s: State, from: nat, end: nat, room: nat)
    requires Base(s) && s.recorded
    ensures MayWrite(s, from, end, room) <==> forall k: nat | Loose(s, from, end, k, room) :: NotTrapped(s, k)
  {
    hide MayFetchAt, NotTrapped;
    forall k: nat ensures MayFetchAt(s, k) <==> NotTrapped(s, k) {
      RecordedMayFetch(s, k);
    }
    if MayWrite(s, from, end, room) {
      forall k: nat | Loose(s, from, end, k, room) ensures NotTrapped(s, k) {
        assert MayWriteAt(s, from, end, k, room);
      }
    }
  }

  /** A write into one block that is cached, or that the handle has no bytes of, is
      never refused: neither a rewrite of an outgrown block nor a sparse write behind
      a short last block. */
  lemma OneBlockFree(s: State, k: nat, from: nat, end: nat, room: nat)
    requires Base(s) && k * s.bs <= from < end <= k * s.bs + s.bs && (k in s.values || k !in s.blockList)
    ensures MayWrite(s, from, end, room)
  {
    hide MayFetchAt;
    DivMod(k, from - k * s.bs, s.bs);
    forall j: nat ensures MayWriteAt(s, from, end, j, room) {
      BlockOrder(j, k, s.bs);
      if k !in s.values {
        NothingToFetch(s, k);
      }
    }
  }

  lemma NothingToFetch(s: State, k: nat)
    requires k !in s.values && k !in s.blockList
    ensures MayFetchAt(s, k)
  {
  }

  /** With buffers for the whole range, and none of its missing blocks waiting for a
      commit, cached blocks do not matter: only the missing ones must be readable. */
  lemma RoomyMayWrite(s: State, from: nat, end: nat, last: nat, room: nat)
    requires s.bs > 0 && from < end && from / s.bs <= last && last * s.bs < end <= last * s.bs + s.bs
    requires Buffers(s, from / s.bs, last + 1) <= room
    requires forall j: nat | from / s.bs <= j <= last && j !in s.values :: !NeedsCommit(s, j)
    ensures MayWrite(s, from, end, room) <==> forall k: nat | from / s.bs <= k <= last && k !in s.values :: Fetchable(s, k)
  {
    hide Fetchable, Unsettled, SafeOrder;
    var first := from / s.bs;
    assert from == first * s.bs + from % s.bs;
    forall k: nat ensures Loose(s, from, end, k, room) <==> first <= k <= last && k !in s.values {
      BlockOrder(k, first, s.bs);
      BlockOrder(k, last, s.bs);
      forall j | first <= j < k && k <= last && j !in s.values ensures !Crowds(s, first, j, room) {
        MissingBefore(s, first, j, last + 1);
      }
    }
    forall k: nat | first <= k <= last && k !in s.values ensures MayFetchAt(s, k) <==> Fetchable(s, k) {
      MissingSettled(s, k);
    }
    if MayWrite(s, from, end, room) {
      forall k: nat | first <= k <= last && k !in s.values ensures Fetchable(s, k) {
        assert MayWriteAt(s, from, end, k, room);
      }
    }
  }

  lemma MissingSettled(s: State, k: nat)
    requires k !in s.values && !NeedsCommit(s, k)
    ensures !Unsettled(s, k)
  {
  }

  lemma {:induction false} MissingBefore(s: State, a: nat, j: nat, b: nat)
    requires a <= j < b && j !in s.values
    ensures Missing(s, a, j) < Missing(s, a, b)
    decreases b
  {
    if j < b - 1 {
      MissingBefore(s, a, j, b - 1);
    }
  }

  /** On a handle with nothing to persist every block can be fetched. */
  lemma CleanMayFetch(s: State, k: nat)
    requires Inv(s) && !s.handleDirty
    ensures MayFetchAt(s, k)
  {
    CleanPlaced(s, k);
  }

  lemma FirstBlock(s: State, from: nat, end: nat, room: nat)
    requires s.bs > 0 && MayWrite(s, from, end, room) && from < end
    ensures var k := from / s.bs;
            && k * s.bs <= from < k * s.bs + s.bs
            && (k !in s.values ==> MayFetchAt(s, k))
  {
    var k := from / s.bs;
    assert from == k * s.bs + from % s.bs;
    assert MayWriteAt(s, from, end, k, room);
  }

  lemma OnwardMayFetch(s: State, t: State, k: nat)
    requires Onward(s, t) && MayFetchAt(s, k)
    ensures MayFetchAt(t, k)
  {
    assert OnwardAt(s, t, k) && TameAt(s, t, k);
    TameSafe(s, t);
  }

  /** After getting hold of the first block the whole range may still be written. */
  lemma MayWriteOnward(s: State, t: State, from: nat, end: nat, room: nat)
    requires s.bs > 0 && MayWrite(s, from, end, room) && Onward(s, t) && from < end
    requires from / s.bs in t.values && Got(s, t, from / s.bs, room)
    ensures t.bs == s.bs && MayWrite(t, from, end, room)
  {
    hide MayFetchAt, Onward, Crowds, Got;
    OnwardShape(s, t);
    var first := from / s.bs;
    assert from == first * s.bs + from % s.bs;
    forall k: nat ensures MayWriteAt(t, from, end, k, room) {
      if Loose(t, from, end, k, room) {
        BlockOrder(k, first, s.bs);
        LooseOnward(s, t, first, k, room);
        assert MayWriteAt(s, from, end, k, room);
        OnwardMayFetch(s, t, k);
      }
    }
  }

  /** What getting block `k` does to the cache: nothing if it was there; with room
      left and no commit needed the block joins the others. */
  ghost predicate Got(s: State, t: State, k: nat, room: nat) {
    && (k in s.values ==> t.values == s.values && |t.cooked| + |t.cooking| == |s.cooked| + |s.cooking|)
    && (k !in s.values && |s.cooked| + |s.cooking| < room && !NeedsCommit(s, k) ==>
          && t.values.Keys == s.values.Keys + {k}
          && |t.cooked| + |t.cooking| == |s.cooked| + |s.cooking| + 1)
  }

  lemma LooseOnward(s: State, t: State, first: nat, k: nat, room: nat)
    requires Onward(s, t) && Got(s, t, first, room) && first in t.values && first <= k
    requires k !in t.values || exists j | first <= j < k :: Crowds(t, first, j, room)
    ensures k !in s.values || exists j | first <= j < k :: Crowds(s, first, j, room)
  {
    if first !in s.values && (|s.cooked| + |s.cooking| >= room || NeedsCommit(s, first)) {
      assert first == k || Crowds(s, first, first, room);
    } else if k in s.values && k in t.values {
      var j :| first <= j < k && Crowds(t, first, j, room);
      MissingGot(s, t, first, j, room);
      assert OnwardAt(s, t, j);
      assert Crowds(s, first, j, room);
    }
  }

  /** The block that was got is one less to come. */
  lemma {:induction false} MissingGot(s: State, t: State, first: nat, j: nat, room: nat)
    requires Got(s, t, first, room) && first in t.values && first <= j
    requires first in s.values || (|s.cooked| + |s.cooking| < room && !NeedsCommit(s, first))
    ensures Missing(s, first, j) == Missing(t, first, j) + if first in s.values || j == first then 0 else 1
    ensures first < j ==> Buffers(s, first, j) == Buffers(t, first, j)
    decreases j - first
  {
    if first < j {
      MissingGot(s, t, first, j - 1, room);
    }
  }

  lemma {:induction false} MissingLess(s: State, a: nat, b: nat, j: nat)
    requires a <= b
    ensures Missing(s, b, j) <= Missing(s, a, j)
    decreases if b < j then j - b else 0
  {
    if b < j {
      MissingLess(s, a, b, j - 1);
    }
  }

  lemma {:induction false} SameMissing(s: State, t: State, a: nat, b: nat)
    requires t.values.Keys == s.values.Keys
    ensures Missing(t, a, b) == Missing(s, a, b)
    decreases b - a
  {
    if a < b {
      SameMissing(s, t, a, b - 1);
    }
  }

  lemma OnwardShape(s: State, t: State)
    requires Onward(s, t)
    ensures Tame(s, t) && t.bs == s.bs && t.size == s.size
  {
  }

  lemma BlockOrder(k: nat, l: nat, n: nat)
    ensures k < l ==> k * n + n <= l * n
    ensures l < k ==> l * n + n <= k * n
  {
    assert (k + 1) * n == k * n + n && (l + 1) * n == l * n + n;
    if k < l {
      MulLe(k + 1, l, n);
    } else if l < k {
      MulLe(l + 1, k, n);
    }
  }

  lemma MayFetchFrom(s: State, k: nat)
    ensures MayFetchAt(s, k) ==> MayFetch(s, k, 2)
  {
  }

  lemma RecordedFlush(s: State)
    ensures Inv(s) && s.recorded ==> CommitSafe(s)
  {
    if Inv(s) && s.recorded {
      RecordedMayFetch(s, 0);
    }
  }

  lemma CopiedRest(s: State, t: State, from: nat, end: nat, p: Ptr, k: nat, start: nat, data: bytes, written: nat, room: nat)
    requires Inv(s) && s.bs > 0 && MayWrite(s, from, end, room) && Ready(s, p, k)
    requires from + |data| == end && 0 < written <= |data| && (written == |data| || start + written == s.bs)
    requires CanWrite(s, p, start, data[..written]) && from == k * s.bs + start
    requires t == WriteData(s, p, start, data[..written])
    ensures MayWrite(t, from + written, end, room)
  {
    hide MayWrite, Ready, CanWrite, Inv, Base;
    InvBase(s);
    MayWriteRest(s, t, from, end, p, k, start, data[..written], room);
  }

  /** Putting bytes into block 0, where the range begins, leaves the range writable. */
  lemma FrontWritten(s: State, t: State, p: Ptr, front: bytes, from: nat, end: nat, room: nat)
    requires Base(s) && MayWrite(s, from, end, room) && Ready(s, p, 0) && CanWrite(s, p, 0, front) && from < s.bs
    requires |front| <= s.length && t == WriteData(s, p, 0, front)
    ensures MayWrite(t, from, end, room) && Ready(t, p, 0) && t.length == s.length
  {
    hide MayFetchAt, BlockOk, EntryOk, Base, DirtyAt, StoredBlk, Crowds;
    DivMod(0, from, s.bs);
    CanWriteId(s, p, 0, 0, front);
    WrittenSize(s, p, 0, front);
    forall l: nat ensures MayWriteAt(t, from, end, l, room) {
      if Loose(t, from, end, l, room) {
        LooseBefore(s, t, from, from, end, l, room);
        assert MayWriteAt(s, from, end, l, room) && l > 0;
        BlockOrder(0, l, s.bs);
        if l in s.blockList || DirtyAt(s, l) {
          KnownInside(s, l);
        }
        WrittenMayFetch(s, t, p, 0, front, l);
      }
    }
  }

  /** A block whose bytes or entry the handle has lies inside the file. */
  lemma KnownInside(s: State, l: nat)
    requires Base(s) && (l in s.blockList || DirtyAt(s, l))
    ensures l * s.bs < s.size
  {
    if l in s.blockList {
      assert EntryOk(s, l);
    } else {
      assert ValueOk(s, l) && BlockOk(s, s.values[l]);
    }
  }

  /** Writing into another block, without moving the end, leaves block `l` as it is. */
  lemma WrittenMayFetch(s: State, t: State, p: Ptr, offset: nat, chunk: bytes, l: nat)
    requires Base(s) && CanWrite(s, p, offset, chunk) && t == WriteData(s, p, offset, chunk)
    requires MayFetchAt(s, l) && l != s.mem[p].id
    requires l in s.blockList || DirtyAt(s, l) ==> t.size == s.size
    ensures MayFetchAt(t, l)
  {
    assert Linked(s, p) && BlockOk(s, p);
    forall k: nat | t.size == s.size ensures (Stale(t, k) ==> Stale(s, k)) && (Late(t, k) ==> Late(s, k)) {
      assert k in s.values ==> ValueOk(s, k);
    }
    assert l in s.values ==> ValueOk(s, l);
    if l in s.blockList {
      PlaceFrame(s, t, l);
    }
  }

  /** After the copy the rest of the range may still be written. */
  lemma MayWriteRest(s: State, t: State, from: nat, end: nat, p: Ptr, k: nat, offset: nat, chunk: bytes, room: nat)
    requires Base(s) && MayWrite(s, from, end, room) && Ready(s, p, k) && CanWrite(s, p, offset, chunk)
    requires t == WriteData(s, p, offset, chunk)
    requires from == k * s.bs + offset && from + |chunk| <= end
    requires from + |chunk| == end || offset + |chunk| == s.bs
    ensures MayWrite(t, from + |chunk|, end, room)
  {
    hide MayFetchAt, BlockOk, EntryOk, CanWrite, Base, Ready, DirtyAt, StoredBlk;
    CanWriteId(s, p, k, offset, chunk);
    PositiveSize(s);
    var next := from + |chunk|;
    forall l: nat ensures MayWriteAt(t, next, end, l, room) {
      MayWriteRestAt(s, t, from, end, p, k, offset, chunk, l, room);
    }
  }

  lemma MayWriteRestAt(s: State, t: State, from: nat, end: nat, p: Ptr, k: nat, offset: nat, chunk: bytes, l: nat, room: nat)
    requires Base(s) && MayWrite(s, from, end, room) && Ready(s, p, k) && CanWrite(s, p, offset, chunk)
    requires t == WriteData(s, p, offset, chunk)
    requires from == k * s.bs + offset && from + |chunk| <= end
    requires from + |chunk| == end || offset + |chunk| == s.bs
    ensures t.bs > 0 && MayWriteAt(t, from + |chunk|, end, l, room)
  {
    hide MayFetchAt, BlockOk, EntryOk, CanWrite, Base, Ready, DirtyAt, StoredBlk;
    var next := from + |chunk|;
    CanWriteId(s, p, k, offset, chunk);
    PositiveSize(s);
    if Loose(t, next, end, l, room) {
      BlockOrder(k, l, s.bs);
      LooseBefore(s, t, from, next, end, l, room);
      assert MayWriteAt(s, from, end, l, room);
      if l in s.blockList || DirtyAt(s, l) {
        KnownInside(s, l);
      }
      WrittenSize(s, p, offset, chunk);
      WrittenMayFetch(s, t, p, offset, chunk, l);
    }
  }

  lemma CanWriteId(s: State, p: Ptr, k: nat, offset: nat, chunk: bytes)
    requires Ready(s, p, k) && CanWrite(s, p, offset, chunk)
    ensures p in s.mem && offset + |chunk| <= |s.mem[p].data| == s.bs && s.mem[p].id == k && chunk != []
    ensures var t := WriteData(s, p, offset, chunk);
            && t.values == s.values && t.bs == s.bs && t.blockList == s.blockList && t.cooked == s.cooked && t.cooking == s.cooking
  {
  }

  lemma LooseBefore(s: State, t: State, from: nat, next: nat, end: nat, l: nat, room: nat)
    requires s.bs > 0 && t.bs == s.bs && t.values == s.values && t.blockList == s.blockList
    requires t.cooked == s.cooked && t.cooking == s.cooking && from <= next && Loose(t, next, end, l, room)
    ensures Loose(s, from, end, l, room)
  {
    hide Crowds;
    DivMonotone(from, next, s.bs);
    if l in t.values {
      CrowdsBefore(s, t, from / s.bs, next / s.bs, l, room);
    }
  }

  lemma CrowdsBefore(s: State, t: State, a: nat, b: nat, l: nat, room: nat)
    requires t.values == s.values && t.blockList == s.blockList && t.cooked == s.cooked && t.cooking == s.cooking
    requires a <= b && exists j | b <= j < l :: Crowds(t, b, j, room)
    ensures exists j | a <= j < l :: Crowds(s, a, j, room)
  {
    var j :| b <= j < l && Crowds(t, b, j, room);
    SameMissing(s, t, b, j);
    MissingLess(s, a, b, j);
    assert Crowds(s, a, j, room);
  }

  lemma ReadyCanWrite(s: State, p: Ptr, k: nat, offset: nat, chunk: bytes)
    requires Base(s) && Ready(s, p, k) && chunk != [] && offset + |chunk| <= s.bs
    ensures CanWrite(s, p, offset, chunk) && s.mem[p].offset == k * s.bs && |s.mem[p].data| == s.bs
  {
    assert Linked(s, p) && BlockOk(s, p);
  }

  /** A written handle: flagged dirty, everything else as before. */
  lemma WrittenInv(s: State, p: Ptr, k: nat, offset: nat, chunk: bytes)
    requires Inv(s) && Ready(s, p, k) && CanWrite(s, p, offset, chunk)
    ensures Inv(WriteData(s, p, offset, chunk))
    ensures var t := WriteData(s, p, offset, chunk);
            && File(t) == Resize(Splice(File(s), k * s.bs + offset, chunk), t.size)
            && (s.size == s.length ==> t.size == t.length && File(t) == Splice(File(s), k * s.bs + offset, chunk))
  {
    WrittenSize(s, p, offset, chunk);
    WriteDataKeeps(s, p, offset, chunk);
    ReadyQuiet(WriteData(s, p, offset, chunk), p, k);
  }

  lemma TameFile(s: State, t: State)
    requires Inv(s) && Inv(t) && Tame(s, t)
    ensures File(t) == File(s)
  {
    BaseBlocks(s);
    TameSame(s, t);
    SameLogical(s, t);
  }

  lemma ReadyOffset(s: State, p: Ptr, k: nat)
    requires Base(s) && Ready(s, p, k)
    ensures s.mem[p].offset == k * s.bs && s.mem[p].id == k && |s.mem[p].data| == s.bs
  {
    assert Linked(s, p) && BlockOk(s, p);
  }

  // ---------- Deciding before the call ----------

  predicate InOrder(s: State) {
    forall x, y | x in s.blockList && y in s.blockList && Late(s, x) && Stale(s, y) :: y <= x
  }

  predicate FetchAllowed(s: State, k: nat) {
    NotTrapped(s, k) && (Unsettled(s, k) ==> InOrder(s)) && Fetchable(s, k)
  }

  /** The guard of a write looks at cached and listed blocks only. */
  predicate WriteAllowed(s: State, from: nat, end: nat, room: nat)
    requires s.bs > 0
  {
    && (forall k | k in s.blockList :: Loose(s, from, end, k, room) ==> FetchAllowed(s, k))
    && (forall k | k in s.values :: Loose(s, from, end, k, room) ==> FetchAllowed(s, k))
  }

  lemma WriteAllowedExact(s: State, from: nat, end: nat, room: nat)
    requires s.bs > 0
    ensures WriteAllowed(s, from, end, room) <==> MayWrite(s, from, end, room)
  {
    if WriteAllowed(s, from, end, room) {
      forall k: nat ensures MayWriteAt(s, from, end, k, room) {
        if k !in s.blockList && k !in s.values {
          assert !Unsettled(s, k);
        }
      }
    }
    if MayWrite(s, from, end, room) {
      forall k: nat ensures Loose(s, from, end, k, room) ==> FetchAllowed(s, k) {
        assert MayWriteAt(s, from, end, k, room);
      }
    }
  }

  predicate CommitAllowed(s: State) {
    InOrder(s) || forall y | y in s.blockList && Stale(s, y) :: y in s.values
  }

  lemma CommitAllowedExact(s: State)
    ensures CommitAllowed(s) <==> CommitSafe(s)
  {
  }

  // ---------- The picture a handle has of its file ----------

  lemma WrittenPicture(s: State, p: Ptr, k: nat, offset: nat, chunk: bytes)
    requires Inv(s) && Ready(s, p, k) && CanWrite(s, p, offset, chunk) && Inv(WriteData(s, p, offset, chunk))
    ensures var t := WriteData(s, p, offset, chunk);
            && t.length >= s.length
            && Image(t.length, File(t)) == Edited(Image(s.length, File(s)), s.bs, k * s.bs + offset, chunk)
  {
    hide Inv, Ready, CanWrite, Base, File;
    WrittenInv(s, p, k, offset, chunk);
    InvBase(s);
    CanWriteId(s, p, k, offset, chunk);
    WrittenSize(s, p, offset, chunk);
    FileLength(s);
    ReachIs(s, k, offset, chunk);
  }

  lemma FileLength(s: State)
    requires Inv(s)
    ensures |File(s)| == s.size <= s.length
  {
  }

  lemma ReachIs(s: State, k: nat, offset: nat, chunk: bytes)
    requires Inv(s) && s.bs > 0 && chunk != [] && offset + |chunk| <= s.bs
    ensures var i, e := Image(s.length, File(s)), k * s.bs + offset + |chunk|;
            Reach(s, k, Max(s.length, e)) == Accounted(i, s.bs, e)
  {
    hide Inv, File;
    FileLength(s);
    DivMod(k, offset + |chunk| - 1, s.bs);
  }

  lemma FirstBlockOf(offset: nat, bs: nat)
    requires bs > 0
    ensures offset < bs <==> offset / bs == 0
    ensures offset / bs * bs <= offset < offset / bs * bs + bs
  {
    assert offset == offset / bs * bs + offset % bs;
    if offset / bs > 0 {
      MulLe(1, offset / bs, bs);
    }
  }
}
