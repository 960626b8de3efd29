/** Exactly when getting a block for writing goes right, and what becomes of the
    write when it does not. */
module WriteLimits {
  import opened Bytes
  import opened Storage
  import opened Lists
  import opened WriteState
  import opened WriteSteps
  import opened WriteEdit
  import opened WriteCalm
  import opened WriteWait
  import opened WriteRestage
  import opened WriteFetch
  import opened WriteGuard
  import opened WriteOutgrown

  // ---------- Getting a block that is not cached ----------

  /** At most one buffer is linked for block `k`. */
  ghost predicate OneBlock(s: State, k: nat) {
    forall p, q | Linked(s, p) && Linked(s, q) && p in s.mem && q in s.mem && s.mem[p].id == k && s.mem[q].id == k :: p == q
  }

  /** What a successful commit started in `s` leaves, on a handle of `room` buffers. */
  ghost predicate CommitDone(s: State, t: State, room: nat) {
    && Inv(t) && Persisted(t) && Tame(s, t) && CachesStale(s, t, room)
    && forall j | j in t.values :: j in s.values || Stale(s, j)
  }

  /** The commit reads block `k` back if its entry is outgrown: it is the last one
      that may be, or there are buffers enough for all. */
  ghost predicate Keeps(s: State, k: nat, room: nat) {
    Roomy(s, room) || forall j: nat | Stale(s, j) :: j <= k
  }

  lemma LinkOneBlock(t: State, k: nat, p: Ptr, data: bytes)
    requires Base(t) && p !in t.mem
    ensures OneBlock(LinkNew(t, k, p, data), k) <==> k !in t.values
  {
    var u := LinkNew(t, k, p, data);
    if k in t.values {
      var q := t.values[k];
      assert ValueOk(t, k) && Linked(u, q) && Linked(u, p);
    } else {
      forall q | Linked(u, q) && q in u.mem && u.mem[q].id == k ensures q == p {
        LinkedIsMapped(t, q);
      }
    }
  }

  lemma LinkedIsMapped(s: State, p: Ptr)
    requires Base(s)
    ensures Linked(s, p) ==> p in s.mem && s.mem[p].id in s.values
  {
    assert Linked(s, p) ==> BlockOk(s, p);
  }

  /** The bytes a new buffer for block `k` gets from the blob. */
  function FromBlob(s: State, k: nat): bytes {
    var n := BlockLen(s, k);
    if 0 <= n <= s.bs then Fetch(Content(s.store), k * s.bs, n, Zeros(s.bs)) else Zeros(s.bs)
  }

  /** A block whose own entry is staged and not committed makes the caller commit
      first. The buffer it links then is a second one if and only if the commit has
      left the block cached. However many entries are outgrown, that takes one of its
      own; and it comes to that if the block is the last such one or there are
      buffers enough for all of them. */
  lemma SecondBlockIff(s: State, t: State, k: nat, p: Ptr, data: bytes, room: nat)
    requires Inv(s) && k !in s.values && NeedsCommit(s, k)
    requires CommitDone(s, t, room) && p !in t.mem
    ensures OneBlock(LinkNew(t, k, p, data), k) <==> k !in t.values
    ensures NotTrapped(s, k) ==> OneBlock(LinkNew(t, k, p, data), k)
    ensures Keeps(s, k, room) ==> (OneBlock(LinkNew(t, k, p, data), k) <==> NotTrapped(s, k))
  {
    LinkOneBlock(t, k, p, data);
  }

  /** A write inside one block that is not cached: the buffer it gets holds the
      file's bytes and is the only one if and only if the commit it needs has not
      read the block back, or else the committed bytes are in their place. The guard
      decides that before the call. A block that is cached, or has no entry, needs
      no condition. */
  lemma WriteBlockIff(s: State, t: State, k: nat, p: Ptr, room: nat)
    requires Inv(s) && k !in s.values && k in s.blockList && p !in t.mem
    requires if NeedsCommit(s, k) then CommitDone(s, t, room) else t == s && k * s.bs < |Content(s.store)|
    ensures OneBlock(LinkNew(t, k, p, FromBlob(t, k)), k) && FromBlob(t, k) == Blk(s, k) <==> k !in t.values && Fetchable(s, k)
    ensures MayFetchAt(s, k) ==> k !in t.values && Fetchable(s, k)
    ensures !NeedsCommit(s, k) || (SafeOrder(s) && Keeps(s, k, room)) ==> (k !in t.values && Fetchable(s, k) <==> MayFetchAt(s, k))
  {
    hide Inv, Base, CommitDone, OneBlock, Fetchable, Keeps;
    if NeedsCommit(s, k) {
      SecondBlockIff(s, t, k, p, FromBlob(t, k), room);
      CommittedBytes(s, t, k, room);
      StagedFetchable(s, k);
    } else {
      FetchedIff(s, k);
      InvBase(s);
      LinkOneBlock(s, k, p, FromBlob(s, k));
    }
  }

  lemma StagedFetchable(s: State, k: nat)
    requires NeedsCommit(s, k)
    ensures Fetchable(s, k)
  {
  }

  lemma FetchedIff(s: State, k: nat)
    requires Inv(s) && k !in s.values && k in s.blockList && !NeedsCommit(s, k) && k * s.bs < |Content(s.store)|
    ensures FromBlob(s, k) == Blk(s, k) <==> MayFetchAt(s, k)
  {
    InvBase(s);
    assert EntryOk(s, k);
    FetchIsStored(s, k);
  }

  lemma CommittedBytes(s: State, t: State, k: nat, room: nat)
    requires Inv(s) && k in s.blockList && CommitDone(s, t, room)
    ensures FromBlob(t, k) == Blk(s, k)
  {
    assert EntryOk(s, k) && TameAt(s, t, k);
    PersistedEntry(t, k);
    assert EntryOk(t, k) && !DirtyAt(t, k);
    FetchIsStored(t, k);
  }

  // ---------- Two buffers for one block ----------

  /** A second buffer `p` was linked for block `k` and written to, and the first
      one was evicted: the map entry has gone with it. */
  function AfterRelink(s: State, k: nat, p: Ptr, data: bytes, offset: nat, chunk: bytes): State
    requires k in s.values && s.values[k] in s.mem && p !in s.mem && offset + |chunk| <= |data|
  {
    Forget(WriteData(LinkNew(s, k, p, data), p, offset, chunk), s.values[k])
  }

  /** Until `p` is staged the handle shows the stored bytes, not the written ones. */
  lemma WriteHidden(s: State, k: nat, p: Ptr, offset: nat, chunk: bytes)
    requires Base(s) && k in s.values && p !in s.mem && offset + |chunk| <= s.bs
    requires s.values[k] in s.cooked
    ensures s.values[k] in s.mem
    ensures var t := AfterRelink(s, k, p, StoredBlk(s, k), offset, chunk);
            && p in t.cooking && p in t.mem && t.mem[p].dirty && t.mem[p].id == k && p !in t.uploads
            && t.mem[p].data == Overwrite(StoredBlk(s, k), offset, chunk)
            && k !in t.values && t.blockList == s.blockList && t.store == s.store && t.bs == s.bs && t.recorded == s.recorded
            && Blk(t, k) == StoredBlk(s, k)
            && (Blk(t, k) == t.mem[p].data <==> Overwrite(StoredBlk(s, k), offset, chunk) == StoredBlk(s, k))
  {
    assert ValueOk(s, k) && BlockOk(s, s.values[k]);
    if Linked(s, p) || InFlight(s, p) {
      InUseIsKnown(s, p);
    }
    var u := WriteData(LinkNew(s, k, p, StoredBlk(s, k)), p, offset, chunk);
    RemoveProps(u.cooking, s.values[k]);
  }

  /** Lined up and uploaded, block `p` that lies whole inside the file. */
  function Staged(t: State, p: Ptr): State
    requires p in t.mem && |t.mem[p].data| == t.bs && t.mem[p].id * t.bs + t.bs <= t.size
  {
    UploadOk(LineupUpload(t, p), p)
  }

  /** Staging `p` brings its bytes back. */
  lemma StagingShows(t: State, k: nat, p: Ptr)
    requires p in t.mem && t.mem[p].id == k && |t.mem[p].data| == t.bs && k * t.bs + t.bs <= t.size && k !in t.values
    ensures Blk(Staged(t, p), k) == t.mem[p].data
  {
    var u := LineupUpload(t, p);
    assert u.mem[p].data[..t.bs] == t.mem[p].data;
    assert Find(Staged(t, p).store, t.store.nextId) == Found(t.mem[p].data);
  }

  /** But a second write to the block before that reads the stored bytes into a
      third buffer `r`, which is staged after `p`: what the first write changed
      is gone unless the second one overwrites it or it changed nothing. */
  lemma SecondWriteWins(t: State, k: nat, p: Ptr, r: Ptr, stored: bytes, o1: nat, c1: bytes, o2: nat, c2: bytes)
    requires k !in t.values && p in t.mem && r !in t.mem && |stored| == t.bs && k * t.bs + t.bs <= t.size
    requires o1 + |c1| <= t.bs && o2 + |c2| <= t.bs
    requires t.mem[p].id == k && t.mem[p].data == Overwrite(stored, o1, c1)
    ensures var u := WriteData(LinkNew(t, k, r, stored), r, o2, c2);
            && p in u.mem && r in u.mem
            && var v := Staged(u, p);
            && r in v.mem && |v.mem[r].data| == v.bs && v.mem[r].id * v.bs + v.bs <= v.size
            && StoredBlk(Staged(v, r), k) == Overwrite(stored, o2, c2)
            && (StoredBlk(Staged(v, r), k) == Overwrite(Overwrite(stored, o1, c1), o2, c2) <==>
                forall j | o1 <= j < o1 + |c1| && !(o2 <= j < o2 + |c2|) :: c1[j - o1] == stored[j])
  {
    var u := WriteData(LinkNew(t, k, r, stored), r, o2, c2);
    var v := Staged(u, p);
    var w := Staged(v, r);
    assert v.mem[r] == u.mem[r];
    assert u.mem[r].data[..t.bs] == u.mem[r].data == Overwrite(stored, o2, c2);
    assert Find(w.store, v.store.nextId) == Found(Overwrite(stored, o2, c2));
    OverwriteTwice(stored, o1, c1, o2, c2);
  }

  lemma OverwriteTwice(stored: bytes, o1: nat, c1: bytes, o2: nat, c2: bytes)
    requires o1 + |c1| <= |stored| && o2 + |c2| <= |stored|
    ensures Overwrite(stored, o2, c2) == Overwrite(Overwrite(stored, o1, c1), o2, c2) <==>
            forall j | o1 <= j < o1 + |c1| && !(o2 <= j < o2 + |c2|) :: c1[j - o1] == stored[j]
  {
    var a, b := Overwrite(stored, o2, c2), Overwrite(Overwrite(stored, o1, c1), o2, c2);
    if a == b {
      forall j | o1 <= j < o1 + |c1| && !(o2 <= j < o2 + |c2|) ensures c1[j - o1] == stored[j] {
        assert a[j] == b[j];
      }
    }
  }

  // ---------- Uploads that run late ----------

  /** The length a worker computes agrees with the recorded one if and only if the
      file has not grown or the block was full. */
  lemma UploadLength(bs: nat, offset: nat, recorded: nat, size: nat)
    requires offset < recorded <= size
    ensures Min(bs, size - offset) == Min(bs, recorded - offset) <==> size == recorded || offset + bs <= recorded
  {
  }

  /** Once a late upload has ended, storage has more bytes for the entry than were
      recorded if and only if the block has grown since and uploads do not keep to
      the record. */
  lemma UploadLateIff(s: State, p: Ptr)
    requires Base(s) && p in s.uploads
    ensures p in s.mem && 0 <= StagedLen(s, s.mem[p].id) <= |s.mem[p].data| && s.mem[p].id in s.blockList
    ensures Late(UploadOk(s, p), s.mem[p].id) <==>
            !s.recorded && s.blockList[s.mem[p].id].size < BlockLen(s, s.mem[p].id)
  {
    StagedIsWhole(s, p);
    assert UploadIdOk(s, p) && BlockOk(s, p) && ValueOk(s, s.mem[p].id);
  }
}
