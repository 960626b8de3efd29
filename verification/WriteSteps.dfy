/** The elementary steps on a write handle. Each lemma says which parts of the
    invariant the step keeps and that no byte of the logical file moves. */
module WriteSteps {
  import opened Bytes
  import opened Storage
  import opened Lists
  import opened WriteState

  // ---------- Worker steps ----------

  /** How many bytes an upload stages: as many as the block has at that moment,
      or, where uploads keep to it, as many as were recorded. */
  function StagedLen(s: State, k: nat): int {
    if s.recorded && k in s.blockList then s.blockList[k].size else BlockLen(s, k)
  }

  /** The worker stages the block's bytes under the id drawn at lineup. */
  function UploadOk(s: State, p: Ptr): State
    requires p in s.uploads && p in s.mem
    requires 0 <= StagedLen(s, s.mem[p].id) <= |s.mem[p].data|
  {
    var b := s.mem[p];
    s.(store := Stage(s.store, s.uploads[p], b.data[..StagedLen(s, b.id)]),
       mem := s.mem[p := b.(synced := true, dirty := false, state := Token)],
       uploads := s.uploads - {p})
  }

  function UploadFailed(s: State, p: Ptr): State
    requires p in s.uploads && p in s.mem
  {
    s.(mem := s.mem[p := s.mem[p].(failed := true, state := Token)], uploads := s.uploads - {p})
  }

  /** What a ranged read of `n` bytes at `offset` leaves in the buffer: bytes
      past the end of the blob are not written. */
  function Fetch(content: bytes, offset: nat, n: nat, buffer: bytes): (r: bytes)
    requires n <= |buffer|
    ensures |r| == |buffer|
    ensures forall j | 0 <= j < |r| ::
              r[j] == if j < n && offset + j < |content| then content[offset + j] else buffer[j]
  {
    seq(|buffer|, j requires 0 <= j < |buffer| =>
      if j < n && offset + j < |content| then content[offset + j] else buffer[j])
  }

  function DownloadOk(s: State, p: Ptr): State
    requires p in s.downloads && p in s.mem
    requires 0 <= BlockLen(s, s.mem[p].id) <= |s.mem[p].data|
  {
    var b := s.mem[p];
    var data := Fetch(Content(s.store), b.id * s.bs, BlockLen(s, b.id), b.data);
    s.(mem := s.mem[p := b.(data := data, state := Token)], downloads := s.downloads - {p})
  }

  /** A failed download may have overwritten part of the buffer. */
  function DownloadFailed(s: State, p: Ptr, junk: bytes): State
    requires p in s.downloads && p in s.mem
  {
    s.(mem := s.mem[p := s.mem[p].(data := junk, failed := true, state := Token)],
       downloads := s.downloads - {p})
  }

  /** The prefix that is staged, padded back with zeros, is the whole buffer. */
  lemma StagedIsWhole(s: State, p: Ptr)
    requires Base(s) && p in s.uploads
    ensures p in s.mem && s.mem[p].id in s.blockList && |s.mem[p].data| == s.bs
    ensures var b := s.mem[p]; var n := s.blockList[b.id].size;
            && 0 < n <= StagedLen(s, b.id) <= BlockLen(s, b.id) <= s.bs
            && Resize(b.data[..StagedLen(s, b.id)], s.bs) == b.data
            && forall j | n <= j < StagedLen(s, b.id) :: b.data[j] == 0
  {
    assert UploadIdOk(s, p) && BlockOk(s, p);
    assert EntryOk(s, s.mem[p].id);
  }

  /** Everything about a block other than its own fields that `BlockOk` reads. */
  ghost predicate SameSurroundings(s: State, t: State, q: Ptr)
    requires q in s.mem
  {
    var k := s.mem[q].id;
    && t.bs == s.bs && t.size == s.size && t.recorded == s.recorded
    && (q in t.cooked <==> q in s.cooked) && (q in t.cooking <==> q in s.cooking)
    && (k in t.values <==> k in s.values) && (k in s.values ==> t.values[k] == s.values[k])
    && (k in t.blockList <==> k in s.blockList) && (k in s.blockList ==> t.blockList[k] == s.blockList[k])
    && (q in t.uploads <==> q in s.uploads) && (q in s.uploads ==> t.uploads[q] == s.uploads[q])
    && (q in t.downloads <==> q in s.downloads)
    && StoredBlk(t, k) == StoredBlk(s, k)
    && SamePlace(s, t, k)
  }

  /** Neither the content of the blob nor what the entry resolves to changes. */
  ghost predicate SamePlace(s: State, t: State, k: nat) {
    k in s.blockList ==>
      && Find(t.store, s.blockList[k].id) == Find(s.store, s.blockList[k].id)
      && (s.blockList[k].id !in s.store.staged ==> s.blockList[k].id !in t.store.staged)
      && Content(t.store) == Content(s.store)
  }

  /** What keeps the bytes of an entry where they are. */
  lemma PlaceFrame(s: State, t: State, k: nat)
    requires k in s.blockList && k in t.blockList && t.blockList[k].id == s.blockList[k].id && t.blockList[k].size == s.blockList[k].size
    requires t.bs == s.bs && t.size >= s.size && t.recorded == s.recorded
    requires SamePlace(s, t, k)
    ensures StoredBlk(t, k) == StoredBlk(s, k)
    ensures InStore(s, k) ==> InStore(t, k)
    ensures InPlace(s, k) ==> InPlace(t, k)
    ensures ReadsRight(s, k) && t.size == s.size ==> ReadsRight(t, k)
  {
  }

  lemma PlacedReadsRight(s: State, k: nat)
    requires k in s.blockList && InPlace(s, k)
    ensures ReadsRight(s, k)
  {
    forall j: nat | j < s.bs && k * s.bs + j < s.size
      ensures At(Content(s.store), k * s.bs + j) == StoredBlk(s, k)[j]
    {
      assert Slice(Content(s.store), k, s.bs)[j] == At(Content(s.store), k * s.bs + j);
    }
  }

  lemma BlockFrame(s: State, t: State, q: Ptr)
    requires BlockOk(s, q) && q in t.mem && t.mem[q] == s.mem[q] && SameSurroundings(s, t, q)
    ensures BlockOk(t, q)
  {
  }

  lemma EntryFrame(s: State, t: State, k: nat)
    requires k in s.blockList && k in t.blockList && t.blockList[k] == s.blockList[k] && EntryOk(s, k)
    requires t.bs == s.bs && t.size == s.size && t.recorded == s.recorded
    requires DirtyAt(s, k) ==> DirtyAt(t, k)
    requires SamePlace(s, t, k) && t.store.nextId >= s.store.nextId
    ensures EntryOk(t, k)
  {
  }

  lemma LinkedFacts(s: State, q: Ptr)
    requires Base(s) && Linked(s, q)
    ensures q in s.mem && s.mem[q].id in s.values && s.values[s.mem[q].id] == q && BlockOk(s, q)
  {
    assert BlockOk(s, q);
  }

  lemma CoveredFrame(s: State, t: State, m: nat)
    requires Covered(s, m) && t.bs == s.bs && t.size == s.size
    requires Fresh(s, m) ==> Fresh(t, m)
    requires m in s.blockList ==> m in t.blockList && t.blockList[m] == s.blockList[m]
    ensures Covered(t, m)
  {
  }

  lemma UploadOkStore(s: State, p: Ptr, k: nat)
    requires Base(s) && p in s.uploads
    ensures p in s.mem && 0 <= StagedLen(s, s.mem[p].id) <= |s.mem[p].data|
    ensures k in s.blockList && k != s.mem[p].id ==>
              s.blockList[k].id != s.uploads[p] && Find(UploadOk(s, p).store, s.blockList[k].id) == Find(s.store, s.blockList[k].id)
    ensures StoredBlk(UploadOk(s, p), k) == if k == s.mem[p].id then s.mem[p].data else StoredBlk(s, k)
    ensures k != s.mem[p].id ==> SamePlace(s, UploadOk(s, p), k)
  {
    assert UploadIdOk(s, p) && BlockOk(s, p);
    StagedIsWhole(s, p);
    if k in s.blockList && s.blockList[k].id == s.uploads[p] {
      assert ValueOk(s, k);
    }
  }

  lemma UploadOkBlock(s: State, p: Ptr, q: Ptr)
    requires Base(s) && p in s.uploads && Linked(s, q)
    ensures p in s.mem && 0 <= StagedLen(s, s.mem[p].id) <= |s.mem[p].data|
    ensures BlockOk(UploadOk(s, p), q)
  {
    assert UploadIdOk(s, p) && BlockOk(s, p) && BlockOk(s, q);
    UploadOkStore(s, p, s.mem[q].id);
    if q != p {
      BlockFrame(s, UploadOk(s, p), q);
    }
  }

  lemma UploadOkEntry(s: State, p: Ptr, k: nat)
    requires Base(s) && p in s.uploads && k in s.blockList
    ensures p in s.mem && 0 <= StagedLen(s, s.mem[p].id) <= |s.mem[p].data|
    ensures EntryOk(UploadOk(s, p), k)
  {
    assert UploadIdOk(s, p) && BlockOk(s, p) && EntryOk(s, k);
    assert k in s.values ==> ValueOk(s, k);
    UploadOkStore(s, p, k);
    if k != s.mem[p].id {
      EntryFrame(s, UploadOk(s, p), k);
    } else {
      StagedIsWhole(s, p);
    }
  }

  lemma UploadIdsDiffer(s: State, p: Ptr, q: Ptr)
    requires Base(s) && p in s.uploads && q in s.uploads && p != q
    ensures s.uploads[p] != s.uploads[q]
  {
    assert UploadIdOk(s, p) && UploadIdOk(s, q) && BlockOk(s, p) && BlockOk(s, q);
  }

  lemma UploadOkRest(s: State, p: Ptr)
    requires Base(s) && p in s.uploads
    ensures p in s.mem && 0 <= StagedLen(s, s.mem[p].id) <= |s.mem[p].data|
    ensures forall m: nat | IsLast(s, m) :: Covered(UploadOk(s, p), m)
    ensures IdsBelow(UploadOk(s, p).store)
    ensures forall q | q in s.uploads && q != p :: UploadIdOk(UploadOk(s, p), q)
  {
    assert UploadIdOk(s, p) && BlockOk(s, p);
    StagedIsWhole(s, p);
    assert EntryOk(s, s.mem[p].id);
    forall m: nat | IsLast(s, m) ensures Covered(UploadOk(s, p), m) {
      assert Covered(s, m);
      assert m in s.values ==> ValueOk(s, m);
    }
    forall q | q in s.uploads && q != p ensures UploadIdOk(UploadOk(s, p), q) {
      UploadIdsDiffer(s, p, q);
      assert UploadIdOk(s, q);
    }
  }

  lemma UploadOkKeeps(s: State, p: Ptr)
    requires Base(s) && p in s.uploads
    ensures p in s.mem && 0 <= StagedLen(s, s.mem[p].id) <= |s.mem[p].data|
    ensures Base(UploadOk(s, p)) && SameBlocks(s, UploadOk(s, p))
  {
    UploadOkRest(s, p);
    UploadOkSame(s, p);
    hide StoredBlk, InPlace, InStore, EntryOk;
    assert UploadIdOk(s, p) && BlockOk(s, p);
    var t := UploadOk(s, p);
    forall q | Linked(t, q) ensures BlockOk(t, q) {
      assert Linked(s, q);
      UploadOkBlock(s, p, q);
    }
    forall k | k in t.values ensures ValueOk(t, k) {
      assert ValueOk(s, k);
    }
    forall k | k in t.blockList ensures EntryOk(t, k) {
      UploadOkEntry(s, p, k);
    }
  }

  lemma UploadOkSame(s: State, p: Ptr)
    requires Base(s) && p in s.uploads
    ensures p in s.mem && 0 <= StagedLen(s, s.mem[p].id) <= |s.mem[p].data|
    ensures SameBlocks(s, UploadOk(s, p))
  {
    hide InPlace, InStore, EntryOk;
    StagedIsWhole(s, p);
    assert UploadIdOk(s, p) && BlockOk(s, p);
    forall k: nat ensures Blk(UploadOk(s, p), k) == Blk(s, k) {
      UploadOkStore(s, p, k);
      assert k in s.values ==> ValueOk(s, k);
    }
  }

  // ---------- Steps that change one block and its place in the lists ----------

  ghost predicate OnlyBlock(s: State, t: State, p: Ptr) {
    && t.bs == s.bs && t.size == s.size && t.length == s.length && t.recorded == s.recorded && t.values == s.values
    && t.blockList == s.blockList && t.store == s.store
    && Linked(s, p) && Linked(t, p)
    && p in s.mem && p in t.mem && t.mem == s.mem[p := t.mem[p]]
    && t.mem[p].id == s.mem[p].id && t.mem[p].dirty == s.mem[p].dirty
    && (t.mem[p].dirty ==> t.mem[p].data == s.mem[p].data)
    && NoDup(t.cooked) && NoDup(t.cooking)
    && (forall q | q != p :: (q in t.cooked <==> q in s.cooked) && (q in t.cooking <==> q in s.cooking))
    && (t.uploads == s.uploads || t.uploads == s.uploads - {p})
    && (t.downloads == s.downloads || t.downloads == s.downloads - {p})
  }

  lemma OnlyBlockKeeps(s: State, t: State, p: Ptr)
    requires Base(s) && OnlyBlock(s, t, p) && BlockOk(t, p)
    ensures Base(t) && SameBlocks(s, t)
  {
    hide BlockOk, EntryOk, InPlace, InStore, Covered, UploadIdOk;
    forall q | Linked(t, q) ensures BlockOk(t, q) {
      if q != p {
        LinkedFacts(s, q);
        BlockFrame(s, t, q);
      }
    }
    forall k | k in t.values ensures ValueOk(t, k) {
      assert ValueOk(s, k);
    }
    forall k | k in t.blockList ensures EntryOk(t, k) {
      EntryFrame(s, t, k);
    }
    OnlyBlockIds(s, t, p);
    forall m: nat | IsLast(t, m) ensures Covered(t, m) {
      assert IsLast(s, m);
      CoveredFrame(s, t, m);
    }
  }

  lemma OnlyBlockIds(s: State, t: State, p: Ptr)
    requires Base(s) && OnlyBlock(s, t, p)
    ensures forall q | q in t.uploads :: UploadIdOk(t, q)
  {
    forall q | q in t.uploads ensures UploadIdOk(t, q) {
      assert UploadIdOk(s, q);
    }
  }

  lemma UploadFailedKeeps(s: State, p: Ptr)
    requires Base(s) && p in s.uploads
    ensures p in s.mem
    ensures Base(UploadFailed(s, p)) && SameBlocks(s, UploadFailed(s, p))
  {
    assert UploadIdOk(s, p) && BlockOk(s, p);
    OnlyBlockKeeps(s, UploadFailed(s, p), p);
  }

  /** Downloading a committed block into a zeroed buffer yields its stored bytes
      if and only if they are in their place. */
  lemma FetchIsStored(s: State, k: nat)
    requires k in s.blockList && EntryOk(s, k) && InStore(s, k) && k * s.bs < |Content(s.store)|
    ensures 0 < BlockLen(s, k) <= s.bs
    ensures Fetch(Content(s.store), k * s.bs, BlockLen(s, k), Zeros(s.bs)) == StoredBlk(s, k) <==> ReadsRight(s, k)
  {
    hide EntryOk, InStore, ReadsRight, Content, StoredBlk, Fetch;
    StoredTail(s, k);
    FetchIs(Content(s.store), k * s.bs, BlockLen(s, k), StoredBlk(s, k));
    ReadsUpTo(s, k);
  }

  lemma ReadsUpTo(s: State, k: nat)
    requires 0 < BlockLen(s, k) && k * s.bs < |Content(s.store)|
    ensures ReadsRight(s, k) <==> forall j: nat | j < BlockLen(s, k) :: At(Content(s.store), k * s.bs + j) == StoredBlk(s, k)[j]
  {
    hide Content, StoredBlk;
  }

  lemma StoredTail(s: State, k: nat)
    requires k in s.blockList && EntryOk(s, k) && InStore(s, k)
    ensures 0 < BlockLen(s, k) <= s.bs
    ensures forall j | BlockLen(s, k) <= j < s.bs :: StoredBlk(s, k)[j] == 0
  {
  }

  lemma FetchIs(content: bytes, start: nat, n: nat, block: bytes)
    requires n <= |block| && start < |content| && forall j | n <= j < |block| :: block[j] == 0
    ensures Fetch(content, start, n, Zeros(|block|)) == block <==> forall j: nat | j < n :: At(content, start + j) == block[j]
  {
    var f := Fetch(content, start, n, Zeros(|block|));
    if f == block {
      forall j: nat | j < n ensures At(content, start + j) == block[j] {
        assert f[j] == block[j];
      }
    }
  }

  lemma DownloadOkKeeps(s: State, p: Ptr)
    requires Base(s) && p in s.downloads
    ensures p in s.mem && 0 <= BlockLen(s, s.mem[p].id) <= |s.mem[p].data|
    ensures Base(DownloadOk(s, p)) && SameBlocks(s, DownloadOk(s, p))
  {
    assert Linked(s, p) && BlockOk(s, p) && EntryOk(s, s.mem[p].id);
    PlacedReadsRight(s, s.mem[p].id);
    FetchIsStored(s, s.mem[p].id);
    OnlyBlockKeeps(s, DownloadOk(s, p), p);
  }

  lemma DownloadFailedKeeps(s: State, p: Ptr, junk: bytes)
    requires Base(s) && p in s.downloads && |junk| == s.bs
    ensures p in s.mem
    ensures Base(DownloadFailed(s, p, junk)) && SameBlocks(s, DownloadFailed(s, p, junk))
  {
    assert Linked(s, p) && BlockOk(s, p);
    OnlyBlockKeeps(s, DownloadFailed(s, p, junk), p);
  }

  // ---------- Steps of the thread holding the handle lock ----------

  /** Receive from the channel and close it; a closed channel lets pass. */
  function Drain(s: State, p: Ptr): State
    requires p in s.mem
  {
    s.(mem := s.mem[p := s.mem[p].(state := Closed)])
  }

  lemma DrainKeeps(s: State, p: Ptr)
    requires Base(s) && Linked(s, p) && p in s.mem && !s.mem[p].state.Empty?
    ensures Base(Drain(s, p)) && SameBlocks(s, Drain(s, p))
  {
    assert BlockOk(s, p);
    OnlyBlockKeeps(s, Drain(s, p), p);
  }

  function ClearTransfer(s: State, p: Ptr): State
    requires p in s.mem
  {
    s.(mem := s.mem[p := s.mem[p].(downloading := false, uploading := false)])
  }

  lemma ClearTransferKeeps(s: State, p: Ptr)
    requires Base(s) && p in s.cooked && p in s.mem && p !in s.uploads
    ensures Base(ClearTransfer(s, p)) && SameBlocks(s, ClearTransfer(s, p))
  {
    assert Linked(s, p) && BlockOk(s, p);
    OnlyBlockKeeps(s, ClearTransfer(s, p), p);
  }

  /** Move a block to the back of Cooking. */
  function Cook(s: State, p: Ptr): State {
    s.(cooked := Remove(s.cooked, p), cooking := Remove(s.cooking, p) + [p])
  }

  lemma CookKeeps(s: State, p: Ptr)
    requires Base(s) && Linked(s, p) && p !in s.uploads
    ensures Base(Cook(s, p)) && SameBlocks(s, Cook(s, p))
    ensures forall q :: (q in Cook(s, p).cooking <==> q in s.cooking || q == p)
    ensures forall q :: (q in Cook(s, p).cooked <==> q in s.cooked && q != p)
  {
    RemoveProps(s.cooked, p);
    RemoveProps(s.cooking, p);
    assert BlockOk(s, p);
    OnlyBlockKeeps(s, Cook(s, p), p);
  }

  /** Reopen a cached block for writing: all transfer marks go. */
  function Reopen(s: State, p: Ptr): State
    requires p in s.mem
  {
    s.(mem := s.mem[p := s.mem[p].(uploading := false, downloading := false, synced := false)])
  }

  lemma ReopenKeeps(s: State, p: Ptr)
    requires Base(s) && p in s.cooking && p in s.mem
    requires p !in s.downloads && !(s.mem[p].failed && !s.mem[p].dirty)
    ensures Base(Reopen(s, p)) && SameBlocks(s, Reopen(s, p))
  {
    assert Linked(s, p) && BlockOk(s, p);
    OnlyBlockKeeps(s, Reopen(s, p), p);
  }

  /** Drop a block from lists and map and give its buffer back to the pool. */
  function Forget(s: State, p: Ptr): State
    requires p in s.mem
  {
    s.(cooked := Remove(s.cooked, p), cooking := Remove(s.cooking, p),
       values := s.values - {s.mem[p].id}, mem := s.mem - {p})
  }

  lemma ForgetKeeps(s: State, p: Ptr)
    requires Base(s) && Linked(s, p) && p in s.mem
    requires p !in s.uploads && p !in s.downloads && !s.mem[p].dirty
    ensures Base(Forget(s, p)) && SameBlocks(s, Forget(s, p))
    ensures forall q :: (q in Forget(s, p).cooking <==> q in s.cooking && q != p)
    ensures forall q :: (q in Forget(s, p).cooked <==> q in s.cooked && q != p)
  {
    hide BlockOk, EntryOk, InPlace, InStore, Covered, UploadIdOk, Remove, StoredBlk;
    RemoveProps(s.cooked, p);
    RemoveProps(s.cooking, p);
    LinkedFacts(s, p);
    var t := Forget(s, p);
    forall q | Linked(t, q) ensures BlockOk(t, q) {
      ForgetBlock(s, p, q);
    }
    forall k | k in t.values ensures ValueOk(t, k) {
      assert ValueOk(s, k);
    }
    forall k | k in t.blockList ensures EntryOk(t, k) {
      assert DirtyAt(s, k) ==> ValueOk(s, k);
      EntryFrame(s, t, k);
    }
    ForgetIds(s, p);
    forall m: nat | IsLast(t, m) ensures Covered(t, m) {
      assert IsLast(s, m);
      assert DirtyAt(s, m) ==> ValueOk(s, m);
      CoveredFrame(s, t, m);
    }
    ForgetSame(s, p);
  }

  lemma ForgetBlock(s: State, p: Ptr, q: Ptr)
    requires Base(s) && Linked(s, p) && p in s.mem && Linked(Forget(s, p), q)
    ensures BlockOk(Forget(s, p), q)
  {
    hide BlockOk, EntryOk, InPlace, InStore, Covered, UploadIdOk, Remove;
    RemoveProps(s.cooked, p);
    RemoveProps(s.cooking, p);
    LinkedFacts(s, p);
    LinkedFacts(s, q);
    BlockFrame(s, Forget(s, p), q);
  }

  lemma ForgetSame(s: State, p: Ptr)
    requires Base(s) && Linked(s, p) && p in s.mem && !s.mem[p].dirty
    ensures SameBlocks(s, Forget(s, p))
  {
    LinkedFacts(s, p);
    forall k: nat ensures Blk(Forget(s, p), k) == Blk(s, k) {
      assert DirtyAt(s, k) ==> ValueOk(s, k);
    }
  }

  lemma ForgetIds(s: State, p: Ptr)
    requires Base(s) && Linked(s, p) && p in s.mem && p !in s.uploads
    ensures forall q | q in Forget(s, p).uploads :: UploadIdOk(Forget(s, p), q)
  {
    RemoveProps(s.cooked, p);
    RemoveProps(s.cooking, p);
    LinkedFacts(s, p);
    forall q | q in s.uploads ensures UploadIdOk(Forget(s, p), q) {
      assert UploadIdOk(s, q) && BlockOk(s, q);
    }
  }

  // ---------- Scheduling an upload ----------

  /** Record the entry under a new id with the length the block has now, renew
      the channel, move the block to Cooked and hand the work item over. */
  function LineupUpload(s: State, p: Ptr): State
    requires p in s.mem && 0 <= BlockLen(s, s.mem[p].id)
  {
    var b := s.mem[p];
    var id := s.store.nextId;
    s.(store := s.store.(nextId := id + 1),
       blockList := s.blockList[b.id := BlockInfo(id, false, BlockLen(s, b.id))],
       mem := s.mem[p := b.(state := Empty, failed := false, uploading := true)],
       cooked := Remove(s.cooked, p) + [p], cooking := Remove(s.cooking, p),
       uploads := s.uploads[p := id])
  }

  ghost predicate CanLineup(s: State, p: Ptr) {
    p in s.cooking && p in s.mem && p !in s.uploads && s.mem[p].dirty
  }

  lemma LineupBlock(s: State, p: Ptr, q: Ptr)
    requires Base(s) && CanLineup(s, p)
    ensures 0 < BlockLen(s, s.mem[p].id)
    ensures Linked(LineupUpload(s, p), q) ==> BlockOk(LineupUpload(s, p), q)
    ensures forall r :: (r in LineupUpload(s, p).cooking <==> r in s.cooking && r != p)
    ensures forall r :: (r in LineupUpload(s, p).cooked <==> r in s.cooked || r == p)
    ensures NoDup(LineupUpload(s, p).cooked) && NoDup(LineupUpload(s, p).cooking)
  {
    RemoveProps(s.cooked, p);
    RemoveProps(s.cooking, p);
    LineupSelf(s, p);
    LinkedFacts(s, p);
    hide BlockOk, InPlace, InStore;
    var t := LineupUpload(s, p);
    if Linked(t, q) && q != p {
      assert Linked(s, q);
      LinkedFacts(s, q);
      BlockFrame(s, t, q);
    }
  }

  lemma LineupSelf(s: State, p: Ptr)
    requires Base(s) && CanLineup(s, p)
    ensures 0 < BlockLen(s, s.mem[p].id)
    ensures BlockOk(LineupUpload(s, p), p)
  {
    RemoveProps(s.cooked, p);
    RemoveProps(s.cooking, p);
    assert Linked(s, p) && BlockOk(s, p);
  }

  lemma LineupIds(s: State, p: Ptr)
    requires Base(s) && CanLineup(s, p) && 0 < BlockLen(s, s.mem[p].id)
    requires NoDup(s.cooked) && NoDup(s.cooking)
    ensures SharedIds(LineupUpload(s, p).blockList, s.bs)
    ensures forall q | q in LineupUpload(s, p).uploads :: UploadIdOk(LineupUpload(s, p), q)
  {
    RemoveProps(s.cooked, p);
    RemoveProps(s.cooking, p);
    assert Linked(s, p) && BlockOk(s, p) && ValueOk(s, s.mem[p].id);
    var t := LineupUpload(s, p);
    FreshIsMissing(s.store, s.store.nextId);
    forall k | k in s.blockList ensures s.blockList[k].id < s.store.nextId {
      assert EntryOk(s, k);
    }
    forall q | q in t.uploads ensures UploadIdOk(t, q) {
      if q != p {
        assert UploadIdOk(s, q) && BlockOk(s, q);
      }
    }
  }

  lemma LineupEntry(s: State, p: Ptr, k: nat)
    requires Base(s) && CanLineup(s, p) && 0 < BlockLen(s, s.mem[p].id)
    requires k in LineupUpload(s, p).blockList
    ensures EntryOk(LineupUpload(s, p), k)
  {
    assert Linked(s, p) && BlockOk(s, p);
    var t := LineupUpload(s, p);
    if k != s.mem[p].id {
      assert EntryOk(s, k);
      EntryFrame(s, t, k);
    }
  }

  lemma LineupCovered(s: State, p: Ptr, m: nat)
    requires Base(s) && CanLineup(s, p) && 0 < BlockLen(s, s.mem[p].id)
    requires IsLast(LineupUpload(s, p), m)
    ensures Covered(LineupUpload(s, p), m)
  {
    assert IsLast(s, m) && Covered(s, m);
    assert Linked(s, p) && BlockOk(s, p);
    assert m in s.values ==> ValueOk(s, m);
  }

  lemma LineupSame(s: State, p: Ptr)
    requires Base(s) && CanLineup(s, p) && 0 < BlockLen(s, s.mem[p].id)
    ensures SameBlocks(s, LineupUpload(s, p))
  {
    assert Linked(s, p) && BlockOk(s, p);
  }

  lemma LineupLength(s: State, p: Ptr)
    requires Base(s) && CanLineup(s, p)
    ensures 0 < BlockLen(s, s.mem[p].id) == Min(s.bs, s.length - s.mem[p].offset)
  {
    assert Linked(s, p) && BlockOk(s, p);
    SpanLen(s, s.mem[p].id);
  }

  lemma LineupKeeps(s: State, p: Ptr)
    requires Base(s) && CanLineup(s, p)
    ensures 0 < BlockLen(s, s.mem[p].id)
    ensures Base(LineupUpload(s, p)) && SameBlocks(s, LineupUpload(s, p))
    ensures forall r :: (r in LineupUpload(s, p).cooking <==> r in s.cooking && r != p)
    ensures forall r :: (r in LineupUpload(s, p).cooked <==> r in s.cooked || r == p)
  {
    LineupBlock(s, p, p);
    LineupIds(s, p);
    LineupSame(s, p);
    var t := LineupUpload(s, p);
    forall q | Linked(t, q) ensures BlockOk(t, q) {
      LineupBlock(s, p, q);
    }
    forall k | k in t.values ensures ValueOk(t, k) {
      assert ValueOk(s, k);
    }
    forall k | k in t.blockList ensures EntryOk(t, k) {
      LineupEntry(s, p, k);
    }
    forall m: nat | IsLast(t, m) ensures Covered(t, m) {
      LineupCovered(s, p, m);
    }
  }

  // ---------- A block for an index that is not cached ----------

  /** Link a buffer for block `k`: at the back of Cooking, in the map, open to all. */
  function LinkNew(s: State, k: nat, p: Ptr, data: bytes): State {
    s.(cooking := s.cooking + [p], values := s.values[k := p],
       mem := s.mem[p := Block(k, k * s.bs, Closed, false, false, false, false, false, data)])
  }

  lemma LinkNewBlock(s: State, k: nat, p: Ptr, data: bytes, q: Ptr)
    requires Base(s) && k < MAX_BLOCKS && k !in s.values
    requires p !in s.mem && !Linked(s, p) && p !in s.uploads && p !in s.downloads
    requires data == StoredBlk(s, k)
    requires Linked(LinkNew(s, k, p, data), q)
    ensures BlockOk(LinkNew(s, k, p, data), q)
  {
    if q != p {
      assert Linked(s, q) && BlockOk(s, q);
      BlockFrame(s, LinkNew(s, k, p, data), q);
    }
  }

  lemma LinkNewEntry(s: State, k: nat, p: Ptr, data: bytes, i: nat)
    requires Base(s) && p !in s.mem && k !in s.values && i in s.blockList
    ensures EntryOk(LinkNew(s, k, p, data), i)
  {
    assert EntryOk(s, i);
    EntryFrame(s, LinkNew(s, k, p, data), i);
  }

  lemma LinkNewSame(s: State, k: nat, p: Ptr, data: bytes)
    requires Base(s) && k !in s.values && p !in s.mem
    ensures SameBlocks(s, LinkNew(s, k, p, data))
  {
    hide BlockOk, EntryOk, InPlace, InStore, Covered;
    forall i: nat ensures Blk(LinkNew(s, k, p, data), i) == Blk(s, i) {
      assert i in s.values ==> ValueOk(s, i);
    }
  }

  lemma LinkNewKeeps(s: State, k: nat, p: Ptr, data: bytes)
    requires Base(s) && k < MAX_BLOCKS && k !in s.values
    requires p !in s.mem && !Linked(s, p) && p !in s.uploads && p !in s.downloads
    requires data == StoredBlk(s, k)
    ensures Base(LinkNew(s, k, p, data)) && SameBlocks(s, LinkNew(s, k, p, data))
  {
    hide BlockOk, EntryOk, InPlace, InStore, Covered, StoredBlk;
    var t := LinkNew(s, k, p, data);
    LinkNewSame(s, k, p, data);
    forall q | Linked(t, q) ensures BlockOk(t, q) {
      LinkNewBlock(s, k, p, data, q);
    }
    forall i | i in t.values ensures ValueOk(t, i) {
      if i != k {
        assert ValueOk(s, i);
      }
    }
    forall i | i in t.blockList ensures EntryOk(t, i) {
      LinkNewEntry(s, k, p, data, i);
    }
    forall q | q in t.uploads ensures UploadIdOk(t, q) {
      assert UploadIdOk(s, q);
    }
    forall m: nat | IsLast(t, m) ensures Covered(t, m) {
      assert IsLast(s, m);
      CoveredFrame(s, t, m);
    }
  }

  // ---------- Modifying a block ----------

  /** Mark an unmodified cached block as modified without changing a byte. */
  function MarkDirty(s: State, p: Ptr): State
    requires p in s.mem
  {
    s.(mem := s.mem[p := s.mem[p].(dirty := true)])
  }

  lemma MarkDirtyKeeps(s: State, p: Ptr)
    requires Base(s) && p in s.cooking && p in s.mem && p !in s.uploads && p !in s.downloads
    requires var b := s.mem[p]; !b.downloading && !b.synced && b.id * s.bs < s.size
    ensures Base(MarkDirty(s, p)) && SameBlocks(s, MarkDirty(s, p))
  {
    hide BlockOk, EntryOk, InPlace, InStore, Covered, UploadIdOk;
    assert Linked(s, p);
    LinkedFacts(s, p);
    var t := MarkDirty(s, p);
    MarkDirtySelf(s, p);
    forall q | Linked(t, q) ensures BlockOk(t, q) {
      assert Linked(s, q);
      LinkedFacts(s, q);
      if q != p {
        BlockFrame(s, t, q);
      }
    }
    forall i | i in t.values ensures ValueOk(t, i) {
      assert ValueOk(s, i);
    }
    forall i | i in t.blockList ensures EntryOk(t, i) {
      EntryFrame(s, t, i);
    }
    MarkDirtyIds(s, p);
    forall m: nat | IsLast(t, m) ensures Covered(t, m) {
      assert IsLast(s, m);
      CoveredFrame(s, t, m);
    }
  }

  lemma MarkDirtySelf(s: State, p: Ptr)
    requires Base(s) && p in s.cooking && p in s.mem && p !in s.uploads && p !in s.downloads
    requires var b := s.mem[p]; !b.downloading && !b.synced && b.id * s.bs < s.size
    ensures BlockOk(MarkDirty(s, p), p)
    ensures forall k: nat :: Blk(MarkDirty(s, p), k) == Blk(s, k)
  {
    assert Linked(s, p) && BlockOk(s, p);
    var t := MarkDirty(s, p);
    var k0 := s.mem[p].id;
    assert !s.mem[p].dirty && k0 in s.blockList ==> EntryOk(s, k0);
    assert !s.mem[p].dirty ==> s.mem[p].data == StoredBlk(s, k0);
    assert TailZero(t, t.mem[p]);
    forall k: nat ensures Blk(t, k) == Blk(s, k) {
      assert k in s.values ==> ValueOk(s, k);
    }
  }

  lemma MarkDirtyIds(s: State, p: Ptr)
    requires Base(s) && p in s.mem
    ensures forall q | q in s.uploads :: UploadIdOk(MarkDirty(s, p), q)
  {
    forall q | q in s.uploads ensures UploadIdOk(MarkDirty(s, p), q) {
      assert UploadIdOk(s, q);
    }
  }
}
