/** The state of one write handle of the block cache, its invariant, and the
    elementary steps: what a worker does when a transfer ends, and what the
    thread holding the handle lock does between two waits.

    A buffer of the block pool is named by a pointer `Ptr`; `mem` maps the
    pointer to the fields of the block, so list nodes, map entries and work
    items alias the same block exactly as the program's pointers do. */
module WriteState {
  import opened Bytes
  import opened Storage
  import opened Lists

  const MIN_WRITE_BLOCK: nat := 3

  /** The one-slot channel of a block: open and empty while a transfer is
      pending, holding a status once it ended, closed once readers may pass. */
  datatype Chan = Empty | Token | Closed

  datatype Block = Block(
    id: nat, offset: nat, state: Chan,
    downloading: bool, uploading: bool, dirty: bool, synced: bool, failed: bool,
    data: bytes)

  datatype BlockInfo = BlockInfo(id: Id, committed: bool, size: nat)

  /** `recorded` says that an upload stages as many bytes as were recorded when
      it was lined up; the program takes the length the block has when the upload
      runs instead. `length` is the size the handle records, `size` the end of the
      file as far as the handle accounts for it. The two are the same, except that a
      handle opened write-only on a stored blob accounts for nothing at first. */
  datatype State = State(
    bs: nat,
    recorded: bool,
    length: nat,
    size: nat,
    handleDirty: bool,
    cooked: seq<Ptr>,
    cooking: seq<Ptr>,
    values: map<nat, Ptr>,
    blockList: map<nat, BlockInfo>,
    mem: map<Ptr, Block>,
    uploads: map<Ptr, Id>,
    downloads: set<Ptr>,
    store: Store)

  // ---------- The logical file ----------

  /** Bytes of block `k` that lie inside the file; negative past the end. */
  function BlockLen(s: State, k: nat): int {
    Min(s.bs, s.size - k * s.bs)
  }

  predicate DirtyAt(s: State, k: nat) {
    k in s.values && s.values[k] in s.mem && s.mem[s.values[k]].dirty
  }

  /** What storage holds for block `k` according to the handle's block list. */
  function StoredBlk(s: State, k: nat): (r: bytes)
    ensures |r| == s.bs
  {
    if k in s.blockList && Find(s.store, s.blockList[k].id).Found?
    then Resize(Find(s.store, s.blockList[k].id).data, s.bs)
    else Zeros(s.bs)
  }

  /** Block `k` of the file as a reader of this handle must see it. */
  function Blk(s: State, k: nat): bytes {
    if DirtyAt(s, k) then s.mem[s.values[k]].data else StoredBlk(s, k)
  }

  ghost predicate Blocks(s: State) {
    s.bs > 0 && forall k :: |Blk(s, k)| == s.bs
  }

  /** The file: cached modified data, else stored data, else zeros, cut at the size. */
  ghost function Logical(s: State): bytes
    requires Blocks(s)
  {
    seq(s.size, p requires 0 <= p < s.size => Blk(s, p / s.bs)[p % s.bs])
  }

  ghost predicate SameBlocks(s: State, t: State) {
    && t.bs == s.bs
    && t.size == s.size
    && forall k :: Blk(t, k) == Blk(s, k)
  }

  lemma SameLogical(s: State, t: State)
    requires Blocks(s) && SameBlocks(s, t)
    ensures Blocks(t) && Logical(t) == Logical(s)
  {
  }

  // ---------- Invariant ----------

  predicate Linked(s: State, p: Ptr) {
    p in s.cooked || p in s.cooking
  }

  ghost predicate InFlight(s: State, p: Ptr) {
    p in s.uploads || p in s.downloads
  }

  /** Block `m` holds the last byte of the file. */
  predicate IsLast(s: State, m: nat) {
    m * s.bs < s.size <= m * s.bs + s.bs
  }

  /** Modified, and not being uploaded. */
  predicate Fresh(s: State, k: nat) {
    DirtyAt(s, k) && s.values[k] !in s.uploads
  }

  /** Block `m` is still to be staged, or its entry reaches the end of the file. */
  predicate Covered(s: State, m: nat) {
    Fresh(s, m) || (m in s.blockList && m * s.bs + s.blockList[m].size == s.size)
  }

  /** Bytes [k*bs, (k+1)*bs) of the committed blob, zero past its end. */
  function Slice(content: bytes, k: nat, bs: nat): (r: bytes)
    ensures |r| == bs
    ensures forall j | 0 <= j < bs :: r[j] == At(content, k * bs + j)
  {
    seq(bs, j requires 0 <= j < bs => At(content, k * bs + j))
  }

  /** The entry resolves to its bytes, perhaps followed by zeros: an upload that
      ran after the file had grown staged more than was recorded. */
  predicate InStore(s: State, k: nat)
    requires k in s.blockList
  {
    var f, n := Find(s.store, s.blockList[k].id), s.blockList[k].size;
    && f.Found? && n <= |f.data| <= BlockLen(s, k)
    && (forall j | n <= j < |f.data| :: f.data[j] == 0)
    && (s.recorded ==> |f.data| == n)
  }

  predicate InPlace(s: State, k: nat)
    requires k in s.blockList
  {
    && InStore(s, k)
    && s.blockList[k].id !in s.store.staged
    && k * s.bs < |Content(s.store)|
    && Slice(Content(s.store), k, s.bs) == StoredBlk(s, k)
  }

  /** An entry of the block list: its size is inside the file, and it resolves to
      its bytes unless the cached block is newer. If uploads keep to what was
      recorded, the bytes of a committed entry are at their place in the blob. */
  ghost predicate EntryOk(s: State, k: nat)
    requires k in s.blockList
  {
    var e := s.blockList[k];
    && k < MAX_BLOCKS
    && 0 < e.size <= s.bs
    && k * s.bs + e.size <= s.size
    && e.id < s.store.nextId
    && (!DirtyAt(s, k) || e.committed ==> InStore(s, k))
    && (e.committed ==> e.id !in s.store.staged)
    && (e.committed && s.recorded ==> InPlace(s, k))
  }

  /** The bytes of block `k` inside the file are at its place in the blob. */
  predicate ReadsRight(s: State, k: nat) {
    && k * s.bs < |Content(s.store)|
    && forall j: nat | j < s.bs && k * s.bs + j < s.size :: At(Content(s.store), k * s.bs + j) == StoredBlk(s, k)[j]
  }

  /** Reading the block back from the blob yields the bytes of its entry. */
  predicate Fetchable(s: State, k: nat) {
    k in s.blockList && s.blockList[k].committed && !DirtyAt(s, k) ==> ReadsRight(s, k)
  }

  /** Bytes of a modified block past the end of the file are zero. */
  ghost predicate TailZero(s: State, b: Block) {
    && b.id * s.bs < s.size
    && forall j | 0 <= j < |b.data| && s.size <= b.id * s.bs + j :: b.data[j] == 0
  }

  /** Place, flags, channel and work item of a linked block agree. In particular
      an open, empty channel has a work item that will fill it. */
  ghost predicate BlockOk(s: State, p: Ptr) {
    && p in s.mem
    && var b := s.mem[p];
    && b.id < MAX_BLOCKS && b.offset == b.id * s.bs && |b.data| == s.bs
    && b.id in s.values && s.values[b.id] == p
    && !(p in s.cooked && p in s.cooking)
    && (b.state.Empty? <==> p in s.uploads || p in s.downloads)
    && (b.dirty ==> !b.downloading && !b.synced && TailZero(s, b))
    && (b.synced ==> !b.failed)
    && (b.failed && !b.dirty ==> b.downloading)
    && (p in s.cooked ==> !b.downloading && (b.dirty ==> p in s.uploads || b.failed))
    && (p in s.uploads ==> UploadOf(s, p))
    && (p in s.downloads ==> DownloadOf(s, p))
    && (!b.dirty && !b.failed && p !in s.downloads ==> b.data == StoredBlk(s, b.id))
  }

  /** A pending upload and the entry it will fulfil; the block has not been
      touched since, so it is zero behind the recorded length. */
  ghost predicate UploadOf(s: State, p: Ptr)
    requires p in s.mem
  {
    && p in s.uploads && p in s.cooked
    && var b := s.mem[p];
    && b.dirty && b.uploading && !b.failed
    && b.id in s.blockList
    && s.blockList[b.id] == BlockInfo(s.uploads[p], false, s.blockList[b.id].size)
    && forall j | s.blockList[b.id].size <= j < |b.data| :: b.data[j] == 0
  }

  ghost predicate DownloadOf(s: State, p: Ptr)
    requires p in s.mem
  {
    && p in s.downloads && p in s.cooking
    && var b := s.mem[p];
    && !b.dirty && b.downloading && !b.failed && !b.synced
    && b.data == Zeros(s.bs)
    && b.id == 0 && b.id in s.blockList && s.blockList[b.id].committed && InPlace(s, b.id)
  }

  /** The id of a pending upload is known to nobody else yet. */
  ghost predicate UploadIdOk(s: State, p: Ptr)
    requires p in s.uploads
  {
    && Linked(s, p)
    && Find(s.store, s.uploads[p]).Missing?
    && forall k | k in s.blockList && s.blockList[k].id == s.uploads[p] :: k in s.values && s.values[k] == p
  }

  ghost predicate ValueOk(s: State, k: nat)
    requires k in s.values
  {
    Linked(s, s.values[k]) && s.values[k] in s.mem && s.mem[s.values[k]].id == k
  }

  /** Only zero blocks, which are full, share an id. */
  ghost predicate SharedIds(m: map<nat, BlockInfo>, bs: nat) {
    forall k, l | k in m && l in m && k != l && m[k].id == m[l].id :: m[k].size == bs
  }

  /** What lies beyond the accounted size starts at a block. */
  predicate Span(s: State)
    requires s.bs > 0
  {
    s.size == s.length || (s.size < s.length && s.size % s.bs == 0)
  }

  /** The block's length may be computed from either size. */
  lemma SpanLen(s: State, k: nat)
    requires s.bs > 0 && Span(s) && k * s.bs < s.size
    ensures Min(s.bs, s.length - k * s.bs) == BlockLen(s, k) > 0
  {
    if s.size != s.length {
      var q := s.size / s.bs;
      assert s.size == q * s.bs;
      if q <= k {
        MulLe(q, k, s.bs);
      }
      MulLe(k + 1, q, s.bs);
      assert (k + 1) * s.bs == k * s.bs + s.bs;
    }
  }

  ghost predicate Base(s: State) {
    && s.bs > 0 && Span(s)
    && NoDup(s.cooked) && NoDup(s.cooking)
    && (forall p {:trigger BlockOk(s, p)} | Linked(s, p) :: BlockOk(s, p))
    && (forall k {:trigger ValueOk(s, k)} | k in s.values :: ValueOk(s, k))
    && (forall k {:trigger EntryOk(s, k)} | k in s.blockList :: EntryOk(s, k))
    && (forall p {:trigger UploadIdOk(s, p)} | p in s.uploads :: UploadIdOk(s, p))
    && (forall p | p in s.downloads :: Linked(s, p))
    && SharedIds(s.blockList, s.bs)
    && (forall m: nat {:trigger Covered(s, m)} | IsLast(s, m) :: Covered(s, m))
    && IdsBelow(s.store)
  }

  lemma BaseBlocks(s: State)
    requires Base(s)
    ensures Blocks(s)
  {
    forall k: nat ensures |Blk(s, k)| == s.bs {
      if DirtyAt(s, k) {
        assert ValueOk(s, k) && BlockOk(s, s.values[k]);
      }
    }
  }

  /** An entry recorded with fewer bytes than the block has by now, and no newer
      version to be staged: the file has grown since it was lined up. */
  predicate Stale(s: State, k: nat) {
    k in s.blockList && s.blockList[k].size < BlockLen(s, k) && !Fresh(s, k)
  }

  /** Storage has, or is about to get, more bytes for the entry than recorded. */
  predicate Late(s: State, k: nat) {
    && !s.recorded && Stale(s, k)
    && (DirtyAt(s, k) ||
        (Find(s.store, s.blockList[k].id).Found? && |Find(s.store, s.blockList[k].id).data| > s.blockList[k].size))
  }

  /** Every outgrown entry comes no later in the file than each one of those. */
  ghost predicate SafeOrder(s: State) {
    forall x: nat, y: nat {:trigger Late(s, x), Stale(s, y)} | Late(s, x) && Stale(s, y) :: y <= x
  }

  /** A commit will read every outgrown block it has to restage from its place,
      or has them all in the cache. */
  ghost predicate CommitSafe(s: State) {
    SafeOrder(s) || forall y: nat | Stale(s, y) :: y in s.values
  }

  /** When nothing but pending downloads is left in Cooking, nothing modified
      and no upload is left in Cooked: commit may skip its staging passes. */
  ghost predicate Quiet(s: State) {
    (forall p | p in s.cooking && p in s.mem :: s.mem[p].downloading) ==>
      s.uploads == map[] && forall p | p in s.cooked && p in s.mem :: !s.mem[p].dirty
  }

  ghost predicate NothingDirty(s: State) {
    forall k: nat :: !DirtyAt(s, k)
  }

  ghost predicate AllCommitted(s: State) {
    forall k | k in s.blockList :: s.blockList[k].committed
  }

  /** Opened write-only, and nothing has been written yet. */
  predicate Untouched(s: State) {
    !s.handleDirty && s.blockList == map[] && s.size < s.length
  }

  /** A handle not flagged dirty has nothing left to persist. */
  ghost predicate CleanHandle(s: State)
    requires Blocks(s)
  {
    !s.handleDirty ==> NothingDirty(s) && AllCommitted(s) && (Content(s.store) == Logical(s) || Untouched(s))
  }

  ghost predicate Inv(s: State) {
    Base(s) && Quiet(s) && (BaseBlocks(s); CleanHandle(s))
  }

  /** The file as this handle shows it. */
  ghost function File(s: State): bytes
    requires Inv(s)
  {
    BaseBlocks(s);
    Logical(s)
  }

  lemma PositiveSize(s: State)
    requires Base(s)
    ensures s.bs > 0
  {
  }

  lemma BaseNoDup(s: State)
    requires Base(s)
    ensures NoDup(s.cooked) && NoDup(s.cooking)
  {
  }
}
