/** Blobs as storage keeps them, and what holds of a block list while it is
    edited, staged and committed. */
module BlobBlocks {
  import opened Bytes
  import opened Storage
  import opened BlockList

  const MAX_STAGE_BLOCK_BYTES: nat := 4194304000
  const MAX_UPLOAD_BLOB_BYTES: nat := 268435456
  const DEFAULT_BLOCK_SIZE: nat := 16777216

  datatype Status = Ok | Failed(error: Error)

  datatype Error =
    | TransferFailed
    | BlockLimit
    | NoBlocksToRemove
    | Inconsistent
    | TruncateBufferTooSmall
    | DivisionByZero
    | Unspecified

  // ---------- Blobs in storage ----------

  /** Blocks are never empty, an id stands for one content, and no staged block
      waits under the id of a committed one. */
  ghost predicate ValidBlob(st: Store) {
    && IdsBelow(st)
    && (forall i | 0 <= i < |st.committed| ::
          |st.committed[i].data| > 0 && Find(st, st.committed[i].id) == Found(st.committed[i].data))
    && (st.committed != [] ==> st.flat == [])
  }

  ghost predicate DistinctIds(l: seq<Stored>) {
    forall i, j | 0 <= i < j < |l| :: l[i].id != l[j].id
  }

  /** The old blocks keep their ids and places. */
  ghost predicate KeepsIds(a: seq<Stored>, b: seq<Stored>) {
    |a| <= |b| && forall i | 0 <= i < |a| :: b[i].id == a[i].id
  }

  /** The list read from storage: one unmarked block per stored one. */
  ghost predicate Mirrors(bl: seq<Block>, l: seq<Stored>) {
    && |bl| == |l| && Contiguous(bl)
    && forall i | 0 <= i < |bl| ::
         bl[i].id == l[i].id && bl[i].end - bl[i].start == |l[i].data| && !bl[i].dirty && !bl[i].truncated
  }

  lemma MirrorsContent(bl: seq<Block>, st: Store)
    requires Mirrors(bl, st.committed) && bl != []
    ensures |Content(st)| == Total(bl)
    ensures forall i | 0 <= i < |bl| ::
              bl[i].end <= Total(bl) && Content(st)[bl[i].start..bl[i].end] == st.committed[i].data
  {
    ConcatBlocks(bl, st.committed, |bl|);
    assert st.committed[..|bl|] == st.committed && bl[..|bl|] == bl;
  }

  /** A committed list whose blocks are slices of `target` makes `target` the content. */
  lemma CommittedContent(bl: seq<Block>, l: seq<Stored>, target: bytes)
    requires Contiguous(bl) && Describes(bl, l) && |target| == Total(bl)
    requires forall i | 0 <= i < |bl| :: bl[i].end <= |target| && l[i].data == target[bl[i].start..bl[i].end]
    ensures Concat(l) == target
  {
    ConcatBlocks(bl, l, |bl|);
    assert l[..|bl|] == l && bl[..|bl|] == bl;
    EqualBlocks(bl, Concat(l), target);
  }

  function CeilDiv(a: nat, b: nat): (r: nat)
    requires b > 0
    ensures a <= r * b < a + b
  {
    CeilDivBound(a, b);
    (a + b - 1) / b
  }

  lemma CeilDivBound(a: nat, b: nat)
    requires b > 0
    ensures a <= (a + b - 1) / b * b < a + b
  {
  }

  // ---------- Growing a list ----------

  /** `grown` is `bl` followed by empty new blocks up to `end`: marked to be staged
      as zeros, `size` bytes each but for the last, under ids from `first` on. */
  ghost predicate Extends(bl: seq<Block>, grown: seq<Block>, end: nat, size: nat, first: Id, next: Id) {
    && |bl| <= |grown| && grown[..|bl|] == bl
    && Contiguous(grown) && Total(grown) == Max(Total(bl), end)
    && NewBlocks(grown, |bl|, size, first, next)
    && (|grown| - |bl|) * size < Max(end - Total(bl), 0) + size
  }

  /** The blocks from position `n` on are zero blocks under ids of their own. */
  ghost predicate NewBlocks(bl: seq<Block>, n: nat, size: nat, first: Id, next: Id) {
    && (forall i | n <= i < |bl| ::
          && bl[i].dirty && bl[i].truncated && first <= bl[i].id < next
          && bl[i].end - bl[i].start <= size
          && (i < |bl| - 1 ==> bl[i].end - bl[i].start == size))
    && (forall i, j | n <= i < j < |bl| :: bl[i].id < bl[j].id)
  }

  /** The appended blocks are all full, so there is room for one more. */
  ghost predicate Full(bl: seq<Block>, grown: seq<Block>, size: nat) {
    && |bl| <= |grown|
    && FullBlocks(grown, |bl|, size)
    && (|grown| - |bl|) * size == Total(grown) - Total(bl)
  }

  ghost predicate FullBlocks(bl: seq<Block>, n: nat, size: nat) {
    forall i | n <= i < |bl| :: bl[i].end - bl[i].start == size
  }

  lemma NewBlocksStep(bl: seq<Block>, n: nat, size: nat, first: Id, next: Id, b: Block)
    requires n <= |bl| && NewBlocks(bl, n, size, first, next) && FullBlocks(bl, n, size)
    requires b.dirty && b.truncated && b.id == next >= first && b.end - b.start <= size
    ensures NewBlocks(bl + [b], n, size, first, next + 1)
    ensures b.end - b.start == size ==> FullBlocks(bl + [b], n, size)
  {
  }

  lemma ExtendsNone(bl: seq<Block>, size: nat, next: Id)
    requires Contiguous(bl) && size > 0
    ensures Extends(bl, bl, Total(bl), size, next, next) && Full(bl, bl, size)
    ensures forall end: nat | end <= Total(bl) :: Extends(bl, bl, end, size, next, next)
  {
  }

  lemma ExtendsStep(bl: seq<Block>, was: seq<Block>, i: nat, j: nat, size: nat, first: Id, next: Id)
    requires Extends(bl, was, i, size, first, next) && Full(bl, was, size)
    requires Total(was) == i < j <= i + size && first <= next
    ensures var now := was + [Block(next, i, j, true, true, [])];
            Extends(bl, now, j, size, first, next + 1) && (j == i + size ==> Full(bl, now, size))
  {
    hide Contiguous, NewBlocks, FullBlocks, Total;
    var b := Block(next, i, j, true, true, []);
    var now := was + [b];
    ContiguousAppend(was, b);
    NewBlocksStep(was, |bl|, size, first, next, b);
    assert now[..|bl|] == was[..|bl|];
    OneMore(|was| - |bl|, size);
  }

  lemma OneMore(n: nat, size: nat)
    ensures (n + 1) * size == n * size + size
  {
  }

  /** A quotient rounded up is unique. */
  lemma SameQuotient(need: nat, a: nat, b: nat, size: nat)
    requires need <= a * size < need + size && need <= b * size < need + size
    ensures a == b
  {
    assert (a - b) * size == a * size - b * size;
    if a != b {
      NonZeroMultiple(a - b, size);
    }
  }

  lemma ContiguousAppend(bl: seq<Block>, b: Block)
    requires Contiguous(bl) && b.start == Total(bl) < b.end
    ensures Contiguous(bl + [b]) && Total(bl + [b]) == b.end
  {
  }

  lemma TotalStep(bl: seq<Block>, n: nat)
    requires Contiguous(bl) && 0 < n <= |bl|
    ensures Total(bl[..n]) == Total(bl[..n - 1]) + (bl[n - 1].end - bl[n - 1].start)
  {
  }

  lemma {:induction false} ExtendsReach(bl: seq<Block>, grown: seq<Block>, end: nat, size: nat, first: Id, next: Id, n: nat)
    requires Extends(bl, grown, end, size, first, next) && |bl| <= n <= |grown|
    ensures Total(grown[..n]) <= Total(bl) + (n - |bl|) * size
  {
    hide Contiguous;
    if n > |bl| {
      ExtendsReach(bl, grown, end, size, first, next, n - 1);
      OneMore(n - 1 - |bl|, size);
      TotalStep(grown, n);
    }
  }

  /** Appending this way uses exactly the number of blocks the division says. */
  lemma ExtendsExact(bl: seq<Block>, grown: seq<Block>, end: nat, size: nat, first: Id, next: Id)
    requires Extends(bl, grown, end, size, first, next) && size > 0
    ensures |grown| == |bl| + CeilDiv(Max(end - Total(bl), 0), size)
  {
    hide Extends, CeilDiv, Total;
    var need := Max(end - Total(bl), 0);
    ExtendsCount(bl, grown, end, size, first, next);
    SameQuotient(need, |grown| - |bl|, CeilDiv(need, size), size);
  }

  lemma ExtendsCount(bl: seq<Block>, grown: seq<Block>, end: nat, size: nat, first: Id, next: Id)
    requires Extends(bl, grown, end, size, first, next) && size > 0
    ensures |bl| <= |grown|
    ensures var need := Max(end - Total(bl), 0); need <= (|grown| - |bl|) * size < need + size
  {
    hide Contiguous, NewBlocks, Total;
    assert grown[..|grown|] == grown;
    ExtendsReach(bl, grown, end, size, first, next, |grown|);
  }

  // ---------- What a write stages ----------

  /** The marked blocks are exactly those in [lo, hi), and `data` holds their bytes. */
  ghost predicate Marked(bl: seq<Block>, lo: nat, hi: nat, data: bytes) {
    && Contiguous(bl) && lo < hi <= |bl|
    && (forall i | 0 <= i < |bl| :: bl[i].dirty <==> lo <= i < hi)
    && |data| == bl[hi - 1].end - bl[lo].start
  }

  /** The bytes block `i` of the list gets. */
  function NewBytes(bl: seq<Block>, lo: nat, data: bytes, st: Store, i: nat): Lookup
    requires i < |bl| && lo < |bl|
  {
    if !bl[i].dirty then Find(st, bl[i].id)
    else if bl[lo].start <= bl[i].start <= bl[i].end && bl[i].end - bl[lo].start <= |data|
    then Found(data[bl[i].start - bl[lo].start..bl[i].end - bl[lo].start])
    else Missing
  }

  /** Ids are in use and distinct, and an unmarked block has its bytes in storage. */
  ghost predicate Stageable(bl: seq<Block>, st: Store) {
    && (forall i, j | 0 <= i < j < |bl| :: bl[i].id != bl[j].id)
    && (forall i | 0 <= i < |bl| :: bl[i].id < st.nextId && (!bl[i].dirty ==> Find(st, bl[i].id).Found?))
  }

  /** Where in the data the piece of the next marked block starts. */
  function PieceStart(bl: seq<Block>, lo: nat, hi: nat, n: nat): int
    requires lo < hi <= |bl| && n <= |bl|
  {
    if n <= lo then 0 else bl[Min(n, hi) - 1].end - bl[lo].start
  }

  lemma PieceNone(bl: seq<Block>, lo: nat, hi: nat)
    requires lo < hi <= |bl|
    ensures PieceStart(bl, lo, hi, 0) == 0
  {
  }

  lemma PieceStep(bl: seq<Block>, lo: nat, hi: nat, data: bytes, n: nat)
    requires Marked(bl, lo, hi, data) && n < |bl|
    ensures bl[n].dirty ==> PieceStart(bl, lo, hi, n) == bl[n].start - bl[lo].start
    ensures PieceStart(bl, lo, hi, n + 1) ==
            PieceStart(bl, lo, hi, n) + if bl[n].dirty then bl[n].end - bl[n].start else 0
  {
  }

  /** The first `n` blocks of the list are dealt with. */
  ghost predicate StagedUpTo(bl: seq<Block>, lo: nat, data: bytes, st: Store, now: Store, n: nat)
    requires n <= |bl| && lo < |bl|
  {
    && now.committed == st.committed && now.flat == st.flat && now.nextId == st.nextId && IdsBelow(now)
    && (forall i | 0 <= i < n :: NewBytes(bl, lo, data, st, i).Found? && Find(now, bl[i].id) == NewBytes(bl, lo, data, st, i))
    && (forall i | n <= i < |bl| :: Find(now, bl[i].id) == Find(st, bl[i].id))
  }

  lemma StagedStep(bl: seq<Block>, lo: nat, data: bytes, st: Store, now: Store, n: nat, next: Store)
    requires n < |bl| && lo < |bl| && StagedUpTo(bl, lo, data, st, now, n)
    requires Stageable(bl, st) && NewBytes(bl, lo, data, st, n).Found?
    requires next == if bl[n].dirty then Stage(now, bl[n].id, NewBytes(bl, lo, data, st, n).data) else now
    ensures StagedUpTo(bl, lo, data, st, next, n + 1)
  {
    forall i | 0 <= i < |bl| && i != n ensures Find(next, bl[i].id) == Find(now, bl[i].id) {
    }
  }

  lemma MarkedFacts(bl: seq<Block>, lo: nat, hi: nat, data: bytes)
    requires Marked(bl, lo, hi, data)
    ensures lo < hi <= |bl| && Contiguous(bl)
    ensures forall i | 0 <= i < |bl| :: bl[i].dirty <==> lo <= i < hi
    ensures forall i | 0 < i < |bl| :: bl[i].start == bl[i - 1].end
  {
  }

  lemma StagedNone(bl: seq<Block>, lo: nat, data: bytes, st: Store)
    requires IdsBelow(st) && lo < |bl|
    ensures StagedUpTo(bl, lo, data, st, st, 0)
  {
  }

  lemma MarkedBytes(bl: seq<Block>, lo: nat, data: bytes, st: Store, i: nat)
    requires i < |bl| && lo < |bl| && bl[i].dirty
    requires bl[lo].start <= bl[i].start < bl[i].end && bl[i].end - bl[lo].start <= |data|
    ensures NewBytes(bl, lo, data, st, i) == Found(data[bl[i].start - bl[lo].start..bl[i].end - bl[lo].start])
  {
  }

  lemma CleanBytes(bl: seq<Block>, lo: nat, data: bytes, st: Store, i: nat)
    requires i < |bl| && lo < |bl| && !bl[i].dirty
    requires Stageable(bl, st)
    ensures NewBytes(bl, lo, data, st, i) == Find(st, bl[i].id) && NewBytes(bl, lo, data, st, i).Found?
  {
  }

  /** The next marked block's piece lies in the data. */
  lemma NextPiece(bl: seq<Block>, lo: nat, hi: nat, data: bytes, n: nat)
    requires Marked(bl, lo, hi, data) && n < |bl|
    ensures bl[n].dirty ==>
              && 0 <= PieceStart(bl, lo, hi, n) == bl[n].start - bl[lo].start
              && bl[n].start < bl[n].end && bl[n].end - bl[n].start + PieceStart(bl, lo, hi, n) <= |data|
    ensures PieceStart(bl, lo, hi, n + 1) ==
            PieceStart(bl, lo, hi, n) + if bl[n].dirty then bl[n].end - bl[n].start else 0
  {
    PieceStep(bl, lo, hi, data, n);
    if bl[n].dirty {
      MarkedSlice(bl, lo, hi, data, n);
    }
  }

  lemma NextStaged(bl: seq<Block>, lo: nat, hi: nat, data: bytes, st: Store, now: Store, n: nat)
    requires Marked(bl, lo, hi, data) && n < |bl| && bl[n].dirty
    requires StagedUpTo(bl, lo, data, st, now, n) && Stageable(bl, st)
    ensures 0 <= PieceStart(bl, lo, hi, n) <= bl[n].end - bl[n].start + PieceStart(bl, lo, hi, n) <= |data|
    ensures StagedUpTo(bl, lo, data, st,
                       Stage(now, bl[n].id, data[PieceStart(bl, lo, hi, n)..bl[n].end - bl[n].start + PieceStart(bl, lo, hi, n)]), n + 1)
  {
    hide Marked, StagedUpTo, Stageable, PieceStart, NewBytes;
    NextPiece(bl, lo, hi, data, n);
    MarkedFacts(bl, lo, hi, data);
    MarkedSlice(bl, lo, hi, data, n);
    MarkedBytes(bl, lo, data, st, n);
    StagedStep(bl, lo, data, st, now, n, Stage(now, bl[n].id, NewBytes(bl, lo, data, st, n).data));
  }

  lemma NextClean(bl: seq<Block>, lo: nat, hi: nat, data: bytes, st: Store, now: Store, n: nat)
    requires Marked(bl, lo, hi, data) && n < |bl| && !bl[n].dirty
    requires StagedUpTo(bl, lo, data, st, now, n) && Stageable(bl, st)
    ensures StagedUpTo(bl, lo, data, st, now, n + 1)
  {
    CleanBytes(bl, lo, data, st, n);
    StagedStep(bl, lo, data, st, now, n, now);
  }

  /** All blocks dealt with: the whole list can be committed. */
  lemma StagedDone(bl: seq<Block>, lo: nat, data: bytes, st: Store, now: Store, ids: seq<Id>)
    requires lo < |bl| && StagedUpTo(bl, lo, data, st, now, |bl|)
    requires |ids| == |bl| && forall i | 0 <= i < |ids| :: ids[i] == bl[i].id
    requires Stageable(bl, st)
    ensures Known(now, ids) && IdsBelow(Commit(now, ids))
    ensures forall i | 0 <= i < |bl| ::
              Commit(now, ids).committed[i].id == bl[i].id &&
              NewBytes(bl, lo, data, st, i) == Found(Commit(now, ids).committed[i].data)
  {
    assert Known(now, ids);
    forall i | 0 <= i < |bl|
      ensures NewBytes(bl, lo, data, st, i) == Found(Commit(now, ids).committed[i].data)
    {
      assert Find(now, ids[i]) == Found(Pick(now, ids)[i].data);
    }
  }

  lemma StagedUpToFacts(bl: seq<Block>, lo: nat, data: bytes, st: Store, now: Store, n: nat)
    requires n <= |bl| && lo < |bl| && StagedUpTo(bl, lo, data, st, now, n)
    ensures now.committed == st.committed && now.flat == st.flat && IdsBelow(now) && now.nextId == st.nextId
  {
  }

  lemma MarkedSlice(bl: seq<Block>, lo: nat, hi: nat, data: bytes, i: nat)
    requires Marked(bl, lo, hi, data) && lo <= i < hi
    ensures bl[lo].start <= bl[i].start < bl[i].end && bl[i].end - bl[lo].start <= |data|
  {
    Ordered(bl, lo, i);
    Ordered(bl, i, hi - 1);
  }

  /** With distinct ids each committed block is what its id resolves to. */
  lemma DistinctFind(st: Store)
    requires st.staged == map[] && DistinctIds(st.committed)
    ensures forall i | 0 <= i < |st.committed| :: Find(st, st.committed[i].id) == Found(st.committed[i].data)
  {
    forall i | 0 <= i < |st.committed| ensures Find(st, st.committed[i].id) == Found(st.committed[i].data) {
      FindBlockAt(st.committed, st.committed[i].id);
    }
  }

  /** Block by block the committed list holds its part of `target`. */
  ghost predicate HoldsParts(bl: seq<Block>, l: seq<Stored>, target: bytes) {
    && |l| == |bl|
    && forall i | 0 <= i < |bl| ::
         l[i].id == bl[i].id && bl[i].end <= |target| && bl[i].start <= bl[i].end
         && l[i].data == target[bl[i].start..bl[i].end]
  }

  lemma HoldsPartsContent(bl: seq<Block>, now: Store, target: bytes)
    requires Contiguous(bl) && bl != [] && |target| == Total(bl)
    requires HoldsParts(bl, now.committed, target)
    ensures Content(now) == target
  {
    CommittedContent(bl, now.committed, target);
  }

  lemma HoldsPartsValid(bl: seq<Block>, now: Store, target: bytes)
    requires Contiguous(bl) && HoldsParts(bl, now.committed, target)
    requires now.staged == map[] && now.flat == [] && IdsBelow(now)
    requires forall i, j | 0 <= i < j < |bl| :: bl[i].id != bl[j].id
    ensures ValidBlob(now) && DistinctIds(now.committed)
  {
    DistinctFind(now);
    forall i | 0 <= i < |now.committed| ensures |now.committed[i].data| > 0 {
      NonEmpty(bl, i);
    }
  }

  lemma SameContent(a: Store, b: Store)
    requires b.committed == a.committed && b.flat == a.flat
    ensures Content(b) == Content(a)
  {
  }
}
