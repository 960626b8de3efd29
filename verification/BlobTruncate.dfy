/** What truncation makes of a block list, on values. */
module BlobTruncate {
  import opened Bytes
  import opened Storage
  import opened BlockList
  import opened BlobBlocks

  // ---------- A list that is ready to be staged ----------

  /** Where block `i`'s bytes come from, and that they are its part of `target`. */
  ghost predicate PartReady(bl: seq<Block>, st: Store, target: bytes, i: nat)
    requires i < |bl|
  {
    var b := bl[i];
    && b.start < b.end <= |target| && b.id < st.nextId
    && (b.truncated ==> b.dirty && target[b.start..b.end] == Zeros(b.end - b.start))
    && (b.dirty && !b.truncated ==> b.data == target[b.start..b.end])
    && (!b.dirty ==> Find(st, b.id) == Found(target[b.start..b.end]))
  }

  /** A block that is staged has an id of its own. */
  ghost predicate OwnIds(bl: seq<Block>) {
    forall i, j | 0 <= i < |bl| && 0 <= j < |bl| && i != j && bl[i].dirty :: bl[i].id != bl[j].id
  }

  ghost predicate TruncReady(bl: seq<Block>, st: Store, target: bytes) {
    && Contiguous(bl) && |target| == Total(bl) && OwnIds(bl) && IdsBelow(st)
    && forall i {:trigger PartReady(bl, st, target, i)} | 0 <= i < |bl| :: PartReady(bl, st, target, i)
  }

  ghost predicate Untruncated(bl: seq<Block>) {
    forall i | 0 <= i < |bl| :: !bl[i].truncated
  }

  lemma TruncFacts(bl: seq<Block>, st: Store, target: bytes)
    requires TruncReady(bl, st, target)
    ensures Contiguous(bl) && |target| == Total(bl) && OwnIds(bl) && IdsBelow(st)
    ensures bl != [] ==> bl[|bl| - 1].start < bl[|bl| - 1].end
  {
  }

  /** No zero block is larger than the first one: one zero buffer serves them all. */
  ghost predicate OneBuffer(bl: seq<Block>) {
    forall i, j | 0 <= i < j < |bl| && bl[i].truncated && bl[j].truncated ::
      bl[j].end - bl[j].start <= bl[i].end - bl[i].start
  }

  /** All blocks but the last have the given size, the last has at most that. */
  ghost predicate LegalLayout(bl: seq<Block>, size: nat) {
    && (forall i | 0 <= i < |bl| :: bl[i].end - bl[i].start <= size)
    && (forall i | 0 <= i < |bl| - 1 :: bl[i].end - bl[i].start == size)
  }

  /** The list read from storage is ready to make up the content it has. */
  lemma MirrorsReady(bl: seq<Block>, st: Store)
    requires ValidBlob(st) && Mirrors(bl, st.committed) && bl != []
    ensures TruncReady(bl, st, Content(st)) && OneBuffer(bl)
    ensures Untruncated(bl)
  {
    MirrorsContent(bl, st);
    forall i | 0 <= i < |bl| ensures PartReady(bl, st, Content(st), i) {
      assert Find(st, st.committed[i].id) == Found(st.committed[i].data);
      assert st.committed[i].id < st.nextId by {
        FindBlockAt(st.committed, st.committed[i].id);
      }
    }
  }

  // ---------- Shrinking ----------

  /** The list cut behind the block that holds the new last byte. */
  function Shrunk(bl: seq<Block>, idx: nat, size: nat, id: Id, data: bytes): seq<Block>
    requires idx < |bl|
  {
    bl[..idx] + [if bl[idx].end > size then bl[idx].(end := size, id := id, dirty := true, data := data) else bl[idx]]
  }

  lemma {:induction false} ShrunkReady(bl: seq<Block>, st: Store, content: bytes, idx: nat, size: nat, id: Id, data: bytes, next: Store)
    requires TruncReady(bl, st, content) && Untruncated(bl)
    requires idx < |bl| && bl[idx].start < size <= bl[idx].end <= |content|
    requires bl[idx].end > size ==> id == st.nextId && data == content[bl[idx].start..size]
    requires next == st.(nextId := next.nextId) && next.nextId >= st.nextId && (bl[idx].end > size ==> id < next.nextId)
    ensures TruncReady(Shrunk(bl, idx, size, id, data), next, Resize(content, size))
    ensures Untruncated(Shrunk(bl, idx, size, id, data))
  {
    var bl' := Shrunk(bl, idx, size, id, data);
    assert PartReady(bl, st, content, idx);
    forall i | 0 <= i < |bl'| ensures PartReady(bl', next, Resize(content, size), i) {
      assert PartReady(bl, st, content, i);
      Ordered(bl, i, idx);
      assert Resize(content, size)[bl'[i].start..bl'[i].end] == content[bl'[i].start..bl'[i].end];
      if i < idx {
        assert Find(next, bl[i].id) == Find(st, bl[i].id);
      }
    }
    ShrunkShape(bl, idx, size, id, data);
    ShrunkIds(bl, st, content, idx, size, id, data);
  }

  lemma ShrunkShape(bl: seq<Block>, idx: nat, size: nat, id: Id, data: bytes)
    requires Contiguous(bl) && idx < |bl| && bl[idx].start < size <= bl[idx].end
    ensures Contiguous(Shrunk(bl, idx, size, id, data)) && Total(Shrunk(bl, idx, size, id, data)) == size
  {
  }

  lemma ShrunkIds(bl: seq<Block>, st: Store, content: bytes, idx: nat, size: nat, id: Id, data: bytes)
    requires TruncReady(bl, st, content) && idx < |bl|
    requires bl[idx].end > size ==> id == st.nextId
    ensures OwnIds(Shrunk(bl, idx, size, id, data))
  {
    forall i | 0 <= i < |bl| ensures bl[i].id < st.nextId {
      assert PartReady(bl, st, content, i);
    }
  }

  lemma ShrunkLegal(bl: seq<Block>, idx: nat, size: nat, id: Id, data: bytes, blockSize: nat)
    requires LegalLayout(bl, blockSize) && idx < |bl| && bl[idx].start < size
    ensures LegalLayout(Shrunk(bl, idx, size, id, data), blockSize)
  {
  }

  /** The block before the first one that starts behind the new end holds that end. */
  lemma ShrinkIndex(bl: seq<Block>, index: nat, size: nat)
    requires Contiguous(bl) && bl != [] && index <= |bl| && 0 < size < Total(bl)
    requires forall i | 0 <= i < index :: bl[i].start < size
    requires forall i | index <= i < |bl| :: bl[i].start >= size
    ensures index > 0 && bl[index - 1].start < size <= bl[index - 1].end <= Total(bl)
  {
    assert bl[0].start == 0;
    if index > 0 {
      Ordered(bl, index - 1, index - 1);
      if index < |bl| {
        Adjacent(bl, index);
      }
    }
  }

  // ---------- Growing ----------

  /** The last block filled up from the blob, under a new id. */
  function LastGrown(bl: seq<Block>, end: nat, id: Id, data: bytes): seq<Block>
    requires bl != []
  {
    bl[..|bl| - 1] + [bl[|bl| - 1].(end := end, id := id, dirty := true, data := data)]
  }

  lemma {:induction false} LastGrownReady(bl: seq<Block>, st: Store, content: bytes, end: nat, data: bytes, next: Store)
    requires TruncReady(bl, st, content) && bl != [] && Untruncated(bl)
    requires end >= Total(bl)
    requires data == Resize(content, end)[bl[|bl| - 1].start..]
    requires next == st.(nextId := st.nextId + 1)
    ensures TruncReady(LastGrown(bl, end, st.nextId, data), next, Resize(content, end))
    ensures Total(LastGrown(bl, end, st.nextId, data)) == end
    ensures Untruncated(LastGrown(bl, end, st.nextId, data))
  {
    var last := |bl| - 1;
    var bl', target := LastGrown(bl, end, st.nextId, data), Resize(content, end);
    forall i | 0 <= i < |bl| ensures PartReady(bl', next, target, i) {
      assert PartReady(bl, st, content, i);
      Ordered(bl, i, last);
      if i < last {
        assert Find(next, bl[i].id) == Find(st, bl[i].id);
        assert target[bl[i].start..bl[i].end] == content[bl[i].start..bl[i].end];
      } else {
        assert target[bl'[i].start..bl'[i].end] == target[bl[last].start..];
      }
    }
    assert Contiguous(bl');
    forall i | 0 <= i < |bl| ensures bl[i].id < st.nextId {
      assert PartReady(bl, st, content, i);
    }
  }

  lemma LastGrownLegal(bl: seq<Block>, end: nat, id: Id, data: bytes, size: nat)
    requires bl != [] && end <= bl[|bl| - 1].start + size
    ensures LegalLayout(bl, size) ==> LegalLayout(LastGrown(bl, end, id, data), size)
  {
  }

  /** Empty blocks behind the list extend the content with zeros. */
  lemma {:induction false} ExtendedReady(bl: seq<Block>, bl': seq<Block>, st: Store, content: bytes, end: nat, size: nat, next: Store)
    requires TruncReady(bl, st, content) && Untruncated(bl)
    requires Extends(bl, bl', end, size, st.nextId, next.nextId) && end >= Total(bl)
    requires next == st.(nextId := next.nextId) && next.nextId >= st.nextId
    ensures TruncReady(bl', next, Resize(content, end)) && OneBuffer(bl')
  {
    forall i | 0 <= i < |bl'| ensures PartReady(bl', next, Resize(content, end), i) {
      ExtendedPart(bl, bl', st, content, end, size, next, i);
    }
    ExtendedIds(bl, bl', st, content, end, size, next);
  }

  lemma ExtendedPart(bl: seq<Block>, bl': seq<Block>, st: Store, content: bytes, end: nat, size: nat, next: Store, i: nat)
    requires TruncReady(bl, st, content) && i < |bl'|
    requires Extends(bl, bl', end, size, st.nextId, next.nextId) && end >= Total(bl)
    requires next == st.(nextId := next.nextId) && next.nextId >= st.nextId
    ensures PartReady(bl', next, Resize(content, end), i)
  {
    var target := Resize(content, end);
    NonEmpty(bl', i);
    Ordered(bl', i, i);
    if i < |bl| {
      assert bl'[i] == bl'[..|bl|][i] == bl[i];
      assert PartReady(bl, st, content, i);
      assert Find(next, bl[i].id) == Find(st, bl[i].id);
      assert target[bl[i].start..bl[i].end] == content[bl[i].start..bl[i].end];
    } else {
      if bl != [] {
        assert bl'[|bl| - 1] == bl'[..|bl|][|bl| - 1] == bl[|bl| - 1];
        Ordered(bl', |bl| - 1, i);
      }
      assert target[bl'[i].start..bl'[i].end] == Zeros(bl'[i].end - bl'[i].start);
    }
  }

  lemma ExtendedIds(bl: seq<Block>, bl': seq<Block>, st: Store, content: bytes, end: nat, size: nat, next: Store)
    requires TruncReady(bl, st, content) && Untruncated(bl)
    requires Extends(bl, bl', end, size, st.nextId, next.nextId)
    ensures OwnIds(bl') && OneBuffer(bl')
  {
    forall i | 0 <= i < |bl| ensures bl[i].id < st.nextId && bl'[i] == bl[i] {
      assert PartReady(bl, st, content, i);
      assert bl'[..|bl|][i] == bl'[i];
    }
  }

  lemma ExtendedLegal(bl: seq<Block>, bl': seq<Block>, end: nat, size: nat, first: Id, next: Id)
    requires Extends(bl, bl', end, size, first, next) && LegalLayout(bl, size) && end >= Total(bl)
    requires bl == [] || bl[|bl| - 1].end - bl[|bl| - 1].start >= size || Total(bl) == end
    ensures LegalLayout(bl', size)
  {
    forall i | 0 <= i < |bl| ensures bl'[i] == bl[i] {
      assert bl'[..|bl|][i] == bl'[i];
    }
    if Total(bl) == end && |bl'| > |bl| {
      MulLe(1, |bl'| - |bl|, size);
    }
  }

  lemma ExtendsNonEmpty(bl: seq<Block>, bl': seq<Block>, end: nat, size: nat, first: Id, next: Id)
    requires Extends(bl, bl', end, size, first, next) && end > 0
    ensures bl' != []
  {
  }

  lemma ResizeTwice(s: bytes, a: nat, b: nat)
    requires |s| <= a <= b
    ensures Resize(Resize(s, a), b) == Resize(s, b)
  {
  }

  lemma ValidIds(st: Store)
    requires ValidBlob(st)
    ensures IdsBelow(st)
  {
  }

  // ---------- A blob uploaded in one request, cut into blocks ----------

  /** The first `end` bytes of the content as blocks that are still to be staged. */
  ghost predicate Pieces(bl: seq<Block>, st: Store, content: bytes, end: nat, size: nat, first: Id) {
    && Contiguous(bl) && Total(bl) == end <= |content|
    && (forall i | 0 <= i < |bl| ::
          && bl[i].dirty && !bl[i].truncated && first <= bl[i].id < st.nextId && bl[i].end <= |content|
          && bl[i].data == content[bl[i].start..bl[i].end])
    && (forall i, j | 0 <= i < j < |bl| :: bl[i].id < bl[j].id)
    && |bl| * size < end + size
  }

  lemma PiecesStep(bl: seq<Block>, st: Store, content: bytes, i: nat, end: nat, size: nat, first: Id)
    requires Pieces(bl, st, content, i, size, first) && |bl| * size == i && first <= st.nextId
    requires i < end <= |content| && end == Min(i + size, |content|)
    ensures var now := bl + [Block(st.nextId, i, end, true, false, content[i..end])];
            && Pieces(now, st.(nextId := st.nextId + 1), content, end, size, first)
            && (end < |content| ==> |now| * size == end)
  {
    var now := bl + [Block(st.nextId, i, end, true, false, content[i..end])];
    assert |now| * size == |bl| * size + size;
  }

  lemma PiecesReady(bl: seq<Block>, st: Store, content: bytes, size: nat, first: Id)
    requires Pieces(bl, st, content, |content|, size, first) && IdsBelow(st)
    ensures TruncReady(bl, st, content)
    ensures Untruncated(bl)
  {
    forall i | 0 <= i < |bl| ensures PartReady(bl, st, content, i) {
      NonEmpty(bl, i);
    }
  }

  lemma PiecesNone(st: Store, content: bytes, size: nat)
    requires size > 0
    ensures Pieces([], st, content, 0, size, st.nextId)
  {
  }

  lemma PiecesCount(bl: seq<Block>, st: Store, content: bytes, size: nat, first: Id)
    requires Pieces(bl, st, content, |content|, size, first) && size > 0
    ensures |bl| <= CeilDiv(|content|, size)
  {
    var most := CeilDiv(|content|, size);
    assert (most + 1) * size == most * size + size;
    if |bl| > most {
      MulLe(most + 1, |bl|, size);
    }
  }

  /** A blob small enough for one request never needs too many blocks. */
  lemma SmallBlobFits(length: nat, size: nat)
    requires length <= MAX_UPLOAD_BLOB_BYTES && size >= 0x10_0000
    ensures CeilDiv(length, size) <= MAX_BLOCKS
  {
    var count := CeilDiv(length, size);
    if count > 0x100 {
      MulLe(0x101, count, size);
    }
  }

  lemma EmptyReady(st: Store)
    requires IdsBelow(st)
    ensures TruncReady([], st, []) && Untruncated([])
  {
  }

  // ---------- Staging the list ----------

  /** The first `n` blocks have their part of `target` in storage; nothing is committed yet. */
  ghost predicate PartsStaged(bl: seq<Block>, st: Store, now: Store, target: bytes, n: nat)
    requires n <= |bl|
  {
    && now.committed == st.committed && now.flat == st.flat && now.nextId == st.nextId && IdsBelow(now)
    && (forall i | 0 <= i < n :: bl[i].start <= bl[i].end <= |target| && Find(now, bl[i].id) == Found(target[bl[i].start..bl[i].end]))
    && (forall i | n <= i < |bl| :: Find(now, bl[i].id) == Find(st, bl[i].id))
  }

  /** What staging block `n` uploads. */
  lemma PartData(bl: seq<Block>, st: Store, target: bytes, n: nat, data: bytes)
    requires TruncReady(bl, st, target) && n < |bl|
    requires bl[n].dirty ==> data == if bl[n].truncated then Zeros(bl[n].end - bl[n].start) else bl[n].data
    ensures bl[n].start < bl[n].end <= |target| && bl[n].id < st.nextId
    ensures bl[n].dirty ==> data == target[bl[n].start..bl[n].end]
    ensures !bl[n].dirty ==> Find(st, bl[n].id) == Found(target[bl[n].start..bl[n].end])
  {
    assert PartReady(bl, st, target, n);
  }

  lemma PartsStep(bl: seq<Block>, st: Store, now: Store, target: bytes, n: nat, next: Store)
    requires n < |bl| && PartsStaged(bl, st, now, target, n) && OwnIds(bl)
    requires bl[n].start < bl[n].end <= |target| && bl[n].id < st.nextId
    requires !bl[n].dirty ==> Find(st, bl[n].id) == Found(target[bl[n].start..bl[n].end])
    requires next == if bl[n].dirty then Stage(now, bl[n].id, target[bl[n].start..bl[n].end]) else now
    ensures PartsStaged(bl, st, next, target, n + 1)
  {
    forall i | 0 <= i < |bl| && i != n ensures Find(next, bl[i].id) == Find(now, bl[i].id) {
      assert bl[n].dirty ==> bl[i].id != bl[n].id;
    }
  }

  /** The zero buffer serves every zero block from `n` on. */
  ghost predicate Serves(bl: seq<Block>, buf: bytes, n: nat) {
    && buf == Zeros(|buf|)
    && forall i | n <= i < |bl| && bl[i].truncated :: bl[i].end - bl[i].start <= |buf|
  }

  lemma FirstServes(bl: seq<Block>, n: nat)
    requires OneBuffer(bl) && n < |bl| && bl[n].truncated && bl[n].start < bl[n].end
    ensures Serves(bl, Zeros(bl[n].end - bl[n].start), n)
  {
  }

  lemma ServesBlock(bl: seq<Block>, buf: bytes, n: nat)
    requires Serves(bl, buf, n) && n < |bl| && bl[n].truncated && bl[n].start <= bl[n].end
    ensures bl[n].end - bl[n].start <= |buf| && buf[..bl[n].end - bl[n].start] == Zeros(bl[n].end - bl[n].start)
  {
  }

  lemma ServesNext(bl: seq<Block>, buf: bytes, n: nat)
    requires Serves(bl, buf, n)
    ensures Serves(bl, buf, n + 1)
  {
  }

  lemma PartsNone(bl: seq<Block>, st: Store, target: bytes)
    requires TruncReady(bl, st, target)
    ensures PartsStaged(bl, st, st, target, 0)
  {
  }

  lemma PartsFacts(bl: seq<Block>, st: Store, now: Store, target: bytes, n: nat)
    requires n <= |bl| && PartsStaged(bl, st, now, target, n)
    ensures now.committed == st.committed && now.flat == st.flat && now.nextId == st.nextId && IdsBelow(now)
  {
  }

  lemma PartsDone(bl: seq<Block>, st: Store, now: Store, target: bytes, ids: seq<Id>)
    requires TruncReady(bl, st, target) && PartsStaged(bl, st, now, target, |bl|) && bl != []
    requires |ids| == |bl| && forall i | 0 <= i < |ids| :: ids[i] == bl[i].id
    ensures Known(now, ids) && HoldsParts(bl, Commit(now, ids).committed, target) && ValidBlob(Commit(now, ids))
    ensures Content(Commit(now, ids)) == target && Commit(now, ids).staged == map[]
  {
    assert Known(now, ids);
    var st' := Commit(now, ids);
    forall i | 0 <= i < |bl| ensures st'.committed[i].data == target[bl[i].start..bl[i].end] && bl[i].end <= |target| {
      assert Find(now, ids[i]) == Found(st'.committed[i].data);
    }
    HoldsPartsContent(bl, st', target);
    forall i | 0 <= i < |bl|
      ensures |st'.committed[i].data| > 0 && Find(st', st'.committed[i].id) == Found(st'.committed[i].data) && ids[i] < st'.nextId
    {
      assert ids[i] in ids;
      CommitFinds(now, ids, ids[i]);
      assert PartReady(bl, st, target, i);
    }
  }

  // ---------- Truncation as a whole ----------

  lemma LayoutOfMirror(bl: seq<Block>, l: seq<Stored>, size: nat)
    requires Mirrors(bl, l)
    ensures LegalLayout(bl, size) <==> ValidList(l, size)
  {
    assert forall i | 0 <= i < |bl| :: |l[i].data| == bl[i].end - bl[i].start;
  }

  lemma LayoutOfParts(bl: seq<Block>, l: seq<Stored>, target: bytes, size: nat)
    requires HoldsParts(bl, l, target) && LegalLayout(bl, size)
    ensures ValidList(l, size)
  {
    forall i | 0 <= i < |l| ensures |l[i].data| == bl[i].end - bl[i].start {
      assert l[i].data == target[bl[i].start..bl[i].end];
    }
  }

  /** A blob with content but no block list, truncated with a block size given. */
  predicate Unpartitioned(st: Store, blockSize: nat) {
    blockSize > 0 && st.committed == [] && st.flat != []
  }

  /** The content after a successful truncation. */
  function Truncated(st: Store, newSize: nat, blockSize: nat): bytes {
    if Unpartitioned(st, blockSize) && newSize != |st.flat| then Zeros(newSize)
    else Resize(Content(st), newSize)
  }

  /** Truncation resizes exactly when it has a block list, no block size was
      given, it changes nothing or everything, or what it keeps is zero anyway. */
  lemma TruncatedIff(st: Store, newSize: nat, blockSize: nat)
    ensures Truncated(st, newSize, blockSize) == Resize(Content(st), newSize) <==>
            || blockSize == 0 || st.committed != [] || st.flat == []
            || newSize == |st.flat|
            || st.flat[..Min(newSize, |st.flat|)] == Zeros(Min(newSize, |st.flat|))
  {
    if Unpartitioned(st, blockSize) && newSize != |st.flat| {
      var kept := Min(newSize, |st.flat|);
      assert Resize(st.flat, newSize)[..kept] == st.flat[..kept];
      assert Zeros(newSize)[..kept] == Zeros(kept);
    }
  }

  /** With the division rounded up there are never more blocks than were available. */
  lemma RecomputedFits(length: nat, available: nat)
    requires length > 0 && available > 0
    ensures CeilDiv(length, available) > 0
    ensures CeilDiv(length, CeilDiv(length, available)) <= available
  {
    var size := CeilDiv(length, available);
    assert size == 0 ==> size * available == 0;
    assert size * available == available * size;
    var count := CeilDiv(length, size);
    assert (available + 1) * size == available * size + size;
    if count > available {
      MulLe(available + 1, count, size);
    }
  }

  lemma CeilDivMonotone(a: nat, b: nat, size: nat)
    requires a <= b && size > 0
    ensures CeilDiv(a, size) <= CeilDiv(b, size)
  {
    var x, y := CeilDiv(a, size), CeilDiv(b, size);
    assert (y + 1) * size == y * size + size;
    if x > y {
      MulLe(y + 1, x, size);
    }
  }

  lemma ListTotal(bl: seq<Block>, st: Store)
    requires Mirrors(bl, st.committed)
    ensures |bl| == |st.committed| && Contiguous(bl)
    ensures bl != [] ==> Total(bl) == |Content(st)|
  {
    if bl != [] {
      MirrorsContent(bl, st);
    }
  }

  lemma FlatContent(st: Store)
    ensures st.committed == [] ==> Content(st) == st.flat
  {
  }

  lemma UntruncatedOneBuffer(bl: seq<Block>)
    requires Untruncated(bl)
    ensures OneBuffer(bl)
  {
  }

  lemma PartsCount(bl: seq<Block>, l: seq<Stored>, target: bytes)
    requires HoldsParts(bl, l, target)
    ensures |l| == |bl| && (bl != [] ==> l != [])
  {
  }
}
