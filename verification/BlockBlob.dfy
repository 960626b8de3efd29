/** Editing a blob through its block list: writing at an offset and truncating
    come down to staging some blocks and committing a new list. */
module BlockBlob {
  import opened Bytes
  import opened Storage
  import opened BlockList
  import opened BlobBlocks
  import opened BlobWrite
  import opened BlobTruncate

  class BlockBlob {
    const blockSize: nat
    var store: Store

    constructor (blockSize: nat, store: Store)
      ensures this.blockSize == blockSize && this.store == store
    {
      this.blockSize, this.store := blockSize, store;
    }

    // ---------- Talking to storage ----------

    /** A fresh block id. */
    method GetBlockID() returns (id: Id)
      modifies this`store
      ensures id == old(store).nextId && store == old(store).(nextId := id + 1)
    {
      id := store.nextId;
      store := store.(nextId := id + 1);
    }

    /** Upload the whole content in one go; the blob then has no block list. */
    method WriteFromBuffer(data: bytes) returns (ok: bool)
      requires IdsBelow(store)
      modifies this`store
      ensures IdsBelow(store)
      ensures ok ==> Content(store) == data && ValidBlob(store) && store.committed == [] && store.staged == map[]
      ensures !ok ==> store == old(store)
    {
      ok := *;
      if ok {
        store := Store([], data, map[], store.nextId);
      }
    }

    /** The committed blocks with their offsets. */
    method GetFileBlockOffsets() returns (list: BlockOffsetList)
      requires ValidBlob(store)
      ensures fresh(list) && Mirrors(list.blocks, store.committed) && !list.modified
    {
      var blocks: seq<Block> := [];
      var offset := 0;
      while |blocks| < |store.committed|
        invariant |blocks| <= |store.committed|
        invariant Mirrors(blocks, store.committed[..|blocks|])
        invariant offset == Total(blocks)
      {
        var b := store.committed[|blocks|];
        blocks := blocks + [Block(b.id, offset, offset + |b.data|, false, false, [])];
        offset := offset + |b.data|;
      }
      assert store.committed[..|blocks|] == store.committed;
      list := new BlockOffsetList(blocks);
    }

    // ---------- Write ----------

    /** Append empty blocks of `size` bytes up to `end`. */
    method AppendBlocks(list: BlockOffsetList, end: nat, size: nat) returns (bufferSize: nat)
      requires Contiguous(list.blocks) && size > 0
      modifies list`blocks, this`store
      ensures Extends(old(list.blocks), list.blocks, end, size, old(store).nextId, store.nextId)
      ensures store == old(store).(nextId := store.nextId) && store.nextId >= old(store).nextId
      ensures bufferSize == Max(end - Total(old(list.blocks)), 0)
    {
      hide Extends, Full, Contiguous;
      ghost var bl := list.blocks;
      ExtendsNone(bl, size, store.nextId);
      bufferSize := 0;
      var i := if |list.blocks| == 0 then 0 else list.blocks[|list.blocks| - 1].end;
      ghost var first := store.nextId;
      while i < end
        invariant Extends(bl, list.blocks, i, size, first, store.nextId)
        invariant i == Total(list.blocks) && (i <= end || (list.blocks == bl && store.nextId == first))
        invariant i < end ==> Full(bl, list.blocks, size)
        invariant store == old(store).(nextId := store.nextId) && store.nextId >= first
        invariant bufferSize == i - Total(bl)
        decreases end - i
      {
        var length := Min(size, end - i);
        ExtendsStep(bl, list.blocks, i, i + length, size, first, store.nextId);
        var id := GetBlockID();
        list.blocks := list.blocks + [Block(id, i, i + length, true, true, [])];
        i := i + length;
        bufferSize := bufferSize + length;
      }
    }

    /** Make room behind the last block for a write of `length` bytes at `offset`.
        With no block left the program divides by zero in floating point and converts
        the result to an integer, which the language leaves open. */
    method CreateNewBlocks(list: BlockOffsetList, offset: nat, length: nat) returns (status: Status, bufferSize: nat, size: nat)
      requires Contiguous(list.blocks) && list.blocks != [] && length > 0
      modifies list`blocks, this`store
      ensures status in {Ok, Failed(BlockLimit), Failed(Unspecified)}
      ensures status == Failed(Unspecified) <==> blockSize == 0 && |old(list.blocks)| >= MAX_BLOCKS
      ensures status == Failed(BlockLimit) ==> list.blocks == old(list.blocks) && store == old(store)
      ensures status == Ok ==>
                && bufferSize == Max(offset + length - Total(old(list.blocks)), 0)
                && Extends(old(list.blocks), list.blocks, offset + length, size, old(store).nextId, store.nextId)
                && size > 0 && |list.blocks| == |old(list.blocks)| + CeilDiv(Max(offset + length - Total(old(list.blocks)), 0), size)
                && |old(list.blocks)| + CeilDiv(length, size) <= MAX_BLOCKS
      ensures store == old(store).(nextId := store.nextId) && store.nextId >= old(store).nextId
    {
      hide Extends, Contiguous, CeilDiv;
      size := blockSize;
      var count := |list.blocks|;
      bufferSize := 0;
      if size == 0 {
        size := DEFAULT_BLOCK_SIZE;
        if count + CeilDiv(length, size) > MAX_BLOCKS {
          if count >= MAX_BLOCKS {
            return Failed(Unspecified), 0, 0;
          }
          RecomputedFits(length, MAX_BLOCKS - count);
          size := CeilDiv(length, MAX_BLOCKS - count);
          if size > MAX_STAGE_BLOCK_BYTES {
            return Failed(BlockLimit), 0, 0;
          }
        }
      } else if count + CeilDiv(length, size) > MAX_BLOCKS {
        return Failed(BlockLimit), 0, 0;
      }
      ghost var bl, first := list.blocks, store.nextId;
      bufferSize := AppendBlocks(list, offset + length, size);
      ExtendsExact(bl, list.blocks, offset + length, size, first, store.nextId);
      status := Ok;
    }

    /** Stage the marked blocks from consecutive pieces of `data` under their old
        ids, then commit the whole list. */
    method StageAndCommitModifiedBlocks(list: BlockOffsetList, data: bytes, ghost lo: nat, ghost hi: nat) returns (ok: bool)
      requires Marked(list.blocks, lo, hi, data) && IdsBelow(store)
      requires Stageable(list.blocks, store)
      modifies this`store
      ensures IdsBelow(store)
      ensures !ok ==> store.committed == old(store).committed && store.flat == old(store).flat
      ensures ok ==> |store.committed| == |list.blocks| && store.staged == map[] && store.flat == []
      ensures ok ==> forall i | 0 <= i < |list.blocks| ::
                store.committed[i].id == list.blocks[i].id &&
                NewBytes(list.blocks, lo, data, old(store), i) == Found(store.committed[i].data)
    {
      hide StagedUpTo, NewBytes, Known, IdsBelow, Marked, Stageable;
      ghost var st := store;
      var ids;
      MarkedFacts(list.blocks, lo, hi, data);
      ok, ids := StageModified(list.blocks, data, lo, hi);
      StagedUpToFacts(list.blocks, lo, data, st, store, |ids|);
      if ok {
        ok := *;
      }
      if ok {
        StagedDone(list.blocks, lo, data, st, store, ids);
        store := Commit(store, ids);
      }
    }

    /** Stage the marked blocks one after the other, collecting all ids. */
    method StageModified(bl: seq<Block>, data: bytes, ghost lo: nat, ghost hi: nat) returns (ok: bool, ids: seq<Id>)
      requires Marked(bl, lo, hi, data) && IdsBelow(store) && Stageable(bl, store)
      modifies this`store
      ensures |ids| <= |bl| && lo < |bl| && StagedUpTo(bl, lo, data, old(store), store, |ids|)
      ensures ok ==> |ids| == |bl| && forall i | 0 <= i < |ids| :: ids[i] == bl[i].id
    {
      hide StagedUpTo, NewBytes, IdsBelow, Marked, PieceStart, Stageable;
      ids := [];
      var blockOffset := 0;
      ghost var st := store;
      MarkedFacts(bl, lo, hi, data);
      PieceNone(bl, lo, hi);
      StagedNone(bl, lo, data, st);
      while |ids| < |bl|
        invariant |ids| <= |bl|
        invariant forall i | 0 <= i < |ids| :: ids[i] == bl[i].id
        invariant blockOffset == PieceStart(bl, lo, hi, |ids|)
        invariant StagedUpTo(bl, lo, data, st, store, |ids|)
      {
        var blk := bl[|ids|];
        NextPiece(bl, lo, hi, data, |ids|);
        if blk.dirty {
          var sent: bool := *;
          if !sent {
            return false, ids;
          }
          NextStaged(bl, lo, hi, data, st, store, |ids|);
          store := Stage(store, blk.id, data[blockOffset..blk.end - blk.start + blockOffset]);
          blockOffset := blk.end - blk.start + blockOffset;
        } else {
          NextClean(bl, lo, hi, data, st, store, |ids|);
        }
        ids := ids + [blk.id];
      }
      ok := true;
    }

    /** Blob without blocks: the whole content is combined and uploaded again.
        An error reading it is not looked at. */
    method WriteFlat(offset: nat, data: bytes, reading: Reading) returns (status: Status)
      requires ValidBlob(store) && store.committed == []
      modifies this`store
      ensures status == Ok ==>
                && ValidBlob(store)
                && Content(store) == FlatWrite(FlatRead(old(Content(store)), reading), offset, data)
      ensures status in {Ok, Failed(TransferFailed)}
      ensures status != Ok ==> store == old(store)
    {
      var oldData := ReadBuffer(reading);
      var dataBuffer;
      if |oldData| >= offset + |data| {
        dataBuffer := oldData[..offset] + data + oldData[offset + |data|..];
      } else if |oldData| > 0 {
        dataBuffer := if offset != 0 then Resize(oldData, offset) + data else data;
      } else {
        dataBuffer := data;
      }
      var ok := WriteFromBuffer(dataBuffer);
      status := if ok then Ok else Failed(TransferFailed);
    }

    /** The buffer a read of the whole blob leaves, whether or not it succeeds. */
    method ReadBuffer(reading: Reading) returns (buffer: bytes)
      requires store.committed == []
      ensures buffer == FlatRead(Content(store), reading)
    {
      buffer := [];
      if reading == Nothing {
        return;
      }
      buffer := match reading case Broken(got) => Resize(got, |store.flat|) case _ => store.flat;
    }

    /** Blob with blocks: mark the touched ones, append new ones, stage and commit.
        When reading the touched blocks back fails, the program logs the error and
        goes on with what is in the buffer. */
    method WriteBlocks(offset: nat, data: bytes, reading: Reading) returns (status: Status, ghost lo: nat, ghost oldSize: nat)
      requires ValidBlob(store) && store.committed != [] && DistinctIds(store.committed) && data != []
      modifies this`store
      ensures status == Failed(Unspecified) <==>
                blockSize == 0 && |old(store).committed| >= MAX_BLOCKS && offset + |data| >= |old(Content(store))|
      ensures status !in {Ok, Failed(Unspecified)} ==> Content(store) == old(Content(store))
      ensures status == Ok ==>
                && ValidBlob(store) && DistinctIds(store.committed)
                && lo <= offset && lo + oldSize <= |old(Content(store))| && (offset >= |old(Content(store))| ==> oldSize == 0)
                && Content(store) == Splice(Base(old(Content(store)), lo, oldSize, reading), offset, data)
                && KeepsIds(old(store).committed, store.committed)
    {
      hide Extends, ValidBlob, DistinctIds, KeepsIds, Planned, Stageable, IsEndOfMarks, EndOfMarks, MarkedSize, CeilDiv, Total, MarkedFrom, Marked, Mirrors, Contiguous, NewBytes, WriteBuffer, IdsBelow, Find, Base, Splice, Arrived, Content;
      ghost var st := store;
      lo, oldSize := 0, 0;
      var list := GetFileBlockOffsets();
      ghost var bl0 := list.blocks;
      ListFacts(bl0, st);
      var index, size, exceeds, appendOnly := list.FindBlocksToModify(offset, |data|);
      ghost var mid := list.blocks;
      var newSize := 0;
      ghost var blockBytes := 1;
      ghost var hi := if appendOnly then |bl0| else EndOfMarks(bl0, index, offset + |data|, size);
      if exceeds {
        MidContiguous(bl0, mid, index, offset + |data|, hi, appendOnly);
        var bytesPerBlock;
        status, newSize, bytesPerBlock := CreateNewBlocks(list, offset, |data|);
        if status != Ok {
          BumpValid(st, store);
          return;
        }
        blockBytes := bytesPerBlock;
      }
      ghost var bl := list.blocks;
      hi := PlanList(st, store, bl0, mid, bl, index, hi, size, offset, |data|, exceeds, appendOnly, newSize, blockBytes);
      lo, oldSize := bl[index].start, size;
      status := StageWrite(list, index, size, newSize, appendOnly, reading, offset, data, bl0, hi);
    }

    /** Build the buffer, stage it and commit. */
    method StageWrite(list: BlockOffsetList, index: nat, size: nat, newSize: nat, appendOnly: bool, reading: Reading, offset: nat, data: bytes,
                      ghost bl0: seq<Block>, ghost hi: nat) returns (status: Status)
      requires Planned(store, bl0, list.blocks, index, hi, size, offset, |data|) && Stageable(list.blocks, store) && IdsBelow(store)
      requires index < hi <= |list.blocks| && list.blocks[index].start <= offset
      requires newSize == list.blocks[hi - 1].end - list.blocks[index].start - size
      requires offset + |data| <= list.blocks[index].start + size + newSize
      requires list.blocks[index].start + size <= |Content(store)| && (appendOnly ==> size == 0)
      modifies this`store
      ensures status in {Ok, Failed(TransferFailed)}
      ensures status != Ok ==> Content(store) == old(Content(store))
      ensures status == Ok ==>
                && ValidBlob(store) && DistinctIds(store.committed)
                && Content(store) == Splice(Base(old(Content(store)), list.blocks[index].start, size, reading), offset, data)
                && KeepsIds(old(store).committed, store.committed)
    {
      hide ValidBlob, DistinctIds, KeepsIds, Planned, Stageable, Marked, Contiguous, NewBytes, WriteBuffer, IdsBelow, Find, Splice, Base, Content;
      ghost var bl, st := list.blocks, store;
      var start := list.blocks[index].start;
      var content := Content(store);
      var buffer := (if appendOnly then Zeros(size) else Arrived(content[start..start + size], reading)) + Zeros(newSize);
      var blockOffset := offset - start;
      buffer := buffer[..blockOffset] + data + buffer[blockOffset + |data|..];
      BufferIs(content, start, size, newSize, reading, offset, data, buffer);
      PlannedMarked(st, bl0, bl, index, hi, size, offset, |data|, buffer);
      StageableDistinct(bl, st);
      var ok := StageAndCommitModifiedBlocks(list, buffer, index, hi);
      if ok {
        WriteDone(st, store, bl0, bl, index, hi, size, newSize, reading, offset, data);
        status := Ok;
      } else {
        SameContent(st, store);
        status := Failed(TransferFailed);
      }
    }

    /** Write `data` at `offset`. On a blob with distinct block ids the content is
        spliced, unless old bytes that are needed could not be read. With everything
        read only a write behind the start of an empty blob is not the splice. */
    method Write(offset: nat, data: bytes, reading: Reading) returns (status: Status, ghost lo: nat, ghost oldSize: nat)
      requires ValidBlob(store) && (store.committed != [] ==> DistinctIds(store.committed) && data != [])
      modifies this`store
      ensures status == Failed(Unspecified) <==>
                && old(store).committed != [] && offset + |data| >= |old(Content(store))|
                && blockSize == 0 && |old(store).committed| >= MAX_BLOCKS
      ensures status !in {Ok, Failed(Unspecified)} ==> Content(store) == old(Content(store))
      ensures status == Ok ==> ValidBlob(store)
      ensures status == Ok && old(store).committed == [] ==>
                Content(store) == FlatWrite(FlatRead(old(Content(store)), reading), offset, data)
      ensures status == Ok && old(store).committed != [] ==>
                && DistinctIds(store.committed) && lo <= offset && lo + oldSize <= |old(Content(store))|
                && (offset >= |old(Content(store))| ==> oldSize == 0)
                && Content(store) == Splice(Base(old(Content(store)), lo, oldSize, reading), offset, data)
                && KeepsIds(old(store).committed, store.committed)
      ensures status == Ok && reading == Whole && data != [] ==>
                (Content(store) == Splice(old(Content(store)), offset, data) <==>
                 old(store).committed != [] || old(Content(store)) != [] || offset == 0)
    {
      ghost var content := Content(store);
      if |store.committed| == 0 {
        status := WriteFlat(offset, data, reading);
        lo, oldSize := 0, 0;
        FlatWriteIff(content, offset, data);
      } else {
        status, lo, oldSize := WriteBlocks(offset, data, reading);
        if status == Ok && reading == Whole {
          BaseWhole(content, lo, oldSize, reading);
        }
      }
    }

    // ---------- Truncate ----------

    /** Read `length` bytes at `offset` into a zeroed buffer; may fail. */
    method ReadInBuffer(offset: nat, length: nat) returns (ok: bool, data: bytes)
      ensures ok ==> data == Resize(Content(store), offset + length)[offset..]
    {
      ok, data := *, [];
      if ok {
        data := Resize(Content(store), offset + length)[offset..];
      }
    }

    /** sort.Search: the first block that starts at `size` or later. */
    method SearchStart(list: BlockOffsetList, size: nat) returns (index: nat)
      requires Contiguous(list.blocks)
      ensures index <= |list.blocks|
      ensures forall i | 0 <= i < index :: list.blocks[i].start < size
      ensures forall i | index <= i < |list.blocks| :: list.blocks[i].start >= size
    {
      var i, j := 0, |list.blocks|;
      while i < j
        invariant 0 <= i <= j <= |list.blocks|
        invariant forall k | 0 <= k < i :: list.blocks[k].start < size
        invariant forall k | j <= k < |list.blocks| :: list.blocks[k].start >= size
      {
        var h := (i + j) / 2;
        if list.blocks[h].start < size {
          forall k | 0 <= k < h + 1 ensures list.blocks[k].start < size {
            Ordered(list.blocks, k, h);
          }
          i := h + 1;
        } else {
          forall k | h <= k < |list.blocks| ensures list.blocks[k].start >= size {
            Ordered(list.blocks, h, k);
          }
          j := h;
        }
      }
      index := i;
    }

    /** Shrink: drop the blocks behind the new end and cut the one it falls into. */
    method RemoveBlocksTruncate(list: BlockOffsetList, newSize: nat) returns (status: Status)
      requires list.blocks != [] ==> TruncReady(list.blocks, store, Content(store)) && Untruncated(list.blocks)
      requires 0 < newSize && (list.blocks != [] ==> newSize < Total(list.blocks))
      modifies list, this`store
      ensures store == old(store).(nextId := store.nextId) && store.nextId >= old(store).nextId
      ensures status == Failed(NoBlocksToRemove) <==> old(list.blocks) == []
      ensures status in {Ok, Failed(NoBlocksToRemove), Failed(TransferFailed)}
      ensures status == Ok ==>
                && list.modified && list.blocks != [] && |list.blocks| <= |old(list.blocks)|
                && TruncReady(list.blocks, store, Resize(Content(store), newSize)) && Untruncated(list.blocks)
                && forall size: nat | LegalLayout(old(list.blocks), size) :: LegalLayout(list.blocks, size)
    {
      hide LegalLayout, PartReady, TruncReady, Contiguous, Untruncated, Content;
      if |list.blocks| == 0 {
        return Failed(NoBlocksToRemove);
      }
      ghost var bl, st := list.blocks, store;
      TruncFacts(bl, st, Content(st));
      var idx := SearchStart(list, newSize);
      ShrinkIndex(bl, idx, newSize);
      idx := idx - 1;
      var blk := list.blocks[idx];
      var id: Id, data: bytes := 0, [];
      if blk.end > newSize {
        id := GetBlockID();
        SameContent(st, store);
        var ok;
        ok, data := ReadInBuffer(blk.start, newSize - blk.start);
        if !ok {
          return Failed(TransferFailed);
        }
        assert data == Content(st)[bl[idx].start..newSize];
        list.blocks := list.blocks[idx := blk.(end := newSize, id := id, dirty := true, data := data)];
      }
      list.blocks := list.blocks[..idx + 1];
      list.modified := true;
      assert list.blocks == Shrunk(bl, idx, newSize, id, data);
      ShrunkReady(bl, st, Content(st), idx, newSize, id, data, store);
      SameContent(st, store);
      forall size: nat | LegalLayout(bl, size) ensures LegalLayout(list.blocks, size) {
        ShrunkLegal(bl, idx, newSize, id, data, size);
      }
      status := Ok;
    }

    /** The size of the blocks to append when the caller has not chosen one. */
    method TruncateBlockSize(count: nat, length: nat) returns (status: Status, size: nat)
      requires length > 0
      ensures status in {Ok, Failed(BlockLimit), Failed(DivisionByZero)}
      ensures status == Failed(DivisionByZero) ==> count >= MAX_BLOCKS
      ensures status == Ok ==> size > 0 && (count <= MAX_BLOCKS ==> count + CeilDiv(length, size) <= MAX_BLOCKS)
      ensures status == Ok && blockSize <= MAX_STAGE_BLOCK_BYTES ==> size <= MAX_STAGE_BLOCK_BYTES
    {
      size := if blockSize == 0 then DEFAULT_BLOCK_SIZE else blockSize;
      if count + CeilDiv(length, size) > MAX_BLOCKS {
        if count >= MAX_BLOCKS {
          return Failed(DivisionByZero), size;
        }
        RecomputedFits(length, MAX_BLOCKS - count);
        size := CeilDiv(length, MAX_BLOCKS - count);
        if size > MAX_STAGE_BLOCK_BYTES {
          return Failed(BlockLimit), size;
        }
      }
      status := Ok;
    }

    /** Fill the last block up to the caller's block size, under a new id. */
    method AdjustLastBlock(list: BlockOffsetList, newSize: nat, size: nat, ghost content: bytes) returns (ok: bool)
      requires TruncReady(list.blocks, store, content) && Untruncated(list.blocks)
      requires list.blocks != [] && content == Content(store) && newSize > |content|
      modifies list`blocks, this`store
      ensures store == old(store).(nextId := store.nextId) && store.nextId >= old(store).nextId
      ensures ok ==>
                && |list.blocks| == |old(list.blocks)| && |content| <= Total(list.blocks) <= newSize
                && TruncReady(list.blocks, store, Resize(content, Total(list.blocks))) && Untruncated(list.blocks)
                && (LegalLayout(old(list.blocks), size) ==> LegalLayout(list.blocks, size))
                && (Total(list.blocks) == newSize || list.blocks[|list.blocks| - 1].end - list.blocks[|list.blocks| - 1].start >= size)
    {
      hide PartReady, TruncReady, Contiguous, Untruncated, Content, LegalLayout;
      ghost var bl, st := list.blocks, store;
      TruncFacts(bl, st, content);
      var last := list.blocks[|list.blocks| - 1];
      if last.end - last.start < size {
        var end := Min(last.start + size, newSize);
        var id := GetBlockID();
        SameContent(st, store);
        var data;
        ok, data := ReadInBuffer(last.start, end - last.start);
        if !ok {
          return;
        }
        list.blocks := list.blocks[|list.blocks| - 1 := last.(end := end, id := id, dirty := true, data := data)];
        assert list.blocks == LastGrown(bl, end, st.nextId, data);
        LastGrownReady(bl, st, content, end, data, store);
        LastGrownLegal(bl, end, st.nextId, data, size);
      } else {
        assert Resize(content, Total(list.blocks)) == content;
      }
      ok := true;
    }

    /** Grow: zero blocks up to the new size, behind the last block or, when the
        caller gave a block size, behind the last block filled up. */
    method CreateNewBlocksTruncate(list: BlockOffsetList, oldSize: nat, newSize: nat, size: nat, ghost content: bytes) returns (status: Status)
      requires TruncReady(list.blocks, store, content) && Untruncated(list.blocks) && oldSize < newSize
      requires list.blocks != [] ==> content == Content(store) && oldSize == |content|
      modifies list, this`store
      ensures store == old(store).(nextId := store.nextId) && store.nextId >= old(store).nextId
      ensures status in {Ok, Failed(BlockLimit), Failed(DivisionByZero), Failed(TransferFailed)}
      ensures status == Failed(DivisionByZero) ==> size == 0 && |old(list.blocks)| >= MAX_BLOCKS
      ensures status == Ok ==>
                && list.modified && TruncReady(list.blocks, store, Resize(content, newSize)) && OneBuffer(list.blocks)
                && list.blocks != []
      ensures status == Ok && oldSize == |content| && |old(list.blocks)| <= MAX_BLOCKS ==> |list.blocks| <= MAX_BLOCKS
      ensures status == Ok && size > 0 && LegalLayout(old(list.blocks), size) ==> LegalLayout(list.blocks, size)
    {
      hide PartReady, TruncReady, Contiguous, Untruncated, Content, LegalLayout, Extends, OneBuffer;
      ghost var bl, st := list.blocks, store;
      TruncFacts(bl, st, content);
      assert Resize(content, Total(bl)) == content;
      var length, bytesPerBlock := newSize - oldSize, size;
      if size == 0 {
        status, bytesPerBlock := TruncateBlockSize(|list.blocks|, length);
        if status != Ok {
          return;
        }
      } else {
        if |list.blocks| + CeilDiv(length, size) > MAX_BLOCKS {
          return Failed(BlockLimit);
        }
        if |list.blocks| > 0 {
          var ok := AdjustLastBlock(list, newSize, size, content);
          if !ok {
            return Failed(TransferFailed);
          }
        }
      }
      ghost var mid, midStore, midContent := list.blocks, store, Resize(content, Total(list.blocks));
      TruncFacts(mid, midStore, midContent);
      var bufferSize := AppendBlocks(list, newSize, bytesPerBlock);
      list.modified := true;
      ExtendedReady(mid, list.blocks, midStore, midContent, newSize, bytesPerBlock, store);
      ResizeTwice(content, |midContent|, newSize);
      ExtendsExact(mid, list.blocks, newSize, bytesPerBlock, midStore.nextId, store.nextId);
      if oldSize == |content| {
        CeilDivMonotone(newSize - Total(mid), length, bytesPerBlock);
      }
      if size > 0 && LegalLayout(bl, size) {
        ExtendedLegal(mid, list.blocks, newSize, size, midStore.nextId, store.nextId);
      }
      ExtendsNonEmpty(mid, list.blocks, newSize, bytesPerBlock, midStore.nextId, store.nextId);
      status := Ok;
    }

    /** Stage every marked block, zero blocks from one buffer of zeros, and commit. */
    method StageAndCommit(list: BlockOffsetList, ghost target: bytes) returns (status: Status)
      requires TruncReady(list.blocks, store, target) && OneBuffer(list.blocks)
      requires list.modified && list.blocks != []
      modifies this`store
      ensures status in {Ok, Failed(TransferFailed)}
      ensures IdsBelow(store)
      ensures status != Ok ==> store.committed == old(store).committed && store.flat == old(store).flat
      ensures status == Ok ==>
                && HoldsParts(list.blocks, store.committed, target) && ValidBlob(store)
                && Content(store) == target && store.staged == map[]
    {
      hide PartReady, TruncReady, Contiguous, Content, PartsStaged, HoldsParts, ValidBlob, Find, Known, IdsBelow, Serves, OneBuffer;
      var bl := list.blocks;
      var ids: seq<Id> := [];
      var truncBuf: bytes, zeroed := [], false;
      var staged := list.modified;
      ghost var st := store;
      PartsNone(bl, st, target);
      TruncFacts(bl, st, target);
      while |ids| < |bl|
        invariant |ids| <= |bl|
        invariant forall i | 0 <= i < |ids| :: ids[i] == bl[i].id
        invariant PartsStaged(bl, st, store, target, |ids|)
        invariant staged
        invariant zeroed ==> Serves(bl, truncBuf, |ids|)
      {
        var blk, data := bl[|ids|], bl[|ids|].data;
        ghost var now := store;
        NonEmpty(bl, |ids|);
        if blk.truncated {
          if !zeroed {
            truncBuf, zeroed := Zeros(blk.end - blk.start), true;
            FirstServes(bl, |ids|);
          }
          ServesBlock(bl, truncBuf, |ids|);
          if |truncBuf| < blk.end - blk.start {
            return Failed(TruncateBufferTooSmall);
          }
          data := truncBuf[..blk.end - blk.start];
        }
        PartData(bl, st, target, |ids|, data);
        if blk.dirty {
          var sent: bool := *;
          if !sent {
            PartsFacts(bl, st, store, target, |ids|);
            return Failed(TransferFailed);
          }
          store := Stage(store, blk.id, data);
          staged := true;
        }
        PartsStep(bl, st, now, target, |ids|, store);
        if zeroed {
          ServesNext(bl, truncBuf, |ids|);
        }
        ids := ids + [blk.id];
      }
      PartsFacts(bl, st, store, target, |bl|);
      if staged {
        var ok: bool := *;
        if !ok {
          return Failed(TransferFailed);
        }
        PartsDone(bl, st, store, target, ids);
        store := Commit(store, ids);
      }
      ValidIds(store);
      status := Ok;
    }

    /** The blob's bytes as fresh blocks that are still to be staged. */
    method PartitionBlob(list: BlockOffsetList, content: bytes) returns (size: nat)
      requires list.blocks == [] && IdsBelow(store)
      modifies list`blocks, this`store
      ensures store == old(store).(nextId := store.nextId) && store.nextId >= old(store).nextId
      ensures TruncReady(list.blocks, store, content) && Untruncated(list.blocks)
      ensures size == (if blockSize == 0 then DEFAULT_BLOCK_SIZE else blockSize) && |list.blocks| <= CeilDiv(|content|, size)
    {
      hide TruncReady, Contiguous, Pieces, Untruncated;
      size := if blockSize == 0 then DEFAULT_BLOCK_SIZE else blockSize;
      ghost var st := store;
      PiecesNone(st, content, size);
      var i := 0;
      while i < |content|
        invariant 0 <= i <= |content|
        invariant Pieces(list.blocks, store, content, i, size, st.nextId)
        invariant i < |content| ==> |list.blocks| * size == i
        invariant store == st.(nextId := store.nextId) && store.nextId >= st.nextId
      {
        var end := Min(i + size, |content|);
        PiecesStep(list.blocks, store, content, i, end, size, st.nextId);
        var id := GetBlockID();
        list.blocks := list.blocks + [Block(id, i, end, true, false, content[i..end])];
        i := end;
      }
      PiecesReady(list.blocks, store, content, size, st.nextId);
      PiecesCount(list.blocks, store, content, size, st.nextId);
    }

    /** Small files without a block size: read, resize, upload again. */
    method TruncateFileWithoutBlocks(oldSize: nat, newSize: nat) returns (ok: bool)
      requires ValidBlob(store) && oldSize == |Content(store)|
      modifies this`store
      ensures ok ==> ValidBlob(store) && store.committed == [] && store.staged == map[] && Content(store) == Resize(old(Content(store)), newSize)
      ensures !ok ==> store == old(store)
    {
      ValidIds(store);
      var buf := Zeros(newSize);
      if oldSize > 0 {
        var kept := Min(newSize, oldSize);
        var data;
        ok, data := ReadInBuffer(0, kept);
        if !ok {
          return;
        }
        buf := data + buf[kept..];
      }
      assert buf == Resize(Content(store), newSize);
      ok := WriteFromBuffer(buf);
    }

    /** The list truncation starts from, ready to be staged: what storage has, or
        the blob uploaded in one request cut into blocks. With a block size given
        such a blob is not cut, and its list stays empty. */
    method TruncateList(oldSize: nat, size: nat) returns (status: Status, list: BlockOffsetList)
      requires ValidBlob(store) && oldSize == |Content(store)|
      requires Configured() && |store.committed| <= MAX_BLOCKS
      modifies this`store
      ensures store == old(store).(nextId := store.nextId) && store.nextId >= old(store).nextId
      ensures status in {Ok, Failed(TransferFailed), Failed(Inconsistent)} && fresh(list)
      ensures status == Failed(Inconsistent) <==> store.committed == [] && oldSize > MAX_UPLOAD_BLOB_BYTES
      ensures status == Ok ==>
                && TruncReady(list.blocks, store, if Unpartitioned(store, size) then [] else Content(store))
                && Untruncated(list.blocks) && |list.blocks| <= MAX_BLOCKS
                && (size > 0 && ValidList(store.committed, size) ==> LegalLayout(list.blocks, size))
    {
      hide TruncReady, Untruncated, ValidBlob, Mirrors, Contiguous;
      ghost var st := store;
      ValidIds(st);
      list := GetFileBlockOffsets();
      ListTotal(list.blocks, st);
      if |list.blocks| == 0 && oldSize > 0 {
        if oldSize > MAX_UPLOAD_BLOB_BYTES {
          return Failed(Inconsistent), list;
        }
        var ok, buf := ReadInBuffer(0, oldSize);
        if !ok {
          return Failed(TransferFailed), list;
        }
        assert buf == Content(store);
        if size == 0 {
          var bytesPerBlock := PartitionBlob(list, buf);
          SmallBlobFits(oldSize, bytesPerBlock);
          SameContent(st, store);
        } else {
          EmptyReady(store);
        }
        list.modified := true;
      } else {
        var ok := list.ValidateBlockListAgainstFileSize(oldSize);
        if !ok {
          return Failed(Inconsistent), list;
        }
        if |list.blocks| == 0 {
          EmptyReady(store);
        } else {
          MirrorsReady(list.blocks, st);
        }
        LayoutOfMirror(list.blocks, st.committed, size);
      }
      status := Ok;
    }

    ghost predicate Configured() {
      blockSize == 0 || 0x10_0000 <= blockSize <= MAX_STAGE_BLOCK_BYTES
    }

    /** Truncate by editing the block list. */
    method TruncateFileUsingBlocks(oldSize: nat, newSize: nat, size: nat) returns (status: Status)
      requires ValidBlob(store) && oldSize == |Content(store)|
      requires Configured() && |store.committed| <= MAX_BLOCKS
      requires 0 < newSize && newSize != oldSize && (size == 0 ==> newSize > MAX_UPLOAD_BLOB_BYTES)
      modifies this`store
      ensures status != Failed(TruncateBufferTooSmall)
      ensures status != Ok ==> Content(store) == old(Content(store))
      ensures status == Ok ==>
                && ValidBlob(store) && Content(store) == Truncated(old(store), newSize, size)
                && store.committed != [] && store.staged == map[]
                && (!Unpartitioned(old(store), size) ==> |store.committed| <= MAX_BLOCKS)
                && (size > 0 && ValidList(old(store).committed, size) ==> ValidList(store.committed, size))
      ensures Unpartitioned(old(store), size) && newSize < oldSize ==> status != Ok
    {
      hide TruncReady, Untruncated, ValidBlob, Contiguous, HoldsParts, LegalLayout, ValidList, OneBuffer, IdsBelow, Content;
      ghost var st := store;
      var list;
      status, list := TruncateList(oldSize, size);
      SameContent(st, store);
      if status != Ok {
        return;
      }
      ghost var content := if Unpartitioned(st, size) then [] else Content(st);
      TruncFacts(list.blocks, store, content);
      FlatContent(st);
      ghost var mid := store;
      if newSize < oldSize {
        status := RemoveBlocksTruncate(list, newSize);
        SameContent(mid, store);
        if status == Ok {
          UntruncatedOneBuffer(list.blocks);
        }
      } else {
        status := CreateNewBlocksTruncate(list, oldSize, newSize, size, content);
        SameContent(mid, store);
      }
      if status != Ok {
        return;
      }
      ghost var before := store;
      status := StageAndCommit(list, Resize(content, newSize));
      if status == Ok {
        PartsCount(list.blocks, store.committed, Resize(content, newSize));
        if LegalLayout(list.blocks, size) {
          LayoutOfParts(list.blocks, store.committed, Resize(content, newSize), size);
        }
        assert Resize([], newSize) == Zeros(newSize);
      } else {
        SameContent(before, store);
      }
    }

    /** Change the length of the blob. `oldSize` is its size, or -1 when the caller
        does not know it; `size` is the caller's block size, or 0. */
    method TruncateFile(oldSize: int, newSize: nat, size: nat) returns (status: Status)
      requires ValidBlob(store) && (oldSize == -1 || oldSize == |Content(store)|)
      requires Configured() && |store.committed| <= MAX_BLOCKS
      modifies this`store
      ensures status != Failed(TruncateBufferTooSmall)
      ensures status != Ok ==> Content(store) == old(Content(store))
      ensures status == Ok ==>
                && ValidBlob(store) && Content(store) == Truncated(old(store), newSize, size)
                && (!Unpartitioned(old(store), size) ==> |store.committed| <= MAX_BLOCKS)
                && (size > 0 && ValidList(old(store).committed, size) ==> ValidList(store.committed, size))
                && (size > 0 && !Unpartitioned(old(store), size) && store.committed == [] ==> store.flat == [])
                && (old(store).staged == map[] ==> store.staged == map[])
      ensures Unpartitioned(old(store), size) && 0 < newSize < |old(Content(store))| ==> status != Ok
    {
      hide ValidBlob;
      var size0 := oldSize;
      ghost var st := store;
      if oldSize == -1 {
        var ok: bool := *;
        if !ok {
          return Failed(TransferFailed);
        }
        size0 := |Content(store)|;
      }
      if size0 == newSize {
        assert Resize(Content(store), newSize) == Content(store);
        return Ok;
      }
      if newSize == 0 {
        ValidIds(store);
        var ok := WriteFromBuffer([]);
        return if ok then Ok else Failed(TransferFailed);
      }
      if newSize <= MAX_UPLOAD_BLOB_BYTES && size == 0 {
        var ok := TruncateFileWithoutBlocks(size0, newSize);
        return if ok then Ok else Failed(TransferFailed);
      }
      status := TruncateFileUsingBlocks(size0, newSize, size);
    }
  }
}
