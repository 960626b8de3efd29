/** Where the block layer's promises end, and the arithmetic of block sizes. */
module BlobLimits {
  import opened Bytes
  import opened Storage
  import opened BlockList
  import opened BlobBlocks
  import opened BlobTruncate

  const MAX_BLOB_SIZE: nat := MAX_STAGE_BLOCK_BYTES * MAX_BLOCKS
  const DEFAULT_DOWNLOAD_BLOCK_SIZE: nat := 4194304

  /** The block size for uploading `fileSize` bytes: big enough to fit the block
      limit, small enough to be staged. The check after rounding never fires,
      so only files over the blob limit are refused. */
  method CalculateBlockSize(fileSize: nat) returns (ok: bool, blockSize: nat)
    ensures ok <==> fileSize <= MAX_BLOB_SIZE
    ensures ok ==> 0 < blockSize <= MAX_STAGE_BLOCK_BYTES && fileSize <= blockSize * MAX_BLOCKS
    ensures ok && blockSize > DEFAULT_DOWNLOAD_BLOCK_SIZE ==> blockSize % 8 == 0
    ensures ok && fileSize > MAX_UPLOAD_BLOB_BYTES && blockSize > DEFAULT_DOWNLOAD_BLOCK_SIZE ==>
              blockSize * MAX_BLOCKS < fileSize + 8 * MAX_BLOCKS
  {
    if fileSize > MAX_BLOB_SIZE {
      return false, 0;
    }
    if fileSize <= MAX_UPLOAD_BLOB_BYTES {
      blockSize := MAX_UPLOAD_BLOB_BYTES;
    } else {
      blockSize := CeilDiv(fileSize, MAX_BLOCKS);
      if blockSize < DEFAULT_DOWNLOAD_BLOCK_SIZE {
        blockSize := DEFAULT_DOWNLOAD_BLOCK_SIZE;
      } else {
        if blockSize / 8 * 8 != 0 {
          blockSize := (blockSize + 7) / 8 * 8;
        }
        if blockSize > MAX_STAGE_BLOCK_BYTES {
          return false, 0;
        }
      }
    }
    ok := true;
  }

  /** A write stages changed blocks under their old ids. Wherever else the list
      names such an id, those bytes change as well. */
  lemma SharedIdOverwritten(st: Store, ids: seq<Id>, i: nat, j: nat, data: bytes)
    requires i < |ids| && j < |ids| && Known(st, ids)
    ensures Known(Stage(st, ids[i], data), ids)
    ensures Pick(Stage(st, ids[i], data), ids)[j].data == if ids[j] == ids[i] then data else Pick(st, ids)[j].data
  {
    var st' := Stage(st, ids[i], data);
    forall k | 0 <= k < |ids| ensures Find(st', ids[k]) == if ids[k] == ids[i] then Found(data) else Find(st, ids[k]) {
    }
    assert Known(st', ids);
    assert Find(st', ids[j]) == Found(Pick(st', ids)[j].data);
  }

  /** The limit check before a write counts the bytes written, not the gap they
      leave: a list within the limit can grow past it exactly when the gap and
      the data together need more blocks than are left. */
  lemma GapOverflows(bl: seq<Block>, bl': seq<Block>, offset: nat, length: nat, size: nat, first: Id, next: Id)
    requires Extends(bl, bl', offset + length, size, first, next) && size > 0
    requires |bl| + CeilDiv(length, size) <= MAX_BLOCKS
    ensures |bl'| > MAX_BLOCKS <==> |bl| + CeilDiv(Max(offset + length - Total(bl), 0), size) > MAX_BLOCKS
    ensures offset <= Total(bl) ==> |bl'| <= MAX_BLOCKS
  {
    ExtendsExact(bl, bl', offset + length, size, first, next);
    if offset <= Total(bl) {
      CeilDivMonotone(Max(offset + length - Total(bl), 0), length, size);
    }
  }
}
