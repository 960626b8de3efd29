/** Truncation by the block cache: the blob it leaves can be opened for writing
    with the same block size. */
module TruncateOpen {
  import opened Bytes
  import opened Storage
  import opened BlobBlocks
  import opened BlobTruncate
  import BlockBlob
  import WriteOpen
  import WriteHandle
  import WriteState

  lemma ValidIsStored(st: Store)
    requires ValidBlob(st) && st.staged == map[] && |st.committed| <= MAX_BLOCKS
    ensures WriteOpen.StoredBlob(st)
  {
  }

  /** Truncate with the cache's block size, then open: the handle shows the old
      content resized. */
  method TruncateAndOpen(blob: BlockBlob.BlockBlob, newSize: nat, blockSize: nat, recorded: bool, prefetch: nat)
    returns (status: Status, h: WriteHandle.Handle?)
    requires ValidBlob(blob.store) && blob.store.staged == map[] && |blob.store.committed| <= MAX_BLOCKS && blob.Configured()
    requires blockSize > 0 && ValidList(blob.store.committed, blockSize) && !Unpartitioned(blob.store, blockSize)
    modifies blob`store
    ensures status == Ok ==>
              h != null && WriteState.Inv(h.View()) && WriteState.File(h.View()) == Resize(old(Content(blob.store)), newSize)
    ensures status != Ok ==> h == null && Content(blob.store) == old(Content(blob.store))
  {
    hide ValidBlob, ValidList, WriteState.Inv, WriteOpen.StoredBlob;
    h := null;
    status := blob.TruncateFile(-1, newSize, blockSize);
    if status == Ok {
      ValidIsStored(blob.store);
      h := WriteHandle.Handle.OpenFile(blob.store, blockSize, recorded, prefetch);
    }
  }
}
