/** Copying user bytes into a cached block is a splice on the logical file. */
module WriteEdit {
  import opened Bytes
  import opened Storage
  import opened Lists
  import opened WriteState
  import opened WriteSteps

  /** How far the handle accounts for the file once block `k` is modified and the
      file ends at `length`. */
  function Reach(s: State, k: nat, length: nat): nat {
    if s.size == s.length then length
    else if s.size < Min(length, k * s.bs + s.bs) then Min(length, k * s.bs + s.bs) else s.size
  }

  /** Overwrite part of a cached block; the file grows when the end moves out. */
  function WriteData(s: State, p: Ptr, offset: nat, chunk: bytes): State
    requires p in s.mem && offset + |chunk| <= |s.mem[p].data|
  {
    var b := s.mem[p];
    var end := b.id * s.bs + offset + |chunk|;
    var length := if s.length < end then end else s.length;
    s.(mem := s.mem[p := b.(data := Overwrite(b.data, offset, chunk), dirty := true)],
       length := length, size := Reach(s, b.id, length),
       handleDirty := true)
  }

  function Overwrite(data: bytes, offset: nat, chunk: bytes): (r: bytes)
    requires offset + |chunk| <= |data|
    ensures |r| == |data|
    ensures forall j | 0 <= j < |r| :: r[j] == if offset <= j < offset + |chunk| then chunk[j - offset] else data[j]
  {
    data[..offset] + chunk + data[offset + |chunk|..]
  }

  ghost predicate CanWrite(s: State, p: Ptr, offset: nat, chunk: bytes) {
    && p in s.cooking && p in s.mem && p !in s.uploads && p !in s.downloads
    && !s.mem[p].downloading && !s.mem[p].synced
    && chunk != [] && offset + |chunk| <= s.bs && |s.mem[p].data| == s.bs
  }

  /** A reader sees zeros past the end of the file. */
  lemma BlkTail(s: State, k: nat, j: nat)
    requires Base(s) && j < s.bs && s.size <= k * s.bs + j
    ensures |Blk(s, k)| == s.bs && Blk(s, k)[j] == 0
  {
    if DirtyAt(s, k) {
      assert ValueOk(s, k) && BlockOk(s, s.values[k]);
      assert TailZero(s, s.mem[s.values[k]]);
    } else if k in s.blockList {
      assert EntryOk(s, k);
    }
  }

  /** The block's own bytes are what the file had there before the write. */
  lemma CachedIsBlk(s: State, p: Ptr)
    requires Base(s) && Linked(s, p) && p in s.mem && p !in s.downloads && !s.mem[p].downloading
    ensures Blk(s, s.mem[p].id) == s.mem[p].data && |s.mem[p].data| == s.bs
  {
    assert BlockOk(s, p) && ValueOk(s, s.mem[p].id);
  }

  lemma WriteDataBlock(s: State, p: Ptr, offset: nat, chunk: bytes, q: Ptr)
    requires Base(s) && CanWrite(s, p, offset, chunk)
    requires Linked(WriteData(s, p, offset, chunk), q)
    ensures BlockOk(WriteData(s, p, offset, chunk), q)
  {
    assert Linked(s, q) && BlockOk(s, q);
    var t := WriteData(s, p, offset, chunk);
    WrittenSize(s, p, offset, chunk);
    if q == p {
      CachedIsBlk(s, p);
      var b := s.mem[p];
      forall j | 0 <= j < s.bs && t.size <= b.id * s.bs + j ensures t.mem[p].data[j] == 0 {
        BlkTail(s, b.id, j);
      }
    } else {
      assert StoredBlk(t, s.mem[q].id) == StoredBlk(s, s.mem[q].id);
    }
  }

  lemma WriteDataEntry(s: State, p: Ptr, offset: nat, chunk: bytes, k: nat)
    requires Base(s) && CanWrite(s, p, offset, chunk) && k in s.blockList
    ensures EntryOk(WriteData(s, p, offset, chunk), k)
  {
    assert EntryOk(s, k);
    WrittenSize(s, p, offset, chunk);
    if InPlace(s, k) {
      PlaceFrame(s, WriteData(s, p, offset, chunk), k);
    }
  }

  /** The last block is unique. */
  lemma LastUnique(s: State, m: nat, k: nat)
    requires s.bs > 0 && IsLast(s, m) && IsLast(s, k)
    ensures m == k
  {
    assert (m - k) * s.bs == m * s.bs - k * s.bs;
    if m != k {
      NonZeroMultiple(m - k, s.bs);
    }
  }

  /** The accounted size covers the written bytes, ends inside the block if it has
      moved, and is the whole length if it was before. */
  lemma WrittenSize(s: State, p: Ptr, offset: nat, chunk: bytes)
    requires Base(s) && CanWrite(s, p, offset, chunk)
    ensures var k, t := s.mem[p].id, WriteData(s, p, offset, chunk);
            && Span(t) && s.size <= t.size <= t.length && k * s.bs + offset + |chunk| <= t.size
            && (t.size != s.size ==> k * s.bs < t.size <= k * s.bs + s.bs)
            && (s.size == s.length ==> t.size == t.length)
            && t.length == Max(s.length, k * s.bs + offset + |chunk|)
  {
    assert Linked(s, p) && BlockOk(s, p);
    var k := s.mem[p].id;
    DivMod(k + 1, 0, s.bs);
    assert (k + 1) * s.bs == k * s.bs + s.bs;
  }

  lemma WriteDataCovered(s: State, p: Ptr, offset: nat, chunk: bytes, m: nat)
    requires Base(s) && CanWrite(s, p, offset, chunk) && IsLast(WriteData(s, p, offset, chunk), m)
    ensures Covered(WriteData(s, p, offset, chunk), m)
  {
    var t := WriteData(s, p, offset, chunk);
    assert Linked(s, p) && BlockOk(s, p);
    WrittenSize(s, p, offset, chunk);
    if t.size == s.size {
      assert IsLast(s, m) && Covered(s, m);
    } else {
      LastUnique(t, m, s.mem[p].id);
    }
  }

  lemma WriteDataBase(s: State, p: Ptr, offset: nat, chunk: bytes)
    requires Base(s) && CanWrite(s, p, offset, chunk)
    ensures Base(WriteData(s, p, offset, chunk))
  {
    var t := WriteData(s, p, offset, chunk);
    WrittenSize(s, p, offset, chunk);
    forall q | Linked(t, q) ensures BlockOk(t, q) {
      WriteDataBlock(s, p, offset, chunk, q);
    }
    forall i | i in t.values ensures ValueOk(t, i) {
      assert ValueOk(s, i);
    }
    forall i | i in t.blockList ensures EntryOk(t, i) {
      WriteDataEntry(s, p, offset, chunk, i);
    }
    forall q | q in t.uploads ensures UploadIdOk(t, q) {
      assert UploadIdOk(s, q);
    }
    forall m: nat | IsLast(t, m) ensures Covered(t, m) {
      WriteDataCovered(s, p, offset, chunk, m);
    }
  }

  lemma WriteDataBlk(s: State, p: Ptr, offset: nat, chunk: bytes, k: nat)
    requires Base(s) && CanWrite(s, p, offset, chunk)
    ensures offset + |chunk| <= |Blk(s, s.mem[p].id)|
    ensures Blk(WriteData(s, p, offset, chunk), k) ==
            if k == s.mem[p].id then Overwrite(Blk(s, k), offset, chunk) else Blk(s, k)
  {
    CachedIsBlk(s, p);
    assert BlockOk(s, p);
    assert k in s.values ==> ValueOk(s, k);
  }

  /** Positions in different blocks differ. */
  lemma OtherBlock(k: nat, l: nat, n: nat, i: nat)
    requires k != l && i < n
    ensures !(l * n <= k * n + i < l * n + n)
  {
    NonZeroMultiple(k - l, n);
    assert (k - l) * n == k * n - l * n;
  }

  /** Byte `k*bs + j` of the file is byte `j` of block `k`, also past the end. */
  lemma FileByte(s: State, k: nat, j: nat)
    requires Base(s) && Blocks(s) && j < s.bs
    ensures |Blk(s, k)| == s.bs && At(Logical(s), k * s.bs + j) == Blk(s, k)[j]
  {
    var i := k * s.bs + j;
    if i < s.size {
      DivMod(k, j, s.bs);
    } else {
      BlkTail(s, k, j);
    }
  }

  lemma WriteDataByte(s: State, p: Ptr, offset: nat, chunk: bytes, k: nat, j: nat)
    requires Base(s) && Blocks(s) && CanWrite(s, p, offset, chunk) && j < s.bs
    requires k * s.bs + j < WriteData(s, p, offset, chunk).size
    ensures |Blk(WriteData(s, p, offset, chunk), k)| == s.bs
    ensures var start := s.mem[p].id * s.bs + offset;
            var i := k * s.bs + j;
            Blk(WriteData(s, p, offset, chunk), k)[j] ==
            if start <= i < start + |chunk| then chunk[i - start] else At(Logical(s), i)
  {
    hide Base, Blocks, Blk, Logical, At, WriteData;
    WriteDataBlk(s, p, offset, chunk, k);
    FileByte(s, k, j);
    if k != s.mem[p].id {
      OtherBlock(k, s.mem[p].id, s.bs, j);
    }
  }

  /** Writing into a block splices the file at the block's place. Where the handle
      did not account for the whole length, zeros up to the end of the block or of
      the file come with it. */
  lemma WriteDataKeeps(s: State, p: Ptr, offset: nat, chunk: bytes)
    requires Base(s) && CanWrite(s, p, offset, chunk)
    ensures Base(WriteData(s, p, offset, chunk))
    ensures Blocks(s) && Blocks(WriteData(s, p, offset, chunk))
    ensures var t, start := WriteData(s, p, offset, chunk), s.mem[p].id * s.bs + offset;
            && Logical(t) == Resize(Splice(Logical(s), start, chunk), t.size)
            && (s.size == s.length ==> Logical(t) == Splice(Logical(s), start, chunk))
  {
    hide Base, CanWrite, Blocks, Splice;
    ChunkIn(s, p, offset, chunk);
    BaseBlocks(s);
    WriteDataBase(s, p, offset, chunk);
    var t, start := WriteData(s, p, offset, chunk), s.mem[p].id * s.bs + offset;
    BaseBlocks(t);
    WrittenSize(s, p, offset, chunk);
    LogicalLength(s);
    LogicalLength(t);
    hide Logical, At;
    forall i | 0 <= i < t.size ensures Logical(t)[i] == At(Splice(Logical(s), start, chunk), i) {
      WriteDataByteAt(s, p, offset, chunk, i);
      SpliceAt(Logical(s), start, chunk, i);
    }
    assert s.size == s.length ==> |Splice(Logical(s), start, chunk)| == t.size;
  }

  lemma LogicalLength(s: State)
    requires Blocks(s)
    ensures |Logical(s)| == s.size
  {
  }

  lemma LogicalAt(s: State, i: nat)
    requires s.bs > 0 && Blocks(s) && i < s.size
    ensures |Logical(s)| == s.size && |Blk(s, i / s.bs)| == s.bs && Logical(s)[i] == Blk(s, i / s.bs)[i % s.bs]
  {
  }

  lemma ChunkIn(s: State, p: Ptr, offset: nat, chunk: bytes)
    requires CanWrite(s, p, offset, chunk)
    ensures p in s.mem && chunk != [] && offset + |chunk| <= |s.mem[p].data|
  {
  }

  lemma SpliceAt(s: bytes, offset: nat, data: bytes, i: nat)
    requires data != []
    ensures At(Splice(s, offset, data), i) == if offset <= i < offset + |data| then data[i - offset] else At(s, i)
  {
  }

  lemma WriteDataByteAt(s: State, p: Ptr, offset: nat, chunk: bytes, i: nat)
    requires Base(s) && CanWrite(s, p, offset, chunk) && Blocks(s) && Blocks(WriteData(s, p, offset, chunk))
    requires i < WriteData(s, p, offset, chunk).size
    ensures var start := s.mem[p].id * s.bs + offset;
            Logical(WriteData(s, p, offset, chunk))[i] ==
            if start <= i < start + |chunk| then chunk[i - start] else At(Logical(s), i)
  {
    hide CanWrite, Splice, Base, Blk, At, Logical;
    ChunkIn(s, p, offset, chunk);
    PositiveSize(s);
    DivParts(i, s.bs);
    LogicalAt(WriteData(s, p, offset, chunk), i);
    WriteDataByte(s, p, offset, chunk, i / s.bs, i % s.bs);
  }

  lemma DivParts(i: nat, n: nat)
    requires n > 0
    ensures i / n * n + i % n == i && i % n < n
  {
  }
}
