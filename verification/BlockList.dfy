/** The block list of a blob as offsets: which block holds which bytes. */
module BlockList {
  import opened Bytes
  import opened Storage

  datatype Block = Block(id: Id, start: nat, end: nat, dirty: bool, truncated: bool, data: bytes)

  /** Non-empty blocks back to back from byte 0. */
  ghost predicate Contiguous(bl: seq<Block>) {
    && (forall i | 0 <= i < |bl| :: bl[i].start < bl[i].end)
    && (|bl| > 0 ==> bl[0].start == 0)
    && (forall i | 0 < i < |bl| :: bl[i].start == bl[i - 1].end)
  }

  function Total(bl: seq<Block>): nat {
    if bl == [] then 0 else bl[|bl| - 1].end
  }

  lemma {:induction false} Ordered(bl: seq<Block>, i: nat, j: nat)
    requires Contiguous(bl) && i <= j < |bl|
    ensures i < j ==> bl[i].end <= bl[j].start
    ensures bl[i].start <= bl[j].start && bl[j].end <= Total(bl)
    decreases j - i, |bl| - j
  {
    if i < j {
      if i + 1 < j {
        Ordered(bl, i + 1, j);
      }
      if j + 1 < |bl| {
        Ordered(bl, j, j + 1);
        Ordered(bl, j + 1, j + 1);
      }
    } else if j + 1 < |bl| {
      Ordered(bl, j + 1, j + 1);
    }
  }

  lemma Adjacent(bl: seq<Block>, i: nat)
    requires Contiguous(bl) && 0 < i < |bl|
    ensures bl[i].start == bl[i - 1].end
  {
  }

  lemma NonEmpty(bl: seq<Block>, i: nat)
    requires Contiguous(bl) && i < |bl|
    ensures bl[i].start < bl[i].end
  {
  }

  /** The bytes the list describes, given what each id resolves to. */
  ghost predicate Describes(bl: seq<Block>, l: seq<Stored>) {
    && |bl| == |l|
    && forall i | 0 <= i < |bl| :: |l[i].data| == bl[i].end - bl[i].start
  }

  lemma {:induction false} ConcatBlocks(bl: seq<Block>, l: seq<Stored>, n: nat)
    requires Contiguous(bl) && Describes(bl, l) && n <= |l|
    ensures |Concat(l[..n])| == Total(bl[..n])
    ensures forall i | 0 <= i < n :: bl[i].end <= |Concat(l[..n])| && Concat(l[..n])[bl[i].start..bl[i].end] == l[i].data
  {
    if n > 0 {
      ConcatBlocks(bl, l, n - 1);
      assert l[..n][..n - 1] == l[..n - 1];
      var c := Concat(l[..n - 1]);
      assert Concat(l[..n]) == c + l[n - 1].data;
      forall i | 0 <= i < n - 1 ensures Concat(l[..n])[bl[i].start..bl[i].end] == l[i].data {
        assert (c + l[n - 1].data)[bl[i].start..bl[i].end] == c[bl[i].start..bl[i].end];
      }
      assert |c| == bl[n - 1].start;
      assert (c + l[n - 1].data)[bl[n - 1].start..bl[n - 1].end] == l[n - 1].data;
    }
  }

  /** Position `p` lies in exactly one block. */
  lemma {:induction false} BlockAt(bl: seq<Block>, p: nat) returns (i: nat)
    requires Contiguous(bl) && p < Total(bl)
    ensures i < |bl| && bl[i].start <= p < bl[i].end
  {
    i := |bl| - 1;
    while p < bl[i].start
      invariant 0 <= i < |bl| && p < bl[i].end
    {
      i := i - 1;
    }
  }

  /** Contents that agree on every block are equal. */
  lemma EqualBlocks(bl: seq<Block>, a: bytes, b: bytes)
    requires Contiguous(bl) && |a| == |b| == Total(bl)
    requires forall i | 0 <= i < |bl| ::
               bl[i].end <= Total(bl) && a[bl[i].start..bl[i].end] == b[bl[i].start..bl[i].end]
    ensures a == b
  {
    forall p | 0 <= p < |a| ensures a[p] == b[p] {
      var i := BlockAt(bl, p);
      assert a[p] == a[bl[i].start..bl[i].end][p - bl[i].start];
      assert b[p] == b[bl[i].start..bl[i].end][p - bl[i].start];
    }
  }

  class BlockOffsetList {
    var blocks: seq<Block>
    var modified: bool

    constructor (blocks: seq<Block>)
      ensures this.blocks == blocks && !modified
    {
      this.blocks, modified := blocks, false;
    }

    /** The block holding `offset`, or the number of blocks when there is none. */
    method BinarySearch(offset: nat) returns (found: bool, index: nat)
      requires Contiguous(blocks)
      ensures found <==> offset < Total(blocks)
      ensures found ==> index < |blocks| && blocks[index].start <= offset < blocks[index].end
      ensures !found ==> index == |blocks|
    {
      var lower: int, higher: int := 0, |blocks| - 1;
      while lower <= higher
        invariant 0 <= lower <= |blocks| && -1 <= higher < |blocks| && lower <= higher + 1
        invariant lower > 0 ==> blocks[lower - 1].end <= offset
        invariant higher < |blocks| - 1 ==> offset < blocks[higher + 1].start
        decreases higher - lower
      {
        var middle := (lower + higher) / 2;
        if blocks[middle].end > offset && blocks[middle].start <= offset {
          Ordered(blocks, middle, middle);
          return true, middle;
        } else if blocks[middle].end <= offset {
          lower := middle + 1;
        } else {
          higher := middle - 1;
        }
      }
      return false, |blocks|;
    }

    /** Mark the blocks a write of `length` bytes at `offset` reaches: from the one
        holding `offset` up to the last that starts no later than the write ends. */
    method FindBlocksToModify(offset: nat, length: nat)
      returns (index: nat, size: nat, exceeds: bool, appendOnly: bool)
      requires Contiguous(blocks) && forall i | 0 <= i < |blocks| :: !blocks[i].dirty
      modifies this`blocks
      ensures appendOnly <==> offset >= Total(old(blocks))
      ensures exceeds <==> offset + length >= Total(old(blocks))
      ensures appendOnly ==> blocks == old(blocks) && index == |blocks| && size == 0
      ensures !appendOnly ==>
                && index < |old(blocks)|
                && old(blocks)[index].start <= offset < old(blocks)[index].end
                && blocks == MarkedFrom(old(blocks), index, offset + length)
                && MarkedSize(old(blocks), index, offset + length, size)
    {
      var found;
      found, index := BinarySearch(offset);
      size, appendOnly := 0, true;
      if !found {
        return index, 0, true, true;
      }
      ghost var bl := blocks;
      var current := offset;
      var i := index;
      while i < |blocks|
        invariant index <= i <= |blocks| == |bl|
        invariant forall j | 0 <= j < |bl| :: blocks[j] == if index <= j < i then bl[j].(dirty := true) else bl[j]
        invariant current == if i == index then offset else bl[i - 1].end
        invariant size == if i == index then 0 else bl[i - 1].end - bl[index].start
        invariant appendOnly <==> i == index
        invariant forall j | index <= j < i :: bl[j].start <= offset + length
      {
        var blk := blocks[i];
        if blk.start > offset + length {
          break;
        }
        if i > index {
          Ordered(bl, i - 1, i);
        }
        Ordered(bl, index, i);
        if current >= blk.start && current < blk.end && current <= offset + length {
          appendOnly := false;
          blocks := blocks[i := blk.(dirty := true)];
          current := blk.end;
          size := size + (blk.end - blk.start);
        }
        i := i + 1;
      }
      exceeds := offset + length >= blocks[|blocks| - 1].end;
      assert IsEndOfMarks(bl, index, offset + length, i) by {
        forall j | i <= j < |bl| ensures bl[j].start > offset + length {
          Ordered(bl, i, j);
        }
      }
    }

    /** A list fits a file size when it ends there. */
    method ValidateBlockListAgainstFileSize(fileSize: nat) returns (ok: bool)
      ensures ok <==> Total(blocks) == fileSize
    {
      if |blocks| == 0 {
        return fileSize == 0;
      }
      return blocks[|blocks| - 1].end == fileSize;
    }
  }

  /** Blocks from `index` on that start no later than `end`, marked. */
  function MarkedFrom(bl: seq<Block>, index: nat, end: nat): (r: seq<Block>)
    ensures |r| == |bl|
  {
    seq(|bl|, i requires 0 <= i < |bl| =>
      if index <= i && bl[i].start <= end then bl[i].(dirty := true) else bl[i])
  }

  /** The marked blocks hold `size` bytes together. */
  ghost predicate MarkedSize(bl: seq<Block>, index: nat, end: nat, size: nat) {
    exists hi: nat :: IsEndOfMarks(bl, index, end, hi) && size == bl[hi - 1].end - bl[index].start
  }

  ghost predicate IsEndOfMarks(bl: seq<Block>, index: nat, end: nat, hi: nat) {
    && index < hi <= |bl|
    && (forall j | index <= j < hi :: bl[j].start <= end)
    && (forall j | hi <= j < |bl| :: bl[j].start > end)
  }
}
