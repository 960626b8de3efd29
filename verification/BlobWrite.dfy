/** What a write at an offset makes of a blob, on values: the buffer that is
    staged, the blocks it goes to and the content that results. */
module BlobWrite {
  import opened Bytes
  import opened Storage
  import opened BlockList
  import opened BlobBlocks

  // ---------- Blobs without a block list ----------

  /** The new content of a blob that has no blocks, branch by branch. */
  function FlatWrite(content: bytes, offset: nat, data: bytes): bytes {
    if |content| >= offset + |data| then content[..offset] + data + content[offset + |data|..]
    else if |content| > 0 then
      if offset != 0 then Resize(content, offset) + data else data
    else data
  }

  /** It is a splice unless the blob is empty and the write starts behind byte 0,
      in which case the offset is dropped; writing nothing behind the end of a
      non-empty blob grows it instead of leaving it alone. */
  lemma FlatWriteIff(content: bytes, offset: nat, data: bytes)
    ensures FlatWrite(content, offset, data) == Splice(content, offset, data) <==>
            if data == [] then content == [] || offset <= |content|
            else content != [] || offset == 0
  {
    var w, s := FlatWrite(content, offset, data), Splice(content, offset, data);
    if data != [] && content == [] && offset > 0 {
      assert |w| != |s|;
    } else if data == [] && content != [] && offset > |content| {
      assert |w| != |s|;
    } else {
      assert |w| == |s|;
      assert forall i | 0 <= i < |w| :: w[i] == s[i];
    }
  }

  // ---------- Reading the old bytes back ----------

  /** How reading old bytes before a write ended. The program goes on in every
      case: `Nothing` arrived, or the transfer broke and left `got`. */
  datatype Reading = Whole | Nothing | Broken(got: bytes)

  /** What is then in the buffer for the stored bytes `part`. */
  function Arrived(part: bytes, reading: Reading): (r: bytes)
    ensures |r| == |part|
  {
    match reading
    case Whole => part
    case Nothing => Zeros(|part|)
    case Broken(got) => Resize(got, |part|)
  }

  /** A blob without blocks is read as a whole after asking for its size; when
      that question fails there is no buffer at all. */
  function FlatRead(content: bytes, reading: Reading): bytes {
    if reading == Nothing then [] else Arrived(content, reading)
  }

  /** The result is still the splice if and only if: all old bytes that the write
      leaves alone were read, and nothing is written behind the end. Where the size
      is unknown the write must cover the blob from its first byte. */
  lemma FlatReadIff(content: bytes, reading: Reading, offset: nat, data: bytes)
    requires data != []
    ensures FlatWrite(FlatRead(content, reading), offset, data) == Splice(content, offset, data) <==>
            if content == [] || reading == Nothing then offset == 0 && |content| <= |data|
            else forall p | 0 <= p < |content| && !(offset <= p < offset + |data|) :: Arrived(content, reading)[p] == content[p]
  {
    var buffer := FlatRead(content, reading);
    var w, s := FlatWrite(buffer, offset, data), Splice(content, offset, data);
    FlatWriteIff(buffer, offset, data);
    if content == [] || reading == Nothing {
      assert w == data;
      assert offset == 0 && |content| <= |data| ==> s == data;
    } else {
      assert w == Splice(buffer, offset, data);
      if w == s {
        forall p | 0 <= p < |content| && !(offset <= p < offset + |data|) ensures buffer[p] == content[p] {
          assert w[p] == s[p];
        }
      }
    }
  }

  // ---------- Blobs with a block list ----------

  /** The staged buffer: what was read of the marked blocks, zeros behind them,
      the new bytes on top. */
  function WriteBuffer(content: bytes, lo: nat, oldSize: nat, newSize: nat, reading: Reading, offset: nat, data: bytes): (r: bytes)
    requires lo + oldSize <= |content|
    requires lo <= offset && offset - lo + |data| <= oldSize + newSize
    ensures |r| == oldSize + newSize
    ensures forall i | 0 <= i < |r| ::
              r[i] == if offset <= lo + i < offset + |data| then data[lo + i - offset]
                      else if i < oldSize then Base(content, lo, oldSize, reading)[lo + i] else 0
  {
    var buffer := Arrived(content[lo..lo + oldSize], reading) + Zeros(newSize);
    buffer[..offset - lo] + data + buffer[offset - lo + |data|..]
  }

  /** What the content is a splice of: the old content, with the bytes of the
      marked blocks as they were read. */
  function Base(content: bytes, lo: nat, oldSize: nat, reading: Reading): (r: bytes)
    requires lo + oldSize <= |content|
    ensures |r| == |content|
    ensures forall i | 0 <= i < |r| ::
              r[i] == if lo <= i < lo + oldSize then Arrived(content[lo..lo + oldSize], reading)[i - lo] else content[i]
  {
    content[..lo] + Arrived(content[lo..lo + oldSize], reading) + content[lo + oldSize..]
  }

  /** The result is the splice if and only if every old byte in the marked blocks
      that the write leaves alone was read. */
  lemma UnreadIff(content: bytes, lo: nat, oldSize: nat, reading: Reading, offset: nat, data: bytes)
    requires lo + oldSize <= |content| && data != []
    ensures Splice(Base(content, lo, oldSize, reading), offset, data) == Splice(content, offset, data) <==>
            forall p | lo <= p < lo + oldSize && !(offset <= p < offset + |data|) ::
              Arrived(content[lo..lo + oldSize], reading)[p - lo] == content[p]
  {
    var a, b := Splice(Base(content, lo, oldSize, reading), offset, data), Splice(content, offset, data);
    assert |a| == |b|;
    if a == b {
      forall p | lo <= p < lo + oldSize && !(offset <= p < offset + |data|)
        ensures Arrived(content[lo..lo + oldSize], reading)[p - lo] == content[p]
      {
        assert a[p] == b[p];
      }
    }
  }

  /** Nothing is lost when everything was read, or nothing had to be. */
  lemma BaseWhole(content: bytes, lo: nat, oldSize: nat, reading: Reading)
    requires lo + oldSize <= |content| && (reading == Whole || oldSize == 0)
    ensures Base(content, lo, oldSize, reading) == content
  {
  }

  /** The buffer is the part [lo, lo + |buffer|) of the result. */
  lemma BufferIsResult(content: bytes, lo: nat, oldSize: nat, newSize: nat, reading: Reading, offset: nat, data: bytes)
    requires lo + oldSize <= |content| && lo <= offset && offset - lo + |data| <= oldSize + newSize && data != []
    requires newSize > 0 ==> lo + oldSize == |content|
    requires newSize == 0 || lo + oldSize + newSize == offset + |data|
    ensures var target := Splice(Base(content, lo, oldSize, reading), offset, data);
            var buffer := WriteBuffer(content, lo, oldSize, newSize, reading, offset, data);
            lo + |buffer| <= |target| && buffer == target[lo..lo + |buffer|]
  {
  }

  /** Outside the marked blocks the result is the old content. */
  lemma ResultOutside(content: bytes, lo: nat, oldSize: nat, reading: Reading, offset: nat, data: bytes, a: nat, b: nat)
    requires lo + oldSize <= |content| && lo <= offset && data != []
    requires a <= b <= |content| && (b <= lo || (lo + oldSize <= a && offset + |data| <= a))
    ensures var target := Splice(Base(content, lo, oldSize, reading), offset, data);
            b <= |target| && target[a..b] == content[a..b]
  {
  }

  /** The list that is staged: old blocks with the touched ones marked, then new ones. */
  ghost predicate StagedList(bl0: seq<Block>, bl: seq<Block>, lo: nat, hi: nat, offset: nat, length: nat) {
    && |bl0| <= |bl| && lo < hi <= |bl| && lo <= |bl0| && Contiguous(bl)
    && (forall i | 0 <= i < |bl0| :: bl[i].start == bl0[i].start && bl[i].end == bl0[i].end && bl[i].id == bl0[i].id)
    && (forall i | 0 <= i < |bl| :: bl[i].dirty <==> lo <= i < hi)
    && (hi < |bl| ==> |bl| == |bl0| && bl[hi].start > offset + length)
    && bl[lo].start <= offset
    && (lo < |bl0| ==> offset < bl[lo].end)
    && Total(bl) == Max(Total(bl0), offset + length)
  }

  /** Bytes of the old blocks among the marked ones. */
  ghost predicate OldBytes(bl0: seq<Block>, bl: seq<Block>, lo: nat, hi: nat, oldSize: nat) {
    && lo < |bl| && lo <= |bl0| && lo < hi
    && (lo == |bl0| ==> oldSize == 0 && bl[lo].start == Total(bl0))
    && (lo < |bl0| ==> bl[lo].start + oldSize == bl0[Min(hi, |bl0|) - 1].end)
  }

  /** Everything known when the list is about to be staged. */
  ghost predicate Planned(st: Store, bl0: seq<Block>, bl: seq<Block>, lo: nat, hi: nat, oldSize: nat, offset: nat, length: nat) {
    && ValidBlob(st) && Mirrors(bl0, st.committed) && bl0 != [] && length > 0
    && StagedList(bl0, bl, lo, hi, offset, length) && OldBytes(bl0, bl, lo, hi, oldSize)
  }

  lemma PlannedShape(st: Store, bl0: seq<Block>, bl: seq<Block>, lo: nat, hi: nat, oldSize: nat, offset: nat, length: nat)
    requires Planned(st, bl0, bl, lo, hi, oldSize, offset, length)
    ensures |Content(st)| == Total(bl0) && bl[lo].start + oldSize <= Total(bl0)
    ensures var newSize := bl[hi - 1].end - bl[lo].start - oldSize;
            && newSize >= 0
            && (newSize > 0 ==> bl[lo].start + oldSize == Total(bl0) && bl[hi - 1].end == offset + length)
            && offset + length <= bl[hi - 1].end
    ensures hi == |bl| ==> bl[hi - 1].end == Total(bl) == Max(Total(bl0), offset + length)
    ensures lo < hi <= |bl| && bl[lo].start <= offset
  {
    hide Contiguous, Mirrors, ValidBlob;
    PlannedMirrors(st, bl0);
    NonEmpty(bl, hi - 1);
    Ordered(bl, lo, hi - 1);
    if hi < |bl| {
      Adjacent(bl, hi);
    }
    if lo < |bl0| {
      Ordered(bl0, lo, Min(hi, |bl0|) - 1);
      Ordered(bl, Min(hi, |bl0|) - 1, hi - 1);
    }
  }

  lemma PlannedMirrors(st: Store, bl0: seq<Block>)
    requires Mirrors(bl0, st.committed) && bl0 != []
    ensures |Content(st)| == Total(bl0) && Contiguous(bl0)
  {
    MirrorsContent(bl0, st);
  }

  /** A marked block gets its part of the buffer, which is its part of the result. */
  lemma MarkedPart(st: Store, bl: seq<Block>, lo: nat, target: bytes, buffer: bytes, i: nat)
    requires i < |bl| && lo < |bl| && bl[i].dirty
    requires bl[lo].start <= bl[i].start <= bl[i].end <= bl[lo].start + |buffer| <= |target|
    requires buffer == target[bl[lo].start..bl[lo].start + |buffer|]
    ensures NewBytes(bl, lo, buffer, st, i) == Found(target[bl[i].start..bl[i].end])
  {
    SliceOfSlice(target, bl[lo].start, bl[lo].start + |buffer|, bl[i].start, bl[i].end);
  }

  lemma UnmarkedPart(st: Store, bl: seq<Block>, lo: nat, target: bytes, buffer: bytes, content: bytes, i: nat)
    requires i < |bl| && lo < |bl| && !bl[i].dirty
    requires bl[i].start <= bl[i].end <= |content| && bl[i].end <= |target|
    requires target[bl[i].start..bl[i].end] == content[bl[i].start..bl[i].end]
    requires Find(st, bl[i].id) == Found(content[bl[i].start..bl[i].end])
    ensures NewBytes(bl, lo, buffer, st, i) == Found(target[bl[i].start..bl[i].end])
  {
  }

  /** Each block of the list gets exactly its part of the result. */
  lemma PlannedBytes(st: Store, bl0: seq<Block>, bl: seq<Block>, lo: nat, hi: nat, oldSize: nat, reading: Reading, offset: nat, data: bytes, i: nat)
    requires Planned(st, bl0, bl, lo, hi, oldSize, offset, |data|) && i < |bl|
    ensures bl[lo].start + oldSize <= |Content(st)|
    ensures var newSize := bl[hi - 1].end - bl[lo].start - oldSize;
            && newSize >= 0 && offset - bl[lo].start + |data| <= oldSize + newSize
            && var target := Splice(Base(Content(st), bl[lo].start, oldSize, reading), offset, data);
               var buffer := WriteBuffer(Content(st), bl[lo].start, oldSize, newSize, reading, offset, data);
               && |target| == Total(bl) && bl[i].start < bl[i].end <= Total(bl)
               && NewBytes(bl, lo, buffer, st, i) == Found(target[bl[i].start..bl[i].end])
  {
    hide Contiguous, Mirrors, ValidBlob, Splice, WriteBuffer, Base, NewBytes, Find, Content;
    PlannedShape(st, bl0, bl, lo, hi, oldSize, offset, |data|);
    PlannedTarget(Content(st), bl[lo].start, oldSize, reading);
    var content, s := Content(st), bl[lo].start;
    var newSize := bl[hi - 1].end - s - oldSize;
    var target := Splice(Base(content, s, oldSize, reading), offset, data);
    var buffer := WriteBuffer(content, s, oldSize, newSize, reading, offset, data);
    Ordered(bl, i, i);
    NonEmpty(bl, i);
    if lo <= i < hi {
      BufferIsResult(content, s, oldSize, newSize, reading, offset, data);
      Ordered(bl, lo, i);
      Ordered(bl, i, hi - 1);
      NonEmpty(bl, hi - 1);
      MarkedPart(st, bl, lo, target, buffer, i);
    } else {
      UntouchedBlock(st, bl0, bl, lo, hi, oldSize, offset, |data|, i);
      ResultOutside(content, s, oldSize, reading, offset, data, bl[i].start, bl[i].end);
      UnmarkedPart(st, bl, lo, target, buffer, content, i);
    }
  }

  lemma PlannedTarget(content: bytes, lo: nat, oldSize: nat, reading: Reading)
    requires lo + oldSize <= |content|
    ensures |Base(content, lo, oldSize, reading)| == |content|
  {
  }

  lemma UntouchedStored(st: Store, bl0: seq<Block>, i: nat, lo: nat, hi: nat)
    requires ValidBlob(st) && Mirrors(bl0, st.committed)
    ensures i < |bl0| ==> Find(st, bl0[i].id) == Found(st.committed[i].data)
  {
  }

  lemma UntouchedBlock(st: Store, bl0: seq<Block>, bl: seq<Block>, lo: nat, hi: nat, oldSize: nat, offset: nat, length: nat, i: nat)
    requires Planned(st, bl0, bl, lo, hi, oldSize, offset, length) && i < |bl| && !(lo <= i < hi)
    ensures i < |bl0| && bl[i].end <= |Content(st)|
    ensures bl[i].end <= bl[lo].start || (bl[lo].start + oldSize <= bl[i].start && offset + length <= bl[i].start)
    ensures Find(st, bl[i].id) == Found(Content(st)[bl[i].start..bl[i].end])
  {
    hide Contiguous, ValidBlob;
    MirrorsContent(bl0, st);
    UntouchedStored(st, bl0, i, lo, hi);
    if i < lo {
      Ordered(bl, i, lo);
    } else {
      Ordered(bl, hi, i);
      if lo < |bl0| {
        Ordered(bl0, hi - 1, i);
      }
    }
  }

  /** What the finished commit holds. */
  lemma WriteDone(st: Store, now: Store, bl0: seq<Block>, bl: seq<Block>, lo: nat, hi: nat, oldSize: nat, newSize: nat, reading: Reading,
                  offset: nat, data: bytes)
    requires Planned(st, bl0, bl, lo, hi, oldSize, offset, |data|)
    requires newSize == bl[hi - 1].end - bl[lo].start - oldSize
    requires |now.committed| == |bl| && now.staged == map[] && now.flat == [] && IdsBelow(now)
    requires bl[lo].start + oldSize <= |Content(st)| && offset - bl[lo].start + |data| <= oldSize + newSize
    requires var buffer := WriteBuffer(Content(st), bl[lo].start, oldSize, newSize, reading, offset, data);
             forall i | 0 <= i < |bl| ::
               now.committed[i].id == bl[i].id && NewBytes(bl, lo, buffer, st, i) == Found(now.committed[i].data)
    requires forall i, j | 0 <= i < j < |bl| :: bl[i].id != bl[j].id
    ensures Content(now) == Splice(Base(Content(st), bl[lo].start, oldSize, reading), offset, data)
    ensures ValidBlob(now) && DistinctIds(now.committed)
    ensures KeepsIds(st.committed, now.committed)
  {
    hide Splice, WriteBuffer, Base, NewBytes, Planned, Content, Contiguous, ValidBlob, DistinctIds, IdsBelow, Find;
    PlannedLists(st, bl0, bl, lo, hi, oldSize, offset, |data|);
    PlannedTotal(st, bl0, bl, lo, hi, oldSize, reading, offset, data);
    var target := Splice(Base(Content(st), bl[lo].start, oldSize, reading), offset, data);
    forall i | 0 <= i < |bl|
      ensures bl[i].start <= bl[i].end <= |target| && now.committed[i].data == target[bl[i].start..bl[i].end]
    {
      PlannedBytes(st, bl0, bl, lo, hi, oldSize, reading, offset, data, i);
    }
    HoldsPartsContent(bl, now, target);
    HoldsPartsValid(bl, now, target);
  }

  lemma PlannedLists(st: Store, bl0: seq<Block>, bl: seq<Block>, lo: nat, hi: nat, oldSize: nat, offset: nat, length: nat)
    requires Planned(st, bl0, bl, lo, hi, oldSize, offset, length)
    ensures Contiguous(bl) && lo < |bl| && |st.committed| == |bl0| <= |bl|
    ensures forall i | 0 <= i < |bl0| :: bl[i].id == st.committed[i].id
  {
  }

  lemma PlannedTotal(st: Store, bl0: seq<Block>, bl: seq<Block>, lo: nat, hi: nat, oldSize: nat, reading: Reading, offset: nat, data: bytes)
    requires Planned(st, bl0, bl, lo, hi, oldSize, offset, |data|)
    ensures bl[lo].start + oldSize <= |Content(st)|
    ensures |Splice(Base(Content(st), bl[lo].start, oldSize, reading), offset, data)| == Total(bl)
  {
    PlannedBytes(st, bl0, bl, lo, hi, oldSize, reading, offset, data, 0);
  }

  // ---------- From the search to the plan ----------

  ghost predicate SameShape(a: seq<Block>, b: seq<Block>) {
    |a| == |b| && forall i | 0 <= i < |a| :: b[i].start == a[i].start && b[i].end == a[i].end && b[i].id == a[i].id
  }

  lemma ShapeContiguous(a: seq<Block>, b: seq<Block>)
    requires Contiguous(a) && SameShape(a, b)
    ensures Contiguous(b) && Total(b) == Total(a)
  {
  }

  lemma ShapeFacts(a: seq<Block>, b: seq<Block>)
    requires SameShape(a, b)
    ensures |a| == |b| && forall i | 0 <= i < |a| :: b[i].start == a[i].start && b[i].end == a[i].end && b[i].id == a[i].id
  {
  }

  lemma MarksShape(bl0: seq<Block>, index: nat, end: nat, hi: nat)
    requires IsEndOfMarks(bl0, index, end, hi) && forall i | 0 <= i < |bl0| :: !bl0[i].dirty
    ensures SameShape(bl0, MarkedFrom(bl0, index, end))
    ensures index < hi <= |bl0|
    ensures forall i | 0 <= i < |bl0| :: MarkedFrom(bl0, index, end)[i].dirty <==> index <= i < hi
  {
  }

  lemma MarksEnd(bl0: seq<Block>, index: nat, end: nat, hi: nat)
    requires IsEndOfMarks(bl0, index, end, hi)
    ensures hi < |bl0| ==> bl0[hi].start > end
  {
  }

  lemma MirrorsFacts(bl0: seq<Block>, l: seq<Stored>)
    requires Mirrors(bl0, l)
    ensures Contiguous(bl0) && forall i | 0 <= i < |bl0| :: !bl0[i].dirty
  {
  }

  /** The write ends inside the blob: only old blocks are marked. */
  lemma PlanInside(st: Store, bl0: seq<Block>, bl: seq<Block>, index: nat, hi: nat, oldSize: nat, offset: nat, length: nat)
    requires ValidBlob(st) && Mirrors(bl0, st.committed) && index < |bl0| && length > 0
    requires bl0[index].start <= offset < bl0[index].end && offset + length < Total(bl0)
    requires bl == MarkedFrom(bl0, index, offset + length) && IsEndOfMarks(bl0, index, offset + length, hi)
    requires oldSize == bl0[hi - 1].end - bl0[index].start
    ensures Planned(st, bl0, bl, index, hi, oldSize, offset, length)
    ensures bl[index].start == bl0[index].start && 0 < hi <= |bl| && bl[hi - 1].end == bl0[hi - 1].end
  {
    hide Contiguous, ValidBlob, Mirrors, MarkedFrom, IsEndOfMarks, SameShape;
    MirrorsFacts(bl0, st.committed);
    MarksShape(bl0, index, offset + length, hi);
    ShapeContiguous(bl0, bl);
    ShapeFacts(bl0, bl);
    MarksEnd(bl0, index, offset + length, hi);
  }

  /** The write reaches the end of the blob: all blocks from the first one on are
      marked, and new ones follow. */
  lemma PlanGrow(st: Store, bl0: seq<Block>, mid: seq<Block>, bl: seq<Block>, index: nat, hi: nat, oldSize: nat, offset: nat, length: nat,
                 size: nat, first: Id, next: Id)
    requires ValidBlob(st) && Mirrors(bl0, st.committed) && index < |bl0| && length > 0
    requires bl0[index].start <= offset < bl0[index].end && offset + length >= Total(bl0)
    requires mid == MarkedFrom(bl0, index, offset + length) && IsEndOfMarks(bl0, index, offset + length, hi)
    requires Extends(mid, bl, offset + length, size, first, next)
    requires oldSize == bl0[hi - 1].end - bl0[index].start
    ensures hi == |bl0|
    ensures Planned(st, bl0, bl, index, |bl|, oldSize, offset, length)
    ensures bl[index].start == bl0[index].start
  {
    hide Contiguous, ValidBlob, Mirrors, MarkedFrom, IsEndOfMarks, SameShape;
    MirrorsFacts(bl0, st.committed);
    MarksReachEnd(bl0, index, offset + length, hi);
    MarksShape(bl0, index, offset + length, hi);
    ShapeContiguous(bl0, mid);
    ShapeFacts(bl0, mid);
    PrefixBlocks(mid, bl);
  }

  lemma MarksReachEnd(bl0: seq<Block>, index: nat, end: nat, hi: nat)
    requires Contiguous(bl0) && IsEndOfMarks(bl0, index, end, hi) && end >= Total(bl0)
    ensures hi == |bl0|
    ensures forall i | index <= i < |bl0| :: bl0[i].start <= end
  {
    if hi < |bl0| {
      Ordered(bl0, hi, hi);
      NonEmpty(bl0, hi);
    }
  }

  lemma PrefixBlocks(bl: seq<Block>, grown: seq<Block>)
    requires |bl| <= |grown| && grown[..|bl|] == bl
    ensures forall i | 0 <= i < |bl| :: grown[i] == bl[i]
  {
    forall i | 0 <= i < |bl| ensures grown[i] == bl[i] {
      assert grown[..|bl|][i] == grown[i];
    }
  }

  /** The write starts at or behind the end: only new blocks are marked. */
  lemma PlanAppend(st: Store, bl0: seq<Block>, bl: seq<Block>, offset: nat, length: nat, size: nat, first: Id, next: Id)
    requires ValidBlob(st) && Mirrors(bl0, st.committed) && bl0 != [] && length > 0
    requires offset >= Total(bl0) && Extends(bl0, bl, offset + length, size, first, next)
    ensures Planned(st, bl0, bl, |bl0|, |bl|, 0, offset, length)
    ensures bl[|bl0|].start == Total(bl0)
  {
    PrefixBlocks(bl0, bl);
    Adjacent(bl, |bl0|);
  }

  /** Old ids are in use and distinct, new ones are fresh. */
  lemma PlannedIds(st: Store, bl0: seq<Block>, bl: seq<Block>, lo: nat, hi: nat, oldSize: nat, offset: nat, length: nat, first: Id)
    requires Planned(st, bl0, bl, lo, hi, oldSize, offset, length) && DistinctIds(st.committed)
    requires forall i | 0 <= i < |st.committed| :: st.committed[i].id < first
    requires forall i | |bl0| <= i < |bl| :: first <= bl[i].id < st.nextId
    requires forall i, j | |bl0| <= i < j < |bl| :: bl[i].id < bl[j].id
    ensures Stageable(bl, st)
  {
    forall i | 0 <= i < |bl| && !bl[i].dirty ensures Find(st, bl[i].id).Found? {
      UntouchedBlock(st, bl0, bl, lo, hi, oldSize, offset, length, i);
    }
    forall i | 0 <= i < |bl0| ensures bl[i].id == st.committed[i].id {
    }
  }

  // ---------- Steps of the method ----------

  lemma ListFacts(bl0: seq<Block>, st: Store)
    requires Mirrors(bl0, st.committed) && st.committed != []
    ensures Contiguous(bl0) && bl0 != [] && |Content(st)| == Total(bl0)
    ensures forall i | 0 <= i < |bl0| :: !bl0[i].dirty
  {
    MirrorsContent(bl0, st);
  }

  ghost function EndOfMarks(bl: seq<Block>, index: nat, end: nat, size: nat): (hi: nat)
    requires index < |bl| && MarkedSize(bl, index, end, size)
    ensures IsEndOfMarks(bl, index, end, hi) && index < hi <= |bl| && size == bl[hi - 1].end - bl[index].start
  {
    var hi: nat :| IsEndOfMarks(bl, index, end, hi) && size == bl[hi - 1].end - bl[index].start;
    hi
  }

  lemma MidContiguous(bl0: seq<Block>, mid: seq<Block>, index: nat, end: nat, hi: nat, appendOnly: bool)
    requires Contiguous(bl0) && bl0 != [] && forall i | 0 <= i < |bl0| :: !bl0[i].dirty
    requires if appendOnly then mid == bl0 else mid == MarkedFrom(bl0, index, end) && IsEndOfMarks(bl0, index, end, hi)
    ensures Contiguous(mid) && mid != [] && Total(mid) == Total(bl0) && |mid| == |bl0|
  {
    if !appendOnly {
      MarksShape(bl0, index, end, hi);
      ShapeContiguous(bl0, mid);
    }
  }

  /** The list is ready to be staged, whichever way the write lies. */
  lemma PlanList(st0: Store, st: Store, bl0: seq<Block>, mid: seq<Block>, bl: seq<Block>, index: nat, hi0: nat, size: nat,
                 offset: nat, length: nat, exceeds: bool, appendOnly: bool, newSize: nat, blockBytes: nat) returns (hi: nat)
    requires ValidBlob(st0) && DistinctIds(st0.committed) && Mirrors(bl0, st0.committed) && bl0 != [] && length > 0
    requires st == st0.(nextId := st.nextId) && st.nextId >= st0.nextId
    requires (appendOnly <==> offset >= Total(bl0)) && (exceeds <==> offset + length >= Total(bl0))
    requires appendOnly ==> mid == bl0 && index == |bl0| && size == 0
    requires !appendOnly ==>
               && index < |bl0| && bl0[index].start <= offset < bl0[index].end
               && mid == MarkedFrom(bl0, index, offset + length) && IsEndOfMarks(bl0, index, offset + length, hi0)
               && 0 < hi0 <= |bl0| && size == bl0[hi0 - 1].end - bl0[index].start
    requires !exceeds ==> bl == mid && newSize == 0
    requires exceeds ==> Extends(mid, bl, offset + length, blockBytes, st0.nextId, st.nextId)
    requires exceeds ==> newSize == Max(offset + length - Total(mid), 0)
    ensures index < hi <= |bl| && Planned(st, bl0, bl, index, hi, size, offset, length)
    ensures bl[index].start <= offset
    ensures newSize == bl[hi - 1].end - bl[index].start - size
    ensures offset + length <= bl[index].start + size + newSize
    ensures bl[index].start + size <= |Content(st)|
    ensures Stageable(bl, st) && IdsBelow(st)
    ensures Content(st) == Content(st0) && |Content(st)| == Total(bl0)
  {
    hide Extends, MarkedFrom, IsEndOfMarks, Mirrors, Stageable, Planned, Contiguous, DistinctIds, ValidBlob;
    BumpValid(st0, st);
    MirrorsList(bl0, st0);
    MidContiguous(bl0, mid, index, offset + length, hi0, appendOnly);
    if appendOnly {
      PlanAppend(st, bl0, bl, offset, length, blockBytes, st0.nextId, st.nextId);
      hi := |bl|;
    } else if exceeds {
      PlanGrow(st, bl0, mid, bl, index, hi0, size, offset, length, blockBytes, st0.nextId, st.nextId);
      hi := |bl|;
    } else {
      PlanInside(st, bl0, bl, index, hi0, size, offset, length);
      hi := hi0;
    }
    PlannedShape(st, bl0, bl, index, hi, size, offset, length);
    NewIds(bl0, mid, bl, offset + length, blockBytes, st0.nextId, st.nextId, exceeds);
    PlannedIds(st, bl0, bl, index, hi, size, offset, length, st0.nextId);
  }

  /** Drawing ids changes nothing in storage. */
  lemma BumpValid(st0: Store, st: Store)
    requires ValidBlob(st0) && st == st0.(nextId := st.nextId) && st.nextId >= st0.nextId
    ensures ValidBlob(st) && IdsBelow(st) && Content(st) == Content(st0)
    ensures forall i | 0 <= i < |st.committed| :: st.committed[i].id < st0.nextId
  {
    forall id ensures Find(st, id) == Find(st0, id) {
    }
  }

  lemma MirrorsList(bl0: seq<Block>, st: Store)
    requires Mirrors(bl0, st.committed) && bl0 != []
    ensures Contiguous(bl0) && |Content(st)| == Total(bl0) && forall i | 0 <= i < |bl0| :: !bl0[i].dirty
  {
    MirrorsContent(bl0, st);
  }

  lemma NewIds(bl0: seq<Block>, mid: seq<Block>, bl: seq<Block>, end: nat, size: nat, first: Id, next: Id, exceeds: bool)
    requires |mid| == |bl0|
    requires if exceeds then Extends(mid, bl, end, size, first, next) else bl == mid
    ensures forall i | |bl0| <= i < |bl| :: first <= bl[i].id < next
    ensures forall i, j | |bl0| <= i < j < |bl| :: bl[i].id < bl[j].id
  {
  }

  lemma BufferIs(content: bytes, lo: nat, oldSize: nat, newSize: nat, reading: Reading, offset: nat, data: bytes, buffer: bytes)
    requires lo + oldSize <= |content| && lo <= offset && offset - lo + |data| <= oldSize + newSize
    requires var b := Arrived(content[lo..lo + oldSize], reading) + Zeros(newSize);
             buffer == b[..offset - lo] + data + b[offset - lo + |data|..]
    ensures buffer == WriteBuffer(content, lo, oldSize, newSize, reading, offset, data)
  {
  }

  lemma PlannedMarked(st: Store, bl0: seq<Block>, bl: seq<Block>, lo: nat, hi: nat, oldSize: nat, offset: nat, length: nat, buffer: bytes)
    requires Planned(st, bl0, bl, lo, hi, oldSize, offset, length) && lo < hi <= |bl|
    requires |buffer| == bl[hi - 1].end - bl[lo].start
    ensures Marked(bl, lo, hi, buffer)
  {
  }

  lemma StageableDistinct(bl: seq<Block>, st: Store)
    requires Stageable(bl, st)
    ensures forall i, j | 0 <= i < j < |bl| :: bl[i].id != bl[j].id
  {
  }
}
