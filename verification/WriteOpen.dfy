/** The state a handle starts from: a new file, or a stored blob whose block list
    has the configured layout. */
module WriteOpen {
  import opened Bytes
  import opened Storage
  import opened Lists
  import opened WriteState
  import opened WriteSteps
  import opened WriteEdit
  import opened WriteCommit
  import opened WriteRestage
  import opened WriteFetch
  import opened WriteGuard

  /** What the storage service guarantees of a blob: no empty blocks, at most
      MAX_BLOCKS of them, one content per id, nothing of ours staged. */
  ghost predicate StoredBlob(st: Store) {
    && IdsBelow(st) && st.staged == map[]
    && |st.committed| <= MAX_BLOCKS
    && (forall i | 0 <= i < |st.committed| :: |st.committed[i].data| > 0)
    && (forall i, j | 0 <= i < |st.committed| && 0 <= j < |st.committed| && st.committed[i].id == st.committed[j].id ::
          st.committed[i].data == st.committed[j].data)
  }

  function OpenState(st: Store, bs: nat, recorded: bool): State
  {
    State(bs, recorded, |Content(st)|, |Content(st)|, false, [], [], map[], ListMap(st.committed), map[], map[], {}, st)
  }

  /** Block `k` of the content starts at byte `k*bs` and holds `d`. */
  ghost predicate BlockAt(c: bytes, k: nat, bs: nat, d: bytes) {
    Slice(c, k, bs) == Resize(d, bs) && k * bs + |d| <= |c|
  }

  lemma {:induction false} ConcatLength(l: seq<Stored>, bs: nat, n: nat)
    requires n <= |l| && ValidList(l, bs) && bs > 0
    ensures n < |l| ==> |Concat(l[..n])| == n * bs
    ensures n == |l| > 0 ==> |Concat(l[..n])| == (n - 1) * bs + |l[n - 1].data|
  {
    if n > 0 {
      ConcatLength(l, bs, n - 1);
      assert l[..n][..n - 1] == l[..n - 1];
      assert (n - 1) * bs + bs == n * bs;
    }
  }

  /** In a valid list block `k` starts at byte `k*bs`. */
  lemma {:induction false} ConcatLaid(l: seq<Stored>, bs: nat, n: nat)
    requires n <= |l| && ValidList(l, bs) && bs > 0
    ensures forall k: nat {:trigger BlockAt(Concat(l[..n]), k, bs, l[k].data)} | k < n :: BlockAt(Concat(l[..n]), k, bs, l[k].data)
  {
    if n > 0 {
      ConcatLaid(l, bs, n - 1);
      ConcatLength(l, bs, n - 1);
      assert l[..n][..n - 1] == l[..n - 1];
      var c, d := Concat(l[..n - 1]), l[n - 1].data;
      assert Concat(l[..n]) == c + d;
      forall k: nat | k < n ensures BlockAt(c + d, k, bs, l[k].data) {
        if k == n - 1 {
          SliceLast(c, d, k, bs);
        } else {
          assert BlockAt(c, k, bs, l[k].data);
          LaidAppend(c, d, k, n - 1, bs);
        }
      }
    }
  }

  lemma LaidAppend(c: bytes, d: bytes, k: nat, n: nat, bs: nat)
    requires k < n && |c| == n * bs
    ensures Slice(c + d, k, bs) == Slice(c, k, bs)
  {
    MulLe(k + 1, n, bs);
    assert (k + 1) * bs == k * bs + bs;
    SliceAppend(c, d, k, bs);
  }

  lemma OpenFind(st: Store, k: nat)
    requires StoredBlob(st) && k < |st.committed|
    ensures Find(st, st.committed[k].id) == Found(st.committed[k].data)
  {
    FindBlockAt(st.committed, st.committed[k].id);
  }

  lemma OpenEntry(st: Store, bs: nat, recorded: bool, k: nat)
    requires StoredBlob(st) && ValidList(st.committed, bs) && bs > 0 && k < |st.committed|
    ensures k in OpenState(st, bs, recorded).blockList && EntryOk(OpenState(st, bs, recorded), k)
    ensures InPlace(OpenState(st, bs, recorded), k)
  {
    OpenFind(st, k);
    var n := |st.committed|;
    ConcatLaid(st.committed, bs, n);
    assert st.committed[..n] == st.committed;
    assert BlockAt(Concat(st.committed[..n]), k, bs, st.committed[k].data);
  }

  lemma OpenLast(st: Store, bs: nat, recorded: bool, m: nat)
    requires StoredBlob(st) && ValidList(st.committed, bs) && bs > 0
    requires st.committed == [] ==> st.flat == []
    requires IsLast(OpenState(st, bs, recorded), m)
    ensures Covered(OpenState(st, bs, recorded), m)
  {
    var s, n := OpenState(st, bs, recorded), |st.committed|;
    if n > 0 {
      ConcatLength(st.committed, bs, n);
      assert st.committed[..n] == st.committed;
      var d := |st.committed[n - 1].data|;
      assert IsLast(s, n - 1);
      assert m * bs < (n - 1) * bs + d <= m * bs + bs;
      NearMultiples(m, n - 1, bs, d);
    }
  }

  lemma NearMultiples(m: nat, k: nat, n: nat, d: nat)
    requires 0 < d <= n && m * n < k * n + d <= m * n + n
    ensures m == k
  {
    assert (m - k) * n == m * n - k * n;
    if m != k {
      NonZeroMultiple(m - k, n);
    }
  }

  lemma OpenIds(st: Store, bs: nat)
    requires StoredBlob(st) && ValidList(st.committed, bs)
    ensures SharedIds(ListMap(st.committed), bs)
  {
  }

  lemma OpenInv(st: Store, bs: nat, recorded: bool)
    requires StoredBlob(st) && ValidList(st.committed, bs) && bs > 0
    requires st.committed == [] ==> st.flat == []
    ensures Inv(OpenState(st, bs, recorded)) && File(OpenState(st, bs, recorded)) == Content(st)
  {
    var s := OpenState(st, bs, recorded);
    forall k | k in s.blockList ensures EntryOk(s, k) {
      OpenEntry(st, bs, recorded, k);
    }
    forall m: nat | IsLast(s, m) ensures Covered(s, m) {
      OpenLast(st, bs, recorded, m);
    }
    OpenIds(st, bs);
    assert Base(s);
    BaseBlocks(s);
    OpenContent(st, bs, recorded);
  }

  lemma OpenContent(st: Store, bs: nat, recorded: bool)
    requires Base(OpenState(st, bs, recorded)) && Blocks(OpenState(st, bs, recorded))
    requires StoredBlob(st) && ValidList(st.committed, bs) && (st.committed == [] ==> st.flat == [])
    ensures Logical(OpenState(st, bs, recorded)) == Content(st)
  {
    var s := OpenState(st, bs, recorded);
    forall i | 0 <= i < s.size ensures Logical(s)[i] == Content(st)[i] {
      OpenByte(st, bs, recorded, i);
    }
  }

  lemma OpenIndex(st: Store, bs: nat, i: nat)
    requires ValidList(st.committed, bs) && (st.committed == [] ==> st.flat == []) && bs > 0
    requires i < |Content(st)|
    ensures i / bs < |st.committed|
  {
    ContentBound(st, bs);
    DivBound(i, |st.committed|, bs);
  }

  lemma ContentBound(st: Store, bs: nat)
    requires ValidList(st.committed, bs) && (st.committed == [] ==> st.flat == []) && bs > 0
    ensures |Content(st)| <= |st.committed| * bs
  {
    var n := |st.committed|;
    ConcatLength(st.committed, bs, n);
    assert st.committed[..n] == st.committed;
    assert (n - 1) * bs + bs == n * bs;
  }

  lemma DivBound(i: nat, n: nat, bs: nat)
    requires bs > 0 && i < n * bs
    ensures i / bs < n
  {
    assert i / bs * bs <= i;
    if i / bs >= n {
      MulLe(n, i / bs, bs);
    }
  }

  lemma OpenByte(st: Store, bs: nat, recorded: bool, i: nat)
    requires Base(OpenState(st, bs, recorded)) && Blocks(OpenState(st, bs, recorded)) && i < |Content(st)|
    requires StoredBlob(st) && ValidList(st.committed, bs) && (st.committed == [] ==> st.flat == [])
    ensures Logical(OpenState(st, bs, recorded))[i] == Content(st)[i]
  {
    hide InPlace, InStore, EntryOk, Base, StoredBlob, ValidList, StoredBlk, Slice, Content, Logical;
    var s := OpenState(st, bs, recorded);
    var k, j := i / bs, i % bs;
    PositiveSize(s);
    OpenIndex(st, bs, i);
    assert k * bs + j == i && j < bs;
    OpenSlice(st, bs, recorded, k, j);
    LogicalAt(s, i);
    assert Blk(s, k) == StoredBlk(s, k);
  }

  lemma OpenSlice(st: Store, bs: nat, recorded: bool, k: nat, j: nat)
    requires StoredBlob(st) && ValidList(st.committed, bs) && k < |st.committed| && j < bs
    ensures StoredBlk(OpenState(st, bs, recorded), k)[j] == At(Content(st), k * bs + j)
  {
    OpenEntry(st, bs, recorded, k);
    assert Slice(Content(st), k, bs)[j] == At(Content(st), k * bs + j);
  }

  // ---------- Write-only ----------

  /** Stands for the first block of a small blob while that is read ahead. */
  function StandIn(bs: nat): Block {
    Block(0, 0, Closed, true, false, false, false, false, Zeros(bs))
  }

  /** Opened write-only without truncation: nobody asks for the block list, so the
      handle accounts for none of the blob. The first block of a small one is in
      Cooking. */
  function WriteOnlyState(st: Store, bs: nat, recorded: bool): State {
    var n := |Content(st)|;
    var small := 0 < n < bs;
    State(bs, recorded, n, 0, false, [], if small then [0] else [], if small then map[0 := 0] else map[], map[],
          if small then map[0 := StandIn(bs)] else map[], map[], {}, st)
  }

  lemma WriteOnlyInv(st: Store, bs: nat, recorded: bool)
    requires IdsBelow(st) && bs > 0
    ensures var s := WriteOnlyState(st, bs, recorded);
            && Inv(s) && File(s) == []
            && (0 < |Content(st)| < bs ==> Stands(s))
            && forall from: nat, end: nat, room: nat :: MayWrite(s, from, end, room)
  {
    var s := WriteOnlyState(st, bs, recorded);
    forall p | Linked(s, p) ensures BlockOk(s, p) {
    }
    forall k: nat ensures MayFetchAt(s, k) {
    }
    assert Base(s);
    BaseBlocks(s);
    assert |Content(st)| == 0 ==> Content(st) == [] == Logical(s);
  }

  // ---------- The first block of a small file ----------

  /** The file fits into one block: its download starts with the open. */
  function Prefetched(s: State, p: Ptr): State {
    s.(cooking := [p], values := map[0 := p], downloads := {p},
       mem := s.mem[p := Block(0, 0, Empty, true, false, false, false, false, Zeros(s.bs))])
  }

  lemma PrefetchedBlock(s: State, p: Ptr)
    requires Base(s) && s.cooked == [] && s.uploads == map[] && 0 in s.blockList && s.blockList[0].committed && InPlace(s, 0)
    ensures BlockOk(Prefetched(s, p), p)
  {
    PlaceFrame(s, Prefetched(s, p), 0);
  }

  lemma PrefetchedInv(s: State, p: Ptr)
    requires Inv(s) && s.values == map[] && s.cooked == [] && s.cooking == [] && s.uploads == map[]
    requires !s.handleDirty && 0 in s.blockList
    ensures Inv(Prefetched(s, p)) && File(Prefetched(s, p)) == File(s)
  {
    var t := Prefetched(s, p);
    CleanPlaced(s, 0);
    PrefetchedBlock(s, p);
    hide InPlace, InStore, BlockOk;
    forall k | k in t.blockList ensures EntryOk(t, k) {
      assert EntryOk(s, k);
      EntryFrame(s, t, k);
    }
    forall m: nat | IsLast(t, m) ensures Covered(t, m) {
      assert IsLast(s, m) && Covered(s, m);
    }
    forall q | Linked(t, q) ensures BlockOk(t, q) {
      assert q == p;
    }
    assert Base(t);
    BaseBlocks(t);
    SameLogical(s, t);
  }

  /** Opening with O_TRUNC starts from size zero; the old blob stays until a commit. */
  lemma TruncatedInv(s: State)
    requires s.bs > 0 && s.size == 0 && s.handleDirty && s.cooked == [] && s.cooking == [] && s.values == map[]
    requires s.blockList == map[] && s.uploads == map[] && s.downloads == {} && IdsBelow(s.store)
    ensures Inv(s) && File(s) == []
  {
  }
}
