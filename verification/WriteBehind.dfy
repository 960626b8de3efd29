/** Where the bytes of a sent list come to lie when storage has more of them for an
    entry than were recorded, and what reading a block back there yields. */
module WriteBehind {
  import opened Bytes
  import opened Storage
  import opened WriteState
  import opened WriteCalm
  import opened WriteCommit

  /** How far block `k` pushes back what comes behind it. */
  function Over(s: State, k: nat): nat {
    if k in s.blockList && Stale(s, k) && Find(s.store, s.blockList[k].id).Found?
       && |Find(s.store, s.blockList[k].id).data| > s.blockList[k].size
    then |Find(s.store, s.blockList[k].id).data| - s.blockList[k].size
    else 0
  }

  /** How far block `k` is pushed back. */
  function Excess(s: State, k: nat): nat {
    if k == 0 then 0 else Excess(s, k - 1) + Over(s, k - 1)
  }

  /** The byte that reading block `k` back yields at `j`, the block being pushed back
      by `e`: a byte of what lies in front, or of the block itself. */
  function Behind(s: State, k: nat, e: nat, j: nat): byte {
    if j < e then At(Spread(s, k), k * s.bs + j) else At(StoredBlk(s, k), j - e)
  }

  predicate Unmoved(s: State, k: nat, e: nat) {
    forall j: nat {:trigger Behind(s, k, e, j)} | j < s.bs && k * s.bs + j < s.size :: StoredBlk(s, k)[j] == Behind(s, k, e, j)
  }

  // ---------- Lengths ----------

  lemma EntryPart(s: State, k: nat)
    requires Settled(s) && k in s.blockList
    ensures s.bs > 0 && Find(s.store, s.blockList[k].id).Found?
    ensures var d, n := Find(s.store, s.blockList[k].id).data, s.blockList[k].size;
            && 0 < n <= |d| <= s.bs && |d| <= BlockLen(s, k)
            && (forall j | n <= j < |d| :: d[j] == 0)
            && (n == BlockLen(s, k) || Stale(s, k))
            && (Stale(s, k) ==> k * s.bs + s.bs <= s.size)
            && (Late(s, k) <==> Stale(s, k) && |d| > n)
  {
    assert EntryOk(s, k) && !DirtyAt(s, k);
    LastEntry(s);
    var m: nat :| m in s.blockList && IsLast(s, m);
    assert !DirtyAt(s, m);
    EntryBelowLast(s, m, k);
  }

  lemma PieceOf(s: State, k: nat)
    requires Settled(s) && k in s.blockList
    ensures forall j | 0 <= j < |Piece(s, k)| :: Piece(s, k)[j] == At(StoredBlk(s, k), j)
    ensures |Piece(s, k)| == BlockLen(s, k) + Over(s, k)
    ensures Over(s, k) > 0 <==> Late(s, k)
    ensures forall j | 0 <= j < s.bs && s.bs <= j + Over(s, k) :: StoredBlk(s, k)[j] == 0
  {
    EntryPart(s, k);
    hide Late, Stale, Find;
  }

  ghost predicate Listed(s: State, n: nat) {
    && Settled(s) && s.size <= n * s.bs
    && forall k: nat :: k in s.blockList <==> k < n
  }

  lemma ListedFull(s: State, n: nat, k: nat)
    requires Listed(s, n) && k + 1 < n
    ensures BlockLen(s, k) == s.bs
  {
    EntryPart(s, k + 1);
    assert EntryOk(s, k + 1);
    assert (k + 1) * s.bs == k * s.bs + s.bs;
  }

  lemma {:induction false} SpreadLength(s: State, n: nat, k: nat)
    requires Listed(s, n) && k < n
    ensures |Spread(s, k)| == k * s.bs + Excess(s, k)
  {
    hide Listed, Piece, Over, BlockLen, StoredBlk, Settled, Late;
    if k > 0 {
      SpreadLength(s, n, k - 1);
      ListedFull(s, n, k - 1);
      ListedEntry(s, n, k - 1);
      PieceOf(s, k - 1);
      assert k * s.bs == (k - 1) * s.bs + s.bs;
    }
  }

  lemma ListedEntry(s: State, n: nat, k: nat)
    requires Listed(s, n) && k < n
    ensures Settled(s) && k in s.blockList && s.bs > 0 && k * s.bs < s.size
  {
    assert EntryOk(s, k);
  }

  lemma {:induction false} SpreadPrefix(s: State, a: nat, b: nat)
    requires a <= b
    ensures Spread(s, a) <= Spread(s, b)
    decreases b
  {
    hide Piece;
    if a < b {
      SpreadPrefix(s, a, b - 1);
    }
  }

  // ---------- Reading a block back ----------

  /** The byte at `j` of the place block `k` is read from. */
  lemma SpreadByte(s: State, n: nat, k: nat, j: nat)
    requires Listed(s, n) && k < n && j < s.bs && k * s.bs + j < s.size
    ensures At(Spread(s, n), k * s.bs + j) == Behind(s, k, Excess(s, k), j)
  {
    hide Listed, Piece, Excess, Over, StoredBlk, Spread;
    ListedEntry(s, n, k);
    SpreadLength(s, n, k);
    PieceOf(s, k);
    SpreadNext(s, k);
    SpreadPrefix(s, k + 1, n);
  }

  /** After the commit reading block `y` back yields its bytes if and only if what
      comes to lie there does: with `e` bytes too many in front, its first `e` bytes
      are the ones that end the pieces in front, and the rest repeats itself after
      `e` bytes each. */
  lemma ReadBackIff(s: State, ids: seq<Id>, n: nat, x: nat, y: nat)
    requires CanCommit(s, ids, n, x) && y < n
    ensures ReadsRight(Committed(s, ids), y) <==> Unmoved(s, y, Excess(s, y))
  {
    CanCommitListed(s, ids, n, x, y);
    hide CanCommit, Listed, Excess, Spread, StoredBlk, Behind, Committed, Content, ReadsRight, Unmoved;
    ListedEntry(s, n, y);
    forall j: nat | j < s.bs && y * s.bs + j < s.size
      ensures At(Spread(s, n), y * s.bs + j) == Behind(s, y, Excess(s, y), j)
    {
      SpreadByte(s, n, y, j);
    }
    ReadsAs(s, Committed(s, ids), n, y, Excess(s, y));
  }

  lemma ReadsAs(s: State, t: State, n: nat, y: nat, e: nat)
    requires t.bs == s.bs && t.size == s.size && StoredBlk(t, y) == StoredBlk(s, y) && y * s.bs < s.size
    requires Content(t.store) == Spread(s, n) && |Spread(s, n)| >= s.size
    requires forall j: nat | j < s.bs && y * s.bs + j < s.size :: At(Spread(s, n), y * s.bs + j) == Behind(s, y, e, j)
    ensures ReadsRight(t, y) <==> Unmoved(s, y, e)
  {
    hide Spread, StoredBlk, Behind, Content;
    if ReadsRight(t, y) {
      forall j: nat | j < s.bs && y * s.bs + j < s.size ensures StoredBlk(s, y)[j] == Behind(s, y, e, j) {
        assert At(Content(t.store), y * t.bs + j) == StoredBlk(t, y)[j];
      }
    }
    if Unmoved(s, y, e) {
      forall j: nat | j < t.bs && y * t.bs + j < t.size ensures At(Content(t.store), y * t.bs + j) == StoredBlk(t, y)[j] {
        assert StoredBlk(s, y)[j] == Behind(s, y, e, j);
      }
    }
  }

  lemma CanCommitListed(s: State, ids: seq<Id>, n: nat, x: nat, y: nat)
    requires CanCommit(s, ids, n, x)
    ensures Listed(s, n) && Known(s.store, ids)
    ensures var t := Committed(s, ids);
            && t.bs == s.bs && t.size == s.size && StoredBlk(t, y) == StoredBlk(s, y)
            && Content(t.store) == Spread(s, n) && |Spread(s, n)| >= s.size
  {
    CommittedStored(s, ids, n, x, y);
    CommitContent(s.store, ids);
  }

  // ---------- Behind one late entry ----------

  /** Nothing but entry `x` brings along too much in front of block `y`. */
  ghost predicate OnlyLate(s: State, x: nat, y: nat) {
    forall k: nat {:trigger Late(s, k)} | k < y :: Late(s, k) <==> k == x
  }

  lemma {:induction false} ExcessOne(s: State, n: nat, x: nat, y: nat)
    requires Listed(s, n) && y < n && OnlyLate(s, x, y)
    ensures Excess(s, y) == if x < y then Over(s, x) else 0
  {
    hide Listed, Over, Piece, StoredBlk;
    if y > 0 {
      ExcessOne(s, n, x, y - 1);
      ListedEntry(s, n, y - 1);
      PieceOf(s, y - 1);
      assert Late(s, y - 1) <==> y - 1 == x;
    }
  }

  /** The last bytes in front of block `y` are those of the block before, as they are
      in the file: a late entry's own end, like its filler, is zero. */
  lemma InFront(s: State, n: nat, x: nat, y: nat, j: nat)
    requires Listed(s, n) && x < y < n && OnlyLate(s, x, y) && j < Over(s, x) <= s.bs
    ensures At(Spread(s, y), y * s.bs + j) == At(StoredBlk(s, y - 1), s.bs + j - Over(s, x))
  {
    hide Listed, Over, Piece, StoredBlk, Excess, Spread, Late;
    ExcessOne(s, n, x, y);
    ExcessOne(s, n, x, y - 1);
    SpreadLength(s, n, y);
    SpreadLength(s, n, y - 1);
    ListedEntry(s, n, y - 1);
    ListedFull(s, n, y - 1);
    PieceOf(s, y - 1);
    SpreadNext(s, y - 1);
    assert y * s.bs == (y - 1) * s.bs + s.bs;
  }

  /** Each of the first `len` bytes of `b` is the one `e` bytes before, in `b` or at the
      end of `a` in front of it. */
  predicate Repeating(a: bytes, b: bytes, e: nat, len: int)
    requires e <= |a|
  {
    forall j: nat | j < |b| && j < len :: b[j] == (a + b)[|a| + j - e]
  }

  predicate Blank(b: bytes, len: int) {
    forall j: nat | j < |b| && j < len :: b[j] == 0
  }

  /** With one late entry in front, `e` bytes too long, block `y` is read back right
      if and only if in the file each of its bytes is the one `e` bytes before. */
  lemma BehindOne(s: State, ids: seq<Id>, n: nat, x: nat, y: nat)
    requires CanCommit(s, ids, n, x) && x < y < n && OnlyLate(s, x, y)
    ensures 0 < Over(s, x) <= s.bs
    ensures ReadsRight(Committed(s, ids), y) <==>
            Repeating(StoredBlk(s, y - 1), StoredBlk(s, y), Over(s, x), s.size - y * s.bs)
  {
    CanCommitListed(s, ids, n, x, y);
    hide CanCommit, Listed, Over, StoredBlk, Excess, Spread, Late, OnlyLate, ReadsRight, Committed, Repeating, Behind, Unmoved, Content, Known;
    ReadBackIff(s, ids, n, x, y);
    ExcessOne(s, n, x, y);
    LateOver(s, n, x, y);
    MovedBehind(s, n, x, y);
  }

  lemma MovedBehind(s: State, n: nat, x: nat, y: nat)
    requires Listed(s, n) && x < y < n && OnlyLate(s, x, y) && 0 < Over(s, x) <= s.bs
    ensures Unmoved(s, y, Over(s, x)) <==> Repeating(StoredBlk(s, y - 1), StoredBlk(s, y), Over(s, x), s.size - y * s.bs)
  {
    hide Listed, Over, StoredBlk, OnlyLate, Repeating, Behind, Unmoved;
    forall j: nat | j < s.bs && y * s.bs + j < s.size
      ensures Behind(s, y, Over(s, x), j) == (StoredBlk(s, y - 1) + StoredBlk(s, y))[s.bs + j - Over(s, x)]
    {
      ByteBehind(s, n, x, y, j);
    }
    MovedRepeats(s, y, Over(s, x));
  }

  lemma ByteBehind(s: State, n: nat, x: nat, y: nat, j: nat)
    requires Listed(s, n) && x < y < n && OnlyLate(s, x, y) && j < s.bs && 0 < Over(s, x) <= s.bs
    ensures Behind(s, y, Over(s, x), j) == (StoredBlk(s, y - 1) + StoredBlk(s, y))[s.bs + j - Over(s, x)]
  {
    hide Listed, Over, StoredBlk, Excess, Spread, Late, OnlyLate;
    if j < Over(s, x) {
      InFront(s, n, x, y, j);
    }
  }

  lemma MovedRepeats(s: State, y: nat, e: nat)
    requires 0 < y && 0 < e <= s.bs
    requires forall j: nat {:trigger Behind(s, y, e, j)} | j < s.bs && y * s.bs + j < s.size ::
               Behind(s, y, e, j) == (StoredBlk(s, y - 1) + StoredBlk(s, y))[s.bs + j - e]
    ensures Unmoved(s, y, e) <==> Repeating(StoredBlk(s, y - 1), StoredBlk(s, y), e, s.size - y * s.bs)
  {
    hide Behind, StoredBlk;
    var a, b := StoredBlk(s, y - 1), StoredBlk(s, y);
    if Repeating(a, b, e, s.size - y * s.bs) {
      forall j: nat | j < s.bs && y * s.bs + j < s.size ensures b[j] == Behind(s, y, e, j) {
        assert b[j] == (a + b)[|a| + j - e];
      }
    }
    if Unmoved(s, y, e) {
      forall j: nat | j < |b| && j < s.size - y * s.bs ensures b[j] == (a + b)[|a| + j - e] {
        assert b[j] == Behind(s, y, e, j);
      }
    }
  }

  lemma LateOver(s: State, n: nat, x: nat, y: nat)
    requires Listed(s, n) && x < y < n && OnlyLate(s, x, y)
    ensures 0 < Over(s, x) <= s.bs
  {
    assert Late(s, x);
    EntryPart(s, x);
  }

  /** So the block right behind it is read back right if and only if it is zero. */
  lemma RightBehind(s: State, ids: seq<Id>, n: nat, x: nat)
    requires CanCommit(s, ids, n, x) && x + 1 < n
    ensures ReadsRight(Committed(s, ids), x + 1) <==>
            Blank(StoredBlk(s, x + 1), s.size - (x + 1) * s.bs)
  {
    CanCommitListed(s, ids, n, x, x + 1);
    LimitIsOnly(s, x, n);
    BehindOne(s, ids, n, x, x + 1);
    ListedEntry(s, n, x);
    PieceOf(s, x);
    hide CanCommit, Listed, Over, Piece, Late, OnlyLate, ReadsRight, Committed, StoredBlk, Repeating, Blank;
    Repeats(StoredBlk(s, x), StoredBlk(s, x + 1), Over(s, x), s.size - (x + 1) * s.bs);
  }

  lemma LimitIsOnly(s: State, x: nat, n: nat)
    requires IsLimit(s, x) && Listed(s, n) && x + 1 < n
    ensures OnlyLate(s, x, x + 1)
  {
    assert EntryOk(s, n - 1);
  }

  /** A block that repeats itself after zeros is zero. */
  lemma Repeats(a: bytes, b: bytes, e: nat, len: int)
    requires |a| == |b| && 0 < e <= |a| && forall j | 0 <= j < |a| && |a| <= j + e :: a[j] == 0
    ensures Repeating(a, b, e, len) <==> Blank(b, len)
  {
    if Repeating(a, b, e, len) {
      forall j: nat | j < |b| && j < len ensures b[j] == 0 {
        ZeroFrom(a, b, e, len, j);
      }
    }
  }

  lemma {:induction false} ZeroFrom(a: bytes, b: bytes, e: nat, len: int, j: nat)
    requires 0 < e <= |a| && forall j | 0 <= j < |a| && |a| <= j + e :: a[j] == 0
    requires Repeating(a, b, e, len) && j < |b| && j < len
    ensures b[j] == 0
  {
    assert b[j] == (a + b)[|a| + j - e];
    if j >= e {
      ZeroFrom(a, b, e, len, j - e);
    }
  }

  /** With none in front it is always read back right. */
  lemma BeforeLate(s: State, ids: seq<Id>, n: nat, x: nat, y: nat)
    requires CanCommit(s, ids, n, x) && y < n && y <= x
    ensures ReadsRight(Committed(s, ids), y)
  {
    CanCommitListed(s, ids, n, x, y);
    hide CanCommit, Listed, Committed, ReadsRight, StoredBlk, Spread, Piece;
    NoExcess(s, n, x, y);
    ReadBackIff(s, ids, n, x, y);
  }

  lemma NoExcess(s: State, n: nat, x: nat, y: nat)
    requires Listed(s, n) && y < n && y <= x && IsLimit(s, x)
    ensures Excess(s, y) == 0
  {
    ExcessOne(s, n, y, y);
  }
}
