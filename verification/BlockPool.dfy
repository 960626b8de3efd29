/** The pool of block buffers: two channels of free blocks, one of blocks to be
    zeroed, and a thread that zeroes them. */
module BlockPool {
  import opened Bytes
  import opened Lists

  /** `resetting` is what the reset thread has in hand, `held` what callers have. */
  datatype Pool = Pool(
    count: nat, blockSize: nat,
    priorityCh: seq<Ptr>, blocksCh: seq<Ptr>, resetCh: seq<Ptr>, resetting: seq<Ptr>,
    held: set<Ptr>, deleted: set<Ptr>, data: map<Ptr, bytes>)

  function HighPriority(count: nat): nat {
    count * 10 / 100
  }

  /** The last block is the zero block; it is never handed out. */
  function ZeroBlock(s: Pool): Ptr
    requires s.count > 0
  {
    s.count - 1
  }

  /** The first `n` blocks. */
  function Lendable(n: nat): (r: set<Ptr>)
    ensures |r| == n && forall p: Ptr :: p in r <==> p < n
  {
    if n == 0 then {} else Lendable(n - 1) + {n - 1}
  }

  /** Where the blocks are, each place counted. */
  function Everywhere(s: Pool): multiset<Ptr> {
    multiset(s.priorityCh) + multiset(s.blocksCh) + multiset(s.resetCh) + multiset(s.resetting) + multiset(s.held)
  }

  ghost predicate Zeroed(s: Pool, l: seq<Ptr>) {
    forall i | 0 <= i < |l| :: l[i] in s.data && s.data[l[i]] == Zeros(s.blockSize)
  }

  /** Every lendable block is in exactly one place and no channel holds more
      than it can. */
  ghost predicate Places(s: Pool) {
    && s.count > 0
    && Everywhere(s) == multiset(Lendable(s.count - 1))
    && |s.priorityCh| <= HighPriority(s.count)
    && |s.blocksCh| <= s.count - HighPriority(s.count) - 1
    && |s.resetCh| <= s.count - 1 && |s.resetting| <= 1
  }

  /** Free blocks and the zero block are zero. */
  ghost predicate Contents(s: Pool) {
    && s.count > 0
    && Zeroed(s, s.priorityCh) && Zeroed(s, s.blocksCh)
    && (forall p: Ptr | p < s.count :: p in s.data && |s.data[p]| == s.blockSize)
    && s.data[ZeroBlock(s)] == Zeros(s.blockSize)
  }

  /** And none has been deleted. */
  ghost predicate Inv(s: Pool) {
    s.blockSize > 0 && Places(s) && Contents(s) && s.deleted == {}
  }

  lemma Total(s: Pool)
    requires Places(s)
    ensures |s.priorityCh| + |s.blocksCh| + |s.resetCh| + |s.resetting| + |s.held| == s.count - 1
  {
    assert |Everywhere(s)| == |s.priorityCh| + |s.blocksCh| + |s.resetCh| + |s.resetting| + |s.held|;
  }

  /** A block in hand is a lendable one, and nowhere else. */
  lemma HeldOnce(s: Pool, p: Ptr)
    requires Places(s) && p in s.held
    ensures p < s.count - 1 && p !in s.priorityCh && p !in s.blocksCh && p !in s.resetCh && p !in s.resetting
  {
    assert Everywhere(s)[p] == multiset(s.priorityCh)[p] + multiset(s.blocksCh)[p] + multiset(s.resetCh)[p] + multiset(s.resetting)[p] + 1;
    assert multiset(Lendable(s.count - 1))[p] <= 1;
    assert p in Everywhere(s);
  }

  /** A block the reset thread has in hand is held by nobody. */
  lemma ResettingOnce(s: Pool, p: Ptr)
    requires Places(s) && p in s.resetting
    ensures p < s.count - 1 && p !in s.priorityCh && p !in s.blocksCh && p !in s.resetCh && p !in s.held
  {
    assert Everywhere(s)[p] == multiset(s.priorityCh)[p] + multiset(s.blocksCh)[p] + multiset(s.resetCh)[p] + multiset(s.resetting)[p] + multiset(s.held)[p];
    assert multiset(s.resetting)[p] >= 1 && multiset(Lendable(s.count - 1))[p] <= 1;
    assert p in Everywhere(s);
  }

  /** Giving a held block back finds room in the reset channel. */
  lemma ReleaseHasRoom(s: Pool, p: Ptr)
    requires Places(s) && p in s.held
    ensures |s.resetCh| < s.count - 1
  {
    Total(s);
    assert s.held != {} && |s.held| >= 1;
  }

  /** The reset thread finds room for the block in one of the free channels. */
  lemma ResetHasRoom(s: Pool)
    requires Places(s) && s.resetting != []
    ensures |s.priorityCh| < HighPriority(s.count) || |s.blocksCh| < s.count - HighPriority(s.count) - 1
  {
    Total(s);
  }

  // ---------- Steps ----------

  function TakePriority(s: Pool): Pool
    requires s.priorityCh != []
  {
    s.(priorityCh := s.priorityCh[1..], held := s.held + {s.priorityCh[0]})
  }

  function TakeBlock(s: Pool): Pool
    requires s.blocksCh != []
  {
    s.(blocksCh := s.blocksCh[1..], held := s.held + {s.blocksCh[0]})
  }

  function GiveBack(s: Pool, p: Ptr): Pool {
    s.(resetCh := s.resetCh + [p], held := s.held - {p})
  }

  function PickUp(s: Pool): Pool
    requires s.resetCh != []
  {
    s.(resetCh := s.resetCh[1..], resetting := [s.resetCh[0]])
  }

  function PutDown(s: Pool, priority: bool): Pool
    requires s.resetting != []
  {
    var p := s.resetting[0];
    var t := s.(data := s.data[p := Zeros(s.blockSize)], resetting := []);
    if priority then t.(priorityCh := s.priorityCh + [p]) else t.(blocksCh := s.blocksCh + [p])
  }

  lemma TakePriorityPlaces(s: Pool)
    requires Places(s) && s.priorityCh != []
    ensures Places(TakePriority(s)) && s.priorityCh[0] !in s.held
  {
    var p := s.priorityCh[0];
    NotHeld(s, p);
    assert s.priorityCh == [p] + s.priorityCh[1..];
    assert multiset(s.held + {p}) == multiset(s.held) + multiset{p};
    assert Everywhere(TakePriority(s)) == Everywhere(s);
  }

  lemma TakePriorityKeeps(s: Pool)
    requires Inv(s) && s.priorityCh != []
    ensures Inv(TakePriority(s)) && s.priorityCh[0] !in s.held
    ensures s.priorityCh[0] in s.data && s.data[s.priorityCh[0]] == Zeros(s.blockSize)
  {
    hide Places, Zeros;
    TakePriorityPlaces(s);
  }

  lemma TakeBlockPlaces(s: Pool)
    requires Places(s) && s.blocksCh != []
    ensures Places(TakeBlock(s)) && s.blocksCh[0] !in s.held
  {
    var p := s.blocksCh[0];
    NotHeld(s, p);
    assert s.blocksCh == [p] + s.blocksCh[1..];
    assert multiset(s.held + {p}) == multiset(s.held) + multiset{p};
    assert Everywhere(TakeBlock(s)) == Everywhere(s);
  }

  lemma TakeBlockKeeps(s: Pool)
    requires Inv(s) && s.blocksCh != []
    ensures Inv(TakeBlock(s)) && s.blocksCh[0] !in s.held
    ensures s.blocksCh[0] in s.data && s.data[s.blocksCh[0]] == Zeros(s.blockSize)
  {
    hide Places, Zeros;
    TakeBlockPlaces(s);
  }

  lemma NotHeld(s: Pool, p: Ptr)
    requires Places(s) && (p in s.priorityCh || p in s.blocksCh)
    ensures p !in s.held
  {
    if p in s.held {
      HeldOnce(s, p);
    }
  }

  lemma GiveBackPlaces(s: Pool, p: Ptr)
    requires Places(s) && p in s.held
    ensures Places(GiveBack(s, p))
  {
    ReleaseHasRoom(s, p);
    assert multiset(s.held) == multiset(s.held - {p}) + multiset{p};
    assert multiset(s.resetCh + [p]) == multiset(s.resetCh) + multiset{p};
    assert Everywhere(GiveBack(s, p)) == Everywhere(s);
  }

  lemma GiveBackKeeps(s: Pool, p: Ptr)
    requires Inv(s) && p in s.held
    ensures Inv(GiveBack(s, p))
  {
    hide Places;
    GiveBackPlaces(s, p);
  }

  lemma PickUpPlaces(s: Pool)
    requires Places(s) && s.resetCh != [] && s.resetting == []
    ensures Places(PickUp(s))
  {
    assert s.resetCh == [s.resetCh[0]] + s.resetCh[1..];
    assert Everywhere(PickUp(s)) == Everywhere(s);
  }

  lemma PickUpKeeps(s: Pool)
    requires Inv(s) && s.resetCh != [] && s.resetting == []
    ensures Inv(PickUp(s))
  {
    hide Places;
    PickUpPlaces(s);
  }

  lemma PutDownPlaces(s: Pool, priority: bool)
    requires Places(s) && s.resetting != []
    requires if priority then |s.priorityCh| < HighPriority(s.count) else |s.blocksCh| < s.count - HighPriority(s.count) - 1
    ensures Places(PutDown(s, priority))
  {
    var p := s.resetting[0];
    assert s.resetting == [p];
    assert multiset(s.priorityCh + [p]) == multiset(s.priorityCh) + multiset{p};
    assert multiset(s.blocksCh + [p]) == multiset(s.blocksCh) + multiset{p};
    assert Everywhere(PutDown(s, priority)) == Everywhere(s);
  }

  lemma PutDownKeeps(s: Pool, priority: bool)
    requires Inv(s) && s.resetting != []
    requires if priority then |s.priorityCh| < HighPriority(s.count) else |s.blocksCh| < s.count - HighPriority(s.count) - 1
    ensures Inv(PutDown(s, priority))
  {
    hide Places, Zeros;
    PutDownPlaces(s, priority);
    ResettingOnce(s, s.resetting[0]);
  }

  /** What the reset thread relies on. */
  lemma ResetFacts(s: Pool)
    requires Inv(s) && s.resetting != []
    ensures |s.priorityCh| < HighPriority(s.count) || |s.blocksCh| < s.count - HighPriority(s.count) - 1
    ensures s.count > 0 && s.count - 1 in s.data && s.data[s.count - 1] == Zeros(s.blockSize)
  {
    ResetHasRoom(s);
    ResettingOnce(s, s.resetting[0]);
  }

  lemma UseKeeps(s: Pool, p: Ptr, bytes: bytes)
    requires Inv(s) && p in s.held && |bytes| == s.blockSize
    ensures Inv(s.(data := s.data[p := bytes]))
  {
    hide Zeros;
    HeldOnce(s, p);
  }

  // ---------- Construction ----------

  /** The first `n` blocks have been put into a free channel, but for the last. */
  ghost predicate FilledPlaces(s: Pool, n: nat) {
    && s.count > 0 && s.resetCh == [] && s.resetting == [] && s.held == {}
    && multiset(s.priorityCh) + multiset(s.blocksCh) == multiset(Lendable(Min(n, s.count - 1)))
  }

  ghost predicate FilledContents(s: Pool, n: nat) {
    && (forall p: Ptr | p < n :: p in s.data && s.data[p] == Zeros(s.blockSize))
    && Zeroed(s, s.priorityCh) && Zeroed(s, s.blocksCh)
  }

  ghost predicate Filled(s: Pool, n: nat) {
    FilledPlaces(s, n) && FilledContents(s, n) && s.deleted == {}
  }

  /** What the loop does for block `n`. */
  function Fill(s: Pool, n: nat, priority: bool): Pool {
    var t := s.(data := s.data[n := Zeros(s.blockSize)]);
    if n + 1 == s.count then t
    else if priority then t.(priorityCh := s.priorityCh + [n]) else t.(blocksCh := s.blocksCh + [n])
  }

  lemma FilledNone(s: Pool)
    requires s.count > 0 && s.resetCh == [] && s.resetting == [] && s.held == {} && s.deleted == {}
    requires s.priorityCh == [] && s.blocksCh == []
    ensures Filled(s, 0)
  {
  }

  lemma FillPlaces(s: Pool, n: nat, priority: bool)
    requires FilledPlaces(s, n) && n < s.count
    ensures FilledPlaces(Fill(s, n, priority), n + 1)
  {
    var p: Ptr := n;
    if n < s.count - 1 {
      assert multiset(Lendable(n + 1)) == multiset(Lendable(n)) + multiset{p};
      assert multiset(s.priorityCh + [p]) == multiset(s.priorityCh) + multiset{p};
      assert multiset(s.blocksCh + [p]) == multiset(s.blocksCh) + multiset{p};
    }
  }

  lemma FilledStep(s: Pool, n: nat, priority: bool)
    requires Filled(s, n) && n < s.count
    ensures Filled(Fill(s, n, priority), n + 1)
  {
    hide FilledPlaces, Zeros;
    FillPlaces(s, n, priority);
  }

  lemma FilledDone(s: Pool)
    requires Filled(s, s.count) && s.blockSize > 0
    requires |s.priorityCh| <= HighPriority(s.count) && |s.blocksCh| <= s.count - HighPriority(s.count) - 1
    ensures Inv(s)
  {
    assert Everywhere(s) == multiset(s.priorityCh) + multiset(s.blocksCh);
  }

  // ---------- The pool as the program keeps it ----------

  class BlockPool {
    const count: nat
    const blockSize: nat
    var priorityCh: seq<Ptr>
    var blocksCh: seq<Ptr>
    var resetCh: seq<Ptr>
    var resetting: seq<Ptr>
    var held: set<Ptr>
    var deleted: set<Ptr>
    var data: map<Ptr, bytes>

    function View(): Pool
      reads this
    {
      Pool(count, blockSize, priorityCh, blocksCh, resetCh, resetting, held, deleted, data)
    }

    constructor (count: nat, blockSize: nat)
      ensures this.count == count && this.blockSize == blockSize
      ensures priorityCh == [] && blocksCh == [] && resetCh == [] && resetting == [] && held == {} && deleted == {} && data == map[]
    {
      this.count, this.blockSize := count, blockSize;
      priorityCh, blocksCh, resetCh, resetting, held, deleted, data := [], [], [], [], {}, {}, map[];
    }

    /** Allocate all blocks and fill the channels. No send finds its channel
        full, so the construction does not block. */
    static method NewBlockPool(blockSize: nat, memSize: nat) returns (pool: BlockPool?)
      ensures pool == null <==> blockSize == 0 || memSize < blockSize
      ensures pool != null ==> fresh(pool) && Inv(pool.View()) && pool.resetCh == pool.resetting == [] && pool.held == {} && pool.count == memSize / blockSize
    {
      hide Filled, Inv;
      if blockSize == 0 || memSize < blockSize {
        return null;
      }
      var blockCount := memSize / blockSize;
      var highPriority := blockCount * 10 / 100;
      var p := new BlockPool(blockCount, blockSize);
      FilledNone(p.View());
      var i := 0;
      while i < blockCount
        invariant 0 <= i <= blockCount && fresh(p)
        invariant Filled(p.View(), i)
        invariant p.resetCh == [] && p.resetting == [] && p.held == {}
        invariant |p.priorityCh| == Min(i, highPriority)
        invariant |p.blocksCh| == Max(Min(i, blockCount - 1) - highPriority, 0)
      {
        ghost var s := p.View();
        FilledStep(s, i, i < highPriority);
        p.data := p.data[i := Zeros(blockSize)];
        if i == blockCount - 1 {
        } else if i < highPriority {
          assert |p.priorityCh| < highPriority;
          p.priorityCh := p.priorityCh + [i];
        } else {
          assert |p.blocksCh| < blockCount - highPriority - 1;
          p.blocksCh := p.blocksCh + [i];
        }
        assert p.View() == Fill(s, i, i < highPriority);
        i := i + 1;
      }
      FilledDone(p.View());
      pool := p;
    }

    /** A free block from either channel; none only if both stayed empty. */
    method MustGet() returns (ok: bool, p: Ptr)
      requires Inv(View())
      modifies this`priorityCh, this`blocksCh, this`held
      ensures Inv(View())
      ensures ok <==> old(priorityCh) != [] || old(blocksCh) != []
      ensures ok ==> p !in old(held) && held == old(held) + {p} && p in data && data[p] == Zeros(blockSize)
      ensures !ok ==> View() == old(View())
    {
      ghost var s := View();
      p := 0;
      if {
        case |priorityCh| > 0 =>
          TakePriorityKeeps(s);
          p := priorityCh[0];
          priorityCh, held := priorityCh[1..], held + {p};
          assert View() == TakePriority(s);
          ok := true;
        case |blocksCh| > 0 =>
          TakeBlockKeeps(s);
          p := blocksCh[0];
          blocksCh, held := blocksCh[1..], held + {p};
          assert View() == TakeBlock(s);
          ok := true;
        case |priorityCh| == 0 && |blocksCh| == 0 =>
          ok := false;
      }
    }

    /** A block that is free right now, never one kept for priority. */
    method TryGet() returns (ok: bool, p: Ptr)
      requires Inv(View())
      modifies this`blocksCh, this`held
      ensures Inv(View())
      ensures ok <==> old(blocksCh) != []
      ensures ok ==> p !in old(held) && held == old(held) + {p} && p in data && data[p] == Zeros(blockSize)
      ensures !ok ==> View() == old(View())
    {
      ghost var s := View();
      p, ok := 0, |blocksCh| > 0;
      if ok {
        TakeBlockKeeps(s);
        p := blocksCh[0];
        blocksCh, held := blocksCh[1..], held + {p};
        assert View() == TakeBlock(s);
      }
    }

    /** Give a held block back. The fallback that deletes it never runs. */
    method Release(p: Ptr)
      requires Inv(View()) && p in held
      modifies this`resetCh, this`held, this`deleted
      ensures Inv(View()) && held == old(held) - {p} && resetCh == old(resetCh) + [p]
    {
      ghost var s := View();
      ReleaseHasRoom(s, p);
      GiveBackKeeps(s, p);
      held := held - {p};
      var room := |resetCh| < count - 1;
      resetCh := if room then resetCh + [p] else resetCh;
      deleted := if room then deleted else deleted + {p};
      assert View() == GiveBack(s, p);
    }

    /** What a caller does with a block it holds. */
    method Use(p: Ptr, bytes: bytes)
      requires Inv(View()) && p in held && |bytes| == blockSize
      modifies this`data
      ensures Inv(View()) && data == old(data)[p := bytes]
    {
      ghost var s := View();
      hide Places;
      UseKeeps(s, p, bytes);
      data := data[p := bytes];
    }

    /** The reset thread takes the next block. */
    method ResetNext()
      requires Inv(View()) && resetting == [] && resetCh != []
      modifies this`resetCh, this`resetting
      ensures Inv(View()) && resetting == [old(resetCh)[0]]
    {
      ghost var s := View();
      PickUpKeeps(s);
      resetCh, resetting := resetCh[1..], [resetCh[0]];
      assert View() == PickUp(s);
    }

    /** It overwrites the block with the zero block's data and passes it on to
        whichever free channel has room. Its deleting fallback never runs. */
    method ResetBlock()
      requires Inv(View()) && resetting != []
      modifies this`data, this`priorityCh, this`blocksCh, this`resetting, this`deleted
      ensures Inv(View()) && resetting == []
      ensures held == old(held) && |priorityCh| + |blocksCh| == |old(priorityCh)| + |old(blocksCh)| + 1
    {
      hide Inv, HighPriority, Zeros;
      ghost var s := View();
      ResetFacts(s);
      var p := resetting[0];
      data := data[p := data[count - 1]];
      resetting := [];
      var first := |priorityCh| < HighPriority(count);
      var second := !first && |blocksCh| < count - HighPriority(count) - 1;
      PutDownKeeps(s, first);
      priorityCh := if first then priorityCh + [p] else priorityCh;
      blocksCh := if second then blocksCh + [p] else blocksCh;
      deleted := if first || second then deleted else deleted + {p};
      assert View() == PutDown(s, first);
    }
  }
}
