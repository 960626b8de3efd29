/** A read-only handle of the block cache as the program keeps it: prefetching
    ahead of a sequential reader, sliding its window of buffers, and falling
    back to single blocks once the reads look random. */
module ReadHandle {
  import opened Bytes
  import opened Lists
  import opened ReadState

  datatype Status = Ok | Eof | NoBlock | NoAttr | DownloadFailed | NotFound

  class Handle {
    const content: bytes
    const bs: nat
    const prefetch: nat
    const noPrefetch: bool
    var cooked: seq<Ptr>
    var cooking: seq<Ptr>
    var values: map<int, Ptr>
    var mem: map<Ptr, Block>
    var items: set<Ptr>
    var failed: bool
    var spoiled: set<Ptr>
    var next: nat
    var optCnt: nat

    function View(): State
      reads this
    {
      State(content, bs, cooked, cooking, values, mem, items, failed, spoiled)
    }

    // ---------- Workers ----------

    /** A worker ends a download, well or after its last attempt. */
    method Finish(p: Ptr)
      requires Base(View()) && p in items
      modifies this`mem, this`items, this`failed
      ensures Base(View()) && Waited(old(View()), View()) && items == old(items) - {p}
      ensures Mapped(old(View())) ==> Mapped(View())
    {
      var ok: bool := *;
      assert |Zeros(bs)| == bs;
      var junk: bytes :| |junk| == bs;
      FinishKeeps(View(), p, ok, junk);
      FinishWaited(View(), p, ok, junk);
      ghost var s := View();
      var b := mem[p];
      var n := Min(bs, |content| - b.offset);
      var data := if ok then content[b.offset..b.offset + n] + b.data[n..] else junk;
      mem := mem[p := b.(state := Token(!ok), data := data)];
      items := items - {p};
      failed := failed || !ok;
      assert View() == ReadState.Finish(s, p, ok, junk);
    }

    /** Any number of downloads end. */
    method Workers()
      requires Base(View())
      modifies this`mem, this`items, this`failed
      ensures Base(View()) && Waited(old(View()), View())
      ensures Mapped(old(View())) ==> Mapped(View())
      ensures old(items) == {} ==> View() == old(View())
    {
      hide Base, Mapped, Waited;
      ghost var s := View();
      WaitedRefl(s);
      while items != {}
        invariant Base(View()) && Waited(s, View())
        invariant s.items == {} ==> View() == s
        invariant Mapped(s) ==> Mapped(View())
        decreases |items|
      {
        var stop: bool := *;
        if stop {
          break;
        }
        ghost var t := View();
        var p :| p in items;
        Finish(p);
        WaitedTrans(s, t, View());
      }
    }

    /** Receive from the channel of an assigned block: blocks while it is open and empty. */
    method Await(p: Ptr)
      requires Base(View()) && p in mem && mem[p].id >= 0
      modifies this`mem, this`items, this`failed
      ensures Base(View()) && Waited(old(View()), View())
      ensures Mapped(old(View())) ==> Mapped(View())
      ensures p in mem && !mem[p].state.Empty? && p !in items
      ensures p in old(mem) && (old(mem)[p].state.Closed? ==> mem[p] == old(mem)[p])
      ensures mem[p].state.Closed? ==> old(mem)[p].state.Closed?
    {
      ghost var s := View();
      Workers();
      assert WaitedAt(s, View(), p) && BlockOk(s, p);
      NoHang(View(), p);
      if mem[p].state.Empty? {
        ghost var t := View();
        Finish(p);
        WaitedTrans(s, t, View());
        assert WaitedAt(t, View(), p);
        NoHang(View(), p);
      }
      assert BlockOk(View(), p);
    }

    // ---------- The buffer pool ----------

    /** A buffer from the pool, if there is one. */
    method PoolGet() returns (ok: bool, p: Ptr, data: bytes)
      ensures ok ==> p !in mem && |data| == bs
    {
      p := *;
      ok := p !in mem;
      data := Zeros(bs);
    }

    // ---------- Prefetch ----------

    /** Give a free block to `index` and line it up for download. */
    method RefreshBlock(index: nat, ahead: bool) returns (status: Status)
      requires Inv(View()) && index !in values
      modifies this`cooked, this`cooking, this`values, this`mem, this`items, this`spoiled, this`next
      ensures Inv(View()) && Stays(old(View()), View())
      ensures status in {Ok, Eof, NoBlock} && (status == Eof <==> index * bs >= |content|) && (ahead ==> status != NoBlock)
      ensures status == Ok && !ahead ==> Awaited(View(), index)
      ensures spoiled <= old(spoiled)
    {
      hide Inv, Stays, StaysAt, BlockOk, Base, Mapped;
      ghost var s := View();
      StaysRefl(s);
      if index * bs >= |content| {
        return Eof;
      }
      if |cooked| == 0 && !ahead {
        var ok, p, data := PoolGet();
        if !ok {
          return NoBlock;
        }
        TakeKeeps(s, p, data);
        TakeStays(s, p, data);
        mem := mem[p := Block(-1, 0, Empty, false, data)];
        cooked := [p] + cooked;
        spoiled := spoiled - {p};
        assert View() == Take(s, p, data);
      }
      if |cooked| > 0 {
        ghost var t := View();
        AssignFirst(index);
        StaysTrans(s, t, View());
      }
      status := Ok;
    }

    /** The first free block gives up what it held and takes over `index`. */
    method AssignFirst(index: nat)
      requires Inv(View()) && index !in values && index * bs < |content| && cooked != []
      modifies this`cooked, this`cooking, this`values, this`mem, this`items, this`spoiled, this`next
      ensures Inv(View()) && Stays(old(View()), View())
      ensures Awaited(View(), index) && spoiled <= old(spoiled)
    {
      hide Inv, Stays, StaysAt, BlockOk, Base, Mapped, Remove;
      ghost var t := View();
      var p := cooked[0];
      NoEntry(t, p);
      RefreshKeeps(t, p, index);
      RefreshStays(t, p, index);
      if mem[p].id != -1 {
        values := values - {mem[p].id};
      }
      mem := mem[p := Block(index, index * bs, Empty, false, mem[p].data)];
      values := values[index := p];
      next := index + 1;
      LineupDownload(p);
      assert View() == Refresh(t, p, index);
    }

    /** Move the block to Cooking and hand it to the workers. */
    method LineupDownload(p: Ptr)
      requires p in mem
      modifies this`cooked, this`cooking, this`mem, this`items, this`spoiled
      ensures cooked == Remove(old(cooked), p) && cooking == Remove(old(cooking), p) + [p]
      ensures mem == old(mem)[p := old(mem)[p].(downloading := true)]
      ensures items == old(items) + {p} && spoiled == old(spoiled) - {p}
    {
      cooked := Remove(cooked, p);
      cooking := Remove(cooking, p) + [p];
      mem := mem[p := mem[p].(downloading := true)];
      items := items + {p};
      spoiled := spoiled - {p};
    }

    /** Random-read cleanup: free what is downloaded, keep five free blocks. */
    method Cleanup()
      requires Inv(View())
      modifies this`cooked, this`cooking, this`values, this`mem, this`items, this`failed, this`spoiled
      ensures Inv(View()) && Pending(old(View()), View())
      ensures |old(cooked)| + |old(cooking)| > MIN_PREFETCH ==> |cooked| <= MIN_PREFETCH
      ensures old(items) == {} ==> View() == Cleaned(old(View()))
    {
      hide Inv, Pending, Waited, Base, Mapped, Remove, Look, Drop;
      ghost var s := View();
      InvBase(s);
      PendingRefl(s);
      if |cooked| + |cooking| > MIN_PREFETCH {
        var currentCnt := |cooking|;
        var i := 0;
        while cooking != [] && i < currentCnt
          invariant Inv(View()) && Pending(s, View()) && i <= currentCnt
          invariant s.items == {} ==> items == {} && Sweep(View(), currentCnt - i) == Sweep(s, |s.cooking|)
          decreases currentCnt - i
        {
          CleanupStep(s);
          i := i + 1;
        }
        currentCnt := |cooked|;
        ghost var swept := View();
        while cooked != [] && currentCnt > MIN_PREFETCH
          invariant Inv(View()) && Pending(s, View()) && currentCnt == |cooked|
          invariant Trim(View(), Max(currentCnt - MIN_PREFETCH, 0)) == Trim(swept, Max(|swept.cooked| - MIN_PREFETCH, 0))
          decreases currentCnt
        {
          ghost var t := View();
          var p := cooked[0];
          InvBase(t);
          FreeFacts(t, p);
          DropFree(p);
          PendingTrans(s, t, View());
          currentCnt := currentCnt - 1;
        }
      }
    }

    /** Look at the first block of Cooking without waiting for it. */
    method CleanupStep(ghost s: State)
      requires Inv(View()) && Pending(s, View()) && cooking != []
      modifies this`cooked, this`cooking, this`mem, this`items, this`failed, this`spoiled
      ensures Inv(View()) && Pending(s, View())
      ensures old(items) == {} ==> items == {} && View() == Look(old(View()))
    {
      hide Inv, Pending, Waited, Base, Mapped, Remove, BlockOk;
      ghost var t := View();
      InvBase(t);
      Workers();
      WaitedPending(t, View());
      PendingTrans(s, t, View());
      InvOf(View());
      WaitedLists(t, View());
      t := View();
      InvBase(t);
      var p := cooking[0];
      FrontFacts(t);
      if mem[p].state.Token? {
        DrainKeeps(t, p);
        DrainPending(t, p);
        DrainFront(t, p);
        spoiled := if mem[p].state.failed then spoiled + {p} else spoiled;
        cooking := cooking[1..];
        mem := mem[p := mem[p].(state := Closed, downloading := false)];
        cooked := cooked + [p];
        assert View() == Drain(t, p);
      } else {
        RotateKeeps(t);
        RotatePending(t);
        cooking := cooking[1..] + [p];
      }
      PendingTrans(s, t, View());
    }

    /** Give the first free block back to the pool. */
    method DropFree(p: Ptr)
      requires Inv(View()) && cooked != [] && p == cooked[0] && p in mem && p !in items
      requires Remove(cooking, p) == cooking && Remove(cooked, p) == cooked[1..]
      modifies this`cooked, this`values, this`mem, this`spoiled
      ensures Inv(View()) && Pending(old(View()), View()) && |cooked| == |old(cooked)| - 1
      ensures View() == Drop(old(View()), p)
    {
      hide Inv, Pending, Remove, Base, Mapped;
      ghost var t := View();
      InvBase(t);
      DropKeeps(t, p);
      DropPending(t, p);
      cooked := cooked[1..];
      values := values - {mem[p].id};
      mem := mem - {p};
      spoiled := spoiled - {p};
      assert View() == Drop(t, p);
    }

    /** Line up blocks from `index` on for download: one in random mode and when
        all buffers are in use, else as many as new buffers could be had. */
    method StartPrefetch(index: nat, ahead: bool) returns (status: Status)
      requires Inv(View())
      modifies this`cooked, this`cooking, this`values, this`mem, this`items, this`failed, this`spoiled, this`next
      ensures Inv(View())
      ensures status in {Ok, Eof, NoBlock}
      ensures optCnt <= MIN_RANDREAD ==> Stays(old(View()), View())
      ensures index !in old(values) && !ahead && index * bs < |content| && status != NoBlock ==> Awaited(View(), index)
      ensures old(failed) ==> failed
      ensures optCnt <= MIN_RANDREAD ==> spoiled <= old(spoiled)
    {
      hide Inv, Pending, Stays, StaysAt, Base, Mapped, BlockOk;
      ghost var s := View();
      StaysRefl(s);
      var cnt := 0;
      if optCnt > MIN_RANDREAD {
        Cleanup();
        PendingFacts(s, View());
        cnt := 1;
      } else {
        cnt := Allocate();
      }
      status := LineupBlocks(index, ahead, cnt, s);
    }

    /** Take new buffers until the prefetch limit is hit. */
    method Allocate() returns (cnt: nat)
      requires Inv(View())
      modifies this`cooked, this`mem, this`spoiled
      ensures Inv(View()) && Stays(old(View()), View()) && cnt > 0 && spoiled <= old(spoiled)
    {
      hide Inv, Stays, StaysAt, Base, Mapped, BlockOk;
      ghost var s := View();
      StaysRefl(s);
      cnt := 0;
      var currentCnt := |cooked| + |cooking|;
      while currentCnt < prefetch && cnt < MIN_PREFETCH
        invariant Inv(View()) && Stays(s, View()) && spoiled <= s.spoiled
      {
        var ok, p, data := PoolGet();
        if ok {
          ghost var t := View();
          TakeKeeps(t, p, data);
          TakeStays(t, p, data);
          mem := mem[p := Block(-1, 0, Empty, false, data)];
          cooked := [p] + cooked;
          spoiled := spoiled - {p};
          assert View() == Take(t, p, data);
          StaysTrans(s, t, View());
          cnt := cnt + 1;
        }
        currentCnt := currentCnt + 1;
      }
      if cnt == 0 {
        cnt := 1;
      }
    }

    /** Line up `cnt` blocks; one already there uses up its turn. */
    method LineupBlocks(index: nat, ahead: bool, cnt: nat, ghost s: State) returns (status: Status)
      requires Inv(View()) && cnt > 0
      modifies this`cooked, this`cooking, this`values, this`mem, this`items, this`spoiled, this`next
      ensures Inv(View()) && Stays(old(View()), View())
      ensures Stays(s, old(View())) ==> Stays(s, View())
      ensures status in {Ok, Eof, NoBlock} && spoiled <= old(spoiled)
      ensures index !in old(values) && !ahead && index * bs < |content| && status != NoBlock ==> Awaited(View(), index)
    {
      hide Inv, Stays, StaysAt, Base, Mapped, BlockOk;
      ghost var s0 := View();
      StaysRefl(s0);
      var at, i := index, 0;
      while i < cnt
        invariant Inv(View()) && Stays(s0, View()) && at >= index && spoiled <= s0.spoiled
        invariant i == 0 ==> at == index && View() == s0
        invariant i > 0 && index !in s0.values && !ahead ==> Awaited(View(), index) && at > index
      {
        if at !in values {
          ghost var t := View();
          status := RefreshBlock(at, ahead || i > 0);
          StaysTrans(s0, t, View());
          if Awaited(t, index) {
            StaysMapped(t, View(), index);
          }
          if status != Ok {
            if Stays(s, s0) {
              StaysTrans(s, s0, View());
            }
            return;
          }
          at := at + 1;
        }
        i := i + 1;
      }
      status := Ok;
      if Stays(s, s0) {
        StaysTrans(s, s0, View());
      }
    }

    // ---------- Reading ----------

    /** Only a handle that has left sequential mode passes over failures. */
    ghost predicate Sound()
      reads this
    {
      Inv(View()) && (spoiled != {} ==> optCnt > MIN_RANDREAD)
    }

    /** The block holding byte `readOffset`, downloaded. It holds its bytes unless
        it was there before, open to readers, and did not hold them then. */
    method GetBlock(readOffset: nat) returns (status: Status, p: Ptr)
      requires Sound()
      modifies this
      ensures Sound() && optCnt >= old(optCnt)
      ensures old(failed) ==> failed
      ensures var k := readOffset / bs;
              old(Served(View(), k)) && readOffset < |content| ==> status == Ok && p == old(values)[k] && p in mem && mem[p] == old(mem)[p]
      ensures var k := readOffset / bs;
              status == Ok && !old(Served(View(), k)) ==> p in mem && Holds(View(), mem[p])
      ensures status != NotFound && (status == DownloadFailed ==> failed)
      ensures status == Eof <==> readOffset >= |content|
      ensures status == Ok ==> p in mem && mem[p].id == readOffset / bs && mem[p].state.Closed?
    {
      hide Inv, Stays, StaysAt, Base, Mapped, BlockOk, Waited;
      p := 0;
      if readOffset >= |content| {
        return Eof, 0;
      }
      InvBase(View());
      PositiveSize(View());
      var index := readOffset / bs;
      assert index * bs <= readOffset;
      if index !in values {
        status := FetchBlock(index, readOffset);
        if status != Ok {
          return;
        }
        if index !in values {
          return NotFound, 0;
        }
      }
      p := values[index];
      MappedFacts(View(), index);
      status := OpenBlock(index, p);
    }

    /** The block is not there: line it up, alone or with those behind it. */
    method FetchBlock(index: nat, readOffset: nat) returns (status: Status)
      requires Sound() && index !in values && readOffset < |content| && index * bs <= readOffset
      modifies this
      ensures Sound() && optCnt >= old(optCnt) && (old(failed) ==> failed)
      ensures status in {Ok, NoBlock, NoAttr}
      ensures status == Ok ==> Awaited(View(), index)
    {
      hide Inv, Stays, StaysAt, Base, Mapped, BlockOk;
      var attr: bool := *;
      if !attr {
        return NoAttr;
      }
      if !(!noPrefetch && next == 0) {
        optCnt := optCnt + 1;
      }
      status := StartPrefetch(index, false);
      if status != NoBlock {
        status := Ok;
      }
    }

    /** Wait for the block; its first reader closes the channel, prefetches on
        and frees the block for reuse, or drops it when the download failed. */
    method OpenBlock(index: nat, p: Ptr) returns (status: Status)
      requires Sound() && p in mem && mem[p].id == index
      modifies this
      ensures Sound() && optCnt == old(optCnt) && (old(failed) ==> failed)
      ensures old(mem)[p].state.Closed? ==> status == Ok && p in mem && mem[p] == old(mem)[p]
      ensures status == Ok && !old(mem)[p].state.Closed? ==> p in mem && Holds(View(), mem[p])
      ensures status in {Ok, DownloadFailed} && (status == DownloadFailed ==> failed)
      ensures status == Ok ==> p in mem && mem[p].id == index && mem[p].state.Closed?
    {
      hide Inv, Stays, StaysAt, Base, Mapped, BlockOk, Waited, Remove;
      ghost var s := View();
      InvBase(s);
      Await(p);
      InvOf(View());
      WaitedFacts(s, View(), p);
      ghost var t := View();
      if mem[p].state == Token(true) {
        TokenFailed(t, p);
        DropKeeps(t, p);
        cooking := Remove(cooking, p);
        cooked := Remove(cooked, p);
        values := values - {mem[p].id};
        mem := mem - {p};
        spoiled := spoiled - {p};
        assert View() == Drop(t, p);
        return DownloadFailed;
      }
      if mem[p].state.Token? {
        FirstReader(p);
      }
      status := Ok;
    }

    /** Take the token of a downloaded block, prefetch on unless the reads look
        random, and move the block to Cooked. */
    method FirstReader(p: Ptr)
      requires Sound() && p in mem && mem[p].state == Token(false)
      modifies this
      ensures Sound() && optCnt == old(optCnt) && (old(failed) ==> failed)
      ensures p in mem && mem[p] == old(mem)[p].(state := Closed, downloading := false)
      ensures Holds(View(), mem[p])
    {
      hide Inv, Stays, StaysAt, Base, Mapped, BlockOk, Waited, Remove, Holds;
      ghost var t := View();
      UnblockKeeps(t, p);
      UnblockPlace(t, p);
      TokenHolds(t, p);
      mem := mem[p := mem[p].(state := Closed, downloading := false)];
      assert View() == Unblock(t, p);
      HoldsSame(t, View(), mem[p]);
      t := View();
      if !noPrefetch && optCnt <= MIN_RANDREAD {
        if next * bs < |content| {
          var ignored := StartPrefetch(next, true);
          StaysClosed(t, View(), p);
        }
      }
      HoldsSame(t, View(), t.mem[p]);
      t := View();
      ToCookedKeeps(t, p);
      cooking := Remove(cooking, p);
      cooked := Remove(cooked, p) + [p];
      assert View() == ToCooked(t, p);
      HoldsSame(t, View(), t.mem[p]);
    }

    /** Read up to `length` bytes at `offset`. Inside one block the answer is
        exactly what the handle shows there before the call. Over several blocks the
        bytes are the file's, unless a block was read whose failed download a cleanup
        had passed over, which takes a failed download and a random reader. */
    method ReadInBuffer(offset: nat, length: nat) returns (status: Status, data: bytes, ghost clean: bool)
      requires Sound()
      modifies this
      ensures Sound() && optCnt >= old(optCnt) && (old(failed) ==> failed)
      ensures OneBlock(old(View()), offset, length) ==>
                && (status in {Ok, Eof} ==> data == Shown(old(View()), offset, length))
                && (old(Served(View(), offset / bs)) ==> status in {Ok, Eof})
      ensures status != NotFound && (status == DownloadFailed ==> failed)
      ensures |data| <= length && |data| <= Max(|content| - offset, 0)
      ensures clean && offset < |content| ==> data == content[offset..offset + |data|]
      ensures !failed || optCnt <= MIN_RANDREAD ==> clean
      ensures status == Ok ==> |data| == length && (length > 0 ==> offset + length < |content|)
      ensures status == Eof ==> offset + |data| == Max(|content|, offset)
      ensures offset >= |content| ==> status == Eof
    {
      hide Inv, Base, Mapped, BlockOk, Holds, Shown, OneBlock, Served;
      ghost var s, cnt := View(), optCnt;
      data, clean := [], true;
      if offset >= |content| {
        return Eof, data, true;
      }
      InvBase(View());
      PositiveSize(View());
      var at := offset;
      while |data| < length
        invariant Sound() && optCnt >= cnt
        invariant |data| <= length && at == offset + |data| < |content|
        invariant clean ==> data == content[offset..at]
        invariant !failed || optCnt <= MIN_RANDREAD ==> clean
        invariant old(failed) ==> failed
        invariant data == [] ==> View() == s
        invariant data != [] && OneBlock(s, offset, length) ==> |data| == length && data == Shown(s, offset, length)
        decreases length - |data|
      {
        var chunk;
        ghost var right;
        status, chunk, right := ReadNext(at, length - |data|);
        if status != Ok {
          return;
        }
        if OneBlock(s, offset, length) {
          OneChunk(s, offset, length, chunk);
        }
        if clean && right {
          assert content[offset..at] + content[at..at + |chunk|] == content[offset..at + |chunk|];
        }
        clean := clean && right;
        data, at := data + chunk, at + |chunk|;
        if at >= |content| {
          return Eof, data, clean;
        }
      }
      status := Ok;
    }

    /** One round: get the block and copy what it has from `at` on. */
    method ReadNext(at: nat, most: nat) returns (status: Status, chunk: bytes, ghost right: bool)
      requires Sound() && at < |content| && most > 0
      modifies this
      ensures Sound() && optCnt >= old(optCnt) && (old(failed) ==> failed)
      ensures status !in {NotFound, Eof} && (status == DownloadFailed ==> failed)
      ensures status == Ok ==> 0 < |chunk| <= most && at + |chunk| <= |content|
      ensures status == Ok && right ==> chunk == content[at..at + |chunk|]
      ensures !failed || optCnt <= MIN_RANDREAD ==> right
      ensures OneBlock(old(View()), at, most) ==>
                && (status == Ok ==> chunk == Shown(old(View()), at, most))
                && (old(Served(View(), at / bs)) ==> status == Ok)
    {
      hide Inv, Base, Mapped, BlockOk, Holds, Shown, OneBlock, Served;
      ghost var s := View();
      var p;
      chunk, right := [], true;
      InvBase(s);
      PositiveSize(s);
      status, p := GetBlock(at);
      if status == Ok {
        chunk, right := CopyOut(p, at, most);
        if OneBlock(s, at, most) {
          FirstChunk(s, View(), p, at, most, chunk);
        }
      }
    }

    /** Copy bytes out of the block that covers `at`; they are right unless the
        block is spoiled. */
    method CopyOut(p: Ptr, at: nat, most: nat) returns (chunk: bytes, ghost right: bool)
      requires Inv(View()) && at < |content| && most > 0
      requires bs > 0 && p in mem && mem[p].id == at / bs && mem[p].state.Closed?
      ensures 0 < |chunk| <= most && at + |chunk| <= |content|
      ensures right ==> chunk == content[at..at + |chunk|]
      ensures !failed || spoiled == {} ==> right
      ensures |chunk| == Min(most, Min(at / bs * bs + bs, |content|) - at) && mem[p].offset == at / bs * bs
      ensures at / bs * bs <= at && at + |chunk| - at / bs * bs <= |mem[p].data|
      ensures chunk == mem[p].data[at - at / bs * bs..at + |chunk| - at / bs * bs]
    {
      hide Inv, Holds;
      var b := mem[p];
      ReadableFacts(View(), p, at);
      var n := Min(most, b.offset + Min(bs, |content| - b.offset) - at);
      right := p !in spoiled;
      if right {
        HeldBytes(View(), b, at, n);
      }
      chunk := b.data[at - b.offset..at - b.offset + n];
    }

    /** Any sequence of reads, sequential or not. As long as no download fails, or
        the reader is not found to be a random one, every answer is the file's bytes
        at its place, as many as were asked for unless the file ends, a buffer could
        not be had or a download failed, and then an error is reported. */
    method Session(ops: seq<Read>) returns (out: seq<Answer>)
      requires Sound()
      modifies this
      ensures Sound() && |out| == |ops|
      ensures !failed || optCnt <= MIN_RANDREAD ==> forall i | 0 <= i < |ops| :: RightAnswer(content, ops[i], out[i])
      ensures !failed ==> forall i | 0 <= i < |ops| :: out[i].status != DownloadFailed
    {
      hide Inv, RightAnswer;
      out := [];
      while |out| < |ops|
        invariant |out| <= |ops| && Sound()
        invariant !failed || optCnt <= MIN_RANDREAD ==> forall i | 0 <= i < |out| :: RightAnswer(content, ops[i], out[i])
        invariant !failed ==> forall i | 0 <= i < |out| :: out[i].status != DownloadFailed
      {
        var op := ops[|out|];
        var status, data;
        ghost var clean;
        status, data, clean := ReadInBuffer(op.offset, op.length);
        if !failed || optCnt <= MIN_RANDREAD {
          AnswerIsRight(content, op, Answer(status, data));
        }
        out := out + [Answer(status, data)];
      }
    }

    // ---------- Open and close ----------

    constructor (content: bytes, bs: nat, prefetch: nat)
      requires bs > 0
      ensures Sound() && this.content == content && this.bs == bs && mem == map[] && !failed
    {
      this.content, this.bs, this.prefetch, this.noPrefetch := content, bs, prefetch, prefetch == 0;
      cooked, cooking, values, mem, items, failed, spoiled := [], [], map[], map[], {}, false, {};
      next, optCnt := 0, 0;
    }

    /** What opening the file downloads ahead of the first read. */
    method PrefetchOnOpen(prefetchOnOpen: bool)
      requires Sound() && 0 !in values
      modifies this
      ensures Sound() && optCnt == old(optCnt)
    {
      if |content| > 0 {
        if |content| < bs {
          var ignored := RefreshBlock(0, false);
        } else if prefetchOnOpen && !noPrefetch {
          var ignored := StartPrefetch(0, false);
        }
      }
    }

    /** Close: wait for every download, then give every buffer back. */
    method Release()
      requires Inv(View())
      modifies this
      ensures mem == map[] && items == {} && cooked == [] && cooking == []
    {
      hide Base, Mapped, Waited, Remove, BlockOk;
      InvBase(View());
      values := map[];
      BaseUnmapped(old(View()), View());
      while cooking != []
        invariant Base(View())
        decreases |cooking|
      {
        var p := cooking[0];
        ghost var s := View();
        FrontFacts(s);
        Await(p);
        WaitedFacts(s, View(), p);
        DropBlock(p);
      }
      while cooked != []
        invariant Base(View()) && cooking == []
        decreases |cooked|
      {
        FreeFacts(View(), cooked[0]);
        DropBlock(cooked[0]);
      }
      NothingHeld(View());
    }

    method DropBlock(p: Ptr)
      requires Base(View()) && p in mem && p !in items && (p in cooked || p in cooking)
      modifies this`cooked, this`cooking, this`values, this`mem, this`spoiled
      ensures Base(View())
      ensures p in old(cooking) ==> |cooking| < |old(cooking)|
      ensures old(cooking) == [] ==> cooking == [] && |cooked| < |old(cooked)|
    {
      hide Base;
      ghost var s := View();
      BaseLists(s);
      DropBase(s, p);
      RemoveProps(cooking, p);
      RemoveProps(cooked, p);
      cooking := Remove(cooking, p);
      cooked := Remove(cooked, p);
      values := values - {mem[p].id};
      mem := mem - {p};
      spoiled := spoiled - {p};
      assert View() == Drop(s, p);
    }
  }

  // ---------- Reads and answers ----------

  datatype Read = Read(offset: nat, length: nat)

  datatype Answer = Answer(status: Status, data: bytes)

  /** The bytes of the file from the offset on; short only at the end of the file
      or when there was no buffer, there were no attributes or a download failed. */
  ghost predicate RightAnswer(content: bytes, op: Read, a: Answer) {
    && a.status in {Ok, Eof, NoBlock, NoAttr, DownloadFailed}
    && |a.data| <= op.length
    && (op.offset < |content| ==>
          op.offset + |a.data| <= |content| && a.data == content[op.offset..op.offset + |a.data|])
    && (op.offset >= |content| ==> a == Answer(Eof, []))
    && (a.status == Ok ==> |a.data| == op.length)
    && (a.status == Eof ==> op.offset + |a.data| == Max(|content|, op.offset))
  }

  lemma AnswerIsRight(content: bytes, op: Read, a: Answer)
    requires a.status in {Ok, Eof, NoBlock, NoAttr, DownloadFailed}
    requires |a.data| <= op.length && |a.data| <= Max(|content| - op.offset, 0)
    requires op.offset < |content| ==> a.data == content[op.offset..op.offset + |a.data|]
    requires op.offset >= |content| ==> a.status == Eof
    requires a.status == Ok ==> |a.data| == op.length
    requires a.status == Eof ==> op.offset + |a.data| == Max(|content|, op.offset)
    ensures RightAnswer(content, op, a)
  {
  }

  // ---------- Facts the methods use ----------

  lemma InvBase(s: State)
    requires Inv(s)
    ensures Base(s) && Mapped(s)
  {
  }

  lemma InvOf(s: State)
    requires Base(s) && Mapped(s)
    ensures Inv(s)
  {
  }

  lemma BaseLists(s: State)
    requires Base(s)
    ensures NoDup(s.cooked) && NoDup(s.cooking)
  {
  }

  lemma PositiveSize(s: State)
    requires Base(s)
    ensures s.bs > 0
  {
  }

  /** An unassigned block has no map entry to remove. */
  lemma NoEntry(s: State, p: Ptr)
    requires Inv(s) && p in s.cooked
    ensures p in s.mem && (s.mem[p].id < 0 ==> s.mem[p].id == -1 && -1 !in s.values)
    ensures s.values - {-1} == s.values
  {
    assert BlockOk(s, p);
    assert -1 in s.values ==> ValueOk(s, -1);
  }

  lemma WaitedLists(s: State, t: State)
    requires Waited(s, t)
    ensures t.cooked == s.cooked && t.cooking == s.cooking && t.values == s.values
  {
  }

  lemma WaitedFacts(s: State, t: State, p: Ptr)
    requires Waited(s, t) && p in s.mem
    ensures p in t.mem && t.mem[p].id == s.mem[p].id && t.cooking == s.cooking && t.cooked == s.cooked
    ensures s.failed ==> t.failed
  {
    assert WaitedAt(s, t, p);
  }

  lemma FrontFacts(s: State)
    requires Base(s) && s.cooking != []
    ensures s.cooking[0] in s.mem && s.mem[s.cooking[0]].id >= 0
  {
    assert s.cooking[0] in s.mem && BlockOk(s, s.cooking[0]);
  }

  lemma FreeFacts(s: State, p: Ptr)
    requires Base(s) && s.cooked != [] && p == s.cooked[0]
    ensures p in s.mem && p !in s.items
    ensures Remove(s.cooking, p) == s.cooking && Remove(s.cooked, p) == s.cooked[1..]
  {
    assert p in s.mem && BlockOk(s, p);
    RemoveProps(s.cooking, p);
    RemoveAt(s.cooked, 0);
    assert s.cooked[..0] + s.cooked[1..] == s.cooked[1..];
  }

  lemma DrainFront(s: State, p: Ptr)
    requires Base(s) && s.cooking != [] && p == s.cooking[0]
    ensures Remove(s.cooking, p) == s.cooking[1..] && Remove(s.cooked, p) == s.cooked
  {
    assert p in s.mem && BlockOk(s, p);
    RemoveProps(s.cooked, p);
    RemoveAt(s.cooking, 0);
    assert s.cooking[..0] + s.cooking[1..] == s.cooking[1..];
  }

  lemma RotatePending(s: State)
    requires Base(s) && s.cooking != []
    ensures Pending(s, Rotate(s))
  {
  }

  lemma PendingFacts(s: State, t: State)
    requires Pending(s, t)
    ensures (s.failed ==> t.failed) && forall k | k in t.values :: k in s.values
  {
  }

  /** A block that stays in Cooking stays mapped. */
  lemma StaysMapped(s: State, t: State, k: nat)
    requires Inv(s) && Inv(t) && Stays(s, t) && Awaited(s, k)
    ensures Awaited(t, k)
  {
    var p := s.values[k];
    assert ValueOk(s, k) && StaysAt(s, t, p) && MappedOk(t, p);
  }

  lemma StaysClosed(s: State, t: State, p: Ptr)
    requires Inv(s) && Stays(s, t) && p in s.mem && p in s.cooking && s.mem[p].state.Closed?
    ensures p in t.mem && t.mem[p] == s.mem[p] && (s.failed ==> t.failed)
  {
    assert BlockOk(s, p) && StaysAt(s, t, p);
  }

  lemma MappedFacts(s: State, k: nat)
    requires Inv(s) && k in s.values
    ensures s.values[k] in s.mem && s.mem[s.values[k]].id == k
  {
    assert ValueOk(s, k);
  }

  lemma TokenFailed(s: State, p: Ptr)
    requires Base(s) && p in s.mem && s.mem[p].state == Token(true)
    ensures s.failed
  {
    assert BlockOk(s, p);
  }

  lemma TokenHolds(s: State, p: Ptr)
    requires Inv(s) && p in s.mem && s.mem[p].state == Token(false)
    ensures Holds(s, s.mem[p]) && Holds(s, s.mem[p].(state := Closed, downloading := false))
  {
    assert BlockOk(s, p);
  }

  lemma HoldsSame(s: State, t: State, b: Block)
    requires t.content == s.content && t.bs == s.bs
    ensures Holds(t, b) <==> Holds(s, b)
  {
  }

  /** What was copied in the first round is what the handle shows. */
  lemma FirstChunk(s: State, t: State, p: Ptr, offset: nat, length: nat, chunk: bytes)
    requires Inv(s) && OneBlock(s, offset, length) && t.content == s.content && t.bs == s.bs && p in t.mem
    requires var k := offset / s.bs;
             if Served(s, k) then t.mem[p] == s.mem[s.values[k]] else Holds(t, t.mem[p]) && t.mem[p].offset == k * s.bs
    requires var start := offset / s.bs * s.bs;
             && |chunk| == Min(length, Min(start + s.bs, |s.content|) - offset)
             && start <= offset && offset + |chunk| - start <= |t.mem[p].data|
             && chunk == t.mem[p].data[offset - start..offset + |chunk| - start]
    ensures chunk == Shown(s, offset, length)
  {
    BlockStart(s, offset);
    if Served(s, offset / s.bs) {
      assert chunk == Shown(s, offset, length);
    } else {
      HeldBytes(t, t.mem[p], offset, |chunk|);
    }
  }

  lemma OneChunk(s: State, offset: nat, length: nat, chunk: bytes)
    requires OneBlock(s, offset, length) && chunk == Shown(s, offset, length)
    ensures |chunk| == length || offset + |chunk| == |s.content|
    ensures chunk != []
  {
  }

  lemma UnblockPlace(s: State, p: Ptr)
    requires Inv(s) && p in s.mem && s.mem[p].state.Token?
    ensures p in s.cooking
  {
    assert BlockOk(s, p);
  }

  /** A readable block covers the offset it was asked for. */
  lemma ReadableFacts(s: State, p: Ptr, at: nat)
    requires Inv(s) && s.bs > 0 && p in s.mem && s.mem[p].state.Closed? && s.mem[p].id == at / s.bs && at < |s.content|
    ensures s.mem[p].offset == at / s.bs * s.bs <= at < s.mem[p].offset + s.bs && s.mem[p].offset < |s.content| && |s.mem[p].data| == s.bs
    ensures p in s.spoiled || Holds(s, s.mem[p])
    ensures !s.failed ==> p !in s.spoiled
  {
    assert BlockOk(s, p);
    assert at == at / s.bs * s.bs + at % s.bs;
  }

  lemma BaseUnmapped(s: State, t: State)
    requires Base(s) && t == s.(values := map[])
    ensures Base(t)
  {
    forall p | p in t.mem ensures BlockOk(t, p) {
      assert BlockOk(s, p);
    }
  }

  /** With both lists empty every buffer is back in the pool. */
  lemma NothingHeld(s: State)
    requires Base(s) && s.cooked == [] && s.cooking == []
    ensures s.mem == map[] && s.items == {}
  {
    assert forall p | p in s.mem :: BlockOk(s, p);
  }
}
