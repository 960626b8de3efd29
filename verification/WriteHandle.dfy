/** A write handle of the block cache as the program keeps it: fields updated in
    place by the thread that holds the handle lock, with workers finishing
    uploads and downloads in between at any moment. */
module WriteHandle {
  import opened Bytes
  import opened Storage
  import opened Lists
  import opened WriteState
  import opened WriteSteps
  import opened WriteEdit
  import opened WriteCalm
  import opened WriteWait
  import opened WriteShuffle
  import opened WriteCommit
  import opened WriteList
  import opened WriteListLoop
  import opened WriteRestage
  import opened WriteFetch
  import opened WriteGuard
  import opened WriteOutgrown
  import opened WriteImage
  import opened WriteOpen
  import opened BlockIdList

  /** The first block of a small blob, which a write-only open reads ahead. Until it
      is touched a block of zeros stands for it in the handle's cache. */
  class ReadAhead {
    const data: bytes
    var pending: bool

    constructor (data: bytes)
      ensures this.data == data && pending == (data != [])
    {
      this.data, pending := data, data != [];
    }
  }

  class Handle {
    const bs: nat
    const recorded: bool
    const prefetch: nat
    const ahead: ReadAhead
    var length: nat
    var size: nat
    var handleDirty: bool
    var cooked: seq<Ptr>
    var cooking: seq<Ptr>
    var values: map<nat, Ptr>
    var blockList: map<nat, BlockInfo>
    var mem: map<Ptr, Block>
    var uploads: map<Ptr, Id>
    var downloads: set<Ptr>
    var store: Store

    function View(): State
      reads this
    {
      State(bs, recorded, length, size, handleDirty, cooked, cooking, values, blockList, mem, uploads, downloads, store)
    }

    /** The length the handle records, and the file as far as it accounts for it. */
    ghost function Picture(): Image
      reads this
      requires Inv(View())
    {
      Image(length, File(View()))
    }

    ghost predicate AheadOk()
      reads this, ahead
    {
      |ahead.data| <= Min(bs, length) && (ahead.pending ==> ahead.data != [])
    }

    // ---------- Workers ----------

    /** The upload worker: stage the block's bytes under the id of the work item;
        after the last failed attempt, mark the block failed. */
    method Upload(p: Ptr, ok: bool)
      requires Base(View()) && p in uploads
      modifies this
      ensures Base(View()) && Waited(old(View()), View())
      ensures uploads == old(uploads) - {p} && downloads == old(downloads)
    {
      hide Base, Waited;
      ghost var s := View();
      UploadReady(s, p);
      var b := mem[p];
      if ok {
        UploadOkWaited(s, p);
        var n := if recorded then blockList[b.id].size else Min(bs, length - b.offset);
        store := Stage(store, uploads[p], b.data[..n]);
        mem := mem[p := b.(synced := true, dirty := false, state := Token)];
        uploads := uploads - {p};
        assert View() == UploadOk(s, p);
      } else {
        UploadFailedWaited(s, p);
        mem := mem[p := b.(failed := true, state := Token)];
        uploads := uploads - {p};
        assert View() == UploadFailed(s, p);
      }
    }

    /** The download worker: a ranged read into the block's buffer; a failed one
        may leave anything in it. */
    method Download(p: Ptr, ok: bool, junk: bytes)
      requires Base(View()) && p in downloads && |junk| == bs
      modifies this
      ensures Base(View()) && Waited(old(View()), View())
      ensures uploads == old(uploads) && downloads == old(downloads) - {p}
    {
      hide Base, Waited, Fetch, Content;
      ghost var s := View();
      DownloadReady(s, p);
      var b := mem[p];
      if ok {
        DownloadOkWaited(s, p);
        var n := Min(bs, length - b.offset);
        mem := mem[p := b.(data := Fetch(Content(store), b.offset, n, b.data), state := Token)];
        downloads := downloads - {p};
        assert View() == DownloadOk(s, p);
      } else {
        DownloadFailedWaited(s, p, junk);
        mem := mem[p := b.(data := junk, failed := true, state := Token)];
        downloads := downloads - {p};
        assert View() == DownloadFailed(s, p, junk);
      }
    }

    /** One work item ends, well or badly. */
    method Finish(p: Ptr)
      requires Base(View()) && InFlight(View(), p)
      modifies this
      ensures Base(View()) && Waited(old(View()), View())
      ensures uploads == old(uploads) - {p} && downloads == old(downloads) - {p}
    {
      var ok: bool := *;
      UploadsNotDownloads(View(), p);
      if p in uploads {
        Upload(p, ok);
      } else {
        assert |Zeros(bs)| == bs;
        var junk: bytes :| |junk| == bs;
        Download(p, ok, junk);
      }
    }

    /** Any number of pending work items end. */
    method Workers()
      requires Base(View())
      modifies this
      ensures Base(View()) && Waited(old(View()), View())
    {
      ghost var s := View();
      WaitedRefl(s);
      while *
        invariant Base(View()) && Waited(s, View())
        decreases |uploads| + |downloads|
      {
        ghost var t := View();
        if {
          case uploads != map[] =>
            var p :| p in uploads;
            Finish(p);
            WaitedTrans(s, t, View());
          case downloads != {} =>
            var p :| p in downloads;
            Finish(p);
            WaitedTrans(s, t, View());
          case true =>
            break;
        }
      }
    }

    /** Receive from a block's channel; the first receiver closes it. The channel
        is never waited on for ever: if it is empty, a work item will fill it. */
    method Await(p: Ptr)
      requires Base(View()) && Linked(View(), p)
      modifies this
      ensures Base(View()) && Waited(old(View()), View())
      ensures p in mem && mem[p].state.Closed? && !InFlight(View(), p)
    {
      hide Base, Waited;
      ghost var s := View();
      Workers();
      ghost var t := View();
      WaitedLinked(s, t, p);
      if p in uploads || p in downloads {
        Finish(p);
        WaitedTrans(s, t, View());
      }
      ghost var u := View();
      WaitedLinked(s, u, p);
      ChannelTells(u, p);
      DrainWaited(u, p);
      mem := mem[p := mem[p].(state := Closed)];
      assert View() == Drain(u, p);
      WaitedTrans(s, u, View());
    }

    // ---------- Staging and freeing ----------

    /** Schedule the upload of one modified block: a new id and the length the
        block has now go into the block list, the block moves to Cooked. */
    method LineupItem(p: Ptr)
      requires Base(View()) && CanLineup(View(), p)
      modifies this
      ensures 0 < BlockLen(old(View()), old(mem)[p].id)
      ensures View() == LineupUpload(old(View()), p)
    {
      hide Base, BlockOk, Linked, Remove;
      ghost var s := View();
      LineupLength(s, p);
      ghost var t := LineupUpload(s, p);
      var b := mem[p];
      var id := store.nextId;
      store := store.(nextId := id + 1);
      blockList := blockList[b.id := BlockInfo(id, false, Min(bs, length - b.offset))];
      mem := mem[p := b.(state := Empty, failed := false, uploading := true)];
      cooked := Remove(cooked, p) + [p];
      cooking := Remove(cooking, p);
      uploads := uploads[p := id];
      assert blockList == t.blockList && mem == t.mem && cooked == t.cooked;
    }

    /** Schedule an upload; workers may take it up, and end it, right away. */
    method Lineup(p: Ptr)
      requires Base(View()) && CanLineup(View(), p)
      modifies this
      ensures Base(View()) && Shuffled(old(View()), View())
      ensures cooking == Remove(old(cooking), p) && |cooked| + |cooking| == |old(cooked)| + |old(cooking)|
      ensures values == old(values) && mem.Keys == old(mem).Keys
    {
      ghost var s := View();
      InOneList(s, p);
      RemoveProps(cooked, p);
      RemoveProps(cooking, p);
      LineupShuffled(s, p);
      LineupKeeps(s, p);
      LineupItem(p);
      ghost var t := View();
      Workers();
      WaitedShuffled(t, View());
      ShuffledTrans(s, t, View());
    }

    /** Schedule up to `cnt` modified blocks of Cooking, front to back. */
    method StageBlocks(cnt: nat)
      requires Base(View())
      modifies this
      ensures Base(View()) && Shuffled(old(View()), View())
      ensures values == old(values) && mem.Keys == old(mem).Keys
      ensures |cooked| + |cooking| == |old(cooked)| + |old(cooking)|
      ensures |old(cooking)| <= cnt ==> CleanPrefix(View(), |cooking|)
    {
      hide Base, Shuffled;
      ghost var s := View();
      var i, left := 0, cnt;
      WaitedRefl(s);
      WaitedShuffled(s, s);
      while i < |cooking| && left > 0
        invariant 0 <= i <= |cooking|
        invariant Base(View()) && Shuffled(s, View())
        invariant values == old(values) && mem.Keys == old(mem).Keys
        invariant |cooked| + |cooking| == |old(cooked)| + |old(cooking)|
        invariant CleanPrefix(View(), i)
        invariant |old(cooking)| <= cnt ==> |cooking| - i <= left
        decreases |cooking| - i
      {
        ghost var t := View();
        var p := cooking[i];
        CookingBlock(t, p);
        if mem[p].dirty {
          BaseNoDup(t);
          RemoveAt(cooking, i);
          Lineup(p);
          ShuffledTrans(s, t, View());
          CleanPrefixKept(t, View(), i);
          left := left - 1;
        } else {
          i := i + 1;
        }
      }
    }

    /** Wait for a block of Cooked and clear its transfer marks. */
    method AwaitCooked(p: Ptr)
      requires Base(View()) && p in cooked
      modifies this
      ensures Base(View()) && Shuffled(old(View()), View())
      ensures Quiet(old(View())) ==> Quiet(View())
      ensures values == old(values) && mem.Keys == old(mem).Keys && cooked == old(cooked)
      ensures p in mem && p !in uploads
    {
      hide Base, Quiet, Calm, Waited, Shuffled;
      ghost var s := View();
      assert Linked(s, p);
      Await(p);
      ghost var t := View();
      WaitedLists(s, t);
      WaitedShuffled(s, t);
      if Quiet(s) {
        WaitedQuiet(s, t);
      }
      ClearTransferWaited(t, p);
      mem := mem[p := mem[p].(downloading := false, uploading := false)];
      assert View() == ClearTransfer(t, p);
      ShuffledTrans(s, t, View());
    }

    /** Wait for the upload of one block of Cooked; a failed one goes back to Cooking. */
    method WaitUpload(p: Ptr) returns (failed: bool)
      requires Base(View()) && p in cooked
      modifies this
      ensures Base(View()) && Shuffled(old(View()), View())
      ensures Quiet(old(View())) ==> Quiet(View())
      ensures values == old(values) && mem.Keys == old(mem).Keys
      ensures failed ==> cooked == Remove(old(cooked), p)
      ensures !failed ==> cooked == old(cooked) && p in mem && !mem[p].failed && !mem[p].dirty && p !in uploads
    {
      hide Base, Shuffled, Quiet;
      ghost var s := View();
      AwaitCooked(p);
      ghost var u := View();
      failed := mem[p].failed;
      if failed {
        CookFailed(u, p);
        cooked, cooking := Remove(cooked, p), Remove(cooking, p) + [p];
        assert View() == Cook(u, p);
        ShuffledTrans(s, u, View());
      } else {
        ForgetUploaded(u, p);
      }
    }

    /** Give an uploaded block back to the pool. */
    method FreeBlock(p: Ptr)
      requires Base(View()) && p in cooked && p in mem && !mem[p].failed && p !in uploads
      modifies this
      ensures Base(View()) && Shuffled(old(View()), View())
      ensures Quiet(old(View())) ==> Quiet(View())
      ensures cooked == Remove(old(cooked), p)
    {
      ghost var s := View();
      ForgetUploaded(s, p);
      values := values - {mem[p].id};
      cooked, cooking := Remove(cooked, p), Remove(cooking, p);
      mem := mem - {p};
      assert View() == Forget(s, p);
    }

    /** Wait for up to `cnt` blocks of Cooked, front to back; with `cnt` one, the
        block is also dropped from the cache. */
    method WaitAndFreeUploadedBlocks(cnt: nat)
      requires Base(View())
      modifies this
      ensures Base(View()) && Shuffled(old(View()), View())
      ensures Quiet(old(View())) ==> Quiet(View())
      ensures cnt != 1 ==> values == old(values) && mem.Keys == old(mem).Keys
      ensures cnt != 1 && |old(cooked)| <= cnt ==>
                uploads == map[] && forall p | p in cooked :: p in mem && !mem[p].dirty
    {
      hide Base, Quiet, Calm, Waited, Shuffled;
      ghost var s := View();
      var i, left := 0, cnt;
      var wipeout := cnt == 1;
      WaitedRefl(s);
      WaitedShuffled(s, s);
      while i < |cooked| && left > 0
        invariant 0 <= i <= |cooked|
        invariant Base(View()) && Shuffled(s, View())
        invariant Quiet(s) ==> Quiet(View())
        invariant !wipeout ==> values == old(values) && mem.Keys == old(mem).Keys
        invariant !wipeout ==> UploadedPrefix(View(), i)
        invariant !wipeout && |old(cooked)| <= cnt ==> |cooked| - i <= left
        decreases |cooked| - i
      {
        ghost var t := View();
        var p := cooked[i];
        BaseNoDup(t);
        RemoveAt(cooked, i);
        var failed := WaitUpload(p);
        ghost var u := View();
        ShuffledTrans(s, t, u);
        if !wipeout {
          UploadedPrefixKept(t, u, i);
        }
        if !failed {
          left := left - 1;
          if wipeout {
            FreeBlock(p);
            ShuffledTrans(s, u, View());
          } else {
            i := i + 1;
          }
        }
      }
      if !wipeout && |old(cooked)| <= cnt {
        AllUploaded(View());
      }
    }

    // ---------- Commit ----------

    /** Three attempts to get every modified block uploaded. */
    method StageAll() returns (ok: bool)
      requires Base(View()) && Quiet(View())
      modifies this
      ensures Base(View()) && Shuffled(old(View()), View()) && Quiet(View())
      ensures values == old(values) && mem.Keys == old(mem).Keys
      ensures ok ==> Settled(View())
    {
      hide Base, Quiet, Shuffled;
      ghost var s := View();
      WaitedRefl(s);
      WaitedShuffled(s, s);
      var cnt := 0;
      while cnt < 3
        invariant 0 <= cnt <= 3
        invariant Base(View()) && Shuffled(s, View()) && Quiet(View())
        invariant values == old(values) && mem.Keys == old(mem).Keys
        invariant cnt > 0 ==> uploads == map[] && forall p | p in cooked :: p in mem && !mem[p].dirty
      {
        if |cooking| == 0 {
          break;
        }
        StagePass(s);
        cnt := cnt + 1;
      }
      if cnt == 3 {
        var i := 0;
        while i < |cooking|
          invariant CleanPrefix(View(), i)
          modifies {}
        {
          CookingBlock(View(), cooking[i]);
          if mem[cooking[i]].dirty {
            return false;
          }
          i := i + 1;
        }
      }
      ok := true;
      if cooking == [] {
        IdleLists(View());
      }
      ListsClean(View());
    }

    /** One attempt: schedule everything modified, then wait for all of it. */
    method StagePass(ghost s: State)
      requires Base(View()) && Shuffled(s, View())
      modifies this
      ensures Base(View()) && Shuffled(s, View()) && Quiet(View())
      ensures values == old(values) && mem.Keys == old(mem).Keys
      ensures uploads == map[] && forall p | p in cooked :: p in mem && !mem[p].dirty
    {
      ghost var t := View();
      FewBlocks(t);
      StageBlocks(MAX_BLOCKS);
      ghost var u := View();
      ShuffledTrans(s, t, u);
      FewBlocks(u);
      WaitAndFreeUploadedBlocks(MAX_BLOCKS);
      ShuffledTrans(s, u, View());
    }

    /** Stage a block of zeros; three attempts, each under a new id. */
    method StageZeroBlock(tryCnt: nat) returns (ok: bool, id: Id)
      requires IdsBelow(store)
      modifies this`store
      ensures StoreGrew(old(store), store)
      ensures ok ==> old(store).nextId <= id < store.nextId && Find(store, id) == Found(Zeros(bs))
      decreases 4 - tryCnt
    {
      if tryCnt > 3 {
        return false, 0;
      }
      ghost var st := store;
      id := store.nextId;
      var sent: bool := *;
      if sent {
        StageNextGrows(store, Zeros(bs));
        store := StageNext(store, Zeros(bs));
        ok := true;
      } else {
        store := store.(nextId := id + 1);
        ghost var st' := store;
        assert StoreGrew(st, st');
        ok, id := StageZeroBlock(tryCnt + 1);
        StoreGrewTrans(st, st', store);
      }
    }

    /** Put the entry at `index` into the list, a short one with a filler that
        makes up for the missing bytes. */
    method AppendEntry(ghost s: State, ghost c: Cursor, last: bool, index: nat, ids: seq<Id>, restage: seq<Id>)
      returns (ok: bool, ids': seq<Id>, restage': seq<Id>, ghost fillers': map<nat, Id>)
      requires Settled(s) && LoopInv(s, View(), c) && c.i < |Offsets(s)| && c.index == Offsets(s)[c.i]
      requires last == (c.i == |Offsets(s)| - 1) && index == c.index && ids == c.ids && restage == c.restage
      modifies this`store
      ensures ok ==> LoopInv(s, View(), Cursor(c.i + 1, index + 1, ids', restage', fillers', c.zeroStaged, c.zeroId, c.limit))
      ensures !ok ==> Settled(View()) && Tame(s, View())
    {
      hide LoopInv, Settled;
      FillerTest(s, c.i);
      LoopStoreOk(s, View(), c);
      LoopLookup(s, View(), c);
      ok, ids', restage', fillers' := true, ids, restage, c.fillers;
      if !last && blockList[index].size != bs {
        var id := store.nextId;
        var sent: bool := *;
        if !sent {
          LoopAbandoned(s, View(), c);
          return false, ids, restage, c.fillers;
        }
        var z := Zeros(bs - blockList[index].size);
        StageNextGrows(store, z);
        LoopStage(s, View(), c, StageNext(store, z));
        store := StageNext(store, z);
        LoopFiller(s, View(), c, id, z);
        restage' := restage + [blockList[index].id];
        ids' := ids + [blockList[index].id] + [id];
        fillers' := c.fillers[index := id];
      } else {
        LoopEntry(s, View(), c);
        ids' := ids + [blockList[index].id];
      }
    }

    /** Fill the hole at `index` with the zero block, staging it the first time. */
    method AppendZero(ghost s: State, ghost c: Cursor, index: nat, ids: seq<Id>, zeroStaged: bool, zeroId: Id)
      returns (ok: bool, zeroId': Id)
      requires Settled(s) && LoopInv(s, View(), c) && c.i < |Offsets(s)| && c.index < Offsets(s)[c.i]
      requires index == c.index && ids == c.ids && zeroStaged == c.zeroStaged && zeroId == c.zeroId
      modifies this`blockList, this`store
      ensures ok ==> LoopInv(s, View(), c.(index := index + 1, ids := ids + [zeroId'], zeroStaged := true, zeroId := zeroId'))
      ensures !ok ==> Settled(View()) && Tame(s, View())
    {
      hide LoopInv, Settled;
      ok, zeroId' := true, zeroId;
      if !zeroStaged {
        ghost var t := View();
        LoopStoreOk(s, t, c);
        ok, zeroId' := StageZeroBlock(1);
        if !ok {
          LoopStage(s, t, c, store);
          LoopAbandoned(s, View(), c);
          return;
        }
        LoopZeroStaged(s, t, c, store, zeroId');
      }
      LoopStoreOk(s, View(), c.(zeroStaged := true, zeroId := zeroId'));
      LoopZero(s, View(), c.(zeroStaged := true, zeroId := zeroId'));
      blockList := blockList[index := BlockInfo(zeroId', false, bs)];
    }

    /** The ids to commit, in file order: every index up to the last one gets an
        entry, and a short block in the middle is followed by a filler and listed
        for restaging. */
    method GetBlockIDList() returns (ok: bool, ids: seq<Id>, restage: seq<Id>, ghost n: nat, ghost fillers: map<nat, Id>, ghost x: nat)
      requires Settled(View())
      modifies this`blockList, this`store
      ensures Settled(View()) && Tame(old(View()), View())
      ensures ok ==> ListResult(View(), ids, restage, n, fillers, x) && KeepsEntries(old(View()), View())
    {
      hide LoopInv, Settled, ListResult, Tame, KeepsEntries;
      ghost var s := View();
      var offsets := SortedBelow(blockList.Keys, size);
      assert offsets == Offsets(s);
      var zeroStaged, zeroId, index, i := false, 0, 0, 0;
      ids, restage, n, fillers := [], [], 0, map[];
      LimitExists(s);
      x :| IsLimit(s, x);
      LoopInit(s, x);
      LoopStoreOk(s, s, Cursor(0, 0, [], [], map[], false, 0, x));
      while i < |offsets|
        invariant LoopInv(s, View(), Cursor(i, index, ids, restage, fillers, zeroStaged, zeroId, x))
        invariant 0 <= i <= |offsets| && (i < |offsets| ==> index <= offsets[i])
        decreases |offsets| - i, if i < |offsets| then offsets[i] - index else 0
      {
        ghost var c := Cursor(i, index, ids, restage, fillers, zeroStaged, zeroId, x);
        if index == offsets[i] {
          ok, ids, restage, fillers := AppendEntry(s, c, i == |offsets| - 1, index, ids, restage);
          i := i + 1;
        } else {
          ok, zeroId := AppendZero(s, c, index, ids, zeroStaged, zeroId);
          zeroStaged, ids := true, ids + [zeroId];
        }
        if !ok {
          return;
        }
        index := index + 1;
        LoopStoreOk(s, View(), Cursor(i, index, ids, restage, fillers, zeroStaged, zeroId, x));
      }
      ok, n := true, index;
      LoopDone(s, View(), Cursor(i, index, ids, restage, fillers, zeroStaged, zeroId, x));
    }

    // ---------- Getting a block to write into ----------

    /** The block for the index holding `offset`, in Cooking and with no transfer
        pending. A committed block is read back first; a block that is staged but
        not committed makes all of it be committed before. */
    method GetOrCreateBlock(offset: nat, ghost rank: nat) returns (ok: bool, p: Ptr)
      requires Inv(View())
      requires offset / bs !in values ==> MayFetch(View(), offset / bs, rank)
      modifies this
      ensures Inv(View()) && Tame(old(View()), View())
      ensures rank == 0 ==> Calm(old(View()), View())
      ensures OnlyNew(old(View()), View(), offset / bs)
      ensures ok ==> offset / bs < MAX_BLOCKS && Ready(View(), p, offset / bs) && Onward(old(View()), View())
      ensures ok ==> Got(old(View()), View(), offset / bs, prefetch)
      decreases rank, 2
    {
      ghost var s := View();
      var index := offset / bs;
      if index >= MAX_BLOCKS {
        CalmRefl(s);
        CalmTame(s, s);
        return false, 0;
      }
      if index in values {
        p := values[index];
        ok := ReopenBlock(index, p);
        CalmOnward(s, View());
      } else {
        ok, p := CreateBlock(index, rank);
      }
    }

    /** A cached block: wait for a pending transfer, then move it to Cooking. */
    method ReopenBlock(index: nat, p: Ptr) returns (ok: bool)
      requires Inv(View()) && index in values && values[index] == p
      modifies this
      ensures Inv(View()) && Calm(old(View()), View()) && OnlyNew(old(View()), View(), index)
      ensures ok ==> Ready(View(), p, index) && values == old(values) && |cooked| + |cooking| == |old(cooked)| + |old(cooking)|
    {
      hide Base, Quiet, CleanHandle, Inv, Calm, Waited, Ready, Linked, OnlyNew, InFlight;
      ghost var s := View();
      InvBase(s);
      FoundFlags(s, index);
      CalmRefl(s);
      ok := true;
      if !mem[p].synced && (mem[p].downloading || mem[p].uploading) {
        var downloading := mem[p].downloading;
        AwaitFound(index, p);
        ok := !(downloading && mem[p].failed);
      }
      ghost var t := View();
      FoundFlags(t, index);
      if ok {
        MoveToCooking(index, p);
      } else {
        DropFailed(index, p);
      }
      CalmTrans(s, t, View());
      NothingNew(s, View(), index);
      CalmInv(s, View());
    }

    method MoveToCooking(index: nat, p: Ptr)
      requires Base(View()) && index in values && values[index] == p && p in mem && Linked(View(), p)
      requires !InFlight(View(), p) && !(mem[p].failed && !mem[p].dirty)
      modifies this`cooked, this`cooking, this`mem
      ensures Base(View()) && Quiet(View()) && Calm(old(View()), View()) && Ready(View(), p, index)
      ensures |cooked| + |cooking| == |old(cooked)| + |old(cooking)|
    {
      hide Base, Quiet, Calm, Ready;
      ghost var t := View();
      InOneList(t, p);
      RemoveProps(cooked, p);
      RemoveProps(cooking, p);
      ReopenReady(t, p, index);
      cooked, cooking := Remove(cooked, p), Remove(cooking, p) + [p];
      mem := mem[p := mem[p].(uploading := false, downloading := false, synced := false)];
      assert View() == Reopened(t, p);
    }

    /** Its download failed: the block leaves the cache, so that the next access retries. */
    method DropFailed(index: nat, p: Ptr)
      requires Base(View()) && Quiet(View()) && index in values && values[index] == p && p in mem && mem[p].id == index
      requires !InFlight(View(), p) && mem[p].downloading && !mem[p].dirty
      modifies this`cooked, this`cooking, this`mem, this`values
      ensures Base(View()) && Quiet(View()) && Calm(old(View()), View()) && values == old(values) - {index}
    {
      hide Base, Quiet, Calm;
      ghost var t := View();
      ReleaseFailed(t, p, index);
      values := values - {index};
      cooked, cooking := Remove(cooked, p), Remove(cooking, p);
      mem := mem - {p};
      assert View() == Forget(t, p);
    }

    /** Wait for the transfer of a cached block. */
    method AwaitFound(index: nat, p: Ptr)
      requires Base(View()) && Quiet(View()) && index in values && values[index] == p
      modifies this
      ensures Base(View()) && Quiet(View()) && Calm(old(View()), View()) && values == old(values)
      ensures cooked == old(cooked) && cooking == old(cooking)
      ensures p in old(mem) && p in mem && mem[p].id == index && !InFlight(View(), p) && mem[p].downloading == old(mem)[p].downloading
      ensures mem[p].downloading ==> !mem[p].dirty
      ensures mem[p].failed && !mem[p].dirty ==> mem[p].downloading
    {
      hide Base, Quiet, CleanHandle, Calm, Waited, Linked;
      ghost var s := View();
      FoundFlags(s, index);
      Await(p);
      WaitedQuiet(s, View());
      WaitedFacts(s, View(), p);
      WaitedLists(s, View());
      FoundFlags(View(), index);
    }

    /** A block that is not cached: make room, find its bytes, link a new buffer. */
    method CreateBlock(index: nat, ghost rank: nat) returns (ok: bool, p: Ptr)
      requires Inv(View()) && index < MAX_BLOCKS && index !in values && MayFetch(View(), index, rank)
      modifies this
      ensures Inv(View()) && Tame(old(View()), View())
      ensures rank == 0 ==> Calm(old(View()), View())
      ensures OnlyNew(old(View()), View(), index)
      ensures ok ==> Ready(View(), p, index) && Onward(old(View()), View())
      ensures ok ==> Got(old(View()), View(), index, prefetch)
      decreases rank, 1
    {
      hide Base, Quiet, CleanHandle, Inv, Calm, Tame, Shuffled, OnlyNew, Ready, Stale, Onward, MayFetch;
      ghost var s := View();
      MakeRoom(index, rank);
      ghost var t := View();
      CalmTame(s, t);
      CalmOnward(s, t);
      p := 0;
      var data;
      ok, data := FetchBytes(index, rank);
      ghost var u := View();
      TameTrans(s, t, u);
      CalmOnlyNew(s, t, u, index);
      if rank == 0 {
        CalmTrans(s, t, u);
      }
      if ok {
        OnwardTrans(s, t, u);
        p := LinkBlock(index, data);
        ghost var v := View();
        CalmTame(u, v);
        CalmOnward(u, v);
        TameTrans(s, u, v);
        OnwardTrans(s, u, v);
        CalmOnlyNew(s, u, v, index);
        if rank == 0 {
          CalmTrans(s, u, v);
        }
      }
    }

    /** With too many buffers piled up, drop one that is uploaded. */
    method MakeRoom(ghost index: nat, ghost rank: nat)
      requires Inv(View()) && index !in values && MayFetch(View(), index, rank)
      modifies this
      ensures Inv(View()) && Calm(old(View()), View()) && OnlyNew(old(View()), View(), index)
      ensures index !in values && MayFetch(View(), index, rank)
      ensures |old(cooked)| + |old(cooking)| < prefetch ==> View() == old(View())
    {
      hide Base, Quiet, CleanHandle, Calm, Shuffled, OnlyNew, Stale, MayFetch;
      ghost var s := View();
      if |cooked| + |cooking| >= prefetch {
        WaitAndFreeUploadedBlocks(1);
      } else {
        WaitedRefl(s);
        WaitedShuffled(s, s);
      }
      ShuffledNeeds(s, View(), index);
      CalmMayFetch(s, View(), index, rank);
      CalmInv(s, View());
    }

    /** The bytes of a block that is not cached; fails when no buffer is to be had,
        when the commit fails or when the read fails. */
    method FetchBytes(index: nat, ghost rank: nat) returns (ok: bool, data: bytes)
      requires Inv(View()) && index !in values && MayFetch(View(), index, rank)
      modifies this
      ensures Inv(View()) && Tame(old(View()), View())
      ensures rank == 0 ==> Calm(old(View()), View())
      ensures OnlyNew(old(View()), View(), index)
      ensures ok ==> index !in values && data == StoredBlk(View(), index) && Onward(old(View()), View())
      ensures !NeedsCommit(old(View()), index) ==> View() == old(View())
      decreases rank, 0
    {
      hide Base, Quiet, CleanHandle, Inv, Calm, Tame, OnlyNew, Stale, Persisted, Onward, Fetchable, CommitSafe, SafeOrder, StoredBlk, Content, Fetch, CachesStale;
      ghost var s := View();
      CalmRefl(s);
      CalmTame(s, s);
      CalmOnward(s, s);
      OnlyNewRefl(s, index);
      InvBase(s);
      UncachedBytes(s, index);
      data := Zeros(bs);
      ok := *;
      if !ok {
        return;
      }
      if index * bs < length {
        var shouldCommit := index in blockList && !blockList[index].committed;
        var shouldDownload := index in blockList && blockList[index].committed;
        if shouldCommit {
          NeedsCommitDirty(s, index);
          OrderIsSafe(s);
          ok := CommitBlocks(rank - 1);
          OnlyNewCommit(s, View(), index);
          if !ok {
            return;
          }
          PersistedOnward(s, View());
          CommittedUncached(s, View(), index);
          TameShape(s, View());
          PersistedEntry(View(), index);
        }
        if shouldDownload || shouldCommit {
          ok := *;
          InvBase(View());
          UncachedBytes(View(), index);
          data := Fetch(Content(store), index * bs, Min(bs, length - index * bs), Zeros(bs));
        }
      }
    }

    /** Link a buffer holding `data` for `index`; with enough blocks in Cooking,
        schedule the first modified one. */
    method LinkBlock(index: nat, data: bytes) returns (p: Ptr)
      requires Inv(View()) && index < MAX_BLOCKS && index !in values && data == StoredBlk(View(), index)
      modifies this
      ensures Inv(View()) && Calm(old(View()), View()) && OnlyNew(old(View()), View(), index)
      ensures Ready(View(), p, index)
      ensures values == old(values)[index := p] && |cooked| + |cooking| == |old(cooked)| + |old(cooking)| + 1
    {
      hide Base, Quiet, CleanHandle, Calm, Shuffled, Ready;
      ghost var s := View();
      FreshPtr(mem);
      p :| p !in mem;
      LinkReady(s, index, p, data);
      cooking := cooking + [p];
      values := values[index := p];
      mem := mem[p := Block(index, index * bs, Closed, false, false, false, false, false, data)];
      ghost var t := View();
      assert t == LinkNew(s, index, p, data);
      ReadyQuiet(t, p, index);
      if |cooking| > MIN_WRITE_BLOCK {
        StageBlocks(1);
        ShuffledReady(t, View(), p, index);
        ShuffledOnlyNew(t, View(), index);
        ReadyQuiet(View(), p, index);
        CalmTrans(s, t, View());
      }
      CalmInv(s, View());
    }

    // ---------- Commit ----------

    /** Upload everything modified, commit the id list, and restage blocks that
        needed a filler. It calls itself at most once: with no outgrown entry
        left there is nothing to restage. */
    method CommitBlocks(ghost rank: nat) returns (ok: bool)
      requires Inv(View()) && handleDirty && CommitSafe(View())
      requires rank == 0 ==> forall k: nat :: !Stale(View(), k)
      modifies this
      ensures Inv(View()) && Tame(old(View()), View())
      ensures forall j | j in values :: j in old(values) || Stale(old(View()), j)
      ensures ok ==> !handleDirty && Persisted(View())
      ensures !ok ==> handleDirty
      ensures ok ==> CachesStale(old(View()), View(), prefetch)
      decreases rank, 5
    {
      hide Base, Quiet, CleanHandle, Inv, Calm, Tame, Shuffled, Settled, Stale, Persisted, ListResult, CanCommit, KeepsEntries, CachesStale, NothingDirty, KeysOf, FillerKeys, RestageReady, ListResultFacts, NeedsCommit, AllCommitted, CommitSafe, SafeOrder;
      ghost var s := View();
      InvBase(s);
      ok := StageAll();
      ghost var t := View();
      ShuffledOnlyNew(s, t, 0);
      CalmInv(s, t);
      CalmTame(s, t);
      CalmShape(s, t);
      CalmSafe(s, t);
      if !ok {
        return;
      }
      var ids, restage;
      ghost var n, fillers, x;
      ok, ids, restage, n, fillers, x := GetBlockIDList();
      ghost var u := View();
      TameTrans(s, t, u);
      TameSafe(t, u);
      TameShape(t, u);
      SettledBase(u);
      DirtyInv(t, u);
      if !ok {
        return;
      }
      ListFacts(u, ids, restage, n, fillers, x);
      if rank == 0 {
        NoStaleTame(s, u);
      }
      ok := SendList(ids, restage, n, fillers, x, rank);
      TameTrans(s, u, View());
      NewlyCached(s, u, View());
      if ok {
        CachesStaleBefore(s, t, u, View(), restage, n, fillers, prefetch);
      }
    }

    /** Send the list; when it holds fillers, restage the blocks in front of them
        and commit once more. */
    method SendList(ids: seq<Id>, restage: seq<Id>, ghost n: nat, ghost fillers: map<nat, Id>, ghost x: nat, ghost rank: nat)
      returns (ok: bool)
      requires Inv(View()) && handleDirty && CommitSafe(View()) && ListResult(View(), ids, restage, n, fillers, x)
      requires rank == 0 ==> forall k: nat :: !Stale(View(), k)
      modifies this
      ensures Inv(View()) && Tame(old(View()), View())
      ensures forall j | j in values :: j in old(values) || Stale(old(View()), j)
      ensures ok ==> !handleDirty && Persisted(View())
      ensures !ok ==> handleDirty
      ensures ok ==> CachesStale(old(View()), View(), prefetch)
      decreases rank, 4
    {
      hide Base, Quiet, CleanHandle, Inv, Tame, Settled, Stale, Persisted, ListResult, CanCommit, CachesStale, NothingDirty, KeysOf, FillerKeys, RestageReady, ListResultFacts, AllCommitted, CommitSafe, SafeOrder, Committed, Known;
      ghost var u := View();
      TameRefl(u);
      ok := *;
      if !ok {
        return;
      }
      InvBase(u);
      ListFacts(u, ids, restage, n, fillers, x);
      ListResultCommits(u, ids, restage, n, fillers, x);
      CommitData(ids);
      ghost var v := View();
      CommitKeepsPlaces(u, ids);
      DirtyInv(u, v);
      if restage != [] {
        RestageHappened(u, u, restage, n, fillers);
        ok := CommitAgain(u, ids, restage, n, fillers, rank);
      } else {
        NothingToRestage(u, ids, restage, n, fillers, x);
        handleDirty := false;
        PersistedInv(v, View());
        TameTrans(u, v, View());
        NoneIsCached(u, View(), restage, n, fillers, prefetch);
      }
    }

    /** Storage takes the list, and every entry counts as committed. */
    method CommitData(ids: seq<Id>)
      requires Known(store, ids)
      modifies this`store, this`blockList
      ensures View() == Committed(old(View()), ids)
    {
      store := Commit(store, ids);
      blockList := map k | k in blockList :: blockList[k].(committed := true);
    }

    /** Restage the short blocks and commit a second time. */
    method CommitAgain(ghost u: State, ids: seq<Id>, restage: seq<Id>, ghost n: nat, ghost fillers: map<nat, Id>, ghost rank: nat)
      returns (ok: bool)
      requires Inv(View()) && handleDirty && RestageReady(View(), ids, restage, n, fillers) && restage != [] && rank > 0
      requires Tame(u, View()) && values == u.values && ListResultFacts(u, restage, n, fillers)
      modifies this
      ensures Inv(View()) && Tame(u, View())
      ensures forall j | j in values :: j in u.values || Stale(u, j)
      ensures ok ==> !handleDirty && Persisted(View()) && CachesStale(u, View(), prefetch)
      ensures !ok ==> handleDirty
      decreases rank, 3
    {
      hide Base, Quiet, CleanHandle, Inv, Tame, Settled, Stale, Persisted, CachesStale, KeysOf, FillerKeys, RestageReady, ListResultFacts, CommitSafe, SafeOrder, Gathered;
      ghost var v := View();
      InvBase(v);
      ok := RestageBlocks(ids, restage, n, fillers);
      ghost var w := View();
      TameTrans(u, v, w);
      NewlyCached(u, v, w);
      if ok {
        NoStaleSafe(w);
        ok := CommitBlocks(0);
        TameTrans(u, w, View());
        NewlyCached(u, w, View());
        if ok {
          StaleIsCached(u, v, w, View(), restage, n, fillers, prefetch);
        }
      }
    }

    /** Read back each short block, which now brings its filler along, and mark it
        modified; cut the filler's id out of the list so that positions and block
        indices agree again up to the next one. */
    method RestageBlocks(ids: seq<Id>, restage: seq<Id>, ghost n: nat, ghost fillers: map<nat, Id>) returns (ok: bool)
      requires Inv(View()) && handleDirty && RestageReady(View(), ids, restage, n, fillers)
      modifies this
      ensures Inv(View()) && Tame(old(View()), View()) && handleDirty
      ensures forall j | j in values :: j in old(values) || Stale(old(View()), j)
      ensures ok ==> forall k: nat :: !Stale(View(), k)
      ensures |restage| == |FillerKeys(fillers, n)|
      ensures ok ==> Gathered(old(View()), View(), FillerKeys(fillers, n), |restage|, prefetch)
      decreases 0, 3
    {
      hide Base, Quiet, CleanHandle, Inv, Calm, Tame, Stale, Restaging, Ready, RestageReady, RestageIds, AllCommitted, KeysOf, SharedIds, Interleave, FillerKeys, EntryIds, Remaining, Gathered, Got, NeedsCommit;
      ghost var v := View();
      ghost var keys := FillerKeys(fillers, n);
      var list, r := ids, 0;
      InvBase(v);
      RestageBegin(v, ids, restage, n, fillers);
      GatheredStart(v, keys, prefetch);
      while r < |restage|
        invariant 0 <= r <= |restage| == |keys|
        invariant Restaging(v, View(), Remaining(fillers, keys, r))
        invariant list == Interleave(EntryIds(v.blockList, n), Remaining(fillers, keys, r), n)
        invariant forall j | j in values :: j in v.values || Stale(v, j)
        invariant Gathered(v, View(), keys, r, prefetch)
      {
        ghost var w, f, x := View(), Remaining(fillers, keys, r), keys[r];
        RestageNext(v, w, restage, n, fillers, r);
        var i := FirstIndex(list, restage[r]);
        RestagePosition(v.blockList, bs, n, f, x, i);
        DivMod(i, 0, bs);
        CommittedMayFetch(w, x);
        var p;
        ok, p := GetOrCreateBlock(i * bs, 0);
        RestageFetched(v, w, View(), f, x);
        if !ok {
          return;
        }
        RestagingStep(v, w, View(), f, x, p);
        ReadyFacts(View(), p, x);
        GatheredStep(v, w, View(), keys, r, prefetch, p);
        mem := mem[p := mem[p].(dirty := true)];
        RemainingStep(fillers, keys, n, r);
        list := list[..i + 1] + list[i + 2..];
        r := r + 1;
      }
      RestageEnd(v, View(), fillers, n);
      ok := true;
    }

    // ---------- File operations ----------

    /** Copy `data` block by block. `n` bytes are written, all of them unless a
        block could not be had; the file is the old one with those spliced in, and
        with the first block of a small blob brought back if it was touched. */
    method WriteFile(offset: nat, data: bytes) returns (n: nat, ok: bool, ghost took: bool)
      requires Inv(View()) && bs > 0 && AheadOk() && MayWrite(View(), offset, offset + |data|, prefetch)
      modifies this, ahead
      ensures n <= |data| && (ok <==> n == |data|)
      ensures Inv(View()) && AheadOk() && Picture() == Edited(Back(old(Picture()), bs, ahead.data, took), bs, offset, data[..n])
      ensures took <==> n > 0 && offset < bs && old(ahead.pending && Stands(View()))
      ensures n > 0 && offset < bs ==> !ahead.pending
      ensures (ahead.pending ==> old(ahead.pending)) && (ok && data != [] ==> handleDirty)
      ensures old(size == length && !ahead.pending) ==> size == length && File(View()) == Splice(old(File(View())), offset, data[..n])
    {
      hide Inv, MayWrite, Splice, Edited, Stands, File, Back, Accounted;
      ghost var i, end := Picture(), offset + |data|;
      n, ok, took := 0, true, false;
      BackNone(i, bs, ahead.data, offset);
      assert data[..0] == [];
      FileLength(View());
      while n < |data|
        invariant 0 <= n <= |data|
        invariant Inv(View()) && AheadOk() && Picture() == Edited(Back(i, bs, ahead.data, took), bs, offset, data[..n])
        invariant took <==> n > 0 && offset < bs && old(ahead.pending && Stands(View()))
        invariant n > 0 && offset < bs ==> !ahead.pending
        invariant ahead.pending ==> old(ahead.pending)
        invariant n == 0 ==> View() == old(View()) && ahead.pending == old(ahead.pending)
        invariant 0 < n < |data| ==> bs <= offset + n
        invariant n == |data| > 0 ==> handleDirty
        invariant MayWrite(View(), offset + n, end, prefetch)
      {
        var written;
        ghost var now, before := false, Picture();
        ok, written, now := WriteBlock(offset + n, data[n..]);
        GoesOn(i, before, Picture(), bs, ahead.data, offset, data, n, written, took, now);
        n, took := n + written, took || now;
        if !ok {
          break;
        }
      }
      FileLength(View());
      if !took && i.length == |i.file| {
        WholeAsBefore(i, bs, ahead.data, offset, data[..n]);
      }
    }

    /** Get the block at `offset` and copy into it what fits; nothing is written
        when the block cannot be had. */
    method WriteBlock(offset: nat, data: bytes) returns (ok: bool, written: nat, ghost took: bool)
      requires Inv(View()) && bs > 0 && data != [] && AheadOk() && MayWrite(View(), offset, offset + |data|, prefetch)
      modifies this, ahead
      ensures written <= |data| && (ok <==> written > 0)
      ensures Inv(View()) && AheadOk() && Picture() == Edited(Back(old(Picture()), bs, ahead.data, took), bs, offset, data[..written])
      ensures took <==> ok && offset < bs && old(ahead.pending && Stands(View()))
      ensures ok && offset < bs ==> !ahead.pending
      ensures ahead.pending ==> old(ahead.pending)
      ensures ok ==> MayWrite(View(), offset + written, offset + |data|, prefetch)
      ensures ok ==> handleDirty && (written == |data| || bs <= offset + written)
    {
      hide Base, Quiet, CleanHandle, Inv, MayWrite, Ready, CanWrite, Edited, Stands, MayFetch, Splice, File;
      ghost var t, i := View(), Picture();
      ok, written, took := false, 0, false;
      EditedNothing(i, bs, offset);
      FirstBlockOf(offset, bs);
      ghost var k := offset / bs;
      var front := offset < bs && ahead.pending && Stands(View());
      if front {
        var arrived: bool := *;
        if !arrived {
          DropAhead();
          return;
        }
      }
      var p;
      ok, p := GetForWrite(offset, offset + |data|);
      if !ok {
        return;
      }
      if front {
        BringBack(p, offset, offset + |data|);
        took := true;
      } else if offset < bs {
        ahead.pending := false;
      }
      written := CopyAndGoOn(p, k, offset, data);
    }

    /** The read-ahead has failed: its buffer is dropped and the write fails. */
    method DropAhead()
      requires Inv(View()) && Stands(View())
      modifies this, ahead
      ensures Inv(View()) && Picture() == old(Picture()) && length == old(length) && !ahead.pending
    {
      hide Base, Quiet, CleanHandle, Inv, Calm, Stands, File;
      ghost var s := View();
      InvBase(s);
      StandsFacts(s);
      StandsParts(s);
      ahead.pending := false;
      DropFailed(0, values[0]);
      CalmInv(s, View());
      CalmTame(s, View());
      TameFile(s, View());
      CalmShape(s, View());
    }

    /** The block for a write at `offset` that goes on up to `end`. */
    method GetForWrite(offset: nat, ghost end: nat) returns (ok: bool, p: Ptr)
      requires Inv(View()) && bs > 0 && offset < end && MayWrite(View(), offset, end, prefetch)
      modifies this
      ensures Inv(View()) && Picture() == old(Picture()) && length == old(length)
      ensures ok ==> Ready(View(), p, offset / bs) && MayWrite(View(), offset, end, prefetch)
    {
      hide Base, Quiet, CleanHandle, Inv, Tame, MayWrite, Ready, Blk, Onward, MayFetch, MayFetchAt, File;
      ghost var t := View();
      FirstBlock(t, offset, end, prefetch);
      MayFetchFrom(t, offset / bs);
      ok, p := GetOrCreateBlock(offset, 2);
      ghost var u := View();
      TameFile(t, u);
      TameShape(t, u);
      if ok {
        ReadyFacts(u, p, offset / bs);
        MayWriteOnward(t, u, offset, end, prefetch);
      }
    }

    /** What was read ahead takes its place in the block that is being written. */
    method BringBack(p: Ptr, ghost offset: nat, ghost end: nat)
      requires Inv(View()) && bs > 0 && AheadOk() && ahead.data != []
      requires offset < bs && Ready(View(), p, 0) && MayWrite(View(), offset, end, prefetch)
      modifies this, ahead
      ensures Inv(View()) && Picture() == Edited(old(Picture()), bs, 0, ahead.data) && length == old(length)
      ensures Ready(View(), p, 0) && MayWrite(View(), offset, end, prefetch) && !ahead.pending
    {
      hide Base, Quiet, CleanHandle, Inv, MayWrite, Ready, CanWrite, Blk, File, Edited, WriteData, Overwrite;
      ghost var u := View();
      var written;
      ghost var start;
      written, start := CopyIn(p, 0, 0, ahead.data);
      assert ahead.data[..written] == ahead.data;
      InvBase(u);
      FrontWritten(u, View(), p, ahead.data, offset, end, prefetch);
      ahead.pending := false;
    }

    /** Copy what fits into the block; the rest of the range may still be written. */
    method CopyAndGoOn(p: Ptr, ghost k: nat, offset: nat, data: bytes) returns (written: nat)
      requires Inv(View()) && bs > 0 && Ready(View(), p, k) && k * bs <= offset < k * bs + bs && data != []
      requires MayWrite(View(), offset, offset + |data|, prefetch)
      modifies this
      ensures 0 < written <= |data| && (written == |data| || bs <= offset + written) && handleDirty
      ensures Inv(View()) && Picture() == Edited(old(Picture()), bs, offset, data[..written]) && length >= old(length)
      ensures MayWrite(View(), offset + written, offset + |data|, prefetch)
    {
      hide Base, Quiet, CleanHandle, Inv, MayWrite, Ready, CanWrite, Blk, File;
      ghost var u := View();
      ghost var start;
      written, start := CopyIn(p, k, offset, data);
      CopiedRest(u, View(), offset, offset + |data|, p, k, start, data, written, prefetch);
    }

    /** Copy as much of `data` as fits into the block at `offset`. */
    method CopyIn(p: Ptr, ghost k: nat, offset: nat, data: bytes) returns (written: nat, ghost start: nat)
      requires Inv(View()) && bs > 0 && Ready(View(), p, k) && k * bs <= offset < k * bs + bs && data != []
      modifies this
      ensures 0 < written <= |data| && (written == |data| || start + written == bs)
      ensures CanWrite(old(View()), p, start, data[..written]) && offset == k * bs + start
      ensures View() == WriteData(old(View()), p, start, data[..written])
      ensures Inv(View()) && Picture() == Edited(old(Picture()), bs, offset, data[..written]) && length >= old(length)
    {
      hide Base, Quiet, CleanHandle, Inv, Ready, CanWrite, Blk, File, Edited;
      ghost var u := View();
      InvBase(u);
      ReadyFacts(u, p, k);
      ReadyOffset(u, p, k);
      start := offset - mem[p].offset;
      var from := offset - mem[p].offset;
      written := Min(bs - from, |data|);
      var chunk := data[..written];
      ReadyCanWrite(u, p, k, start, chunk);
      WrittenInv(u, p, k, start, chunk);
      WrittenPicture(u, p, k, start, chunk);
      PutBytes(p, from, chunk);
    }

    /** Copy into the buffer and note the new end of the file. */
    method PutBytes(p: Ptr, from: nat, chunk: bytes)
      requires p in mem && from + |chunk| <= |mem[p].data| && mem[p].offset == mem[p].id * bs
      modifies this`mem, this`handleDirty, this`length, this`size
      ensures View() == WriteData(old(View()), p, from, chunk)
    {
      hide Overwrite;
      mem := mem[p := mem[p].(data := Overwrite(mem[p].data, from, chunk), dirty := true)];
      handleDirty := true;
      var whole, end := size == length, mem[p].offset + from + |chunk|;
      if length < end {
        length := end;
      }
      if whole {
        size := length;
      } else if size < Min(length, mem[p].offset + bs) {
        size := Min(length, mem[p].offset + bs);
      }
    }

    /** Flush persists everything; with lazy writes only the close does. */
    method FlushFile(lazyWrite: bool, closeInProgress: bool) returns (ok: bool)
      requires Inv(View()) && (handleDirty && (!lazyWrite || closeInProgress) ==> CommitSafe(View()))
      modifies this
      ensures Inv(View()) && File(View()) == old(File(View()))
      ensures length == old(length)
      ensures ok && (!lazyWrite || closeInProgress) ==>
                !handleDirty && (Content(store) == File(View()) || Untouched(old(View())))
      ensures Untouched(old(View())) ==> View() == old(View())
      ensures ok && (!lazyWrite || closeInProgress) && old(handleDirty) ==> Persisted(View())
    {
      ghost var s := View();
      ok := true;
      if lazyWrite && !closeInProgress {
        return;
      }
      if handleDirty {
        ok := CommitBlocks(1);
        TameFile(s, View());
        TameShape(s, View());
      }
    }

    // ---------- Opening and closing ----------

    /** A handle for a file just created: empty, with an empty blob behind it. */
    constructor Create(bs: nat, recorded: bool, prefetch: nat)
      requires bs > 0
      ensures Inv(View()) && File(View()) == [] && !handleDirty && this.bs == bs && this.recorded == recorded
      ensures AheadOk() && fresh(ahead) && !ahead.pending && size == length
    {
      this.bs, this.recorded, this.prefetch := bs, recorded, prefetch;
      length, size, handleDirty, cooked, cooking, values, blockList := 0, 0, false, [], [], map[], map[];
      mem, uploads, downloads, store := map[], map[], {}, Store([], [], map[], 0);
      ahead := new ReadAhead([]);
      new;
      assert ListMap([]) == map[];
      assert View() == OpenState(store, bs, recorded);
      OpenInv(store, bs, recorded);
    }

    /** A handle for an existing blob whose list was found valid. */
    constructor Open(st: Store, bs: nat, recorded: bool, prefetch: nat)
      requires StoredBlob(st) && ValidList(st.committed, bs) && bs > 0
      requires st.committed == [] ==> st.flat == []
      ensures Inv(View()) && File(View()) == Content(st) && !handleDirty && this.bs == bs && this.recorded == recorded
      ensures View() == OpenState(st, bs, recorded)
      ensures AheadOk() && fresh(ahead) && !ahead.pending && size == length
    {
      this.bs, this.recorded, this.prefetch := bs, recorded, prefetch;
      length, size, handleDirty, cooked, cooking, values := |Content(st)|, |Content(st)|, false, [], [], map[];
      blockList := ListMap(st.committed);
      mem, uploads, downloads, store := map[], map[], {}, st;
      ahead := new ReadAhead([]);
      new;
      assert View() == OpenState(st, bs, recorded);
      OpenInv(st, bs, recorded);
    }

    /** Opening with truncation. */
    constructor OpenTruncated(st: Store, bs: nat, recorded: bool, prefetch: nat)
      requires IdsBelow(st) && bs > 0
      ensures Inv(View()) && File(View()) == [] && handleDirty && store == st && this.bs == bs && this.recorded == recorded
      ensures AheadOk() && fresh(ahead) && !ahead.pending && size == length
    {
      this.bs, this.recorded, this.prefetch := bs, recorded, prefetch;
      length, size, handleDirty, cooked, cooking, values, blockList := 0, 0, true, [], [], map[], map[];
      mem, uploads, downloads, store := map[], map[], {}, st;
      ahead := new ReadAhead([]);
      new;
      TruncatedInv(View());
    }

    /** Opening write-only without truncation: nobody asks for the block list. A blob
        smaller than a block is read ahead. */
    constructor OpenWriteOnly(st: Store, bs: nat, recorded: bool, prefetch: nat)
      requires IdsBelow(st) && bs > 0
      ensures Inv(View()) && AheadOk() && Picture() == Unread(Content(st)) && store == st && !handleDirty
      ensures this.bs == bs && this.recorded == recorded && fresh(ahead)
      ensures if 0 < |Content(st)| < bs then ahead.data == Content(st) && ahead.pending && Stands(View()) else !ahead.pending
      ensures forall from: nat, end: nat, room: nat :: MayWrite(View(), from, end, room)
    {
      var content := Content(st);
      var small := 0 < |content| < bs;
      this.bs, this.recorded, this.prefetch := bs, recorded, prefetch;
      length, size, handleDirty, cooked, blockList := |content|, 0, false, [], map[];
      cooking, values := if small then [0] else [], if small then map[0 := 0] else map[];
      mem := if small then map[0 := StandIn(bs)] else map[];
      uploads, downloads, store := map[], {}, st;
      ahead := new ReadAhead(if small then content else []);
      new;
      assert View() == WriteOnlyState(st, bs, recorded);
      WriteOnlyInv(st, bs, recorded);
    }

    /** Accept a stored block list for writing and build the index map from it. */
    static method ValidateBlockList(l: seq<Stored>, bs: nat) returns (valid: bool, m: map<nat, BlockInfo>)
      ensures valid <==> ValidList(l, bs)
      ensures valid ==> m == ListMap(l)
    {
      m := map[];
      var idx := 0;
      while idx < |l|
        invariant 0 <= idx <= |l|
        invariant forall k | 0 <= k < idx :: if k < |l| - 1 then |l[k].data| == bs else |l[k].data| <= bs
        invariant m == map k: nat | k < idx :: BlockInfo(l[k].id, true, |l[k].data|)
      {
        var length := |l[idx].data|;
        if (idx < |l| - 1 && length != bs) || (idx == |l| - 1 && length > bs) {
          return false, m;
        }
        m := m[idx := BlockInfo(l[idx].id, true, length)];
        idx := idx + 1;
      }
      valid := true;
    }

    /** Open for reading and writing: refused unless the stored blocks have the
        configured size; a file smaller than a block starts downloading at once. */
    static method OpenFile(st: Store, bs: nat, recorded: bool, prefetch: nat) returns (h: Handle?)
      requires StoredBlob(st) && bs > 0
      ensures h != null <==> ValidList(st.committed, bs) && (st.committed == [] ==> st.flat == [])
      ensures h != null ==> fresh(h) && Inv(h.View()) && File(h.View()) == Content(st)
      ensures h != null ==> h.blockList == ListMap(st.committed) && h.store == st && !h.handleDirty && h.bs == bs && h.recorded == recorded
      ensures h != null ==> h.AheadOk() && fresh(h.ahead) && !h.ahead.pending && h.size == h.length
    {
      var valid, m := ValidateBlockList(st.committed, bs);
      if !valid || (st.committed == [] && st.flat != []) {
        return null;
      }
      h := new Handle.Open(st, bs, recorded, prefetch);
      if 0 < h.size < bs {
        h.PrefetchFirst();
      }
    }

    /** Start downloading block 0 of a file that fits into it. */
    method PrefetchFirst()
      requires StoredBlob(store) && ValidList(store.committed, bs) && (store.committed == [] ==> store.flat == [])
      requires Inv(View()) && View() == OpenState(store, bs, recorded) && size > 0
      modifies this`cooking, this`values, this`downloads, this`mem
      ensures Inv(View()) && File(View()) == old(File(View()))
    {
      ghost var s := View();
      var p := 0;
      PrefetchedInv(s, p);
      cooking, values, downloads := [p], map[0 := p], {p};
      mem := mem[p := Block(0, 0, Empty, true, false, false, false, false, Zeros(bs))];
      assert View() == Prefetched(s, p);
    }

    /** Close: persist, then wait for what is still being read and give every
        buffer back. No buffer goes back while a transfer of it is pending. */
    method ReleaseFile() returns (ok: bool)
      requires Inv(View()) && (handleDirty ==> CommitSafe(View()))
      modifies this
      ensures ok ==> Content(store) == old(File(View())) || Untouched(old(View()))
      ensures ok ==> cooked == [] && cooking == [] && values == map[] && uploads == map[] && downloads == {}
      ensures !ok ==> Inv(View()) && File(View()) == old(File(View()))
    {
      hide Quiet, CleanHandle, Persisted, Calm, Waited, Blk, Forget;
      ghost var s := View();
      ok := FlushFile(false, true);
      if !ok {
        return;
      }
      FlushedSettled(View());
      ghost var t := View();
      CalmRefl(t);
      while cooking != []
        invariant Settled(View()) && Calm(t, View())
        decreases |cooked| + |cooking|
      {
        ReleaseBlock(t, cooking[0]);
      }
      while cooked != []
        invariant Settled(View()) && Calm(t, View()) && cooking == []
        decreases |cooked| + |cooking|
      {
        ReleaseBlock(t, cooked[0]);
      }
      NothingLinked(t, View());
      blockList := map[];
    }

    /** Wait for one block and give its buffer back. */
    method ReleaseBlock(ghost t: State, p: Ptr)
      requires Settled(View()) && Calm(t, View()) && Linked(View(), p)
      modifies this
      ensures Settled(View()) && Calm(t, View())
      ensures |cooked| + |cooking| < |old(cooked)| + |old(cooking)|
      ensures |cooking| <= |old(cooking)| && |cooked| <= |old(cooked)|
    {
      hide Base, Calm, Waited, Blk;
      ghost var s := View();
      Await(p);
      ghost var u := View();
      WaitedSettled(t, s, u);
      SettledForget(t, u, p);
      values := values - {mem[p].id};
      cooked, cooking := Remove(cooked, p), Remove(cooking, p);
      mem := mem - {p};
      assert View() == Forget(u, p);
    }

    // ---------- Runs ----------

    /** Any sequence of writes and flushes, with workers running in between. What
        fails its check is not issued. On a handle that accounts for its whole file
        the picture is the replayed file; `front` says whether what was read ahead
        has been brought back. */
    method Session(ops: seq<Op>) returns (out: seq<Outcome>, ghost front: bool)
      requires Inv(View()) && bs > 0 && AheadOk()
      modifies this, ahead
      ensures |out| == |ops| && Inv(View()) && AheadOk()
      ensures Picture() == Develop(Back(old(Picture()), bs, ahead.data, front), bs, ops, out)
      ensures (front ==> old(ahead.pending)) && (ahead.pending ==> !front && Behind(bs, ops, out))
      ensures ops != [] && ops[|ops| - 1] == Flush(false, false) && out[|ops| - 1] == Flushed(true) ==>
                Content(store) == File(View()) || Untouched(View())
      ensures recorded ==> forall i | 0 <= i < |ops| && ops[i].Flush? :: out[i] != Refused
      ensures old(size == length && !ahead.pending) ==> size == length && File(View()) == Replay(old(File(View())), ops, out)
    {
      hide Inv, File, Develop, Untouched, Behind, Edited, Written;
      ghost var i := Picture();
      out, front := [], false;
      DevelopNone(i, bs);
      BehindNone(bs);
      FileLength(View());
      ghost var was := ahead.pending;
      while |out| < |ops|
        invariant |out| <= |ops| && Inv(View()) && AheadOk()
        invariant Picture() == Develop(Back(i, bs, ahead.data, front), bs, ops[..|out|], out)
        invariant (front ==> was) && (ahead.pending ==> was && !front && Behind(bs, ops[..|out|], out))
        invariant out != [] && ops[|out| - 1] == Flush(false, false) && out[|out| - 1] == Flushed(true) ==>
                    Content(store) == File(View()) || Untouched(View())
        invariant recorded ==> forall i | 0 <= i < |out| && ops[i].Flush? :: out[i] != Refused
      {
        WorkersIdle();
        ghost var now, pending := false, ahead.pending;
        var result;
        result, now := Step(ops[|out|]);
        assert ops[..|out| + 1] == ops[..|out|] + [ops[|out|]];
        DevelopBack(i, bs, ahead.data, ops[..|out|], out, front, ops[|out|], result, now);
        if ahead.pending {
          BehindNext(bs, ops[..|out|], out, ops[|out|], result);
        }
        front, out := front || now, out + [result];
      }
      assert ops[..|ops|] == ops;
      FileLength(View());
      if i.length == |i.file| {
        DevelopWhole(i, bs, ops, out);
      }
    }

    method WorkersIdle()
      requires Inv(View())
      modifies this
      ensures Inv(View()) && Picture() == old(Picture()) && length == old(length)
    {
      hide Base, Quiet, CleanHandle, Calm, Waited;
      ghost var s := View();
      Workers();
      WaitedFile(s, View());
      WaitedLength(s, View());
    }

    /** One operation. A write is refused if and only if it may have to fetch a block
        that it must not fetch; a flush if and only if it would restage from the wrong
        place, which cannot be where uploads stage what was recorded. */
    method Step(op: Op) returns (result: Outcome, ghost took: bool)
      requires Inv(View()) && bs > 0 && AheadOk()
      modifies this, ahead
      ensures Inv(View()) && AheadOk()
      ensures Picture() == Edited(Back(old(Picture()), bs, ahead.data, took), bs, Place(op), Written([op], [result], 0))
      ensures (took ==> old(ahead.pending) && !ahead.pending) && (ahead.pending ==> old(ahead.pending))
      ensures Written([op], [result], 0) != [] && Place(op) < bs ==> !ahead.pending
      ensures op == Flush(false, false) && result == Flushed(true) ==> Content(store) == File(View()) || Untouched(View())
      ensures op.Write? ==> (result == Refused <==> !MayWrite(old(View()), op.offset, op.offset + |op.data|, prefetch))
      ensures op.Flush? ==> (result == Refused <==> !CommitSafe(old(View())))
      ensures op.Flush? && recorded ==> result != Refused
    {
      hide Base, Quiet, CleanHandle, MayWriteAt, MayWrite, Persisted, CommitSafe, FetchAllowed, Edited, File, Untouched;
      took := false;
      ghost var i := Picture();
      EditedNothing(i, bs, Place(op));
      match op
      case Write(offset, data) =>
        WriteAllowedExact(View(), offset, offset + |data|, prefetch);
        if WriteAllowed(View(), offset, offset + |data|, prefetch) {
          var n, ok;
          n, ok, took := WriteFile(offset, data);
          result := Outcome.Wrote(n);
        } else {
          result := Refused;
        }
      case Flush(lazyWrite, closing) =>
        CommitAllowedExact(View());
        RecordedFlush(View());
        if CommitAllowed(View()) {
          var ok := FlushFile(lazyWrite, closing);
          result := Flushed(ok);
        } else {
          result := Refused;
        }
    }

    /** Open write-only, write once and flush. If both succeed the blob is what one
        write makes of the unread content, and that is the spliced content exactly
        if block 0 of a small blob was written into, or no stored byte outside the
        write matters and the write reaches the last block. */
    static method WriteOnce(st: Store, bs: nat, recorded: bool, prefetch: nat, offset: nat, data: bytes)
      returns (h: Handle, written: bool, flushed: bool)
      requires IdsBelow(st) && bs > 0 && data != []
      ensures fresh(h)
      ensures written && flushed ==>
                (Content(h.store) == Splice(Content(st), offset, data) <==>
                 || (0 < |Content(st)| < bs && offset < bs)
                 || (&& (forall p | 0 <= p < |Content(st)| && !(offset <= p < offset + |data|) :: Content(st)[p] == 0)
                     && |Content(st)| <= BlockEnd(offset + |data|, bs)))
    {
      hide Edited, Inv, File, MayWrite, Stands, CommitSafe;
      h := new Handle.OpenWriteOnly(st, bs, recorded, prefetch);
      ghost var took;
      var n;
      n, written, took := h.WriteFile(offset, data);
      flushed := false;
      if written {
        assert data[..n] == data;
        CommitAllowedExact(h.View());
        if CommitAllowed(h.View()) {
          flushed := h.FlushFile(false, false);
        }
        FrontIsTouched(Content(st), bs, offset);
        WriteOnlyIff(Content(st), bs, offset, data);
      }
    }

    /** Open write-only, run and flush at the end. The blob is then the replayed
        content if and only if what was read ahead came back, or every stored byte
        that was not overwritten is zero and some write reached the last block. */
    static method WriteOnlyRun(st: Store, bs: nat, recorded: bool, prefetch: nat, ops: seq<Op>)
      returns (h: Handle, out: seq<Outcome>, ghost front: bool)
      requires IdsBelow(st) && bs > 0 && ops != [] && ops[|ops| - 1] == Flush(false, false)
      ensures fresh(h) && |out| == |ops|
      ensures (front ==> 0 < |Content(st)| < bs) && (h.ahead.pending ==> !front && Behind(bs, ops, out))
      ensures out[|ops| - 1] == Flushed(true) && SomeWritten(ops, out) ==>
                (Content(h.store) == Replay(Content(st), ops, out) <==>
                 || front
                 || (&& (forall p | 0 <= p < |Content(st)| :: Content(st)[p] == 0 || Overwritten(ops, out, p))
                     && Reached(ops, out, bs, |Content(st)|)))
    {
      hide Inv, File, MayWrite, Stands, Untouched, Develop, Behind, Edited, SomeWritten, Overwritten, Reached;
      ghost var content := Content(st);
      h := new Handle.OpenWriteOnly(st, bs, recorded, prefetch);
      out, front := h.Session(ops);
      if SomeWritten(ops, out) {
        ghost var i := Develop(Back(Unread(content), bs, h.ahead.data, front), bs, ops, out);
        assert h.Picture() == i;
        SomethingThere(Back(Unread(content), bs, h.ahead.data, front), bs, ops, out);
        UntouchedEmpty(h.View());
        FileLength(h.View());
        if front {
          WriteOnlyRunIff(content, bs, ops, out, true);
        } else {
          WriteOnlyRunIff(content, bs, ops, out, false);
        }
      }
    }
  }
}
