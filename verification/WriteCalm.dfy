/** What the steps leave alone: between two commits a step never makes an
    unmodified block modified, nor changes the entry of an unmodified block. */
module WriteCalm {
  import opened Bytes
  import opened Storage
  import opened Lists
  import opened WriteState
  import opened WriteSteps

  ghost predicate SameEntry(s: State, t: State, k: nat) {
    (k in t.blockList <==> k in s.blockList) && (k in s.blockList ==> t.blockList[k] == s.blockList[k])
  }

  ghost predicate CalmAt(s: State, t: State, k: nat) {
    && Blk(t, k) == Blk(s, k)
    && (!DirtyAt(s, k) ==> !DirtyAt(t, k) && SameEntry(s, t, k))
    && (Stale(t, k) ==> Stale(s, k) && SameEntry(s, t, k)) && (Late(t, k) ==> Late(s, k))
    && (k in t.blockList && t.blockList[k].committed && !DirtyAt(t, k) ==> !DirtyAt(s, k))
  }

  /** `t` is reached from `s` without a commit and without new user bytes. */
  ghost predicate Calm(s: State, t: State) {
    && t.bs == s.bs && t.size == s.size && t.length == s.length && t.recorded == s.recorded && t.handleDirty == s.handleDirty
    && t.store.committed == s.store.committed && t.store.flat == s.store.flat
    && forall k: nat {:trigger CalmAt(s, t, k)} :: CalmAt(s, t, k)
  }

  /** As `Calm`, but a full block in the middle of the file may have become
      modified (commit does that to restage it) and a commit may have happened. */
  ghost predicate TameAt(s: State, t: State, k: nat) {
    && Blk(t, k) == Blk(s, k)
    && (DirtyAt(t, k) ==> DirtyAt(s, k) || k * s.bs + s.bs <= s.size)
    && (Stale(t, k) ==> Stale(s, k) && (s.blockList[k].committed ==> t.blockList[k].committed))
    && (Late(t, k) ==> Late(s, k))
  }

  ghost predicate Tame(s: State, t: State) {
    && t.bs == s.bs && t.size == s.size && t.length == s.length && t.recorded == s.recorded
    && forall k: nat {:trigger TameAt(s, t, k)} :: TameAt(s, t, k)
  }

  lemma CalmRefl(s: State)
    ensures Calm(s, s)
  {
  }

  lemma CalmTrans(s: State, t: State, u: State)
    requires Calm(s, t) && Calm(t, u)
    ensures Calm(s, u)
  {
    forall k: nat ensures CalmAt(s, u, k) {
      assert CalmAt(s, t, k) && CalmAt(t, u, k);
    }
  }

  /** What could be read back from the blob still can. */
  lemma CalmFetchable(s: State, t: State, k: nat)
    requires Calm(s, t) && Fetchable(s, k)
    ensures Fetchable(t, k)
  {
    assert CalmAt(s, t, k);
    if k in t.blockList && t.blockList[k].committed && !DirtyAt(t, k) {
      assert StoredBlk(t, k) == Blk(t, k) == Blk(s, k) == StoredBlk(s, k);
    }
  }

  lemma CalmTame(s: State, t: State)
    requires Calm(s, t)
    ensures Tame(s, t)
  {
    forall k: nat ensures TameAt(s, t, k) {
      assert CalmAt(s, t, k);
    }
  }

  lemma TameRefl(s: State)
    ensures Tame(s, s)
  {
  }

  lemma TameTrans(s: State, t: State, u: State)
    requires Tame(s, t) && Tame(t, u)
    ensures Tame(s, u)
  {
    forall k: nat ensures TameAt(s, u, k) {
      assert TameAt(s, t, k) && TameAt(t, u, k);
    }
  }

  lemma NoStaleTame(s: State, t: State)
    requires Tame(s, t) && forall k: nat :: !Stale(s, k)
    ensures forall k: nat :: !Stale(t, k)
  {
    forall k: nat ensures !Stale(t, k) {
      assert TameAt(s, t, k);
    }
  }

  lemma TameSame(s: State, t: State)
    requires Tame(s, t)
    ensures SameBlocks(s, t)
  {
    forall k: nat ensures Blk(t, k) == Blk(s, k) {
      assert TameAt(s, t, k);
    }
  }

  /** A clean handle stays clean. */
  lemma CalmClean(s: State, t: State)
    requires Base(s) && Base(t) && Calm(s, t)
    requires Blocks(s) && Blocks(t) && CleanHandle(s)
    ensures CleanHandle(t)
  {
    forall k: nat ensures Blk(t, k) == Blk(s, k) && (!DirtyAt(s, k) ==> !DirtyAt(t, k) && SameEntry(s, t, k)) {
      assert CalmAt(s, t, k);
    }
    forall k | NothingDirty(s) && AllCommitted(s) && k in t.blockList ensures t.blockList[k].committed && k in s.blockList {
      assert !DirtyAt(s, k) && SameEntry(s, t, k);
    }
    SameLogical(s, t);
  }

  /** Quiet is kept when Cooking keeps its non-downloading blocks and Cooked gets
      no new modified one. */
  lemma QuietMono(s: State, t: State)
    requires Quiet(s)
    requires forall p | p in s.cooking && p in s.mem && !s.mem[p].downloading ::
               p in t.cooking && p in t.mem && !t.mem[p].downloading
    requires t.uploads.Keys <= s.uploads.Keys
    requires forall p | p in t.cooked && p in t.mem && t.mem[p].dirty ::
               p in s.cooked && p in s.mem && s.mem[p].dirty
    ensures Quiet(t)
  {
    if forall p | p in t.cooking && p in t.mem :: t.mem[p].downloading {
      assert forall p | p in s.cooking && p in s.mem :: s.mem[p].downloading;
    }
  }

  lemma OnlyBlockCalm(s: State, t: State, p: Ptr)
    requires Base(s) && OnlyBlock(s, t, p) && t.handleDirty == s.handleDirty
    ensures Calm(s, t)
  {
    forall k: nat ensures CalmAt(s, t, k) {
    }
  }

  lemma UploadOkCalm(s: State, p: Ptr)
    requires Base(s) && p in s.uploads
    ensures p in s.mem && 0 <= StagedLen(s, s.mem[p].id) <= |s.mem[p].data|
    ensures Calm(s, UploadOk(s, p))
  {
    UploadOkKeeps(s, p);
    assert UploadIdOk(s, p) && BlockOk(s, p);
    var t := UploadOk(s, p);
    forall k: nat ensures CalmAt(s, t, k) {
      assert k in s.values ==> ValueOk(s, k);
    }
  }

  lemma ForgetCalm(s: State, p: Ptr)
    requires Base(s) && Linked(s, p) && p in s.mem && !s.mem[p].dirty
    ensures Calm(s, Forget(s, p))
  {
    assert BlockOk(s, p);
    forall k: nat ensures CalmAt(s, Forget(s, p), k) {
      assert k in s.values ==> ValueOk(s, k);
    }
  }

  lemma LineupCalm(s: State, p: Ptr)
    requires Base(s) && CanLineup(s, p)
    ensures 0 < BlockLen(s, s.mem[p].id) && Calm(s, LineupUpload(s, p))
  {
    LineupKeeps(s, p);
    assert Linked(s, p) && BlockOk(s, p);
    forall k: nat ensures CalmAt(s, LineupUpload(s, p), k) {
      assert k in s.values ==> ValueOk(s, k);
    }
  }

  lemma LinkNewCalm(s: State, k: nat, p: Ptr, data: bytes)
    requires Base(s) && k !in s.values && p !in s.mem
    ensures Calm(s, LinkNew(s, k, p, data))
  {
    forall i: nat ensures CalmAt(s, LinkNew(s, k, p, data), i) {
    }
  }

  lemma MarkDirtyTame(s: State, p: Ptr)
    requires Base(s) && Linked(s, p) && p in s.mem && !InFlight(s, p) && !s.mem[p].downloading
    requires s.mem[p].id * s.bs + s.bs <= s.size
    ensures Tame(s, MarkDirty(s, p))
    ensures !Stale(MarkDirty(s, p), s.mem[p].id)
  {
    hide BlockOk, EntryOk, InPlace, InStore, StoredBlk, Base;
    forall k: nat ensures TameAt(s, MarkDirty(s, p), k) {
      MarkDirtyTameAt(s, p, k);
    }
    LinkedFacts(s, p);
  }

  lemma MarkDirtyTameAt(s: State, p: Ptr, k: nat)
    requires Base(s) && Linked(s, p) && p in s.mem && !InFlight(s, p) && !s.mem[p].downloading
    requires s.mem[p].id * s.bs + s.bs <= s.size
    ensures TameAt(s, MarkDirty(s, p), k)
  {
    assert BlockOk(s, p);
    hide BlockOk, EntryOk, InPlace, InStore, StoredBlk;
    assert k in s.values ==> ValueOk(s, k);
  }
}
