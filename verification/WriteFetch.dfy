/** Getting hold of the block for an index: reopening a cached one, or linking a
    new buffer with the bytes the file has there. */
module WriteFetch {
  import opened Bytes
  import opened Storage
  import opened Lists
  import opened WriteState
  import opened WriteSteps
  import opened WriteEdit
  import opened WriteCalm
  import opened WriteWait
  import opened WriteShuffle
  import opened WriteCommit
  import opened WriteRestage

  /** The block was staged but not committed: its bytes cannot be read back yet. */
  predicate NeedsCommit(s: State, k: nat) {
    k in s.blockList && !s.blockList[k].committed
  }

  /** Modified, or staged and not committed. */
  predicate Unsettled(s: State, k: nat) {
    NeedsCommit(s, k) || DirtyAt(s, k)
  }

  ghost predicate OnwardAt(s: State, t: State, k: nat) {
    (Unsettled(t, k) ==> Unsettled(s, k)) && (Fetchable(s, k) ==> Fetchable(t, k))
  }

  /** As `Tame`; nothing else needs a commit, and what could be read back still can. */
  ghost predicate Onward(s: State, t: State) {
    Tame(s, t) && forall k: nat {:trigger OnwardAt(s, t, k)} :: OnwardAt(s, t, k)
  }

  /** The condition for getting block `k`, which is not cached; `rank` bounds the
      commits that may be nested. */
  ghost predicate MayFetch(s: State, k: nat, rank: nat) {
    (NeedsCommit(s, k) ==> rank > 1 && !Stale(s, k) && SafeOrder(s)) && Fetchable(s, k)
  }

  lemma CalmMayFetch(s: State, t: State, k: nat, rank: nat)
    requires Calm(s, t) && MayFetch(s, k, rank) && SameEntry(s, t, k)
    ensures MayFetch(t, k, rank)
  {
    assert CalmAt(s, t, k);
    CalmFetchable(s, t, k);
    CalmSafe(s, t);
  }

  lemma CommittedMayFetch(s: State, k: nat)
    requires k in s.blockList && s.blockList[k].committed && (k in s.values || Fetchable(s, k))
    ensures k !in s.values ==> MayFetch(s, k, 0)
  {
  }

  lemma OrderIsSafe(s: State)
    requires SafeOrder(s)
    ensures CommitSafe(s)
  {
  }

  lemma NoStaleSafe(s: State)
    requires forall k: nat :: !Stale(s, k)
    ensures CommitSafe(s)
  {
  }

  lemma CalmOnward(s: State, t: State)
    requires Calm(s, t)
    ensures Onward(s, t)
  {
    CalmTame(s, t);
    forall k: nat ensures OnwardAt(s, t, k) {
      assert CalmAt(s, t, k);
      if Fetchable(s, k) {
        CalmFetchable(s, t, k);
      }
    }
  }

  lemma OnwardTrans(s: State, t: State, u: State)
    requires Onward(s, t) && Onward(t, u)
    ensures Onward(s, u)
  {
    TameTrans(s, t, u);
    forall k: nat ensures OnwardAt(s, u, k) {
      assert OnwardAt(s, t, k) && OnwardAt(t, u, k);
    }
  }

  /** When the blob is the file, every entry's bytes are in their place. */
  lemma PlacedWhenClean(s: State, k: nat)
    requires Base(s) && NothingDirty(s) && Blocks(s) && Content(s.store) == Logical(s)
    ensures Fetchable(s, k)
    ensures k in s.blockList && s.blockList[k].committed ==> InPlace(s, k)
  {
    if k in s.blockList && s.blockList[k].committed {
      assert EntryOk(s, k) && !DirtyAt(s, k);
      forall j | 0 <= j < s.bs ensures Slice(Content(s.store), k, s.bs)[j] == StoredBlk(s, k)[j] {
        FileByte(s, k, j);
      }
      PlacedReadsRight(s, k);
    }
  }

  lemma PersistedOnward(s: State, t: State)
    requires Tame(s, t) && Persisted(t)
    ensures Onward(s, t)
  {
    forall k: nat ensures OnwardAt(s, t, k) {
      PlacedWhenClean(t, k);
      assert !DirtyAt(t, k);
    }
  }

  lemma CleanPlaced(s: State, k: nat)
    requires Inv(s) && !s.handleDirty
    ensures Fetchable(s, k) && !Unsettled(s, k)
    ensures k in s.blockList ==> InPlace(s, k)
  {
    BaseBlocks(s);
    if Content(s.store) == Logical(s) {
      PlacedWhenClean(s, k);
    }
    assert !DirtyAt(s, k);
  }

  /** Only block `k`, and blocks a commit had to restage, may be newly cached. */
  ghost predicate OnlyNew(s: State, t: State, k: nat) {
    forall j | j in t.values :: j in s.values || j == k || Stale(s, j)
  }

  /** The buffer that block 0 of a small blob is read into ahead of any write: it is
      cached, and nothing has been done to it. */
  predicate Stands(s: State) {
    && 0 in s.values && s.values[0] in s.mem
    && s.mem[s.values[0]].downloading && !s.mem[s.values[0]].dirty
    && s.values[0] !in s.uploads && s.values[0] !in s.downloads
  }

  lemma StandsParts(s: State)
    requires Stands(s)
    ensures 0 in s.values && s.values[0] in s.mem && s.mem[s.values[0]].downloading && !s.mem[s.values[0]].dirty
  {
  }

  lemma StandsFacts(s: State)
    requires Base(s) && Stands(s)
    ensures s.mem[s.values[0]].id == 0 && !InFlight(s, s.values[0])
  {
    assert ValueOk(s, 0);
  }

  lemma CalmInv(s: State, t: State)
    requires Inv(s) && Base(t) && Calm(s, t) && Quiet(t)
    ensures Inv(t)
  {
    BaseBlocks(s);
    BaseBlocks(t);
    CalmClean(s, t);
  }

  /** The marks of a cached block tell whether a transfer is pending. */
  lemma FoundFlags(s: State, k: nat)
    requires Base(s) && k in s.values
    ensures var p := s.values[k];
            && Linked(s, p) && p in s.mem && s.mem[p].id == k
            && (s.mem[p].synced ==> !InFlight(s, p) && !s.mem[p].failed)
            && (s.mem[p].downloading ==> !s.mem[p].dirty)
            && (!s.mem[p].downloading && !s.mem[p].uploading ==> !InFlight(s, p))
            && (!s.mem[p].downloading && !s.mem[p].dirty ==> !s.mem[p].failed)
  {
    assert ValueOk(s, k) && BlockOk(s, s.values[k]);
  }

  function Reopened(s: State, p: Ptr): State
    requires p in s.mem
  {
    Reopen(Cook(s, p), p)
  }

  /** A cached block goes to the back of Cooking with its marks cleared. */
  lemma ReopenReady(s: State, p: Ptr, k: nat)
    requires Base(s) && k in s.values && s.values[k] == p && p in s.mem
    requires !InFlight(s, p) && !(s.mem[p].failed && !s.mem[p].dirty)
    ensures Base(Reopened(s, p)) && Calm(s, Reopened(s, p))
    ensures Ready(Reopened(s, p), p, k) && Quiet(Reopened(s, p)) && OnlyNew(s, Reopened(s, p), k)
  {
    assert ValueOk(s, k);
    CookKeeps(s, p);
    OnlyBlockCook(s, p);
    var t := Cook(s, p);
    assert p in t.cooking;
    ReopenKeeps(t, p);
    OnlyBlockReopen(t, p);
    CalmTrans(s, t, Reopen(t, p));
  }

  lemma OnlyBlockCook(s: State, p: Ptr)
    requires Base(s) && Linked(s, p) && p !in s.uploads
    ensures Calm(s, Cook(s, p))
  {
    RemoveProps(s.cooked, p);
    RemoveProps(s.cooking, p);
    assert BlockOk(s, p);
    OnlyBlockCalm(s, Cook(s, p), p);
  }

  lemma OnlyBlockReopen(s: State, p: Ptr)
    requires Base(s) && p in s.cooking && p in s.mem
    ensures Calm(s, Reopen(s, p))
  {
    assert Linked(s, p);
    OnlyBlockCalm(s, Reopen(s, p), p);
  }

  /** A block whose download failed is dropped, so that the next access retries. */
  lemma ReleaseFailed(s: State, p: Ptr, k: nat)
    requires Base(s) && k in s.values && s.values[k] == p && p in s.mem
    requires !InFlight(s, p) && s.mem[p].downloading && !s.mem[p].dirty
    ensures Base(Forget(s, p)) && Calm(s, Forget(s, p)) && OnlyNew(s, Forget(s, p), k)
    ensures Quiet(s) ==> Quiet(Forget(s, p))
  {
    assert ValueOk(s, k);
    ForgetKeeps(s, p);
    ForgetCalm(s, p);
    if Quiet(s) {
      QuietMono(s, Forget(s, p));
    }
  }

  lemma InUseIsKnown(s: State, p: Ptr)
    requires Base(s) && (Linked(s, p) || InFlight(s, p))
    ensures p in s.mem
  {
    if p in s.uploads {
      assert UploadIdOk(s, p);
    }
    assert Linked(s, p) && BlockOk(s, p);
  }

  /** A new buffer is linked for block `k`. */
  lemma LinkReady(s: State, k: nat, p: Ptr, data: bytes)
    requires Base(s) && k < MAX_BLOCKS && k !in s.values && p !in s.mem && data == StoredBlk(s, k)
    ensures Base(LinkNew(s, k, p, data)) && Calm(s, LinkNew(s, k, p, data))
    ensures Ready(LinkNew(s, k, p, data), p, k)
    ensures !LinkNew(s, k, p, data).mem[p].dirty && LinkNew(s, k, p, data).mem[p].state.Closed?
  {
    if Linked(s, p) || InFlight(s, p) {
      InUseIsKnown(s, p);
    }
    LinkNewKeeps(s, k, p, data);
    LinkNewCalm(s, k, p, data);
  }

  /** Staging another block leaves the new one ready. */
  lemma ShuffledReady(s: State, t: State, p: Ptr, k: nat)
    requires Ready(s, p, k) && !s.mem[p].dirty && s.mem[p].state.Closed?
    requires Shuffled(s, t) && t.values == s.values
    ensures Ready(t, p, k)
  {
    assert ShuffledAt(s, t, p);
  }

  lemma ShuffledOnlyNew(s: State, t: State, k: nat)
    requires Shuffled(s, t)
    ensures Calm(s, t) && OnlyNew(s, t, k)
  {
  }

  /** Between commits neither the pending ids nor what is outgrown gets more. */
  lemma CalmOnlyNew(s: State, t: State, u: State, k: nat)
    requires OnlyNew(s, t, k) && Tame(s, t) && OnlyNew(t, u, k)
    ensures OnlyNew(s, u, k)
  {
    forall j | j in u.values ensures j in s.values || j == k || Stale(s, j) {
      assert TameAt(s, t, j);
    }
  }

  /** A linked block is in one of the two lists, once. */
  lemma InOneList(s: State, p: Ptr)
    requires Base(s) && Linked(s, p)
    ensures NoDup(s.cooked) && NoDup(s.cooking) && !(p in s.cooked && p in s.cooking)
  {
    assert BlockOk(s, p);
  }

  /** A pool buffer that is not in use. */
  lemma FreshPtr(m: map<Ptr, Block>)
    ensures exists p: Ptr :: p !in m
  {
    if forall p: Ptr :: p in m {
      SubsetSize(Below(|m.Keys| + 1), m.Keys);
    }
  }

  /** The bytes a block that is not cached has: stored ones or zeros. */
  lemma UncachedBytes(s: State, k: nat)
    requires Base(s) && k !in s.values && Fetchable(s, k)
    ensures k !in s.blockList ==> StoredBlk(s, k) == Zeros(s.bs)
    ensures k in s.blockList ==> k * s.bs < s.size <= s.length && BlockLen(s, k) == Min(s.bs, s.length - k * s.bs)
    ensures k in s.blockList && s.blockList[k].committed ==>
              0 <= BlockLen(s, k) <= s.bs &&
              Fetch(Content(s.store), k * s.bs, BlockLen(s, k), Zeros(s.bs)) == StoredBlk(s, k)
  {
    if k in s.blockList {
      assert EntryOk(s, k);
      SpanLen(s, k);
      if s.blockList[k].committed {
        FetchIsStored(s, k);
      }
    }
  }

  /** A pending commit means the handle is flagged dirty. */
  lemma NeedsCommitDirty(s: State, k: nat)
    requires Inv(s) && NeedsCommit(s, k)
    ensures s.handleDirty
  {
  }

  /** Uncommitted and unmodified: not outgrown means not cached by the commit. */
  lemma CommittedUncached(s: State, t: State, k: nat)
    requires k !in s.values && !Stale(s, k) && NeedsCommit(s, k)
    requires forall j | j in t.values :: j in s.values || Stale(s, j)
    ensures k !in t.values
  {
  }

  /** Freeing a block first changes nothing for an index that is not cached. */
  lemma ShuffledNeeds(s: State, t: State, k: nat)
    requires Shuffled(s, t) && k !in s.values
    ensures k !in t.values && SameEntry(s, t, k) && (Stale(t, k) ==> Stale(s, k))
    ensures Calm(s, t) && OnlyNew(s, t, k)
  {
    assert CalmAt(s, t, k);
  }

  /** After a commit every block of the file has a committed entry. */
  lemma PersistedEntry(s: State, k: nat)
    requires Persisted(s) && k * s.bs < s.size
    ensures k in s.blockList && s.blockList[k].committed && Fetchable(s, k)
  {
    PlacedWhenClean(s, k);
  }

  lemma InvBase(s: State)
    requires Inv(s)
    ensures Base(s) && Quiet(s) && s.bs > 0
  {
  }

  lemma NothingNew(s: State, t: State, k: nat)
    requires t.values.Keys <= s.values.Keys
    ensures OnlyNew(s, t, k)
  {
  }

  lemma OnlyNewRefl(s: State, k: nat)
    ensures OnlyNew(s, s, k)
  {
  }

  lemma OnlyNewCommit(s: State, t: State, k: nat)
    requires forall j | j in t.values :: j in s.values || Stale(s, j)
    ensures OnlyNew(s, t, k)
  {
  }

  /** Nothing written, nothing accounted for. */
  lemma UntouchedEmpty(s: State)
    requires Inv(s)
    ensures Untouched(s) ==> s.size == 0
  {
    if !s.handleDirty && s.size > 0 {
      LastListed(s);
    }
  }

  lemma LastListed(s: State)
    requires Inv(s) && !s.handleDirty && s.size > 0
    ensures s.blockList != map[]
  {
    BaseBlocks(s);
    var m: nat := (s.size - 1) / s.bs;
    assert s.size - 1 == m * s.bs + (s.size - 1) % s.bs;
    assert IsLast(s, m) && Covered(s, m) && !DirtyAt(s, m);
  }

  lemma TameShape(s: State, t: State)
    requires Tame(s, t)
    ensures t.bs == s.bs && t.size == s.size && t.length == s.length
  {
  }

  // ---------- Around a commit ----------

  lemma CalmShape(s: State, t: State)
    requires Calm(s, t)
    ensures t.handleDirty == s.handleDirty && t.bs == s.bs && t.size == s.size
  {
  }

  /** While the handle is flagged dirty nothing is claimed about the stored blob. */
  lemma DirtyInv(s: State, t: State)
    requires Quiet(s) && Base(t) && t.handleDirty
    requires t.cooked == s.cooked && t.cooking == s.cooking && t.mem == s.mem && t.uploads == s.uploads
    ensures Quiet(t) && Inv(t)
  {
  }

  lemma NewlyCached(s: State, t: State, u: State)
    requires Tame(s, t)
    requires forall j | j in t.values :: j in s.values || Stale(s, j)
    requires forall j | j in u.values :: j in t.values || Stale(t, j)
    ensures forall j | j in u.values :: j in s.values || Stale(s, j)
  {
    forall j | j in u.values ensures j in s.values || Stale(s, j) {
      assert TameAt(s, t, j);
    }
  }

  // ---------- Closing ----------

  lemma FlushedSettled(s: State)
    requires Inv(s) && !s.handleDirty
    ensures Settled(s)
  {
    forall p: Ptr ensures p !in s.uploads {
      if p in s.uploads {
        UploadDirty(s, p);
      }
    }
    assert NothingDirty(s);
  }

  lemma UploadDirty(s: State, p: Ptr)
    requires Base(s) && p in s.uploads
    ensures p in s.mem && DirtyAt(s, s.mem[p].id)
  {
    assert UploadIdOk(s, p) && BlockOk(s, p);
  }

  lemma WaitedSettled(t: State, s: State, u: State)
    requires Settled(s) && Calm(t, s) && Base(u) && Waited(s, u)
    ensures Settled(u) && Calm(t, u) && u.cooked == s.cooked && u.cooking == s.cooking
  {
    CalmTrans(t, s, u);
    forall k: nat ensures !DirtyAt(u, k) {
      assert CalmAt(s, u, k) && !DirtyAt(s, k);
    }
  }

  lemma SettledForget(t: State, s: State, p: Ptr)
    requires Settled(s) && Calm(t, s) && Linked(s, p) && !InFlight(s, p)
    ensures p in s.mem && Settled(Forget(s, p)) && Calm(t, Forget(s, p))
    ensures |Remove(s.cooked, p)| + |Remove(s.cooking, p)| < |s.cooked| + |s.cooking|
    ensures |Remove(s.cooked, p)| <= |s.cooked| && |Remove(s.cooking, p)| <= |s.cooking|
  {
    assert BlockOk(s, p) && !DirtyAt(s, s.mem[p].id);
    RemoveProps(s.cooked, p);
    RemoveProps(s.cooking, p);
    ForgetKeeps(s, p);
    ForgetCalm(s, p);
    CalmTrans(t, s, Forget(s, p));
    forall k: nat ensures !DirtyAt(Forget(s, p), k) {
      assert CalmAt(s, Forget(s, p), k) && !DirtyAt(s, k);
    }
  }

  /** With both lists empty nothing is mapped and nothing pending. */
  lemma NothingLinked(t: State, s: State)
    requires Settled(s) && Calm(t, s) && s.cooked == [] && s.cooking == []
    ensures s.values == map[] && s.downloads == {} && Content(s.store) == Content(t.store)
  {
    forall k: nat ensures k !in s.values {
      if k in s.values {
        MappedIsLinked(s, k);
      }
    }
    assert s.downloads == {};
  }

  lemma MappedIsLinked(s: State, k: nat)
    requires Base(s) && k in s.values
    ensures s.cooked != [] || s.cooking != []
  {
    assert ValueOk(s, k);
  }

  lemma WaitedFile(s: State, t: State)
    requires Inv(s) && Base(t) && Waited(s, t)
    ensures Inv(t) && File(t) == File(s)
  {
    WaitedQuiet(s, t);
    CalmInv(s, t);
    CalmTame(s, t);
    TameSame(s, t);
    BaseBlocks(s);
    SameLogical(s, t);
  }
}
