/** What waiting can change: transfers end and channels are drained, nothing else. */
module WriteWait {
  import opened Bytes
  import opened Storage
  import opened Lists
  import opened WriteState
  import opened WriteSteps
  import opened WriteCalm

  /** A block no work item refers to is at most drained. */
  ghost predicate WaitedAt(s: State, t: State, p: Ptr)
    requires p in s.mem
  {
    && p in t.mem
    && t.mem[p].id == s.mem[p].id
    && t.mem[p].downloading == s.mem[p].downloading
    && t.mem[p].uploading == s.mem[p].uploading
    && (t.mem[p].dirty ==> s.mem[p].dirty)
    && (s.mem[p].state.Closed? ==> t.mem[p] == s.mem[p])
    && (!InFlight(s, p) ==> t.mem[p] == s.mem[p] || t.mem[p] == s.mem[p].(state := Closed))
  }

  ghost predicate Waited(s: State, t: State) {
    && Calm(s, t)
    && t.cooked == s.cooked && t.cooking == s.cooking && t.values == s.values && t.blockList == s.blockList
    && t.uploads.Keys <= s.uploads.Keys && t.downloads <= s.downloads
    && t.store.nextId == s.store.nextId
    && t.mem.Keys == s.mem.Keys
    && forall p {:trigger WaitedAt(s, t, p)} | p in s.mem :: WaitedAt(s, t, p)
  }

  lemma WaitedRefl(s: State)
    ensures Waited(s, s)
  {
    CalmRefl(s);
  }

  lemma WaitedTrans(s: State, t: State, u: State)
    requires Waited(s, t) && Waited(t, u)
    ensures Waited(s, u)
  {
    CalmTrans(s, t, u);
    forall p | p in s.mem ensures WaitedAt(s, u, p) {
      assert WaitedAt(s, t, p) && WaitedAt(t, u, p);
    }
  }

  lemma WaitedQuiet(s: State, t: State)
    requires Waited(s, t) && Quiet(s)
    ensures Quiet(t)
  {
    forall p | p in s.mem ensures WaitedAt(s, t, p) {
    }
    QuietMono(s, t);
  }

  lemma UploadOkWaited(s: State, p: Ptr)
    requires Base(s) && p in s.uploads
    ensures p in s.mem && 0 <= StagedLen(s, s.mem[p].id) <= |s.mem[p].data|
    ensures Base(UploadOk(s, p)) && Waited(s, UploadOk(s, p))
  {
    UploadOkKeeps(s, p);
    UploadOkCalm(s, p);
    assert UploadIdOk(s, p) && BlockOk(s, p);
  }

  lemma UploadFailedWaited(s: State, p: Ptr)
    requires Base(s) && p in s.uploads
    ensures p in s.mem
    ensures Base(UploadFailed(s, p)) && Waited(s, UploadFailed(s, p))
  {
    UploadFailedKeeps(s, p);
    assert UploadIdOk(s, p) && BlockOk(s, p);
    OnlyBlockCalm(s, UploadFailed(s, p), p);
  }

  lemma DownloadOkWaited(s: State, p: Ptr)
    requires Base(s) && p in s.downloads
    ensures p in s.mem && 0 <= BlockLen(s, s.mem[p].id) <= |s.mem[p].data|
    ensures Base(DownloadOk(s, p)) && Waited(s, DownloadOk(s, p))
  {
    DownloadOkKeeps(s, p);
    assert Linked(s, p) && BlockOk(s, p);
    OnlyBlockCalm(s, DownloadOk(s, p), p);
  }

  lemma DownloadFailedWaited(s: State, p: Ptr, junk: bytes)
    requires Base(s) && p in s.downloads && |junk| == s.bs
    ensures p in s.mem
    ensures Base(DownloadFailed(s, p, junk)) && Waited(s, DownloadFailed(s, p, junk))
  {
    DownloadFailedKeeps(s, p, junk);
    assert Linked(s, p) && BlockOk(s, p);
    OnlyBlockCalm(s, DownloadFailed(s, p, junk), p);
  }

  lemma DrainWaited(s: State, p: Ptr)
    requires Base(s) && Linked(s, p) && p in s.mem && !s.mem[p].state.Empty?
    ensures Base(Drain(s, p)) && Waited(s, Drain(s, p))
  {
    DrainKeeps(s, p);
    assert BlockOk(s, p);
    OnlyBlockCalm(s, Drain(s, p), p);
  }

  /** The channel of a linked block is open and empty only while a transfer is pending. */
  lemma ChannelTells(s: State, p: Ptr)
    requires Base(s) && Linked(s, p)
    ensures p in s.mem && (s.mem[p].state.Empty? <==> InFlight(s, p))
  {
    assert BlockOk(s, p);
  }

  lemma WaitedLinked(s: State, t: State, p: Ptr)
    requires Waited(s, t) && Linked(s, p)
    ensures Linked(t, p)
  {
  }

  /** What a worker relies on when it takes up an item. */
  lemma UploadReady(s: State, p: Ptr)
    requires Base(s) && p in s.uploads
    ensures p in s.mem && s.mem[p].offset == s.mem[p].id * s.bs
    ensures s.mem[p].id in s.blockList && 0 <= StagedLen(s, s.mem[p].id) <= |s.mem[p].data|
    ensures BlockLen(s, s.mem[p].id) == Min(s.bs, s.length - s.mem[p].offset)
  {
    assert UploadIdOk(s, p) && BlockOk(s, p) && EntryOk(s, s.mem[p].id);
    SpanLen(s, s.mem[p].id);
  }

  lemma DownloadReady(s: State, p: Ptr)
    requires Base(s) && p in s.downloads
    ensures p in s.mem && s.mem[p].offset == s.mem[p].id * s.bs
    ensures 0 <= BlockLen(s, s.mem[p].id) <= |s.mem[p].data|
    ensures BlockLen(s, s.mem[p].id) == Min(s.bs, s.length - s.mem[p].offset)
  {
    assert Linked(s, p) && BlockOk(s, p) && EntryOk(s, s.mem[p].id);
    SpanLen(s, s.mem[p].id);
  }

  /** A block has at most one work item. */
  lemma UploadsNotDownloads(s: State, p: Ptr)
    requires Base(s)
    ensures !(p in s.uploads && p in s.downloads)
  {
    if p in s.uploads {
      assert UploadIdOk(s, p) && BlockOk(s, p);
    }
  }

  lemma WaitedFacts(s: State, t: State, p: Ptr)
    requires Waited(s, t) && p in s.mem
    ensures Calm(s, t) && t.values == s.values
    ensures p in t.mem && t.mem[p].id == s.mem[p].id
    ensures t.mem[p].downloading == s.mem[p].downloading
    ensures t.mem[p].uploading == s.mem[p].uploading
    ensures t.mem[p].dirty ==> s.mem[p].dirty
  {
    assert WaitedAt(s, t, p);
  }

  lemma WaitedLists(s: State, t: State)
    requires Waited(s, t)
    ensures t.cooked == s.cooked && t.cooking == s.cooking && t.values == s.values && t.mem.Keys == s.mem.Keys
    ensures t.bs == s.bs && t.size == s.size && t.handleDirty == s.handleDirty
  {
  }

  lemma WaitedLength(s: State, t: State)
    requires Waited(s, t)
    ensures t.length == s.length
  {
  }
}
