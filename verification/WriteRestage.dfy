/** After a commit that needed fillers each short block is read back together
    with its filler and staged again as one full block. */
module WriteRestage {
  import opened Bytes
  import opened Storage
  import opened Lists
  import opened WriteState
  import opened WriteSteps
  import opened WriteCalm
  import opened WriteWait
  import opened WriteCommit
  import opened WriteList
  import opened BlockIdList

  /** A block the caller may write into. */
  ghost predicate Ready(s: State, p: Ptr, k: nat) {
    && k in s.values && s.values[k] == p && p in s.cooking && p in s.mem && !InFlight(s, p)
    && s.mem[p].id == k && !s.mem[p].downloading && !s.mem[p].synced
  }

  lemma ReadyQuiet(s: State, p: Ptr, k: nat)
    requires Ready(s, p, k)
    ensures Quiet(s)
  {
  }

  /** An entry the file has outgrown is not the last one, so its block is full now. */
  lemma StaleNotLast(s: State, k: nat)
    requires Base(s) && Stale(s, k)
    ensures k * s.bs + s.bs <= s.size && 0 < s.blockList[k].size < s.bs && k < MAX_BLOCKS
  {
    assert EntryOk(s, k);
    assert IsLast(s, k) ==> Covered(s, k);
  }

  /** The fillers not yet removed when the first `r` short blocks are done. */
  function Remaining(fillers: map<nat, Id>, keys: seq<nat>, r: nat): map<nat, Id>
    requires r <= |keys|
  {
    map k | k in fillers && k in keys[r..] :: fillers[k]
  }

  ghost predicate KeysOf(fillers: map<nat, Id>, keys: seq<nat>, n: nat) {
    && (forall k | k in fillers :: k in keys)
    && (forall i | 0 <= i < |keys| :: keys[i] in fillers && keys[i] < n)
    && (forall i, j | 0 <= i < j < |keys| :: keys[i] < keys[j])
  }

  lemma FillerKeysOf(fillers: map<nat, Id>, n: nat)
    requires forall k | k in fillers :: k < n
    ensures KeysOf(fillers, FillerKeys(fillers, n), n)
  {
    SortedBelowProps(fillers.Keys, n);
  }

  lemma RemainingAll(fillers: map<nat, Id>, keys: seq<nat>, n: nat)
    requires KeysOf(fillers, keys, n)
    ensures Remaining(fillers, keys, 0) == fillers
    ensures Remaining(fillers, keys, |keys|) == map[]
  {
    assert keys[0..] == keys;
  }

  lemma RemainingStep(fillers: map<nat, Id>, keys: seq<nat>, n: nat, r: nat)
    requires KeysOf(fillers, keys, n) && r < |keys|
    ensures keys[r] in Remaining(fillers, keys, r)
    ensures forall k | k in Remaining(fillers, keys, r) :: keys[r] <= k
    ensures Remaining(fillers, keys, r + 1) == Remaining(fillers, keys, r) - {keys[r]}
  {
    TailStep(keys, r);
    RemainingAfter(fillers, keys, r);
  }

  lemma RemainingAfter(fillers: map<nat, Id>, keys: seq<nat>, r: nat)
    requires r < |keys|
    requires forall k :: k in keys[r..] <==> k == keys[r] || k in keys[r + 1..]
    requires keys[r] !in keys[r + 1..]
    ensures Remaining(fillers, keys, r + 1) == Remaining(fillers, keys, r) - {keys[r]}
  {
  }

  lemma TailStep(keys: seq<nat>, r: nat)
    requires r < |keys| && forall i, j | 0 <= i < j < |keys| :: keys[i] < keys[j]
    ensures keys[r..] == [keys[r]] + keys[r + 1..]
    ensures forall k :: k in keys[r..] <==> k == keys[r] || k in keys[r + 1..]
    ensures forall k {:trigger k in keys[r + 1..]} | k in keys[r + 1..] :: keys[r] < k
  {
    var tail := keys[r + 1..];
    forall k | k in tail ensures keys[r] < k {
      var j :| 0 <= j < |tail| && tail[j] == k;
      assert tail[j] == keys[r + 1 + j];
    }
  }

  /** The position found for the next short block is its block index, and cutting
      the id behind it removes that block's filler. */
  lemma RestagePosition(m: map<nat, BlockInfo>, bs: nat, n: nat, f: map<nat, Id>, x: nat, i: nat)
    requires HasBelow(m, n) && SharedIds(m, bs) && x < n && x in f && m[x].size < bs
    requires forall k | k in f :: x <= k
    requires var ids := Interleave(EntryIds(m, n), f, n);
             i < |ids| && ids[i] == m[x].id && m[x].id !in ids[..i]
    ensures i == x
    ensures var ids := Interleave(EntryIds(m, n), f, n);
            i + 2 <= |ids| && ids[..i + 1] + ids[i + 2..] == Interleave(EntryIds(m, n), f - {x}, n)
  {
    hide Interleave, SharedIds;
    var e := EntryIds(m, n);
    InterleavePrefix(e, f, x, n);
    InterleaveCut(e, f, x, n);
    ShortIdOnce(m, bs, n, x);
    FirstAt(Interleave(e, f, n), e, x, i);
  }

  /** A short block shares its id with no other. */
  lemma ShortIdOnce(m: map<nat, BlockInfo>, bs: nat, n: nat, x: nat)
    requires HasBelow(m, n) && SharedIds(m, bs) && x < n && m[x].size < bs
    ensures EntryIds(m, n)[x] == m[x].id
    ensures forall y | 0 <= y < x :: EntryIds(m, n)[y] != m[x].id
  {
  }

  lemma FirstAt(ids: seq<Id>, e: seq<Id>, x: nat, i: nat)
    requires x < |e| && x < |ids| && ids[..x + 1] == e[..x + 1]
    requires forall y | 0 <= y < x :: e[y] != e[x]
    requires i < |ids| && ids[i] == e[x] && e[x] !in ids[..i]
    ensures i == x
  {
    assert forall y | 0 <= y <= x :: ids[y] == ids[..x + 1][y] == e[..x + 1][y] == e[y];
    if x < i {
      InPrefix(ids, i, x);
    }
  }

  lemma InPrefix(ids: seq<Id>, i: nat, x: nat)
    requires x < i <= |ids|
    ensures ids[x] in ids[..i]
  {
    assert ids[..i][x] == ids[x];
  }

  lemma RestageIdFound(m: map<nat, BlockInfo>, n: nat, f: map<nat, Id>, x: nat)
    requires HasBelow(m, n) && x < n
    ensures m[x].id in Interleave(EntryIds(m, n), f, n)
  {
    InterleaveHas(EntryIds(m, n), f, n, x);
  }

  // ---------- State while restaging ----------

  /** `u` is the state right after the commit, `v` the state when the entries in
      `f` still have to be restaged. */
  ghost predicate Restaging(u: State, v: State, f: map<nat, Id>) {
    && Base(v) && Quiet(v) && Tame(u, v) && v.handleDirty
    && (forall k: nat | Stale(v, k) :: k in f)
    && (forall k | k in f :: !DirtyAt(v, k) && Stale(u, k) && SameEntry(u, v, k))
    && CanFetch(v, f)
  }

  /** The blocks in `f` can all be read back from their places, or are all cached. */
  ghost predicate CanFetch(v: State, f: map<nat, Id>) {
    (forall k | k in f :: Fetchable(v, k)) || forall k | k in f :: k in v.values
  }

  lemma CanFetchStep(v: State, w: State, f: map<nat, Id>, x: nat, p: Ptr)
    requires CanFetch(v, f) && x in f && Calm(v, w) && (x in v.values ==> w.values == v.values) && p in w.mem
    ensures CanFetch(MarkDirty(w, p), f - {x})
  {
    hide Fetchable, Calm, MarkDirty;
    MarkedShape(w, p);
    if forall k | k in f :: Fetchable(v, k) {
      forall k | k in f - {x} ensures Fetchable(MarkDirty(w, p), k) {
        CalmFetchable(v, w, k);
        MarkedFetchable(w, p, k);
      }
    } else {
      assert x in v.values;
    }
  }

  lemma MarkedShape(w: State, p: Ptr)
    requires p in w.mem
    ensures MarkDirty(w, p).values == w.values
  {
  }

  lemma MarkedFetchable(w: State, p: Ptr, k: nat)
    requires p in w.mem && Fetchable(w, k)
    ensures Fetchable(MarkDirty(w, p), k)
  {
    hide StoredBlk, Content;
    assert StoredBlk(MarkDirty(w, p), k) == StoredBlk(w, k) by { SameStored(w, p, k); }
    assert DirtyAt(w, k) ==> DirtyAt(MarkDirty(w, p), k);
  }

  lemma SameStored(w: State, p: Ptr, k: nat)
    requires p in w.mem
    ensures StoredBlk(MarkDirty(w, p), k) == StoredBlk(w, k)
  {
  }

  lemma CalmSafe(s: State, t: State)
    requires Calm(s, t)
    ensures SafeOrder(s) ==> SafeOrder(t)
    ensures CommitSafe(s) && t.values == s.values ==> CommitSafe(t)
  {
    forall k: nat ensures (Stale(t, k) ==> Stale(s, k)) && (Late(t, k) ==> Late(s, k)) {
      assert CalmAt(s, t, k);
    }
  }

  lemma TameSafe(s: State, t: State)
    requires Tame(s, t)
    ensures SafeOrder(s) ==> SafeOrder(t)
    ensures CommitSafe(s) && t.values == s.values ==> CommitSafe(t)
  {
    forall k: nat ensures (Stale(t, k) ==> Stale(s, k)) && (Late(t, k) ==> Late(s, k)) {
      assert TameAt(s, t, k);
    }
  }

  lemma RestagingStart(u: State, f: map<nat, Id>)
    requires Settled(u) && Quiet(u) && u.handleDirty && CanFetch(u, f)
    requires forall k: nat :: k in f <==> Stale(u, k)
    ensures Restaging(u, u, f)
  {
    forall k: nat ensures TameAt(u, u, k) {
    }
  }

  /** One block is fetched (`w`) and marked modified. */
  lemma RestagingStep(u: State, v: State, w: State, f: map<nat, Id>, x: nat, p: Ptr)
    requires Restaging(u, v, f) && Base(u) && x in f
    requires Base(w) && Calm(v, w) && Ready(w, p, x) && (x in v.values ==> w.values == v.values)
    ensures Restaging(u, MarkDirty(w, p), f - {x})
  {
    StaleNotLast(u, x);
    assert Linked(w, p);
    CalmTame(v, w);
    MarkDirtyKeeps(w, p);
    MarkDirtyTame(w, p);
    var z := MarkDirty(w, p);
    TameTrans(v, w, z);
    TameTrans(u, v, z);
    ReadyQuiet(z, p, x);
    CanFetchStep(v, w, f, x, p);
    forall k: nat | Stale(z, k) ensures k in f - {x} {
      assert TameAt(v, z, k);
    }
    forall k | k in f - {x} ensures !DirtyAt(z, k) && SameEntry(u, z, k) {
      assert CalmAt(v, w, k);
      assert k in w.values ==> ValueOk(w, k);
    }
  }

  // ---------- What a finished commit leaves ----------

  /** The map that opening the file for writing builds from the stored list. */
  function ListMap(l: seq<Stored>): map<nat, BlockInfo> {
    map k: nat | k < |l| :: BlockInfo(l[k].id, true, |l[k].data|)
  }

  /** Everything is in the committed blob, and reopening it would give the same map. */
  ghost predicate Persisted(s: State) {
    && Settled(s) && AllCommitted(s)
    && Blocks(s) && Content(s.store) == Logical(s)
    && ValidList(s.store.committed, s.bs) && ListMap(s.store.committed) == s.blockList
    && (forall k: nat {:trigger k in s.blockList} | k * s.bs < s.size :: k in s.blockList)
    && (forall k: nat :: !Stale(s, k))
  }

  lemma EntrySizes(t: State, n: nat, k: nat)
    requires Settled(t) && HasBelow(t.blockList, n) && k < n && !Stale(t, k)
    ensures 0 < t.blockList[k].size <= t.bs
    ensures k < n - 1 ==> t.blockList[k].size == t.bs
    ensures Find(t.store, t.blockList[k].id).Found? && |Find(t.store, t.blockList[k].id).data| == t.blockList[k].size
  {
    assert EntryOk(t, k) && !DirtyAt(t, k) && EntryOk(t, n - 1);
    assert (k + 1) * t.bs == k * t.bs + t.bs;
    if k < n - 1 {
      MulLe(k + 1, n - 1, t.bs);
    }
  }

  /** Without fillers, entry `k` of the committed list is entry `k` of the map. */
  lemma CommitEntry(t: State, ids: seq<Id>, n: nat, k: nat)
    requires Known(t.store, ids) && HasBelow(t.blockList, n) && k < n
    requires Find(t.store, t.blockList[k].id).Found? && |Find(t.store, t.blockList[k].id).data| == t.blockList[k].size
    requires ids == EntryIds(t.blockList, n)
    ensures |Commit(t.store, ids).committed| == n
    ensures var b := Commit(t.store, ids).committed[k];
            Committed(t, ids).blockList[k] == BlockInfo(b.id, true, |b.data|)
  {
    assert ids[k] == t.blockList[k].id;
    assert Find(t.store, ids[k]) == Found(Pick(t.store, ids)[k].data);
  }

  lemma NoFillers(t: State, ids: seq<Id>, restage: seq<Id>, n: nat, x: nat)
    requires ListResult(t, ids, restage, n, map[], x)
    ensures ids == EntryIds(t.blockList, n)
  {
    hide Settled, CanCommit;
    InterleaveNone(EntryIds(t.blockList, n), map[], n);
    assert EntryIds(t.blockList, n)[..n] == EntryIds(t.blockList, n);
  }

  /** A committed list without fillers is valid and rebuilds the map. */
  lemma CommitRoundTrip(t: State, ids: seq<Id>, restage: seq<Id>, n: nat, x: nat)
    requires ListResult(t, ids, restage, n, map[], x)
    ensures var l := Commit(t.store, ids).committed;
            ValidList(l, t.bs) && ListMap(l) == Committed(t, ids).blockList
  {
    hide Settled, CanCommit, Stale, InStore, Commit, EntryIds;
    NoFillers(t, ids, restage, n, x);
    CanCommitKnown(t, ids, n, x);
    CommitLength(t, ids);
    var l := Commit(t.store, ids).committed;
    forall k: nat | k < n
      ensures k in Committed(t, ids).blockList && Committed(t, ids).blockList[k] == BlockInfo(l[k].id, true, |l[k].data|)
      ensures if k < |l| - 1 then |l[k].data| == t.bs else |l[k].data| <= t.bs
    {
      RoundTripEntry(t, ids, n, k);
    }
  }

  lemma CommitLength(t: State, ids: seq<Id>)
    requires Known(t.store, ids)
    ensures |Commit(t.store, ids).committed| == |ids|
  {
  }

  lemma RoundTripEntry(t: State, ids: seq<Id>, n: nat, k: nat)
    requires Settled(t) && Known(t.store, ids) && HasBelow(t.blockList, n) && k < n && !Stale(t, k)
    requires ids == EntryIds(t.blockList, n)
    ensures var l := Commit(t.store, ids).committed;
            && |l| == n && k in Committed(t, ids).blockList
            && Committed(t, ids).blockList[k] == BlockInfo(l[k].id, true, |l[k].data|)
            && if k < n - 1 then |l[k].data| == t.bs else |l[k].data| <= t.bs
  {
    hide Settled, Stale, InStore;
    EntrySizes(t, n, k);
    CommitEntry(t, ids, n, k);
  }

  lemma CanCommitKnown(t: State, ids: seq<Id>, n: nat, x: nat)
    requires CanCommit(t, ids, n, x)
    ensures Settled(t) && Known(t.store, ids)
  {
  }

  lemma CommitPersists(t: State, ids: seq<Id>, restage: seq<Id>, n: nat, x: nat)
    requires ListResult(t, ids, restage, n, map[], x)
    ensures Known(t.store, ids) && Persisted(Committed(t, ids))
  {
    CanCommitKnown(t, ids, n, x);
    CommitRoundTrip(t, ids, restage, n, x);
    CommitBytes(t, ids, n, x);
    CommitComplete(t, ids, n, x);
  }

  lemma CommitBytes(t: State, ids: seq<Id>, n: nat, x: nat)
    requires CanCommit(t, ids, n, x) && forall k: nat :: !Stale(t, k)
    ensures var u := Committed(t, ids);
            Settled(u) && AllCommitted(u) && Blocks(u) && Content(u.store) == Logical(u)
  {
    var u := Committed(t, ids);
    CommittedBase(t, ids, n, x);
    BaseBlocks(t);
    assert forall k: nat :: Late(t, k) ==> Stale(t, k);
    CommittedContent(t, ids, n, x);
    TameSame(t, u);
    SameLogical(t, u);
  }

  lemma CommitComplete(t: State, ids: seq<Id>, n: nat, x: nat)
    requires CanCommit(t, ids, n, x)
    requires forall k: nat :: (k in t.blockList <==> k < n) && !Stale(t, k)
    ensures forall k: nat :: !Stale(Committed(t, ids), k)
    ensures forall k: nat {:trigger k in Committed(t, ids).blockList} | k * t.bs < t.size :: k in Committed(t, ids).blockList
  {
    CommittedBase(t, ids, n, x);
    forall k: nat ensures !Stale(Committed(t, ids), k) {
      assert TameAt(t, Committed(t, ids), k);
      assert !Stale(t, k);
    }
    forall k: nat | k * t.bs < t.size ensures k in t.blockList {
      if k >= n {
        MulLe(n, k, t.bs);
      }
    }
  }

  // ---------- The restage pass ----------

  /** What the restage pass starts from, right after the commit. */
  ghost predicate RestageReady(v: State, ids: seq<Id>, restage: seq<Id>, n: nat, fillers: map<nat, Id>) {
    && Settled(v) && AllCommitted(v)
    && HasBelow(v.blockList, n)
    && ids == Interleave(EntryIds(v.blockList, n), fillers, n)
    && (forall k: nat :: k in fillers <==> Stale(v, k))
    && (forall k | k in fillers :: k < n)
    && RestageIds(v, restage, n, fillers)
    && CanFetch(v, fillers)
  }

  /** The restage list names, in order, the entries of the short blocks. */
  ghost predicate RestageIds(v: State, restage: seq<Id>, n: nat, fillers: map<nat, Id>) {
    && (forall i | 0 <= i < |FillerKeys(fillers, n)| :: FillerKeys(fillers, n)[i] in v.blockList)
    && restage == IdsAt(v.blockList, FillerKeys(fillers, n))
  }

  /** A finished list can be committed, and then its short blocks restaged. */
  lemma ListResultCommits(u: State, ids: seq<Id>, restage: seq<Id>, n: nat, fillers: map<nat, Id>, x: nat)
    requires ListResult(u, ids, restage, n, fillers, x) && CommitSafe(u)
    ensures Known(u.store, ids) && Base(Committed(u, ids)) && Tame(u, Committed(u, ids))
    ensures RestageReady(Committed(u, ids), ids, restage, n, fillers)
  {
    hide Laid, InPlace, Settled, CanCommit, Stale, Committed, CommitSafe, CanFetch, Interleave;
    CanCommitKnown(u, ids, n, x);
    CommittedBase(u, ids, n, x);
    SettledBase(Committed(u, ids));
    CommitKeepsIds(u, ids, n, FillerKeys(fillers, n));
    CommitKeepsStale(u, ids);
    StaleListed(u, n, fillers);
    CommitFetches(u, ids, n, fillers, x);
  }

  /** A commit that is safe puts what has to be read back in its place, or has it
      in the cache. */
  lemma CommitFetches(u: State, ids: seq<Id>, n: nat, fillers: map<nat, Id>, x: nat)
    requires CanCommit(u, ids, n, x) && CommitSafe(u) && forall k: nat :: k in fillers <==> Stale(u, k)
    ensures CanFetch(Committed(u, ids), fillers)
  {
    hide Laid, InPlace;
    CommittedBase(u, ids, n, x);
    if SafeOrder(u) {
      forall k | k in fillers ensures Fetchable(Committed(u, ids), k) {
        assert Stale(u, k) && EntryOk(u, k);
        assert x < MAX_BLOCKS ==> Late(u, x);
        PlacedReadsRight(Committed(u, ids), k);
      }
    }
  }

  lemma CommitKeepsIds(u: State, ids: seq<Id>, n: nat, keys: seq<nat>)
    requires Known(u.store, ids) && HasBelow(u.blockList, n)
    requires forall i | 0 <= i < |keys| :: keys[i] in u.blockList
    ensures HasBelow(Committed(u, ids).blockList, n)
    ensures EntryIds(Committed(u, ids).blockList, n) == EntryIds(u.blockList, n)
    ensures forall i | 0 <= i < |keys| :: keys[i] in Committed(u, ids).blockList
    ensures IdsAt(Committed(u, ids).blockList, keys) == IdsAt(u.blockList, keys)
  {
  }

  lemma CommitKeepsStale(u: State, ids: seq<Id>)
    requires Known(u.store, ids)
    ensures forall k: nat :: Stale(Committed(u, ids), k) <==> Stale(u, k)
  {
  }

  lemma StaleListed(u: State, n: nat, fillers: map<nat, Id>)
    requires forall k: nat :: k in u.blockList <==> k < n
    requires forall k: nat :: k in fillers <==> Stale(u, k)
    ensures forall k | k in fillers :: k < n
  {
    forall k | k in fillers ensures k < n {
      assert Stale(u, k);
    }
  }

  lemma RestageBegin(v: State, ids: seq<Id>, restage: seq<Id>, n: nat, fillers: map<nat, Id>)
    requires RestageReady(v, ids, restage, n, fillers) && Quiet(v) && v.handleDirty
    ensures Base(v) && AllCommitted(v) && HasBelow(v.blockList, n) && RestageIds(v, restage, n, fillers)
    ensures KeysOf(fillers, FillerKeys(fillers, n), n) && |restage| == |FillerKeys(fillers, n)|
    ensures Restaging(v, v, Remaining(fillers, FillerKeys(fillers, n), 0))
    ensures ids == Interleave(EntryIds(v.blockList, n), Remaining(fillers, FillerKeys(fillers, n), 0), n)
  {
    FillerKeysOf(fillers, n);
    RemainingAll(fillers, FillerKeys(fillers, n), n);
    RestagingStart(v, fillers);
  }

  /** The next short block: where its id is, and that its entry is committed. */
  lemma RestageNext(v: State, w: State, restage: seq<Id>, n: nat, fillers: map<nat, Id>, r: nat)
    requires Base(v) && AllCommitted(v) && HasBelow(v.blockList, n)
    requires KeysOf(fillers, FillerKeys(fillers, n), n) && r < |FillerKeys(fillers, n)|
    requires RestageIds(v, restage, n, fillers)
    requires Restaging(v, w, Remaining(fillers, FillerKeys(fillers, n), r))
    ensures var f, x := Remaining(fillers, FillerKeys(fillers, n), r), FillerKeys(fillers, n)[r];
            && x < n && x in f && (forall k | k in f :: x <= k)
            && v.blockList[x].size < v.bs && SharedIds(v.blockList, v.bs)
            && restage[r] == v.blockList[x].id
            && restage[r] in Interleave(EntryIds(v.blockList, n), f, n)
            && x in w.blockList && w.blockList[x].committed
            && (x in w.values || Fetchable(w, x))
    ensures Inv(w) && w.bs == v.bs > 0
  {
    var keys := FillerKeys(fillers, n);
    var f, x := Remaining(fillers, keys, r), keys[r];
    RemainingStep(fillers, keys, n, r);
    StaleNotLast(v, x);
    RestageIdFound(v.blockList, n, f, x);
    BaseBlocks(w);
  }

  lemma RestageFetched(v: State, w: State, z: State, f: map<nat, Id>, x: nat)
    requires Restaging(v, w, f) && x in f && Calm(w, z)
    requires Base(v) && Inv(z)
    requires forall j | j in w.values :: j in v.values || Stale(v, j)
    requires forall j | j in z.values :: j in w.values || j == x || Stale(w, j)
    ensures Tame(v, z) && z.handleDirty && Base(z)
    ensures forall j | j in z.values :: j in v.values || Stale(v, j)
  {
    CalmTame(w, z);
    TameTrans(v, w, z);
    forall j | j in z.values ensures j in v.values || Stale(v, j) {
      assert TameAt(v, w, j);
    }
  }

  lemma RestageEnd(v: State, w: State, fillers: map<nat, Id>, n: nat)
    requires KeysOf(fillers, FillerKeys(fillers, n), n)
    requires Restaging(v, w, Remaining(fillers, FillerKeys(fillers, n), |FillerKeys(fillers, n)|))
    ensures Inv(w) && Tame(v, w) && w.handleDirty && forall k: nat :: !Stale(w, k)
  {
    RemainingAll(fillers, FillerKeys(fillers, n), n);
    BaseBlocks(w);
  }

  lemma SettledBase(s: State)
    requires Settled(s)
    ensures Base(s)
  {
  }

  lemma ReadyFacts(s: State, p: Ptr, k: nat)
    requires Ready(s, p, k)
    ensures p in s.mem && k in s.values
  {
  }

  /** A restage list is only there when the file had outgrown an entry. */
  lemma RestageNonEmpty(s: State, v: State, restage: seq<Id>, n: nat, fillers: map<nat, Id>)
    requires Tame(s, v) && restage != []
    requires forall k: nat :: k in fillers <==> Stale(v, k)
    requires forall k | k in fillers :: k < n
    requires |restage| == |FillerKeys(fillers, n)|
    ensures exists k: nat :: Stale(s, k)
  {
    FillerKeysOf(fillers, n);
    var k := FillerKeys(fillers, n)[0];
    assert TameAt(s, v, k);
  }

  lemma NothingToRestage(u: State, ids: seq<Id>, restage: seq<Id>, n: nat, fillers: map<nat, Id>, x: nat)
    requires ListResult(u, ids, restage, n, fillers, x) && restage == []
    ensures Known(u.store, ids) && Persisted(Committed(u, ids))
  {
    CanCommitKnown(u, ids, n, x);
    assert forall k | k in fillers :: k < n by {
      assert forall k | k in fillers :: Stale(u, k) && k in u.blockList;
    }
    FillerKeysOf(fillers, n);
    assert fillers == map[];
    CommitPersists(u, ids, restage, n, x);
  }

  /** Clearing the dirty flag after everything is committed. */
  lemma CommitKeepsPlaces(u: State, ids: seq<Id>)
    requires Known(u.store, ids)
    ensures var v := Committed(u, ids);
            && v.cooked == u.cooked && v.cooking == u.cooking && v.mem == u.mem && v.uploads == u.uploads
            && v.values == u.values && v.handleDirty == u.handleDirty
  {
  }

  lemma PersistedInv(s: State, t: State)
    requires Persisted(s) && Quiet(s) && t == s.(handleDirty := false)
    ensures Persisted(t) && Inv(t) && Tame(s, t)
  {
    FlagIrrelevant(s, t);
    SameLogical(s, t);
    forall k: nat ensures !Stale(t, k) && !DirtyAt(t, k) && TameAt(s, t, k) {
      assert !Stale(s, k) && !DirtyAt(s, k);
    }
  }

  lemma FlagIrrelevant(s: State, t: State)
    requires Base(s) && t == s.(handleDirty := false)
    ensures Base(t) && SameBlocks(s, t)
  {
    forall q | Linked(t, q) ensures BlockOk(t, q) {
      assert Linked(s, q) && BlockOk(s, q);
      BlockFrame(s, t, q);
    }
    forall k | k in t.values ensures ValueOk(t, k) {
      assert ValueOk(s, k);
    }
    forall k | k in t.blockList ensures EntryOk(t, k) {
      assert EntryOk(s, k);
      EntryFrame(s, t, k);
    }
    forall q | q in t.uploads ensures UploadIdOk(t, q) {
      assert UploadIdOk(s, q);
    }
    forall m: nat | IsLast(t, m) ensures Covered(t, m) {
      assert IsLast(s, m) && Covered(s, m);
    }
  }
}
