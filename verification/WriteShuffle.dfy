/** What staging, freeing and waiting may do to the lists: unmodified blocks in
    Cooking stay there as they are, and no index gets another block. */
module WriteShuffle {
  import opened Bytes
  import opened Storage
  import opened Lists
  import opened WriteState
  import opened WriteSteps
  import opened WriteCalm
  import opened WriteWait

  ghost predicate ShuffledAt(s: State, t: State, p: Ptr)
    requires p in s.mem
  {
    && (p in s.cooking && !s.mem[p].dirty ==> p in t.mem && p in t.cooking)
    && (p in t.mem ==>
          && t.mem[p].id == s.mem[p].id
          && (t.mem[p].dirty ==> s.mem[p].dirty)
          && (!s.mem[p].downloading ==> !t.mem[p].downloading)
          && (!InFlight(s, p) && !s.mem[p].dirty ==> !InFlight(t, p))
          && (p in s.cooking && !s.mem[p].dirty && s.mem[p].state.Closed? ==> t.mem[p] == s.mem[p]))
  }

  ghost predicate Shuffled(s: State, t: State) {
    && Calm(s, t)
    && (forall k | k in t.values :: k in s.values && t.values[k] == s.values[k])
    && t.mem.Keys <= s.mem.Keys
    && t.downloads <= s.downloads
    && forall p {:trigger ShuffledAt(s, t, p)} | p in s.mem :: ShuffledAt(s, t, p)
  }

  lemma ShuffledTrans(s: State, t: State, u: State)
    requires Shuffled(s, t) && Shuffled(t, u)
    ensures Shuffled(s, u)
  {
    CalmTrans(s, t, u);
    forall p | p in s.mem ensures ShuffledAt(s, u, p) {
      assert ShuffledAt(s, t, p);
      assert p in t.mem ==> ShuffledAt(t, u, p);
    }
  }

  lemma WaitedShuffled(s: State, t: State)
    requires Waited(s, t)
    ensures Shuffled(s, t)
  {
    forall p | p in s.mem ensures ShuffledAt(s, t, p) {
      assert WaitedAt(s, t, p);
    }
  }

  lemma LineupShuffled(s: State, p: Ptr)
    requires Base(s) && CanLineup(s, p)
    ensures 0 < BlockLen(s, s.mem[p].id) && Shuffled(s, LineupUpload(s, p))
  {
    LineupKeeps(s, p);
    LineupCalm(s, p);
  }

  lemma ClearTransferWaited(s: State, p: Ptr)
    requires Base(s) && p in s.cooked && p in s.mem && p !in s.uploads
    ensures Base(ClearTransfer(s, p)) && Shuffled(s, ClearTransfer(s, p))
    ensures Quiet(s) ==> Quiet(ClearTransfer(s, p))
  {
    ClearTransferKeeps(s, p);
    assert Linked(s, p) && BlockOk(s, p);
    OnlyBlockCalm(s, ClearTransfer(s, p), p);
    if Quiet(s) {
      QuietMono(s, ClearTransfer(s, p));
    }
  }

  /** A block whose upload failed goes back to Cooking, still modified. */
  lemma CookFailed(s: State, p: Ptr)
    requires Base(s) && p in s.cooked && p in s.mem && p !in s.uploads && s.mem[p].failed
    ensures Base(Cook(s, p)) && Shuffled(s, Cook(s, p)) && Quiet(Cook(s, p))
  {
    assert Linked(s, p) && BlockOk(s, p);
    CookKeeps(s, p);
    OnlyBlockCalm(s, Cook(s, p), p);
  }

  /** A block whose upload went well can be given back. */
  lemma ForgetUploaded(s: State, p: Ptr)
    requires Base(s) && p in s.cooked && p in s.mem && p !in s.uploads && !s.mem[p].failed
    ensures !s.mem[p].dirty
    ensures Base(Forget(s, p)) && Shuffled(s, Forget(s, p))
    ensures Quiet(s) ==> Quiet(Forget(s, p))
  {
    assert Linked(s, p) && BlockOk(s, p);
    ForgetKeeps(s, p);
    ForgetCalm(s, p);
    if Quiet(s) {
      QuietMono(s, Forget(s, p));
    }
  }

  // ---------- Counting ----------

  function IdsOf(s: State, l: seq<Ptr>): (r: set<nat>)
    requires forall p | p in l :: p in s.mem
  {
    set p | p in l :: s.mem[p].id
  }

  lemma {:induction false} IdsOfSize(s: State, l: seq<Ptr>)
    requires NoDup(l) && forall p | p in l :: p in s.mem && s.mem[p].id in s.values && s.values[s.mem[p].id] == p
    ensures |IdsOf(s, l)| == |l|
  {
    if l != [] {
      assert NoDup(l[1..]) && l[0] !in l[1..];
      IdsOfSize(s, l[1..]);
      assert l == [l[0]] + l[1..];
      assert IdsOf(s, l) == IdsOf(s, l[1..]) + {s.mem[l[0]].id};
    }
  }

  function Below(n: nat): (r: set<nat>)
    ensures |r| == n && forall k: nat :: k in r <==> k < n
  {
    if n == 0 then {} else Below(n - 1) + {n - 1}
  }

  lemma {:induction false} SubsetSize(a: set<nat>, b: set<nat>)
    requires a <= b
    ensures |a| <= |b|
  {
    if a != {} {
      var x :| x in a;
      SubsetSize(a - {x}, b - {x});
    }
  }

  /** Indices are below MAX_BLOCKS, so a pass of MAX_BLOCKS steps sees every block. */
  lemma FewBlocks(s: State)
    requires Base(s)
    ensures |s.cooked| <= MAX_BLOCKS && |s.cooking| <= MAX_BLOCKS
  {
    forall p | Linked(s, p) ensures p in s.mem && s.mem[p].id in s.values && s.values[s.mem[p].id] == p && s.mem[p].id < MAX_BLOCKS {
      assert BlockOk(s, p);
    }
    forall p | p in s.cooked || p in s.cooking ensures Linked(s, p) {
    }
    ListBound(s, s.cooked);
    ListBound(s, s.cooking);
  }

  lemma ListBound(s: State, l: seq<Ptr>)
    requires NoDup(l)
    requires forall p | p in l :: p in s.mem && s.mem[p].id in s.values && s.values[s.mem[p].id] == p && s.mem[p].id < MAX_BLOCKS
    ensures |l| <= MAX_BLOCKS
  {
    IdsOfSize(s, l);
    SubsetSize(IdsOf(s, l), Below(MAX_BLOCKS));
  }

  // ---------- Passes over the lists ----------

  /** The first `i` blocks of Cooking are unmodified. */
  ghost predicate CleanPrefix(s: State, i: nat) {
    i <= |s.cooking| && forall j | 0 <= j < i :: s.cooking[j] in s.mem && !s.mem[s.cooking[j]].dirty
  }

  lemma CleanPrefixKept(s: State, t: State, i: nat)
    requires CleanPrefix(s, i) && Shuffled(s, t) && i < |s.cooking|
    requires t.cooking == s.cooking[..i] + s.cooking[i + 1..]
    ensures CleanPrefix(t, i)
  {
    forall j | 0 <= j < i ensures t.cooking[j] in t.mem && !t.mem[t.cooking[j]].dirty {
      assert ShuffledAt(s, t, s.cooking[j]);
    }
  }

  /** A block in Cooking has no upload pending. */
  lemma CookingBlock(s: State, p: Ptr)
    requires Base(s) && p in s.cooking
    ensures p in s.mem && p !in s.uploads && p !in s.cooked
    ensures s.mem[p].dirty ==> CanLineup(s, p)
  {
    assert Linked(s, p) && BlockOk(s, p);
  }

  /** The first `i` blocks of Cooked are uploaded. */
  ghost predicate UploadedPrefix(s: State, i: nat) {
    i <= |s.cooked| && forall j | 0 <= j < i ::
      s.cooked[j] in s.mem && !s.mem[s.cooked[j]].dirty && s.cooked[j] !in s.uploads
  }

  lemma UploadedPrefixKept(s: State, t: State, i: nat)
    requires Base(s) && UploadedPrefix(s, i) && Shuffled(s, t) && i < |s.cooked|
    requires t.cooked == s.cooked || t.cooked == s.cooked[..i] + s.cooked[i + 1..]
    requires t.mem.Keys == s.mem.Keys
    ensures UploadedPrefix(t, i)
  {
    forall j | 0 <= j < i
      ensures t.cooked[j] in t.mem && !t.mem[t.cooked[j]].dirty && t.cooked[j] !in t.uploads
    {
      var p := s.cooked[j];
      assert Linked(s, p) && BlockOk(s, p);
      assert ShuffledAt(s, t, p);
    }
  }

  /** Once all of Cooked is uploaded no upload is pending. */
  lemma AllUploaded(s: State)
    requires Base(s) && UploadedPrefix(s, |s.cooked|)
    ensures s.uploads == map[]
    ensures forall p | p in s.cooked :: p in s.mem && !s.mem[p].dirty
  {
    forall p: Ptr ensures p !in s.uploads {
      if p in s.uploads {
        UploadIsCooked(s, p);
      }
    }
  }

  lemma UploadIsCooked(s: State, p: Ptr)
    requires Base(s) && p in s.uploads
    ensures p in s.cooked
  {
    assert UploadIdOk(s, p) && BlockOk(s, p);
  }

  /** Nothing modified in either list and no upload pending. */
  lemma ListsClean(s: State)
    requires Base(s) && s.uploads == map[]
    requires forall p | p in s.cooked :: p in s.mem && !s.mem[p].dirty
    requires CleanPrefix(s, |s.cooking|)
    ensures NothingDirty(s)
  {
    forall k: nat ensures !DirtyAt(s, k) {
      if k in s.values {
        assert ValueOk(s, k);
        var p := s.values[k];
        assert p in s.cooking ==> exists j :: 0 <= j < |s.cooking| && s.cooking[j] == p;
      }
    }
  }

  /** With Cooking empty there is nothing to wait for. */
  lemma IdleLists(s: State)
    requires Base(s) && Quiet(s) && s.cooking == []
    ensures s.uploads == map[] && CleanPrefix(s, 0)
    ensures forall p | p in s.cooked :: p in s.mem && !s.mem[p].dirty
  {
    forall p | p in s.cooked ensures p in s.mem {
      assert Linked(s, p) && BlockOk(s, p);
    }
  }
}
