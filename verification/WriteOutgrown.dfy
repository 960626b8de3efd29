/** Which blocks a commit leaves cached: it reads back the blocks of the outgrown
    entries, in the order of the file and each in a buffer of its own. */
module WriteOutgrown {
  import opened Storage
  import opened Lists
  import opened WriteState
  import opened WriteSteps
  import opened WriteEdit
  import opened WriteCalm
  import opened WriteCommit
  import opened WriteList
  import opened WriteRestage
  import opened WriteFetch
  import opened WriteGuard

  /** With none outgrown the set of cached blocks stays the same. The last one that
      is outgrown is cached afterwards; all of them are if there are buffers enough. */
  ghost predicate CachesStale(s: State, t: State, room: nat) {
    && ((forall k: nat :: !Stale(s, k)) ==> t.values == s.values)
    && (forall k: nat | LastStale(s, k) :: k in t.values)
    && (Roomy(s, room) ==> forall k: nat | Stale(s, k) && !DirtyAt(s, k) :: k in t.values)
  }

  ghost predicate LastStale(s: State, k: nat) {
    Stale(s, k) && !DirtyAt(s, k) && forall j: nat | Stale(s, j) :: j <= k
  }

  function Outgrown(s: State): set<nat> {
    set k | k in s.blockList && Stale(s, k)
  }

  predicate Roomy(s: State, room: nat) {
    |s.values| + |Outgrown(s)| <= room
  }

  // ---------- As many buffers as cached blocks ----------

  lemma {:induction false} CountKeys(l: seq<Ptr>, mem: map<Ptr, Block>, values: map<nat, Ptr>)
    requires NoDup(l) && (forall p | p in l :: p in mem && mem[p].id in values && values[mem[p].id] == p)
    requires forall k | k in values :: values[k] in l && mem[values[k]].id == k
    ensures |l| == |values|
  {
    if l == [] {
      assert values.Keys == {};
    } else {
      var p := l[0];
      var k := mem[p].id;
      HeadOnce(l);
      assert values.Keys == (values - {k}).Keys + {k};
      CountKeys(l[1..], mem, values - {k});
    }
  }

  lemma HeadOnce(l: seq<Ptr>)
    requires l != [] && NoDup(l)
    ensures NoDup(l[1..]) && l[0] !in l[1..] && forall p :: p in l <==> p == l[0] || p in l[1..]
  {
    assert l == [l[0]] + l[1..];
  }

  lemma JoinNoDup(a: seq<Ptr>, b: seq<Ptr>)
    requires NoDup(a) && NoDup(b) && forall p | p in a :: p !in b
    ensures NoDup(a + b)
  {
    var l := a + b;
    forall i, j | 0 <= i < j < |l| ensures l[i] != l[j] {
      if i < |a| <= j {
        assert l[i] in a && l[j] == b[j - |a|];
      }
    }
  }

  lemma CachedCount(s: State)
    requires Base(s)
    ensures |s.cooked| + |s.cooking| == |s.values|
  {
    var l := s.cooked + s.cooking;
    forall p | p in l ensures p in s.mem && s.mem[p].id in s.values && s.values[s.mem[p].id] == p && !(p in s.cooked && p in s.cooking) {
      assert Linked(s, p) && BlockOk(s, p);
    }
    forall k | k in s.values ensures s.values[k] in l && s.mem[s.values[k]].id == k {
      assert ValueOk(s, k);
    }
    JoinNoDup(s.cooked, s.cooking);
    CountKeys(l, s.mem, s.values);
  }

  // ---------- The restage pass ----------

  /** `r` blocks of `keys` have been read back since `v`. */
  ghost predicate Gathered(v: State, w: State, keys: seq<nat>, r: nat, room: nat)
    requires r <= |keys|
  {
    && (r > 0 ==> keys[r - 1] in w.values)
    && (|v.cooked| + |v.cooking| + |keys| <= room ==>
          |w.cooked| + |w.cooking| <= |v.cooked| + |v.cooking| + r && forall i | 0 <= i < r :: keys[i] in w.values)
  }

  lemma GatheredStart(v: State, keys: seq<nat>, room: nat)
    ensures Gathered(v, v, keys, 0, room)
  {
  }

  lemma GatheredStep(v: State, w: State, z: State, keys: seq<nat>, r: nat, room: nat, p: Ptr)
    requires r < |keys| && Gathered(v, w, keys, r, room) && p in z.mem
    requires Got(w, z, keys[r], room) && keys[r] in z.values && keys[r] in w.blockList && w.blockList[keys[r]].committed
    ensures Gathered(v, MarkDirty(z, p), keys, r + 1, room)
  {
    MarkedShape(z, p);
    hide MarkDirty;
    assert MarkDirty(z, p).cooked == z.cooked && MarkDirty(z, p).cooking == z.cooking by { MarkedLists(z, p); }
    if |v.cooked| + |v.cooking| + |keys| <= room {
      forall i | 0 <= i < r + 1 ensures keys[i] in z.values {
        if i < r {
          assert keys[i] in w.values;
        }
      }
    }
  }

  lemma MarkedLists(z: State, p: Ptr)
    requires p in z.mem
    ensures MarkDirty(z, p).cooked == z.cooked && MarkDirty(z, p).cooking == z.cooking
  {
  }

  // ---------- The commit ----------

  /** Staging and completing the list keep an outgrown entry outgrown. */
  lemma StaleStays(s: State, t: State, u: State, k: nat)
    requires Stale(s, k) && !DirtyAt(s, k) && Calm(s, t) && Tame(t, u) && KeepsEntries(t, u) && NothingDirty(u)
    ensures Stale(u, k)
  {
    assert CalmAt(s, t, k) && !DirtyAt(u, k);
  }

  lemma AllStays(s: State, t: State, u: State)
    requires Calm(s, t) && Tame(t, u) && KeepsEntries(t, u) && NothingDirty(u)
    ensures forall k: nat :: Stale(s, k) && !DirtyAt(s, k) ==> Stale(u, k) && !DirtyAt(u, k)
  {
    forall k: nat | Stale(s, k) && !DirtyAt(s, k) ensures Stale(u, k) && !DirtyAt(u, k) {
      StaleStays(s, t, u, k);
    }
  }

  lemma {:induction false} Distinct(keys: seq<nat>, all: set<nat>)
    requires forall i, j | 0 <= i < j < |keys| :: keys[i] < keys[j]
    requires forall i | 0 <= i < |keys| :: keys[i] in all
    ensures |keys| <= |all|
  {
    if keys != [] {
      var k := keys[|keys| - 1];
      Distinct(keys[..|keys| - 1], all - {k});
    }
  }

  /** After the restage pass: `v` before it, `w` after it, `z` after the second
      commit, which finds nothing outgrown. */
  lemma StaleIsCached(u: State, v: State, w: State, z: State, restage: seq<Id>, n: nat, fillers: map<nat, Id>, room: nat)
    requires ListResultFacts(u, restage, n, fillers) && restage != [] && v.values == u.values && Base(v)
    requires Gathered(v, w, FillerKeys(fillers, n), |restage|, room)
    requires CachesStale(w, z, room) && forall k: nat :: !Stale(w, k)
    ensures CachesStale(u, z, room)
  {
    hide Stale, Base, FillerKeys;
    var keys := FillerKeys(fillers, n);
    CachedCount(v);
    forall k: nat | LastStale(u, k) ensures k in z.values {
      LastKey(u, keys, fillers, n, k);
    }
    if Roomy(u, room) {
      StaleBlocks(u, keys, fillers, n);
      forall k: nat | Stale(u, k) && !DirtyAt(u, k) ensures k in z.values {
        assert k in fillers && k in keys;
      }
    }
    SomeStale(u, keys, fillers, n);
  }

  lemma SomeStale(u: State, keys: seq<nat>, fillers: map<nat, Id>, n: nat)
    requires KeysOf(fillers, keys, n) && (forall k: nat :: k in fillers <==> Stale(u, k)) && keys != []
    ensures exists k: nat :: Stale(u, k)
  {
    assert Stale(u, keys[0]);
  }

  lemma StaleBlocks(u: State, keys: seq<nat>, fillers: map<nat, Id>, n: nat)
    requires KeysOf(fillers, keys, n) && forall k: nat :: k in fillers <==> Stale(u, k)
    ensures |keys| <= |Outgrown(u)|
  {
    forall i | 0 <= i < |keys| ensures keys[i] in Outgrown(u) {
      assert Stale(u, keys[i]);
    }
    Distinct(keys, Outgrown(u));
  }

  lemma LastKey(u: State, keys: seq<nat>, fillers: map<nat, Id>, n: nat, k: nat)
    requires KeysOf(fillers, keys, n) && (forall k: nat :: k in fillers <==> Stale(u, k)) && LastStale(u, k)
    ensures keys != [] && keys[|keys| - 1] == k
  {
    hide Stale;
    assert k in fillers && k in keys;
    var last := keys[|keys| - 1];
    assert Stale(u, last);
    var i :| 0 <= i < |keys| && keys[i] == k;
    LastIsLargest(keys, i);
  }

  lemma LastIsLargest(keys: seq<nat>, i: nat)
    requires (forall i, j | 0 <= i < j < |keys| :: keys[i] < keys[j]) && i < |keys|
    ensures keys[i] <= keys[|keys| - 1]
  {
  }

  /** No outgrown entry, nothing newly cached. */
  lemma NoneIsCached(u: State, z: State, restage: seq<Id>, n: nat, fillers: map<nat, Id>, room: nat)
    requires ListResultFacts(u, restage, n, fillers) && restage == [] && z.values == u.values
    ensures CachesStale(u, z, room)
  {
    assert fillers == map[];
    assert forall k: nat :: !Stale(u, k);
  }

  lemma CachesStaleBefore(s: State, t: State, u: State, z: State, restage: seq<Id>, n: nat, fillers: map<nat, Id>, room: nat)
    requires Calm(s, t) && Tame(t, u) && KeepsEntries(t, u) && ListResultFacts(u, restage, n, fillers)
    requires CachesStale(u, z, room) && u.values == s.values
    ensures CachesStale(s, z, room)
  {
    FewerStale(s, t, u);
    AllStays(s, t, u);
    hide Stale, Calm, Tame, KeepsEntries, Outgrown, DirtyAt;
    forall k: nat | LastStale(s, k) ensures k in z.values {
      assert LastStale(u, k);
    }
  }

  lemma FewerStale(s: State, t: State, u: State)
    requires Calm(s, t) && Tame(t, u)
    ensures forall j: nat :: Stale(u, j) ==> Stale(s, j)
    ensures |Outgrown(u)| <= |Outgrown(s)|
  {
    forall j: nat ensures Stale(u, j) ==> Stale(s, j) {
      assert TameAt(t, u, j) && CalmAt(s, t, j);
    }
    Subset(Outgrown(u), Outgrown(s));
  }

  lemma {:induction false} Subset(a: set<nat>, b: set<nat>)
    requires a <= b
    ensures |a| <= |b|
  {
    if a != {} {
      var k :| k in a;
      Subset(a - {k}, b - {k});
    }
  }

  ghost predicate ListResultFacts(u: State, restage: seq<Id>, n: nat, fillers: map<nat, Id>) {
    && NothingDirty(u)
    && (forall k: nat :: k in fillers <==> Stale(u, k))
    && (forall k | k in fillers :: k < n)
    && KeysOf(fillers, FillerKeys(fillers, n), n)
    && |restage| == |FillerKeys(fillers, n)|
  }

  lemma ListFacts(u: State, ids: seq<Id>, restage: seq<Id>, n: nat, fillers: map<nat, Id>, x: nat)
    requires ListResult(u, ids, restage, n, fillers, x)
    ensures ListResultFacts(u, restage, n, fillers)
  {
    StaleListed(u, n, fillers);
    FillerKeysOf(fillers, n);
  }

  lemma RestageHappened(s: State, u: State, restage: seq<Id>, n: nat, fillers: map<nat, Id>)
    requires Tame(s, u) && ListResultFacts(u, restage, n, fillers) && restage != []
    ensures exists k: nat :: Stale(s, k)
  {
    RestageNonEmpty(s, u, restage, n, fillers);
  }
}
