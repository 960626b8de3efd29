/** Removing expired nodes from the cache. */
module AttrEvict {
  import opened AttrTree
  import opened AttrInvalid

  predicate Expired(i: Item, now: int, timeout: nat) {
    now - i.cachedAt >= timeout
  }

  /** A node leaves its parent's children and the map. */
  function Evict(s: Cache, k: Path): Cache
    requires Mapped(s, k) && k != []
  {
    var item := Node(s, k);
    var heap := s.heap[s.cacheMap[k] := if Exists(item) then item.(valid := false) else item];
    s.(heap := if item.parent.Some? && item.parent.value in heap
               then heap[item.parent.value := heap[item.parent.value].(children := heap[item.parent.value].children - {Last(k)})]
               else heap,
       cacheMap := s.cacheMap - {k})
  }

  /** Invalidating a node without children invalidates just that node. */
  lemma Childless(s: Cache, k: Path)
    requires Tree(s) && Mapped(s, k) && Node(s, k).children == map[] && Exists(Node(s, k))
    ensures Invalidate(s, ValidSubtree(s, k)).heap == s.heap[s.cacheMap[k] := Node(s, k).(valid := false)]
  {
    ValidSubtreeBranches(s, k);
    assert ValidBranches(s, k, {}) == {};
    assert ValidSubtree(s, k) == {s.cacheMap[k]};
  }

  lemma EvictNode(s: Cache, k: Path, j: Path)
    requires Tree(s) && Mapped(s, k) && k != [] && Node(s, k).children == map[]
    requires Mapped(s, j) && j != k
    ensures var t := Evict(s, k);
            && Mapped(t, j) && t.cacheMap[j] == s.cacheMap[j]
            && Node(t, j) == (if Node(s, k).parent == Some(s.cacheMap[j]) then Node(s, j).(children := Node(s, j).children - {Last(k)}) else Node(s, j))
            && (Node(s, k).parent == Some(s.cacheMap[j]) ==> j == Up(k))
  {
    DistinctNodes(s, j, k);
    assert ParentOk(s, s.cacheMap[k]) && NodeOk(s, k) && NodeOk(s, j);
  }

  /** Evicting a node without children keeps the tree. */
  lemma EvictTree(s: Cache, k: Path)
    requires Tree(s) && Mapped(s, k) && k != [] && Node(s, k).children == map[]
    ensures Tree(Evict(s, k))
  {
    var t := Evict(s, k);
    assert Mapped(t, []) && Exists(Node(t, [])) by {
      EvictNode(s, k, []);
    }
    forall j | j in t.cacheMap ensures NodeOk(t, j) {
      assert NodeOk(s, j);
      EvictNode(s, k, j);
    }
    forall r | r in t.heap ensures ParentOk(t, r) {
      assert ParentOk(s, r);
    }
    forall j, n | Mapped(t, j) ensures EdgeOk(t, j, n) {
      EvictEdge(s, k, j, n);
    }
  }

  lemma EvictEdge(s: Cache, k: Path, j: Path, n: Name)
    requires Tree(s) && Mapped(s, k) && k != [] && Node(s, k).children == map[]
    requires Mapped(Evict(s, k), j)
    ensures EdgeOk(Evict(s, k), j, n)
  {
    assert NodeOk(s, j) && EdgeOk(s, j, n);
    EvictNode(s, k, j);
    if n in Node(s, j).children {
      if j + [n] == k {
        assert Last(k) == n;
      } else {
        EvictNode(s, k, j + [n]);
      }
    }
  }

  /** No key comes before one of its descendants. */
  ghost predicate DeepestFirst(keys: seq<Path>) {
    forall i, j | 0 <= i < j < |keys| :: !(keys[i] <= keys[j])
  }

  /** A key that has been dealt with is gone, not expired, or has children. */
  ghost predicate SweptAt(t: Cache, k: Path, now: int, timeout: nat) {
    Mapped(t, k) && Expired(Node(t, k), now, timeout) ==> Node(t, k).children != map[]
  }

  /** Only expired keys are removed; what stays keeps its node and time stamp. */
  ghost predicate SweepAt(s: Cache, t: Cache, keys: seq<Path>, now: int, timeout: nat, k: Path)
    requires Mapped(s, k)
  {
    && (Mapped(t, k) ==> t.cacheMap[k] == s.cacheMap[k] && Node(t, k).cachedAt == Node(s, k).cachedAt
                         && (Exists(Node(t, k)) <==> Exists(Node(s, k))))
    && (Mapped(t, k) ==> Node(t, k).children.Keys <= Node(s, k).children.Keys)
    && (!Mapped(t, k) ==> k in keys && Expired(Node(s, k), now, timeout))
  }

  /** A child that stays keeps its place below its parent. */
  ghost predicate EdgesKept(s: Cache, t: Cache) {
    forall k {:trigger Edge(s, k)} | Edge(s, k) && Mapped(t, k) :: Edge(t, k)
  }

  ghost predicate Sweep(s: Cache, t: Cache, keys: seq<Path>, now: int, timeout: nat, done: nat)
    requires done <= |keys|
  {
    && Tree(s) && Tree(t) && EdgesKept(s, t)
    && (forall k | k in t.cacheMap :: k in s.cacheMap)
    && (forall k {:trigger SweepAt(s, t, keys, now, timeout, k)} | Mapped(s, k) :: SweepAt(s, t, keys, now, timeout, k))
    && (forall i {:trigger SweptAt(t, keys[i], now, timeout)} | 0 <= i < done :: SweptAt(t, keys[i], now, timeout))
  }

  lemma SweepNone(s: Cache, keys: seq<Path>, now: int, timeout: nat)
    requires Tree(s)
    ensures Sweep(s, s, keys, now, timeout, 0)
  {
  }

  lemma SweepSkip(s: Cache, t: Cache, keys: seq<Path>, now: int, timeout: nat, i: nat)
    requires i < |keys| && Sweep(s, t, keys, now, timeout, i)
    requires keys[i] in t.cacheMap && Mapped(t, keys[i]) && Node(t, keys[i]).children == map[] ==> !Expired(Node(t, keys[i]), now, timeout)
    ensures Sweep(s, t, keys, now, timeout, i + 1)
  {
    assert SweptAt(t, keys[i], now, timeout);
  }

  lemma SweepEvict(s: Cache, t: Cache, keys: seq<Path>, now: int, timeout: nat, i: nat)
    requires i < |keys| && Sweep(s, t, keys, now, timeout, i) && DeepestFirst(keys) && keys[i] != []
    requires Mapped(t, keys[i]) && Node(t, keys[i]).children == map[] && Expired(Node(t, keys[i]), now, timeout)
    ensures Sweep(s, Evict(t, keys[i]), keys, now, timeout, i + 1)
  {
    var k, u := keys[i], Evict(t, keys[i]);
    EvictTree(t, k);
    forall j | Mapped(s, j) ensures SweepAt(s, u, keys, now, timeout, j) {
      assert SweepAt(s, t, keys, now, timeout, j);
      if Mapped(t, j) && j != k {
        EvictNode(t, k, j);
      }
      assert NodeOk(s, j);
    }
    EvictEdges(s, t, k);
    forall h | 0 <= h < i + 1 ensures SweptAt(u, keys[h], now, timeout) {
      if h < i && Mapped(u, keys[h]) {
        assert SweptAt(t, keys[h], now, timeout) && NodeOk(u, keys[h]);
        EvictNode(t, k, keys[h]);
        assert k == Up(k) + [Last(k)];
      }
    }
  }

  lemma EvictEdges(s: Cache, t: Cache, k: Path)
    requires EdgesKept(s, t) && Tree(t) && Mapped(t, k) && k != [] && Node(t, k).children == map[]
    ensures EdgesKept(s, Evict(t, k))
  {
    var u := Evict(t, k);
    forall j | Edge(s, j) && Mapped(u, j) ensures Edge(u, j) {
      EvictNode(t, k, Up(j));
      assert j == Up(j) + [Last(j)] && k == Up(k) + [Last(k)];
    }
  }

  /** After the sweep an expired key is still there only because of something
      below it that is not expired, or that was not collected. */
  lemma {:induction false} ExpiredGuardsUnexpired(s: Cache, t: Cache, keys: seq<Path>, now: int, timeout: nat, i: nat, bound: nat) returns (k: Path)
    requires Sweep(s, t, keys, now, timeout, |keys|) && i < |keys| && Mapped(t, keys[i])
    requires forall j | j in t.cacheMap :: |j| <= bound
    ensures Linked(t, keys[i], k) && (k !in keys || !Expired(Node(t, k), now, timeout))
    decreases bound - |keys[i]|
  {
    k := keys[i];
    if Expired(Node(t, k), now, timeout) {
      assert SweptAt(t, keys[i], now, timeout);
      var n :| n in Node(t, k).children;
      LinkedChild(t, k, n);
      var c := k + [n];
      k := c;
      if c in keys {
        var j :| 0 <= j < |keys| && keys[j] == c;
        k := ExpiredGuardsUnexpired(s, t, keys, now, timeout, j, bound);
        LinkedTrans(t, keys[i], c, k);
      }
    }
  }

  lemma SweptTree(s: Cache, t: Cache, keys: seq<Path>, now: int, timeout: nat)
    requires Sweep(s, t, keys, now, timeout, |keys|)
    ensures Tree(t) && forall k | k in t.cacheMap :: k in s.cacheMap
  {
  }

  // ---------- The whole cleanup ----------

  /** Something reachable from `k`, or `k` itself, is not expired. */
  ghost predicate Guarded(s: Cache, k: Path, now: int, timeout: nat) {
    exists d :: Guards(s, k, d, now, timeout)
  }

  ghost predicate Guards(s: Cache, k: Path, d: Path, now: int, timeout: nat) {
    Linked(s, k, d) && !Expired(Node(s, d), now, timeout)
  }

  /** The keys that were expired when they were collected. */
  ghost predicate Collected(s: Cache, keys: seq<Path>, now: int, timeout: nat) {
    forall k :: k in keys <==> Mapped(s, k) && k != [] && Expired(Node(s, k), now, timeout)
  }

  /** Removing what was collected, which is expired later too, removes exactly the
      nodes from which nothing unexpired can be reached. */
  lemma SweptIff(s: Cache, t: Cache, keys: seq<Path>, now: int, later: int, timeout: nat, k: Path)
    requires Sweep(s, t, keys, later, timeout, |keys|) && Collected(s, keys, now, timeout) && now <= later
    requires Mapped(s, k)
    ensures Mapped(t, k) <==> k == [] || Guarded(s, k, now, timeout)
  {
    assert SweepAt(s, t, keys, later, timeout, k);
    if Mapped(t, k) && k != [] {
      GuardLeft(s, t, keys, now, later, timeout, k);
    }
    if Guarded(s, k, now, timeout) {
      var d :| Guards(s, k, d, now, timeout);
      assert SweepAt(s, t, keys, later, timeout, d);
      LinkedKept(s, t, k, d);
    }
  }

  lemma {:induction false} LinkedKept(s: Cache, t: Cache, k: Path, d: Path)
    requires EdgesKept(s, t) && Linked(s, k, d) && Mapped(t, d)
    ensures Mapped(t, k)
    decreases |d|
  {
    if d != k {
      LinkedKept(s, t, k, Up(d));
    }
  }

  lemma {:induction false} LinkedBefore(s: Cache, t: Cache, keys: seq<Path>, now: int, timeout: nat, k: Path, d: Path)
    requires Sweep(s, t, keys, now, timeout, |keys|) && Linked(t, k, d)
    ensures Linked(s, k, d)
    decreases |d|
  {
    assert NodeOk(s, d);
    if d != k {
      LinkedBefore(s, t, keys, now, timeout, k, Up(d));
      assert SweepAt(s, t, keys, now, timeout, Up(d));
    }
  }

  lemma GuardLeft(s: Cache, t: Cache, keys: seq<Path>, now: int, later: int, timeout: nat, k: Path)
    requires Sweep(s, t, keys, later, timeout, |keys|) && Collected(s, keys, now, timeout) && now <= later
    requires Mapped(s, k) && Mapped(t, k) && k != []
    ensures Guarded(s, k, now, timeout)
  {
    if Expired(Node(s, k), now, timeout) {
      var i :| 0 <= i < |keys| && keys[i] == k;
      var d := ExpiredGuardsUnexpired(s, t, keys, later, timeout, i, MaxLen(t.cacheMap.Keys));
      LinkedBefore(s, t, keys, later, timeout, k, d);
      LinkedPrefix(s, k, d);
      assert SweepAt(s, t, keys, later, timeout, d);
      assert Guards(s, k, d, now, timeout);
    } else {
      assert Linked(s, k, k);
      assert Guards(s, k, k, now, timeout);
    }
  }
}
