/** The attribute cache: a map from paths to nodes, and a tree of parent and
    child pointers over the same nodes. */
module AttrTree {

  type Name = string
  type Path = seq<Name>
  type Ref = nat

  datatype Option<T> = None | Some(value: T)

  /** What a node records besides its place: size, mode and times. */
  datatype Attrs = Attrs(size: nat, mode: nat, mtime: int, ctime: int)

  datatype Item = Item(
    path: Path, isDir: bool, attrs: Attrs, cachedAt: int,
    valid: bool, flagExists: bool, notInCloud: bool,
    children: map<Name, Ref>, parent: Option<Ref>)

  /** Nodes are heap objects named by a `Ref`; `next` is the first unused one. */
  datatype Cache = Cache(heap: map<Ref, Item>, cacheMap: map<Path, Ref>, next: Ref)

  predicate Exists(i: Item) {
    i.valid && i.flagExists
  }

  /** Files always are in the cloud, directories unless they are flagged. */
  predicate InCloud(i: Item) {
    !i.isDir || !i.notInCloud
  }

  function Up(p: Path): Path {
    if p == [] then [] else p[..|p| - 1]
  }

  function Last(p: Path): Name
    requires p != []
  {
    p[|p| - 1]
  }

  function NewItem(path: Path, isDir: bool, attrs: Attrs, present: bool, at: int): Item {
    Item(path, isDir, attrs, at, true, present, false, map[], None)
  }

  /** What the cache knows about a directory it creates itself. */
  const DIR_ATTRS := Attrs(4096, 0, 0, 0)

  // ---------- Invariant ----------

  predicate Mapped(s: Cache, k: Path) {
    k in s.cacheMap && s.cacheMap[k] in s.heap
  }

  function Node(s: Cache, k: Path): Item
    requires Mapped(s, k)
  {
    s.heap[s.cacheMap[k]]
  }

  ghost predicate NodeOk(s: Cache, k: Path) {
    Mapped(s, k) && Node(s, k).path == k
  }

  /** A child edge of a mapped node leads to the node mapped at the child's
      path, whose parent pointer leads back; a child exists only if its parent does. */
  ghost predicate EdgeOk(s: Cache, k: Path, n: Name)
    requires Mapped(s, k)
  {
    n in Node(s, k).children ==>
      && Mapped(s, k + [n])
      && s.cacheMap[k + [n]] == Node(s, k).children[n]
      && Node(s, k + [n]).parent == Some(s.cacheMap[k])
      && (Exists(Node(s, k + [n])) ==> Exists(Node(s, k)))
  }

  /** A parent pointer leads to a node at the parent's path. */
  ghost predicate ParentOk(s: Cache, r: Ref) {
    r in s.heap && (s.heap[r].parent.Some? ==>
      s.heap[r].parent.value in s.heap && s.heap[r].path != [] && s.heap[s.heap[r].parent.value].path == Up(s.heap[r].path))
  }

  ghost predicate Nodes(s: Cache) {
    && (forall k {:trigger NodeOk(s, k)} {:trigger Mapped(s, k)} | k in s.cacheMap :: NodeOk(s, k))
    && (forall r {:trigger ParentOk(s, r)} | r in s.heap :: ParentOk(s, r))
    && (forall r | r in s.heap :: r < s.next)
  }

  ghost predicate Tree(s: Cache) {
    && Nodes(s)
    && Mapped(s, []) && Exists(Node(s, []))
    && (forall k, n {:trigger EdgeOk(s, k, n)} | Mapped(s, k) :: EdgeOk(s, k, n))
  }

  /** No two paths share a node. */
  lemma DistinctNodes(s: Cache, j: Path, k: Path)
    requires Nodes(s) && Mapped(s, j) && Mapped(s, k) && j != k
    ensures s.cacheMap[j] != s.cacheMap[k]
  {
    assert NodeOk(s, j) && NodeOk(s, k);
  }

  ghost function MaxLen(keys: set<Path>): (n: nat)
    ensures forall k | k in keys :: |k| <= n
  {
    if keys == {} then 0
    else
      var k :| k in keys;
      var n := MaxLen(keys - {k});
      if n < |k| then |k| else n
  }

  // ---------- Linked paths ----------

  /** The parent of `k` has it as a child. */
  predicate Edge(s: Cache, k: Path) {
    k != [] && Mapped(s, k) && Mapped(s, Up(k)) && Last(k) in Node(s, Up(k)).children
  }

  /** `k` can be reached from `p` along child edges. */
  predicate Linked(s: Cache, p: Path, k: Path)
    decreases |k|
  {
    Mapped(s, k) && (k == p || (k != [] && Edge(s, k) && Linked(s, p, Up(k))))
  }

  lemma {:induction false} LinkedPrefix(s: Cache, p: Path, k: Path)
    requires Linked(s, p, k)
    ensures p <= k && Mapped(s, p)
    decreases |k|
  {
    if k != p {
      LinkedPrefix(s, p, Up(k));
      assert k == Up(k) + [Last(k)];
    }
  }

  /** A path below `p` leaves it through one of its children. */
  lemma {:induction false} LinkedFirst(s: Cache, p: Path, k: Path)
    requires Linked(s, p, k) && k != p
    ensures |p| < |k| && p <= k && Mapped(s, p) && k[|p|] in Node(s, p).children
    ensures Linked(s, p + [k[|p|]], k)
    decreases |k|
  {
    LinkedPrefix(s, p, k);
    assert k == Up(k) + [Last(k)];
    if Up(k) == p {
      assert k == p + [k[|p|]];
    } else {
      LinkedFirst(s, p, Up(k));
      assert Up(k)[|p|] == k[|p|];
    }
  }

  lemma {:induction false} LinkedTrans(s: Cache, p: Path, q: Path, k: Path)
    requires Linked(s, p, q) && Linked(s, q, k)
    ensures Linked(s, p, k)
    decreases |k|
  {
    if k != q {
      LinkedTrans(s, p, q, Up(k));
    }
  }

  lemma LinkedChild(s: Cache, p: Path, n: Name)
    requires Tree(s) && Mapped(s, p) && n in Node(s, p).children
    ensures Mapped(s, p + [n]) && Edge(s, p + [n]) && Linked(s, p, p + [n])
    ensures s.cacheMap[p + [n]] == Node(s, p).children[n]
  {
    assert EdgeOk(s, p, n);
    assert Up(p + [n]) == p && Last(p + [n]) == n;
    assert Linked(s, p, p);
  }

  /** Nothing that can be reached from a node exists unless the node does. */
  lemma {:induction false} ExistsUp(s: Cache, p: Path, k: Path)
    requires Tree(s) && Linked(s, p, k) && Exists(Node(s, k))
    ensures Mapped(s, p) && Exists(Node(s, p))
    decreases |k|
  {
    if k != p {
      assert EdgeOk(s, Up(k), Last(k));
      assert k == Up(k) + [Last(k)];
      ExistsUp(s, p, Up(k));
    }
  }

  /** What is linked depends on the map and the child pointers only. */
  ghost predicate SameShape(s: Cache, t: Cache) {
    && t.cacheMap == s.cacheMap && t.next == s.next && t.heap.Keys == s.heap.Keys
    && forall r {:trigger SameItem(s, t, r)} | r in s.heap :: SameItem(s, t, r)
  }

  /** Only flags, time stamps and attributes of the node differ. */
  ghost predicate SameItem(s: Cache, t: Cache, r: Ref) {
    && r in s.heap && r in t.heap
    && t.heap[r].path == s.heap[r].path && t.heap[r].isDir == s.heap[r].isDir
    && t.heap[r].children == s.heap[r].children && t.heap[r].parent == s.heap[r].parent
  }

  lemma {:induction false} SameLinked(s: Cache, t: Cache, p: Path, k: Path)
    requires SameShape(s, t)
    ensures Linked(t, p, k) <==> Linked(s, p, k)
    decreases |k|
  {
    if Mapped(s, k) && k != [] {
      SameLinked(s, t, p, Up(k));
      if Mapped(s, Up(k)) {
        assert SameItem(s, t, s.cacheMap[Up(k)]);
      }
    }
  }

  lemma ShapeRefl(s: Cache)
    ensures SameShape(s, s)
  {
  }

  lemma ShapeTrans(s: Cache, t: Cache, u: Cache)
    requires SameShape(s, t) && SameShape(t, u)
    ensures SameShape(s, u)
  {
    forall r | r in s.heap ensures SameItem(s, u, r) {
      assert SameItem(s, t, r) && SameItem(t, u, r);
    }
  }

  /** Changing flags keeps the tree if the root stays and no child outlives its parent. */
  lemma ShapeTree(s: Cache, t: Cache)
    requires Tree(s) && SameShape(s, t)
    requires Exists(t.heap[s.cacheMap[[]]])
    requires forall k, n {:trigger EdgeOk(s, k, n)} | Mapped(s, k) && n in Node(s, k).children && Mapped(s, k + [n])
               && Exists(t.heap[s.cacheMap[k + [n]]]) :: Exists(t.heap[s.cacheMap[k]])
    ensures Tree(t)
  {
    forall k | k in t.cacheMap ensures NodeOk(t, k) {
      assert NodeOk(s, k) && SameItem(s, t, s.cacheMap[k]);
    }
    forall r | r in t.heap ensures ParentOk(t, r) {
      assert ParentOk(s, r) && SameItem(s, t, r);
      assert s.heap[r].parent.Some? ==> SameItem(s, t, s.heap[r].parent.value);
    }
    forall k, n | Mapped(t, k) ensures EdgeOk(t, k, n) {
      assert Mapped(s, k) && EdgeOk(s, k, n) && SameItem(s, t, s.cacheMap[k]);
      if n in Node(s, k).children {
        assert SameItem(s, t, s.cacheMap[k + [n]]);
      }
    }
  }
}
