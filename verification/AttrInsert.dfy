/** Inserting a node: missing or deleted ancestors are created on the way up. */
module AttrInsert {
  import opened AttrTree

  /** A new heap object. */
  function Alloc(s: Cache, item: Item): Cache {
    s.(heap := s.heap[s.next := item], next := s.next + 1)
  }

  /** Hang a node under the node mapped at its parent's path, and map it. */
  function Attach(s: Cache, r: Ref): Cache
    requires r in s.heap && s.heap[r].path != [] && Mapped(s, Up(s.heap[r].path))
  {
    var item, q := s.heap[r], s.cacheMap[Up(s.heap[r].path)];
    var heap := s.heap[r := item.(parent := Some(q))];
    s.(heap := heap[q := heap[q].(children := heap[q].children[Last(item.path) := r])],
       cacheMap := s.cacheMap[item.path := r])
  }

  ghost predicate Unmapped(s: Cache, x: Ref) {
    x in s.heap && forall k {:trigger Mapped(s, k)} | Mapped(s, k) :: s.cacheMap[k] != x
  }

  /** A node that is not in the map yet and has no children. */
  ghost predicate Loose(s: Cache, r: Ref) {
    && Unmapped(s, r) && s.heap[r].path != [] && s.heap[r].children == map[]
  }

  lemma AllocTree(s: Cache, item: Item)
    requires Tree(s) && item.parent == None
    ensures Tree(Alloc(s, item)) && Alloc(s, item).heap[s.next] == item
    ensures item.path != [] && item.children == map[] ==> Loose(Alloc(s, item), s.next)
  {
    var t := Alloc(s, item);
    forall k | k in t.cacheMap ensures NodeOk(t, k) && t.cacheMap[k] != s.next {
      assert NodeOk(s, k);
    }
    forall r | r in t.heap ensures ParentOk(t, r) {
      assert r != s.next ==> ParentOk(s, r);
    }
    forall k, n | Mapped(t, k) ensures EdgeOk(t, k, n) {
      assert NodeOk(s, k) && EdgeOk(s, k, n);
    }
  }

  lemma AttachTree(s: Cache, r: Ref)
    requires Tree(s) && Loose(s, r) && Mapped(s, Up(s.heap[r].path))
    requires Exists(s.heap[r]) ==> Exists(Node(s, Up(s.heap[r].path)))
    ensures Tree(Attach(s, r))
  {
    var t, path := Attach(s, r), s.heap[r].path;
    AttachNodes(s, r);
    forall k, n | Mapped(t, k) ensures EdgeOk(t, k, n) {
      AttachEdge(s, r, k, n);
    }
  }

  lemma AttachNodes(s: Cache, r: Ref)
    requires Tree(s) && Loose(s, r) && Mapped(s, Up(s.heap[r].path))
    ensures var t := Attach(s, r); Nodes(t) && Mapped(t, []) && Exists(Node(t, []))
    ensures var t := Attach(s, r); forall k | Mapped(t, k) && k != s.heap[r].path :: Mapped(s, k) && t.cacheMap[k] == s.cacheMap[k]
    ensures var t := Attach(s, r); forall k | Mapped(t, k) && k != s.heap[r].path && k != Up(s.heap[r].path) :: Node(t, k) == Node(s, k)
  {
    var t, path := Attach(s, r), s.heap[r].path;
    forall k | k in t.cacheMap ensures NodeOk(t, k) {
      assert k != path ==> NodeOk(s, k);
    }
    AttachParents(s, r);
    forall k | Mapped(t, k) && k != path && k != Up(path) ensures Node(t, k) == Node(s, k) {
      DistinctNodes(s, k, Up(path));
    }
  }

  lemma AttachParents(s: Cache, r: Ref)
    requires Tree(s) && Loose(s, r) && Mapped(s, Up(s.heap[r].path))
    ensures forall x {:trigger ParentOk(Attach(s, r), x)} | x in Attach(s, r).heap :: ParentOk(Attach(s, r), x)
  {
    var t, path := Attach(s, r), s.heap[r].path;
    assert NodeOk(s, Up(path));
    forall x | x in t.heap ensures ParentOk(t, x) {
      assert ParentOk(s, x);
    }
  }

  lemma AttachEdge(s: Cache, r: Ref, k: Path, n: Name)
    requires Tree(s) && Loose(s, r) && Mapped(s, Up(s.heap[r].path))
    requires Exists(s.heap[r]) ==> Exists(Node(s, Up(s.heap[r].path)))
    requires Mapped(Attach(s, r), k)
    ensures EdgeOk(Attach(s, r), k, n)
  {
    var t, path := Attach(s, r), s.heap[r].path;
    AttachNodes(s, r);
    assert NodeOk(t, path);
    assert path == Up(path) + [Last(path)];
    if k != path {
      assert EdgeOk(s, k, n);
      if k + [n] == path {
        assert Up(k + [n]) == k && Last(k + [n]) == n;
      }
    }
  }

  // ---------- Insertion as a whole ----------

  /** An ancestor is good enough for `item` if it exists or `item` does not. */
  predicate Kept(s: Cache, item: Item, k: Path) {
    Mapped(s, k) && (Exists(Node(s, k)) || !Exists(item))
  }

  /** `m` is the length of the nearest ancestor's path that can be kept. */
  ghost predicate Nearest(s: Cache, item: Item, m: nat) {
    && m < |item.path| && Kept(s, item, item.path[..m])
    && forall j | m < j < |item.path| :: !Kept(s, item, item.path[..j])
  }

  /** Old paths keep their node; only the nearest kept ancestor gets a child. */
  ghost predicate OldAt(s: Cache, t: Cache, path: Path, m: nat, k: Path)
    requires m < |path|
  {
    Mapped(s, k) && !(|k| > m && k <= path) ==>
      && Mapped(t, k) && t.cacheMap[k] == s.cacheMap[k]
      && (k != path[..m] ==> Node(t, k) == Node(s, k))
      && (k == path[..m] && path[..m + 1] in t.cacheMap ==>
            Node(t, k) == Node(s, k).(children := Node(s, k).children[path[m] := t.cacheMap[path[..m + 1]]]))
  }

  /** Between them and the node, new directories replace what was there. */
  ghost predicate MadeAt(s: Cache, t: Cache, item: Item, j: nat)
    requires 0 < j < |item.path|
  {
    && Mapped(t, item.path[..j]) && t.cacheMap[item.path[..j]] !in s.heap
    && item.path[..j - 1] in t.cacheMap && item.path[..j + 1] in t.cacheMap
    && Node(t, item.path[..j]) ==
       NewItem(item.path[..j], true, DIR_ATTRS, Exists(item), item.cachedAt)
       .(children := map[item.path[j] := t.cacheMap[item.path[..j + 1]]], parent := Some(t.cacheMap[item.path[..j - 1]]))
  }

  /** Nodes outside the map stay as they are, outside. */
  ghost predicate AsideAt(s: Cache, t: Cache, r: Ref, x: Ref) {
    x != r && Unmapped(s, x) ==> Unmapped(t, x) && t.heap[x] == s.heap[x]
  }

  ghost predicate Inserts(s: Cache, t: Cache, r: Ref, m: nat)
    requires r in s.heap
  {
    var item := s.heap[r];
    && Nearest(s, item, m)
    && Mapped(t, item.path) && t.cacheMap[item.path] == r
    && Up(item.path) in t.cacheMap && t.heap[r] == item.(parent := Some(t.cacheMap[Up(item.path)]))
    && (forall k {:trigger Mapped(t, k)} :: k in t.cacheMap ==> k in s.cacheMap || (|k| > m && k <= item.path))
    && (forall k {:trigger OldAt(s, t, item.path, m, k)} :: OldAt(s, t, item.path, m, k))
    && (forall j {:trigger MadeAt(s, t, item, j)} | m < j < |item.path| :: MadeAt(s, t, item, j))
    && (forall x {:trigger AsideAt(s, t, r, x)} :: AsideAt(s, t, r, x))
    && s.heap.Keys <= t.heap.Keys
  }

  /** The parent is kept: the node is hung under it. */
  lemma InsertUnder(s: Cache, r: Ref)
    requires Tree(s) && Loose(s, r) && Kept(s, s.heap[r], Up(s.heap[r].path))
    ensures Inserts(s, Attach(s, r), r, |s.heap[r].path| - 1) && Tree(Attach(s, r))
  {
    var t, path, m := Attach(s, r), s.heap[r].path, |s.heap[r].path| - 1;
    AttachTree(s, r);
    AttachNodes(s, r);
    assert path[..m + 1] == path && path[..m] == Up(path);
    forall k: Path ensures OldAt(s, t, path, m, k) {
      UnderOld(s, r, k);
    }
    forall x ensures AsideAt(s, t, r, x) {
      AttachAside(s, r, x);
    }
  }

  lemma UnderOld(s: Cache, r: Ref, k: Path)
    requires Tree(s) && Loose(s, r) && Mapped(s, Up(s.heap[r].path))
    ensures OldAt(s, Attach(s, r), s.heap[r].path, |s.heap[r].path| - 1, k)
  {
    AttachNodes(s, r);
    var path, m := s.heap[r].path, |s.heap[r].path| - 1;
    assert path[..m + 1] == path && path[..m] == Up(path);
    if Mapped(s, k) && k != path {
      assert NodeOk(s, k);
    }
  }

  lemma AttachAside(s: Cache, r: Ref, x: Ref)
    requires Tree(s) && Loose(s, r) && Mapped(s, Up(s.heap[r].path))
    ensures AsideAt(s, Attach(s, r), r, x)
  {
    AttachNodes(s, r);
  }

  /** The step from inserting the parent to inserting the node. */
  ghost predicate Above(s: Cache, r: Ref, s0: Cache, s1: Cache, q: Ref, m: nat) {
    && Tree(s) && Loose(s, r) && q == s.next && |s.heap[r].path| > 1
    && !Kept(s, s.heap[r], Up(s.heap[r].path))
    && s0 == Alloc(s, ParentItem(s.heap[r]))
    && Inserts(s0, s1, q, m) && Tree(s1)
  }

  /** The directory that is created for a node without a usable parent. */
  function ParentItem(item: Item): Item {
    NewItem(Up(item.path), true, DIR_ATTRS, Exists(item), item.cachedAt)
  }

  /** The parent was just created: the node is hung under that. */
  lemma InsertAbove(s: Cache, r: Ref, s0: Cache, s1: Cache, q: Ref, m: nat)
    requires Above(s, r, s0, s1, q, m)
    ensures Loose(s1, r) && s1.heap[r] == s.heap[r] && Mapped(s1, Up(s.heap[r].path)) && s1.cacheMap[Up(s.heap[r].path)] == q
    ensures Inserts(s, Attach(s1, r), r, m) && Tree(Attach(s1, r))
  {
    LooseAbove(s, r, s0, s1, q, m);
    NearestAbove(s, r, s0, q, m);
    AttachTree(s1, r);
    AttachNodes(s1, r);
    var item, t := s.heap[r], Attach(s1, r);
    forall k: Path ensures OldAt(s, t, item.path, m, k) {
      OldAbove(s, r, s0, s1, q, m, k);
    }
    forall j | m < j < |item.path| ensures MadeAt(s, t, item, j) {
      MadeAbove(s, r, s0, s1, q, m, j);
    }
    forall x ensures AsideAt(s, t, r, x) {
      AsideAbove(s, r, s0, s1, q, m, x);
    }
    forall k | k in t.cacheMap ensures k in s.cacheMap || (|k| > m && k <= item.path) {
      if k != item.path {
        assert Mapped(t, k) && Mapped(s1, k);
      }
    }
  }

  lemma NearestAbove(s: Cache, r: Ref, s0: Cache, q: Ref, m: nat)
    requires Tree(s) && Loose(s, r) && q == s.next && |s.heap[r].path| > 1
    requires !Kept(s, s.heap[r], Up(s.heap[r].path)) && s0 == Alloc(s, ParentItem(s.heap[r]))
    requires Nearest(s0, s0.heap[q], m)
    ensures Nearest(s, s.heap[r], m)
  {
    var item, up := s.heap[r], Up(s.heap[r].path);
    forall j | 0 <= j <= |up| ensures up[..j] == item.path[..j] && (Kept(s0, s0.heap[q], up[..j]) <==> Kept(s, item, up[..j])) {
      if up[..j] in s.cacheMap {
        assert NodeOk(s, up[..j]);
      }
    }
    assert up[..|up|] == up;
  }

  lemma LooseAbove(s: Cache, r: Ref, s0: Cache, s1: Cache, q: Ref, m: nat)
    requires Above(s, r, s0, s1, q, m)
    ensures Loose(s1, r) && s1.heap[r] == s.heap[r] && Mapped(s1, Up(s.heap[r].path)) && s1.cacheMap[Up(s.heap[r].path)] == q
    ensures s1.heap[q] == ParentItem(s.heap[r]).(parent := s1.heap[q].parent) && m < |s.heap[r].path| - 1
  {
    AllocTree(s, ParentItem(s.heap[r]));
    AllocUnmapped(s, r, ParentItem(s.heap[r]));
    assert AsideAt(s0, s1, q, r);
  }

  lemma AllocUnmapped(s: Cache, r: Ref, item: Item)
    requires Tree(s) && Unmapped(s, r)
    ensures Unmapped(Alloc(s, item), r) && Alloc(s, item).heap[r] == s.heap[r] && r != s.next
  {
    forall k | Mapped(Alloc(s, item), k) ensures Alloc(s, item).cacheMap[k] != r {
      assert NodeOk(s, k);
    }
  }

  lemma OldAbove(s: Cache, r: Ref, s0: Cache, s1: Cache, q: Ref, m: nat, k: Path)
    requires Above(s, r, s0, s1, q, m)
    ensures Mapped(s1, Up(s.heap[r].path)) && r in s1.heap && s1.heap[r].path == s.heap[r].path && m < |s.heap[r].path|
    ensures OldAt(s, Attach(s1, r), s.heap[r].path, m, k)
  {
    hide Kept, Nearest, MadeAt, AsideAt, EdgeOk, ParentOk;
    LooseAbove(s, r, s0, s1, q, m);
    AttachNodes(s1, r);
    var path, up := s.heap[r].path, Up(s.heap[r].path);
    assert up[..m + 1] == path[..m + 1] && up[..m] == path[..m];
    assert OldAt(s0, s1, up, m, k);
    if Mapped(s, k) && !(|k| > m && k <= path) {
      assert NodeOk(s, k);
      assert k != path && k != up;
    }
  }

  lemma MadeAbove(s: Cache, r: Ref, s0: Cache, s1: Cache, q: Ref, m: nat, j: nat)
    requires Above(s, r, s0, s1, q, m) && m < j < |s.heap[r].path|
    ensures Mapped(s1, Up(s.heap[r].path)) && r in s1.heap && s1.heap[r].path == s.heap[r].path
    ensures MadeAt(s, Attach(s1, r), s.heap[r], j)
  {
    LooseAbove(s, r, s0, s1, q, m);
    AttachNodes(s1, r);
    var path, up := s.heap[r].path, Up(s.heap[r].path);
    assert path[..j - 1] == up[..j - 1];
    if j < |up| {
      assert MadeAt(s0, s1, ParentItem(s.heap[r]), j);
      assert path[..j] == up[..j] && path[..j + 1] == up[..j + 1] && path[j] == up[j];
    } else {
      assert path[..j] == up && path[..j + 1] == path && Up(up) == path[..j - 1];
    }
  }

  lemma AsideAbove(s: Cache, r: Ref, s0: Cache, s1: Cache, q: Ref, m: nat, x: Ref)
    requires Above(s, r, s0, s1, q, m)
    ensures Mapped(s1, Up(s.heap[r].path)) && r in s1.heap && s1.heap[r].path == s.heap[r].path
    ensures AsideAt(s, Attach(s1, r), r, x)
  {
    LooseAbove(s, r, s0, s1, q, m);
    if x != r && Unmapped(s, x) {
      AllocUnmapped(s, x, ParentItem(s.heap[r]));
      assert AsideAt(s0, s1, q, x);
      AttachAside(s1, r, x);
    }
  }
}
