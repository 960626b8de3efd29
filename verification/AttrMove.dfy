/** Moving a subtree: what arrives, what is left behind and what stays the same. */
module AttrMove {
  import opened AttrTree
  import opened AttrMarks
  import opened AttrInsert

  /** Neither path lies inside the other. */
  predicate Apart(p: Path, d: Path) {
    !(p <= d) && !(d <= p)
  }

  ghost predicate SameNode(s: Cache, t: Cache, k: Path) {
    && (k in t.cacheMap <==> k in s.cacheMap)
    && (Mapped(s, k) ==> Mapped(t, k) && t.cacheMap[k] == s.cacheMap[k] && Node(t, k) == Node(s, k))
  }

  ghost predicate SameUnder(s: Cache, t: Cache, p: Path) {
    forall k {:trigger SameNode(s, t, k)} | p <= k :: SameNode(s, t, k)
  }

  /** Reachable from `p` and existing. */
  ghost predicate Live(s: Cache, p: Path, k: Path) {
    Linked(s, p, k) && Exists(Node(s, k))
  }

  /** The copy of a node keeps everything but its place. */
  ghost predicate Copy(a: Item, b: Item) {
    Exists(b) && b.isDir == a.isDir && b.attrs == a.attrs && b.cachedAt == a.cachedAt && (InCloud(b) <==> InCloud(a))
  }

  /** `q` below the destination is reachable exactly if `q` below the source
      was there, and then it is a copy. */
  ghost predicate CopyAt(s: Cache, t: Cache, p: Path, d: Path, q: Path) {
    && (Linked(t, d, d + q) <==> Live(s, p, p + q))
    && (Live(s, p, p + q) ==> Copy(Node(s, p + q), Node(t, d + q)))
  }

  /** Nothing reachable from the source exists any more. */
  ghost predicate GoneAt(t: Cache, p: Path, k: Path) {
    Linked(t, p, k) ==> !Exists(Node(t, k))
  }

  ghost predicate MoreChildren(a: Item, b: Item, n: Name) {
    && b == a.(children := b.children) && a.children.Keys <= b.children.Keys
    && forall x | x in b.children && x != n :: x in a.children && a.children[x] == b.children[x]
  }

  /** An existing ancestor of the destination may gain the child on the way there. */
  ghost predicate PrefixAt(s: Cache, t: Cache, d: Path, k: Path)
    requires |k| < |d|
  {
    Mapped(s, k) && Exists(Node(s, k)) ==>
      Mapped(t, k) && t.cacheMap[k] == s.cacheMap[k] && MoreChildren(Node(s, k), Node(t, k), d[|k|])
  }

  /** Outside source and destination only ancestors of the destination change. */
  ghost predicate FrameAt(s: Cache, t: Cache, p: Path, d: Path, k: Path) {
    !(p <= k) && !(d <= k) ==>
      if k <= d then |k| < |d| && PrefixAt(s, t, d, k) else SameNode(s, t, k)
  }

  ghost predicate Moved(s: Cache, t: Cache, p: Path, d: Path) {
    && Tree(t) && Edge(t, d)
    && (forall q: Path {:trigger CopyAt(s, t, p, d, q)} :: CopyAt(s, t, p, d, q))
    && (forall k: Path {:trigger GoneAt(t, p, k)} :: GoneAt(t, p, k))
    && (forall k: Path {:trigger FrameAt(s, t, p, d, k)} :: FrameAt(s, t, p, d, k))
  }

  // ---------- Basics ----------

  lemma {:induction false} UnderLinked(s: Cache, t: Cache, p: Path, k: Path)
    requires SameUnder(s, t, p) && Nodes(s) && Nodes(t)
    ensures Linked(t, p, k) <==> Linked(s, p, k)
    ensures Linked(s, p, k) ==> Node(t, k) == Node(s, k)
    decreases |k|
  {
    if p <= k {
      assert SameNode(s, t, k);
      assert k in s.cacheMap ==> NodeOk(s, k);
      if k != p {
        assert p <= Up(k);
        assert SameNode(s, t, Up(k));
        assert Up(k) in s.cacheMap ==> NodeOk(s, Up(k));
        UnderLinked(s, t, p, Up(k));
      }
    } else {
      if Linked(s, p, k) {
        LinkedPrefix(s, p, k);
      }
      if Linked(t, p, k) {
        LinkedPrefix(t, p, k);
      }
    }
  }

  lemma SameUnderTrans(s: Cache, t: Cache, u: Cache, p: Path)
    requires SameUnder(s, t, p) && SameUnder(t, u, p) && Nodes(s)
    ensures SameUnder(s, u, p)
  {
    forall k | p <= k ensures SameNode(s, u, k) {
      assert SameNode(s, t, k) && SameNode(t, u, k);
      assert k in s.cacheMap ==> NodeOk(s, k);
    }
  }

  /** Two prefixes of one path are comparable. */
  lemma Comparable(p: Path, d: Path, k: Path)
    requires p <= k && d <= k
    ensures p <= d || d <= p
  {
    if |p| <= |d| {
      assert p == k[..|p|] == d[..|p|];
    } else {
      assert d == k[..|d|] == p[..|d|];
    }
  }

  lemma ApartChildren(p: Path, d: Path, n: Name)
    requires Apart(p, d)
    ensures Apart(p + [n], d + [n]) && Apart(p, d + [n]) && Apart(p + [n], d)
  {
    if p <= d + [n] {
      Comparable(p, d, d + [n]);
    }
    if d <= p + [n] {
      Comparable(p, d, p + [n]);
    }
  }

  /** Two paths with a common extension are not apart. */
  lemma ApartExtensions(p: Path, d: Path, k: Path)
    requires Apart(p, d) && p <= k
    ensures !(d <= k) && !(k <= d)
  {
    if d <= k {
      Comparable(p, d, k);
    }
  }

  // ---------- The new node at the destination ----------

  lemma InsertFrame(s: Cache, t: Cache, item: Item, m: nat, k: Path)
    requires Tree(s) && Exists(item) && item.path != [] && Inserts(Alloc(s, item), t, s.next, m)
    requires !(item.path <= k)
    ensures if k <= item.path then PrefixAt(s, t, item.path, k) else SameNode(s, t, k)
  {
    var s0 := Alloc(s, item);
    assert OldAt(s0, t, item.path, m, k);
    if k in s.cacheMap {
      assert NodeOk(s, k);
    } else if k in t.cacheMap {
      assert Mapped(t, k) || !Mapped(t, k);
    }
    assert k <= item.path ==> k == item.path[..|k|];
    assert Mapped(s, k) && Exists(Node(s, k)) ==> Kept(s0, item, k);
    if k == item.path[..m] && Mapped(s, k) && Exists(Node(s, k)) {
      InsertNext(s0, t, item, s.next, m);
    }
  }

  /** The nearest kept ancestor has a mapped child on the way to the node. */
  lemma InsertNext(s: Cache, t: Cache, item: Item, r: Ref, m: nat)
    requires r in s.heap && s.heap[r] == item && Inserts(s, t, r, m)
    ensures item.path[..m + 1] in t.cacheMap
  {
    if m + 1 < |item.path| {
      assert MadeAt(s, t, item, m + 1);
    } else {
      assert item.path[..m + 1] == item.path;
    }
  }

  lemma InsertedNode(s: Cache, t: Cache, item: Item, m: nat)
    requires Tree(s) && item.path != [] && Inserts(Alloc(s, item), t, s.next, m) && Tree(t)
    ensures Edge(t, item.path) && Node(t, item.path) == item.(parent := Node(t, item.path).parent)
    ensures t.cacheMap[item.path] == s.next
  {
    var s0, path := Alloc(s, item), item.path;
    assert NodeOk(t, path) && NodeOk(t, Up(path));
    if m + 1 == |path| {
      assert path[..m] == Up(path) && path[..m + 1] == path;
      assert Mapped(s0, Up(path)) && OldAt(s0, t, path, m, Up(path));
      assert Node(t, Up(path)).children[path[m]] == s.next;
    } else {
      assert MadeAt(s0, t, item, |path| - 1);
      assert path[..|path| - 1] == Up(path);
    }
  }

  // ---------- Moving the children one by one ----------

  ghost predicate KidAt(s: Cache, u: Cache, p: Path, d: Path, done: set<Name>, n: Name)
    requires Mapped(s, p) && Mapped(u, d)
  {
    n in Node(u, d).children <==>
      n in done && n in Node(s, p).children && Mapped(s, p + [n]) && Exists(Node(s, p + [n]))
  }

  /** A moved child: its subtree has a copy, and is gone from the source. */
  ghost predicate DoneAt(s: Cache, u: Cache, p: Path, d: Path, n: Name) {
    && (Mapped(s, p + [n]) && Exists(Node(s, p + [n])) ==>
          forall q: Path {:trigger CopyAt(s, u, p + [n], d + [n], q)} :: CopyAt(s, u, p + [n], d + [n], q))
    && forall k: Path {:trigger GoneAt(u, p + [n], k)} :: GoneAt(u, p + [n], k)
  }

  ghost predicate RestAt(s: Cache, u: Cache, p: Path, n: Name) {
    SameUnder(s, u, p + [n])
  }

  /** The children named in `done` have been moved. */
  ghost predicate Progress(s: Cache, u: Cache, p: Path, d: Path, done: set<Name>) {
    && Tree(s) && Tree(u) && Apart(p, d)
    && Mapped(s, p) && Exists(Node(s, p)) && SameNode(s, u, p)
    && Edge(u, d) && Copy(Node(s, p), Node(u, d))
    && (forall n {:trigger KidAt(s, u, p, d, done, n)} :: KidAt(s, u, p, d, done, n))
    && (forall n {:trigger DoneAt(s, u, p, d, n)} | n in done :: DoneAt(s, u, p, d, n))
    && (forall n {:trigger RestAt(s, u, p, n)} | n !in done :: RestAt(s, u, p, n))
    && (forall k: Path {:trigger FrameAt(s, u, p, d, k)} :: FrameAt(s, u, p, d, k))
  }

  /** The copy of a node before its children are moved. */
  function Copied(a: Item, d: Path): Item {
    NewItem(d, a.isDir, a.attrs, true, a.cachedAt)
  }

  function MarkedInCloud(i: Item, inCloud: bool): Item {
    if (i.path == [] && !inCloud) || !i.isDir then i else i.(notInCloud := !inCloud)
  }

  lemma Begin(s: Cache, t: Cache, p: Path, d: Path, m: nat, u: Cache)
    requires Tree(s) && Tree(t) && Apart(p, d) && Mapped(s, p) && Exists(Node(s, p))
    requires Inserts(Alloc(s, Copied(Node(s, p), d)), t, s.next, m)
    requires s.next in t.heap && u == t.(heap := t.heap[s.next := MarkedInCloud(t.heap[s.next], InCloud(Node(s, p)))])
    ensures Progress(s, u, p, d, {})
  {
    var item := Copied(Node(s, p), d);
    InsertedNode(s, t, item, m);
    BeginTree(t, s.next, u);
    forall k: Path | !(d <= k) ensures if k <= d then PrefixAt(s, u, d, k) else SameNode(s, u, k) {
      InsertFrame(s, t, item, m, k);
      BeginFrame(s, t, s.next, u, d, k);
    }
    forall n ensures RestAt(s, u, p, n) {
      forall k | p + [n] <= k ensures SameNode(s, u, k) {
        assert p <= p + [n] <= k;
        ApartExtensions(p, d, k);
      }
    }
    assert SameNode(s, u, p);
  }

  lemma BeginTree(t: Cache, r: Ref, u: Cache)
    requires Tree(t) && r in t.heap && t.heap[r].path != []
    requires exists i :: u == t.(heap := t.heap[r := MarkedInCloud(t.heap[r], i)])
    ensures Tree(u) && SameShape(t, u)
    ensures Edge(t, t.heap[r].path) ==> Edge(u, t.heap[r].path)
  {
    forall x | x in t.heap ensures SameItem(t, u, x) {
    }
    forall k, n | Mapped(t, k) && n in Node(t, k).children && Mapped(t, k + [n]) && Exists(u.heap[t.cacheMap[k + [n]]])
      ensures Exists(u.heap[t.cacheMap[k]])
    {
      assert EdgeOk(t, k, n);
    }
    ShapeTree(t, u);
  }

  lemma BeginFrame(s: Cache, t: Cache, r: Ref, u: Cache, d: Path, k: Path)
    requires Tree(t) && Mapped(t, d) && t.cacheMap[d] == r && !(d <= k)
    requires u.cacheMap == t.cacheMap && u.heap.Keys == t.heap.Keys && forall x | x in t.heap && x != r :: u.heap[x] == t.heap[x]
    requires if k <= d then PrefixAt(s, t, d, k) else SameNode(s, t, k)
    ensures if k <= d then PrefixAt(s, u, d, k) else SameNode(s, u, k)
  {
    if Mapped(t, k) {
      DistinctNodes(t, k, d);
    }
  }

  /** A child that does not exist is not moved. */
  lemma StepNone(s: Cache, u: Cache, p: Path, d: Path, done: set<Name>, n: Name)
    requires Progress(s, u, p, d, done) && n in Node(s, p).children && n !in done
    requires Mapped(u, p + [n]) && !Exists(Node(u, p + [n]))
    ensures Progress(s, u, p, d, done + {n})
  {
    assert RestAt(s, u, p, n) && SameNode(s, u, p + [n]);
    assert EdgeOk(s, p, n);
    forall k: Path ensures GoneAt(u, p + [n], k) {
      if Linked(u, p + [n], k) && Exists(Node(u, k)) {
        ExistsUp(u, p + [n], k);
      }
    }
    assert DoneAt(s, u, p, d, n);
    forall x ensures KidAt(s, u, p, d, done + {n}, x) {
      assert KidAt(s, u, p, d, done, x);
    }
  }

  /** Other branches of the source are not touched by moving one child. */
  lemma OtherSource(u: Cache, v: Cache, p: Path, d: Path, n: Name, x: Name)
    requires Moved(u, v, p + [n], d + [n]) && Apart(p, d) && x != n
    ensures SameUnder(u, v, p + [x])
  {
    ApartChildren(p, d, n);
    forall k | p + [x] <= k ensures SameNode(u, v, k) {
      assert p <= p + [x] <= k && k[|p|] == x;
      ApartExtensions(p, d + [n], k);
      assert FrameAt(u, v, p + [n], d + [n], k);
    }
  }

  /** Nor are the other children of the copy. */
  lemma OtherTarget(u: Cache, v: Cache, p: Path, d: Path, n: Name, x: Name)
    requires Moved(u, v, p + [n], d + [n]) && Apart(p, d) && x != n
    ensures SameUnder(u, v, d + [x])
  {
    ApartChildren(p, d, n);
    forall k | d + [x] <= k ensures SameNode(u, v, k) {
      assert d <= d + [x] <= k && k[|d|] == x;
      ApartExtensions(d, p + [n], k);
      assert FrameAt(u, v, p + [n], d + [n], k);
      assert (d + [n])[|d|] == n;
    }
  }

  lemma StepMoved(s: Cache, u: Cache, p: Path, d: Path, done: set<Name>, n: Name, v: Cache)
    requires Progress(s, u, p, d, done) && n in Node(s, p).children && n !in done
    requires Mapped(u, p + [n]) && Exists(Node(u, p + [n]))
    requires Moved(u, v, p + [n], d + [n])
    ensures Progress(s, v, p, d, done + {n})
  {
    StepPlaces(s, u, p, d, done, n, v);
    forall x | x !in done + {n} ensures RestAt(s, v, p, x) {
      assert RestAt(s, u, p, x);
      OtherSource(u, v, p, d, n, x);
      SameUnderTrans(s, u, v, p + [x]);
    }
    forall x | x in done ensures DoneAt(s, v, p, d, x) {
      StepDone(s, u, p, d, done, n, v, x);
    }
    StepNew(s, u, p, d, done, n, v);
    forall k: Path ensures FrameAt(s, v, p, d, k) {
      StepFrame(s, u, p, d, done, n, v, k);
    }
  }

  /** Source and destination node are still in place, with one child more. */
  lemma StepPlaces(s: Cache, u: Cache, p: Path, d: Path, done: set<Name>, n: Name, v: Cache)
    requires Progress(s, u, p, d, done) && n in Node(s, p).children && n !in done
    requires Mapped(u, p + [n]) && Exists(Node(u, p + [n]))
    requires Moved(u, v, p + [n], d + [n])
    ensures SameNode(s, v, p) && Edge(v, d) && Copy(Node(s, p), Node(v, d))
    ensures forall x {:trigger KidAt(s, v, p, d, done + {n}, x)} :: KidAt(s, v, p, d, done + {n}, x)
  {
    StepSource(u, v, p, d, n);
    StepTarget(u, v, p, d, n);
    StepUp(u, v, p, d, n);
    assert RestAt(s, u, p, n) && SameNode(s, u, p + [n]) && EdgeOk(s, p, n);
    forall x ensures KidAt(s, v, p, d, done + {n}, x) {
      assert KidAt(s, u, p, d, done, x);
    }
  }

  lemma StepSource(u: Cache, v: Cache, p: Path, d: Path, n: Name)
    requires Moved(u, v, p + [n], d + [n]) && Apart(p, d)
    ensures SameNode(u, v, p)
  {
    ApartChildren(p, d, n);
    ApartExtensions(p, d + [n], p);
    assert FrameAt(u, v, p + [n], d + [n], p);
  }

  lemma StepTarget(u: Cache, v: Cache, p: Path, d: Path, n: Name)
    requires Moved(u, v, p + [n], d + [n]) && Apart(p, d) && Mapped(u, d) && Exists(Node(u, d))
    ensures Mapped(v, d) && v.cacheMap[d] == u.cacheMap[d] && MoreChildren(Node(u, d), Node(v, d), n) && n in Node(v, d).children
  {
    ApartChildren(p, d, n);
    ApartExtensions(d, p + [n], d);
    assert FrameAt(u, v, p + [n], d + [n], d);
    assert (d + [n])[|d|] == n;
    assert Up(d + [n]) == d && Last(d + [n]) == n;
  }

  lemma StepUp(u: Cache, v: Cache, p: Path, d: Path, n: Name)
    requires Moved(u, v, p + [n], d + [n]) && Apart(p, d)
    requires Tree(u) && Edge(u, d) && Exists(Node(u, d)) && Mapped(v, d)
    ensures Edge(v, d)
  {
    assert d == Up(d) + [Last(d)];
    assert EdgeOk(u, Up(d), Last(d));
    assert p <= p + [n] && Up(d) <= d;
    assert Up(d) <= d <= d + [n];
    assert FrameAt(u, v, p + [n], d + [n], Up(d));
  }

  lemma StepDone(s: Cache, u: Cache, p: Path, d: Path, done: set<Name>, n: Name, v: Cache, x: Name)
    requires Progress(s, u, p, d, done) && n !in done && x in done
    requires Moved(u, v, p + [n], d + [n])
    ensures DoneAt(s, v, p, d, x)
  {
    assert DoneAt(s, u, p, d, x);
    OtherSource(u, v, p, d, n, x);
    OtherTarget(u, v, p, d, n, x);
    if Mapped(s, p + [x]) && Exists(Node(s, p + [x])) {
      forall q: Path ensures CopyAt(s, v, p + [x], d + [x], q) {
        assert CopyAt(s, u, p + [x], d + [x], q);
        UnderLinked(u, v, d + [x], d + [x] + q);
      }
    }
    forall k: Path ensures GoneAt(v, p + [x], k) {
      assert GoneAt(u, p + [x], k);
      UnderLinked(u, v, p + [x], k);
    }
  }

  lemma StepNew(s: Cache, u: Cache, p: Path, d: Path, done: set<Name>, n: Name, v: Cache)
    requires Progress(s, u, p, d, done) && n !in done
    requires Moved(u, v, p + [n], d + [n])
    ensures DoneAt(s, v, p, d, n)
  {
    assert RestAt(s, u, p, n);
    forall q: Path ensures CopyAt(s, v, p + [n], d + [n], q) {
      assert CopyAt(u, v, p + [n], d + [n], q);
      UnderLinked(s, u, p + [n], p + [n] + q);
    }
  }

  lemma StepFrame(s: Cache, u: Cache, p: Path, d: Path, done: set<Name>, n: Name, v: Cache, k: Path)
    requires Progress(s, u, p, d, done)
    requires Moved(u, v, p + [n], d + [n])
    ensures FrameAt(s, v, p, d, k)
  {
    if !(p <= k) && !(d <= k) {
      assert FrameAt(s, u, p, d, k);
      assert p <= p + [n] && d <= d + [n];
      assert !(p + [n] <= k) && !(d + [n] <= k);
      assert FrameAt(u, v, p + [n], d + [n], k);
      if k <= d + [n] {
        Comparable(k, d, d + [n]);
      }
      assert k <= d ==> k <= d + [n] && (d + [n])[|k|] == d[|k|];
      assert k in s.cacheMap ==> NodeOk(s, k);
    }
  }

  // ---------- All children moved ----------

  lemma AllCopied(s: Cache, u: Cache, p: Path, d: Path, q: Path)
    requires Mapped(s, p) && Progress(s, u, p, d, Node(s, p).children.Keys)
    ensures CopyAt(s, u, p, d, q)
  {
    if q == [] {
      assert p + q == p && d + q == d;
    } else {
      var n, q' := q[0], q[1..];
      assert p + q == p + [n] + q' && d + q == d + [n] + q';
      assert KidAt(s, u, p, d, Node(s, p).children.Keys, n);
      assert (p + q)[|p|] == n && (d + q)[|d|] == n;
      if Live(s, p, p + q) {
        LinkedFirst(s, p, p + q);
        ExistsUp(s, p + [n], p + q);
        assert DoneAt(s, u, p, d, n) && CopyAt(s, u, p + [n], d + [n], q');
        LinkedChild(u, d, n);
        LinkedTrans(u, d, d + [n], d + q);
      } else if Linked(u, d, d + q) {
        LinkedFirst(u, d, d + q);
        assert DoneAt(s, u, p, d, n) && CopyAt(s, u, p + [n], d + [n], q');
        LinkedChild(s, p, n);
        LinkedTrans(s, p, p + [n], p + q);
      }
    }
  }

  /** With the children moved, deleting the source completes the move. */
  lemma Complete(s: Cache, u: Cache, p: Path, d: Path, at: int)
    requires Mapped(s, p) && Progress(s, u, p, d, Node(s, p).children.Keys)
    ensures Moved(s, Delete(u, Subtree(u, p), at), p, d)
  {
    var t := Delete(u, Subtree(u, p), at);
    DeletedBelow(u, p, at, p);
    DeleteShape(u, Subtree(u, p), at);
    forall k: Path ensures GoneAt(t, p, k) {
      SameLinked(u, t, p, k);
      if Mapped(u, k) {
        DeletedBelow(u, p, at, k);
      }
    }
    forall q: Path ensures CopyAt(s, t, p, d, q) {
      AllCopied(s, u, p, d, q);
      SameLinked(u, t, d, d + q);
      if Mapped(u, d + q) {
        CompleteElsewhere(u, p, d + q, at, d);
      }
    }
    forall k: Path ensures FrameAt(s, t, p, d, k) {
      CompleteFrame(s, u, p, d, at, k);
    }
    assert SameItem(u, t, u.cacheMap[Up(d)]);
  }

  lemma CompleteElsewhere(u: Cache, p: Path, k: Path, at: int, d: Path)
    requires Tree(u) && Mapped(u, p) && p != [] && Mapped(u, k) && Apart(p, d) && d <= k
    ensures Mapped(Delete(u, Subtree(u, p), at), k) && Node(Delete(u, Subtree(u, p), at), k) == Node(u, k)
  {
    DeletedBelow(u, p, at, k);
    ApartExtensions(d, p, k);
    if Linked(u, p, k) {
      LinkedPrefix(u, p, k);
    }
  }

  lemma CompleteFrame(s: Cache, u: Cache, p: Path, d: Path, at: int, k: Path)
    requires Mapped(s, p) && Progress(s, u, p, d, Node(s, p).children.Keys)
    ensures FrameAt(s, Delete(u, Subtree(u, p), at), p, d, k)
  {
    assert FrameAt(s, u, p, d, k);
    if !(p <= k) && Mapped(u, k) {
      DeletedBelow(u, p, at, k);
      if Linked(u, p, k) {
        LinkedPrefix(u, p, k);
      }
    }
  }

  // ---------- Capacity ----------

  ghost predicate FitsAt(s: Cache, p: Path, d: Path, room: set<Path>, q: Path) {
    Linked(s, p, p + q) ==> d + q in room
  }

  /** `room` holds every path in use and every path the move will use. */
  ghost predicate Fits(s: Cache, p: Path, d: Path, room: set<Path>) {
    && s.cacheMap.Keys <= room
    && (forall j | 0 <= j <= |d| :: d[..j] in room)
    && (forall q: Path {:trigger FitsAt(s, p, d, room, q)} :: FitsAt(s, p, d, room, q))
  }

  lemma InsertFits(s: Cache, t: Cache, p: Path, d: Path, room: set<Path>, item: Item, m: nat)
    requires Fits(s, p, d, room) && item.path == d && Tree(t) && Inserts(Alloc(s, item), t, s.next, m)
    ensures t.cacheMap.Keys <= room
  {
    forall k | k in t.cacheMap ensures k in room {
      assert NodeOk(t, k);
      if k <= d {
        assert k == d[..|k|];
      }
    }
  }

  lemma ChildFits(s: Cache, u: Cache, p: Path, d: Path, room: set<Path>, done: set<Name>, n: Name)
    requires Progress(s, u, p, d, done) && Fits(s, p, d, room) && n in Node(s, p).children && n !in done
    requires u.cacheMap.Keys <= room
    ensures Fits(u, p + [n], d + [n], room)
  {
    ChildPlaceFits(s, p, d, room, n);
    forall q: Path ensures FitsAt(u, p + [n], d + [n], room, q) {
      assert RestAt(s, u, p, n);
      UnderLinked(s, u, p + [n], p + [n] + q);
      ChildFitsAt(s, p, d, room, n, q);
    }
  }

  lemma ChildPlaceFits(s: Cache, p: Path, d: Path, room: set<Path>, n: Name)
    requires Tree(s) && Mapped(s, p) && Fits(s, p, d, room) && n in Node(s, p).children
    ensures forall j | 0 <= j <= |d + [n]| :: (d + [n])[..j] in room
  {
    LinkedChild(s, p, n);
    assert FitsAt(s, p, d, room, [n]);
    forall j | 0 <= j <= |d + [n]| ensures (d + [n])[..j] in room {
      assert (d + [n])[..j] == if j <= |d| then d[..j] else d + [n];
    }
  }

  lemma ChildFitsAt(s: Cache, p: Path, d: Path, room: set<Path>, n: Name, q: Path)
    requires Tree(s) && Mapped(s, p) && Fits(s, p, d, room) && n in Node(s, p).children
    ensures FitsAt(s, p + [n], d + [n], room, q)
  {
    LinkedChild(s, p, n);
    var q' := [n] + q;
    assert p + [n] + q == p + q' && d + [n] + q == d + q';
    if Linked(s, p + [n], p + [n] + q) {
      LinkedTrans(s, p, p + [n], p + [n] + q);
    }
    assert FitsAt(s, p, d, room, q');
  }

  // ---------- To a directory above ----------

  /** With the destination right above the source `p`, a child that has the source's
      own name lands on the source's path. Its copy exists there, and marking nodes
      from before deleted, as the move does in the end, does not change that. */
  lemma LandsOnSource(s: Cache, t: Cache, item: Item, m: nat, p: Path, n: Name, nodes: set<Ref>, at: int)
    requires p != [] && n == Last(p) && item.path == p && Exists(item)
    requires Tree(s) && Tree(t) && Inserts(Alloc(s, item), t, s.next, m)
    requires forall r | r in nodes :: r < s.next
    ensures Up(p) + (p + [n])[|p|..] == p
    ensures var u := Delete(t, nodes, at); Mapped(u, p) && Linked(u, p, p) && !GoneAt(u, p, p)
  {
    hide Tree, Inserts;
    assert (p + [n])[|p|..] == [n];
    InsertedNode(s, t, item, m);
    UnmarkedStays(t, p, nodes, at);
  }

  lemma UnmarkedStays(t: Cache, p: Path, nodes: set<Ref>, at: int)
    requires Mapped(t, p) && t.cacheMap[p] !in nodes && Exists(Node(t, p))
    ensures var u := Delete(t, nodes, at); Mapped(u, p) && Linked(u, p, p) && !GoneAt(u, p, p)
  {
  }
}
