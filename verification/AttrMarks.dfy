/** Deleting and invalidating whole subtrees, as one change of flags. */
module AttrMarks {
  import opened AttrTree

  // ---------- Deleting ----------

  /** The nodes that can be reached from `p`. */
  function Subtree(s: Cache, p: Path): (r: set<Ref>) {
    set k | k in s.cacheMap && Linked(s, p, k) :: s.cacheMap[k]
  }

  function DeletedItem(i: Item, at: int): Item {
    i.(flagExists := false, valid := true, cachedAt := at)
  }

  /** Every existing node of `nodes` is marked deleted. */
  function Delete(s: Cache, nodes: set<Ref>, at: int): Cache {
    s.(heap := map r | r in s.heap :: if r in nodes && Exists(s.heap[r]) then DeletedItem(s.heap[r], at) else s.heap[r])
  }

  lemma DeleteShape(s: Cache, nodes: set<Ref>, at: int)
    ensures SameShape(s, Delete(s, nodes, at))
  {
    var t := Delete(s, nodes, at);
    forall r | r in s.heap ensures SameItem(s, t, r) {
    }
  }

  lemma DeleteTwice(s: Cache, a: set<Ref>, b: set<Ref>, at: int)
    ensures Delete(Delete(s, a, at), b, at) == Delete(s, a + b, at)
  {
    var l, r := Delete(Delete(s, a, at), b, at), Delete(s, a + b, at);
    forall x | x in s.heap ensures l.heap[x] == r.heap[x] {
    }
    assert l.heap == r.heap;
  }

  lemma DeleteNone(s: Cache, nodes: set<Ref>, at: int)
    requires forall r | r in nodes && r in s.heap :: !Exists(s.heap[r])
    ensures Delete(s, nodes, at) == s
  {
    assert Delete(s, nodes, at).heap == s.heap;
  }

  lemma ShapeSubtree(s: Cache, t: Cache, p: Path)
    requires SameShape(s, t)
    ensures Subtree(t, p) == Subtree(s, p)
  {
    forall k ensures Linked(t, p, k) <==> Linked(s, p, k) {
      SameLinked(s, t, p, k);
    }
  }

  /** The nodes below the children whose names are in `names`. */
  function Branches(s: Cache, p: Path, names: set<Name>): set<Ref> {
    set k | k in s.cacheMap && |p| < |k| && k[|p|] in names && Linked(s, p + [k[|p|]], k) :: s.cacheMap[k]
  }

  lemma BranchesStep(s: Cache, p: Path, names: set<Name>, n: Name)
    ensures Branches(s, p, names + {n}) == Branches(s, p, names) + Subtree(s, p + [n])
  {
    forall k | k in s.cacheMap && Linked(s, p + [n], k) ensures |p| < |k| && k[|p|] == n {
      LinkedPrefix(s, p + [n], k);
    }
    var l, r := Branches(s, p, names + {n}), Branches(s, p, names) + Subtree(s, p + [n]);
    forall x | x in l ensures x in r {
      var k :| k in s.cacheMap && |p| < |k| && k[|p|] in names + {n} && Linked(s, p + [k[|p|]], k) && x == s.cacheMap[k];
      assert k[|p|] == n ==> Linked(s, p + [n], k);
    }
  }

  lemma SubtreeBranches(s: Cache, p: Path)
    requires Tree(s) && Mapped(s, p)
    ensures Subtree(s, p) == {s.cacheMap[p]} + Branches(s, p, Node(s, p).children.Keys)
  {
    var l, r := Subtree(s, p), {s.cacheMap[p]} + Branches(s, p, Node(s, p).children.Keys);
    assert Linked(s, p, p);
    forall x | x in l ensures x in r {
      var k :| k in s.cacheMap && Linked(s, p, k) && x == s.cacheMap[k];
      if k != p {
        LinkedFirst(s, p, k);
      }
    }
    forall x | x in r && x != s.cacheMap[p] ensures x in l {
      var k :| k in s.cacheMap && |p| < |k| && k[|p|] in Node(s, p).children && Linked(s, p + [k[|p|]], k) && x == s.cacheMap[k];
      LinkedChild(s, p, k[|p|]);
      LinkedTrans(s, p, p + [k[|p|]], k);
    }
  }

  /** Nothing below a node that does not exist exists. */
  lemma AlreadyDeleted(s: Cache, p: Path, at: int)
    requires Tree(s) && Mapped(s, p) && !Exists(Node(s, p))
    ensures Delete(s, Subtree(s, p), at) == s
  {
    forall r | r in Subtree(s, p) && r in s.heap ensures !Exists(s.heap[r]) {
      var k :| k in s.cacheMap && Linked(s, p, k) && r == s.cacheMap[k];
      if Exists(Node(s, k)) {
        ExistsUp(s, p, k);
      }
    }
    DeleteNone(s, Subtree(s, p), at);
  }

  ghost predicate DownwardAt(s: Cache, nodes: set<Ref>, k: Path, n: Name) {
    Mapped(s, k) && n in Node(s, k).children && s.cacheMap[k] in nodes ==> Node(s, k).children[n] in nodes
  }

  /** A set of nodes that contains the children of its members. */
  ghost predicate Downward(s: Cache, nodes: set<Ref>) {
    forall k, n {:trigger DownwardAt(s, nodes, k, n)} :: DownwardAt(s, nodes, k, n)
  }

  /** Deleting nodes together with what can be reached from them keeps the tree. */
  lemma DeleteTree(s: Cache, nodes: set<Ref>, at: int)
    requires Tree(s) && s.cacheMap[[]] !in nodes
    requires Downward(s, nodes)
    ensures Tree(Delete(s, nodes, at))
  {
    var t := Delete(s, nodes, at);
    DeleteShape(s, nodes, at);
    assert SameItem(s, t, s.cacheMap[[]]);
    forall k, n | Mapped(s, k) && n in Node(s, k).children && Mapped(s, k + [n]) && Exists(t.heap[s.cacheMap[k + [n]]])
      ensures Exists(t.heap[s.cacheMap[k]])
    {
      assert EdgeOk(s, k, n) && DownwardAt(s, nodes, k, n);
    }
    ShapeTree(s, t);
  }

  lemma BranchesClosed(s: Cache, p: Path, names: set<Name>)
    requires Tree(s)
    ensures s.cacheMap[[]] !in Branches(s, p, names)
    ensures Downward(s, Branches(s, p, names))
  {
    forall j | Mapped(s, j) && |p| < |j| ensures s.cacheMap[j] != s.cacheMap[[]] {
      DistinctNodes(s, j, []);
    }
    forall k, n | Mapped(s, k) && n in Node(s, k).children && s.cacheMap[k] in Branches(s, p, names)
      ensures DownwardAt(s, Branches(s, p, names), k, n)
    {
      var j :| j in s.cacheMap && |p| < |j| && j[|p|] in names && Linked(s, p + [j[|p|]], j) && s.cacheMap[j] == s.cacheMap[k];
      assert Mapped(s, j) by {
        assert NodeOk(s, j);
      }
      if j != k {
        DistinctNodes(s, j, k);
      }
      LinkedChild(s, k, n);
      LinkedTrans(s, p + [k[|p|]], k, k + [n]);
      assert (k + [n])[|p|] == k[|p|];
    }
  }

  lemma SubtreeClosed(s: Cache, p: Path)
    requires Tree(s) && Mapped(s, p) && p != []
    ensures s.cacheMap[[]] !in Subtree(s, p)
    ensures Downward(s, Subtree(s, p))
  {
    BranchesClosed(s, Up(p), {Last(p)});
    BranchesStep(s, Up(p), {}, Last(p));
    assert {} + {Last(p)} == {Last(p)};
    assert Up(p) + [Last(p)] == p;
    assert Branches(s, Up(p), {}) == {};
    assert Subtree(s, p) == Branches(s, Up(p), {Last(p)});
  }

  /** The outcome of deleting the subtree at `p`, for readers of the cache. */
  lemma DeletedBelow(s: Cache, p: Path, at: int, k: Path)
    requires Tree(s) && Mapped(s, p) && p != [] && Mapped(s, k)
    ensures var t := Delete(s, Subtree(s, p), at);
            && Tree(t) && Mapped(t, k)
            && (Linked(s, p, k) ==> !Exists(Node(t, k)))
            && (!Linked(s, p, k) ==> Node(t, k) == Node(s, k))
  {
    SubtreeClosed(s, p);
    DeleteTree(s, Subtree(s, p), at);
    if s.cacheMap[k] in Subtree(s, p) {
      var j :| j in s.cacheMap && Linked(s, p, j) && s.cacheMap[j] == s.cacheMap[k];
      assert Mapped(s, j) by {
        assert NodeOk(s, j);
      }
      if j != k {
        DistinctNodes(s, j, k);
      }
    }
  }
}
