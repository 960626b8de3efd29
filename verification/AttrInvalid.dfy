/** Invalidating subtrees and the files of a directory, as one change of flags. */
module AttrInvalid {
  import opened AttrTree

  /** `k` can be reached from `p` through valid nodes only. */
  predicate ValidLinked(s: Cache, p: Path, k: Path)
    decreases |k|
  {
    Mapped(s, k) && Node(s, k).valid && (k == p || (k != [] && Edge(s, k) && ValidLinked(s, p, Up(k))))
  }

  function ValidSubtree(s: Cache, p: Path): (r: set<Ref>) {
    set k | k in s.cacheMap && ValidLinked(s, p, k) :: s.cacheMap[k]
  }

  /** Every node of `nodes` loses its valid flag. */
  function Invalidate(s: Cache, nodes: set<Ref>): Cache {
    s.(heap := map r | r in s.heap :: if r in nodes then s.heap[r].(valid := false) else s.heap[r])
  }

  lemma {:induction false} ValidLinkedIsLinked(s: Cache, p: Path, k: Path)
    requires ValidLinked(s, p, k)
    ensures Linked(s, p, k)
    decreases |k|
  {
    if k != p {
      ValidLinkedIsLinked(s, p, Up(k));
    }
  }

  lemma {:induction false} ValidLinkedFirst(s: Cache, p: Path, k: Path)
    requires ValidLinked(s, p, k) && k != p
    ensures |p| < |k| && p <= k && Mapped(s, p) && Node(s, p).valid && k[|p|] in Node(s, p).children
    ensures ValidLinked(s, p + [k[|p|]], k)
    decreases |k|
  {
    ValidLinkedIsLinked(s, p, k);
    LinkedFirst(s, p, k);
    assert k == Up(k) + [Last(k)];
    if Up(k) == p {
      assert k == p + [k[|p|]];
    } else {
      ValidLinkedFirst(s, p, Up(k));
      assert Up(k)[|p|] == k[|p|];
    }
  }

  lemma {:induction false} ValidLinkedTrans(s: Cache, p: Path, q: Path, k: Path)
    requires ValidLinked(s, p, q) && ValidLinked(s, q, k)
    ensures ValidLinked(s, p, k)
    decreases |k|
  {
    if k != q {
      ValidLinkedTrans(s, p, q, Up(k));
    }
  }

  lemma InvalidateShape(s: Cache, nodes: set<Ref>)
    ensures SameShape(s, Invalidate(s, nodes))
  {
    var t := Invalidate(s, nodes);
    forall r | r in s.heap ensures SameItem(s, t, r) {
    }
  }

  lemma InvalidateTwice(s: Cache, a: set<Ref>, b: set<Ref>)
    ensures Invalidate(Invalidate(s, a), b) == Invalidate(s, a + b)
  {
    var l, r := Invalidate(Invalidate(s, a), b), Invalidate(s, a + b);
    forall x | x in s.heap ensures l.heap[x] == r.heap[x] {
    }
    assert l.heap == r.heap;
  }

  ghost predicate LiveAt(s: Cache, nodes: set<Ref>, k: Path, n: Name) {
    Mapped(s, k) && n in Node(s, k).children && s.cacheMap[k] in nodes && Mapped(s, k + [n]) && Exists(Node(s, k + [n]))
    ==> s.cacheMap[k + [n]] in nodes
  }

  /** A set of nodes that contains the existing children of its members. */
  ghost predicate LiveDownward(s: Cache, nodes: set<Ref>) {
    (Mapped(s, []) ==> s.cacheMap[[]] !in nodes) && forall k, n {:trigger LiveAt(s, nodes, k, n)} :: LiveAt(s, nodes, k, n)
  }

  lemma InvalidateTree(s: Cache, nodes: set<Ref>)
    requires Tree(s) && LiveDownward(s, nodes)
    ensures Tree(Invalidate(s, nodes))
  {
    var t := Invalidate(s, nodes);
    InvalidateShape(s, nodes);
    forall k, n | Mapped(s, k) && n in Node(s, k).children && Mapped(s, k + [n]) && Exists(t.heap[s.cacheMap[k + [n]]])
      ensures Exists(t.heap[s.cacheMap[k]])
    {
      assert EdgeOk(s, k, n) && LiveAt(s, nodes, k, n);
    }
    ShapeTree(s, t);
  }

  // ---------- A subtree ----------

  /** The nodes reached below the children whose names are in `names`. */
  function ValidBranches(s: Cache, p: Path, names: set<Name>): set<Ref> {
    set k | k in s.cacheMap && |p| < |k| && k[|p|] in names && ValidLinked(s, p + [k[|p|]], k) :: s.cacheMap[k]
  }

  lemma ValidBranchesStep(s: Cache, p: Path, names: set<Name>, n: Name)
    ensures ValidBranches(s, p, names + {n}) == ValidBranches(s, p, names) + ValidSubtree(s, p + [n])
  {
    forall k | k in s.cacheMap && ValidLinked(s, p + [n], k) ensures |p| < |k| && k[|p|] == n {
      ValidLinkedIsLinked(s, p + [n], k);
      LinkedPrefix(s, p + [n], k);
    }
    var l, r := ValidBranches(s, p, names + {n}), ValidBranches(s, p, names) + ValidSubtree(s, p + [n]);
    forall x | x in l ensures x in r {
      var k :| k in s.cacheMap && |p| < |k| && k[|p|] in names + {n} && ValidLinked(s, p + [k[|p|]], k) && x == s.cacheMap[k];
      assert k[|p|] == n ==> ValidLinked(s, p + [n], k);
    }
  }

  lemma ValidSubtreeBranches(s: Cache, p: Path)
    requires Tree(s) && Mapped(s, p)
    ensures Node(s, p).valid ==>
              ValidSubtree(s, p) == {s.cacheMap[p]} + ValidBranches(s, p, Node(s, p).children.Keys)
    ensures !Node(s, p).valid ==> ValidSubtree(s, p) == {}
  {
    var l, r := ValidSubtree(s, p), {s.cacheMap[p]} + ValidBranches(s, p, Node(s, p).children.Keys);
    assert Node(s, p).valid ==> ValidLinked(s, p, p);
    forall k | k in s.cacheMap && ValidLinked(s, p, k) && k != p
      ensures Node(s, p).valid && s.cacheMap[k] in ValidBranches(s, p, Node(s, p).children.Keys)
    {
      ValidLinkedFirst(s, p, k);
    }
    forall x | x in r && x != s.cacheMap[p] && Node(s, p).valid ensures x in l {
      var k :| k in s.cacheMap && |p| < |k| && k[|p|] in Node(s, p).children && ValidLinked(s, p + [k[|p|]], k) && x == s.cacheMap[k];
      LinkedChild(s, p, k[|p|]);
      ValidLinkedFrom(s, p + [k[|p|]], k);
      ValidLinkedTrans(s, p, p + [k[|p|]], k);
    }
  }

  lemma {:induction false} ValidLinkedFrom(s: Cache, p: Path, k: Path)
    requires ValidLinked(s, p, k)
    ensures Mapped(s, p) && Node(s, p).valid
    decreases |k|
  {
    if k != p {
      ValidLinkedFrom(s, p, Up(k));
    }
  }

  /** A set of nodes all of whose paths pass a child of `p` named in `names`. */
  ghost predicate Within(s: Cache, p: Path, names: set<Name>, nodes: set<Ref>) {
    forall k {:trigger Mapped(s, k)} | Mapped(s, k) && s.cacheMap[k] in nodes :: p <= k && |p| < |k| && k[|p|] in names
  }

  /** Invalidating other branches does not change what a branch reaches. */
  lemma {:induction false} OtherBranch(s: Cache, p: Path, names: set<Name>, nodes: set<Ref>, n: Name, k: Path)
    requires Within(s, p, names, nodes) && n !in names
    ensures ValidLinked(Invalidate(s, nodes), p + [n], k) <==> ValidLinked(s, p + [n], k)
    decreases |k|
  {
    var t := Invalidate(s, nodes);
    InvalidateShape(s, nodes);
    SameLinked(s, t, p + [n], k);
    if Linked(s, p + [n], k) {
      LinkedPrefix(s, p + [n], k);
      assert k[|p|] == n;
      if k != p + [n] {
        OtherBranch(s, p, names, nodes, n, Up(k));
      }
    } else {
      if ValidLinked(s, p + [n], k) {
        ValidLinkedIsLinked(s, p + [n], k);
      }
      if ValidLinked(t, p + [n], k) {
        ValidLinkedIsLinked(t, p + [n], k);
      }
    }
  }

  lemma OtherSubtree(s: Cache, p: Path, names: set<Name>, nodes: set<Ref>, n: Name)
    requires Within(s, p, names, nodes) && n !in names
    ensures ValidSubtree(Invalidate(s, nodes), p + [n]) == ValidSubtree(s, p + [n])
  {
    forall k ensures ValidLinked(Invalidate(s, nodes), p + [n], k) <==> ValidLinked(s, p + [n], k) {
      OtherBranch(s, p, names, nodes, n, k);
    }
  }

  lemma BranchesWithin(s: Cache, p: Path, names: set<Name>)
    requires Tree(s)
    ensures Within(s, p, names, ValidBranches(s, p, names))
  {
    forall k | Mapped(s, k) && s.cacheMap[k] in ValidBranches(s, p, names)
      ensures p <= k && |p| < |k| && k[|p|] in names
    {
      var j :| j in s.cacheMap && |p| < |j| && j[|p|] in names && ValidLinked(s, p + [j[|p|]], j) && s.cacheMap[j] == s.cacheMap[k];
      if j != k {
        DistinctNodes(s, j, k);
      }
      ValidLinkedIsLinked(s, p + [j[|p|]], j);
      LinkedPrefix(s, p + [j[|p|]], j);
    }
  }

  lemma ValidBranchesLive(s: Cache, p: Path, names: set<Name>)
    requires Tree(s)
    ensures LiveDownward(s, ValidBranches(s, p, names))
  {
    var nodes := ValidBranches(s, p, names);
    BranchesWithin(s, p, names);
    forall k, n | Mapped(s, k) && n in Node(s, k).children && s.cacheMap[k] in nodes && Mapped(s, k + [n]) && Exists(Node(s, k + [n]))
      ensures LiveAt(s, nodes, k, n)
    {
      var j :| j in s.cacheMap && |p| < |j| && j[|p|] in names && ValidLinked(s, p + [j[|p|]], j) && s.cacheMap[j] == s.cacheMap[k];
      if j != k {
        DistinctNodes(s, j, k);
      }
      LinkedChild(s, k, n);
      assert (k + [n])[|p|] == k[|p|] && Up(k + [n]) == k;
    }
  }

  lemma ValidSubtreeLive(s: Cache, p: Path)
    requires Tree(s) && p != []
    ensures LiveDownward(s, ValidSubtree(s, p))
  {
    ValidBranchesLive(s, Up(p), {Last(p)});
    ValidBranchesStep(s, Up(p), {}, Last(p));
    assert {} + {Last(p)} == {Last(p)};
    assert Up(p) + [Last(p)] == p;
    assert ValidBranches(s, Up(p), {}) == {};
    assert ValidSubtree(s, p) == ValidBranches(s, Up(p), {Last(p)});
  }

  /** The outcome of invalidating the subtree at `p`: nothing reachable from it
      exists, and nothing else has changed. */
  lemma InvalidatedBelow(s: Cache, p: Path, k: Path)
    requires Tree(s) && p != [] && Mapped(s, k)
    ensures var t := Invalidate(s, ValidSubtree(s, p));
            && Tree(t) && Mapped(t, k)
            && (Linked(s, p, k) ==> !Exists(Node(t, k)))
            && (!Linked(s, p, k) ==> Node(t, k) == Node(s, k))
  {
    ValidSubtreeLive(s, p);
    InvalidateTree(s, ValidSubtree(s, p));
    if s.cacheMap[k] in ValidSubtree(s, p) {
      var j :| j in s.cacheMap && ValidLinked(s, p, j) && s.cacheMap[j] == s.cacheMap[k];
      if j != k {
        DistinctNodes(s, j, k);
      }
      ValidLinkedIsLinked(s, p, k);
    } else if Linked(s, p, k) && Exists(Node(s, k)) {
      ExistingIsValid(s, p, k);
    }
  }

  lemma {:induction false} ExistingIsValid(s: Cache, p: Path, k: Path)
    requires Tree(s) && Linked(s, p, k) && Exists(Node(s, k))
    ensures ValidLinked(s, p, k)
    decreases |k|
  {
    if k != p {
      assert k == Up(k) + [Last(k)];
      assert EdgeOk(s, Up(k), Last(k));
      ExistingIsValid(s, p, Up(k));
    }
  }
}
