/** Invalidating the files of a directory and of the directories in it. */
module AttrFiles {
  import opened AttrTree
  import opened AttrInvalid

  /** `k` is reached from `p` through valid directories. */
  predicate Listed(s: Cache, p: Path, k: Path)
    decreases |k|
  {
    Mapped(s, k) && Node(s, k).valid && (k == p || (k != [] && Edge(s, k) && Node(s, k).isDir && Listed(s, p, Up(k))))
  }

  /** `k` is a valid file in one of those directories, or valid below such a file. */
  predicate FileBelow(s: Cache, p: Path, k: Path)
    decreases |k|
  {
    && k != p && k != [] && Mapped(s, k) && Node(s, k).valid && Edge(s, k)
    && ((!Node(s, k).isDir && Listed(s, p, Up(k))) || FileBelow(s, p, Up(k)))
  }

  function Files(s: Cache, p: Path): set<Ref> {
    set k | k in s.cacheMap && FileBelow(s, p, k) :: s.cacheMap[k]
  }

  /** What is invalidated on behalf of one child. */
  predicate InChild(s: Cache, c: Path, k: Path) {
    Mapped(s, c) && if Node(s, c).isDir then FileBelow(s, c, k) else ValidLinked(s, c, k)
  }

  function ChildFiles(s: Cache, c: Path): set<Ref> {
    set k | k in s.cacheMap && InChild(s, c, k) :: s.cacheMap[k]
  }

  function FileBranches(s: Cache, p: Path, names: set<Name>): set<Ref> {
    set k | k in s.cacheMap && |p| < |k| && k[|p|] in names && InChild(s, p + [k[|p|]], k) :: s.cacheMap[k]
  }

  lemma {:induction false} ListedIsLinked(s: Cache, p: Path, k: Path)
    requires Listed(s, p, k)
    ensures Linked(s, p, k) && ValidLinked(s, p, k)
    decreases |k|
  {
    if k != p {
      ListedIsLinked(s, p, Up(k));
    }
  }

  lemma {:induction false} FileIsLinked(s: Cache, p: Path, k: Path)
    requires FileBelow(s, p, k)
    ensures Linked(s, p, k) && ValidLinked(s, p, k)
    decreases |k|
  {
    if FileBelow(s, p, Up(k)) {
      FileIsLinked(s, p, Up(k));
    } else {
      ListedIsLinked(s, p, Up(k));
    }
  }

  lemma InChildIsLinked(s: Cache, c: Path, k: Path)
    requires InChild(s, c, k)
    ensures ValidLinked(s, c, k) && Linked(s, c, k) && c <= k
  {
    if Node(s, c).isDir {
      FileIsLinked(s, c, k);
    }
    ValidLinkedIsLinked(s, c, k);
    LinkedPrefix(s, c, k);
  }

  lemma {:induction false} ListedFirst(s: Cache, p: Path, k: Path)
    requires Listed(s, p, k) && k != p
    ensures |p| < |k| && Mapped(s, p + [k[|p|]]) && Node(s, p + [k[|p|]]).isDir && Listed(s, p + [k[|p|]], k)
    decreases |k|
  {
    ListedIsLinked(s, p, k);
    LinkedFirst(s, p, k);
    assert k == Up(k) + [Last(k)];
    if Up(k) == p {
      assert k == p + [k[|p|]];
    } else {
      ListedFirst(s, p, Up(k));
      assert Up(k)[|p|] == k[|p|];
    }
  }

  lemma {:induction false} FileFirst(s: Cache, p: Path, k: Path)
    requires FileBelow(s, p, k)
    ensures |p| < |k| && p <= k && Mapped(s, p) && Node(s, p).valid && k[|p|] in Node(s, p).children
    ensures InChild(s, p + [k[|p|]], k)
    decreases |k|
  {
    FileIsLinked(s, p, k);
    ValidLinkedFirst(s, p, k);
    assert k == Up(k) + [Last(k)];
    if FileBelow(s, p, Up(k)) {
      FileFirst(s, p, Up(k));
      assert Up(k)[|p|] == k[|p|];
    } else if Up(k) == p {
      assert k == p + [k[|p|]];
    } else {
      ListedFirst(s, p, Up(k));
      assert Up(k)[|p|] == k[|p|];
    }
  }

  lemma {:induction false} ListedTrans(s: Cache, p: Path, c: Path, k: Path)
    requires Listed(s, p, c) && Listed(s, c, k)
    ensures Listed(s, p, k)
    decreases |k|
  {
    if k != c {
      ListedTrans(s, p, c, Up(k));
    }
  }

  lemma {:induction false} FileFrom(s: Cache, p: Path, n: Name, k: Path)
    requires Tree(s) && Mapped(s, p) && Node(s, p).valid && n in Node(s, p).children
    requires InChild(s, p + [n], k)
    ensures FileBelow(s, p, k)
    decreases |k|
  {
    var c := p + [n];
    LinkedChild(s, p, n);
    assert Up(c) == p;
    assert Listed(s, p, p);
    InChildIsLinked(s, c, k);
    if k == c {
      assert !Node(s, c).isDir;
    } else if InChild(s, c, Up(k)) {
      FileFrom(s, p, n, Up(k));
    } else {
      assert Listed(s, c, Up(k)) && Node(s, c).isDir;
      ListedIsLinked(s, c, Up(k));
      ValidLinkedFrom(s, c, k);
      ListedTrans(s, p, c, Up(k));
    }
  }

  lemma FilesBranches(s: Cache, p: Path)
    requires Tree(s) && Mapped(s, p)
    ensures Files(s, p) == if Node(s, p).valid then FileBranches(s, p, Node(s, p).children.Keys) else {}
  {
    forall k | k in s.cacheMap && FileBelow(s, p, k)
      ensures Node(s, p).valid && s.cacheMap[k] in FileBranches(s, p, Node(s, p).children.Keys)
    {
      FileFirst(s, p, k);
    }
    if Node(s, p).valid {
      forall k | k in s.cacheMap && |p| < |k| && k[|p|] in Node(s, p).children && InChild(s, p + [k[|p|]], k)
        ensures FileBelow(s, p, k)
      {
        FileFrom(s, p, k[|p|], k);
      }
    }
  }

  lemma FileBranchesStep(s: Cache, p: Path, names: set<Name>, n: Name)
    ensures FileBranches(s, p, names + {n}) == FileBranches(s, p, names) + ChildFiles(s, p + [n])
  {
    forall k | k in s.cacheMap && InChild(s, p + [n], k) ensures |p| < |k| && k[|p|] == n {
      InChildIsLinked(s, p + [n], k);
    }
    var l, r := FileBranches(s, p, names + {n}), FileBranches(s, p, names) + ChildFiles(s, p + [n]);
    forall x | x in l ensures x in r {
      var k :| k in s.cacheMap && |p| < |k| && k[|p|] in names + {n} && InChild(s, p + [k[|p|]], k) && x == s.cacheMap[k];
      assert k[|p|] == n ==> InChild(s, p + [n], k);
    }
  }

  lemma FileBranchesWithin(s: Cache, p: Path, names: set<Name>)
    requires Tree(s)
    ensures Within(s, p, names, FileBranches(s, p, names))
  {
    forall k | Mapped(s, k) && s.cacheMap[k] in FileBranches(s, p, names)
      ensures p <= k && |p| < |k| && k[|p|] in names
    {
      var j :| j in s.cacheMap && |p| < |j| && j[|p|] in names && InChild(s, p + [j[|p|]], j) && s.cacheMap[j] == s.cacheMap[k];
      InChildIsLinked(s, p + [j[|p|]], j);
      if j != k {
        DistinctNodes(s, j, k);
      }
    }
  }

  /** Invalidating other branches does not change what a child stands for. */
  lemma OtherFiles(s: Cache, p: Path, names: set<Name>, nodes: set<Ref>, n: Name)
    requires Within(s, p, names, nodes) && n !in names
    ensures ChildFiles(Invalidate(s, nodes), p + [n]) == ChildFiles(s, p + [n])
  {
    var t := Invalidate(s, nodes);
    InvalidateShape(s, nodes);
    forall k ensures InChild(t, p + [n], k) <==> InChild(s, p + [n], k) {
      if Mapped(s, p + [n]) {
        assert SameItem(s, t, s.cacheMap[p + [n]]);
        OtherBranch(s, p, names, nodes, n, k);
        OtherFile(s, p, names, nodes, n, k);
      }
    }
  }

  lemma {:induction false} OtherFile(s: Cache, p: Path, names: set<Name>, nodes: set<Ref>, n: Name, k: Path)
    requires Within(s, p, names, nodes) && n !in names
    ensures Listed(Invalidate(s, nodes), p + [n], k) <==> Listed(s, p + [n], k)
    ensures FileBelow(Invalidate(s, nodes), p + [n], k) <==> FileBelow(s, p + [n], k)
    decreases |k|
  {
    var t := Invalidate(s, nodes);
    InvalidateShape(s, nodes);
    if p + [n] <= k {
      assert k[|p|] == (p + [n])[|p|] == n;
      if k != p + [n] {
        OtherFile(s, p, names, nodes, n, Up(k));
        if Mapped(s, k) && Mapped(s, Up(k)) {
          assert SameItem(s, t, s.cacheMap[k]) && SameItem(s, t, s.cacheMap[Up(k)]);
        }
      }
    } else {
      NotBelow(s, p + [n], k);
      NotBelow(t, p + [n], k);
    }
  }

  lemma NotBelow(s: Cache, c: Path, k: Path)
    requires !(c <= k)
    ensures !Listed(s, c, k) && !FileBelow(s, c, k)
  {
    if Listed(s, c, k) {
      ListedIsLinked(s, c, k);
      LinkedPrefix(s, c, k);
    }
    if FileBelow(s, c, k) {
      FileIsLinked(s, c, k);
      LinkedPrefix(s, c, k);
    }
  }

  lemma FileBranchesLive(s: Cache, p: Path, names: set<Name>)
    requires Tree(s)
    ensures LiveDownward(s, FileBranches(s, p, names))
  {
    var nodes := FileBranches(s, p, names);
    FileBranchesWithin(s, p, names);
    forall k, n | Mapped(s, k) && n in Node(s, k).children && s.cacheMap[k] in nodes && Mapped(s, k + [n]) && Exists(Node(s, k + [n]))
      ensures LiveAt(s, nodes, k, n)
    {
      var j :| j in s.cacheMap && |p| < |j| && j[|p|] in names && InChild(s, p + [j[|p|]], j) && s.cacheMap[j] == s.cacheMap[k];
      if j != k {
        DistinctNodes(s, j, k);
      }
      LinkedChild(s, k, n);
      assert (k + [n])[|p|] == k[|p|] && Up(k + [n]) == k;
      InChildIsLinked(s, p + [k[|p|]], k);
    }
  }

  /** The outcome: every file reached through valid directories is invalid,
      those directories stay, and so does everything not reachable. */
  lemma InvalidatedFiles(s: Cache, p: Path, k: Path)
    requires Tree(s) && Mapped(s, p) && Mapped(s, k)
    ensures var t := Invalidate(s, Files(s, p));
            && Tree(t)
            && (k != [] && k != p && Edge(s, k) && !Node(s, k).isDir && Listed(s, p, Up(k)) ==> !Node(t, k).valid)
            && (Listed(s, p, k) ==> Node(t, k) == Node(s, k))
            && (!Linked(s, p, k) ==> Node(t, k) == Node(s, k))
  {
    FilesBranches(s, p);
    FileBranchesLive(s, p, if Node(s, p).valid then Node(s, p).children.Keys else {});
    if !Node(s, p).valid {
      assert FileBranches(s, p, {}) == {};
    }
    InvalidateTree(s, Files(s, p));
    if s.cacheMap[k] in Files(s, p) {
      var j :| j in s.cacheMap && FileBelow(s, p, j) && s.cacheMap[j] == s.cacheMap[k];
      if j != k {
        DistinctNodes(s, j, k);
      }
      FileIsLinked(s, p, k);
      if Listed(s, p, k) {
        FileNotListed(s, p, k);
      }
    }
  }

  lemma {:induction false} FileNotListed(s: Cache, p: Path, k: Path)
    requires FileBelow(s, p, k)
    ensures !Listed(s, p, k)
    decreases |k|
  {
    if FileBelow(s, p, Up(k)) {
      FileNotListed(s, p, Up(k));
    }
  }
}
