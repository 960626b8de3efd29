/** Which directories cloud storage knows: flags that follow from the children
    and are brought up to date along the ancestors of a change. */
module AttrCloud {
  import opened AttrTree
  import opened AttrInsert
  import opened AttrMove

  predicate InCloudChild(s: Cache, k: Path, n: Name)
    requires Mapped(s, k)
  {
    n in Node(s, k).children && Node(s, k).children[n] in s.heap
    && Exists(s.heap[Node(s, k).children[n]]) && InCloud(s.heap[Node(s, k).children[n]])
  }

  predicate AnyInCloud(s: Cache, k: Path)
    requires Mapped(s, k)
  {
    exists n | n in Node(s, k).children :: InCloudChild(s, k, n)
  }

  /** The flag says whether there is an existing child in the cloud. */
  predicate Match(s: Cache, k: Path) {
    Mapped(s, k) && (InCloud(Node(s, k)) <==> AnyInCloud(s, k))
  }

  function SetFlag(s: Cache, k: Path, inCloud: bool): Cache
    requires Mapped(s, k)
  {
    s.(heap := s.heap[s.cacheMap[k] := MarkedInCloud(Node(s, k), inCloud)])
  }

  lemma SetFlagShape(s: Cache, k: Path, inCloud: bool)
    requires Tree(s) && Mapped(s, k)
    ensures Tree(SetFlag(s, k, inCloud)) && SameShape(s, SetFlag(s, k, inCloud))
    ensures forall j | Mapped(s, j) :: Mapped(SetFlag(s, k, inCloud), j)
              && Node(SetFlag(s, k, inCloud), j) == (if j == k then MarkedInCloud(Node(s, k), inCloud) else Node(s, j))
  {
    var t := SetFlag(s, k, inCloud);
    forall r | r in s.heap ensures SameItem(s, t, r) {
    }
    forall j, n | Mapped(s, j) && n in Node(s, j).children && Mapped(s, j + [n]) && Exists(t.heap[s.cacheMap[j + [n]]])
      ensures Exists(t.heap[s.cacheMap[j]])
    {
      assert EdgeOk(s, j, n);
    }
    ShapeTree(s, t);
    forall j | Mapped(s, j) && j != k ensures Node(t, j) == Node(s, j) {
      DistinctNodes(s, j, k);
    }
  }

  /** Changing a node's flag matters to its parent and to itself only. */
  lemma SetFlagMatch(s: Cache, k: Path, inCloud: bool, j: Path)
    requires Tree(s) && Mapped(s, k) && Mapped(s, j) && j != k && (k == [] || j != Up(k))
    ensures Match(SetFlag(s, k, inCloud), j) <==> Match(s, j)
  {
    var t := SetFlag(s, k, inCloud);
    SetFlagShape(s, k, inCloud);
    forall n | n in Node(s, j).children ensures InCloudChild(t, j, n) <==> InCloudChild(s, j, n) {
      LinkedChild(s, j, n);
      assert Up(j + [n]) == j;
      DistinctNodes(s, k, j + [n]);
    }
  }

  /** A node's own flag is not among its children's. */
  lemma SetFlagSelf(s: Cache, k: Path)
    requires Tree(s) && Mapped(s, k) && k != []
    ensures var t := SetFlag(s, k, AnyInCloud(s, k));
            Mapped(t, k) && (AnyInCloud(t, k) <==> AnyInCloud(s, k)) && (Node(s, k).isDir ==> Match(t, k))
  {
    var t := SetFlag(s, k, AnyInCloud(s, k));
    SetFlagShape(s, k, AnyInCloud(s, k));
    assert NodeOk(s, k);
    forall n | n in Node(s, k).children ensures InCloudChild(t, k, n) <==> InCloudChild(s, k, n) {
      LinkedChild(s, k, n);
      DistinctNodes(s, k, k + [n]);
    }
  }

  // ---------- Updating the ancestors ----------

  /** Every directory from `d` up to, but not including, the root exists. */
  predicate Chain(s: Cache, d: Path)
    decreases |d|
  {
    d == [] || (Mapped(s, d) && Exists(Node(s, d)) && Node(s, d).isDir && Chain(s, Up(d)))
  }

  /** The flags of all of them are right. */
  predicate Matches(s: Cache, d: Path)
    decreases |d|
  {
    d == [] || (Match(s, d) && Matches(s, Up(d)))
  }

  /** Recomputing the flag of every ancestor, bottom up, without stopping early. */
  ghost function FullUpdate(s: Cache, d: Path): Cache
    requires Chain(s, d)
    decreases |d|
  {
    if d == [] then s
    else
      var t := SetFlag(s, d, AnyInCloud(s, d));
      ChainFlag(s, d, AnyInCloud(s, d), Up(d));
      FullUpdate(t, Up(d))
  }

  lemma {:induction false} ChainFlag(s: Cache, k: Path, inCloud: bool, d: Path)
    requires Mapped(s, k) && Chain(s, d)
    ensures Chain(SetFlag(s, k, inCloud), d)
    decreases |d|
  {
    if d != [] {
      ChainFlag(s, k, inCloud, Up(d));
    }
  }

  lemma {:induction false} MatchesFlag(s: Cache, k: Path, inCloud: bool, d: Path)
    requires Tree(s) && Mapped(s, k) && Chain(s, d) && |k| > |d| + 1
    ensures Matches(SetFlag(s, k, inCloud), d) <==> Matches(s, d)
    decreases |d|
  {
    if d != [] {
      MatchesFlag(s, k, inCloud, Up(d));
      SetFlagMatch(s, k, inCloud, d);
    }
  }

  /** Where all flags are right already there is nothing to recompute. */
  lemma {:induction false} FullIdle(s: Cache, d: Path)
    requires Tree(s) && Chain(s, d) && Matches(s, d)
    ensures FullUpdate(s, d) == s
    decreases |d|
  {
    if d != [] {
      assert NodeOk(s, d);
      assert SetFlag(s, d, AnyInCloud(s, d)).heap == s.heap;
      FullIdle(s, Up(d));
    }
  }

  /** A flag is right after the recomputation, whatever it was before. */
  lemma {:induction false} FullMatches(s: Cache, d: Path)
    requires Tree(s) && Chain(s, d)
    ensures Tree(FullUpdate(s, d)) && Matches(FullUpdate(s, d), d) && Chain(FullUpdate(s, d), d)
    ensures SameShape(s, FullUpdate(s, d))
    decreases |d|
  {
    if d == [] {
      ShapeRefl(s);
    } else {
      var t := SetFlag(s, d, AnyInCloud(s, d));
      SetFlagShape(s, d, AnyInCloud(s, d));
      SetFlagSelf(s, d);
      ChainFlag(s, d, AnyInCloud(s, d), Up(d));
      ChainFlag(s, d, AnyInCloud(s, d), d);
      FullMatches(t, Up(d));
      ShapeTrans(s, t, FullUpdate(t, Up(d)));
      FullAbove(t, Up(d), d);
      FullChain(t, Up(d), d);
    }
  }

  /** Recomputing above a node changes neither it nor what it is computed from. */
  lemma {:induction false} FullAbove(s: Cache, d: Path, k: Path)
    requires Tree(s) && Chain(s, d) && Mapped(s, k) && |k| > |d|
    ensures Tree(FullUpdate(s, d)) && (Match(FullUpdate(s, d), k) <==> Match(s, k))
    ensures Mapped(FullUpdate(s, d), k) && Node(FullUpdate(s, d), k) == Node(s, k)
    decreases |d|
  {
    if d != [] {
      var t := SetFlag(s, d, AnyInCloud(s, d));
      SetFlagShape(s, d, AnyInCloud(s, d));
      ChainFlag(s, d, AnyInCloud(s, d), Up(d));
      SetFlagMatch(s, d, AnyInCloud(s, d), k);
      FullAbove(t, Up(d), k);
    }
  }

  lemma {:induction false} FullChain(s: Cache, d: Path, k: Path)
    requires Tree(s) && Chain(s, d) && Chain(s, k)
    ensures Chain(FullUpdate(s, d), k)
    decreases |d|
  {
    if d != [] {
      ChainFlag(s, d, AnyInCloud(s, d), Up(d));
      ChainFlag(s, d, AnyInCloud(s, d), k);
      SetFlagShape(s, d, AnyInCloud(s, d));
      FullChain(SetFlag(s, d, AnyInCloud(s, d)), Up(d), k);
    }
  }

  // ---------- Marking the ancestors ----------

  /** `m` of the prefixes of `d` exist as directories, the longer ones do not. */
  ghost predicate Reaches(s: Cache, d: Path, m: nat) {
    && m <= |d|
    && (forall j {:trigger d[..j]} | 0 < j <= m :: Mapped(s, d[..j]) && Exists(Node(s, d[..j])) && Node(s, d[..j]).isDir)
    && (forall j {:trigger d[..j]} | m < j <= |d| && Mapped(s, d[..j]) :: !Exists(Node(s, d[..j])))
  }

  /** Above a directory in the cloud all are in the cloud. */
  ghost predicate UpClosed(s: Cache, d: Path, m: nat)
    requires Reaches(s, d, m)
  {
    forall i, j {:trigger d[..i], d[..j]} | 0 < i <= j <= m && InCloud(Node(s, d[..j])) :: InCloud(Node(s, d[..i]))
  }

  ghost predicate AllInCloud(s: Cache, d: Path) {
    forall j {:trigger d[..j]} | 0 < j <= |d| :: Mapped(s, d[..j]) && Exists(Node(s, d[..j])) && InCloud(Node(s, d[..j]))
  }

  /** When marking succeeds: not if it creates two levels or more below a
      directory that is not in the cloud, because the new parent counts as in
      the cloud and stops the walk. */
  ghost predicate MarkReaches(s: Cache, d: Path, m: nat)
    requires Reaches(s, d, m)
  {
    m == 0 || m + 1 >= |d| || InCloud(Node(s, d[..m]))
  }

  lemma PrefixUp(d: Path)
    requires d != []
    ensures forall j {:trigger Up(d)[..j]} | 0 <= j <= |d| - 1 :: Up(d)[..j] == d[..j]
    ensures d[..|d|] == d && d[..|d| - 1] == Up(d)
  {
  }

  lemma ReachesUp(s: Cache, d: Path, m: nat)
    requires Reaches(s, d, m) && d != []
    ensures m < |d| ==> Reaches(s, Up(d), m)
    ensures m == |d| ==> Reaches(s, Up(d), m - 1)
    ensures UpClosed(s, d, m) ==> if m == |d| then UpClosed(s, Up(d), m - 1) else UpClosed(s, Up(d), m)
  {
    PrefixUp(d);
    var n := if m == |d| then m - 1 else m;
    forall j | 0 < j <= n ensures Mapped(s, Up(d)[..j]) && Exists(Node(s, Up(d)[..j])) && Node(s, Up(d)[..j]).isDir {
      assert Up(d)[..j] == d[..j];
    }
    forall j | n < j <= |Up(d)| && Mapped(s, Up(d)[..j]) ensures !Exists(Node(s, Up(d)[..j])) {
      assert Up(d)[..j] == d[..j];
    }
    if UpClosed(s, d, m) {
      forall i, j | 0 < i <= j <= n && InCloud(Node(s, Up(d)[..j])) ensures InCloud(Node(s, Up(d)[..i])) {
        assert Up(d)[..j] == d[..j] && Up(d)[..i] == d[..i];
      }
    }
  }

  /** All directories exist and the lowest is in the cloud already. */
  lemma StopInCloud(s: Cache, d: Path)
    requires d != [] && Reaches(s, d, |d|) && UpClosed(s, d, |d|) && Mapped(s, d) && InCloud(Node(s, d))
    ensures AllInCloud(s, d)
  {
    assert d[..|d|] == d;
  }

  /** The lowest existing directory was not in the cloud and gets its mark. */
  lemma MarkStep(s: Cache, d: Path, t: Cache)
    requires Tree(s) && d != [] && Reaches(s, d, |d|) && UpClosed(s, d, |d|) && Mapped(s, d) && t == SetFlag(s, d, true)
    ensures Tree(t) && SameShape(s, t) && Reaches(t, Up(d), |d| - 1) && UpClosed(t, Up(d), |d| - 1)
    ensures Mapped(t, d) && InCloud(Node(t, d)) && Exists(Node(t, d)) && Node(t, d).isDir
  {
    assert d[..|d|] == d;
    SetFlagShape(s, d, true);
    ReachesUp(s, d, |d|);
    PrefixUp(d);
    forall j | 0 < j <= |d| - 1 ensures Mapped(t, Up(d)[..j]) && Node(t, Up(d)[..j]) == Node(s, Up(d)[..j]) {
      assert Up(d)[..j] == d[..j] && |d[..j]| < |d|;
    }
  }

  lemma AllOf(s: Cache, d: Path)
    requires d != [] && Mapped(s, d) && Exists(Node(s, d)) && InCloud(Node(s, d))
    ensures AllInCloud(s, Up(d)) <==> AllInCloud(s, d)
  {
    PrefixUp(d);
    if AllInCloud(s, Up(d)) {
      forall j | 0 < j <= |d| ensures Mapped(s, d[..j]) && Exists(Node(s, d[..j])) && InCloud(Node(s, d[..j])) {
        assert j < |d| ==> Up(d)[..j] == d[..j];
      }
    }
    if AllInCloud(s, d) {
      forall j | 0 < j <= |Up(d)| ensures Mapped(s, Up(d)[..j]) && Exists(Node(s, Up(d)[..j])) && InCloud(Node(s, Up(d)[..j])) {
        assert Up(d)[..j] == d[..j];
      }
    }
  }

  /** After creating the directory, every level that was missing exists and
      counts as in the cloud; the levels above are as they were. */
  lemma CreatedLevels(s: Cache, t: Cache, d: Path, m: nat, at: int, n: nat)
    requires Tree(s) && d != [] && Reaches(s, d, m) && m < |d| && Tree(t)
    requires Inserts(Alloc(s, NewItem(d, true, DIR_ATTRS, true, at)), t, s.next, n)
    ensures n == m
    ensures forall j {:trigger d[..j]} | m < j <= |d| ::
              Mapped(t, d[..j]) && Exists(Node(t, d[..j])) && InCloud(Node(t, d[..j])) && Node(t, d[..j]).isDir
    ensures forall j {:trigger d[..j]} | 0 < j <= m ::
              Mapped(t, d[..j]) && Node(t, d[..j]) == Node(s, d[..j]).(children := Node(t, d[..j]).children)
  {
    var item := NewItem(d, true, DIR_ATTRS, true, at);
    var s0 := Alloc(s, item);
    forall j | 0 <= j <= |d| ensures d[..j] in s.cacheMap ==> NodeOk(s, d[..j]) {
    }
    CreatedNearest(s, s0, d, m, item, n);
    forall j | m < j < |d|
      ensures Mapped(t, d[..j]) && Exists(Node(t, d[..j])) && InCloud(Node(t, d[..j])) && Node(t, d[..j]).isDir
    {
      assert MadeAt(s0, t, item, j);
    }
    InsertedNode(s, t, item, n);
    assert d[..|d|] == d;
    forall j | 0 < j <= m
      ensures Mapped(t, d[..j]) && Node(t, d[..j]) == Node(s, d[..j]).(children := Node(t, d[..j]).children)
    {
      InsertFrame(s, t, item, n, d[..j]);
    }
  }

  lemma CreatedNearest(s: Cache, s0: Cache, d: Path, m: nat, item: Item, n: nat)
    requires Tree(s) && Reaches(s, d, m) && m < |d|
    requires item.path == d && Exists(item) && s0 == Alloc(s, item) && Nearest(s0, item, n)
    ensures n == m
  {
    forall j | 0 <= j < |d| ensures Kept(s0, item, d[..j]) <==> j <= m {
      if d[..j] in s.cacheMap {
        assert NodeOk(s, d[..j]);
      }
      if j == 0 {
        assert d[..j] == [];
      }
    }
    assert Kept(s0, item, item.path[..m]) && Kept(s0, item, d[..n]);
  }

  /** One level was missing: the walk goes on at the parent, which existed. */
  lemma CreatedOne(s: Cache, t: Cache, d: Path, m: nat)
    requires d != [] && Reaches(s, d, m) && UpClosed(s, d, m) && m + 1 == |d|
    requires forall j {:trigger d[..j]} | 0 < j <= m ::
               Mapped(t, d[..j]) && Node(t, d[..j]) == Node(s, d[..j]).(children := Node(t, d[..j]).children)
    ensures Reaches(t, Up(d), m) && UpClosed(t, Up(d), m)
  {
    PrefixUp(d);
    forall j | 0 < j <= m
      ensures Up(d)[..j] == d[..j] && Mapped(t, Up(d)[..j])
              && (InCloud(Node(t, Up(d)[..j])) <==> InCloud(Node(s, d[..j]))) && Exists(Node(t, Up(d)[..j])) && Node(t, Up(d)[..j]).isDir
    {
      assert Up(d)[..j] == d[..j];
    }
    forall i, j | 0 < i <= j <= m && InCloud(Node(t, Up(d)[..j])) ensures InCloud(Node(t, Up(d)[..i])) {
      assert InCloud(Node(s, d[..j])) && InCloud(Node(s, d[..i]));
    }
  }

  /** More were missing: the walk stops at the new parent. */
  lemma CreatedMany(s: Cache, t: Cache, d: Path, m: nat)
    requires d != [] && Reaches(s, d, m) && UpClosed(s, d, m) && m + 1 < |d|
    requires forall j {:trigger d[..j]} | m < j <= |d| ::
               Mapped(t, d[..j]) && Exists(Node(t, d[..j])) && InCloud(Node(t, d[..j])) && Node(t, d[..j]).isDir
    requires forall j {:trigger d[..j]} | 0 < j <= m ::
               Mapped(t, d[..j]) && Node(t, d[..j]) == Node(s, d[..j]).(children := Node(t, d[..j]).children)
    ensures Mapped(t, Up(d)) && Exists(Node(t, Up(d))) && InCloud(Node(t, Up(d)))
    ensures AllInCloud(t, d) <==> MarkReaches(s, d, m)
  {
    PrefixUp(d);
    assert d[..|d| - 1] == Up(d);
    if MarkReaches(s, d, m) {
      forall j | 0 < j <= |d| ensures Mapped(t, d[..j]) && Exists(Node(t, d[..j])) && InCloud(Node(t, d[..j])) {
        if j <= m {
          assert InCloud(Node(s, d[..m])) && InCloud(Node(s, d[..j]));
        }
      }
    } else {
      assert Mapped(t, d[..m]) && !InCloud(Node(t, d[..m]));
    }
  }
}
