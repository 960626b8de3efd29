/** The attribute cache as the program keeps it: nodes with parent and child
    pointers, updated in place by recursive methods. */
module AttrCache {
  import opened AttrTree
  import opened AttrMarks
  import opened AttrInvalid
  import opened AttrInsert
  import opened AttrMove
  import opened AttrFiles
  import opened AttrEvict
  import opened AttrOrder
  import opened AttrCloud

  class CacheTreeMap {
    const maxFiles: nat
    var heap: map<Ref, Item>
    var cacheMap: map<Path, Ref>
    var next: Ref

    function View(): Cache
      reads this
    {
      Cache(heap, cacheMap, next)
    }

    constructor (maxFiles: nat)
      ensures Tree(View()) && cacheMap.Keys == {[]} && this.maxFiles == maxFiles
    {
      this.maxFiles := maxFiles;
      heap := map[0 := NewItem([], true, DIR_ATTRS, true, 0)];
      cacheMap, next := map[[] := 0], 1;
      new;
      assert NodeOk(View(), []);
    }

    // ---------- Deleting and invalidating ----------

    /** Mark a node and everything existing below it deleted; never the root. */
    method MarkDeleted(r: Ref, at: int)
      requires Tree(View()) && MappedAs(View(), r)
      modifies this`heap
      ensures Tree(View())
      ensures heap == if old(heap)[r].path == [] then old(heap)
                      else Delete(old(View()), Subtree(old(View()), old(heap)[r].path), at).heap
      decreases MaxLen(cacheMap.Keys) - |heap[r].path|
    {
      hide Tree, Delete, Subtree, Branches;
      var p := heap[r].path;
      ghost var s := View();
      if p == [] {
        return;
      }
      if !Exists(heap[r]) {
        AlreadyDeleted(s, p, at);
        return;
      }
      var todo := heap[r].children.Keys;
      ghost var done: set<Name> := {};
      BranchesNone(s, p, at);
      while todo != {}
        invariant Tree(View()) && done + todo == Node(s, p).children.Keys
        invariant View() == Delete(s, Branches(s, p, done), at)
        decreases |todo|
      {
        var n :| n in todo;
        ChildMapped(s, View(), p, n, Branches(s, p, done), at);
        ghost var u := View();
        MarkDeleted(heap[r].children[n], at);
        DeleteBranch(s, u, p, done, n, at);
        todo, done := todo - {n}, done + {n};
      }
      assert done == Node(s, p).children.Keys;
      MarkSelf(s, View(), p, at);
      heap := heap[r := DeletedItem(heap[r], at)];
      DeleteSubtreeTree(s, p, at);
    }

    /** Clear the valid flag of a node and of what can be reached from it
        through valid nodes; never of the root. */
    method InvalidateItem(r: Ref)
      requires Tree(View()) && MappedAs(View(), r)
      modifies this`heap
      ensures Tree(View())
      ensures heap == if old(heap)[r].path == [] then old(heap)
                      else AttrInvalid.Invalidate(old(View()), ValidSubtree(old(View()), old(heap)[r].path)).heap
      decreases MaxLen(cacheMap.Keys) - |heap[r].path|
    {
      hide Tree, AttrInvalid.Invalidate, ValidSubtree, ValidBranches, MaxLen, Exists;
      var p := heap[r].path;
      ghost var s := View();
      if p == [] {
        return;
      }
      ValidSubtreeBranches(s, p);
      InvalidateNone(s);
      if !heap[r].valid {
        return;
      }
      var todo := heap[r].children.Keys;
      ghost var done: set<Name> := {};
      NoValidBranches(s, p);
      while todo != {}
        invariant Tree(View()) && done + todo == Node(s, p).children.Keys && done !! todo
        invariant View() == AttrInvalid.Invalidate(s, ValidBranches(s, p, done))
        decreases |todo|
      {
        var n :| n in todo;
        ValidChildMapped(s, View(), p, n, ValidBranches(s, p, done));
        ghost var u := View();
        InvalidateItem(heap[r].children[n]);
        InvalidateBranch(s, u, p, done, n);
        todo, done := todo - {n}, done + {n};
      }
      assert done == Node(s, p).children.Keys;
      InvalidateSelf(s, View(), p);
      heap := heap[r := heap[r].(valid := false)];
      InvalidateSubtreeTree(s, p);
    }

    /** Invalidate the files in a directory and in the directories below it,
        but none of these directories themselves. */
    method InvalidateDirectory(p: Path)
      requires Tree(View())
      modifies this`heap
      ensures Tree(View())
      ensures heap == if p in cacheMap then AttrInvalid.Invalidate(old(View()), Files(old(View()), p)).heap else old(heap)
      decreases MaxLen(cacheMap.Keys) - |p|
    {
      hide Tree, AttrInvalid.Invalidate, Files, FileBranches, ChildFiles, NodeOk;
      ghost var s := View();
      if p !in cacheMap {
        return;
      }
      KeyMapped(s, p);
      FilesBranches(s, p);
      InvalidateNone(s);
      var r := cacheMap[p];
      if !heap[r].valid {
        return;
      }
      var todo := heap[r].children.Keys;
      ghost var done: set<Name> := {};
      NoFileBranches(s, p);
      while todo != {}
        invariant Tree(View()) && done + todo == Node(s, p).children.Keys && done !! todo
        invariant View() == AttrInvalid.Invalidate(s, FileBranches(s, p, done))
        decreases |todo|
      {
        var n :| n in todo;
        ghost var u := View();
        ValidChildMapped(s, u, p, n, FileBranches(s, p, done));
        ChildSet(u, p + [n]);
        var child := heap[r].children[n];
        if !heap[child].isDir {
          FileNotRoot(p, n);
          InvalidateItem(child);
        } else {
          InvalidateDirectory(heap[child].path);
        }
        FileBranch(s, u, p, done, n);
        todo, done := todo - {n}, done + {n};
      }
      assert done == Node(s, p).children.Keys;
    }

    // ---------- Expiry ----------

    /** First pass: the keys of expired nodes, never the root's. */
    method CollectExpired(now: int, timeout: nat) returns (keys: set<Path>)
      requires Tree(View())
      ensures forall k :: k in keys <==> Mapped(View(), k) && k != [] && Expired(Node(View(), k), now, timeout)
    {
      hide Tree;
      keys := {};
      var todo := cacheMap.Keys;
      while todo != {}
        invariant todo <= cacheMap.Keys
        invariant forall k :: k in keys <==> Mapped(View(), k) && k !in todo && k != [] && Expired(Node(View(), k), now, timeout)
        decreases |todo|
      {
        var k :| k in todo;
        KeyMapped(View(), k);
        if k != [] && Expired(heap[cacheMap[k]], now, timeout) {
          keys := keys + {k};
        }
        todo := todo - {k};
      }
    }

    /** Second pass, over the keys in reverse order: remove the expired nodes
        that have no children left. */
    method RemoveExpired(keys: seq<Path>, now: int, timeout: nat)
      requires Tree(View()) && DeepestFirst(keys) && [] !in keys
      modifies this`heap, this`cacheMap
      ensures Sweep(old(View()), View(), keys, now, timeout, |keys|)
    {
      hide Tree, Sweep, NodeOk, DeepestFirst;
      ghost var s := View();
      SweepNone(s, keys, now, timeout);
      var i := 0;
      while i < |keys|
        invariant 0 <= i <= |keys| && Tree(View())
        invariant Sweep(s, View(), keys, now, timeout, i)
      {
        var path := keys[i];
        ghost var t := View();
        if path in cacheMap {
          KeyMapped(t, path);
        }
        if path in cacheMap && heap[cacheMap[path]].children == map[] && Expired(heap[cacheMap[path]], now, timeout) {
          SweepEvict(s, t, keys, now, timeout, i);
          EvictTree(t, path);
          RemoveNode(cacheMap[path], path);
        } else {
          SweepSkip(s, t, keys, now, timeout, i);
        }
        i := i + 1;
      }
    }

    /** Both passes: while the cloud is reachable, remove the expired nodes, greatest
        key first. A node other than the root stays if and only if it, or something
        reachable from it, is not expired; what stays keeps its time stamp and exists
        as before. The second pass may look at the clock later. */
    method CleanupExpiredEntries(connected: bool, now: int, later: int, timeout: nat)
      requires Tree(View()) && now <= later
      modifies this`heap, this`cacheMap
      ensures Tree(View()) && (!connected ==> View() == old(View()))
      ensures forall k | k in cacheMap :: k in old(cacheMap)
      ensures connected ==> forall k {:trigger Mapped(View(), k)} | Mapped(old(View()), k) ::
                (Mapped(View(), k) <==> k == [] || Guarded(old(View()), k, now, timeout))
                && (Mapped(View(), k) ==> Node(View(), k).cachedAt == Node(old(View()), k).cachedAt
                                          && (Exists(Node(View(), k)) <==> Exists(Node(old(View()), k))))
    {
      hide Tree, DeepestFirst, Descending, Guarded;
      if !connected {
        return;
      }
      ghost var s := View();
      var found := CollectExpired(now, timeout);
      var keys := SortKeys(found);
      DescendingDeepest(keys);
      RemoveExpired(keys, later, timeout);
      SweptTree(s, View(), keys, later, timeout);
      forall k | Mapped(s, k)
        ensures (Mapped(View(), k) <==> k == [] || Guarded(s, k, now, timeout))
                && (Mapped(View(), k) ==> Node(View(), k).cachedAt == Node(s, k).cachedAt
                                          && (Exists(Node(View(), k)) <==> Exists(Node(s, k))))
      {
        SweptIff(s, View(), keys, now, later, timeout, k);
        assert SweepAt(s, View(), keys, later, timeout, k);
      }
    }

    /** Invalidate the node if it exists, unhook it and unmap it. */
    method RemoveNode(r: Ref, path: Path)
      requires Tree(View()) && path in cacheMap && cacheMap[path] == r && r in heap && path != [] && heap[r].path == path
      requires heap[r].children == map[]
      modifies this`heap, this`cacheMap
      ensures Mapped(old(View()), path) && View() == Evict(old(View()), path)
    {
      hide Tree;
      ghost var t := View();
      if Exists(heap[r]) {
        Childless(t, path);
        InvalidateItem(r);
      }
      ghost var h := heap;
      var item := heap[r];
      if item.parent.Some? && item.parent.value in heap {
        var parent := item.parent.value;
        heap := heap[parent := heap[parent].(children := heap[parent].children - {Last(item.path)})];
      }
      cacheMap := cacheMap - {path};
      RemoveIsEvict(t, path, h);
    }

    // ---------- Inserting ----------

    /** Add a node to the tree and the map, bottom up: a missing parent, or one
        that does not exist while the node does, is created first. */
    method InsertItem(r: Ref) returns (ghost m: nat)
      requires Tree(View()) && Loose(View(), r)
      modifies this`heap, this`cacheMap, this`next
      ensures Tree(View()) && Inserts(old(View()), View(), r, m)
      decreases |heap[r].path|
    {
      hide Tree, Inserts, Loose, NodeOk, EdgeOk;
      ghost var s := View();
      LooseFacts(s, r);
      var item := heap[r];
      var parentPath := Up(item.path);
      if !Kept(View(), item, parentPath) {
        RootKept(s, item);
        var q := next;
        heap, next := heap[q := NewItem(parentPath, true, DIR_ATTRS, Exists(item), item.cachedAt)], next + 1;
        ghost var s0 := View();
        AllocTree(s, ParentItem(item));
        m := InsertItem(q);
        InsertAbove(s, r, s0, View(), q, m);
      } else {
        InsertUnder(s, r);
        m := |item.path| - 1;
      }
      ghost var t := View();
      AttachPlace(t, r);
      var parent := cacheMap[parentPath];
      heap := heap[r := heap[r].(parent := Some(parent))];
      heap := heap[parent := heap[parent].(children := heap[parent].children[Last(item.path) := r])];
      cacheMap := cacheMap[item.path := r];
      assert View() == Attach(t, r);
    }

    /** Insert a new node for `path`; refused for the root and when the cache is full. */
    method Insert(path: Path, isDir: bool, attrs: Attrs, present: bool, at: int) returns (r: Option<Ref>, ghost m: nat)
      requires Tree(View())
      modifies this`heap, this`cacheMap, this`next
      ensures Tree(View())
      ensures r == None <==> |old(cacheMap)| >= maxFiles || path == []
      ensures r == None ==> View() == old(View())
      ensures r != None ==> Inserted(old(View()), View(), NewItem(path, isDir, attrs, present, at), r.value, m)
    {
      hide Tree, Inserts, Loose;
      m := 0;
      if |cacheMap| >= maxFiles {
        return None, 0;
      }
      if path == [] {
        return None, 0;
      }
      ghost var s := View();
      var newItem := next;
      AllocTree(s, NewItem(path, isDir, attrs, present, at));
      heap, next := heap[newItem := NewItem(path, isDir, attrs, present, at)], next + 1;
      m := InsertItem(newItem);
      r := Some(newItem);
    }

    // ---------- Moving ----------

    /** Record whether cloud storage knows the directory; the root always is known. */
    method MarkInCloud(r: Ref, inCloud: bool)
      requires r in heap
      modifies this`heap
      ensures heap == old(heap)[r := MarkedInCloud(old(heap)[r], inCloud)]
    {
      var item := heap[r];
      if item.path == [] && !inCloud {
        return;
      }
      if !item.isDir {
        return;
      }
      heap := heap[r := item.(notInCloud := !inCloud)];
    }

    /** Move an existing node and all that exists below it from under `srcDir`
        to the same place under `dstDir`. `room` bounds the paths in use: the
        program counts on the cache not filling up on the way. */
    method MoveCachedItem(r: Ref, srcDir: Path, dstDir: Path, at: int, ghost room: set<Path>) returns (dst: Option<Ref>)
      requires Tree(View()) && MappedAs(View(), r)
      requires srcDir <= heap[r].path && Apart(srcDir, dstDir)
      requires |room| < maxFiles && Fits(View(), heap[r].path, dstDir + heap[r].path[|srcDir|..], room)
      modifies this`heap, this`cacheMap, this`next
      ensures !Exists(old(heap)[r]) ==> View() == old(View()) && dst == None
      ensures Exists(old(heap)[r]) ==>
                var p := old(heap)[r].path; var d := dstDir + p[|srcDir|..];
                Moved(old(View()), View(), p, d) && cacheMap.Keys <= room && dst == Some(cacheMap[d])
      decreases MaxLen(room) - |heap[r].path|, 2
    {
      hide Tree, Moved, Progress, Delete, Subtree, Inserts, Fits, Apart, NodeOk, MaxLen, SameNode, Nearest, Kept;
      if !Exists(heap[r]) {
        return None;
      }
      ghost var s := View();
      var srcItem := heap[r];
      var p, d := srcItem.path, dstDir + srcItem.path[|srcDir|..];
      ApartBelow(srcDir, dstDir, p);
      var dstItem := CopyNode(r, d, room);
      MoveChildren(s, r, srcDir, dstDir, at, room);
      DropSource(s, r, d, at);
      dst := Some(dstItem);
    }

    /** The loop over the children. */
    method MoveChildren(ghost s: Cache, r: Ref, srcDir: Path, dstDir: Path, at: int, ghost room: set<Path>)
      requires r in s.heap && MappedAs(s, r)
      requires srcDir <= s.heap[r].path && Apart(srcDir, dstDir)
      requires var p := s.heap[r].path; var d := dstDir + p[|srcDir|..];
               Progress(s, View(), p, d, {}) && Fits(s, p, d, room) && cacheMap.Keys <= room && |room| < maxFiles && d in cacheMap
      modifies this`heap, this`cacheMap, this`next
      ensures var p := s.heap[r].path; var d := dstDir + p[|srcDir|..];
              Progress(s, View(), p, d, s.heap[r].children.Keys) && cacheMap.Keys <= room
              && d in cacheMap && cacheMap[d] == old(cacheMap)[d]
      decreases MaxLen(room) - |s.heap[r].path|, 1
    {
      hide Tree, Moved, Progress, Fits, Apart, MaxLen;
      ghost var p := s.heap[r].path;
      ghost var d := dstDir + p[|srcDir|..];
      ghost var done: set<Name> := {};
      SourceStays(s, View(), p, d, done);
      var todo := heap[r].children.Keys;
      while todo != {}
        invariant Progress(s, View(), p, d, done) && cacheMap.Keys <= room
        invariant done + todo == s.heap[r].children.Keys && done !! todo
        invariant d in cacheMap && cacheMap[d] == old(cacheMap)[d]
        decreases |todo|
      {
        var n :| n in todo;
        MoveChild(s, r, n, srcDir, dstDir, at, done, room);
        todo, done := todo - {n}, done + {n};
      }
      assert done == s.heap[r].children.Keys;
    }

    /** With every child moved the source goes. */
    method DropSource(ghost s: Cache, r: Ref, ghost d: Path, at: int)
      requires r in s.heap && MappedAs(s, r) && Progress(s, View(), s.heap[r].path, d, s.heap[r].children.Keys)
      modifies this`heap
      ensures Moved(s, View(), s.heap[r].path, d)
    {
      hide Tree, Moved, Progress, Delete, Subtree, NodeOk, MaxLen, SameNode;
      ghost var u, p := View(), s.heap[r].path;
      SourceStays(s, u, p, d, s.heap[r].children.Keys);
      ProgressApart(s, u, p, d, s.heap[r].children.Keys);
      MarkDeleted(r, at);
      DeleteSubtreeTree(u, p, at);
      Complete(s, u, p, d, at);
    }

    /** The node's copy at `d`, without children. */
    method CopyNode(r: Ref, d: Path, ghost room: set<Path>) returns (dstItem: Ref)
      requires Tree(View()) && MappedAs(View(), r) && Exists(heap[r]) && Apart(heap[r].path, d)
      requires |room| < maxFiles && Fits(View(), heap[r].path, d, room)
      modifies this`heap, this`cacheMap, this`next
      ensures Progress(old(View()), View(), old(heap)[r].path, d, {}) && cacheMap.Keys <= room
      ensures d in cacheMap && cacheMap[d] == dstItem
    {
      hide Tree, Progress, Inserts, Fits, NodeOk, MaxLen, SameNode, Nearest, Kept;
      ghost var s, p := View(), heap[r].path;
      var srcItem := heap[r];
      FitsCount(s, p, d, room);
      var dst;
      ghost var m;
      dst, m := Insert(d, srcItem.isDir, srcItem.attrs, true, srcItem.cachedAt);
      ghost var t := View();
      dstItem := dst.value;
      InsertFits(s, t, p, d, room, Copied(srcItem, d), m);
      InsertedNode(s, t, Copied(srcItem, d), m);
      MarkInCloud(dstItem, InCloud(srcItem));
      Begin(s, t, p, d, m, View());
    }

    /** One turn of the loop over the children. */
    method MoveChild(ghost s: Cache, r: Ref, n: Name, srcDir: Path, dstDir: Path, at: int, ghost done: set<Name>, ghost room: set<Path>)
      requires r in s.heap && MappedAs(s, r)
      requires srcDir <= s.heap[r].path && Apart(srcDir, dstDir)
      requires var p := s.heap[r].path; var d := dstDir + p[|srcDir|..];
               Progress(s, View(), p, d, done) && Fits(s, p, d, room) && cacheMap.Keys <= room && |room| < maxFiles
               && n in s.heap[r].children && n !in done && d in cacheMap
      modifies this`heap, this`cacheMap, this`next
      ensures var p := s.heap[r].path; var d := dstDir + p[|srcDir|..];
              Progress(s, View(), p, d, done + {n}) && cacheMap.Keys <= room
              && d in cacheMap && cacheMap[d] == old(cacheMap)[d]
      decreases MaxLen(room) - |s.heap[r].path|, 0
    {
      hide Tree, Moved, Progress, Fits;
      ghost var u := View();
      ghost var p := s.heap[r].path;
      ghost var d := dstDir + p[|srcDir|..];
      ProgressTree(s, u, p, d, done);
      ChildToMove(s, u, p, d, done, n);
      ChildFits(s, u, p, d, room, done, n);
      BelowChild(p, srcDir, dstDir, n);
      FitsLength(s, p, d, room, n);
      var child := heap[r].children[n];
      var moved := MoveCachedItem(child, srcDir, dstDir, at, room);
      if Exists(u.heap[child]) {
        StepMoved(s, u, p, d, done, n, View());
        TargetStays(s, u, View(), p, d, done, n);
      } else {
        StepNone(s, u, p, d, done, n);
      }
    }

    // ---------- What the cloud knows ----------

    /** Whether some existing child is in the cloud. */
    method AnyChildInCloud(p: Path) returns (any: bool)
      requires Tree(View()) && Mapped(View(), p)
      ensures any <==> AnyInCloud(View(), p)
    {
      hide Tree;
      var children := heap[cacheMap[p]].children;
      var todo := children.Keys;
      while todo != {}
        invariant todo <= children.Keys
        invariant forall n | n in children.Keys - todo :: !InCloudChild(View(), p, n)
        decreases |todo|
      {
        var n :| n in todo;
        ChildInHeap(View(), p, n);
        if Exists(heap[children[n]]) && InCloud(heap[children[n]]) {
          assert InCloudChild(View(), p, n);
          return true;
        }
        todo := todo - {n};
      }
      any := false;
    }

    /** Bring the flags of a directory and its ancestors up to date after one
        child of the directory changed, stopping at the first that is right
        already. `ok` is false when a missing directory could not be added. */
    method UpdateAncestorsInCloud(d: Path, at: int) returns (ok: bool)
      requires Tree(View())
      modifies this`heap, this`cacheMap, this`next
      ensures Tree(View())
      ensures Chain(old(View()), d) && Matches(old(View()), Up(d)) ==> ok && View() == FullUpdate(old(View()), d)
    {
      hide Tree, Chain, Matches, FullUpdate, Match, AnyInCloud, NodeOk, Inserts;
      ghost var s := View();
      ghost var exact := Chain(s, d) && Matches(s, Up(d));
      var dirPath := d;
      while dirPath != []
        invariant Tree(View())
        invariant exact ==> Chain(View(), dirPath) && Matches(View(), Up(dirPath))
                            && FullUpdate(View(), dirPath) == FullUpdate(s, d)
        decreases |dirPath|
      {
        ghost var t := View();
        if exact {
          ChainTop(t, dirPath);
        }
        if dirPath in cacheMap {
          KeyMapped(t, dirPath);
        }
        if dirPath !in cacheMap || !Exists(heap[cacheMap[dirPath]]) {
          ghost var m;
          var added;
          added, m := Insert(dirPath, true, DIR_ATTRS, true, at);
          if added == None {
            return false;
          }
          InsertedPlace(t, View(), dirPath, at, m);
        }
        ghost var u := View();
        var item := cacheMap[dirPath];
        KeyMapped(u, dirPath);
        var any := AnyChildInCloud(dirPath);
        if InCloud(heap[item]) != any {
          MarkInCloud(item, any);
          SetFlagShape(u, dirPath, any);
          if exact {
            UpdateStep(u, dirPath);
          }
        } else {
          if exact {
            UpdateStop(u, dirPath);
          }
          break;
        }
        dirPath := Up(dirPath);
      }
      if exact && dirPath == [] {
        UpdateTop(View());
      }
      ok := true;
    }

    /** Record that the directory and its ancestors are in the cloud, stopping at
        the first that is so already. `m` of them exist at the start. Failing to
        add a directory to a full cache leaves `ok` false. */
    method MarkAncestorsInCloud(d: Path, at: int, ghost m: nat) returns (ok: bool)
      requires Tree(View())
      modifies this`heap, this`cacheMap, this`next
      ensures Tree(View())
      ensures MarkedBefore(old(View()), d) ==> ok && View() == old(View())
      ensures Reaches(old(View()), d, m) && UpClosed(old(View()), d, m) && ok ==>
                (AllInCloud(View(), d) <==> MarkReaches(old(View()), d, m))
      ensures Reaches(old(View()), d, |d|) && UpClosed(old(View()), d, |d|) ==>
                ok && forall k {:trigger Mapped(old(View()), k)} | Mapped(old(View()), k) && !(k <= d) ::
                        Mapped(View(), k) && Node(View(), k) == Node(old(View()), k)
      decreases |d|
    {
      hide Tree, Reaches, UpClosed, AllInCloud, NodeOk, Inserts, MarkReaches, MarkedInCloud;
      ghost var s := View();
      ghost var exact := Reaches(s, d, m) && UpClosed(s, d, m);
      if d == [] {
        MarkRoot(s, m);
        return true;
      }
      if d in cacheMap {
        KeyMapped(s, d);
      }
      ReachesTop(s, d, m);
      if d !in cacheMap || !Exists(heap[cacheMap[d]]) {
        ok := MarkNewDirectory(d, at, m);
        return;
      }
      if InCloud(heap[cacheMap[d]]) {
        if exact {
          MarkStop(s, d, m);
        }
        return true;
      }
      MarkInCloud(cacheMap[d], true);
      if Reaches(s, d, |d|) && UpClosed(s, d, |d|) {
        MarkStep(s, d, View());
        UpOutside(s, d);
      }
      SetFlagShape(s, d, true);
      ghost var t := View();
      ok := MarkAncestorsInCloud(Up(d), at, |d| - 1);
      if exact {
        MarkEnd(s, t, View(), d, m);
      }
    }

    /** The directory is missing: create it, then see to its parent. */
    method MarkNewDirectory(d: Path, at: int, ghost m: nat) returns (ok: bool)
      requires Tree(View()) && d != [] && !(Mapped(View(), d) && Exists(Node(View(), d)))
      modifies this`heap, this`cacheMap, this`next
      ensures Tree(View())
      ensures Reaches(old(View()), d, m) && UpClosed(old(View()), d, m) && ok ==>
                (AllInCloud(View(), d) <==> MarkReaches(old(View()), d, m))
      decreases |d|, 0
    {
      hide Tree, Reaches, UpClosed, AllInCloud, NodeOk, Inserts, MarkReaches, MarkedInCloud;
      ghost var s := View();
      ghost var exact := Reaches(s, d, m) && UpClosed(s, d, m);
      ReachesTop(s, d, m);
      var added;
      ghost var n;
      added, n := Insert(d, true, DIR_ATTRS, true, at);
      if added == None {
        return false;
      }
      ghost var t := View();
      InsertedPlace(s, t, d, at, n);
      MarkInCloud(added.value, true);
      MarkedAgain(t, d);
      ghost var below := if m + 1 == |d| then m else 0;
      if exact {
        CreatedLevels(s, t, d, m, at, n);
        if m + 1 == |d| {
          CreatedOne(s, t, d, m);
        } else {
          CreatedMany(s, t, d, m);
        }
      }
      ok := MarkAncestorsInCloud(Up(d), at, below);
      if exact && m + 1 == |d| {
        OneEnd(s, t, View(), d, m);
      }
    }

    // ---------- Deleting a directory ----------

    /** Record that a directory and everything in it is gone. */
    method DeleteDirectory(path: Path, at: int) returns (found: bool, ok: bool)
      requires Tree(View())
      modifies this`heap, this`cacheMap, this`next
      ensures Tree(View())
      ensures found <==> Mapped(old(View()), path) && Exists(Node(old(View()), path))
      ensures !found ==> View() == old(View())
      ensures found && path != [] && Chain(old(View()), Up(path)) && Matches(old(View()), Up(Up(path))) ==>
                && ok && Chain(View(), Up(path)) && Matches(View(), Up(path))
                && forall k {:trigger GoneAt(View(), path, k)} :: GoneAt(View(), path, k)
    {
      hide Tree, Chain, Matches, FullUpdate, NodeOk, Delete, Subtree, Exists;
      ghost var s := View();
      ok := true;
      if path in cacheMap {
        KeyMapped(s, path);
      }
      if path !in cacheMap || !Exists(heap[cacheMap[path]]) {
        return false, true;
      }
      found := true;
      MarkDeleted(cacheMap[path], at);
      ghost var t := View();
      if path != [] && Chain(s, Up(path)) && Matches(s, Up(Up(path))) {
        DeleteSubtreeTree(s, path, at);
        DeletedChain(s, t, path, at);
      }
      ok := UpdateAncestorsInCloud(Up(path), at);
      if path != [] && Chain(s, Up(path)) && Matches(s, Up(Up(path))) {
        FullMatches(t, Up(path));
        GoneStays(s, t, View(), path, at);
      }
    }
  }

  // ---------- Facts the methods use ----------

  ghost predicate MappedAs(s: Cache, r: Ref) {
    r in s.heap && Mapped(s, s.heap[r].path) && s.cacheMap[s.heap[r].path] == r
  }

  /** A new node for `item` went into the cache. */
  ghost predicate Inserted(s: Cache, t: Cache, item: Item, r: Ref, m: nat) {
    r == s.next && Inserts(Alloc(s, item), t, r, m)
  }

  lemma BranchesNone(s: Cache, p: Path, at: int)
    ensures Delete(s, Branches(s, p, {}), at) == s
  {
    assert Branches(s, p, {}) == {};
    DeleteNone(s, {}, at);
  }

  /** While the branches are being deleted, a child is still where it was. */
  lemma ChildMapped(s: Cache, u: Cache, p: Path, n: Name, nodes: set<Ref>, at: int)
    requires Tree(s) && Mapped(s, p) && n in Node(s, p).children && u == Delete(s, nodes, at)
    ensures Mapped(u, p) && u.cacheMap == s.cacheMap && n in Node(u, p).children
    ensures MappedAs(u, Node(u, p).children[n]) && u.heap[Node(u, p).children[n]].path == p + [n]
    ensures p + [n] in u.cacheMap.Keys
  {
    LinkedChild(s, p, n);
    assert NodeOk(s, p + [n]);
  }

  lemma DeleteBranch(s: Cache, u: Cache, p: Path, done: set<Name>, n: Name, at: int)
    requires Tree(s) && u == Delete(s, Branches(s, p, done), at)
    ensures u.(heap := Delete(u, Subtree(u, p + [n]), at).heap) == Delete(s, Branches(s, p, done + {n}), at)
  {
    DeleteShape(s, Branches(s, p, done), at);
    ShapeSubtree(s, u, p + [n]);
    DeleteTwice(s, Branches(s, p, done), Subtree(s, p + [n]), at);
    BranchesStep(s, p, done, n);
  }

  lemma MarkSelf(s: Cache, u: Cache, p: Path, at: int)
    requires Tree(s) && Mapped(s, p) && Exists(Node(s, p))
    requires u == Delete(s, Branches(s, p, Node(s, p).children.Keys), at)
    ensures Mapped(u, p) && u.cacheMap[p] == s.cacheMap[p] && u.cacheMap == s.cacheMap
    ensures u.heap[s.cacheMap[p] := DeletedItem(u.heap[s.cacheMap[p]], at)] == Delete(s, Subtree(s, p), at).heap
  {
    SubtreeBranches(s, p);
  }

  lemma DeleteSubtreeTree(s: Cache, p: Path, at: int)
    requires Tree(s) && Mapped(s, p) && p != []
    ensures Tree(Delete(s, Subtree(s, p), at))
    ensures Delete(s, Subtree(s, p), at) == s.(heap := Delete(s, Subtree(s, p), at).heap)
  {
    SubtreeClosed(s, p);
    DeleteTree(s, Subtree(s, p), at);
  }

  lemma InvalidateNone(s: Cache)
    ensures AttrInvalid.Invalidate(s, {}) == s
  {
    assert AttrInvalid.Invalidate(s, {}).heap == s.heap;
  }

  lemma NoValidBranches(s: Cache, p: Path)
    ensures ValidBranches(s, p, {}) == {}
  {
  }

  lemma ValidChildMapped(s: Cache, u: Cache, p: Path, n: Name, nodes: set<Ref>)
    requires Tree(s) && Mapped(s, p) && n in Node(s, p).children && u == AttrInvalid.Invalidate(s, nodes)
    ensures Mapped(u, p) && u.cacheMap == s.cacheMap && n in Node(u, p).children
    ensures MappedAs(u, Node(u, p).children[n]) && u.heap[Node(u, p).children[n]].path == p + [n]
    ensures p + [n] in u.cacheMap.Keys
  {
    LinkedChild(s, p, n);
    assert NodeOk(s, p + [n]);
  }

  lemma InvalidateBranch(s: Cache, u: Cache, p: Path, done: set<Name>, n: Name)
    requires Tree(s) && n !in done && u == AttrInvalid.Invalidate(s, ValidBranches(s, p, done))
    ensures u.(heap := AttrInvalid.Invalidate(u, ValidSubtree(u, p + [n])).heap)
            == AttrInvalid.Invalidate(s, ValidBranches(s, p, done + {n}))
  {
    BranchesWithin(s, p, done);
    OtherSubtree(s, p, done, ValidBranches(s, p, done), n);
    InvalidateTwice(s, ValidBranches(s, p, done), ValidSubtree(s, p + [n]));
    ValidBranchesStep(s, p, done, n);
  }

  lemma InvalidateSelf(s: Cache, u: Cache, p: Path)
    requires Tree(s) && Mapped(s, p) && Node(s, p).valid
    requires u == AttrInvalid.Invalidate(s, ValidBranches(s, p, Node(s, p).children.Keys))
    ensures Mapped(u, p) && u.cacheMap[p] == s.cacheMap[p] && u.cacheMap == s.cacheMap
    ensures u.heap[s.cacheMap[p] := u.heap[s.cacheMap[p]].(valid := false)] == AttrInvalid.Invalidate(s, ValidSubtree(s, p)).heap
  {
    ValidSubtreeBranches(s, p);
  }

  lemma InvalidateSubtreeTree(s: Cache, p: Path)
    requires Tree(s) && p != []
    ensures Tree(AttrInvalid.Invalidate(s, ValidSubtree(s, p)))
    ensures AttrInvalid.Invalidate(s, ValidSubtree(s, p)) == s.(heap := AttrInvalid.Invalidate(s, ValidSubtree(s, p)).heap)
  {
    ValidSubtreeLive(s, p);
    InvalidateTree(s, ValidSubtree(s, p));
  }

  lemma LooseFacts(s: Cache, r: Ref)
    requires Loose(s, r)
    ensures r in s.heap && s.heap[r].path != []
  {
  }

  /** The root can always be kept, so a missing parent is not the root. */
  lemma RootKept(s: Cache, item: Item)
    requires Tree(s)
    ensures Kept(s, item, [])
  {
  }

  lemma AttachPlace(s: Cache, r: Ref)
    requires Tree(s) && Loose(s, r) && Mapped(s, Up(s.heap[r].path))
    ensures r in s.heap && s.cacheMap[Up(s.heap[r].path)] in s.heap && s.cacheMap[Up(s.heap[r].path)] != r
  {
  }

  // ---------- Facts about moving ----------

  lemma ApartBelow(srcDir: Path, dstDir: Path, p: Path)
    requires Apart(srcDir, dstDir) && srcDir <= p
    ensures Apart(p, dstDir + p[|srcDir|..]) && p != [] && dstDir + p[|srcDir|..] != []
  {
    var d := dstDir + p[|srcDir|..];
    assert dstDir <= d;
    if p <= d {
      Comparable(srcDir, dstDir, d);
    }
    if d <= p {
      Comparable(srcDir, dstDir, p);
    }
  }

  lemma FitsCount(s: Cache, p: Path, d: Path, room: set<Path>)
    requires Fits(s, p, d, room)
    ensures |s.cacheMap| <= |room|
  {
    SubsetSize(s.cacheMap.Keys, room);
  }

  lemma {:induction false} SubsetSize(a: set<Path>, b: set<Path>)
    requires a <= b
    ensures |a| <= |b|
  {
    if x :| x in a {
      SubsetSize(a - {x}, b - {x});
    }
  }

  lemma ProgressApart(s: Cache, u: Cache, p: Path, d: Path, done: set<Name>)
    requires Progress(s, u, p, d, done)
    ensures Apart(p, d) && p != []
  {
  }

  lemma SourceStays(s: Cache, u: Cache, p: Path, d: Path, done: set<Name>)
    requires Progress(s, u, p, d, done)
    ensures Tree(u) && Mapped(s, p) && Mapped(u, p) && u.cacheMap[p] == s.cacheMap[p] && Node(u, p) == Node(s, p)
    ensures s.cacheMap[p] in u.heap && u.heap[s.cacheMap[p]] == s.heap[s.cacheMap[p]]
    ensures MappedAs(u, s.cacheMap[p])
  {
    assert NodeOk(u, p);
  }

  lemma ChildToMove(s: Cache, u: Cache, p: Path, d: Path, done: set<Name>, n: Name)
    requires Progress(s, u, p, d, done) && n in Node(s, p).children
    ensures Tree(u) && Mapped(s, p) && Mapped(u, p) && n in Node(u, p).children
    ensures s.cacheMap[p] in u.heap && u.heap[s.cacheMap[p]] == Node(u, p)
    ensures MappedAs(u, Node(u, p).children[n]) && u.heap[Node(u, p).children[n]].path == p + [n]
    ensures Mapped(u, p + [n]) && u.cacheMap[p + [n]] == Node(u, p).children[n]
  {
    LinkedChild(u, p, n);
    assert NodeOk(u, p + [n]);
  }

  lemma ProgressTree(s: Cache, u: Cache, p: Path, d: Path, done: set<Name>)
    requires Progress(s, u, p, d, done)
    ensures Tree(s) && Tree(u) && Mapped(s, p) && Exists(Node(s, p))
  {
  }

  lemma BelowChild(p: Path, srcDir: Path, dstDir: Path, n: Name)
    requires srcDir <= p
    ensures srcDir <= p + [n] && dstDir + (p + [n])[|srcDir|..] == dstDir + p[|srcDir|..] + [n]
  {
    assert (p + [n])[|srcDir|..] == p[|srcDir|..] + [n];
  }

  lemma FitsLength(s: Cache, p: Path, d: Path, room: set<Path>, n: Name)
    requires Tree(s) && Mapped(s, p) && Fits(s, p, d, room) && n in Node(s, p).children
    ensures |p + [n]| <= MaxLen(room)
  {
    LinkedChild(s, p, n);
    assert p + [n] in s.cacheMap;
  }

  lemma TargetStays(s: Cache, u: Cache, v: Cache, p: Path, d: Path, done: set<Name>, n: Name)
    requires Progress(s, u, p, d, done) && Moved(u, v, p + [n], d + [n])
    ensures d in u.cacheMap && d in v.cacheMap && v.cacheMap[d] == u.cacheMap[d]
  {
    ApartChildren(p, d, n);
    assert FrameAt(u, v, p + [n], d + [n], d);
  }

  // ---------- Facts about expiry and directories ----------

  lemma KeyMapped(s: Cache, k: Path)
    requires Tree(s) && k in s.cacheMap
    ensures Mapped(s, k) && Node(s, k).path == k
  {
    assert NodeOk(s, k);
  }

  lemma NoFileBranches(s: Cache, p: Path)
    ensures FileBranches(s, p, {}) == {}
  {
  }

  lemma ChildSet(s: Cache, c: Path)
    requires Mapped(s, c)
    ensures ChildFiles(s, c) == if Node(s, c).isDir then Files(s, c) else ValidSubtree(s, c)
  {
    forall k | k in s.cacheMap ensures InChild(s, c, k) <==> if Node(s, c).isDir then FileBelow(s, c, k) else ValidLinked(s, c, k) {
    }
  }

  lemma FileNotRoot(p: Path, n: Name)
    ensures p + [n] != []
  {
  }

  lemma FileBranch(s: Cache, u: Cache, p: Path, done: set<Name>, n: Name)
    requires Tree(s) && n !in done && u == AttrInvalid.Invalidate(s, FileBranches(s, p, done))
    ensures u.(heap := AttrInvalid.Invalidate(u, ChildFiles(u, p + [n])).heap)
            == AttrInvalid.Invalidate(s, FileBranches(s, p, done + {n}))
  {
    FileBranchesWithin(s, p, done);
    OtherFiles(s, p, done, FileBranches(s, p, done), n);
    InvalidateTwice(s, FileBranches(s, p, done), ChildFiles(s, p + [n]));
    FileBranchesStep(s, p, done, n);
  }

  lemma RemoveIsEvict(t: Cache, k: Path, h: map<Ref, Item>)
    requires Tree(t) && Mapped(t, k) && k != []
    requires h == t.heap[t.cacheMap[k] := if Exists(Node(t, k)) then Node(t, k).(valid := false) else Node(t, k)]
    ensures Evict(t, k).heap ==
            var item := h[t.cacheMap[k]];
            if item.parent.Some? && item.parent.value in h
            then h[item.parent.value := h[item.parent.value].(children := h[item.parent.value].children - {Last(k)})]
            else h
    ensures Evict(t, k).cacheMap == t.cacheMap - {k} && Evict(t, k).next == t.next
  {
  }

  // ---------- Facts about the cloud flags ----------

  lemma ChildInHeap(s: Cache, p: Path, n: Name)
    requires Tree(s) && Mapped(s, p) && n in Node(s, p).children
    ensures Node(s, p).children[n] in s.heap
  {
    LinkedChild(s, p, n);
  }

  lemma ChainTop(s: Cache, d: Path)
    requires Chain(s, d) && d != []
    ensures Mapped(s, d) && Exists(Node(s, d)) && Chain(s, Up(d))
  {
  }

  lemma InsertedPlace(s: Cache, t: Cache, d: Path, at: int, m: nat)
    requires Tree(s) && Tree(t) && d != [] && Inserts(Alloc(s, NewItem(d, true, DIR_ATTRS, true, at)), t, s.next, m)
    ensures Mapped(t, d) && t.cacheMap[d] == s.next && Exists(Node(t, d)) && Node(t, d).isDir && InCloud(Node(t, d))
    ensures Node(t, d).path == d
  {
    InsertedNode(s, t, NewItem(d, true, DIR_ATTRS, true, at), m);
  }

  lemma UpdateStep(u: Cache, d: Path)
    requires Tree(u) && d != [] && Chain(u, d) && Matches(u, Up(d)) && Mapped(u, d)
    ensures var t := SetFlag(u, d, AnyInCloud(u, d));
            Chain(t, Up(d)) && Matches(t, Up(Up(d))) && FullUpdate(t, Up(d)) == FullUpdate(u, d)
  {
    ChainFlag(u, d, AnyInCloud(u, d), Up(d));
    if Up(d) != [] {
      MatchesFlag(u, d, AnyInCloud(u, d), Up(Up(d)));
    }
  }

  lemma UpdateStop(u: Cache, d: Path)
    requires Tree(u) && d != [] && Chain(u, d) && Matches(u, Up(d)) && Match(u, d)
    ensures FullUpdate(u, d) == u
  {
    FullIdle(u, d);
  }

  lemma UpdateTop(u: Cache)
    ensures Chain(u, []) && FullUpdate(u, []) == u
  {
  }

  /** The directory exists and is in the cloud already. */
  ghost predicate MarkedBefore(s: Cache, d: Path) {
    d == [] || (Mapped(s, d) && Exists(Node(s, d)) && InCloud(Node(s, d)))
  }

  lemma MarkStop(s: Cache, d: Path, m: nat)
    requires d != [] && m == |d| && Reaches(s, d, m) && UpClosed(s, d, m) && Mapped(s, d) && InCloud(Node(s, d))
    ensures AllInCloud(s, d) && MarkReaches(s, d, m)
  {
    StopInCloud(s, d);
  }

  lemma UpOutside(s: Cache, d: Path)
    requires d != []
    ensures !(d <= Up(d))
    ensures forall k {:trigger Mapped(s, k)} | Mapped(s, k) && !(k <= d) :: !(k <= Up(d)) && k != d
  {
    assert Up(d) <= d;
  }

  lemma MarkRoot(s: Cache, m: nat)
    ensures AllInCloud(s, []) && (Reaches(s, [], m) ==> MarkReaches(s, [], m))
  {
  }

  lemma ReachesTop(s: Cache, d: Path, m: nat)
    requires d != []
    ensures Reaches(s, d, m) ==> (m == |d| <==> Mapped(s, d) && Exists(Node(s, d))) && m <= |d|
    ensures Reaches(s, d, |d|) ==> Mapped(s, d) && Exists(Node(s, d)) && Node(s, d).isDir
  {
    assert d[..|d|] == d;
  }

  lemma MarkEnd(s: Cache, t: Cache, u: Cache, d: Path, m: nat)
    requires d != [] && m == |d| && Reaches(s, d, m) && Mapped(t, d) && Exists(Node(t, d)) && InCloud(Node(t, d))
    requires Reaches(t, Up(d), |d| - 1) && UpClosed(t, Up(d), |d| - 1)
    requires AllInCloud(u, Up(d)) <==> MarkReaches(t, Up(d), |d| - 1)
    requires Mapped(u, d) && Node(u, d) == Node(t, d)
    ensures AllInCloud(u, d) && MarkReaches(s, d, m)
  {
    AllOf(u, d);
  }

  lemma OneEnd(s: Cache, t: Cache, u: Cache, d: Path, m: nat)
    requires d != [] && m + 1 == |d| && Reaches(s, d, m) && Mapped(t, d) && Exists(Node(t, d)) && InCloud(Node(t, d))
    requires Reaches(t, Up(d), m) && UpClosed(t, Up(d), m)
    requires AllInCloud(u, Up(d)) <==> MarkReaches(t, Up(d), m)
    requires Mapped(u, d) && Node(u, d) == Node(t, d)
    ensures AllInCloud(u, d) && MarkReaches(s, d, m)
  {
    AllOf(u, d);
  }

  lemma MarkedAgain(t: Cache, d: Path)
    requires Mapped(t, d) && InCloud(Node(t, d))
    ensures t.heap[t.cacheMap[d] := MarkedInCloud(Node(t, d), true)] == t.heap
  {
  }

  /** Deleting a subtree concerns the flag of its parent, not those further up. */
  lemma {:induction false} DeletedMatches(s: Cache, path: Path, at: int, d: Path)
    requires Tree(s) && Mapped(s, path) && path != [] && |d| < |path|
    requires Chain(s, d)
    ensures Chain(Delete(s, Subtree(s, path), at), d)
    ensures |d| + 1 < |path| ==> (Matches(s, d) <==> Matches(Delete(s, Subtree(s, path), at), d))
    decreases |d|
  {
    if d != [] {
      var t := Delete(s, Subtree(s, path), at);
      DeletedMatches(s, path, at, Up(d));
      DeletedShort(s, path, at, d);
      if |d| + 1 < |path| {
        forall n | n in Node(s, d).children ensures InCloudChild(t, d, n) <==> InCloudChild(s, d, n) {
          LinkedChild(s, d, n);
          DeletedShort(s, path, at, d + [n]);
        }
      }
    }
  }

  lemma DeletedShort(s: Cache, path: Path, at: int, k: Path)
    requires Tree(s) && Mapped(s, path) && path != [] && Mapped(s, k) && |k| < |path|
    ensures Mapped(Delete(s, Subtree(s, path), at), k) && Node(Delete(s, Subtree(s, path), at), k) == Node(s, k)
  {
    DeletedBelow(s, path, at, k);
    if Linked(s, path, k) {
      LinkedPrefix(s, path, k);
    }
  }

  lemma DeletedChain(s: Cache, t: Cache, path: Path, at: int)
    requires Tree(s) && Mapped(s, path) && path != [] && t == Delete(s, Subtree(s, path), at)
    requires Chain(s, Up(path)) && Matches(s, Up(Up(path)))
    ensures Chain(t, Up(path)) && Matches(t, Up(Up(path)))
  {
    DeletedMatches(s, path, at, Up(path));
    if Up(path) != [] {
      ChainTop(s, Up(path));
      DeletedMatches(s, path, at, Up(Up(path)));
    } else {
      assert Matches(t, []);
    }
  }

  lemma GoneStays(s: Cache, t: Cache, u: Cache, path: Path, at: int)
    requires Tree(s) && Mapped(s, path) && path != [] && t == Delete(s, Subtree(s, path), at)
    requires Tree(t) && Chain(t, Up(path)) && u == FullUpdate(t, Up(path))
    ensures forall k {:trigger GoneAt(u, path, k)} :: GoneAt(u, path, k)
  {
    FullMatches(t, Up(path));
    DeleteShape(s, Subtree(s, path), at);
    forall k: Path ensures GoneAt(u, path, k) {
      SameLinked(t, u, path, k);
      SameLinked(s, t, path, k);
      if Linked(s, path, k) {
        LinkedPrefix(s, path, k);
        DeletedBelow(s, path, at, k);
        FullAbove(t, Up(path), k);
      }
    }
  }
}
