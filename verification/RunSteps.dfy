/** The calls of a run computed on concrete states. Blocks have two bytes. */
module RunSteps {
  import opened Bytes
  import opened Storage
  import opened Lists
  import opened WriteState
  import opened WriteSteps
  import opened WriteEdit
  import opened WriteCommit
  import opened WriteFetch
  import opened WriteOpen
  import opened WriteProgram

  const EMPTY: Store := Store([], [], map[], 0)

  function Created(): State {
    OpenState(EMPTY, 2, false)
  }

  // ---------- Blocks in the states of a run ----------

  /** Written, and not scheduled. */
  function Modified(id: nat, data: bytes): Block {
    Block(id, id * 2, Closed, false, false, true, false, false, data)
  }

  function Pending(id: nat, data: bytes): Block {
    Block(id, id * 2, Empty, false, true, true, false, false, data)
  }

  /** Uploaded, and nobody has waited for it. */
  function Done(id: nat, data: bytes): Block {
    Block(id, id * 2, Token, false, true, false, true, false, data)
  }

  function Clean(id: nat, data: bytes): Block {
    Block(id, id * 2, Closed, false, false, false, true, false, data)
  }

  // ---------- Steps on such states ----------

  /** A new block `k` in buffer `p`, with `result` in it. */
  function Put(s: State, k: nat, p: Ptr, result: bytes, end: nat): State {
    s.(cooking := s.cooking + [p], values := s.values[k := p], mem := s.mem[p := Modified(k, result)],
       length := Max(s.length, end), size := Max(s.length, end), handleDirty := true)
  }

  lemma PutIs(s: State, k: nat, p: Ptr, data: bytes, offset: nat, chunk: bytes)
    requires s.bs == 2 && |data| == 2 && offset + |chunk| <= 2 && s.size == s.length
    ensures p in LinkNew(s, k, p, data).mem && |LinkNew(s, k, p, data).mem[p].data| == 2
    ensures WriteData(LinkNew(s, k, p, data), p, offset, chunk) ==
            Put(s, k, p, Overwrite(data, offset, chunk), k * 2 + offset + |chunk|)
  {
    hide Overwrite;
    var t := WriteData(LinkNew(s, k, p, data), p, offset, chunk);
    assert t.mem == s.mem[p := Modified(k, Overwrite(data, offset, chunk))];
  }

  lemma OverwriteTwo(a: byte, b: byte, c: byte)
    ensures Overwrite([a, b], 0, [c]) == [c, b] && Overwrite([a, b], 1, [c]) == [a, c]
    ensures forall d: byte :: Overwrite([a, b], 0, [c, d]) == [c, d]
  {
  }

  lemma AwaitedAt(s: State, p: Ptr)
    requires p in s.mem
    ensures p in Awaited(s).mem && Awaited(s).mem.Keys == s.mem.Keys
    ensures Awaited(s).mem[p].id == s.mem[p].id && Awaited(s).mem[p].failed == s.mem[p].failed
  {
  }

  // ---------- The list to commit, one index at a time ----------

  lemma DraftNone(s: State, n: nat)
    ensures Drafted(s, 0, n) == Draft(s, [], [], [])
  {
  }

  lemma DraftPlain(s: State, k: nat, n: nat, t: State, ids: seq<Id>, restage: seq<Id>, id: Id)
    requires Drafted(s, k, n) == Draft(t, ids, restage, []) && k in t.blockList && t.blockList[k].id == id
    requires k == n - 1 || t.blockList[k].size >= t.bs
    ensures Drafted(s, k + 1, n) == Draft(t, ids + [id], restage, [])
  {
  }

  lemma DraftFilled(s: State, k: nat, n: nat, t: State, ids: seq<Id>, restage: seq<Id>, id: Id)
    requires Drafted(s, k, n) == Draft(t, ids, restage, []) && k in t.blockList && t.blockList[k].id == id
    requires k != n - 1 && t.blockList[k].size == 1 && t.bs == 2
    ensures Drafted(s, k + 1, n) == Draft(Staging(t, [0]), ids + [id, t.store.nextId], restage + [id], [])
  {
    assert Zeros(1) == [0];
  }

  lemma AwaitedKeeps(s: State)
    ensures Awaited(s) == s.(mem := Awaited(s).mem)
  {
  }

  /** Two modified blocks in one pass. */
  lemma PassTwo(s: State, a: State, b: State, t: State)
    requires s.cooking != [] && StagesFirst(s, a) && StagesFirst(a, b)
    requires b.cooking == [] && b.uploads == map[] && t == Awaited(b)
    ensures Passes(s, t)
  {
    hide StagesFirst, Awaited;
    assert StagesAll(b, b, 0);
    assert StagesAll(a, b, 1);
    assert StagesAll(s, b, 2);
  }

  /** Everything uploaded is waited for. */
  lemma AwaitedAll(s: State, mem: map<Ptr, Block>)
    requires forall p | p in s.mem :: p in s.cooked
    requires mem.Keys == s.mem.Keys
    requires forall p | p in s.mem :: mem[p] == s.mem[p].(state := Closed, uploading := false, downloading := false)
    ensures Awaited(s) == s.(mem := mem)
  {
    assert Awaited(s).mem == mem;
  }

  /** The only block of Cooked is given back. */
  lemma ForgetOnly(s: State, p: Ptr, values: map<nat, Ptr>, mem: map<Ptr, Block>)
    requires s.cooked == [p] && p !in s.cooking && p in s.mem
    requires values == s.values - {s.mem[p].id} && mem == s.mem - {p}
    ensures Forget(s, p) == s.(cooked := [], values := values, mem := mem)
  {
    RemoveProps(s.cooking, p);
    assert Remove([p], p) == [];
  }

  /** A write into a block that is not cached and needs no commit, with room in
      Cooking. */
  lemma WritesNew(s: State, u: State, k: nat, p: Ptr, data: bytes, offset: nat, chunk: bytes, room: nat)
    requires s.bs == 2 && k !in s.values && MakesRoom(s, u, room) && Finds(u, k, data) && p !in u.mem
    requires u.bs == 2 && u.size == u.length && |data| == 2 && |u.cooking| < MIN_WRITE_BLOCK && offset + |chunk| <= 2 && offset < 2
    ensures Writes(s, Put(u, k, p, Overwrite(data, offset, chunk), k * 2 + offset + |chunk|), k * 2 + offset, chunk, room)
  {
    hide Finds, MakesRoom, Overwrite, Gets;
    var v := LinkNew(u, k, p, data);
    GetsNew(s, u, k, p, data, room);
    WritesInto(s, v, u, k, p, data, offset, chunk, room);
  }

  lemma GetsNew(s: State, u: State, k: nat, p: Ptr, data: bytes, room: nat)
    requires k !in s.values && MakesRoom(s, u, room) && Finds(u, k, data) && p !in u.mem && |u.cooking| < MIN_WRITE_BLOCK
    ensures Gets(s, LinkNew(u, k, p, data), k, p, room)
  {
    hide Finds, MakesRoom;
    var v := LinkNew(u, k, p, data);
    assert Links(u, v, k, p, data);
    assert Creates(s, v, k, p, room);
  }

  /** Writing into the block just linked. */
  lemma WritesInto(s: State, v: State, u: State, k: nat, p: Ptr, data: bytes, offset: nat, chunk: bytes, room: nat)
    requires s.bs == 2 && v == LinkNew(u, k, p, data) && Gets(s, v, k, p, room)
    requires u.bs == 2 && u.size == u.length && |data| == 2 && offset + |chunk| <= 2 && offset < 2
    ensures Writes(s, Put(u, k, p, Overwrite(data, offset, chunk), k * 2 + offset + |chunk|), k * 2 + offset, chunk, room)
  {
    hide Overwrite, Gets, Put;
    PutIs(u, k, p, data, offset, chunk);
    DivMod(k, offset, 2);
    assert Works(v, v);
  }

  /** The same after a commit that was needed first. */
  lemma WritesAfter(s: State, v: State, k: nat, p: Ptr, data: bytes, offset: nat, chunk: bytes, room: nat)
    requires s.bs == 2 && k !in s.values && MakesRoom(s, s, room) && NeedsCommit(s, k) && Commits(s, v, true, room, 1)
    requires Reads(v, k, data) && p !in v.mem
    requires v.bs == 2 && v.size == v.length && |data| == 2 && |v.cooking| < MIN_WRITE_BLOCK && offset + |chunk| <= 2 && offset < 2
    ensures Writes(s, Put(v, k, p, Overwrite(data, offset, chunk), k * 2 + offset + |chunk|), k * 2 + offset, chunk, room)
  {
    hide Reads, MakesRoom, Overwrite, Commits, NeedsCommit;
    var w := LinkNew(v, k, p, data);
    assert Links(v, w, k, p, data);
    assert CreatesAfterCommit(s, w, k, p, room);
    assert Gets(s, w, k, p, room);
    WritesInto(s, w, v, k, p, data, offset, chunk, room);
  }

  /** What staging the front block leaves: `n` bytes under a new id. */
  function Staged(s: State, p: Ptr, rest: seq<Ptr>, n: nat): State
    requires p in s.mem && n <= |s.mem[p].data|
  {
    var b := s.mem[p];
    s.(store := Stage(s.store.(nextId := s.store.nextId + 1), s.store.nextId, b.data[..n]),
       blockList := s.blockList[b.id := BlockInfo(s.store.nextId, false, n)],
       mem := s.mem[p := Done(b.id, b.data)],
       cooked := s.cooked + [p], cooking := rest)
  }

  lemma StagesFront(s: State, p: Ptr, rest: seq<Ptr>, n: nat)
    requires s.bs == 2 && !s.recorded && s.uploads == map[] && s.cooking == [p] + rest && p !in rest && p !in s.cooked
    requires p in s.mem && |s.mem[p].data| == 2 && s.mem[p] == Modified(s.mem[p].id, s.mem[p].data)
    requires n == Min(2, s.size - s.mem[p].id * 2) > 0
    ensures StagesFirst(s, Staged(s, p, rest, n))
  {
    hide Remove;
    LineupIs(s, p, rest, n);
    UploadIs(s, p, rest, n);
    var u := LineupUpload(s, p);
    assert FirstModified(s, 0) && Schedules(s, s.cooking[0], u) && Ends(u, s.cooking[0], Staged(s, p, rest, n));
  }

  /** After the front block was lined up. */
  function Lined(s: State, p: Ptr, rest: seq<Ptr>, n: nat): State
    requires p in s.mem
  {
    var b := s.mem[p];
    s.(store := s.store.(nextId := s.store.nextId + 1),
       blockList := s.blockList[b.id := BlockInfo(s.store.nextId, false, n)],
       mem := s.mem[p := Pending(b.id, b.data)],
       cooked := s.cooked + [p], cooking := rest,
       uploads := s.uploads[p := s.store.nextId])
  }

  lemma LineupIs(s: State, p: Ptr, rest: seq<Ptr>, n: nat)
    requires s.bs == 2 && s.cooking == [p] + rest && p !in rest && p !in s.cooked
    requires p in s.mem && s.mem[p] == Modified(s.mem[p].id, s.mem[p].data)
    requires n == Min(2, s.size - s.mem[p].id * 2) > 0
    ensures 0 <= BlockLen(s, s.mem[p].id) && LineupUpload(s, p) == Lined(s, p, rest, n)
  {
    RemoveProps(s.cooked, p);
    RemoveProps(rest, p);
    assert ([p] + rest)[1..] == rest;
  }

  lemma UploadIs(s: State, p: Ptr, rest: seq<Ptr>, n: nat)
    requires !s.recorded && s.uploads == map[] && s.bs == 2
    requires p in s.mem && |s.mem[p].data| == 2 && n <= 2 && n == Min(2, s.size - s.mem[p].id * 2)
    ensures Ends(Lined(s, p, rest, n), p, Staged(s, p, rest, n))
  {
    var u, t := Lined(s, p, rest, n), Staged(s, p, rest, n);
    assert u.mem[p := Done(s.mem[p].id, s.mem[p].data)] == t.mem;
    assert u.uploads - {p} == map[];
  }

  /** A pass over one modified block. */
  lemma PassOne(s: State, p: Ptr, n: nat, t: State)
    requires s.bs == 2 && !s.recorded && s.uploads == map[] && s.cooking == [p] && p !in s.cooked
    requires p in s.mem && |s.mem[p].data| == 2 && s.mem[p] == Modified(s.mem[p].id, s.mem[p].data)
    requires n == Min(2, s.size - s.mem[p].id * 2) > 0
    requires t == Awaited(Staged(s, p, [], n))
    ensures Passes(s, t)
  {
    hide Staged, StagesFirst;
    var u := Staged(s, p, [], n);
    StagesFront(s, p, [], n);
    StagedShape(s, p, [], n);
    assert StagesAll(u, u, 0);
    assert StagesAll(s, u, 1);
  }

  lemma StagedShape(s: State, p: Ptr, rest: seq<Ptr>, n: nat)
    requires p in s.mem && n <= |s.mem[p].data|
    ensures var t := Staged(s, p, rest, n); t.cooking == rest && t.uploads == s.uploads && t.cooked == s.cooked + [p]
  {
  }

  /** A block that is read back for restaging, after the front block of Cooked went. */
  function Restored(s: State, q: Ptr, k: nat, p: Ptr, data: bytes): State
    requires q in s.mem
  {
    MarkDirty(LinkNew(Forget(s, q), k, p, data), p)
  }

  lemma RestoredIs(s: State, q: Ptr, rest: seq<Ptr>, k: nat, p: Ptr, data: bytes)
    requires s.bs == 2 && q in s.mem && s.cooked == [q] + rest && q !in rest && q !in s.cooking
    ensures Restored(s, q, k, p, data) ==
            s.(cooked := rest, cooking := s.cooking + [p], values := (s.values - {s.mem[q].id})[k := p],
               mem := (s.mem - {q})[p := Modified(k, data)])
  {
    RemoveProps(rest, q);
    RemoveProps(s.cooking, q);
    assert ([q] + rest)[1..] == rest;
    assert Restored(s, q, k, p, data).mem == (s.mem - {q})[p := Modified(k, data)];
  }

  /** Reading a committed block back, after the front block of Cooked has made room. */
  lemma GetsBack(s: State, q: Ptr, rest: seq<Ptr>, k: nat, p: Ptr, data: bytes, room: nat)
    requires s.bs == 2 && q in s.mem && s.cooked == [q] + rest && q !in rest && q !in s.cooking && q !in s.uploads && !s.mem[q].failed
    requires |s.cooked| + |s.cooking| >= room && |s.cooking| < MIN_WRITE_BLOCK && k !in s.values && p !in s.mem
    requires k in s.blockList && s.blockList[k].committed && k * 2 + 2 <= s.length
    requires data == Fetch(Content(s.store), k * 2, 2, Zeros(2))
    ensures p in LinkNew(Forget(s, q), k, p, data).mem && GetsPlain(s, LinkNew(Forget(s, q), k, p, data), k, p, room)
  {
    hide Fetch, Content;
    RemoveProps(s.cooking, q);
    hide Remove;
    var u := Forget(s, q);
    assert MakesRoom(s, u, room);
    assert Reads(u, k, data);
    assert Finds(u, k, data) && Links(u, LinkNew(u, k, p, data), k, p, data);
    assert Creates(s, LinkNew(u, k, p, data), k, p, room);
  }

  lemma CommittedIs(s: State, ids: seq<Id>)
    requires Known(s.store, ids)
    ensures var t := Committed(s, ids);
            && t == s.(store := Commit(s.store, ids), blockList := t.blockList) && t.blockList.Keys == s.blockList.Keys
            && forall k | k in s.blockList :: t.blockList[k] == s.blockList[k].(committed := true)
  {
  }

  /** The list `l` consists of staged blocks with these ids. */
  ghost predicate StagedAs(st: Store, ids: seq<Id>, l: seq<Stored>) {
    |ids| == |l| && forall i | 0 <= i < |ids| :: ids[i] == l[i].id && ids[i] in st.staged && st.staged[ids[i]] == l[i].data
  }

  lemma StagedJoin(st: Store, a: seq<Id>, l: seq<Stored>, b: seq<Id>, m: seq<Stored>)
    requires StagedAs(st, a, l) && StagedAs(st, b, m)
    ensures StagedAs(st, a + b, l + m)
  {
  }

  lemma CommitStaged(st: Store, ids: seq<Id>, l: seq<Stored>)
    requires StagedAs(st, ids, l)
    ensures Known(st, ids) && Commit(st, ids) == Store(l, [], map[], st.nextId)
  {
    CommitIs(st, ids, l);
  }

  lemma {:induction false} ConcatJoin(a: seq<Stored>, b: seq<Stored>)
    ensures Concat(a + b) == Concat(a) + Concat(b)
  {
    if b == [] {
      assert a + b == a;
    } else {
      var last := |b| - 1;
      ConcatJoin(a, b[..last]);
      assert (a + b)[..|a + b| - 1] == a + b[..last];
    }
  }

  lemma {:induction false} FindSkip(a: seq<Stored>, b: seq<Stored>, id: Id)
    requires forall i | 0 <= i < |a| :: a[i].id != id
    ensures FindBlock(a + b, id) == FindBlock(b, id)
  {
    if a == [] {
      assert a + b == b;
    } else {
      FindSkip(a[1..], b, id);
      assert (a + b)[1..] == a[1..] + b;
    }
  }

  lemma {:induction false} FindFront(a: seq<Stored>, b: seq<Stored>, id: Id)
    requires FindBlock(a, id).Found?
    ensures FindBlock(a + b, id) == FindBlock(a, id)
  {
    if a[0].id != id {
      FindFront(a[1..], b, id);
      assert (a + b)[1..] == a[1..] + b;
    }
  }

  /** The list `l` consists of known blocks with these ids. */
  ghost predicate KnownAs(st: Store, ids: seq<Id>, l: seq<Stored>) {
    |ids| == |l| && forall i | 0 <= i < |ids| :: ids[i] == l[i].id && Find(st, ids[i]) == Found(l[i].data)
  }

  lemma KnownJoin(st: Store, a: seq<Id>, l: seq<Stored>, b: seq<Id>, m: seq<Stored>)
    requires KnownAs(st, a, l) && KnownAs(st, b, m)
    ensures KnownAs(st, a + b, l + m)
  {
  }

  lemma CommitIs(st: Store, ids: seq<Id>, l: seq<Stored>)
    requires |ids| == |l| && forall i | 0 <= i < |ids| :: ids[i] == l[i].id && Find(st, ids[i]) == Found(l[i].data)
    ensures Known(st, ids) && Commit(st, ids) == Store(l, [], map[], st.nextId)
  {
    assert Known(st, ids);
    assert Pick(st, ids) == l;
  }

  lemma ContentOf(l: seq<Stored>, a: bytes, b: bytes)
    requires |l| == 2 && l[0].data == a && l[1].data == b
    ensures Concat(l) == a + b
  {
    assert l[..1][..0] == [];
    assert Concat(l[..1]) == a;
  }

  lemma ContentOf3(l: seq<Stored>, a: bytes, b: bytes, c: bytes)
    requires |l| == 3 && l[0].data == a && l[1].data == b && l[2].data == c
    ensures Concat(l) == a + b + c
  {
    ContentOf(l[..2], a, b);
  }

  lemma FirstBytes(content: bytes)
    requires |content| >= 2
    ensures Fetch(content, 0, 2, Zeros(2)) == [content[0], content[1]]
  {
  }

  /** Three modified blocks in one pass. */
  lemma PassThree(s: State, a: State, b: State, c: State, t: State)
    requires s.cooking != [] && StagesFirst(s, a) && StagesFirst(a, b) && StagesFirst(b, c)
    requires c.cooking == [] && c.uploads == map[] && t == Awaited(c)
    ensures Passes(s, t)
  {
    hide StagesFirst, Awaited;
    assert StagesAll(c, c, 0);
    assert StagesAll(b, c, 1);
    assert StagesAll(a, c, 2);
    assert StagesAll(s, c, 3);
  }

  lemma FindSecond(l: seq<Stored>, id: Id)
    requires |l| == 2 && l[1].id == id != l[0].id
    ensures FindBlock(l, id) == Found(l[1].data)
  {
    assert FindBlock(l, id) == FindBlock(l[1..], id);
  }

  // ---------- With more than three blocks in Cooking ----------

  /** A write into a new block that schedules the front one, after room was made. */
  lemma WritesScheduling(s: State, u: State, q: Ptr, rest: seq<Ptr>, n: nat, k: nat, p: Ptr, chunk: bytes, room: nat)
    requires s.bs == 2 && k !in s.values && MakesRoom(s, u, room)
    requires u.bs == 2 && u.size == u.length && p !in u.mem && k !in u.blockList
    requires u.cooking == [q] + rest && |rest| == 2 && q !in rest && q !in u.cooked && p != q
    requires q in u.mem && u.mem[q] == Modified(u.mem[q].id, u.mem[q].data) && n == Min(2, u.size - u.mem[q].id * 2) > 0
    requires 0 < |chunk| <= 2
    ensures Writes(s, Put(Lined(u, q, rest, n), k, p, Overwrite(Zeros(2), 0, chunk), k * 2 + |chunk|), k * 2, chunk, room)
  {
    hide Overwrite, Lined, MakesRoom, Gets;
    var v := LinkNew(u, k, p, Zeros(2));
    LinkedThenLined(u, q, rest, n, k, p);
    var w := LineupUpload(v, q);
    LinedThenWritten(u, q, rest, n, k, p, chunk);
    DivMod(k, 0, 2);
    GetsScheduling(s, u, q, rest, n, k, p, room);
    assert Works(w, w);
  }

  lemma GetsScheduling(s: State, u: State, q: Ptr, rest: seq<Ptr>, n: nat, k: nat, p: Ptr, room: nat)
    requires k !in s.values && MakesRoom(s, u, room)
    requires u.bs == 2 && p !in u.mem && k !in u.blockList
    requires u.cooking == [q] + rest && |rest| == 2 && q !in rest && q !in u.cooked && p != q
    requires q in u.mem && u.mem[q] == Modified(u.mem[q].id, u.mem[q].data) && n == Min(2, u.size - u.mem[q].id * 2) > 0
    ensures var v := LinkNew(u, k, p, Zeros(2));
            q in v.mem && 0 <= BlockLen(v, v.mem[q].id) && Gets(s, LineupUpload(v, q), k, p, room)
  {
    hide MakesRoom;
    var v := LinkNew(u, k, p, Zeros(2));
    LinkedThenLined(u, q, rest, n, k, p);
    var w := LineupUpload(v, q);
    assert v.cooking[0] == q && |v.cooking| == 4;
    assert FirstModified(v, 0) && Schedules(v, v.cooking[0], w);
    assert SchedulesOne(v, w);
    assert Finds(u, k, Zeros(2)) && Links(u, w, k, p, Zeros(2));
    assert Creates(s, w, k, p, room);
  }

  /** A cached, uploaded block is written over in full. */
  function Rewritten(s: State, p: Ptr, data: bytes): State
    requires p in s.mem
  {
    s.(cooked := Remove(s.cooked, p), cooking := Remove(s.cooking, p) + [p],
       mem := s.mem[p := Modified(s.mem[p].id, data)], handleDirty := true)
  }

  lemma WritesAgain(s: State, k: nat, p: Ptr, data: bytes, room: nat)
    requires s.bs == 2 && s.size == s.length && k in s.values && s.values[k] == p && p in s.mem && p !in s.uploads
    requires |s.mem[p].data| == 2 == |data| && s.mem[p] == Clean(k, s.mem[p].data) && k * 2 + 2 <= s.size
    ensures Writes(s, Rewritten(s, p, data), k * 2, data, room)
  {
    hide Remove;
    var u := Reopened(s, p);
    assert Reopens(s, u, k, p);
    assert Gets(s, u, k, p, room) && Works(u, u);
    DivMod(k, 0, 2);
    var t := WriteData(u, p, 0, data);
    assert Overwrite(s.mem[p].data, 0, data) == data;
    assert t.mem == Rewritten(s, p, data).mem;
  }

  lemma LinkedThenLined(s: State, q: Ptr, rest: seq<Ptr>, n: nat, k: nat, p: Ptr)
    requires s.bs == 2 && s.cooking == [q] + rest && q !in rest && q !in s.cooked && p != q && p !in s.mem
    requires q in s.mem && s.mem[q] == Modified(s.mem[q].id, s.mem[q].data) && n == Min(2, s.size - s.mem[q].id * 2) > 0
    ensures var v := LinkNew(s, k, p, Zeros(2));
            && q in v.mem && 0 <= BlockLen(v, v.mem[q].id)
            && LineupUpload(v, q) == LinkNew(Lined(s, q, rest, n), k, p, Zeros(2))
  {
    var v := LinkNew(s, k, p, Zeros(2));
    assert v.cooking == [q] + (rest + [p]);
    LineupIs(v, q, rest + [p], n);
    assert Lined(v, q, rest + [p], n).mem == LinkNew(Lined(s, q, rest, n), k, p, Zeros(2)).mem;
  }

  lemma LinedThenWritten(s: State, q: Ptr, rest: seq<Ptr>, n: nat, k: nat, p: Ptr, chunk: bytes)
    requires s.bs == 2 && s.size == s.length && q in s.mem && |chunk| <= 2
    ensures var w := LinkNew(Lined(s, q, rest, n), k, p, Zeros(2));
            && p in w.mem && |w.mem[p].data| == 2
            && WriteData(w, p, 0, chunk) == Put(Lined(s, q, rest, n), k, p, Overwrite(Zeros(2), 0, chunk), k * 2 + |chunk|)
  {
    hide Overwrite;
    PutIs(Lined(s, q, rest, n), k, p, Zeros(2), 0, chunk);
  }

  /** A pending upload ends, with `n` bytes. */
  lemma EndsIs(s: State, p: Ptr, n: nat, t: State)
    requires s.bs == 2 && !s.recorded && p in s.uploads && p in s.mem && |s.mem[p].data| == 2
    requires s.mem[p] == Pending(s.mem[p].id, s.mem[p].data) && n == Min(2, s.size - s.mem[p].id * 2) >= 0
    requires t == s.(store := Stage(s.store, s.uploads[p], s.mem[p].data[..n]),
                     mem := s.mem[p := Done(s.mem[p].id, s.mem[p].data)], uploads := s.uploads - {p})
    ensures Works(s, t)
  {
    assert Ends(s, p, t);
  }
}
