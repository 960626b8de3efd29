/** A read-only handle of the block cache: its state, its invariant and the
    steps of workers and of the reader. The blob does not change while the
    handle is open. */
module ReadState {
  import opened Bytes
  import opened Lists

  const MIN_PREFETCH: nat := 5
  const MIN_RANDREAD: nat := 10

  datatype Chan = Empty | Token(failed: bool) | Closed

  /** `id` is -1 while the block is assigned to no index. */
  datatype Block = Block(id: int, offset: nat, state: Chan, downloading: bool, data: bytes)

  /** `mem` holds the blocks this handle has taken from the pool, `items` those
      with a download still to be done. `failed` records that a download has
      failed at all, `spoiled` the blocks whose failure nobody was told about. */
  datatype State = State(
    content: bytes,
    bs: nat,
    cooked: seq<Ptr>,
    cooking: seq<Ptr>,
    values: map<int, Ptr>,
    mem: map<Ptr, Block>,
    items: set<Ptr>,
    failed: bool,
    spoiled: set<Ptr>)

  // ---------- Invariant ----------

  /** The buffer starts with the bytes of its block that are inside the file. */
  ghost predicate Holds(s: State, b: Block) {
    && b.offset < |s.content| && |b.data| == s.bs
    && b.data[..Min(s.bs, |s.content| - b.offset)] == s.content[b.offset..b.offset + Min(s.bs, |s.content| - b.offset)]
  }

  /** A block is in exactly one list. It has a work item exactly when it is in
      Cooking with an open, empty channel; one that can be read without waiting
      holds its bytes, unless it is spoiled. */
  ghost predicate BlockOk(s: State, p: Ptr) {
    && p in s.mem
    && var b := s.mem[p];
    && |b.data| == s.bs
    && (p in s.cooked <==> p !in s.cooking)
    && (p in s.items <==> p in s.cooking && b.state.Empty?)
    && (p in s.cooking ==> b.id >= 0)
    && (b.id >= 0 ==> b.offset == b.id * s.bs < |s.content|)
    && (b.id < 0 ==> b.id == -1 && b.state.Empty?)
    && (p in s.cooked && b.id >= 0 ==> b.state.Closed?)
    && (b.state.Closed? || b.state == Token(false) ==> p in s.spoiled || Holds(s, b))
    && (!s.failed ==> b.state != Token(true))
    && (p in s.spoiled ==> s.failed && b.state.Closed?)
  }

  ghost predicate Base(s: State) {
    && s.bs > 0
    && NoDup(s.cooked) && NoDup(s.cooking)
    && (forall p {:trigger BlockOk(s, p)} | p in s.mem :: BlockOk(s, p))
    && (forall p | p in s.cooked || p in s.cooking || p in s.items :: p in s.mem)
  }

  ghost predicate MappedOk(s: State, p: Ptr) {
    p in s.mem && (s.mem[p].id >= 0 ==> s.mem[p].id in s.values && s.values[s.mem[p].id] == p)
  }

  ghost predicate ValueOk(s: State, k: int) {
    k in s.values && s.values[k] in s.mem && s.mem[s.values[k]].id == k && k >= 0
  }

  /** Map and blocks agree: the block with an index is the one mapped there. */
  ghost predicate Mapped(s: State) {
    && (forall p {:trigger MappedOk(s, p)} | p in s.mem :: MappedOk(s, p))
    && (forall k {:trigger ValueOk(s, k)} | k in s.values :: ValueOk(s, k))
  }

  ghost predicate Inv(s: State) {
    Base(s) && Mapped(s)
  }

  // ---------- Steps ----------

  /** What a ranged read leaves in the buffer: bytes past the end of the blob
      stay as they were. */
  function Fetched(s: State, b: Block): bytes
    requires b.offset < |s.content| && |b.data| == s.bs
  {
    var n := Min(s.bs, |s.content| - b.offset);
    s.content[b.offset..b.offset + n] + b.data[n..]
  }

  /** A download ends; a failed one may leave anything in the buffer. */
  function Finish(s: State, p: Ptr, ok: bool, junk: bytes): State
    requires p in s.mem && s.mem[p].offset < |s.content| && |s.mem[p].data| == s.bs
  {
    var b := s.mem[p];
    s.(mem := s.mem[p := b.(state := Token(!ok), data := if ok then Fetched(s, b) else junk)],
       items := s.items - {p},
       failed := s.failed || !ok)
  }

  /** A buffer from the pool joins the free ones. */
  function Take(s: State, p: Ptr, data: bytes): State {
    s.(mem := s.mem[p := Block(-1, 0, Empty, false, data)], cooked := [p] + s.cooked, spoiled := s.spoiled - {p})
  }

  /** A free block is given to an index and lined up for download. */
  function Refresh(s: State, p: Ptr, k: nat): State
    requires p in s.mem
  {
    s.(mem := s.mem[p := Block(k, k * s.bs, Empty, true, s.mem[p].data)],
       cooked := Remove(s.cooked, p),
       cooking := Remove(s.cooking, p) + [p],
       values := (s.values - {s.mem[p].id})[k := p],
       items := s.items + {p},
       spoiled := s.spoiled - {p})
  }

  /** The first reader takes the token and closes the channel, which is open. */
  function Unblock(s: State, p: Ptr): State
    requires p in s.mem && s.mem[p].state.Token?
  {
    s.(mem := s.mem[p := s.mem[p].(state := Closed, downloading := false)])
  }

  function ToCooked(s: State, p: Ptr): State {
    s.(cooking := Remove(s.cooking, p), cooked := Remove(s.cooked, p) + [p])
  }

  /** Random-read cleanup: whatever the token says, the block is free now. */
  function Drain(s: State, p: Ptr): State
    requires p in s.mem && s.mem[p].state.Token?
  {
    var t := ToCooked(Unblock(s, p), p);
    t.(spoiled := if s.mem[p].state.failed then s.spoiled + {p} else s.spoiled)
  }

  function Rotate(s: State): State
    requires s.cooking != []
  {
    s.(cooking := s.cooking[1..] + [s.cooking[0]])
  }

  /** A block goes back to the pool. */
  function Drop(s: State, p: Ptr): State
    requires p in s.mem
  {
    s.(mem := s.mem - {p},
       cooked := Remove(s.cooked, p),
       cooking := Remove(s.cooking, p),
       values := s.values - {s.mem[p].id},
       spoiled := s.spoiled - {p})
  }

  // ---------- Every step keeps the invariant ----------

  /** A step that changes one block, its place or nothing keeps all the others. */
  lemma Elsewhere(s: State, t: State, p: Ptr)
    requires Base(s)
    requires t.content == s.content && t.bs == s.bs && (t.failed ==> s.failed || t.failed) && (s.failed ==> t.failed)
    requires forall q | q in t.mem && q != p :: q in s.mem && t.mem[q] == s.mem[q]
    requires forall q | q != p :: (q in t.cooked <==> q in s.cooked) && (q in t.cooking <==> q in s.cooking)
    requires forall q | q != p :: (q in t.items <==> q in s.items) && (q in t.spoiled <==> q in s.spoiled)
    ensures forall q {:trigger BlockOk(t, q)} | q in t.mem && q != p :: BlockOk(t, q)
  {
    forall q | q in t.mem && q != p ensures BlockOk(t, q) {
      assert BlockOk(s, q);
    }
  }

  lemma PlacesOf(s: State, t: State, p: Ptr)
    requires NoDup(s.cooked) && NoDup(s.cooking)
    requires t.cooked == s.cooked || t.cooked == Remove(s.cooked, p) || t.cooked == Remove(s.cooked, p) + [p]
             || (t.cooked == [p] + s.cooked && p !in s.cooked)
    requires t.cooking == s.cooking || t.cooking == Remove(s.cooking, p) || t.cooking == Remove(s.cooking, p) + [p]
    ensures NoDup(t.cooked) && NoDup(t.cooking)
    ensures forall q | q != p :: (q in t.cooked <==> q in s.cooked) && (q in t.cooking <==> q in s.cooking)
    ensures t.cooked == Remove(s.cooked, p) ==> p !in t.cooked
    ensures t.cooking == Remove(s.cooking, p) ==> p !in t.cooking
  {
    RemoveProps(s.cooked, p);
    RemoveProps(s.cooking, p);
  }

  lemma FinishKeeps(s: State, p: Ptr, ok: bool, junk: bytes)
    requires Base(s) && p in s.items && |junk| == s.bs
    ensures p in s.mem && s.mem[p].offset < |s.content| && |s.mem[p].data| == s.bs
    ensures Base(Finish(s, p, ok, junk)) && (Mapped(s) ==> Mapped(Finish(s, p, ok, junk)))
  {
    assert BlockOk(s, p);
    var t := Finish(s, p, ok, junk);
    Elsewhere(s, t, p);
    if Mapped(s) {
      MappedSame(s, t);
    }
  }

  /** Steps that leave ids and map alone keep them in agreement. */
  lemma MappedSame(s: State, t: State)
    requires Mapped(s) && t.values == s.values && t.mem.Keys == s.mem.Keys
    requires forall q | q in s.mem :: t.mem[q].id == s.mem[q].id
    ensures Mapped(t)
  {
    forall q | q in t.mem ensures MappedOk(t, q) {
      assert MappedOk(s, q);
    }
    forall k | k in t.values ensures ValueOk(t, k) {
      assert ValueOk(s, k);
    }
  }

  lemma TakeKeeps(s: State, p: Ptr, data: bytes)
    requires Inv(s) && p !in s.mem && |data| == s.bs
    ensures Inv(Take(s, p, data))
  {
    var t := Take(s, p, data);
    assert p !in s.cooked && p !in s.cooking && p !in s.items;
    PlacesOf(s, t, p);
    Elsewhere(s, t, p);
    assert BlockOk(t, p);
    forall q | q in t.mem ensures MappedOk(t, q) {
      assert q != p ==> MappedOk(s, q);
    }
    forall k | k in t.values ensures ValueOk(t, k) {
      assert ValueOk(s, k);
    }
  }

  lemma RefreshKeeps(s: State, p: Ptr, k: nat)
    requires Inv(s) && p in s.cooked && k !in s.values && k * s.bs < |s.content|
    ensures p in s.mem && Inv(Refresh(s, p, k))
  {
    assert BlockOk(s, p) && MappedOk(s, p);
    var t := Refresh(s, p, k);
    PlacesOf(s, t, p);
    Elsewhere(s, t, p);
    RemoveProps(s.cooked, p);
    assert BlockOk(t, p);
    forall q | q in t.mem ensures MappedOk(t, q) {
      assert q != p ==> MappedOk(s, q);
    }
    forall l | l in t.values ensures ValueOk(t, l) {
      assert l != k ==> ValueOk(s, l);
    }
  }

  lemma UnblockKeeps(s: State, p: Ptr)
    requires Inv(s) && p in s.mem && s.mem[p].state == Token(false)
    ensures Inv(Unblock(s, p))
  {
    assert BlockOk(s, p);
    var t := Unblock(s, p);
    Elsewhere(s, t, p);
    assert BlockOk(t, p);
    MappedSame(s, t);
  }

  lemma ToCookedKeeps(s: State, p: Ptr)
    requires Inv(s) && p in s.mem && s.mem[p].state.Closed?
    ensures Inv(ToCooked(s, p))
  {
    assert BlockOk(s, p);
    var t := ToCooked(s, p);
    PlacesOf(s, t, p);
    Elsewhere(s, t, p);
    assert BlockOk(t, p);
    MappedSame(s, t);
  }

  lemma DrainKeeps(s: State, p: Ptr)
    requires Inv(s) && p in s.mem && s.mem[p].state.Token?
    ensures Inv(Drain(s, p))
  {
    assert BlockOk(s, p);
    var t := Drain(s, p);
    PlacesOf(s, t, p);
    Elsewhere(s, t, p);
    assert BlockOk(t, p);
    MappedSame(s, t);
  }

  lemma RotateKeeps(s: State)
    requires Inv(s) && s.cooking != []
    ensures Inv(Rotate(s))
  {
    var t := Rotate(s);
    assert s.cooking == [s.cooking[0]] + s.cooking[1..];
    assert forall q :: q in t.cooking <==> q in s.cooking;
    forall q | q in t.mem ensures BlockOk(t, q) {
      assert BlockOk(s, q);
    }
    MappedSame(s, t);
  }

  lemma DropBase(s: State, p: Ptr)
    requires Base(s) && p in s.mem && p !in s.items
    ensures Base(Drop(s, p))
  {
    var t := Drop(s, p);
    PlacesOf(s, t, p);
    Elsewhere(s, t, p);
  }

  lemma DropKeeps(s: State, p: Ptr)
    requires Inv(s) && p in s.mem && p !in s.items
    ensures Inv(Drop(s, p))
  {
    DropBase(s, p);
    var t := Drop(s, p);
    forall q | q in t.mem ensures MappedOk(t, q) {
      assert MappedOk(s, q) && MappedOk(s, p);
    }
    forall k | k in t.values ensures ValueOk(t, k) {
      assert ValueOk(s, k) && MappedOk(s, p);
    }
  }

  // ---------- What a step leaves alone ----------

  /** A block under download, or already readable in Cooking, is not touched:
      only its worker changes it. */
  ghost predicate StaysAt(s: State, t: State, p: Ptr)
    requires p in s.mem
  {
    && p in t.mem && p in t.cooking
    && t.mem[p].id == s.mem[p].id && t.mem[p].offset == s.mem[p].offset
    && (p !in s.items ==> t.mem[p] == s.mem[p] && p !in t.items && (p in t.spoiled ==> p in s.spoiled))
    && (t.mem[p].state.Closed? ==> s.mem[p].state.Closed?)
  }

  ghost predicate Stays(s: State, t: State) {
    && t.content == s.content && t.bs == s.bs
    && (forall p {:trigger StaysAt(s, t, p)} | p in s.cooking && p in s.mem :: StaysAt(s, t, p))
    && (s.failed ==> t.failed)
  }

  lemma StaysRefl(s: State)
    ensures Stays(s, s)
  {
  }

  lemma StaysTrans(s: State, t: State, u: State)
    requires Stays(s, t) && Stays(t, u)
    ensures Stays(s, u)
  {
    forall p | p in s.cooking && p in s.mem ensures StaysAt(s, u, p) {
      assert StaysAt(s, t, p) && StaysAt(t, u, p);
    }
  }

  lemma TakeStays(s: State, p: Ptr, data: bytes)
    requires p !in s.mem
    ensures Stays(s, Take(s, p, data))
  {
    var t := Take(s, p, data);
    forall q | q in s.cooking && q in s.mem ensures StaysAt(s, t, q) {
    }
  }

  lemma RefreshStays(s: State, p: Ptr, k: nat)
    requires Inv(s) && p in s.cooked && p in s.mem
    ensures Stays(s, Refresh(s, p, k))
  {
    var t := Refresh(s, p, k);
    assert BlockOk(s, p);
    RemoveProps(s.cooking, p);
    forall q | q in s.cooking && q in s.mem ensures StaysAt(s, t, q) {
    }
  }

  // ---------- Waiting ----------

  /** Work items end, nothing else happens. */
  ghost predicate WaitedAt(s: State, t: State, p: Ptr)
    requires p in s.mem
  {
    && p in t.mem && t.mem[p].id == s.mem[p].id && t.mem[p].offset == s.mem[p].offset
    && (p !in s.items || p in t.items ==> t.mem[p] == s.mem[p])
    && (t.mem[p].state.Closed? ==> s.mem[p].state.Closed?)
  }

  ghost predicate Waited(s: State, t: State) {
    && t.content == s.content && t.bs == s.bs
    && t.cooked == s.cooked && t.cooking == s.cooking && t.values == s.values && t.spoiled == s.spoiled
    && t.items <= s.items && t.mem.Keys == s.mem.Keys
    && (s.failed ==> t.failed)
    && forall p {:trigger WaitedAt(s, t, p)} | p in s.mem :: WaitedAt(s, t, p)
  }

  lemma WaitedRefl(s: State)
    ensures Waited(s, s)
  {
  }

  lemma WaitedTrans(s: State, t: State, u: State)
    requires Waited(s, t) && Waited(t, u)
    ensures Waited(s, u)
  {
    forall p | p in s.mem ensures WaitedAt(s, u, p) {
      assert WaitedAt(s, t, p) && WaitedAt(t, u, p);
    }
  }

  lemma FinishWaited(s: State, p: Ptr, ok: bool, junk: bytes)
    requires p in s.items && p in s.mem && s.mem[p].offset < |s.content| && |s.mem[p].data| == s.bs
    ensures Waited(s, Finish(s, p, ok, junk))
  {
    var t := Finish(s, p, ok, junk);
    forall q | q in s.mem ensures WaitedAt(s, t, q) {
    }
  }

  /** An assigned block whose channel shows nothing has a work item, so waiting ends. */
  lemma NoHang(s: State, p: Ptr)
    requires Base(s) && p in s.mem && s.mem[p].id >= 0
    ensures s.mem[p].state.Empty? ==> p in s.items
  {
    assert BlockOk(s, p);
  }

  // ---------- Downloads still to be done ----------

  /** No buffer with a download still to be done has been touched. */
  ghost predicate PendingAt(s: State, t: State, p: Ptr) {
    p in s.items && p in s.mem && p in t.mem && t.mem[p] == s.mem[p]
  }

  ghost predicate Pending(s: State, t: State) {
    && t.content == s.content && t.bs == s.bs && (s.failed ==> t.failed)
    && (forall k | k in t.values :: k in s.values)
    && forall p {:trigger PendingAt(s, t, p)} | p in t.items :: PendingAt(s, t, p)
  }

  lemma PendingRefl(s: State)
    requires Base(s)
    ensures Pending(s, s)
  {
  }

  lemma PendingTrans(s: State, t: State, u: State)
    requires Pending(s, t) && Pending(t, u)
    ensures Pending(s, u)
  {
    forall p | p in u.items ensures PendingAt(s, u, p) {
      assert PendingAt(t, u, p) && PendingAt(s, t, p);
    }
  }

  lemma WaitedPending(s: State, t: State)
    requires Waited(s, t) && Base(s)
    ensures Pending(s, t)
  {
    forall p | p in t.items ensures PendingAt(s, t, p) {
      assert WaitedAt(s, t, p);
    }
  }

  lemma DrainPending(s: State, p: Ptr)
    requires Base(s) && p in s.mem && s.mem[p].state.Token?
    ensures Pending(s, Drain(s, p))
  {
    assert BlockOk(s, p);
  }

  lemma DropPending(s: State, p: Ptr)
    requires Base(s) && p in s.mem && p !in s.items
    ensures Pending(s, Drop(s, p))
  {
  }

  // ---------- Random-read cleanup as a whole ----------

  /** One look at the first block of Cooking: a finished download is freed,
      whatever its token says, any other block goes to the back. */
  function Look(s: State): State
    requires s.cooking != []
  {
    var p := s.cooking[0];
    if p in s.mem && s.mem[p].state.Token? then Drain(s, p) else Rotate(s)
  }

  function Sweep(s: State, n: nat): State
    decreases n
  {
    if n == 0 || s.cooking == [] then s else Sweep(Look(s), n - 1)
  }

  /** The first `n` free blocks go back to the pool. */
  function Trim(s: State, n: nat): State
    decreases n
  {
    if n == 0 || s.cooked == [] || s.cooked[0] !in s.mem then s else Trim(Drop(s, s.cooked[0]), n - 1)
  }

  /** Every block of Cooking is looked at once, then five free blocks are kept. */
  function Cleaned(s: State): State {
    if |s.cooked| + |s.cooking| <= MIN_PREFETCH then s
    else
      var t := Sweep(s, |s.cooking|);
      Trim(t, Max(|t.cooked| - MIN_PREFETCH, 0))
  }

  // ---------- What a reader is given ----------

  /** Block `k` is there and open to readers. */
  ghost predicate Served(s: State, k: int) {
    k in s.values && s.values[k] in s.mem && s.mem[s.values[k]].state.Closed?
  }

  /** Block `k` was lined up, and nobody has closed its channel yet. */
  ghost predicate Awaited(s: State, k: int) {
    k in s.values && s.values[k] in s.mem && s.values[k] in s.cooking && !s.mem[s.values[k]].state.Closed?
  }

  /** [offset, offset + length) meets one block only. */
  predicate OneBlock(s: State, offset: nat, length: nat) {
    s.bs > 0 && length > 0 && offset < |s.content| && offset + length <= offset / s.bs * s.bs + s.bs
  }

  /** `n` bytes of a buffer. */
  function Excerpt(data: bytes, from: int, n: nat): (r: bytes)
    ensures |r| == n
    ensures forall i | 0 <= i < n :: r[i] == At(data, from + i)
    ensures 0 <= from && from + n <= |data| ==> r == data[from..from + n]
  {
    seq(n, i requires 0 <= i < n => At(data, from + i))
  }

  /** The answer of this handle to a read inside one block: the buffer of a block
      that is open to readers, the file's bytes otherwise. */
  ghost function Shown(s: State, offset: nat, length: nat): (r: bytes)
    requires OneBlock(s, offset, length)
    ensures |r| == Min(length, |s.content| - offset)
  {
    var k, n := offset / s.bs, Min(length, |s.content| - offset);
    if Served(s, k) then Excerpt(s.mem[s.values[k]].data, offset - k * s.bs, n) else s.content[offset..offset + n]
  }

  lemma ShownServed(s: State, o: nat, n: nat, data: bytes)
    requires OneBlock(s, o, n) && Served(s, o / s.bs) && s.mem[s.values[o / s.bs]].data == data
    ensures Shown(s, o, n) == Excerpt(data, o - o / s.bs * s.bs, Min(n, |s.content| - o))
  {
  }

  lemma BlockStart(s: State, offset: nat)
    requires s.bs > 0
    ensures offset / s.bs * s.bs <= offset < offset / s.bs * s.bs + s.bs
  {
    assert offset == offset / s.bs * s.bs + offset % s.bs;
  }

  lemma ServedShape(s: State, k: int)
    requires Inv(s) && Served(s, k)
    ensures var p := s.values[k];
            && k >= 0 && s.mem[p].id == k && s.mem[p].offset == k * s.bs < |s.content| && |s.mem[p].data| == s.bs
            && (p in s.spoiled || Holds(s, s.mem[p]))
  {
    assert ValueOk(s, k) && BlockOk(s, s.values[k]);
  }

  /** Block `k` can be read by somebody, and its buffer does not hold its bytes. */
  ghost predicate WrongBlock(s: State, k: nat) {
    Served(s, k) && !Holds(s, s.mem[s.values[k]])
  }

  ghost predicate WrongRead(s: State, k: nat, offset: nat, length: nat) {
    && OneBlock(s, offset, length) && offset / s.bs == k
    && Shown(s, offset, length) != s.content[offset..offset + Min(length, |s.content| - offset)]
  }

  /** Some read inside block `k` is answered wrongly if and only if the block is
      open to readers without holding its bytes. It is then one whose download
      failed and whose failure a cleanup has passed over. */
  lemma WrongIff(s: State, k: nat)
    requires Inv(s)
    ensures WrongBlock(s, k) <==> exists o: nat, n: nat :: WrongRead(s, k, o, n)
    ensures WrongBlock(s, k) ==> s.values[k] in s.spoiled && s.failed
  {
    if WrongBlock(s, k) {
      WrongWhole(s, k);
    }
    forall o: nat, n: nat | WrongRead(s, k, o, n) ensures WrongBlock(s, k) {
      if Served(s, k) && Holds(s, s.mem[s.values[k]]) {
        ShownHeld(s, k, o, n);
      }
    }
  }

  /** A cleanup makes block `k` wrong if and only if it frees the block on a token
      that says its download failed, and the buffer happens not to hold the bytes. */
  lemma DrainWrongIff(s: State, p: Ptr, k: nat)
    requires Inv(s) && p in s.mem && s.mem[p].state.Token?
    ensures WrongBlock(Drain(s, p), k) <==>
            WrongBlock(s, k) || (s.mem[p].id == k && s.mem[p].state.failed && !Holds(s, s.mem[p]))
  {
    hide Remove;
    assert BlockOk(s, p) && MappedOk(s, p);
    hide Inv, Base, Mapped, BlockOk, MappedOk;
    DrainShape(s, p, k);
    ValueFacts(s, k);
  }

  lemma ValueFacts(s: State, k: int)
    requires Inv(s)
    ensures k in s.values ==> s.values[k] in s.mem && s.mem[s.values[k]].id == k
  {
    assert k in s.values ==> ValueOk(s, k);
  }

  lemma DrainShape(s: State, p: Ptr, k: int)
    requires p in s.mem && s.mem[p].state.Token?
    ensures var t := Drain(s, p);
            && t.values == s.values && t.mem == s.mem[p := s.mem[p].(state := Closed, downloading := false)]
            && (forall b :: Holds(t, b) <==> Holds(s, b))
            && (Holds(s, s.mem[p].(state := Closed, downloading := false)) <==> Holds(s, s.mem[p]))
  {
  }

  /** No other step does: not the end of a download, well opened or not ... */
  lemma DownloadNeverWrongs(s: State, t: State, p: Ptr, ok: bool, junk: bytes, k: nat)
    requires Inv(s) && p in s.mem && WrongBlock(t, k)
    requires || (p in s.items && s.mem[p].offset < |s.content| && |s.mem[p].data| == s.bs && t == Finish(s, p, ok, junk))
             || (s.mem[p].state == Token(false) && t == Unblock(s, p))
    ensures WrongBlock(s, k)
  {
    assert BlockOk(s, p);
    hide Inv, Base, Mapped, BlockOk;
    ValueFacts(s, k);
  }

  /** ... nor taking a buffer or giving it to another block ... */
  lemma ReuseNeverWrongs(s: State, t: State, p: Ptr, q: nat, data: bytes, k: nat)
    requires Inv(s) && WrongBlock(t, k)
    requires (p !in s.mem && t == Take(s, p, data)) || (p in s.mem && q !in s.values && t == Refresh(s, p, q))
    ensures WrongBlock(s, k)
  {
    hide Inv, Base, Mapped, Remove;
    ValueFacts(s, k);
  }

  /** ... nor moving one or giving it back. */
  lemma MoveNeverWrongs(s: State, t: State, p: Ptr, k: nat)
    requires Inv(s) && WrongBlock(t, k)
    requires (s.cooking != [] && t == Rotate(s)) || t == ToCooked(s, p) || (p in s.mem && t == Drop(s, p))
    ensures WrongBlock(s, k)
  {
    hide Inv, Base, Mapped, Remove;
    ValueFacts(s, k);
  }

  lemma WrongWhole(s: State, k: nat)
    requires Inv(s) && WrongBlock(s, k)
    ensures WrongRead(s, k, k * s.bs, s.bs)
    ensures s.values[k] in s.spoiled && s.failed
  {
    ServedShape(s, k);
    assert BlockOk(s, s.values[k]);
    DivMod(k, 0, s.bs);
    var b, m := s.mem[s.values[k]], Min(s.bs, |s.content| - k * s.bs);
    assert Shown(s, k * s.bs, s.bs) == b.data[..m];
  }

  lemma ShownHeld(s: State, k: nat, o: nat, n: nat)
    requires Inv(s) && Served(s, k) && Holds(s, s.mem[s.values[k]]) && OneBlock(s, o, n) && o / s.bs == k
    ensures Shown(s, o, n) == s.content[o..o + Min(n, |s.content| - o)]
  {
    ServedShape(s, k);
    BlockStart(s, o);
    var b, m := s.mem[s.values[k]], Min(n, |s.content| - o);
    HeldBytes(s, b, o, m);
    assert Shown(s, o, n) == b.data[o - b.offset..o - b.offset + m];
  }

  lemma HeldBytes(s: State, b: Block, at: nat, n: nat)
    requires Holds(s, b) && b.offset <= at && at + n <= b.offset + Min(s.bs, |s.content| - b.offset)
    ensures b.data[at - b.offset..at - b.offset + n] == s.content[at..at + n]
  {
    var m := Min(s.bs, |s.content| - b.offset);
    SliceOfSlice(b.data, 0, m, at - b.offset, at - b.offset + n);
    SliceOfSlice(s.content, b.offset, b.offset + m, at, at + n);
  }
}
