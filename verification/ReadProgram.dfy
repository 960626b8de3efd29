/** What one read does to a read-only handle, with the program's own guards. The
    calls are relations: a read may end in `t` when started in `s`. */
module ReadProgram {
  import opened Bytes
  import opened Lists
  import opened ReadState

  /** The handle's state with its two counters: random reads so far, and the block
      to prefetch next. */
  datatype Reader = Reader(s: State, optCnt: nat, next: nat)

  /** A download ends; a failed one leaves a buffer of zeros. */
  ghost predicate Works(s: State, p: Ptr, ok: bool, t: State) {
    && p in s.items && p in s.mem && s.mem[p].offset < |s.content| && |s.mem[p].data| == s.bs
    && t == Finish(s, p, ok, Zeros(s.bs))
  }

  /** `n` buffers are taken from the pool. */
  ghost predicate Takes(s: State, t: State, n: nat)
    decreases n
  {
    if n == 0 then t == s else exists p: Ptr :: p !in s.mem && Takes(Take(s, p, Zeros(s.bs)), t, n - 1)
  }

  /** A block inside the file is lined up in the first free buffer. Without one a
      buffer is taken from the pool, except ahead of the reader. */
  ghost predicate Refreshes(r: Reader, t: Reader, k: nat, ahead: bool) {
    exists u ::
      && (if r.s.cooked == [] && !ahead then Takes(r.s, u, 1) else u == r.s)
      && if u.cooked == [] then t == r.(s := u)
         else u.cooked[0] in u.mem && t == Reader(Refresh(u, u.cooked[0], k), r.optCnt, k + 1)
  }

  /** Up to `cnt` blocks from `k` on; one that is there uses up its turn. */
  ghost predicate LinesUp(r: Reader, t: Reader, k: nat, ahead: bool, cnt: nat)
    decreases cnt
  {
    if cnt == 0 then t == r
    else if k in r.s.values then LinesUp(r, t, k, true, cnt - 1)
    else if k * r.s.bs >= |r.s.content| then t == r
    else exists u :: Refreshes(r, u, k, ahead) && LinesUp(u, t, k + 1, true, cnt - 1)
  }

  /** How many buffers a sequential reader still gets. */
  function Room(s: State, prefetch: nat): nat {
    var used := |s.cooked| + |s.cooking|;
    if used < prefetch then Min(prefetch - used, MIN_PREFETCH) else 0
  }

  /** A random reader cleans up and lines up one block, any other one takes new
      buffers and lines up as many. */
  ghost predicate Prefetches(r: Reader, t: Reader, k: nat, ahead: bool, prefetch: nat) {
    if r.optCnt > MIN_RANDREAD then LinesUp(r.(s := Cleaned(r.s)), t, k, ahead, 1)
    else exists u :: Takes(r.s, u, Room(r.s, prefetch)) && LinesUp(r.(s := u), t, k, ahead, Max(Room(r.s, prefetch), 1))
  }

  /** A block that is not there counts as a random read, but for the very first. */
  function Counted(r: Reader, prefetch: nat): Reader {
    if prefetch > 0 && r.next == 0 then r else r.(optCnt := r.optCnt + 1)
  }

  /** The download of block `k` has ended well: its first reader closes the channel,
      prefetches on unless the reads look random, and moves the block to Cooked. */
  ghost predicate Opens(r: Reader, t: Reader, k: nat, prefetch: nat) {
    && k in r.s.values && r.s.values[k] in r.s.mem && r.s.mem[r.s.values[k]].state == Token(false)
    && var p := r.s.values[k];
       var u := r.(s := Unblock(r.s, p));
       exists v ::
         && (if prefetch > 0 && r.optCnt <= MIN_RANDREAD && r.next * r.s.bs < |r.s.content| then Prefetches(u, v, r.next, true, prefetch)
             else v == u)
         && t == v.(s := ToCooked(v.s, p))
  }

  /** A read of a block that is not there; its own download ends well and is the
      only one to end while the reader waits. */
  ghost predicate ReadsNew(r: Reader, t: Reader, k: nat, prefetch: nat) {
    && k !in r.s.values && k * r.s.bs < |r.s.content|
    && exists u, v ::
         && Prefetches(Counted(r, prefetch), u, k, false, prefetch)
         && k in u.s.values && Works(u.s, u.s.values[k], true, v)
         && Opens(u.(s := v), t, k, prefetch)
  }

  datatype Call = Get(k: nat) | End(p: Ptr, ok: bool)

  ghost predicate Does(r: Reader, t: Reader, call: Call, prefetch: nat) {
    match call
    case Get(k) => ReadsNew(r, t, k, prefetch)
    case End(p, ok) => Works(r.s, p, ok, t.s) && t == r.(s := t.s)
  }

  /** A run: reads, with downloads ending in between. */
  ghost predicate Runs(r: Reader, t: Reader, calls: seq<Call>, prefetch: nat)
    decreases |calls|
  {
    if calls == [] then t == r
    else
      var before, last := calls[..|calls| - 1], calls[|calls| - 1];
      exists u :: Runs(r, u, before, prefetch) && Does(u, t, last, prefetch)
  }

  lemma RunsOn(r: Reader, u: Reader, t: Reader, calls: seq<Call>, call: Call, prefetch: nat)
    requires Runs(r, u, calls, prefetch) && Does(u, t, call, prefetch)
    ensures Runs(r, t, calls + [call], prefetch)
  {
    assert (calls + [call])[..|calls|] == calls;
  }
}
