/** What one call does to a write handle, with the program's own guards. The calls
    are relations: a call may end in `t` when started in `s`. Transfers end well,
    and the uploads that a pass lines up end before the pass waits for them. */
module WriteProgram {
  import opened Bytes
  import opened Storage
  import opened Lists
  import opened WriteState
  import opened WriteSteps
  import opened WriteEdit
  import opened WriteFetch
  import opened WriteCommit

  // ---------- Workers ----------

  /** The upload of `p` ends well. */
  ghost predicate Ends(s: State, p: Ptr, t: State) {
    && p in s.uploads && p in s.mem && 0 <= StagedLen(s, s.mem[p].id) <= |s.mem[p].data|
    && t == UploadOk(s, p)
  }

  ghost predicate Works(s: State, t: State) {
    t == s || exists p :: Ends(s, p, t)
  }

  // ---------- Staging ----------

  /** The first modified block of Cooking. */
  ghost predicate FirstModified(s: State, i: nat) {
    && i < |s.cooking| && s.cooking[i] in s.mem && s.mem[s.cooking[i]].dirty
    && forall j | 0 <= j < i :: s.cooking[j] in s.mem && !s.mem[s.cooking[j]].dirty
  }

  ghost predicate NoneModified(s: State) {
    forall p | p in s.cooking :: p in s.mem && !s.mem[p].dirty
  }

  ghost predicate Schedules(s: State, p: Ptr, t: State) {
    && p in s.mem && 0 <= BlockLen(s, s.mem[p].id)
    && t == LineupUpload(s, p)
  }

  /** One block is scheduled, if there is a modified one. */
  ghost predicate SchedulesOne(s: State, t: State) {
    (NoneModified(s) && t == s) || exists i: nat :: FirstModified(s, i) && Schedules(s, s.cooking[i], t)
  }

  /** The front modified block is scheduled and uploaded. */
  ghost predicate StagesFirst(s: State, t: State) {
    exists i: nat, u :: FirstModified(s, i) && Schedules(s, s.cooking[i], u) && Ends(u, s.cooking[i], t)
  }

  /** All `n` modified blocks, front to back. */
  ghost predicate StagesAll(s: State, t: State, n: nat)
    decreases n
  {
    if n == 0 then NoneModified(s) && t == s else exists u :: StagesFirst(s, u) && StagesAll(u, t, n - 1)
  }

  /** The wait for the blocks of Cooked takes their tokens and clears their marks. */
  function Awaited(s: State): State {
    s.(mem := map p | p in s.mem ::
         if p in s.cooked then s.mem[p].(state := Closed, uploading := false, downloading := false) else s.mem[p])
  }

  /** The staging passes of a commit; with nothing in Cooking there is none. */
  ghost predicate Passes(s: State, t: State) {
    if s.cooking == [] then t == s else exists u, n: nat :: StagesAll(s, u, n) && u.uploads == map[] && t == Awaited(u)
  }

  // ---------- Getting a block ----------

  /** With too many buffers piled up the first one of Cooked, if any, is waited for
      and given back. */
  ghost predicate MakesRoom(s: State, t: State, room: nat) {
    if |s.cooked| + |s.cooking| < room || s.cooked == [] then t == s
    else
      var p := s.cooked[0];
      p in s.mem && p !in s.uploads && !s.mem[p].failed && t == Forget(s, p)
  }

  /** A ranged read of block `k` into a zeroed buffer. */
  ghost predicate Reads(s: State, k: nat, data: bytes) {
    && 0 <= Min(s.bs, s.length - k * s.bs) <= s.bs
    && data == Fetch(Content(s.store), k * s.bs, Min(s.bs, s.length - k * s.bs), Zeros(s.bs))
  }

  /** The bytes of a block that no commit is needed for. */
  ghost predicate Finds(s: State, k: nat, data: bytes) {
    if k * s.bs < s.length && k in s.blockList then s.blockList[k].committed && Reads(s, k, data) else data == Zeros(s.bs)
  }

  /** The new buffer is linked; with more than three blocks in Cooking one is scheduled. */
  ghost predicate Links(s: State, t: State, k: nat, p: Ptr, data: bytes) {
    && p !in s.mem
    && var u := LinkNew(s, k, p, data);
       if |u.cooking| > MIN_WRITE_BLOCK then SchedulesOne(u, t) else t == u
  }

  /** A cached block whose transfer has ended, if it had one. */
  ghost predicate Reopens(s: State, t: State, k: nat, p: Ptr) {
    && k in s.values && s.values[k] == p && p in s.mem && p !in s.uploads && !s.mem[p].downloading
    && t == Reopened(s, p)
  }

  ghost predicate Creates(s: State, t: State, k: nat, p: Ptr, room: nat) {
    k !in s.values && exists u, data :: MakesRoom(s, u, room) && Finds(u, k, data) && Links(u, t, k, p, data)
  }

  ghost predicate GetsPlain(s: State, t: State, k: nat, p: Ptr, room: nat) {
    Reopens(s, t, k, p) || Creates(s, t, k, p, room)
  }

  /** A block that was staged but not committed: everything is committed first, and
      the buffer is linked whatever the commit has cached. */
  ghost predicate CreatesAfterCommit(s: State, t: State, k: nat, p: Ptr, room: nat) {
    && k !in s.values
    && exists u, v, data ::
         && MakesRoom(s, u, room) && NeedsCommit(u, k) && Commits(u, v, true, room, 1)
         && Reads(v, k, data) && Links(v, t, k, p, data)
  }

  ghost predicate Gets(s: State, t: State, k: nat, p: Ptr, room: nat) {
    GetsPlain(s, t, k, p, room) || CreatesAfterCommit(s, t, k, p, room)
  }

  // ---------- The list to commit ----------

  datatype Draft = Draft(s: State, ids: seq<Id>, restage: seq<Id>, zero: seq<Id>)

  function Staging(s: State, data: bytes): State {
    s.(store := Stage(s.store.(nextId := s.store.nextId + 1), s.store.nextId, data))
  }

  /** Index `k` of a list of `n`: the entry, a filler behind a short one that is not
      the last, or the shared zero block for a hole. */
  function Extended(d: Draft, k: nat, n: nat): Draft {
    var s := d.s;
    if k in s.blockList then
      var e := s.blockList[k];
      if k != n - 1 && e.size < s.bs then
        Draft(Staging(s, Zeros(s.bs - e.size)), d.ids + [e.id, s.store.nextId], d.restage + [e.id], d.zero)
      else d.(ids := d.ids + [e.id])
    else if d.zero != [] then
      d.(ids := d.ids + [d.zero[0]], s := s.(blockList := s.blockList[k := BlockInfo(d.zero[0], false, s.bs)]))
    else
      var id := s.store.nextId;
      Draft(Staging(s, Zeros(s.bs)).(blockList := s.blockList[k := BlockInfo(id, false, s.bs)]), d.ids + [id], d.restage, [id])
  }

  function Drafted(s: State, k: nat, n: nat): Draft {
    if k == 0 then Draft(s, [], [], []) else Extended(Drafted(s, k - 1, n), k - 1, n)
  }

  /** `n` is the end of the block list. */
  ghost predicate Drafts(s: State, n: nat, d: Draft) {
    && (n > 0 ==> n - 1 in s.blockList) && (forall k | k in s.blockList :: k < n)
    && d == Drafted(s, n, n)
  }

  // ---------- Commit ----------

  /** Each short block is got at the position of its id and marked modified; the id
      of its filler leaves the list. */
  ghost predicate Restages(s: State, t: State, ids: seq<Id>, restage: seq<Id>, room: nat)
    decreases |restage|
  {
    if restage == [] then t == s
    else exists i: nat, u, p ::
      && i < |ids| - 1 && ids[i] == restage[0] && restage[0] !in ids[..i]
      && GetsPlain(s, u, i, p, room) && p in u.mem
      && Restages(MarkDirty(u, p), t, ids[..i + 1] + ids[i + 2..], restage[1..], room)
  }

  /** The list is sent and taken; short blocks are restaged and everything is
      committed again. */
  ghost predicate Sends(d: Draft, t: State, ok: bool, room: nat, depth: nat)
    decreases depth, 0
  {
    && Known(d.s.store, d.ids)
    && var c := Committed(d.s, d.ids);
       if d.restage == [] then ok && t == c.(handleDirty := false)
       else depth > 0 && exists u :: Restages(c, u, d.ids, d.restage, room) && Commits(u, t, ok, room, depth - 1)
  }

  /** When sending the list fails everything else has been done. */
  ghost predicate Commits(s: State, t: State, ok: bool, room: nat, depth: nat)
    decreases depth, 1
  {
    exists u, n: nat, d ::
      && Passes(s, u) && Drafts(u, n, d)
      && ((!ok && t == d.s) || Sends(d, t, ok, room, depth))
  }

  // ---------- Calls ----------

  /** A write inside one block. */
  ghost predicate Writes(s: State, t: State, offset: nat, data: bytes, room: nat) {
    && s.bs > 0 && offset % s.bs + |data| <= s.bs
    && exists u, v, p ::
         && Gets(s, u, offset / s.bs, p, room) && Works(u, v)
         && p in v.mem && |v.mem[p].data| == s.bs && t == WriteData(v, p, offset % s.bs, data)
  }

  ghost predicate Flushes(s: State, t: State, ok: bool, room: nat) {
    s.handleDirty && Commits(s, t, ok, room, 1)
  }

  datatype Call = Write(offset: nat, data: bytes) | Flush(ok: bool) | Idle

  ghost predicate Does(s: State, t: State, call: Call, room: nat) {
    match call
    case Write(offset, data) => Writes(s, t, offset, data, room)
    case Flush(ok) => Flushes(s, t, ok, room)
    case Idle => Works(s, t)
  }

  /** A run: one call after the other, with workers in between. */
  ghost predicate Runs(s: State, t: State, calls: seq<Call>, room: nat)
    decreases |calls|
  {
    if calls == [] then t == s
    else
      var before, last := calls[..|calls| - 1], calls[|calls| - 1];
      exists u :: Runs(s, u, before, room) && Does(u, t, last, room)
  }

  lemma RunsOn(s: State, u: State, t: State, calls: seq<Call>, call: Call, room: nat)
    requires Runs(s, u, calls, room) && Does(u, t, call, room)
    ensures Runs(s, t, calls + [call], room)
  {
    assert (calls + [call])[..|calls|] == calls;
  }

  /** What the file should be. */
  function Expected(calls: seq<Call>): bytes {
    if calls == [] then []
    else
      var last, before := calls[|calls| - 1], Expected(calls[..|calls| - 1]);
      if last.Write? then Splice(before, last.offset, last.data) else before
  }

  lemma ExpectedOn(calls: seq<Call>, call: Call)
    ensures Expected(calls + [call]) == if call.Write? then Splice(Expected(calls), call.offset, call.data) else Expected(calls)
  {
    assert (calls + [call])[..|calls|] == calls;
  }
}
