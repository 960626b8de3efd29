/** A run from a created file in which a write is lost: the handle shows a wrong
    file, and a flush that succeeds leaves a wrong blob. */
module LostRun {
  import opened Bytes
  import opened Storage
  import opened Lists
  import opened WriteState
  import opened WriteSteps
  import opened WriteEdit
  import opened WriteCommit
  import opened WriteFetch
  import opened WriteProgram
  import opened RunSteps

  // ---------- A write is lost ----------

  /** Write byte 0 ... */
  function Lost1(): State {
    State(2, false, 1, 1, true, [], [0], map[0 := 0], map[], map[0 := Modified(0, [9, 0])], map[], {}, EMPTY)
  }

  lemma LostWrite0()
    ensures Writes(Created(), Lost1(), 0, [9], 0)
  {
    hide Writes;
    var s := Created();
    assert Zeros(2) == [0, 0];
    OverwriteTwo(0, 0, 9);
    WritesNew(s, s, 0, 0, Zeros(2), 0, [9], 0);
    assert Put(s, 0, 0, [9, 0], 1) == Lost1();
  }

  /** ... and flush; sending the list fails. */
  function Lost2(): State {
    State(2, false, 1, 1, true, [0], [], map[0 := 0], map[0 := BlockInfo(0, false, 1)], map[0 := Clean(0, [9, 0])],
          map[], {}, Store([], [], map[0 := [9]], 1))
  }

  lemma LostFlush1()
    ensures Flushes(Lost1(), Lost2(), false, 0)
  {
    hide Passes;
    var s, t := Lost1(), Lost2();
    assert [9, 0][..1] == [9];
    var u := Staged(s, 0, [], 1);
    assert u.mem == map[0 := Done(0, [9, 0])];
    assert Awaited(u).mem == t.mem;
    PassOne(s, 0, 1, t);
    assert Drafts(t, 1, Draft(t, [0], [], []));
  }

  /** Write block 1. No buffers are kept free for this handle, so the uploaded
      block 0 is evicted; its entry is outgrown now. */
  function Lost3(): State {
    State(2, false, 4, 4, true, [], [1], map[1 := 1], map[0 := BlockInfo(0, false, 1)], map[1 := Modified(1, [1, 1])],
          map[], {}, Store([], [], map[0 := [9]], 1))
  }

  function LostFreed(): State {
    State(2, false, 1, 1, true, [], [], map[], map[0 := BlockInfo(0, false, 1)], map[], map[], {}, Store([], [], map[0 := [9]], 1))
  }

  lemma LostRoom1()
    ensures MakesRoom(Lost2(), LostFreed(), 0)
  {
    var s := Lost2();
    hide Forget;
    assert s.mem - {0} == map[] && s.values - {0} == map[];
    ForgetOnly(s, 0, map[], map[]);
  }

  lemma LostPut1()
    ensures Overwrite(Zeros(2), 0, [1, 1]) == [1, 1] && Put(LostFreed(), 1, 1, [1, 1], 4) == Lost3()
  {
    assert Zeros(2) == [0, 0];
    OverwriteTwo(0, 0, 1);
  }

  lemma LostWrite1()
    ensures Writes(Lost2(), Lost3(), 2, [1, 1], 0)
  {
    hide Writes, MakesRoom, Overwrite, Put;
    LostRoom1();
    LostPut1();
    WritesNew(Lost2(), LostFreed(), 1, 1, Zeros(2), 0, [1, 1], 0);
  }

  // ---------- Write byte 1: block 0 is neither cached nor committed ----------

  /** Everything is staged, block 0 gets a filler, and the list is taken. */
  function LostSent(): State {
    State(2, false, 4, 4, true, [1], [], map[1 := 1], map[0 := BlockInfo(0, true, 1), 1 := BlockInfo(1, true, 2)],
          map[1 := Clean(1, [1, 1])], map[], {},
          Store([Stored(0, [9]), Stored(2, [0]), Stored(1, [1, 1])], [], map[], 3))
  }

  function LostPassed(): State {
    State(2, false, 4, 4, true, [1], [], map[1 := 1], map[0 := BlockInfo(0, false, 1), 1 := BlockInfo(1, false, 2)],
          map[1 := Clean(1, [1, 1])], map[], {}, Store([], [], map[0 := [9], 1 := [1, 1]], 2))
  }

  function LostDraft(): Draft {
    Draft(LostPassed().(store := Store([], [], map[0 := [9], 1 := [1, 1], 2 := [0]], 3)), [0, 2, 1], [0], [])
  }

  lemma LostPasses()
    ensures Passes(Lost3(), LostPassed()) && Drafts(LostPassed(), 2, LostDraft())
  {
    hide Passes;
    var s, t := Lost3(), LostPassed();
    assert [1, 1][..2] == [1, 1];
    var u := Staged(s, 1, [], 2);
    assert u.mem == map[1 := Done(1, [1, 1])];
    assert Awaited(u).mem == t.mem;
    PassOne(s, 1, 2, t);
    assert Zeros(1) == [0];
    var d := Drafted(t, 1, 2);
    assert d == Draft(LostDraft().s, [0, 2], [0], []) by {
      assert Drafted(t, 0, 2) == Draft(t, [], [], []);
    }
    assert Drafted(t, 2, 2) == LostDraft();
  }

  lemma LostTaken()
    ensures Known(LostDraft().s.store, [0, 2, 1]) && Committed(LostDraft().s, [0, 2, 1]) == LostSent()
  {
    var s := LostDraft().s;
    CommitIs(s.store, [0, 2, 1], [Stored(0, [9]), Stored(2, [0]), Stored(1, [1, 1])]);
    assert Committed(s, [0, 2, 1]).blockList == LostSent().blockList;
  }

  /** Block 0 is read back into buffer 2, after block 1 was evicted, and marked. */
  function LostMarked(): State {
    State(2, false, 4, 4, true, [], [2], map[0 := 2], map[0 := BlockInfo(0, true, 1), 1 := BlockInfo(1, true, 2)],
          map[2 := Modified(0, [9, 0])], map[], {},
          Store([Stored(0, [9]), Stored(2, [0]), Stored(1, [1, 1])], [], map[], 3))
  }

  function LostEmptied(): State {
    LostSent().(cooked := [], values := map[], mem := map[])
  }

  lemma LostGets()
    ensures GetsPlain(LostSent(), LinkNew(LostEmptied(), 0, 2, [9, 0]), 0, 2, 0)
  {
    var s, u := LostSent(), LostEmptied();
    ContentOf3(s.store.committed, [9], [0], [1, 1]);
    FirstBytes([9, 0, 1, 1]);
    assert s.mem - {1} == map[] && s.values - {1} == map[];
    ForgetOnly(s, 1, map[], map[]);
    assert MakesRoom(s, u, 0);
    var v := LinkNew(u, 0, 2, [9, 0]);
    assert Finds(u, 0, [9, 0]) && Links(u, v, 0, 2, [9, 0]);
    assert Creates(s, v, 0, 2, 0);
  }

  lemma LostRestages()
    ensures Restages(LostSent(), LostMarked(), [0, 2, 1], [0], 0)
  {
    LostGets();
    hide GetsPlain;
    var v := LinkNew(LostEmptied(), 0, 2, [9, 0]);
    var t := MarkDirty(v, 2);
    assert t == LostMarked();
    assert Restages(t, t, [0, 2, 1][..1] + [0, 2, 1][2..], [0][1..], 0);
  }

  /** It is uploaded, and the second list is taken. */
  function LostCommitted(): State {
    State(2, false, 4, 4, false, [2], [], map[0 := 2], map[0 := BlockInfo(3, true, 2), 1 := BlockInfo(1, true, 2)],
          map[2 := Clean(0, [9, 0])], map[], {},
          Store([Stored(3, [9, 0]), Stored(1, [1, 1])], [], map[], 4))
  }

  function LostAgain(): State {
    LostMarked().(cooked := [2], cooking := [], mem := map[2 := Clean(0, [9, 0])],
                  blockList := map[0 := BlockInfo(3, false, 2), 1 := BlockInfo(1, true, 2)],
                  store := Store([Stored(0, [9]), Stored(2, [0]), Stored(1, [1, 1])], [], map[3 := [9, 0]], 4))
  }

  lemma LostSecondCommit()
    ensures Commits(LostMarked(), LostCommitted(), true, 0, 0)
  {
    hide Passes, Drafts, LostMarked, LostAgain, LostCommitted, Committed, Known;
    LostPassesAgain();
    LostTakenAgain();
    assert Sends(Draft(LostAgain(), [3, 1], [], []), LostCommitted(), true, 0, 0);
  }

  lemma LostPassesAgain()
    ensures Passes(LostMarked(), LostAgain()) && Drafts(LostAgain(), 2, Draft(LostAgain(), [3, 1], [], []))
  {
    hide Passes;
    var s, t := LostMarked(), LostAgain();
    assert [9, 0][..2] == [9, 0];
    var u := Staged(s, 2, [], 2);
    assert u.mem == map[2 := Done(0, [9, 0])];
    assert u.blockList == t.blockList;
    assert Awaited(u).mem == t.mem;
    PassOne(s, 2, 2, t);
    assert Drafted(t, 0, 2) == Draft(t, [], [], []);
    assert Drafted(t, 1, 2) == Draft(t, [3], [], []);
  }

  lemma LostTakenAgain()
    ensures Known(LostAgain().store, [3, 1])
    ensures Committed(LostAgain(), [3, 1]).(handleDirty := false) == LostCommitted()
  {
    var t := LostAgain();
    FindIn3(t.store.committed, 1);
    CommitIs(t.store, [3, 1], [Stored(3, [9, 0]), Stored(1, [1, 1])]);
    assert Committed(t, [3, 1]).blockList == LostCommitted().blockList;
  }

  lemma FindIn3(l: seq<Stored>, id: Id)
    requires l == [Stored(0, [9]), Stored(2, [0]), Stored(1, [1, 1])] && id == 1
    ensures FindBlock(l, id) == Found([1, 1])
  {
    assert FindBlock(l, 1) == FindBlock(l[1..], 1) == FindBlock(l[1..][1..], 1);
  }

  lemma LostCommits()
    ensures Commits(Lost3(), LostCommitted(), true, 0, 1)
  {
    hide Passes, Drafts, Restages, Lost3, LostPassed, LostDraft, LostSent, LostMarked, LostCommitted, Committed, Known;
    LostPasses();
    LostTaken();
    LostRestages();
    LostSecondCommit();
    DraftIds();
    assert Sends(LostDraft(), LostCommitted(), true, 0, 1);
  }

  lemma DraftIds()
    ensures LostDraft().ids == [0, 2, 1] && LostDraft().restage == [0]
  {
  }

  /** The write goes on with the buffer it set out to fill, number 3: block 0 is
      read into it and it takes the place of number 2 in the map. */
  function Lost4(): State {
    LostCommitted().(cooking := [3], values := map[0 := 3], handleDirty := true,
                     mem := map[2 := Clean(0, [9, 0]), 3 := Modified(0, [9, 8])])
  }

  lemma LostWrite2()
    ensures Writes(Lost3(), Lost4(), 1, [8], 0)
  {
    hide Writes, Commits;
    var s, v := Lost3(), LostCommitted();
    LostCommits();
    LostReads();
    OverwriteTwo(9, 0, 8);
    WritesAfter(s, v, 0, 3, [9, 0], 1, [8], 0);
    assert Put(v, 0, 3, [9, 8], 2) == Lost4();
  }

  lemma LostReads()
    ensures Reads(LostCommitted(), 0, [9, 0])
  {
    ContentOf(LostCommitted().store.committed, [9, 0], [1, 1]);
    FirstBytes([9, 0, 1, 1]);
  }

  /** Write byte 4. Number 2 is evicted and takes the map entry of block 0 along. */
  function Lost5(): State {
    State(2, false, 5, 5, true, [], [3, 4], map[2 := 4], map[0 := BlockInfo(3, true, 2), 1 := BlockInfo(1, true, 2)],
          map[3 := Modified(0, [9, 8]), 4 := Modified(2, [1, 0])], map[], {},
          Store([Stored(3, [9, 0]), Stored(1, [1, 1])], [], map[], 4))
  }

  function LostLeft(): State {
    Lost4().(cooked := [], values := map[], mem := map[3 := Modified(0, [9, 8])])
  }

  lemma LostRoom3()
    ensures MakesRoom(Lost4(), LostLeft(), 0)
  {
    var s := Lost4();
    hide Forget;
    assert s.mem - {2} == map[3 := Modified(0, [9, 8])] && s.values - {0} == map[0 := 3] - {0} == map[];
    ForgetOnly(s, 2, map[], map[3 := Modified(0, [9, 8])]);
  }

  lemma LostPut3()
    ensures Overwrite(Zeros(2), 0, [1]) == [1, 0] && Put(LostLeft(), 2, 4, [1, 0], 5) == Lost5()
  {
    assert Zeros(2) == [0, 0];
    OverwriteTwo(0, 0, 1);
  }

  lemma LostWrite3()
    ensures Writes(Lost4(), Lost5(), 4, [1], 0)
  {
    hide Writes, MakesRoom, Overwrite, Put;
    LostRoom3();
    LostPut3();
    WritesNew(Lost4(), LostLeft(), 2, 4, Zeros(2), 0, [1], 0);
  }

  lemma LostShown()
    ensures Blocks(Lost5()) && Logical(Lost5()) == [9, 0, 1, 1, 1]
  {
    var s := Lost5();
    forall k ensures |Blk(s, k)| == 2 {
    }
    assert Find(s.store, 3) == Found([9, 0]) && Find(s.store, 1) == Found([1, 1]);
    assert Blk(s, 0) == [9, 0] && Blk(s, 1) == [1, 1] && Blk(s, 2) == [1, 0];
    var f := Logical(s);
    assert f[0] == 9 && f[1] == 0 && f[2] == 1 && f[3] == 1 && f[4] == 1;
  }

  // ---------- The first theorem ----------

  /** Byte 0, a flush that fails, block 1, byte 1, byte 4. */
  const LOST_CALLS: seq<Call> := [Write(0, [9]), Flush(false), Write(2, [1, 1]), Write(1, [8]), Write(4, [1])]

  lemma LostRuns()
    ensures Runs(Created(), Lost5(), LOST_CALLS, 0)
  {
    hide Writes, Flushes, Lost1, Lost2, Lost3, Lost4, Lost5, Created;
    LostWrite0();
    LostFlush1();
    LostWrite1();
    LostWrite2();
    LostWrite3();
    var c := LOST_CALLS;
    RunsOn(Created(), Created(), Lost1(), [], c[0], 0);
    RunsOn(Created(), Lost1(), Lost2(), [] + [c[0]], c[1], 0);
    RunsOn(Created(), Lost2(), Lost3(), [] + [c[0]] + [c[1]], c[2], 0);
    RunsOn(Created(), Lost3(), Lost4(), [] + [c[0]] + [c[1]] + [c[2]], c[3], 0);
    RunsOn(Created(), Lost4(), Lost5(), [] + [c[0]] + [c[1]] + [c[2]] + [c[3]], c[4], 0);
    assert c == [] + [c[0]] + [c[1]] + [c[2]] + [c[3]] + [c[4]];
  }

  lemma LostExpected()
    ensures Expected(LOST_CALLS) == Splice(Splice(Splice(Splice([], 0, [9]), 2, [1, 1]), 1, [8]), 4, [1])
  {
    hide Splice;
    var c := LOST_CALLS;
    ExpectedOn([], c[0]);
    ExpectedOn([] + [c[0]], c[1]);
    ExpectedOn([] + [c[0]] + [c[1]], c[2]);
    ExpectedOn([] + [c[0]] + [c[1]] + [c[2]], c[3]);
    ExpectedOn([] + [c[0]] + [c[1]] + [c[2]] + [c[3]], c[4]);
    assert c == [] + [c[0]] + [c[1]] + [c[2]] + [c[3]] + [c[4]];
  }

  /** After these calls a handle may show another file than was written: byte 1,
      written as 8, reads as 0. */
  lemma LostFile() returns (t: State)
    ensures Runs(Created(), t, LOST_CALLS, 0)
    ensures Blocks(t) && Logical(t) != Expected(LOST_CALLS)
  {
    hide Runs, Lost5, Logical, Blocks, Expected;
    t := Lost5();
    LostRuns();
    LostShown();
    LostExpected();
    LostByte();
  }

  lemma LostByte()
    ensures var f := Splice(Splice(Splice(Splice([], 0, [9]), 2, [1, 1]), 1, [8]), 4, [1]); |f| == 5 && f[1] == 8
  {
  }

  // ---------- The second theorem: the flush after it ----------

  /** Write byte 0. Block 0 is not in the map, so it is read once more, into number
      5, before number 3 has been staged. */
  function Lost6(): State {
    State(2, false, 5, 5, true, [], [3, 4, 5], map[2 := 4, 0 := 5], map[0 := BlockInfo(3, true, 2), 1 := BlockInfo(1, true, 2)],
          map[3 := Modified(0, [9, 8]), 4 := Modified(2, [1, 0]), 5 := Modified(0, [5, 0])], map[], {},
          Store([Stored(3, [9, 0]), Stored(1, [1, 1])], [], map[], 4))
  }

  lemma LostWrite4()
    ensures Writes(Lost5(), Lost6(), 0, [5], 0)
  {
    hide Writes;
    var s := Lost5();
    assert MakesRoom(s, s, 0);
    ContentOf(s.store.committed, [9, 0], [1, 1]);
    FirstBytes([9, 0, 1, 1]);
    assert Finds(s, 0, [9, 0]);
    OverwriteTwo(9, 0, 5);
    WritesNew(s, s, 0, 5, [9, 0], 0, [5], 0);
    assert Put(s, 0, 5, [5, 0], 1) == Lost6();
  }

  /** The three modified blocks are staged in order, so that number 5 is recorded
      for block 0 after number 3. */
  function LostStaged1(): State {
    State(2, false, 5, 5, true, [3], [4, 5], map[2 := 4, 0 := 5], map[0 := BlockInfo(4, false, 2), 1 := BlockInfo(1, true, 2)],
          map[3 := Done(0, [9, 8]), 4 := Modified(2, [1, 0]), 5 := Modified(0, [5, 0])], map[], {},
          Store([Stored(3, [9, 0]), Stored(1, [1, 1])], [], map[4 := [9, 8]], 5))
  }

  function LostStaged2(): State {
    State(2, false, 5, 5, true, [3, 4], [5], map[2 := 4, 0 := 5],
          map[0 := BlockInfo(4, false, 2), 1 := BlockInfo(1, true, 2), 2 := BlockInfo(5, false, 1)],
          map[3 := Done(0, [9, 8]), 4 := Done(2, [1, 0]), 5 := Modified(0, [5, 0])], map[], {},
          Store([Stored(3, [9, 0]), Stored(1, [1, 1])], [], map[4 := [9, 8], 5 := [1]], 6))
  }

  function LostStaged3(): State {
    State(2, false, 5, 5, true, [3, 4, 5], [], map[2 := 4, 0 := 5],
          map[0 := BlockInfo(6, false, 2), 1 := BlockInfo(1, true, 2), 2 := BlockInfo(5, false, 1)],
          map[3 := Done(0, [9, 8]), 4 := Done(2, [1, 0]), 5 := Done(0, [5, 0])], map[], {},
          Store([Stored(3, [9, 0]), Stored(1, [1, 1])], [], map[4 := [9, 8], 5 := [1], 6 := [5, 0]], 7))
  }

  function LostWaited(): State {
    Awaited(LostStaged3())
  }

  lemma LostStages1()
    ensures StagesFirst(Lost6(), LostStaged1())
  {
    hide StagesFirst;
    var s, t := Lost6(), LostStaged1();
    assert [9, 8][..2] == [9, 8] && [3, 4, 5] == [3] + [4, 5];
    StagesFront(s, 3, [4, 5], 2);
    var u := Staged(s, 3, [4, 5], 2);
    assert u.mem == t.mem && u.blockList == t.blockList && u.store.staged == t.store.staged && u.cooked == t.cooked;
  }

  lemma LostStages2()
    ensures StagesFirst(LostStaged1(), LostStaged2())
  {
    hide StagesFirst;
    var s, t := LostStaged1(), LostStaged2();
    assert [1, 0][..1] == [1] && [4, 5] == [4] + [5];
    StagesFront(s, 4, [5], 1);
    var u := Staged(s, 4, [5], 1);
    assert u.mem == t.mem && u.blockList == t.blockList && u.store.staged == t.store.staged && u.cooked == t.cooked;
  }

  lemma LostStages3()
    ensures StagesFirst(LostStaged2(), LostStaged3())
  {
    hide StagesFirst;
    var s, t := LostStaged2(), LostStaged3();
    assert [5, 0][..2] == [5, 0] && [5] == [5] + [];
    StagesFront(s, 5, [], 2);
    var u := Staged(s, 5, [], 2);
    assert u.mem == t.mem && u.blockList == t.blockList && u.store.staged == t.store.staged && u.cooked == t.cooked;
  }

  lemma LostPasses3()
    ensures Passes(Lost6(), LostWaited())
  {
    hide StagesFirst, Passes;
    LostStages1();
    LostStages2();
    LostStages3();
    LostAwaited();
    hide Lost6, LostStaged1, LostStaged2, LostStaged3, Awaited;
    PassThree(Lost6(), LostStaged1(), LostStaged2(), LostStaged3(), LostWaited());
  }

  lemma LostAwaited()
    ensures LostWaited() == LostStaged3().(mem := LostWaited().mem)
    ensures Lost6().cooking != [] && LostStaged3().cooking == [] && LostStaged3().uploads == map[]
  {
    hide Awaited;
    AwaitedKeeps(LostStaged3());
  }

  lemma LostDrafts()
    ensures Drafts(LostWaited(), 3, Draft(LostWaited(), [6, 1, 5], [], []))
  {
    LostAwaited();
    hide Awaited;
    var t := LostWaited();
    assert Drafted(t, 0, 3) == Draft(t, [], [], []);
    assert Drafted(t, 1, 3) == Draft(t, [6], [], []);
    assert Drafted(t, 2, 3) == Draft(t, [6, 1], [], []);
  }

  function LostEnd(): State {
    LostWaited().(handleDirty := false,
                  blockList := map[0 := BlockInfo(6, true, 2), 1 := BlockInfo(1, true, 2), 2 := BlockInfo(5, true, 1)],
                  store := Store([Stored(6, [5, 0]), Stored(1, [1, 1]), Stored(5, [1])], [], map[], 7))
  }

  lemma LostFound3()
    ensures var st := LostWaited().store;
            && Known(st, [6, 1, 5]) && Commit(st, [6, 1, 5]) == LostEnd().store
  {
    LostAwaited();
    hide Awaited;
    var st := LostWaited().store;
    FindSecond(st.committed, 1);
    CommitIs(st, [6, 1, 5], LostEnd().store.committed);
  }

  lemma LostTaken3()
    ensures Known(LostWaited().store, [6, 1, 5])
    ensures Committed(LostWaited(), [6, 1, 5]).(handleDirty := false) == LostEnd()
    ensures Content(LostEnd().store) == [5, 0, 1, 1, 1]
  {
    LostFound3();
    LostAwaited();
    hide Awaited, Commit, Known, Find;
    var t := LostWaited();
    assert Committed(t, [6, 1, 5]).blockList == LostEnd().blockList;
    LostEndContent();
  }

  lemma LostEndContent()
    ensures Content(LostEnd().store) == [5, 0, 1, 1, 1]
  {
    hide LostWaited;
    ContentOf3(LostEnd().store.committed, [5, 0], [1, 1], [1]);
  }

  lemma LostFlush2()
    ensures Flushes(Lost6(), LostEnd(), true, 0)
  {
    hide Passes, Drafts, Lost6, LostWaited, LostEnd, Committed, Known;
    LostPasses3();
    LostDrafts();
    LostTaken3();
    LostDirty();
    assert Sends(Draft(LostWaited(), [6, 1, 5], [], []), LostEnd(), true, 0, 1);
    assert Commits(Lost6(), LostEnd(), true, 0, 1);
  }

  lemma LostDirty()
    ensures Lost6().handleDirty
  {
  }

  /** After one more write into block 0 and a flush that succeeds the blob has lost
      byte 1 for good. */
  lemma LostContent() returns (t: State)
    ensures Runs(Created(), t, LOST_CALLS + [Write(0, [5])] + [Flush(true)], 0)
    ensures Content(t.store) != Expected(LOST_CALLS + [Write(0, [5])] + [Flush(true)])
  {
    hide Runs, Writes, Flushes, Created, Lost5, Lost6, LostEnd, Expected, LOST_CALLS;
    t := LostEnd();
    LostRuns();
    LostWrite4();
    LostFlush2();
    RunsOn(Created(), Lost5(), Lost6(), LOST_CALLS, Write(0, [5]), 0);
    RunsOn(Created(), Lost6(), LostEnd(), LOST_CALLS + [Write(0, [5])], Flush(true), 0);
    LostTaken3();
    LostExpected();
    LostByte();
    ExpectedOn(LOST_CALLS, Write(0, [5]));
    ExpectedOn(LOST_CALLS + [Write(0, [5])], Flush(true));
    assert [5, 0, 1, 1, 1][1] == 0;
  }
}
