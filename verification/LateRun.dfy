/** A run from a created file in which an upload is late: the first list of a flush
    makes up a longer blob, and as the second one cannot be sent the blob stays so. */
module LateRun {
  import opened Bytes
  import opened Storage
  import opened Lists
  import opened WriteState
  import opened WriteSteps
  import opened WriteEdit
  import opened WriteCommit
  import opened WriteFetch
  import opened WriteProgram
  import opened RunSteps

  const ROOM: nat := 5

  // ---------- Writing ----------

  /** Byte 6, then blocks 0, 1 and 2 in full. */
  function Late1(): State {
    State(2, false, 7, 7, true, [], [0], map[3 := 0], map[], map[0 := Modified(3, [9, 0])], map[], {}, EMPTY)
  }

  function Late2(): State {
    State(2, false, 7, 7, true, [], [0, 1], map[3 := 0, 0 := 1], map[],
          map[0 := Modified(3, [9, 0]), 1 := Modified(0, [1, 1])], map[], {}, EMPTY)
  }

  function Late3(): State {
    State(2, false, 7, 7, true, [], [0, 1, 2], map[3 := 0, 0 := 1, 1 := 2], map[],
          map[0 := Modified(3, [9, 0]), 1 := Modified(0, [1, 1]), 2 := Modified(1, [1, 1])], map[], {}, EMPTY)
  }

  /** With four blocks in Cooking the first, block 3, is scheduled with the one byte
      it has; its upload is slow. */
  function Late4(): State {
    State(2, false, 7, 7, true, [0], [1, 2, 3], map[3 := 0, 0 := 1, 1 := 2, 2 := 3], map[3 := BlockInfo(0, false, 1)],
          map[0 := Pending(3, [9, 0]), 1 := Modified(0, [1, 1]), 2 := Modified(1, [1, 1]), 3 := Modified(2, [1, 1])],
          map[0 := 0], {}, Store([], [], map[], 1))
  }

  /** Byte 8: block 0 is scheduled, and the file grows. */
  function Late5(): State {
    State(2, false, 9, 9, true, [0, 1], [2, 3, 4], map[3 := 0, 0 := 1, 1 := 2, 2 := 3, 4 := 4],
          map[3 := BlockInfo(0, false, 1), 0 := BlockInfo(1, false, 2)],
          map[0 := Pending(3, [9, 0]), 1 := Pending(0, [1, 1]), 2 := Modified(1, [1, 1]), 3 := Modified(2, [1, 1]), 4 := Modified(4, [1, 0])],
          map[0 := 0, 1 := 1], {}, Store([], [], map[], 2))
  }

  lemma LateWrite1()
    ensures Writes(Created(), Late1(), 6, [9], ROOM)
  {
    hide Writes;
    var s := Created();
    assert Zeros(2) == [0, 0];
    OverwriteTwo(0, 0, 9);
    WritesNew(s, s, 3, 0, Zeros(2), 0, [9], ROOM);
    assert Put(s, 3, 0, [9, 0], 7) == Late1();
  }

  lemma LateWrite2()
    ensures Writes(Late1(), Late2(), 0, [1, 1], ROOM)
  {
    hide Writes;
    var s := Late1();
    assert Zeros(2) == [0, 0];
    OverwriteTwo(0, 0, 1);
    WritesNew(s, s, 0, 1, Zeros(2), 0, [1, 1], ROOM);
    assert Put(s, 0, 1, [1, 1], 2).mem == Late2().mem && Put(s, 0, 1, [1, 1], 2) == Late2();
  }

  lemma LateWrite3()
    ensures Writes(Late2(), Late3(), 2, [1, 1], ROOM)
  {
    hide Writes;
    var s := Late2();
    assert Zeros(2) == [0, 0];
    OverwriteTwo(0, 0, 1);
    WritesNew(s, s, 1, 2, Zeros(2), 0, [1, 1], ROOM);
    assert Put(s, 1, 2, [1, 1], 4).mem == Late3().mem && Put(s, 1, 2, [1, 1], 4) == Late3();
  }

  lemma LateWrite4()
    ensures Writes(Late3(), Late4(), 4, [1, 1], ROOM)
  {
    hide Writes;
    var s, t := Late3(), Late4();
    assert Zeros(2) == [0, 0];
    OverwriteTwo(0, 0, 1);
    assert s.cooking == [0] + [1, 2];
    assert MakesRoom(s, s, ROOM);
    WritesScheduling(s, s, 0, [1, 2], 1, 2, 3, [1, 1], ROOM);
    var u := Put(Lined(s, 0, [1, 2], 1), 2, 3, [1, 1], 6);
    assert u.mem == t.mem && u.cooking == t.cooking && u.cooked == t.cooked;
  }

  lemma LateWrite5()
    ensures Writes(Late4(), Late5(), 8, [1], ROOM)
  {
    hide Writes;
    var s, t := Late4(), Late5();
    assert Zeros(2) == [0, 0];
    OverwriteTwo(0, 0, 1);
    assert s.cooking == [1] + [2, 3];
    assert MakesRoom(s, s, ROOM);
    WritesScheduling(s, s, 1, [2, 3], 2, 4, 4, [1], ROOM);
    var u := Put(Lined(s, 1, [2, 3], 2), 4, 4, [1, 0], 9);
    assert u.mem == t.mem && u.cooking == t.cooking && u.cooked == t.cooked;
    assert u.blockList == t.blockList && u.uploads == t.uploads;
  }

  /** The upload of block 0 ends. */
  function Late6(): State {
    Late5().(mem := map[0 := Pending(3, [9, 0]), 1 := Done(0, [1, 1]), 2 := Modified(1, [1, 1]), 3 := Modified(2, [1, 1]), 4 := Modified(4, [1, 0])],
             uploads := map[0 := 0], store := Store([], [], map[1 := [1, 1]], 2))
  }

  /** That of block 3 ends at last: it takes two bytes, where one was recorded. */
  function Late7(): State {
    Late5().(mem := map[0 := Done(3, [9, 0]), 1 := Done(0, [1, 1]), 2 := Modified(1, [1, 1]), 3 := Modified(2, [1, 1]), 4 := Modified(4, [1, 0])],
             uploads := map[], store := Store([], [], map[0 := [9, 0], 1 := [1, 1]], 2))
  }

  lemma LateEnd1()
    ensures Works(Late5(), Late6())
  {
    hide Works;
    var s, t := Late5(), Late6();
    assert [1, 1][..2] == [1, 1];
    assert s.mem[1 := Done(0, [1, 1])] == t.mem && s.uploads - {1} == t.uploads;
    EndsIs(s, 1, 2, t);
  }

  lemma LateEnd0()
    ensures Works(Late6(), Late7())
  {
    hide Works;
    var s, t := Late6(), Late7();
    assert [9, 0][..2] == [9, 0];
    assert s.mem[0 := Done(3, [9, 0])] == t.mem && s.uploads - {0} == t.uploads;
    assert s.store.staged[0 := [9, 0]] == t.store.staged;
    EndsIs(s, 0, 2, t);
  }

  // ---------- Flushing ----------

  function Staged1(): State {
    Late7().(cooked := [0, 1, 2], cooking := [3, 4],
             blockList := map[3 := BlockInfo(0, false, 1), 0 := BlockInfo(1, false, 2), 1 := BlockInfo(2, false, 2)],
             mem := map[0 := Done(3, [9, 0]), 1 := Done(0, [1, 1]), 2 := Done(1, [1, 1]), 3 := Modified(2, [1, 1]), 4 := Modified(4, [1, 0])],
             store := Store([], [], map[0 := [9, 0], 1 := [1, 1], 2 := [1, 1]], 3))
  }

  function Staged2(): State {
    Late7().(cooked := [0, 1, 2, 3], cooking := [4],
             blockList := map[3 := BlockInfo(0, false, 1), 0 := BlockInfo(1, false, 2), 1 := BlockInfo(2, false, 2), 2 := BlockInfo(3, false, 2)],
             mem := map[0 := Done(3, [9, 0]), 1 := Done(0, [1, 1]), 2 := Done(1, [1, 1]), 3 := Done(2, [1, 1]), 4 := Modified(4, [1, 0])],
             store := Store([], [], map[0 := [9, 0], 1 := [1, 1], 2 := [1, 1], 3 := [1, 1]], 4))
  }

  function Staged3(): State {
    Late7().(cooked := [0, 1, 2, 3, 4], cooking := [],
             blockList := map[3 := BlockInfo(0, false, 1), 0 := BlockInfo(1, false, 2), 1 := BlockInfo(2, false, 2), 2 := BlockInfo(3, false, 2),
                              4 := BlockInfo(4, false, 1)],
             mem := map[0 := Done(3, [9, 0]), 1 := Done(0, [1, 1]), 2 := Done(1, [1, 1]), 3 := Done(2, [1, 1]), 4 := Done(4, [1, 0])],
             store := Store([], [], map[0 := [9, 0], 1 := [1, 1], 2 := [1, 1], 3 := [1, 1], 4 := [1]], 5))
  }

  function Cleaned(): map<Ptr, Block> {
    map[0 := Clean(3, [9, 0]), 1 := Clean(0, [1, 1]), 2 := Clean(1, [1, 1]), 3 := Clean(2, [1, 1]), 4 := Clean(4, [1, 0])]
  }

  function Waited(): State {
    Staged3().(mem := Cleaned())
  }

  lemma LateStages1()
    ensures StagesFirst(Late7(), Staged1())
  {
    hide StagesFirst;
    var s, t := Late7(), Staged1();
    assert [1, 1][..2] == [1, 1] && [2, 3, 4] == [2] + [3, 4];
    StagesFront(s, 2, [3, 4], 2);
    var u := Staged(s, 2, [3, 4], 2);
    assert u.mem == t.mem && u.blockList == t.blockList;
    assert u.store.staged == t.store.staged && u.cooked == t.cooked;
  }

  lemma LateStages2()
    ensures StagesFirst(Staged1(), Staged2())
  {
    hide StagesFirst;
    var s, t := Staged1(), Staged2();
    assert [1, 1][..2] == [1, 1] && [3, 4] == [3] + [4];
    StagesFront(s, 3, [4], 2);
    var u := Staged(s, 3, [4], 2);
    assert u.mem == t.mem && u.blockList == t.blockList;
    assert u.store.staged == t.store.staged && u.cooked == t.cooked;
  }

  lemma LateStages3()
    ensures StagesFirst(Staged2(), Staged3())
  {
    hide StagesFirst;
    var s, t := Staged2(), Staged3();
    assert [1, 0][..1] == [1] && [4] == [4] + [];
    StagesFront(s, 4, [], 1);
    var u := Staged(s, 4, [], 1);
    assert u.mem == t.mem && u.blockList == t.blockList;
    assert u.store.staged == t.store.staged && u.cooked == t.cooked;
  }

  lemma LatePasses()
    ensures Passes(Late7(), Waited())
  {
    hide StagesFirst, Passes;
    LateStages1();
    LateStages2();
    LateStages3();
    AwaitedIs();
    StagedEmpty();
    hide Late7, Staged1, Staged2, Staged3, Waited, Awaited;
    PassThree(Late7(), Staged1(), Staged2(), Staged3(), Waited());
  }

  lemma AwaitedIs()
    ensures Awaited(Staged3()) == Waited()
  {
    hide Awaited;
    var s := Staged3();
    assert s.cooked[0] == 0 && s.cooked[1] == 1 && s.cooked[2] == 2 && s.cooked[3] == 3 && s.cooked[4] == 4;
    AwaitedAll(s, Cleaned());
  }

  lemma StagedEmpty()
    ensures Late7().cooking != [] && Staged3().cooking == [] && Staged3().uploads == map[]
  {
  }

  function Filled(): Draft {
    Draft(Waited().(store := Store([], [], map[0 := [9, 0], 1 := [1, 1], 2 := [1, 1], 3 := [1, 1], 4 := [1], 5 := [0]], 6)),
          [1, 2, 3, 0, 5, 4], [0], [])
  }

  lemma LateDrafts()
    ensures Drafts(Waited(), 5, Filled())
  {
    hide Waited;
    LateEntries();
    var t := Waited();
    assert Drafted(t, 0, 5) == Draft(t, [], [], []);
    assert Drafted(t, 1, 5) == Draft(t, [1], [], []);
    assert Drafted(t, 2, 5) == Draft(t, [1, 2], [], []);
    assert Drafted(t, 3, 5) == Draft(t, [1, 2, 3], [], []);
    LateFiller();
    assert Drafted(t, 4, 5) == Draft(Filled().s, [1, 2, 3, 0, 5], [0], []);
  }

  lemma LateEntries()
    ensures var t := Waited();
            && t.bs == 2 && t.store.nextId == 5 && (forall k | k in t.blockList :: k < 5) && (forall k | k in {0, 1, 2, 3, 4} :: k in t.blockList)
            && t.blockList[0] == BlockInfo(1, false, 2) && t.blockList[1] == BlockInfo(2, false, 2) && t.blockList[2] == BlockInfo(3, false, 2)
            && t.blockList[3] == BlockInfo(0, false, 1) && t.blockList[4] == BlockInfo(4, false, 1)
            && Filled().s.blockList == t.blockList && Filled().s.bs == 2
  {
  }

  lemma LateFiller()
    ensures Staging(Waited(), Zeros(1)) == Filled().s
  {
    assert Zeros(1) == [0];
    assert Stage(Waited().store.(nextId := 6), 5, [0]).staged == Filled().s.store.staged;
  }

  function Taken(): seq<Stored> {
    [Stored(1, [1, 1]), Stored(2, [1, 1]), Stored(3, [1, 1]), Stored(0, [9, 0]), Stored(5, [0]), Stored(4, [1])]
  }

  /** The list is taken: the file has nine bytes, the blob ten. */
  function Sent(): State {
    Waited().(store := Store(Taken(), [], map[], 6),
              blockList := map[0 := BlockInfo(1, true, 2), 1 := BlockInfo(2, true, 2), 2 := BlockInfo(3, true, 2), 3 := BlockInfo(0, true, 1),
                               4 := BlockInfo(4, true, 1)])
  }

  lemma LateTaken()
    ensures Known(Filled().s.store, [1, 2, 3, 0, 5, 4]) && Committed(Filled().s, [1, 2, 3, 0, 5, 4]) == Sent()
  {
    var s := Filled().s;
    CommitIs(s.store, [1, 2, 3, 0, 5, 4], Taken());
    hide Commit, Known, Find;
    ListTaken(s.blockList);
  }

  lemma ListTaken(m: map<nat, BlockInfo>)
    requires m == Waited().blockList
    ensures (map k | k in m :: m[k].(committed := true)) == Sent().blockList
  {
  }

  lemma TakenContent()
    ensures Concat(Taken()) == [1, 1, 1, 1, 1, 1, 9, 0, 0, 1]
  {
    var l := Taken();
    ContentOf3(l[..3], [1, 1], [1, 1], [1, 1]);
    assert l[..4][..3] == l[..3] && Concat(l[..4]) == Concat(l[..3]) + [9, 0];
    assert l[..5][..4] == l[..4] && Concat(l[..5]) == Concat(l[..4]) + [0];
    assert l[..6] == l && l[..5] == l[..|l| - 1] && Concat(l) == Concat(l[..5]) + [1];
  }

  /** Block 3 is cached; it is reopened and marked. */
  function Marked(): State {
    Sent().(cooked := [1, 2, 3, 4], cooking := [0],
            mem := map[0 := Modified(3, [9, 0]), 1 := Clean(0, [1, 1]), 2 := Clean(1, [1, 1]), 3 := Clean(2, [1, 1]), 4 := Clean(4, [1, 0])])
  }

  lemma LateRestages()
    ensures Restages(Sent(), Marked(), [1, 2, 3, 0, 5, 4], [0], ROOM)
  {
    hide Creates;
    var s := Sent();
    var u := Reopened(s, 0);
    assert Reopens(s, u, 3, 0);
    assert GetsPlain(s, u, 3, 0, ROOM);
    LateMarks();
    var t := Marked();
    var ids := [1, 2, 3, 0, 5, 4];
    assert ids[3] == 0 && 0 !in ids[..3];
    assert Restages(t, t, ids[..4] + ids[5..], [0][1..], ROOM);
  }

  lemma LateMarks()
    ensures 0 in Sent().mem && 0 in Reopened(Sent(), 0).mem && MarkDirty(Reopened(Sent(), 0), 0) == Marked()
  {
    hide Remove;
    var t := MarkDirty(Reopened(Sent(), 0), 0);
    FrontRemoved([1, 2, 3, 4]);
    assert [0] + [1, 2, 3, 4] == Sent().cooked;
    assert t.mem == Marked().mem;
  }

  lemma FrontRemoved(l: seq<Ptr>)
    requires 0 !in l
    ensures Remove([0] + l, 0) == l && Remove([], 0) == []
  {
    RemoveProps(l, 0);
    assert ([0] + l)[1..] == l;
  }

  /** Block 3 is uploaded once more, and sending the second list fails. */
  function Failed(): State {
    MarkedFront();
    Awaited(Staged(Marked(), 0, [], 2))
  }

  lemma MarkedFront()
    ensures var s := Marked(); 0 in s.mem && s.mem[0] == Modified(3, [9, 0]) && s.cooking == [0] && 0 !in s.cooked
  {
  }

  lemma LateFails()
    ensures Commits(Marked(), Failed(), false, ROOM, 0)
  {
    hide Passes, Drafts, Marked, Failed;
    LatePassesAgain();
    FailedDraft();
    assert Drafts(Failed(), 5, Draft(Failed(), [1, 2, 3, 6, 4], [], []));
  }

  lemma LatePassesAgain()
    ensures Passes(Marked(), Failed())
  {
    hide Passes, Staged, Awaited;
    MarkedFront();
    PassOne(Marked(), 0, 2, Failed());
  }

  lemma FailedDraft()
    ensures Drafts(Failed(), 5, Draft(Failed(), [1, 2, 3, 6, 4], [], []))
  {
    hide Failed;
    FailedEntries();
    var t := Failed();
    assert Drafted(t, 0, 5) == Draft(t, [], [], []);
    assert Drafted(t, 1, 5) == Draft(t, [1], [], []);
    assert Drafted(t, 2, 5) == Draft(t, [1, 2], [], []);
    assert Drafted(t, 3, 5) == Draft(t, [1, 2, 3], [], []);
    assert Drafted(t, 4, 5) == Draft(t, [1, 2, 3, 6], [], []);
  }

  lemma FailedEntries()
    ensures var t := Failed();
            && t.bs == 2 && t.store.committed == Taken() && (forall k | k in t.blockList :: k < 5)
            && (forall k | k in {0, 1, 2, 3, 4} :: k in t.blockList)
            && t.blockList[0] == BlockInfo(1, true, 2) && t.blockList[1] == BlockInfo(2, true, 2) && t.blockList[2] == BlockInfo(3, true, 2)
            && t.blockList[3] == BlockInfo(6, false, 2) && t.blockList[4] == BlockInfo(4, true, 1)
  {
    hide Awaited;
    MarkedFront();
    AwaitedKeeps(Staged(Marked(), 0, [], 2));
  }

  lemma LateFlush()
    ensures Flushes(Late7(), Failed(), false, ROOM)
  {
    hide Passes, Drafts, Restages, Late7, Waited, Filled, Sent, Marked, Failed, Committed, Known;
    LatePasses();
    LateDrafts();
    LateTaken();
    LateRestages();
    LateFails();
    FilledIds();
    assert Sends(Filled(), Failed(), false, ROOM, 1);
    assert Commits(Late7(), Failed(), false, ROOM, 1);
  }

  lemma FilledIds()
    ensures Filled().ids == [1, 2, 3, 0, 5, 4] && Filled().restage == [0] && Late7().handleDirty
  {
  }

  // ---------- The theorem ----------

  /** Byte 6, blocks 0, 1 and 2, byte 8, two uploads ending. */
  const START: seq<Call> := [Write(6, [9]), Write(0, [1, 1]), Write(2, [1, 1]), Write(4, [1, 1]), Write(8, [1]), Idle, Idle]

  lemma StartRuns()
    ensures Runs(Created(), Late7(), START, ROOM)
  {
    hide Writes, Works, Created, Late1, Late2, Late3, Late4, Late5, Late6, Late7;
    LateWrite1();
    LateWrite2();
    LateWrite3();
    LateWrite4();
    LateWrite5();
    LateEnd1();
    LateEnd0();
    var c := START;
    var s := Created();
    RunsOn(s, s, Late1(), [], c[0], ROOM);
    RunsOn(s, Late1(), Late2(), [] + [c[0]], c[1], ROOM);
    RunsOn(s, Late2(), Late3(), [] + [c[0]] + [c[1]], c[2], ROOM);
    RunsOn(s, Late3(), Late4(), [] + [c[0]] + [c[1]] + [c[2]], c[3], ROOM);
    RunsOn(s, Late4(), Late5(), [] + [c[0]] + [c[1]] + [c[2]] + [c[3]], c[4], ROOM);
    RunsOn(s, Late5(), Late6(), [] + [c[0]] + [c[1]] + [c[2]] + [c[3]] + [c[4]], c[5], ROOM);
    RunsOn(s, Late6(), Late7(), [] + [c[0]] + [c[1]] + [c[2]] + [c[3]] + [c[4]] + [c[5]], c[6], ROOM);
    assert c == [] + [c[0]] + [c[1]] + [c[2]] + [c[3]] + [c[4]] + [c[5]] + [c[6]];
  }

  lemma StartLength()
    ensures |Expected(START)| == 9
  {
    hide Expected, Splice;
    var c := START;
    ExpectedNone();
    LongerBy([], c[0]);
    LongerBy([] + [c[0]], c[1]);
    LongerBy([] + [c[0]] + [c[1]], c[2]);
    LongerBy([] + [c[0]] + [c[1]] + [c[2]], c[3]);
    LongerBy([] + [c[0]] + [c[1]] + [c[2]] + [c[3]], c[4]);
    LongerBy([] + [c[0]] + [c[1]] + [c[2]] + [c[3]] + [c[4]], c[5]);
    LongerBy([] + [c[0]] + [c[1]] + [c[2]] + [c[3]] + [c[4]] + [c[5]], c[6]);
    assert c == [] + [c[0]] + [c[1]] + [c[2]] + [c[3]] + [c[4]] + [c[5]] + [c[6]];
  }

  lemma LongerBy(calls: seq<Call>, call: Call)
    requires call.Write? ==> call.data != []
    ensures |Expected(calls + [call])| == if call.Write? then Max(|Expected(calls)|, call.offset + |call.data|) else |Expected(calls)|
  {
    ExpectedOn(calls, call);
  }

  lemma ExpectedNone()
    ensures Expected([]) == []
  {
  }

  /** A flush that fails may leave a blob that is neither the old file nor the new:
      ten bytes where nine were written. */
  lemma LateContent() returns (t: State)
    ensures Runs(Created(), t, START + [Flush(false)], ROOM)
    ensures |Content(t.store)| == 10 && |Expected(START + [Flush(false)])| == 9
  {
    hide Runs, Expected, Failed, Late7, Flushes, START;
    t := Failed();
    FailedEntries();
    StartRuns();
    LateFlush();
    RunsOn(Created(), Late7(), t, START, Flush(false), ROOM);
    StartLength();
    LongerBy(START, Flush(false));
    TakenContent();
  }
}
