/** A run from a created file in which a flush succeeds and leaves a wrong blob: a
    late upload shifts the list, so that another outgrown block behind it, which is
    no longer cached, is read back from the wrong place. */
module ShiftRun {
  import opened Bytes
  import opened Storage
  import opened Lists
  import opened WriteState
  import opened WriteSteps
  import opened WriteEdit
  import opened WriteCommit
  import opened WriteFetch
  import opened WriteProgram
  import opened RunSteps
  import opened LateRun

  // ---------- A flush that fails ----------

  /** Everything is staged, and sending the list fails: block 4 is recorded with the
      one byte it has. */
  function Shift0(): State {
    Filled().s
  }

  lemma FailedFlush()
    ensures Flushes(Late7(), Shift0(), false, ROOM)
  {
    hide Passes, Drafts, Late7, Waited, Filled;
    LatePasses();
    LateDrafts();
    FilledIds();
    assert Commits(Late7(), Shift0(), false, ROOM, 1);
  }

  // ---------- Blocks 0, 1 and 2 are written once more ----------

  function Shift1(): State {
    Facts0();
    Rewritten(Shift0(), 1, [1, 1])
  }

  function Shift2(): State {
    Facts1();
    Rewritten(Shift1(), 2, [1, 1])
  }

  function Shift3(): State {
    Facts2();
    Rewritten(Shift2(), 3, [1, 1])
  }

  /** The blocks that these states share. */
  ghost predicate Common(s: State) {
    && s.bs == 2 && !s.recorded && s.length == 9 && s.size == 9 && s.handleDirty && s.uploads == map[]
    && s.values == map[3 := 0, 0 := 1, 1 := 2, 2 := 3, 4 := 4]
    && s.store == Shift0().store && s.blockList == Shift0().blockList
    && s.mem.Keys == {0, 1, 2, 3, 4} && s.mem[0] == Clean(3, [9, 0]) && s.mem[4] == Clean(4, [1, 0])
  }

  lemma Facts0()
    ensures var s := Shift0();
            && Common(s) && s.cooked == [0, 1, 2, 3, 4] && s.cooking == []
            && s.mem[1] == Clean(0, [1, 1]) && s.mem[2] == Clean(1, [1, 1]) && s.mem[3] == Clean(2, [1, 1])
  {
  }

  lemma Facts1()
    ensures var s := Shift1();
            && Common(s) && s.cooked == [0, 2, 3, 4] && s.cooking == [1]
            && s.mem[1] == Modified(0, [1, 1]) && s.mem[2] == Clean(1, [1, 1]) && s.mem[3] == Clean(2, [1, 1])
  {
    Facts0();
    hide Shift0, Remove;
    MovedOut([0], 1, [2, 3, 4], []);
    assert [0] + [1] + [2, 3, 4] == [0, 1, 2, 3, 4];
  }

  lemma Facts2()
    ensures var s := Shift2();
            && Common(s) && s.cooked == [0, 3, 4] && s.cooking == [1, 2]
            && s.mem[1] == Modified(0, [1, 1]) && s.mem[2] == Modified(1, [1, 1]) && s.mem[3] == Clean(2, [1, 1])
  {
    Facts1();
    hide Shift0, Shift1, Remove;
    MovedOut([0], 2, [3, 4], [1]);
    assert [0] + [2] + [3, 4] == [0, 2, 3, 4];
  }

  lemma Facts3()
    ensures var s := Shift3();
            && Common(s) && s.cooked == [0, 4] && s.cooking == [1, 2, 3]
            && s.mem[1] == Modified(0, [1, 1]) && s.mem[2] == Modified(1, [1, 1]) && s.mem[3] == Modified(2, [1, 1])
  {
    Facts2();
    hide Shift0, Shift2, Remove;
    MovedOut([0], 3, [4], [1, 2]);
    assert [0] + [3] + [4] == [0, 3, 4];
  }

  lemma {:induction false} MovedOut(a: seq<Ptr>, p: Ptr, b: seq<Ptr>, c: seq<Ptr>)
    requires p !in a && p !in b && p !in c
    ensures Remove(a + [p] + b, p) == a + b && Remove(c, p) == c
    decreases |a|
  {
    RemoveProps(b, p);
    RemoveProps(c, p);
    hide Remove;
    if a == [] {
      FrontOut(p, b);
      assert a + [p] + b == [p] + b && a + b == b;
    } else {
      MovedOut(a[1..], p, b, c);
      NextOut(a[0], a[1..] + [p] + b, p);
      assert a + [p] + b == [a[0]] + (a[1..] + [p] + b);
      assert a + b == [a[0]] + (a[1..] + b);
    }
  }

  lemma FrontOut(p: Ptr, b: seq<Ptr>)
    ensures Remove([p] + b, p) == Remove(b, p)
  {
    assert ([p] + b)[1..] == b;
  }

  lemma NextOut(x: Ptr, l: seq<Ptr>, p: Ptr)
    requires x != p
    ensures Remove([x] + l, p) == [x] + Remove(l, p)
  {
    assert ([x] + l)[1..] == l;
  }

  lemma Rewrites()
    ensures Writes(Shift0(), Shift1(), 0, [1, 1], ROOM)
    ensures Writes(Shift1(), Shift2(), 2, [1, 1], ROOM)
    ensures Writes(Shift2(), Shift3(), 4, [1, 1], ROOM)
  {
    Facts0();
    Facts1();
    Facts2();
    hide Shift0, Writes, Rewritten;
    WritesAgain(Shift0(), 0, 1, [1, 1], ROOM);
    WritesAgain(Shift1(), 1, 2, [1, 1], ROOM);
    WritesAgain(Shift2(), 2, 3, [1, 1], ROOM);
  }

  // ---------- Two more blocks ----------

  /** Byte 10: there are five buffers, so that of block 3 is given back; block 0 is
      scheduled. */
  function Shift4(): State {
    hide Shift3;
    Facts3();
    Put(Lined(Forget(Shift3(), 0), 1, [2, 3], 2), 5, 5, [1, 0], 11)
  }

  /** Byte 12: that of block 4 is given back; block 1 is scheduled. */
  function Shift5(): State {
    hide Shift4;
    Facts4();
    Put(Lined(Forget(Shift4(), 4), 2, [3, 5], 2), 6, 6, [1, 0], 13)
  }

  lemma Facts4()
    ensures var s := Shift4();
            && s.bs == 2 && !s.recorded && s.length == 11 && s.size == 11 && s.handleDirty && s.uploads == map[1 := 6]
            && s.cooked == [4, 1] && s.cooking == [2, 3, 5] && s.mem.Keys == {1, 2, 3, 4, 5}
            && s.mem[1] == Pending(0, [1, 1]) && s.mem[2] == Modified(1, [1, 1]) && s.mem[3] == Modified(2, [1, 1])
            && s.mem[4] == Clean(4, [1, 0]) && s.mem[5] == Modified(5, [1, 0])
            && s.values.Keys == {0, 1, 2, 4, 5} && s.store == Shift0().store.(nextId := 7)
            && s.blockList == Shift0().blockList[0 := BlockInfo(6, false, 2)]
  {
    Facts3();
    StoreFacts();
    hide Shift0, Shift3, Remove;
    MovedOut([], 0, [4], [1, 2, 3]);
    assert [] + [0] + [4] == [0, 4] && [] + [4] == [4];
    assert [4] + [1] == [4, 1] && [2, 3] + [5] == [2, 3, 5];
  }

  lemma StoreFacts()
    ensures var s := Shift0();
            && s.store == Store([], [], map[0 := [9, 0], 1 := [1, 1], 2 := [1, 1], 3 := [1, 1], 4 := [1], 5 := [0]], 6)
            && s.blockList.Keys == {0, 1, 2, 3, 4}
            && s.blockList[3] == BlockInfo(0, false, 1) && s.blockList[4] == BlockInfo(4, false, 1)
  {
  }

  lemma Facts5()
    ensures var s := Shift5();
            && s.bs == 2 && !s.recorded && s.length == 13 && s.size == 13 && s.handleDirty && s.uploads == map[1 := 6, 2 := 7]
            && s.cooked == [1, 2] && s.cooking == [3, 5, 6] && s.mem.Keys == {1, 2, 3, 5, 6}
            && s.mem[1] == Pending(0, [1, 1]) && s.mem[2] == Pending(1, [1, 1]) && s.mem[3] == Modified(2, [1, 1])
            && s.mem[5] == Modified(5, [1, 0]) && s.mem[6] == Modified(6, [1, 0])
            && s.values.Keys == {0, 1, 2, 5, 6} && s.store == Shift0().store.(nextId := 8)
            && s.blockList == Shift0().blockList[0 := BlockInfo(6, false, 2)][1 := BlockInfo(7, false, 2)]
  {
    Facts4();
    StoreFacts();
    hide Shift0, Shift4, Remove;
    MovedOut([], 4, [1], [2, 3, 5]);
    assert [] + [4] + [1] == [4, 1] && [] + [1] == [1];
    assert [1] + [2] == [1, 2] && [3, 5] + [6] == [3, 5, 6];
  }

  lemma Room4()
    ensures var s := Shift3(); 0 in s.mem && MakesRoom(s, Forget(s, 0), ROOM) && 5 !in s.values && !s.recorded
    ensures var u := Forget(Shift3(), 0);
            && u.bs == 2 && u.size == 9 && u.length == 9 && u.cooked == [4] && u.cooking == [1, 2, 3]
            && u.mem.Keys == {1, 2, 3, 4} && u.mem[1] == Modified(0, [1, 1]) && 5 !in u.blockList && Shift3().bs == 2
  {
    Facts3();
    StoreFacts();
    hide Shift0, Shift3;
    MovedOut([], 0, [4], [1, 2, 3]);
    hide Remove;
    assert [] + [0] + [4] == [0, 4] && [] + [4] == [4];
  }

  lemma Grows()
    ensures Writes(Shift3(), Shift4(), 10, [1], ROOM)
  {
    Room4();
    hide Shift3, Writes, MakesRoom, Forget, Lined;
    assert Zeros(2) == [0, 0];
    OverwriteTwo(0, 0, 1);
    assert [1, 2, 3] == [1] + [2, 3];
    WritesScheduling(Shift3(), Forget(Shift3(), 0), 1, [2, 3], 2, 5, 5, [1], ROOM);
  }

  lemma Room5()
    ensures var s := Shift4(); 4 in s.mem && MakesRoom(s, Forget(s, 4), ROOM) && 6 !in s.values && !s.recorded
    ensures var u := Forget(Shift4(), 4);
            && u.bs == 2 && u.size == 11 && u.length == 11 && u.cooked == [1] && u.cooking == [2, 3, 5]
            && u.mem.Keys == {1, 2, 3, 5} && u.mem[2] == Modified(1, [1, 1]) && 6 !in u.blockList && Shift4().bs == 2
  {
    Facts4();
    StoreFacts();
    hide Shift0, Shift4;
    MovedOut([], 4, [1], [2, 3, 5]);
    hide Remove;
    assert [] + [4] + [1] == [4, 1] && [] + [1] == [1];
  }

  lemma GrowsAgain()
    ensures Writes(Shift4(), Shift5(), 12, [1], ROOM)
  {
    Room5();
    hide Shift4, Writes, MakesRoom, Forget, Lined;
    assert Zeros(2) == [0, 0];
    OverwriteTwo(0, 0, 1);
    assert [2, 3, 5] == [2] + [3, 5];
    WritesScheduling(Shift4(), Forget(Shift4(), 4), 2, [3, 5], 2, 6, 6, [1], ROOM);
  }

  /** Both uploads end. */
  function Shift6(): State {
    var s := Shift5();
    s.(store := Stage(s.store, 6, [1, 1]), mem := s.mem[1 := Done(0, [1, 1])], uploads := map[2 := 7])
  }

  function Shift7(): State {
    var s := Shift6();
    s.(store := Stage(s.store, 7, [1, 1]), mem := s.mem[2 := Done(1, [1, 1])], uploads := map[])
  }

  lemma Ending()
    ensures Works(Shift5(), Shift6()) && Works(Shift6(), Shift7())
  {
    Facts5();
    hide Shift0, Shift5, Works;
    assert [1, 1][..2] == [1, 1];
    assert Shift5().uploads - {1} == map[2 := 7] && Shift6().uploads - {2} == map[];
    EndsIs(Shift5(), 1, 2, Shift6());
    EndsIs(Shift6(), 2, 2, Shift7());
  }

  lemma Facts7()
    ensures var s := Shift7();
            && s.bs == 2 && !s.recorded && s.length == 13 && s.size == 13 && s.handleDirty && s.uploads == map[]
            && s.cooked == [1, 2] && s.cooking == [3, 5, 6] && s.mem.Keys == {1, 2, 3, 5, 6}
            && s.mem[1] == Done(0, [1, 1]) && s.mem[2] == Done(1, [1, 1]) && s.mem[3] == Modified(2, [1, 1])
            && s.mem[5] == Modified(5, [1, 0]) && s.mem[6] == Modified(6, [1, 0])
            && s.values.Keys == {0, 1, 2, 5, 6} && s.store == Stage(Stage(Shift0().store.(nextId := 8), 6, [1, 1]), 7, [1, 1])
            && s.blockList == Shift0().blockList[0 := BlockInfo(6, false, 2)][1 := BlockInfo(7, false, 2)]
  {
    Facts5();
    hide Shift0, Shift5;
  }

  // ---------- The flush ----------

  function Pass1(): State {
    Facts7();
    Staged(Shift7(), 3, [5, 6], 2)
  }

  function Pass2(): State {
    Facts7();
    Staged(Pass1(), 5, [6], 2)
  }

  function Pass3(): State {
    Facts7();
    Staged(Pass2(), 6, [], 1)
  }

  function Passed(): State {
    Awaited(Pass3())
  }

  lemma Staging3()
    ensures Passes(Shift7(), Passed())
  {
    Facts7();
    hide Shift0, Shift7, StagesFirst, Passes, Awaited;
    StagesFront(Shift7(), 3, [5, 6], 2);
    StagesFront(Pass1(), 5, [6], 2);
    StagesFront(Pass2(), 6, [], 1);
    PassThree(Shift7(), Pass1(), Pass2(), Pass3(), Passed());
  }

  lemma FactsPass3()
    ensures var s := Pass3();
            && s.bs == 2 && !s.recorded && s.length == 13 && s.size == 13 && s.handleDirty && s.uploads == map[]
            && s.cooked == [1, 2, 3, 5, 6] && s.cooking == [] && s.mem.Keys == {1, 2, 3, 5, 6} && s.values.Keys == {0, 1, 2, 5, 6}
            && s.mem[1] == Done(0, [1, 1]) && s.mem[2] == Done(1, [1, 1])
            && s.blockList == Shift7().blockList[2 := BlockInfo(8, false, 2)][5 := BlockInfo(9, false, 2)][6 := BlockInfo(10, false, 1)]
            && s.store.nextId == 11 && s.store.committed == [] && s.store.flat == []
            && s.store.staged == Shift7().store.staged[8 := [1, 1]][9 := [1, 0]][10 := [1]]
  {
    Facts7();
    NextId();
    hide Shift0, Shift7;
    assert [1, 1][..2] == [1, 1] && [1, 0][..2] == [1, 0] && [1, 0][..1] == [1];
    assert [1, 2] + [3] + [5] + [6] == [1, 2, 3, 5, 6];
  }

  lemma NextId()
    ensures Shift7().store.nextId == 8 && Shift7().store.committed == [] && Shift7().store.flat == []
  {
    Facts7();
    StoreFacts();
    hide Shift7, Shift0;
  }

  lemma Listed(m: map<nat, BlockInfo>)
    requires m == Shift7().blockList[2 := BlockInfo(8, false, 2)][5 := BlockInfo(9, false, 2)][6 := BlockInfo(10, false, 1)]
    ensures m.Keys == {0, 1, 2, 3, 4, 5, 6}
    ensures && m[0] == BlockInfo(6, false, 2) && m[1] == BlockInfo(7, false, 2) && m[2] == BlockInfo(8, false, 2)
            && m[3] == BlockInfo(0, false, 1) && m[4] == BlockInfo(4, false, 1) && m[5] == BlockInfo(9, false, 2) && m[6] == BlockInfo(10, false, 1)
  {
    Facts7();
    StoreFacts();
    hide Shift7, Shift0;
  }

  lemma StagedFacts(m: map<Id, bytes>)
    requires m == Shift7().store.staged[8 := [1, 1]][9 := [1, 0]][10 := [1]]
    ensures {0, 4, 6, 7, 8, 9, 10} <= m.Keys && 11 !in m && 12 !in m
    ensures m[0] == [9, 0] && m[4] == [1] && m[6] == [1, 1] && m[7] == [1, 1] && m[8] == [1, 1] && m[9] == [1, 0] && m[10] == [1]
  {
    Facts7();
    StoreFacts();
    hide Shift7, Shift0;
  }

  lemma FactsPassed()
    ensures var s := Passed();
            && s.bs == 2 && !s.recorded && s.length == 13 && s.size == 13 && s.handleDirty && s.uploads == map[]
            && s.cooked == [1, 2, 3, 5, 6] && s.cooking == [] && s.mem.Keys == {1, 2, 3, 5, 6} && s.values.Keys == {0, 1, 2, 5, 6}
            && !s.mem[1].failed && !s.mem[2].failed && s.mem[1].id == 0 && s.mem[2].id == 1
            && s.blockList == Pass3().blockList && s.store == Pass3().store
  {
    FactsPass3();
    hide Pass3, Awaited;
    AwaitedKeeps(Pass3());
    AwaitedAt(Pass3(), 1);
    AwaitedAt(Pass3(), 2);
  }

  function Filling(): State {
    Staging(Staging(Passed(), [0]), [0])
  }

  /** What the list is built from. */
  ghost predicate Entries(s: State, next: Id) {
    && s.bs == 2 && s.store.nextId == next && s.blockList.Keys == {0, 1, 2, 3, 4, 5, 6}
    && s.blockList[0] == BlockInfo(6, false, 2) && s.blockList[1] == BlockInfo(7, false, 2) && s.blockList[2] == BlockInfo(8, false, 2)
    && s.blockList[3] == BlockInfo(0, false, 1) && s.blockList[4] == BlockInfo(4, false, 1) && s.blockList[5] == BlockInfo(9, false, 2)
    && s.blockList[6] == BlockInfo(10, false, 1)
  }

  lemma PassedEntries()
    ensures Entries(Passed(), 11) && Entries(Staging(Passed(), [0]), 12) && Entries(Filling(), 13)
  {
    FactsPassed();
    FactsPass3();
    hide Passed, Pass3, Shift7;
    Listed(Pass3().blockList);
  }

  lemma Drafting3(s: State)
    requires Entries(s, 11)
    ensures Drafted(s, 3, 7) == Draft(s, [6, 7, 8], [], [])
  {
    hide Drafted;
    DraftNone(s, 7);
    DraftPlain(s, 0, 7, s, [], [], 6);
    DraftPlain(s, 1, 7, s, [] + [6], [], 7);
    DraftPlain(s, 2, 7, s, [] + [6] + [7], [], 8);
    assert [] + [6] + [7] + [8] == [6, 7, 8];
  }

  lemma Drafting5(s: State, t: State, u: State)
    requires Entries(s, 11) && t == Staging(s, [0]) && Entries(t, 12) && u == Staging(t, [0])
    ensures Drafted(s, 5, 7) == Draft(u, [6, 7, 8, 0, 11, 4, 12], [0, 4], [])
  {
    hide Drafted, Staging;
    Drafting3(s);
    DraftFilled(s, 3, 7, s, [6, 7, 8], [], 0);
    DraftFilled(s, 4, 7, t, [6, 7, 8] + [0, 11], [] + [0], 4);
    assert [6, 7, 8] + [0, 11] + [4, 12] == [6, 7, 8, 0, 11, 4, 12] && [] + [0] + [4] == [0, 4];
  }

  lemma Drafting()
    ensures Drafts(Passed(), 7, Draft(Filling(), [6, 7, 8, 0, 11, 4, 12, 9, 10], [0, 4], []))
  {
    PassedEntries();
    hide Drafted, Staging, Passed;
    var s, u := Passed(), Filling();
    Drafting5(s, Staging(s, [0]), u);
    DraftPlain(s, 5, 7, u, [6, 7, 8, 0, 11, 4, 12], [0, 4], 9);
    DraftPlain(s, 6, 7, u, [6, 7, 8, 0, 11, 4, 12] + [9], [0, 4], 10);
    assert [6, 7, 8, 0, 11, 4, 12] + [9] + [10] == [6, 7, 8, 0, 11, 4, 12, 9, 10];
  }

  // ---------- The first commit ----------

  const FRONT: seq<Stored> := [Stored(6, [1, 1]), Stored(7, [1, 1]), Stored(8, [1, 1])]
  const SHORT: seq<Stored> := [Stored(0, [9, 0]), Stored(11, [0]), Stored(4, [1]), Stored(12, [0])]
  const BACK: seq<Stored> := [Stored(9, [1, 0]), Stored(10, [1])]

  function FirstList(): seq<Stored> {
    FRONT + SHORT + BACK
  }

  lemma FillingStore()
    ensures var st := Filling().store;
            && st.nextId == 13 && st.committed == [] && st.flat == []
            && st.staged == Pass3().store.staged[11 := [0]][12 := [0]]
  {
    FactsPassed();
    FactsPass3();
    hide Passed, Pass3, Shift7;
  }

  lemma FillingStaged()
    ensures var m := Filling().store.staged;
            && {0, 4, 6, 7, 8, 9, 10, 11, 12} <= m.Keys && m[0] == [9, 0] && m[4] == [1] && m[6] == [1, 1] && m[7] == [1, 1] && m[8] == [1, 1]
            && m[9] == [1, 0] && m[10] == [1] && m[11] == [0] && m[12] == [0]
  {
    FillingStore();
    FactsPass3();
    hide Filling, Pass3, Shift7;
    StagedFacts(Pass3().store.staged);
    TwoFillers(Pass3().store.staged, Filling().store.staged);
  }

  lemma TwoFillers(p: map<Id, bytes>, m: map<Id, bytes>)
    requires m == p[11 := [0]][12 := [0]]
    ensures forall k | k in p && k < 11 :: k in m && m[k] == p[k]
    ensures 11 in m && 12 in m && m[11] == [0] && m[12] == [0]
  {
  }

  lemma FirstKnown()
    ensures var st := Filling().store;
            && Known(st, [6, 7, 8, 0, 11, 4, 12, 9, 10])
            && Commit(st, [6, 7, 8, 0, 11, 4, 12, 9, 10]) == Store(FirstList(), [], map[], 13)
  {
    FillingStore();
    FillingStaged();
    var st := Filling().store;
    hide Filling, Known, Commit, FirstList, Pass3;
    assert StagedAs(st, [6, 7, 8], FRONT);
    assert StagedAs(st, [0, 11, 4, 12], SHORT);
    assert StagedAs(st, [9, 10], BACK);
    FirstIds();
    hide StagedAs, FRONT, SHORT, BACK;
    StagedJoin(st, [6, 7, 8], FRONT, [0, 11, 4, 12], SHORT);
    StagedJoin(st, [6, 7, 8] + [0, 11, 4, 12], FRONT + SHORT, [9, 10], BACK);
    CommitStaged(st, [6, 7, 8, 0, 11, 4, 12, 9, 10], FirstList());
  }

  lemma FirstIds()
    ensures [6, 7, 8, 0, 11, 4, 12, 9, 10] == [6, 7, 8] + [0, 11, 4, 12] + [9, 10]
    ensures FirstList() == FRONT + SHORT + BACK
  {
  }

  /** Block 4 begins with a 1, and at its place the blob has the zero of a filler. */
  lemma FirstContent()
    ensures Concat(FirstList()) == [1, 1, 1, 1, 1, 1] + [9, 0, 0, 1, 0] + [1, 0, 1]
  {
    ContentOf3(FRONT, [1, 1], [1, 1], [1, 1]);
    ContentOf3(SHORT[..3], [9, 0], [0], [1]);
    ConcatMore(SHORT, 4);
    assert SHORT[..4] == SHORT;
    ContentOf(BACK, [1, 0], [1]);
    ConcatJoin(FRONT, SHORT);
    ConcatJoin(FRONT + SHORT, BACK);
  }

  lemma ConcatMore(l: seq<Stored>, n: nat)
    requires 0 < n <= |l|
    ensures Concat(l[..n]) == Concat(l[..n - 1]) + l[n - 1].data
  {
    assert l[..n][..n - 1] == l[..n - 1];
  }

  function Sent(): State {
    FirstKnown();
    Committed(Filling(), [6, 7, 8, 0, 11, 4, 12, 9, 10])
  }

  /** Which blocks are cached, as far as restaging asks. */
  ghost predicate Known7(s: State) {
    && 3 !in s.values && 4 !in s.values && 7 !in s.mem && 8 !in s.mem
    && 2 in s.mem && !s.mem[2].failed && s.mem[2].id == 1
  }

  lemma FactsSent()
    ensures var s := Sent();
            && s.bs == 2 && !s.recorded && s.length == 13 && s.size == 13 && s.handleDirty && s.uploads == map[]
            && s.cooked == [1, 2, 3, 5, 6] && s.cooking == [] && Known7(s)
            && 1 in s.mem && !s.mem[1].failed && s.mem[1].id == 0
            && s.store == Store(FirstList(), [], map[], 13) && s.blockList.Keys == {0, 1, 2, 3, 4, 5, 6}
            && (forall k | k in s.blockList :: s.blockList[k] == Filling().blockList[k].(committed := true))
  {
    FirstKnown();
    PassedEntries();
    FillingShape();
    hide Passed, FirstList, Commit, Known, Filling, Committed;
    CommittedIs(Filling(), [6, 7, 8, 0, 11, 4, 12, 9, 10]);
  }

  lemma FillingShape()
    ensures Filling() == Passed().(store := Filling().store)
    ensures var s := Filling();
            && s.bs == 2 && !s.recorded && s.length == 13 && s.size == 13 && s.handleDirty && s.uploads == map[]
            && s.cooked == [1, 2, 3, 5, 6] && s.cooking == [] && Known7(s)
            && 1 in s.mem && !s.mem[1].failed && s.mem[1].id == 0
  {
    FactsPassed();
    hide Passed, Pass3;
  }

  // ---------- Restaging ----------

  /** Block 3 is read back from its place. */
  function Restaged1(): State {
    FactsSent();
    Restored(Sent(), 1, 3, 7, [9, 0])
  }

  /** Block 4 is read back from the filler's. */
  function Restaged2(): State {
    FactsRestaged1();
    Restored(Restaged1(), 2, 4, 8, [0, 1])
  }

  lemma FactsRestaged1()
    ensures var s := Restaged1();
            && s.bs == 2 && !s.recorded && s.length == 13 && s.size == 13 && s.handleDirty && s.uploads == map[]
            && s.cooked == [2, 3, 5, 6] && s.cooking == [7] && 4 !in s.values && 8 !in s.mem && 7 in s.mem && 2 in s.mem
            && s.mem[7] == Modified(3, [9, 0]) && !s.mem[2].failed && s.mem[2].id == 1
            && s.store == Store(FirstList(), [], map[], 13) && s.blockList == Sent().blockList
  {
    FactsSent();
    hide Sent, FirstList, Restored, Filling;
    assert [1] + [2, 3, 5, 6] == [1, 2, 3, 5, 6];
    RestoredIs(Sent(), 1, [2, 3, 5, 6], 3, 7, [9, 0]);
  }

  lemma FactsRestaged2()
    ensures var s := Restaged2();
            && s.bs == 2 && !s.recorded && s.length == 13 && s.size == 13 && s.handleDirty && s.uploads == map[]
            && s.cooked == [3, 5, 6] && s.cooking == [7, 8] && 7 in s.mem && 8 in s.mem
            && s.mem[7] == Modified(3, [9, 0]) && s.mem[8] == Modified(4, [0, 1])
            && s.store == Store(FirstList(), [], map[], 13) && s.blockList == Sent().blockList
  {
    FactsRestaged1();
    hide Sent, FirstList, Restaged1, Restored, Filling;
    assert [2] + [3, 5, 6] == [2, 3, 5, 6];
    RestoredIs(Restaged1(), 2, [3, 5, 6], 4, 8, [0, 1]);
  }

  lemma SentReads()
    ensures var c := Concat(FirstList());
            |c| == 14 && Fetch(c, 6, 2, Zeros(2)) == [9, 0] && Fetch(c, 8, 2, Zeros(2)) == [0, 1]
  {
    FirstContent();
    hide FirstList;
  }

  lemma Getting1()
    ensures 1 in Sent().mem && 7 in LinkNew(Forget(Sent(), 1), 3, 7, [9, 0]).mem
    ensures GetsPlain(Sent(), LinkNew(Forget(Sent(), 1), 3, 7, [9, 0]), 3, 7, ROOM)
  {
    FactsSent();
    PassedEntries();
    SentReads();
    hide Sent, FirstList, Filling, Passed, GetsPlain, LinkNew, Forget;
    assert [1] + [2, 3, 5, 6] == [1, 2, 3, 5, 6];
    GetsBack(Sent(), 1, [2, 3, 5, 6], 3, 7, [9, 0], ROOM);
  }

  lemma Getting2()
    ensures 2 in Restaged1().mem && 8 in LinkNew(Forget(Restaged1(), 2), 4, 8, [0, 1]).mem
    ensures GetsPlain(Restaged1(), LinkNew(Forget(Restaged1(), 2), 4, 8, [0, 1]), 4, 8, ROOM)
  {
    FactsSent();
    FactsRestaged1();
    PassedEntries();
    SentReads();
    hide Sent, FirstList, Filling, Passed, Restaged1, GetsPlain, LinkNew, Forget;
    assert [2] + [3, 5, 6] == [2, 3, 5, 6];
    GetsBack(Restaged1(), 2, [3, 5, 6], 4, 8, [0, 1], ROOM);
  }

  lemma Restaging2()
    ensures Restages(Sent(), Restaged2(), [6, 7, 8, 0, 11, 4, 12, 9, 10], [0, 4], ROOM)
  {
    Getting1();
    Getting2();
    RestoredOf();
    hide Sent, Restaged1, Restaged2, GetsPlain, LinkNew, Forget, MarkDirty, Restages;
    IdsCut();
    RestagesTwo(Sent(), LinkNew(Forget(Sent(), 1), 3, 7, [9, 0]), Restaged1(), LinkNew(Forget(Restaged1(), 2), 4, 8, [0, 1]),
      [6, 7, 8, 0, 11, 4, 12, 9, 10], [6, 7, 8, 0, 4, 12, 9, 10], 0, 4);
  }

  lemma RestagesTwo(s: State, u: State, r: State, v: State, ids: seq<Id>, cut: seq<Id>, a: Id, b: Id)
    requires GetsPlain(s, u, 3, 7, ROOM) && 7 in u.mem && 4 < |ids| && ids[3] == a && a !in ids[..3]
    requires r == MarkDirty(u, 7) && cut == ids[..4] + ids[5..]
    requires GetsPlain(r, v, 4, 8, ROOM) && 8 in v.mem && 5 < |cut| && cut[4] == b && b !in cut[..4]
    ensures Restages(s, MarkDirty(v, 8), ids, [a, b], ROOM)
  {
    hide GetsPlain, MarkDirty, Restages;
    RestagesOne(r, v, cut, 4, b, 8);
    RestagesThen(s, u, ids, 3, a, 7, MarkDirty(v, 8), [b]);
    assert [a] + [b] == [a, b];
  }

  lemma RestoredOf()
    ensures 1 in Sent().mem && 7 in LinkNew(Forget(Sent(), 1), 3, 7, [9, 0]).mem
    ensures MarkDirty(LinkNew(Forget(Sent(), 1), 3, 7, [9, 0]), 7) == Restaged1()
    ensures 2 in Restaged1().mem && 8 in LinkNew(Forget(Restaged1(), 2), 4, 8, [0, 1]).mem
    ensures MarkDirty(LinkNew(Forget(Restaged1(), 2), 4, 8, [0, 1]), 8) == Restaged2()
  {
    FactsSent();
    FactsRestaged1();
    hide Sent, Filling, FirstList;
  }

  lemma IdsCut()
    ensures var ids := [6, 7, 8, 0, 11, 4, 12, 9, 10];
            ids[..4] + ids[5..] == [6, 7, 8, 0, 4, 12, 9, 10] && ids[3] == 0 && 0 !in ids[..3] && |ids| == 9
    ensures var ids := [6, 7, 8, 0, 4, 12, 9, 10]; ids[4] == 4 && 4 !in ids[..4] && |ids| == 8
  {
  }

  lemma RestagesOne(s: State, u: State, ids: seq<Id>, i: nat, id: Id, p: Ptr)
    requires GetsPlain(s, u, i, p, ROOM) && p in u.mem && i < |ids| - 1 && ids[i] == id && id !in ids[..i]
    ensures Restages(s, MarkDirty(u, p), ids, [id], ROOM)
  {
    hide GetsPlain, MarkDirty;
    var t := MarkDirty(u, p);
    assert Restages(t, t, ids[..i + 1] + ids[i + 2..], [id][1..], ROOM);
  }

  lemma RestagesThen(s: State, u: State, ids: seq<Id>, i: nat, id: Id, p: Ptr, t: State, more: seq<Id>)
    requires GetsPlain(s, u, i, p, ROOM) && p in u.mem && i < |ids| - 1 && ids[i] == id && id !in ids[..i]
    requires Restages(MarkDirty(u, p), t, ids[..i + 1] + ids[i + 2..], more, ROOM)
    ensures Restages(s, t, ids, [id] + more, ROOM)
  {
    hide GetsPlain, MarkDirty;
    assert ([id] + more)[1..] == more;
  }

  // ---------- The second commit ----------

  function Again1(): State {
    hide Restaged2;
    FactsRestaged2();
    Staged(Restaged2(), 7, [8], 2)
  }

  lemma FactsAgain1()
    ensures 8 in Again1().mem && |Again1().mem[8].data| == 2
  {
    FactsRestaged2();
    hide Restaged2, Sent, FirstList, Filling, Stage;
  }

  function Again2(): State {
    hide Again1;
    FactsAgain1();
    Staged(Again1(), 8, [], 2)
  }

  lemma PassingAgain()
    ensures Passes(Restaged2(), Awaited(Again2()))
  {
    FactsRestaged2();
    hide Restaged2, Sent, FirstList, StagesFirst, Passes, Awaited;
    StagesFront(Restaged2(), 7, [8], 2);
    StagesFront(Again1(), 8, [], 2);
    PassTwo(Restaged2(), Again1(), Again2(), Awaited(Again2()));
  }

  lemma FactsAgain()
    ensures var s := Awaited(Again2());
            && s.bs == 2 && s.handleDirty && s.store == Store(FirstList(), [], map[13 := [9, 0], 14 := [0, 1]], 15)
            && s.blockList == Sent().blockList[3 := BlockInfo(13, false, 2)][4 := BlockInfo(14, false, 2)]
  {
    FactsRestaged2();
    AwaitedKeeps(Again2());
    hide Restaged2, Sent, FirstList, Awaited;
    assert [9, 0][..2] == [9, 0] && [0, 1][..2] == [0, 1];
  }

  lemma ListedAgain()
    ensures var b := Awaited(Again2()).blockList;
            && b.Keys == {0, 1, 2, 3, 4, 5, 6} && b[0] == BlockInfo(6, true, 2) && b[1] == BlockInfo(7, true, 2) && b[2] == BlockInfo(8, true, 2)
            && b[3] == BlockInfo(13, false, 2) && b[4] == BlockInfo(14, false, 2) && b[5] == BlockInfo(9, true, 2) && b[6] == BlockInfo(10, true, 1)
  {
    FactsAgain();
    FactsSent();
    PassedEntries();
    hide Again2, Sent, FirstList, Awaited, Filling, Passed;
  }

  lemma DraftingAgain()
    ensures var t := Awaited(Again2()); Drafts(t, 7, Draft(t, [6, 7, 8, 13, 14, 9, 10], [], []))
  {
    FactsAgain();
    ListedAgain();
    hide Again2, Sent, FirstList, Awaited, Drafted;
    var t := Awaited(Again2());
    DraftNone(t, 7);
    DraftPlain(t, 0, 7, t, [], [], 6);
    DraftPlain(t, 1, 7, t, [] + [6], [], 7);
    DraftPlain(t, 2, 7, t, [] + [6] + [7], [], 8);
    DraftPlain(t, 3, 7, t, [] + [6] + [7] + [8], [], 13);
    DraftPlain(t, 4, 7, t, [] + [6] + [7] + [8] + [13], [], 14);
    DraftPlain(t, 5, 7, t, [] + [6] + [7] + [8] + [13] + [14], [], 9);
    DraftPlain(t, 6, 7, t, [] + [6] + [7] + [8] + [13] + [14] + [9], [], 10);
    assert [] + [6] + [7] + [8] + [13] + [14] + [9] + [10] == [6, 7, 8, 13, 14, 9, 10];
  }

  const MIDDLE: seq<Stored> := [Stored(13, [9, 0]), Stored(14, [0, 1])]

  lemma SecondKnown(st: Store)
    requires st == Store(FirstList(), [], map[13 := [9, 0], 14 := [0, 1]], 15)
    ensures Known(st, [6, 7, 8, 13, 14, 9, 10]) && Commit(st, [6, 7, 8, 13, 14, 9, 10]) == Store(FRONT + MIDDLE + BACK, [], map[], 15)
  {
    FrontFound(st);
    BackFound(st);
    hide FirstList;
    assert KnownAs(st, [13, 14], MIDDLE);
    hide FRONT, MIDDLE, BACK, KnownAs, Known, Commit;
    KnownJoin(st, [6, 7, 8], FRONT, [13, 14], MIDDLE);
    KnownJoin(st, [6, 7, 8] + [13, 14], FRONT + MIDDLE, [9, 10], BACK);
    assert [6, 7, 8] + [13, 14] + [9, 10] == [6, 7, 8, 13, 14, 9, 10];
    CommitKnown(st, [6, 7, 8, 13, 14, 9, 10], FRONT + MIDDLE + BACK);
  }

  lemma CommitKnown(st: Store, ids: seq<Id>, l: seq<Stored>)
    requires KnownAs(st, ids, l)
    ensures Known(st, ids) && Commit(st, ids) == Store(l, [], map[], st.nextId)
  {
    CommitIs(st, ids, l);
  }

  lemma FrontFound(st: Store)
    requires st == Store(FirstList(), [], map[13 := [9, 0], 14 := [0, 1]], 15)
    ensures KnownAs(st, [6, 7, 8], FRONT)
  {
    assert FRONT + SHORT + BACK == FRONT + (SHORT + BACK);
    FrontItems();
    FindFront(FRONT, SHORT + BACK, 6);
    FindFront(FRONT, SHORT + BACK, 7);
    FindFront(FRONT, SHORT + BACK, 8);
    hide FindBlock;
  }

  lemma FrontItems()
    ensures FindBlock(FRONT, 6) == Found([1, 1]) && FindBlock(FRONT, 7) == Found([1, 1]) && FindBlock(FRONT, 8) == Found([1, 1])
  {
    assert FindBlock(FRONT, 7) == FindBlock(FRONT[1..], 7);
    assert FindBlock(FRONT, 8) == FindBlock(FRONT[1..], 8) == FindBlock(FRONT[1..][1..], 8);
  }

  lemma BackFound(st: Store)
    requires st == Store(FirstList(), [], map[13 := [9, 0], 14 := [0, 1]], 15)
    ensures KnownAs(st, [9, 10], BACK)
  {
    FindSkip(FRONT + SHORT, BACK, 9);
    FindSkip(FRONT + SHORT, BACK, 10);
    FindSecondOf(BACK, 10);
    assert FindBlock(BACK, 9) == Found([1, 0]);
    hide FindBlock;
  }

  lemma FindSecondOf(l: seq<Stored>, id: Id)
    requires |l| == 2 && l[1].id == id != l[0].id
    ensures FindBlock(l, id) == Found(l[1].data)
  {
    assert FindBlock(l, id) == FindBlock(l[1..], id);
  }

  function Final(): State {
    FactsAgain();
    SecondKnown(Awaited(Again2()).store);
    Committed(Awaited(Again2()), [6, 7, 8, 13, 14, 9, 10]).(handleDirty := false)
  }

  lemma SecondCommit()
    ensures Commits(Restaged2(), Final(), true, ROOM, 0)
  {
    PassingAgain();
    DraftingAgain();
    FactsAgain();
    var t := Awaited(Again2());
    SecondKnown(t.store);
    hide Restaged2, Again2, Awaited, Sent, FirstList, Passes, Drafts, Known, Committed;
    assert Sends(Draft(t, [6, 7, 8, 13, 14, 9, 10], [], []), Final(), true, ROOM, 0);
  }

  lemma FinalStore()
    ensures Final().store == Store(FRONT + MIDDLE + BACK, [], map[], 15)
  {
    FactsAgain();
    hide Again2, Awaited, FirstList, Sent, FRONT, MIDDLE, BACK, Known, Commit;
    SecondKnown(Awaited(Again2()).store);
  }

  lemma FinalContent()
    ensures Content(Final().store) == [1, 1, 1, 1, 1, 1] + [9, 0, 0, 1] + [1, 0, 1]
  {
    FinalStore();
    hide Final;
    ContentOf3(FRONT, [1, 1], [1, 1], [1, 1]);
    ContentOf(MIDDLE, [9, 0], [0, 1]);
    ContentOf(BACK, [1, 0], [1]);
    ConcatJoin(FRONT, MIDDLE);
    ConcatJoin(FRONT + MIDDLE, BACK);
    assert |FRONT| == 3;
    hide FRONT, MIDDLE, BACK, Concat;
    assert [1, 1] + [1, 1] + [1, 1] == [1, 1, 1, 1, 1, 1] && [9, 0] + [0, 1] == [9, 0, 0, 1] && [1, 0] + [1] == [1, 0, 1];
  }

  lemma SentIs()
    ensures Known(Filling().store, [6, 7, 8, 0, 11, 4, 12, 9, 10])
    ensures Committed(Filling(), [6, 7, 8, 0, 11, 4, 12, 9, 10]) == Sent() && Shift7().handleDirty
  {
    FirstKnown();
    Facts7();
    hide Filling, Shift7, Known, Commit, FirstList;
  }

  lemma WholeFlush()
    ensures Flushes(Shift7(), Final(), true, ROOM)
  {
    Staging3();
    Drafting();
    SentIs();
    Restaging2();
    SecondCommit();
    hide Shift7, Passed, Filling, Sent, Restaged2, Final, Passes, Drafts, Known, Restages, Committed;
    FlushSends(Shift7(), Passed(), 7, Draft(Filling(), [6, 7, 8, 0, 11, 4, 12, 9, 10], [0, 4], []), Sent(), Restaged2(), Final());
  }

  lemma FlushSends(s: State, u: State, n: nat, d: Draft, c: State, v: State, t: State)
    requires s.handleDirty && Passes(s, u) && Drafts(u, n, d) && d.restage != []
    requires Known(d.s.store, d.ids) && c == Committed(d.s, d.ids) && Restages(c, v, d.ids, d.restage, ROOM) && Commits(v, t, true, ROOM, 0)
    ensures Flushes(s, t, true, ROOM)
  {
    hide Passes, Drafts, Known, Restages, Committed;
    assert Sends(d, t, true, ROOM, 1);
    assert Commits(s, t, true, ROOM, 1);
  }

  // ---------- The theorem ----------

  /** After byte 8: the flush that fails, the blocks written once more, bytes 10 and
      12, two uploads ending. */
  const MORE: seq<Call> :=
    [Flush(false), Write(0, [1, 1]), Write(2, [1, 1]), Write(4, [1, 1]), Write(10, [1]), Write(12, [1]), Idle, Idle]

  lemma MoreRuns()
    ensures Runs(Created(), Shift7(), START + MORE, ROOM)
  {
    StartRuns();
    FailedFlush();
    Rewrites();
    Grows();
    GrowsAgain();
    Ending();
    hide Writes, Flushes, Works, Runs, START, Late7, Shift0, Shift1, Shift2, Shift3, Shift4, Shift5, Shift6, Shift7;
    var s, b, c := Created(), START, MORE;
    RunsOn(s, Late7(), Shift0(), b, c[0], ROOM);
    RunsOn(s, Shift0(), Shift1(), b + [c[0]], c[1], ROOM);
    RunsOn(s, Shift1(), Shift2(), b + [c[0]] + [c[1]], c[2], ROOM);
    RunsOn(s, Shift2(), Shift3(), b + [c[0]] + [c[1]] + [c[2]], c[3], ROOM);
    RunsOn(s, Shift3(), Shift4(), b + [c[0]] + [c[1]] + [c[2]] + [c[3]], c[4], ROOM);
    RunsOn(s, Shift4(), Shift5(), b + [c[0]] + [c[1]] + [c[2]] + [c[3]] + [c[4]], c[5], ROOM);
    RunsOn(s, Shift5(), Shift6(), b + [c[0]] + [c[1]] + [c[2]] + [c[3]] + [c[4]] + [c[5]], c[6], ROOM);
    RunsOn(s, Shift6(), Shift7(), b + [c[0]] + [c[1]] + [c[2]] + [c[3]] + [c[4]] + [c[5]] + [c[6]], c[7], ROOM);
    assert b + c == b + [c[0]] + [c[1]] + [c[2]] + [c[3]] + [c[4]] + [c[5]] + [c[6]] + [c[7]];
  }

  /** Byte 8 was written as 1. */
  lemma ByteEight()
    ensures |Expected(START + MORE + [Flush(true)])| == 13 && Expected(START + MORE + [Flush(true)])[8] == 1
  {
    hide Expected, START;
    var b, c := START, MORE;
    StartLength();
    StartByte();
    KeepsByte(b, c[0]);
    KeepsByte(b + [c[0]], c[1]);
    KeepsByte(b + [c[0]] + [c[1]], c[2]);
    KeepsByte(b + [c[0]] + [c[1]] + [c[2]], c[3]);
    KeepsByte(b + [c[0]] + [c[1]] + [c[2]] + [c[3]], c[4]);
    KeepsByte(b + [c[0]] + [c[1]] + [c[2]] + [c[3]] + [c[4]], c[5]);
    KeepsByte(b + [c[0]] + [c[1]] + [c[2]] + [c[3]] + [c[4]] + [c[5]], c[6]);
    KeepsByte(b + [c[0]] + [c[1]] + [c[2]] + [c[3]] + [c[4]] + [c[5]] + [c[6]], c[7]);
    assert b + c == b + [c[0]] + [c[1]] + [c[2]] + [c[3]] + [c[4]] + [c[5]] + [c[6]] + [c[7]];
    KeepsByte(b + c, Flush(true));
  }

  lemma KeepsByte(calls: seq<Call>, call: Call)
    requires |Expected(calls)| > 8 && Expected(calls)[8] == 1
    requires call.Write? ==> call.data != [] && (call.offset + |call.data| <= 8 || call.offset > 8)
    ensures |Expected(calls + [call])| == if call.Write? then Max(|Expected(calls)|, call.offset + |call.data|) else |Expected(calls)|
    ensures |Expected(calls + [call])| > 8 && Expected(calls + [call])[8] == 1
  {
    ExpectedOn(calls, call);
  }

  lemma StartByte()
    ensures |Expected(START)| == 9 && Expected(START)[8] == 1
  {
    hide Expected;
    StartLength();
    var c := START;
    var before := c[..4];
    assert c == before + [c[4]] + [Idle] + [Idle];
    ExpectedOn(before, c[4]);
    ExpectedOn(before + [c[4]], Idle);
    ExpectedOn(before + [c[4]] + [Idle], Idle);
  }

  /** A flush that succeeds may leave a wrong blob: it has a 0 where a 1 was written. */
  lemma ShiftContent() returns (t: State)
    ensures Runs(Created(), t, START + MORE + [Flush(true)], ROOM)
    ensures Content(t.store) != Expected(START + MORE + [Flush(true)])
  {
    hide Runs, Expected, START, MORE, Flushes, Shift7, Final;
    t := Final();
    MoreRuns();
    WholeFlush();
    RunsOn(Created(), Shift7(), t, START + MORE, Flush(true), ROOM);
    ByteEight();
    FinalContent();
  }
}
