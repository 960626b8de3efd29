/** A run of a read-only handle that ends with a wrong answer: a download ahead of
    the reader fails, the reader turns out to be a random one, and the cleanup that
    follows hands out the failed block. Blocks are one byte long, the blob holds
    nothing but ones, and up to six buffers are prefetched. Buffer `p` is given to
    block `p` first. */
module ReadRuns {
  import opened Bytes
  import opened Lists
  import opened ReadState
  import opened ReadProgram
  import opened ReadHandle

  function Blob(): bytes { seq(40, i => 1) }

  /** The pointers from `a` up to `b`. */
  function From(a: nat, b: nat): (r: seq<Ptr>)
    requires a <= b
    ensures |r| == b - a && forall i | 0 <= i < |r| :: r[i] == a + i
    ensures NoDup(r) && forall p :: p in r <==> a <= p < b
  {
    var r := seq(b - a, i requires 0 <= i < b - a => a + i);
    InBetween(r, a, b); r
  }

  lemma InBetween(l: seq<Ptr>, a: nat, b: nat)
    requires a <= b && |l| == b - a && forall i | 0 <= i < |l| :: l[i] == a + i
    ensures forall p :: p in l <==> a <= p < b
  {
    forall p | a <= p < b ensures p in l {
      assert l[p - a] == p;
    }
  }

  predicate Within(a: int, p: int, b: int) {
    a <= p < b
  }

  function Range(a: nat, b: nat): (r: set<nat>)
    ensures forall p :: p in r <==> a <= p < b
  {
    set p: nat | a <= p < b && Within(a, p, b)
  }

  lemma FromFirst(a: nat, b: nat)
    requires a < b
    ensures From(a, b)[0] == a && From(a, b) == [a] + From(a + 1, b) && Remove(From(a, b), a) == From(a + 1, b)
  {
    RemoveAt(From(a, b), 0);
  }

  lemma FromNext(a: nat, b: nat)
    requires a <= b
    ensures From(a, b) + [b] == From(a, b + 1) && Remove(From(a, b), b) == From(a, b)
  {
    RemoveProps(From(a, b), b);
  }

  const PREFETCH: nat := 6

  // ---------- Blocks in the states of the run ----------

  function Free(): Block { Block(-1, 0, Empty, false, [0]) }

  function Ahead(k: nat): Block { Block(k, k, Empty, true, [0]) }

  /** Lined up in a buffer that held another block. */
  function Again(k: nat): Block { Block(k, k, Empty, true, [1]) }

  function Done(k: nat, ok: bool): Block { Block(k, k, Token(!ok), true, if ok then [1] else [0]) }

  function Shut(k: nat, ok: bool): Block { Block(k, k, Closed, false, if ok then [1] else [0]) }

  /** Block `k` is mapped to buffer `k` from `a` up to `b`. */
  function Straight(a: nat, b: nat): map<int, Ptr> {
    map l: int | l in Range(a, b) :: l as nat
  }

  /** What a download brings. */
  lemma FetchedOne(s: State, b: Block)
    requires s.content == Blob() && s.bs == 1 && b.offset < 40 && |b.data| == 1
    ensures Fetched(s, b) == [1]
  {
    OneByte(b.offset);
    assert b.data[1..] == [];
  }

  /** A download that ends, on one-byte blocks. */
  lemma FinishOne(s: State, p: Ptr, ok: bool)
    requires s.content == Blob() && s.bs == 1 && p in s.items && p in s.mem && s.mem[p].id < 40
    requires s.mem[p] == Block(s.mem[p].id, s.mem[p].offset, Empty, true, s.mem[p].data) && s.mem[p].id == s.mem[p].offset
    requires |s.mem[p].data| == 1
    ensures Works(s, p, ok, s.(mem := s.mem[p := Done(s.mem[p].offset, ok)], items := s.items - {p}, failed := s.failed || !ok))
  {
    FetchedOne(s, s.mem[p]);
    assert Zeros(1) == [0];
  }

  // ---------- The first read ----------

  /** The open handle, with the buffers from `a` up to 4 taken from the pool. */
  function Taken(a: nat): State
    requires a <= 5
  {
    State(Blob(), 1, From(a, 5), [], map[], map p | p in Range(a, 5) :: Free(), {}, false, {})
  }

  function Opened(): Reader {
    Reader(Taken(5), 0, 0)
  }

  lemma TakeNext(a: nat)
    requires 0 < a <= 5
    ensures a - 1 !in Taken(a).mem && Take(Taken(a), a - 1, Zeros(1)) == Taken(a - 1)
  {
    hide From;
    assert Zeros(1) == [0];
    FromFirst(a - 1, 5);
    FreeMore(a);
  }

  lemma FreeMore(a: nat)
    requires 0 < a <= 5
    ensures Taken(a).mem[a - 1 := Free()] == Taken(a - 1).mem && a - 1 !in Taken(a).mem
  {
    hide From;
  }

  lemma {:induction false} TakesAll(a: nat)
    requires a <= 5
    ensures Takes(Taken(a), Taken(0), a)
  {
    if a > 0 {
      TakeNext(a);
      TakesAll(a - 1);
    }
  }

  /** Blocks 0 to `n - 1` are lined up. */
  function Lined(n: nat): State
    requires n <= 5
  {
    Taken(0).(cooked := From(n, 5), cooking := From(0, n), values := Straight(0, n), mem := LinedBlocks(n), items := Range(0, n))
  }

  function LinedBlocks(n: nat): map<Ptr, Block> {
    map p | p in Range(0, 5) :: if p < n then Ahead(p) else Free()
  }

  lemma LinedNone()
    ensures Lined(0) == Taken(0)
  {
    assert From(0, 0) == [] && Straight(0, 0) == map[] && Range(0, 0) == {};
    assert LinedBlocks(0) == Taken(0).mem;
  }

  lemma LineUp(n: nat)
    requires n < 5
    ensures n in Lined(n).mem && Refresh(Lined(n), n, n) == Lined(n + 1)
  {
    hide Remove, From;
    FromFirst(n, 5);
    FromNext(0, n);
    LineUpMaps(n);
  }

  lemma LineUpMaps(n: nat)
    requires n < 5
    ensures n in LinedBlocks(n) && LinedBlocks(n)[n] == Free() && LinedBlocks(n)[n := Ahead(n)] == LinedBlocks(n + 1)
    ensures (Straight(0, n) - {-1})[n := n] == Straight(0, n + 1) && Range(0, n) + {n} == Range(0, n + 1)
  {
  }

  lemma RefreshFront(s: State, k: nat, ahead: bool, optCnt: nat, next: nat)
    requires s.cooked != [] && s.cooked[0] in s.mem
    ensures Refreshes(Reader(s, optCnt, next), Reader(Refresh(s, s.cooked[0], k), optCnt, k + 1), k, ahead)
  {
  }

  lemma {:induction false} LinesUpAll(n: nat, ahead: bool)
    requires n <= 5
    ensures LinesUp(Reader(Lined(n), 0, n), Reader(Lined(5), 0, 5), n, ahead, 5 - n)
    decreases 5 - n
  {
    hide Lined, Refreshes;
    if n < 5 {
      LineUp(n);
      LinedFacts(n);
      RefreshFront(Lined(n), n, ahead, 0, n);
      LinesUpAll(n + 1, true);
      assert Refreshes(Reader(Lined(n), 0, n), Reader(Lined(n + 1), 0, n + 1), n, ahead);
    }
  }

  lemma LinedFacts(n: nat)
    requires n < 5
    ensures var s := Lined(n);
            && s.cooked != [] && s.cooked[0] == n && n in s.mem && n !in s.values && s.bs == 1 && |s.content| == 40
  {
  }

  lemma FirstPrefetch()
    ensures Prefetches(Opened(), Reader(Lined(5), 0, 5), 0, false, PREFETCH)
  {
    hide Takes, LinesUp;
    TakesAll(5);
    LinedNone();
    LinesUpAll(0, false);
    assert Room(Taken(5), PREFETCH) == 5;
  }

  /** Block 0 has arrived. */
  function Arriving(): State {
    Lined(5).(mem := LinedBlocks(5)[0 := Done(0, true)], items := Range(1, 5))
  }

  lemma ArriveFirst()
    ensures 0 in Lined(5).values && Lined(5).values[0] == 0 && Works(Lined(5), 0, true, Arriving())
  {
    hide Works;
    FinishOne(Lined(5), 0, true);
    assert Range(0, 5) - {0} == Range(1, 5);
  }

  /** Its reader has closed the channel, and taken a sixth buffer. */
  function Arrived(): State {
    Lined(5).(mem := LinedBlocks(5)[0 := Shut(0, true)], items := Range(1, 5))
  }

  function Sixth(): State {
    Arrived().(cooked := [5], mem := LinedBlocks(5)[0 := Shut(0, true)][5 := Free()])
  }

  function Sixed(): State {
    Arrived().(cooked := [], cooking := From(0, 6), values := Straight(0, 6), items := Range(1, 6),
               mem := LinedBlocks(5)[0 := Shut(0, true)][5 := Ahead(5)])
  }

  lemma ArrivedIs()
    ensures 0 in Arriving().mem && Arriving().mem[0].state == Token(false) && Unblock(Arriving(), 0) == Arrived()
  {
    assert Unblock(Arriving(), 0).mem == Arrived().mem;
  }

  lemma TakeSixth()
    ensures Takes(Arrived(), Sixth(), 1)
  {
    var s := Arrived();
    assert Zeros(1) == [0] && From(5, 5) == [] && [5] + [] == [5];
    assert 5 !in s.mem && Take(s, 5, Zeros(s.bs)) == Sixth();
    assert Takes(Sixth(), Sixth(), 0);
  }

  lemma LineUpSixth()
    ensures 5 in Sixth().mem && Refresh(Sixth(), 5, 5) == Sixed()
  {
    hide From;
    RemoveFive();
    SixthMaps();
    var s := Refresh(Sixth(), 5, 5);
    assert s.mem == Sixed().mem && s.values == Sixed().values && s.items == Sixed().items;
  }

  lemma SixthMaps()
    ensures (Straight(0, 5) - {-1})[5 := 5] == Straight(0, 6) && Range(1, 5) + {5} == Range(1, 6)
    ensures LinedBlocks(5)[0 := Shut(0, true)][5 := Free()][5 := Ahead(5)] == LinedBlocks(5)[0 := Shut(0, true)][5 := Ahead(5)]
  {
  }

  lemma RemoveFive()
    ensures Remove([5], 5) == [] && Remove(From(0, 5), 5) + [5] == From(0, 6)
  {
    RemoveAt([5], 0);
    assert [5][..0] + [5][1..] == [];
    FromNext(0, 5);
  }

  lemma SecondPrefetch()
    ensures Prefetches(Reader(Arrived(), 0, 5), Reader(Sixed(), 0, 6), 5, true, PREFETCH)
  {
    hide Takes, Refreshes, Refresh;
    TakeSixth();
    LineUpSixth();
    var s := Sixth();
    RefreshFront(s, 5, true, 0, 5);
    assert Refreshes(Reader(s, 0, 5), Reader(Sixed(), 0, 6), 5, true);
    assert LinesUp(Reader(s, 0, 5), Reader(Sixed(), 0, 6), 5, true, 1);
    assert Room(Arrived(), PREFETCH) == 1;
  }

  /** Block 0 is in Cooked; of the other downloads those up to block `n` have ended.
      That of block 3 has failed. */
  function Ended(n: nat): State
    requires n <= 5
  {
    State(Blob(), 1, [0], From(1, 6), Straight(0, 6), EndedBlocks(n), Range(n + 1, 6), n >= 3, {})
  }

  function EndedBlocks(n: nat): map<Ptr, Block> {
    map p | p in Range(0, 6) :: if p == 0 then Shut(0, true) else if p <= n then Done(p, p != 3) else Ahead(p)
  }

  lemma OpenFirst()
    ensures ToCooked(Sixed(), 0) == Ended(0)
  {
    hide Remove, From, EndedBlocks;
    FromFirst(0, 6);
    assert Remove([], 0) + [0] == [0] by { RemoveProps([], 0); }
    SixedBlocks();
  }

  lemma SixedBlocks()
    ensures Sixed().mem == EndedBlocks(0)
  {
    hide From, Straight;
  }

  lemma FirstRead()
    ensures ReadsNew(Opened(), Reader(Ended(0), 0, 6), 0, PREFETCH)
  {
    hide Prefetches, Works, Unblock, ToCooked;
    FirstPrefetch();
    ArriveFirst();
    ArrivedIs();
    SecondPrefetch();
    OpenFirst();
    ArrivingFacts();
    assert Opens(Reader(Arriving(), 0, 5), Reader(Ended(0), 0, 6), 0, PREFETCH);
  }

  lemma ArrivingFacts()
    ensures var s := Arriving(); 0 in s.values && s.values[0] == 0 && s.bs == 1 && |s.content| == 40
  {
  }

  lemma EndNext(n: nat)
    requires n < 5
    ensures Works(Ended(n), n + 1, n + 1 != 3, Ended(n + 1))
  {
    hide Works;
    FinishOne(Ended(n), n + 1, n + 1 != 3);
    assert EndedBlocks(n)[n + 1 := Done(n + 1, n + 1 != 3)] == EndedBlocks(n + 1);
    assert Range(n + 1, 6) - {n + 1} == Range(n + 2, 6);
  }

  // ---------- Random reads ----------

  /** The handle with block `k` in the only free buffer. */
  function Waiting(k: nat): State {
    State(Blob(), 1, [0], From(1, 6), Straight(1, 6)[k := 0], WaitingBlocks(k), {}, true, {})
  }

  function WaitingBlocks(k: nat): map<Ptr, Block> {
    map p | p in Range(0, 6) :: if p == 0 then Shut(k, true) else Done(p, p != 3)
  }

  lemma AllEnded()
    ensures Ended(5) == Waiting(0)
  {
    assert EndedBlocks(5) == WaitingBlocks(0) && Straight(0, 6) == Straight(1, 6)[0 := 0];
  }

  /** Block `k` in the free buffer: lined up, arrived, open. */
  function Loading(k: nat, b: Block): State {
    State(Blob(), 1, [], From(1, 6) + [0], Straight(1, 6)[k := 0], WaitingBlocks(0)[0 := b],
          if b.state.Empty? then {0} else {}, true, {})
  }

  lemma LoadStart(j: nat, k: nat)
    requires !(1 <= j < 6) && !(1 <= k < 6) && j != k
    ensures 0 in Waiting(j).mem && Refresh(Waiting(j), 0, k) == Loading(k, Again(k))
  {
    hide From;
    RandomPlaces();
    hide Remove;
    var s := Refresh(Waiting(j), 0, k);
    assert s.mem == Loading(k, Again(k)).mem;
    assert s.values == Straight(1, 6)[k := 0];
    assert s.items == {0};
  }

  lemma LoadEnd(k: nat)
    requires k < 40
    ensures Works(Loading(k, Again(k)), 0, true, Loading(k, Done(k, true)))
  {
    hide Works;
    FinishOne(Loading(k, Again(k)), 0, true);
    assert Loading(k, Again(k)).items - {0} == {};
    assert WaitingBlocks(0)[0 := Again(k)][0 := Done(k, true)] == WaitingBlocks(0)[0 := Done(k, true)];
  }

  lemma LoadOpen(k: nat)
    ensures 0 in Loading(k, Done(k, true)).mem && Unblock(Loading(k, Done(k, true)), 0) == Loading(k, Shut(k, true))
    ensures ToCooked(Loading(k, Shut(k, true)), 0) == Waiting(k)
  {
    hide From;
    RandomPlaces();
    hide Remove;
    assert Unblock(Loading(k, Done(k, true)), 0).mem == Loading(k, Shut(k, true)).mem;
    assert WaitingBlocks(0)[0 := Shut(k, true)] == WaitingBlocks(k);
  }

  lemma RandomPlaces()
    ensures Remove([0], 0) == [] && Remove([], 0) + [0] == [0]
    ensures Remove(From(1, 6), 0) + [0] == From(1, 6) + [0] && Remove(From(1, 6) + [0], 0) == From(1, 6)
  {
    RemoveAt([0], 0);
    assert [0][..0] + [0][1..] == [];
    RemoveProps(From(1, 6), 0);
    var l := From(1, 6) + [0];
    RemoveAt(l, 5);
    assert l[..5] + l[6..] == From(1, 6);
  }

  /** A read somewhere else takes over the free buffer. Nothing is left to prefetch
      into. */
  lemma RandomRead(j: nat, k: nat, optCnt: nat, next: nat)
    requires !(1 <= j < 6) && 20 <= k < 39 && j != k && optCnt < MIN_RANDREAD && next > 0
    ensures ReadsNew(Reader(Waiting(j), optCnt, next), Reader(Waiting(k), optCnt + 1, k + 1), k, PREFETCH)
  {
    hide Prefetches, Works, Unblock, ToCooked, Waiting, Loading;
    RandomPrefetch(j, k, optCnt, next);
    LoadEnd(k);
    LoadOpen(k);
    NothingFree(k, optCnt);
    LoadingFacts(j, k);
    var c := optCnt + 1;
    assert Opens(Reader(Loading(k, Done(k, true)), c, k + 1), Reader(Waiting(k), c, k + 1), k, PREFETCH);
  }

  lemma LoadingFacts(j: nat, k: nat)
    requires !(1 <= j < 6) && !(1 <= k < 6) && j != k
    ensures forall b: Block :: var s := Loading(k, b);
              k in s.values && s.values[k] == 0 && 0 in s.mem && s.mem[0] == b && s.bs == 1 && |s.content| == 40
    ensures var s := Waiting(j);
            s.bs == 1 && |s.content| == 40 && |s.cooked| == 1 && |s.cooking| == 5 && s.cooked[0] == 0 && 0 in s.mem && k !in s.values
  {
  }

  lemma RandomPrefetch(j: nat, k: nat, optCnt: nat, next: nat)
    requires !(1 <= j < 6) && 20 <= k < 39 && j != k && optCnt < MIN_RANDREAD && next > 0
    ensures Prefetches(Counted(Reader(Waiting(j), optCnt, next), PREFETCH), Reader(Loading(k, Again(k)), optCnt + 1, k + 1), k, false, PREFETCH)
  {
    hide Refreshes, Waiting, Loading, Refresh;
    LoadStart(j, k);
    LoadingFacts(j, k);
    var r, t := Reader(Waiting(j), optCnt + 1, next), Reader(Loading(k, Again(k)), optCnt + 1, k + 1);
    RefreshFront(r.s, k, false, optCnt + 1, next);
    assert Refreshes(r, t, k, false);
    assert LinesUp(r, t, k, false, 1);
    assert Takes(r.s, r.s, 0) && Room(r.s, PREFETCH) == 0;
  }

  lemma NothingFree(k: nat, optCnt: nat)
    requires 20 <= k < 39 && optCnt < MIN_RANDREAD
    ensures var r := Reader(Loading(k, Shut(k, true)), optCnt + 1, k + 1); Prefetches(r, r, k + 1, true, PREFETCH)
  {
    var r := Reader(Loading(k, Shut(k, true)), optCnt + 1, k + 1);
    assert r.s.cooked == [] && |r.s.cooking| == 6 && k + 1 !in r.s.values;
    assert Refreshes(r, r, k + 1, true);
    assert LinesUp(r, r, k + 1, true, 1);
    assert Takes(r.s, r.s, 0) && Room(r.s, PREFETCH) == 0;
  }

  // ---------- The eleventh ----------

  lemma OneByte(offset: nat)
    requires offset < 40
    ensures Blob()[offset..offset + 1] == [1]
  {
    assert |Blob()[offset..offset + 1]| == 1 && Blob()[offset..offset + 1][0] == 1;
  }

  lemma WaitingInv(k: nat)
    requires k < 40 && !(1 <= k < 6)
    ensures Inv(Waiting(k)) && Waiting(k).items == {} && Waiting(k).spoiled == {}
  {
    var s := Waiting(k);
    forall p | p in s.mem ensures BlockOk(s, p) && MappedOk(s, p) {
      var b := s.mem[p];
      OneByte(b.offset);
      assert p != 3 ==> b.data == [1] && b.data[..1] == [1];
    }
    forall l | l in s.values ensures ValueOk(s, l) {
    }
  }

  /** After a look at blocks 1 to `n`. */
  function Looked(n: nat): State
    requires n <= 5
  {
    Waiting(29).(cooked := From(0, n + 1), cooking := From(n + 1, 6), mem := LookedBlocks(n), spoiled := if n >= 3 then {3} else {})
  }

  function LookedBlocks(n: nat): map<Ptr, Block> {
    map p | p in Range(0, 6) :: if p == 0 then Shut(29, true) else if p <= n then Shut(p, p != 3) else Done(p, p != 3)
  }

  lemma LookNext(n: nat)
    requires n < 5
    ensures Looked(n).cooking != [] && Look(Looked(n)) == Looked(n + 1)
  {
    hide Remove, From;
    FromFirst(n + 1, 6);
    FromNext(0, n + 1);
    LookMaps(n);
    LookedFacts(n);
    hide Range;
    var s := Looked(n);
    assert s.cooking[0] == n + 1;
  }

  lemma LookedFacts(n: nat)
    requires n < 5
    ensures var s := Looked(n);
            s.cooking != [] && s.cooking[0] == n + 1 && n + 1 in s.mem && s.mem[n + 1].state.Token?
  {
  }

  lemma LookMaps(n: nat)
    requires n < 5
    ensures n + 1 in LookedBlocks(n) && LookedBlocks(n)[n + 1] == Done(n + 1, n + 1 != 3)
    ensures LookedBlocks(n)[n + 1 := Shut(n + 1, n + 1 != 3)] == LookedBlocks(n + 1)
  {
  }

  lemma {:induction false} SweepIs(n: nat)
    requires n <= 5
    ensures Sweep(Looked(n), 5 - n) == Looked(5)
    decreases 5 - n
  {
    hide Looked, Look;
    if n < 5 {
      LookNext(n);
      SweepIs(n + 1);
    }
  }

  /** The handle after the clean-up: five free blocks, block 3 among them. */
  function Tidied(): State {
    Waiting(29).(cooked := From(1, 6), cooking := [], values := Straight(1, 6), mem := LookedBlocks(5) - {0}, spoiled := {3})
  }

  /** The eleventh random read first cleans up: it drains the failed token of block
      3 with the others and gives only the buffer of block 29 back. */
  lemma CleanedIs()
    ensures Cleaned(Waiting(29)) == Tidied()
  {
    hide Sweep, Trim;
    LookedNone();
    SweepIs(0);
    TrimIs();
    assert |Looked(5).cooked| == 6;
  }

  lemma LookedNone()
    ensures Waiting(29) == Looked(0)
  {
    assert From(0, 1) == [0] && WaitingBlocks(29) == LookedBlocks(0);
  }

  lemma TrimIs()
    ensures Trim(Looked(5), 1) == Tidied()
  {
    hide Remove, From;
    FromFirst(0, 6);
    RemoveProps([], 0);
    var s := Looked(5);
    assert From(6, 6) == [];
    assert Straight(1, 6)[29 := 0] - {29} == Straight(1, 6);
    var t := Drop(s, 0);
    assert t.cooked == From(1, 6) && t.cooking == [] && t.mem == LookedBlocks(5) - {0} && t.values == Straight(1, 6);
    assert t.spoiled == {3};
    assert Trim(t, 0) == t;
  }

  /** Then the buffer of block 1 takes over block 30. */
  function Last(b: Block): State {
    Tidied().(cooked := From(2, 6), cooking := [1], values := (Straight(1, 6) - {1})[30 := 1], mem := (LookedBlocks(5) - {0})[1 := b],
              items := if b.state.Empty? then {1} else {})
  }

  lemma LastStart()
    ensures 1 in Tidied().mem && Refresh(Tidied(), 1, 30) == Last(Again(30))
  {
    hide From;
    FromFirst(1, 6);
    RemoveProps([], 1);
    hide Remove;
    var s := Refresh(Tidied(), 1, 30);
    assert s.mem == Last(Again(30)).mem && s.spoiled == {3} && s.items == {1};
  }

  lemma LastEnd()
    ensures Works(Last(Again(30)), 1, true, Last(Done(30, true)))
  {
    hide Works;
    FinishOne(Last(Again(30)), 1, true);
    assert Last(Again(30)).items - {1} == {};
    assert Last(Again(30)).mem[1 := Done(30, true)] == Last(Done(30, true)).mem;
  }

  lemma LastOpen()
    ensures 1 in Last(Done(30, true)).mem && Unblock(Last(Done(30, true)), 1) == Last(Shut(30, true))
  {
    assert Unblock(Last(Done(30, true)), 1).mem == Last(Shut(30, true)).mem;
  }

  function Final(): Reader {
    Reader(ToCooked(Last(Shut(30, true)), 1), 11, 31)
  }

  lemma LastRead()
    ensures ReadsNew(Reader(Waiting(29), 10, 30), Final(), 30, PREFETCH)
  {
    hide Prefetches, Works, Unblock, Last, Waiting;
    LastPrefetch();
    LastEnd();
    LastOpen();
    LastFacts();
    assert Opens(Reader(Last(Done(30, true)), 11, 31), Final(), 30, PREFETCH);
  }

  lemma LastPrefetch()
    ensures Prefetches(Counted(Reader(Waiting(29), 10, 30), PREFETCH), Reader(Last(Again(30)), 11, 31), 30, false, PREFETCH)
  {
    hide Refreshes, Cleaned, Last, Refresh;
    CleanedIs();
    LastStart();
    var s := Tidied();
    assert s.cooked[0] == 1 && 30 !in s.values;
    RefreshFront(s, 30, false, 11, 30);
    assert Refreshes(Reader(s, 11, 30), Reader(Last(Again(30)), 11, 31), 30, false);
    assert LinesUp(Reader(s, 11, 30), Reader(Last(Again(30)), 11, 31), 30, false, 1);
  }

  lemma LastFacts()
    ensures forall b: Block :: var s := Last(b);
              30 in s.values && s.values[30] == 1 && 1 in s.mem && s.mem[1] == b && s.bs == 1 && |s.content| == 40
    ensures var s := Waiting(29); 30 !in s.values && |s.content| == 40 && s.bs == 1
  {
  }

  // ---------- The theorem ----------

  /** Block 0, five downloads ahead of it ending, ten blocks that are not there. */
  function Calls(n: nat): seq<Call> {
    if n == 0 then [Get(0)]
    else if n <= 5 then Calls(n - 1) + [End(n, n != 3)]
    else Calls(n - 1) + [Get(14 + n)]
  }

  /** The reader after them. */
  function After(n: nat): Reader {
    if n <= 5 then Reader(Ended(n), 0, 6) else Reader(Waiting(14 + n), n - 5, 15 + n)
  }

  lemma {:induction false} CallsRun(n: nat)
    requires n <= 15
    ensures Runs(Opened(), After(n), Calls(n), PREFETCH)
  {
    hide Runs, ReadsNew, Works, Ended, Waiting, Opened;
    if n == 0 {
      FirstRead();
      NoCalls();
      RunsOn(Opened(), Opened(), After(0), [], Get(0), PREFETCH);
      assert [] + [Get(0)] == Calls(0);
    } else if n <= 5 {
      CallsRun(n - 1);
      EndNext(n - 1);
      RunsOn(Opened(), After(n - 1), After(n), Calls(n - 1), End(n, n != 3), PREFETCH);
    } else {
      CallsRun(n - 1);
      AllEnded();
      if n == 6 {
        RandomRead(0, 20, 0, 6);
      } else {
        RandomRead(13 + n, 14 + n, n - 6, 14 + n);
      }
      RunsOn(Opened(), After(n - 1), After(n), Calls(n - 1), Get(14 + n), PREFETCH);
    }
  }

  lemma NoCalls()
    ensures Runs(Opened(), Opened(), [], PREFETCH)
  {
  }

  /** After the eleventh random read block 3 is there, open to readers, with the
      wrong byte: the run ends in a handle that answers a read of it wrongly. */
  lemma FailureIsHandedOut() returns (r: Reader)
    ensures Runs(Opened(), r, Calls(15) + [Get(30)], PREFETCH)
    ensures WrongBlock(r.s, 3)
  {
    hide Runs, ReadsNew;
    r := Final();
    CallsRun(15);
    LastRead();
    RunsOn(Opened(), After(15), Final(), Calls(15), Get(30), PREFETCH);
    FinalIsWrong();
  }

  lemma FinalIsWrong()
    ensures WrongBlock(Final().s, 3)
  {
    var s := Final().s;
    assert s.mem[3] == Shut(3, false) && s.values[3] == 3;
    assert s.content[3..4] == [1];
  }

  // ---------- On a handle ----------

  lemma ThreeIsServed()
    ensures var s := Tidied();
            s.content == Blob() && s.content[3..4] == [1] && s.bs == 1 && Served(s, 3) && s.mem[s.values[3]] == Shut(3, false)
  {
  }

  lemma ThreeIsShown(s: State)
    requires s.bs == 1 && |s.content| == 40 && Served(s, 3) && s.mem[s.values[3]] == Shut(3, false)
    ensures OneBlock(s, 3, 1) && Shown(s, 3, 1) == [0]
  {
    hide Served, Shown, Excerpt;
    assert OneBlock(s, 3, 1);
    ShownServed(s, 3, 1, [0]);
  }

  /** Block 3 of the blob is 1, and the handle that has made ten random reads answers
      0 once the next one has cleaned up. */
  method DrainedFailureIsServed(h: Handle) returns (status: Status, data: bytes)
    requires h.View() == After(15).s && h.optCnt == 11
    modifies h
    ensures status in {Ok, Eof} && data == [0] && h.content[3..4] == [1]
  {
    hide Inv, Cleaned, Tidied, Waiting, Served, Shown, OneBlock;
    WaitingInv(29);
    h.Cleanup();
    CleanedIs();
    ThreeIsServed();
    ThreeIsShown(h.View());
    ghost var clean;
    status, data, clean := h.ReadInBuffer(3, 1);
  }
}
