/** What a handle makes of its file, on values: the length it records and the bytes
    it accounts for. The two agree, except that a handle opened write-only on a
    stored blob knows the length and accounts for nothing. */
module WriteImage {
  import opened Bytes

  datatype Image = Image(length: nat, file: bytes)

  predicate Whole(i: Image) {
    |i.file| == i.length
  }

  /** End of the block that holds byte `e - 1`. */
  function BlockEnd(e: nat, bs: nat): nat
    requires e > 0 && bs > 0
  {
    (e - 1) / bs * bs + bs
  }

  /** How much is accounted for after a write up to `e`. */
  function Accounted(i: Image, bs: nat, e: nat): nat
    requires e > 0 && bs > 0
  {
    var length := Max(i.length, e);
    if Whole(i) then length else Max(|i.file|, Min(length, BlockEnd(e, bs)))
  }

  /** After writing `data`, which is not empty, at `offset`. */
  function Edited(i: Image, bs: nat, offset: nat, data: bytes): (r: Image)
    requires bs > 0
    ensures data != [] ==> r.length == Max(i.length, offset + |data|) && |r.file| == Accounted(i, bs, offset + |data|)
  {
    if data == [] then i
    else Image(Max(i.length, offset + |data|), Resize(Splice(i.file, offset, data), Accounted(i, bs, offset + |data|)))
  }

  /** On a whole image that is the splice. */
  lemma EditedWhole(i: Image, bs: nat, offset: nat, data: bytes)
    requires bs > 0 && Whole(i)
    ensures Whole(Edited(i, bs, offset, data)) && Edited(i, bs, offset, data).file == Splice(i.file, offset, data)
  {
  }

  lemma BlockEndIs(e: nat, bs: nat)
    requires e > 0 && bs > 0
    ensures e <= BlockEnd(e, bs) < e + bs && BlockEnd(e, bs) % bs == 0
    ensures (e - 1) / bs * bs < e
  {
    var q := (e - 1) / bs;
    assert e - 1 == q * bs + (e - 1) % bs;
    DivMod(q + 1, 0, bs);
    assert (q + 1) * bs == q * bs + bs;
  }

  lemma BlockEndMonotone(a: nat, b: nat, bs: nat)
    requires 0 < a <= b && bs > 0
    ensures BlockEnd(a, bs) <= BlockEnd(b, bs)
  {
    DivMonotone(a - 1, b - 1, bs);
    MulLe((a - 1) / bs, (b - 1) / bs, bs);
  }

  /** What is accounted for covers the written bytes and never gets less. */
  lemma AccountedCovers(i: Image, bs: nat, e: nat)
    requires e > 0 && bs > 0 && |i.file| <= i.length
    ensures |i.file| <= Accounted(i, bs, e) <= Max(i.length, e) && e <= Accounted(i, bs, e)
  {
    BlockEndIs(e, bs);
  }

  /** Writing block by block is writing all of it. */
  lemma EditedMore(i: Image, bs: nat, offset: nat, a: bytes, b: bytes)
    requires bs > 0 && |i.file| <= i.length
    ensures Edited(Edited(i, bs, offset, a), bs, offset + |a|, b) == Edited(i, bs, offset, a + b)
  {
    if a == [] {
      assert a + b == b;
    } else if b == [] {
      assert a + b == a;
    } else {
      var j := Edited(i, bs, offset, a);
      EditedMoreSize(i, j, bs, offset + |a|, offset + |a| + |b|);
      AccountedCovers(i, bs, offset + |a|);
      SpliceResized(i.file, offset, a, |j.file|, b);
    }
  }

  lemma EditedMoreSize(i: Image, j: Image, bs: nat, e: nat, f: nat)
    requires bs > 0 && |i.file| <= i.length && 0 < e <= f
    requires j.length == Max(i.length, e) && |j.file| == Accounted(i, bs, e)
    ensures Accounted(j, bs, f) == Accounted(i, bs, f)
  {
    BlockEndMonotone(e, f, bs);
    BlockEndIs(e, bs);
    BlockEndIs(f, bs);
  }

  /** Zeros appended in between are where the second splice would put them. */
  lemma SpliceResized(f: bytes, offset: nat, a: bytes, n: nat, b: bytes)
    requires a != [] && b != [] && n >= |Splice(f, offset, a)|
    ensures forall m: nat :: Resize(Splice(Resize(Splice(f, offset, a), n), offset + |a|, b), m) == Resize(Splice(f, offset, a + b), m)
  {
    SpliceSplit(f, offset, a, b);
    var x, y := Splice(Resize(Splice(f, offset, a), n), offset + |a|, b), Splice(f, offset, a + b);
    forall m: nat ensures Resize(x, m) == Resize(y, m) {
      assert forall k | 0 <= k < m :: At(x, k) == At(y, k);
    }
  }

  /** With the bytes `front` brought back to the beginning, if they were. */
  function Back(i: Image, bs: nat, front: bytes, took: bool): Image
    requires bs > 0
  {
    if took then Edited(i, bs, 0, front) else i
  }

  /** One more round of a write; only the first one can bring anything back. */
  lemma GoesOn(i: Image, before: Image, after: Image, bs: nat, front: bytes, offset: nat, data: bytes,
               n: nat, written: nat, took: bool, now: bool)
    requires bs > 0 && |i.file| <= i.length && n + written <= |data|
    requires (n == 0 ==> !took) && (n > 0 ==> !now)
    requires before == Edited(Back(i, bs, front, took), bs, offset, data[..n])
    requires after == Edited(Back(before, bs, front, now), bs, offset + n, data[n..][..written])
    ensures after == Edited(Back(i, bs, front, took || now), bs, offset, data[..n + written])
  {
    hide Edited, Accounted;
    assert data[..n + written][..n] == data[..n] && data[..n + written][n..] == data[n..][..written];
    assert data[..n] + data[n..][..written] == data[..n + written];
    if n == 0 {
      EditedNothing(i, bs, offset);
    } else {
      BackBound(i, bs, front, took);
      EditedMore(Back(i, bs, front, took), bs, offset, data[..n], data[n..][..written]);
    }
  }

  lemma BackBound(i: Image, bs: nat, front: bytes, took: bool)
    requires bs > 0 && |i.file| <= i.length
    ensures |Back(i, bs, front, took).file| <= Back(i, bs, front, took).length
  {
    if front != [] {
      AccountedCovers(i, bs, |front|);
    }
  }

  // ---------- Whole runs ----------

  datatype Op = Write(offset: nat, data: bytes) | Flush(lazyWrite: bool, closing: bool)

  datatype Outcome = Refused | Wrote(n: nat) | Flushed(ok: bool)

  /** What operation `i` wrote. */
  function Written(ops: seq<Op>, out: seq<Outcome>, i: nat): bytes
    requires |ops| == |out| && i < |ops|
  {
    match (ops[i], out[i])
    case (Write(offset, data), Wrote(n)) => if n <= |data| then data[..n] else []
    case _ => []
  }

  function Place(op: Op): nat {
    if op.Write? then op.offset else 0
  }

  /** The file a run of operations stands for. */
  function Replay(file: bytes, ops: seq<Op>, out: seq<Outcome>): bytes
    requires |ops| == |out|
  {
    if ops == [] then file
    else
      var last := |ops| - 1;
      Splice(Replay(file, ops[..last], out[..last]), Place(ops[last]), Written(ops, out, last))
  }

  /** What a handle makes of the run. */
  function Develop(i: Image, bs: nat, ops: seq<Op>, out: seq<Outcome>): Image
    requires |ops| == |out| && bs > 0
  {
    if ops == [] then i
    else
      var last := |ops| - 1;
      Edited(Develop(i, bs, ops[..last], out[..last]), bs, Place(ops[last]), Written(ops, out, last))
  }

  lemma DevelopNext(i: Image, bs: nat, ops: seq<Op>, out: seq<Outcome>, op: Op, result: Outcome)
    requires |ops| == |out| && bs > 0
    ensures Develop(i, bs, ops + [op], out + [result]) == Edited(Develop(i, bs, ops, out), bs, Place(op), Written([op], [result], 0))
  {
    assert (ops + [op])[..|ops|] == ops && (out + [result])[..|ops|] == out;
  }

  /** A handle that accounts for its whole file ends with the replayed one. */
  lemma {:induction false} DevelopWhole(i: Image, bs: nat, ops: seq<Op>, out: seq<Outcome>)
    requires |ops| == |out| && bs > 0 && Whole(i)
    ensures Whole(Develop(i, bs, ops, out)) && Develop(i, bs, ops, out).file == Replay(i.file, ops, out)
  {
    if ops != [] {
      var last := |ops| - 1;
      DevelopWhole(i, bs, ops[..last], out[..last]);
      EditedWhole(Develop(i, bs, ops[..last], out[..last]), bs, Place(ops[last]), Written(ops, out, last));
    }
  }

  // ---------- Opened write-only ----------

  /** Nothing was written into the first block. */
  ghost predicate Behind(bs: nat, ops: seq<Op>, out: seq<Outcome>)
    requires |ops| == |out|
  {
    forall i | 0 <= i < |ops| && Written(ops, out, i) != [] :: bs <= Place(ops[i])
  }

  /** Bytes brought back into block 0 may as well have been there from the start. */
  lemma SwapOne(i: Image, bs: nat, front: bytes, offset: nat, data: bytes)
    requires bs > 0 && 0 < |front| <= bs <= offset && |front| <= i.length && |i.file| <= i.length && data != []
    ensures Edited(Edited(i, bs, offset, data), bs, 0, front) == Edited(Edited(i, bs, 0, front), bs, offset, data)
  {
    hide Edited, Accounted, Splice, Resize;
    var a, b := Edited(i, bs, offset, data), Edited(i, bs, 0, front);
    var x, y := Edited(a, bs, 0, front), Edited(b, bs, offset, data);
    SwapSize(i, a, b, bs, |front|, offset + |data|);
    AccountedCovers(i, bs, offset + |data|);
    AccountedCovers(i, bs, |front|);
    forall k | 0 <= k < |x.file| ensures x.file[k] == y.file[k] {
      EditedAt(i, bs, offset, data, k);
      EditedAt(i, bs, 0, front, k);
      EditedAt(a, bs, 0, front, k);
      EditedAt(b, bs, offset, data, k);
    }
  }

  lemma EditedAt(i: Image, bs: nat, offset: nat, data: bytes, k: nat)
    requires bs > 0 && data != [] && |i.file| <= i.length
    ensures At(Edited(i, bs, offset, data).file, k) == if offset <= k < offset + |data| then data[k - offset] else At(i.file, k)
  {
    AccountedCovers(i, bs, offset + |data|);
  }

  lemma SwapSize(i: Image, a: Image, b: Image, bs: nat, n: nat, e: nat)
    requires bs > 0 && 0 < n <= bs < e && n <= i.length && |i.file| <= i.length
    requires a.length == Max(i.length, e) && |a.file| == Accounted(i, bs, e)
    requires b.length == Max(i.length, n) && |b.file| == Accounted(i, bs, n)
    ensures Accounted(a, bs, n) == Accounted(b, bs, e) >= |a.file|
  {
    BlockEndIs(n, bs);
    BlockEndIs(e, bs);
    FirstBlockEnd(n, bs);
  }

  lemma FirstBlockEnd(n: nat, bs: nat)
    requires 0 < n <= bs
    ensures BlockEnd(n, bs) == bs
  {
    assert (n - 1) / bs == 0;
  }

  lemma {:induction false} SwapFront(i: Image, bs: nat, front: bytes, ops: seq<Op>, out: seq<Outcome>)
    requires |ops| == |out| && bs > 0 && 0 < |front| <= bs && |front| <= i.length && |i.file| <= i.length && Behind(bs, ops, out)
    ensures Edited(Develop(i, bs, ops, out), bs, 0, front) == Develop(Edited(i, bs, 0, front), bs, ops, out)
    ensures i.length <= Develop(i, bs, ops, out).length && |Develop(i, bs, ops, out).file| <= Develop(i, bs, ops, out).length
  {
    hide Edited, Written;
    if ops != [] {
      var last := |ops| - 1;
      BehindBefore(bs, ops, out);
      SwapFront(i, bs, front, ops[..last], out[..last]);
      if Written(ops, out, last) != [] {
        var j := Develop(i, bs, ops[..last], out[..last]);
        SwapOne(j, bs, front, Place(ops[last]), Written(ops, out, last));
        AccountedCovers(j, bs, Place(ops[last]) + |Written(ops, out, last)|);
      } else {
        EditedNothing(Develop(i, bs, ops[..last], out[..last]), bs, Place(ops[last]));
        EditedNothing(Develop(Edited(i, bs, 0, front), bs, ops[..last], out[..last]), bs, Place(ops[last]));
      }
    }
  }

  lemma EditedNothing(i: Image, bs: nat, offset: nat)
    requires bs > 0
    ensures Edited(i, bs, offset, []) == i
  {
  }

  lemma BehindBefore(bs: nat, ops: seq<Op>, out: seq<Outcome>)
    requires |ops| == |out| && ops != [] && Behind(bs, ops, out)
    ensures Behind(bs, ops[..|ops| - 1], out[..|ops| - 1])
    ensures Written(ops, out, |ops| - 1) != [] ==> bs <= Place(ops[|ops| - 1])
  {
    var last := |ops| - 1;
    assert forall k | 0 <= k < last :: Written(ops[..last], out[..last], k) == Written(ops, out, k) && ops[..last][k] == ops[k];
  }

  /** The image a write-only handle starts from. */
  function Unread(content: bytes): Image {
    Image(|content|, [])
  }

  /** A blob smaller than a block is read ahead, so that touching block 0 brings all
      of it back. */
  lemma FrontIsAll(content: bytes, bs: nat)
    requires 0 < |content| <= bs
    ensures Edited(Unread(content), bs, 0, content) == Image(|content|, content)
  {
    FirstBlockEnd(|content|, bs);
  }

  /** The image from which a write at `offset` starts. */
  function Touched(content: bytes, bs: nat, offset: nat): Image {
    if 0 < |content| < bs && offset < bs then Image(|content|, content) else Unread(content)
  }

  /** One write on such a handle leaves the file it should if and only if it brings
      the small blob back, or no stored byte matters and the write reaches the last
      block. */
  lemma WriteOnlyIff(content: bytes, bs: nat, offset: nat, data: bytes)
    requires bs > 0 && data != []
    ensures Edited(Touched(content, bs, offset), bs, offset, data).file == Splice(content, offset, data) <==>
            || (0 < |content| < bs && offset < bs)
            || (&& (forall p | 0 <= p < |content| && !(offset <= p < offset + |data|) :: content[p] == 0)
                && |content| <= BlockEnd(offset + |data|, bs))
  {
    var e := offset + |data|;
    var f, g := Edited(Touched(content, bs, offset), bs, offset, data).file, Splice(content, offset, data);
    BlockEndIs(e, bs);
    if 0 < |content| < bs && offset < bs {
      EditedWhole(Image(|content|, content), bs, offset, data);
    } else {
      assert |f| == |g| <==> |content| <= BlockEnd(e, bs);
      forall k | 0 <= k < |f| ensures f[k] == if offset <= k < e then data[k - offset] else 0 {
        EditedAt(Unread(content), bs, offset, data, k);
      }
      if f == g {
        forall p | 0 <= p < |content| && !(offset <= p < e) ensures content[p] == 0 {
          assert f[p] == g[p];
        }
      }
    }
  }

  // ---------- Whole runs of a write-only handle ----------

  /** Some operation wrote byte `p`. */
  predicate Overwritten(ops: seq<Op>, out: seq<Outcome>, p: nat)
    requires |ops| == |out|
  {
    exists i | 0 <= i < |ops| :: Place(ops[i]) <= p < Place(ops[i]) + |Written(ops, out, i)|
  }

  /** Some write reached the block that holds byte `n - 1`. */
  predicate Reached(ops: seq<Op>, out: seq<Outcome>, bs: nat, n: nat)
    requires |ops| == |out| && bs > 0
  {
    exists i | 0 <= i < |ops| :: Written(ops, out, i) != [] && n <= BlockEnd(Place(ops[i]) + |Written(ops, out, i)|, bs)
  }

  predicate SomeWritten(ops: seq<Op>, out: seq<Outcome>)
    requires |ops| == |out|
  {
    exists i | 0 <= i < |ops| :: Written(ops, out, i) != []
  }

  lemma BeforeLast(ops: seq<Op>, out: seq<Outcome>, bs: nat, n: nat, p: nat)
    requires |ops| == |out| && ops != [] && bs > 0
    ensures var last := |ops| - 1; var w, o := Written(ops, out, last), Place(ops[last]);
            && (Overwritten(ops, out, p) <==> o <= p < o + |w| || Overwritten(ops[..last], out[..last], p))
            && (Reached(ops, out, bs, n) <==> (w != [] && n <= BlockEnd(o + |w|, bs)) || Reached(ops[..last], out[..last], bs, n))
            && (SomeWritten(ops, out) <==> w != [] || SomeWritten(ops[..last], out[..last]))
  {
    hide Written, BlockEnd;
    var last := |ops| - 1;
    forall k | 0 <= k < last ensures Written(ops[..last], out[..last], k) == Written(ops, out, k) && ops[..last][k] == ops[k] {
      SameWritten(ops, out, k);
    }
  }

  lemma SameWritten(ops: seq<Op>, out: seq<Outcome>, k: nat)
    requires |ops| == |out| && k < |ops| - 1
    ensures Written(ops[..|ops| - 1], out[..|ops| - 1], k) == Written(ops, out, k)
  {
  }

  /** Where something was written the bytes are the file's; elsewhere they are zero. */
  lemma {:induction false} UnreadAt(content: bytes, bs: nat, ops: seq<Op>, out: seq<Outcome>, p: nat)
    requires |ops| == |out| && bs > 0
    ensures var i, f := Develop(Unread(content), bs, ops, out), Replay(content, ops, out);
            && |i.file| <= i.length && i.length == |f|
            && if Overwritten(ops, out, p) then At(i.file, p) == At(f, p) else At(i.file, p) == 0 && At(f, p) == At(content, p)
  {
    hide Edited, Written;
    if ops != [] {
      var last := |ops| - 1;
      UnreadAt(content, bs, ops[..last], out[..last], p);
      BeforeLast(ops, out, bs, 0, p);
      var i, w, o := Develop(Unread(content), bs, ops[..last], out[..last]), Written(ops, out, last), Place(ops[last]);
      if w == [] {
        EditedNothing(i, bs, o);
      } else {
        EditedAt(i, bs, o, w, p);
        AccountedCovers(i, bs, o + |w|);
      }
    }
  }

  /** Once something is written all of the file is accounted for, if and only if some
      write reached the last block of what was stored. */
  lemma {:induction false} UnreadWhole(content: bytes, bs: nat, ops: seq<Op>, out: seq<Outcome>)
    requires |ops| == |out| && bs > 0
    ensures var i := Develop(Unread(content), bs, ops, out);
            && |content| <= i.length && |i.file| <= i.length
            && (SomeWritten(ops, out) ==> (Whole(i) <==> Reached(ops, out, bs, |content|)))
            && (!SomeWritten(ops, out) ==> i == Unread(content))
            && (!Whole(i) ==> i.length == |content|)
  {
    hide Edited, Written, BlockEnd;
    if ops != [] {
      var last := |ops| - 1;
      UnreadWhole(content, bs, ops[..last], out[..last]);
      BeforeLast(ops, out, bs, |content|, 0);
      var i, w, o := Develop(Unread(content), bs, ops[..last], out[..last]), Written(ops, out, last), Place(ops[last]);
      if w == [] {
        EditedNothing(i, bs, o);
      } else {
        BlockEndIs(o + |w|, bs);
        AccountedCovers(i, bs, o + |w|);
      }
    }
  }

  /** What was written is accounted for. */
  lemma {:induction false} SomethingThere(i: Image, bs: nat, ops: seq<Op>, out: seq<Outcome>)
    requires |ops| == |out| && bs > 0 && |i.file| <= i.length
    ensures var j := Develop(i, bs, ops, out); |i.file| <= |j.file| <= j.length && (SomeWritten(ops, out) ==> j.file != [])
  {
    hide Edited, Written;
    if ops != [] {
      var last := |ops| - 1;
      SomethingThere(i, bs, ops[..last], out[..last]);
      BeforeLast(ops, out, bs, 0, 0);
      var j, w, o := Develop(i, bs, ops[..last], out[..last]), Written(ops, out, last), Place(ops[last]);
      if w == [] {
        EditedNothing(j, bs, o);
      } else {
        AccountedCovers(j, bs, o + |w|);
      }
    }
  }

  /** The run of a handle opened write-only leaves the file it should if and only if
      the bytes read ahead came back, or every stored byte that was not overwritten is
      zero and some write reached the last block. */
  lemma WriteOnlyRunIff(content: bytes, bs: nat, ops: seq<Op>, out: seq<Outcome>, front: bool)
    requires |ops| == |out| && bs > 0 && SomeWritten(ops, out) && (front ==> 0 < |content| < bs)
    ensures Develop(Back(Unread(content), bs, content, front), bs, ops, out).file == Replay(content, ops, out) <==>
            || front
            || ((forall p | 0 <= p < |content| :: content[p] == 0 || Overwritten(ops, out, p)) && Reached(ops, out, bs, |content|))
  {
    hide Edited, Develop, Replay, Overwritten, Reached, SomeWritten;
    if front {
      FrontIsAll(content, bs);
      DevelopWhole(Image(|content|, content), bs, ops, out);
    } else {
      var i, f := Develop(Unread(content), bs, ops, out), Replay(content, ops, out);
      UnreadWhole(content, bs, ops, out);
      UnreadAt(content, bs, ops, out, 0);
      forall p: nat
        ensures if Overwritten(ops, out, p) then At(i.file, p) == At(f, p) else At(i.file, p) == 0 && At(f, p) == At(content, p)
      {
        UnreadAt(content, bs, ops, out, p);
      }
      if i.file == f {
        forall p | 0 <= p < |content| ensures content[p] == 0 || Overwritten(ops, out, p) {
          assert At(i.file, p) == At(f, p);
        }
      }
      if Whole(i) && forall p | 0 <= p < |content| :: content[p] == 0 || Overwritten(ops, out, p) {
        forall k | 0 <= k < |f| ensures i.file[k] == f[k] {
          assert At(i.file, k) == At(f, k);
        }
      }
    }
  }

  // ---------- Bringing bytes back during a run ----------

  /** What was brought back late may as well have been there from the start. */
  lemma DevelopBack(i: Image, bs: nat, front: bytes, ops: seq<Op>, out: seq<Outcome>, took: bool, op: Op, result: Outcome, now: bool)
    requires |ops| == |out| && bs > 0 && |front| <= bs && |front| <= i.length && |i.file| <= i.length
    requires now ==> front != [] && !took && Behind(bs, ops, out)
    ensures var before := Develop(Back(i, bs, front, took), bs, ops, out);
            Edited(Back(before, bs, front, now), bs, Place(op), Written([op], [result], 0)) ==
            Develop(Back(i, bs, front, took || now), bs, ops + [op], out + [result])
  {
    hide Edited, Written;
    DevelopNext(Back(i, bs, front, took || now), bs, ops, out, op, result);
    if now {
      SwapFront(i, bs, front, ops, out);
    }
  }

  lemma BehindNext(bs: nat, ops: seq<Op>, out: seq<Outcome>, op: Op, result: Outcome)
    requires |ops| == |out| && Behind(bs, ops, out) && (Written([op], [result], 0) != [] ==> bs <= Place(op))
    ensures Behind(bs, ops + [op], out + [result])
  {
    forall i | 0 <= i < |ops| + 1 && Written(ops + [op], out + [result], i) != [] ensures bs <= Place((ops + [op])[i]) {
      if i < |ops| {
        assert Written(ops + [op], out + [result], i) == Written(ops, out, i);
      }
    }
  }

  lemma DevelopNone(i: Image, bs: nat)
    requires bs > 0
    ensures Develop(i, bs, [], []) == i
  {
  }

  lemma FrontIsTouched(content: bytes, bs: nat, offset: nat)
    requires bs > 0
    ensures Back(Unread(content), bs, content, 0 < |content| < bs && offset < bs) == Touched(content, bs, offset)
  {
    if 0 < |content| < bs {
      FrontIsAll(content, bs);
    }
  }

  lemma BehindNone(bs: nat)
    ensures Behind(bs, [], [])
  {
  }

  lemma WholeAsBefore(i: Image, bs: nat, front: bytes, offset: nat, data: bytes)
    requires bs > 0 && Whole(i)
    ensures var r := Edited(Back(i, bs, front, false), bs, offset, data); Whole(r) && r.file == Splice(i.file, offset, data)
  {
    EditedWhole(i, bs, offset, data);
  }

  lemma BackNone(i: Image, bs: nat, front: bytes, offset: nat)
    requires bs > 0
    ensures Edited(Back(i, bs, front, false), bs, offset, []) == i
  {
  }
}
