/** The list of block ids a commit sends: one id per block index, in order, and
    a filler id right behind each block that is too short. */
module BlockIdList {
  import opened Storage

  /** The keys below `n` in increasing order. */
  function SortedBelow(keys: set<nat>, n: nat): seq<nat> {
    if n == 0 then []
    else SortedBelow(keys, n - 1) + if n - 1 in keys then [n - 1] else []
  }

  lemma {:induction false} SortedBelowProps(keys: set<nat>, n: nat)
    ensures forall i | 0 <= i < |SortedBelow(keys, n)| :: SortedBelow(keys, n)[i] in keys && SortedBelow(keys, n)[i] < n
    ensures forall i, j | 0 <= i < j < |SortedBelow(keys, n)| :: SortedBelow(keys, n)[i] < SortedBelow(keys, n)[j]
    ensures forall k | k in keys && k < n :: k in SortedBelow(keys, n)
  {
    if n > 0 {
      SortedBelowProps(keys, n - 1);
      assert n - 1 in keys ==> SortedBelow(keys, n)[|SortedBelow(keys, n)| - 1] == n - 1;
      forall k | k in keys && k < n ensures k in SortedBelow(keys, n) {
        if k < n - 1 {
          assert k in SortedBelow(keys, n - 1);
        }
      }
    }
  }

  /** Entry ids `entries[0..n]`, with a filler behind every short one. */
  function Interleave(entries: seq<Id>, fillers: map<nat, Id>, n: nat): seq<Id>
    requires n <= |entries|
  {
    if n == 0 then []
    else Interleave(entries, fillers, n - 1) + [entries[n - 1]] +
         if n - 1 in fillers then [fillers[n - 1]] else []
  }

  lemma {:induction false} InterleaveFrame(entries: seq<Id>, entries': seq<Id>, f: map<nat, Id>, f': map<nat, Id>, n: nat)
    requires n <= |entries| && n <= |entries'| && entries[..n] == entries'[..n]
    requires forall k: nat | k < n :: (k in f <==> k in f') && (k in f ==> f[k] == f'[k])
    ensures Interleave(entries, f, n) == Interleave(entries', f', n)
  {
    if n > 0 {
      assert entries[..n - 1] == entries[..n][..n - 1] && entries'[..n - 1] == entries'[..n][..n - 1];
      assert entries[n - 1] == entries[..n][n - 1] == entries'[n - 1];
      InterleaveFrame(entries, entries', f, f', n - 1);
    }
  }

  /** Up to and including the first short block, list position equals block index. */
  lemma {:induction false} InterleavePrefix(entries: seq<Id>, f: map<nat, Id>, x: nat, n: nat)
    requires x < n <= |entries|
    requires forall k | k in f :: x <= k
    ensures |Interleave(entries, f, n)| >= x + 1
    ensures Interleave(entries, f, n)[..x + 1] == entries[..x + 1]
  {
    if n == x + 1 {
      InterleaveNone(entries, f, x);
      assert entries[..x + 1] == entries[..x] + [entries[x]];
    } else {
      InterleavePrefix(entries, f, x, n - 1);
      var l := Interleave(entries, f, n - 1);
      assert Interleave(entries, f, n)[..x + 1] == l[..x + 1];
    }
  }

  lemma {:induction false} InterleaveNone(entries: seq<Id>, f: map<nat, Id>, n: nat)
    requires n <= |entries| && forall k | k in f :: n <= k
    ensures Interleave(entries, f, n) == entries[..n]
  {
    if n > 0 {
      InterleaveNone(entries, f, n - 1);
      assert entries[..n] == entries[..n - 1] + [entries[n - 1]];
    }
  }

  /** Cutting the list entry behind the first short block removes its filler. */
  lemma {:induction false} InterleaveCut(entries: seq<Id>, f: map<nat, Id>, x: nat, n: nat)
    requires x < n <= |entries| && x in f
    requires forall k | k in f :: x <= k
    ensures |Interleave(entries, f, n)| >= x + 2
    ensures var l := Interleave(entries, f, n);
            l[..x + 1] + l[x + 2..] == Interleave(entries, f - {x}, n)
  {
    var l := Interleave(entries, f, n);
    if n == x + 1 {
      InterleaveNone(entries, f, x);
      InterleaveNone(entries, f - {x}, x);
      assert l == entries[..x] + [entries[x]] + [f[x]];
      assert l[..x + 1] == entries[..x] + [entries[x]] && l[x + 2..] == [];
    } else {
      InterleaveCut(entries, f, x, n - 1);
      var l' := Interleave(entries, f, n - 1);
      assert l[..x + 1] == l'[..x + 1];
      assert l[x + 2..] == l'[x + 2..] + l[|l'|..];
    }
  }

  /** Position of the first occurrence, as the restage pass searches for it. */
  method FirstIndex(ids: seq<Id>, id: Id) returns (i: nat)
    requires id in ids
    ensures i < |ids| && ids[i] == id && id !in ids[..i]
  {
    i := 0;
    while ids[i] != id
      invariant 0 <= i < |ids|
      invariant id !in ids[..i]
      decreases |ids| - i
    {
      assert id in ids[i + 1..] by {
        assert ids == ids[..i] + [ids[i]] + ids[i + 1..];
      }
      i := i + 1;
    }
  }
}
