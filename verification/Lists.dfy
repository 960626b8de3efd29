/** Lists of block pointers, as a handle keeps them. */
module Lists {

  type Ptr = nat

  ghost predicate NoDup(l: seq<Ptr>) {
    forall i, j | 0 <= i < j < |l| :: l[i] != l[j]
  }

  function Remove(l: seq<Ptr>, p: Ptr): seq<Ptr> {
    if l == [] then []
    else if l[0] == p then Remove(l[1..], p)
    else [l[0]] + Remove(l[1..], p)
  }

  lemma {:induction false} RemoveProps(l: seq<Ptr>, p: Ptr)
    ensures forall q :: q in Remove(l, p) <==> q in l && q != p
    ensures NoDup(l) ==> NoDup(Remove(l, p))
    ensures p !in l ==> Remove(l, p) == l
    ensures |Remove(l, p)| <= |l|
    ensures NoDup(l) && p in l ==> |Remove(l, p)| == |l| - 1
  {
    if l != [] {
      RemoveProps(l[1..], p);
      assert l == [l[0]] + l[1..];
      assert NoDup(l) ==> NoDup(l[1..]) && l[0] !in l[1..];
    }
  }

  /** Removing the element at a position cuts exactly that position out. */
  lemma {:induction false} RemoveAt(l: seq<Ptr>, i: nat)
    requires NoDup(l) && i < |l|
    ensures Remove(l, l[i]) == l[..i] + l[i + 1..]
  {
    if i == 0 {
      assert l[0] !in l[1..];
      RemoveProps(l[1..], l[0]);
    } else {
      assert NoDup(l[1..]) && l[1..][i - 1] == l[i];
      RemoveAt(l[1..], i - 1);
      assert l[0] != l[i];
      assert [l[0]] + l[1..][..i - 1] == l[..i];
    }
  }
}
