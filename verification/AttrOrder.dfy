/** The order in which expired paths are removed: the keys of the cache as strings,
    greatest first. */
module AttrOrder {
  import opened AttrTree
  import opened AttrEvict

  /** The key under which a path is cached. */
  function Key(p: Path): string {
    if p == [] then "" else if |p| == 1 then p[0] else Key(Up(p)) + "/" + Last(p)
  }

  /** Strictly smaller in dictionary order. */
  predicate Before(a: string, b: string) {
    b != "" && (a == "" || a[0] < b[0] || (a[0] == b[0] && Before(a[1..], b[1..])))
  }

  lemma {:induction false} BeforeTrans(a: string, b: string, c: string)
    requires Before(a, b) && Before(b, c)
    ensures Before(a, c)
  {
    if a != "" && a[0] == b[0] && b[0] == c[0] {
      BeforeTrans(a[1..], b[1..], c[1..]);
    }
  }

  lemma {:induction false} BeforeAsymmetric(a: string, b: string)
    requires Before(a, b)
    ensures !Before(b, a)
  {
    if a != "" && a[0] == b[0] {
      BeforeAsymmetric(a[1..], b[1..]);
    }
  }

  /** A proper prefix is smaller. */
  lemma {:induction false} PrefixBefore(a: string, b: string)
    requires a < b
    ensures Before(a, b)
  {
    if a != "" {
      PrefixBefore(a[1..], b[1..]);
    }
  }

  /** The key of a directory is a proper prefix of the keys below it. */
  lemma {:induction false} KeyPrefix(p: Path, q: Path)
    requires p != [] && p < q
    ensures Key(p) < Key(q)
    decreases |q|
  {
    assert q == Up(q) + [Last(q)];
    if p != Up(q) {
      KeyPrefix(p, Up(q));
    }
  }

  ghost predicate Descending(l: seq<Path>) {
    forall i, j | 0 <= i < j < |l| :: l[i] != l[j] && !Before(Key(l[i]), Key(l[j]))
  }

  /** Greatest key first means that no path comes before one below it. */
  lemma DescendingDeepest(l: seq<Path>)
    requires Descending(l) && [] !in l
    ensures DeepestFirst(l)
  {
    forall i, j | 0 <= i < j < |l| ensures !(l[i] <= l[j]) {
      if l[i] <= l[j] {
        KeyPrefix(l[i], l[j]);
        PrefixBefore(Key(l[i]), Key(l[j]));
      }
    }
  }

  /** Put a path in front of the first smaller one. */
  function Placed(l: seq<Path>, k: Path): seq<Path> {
    if l == [] || Before(Key(l[0]), Key(k)) then [k] + l else [l[0]] + Placed(l[1..], k)
  }

  lemma {:induction false} PlacedIn(l: seq<Path>, k: Path)
    ensures forall p :: p in Placed(l, k) <==> p == k || p in l
  {
    if l != [] {
      assert l == [l[0]] + l[1..];
      PlacedIn(l[1..], k);
    }
  }

  lemma {:induction false} PlacedDescending(l: seq<Path>, k: Path)
    requires Descending(l) && k !in l
    ensures Descending(Placed(l, k))
  {
    if l != [] {
      if Before(Key(l[0]), Key(k)) {
        BeforeAsymmetric(Key(l[0]), Key(k));
        forall j | 0 <= j < |l| ensures !Before(Key(k), Key(l[j])) {
          if j > 0 && Before(Key(k), Key(l[j])) {
            BeforeTrans(Key(l[0]), Key(k), Key(l[j]));
          }
        }
      } else {
        var rest := Placed(l[1..], k);
        PlacedDescending(l[1..], k);
        PlacedIn(l[1..], k);
        forall j | 0 <= j < |rest| ensures l[0] != rest[j] && !Before(Key(l[0]), Key(rest[j])) {
          assert rest[j] in rest;
          if rest[j] != k {
            var i :| 0 <= i < |l[1..]| && l[1..][i] == rest[j];
            assert l[i + 1] == rest[j];
          }
        }
      }
    }
  }

  /** The library's sort, in descending order. */
  method SortKeys(keys: set<Path>) returns (l: seq<Path>)
    ensures Descending(l) && forall k :: k in l <==> k in keys
  {
    hide Descending, Placed;
    l := [];
    EmptyDescending();
    var todo := keys;
    while todo != {}
      invariant todo <= keys && Descending(l) && forall k :: k in l <==> k in keys && k !in todo
      decreases |todo|
    {
      var k :| k in todo;
      PlacedDescending(l, k);
      PlacedIn(l, k);
      l, todo := Placed(l, k), todo - {k};
    }
  }

  lemma EmptyDescending()
    ensures Descending([])
  {
  }
}
