/** Byte sequences and the two flat-file edits that everything else is proved
    against: overwriting at an offset, and changing the length. */
module Bytes {

  newtype byte = x: int | 0 <= x < 0x100

  type bytes = seq<byte>

  function Zeros(n: nat): (r: bytes)
    ensures |r| == n
    ensures forall i | 0 <= i < n :: r[i] == 0
  {
    seq(n, i => 0)
  }

  /** Byte `i` of `s`; a file reads as zero outside its contents. */
  function At(s: bytes, i: int): byte {
    if 0 <= i < |s| then s[i] else 0
  }

  function Min(a: int, b: int): int {
    if a < b then a else b
  }

  function Max(a: int, b: int): int {
    if a < b then b else a
  }

  /** Truncate to, or zero-extend to, exactly `n` bytes. */
  function Resize(s: bytes, n: nat): (r: bytes)
    ensures |r| == n
    ensures forall i | 0 <= i < n :: r[i] == At(s, i)
  {
    if n <= |s| then s[..n] else s + Zeros(n - |s|)
  }

  /** POSIX pwrite on a flat file: zero-fill up to `offset`, overwrite, keep the
      old tail. Writing nothing changes nothing. */
  function Splice(s: bytes, offset: nat, data: bytes): (r: bytes)
    ensures |r| == if data == [] then |s| else Max(|s|, offset + |data|)
    ensures forall i | 0 <= i < |r| ::
              r[i] == if offset <= i < offset + |data| then data[i - offset] else At(s, i)
  {
    if data == [] then s
    else Resize(s, offset) + data + if offset + |data| < |s| then s[offset + |data|..] else []
  }

  /** Writing `a ++ b` in one go is writing `a` and then `b` right behind it. */
  lemma SpliceSplit(s: bytes, offset: nat, a: bytes, b: bytes)
    ensures Splice(Splice(s, offset, a), offset + |a|, b) == Splice(s, offset, a + b)
  {
    if a == [] {
      assert a + b == b;
    } else if b == [] {
      assert a + b == a;
    }
  }

  lemma DivMod(k: nat, j: nat, n: nat)
    requires j < n
    ensures (k * n + j) / n == k && (k * n + j) % n == j
  {
    var p := k * n + j;
    var q, r := p / n, p % n;
    assert (q - k) * n == q * n - k * n == j - r;
    if q != k {
      NonZeroMultiple(q - k, n);
    }
  }

  lemma DivMonotone(a: nat, b: nat, n: nat)
    requires a <= b && n > 0
    ensures a / n <= b / n
  {
    var x, y := a / n, b / n;
    assert a == x * n + a % n && b == y * n + b % n;
    assert (y + 1) * n == y * n + n;
    if x > y {
      MulLe(y + 1, x, n);
    }
  }

  lemma NonZeroMultiple(a: int, n: int)
    requires a != 0 && n > 0
    ensures a * n >= n || a * n <= -n
  {
    if a > 0 {
      MulLe(1, a, n);
    } else {
      MulLe(1, -a, n);
      assert a * n == -((-a) * n);
    }
  }

  lemma {:induction false} MulLe(a: nat, b: nat, n: nat)
    requires a <= b
    ensures a * n <= b * n
    decreases b - a
  {
    if a < b {
      MulLe(a + 1, b, n);
      assert (a + 1) * n == a * n + n;
    }
  }

  lemma SliceOfSlice(t: bytes, a: nat, b: nat, c: nat, d: nat)
    requires a <= c <= d <= b <= |t|
    ensures t[a..b][c - a..d - a] == t[c..d]
  {
    var u := t[a..b];
    var e := c - a;
    assert forall k {:trigger u[e..d - a][k]} | 0 <= k < d - c :: u[e..d - a][k] == u[e + k] == t[c + k];
  }
}
