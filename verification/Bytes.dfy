/** Bytes and big-endian integers, as Go's encoding/binary and math/big lay them out. */
module Bytes {

  type byte = b: int | 0 <= b < 256

  datatype Option<+T> = None | Some(value: T)

  function Min(a: int, b: int): int {
    if a <= b then a else b
  }

  function Max(a: int, b: int): int {
    if a >= b then a else b
  }

  function Pow256(n: nat): (p: nat)
    ensures p > 0
  {
    if n == 0 then 1 else 256 * Pow256(n - 1)
  }

  /** The number whose big-endian digits are `s`. */
  function FromBE(s: seq<byte>): nat {
    if s == [] then 0 else FromBE(s[..|s| - 1]) * 256 + s[|s| - 1]
  }

  /** The low `n` bytes of `x`, most significant first: a Go conversion to a narrower type truncates. */
  function ToBE(x: nat, n: nat): (s: seq<byte>)
    ensures |s| == n
  {
    if n == 0 then [] else ToBE(x / 256, n - 1) + [x % 256]
  }

  /** Storing keeps the value modulo the width of the field. */
  lemma {:induction false} StoreLoad(x: nat, n: nat)
    ensures FromBE(ToBE(x, n)) == x % Pow256(n)
  {
    if n > 0 {
      StoreLoad(x / 256, n - 1);
      var s := ToBE(x, n);
      assert s[..n - 1] == ToBE(x / 256, n - 1);
      SplitMod(x, Pow256(n - 1));
    }
  }

  lemma SplitMod(x: nat, p: nat)
    requires p > 0
    ensures x % (256 * p) == (x / 256 % p) * 256 + x % 256
  {
    var q, r := x / 256 / p, x / 256 % p;
    assert x / 256 == q * p + r;
    var low := r * 256 + x % 256;
    assert x == q * (256 * p) + low;
    ModOf(x, 256 * p, q, low);
  }

  lemma MulAtLeast(d: int, m: int)
    requires d >= 1 && m >= 0
    ensures d * m >= m
  {
  }

  lemma ModOf(x: int, m: int, q: int, r: int)
    requires 0 <= r < m && x == q * m + r
    ensures x % m == r && x / m == q
  {
    var d := q - x / m;
    assert d * m == x % m - r by {
      assert x == (x / m) * m + x % m;
      assert d * m == q * m - (x / m) * m;
    }
    if d >= 1 {
      MulAtLeast(d, m);
    } else if d <= -1 {
      MulAtLeast(-d, m);
    }
  }

  lemma {:induction false} FromBEBound(s: seq<byte>)
    ensures FromBE(s) < Pow256(|s|)
  {
    if s != [] {
      FromBEBound(s[..|s| - 1]);
    }
  }

  /** Loading and storing again gives the same bytes. */
  lemma {:induction false} LoadStore(s: seq<byte>)
    ensures ToBE(FromBE(s), |s|) == s
  {
    if s != [] {
      LoadStore(s[..|s| - 1]);
      var x := FromBE(s[..|s| - 1]);
      assert FromBE(s) / 256 == x && FromBE(s) % 256 == s[|s| - 1];
      assert s == s[..|s| - 1] + [s[|s| - 1]];
    }
  }

  lemma Pow256Values()
    ensures Pow256(4) == 0x1_0000_0000 && Pow256(8) == 0x1_0000_0000_0000_0000
  {
    assert Pow256(1) == 256;
    assert Pow256(2) == 0x1_0000;
    assert Pow256(3) == 0x100_0000;
    assert Pow256(4) == 0x1_0000_0000;
    assert Pow256(5) == 0x100_0000_0000;
    assert Pow256(6) == 0x1_0000_0000_0000;
    assert Pow256(7) == 0x100_0000_0000_0000;
  }
}
