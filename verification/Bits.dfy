/** Bitwise operations on naturals, bit by bit from the lowest. */
module Bits {
  import opened Bytes

  function Pow2(k: nat): (p: nat)
    ensures p > 0
  {
    if k == 0 then 1 else 2 * Pow2(k - 1)
  }

  predicate Bit(x: nat, i: nat) {
    if i == 0 then x % 2 == 1 else Bit(x / 2, i - 1)
  }

  function One(b: bool): nat {
    if b then 1 else 0
  }

  /** `a & b` on `k` bits. */
  function And(a: nat, b: nat, k: nat): (r: nat) {
    if k == 0 then 0 else 2 * And(a / 2, b / 2, k - 1) + One(a % 2 == 1 && b % 2 == 1)
  }

  /** `a | b` on `k` bits. */
  function Or(a: nat, b: nat, k: nat): (r: nat) {
    if k == 0 then 0 else 2 * Or(a / 2, b / 2, k - 1) + One(a % 2 == 1 || b % 2 == 1)
  }

  /** `^a` on `k` bits. */
  function Not(a: nat, k: nat): (r: nat) {
    if k == 0 then 0 else 2 * Not(a / 2, k - 1) + One(a % 2 == 0)
  }

  lemma {:induction false} Bounds(a: nat, b: nat, k: nat)
    ensures And(a, b, k) < Pow2(k) && Or(a, b, k) < Pow2(k) && Not(a, k) < Pow2(k)
  {
    if k > 0 {
      Bounds(a / 2, b / 2, k - 1);
    }
  }

  lemma {:induction false} NotIs(a: nat, k: nat)
    requires a < Pow2(k)
    ensures Not(a, k) == Pow2(k) - 1 - a
  {
    if k > 0 {
      NotIs(a / 2, k - 1);
    }
  }

  /** The bits outside a mask, added to the bits inside it. */
  lemma {:induction false} OrNot(a: nat, m: nat, k: nat)
    ensures Or(a, Not(m, k), k) == And(a, m, k) + Not(m, k)
  {
    if k > 0 {
      OrNot(a / 2, m / 2, k - 1);
      var n := Not(m, k);
      assert n / 2 == Not(m / 2, k - 1) && n % 2 == One(m % 2 == 0);
    }
  }

  /** The bits of the results. */
  lemma BitsOf(a: nat, b: nat, k: nat, i: nat)
    ensures Bit(And(a, b, k), i) <==> i < k && Bit(a, i) && Bit(b, i)
    ensures Bit(Or(a, b, k), i) <==> i < k && (Bit(a, i) || Bit(b, i))
    ensures Bit(Not(a, k), i) <==> i < k && !Bit(a, i)
  {
    BitOfAnd(a, b, k, i);
    BitOfOr(a, b, k, i);
    BitOfNot(a, k, i);
  }

  lemma {:induction false} BitOfAnd(a: nat, b: nat, k: nat, i: nat)
    ensures Bit(And(a, b, k), i) <==> i < k && Bit(a, i) && Bit(b, i)
    decreases k
  {
    if k == 0 {
      ZeroBits(i);
    } else if i > 0 {
      BitOfAnd(a / 2, b / 2, k - 1, i - 1);
      assert And(a, b, k) / 2 == And(a / 2, b / 2, k - 1);
    }
  }

  lemma {:induction false} BitOfOr(a: nat, b: nat, k: nat, i: nat)
    ensures Bit(Or(a, b, k), i) <==> i < k && (Bit(a, i) || Bit(b, i))
    decreases k
  {
    if k == 0 {
      ZeroBits(i);
    } else if i > 0 {
      BitOfOr(a / 2, b / 2, k - 1, i - 1);
      assert Or(a, b, k) / 2 == Or(a / 2, b / 2, k - 1);
    }
  }

  lemma {:induction false} BitOfNot(a: nat, k: nat, i: nat)
    ensures Bit(Not(a, k), i) <==> i < k && !Bit(a, i)
    decreases k
  {
    if k == 0 {
      ZeroBits(i);
    } else if i > 0 {
      BitOfNot(a / 2, k - 1, i - 1);
      assert Not(a, k) / 2 == Not(a / 2, k - 1);
    }
  }

  lemma {:induction false} ZeroBits(i: nat)
    ensures !Bit(0, i)
  {
    if i > 0 {
      ZeroBits(i - 1);
    }
  }

  /** `1 << j` has one bit. */
  lemma {:induction false} ShiftBit(j: nat, i: nat)
    ensures Bit(Pow2(j), i) <==> i == j
  {
    if j == 0 {
      if i > 0 {
        ZeroBits(i - 1);
      }
    } else if i > 0 {
      ShiftBit(j - 1, i - 1);
      assert Pow2(j) / 2 == Pow2(j - 1);
    }
  }

  /** A number without bits is zero. */
  lemma {:induction false} NoBits(x: nat, k: nat)
    requires x < Pow2(k) && forall i :: 0 <= i < k ==> !Bit(x, i)
    ensures x == 0
  {
    if k > 0 {
      assert !Bit(x, 0);
      forall i | 0 <= i < k - 1
        ensures !Bit(x / 2, i)
      {
        assert !Bit(x, i + 1);
      }
      NoBits(x / 2, k - 1);
    }
  }

  /** A mask of `k - j` leading ones clears the low `j` bits. */
  lemma {:induction false} AndHigh(a: nat, k: nat, j: nat)
    requires j <= k && a < Pow2(k) && Pow2(j) <= Pow2(k)
    ensures And(a, Pow2(k) - Pow2(j), k) == a - a % Pow2(j)
  {
    if k > 0 {
      var m := Pow2(k) - Pow2(j);
      if j > 0 {
        assert m / 2 == Pow2(k - 1) - Pow2(j - 1) && m % 2 == 0;
        AndHigh(a / 2, k - 1, j - 1);
        HalfMod(a, Pow2(j - 1));
      } else {
        assert m == Pow2(k) - 1 && m / 2 == Pow2(k - 1) - 1 && m % 2 == 1;
        AndHigh(a / 2, k - 1, 0);
      }
    }
  }

  lemma HalfMod(a: nat, p: nat)
    requires p > 0
    ensures a % (2 * p) == 2 * (a / 2 % p) + a % 2
  {
    var q, r := a / 2 / p, a / 2 % p;
    assert a / 2 == q * p + r;
    assert a == q * (2 * p) + (2 * r + a % 2);
    ModOf(a, 2 * p, q, 2 * r + a % 2);
  }

  lemma {:induction false} Pow2Grows(j: nat, k: nat)
    requires j <= k
    ensures Pow2(j) <= Pow2(k)
  {
    if j < k {
      Pow2Grows(j, k - 1);
    }
  }

  lemma {:induction false} Pow2Adds(j: nat, k: nat)
    ensures Pow2(j + k) == Pow2(j) * Pow2(k)
  {
    if k > 0 {
      Pow2Adds(j, k - 1);
      assert Pow2(j + k) == 2 * (Pow2(j) * Pow2(k - 1)) == Pow2(j) * (2 * Pow2(k - 1));
    }
  }

  lemma Pow2Byte()
    ensures Pow2(8) == 256
  {
    assert Pow2(4) == 16;
    assert Pow2(6) == 64;
  }

  // ---------- bytes ----------

  function AndByte(a: byte, b: byte): byte {
    Bounds(a, b, 8);
    Pow2Byte();
    And(a, b, 8)
  }

  function OrByte(a: byte, b: byte): byte {
    Bounds(a, b, 8);
    Pow2Byte();
    Or(a, b, 8)
  }

  function NotByte(a: byte): byte {
    Bounds(a, a, 8);
    Pow2Byte();
    Not(a, 8)
  }
}
