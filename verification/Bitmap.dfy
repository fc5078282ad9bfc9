/** A growing bitmap, and the range list it prints as. */
module Bitmap {
  import opened Bytes
  import opened Bits

  /** Bit `i` of the bytes is set. */
  predicate Has(bytes: seq<byte>, i: int) {
    0 <= i < 8 * |bytes| && Bit(bytes[i / 8], i % 8)
  }

  /** The set the bytes stand for. */
  function Members(bytes: seq<byte>): set<nat> {
    set i: nat | i < 8 * |bytes| && Has(bytes, i)
  }

  /**
   The bit a number addresses: itself, except that Go's division rounds -7, ..., -1 to byte 0,
   where they address the bits 1 to 7. Smaller numbers address no byte.
   */
  function Slot(bit: int): (i: nat)
    requires bit > -8
    ensures i == bit <==> bit >= 0
  {
    if bit >= 0 then bit else bit + 8
  }

  /** Some number from `a` to `b` addresses bit `i`. */
  predicate Addressed(a: int, i: nat, b: int) {
    a <= i <= b || (1 <= i < 8 && a <= i - 8 <= b)
  }

  /** The bits the numbers from `a` to `b` address. */
  function Interval(a: int, b: int): set<nat> {
    set i: nat | i <= Bytes.Max(7, b) && Addressed(a, i, b)
  }

  /** `1 << j`, for a byte. */
  function Shift(j: nat): (b: byte)
    requires j < 8
    ensures b == Pow2(j)
  {
    Pow2Byte();
    Pow2Grows(j, 7);
    assert Pow2(8) == 2 * Pow2(7);
    Pow2(j)
  }

  /** A byte tested, set and cleared at bit `j`. */
  lemma ByteBits(a: byte, j: nat, i: nat)
    requires i < 8 && j < 8
    ensures AndByte(a, Shift(j)) != 0 <==> Bit(a, j)
    ensures Bit(OrByte(a, Shift(j)), i) <==> Bit(a, i) || i == j
    ensures Bit(AndByte(a, NotByte(Shift(j))), i) <==> Bit(a, i) && i != j
  {
    ShiftBit(j, i);
    BitsOf(a, Shift(j), 8, i);
    BitsOf(Shift(j), Shift(j), 8, i);
    BitsOf(a, NotByte(Shift(j)), 8, i);
    TestBit(a, j);
  }

  lemma TestBit(a: byte, j: nat)
    requires j < 8
    ensures AndByte(a, Shift(j)) != 0 <==> Bit(a, j)
  {
    var x := AndByte(a, Shift(j));
    forall k | 0 <= k < 8
      ensures Bit(x, k) <==> k == j && Bit(a, j)
    {
      BitsOf(a, Shift(j), 8, k);
      ShiftBit(j, k);
    }
    if !Bit(a, j) {
      Pow2Byte();
      NoBits(x, 8);
    }
    ZeroBits(j);
  }

  class Bitmap {
    var bitmap: seq<byte>
    /** The slice is not nil: it was made, or grown. */
    var made: bool

    ghost predicate Valid()
      reads this
    {
      bitmap != [] ==> made
    }

    constructor ()
      ensures Valid() && bitmap == [] && !made && Members(bitmap) == {}
    {
      bitmap, made := [], false;
    }

    /** toGo and And make the slice, an empty one too. */
    constructor Make(bytes: seq<byte>)
      ensures Valid() && bitmap == bytes && made
    {
      bitmap, made := bytes, true;
    }

    /** The number addresses no byte of a slice that is there; beyond the end it does not count. */
    predicate Faults(bit: int)
      reads this
    {
      made && if bitmap == [] then bit < 0 else bit <= -8
    }

    function Max(): int
      reads this
    {
      |bitmap| * 8 - 1
    }

    /** Not `ok`: the Go code indexes outside the slice; it does not look into one that is nil. */
    method Test(bit: int) returns (r: bool, ok: bool)
      requires Valid()
      ensures ok <==> !Faults(bit)
      ensures r <==> bit > -8 && Slot(bit) in Members(bitmap)
    {
      if bit > Max() || !made {
        return false, true;
      }
      if bit <= -8 || bitmap == [] {
        return false, false;
      }
      var i := Slot(bit);
      ByteBits(bitmap[i / 8], i % 8, 0);
      return AndByte(bitmap[i / 8], Shift(i % 8)) != 0, true;
    }

    method Set(bit: int) returns (ok: bool)
      requires Valid()
      modifies this
      ensures Valid() && made == (old(made) || ok)
      ensures ok <==> bit > -8
      ensures ok ==> Members(bitmap) == old(Members(bitmap)) + {Slot(bit)}
      ensures ok ==> |bitmap| == if Slot(bit) / 8 < |old(bitmap)| then |old(bitmap)| else Slot(bit) / 8 + 1
      ensures !ok ==> bitmap == old(bitmap)
    {
      if bit <= -8 {
        return false;
      }
      var slot := Slot(bit);
      var ibit := slot / 8;
      if ibit + 1 > |bitmap| {
        bitmap, made := bitmap + seq(ibit + 1 - |bitmap|, _ => 0), true;
      }
      assert Members(bitmap) == old(Members(bitmap)) by {
        ZeroesAdded(old(bitmap), bitmap);
      }
      ghost var grown := bitmap;
      bitmap := bitmap[ibit := OrByte(bitmap[ibit], Shift(slot % 8))];
      assert Members(bitmap) == Members(grown) + {slot} by {
        forall i: nat
          ensures Has(bitmap, i) <==> Has(grown, i) || i == slot
        {
          if i / 8 == ibit {
            ByteBits(grown[ibit], slot % 8, i % 8);
          }
        }
      }
      return true;
    }

    method SetRange(start: int, end: int) returns (ok: bool)
      requires Valid()
      modifies this
      ensures Valid() && made == (old(made) || (ok && start <= end))
      ensures ok <==> start > -8 || start > end
      ensures ok ==> Members(bitmap) == old(Members(bitmap)) + Interval(start, end)
      ensures !ok ==> bitmap == old(bitmap)
    {
      var i := start;
      while i <= end
        invariant Valid() && made == (old(made) || i > start)
        invariant start <= i && (i <= end + 1 || i == start) && (i > start ==> start > -8)
        invariant i == start ==> bitmap == old(bitmap)
        invariant Members(bitmap) == old(Members(bitmap)) + Interval(start, i - 1)
      {
        var done := Set(i);
        if !done {
          return false;
        }
        NextNumber(start, i);
        i := i + 1;
      }
      NoNumbers(start, end, i);
      return true;
    }

    method Clear(bit: int) returns (ok: bool)
      requires Valid()
      modifies this`bitmap
      ensures Valid()
      ensures ok <==> !old(Faults(bit))
      ensures Members(bitmap) == if bit > -8 then old(Members(bitmap)) - {Slot(bit)} else old(Members(bitmap))
      ensures |bitmap| == |old(bitmap)| && (!ok ==> bitmap == old(bitmap))
    {
      if bit > Max() || !made {
        return true;
      }
      if bit <= -8 || bitmap == [] {
        return false;
      }
      var slot := Slot(bit);
      var ibit := slot / 8;
      bitmap := bitmap[ibit := AndByte(bitmap[ibit], NotByte(Shift(slot % 8)))];
      forall i: nat
        ensures Has(bitmap, i) <==> Has(old(bitmap), i) && i != slot
      {
        if i / 8 == ibit {
          ByteBits(old(bitmap)[ibit], slot % 8, i % 8);
        }
      }
      return true;
    }

    method ClearRange(start: int, end: int) returns (ok: bool)
      requires Valid()
      modifies this`bitmap
      ensures Valid()
      ensures ok <==> start > end || !old(Faults(start))
      ensures ok ==> Members(bitmap) == old(Members(bitmap)) - Interval(start, end)
      ensures |bitmap| == |old(bitmap)| && (!ok ==> bitmap == old(bitmap))
    {
      var i := start;
      while i <= end
        invariant Valid() && start <= i && (i <= end + 1 || i == start) && |bitmap| == |old(bitmap)|
        invariant i > start ==> !old(Faults(start))
        invariant i == start ==> bitmap == old(bitmap)
        invariant Members(bitmap) == old(Members(bitmap)) - Interval(start, i - 1)
      {
        var done := Clear(i);
        if !done {
          return false;
        }
        if i > -8 {
          NextNumber(start, i);
        }
        i := i + 1;
      }
      NoNumbers(start, end, i);
      return true;
    }

    method IsEmpty() returns (r: bool)
      ensures r <==> Members(bitmap) == {}
    {
      for i := 0 to |bitmap|
        invariant forall k :: 0 <= k < i ==> bitmap[k] == 0
      {
        if bitmap[i] != 0 {
          SomeBit(bitmap, i);
          return false;
        }
      }
      NoMembers(bitmap);
      return true;
    }
  }

  lemma NextNumber(start: int, i: int)
    requires start <= i && i > -8
    ensures Interval(start, i) == Interval(start, i - 1) + {Slot(i)}
  {
    forall x: nat
      ensures x in Interval(start, i) <==> x in Interval(start, i - 1) || x == Slot(i)
    {
      assert Addressed(start, x, i) <==> Addressed(start, x, i - 1) || x == Slot(i);
    }
  }

  lemma NoNumbers(start: int, end: int, i: int)
    requires i > end && (i == start || i == end + 1)
    ensures Interval(start, i - 1) == Interval(start, end)
  {
  }

  /** Zero bytes hold no bits. */
  lemma ZeroesAdded(a: seq<byte>, b: seq<byte>)
    requires a <= b && forall k :: |a| <= k < |b| ==> b[k] == 0
    ensures Members(a) == Members(b)
  {
    forall i: nat
      ensures Has(a, i) <==> Has(b, i)
    {
      if i < 8 * |a| {
        assert a[i / 8] == b[i / 8];
      } else {
        ZeroBits(i % 8);
      }
    }
  }

  lemma NoMembers(a: seq<byte>)
    requires forall k :: 0 <= k < |a| ==> a[k] == 0
    ensures Members(a) == {}
  {
    ZeroesAdded([], a);
  }

  lemma SomeBit(a: seq<byte>, k: nat)
    requires k < |a| && a[k] != 0
    ensures Members(a) != {}
  {
    Pow2Byte();
    if forall i :: 0 <= i < 8 ==> !Bit(a[k], i) {
      NoBits(a[k], 8);
      assert false;
    }
    var i :| 0 <= i < 8 && Bit(a[k], i);
    assert Has(a, 8 * k + i);
    assert 8 * k + i in Members(a);
  }

  /** Bitmap.And: as long as the longer one, the bits of both. */
  method Intersect(a: seq<byte>, b: seq<byte>) returns (c: seq<byte>)
    ensures |c| == Bytes.Max(|a|, |b|) && Members(c) == Members(a) * Members(b)
  {
    var longest, shortest;
    if |a| > |b| {
      longest, shortest := |a|, |b|;
    } else {
      longest, shortest := |b|, |a|;
    }
    c := seq(longest, _ => 0);
    for i := 0 to shortest
      invariant |c| == longest
      invariant forall k :: 0 <= k < i ==> c[k] == AndByte(a[k], b[k])
      invariant forall k :: i <= k < longest ==> c[k] == 0
    {
      c := c[i := AndByte(a[i], b[i])];
    }
    forall i: nat
      ensures Has(c, i) <==> Has(a, i) && Has(b, i)
    {
      if i / 8 < shortest {
        BitsOf(a[i / 8], b[i / 8], 8, i % 8);
      } else {
        ZeroBits(i % 8);
      }
    }
  }
}
