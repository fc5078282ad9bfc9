/** IP addresses as byte sequences and as integers, and the range of a network. */
module IpAddress {
  import opened Bytes
  import opened Bits

  type IP = seq<byte>

  datatype IPNet = IPNet(ip: IP, mask: seq<byte>)

  function Zeros(n: nat): (s: seq<byte>)
    ensures |s| == n
  {
    seq(n, _ => 0)
  }

  /** An IPv4 address in its 16-byte form. */
  predicate Mapped(ip: IP) {
    |ip| == 16 && ip[..10] == Zeros(10) && ip[10] == 255 && ip[11] == 255
  }

  function To4(ip: IP): Option<IP> {
    if |ip| == 4 then Some(ip) else if Mapped(ip) then Some(ip[12..]) else None
  }

  function To16(ip: IP): Option<IP> {
    if |ip| == 4 then Some(Zeros(10) + [255, 255] + ip) else if |ip| == 16 then Some(ip) else None
  }

  /** The bytes an operation works on: 4 when it can be, else 16. */
  function Bare(ip: IP): Option<IP> {
    if To4(ip).Some? then To4(ip) else To16(ip)
  }

  /** What the printed form of an address tells: the two forms of an IPv4 address print alike, all else prints apart. */
  function Text(ip: IP): IP {
    if To4(ip).Some? then To4(ip).value else ip
  }

  /** ipToBigInt; nothing for a length that is no address. */
  function ToInt(ip: IP): Option<nat> {
    if Bare(ip).Some? then Some(FromBE(Bare(ip).value)) else None
  }

  /** The bytes of a big integer: as many as it needs, so no leading zero. */
  function IntBytes(v: nat): (s: seq<byte>)
    ensures s != [] ==> s[0] != 0
  {
    if v == 0 then [] else IntBytes(v / 256) + [v % 256]
  }

  /** bigIntToIP. */
  function FromInt(v: nat): IP {
    IntBytes(v)
  }

  lemma {:induction false} BytesOfInt(v: nat)
    ensures FromBE(IntBytes(v)) == v
  {
    if v > 0 {
      BytesOfInt(v / 256);
      var s := IntBytes(v);
      assert s[..|s| - 1] == IntBytes(v / 256);
    }
  }

  lemma {:induction false} IntOfBytes(s: seq<byte>)
    requires s != [] ==> s[0] != 0
    ensures IntBytes(FromBE(s)) == s
  {
    if s != [] {
      var init := s[..|s| - 1];
      IntOfBytes(init);
      assert FromBE(s) / 256 == FromBE(init) && FromBE(s) % 256 == s[|s| - 1];
      assert s == init + [s[|s| - 1]];
    }
  }

  /** Bytes to integer and back gives the bytes exactly when they do not start with a zero. */
  lemma ConversionRoundTrip(ip: IP)
    requires ToInt(ip).Some?
    ensures FromInt(ToInt(ip).value) == Bare(ip).value <==> Bare(ip).value[0] != 0
  {
    var t := Bare(ip).value;
    if t[0] != 0 {
      IntOfBytes(t);
    }
  }

  /** An integer prints as itself: its bytes are not the 16-byte form of an IPv4 address. */
  lemma TextOfInt(v: nat)
    ensures Text(FromInt(v)) == FromInt(v)
  {
    assert Mapped(IntBytes(v)) ==> IntBytes(v)[0] == Zeros(10)[0];
  }

  /** Different integers print differently. */
  lemma TextApart(v: nat, w: nat)
    ensures Text(FromInt(v)) == Text(FromInt(w)) <==> v == w
  {
    TextOfInt(v);
    TextOfInt(w);
    BytesOfInt(v);
    BytesOfInt(w);
  }

  /** An address prints as its integer does exactly when it does not start with a zero byte. */
  lemma TextAgrees(ip: IP)
    requires ToInt(ip).Some?
    ensures Text(FromInt(ToInt(ip).value)) == Text(ip) <==> Bare(ip).value[0] != 0
  {
    TextOfInt(ToInt(ip).value);
    ConversionRoundTrip(ip);
  }

  // ---------- networks ----------

  /** The address is one, with a mask of its length. */
  predicate WellFormed(net: IPNet) {
    Bare(net.ip).Some? && |net.mask| == |Bare(net.ip).value|
  }

  /** The two ends of a network: host bits cleared, host bits set. */
  function Low(a: seq<byte>, mask: seq<byte>): (s: seq<byte>)
    requires |mask| == |a|
    ensures |s| == |a|
  {
    if a == [] then [] else
      Low(a[..|a| - 1], mask[..|a| - 1]) + [AndByte(a[|a| - 1], mask[|a| - 1])]
  }

  function High(a: seq<byte>, mask: seq<byte>): (s: seq<byte>)
    requires |mask| == |a|
    ensures |s| == |a|
  {
    if a == [] then [] else
      High(a[..|a| - 1], mask[..|a| - 1]) + [OrByte(a[|a| - 1], NotByte(mask[|a| - 1]))]
  }

  /** The host part of a mask, as an integer. */
  function HostSpan(mask: seq<byte>): nat {
    if mask == [] then 0 else HostSpan(mask[..|mask| - 1]) * 256 + (255 - mask[|mask| - 1])
  }

  lemma ByteEnds(a: byte, m: byte)
    ensures OrByte(a, NotByte(m)) == AndByte(a, m) + (255 - m)
  {
    Pow2Byte();
    OrNot(a, m, 8);
    NotIs(m, 8);
  }

  function Ones(n: nat): (s: seq<byte>)
    ensures |s| == n
  {
    seq(n, _ => 255)
  }

  /** IP.Mask: nothing for a mask of another length, unless it is an IPv4 mask in 16 bytes. */
  function Masked(a: seq<byte>, mask: seq<byte>): seq<byte> {
    if |mask| == |a| then Low(a, mask)
    else if |a| == 4 && |mask| == 16 && mask[..12] == Ones(12) then Low(a, mask[12..])
    else []
  }

  /** The ends of a network; no address at all; or a mask that is indexed beyond its end. */
  datatype Ends = Ends(first: IP, last: IP) | NoAddress | Panics

  /** NetworkRange: it looks at as many bytes of the mask as the address has. */
  method NetworkRange(net: IPNet) returns (r: Ends)
    ensures r.NoAddress? <==> Bare(net.ip).None?
    ensures r.Panics? <==> Bare(net.ip).Some? && |net.mask| < |Bare(net.ip).value|
    ensures r.Ends? ==>
      var a := Bare(net.ip).value;
      && r.first == Masked(a, net.mask) && r.last == High(a, net.mask[..|a|])
      && FromBE(r.last) == FromBE(Low(a, net.mask[..|a|])) + HostSpan(net.mask[..|a|])
  {
    if Bare(net.ip).None? {
      return NoAddress;
    }
    var netIP := Bare(net.ip).value;
    var last: IP := [];
    for i := 0 to |netIP|
      invariant i <= |net.mask| && last == High(netIP[..i], net.mask[..i])
    {
      if i >= |net.mask| {
        return Panics;
      }
      HighSnoc(netIP, net.mask, i);
      last := last + [OrByte(netIP[i], NotByte(net.mask[i]))];
    }
    assert netIP[..|netIP|] == netIP;
    LastMinusFirst(netIP, net.mask[..|netIP|]);
    return Ends(Masked(netIP, net.mask), last);
  }

  lemma HighSnoc(a: seq<byte>, mask: seq<byte>, i: nat)
    requires i < |a| && i < |mask|
    ensures High(a[..i + 1], mask[..i + 1]) == High(a[..i], mask[..i]) + [OrByte(a[i], NotByte(mask[i]))]
  {
    assert a[..i + 1][..i] == a[..i] && mask[..i + 1][..i] == mask[..i];
  }

  /** From the first to the last address of a network it is the mask's complement. */
  lemma {:induction false} LastMinusFirst(a: seq<byte>, mask: seq<byte>)
    requires |mask| == |a|
    ensures FromBE(High(a, mask)) == FromBE(Low(a, mask)) + HostSpan(mask)
  {
    if a != [] {
      var n := |a| - 1;
      LastMinusFirst(a[..n], mask[..n]);
      ByteEnds(a[n], mask[n]);
      Appended(Low(a[..n], mask[..n]), High(a[..n], mask[..n]), HostSpan(mask[..n]),
               AndByte(a[n], mask[n]), OrByte(a[n], NotByte(mask[n])), 255 - mask[n]);
    }
  }

  /** One more byte at both ends. */
  lemma Appended(low: seq<byte>, high: seq<byte>, span: nat, lowByte: byte, highByte: byte, spanByte: nat)
    requires FromBE(high) == FromBE(low) + span && highByte == lowByte + spanByte
    ensures FromBE(high + [highByte]) == FromBE(low + [lowByte]) + (span * 256 + spanByte)
  {
    assert (low + [lowByte])[..|low|] == low && (high + [highByte])[..|high|] == high;
  }

  /** The integers of the two ends; none where the conversion has no address to convert, or the mask is too short. */
  function EndInts(net: IPNet): (r: Option<(nat, nat)>)
    ensures r.Some? <==> WellFormed(net) || (To4(net.ip).Some? && |net.mask| == 16 && net.mask[..12] == Ones(12))
  {
    if Bare(net.ip).None? || |net.mask| < |Bare(net.ip).value| then None
    else
      var a := Bare(net.ip).value;
      if Masked(a, net.mask) == [] then None
      else Some((ToInt(Masked(a, net.mask)).value, ToInt(High(a, net.mask[..|a|])).value))
  }

  lemma MaskedToInt(a: seq<byte>, mask: seq<byte>)
    requires |a| == 4 || |a| == 16
    ensures ToInt(Masked(a, mask)).None? <==> Masked(a, mask) == []
  {
  }

  /** NetworkRange, then the integers of its answers. */
  method NetworkEnds(net: IPNet) returns (r: Option<(nat, nat)>)
    ensures r == EndInts(net)
  {
    var ends := NetworkRange(net);
    if !ends.Ends? {
      return None;
    }
    MaskedToInt(Bare(net.ip).value, net.mask);
    if ToInt(ends.first).None? {
      return None;
    }
    return Some((ToInt(ends.first).value, ToInt(ends.last).value));
  }

  /** The integer of an address of 4 or 16 bytes is that of its bytes, unless they are the 16-byte form of an IPv4 address. */
  lemma {:induction false} ToIntOf(s: IP)
    requires |s| == 4 || |s| == 16
    ensures ToInt(s) == Some(FromBE(s)) <==> !Mapped(s)
  {
    if Mapped(s) {
      assert s == s[..12] + s[12..];
      Above(s[..12], s[12..]);
      assert s[..12][..11] == s[..11] && s[..12][11] == 255;
    }
  }

  lemma {:induction false} Above(high: seq<byte>, low: seq<byte>)
    requires FromBE(high) > 0
    ensures FromBE(high + low) > FromBE(low)
  {
    if low == [] {
      assert high + low == high;
    } else {
      var n := |low| - 1;
      Above(high, low[..n]);
      assert high + low == (high + low[..n]) + [low[n]];
    }
  }

  /**
   Of a network with a mask of the length of its address the ends are its first and last address exactly when
   neither is the 16-byte form of an IPv4 address, which the conversion takes for the IPv4 address.
   */
  lemma EndsExact(net: IPNet)
    requires WellFormed(net)
    ensures var a := Bare(net.ip).value;
      var first := FromBE(Low(a, net.mask));
      && EndInts(net).Some?
      && (EndInts(net) == Some((first, first + HostSpan(net.mask))) <==> !Mapped(Low(a, net.mask)) && !Mapped(High(a, net.mask)))
  {
    var a := Bare(net.ip).value;
    assert net.mask[..|a|] == net.mask;
    LastMinusFirst(a, net.mask);
    ToIntOf(Low(a, net.mask));
    ToIntOf(High(a, net.mask));
  }

  lemma {:induction false} HighAt(a: seq<byte>, mask: seq<byte>, i: nat)
    requires |mask| == |a| && i < |a|
    ensures High(a, mask)[i] == OrByte(a[i], NotByte(mask[i]))
    ensures Low(a, mask)[i] == AndByte(a[i], mask[i])
  {
    if i < |a| - 1 {
      HighAt(a[..|a| - 1], mask[..|a| - 1], i);
    }
  }

  /** The network ::/80. */
  predicate Eighty(net: IPNet) {
    net.ip == Zeros(16) && net.mask == PrefixMask(80, 16)
  }

  /** Byte `i` of its ends: nothing set in the first, the last 48 bits set in the last. */
  lemma EightyAt(net: IPNet, i: nat)
    requires Eighty(net) && i < 16
    ensures Low(net.ip, net.mask)[i] == 0
    ensures High(net.ip, net.mask)[i] == if i < 10 then 0 else 255
  {
    HighAt(net.ip, net.mask, i);
    WholeByte(0);
    ByteEnds(0, net.mask[i]);
  }

  lemma OnesInt()
    ensures FromBE(Ones(4)) == 0xFFFF_FFFF
  {
    assert Ones(4)[..3] == Ones(3) && Ones(3)[..2] == Ones(2) && Ones(2)[..1] == Ones(1) && Ones(1)[..0] == [];
    assert FromBE(Ones(1)) == 255;
    assert FromBE(Ones(2)) == 0xFFFF;
    assert FromBE(Ones(3)) == 0xFF_FFFF;
  }

  lemma EightyEnds(net: IPNet)
    requires Eighty(net)
    ensures Low(net.ip, net.mask) == Zeros(16) && High(net.ip, net.mask) == Zeros(10) + Ones(6)
  {
    forall i | 0 <= i < 16
      ensures Low(net.ip, net.mask)[i] == 0
      ensures High(net.ip, net.mask)[i] == if i < 10 then 0 else 255
    {
      EightyAt(net, i);
    }
  }

  lemma FoldedInts()
    ensures !Mapped(Zeros(16)) && ToInt(Zeros(16)) == Some(0)
    ensures ToInt(Zeros(10) + Ones(6)) == Some(0xFFFF_FFFF)
  {
    assert Zeros(16)[10] == 0;
    ZerosInt(16);
    var high := Zeros(10) + Ones(6);
    assert high[..10] == Zeros(10) && high[12..] == Ones(4);
    OnesInt();
  }

  /** The last address of ::/80 is ::ffff:255.255.255.255, and the allocator takes its integer for that of 255.255.255.255. */
  lemma EightyFolds(net: IPNet)
    requires Eighty(net)
    ensures EndInts(net) == Some((0, 0xFFFF_FFFF)) && HostSpan(net.mask) == Pow2(48) - 1
  {
    EightyEnds(net);
    FoldedInts();
    assert net.mask[..16] == net.mask;
    PrefixSpan(80, 16);
  }

  lemma {:induction false} ZerosInt(n: nat)
    ensures FromBE(Zeros(n)) == 0
  {
    if n > 0 {
      ZerosInt(n - 1);
      assert Zeros(n)[..n - 1] == Zeros(n - 1);
    }
  }

  /** Byte `i` of the mask of an /n prefix. */
  function PrefixByte(n: nat, i: nat): byte {
    if n >= 8 * i + 8 then 255 else if n <= 8 * i then 0
    else Pow2Byte(); Pow2Grows(8 * i + 8 - n, 8); 256 - Pow2(8 * i + 8 - n)
  }

  /** The mask of an /n prefix of `w` bytes. */
  function PrefixMask(n: nat, w: nat): (s: seq<byte>)
    ensures |s| == w
  {
    seq(w, i requires 0 <= i < w => PrefixByte(n, i))
  }

  lemma MultipleMod(x: nat, q: nat, p: nat, b: nat)
    requires p > 0
    ensures (x * (q * p) + b) % p == b % p
  {
    assert x * (q * p) + b == (x * q + b / p) * p + b % p;
    ModOf(x * (q * p) + b, p, x * q + b / p, b % p);
  }

  lemma ModSplit(whole: nat, x: nat, b: byte, k: nat)
    requires k <= 8 && whole == x * 256 + b
    ensures whole % Pow2(k) == b % Pow2(k)
  {
    Pow2Byte();
    Pow2Adds(8 - k, k);
    MultipleMod(x, Pow2(8 - k), Pow2(k), b);
  }

  lemma LowByte(b: byte, k: nat)
    requires k <= 8
    ensures Pow2(k) <= 256 && (k > 0 ==> AndByte(b, 256 - Pow2(k)) == b - b % Pow2(k))
  {
    Pow2Byte();
    Pow2Grows(k, 8);
    AndHigh(b, 8, k);
  }

  lemma WholeByte(b: byte)
    ensures AndByte(b, 255) == b && AndByte(b, 0) == 0
  {
    Pow2Byte();
    AndHigh(b, 8, 0);
    LowByte(b, 8);
  }

  lemma PrefixInit(n: nat, w: nat)
    requires w > 0
    ensures PrefixMask(n, w)[..w - 1] == PrefixMask(n, w - 1) && PrefixMask(n, w)[w - 1] == PrefixByte(n, w - 1)
  {
  }

  /** The host part of the mask of an /n prefix spans all but one of its 2^(8w - n) addresses. */
  lemma {:induction false} PrefixSpan(n: nat, w: nat)
    requires n <= 8 * w
    ensures HostSpan(PrefixMask(n, w)) == Pow2(8 * w - n) - 1
  {
    if w > 0 {
      PrefixInit(n, w);
      Pow2Byte();
      if n <= 8 * w - 8 {
        PrefixSpan(n, w - 1);
        Pow2Adds(8 * w - 8 - n, 8);
      } else {
        SpanOfOnes(n, w - 1);
      }
    }
  }

  /** No host bits within the prefix. */
  lemma {:induction false} SpanOfOnes(n: nat, w: nat)
    requires n >= 8 * w
    ensures HostSpan(PrefixMask(n, w)) == 0
  {
    if w > 0 {
      PrefixInit(n, w);
      SpanOfOnes(n, w - 1);
    }
  }

  lemma {:induction false} LowOfOnes(a: seq<byte>, n: nat)
    requires n >= 8 * |a|
    ensures Low(a, PrefixMask(n, |a|)) == a
  {
    if a != [] {
      var w := |a|;
      PrefixInit(n, w);
      LowOfOnes(a[..w - 1], n);
      WholeByte(a[w - 1]);
      assert a == a[..w - 1] + [a[w - 1]];
    }
  }

  lemma LowInit(a: seq<byte>, n: nat)
    requires a != []
    ensures var w := |a|;
      FromBE(Low(a, PrefixMask(n, w))) ==
        FromBE(Low(a[..w - 1], PrefixMask(n, w - 1))) * 256 + AndByte(a[w - 1], PrefixByte(n, w - 1))
  {
    var w := |a|;
    PrefixInit(n, w);
    var low := Low(a, PrefixMask(n, w));
    assert low[..w - 1] == Low(a[..w - 1], PrefixMask(n, w - 1));
  }

  /** The prefix ends within the last byte. */
  lemma PrefixLowHere(a: seq<byte>, n: nat, k: nat)
    requires a != [] && k < 8 && n + k == 8 * |a|
    ensures FromBE(Low(a, PrefixMask(n, |a|))) == FromBE(a) - FromBE(a) % Pow2(k)
  {
    var w := |a|;
    var x, b := FromBE(a[..w - 1]), a[w - 1];
    LowInit(a, n);
    LowOfOnes(a[..w - 1], n);
    LowByteHere(b, n, w - 1, k);
    ModSplit(FromBE(a), x, b, k);
  }

  lemma LowByteHere(b: byte, n: nat, i: nat, k: nat)
    requires k < 8 && n + k == 8 * i + 8
    ensures AndByte(b, PrefixByte(n, i)) == b - b % Pow2(k)
  {
    if k == 0 {
      WholeByte(b);
    } else {
      LowByte(b, k);
    }
  }

  /** The prefix ends before the last byte. */
  lemma PrefixLowBefore(a: seq<byte>, n: nat, k: nat)
    requires a != [] && n + k + 8 == 8 * |a|
    requires var init := a[..|a| - 1]; FromBE(Low(init, PrefixMask(n, |a| - 1))) == FromBE(init) - FromBE(init) % Pow2(k)
    ensures FromBE(Low(a, PrefixMask(n, |a|))) == FromBE(a) - FromBE(a) % Pow2(k + 8)
  {
    var w := |a|;
    var x, b := FromBE(a[..w - 1]), a[w - 1];
    LowInit(a, n);
    WholeByte(b);
    LowStep(FromBE(a), x, b, k);
  }

  /** The first address of an /n network: the host bits cleared. */
  lemma {:induction false} PrefixLow(a: seq<byte>, n: nat, k: nat)
    requires n + k == 8 * |a|
    ensures FromBE(Low(a, PrefixMask(n, |a|))) == FromBE(a) - FromBE(a) % Pow2(k)
    decreases |a|
  {
    if a != [] {
      if k >= 8 {
        PrefixLow(a[..|a| - 1], n, k - 8);
        PrefixLowBefore(a, n, k - 8);
      } else {
        PrefixLowHere(a, n, k);
      }
    }
  }

  lemma LowStep(whole: nat, x: nat, b: byte, k: nat)
    requires whole == x * 256 + b
    ensures (x - x % Pow2(k)) * 256 == whole - whole % Pow2(k + 8)
  {
    Pow2Adds(k, 8);
    Pow2Byte();
    SplitMod(whole, Pow2(k));
  }

  /** Section 3.1 of RFC 4632: an /n network is the 2^(8w - n) addresses that share its first n bits. */
  lemma NetworkIsPrefix(a: seq<byte>, n: nat, y: nat)
    requires n <= 8 * |a|
    ensures var mask, size := PrefixMask(n, |a|), Pow2(8 * |a| - n);
      var first := FromBE(Low(a, mask));
      && first <= FromBE(a) <= first + HostSpan(mask) && HostSpan(mask) + 1 == size
      && (first <= y <= first + HostSpan(mask) <==> y / size == FromBE(a) / size)
  {
    PrefixLow(a, n, 8 * |a| - n);
    PrefixSpan(n, |a|);
    SameBlock(FromBE(a), y, Pow2(8 * |a| - n));
  }

  lemma SameBlock(x: nat, y: nat, p: nat)
    requires p > 0
    ensures x - x % p <= y <= x - x % p + (p - 1) <==> y / p == x / p
  {
    var q := x / p;
    assert x - x % p == q * p;
    if q * p <= y <= q * p + (p - 1) {
      ModOf(y, p, q, y - q * p);
    }
    assert y == (y / p) * p + y % p;
  }
}
