/** Addresses of a network, handed out round robin or on request. */
module IpAllocator {
  import opened Bytes
  import opened Ring
  import opened IpAddress

  datatype Error = NoAvailableIPs | AlreadyAllocated | OutOfRange | AlreadyRegistered | BadSubnet

  /** `Panic`: the integer of an address that is none, or a mask indexed beyond its end. */
  datatype Result<+T> = Ok(value: T) | Err(error: Error) | Panic

  /** The integers whose address is recorded in `p`. */
  ghost function Recorded(p: set<IP>): iset<int> {
    iset x: int | x >= 0 && Text(FromInt(x)) in p
  }

  /** Recording the printed form of an integer records that integer, forgetting it forgets that one. */
  lemma RecordInt(p: set<IP>, v: nat)
    ensures Recorded(p + {Text(FromInt(v))}) == Recorded(p) + iset{v}
    ensures Recorded(p - {Text(FromInt(v))}) == Recorded(p) - iset{v}
  {
    forall x: nat
      ensures Text(FromInt(x)) == Text(FromInt(v)) <==> x == v
    {
      TextApart(x, v);
    }
  }

  /** The printed form of an address that starts with a zero byte is that of no integer. */
  lemma RecordOdd(p: set<IP>, ip: IP)
    requires Text(ip) != [] && Text(ip)[0] == 0
    ensures Recorded(p + {Text(ip)}) == Recorded(p) && Recorded(p - {Text(ip)}) == Recorded(p)
  {
    forall x: nat
      ensures Text(FromInt(x)) != Text(ip)
    {
      TextOfInt(x);
    }
  }

  /** An address, or anything else that can be printed, that does not start with a zero byte. */
  lemma RecordAddress(p: set<IP>, ip: IP)
    requires Text(ip) != [] ==> Text(ip)[0] != 0
    ensures Recorded(p + {Text(ip)}) == Recorded(p) + iset{FromBE(Text(ip))}
    ensures Recorded(p - {Text(ip)}) == Recorded(p) - iset{FromBE(Text(ip))}
  {
    IntOfBytes(Text(ip));
    TextOfInt(FromBE(Text(ip)));
    RecordInt(p, FromBE(Text(ip)));
  }

  /** What an unused range answers. */
  function FirstAnswer(begin: nat, end: int, ip: Option<IP>): Result<IP> {
    if ip.None? then if begin <= end then Ok(FromInt(begin)) else Err(NoAvailableIPs)
    else if ToInt(ip.value).None? then Panic
    else if begin <= ToInt(ip.value).value <= end then Ok(ip.value) else Err(OutOfRange)
  }

  /** allocatedMap: what was handed out of `begin`, ..., `end`. */
  class AllocatedMap {
    var p: set<IP>
    var last: int
    var begin: nat
    var end: int
    /** Every address taken, claimed or released so far, by its integer. */
    ghost var log: seq<Event>

    ghost function Range(): Range
      reads this
    {
      Ring.Range(begin, Max(0, end - begin + 1))
    }

    /** Where the search starts. */
    ghost function Position(): int
      reads this
    {
      if begin <= last < end then last + 1 else begin
    }

    ghost predicate Bounds()
      reads this
    {
      begin >= 1 && begin - 1 <= last && (last <= end || last == begin - 1)
    }

    ghost predicate Valid()
      reads this
    {
      && Bounds()
      && Runs(Range(), iset{}, begin, log)
      && Recorded(p) == EndUsed(iset{}, log)
      && Position() == EndCursor(Range(), iset{}, begin, log)
    }

    constructor (first: nat, end: int)
      requires first >= 1
      ensures Valid() && fresh(this) && p == {} && begin == first && this.end == end && last == first - 1 && log == []
    {
      p, last, begin, log := {}, first - 1, first, [];
      this.end := end;
      new;
      assert Recorded(p) == iset{};
    }

    /** The search of getNextIP: the first free integer going around, none exactly when all are taken. */
    method Search() returns (found: Option<nat>)
      requires Bounds()
      ensures found.None? <==> Full(Range(), Recorded(p))
      ensures found.Some? ==> FirstFree(Range(), Position(), Recorded(p), found.value)
    {
      var pos := last;
      var allRange := end - begin;
      var i := 0;
      ghost var r, c := Range(), Position();
      while i <= allRange
        invariant 0 <= i && (i <= allRange + 1 || i == 0)
        invariant begin - 1 <= pos && (allRange >= 0 ==> pos <= end)
        invariant i <= allRange ==> r.At(c, i) == if pos + 1 > end then begin else pos + 1
        invariant forall y :: r.Has(y) && r.Steps(c, y) < i ==> y in Recorded(p)
        decreases allRange - i
      {
        pos := pos + 1;
        if pos > end {
          pos := begin;
        }
        assert pos == r.At(c, i);
        if Text(FromInt(pos)) !in p {
          assert r.Has(pos) && pos !in Recorded(p);
          return Some(pos);
        }
        assert forall y :: r.Has(y) && r.Steps(c, y) == i ==> y == pos;
        i := i + 1;
      }
      forall y | r.lo <= y < r.lo + r.n
        ensures y in Recorded(p)
      {
        assert r.Has(y) && r.Steps(c, y) < i;
      }
      return None;
    }

    /** What getNextIP does with the integer it found. */
    method Take(pos: nat)
      requires Valid() && FirstFree(Range(), Position(), Recorded(p), pos)
      modifies this`p, this`last, this`log
      ensures Valid() && log == old(log) + [Took(pos)] && last == pos && p == old(p) + {Text(FromInt(pos))}
    {
      ghost var r := Range();
      RunsMore(r, iset{}, begin, log, Took(pos));
      RecordInt(p, pos);
      log := log + [Took(pos)];
      p := p + {Text(FromInt(pos))};
      last := pos;
      assert Range() == r && Position() == r.Past(pos);
    }

    /** getNextIP. */
    method GetNextIP() returns (r: Result<IP>)
      requires Valid()
      modifies this`p, this`last, this`log
      ensures Valid() && !r.Panic?
      ensures r.Err? <==> Full(Range(), old(Recorded(p)))
      ensures r.Err? ==> r.error == NoAvailableIPs && p == old(p) && last == old(last) && log == old(log)
      ensures r.Ok? ==> exists x: nat ::
        && r.value == FromInt(x) && FirstFree(Range(), old(Position()), old(Recorded(p)), x)
        && log == old(log) + [Took(x)] && last == x && p == old(p) + {Text(r.value)}
    {
      var found := Search();
      if found.None? {
        return Err(NoAvailableIPs);
      }
      Take(found.value);
      return Ok(FromInt(found.value));
    }

    /** checkIP: an address is claimed unless it is recorded or out of range. */
    method CheckIP(ip: IP) returns (r: Result<IP>)
      requires Valid()
      modifies this`p, this`log
      ensures Valid()
      ensures r == if Text(ip) in old(p) then Err(AlreadyAllocated)
                   else if ToInt(ip).None? then Panic
                   else if begin <= ToInt(ip).value <= end then Ok(ip) else Err(OutOfRange)
      ensures p == if r.Ok? then old(p) + {Text(ip)} else old(p)
      ensures log == old(log) + if r.Ok? && Bare(ip).value[0] != 0 then [Marked(ToInt(ip).value)] else []
      ensures Recorded(p) == if r.Ok? && Bare(ip).value[0] != 0 then old(Recorded(p)) + iset{ToInt(ip).value} else old(Recorded(p))
    {
      if Text(ip) in p {
        return Err(AlreadyAllocated);
      }
      if ToInt(ip).None? {
        return Panic;
      }
      var pos := ToInt(ip).value;
      if pos < begin || pos > end {
        return Err(OutOfRange);
      }
      if Bare(ip).value[0] != 0 {
        assert Text(ip) == Bare(ip).value;
        RecordAddress(p, ip);
        TextAgrees(ip);
        RunsMore(Range(), iset{}, begin, log, Marked(pos));
        log := log + [Marked(pos)];
      } else {
        assert Text(ip) == Bare(ip).value;
        RecordOdd(p, ip);
      }
      p := p + {Text(ip)};
      return Ok(ip);
    }

    /** The network's part of RequestIP. */
    method Request(ip: Option<IP>) returns (r: Result<IP>)
      requires Valid()
      modifies this`p, this`last, this`log
      ensures Valid() && Requested(this, ip, r)
      ensures old(p) == {} && old(last) == begin - 1 ==> r == FirstAnswer(begin, end, ip)
    {
      if ip.None? {
        r := GetNextIP();
        if old(p) == {} && old(last) == begin - 1 {
          assert old(Recorded(p)) == iset{};
          if r.Ok? {
            ghost var x: nat :| r.value == FromInt(x) && FirstFree(Range(), old(Position()), old(Recorded(p)), x);
            assert x == begin;
          }
          assert begin <= end ==> begin !in old(Recorded(p)) && Range().lo <= begin < Range().lo + Range().n;
        }
      } else {
        r := CheckIP(ip.value);
      }
    }

    /** What ReleaseIP does in a network. */
    method Release(ip: IP)
      requires Valid()
      modifies this`p, this`log
      ensures Valid() && p == old(p) - {Text(ip)}
    {
      if Text(ip) != [] && Text(ip)[0] == 0 {
        RecordOdd(p, ip);
      } else {
        RecordAddress(p, ip);
        RunsMore(Range(), iset{}, begin, log, Freed(FromBE(Text(ip))));
        log := log + [Freed(FromBE(Text(ip)))];
      }
      p := p - {Text(ip)};
    }
  }

  /** A claimed address is seen by the search exactly when it does not start with a zero byte. */
  lemma ClaimIsSeen(p: set<IP>, ip: IP)
    requires ToInt(ip).Some?
    ensures ToInt(ip).value in Recorded(p + {Text(ip)}) <==> Bare(ip).value[0] != 0 || ToInt(ip).value in Recorded(p)
  {
    TextAgrees(ip);
  }

  /** In 0.0.0.0/24 the address 0.0.0.5 is claimed, and the search would still give it out, as one byte. */
  lemma ZeroOctetTwice()
    ensures ToInt([0, 0, 0, 5]) == Some(5) && 5 !in Recorded({Text([0, 0, 0, 5])}) && FromInt(5) == [5]
  {
    var ip: IP := [0, 0, 0, 5];
    assert FromBE([]) == 0;
    assert ip[..3] == [0, 0, 0] && ip[..3][..2] == [0, 0] && ip[..3][..2][..1] == [0] && ip[..3][..2][..1][..0] == [];
    assert FromBE([0]) == 0;
    assert FromBE([0, 0]) == 0;
    assert FromBE([0, 0, 0]) == 0;
    assert FromBE(ip) == 5;
    assert IntBytes(5 / 256) == [];
    assert Text(FromInt(5)) == [5];
  }

  /**
   Requests for any address on a fresh network give its usable addresses once each, in order; as
   GetNextIP fails exactly when the range is full, each of the first `n` succeeds and the next fails.
   */
  lemma FreshNetwork(begin: nat, n: nat, log: seq<Event>)
    requires Range(begin, n).Cursor(begin) && Runs(Range(begin, n), iset{}, begin, log)
    requires forall i :: 0 <= i < |log| ==> log[i].Took?
    ensures |log| <= n && forall k :: 0 <= k < |log| ==> log[k] == Took(begin + k)
    ensures Full(Range(begin, n), EndUsed(iset{}, log)) <==> |log| == n
  {
    var r := Range(begin, n);
    FullAfterAll(r, begin, iset{}, log);
    Enumerates(r, begin, iset{}, log);
    forall k | 0 <= k < |log|
      ensures log[k] == Took(begin + k)
    {
      assert log[k].x == r.At(begin, k);
    }
  }

  // ---------- all networks ----------

  /** What a network prints as; one without an address, or with a mask of no address's length, prints as nothing. */
  function Key(net: IPNet): (IP, seq<byte>) {
    if Bare(net.ip).None? || (|net.mask| != 4 && |net.mask| != 16) then ([], [])
    else
      var a := Bare(net.ip).value;
      if |a| == |net.mask| then (a, net.mask)
      else if |a| == 4 then (a, net.mask[12..])
      else ([], [])
  }

  /** newAllocatedMap: all of the network's addresses but the first and the last; nothing for a panic. */
  method NewAllocatedMap(net: IPNet) returns (m: AllocatedMap?)
    ensures m == null <==> EndInts(net).None?
    ensures m != null ==> fresh(m) && m.Valid() && New(m, EndInts(net).value)
  {
    var ends := NetworkEnds(net);
    if ends.None? {
      return null;
    }
    m := new AllocatedMap(ends.value.0 + 1, ends.value.1 as int - 1);
  }

  /** A record between two ends of which nothing was handed out. */
  ghost predicate New(m: AllocatedMap, ends: (nat, nat))
    reads m
  {
    m.begin == ends.0 + 1 && m.end == ends.1 - 1 && m.last == ends.0 && m.p == {} && m.log == []
  }

  class IPAllocator {
    var allocatedIPs: map<(IP, seq<byte>), AllocatedMap>

    /** Each network has its own record. */
    ghost predicate Valid()
      reads this, allocatedIPs.Values
    {
      && (forall k :: k in allocatedIPs ==> allocatedIPs[k].Valid())
      && (forall k, l :: k in allocatedIPs && l in allocatedIPs && allocatedIPs[k] == allocatedIPs[l] ==> k == l)
    }

    constructor ()
      ensures Valid() && allocatedIPs == map[]
    {
      allocatedIPs := map[];
    }

    /** A network's range is narrowed to a subnet of it, of two usable addresses at least; the record is then a fresh one. */
    method RegisterSubnet(network: IPNet, subnet: IPNet) returns (r: Result<()>)
      requires Valid()
      modifies this
      ensures Valid()
      ensures r == if Key(network) in old(allocatedIPs) then Err(AlreadyRegistered)
                   else if EndInts(network).None? || EndInts(subnet).None? then Panic
                   else if Within(EndInts(subnet).value, EndInts(network).value) then Ok(()) else Err(BadSubnet)
      ensures !r.Ok? ==> allocatedIPs == old(allocatedIPs)
      ensures r.Ok? ==> Added(Key(network)) && New(allocatedIPs[Key(network)], EndInts(subnet).value)
    {
      var key := Key(network);
      if key in allocatedIPs {
        return Err(AlreadyRegistered);
      }
      var whole := NewAllocatedMap(network);
      if whole == null {
        return Panic;
      }
      var ends := NetworkEnds(subnet);
      if ends.None? {
        return Panic;
      }
      var begin, end := ends.value.0 + 1, ends.value.1 as int - 1;
      if !(begin >= whole.begin && end <= whole.end && begin < end) {
        return Err(BadSubnet);
      }
      var n := new AllocatedMap(begin, end);
      allocatedIPs := allocatedIPs[key := n];
      return Ok(());
    }

    /** One record more, a fresh one. */
    twostate predicate Added(key: (IP, seq<byte>))
      reads this
    {
      && key in allocatedIPs && key !in old(allocatedIPs) && fresh(allocatedIPs[key])
      && allocatedIPs == old(allocatedIPs)[key := allocatedIPs[key]]
    }

    /** An address of the network, any free one or the given one; the network's record is made on the first request. */
    method RequestIP(network: Option<IPNet>, ip: Option<IP>) returns (r: Result<IP>)
      requires Valid()
      modifies this, allocatedIPs.Values
      ensures Valid()
      ensures network.None? ==> r == Err(BadSubnet) && allocatedIPs == old(allocatedIPs)
      ensures network.Some? ==> Answered(network.value, ip, r)
      ensures forall k :: k in old(allocatedIPs) && (network.None? || k != Key(network.value)) ==>
        unchanged(old(allocatedIPs)[k])
    {
      if network.None? {
        return Err(BadSubnet);
      }
      if Key(network.value) in allocatedIPs {
        r := Ask(Key(network.value), ip);
      } else {
        r := AskNew(network.value, ip);
      }
    }

    /** A network's first request: its record is made, if it has ends. */
    method AskNew(network: IPNet, ip: Option<IP>) returns (r: Result<IP>)
      requires Valid() && Key(network) !in allocatedIPs
      modifies this
      ensures Valid() && Answered(network, ip, r)
    {
      var m := NewAllocatedMap(network);
      if m == null {
        return Panic;
      }
      allocatedIPs := allocatedIPs[Key(network) := m];
      r := Ask(Key(network), ip);
    }

    /** The record of a network answers; the others stay as they are. */
    method Ask(key: (IP, seq<byte>), ip: Option<IP>) returns (r: Result<IP>)
      requires Valid() && key in allocatedIPs
      modifies allocatedIPs[key]
      ensures Valid() && Requested(allocatedIPs[key], ip, r)
      ensures var m := allocatedIPs[key];
        && m.begin == old(m.begin) && m.end == old(m.end)
        && (old(m.p) == {} && old(m.last) == m.begin - 1 ==> r == FirstAnswer(m.begin, m.end, ip))
    {
      r := allocatedIPs[key].Request(ip);
    }

    /** The network's record answers, after it was made if need be; without its ends that is not possible. */
    twostate predicate Answered(network: IPNet, ip: Option<IP>, new r: Result<IP>)
      reads this, allocatedIPs.Values
    {
      if Key(network) in old(allocatedIPs) then
        allocatedIPs == old(allocatedIPs) && Requested(allocatedIPs[Key(network)], ip, r)
      else if EndInts(network).None? then
        allocatedIPs == old(allocatedIPs) && r == Panic
      else
        Added(Key(network)) && FirstRequested(allocatedIPs[Key(network)], EndInts(network).value, ip, r)
    }

    method ReleaseIP(network: Option<IPNet>, ip: IP)
      requires Valid()
      modifies allocatedIPs.Values
      ensures Valid()
      ensures forall k :: k in allocatedIPs ==>
        allocatedIPs[k].p == if network.Some? && k == Key(network.value) then old(allocatedIPs[k].p) - {Text(ip)} else old(allocatedIPs[k].p)
    {
      if network.Some? && Key(network.value) in allocatedIPs {
        allocatedIPs[Key(network.value)].Release(ip);
      }
    }
  }

  /** A subnet's ends within those of the network, with two usable addresses or more between them. */
  predicate Within(sub: (nat, nat), net: (nat, nat)) {
    net.0 <= sub.0 && sub.1 <= net.1 && sub.0 + 2 < sub.1
  }

  /** The answer of a record that was there: the first free address, or the one asked for. */
  twostate predicate Requested(m: AllocatedMap, ip: Option<IP>, new r: Result<IP>)
    reads m
  {
    && m.p == (if r.Ok? then old(m.p) + {Text(r.value)} else old(m.p))
    && if ip.None? then
      && !r.Panic? && (r.Err? <==> Full(old(m.Range()), old(Recorded(m.p))))
      && (r.Ok? ==> exists x: nat ::
            && r.value == FromInt(x) && FirstFree(old(m.Range()), old(m.Position()), old(Recorded(m.p)), x)
            && m.log == old(m.log) + [Took(x)])
    else
      && r == (if Text(ip.value) in old(m.p) then Err(AlreadyAllocated)
               else if ToInt(ip.value).None? then Panic
               else if old(m.begin) <= ToInt(ip.value).value <= old(m.end) then Ok(ip.value) else Err(OutOfRange))
      && m.log == old(m.log) + if r.Ok? && Bare(ip.value).value[0] != 0 then [Marked(ToInt(ip.value).value)] else []
  }

  /** The answer of a new record: of all its usable addresses none is taken. */
  ghost predicate FirstRequested(m: AllocatedMap, ends: (nat, nat), ip: Option<IP>, r: Result<IP>)
    reads m
  {
    && m.begin == ends.0 + 1 && m.end == ends.1 - 1 && r == FirstAnswer(m.begin, m.end, ip)
    && m.p == if r.Ok? then {Text(r.value)} else {}
  }
}
