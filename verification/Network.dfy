/** The sandbox's interfaces: slots of network cards, loopback addresses, and how they are saved and restored. */
module Network {
  import opened Bytes

  const MAX_NIC: nat := 0x7FFF_FFFF_FFFF_FFFF
  const LO: string := "lo"

  datatype Route = Route(destination: string, gateway: string, viaThis: bool)

  datatype Nic = Nic(
    id: string, index: int, pciAddr: int, tapFd: int, bridge: string, hostDevice: string, deviceName: string,
    mac: string, ipAddr: string, newName: string, mtu: nat, routes: seq<Route>)

  datatype PersistNic = PersistNic(
    id: string, index: int, pciAddr: int, hostDevice: string, deviceName: string, newName: string, ipAddr: string,
    mac: string, mtu: nat)

  /** A slot that is reserved and has no card yet holds None. */
  datatype Net = Net(eth: map<int, Option<Nic>>, lo: map<string, Nic>, ids: map<string, Nic>)

  function Empty(): Net { Net(map[], map[], map[]) }

  // ---------- what always holds ----------

  /** A card knows its slot and is no loopback; a loopback knows its address. */
  predicate NetInv(n: Net) {
    && (forall i :: i in n.eth && n.eth[i].Some? ==> n.eth[i].value.index == i && n.eth[i].value.deviceName != LO)
    && (forall a :: a in n.lo ==> n.lo[a].ipAddr == a && n.lo[a].deviceName == LO)
  }

  /** `x` is one of the interfaces. */
  predicate HasNic(n: Net, x: Nic) {
    || (x.ipAddr in n.lo && n.lo[x.ipAddr] == x)
    || (x.index in n.eth && n.eth[x.index] == Some(x))
  }

  /** No two interfaces have the same id. */
  ghost predicate DistinctIds(n: Net) {
    forall x, y :: HasNic(n, x) && HasNic(n, y) && x.id == y.id ==> x == y
  }

  /** The index by id leads to exactly the interfaces there are. */
  ghost predicate WellIndexed(n: Net) {
    && (forall x :: HasNic(n, x) ==> x.id in n.ids && n.ids[x.id] == x)
    && (forall d :: d in n.ids ==> HasNic(n, n.ids[d]) && n.ids[d].id == d)
  }

  /** At an address that has a loopback, `x` has that loopback's id; at a new address its id is not in the index. */
  predicate IdAllowed(n: Net, x: Nic) {
    if x.ipAddr in n.lo then n.lo[x.ipAddr].id == x.id else x.id !in n.ids
  }

  function WithLoopback(n: Net, x: Nic): Net {
    n.(lo := n.lo[x.ipAddr := x], ids := n.ids[x.id := x])
  }

  lemma WithLoopbackHas(n: Net, x: Nic, y: Nic)
    requires NetInv(n) && x.deviceName == LO
    ensures HasNic(WithLoopback(n, x), y) <==> y == x || (HasNic(n, y) && (y.deviceName != LO || y.ipAddr != x.ipAddr))
  {
  }

  lemma IndexLoopback(n: Net, x: Nic)
    requires NetInv(n) && WellIndexed(n) && x.deviceName == LO
    ensures WellIndexed(WithLoopback(n, x)) <==> IdAllowed(n, x)
  {
    if IdAllowed(n, x) {
      LoopbackIndexed(n, x);
    } else {
      LoopbackNotIndexed(n, x);
    }
  }

  lemma LoopbackIndexed(n: Net, x: Nic)
    requires NetInv(n) && WellIndexed(n) && x.deviceName == LO && IdAllowed(n, x)
    ensures WellIndexed(WithLoopback(n, x))
  {
    var m := WithLoopback(n, x);
    assert x.ipAddr in n.lo ==> HasNic(n, n.lo[x.ipAddr]);
    forall y | HasNic(m, y)
      ensures y.id in m.ids && m.ids[y.id] == y
    {
      WithLoopbackHas(n, x, y);
    }
    forall d | d in m.ids
      ensures HasNic(m, m.ids[d]) && m.ids[d].id == d
    {
      WithLoopbackHas(n, x, m.ids[d]);
    }
  }

  /** The replaced loopback stays in the index, or another interface with the id is pushed out of it. */
  lemma LoopbackNotIndexed(n: Net, x: Nic)
    requires NetInv(n) && WellIndexed(n) && x.deviceName == LO && !IdAllowed(n, x)
    ensures !WellIndexed(WithLoopback(n, x))
  {
    var m := WithLoopback(n, x);
    if x.ipAddr in n.lo {
      var y := n.lo[x.ipAddr];
      assert HasNic(n, y);
      assert m.ids[y.id] == y && !HasNic(m, y);
    } else {
      var y := n.ids[x.id];
      WithLoopbackHas(n, x, y);
      assert HasNic(m, y) && m.ids[y.id] == x != y;
    }
  }

  /** NetworkContext: its maps, changed under its lock. */
  class NetworkContext {
    var eth: map<int, Option<Nic>>
    var lo: map<string, Nic>
    var ids: map<string, Nic>

    function View(): Net
      reads this
    {
      Net(eth, lo, ids)
    }

    constructor ()
      ensures View() == Empty() && NetInv(View())
    {
      eth, lo, ids := map[], map[], map[];
    }

    /** Reserves the lowest free slot; none is left only when every slot is taken. */
    method ApplySlot() returns (slot: int)
      requires NetInv(View())
      modifies this`eth
      ensures NetInv(View()) && (old(WellIndexed(View())) ==> WellIndexed(View()))
      ensures slot == -1 <==> forall i :: 0 <= i <= MAX_NIC ==> i in old(eth)
      ensures slot != -1 ==> 0 <= slot <= MAX_NIC && slot !in old(eth) && forall i :: 0 <= i < slot ==> i in old(eth)
      ensures eth == if slot == -1 then old(eth) else old(eth)[slot := None]
    {
      var i := 0;
      while i <= MAX_NIC
        invariant 0 <= i <= MAX_NIC + 1 && eth == old(eth) && forall j :: 0 <= j < i ==> j in eth
      {
        if i !in eth {
          eth := eth[i := None];
          return i;
        }
        i := i + 1;
      }
      return -1;
    }

    method FreeSlot(slot: int)
      requires NetInv(View())
      modifies this`eth, this`ids
      ensures NetInv(View()) && (old(WellIndexed(View())) ==> WellIndexed(View()))
      ensures eth == old(eth) - {slot}
      ensures ids == if slot in old(eth) && old(eth)[slot].Some? then old(ids) - {old(eth)[slot].value.id} else old(ids)
    {
      if slot !in eth {
        return;
      } else if eth[slot].Some? {
        ids := ids - {eth[slot].value.id};
      }
      eth := eth - {slot};
    }

    /**
     The loopback branch of addInterface; without an address it is refused. The index stays right
     exactly when the loopback it replaces has the same id or, if it replaces none, its id is new.
     */
    method AddLoopback(id: string, ip: string, mtu: nat) returns (ok: bool)
      requires NetInv(View())
      modifies this`lo, this`ids
      ensures NetInv(View())
      ensures ok <==> ip != ""
      ensures !ok ==> lo == old(lo) && ids == old(ids)
      ensures ok ==> ip in lo && lo == old(lo)[ip := lo[ip]] && ids == old(ids)[lo[ip].id := lo[ip]]
      ensures ok ==> lo[ip].id == (if id == "" then "lo" else id) && lo[ip].ipAddr == ip && lo[ip].mtu == mtu && lo[ip].deviceName == "lo"
      ensures ok && old(WellIndexed(View())) ==> (WellIndexed(View()) <==> IdAllowed(old(View()), lo[ip]))
    {
      if ip == "" {
        return false;
      }
      var i := Nic(if id == "" then LO else id, 0, 0, 0, "", "", LO, "", ip, "", mtu, []);
      if WellIndexed(View()) {
        IndexLoopback(View(), i);
      }
      lo := lo[ip := i];
      ids := ids[i.id := i];
      return true;
    }

    /** What configureInterface does with a card it set up for a reserved slot: the index stays right exactly when its id is new. */
    method Configure(index: int, created: Nic)
      requires NetInv(View()) && created.index == index && created.deviceName != LO && index in eth && eth[index].None?
      modifies this`eth, this`ids
      ensures old(WellIndexed(View())) ==> (WellIndexed(View()) <==> created.id !in old(ids))
      ensures NetInv(View()) && eth == old(eth)[index := Some(created)] && ids == old(ids)[created.id := created]
    {
      eth := eth[index := Some(created)];
      ids := ids[created.id := created];
    }
  }

  // ---------- saving ----------

  /** The entry of a loopback: its name, hardware address and size are not saved. */
  function DumpLo(n: Nic): PersistNic {
    PersistNic(n.id, n.index, n.pciAddr, n.hostDevice, n.deviceName, "", n.ipAddr, "", 0)
  }

  function DumpEth(n: Nic): PersistNic {
    PersistNic(n.id, n.index, n.pciAddr, n.hostDevice, n.deviceName, n.newName, n.ipAddr, n.mac, n.mtu)
  }

  function LoadNic(p: PersistNic, spare: string): Nic {
    Nic(if p.id == "" then spare else p.id, p.index, p.pciAddr, 0, "", p.hostDevice, p.deviceName, p.mac, p.ipAddr, p.newName, p.mtu, [])
  }

  /** What of a card survives, and of a loopback. */
  function KeptEth(n: Nic): Nic { n.(tapFd := 0, bridge := "", routes := []) }

  function KeptLo(n: Nic): Nic { KeptEth(n).(newName := "", mac := "", mtu := 0) }

  /** An entry of the list is that of a loopback address or of a slot. */
  predicate FromNet(n: Net, p: PersistNic) {
    || (p.deviceName == LO && p.ipAddr in n.lo && p == DumpLo(n.lo[p.ipAddr]))
    || (p.deviceName != LO && p.index in n.eth && n.eth[p.index].Some? && p == DumpEth(n.eth[p.index].value))
  }

  /** The entries of the loopbacks and the cards, in any order. */
  predicate IsNetDump(n: Net, list: seq<PersistNic>) {
    && (forall k :: 0 <= k < |list| ==> FromNet(n, list[k]))
    && (forall a :: a in n.lo ==> DumpLo(n.lo[a]) in list)
    && (forall i :: i in n.eth && n.eth[i].Some? ==> DumpEth(n.eth[i].value) in list)
  }

  method DumpLoopbacks(n: Net) returns (list: seq<PersistNic>)
    requires NetInv(n)
    ensures |list| == |n.lo|
    ensures forall k :: 0 <= k < |list| ==> FromNet(n, list[k])
    ensures forall a :: a in n.lo ==> DumpLo(n.lo[a]) in list
  {
    list := [];
    var todo := n.lo.Keys;
    while todo != {}
      invariant todo <= n.lo.Keys && |list| + |todo| == |n.lo.Keys|
      invariant forall k :: 0 <= k < |list| ==> FromNet(n, list[k])
      invariant forall a :: a in n.lo && a !in todo ==> DumpLo(n.lo[a]) in list
      decreases todo
    {
      var a :| a in todo;
      todo := todo - {a};
      list := list + [DumpLo(n.lo[a])];
      assert DumpLo(n.lo[a]) in list;
    }
  }

  lemma SomeSlot(slots: set<int>)
    requires slots != {}
    ensures exists i :: i in slots
  {
    if forall i :: i !in slots {
      assert false;
    }
  }

  /** The loop of dump over the slots; one that is reserved and has no card is a nil dereference. */
  method DumpCards(n: Net) returns (r: Option<seq<PersistNic>>)
    requires NetInv(n)
    ensures r.Some? <==> forall i :: i in n.eth ==> n.eth[i].Some?
    ensures r.Some? ==> |r.value| == |n.eth| && (forall k :: 0 <= k < |r.value| ==> FromNet(n, r.value[k]))
    ensures r.Some? ==> forall i :: i in n.eth && n.eth[i].Some? ==> DumpEth(n.eth[i].value) in r.value
  {
    var list := [];
    var todo: set<int> := n.eth.Keys;
    while todo != {}
      invariant todo <= n.eth.Keys && |list| + |todo| == |n.eth.Keys|
      invariant forall k :: 0 <= k < |list| ==> FromNet(n, list[k])
      invariant forall i :: i in n.eth && i !in todo ==> n.eth[i].Some? && DumpEth(n.eth[i].value) in list
      decreases todo
    {
      SomeSlot(todo);
      var i :| i in todo;
      todo := todo - {i};
      if n.eth[i].None? {
        return None;
      }
      list := list + [DumpEth(n.eth[i].value)];
      assert DumpEth(n.eth[i].value) in list;
    }
    return Some(list);
  }

  /** The network part of dump. */
  method DumpNics(n: Net) returns (r: Option<seq<PersistNic>>)
    requires NetInv(n)
    ensures r.Some? <==> AllConfigured(n)
    ensures r.Some? ==> IsNetDump(n, r.value) && |r.value| == |n.lo| + |n.eth|
  {
    var loopbacks := DumpLoopbacks(n);
    var cards := DumpCards(n);
    if cards.None? {
      return None;
    }
    return Some(loopbacks + cards.value);
  }

  /** No slot is merely reserved. */
  predicate AllConfigured(n: Net) {
    forall i :: i in n.eth ==> n.eth[i].Some?
  }

  /** No interface has an empty id. */
  predicate NamedNics(n: Net) {
    && (forall a :: a in n.lo ==> n.lo[a].id != "")
    && (forall i :: i in n.eth && n.eth[i].Some? ==> n.eth[i].value.id != "")
  }

  // ---------- restoring ----------

  /** One turn of NetworkContext.load. */
  function LoadOne(n: Net, p: PersistNic, spare: string): Net {
    var ifc := LoadNic(p, spare);
    var m := n.(ids := n.ids[p.id := ifc]);
    if p.deviceName == LO then m.(lo := m.lo[p.ipAddr := ifc]) else m.(eth := m.eth[p.index := Some(ifc)])
  }

  /** The entry has been loaded. */
  predicate Holds(m: Net, p: PersistNic) {
    p.id in m.ids && if p.deviceName == LO then p.ipAddr in m.lo else p.index in m.eth
  }

  /** Everything in `m` was loaded from `n`, and the entries read so far are in. */
  ghost predicate LoadedFrom(n: Net, read: seq<PersistNic>, m: Net) {
    && (forall a :: a in m.lo ==> a in n.lo && m.lo[a] == KeptLo(n.lo[a]))
    && (forall i :: i in m.eth ==> i in n.eth && n.eth[i].Some? && m.eth[i] == Some(KeptEth(n.eth[i].value)))
    && (forall j :: 0 <= j < |read| ==> Holds(m, read[j]))
  }

  function Kept(n: Nic): Nic {
    if n.deviceName == LO then KeptLo(n) else KeptEth(n)
  }

  /** `y`, indexed under `d`, is what is kept of an interface with that id. */
  ghost predicate IdFrom(n: Net, d: string, y: Nic) {
    exists x :: HasNic(n, x) && x.id == d && y == Kept(x)
  }

  ghost predicate IdsFrom(n: Net, m: Net) {
    forall d :: d in m.ids ==> IdFrom(n, d, m.ids[d])
  }

  /** An entry of `n` is loaded as what is kept of the interface. */
  lemma LoadsKept(n: Net, p: PersistNic, spare: string)
    requires NetInv(n) && NamedNics(n) && FromNet(n, p)
    ensures p.deviceName == LO ==> p.ipAddr in n.lo && LoadNic(p, spare) == KeptLo(n.lo[p.ipAddr])
    ensures p.deviceName != LO ==> p.index in n.eth && n.eth[p.index].Some? && LoadNic(p, spare) == KeptEth(n.eth[p.index].value)
    ensures IdFrom(n, p.id, LoadNic(p, spare))
  {
    if p.deviceName == LO {
      assert HasNic(n, n.lo[p.ipAddr]);
    } else {
      assert HasNic(n, n.eth[p.index].value);
    }
  }

  lemma LoadHolds(m: Net, read: seq<PersistNic>, p: PersistNic, spare: string, j: nat)
    requires j <= |read| && forall k :: 0 <= k < |read| ==> Holds(m, read[k])
    ensures Holds(LoadOne(m, p, spare), (read + [p])[j])
  {
    assert j < |read| ==> Holds(m, read[j]);
  }

  lemma LoadOneKeeps(n: Net, read: seq<PersistNic>, p: PersistNic, m: Net, spare: string)
    requires NetInv(n) && NamedNics(n) && FromNet(n, p) && LoadedFrom(n, read, m)
    ensures LoadedFrom(n, read + [p], LoadOne(m, p, spare))
    ensures IdsFrom(n, m) ==> IdsFrom(n, LoadOne(m, p, spare))
  {
    var more := read + [p];
    LoadsKept(n, p, spare);
    forall j | 0 <= j < |more|
      ensures Holds(LoadOne(m, p, spare), more[j])
    {
      LoadHolds(m, read, p, spare, j);
    }
  }

  /**
   The saved interfaces again: every loopback by its address, every card by its slot, as far as they
   are saved; and each id that one of them has leads to one that has it.
   */
  ghost predicate NetRestored(n: Net, m: Net) {
    && m.lo.Keys == n.lo.Keys && (forall a :: a in m.lo ==> m.lo[a] == KeptLo(n.lo[a]))
    && (forall i :: i in m.eth <==> i in n.eth)
    && (forall i :: i in m.eth ==> n.eth[i].Some? && m.eth[i] == Some(KeptEth(n.eth[i].value)))
    && NetInv(m)
    && IdsFrom(n, m) && (forall x :: HasNic(n, x) ==> x.id in m.ids)
  }

  lemma LoHeld(n: Net, list: seq<PersistNic>, m: Net, a: string)
    requires NetInv(n) && IsNetDump(n, list) && LoadedFrom(n, list, m) && a in n.lo
    ensures a in m.lo && n.lo[a].id in m.ids
  {
    var j :| 0 <= j < |list| && list[j] == DumpLo(n.lo[a]);
    assert Holds(m, list[j]);
  }

  lemma EthHeld(n: Net, list: seq<PersistNic>, m: Net, i: int)
    requires NetInv(n) && IsNetDump(n, list) && LoadedFrom(n, list, m) && i in n.eth && n.eth[i].Some?
    ensures i in m.eth && n.eth[i].value.id in m.ids
  {
    var j :| 0 <= j < |list| && list[j] == DumpEth(n.eth[i].value);
    assert Holds(m, list[j]);
  }

  lemma NicHeld(n: Net, list: seq<PersistNic>, m: Net, x: Nic)
    requires NetInv(n) && IsNetDump(n, list) && LoadedFrom(n, list, m) && HasNic(n, x)
    ensures x.id in m.ids
  {
    if x.ipAddr in n.lo && n.lo[x.ipAddr] == x {
      LoHeld(n, list, m, x.ipAddr);
    } else {
      EthHeld(n, list, m, x.index);
    }
  }

  lemma LoadedInv(n: Net, m: Net)
    requires NetInv(n) && LoadedFrom(n, [], m)
    ensures NetInv(m)
  {
  }

  lemma LoadedAll(n: Net, list: seq<PersistNic>, m: Net)
    requires NetInv(n) && IsNetDump(n, list) && LoadedFrom(n, list, m) && AllConfigured(n) && IdsFrom(n, m)
    ensures NetRestored(n, m)
  {
    LoadedInv(n, m);
    forall a | a in n.lo
      ensures a in m.lo
    {
      LoHeld(n, list, m, a);
    }
    forall i | i in n.eth
      ensures i in m.eth
    {
      EthHeld(n, list, m, i);
    }
    forall x | HasNic(n, x)
      ensures x.id in m.ids
    {
      NicHeld(n, list, m, x);
    }
  }

  // ---------- the index by id ----------

  lemma KeptIsThere(n: Net, m: Net, x: Nic)
    requires NetInv(n) && NetRestored(n, m) && HasNic(n, x)
    ensures HasNic(m, Kept(x)) && Kept(x).id == x.id
  {
  }

  lemma ThereWasKept(n: Net, m: Net, y: Nic) returns (x: Nic)
    requires NetInv(n) && NetRestored(n, m) && HasNic(m, y)
    ensures HasNic(n, x) && y == Kept(x)
  {
    if y.ipAddr in m.lo && m.lo[y.ipAddr] == y {
      x := n.lo[y.ipAddr];
    } else {
      x := n.eth[y.index].value;
    }
  }

  lemma KeptApart(n: Net, x: Nic, y: Nic)
    requires NetInv(n) && HasNic(n, x) && HasNic(n, y) && Kept(x) == Kept(y)
    ensures x == y
  {
  }

  /** The restored index leads to exactly the interfaces if and only if the saved ones have distinct ids. */
  lemma RestoredIndex(n: Net, m: Net)
    requires NetInv(n) && NetRestored(n, m)
    ensures WellIndexed(m) <==> DistinctIds(n)
  {
    if WellIndexed(m) {
      forall x, y | HasNic(n, x) && HasNic(n, y) && x.id == y.id
        ensures x == y
      {
        KeptIsThere(n, m, x);
        KeptIsThere(n, m, y);
        KeptApart(n, x, y);
      }
    }
    if DistinctIds(n) {
      IndexOfDistinct(n, m);
    }
  }

  lemma IndexOfDistinct(n: Net, m: Net)
    requires NetInv(n) && NetRestored(n, m) && DistinctIds(n)
    ensures WellIndexed(m)
  {
    forall d | d in m.ids
      ensures HasNic(m, m.ids[d]) && m.ids[d].id == d
    {
      IdLeadsThere(n, m, d);
    }
    forall y | HasNic(m, y)
      ensures y.id in m.ids && m.ids[y.id] == y
    {
      IdOfThere(n, m, y);
    }
  }

  lemma IdOfThere(n: Net, m: Net, y: Nic)
    requires NetInv(n) && NetRestored(n, m) && DistinctIds(n) && HasNic(m, y)
    ensures y.id in m.ids && m.ids[y.id] == y
  {
    var x := ThereWasKept(n, m, y);
    assert IdFrom(n, y.id, m.ids[y.id]);
  }

  lemma IdLeadsThere(n: Net, m: Net, d: string)
    requires NetInv(n) && NetRestored(n, m) && d in m.ids
    ensures HasNic(m, m.ids[d]) && m.ids[d].id == d
  {
    assert IdFrom(n, d, m.ids[d]);
    var x :| HasNic(n, x) && x.id == d && m.ids[d] == Kept(x);
    KeptIsThere(n, m, x);
  }

  /** And when the saved index was right, the restored one is what is kept of it. */
  lemma IndexRestored(n: Net, m: Net)
    requires NetInv(n) && NetRestored(n, m) && WellIndexed(n)
    ensures m.ids.Keys == n.ids.Keys && forall d :: d in n.ids ==> m.ids[d] == Kept(n.ids[d])
  {
    forall d
      ensures d in m.ids <==> d in n.ids
      ensures d in n.ids && d in m.ids ==> m.ids[d] == Kept(n.ids[d])
    {
      if d in n.ids {
        assert HasNic(n, n.ids[d]);
      }
      if d in m.ids {
        assert IdFrom(n, d, m.ids[d]);
      }
    }
  }

  /** A network whose interfaces `list` saves. */
  ghost predicate Saves(n: Net, list: seq<PersistNic>) {
    NetInv(n) && NamedNics(n) && IsNetDump(n, list) && AllConfigured(n)
  }

  /** NetworkContext.load into a new context, whose ports are empty: a saved port has no place to go. */
  method Load(list: seq<PersistNic>, ports: nat, spares: seq<string>) returns (r: Option<Net>)
    requires |spares| >= |list|
    ensures r.None? <==> ports > 0
    ensures r.Some? ==> forall n :: Saves(n, list) ==> NetRestored(n, r.value)
  {
    if ports > 0 {
      return None;
    }
    var m := Empty();
    for k := 0 to |list|
      invariant forall n :: Saves(n, list) ==> LoadedFrom(n, list[..k], m) && IdsFrom(n, m)
    {
      assert list[..k + 1] == list[..k] + [list[k]];
      forall n | Saves(n, list)
        ensures LoadedFrom(n, list[..k + 1], LoadOne(m, list[k], spares[k]))
        ensures IdsFrom(n, LoadOne(m, list[k], spares[k]))
      {
        LoadOneKeeps(n, list[..k], list[k], m, spares[k]);
      }
      m := LoadOne(m, list[k], spares[k]);
    }
    assert list[..|list|] == list;
    forall n | Saves(n, list)
      ensures NetRestored(n, m)
    {
      LoadedAll(n, list, m);
    }
    return Some(m);
  }
}
