/** Building a sandbox from saved entries, and why it is the sandbox that was saved. */
module Restore {
  import opened Bytes
  import opened Sandbox
  import opened Persistence

  // ---------- the entries ----------

  function VolumeDisk(e: PersistVolume): Disk {
    Disk(BlockInfo(e), false, true, map[], !Virtual(e.format), false, false)
  }

  /** What the loop over the entries fills: `from` tells which entry a disk was made from. */
  datatype Tables = Tables(
    disks: seq<Disk>, volumes: map<Name, nat>, images: map<Name, DiskDescriptor>, lists: map<Name, seq<nat>>,
    from: seq<nat>)

  /** The disks recorded for container `c`. */
  function Listed(lists: map<Name, seq<nat>>, c: Name): seq<nat> {
    if c in lists then lists[c] else []
  }

  predicate Sourced(list: seq<PersistVolume>, t: Tables) {
    && |t.from| == |t.disks|
    && (forall d :: 0 <= d < |t.from| ==> t.from[d] < |list|)
    && (forall d, e :: 0 <= d < e < |t.from| ==> t.from[d] < t.from[e])
  }

  /** Disk `d` was made from its entry, and no earlier disk has its name in the map. */
  predicate DiskFrom(list: seq<PersistVolume>, t: Tables, d: nat)
    requires Sourced(list, t) && d < |t.disks|
  {
    var e := list[t.from[d]];
    && !e.isRootVol && t.disks[d] == VolumeDisk(e)
    && e.name in t.volumes && d <= t.volumes[e.name]
  }

  /** The disk of volume `v` has that name. */
  predicate VolumeFrom(t: Tables, v: Name)
    requires v in t.volumes
  {
    t.volumes[v] < |t.disks| && t.disks[t.volumes[v]].desc.name == v
  }

  /** Disk `d` is listed for `c` when its entry names `c`. */
  ghost predicate ListFrom(list: seq<PersistVolume>, t: Tables, c: Name, d: nat)
    requires Sourced(list, t)
  {
    d in Listed(t.lists, c) <==> d < |t.disks| && c in list[t.from[d]].containerIds
  }

  predicate ImageFrom(list: seq<PersistVolume>, c: Name, desc: DiskDescriptor) {
    exists k :: 0 <= k < |list| && list[k].isRootVol && list[k].containerIds == [c] && desc == BlockInfo(list[k])
  }

  /** Every entry has been read. */
  predicate EntryRead(list: seq<PersistVolume>, t: Tables, k: nat)
    requires k < |list|
  {
    if list[k].isRootVol then |list[k].containerIds| == 1 && list[k].containerIds[0] in t.images
    else k in t.from
  }

  /** The tables hold the entries of `list`. */
  ghost predicate Loaded(list: seq<PersistVolume>, t: Tables) {
    && Sourced(list, t)
    && (forall d :: 0 <= d < |t.disks| ==> DiskFrom(list, t, d))
    && (forall v :: v in t.volumes ==> VolumeFrom(t, v))
    && (forall c, d: nat :: ListFrom(list, t, c, d))
    && (forall c :: c in t.lists ==> t.lists[c] != [])
    && (forall k :: 0 <= k < |list| ==> EntryRead(list, t, k))
    && (forall c :: c in t.images ==> ImageFrom(list, c, t.images[c]))
  }

  /** Disk `d` is added to the list of each of the containers. */
  ghost predicate ListedMore(was: map<Name, seq<nat>>, now: map<Name, seq<nat>>, ids: seq<Name>, d: nat) {
    && (forall c, x :: x in Listed(now, c) <==> x in Listed(was, c) || (x == d && c in ids))
    && (forall c :: c in now && (c in was ==> was[c] != []) ==> now[c] != [])
  }

  method ListDisk(lists: map<Name, seq<nat>>, ids: seq<Name>, d: nat) returns (r: map<Name, seq<nat>>)
    ensures ListedMore(lists, r, ids, d)
  {
    r := lists;
    for i := 0 to |ids|
      invariant ListedMore(lists, r, ids[..i], d)
    {
      r := r[ids[i] := Listed(r, ids[i]) + [d]];
      assert ids[..i + 1] == ids[..i] + [ids[i]];
    }
    assert ids[..|ids|] == ids;
  }

  /** The tables with a volume entry added. */
  function WithVolume(t: Tables, e: PersistVolume, k: nat, lists: map<Name, seq<nat>>): Tables {
    t.(disks := t.disks + [VolumeDisk(e)], volumes := t.volumes[e.name := |t.disks|], lists := lists, from := t.from + [k])
  }

  function WithRoot(t: Tables, c: Name, e: PersistVolume): Tables {
    t.(images := t.images[c := BlockInfo(e)])
  }

  /** More entries, none of the tables lost. */
  lemma MoreEntries(list: seq<PersistVolume>, e: PersistVolume, t: Tables, u: Tables)
    requires Loaded(list, t) && t.from <= u.from && t.images.Keys <= u.images.Keys
    ensures forall k :: 0 <= k < |list| ==> EntryRead(list + [e], u, k)
    ensures forall c :: c in t.images ==> ImageFrom(list + [e], c, t.images[c])
  {
    var more := list + [e];
    forall k | 0 <= k < |list|
      ensures EntryRead(more, u, k)
    {
      assert EntryRead(list, t, k) && more[k] == list[k];
    }
    forall c | c in t.images
      ensures ImageFrom(more, c, t.images[c])
    {
      assert ImageFrom(list, c, t.images[c]);
      var k :| 0 <= k < |list| && list[k].isRootVol && list[k].containerIds == [c] && t.images[c] == BlockInfo(list[k]);
      assert more[k] == list[k];
    }
  }

  lemma MoreListed(list: seq<PersistVolume>, e: PersistVolume, t: Tables, lists: map<Name, seq<nat>>, c: Name, d: nat)
    requires Sourced(list, t) && ListFrom(list, t, c, d) && ListedMore(t.lists, lists, e.containerIds, |t.disks|)
    ensures Sourced(list + [e], WithVolume(t, e, |list|, lists))
    ensures ListFrom(list + [e], WithVolume(t, e, |list|, lists), c, d)
  {
  }

  lemma MoreDisks(list: seq<PersistVolume>, e: PersistVolume, t: Tables, lists: map<Name, seq<nat>>, d: nat)
    requires Loaded(list, t) && d <= |t.disks| && !e.isRootVol
    ensures Sourced(list + [e], WithVolume(t, e, |list|, lists))
    ensures DiskFrom(list + [e], WithVolume(t, e, |list|, lists), d)
  {
    if d < |t.disks| {
      assert DiskFrom(list, t, d);
    }
  }

  lemma AddVolumeEntry(list: seq<PersistVolume>, e: PersistVolume, t: Tables, lists: map<Name, seq<nat>>)
    requires Loaded(list, t) && !e.isRootVol && ListedMore(t.lists, lists, e.containerIds, |t.disks|)
    ensures Loaded(list + [e], WithVolume(t, e, |list|, lists))
  {
    var u := WithVolume(t, e, |list|, lists);
    var more := list + [e];
    assert Sourced(more, u);
    forall d: nat | d < |u.disks|
      ensures DiskFrom(more, u, d)
    {
      MoreDisks(list, e, t, lists, d);
    }
    forall v | v in u.volumes
      ensures VolumeFrom(u, v)
    {
      assert v != e.name ==> VolumeFrom(t, v);
    }
    forall c, d: nat
      ensures ListFrom(more, u, c, d)
    {
      assert ListFrom(list, t, c, d);
      MoreListed(list, e, t, lists, c, d);
    }
    MoreEntries(list, e, t, u);
    assert u.from[|t.from|] == |list|;
  }

  lemma AddRootEntry(list: seq<PersistVolume>, e: PersistVolume, t: Tables, c0: Name)
    requires Loaded(list, t) && e.isRootVol && e.containerIds == [c0]
    ensures Loaded(list + [e], WithRoot(t, c0, e))
  {
    var u := WithRoot(t, c0, e);
    var more := list + [e];
    assert Sourced(more, u);
    forall d: nat | d < |u.disks|
      ensures DiskFrom(more, u, d)
    {
      assert DiskFrom(list, t, d);
    }
    forall v | v in u.volumes
      ensures VolumeFrom(u, v)
    {
      assert VolumeFrom(t, v);
    }
    forall c, d: nat
      ensures ListFrom(more, u, c, d)
    {
      assert ListFrom(list, t, c, d);
    }
    MoreEntries(list, e, t, u);
    assert more[|list|] == e;
  }

  /** The loop of vmContext over the volume list; it fails exactly on a root entry that names not one container. */
  method LoadVolumes(list: seq<PersistVolume>) returns (r: Option<Tables>)
    ensures r.None? <==> exists k :: 0 <= k < |list| && list[k].isRootVol && |list[k].containerIds| != 1
    ensures r.Some? ==> Loaded(list, r.value)
  {
    var t := Tables([], map[], map[], map[], []);
    var k := 0;
    while k < |list|
      invariant 0 <= k <= |list| && Loaded(list[..k], t)
      invariant forall j :: 0 <= j < k && list[j].isRootVol ==> |list[j].containerIds| == 1
    {
      var vol := list[k];
      assert list[..k + 1] == list[..k] + [vol];
      if vol.isRootVol {
        if |vol.containerIds| != 1 {
          return None;
        }
        AddRootEntry(list[..k], vol, t, vol.containerIds[0]);
        t := WithRoot(t, vol.containerIds[0], vol);
      } else {
        var lists := ListDisk(t.lists, vol.containerIds, |t.disks|);
        AddVolumeEntry(list[..k], vol, t, lists);
        t := WithVolume(t, vol, k, lists);
      }
      k := k + 1;
    }
    assert list[..k] == list;
    return Some(t);
  }

  // ---------- the containers ----------

  function RootDisk(desc: DiskDescriptor, id: Name, g: nat): Disk {
    Disk(desc, true, true, map[id := g], !Virtual(desc.format), false, false)
  }

  /** The names of the disks listed for a container. */
  function NamesOf(t: Tables, list: seq<nat>): set<Name> {
    set d | d in list && d < |t.disks| :: t.disks[d].desc.name
  }

  /** A restored description: its volumes are those the saved entries name, when any does. */
  function RestoredDesc(t: Tables, desc: ContainerDescription, c: Name): ContainerDescription {
    if c in t.lists then desc.(volumes := map v | v in NamesOf(t, t.lists[c]) :: VolumeReference([])) else desc
  }

  /** The sandbox before its containers are restored. */
  function Empty(t: Tables, scsiId: nat): State {
    State(true, scsiId, t.volumes, map[], t.disks, [])
  }

  /** One container is restored, under the id its description carries. */
  function Rebuild(t: Tables, s: State, c: Name, desc: ContainerDescription): State
    requires c in t.images
  {
    var g := |s.groups|;
    var id := desc.id;
    s.(disks := Observed(s.disks, Listed(t.lists, c), id, g) + [RootDisk(t.images[c], id, g)],
       groups := s.groups + [Group(id, multiset{}, multiset{})],
       containers := s.containers[id := Container(RestoredDesc(t, desc, c), |s.disks|, g)])
  }

  /** disk.wait on each of the listed disks, all of them ready. */
  function Observed(disks: seq<Disk>, list: seq<nat>, id: Name, g: nat): seq<Disk> {
    seq(|disks|, d requires 0 <= d < |disks| => if d in list then Waiting(disks[d], id, g) else disks[d])
  }

  /** disk.wait on a disk that is ready: no Add. */
  function Waiting(disk: Disk, id: Name, g: nat): Disk {
    if id in disk.observers then disk else disk.(observers := disk.observers[id := g])
  }

  /** Disk `d` is that of its entry, observed by the restored containers its entry names. */
  ghost predicate VolumeBuilt(t: Tables, s: State, d: nat)
    requires d < |t.disks| <= |s.disks|
  {
    && s.disks[d] == t.disks[d].(observers := s.disks[d].observers)
    && (forall c :: c in s.disks[d].observers <==> c in s.containers && d in Listed(t.lists, c))
    && (forall c :: c in s.disks[d].observers ==> s.disks[d].observers[c] == s.containers[c].group)
  }

  predicate ContainerBuilt(t: Tables, descs: map<Name, ContainerDescription>, s: State, c: Name)
    requires c in s.containers
  {
    var cc := s.containers[c];
    && c in descs && c in t.images && cc.desc == RestoredDesc(t, descs[c], c)
    && |t.disks| <= cc.root < |s.disks| && s.disks[cc.root] == RootDisk(t.images[c], c, cc.group)
    && cc.group < |s.groups| && s.groups[cc.group].owner == c
  }

  /** Disk `d`, past those of the volumes, is the root of a container. */
  predicate RootBuilt(s: State, d: nat) {
    exists c :: c in s.containers && s.containers[c].root == d
  }

  /** The restored containers, built on the tables. */
  ghost predicate Built(t: Tables, descs: map<Name, ContainerDescription>, scsiId: nat, s: State) {
    && s.running && s.scsiId == scsiId && s.volumes == t.volumes && |t.disks| <= |s.disks|
    && (forall d :: 0 <= d < |t.disks| ==> VolumeBuilt(t, s, d))
    && (forall c :: c in s.containers ==> ContainerBuilt(t, descs, s, c))
    && (forall d :: |t.disks| <= d < |s.disks| ==> RootBuilt(s, d))
    && RootsApart(s) && GroupsIdle(s)
  }

  lemma EmptyBuilt(list: seq<PersistVolume>, t: Tables, descs: map<Name, ContainerDescription>, scsiId: nat)
    requires Loaded(list, t)
    ensures Built(t, descs, scsiId, Empty(t, scsiId))
  {
    forall d | 0 <= d < |t.disks|
      ensures VolumeBuilt(t, Empty(t, scsiId), d)
    {
      assert DiskFrom(list, t, d);
    }
  }

  lemma RebuildVolume(t: Tables, s: State, c: Name, desc: ContainerDescription, d: nat)
    requires d < |t.disks| <= |s.disks| && VolumeBuilt(t, s, d) && c in t.images && c !in s.containers && desc.id == c
    ensures VolumeBuilt(t, Rebuild(t, s, c, desc), d)
  {
  }

  lemma RebuildContainer(t: Tables, descs: map<Name, ContainerDescription>, s: State, c: Name, b: Name)
    requires c in t.images && c in descs && c !in s.containers && descs[c].id == c && |t.disks| <= |s.disks|
    requires forall d :: d in Listed(t.lists, c) ==> d < |t.disks|
    requires b == c || (b in s.containers && ContainerBuilt(t, descs, s, b))
    ensures ContainerBuilt(t, descs, Rebuild(t, s, c, descs[c]), b)
  {
    var u := Rebuild(t, s, c, descs[c]);
    var root := u.containers[b].root;
    assert u.disks[root] == if b == c then RootDisk(t.images[c], c, |s.groups|) else s.disks[root];
  }

  lemma RebuildRoot(t: Tables, s: State, c: Name, desc: ContainerDescription, d: nat)
    requires c in t.images && c !in s.containers && desc.id == c && d <= |s.disks|
    requires d < |s.disks| ==> RootBuilt(s, d)
    ensures RootBuilt(Rebuild(t, s, c, desc), d)
  {
    var u := Rebuild(t, s, c, desc);
    if d < |s.disks| {
      var b :| b in s.containers && s.containers[b].root == d;
      assert b in u.containers && u.containers[b].root == d;
    } else {
      assert c in u.containers && u.containers[c].root == d;
    }
  }

  /** What one more container changes: a disk, a group, an entry of the map. */
  predicate OneMore(s: State, u: State, c: Name) {
    && u.running == s.running && u.scsiId == s.scsiId && u.volumes == s.volumes
    && |u.disks| == |s.disks| + 1 && |u.groups| == |s.groups| + 1
    && (forall g :: 0 <= g < |s.groups| ==> u.groups[g] == s.groups[g])
    && u.groups[|s.groups|].adds == multiset{} && u.groups[|s.groups|].dones == multiset{}
    && c in u.containers && u.containers[c].root == |s.disks| && u.containers == s.containers[c := u.containers[c]]
  }

  /** Different containers have different roots, and the disks hold them all. */
  predicate RootsApart(s: State) {
    && (forall b :: b in s.containers ==> s.containers[b].root < |s.disks|)
    && (forall b, c :: b in s.containers && c in s.containers && s.containers[b].root == s.containers[c].root ==> b == c)
  }

  predicate GroupsIdle(s: State) {
    forall g :: 0 <= g < |s.groups| ==> s.groups[g].adds == multiset{} && s.groups[g].dones == multiset{}
  }

  lemma OneMoreRoots(s: State, u: State, c: Name)
    requires RootsApart(s) && GroupsIdle(s) && OneMore(s, u, c)
    ensures RootsApart(u) && GroupsIdle(u)
  {
    forall b | b in u.containers && b != c
      ensures b in s.containers && u.containers[b] == s.containers[b]
    {
    }
  }

  lemma RebuildKeeps(t: Tables, descs: map<Name, ContainerDescription>, scsiId: nat, s: State, c: Name)
    requires Built(t, descs, scsiId, s) && c in t.images && c in descs && c !in s.containers && descs[c].id == c
    requires forall d :: d in Listed(t.lists, c) ==> d < |t.disks|
    ensures Built(t, descs, scsiId, Rebuild(t, s, c, descs[c]))
  {
    var u := Rebuild(t, s, c, descs[c]);
    RebuildShape(t, s, c, descs[c]);
    forall d | 0 <= d < |t.disks|
      ensures VolumeBuilt(t, u, d)
    {
      RebuildVolume(t, s, c, descs[c], d);
    }
    forall b | b in u.containers
      ensures ContainerBuilt(t, descs, u, b)
    {
      RebuildContainer(t, descs, s, c, b);
    }
    forall d | |t.disks| <= d < |u.disks|
      ensures RootBuilt(u, d)
    {
      RebuildRoot(t, s, c, descs[c], d);
    }
    OneMoreRoots(s, u, c);
  }

  lemma RebuildShape(t: Tables, s: State, c: Name, desc: ContainerDescription)
    requires c in t.images && desc.id == c
    ensures OneMore(s, Rebuild(t, s, c, desc), c)
  {
  }

  /** The description of each saved container carries the id it is saved under. */
  predicate KeysMatch(descs: map<Name, ContainerDescription>) {
    forall c :: c in descs ==> descs[c].id == c
  }

  /** The body of the container loop: the wait on each listed disk, then on the new root. */
  method RebuildOne(t: Tables, s: State, c: Name, desc: ContainerDescription) returns (u: State)
    requires c in t.images && |t.disks| <= |s.disks| && forall d :: d in Listed(t.lists, c) ==> d < |t.disks|
    ensures u == Rebuild(t, s, c, desc)
  {
    var g := |s.groups|;
    var restored := desc;
    var disks := s.disks;
    if c in t.lists {
      var volumes: map<Name, VolumeReference> := map[];
      var list := t.lists[c];
      for i := 0 to |list|
        invariant disks == Observed(s.disks, list[..i], desc.id, g)
        invariant volumes == map v | v in NamesOf(t, list[..i]) :: VolumeReference([])
      {
        var d := list[i];
        assert d in list;
        volumes := volumes[t.disks[d].desc.name := VolumeReference([])];
        disks := disks[d := Waiting(disks[d], desc.id, g)];
        assert list[..i + 1] == list[..i] + [d];
      }
      assert list[..|list|] == list;
      restored := desc.(volumes := volumes);
    }
    u := s.(disks := disks + [RootDisk(t.images[c], desc.id, g)],
            groups := s.groups + [Group(desc.id, multiset{}, multiset{})],
            containers := s.containers[desc.id := Container(restored, |disks|, g)]);
  }

  /** Where the container loop stands, when each description carries the id it is saved under. */
  ghost predicate Progress(t: Tables, descs: map<Name, ContainerDescription>, scsiId: nat, s: State, done: set<Name>) {
    && |t.disks| <= |s.disks|
    && (KeysMatch(descs) ==> Built(t, descs, scsiId, s) && s.containers.Keys == done)
  }

  lemma ProgressStep(t: Tables, descs: map<Name, ContainerDescription>, scsiId: nat, s: State, done: set<Name>, c: Name)
    requires Progress(t, descs, scsiId, s, done) && c in t.images && c in descs && c !in done
    requires forall d :: d in Listed(t.lists, c) ==> d < |t.disks|
    ensures Progress(t, descs, scsiId, Rebuild(t, s, c, descs[c]), done + {c})
  {
    if KeysMatch(descs) {
      RebuildKeeps(t, descs, scsiId, s, c);
    }
  }

  lemma ListedDisks(list: seq<PersistVolume>, t: Tables, c: Name)
    requires Loaded(list, t)
    ensures forall d :: d in Listed(t.lists, c) ==> d < |t.disks|
  {
    forall d | d in Listed(t.lists, c)
      ensures d < |t.disks|
    {
      assert ListFrom(list, t, c, d);
    }
  }

  /** The loop of vmContext over the containers, in any order; it fails exactly on a container without a root entry. */
  method LoadContainers(list: seq<PersistVolume>, t: Tables, descs: map<Name, ContainerDescription>, scsiId: nat)
    returns (r: Option<State>)
    requires Loaded(list, t)
    ensures r.None? <==> exists c :: c in descs && c !in t.images
    ensures r.Some? ==> Progress(t, descs, scsiId, r.value, descs.Keys)
  {
    var s := Empty(t, scsiId);
    EmptyBuilt(list, t, descs, scsiId);
    var todo := descs.Keys;
    while todo != {}
      invariant todo <= descs.Keys && forall c :: c in descs && c !in todo ==> c in t.images
      invariant Progress(t, descs, scsiId, s, descs.Keys - todo)
      decreases todo
    {
      var c :| c in todo;
      if c !in t.images {
        return None;
      }
      ListedDisks(list, t, c);
      ProgressStep(t, descs, scsiId, s, descs.Keys - todo, c);
      s := RebuildOne(t, s, c, descs[c]);
      assert descs.Keys - (todo - {c}) == descs.Keys - todo + {c};
      todo := todo - {c};
    }
    assert descs.Keys - {} == descs.Keys;
    return Some(s);
  }
}
