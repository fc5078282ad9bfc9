/** Saving a sandbox's volumes and containers. */
module Persistence {
  import opened Sandbox

  datatype PersistVolume = PersistVolume(
    name: Name, filename: string, format: string, fstype: string, deviceName: string, scsiId: nat,
    containerIds: seq<Name>, isRootVol: bool)

  /** DiskDescriptor.dump. */
  function DumpDisk(d: DiskDescriptor): PersistVolume {
    PersistVolume(d.name, d.filename, d.format, d.fstype, d.deviceName, d.scsiId, [], false)
  }

  /** PersistVolumeInfo.blockInfo. */
  function BlockInfo(v: PersistVolume): DiskDescriptor {
    DiskDescriptor(v.name, v.filename, v.format, v.fstype, v.deviceName, v.scsiId, "", false, false, map[])
  }

  /** What of a descriptor survives. */
  function Kept(d: DiskDescriptor): DiskDescriptor {
    d.(scsiAddr := "", dockerVolume := false, readOnly := false, options := map[])
  }

  lemma DescriptorRoundTrip(d: DiskDescriptor, ids: seq<Name>, root: bool)
    ensures BlockInfo(DumpDisk(d).(containerIds := ids, isRootVol := root)) == Kept(d)
  {
  }

  // ---------- what a dump is ----------

  /** The entry of a volume: its descriptor, and its observers in any order. */
  ghost predicate VolumeEntry(s: State, e: PersistVolume, v: Name)
    requires DisksOk(s)
  {
    && v in s.volumes
    && e == DumpDisk(s.disks[s.volumes[v]].desc).(containerIds := e.containerIds)
    && forall x :: x in e.containerIds <==> x in s.disks[s.volumes[v]].observers
  }

  /** The entry of a container's root disk. */
  function RootEntry(s: State, c: Name): PersistVolume
    requires DisksOk(s) && c in s.containers
  {
    DumpDisk(s.disks[s.containers[c].root].desc).(containerIds := [c], isRootVol := true)
  }

  /** Entry `k` is for the volume or the container `who[k]`. */
  ghost predicate Entry(s: State, e: PersistVolume, who: Name)
    requires DisksOk(s)
  {
    if e.isRootVol then who in s.containers && e == RootEntry(s, who) else VolumeEntry(s, e, who)
  }

  /** There is an entry for the volume, or for the container, `name`. */
  ghost predicate Covers(list: seq<PersistVolume>, who: seq<Name>, name: Name, root: bool)
    requires |who| == |list|
  {
    exists k :: 0 <= k < |list| && list[k].isRootVol == root && who[k] == name
  }

  /** One entry for each volume and each container's root, in any order. */
  ghost predicate IsDump(s: State, list: seq<PersistVolume>, descs: map<Name, ContainerDescription>, who: seq<Name>)
    requires DisksOk(s)
  {
    && |who| == |list|
    && (forall k :: 0 <= k < |list| ==> Entry(s, list[k], who[k]))
    && (forall j, k :: 0 <= j < k < |list| && list[j].isRootVol == list[k].isRootVol ==> who[j] != who[k])
    && (forall v :: v in s.volumes ==> Covers(list, who, v, false))
    && (forall c :: c in s.containers ==> Covers(list, who, c, true))
    && descs.Keys == s.containers.Keys && (forall c :: c in descs ==> descs[c] == s.containers[c].desc)
  }

  method CollectIds(observers: map<Name, nat>) returns (ids: seq<Name>)
    ensures forall x :: x in ids <==> x in observers
  {
    ids := [];
    var todo := observers.Keys;
    while todo != {}
      invariant forall x :: x in observers <==> x in ids || x in todo
      decreases todo
    {
      var id :| id in todo;
      todo := todo - {id};
      ids := ids + [id];
    }
  }

  /** Distinct entries, each for one of the names: all of them volumes, or all of them roots. */
  ghost predicate Part(s: State, list: seq<PersistVolume>, who: seq<Name>, root: bool)
    requires DisksOk(s)
  {
    && |who| == |list|
    && (forall k :: 0 <= k < |list| ==> list[k].isRootVol == root && Entry(s, list[k], who[k]))
    && (forall j, k :: 0 <= j < k < |list| ==> who[j] != who[k])
  }

  /** The loop of VmContext.dump over the volumes. */
  method DumpVolumes(s: State) returns (list: seq<PersistVolume>, ghost who: seq<Name>)
    requires DisksOk(s)
    ensures Part(s, list, who, false) && forall v :: v in s.volumes ==> v in who
  {
    list, who := [], [];
    var todo := s.volumes.Keys;
    while todo != {}
      invariant todo <= s.volumes.Keys && Part(s, list, who, false)
      invariant forall k :: 0 <= k < |who| ==> who[k] !in todo
      invariant forall v :: v in s.volumes && v !in todo ==> v in who
      decreases todo
    {
      var v :| v in todo;
      todo := todo - {v};
      var disk := s.disks[s.volumes[v]];
      var ids := CollectIds(disk.observers);
      list := list + [DumpDisk(disk.desc).(containerIds := ids)];
      who := who + [v];
    }
  }

  /** The loop of VmContext.dump over the containers. */
  method DumpContainers(s: State) returns (list: seq<PersistVolume>, descs: map<Name, ContainerDescription>, ghost who: seq<Name>)
    requires DisksOk(s)
    ensures Part(s, list, who, true) && forall c :: c in s.containers ==> c in who
    ensures descs.Keys == s.containers.Keys && forall c :: c in descs ==> descs[c] == s.containers[c].desc
  {
    list, descs, who := [], map[], [];
    var todo := s.containers.Keys;
    while todo != {}
      invariant todo <= s.containers.Keys && Part(s, list, who, true)
      invariant forall k :: 0 <= k < |who| ==> who[k] !in todo
      invariant forall c :: c in s.containers && c !in todo ==> c in who
      invariant descs.Keys == s.containers.Keys - todo && forall c :: c in descs ==> descs[c] == s.containers[c].desc
      decreases todo
    {
      var c :| c in todo;
      todo := todo - {c};
      var cc := s.containers[c];
      list := list + [DumpDisk(s.disks[cc.root].desc).(containerIds := [c], isRootVol := true)];
      descs := descs[c := cc.desc];
      who := who + [c];
    }
  }

  /** The volume and container part of VmContext.dump. */
  method Dump(s: State) returns (list: seq<PersistVolume>, descs: map<Name, ContainerDescription>)
    requires DisksOk(s)
    ensures exists who :: IsDump(s, list, descs, who)
  {
    ghost var vols: seq<Name>, roots: seq<Name>;
    var first, second;
    first, vols := DumpVolumes(s);
    second, descs, roots := DumpContainers(s);
    list := first + second;
    ghost var who := vols + roots;
    JoinParts(s, first, vols, second, roots);
    forall name
      ensures name in vols ==> Covers(list, who, name, false)
      ensures name in roots ==> Covers(list, who, name, true)
    {
      JoinCovers(s, first, vols, second, roots, name);
    }
    assert IsDump(s, list, descs, who);
  }

  lemma JoinCovers(s: State, a: seq<PersistVolume>, vols: seq<Name>, b: seq<PersistVolume>, roots: seq<Name>, name: Name)
    requires DisksOk(s) && Part(s, a, vols, false) && Part(s, b, roots, true)
    ensures name in vols ==> Covers(a + b, vols + roots, name, false)
    ensures name in roots ==> Covers(a + b, vols + roots, name, true)
  {
    if name in vols {
      var k :| 0 <= k < |vols| && vols[k] == name;
      assert (vols + roots)[k] == name && (a + b)[k] == a[k];
    }
    if name in roots {
      var k :| 0 <= k < |roots| && roots[k] == name;
      assert (vols + roots)[|vols| + k] == name && (a + b)[|a| + k] == b[k];
    }
  }

  lemma JoinEntry(s: State, a: seq<PersistVolume>, vols: seq<Name>, b: seq<PersistVolume>, roots: seq<Name>, k: nat)
    requires DisksOk(s) && Part(s, a, vols, false) && Part(s, b, roots, true) && k < |a + b|
    ensures Entry(s, (a + b)[k], (vols + roots)[k]) && (a + b)[k].isRootVol == (k >= |a|)
    ensures (vols + roots)[k] == if k < |a| then vols[k] else roots[k - |a|]
  {
    assert (a + b)[k] == if k < |a| then a[k] else b[k - |a|];
  }

  lemma JoinParts(s: State, a: seq<PersistVolume>, vols: seq<Name>, b: seq<PersistVolume>, roots: seq<Name>)
    requires DisksOk(s) && Part(s, a, vols, false) && Part(s, b, roots, true)
    ensures var list, who := a + b, vols + roots;
      && (forall k :: 0 <= k < |list| ==> Entry(s, list[k], who[k]))
      && (forall j, k :: 0 <= j < k < |list| && list[j].isRootVol == list[k].isRootVol ==> who[j] != who[k])
  {
    var list, who := a + b, vols + roots;
    forall k | 0 <= k < |list|
      ensures Entry(s, list[k], who[k])
    {
      JoinEntry(s, a, vols, b, roots, k);
    }
    forall j, k | 0 <= j < k < |list| && list[j].isRootVol == list[k].isRootVol
      ensures who[j] != who[k]
    {
      JoinEntry(s, a, vols, b, roots, j);
      JoinEntry(s, a, vols, b, roots, k);
    }
  }
}
