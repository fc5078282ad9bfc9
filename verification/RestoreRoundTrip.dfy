/** Saving a sandbox and restoring it gives a sandbox that answers as the saved one would. */
module RestoreRoundTrip {
  import opened Sandbox
  import opened SandboxFace
  import opened Persistence
  import opened Restore

  // ---------- what a restored sandbox is ----------

  /** Disk `e` of `u` was restored from disk `d` of `s`: its descriptor as far as it is kept, ready, nothing pending. */
  predicate DiskSame(s: State, d: nat, u: State, e: nat)
    requires d < |s.disks| && e < |u.disks|
  {
    && u.disks[e].desc == Kept(s.disks[d].desc)
    && u.disks[e].ready && !u.disks[e].inFlight && !u.disks[e].unplugging
    && (u.disks[e].plugged <==> !Virtual(u.disks[e].desc.format))
  }

  predicate VolumeSame(s: State, u: State, v: Name)
    requires DisksOk(s) && DisksOk(u)
  {
    && v in s.volumes && v in u.volumes
    && DiskSame(s, s.volumes[v], u, u.volumes[v])
    && !u.disks[u.volumes[v]].isRoot
    && u.disks[u.volumes[v]].observers.Keys == s.disks[s.volumes[v]].observers.Keys
    && (forall c :: c in u.disks[u.volumes[v]].observers && c in u.containers ==>
          u.disks[u.volumes[v]].observers[c] == u.containers[c].group)
  }

  predicate ContainerSame(s: State, u: State, c: Name)
    requires DisksOk(s) && DisksOk(u)
  {
    && c in s.containers && c in u.containers
    && var sc, uc := s.containers[c], u.containers[c];
    && uc.desc == sc.desc.(volumes := uc.desc.volumes) && uc.desc.volumes.Keys == sc.desc.volumes.Keys
    && DiskSame(s, sc.root, u, uc.root)
    && u.disks[uc.root].isRoot && u.disks[uc.root].observers == map[c := uc.group]
    && u.groups[uc.group].owner == c
  }

  /** Disk `e` is that of a volume or a container's root. */
  predicate Placed(u: State, e: nat) {
    || (exists v :: v in u.volumes && u.volumes[v] == e)
    || RootBuilt(u, e)
  }

  /** `u` is `s` again: its volumes, its containers, who uses what; every disk ready, no group waiting, running. */
  ghost predicate Restored(s: State, u: State) {
    && DisksOk(s) && DisksOk(u)
    && u.running && u.scsiId == s.scsiId
    && u.volumes.Keys == s.volumes.Keys && u.containers.Keys == s.containers.Keys
    && (forall v :: v in u.volumes ==> VolumeSame(s, u, v))
    && (forall c :: c in u.containers ==> ContainerSame(s, u, c))
    && (forall e :: 0 <= e < |u.disks| ==> Placed(u, e))
    && RootsApart(u) && GroupsIdle(u)
  }

  // ---------- it satisfies the invariant ----------

  /** The disk of `s` that disk `e` of `u` was restored from. */
  ghost predicate From(s: State, u: State, e: nat, d: nat)
    requires DisksOk(s) && DisksOk(u)
  {
    || (exists v :: v in u.volumes && v in s.volumes && u.volumes[v] == e && s.volumes[v] == d)
    || (exists c :: c in u.containers && c in s.containers && u.containers[c].root == e && s.containers[c].root == d)
  }

  lemma HasOrigin(s: State, u: State, e: nat) returns (d: nat)
    requires Restored(s, u) && e < |u.disks|
    ensures d < |s.disks| && DiskSame(s, d, u, e) && From(s, u, e, d)
  {
    assert Placed(u, e);
    if v :| v in u.volumes && u.volumes[v] == e {
      assert VolumeSame(s, u, v);
      d := s.volumes[v];
    } else {
      var c :| c in u.containers && u.containers[c].root == e;
      assert ContainerSame(s, u, c);
      d := s.containers[c].root;
    }
  }

  lemma VolumeIsNoRoot(s: State, v: Name, c: Name)
    requires Inv(s) && v in s.volumes && c in s.containers
    ensures s.volumes[v] != s.containers[c].root
  {
    assert ContainerInv(s, c) && DiskInv(s, s.containers[c].root);
  }

  /** Different disks were restored from different disks. */
  lemma OriginsApart(s: State, u: State, e: nat, f: nat, d: nat)
    requires Inv(s) && Restored(s, u) && From(s, u, e, d) && From(s, u, f, d)
    ensures e == f
  {
    forall v, c | v in s.volumes && c in s.containers
      ensures s.volumes[v] != s.containers[c].root
    {
      VolumeIsNoRoot(s, v, c);
    }
  }

  lemma RestoredScsi(s: State, u: State)
    requires Inv(s) && Restored(s, u)
    ensures ScsiInv(u)
  {
    forall e, f | 0 <= e < f < |u.disks| && u.disks[e].plugged && u.disks[f].plugged
      ensures u.disks[e].desc.scsiId != u.disks[f].desc.scsiId
    {
      var a := HasOrigin(s, u, e);
      var b := HasOrigin(s, u, f);
      if a == b {
        OriginsApart(s, u, e, f, a);
      }
      assert DiskInv(s, a) && DiskInv(s, b);
    }
  }

  /** Volume disks of `u` differ, and are no roots. */
  lemma RestoredApart(s: State, u: State, v: Name)
    requires Inv(s) && Restored(s, u) && v in u.volumes
    ensures forall w :: w in u.volumes && u.volumes[w] == u.volumes[v] ==> w == v
    ensures u.disks[u.volumes[v]].desc.name == v
    ensures forall c :: c in u.containers ==> u.containers[c].root != u.volumes[v]
  {
    assert VolumeSame(s, u, v);
    forall w | w in u.volumes && u.volumes[w] == u.volumes[v]
      ensures w == v
    {
      assert VolumeSame(s, u, w);
    }
    forall c | c in u.containers
      ensures u.containers[c].root != u.volumes[v]
    {
      assert ContainerSame(s, u, c);
    }
  }

  lemma RestoredMaps(s: State, u: State)
    requires Inv(s) && Restored(s, u)
    ensures MapsInv(u)
  {
    forall v | v in u.volumes
      ensures forall w :: w in u.volumes && u.volumes[w] == u.volumes[v] ==> w == v
      ensures u.disks[u.volumes[v]].desc.name == v
    {
      RestoredApart(s, u, v);
    }
    forall c | c in u.containers
      ensures ContainerInv(u, c)
    {
      assert ContainerInv(s, c) && ContainerSame(s, u, c);
    }
  }

  lemma RestoredUses(s: State, u: State, v: Name, c: Name)
    requires Inv(s) && Restored(s, u) && v in u.volumes
    ensures Uses(u, c, u.volumes[v]) <==> c in u.disks[u.volumes[v]].observers
  {
    RestoredApart(s, u, v);
    assert VolumeSame(s, u, v);
    ObserversAre(s, v, c);
    if c in u.containers {
      assert ContainerSame(s, u, c);
    }
  }

  lemma RestoredRootUses(s: State, u: State, c: Name, b: Name)
    requires Inv(s) && Restored(s, u) && c in u.containers
    ensures Uses(u, b, u.containers[c].root) <==> b == c
  {
    if v :| v in u.volumes && u.volumes[v] == u.containers[c].root {
      RestoredApart(s, u, v);
    }
  }

  lemma VolumeObservers(s: State, u: State, v: Name)
    requires Inv(s) && Restored(s, u) && v in u.volumes
    ensures ObserverInv(u, u.volumes[v])
  {
    forall c
      ensures Uses(u, c, u.volumes[v]) <==> c in u.disks[u.volumes[v]].observers
    {
      RestoredUses(s, u, v, c);
    }
    assert VolumeSame(s, u, v);
  }

  lemma RootObservers(s: State, u: State, c: Name)
    requires Inv(s) && Restored(s, u) && c in u.containers
    ensures ObserverInv(u, u.containers[c].root)
  {
    RootSeen(s, u, c);
    forall b
      ensures Uses(u, b, u.containers[c].root) <==> b == c
    {
      RestoredRootUses(s, u, c, b);
    }
    SeenByOne(u, u.containers[c].root, c);
  }

  lemma SeenByOne(u: State, d: nat, c: Name)
    requires d < |u.disks| && c in u.containers && u.disks[d].observers == map[c := u.containers[c].group]
    requires forall b :: Uses(u, b, d) <==> b == c
    ensures ObserverInv(u, d)
  {
  }

  lemma RootSeen(s: State, u: State, c: Name)
    requires Restored(s, u) && c in u.containers
    ensures u.disks[u.containers[c].root].observers == map[c := u.containers[c].group]
  {
    assert ContainerSame(s, u, c);
  }

  lemma RestoredObservers(s: State, u: State, e: nat)
    requires Inv(s) && Restored(s, u) && e < |u.disks|
    ensures ObserverInv(u, e)
  {
    assert Placed(u, e);
    if v :| v in u.volumes && u.volumes[v] == e {
      VolumeObservers(s, u, v);
    } else {
      var c :| c in u.containers && u.containers[c].root == e;
      RootObservers(s, u, c);
    }
  }

  lemma RestoredDisk(s: State, u: State, e: nat)
    requires Inv(s) && Restored(s, u) && e < |u.disks|
    ensures DiskInv(u, e)
  {
    var d := HasOrigin(s, u, e);
    assert DiskInv(s, d);
    if e in u.volumes.Values {
      var v :| v in u.volumes && u.volumes[v] == e;
      assert VolumeSame(s, u, v);
    }
  }

  lemma RestoredDebt(s: State, u: State, c: Name, d: nat)
    requires Restored(s, u) && c in u.containers
    ensures DebtInv(u, c, d)
  {
    if d < |u.disks| {
      var origin := HasOrigin(s, u, d);
    }
    IdleDebt(u, c, d);
  }

  lemma IdleDebt(u: State, c: Name, d: nat)
    requires DisksOk(u) && GroupsIdle(u) && c in u.containers && (d < |u.disks| ==> !u.disks[d].inFlight)
    ensures DebtInv(u, c, d)
  {
  }

  /** A restored sandbox satisfies everything a sandbox that ran does. */
  lemma RestoredInv(s: State, u: State)
    requires Inv(s) && Restored(s, u)
    ensures Inv(u)
  {
    RestoredMaps(s, u);
    RestoredScsi(s, u);
    forall e | 0 <= e < |u.disks|
      ensures ObserverInv(u, e) && DiskInv(u, e)
    {
      RestoredObservers(s, u, e);
      RestoredDisk(s, u, e);
    }
    forall c, d: nat | c in u.containers
      ensures DebtInv(u, c, d)
    {
      RestoredDebt(s, u, c, d);
    }
  }

  lemma RestoredVirtual(s: State, u: State, v: Name)
    requires Restored(s, u) && v in u.volumes
    ensures v in s.volumes && IsVirtual(u, u.volumes[v]) == IsVirtual(s, s.volumes[v])
  {
    assert VolumeSame(s, u, v);
  }

  lemma RestoredUse(s: State, u: State, c: Name)
    requires Restored(s, u) && c in u.containers
    ensures c in s.containers && IsVirtual(u, u.containers[c].root) == IsVirtual(s, s.containers[c].root)
    ensures u.containers[c].desc.volumes.Keys == s.containers[c].desc.volumes.Keys
  {
    assert ContainerSame(s, u, c);
  }

  lemma SameVirtual(s: State, u: State)
    requires DisksOk(s) && DisksOk(u) && u.volumes.Keys == s.volumes.Keys
    requires forall v :: v in u.volumes ==> IsVirtual(u, u.volumes[v]) == IsVirtual(s, s.volumes[v])
    ensures FaceOf(u).virtual == FaceOf(s).virtual
  {
    MapEq(FaceOf(u).virtual, FaceOf(s).virtual);
  }

  lemma SameUses(s: State, u: State)
    requires DisksOk(s) && DisksOk(u) && u.containers.Keys == s.containers.Keys
    requires forall c :: c in u.containers ==> IsVirtual(u, u.containers[c].root) == IsVirtual(s, s.containers[c].root)
    requires forall c :: c in u.containers ==> u.containers[c].desc.volumes.Keys == s.containers[c].desc.volumes.Keys
    ensures FaceOf(u).uses == FaceOf(s).uses
  {
    MapEq(FaceOf(u).uses, FaceOf(s).uses);
  }

  lemma RestoredFace(s: State, u: State)
    requires Restored(s, u)
    ensures FaceOf(u) == FaceOf(s).(running := true)
  {
    forall v | v in u.volumes
      ensures IsVirtual(u, u.volumes[v]) == IsVirtual(s, s.volumes[v])
    {
      RestoredVirtual(s, u, v);
    }
    forall c | c in u.containers
      ensures IsVirtual(u, u.containers[c].root) == IsVirtual(s, s.containers[c].root)
      ensures u.containers[c].desc.volumes.Keys == s.containers[c].desc.volumes.Keys
    {
      RestoredUse(s, u, c);
    }
    SameVirtual(s, u);
    SameUses(s, u);
  }

  /** Whatever is asked of it afterwards, a restored sandbox answers as the saved one, were it running, would. */
  lemma RestoredAnswers(s: State, u: State, a: seq<Step>, b: seq<Step>)
    requires Inv(s) && Restored(s, u) && s.running && Api(a) == Api(b)
    ensures Inv(u) && Answers(u, a) == Answers(s, b)
  {
    RestoredInv(s, u);
    RestoredFace(s, u);
    SameFaceSameAnswers(u, s, a, b);
  }

  // ---------- a dump restores ----------

  /** What was saved: the entries, the descriptions, and for whom each entry is. */
  datatype Record = Record(list: seq<PersistVolume>, descs: map<Name, ContainerDescription>, who: seq<Name>)

  /** The entry of a volume carries its name. */
  lemma EntryName(s: State, rec: Record, k: nat)
    requires Inv(s) && IsDump(s, rec.list, rec.descs, rec.who) && k < |rec.list|
    ensures !rec.list[k].isRootVol ==> rec.list[k].name == rec.who[k] && rec.who[k] in s.volumes
    ensures !rec.list[k].isRootVol ==> BlockInfo(rec.list[k]) == Kept(s.disks[s.volumes[rec.who[k]]].desc)
    ensures rec.list[k].isRootVol ==> rec.list[k].containerIds == [rec.who[k]] && rec.who[k] in s.containers
    ensures rec.list[k].isRootVol ==> BlockInfo(rec.list[k]) == Kept(s.disks[s.containers[rec.who[k]].root].desc)
  {
    assert Entry(s, rec.list[k], rec.who[k]);
  }

  /** The loops of vmContext do not fail on a dump. */
  lemma DumpLoads(s: State, rec: Record)
    requires Inv(s) && IsDump(s, rec.list, rec.descs, rec.who)
    ensures forall k :: 0 <= k < |rec.list| && rec.list[k].isRootVol ==> |rec.list[k].containerIds| == 1
    ensures KeysMatch(rec.descs)
  {
    forall k | 0 <= k < |rec.list| && rec.list[k].isRootVol
      ensures |rec.list[k].containerIds| == 1
    {
      EntryName(s, rec, k);
    }
    forall c | c in rec.descs
      ensures rec.descs[c].id == c
    {
      assert ContainerInv(s, c);
    }
  }

  ghost predicate DumpLoaded(s: State, rec: Record, t: Tables) {
    Inv(s) && IsDump(s, rec.list, rec.descs, rec.who) && Loaded(rec.list, t)
  }

  /** The image loaded for a container is its root's descriptor. */
  lemma DumpImage(s: State, rec: Record, t: Tables, c: Name)
    requires DumpLoaded(s, rec, t) && c in s.containers
    ensures c in t.images && t.images[c] == Kept(s.disks[s.containers[c].root].desc)
  {
    assert Covers(rec.list, rec.who, c, true);
    var k :| 0 <= k < |rec.list| && rec.list[k].isRootVol && rec.who[k] == c;
    EntryName(s, rec, k);
    assert EntryRead(rec.list, t, k);
    assert ImageFrom(rec.list, c, t.images[c]);
    var j :| 0 <= j < |rec.list| && rec.list[j].isRootVol && rec.list[j].containerIds == [c] && t.images[c] == BlockInfo(rec.list[j]);
    EntryName(s, rec, j);
  }

  /** Each disk of the tables is a volume's. */
  lemma DumpDiskOf(s: State, rec: Record, t: Tables, d: nat)
    requires DumpLoaded(s, rec, t) && d < |t.disks|
    ensures var v := t.disks[d].desc.name; v in t.volumes && t.volumes[v] == d && v in s.volumes && v == rec.who[t.from[d]]
  {
    assert DiskFrom(rec.list, t, d);
    EntryName(s, rec, t.from[d]);
    var v := t.disks[d].desc.name;
    var e := t.volumes[v];
    assert VolumeFrom(t, v) && DiskFrom(rec.list, t, e);
    EntryName(s, rec, t.from[e]);
  }

  /** Each volume has a disk in the tables. */
  lemma DumpVolumeOf(s: State, rec: Record, t: Tables, v: Name)
    requires DumpLoaded(s, rec, t) && v in s.volumes
    ensures v in t.volumes
  {
    assert Covers(rec.list, rec.who, v, false);
    var k :| 0 <= k < |rec.list| && !rec.list[k].isRootVol && rec.who[k] == v;
    EntryName(s, rec, k);
    assert EntryRead(rec.list, t, k);
    var d :| 0 <= d < |t.from| && t.from[d] == k;
    assert DiskFrom(rec.list, t, d);
  }

  /** A disk is listed for the containers that observed it. */
  lemma DumpListed(s: State, rec: Record, t: Tables, v: Name, c: Name)
    requires DumpLoaded(s, rec, t) && v in s.volumes && v in t.volumes
    ensures t.volumes[v] < |t.disks|
    ensures t.volumes[v] in Listed(t.lists, c) <==> c in s.disks[s.volumes[v]].observers
  {
    assert VolumeFrom(t, v);
    var d := t.volumes[v];
    DumpDiskOf(s, rec, t, d);
    assert ListFrom(rec.list, t, c, d) && DiskFrom(rec.list, t, d);
    assert Entry(s, rec.list[t.from[d]], rec.who[t.from[d]]);
  }

  /** The volumes a restored description names are those it named. */
  lemma DumpNames(s: State, rec: Record, t: Tables, c: Name, v: Name)
    requires DumpLoaded(s, rec, t) && c in s.containers
    ensures v in NamesOf(t, Listed(t.lists, c)) <==> v in s.containers[c].desc.volumes
  {
    assert ContainerInv(s, c);
    if v in s.containers[c].desc.volumes {
      DumpVolumeOf(s, rec, t, v);
      DumpListed(s, rec, t, v, c);
      ObserversAre(s, v, c);
      assert VolumeFrom(t, v);
      assert t.disks[t.volumes[v]].desc.name == v;
    }
    if v in NamesOf(t, Listed(t.lists, c)) {
      var d :| d in Listed(t.lists, c) && d < |t.disks| && t.disks[d].desc.name == v;
      DumpDiskOf(s, rec, t, d);
      DumpListed(s, rec, t, v, c);
      ObserversAre(s, v, c);
    }
  }

  /** Built on the tables of a dump: the sandbox, its maps, before the entries are compared. */
  ghost predicate DumpBuilt(s: State, rec: Record, t: Tables, u: State) {
    DumpLoaded(s, rec, t) && Built(t, rec.descs, s.scsiId, u) && u.containers.Keys == s.containers.Keys
  }

  lemma BuiltName(s: State, rec: Record, t: Tables, v: Name)
    requires DumpLoaded(s, rec, t)
    ensures v in t.volumes <==> v in s.volumes
    ensures v in t.volumes ==> t.volumes[v] < |t.disks|
  {
    if v in t.volumes {
      assert VolumeFrom(t, v);
      DumpDiskOf(s, rec, t, t.volumes[v]);
    }
    if v in s.volumes {
      DumpVolumeOf(s, rec, t, v);
    }
  }

  lemma BuiltMaps(s: State, rec: Record, t: Tables, u: State)
    requires DumpBuilt(s, rec, t, u)
    ensures DisksOk(u) && u.volumes.Keys == s.volumes.Keys
  {
    forall v
      ensures v in u.volumes <==> v in s.volumes
      ensures v in u.volumes ==> u.volumes[v] < |t.disks|
    {
      BuiltName(s, rec, t, v);
    }
    forall c | c in u.containers
      ensures u.containers[c].root < |u.disks| && u.containers[c].group < |u.groups|
    {
      assert ContainerBuilt(t, rec.descs, u, c);
    }
  }

  lemma BuiltVolume(s: State, rec: Record, t: Tables, u: State, v: Name)
    requires DumpBuilt(s, rec, t, u) && DisksOk(u) && v in u.volumes && v in s.volumes
    ensures VolumeSame(s, u, v)
  {
    assert VolumeFrom(t, v);
    var d := t.volumes[v];
    DumpDiskOf(s, rec, t, d);
    EntryName(s, rec, t.from[d]);
    assert DiskFrom(rec.list, t, d) && VolumeBuilt(t, u, d);
    forall c
      ensures c in u.disks[d].observers <==> c in s.disks[s.volumes[v]].observers
    {
      DumpListed(s, rec, t, v, c);
      ObserversAre(s, v, c);
    }
  }

  lemma BuiltNames(s: State, rec: Record, t: Tables, c: Name)
    requires DumpLoaded(s, rec, t) && c in s.containers && c in rec.descs
    ensures RestoredDesc(t, rec.descs[c], c).volumes.Keys == s.containers[c].desc.volumes.Keys
  {
    forall v
      ensures v in NamesOf(t, Listed(t.lists, c)) <==> v in s.containers[c].desc.volumes
    {
      DumpNames(s, rec, t, c, v);
    }
  }

  lemma BuiltContainer(s: State, rec: Record, t: Tables, u: State, c: Name)
    requires DumpBuilt(s, rec, t, u) && DisksOk(u) && c in u.containers
    ensures ContainerSame(s, u, c)
  {
    assert ContainerBuilt(t, rec.descs, u, c);
    BuiltNames(s, rec, t, c);
    DumpImage(s, rec, t, c);
  }

  lemma BuiltPlaced(s: State, rec: Record, t: Tables, u: State, e: nat)
    requires DumpBuilt(s, rec, t, u) && e < |u.disks|
    ensures Placed(u, e)
  {
    if e < |t.disks| {
      DumpDiskOf(s, rec, t, e);
    } else {
      assert RootBuilt(u, e);
    }
  }

  lemma BuiltRestored(s: State, rec: Record, t: Tables, u: State)
    requires DumpBuilt(s, rec, t, u)
    ensures Restored(s, u)
  {
    BuiltMaps(s, rec, t, u);
    forall v | v in u.volumes
      ensures VolumeSame(s, u, v)
    {
      BuiltVolume(s, rec, t, u, v);
    }
    forall c | c in u.containers
      ensures ContainerSame(s, u, c)
    {
      BuiltContainer(s, rec, t, u, c);
    }
    forall e: nat | e < |u.disks|
      ensures Placed(u, e)
    {
      BuiltPlaced(s, rec, t, u, e);
    }
  }

  // ---------- restoring ----------

  datatype Fault = RootMismatch | LackOfRoot
  datatype Outcome = Sandbox(state: State) | Corrupt(fault: Fault)

  /** Some root entry does not name one container. */
  predicate Mismatched(list: seq<PersistVolume>) {
    exists k :: 0 <= k < |list| && list[k].isRootVol && |list[k].containerIds| != 1
  }

  /** Some container has no root entry. */
  predicate Rootless(list: seq<PersistVolume>, descs: map<Name, ContainerDescription>) {
    exists c :: c in descs && !HasRoot(list, c)
  }

  /** The two loops of vmContext; a dump of a sandbox, its entries in any order, never fails and gives the sandbox again. */
  method Load(list: seq<PersistVolume>, descs: map<Name, ContainerDescription>, scsiId: nat) returns (r: Outcome)
    ensures r == Corrupt(RootMismatch) <==> Mismatched(list)
    ensures r == Corrupt(LackOfRoot) <==> !Mismatched(list) && Rootless(list, descs)
    ensures forall s, who :: Inv(s) && IsDump(s, list, descs, who) && s.scsiId == scsiId ==> r.Sandbox? && Restored(s, r.state)
  {
    var tables := LoadVolumes(list);
    if tables.None? {
      r := Corrupt(RootMismatch);
      forall s, who | Inv(s) && IsDump(s, list, descs, who)
        ensures false
      {
        DumpLoads(s, Record(list, descs, who));
      }
      return;
    }
    var t := tables.value;
    forall c
      ensures c in t.images <==> HasRoot(list, c)
    {
      ImagesAreRoots(list, t, c);
    }
    var state := LoadContainers(list, t, descs, scsiId);
    if state.None? {
      r := Corrupt(LackOfRoot);
    } else {
      r := Sandbox(state.value);
    }
    forall s, who | Inv(s) && IsDump(s, list, descs, who) && s.scsiId == scsiId
      ensures r.Sandbox? && Restored(s, r.state)
    {
      DumpLoads(s, Record(list, descs, who));
      forall c | c in descs
        ensures c in t.images
      {
        DumpImage(s, Record(list, descs, who), t, c);
      }
      BuiltRestored(s, Record(list, descs, who), t, state.value);
    }
  }

  /** Some root entry is for container `c`. */
  predicate HasRoot(list: seq<PersistVolume>, c: Name) {
    exists k :: 0 <= k < |list| && list[k].isRootVol && list[k].containerIds == [c]
  }

  lemma ImagesAreRoots(list: seq<PersistVolume>, t: Tables, c: Name)
    requires Loaded(list, t)
    ensures c in t.images <==> HasRoot(list, c)
  {
    if c in t.images {
      assert ImageFrom(list, c, t.images[c]);
    }
    if k :| 0 <= k < |list| && list[k].isRootVol && list[k].containerIds == [c] {
      assert EntryRead(list, t, k);
    }
  }
}
