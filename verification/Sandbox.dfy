/**
 The sandbox's containers and volumes: disks are plugged in and out asynchronously, containers
 observe the disks they use and wait for them on a wait group. Every operation is one region of
 the context's lock; disk completions come at any moment.
 */
module Sandbox {

  type Name = string

  datatype VolumeDescription = VolumeDescription(
    name: Name, source: string, format: string, fstype: string, dockerVolume: bool, readOnly: bool,
    options: map<string, string>)

  /** The mount points of a volume in a container, as filepath.Clean gives them. */
  datatype VolumeReference = VolumeReference(mounts: seq<string>)

  datatype ContainerDescription = ContainerDescription(
    id: Name, name: string, volumes: map<Name, VolumeReference>, rootVolume: VolumeDescription)

  datatype DiskDescriptor = DiskDescriptor(
    name: Name, filename: string, format: string, fstype: string, deviceName: string, scsiId: nat,
    scsiAddr: string, dockerVolume: bool, readOnly: bool, options: map<string, string>)

  /** `plugged`: it was given a SCSI id; `inFlight`: its insertion has not completed; `unplugging`: it is being removed. */
  datatype Disk = Disk(
    desc: DiskDescriptor, isRoot: bool, ready: bool, observers: map<Name, nat>,
    plugged: bool, inFlight: bool, unplugging: bool)

  /** A wait group: the disks its Add and Done calls were made for, and the container it belongs to. */
  datatype Group = Group(owner: Name, adds: multiset<nat>, dones: multiset<nat>)

  datatype Container = Container(desc: ContainerDescription, root: nat, group: nat)

  datatype State = State(
    running: bool, scsiId: nat, volumes: map<Name, nat>, containers: map<Name, Container>,
    disks: seq<Disk>, groups: seq<Group>)

  /** What an operation answers before it returns; nothing when a completion will answer. */
  datatype Answer = NotReady | NotRunning | Duplicate | BadSpec | NotExist | InUse | Added | NoNeedToUnplug

  function Init(): State {
    State(true, 0, map[], map[], [], [])
  }

  predicate IsDir(format: string) { format == "vfs" }
  predicate IsNas(format: string) { format == "nas" }
  predicate Virtual(format: string) { IsDir(format) || IsNas(format) }

  // ---------- disks ----------

  function NewDisk(vol: VolumeDescription, isRoot: bool): Disk {
    var d := DiskDescriptor(vol.name, vol.source, vol.format, vol.fstype, "", 0, "", vol.dockerVolume, vol.readOnly, map[]);
    if IsDir(vol.format) then Disk(d, isRoot, true, map[], false, false, false)
    else if IsNas(vol.format) then Disk(d.(deviceName := vol.source), isRoot, true, map[], false, false, false)
    else if vol.format == "rbd" then Disk(d.(options := vol.options), isRoot, false, map[], false, false, false)
    else Disk(d, isRoot, false, map[], false, false, false)
  }

  /** A new disk joins the sandbox and, unless it is ready, is inserted. */
  function Plug(s: State, disk: Disk): State {
    if disk.ready then s.(disks := s.disks + [disk])
    else s.(disks := s.disks + [disk.(desc := disk.desc.(scsiId := s.scsiId), plugged := true, inFlight := true)],
            scsiId := s.scsiId + 1)
  }

  function Forget(disk: Disk, id: Name): Disk {
    disk.(observers := disk.observers - {id})
  }

  /** disk.remove. */
  function Unplug(s: State, d: nat): (State, seq<Answer>)
    requires d < |s.disks|
  {
    if Virtual(s.disks[d].desc.format) then (s, [NoNeedToUnplug])
    else (s.(disks := s.disks[d := s.disks[d].(unplugging := true)]), [])
  }

  /** disk.inserted and disk.failed: every observer's group gets one Done. */
  function Fire(s: State, d: nat, ready: bool): State
    requires d < |s.disks|
  {
    var disk := s.disks[d];
    s.(disks := s.disks[d := disk.(ready := ready)],
       groups := seq(|s.groups|, g requires 0 <= g < |s.groups| =>
                       if g in disk.observers.Values then s.groups[g].(dones := s.groups[g].dones + multiset{d})
                       else s.groups[g]))
  }

  /** The insertion of disk `d` completes. */
  function Inserted(s: State, d: nat, ok: bool, deviceName: string, scsiAddr: string): State
    requires d < |s.disks|
  {
    var disk := s.disks[d].(inFlight := false);
    var s1 := s.(disks := s.disks[d := if ok then disk.(desc := disk.desc.(deviceName := deviceName, scsiAddr := scsiAddr)) else disk]);
    Fire(s1, d, ok)
  }

  /** The removal of disk `d` completes. */
  function Unplugged(s: State, d: nat, ok: bool): State
    requires d < |s.disks|
  {
    var s1 := s.(disks := s.disks[d := s.disks[d].(unplugging := false)]);
    if ok then s1 else Fire(s1, d, false)
  }

  // ---------- operations ----------

  function IfStopped(s: State): seq<Answer> {
    if s.running then [] else [NotReady]
  }

  /** The disks of the volumes a description refers to. */
  function Refs(s: State, c: ContainerDescription): set<nat> {
    set v | v in c.volumes && v in s.volumes :: s.volumes[v]
  }

  predicate ValidSpec(s: State, c: ContainerDescription) {
    forall v :: v in c.volumes ==> v in s.volumes && "/" !in c.volumes[v].mounts
  }

  predicate DisksOk(s: State) {
    && (forall v :: v in s.volumes ==> s.volumes[v] < |s.disks|)
    && (forall c :: c in s.containers ==> s.containers[c].root < |s.disks| && s.containers[c].group < |s.groups|)
  }

  /** The container observes its volumes and its root `n`; its group gets an Add for each that is not ready. */
  function Enroll(s: State, c: ContainerDescription, n: nat): State {
    var g := |s.groups|;
    var refs := Refs(s, c) + {n};
    s.(disks := seq(|s.disks|, d requires 0 <= d < |s.disks| =>
                      if d in refs then s.disks[d].(observers := s.disks[d].observers[c.id := g]) else s.disks[d]),
       groups := s.groups + [Group(c.id, multiset(set d | d in refs && d < |s.disks| && !s.disks[d].ready), multiset{})],
       containers := s.containers[c.id := Container(c, n, g)])
  }

  /** A completion takes only the disk's lock: the root's insertion may settle before the container waits for it. */
  datatype Insertion = Pending | Settled(ok: bool, deviceName: string, scsiAddr: string)

  function Early(s: State, n: nat, root: Insertion): State
    requires n < |s.disks|
  {
    if root.Settled? && s.disks[n].inFlight then Inserted(s, n, root.ok, root.deviceName, root.scsiAddr) else s
  }

  function Admit(s: State, c: ContainerDescription, root: Insertion): State {
    Enroll(Early(Plug(s, NewDisk(c.rootVolume, true)), |s.disks|, root), c, |s.disks|)
  }

  function AddContainer(s: State, c: ContainerDescription, root: Insertion): (State, seq<Answer>)
    requires DisksOk(s)
  {
    if c.id in s.containers || !ValidSpec(s, c) then (s, IfStopped(s) + [BadSpec])
    else (Admit(s, c, root), IfStopped(s))
  }

  /** The container stops observing: its volumes, then its root. */
  function Leave(s: State, id: Name): State
    requires DisksOk(s) && id in s.containers
  {
    var cc := s.containers[id];
    var refs := Refs(s, cc.desc) + {cc.root};
    s.(disks := seq(|s.disks|, d requires 0 <= d < |s.disks| => if d in refs then Forget(s.disks[d], id) else s.disks[d]),
       containers := s.containers - {id})
  }

  function RemoveContainer(s: State, id: Name): (State, seq<Answer>)
    requires DisksOk(s)
  {
    if !s.running then (s, [NotRunning])
    else if id !in s.containers then (s, [NotExist])
    else Unplug(Leave(s, id), s.containers[id].root)
  }

  function AddVolume(s: State, vol: VolumeDescription): (State, seq<Answer>) {
    if vol.name in s.volumes then (s, IfStopped(s) + [Duplicate])
    else (Plug(s, NewDisk(vol, false)).(volumes := s.volumes[vol.name := |s.disks|]),
          IfStopped(s) + if Virtual(vol.format) then [Added] else [])
  }

  function RemoveVolume(s: State, name: Name): (State, seq<Answer>)
    requires DisksOk(s)
  {
    var first := if s.running then [] else [NotRunning];
    if name !in s.volumes then (s, first + [NotExist])
    else if s.disks[s.volumes[name]].observers != map[] then (s, first + [InUse])
    else
      var (t, a) := Unplug(s.(volumes := s.volumes - {name}), s.volumes[name]);
      (t, first + a)
  }

  datatype Step =
    | AddC(c: ContainerDescription, root: Insertion)
    | RemoveC(id: Name)
    | AddV(vol: VolumeDescription)
    | RemoveV(name: Name)
    | InsertDone(d: nat, ok: bool, deviceName: string, scsiAddr: string)
    | UnplugDone(d: nat, ok: bool)
    | SetRunning(running: bool)

  function Next(s: State, step: Step): (r: (State, seq<Answer>))
    requires DisksOk(s)
  {
    match step
    case AddC(c, root) => AddContainer(s, c, root)
    case RemoveC(id) => RemoveContainer(s, id)
    case AddV(vol) => AddVolume(s, vol)
    case RemoveV(name) => RemoveVolume(s, name)
    case InsertDone(d, ok, dev, addr) =>
      (if d < |s.disks| && s.disks[d].inFlight then Inserted(s, d, ok, dev, addr) else s, [])
    case UnplugDone(d, ok) => (if d < |s.disks| && s.disks[d].unplugging then Unplugged(s, d, ok) else s, [])
    case SetRunning(b) => (s.(running := b), [])
  }

  // ---------- the invariant ----------

  /** Container `c` uses disk `d`: as its root, or as a volume its description names. */
  predicate Uses(s: State, c: Name, d: nat) {
    && c in s.containers
    && (d == s.containers[c].root
        || exists v :: v in s.containers[c].desc.volumes && v in s.volumes && s.volumes[v] == d)
  }

  /** Disk `d` is observed exactly by the containers that use it, each through its own wait group. */
  ghost predicate ObserverInv(s: State, d: nat)
    requires d < |s.disks|
  {
    && (forall c :: c in s.disks[d].observers <==> Uses(s, c, d))
    && (forall c :: c in s.disks[d].observers ==> s.disks[d].observers[c] == s.containers[c].group)
  }

  /** A disk in flight is not ready, one being unplugged is used by nobody. */
  predicate DiskInv(s: State, d: nat)
    requires d < |s.disks|
  {
    && (s.disks[d].inFlight ==> !s.disks[d].ready)
    && (s.disks[d].unplugging ==> s.disks[d].observers == map[])
    && (s.disks[d].unplugging || s.disks[d].isRoot ==> d !in s.volumes.Values)
    && (s.disks[d].plugged <==> !Virtual(s.disks[d].desc.format))
    && (s.disks[d].plugged ==> s.disks[d].desc.scsiId < s.scsiId)
  }

  /** What the group of a registered container still waits for: its disks in flight, no disk of its that is ready, no other. */
  predicate DebtInv(s: State, c: Name, d: nat)
    requires c in s.containers && s.containers[c].group < |s.groups|
  {
    var g := s.groups[s.containers[c].group];
    if d < |s.disks| && Uses(s, c, d) then
      && (s.disks[d].inFlight ==> g.adds[d] == g.dones[d] + 1)
      && (s.disks[d].ready ==> g.adds[d] == g.dones[d])
    else g.adds[d] == g.dones[d]
  }

  predicate ContainerInv(s: State, c: Name)
    requires DisksOk(s) && c in s.containers
  {
    var cc := s.containers[c];
    && cc.desc.id == c && s.disks[cc.root].isRoot && !s.disks[cc.root].unplugging
    && s.groups[cc.group].owner == c
    && (forall v :: v in cc.desc.volumes ==> v in s.volumes)
  }

  /** The maps: distinct disks for distinct volumes and roots, distinct groups, volumes that exist. */
  predicate MapsInv(s: State) {
    && DisksOk(s)
    && (forall v, w :: v in s.volumes && w in s.volumes && s.volumes[v] == s.volumes[w] ==> v == w)
    && (forall v :: v in s.volumes ==> s.disks[s.volumes[v]].desc.name == v)
    && (forall c :: c in s.containers ==> ContainerInv(s, c))
    && (forall b, c :: b in s.containers && c in s.containers && s.containers[b].root == s.containers[c].root ==> b == c)
  }

  ghost predicate DisksInv(s: State) {
    forall d :: 0 <= d < |s.disks| ==> ObserverInv(s, d) && DiskInv(s, d)
  }

  predicate GroupsInv(s: State) {
    forall g :: 0 <= g < |s.groups| ==> s.groups[g].dones <= s.groups[g].adds
  }

  ghost predicate DebtsInv(s: State)
    requires DisksOk(s)
  {
    forall c, d: nat :: c in s.containers ==> DebtInv(s, c, d)
  }

  predicate ScsiInv(s: State) {
    forall d, e :: 0 <= d < e < |s.disks| && s.disks[d].plugged && s.disks[e].plugged ==>
      s.disks[d].desc.scsiId != s.disks[e].desc.scsiId
  }

  ghost predicate Inv(s: State) {
    MapsInv(s) && DisksInv(s) && GroupsInv(s) && DebtsInv(s) && ScsiInv(s)
  }

  /** What a debt depends on. */
  lemma DebtSame(s: State, t: State, c: Name, d: nat)
    requires DisksOk(s) && DisksOk(t) && c in s.containers && c in t.containers && DebtInv(s, c, d)
    requires t.containers[c].group == s.containers[c].group
    requires t.groups[s.containers[c].group] == s.groups[s.containers[c].group]
    requires Uses(t, c, d) <==> Uses(s, c, d)
    requires Uses(s, c, d) && d < |s.disks| ==>
      d < |t.disks| && t.disks[d].ready == s.disks[d].ready && t.disks[d].inFlight == s.disks[d].inFlight
    ensures DebtInv(t, c, d)
  {
  }

  // ---------- a new disk ----------

  lemma PlugUses(s: State, disk: Disk, c: Name, d: nat)
    requires Inv(s)
    ensures Uses(Plug(s, disk), c, d) <==> Uses(s, c, d)
  {
  }

  lemma PlugScsi(s: State, disk: Disk)
    requires Inv(s) && !disk.plugged
    ensures ScsiInv(Plug(s, disk))
  {
    var t := Plug(s, disk);
    forall d, e | 0 <= d < e < |t.disks| && t.disks[d].plugged && t.disks[e].plugged
      ensures t.disks[d].desc.scsiId != t.disks[e].desc.scsiId
    {
      assert DiskInv(s, d);
    }
  }

  lemma PlugDisk(s: State, disk: Disk, d: nat)
    requires Inv(s) && disk.observers == map[] && !disk.plugged && !disk.inFlight && !disk.unplugging
    requires disk.ready <==> Virtual(disk.desc.format)
    requires d <= |s.disks|
    ensures ObserverInv(Plug(s, disk), d) && DiskInv(Plug(s, disk), d)
  {
    if d < |s.disks| {
      assert ObserverInv(s, d) && DiskInv(s, d);
    }
    forall c
      ensures Uses(Plug(s, disk), c, d) <==> Uses(s, c, d)
    {
      PlugUses(s, disk, c, d);
    }
  }

  lemma PlugDebt(s: State, disk: Disk, c: Name, d: nat)
    requires Inv(s) && c in s.containers
    ensures DebtInv(Plug(s, disk), c, d)
  {
    assert DebtInv(s, c, d);
    PlugUses(s, disk, c, d);
  }

  lemma PlugKeeps(s: State, disk: Disk)
    requires Inv(s) && disk.observers == map[] && !disk.plugged && !disk.inFlight && !disk.unplugging
    requires disk.ready <==> Virtual(disk.desc.format)
    ensures Inv(Plug(s, disk))
  {
    var t := Plug(s, disk);
    PlugScsi(s, disk);
    forall d | 0 <= d < |t.disks|
      ensures ObserverInv(t, d) && DiskInv(t, d)
    {
      PlugDisk(s, disk, d);
    }
    forall c | c in t.containers
      ensures ContainerInv(t, c)
    {
      assert ContainerInv(s, c);
    }
    forall c, d: nat | c in t.containers
      ensures DebtInv(t, c, d)
    {
      PlugDebt(s, disk, c, d);
    }
  }

  lemma NewDiskShape(vol: VolumeDescription, isRoot: bool)
    ensures var disk := NewDisk(vol, isRoot);
      && disk.desc.name == vol.name && disk.observers == map[] && disk.isRoot == isRoot
      && !disk.unplugging && !disk.inFlight && !disk.plugged
      && disk.desc.format == vol.format && (disk.ready <==> Virtual(vol.format))
  {
  }

  lemma PlugShape(s: State, disk: Disk)
    requires DisksOk(s)
    ensures var t := Plug(s, disk);
      && |t.disks| == |s.disks| + 1 && t.volumes == s.volumes && t.containers == s.containers
      && |s.disks| !in t.volumes.Values
      && var last := t.disks[|s.disks|];
      && last.desc.name == disk.desc.name && last.observers == disk.observers && last.isRoot == disk.isRoot
      && last.unplugging == disk.unplugging && (last.ready || last.inFlight)
  {
  }

  lemma AddVolumeKeeps(s: State, vol: VolumeDescription)
    requires Inv(s)
    ensures Inv(AddVolume(s, vol).0)
  {
    if vol.name !in s.volumes {
      NewDiskShape(vol, false);
      var disk := NewDisk(vol, false);
      PlugKeeps(s, disk);
      PlugShape(s, disk);
      NameVolume(Plug(s, disk), vol.name, |s.disks|);
    }
  }

  lemma NameUses(s: State, name: Name, n: nat, c: Name, d: nat)
    requires MapsInv(s) && name !in s.volumes
    ensures Uses(s.(volumes := s.volumes[name := n]), c, d) <==> Uses(s, c, d)
  {
    var t := s.(volumes := s.volumes[name := n]);
    if c in s.containers {
      assert ContainerInv(s, c);
      if v :| v in s.containers[c].desc.volumes && v in s.volumes && s.volumes[v] == d {
        assert t.volumes[v] == d;
      }
    }
  }

  lemma NameDisk(s: State, name: Name, n: nat, d: nat)
    requires Inv(s) && name !in s.volumes && n < |s.disks| && d < |s.disks| && !s.disks[n].isRoot && !s.disks[n].unplugging
    ensures var t := s.(volumes := s.volumes[name := n]); ObserverInv(t, d) && DiskInv(t, d)
  {
    var t := s.(volumes := s.volumes[name := n]);
    assert ObserverInv(s, d) && DiskInv(s, d);
    assert t.volumes.Values <= s.volumes.Values + {n};
    forall c
      ensures Uses(t, c, d) <==> Uses(s, c, d)
    {
      NameUses(s, name, n, c, d);
    }
  }

  lemma NameMaps(s: State, name: Name, n: nat)
    requires MapsInv(s) && name !in s.volumes && n < |s.disks| && s.disks[n].desc.name == name && n !in s.volumes.Values
    ensures MapsInv(s.(volumes := s.volumes[name := n]))
  {
    var t := s.(volumes := s.volumes[name := n]);
    forall c | c in t.containers
      ensures ContainerInv(t, c)
    {
      assert ContainerInv(s, c);
    }
  }

  /** An unused disk that is not a root becomes a volume. */
  lemma NameVolume(s: State, name: Name, n: nat)
    requires Inv(s) && name !in s.volumes && n < |s.disks| && s.disks[n].desc.name == name
    requires s.disks[n].observers == map[] && !s.disks[n].isRoot && !s.disks[n].unplugging && n !in s.volumes.Values
    ensures Inv(s.(volumes := s.volumes[name := n]))
  {
    var t := s.(volumes := s.volumes[name := n]);
    NameMaps(s, name, n);
    forall d | 0 <= d < |t.disks|
      ensures ObserverInv(t, d) && DiskInv(t, d)
    {
      NameDisk(s, name, n, d);
    }
    forall c, d: nat | c in t.containers
      ensures DebtInv(t, c, d)
    {
      assert DebtInv(s, c, d);
      NameUses(s, name, n, c, d);
      DebtSame(s, t, c, d);
    }
  }

  // ---------- a new container ----------

  /** `n` is a root disk that nobody observes yet, for a description that is new and valid. */
  predicate CanEnroll(s: State, c: ContainerDescription, n: nat) {
    && c.id !in s.containers && ValidSpec(s, c)
    && n < |s.disks| && s.disks[n].isRoot && !s.disks[n].unplugging && s.disks[n].observers == map[]
  }

  lemma EnrollUses(s: State, c: ContainerDescription, n: nat, b: Name, d: nat)
    requires CanEnroll(s, c, n)
    ensures Uses(Enroll(s, c, n), b, d) <==> if b == c.id then d in Refs(s, c) + {n} else Uses(s, b, d)
  {
    var t := Enroll(s, c, n);
    if b == c.id && d in Refs(s, c) {
      var v :| v in c.volumes && v in s.volumes && s.volumes[v] == d;
      assert v in t.containers[b].desc.volumes;
    }
  }

  lemma EnrollDisk(s: State, c: ContainerDescription, n: nat, d: nat)
    requires Inv(s) && CanEnroll(s, c, n) && d < |s.disks|
    ensures ObserverInv(Enroll(s, c, n), d) && DiskInv(Enroll(s, c, n), d)
  {
    var t := Enroll(s, c, n);
    assert ObserverInv(s, d) && DiskInv(s, d);
    if d in Refs(s, c) {
      var v :| v in c.volumes && v in s.volumes && s.volumes[v] == d;
      assert d in s.volumes.Values;
    }
    forall b
      ensures b in t.disks[d].observers <==> Uses(t, b, d)
    {
      EnrollUses(s, c, n, b, d);
    }
  }

  lemma EnrollGroup(s: State, c: ContainerDescription, n: nat, d: nat)
    ensures Enroll(s, c, n).groups[|s.groups|].adds[d]
      == if d in Refs(s, c) + {n} && d < |s.disks| && !s.disks[d].ready then 1 else 0
  {
  }

  /** A volume's disk is ready, in flight, or has failed; the debt of a newcomer is one for each that is not ready. */
  lemma EnrollDebt(s: State, c: ContainerDescription, n: nat, b: Name, d: nat)
    requires Inv(s) && CanEnroll(s, c, n) && b in Enroll(s, c, n).containers
    ensures Enroll(s, c, n).containers[b].group < |Enroll(s, c, n).groups| && DebtInv(Enroll(s, c, n), b, d)
  {
    var t := Enroll(s, c, n);
    EnrollUses(s, c, n, b, d);
    if b != c.id {
      assert DebtInv(s, b, d);
    } else {
      EnrollGroup(s, c, n, d);
      if d < |s.disks| {
        assert DiskInv(s, d);
      }
    }
  }

  lemma EnrollShape(s: State, c: ContainerDescription, n: nat)
    ensures var t := Enroll(s, c, n);
      && |t.disks| == |s.disks|
      && forall d :: 0 <= d < |s.disks| ==>
           && t.disks[d].desc == s.disks[d].desc && t.disks[d].isRoot == s.disks[d].isRoot
           && t.disks[d].unplugging == s.disks[d].unplugging
  {
  }

  lemma EnrollOk(s: State, c: ContainerDescription, n: nat)
    requires DisksOk(s) && n < |s.disks|
    ensures DisksOk(Enroll(s, c, n))
  {
    var t := Enroll(s, c, n);
    assert |t.disks| == |s.disks| && |t.groups| == |s.groups| + 1;
  }

  lemma EnrollContainer(s: State, c: ContainerDescription, n: nat, b: Name)
    requires MapsInv(s) && CanEnroll(s, c, n) && b in Enroll(s, c, n).containers && DisksOk(Enroll(s, c, n))
    ensures ContainerInv(Enroll(s, c, n), b)
  {
    EnrollShape(s, c, n);
    if b != c.id {
      assert ContainerInv(s, b);
    }
  }

  /** Nobody has `n` for a root yet. */
  lemma EnrollRoot(s: State, n: nat, b: Name)
    requires n < |s.disks| && s.disks[n].observers == map[] && ObserverInv(s, n) && b in s.containers
    ensures s.containers[b].root != n
  {
    assert s.containers[b].root == n ==> Uses(s, b, n);
  }

  lemma EnrollMaps(s: State, c: ContainerDescription, n: nat)
    requires MapsInv(s) && CanEnroll(s, c, n) && ObserverInv(s, n)
    ensures MapsInv(Enroll(s, c, n))
  {
    var t := Enroll(s, c, n);
    EnrollShape(s, c, n);
    EnrollOk(s, c, n);
    forall b | b in t.containers
      ensures ContainerInv(t, b)
    {
      EnrollContainer(s, c, n, b);
    }
    forall b | b in s.containers
      ensures s.containers[b].root != n
    {
      EnrollRoot(s, n, b);
    }
  }

  lemma EnrollRest(s: State, c: ContainerDescription, n: nat)
    requires GroupsInv(s) && ScsiInv(s)
    ensures GroupsInv(Enroll(s, c, n)) && ScsiInv(Enroll(s, c, n))
  {
    var t := Enroll(s, c, n);
    forall g | 0 <= g < |t.groups|
      ensures t.groups[g].dones <= t.groups[g].adds
    {
      assert g < |s.groups| ==> t.groups[g] == s.groups[g];
    }
    forall d | 0 <= d < |t.disks|
      ensures t.disks[d].plugged == s.disks[d].plugged && t.disks[d].desc == s.disks[d].desc
    {
    }
  }

  lemma EnrollKeeps(s: State, c: ContainerDescription, n: nat)
    requires Inv(s) && CanEnroll(s, c, n)
    ensures Inv(Enroll(s, c, n))
  {
    var t := Enroll(s, c, n);
    EnrollMaps(s, c, n);
    EnrollRest(s, c, n);
    forall d | 0 <= d < |t.disks|
      ensures ObserverInv(t, d) && DiskInv(t, d)
    {
      EnrollDisk(s, c, n, d);
    }
    forall b, d: nat | b in t.containers
      ensures DebtInv(t, b, d)
    {
      EnrollDebt(s, c, n, b, d);
    }
  }

  /** What an early completion changes: the flags and the address of the one disk. */
  lemma EarlyShape(s: State, n: nat, root: Insertion)
    requires n < |s.disks| && s.disks[n].observers == map[]
    ensures var t := Early(s, n, root);
      && t == s.(disks := s.disks[n := t.disks[n]]) && |t.disks| == |s.disks| && t.disks[n].observers == map[]
      && t.disks[n].isRoot == s.disks[n].isRoot && t.disks[n].unplugging == s.disks[n].unplugging
      && t.disks[n].desc.format == s.disks[n].desc.format
  {
    var t := Early(s, n, root);
    if root.Settled? && s.disks[n].inFlight {
      FireNobody(s.(disks := s.disks[n := t.disks[n].(ready := s.disks[n].ready)]), n, root.ok);
      assert t.disks == s.disks[n := t.disks[n]];
    }
  }

  lemma FireNobody(s: State, n: nat, ready: bool)
    requires n < |s.disks| && s.disks[n].observers == map[]
    ensures Fire(s, n, ready) == s.(disks := s.disks[n := s.disks[n].(ready := ready)])
  {
    assert Fire(s, n, ready).groups == s.groups;
  }

  lemma AddContainerKeeps(s: State, c: ContainerDescription, root: Insertion)
    requires Inv(s)
    ensures Inv(AddContainer(s, c, root).0)
  {
    if c.id !in s.containers && ValidSpec(s, c) {
      NewDiskShape(c.rootVolume, true);
      var disk := NewDisk(c.rootVolume, true);
      PlugKeeps(s, disk);
      PlugShape(s, disk);
      var p := Plug(s, disk);
      if root.Settled? && p.disks[|s.disks|].inFlight {
        InsertedKeeps(p, |s.disks|, root.ok, root.deviceName, root.scsiAddr);
      }
      EarlyShape(p, |s.disks|, root);
      EnrollKeeps(Early(p, |s.disks|, root), c, |s.disks|);
    }
  }

  // ---------- a container leaves ----------

  lemma LeaveUses(s: State, id: Name, b: Name, d: nat)
    requires Inv(s) && id in s.containers
    ensures Uses(Leave(s, id), b, d) <==> b != id && Uses(s, b, d)
  {
    var t := Leave(s, id);
    assert t.volumes == s.volumes;
  }

  lemma LeaveForgets(s: State, id: Name, d: nat)
    requires DisksOk(s) && id in s.containers && d < |s.disks| && ObserverInv(s, d)
    ensures Leave(s, id).disks[d] == Forget(s.disks[d], id)
  {
    if d !in Refs(s, s.containers[id].desc) + {s.containers[id].root} {
      assert !Uses(s, id, d);
      assert s.disks[d].observers - {id} == s.disks[d].observers;
    }
  }

  lemma LeaveDisk(s: State, id: Name, d: nat)
    requires Inv(s) && id in s.containers && d < |s.disks|
    ensures Leave(s, id).disks[d] == Forget(s.disks[d], id)
    ensures ObserverInv(Leave(s, id), d) && DiskInv(Leave(s, id), d)
  {
    var t := Leave(s, id);
    assert ObserverInv(s, d) && DiskInv(s, d);
    LeaveForgets(s, id, d);
    forall b
      ensures b in t.disks[d].observers <==> Uses(t, b, d)
    {
      LeaveUses(s, id, b, d);
    }
  }

  lemma LeaveMaps(s: State, id: Name)
    requires Inv(s) && id in s.containers
    ensures MapsInv(Leave(s, id))
  {
    var t := Leave(s, id);
    forall d | 0 <= d < |t.disks|
      ensures t.disks[d] == Forget(s.disks[d], id)
    {
      LeaveDisk(s, id, d);
    }
    forall c | c in t.containers
      ensures ContainerInv(t, c)
    {
      assert ContainerInv(s, c);
    }
  }

  lemma LeaveKeeps(s: State, id: Name)
    requires Inv(s) && id in s.containers
    ensures Inv(Leave(s, id))
    ensures var t := Leave(s, id); var root := s.containers[id].root;
      && root < |t.disks| && t.disks[root].observers == map[] && root !in t.volumes.Values
  {
    var t := Leave(s, id);
    LeaveMaps(s, id);
    forall d | 0 <= d < |t.disks|
      ensures t.disks[d] == Forget(s.disks[d], id) && ObserverInv(t, d) && DiskInv(t, d)
    {
      LeaveDisk(s, id, d);
    }
    forall c, d: nat | c in t.containers
      ensures DebtInv(t, c, d)
    {
      assert DebtInv(s, c, d);
      LeaveUses(s, id, c, d);
      DebtSame(s, t, c, d);
    }
    RootAlone(s, id);
  }

  /** The root disk of a container is observed by that container only. */
  lemma RootAlone(s: State, id: Name)
    requires Inv(s) && id in s.containers
    ensures s.disks[s.containers[id].root].observers.Keys == {id} && s.containers[id].root !in s.volumes.Values
    ensures Forget(s.disks[s.containers[id].root], id).observers == map[]
  {
    var root := s.containers[id].root;
    assert ContainerInv(s, id) && DiskInv(s, root) && ObserverInv(s, root);
    assert Uses(s, id, root);
    forall c | c in s.disks[root].observers
      ensures c == id
    {
      assert Uses(s, c, root);
    }
  }

  /** A disk nobody observes and no volume names can be unplugged. */
  lemma UnplugKeeps(s: State, d: nat)
    requires Inv(s) && d < |s.disks| && s.disks[d].observers == map[] && d !in s.volumes.Values
    ensures Inv(Unplug(s, d).0)
  {
    assert DiskInv(s, d);
    SameShape(s, Unplug(s, d).0, d);
  }

  /** Only the removal and readiness flags, and the address, of one disk nobody uses differ. */
  ghost predicate OneIdle(s: State, t: State, n: nat) {
    && n < |s.disks| && s.disks[n].observers == map[] && n !in s.volumes.Values
    && t == s.(disks := t.disks) && |t.disks| == |s.disks|
    && (forall d :: 0 <= d < |s.disks| && d != n ==> t.disks[d] == s.disks[d])
    && t.disks[n] == s.disks[n].(ready := t.disks[n].ready, inFlight := t.disks[n].inFlight,
                                 unplugging := t.disks[n].unplugging, desc := t.disks[n].desc)
    && t.disks[n].desc.scsiId == s.disks[n].desc.scsiId && t.disks[n].desc.format == s.disks[n].desc.format
    && (t.disks[n].inFlight ==> !t.disks[n].ready)
  }

  lemma IdleUses(s: State, t: State, n: nat, c: Name, d: nat)
    requires OneIdle(s, t, n)
    ensures Uses(t, c, d) <==> Uses(s, c, d)
  {
  }

  lemma IdleUnused(s: State, t: State, n: nat, c: Name)
    requires Inv(s) && OneIdle(s, t, n)
    ensures !Uses(s, c, n)
  {
    assert ObserverInv(s, n);
  }

  lemma IdleDisk(s: State, t: State, n: nat, d: nat)
    requires Inv(s) && OneIdle(s, t, n) && d < |s.disks|
    ensures ObserverInv(t, d) && DiskInv(t, d)
  {
    assert ObserverInv(s, d) && DiskInv(s, d);
    forall c
      ensures Uses(t, c, d) <==> Uses(s, c, d)
    {
      IdleUses(s, t, n, c, d);
    }
  }

  lemma IdleMaps(s: State, t: State, n: nat)
    requires Inv(s) && OneIdle(s, t, n)
    ensures MapsInv(t)
  {
    forall c | c in t.containers
      ensures ContainerInv(t, c)
    {
      assert ContainerInv(s, c) && Uses(s, c, s.containers[c].root);
      IdleUnused(s, t, n, c);
    }
    forall v | v in t.volumes
      ensures t.disks[t.volumes[v]].desc.name == v
    {
      assert t.volumes[v] in s.volumes.Values;
    }
  }

  lemma SameShape(s: State, t: State, n: nat)
    requires Inv(s) && OneIdle(s, t, n)
    ensures Inv(t)
  {
    IdleMaps(s, t, n);
    forall d | 0 <= d < |t.disks|
      ensures ObserverInv(t, d) && DiskInv(t, d)
    {
      IdleDisk(s, t, n, d);
    }
    forall c, d: nat | c in t.containers
      ensures DebtInv(t, c, d)
    {
      assert DebtInv(s, c, d);
      IdleUses(s, t, n, c, d);
      IdleUnused(s, t, n, c);
      DebtSame(s, t, c, d);
    }
  }

  lemma RemoveContainerKeeps(s: State, id: Name)
    requires Inv(s)
    ensures Inv(RemoveContainer(s, id).0)
  {
    if s.running && id in s.containers {
      LeaveKeeps(s, id);
      UnplugKeeps(Leave(s, id), s.containers[id].root);
    }
  }

  /** No container names a volume that nobody observes. */
  lemma Unnamed(s: State, name: Name)
    requires DisksOk(s) && name in s.volumes && ObserverInv(s, s.volumes[name]) && s.disks[s.volumes[name]].observers == map[]
    ensures forall c :: c in s.containers ==> name !in s.containers[c].desc.volumes
  {
    var d := s.volumes[name];
    forall c | c in s.containers
      ensures name !in s.containers[c].desc.volumes
    {
      assert c !in s.disks[d].observers;
      assert !Uses(s, c, d);
    }
  }

  lemma ForgetDisk(s: State, name: Name, d: nat)
    requires Inv(s) && d < |s.disks|
    requires var t := s.(volumes := s.volumes - {name}); forall c :: Uses(t, c, d) <==> Uses(s, c, d)
    ensures var t := s.(volumes := s.volumes - {name}); ObserverInv(t, d) && DiskInv(t, d)
  {
    assert ObserverInv(s, d) && DiskInv(s, d);
    assert (s.volumes - {name}).Values <= s.volumes.Values;
  }

  lemma ForgetSameUses(s: State, name: Name, c: Name, d: nat)
    requires Inv(s) && name in s.volumes && s.disks[s.volumes[name]].observers == map[]
    ensures Uses(s.(volumes := s.volumes - {name}), c, d) <==> Uses(s, c, d)
  {
    Unnamed(s, name);
  }

  lemma ForgetMaps(s: State, name: Name)
    requires Inv(s) && name in s.volumes && s.disks[s.volumes[name]].observers == map[]
    ensures MapsInv(s.(volumes := s.volumes - {name})) && s.volumes[name] !in (s.volumes - {name}).Values
  {
    var t := s.(volumes := s.volumes - {name});
    Unnamed(s, name);
    forall c | c in t.containers
      ensures ContainerInv(t, c)
    {
      assert ContainerInv(s, c);
    }
  }

  lemma ForgetVolumeKeeps(s: State, name: Name)
    requires Inv(s) && name in s.volumes && s.disks[s.volumes[name]].observers == map[]
    ensures Inv(s.(volumes := s.volumes - {name})) && s.volumes[name] !in (s.volumes - {name}).Values
  {
    var t := s.(volumes := s.volumes - {name});
    ForgetMaps(s, name);
    forall c, d: nat
      ensures Uses(t, c, d) <==> Uses(s, c, d)
    {
      ForgetSameUses(s, name, c, d);
    }
    forall d | 0 <= d < |t.disks|
      ensures ObserverInv(t, d) && DiskInv(t, d)
    {
      ForgetDisk(s, name, d);
    }
    forall c, d: nat | c in t.containers
      ensures DebtInv(t, c, d)
    {
      assert DebtInv(s, c, d);
      DebtSame(s, t, c, d);
    }
  }

  lemma RemoveVolumeKeeps(s: State, name: Name)
    requires Inv(s)
    ensures Inv(RemoveVolume(s, name).0)
  {
    if name in s.volumes && s.disks[s.volumes[name]].observers == map[] {
      ForgetVolumeKeeps(s, name);
      UnplugKeeps(s.(volumes := s.volumes - {name}), s.volumes[name]);
    }
  }

  // ---------- completions ----------

  lemma InsertedUses(s: State, d: nat, ok: bool, dev: string, addr: string, c: Name, e: nat)
    requires d < |s.disks|
    ensures Uses(Inserted(s, d, ok, dev, addr), c, e) <==> Uses(s, c, e)
  {
  }

  /** A group is told about disk `d` exactly when it belongs to a container that uses it. */
  lemma ToldIffUses(s: State, d: nat, c: Name)
    requires Inv(s) && d < |s.disks| && c in s.containers
    ensures s.containers[c].group in s.disks[d].observers.Values <==> Uses(s, c, d)
  {
    assert ObserverInv(s, d) && ContainerInv(s, c);
    if Uses(s, c, d) {
      assert s.disks[d].observers[c] == s.containers[c].group;
    }
    if s.containers[c].group in s.disks[d].observers.Values {
      var b :| b in s.disks[d].observers && s.disks[d].observers[b] == s.containers[c].group;
      assert ContainerInv(s, b);
    }
  }

  lemma InsertedDebt(s: State, d: nat, ok: bool, dev: string, addr: string, c: Name, e: nat)
    requires Inv(s) && d < |s.disks| && s.disks[d].inFlight && c in s.containers
    ensures DebtInv(Inserted(s, d, ok, dev, addr), c, e)
  {
    ToldIffUses(s, d, c);
    InsertedUses(s, d, ok, dev, addr, c, e);
    InsertedUses(s, d, ok, dev, addr, c, d);
    assert DebtInv(s, c, e) && DebtInv(s, c, d);
  }

  lemma InsertedGroups(s: State, d: nat, ok: bool, dev: string, addr: string)
    requires Inv(s) && d < |s.disks| && s.disks[d].inFlight
    ensures GroupsInv(Inserted(s, d, ok, dev, addr))
  {
    var t := Inserted(s, d, ok, dev, addr);
    forall g | 0 <= g < |t.groups|
      ensures t.groups[g].dones <= t.groups[g].adds
    {
      if g in s.disks[d].observers.Values {
        var c :| c in s.disks[d].observers && s.disks[d].observers[c] == g;
        assert ObserverInv(s, d) && Uses(s, c, d) && DebtInv(s, c, d);
        assert s.groups[g].dones <= s.groups[g].adds && s.groups[g].adds[d] == s.groups[g].dones[d] + 1;
      }
    }
  }

  lemma InsertedMaps(s: State, d: nat, ok: bool, dev: string, addr: string)
    requires MapsInv(s) && ScsiInv(s) && d < |s.disks|
    ensures MapsInv(Inserted(s, d, ok, dev, addr)) && ScsiInv(Inserted(s, d, ok, dev, addr))
  {
    var t := Inserted(s, d, ok, dev, addr);
    forall e | 0 <= e < |s.disks|
      ensures t.disks[e].isRoot == s.disks[e].isRoot && t.disks[e].unplugging == s.disks[e].unplugging
      ensures t.disks[e].plugged == s.disks[e].plugged
      ensures t.disks[e].desc.name == s.disks[e].desc.name && t.disks[e].desc.scsiId == s.disks[e].desc.scsiId
    {
    }
    forall c | c in t.containers
      ensures ContainerInv(t, c)
    {
      assert ContainerInv(s, c);
    }
  }

  lemma InsertedDisk(s: State, d: nat, ok: bool, dev: string, addr: string, e: nat)
    requires Inv(s) && d < |s.disks| && e < |s.disks|
    ensures ObserverInv(Inserted(s, d, ok, dev, addr), e) && DiskInv(Inserted(s, d, ok, dev, addr), e)
  {
    var t := Inserted(s, d, ok, dev, addr);
    assert ObserverInv(s, e) && DiskInv(s, e);
    assert t.disks[e].observers == s.disks[e].observers && t.containers == s.containers;
    forall c
      ensures Uses(t, c, e) <==> Uses(s, c, e)
    {
      InsertedUses(s, d, ok, dev, addr, c, e);
    }
  }

  lemma InsertedKeeps(s: State, d: nat, ok: bool, dev: string, addr: string)
    requires Inv(s) && d < |s.disks| && s.disks[d].inFlight
    ensures Inv(Inserted(s, d, ok, dev, addr))
  {
    var t := Inserted(s, d, ok, dev, addr);
    InsertedGroups(s, d, ok, dev, addr);
    InsertedMaps(s, d, ok, dev, addr);
    forall e | 0 <= e < |t.disks|
      ensures ObserverInv(t, e) && DiskInv(t, e)
    {
      InsertedDisk(s, d, ok, dev, addr, e);
    }
    forall c, e: nat | c in t.containers
      ensures DebtInv(t, c, e)
    {
      InsertedDebt(s, d, ok, dev, addr, c, e);
    }
  }

  lemma UnpluggedKeeps(s: State, d: nat, ok: bool)
    requires Inv(s) && d < |s.disks| && s.disks[d].unplugging
    ensures Inv(Unplugged(s, d, ok))
  {
    assert DiskInv(s, d);
    var t := Unplugged(s, d, ok);
    assert s.disks[d].observers.Values == {};
    assert t.groups == s.groups;
    SameShape(s, t, d);
  }

  lemma RunningKeeps(s: State, b: bool)
    requires Inv(s)
    ensures Inv(s.(running := b))
  {
    var t := s.(running := b);
    forall c, d: nat
      ensures Uses(t, c, d) <==> Uses(s, c, d)
    {
    }
    forall d | 0 <= d < |t.disks|
      ensures ObserverInv(t, d) && DiskInv(t, d)
    {
      assert ObserverInv(s, d) && DiskInv(s, d);
    }
    forall c | c in t.containers
      ensures ContainerInv(t, c)
    {
      assert ContainerInv(s, c);
    }
    forall c, d: nat | c in t.containers
      ensures DebtInv(t, c, d)
    {
      assert DebtInv(s, c, d);
    }
  }

  /** Every operation and every completion keeps the bookkeeping right. */
  lemma NextKeepsInv(s: State, step: Step)
    requires Inv(s)
    ensures Inv(Next(s, step).0)
  {
    match step
    case AddC(c, root) => AddContainerKeeps(s, c, root);
    case RemoveC(id) => RemoveContainerKeeps(s, id);
    case AddV(vol) => AddVolumeKeeps(s, vol);
    case RemoveV(name) => RemoveVolumeKeeps(s, name);
    case InsertDone(d, ok, dev, addr) =>
      if d < |s.disks| && s.disks[d].inFlight { InsertedKeeps(s, d, ok, dev, addr); }
    case UnplugDone(d, ok) => if d < |s.disks| && s.disks[d].unplugging { UnpluggedKeeps(s, d, ok); }
    case SetRunning(b) => RunningKeeps(s, b);
  }

  // ---------- whole runs ----------

  /** The context after the steps. */
  ghost function Run(steps: seq<Step>): (s: State)
    ensures Inv(s)
  {
    if steps == [] then Init()
    else
      var s := Run(steps[..|steps| - 1]);
      NextKeepsInv(s, steps[|steps| - 1]);
      Next(s, steps[|steps| - 1]).0
  }

  lemma RefersIsObserves(s: State, c: Name, v: Name)
    requires Inv(s) && c in s.containers
    ensures v in s.containers[c].desc.volumes <==> v in s.volumes && c in s.disks[s.volumes[v]].observers
  {
    assert ContainerInv(s, c);
    if v in s.volumes {
      var d := s.volumes[v];
      assert ObserverInv(s, d) && DiskInv(s, d) && d in s.volumes.Values;
      assert v in s.containers[c].desc.volumes ==> Uses(s, c, d);
    }
  }

  lemma RefusesUsed(s: State, v: Name)
    requires Inv(s) && v in s.volumes
    ensures InUse in RemoveVolume(s, v).1 <==> exists c :: c in s.containers && v in s.containers[c].desc.volumes
  {
    var d := s.volumes[v];
    assert ObserverInv(s, d);
    if c :| c in s.containers && v in s.containers[c].desc.volumes {
      RefersIsObserves(s, c, v);
    }
    if s.disks[d].observers != map[] {
      var c :| c in s.disks[d].observers;
      RefersIsObserves(s, c, v);
    }
  }

  /** Container and volume refer to each other: named in the description exactly when it is an observer, and then the volume exists. */
  lemma ReferencesMatch(steps: seq<Step>, c: Name, v: Name)
    requires c in Run(steps).containers
    ensures var s := Run(steps);
      v in s.containers[c].desc.volumes <==> v in s.volumes && c in s.disks[s.volumes[v]].observers
  {
    RefersIsObserves(Run(steps), c, v);
  }

  /** RemoveVolume refuses an existing volume exactly when a registered container refers to it. */
  lemma RefusesExactlyUsed(steps: seq<Step>, v: Name)
    requires v in Run(steps).volumes
    ensures var s := Run(steps);
      InUse in RemoveVolume(s, v).1 <==> exists c :: c in s.containers && v in s.containers[c].desc.volumes
  {
    RefusesUsed(Run(steps), v);
  }

  /** No wait group is ever released more often than it was charged. */
  lemma NeverOverReleased(steps: seq<Step>, g: nat)
    requires g < |Run(steps).groups|
    ensures |Run(steps).groups[g].dones| <= |Run(steps).groups[g].adds|
  {
    SubCard(Run(steps).groups[g].dones, Run(steps).groups[g].adds);
  }

  lemma SubCard(a: multiset<nat>, b: multiset<nat>)
    requires a <= b
    ensures |a| <= |b|
  {
    assert b == a + (b - a);
  }

  /** The container's wait returns once all its disks are ready. */
  lemma WaitReturns(steps: seq<Step>, s: State, c: Name)
    requires s == Run(steps) && c in s.containers
    requires forall d :: 0 <= d < |s.disks| && Uses(s, c, d) ==> s.disks[d].ready
    ensures var g := s.groups[s.containers[c].group]; g.adds == g.dones
  {
    var g := s.groups[s.containers[c].group];
    forall d: nat
      ensures g.adds[d] == g.dones[d]
    {
      assert DebtInv(s, c, d);
    }
  }

  /** And it does not return while one of them is being inserted. */
  lemma WaitHolds(steps: seq<Step>, s: State, c: Name, d: nat)
    requires s == Run(steps) && c in s.containers && d < |s.disks| && Uses(s, c, d) && s.disks[d].inFlight
    ensures var g := s.groups[s.containers[c].group]; |g.dones| < |g.adds|
  {
    var g := s.groups[s.containers[c].group];
    assert DebtInv(s, c, d);
    assert g.dones <= g.adds;
    SubCard(g.dones + multiset{d}, g.adds);
  }

  /** Plugged disks never share a SCSI id. */
  lemma ScsiIdsDistinct(steps: seq<Step>, d: nat, e: nat)
    requires var s := Run(steps); d < e < |s.disks| && s.disks[d].plugged && s.disks[e].plugged
    ensures Run(steps).disks[d].desc.scsiId != Run(steps).disks[e].desc.scsiId
  {
  }
}
