/**
 The life of one disk, told from the steps of a run: what it was added as, when it is in flight,
 ready or being removed, and which device and address it has.
 */
module SandboxDisks {
  import opened Sandbox

  // ---------- one step ----------

  predicate Admits(s: State, c: ContainerDescription) {
    c.id !in s.containers && ValidSpec(s, c)
  }

  /** The step completes the insertion of disk `d`. */
  predicate Completes(s: State, step: Step, d: nat) {
    d < |s.disks| && s.disks[d].inFlight && step.InsertDone? && step.d == d
  }

  /** The step completes the removal of disk `d`. */
  predicate Pulls(s: State, step: Step, d: nat) {
    d < |s.disks| && s.disks[d].unplugging && step.UnplugDone? && step.d == d
  }

  /** No container refers to the volume. */
  predicate Unreferred(s: State, name: Name) {
    forall c :: c in s.containers ==> name !in s.containers[c].desc.volumes
  }

  /** The step takes disk `d` away: the root of a container, or a volume no container refers to. */
  predicate Drops(s: State, step: Step, d: nat) {
    || (step.RemoveC? && s.running && step.id in s.containers && s.containers[step.id].root == d)
    || (step.RemoveV? && step.name in s.volumes && s.volumes[step.name] == d
        && Unreferred(s, step.name))
  }

  /** What a step may do to a disk that is there. */
  predicate Lives(s: State, step: Step, d: nat, x: Disk, y: Disk) {
    && y.isRoot == x.isRoot && y.plugged == x.plugged
    && y.inFlight == (x.inFlight && !Completes(s, step, d))
    && y.ready == (if Completes(s, step, d) then step.ok else x.ready && !(Pulls(s, step, d) && !step.ok))
    && y.unplugging == ((x.unplugging && !Pulls(s, step, d)) || (Drops(s, step, d) && !Virtual(x.desc.format)))
    && y.desc == if Completes(s, step, d) && step.ok then x.desc.(deviceName := step.deviceName, scsiAddr := step.scsiAddr) else x.desc
  }

  /** Only who observes the disk changes. */
  lemma Untouched(s: State, step: Step, d: nat, x: Disk, y: Disk)
    requires y == x.(observers := y.observers) && !Completes(s, step, d) && !Pulls(s, step, d) && !Drops(s, step, d)
    ensures Lives(s, step, d, x, y)
  {
  }

  lemma EnrollAt(p: State, c: ContainerDescription, n: nat, d: nat)
    requires d < |p.disks|
    ensures var t := Enroll(p, c, n); d < |t.disks| && t.disks[d] == p.disks[d].(observers := t.disks[d].observers)
  {
  }

  /** The sandbox between the insertion of the root and the wait for it: the disks there were, and the root. */
  lemma BeforeEnroll(s: State, c: ContainerDescription, root: Insertion)
    requires DisksOk(s)
    ensures |Plug(s, NewDisk(c.rootVolume, true)).disks| == |s.disks| + 1
    ensures var p := Early(Plug(s, NewDisk(c.rootVolume, true)), |s.disks|, root);
      |p.disks| == |s.disks| + 1 && forall d :: 0 <= d < |s.disks| ==> p.disks[d] == s.disks[d]
  {
    NewDiskShape(c.rootVolume, true);
    PlugShape(s, NewDisk(c.rootVolume, true));
    EarlyShape(Plug(s, NewDisk(c.rootVolume, true)), |s.disks|, root);
  }

  lemma AddKeepsDisk(s: State, c: ContainerDescription, root: Insertion, d: nat)
    requires DisksOk(s) && d < |s.disks|
    ensures var t := AddContainer(s, c, root).0;
      d < |t.disks| && t.disks[d] == s.disks[d].(observers := t.disks[d].observers)
  {
    if Admits(s, c) {
      BeforeEnroll(s, c, root);
      EnrollAt(Early(Plug(s, NewDisk(c.rootVolume, true)), |s.disks|, root), c, |s.disks|, d);
    }
  }

  lemma LeaveAt(s: State, id: Name, d: nat)
    requires DisksOk(s) && id in s.containers && d < |s.disks|
    ensures var t := Leave(s, id); d < |t.disks| && t.disks[d] == s.disks[d].(observers := t.disks[d].observers)
  {
  }

  lemma RemoveShape(s: State, id: Name, d: nat)
    requires DisksOk(s) && s.running && id in s.containers && d < |s.disks|
    ensures var t := RemoveContainer(s, id).0;
      var gone := s.containers[id].root == d && !Virtual(s.disks[d].desc.format);
      d < |t.disks| && t.disks[d] == s.disks[d].(observers := t.disks[d].observers, unplugging := s.disks[d].unplugging || gone)
  {
    LeaveAt(s, id, d);
    LeaveAt(s, id, s.containers[id].root);
  }

  lemma RemoveKeepsDisk(s: State, id: Name, d: nat)
    requires DisksOk(s) && d < |s.disks|
    ensures var t := RemoveContainer(s, id).0;
      && d < |t.disks| && Lives(s, RemoveC(id), d, s.disks[d], t.disks[d])
  {
    if s.running && id in s.containers {
      RemoveShape(s, id, d);
    }
  }

  lemma UnusedIs(s: State, name: Name)
    requires Inv(s) && name in s.volumes
    ensures s.disks[s.volumes[name]].observers == map[] <==> Unreferred(s, name)
  {
    RefusesUsed(s, name);
    var o := s.disks[s.volumes[name]].observers;
    assert o != map[] ==> InUse in RemoveVolume(s, name).1;
    if o == map[] {
      assert InUse !in RemoveVolume(s, name).1;
    }
  }

  lemma RemoveVolumeShape(s: State, name: Name, d: nat)
    requires DisksOk(s) && d < |s.disks|
    ensures var t := RemoveVolume(s, name).0;
      var gone := name in s.volumes && s.volumes[name] == d && s.disks[d].observers == map[] && !Virtual(s.disks[d].desc.format);
      d < |t.disks| && t.disks[d] == if gone then s.disks[d].(unplugging := true) else s.disks[d]
  {
  }

  lemma RemoveVolumeKeepsDisk(s: State, name: Name, d: nat)
    requires Inv(s) && d < |s.disks|
    ensures var t := RemoveVolume(s, name).0;
      && d < |t.disks| && Lives(s, RemoveV(name), d, s.disks[d], t.disks[d])
  {
    RemoveVolumeShape(s, name, d);
    if name in s.volumes {
      UnusedIs(s, name);
    }
  }

  lemma InsertKeepsDisk(s: State, e: nat, ok: bool, dev: string, addr: string, d: nat)
    requires d < |s.disks| && e < |s.disks|
    ensures var t := Inserted(s, e, ok, dev, addr);
      var x := s.disks[d];
      && d < |t.disks|
      && t.disks[d] == if d != e then x
         else x.(inFlight := false, ready := ok,
                 desc := if ok then x.desc.(deviceName := dev, scsiAddr := addr) else x.desc)
  {
  }

  lemma UnplugKeepsDisk(s: State, e: nat, ok: bool, d: nat)
    requires d < |s.disks| && e < |s.disks|
    ensures var t := Unplugged(s, e, ok);
      var x := s.disks[d];
      && d < |t.disks| && t.disks[d] == if d != e then x else x.(unplugging := false, ready := x.ready && ok)
  {
  }

  lemma CompletionKeepsDisk(s: State, step: Step, d: nat)
    requires DisksOk(s) && d < |s.disks| && (step.InsertDone? || step.UnplugDone?)
    ensures var t := Next(s, step).0;
      && d < |t.disks| && Lives(s, step, d, s.disks[d], t.disks[d])
  {
    if step.InsertDone? {
      if step.d < |s.disks| {
        InsertKeepsDisk(s, step.d, step.ok, step.deviceName, step.scsiAddr, d);
      }
    } else if step.d < |s.disks| {
      UnplugKeepsDisk(s, step.d, step.ok, d);
    }
  }

  lemma DiskStep(s: State, step: Step, d: nat)
    requires Inv(s) && d < |s.disks|
    ensures d < |Next(s, step).0.disks| && Lives(s, step, d, s.disks[d], Next(s, step).0.disks[d])
  {
    match step
    case AddC(c, root) =>
      AddKeepsDisk(s, c, root, d);
      Untouched(s, step, d, s.disks[d], Next(s, step).0.disks[d]);
    case RemoveC(id) => RemoveKeepsDisk(s, id, d);
    case RemoveV(name) => RemoveVolumeKeepsDisk(s, name, d);
    case InsertDone(_, _, _, _) => CompletionKeepsDisk(s, step, d);
    case UnplugDone(_, _) => CompletionKeepsDisk(s, step, d);
    case _ =>
  }

  // ---------- a new disk ----------

  /** The step adds a disk for `vol`; `root` tells how far its insertion is when the step ends. */
  predicate Adds(s: State, step: Step, vol: VolumeDescription, isRoot: bool, root: Insertion) {
    || (step == AddV(vol) && vol.name !in s.volumes && !isRoot && root.Pending?)
    || (step.AddC? && Admits(s, step.c) && step.c.rootVolume == vol && isRoot && step.root == root)
  }

  /** What of a disk is fixed by what it was added for. */
  predicate DescribedBy(x: Disk, vol: VolumeDescription, isRoot: bool) {
    && x.isRoot == isRoot
    && x.desc.name == vol.name && x.desc.filename == vol.source && x.desc.format == vol.format && x.desc.fstype == vol.fstype
    && x.desc.dockerVolume == vol.dockerVolume && x.desc.readOnly == vol.readOnly
    && x.desc.options == (if vol.format == "rbd" then vol.options else map[])
    && x.plugged == !Virtual(vol.format)
  }

  /** The device a disk has before any insertion completes well: a network file system has its source. */
  function FirstDevice(vol: VolumeDescription): string {
    if vol.format == "nas" then vol.source else ""
  }

  /** A disk at the end of the step that adds it. */
  predicate Newborn(s: State, x: Disk, vol: VolumeDescription, isRoot: bool, root: Insertion) {
    var settled := root.Settled? && !Virtual(vol.format);
    && DescribedBy(x, vol, isRoot) && !x.unplugging
    && x.inFlight == (!Virtual(vol.format) && root.Pending?)
    && x.ready == (Virtual(vol.format) || (root.Settled? && root.ok))
    && x.desc.deviceName == (if settled && root.ok then root.deviceName else FirstDevice(vol))
    && x.desc.scsiAddr == (if settled && root.ok then root.scsiAddr else "")
    && x.desc.scsiId == if Virtual(vol.format) then 0 else s.scsiId
  }

  /** A disk before it is plugged in. */
  predicate Unborn(x: Disk, vol: VolumeDescription, isRoot: bool) {
    && DescribedBy(x.(plugged := !Virtual(vol.format)), vol, isRoot)
    && !x.unplugging && !x.inFlight && !x.plugged && x.observers == map[] && x.ready == Virtual(vol.format)
    && x.desc.deviceName == FirstDevice(vol) && x.desc.scsiAddr == "" && x.desc.scsiId == 0
  }

  lemma DiskMade(vol: VolumeDescription, isRoot: bool)
    ensures Unborn(NewDisk(vol, isRoot), vol, isRoot)
  {
  }

  lemma PlugBorn(s: State, x: Disk, vol: VolumeDescription, isRoot: bool)
    requires Unborn(x, vol, isRoot)
    ensures var t := Plug(s, x);
      |t.disks| == |s.disks| + 1 && Newborn(s, t.disks[|s.disks|], vol, isRoot, Pending) && t.disks[|s.disks|].observers == map[]
  {
  }

  lemma VolumeBorn(s: State, vol: VolumeDescription)
    requires DisksOk(s) && vol.name !in s.volumes
    ensures var t := AddVolume(s, vol).0;
      |t.disks| == |s.disks| + 1 && Newborn(s, t.disks[|s.disks|], vol, false, Pending)
  {
    DiskMade(vol, false);
    PlugBorn(s, NewDisk(vol, false), vol, false);
  }

  lemma EarlyBorn(s: State, p: State, n: nat, vol: VolumeDescription, root: Insertion)
    requires n < |p.disks| && Newborn(s, p.disks[n], vol, true, Pending)
    ensures var e := Early(p, n, root); n < |e.disks| && Newborn(s, e.disks[n], vol, true, root)
  {
    if root.Settled? {
      InsertKeepsDisk(p, n, root.ok, root.deviceName, root.scsiAddr, n);
    }
  }

  lemma RootBorn(s: State, c: ContainerDescription, root: Insertion)
    requires DisksOk(s) && Admits(s, c)
    ensures var t := AddContainer(s, c, root).0;
      |t.disks| == |s.disks| + 1 && Newborn(s, t.disks[|s.disks|], c.rootVolume, true, root)
  {
    DiskMade(c.rootVolume, true);
    var p := Plug(s, NewDisk(c.rootVolume, true));
    PlugBorn(s, NewDisk(c.rootVolume, true), c.rootVolume, true);
    BeforeEnroll(s, c, root);
    EarlyBorn(s, p, |s.disks|, c.rootVolume, root);
    EnrollAt(Early(p, |s.disks|, root), c, |s.disks|, |s.disks|);
  }

  lemma DiskBorn(s: State, step: Step, vol: VolumeDescription, isRoot: bool, root: Insertion)
    requires DisksOk(s) && Adds(s, step, vol, isRoot, root)
    ensures var t := Next(s, step).0;
      |t.disks| == |s.disks| + 1 && Newborn(s, t.disks[|s.disks|], vol, isRoot, root)
  {
    if step.AddV? {
      VolumeBorn(s, vol);
    } else {
      RootBorn(s, step.c, root);
    }
  }

  /** No other step adds a disk, and none takes one out of the list. */
  lemma DisksGrow(s: State, step: Step)
    requires DisksOk(s)
    ensures |Next(s, step).0.disks| ==
      |s.disks| + if (step.AddV? && step.vol.name !in s.volumes) || (step.AddC? && Admits(s, step.c)) then 1 else 0
  {
    if step.AddC? && Admits(s, step.c) {
      RootBorn(s, step.c, step.root);
    }
  }

  // ---------- the steps of a run ----------

  ghost predicate AddedAt(steps: seq<Step>, k: nat, d: nat, vol: VolumeDescription, isRoot: bool, root: Insertion) {
    k < |steps| && |Run(steps[..k]).disks| == d && Adds(Run(steps[..k]), steps[k], vol, isRoot, root)
  }

  /** Step `k` inserts disk `d` well: its completion, or the admission of a container whose root is in before it is waited for. */
  ghost predicate GoodAt(steps: seq<Step>, k: nat, d: nat) {
    k < |steps|
    && var s, step := Run(steps[..k]), steps[k];
    || (Completes(s, step, d) && step.ok)
    || (step.AddC? && Admits(s, step.c) && |s.disks| == d && !Virtual(step.c.rootVolume.format) && step.root.Settled? && step.root.ok)
  }

  /** The device and the address a good insertion came with. */
  function DeviceOf(step: Step): (string, string) {
    match step
    case InsertDone(_, _, dev, addr) => (dev, addr)
    case AddC(_, Settled(_, dev, addr)) => (dev, addr)
    case _ => ("", "")
  }

  /** At step `k` the removal of disk `d` fails. */
  ghost predicate PulledAt(steps: seq<Step>, k: nat, d: nat) {
    k < |steps| && Pulls(Run(steps[..k]), steps[k], d) && !steps[k].ok
  }

  ghost predicate DroppedAt(steps: seq<Step>, k: nat, d: nat) {
    k < |steps| && Drops(Run(steps[..k]), steps[k], d)
  }

  /** Step `k` inserts the disk well, and no removal of it fails later. */
  ghost predicate ReadySince(steps: seq<Step>, k: nat, d: nat) {
    GoodAt(steps, k, d) && forall j :: k < j < |steps| ==> !PulledAt(steps, j, d)
  }

  /** Step `k` takes the disk away, and its removal does not complete later. */
  ghost predicate GoneSince(steps: seq<Step>, k: nat, d: nat) {
    DroppedAt(steps, k, d) && forall j :: k < j < |steps| ==> !(steps[j].UnplugDone? && steps[j].d == d)
  }

  lemma RunMore(front: seq<Step>, step: Step)
    ensures (front + [step])[..|front|] == front && Run(front + [step]) == Next(Run(front), step).0
  {
    assert (front + [step])[..|front|] == front;
  }

  lemma Split(steps: seq<Step>) returns (front: seq<Step>, step: Step)
    requires steps != []
    ensures steps == front + [step]
  {
    front, step := steps[..|steps| - 1], steps[|steps| - 1];
  }

  lemma Last(steps: seq<Step>) returns (front: seq<Step>, step: Step)
    requires steps != []
    ensures steps == front + [step] && Run(steps) == Next(Run(front), step).0
  {
    front, step := steps[..|steps| - 1], steps[|steps| - 1];
    assert steps == front + [step];
  }

  lemma SameBefore(front: seq<Step>, step: Step, k: nat, d: nat)
    requires k < |front|
    ensures var steps := front + [step];
      && steps[..k] == front[..k] && steps[k] == front[k]
      && GoodAt(steps, k, d) == GoodAt(front, k, d) && PulledAt(steps, k, d) == PulledAt(front, k, d)
      && DroppedAt(steps, k, d) == DroppedAt(front, k, d)
  {
    assert (front + [step])[..k] == front[..k];
  }

  // ---------- what a disk was added as ----------

  /** In every run a disk keeps the source, the file system and the flags it was added with. */
  lemma {:induction false} KeptAsAdded(steps: seq<Step>, k: nat, d: nat, vol: VolumeDescription, isRoot: bool, root: Insertion)
    requires AddedAt(steps, k, d, vol, isRoot, root)
    ensures d < |Run(steps).disks| && DescribedBy(Run(steps).disks[d], vol, isRoot)
    decreases |steps|
  {
    var front, step := Last(steps);
    if k == |front| {
      DiskBorn(Run(front), step, vol, isRoot, root);
    } else {
      AddedEarlier(front, step, k, d, vol, isRoot, root);
      KeptAsAdded(front, k, d, vol, isRoot, root);
      DiskStep(Run(front), step, d);
    }
  }

  lemma AddsSome(s: State, step: Step) returns (vol: VolumeDescription, isRoot: bool, root: Insertion)
    requires DisksOk(s) && |Next(s, step).0.disks| > |s.disks|
    ensures Adds(s, step, vol, isRoot, root) && |Next(s, step).0.disks| == |s.disks| + 1
  {
    DisksGrow(s, step);
    if step.AddV? {
      vol, isRoot, root := step.vol, false, Pending;
    } else {
      vol, isRoot, root := step.c.rootVolume, true, step.root;
    }
  }

  /** And every disk was added by some step. */
  lemma {:induction false} EveryDiskAdded(steps: seq<Step>, d: nat) returns (k: nat, vol: VolumeDescription, isRoot: bool, root: Insertion)
    requires d < |Run(steps).disks|
    ensures AddedAt(steps, k, d, vol, isRoot, root)
    decreases |steps|
  {
    var front, step := Last(steps);
    if d < |Run(front).disks| {
      k, vol, isRoot, root := EveryDiskAdded(front, d);
      AddedEarlier(front, step, k, d, vol, isRoot, root);
    } else {
      k := |front|;
      vol, isRoot, root := AddsSome(Run(front), step);
      AddedNow(front, step, vol, isRoot, root);
    }
  }

  lemma AddedEarlier(front: seq<Step>, step: Step, k: nat, d: nat, vol: VolumeDescription, isRoot: bool, root: Insertion)
    requires k < |front|
    ensures AddedAt(front + [step], k, d, vol, isRoot, root) <==> AddedAt(front, k, d, vol, isRoot, root)
  {
    assert (front + [step])[..k] == front[..k];
  }

  lemma AddedNow(front: seq<Step>, step: Step, vol: VolumeDescription, isRoot: bool, root: Insertion)
    requires Adds(Run(front), step, vol, isRoot, root)
    ensures AddedAt(front + [step], |front|, |Run(front).disks|, vol, isRoot, root)
  {
    assert (front + [step])[..|front|] == front;
  }

  // ---------- in flight ----------

  /** No step after `k` reports the insertion of disk `d`. */
  predicate Unreported(steps: seq<Step>, k: nat, d: nat) {
    forall j :: k < j < |steps| ==> !(steps[j].InsertDone? && steps[j].d == d)
  }

  lemma UnreportedMore(front: seq<Step>, step: Step, k: nat, d: nat)
    requires k < |front|
    ensures Unreported(front + [step], k, d) <==> Unreported(front, k, d) && !(step.InsertDone? && step.d == d)
  {
    var steps := front + [step];
    assert steps[|front|] == step;
    assert forall j :: 0 <= j < |front| ==> steps[j] == front[j];
  }

  /** In every run a disk is in flight exactly from the step that adds it to its first completion; a virtual one never is. */
  lemma {:induction false} InFlightIff(steps: seq<Step>, k: nat, d: nat, vol: VolumeDescription, isRoot: bool, root: Insertion)
    requires AddedAt(steps, k, d, vol, isRoot, root)
    ensures d < |Run(steps).disks|
    ensures Run(steps).disks[d].inFlight <==> !Virtual(vol.format) && root.Pending? && Unreported(steps, k, d)
    decreases |steps|
  {
    var front, step := Last(steps);
    if k == |front| {
      DiskBorn(Run(front), step, vol, isRoot, root);
    } else {
      AddedEarlier(front, step, k, d, vol, isRoot, root);
      InFlightIff(front, k, d, vol, isRoot, root);
      UnreportedMore(front, step, k, d);
      DiskStep(Run(front), step, d);
    }
  }

  // ---------- ready ----------

  /** A disk in flight has no good insertion behind it, and one that is being removed is not virtual. */
  ghost predicate FlightInv(steps: seq<Step>, d: nat)
    requires d < |Run(steps).disks|
  {
    var x := Run(steps).disks[d];
    && (x.inFlight ==> !x.ready && !Virtual(x.desc.format) && forall k: nat :: !GoodAt(steps, k, d))
    && (x.unplugging ==> !Virtual(x.desc.format))
    && (x.ready <==> Virtual(x.desc.format) || exists k: nat :: ReadySince(steps, k, d))
  }

  lemma ReadyMore(front: seq<Step>, step: Step, d: nat)
    ensures (exists k: nat :: ReadySince(front + [step], k, d)) <==>
      || GoodAt(front + [step], |front|, d)
      || ((exists k: nat :: ReadySince(front, k, d)) && !PulledAt(front + [step], |front|, d))
  {
    var steps, n := front + [step], |front|;
    forall k: nat | k < n
      ensures ReadySince(steps, k, d) <==> ReadySince(front, k, d) && !PulledAt(steps, n, d)
    {
      ReadyEarlier(front, step, k, d);
    }
    if GoodAt(steps, n, d) {
      assert ReadySince(steps, n, d);
    }
    if k: nat :| ReadySince(front, k, d) && !PulledAt(steps, n, d) {
      assert ReadySince(steps, k, d);
    }
    if k: nat :| ReadySince(steps, k, d) {
      assert k < n || k == n;
    }
  }

  lemma ReadyEarlier(front: seq<Step>, step: Step, k: nat, d: nat)
    requires k < |front|
    ensures ReadySince(front + [step], k, d) <==> ReadySince(front, k, d) && !PulledAt(front + [step], |front|, d)
  {
    var steps := front + [step];
    SameBefore(front, step, k, d);
    forall j | k < j < |front|
      ensures PulledAt(steps, j, d) == PulledAt(front, j, d)
    {
      SameBefore(front, step, j, d);
    }
    if ReadySince(front, k, d) && !PulledAt(steps, |front|, d) {
      forall j | k < j < |steps|
        ensures !PulledAt(steps, j, d)
      {
        assert j < |front| ==> PulledAt(steps, j, d) == PulledAt(front, j, d);
      }
    }
  }

  lemma GrowsPast(steps: seq<Step>, k: nat)
    requires k < |steps|
    ensures |Run(steps[..k]).disks| <= |Next(Run(steps[..k]), steps[k]).0.disks| <= |Run(steps).disks|
  {
    assert steps[..k + 1] == steps[..k] + [steps[k]];
    RunMore(steps[..k], steps[k]);
    DisksOnlyGrow(steps, k + 1);
    DisksGrow(Run(steps[..k]), steps[k]);
  }

  lemma NoGoodBefore(front: seq<Step>, d: nat, k: nat)
    requires d >= |Run(front).disks| && k < |front|
    ensures !GoodAt(front, k, d)
  {
    GrowsPast(front, k);
    DisksGrow(Run(front[..k]), front[k]);
  }

  lemma {:induction false} DisksOnlyGrow(steps: seq<Step>, k: nat)
    requires k <= |steps|
    ensures |Run(steps[..k]).disks| <= |Run(steps).disks|
    decreases |steps|
  {
    if k < |steps| {
      var front, step := steps[..|steps| - 1], steps[|steps| - 1];
      assert steps == front + [step] && front[..k] == steps[..k];
      RunMore(front, step);
      DisksOnlyGrow(front, k);
      DisksGrow(Run(front), step);
    } else {
      assert steps[..k] == steps;
    }
  }

  lemma BornFlight(front: seq<Step>, step: Step, vol: VolumeDescription, isRoot: bool, root: Insertion)
    requires Adds(Run(front), step, vol, isRoot, root)
    ensures var d := |Run(front).disks|; d < |Run(front + [step]).disks| && FlightInv(front + [step], d)
  {
    var d, steps := |Run(front).disks|, front + [step];
    RunMore(front, step);
    DiskBorn(Run(front), step, vol, isRoot, root);
    ReadyMore(front, step, d);
    forall k: nat
      ensures !GoodAt(front, k, d)
    {
      if k < |front| {
        NoGoodBefore(front, d, k);
      }
    }
    GoodSoFar(front, step, d);
    assert !(exists k: nat :: ReadySince(front, k, d));
    assert GoodAt(steps, |front|, d) <==> !Virtual(vol.format) && root.Settled? && root.ok;
  }

  lemma GoodSoFar(front: seq<Step>, step: Step, d: nat)
    ensures (forall k: nat :: !GoodAt(front + [step], k, d)) <==> (forall k: nat :: !GoodAt(front, k, d)) && !GoodAt(front + [step], |front|, d)
  {
    forall k: nat | k < |front|
      ensures GoodAt(front + [step], k, d) == GoodAt(front, k, d)
    {
      SameBefore(front, step, k, d);
    }
    if forall k: nat :: !GoodAt(front + [step], k, d) {
      forall k: nat
        ensures !GoodAt(front, k, d)
      {
        assert k < |front| ==> GoodAt(front + [step], k, d) == GoodAt(front, k, d);
      }
    }
  }

  lemma FlightMore(front: seq<Step>, step: Step, d: nat)
    requires d < |Run(front).disks| && FlightInv(front, d)
    ensures d < |Run(front + [step]).disks| && FlightInv(front + [step], d)
  {
    var s, steps := Run(front), front + [step];
    RunMore(front, step);
    DiskStep(s, step, d);
    ReadyMore(front, step, d);
    GoodSoFar(front, step, d);
    assert GoodAt(steps, |front|, d) <==> Completes(s, step, d) && step.ok;
    assert PulledAt(steps, |front|, d) <==> Pulls(s, step, d) && !step.ok;
    if k: nat :| ReadySince(front, k, d) {
      assert GoodAt(front, k, d);
    }
  }

  lemma NewestDisk(front: seq<Step>, step: Step, d: nat) returns (vol: VolumeDescription, isRoot: bool, root: Insertion)
    requires |Run(front).disks| <= d < |Run(front + [step]).disks|
    ensures d == |Run(front).disks| && Adds(Run(front), step, vol, isRoot, root)
  {
    RunMore(front, step);
    vol, isRoot, root := AddsSome(Run(front), step);
  }

  lemma FlightSnoc(front: seq<Step>, step: Step, d: nat)
    requires d < |Run(front + [step]).disks| && (d < |Run(front).disks| ==> FlightInv(front, d))
    ensures FlightInv(front + [step], d)
  {
    if d < |Run(front).disks| {
      FlightMore(front, step, d);
    } else {
      var vol, isRoot, root := NewestDisk(front, step, d);
      BornFlight(front, step, vol, isRoot, root);
    }
  }

  lemma {:induction false} RunFlight(steps: seq<Step>, d: nat)
    requires d < |Run(steps).disks|
    ensures FlightInv(steps, d)
    decreases |steps|
  {
    var front, step := Split(steps);
    if d < |Run(front).disks| {
      RunFlight(front, d);
    }
    FlightSnoc(front, step, d);
  }

  /** In every run a disk is ready if and only if it is virtual, or was inserted well and no removal of it failed after that. */
  lemma ReadyIff(steps: seq<Step>, d: nat)
    requires d < |Run(steps).disks|
    ensures Run(steps).disks[d].ready <==> Virtual(Run(steps).disks[d].desc.format) || exists k: nat :: ReadySince(steps, k, d)
  {
    RunFlight(steps, d);
  }

  // ---------- device and address ----------

  /** In every run a disk that was inserted well has the device and the address that came with that. */
  lemma {:induction false} DeviceIs(steps: seq<Step>, k: nat, d: nat)
    requires GoodAt(steps, k, d)
    ensures d < |Run(steps).disks|
    ensures var x := Run(steps).disks[d].desc; (x.deviceName, x.scsiAddr) == DeviceOf(steps[k])
    decreases |steps|
  {
    var front, step := Last(steps);
    if k == |front| {
      DeviceGiven(Run(front), step, d);
    } else {
      SameBefore(front, step, k, d);
      DeviceIs(front, k, d);
      RunFlight(front, d);
      DiskStep(Run(front), step, d);
    }
  }

  lemma DeviceGiven(s: State, step: Step, d: nat)
    requires Inv(s)
    requires || (Completes(s, step, d) && step.ok)
             || (step.AddC? && Admits(s, step.c) && |s.disks| == d && !Virtual(step.c.rootVolume.format) && step.root.Settled? && step.root.ok)
    ensures d < |Next(s, step).0.disks|
    ensures var x := Next(s, step).0.disks[d].desc; (x.deviceName, x.scsiAddr) == DeviceOf(step)
  {
    if step.AddC? {
      RootBorn(s, step.c, step.root);
    } else {
      DiskStep(s, step, d);
    }
  }

  /** One that was not has none, but for the source of a network file system. */
  lemma {:induction false} NoDevice(steps: seq<Step>, k: nat, d: nat, vol: VolumeDescription, isRoot: bool, root: Insertion)
    requires AddedAt(steps, k, d, vol, isRoot, root) && forall j: nat :: !GoodAt(steps, j, d)
    ensures d < |Run(steps).disks|
    ensures var x := Run(steps).disks[d].desc; x.deviceName == FirstDevice(vol) && x.scsiAddr == ""
    decreases |steps|
  {
    var front, step := Last(steps);
    GoodSoFar(front, step, d);
    if k == |front| {
      DiskBorn(Run(front), step, vol, isRoot, root);
      assert !GoodAt(steps, k, d);
    } else {
      AddedEarlier(front, step, k, d, vol, isRoot, root);
      NoDevice(front, k, d, vol, isRoot, root);
      DiskStep(Run(front), step, d);
      assert !GoodAt(steps, |front|, d);
    }
  }

  // ---------- being removed ----------

  lemma GoneEarlier(front: seq<Step>, step: Step, k: nat, d: nat)
    requires k < |front|
    ensures GoneSince(front + [step], k, d) <==> GoneSince(front, k, d) && !(step.UnplugDone? && step.d == d)
  {
    var steps := front + [step];
    SameBefore(front, step, k, d);
    assert forall j :: 0 <= j < |front| ==> steps[j] == front[j];
    if GoneSince(steps, k, d) {
      assert !(steps[|front|].UnplugDone? && steps[|front|].d == d);
      forall j | k < j < |front|
        ensures !(front[j].UnplugDone? && front[j].d == d)
      {
        assert steps[j] == front[j];
      }
    }
  }

  lemma GoneMore(front: seq<Step>, step: Step, d: nat)
    ensures (exists k: nat :: GoneSince(front + [step], k, d)) <==>
      || DroppedAt(front + [step], |front|, d)
      || ((exists k: nat :: GoneSince(front, k, d)) && !(step.UnplugDone? && step.d == d))
  {
    var steps, n := front + [step], |front|;
    forall k: nat | k < n
      ensures GoneSince(steps, k, d) <==> GoneSince(front, k, d) && !(step.UnplugDone? && step.d == d)
    {
      GoneEarlier(front, step, k, d);
    }
    if DroppedAt(steps, n, d) {
      assert GoneSince(steps, n, d);
    }
    if k: nat :| GoneSince(front, k, d) && !(step.UnplugDone? && step.d == d) {
      assert GoneSince(steps, k, d);
    }
    if k: nat :| GoneSince(steps, k, d) {
      assert k < n || k == n;
    }
  }

  lemma NotDroppedBefore(front: seq<Step>, d: nat, k: nat)
    requires d >= |Run(front).disks| && k < |front|
    ensures !DroppedAt(front, k, d)
  {
    DisksOnlyGrow(front, k);
  }

  ghost predicate RemovalInv(steps: seq<Step>, d: nat)
    requires d < |Run(steps).disks|
  {
    Run(steps).disks[d].unplugging <==> !Virtual(Run(steps).disks[d].desc.format) && exists k: nat :: GoneSince(steps, k, d)
  }

  lemma RemovalMore(front: seq<Step>, step: Step, d: nat)
    requires d < |Run(front).disks| && RemovalInv(front, d)
    ensures d < |Run(front + [step]).disks| && RemovalInv(front + [step], d)
  {
    RunMore(front, step);
    GoneMore(front, step, d);
    DiskStep(Run(front), step, d);
    assert DroppedAt(front + [step], |front|, d) <==> Drops(Run(front), step, d);
  }

  lemma RemovalBorn(front: seq<Step>, step: Step, vol: VolumeDescription, isRoot: bool, root: Insertion)
    requires Adds(Run(front), step, vol, isRoot, root)
    ensures var d := |Run(front).disks|; d < |Run(front + [step]).disks| && RemovalInv(front + [step], d)
  {
    var d := |Run(front).disks|;
    RunMore(front, step);
    GoneMore(front, step, d);
    DiskBorn(Run(front), step, vol, isRoot, root);
    forall k: nat
      ensures !GoneSince(front, k, d)
    {
      if k < |front| {
        NotDroppedBefore(front, d, k);
      }
    }
    assert !DroppedAt(front + [step], |front|, d);
  }

  lemma RemovalSnoc(front: seq<Step>, step: Step, d: nat)
    requires d < |Run(front + [step]).disks| && (d < |Run(front).disks| ==> RemovalInv(front, d))
    ensures RemovalInv(front + [step], d)
  {
    if d < |Run(front).disks| {
      RemovalMore(front, step, d);
    } else {
      var vol, isRoot, root := NewestDisk(front, step, d);
      RemovalBorn(front, step, vol, isRoot, root);
    }
  }

  lemma {:induction false} RunRemoval(steps: seq<Step>, d: nat)
    requires d < |Run(steps).disks|
    ensures RemovalInv(steps, d)
    decreases |steps|
  {
    var front, step := Split(steps);
    if d < |Run(front).disks| {
      RunRemoval(front, d);
    }
    RemovalSnoc(front, step, d);
  }

  /** In every run a disk is being removed exactly from the step that takes it away to the completion of its removal; a virtual one never is. */
  lemma RemovingIff(steps: seq<Step>, d: nat)
    requires d < |Run(steps).disks|
    ensures Run(steps).disks[d].unplugging <==>
      !Virtual(Run(steps).disks[d].desc.format) && exists k: nat :: GoneSince(steps, k, d)
  {
    RunRemoval(steps, d);
  }

  // ---------- SCSI ids ----------

  /** How many of the disks were plugged in. */
  function Plugged(disks: seq<Disk>): nat {
    if disks == [] then 0 else Plugged(disks[..|disks| - 1]) + if disks[|disks| - 1].plugged then 1 else 0
  }

  /** The ids are given out one by one from zero. */
  predicate Numbered(s: State) {
    && s.scsiId == Plugged(s.disks)
    && forall d :: 0 <= d < |s.disks| && s.disks[d].plugged ==> s.disks[d].desc.scsiId == Plugged(s.disks[..d])
  }

  lemma {:induction false} SamePlugged(a: seq<Disk>, b: seq<Disk>)
    requires |a| == |b| && forall d :: 0 <= d < |a| ==> a[d].plugged == b[d].plugged
    ensures Plugged(a) == Plugged(b)
  {
    if a != [] {
      SamePlugged(a[..|a| - 1], b[..|b| - 1]);
    }
  }

  /** Disks that are there keep their id, and whether they were plugged in. */
  predicate SameNumbers(s: State, t: State, n: nat) {
    n <= |s.disks| && n <= |t.disks|
    && forall d :: 0 <= d < n ==> t.disks[d].plugged == s.disks[d].plugged && t.disks[d].desc.scsiId == s.disks[d].desc.scsiId
  }

  lemma NumberedUpTo(s: State, t: State, d: nat)
    requires Numbered(s) && SameNumbers(s, t, |s.disks|) && d < |s.disks| && t.disks[d].plugged
    ensures t.disks[d].desc.scsiId == Plugged(t.disks[..d])
  {
    SamePlugged(s.disks[..d], t.disks[..d]);
  }

  lemma StepSameNumbers(s: State, step: Step)
    requires Inv(s)
    ensures SameNumbers(s, Next(s, step).0, |s.disks|)
  {
    DisksGrow(s, step);
    forall d | 0 <= d < |s.disks|
      ensures var t := Next(s, step).0;
        d < |t.disks| && t.disks[d].plugged == s.disks[d].plugged && t.disks[d].desc.scsiId == s.disks[d].desc.scsiId
    {
      DiskStep(s, step, d);
    }
  }

  /** The counter moves by one with a disk that is plugged in, and only then. */
  lemma CounterMoves(s: State, step: Step)
    requires DisksOk(s)
    ensures var t := Next(s, step).0;
      t.scsiId == s.scsiId + if |t.disks| > |s.disks| && t.disks[|s.disks|].plugged then 1 else 0
  {
    DisksGrow(s, step);
    if step.AddC? && Admits(s, step.c) {
      RootBorn(s, step.c, step.root);
      DiskMade(step.c.rootVolume, true);
      CounterOfRoot(s, step.c, step.root);
    } else if step.AddV? && step.vol.name !in s.volumes {
      VolumeBorn(s, step.vol);
      DiskMade(step.vol, false);
    }
  }

  lemma CounterOfRoot(s: State, c: ContainerDescription, root: Insertion)
    requires DisksOk(s) && Admits(s, c)
    ensures AddContainer(s, c, root).0.scsiId == s.scsiId + if Virtual(c.rootVolume.format) then 0 else 1
  {
    NewDiskShape(c.rootVolume, true);
    PlugShape(s, NewDisk(c.rootVolume, true));
    EarlyShape(Plug(s, NewDisk(c.rootVolume, true)), |s.disks|, root);
  }

  lemma NumberedGrown(s: State, t: State)
    requires Numbered(s) && SameNumbers(s, t, |s.disks|) && |s.disks| <= |t.disks| <= |s.disks| + 1
    requires t.scsiId == s.scsiId + if |t.disks| > |s.disks| && t.disks[|s.disks|].plugged then 1 else 0
    requires |t.disks| > |s.disks| && t.disks[|s.disks|].plugged ==> t.disks[|s.disks|].desc.scsiId == s.scsiId
    ensures Numbered(t)
  {
    var n := |s.disks|;
    SamePlugged(s.disks, t.disks[..n]);
    assert |t.disks| == n ==> t.disks[..n] == t.disks;
    forall d | 0 <= d < n && t.disks[d].plugged
      ensures t.disks[d].desc.scsiId == Plugged(t.disks[..d])
    {
      NumberedUpTo(s, t, d);
    }
  }

  lemma NumberedStep(s: State, step: Step)
    requires Inv(s) && Numbered(s)
    ensures Numbered(Next(s, step).0)
  {
    StepSameNumbers(s, step);
    CounterMoves(s, step);
    DisksGrow(s, step);
    NumberedNew(s, step);
    NumberedGrown(s, Next(s, step).0);
  }

  lemma NumberedNew(s: State, step: Step)
    requires DisksOk(s)
    ensures var t := Next(s, step).0;
      |t.disks| > |s.disks| && t.disks[|s.disks|].plugged ==> t.disks[|s.disks|].desc.scsiId == s.scsiId
  {
    if |Next(s, step).0.disks| > |s.disks| {
      var vol, isRoot, root := AddsSome(s, step);
      DiskBorn(s, step, vol, isRoot, root);
    }
  }

  lemma {:induction false} RunNumbered(steps: seq<Step>)
    ensures Numbered(Run(steps))
    decreases |steps|
  {
    if steps != [] {
      var front, step := Last(steps);
      RunNumbered(front);
      NumberedStep(Run(front), step);
    }
  }

  /** In every run the n-th disk that is plugged in has SCSI id n, counted from zero. */
  lemma ScsiIdIs(steps: seq<Step>, d: nat)
    requires d < |Run(steps).disks| && Run(steps).disks[d].plugged
    ensures Run(steps).disks[d].desc.scsiId == Plugged(Run(steps).disks[..d])
  {
    RunNumbered(steps);
  }
}
