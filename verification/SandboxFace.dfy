/**
 What a user of the sandbox can tell: the names of volumes and containers, which container uses
 which volume, and which disks are virtual. The sandbox with its disks, wait groups and
 completions refines this simple machine.
 */
module SandboxFace {
  import opened Sandbox

  datatype Use = Use(volumes: set<Name>, rootVirtual: bool)
  datatype Face = Face(running: bool, virtual: map<Name, bool>, uses: map<Name, Use>)

  predicate IsVirtual(s: State, d: nat)
    requires d < |s.disks|
  {
    Virtual(s.disks[d].desc.format)
  }

  function FaceOf(s: State): Face
    requires DisksOk(s)
  {
    Face(s.running,
         map v | v in s.volumes :: IsVirtual(s, s.volumes[v]),
         map c | c in s.containers :: Use(s.containers[c].desc.volumes.Keys, IsVirtual(s, s.containers[c].root)))
  }

  predicate FaceValid(f: Face, c: ContainerDescription) {
    forall v :: v in c.volumes ==> v in f.virtual && "/" !in c.volumes[v].mounts
  }

  predicate Named(f: Face, v: Name) {
    exists c :: c in f.uses && v in f.uses[c].volumes
  }

  function UnplugAnswer(virtual: bool): seq<Answer> {
    if virtual then [NoNeedToUnplug] else []
  }

  /** The simple machine: no disks, no completions. */
  function FaceNext(f: Face, step: Step): (Face, seq<Answer>) {
    var ready := if f.running then [] else [NotReady];
    var running := if f.running then [] else [NotRunning];
    match step
    case AddC(c, _) =>
      if c.id in f.uses || !FaceValid(f, c) then (f, ready + [BadSpec])
      else (f.(uses := f.uses[c.id := Use(c.volumes.Keys, Virtual(c.rootVolume.format))]), ready)
    case RemoveC(id) =>
      if !f.running then (f, [NotRunning])
      else if id !in f.uses then (f, [NotExist])
      else (f.(uses := f.uses - {id}), UnplugAnswer(f.uses[id].rootVirtual))
    case AddV(vol) =>
      if vol.name in f.virtual then (f, ready + [Duplicate])
      else (f.(virtual := f.virtual[vol.name := Virtual(vol.format)]), ready + if Virtual(vol.format) then [Added] else [])
    case RemoveV(name) =>
      if name !in f.virtual then (f, running + [NotExist])
      else if Named(f, name) then (f, running + [InUse])
      else (f.(virtual := f.virtual - {name}), running + UnplugAnswer(f.virtual[name]))
    case SetRunning(b) => (f.(running := b), [])
    case InsertDone(_, _, _, _) => (f, [])
    case UnplugDone(_, _) => (f, [])
  }

  /** A volume's observers are the containers that name it. */
  lemma ObserversAre(s: State, v: Name, c: Name)
    requires Inv(s) && v in s.volumes
    ensures c in s.disks[s.volumes[v]].observers <==> c in s.containers && v in s.containers[c].desc.volumes
  {
    var d := s.volumes[v];
    assert ObserverInv(s, d) && DiskInv(s, d) && d in s.volumes.Values;
    if c in s.containers {
      assert ContainerInv(s, c);
      assert v in s.containers[c].desc.volumes ==> Uses(s, c, d);
    }
  }

  lemma ObservedIsNamed(s: State, v: Name)
    requires Inv(s) && v in s.volumes
    ensures s.disks[s.volumes[v]].observers != map[] <==> Named(FaceOf(s), v)
  {
    var f := FaceOf(s);
    if c :| c in s.disks[s.volumes[v]].observers {
      ObserversAre(s, v, c);
      assert v in f.uses[c].volumes;
    }
    if Named(f, v) {
      var c :| c in f.uses && v in f.uses[c].volumes;
      ObserversAre(s, v, c);
    }
  }

  lemma MapEq<K, V>(a: map<K, V>, b: map<K, V>)
    requires a.Keys == b.Keys && forall k :: k in a ==> a[k] == b[k]
    ensures a == b
  {
  }

  /** The disks of `s` are there in `t`, virtual or not as they were. */
  predicate Extends(s: State, t: State) {
    && |s.disks| <= |t.disks|
    && (forall d :: 0 <= d < |s.disks| ==> IsVirtual(t, d) == IsVirtual(s, d))
  }

  /** Only formats of disks, volumes and containers show. */
  lemma SameFace(s: State, t: State)
    requires DisksOk(s) && DisksOk(t) && Extends(s, t) && s.volumes == t.volumes && s.containers == t.containers
    ensures FaceOf(t) == FaceOf(s).(running := t.running)
  {
    MapEq(FaceOf(s).virtual, FaceOf(t).virtual);
    MapEq(FaceOf(s).uses, FaceOf(t).uses);
  }

  lemma MoreUses(s: State, t: State, id: Name, cc: Container)
    requires DisksOk(s) && DisksOk(t) && Extends(s, t) && s.volumes == t.volumes && s.running == t.running
    requires t.containers == s.containers[id := cc] && cc.root < |t.disks|
    ensures FaceOf(t) == FaceOf(s).(uses := FaceOf(s).uses[id := Use(cc.desc.volumes.Keys, IsVirtual(t, cc.root))])
  {
    MapEq(FaceOf(s).virtual, FaceOf(t).virtual);
    MapEq(FaceOf(t).uses, FaceOf(s).uses[id := Use(cc.desc.volumes.Keys, IsVirtual(t, cc.root))]);
  }

  lemma FewerUses(s: State, t: State, id: Name)
    requires DisksOk(s) && DisksOk(t) && Extends(s, t) && s.volumes == t.volumes && s.running == t.running
    requires t.containers == s.containers - {id}
    ensures FaceOf(t) == FaceOf(s).(uses := FaceOf(s).uses - {id})
  {
    MapEq(FaceOf(s).virtual, FaceOf(t).virtual);
    MapEq(FaceOf(t).uses, FaceOf(s).uses - {id});
  }

  lemma MoreVolumes(s: State, t: State, name: Name, n: nat)
    requires DisksOk(s) && DisksOk(t) && Extends(s, t) && s.containers == t.containers && s.running == t.running
    requires t.volumes == s.volumes[name := n] && n < |t.disks|
    ensures FaceOf(t) == FaceOf(s).(virtual := FaceOf(s).virtual[name := IsVirtual(t, n)])
  {
    MapEq(FaceOf(t).virtual, FaceOf(s).virtual[name := IsVirtual(t, n)]);
    MapEq(FaceOf(s).uses, FaceOf(t).uses);
  }

  lemma AdmitShape(s: State, c: ContainerDescription, root: Insertion)
    requires DisksOk(s)
    ensures var t := Admit(s, c, root);
      && DisksOk(t) && Extends(s, t) && t.volumes == s.volumes && t.running == s.running && |t.disks| == |s.disks| + 1
      && t.containers == s.containers[c.id := Container(c, |s.disks|, |s.groups|)]
      && IsVirtual(t, |s.disks|) == Virtual(c.rootVolume.format)
  {
    NewDiskShape(c.rootVolume, true);
    var p := Plug(s, NewDisk(c.rootVolume, true));
    EarlyShape(p, |s.disks|, root);
    EnrollShape(Early(p, |s.disks|, root), c, |s.disks|);
  }

  lemma UnplugFace(s: State, d: nat)
    requires DisksOk(s) && d < |s.disks|
    ensures DisksOk(Unplug(s, d).0) && FaceOf(Unplug(s, d).0) == FaceOf(s)
    ensures Unplug(s, d).1 == UnplugAnswer(IsVirtual(s, d))
  {
    SameFace(s, Unplug(s, d).0);
  }

  lemma ForgetVolumeFace(s: State, name: Name)
    requires DisksOk(s) && name in s.volumes
    ensures var t := s.(volumes := s.volumes - {name});
      DisksOk(t) && FaceOf(t) == FaceOf(s).(virtual := FaceOf(s).virtual - {name})
  {
    var t := s.(volumes := s.volumes - {name});
    MapEq(FaceOf(t).virtual, FaceOf(s).virtual - {name});
    MapEq(FaceOf(t).uses, FaceOf(s).uses);
  }

  lemma AddContainerRefines(s: State, c: ContainerDescription, root: Insertion)
    requires Inv(s)
    ensures DisksOk(AddContainer(s, c, root).0)
    ensures (FaceOf(AddContainer(s, c, root).0), AddContainer(s, c, root).1) == FaceNext(FaceOf(s), AddC(c, root))
  {
    assert FaceValid(FaceOf(s), c) <==> ValidSpec(s, c);
    if c.id !in s.containers && ValidSpec(s, c) {
      AdmitShape(s, c, root);
      MoreUses(s, Admit(s, c, root), c.id, Container(c, |s.disks|, |s.groups|));
    }
  }

  lemma RemoveContainerRefines(s: State, id: Name)
    requires Inv(s)
    ensures DisksOk(RemoveContainer(s, id).0)
    ensures (FaceOf(RemoveContainer(s, id).0), RemoveContainer(s, id).1) == FaceNext(FaceOf(s), RemoveC(id))
  {
    if s.running && id in s.containers {
      FewerUses(s, Leave(s, id), id);
      UnplugFace(Leave(s, id), s.containers[id].root);
    }
  }

  lemma AddVolumeShape(s: State, vol: VolumeDescription)
    requires DisksOk(s) && vol.name !in s.volumes
    ensures var t := AddVolume(s, vol).0;
      && DisksOk(t) && Extends(s, t) && t.containers == s.containers && t.running == s.running && |t.disks| == |s.disks| + 1
      && t.volumes == s.volumes[vol.name := |s.disks|] && IsVirtual(t, |s.disks|) == Virtual(vol.format)
  {
    NewDiskShape(vol, false);
  }

  lemma AddVolumeRefines(s: State, vol: VolumeDescription)
    requires Inv(s)
    ensures DisksOk(AddVolume(s, vol).0)
    ensures (FaceOf(AddVolume(s, vol).0), AddVolume(s, vol).1) == FaceNext(FaceOf(s), AddV(vol))
  {
    if vol.name !in s.volumes {
      AddVolumeShape(s, vol);
      MoreVolumes(s, AddVolume(s, vol).0, vol.name, |s.disks|);
    }
  }

  lemma RemoveVolumeRefines(s: State, name: Name)
    requires Inv(s)
    ensures DisksOk(RemoveVolume(s, name).0)
    ensures (FaceOf(RemoveVolume(s, name).0), RemoveVolume(s, name).1) == FaceNext(FaceOf(s), RemoveV(name))
  {
    if name in s.volumes {
      ObservedIsNamed(s, name);
      ForgetVolumeFace(s, name);
      UnplugFace(s.(volumes := s.volumes - {name}), s.volumes[name]);
    }
  }

  lemma HiddenRefines(s: State, step: Step)
    requires DisksOk(s) && (!IsApi(step) || step.SetRunning?)
    ensures DisksOk(Next(s, step).0)
    ensures (FaceOf(Next(s, step).0), Next(s, step).1) == FaceNext(FaceOf(s), step)
  {
    HiddenShape(s, step);
    SameFace(s, Next(s, step).0);
  }

  lemma HiddenShape(s: State, step: Step)
    requires DisksOk(s) && (!IsApi(step) || step.SetRunning?)
    ensures var t := Next(s, step).0;
      && DisksOk(t) && Extends(s, t) && t.volumes == s.volumes && t.containers == s.containers
      && t.running == (if step.SetRunning? then step.running else s.running) && Next(s, step).1 == []
  {
    match step
    case InsertDone(d, ok, dev, addr) =>
      if d < |s.disks| && s.disks[d].inFlight {
        InsertedShape(s, d, ok, dev, addr);
      }
    case UnplugDone(d, ok) =>
      if d < |s.disks| && s.disks[d].unplugging {
        UnpluggedShape(s, d, ok);
      }
    case _ =>
  }

  lemma InsertedShape(s: State, d: nat, ok: bool, dev: string, addr: string)
    requires DisksOk(s) && d < |s.disks|
    ensures var t := Inserted(s, d, ok, dev, addr);
      DisksOk(t) && Extends(s, t) && t.volumes == s.volumes && t.containers == s.containers && t.running == s.running
  {
  }

  lemma UnpluggedShape(s: State, d: nat, ok: bool)
    requires DisksOk(s) && d < |s.disks|
    ensures var t := Unplugged(s, d, ok);
      DisksOk(t) && Extends(s, t) && t.volumes == s.volumes && t.containers == s.containers && t.running == s.running
  {
  }

  /** Every step of the sandbox, completions included, is a step of the simple machine with the same answers. */
  lemma StepRefines(s: State, step: Step)
    requires Inv(s)
    ensures DisksOk(Next(s, step).0)
    ensures (FaceOf(Next(s, step).0), Next(s, step).1) == FaceNext(FaceOf(s), step)
  {
    match step
    case AddC(c, root) => AddContainerRefines(s, c, root);
    case RemoveC(id) => RemoveContainerRefines(s, id);
    case AddV(vol) => AddVolumeRefines(s, vol);
    case RemoveV(name) => RemoveVolumeRefines(s, name);
    case _ => HiddenRefines(s, step);
  }

  // ---------- whole runs ----------

  predicate IsApi(step: Step) {
    !step.InsertDone? && !step.UnplugDone?
  }

  /** The operation as it is called: when a root's insertion completes is not part of it. */
  function Called(step: Step): Step {
    if step.AddC? then AddC(step.c, Pending) else step
  }

  /** The operations of a run, without the completions. */
  function Api(steps: seq<Step>): seq<Step> {
    if steps == [] then [] else (if IsApi(steps[0]) then [Called(steps[0])] else []) + Api(steps[1..])
  }

  lemma FaceOfCalled(f: Face, step: Step)
    ensures FaceNext(f, Called(step)) == FaceNext(f, step)
  {
  }

  /** What the operations of a run answer. */
  ghost function Answers(s: State, steps: seq<Step>): seq<seq<Answer>>
    requires Inv(s)
    decreases |steps|
  {
    if steps == [] then []
    else
      NextKeepsInv(s, steps[0]);
      (if IsApi(steps[0]) then [Next(s, steps[0]).1] else []) + Answers(Next(s, steps[0]).0, steps[1..])
  }

  function FaceAnswers(f: Face, steps: seq<Step>): seq<seq<Answer>>
    decreases |steps|
  {
    if steps == [] then [] else [FaceNext(f, steps[0]).1] + FaceAnswers(FaceNext(f, steps[0]).0, steps[1..])
  }

  lemma FaceStep(f: Face, steps: seq<Step>)
    requires steps != []
    ensures var (g, answer) := FaceNext(f, steps[0]);
      FaceAnswers(f, Api(steps)) ==
        if IsApi(steps[0]) then [answer] + FaceAnswers(g, Api(steps[1..])) else FaceAnswers(f, Api(steps[1..]))
    ensures !IsApi(steps[0]) ==> FaceNext(f, steps[0]).0 == f
  {
    if IsApi(steps[0]) {
      FaceOfCalled(f, steps[0]);
      assert Api(steps) == [Called(steps[0])] + Api(steps[1..]);
      assert Api(steps)[1..] == Api(steps[1..]);
    } else {
      assert Api(steps) == [] + Api(steps[1..]) == Api(steps[1..]);
    }
  }

  /** The answers of a run are those of the simple machine on its operations alone. */
  lemma {:induction false} RunRefines(s: State, steps: seq<Step>)
    requires Inv(s)
    ensures Answers(s, steps) == FaceAnswers(FaceOf(s), Api(steps))
    decreases |steps|
  {
    if steps != [] {
      NextKeepsInv(s, steps[0]);
      StepRefines(s, steps[0]);
      var t := Next(s, steps[0]).0;
      RunRefines(t, steps[1..]);
      FaceStep(FaceOf(s), steps);
    }
  }

  /** Sandboxes with the same face answer the same operations alike, whatever their disks complete in between. */
  lemma SameFaceSameAnswers(s: State, t: State, a: seq<Step>, b: seq<Step>)
    requires Inv(s) && Inv(t) && FaceOf(s) == FaceOf(t) && Api(a) == Api(b)
    ensures Answers(s, a) == Answers(t, b)
  {
    RunRefines(s, a);
    RunRefines(t, b);
  }
}
