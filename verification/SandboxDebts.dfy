/**
 What a container still waits for. Its goroutine blocks on a wait group until the group got a
 Done for every Add; here a debt is a Done that is missing, and the lemmas tell the debts that
 a completion can still repay from those that nothing will.
 */
module SandboxDebts {
  import opened Sandbox

  /** Group `g` misses a Done for disk `d`. */
  predicate Debt(s: State, g: nat, d: nat) {
    g < |s.groups| && s.groups[g].adds[d] > s.groups[g].dones[d]
  }

  predicate InFlight(s: State, d: nat) {
    d < |s.disks| && s.disks[d].inFlight
  }

  /** Group `g` is that of the registered container `c`. */
  predicate Owns(s: State, c: Name, g: nat) {
    c in s.containers && s.containers[c].group == g
  }

  /** Group `g` belongs to a registered container that uses disk `d`, and `d` is in flight. */
  ghost predicate Repayable(s: State, g: nat, d: nat) {
    InFlight(s, d) && exists c :: Owns(s, c, g) && Uses(s, c, d)
  }

  ghost predicate Lost(s: State, g: nat, d: nat) {
    Debt(s, g, d) && !Repayable(s, g, d)
  }

  /** A container is admitted whose disk `d` has failed: a volume, or its root before the container waits for it. */
  predicate FailedAtStart(s: State, step: Step, g: nat, d: nat) {
    && step.AddC? && step.c.id !in s.containers && ValidSpec(s, step.c) && g == |s.groups|
    && (if d < |s.disks| then d in Refs(s, step.c) && !s.disks[d].ready && !s.disks[d].inFlight
        else d == |s.disks| && !Virtual(step.c.rootVolume.format) && step.root.Settled? && !step.root.ok)
  }

  /** A container is removed while its disk `d` is in flight. */
  predicate RemovedInFlight(s: State, step: Step, g: nat, d: nat) {
    step.RemoveC? && s.running && Owns(s, step.id, g) && Uses(s, step.id, d) && InFlight(s, d)
  }

  // ---------- what a step leaves ----------

  /** For group `g` and disk `d` nothing changed but, perhaps, that the owner of `g` left. */
  ghost predicate Calm(s: State, t: State, g: nat, d: nat) {
    && g < |s.groups| && g < |t.groups|
    && t.groups[g].adds[d] == s.groups[g].adds[d] && t.groups[g].dones[d] == s.groups[g].dones[d]
    && (d < |s.disks| ==> (InFlight(t, d) <==> InFlight(s, d)))
    && (forall c :: Owns(t, c, g) ==> Owns(s, c, g) && (Uses(t, c, d) <==> Uses(s, c, d)))
  }

  ghost predicate OwnersStay(s: State, t: State, g: nat) {
    forall c :: Owns(s, c, g) ==> Owns(t, c, g)
  }

  lemma DebtIsOnUsed(s: State, c: Name, g: nat, d: nat)
    requires Inv(s) && Owns(s, c, g) && Debt(s, g, d)
    ensures d < |s.disks| && Uses(s, c, d)
  {
    assert DebtInv(s, c, d);
  }

  lemma LostWhenCalm(s: State, t: State, g: nat, d: nat)
    requires Inv(s) && Calm(s, t, g, d) && Lost(s, g, d)
    ensures Lost(t, g, d)
  {
    if Repayable(t, g, d) {
      var c :| Owns(t, c, g) && Uses(t, c, d);
      DebtIsOnUsed(s, c, g, d);
      assert false;
    }
  }

  lemma FoundWhenCalm(s: State, t: State, g: nat, d: nat)
    requires Calm(s, t, g, d) && OwnersStay(s, t, g) && !Lost(s, g, d)
    ensures !Lost(t, g, d)
  {
    if Repayable(s, g, d) {
      var c :| Owns(s, c, g) && Uses(s, c, d);
      assert Owns(t, c, g);
    }
  }

  lemma SameWhenCalm(s: State, t: State, g: nat, d: nat)
    requires Inv(s) && Calm(s, t, g, d) && OwnersStay(s, t, g)
    ensures Lost(t, g, d) <==> Lost(s, g, d)
  {
    if Lost(s, g, d) {
      LostWhenCalm(s, t, g, d);
    } else {
      FoundWhenCalm(s, t, g, d);
    }
  }

  // ---------- a new container ----------

  /** What the admission of a container sees and makes: the other disks as they were, the root just plugged in. */
  lemma AdmitShape(s: State, c: ContainerDescription, root: Insertion)
    requires Inv(s) && c.id !in s.containers && ValidSpec(s, c)
    ensures |Plug(s, NewDisk(c.rootVolume, true)).disks| == |s.disks| + 1
    ensures var p := Early(Plug(s, NewDisk(c.rootVolume, true)), |s.disks|, root);
      && CanEnroll(p, c, |s.disks|) && p.containers == s.containers && p.groups == s.groups && p.volumes == s.volumes
      && |p.disks| == |s.disks| + 1 && p.disks[..|s.disks|] == s.disks
      && (!p.disks[|s.disks|].ready && !p.disks[|s.disks|].inFlight <==>
            !Virtual(c.rootVolume.format) && root.Settled? && !root.ok)
  {
    NewDiskShape(c.rootVolume, true);
    PlugShape(s, NewDisk(c.rootVolume, true));
    EarlyShape(Plug(s, NewDisk(c.rootVolume, true)), |s.disks|, root);
  }

  lemma EnrollCalm(s: State, p: State, c: ContainerDescription, n: nat, g: nat, d: nat)
    requires CanEnroll(p, c, n) && p.containers == s.containers && p.groups == s.groups && p.volumes == s.volumes
    requires |s.disks| <= |p.disks| && p.disks[..|s.disks|] == s.disks && g < |s.groups|
    ensures Calm(s, Enroll(p, c, n), g, d) && OwnersStay(s, Enroll(p, c, n), g)
  {
    forall b | Owns(Enroll(p, c, n), b, g)
      ensures Owns(s, b, g) && (Uses(Enroll(p, c, n), b, d) <==> Uses(s, b, d))
    {
      EnrollUses(p, c, n, b, d);
    }
    assert d < |s.disks| ==> p.disks[d] == p.disks[..|s.disks|][d];
  }

  lemma AdmitCalm(s: State, c: ContainerDescription, root: Insertion, g: nat, d: nat)
    requires Inv(s) && c.id !in s.containers && ValidSpec(s, c) && g < |s.groups|
    ensures Calm(s, Admit(s, c, root), g, d) && OwnersStay(s, Admit(s, c, root), g)
  {
    AdmitShape(s, c, root);
    EnrollCalm(s, Early(Plug(s, NewDisk(c.rootVolume, true)), |s.disks|, root), c, |s.disks|, g, d);
  }

  lemma EnrollLoses(p: State, c: ContainerDescription, n: nat, d: nat)
    requires DisksOk(p) && CanEnroll(p, c, n)
    ensures Lost(Enroll(p, c, n), |p.groups|, d) <==>
      d in Refs(p, c) + {n} && d < |p.disks| && !p.disks[d].ready && !p.disks[d].inFlight
  {
    var t := Enroll(p, c, n);
    EnrollUses(p, c, n, c.id, d);
    EnrollGroup(p, c, n, d);
    assert Owns(t, c.id, |p.groups|);
    assert forall b :: Owns(t, b, |p.groups|) ==> b == c.id;
  }

  lemma AdmitNew(s: State, c: ContainerDescription, root: Insertion, d: nat)
    requires Inv(s) && c.id !in s.containers && ValidSpec(s, c)
    ensures Lost(Admit(s, c, root), |s.groups|, d) <==> FailedAtStart(s, AddC(c, root), |s.groups|, d)
  {
    AdmitShape(s, c, root);
    var p := Early(Plug(s, NewDisk(c.rootVolume, true)), |s.disks|, root);
    EnrollLoses(p, c, |s.disks|, d);
    assert Refs(p, c) == Refs(s, c);
    assert d < |s.disks| ==> p.disks[d] == p.disks[..|s.disks|][d];
  }

  lemma AddLoses(s: State, c: ContainerDescription, root: Insertion, g: nat, d: nat)
    requires Inv(s)
    ensures Lost(AddContainer(s, c, root).0, g, d) <==> Lost(s, g, d) || FailedAtStart(s, AddC(c, root), g, d)
  {
    if c.id !in s.containers && ValidSpec(s, c) {
      if g < |s.groups| {
        AdmitCalm(s, c, root, g, d);
        SameWhenCalm(s, Admit(s, c, root), g, d);
      } else {
        AdmitShape(s, c, root);
        AdmitNew(s, c, root, d);
      }
    }
  }

  // ---------- the other steps ----------

  lemma RemoveCalm(s: State, id: Name, g: nat, d: nat)
    requires Inv(s) && s.running && id in s.containers && g < |s.groups|
    ensures var t := RemoveContainer(s, id).0;
      && Calm(s, t, g, d) && (forall c :: Owns(t, c, g) <==> Owns(s, c, g) && c != id)
  {
    var t := RemoveContainer(s, id).0;
    forall c
      ensures Uses(t, c, d) <==> c != id && Uses(s, c, d)
    {
      LeaveUses(s, id, c, d);
      assert Uses(t, c, d) <==> Uses(Leave(s, id), c, d);
    }
  }

  /** A registered container owes nothing but for a disk it uses, and one it uses in flight is owed for. */
  lemma RemoveLoses(s: State, id: Name, g: nat, d: nat)
    requires Inv(s)
    ensures Lost(RemoveContainer(s, id).0, g, d) <==> Lost(s, g, d) || RemovedInFlight(s, RemoveC(id), g, d)
  {
    if s.running && id in s.containers && g < |s.groups| {
      var t := RemoveContainer(s, id).0;
      RemoveCalm(s, id, g, d);
      if !Owns(s, id, g) {
        SameWhenCalm(s, t, g, d);
      } else {
        OnlyOwner(s, id, g);
        assert DebtInv(s, id, d);
      }
    }
  }

  lemma OnlyOwner(s: State, c: Name, g: nat)
    requires Inv(s) && Owns(s, c, g)
    ensures forall b :: Owns(s, b, g) ==> b == c
  {
    forall b | Owns(s, b, g)
      ensures b == c
    {
      assert ContainerInv(s, b) && ContainerInv(s, c);
    }
  }

  lemma AddVolumeLoses(s: State, vol: VolumeDescription, g: nat, d: nat)
    requires Inv(s)
    ensures Lost(AddVolume(s, vol).0, g, d) <==> Lost(s, g, d)
  {
    if vol.name !in s.volumes && g < |s.groups| {
      var p := Plug(s, NewDisk(vol, false));
      NewDiskShape(vol, false);
      PlugKeeps(s, NewDisk(vol, false));
      forall c
        ensures Uses(AddVolume(s, vol).0, c, d) <==> Uses(s, c, d)
      {
        PlugUses(s, NewDisk(vol, false), c, d);
        NameUses(p, vol.name, |s.disks|, c, d);
      }
      SameWhenCalm(s, AddVolume(s, vol).0, g, d);
    }
  }

  lemma RemoveVolumeCalm(s: State, name: Name, g: nat, d: nat)
    requires Inv(s) && name in s.volumes && s.disks[s.volumes[name]].observers == map[] && g < |s.groups|
    ensures Calm(s, RemoveVolume(s, name).0, g, d) && OwnersStay(s, RemoveVolume(s, name).0, g)
  {
    forall c
      ensures Uses(RemoveVolume(s, name).0, c, d) <==> Uses(s, c, d)
    {
      ForgetSameUses(s, name, c, d);
    }
  }

  lemma RemoveVolumeLoses(s: State, name: Name, g: nat, d: nat)
    requires Inv(s)
    ensures Lost(RemoveVolume(s, name).0, g, d) <==> Lost(s, g, d)
  {
    if name in s.volumes && s.disks[s.volumes[name]].observers == map[] && g < |s.groups| {
      RemoveVolumeCalm(s, name, g, d);
      SameWhenCalm(s, RemoveVolume(s, name).0, g, d);
    }
  }

  lemma TellsUsers(s: State, d: nat, g: nat)
    requires d < |s.disks| && ObserverInv(s, d)
    ensures g in s.disks[d].observers.Values <==> exists c :: Owns(s, c, g) && Uses(s, c, d)
  {
    if c :| Owns(s, c, g) && Uses(s, c, d) {
      assert s.disks[d].observers[c] == g;
    }
    if g in s.disks[d].observers.Values {
      var c :| c in s.disks[d].observers && s.disks[d].observers[c] == g;
      assert Owns(s, c, g) && Uses(s, c, d);
    }
  }

  /** A completion tells exactly the groups that could still be repaid. */
  lemma InsertTells(s: State, d: nat, ok: bool, dev: string, addr: string, g: nat)
    requires InFlight(s, d) && ObserverInv(s, d) && g < |s.groups|
    ensures var t := Inserted(s, d, ok, dev, addr);
      && g < |t.groups| && t.groups[g].adds == s.groups[g].adds && !InFlight(t, d)
      && t.groups[g].dones == s.groups[g].dones + if Repayable(s, g, d) then multiset{d} else multiset{}
  {
    TellsUsers(s, d, g);
  }

  /** What can be repaid is one Done, and the completion gives it. */
  lemma InsertRepays(s: State, d: nat, ok: bool, dev: string, addr: string, g: nat)
    requires Inv(s) && Repayable(s, g, d)
    ensures Debt(s, g, d) && !Debt(Inserted(s, d, ok, dev, addr), g, d)
  {
    var c :| Owns(s, c, g) && Uses(s, c, d);
    assert DebtInv(s, c, d) && ObserverInv(s, d);
    InsertTells(s, d, ok, dev, addr, g);
  }

  lemma InsertElsewhere(s: State, e: nat, ok: bool, dev: string, addr: string, g: nat, d: nat)
    requires Inv(s) && InFlight(s, e) && g < |s.groups| && d != e
    ensures Calm(s, Inserted(s, e, ok, dev, addr), g, d) && OwnersStay(s, Inserted(s, e, ok, dev, addr), g)
  {
    assert ObserverInv(s, e);
    InsertTells(s, e, ok, dev, addr, g);
    forall c
      ensures Uses(Inserted(s, e, ok, dev, addr), c, d) <==> Uses(s, c, d)
    {
      InsertedUses(s, e, ok, dev, addr, c, d);
    }
  }

  lemma InsertLoses(s: State, e: nat, ok: bool, dev: string, addr: string, g: nat, d: nat)
    requires Inv(s) && InFlight(s, e)
    ensures Lost(Inserted(s, e, ok, dev, addr), g, d) <==> Lost(s, g, d)
  {
    if g < |s.groups| {
      if d != e {
        InsertElsewhere(s, e, ok, dev, addr, g, d);
        SameWhenCalm(s, Inserted(s, e, ok, dev, addr), g, d);
      } else {
        assert ObserverInv(s, d);
        InsertTells(s, d, ok, dev, addr, g);
        if Repayable(s, g, d) {
          InsertRepays(s, d, ok, dev, addr, g);
        }
      }
    }
  }

  lemma UnplugLoses(s: State, e: nat, ok: bool, g: nat, d: nat)
    requires Inv(s) && e < |s.disks| && s.disks[e].unplugging
    ensures Lost(Unplugged(s, e, ok), g, d) <==> Lost(s, g, d)
  {
    var t := Unplugged(s, e, ok);
    assert DiskInv(s, e);
    assert s.disks[e].observers.Values == {};
    assert t.groups == s.groups;
    if g < |s.groups| {
      assert forall c :: Uses(t, c, d) <==> Uses(s, c, d);
      SameWhenCalm(s, t, g, d);
    }
  }

  lemma RunningLoses(s: State, b: bool, g: nat, d: nat)
    requires Inv(s)
    ensures Lost(s.(running := b), g, d) <==> Lost(s, g, d)
  {
    var t := s.(running := b);
    if g < |s.groups| {
      assert forall c :: Uses(t, c, d) <==> Uses(s, c, d);
      SameWhenCalm(s, t, g, d);
    }
  }

  // ---------- one step ----------

  predicate Loses(s: State, step: Step, g: nat, d: nat) {
    FailedAtStart(s, step, g, d) || RemovedInFlight(s, step, g, d)
  }

  /** A lost debt stays; a new one comes from an admission on a failed disk or the removal of the owner in flight, and from nothing else. */
  lemma LostNext(s: State, step: Step, g: nat, d: nat)
    requires Inv(s)
    ensures Lost(Next(s, step).0, g, d) <==> Lost(s, g, d) || Loses(s, step, g, d)
  {
    match step
    case AddC(c, root) => AddLoses(s, c, root, g, d);
    case RemoveC(id) => RemoveLoses(s, id, g, d);
    case AddV(vol) => AddVolumeLoses(s, vol, g, d);
    case RemoveV(name) => RemoveVolumeLoses(s, name, g, d);
    case InsertDone(e, ok, dev, addr) => if InFlight(s, e) { InsertLoses(s, e, ok, dev, addr, g, d); }
    case UnplugDone(e, ok) => if e < |s.disks| && s.disks[e].unplugging { UnplugLoses(s, e, ok, g, d); }
    case SetRunning(b) => RunningLoses(s, b, g, d);
  }

  // ---------- whole runs ----------

  ghost function RunFrom(s: State, steps: seq<Step>): (t: State)
    requires Inv(s)
    ensures Inv(t)
    decreases |steps|
  {
    if steps == [] then s
    else
      NextKeepsInv(s, steps[0]);
      RunFrom(Next(s, steps[0]).0, steps[1..])
  }

  lemma RunCons(s: State, step: Step, steps: seq<Step>)
    requires Inv(s) && Inv(Next(s, step).0)
    ensures RunFrom(s, [step] + steps) == RunFrom(Next(s, step).0, steps)
  {
    assert ([step] + steps)[1..] == steps;
  }

  lemma {:induction false} LostForGood(s: State, steps: seq<Step>, g: nat, d: nat)
    requires Inv(s) && Lost(s, g, d)
    ensures Lost(RunFrom(s, steps), g, d)
    decreases |steps|
  {
    if steps != [] {
      NextKeepsInv(s, steps[0]);
      LostNext(s, steps[0], g, d);
      LostForGood(Next(s, steps[0]).0, steps[1..], g, d);
    }
  }

  lemma Repays(s: State, g: nat, d: nat)
    requires Inv(s) && Repayable(s, g, d)
    ensures !Debt(RunFrom(s, [InsertDone(d, true, "", "")] + []), g, d)
  {
    var step := InsertDone(d, true, "", "");
    InsertRepays(s, d, true, "", "", g);
    NextKeepsInv(s, step);
    RunCons(s, step, []);
  }

  /** A debt can still be repaid if and only if its group belongs to a registered container that uses the disk, and the disk is in flight. */
  lemma RepaidIff(s: State, g: nat, d: nat)
    requires Inv(s) && Debt(s, g, d)
    ensures (exists steps :: !Debt(RunFrom(s, steps), g, d)) <==> Repayable(s, g, d)
  {
    if Repayable(s, g, d) {
      Repays(s, g, d);
    } else {
      forall steps: seq<Step>
        ensures Debt(RunFrom(s, steps), g, d)
      {
        LostForGood(s, steps, g, d);
      }
    }
  }

  /** The wait on group `g` returns: as many Done calls as Add calls. */
  predicate Cleared(s: State, g: nat) {
    g < |s.groups| && s.groups[g].adds == s.groups[g].dones
  }

  ghost predicate ClearedAfter(s: State, steps: seq<Step>, g: nat)
    requires Inv(s)
  {
    Cleared(RunFrom(s, steps), g)
  }

  ghost predicate CanClear(s: State, g: nat)
    requires Inv(s)
  {
    exists steps :: ClearedAfter(s, steps, g)
  }

  lemma ClearedCons(s: State, step: Step, steps: seq<Step>, g: nat)
    requires Inv(s) && Inv(Next(s, step).0) && ClearedAfter(Next(s, step).0, steps, g)
    ensures ClearedAfter(s, [step] + steps, g)
  {
    RunCons(s, step, steps);
  }

  lemma NoDebtClears(s: State, g: nat)
    requires Inv(s) && g < |s.groups| && forall d: nat :: !Debt(s, g, d)
    ensures ClearedAfter(s, [], g)
  {
    forall d: nat
      ensures s.groups[g].adds[d] == s.groups[g].dones[d]
    {
      assert !Debt(s, g, d);
    }
  }

  ghost predicate NoneLost(s: State, g: nat) {
    g < |s.groups| && forall d: nat :: !Lost(s, g, d)
  }

  lemma InsertFound(s: State, step: Step, g: nat)
    requires Inv(s) && step.InsertDone? && NoneLost(s, g)
    ensures NoneLost(Next(s, step).0, g)
  {
    forall d: nat
      ensures !Lost(Next(s, step).0, g, d)
    {
      LostNext(s, step, g, d);
    }
  }

  /** How many Done calls the group misses. */
  function Owed(s: State, g: nat): nat {
    if g < |s.groups| then |s.groups[g].adds - s.groups[g].dones| else 0
  }

  lemma RepaysOne(s: State, g: nat, d: nat)
    requires DisksOk(s) && InFlight(s, d) && ObserverInv(s, d) && Debt(s, g, d) && Repayable(s, g, d)
    ensures Owed(Next(s, InsertDone(d, true, "", "")).0, g) < Owed(s, g)
  {
    InsertTells(s, d, true, "", "", g);
    OneLess(s.groups[g].adds, s.groups[g].dones, d);
  }

  /** The completions of the disks in flight clear the group, one after the other. */
  lemma {:induction false} FoundClears(s: State, g: nat) returns (steps: seq<Step>)
    requires Inv(s) && NoneLost(s, g)
    ensures ClearedAfter(s, steps, g)
    decreases Owed(s, g)
  {
    if d: nat :| Debt(s, g, d) {
      var step := InsertDone(d, true, "", "");
      NextKeepsInv(s, step);
      InsertFound(s, step, g);
      DebtFound(s, g, d);
      RepaysOne(s, g, d);
      var rest := FoundClears(Next(s, step).0, g);
      ClearedCons(s, step, rest, g);
      steps := [step] + rest;
    } else {
      NoDebtClears(s, g);
      steps := [];
    }
  }

  lemma DebtFound(s: State, g: nat, d: nat)
    requires Inv(s) && NoneLost(s, g) && Debt(s, g, d)
    ensures InFlight(s, d) && ObserverInv(s, d) && Repayable(s, g, d)
  {
    assert !Lost(s, g, d);
  }

  lemma OneLess(adds: multiset<nat>, dones: multiset<nat>, d: nat)
    requires adds[d] > dones[d]
    ensures |adds - (dones + multiset{d})| < |adds - dones|
  {
    assert adds - dones == adds - (dones + multiset{d}) + multiset{d};
  }

  /** A container's wait can still end if and only if none of its debts is lost. */
  lemma WaitEndsIff(s: State, g: nat)
    requires Inv(s) && g < |s.groups|
    ensures CanClear(s, g) <==> NoneLost(s, g)
  {
    if d: nat :| Lost(s, g, d) {
      forall steps: seq<Step>
        ensures !ClearedAfter(s, steps, g)
      {
        LostForGood(s, steps, g, d);
      }
    } else {
      var steps := FoundClears(s, g);
    }
  }

  ghost predicate LosesAt(steps: seq<Step>, k: nat, g: nat, d: nat) {
    k < |steps| && Loses(Run(steps[..k]), steps[k], g, d)
  }

  lemma LosesSame(steps: seq<Step>, more: seq<Step>, k: nat, g: nat, d: nat)
    requires k < |steps|
    ensures LosesAt(steps + more, k, g, d) <==> LosesAt(steps, k, g, d)
  {
    assert (steps + more)[..k] == steps[..k];
  }

  lemma RunSnoc(steps: seq<Step>, step: Step)
    ensures Run(steps + [step]) == Next(Run(steps), step).0
    ensures forall g: nat, d: nat :: LosesAt(steps + [step], |steps|, g, d) <==> Loses(Run(steps), step, g, d)
  {
    assert (steps + [step])[..|steps|] == steps;
  }

  /** In every run the lost debts are those of the admissions on a failed disk and of the removals in flight. */
  lemma {:induction false} LostInRun(steps: seq<Step>, g: nat, d: nat)
    ensures Lost(Run(steps), g, d) <==> exists k: nat :: LosesAt(steps, k, g, d)
    decreases |steps|
  {
    if steps == [] {
      assert !exists k: nat :: LosesAt(steps, k, g, d);
    } else {
      var before, step := steps[..|steps| - 1], steps[|steps| - 1];
      assert steps == before + [step];
      LostInRun(before, g, d);
      RunSnoc(before, step);
      LostNext(Run(before), step, g, d);
      LosesLast(before, step, g, d);
    }
  }

  lemma LosesLast(before: seq<Step>, step: Step, g: nat, d: nat)
    ensures (exists k: nat :: LosesAt(before + [step], k, g, d)) <==>
      (exists k: nat :: LosesAt(before, k, g, d)) || LosesAt(before + [step], |before|, g, d)
  {
    forall k: nat | k < |before|
      ensures LosesAt(before + [step], k, g, d) <==> LosesAt(before, k, g, d)
    {
      LosesSame(before, [step], k, g, d);
    }
    if k: nat :| LosesAt(before + [step], k, g, d) {
      assert k < |before| || k == |before|;
    }
    if k: nat :| LosesAt(before, k, g, d) {
      assert LosesAt(before + [step], k, g, d);
    }
  }

  // ---------- the two ways ----------

  /** A root that fails between its insertion and the wait for it: the container waits for ever. */
  lemma EarlyFailureLost(s: State, c: ContainerDescription, dev: string, addr: string, steps: seq<Step>)
    requires Inv(s) && c.id !in s.containers && ValidSpec(s, c) && !Virtual(c.rootVolume.format)
    ensures Lost(RunFrom(s, [AddC(c, Settled(false, dev, addr))] + steps), |s.groups|, |s.disks|)
  {
    var step := AddC(c, Settled(false, dev, addr));
    assert FailedAtStart(s, step, |s.groups|, |s.disks|);
    LostNext(s, step, |s.groups|, |s.disks|);
    NextKeepsInv(s, step);
    RunCons(s, step, steps);
    LostForGood(Next(s, step).0, steps, |s.groups|, |s.disks|);
  }

  /** A container removed while its root is in flight: the insertion succeeds, and the goroutine waits for ever all the same. */
  lemma RemovedWaits(s: State, c: ContainerDescription, dev: string, addr: string)
    requires Inv(s) && s.running && c.id !in s.containers && ValidSpec(s, c) && !Virtual(c.rootVolume.format)
    ensures var t := RunFrom(s, [AddC(c, Pending), RemoveC(c.id), InsertDone(|s.disks|, true, dev, addr)]);
      && |s.disks| < |t.disks| && t.disks[|s.disks|].ready && |s.groups| < |t.groups| && !CanClear(t, |s.groups|)
  {
    NextKeepsInv(s, AddC(c, Pending));
    PendingRoot(s, c);
    var t := Next(s, AddC(c, Pending)).0;
    NextKeepsInv(t, RemoveC(c.id));
    RemovedLost(t, c.id);
    var u := Next(t, RemoveC(c.id)).0;
    CompletedLost(u, |s.disks|, dev, addr, |s.groups|);
    ThreeSteps(s, AddC(c, Pending), RemoveC(c.id), InsertDone(|s.disks|, true, dev, addr));
  }

  lemma RemovedLost(s: State, id: Name)
    requires Inv(s) && s.running && id in s.containers && InFlight(s, s.containers[id].root)
    ensures var t := Next(s, RemoveC(id)).0; var n := s.containers[id].root;
      Lost(t, s.containers[id].group, n) && InFlight(t, n)
  {
    LostNext(s, RemoveC(id), s.containers[id].group, s.containers[id].root);
    LeaveRoot(s, id);
  }

  lemma CompletedLost(s: State, n: nat, dev: string, addr: string, g: nat)
    requires Inv(s) && Lost(s, g, n) && InFlight(s, n)
    ensures var t := Next(s, InsertDone(n, true, dev, addr)).0;
      Inv(t) && n < |t.disks| && t.disks[n].ready && g < |t.groups| && !CanClear(t, g)
  {
    var step := InsertDone(n, true, dev, addr);
    NextKeepsInv(s, step);
    LostNext(s, step, g, n);
    WaitEndsIff(Next(s, step).0, g);
  }

  lemma PendingRoot(s: State, c: ContainerDescription)
    requires Inv(s) && c.id !in s.containers && ValidSpec(s, c) && !Virtual(c.rootVolume.format)
    ensures var t := AddContainer(s, c, Pending).0;
      && t.running == s.running && Owns(t, c.id, |s.groups|) && t.containers[c.id].root == |s.disks|
      && Uses(t, c.id, |s.disks|) && InFlight(t, |s.disks|)
  {
    NewDiskShape(c.rootVolume, true);
  }

  lemma LeaveRoot(s: State, id: Name)
    requires DisksOk(s) && s.running && id in s.containers
    ensures var t := RemoveContainer(s, id).0; var n := s.containers[id].root;
      && n < |t.disks| && t.disks[n].inFlight == s.disks[n].inFlight
  {
  }

  lemma ThreeSteps(s: State, a: Step, b: Step, c: Step)
    requires Inv(s) && Inv(Next(s, a).0) && Inv(Next(Next(s, a).0, b).0)
    ensures RunFrom(s, [a, b, c]) == Next(Next(Next(s, a).0, b).0, c).0
  {
    var t := Next(s, a).0;
    var u := Next(t, b).0;
    NextKeepsInv(u, c);
    RunCons(s, a, [b, c]);
    RunCons(t, b, [c]);
    RunCons(u, c, []);
    assert [a] + [b, c] == [a, b, c] && [b] + [c] == [b, c] && [c] + [] == [c];
  }
}
