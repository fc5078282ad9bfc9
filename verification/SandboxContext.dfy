/** The sandbox context as the hypervisor keeps it: maps, counters and disks updated in place. */
module SandboxContext {
  import opened Sandbox

  // ---------- a container that observes some of its disks ----------

  /** The new group of `c` has been charged for the disks `refs`, which `c` now observes. */
  function Charged(s: State, c: ContainerDescription, refs: set<nat>): State {
    s.(disks := seq(|s.disks|, d requires 0 <= d < |s.disks| =>
                      if d in refs then s.disks[d].(observers := s.disks[d].observers[c.id := |s.groups|]) else s.disks[d]),
       groups := s.groups + [Group(c.id, multiset(Owed(s, refs)), multiset{})])
  }

  lemma ChargeAll(s: State, c: ContainerDescription, n: nat)
    ensures Enroll(s, c, n) == Charged(s, c, Refs(s, c) + {n}).(containers := s.containers[c.id := Container(c, n, |s.groups|)])
  {
    assert Owed(s, Refs(s, c) + {n}) == set d | d in Refs(s, c) + {n} && d < |s.disks| && !s.disks[d].ready;
  }

  lemma ChargeNone(s: State, c: ContainerDescription)
    ensures Charged(s, c, {}) == s.(groups := s.groups + [Group(c.id, multiset{}, multiset{})])
  {
    var t := Charged(s, c, {});
    assert t.disks == s.disks;
    assert forall d :: t.groups[|s.groups|].adds[d] == 0;
    assert t.groups[|s.groups|].adds == multiset{};
  }

  function Owed(s: State, refs: set<nat>): set<nat> {
    set d | d in refs && d < |s.disks| && !s.disks[d].ready
  }

  lemma OwedMore(s: State, refs: set<nat>, d: nat)
    requires d < |s.disks| && d !in refs
    ensures multiset(Owed(s, refs + {d})) == multiset(Owed(s, refs)) + if s.disks[d].ready then multiset{} else multiset{d}
  {
    assert Owed(s, refs + {d}) == Owed(s, refs) + if s.disks[d].ready then {} else {d};
  }

  lemma ChargeOne(s: State, c: ContainerDescription, refs: set<nat>, d: nat)
    requires d < |s.disks| && d !in refs
    ensures var t, u := Charged(s, c, refs), Charged(s, c, refs + {d});
      var g := |s.groups|;
      && u.disks == t.disks[d := s.disks[d].(observers := s.disks[d].observers[c.id := g])]
      && u.groups == if s.disks[d].ready then t.groups else t.groups[g := t.groups[g].(adds := t.groups[g].adds + multiset{d})]
  {
    OwedMore(s, refs, d);
    var t, u := Charged(s, c, refs), Charged(s, c, refs + {d});
    var g := |s.groups|;
    assert u.disks == t.disks[d := s.disks[d].(observers := s.disks[d].observers[c.id := g])];
    assert multiset(Owed(s, refs)) + multiset{} == multiset(Owed(s, refs));
    assert u.groups[g].adds == t.groups[g].adds + if s.disks[d].ready then multiset{} else multiset{d};
    assert u.groups == if s.disks[d].ready then t.groups else t.groups[g := t.groups[g].(adds := t.groups[g].adds + multiset{d})];
  }

  lemma ChargePlug(s: State, c: ContainerDescription, refs: set<nat>, disk: Disk)
    requires forall d :: d in refs ==> d < |s.disks|
    ensures Plug(Charged(s, c, refs), disk) == Charged(Plug(s, disk), c, refs)
  {
    var p := Plug(s, disk);
    assert Owed(p, refs) == Owed(s, refs);
    assert Plug(Charged(s, c, refs), disk).disks == Charged(p, c, refs).disks;
  }

  lemma ChargeEarly(s: State, c: ContainerDescription, refs: set<nat>, n: nat, root: Insertion)
    requires n < |s.disks| && n !in refs && s.disks[n].observers == map[]
    ensures Early(Charged(s, c, refs), n, root) == Charged(Early(s, n, root), c, refs)
  {
    EarlyShape(s, n, root);
    EarlyShape(Charged(s, c, refs), n, root);
    assert Owed(Early(s, n, root), refs) == Owed(s, refs);
    forall d | 0 <= d < |s.disks|
      ensures Early(Charged(s, c, refs), n, root).disks[d] == Charged(Early(s, n, root), c, refs).disks[d]
    {
      ChargeEarlyAt(s, c, refs, n, root, d);
    }
  }

  lemma ChargeEarlyAt(s: State, c: ContainerDescription, refs: set<nat>, n: nat, root: Insertion, d: nat)
    requires n < |s.disks| && n !in refs && s.disks[n].observers == map[] && d < |s.disks|
    ensures var e := Early(Charged(s, c, refs), n, root);
      && |e.disks| == |Charged(Early(s, n, root), c, refs).disks| == |s.disks|
      && e.disks[d] == Charged(Early(s, n, root), c, refs).disks[d]
  {
    EarlyShape(s, n, root);
    EarlyShape(Charged(s, c, refs), n, root);
  }

  /** The disks of the volumes named so far. */
  function RefsOf(s: State, names: set<Name>): set<nat> {
    set v | v in names && v in s.volumes :: s.volumes[v]
  }

  /** No disk is observed under `id`, and volumes have disks of their own. */
  ghost predicate Unseen(s: State, id: Name) {
    && (forall v :: v in s.volumes ==> s.volumes[v] < |s.disks|)
    && (forall v, w :: v in s.volumes && w in s.volumes && s.volumes[v] == s.volumes[w] ==> v == w)
    && (forall d :: 0 <= d < |s.disks| ==> id !in s.disks[d].observers)
  }

  lemma NewIsUnseen(s: State, id: Name)
    requires Inv(s) && id !in s.containers
    ensures Unseen(s, id)
  {
    forall d | 0 <= d < |s.disks|
      ensures id !in s.disks[d].observers
    {
      assert ObserverInv(s, d);
    }
  }

  lemma RefsMore(s: State, done: set<Name>, v: Name)
    requires v in s.volumes && v !in done
    requires forall v, w :: v in s.volumes && w in s.volumes && s.volumes[v] == s.volumes[w] ==> v == w
    ensures s.volumes[v] !in RefsOf(s, done) && RefsOf(s, done + {v}) == RefsOf(s, done) + {s.volumes[v]}
  {
  }

  function ForgetAll(s: State, id: Name, refs: set<nat>): seq<Disk> {
    seq(|s.disks|, d requires 0 <= d < |s.disks| => if d in refs then Forget(s.disks[d], id) else s.disks[d])
  }

  lemma ForgetOne(s: State, id: Name, refs: set<nat>, d: nat)
    requires d < |s.disks|
    ensures ForgetAll(s, id, refs + {d}) == ForgetAll(s, id, refs)[d := Forget(ForgetAll(s, id, refs)[d], id)]
  {
    assert Forget(Forget(s.disks[d], id), id) == Forget(s.disks[d], id);
  }

  class VmContext {
    var running: bool
    var scsiId: nat
    var volumes: map<Name, nat>
    var containers: map<Name, Container>
    var disks: seq<Disk>      // the DiskContexts, which volumes and containers point into
    var groups: seq<Group>

    ghost function View(): State
      reads this
    {
      State(running, scsiId, volumes, containers, disks, groups)
    }

    constructor ()
      ensures View() == Init() && Inv(View())
    {
      running, scsiId, volumes, containers, disks, groups := true, 0, map[], map[], [], [];
    }

    method NextScsiId() returns (id: nat)
      modifies `scsiId
      ensures id == old(scsiId) && scsiId == id + 1
    {
      id := scsiId;
      scsiId := scsiId + 1;
    }

    /** The new disk, and insert unless it is ready. */
    method Insert(disk: Disk) returns (d: nat)
      modifies `disks, `scsiId
      ensures View() == Plug(old(View()), disk) && d == old(|disks|)
    {
      d := |disks|;
      if disk.ready {
        disks := disks + [disk];
        return;
      }
      var id := NextScsiId();
      disks := disks + [disk.(desc := disk.desc.(scsiId := id), plugged := true, inFlight := true)];
    }

    method Observe(d: nat, id: Name, g: nat)
      requires d < |disks| && g < |groups|
      modifies `disks, `groups
      ensures id in old(disks)[d].observers ==> disks == old(disks) && groups == old(groups)
      ensures id !in old(disks)[d].observers ==>
        && disks == old(disks)[d := old(disks)[d].(observers := old(disks)[d].observers[id := g])]
        && groups == if old(disks)[d].ready then old(groups)
                     else old(groups)[g := old(groups)[g].(adds := old(groups)[g].adds + multiset{d})]
    {
      if id in disks[d].observers {
        return;
      }
      disks := disks[d := disks[d].(observers := disks[d].observers[id := g])];
      if disks[d].ready {
        return;
      }
      groups := groups[g := groups[g].(adds := groups[g].adds + multiset{d})];
    }

    method Unobserve(d: nat, id: Name)
      requires d < |disks|
      modifies `disks
      ensures disks == old(disks)[d := Forget(old(disks)[d], id)]
    {
      if id in disks[d].observers {
        disks := disks[d := disks[d].(observers := disks[d].observers - {id})];
      } else {
        assert disks[d].observers - {id} == disks[d].observers;
        assert disks[d := disks[d]] == disks;
      }
    }

    method Remove(d: nat) returns (answers: seq<Answer>)
      requires d < |disks|
      modifies `disks
      ensures (View(), answers) == Unplug(old(View()), d)
    {
      if IsDir(disks[d].desc.format) || IsNas(disks[d].desc.format) {
        return [NoNeedToUnplug];
      }
      disks := disks[d := disks[d].(unplugging := true)];
      return [];
    }

    /** inserted and failed: every observer's group gets a Done. */
    method Settle(d: nat, ready: bool)
      requires d < |disks|
      requires forall b, c :: b in disks[d].observers && c in disks[d].observers && disks[d].observers[b] == disks[d].observers[c] ==> b == c
      requires forall c :: c in disks[d].observers ==> disks[d].observers[c] < |groups|
      modifies `disks, `groups
      ensures View() == Fire(old(View()), d, ready)
    {
      disks := disks[d := disks[d].(ready := ready)];
      var watching := disks[d].observers;
      var todo := watching.Keys;
      while todo != {}
        invariant todo <= watching.Keys && |groups| == |old(groups)|
        invariant disks == old(disks)[d := old(disks)[d].(ready := ready)]
        invariant forall g :: 0 <= g < |groups| ==>
          groups[g] == if exists c :: c in watching && watching[c] == g && c !in todo
                       then old(groups)[g].(dones := old(groups)[g].dones + multiset{d}) else old(groups)[g]
        decreases todo
      {
        var c :| c in todo;
        var g := watching[c];
        todo := todo - {c};
        assert groups[g] == old(groups)[g];
        groups := groups[g := groups[g].(dones := groups[g].dones + multiset{d})];
      }
      ghost var told := Fire(old(View()), d, ready).groups;
      forall g | 0 <= g < |groups|
        ensures groups[g] == told[g]
      {
        assert g in watching.Values <==> exists c :: c in watching && watching[c] == g;
      }
      assert groups == told;
    }

    /** validateContainer. */
    method Validate(c: ContainerDescription) returns (ok: bool)
      ensures ok == ValidSpec(View(), c)
    {
      var todo := c.volumes.Keys;
      while todo != {}
        invariant todo <= c.volumes.Keys
        invariant forall v :: v in c.volumes && v !in todo ==> v in volumes && "/" !in c.volumes[v].mounts
        decreases todo
      {
        var v :| v in todo;
        todo := todo - {v};
        if v !in volumes || "/" in c.volumes[v].mounts {
          return false;
        }
      }
      return true;
    }

    method WaitVolume(c: ContainerDescription, v: Name, g: nat, ghost s: State, ghost done: set<Name>)
      requires Unseen(s, c.id) && View() == Charged(s, c, RefsOf(s, done)) && g == |s.groups|
      requires v in volumes && v !in done
      modifies `disks, `groups
      ensures View() == Charged(s, c, RefsOf(s, done + {v}))
    {
      RefsMore(s, done, v);
      ChargeOne(s, c, RefsOf(s, done), volumes[v]);
      Observe(volumes[v], c.id, g);
    }

    /** The loop that waits on the volumes; its missing-volume branch, which rolls back, is never reached. */
    method WaitVolumes(c: ContainerDescription)
      requires Unseen(View(), c.id) && ValidSpec(View(), c)
      modifies `disks, `groups
      ensures View() == Charged(old(View()), c, Refs(old(View()), c))
    {
      ghost var s := View();
      var g := |groups|;
      groups := groups + [Group(c.id, multiset{}, multiset{})];
      ChargeNone(s, c);
      ghost var done: set<Name> := {};
      assert RefsOf(s, done) == {};
      var todo := c.volumes.Keys;
      while todo != {}
        invariant todo + done == c.volumes.Keys && todo !! done
        invariant View() == Charged(s, c, RefsOf(s, done))
        decreases todo
      {
        var v :| v in todo;
        todo := todo - {v};
        if v !in volumes {
          assert false;
        }
        WaitVolume(c, v, g, s, done);
        done := done + {v};
      }
      assert RefsOf(s, done) == Refs(s, c);
    }

    /** The root disk is created, inserted and waited on, and the container recorded. */
    method AddRoot(c: ContainerDescription, root: Insertion, g: nat, ghost s: State)
      requires View() == Charged(s, c, Refs(s, c)) && g == |s.groups| && Unseen(s, c.id)
      modifies this
      ensures View() == Admit(s, c, root)
    {
      ghost var refs := Refs(s, c);
      var disk := NewDisk(c.rootVolume, true);
      NewDiskShape(c.rootVolume, true);
      ChargePlug(s, c, refs, disk);
      var n := Insert(disk);
      ghost var p := Plug(s, disk);
      assert p.disks[n].observers == map[] && Refs(p, c) == refs;
      ChargeEarly(p, c, refs, n, root);
      EarlyShape(p, n, root);
      SettleEarly(n, root);
      WaitRoot(c, n, g, Early(p, n, root));
    }

    /** The wait for the root, and the container is recorded. */
    method WaitRoot(c: ContainerDescription, n: nat, g: nat, ghost e: State)
      requires View() == Charged(e, c, Refs(e, c)) && g == |e.groups|
      requires n < |e.disks| && n !in Refs(e, c) && e.disks[n].observers == map[]
      modifies this
      ensures View() == Enroll(e, c, n)
    {
      ChargeOne(e, c, Refs(e, c), n);
      Observe(n, c.id, g);
      ChargeAll(e, c, n);
      containers := containers[c.id := Container(c, n, g)];
    }

    /** The goroutine of insert, if it is through before the container waits for the disk. */
    method SettleEarly(n: nat, root: Insertion)
      requires n < |disks| && disks[n].observers == map[]
      modifies `disks, `groups
      ensures View() == Early(old(View()), n, root)
    {
      if root.Settled? && disks[n].inFlight {
        disks := disks[n := disks[n].(inFlight := false)];
        if root.ok {
          disks := disks[n := disks[n].(desc := disks[n].desc.(deviceName := root.deviceName, scsiAddr := root.scsiAddr))];
        }
        Settle(n, root.ok);
      }
    }

    /** AddContainer once the description is found valid. */
    method Enlist(c: ContainerDescription, root: Insertion)
      requires Unseen(View(), c.id) && ValidSpec(View(), c)
      modifies this
      ensures View() == Admit(old(View()), c, root)
    {
      ghost var s := View();
      var g := |groups|;
      WaitVolumes(c);
      AddRoot(c, root, g, s);
    }

    /** `root`: what becomes of the root's insertion before the container waits for it. */
    method AddContainer(c: ContainerDescription, root: Insertion) returns (answers: seq<Answer>)
      requires Inv(View())
      modifies this
      ensures (View(), answers) == Next(old(View()), AddC(c, root)) && Inv(View())
    {
      NextKeepsInv(View(), AddC(c, root));
      answers := if running then [] else [NotReady];
      if c.id in containers {
        return answers + [BadSpec];
      }
      var ok := Validate(c);
      if !ok {
        return answers + [BadSpec];
      }
      NewIsUnseen(View(), c.id);
      Enlist(c, root);
    }

    /** RemoveContainer's unwait calls: the volumes, then the root. */
    method UnwaitAll(id: Name)
      requires DisksOk(View()) && id in containers
      modifies `disks
      ensures View() == Leave(old(View()), id).(containers := containers)
    {
      ghost var s := View();
      var cc := containers[id];
      ghost var done: set<Name> := {};
      assert RefsOf(s, done) == {} && ForgetAll(s, id, {}) == disks;
      var todo := cc.desc.volumes.Keys;
      while todo != {}
        invariant todo + done == cc.desc.volumes.Keys
        invariant disks == ForgetAll(s, id, RefsOf(s, done))
        decreases todo
      {
        var v :| v in todo;
        todo := todo - {v};
        if v in volumes {
          Unobserve(volumes[v], id);
          ForgetOne(s, id, RefsOf(s, done), volumes[v]);
          assert RefsOf(s, done + {v}) == RefsOf(s, done) + {volumes[v]};
        } else {
          assert RefsOf(s, done + {v}) == RefsOf(s, done);
        }
        done := done + {v};
      }
      assert RefsOf(s, done) == Refs(s, cc.desc);
      Unobserve(cc.root, id);
      ForgetOne(s, id, Refs(s, cc.desc), cc.root);
    }

    method RemoveContainer(id: Name) returns (answers: seq<Answer>)
      requires Inv(View())
      modifies this
      ensures (View(), answers) == Next(old(View()), RemoveC(id)) && Inv(View())
    {
      NextKeepsInv(View(), RemoveC(id));
      if !running {
        return [NotRunning];
      }
      if id !in containers {
        return [NotExist];
      }
      var root := containers[id].root;
      UnwaitAll(id);
      containers := containers - {id};
      answers := Remove(root);
    }

    method AddVolume(vol: VolumeDescription) returns (answers: seq<Answer>)
      requires Inv(View())
      modifies this
      ensures (View(), answers) == Next(old(View()), AddV(vol)) && Inv(View())
    {
      NextKeepsInv(View(), AddV(vol));
      answers := if running then [] else [NotReady];
      if vol.name in volumes {
        return answers + [Duplicate];
      }
      var d := Insert(NewDisk(vol, false));
      if IsDir(vol.format) || IsNas(vol.format) {
        answers := answers + [Added];
      } else {
        assert answers + [] == answers;
      }
      volumes := volumes[vol.name := d];
    }

    method RemoveVolume(name: Name) returns (answers: seq<Answer>)
      requires Inv(View())
      modifies this
      ensures (View(), answers) == Next(old(View()), RemoveV(name)) && Inv(View())
    {
      NextKeepsInv(View(), RemoveV(name));
      answers := if running then [] else [NotRunning];
      if name !in volumes {
        return answers + [NotExist];
      }
      var d := volumes[name];
      if |disks[d].observers| > 0 {
        return answers + [InUse];
      }
      volumes := volumes - {name};
      var more := Remove(d);
      answers := answers + more;
    }

    /** The goroutine of insert, once the driver has answered. */
    method InsertCompleted(d: nat, ok: bool, deviceName: string, scsiAddr: string)
      requires Inv(View()) && d < |disks| && disks[d].inFlight
      modifies this
      ensures View() == Next(old(View()), InsertDone(d, ok, deviceName, scsiAddr)).0 && Inv(View())
    {
      NextKeepsInv(View(), InsertDone(d, ok, deviceName, scsiAddr));
      Injective(View(), d);
      disks := disks[d := disks[d].(inFlight := false)];
      if ok {
        disks := disks[d := disks[d].(desc := disks[d].desc.(deviceName := deviceName, scsiAddr := scsiAddr))];
      }
      Settle(d, ok);
    }

    /** The goroutine of remove, once the driver has answered. */
    method RemoveCompleted(d: nat, ok: bool)
      requires Inv(View()) && d < |disks| && disks[d].unplugging
      modifies this
      ensures View() == Next(old(View()), UnplugDone(d, ok)).0 && Inv(View())
    {
      NextKeepsInv(View(), UnplugDone(d, ok));
      Injective(View(), d);
      disks := disks[d := disks[d].(unplugging := false)];
      if !ok {
        Settle(d, false);
      }
    }
  }

  lemma Injective(s: State, d: nat)
    requires Inv(s) && d < |s.disks|
    ensures forall b, c :: b in s.disks[d].observers && c in s.disks[d].observers && s.disks[d].observers[b] == s.disks[d].observers[c] ==> b == c
    ensures forall c :: c in s.disks[d].observers ==> s.disks[d].observers[c] < |s.groups|
  {
    assert ObserverInv(s, d);
    forall c | c in s.disks[d].observers
      ensures c in s.containers && s.groups[s.disks[d].observers[c]].owner == c && s.disks[d].observers[c] < |s.groups|
    {
      assert Uses(s, c, d) && ContainerInv(s, c);
    }
  }
}
