/** Saving a whole sandbox context, and loading it. */
module VmPersist {
  import opened Bytes
  import opened Sandbox
  import opened Persistence
  import opened RestoreRoundTrip
  import Network
  import opened VsockCid

  const CURRENT_PERSIST_VERSION: int := 20171210
  const COMPATIBLE_PERSIST_VERSION: int := CURRENT_PERSIST_VERSION

  datatype HwStatus = HwStatus(pciAddr: int, scsiId: nat, attachId: nat, guestCid: uint32)

  datatype PersistInfo = PersistInfo(
    version: int, id: string, paused: bool, hw: HwStatus, volumes: seq<PersistVolume>, nics: seq<Network.PersistNic>,
    ports: nat, containers: map<Name, ContainerDescription>)

  /** VmContext, as far as it is saved; `streamSeq` is the agent's last stream number. */
  datatype Vm = Vm(
    id: string, paused: bool, pciAddr: int, streamSeq: nat, guestCid: uint32, vsock: bool, sandbox: State,
    net: Network.Net, ports: nat)

  /** What a context satisfies between updates of its interfaces. */
  ghost predicate VmInv(vm: Vm) {
    Inv(vm.sandbox) && Network.NetInv(vm.net)
  }

  /** `info` saves `vm`: volumes, roots and interfaces in whatever order the maps were gone through. */
  ghost predicate Saved(vm: Vm, info: PersistInfo) {
    && VmInv(vm)
    && info.version == CURRENT_PERSIST_VERSION && info.id == vm.id && info.paused == vm.paused && info.ports == vm.ports
    && info.hw == HwStatus(vm.pciAddr, vm.sandbox.scsiId, vm.streamSeq, vm.guestCid)
    && (exists who :: IsDump(vm.sandbox, info.volumes, info.containers, who))
    && Network.IsNetDump(vm.net, info.nics) && Network.AllConfigured(vm.net)
  }

  /** VmContext.dump; it needs the driver's part, and a card in every slot that is taken. */
  method Dump(vm: Vm, driverDumps: bool) returns (r: Option<PersistInfo>)
    requires VmInv(vm)
    ensures r.Some? <==> driverDumps && Network.AllConfigured(vm.net)
    ensures r.Some? ==> Saved(vm, r.value)
  {
    if !driverDumps {
      return None;
    }
    var volumes, containers := Persistence.Dump(vm.sandbox);
    var nics := Network.DumpNics(vm.net);
    if nics.None? {
      return None;
    }
    return Some(PersistInfo(
      CURRENT_PERSIST_VERSION, vm.id, vm.paused, HwStatus(vm.pciAddr, vm.sandbox.scsiId, vm.streamSeq, vm.guestCid),
      volumes, nics.value, vm.ports, containers));
  }

  /** Why a context is not loaded; `Crash` is the store of a saved port beyond an empty slice. */
  datatype Refusal = Newer | Older | Driver | Init | CidConflict | Crash | Corrupted(fault: Fault)
  datatype Loaded = Loaded(vm: Vm) | Refused(why: Refusal)

  /** The version is the one that can be read, the driver and the directories are there. */
  predicate Starts(info: PersistInfo, driverLoads: bool, inits: bool) {
    info.version == 20171210 && driverLoads && inits
  }

  /** The saved socket id is one that is in use. */
  predicate Conflicts(info: PersistInfo, taken: set<uint32>) {
    info.hw.guestCid != 0 && info.hw.guestCid in taken
  }

  /** Each refusal has its own cause, in this order; a context that is loaded has what was saved, and a socket id that was free. */
  predicate LoadsRight(info: PersistInfo, driverLoads: bool, inits: bool, taken: set<uint32>, r: Loaded) {
    var goesOn := Starts(info, driverLoads, inits) && !Conflicts(info, taken) && info.ports == 0;
    && (r == Refused(Newer) <==> info.version > 20171210)
    && (r == Refused(Older) <==> info.version < 20171210)
    && (r == Refused(Driver) <==> info.version == 20171210 && !driverLoads)
    && (r == Refused(Init) <==> info.version == 20171210 && driverLoads && !inits)
    && (r == Refused(CidConflict) <==> Starts(info, driverLoads, inits) && Conflicts(info, taken))
    && (r == Refused(Crash) <==> Starts(info, driverLoads, inits) && !Conflicts(info, taken) && info.ports > 0)
    && (r == Refused(Corrupted(RootMismatch)) <==> goesOn && Mismatched(info.volumes))
    && (r == Refused(Corrupted(LackOfRoot)) <==> goesOn && !Mismatched(info.volumes) && Rootless(info.volumes, info.containers))
    && (r.Loaded? <==> goesOn && !Mismatched(info.volumes) && !Rootless(info.volumes, info.containers))
    && (r.Loaded? ==>
          && r.vm.id == info.id && r.vm.paused == info.paused && r.vm.pciAddr == info.hw.pciAddr
          && r.vm.streamSeq == info.hw.attachId && r.vm.guestCid == info.hw.guestCid
          && (r.vm.vsock <==> info.hw.guestCid != 0) && r.vm.ports == 0)
  }

  /** The socket ids in use afterwards: that of the context is marked once loading got that far, and stays marked. */
  function TakenAfter(info: PersistInfo, driverLoads: bool, inits: bool, taken: set<uint32>): set<uint32> {
    if Starts(info, driverLoads, inits) && info.hw.guestCid != 0 then taken + {info.hw.guestCid} else taken
  }

  /** The saved context again: flags, counters, socket id, volumes, containers, interfaces. */
  ghost predicate VmRestored(vm: Vm, u: Vm) {
    && u.id == vm.id && u.paused == vm.paused && u.pciAddr == vm.pciAddr && u.guestCid == vm.guestCid
    && (u.vsock <==> vm.guestCid != 0) && u.streamSeq == vm.streamSeq
    && Restored(vm.sandbox, u.sandbox) && Network.NetRestored(vm.net, u.net)
  }

  /**
   PersistInfo.vmContext, and the stream number the new agent is given. A saved context is always
   loaded unless the driver or the directories fail, its socket id is taken, or it has ports; a
   socket id that was marked stays marked when the volumes are refused.
   */
  method Load(info: PersistInfo, driverLoads: bool, inits: bool, cids: CidAllocator, spares: seq<string>) returns (r: Loaded)
    requires cids.Valid() && |spares| >= |info.nics|
    modifies cids`bitmap, cids`log
    ensures cids.Valid()
    ensures LoadsRight(info, driverLoads, inits, old(cids.bitmap), r)
    ensures cids.bitmap == TakenAfter(info, driverLoads, inits, old(cids.bitmap))
    ensures Starts(info, driverLoads, inits) && !Conflicts(info, old(cids.bitmap)) && info.ports == 0 ==>
      forall vm :: Saved(vm, info) && Network.NamedNics(vm.net) ==> r.Loaded? && VmRestored(vm, r.vm)
  {
    if info.version > CURRENT_PERSIST_VERSION {
      return Refused(Newer);
    }
    if info.version < COMPATIBLE_PERSIST_VERSION {
      return Refused(Older);
    }
    if !driverLoads {
      return Refused(Driver);
    }
    if !inits {
      return Refused(Init);
    }
    var vsock := false;
    if info.hw.guestCid != 0 {
      var marked := cids.MarkCidInuse(info.hw.guestCid);
      if !marked {
        return Refused(CidConflict);
      }
      vsock := true;
    }
    var net := Network.Load(info.nics, info.ports, spares);
    if net.None? {
      return Refused(Crash);
    }
    var sandbox := RestoreRoundTrip.Load(info.volumes, info.containers, info.hw.scsiId);
    assert sandbox.Corrupt? ==> sandbox.fault == RootMismatch || sandbox.fault == LackOfRoot;
    match sandbox
    case Corrupt(fault) =>
      r := Refused(Corrupted(fault));
    case Sandbox(state) =>
      r := Loaded(Vm(info.id, info.paused, info.hw.pciAddr, info.hw.attachId, info.hw.guestCid, vsock, state, net.value, 0));
  }

  /** One context to load, and what came of it. */
  datatype Attempt = Attempt(info: PersistInfo, driverLoads: bool, inits: bool, result: Loaded)

  /** The attempts were made one after the other through one allocator, from which nothing was released meanwhile. */
  predicate Sequence(attempts: seq<Attempt>, taken: set<uint32>) {
    attempts == []
    || var a := attempts[0];
       && LoadsRight(a.info, a.driverLoads, a.inits, taken, a.result)
       && Sequence(attempts[1..], TakenAfter(a.info, a.driverLoads, a.inits, taken))
  }

  /** A context that is loaded has a socket id that was free when the loading began. */
  lemma {:induction false} LoadedWasFree(attempts: seq<Attempt>, taken: set<uint32>, k: nat)
    requires Sequence(attempts, taken) && k < |attempts| && attempts[k].result.Loaded? && attempts[k].result.vm.guestCid != 0
    ensures attempts[k].result.vm.guestCid !in taken
  {
    if k > 0 {
      var a := attempts[0];
      LoadedWasFree(attempts[1..], TakenAfter(a.info, a.driverLoads, a.inits, taken), k - 1);
    }
  }

  /** However many contexts are loaded, no two of them share a socket id. */
  lemma {:induction false} LoadedIdsDiffer(attempts: seq<Attempt>, taken: set<uint32>, j: nat, k: nat)
    requires Sequence(attempts, taken) && j < k < |attempts|
    requires attempts[j].result.Loaded? && attempts[k].result.Loaded? && attempts[j].result.vm.guestCid != 0
    ensures attempts[j].result.vm.guestCid != attempts[k].result.vm.guestCid
  {
    var a := attempts[0];
    var after := TakenAfter(a.info, a.driverLoads, a.inits, taken);
    if j > 0 {
      LoadedIdsDiffer(attempts[1..], after, j - 1, k - 1);
    } else if attempts[k].result.vm.guestCid != 0 {
      LoadedWasFree(attempts[1..], after, k - 1);
    }
  }
}
