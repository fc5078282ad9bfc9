# runV in Dafny

runV starts containers inside small virtual machines. Its core is a set of protocol engines and
shared tables: a framed, flow-controlled command channel to the agent in the guest, a QMP session
engine, the bookkeeping of volumes and containers with its persistence, a byte pipe over pooled
buffers, the registry of guest processes, a VM cache and a few allocators and printers. This project
models them in Dafny and proves what they keep, over every input, every run and every interleaving.

A goroutine is a sequence of atomic steps, a region under a mutex is one step, and a channel is a
sequence of items. Objects that the Go code updates in place are classes whose methods are proved to
make exactly the steps of a state machine on values; the theorems about whole runs are about that
machine. Map iteration takes the keys in an arbitrary order.

`dafny verify dfyconfig.toml` checks everything.

## Files

| file | what it models |
|---|---|
| Bytes, Bits, Ring | big-endian numbers, bitwise operations, round-robin allocation |
| Frames, StdinStream | control and tty frames, the reader loops, stdin streams |
| ControlChannel, ControlSession, ControlProgress | the sender loop of the control channel; sender, wire and guest together; runs told from the items taken, and progress |
| QmpCommander, QmpHandler, QmpStops | one QMP session; handler, commander, receiver and QEMU together; when the handler stops |
| Sandbox, SandboxDebts, SandboxDisks, SandboxContext, SandboxFace | volumes, containers, disks and wait groups; which waits can end; the life of a disk; the object; what a user can tell |
| Persistence, Restore, RestoreRoundTrip | saving volumes and containers, restoring them, and that this gives the sandbox again |
| Network, VmPersist | interface maps and their saving; a whole context saved and loaded |
| FixedBuffers, BytesPipe | the pooled buffers and the pipe |
| ProcessRegistry, ProcessReports, ProcessWaiters, ProcessAgent | processes, their streams and exit statuses; what is recorded of each; waiters that get none; the object |
| CacheFactory, CacheCallers | the VM cache and its shutdown; its callers |
| VsockCid, IpAddress, IpAllocator | socket ids, addresses and networks, the address allocator |
| Bitmap, RangeList, DiskName | the growing bitmap, its printed form, device names |

## What is assumed

- The guest credits no more bytes than it has received, and answers each command once, in order and only after it received all of it (ControlSession).
- A read without an error gives at least one byte (Frames).
- QEMU answers each command once (QmpHandler).
- Mount points are compared as they are after cleaning of the path (Sandbox).
- When a byte slice outgrows its capacity, append takes the size class of 8 bytes for the first eight, at least 16 bytes after that, and leaves zeros behind the data (Frames, ControlChannel).
- A printed address stands for its bytes: the two forms of an IPv4 address print alike, everything else apart (IpAddress). A network prints as its address and mask, and all networks that lack one of them print alike (IpAllocator).

## What does not hold, and when it does

- A frame is read back exactly when its tag and its length fit their fields; the length is cut to 32 bits (`Frames.RoundTrip`).
- A pause is never answered exactly when another pause comes while it waits for commands, or the loop ends while it waits: after the reply to DESTROYPOD, or when the channel is closed (`ControlChannel.PausesAllAnswered`, `ControlChannel.FirstPauseLost`, `ControlChannel.PauseLostAtEnd`). The one caller, hypervisor/vm.go:462-467, makes its pauses one at a time, so of these it can meet the end of the loop.
- The sender panics exactly on a NEXT without a body (`ControlChannel.PanicsExactly`). It slices four bytes out of the body, and Go bounds that by the capacity of the reader's buffer, which append grows from 8 to 16 bytes or more with the first byte after the header (`Frames.SliceFits`). A body of one to three bytes is credited with zeros behind it (`ControlChannel.ShortCredit`).
- The wait of a container's goroutine can end exactly when none of the Done calls it misses is lost (`SandboxDebts.WaitEndsIff`). One is lost in exactly two ways (`SandboxDebts.LostNext`): the container starts to wait for a disk that has failed, its own root included when that fails between insertion and wait (`SandboxDebts.EarlyFailureLost`); or the container is removed while the disk is in flight, after which even a good insertion tells nobody (`SandboxDebts.RemovedWaits`).
- The index of interfaces by id is right after a restore exactly when the saved ids are distinct (`Network.RestoredIndex`). A new loopback keeps it right exactly when, at an address that has a loopback, its id is that loopback's and, at a new address, its id is new; two loopbacks without an id both become "lo" (`Network.NetworkContext.AddLoopback`).
- A bitmap takes the numbers -7 to -1 for the bits 1 to 7 (`Bitmap.Bitmap.Set`).
- A caller of WaitProcess is left without a status exactly when a failed command takes its process back while it waits (`ProcessWaiters.StrandedInRun`).
- A commander that waits for a reply when the QMP handler stops is told to quit if the connection broke; if QEMU shut down or the handler was told to quit it may wait for ever (`QmpStops.BrokenFreesCommander`, `QmpStops.WaitsForEver`).
- The drain in Close ends exactly when no NEXT is queued: a NEXT has no result channel (`ControlChannel.Drain`).
- The end of a process's stdio is a nil call exactly when its stderr entry is already gone (`ProcessRegistry.PanicsWhen`, `ProcessRegistry.StderrFirstPanics`).
- Every stream entry belongs to a registered process, in every run, exactly when numbering starts at one or more; from zero a removed process leaves its stream behind (`ProcessRegistry.StartMatters`, `ProcessRegistry.ZeroLeaks`).
- A worker that fails while New is still starting the others closes the cache under them, and a later worker sends on the closed channel; that cannot happen exactly for a cache of one (`CacheFactory.SafeSizes`, `CacheFactory.EarlyCloseRun`).
- AddContainer, AddVolume and RemoveVolume go on after they answered that the sandbox is not running; the model does too (`Sandbox.NextKeepsInv` covers these runs).
- Saving crashes exactly when a network slot is reserved and has no card, restoring crashes exactly when a port was saved (`Network.DumpNics`, `Network.Load`).
- A context that is refused for its volumes leaves its socket id marked (`VmPersist.Load`).
- Bytes to integer and back keeps an address exactly when it does not start with a zero byte; in a network such as 0.0.0.0/24 an address that was claimed is handed out again (`IpAddress.ConversionRoundTrip`, `IpAllocator.ClaimIsSeen`, `IpAllocator.ZeroOctetTwice`).
- The allocator's range ends at the last address of the network exactly when neither end is the 16-byte form of an IPv4 address; of ::/80 it takes the last address for 255.255.255.255 (`IpAddress.EndsExact`, `IpAddress.EightyFolds`).

## Model

| member | source | states |
|---|---|---|
| `Frames.RoundTrip` | agent/hyperstart.go:128-169 | reading what was framed gives the message back, and leaves the bytes after it, if and only if tag and length fit their fields |
| `Frames.FrameLayout` | agent/hyperstart.go:128-135 | the bytes of a frame on each socket: tag, total length, body, big-endian |
| `Frames.PrefixIncomplete` | agent/hyperstart.go:137-169 | no proper prefix of a frame is read as a message |
| `Frames.SplitPrefix` | agent/hyperstart.go:137-169 | any prefix of a stream of frames splits into the first messages and an incomplete rest of the next one |
| `Frames.SplitAll` | agent/hyperstart.go:137-169 | a stream of frames that fit splits into exactly its messages |
| `Frames.SplitMonotone` | agent/hyperstart.go:137-169 | whatever the bytes, with more of them the messages read before stay and others follow |
| `Frames.ReadFrame` | agent/hyperstart.go:137-169 | for any chunking of the reads, the reader loop takes exactly the bytes of the first frame and gives its message, or fails; even on a connection that breaks it takes no byte beyond the frame, and no read goes past the header before the header is there |
| `Frames.SliceFits` | agent/hyperstart.go:142-168 | with such reads, and append growing the buffer, four bytes can be sliced out of the body if and only if the body is not empty |
| `Frames.ReadLoop` | agent/hyperstart.go:374-381 | reading until an error gives exactly the messages the bytes split into |
| `StdinStream.ChunksCarry` | agent/hyperstart.go:564-581 | the pieces of a write are non-empty, of 16 bytes but for the last, and join to the data |
| `StdinStream.EmitCarries` | agent/hyperstart.go:556-599 | writes followed by a close become messages of one session whose bodies join to the bytes written, with one empty message, the last |
| `StdinStream.StreamsDelivered` | agent/api/hyperstart/types.go:44-51 | however the messages of several streams interleave on the wire, a reader gets for each session the exact bytes and the end |
| `StdinStream.StreamIn.Write` | agent/hyperstart.go:556-582 | sends the pieces of the data and reports all of it, or fails exactly when the stream was closed or the agent closes the channel, having sent at most the first pieces and reporting none |
| `StdinStream.StreamIn.Close` | agent/hyperstart.go:584-599 | sends one empty message and closes the stream; fails exactly when that was done before or the channel is closed |
| `ControlChannel.StepKeepsInv` | agent/hyperstart.go:253-359 | every turn of the sender keeps: written bytes and bytes to write are the frames of the accepted commands in order; replies went to the first of them; a pause waits only while commands are queued |
| `ControlChannel.WindowBounded` | agent/hyperstart.go:349-358 | in every run at most 512 bytes are uncredited |
| `ControlChannel.WireCarriesAccepted` | agent/hyperstart.go:340-358 | in every run what was written reads back as a prefix of the accepted commands |
| `ControlChannel.RequestsAnsweredOnce` | agent/hyperstart.go:306-364 | in every run each request gets one result: rejections, replies in acceptance order, the closed error for the rest; after a panic the rest get none |
| `ControlChannel.PanicsExactly` | agent/hyperstart.go:282-283 | the sender panics if and only if it takes a NEXT without a body |
| `ControlChannel.ShortCredit` | agent/hyperstart.go:282-283 | a NEXT of one to three bytes credits them as the high-order bytes of the number |
| `ControlChannel.PausesAnsweredOnce` | agent/hyperstart.go:292-305 | every pause is answered by draining or by an unpause, or was replaced, or still waits; every unpause is answered |
| `ControlChannel.PausesAllAnswered` | agent/hyperstart.go:292-305 | in every run, to after the loop, every pause is answered if and only if none came while another waited and none waits when the loop ends |
| `ControlChannel.DroppedMeans` | agent/hyperstart.go:292-298 | a pause is forgotten if and only if some pause came while the sender was paused with commands outstanding |
| `ControlChannel.PauseLostAtEnd` | agent/hyperstart.go:361-364 | the reply to DESTROYPOD ends the loop while another command is outstanding: the pause that waits for it is never answered |
| `ControlChannel.FirstPauseLost` | agent/hyperstart.go:292-298 | two pauses during one command: the first is never answered |
| `ControlChannel.PauseHolds` | agent/hyperstart.go:273-310 | after a drained pause nothing is queued, accepted or answered until an unpause |
| `ControlChannel.Drain` | agent/hyperstart.go:115-119 | the drain tells every queued command that the agent closed, and ends exactly when no NEXT is queued |
| `ControlChannel.Sender.ConnWrite` | agent/hyperstart.go:355-357 | a write takes any number of the offered bytes |
| `ControlChannel.Sender.HandleReply` | agent/hyperstart.go:260-280 | a reply goes to the first queued command, ends the loop after DESTROYPOD, and answers a pause that waited for an empty queue |
| `ControlChannel.Sender.HandleOther` | agent/hyperstart.go:281-347 | credits, pauses, unpauses and requests change the state as the machine does, the panic on a NEXT without a body and the padded credit of a short one included |
| `ControlChannel.Sender.Turn` | agent/hyperstart.go:253-360 | one turn of the loop is one step of the machine, with whatever the connection took |
| `ControlChannel.Sender.CloseQueued` | agent/hyperstart.go:361-364 | every command still queued gets the closed error |
| `ControlChannel.Sender.HandleMsgToHyperstart` | agent/hyperstart.go:244-366 | the whole loop, on any items, is a run of the machine followed by its exit |
| `ControlProgress.RunAccounts` | agent/hyperstart.go:253-347 | in every run, told from the items taken: accepted are exactly the requests that came unpaused and could be marshalled, the others are rejected with their reason; the n-th reply that finds a command goes to the n-th accepted one; the credit is the sum of the NEXTs |
| `ControlProgress.EndsExactly` | agent/hyperstart.go:260-266 | in every run the loop has ended if and only if it panicked or command 4, DESTROYPOD, has its reply |
| `ControlProgress.TurnWrites` | agent/hyperstart.go:349-358 | in every interleaving a turn writes as soon as all that was written is credited, and then as many of the bytes left as the window of 512 and the connection take |
| `ControlProgress.NothingHeldBack` | agent/hyperstart.go:349-358 | if each write takes a byte or more: once the guest has credited all it was sent, every byte of every accepted command is sent |
| `ControlSession.ActKeepsInv` | agent/hyperstart.go:244-366 | calls, deliveries, reads, credits and answers in any order keep sender, wire and guest consistent |
| `ControlSession.ReplyFindsCommand` | agent/hyperstart.go:260-280 | a reply that arrives always finds its command at the head of the queue |
| `ControlSession.ArrivedPrefix` | agent/hyperstart.go:340-358 | the commands the guest has received are the first accepted ones |
| `ControlSession.AnswersMatchCommands` | agent/hyperstart.go:260-273 | in every interleaving the k-th answer of the guest is the result of the k-th accepted command |
| `ControlSession.WindowHolds` | agent/hyperstart.go:349-358 | in every interleaving at most 512 bytes are on the wire beyond what the guest credited |
| `ControlSession.NeverPanics` | agent/hyperstart.go:282-283 | with a guest that credits in four bytes the sender never panics |
| `ControlSession.DrainedMeansSent` | agent/hyperstart.go:273-277 | when no command is queued every byte of every command was written and received |
| `ControlSession.PausedIsQuiet` | agent/hyperstart.go:292-310 | after a drained pause no interleaving without an unpause writes or accepts anything |
| `QmpCommander.TryingAccount` | hypervisor/qemu/qmp_handler.go:226-276 | while a session runs: commands before the current one were written one to three times and succeeded, the current one as often as it was tried, later ones never |
| `QmpCommander.VerdictCommand` | hypervisor/qemu/qmp_handler.go:226-276 | a finished session names the command it stopped at, how often that was written, and that the error it reports is the last reply |
| `QmpCommander.VerdictMeaning` | hypervisor/qemu/qmp_handler.go:226-276 | no command is written more than three times; a session succeeds if and only if every command did; after one that did not, nothing is written |
| `QmpCommander.AttemptsBounded` | hypervisor/qemu/qmp_handler.go:237-249 | at no moment, the attempt under way included, has a command been written more than three times |
| `QmpCommander.RunSession` | hypervisor/qemu/qmp_handler.go:226-276 | the retry loops compute that verdict from any replies, with an error that is never nil, and write exactly what the account says, no command more than three times |
| `QmpCommander.ThirdTimeCounts` | hypervisor/qemu/qmp_handler.go:237 | refused, refused, succeeded is a success; three refusals are a failure, with the third cause |
| `QmpHandler.ActKeepsInv` | hypervisor/qemu/qmp_handler.go:278-388 | every step of caller, initialiser, timer, handler, commander, receiver and QEMU keeps the engine's invariant |
| `QmpHandler.NeverCrashes` | hypervisor/qemu/qmp_handler.go:303-320 | in no interleaving is an empty queue sliced or a missing responder called |
| `QmpHandler.OneCommander` | hypervisor/qemu/qmp_handler.go:295-376 | the queue is non-empty exactly when one commander runs, or one ending is on its way, for its first session |
| `QmpHandler.InOrder` | hypervisor/qemu/qmp_handler.go:295-376 | sessions are answered at most once and in submission order, those queued during initialisation included |
| `QmpHandler.ReplyIsForLastAttempt` | hypervisor/qemu/qmp_handler.go:249-266 | the reply a commander takes is for the attempt it just sent; no other is outstanding, buffered, or on the handler's channel |
| `QmpHandler.SentInOrder` | hypervisor/qemu/qmp_handler.go:226-376 | in every interleaving QEMU was sent the writes of the answered sessions, one session after the other, then those of the one being served or, once the handler has stopped, of the one it cut off, and nothing else; of that last one too no command more than three times |
| `QmpHandler.ResponsesEarned` | hypervisor/qemu/qmp_handler.go:226-276 | in every interleaving a session is reported successful if and only if each of its commands succeeded; its part of what QEMU was sent holds no command more than three times and none after one that failed |
| `QmpStops.StopsExactly` | hypervisor/qemu/qmp_handler.go:322-376 | in every run the handler has stopped if and only if it handled a failed initialisation or, after initialisation, a shutdown event, a broken connection or a quit |
| `QmpStops.SubmitsKept` | hypervisor/qemu/qmp_handler.go:297-320 | in every run each session handed in is answered or still queued, in order |
| `QmpStops.AlertsExactly` | hypervisor/qemu/qmp_handler.go:323-372 | in every run the sandbox is told of the shutdown, the broken connection and a failed or late initialisation, once for each such message, and of nothing else |
| `QmpStops.BrokenFreesCommander` | hypervisor/qemu/qmp_handler.go:331-335 | after a broken connection a commander that waits always has a reply to take, at last the one to quit |
| `QmpStops.WaitsForEver` | hypervisor/qemu/qmp_handler.go:336-338 | a commander that waits with nothing buffered once the handler has stopped stays so through every step |
| `QmpHandler.QmpLoop.Loop` | hypervisor/qemu/qmp_handler.go:295-340 | the main-loop handler makes the machine's step |
| `QmpHandler.QmpLoop.WhileInitializing` | hypervisor/qemu/qmp_handler.go:342-376 | the handler during initialisation makes the machine's step |
| `Sandbox.NextKeepsInv` | hypervisor/context.go:298-458 | every operation and every disk completion keeps: observers are exactly the containers that use a disk, volumes referred to exist, no group has more Done than Add, SCSI ids differ |
| `Sandbox.ReferencesMatch` | hypervisor/context.go:298-391 | in every run a container refers to a volume if and only if it observes it, and that volume exists |
| `Sandbox.RefusesExactlyUsed` | hypervisor/context.go:433-458 | in every run RemoveVolume refuses a volume if and only if some container refers to it |
| `Sandbox.NeverOverReleased` | hypervisor/disk.go:147-192 | in every run a wait group gets no more Done than Add calls |
| `Sandbox.WaitReturns` | hypervisor/disk.go:147-181 | a container's group is at zero once all its disks are ready |
| `Sandbox.WaitHolds` | hypervisor/disk.go:147-181 | and above zero while one of them is in flight |
| `Sandbox.ScsiIdsDistinct` | hypervisor/context.go:174-180 | in every run two disks that were plugged in have different SCSI ids |
| `SandboxDebts.RepaidIff` | hypervisor/disk.go:147-192 | some run gives a group the Done it misses for a disk if and only if the group belongs to a registered container that uses the disk, and the disk is in flight |
| `SandboxDebts.LostNext` | hypervisor/disk.go:147-192 | a missing Done that no run gives stays missing; a step makes one so if and only if it admits a container on a failed disk or removes the owner while the disk is in flight |
| `SandboxDebts.LostInRun` | hypervisor/disk.go:147-192 | in every run the Done calls missing for good are those of such steps, and no others |
| `SandboxDebts.LostForGood` | hypervisor/disk.go:147-192 | no operation and no completion gives such a Done, in any run |
| `SandboxDebts.WaitEndsIff` | hypervisor/container.go:195-196 | the wait on a group can still end if and only if none of its missing Done calls is lost |
| `SandboxDebts.EarlyFailureLost` | hypervisor/context.go:351-354 | a root that fails between its insertion and the wait for it is waited for in every further run |
| `SandboxDebts.RemovedWaits` | hypervisor/disk.go:162-181 | a container added and removed while its root is in flight: the root gets ready, and the wait can never end |
| `SandboxDisks.ReadyIff` | hypervisor/disk.go:89-145 | in every run a disk is ready if and only if it is virtual, or some insertion of it was good and no removal of it failed after that |
| `SandboxDisks.InFlightIff` | hypervisor/disk.go:76-113 | in every run a disk is in flight exactly from the step that adds it to its first completion |
| `SandboxDisks.RemovingIff` | hypervisor/disk.go:115-145 | in every run a disk is being removed exactly from the step that takes it away to the completion of its removal |
| `SandboxDisks.KeptAsAdded` | hypervisor/disk.go:43-74 | in every run a disk keeps the name, source, format, file system, flags and options of the volume it was added for |
| `SandboxDisks.EveryDiskAdded` | hypervisor/context.go:351-419 | and every disk was added by one step, for a volume or a root |
| `SandboxDisks.DeviceIs` | hypervisor/disk.go:95-101 | in every run a disk has the device name and the address its good insertion came with |
| `SandboxDisks.NoDevice` | hypervisor/disk.go:43-74 | and without one none, but for the source of a network file system |
| `SandboxDisks.ScsiIdIs` | hypervisor/context.go:174-180 | in every run the n-th disk that is plugged in has SCSI id n, counted from zero |
| `SandboxContext.VmContext.Validate` | hypervisor/context.go:282-296 | accepts exactly descriptions whose volumes exist and are not mounted at the root |
| `SandboxContext.VmContext.AddContainer` | hypervisor/context.go:298-361 | refuses an id in use and an invalid description; the loops over the volumes make the machine's step, whether or not the root's insertion completes before it is waited for; the rollback branch is never taken |
| `SandboxContext.VmContext.RemoveContainer` | hypervisor/context.go:363-391 | the loop over the volumes makes the machine's step |
| `SandboxContext.VmContext.AddVolume` | hypervisor/context.go:404-431 | makes the machine's step |
| `SandboxContext.VmContext.RemoveVolume` | hypervisor/context.go:433-458 | makes the machine's step |
| `SandboxContext.VmContext.InsertCompleted` | hypervisor/disk.go:89-113 | the completion of an insertion, good or bad, makes the machine's step |
| `SandboxContext.VmContext.RemoveCompleted` | hypervisor/disk.go:125-145 | the completion of a removal makes the machine's step |
| `SandboxFace.StepRefines` | hypervisor/context.go:298-458 | every step is a step, with the same answers, of a machine that knows only names, uses and which disks are virtual |
| `SandboxFace.RunRefines` | hypervisor/context.go:298-458 | the answers of any run are those of the simple machine on its operations alone, whenever the disks complete |
| `SandboxFace.SameFaceSameAnswers` | hypervisor/context.go:298-458 | sandboxes that look alike answer any further operations alike |
| `Persistence.DescriptorRoundTrip` | hypervisor/persistence.go:176-196 | what of a disk descriptor survives saving |
| `Persistence.Dump` | hypervisor/persistence.go:96-149 | in any map order, one entry for each volume with exactly its observers and one for each container's root |
| `Persistence.DumpContainers` | hypervisor/persistence.go:142-149 | one root entry and the description of each container |
| `Restore.LoadVolumes` | hypervisor/persistence.go:271-295 | the loop over the entries fails exactly on a root entry that does not name one container, else fills the tables with all entries |
| `Restore.LoadContainers` | hypervisor/persistence.go:297-329 | the loop over the containers, in any order, fails exactly on one without a root entry, else builds all of them on the tables |
| `Restore.RebuildOne` | hypervisor/persistence.go:302-328 | one container: its disks observed through one new group, its volumes those of the entries that name it |
| `RestoreRoundTrip.Load` | hypervisor/persistence.go:271-331 | exact error conditions; the dump of any sandbox, entries in any order, restores to that sandbox |
| `RestoreRoundTrip.RestoredInv` | hypervisor/persistence.go:241-332 | a restored sandbox satisfies the whole invariant of a sandbox that ran |
| `RestoreRoundTrip.RestoredAnswers` | hypervisor/persistence.go:241-332 | whatever is asked of it later, it answers as the saved running sandbox would |
| `Network.NetworkContext.ApplySlot` | hypervisor/network.go:43-52 | reserves the lowest free slot, and the index by id stays right |
| `Network.NetworkContext.FreeSlot` | hypervisor/network.go:54-66 | frees the slot and forgets the id of its card, and the index by id stays right |
| `Network.NetworkContext.AddLoopback` | hypervisor/network.go:91-116 | a loopback is filed under its address and its id, or refused without an address; the index by id stays right if and only if, at an address that has a loopback, the id is that loopback's and, at a new address, the id is new |
| `Network.NetworkContext.Configure` | hypervisor/network.go:333-334 | a card takes its reserved slot; the index by id stays right, leading to exactly the interfaces, if and only if its id is new |
| `Network.DumpNics` | hypervisor/persistence.go:113-140 | one entry for each loopback and card, in any order; it crashes exactly when a slot has no card |
| `Network.Load` | hypervisor/persistence.go:198-228 | loopbacks by address and cards by slot are restored, and every id they have leads to one that has it; it crashes exactly when ports were saved |
| `Network.RestoredIndex` | hypervisor/persistence.go:216-227 | the restored index leads to exactly the interfaces if and only if the saved ones have distinct ids |
| `Network.IndexRestored` | hypervisor/persistence.go:216-227 | and if the saved index did, it is that index again |
| `VmPersist.Dump` | hypervisor/persistence.go:76-152 | saves flags, counters, volumes, containers and interfaces of a context |
| `VmPersist.Load` | hypervisor/persistence.go:241-332 | each refusal if and only if its own cause holds and no earlier one: version, driver, directories, a socket id in use, ports, root entries; the effect on the socket ids; and that a saved context is restored |
| `VmPersist.LoadedIdsDiffer` | hypervisor/persistence.go:161-174 | of any number of contexts loaded through one allocator no two share a socket id |
| `FixedBuffers.FixedBuffer.Write` | lib/utils/buffer.go:18-29 | appends what fits, reports a full buffer exactly when not all did; a short write never happens |
| `FixedBuffers.FixedBuffer.Read` | lib/utils/buffer.go:31-35 | takes the first unread bytes |
| `FixedBuffers.FixedBuffer.Reset` | lib/utils/buffer.go:45-49 | empties the buffer |
| `FixedBuffers.BufferPools.Get` | lib/utils/bytespipe.go:179-188 | gives an empty buffer of the size asked for that nobody holds |
| `FixedBuffers.BufferPools.Put` | lib/utils/bytespipe.go:169-177 | an emptied buffer is filed under its own capacity and held by nobody |
| `BytesPipe.Pipe.constructor` | lib/utils/bytespipe.go:44-51 | an empty pipe with one buffer, of 64 bytes |
| `BytesPipe.Pipe.Write` | lib/utils/bytespipe.go:53-107 | accepts the data, or blocks with a part of it; contents, count and the 2,000,000 byte bound hold; the loop ends |
| `BytesPipe.Pipe.ResumeWrite` | lib/utils/bytespipe.go:86-103 | a writer that blocked goes on under the same promises, whatever other writers did meanwhile |
| `BytesPipe.Pipe.Read` | lib/utils/bytespipe.go:129-167 | delivers the next bytes; an error is returned exactly when the pipe is closed and drained |
| `BytesPipe.Pipe.ResumeRead` | lib/utils/bytespipe.go:135-146 | a reader that waited goes on under the same promises |
| `BytesPipe.OtherPipesWhole` | lib/utils/bytespipe.go:169-188 | what one pipe does with the shared pools leaves every other pipe's contents and bounds as they were |
| `ProcessRegistry.NextKeepsInv` | agent/hyperstart.go:501-549 | create, exec, exit, end of stream, wait, receive and close in any order keep the registry consistent |
| `ProcessRegistry.StatusDeliveredOnce` | agent/hyperstart.go:501-506 | in every run a process's recorded status was put on its wait channel exactly once if exit, closed output and a waiter are all there, and not at all if not; it is then no longer registered, and every waiter that returned got that status |
| `ProcessRegistry.StatusConserved` | agent/hyperstart.go:1009-1024 | once sent, the status is on the channel or in the hand of one waiter that can put it back, so every other waiter can still receive it |
| `ProcessReports.RecordsRight` | agent/hyperstart.go:501-549 | in every run the status of a process is the one last reported for it, its output is closed if and only if it was ended, and every call that waits for it waits, holds the status or has returned |
| `ProcessReports.RegistersExactly` | agent/hyperstart.go:912-968 | in every run a process is registered by exactly the creations and executions whose key is free, of a container not already created; it gets the next stream numbers |
| `ProcessReports.FlagsRight` | agent/hyperstart.go:98-122 | in every run a container counts as created from its creation to its start, and the agent as closed once it was closed |
| `ProcessReports.ClosedGets255` | agent/hyperstart.go:98-112 | whoever waits for a process that is registered when the agent is closed gets 255 |
| `ProcessWaiters.StrandedNext` | agent/hyperstart.go:798-811 | a step leaves a waiter without a status if and only if it takes the process back while the waiter waits; no later step changes that |
| `ProcessWaiters.StrandedInRun` | agent/hyperstart.go:798-811 | in every run a process that left the registry without a status has a waiter if and only if it was taken back while somebody waited |
| `ProcessRegistry.RegisteredIsIncomplete` | agent/hyperstart.go:501-506 | a registered process lacks exit, waiter or closed output, and its output is closed exactly when its stdio entry is gone |
| `ProcessRegistry.StreamsOwned` | agent/hyperstart.go:780-811 | every stream entry belongs to a registered process, as its stdio or stderr number |
| `ProcessRegistry.NumbersNeverReused` | agent/hyperstart.go:774-796 | a new process gets stream numbers that no process ever had |
| `ProcessRegistry.StartMatters` | agent/hyperstart.go:774-811 | in every run every stream entry belongs to a registered process, if and only if numbering starts at one or more |
| `ProcessRegistry.ZeroLeaks` | agent/hyperstart.go:798-811 | numbering from zero, a removed process leaves a stream entry behind |
| `ProcessRegistry.PanicsWhen` | agent/hyperstart.go:529-549 | a step is a nil call if and only if it ends the stdio of a process whose stderr entry is gone |
| `ProcessRegistry.StderrFirstPanics` | agent/hyperstart.go:534-540 | the guest ending stderr before stdio is enough |
| `ProcessRegistry.OrderIrrelevant` | agent/hyperstart.go:501-549 | exit, end of output and wait lead to one state in all six orders |
| `ProcessAgent.Agent.SetupProcess` | agent/hyperstart.go:780-796 | gives a process its streams and registers it |
| `ProcessAgent.Agent.CreateContainer` | agent/hyperstart.go:912-936 | makes the machine's step |
| `ProcessAgent.Agent.ExecProcess` | agent/hyperstart.go:957-982 | makes the machine's step |
| `ProcessAgent.Agent.RemoveProcess` | agent/hyperstart.go:798-811 | makes the machine's step |
| `ProcessAgent.Agent.HandleWaitProcess` | agent/hyperstart.go:501-506 | hands a complete process over and forgets it |
| `ProcessAgent.Agent.SendProcessAsyncEvent` | agent/hyperstart.go:508-516 | makes the machine's step |
| `ProcessAgent.Agent.SendProcessAsyncEvent4242` | agent/hyperstart.go:518-527 | the loop over all processes finds the one with that stdio number |
| `ProcessAgent.Agent.RemoveStreamOut` | agent/hyperstart.go:529-549 | makes the machine's step, the nil call included |
| `ProcessAgent.Agent.WaitProcess` | agent/hyperstart.go:1009-1024 | the region before it blocks makes the machine's step |
| `ProcessAgent.Agent.Close` | agent/hyperstart.go:98-112 | every process ends with status 255 and is handed to its waiters |
| `CacheFactory.VmInOnePlace` | factory/cache/cache.go:28-66 | in every run each VM is with one worker, delivered once or killed once |
| `CacheCallers.EachCallOnce` | factory/cache/cache.go:41-66 | in every run each call has got one VM, or one refusal once the cache is shut, or still waits |
| `CacheCallers.NoCallerStuck` | factory/cache/cache.go:30-66 | while a caller waits the cache can move, and once shut it refuses the caller |
| `CacheFactory.TokensBounded` | factory/cache/cache.go:72-74 | the token loop never blocks and sends at most twice the size |
| `CacheFactory.NoWorkerStuck` | factory/cache/cache.go:41-49 | once the token loop ended a token is there for every worker that offers |
| `CacheFactory.CloseProgresses` | factory/cache/cache.go:69-80 | while the close waits for the workers it can finish, or one of the workers it counts can move |
| `CacheFactory.NothingSentAfterClose` | factory/cache/cache.go:76-77 | when all workers were started first, none is left to send on the closed cache |
| `CacheFactory.PanicMeansEarly` | factory/cache/cache.go:28-37 | a send on the closed cache happens only when the close came before all workers were started |
| `CacheFactory.EarlyCloseRun` | factory/cache/cache.go:28-37 | for every size above one there is such a run |
| `CacheFactory.SafeSizes` | factory/cache/cache.go:20-80 | no run of a cache sends on the closed channel if and only if its size is one |
| `CacheFactory.Factory.SendTokens` | factory/cache/cache.go:72-74 | the token loop ends, within twice the size, whatever workers, callers and New, still starting workers, do meanwhile |
| `Ring.ReuseSweeps` | lib/vsock/vsock.go:39-55 | a value is handed out again only after every other value of the range was in use since |
| `Ring.NoEarlyReuse` | hypervisor/network/ipallocator/ipallocator.go:156-172 | the same for any two takes of one value in any run of takes, claims and releases |
| `Ring.Enumerates` | hypervisor/network/ipallocator/ipallocator.go:156-172 | takes alone from an unused range give each value once, in order, and no more |
| `Ring.FullAfterAll` | hypervisor/network/ipallocator/ipallocator.go:156-172 | and a further take is possible if and only if fewer were made than there are values |
| `VsockCid.CidAllocator.constructor` | lib/vsock/vsock.go:30-37 | nothing in use, the cursor at 1024 |
| `VsockCid.CidAllocator.Search` | lib/vsock/vsock.go:43-52 | finds the first free id going around from the cursor, none exactly when all 16384 are in use; 32-bit arithmetic included |
| `VsockCid.CidAllocator.GetCid` | lib/vsock/vsock.go:39-55 | takes that id and moves the cursor past it, or changes nothing |
| `VsockCid.CidAllocator.MarkCidInuse` | lib/vsock/vsock.go:57-62 | takes a given id exactly when it was free |
| `VsockCid.CidAllocator.ReleaseCid` | lib/vsock/vsock.go:64-68 | frees the id |
| `IpAddress.ConversionRoundTrip` | hypervisor/network/ipallocator/ipallocator.go:174-190 | bytes to integer and back is the identity if and only if the first byte is not zero |
| `IpAddress.TextAgrees` | hypervisor/network/ipallocator/ipallocator.go:137-169 | the two ways to key an address agree if and only if the first byte is not zero |
| `IpAddress.NetworkRange` | hypervisor/network/ipallocator/ipallocator.go:32-48 | for any address and any mask: no address, an index beyond the mask, or the two ends; with a mask of the address's length last minus first is the mask's complement |
| `IpAddress.NetworkIsPrefix` | hypervisor/network/ipallocator/ipallocator.go:32-48 | an /n network is exactly the 2^(8w-n) addresses with its first n bits (section 3.1 of RFC 4632), for 4 and 16 byte addresses |
| `IpAddress.NetworkEnds` | hypervisor/network/ipallocator/ipallocator.go:18-21 | for any address and mask: the integers of the two ends, or none exactly where the Go code panics |
| `IpAddress.EndsExact` | hypervisor/network/ipallocator/ipallocator.go:174-185 | with a mask of the address's length they are the first and the last address if and only if neither is the 16-byte form of an IPv4 address |
| `IpAddress.EightyFolds` | hypervisor/network/ipallocator/ipallocator.go:174-185 | the range of ::/80 ends at 2^32 - 1, not at 2^48 - 1 |
| `IpAllocator.NewAllocatedMap` | hypervisor/network/ipallocator/ipallocator.go:18-29 | for any network: a record of all between its ends, nothing handed out, or a panic exactly when it has no ends |
| `IpAllocator.AllocatedMap.Search` | hypervisor/network/ipallocator/ipallocator.go:156-166 | finds the first free address going around, none exactly when all are taken |
| `IpAllocator.AllocatedMap.GetNextIP` | hypervisor/network/ipallocator/ipallocator.go:156-172 | takes that address and leaves the cursor on it |
| `IpAllocator.AllocatedMap.CheckIP` | hypervisor/network/ipallocator/ipallocator.go:137-152 | claims the address, or tells that it is taken or out of range, or panics on what is no address; the search sees the claim exactly when the first byte is not zero |
| `IpAllocator.AllocatedMap.Release` | hypervisor/network/ipallocator/ipallocator.go:131-133 | forgets the address |
| `IpAllocator.ClaimIsSeen` | hypervisor/network/ipallocator/ipallocator.go:137-169 | a claimed address is seen by the search if and only if its first byte is not zero or it was taken before |
| `IpAllocator.ZeroOctetTwice` | hypervisor/network/ipallocator/ipallocator.go:164-169 | 0.0.0.5 is claimed and still free for the search |
| `IpAllocator.FreshNetwork` | hypervisor/network/ipallocator/ipallocator.go:156-172 | requests on a fresh network give begin, begin + 1, ... end, once each; the first end - begin + 1 succeed and the next fails |
| `IpAllocator.IPAllocator.RegisterSubnet` | hypervisor/network/ipallocator/ipallocator.go:72-94 | registers exactly subnets within the network with two usable addresses or more, once; panics exactly when one of the two has no ends |
| `IpAllocator.IPAllocator.RequestIP` | hypervisor/network/ipallocator/ipallocator.go:100-119 | answers from the network's own record, made on first use, and leaves other networks alone; panics exactly on a first request for a network without ends or a claim of what is no address and not recorded |
| `IpAllocator.IPAllocator.ReleaseIP` | hypervisor/network/ipallocator/ipallocator.go:123-135 | forgets the address in that network only |
| `Bitmap.Bitmap.Test` | lib/runvxenlight/xenlight.go:724-731 | membership in the set the bytes stand for; numbers below zero included, from -7 up they address the bits 1 to 7; outside the slice they panic, unless the slice is nil |
| `Bitmap.Bitmap.Set` | lib/runvxenlight/xenlight.go:733-740 | adds the addressed bit to the set, growing the bytes as little as needed, or panics below -7 |
| `Bitmap.Bitmap.SetRange` | lib/runvxenlight/xenlight.go:742-746 | adds the bits the numbers of the range address, or panics if a non-empty range starts below -7 |
| `Bitmap.Bitmap.Clear` | lib/runvxenlight/xenlight.go:748-755 | removes the addressed bit, or panics outside the slice, unless the slice is nil |
| `Bitmap.Bitmap.ClearRange` | lib/runvxenlight/xenlight.go:757-761 | removes the bits the numbers of the range address, or panics if a non-empty range starts outside the slice |
| `Bitmap.Bitmap.IsEmpty` | lib/runvxenlight/xenlight.go:767-774 | tells whether the set is empty |
| `Bitmap.Intersect` | lib/runvxenlight/xenlight.go:776-791 | the intersection of the sets |
| `RangeList.String` | lib/runvxenlight/xenlight.go:793-836 | prints the maximal runs of set bits in increasing order |
| `RangeList.RunsUnique` | lib/runvxenlight/xenlight.go:793-836 | there is only one list of maximal runs for a set |
| `RangeList.ReadBack` | lib/runvxenlight/xenlight.go:793-836 | any printed list of runs reads back as that list |
| `RangeList.StringReadsBack` | lib/runvxenlight/xenlight.go:793-836 | reading a printed bitmap gives exactly its set bits |
| `DiskName.IdOfName` | lib/utils/utils.go:20-26 | a number is recovered from its name |
| `DiskName.NameOfId` | lib/utils/utils.go:20-26 | every non-empty lower-case name is that of its number |
| `DiskName.NamesOneToOne` | lib/utils/utils.go:20-26 | names and numbers correspond one to one |
| `DiskName.DeviceNamesDistinct` | hypervisor/context.go:174-180 | in every run two disks plugged into a sandbox have different device names |

## Left out

- The command line under cli: parsing, locks, mounts, netlink, spawning; input and output only.
- The hypervisor drivers and the C bindings: thin wrappers; a driver's success or failure is a parameter or a step.
- agent/kata.go, agent/proxy and agent/pipe.go: forwarding, one branch each.
- JSON and the rewrite of messages for old guests: a payload is a byte sequence, or none when it cannot be made.
- lib/telnet, hypervisor/fanout.go, factory/single, factory/multi, statistics, timers and logging.
- hypervisor/vm_states.go: its whole-run behaviour depends on goroutine timing.
- NIC hotplug goroutines, updateInterface and nextAvailableDevName: only the maps and slots they work on are modelled.
- The sandbox configuration and the driver's own data are saved and loaded unchanged and are not part of the model.
- BytesPipe.Pipe.Write: waiting on the condition variable is modelled as returning blocked and resuming; fairness between writers is not modelled.
- ControlChannel.WireCarriesAccepted: is for commands whose frames fit 32 bits, as Frames.RoundTrip shows it must be; the bytes themselves are accounted for without that condition in ControlChannel.StepKeepsInv.
- Network.Load: keeps equal values where the Go maps share one object; updates of an interface through the index are not modelled.
- ProcessRegistry.NumbersNeverReused: stream numbers are unbounded, so the wrap of a 64-bit counter is not modelled.
- QmpHandler.ActKeepsInv: the close of the handler's channel by the driver is left out; it ends the handler, and senders would panic on it.
- Sandbox.NextKeepsInv: goroutines are steps; a completion of a disk within AddContainer is one before or after it, except for the new root, where it is part of the step; what the goroutine of AddContainer does after its wait, and the result a completion reports to the caller, are not modelled.
- Network.NetworkContext.ApplySlot: the counter does not overflow past the largest int, which needs that many cards.
- VmPersist.Load: the directories, sockets and channels of a context are left out; generated ids for interfaces saved without one are a parameter.
