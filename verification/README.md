# The VM lifecycle engine of cocoon-macos, in Dafny

cocoon-macos runs macOS guests under qemu. Every CLI invocation (create, run, clone, start, stop, rm, snapshot,
restore, gc) is its own process, works on one shared state root, and may fail or be killed between any two effects.
This project models that engine and proves what it promises.

The project has three layers.

**The protocol.** `Host` is the shared host: VM directories (absent, without a record, committed), the provisioning
marker, network devices keyed by VM id, live processes by pid, the lock table and one program point per CLI process.
`Protocol` gives the atomic steps of every operation, with a failure possible at each, and the environment: a process is
killed and loses its flocks, a guest exits, a pid is reused. `Invariant`, `Shapes`, `Interference`, `Preservation` and
`Runs` show that every step keeps one invariant in every interleaving of any number of processes; `Safety`, `Deadlock`,
`Refusal` and `Counterexample` hold what follows. The source is imperative but concurrent, so this layer is a state
machine over its atomic effects.

**The code.** `Agent` and `Lifecycle` are the control flow of gc, rm, stop, create, run and clone as imperative methods.
Between two effects they call `Others`, whose contract lets all other processes take any number of steps, and every
effect of their own must be a protocol step, so the theorems about runs hold of the methods. `Snapshots`, `DataDisks`,
`Launch`, `Hmp`, `Nbd`, `Network`, `Smbios` and `Cloning` are the sequential transactions in the source's own form:
classes whose fields the methods update, loops with accumulators, deferred cleanup, and a nondeterministic failure at
each external call. A process is `calm` if none of its external calls fails: the contracts say what else may keep a calm
one from success, so no operation may give up without a reason.

**What they add up to.** `History` (which content a snapshot tag returns), `Fleet` (which files and network names a VM
has after any history of create, clone, recovery and rm), `Offline` (no qemu uses an image a command works on),
`Options`, `Switches`, `Wiring`, `Ports`, `Needles` and `Siblings` (what qemu and the process scan read from a command
line).

Taken as given, because they belong to libraries or the kernel: a flock is exclusive and goes with its process; a record
write is atomic and changes nothing when it fails; a termination that reports success leaves the process dead; a
command-line scan finds exactly the processes one of whose arguments contains the needle; a generated VM id is fresh;
`Prepare` is all or nothing, `Add` undoes what it created, `Delete` removes every device of its id or fails;
`CleanupTAPs` removes the id's TAPs; the gc orchestrator runs every `ReadDB` before any `Collect` and stops on a read
error; the network collectors remove exactly the devices whose id is not active; `qemu-img snapshot` resolves a tag to
the oldest snapshot under it and changes nothing when it fails; the names a data-disk spec is parsed to hold no slash
(the library documents `[a-z][a-z0-9_-]{0,19}`); a resolved image exists outside the state root and has a positive size;
a CNI VM's netns path is determined by its VM id, and different ids have different ones; a generated identity, the TAP
and the NIC address a provider answers with are named by no other record of the root; and a monitor's readline echoes a
line as blanks, then prefixes of the line each followed by a non-empty escape sequence written in characters the prompt
does not use, then the line itself and perhaps one more such sequence. A root that predates the marker starts with
unowned records having no device and with a VM directory wherever there is a device.

## Where the code promises less than it says

- "More than one match is corruption" (cmd/vm/utils.go:245): two live qemu of one VM are reachable. When a `run` fails
  after qemu is up, `cleanupFailedVM` removes the directory even if it could not kill that qemu, and the next `run` of
  the name finds no record to adopt from. `Safety.SingleQemuExactlyWhen`: throughout a run of the system a name has at
  most one live qemu, and then a record, if and only if no such rollback takes its record away while its qemu lives;
  `Counterexample.TwoQemusAreReachable` is a run that ends with two.
- A restore returns the images of its snapshot only if no image held the tag before (cmd/vm/snapshot.go:39-46 checks the
  record alone). `History.RestoreIsFaithfulExactlyWhen` is the exact condition, over any history between the two;
  created VMs meet it in crash-free runs, clones need not, because copied data disks keep the source's tags
  (`History.StaleCloneTag`).
- "A partial failure never leaves an untracked snapshot point" (cmd/vm/snapshot.go:129): with an older snapshot under
  the same tag the rollback deletes that one instead; `History.CleanFailureIsNoChangeExactlyWhen` is the exact
  condition, and `History.RollbackTakesTheOldSnapshot` an input.
- A sibling's qemu can be found by a needle if its firmware lies at a path that itself spells the other VM's directory
  (`Siblings.SiblingFoundByFirmwareOnly`, `Siblings.MisleadingFirmware`).
- A qcow2 NVRAM template named `disk.qcow2` or like a data disk is copied over that image
  (`Cloning.ImagesAreDistinctExactlyWhen`, `Cloning.TemplateOverTheDisk`).
- A clone that inherits its storage size is refused when the image no longer resolves to the same base and the new one
  is larger (`Cloning.InheritedStorageFitsExactlyWhen`, `Cloning.SameBaseNeverTooSmall`,
  `Cloning.LargerBaseRefusesTheClone`).
- A create whose first images fail drops the error of its own `RemoveAll` (cmd/vm/utils.go:159-163); a failed removal,
  and only that, leaves the new directory behind without a record (`Lifecycle.BuildImages`).
## Model

| member | source | states |
|---|---|---|
| Runs.RunKeepsInv | cmd/vm/lifecycle.go:34-158 | every state of every run of any number of interleaved, failing and killable operations satisfies the whole invariant |
| Runs.StepKeepsInv | cmd/vm/utils.go:175-201 | any one step of any process keeps what every other process relies on |
| Runs.KillKeepsInv | cmd/vm/utils.go:47-59 | a process killed anywhere, its flocks dropped and its other effects left behind, breaks nothing |
| Runs.EnvKeepsInv | cmd/vm/utils.go:241-266 | guests exiting and pids being reused break nothing |
| Safety.VMsExclusive | cmd/vm/utils.go:47-88 | two processes never hold one VM, a sweep never overlaps a create or clone, and two qemu-nbd transactions never overlap |
| Safety.SweepIsSafe | cmd/vm/gc.go:53-87 | no step of a sweep removes or changes a record, or a device a record names, and no create or clone is in flight beside it |
| Safety.SweepIsComplete | cmd/vm/gc.go:168-207 | when a sweep has succeeded, every directory is committed and every device belongs to a record |
| Safety.SweepCollectsExactly | cmd/vm/gc.go:80-87 | a successful network collection leaves exactly the devices of records, also when it did not need to register |
| Safety.DevicesLeaveEvidence | cmd/vm/utils.go:225-230 | an existing device implies the marker or a VM directory no running create may take away, through crashes and on old roots |
| Safety.CommittedDisappearsOnlyByItsOwner | cmd/vm/lifecycle.go:94-156 | a committed VM disappears only through rm of its name or the failing run that created it |
| Safety.DirectoriesGoOnlyWhen | cmd/vm/utils.go:175-201 | in every run a directory goes only as a dead stray (no record, no live qemu, no server, marker standing), through rm with the marker standing and no owned qemu, through scaffolding that takes back its own unbuilt one, or through a rollback |
| Safety.CleanRunsAbandonNobody | cmd/vm/lifecycle.go:328-349 | while every rollback reaches its removal with all cleanup calls successful, no qemu is lost and the single qemu is kept |
| Safety.SingleQemu | cmd/vm/utils.go:245-261 | up to any state with no losing step before it, at most one qemu of a name is alive, under a committed record, and a live recorded pid is that one |
| Safety.SingleQemuExactlyWhen | cmd/vm/utils.go:245-266 | in all states of a run a name has at most one live qemu, and then a record, if and only if no run's rollback takes the record away while a qemu of the name lives |
| Safety.LaunchRecordsTheLivePid | cmd/vm/lifecycle.go:275-299 | a launch leaves the record alone or naming the one qemu of the VM that can be alive |
| Safety.ImagesAreOffline | cmd/vm/snapshot.go:27-46 | while images are snapshotted, restored or copied the VM is committed, no other process holds it, and no qemu of it is alive unless a losing step came before a forced restore |
| Offline.NoQemuUsesTheImage | cmd/vm/snapshot.go:91-113 | while a command works on an image, every live qemu has a record of the root and needs other files, if the run lost no qemu of these two VMs and its committed VMs are the root's records |
| Safety.RollbackLeavesNothing | cmd/vm/lifecycle.go:328-349 | a cleanup whose calls all succeeded leaves no directory, device, qemu or qemu-nbd of its VM |
| Safety.SaveCommitsWholeVM | cmd/vm/lifecycle.go:225-233 | the record write commits one VM under an id no other record has, with its TAP exactly if it owns one and no qemu |
| Safety.FlightIsPrivate | cmd/vm/gc.go:89-100 | between marker and record no other process creates or removes a device of an id in flight |
| Counterexample.TwoQemusAreReachable | cmd/vm/lifecycle.go:275-299 | a concrete run from an empty root that ends with two live qemu on one VM name |
| Deadlock.AcquiresClimb | cmd/vm/utils.go:79-88 | every blocking acquire targets a lock above all locks its process holds |
| Deadlock.NoWaitCycle | cmd/vm/utils.go:79-88 | no reachable state has processes waiting for one another in a circle |
| Deadlock.LockPathsDistinct | cmd/vm/utils.go:61-63 | different VMs have different lock files |
| Deadlock.NoVMLockIsTheGcLock | home/home.go:37-43 | no legal VM name's lock file is the gc lock or the marker |
| Deadlock.PathOrderIsNameOrder | cmd/vm/utils.go:79-87 | the order by directory path is the order by name |
| Agent.Cli.TryLockVMDirs | cmd/vm/gc.go:141-166 | every listed VM ends up locked, or one was held by another process and all locks are dropped again; it never waits |
| Agent.Cli.ReadDB | cmd/vm/gc.go:168-186 | every directory is classified as record or stray, or an unreadable record, and nothing else, ends the sweep with its locks dropped; the host collectors take part exactly if a directory or the marker shows that the root held a VM |
| Agent.Cli.CollectStrays | cmd/vm/gc.go:186-200 | every stray is gone or counted as failed, success means none failed and only committed directories remain; what goes has no record, no live qemu or server, and the marker standing; without a failing call only a stray with a live qemu fails |
| Agent.Cli.GC | cmd/vm/gc.go:49-87 | a gc that reports success saw the host with only committed directories and only their devices, whatever ran in between; every directory it takes away is a dead stray; without a failing call it succeeds unless another process holds a lock or a stray has a live qemu |
| Lifecycle.CleanupFailedVM | cmd/vm/lifecycle.go:328-342 | all four cleanup calls are made whatever fails, and if none failed the cleanup is clean and nothing of the VM is left |
| Lifecycle.StopRecorded | cmd/vm/lifecycle.go:104-113 | if qemu cannot be found, stopped or its devices torn down, rm drops its lock with the record still in place; without a failing call that takes two live qemu the record does not name |
| Lifecycle.RM | cmd/vm/lifecycle.go:94-126 | success: the directory is gone with no owned qemu, the marker stands, no device of a readable record's id is left, and without a readable record no process at all is left on its files; failure: not past a contended lock, or the record kept, or the directory still there as the lock goes, each only for its reason |
| Lifecycle.Halt | cmd/vm/lifecycle.go:71-92 | stop: no owned qemu lives, the record is the same without a pid and its devices stand as before; a failure keeps the record, and without a failing call that takes two live qemu the record does not name |
| Lifecycle.MarkAndRemove | cmd/vm/lifecycle.go:117-124 | the marker stands and no owned qemu lives in the state in which the directory disappears, and devices torn down before stay gone; a failure leaves the directory |
| Lifecycle.ScaffoldVM | cmd/vm/utils.go:141-173 | a fresh directory under the shared provisioning lock and its VM lock, or a refusal with nothing held, which without a failing call means a running sweep, a record of the name, or a live qemu in its directory |
| Lifecycle.ResetIncompleteVMDir | cmd/vm/utils.go:175-201 | in the step that removes the directory no qemu and no server runs in it and the marker stands; only a failing call gives up the lock with the directory still there, without a record |
| Lifecycle.InjectIdentity | cmd/vm/lifecycle.go:351-371 | success passed a state with this server attached under the lease and leaves no server; the lease is dropped on every path, any failure leads to the cleanup and without a failing call means the lease was taken or the pid was not free |
| Lifecycle.ApplyNet | cmd/vm/utils.go:225-239 | success leaves the marker, the TAP exactly if the record will own one, and the netns exactly if its provider keeps one; only a failing call leads to the cleanup under the same id |
| Lifecycle.Launch | cmd/vm/lifecycle.go:235-300 | success leaves one whole VM under the same id, ownership and devices that names its only possible live qemu; every failure leads to the cleanup under that id |
| Lifecycle.LockVMs | cmd/vm/utils.go:79-88 | an operation ends up with all its VM locks, taken in path order, or never gets past waiting for one that another process held |
| Lifecycle.BuildImages | cmd/vm/utils.go:159-172 | a failed overlay bake or NVRAM copy takes the new directory away in one step, and leaves it, without a record, only if that removal failed |
| Lifecycle.CreateOrClone | cmd/vm/lifecycle.go:128-233 | create, run and clone: refused or unbuilt with no record, device or qemu touched by any step, and the new directory gone if its removal succeeded; or one record under an id nobody else has, with exactly the TAP and netns of its network, patched under the lease exactly if it was to have an identity, for run its one recorded qemu; or a rollback that leaves nothing of the VM and its id if its calls succeed; without a failing call each refusal and rollback has its named cause |
| Refusal.EarlyTouchesNothing | cmd/vm/utils.go:131-173 | up to the end of scaffolding no step of create, run or clone makes, loses or changes a record (but for an adopted pid), a device, an id or a qemu, whatever fails |
| Agent.OthersKeepMine | cmd/vm/utils.go:47-59 | however many steps other processes take, an operation keeps its place, its locks, the directories behind them and the devices of their records |
| Snapshots.Images.SnapshotAllOrNothing | cmd/vm/snapshot.go:129-144 | every image tagged once more, or the tagged ones untagged again as far as deletions succeed; without a failing call it fails only at an image that is missing, and rolls back all |
| Snapshots.Images.Snapshot | cmd/vm/snapshot.go:17-52 | refused exactly while running, or for a recorded tag; the record gains the requested tag, or the clock's, exactly when all images did and the write succeeded |
| Snapshots.Images.RestoreOffline | cmd/vm/snapshot.go:91-113 | all images reverted to the requested tag, or else to the last recorded one; or none for a missing tag, or a prefix if qemu-img fails midway; it succeeds if no call fails and all images carry the tag |
| Snapshots.Images.Restore | cmd/vm/snapshot.go:54-127 | a running VM needs force, and only a forced restore can fail to stop or relaunch it; apart from the guest's own last writes a refusal changes no image |
| Snapshots.Images.SnapExists | qemu/snapshot.go:30-43 | tells whether an image carries a tag |
| History.RestoreReturnsTheSnapshot | cmd/vm/snapshot.go:91-113 | after a fresh snapshot and any history of writes, snapshots, failures and restores, a restore of the tag returns every image's content |
| History.TagStaysRestorable | cmd/vm/snapshot.go:99-108 | no later restore of such a tag is refused for a missing image |
| History.CleanRestoreReturnsTheSnapshot | cmd/vm/snapshot.go:39-46 | on a created VM without crashes every snapshot is fresh, so every restore returns its snapshot |
| History.CleanHistoryTracks | cmd/vm/snapshot.go:39-46 | in such histories the record lists exactly the tags the images carry |
| History.RestoreIsFaithfulExactlyWhen | cmd/vm/snapshot.go:39-46 | whatever happens between a snapshot and a restore of it, the content comes back if and only if no image held an older, different snapshot under the tag |
| History.CloneSnapshotIsFaithfulExactlyWhen | cmd/vm/datadisk.go:89-99 | for a clone's first snapshot, through any later history, this depends only on the tags kept by the images it copied |
| History.StaleCloneTag | cmd/vm/clone.go:109-117 | a created VM is snapshotted and cloned, and the clone's own first snapshot under the tag restores its source's data disk |
| History.CleanFailureIsNoChange | cmd/vm/snapshot.go:129-144 | a failed fresh snapshot with a successful rollback changes nothing, even if an image is listed twice |
| History.CleanFailureIsNoChangeExactlyWhen | cmd/vm/snapshot.go:129-144 | without freshness it changes nothing if and only if on each tagged image everything from the oldest snapshot under the tag on equals the new one, also for images listed more than once |
| History.RollbackTakesTheOldSnapshot | cmd/vm/snapshot.go:129-144 | a created VM whose tag was left unrecorded by a failed record write: the next failed snapshot under it deletes the old content's snapshot and keeps the new one's |
| DataDisks.ParseDataDisks | cmd/vm/datadisk.go:20-72 | succeeds exactly when the library takes every spec and none needs an agent in the guest, explicit names are free and distinct, and the launcher has a SATA port for each disk; then names by the rule |
| DataDisks.AgentKeysAreRefused | cmd/vm/datadisk.go:64-69 | a spec that sets a key only a guest agent could serve is refused, wherever the key stands and even if the library takes it |
| DataDisks.NextUnused | cmd/vm/datadisk.go:49-56 | the search for the next free dataN ends, and finds the first |
| DataDisks.NamesAreDistinctAndFree | cmd/vm/datadisk.go:34-43 | all names are distinct and none is reserved, and sizes are kept |
| DataDisks.NamesAreDetermined | cmd/vm/datadisk.go:44-57 | the rule (least unused index, increasing) leaves no choice |
| DataDisks.NameReadsBack | cmd/vm/datadisk.go:101-107 | a disk's name is read back from its path |
| DataDisks.NamesOnDisk | cmd/vm/datadisk.go:44-57 | the first free name is data1, and a disk's file is its name between `data-` and `.qcow2` |
| DataDisks.PathInjective | cmd/vm/datadisk.go:101-103 | different names are different files |
| DataDisks.CloneKeepsDisks | cmd/vm/clone.go:68-77 | copied and new disks together are distinct files of the clone's own directory, no more than there are free ports |
| Options.FieldsReadBack | qemu/launch.go:131 | qemu's comma rule reads escaped values back verbatim, whatever commas they hold or end in |
| Launch.Args | qemu/launch.go:45-124 | what qemu reads from the command line is exactly the intended list of options, every path and name verbatim |
| Launch.IntendedReadsBack | qemu/launch.go:45-124 | printing and reading that list are inverse for arbitrary paths and interface names |
| Switches.NetworkOf | qemu/launch.go:89-103 | a TAP if there is one, else user networking with the loopback port of ssh if one is set; the NIC's MAC exactly if there is one |
| Switches.ConsoleOf | qemu/launch.go:104-116 | no display below zero, else VNC on its socket or on loopback, asking for a password exactly if one is set |
| Switches.MemoryOf | qemu/launch.go:51-62 | with hugepages the memory backend comes first and the machine runs on it, without them neither |
| Switches.TopologyOf | qemu/launch.go:46-62 | half of the CPUs are cores, rounded down, and never none |
| Switches.ImagesOf | qemu/launch.go:67-75 | code read-only, NVRAM as qcow2 exactly if its name says so, OpenCore thrown away, the system disk written through |
| Switches.SocketsOf | qemu/launch.go:117-122 | the monitor and QMP sockets are served exactly if they are named |
| Switches.RebootOf | qemu/launch.go:77-79 | a guest reboot ends qemu exactly if that was asked for |
| Switches.MachineOf | qemu/launch.go:13-18 | the CPU keeps every token macOS needs, and the Apple controller has its key |
| Wiring.SataPortsAreDistinct | qemu/launch.go:81-88 | every disk has its own port below six, 2 and 4 staying with the system disks, and with as many data disks as allowed no port is left |
| Ports.EveryDiskHasItsPort | cmd/vm/datadisk.go:16-60 | in every history of create, clone, recovery and rm each data disk of each VM is on the command line with a port in range that no other of its disks has |
| Wiring.SnapshotsCoverWritableImages | qemu/launch.go:126-129 | the snapshotted images are exactly the writable qcow2 drives of the command line |
| Needles.NeedleFindsItsDirectory | cmd/vm/utils.go:203-204 | aligned by slashes, a needle of one VM directory occurs in a path of another only if they are the same |
| Needles.OwnPathArg | cmd/vm/utils.go:203-204 | no argument naming a file of one VM, escaped or not, matches a sibling's needle |
| Siblings.SiblingFoundExactlyWhen | cmd/vm/utils.go:278-280 | a sibling's whole command line matches if and only if its OVMF code, OpenCore or TAP option does |
| Siblings.SiblingFoundByFirmwareOnly | cmd/vm/utils.go:246-253 | under an absolute root that means: only if a firmware path itself contains the needle |
| Siblings.MisleadingFirmware | cmd/vm/utils.go:203-204 | a firmware path outside the root that makes one VM's qemu look like another's |
| Siblings.OwnQemuIsFound | cmd/vm/lifecycle.go:263-264 | a VM's own qemu always matches, whatever its other options hold |
| Siblings.NbdFoundByItsOwnDirectoryOnly | cmd/vm/lifecycle.go:344-349 | a qemu-nbd server matches the directory of its image and no other |
| Hmp.ReadUntil | cmd/vm/utils.go:420-433 | stops at the first read that completes the marker, or with everything there was |
| Hmp.GraphicPasswords | cmd/vm/vnc.go:50-59 | of the visible ASCII strings exactly those of at most eight characters without a quote are valid passwords |
| Hmp.ValidIsOneToken | cmd/vm/vnc.go:50-59 | a valid password is one token of one line, of at most eight characters |
| Hmp.HmpReplied | cmd/vm/utils.go:403-418 | true exactly when a line is loud besides the first loud one, which alone may be the echo |
| Hmp.SpeechIsLoud | cmd/vm/utils.go:403-418 | a line whose first character is neither blank nor an opening parenthesis always counts as a reply |
| Hmp.EchoIsPlain | cmd/vm/utils.go:394-418 | readline's redraws of prefixes of the typed line, with escape sequences in between, never spell a prompt or begin with one |
| Hmp.PasswordLineOk | cmd/vm/vnc.go:50-59 | the line that sets a valid password never completes a prompt, even if the password spells one |
| Hmp.TranscriptShowsOnePrompt | cmd/vm/utils.go:379-400 | with all redraws of such a line echoed, no prompt is complete before the transcript's last character |
| Hmp.WaitsForTheWholeTranscript | cmd/vm/utils.go:394-400 | however the transcript is cut into reads, the wait ends with all of it and never earlier |
| Hmp.RepliedExactlyWhenTheReplyIsLoud | cmd/vm/utils.go:403-418 | a reply is noticed if and only if it has a line that is neither blank nor a prompt |
| Hmp.SetVNCPassword | cmd/vm/utils.go:360-371 | setting a valid password fails exactly when the monitor printed such a reply |
| Hmp.RequestPowerDown | cmd/vm/utils.go:343-351 | the power-down request counts as refused exactly when the monitor printed such a reply |
| Nbd.ReferencesAtMostOne | qemu/inject.go:244-254 | no argument counts for two devices, so nbd10p1 never counts for nbd1 |
| Nbd.OwnArgumentsCount | qemu/inject.go:244-258 | a device itself, its partitions and its server's connect argument do count for it |
| Nbd.Partition | qemu/inject.go:248-253 | after a device and a p exactly a number makes a partition |
| Nbd.NumbersOf | qemu/inject.go:248-253 | a number is digits, perhaps signed, that fit into 64 bits |
| Nbd.HeldExactlyWhenNamed | qemu/inject.go:233-242 | a device is held exactly if some argument of some process, as the kernel shows its NUL-ended words, names it |
| Nbd.Injection.ConnectFree | qemu/inject.go:160-204 | connects the first of sixteen devices that exists, has no pid file, is named by no process and accepts; each error says why there was none |
| Nbd.Injection.MountAndPatch | qemu/inject.go:88-109 | success is mount, patch, unmount; a failure unmounts whatever was mounted; no mount means that neither of the first two partitions does |
| Nbd.Injection.DisconnectAll | qemu/inject.go:37-77 | disconnect is attempted, and no error means no server is left on the image |
| Nbd.Injection.InjectConfig | qemu/inject.go:79-109 | every path ends with everything released in reverse order, and success with a patched image nobody holds; if no call fails and some free device connects and mounts, it succeeds |
| Nbd.EveryStepIsUndone | qemu/inject.go:87-96 | in any trace that ends released, unmount precedes disconnect precedes release |
| Smbios.RandROM | qemu/smbios.go:62-69 | in place: a local unicast first byte, all other bits kept, and a ROM that has a MAC |
| Smbios.RandString | qemu/smbios.go:51-60 | in place: every byte mapped to a digit or a capital letter other than O |
| Smbios.SerialAlphabet | qemu/smbios.go:13 | the alphabet is exactly the digits and the capital letters without O |
| Smbios.HexReadsBack | qemu/smbios.go:62-69 | a ROM is printed in lower case, and decoding it gives its bytes back |
| Smbios.MacInjective | qemu/smbios.go:42-49 | six-byte ROMs have a MAC, and different ROMs have different ones |
| Smbios.MacColons | qemu/smbios.go:42-49 | a MAC is its ROM's six bytes between colons |
| Network.HostDevices.ProvisionNet | cmd/vm/net_linux.go:66-93 | a TAP (and netns for CNI) and their names, or the host as before if its own rollback succeeded; without a failing call it fails only for want of a provider |
| Network.HostDevices.ApplyNet | cmd/vm/utils.go:225-239 | afterwards record and host agree on what is owned in every mode, a caller's TAP is not, and outside CNI the MAC is the ROM's |
| Network.HostDevices.RecoverNet | cmd/vm/net_linux.go:95-121 | devices that stand and verify are left alone; otherwise an owned record's, and no other's, are rebuilt and it names the provider's TAP; MAC and ownership stay; success means its TAP, and for CNI its netns, are there |
| Network.HostDevices.TeardownNet | cmd/vm/net_linux.go:123-147 | removes the devices of an owned record and nobody else's, and touches nothing otherwise |
| Network.Lifetime | cmd/vm/net_linux.go:66-147 | from provisioning through recovery to teardown no other VM's device changes and a caller's TAP survives |
| Cloning.Clone | cmd/vm/clone.go:49-168 | a committed clone adds one record and leaves the others: on the kept blob of its source or else on what its image is now, OpenCore on its source's base, file or the firmware, mode and size as asked or inherited, and TAP, netns, MAC and identity never the source's; the error for a too small size comes exactly with such a size, and without a failing call an acceptable clone succeeds |
| Cloning.Create | cmd/vm/lifecycle.go:158-233 | a committed create adds one record of what was asked for, on the base its image resolves to, with fresh files, ids and devices; without a failing call it succeeds for acceptable flags |
| Cloning.CloneDisks | cmd/vm/clone.go:100-107 | the source's disks under their old names, then the new ones, all distinct |
| Cloning.Recover | cmd/vm/net_linux.go:95-121 | recovery leaves every other record alone and changes at most the TAP of its own, to the one the provider answers with, and to that one if its devices do not verify and no call fails; the root stays in order as long as no other VM has that TAP |
| Cloning.InheritedStorageFitsExactlyWhen | cmd/vm/clone.go:78-99 | in every history a clone that inherits its size is too small if and only if the image now resolves to a base larger than the source's disk |
| Cloning.SameBaseNeverTooSmall | cmd/vm/clone.go:147-155 | as long as the store keeps the blob a VM was made on, no such clone of it is too small, through any history |
| Cloning.LargerBaseRefusesTheClone | cmd/vm/clone.go:78-99 | a history and a host on which a VM's plain clone is refused because its image now resolves to a larger base |
| Cloning.OpenCoreBaseIsOutside | cmd/vm/clone.go:157-168 | a clone's OpenCore never rests on its source's overlay |
| Cloning.ImagesAreDistinctExactlyWhen | cmd/vm/utils.go:164-171 | a VM's images are distinct files if and only if its NVRAM template is not named like one of them |
| Cloning.TemplateOverTheDisk | cmd/vm/utils.go:164-171 | creating a VM from a template named disk.qcow2 makes its NVRAM and its system disk one file |
| Fleet.HistoryIsOk | cmd/vm/clone.go:86-145 | every history of create, clone, network recovery and rm keeps the whole invariant of the root |
| Fleet.RemovalSparesOthers | cmd/vm/clone.go:147-168 | removing any VM, also the source of a clone of a clone, removes no file another VM needs |
| Fleet.DataDisksStayDistinct | cmd/vm/clone.go:100-115 | in every history a VM has no more data disks than the launcher has ports, all distinct files of its own directory |
| Fleet.StorageIsTheDiskSize | cmd/vm/utils.go:113-129 | storage is always the system disk's virtual size and at least its base's |
| Fleet.NetworksStayApart | cmd/vm/clone.go:118-139 | in every history no two VMs share a netns or an identity's address, which follows from their fresh ids and identities, nor, given that each provider answer is unused when it comes, an owned TAP or any NIC address; outside CNI each VM with an identity has the address of its ROM |

## Left out

- Siblings.SiblingFoundExactlyWhen: names the three options that can match instead of denying any match, because firmware paths are the caller's.
- Launch.Args: reads values under the comma rule only; qemu's further rule that a first field holding an equals sign is a key is not modelled, nor are -pidfile and -daemonize, which launch appends unescaped.
- Lifecycle.CreateOrClone: says nothing of what a rollback with a failed cleanup call leaves behind, because each such call may leave what it was to remove; what that can do to qemu is Safety.SingleQemuExactlyWhen.
- The scan and the record write of an adoption (cmd/vm/utils.go:250-264) are one step of the protocol, though either may fail; the VM lock keeps other operations out in between.
- Start, snapshot and restore have protocol steps but no imperative method with interference; the sequential part of the last two is in Snapshots, and the launch of start is that of run but for the rollback.
- A sweep may also lose its network ids to an unreadable record; only the resulting abort is modelled, not the error text.
- Device loss by a reboot of the host is modelled only in Network, where recovery rebuilds what is missing; in the protocol devices go only through the engine.
- qemu-img's lookup of snapshots by numeric id before name, and its behaviour after a crash in the middle of a snapshot.
- The plist edit itself, the SMBIOS serial and UUID beyond their alphabet, the CPU flags, and the AMD ignore_msrs write.
- VNC proxy processes and their pid files, the listener re-exec, and the byte pipe.
- ACPI power-down before termination, grace periods and timeouts: each wait is a nondeterministic success or failure; no fairness or progress under contention is claimed.
- Quiescing of NICs around stop and start (cmd/vm/net_linux.go:149-165), which changes no record and no device set.
- Stale pull temp files removed by gc, image pull and storage, listing, inspection, console and log commands.
- Command-line validators for CPU count, memory digits, socket path length and names: used as preconditions only.
