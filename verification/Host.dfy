/** The host state every CLI process shares: VM directories, network devices, processes and locks. */
module Host {
  import opened Wrappers
  import opened Text

  type Name = string // a VM name; the directory and lock path are functions of it
  type Proc = nat    // one CLI invocation
  type Pid = nat     // an operating-system process id; 0 means none
  type Vmid = nat    // the random id that keys a VM's network devices

  datatype Kind = Netns | Tap

  datatype Device = Device(vmid: Vmid, kind: Kind)

  datatype Record = Record(vmid: Vmid, pid: Pid, owned: bool)

  /** A VM directory is absent (no key), without a record, or committed. */
  datatype Dir = Bare | Committed(rec: Record)

  /** What a live process' command line names. */
  datatype Job = Qemu(vm: Name) | Nbd(vm: Name) | Other

  datatype Op =
    | Create(name: Name, run: bool)
    | Clone(src: Name, name: Name)
    | Start(name: Name)
    | Stop(name: Name)
    | Rm(name: Name)
    | Snapshot(name: Name)
    | Restore(name: Name)

  datatype ResetPhase = KillNbd | Mark | Remove

  datatype RollbackPhase = StopQemu | Teardown | Reap | RemoveDir | Finished

  /** scaffoldVM, up to the directory and its first files. */
  datatype Lay = Scaffold | Reset(phase: ResetPhase) | MakeDir | Build

  /** The rest of create and clone, from the images to the record write. */
  datatype Make = Images | WantLease | Attach | Attached | NetMark | NetPrepare | NetAdd | NetUndo | Save(owned: bool)

  /** Where an operation that holds its VM locks is; each point lies between two external effects of the source. */
  datatype Point =
    | Entered
    | WantShared
    | Laying(lay: Lay)
    | Making(vmid: Vmid, make: Make)
    | Saved
    | Rollback(id: Vmid, tear: bool, clean: bool, shared: bool, qemu: Pid, phase: RollbackPhase)
    | LaunchNet
    | LaunchSpawn
    | Launched(spawned: Pid)
    | Stopping(running: Pid)
    | Stopped
    | RmReap
    | RmMark
    | RmRemove
    | Imaging(relaunch: bool)

  /** Where a sweep is; after Lock every listed VM is locked. */
  datatype Sweep =
    | List
    | Lock(listed: set<Name>, todo: set<Name>)
    | Read(listed: set<Name>, todo: set<Name>, ids: set<Vmid>, strays: set<Name>, reg: bool)
    | Stray(listed: set<Name>, todo: set<Name>, ids: set<Vmid>, reg: bool, ok: bool)
    | ResetStray(listed: set<Name>, todo: set<Name>, ids: set<Vmid>, reg: bool, ok: bool, stray: Name, phase: ResetPhase)
    | Net(listed: set<Name>, ids: set<Vmid>, reg: bool, ok: bool)
    | Done(listed: set<Name>, ok: bool)

  /** Where a CLI process is. */
  datatype PC =
    | Idle
    | WantVM(want: Op, held: set<Name>)
    | InOp(op: Op, at: Point)
    | InGc(sweep: Sweep)
    | Exit(vms: set<Name>, shared: bool, excl: bool)

  /** The VM locks an operation takes. */
  function VMs(op: Op): set<Name>
  {
    if op.Clone? then {op.src, op.name} else {op.name}
  }

  /** The next VM lock an operation blocks on; a clone takes its two in path order. */
  function NextLock(op: Op, held: set<Name>): Name
  {
    if op.Clone? then
      var first := if Less(op.name, op.src) then op.name else op.src;
      var second := if Less(op.name, op.src) then op.src else op.name;
      if first in held then second else first
    else op.name
  }

  function SweepLocks(sw: Sweep): set<Name>
  {
    match sw
    case List => {}
    case Lock(listed, todo) => listed - todo
    case _ => sw.listed
  }

  /** The VM locks a process at this point holds. */
  function HeldVMs(pc: PC): set<Name>
  {
    match pc
    case Idle => {}
    case WantVM(_, held) => held
    case InOp(op, _) => VMs(op)
    case InGc(sw) => SweepLocks(sw)
    case Exit(vms, _, _) => vms
  }

  predicate PointShares(at: Point)
  {
    at.Laying? || at.Making? || at.Saved? || (at.Rollback? && at.shared)
  }

  /** Whether a process at this point shares the provisioning lock. */
  predicate Shares(pc: PC)
  {
    (pc.InOp? && PointShares(pc.at)) || (pc.Exit? && pc.shared)
  }

  /** Whether a process at this point holds the provisioning lock exclusively. */
  predicate Excludes(pc: PC) { pc.InGc? || (pc.Exit? && pc.excl) }

  /** Whether a process at this point holds the host-wide qemu-nbd lease. */
  predicate Leases(pc: PC) { pc.InOp? && pc.at.Making? && (pc.at.make.Attach? || pc.at.make.Attached?) }

  /** The network ids a process generated that it may still create or delete devices for. */
  function Flight(pc: PC): set<Vmid>
  {
    if pc.InOp? && pc.at.Making? then {pc.at.vmid}
    else if pc.InOp? && pc.at.Rollback? then {pc.at.id}
    else {}
  }

  predicate LockedBy(vmLock: map<Name, Proc>, n: Name, p: Proc) { n in vmLock && vmLock[n] == p }

  function Running(procs: map<Pid, Job>, job: Job): set<Pid> { set x | x in procs && procs[x] == job }

  function IdsOf(dirs: map<Name, Dir>): set<Vmid> { set n | n in dirs && dirs[n].Committed? :: dirs[n].rec.vmid }

  datatype State = State(
    dirs: map<Name, Dir>,
    marker: bool,
    devices: set<Device>,
    procs: map<Pid, Job>,
    vmLock: map<Name, Proc>,
    gcShared: set<Proc>,
    gcExcl: Option<Proc>,
    lease: Option<Proc>,
    pcs: map<Proc, PC>,
    usedIds: set<Vmid>,
    // live qemu whose VM directory a rollback removed under it; no source variable, only what the theorems speak of
    abandoned: set<Pid>)
  {
    function Pc(p: Proc): PC { if p in pcs then pcs[p] else Idle }

    function At(p: Proc, pc: PC): State { this.(pcs := pcs[p := pc]) }

    predicate Holds(n: Name, p: Proc) { LockedBy(vmLock, n, p) }

    predicate IsCommitted(n: Name) { n in dirs && dirs[n].Committed? }

    predicate IsBare(n: Name) { n in dirs && dirs[n].Bare? }

    /** The live qemu processes whose command line names n. */
    function Live(n: Name): set<Pid> { Running(procs, Qemu(n)) }

    /** The live qemu of n that no rollback has abandoned. */
    function Owned(n: Name): set<Pid> { Live(n) - abandoned }

    /** The live qemu-nbd servers on an image of n. */
    function Helpers(n: Name): set<Pid> { Running(procs, Nbd(n)) }

    /** The network ids committed records name. */
    function RecordIds(): set<Vmid> { IdsOf(dirs) }

    /** The same host after some processes died. */
    function Without(xs: set<Pid>): State { this.(procs := procs - xs, abandoned := abandoned - xs) }

    function DevicesExcept(v: Vmid): set<Device> { set d | d in devices && d.vmid != v }

    function Commit(n: Name, r: Record): State { this.(dirs := dirs[n := Committed(r)]) }
  }
}
