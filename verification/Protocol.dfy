/**
 The atomic steps of create, run, clone, start, stop, rm, snapshot, restore and gc over one host.
 Every external call may fail, every process may be killed, guests exit on their own and process ids are reused.
 */
module Protocol {
  import opened Wrappers
  import opened Text
  import opened Host

  /** The process moves on within its operation. */
  function To(s: State, p: Proc, op: Op, at: Point): State { s.At(p, InOp(op, at)) }

  /** An error or an early return: the deferred unlocks are all that is left to do. */
  function Leave(s: State, p: Proc): State
  {
    var pc := s.Pc(p);
    s.At(p, Exit(HeldVMs(pc), Shares(pc), Excludes(pc)))
  }

  // ---- locks -------------------------------------------------------------------------------------------------

  ghost predicate BeginStep(s: State, p: Proc, s': State)
  {
    || (exists op :: s' == s.At(p, WantVM(op, {})))
    || (s.gcExcl.None? && s.gcShared == {} && s' == s.(gcExcl := Some(p)).At(p, InGc(List)))
  }

  ghost predicate LockVMStep(s: State, p: Proc, op: Op, held: set<Name>, s': State)
  {
    var n := NextLock(op, held);
    || s' == Leave(s, p)
    || (&& n !in s.vmLock
        && s' == s.(vmLock := s.vmLock[n := p])
                 .At(p, if held + {n} == VMs(op) then InOp(op, Entered) else WantVM(op, held + {n})))
  }

  ghost predicate ExitStep(s: State, p: Proc, vms: set<Name>, shared: bool, excl: bool, s': State)
  {
    if shared then s' == s.(gcShared := s.gcShared - {p}).At(p, Exit(vms, false, excl))
    else if vms != {} then
      exists n :: n in vms && s' == s.(vmLock := s.vmLock - {n}).At(p, Exit(vms - {n}, shared, excl))
    else if excl then s' == s.(gcExcl := None).At(p, Exit(vms, shared, false))
    else s' == s.At(p, Idle)
  }

  // ---- reconcileRunningQEMU ------------------------------------------------------------------------------------

  /** Where an operation goes once it knows that no qemu runs. */
  function AfterIdle(op: Op): Point
  {
    match op
    case Clone(_, _) => WantShared
    case Start(_) => LaunchNet
    case Stop(_) => Stopping(0)
    case Rm(_) => Stopping(0)
    case _ => Imaging(false)
  }

  /** The VM an operation loads first: a clone's source, else its own. */
  function Loads(op: Op): Name { if op.Clone? then op.src else op.name }

  ghost predicate FoundRunning(s: State, p: Proc, op: Op, pid: Pid, s': State)
  {
    || s' == Leave(s, p)
    || ((op.Stop? || op.Rm? || op.Restore?) && s' == To(s, p, op, Stopping(pid)))
  }

  /** Saves the pid of the one live qemu no record named. */
  function Adopt(s: State, n: Name, x: Pid): State
    requires s.IsCommitted(n)
  {
    s.Commit(n, s.dirs[n].rec.(pid := x)).(abandoned := s.abandoned - {x})
  }

  ghost predicate ReconcileStep(s: State, p: Proc, op: Op, n: Name, s': State)
    requires s.IsCommitted(n)
  {
    var pid := s.dirs[n].rec.pid;
    || (s.Live(n) == {} && s' == To(s, p, op, AfterIdle(op)))
    || (pid in s.Live(n) && FoundRunning(s, p, op, pid, s'))
    || (pid !in s.Live(n) && exists x :: s.Live(n) == {x} && FoundRunning(Adopt(s, n, x), p, op, x, s'))
  }

  ghost predicate EnteredStep(s: State, p: Proc, op: Op, s': State)
  {
    || s' == Leave(s, p)
    || (op.Create? && s' == To(s, p, op, WantShared))
    || (!op.Create? && s.IsCommitted(Loads(op)) && ReconcileStep(s, p, op, Loads(op), s'))
    || (op.Rm? && op.name in s.dirs && s' == To(s, p, op, RmReap))   // no record, or one that cannot be read
  }

  // ---- scaffoldVM and resetIncompleteVMDir -----------------------------------------------------------------------

  ghost predicate ShareStep(s: State, p: Proc, op: Op, s': State)
  {
    || s' == Leave(s, p)
    || (s.gcExcl.None? && s' == To(s.(gcShared := s.gcShared + {p}), p, op, Laying(Scaffold)))
  }

  /** One phase of the removal of a directory without a record; the marker precedes the removal. */
  function ResetEffect(s: State, n: Name, phase: ResetPhase): State
  {
    match phase
    case KillNbd => s.Without(s.Helpers(n))
    case Mark => s.(marker := true)
    case Remove => s.(dirs := s.dirs - {n})
  }

  function AfterReset(phase: ResetPhase): Lay
  {
    match phase case KillNbd => Reset(Mark) case Mark => Reset(Remove) case Remove => MakeDir
  }

  ghost predicate LayStep(s: State, p: Proc, op: Op, lay: Lay, s': State)
  {
    var n := op.name;
    || s' == Leave(s, p)
    || match lay
       case Scaffold =>
         || (n !in s.dirs && s' == To(s, p, op, Laying(MakeDir)))
         || (s.IsBare(n) && s.Live(n) == {} && s' == To(s, p, op, Laying(Reset(KillNbd))))
       case Reset(phase) => s' == To(ResetEffect(s, n, phase), p, op, Laying(AfterReset(phase)))
       case MakeDir => s' == To(s.(dirs := s.dirs[n := Bare]), p, op, Laying(Build))
       case Build =>   // the overlay and the NVRAM copy; on error scaffoldVM removes its directory if it can
         || s' == Leave(s.(dirs := s.dirs - {n}), p)
         || (exists v :: v !in s.usedIds && s' == To(s.(usedIds := s.usedIds + {v}), p, op, Making(v, Images)))
  }

  // ---- create and clone under the provisioning lock ---------------------------------------------------------------

  /** A failed create or clone enters its deferred cleanup with the provisioning lock still shared. */
  function Undo(s: State, p: Proc, op: Op, v: Vmid, tear: bool, clean: bool): State
  {
    To(s.(lease := if s.lease == Some(p) then None else s.lease), p, op, Rollback(v, tear, clean, true, 0, StopQemu))
  }

  ghost predicate MakeStep(s: State, p: Proc, op: Op, v: Vmid, make: Make, s': State)
  {
    match make
    case Images =>      // resize and data disks, then a fresh SMBIOS identity or none
      || s' == Undo(s, p, op, v, false, true)
      || s' == To(s, p, op, Making(v, NetMark))
      || s' == To(s, p, op, Making(v, WantLease))
    case WantLease =>
      || s' == Undo(s, p, op, v, false, true)
      || (s.lease.None? && s' == To(s.(lease := Some(p)), p, op, Making(v, Attach)))
    case Attach =>
      || s' == Undo(s, p, op, v, false, true)
      || (exists x :: x !in s.procs && x > 0 && s' == To(s.(procs := s.procs[x := Nbd(op.name)]), p, op, Making(v, Attached)))
    case Attached =>    // success means isFileHeld found no server left; the lease is released either way
      || s' == Undo(s, p, op, v, false, true)
      || s' == To(s.Without(s.Helpers(op.name)).(lease := None), p, op, Making(v, NetMark))
    case NetMark =>
      || s' == Undo(s, p, op, v, false, true)
      || s' == To(s.(marker := true), p, op, Making(v, NetPrepare))
    case NetPrepare =>  // user networking and a caller's own TAP create nothing; Prepare makes a CNI VM's netns
      || s' == Undo(s, p, op, v, false, true)
      || s' == To(s, p, op, Making(v, Save(false)))
      || s' == To(s, p, op, Making(v, NetAdd))
      || s' == To(s.(devices := s.devices + {Device(v, Netns)}), p, op, Making(v, NetAdd))
    case NetAdd =>
      || s' == To(s, p, op, Making(v, NetUndo))
      || s' == To(s.(devices := s.devices + {Device(v, Tap)}), p, op, Making(v, Save(true)))
    case NetUndo =>     // provisionNet's own rollback: a failed Delete is only logged
      || s' == Undo(s, p, op, v, false, false)
      || s' == Undo(s.(devices := s.DevicesExcept(v)), p, op, v, false, true)
    case Save(owned) =>
      || s' == Undo(s, p, op, v, owned, true)
      || (&& op.Create? && op.run && s' == To(s.Commit(op.name, Record(v, 0, owned)), p, op, Saved))
      || (&& !(op.Create? && op.run) && s' == Leave(s.Commit(op.name, Record(v, 0, owned)), p))
  }

  /** run leaves the provisioning lock before it launches. */
  ghost predicate SavedStep(s: State, p: Proc, op: Op, s': State)
  {
    s' == To(s.(gcShared := s.gcShared - {p}), p, op, LaunchNet)
  }

  // ---- cleanupFailedVM -----------------------------------------------------------------------------------------

  /** Removing the record of a VM whose qemu still lives leaves that qemu to nobody. */
  function Abandon(s: State, n: Name): State { s.(abandoned := s.abandoned + s.Live(n)) }

  ghost predicate RollbackStep(s: State, p: Proc, op: Op, at: Point, s': State)
    requires at.Rollback?
  {
    var n := op.name;
    match at.phase
    case StopQemu =>
      || s' == To(s, p, op, at.(clean := false, phase := Teardown))
      || s' == To(s.Without({at.qemu} * s.Live(n)), p, op, at.(phase := Teardown))
    case Teardown =>
      || (!at.tear && s' == To(s, p, op, at.(phase := Reap)))
      || (at.tear && s' == To(s, p, op, at.(clean := false, phase := Reap)))
      || (at.tear && s' == To(s.(devices := s.DevicesExcept(at.id)), p, op, at.(phase := Reap)))
    case Reap =>
      || s' == To(s, p, op, at.(clean := false, phase := RemoveDir))
      || s' == To(s.Without(s.Live(n) + s.Helpers(n)), p, op, at.(phase := RemoveDir))
    case RemoveDir =>
      || s' == To(s, p, op, at.(clean := false, phase := Finished))
      || (s.IsCommitted(n) && s' == To(Abandon(s, n).(dirs := s.dirs[n := Bare]), p, op, at))   // vm.json went first
      || s' == To(Abandon(s, n).(dirs := s.dirs - {n}), p, op, at.(phase := Finished))
    case Finished =>
      s' == Leave(s, p)
  }

  // ---- launch --------------------------------------------------------------------------------------------------

  /** A failed launch: run rolls its VM back without the provisioning lock, start and restore just return the error. */
  function LaunchFailed(s: State, p: Proc, op: Op, pid: Pid): State
    requires s.IsCommitted(op.name)
  {
    var r := s.dirs[op.name].rec;
    if op.Create? then To(s, p, op, Rollback(r.vmid, r.owned, true, false, pid, StopQemu)) else Leave(s, p)
  }

  /** recoverNet rebuilds the devices of an owned record, one at a time. */
  ghost predicate LaunchNetStep(s: State, p: Proc, op: Op, s': State)
    requires s.IsCommitted(op.name)
  {
    var r := s.dirs[op.name].rec;
    || s' == LaunchFailed(s, p, op, 0)
    || s' == To(s, p, op, LaunchSpawn)
    || (r.owned && exists k :: s' == To(s.(devices := s.devices + {Device(r.vmid, k)}), p, op, LaunchNet))
  }

  ghost predicate SpawnStep(s: State, p: Proc, op: Op, s': State)
    requires s.IsCommitted(op.name)
  {
    || s' == LaunchFailed(s, p, op, 0)
    || (exists x :: x !in s.procs && x > 0 && s' == To(s.(procs := s.procs[x := Qemu(op.name)]), p, op, Launched(x)))
  }

  /** qemu runs; the pid file, the VNC setup or the record write may still fail, with qemu terminated or left alive. */
  ghost predicate LaunchedStep(s: State, p: Proc, op: Op, x: Pid, s': State)
    requires s.IsCommitted(op.name)
  {
    || s' == LaunchFailed(s, p, op, 0)
    || s' == LaunchFailed(s, p, op, x)
    || s' == LaunchFailed(s.Without({x} * s.Live(op.name)), p, op, x)
    || s' == Leave(s.Commit(op.name, s.dirs[op.name].rec.(pid := x)), p)
  }

  // ---- stop, rm, snapshot, restore ---------------------------------------------------------------------------------

  ghost predicate StoppingStep(s: State, p: Proc, op: Op, x: Pid, s': State)
  {
    || s' == Leave(s, p)
    || s' == To(s.Without({x} * s.Live(op.name)), p, op, Stopped)
  }

  ghost predicate StoppedStep(s: State, p: Proc, op: Op, s': State)
    requires s.IsCommitted(op.name)
  {
    var r := s.dirs[op.name].rec;
    || s' == Leave(s, p)
    || (op.Stop? && s' == Leave(s.Commit(op.name, r.(pid := 0)), p))
    || (op.Restore? && s' == To(s.Commit(op.name, r.(pid := 0)), p, op, Imaging(true)))
    || (op.Rm? && !r.owned && s' == To(s, p, op, RmMark))
    || (op.Rm? && r.owned && s' == To(s.(devices := s.DevicesExcept(r.vmid)), p, op, RmMark))
  }

  ghost predicate RmStep(s: State, p: Proc, op: Op, at: Point, s': State)
  {
    var n := op.name;
    || s' == Leave(s, p)
    || (at.RmReap? && s' == To(s.Without(s.Live(n) + s.Helpers(n)), p, op, RmMark))
    || (at.RmMark? && s' == To(s.(marker := true), p, op, RmRemove))
    || (at.RmRemove? && s.IsCommitted(n) && s' == To(s.(dirs := s.dirs[n := Bare]), p, op, RmRemove))
    || (at.RmRemove? && s' == Leave(s.(dirs := s.dirs - {n}), p))
  }

  /** qemu-img works on the images; a forced restore relaunches afterwards. */
  ghost predicate ImagingStep(s: State, p: Proc, op: Op, relaunch: bool, s': State)
  {
    || s' == Leave(s, p)
    || (relaunch && s' == To(s, p, op, LaunchNet))
  }

  ghost predicate OpStep(s: State, p: Proc, op: Op, at: Point, s': State)
  {
    match at
    case Entered => EnteredStep(s, p, op, s')
    case WantShared => ShareStep(s, p, op, s')
    case Laying(lay) => LayStep(s, p, op, lay, s')
    case Making(v, make) => MakeStep(s, p, op, v, make, s')
    case Saved => SavedStep(s, p, op, s')
    case Rollback(_, _, _, _, _, _) => RollbackStep(s, p, op, at, s')
    case LaunchNet => s.IsCommitted(op.name) && LaunchNetStep(s, p, op, s')
    case LaunchSpawn => s.IsCommitted(op.name) && SpawnStep(s, p, op, s')
    case Launched(x) => s.IsCommitted(op.name) && LaunchedStep(s, p, op, x, s')
    case Stopping(x) => StoppingStep(s, p, op, x, s')
    case Stopped => s.IsCommitted(op.name) && StoppedStep(s, p, op, s')
    case Imaging(relaunch) => ImagingStep(s, p, op, relaunch, s')
    case _ => RmStep(s, p, op, at, s')
  }

  // ---- sweep ---------------------------------------------------------------------------------------------------

  function Sweeping(s: State, p: Proc, sw: Sweep): State { s.At(p, InGc(sw)) }

  /** Try-locks only; with every listed VM locked, the host collectors register if the root ever held a VM. */
  ghost predicate SweepLockStep(s: State, p: Proc, listed: set<Name>, todo: set<Name>, s': State)
  {
    || (exists n :: n in todo && n !in s.vmLock && s' == Sweeping(s.(vmLock := s.vmLock[n := p]), p, Lock(listed, todo - {n})))
    || (todo == {} && s' == Sweeping(s, p, Read(listed, listed, {}, {}, !(listed == {} && !s.marker))))
  }

  /** ReadDB classifies one directory at a time; an unreadable record aborts the sweep. */
  ghost predicate SweepReadStep(s: State, p: Proc, sw: Sweep, s': State)
    requires sw.Read?
  {
    || (exists n :: n in sw.todo && s' == Sweeping(s, p, Classify(s, sw, n)))
    || (sw.todo == {} && s' == Sweeping(s, p, Stray(sw.listed, sw.strays, sw.ids, sw.reg, true)))
  }

  function Classify(s: State, sw: Sweep, n: Name): Sweep
    requires sw.Read?
  {
    if s.IsCommitted(n) then Read(sw.listed, sw.todo - {n}, sw.ids + {s.dirs[n].rec.vmid}, sw.strays, sw.reg)
    else Read(sw.listed, sw.todo - {n}, sw.ids, sw.strays + {n}, sw.reg)
  }

  ghost predicate SweepStrayStep(s: State, p: Proc, sw: Sweep, s': State)
    requires sw.Stray?
  {
    if sw.todo == {} then s' == Sweeping(s, p, Net(sw.listed, sw.ids, sw.reg, sw.ok))
    else exists n :: n in sw.todo && VisitStray(s, p, sw, n, s')
  }

  ghost predicate VisitStray(s: State, p: Proc, sw: Sweep, n: Name, s': State)
    requires sw.Stray?
  {
    || (n !in s.dirs && s' == Sweeping(s, p, Stray(sw.listed, sw.todo - {n}, sw.ids, sw.reg, sw.ok)))
    || s' == Sweeping(s, p, Stray(sw.listed, sw.todo - {n}, sw.ids, sw.reg, false))
    || (&& s.IsBare(n) && s.Live(n) == {}
        && s' == Sweeping(s, p, ResetStray(sw.listed, sw.todo - {n}, sw.ids, sw.reg, sw.ok, n, KillNbd)))
  }

  ghost predicate SweepResetStep(s: State, p: Proc, sw: Sweep, s': State)
    requires sw.ResetStray?
  {
    || s' == Sweeping(s, p, Stray(sw.listed, sw.todo, sw.ids, sw.reg, false))
    || s' == Sweeping(ResetEffect(s, sw.stray, sw.phase), p, match sw.phase
         case KillNbd => ResetStray(sw.listed, sw.todo, sw.ids, sw.reg, sw.ok, sw.stray, Mark)
         case Mark => ResetStray(sw.listed, sw.todo, sw.ids, sw.reg, sw.ok, sw.stray, Remove)
         case Remove => Stray(sw.listed, sw.todo, sw.ids, sw.reg, sw.ok))
  }

  /** The devices no active id owns. */
  function Orphans(s: State, ids: set<Vmid>): set<Device> { set d | d in s.devices && d.vmid !in ids }

  /** A collector that fails may have removed some of its devices. */
  ghost predicate SweepNetStep(s: State, p: Proc, sw: Sweep, s': State)
    requires sw.Net?
  {
    || (!sw.reg && s' == Sweeping(s, p, Done(sw.listed, sw.ok)))
    || (sw.reg && s' == Sweeping(s.(devices := s.devices - Orphans(s, sw.ids)), p, Done(sw.listed, sw.ok)))
    || (sw.reg && (exists some :: some <= Orphans(s, sw.ids)
                               && s' == Sweeping(s.(devices := s.devices - some), p, Done(sw.listed, false))))
  }

  ghost predicate SweepStep(s: State, p: Proc, sw: Sweep, s': State)
  {
    || s' == Leave(s, p)
    || match sw
       case List => s' == Sweeping(s, p, Lock(s.dirs.Keys, s.dirs.Keys))
       case Lock(listed, todo) => SweepLockStep(s, p, listed, todo, s')
       case Read(_, _, _, _, _) => SweepReadStep(s, p, sw, s')
       case Stray(_, _, _, _, _) => SweepStrayStep(s, p, sw, s')
       case ResetStray(_, _, _, _, _, _, _) => SweepResetStep(s, p, sw, s')
       case Net(_, _, _, _) => SweepNetStep(s, p, sw, s')
       case Done(_, _) => false
  }

  // ---- the whole system ------------------------------------------------------------------------------------------

  /** One step of process p, whose next effect its program point determines. */
  ghost predicate Step(s: State, p: Proc, s': State)
  {
    match s.Pc(p)
    case Idle => BeginStep(s, p, s')
    case WantVM(op, held) => LockVMStep(s, p, op, held, s')
    case InOp(op, at) => OpStep(s, p, op, at, s')
    case InGc(sw) => SweepStep(s, p, sw, s')
    case Exit(vms, shared, excl) => ExitStep(s, p, vms, shared, excl, s')
  }

  /** A killed process is gone and the kernel drops its flocks; what it had done to the host stays. */
  function Killed(s: State, p: Proc): State
  {
    s.(vmLock := map n | n in s.vmLock && s.vmLock[n] != p :: s.vmLock[n],
       gcShared := s.gcShared - {p},
       gcExcl := if s.gcExcl == Some(p) then None else s.gcExcl,
       lease := if s.lease == Some(p) then None else s.lease)
    .At(p, Idle)
  }

  /** A guest or any other process exits, or an unrelated process takes a free pid. */
  ghost predicate EnvStep(s: State, s': State)
  {
    || (exists x :: s' == s.Without({x}))
    || (exists x :: x !in s.procs && x > 0 && s' == s.(procs := s.procs[x := Other]))
  }

  ghost predicate Next(s: State, s': State)
  {
    || (exists p :: Step(s, p, s'))
    || (exists p :: s' == Killed(s, p))
    || EnvStep(s, s')
  }

  /**
   A host before this run: no CLI process is at work; a root of an older build may lack the marker, provided devices
   imply a VM directory. Network ids are distinct and every live qemu is the only one of a committed VM.
   */
  ghost predicate Init(s: State)
  {
    && s.pcs == map[] && s.vmLock == map[] && s.gcShared == {} && s.gcExcl.None? && s.lease.None? && s.abandoned == {}
    && (forall n, m :: s.IsCommitted(n) && s.IsCommitted(m) && s.dirs[n].rec.vmid == s.dirs[m].rec.vmid ==> n == m)
    && (forall n :: s.IsCommitted(n) ==> s.dirs[n].rec.vmid in s.usedIds)
    && (forall d :: d in s.devices ==> d.vmid in s.usedIds)
    && (forall d, n :: d in s.devices && s.IsCommitted(n) && s.dirs[n].rec.vmid == d.vmid ==> s.dirs[n].rec.owned)
    && (s.devices != {} ==> s.marker || s.dirs != map[])
    && 0 !in s.procs
    && (forall x :: x in s.procs && s.procs[x].Qemu? ==> s.IsCommitted(s.procs[x].vm))
    && (forall x, y :: x in s.procs && y in s.procs && s.procs[x].Qemu? && s.procs[x] == s.procs[y] ==> x == y)
  }

  ghost predicate Continues(tr: seq<State>, i: int)
  {
    0 <= i < |tr| - 1 && Next(tr[i], tr[i + 1])
  }

  ghost predicate IsRun(tr: seq<State>)
  {
    |tr| > 0 && Init(tr[0]) && forall i :: 0 <= i < |tr| - 1 ==> Continues(tr, i)
  }
}
