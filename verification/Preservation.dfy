/** Every step of every process keeps the invariant, so every state of every run satisfies it. */
module Preservation {
  import opened Wrappers
  import opened Text
  import opened Host
  import opened Protocol
  import opened Invariant
  import opened Interference
  import opened Shapes

  // ---- locks ---------------------------------------------------------------------------------------------------

  /** A step that only takes or drops locks of its own process. */
  lemma LockStepGood(s: State, p: Proc, s': State, pc: PC)
    requires Ready(s, p)
    requires s' == s.(vmLock := s'.vmLock, gcShared := s'.gcShared, gcExcl := s'.gcExcl, lease := s'.lease).At(p, pc)
    requires LocksOfOthers(s, p, s') && LockOk(s', p) && (s'.gcExcl.Some? ==> s'.gcShared == {})
    requires s.marker || Raises(pc) <= Raises(s.Pc(p))
    requires Flight(pc) == {} || (Flight(pc) <= Flight(s.Pc(p)) && pc.op == s.Pc(p).op)
    requires PcOk(s, pc)
    ensures Good(s, p, s')
  {
    DirsKept(s, p, s');
    FlightKept(s, p, s');
    DevicesKept(s, p, s');
    ShrinkKeeps(s, p, s');
    PcOkIgnoresPcs(s, s', pc);
    forall n | s.Holds(n, p) ensures NameOk(s', n) {
      ShrinkKeepsName(s, s', n);
    }
  }

  lemma BeginGood(s: State, p: Proc, s': State)
    requires Ready(s, p) && s.Pc(p).Idle? && BeginStep(s, p, s')
    ensures Good(s, p, s')
  {
    if op :| s' == s.At(p, WantVM(op, {})) {
      MoveGood(s, p, WantVM(op, {}));
    } else {
      SideLocksOk(s, p, s', InGc(List));
      LockStepGood(s, p, s', InGc(List));
    }
  }

  lemma LockVMGood(s: State, p: Proc, op: Op, held: set<Name>, s': State)
    requires Ready(s, p) && s.Pc(p) == WantVM(op, held) && LockVMStep(s, p, op, held, s')
    ensures Good(s, p, s')
  {
    LeaveGood(s, p);
    if s' != Leave(s, p) {
      VmLockTaken(s, p, NextLock(op, held), s', s'.Pc(p));
      LockStepGood(s, p, s', s'.Pc(p));
    }
  }

  lemma ExitGood(s: State, p: Proc, vms: set<Name>, shared: bool, excl: bool, s': State)
    requires Ready(s, p) && s.Pc(p) == Exit(vms, shared, excl) && ExitStep(s, p, vms, shared, excl, s')
    ensures Good(s, p, s')
  {
    if !shared && vms != {} {
      var n :| n in vms && s' == s.(vmLock := s.vmLock - {n}).At(p, Exit(vms - {n}, shared, excl));
      VmLockDropped(s, p, n, s', Exit(vms - {n}, shared, excl));
    } else {
      SideLocksOk(s, p, s', s'.Pc(p));
    }
    LockStepGood(s, p, s', s'.Pc(p));
  }

  lemma ShareGood(s: State, p: Proc, op: Op, s': State)
    requires Ready(s, p) && s.Pc(p) == InOp(op, WantShared) && ShareStep(s, p, op, s')
    ensures Good(s, p, s')
  {
    LeaveGood(s, p);
    if s' != Leave(s, p) {
      SideLocksOk(s, p, s', InOp(op, Laying(Scaffold)));
      LockStepGood(s, p, s', s'.Pc(p));
    }
  }

  lemma SavedGood(s: State, p: Proc, op: Op, s': State)
    requires Ready(s, p) && s.Pc(p) == InOp(op, Saved) && SavedStep(s, p, op, s')
    ensures Good(s, p, s')
  {
    SideLocksOk(s, p, s', InOp(op, LaunchNet));
    LockStepGood(s, p, s', InOp(op, LaunchNet));
  }

  lemma UndoGood(s: State, p: Proc, op: Op, v: Vmid, make: Make, tear: bool, clean: bool)
    requires Ready(s, p) && s.Pc(p) == InOp(op, Making(v, make))
    requires tear ==> s.marker
    requires clean && !tear ==> NoDevice(s, v)
    ensures Good(s, p, Undo(s, p, op, v, tear, clean))
  {
    var s' := Undo(s, p, op, v, tear, clean);
    SideLocksOk(s, p, s', s'.Pc(p));
    LockStepGood(s, p, s', s'.Pc(p));
  }

  // ---- reconcile and stop ----------------------------------------------------------------------------------------

  /** Only the pid of a committed record and the abandonment of its live qemu change. */
  ghost predicate Repids(s: State, p: Proc, n: Name, s': State)
  {
    && s.Holds(n, p) && s.IsCommitted(n) && s'.IsCommitted(n)
    && s'.dirs == s.dirs[n := Committed(s.dirs[n].rec.(pid := s'.dirs[n].rec.pid))]
    && s'.procs == s.procs && s'.abandoned <= s.abandoned && s.abandoned - s'.abandoned <= s.Live(n)
  }

  lemma RepidNames(s: State, p: Proc, n: Name, s': State)
    requires Repids(s, p, n, s') && NamesOk(s, p, s) && NameOk(s', n)
    ensures NamesOk(s, p, s')
  {
    forall m | s.Holds(m, p) && m != n ensures NameOk(s', m) {
      assert NameOk(s, m);
      assert forall x :: x in s.Live(m) ==> x !in s.Live(n);
      assert s'.Owned(m) == s.Owned(m);
    }
  }

  lemma RepidFootprint(s: State, p: Proc, n: Name, s': State)
    requires Repids(s, p, n, s') && Basics(s)
    requires s'.marker == s.marker && Raises(s'.Pc(p)) <= Raises(s.Pc(p))
    ensures DirsFootprint(s, p, s') && RecordsFootprint(s, p, s') && ProcsFootprint(s, p, s')
    ensures s'.abandoned <= s'.procs.Keys && 0 !in s'.procs
  {
    forall x | x in s.abandoned && x !in s'.abandoned ensures x in s.Live(n) {
      assert x in s.abandoned - s'.abandoned;
    }
  }

  lemma RepidGood(s: State, p: Proc, n: Name, s': State, pc: PC)
    requires Ready(s, p) && Repids(s, p, n, s') && KeepsLocks(s, p, s', pc)
    requires s' == s.(dirs := s'.dirs, abandoned := s'.abandoned, pcs := s'.pcs)
    requires NameOk(s', n) && PcOk(s', pc)
    requires Raises(pc) <= Raises(s.Pc(p)) && Flight(pc) == {}
    ensures Good(s, p, s')
  {
    LocksKept(s, p, s', pc);
    FlightKept(s, p, s');
    DevicesKept(s, p, s');
    RepidFootprint(s, p, n, s');
    RepidNames(s, p, n, s');
  }

  lemma AdoptGood(s: State, p: Proc, op: Op, n: Name, x: Pid, s': State)
    requires Ready(s, p) && s.Pc(p) == InOp(op, Entered) && !op.Create? && n == Loads(op)
    requires s.IsCommitted(n) && s.Live(n) == {x} && FoundRunning(Adopt(s, n, x), p, op, x, s')
    ensures Good(s, p, s')
  {
    assert s'.Live(n) == {x} && s'.Owned(n) == {x};
    RepidGood(s, p, n, s', s'.Pc(p));
  }

  lemma IdleFoundGood(s: State, p: Proc, op: Op)
    requires Ready(s, p) && s.Pc(p) == InOp(op, Entered) && !op.Create?
    requires s.IsCommitted(Loads(op)) && s.Live(Loads(op)) == {}
    ensures Good(s, p, To(s, p, op, AfterIdle(op)))
  {
    MoveGood(s, p, InOp(op, AfterIdle(op)));
  }

  lemma RunningFoundGood(s: State, p: Proc, op: Op, n: Name, s': State)
    requires Ready(s, p) && s.Pc(p) == InOp(op, Entered) && n == Loads(op)
    requires s.IsCommitted(n) && s.dirs[n].rec.pid in s.Live(n) && FoundRunning(s, p, op, s.dirs[n].rec.pid, s')
    ensures Good(s, p, s')
  {
    LeaveGood(s, p);
    if s' != Leave(s, p) {
      assert s.Holds(n, p) && NameOk(s, n);
      MoveGood(s, p, InOp(op, Stopping(s.dirs[n].rec.pid)));
    }
  }

  lemma ReconcileGood(s: State, p: Proc, op: Op, n: Name, s': State)
    requires Ready(s, p) && s.Pc(p) == InOp(op, Entered) && !op.Create? && n == Loads(op)
    requires s.IsCommitted(n) && ReconcileStep(s, p, op, n, s')
    ensures Good(s, p, s')
  {
    if s.Live(n) == {} {
      IdleFoundGood(s, p, op);
    } else if s.dirs[n].rec.pid in s.Live(n) {
      RunningFoundGood(s, p, op, n, s');
    } else {
      var x :| s.Live(n) == {x} && FoundRunning(Adopt(s, n, x), p, op, x, s');
      AdoptGood(s, p, op, n, x, s');
    }
  }

  lemma EnteredGood(s: State, p: Proc, op: Op, s': State)
    requires Ready(s, p) && s.Pc(p) == InOp(op, Entered) && EnteredStep(s, p, op, s')
    ensures Good(s, p, s')
  {
    if s' == Leave(s, p) {
      LeaveGood(s, p);
    } else if op.Create? {
      MoveGood(s, p, InOp(op, WantShared));
    } else if op.Rm? && s' == To(s, p, op, RmReap) {
      MoveGood(s, p, InOp(op, RmReap));
    } else {
      ReconcileGood(s, p, op, Loads(op), s');
    }
  }

  lemma StoppingGood(s: State, p: Proc, op: Op, x: Pid, s': State)
    requires Ready(s, p) && s.Pc(p) == InOp(op, Stopping(x)) && StoppingStep(s, p, op, x, s')
    ensures Good(s, p, s')
  {
    if s' == Leave(s, p) {
      LeaveGood(s, p);
    } else {
      assert s'.Owned(op.name) == {};
      QuietGood(s, p, s', InOp(op, Stopped));
    }
  }

  lemma ImagingGood(s: State, p: Proc, op: Op, relaunch: bool, s': State)
    requires Ready(s, p) && s.Pc(p) == InOp(op, Imaging(relaunch)) && ImagingStep(s, p, op, relaunch, s')
    ensures Good(s, p, s')
  {
    if s' == Leave(s, p) {
      LeaveGood(s, p);
    } else {
      MoveGood(s, p, InOp(op, LaunchNet));
    }
  }

  lemma StoppedGood(s: State, p: Proc, op: Op, s': State)
    requires Ready(s, p) && s.Pc(p) == InOp(op, Stopped) && OpStep(s, p, op, Stopped, s')
    ensures Good(s, p, s')
  {
    assert s.Holds(op.name, p) && NameOk(s, op.name);
    if s' == Leave(s, p) {
      LeaveGood(s, p);
    } else if op.Rm? {
      RmStoppedGood(s, p, op, s');
    } else {
      ClearPidGood(s, p, op, s');
    }
  }

  lemma RmStoppedGood(s: State, p: Proc, op: Op, s': State)
    requires Ready(s, p) && s.Pc(p) == InOp(op, Stopped) && StoppedStep(s, p, op, s') && op.Rm? && s' != Leave(s, p)
    ensures Good(s, p, s')
  {
    if s.dirs[op.name].rec.owned {
      DropDevicesGood(s, p, op.name, s', InOp(op, RmMark));
    } else {
      MoveGood(s, p, InOp(op, RmMark));
    }
  }

  lemma ClearPidGood(s: State, p: Proc, op: Op, s': State)
    requires Ready(s, p) && s.Pc(p) == InOp(op, Stopped) && StoppedStep(s, p, op, s') && !op.Rm? && s' != Leave(s, p)
    ensures Good(s, p, s')
  {
    assert NameOk(s, op.name);
    assert s'.Owned(op.name) == {} && s'.Live(op.name) == s.Live(op.name);
    RepidGood(s, p, op.name, s', s'.Pc(p));
  }

  /** Deleting the devices of a record the process has locked. */
  lemma DropDevicesGood(s: State, p: Proc, n: Name, s': State, pc: PC)
    requires Ready(s, p) && s.Holds(n, p) && s.IsCommitted(n)
    requires s' == s.(devices := s.DevicesExcept(s.dirs[n].rec.vmid)).At(p, pc) && KeepsLocks(s, p, s', pc)
    requires Raises(pc) <= Raises(s.Pc(p)) && Flight(pc) == {}
    requires PcOk(s', pc)
    ensures Good(s, p, s')
  {
    LocksKept(s, p, s', pc);
    DirsKept(s, p, s');
    FlightKept(s, p, s');
    ShrinkKeeps(s, p, s');
    forall d | d in s.devices && d !in s'.devices ensures MayRemove(s, p, d.vmid) {
      assert OwnRecord(s, p, n, d.vmid);
    }
    forall m | s.Holds(m, p) ensures NameOk(s', m) {
      ShrinkKeepsName(s, s', m);
    }
  }

  lemma RmGood(s: State, p: Proc, op: Op, at: Point, s': State)
    requires Ready(s, p) && s.Pc(p) == InOp(op, at) && (at.RmReap? || at.RmMark?) && RmStep(s, p, op, at, s')
    ensures Good(s, p, s')
  {
    if s' == Leave(s, p) {
      LeaveGood(s, p);
    } else if at.RmReap? {
      QuietGood(s, p, s', InOp(op, RmMark));
    } else {
      QuietGood(s, p, s', InOp(op, RmRemove));
    }
  }

  /** Removing a directory, or just its record, once nothing the process owns runs in it. */
  lemma RemoveGood(s: State, p: Proc, n: Name, s': State, pc: PC)
    requires Ready(s, p) && s.Holds(n, p) && KeepsLocks(s, p, s', pc) && ProcsShrink(s, s')
    requires s' == s.(dirs := s'.dirs, pcs := s'.pcs)
    requires s'.dirs == s.dirs - {n} || (s.IsCommitted(n) && s'.dirs == s.dirs[n := Bare])
    requires s.Owned(n) == {}
    requires s.marker || (n in Raises(s.Pc(p)) && Raises(pc) <= Raises(s.Pc(p)))
    requires Flight(pc) == {} || (Flight(pc) <= Flight(s.Pc(p)) && pc.op == s.Pc(p).op)
    requires PcOk(s', pc)
    ensures Good(s, p, s')
  {
    RemoveFootprint(s, p, n, s');
    LocksKept(s, p, s', pc);
    FlightKept(s, p, s');
    DevicesKept(s, p, s');
    ShrinkKeeps(s, p, s');
    forall m | s.Holds(m, p) ensures NameOk(s', m) {
      ShrinkKeepsName(s, s', m);
    }
  }

  lemma RemoveFootprint(s: State, p: Proc, n: Name, s': State)
    requires s.Holds(n, p) && s'.marker == s.marker
    requires s'.dirs == s.dirs - {n} || (s.IsCommitted(n) && s'.dirs == s.dirs[n := Bare])
    requires s.marker || (n in Raises(s.Pc(p)) && Raises(s'.Pc(p)) <= Raises(s.Pc(p)))
    ensures DirsFootprint(s, p, s') && RecordsFootprint(s, p, s')
  {
  }

  lemma RmRemoveGood(s: State, p: Proc, op: Op, s': State)
    requires Ready(s, p) && s.Pc(p) == InOp(op, RmRemove) && RmStep(s, p, op, RmRemove, s')
    ensures Good(s, p, s')
  {
    if s' == Leave(s, p) {
      LeaveGood(s, p);
    } else {
      RemoveGood(s, p, op.name, s', s'.Pc(p));
    }
  }

  // ---- create and clone ----------------------------------------------------------------------------------------

  lemma ResetGood(s: State, p: Proc, op: Op, phase: ResetPhase)
    requires Ready(s, p) && s.Pc(p) == InOp(op, Laying(Reset(phase)))
    ensures Good(s, p, To(ResetEffect(s, op.name, phase), p, op, Laying(AfterReset(phase))))
  {
    var n := op.name;
    var pc := InOp(op, Laying(AfterReset(phase)));
    var s' := To(ResetEffect(s, n, phase), p, op, Laying(AfterReset(phase)));
    assert s.Holds(n, p) && NameOk(s, n);
    if phase.Remove? {
      assert SourceReady(s', op) by { assert op.Clone? ==> op.src != n; }
      RemoveGood(s, p, n, s', pc);
    } else {
      assert s'.IsBare(n);
      ShrinkKeeps(s, p, s');
      QuietGood(s, p, s', pc);
    }
  }

  lemma MakeDirFootprint(s: State, p: Proc, op: Op, s': State)
    requires s.Holds(op.name, p) && op.name !in s.dirs && p in s.gcShared && s'.Pc(p) == InOp(op, Laying(Build))
    requires s'.dirs == s.dirs[op.name := Bare] && s'.marker == s.marker
    ensures DirsFootprint(s, p, s') && RecordsFootprint(s, p, s')
  {
  }

  /** mkdir under the shared provisioning lock. */
  lemma MakeDirGood(s: State, p: Proc, op: Op)
    requires Ready(s, p) && s.Pc(p) == InOp(op, Laying(MakeDir))
    ensures Good(s, p, To(s.(dirs := s.dirs[op.name := Bare]), p, op, Laying(Build)))
  {
    var s' := To(s.(dirs := s.dirs[op.name := Bare]), p, op, Laying(Build));
    assert s.Holds(op.name, p);
    MakeDirFootprint(s, p, op, s');
    LocksKept(s, p, s', InOp(op, Laying(Build)));
    FlightKept(s, p, s');
    DevicesKept(s, p, s');
    ShrinkKeeps(s, p, s');
    forall n | s.Holds(n, p) ensures NameOk(s', n) {
      ShrinkKeepsName(s, s', n);
    }
  }

  lemma GenerateGood(s: State, p: Proc, op: Op, v: Vmid)
    requires Ready(s, p) && s.Pc(p) == InOp(op, Laying(Build)) && v !in s.usedIds
    requires forall d :: d in s.devices ==> d.vmid in s.usedIds
    ensures Good(s, p, To(s.(usedIds := s.usedIds + {v}), p, op, Making(v, Images)))
  {
    var s' := To(s.(usedIds := s.usedIds + {v}), p, op, Making(v, Images));
    LocksKept(s, p, s', InOp(op, Making(v, Images)));
    DirsKept(s, p, s');
    DevicesKept(s, p, s');
    ShrinkKeeps(s, p, s');
    forall n | s.Holds(n, p) ensures NameOk(s', n) {
      ShrinkKeepsName(s, s', n);
    }
  }

  lemma LayGood(s: State, p: Proc, op: Op, lay: Lay, s': State)
    requires Ready(s, p) && s.Pc(p) == InOp(op, Laying(lay)) && LayStep(s, p, op, lay, s')
    requires forall d :: d in s.devices ==> d.vmid in s.usedIds
    ensures Good(s, p, s')
  {
    LeaveGood(s, p);
    if s' != Leave(s, p) {
      match lay
      case Scaffold => MoveGood(s, p, s'.Pc(p));
      case Reset(phase) => ResetGood(s, p, op, phase);
      case MakeDir => MakeDirGood(s, p, op);
      case Build => BuildGood(s, p, op, s');
    }
  }

  lemma BuildGood(s: State, p: Proc, op: Op, s': State)
    requires Ready(s, p) && s.Pc(p) == InOp(op, Laying(Build)) && LayStep(s, p, op, Build, s') && s' != Leave(s, p)
    requires forall d :: d in s.devices ==> d.vmid in s.usedIds
    ensures Good(s, p, s')
  {
    if s' == Leave(s.(dirs := s.dirs - {op.name}), p) {
      BuildFailsGood(s, p, op);
    } else {
      var v :| v !in s.usedIds && s' == To(s.(usedIds := s.usedIds + {v}), p, op, Making(v, Images));
      GenerateGood(s, p, op, v);
    }
  }

  lemma BuildFailsGood(s: State, p: Proc, op: Op)
    requires Ready(s, p) && s.Pc(p) == InOp(op, Laying(Build))
    ensures Good(s, p, Leave(s.(dirs := s.dirs - {op.name}), p))
  {
    assert s.Holds(op.name, p) && NameOk(s, op.name);
    RemoveGood(s, p, op.name, Leave(s.(dirs := s.dirs - {op.name}), p), Exit(VMs(op), true, false));
  }

  /** A process starts under a name whose lock its parent holds. */
  lemma SpawnedGood(s: State, p: Proc, x: Pid, job: Job, s': State, pc: PC)
    requires Ready(s, p) && x !in s.procs && x > 0 && (job.Qemu? || job.Nbd?) && s.Holds(job.vm, p)
    requires s' == s.(procs := s.procs[x := job]).At(p, pc) && KeepsLocks(s, p, s', pc)
    requires s.marker || Raises(pc) <= Raises(s.Pc(p))
    requires Flight(pc) == {} || (Flight(pc) <= Flight(s.Pc(p)) && pc.op == s.Pc(p).op)
    requires job.Qemu? ==> s.IsCommitted(job.vm) && s.Owned(job.vm) == {} && s.dirs[job.vm].rec.pid !in s.Live(job.vm)
    requires PcOk(s', pc)
    ensures Good(s, p, s')
  {
    LocksKept(s, p, s', pc);
    DirsKept(s, p, s');
    FlightKept(s, p, s');
    DevicesKept(s, p, s');
    forall n | s.Holds(n, p) ensures NameOk(s', n) { SpawnKeepsName(s, x, job, s', n); }
  }

  lemma SpawnKeepsName(s: State, x: Pid, job: Job, s': State, n: Name)
    requires Basics(s) && NameOk(s, n) && x !in s.procs && (job.Qemu? || job.Nbd?)
    requires s'.procs == s.procs[x := job] && s'.dirs == s.dirs && s'.abandoned == s.abandoned
    requires job.Qemu? ==> s.IsCommitted(job.vm) && s.Owned(job.vm) == {} && s.dirs[job.vm].rec.pid !in s.Live(job.vm)
    ensures NameOk(s', n)
  {
    assert s'.Live(n) == if job == Qemu(n) then s.Live(n) + {x} else s.Live(n);
    assert s'.Owned(n) == if job == Qemu(n) then {x} else s.Owned(n);
  }

  lemma AttachGood(s: State, p: Proc, op: Op, v: Vmid, x: Pid)
    requires Ready(s, p) && s.Pc(p) == InOp(op, Making(v, Attach)) && x !in s.procs && x > 0
    ensures Good(s, p, To(s.(procs := s.procs[x := Nbd(op.name)]), p, op, Making(v, Attached)))
  {
    var s' := To(s.(procs := s.procs[x := Nbd(op.name)]), p, op, Making(v, Attached));
    assert op.Clone? ==> s'.Live(op.src) == s.Live(op.src);
    SpawnedGood(s, p, x, Nbd(op.name), s', InOp(op, Making(v, Attached)));
  }

  lemma AttachedGood(s: State, p: Proc, op: Op, v: Vmid)
    requires Ready(s, p) && s.Pc(p) == InOp(op, Making(v, Attached))
    ensures Good(s, p, To(s.Without(s.Helpers(op.name)).(lease := None), p, op, Making(v, NetMark)))
  {
    var s' := To(s.Without(s.Helpers(op.name)).(lease := None), p, op, Making(v, NetMark));
    SideLocksOk(s, p, s', InOp(op, Making(v, NetMark)));
    DirsKept(s, p, s');
    FlightKept(s, p, s');
    DevicesKept(s, p, s');
    ShrinkKeeps(s, p, s');
    forall n | s.Holds(n, p) ensures NameOk(s', n) {
      ShrinkKeepsName(s, s', n);
    }
  }

  /** Creating or deleting devices under an id the process has in flight. */
  lemma FlightDevicesGood(s: State, p: Proc, op: Op, v: Vmid, s': State, pc: PC)
    requires Ready(s, p) && s.Pc(p).InOp? && s.Pc(p).op == op && Flight(s.Pc(p)) == {v} && KeepsLocks(s, p, s', pc)
    requires s' == s.(devices := s'.devices, pcs := s'.pcs) && s.marker
    requires forall d :: d in s.devices && d !in s'.devices ==> d.vmid == v
    requires forall d :: d in s'.devices && d !in s.devices ==> d.vmid == v && Shares(s.Pc(p)) && s.IsBare(op.name)
    requires Flight(pc) == {v} && pc.op == op
    requires PcOk(s', pc)
    ensures Good(s, p, s')
  {
    LocksKept(s, p, s', pc);
    DirsKept(s, p, s');
    FlightKept(s, p, s');
    ShrinkKeeps(s, p, s');
    forall n | s.Holds(n, p) ensures NameOk(s', n) {
      ShrinkKeepsName(s, s', n);
    }
  }

  lemma CommitGood(s: State, p: Proc, op: Op, v: Vmid, owned: bool, pc: PC)
    requires Ready(s, p) && s.Pc(p) == InOp(op, Making(v, Save(owned)))
    requires pc == if op.Create? && op.run then InOp(op, Saved) else Exit(VMs(op), true, false)
    ensures Good(s, p, s.Commit(op.name, Record(v, 0, owned)).At(p, pc))
  {
    var n := op.name;
    var s' := s.Commit(n, Record(v, 0, owned)).At(p, pc);
    assert s.Holds(n, p) && NameOk(s, n);
    LocksKept(s, p, s', pc);
    FlightKept(s, p, s');
    DevicesKept(s, p, s');
    ShrinkKeeps(s, p, s');
    assert RecordsFootprint(s, p, s') by {
      forall m | s'.IsCommitted(m) && m == n ensures CommitsFlight(s, p, s', m) {
      }
    }
    forall m | s.Holds(m, p) ensures NameOk(s', m) {
      ShrinkKeepsName(s, s', m);
    }
  }

  lemma NetMarkGood(s: State, p: Proc, op: Op, v: Vmid)
    requires Ready(s, p) && s.Pc(p) == InOp(op, Making(v, NetMark))
    ensures Good(s, p, To(s.(marker := true), p, op, Making(v, NetPrepare)))
  {
    QuietGood(s, p, To(s.(marker := true), p, op, Making(v, NetPrepare)), InOp(op, Making(v, NetPrepare)));
  }

  lemma PrepareGood(s: State, p: Proc, op: Op, v: Vmid)
    requires Ready(s, p) && s.Pc(p) == InOp(op, Making(v, NetPrepare))
    ensures Good(s, p, To(s.(devices := s.devices + {Device(v, Netns)}), p, op, Making(v, NetAdd)))
  {
    var s' := To(s.(devices := s.devices + {Device(v, Netns)}), p, op, Making(v, NetAdd));
    FlightDevicesGood(s, p, op, v, s', InOp(op, Making(v, NetAdd)));
  }

  lemma WantLeaseGood(s: State, p: Proc, op: Op, v: Vmid)
    requires Ready(s, p) && s.Pc(p) == InOp(op, Making(v, WantLease)) && s.lease.None?
    ensures Good(s, p, To(s.(lease := Some(p)), p, op, Making(v, Attach)))
  {
    var s' := To(s.(lease := Some(p)), p, op, Making(v, Attach));
    SideLocksOk(s, p, s', InOp(op, Making(v, Attach)));
    LockStepGood(s, p, s', InOp(op, Making(v, Attach)));
  }

  lemma LeasingGood(s: State, p: Proc, op: Op, v: Vmid, make: Make, s': State)
    requires Ready(s, p) && s.Pc(p) == InOp(op, Making(v, make)) && MakeStep(s, p, op, v, make, s')
    requires (make.Images? || make.WantLease? || make.Attach?) && s' != Undo(s, p, op, v, false, true)
    ensures Good(s, p, s')
  {
    match make
    case Images => MoveGood(s, p, s'.Pc(p));
    case WantLease => WantLeaseGood(s, p, op, v);
    case Attach =>
      var x :| x !in s.procs && x > 0 && s' == To(s.(procs := s.procs[x := Nbd(op.name)]), p, op, Making(v, Attached));
      AttachGood(s, p, op, v, x);
  }

  lemma PreparingGood(s: State, p: Proc, op: Op, v: Vmid, s': State)
    requires Ready(s, p) && s.Pc(p) == InOp(op, Making(v, NetPrepare)) && MakeStep(s, p, op, v, NetPrepare, s')
    requires s' != Undo(s, p, op, v, false, true)
    ensures Good(s, p, s')
  {
    if s' == To(s, p, op, Making(v, Save(false))) || s' == To(s, p, op, Making(v, NetAdd)) { MoveGood(s, p, s'.Pc(p)); }
    else { PrepareGood(s, p, op, v); }
  }

  lemma MakeGood(s: State, p: Proc, op: Op, v: Vmid, make: Make, s': State)
    requires Ready(s, p) && s.Pc(p) == InOp(op, Making(v, make)) && MakeStep(s, p, op, v, make, s')
    requires !make.NetAdd? && !make.NetUndo? && !make.Save?
    ensures Good(s, p, s')
  {
    UndoGood(s, p, op, v, make, false, true);
    if s' != Undo(s, p, op, v, false, true) {
      match make
      case Attached => AttachedGood(s, p, op, v);
      case NetMark => NetMarkGood(s, p, op, v);
      case NetPrepare => PreparingGood(s, p, op, v, s');
      case _ => LeasingGood(s, p, op, v, make, s');
    }
  }

  lemma NetGood(s: State, p: Proc, op: Op, v: Vmid, make: Make, s': State)
    requires Ready(s, p) && s.Pc(p) == InOp(op, Making(v, make)) && MakeStep(s, p, op, v, make, s')
    requires make.NetAdd? || make.NetUndo? || make.Save?
    ensures Good(s, p, s')
  {
    match make
    case NetAdd =>
      if s' == To(s, p, op, Making(v, NetUndo)) { MoveGood(s, p, s'.Pc(p)); }
      else { FlightDevicesGood(s, p, op, v, s', InOp(op, Making(v, Save(true)))); }
    case NetUndo => NetUndoGood(s, p, op, v, s');
    case Save(owned) => SaveGood(s, p, op, v, owned, s');
  }

  lemma NetUndoGood(s: State, p: Proc, op: Op, v: Vmid, s': State)
    requires Ready(s, p) && s.Pc(p) == InOp(op, Making(v, NetUndo)) && MakeStep(s, p, op, v, NetUndo, s')
    ensures Good(s, p, s')
  {
    if s' == Undo(s, p, op, v, false, false) {
      UndoGood(s, p, op, v, NetUndo, false, false);
    } else {
      FlightDevicesGood(s, p, op, v, s', s'.Pc(p));
    }
  }

  lemma SaveGood(s: State, p: Proc, op: Op, v: Vmid, owned: bool, s': State)
    requires Ready(s, p) && s.Pc(p) == InOp(op, Making(v, Save(owned))) && MakeStep(s, p, op, v, Save(owned), s')
    ensures Good(s, p, s')
  {
    if s' == Undo(s, p, op, v, owned, true) {
      UndoGood(s, p, op, v, Save(owned), owned, true);
    } else {
      CommitGood(s, p, op, v, owned, s'.Pc(p));
    }
  }

  // ---- rollback and launch ---------------------------------------------------------------------------------------

  /** Killing processes of the name being rolled back. */
  lemma RollbackKillGood(s: State, p: Proc, op: Op, at: Point, xs: set<Pid>, to: Point)
    requires Ready(s, p) && s.Pc(p) == InOp(op, at) && at.Rollback? && to.Rollback?
    requires to == at.(phase := to.phase)
    requires (at.phase.StopQemu? && to.phase.Teardown? && {at.qemu} * s.Live(op.name) <= xs)
          || (at.phase.Reap? && to.phase.RemoveDir? && s.Live(op.name) + s.Helpers(op.name) <= xs)
    ensures Good(s, p, To(s.Without(xs), p, op, to))
  {
    var s' := To(s.Without(xs), p, op, to);
    ShrinkKeeps(s, p, s');
    assert RollbackOk(s', op, to);
    QuietGood(s, p, s', InOp(op, to));
  }

  lemma TeardownGood(s: State, p: Proc, op: Op, at: Point, s': State)
    requires Ready(s, p) && s.Pc(p) == InOp(op, at) && at.Rollback? && at.phase.Teardown?
    requires RollbackStep(s, p, op, at, s')
    ensures Good(s, p, s')
  {
    if s' == To(s.(devices := s.DevicesExcept(at.id)), p, op, at.(phase := Reap)) && at.tear {
      FlightDevicesGood(s, p, op, at.id, s', InOp(op, at.(phase := Reap)));
    } else {
      MoveGood(s, p, s'.Pc(p));
    }
  }

  lemma RollbackGood(s: State, p: Proc, op: Op, at: Point, s': State)
    requires Ready(s, p) && s.Pc(p) == InOp(op, at) && at.Rollback? && RollbackStep(s, p, op, at, s')
    ensures Good(s, p, s')
  {
    var n := op.name;
    match at.phase
    case Finished => LeaveGood(s, p);
    case Teardown => TeardownGood(s, p, op, at, s');
    case RemoveDir => RollbackRemoveGood(s, p, op, at, s');
    case StopQemu =>
      if s' == To(s, p, op, at.(clean := false, phase := Teardown)) {
        MoveGood(s, p, InOp(op, at.(clean := false, phase := Teardown)));
      } else {
        RollbackKillGood(s, p, op, at, {at.qemu} * s.Live(n), at.(phase := Teardown));
      }
    case Reap =>
      if s' == To(s, p, op, at.(clean := false, phase := RemoveDir)) {
        MoveGood(s, p, InOp(op, at.(clean := false, phase := RemoveDir)));
      } else {
        RollbackKillGood(s, p, op, at, s.Live(n) + s.Helpers(n), at.(phase := RemoveDir));
      }
  }

  lemma AbandonFootprint(s: State, p: Proc, n: Name, s': State)
    requires Basics(s) && s.Holds(n, p) && s'.procs == s.procs && s'.abandoned == s.abandoned + s.Live(n)
    ensures ProcsFootprint(s, p, s') && s'.abandoned <= s'.procs.Keys
    ensures s'.Live(n) == s.Live(n) && s'.Owned(n) == {}
    ensures forall m :: m != n ==> s'.Owned(m) == s.Owned(m)
  {
    forall m | m != n ensures s'.Owned(m) == s.Owned(m) {
      assert forall x :: x in s.Live(m) ==> x !in s.Live(n);
    }
  }

  /** The rollback's removal: a live qemu of the vanished record counts as abandoned from here on. */
  lemma RollbackRemoveGood(s: State, p: Proc, op: Op, at: Point, s': State)
    requires Ready(s, p) && s.Pc(p) == InOp(op, at) && at.Rollback? && at.phase.RemoveDir?
    requires RollbackStep(s, p, op, at, s')
    ensures Good(s, p, s')
  {
    var n := op.name;
    assert s.Holds(n, p);
    if s' == To(s, p, op, at.(clean := false, phase := Finished)) {
      MoveGood(s, p, InOp(op, at.(clean := false, phase := Finished)));
    } else {
      var to := if s'.dirs == s.dirs - {n} then at.(phase := Finished) else at;
      UnlinkGood(s, p, op, at, s', to);
    }
  }

  lemma UnlinkGood(s: State, p: Proc, op: Op, at: Point, s': State, to: Point)
    requires Ready(s, p) && s.Pc(p) == InOp(op, at) && at.Rollback? && at.phase.RemoveDir?
    requires to.Rollback? && to == at.(phase := to.phase) && s' == To(Abandon(s, op.name).(dirs := s'.dirs), p, op, to)
    requires (s'.dirs == s.dirs - {op.name} && to.phase.Finished?)
          || (s.IsCommitted(op.name) && s'.dirs == s.dirs[op.name := Bare] && to == at)
    ensures Good(s, p, s')
  {
    var n := op.name;
    assert s.Holds(n, p);
    LocksKept(s, p, s', InOp(op, to));
    FlightKept(s, p, s');
    DevicesKept(s, p, s');
    AbandonFootprint(s, p, n, s');
    UnlinkedIsOk(s, p, op, at, s', to);
    UnlinkKeepsNames(s, p, n, s');
  }

  lemma UnlinkedIsOk(s: State, p: Proc, op: Op, at: Point, s': State, to: Point)
    requires PcOk(s, s.Pc(p)) && s.Pc(p) == InOp(op, at) && at.Rollback? && at.phase.RemoveDir?
    requires to.Rollback? && to == at.(phase := to.phase) && s' == To(Abandon(s, op.name).(dirs := s'.dirs), p, op, to)
    requires (s'.dirs == s.dirs - {op.name} && to.phase.Finished?)
          || (s.IsCommitted(op.name) && s'.dirs == s.dirs[op.name := Bare] && to == at)
    ensures RollbackOk(s', op, to)
  {
  }

  lemma UnlinkKeepsNames(s: State, p: Proc, n: Name, s': State)
    requires (forall m :: s.Holds(m, p) ==> NameOk(s, m)) && s'.procs == s.procs && s'.abandoned == s.abandoned + s.Live(n)
    requires s'.Live(n) == s.Live(n) && s'.Owned(n) == {} && forall m :: m != n ==> s'.Owned(m) == s.Owned(m)
    requires !s'.IsCommitted(n) && forall m :: m != n ==> (s'.IsCommitted(m) <==> s.IsCommitted(m))
    requires forall m :: m != n && m in s.dirs && m in s'.dirs ==> s'.dirs[m] == s.dirs[m]
    ensures forall m :: s.Holds(m, p) ==> NameOk(s', m)
  {
    forall m | s.Holds(m, p) ensures NameOk(s', m) { assert NameOk(s, m); }
  }

  lemma LaunchFailedGood(s: State, p: Proc, op: Op, at: Point, s1: State, pid: Pid)
    requires Ready(s, p) && s.Pc(p) == InOp(op, at) && (at.LaunchNet? || at.LaunchSpawn? || at.Launched?)
    requires s1 == s || (exists xs :: s1 == s.Without(xs))
    requires forall d :: d in s.devices && d.vmid == s.dirs[op.name].rec.vmid ==> s.dirs[op.name].rec.owned
    ensures Good(s, p, LaunchFailed(s1, p, op, pid))
  {
    var n := op.name;
    var s' := LaunchFailed(s1, p, op, pid);
    assert s.Holds(n, p);
    LocksKept(s, p, s', s'.Pc(p));
    DirsKept(s, p, s');
    DevicesKept(s, p, s');
    ShrinkKeeps(s, p, s');
    assert OwnRecord(s, p, n, s.dirs[n].rec.vmid);
    assert FlightFootprint(s, p, s');
    forall m | s.Holds(m, p) ensures NameOk(s', m) {
      ShrinkKeepsName(s, s', m);
    }
  }

  lemma RecoverGood(s: State, p: Proc, op: Op, k: Kind)
    requires Ready(s, p) && s.Pc(p) == InOp(op, LaunchNet) && s.dirs[op.name].rec.owned
    ensures Good(s, p, To(s.(devices := s.devices + {Device(s.dirs[op.name].rec.vmid, k)}), p, op, LaunchNet))
  {
    var n := op.name;
    var v := s.dirs[n].rec.vmid;
    var s' := To(s.(devices := s.devices + {Device(v, k)}), p, op, LaunchNet);
    assert s.Holds(n, p) && OwnRecord(s, p, n, v);
    LocksKept(s, p, s', InOp(op, LaunchNet));
    DirsKept(s, p, s');
    FlightKept(s, p, s');
    ShrinkKeeps(s, p, s');
    forall m | s.Holds(m, p) ensures NameOk(s', m) {
      ShrinkKeepsName(s, s', m);
    }
  }

  lemma SpawnGood(s: State, p: Proc, op: Op, x: Pid)
    requires Ready(s, p) && s.Pc(p) == InOp(op, LaunchSpawn) && x !in s.procs && x > 0
    ensures Good(s, p, To(s.(procs := s.procs[x := Qemu(op.name)]), p, op, Launched(x)))
  {
    var n := op.name;
    var s' := To(s.(procs := s.procs[x := Qemu(n)]), p, op, Launched(x));
    assert s.Holds(n, p);
    assert s'.Live(n) == s.Live(n) + {x};
    assert s'.Owned(n) == {x};
    SpawnedGood(s, p, x, Qemu(n), s', InOp(op, Launched(x)));
  }

  /** The last record write of a launch names the one live qemu. */
  lemma RecordPidGood(s: State, p: Proc, op: Op, x: Pid)
    requires Ready(s, p) && s.Pc(p) == InOp(op, Launched(x))
    ensures Good(s, p, Leave(s.Commit(op.name, s.dirs[op.name].rec.(pid := x)), p))
  {
    var n := op.name;
    var s' := Leave(s.Commit(n, s.dirs[n].rec.(pid := x)), p);
    assert s.Holds(n, p) && NameOk(s, n);
    assert s'.Live(n) == s.Live(n) && s'.Owned(n) == s.Owned(n);
    RepidGood(s, p, n, s', s'.Pc(p));
  }

  lemma LaunchGood(s: State, p: Proc, op: Op, at: Point, s': State)
    requires Ready(s, p) && s.Pc(p) == InOp(op, at) && OpStep(s, p, op, at, s')
    requires at.LaunchNet? || at.LaunchSpawn? || at.Launched?
    requires forall d :: d in s.devices && d.vmid == s.dirs[op.name].rec.vmid ==> s.dirs[op.name].rec.owned
    ensures Good(s, p, s')
  {
    var n := op.name;
    if s' == LaunchFailed(s, p, op, 0) {
      LaunchFailedGood(s, p, op, at, s, 0);
    } else {
      match at
      case LaunchNet =>
        if s' == To(s, p, op, LaunchSpawn) {
          MoveGood(s, p, InOp(op, LaunchSpawn));
        } else {
          var k :| s' == To(s.(devices := s.devices + {Device(s.dirs[n].rec.vmid, k)}), p, op, LaunchNet);
          RecoverGood(s, p, op, k);
        }
      case LaunchSpawn =>
        var x :| x !in s.procs && x > 0 && s' == To(s.(procs := s.procs[x := Qemu(n)]), p, op, Launched(x));
        SpawnGood(s, p, op, x);
      case Launched(x) =>
        if s' == LaunchFailed(s, p, op, x) {
          LaunchFailedGood(s, p, op, at, s, x);
        } else if s' == LaunchFailed(s.Without({x} * s.Live(n)), p, op, x) {
          LaunchFailedGood(s, p, op, at, s.Without({x} * s.Live(n)), x);
        } else {
          RecordPidGood(s, p, op, x);
        }
    }
  }
}
