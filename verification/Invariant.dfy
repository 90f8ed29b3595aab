/** What every step keeps, split into what one process relies on, what holds of one name, and what is global. */
module Invariant {
  import opened Wrappers
  import opened Text
  import opened Host
  import opened Protocol

  // ---- what a process relies on -----------------------------------------------------------------------------------

  /** The lock table says of p exactly what p's program point says. */
  ghost predicate LockOk(s: State, p: Proc)
  {
    var pc := s.Pc(p);
    && (forall n :: n in HeldVMs(pc) <==> s.Holds(n, p))
    && (p in s.gcShared <==> Shares(pc))
    && (s.gcExcl == Some(p) <==> Excludes(pc))
    && (s.lease == Some(p) <==> Leases(pc))
  }

  predicate Provisions(op: Op) { op.Create? || op.Clone? }

  predicate Launches(op: Op) { (op.Create? && op.run) || op.Start? || op.Restore? }

  predicate Stops(op: Op) { op.Stop? || op.Rm? || op.Restore? }

  /** A clone's source is committed and has no live qemu. */
  ghost predicate SourceReady(s: State, op: Op)
  {
    Provisions(op) && (op.Clone? ==> s.IsCommitted(op.src) && s.Live(op.src) == {})
  }

  ghost predicate NoDevice(s: State, v: Vmid) { forall d :: d in s.devices ==> d.vmid != v }

  ghost predicate MakeOk(s: State, v: Vmid, make: Make)
  {
    match make
    case NetPrepare => s.marker && NoDevice(s, v)
    case NetAdd => s.marker
    case NetUndo => s.marker
    case Save(owned) => s.marker && (if owned then Device(v, Tap) in s.devices else NoDevice(s, v))
    case _ => NoDevice(s, v)
  }

  /** A directory being reset has no record and no live qemu; its servers go first, the marker stands before it goes. */
  ghost predicate Resettable(s: State, n: Name, phase: ResetPhase)
  {
    && s.IsBare(n) && s.Live(n) == {} && (!phase.KillNbd? ==> s.Helpers(n) == {}) && (phase.Remove? ==> s.marker)
  }

  ghost predicate LayOk(s: State, n: Name, lay: Lay)
  {
    match lay
    case Scaffold => true
    case Reset(phase) => Resettable(s, n, phase)
    case MakeDir => n !in s.dirs
    case Build => s.IsBare(n)
  }

  ghost predicate RollbackOk(s: State, op: Op, at: Point)
    requires at.Rollback?
  {
    var n := op.name;
    && Provisions(op)
    && (at.phase != Finished ==> n in s.dirs)
    && (s.IsCommitted(n) ==> !at.shared && s.dirs[n].rec.vmid == at.id)
    && (!at.shared ==> op.Create? && op.run)
    && (!at.shared || at.tear ==> s.marker)
    && (at.clean && (!at.tear || !(at.phase.StopQemu? || at.phase.Teardown?)) ==> NoDevice(s, at.id))
    && (at.clean && !at.phase.StopQemu? ==> at.qemu !in s.Live(n))
    && (at.clean && (at.phase.RemoveDir? || at.phase.Finished?) ==> s.Live(n) == {} && s.Helpers(n) == {})
    && (at.clean && at.phase.Finished? ==> n !in s.dirs)
  }

  /** A record is committed, and neither it nor anyone else names a live qemu. */
  ghost predicate Launchable(s: State, op: Op)
  {
    && Launches(op) && s.IsCommitted(op.name) && (op.Create? ==> s.marker)
    && s.Owned(op.name) == {} && s.dirs[op.name].rec.pid !in s.Live(op.name)
  }

  ghost predicate PointOk(s: State, op: Op, at: Point)
  {
    var n := op.name;
    match at
    case Entered => true
    case WantShared => SourceReady(s, op)
    case Laying(lay) => SourceReady(s, op) && LayOk(s, n, lay)
    case Making(v, make) => SourceReady(s, op) && s.IsBare(n) && MakeOk(s, v, make)
    case Saved => Launchable(s, op) && op.Create?
    case Rollback(_, _, _, _, _, _) => RollbackOk(s, op, at)
    case LaunchNet => Launchable(s, op)
    case LaunchSpawn => Launchable(s, op)
    case Launched(x) =>
      && Launches(op) && s.IsCommitted(n) && (op.Create? ==> s.marker)
      && s.Owned(n) <= {x} && (x in s.Live(n) ==> x in s.Owned(n)) && s.dirs[n].rec.pid !in s.Live(n) - {x}
    case Stopping(x) => Stops(op) && s.IsCommitted(n) && s.Owned(n) <= {x} && (x == 0 || s.dirs[n].rec.pid == x)
    case Stopped => Stops(op) && s.IsCommitted(n) && s.Owned(n) == {}
    case RmReap => op.Rm?
    case RmMark => op.Rm? && s.Owned(n) == {}
    case RmRemove => op.Rm? && s.Owned(n) == {} && s.marker
    case Imaging(relaunch) =>
      && (op.Snapshot? || op.Restore?) && s.IsCommitted(n) && s.Owned(n) == {}
      && (if relaunch then op.Restore? && s.dirs[n].rec.pid == 0 else s.Live(n) == {})
  }

  ghost predicate AllCommitted(s: State, but: set<Name>)
  {
    forall n :: n in s.dirs ==> s.dirs[n].Committed? || n in but
  }

  ghost predicate ReadSoFar(s: State, listed: set<Name>, todo: set<Name>, ids: set<Vmid>, strays: set<Name>)
  {
    && todo <= listed && strays <= listed && s.dirs.Keys <= listed
    && (forall n :: n in listed - todo ==>
          if s.IsCommitted(n) then s.dirs[n].rec.vmid in ids && n !in strays else n in strays)
    && (forall n :: n in strays ==> !s.IsCommitted(n))
    && ids <= s.RecordIds()
  }

  /** With every VM locked, the sweep's ownership snapshot is exact. */
  ghost predicate SnapshotOk(s: State, listed: set<Name>, pending: set<Name>, ids: set<Vmid>, reg: bool, ok: bool)
  {
    && s.dirs.Keys <= listed && pending <= listed
    && ids == s.RecordIds()
    && (forall n :: n in pending ==> !s.IsCommitted(n))
    && (ok ==> AllCommitted(s, pending))
    && (!reg ==> s.devices == {})
  }

  ghost predicate SweepOk(s: State, sw: Sweep)
  {
    match sw
    case List => true
    case Lock(listed, todo) => s.dirs.Keys <= listed && todo <= listed
    case Read(listed, todo, ids, strays, reg) => ReadSoFar(s, listed, todo, ids, strays) && (!reg ==> s.devices == {})
    case Stray(listed, todo, ids, reg, ok) => SnapshotOk(s, listed, todo, ids, reg, ok)
    case ResetStray(listed, todo, ids, reg, ok, n, phase) =>
      SnapshotOk(s, listed, todo + {n}, ids, reg, ok) && Resettable(s, n, phase)
    case Net(listed, ids, reg, ok) => SnapshotOk(s, listed, {}, ids, reg, ok)
    case Done(listed, ok) =>
      && s.dirs.Keys <= listed
      && (ok ==> AllCommitted(s, {}) && forall d :: d in s.devices ==> d.vmid in s.RecordIds())
  }

  ghost predicate PcOk(s: State, pc: PC)
  {
    match pc
    case Idle => true
    case WantVM(op, held) => held == {} || (op.Clone? && op.src != op.name && held == {NextLock(op, {})})
    case InOp(op, at) => PointOk(s, op, at)
    case InGc(sw) => SweepOk(s, sw)
    case Exit(_, _, _) => true
  }

  // ---- what holds of one name ---------------------------------------------------------------------------------------

  ghost predicate NameOk(s: State, n: Name)
  {
    && (s.Owned(n) != {} ==> s.IsCommitted(n))
    && (forall x, y :: x in s.Owned(n) && y in s.Owned(n) ==> x == y)
    && (s.IsCommitted(n) && s.dirs[n].rec.pid in s.Live(n) ==> s.dirs[n].rec.pid in s.Owned(n))
  }

  // ---- what is global -------------------------------------------------------------------------------------------------

  ghost predicate IdsOk(s: State)
  {
    && (forall n, m :: s.IsCommitted(n) && s.IsCommitted(m) && s.dirs[n].rec.vmid == s.dirs[m].rec.vmid ==> n == m)
    && (forall n :: s.IsCommitted(n) ==> s.dirs[n].rec.vmid in s.usedIds)
    && (forall d :: d in s.devices ==> d.vmid in s.usedIds)
    && (forall d, n :: d in s.devices && s.IsCommitted(n) && s.dirs[n].rec.vmid == d.vmid ==> s.dirs[n].rec.owned)
  }

  ghost predicate FlightOk(s: State, p: Proc)
  {
    forall v :: v in Flight(s.Pc(p)) ==>
      && v in s.usedIds
      && (forall n :: s.IsCommitted(n) && s.dirs[n].rec.vmid == v ==> n == s.Pc(p).op.name)
      && (forall q :: q != p ==> v !in Flight(s.Pc(q)))
  }

  /** The directory a create or clone is raising, until the marker stands for it. */
  function Raises(pc: PC): set<Name>
  {
    if pc.InOp? && (pc.at.Making? || (pc.at.Laying? && pc.at.lay.Build?) || (pc.at.Rollback? && pc.at.shared))
    then {pc.op.name} else {}
  }

  ghost predicate Anchored(s: State, n: Name)
  {
    n in s.dirs && forall p :: n !in Raises(s.Pc(p))
  }

  /** A device on the host is evidence the sweep can see: the marker, or a directory no running create may take away. */
  ghost predicate Evidence(s: State)
  {
    s.devices != {} ==> s.marker || exists n :: Anchored(s, n)
  }

  ghost predicate Basics(s: State)
  {
    && (s.gcExcl.Some? ==> s.gcShared == {})
    && 0 !in s.procs && s.abandoned <= s.procs.Keys
  }

  ghost predicate Inv(s: State)
  {
    && Basics(s)
    && (forall p :: LockOk(s, p))
    && (forall p :: PcOk(s, s.Pc(p)))
    && (forall p :: FlightOk(s, p))
    && (forall n :: NameOk(s, n))
    && IdsOk(s)
    && Evidence(s)
  }

  // ---- what one process may do to the others ----------------------------------------------------------------------------

  ghost predicate OwnRecord(s: State, q: Proc, n: Name, v: Vmid)
  {
    s.Holds(n, q) && s.IsCommitted(n) && s.dirs[n].rec.vmid == v
  }

  /** q may create devices: under an id it generated, with the marker set, or those of a record it has locked. */
  ghost predicate MayAdd(s: State, q: Proc, v: Vmid)
  {
    || (v in Flight(s.Pc(q)) && Shares(s.Pc(q)) && s.marker && s.IsBare(s.Pc(q).op.name))
    || (exists n :: OwnRecord(s, q, n, v) && s.dirs[n].rec.owned)
  }

  ghost predicate MayRemove(s: State, q: Proc, v: Vmid)
  {
    || v in Flight(s.Pc(q))
    || (exists n :: OwnRecord(s, q, n, v))
    || (s.gcExcl == Some(q) && v !in s.RecordIds())
  }

  ghost predicate LocksOfOthers(s: State, q: Proc, s': State)
  {
    forall p :: p != q ==>
      && s'.Pc(p) == s.Pc(p)
      && (forall n :: s.Holds(n, p) <==> s'.Holds(n, p))
      && (p in s.gcShared <==> p in s'.gcShared)
      && (s.gcExcl == Some(p) <==> s'.gcExcl == Some(p))
      && (s.lease == Some(p) <==> s'.lease == Some(p))
  }

  ghost predicate DirsFootprint(s: State, q: Proc, s': State)
  {
    && (forall n :: !s.Holds(n, q) ==> (n in s.dirs <==> n in s'.dirs) && (n in s.dirs ==> s.dirs[n] == s'.dirs[n]))
    && (forall n :: n in s'.dirs && n !in s.dirs ==> q in s.gcShared)
    && (forall n :: n in s.dirs && n !in s'.dirs ==> s'.marker || n in Raises(s.Pc(q)))
    && (forall n :: n in Raises(s'.Pc(q)) ==> s'.marker || n in Raises(s.Pc(q)) || n !in s.dirs)
    && (s.marker ==> s'.marker)
  }

  ghost predicate DevicesFootprint(s: State, q: Proc, s': State)
  {
    && (forall d :: d in s'.devices && d !in s.devices ==> MayAdd(s, q, d.vmid))
    && (forall d :: d in s.devices && d !in s'.devices ==> MayRemove(s, q, d.vmid))
  }

  ghost predicate FlightFootprint(s: State, q: Proc, s': State)
  {
    && s.usedIds <= s'.usedIds
    && (forall v :: v in Flight(s'.Pc(q)) ==>
          || (v in Flight(s.Pc(q)) && s'.Pc(q).op == s.Pc(q).op)
          || (v !in s.usedIds && v in s'.usedIds)
          || (Flight(s.Pc(q)) == {} && OwnRecord(s, q, s'.Pc(q).op.name, v)))
  }

  ghost predicate RecordsFootprint(s: State, q: Proc, s': State)
  {
    forall n :: s'.IsCommitted(n) ==>
      || (s.IsCommitted(n) && s'.dirs[n].rec.(pid := 0) == s.dirs[n].rec.(pid := 0))
      || CommitsFlight(s, q, s', n)
  }

  /** The record write of create or clone. */
  ghost predicate CommitsFlight(s: State, q: Proc, s': State, n: Name)
  {
    && s.IsBare(n) && s.Pc(q).InOp? && s.Pc(q).at.Making? && s.Pc(q).at.make.Save? && n == s.Pc(q).op.name
    && s'.dirs == s.dirs[n := Committed(Record(s.Pc(q).at.vmid, 0, s.Pc(q).at.make.owned))]
    && s'.devices == s.devices && Flight(s'.Pc(q)) == {}
  }

  ghost predicate ProcsFootprint(s: State, q: Proc, s': State)
  {
    && (forall x :: x in s.procs && x in s'.procs ==> s.procs[x] == s'.procs[x])
    && (forall x :: x in s'.procs && x !in s.procs ==>
          && x > 0 && x !in s'.abandoned
          && (s'.procs[x].Other? || s.Holds(s'.procs[x].vm, q)))
    && (forall x :: x in s.procs && x in s'.procs && (x in s.abandoned <==> x !in s'.abandoned) ==>
          s.procs[x].Qemu? && s.Holds(s.procs[x].vm, q))
  }

  ghost predicate Footprint(s: State, q: Proc, s': State)
  {
    && LocksOfOthers(s, q, s') && DirsFootprint(s, q, s') && DevicesFootprint(s, q, s')
    && FlightFootprint(s, q, s') && RecordsFootprint(s, q, s') && ProcsFootprint(s, q, s')
  }

  /** What each step has to establish for itself; the rest follows from its footprint. */
  ghost predicate OwnOk(s: State, q: Proc, s': State)
  {
    && Basics(s') && LockOk(s', q) && PcOk(s', s'.Pc(q))
    && (forall n :: s.Holds(n, q) ==> NameOk(s', n))
  }
}
