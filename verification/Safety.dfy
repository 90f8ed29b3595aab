/** What the protocol promises, for every interleaving of any number of processes, each killable at any step. */
module Safety {
  import opened Wrappers
  import opened Text
  import opened Host
  import opened Protocol
  import opened Invariant
  import opened Shapes
  import opened Preservation
  import opened Runs

  ghost predicate RunStep(tr: seq<State>, i: nat, p: Proc)
  {
    IsRun(tr) && i + 1 < |tr| && Step(tr[i], p, tr[i + 1])
  }

  // ---- mutual exclusion --------------------------------------------------------------------------------------------

  /** Two operations past their VM locks never share a VM, and a sweep never runs beside a create or clone. */
  lemma VMsExclusive(tr: seq<State>, i: nat, p: Proc, q: Proc)
    requires IsRun(tr) && i < |tr| && p != q
    ensures HeldVMs(tr[i].Pc(p)) !! HeldVMs(tr[i].Pc(q))
    ensures !(Excludes(tr[i].Pc(p)) && (Excludes(tr[i].Pc(q)) || Shares(tr[i].Pc(q))))
    ensures !(Leases(tr[i].Pc(p)) && Leases(tr[i].Pc(q)))
  {
    RunKeepsInv(tr, i);
    assert LockOk(tr[i], p) && LockOk(tr[i], q);
    assert forall n :: n in HeldVMs(tr[i].Pc(p)) ==> tr[i].Holds(n, p);
  }

  // ---- steps that lose nothing -------------------------------------------------------------------------------------

  /** No record is lost and no qemu is abandoned. */
  ghost predicate Gentle(s: State, s': State)
  {
    && (forall n :: s.IsCommitted(n) ==> s'.IsCommitted(n))
    && s'.abandoned <= s.abandoned
  }

  lemma ResetGentle(s: State, n: Name, phase: ResetPhase)
    requires !s.IsCommitted(n)
    ensures Gentle(s, ResetEffect(s, n, phase))
  {
  }

  lemma LayGentle(s: State, p: Proc, op: Op, lay: Lay, s': State)
    requires LayOk(s, op.name, lay) && LayStep(s, p, op, lay, s') && (lay.Scaffold? || !s.IsCommitted(op.name))
    ensures Gentle(s, s')
  {
    if s' != Leave(s, p) {
      match lay
      case Reset(phase) => ResetGentle(s, op.name, phase);
      case Scaffold => assert s'.dirs == s.dirs && s'.abandoned == s.abandoned;
      case MakeDir => assert s'.dirs == s.dirs[op.name := Bare] && s'.abandoned == s.abandoned;
      case Build => assert s'.dirs in {s.dirs, s.dirs - {op.name}} && s'.abandoned == s.abandoned;
    }
  }

  lemma SameDirsGentle(s: State, s': State)
    requires s'.dirs == s.dirs && s'.abandoned <= s.abandoned
    ensures Gentle(s, s')
  {
  }

  lemma SaveGentle(s: State, p: Proc, op: Op, v: Vmid, owned: bool, s': State)
    requires MakeStep(s, p, op, v, Save(owned), s')
    ensures Gentle(s, s')
  {
    assert s'.abandoned == s.abandoned && (s'.dirs == s.dirs || s'.dirs == s.dirs[op.name := Committed(Record(v, 0, owned))]);
  }

  lemma IdentityKeepsDirs(s: State, p: Proc, op: Op, v: Vmid, make: Make, s': State)
    requires MakeStep(s, p, op, v, make, s') && (make.Images? || make.WantLease? || make.Attach? || make.Attached?)
    ensures s'.dirs == s.dirs && s'.abandoned <= s.abandoned
  {
  }

  lemma NetKeepsDirs(s: State, p: Proc, op: Op, v: Vmid, make: Make, s': State)
    requires MakeStep(s, p, op, v, make, s') && (make.NetMark? || make.NetPrepare? || make.NetAdd? || make.NetUndo?)
    ensures s'.dirs == s.dirs && s'.abandoned <= s.abandoned
  {
  }

  lemma MakeGentle(s: State, p: Proc, op: Op, v: Vmid, make: Make, s': State)
    requires MakeStep(s, p, op, v, make, s')
    ensures Gentle(s, s')
  {
    if make.Save? {
      SaveGentle(s, p, op, v, make.owned, s');
    } else if make.Images? || make.WantLease? || make.Attach? || make.Attached? {
      IdentityKeepsDirs(s, p, op, v, make, s');
      SameDirsGentle(s, s');
    } else {
      NetKeepsDirs(s, p, op, v, make, s');
      SameDirsGentle(s, s');
    }
  }

  lemma LaunchingKeepsDirs(s: State, p: Proc, op: Op, at: Point, s': State)
    requires (at.LaunchNet? || at.LaunchSpawn?) && OpStep(s, p, op, at, s')
    ensures s'.dirs == s.dirs && s'.abandoned == s.abandoned
  {
  }

  lemma LaunchedGentle(s: State, p: Proc, op: Op, x: Pid, s': State)
    requires s.IsCommitted(op.name) && LaunchedStep(s, p, op, x, s')
    ensures Gentle(s, s')
  {
    assert s'.abandoned <= s.abandoned
        && (s'.dirs == s.dirs || s'.dirs == s.dirs[op.name := Committed(s.dirs[op.name].rec.(pid := x))]);
  }

  lemma LaunchGentle(s: State, p: Proc, op: Op, at: Point, s': State)
    requires (at.LaunchNet? || at.LaunchSpawn? || at.Launched?) && OpStep(s, p, op, at, s')
    ensures Gentle(s, s')
  {
    if at.Launched? {
      LaunchedGentle(s, p, op, at.spawned, s');
    } else {
      LaunchingKeepsDirs(s, p, op, at, s');
      SameDirsGentle(s, s');
    }
  }

  lemma StopGentle(s: State, p: Proc, op: Op, at: Point, s': State)
    requires (at.Stopping? || at.Stopped? || at.Imaging? || at.RmReap? || at.RmMark?) && OpStep(s, p, op, at, s')
    ensures Gentle(s, s')
  {
  }

  lemma AdoptGentle(s: State, n: Name, x: Pid)
    requires s.IsCommitted(n)
    ensures Gentle(s, Adopt(s, n, x))
  {
  }

  lemma FoundGentle(s: State, p: Proc, op: Op, x: Pid, s': State)
    requires FoundRunning(s, p, op, x, s')
    ensures s'.dirs == s.dirs && s'.abandoned == s.abandoned
  {
  }

  lemma ReconcileGentle(s: State, p: Proc, op: Op, n: Name, s': State)
    requires s.IsCommitted(n) && ReconcileStep(s, p, op, n, s')
    ensures Gentle(s, s')
  {
    var pid := s.dirs[n].rec.pid;
    if s.Live(n) == {} {
      SameDirsGentle(s, s');
    } else if pid in s.Live(n) {
      FoundGentle(s, p, op, pid, s');
      SameDirsGentle(s, s');
    } else {
      var x :| s.Live(n) == {x} && FoundRunning(Adopt(s, n, x), p, op, x, s');
      AdoptGentle(s, n, x);
      FoundGentle(Adopt(s, n, x), p, op, x, s');
    }
  }

  lemma EnteredGentle(s: State, p: Proc, op: Op, s': State)
    requires EnteredStep(s, p, op, s')
    ensures Gentle(s, s')
  {
    var n := Loads(op);
    if !op.Create? && s.IsCommitted(n) && ReconcileStep(s, p, op, n, s') {
      ReconcileGentle(s, p, op, n, s');
    }
  }

  lemma KillGentle(s: State, xs: set<Pid>)
    ensures Gentle(s, s.Without(xs))
  {
  }

  lemma RollbackKillGentle(s: State, p: Proc, op: Op, at: Point, s': State)
    requires at.Rollback? && (at.phase.StopQemu? || at.phase.Reap?) && RollbackStep(s, p, op, at, s')
    ensures Gentle(s, s')
  {
    var xs := if at.phase.StopQemu? then {at.qemu} * s.Live(op.name) else s.Live(op.name) + s.Helpers(op.name);
    KillGentle(s, xs);
    assert (s'.dirs == s.dirs && s'.abandoned == s.abandoned) || s'.(pcs := s.pcs) == s.Without(xs);
  }

  lemma RollbackGentle(s: State, p: Proc, op: Op, at: Point, s': State)
    requires at.Rollback? && !at.phase.RemoveDir? && RollbackStep(s, p, op, at, s')
    ensures Gentle(s, s')
  {
    if at.phase.StopQemu? || at.phase.Reap? {
      RollbackKillGentle(s, p, op, at, s');
    } else if at.phase.Finished? {
      assert s' == Leave(s, p);
    } else {
      TeardownGentle(s, p, op, at, s');
    }
  }

  lemma TeardownGentle(s: State, p: Proc, op: Op, at: Point, s': State)
    requires at.Rollback? && at.phase.Teardown? && RollbackStep(s, p, op, at, s')
    ensures Gentle(s, s')
  {
    assert s'.dirs == s.dirs && s'.abandoned == s.abandoned;
  }

  /** The two removals are the only steps of an operation that can lose anything. */
  predicate Removal(at: Point) { at.RmRemove? || (at.Rollback? && at.phase.RemoveDir?) }

  lemma OpGentle(s: State, p: Proc, op: Op, at: Point, s': State)
    requires PointOk(s, op, at) && OpStep(s, p, op, at, s') && !Removal(at)
    ensures Gentle(s, s')
  {
    match at
    case Laying(lay) => LayGentle(s, p, op, lay, s');
    case Making(v, make) => MakeGentle(s, p, op, v, make, s');
    case Rollback(_, _, _, _, _, _) => RollbackGentle(s, p, op, at, s');
    case LaunchNet => LaunchGentle(s, p, op, at, s');
    case LaunchSpawn => LaunchGentle(s, p, op, at, s');
    case Launched(_) => LaunchGentle(s, p, op, at, s');
    case Entered => EnteredGentle(s, p, op, s');
    case WantShared => assert s'.dirs == s.dirs && s'.abandoned == s.abandoned;
    case Saved => assert s'.dirs == s.dirs && s'.abandoned == s.abandoned;
    case _ => StopGentle(s, p, op, at, s');
  }

  /** What a sweep may change: directories without a record, and devices of no record. */
  ghost predicate SweepGentle(s: State, s': State)
  {
    && (forall n :: s.IsCommitted(n) ==> n in s'.dirs && s'.dirs[n] == s.dirs[n])
    && (forall d :: d in s.devices && d !in s'.devices ==> d.vmid !in s.RecordIds())
    && s'.abandoned <= s.abandoned
  }

  lemma SweepResetGentle(s: State, p: Proc, sw: Sweep, s': State)
    requires sw.ResetStray? && s.IsBare(sw.stray) && SweepResetStep(s, p, sw, s')
    ensures SweepGentle(s, s')
  {
    if s' != Sweeping(s, p, Stray(sw.listed, sw.todo, sw.ids, sw.reg, false)) {
      match sw.phase
      case KillNbd => assert s'.dirs == s.dirs && s'.devices == s.devices && s'.abandoned == s.abandoned - s.Helpers(sw.stray);
      case Mark => assert s'.dirs == s.dirs && s'.devices == s.devices && s'.abandoned == s.abandoned;
      case Remove => assert s'.dirs == s.dirs - {sw.stray} && s'.devices == s.devices && s'.abandoned == s.abandoned;
    }
  }

  lemma SweepNetGentle(s: State, p: Proc, sw: Sweep, s': State)
    requires sw.Net? && sw.ids == s.RecordIds() && SweepNetStep(s, p, sw, s')
    ensures SweepGentle(s, s')
  {
    assert s'.dirs == s.dirs && s'.abandoned == s.abandoned;
    forall d | d in s.devices && d !in s'.devices ensures d in Orphans(s, sw.ids) {
    }
  }

  lemma SweepStepGentle(s: State, p: Proc, sw: Sweep, s': State)
    requires SweepOk(s, sw) && SweepStep(s, p, sw, s')
    ensures SweepGentle(s, s')
  {
    if s' != Leave(s, p) {
      match sw
      case ResetStray(_, _, _, _, _, _, _) => SweepResetGentle(s, p, sw, s');
      case Net(_, _, _, _) => SweepNetGentle(s, p, sw, s');
      case _ => assert s'.dirs == s.dirs && s'.devices == s.devices && s'.abandoned == s.abandoned;
    }
  }

  /** Every step that is not one of the two removals is gentle. */
  lemma StepGentle(s: State, p: Proc, s': State)
    requires Inv(s) && Step(s, p, s') && !(s.Pc(p).InOp? && Removal(s.Pc(p).at))
    ensures Gentle(s, s')
  {
    assert PcOk(s, s.Pc(p));
    match s.Pc(p)
    case InOp(op, at) => OpGentle(s, p, op, at, s');
    case InGc(sw) => SweepStepGentle(s, p, sw, s');
    case _ =>
  }

  // ---- gc ----------------------------------------------------------------------------------------------------------

  /** A sweep keeps every record, every device of a record, and finds no create or clone in flight at all. */
  lemma SweepIsSafe(tr: seq<State>, i: nat, p: Proc)
    requires RunStep(tr, i, p) && tr[i].Pc(p).InGc?
    ensures forall n :: tr[i].IsCommitted(n) ==> tr[i + 1].IsCommitted(n) && tr[i + 1].dirs[n] == tr[i].dirs[n]
    ensures forall d :: d in tr[i].devices && d !in tr[i + 1].devices ==> d.vmid !in tr[i].RecordIds()
    ensures forall q :: !Shares(tr[i].Pc(q))
  {
    var s, s' := tr[i], tr[i + 1];
    RunKeepsInv(tr, i);
    assert LockOk(s, p) && PcOk(s, s.Pc(p));
    SweepStepGentle(s, p, s.Pc(p).sweep, s');
    forall q ensures !Shares(s.Pc(q)) {
      assert LockOk(s, q);
    }
  }

  /** After a sweep that reports success only committed directories and only their devices are left. */
  lemma SweepIsComplete(tr: seq<State>, i: nat, p: Proc, listed: set<Name>)
    requires IsRun(tr) && i < |tr| && tr[i].Pc(p) == InGc(Done(listed, true))
    ensures forall n :: n in tr[i].dirs ==> tr[i].IsCommitted(n)
    ensures forall d :: d in tr[i].devices ==> d.vmid in tr[i].RecordIds()
  {
    RunKeepsInv(tr, i);
    assert PcOk(tr[i], tr[i].Pc(p));
  }

  /** The collection itself leaves exactly the devices of committed records, whether or not it had to register. */
  lemma SweepCollectsExactly(tr: seq<State>, i: nat, p: Proc, listed: set<Name>)
    requires RunStep(tr, i, p) && tr[i].Pc(p).InGc? && tr[i].Pc(p).sweep.Net?
    requires tr[i + 1].Pc(p) == InGc(Done(listed, true))
    ensures forall d :: d in tr[i + 1].devices <==> d in tr[i].devices && d.vmid in tr[i].RecordIds()
  {
    RunKeepsInv(tr, i);
    assert PcOk(tr[i], tr[i].Pc(p));
  }

  /** A device on the host leaves evidence a sweep sees, through crashes and on roots older than the marker. */
  lemma DevicesLeaveEvidence(tr: seq<State>, i: nat)
    requires IsRun(tr) && i < |tr| && tr[i].devices != {}
    ensures tr[i].marker || exists n :: n in tr[i].dirs && forall p :: n !in Raises(tr[i].Pc(p))
  {
    RunKeepsInv(tr, i);
    assert Evidence(tr[i]);
    if !tr[i].marker {
      var n :| Anchored(tr[i], n);
      assert n in tr[i].dirs && forall p :: n !in Raises(tr[i].Pc(p));
    }
  }

  // ---- who may remove a committed VM ---------------------------------------------------------------------------------

  /** p is rm of n at its removal, or the run that created n rolling back its own failed launch. */
  ghost predicate RemovesOwn(s: State, p: Proc, n: Name)
  {
    || s.Pc(p) == InOp(Rm(n), RmRemove)
    || (&& s.Pc(p).InOp? && s.Pc(p).op == Create(n, true) && s.Pc(p).at.Rollback? && s.Pc(p).at.phase.RemoveDir?
        && s.IsCommitted(n) && s.Pc(p).at.id == s.dirs[n].rec.vmid)
  }

  lemma RmRemovesOwn(s: State, p: Proc, op: Op, s': State, n: Name)
    requires RmStep(s, p, op, RmRemove, s') && s.IsCommitted(n) && !s'.IsCommitted(n)
    ensures n == op.name
  {
  }

  lemma RollbackRemovesOwn(s: State, p: Proc, op: Op, at: Point, s': State, n: Name)
    requires at.Rollback? && at.phase.RemoveDir? && RollbackStep(s, p, op, at, s')
    ensures s.IsCommitted(n) && !s'.IsCommitted(n) ==> n == op.name
    ensures s'.abandoned <= s.abandoned + s.Live(op.name)
    ensures s'.abandoned != s.abandoned ==> !s'.IsCommitted(op.name)
  {
  }

  lemma StepRemovesOwn(s: State, p: Proc, s': State, n: Name)
    requires Inv(s) && Step(s, p, s')
    ensures s.IsCommitted(n) && !s'.IsCommitted(n) ==> RemovesOwn(s, p, n)
  {
    if s.IsCommitted(n) && !s'.IsCommitted(n) {
      assert PcOk(s, s.Pc(p));
      if !(s.Pc(p).InOp? && Removal(s.Pc(p).at)) { StepGentle(s, p, s'); }
      var op, at := s.Pc(p).op, s.Pc(p).at;
      if at.RmRemove? {
        RmRemovesOwn(s, p, op, s', n);
      } else {
        RollbackRemovesOwn(s, p, op, at, s', n);
      }
    }
  }

  /** A committed VM disappears only through rm of its name or the failing run that created it. */
  lemma CommittedDisappearsOnlyByItsOwner(tr: seq<State>, i: nat, n: Name)
    requires IsRun(tr) && i + 1 < |tr| && tr[i].IsCommitted(n) && !tr[i + 1].IsCommitted(n)
    ensures exists p :: RemovesOwn(tr[i], p, n)
  {
    var s, s' := tr[i], tr[i + 1];
    RunKeepsInv(tr, i);
    assert Continues(tr, i);
    if p :| Step(s, p, s') {
      StepRemovesOwn(s, p, s', n);
    }
  }

  // ---- which directories go ------------------------------------------------------------------------------------------

  /** A directory without a record that nothing runs in, and the marker stands for it. */
  ghost predicate DeadStray(s: State, n: Name)
  {
    s.IsBare(n) && s.Live(n) == {} && s.Helpers(n) == {} && s.marker
  }

  /**
   Who may take a directory away: a sweep or a create's reset, if it is a dead stray; scaffoldVM its own unbuilt one; rm,
   with the marker standing and no owned qemu; or a rollback.
   */
  ghost predicate MayRemoveDir(s: State, p: Proc, n: Name)
  {
    if s.Pc(p).InGc? then DeadStray(s, n) else
    && s.Pc(p).InOp? && n == s.Pc(p).op.name
    && match s.Pc(p).at
       case Laying(lay) => (lay.Reset? && DeadStray(s, n)) || (lay.Build? && s.IsBare(n))
       case RmRemove => s.marker && s.Owned(n) == {}
       case Rollback(_, _, _, _, _, phase) => phase.RemoveDir?
       case _ => false
  }

  lemma LayingRemoves(s: State, p: Proc, op: Op, lay: Lay, s': State, n: Name)
    requires s.Pc(p) == InOp(op, Laying(lay)) && LayOk(s, op.name, lay) && LayStep(s, p, op, lay, s')
    ensures n in s.dirs && n !in s'.dirs ==> MayRemoveDir(s, p, n)
  {
    if s' != Leave(s, p) {
      match lay
      case Scaffold => assert s'.dirs == s.dirs;
      case Reset(phase) => assert s'.dirs == ResetEffect(s, op.name, phase).dirs;
      case MakeDir => assert s'.dirs == s.dirs[op.name := Bare];
      case Build => assert s'.dirs in {s.dirs, s.dirs - {op.name}};
    }
  }

  lemma RollbackRemoves(s: State, p: Proc, op: Op, at: Point, s': State, n: Name)
    requires s.Pc(p) == InOp(op, at) && at.Rollback? && RollbackStep(s, p, op, at, s')
    ensures n in s.dirs && n !in s'.dirs ==> MayRemoveDir(s, p, n)
  {
  }

  lemma RmRemoves(s: State, p: Proc, op: Op, at: Point, s': State, n: Name)
    requires s.Pc(p) == InOp(op, at) && PointOk(s, op, at) && (at.RmReap? || at.RmMark? || at.RmRemove?) && RmStep(s, p, op, at, s')
    ensures n in s.dirs && n !in s'.dirs ==> MayRemoveDir(s, p, n)
  {
  }

  /** No other point of an operation removes a directory. */
  lemma OthersRemoveNone(s: State, p: Proc, op: Op, at: Point, s': State, n: Name)
    requires OpStep(s, p, op, at, s') && !at.Laying? && !at.Making? && !at.Rollback? && !at.RmReap? && !at.RmMark? && !at.RmRemove?
    ensures n in s.dirs ==> n in s'.dirs
  {
    match at
    case Entered => EnteredKeepsDirs(s, p, op, s', n);
    case Stopped => assert s'.dirs == s.dirs || s'.dirs == s.dirs[op.name := Committed(s.dirs[op.name].rec.(pid := 0))];
    case Launched(x) => LaunchedGentle(s, p, op, x, s');
    case LaunchNet => LaunchingKeepsDirs(s, p, op, at, s');
    case LaunchSpawn => LaunchingKeepsDirs(s, p, op, at, s');
    case WantShared => assert s'.dirs == s.dirs;
    case Saved => assert s'.dirs == s.dirs;
    case Stopping(_) => assert s'.dirs == s.dirs;
    case Imaging(_) => assert s'.dirs == s.dirs;
  }

  lemma EnteredKeepsDirs(s: State, p: Proc, op: Op, s': State, n: Name)
    requires EnteredStep(s, p, op, s')
    ensures n in s.dirs ==> n in s'.dirs
  {
  }

  lemma SweepRemoves(s: State, p: Proc, sw: Sweep, s': State, n: Name)
    requires s.Pc(p) == InGc(sw) && SweepOk(s, sw) && SweepStep(s, p, sw, s')
    ensures n in s.dirs && n !in s'.dirs ==> DeadStray(s, n)
  {
    if !sw.ResetStray? && s' != Leave(s, p) { SweepStepKeepsDirs(s, p, sw, s'); }
  }

  lemma SweepStepKeepsDirs(s: State, p: Proc, sw: Sweep, s': State)
    requires SweepStep(s, p, sw, s') && !sw.ResetStray?
    ensures s'.dirs == s.dirs
  {
  }

  lemma OpRemoves(s: State, p: Proc, op: Op, at: Point, s': State, n: Name)
    requires s.Pc(p) == InOp(op, at) && PointOk(s, op, at) && OpStep(s, p, op, at, s')
    ensures n in s.dirs && n !in s'.dirs ==> MayRemoveDir(s, p, n)
  {
    match at
    case Laying(lay) => LayingRemoves(s, p, op, lay, s', n);
    case Making(v, make) => MakingKeepsDirs(s, p, op, v, make, s', n);
    case Rollback(_, _, _, _, _, _) => RollbackRemoves(s, p, op, at, s', n);
    case RmReap => RmRemoves(s, p, op, at, s', n);
    case RmMark => RmRemoves(s, p, op, at, s', n);
    case RmRemove => RmRemoves(s, p, op, at, s', n);
    case _ => OthersRemoveNone(s, p, op, at, s', n);
  }

  lemma MakingKeepsDirs(s: State, p: Proc, op: Op, v: Vmid, make: Make, s': State, n: Name)
    requires MakeStep(s, p, op, v, make, s')
    ensures n in s.dirs ==> n in s'.dirs
  {
    if make.Save? {
      assert s'.dirs == s.dirs || s'.dirs == s.dirs[op.name := Committed(Record(v, 0, make.owned))];
    } else if make.Images? || make.WantLease? || make.Attach? || make.Attached? {
      IdentityKeepsDirs(s, p, op, v, make, s');
    } else {
      NetKeepsDirs(s, p, op, v, make, s');
    }
  }

  /** In any run a directory goes only as its remover may take it; in particular no sweep and no reset removes one in use. */
  lemma DirectoriesGoOnlyWhen(tr: seq<State>, i: nat, p: Proc, n: Name)
    requires RunStep(tr, i, p)
    ensures n in tr[i].dirs && n !in tr[i + 1].dirs ==> MayRemoveDir(tr[i], p, n)
  {
    var s, s' := tr[i], tr[i + 1];
    RunKeepsInv(tr, i);
    assert PcOk(s, s.Pc(p));
    match s.Pc(p)
    case InOp(op, at) => OpRemoves(s, p, op, at, s', n);
    case InGc(sw) => SweepRemoves(s, p, sw, s', n);
    case _ => assert s'.dirs == s.dirs;
  }

  // ---- at most one qemu ------------------------------------------------------------------------------------------------

  /** Apart from processes a failed rollback abandoned, a VM has at most one live qemu and then a committed record. */
  lemma AtMostOneQemu(tr: seq<State>, i: nat, n: Name)
    requires IsRun(tr) && i < |tr|
    ensures forall x, y :: x in tr[i].Owned(n) && y in tr[i].Owned(n) ==> x == y
    ensures tr[i].Owned(n) != {} ==> tr[i].IsCommitted(n)
    ensures tr[i].IsCommitted(n) && tr[i].dirs[n].rec.pid in tr[i].Live(n) ==> tr[i].Owned(n) == {tr[i].dirs[n].rec.pid}
  {
    RunKeepsInv(tr, i);
    assert NameOk(tr[i], n);
  }

  /** A step abandons a qemu exactly when a run's rollback takes the record away while the VM's own qemu lives. */
  lemma AbandonsExactlyWhen(tr: seq<State>, i: nat, p: Proc)
    requires RunStep(tr, i, p)
    ensures !(tr[i + 1].abandoned <= tr[i].abandoned) <==> RollbackLosesQemu(tr[i], p, tr[i + 1])
  {
    var s, s' := tr[i], tr[i + 1];
    RunKeepsInv(tr, i);
    assert PcOk(s, s.Pc(p));
    if !(s.Pc(p).InOp? && Removal(s.Pc(p).at)) {
      StepGentle(s, p, s');
    } else if s.Pc(p).at.Rollback? {
      RollbackAbandons(s, p, s.Pc(p).op, s.Pc(p).at, s');
    } else {
      assert s'.abandoned == s.abandoned by { assert RmStep(s, p, s.Pc(p).op, RmRemove, s'); }
    }
  }

  ghost predicate RollbackLosesQemu(s: State, p: Proc, s': State)
  {
    && s.Pc(p).InOp? && s.Pc(p).op.Create? && s.Pc(p).op.run && s.Pc(p).at.Rollback? && s.Pc(p).at.phase.RemoveDir?
    && var n := s.Pc(p).op.name; s.IsCommitted(n) && !s'.IsCommitted(n) && s.Owned(n) != {}
  }

  lemma RollbackAbandons(s: State, p: Proc, op: Op, at: Point, s': State)
    requires s.Pc(p) == InOp(op, at) && at.Rollback? && at.phase.RemoveDir? && RollbackStep(s, p, op, at, s')
    requires PointOk(s, op, at) && NameOk(s, op.name)
    ensures !(s'.abandoned <= s.abandoned) <==> RollbackLosesQemu(s, p, s')
  {
    RollbackRemovesOwn(s, p, op, at, s', op.name);
    if RollbackLosesQemu(s, p, s') {
      var x :| x in s.Owned(op.name);
      assert x in s'.abandoned && x !in s.abandoned;
    }
    if x :| x in s'.abandoned && x !in s.abandoned {
      assert x in s.Owned(op.name);
    }
  }

  /** A run's rollback takes the record of n away while a qemu of n is alive. */
  ghost predicate LosesQemu(s: State, p: Proc, s': State, n: Name)
  {
    && s.Pc(p).InOp? && s.Pc(p).op == Create(n, true) && s.Pc(p).at.Rollback? && s.Pc(p).at.phase.RemoveDir?
    && s.IsCommitted(n) && !s'.IsCommitted(n) && s.Live(n) != {}
  }

  ghost predicate LosesAt(tr: seq<State>, j: nat, p: Proc, n: Name)
  {
    j + 1 < |tr| && Step(tr[j], p, tr[j + 1]) && LosesQemu(tr[j], p, tr[j + 1], n)
  }

  /** No step before state i lost a qemu of n. */
  ghost predicate NoLossBefore(tr: seq<State>, i: nat, n: Name)
  {
    forall j: nat, p :: j < i ==> !LosesAt(tr, j, p, n)
  }

  /** At most one qemu of n is alive, and then n is committed. */
  ghost predicate QemuOk(s: State, n: Name)
  {
    && (forall x, y :: x in s.Live(n) && y in s.Live(n) ==> x == y)
    && (s.Live(n) != {} ==> s.IsCommitted(n))
  }

  /** A step of p that loses no qemu of n adds none of them to the lost ones. */
  lemma StepLosesNone(tr: seq<State>, i: nat, p: Proc, n: Name)
    requires RunStep(tr, i, p) && !LosesAt(tr, i, p, n) && tr[i].abandoned !! tr[i].Live(n)
    ensures tr[i + 1].abandoned !! tr[i + 1].Live(n)
  {
    var s, s' := tr[i], tr[i + 1];
    RunKeepsInv(tr, i);
    AbandonsExactlyWhen(tr, i, p);
    StepJobs(s, p, s');
    forall x | x in s'.abandoned ensures x !in s'.Live(n) {
      if x !in s.abandoned {
        var op, at := s.Pc(p).op, s.Pc(p).at;
        RollbackRemovesOwn(s, p, op, at, s', op.name);
        assert x in s.Live(op.name);
      }
    }
  }

  lemma StepJobs(s: State, p: Proc, s': State)
    requires Inv(s) && Step(s, p, s')
    ensures forall x :: x in s.procs && x in s'.procs ==> s.procs[x] == s'.procs[x]
    ensures s.abandoned <= s.procs.Keys
  {
    StepGood(s, p, s');
  }

  lemma QuietLosesNone(s: State, s': State, n: Name)
    requires Basics(s) && (EnvStep(s, s') || exists p :: s' == Killed(s, p)) && s.abandoned !! s.Live(n)
    ensures s'.abandoned !! s'.Live(n)
  {
  }

  lemma NextLosesNone(tr: seq<State>, i: nat, n: Name)
    requires IsRun(tr) && i + 1 < |tr| && NoLossBefore(tr, i + 1, n) && tr[i].abandoned !! tr[i].Live(n)
    ensures tr[i + 1].abandoned !! tr[i + 1].Live(n)
  {
    var s, s' := tr[i], tr[i + 1];
    RunKeepsInv(tr, i);
    assert Continues(tr, i);
    if p :| Step(s, p, s') {
      assert !LosesAt(tr, i, p, n);
      StepLosesNone(tr, i, p, n);
    } else {
      QuietLosesNone(s, s', n);
    }
  }

  lemma {:induction false} NoneIsLost(tr: seq<State>, i: nat, n: Name)
    requires IsRun(tr) && i < |tr| && NoLossBefore(tr, i, n)
    ensures tr[i].abandoned !! tr[i].Live(n)
  {
    if i > 0 {
      NoneIsLost(tr, i - 1, n);
      NextLosesNone(tr, i - 1, n);
    } else {
      assert tr[0].abandoned == {};
    }
  }

  /** Until a step loses a qemu of n, at most one is alive, under a committed record, and a live recorded pid is that one. */
  lemma SingleQemu(tr: seq<State>, i: nat, n: Name)
    requires IsRun(tr) && i < |tr| && NoLossBefore(tr, i, n)
    ensures QemuOk(tr[i], n) && tr[i].Owned(n) == tr[i].Live(n)
    ensures tr[i].IsCommitted(n) && tr[i].dirs[n].rec.pid in tr[i].Live(n) ==> tr[i].Live(n) == {tr[i].dirs[n].rec.pid}
  {
    NoneIsLost(tr, i, n);
    AtMostOneQemu(tr, i, n);
    assert tr[i].Owned(n) == tr[i].Live(n);
  }

  lemma LossBreaks(tr: seq<State>, j: nat, p: Proc, n: Name)
    requires IsRun(tr) && LosesAt(tr, j, p, n)
    ensures !QemuOk(tr[j + 1], n)
  {
    var s, s' := tr[j], tr[j + 1];
    assert RollbackStep(s, p, s.Pc(p).op, s.Pc(p).at, s');
    assert s'.procs == s.procs;
    assert s'.Live(n) == s.Live(n);
  }

  /**
   In every state of a run a VM has at most one live qemu, and then a committed record, if and only if no rollback of a
   failed run took that record away while a qemu was alive.
   */
  lemma SingleQemuExactlyWhen(tr: seq<State>, n: Name)
    requires IsRun(tr)
    ensures (forall i :: 0 <= i < |tr| ==> QemuOk(tr[i], n)) <==> !(exists j: nat, p :: LosesAt(tr, j, p, n))
  {
    if j: nat, p :| LosesAt(tr, j, p, n) {
      LossBreaks(tr, j, p, n);
    } else {
      forall i | 0 <= i < |tr| ensures QemuOk(tr[i], n) { SingleQemu(tr, i, n); }
    }
  }

  /** No cleanup call of any rollback has failed by the time it removes its directory. */
  ghost predicate CleanRollbacks(s: State)
  {
    forall p :: s.Pc(p).InOp? && s.Pc(p).at.Rollback? && s.Pc(p).at.phase.RemoveDir? ==> s.Pc(p).at.clean
  }

  /** While cleanup calls succeed no step loses a qemu, so the single qemu is kept. */
  lemma CleanRunsAbandonNobody(tr: seq<State>, i: nat, n: Name)
    requires IsRun(tr) && i < |tr| && forall j :: 0 <= j < i ==> CleanRollbacks(tr[j])
    ensures NoLossBefore(tr, i, n) && QemuOk(tr[i], n)
  {
    forall j: nat, p | j < i ensures !LosesAt(tr, j, p, n) {
      RunKeepsInv(tr, j);
      assert PcOk(tr[j], tr[j].Pc(p)) && CleanRollbacks(tr[j]);
    }
    SingleQemu(tr, i, n);
  }

  lemma LaunchOutcome(s: State, p: Proc, op: Op, x: Pid, s': State)
    requires PointOk(s, op, Launched(x)) && LaunchedStep(s, p, op, x, s')
    ensures s'.IsCommitted(op.name) && s'.abandoned == s.abandoned - (s.procs.Keys - s'.procs.Keys)
    ensures s'.dirs[op.name].rec == s.dirs[op.name].rec || s'.dirs[op.name].rec == s.dirs[op.name].rec.(pid := x)
    ensures s'.procs == s.procs || s'.procs == s.procs - ({x} * s.Live(op.name))
  {
    assert s.abandoned - {} == s.abandoned;
    var r := s.dirs[op.name].rec;
    assert s' in {LaunchFailed(s, p, op, 0), LaunchFailed(s, p, op, x), LaunchFailed(s.Without({x} * s.Live(op.name)), p, op, x),
                  Leave(s.Commit(op.name, r.(pid := x)), p)};
  }

  /** A launch ends with its record unchanged (it failed) or naming x, and no other qemu of the VM but x can live. */
  lemma LaunchRecordsTheLivePid(tr: seq<State>, i: nat, p: Proc, op: Op, x: Pid)
    requires RunStep(tr, i, p) && tr[i].Pc(p) == InOp(op, Launched(x))
    ensures tr[i + 1].IsCommitted(op.name)
    ensures tr[i + 1].dirs[op.name].rec == tr[i].dirs[op.name].rec || tr[i + 1].dirs[op.name].rec == tr[i].dirs[op.name].rec.(pid := x)
    ensures tr[i + 1].Owned(op.name) == tr[i + 1].Live(op.name) * {x}
  {
    RunKeepsInv(tr, i);
    assert PcOk(tr[i], tr[i].Pc(p));
    LaunchOutcome(tr[i], p, op, x, tr[i + 1]);
  }

  // ---- offline images ----------------------------------------------------------------------------------------------------

  /** qemu-img works on n's images: snapshot and restore on their own VM, clone on its source while it copies. */
  ghost predicate WorksOn(s: State, p: Proc, n: Name)
  {
    && s.Pc(p).InOp?
    && var op, at := s.Pc(p).op, s.Pc(p).at;
       || (at.Imaging? && n == op.name)
       || (op.Clone? && n == op.src && ((at.Laying? && at.lay.Build?) || (at.Making? && at.make.Images?)))
  }

  /** Images are only touched while the VM is committed, no qemu of it is alive and no other operation holds it. */
  lemma ImagesAreOffline(tr: seq<State>, i: nat, p: Proc, n: Name)
    requires IsRun(tr) && i < |tr| && WorksOn(tr[i], p, n)
    ensures tr[i].IsCommitted(n) && tr[i].Owned(n) == {}
    ensures tr[i].Pc(p).at != Imaging(true) || NoLossBefore(tr, i, n) ==> tr[i].Live(n) == {}
    ensures forall q :: q != p ==> n !in HeldVMs(tr[i].Pc(q))
  {
    RunKeepsInv(tr, i);
    assert PcOk(tr[i], tr[i].Pc(p)) && LockOk(tr[i], p);
    if NoLossBefore(tr, i, n) { SingleQemu(tr, i, n); }
    forall q | q != p ensures n !in HeldVMs(tr[i].Pc(q)) {
      VMsExclusive(tr, i, p, q);
      assert n in HeldVMs(tr[i].Pc(p));
    }
  }

  // ---- all or nothing ------------------------------------------------------------------------------------------------------

  /** A rollback whose cleanup calls all succeeded leaves no directory, device, qemu or qemu-nbd of its VM. */
  lemma RollbackLeavesNothing(tr: seq<State>, i: nat, p: Proc, op: Op, at: Point)
    requires IsRun(tr) && i < |tr| && tr[i].Pc(p) == InOp(op, at) && at.Rollback? && at.phase.Finished? && at.clean
    ensures op.name !in tr[i].dirs && tr[i].Live(op.name) == {} && tr[i].Helpers(op.name) == {}
    ensures forall d :: d in tr[i].devices ==> d.vmid != at.id
  {
    RunKeepsInv(tr, i);
    assert PcOk(tr[i], tr[i].Pc(p));
  }

  /** The record write of create and clone commits one VM under an id no other record has, with its TAP if it owns one. */
  lemma SaveCommitsWholeVM(tr: seq<State>, i: nat, p: Proc, op: Op, v: Vmid, owned: bool)
    requires RunStep(tr, i, p) && tr[i].Pc(p) == InOp(op, Making(v, Save(owned))) && tr[i + 1].dirs != tr[i].dirs
    ensures !tr[i].IsCommitted(op.name) && tr[i + 1].dirs == tr[i].dirs[op.name := Committed(Record(v, 0, owned))]
    ensures forall n :: n != op.name && tr[i].IsCommitted(n) ==> tr[i].dirs[n].rec.vmid != v
    ensures if owned then Device(v, Tap) in tr[i + 1].devices else forall d :: d in tr[i + 1].devices ==> d.vmid != v
    ensures tr[i + 1].Owned(op.name) == {}
  {
    var s := tr[i];
    RunKeepsInv(tr, i);
    assert PcOk(s, s.Pc(p)) && FlightOk(s, p) && NameOk(s, op.name);
    assert v in Flight(s.Pc(p));
  }

  /** Between the marker and the record write, no other process creates or removes a device of an id in flight. */
  lemma FlightIsPrivate(tr: seq<State>, i: nat, p: Proc, q: Proc, v: Vmid)
    requires RunStep(tr, i, q) && p != q && v in Flight(tr[i].Pc(p)) && tr[i].Pc(p).at.Making?
    ensures forall d: Device :: d.vmid == v ==> (d in tr[i].devices <==> d in tr[i + 1].devices)
  {
    var s, s' := tr[i], tr[i + 1];
    RunKeepsInv(tr, i);
    StepGood(s, q, s');
    assert FlightOk(s, p) && LockOk(s, p) && LockOk(s, q);
    assert s.Pc(p).op.name in HeldVMs(s.Pc(p)) && s.Holds(s.Pc(p).op.name, p);
    assert PcOk(s, s.Pc(p));
  }
}
