/** The sweep's steps, kills and the environment keep the invariant too; hence it holds in every state of every run. */
module Runs {
  import opened Wrappers
  import opened Text
  import opened Host
  import opened Protocol
  import opened Invariant
  import opened Interference
  import opened Shapes
  import opened Preservation

  lemma SweepLockGood(s: State, p: Proc, listed: set<Name>, todo: set<Name>, n: Name)
    requires Ready(s, p) && s.Pc(p) == InGc(Lock(listed, todo)) && n in todo && n !in s.vmLock
    ensures Good(s, p, Sweeping(s.(vmLock := s.vmLock[n := p]), p, Lock(listed, todo - {n})))
  {
    var s' := Sweeping(s.(vmLock := s.vmLock[n := p]), p, Lock(listed, todo - {n}));
    assert listed - (todo - {n}) == listed - todo + {n};
    VmLockTaken(s, p, n, s', InGc(Lock(listed, todo - {n})));
    LockStepGood(s, p, s', InGc(Lock(listed, todo - {n})));
  }

  /** All listed VMs are locked; without marker and directories the evidence invariant says there is no device to keep. */
  lemma SweepRegisterGood(s: State, p: Proc, listed: set<Name>)
    requires Ready(s, p) && s.Pc(p) == InGc(Lock(listed, {})) && Evidence(s)
    ensures Good(s, p, Sweeping(s, p, Read(listed, listed, {}, {}, !(listed == {} && !s.marker))))
  {
    assert listed == {} ==> s.dirs.Keys == {};
    assert forall n :: Anchored(s, n) ==> n in s.dirs.Keys;
    MoveGood(s, p, InGc(Read(listed, listed, {}, {}, !(listed == {} && !s.marker))));
  }

  lemma ClassifyGood(s: State, p: Proc, sw: Sweep, n: Name)
    requires Ready(s, p) && s.Pc(p) == InGc(sw) && sw.Read? && n in sw.todo
    ensures Good(s, p, Sweeping(s, p, Classify(s, sw, n)))
  {
    MoveGood(s, p, InGc(Classify(s, sw, n)));
  }

  lemma SweepReadGood(s: State, p: Proc, sw: Sweep, s': State)
    requires Ready(s, p) && s.Pc(p) == InGc(sw) && sw.Read? && SweepReadStep(s, p, sw, s')
    ensures Good(s, p, s')
  {
    if n :| n in sw.todo && s' == Sweeping(s, p, Classify(s, sw, n)) {
      ClassifyGood(s, p, sw, n);
    } else {
      assert sw.ids == s.RecordIds();
      MoveGood(s, p, InGc(Stray(sw.listed, sw.strays, sw.ids, sw.reg, true)));
    }
  }

  lemma VisitStrayGood(s: State, p: Proc, sw: Sweep, n: Name, s': State)
    requires Ready(s, p) && s.Pc(p) == InGc(sw) && sw.Stray? && n in sw.todo && VisitStray(s, p, sw, n, s')
    ensures Good(s, p, s')
  {
    var skip := Stray(sw.listed, sw.todo - {n}, sw.ids, sw.reg, sw.ok);
    var fail := Stray(sw.listed, sw.todo - {n}, sw.ids, sw.reg, false);
    var next := ResetStray(sw.listed, sw.todo - {n}, sw.ids, sw.reg, sw.ok, n, KillNbd);
    if s' == Sweeping(s, p, fail) {
      MoveGood(s, p, InGc(fail));
    } else if s' == Sweeping(s, p, skip) && n !in s.dirs {
      assert SweepOk(s, skip);
      MoveGood(s, p, InGc(skip));
    } else {
      assert sw.todo - {n} + {n} == sw.todo;
      MoveGood(s, p, InGc(next));
    }
  }

  lemma SweepStrayGood(s: State, p: Proc, sw: Sweep, s': State)
    requires Ready(s, p) && s.Pc(p) == InGc(sw) && sw.Stray? && SweepStrayStep(s, p, sw, s')
    ensures Good(s, p, s')
  {
    if sw.todo == {} {
      MoveGood(s, p, InGc(Net(sw.listed, sw.ids, sw.reg, sw.ok)));
    } else {
      var n :| n in sw.todo && VisitStray(s, p, sw, n, s');
      VisitStrayGood(s, p, sw, n, s');
    }
  }

  lemma RecordIdsWithout(dirs: map<Name, Dir>, n: Name)
    requires n in dirs && dirs[n].Bare?
    ensures IdsOf(dirs - {n}) == IdsOf(dirs)
  {
    var less := dirs - {n};
    forall m | m in dirs && dirs[m].Committed? ensures m in less && less[m] == dirs[m] {
    }
  }

  lemma SweepRemoveGood(s: State, p: Proc, sw: Sweep)
    requires Ready(s, p) && s.Pc(p) == InGc(sw) && sw.ResetStray? && sw.phase.Remove?
    ensures Good(s, p, Sweeping(ResetEffect(s, sw.stray, Remove), p, Stray(sw.listed, sw.todo, sw.ids, sw.reg, sw.ok)))
  {
    var n, to := sw.stray, Stray(sw.listed, sw.todo, sw.ids, sw.reg, sw.ok);
    var s' := Sweeping(ResetEffect(s, n, Remove), p, to);
    assert s.Holds(n, p) && NameOk(s, n);
    RecordIdsWithout(s.dirs, n);
    RemoveGood(s, p, n, s', InGc(to));
  }

  lemma SweepResetGood(s: State, p: Proc, sw: Sweep, s': State)
    requires Ready(s, p) && s.Pc(p) == InGc(sw) && sw.ResetStray? && SweepResetStep(s, p, sw, s')
    ensures Good(s, p, s')
  {
    var n := sw.stray;
    assert s.Holds(n, p) && NameOk(s, n);
    if s' == Sweeping(s, p, Stray(sw.listed, sw.todo, sw.ids, sw.reg, false)) {
      MoveGood(s, p, s'.Pc(p));
    } else if sw.phase.Remove? {
      SweepRemoveGood(s, p, sw);
    } else {
      SweepPhaseGood(s, p, sw);
    }
  }

  lemma SweepPhaseGood(s: State, p: Proc, sw: Sweep)
    requires Ready(s, p) && s.Pc(p) == InGc(sw) && sw.ResetStray? && !sw.phase.Remove?
    ensures Good(s, p, Sweeping(ResetEffect(s, sw.stray, sw.phase), p, InPhase(sw, if sw.phase.KillNbd? then Mark else Remove)))
  {
    var to := InPhase(sw, if sw.phase.KillNbd? then Mark else Remove);
    QuietGood(s, p, Sweeping(ResetEffect(s, sw.stray, sw.phase), p, to), InGc(to));
  }

  function InPhase(sw: Sweep, phase: ResetPhase): Sweep
    requires sw.ResetStray?
  {
    ResetStray(sw.listed, sw.todo, sw.ids, sw.reg, sw.ok, sw.stray, phase)
  }

  /** The collectors take devices of no record; what is left after a full collection belongs to records. */
  lemma CollectGood(s: State, p: Proc, sw: Sweep, some: set<Device>, ok: bool)
    requires Ready(s, p) && s.Pc(p) == InGc(sw) && sw.Net?
    requires some <= Orphans(s, sw.ids) && (ok ==> sw.ok && some == Orphans(s, sw.ids))
    ensures Good(s, p, Sweeping(s.(devices := s.devices - some), p, Done(sw.listed, ok)))
  {
    var s' := Sweeping(s.(devices := s.devices - some), p, Done(sw.listed, ok));
    LocksKept(s, p, s', InGc(Done(sw.listed, ok)));
    DirsKept(s, p, s');
    FlightKept(s, p, s');
    ShrinkKeeps(s, p, s');
    forall d | d in s.devices && d !in s'.devices ensures MayRemove(s, p, d.vmid) {
      assert d in some;
    }
    assert s'.RecordIds() == s.RecordIds();
    forall n | s.Holds(n, p) ensures NameOk(s', n) {
      ShrinkKeepsName(s, s', n);
    }
  }

  lemma SweepNetGood(s: State, p: Proc, sw: Sweep, s': State)
    requires Ready(s, p) && s.Pc(p) == InGc(sw) && sw.Net? && SweepNetStep(s, p, sw, s')
    ensures Good(s, p, s')
  {
    if !sw.reg {
      MoveGood(s, p, s'.Pc(p));
    } else if s' == Sweeping(s.(devices := s.devices - Orphans(s, sw.ids)), p, Done(sw.listed, sw.ok)) {
      CollectGood(s, p, sw, Orphans(s, sw.ids), sw.ok);
    } else {
      var some :| some <= Orphans(s, sw.ids) && s' == Sweeping(s.(devices := s.devices - some), p, Done(sw.listed, false));
      CollectGood(s, p, sw, some, false);
    }
  }

  lemma SweepGood(s: State, p: Proc, sw: Sweep, s': State)
    requires Ready(s, p) && s.Pc(p) == InGc(sw) && SweepStep(s, p, sw, s') && Evidence(s)
    ensures Good(s, p, s')
  {
    LeaveGood(s, p);
    if s' != Leave(s, p) {
      match sw
      case List => MoveGood(s, p, s'.Pc(p));
      case Lock(listed, todo) =>
        if n :| n in todo && n !in s.vmLock && s' == Sweeping(s.(vmLock := s.vmLock[n := p]), p, Lock(listed, todo - {n})) {
          SweepLockGood(s, p, listed, todo, n);
        } else {
          SweepRegisterGood(s, p, listed);
        }
      case Read(_, _, _, _, _) => SweepReadGood(s, p, sw, s');
      case Stray(_, _, _, _, _) => SweepStrayGood(s, p, sw, s');
      case ResetStray(_, _, _, _, _, _, _) => SweepResetGood(s, p, sw, s');
      case Net(_, _, _, _) => SweepNetGood(s, p, sw, s');
    }
  }

  lemma OpGood(s: State, p: Proc, op: Op, at: Point, s': State)
    requires Ready(s, p) && IdsOk(s) && s.Pc(p) == InOp(op, at) && OpStep(s, p, op, at, s')
    ensures Good(s, p, s')
  {
    match at
    case Entered => EnteredGood(s, p, op, s');
    case WantShared => ShareGood(s, p, op, s');
    case Laying(lay) => LayGood(s, p, op, lay, s');
    case Making(v, make) =>
      if make.NetAdd? || make.NetUndo? || make.Save? { NetGood(s, p, op, v, make, s'); }
      else { MakeGood(s, p, op, v, make, s'); }
    case Saved => SavedGood(s, p, op, s');
    case Rollback(_, _, _, _, _, _) => RollbackGood(s, p, op, at, s');
    case LaunchNet => LaunchGood(s, p, op, at, s');
    case LaunchSpawn => LaunchGood(s, p, op, at, s');
    case Launched(_) => LaunchGood(s, p, op, at, s');
    case Stopping(x) => StoppingGood(s, p, op, x, s');
    case Stopped => StoppedGood(s, p, op, s');
    case Imaging(relaunch) => ImagingGood(s, p, op, relaunch, s');
    case RmReap => RmGood(s, p, op, at, s');
    case RmMark => RmGood(s, p, op, at, s');
    case RmRemove => RmRemoveGood(s, p, op, s');
  }

  lemma StepGood(s: State, p: Proc, s': State)
    requires Inv(s) && Step(s, p, s')
    ensures Good(s, p, s')
  {
    assert Ready(s, p) by {
      assert LockOk(s, p) && PcOk(s, s.Pc(p));
      forall n | s.Holds(n, p) ensures NameOk(s, n) {
      }
    }
    match s.Pc(p)
    case Idle => BeginGood(s, p, s');
    case WantVM(op, held) => LockVMGood(s, p, op, held, s');
    case InOp(op, at) => OpGood(s, p, op, at, s');
    case InGc(sw) => SweepGood(s, p, sw, s');
    case Exit(vms, shared, excl) => ExitGood(s, p, vms, shared, excl, s');
  }

  /** One step of any process, from any state the invariant describes. */
  lemma StepKeepsInv(s: State, p: Proc, s': State)
    requires Inv(s) && Step(s, p, s')
    ensures Inv(s')
  {
    StepGood(s, p, s');
    FootprintKeepsInv(s, p, s');
  }

  lemma KillKeepsInv(s: State, p: Proc)
    requires Inv(s)
    ensures Inv(Killed(s, p))
  {
    var s' := Killed(s, p);
    assert LockOk(s, p);
    forall n, q ensures s'.Holds(n, q) <==> s.Holds(n, q) && q != p {
    }
    DirsKept(s, p, s');
    FlightKept(s, p, s');
    DevicesKept(s, p, s');
    ShrinkKeeps(s, p, s');
    forall n | s.Holds(n, p) ensures NameOk(s', n) {
      ShrinkKeepsName(s, s', n);
    }
    FootprintKeepsInv(s, p, s');
  }

  lemma EnvProcs(s: State, p: Proc, s': State)
    requires Basics(s) && EnvStep(s, s')
    ensures ProcsFootprint(s, p, s') && Basics(s')
  {
  }

  lemma EnvLocks(s: State, p: Proc, s': State)
    requires EnvStep(s, s') && LockOk(s, p)
    ensures s'.pcs == s.pcs && LocksOfOthers(s, p, s') && LockOk(s', p)
  {
    assert s' == s.(procs := s'.procs, abandoned := s'.abandoned);
    assert forall q :: s'.Pc(q) == s.Pc(q);
    assert forall n, q :: s'.Holds(n, q) <==> s.Holds(n, q);
  }

  lemma EnvFootprint(s: State, p: Proc, s': State)
    requires Inv(s) && EnvStep(s, s') && s.Pc(p).Idle?
    ensures Footprint(s, p, s') && OwnOk(s, p, s')
  {
    EnvLocks(s, p, s');
    EnvProcs(s, p, s');
    DirsKept(s, p, s');
    FlightKept(s, p, s');
    DevicesKept(s, p, s');
  }

  lemma EnvKeepsInv(s: State, s': State)
    requires Inv(s) && EnvStep(s, s')
    ensures Inv(s')
  {
    // any process that never began can stand for the environment: it holds no lock and relies on nothing
    var p := NeverBegan(s);
    EnvFootprint(s, p, s');
    FootprintKeepsInv(s, p, s');
  }

  ghost function NeverBegan(s: State): (p: Proc)
    ensures s.Pc(p).Idle?
  {
    Above(s.pcs.Keys)
  }

  ghost function Above(keys: set<Proc>): (m: Proc)
    ensures forall k :: k in keys ==> k < m
  {
    if keys == {} then 0
    else
      var k :| k in keys;
      var m := Above(keys - {k});
      assert forall j :: j in keys ==> j == k || j in keys - {k};
      if k < m then m else k + 1
  }

  lemma InitEstablishesInv(s: State)
    requires Init(s)
    ensures Inv(s)
  {
    forall n ensures NameOk(s, n) {
    }
    if s.devices != {} && !s.marker {
      var n :| n in s.dirs;
      assert Anchored(s, n);
    }
  }

  lemma NextKeepsInv(s: State, s': State)
    requires Inv(s) && Next(s, s')
    ensures Inv(s')
  {
    if p :| Step(s, p, s') {
      StepKeepsInv(s, p, s');
    } else if p :| s' == Killed(s, p) {
      KillKeepsInv(s, p);
    } else {
      EnvKeepsInv(s, s');
    }
  }

  /** Every state of every interleaving, with any failures and kills, satisfies the invariant. */
  lemma {:induction false} RunKeepsInv(tr: seq<State>, i: nat)
    requires IsRun(tr) && i < |tr|
    ensures Inv(tr[i])
  {
    if i == 0 {
      InitEstablishesInv(tr[0]);
    } else {
      RunKeepsInv(tr, i - 1);
      assert Continues(tr, i - 1);
      NextKeepsInv(tr[i - 1], tr[i]);
    }
  }
}
