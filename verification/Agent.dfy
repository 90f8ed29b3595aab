/**
 One CLI process as the code runs it: a sequence of atomic effects on the shared host, with any number of steps of other
 processes in between. Every method performs protocol steps only, so what holds of all runs holds of the code.
 */
module Agent {
  import opened Wrappers
  import opened Text
  import opened Host
  import opened Protocol
  import opened Invariant
  import opened Interference
  import opened Shapes
  import opened Runs
  import opened Safety

  /** A step in which process p takes no part. */
  ghost predicate OthersStep(s: State, p: Proc, s': State)
  {
    || (exists q :: q != p && Step(s, q, s'))
    || (exists q :: q != p && s' == Killed(s, q))
    || EnvStep(s, s')
  }

  ghost predicate SameDir(s: State, s': State, n: Name)
  {
    (n in s.dirs <==> n in s'.dirs) && (n in s.dirs ==> s'.dirs[n] == s.dirs[n])
  }

  ghost predicate SameDevices(s: State, s': State, v: Vmid)
  {
    forall k: Kind :: Device(v, k) in s.devices <==> Device(v, k) in s'.devices
  }

  /** The directory of n and the devices of its record are as they were, and no process on its files was added. */
  ghost predicate VMKept(s: State, s': State, n: Name)
  {
    && SameDir(s, s', n) && s'.Live(n) <= s.Live(n) && s'.Helpers(n) <= s.Helpers(n)
    && (s.IsCommitted(n) ==> SameDevices(s, s', s.dirs[n].rec.vmid))
  }

  /** A create or clone between its id and its record. */
  predicate Makes(pc: PC) { pc.InOp? && pc.at.Making? }

  /**
   What p can count on while it does nothing: its place, the marker, its VM locks and the VMs behind them, and the devices of
   an id it has in flight.
   */
  ghost predicate MineKept(s: State, p: Proc, s': State)
  {
    && s'.Pc(p) == s.Pc(p) && (s.marker ==> s'.marker)
    && (Makes(s.Pc(p)) ==> SameDevices(s, s', s.Pc(p).at.vmid))
    && forall n :: s.Holds(n, p) ==> s'.Holds(n, p) && VMKept(s, s', n)
  }

  /** Only the holder of a VM's lock touches the devices of its record. */
  lemma RecordDevicesStable(s: State, q: Proc, s': State, n: Name)
    requires Inv(s) && Footprint(s, q, s') && s.IsCommitted(n) && !s.Holds(n, q)
    ensures SameDevices(s, s', s.dirs[n].rec.vmid)
  {
    var v := s.dirs[n].rec.vmid;
    assert FlightOk(s, q) && LockOk(s, q);
    assert v in s.RecordIds();
    assert Flight(s.Pc(q)) != {} ==> s.Holds(s.Pc(q).op.name, q);
    assert !MayAdd(s, q, v) && !MayRemove(s, q, v);
  }

  /** Nobody else touches the devices of an id in flight. */
  lemma FlightDevicesKept(s: State, q: Proc, s': State, p: Proc)
    requires Inv(s) && Footprint(s, q, s') && q != p && Makes(s.Pc(p))
    ensures SameDevices(s, s', s.Pc(p).at.vmid)
  {
    var v := s.Pc(p).at.vmid;
    assert FlightOk(s, p) && LockOk(s, p) && LockOk(s, q) && PcOk(s, s.Pc(p));
    assert v in Flight(s.Pc(p)) && s.Pc(p).op.name in HeldVMs(s.Pc(p)) && s.Holds(s.Pc(p).op.name, p);
    assert !MayAdd(s, q, v) && !MayRemove(s, q, v);
  }

  lemma StepKeepsMine(s: State, q: Proc, s': State, p: Proc)
    requires Inv(s) && Footprint(s, q, s') && q != p
    ensures MineKept(s, p, s')
  {
    assert LockOk(s, p);
    if Makes(s.Pc(p)) { FlightDevicesKept(s, q, s', p); }
    forall n | s.Holds(n, p) ensures s'.Holds(n, p) && VMKept(s, s', n) {
      LockedNameStable(s, q, s', p, n);
      if s.IsCommitted(n) { RecordDevicesStable(s, q, s', n); }
    }
  }

  lemma KillKeepsMine(s: State, q: Proc, p: Proc)
    requires q != p
    ensures MineKept(s, p, Killed(s, q))
  {
  }

  lemma EnvKeepsMine(s: State, s': State, p: Proc)
    requires EnvStep(s, s')
    ensures MineKept(s, p, s')
  {
  }

  lemma OthersStepKeepsMine(s: State, p: Proc, s': State)
    requires Inv(s) && OthersStep(s, p, s')
    ensures MineKept(s, p, s')
  {
    if q :| q != p && Step(s, q, s') {
      StepGood(s, q, s');
      StepKeepsMine(s, q, s', p);
    } else if q :| q != p && s' == Killed(s, q) {
      KillKeepsMine(s, q, p);
    } else {
      EnvKeepsMine(s, s', p);
    }
  }

  lemma MineKeptReflexive(s: State, p: Proc)
    ensures MineKept(s, p, s)
  {
  }

  lemma MineKeptTransitive(a: State, b: State, c: State, p: Proc)
    requires MineKept(a, p, b) && MineKept(b, p, c)
    ensures MineKept(a, p, c)
  {
    forall n | a.Holds(n, p) ensures c.Holds(n, p) && VMKept(a, c, n) {
      assert VMKept(a, b, n) && VMKept(b, c, n);
    }
  }

  lemma RunStepKeepsMine(tr: seq<State>, i: nat, p: Proc)
    requires IsRun(tr) && i + 1 < |tr| && OthersStep(tr[i], p, tr[i + 1])
    ensures MineKept(tr[i], p, tr[i + 1])
  {
    RunKeepsInv(tr, i);
    OthersStepKeepsMine(tr[i], p, tr[i + 1]);
  }

  /** However many steps the others take, what p has locked stays as it was. */
  lemma {:induction false} OthersKeepMine(tr: seq<State>, from: nat, to: nat, p: Proc)
    requires IsRun(tr) && from <= to < |tr| && forall i :: from <= i < to ==> OthersStep(tr[i], p, tr[i + 1])
    ensures MineKept(tr[from], p, tr[to])
  {
    if from == to {
      MineKeptReflexive(tr[from], p);
    } else {
      OthersKeepMine(tr, from, to - 1, p);
      assert OthersStep(tr[to - 1], p, tr[to - 1 + 1]);
      RunStepKeepsMine(tr, to - 1, p);
      MineKeptTransitive(tr[from], tr[to - 1], tr[to], p);
    }
  }

  /** p is not past its locks: it has not begun, waits for one, or is on its way out. */
  predicate Waits(pc: PC) { pc.Idle? || pc.WantVM? || pc.Exit? }

  ghost predicate Waited(tr: seq<State>, from: int, p: Proc)
  {
    forall i :: 0 <= from <= i < |tr| ==> Waits(tr[i].Pc(p))
  }

  ghost predicate Stayed(tr: seq<State>, from: nat, p: Proc)
    requires from < |tr|
  {
    forall i :: from <= i < |tr| ==> tr[i].Pc(p) == tr[from].Pc(p)
  }

  /** A sweep that has read the records: every directory is behind one of its locks. */
  predicate Collects(pc: PC)
  {
    pc.InGc? && (pc.sweep.Stray? || pc.sweep.ResetStray? || pc.sweep.Net?)
  }

  lemma SweepKeepsDirs(s: State, s': State, p: Proc)
    requires Inv(s) && Inv(s') && MineKept(s, p, s') && Collects(s.Pc(p))
    ensures s'.dirs == s.dirs
  {
    assert LockOk(s, p) && LockOk(s', p) && PcOk(s, s.Pc(p)) && PcOk(s', s.Pc(p));
    forall n | n in s.dirs || n in s'.dirs ensures SameDir(s, s', n) {
      assert n in HeldVMs(s.Pc(p));
      assert s.Holds(n, p);
    }
    assert s'.dirs == s.dirs;
  }

  /** With every VM locked, the ids a sweep has read stay the records' own. */
  lemma SnapshotIsExact(tr: seq<State>, i: nat, p: Proc)
    requires IsRun(tr) && i < |tr| && tr[i].Pc(p).InGc? && tr[i].Pc(p).sweep.Net?
    ensures tr[i].Pc(p).sweep.ids == tr[i].RecordIds()
    ensures tr[i].Pc(p).sweep.ok ==> forall n :: n in tr[i].dirs ==> tr[i].IsCommitted(n)
  {
    RunKeepsInv(tr, i);
    assert PcOk(tr[i], tr[i].Pc(p));
  }

  /** Of the directories only some of these went, and not before the marker stood. */
  ghost predicate OnlyWent(s: State, ns: set<Name>, s': State)
  {
    && (s.marker ==> s'.marker)
    && (forall n :: n in s'.dirs ==> n in s.dirs && s'.dirs[n] == s.dirs[n])
    && (forall n :: n in s.dirs && n !in s'.dirs ==> n in ns && s'.marker)
  }

  // ---- what a sweep does to directories, and what may stop it -----------------------------------------------------------

  /** p sweeps, or is outside every operation. */
  ghost predicate OnlySweeps(tr: seq<State>, from: int, p: Proc)
  {
    forall i :: 0 <= from <= i < |tr| ==> Waits(tr[i].Pc(p)) || tr[i].Pc(p).InGc?
  }

  ghost predicate SparesUsed(tr: seq<State>, j: int, p: Proc)
  {
    0 <= j < |tr| - 1 && tr[j].Pc(p) != tr[j + 1].Pc(p) ==>
      forall n :: n in tr[j].dirs && n !in tr[j + 1].dirs ==> DeadStray(tr[j], n)
  }

  /** Whatever directory p itself takes away has no record, no live process on its files, and the marker to stand for it. */
  ghost predicate RemovesOnlyDeadStrays(tr: seq<State>, from: int, p: Proc)
  {
    forall j :: 0 <= from <= j ==> SparesUsed(tr, j, p)
  }

  lemma SweepSparesUsed(tr: seq<State>, j: nat, p: Proc)
    requires IsRun(tr) && j + 1 < |tr| && (Waits(tr[j].Pc(p)) || tr[j].Pc(p).InGc?)
    ensures SparesUsed(tr, j, p)
  {
    assert Continues(tr, j);
    MoverRemoves(tr, j, p);
  }

  lemma MoverRemoves(tr: seq<State>, j: nat, p: Proc)
    requires IsRun(tr) && j + 1 < |tr| && Next(tr[j], tr[j + 1]) && (Waits(tr[j].Pc(p)) || tr[j].Pc(p).InGc?)
    ensures SparesUsed(tr, j, p)
  {
    var s, s' := tr[j], tr[j + 1];
    RunKeepsInv(tr, j);
    if q :| Step(s, q, s') {
      if q == p {
        forall n | n in s.dirs && n !in s'.dirs ensures DeadStray(s, n) { DirectoriesGoOnlyWhen(tr, j, p, n); }
      } else {
        StepGood(s, q, s');
      }
    }
  }

  /** In any run, a process that only sweeps takes away nothing that is in use. */
  lemma SweepsRemoveOnlyDeadStrays(tr: seq<State>, from: nat, p: Proc)
    requires IsRun(tr) && OnlySweeps(tr, from, p)
    ensures RemovesOnlyDeadStrays(tr, from, p)
  {
    forall j | from <= j ensures SparesUsed(tr, j, p) {
      if j < |tr| - 1 { SweepSparesUsed(tr, j, p); }
    }
  }

  /** A directory without a record in which a qemu runs. */
  ghost predicate UsedStray(s: State, n: Name) { s.IsBare(n) && s.Live(n) != {} }

  ghost predicate WasUsed(tr: seq<State>, from: int, n: Name) { exists j :: 0 <= from <= j < |tr| && UsedStray(tr[j], n) }

  /** What else than a failing call keeps p from a clean sweep: someone at work, or a stray in use. */
  ghost predicate Hindered(s: State, p: Proc)
  {
    || s.gcExcl.Some? || s.gcShared != {}
    || (exists n :: n in s.vmLock && s.vmLock[n] != p)
    || (exists n :: UsedStray(s, n))
  }

  ghost predicate WasHindered(tr: seq<State>, from: int, p: Proc) { exists j :: 0 <= from <= j < |tr| && Hindered(tr[j], p) }

  lemma UsedHinders(tr: seq<State>, from: int, n: Name, p: Proc)
    requires WasUsed(tr, from, n)
    ensures WasHindered(tr, from, p)
  {
    var j :| 0 <= from <= j < |tr| && UsedStray(tr[j], n);
    assert Hindered(tr[j], p);
  }

  lemma UsedStaysUsed(a: seq<State>, b: seq<State>, from: int, ns: set<Name>)
    requires a <= b
    ensures forall n :: n in ns && WasUsed(a, from, n) ==> WasUsed(b, from, n)
  {
    forall n | n in ns && WasUsed(a, from, n) ensures WasUsed(b, from, n) {
      var j :| 0 <= from <= j < |a| && UsedStray(a[j], n);
      assert b[j] == a[j];
    }
  }

  lemma LockedByAnother(tr: seq<State>, i: nat, p: Proc, n: Name)
    requires IsRun(tr) && i < |tr| && n in tr[i].vmLock && n !in HeldVMs(tr[i].Pc(p))
    ensures tr[i].vmLock[n] != p && Hindered(tr[i], p)
  {
    RunKeepsInv(tr, i);
    assert LockOk(tr[i], p);
    assert !tr[i].Holds(n, p);
  }

  lemma StrayIsBare(tr: seq<State>, i: nat, p: Proc, n: Name)
    requires IsRun(tr) && i < |tr| && tr[i].Pc(p).InGc? && tr[i].Pc(p).sweep.Stray? && n in tr[i].Pc(p).sweep.todo
    ensures n in tr[i].dirs ==> tr[i].IsBare(n)
  {
    RunKeepsInv(tr, i);
    assert PcOk(tr[i], tr[i].Pc(p));
  }

  /** Where a sweep goes after one phase of a stray's reset. */
  function AfterPhase(sw: Sweep, done: bool): Sweep
    requires sw.ResetStray?
  {
    if !done then Stray(sw.listed, sw.todo, sw.ids, sw.reg, false) else
    match sw.phase
    case KillNbd => ResetStray(sw.listed, sw.todo, sw.ids, sw.reg, sw.ok, sw.stray, Mark)
    case Mark => ResetStray(sw.listed, sw.todo, sw.ids, sw.reg, sw.ok, sw.stray, Remove)
    case Remove => Stray(sw.listed, sw.todo, sw.ids, sw.reg, sw.ok)
  }

  class Cli {
    const me: Proc
    const calm: bool // no external call of this process fails
    var s: State
    ghost var tr: seq<State> // how the host got here

    ghost predicate Valid() reads this { IsRun(tr) && tr[|tr| - 1] == s }

    constructor (me: Proc, calm: bool, s: State)
      requires Init(s)
      ensures Valid() && this.me == me && this.calm == calm && this.s == s
    {
      this.me, this.calm, this.s, this.tr := me, calm, s, [s];
    }

    /** One call into the host or a library: it may fail, unless the process is calm. */
    method Call() returns (ok: bool)
      ensures calm ==> ok
    {
      ok := *;
      if calm { ok := true; }
    }

    /** One atomic effect of this process. */
    method Do(next: State)
      requires Valid() && Step(s, me, next)
      modifies this
      ensures Valid() && s == next && tr == old(tr) + [next]
    {
      ghost var more := tr + [next];
      forall i | 0 <= i < |more| - 1 ensures Continues(more, i) {
        if i < |tr| - 1 { assert Continues(tr, i); }
      }
      s, tr := next, more;
    }

    /** Any number of steps of other processes, guests and kills elsewhere; callers know no more than this. */
    method Interfere()
      requires Valid()
      modifies this
      ensures Valid() && old(tr) <= tr
      ensures forall i :: |old(tr)| - 1 <= i < |tr| - 1 ==> OthersStep(tr[i], me, tr[i + 1])
    {
    }

    /** The same, with what it leaves untouched. */
    method Others()
      requires Valid()
      modifies this
      ensures Valid() && old(tr) <= tr && MineKept(old(s), me, s) && Stayed(tr, |old(tr)| - 1, me)
    {
      ghost var from := |tr| - 1;
      Interfere();
      forall i | from <= i < |tr| ensures MineKept(tr[from], me, tr[i]) {
        OthersKeepMine(tr, from, i, me);
      }
    }

    /** The same for a sweep past its locks: no directory changes. */
    method OthersInSweep()
      requires Valid() && Collects(s.Pc(me))
      modifies this
      ensures Valid() && old(tr) <= tr && s.Pc(me) == old(s).Pc(me) && s.dirs == old(s).dirs && (old(s).marker ==> s.marker)
      ensures OnlySweeps(tr, |old(tr)| - 1, me)
    {
      RunKeepsInv(tr, |tr| - 1);
      Others();
      RunKeepsInv(tr, |tr| - 1);
      SweepKeepsDirs(old(s), s, me);
    }

    // ---- leaving ---------------------------------------------------------------------------------------------------

    /** The deferred unlocks: the provisioning lock if shared, the VM locks, then the exclusive gc lock. */
    method Release()
      requires Valid() && s.Pc(me).Exit?
      modifies this
      ensures Valid() && old(tr) <= tr && s.Pc(me).Idle? && Waited(tr, |old(tr)| - 1, me)
    {
      DropLocks();
      Others();
      Do(s.At(me, Idle));
    }

    method DropLocks()
      requires Valid() && s.Pc(me).Exit?
      modifies this
      ensures Valid() && old(tr) <= tr && s.Pc(me) == Exit({}, false, false) && Waited(tr, |old(tr)| - 1, me)
    {
      Others();
      if s.Pc(me).shared { DropShared(); }
      DropVMs();
      if s.Pc(me).excl { DropExclusive(); }
    }

    method DropVMs()
      requires Valid() && s.Pc(me).Exit? && !s.Pc(me).shared
      modifies this
      ensures Valid() && old(tr) <= tr && s.Pc(me) == Exit({}, false, old(s).Pc(me).excl) && Waited(tr, |old(tr)| - 1, me)
    {
      while s.Pc(me).vms != {}
        invariant Valid() && old(tr) <= tr && s.Pc(me).Exit? && !s.Pc(me).shared && s.Pc(me).excl == old(s).Pc(me).excl
        invariant Waited(tr, |old(tr)| - 1, me)
        decreases s.Pc(me).vms
      {
        DropVM();
      }
    }

    method DropShared()
      requires Valid() && s.Pc(me).Exit? && s.Pc(me).shared
      modifies this
      ensures Valid() && old(tr) <= tr && s.Pc(me) == Exit(old(s).Pc(me).vms, false, old(s).Pc(me).excl)
      ensures Waited(tr, |old(tr)| - 1, me)
    {
      Do(s.(gcShared := s.gcShared - {me}).At(me, Exit(s.Pc(me).vms, false, s.Pc(me).excl)));
    }

    method DropVM()
      requires Valid() && s.Pc(me).Exit? && !s.Pc(me).shared && s.Pc(me).vms != {}
      modifies this
      ensures Valid() && old(tr) <= tr && s.Pc(me).Exit? && !s.Pc(me).shared && s.Pc(me).vms < old(s).Pc(me).vms
      ensures s.Pc(me).excl == old(s).Pc(me).excl && Waited(tr, |old(tr)| - 1, me)
    {
      var n :| n in s.Pc(me).vms;
      Others();
      Do(s.(vmLock := s.vmLock - {n}).At(me, Exit(s.Pc(me).vms - {n}, false, s.Pc(me).excl)));
    }

    method DropExclusive()
      requires Valid() && s.Pc(me) == Exit({}, false, true)
      modifies this
      ensures Valid() && old(tr) <= tr && s.Pc(me) == Exit({}, false, false)
      ensures Waited(tr, |old(tr)| - 1, me)
    {
      Others();
      Do(s.(gcExcl := None).At(me, Exit({}, false, false)));
    }

    method Quit()
      requires Valid() && (s.Pc(me).InOp? || s.Pc(me).InGc?) && Step(s, me, Leave(s, me))
      modifies this
      ensures Valid() && old(tr) <= tr && s.Pc(me).Idle? && Waited(tr, |old(tr)|, me)
      ensures |old(tr)| < |tr| && tr[|old(tr)|] == Leave(old(s), me)
    {
      Do(Leave(s, me));
      Release();
    }

    // ---- sweep ------------------------------------------------------------------------------------------------------

    /** A VM is locked by another process. */
    method GiveWay(n: Name)
      requires Valid() && s.Pc(me).InGc? && n in s.vmLock && n !in HeldVMs(s.Pc(me))
      modifies this
      ensures Valid() && old(tr) <= tr && s.Pc(me).Idle? && OnlySweeps(tr, |old(tr)| - 1, me) && WasHindered(tr, |old(tr)| - 1, me)
    {
      ghost var before := tr;
      LockedByAnother(tr, |tr| - 1, me, n);
      Quit();
      assert before <= tr && Hindered(tr[|before| - 1], me);
    }

    /** tryLockVMDirs: takes every listed VM's lock without waiting; one that is busy ends the sweep. */
    method TryLockVMDirs(listed: set<Name>) returns (locked: bool)
      requires Valid() && s.Pc(me) == InGc(Lock(listed, listed))
      modifies this
      ensures Valid() && old(tr) <= tr && OnlySweeps(tr, |old(tr)| - 1, me)
      ensures locked ==> s.Pc(me) == InGc(Lock(listed, {}))
      ensures !locked ==> s.Pc(me).Idle? && WasHindered(tr, |old(tr)| - 1, me)
    {
      var todo := listed;
      while todo != {}
        invariant Valid() && old(tr) <= tr && s.Pc(me) == InGc(Lock(listed, todo)) && todo <= listed
        invariant OnlySweeps(tr, |old(tr)| - 1, me)
        decreases todo
      {
        var n :| n in todo;
        Others();
        if n in s.vmLock {
          GiveWay(n);
          return false;
        }
        Do(Sweeping(s.(vmLock := s.vmLock[n := me]), me, Lock(listed, todo - {n})));
        todo := todo - {n};
      }
      return true;
    }

    /** vmGCModule.ReadDB: the ids of the records and the directories without one; an unreadable record ends the sweep. */
    method ReadDB(listed: set<Name>) returns (read: bool)
      requires Valid() && s.Pc(me) == InGc(Lock(listed, {}))
      modifies this
      ensures Valid() && old(tr) <= tr && OnlySweeps(tr, |old(tr)| - 1, me)
      ensures read ==> s.Pc(me).InGc? && s.Pc(me).sweep.Stray? && s.Pc(me).sweep.listed == listed && s.Pc(me).sweep.ok
      ensures !read ==> s.Pc(me).Idle? && !calm
      ensures read ==> (old(s).marker || listed != {} ==> s.Pc(me).sweep.reg) && (s.Pc(me).sweep.reg ==> listed != {} || s.marker)
    {
      Register(listed);
      while s.Pc(me).sweep.todo != {}
        invariant Valid() && old(tr) <= tr && s.Pc(me).InGc? && s.Pc(me).sweep.Read? && s.Pc(me).sweep.listed == listed
        invariant (old(s).marker || listed != {} ==> s.Pc(me).sweep.reg) && (s.Pc(me).sweep.reg ==> listed != {} || s.marker)
        invariant OnlySweeps(tr, |old(tr)| - 1, me)
        decreases s.Pc(me).sweep.todo
      {
        var readable := Call();
        if !readable {
          Quit();
          return false;
        }
        ReadOne();
      }
      ToStrays();
      return true;
    }

    /** The host collectors take part exactly if the root ever held a VM: it holds a directory, or the marker stands. */
    method Register(listed: set<Name>)
      requires Valid() && s.Pc(me) == InGc(Lock(listed, {}))
      modifies this
      ensures Valid() && old(tr) <= tr && OnlySweeps(tr, |old(tr)| - 1, me) && (old(s).marker ==> s.marker)
      ensures s.Pc(me) == InGc(Read(listed, listed, {}, {}, listed != {} || s.marker))
    {
      Others();
      Do(Sweeping(s, me, Read(listed, listed, {}, {}, !(listed == {} && !s.marker))));
    }

    method ToStrays()
      requires Valid() && s.Pc(me).InGc? && s.Pc(me).sweep.Read? && s.Pc(me).sweep.todo == {}
      modifies this
      ensures Valid() && old(tr) <= tr && OnlySweeps(tr, |old(tr)| - 1, me)
      ensures var sw := old(s).Pc(me).sweep; s.Pc(me) == InGc(Stray(sw.listed, sw.strays, sw.ids, sw.reg, true))
      ensures old(s).marker ==> s.marker
    {
      Others();
      Do(Sweeping(s, me, Stray(s.Pc(me).sweep.listed, s.Pc(me).sweep.strays, s.Pc(me).sweep.ids, s.Pc(me).sweep.reg, true)));
    }

    method ReadOne()
      requires Valid() && s.Pc(me).InGc? && s.Pc(me).sweep.Read? && s.Pc(me).sweep.todo != {}
      modifies this
      ensures Valid() && old(tr) <= tr && s.Pc(me).InGc? && s.Pc(me).sweep.Read? && s.Pc(me).sweep.listed == old(s).Pc(me).sweep.listed
      ensures s.Pc(me).sweep.todo < old(s).Pc(me).sweep.todo && OnlySweeps(tr, |old(tr)| - 1, me)
      ensures s.Pc(me).sweep.reg == old(s).Pc(me).sweep.reg && (old(s).marker ==> s.marker)
    {
      var n :| n in s.Pc(me).sweep.todo;
      Others();
      Do(Sweeping(s, me, Classify(s, s.Pc(me).sweep, n)));
    }

    /** vmGCModule.Collect: every stray is reset, or its error is kept and the next one tried. */
    method CollectStrays() returns (ghost failed: set<Name>)
      requires Valid() && s.Pc(me).InGc? && s.Pc(me).sweep.Stray?
      modifies this
      ensures Valid() && old(tr) <= tr && s.Pc(me).InGc? && s.Pc(me).sweep.Net? && s.Pc(me).sweep.listed == old(s).Pc(me).sweep.listed
      ensures OnlyWent(old(s), old(s).Pc(me).sweep.todo, s) && s.Pc(me).sweep.ids == s.RecordIds()
      ensures OnlySweeps(tr, |old(tr)| - 1, me) && RemovesOnlyDeadStrays(tr, |old(tr)| - 1, me)
      ensures forall n :: n in old(s).Pc(me).sweep.todo && n in s.dirs ==> n in failed
      ensures calm ==> forall n :: n in failed ==> WasUsed(tr, |old(tr)| - 1, n)
      ensures s.Pc(me).sweep.ok <==> old(s).Pc(me).sweep.ok && failed == {}
      ensures s.Pc(me).sweep.ok ==> forall n :: n in s.dirs ==> s.IsCommitted(n)
    {
      failed := VisitStrays();
      ghost var visited := tr;
      ToNet();
      UsedStaysUsed(visited, tr, |old(tr)| - 1, failed);
      SnapshotIsExact(tr, |tr| - 1, me);
      SweepsRemoveOnlyDeadStrays(tr, |old(tr)| - 1, me);
    }

    method ToNet()
      requires Valid() && s.Pc(me).InGc? && s.Pc(me).sweep.Stray? && s.Pc(me).sweep.todo == {}
      modifies this
      ensures Valid() && old(tr) <= tr && OnlySweeps(tr, |old(tr)| - 1, me)
      ensures s.dirs == old(s).dirs && (old(s).marker ==> s.marker)
      ensures var sw := old(s).Pc(me).sweep; s.Pc(me) == InGc(Net(sw.listed, sw.ids, sw.reg, sw.ok))
    {
      OthersInSweep();
      Do(Sweeping(s, me, Net(s.Pc(me).sweep.listed, s.Pc(me).sweep.ids, s.Pc(me).sweep.reg, s.Pc(me).sweep.ok)));
    }

    method VisitStrays() returns (ghost failed: set<Name>)
      requires Valid() && s.Pc(me).InGc? && s.Pc(me).sweep.Stray?
      modifies this
      ensures Valid() && old(tr) <= tr && s.Pc(me).InGc? && s.Pc(me).sweep.Stray? && s.Pc(me).sweep.todo == {}
      ensures s.Pc(me).sweep.listed == old(s).Pc(me).sweep.listed && OnlySweeps(tr, |old(tr)| - 1, me)
      ensures OnlyWent(old(s), old(s).Pc(me).sweep.todo, s)
      ensures forall n :: n in old(s).Pc(me).sweep.todo && n in s.dirs ==> n in failed
      ensures calm ==> forall n :: n in failed ==> WasUsed(tr, |old(tr)| - 1, n)
      ensures s.Pc(me).sweep.ok <==> old(s).Pc(me).sweep.ok && failed == {}
    {
      failed := {};
      while s.Pc(me).sweep.todo != {}
        invariant Valid() && old(tr) <= tr && s.Pc(me).InGc? && s.Pc(me).sweep.Stray? && s.Pc(me).sweep.listed == old(s).Pc(me).sweep.listed
        invariant s.Pc(me).sweep.todo <= old(s).Pc(me).sweep.todo && OnlyWent(old(s), old(s).Pc(me).sweep.todo, s)
        invariant forall n :: n in old(s).Pc(me).sweep.todo && n in s.dirs ==> n in failed || n in s.Pc(me).sweep.todo
        invariant s.Pc(me).sweep.ok <==> old(s).Pc(me).sweep.ok && failed == {}
        invariant OnlySweeps(tr, |old(tr)| - 1, me) && (calm ==> forall n :: n in failed ==> WasUsed(tr, |old(tr)| - 1, n))
        decreases s.Pc(me).sweep.todo
      {
        ghost var before := tr;
        ghost var n, ok := CollectStray();
        UsedStaysUsed(before, tr, |old(tr)| - 1, failed);
        if !ok { failed := failed + {n}; }
      }
    }

    /** resetIncompleteVMDir on one stray: if it succeeds the directory is gone. */
    method CollectStray() returns (ghost n: Name, ghost ok: bool)
      requires Valid() && s.Pc(me).InGc? && s.Pc(me).sweep.Stray? && s.Pc(me).sweep.todo != {}
      modifies this
      ensures Valid() && old(tr) <= tr && s.Pc(me).InGc? && s.Pc(me).sweep.Stray? && s.Pc(me).sweep.listed == old(s).Pc(me).sweep.listed
      ensures n in old(s).Pc(me).sweep.todo && s.Pc(me).sweep.todo == old(s).Pc(me).sweep.todo - {n}
      ensures OnlyWent(old(s), {n}, s) && (ok ==> n !in s.dirs) && OnlySweeps(tr, |old(tr)| - 1, me)
      ensures calm && !ok ==> WasUsed(tr, |old(tr)| - 1, n)
      ensures s.Pc(me).sweep.ok <==> old(s).Pc(me).sweep.ok && ok
    {
      var m :| m in s.Pc(me).sweep.todo;
      n := m;
      OthersInSweep();
      ok := CollectDir(m);
    }

    /** An absent directory is fine, one with a live qemu is refused, any other is reset. */
    method CollectDir(n: Name) returns (ghost ok: bool)
      requires Valid() && s.Pc(me).InGc? && s.Pc(me).sweep.Stray? && n in s.Pc(me).sweep.todo
      modifies this
      ensures Valid() && old(tr) <= tr && s.Pc(me).InGc? && s.Pc(me).sweep.Stray? && s.Pc(me).sweep.listed == old(s).Pc(me).sweep.listed
      ensures s.Pc(me).sweep.todo == old(s).Pc(me).sweep.todo - {n} && OnlySweeps(tr, |old(tr)| - 1, me)
      ensures OnlyWent(old(s), {n}, s) && (ok ==> n !in s.dirs) && (s.Pc(me).sweep.ok <==> old(s).Pc(me).sweep.ok && ok)
      ensures calm && !ok ==> UsedStray(old(s), n)
    {
      var sw := s.Pc(me).sweep;
      StrayIsBare(tr, |tr| - 1, me, n);
      ok := true;
      var scanned := Call();
      if n !in s.dirs {
        VisitTo(sw, n, Stray(sw.listed, sw.todo - {n}, sw.ids, sw.reg, sw.ok));
      } else if !scanned || s.Live(n) != {} {
        VisitTo(sw, n, Stray(sw.listed, sw.todo - {n}, sw.ids, sw.reg, false));
        ok := false;
      } else {
        VisitTo(sw, n, ResetStray(sw.listed, sw.todo - {n}, sw.ids, sw.reg, sw.ok, n, KillNbd));
        ok := ResetPhases();
      }
    }

    method VisitTo(sw: Sweep, n: Name, to: Sweep)
      requires Valid() && sw.Stray? && s.Pc(me) == InGc(sw) && n in sw.todo && VisitStray(s, me, sw, n, Sweeping(s, me, to))
      modifies this
      ensures Valid() && tr == old(tr) + [s] && s == Sweeping(old(s), me, to) && s.Pc(me) == InGc(to)
    {
      Do(Sweeping(s, me, to));
    }

    /** Kill stray servers, set the marker, then remove: each may fail, and the removal comes last. */
    method ResetPhases() returns (ghost done: bool)
      requires Valid() && s.Pc(me).InGc? && s.Pc(me).sweep.ResetStray? && s.Pc(me).sweep.phase.KillNbd?
      modifies this
      ensures Valid() && old(tr) <= tr && s.Pc(me).InGc? && s.Pc(me).sweep.Stray? && s.Pc(me).sweep.listed == old(s).Pc(me).sweep.listed
      ensures s.Pc(me).sweep.todo == old(s).Pc(me).sweep.todo && OnlyWent(old(s), {old(s).Pc(me).sweep.stray}, s)
      ensures done ==> old(s).Pc(me).sweep.stray !in s.dirs
      ensures s.Pc(me).sweep.ok <==> old(s).Pc(me).sweep.ok && done
      ensures OnlySweeps(tr, |old(tr)| - 1, me) && (calm ==> done)
    {
      done := ResetPhase();
      if s.Pc(me).sweep.ResetStray? { done := ResetPhase(); }
      if s.Pc(me).sweep.ResetStray? { done := ResetPhase(); }
    }

    method ResetPhase() returns (ghost done: bool)
      requires Valid() && s.Pc(me).InGc? && s.Pc(me).sweep.ResetStray?
      requires s.Pc(me).sweep.phase.Remove? ==> s.marker
      modifies this
      ensures Valid() && old(tr) <= tr && s.Pc(me).InGc?
      ensures s.Pc(me).sweep == AfterPhase(old(s).Pc(me).sweep, done)
      ensures s.dirs == if done && old(s).Pc(me).sweep.phase.Remove? then old(s).dirs - {old(s).Pc(me).sweep.stray} else old(s).dirs
      ensures old(s).marker || (done && old(s).Pc(me).sweep.phase.Mark?) ==> s.marker
      ensures OnlySweeps(tr, |old(tr)| - 1, me) && (calm ==> done)
    {
      OthersInSweep();
      var sw := s.Pc(me).sweep;
      var ok := Call();
      done := ok;
      Do(Sweeping(if ok then ResetEffect(s, sw.stray, sw.phase) else s, me, AfterPhase(sw, ok)));
    }

    /** The host collectors drop what no active id owns; a failure may leave some of it. */
    method CollectNet()
      requires Valid() && s.Pc(me).InGc? && s.Pc(me).sweep.Net?
      modifies this
      ensures Valid() && old(tr) <= tr && s.Pc(me).InGc? && s.Pc(me).sweep.Done? && s.Pc(me).sweep.listed == old(s).Pc(me).sweep.listed
      ensures OnlySweeps(tr, |old(tr)| - 1, me) && (calm ==> s.Pc(me).sweep.ok == old(s).Pc(me).sweep.ok)
    {
      Others();
      var sw := s.Pc(me).sweep;
      var collected := Call();
      if !sw.reg {
        Do(Sweeping(s, me, Done(sw.listed, sw.ok)));
      } else if !collected {
        var some: set<Device> := Orphans(s, sw.ids);
        var left: set<Device> :| left <= some;
        Do(Sweeping(s.(devices := s.devices - left), me, Done(sw.listed, false)));
      } else {
        Do(Sweeping(s.(devices := s.devices - Orphans(s, sw.ids)), me, Done(sw.listed, sw.ok)));
      }
    }

    /** The exclusive gc lock, taken only if it is free, then the directories; nothing is listed before the lock is held. */
    method ListUnderLock() returns (listed: Option<set<Name>>)
      requires Valid() && s.Pc(me).Idle?
      modifies this
      ensures Valid() && old(tr) <= tr && OnlySweeps(tr, |old(tr)| - 1, me)
      ensures listed.None? ==> s.Pc(me).Idle? && WasHindered(tr, |old(tr)| - 1, me)
      ensures listed.Some? ==> s.Pc(me) == InGc(Lock(listed.value, listed.value))
    {
      Others();
      if s.gcExcl.Some? || s.gcShared != {} {
        assert Hindered(tr[|tr| - 1], me);
        return None;
      }
      Do(s.(gcExcl := Some(me)).At(me, InGc(List)));
      Others();
      var dirs := s.dirs.Keys;
      Do(Sweeping(s, me, Lock(dirs, dirs)));
      listed := Some(dirs);
    }

    ghost predicate Clean(h: State)
    {
      (forall n :: n in h.dirs ==> h.IsCommitted(n)) && (forall d :: d in h.devices ==> d.vmid in h.RecordIds())
    }

    method Finish() returns (ok: bool, ghost at: nat)
      requires Valid() && s.Pc(me).InGc? && s.Pc(me).sweep.Done?
      modifies this
      ensures Valid() && old(tr) <= tr && s.Pc(me).Idle? && OnlySweeps(tr, |old(tr)| - 1, me) && ok == old(s).Pc(me).sweep.ok
      ensures ok ==> |old(tr)| <= at + 1 && at < |tr| && Clean(tr[at])
    {
      ok, at := s.Pc(me).sweep.ok, |tr| - 1;
      if ok { SweepIsComplete(tr, at, me, s.Pc(me).sweep.listed); }
      ghost var done := tr;
      Quit();
      assert tr[at] == done[at];
    }

    /**
     gc: if it reports success, there was a moment at which only committed directories and their devices were left; it takes
     away nothing in use; and without a failing call it succeeds unless another process is at work or a stray is in use.
     */
    method GC() returns (ok: bool, ghost at: nat)
      requires Valid() && s.Pc(me).Idle?
      modifies this
      ensures Valid() && old(tr) <= tr && s.Pc(me).Idle?
      ensures ok ==> |old(tr)| <= at < |tr| && Clean(tr[at])
      ensures RemovesOnlyDeadStrays(tr, |old(tr)| - 1, me)
      ensures calm && !ok ==> WasHindered(tr, |old(tr)| - 1, me)
    {
      ok, at := SweepAll();
      SweepsRemoveOnlyDeadStrays(tr, |old(tr)| - 1, me);
    }

    method SweepAll() returns (ok: bool, ghost at: nat)
      requires Valid() && s.Pc(me).Idle?
      modifies this
      ensures Valid() && old(tr) <= tr && s.Pc(me).Idle? && OnlySweeps(tr, |old(tr)| - 1, me)
      ensures ok ==> |old(tr)| <= at < |tr| && Clean(tr[at])
      ensures calm && !ok ==> WasHindered(tr, |old(tr)| - 1, me)
    {
      ok, at := false, 0;
      var listed := ListUnderLock();
      if listed.None? { return; }
      var locked := TryLockVMDirs(listed.value);
      if !locked { return; }
      ok, at := SweepLocked(listed.value);
    }

    /** The sweep once every listed VM is locked. */
    method SweepLocked(listed: set<Name>) returns (ok: bool, ghost at: nat)
      requires Valid() && s.Pc(me) == InGc(Lock(listed, {}))
      modifies this
      ensures Valid() && old(tr) <= tr && s.Pc(me).Idle? && OnlySweeps(tr, |old(tr)| - 1, me)
      ensures ok ==> |old(tr)| <= at < |tr| && Clean(tr[at])
      ensures calm && !ok ==> WasHindered(tr, |old(tr)| - 1, me)
    {
      ok, at := false, 0;
      var read := ReadDB(listed);
      if !read { return; }
      ghost var before := tr;
      ghost var failed := CollectStrays();
      ghost var collected := tr;
      CollectNet();
      ok, at := Finish();
      if calm && !ok {
        ghost var n :| n in failed;
        assert WasUsed(collected, |before| - 1, n);
        UsedStaysUsed(collected, tr, |before| - 1, failed);
        UsedHinders(tr, |before| - 1, n, me);
      }
    }

  }
}
