/** create, run and rm as the code runs them: each external call may fail, and the deferred cleanup follows. */
module Lifecycle {
  import opened Wrappers
  import opened Text
  import opened Host
  import opened Protocol
  import opened Invariant
  import opened Runs
  import opened Safety
  import opened Agent
  import opened Refusal

  /**
   How create or run ended: before its directory, with its first images failing and the directory removed or not, made, or
   rolled back, cleanly when every cleanup call succeeded.
   */
  datatype Outcome = Refused | Unbuilt(removed: bool) | Made | RolledBack(clean: bool)

  predicate Boots(op: Op) { op.Create? && op.run }

  predicate In(c: Cli, op: Op, at: Point)
    reads c
  {
    c.s.Pc(c.me) == InOp(op, at)
  }

  /** At some moment another process held one of these VMs. */
  ghost predicate Contended(tr: seq<State>, from: int, p: Proc, ns: set<Name>)
  {
    exists j, n :: 0 <= from <= j < |tr| && n in ns && n in tr[j].vmLock && tr[j].vmLock[n] != p
  }

  /** withVMLock and withVMLocks: an operation's VM locks in path order; a cancelled wait drops what is held. */
  method LockVMs(c: Cli, op: Op) returns (locked: bool)
    requires c.Valid() && c.s.Pc(c.me).Idle?
    modifies c
    ensures c.Valid() && old(c.tr) <= c.tr && StaysEarly(c.tr, |old(c.tr)| - 1, c.me, op)
    ensures locked ==> In(c, op, Entered)
    ensures !locked ==> c.s.Pc(c.me).Idle? && Waited(c.tr, |old(c.tr)| - 1, c.me) && Contended(c.tr, |old(c.tr)| - 1, c.me, VMs(op))
  {
    c.Others();
    c.Do(c.s.At(c.me, WantVM(op, {})));
    while c.s.Pc(c.me).WantVM?
      invariant c.Valid() && old(c.tr) <= c.tr && StaysEarly(c.tr, |old(c.tr)| - 1, c.me, op)
      invariant In(c, op, Entered) || Waited(c.tr, |old(c.tr)| - 1, c.me)
      invariant c.s.Pc(c.me).Idle? ==> Contended(c.tr, |old(c.tr)| - 1, c.me, VMs(op))
      invariant c.s.Pc(c.me).Idle? || In(c, op, Entered)
             || (c.s.Pc(c.me).WantVM? && c.s.Pc(c.me).want == op && c.s.Pc(c.me).held <= VMs(op))
      decreases if c.s.Pc(c.me).WantVM? then 1 else 0, if c.s.Pc(c.me).WantVM? then VMs(op) - c.s.Pc(c.me).held else {}
    {
      LockNext(c, op);
    }
    locked := c.s.Pc(c.me).InOp?;
  }

  /** Waits for the next lock in order: it is taken once free, or the wait is cancelled. */
  method LockNext(c: Cli, op: Op)
    requires c.Valid() && c.s.Pc(c.me).WantVM? && c.s.Pc(c.me).want == op && c.s.Pc(c.me).held <= VMs(op)
    modifies c
    ensures c.Valid() && old(c.tr) <= c.tr && StaysEarly(c.tr, |old(c.tr)| - 1, c.me, op)
    ensures In(c, op, Entered) || Waited(c.tr, |old(c.tr)| - 1, c.me)
    ensures c.s.Pc(c.me).Idle? ==> Contended(c.tr, |old(c.tr)| - 1, c.me, VMs(op))
    ensures c.s.Pc(c.me).Idle? || In(c, op, Entered)
         || (&& c.s.Pc(c.me).WantVM? && c.s.Pc(c.me).want == op
             && old(c.s).Pc(c.me).held < c.s.Pc(c.me).held <= VMs(op))
  {
    c.Others();
    var held := c.s.Pc(c.me).held;
    var n := NextLock(op, held);
    if n in c.s.vmLock {
      CancelWait(c, op);
    } else {
      TakeNext(c, op);
    }
  }

  method CancelWait(c: Cli, op: Op)
    requires c.Valid() && c.s.Pc(c.me).WantVM? && c.s.Pc(c.me).want == op && NextLock(op, c.s.Pc(c.me).held) in c.s.vmLock
    modifies c
    ensures c.Valid() && old(c.tr) <= c.tr && c.s.Pc(c.me).Idle? && Waited(c.tr, |old(c.tr)| - 1, c.me)
    ensures Contended(c.tr, |old(c.tr)| - 1, c.me, VMs(op))
  {
    ghost var before := c.tr;
    NotYetHeld(c, op, c.s.Pc(c.me).held);
    LockedByAnother(c.tr, |c.tr| - 1, c.me, NextLock(op, c.s.Pc(c.me).held));
    ghost var n := NextLock(op, c.s.Pc(c.me).held);
    c.Do(Leave(c.s, c.me));
    c.Release();
    assert before <= c.tr && c.tr[|before| - 1] == before[|before| - 1] && n in c.tr[|before| - 1].vmLock;
  }

  method TakeNext(c: Cli, op: Op)
    requires c.Valid() && c.s.Pc(c.me).WantVM? && c.s.Pc(c.me).want == op && c.s.Pc(c.me).held <= VMs(op)
    requires NextLock(op, c.s.Pc(c.me).held) !in c.s.vmLock
    modifies c
    ensures c.Valid() && c.tr == old(c.tr) + [c.s]
    ensures In(c, op, Entered)
         || (c.s.Pc(c.me).WantVM? && c.s.Pc(c.me).want == op && old(c.s).Pc(c.me).held < c.s.Pc(c.me).held <= VMs(op))
  {
    var held := c.s.Pc(c.me).held;
    var n := NextLock(op, held);
    NotYetHeld(c, op, held);
    c.Do(c.s.(vmLock := c.s.vmLock[n := c.me]).At(c.me, if held + {n} == VMs(op) then InOp(op, Entered) else WantVM(op, held + {n})));
  }

  lemma NotYetHeld(c: Cli, op: Op, held: set<Name>)
    requires c.Valid() && c.s.Pc(c.me) == WantVM(op, held)
    ensures NextLock(op, held) in VMs(op) && NextLock(op, held) !in held
  {
    RunKeepsInv(c.tr, |c.tr| - 1);
    assert PcOk(c.s, c.s.Pc(c.me));
  }

  // ---- cleanupFailedVM ---------------------------------------------------------------------------------------------

  /** One phase of the cleanup: it succeeds, or its failure is recorded and the cleanup goes on. */
  method StopFailed(c: Cli, op: Op, at: Point) returns (to: Point)
    requires c.Valid() && at.Rollback? && at.phase.StopQemu? && In(c, op, at)
    modifies c
    ensures c.Valid() && old(c.tr) <= c.tr && to.Rollback? && to.phase.Teardown? && to.id == at.id && In(c, op, to)
    ensures c.calm ==> to.clean == at.clean
  {
    c.Others();
    var stopped := c.Call();
    to := if stopped then at.(phase := Teardown) else at.(clean := false, phase := Teardown);
    c.Do(To(if stopped then c.s.Without({at.qemu} * c.s.Live(op.name)) else c.s, c.me, op, to));
  }

  method TeardownFailed(c: Cli, op: Op, at: Point) returns (to: Point)
    requires c.Valid() && at.Rollback? && at.phase.Teardown? && In(c, op, at)
    modifies c
    ensures c.Valid() && old(c.tr) <= c.tr && to.Rollback? && to.phase.Reap? && to.id == at.id && In(c, op, to)
    ensures c.calm ==> to.clean == at.clean
  {
    c.Others();
    var torn := c.Call();
    to := if torn || !at.tear then at.(phase := Reap) else at.(clean := false, phase := Reap);
    c.Do(To(if torn && at.tear then c.s.(devices := c.s.DevicesExcept(at.id)) else c.s, c.me, op, to));
  }

  method ReapFailed(c: Cli, op: Op, at: Point) returns (to: Point)
    requires c.Valid() && at.Rollback? && at.phase.Reap? && In(c, op, at)
    modifies c
    ensures c.Valid() && old(c.tr) <= c.tr && to.Rollback? && to.phase.RemoveDir? && to.id == at.id && In(c, op, to)
    ensures c.calm ==> to.clean == at.clean
  {
    c.Others();
    var reaped := c.Call();
    to := if reaped then at.(phase := RemoveDir) else at.(clean := false, phase := RemoveDir);
    c.Do(To(if reaped then c.s.Without(c.s.Live(op.name) + c.s.Helpers(op.name)) else c.s, c.me, op, to));
  }

  method StopTeardownReap(c: Cli, op: Op, at: Point) returns (to: Point)
    requires c.Valid() && at.Rollback? && at.phase.StopQemu? && In(c, op, at)
    modifies c
    ensures c.Valid() && old(c.tr) <= c.tr && to.Rollback? && to.phase.RemoveDir? && to.id == at.id && In(c, op, to)
    ensures c.calm ==> to.clean == at.clean
  {
    to := StopFailed(c, op, at);
    to := TeardownFailed(c, op, to);
    to := ReapFailed(c, op, to);
    c.Others();
  }

  /** os.RemoveAll: a failure may already have taken the record. */
  method RemoveTree(c: Cli, op: Op, at: Point) returns (to: Point)
    requires c.Valid() && at.Rollback? && at.phase.RemoveDir? && In(c, op, at)
    modifies c
    ensures c.Valid() && old(c.tr) <= c.tr && to.Rollback? && to.phase.Finished? && to.id == at.id && In(c, op, to)
    ensures c.calm ==> to.clean == at.clean
  {
    var removed := c.Call();
    if removed {
      to := at.(phase := Finished);
      c.Do(To(Abandon(c.s, op.name).(dirs := c.s.dirs - {op.name}), c.me, op, to));
    } else {
      var half: bool := *;
      if half && c.s.IsCommitted(op.name) {
        c.Do(To(Abandon(c.s, op.name).(dirs := c.s.dirs[op.name := Bare]), c.me, op, at));
        c.Others();
      }
      to := at.(clean := false, phase := Finished);
      c.Do(To(c.s, c.me, op, to));
    }
  }

  ghost predicate NothingLeft(h: State, n: Name, id: Vmid)
  {
    n !in h.dirs && h.Live(n) == {} && h.Helpers(n) == {} && forall d :: d in h.devices ==> d.vmid != id
  }

  /** cleanupFailedVM: all four calls are made whatever fails; if none did, nothing of the VM is left. */
  method CleanupFailedVM(c: Cli, op: Op, at: Point) returns (clean: bool, ghost done: nat)
    requires c.Valid() && at.Rollback? && at.phase.StopQemu? && In(c, op, at)
    modifies c
    ensures c.Valid() && old(c.tr) <= c.tr && c.s.Pc(c.me).Idle?
    ensures |old(c.tr)| <= done < |c.tr| && (clean ==> NothingLeft(c.tr[done], op.name, at.id))
    ensures c.calm && at.clean ==> clean
  {
    var to := StopTeardownReap(c, op, at);
    to := RemoveTree(c, op, to);
    clean, done := to.clean, |c.tr| - 1;
    if clean { RollbackLeavesNothing(c.tr, done, c.me, op, to); }
    ghost var tr := c.tr;
    c.Do(Leave(c.s, c.me));
    c.Release();
    assert c.tr[done] == tr[done];
  }

  // ---- rm ------------------------------------------------------------------------------------------------------------

  /** Gone, or given up: before its lock, with the record kept, or on the way to the removal. */
  datatype RmResult = Gone | Busy | Kept | Stuck

  /** At one moment after from, the last before the lock goes, the VM still has its directory. */
  ghost predicate LeftThere(c: Cli, from: nat, at: nat, n: Name)
    reads c
  {
    from <= at + 1 && at + 1 < |c.tr| && n in c.tr[at].dirs && c.tr[at].Holds(n, c.me)
    && c.tr[at + 1].Pc(c.me).Exit? && n in c.tr[at + 1].dirs
  }

  /** The same with its record. */
  ghost predicate KeptRecord(c: Cli, from: nat, at: nat, n: Name)
    reads c
  {
    LeftThere(c, from, at, n) && c.tr[at].IsCommitted(n) && c.tr[at + 1].IsCommitted(n)
  }

  /** An error return: only the deferred unlocks follow. */
  method GiveUp(c: Cli, op: Op) returns (ghost kept: nat)
    requires c.Valid() && c.s.Pc(c.me).InOp? && c.s.Pc(c.me).op == op && op.name in c.s.dirs && Step(c.s, c.me, Leave(c.s, c.me))
    modifies c
    ensures c.Valid() && old(c.tr) <= c.tr && c.s.Pc(c.me).Idle? && LeftThere(c, |old(c.tr)|, kept, op.name)
    ensures c.tr[kept] == old(c.s) && c.tr[kept + 1].dirs == old(c.s).dirs && Waited(c.tr, |old(c.tr)|, c.me)
    ensures old(c.s).IsCommitted(op.name) ==> KeptRecord(c, |old(c.tr)|, kept, op.name)
  {
    HoldsOwn(c, op);
    kept := |c.tr| - 1;
    ghost var here := c.s;
    ghost var before := c.tr;
    c.Quit();
    assert before <= c.tr && c.tr[kept] == here;
  }

  lemma HoldsOwn(c: Cli, op: Op)
    requires c.Valid() && c.s.Pc(c.me).InOp? && c.s.Pc(c.me).op == op
    ensures c.s.Holds(op.name, c.me)
  {
    RunKeepsInv(c.tr, |c.tr| - 1);
    assert LockOk(c.s, c.me) && op.name in HeldVMs(c.s.Pc(c.me));
  }

  /** The record of n is there under the network id v. */
  predicate Keyed(c: Cli, n: Name, v: Vmid)
    reads c
  {
    c.s.IsCommitted(n) && c.s.dirs[n].rec.vmid == v
  }

  /** Others let go by while an operation holds its VM: the record keeps its id, and the id its devices. */
  method Await(c: Cli, op: Op, v: Vmid)
    requires c.Valid() && c.s.Pc(c.me).InOp? && c.s.Pc(c.me).op == op && Keyed(c, op.name, v)
    modifies c
    ensures c.Valid() && old(c.tr) <= c.tr && c.s.Pc(c.me) == old(c.s).Pc(c.me) && Keyed(c, op.name, v)
    ensures c.s.dirs[op.name] == old(c.s).dirs[op.name] && SameDevices(old(c.s), c.s, v) && (old(c.s).marker ==> c.s.marker)
  {
    HoldsOwn(c, op);
    c.Others();
  }

  /** More than one qemu of n lives, and the record names none of them. */
  ghost predicate Corrupt(h: State, n: Name)
  {
    h.IsCommitted(n) && h.dirs[n].rec.pid !in h.Live(n) && exists x, y :: x in h.Live(n) && y in h.Live(n) && x != y
  }

  /**
   reconcileRunningQEMU on a committed record: the live pid, an adopted one, or none. A failed scan or write keeps it from an
   answer, and so does more than one live qemu.
   */
  method Reconcile(c: Cli, op: Op, v: Vmid) returns (known: bool, ghost kept: nat)
    requires c.Valid() && (op.Rm? || op.Stop?) && In(c, op, Entered) && Keyed(c, op.name, v)
    modifies c
    ensures c.Valid() && old(c.tr) <= c.tr
    ensures known ==> c.s.Pc(c.me).InOp? && c.s.Pc(c.me).op == op && c.s.Pc(c.me).at.Stopping? && Keyed(c, op.name, v)
    ensures known ==> c.s.dirs[op.name].rec.(pid := 0) == old(c.s).dirs[op.name].rec.(pid := 0) && c.s.devices == old(c.s).devices
    ensures !known ==> c.s.Pc(c.me).Idle? && KeptRecord(c, |old(c.tr)|, kept, op.name) && (c.calm ==> Corrupt(c.tr[kept], op.name))
  {
    kept := 0;
    var pid := c.s.dirs[op.name].rec.pid;
    if pid in c.s.Live(op.name) {
      c.Do(To(c.s, c.me, op, Stopping(pid)));
      return true, kept;
    }
    var scanned := c.Call();
    if scanned && |c.s.Live(op.name)| <= 1 {
      known := AdoptTheOne(c, op, v);
      if known { return; }
    }
    if scanned && |c.s.Live(op.name)| > 1 { TwoLive(c.s, op.name); }
    kept := GiveUp(c, op);
    return false, kept;
  }

  /** The scan found at most one qemu, which the record does not name yet. */
  method AdoptTheOne(c: Cli, op: Op, v: Vmid) returns (saved: bool)
    requires c.Valid() && (op.Rm? || op.Stop?) && In(c, op, Entered) && Keyed(c, op.name, v) && c.s.dirs[op.name].rec.pid !in c.s.Live(op.name) && |c.s.Live(op.name)| <= 1
    modifies c
    ensures c.Valid() && old(c.tr) <= c.tr && Keyed(c, op.name, v) && (c.calm ==> saved)
    ensures c.s.dirs[op.name].rec.(pid := 0) == old(c.s).dirs[op.name].rec.(pid := 0) && c.s.devices == old(c.s).devices
    ensures if saved then c.s.Pc(c.me).InOp? && c.s.Pc(c.me).op == op && c.s.Pc(c.me).at.Stopping?
            else c.tr == old(c.tr) && c.s == old(c.s)
  {
    if c.s.Live(op.name) == {} {
      c.Do(To(c.s, c.me, op, Stopping(0)));
      return true;
    }
    var x :| x in c.s.Live(op.name);
    OneLive(c.s.Live(op.name), x);
    saved := c.Call();
    if saved { c.Do(To(Adopt(c.s, op.name, x), c.me, op, Stopping(x))); }
  }

  lemma OneLive(live: set<Pid>, x: Pid)
    requires x in live && |live| <= 1
    ensures live == {x}
  {
    assert |live - {x}| == 0;
    assert live == {x} + (live - {x});
  }

  lemma TwoLive(h: State, n: Name)
    requires h.IsCommitted(n) && h.dirs[n].rec.pid !in h.Live(n) && |h.Live(n)| > 1
    ensures Corrupt(h, n)
  {
    var x :| x in h.Live(n);
    assert |h.Live(n) - {x}| > 0;
    var y :| y in h.Live(n) - {x};
  }

  /** stopInstance: the qemu it was told of is terminated, or the command gives up with the record in place. */
  method StopInstance(c: Cli, op: Op, v: Vmid) returns (stopped: bool, ghost kept: nat)
    requires c.Valid() && (op.Rm? || op.Stop?) && c.s.Pc(c.me).InOp? && c.s.Pc(c.me).op == op && c.s.Pc(c.me).at.Stopping?
    requires Keyed(c, op.name, v)
    modifies c
    ensures c.Valid() && old(c.tr) <= c.tr
    ensures stopped ==> In(c, op, Stopped) && Keyed(c, op.name, v) && c.s.Owned(op.name) == {}
                        && c.s.dirs[op.name] == old(c.s).dirs[op.name] && SameDevices(old(c.s), c.s, v)
    ensures !stopped ==> c.s.Pc(c.me).Idle? && KeptRecord(c, |old(c.tr)|, kept, op.name) && !c.calm
  {
    kept := 0;
    Await(c, op, v);
    stopped := c.Call();
    if !stopped {
      kept := GiveUp(c, op);
      return false, kept;
    }
    StoppableIsOwn(c, op);
    c.Do(To(c.s.Without({c.s.Pc(c.me).at.running} * c.s.Live(op.name)), c.me, op, Stopped));
  }

  lemma StoppableIsOwn(c: Cli, op: Op)
    requires c.Valid() && c.s.Pc(c.me).InOp? && c.s.Pc(c.me).op == op && c.s.Pc(c.me).at.Stopping?
    ensures c.s.Owned(op.name) <= {c.s.Pc(c.me).at.running}
  {
    RunKeepsInv(c.tr, |c.tr| - 1);
    assert PcOk(c.s, c.s.Pc(c.me));
  }

  /** stopInstance, then teardownNet: if either fails, rm gives up its lock with the record still in place. */
  method StopAndRelease(c: Cli, n: Name, v: Vmid) returns (stopped: bool, ghost kept: nat)
    requires c.Valid() && c.s.Pc(c.me).InOp? && c.s.Pc(c.me).op == Rm(n) && c.s.Pc(c.me).at.Stopping? && Keyed(c, n, v)
    modifies c
    ensures c.Valid() && old(c.tr) <= c.tr
    ensures stopped ==> In(c, Rm(n), RmMark) && Keyed(c, n, v) && NoDevice(c.s, v)
    ensures !stopped ==> c.s.Pc(c.me).Idle? && KeptRecord(c, |old(c.tr)|, kept, n) && !c.calm
  {
    stopped, kept := StopInstance(c, Rm(n), v);
    if stopped { stopped, kept := TeardownNet(c, n, v); }
  }

  /** teardownNet: the devices of the record's id go; a record that owns none has none. */
  method TeardownNet(c: Cli, n: Name, v: Vmid) returns (torn: bool, ghost kept: nat)
    requires c.Valid() && In(c, Rm(n), Stopped) && Keyed(c, n, v)
    modifies c
    ensures c.Valid() && old(c.tr) <= c.tr
    ensures torn ==> In(c, Rm(n), RmMark) && Keyed(c, n, v) && NoDevice(c.s, v)
    ensures !torn ==> c.s.Pc(c.me).Idle? && KeptRecord(c, |old(c.tr)|, kept, n) && !c.calm
  {
    kept := 0;
    Await(c, Rm(n), v);
    var ok := c.Call();
    if !ok {
      kept := GiveUp(c, Rm(n));
      return false, kept;
    }
    UnownedHasNone(c, n);
    c.Do(To(if c.s.dirs[n].rec.owned then c.s.(devices := c.s.DevicesExcept(v)) else c.s, c.me, Rm(n), RmMark));
    return true, kept;
  }

  lemma UnownedHasNone(c: Cli, n: Name)
    requires c.Valid() && c.s.IsCommitted(n)
    ensures !c.s.dirs[n].rec.owned ==> NoDevice(c.s, c.s.dirs[n].rec.vmid)
  {
    RunKeepsInv(c.tr, |c.tr| - 1);
  }

  /** Under n's lock h became g without the directory: marker, no owned qemu, and no process on its files that was not there. */
  ghost predicate GoneFrom(h: State, g: State, n: Name)
  {
    && n !in g.dirs && g.marker && g.Owned(n) == {} && g.Live(n) <= h.Live(n) && g.Helpers(n) <= h.Helpers(n)
    && (h.IsCommitted(n) && NoDevice(h, h.dirs[n].rec.vmid) ==> NoDevice(g, h.dirs[n].rec.vmid))
  }

  /** markProvisioned, then RemoveAll: the marker stands before the last directory may go, and no owned qemu is left. */
  method MarkAndRemove(c: Cli, n: Name) returns (gone: bool, ghost done: nat)
    requires c.Valid() && In(c, Rm(n), RmMark) && n in c.s.dirs
    modifies c
    ensures c.Valid() && old(c.tr) <= c.tr && c.s.Pc(c.me).Idle?
    ensures gone ==> |old(c.tr)| <= done < |c.tr| && GoneFrom(old(c.s), c.tr[done], n)
    ensures !gone ==> LeftThere(c, |old(c.tr)|, done, n) && !c.calm
  {
    gone := false;
    HoldsOwn(c, Rm(n));
    c.Others();
    var ok := c.Call();
    if !ok {
      done := GiveUp(c, Rm(n));
      return;
    }
    ghost var here := c.s;
    c.Do(To(c.s.(marker := true), c.me, Rm(n), RmRemove));
    gone, done := RemoveDirectory(c, n);
  }

  /** os.RemoveAll: a failure may already have taken the record. */
  method RemoveDirectory(c: Cli, n: Name) returns (gone: bool, ghost done: nat)
    requires c.Valid() && In(c, Rm(n), RmRemove) && n in c.s.dirs
    modifies c
    ensures c.Valid() && old(c.tr) <= c.tr && c.s.Pc(c.me).Idle?
    ensures gone ==> |old(c.tr)| <= done < |c.tr| && GoneFrom(old(c.s), c.tr[done], n)
    ensures !gone ==> LeftThere(c, |old(c.tr)|, done, n) && !c.calm
  {
    HoldsOwn(c, Rm(n));
    c.Others();
    RemovalIsSafe(c, n);
    gone := c.Call();
    if !gone {
      var half: bool := *;
      if half && c.s.IsCommitted(n) { c.Do(To(c.s.(dirs := c.s.dirs[n := Bare]), c.me, Rm(n), RmRemove)); }
      done := GiveUp(c, Rm(n));
      return;
    }
    done := Unlink(c, n);
  }

  method Unlink(c: Cli, n: Name) returns (ghost done: nat)
    requires c.Valid() && In(c, Rm(n), RmRemove) && c.s.marker && c.s.Owned(n) == {}
    modifies c
    ensures c.Valid() && old(c.tr) <= c.tr && c.s.Pc(c.me).Idle?
    ensures |old(c.tr)| <= done < |c.tr| && GoneFrom(old(c.s), c.tr[done], n)
  {
    c.Do(Leave(c.s.(dirs := c.s.dirs - {n}), c.me));
    done := |c.tr| - 1;
    ghost var tr := c.tr;
    c.Release();
    assert tr <= c.tr && c.tr[done] == tr[done];
  }

  lemma RemovalIsSafe(c: Cli, n: Name)
    requires c.Valid() && In(c, Rm(n), RmRemove)
    ensures c.s.marker && c.s.Owned(n) == {}
  {
    RunKeepsInv(c.tr, |c.tr| - 1);
    assert PcOk(c.s, c.s.Pc(c.me));
  }

  /** The record path of rm, up to the marker. */
  method StopRecorded(c: Cli, n: Name, v: Vmid) returns (stopped: bool, ghost kept: nat)
    requires c.Valid() && In(c, Rm(n), Entered) && Keyed(c, n, v)
    modifies c
    ensures c.Valid() && old(c.tr) <= c.tr
    ensures stopped ==> In(c, Rm(n), RmMark) && Keyed(c, n, v) && NoDevice(c.s, v)
    ensures !stopped ==> c.s.Pc(c.me).Idle? && KeptRecord(c, |old(c.tr)|, kept, n) && (c.calm ==> Corrupt(c.tr[kept], n))
  {
    stopped, kept := Reconcile(c, Rm(n), v);
    if stopped { stopped, kept := StopAndRelease(c, n, v); }
  }

  /** The path for a directory whose record is missing or unreadable: reapStrayHelpers leaves no process on its files. */
  method ReapStray(c: Cli, n: Name) returns (reaped: bool, ghost left: nat)
    requires c.Valid() && In(c, Rm(n), Entered) && n in c.s.dirs
    modifies c
    ensures c.Valid() && old(c.tr) <= c.tr
    ensures reaped ==> In(c, Rm(n), RmMark) && n in c.s.dirs && c.s.Live(n) == {} && c.s.Helpers(n) == {}
    ensures !reaped ==> c.s.Pc(c.me).Idle? && LeftThere(c, |old(c.tr)|, left, n) && !c.calm
  {
    left := 0;
    c.Do(To(c.s, c.me, Rm(n), RmReap));
    HoldsOwn(c, Rm(n));
    c.Others();
    reaped := c.Call();
    if reaped {
      c.Do(To(c.s.Without(c.s.Live(n) + c.s.Helpers(n)), c.me, Rm(n), RmMark));
    } else {
      left := GiveUp(c, Rm(n));
    }
  }

  /**
   Under the lock at from: gone at at. If a record could be read there, the devices of its id are gone too; if not, every
   process on the VM's files is.
   */
  ghost predicate RemovedAt(c: Cli, from: nat, at: nat, n: Name, readable: bool)
    reads c
  {
    && from <= at < |c.tr| && c.tr[from].Pc(c.me) == InOp(Rm(n), Entered)
    && n !in c.tr[at].dirs && c.tr[at].Owned(n) == {} && (n in c.tr[from].dirs ==> c.tr[at].marker)
    && (c.tr[from].IsCommitted(n) && readable ==> NoDevice(c.tr[at], c.tr[from].dirs[n].rec.vmid))
    && (n in c.tr[from].dirs && !(c.tr[from].IsCommitted(n) && readable) ==> c.tr[at].Live(n) == {} && c.tr[at].Helpers(n) == {})
  }

  /** The stops before the removal, for a directory that is there. */
  method StopForRemoval(c: Cli, n: Name, readable: bool) returns (r: RmResult, ghost at: nat)
    requires c.Valid() && In(c, Rm(n), Entered) && n in c.s.dirs
    modifies c
    ensures c.Valid() && old(c.tr) <= c.tr
    ensures if r.Gone? then In(c, Rm(n), RmMark) && n in c.s.dirs else c.s.Pc(c.me).Idle? && !r.Busy?
    ensures r.Gone? && old(c.s).IsCommitted(n) && readable ==>
              Keyed(c, n, old(c.s).dirs[n].rec.vmid) && NoDevice(c.s, old(c.s).dirs[n].rec.vmid)
    ensures r.Gone? && !(old(c.s).IsCommitted(n) && readable) ==> c.s.Live(n) == {} && c.s.Helpers(n) == {}
    ensures r.Kept? ==> KeptRecord(c, |old(c.tr)|, at, n) && (c.calm ==> Corrupt(c.tr[at], n))
    ensures r.Stuck? ==> LeftThere(c, |old(c.tr)|, at, n) && !c.calm
  {
    var ready;
    if c.s.IsCommitted(n) && readable {
      ready, at := StopRecorded(c, n, c.s.dirs[n].rec.vmid);
      r := if ready then Gone else Kept;
    } else {
      ready, at := ReapStray(c, n);
      r := if ready then Gone else Stuck;
    }
  }

  method RemoveLocked(c: Cli, n: Name, readable: bool) returns (r: RmResult, ghost at: nat)
    requires c.Valid() && In(c, Rm(n), Entered)
    modifies c
    ensures c.Valid() && old(c.tr) <= c.tr && c.s.Pc(c.me).Idle? && !r.Busy?
    ensures r.Gone? ==> RemovedAt(c, |old(c.tr)| - 1, at, n, readable)
    ensures r.Kept? ==> KeptRecord(c, |old(c.tr)|, at, n) && (c.calm ==> Corrupt(c.tr[at], n))
    ensures r.Stuck? ==> LeftThere(c, |old(c.tr)|, at, n) && !c.calm
  {
    ghost var entered := c.tr;
    assert entered[|entered| - 1] == c.s;
    if n !in c.s.dirs {
      at := |c.tr| - 1;
      AbsentHasNone(c, n);
      c.Quit();
      assert entered <= c.tr && c.tr[at] == entered[at];
      return Gone, at;
    }
    r, at := StopForRemoval(c, n, readable);
    if r.Gone? {
      assert entered <= c.tr;
      var gone;
      gone, at := MarkAndRemove(c, n);
      r := if gone then Gone else Stuck;
      assert entered <= c.tr && c.tr[|entered| - 1] == entered[|entered| - 1];
    }
  }

  /**
   rm: an absent VM is fine; otherwise stop, tear down, mark, remove; a failed stop or teardown keeps the record. Without a
   failing call only another holder of the VM, or two qemu no record names, keep it from success.
   */
  method RM(c: Cli, n: Name, readable: bool) returns (r: RmResult, ghost from: nat, ghost at: nat)
    requires c.Valid() && c.s.Pc(c.me).Idle?
    modifies c
    ensures c.Valid() && old(c.tr) <= c.tr && c.s.Pc(c.me).Idle?
    ensures r.Gone? ==> |old(c.tr)| <= from && RemovedAt(c, from, at, n, readable)
    ensures r.Busy? ==> Waited(c.tr, |old(c.tr)| - 1, c.me) && Contended(c.tr, |old(c.tr)| - 1, c.me, {n})
    ensures r.Kept? ==> KeptRecord(c, |old(c.tr)|, at, n) && (c.calm ==> Corrupt(c.tr[at], n))
    ensures r.Stuck? ==> LeftThere(c, |old(c.tr)|, at, n) && !c.calm
  {
    from, at := 0, 0;
    var ready := LockVMs(c, Rm(n));
    if !ready { return Busy, from, at; }
    c.Others();
    from := |c.tr| - 1;
    r, at := RemoveLocked(c, n, readable);
  }

  lemma AbsentHasNone(c: Cli, n: Name)
    requires c.Valid() && n !in c.s.dirs
    ensures c.s.Owned(n) == {}
  {
    RunKeepsInv(c.tr, |c.tr| - 1);
    assert NameOk(c.s, n);
  }

  // ---- stop ------------------------------------------------------------------------------------------------------------

  /** Stopped, or given up: before its lock, without a record it can read, or with the record kept. */
  datatype StopResult = Halted | Held | Unreadable | Failed

  /** Under the lock at from: at at the record is the same but names no pid, no owned qemu lives, and its devices stand as before. */
  ghost predicate HaltedAt(c: Cli, from: nat, at: nat, n: Name)
    reads c
  {
    && from <= at < |c.tr| && c.tr[from].Pc(c.me) == InOp(Stop(n), Entered) && c.tr[from].IsCommitted(n)
    && c.tr[at].IsCommitted(n) && c.tr[at].dirs[n].rec == c.tr[from].dirs[n].rec.(pid := 0) && c.tr[at].Owned(n) == {}
    && SameDevices(c.tr[from], c.tr[at], c.tr[from].dirs[n].rec.vmid)
  }

  /** The write that ends a stop: the pid is gone from the record. */
  method ClearPid(c: Cli, n: Name, v: Vmid) returns (cleared: bool, ghost at: nat)
    requires c.Valid() && In(c, Stop(n), Stopped) && Keyed(c, n, v) && c.s.Owned(n) == {}
    modifies c
    ensures c.Valid() && old(c.tr) <= c.tr && c.s.Pc(c.me).Idle?
    ensures cleared ==> |old(c.tr)| <= at < |c.tr| && c.tr[at].IsCommitted(n)
                        && c.tr[at].dirs[n].rec == old(c.s).dirs[n].rec.(pid := 0)
                        && c.tr[at].Owned(n) == {} && SameDevices(old(c.s), c.tr[at], v)
    ensures !cleared ==> KeptRecord(c, |old(c.tr)|, at, n) && !c.calm
  {
    Await(c, Stop(n), v);
    StoppedIsIdle(c, n);
    cleared := c.Call();
    if !cleared {
      at := GiveUp(c, Stop(n));
      return;
    }
    c.Do(Leave(c.s.Commit(n, c.s.dirs[n].rec.(pid := 0)), c.me));
    at := |c.tr| - 1;
    ghost var tr := c.tr;
    c.Release();
    assert tr <= c.tr && c.tr[at] == tr[at];
  }

  lemma StoppedIsIdle(c: Cli, n: Name)
    requires c.Valid() && In(c, Stop(n), Stopped)
    ensures c.s.IsCommitted(n) && c.s.Owned(n) == {}
  {
    RunKeepsInv(c.tr, |c.tr| - 1);
    assert PcOk(c.s, c.s.Pc(c.me));
  }

  method StopLocked(c: Cli, n: Name, v: Vmid) returns (r: StopResult, ghost at: nat)
    requires c.Valid() && In(c, Stop(n), Entered) && Keyed(c, n, v)
    modifies c
    ensures c.Valid() && old(c.tr) <= c.tr && c.s.Pc(c.me).Idle? && (r.Halted? || r.Failed?)
    ensures r.Halted? ==> HaltedAt(c, |old(c.tr)| - 1, at, n)
    ensures r.Failed? ==> KeptRecord(c, |old(c.tr)|, at, n) && (c.calm ==> Corrupt(c.tr[at], n))
  {
    ghost var entered := c.tr;
    var ok;
    ok, at := Reconcile(c, Stop(n), v);
    if ok { ok, at := StopInstance(c, Stop(n), v); }
    if ok { ok, at := ClearPid(c, n, v); }
    r := if ok then Halted else Failed;
    assert entered <= c.tr && c.tr[|entered| - 1] == entered[|entered| - 1];
  }

  /** stop: the one qemu it can mean is terminated and the record names no pid; nothing else about the VM changes. */
  method Halt(c: Cli, n: Name, readable: bool) returns (r: StopResult, ghost from: nat, ghost at: nat)
    requires c.Valid() && c.s.Pc(c.me).Idle?
    modifies c
    ensures c.Valid() && old(c.tr) <= c.tr && c.s.Pc(c.me).Idle?
    ensures r.Halted? ==> |old(c.tr)| <= from && HaltedAt(c, from, at, n)
    ensures r.Held? ==> Waited(c.tr, |old(c.tr)| - 1, c.me) && Contended(c.tr, |old(c.tr)| - 1, c.me, {n})
    ensures r.Unreadable? ==> |old(c.tr)| <= from < |c.tr| && !(c.tr[from].IsCommitted(n) && readable) && Waited(c.tr, from + 1, c.me)
    ensures r.Failed? ==> KeptRecord(c, |old(c.tr)|, at, n) && (c.calm ==> Corrupt(c.tr[at], n))
  {
    from, at := 0, 0;
    var ready := LockVMs(c, Stop(n));
    if !ready { return Held, from, at; }
    c.Others();
    from := |c.tr| - 1;
    ghost var entered := c.tr;
    if !(c.s.IsCommitted(n) && readable) {
      c.Quit();
      assert entered <= c.tr && c.tr[from] == entered[from];
      return Unreadable, from, at;
    }
    r, at := StopLocked(c, n, c.s.dirs[n].rec.vmid);
  }

  // ---- create and run --------------------------------------------------------------------------------------------------

  /** What, besides a failing call, keeps a VM from being made: a lock, a record of that name, a qemu in its directory, or its source. */
  ghost predicate Prevented(h: State, p: Proc, op: Op)
  {
    || (exists n :: n in VMs(op) && n in h.vmLock && h.vmLock[n] != p)
    || h.gcExcl.Some? || h.IsCommitted(op.name) || UsedStray(h, op.name)
    || (op.Clone? && (!h.IsCommitted(op.src) || h.Live(op.src) != {}))
  }

  ghost predicate WasPrevented(tr: seq<State>, from: int, p: Proc, op: Op)
  {
    exists j :: 0 <= from <= j < |tr| && Prevented(tr[j], p, op)
  }

  lemma ContendedPrevents(tr: seq<State>, from: int, p: Proc, op: Op)
    requires Contended(tr, from, p, VMs(op))
    ensures WasPrevented(tr, from, p, op)
  {
    var j, n :| 0 <= from <= j < |tr| && n in VMs(op) && n in tr[j].vmLock && tr[j].vmLock[n] != p;
    assert Prevented(tr[j], p, op);
  }

  /** An early return, with nothing of the host changed. */
  method Refuse(c: Cli, op: Op)
    requires c.Valid() && c.s.Pc(c.me).InOp? && c.s.Pc(c.me).op == op && Early(c.s.Pc(c.me), op) && Step(c.s, c.me, Leave(c.s, c.me))
    requires c.calm ==> Prevented(c.s, c.me, op)
    modifies c
    ensures c.Valid() && old(c.tr) <= c.tr && StaysEarly(c.tr, |old(c.tr)| - 1, c.me, op) && c.s.Pc(c.me).Idle?
    ensures c.calm ==> WasPrevented(c.tr, |old(c.tr)| - 1, c.me, op)
  {
    ghost var before := c.tr;
    c.Quit();
    assert before <= c.tr && c.tr[|before| - 1] == before[|before| - 1];
  }

  /** withProvisionLock, then scaffoldVM: a fresh directory with its images, or nothing that was not there before. */
  method ScaffoldVM(c: Cli, op: Op) returns (built: bool)
    requires c.Valid() && Provisions(op) && In(c, op, WantShared)
    modifies c
    ensures c.Valid() && old(c.tr) <= c.tr && StaysEarly(c.tr, |old(c.tr)| - 1, c.me, op)
    ensures built ==> In(c, op, Laying(Build)) && c.s.IsBare(op.name) && c.me in c.s.gcShared && c.s.Holds(op.name, c.me)
    ensures !built ==> c.s.Pc(c.me).Idle?
    ensures c.calm && !built ==> WasPrevented(c.tr, |old(c.tr)| - 1, c.me, op)
  {
    built := TakeShared(c, op);
    if built { built := FindFresh(c, op); }
    if built { built := MakeDirectory(c, op); }
    if built { FreshIsMine(c, op); }
  }

  /** withProvisionLock, which a running sweep refuses. */
  method TakeShared(c: Cli, op: Op) returns (taken: bool)
    requires c.Valid() && Provisions(op) && In(c, op, WantShared)
    modifies c
    ensures c.Valid() && old(c.tr) <= c.tr && StaysEarly(c.tr, |old(c.tr)| - 1, c.me, op)
    ensures if taken then In(c, op, Laying(Scaffold)) else c.s.Pc(c.me).Idle?
    ensures c.calm && !taken ==> WasPrevented(c.tr, |old(c.tr)| - 1, c.me, op)
  {
    c.Others();
    taken := c.s.gcExcl.None?;
    if taken {
      c.Do(To(c.s.(gcShared := c.s.gcShared + {c.me}), c.me, op, Laying(Scaffold)));
    } else {
      Refuse(c, op);
    }
  }

  lemma FreshIsMine(c: Cli, op: Op)
    requires c.Valid() && Provisions(op) && In(c, op, Laying(Build))
    ensures c.s.IsBare(op.name) && c.me in c.s.gcShared && c.s.Holds(op.name, c.me)
  {
    RunKeepsInv(c.tr, |c.tr| - 1);
    assert PcOk(c.s, c.s.Pc(c.me)) && LockOk(c.s, c.me);
    assert op.name in HeldVMs(c.s.Pc(c.me));
  }

  /** An existing record refuses the name; a directory without one is reset first, unless a qemu still runs in it. */
  method FindFresh(c: Cli, op: Op) returns (free: bool)
    requires c.Valid() && Provisions(op) && In(c, op, Laying(Scaffold))
    modifies c
    ensures c.Valid() && old(c.tr) <= c.tr && StaysEarly(c.tr, |old(c.tr)| - 1, c.me, op)
    ensures if free then In(c, op, Laying(MakeDir)) && op.name !in c.s.dirs else c.s.Pc(c.me).Idle?
    ensures c.calm && !free ==> WasPrevented(c.tr, |old(c.tr)| - 1, c.me, op)
  {
    c.Others();
    var ok := c.Call();
    if ok && op.name !in c.s.dirs {
      c.Do(To(c.s, c.me, op, Laying(MakeDir)));
      return true;
    } else if ok && c.s.IsBare(op.name) && c.s.Live(op.name) == {} {
      c.Do(To(c.s, c.me, op, Laying(Reset(KillNbd))));
      ghost var left;
      free, left := ResetIncompleteVMDir(c, op);
    } else {
      Refuse(c, op);
      return false;
    }
  }

  /** No process is on the files of n. */
  ghost predicate Quiet(h: State, n: Name) { h.Live(n) == {} && h.Helpers(n) == {} }

  /** In the step before this state a directory without a record went, no process on its files and the marker standing. */
  ghost predicate JustReset(c: Cli, n: Name)
    reads c
  {
    |c.tr| > 1 && n !in c.s.dirs && c.s.marker && Quiet(c.s, n)
    && var h := c.tr[|c.tr| - 2]; h.IsBare(n) && h.marker && Quiet(h, n)
  }

  /** The lock of n goes with its directory still there, without a record. */
  ghost predicate LeftBare(c: Cli, from: nat, at: nat, n: Name)
    reads c
  {
    c.s.Pc(c.me).Idle? && LeftThere(c, from, at, n) && c.tr[at + 1].IsBare(n)
  }

  /** resetIncompleteVMDir: the servers first, then the marker, the directory last; a failure keeps the directory. */
  method ResetIncompleteVMDir(c: Cli, op: Op) returns (reset: bool, ghost left: nat)
    requires c.Valid() && Provisions(op) && In(c, op, Laying(Reset(KillNbd)))
    modifies c
    ensures c.Valid() && old(c.tr) <= c.tr && StaysEarly(c.tr, |old(c.tr)| - 1, c.me, op)
    ensures reset ==> In(c, op, Laying(MakeDir)) && JustReset(c, op.name)
    ensures !reset ==> LeftBare(c, |old(c.tr)|, left, op.name) && !c.calm
  {
    reset, left := ResetPhase(c, op, KillNbd);
    if reset { reset, left := ResetPhase(c, op, Mark); }
    if reset { reset, left := ResetPhase(c, op, Remove); }
  }

  method ResetPhase(c: Cli, op: Op, phase: ResetPhase) returns (done: bool, ghost left: nat)
    requires c.Valid() && Provisions(op) && In(c, op, Laying(Reset(phase)))
    modifies c
    ensures c.Valid() && old(c.tr) <= c.tr && StaysEarly(c.tr, |old(c.tr)| - 1, c.me, op)
    ensures done ==> In(c, op, Laying(AfterReset(phase)))
    ensures done && phase.Remove? ==> JustReset(c, op.name)
    ensures !done ==> LeftBare(c, |old(c.tr)|, left, op.name) && !c.calm
  {
    left := 0;
    c.Others();
    StillBare(c, op, phase);
    done := c.Call();
    if done {
      DoPhase(c, op, phase);
    } else {
      left := GiveUp(c, op);
    }
  }

  method DoPhase(c: Cli, op: Op, phase: ResetPhase)
    requires c.Valid() && In(c, op, Laying(Reset(phase))) && Resettable(c.s, op.name, phase)
    modifies c
    ensures c.Valid() && c.tr == old(c.tr) + [c.s] && In(c, op, Laying(AfterReset(phase)))
    ensures phase.Remove? ==> JustReset(c, op.name)
  {
    ghost var here := c.s;
    c.Do(To(ResetEffect(c.s, op.name, phase), c.me, op, Laying(AfterReset(phase))));
    assert c.tr[|c.tr| - 2] == here;
  }

  lemma StillBare(c: Cli, op: Op, phase: ResetPhase)
    requires c.Valid() && In(c, op, Laying(Reset(phase)))
    ensures Resettable(c.s, op.name, phase)
  {
    RunKeepsInv(c.tr, |c.tr| - 1);
    assert PcOk(c.s, c.s.Pc(c.me));
  }

  method MakeDirectory(c: Cli, op: Op) returns (made: bool)
    requires c.Valid() && Provisions(op) && In(c, op, Laying(MakeDir))
    modifies c
    ensures c.Valid() && old(c.tr) <= c.tr && StaysEarly(c.tr, |old(c.tr)| - 1, c.me, op)
    ensures made ==> In(c, op, Laying(Build))
    ensures !made ==> c.s.Pc(c.me).Idle? && !c.calm
  {
    c.Others();
    made := c.Call();
    if made {
      c.Do(To(c.s.(dirs := c.s.dirs[op.name := Bare]), c.me, op, Laying(Build)));
    } else {
      c.Quit();
    }
  }

  /** In one step after from the directory of n, which has no record, is removed, or stays because its removal failed. */
  ghost predicate GaveBack(tr: seq<State>, from: nat, done: nat, n: Name, removed: bool)
  {
    && 0 < from <= done < |tr| && tr[done - 1].IsBare(n)
    && (if removed then n !in tr[done].dirs else tr[done].IsBare(n))
  }

  /**
   The overlay and the NVRAM copy, then the VM's network id. A failure removes the directory again; the code ignores the
   error of that removal, and only then does the directory stay, without a record.
   */
  method BuildImages(c: Cli, op: Op, id: Vmid) returns (built: bool, removed: bool, ghost done: nat)
    requires c.Valid() && Provisions(op) && In(c, op, Laying(Build))
    modifies c
    ensures c.Valid() && old(c.tr) <= c.tr
    ensures built ==> In(c, op, Making(id, Images)) && Unleased(old(c.tr), c.tr, c.me)
    ensures !built ==> c.s.Pc(c.me).Idle? && StaysEarly(c.tr, |old(c.tr)| - 1, c.me, op)
    ensures !built ==> GaveBack(c.tr, |old(c.tr)|, done, op.name, removed)
    ensures c.calm && !built ==> removed && id in c.tr[done].usedIds
  {
    removed, done := false, 0;
    c.Others();
    built := c.Call();
    if built && id !in c.s.usedIds {
      BuildTo(c, op, id);
      return;
    }
    built := false;
    removed := c.Call();
    done := GiveBack(c, op, removed);
  }

  /** The deferred RemoveAll of scaffoldVM, and the unlocks. */
  method GiveBack(c: Cli, op: Op, removed: bool) returns (ghost done: nat)
    requires c.Valid() && Provisions(op) && In(c, op, Laying(Build))
    modifies c
    ensures c.Valid() && old(c.tr) <= c.tr && c.s.Pc(c.me).Idle? && Waited(c.tr, |old(c.tr)|, c.me)
    ensures GaveBack(c.tr, |old(c.tr)|, done, op.name, removed) && c.tr[done].usedIds == old(c.s).usedIds
  {
    FreshIsMine(c, op);
    ghost var before := c.s;
    c.Do(Leave(if removed then c.s.(dirs := c.s.dirs - {op.name}) else c.s, c.me));
    done := |c.tr| - 1;
    ghost var tr := c.tr;
    assert tr[done - 1] == before;
    c.Release();
    assert tr <= c.tr && c.tr[done] == tr[done] && c.tr[done - 1] == tr[done - 1];
  }

  method BuildTo(c: Cli, op: Op, id: Vmid)
    requires c.Valid() && Provisions(op) && In(c, op, Laying(Build)) && id !in c.s.usedIds
    modifies c
    ensures c.Valid() && c.tr == old(c.tr) + [c.s] && In(c, op, Making(id, Images))
  {
    var next := To(c.s.(usedIds := c.s.usedIds + {id}), c.me, op, Making(id, Images));
    assert LayStep(c.s, c.me, op, Build, next);
    c.Do(next);
  }

  /** The run grew, and in no state it grew by did p hold the qemu-nbd lease. */
  ghost predicate Unleased(a: seq<State>, b: seq<State>, p: Proc)
  {
    a <= b && forall j :: |a| <= j < |b| ==> !Leases(b[j].Pc(p))
  }

  lemma EarlyIsUnleased(a: seq<State>, b: seq<State>, p: Proc, op: Op)
    requires a <= b && StaysEarly(b, |a| - 1, p, op) && |a| > 0
    ensures Unleased(a, b, p)
  {
    forall j | |a| <= j < |b| ensures !Leases(b[j].Pc(p)) { assert Early(b[j].Pc(p), op); }
  }

  /**
   create or run has failed and is about to clean up under id; what it undid before was undone cleanly, unless a call failed.
   */
  predicate Failing(c: Cli, op: Op, id: Vmid)
    reads c
  {
    var pc := c.s.Pc(c.me);
    pc.InOp? && pc.op == op && pc.at.Rollback? && pc.at.phase.StopQemu? && pc.at.id == id && (c.calm ==> pc.at.clean)
  }

  /** Either the next point of create is reached, or a call failed and the cleanup is due. */
  method Proceed(c: Cli, op: Op, id: Vmid, make: Make, next: State, to: Make) returns (ok: bool)
    requires c.Valid() && Provisions(op) && In(c, op, Making(id, make)) && !make.NetUndo? && !make.Save? && !make.NetAdd?
    requires MakeStep(c.s, c.me, op, id, make, next) && next.Pc(c.me) == InOp(op, Making(id, to))
    modifies c
    ensures c.Valid() && c.tr == old(c.tr) + [c.s]
    ensures if ok then In(c, op, Making(id, to)) && c.s == next else Failing(c, op, id) && !c.calm
  {
    ok := c.Call();
    c.Do(if ok then next else Undo(c.s, c.me, op, id, false, true));
  }

  // ---- identity --------------------------------------------------------------------------------------------------------

  lemma LeaseFollowsPoint(c: Cli)
    requires c.Valid()
    ensures c.s.lease == Some(c.me) <==> Leases(c.s.Pc(c.me))
  {
    RunKeepsInv(c.tr, |c.tr| - 1);
    assert LockOk(c.s, c.me);
  }

  /** This server is attached to the new VM's image, for p to patch under the lease. */
  ghost predicate Attaches(h: State, p: Proc, op: Op, id: Vmid, server: Pid)
  {
    h.Pc(p) == InOp(op, Making(id, Attached)) && h.lease == Some(p) && server in h.Helpers(op.name)
  }

  ghost predicate WasAttached(tr: seq<State>, from: int, p: Proc, op: Op, id: Vmid, server: Pid)
  {
    exists j :: 0 <= from <= j < |tr| && Attaches(tr[j], p, op, id, server)
  }

  lemma StaysAttached(a: seq<State>, b: seq<State>, from: int, p: Proc, op: Op, id: Vmid, server: Pid)
    requires a <= b
    ensures WasAttached(a, from, p, op, id, server) ==> WasAttached(b, from, p, op, id, server)
  {
    if j :| 0 <= from <= j < |a| && Attaches(a[j], p, op, id, server) { assert b[j] == a[j]; }
  }

  lemma UnleasedNeverAttaches(a: seq<State>, b: seq<State>, p: Proc, op: Op, id: Vmid, server: Pid)
    requires Unleased(a, b, p)
    ensures !WasAttached(b, |a|, p, op, id, server)
  {
  }

  /** What, besides a failing call, keeps a new VM from its identity: the lease is taken, or the pid is not free. */
  ghost predicate NoServer(h: State, p: Proc, server: Pid)
  {
    (h.lease.Some? && h.lease != Some(p)) || server in h.procs || server == 0
  }

  ghost predicate HadNoServer(tr: seq<State>, from: int, p: Proc, server: Pid)
  {
    exists j :: 0 <= from <= j < |tr| && NoServer(tr[j], p, server)
  }

  /** prepareOpenCore with an identity: the lease, the attached server, the patch, and a server that is gone again. */
  method InjectIdentity(c: Cli, op: Op, id: Vmid, server: Pid) returns (ok: bool)
    requires c.Valid() && Provisions(op) && In(c, op, Making(id, WantLease))
    modifies c
    ensures c.Valid() && old(c.tr) <= c.tr
    ensures if ok then In(c, op, Making(id, NetMark)) else Failing(c, op, id)
    ensures ok ==> WasAttached(c.tr, |old(c.tr)|, c.me, op, id, server) && c.s.Helpers(op.name) == {}
    ensures c.calm && !ok ==> HadNoServer(c.tr, |old(c.tr)|, c.me, server)
    ensures c.s.lease != Some(c.me)
  {
    ok := TakeLease(c, op, id, server);
    if ok { ok := Serve(c, op, id, server); }
    LeaseFollowsPoint(c);
  }

  /** Waits for the lease, as long as nobody cancels the wait. */
  method TakeLease(c: Cli, op: Op, id: Vmid, server: Pid) returns (ok: bool)
    requires c.Valid() && Provisions(op) && In(c, op, Making(id, WantLease))
    modifies c
    ensures c.Valid() && old(c.tr) <= c.tr
    ensures if ok then In(c, op, Making(id, Attach)) && c.s.lease == Some(c.me) else Failing(c, op, id)
    ensures c.calm && !ok ==> HadNoServer(c.tr, |old(c.tr)|, c.me, server)
  {
    ghost var was := c.tr;
    c.Others();
    if c.s.lease.Some? {
      LeaseFollowsPoint(c);
      assert c.s.lease != Some(c.me);
      FailToServe(c, op, id, WantLease, server);
      return false;
    }
    ok := Proceed(c, op, id, WantLease, To(c.s.(lease := Some(c.me)), c.me, op, Making(id, Attach)), Attach);
  }

  /** Nothing can be attached here, and the cleanup is due. */
  method FailToServe(c: Cli, op: Op, id: Vmid, make: Make, server: Pid)
    requires c.Valid() && Provisions(op) && In(c, op, Making(id, make)) && (make.WantLease? || make.Attach?)
    requires NoServer(c.s, c.me, server)
    modifies c
    ensures c.Valid() && c.tr == old(c.tr) + [c.s] && Failing(c, op, id) && NoServer(c.s, c.me, server)
  {
    c.Do(Undo(c.s, c.me, op, id, false, true));
  }

  method Serve(c: Cli, op: Op, id: Vmid, server: Pid) returns (ok: bool)
    requires c.Valid() && Provisions(op) && In(c, op, Making(id, Attach))
    modifies c
    ensures c.Valid() && old(c.tr) <= c.tr
    ensures if ok then In(c, op, Making(id, NetMark)) else Failing(c, op, id)
    ensures ok ==> WasAttached(c.tr, |old(c.tr)|, c.me, op, id, server) && c.s.Helpers(op.name) == {}
    ensures c.calm && !ok ==> HadNoServer(c.tr, |old(c.tr)|, c.me, server)
  {
    ghost var was := c.tr;
    ok := AttachServer(c, op, id, server);
    if ok {
      ghost var tr := c.tr;
      assert Attaches(tr[|tr| - 1], c.me, op, id, server);
      assert WasAttached(tr, |was|, c.me, op, id, server);
      ok := PatchAndDetach(c, op, id);
      StaysAttached(tr, c.tr, |was|, c.me, op, id, server);
    }
  }

  method AttachServer(c: Cli, op: Op, id: Vmid, server: Pid) returns (ok: bool)
    requires c.Valid() && Provisions(op) && In(c, op, Making(id, Attach))
    modifies c
    ensures c.Valid() && old(c.tr) < c.tr
    ensures if ok then Attaches(c.s, c.me, op, id, server) else Failing(c, op, id)
    ensures c.calm && !ok ==> HadNoServer(c.tr, |old(c.tr)|, c.me, server)
  {
    c.Others();
    LeaseFollowsPoint(c);
    if server in c.s.procs || server == 0 {
      FailToServe(c, op, id, Attach, server);
      return false;
    }
    var next := To(c.s.(procs := c.s.procs[server := Nbd(op.name)]), c.me, op, Making(id, Attached));
    assert MakeStep(c.s, c.me, op, id, Attach, next);
    ok := Proceed(c, op, id, Attach, next, Attached);
  }

  method PatchAndDetach(c: Cli, op: Op, id: Vmid) returns (ok: bool)
    requires c.Valid() && Provisions(op) && In(c, op, Making(id, Attached))
    modifies c
    ensures c.Valid() && old(c.tr) <= c.tr
    ensures if ok then In(c, op, Making(id, NetMark)) && c.s.Helpers(op.name) == {} else Failing(c, op, id) && !c.calm
  {
    c.Others();
    ok := Proceed(c, op, id, Attached, To(c.s.Without(c.s.Helpers(op.name)).(lease := None), c.me, op, Making(id, NetMark)), NetMark);
  }

  // ---- network ---------------------------------------------------------------------------------------------------------

  /** The devices of v are the VM's own TAP, if it has one, and with it the netns its provider keeps, if it keeps one. */
  ghost predicate Wired(h: State, v: Vmid, tap: bool, netns: bool)
  {
    && (Device(v, Tap) in h.devices <==> tap)
    && (Device(v, Netns) in h.devices <==> tap && netns)
  }

  /** The netns alone, before the TAP is added. */
  ghost predicate Prepared(h: State, v: Vmid, netns: bool)
  {
    Device(v, Tap) !in h.devices && (Device(v, Netns) in h.devices <==> netns)
  }

  /** applyNet: the marker first, then nothing, or the provider's devices. */
  method ApplyNet(c: Cli, op: Op, id: Vmid, provider: bool, netns: bool) returns (ok: bool)
    requires c.Valid() && Provisions(op) && In(c, op, Making(id, NetMark))
    modifies c
    ensures c.Valid() && Unleased(old(c.tr), c.tr, c.me)
    ensures if ok then In(c, op, Making(id, Save(provider))) else Failing(c, op, id) && !c.calm
    ensures ok ==> c.s.marker && Wired(c.s, id, provider, netns)
  {
    ok := MarkProvisioned(c, op, id);
    if !ok { return; }
    if provider {
      ok := PrepareNetns(c, op, id, netns);
      if ok { ok := AddNic(c, op, id, netns); }
    } else {
      ok := SkipNet(c, op, id, netns);
    }
    if ok { NetIsReady(c, op, id, provider); }
  }

  lemma NetIsReady(c: Cli, op: Op, id: Vmid, owned: bool)
    requires c.Valid() && In(c, op, Making(id, Save(owned)))
    ensures c.s.marker
  {
    RunKeepsInv(c.tr, |c.tr| - 1);
    assert PcOk(c.s, c.s.Pc(c.me));
  }

  lemma NothingYet(c: Cli, op: Op, id: Vmid)
    requires c.Valid() && In(c, op, Making(id, NetPrepare))
    ensures NoDevice(c.s, id)
  {
    RunKeepsInv(c.tr, |c.tr| - 1);
    assert PcOk(c.s, c.s.Pc(c.me));
  }

  method MarkProvisioned(c: Cli, op: Op, id: Vmid) returns (ok: bool)
    requires c.Valid() && Provisions(op) && In(c, op, Making(id, NetMark))
    modifies c
    ensures c.Valid() && Unleased(old(c.tr), c.tr, c.me)
    ensures if ok then In(c, op, Making(id, NetPrepare)) else Failing(c, op, id) && !c.calm
  {
    c.Others();
    ok := Proceed(c, op, id, NetMark, To(c.s.(marker := true), c.me, op, Making(id, NetPrepare)), NetPrepare);
  }

  /** User networking, or a TAP the caller made: no device is created. */
  method SkipNet(c: Cli, op: Op, id: Vmid, netns: bool) returns (ok: bool)
    requires c.Valid() && Provisions(op) && In(c, op, Making(id, NetPrepare))
    modifies c
    ensures c.Valid() && Unleased(old(c.tr), c.tr, c.me)
    ensures if ok then In(c, op, Making(id, Save(false))) && Wired(c.s, id, false, netns) else Failing(c, op, id) && !c.calm
  {
    c.Others();
    NothingYet(c, op, id);
    ok := Proceed(c, op, id, NetPrepare, To(c.s, c.me, op, Making(id, Save(false))), Save(false));
  }

  /** provider.Prepare: a netns for CNI, nothing for a bridge. */
  method PrepareNetns(c: Cli, op: Op, id: Vmid, netns: bool) returns (ok: bool)
    requires c.Valid() && Provisions(op) && In(c, op, Making(id, NetPrepare))
    modifies c
    ensures c.Valid() && Unleased(old(c.tr), c.tr, c.me)
    ensures if ok then In(c, op, Making(id, NetAdd)) && Prepared(c.s, id, netns) else Failing(c, op, id) && !c.calm
  {
    c.Others();
    NothingYet(c, op, id);
    if netns {
      ok := Proceed(c, op, id, NetPrepare, To(c.s.(devices := c.s.devices + {Device(id, Netns)}), c.me, op, Making(id, NetAdd)), NetAdd);
    } else {
      ok := Proceed(c, op, id, NetPrepare, To(c.s, c.me, op, Making(id, NetAdd)), NetAdd);
    }
  }

  /** provider.Add; its failure drops the netns again, as far as Delete succeeds. */
  method AddNic(c: Cli, op: Op, id: Vmid, netns: bool) returns (ok: bool)
    requires c.Valid() && Provisions(op) && In(c, op, Making(id, NetAdd)) && Prepared(c.s, id, netns)
    modifies c
    ensures c.Valid() && Unleased(old(c.tr), c.tr, c.me)
    ensures if ok then In(c, op, Making(id, Save(true))) && Wired(c.s, id, true, netns) else Failing(c, op, id) && !c.calm
  {
    c.Others();
    ok := c.Call();
    if ok {
      c.Do(To(c.s.(devices := c.s.devices + {Device(id, Tap)}), c.me, op, Making(id, Save(true))));
    } else {
      UndoNet(c, op, id);
    }
  }

  method UndoNet(c: Cli, op: Op, id: Vmid)
    requires c.Valid() && Provisions(op) && In(c, op, Making(id, NetAdd)) && !c.calm
    modifies c
    ensures c.Valid() && Unleased(old(c.tr), c.tr, c.me) && Failing(c, op, id)
  {
    c.Do(To(c.s, c.me, op, Making(id, NetUndo)));
    c.Others();
    var deleted := c.Call();
    c.Do(if deleted then Undo(c.s.(devices := c.s.DevicesExcept(id)), c.me, op, id, false, true)
         else Undo(c.s, c.me, op, id, false, false));
  }

  // ---- record ----------------------------------------------------------------------------------------------------------

  /** saveRec: the write that commits the VM; create is done with it, run goes on to launch. */
  method SaveRecord(c: Cli, op: Op, id: Vmid, owned: bool, netns: bool) returns (ok: bool, ghost done: nat)
    requires c.Valid() && Provisions(op) && In(c, op, Making(id, Save(owned))) && Wired(c.s, id, owned, netns)
    modifies c
    ensures c.Valid() && Unleased(old(c.tr), c.tr, c.me)
    ensures ok ==> |old(c.tr)| <= done < |c.tr| && WholeVM(c.tr[done], op.name, Record(id, 0, owned), netns)
    ensures ok && Boots(op) ==> In(c, op, LaunchNet) && HasVM(c, op.name, Record(id, 0, owned), netns)
    ensures if !ok then Failing(c, op, id) && !c.calm else !Boots(op) ==> c.s.Pc(c.me).Idle?
  {
    done := 0;
    c.Others();
    ok := c.Call();
    if ok {
      done := SaveAndGo(c, op, id, owned, netns);
    } else {
      c.Do(Undo(c.s, c.me, op, id, owned, true));
    }
  }

  method SaveAndGo(c: Cli, op: Op, id: Vmid, owned: bool, netns: bool) returns (ghost done: nat)
    requires c.Valid() && Provisions(op) && In(c, op, Making(id, Save(owned))) && Wired(c.s, id, owned, netns)
    modifies c
    ensures c.Valid() && Unleased(old(c.tr), c.tr, c.me)
    ensures |old(c.tr)| <= done < |c.tr| && WholeVM(c.tr[done], op.name, Record(id, 0, owned), netns)
    ensures if Boots(op) then In(c, op, LaunchNet) && HasVM(c, op.name, Record(id, 0, owned), netns) else c.s.Pc(c.me).Idle?
  {
    done := CommitRecord(c, op, id, owned, netns);
    AfterCommit(c, op, Record(id, 0, owned), netns, done);
  }

  /** create leaves with its record written; run drops the provisioning lock and goes on to launch. */
  method AfterCommit(c: Cli, op: Op, r: Record, netns: bool, ghost done: nat)
    requires c.Valid() && Provisions(op) && HasVM(c, op.name, r, netns) && done < |c.tr|
    requires if Boots(op) then In(c, op, Saved) else c.s.Pc(c.me).Exit?
    modifies c
    ensures c.Valid() && Unleased(old(c.tr), c.tr, c.me) && c.tr[done] == old(c.tr)[done]
    ensures if Boots(op) then In(c, op, LaunchNet) && HasVM(c, op.name, r, netns) else c.s.Pc(c.me).Idle?
  {
    if Boots(op) {
      KeepVM(c, op, r, netns);
      c.Do(To(c.s.(gcShared := c.s.gcShared - {c.me}), c.me, op, LaunchNet));
    } else {
      c.Release();
      WaitedIsUnleased(old(c.tr), c.tr, c.me);
    }
  }

  lemma WaitedIsUnleased(a: seq<State>, b: seq<State>, p: Proc)
    requires a <= b && |a| > 0 && Waited(b, |a| - 1, p)
    ensures Unleased(a, b, p)
  {
    forall j | |a| <= j < |b| ensures !Leases(b[j].Pc(p)) { assert Waits(b[j].Pc(p)); }
  }

  /** One record under an id no other record has, exactly the devices it owns, and no other qemu than its pid's. */
  ghost predicate WholeVM(h: State, n: Name, r: Record, netns: bool)
  {
    && h.IsCommitted(n) && h.dirs[n].rec == r
    && (forall m :: m != n && h.IsCommitted(m) ==> h.dirs[m].rec.vmid != r.vmid)
    && Wired(h, r.vmid, r.owned, netns)
    && h.Owned(n) == (if r.pid == 0 then {} else h.Live(n) * {r.pid})
  }

  /** The record is r, and the devices it owns are there. */
  ghost predicate HasVM(c: Cli, n: Name, r: Record, netns: bool)
    reads c
  {
    c.s.IsCommitted(n) && c.s.dirs[n].rec == r && Wired(c.s, r.vmid, r.owned, netns)
  }

  /** Others let go by while an operation holds its VM. */
  method KeepVM(c: Cli, op: Op, r: Record, netns: bool)
    requires c.Valid() && c.s.Pc(c.me).InOp? && c.s.Pc(c.me).op == op && !c.s.Pc(c.me).at.Making? && HasVM(c, op.name, r, netns)
    modifies c
    ensures c.Valid() && Unleased(old(c.tr), c.tr, c.me) && c.s.Pc(c.me) == old(c.s).Pc(c.me) && HasVM(c, op.name, r, netns)
  {
    HoldsOwn(c, op);
    c.Others();
  }

  method WriteRecord(c: Cli, op: Op, id: Vmid, owned: bool)
    requires c.Valid() && Provisions(op) && In(c, op, Making(id, Save(owned))) && c.s.IsBare(op.name)
    modifies c
    ensures c.Valid() && c.tr == old(c.tr) + [c.s] && Step(old(c.s), c.me, c.s) && c.s.dirs != old(c.s).dirs
    ensures c.s.dirs == old(c.s).dirs[op.name := Committed(Record(id, 0, owned))] && c.s.devices == old(c.s).devices
    ensures if Boots(op) then In(c, op, Saved) else c.s.Pc(c.me).Exit?
  {
    var to := if Boots(op) then InOp(op, Saved) else Exit(HeldVMs(c.s.Pc(c.me)), true, false);
    var next := c.s.Commit(op.name, Record(id, 0, owned)).At(c.me, to);
    assert next.dirs[op.name] != c.s.dirs[op.name];
    c.Do(next);
  }

  method CommitRecord(c: Cli, op: Op, id: Vmid, owned: bool, netns: bool) returns (ghost done: nat)
    requires c.Valid() && Provisions(op) && In(c, op, Making(id, Save(owned))) && Wired(c.s, id, owned, netns)
    modifies c
    ensures c.Valid() && c.tr == old(c.tr) + [c.s] && done == |old(c.tr)|
    ensures WholeVM(c.tr[done], op.name, Record(id, 0, owned), netns) && HasVM(c, op.name, Record(id, 0, owned), netns)
    ensures if Boots(op) then In(c, op, Saved) else c.s.Pc(c.me).Exit?
  {
    NotYetCommitted(c, op, id, owned);
    ghost var before := c.s;
    WriteRecord(c, op, id, owned);
    done := |c.tr| - 1;
    assert c.tr[done - 1] == before;
    SaveCommitsWholeVM(c.tr, done - 1, c.me, op, id, owned);
  }

  lemma NotYetCommitted(c: Cli, op: Op, id: Vmid, owned: bool)
    requires c.Valid() && In(c, op, Making(id, Save(owned)))
    ensures c.s.IsBare(op.name)
  {
    RunKeepsInv(c.tr, |c.tr| - 1);
    assert PcOk(c.s, c.s.Pc(c.me));
  }

  // ---- launch ------------------------------------------------------------------------------------------------------------

  /** recoverNet, which may fail with some devices built. */
  method RecoverNet(c: Cli, op: Op, r: Record, netns: bool) returns (ok: bool)
    requires c.Valid() && Boots(op) && In(c, op, LaunchNet) && HasVM(c, op.name, r, netns)
    modifies c
    ensures c.Valid() && Unleased(old(c.tr), c.tr, c.me)
    ensures if ok then In(c, op, LaunchSpawn) && HasVM(c, op.name, r, netns) else Failing(c, op, r.vmid) && !c.calm
  {
    RecoverDevices(c, op, r, netns);
    KeepVM(c, op, r, netns);
    ok := c.Call();
    c.Do(if ok then To(c.s, c.me, op, LaunchSpawn) else LaunchFailed(c.s, c.me, op, 0));
  }

  /** For an owned record the provider finds its devices, or builds them again. */
  method RecoverDevices(c: Cli, op: Op, r: Record, netns: bool)
    requires c.Valid() && Boots(op) && In(c, op, LaunchNet) && HasVM(c, op.name, r, netns)
    modifies c
    ensures c.Valid() && Unleased(old(c.tr), c.tr, c.me) && In(c, op, LaunchNet) && HasVM(c, op.name, r, netns)
  {
    var rebuild: bool := *;
    if r.owned && rebuild {
      if netns { Rebuild(c, op, r, Netns, netns); }
      Rebuild(c, op, r, Tap, netns);
    }
  }

  method Rebuild(c: Cli, op: Op, r: Record, k: Kind, netns: bool)
    requires c.Valid() && Boots(op) && In(c, op, LaunchNet) && HasVM(c, op.name, r, netns) && r.owned && (k.Netns? ==> netns)
    modifies c
    ensures c.Valid() && Unleased(old(c.tr), c.tr, c.me) && In(c, op, LaunchNet) && HasVM(c, op.name, r, netns)
  {
    KeepVM(c, op, r, netns);
    c.Do(To(c.s.(devices := c.s.devices + {Device(r.vmid, k)}), c.me, op, LaunchNet));
  }

  /** Its pid is not free for the new qemu. */
  ghost predicate WasNoPid(tr: seq<State>, from: int, x: Pid) { x == 0 || exists j :: 0 <= from <= j < |tr| && x in tr[j].procs }

  /** launch for run: devices, qemu, pid file; on any failure run is about to clean up under the record's id. */
  method Launch(c: Cli, op: Op, r: Record, x: Pid, netns: bool) returns (ok: bool, ghost done: nat)
    requires c.Valid() && Boots(op) && In(c, op, LaunchNet) && HasVM(c, op.name, r, netns)
    modifies c
    ensures c.Valid() && Unleased(old(c.tr), c.tr, c.me)
    ensures if ok then c.s.Pc(c.me).Idle? else Failing(c, op, r.vmid)
    ensures c.calm && !ok ==> WasNoPid(c.tr, |old(c.tr)|, x)
    ensures ok ==> |old(c.tr)| <= done < |c.tr| && WholeVM(c.tr[done], op.name, r.(pid := x), netns)
  {
    done := 0;
    ok := RecoverNet(c, op, r, netns);
    if ok { ok := Spawn(c, op, r, x, netns); }
    if ok { ok, done := FinishLaunch(c, op, r, x, netns); }
  }

  method Spawn(c: Cli, op: Op, r: Record, x: Pid, netns: bool) returns (ok: bool)
    requires c.Valid() && Boots(op) && In(c, op, LaunchSpawn) && HasVM(c, op.name, r, netns)
    modifies c
    ensures c.Valid() && Unleased(old(c.tr), c.tr, c.me)
    ensures if ok then x > 0 && In(c, op, Launched(x)) && HasVM(c, op.name, r, netns) else Failing(c, op, r.vmid)
    ensures c.calm && !ok ==> WasNoPid(c.tr, |old(c.tr)|, x)
  {
    KeepVM(c, op, r, netns);
    ok := c.Call();
    if !ok || x in c.s.procs || x == 0 {
      c.Do(LaunchFailed(c.s, c.me, op, 0));
      return false;
    }
    c.Do(To(c.s.(procs := c.s.procs[x := Qemu(op.name)]), c.me, op, Launched(x)));
  }

  /** After the spawn: the pid may stay unknown, or qemu may be terminated after a later failure, or all is recorded. */
  method FinishLaunch(c: Cli, op: Op, r: Record, x: Pid, netns: bool) returns (ok: bool, ghost done: nat)
    requires c.Valid() && Boots(op) && In(c, op, Launched(x)) && HasVM(c, op.name, r, netns) && x > 0
    modifies c
    ensures c.Valid() && Unleased(old(c.tr), c.tr, c.me)
    ensures if ok then c.s.Pc(c.me).Idle? else Failing(c, op, r.vmid) && !c.calm
    ensures ok ==> |old(c.tr)| <= done < |c.tr| && WholeVM(c.tr[done], op.name, r.(pid := x), netns)
  {
    done := 0;
    KeepVM(c, op, r, netns);
    var pidKnown := c.Call();
    var vncUp := c.Call();
    ok := pidKnown && vncUp;
    if ok {
      done := RecordPid(c, op, r, x, netns);
    } else {
      LoseQemu(c, op, r, x, pidKnown);
    }
  }

  /** A qemu whose pid stayed unknown is left to the cleanup; any other is terminated, if that succeeds. */
  method LoseQemu(c: Cli, op: Op, r: Record, x: Pid, pidKnown: bool)
    requires c.Valid() && Boots(op) && In(c, op, Launched(x)) && !c.calm && c.s.IsCommitted(op.name) && c.s.dirs[op.name].rec == r
    modifies c
    ensures c.Valid() && c.tr == old(c.tr) + [c.s] && Failing(c, op, r.vmid)
    ensures c.s.Pc(c.me).at.qemu == if pidKnown then x else 0
  {
    var terminated := c.Call();
    if pidKnown {
      c.Do(LaunchFailed(if terminated then c.s.Without({x} * c.s.Live(op.name)) else c.s, c.me, op, x));
    } else {
      c.Do(LaunchFailed(c.s, c.me, op, 0));
    }
  }

  method RecordPid(c: Cli, op: Op, r: Record, x: Pid, netns: bool) returns (ghost done: nat)
    requires c.Valid() && Boots(op) && In(c, op, Launched(x)) && HasVM(c, op.name, r, netns) && x > 0
    modifies c
    ensures c.Valid() && Unleased(old(c.tr), c.tr, c.me) && c.s.Pc(c.me).Idle?
    ensures |old(c.tr)| <= done < |c.tr| && WholeVM(c.tr[done], op.name, r.(pid := x), netns)
  {
    ghost var before := c.s;
    c.Do(Leave(c.s.Commit(op.name, r.(pid := x)), c.me));
    done := |c.tr| - 1;
    assert c.tr[done - 1] == before;
    LaunchRecordsTheLivePid(c.tr, done - 1, c.me, op, x);
    RecordedIsWhole(c, op, r.(pid := x), netns);
    ghost var tr := c.tr;
    c.Release();
    WaitedIsUnleased(tr, c.tr, c.me);
    assert tr <= c.tr && c.tr[done] == tr[done];
  }

  /** What the invariant adds to a record, its devices and its qemu: nobody else has its id. */
  lemma RecordedIsWhole(c: Cli, op: Op, r: Record, netns: bool)
    requires c.Valid() && HasVM(c, op.name, r, netns) && r.pid > 0 && c.s.Owned(op.name) == c.s.Live(op.name) * {r.pid}
    ensures WholeVM(c.s, op.name, r, netns)
  {
    RunKeepsInv(c.tr, |c.tr| - 1);
  }

  // ---- the whole -------------------------------------------------------------------------------------------------------

  /** resize, data disks and OpenCore, with an identity of its own or without. */
  method PrepareImages(c: Cli, op: Op, id: Vmid, server: Pid, identity: bool) returns (ok: bool)
    requires c.Valid() && Provisions(op) && In(c, op, Making(id, Images))
    modifies c
    ensures c.Valid() && old(c.tr) <= c.tr
    ensures if ok then In(c, op, Making(id, NetMark)) else Failing(c, op, id)
    ensures ok ==> if identity then WasAttached(c.tr, |old(c.tr)|, c.me, op, id, server) else Unleased(old(c.tr), c.tr, c.me)
    ensures c.calm && !ok ==> identity && HadNoServer(c.tr, |old(c.tr)|, c.me, server)
  {
    c.Others();
    if identity {
      ok := Proceed(c, op, id, Images, To(c.s, c.me, op, Making(id, WantLease)), WantLease);
      if ok { ok := InjectIdentity(c, op, id, server); }
    } else {
      ok := Proceed(c, op, id, Images, To(c.s, c.me, op, Making(id, NetMark)), NetMark);
    }
  }

  /** The network and the record, after which create is done. */
  method NetAndRecord(c: Cli, op: Op, id: Vmid, provider: bool, netns: bool) returns (ok: bool, ghost done: nat)
    requires c.Valid() && Provisions(op) && In(c, op, Making(id, NetMark))
    modifies c
    ensures c.Valid() && Unleased(old(c.tr), c.tr, c.me)
    ensures ok ==> |old(c.tr)| <= done < |c.tr| && WholeVM(c.tr[done], op.name, Record(id, 0, provider), netns)
    ensures ok && Boots(op) ==> In(c, op, LaunchNet) && HasVM(c, op.name, Record(id, 0, provider), netns)
    ensures if !ok then Failing(c, op, id) && !c.calm else !Boots(op) ==> c.s.Pc(c.me).Idle?
  {
    done := 0;
    ok := ApplyNet(c, op, id, provider, netns);
    if ok { ok, done := SaveRecord(c, op, id, provider, netns); }
  }

  /** From the identity on: the network, the record, and for run the launch. */
  method RecordAndLaunch(c: Cli, op: Op, id: Vmid, x: Pid, provider: bool, netns: bool) returns (ok: bool, ghost done: nat)
    requires c.Valid() && Provisions(op) && In(c, op, Making(id, NetMark))
    modifies c
    ensures c.Valid() && Unleased(old(c.tr), c.tr, c.me)
    ensures if ok then c.s.Pc(c.me).Idle? else Failing(c, op, id)
    ensures c.calm && !ok ==> Boots(op) && WasNoPid(c.tr, |old(c.tr)|, x)
    ensures ok ==> |old(c.tr)| <= done < |c.tr| &&
                   WholeVM(c.tr[done], op.name, Record(id, if Boots(op) then x else 0, provider), netns)
  {
    ok, done := NetAndRecord(c, op, id, provider, netns);
    if ok && Boots(op) { ok, done := Launch(c, op, Record(id, 0, provider), x, netns); }
  }

  /** A clone's source must be committed and idle; one that is running, or whose adoption fails, refuses the clone. */
  method CheckSource(c: Cli, op: Op) returns (ok: bool)
    requires c.Valid() && op.Clone? && In(c, op, Entered)
    modifies c
    ensures c.Valid() && old(c.tr) <= c.tr && StaysEarly(c.tr, |old(c.tr)| - 1, c.me, op)
    ensures if ok then In(c, op, WantShared) else c.s.Pc(c.me).Idle? && WasPrevented(c.tr, |old(c.tr)| - 1, c.me, op)
  {
    ok := c.s.IsCommitted(op.src) && c.s.Live(op.src) == {};
    if ok {
      c.Do(To(c.s, c.me, op, WantShared));
      return;
    }
    ghost var before := c.tr;
    assert Prevented(c.s, c.me, op);
    if c.s.IsCommitted(op.src) { AdoptSource(c, op); } else { c.Quit(); }
    assert before <= c.tr && c.tr[|before| - 1] == before[|before| - 1];
  }

  /** reconcileRunningQEMU on a running source: at most its pid is written down before the clone is refused. */
  method AdoptSource(c: Cli, op: Op)
    requires c.Valid() && op.Clone? && In(c, op, Entered) && c.s.IsCommitted(op.src) && c.s.Live(op.src) != {}
    modifies c
    ensures c.Valid() && old(c.tr) <= c.tr && c.s.Pc(c.me).Idle? && StaysEarly(c.tr, |old(c.tr)| - 1, c.me, op)
  {
    var pid := c.s.dirs[op.src].rec.pid;
    var x :| x in c.s.Live(op.src);
    if pid !in c.s.Live(op.src) && c.s.Live(op.src) == {x} {
      var adopted := Adopt(c.s, op.src, x);
      assert ReconcileStep(c.s, c.me, op, op.src, Leave(adopted, c.me));
      c.Do(Leave(adopted, c.me));
      c.Release();
    } else {
      c.Quit();
    }
  }

  /** The VM locks, and for a clone a source at rest. */
  method Enter(c: Cli, op: Op) returns (ok: bool)
    requires c.Valid() && Provisions(op) && c.s.Pc(c.me).Idle?
    modifies c
    ensures c.Valid() && old(c.tr) <= c.tr && StaysEarly(c.tr, |old(c.tr)| - 1, c.me, op)
    ensures if ok then In(c, op, WantShared) else c.s.Pc(c.me).Idle? && WasPrevented(c.tr, |old(c.tr)| - 1, c.me, op)
  {
    ok := LockVMs(c, op);
    if !ok {
      ContendedPrevents(c.tr, |old(c.tr)| - 1, c.me, op);
      return;
    }
    c.Others();
    if op.Clone? {
      ok := CheckSource(c, op);
    } else {
      c.Do(To(c.s, c.me, op, WantShared));
    }
  }

  /** The locks and the directory. */
  method EnterAndScaffold(c: Cli, op: Op) returns (ok: bool)
    requires c.Valid() && Provisions(op) && c.s.Pc(c.me).Idle?
    modifies c
    ensures c.Valid() && old(c.tr) <= c.tr && StaysEarly(c.tr, |old(c.tr)| - 1, c.me, op)
    ensures if ok then In(c, op, Laying(Build)) else c.s.Pc(c.me).Idle?
    ensures c.calm && !ok ==> WasPrevented(c.tr, |old(c.tr)| - 1, c.me, op)
  {
    ok := Enter(c, op);
    if ok { ok := ScaffoldVM(c, op); }
  }

  /** Everything before the deferred cleanup is armed: the locks, the directory and its first images. */
  method LayOut(c: Cli, op: Op, id: Vmid) returns (ok: bool, r: Outcome, ghost done: nat)
    requires c.Valid() && Provisions(op) && c.s.Pc(c.me).Idle?
    modifies c
    ensures c.Valid() && old(c.tr) <= c.tr
    ensures if ok then In(c, op, Making(id, Images)) && Unleased(old(c.tr), c.tr, c.me)
            else c.s.Pc(c.me).Idle? && StaysEarly(c.tr, |old(c.tr)| - 1, c.me, op)
    ensures !ok ==> r.Refused? || (r.Unbuilt? && GaveBack(c.tr, |old(c.tr)|, done, op.name, r.removed))
    ensures c.calm && !ok ==> if r.Refused? then WasPrevented(c.tr, |old(c.tr)| - 1, c.me, op)
                              else r.removed && id in c.tr[done].usedIds
  {
    r, done := Refused, 0;
    ok := EnterAndScaffold(c, op);
    if ok {
      EarlyIsUnleased(old(c.tr), c.tr, c.me, op);
      var removed;
      ok, removed, done := BuildImages(c, op, id);
      r := Unbuilt(removed);
    }
  }

  /** What, besides a failing call, turns a create into a rollback: no server for its identity, or no pid for its qemu. */
  ghost predicate Starved(tr: seq<State>, from: int, p: Proc, op: Op, identity: bool, server: Pid, x: Pid)
  {
    (identity && HadNoServer(tr, from, p, server)) || (Boots(op) && WasNoPid(tr, from, x))
  }

  method MakeAndLaunch(c: Cli, op: Op, id: Vmid, server: Pid, x: Pid, identity: bool, provider: bool, netns: bool)
    returns (ok: bool, ghost done: nat)
    requires c.Valid() && Provisions(op) && In(c, op, Making(id, Images))
    modifies c
    ensures c.Valid() && old(c.tr) <= c.tr
    ensures if ok then c.s.Pc(c.me).Idle? else Failing(c, op, id)
    ensures ok ==> if identity then WasAttached(c.tr, |old(c.tr)|, c.me, op, id, server) else Unleased(old(c.tr), c.tr, c.me)
    ensures c.calm && !ok ==> Starved(c.tr, |old(c.tr)|, c.me, op, identity, server, x)
    ensures ok ==> |old(c.tr)| <= done < |c.tr| &&
                   WholeVM(c.tr[done], op.name, Record(id, if Boots(op) then x else 0, provider), netns)
  {
    done := 0;
    ok := PrepareImages(c, op, id, server, identity);
    if ok {
      ghost var tr := c.tr;
      ok, done := RecordAndLaunch(c, op, id, x, provider, netns);
      StaysAttached(tr, c.tr, |old(c.tr)|, c.me, op, id, server);
    }
  }

  /**
   create, run and clone, all or nothing: refused, or undone after a failed first image, with no record, device or qemu
   touched by any step of the call and the new directory gone if its removal succeeded; or one whole record with exactly the
   devices of its network, patched under the lease exactly if it was to have an identity, and for run its one recorded qemu;
   or a rollback that leaves nothing of it if its calls succeed. When no call fails, what refused or starved it is named.
   */
  method CreateOrClone(c: Cli, op: Op, id: Vmid, server: Pid, x: Pid, identity: bool, provider: bool, netns: bool)
    returns (r: Outcome, ghost done: nat)
    requires c.Valid() && c.s.Pc(c.me).Idle? && Provisions(op)
    modifies c
    ensures c.Valid() && old(c.tr) <= c.tr && c.s.Pc(c.me).Idle?
    ensures r.Refused? || r.Unbuilt? ==> Untouched(c.tr, |old(c.tr)| - 1, c.me, op)
    ensures c.calm && r.Refused? ==> WasPrevented(c.tr, |old(c.tr)| - 1, c.me, op)
    ensures r.Unbuilt? ==> GaveBack(c.tr, |old(c.tr)|, done, op.name, r.removed)
    ensures c.calm && r.Unbuilt? ==> r.removed && id in c.tr[done].usedIds
    ensures r.Made? ==> |old(c.tr)| <= done < |c.tr| &&
                        WholeVM(c.tr[done], op.name, Record(id, if Boots(op) then x else 0, provider), netns)
    ensures r.Made? ==> (identity <==> WasAttached(c.tr, |old(c.tr)|, c.me, op, id, server))
    ensures r == RolledBack(true) ==> |old(c.tr)| <= done < |c.tr| && NothingLeft(c.tr[done], op.name, id)
    ensures c.calm && r.RolledBack? ==> r.clean && Starved(c.tr, |old(c.tr)|, c.me, op, identity, server, x)
  {
    var ok;
    ok, r, done := LayOut(c, op, id);
    if !ok {
      EarlyTouchesNothing(c.tr, |old(c.tr)| - 1, c.me, op);
      return;
    }
    ghost var laid := c.tr;
    ok, done := MakeAndLaunch(c, op, id, server, x, identity, provider, netns);
    if ok {
      IdentityExactlyWhen(old(c.tr), laid, c.tr, c.me, op, id, server, identity);
      return Made, done;
    }
    StaysStarved(c.tr, c.tr, |old(c.tr)|, |laid|, c.me, op, identity, server, x);
    ghost var made := c.tr;
    var clean;
    clean, done := CleanupFailedVM(c, op, c.s.Pc(c.me).at);
    StaysStarved(made, c.tr, |old(c.tr)|, |laid|, c.me, op, identity, server, x);
    r := RolledBack(clean);
  }

  lemma IdentityExactlyWhen(a: seq<State>, b: seq<State>, t: seq<State>, p: Proc, op: Op, id: Vmid, server: Pid, identity: bool)
    requires Unleased(a, b, p) && b <= t
    requires if identity then WasAttached(t, |b|, p, op, id, server) else Unleased(b, t, p)
    ensures identity <==> WasAttached(t, |a|, p, op, id, server)
  {
    if identity {
      var j :| |b| <= j < |t| && Attaches(t[j], p, op, id, server);
    } else {
      forall j | |a| <= j < |t| ensures !Leases(t[j].Pc(p)) { assert j < |b| ==> t[j] == b[j]; }
      UnleasedNeverAttaches(a, t, p, op, id, server);
    }
  }

  lemma StaysStarved(a: seq<State>, b: seq<State>, from: int, later: int, p: Proc, op: Op, identity: bool, server: Pid, x: Pid)
    requires a <= b && 0 <= from <= later
    ensures Starved(a, later, p, op, identity, server, x) ==> Starved(b, from, p, op, identity, server, x)
  {
    if j :| 0 <= later <= j < |a| && NoServer(a[j], p, server) { assert b[j] == a[j]; }
    if j :| 0 <= later <= j < |a| && x in a[j].procs { assert b[j] == a[j]; }
  }
}
