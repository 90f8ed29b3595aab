/**
 Two live qemu of one VM: a run whose launch fails with qemu alive and whose cleanup fails to kill it still removes the
 directory, so a second run of the same name finds nothing to adopt and launches again.
 */
module Counterexample {
  import opened Wrappers
  import opened Host
  import opened Protocol
  import opened Runs

  ghost predicate Links(tr: seq<State>, a: State, b: State)
  {
    && |tr| > 0 && tr[0] == a && tr[|tr| - 1] == b
    && forall i :: 0 <= i < |tr| - 1 ==> Continues(tr, i)
  }

  ghost predicate Reaches(a: State, b: State) { exists tr :: Links(tr, a, b) }

  lemma Extend(a: State, b: State, p: Proc, c: State)
    requires Reaches(a, b) && Step(b, p, c)
    ensures Reaches(a, c)
  {
    var tr :| Links(tr, a, b);
    var more := tr + [c];
    forall i | 0 <= i < |more| - 1 ensures Continues(more, i) {
      if i < |tr| - 1 { assert Continues(tr, i); }
    }
    assert Links(more, a, c);
  }

  /** Process 0 runs alone, and the VM is absent. */
  ghost predicate Quiet(s: State, n: Name)
  {
    s.Pc(0).Idle? && s.vmLock == map[] && s.gcShared == {} && s.gcExcl.None? && n !in s.dirs
  }

  function Run(n: Name): Op { Create(n, true) }

  /** run takes its VM lock and the shared provisioning lock. */
  lemma Locks(a: State, s: State, n: Name) returns (s': State)
    requires Reaches(a, s) && Quiet(s, n)
    ensures Reaches(a, s')
    ensures s' == s.(vmLock := map[n := 0], gcShared := {0}, pcs := s'.pcs) && s'.Pc(0) == InOp(Run(n), Laying(Scaffold))
  {
    var s1 := s.At(0, WantVM(Run(n), {}));
    assert BeginStep(s, 0, s1);
    Extend(a, s, 0, s1);
    assert {} + {n} == VMs(Run(n));
    var s2 := s1.(vmLock := s1.vmLock[n := 0]).At(0, InOp(Run(n), Entered));
    Extend(a, s1, 0, s2);
    var s3 := To(s2, 0, Run(n), WantShared);
    Extend(a, s2, 0, s3);
    s' := To(s3.(gcShared := s3.gcShared + {0}), 0, Run(n), Laying(Scaffold));
    Extend(a, s3, 0, s');
  }

  lemma Scaffolds(a: State, s: State, n: Name, v: Vmid) returns (s': State)
    requires Reaches(a, s) && s.Pc(0) == InOp(Run(n), Laying(Scaffold)) && n !in s.dirs && v !in s.usedIds
    ensures Reaches(a, s')
    ensures s' == s.(dirs := s.dirs[n := Bare], usedIds := s.usedIds + {v}, pcs := s'.pcs)
    ensures s'.Pc(0) == InOp(Run(n), Making(v, Images))
  {
    var s1 := To(s, 0, Run(n), Laying(MakeDir));
    Extend(a, s, 0, s1);
    var s2 := To(s1.(dirs := s1.dirs[n := Bare]), 0, Run(n), Laying(Build));
    Extend(a, s1, 0, s2);
    s' := To(s2.(usedIds := s2.usedIds + {v}), 0, Run(n), Making(v, Images));
    assert LayStep(s2, 0, Run(n), Build, s');
    Extend(a, s2, 0, s');
  }

  lemma Commits(a: State, s: State, n: Name, v: Vmid) returns (s': State)
    requires Reaches(a, s) && s.Pc(0) == InOp(Run(n), Making(v, Images))
    ensures Reaches(a, s')
    ensures s' == s.(dirs := s.dirs[n := Committed(Record(v, 0, false))], marker := true,
                     gcShared := s.gcShared - {0}, pcs := s'.pcs)
    ensures s'.Pc(0) == InOp(Run(n), LaunchNet)
  {
    var s1 := To(s, 0, Run(n), Making(v, NetMark));
    Extend(a, s, 0, s1);
    var s2 := To(s1.(marker := true), 0, Run(n), Making(v, NetPrepare));
    Extend(a, s1, 0, s2);
    var s3 := To(s2, 0, Run(n), Making(v, Save(false)));
    Extend(a, s2, 0, s3);
    var s4 := To(s3.Commit(n, Record(v, 0, false)), 0, Run(n), Saved);
    Extend(a, s3, 0, s4);
    s' := To(s4.(gcShared := s4.gcShared - {0}), 0, Run(n), LaunchNet);
    Extend(a, s4, 0, s');
  }

  /** The committed VM's qemu starts. */
  lemma Boots(a: State, s: State, n: Name, x: Pid) returns (s': State)
    requires Reaches(a, s) && s.Pc(0) == InOp(Run(n), LaunchNet) && s.IsCommitted(n) && x !in s.procs && x > 0
    ensures Reaches(a, s')
    ensures s' == s.(procs := s.procs[x := Qemu(n)], pcs := s'.pcs) && s'.Pc(0) == InOp(Run(n), Launched(x))
  {
    var s1 := To(s, 0, Run(n), LaunchSpawn);
    Extend(a, s, 0, s1);
    s' := To(s1.(procs := s1.procs[x := Qemu(n)]), 0, Run(n), Launched(x));
    Extend(a, s1, 0, s');
  }

  function Cleanup(id: Vmid, phase: RollbackPhase): Point { Rollback(id, false, false, false, 0, phase) }

  /** The pid file cannot be read, so the record still says pid 0, and the scan that should reap the qemu fails. */
  lemma FailsToReap(a: State, s: State, n: Name, x: Pid) returns (s': State)
    requires Reaches(a, s) && s.Pc(0) == InOp(Run(n), Launched(x)) && s.IsCommitted(n) && !s.dirs[n].rec.owned
    ensures Reaches(a, s')
    ensures s' == s.(pcs := s'.pcs) && s'.Pc(0) == InOp(Run(n), Cleanup(s.dirs[n].rec.vmid, RemoveDir))
  {
    var id := s.dirs[n].rec.vmid;
    var s1 := LaunchFailed(s, 0, Run(n), 0);
    Extend(a, s, 0, s1);
    var s2 := To(s1, 0, Run(n), Cleanup(id, Teardown));
    Extend(a, s1, 0, s2);
    var s3 := To(s2, 0, Run(n), Cleanup(id, Reap));
    Extend(a, s2, 0, s3);
    s' := To(s3, 0, Run(n), Cleanup(id, RemoveDir));
    Extend(a, s3, 0, s');
  }

  /** The directory goes all the same, and run returns its error. */
  lemma RemovesAndExits(a: State, s: State, n: Name, id: Vmid) returns (s': State)
    requires Reaches(a, s) && s.Pc(0) == InOp(Run(n), Cleanup(id, RemoveDir)) && s.vmLock == map[n := 0]
    ensures Reaches(a, s')
    ensures s' == s.(dirs := s.dirs - {n}, abandoned := s.abandoned + s.Live(n), vmLock := map[], pcs := s'.pcs)
    ensures s'.Pc(0).Idle?
  {
    var s1 := To(Abandon(s, n).(dirs := s.dirs - {n}), 0, Run(n), Cleanup(id, Finished));
    assert RollbackStep(s, 0, Run(n), Cleanup(id, RemoveDir), s1);
    Extend(a, s, 0, s1);
    var s2 := Leave(s1, 0);
    Extend(a, s1, 0, s2);
    var s3 := s2.(vmLock := s2.vmLock - {n}).At(0, Exit({}, false, false));
    assert {n} - {n} == {} && s3.vmLock == map[];
    Extend(a, s2, 0, s3);
    s' := s3.At(0, Idle);
    Extend(a, s3, 0, s');
  }

  /** A whole run from a quiet host to its live qemu. */
  lemma RunsToQemu(a: State, s: State, n: Name, v: Vmid, x: Pid) returns (s': State)
    requires Reaches(a, s) && Quiet(s, n) && v !in s.usedIds && x !in s.procs && x > 0
    ensures Reaches(a, s')
    ensures s'.IsCommitted(n) && !s'.dirs[n].rec.owned && s'.Pc(0) == InOp(Run(n), Launched(x))
    ensures s'.vmLock == map[n := 0] && s'.gcShared == {} && s'.gcExcl == s.gcExcl
    ensures s'.procs == s.procs[x := Qemu(n)] && s'.usedIds == s.usedIds + {v} && s'.abandoned == s.abandoned
  {
    s' := Locks(a, s, n);
    s' := Scaffolds(a, s', n, v);
    s' := Commits(a, s', n, v);
    s' := Boots(a, s', n, x);
  }

  /** A run that ends with two live qemu on one VM name. */
  lemma TwoQemusAreReachable() returns (tr: seq<State>)
    ensures IsRun(tr) && tr[|tr| - 1].Live("m") == {1, 2}
  {
    var n := "m";
    var a := State(map[], false, {}, map[], map[], {}, None, None, map[], {}, {});
    assert Links([a], a, a);
    var s := RunsToQemu(a, a, n, 0, 1);
    var id := s.dirs[n].rec.vmid;
    s := FailsToReap(a, s, n, 1);
    s := RemovesAndExits(a, s, n, id);
    s := RunsToQemu(a, s, n, 1, 2);
    assert s.procs == map[1 := Qemu(n), 2 := Qemu(n)];
    tr :| Links(tr, a, s);
  }
}
