/** The few shapes the steps come in: what a step leaves unchanged decides most of its footprint. */
module Shapes {
  import opened Wrappers
  import opened Text
  import opened Host
  import opened Protocol
  import opened Invariant

  /** The part of the invariant one process' step draws on. */
  ghost predicate Ready(s: State, p: Proc)
  {
    Basics(s) && LockOk(s, p) && PcOk(s, s.Pc(p)) && NamesOk(s, p, s)
  }

  ghost predicate NamesOk(s: State, p: Proc, s': State) { forall n :: s.Holds(n, p) ==> NameOk(s', n) }

  ghost predicate Good(s: State, p: Proc, s': State)
  {
    && LocksOfOthers(s, p, s') && LockOk(s', p) && DirsFootprint(s, p, s') && DevicesFootprint(s, p, s')
    && FlightFootprint(s, p, s') && RecordsFootprint(s, p, s') && ProcsFootprint(s, p, s')
    && Basics(s') && PcOk(s', s'.Pc(p)) && NamesOk(s, p, s')
  }

  /** The process moves on with the locks it has. */
  ghost predicate KeepsLocks(s: State, p: Proc, s': State, pc: PC)
  {
    && s'.pcs == s.pcs[p := pc] && s'.vmLock == s.vmLock && s'.gcShared == s.gcShared
    && s'.gcExcl == s.gcExcl && s'.lease == s.lease
    && HeldVMs(pc) == HeldVMs(s.Pc(p)) && Shares(pc) == Shares(s.Pc(p))
    && Excludes(pc) == Excludes(s.Pc(p)) && Leases(pc) == Leases(s.Pc(p))
  }

  lemma LocksKept(s: State, p: Proc, s': State, pc: PC)
    requires LockOk(s, p) && KeepsLocks(s, p, s', pc)
    ensures LocksOfOthers(s, p, s') && LockOk(s', p) && s'.Pc(p) == pc
    ensures Basics(s) && 0 !in s'.procs && s'.abandoned <= s'.procs.Keys ==> Basics(s')
  {
  }

  /** A lock that only p took or dropped. */
  predicate OwnSwap(a: Option<Proc>, b: Option<Proc>, p: Proc)
  {
    a == b || ((a.None? || a == Some(p)) && (b.None? || b == Some(p)))
  }

  /** The gc lock and the lease changed hands at most for p itself. */
  lemma SideLocksOk(s: State, p: Proc, s': State, pc: PC)
    requires LockOk(s, p) && s'.pcs == s.pcs[p := pc]
    requires s'.vmLock == s.vmLock && HeldVMs(pc) == HeldVMs(s.Pc(p))
    requires s'.gcShared - {p} == s.gcShared - {p} && (p in s'.gcShared <==> Shares(pc))
    requires OwnSwap(s.gcExcl, s'.gcExcl, p) && OwnSwap(s.lease, s'.lease, p)
    requires (s'.gcExcl == Some(p) <==> Excludes(pc)) && (s'.lease == Some(p) <==> Leases(pc))
    ensures LocksOfOthers(s, p, s') && LockOk(s', p) && s'.Pc(p) == pc
  {
    forall q | q != p ensures q in s.gcShared <==> q in s'.gcShared {
      assert q in s.gcShared <==> q in s.gcShared - {p};
      assert q in s'.gcShared <==> q in s'.gcShared - {p};
    }
  }

  lemma VmLockTaken(s: State, p: Proc, n: Name, s': State, pc: PC)
    requires LockOk(s, p) && s'.pcs == s.pcs[p := pc]
    requires n !in s.vmLock && s'.vmLock == s.vmLock[n := p] && HeldVMs(pc) == HeldVMs(s.Pc(p)) + {n}
    requires s'.gcShared == s.gcShared && s'.gcExcl == s.gcExcl && s'.lease == s.lease
    requires Shares(pc) == Shares(s.Pc(p)) && Excludes(pc) == Excludes(s.Pc(p)) && Leases(pc) == Leases(s.Pc(p))
    ensures LocksOfOthers(s, p, s') && LockOk(s', p) && s'.Pc(p) == pc
  {
    forall m, q ensures s'.Holds(m, q) <==> s.Holds(m, q) || (m == n && q == p) {
    }
  }

  lemma VmLockDropped(s: State, p: Proc, n: Name, s': State, pc: PC)
    requires LockOk(s, p) && s'.pcs == s.pcs[p := pc]
    requires s.Holds(n, p) && s'.vmLock == s.vmLock - {n} && HeldVMs(pc) == HeldVMs(s.Pc(p)) - {n}
    requires s'.gcShared == s.gcShared && s'.gcExcl == s.gcExcl && s'.lease == s.lease
    requires Shares(pc) == Shares(s.Pc(p)) && Excludes(pc) == Excludes(s.Pc(p)) && Leases(pc) == Leases(s.Pc(p))
    ensures LocksOfOthers(s, p, s') && LockOk(s', p) && s'.Pc(p) == pc
  {
    forall m, q ensures s'.Holds(m, q) <==> s.Holds(m, q) && m != n {
    }
  }

  lemma DirsKept(s: State, p: Proc, s': State)
    requires s'.dirs == s.dirs && (s.marker ==> s'.marker)
    requires s'.marker || Raises(s'.Pc(p)) <= Raises(s.Pc(p))
    ensures DirsFootprint(s, p, s') && RecordsFootprint(s, p, s')
  {
  }

  lemma FlightKept(s: State, p: Proc, s': State)
    requires s'.usedIds == s.usedIds
    requires Flight(s'.Pc(p)) == {} || (Flight(s'.Pc(p)) <= Flight(s.Pc(p)) && s'.Pc(p).op == s.Pc(p).op)
    ensures FlightFootprint(s, p, s')
  {
  }

  lemma DevicesKept(s: State, p: Proc, s': State)
    requires s'.devices == s.devices
    ensures DevicesFootprint(s, p, s')
  {
  }

  /** Processes may only have died. */
  ghost predicate ProcsShrink(s: State, s': State)
  {
    && s'.procs.Keys <= s.procs.Keys && (forall x :: x in s'.procs ==> s'.procs[x] == s.procs[x])
    && (forall x :: x in s'.abandoned <==> x in s.abandoned && x in s'.procs)
  }

  lemma ShrinkKeeps(s: State, p: Proc, s': State)
    requires ProcsShrink(s, s') && Basics(s)
    ensures ProcsFootprint(s, p, s') && 0 !in s'.procs && s'.abandoned <= s'.procs.Keys
    ensures forall n :: s'.Live(n) <= s.Live(n) && s'.Owned(n) <= s.Owned(n) && s'.Helpers(n) <= s.Helpers(n)
    ensures forall n, x :: x in s'.Live(n) && x in s.Owned(n) ==> x in s'.Owned(n)
  {
  }

  lemma ShrinkKeepsName(s: State, s': State, n: Name)
    requires ProcsShrink(s, s') && NameOk(s, n)
    requires s.Owned(n) != {} ==> s'.IsCommitted(n)
    requires s'.IsCommitted(n) ==>
               s'.dirs[n].rec.pid !in s.procs || (s.IsCommitted(n) && s'.dirs[n].rec.pid == s.dirs[n].rec.pid)
    ensures NameOk(s', n)
  {
    assert s'.Owned(n) <= s.Owned(n);
  }

  /** A step whose process goes on with its locks, over a host on which nothing but processes vanished. */
  lemma QuietGood(s: State, p: Proc, s': State, pc: PC)
    requires Ready(s, p) && KeepsLocks(s, p, s', pc) && ProcsShrink(s, s')
    requires s'.dirs == s.dirs && (s.marker ==> s'.marker) && s'.devices == s.devices && s'.usedIds == s.usedIds
    requires s'.marker || Raises(pc) <= Raises(s.Pc(p))
    requires Flight(pc) == {} || (Flight(pc) <= Flight(s.Pc(p)) && pc.op == s.Pc(p).op)
    requires PcOk(s', pc)
    ensures Good(s, p, s')
  {
    LocksKept(s, p, s', pc);
    DirsKept(s, p, s');
    FlightKept(s, p, s');
    DevicesKept(s, p, s');
    ShrinkKeeps(s, p, s');
    forall n | s.Holds(n, p) ensures NameOk(s', n) {
      ShrinkKeepsName(s, s', n);
    }
  }

  /** The same, when only the program point changed. */
  lemma MoveGood(s: State, p: Proc, pc: PC)
    requires Ready(s, p)
    requires HeldVMs(pc) == HeldVMs(s.Pc(p)) && Shares(pc) == Shares(s.Pc(p))
    requires Excludes(pc) == Excludes(s.Pc(p)) && Leases(pc) == Leases(s.Pc(p))
    requires s.marker || Raises(pc) <= Raises(s.Pc(p))
    requires Flight(pc) == {} || (Flight(pc) <= Flight(s.Pc(p)) && pc.op == s.Pc(p).op)
    requires PcOk(s, pc)
    ensures Good(s, p, s.At(p, pc))
  {
    PcOkIgnoresPcs(s, s.At(p, pc), pc);
    QuietGood(s, p, s.At(p, pc), pc);
  }

  /** What a process relies on is about the host, not about where other processes are. */
  lemma PcOkIgnoresPcs(s: State, s': State, pc: PC)
    requires s'.dirs == s.dirs && s'.marker == s.marker && s'.devices == s.devices && s'.procs == s.procs && s'.abandoned == s.abandoned
    requires PcOk(s, pc)
    ensures PcOk(s', pc)
  {
  }

  lemma LeaveGood(s: State, p: Proc)
    requires Ready(s, p) && !Leases(s.Pc(p))
    ensures Good(s, p, Leave(s, p))
  {
    MoveGood(s, p, Exit(HeldVMs(s.Pc(p)), Shares(s.Pc(p)), Excludes(s.Pc(p))));
  }
}
