/** Blocking acquisitions climb one order of locks, so no reachable state holds a wait cycle. */
module Deadlock {
  import opened Wrappers
  import opened Text
  import opened Host
  import opened Protocol
  import opened Invariant
  import opened Runs

  datatype Lock = VMLock(name: Name) | GcLock | LeaseLock

  /** The lock a process blocks on at this point; a sweep blocks on none. */
  function Wants(pc: PC): Option<Lock>
  {
    if pc.WantVM? then Some(VMLock(NextLock(pc.want, pc.held)))
    else if pc.InOp? && pc.at.WantShared? then Some(GcLock)
    else if pc.InOp? && pc.at.Making? && pc.at.make.WantLease? then Some(LeaseLock)
    else None
  }

  ghost predicate Has(s: State, p: Proc, l: Lock)
  {
    match l
    case VMLock(n) => s.Holds(n, p)
    case GcLock => p in s.gcShared || s.gcExcl == Some(p)
    case LeaseLock => s.lease == Some(p)
  }

  /** VM locks in path order, then the gc lock, then the lease. */
  predicate Below(a: Lock, b: Lock)
  {
    match (a, b)
    case (VMLock(m), VMLock(n)) => Less(m, n)
    case (VMLock(_), _) => true
    case (GcLock, LeaseLock) => true
    case _ => false
  }

  /** p blocks on a lock that q holds. */
  ghost predicate WaitsFor(s: State, p: Proc, q: Proc)
  {
    Wants(s.Pc(p)).Some? && Has(s, q, Wants(s.Pc(p)).value)
  }

  lemma BelowTransitive(a: Lock, b: Lock, c: Lock)
    requires Below(a, b) && Below(b, c)
    ensures Below(a, c)
  {
    if a.VMLock? && b.VMLock? && c.VMLock? { LessTransitive(a.name, b.name, c.name); }
  }

  /** Every blocking acquire targets a lock strictly above all the process holds. */
  lemma AcquiresClimb(s: State, p: Proc, l: Lock)
    requires Inv(s) && Wants(s.Pc(p)).Some? && Has(s, p, l)
    ensures Below(l, Wants(s.Pc(p)).value)
  {
    var pc := s.Pc(p);
    assert LockOk(s, p) && PcOk(s, pc);
    if pc.WantVM? && pc.held != {} {
      LessTotal(pc.want.name, pc.want.src);
      assert l.name in pc.held;
    }
  }

  /** A chain of waits raises the awaited lock at every link. */
  lemma {:induction false} WaitChainClimbs(s: State, chain: seq<Proc>)
    requires Inv(s) && |chain| >= 2
    requires forall i :: 0 <= i < |chain| ==> Wants(s.Pc(chain[i])).Some?
    requires forall i :: 0 <= i < |chain| - 1 ==> WaitsFor(s, chain[i], chain[i + 1])
    ensures Below(Wants(s.Pc(chain[0])).value, Wants(s.Pc(chain[|chain| - 1])).value)
  {
    var k := |chain| - 1;
    assert WaitsFor(s, chain[k - 1], chain[k - 1 + 1]);
    AcquiresClimb(s, chain[k], Wants(s.Pc(chain[k - 1])).value);
    if k > 1 {
      var shorter := chain[..k];
      forall i | 0 <= i < |shorter| - 1 ensures WaitsFor(s, shorter[i], shorter[i + 1]) {
        assert WaitsFor(s, chain[i], chain[i + 1]);
      }
      WaitChainClimbs(s, shorter);
      BelowTransitive(Wants(s.Pc(chain[0])).value, Wants(s.Pc(chain[k - 1])).value, Wants(s.Pc(chain[k])).value);
    }
  }

  /** Processes that wait for one another in a circle. */
  ghost predicate WaitCycle(s: State, cycle: seq<Proc>)
  {
    && |cycle| > 0
    && forall i :: 0 <= i < |cycle| ==> WaitsFor(s, cycle[i], cycle[if i + 1 == |cycle| then 0 else i + 1])
  }

  lemma NoWaitCycle(tr: seq<State>, i: nat, cycle: seq<Proc>)
    requires IsRun(tr) && i < |tr|
    ensures !WaitCycle(tr[i], cycle)
  {
    var s := tr[i];
    RunKeepsInv(tr, i);
    if WaitCycle(s, cycle) {
      var chain := cycle + [cycle[0]];
      forall j | 0 <= j < |chain| - 1 ensures WaitsFor(s, chain[j], chain[j + 1]) {
        assert WaitsFor(s, cycle[j], cycle[if j + 1 == |cycle| then 0 else j + 1]);
      }
      forall j | 0 <= j < |chain| ensures Wants(s.Pc(chain[j])).Some? {
        assert WaitsFor(s, chain[if j < |cycle| then j else 0], chain[(if j < |cycle| then j else 0) + 1]);
      }
      WaitChainClimbs(s, chain);
      var l := Wants(s.Pc(cycle[0])).value;
      if l.VMLock? { LessTotal(l.name, l.name); }
      assert false;
    }
  }

  // ---- lock files ------------------------------------------------------------------------------------------------

  const GC_LOCK := ".gc.lock"
  const MARKER := ".provisioned"

  function LockPath(vms: string, name: Name): string { vms + "/.locks/" + name + ".lock" }

  function InLocks(vms: string, file: string): string { vms + "/.locks/" + file }

  /** What VMDir accepts: one path component that does not start with a dot. */
  predicate OneComponent(name: Name) { name != "" && name[0] != '.' && '/' !in name }

  lemma LockPathsDistinct(vms: string, a: Name, b: Name)
    requires LockPath(vms, a) == LockPath(vms, b)
    ensures a == b
  {
    var pre, post := |vms + "/.locks/"|, |".lock"|;
    assert LockPath(vms, a)[pre..|LockPath(vms, a)| - post] == a;
    assert LockPath(vms, b)[pre..|LockPath(vms, b)| - post] == b;
  }

  lemma NoVMLockIsTheGcLock(vms: string, name: Name)
    requires OneComponent(name)
    ensures LockPath(vms, name) != InLocks(vms, GC_LOCK) && LockPath(vms, name) != InLocks(vms, MARKER)
  {
    var at := |vms + "/.locks/"|;
    assert LockPath(vms, name)[at] == name[0];
    assert InLocks(vms, GC_LOCK)[at] == '.' && InLocks(vms, MARKER)[at] == '.';
  }

  /** Ordering directories by path, as the locks are taken, is ordering VM names. */
  lemma PathOrderIsNameOrder(vms: string, a: Name, b: Name)
    ensures Less(VMDir(vms, a), VMDir(vms, b)) == Less(a, b)
  {
    LessUnderPrefix(vms + "/", a, b);
  }
}
