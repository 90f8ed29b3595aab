/** What a create, run or clone that is refused has done: nothing a record, a device or a qemu could show. */
module Refusal {
  import opened Wrappers
  import opened Text
  import opened Host
  import opened Protocol
  import opened Invariant
  import opened Shapes
  import opened Runs
  import opened Agent

  /** Up to the end of scaffoldVM, or on the way out: the deferred cleanup is not armed yet. */
  predicate Early(pc: PC, op: Op)
  {
    Waits(pc) || (pc.InOp? && pc.op == op && (pc.at.Entered? || pc.at.WantShared? || pc.at.Laying?))
  }

  ghost predicate StaysEarly(tr: seq<State>, from: int, p: Proc, op: Op)
  {
    forall i :: 0 <= from <= i < |tr| ==> Early(tr[i].Pc(p), op)
  }

  /** reconcileRunningQEMU wrote down the pid of the only live qemu of a clone's source. */
  ghost predicate Adopted(s: State, s': State, op: Op, n: Name)
    requires s.IsCommitted(n) && s'.IsCommitted(n)
  {
    var r := s'.dirs[n].rec;
    op.Clone? && n == op.src && s.Live(n) == {r.pid} && r == s.dirs[n].rec.(pid := r.pid)
  }

  /** No record is made, lost or changed but for an adopted pid; no device, network id or qemu comes or goes. */
  ghost predicate Sparing(s: State, s': State, op: Op)
  {
    && s'.devices == s.devices && s'.usedIds == s.usedIds && (s.marker ==> s'.marker)
    && (forall n :: n != op.name ==> (n in s'.dirs <==> n in s.dirs))
    && (forall n :: s'.IsCommitted(n) <==> s.IsCommitted(n))
    && (forall n :: s.IsCommitted(n) ==> s'.dirs[n] == s.dirs[n] || Adopted(s, s', op, n))
    && (forall n :: s'.Live(n) == s.Live(n))
  }

  lemma AdoptionIsSparing(s: State, p: Proc, op: Op, x: Pid)
    requires op.Clone? && s.IsCommitted(op.src) && s.Live(op.src) == {x}
    ensures Sparing(s, Leave(Adopt(s, op.src, x), p), op)
  {
  }

  /** Only the directory of the name itself, while it has no record, and qemu-nbd servers came or went. */
  ghost predicate BareChange(s: State, s': State, op: Op)
  {
    && s'.devices == s.devices && s'.usedIds == s.usedIds && (s.marker ==> s'.marker)
    && (s'.dirs == s.dirs || (!s.IsCommitted(op.name) && s'.dirs in {s.dirs - {op.name}, s.dirs[op.name := Bare]}))
    && (s'.procs == s.procs || s'.procs == s.procs - s.Helpers(op.name))
  }

  lemma BareChangeIsSparing(s: State, s': State, op: Op)
    requires BareChange(s, s', op)
    ensures Sparing(s, s', op)
  {
    forall n ensures s'.Live(n) == s.Live(n) {
      assert s.Live(n) !! s.Helpers(op.name);
    }
  }

  lemma EnteredIsSparing(s: State, p: Proc, op: Op, s': State)
    requires Provisions(op) && EnteredStep(s, p, op, s') && Early(s'.Pc(p), op)
    ensures Sparing(s, s', op)
  {
    if x: Pid :| op.Clone? && s.IsCommitted(op.src) && s.Live(op.src) == {x} && s' == Leave(Adopt(s, op.src, x), p) {
      AdoptionIsSparing(s, p, op, x);
    } else {
      BareChangeIsSparing(s, s', op);
    }
  }

  lemma ResetChange(s: State, op: Op, phase: ResetPhase, pc: PC, p: Proc)
    requires !s.IsCommitted(op.name)
    ensures BareChange(s, ResetEffect(s, op.name, phase).At(p, pc), op)
  {
  }

  lemma BuildChange(s: State, p: Proc, op: Op, s': State)
    requires LayStep(s, p, op, Build, s') && Early(s'.Pc(p), op) && !s.IsCommitted(op.name)
    ensures BareChange(s, s', op)
  {
    assert forall v :: To(s.(usedIds := s.usedIds + {v}), p, op, Making(v, Images)).Pc(p) == InOp(op, Making(v, Images));
    assert s' == Leave(s, p) || s' == Leave(s.(dirs := s.dirs - {op.name}), p);
  }

  lemma LayingChange(s: State, p: Proc, op: Op, lay: Lay, s': State)
    requires LayStep(s, p, op, lay, s') && Early(s'.Pc(p), op) && (lay.Scaffold? || !s.IsCommitted(op.name))
    ensures BareChange(s, s', op)
  {
    if s' != Leave(s, p) {
      match lay
      case Scaffold =>
      case Reset(phase) => ResetChange(s, op, phase, InOp(op, Laying(AfterReset(phase))), p);
      case MakeDir => assert s'.dirs == s.dirs[op.name := Bare];
      case Build => BuildChange(s, p, op, s');
    }
  }

  lemma LockWaitChange(s: State, p: Proc, want: Op, held: set<Name>, s': State, op: Op)
    requires LockVMStep(s, p, want, held, s')
    ensures BareChange(s, s', op)
  {
  }

  lemma ExitChange(s: State, p: Proc, vms: set<Name>, shared: bool, excl: bool, s': State, op: Op)
    requires ExitStep(s, p, vms, shared, excl, s')
    ensures BareChange(s, s', op)
  {
  }

  lemma WaitingChange(s: State, p: Proc, op: Op, s': State)
    requires Step(s, p, s') && Waits(s.Pc(p))
    ensures BareChange(s, s', op)
  {
    match s.Pc(p)
    case Idle => assert s'.dirs == s.dirs && s'.devices == s.devices && s'.procs == s.procs && s'.usedIds == s.usedIds && s'.marker == s.marker;
    case WantVM(want, held) => LockWaitChange(s, p, want, held, s', op);
    case Exit(vms, shared, excl) => ExitChange(s, p, vms, shared, excl, s', op);
  }

  lemma EarlyStepIsSparing(s: State, p: Proc, op: Op, s': State)
    requires Inv(s) && Provisions(op) && Step(s, p, s') && Early(s.Pc(p), op) && Early(s'.Pc(p), op)
    ensures Sparing(s, s', op)
  {
    if Waits(s.Pc(p)) {
      WaitingChange(s, p, op, s');
      BareChangeIsSparing(s, s', op);
    } else {
      assert PcOk(s, s.Pc(p));
      match s.Pc(p).at
      case Entered => EnteredIsSparing(s, p, op, s');
      case WantShared => BareChangeIsSparing(s, s', op);
      case Laying(lay) =>
        LayingChange(s, p, op, lay, s');
        BareChangeIsSparing(s, s', op);
    }
  }

  /** Every step of p in this stretch of the run, its death included, spares everything. */
  ghost predicate Untouched(tr: seq<State>, from: nat, p: Proc, op: Op)
  {
    forall i {:trigger tr[i]} :: from <= i < |tr| - 1 && tr[i + 1].Pc(p) != tr[i].Pc(p) ==> Sparing(tr[i], tr[i + 1], op)
  }

  lemma StepLeavesPc(s: State, q: Proc, s': State, p: Proc)
    requires Inv(s) && Step(s, q, s') && q != p
    ensures s'.Pc(p) == s.Pc(p)
  {
    StepGood(s, q, s');
  }

  lemma StepOfAnyIsSparing(s: State, q: Proc, s': State, p: Proc, op: Op)
    requires Inv(s) && Provisions(op) && Step(s, q, s') && Early(s.Pc(p), op) && Early(s'.Pc(p), op)
    ensures s'.Pc(p) != s.Pc(p) ==> Sparing(s, s', op)
  {
    if q == p { EarlyStepIsSparing(s, p, op, s'); } else { StepLeavesPc(s, q, s', p); }
  }

  lemma KillIsSparing(s: State, q: Proc, op: Op)
    ensures Sparing(s, Killed(s, q), op)
  {
    BareChangeIsSparing(s, Killed(s, q), op);
  }

  /** Whichever way p moves, by its own step or by being killed. */
  lemma MoveIsSparing(s: State, s': State, p: Proc, op: Op)
    requires Inv(s) && Next(s, s') && Provisions(op) && Early(s.Pc(p), op) && Early(s'.Pc(p), op)
    ensures s'.Pc(p) != s.Pc(p) ==> Sparing(s, s', op)
  {
    if q :| Step(s, q, s') {
      StepOfAnyIsSparing(s, q, s', p, op);
    } else if q :| s' == Killed(s, q) {
      KillIsSparing(s, q, op);
    }
  }

  /** A process that stays early touches nothing, in any run. */
  lemma EarlyTouchesNothing(tr: seq<State>, from: nat, p: Proc, op: Op)
    requires IsRun(tr) && Provisions(op) && StaysEarly(tr, from, p, op)
    ensures Untouched(tr, from, p, op)
  {
    forall i {:trigger tr[i]} | from <= i < |tr| - 1 && tr[i + 1].Pc(p) != tr[i].Pc(p)
      ensures Sparing(tr[i], tr[i + 1], op)
    {
      RunKeepsInv(tr, i);
      assert Continues(tr, i);
      MoveIsSparing(tr[i], tr[i + 1], p, op);
    }
  }
}
