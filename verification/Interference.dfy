/** A step that keeps to its footprint leaves every other process, name and global fact intact. */
module Interference {
  import opened Wrappers
  import opened Text
  import opened Host
  import opened Protocol
  import opened Invariant

  /** Nothing about a name p has locked changes in a step of q, except that processes may die. */
  lemma LockedNameStable(s: State, q: Proc, s': State, p: Proc, n: Name)
    requires Inv(s) && Footprint(s, q, s') && p != q && n in HeldVMs(s.Pc(p))
    ensures s.Holds(n, p) && !s.Holds(n, q)
    ensures n in s.dirs <==> n in s'.dirs
    ensures n in s.dirs ==> s.dirs[n] == s'.dirs[n]
    ensures s'.Live(n) <= s.Live(n) && s'.Owned(n) <= s.Owned(n) && s'.Helpers(n) <= s.Helpers(n)
    ensures forall x :: x in s'.Live(n) && x in s.Owned(n) ==> x in s'.Owned(n)
  {
    assert LockOk(s, p);
  }

  /** A device under an id p has in flight neither appears nor disappears in a step of q, while q does not sweep. */
  lemma FlightDevicesStable(s: State, q: Proc, s': State, p: Proc, v: Vmid)
    requires Inv(s) && Footprint(s, q, s') && p != q && v in Flight(s.Pc(p))
    ensures NoDevice(s, v) ==> NoDevice(s', v)
    ensures s.gcExcl != Some(q) ==> forall d :: d in s.devices && d.vmid == v ==> d in s'.devices
  {
    assert FlightOk(s, p) && LockOk(s, p) && LockOk(s, q);
    assert s.Pc(p).op.name in HeldVMs(s.Pc(p));
  }

  lemma OthersKeepSource(s: State, q: Proc, s': State, p: Proc, op: Op)
    requires Inv(s) && Footprint(s, q, s') && p != q
    requires SourceReady(s, op) && VMs(op) <= HeldVMs(s.Pc(p))
    ensures SourceReady(s', op)
  {
    if op.Clone? { LockedNameStable(s, q, s', p, op.src); }
  }

  lemma OthersKeepPoint(s: State, q: Proc, s': State, p: Proc, op: Op, at: Point)
    requires Inv(s) && Footprint(s, q, s') && p != q && s.Pc(p) == InOp(op, at)
    ensures PointOk(s', op, at)
  {
    assert PcOk(s, s.Pc(p)) && LockOk(s, p) && LockOk(s, q);
    LockedNameStable(s, q, s', p, op.name);
    if at.WantShared? || at.Laying? || at.Making? { OthersKeepSource(s, q, s', p, op); }
    if at.Making? { FlightDevicesStable(s, q, s', p, at.vmid); }
    if at.Rollback? { FlightDevicesStable(s, q, s', p, at.id); }
  }

  /** With every VM locked by the sweep p, no record changes and no device appears. */
  lemma SweepStable(s: State, q: Proc, s': State, p: Proc, listed: set<Name>)
    requires Inv(s) && Footprint(s, q, s') && p != q
    requires Excludes(s.Pc(p)) && listed == HeldVMs(s.Pc(p)) && s.dirs.Keys <= listed
    ensures s'.dirs == s.dirs && s'.RecordIds() == s.RecordIds() && s'.devices <= s.devices
  {
    assert LockOk(s, p) && LockOk(s, q);
    forall n | n in s.dirs || n in s'.dirs ensures n in s.dirs && n in s'.dirs && s.dirs[n] == s'.dirs[n] {
      if n in s.dirs { LockedNameStable(s, q, s', p, n); }
    }
    assert s'.dirs == s.dirs;
  }

  lemma OthersKeepSweep(s: State, q: Proc, s': State, p: Proc, sw: Sweep)
    requires Inv(s) && Footprint(s, q, s') && p != q && s.Pc(p) == InGc(sw)
    ensures SweepOk(s', sw)
  {
    assert PcOk(s, s.Pc(p)) && LockOk(s, p) && LockOk(s, q);
    if sw.Lock? {
      assert s'.dirs.Keys <= s.dirs.Keys;
    } else if !sw.List? {
      SweepStable(s, q, s', p, sw.listed);
    }
  }

  lemma OthersKeepPc(s: State, q: Proc, s': State, p: Proc)
    requires Inv(s) && Footprint(s, q, s') && p != q
    ensures PcOk(s', s'.Pc(p)) && LockOk(s', p)
  {
    assert PcOk(s, s.Pc(p)) && LockOk(s, p);
    match s.Pc(p) {
      case InOp(op, at) => OthersKeepPoint(s, q, s', p, op, at);
      case InGc(sw) => OthersKeepSweep(s, q, s', p, sw);
      case _ =>
    }
  }

  lemma OthersKeepName(s: State, q: Proc, s': State, n: Name)
    requires Inv(s) && Footprint(s, q, s') && !s.Holds(n, q)
    ensures NameOk(s', n)
  {
    assert NameOk(s, n);
    assert s'.Live(n) <= s.Live(n);
    assert s'.Owned(n) <= s.Owned(n);
  }

  lemma NewFlightApart(s: State, q: Proc, s': State, o: Proc, v: Vmid)
    requires Inv(s) && Footprint(s, q, s') && o != q && v in Flight(s'.Pc(q))
    ensures v !in Flight(s.Pc(o))
  {
    assert FlightOk(s, q) && FlightOk(s, o) && LockOk(s, o);
    assert Flight(s.Pc(o)) != {} ==> s.Holds(s.Pc(o).op.name, o);
  }

  lemma FlightsStayApart(s: State, q: Proc, s': State, p: Proc, r: Proc, v: Vmid)
    requires Inv(s) && Footprint(s, q, s') && r != p && v in Flight(s'.Pc(p))
    ensures v !in Flight(s'.Pc(r))
  {
    if p == q {
      NewFlightApart(s, q, s', r, v);
    } else if r == q {
      if v in Flight(s'.Pc(q)) { NewFlightApart(s, q, s', p, v); }
    } else {
      assert FlightOk(s, p);
    }
  }

  lemma KeepFlight(s: State, q: Proc, s': State, p: Proc)
    requires Inv(s) && Footprint(s, q, s')
    ensures FlightOk(s', p)
  {
    assert FlightOk(s, p) && FlightOk(s, q);
    forall v | v in Flight(s'.Pc(p))
      ensures v in s'.usedIds
      ensures forall n :: s'.IsCommitted(n) && s'.dirs[n].rec.vmid == v ==> n == s'.Pc(p).op.name
      ensures forall r :: r != p ==> v !in Flight(s'.Pc(r))
    {
      forall r | r != p ensures v !in Flight(s'.Pc(r)) {
        FlightsStayApart(s, q, s', p, r, v);
      }
    }
  }

  lemma KeepRecordIds(s: State, q: Proc, s': State)
    requires Inv(s) && Footprint(s, q, s')
    ensures forall n, m :: s'.IsCommitted(n) && s'.IsCommitted(m) && s'.dirs[n].rec.vmid == s'.dirs[m].rec.vmid ==> n == m
    ensures forall n :: s'.IsCommitted(n) ==> s'.dirs[n].rec.vmid in s'.usedIds
  {
    assert FlightOk(s, q) && PcOk(s, s.Pc(q));
  }

  lemma KeepDeviceIds(s: State, q: Proc, s': State)
    requires Inv(s) && Footprint(s, q, s')
    ensures forall d :: d in s'.devices ==> d.vmid in s'.usedIds
    ensures forall d, n :: d in s'.devices && s'.IsCommitted(n) && s'.dirs[n].rec.vmid == d.vmid ==> s'.dirs[n].rec.owned
  {
    assert FlightOk(s, q) && PcOk(s, s.Pc(q));
    forall d, n | d in s'.devices && s'.IsCommitted(n) && s'.dirs[n].rec.vmid == d.vmid
      ensures s'.dirs[n].rec.owned
    {
      if d !in s.devices { assert MayAdd(s, q, d.vmid); }
    }
    forall d | d in s'.devices ensures d.vmid in s'.usedIds {
      if d !in s.devices { assert MayAdd(s, q, d.vmid); }
    }
  }

  lemma KeepIds(s: State, q: Proc, s': State)
    requires Inv(s) && Footprint(s, q, s')
    ensures IdsOk(s')
  {
    KeepRecordIds(s, q, s');
    KeepDeviceIds(s, q, s');
  }

  lemma OwnRecordAnchored(s: State, q: Proc, n: Name)
    requires Inv(s) && s.Holds(n, q) && s.IsCommitted(n)
    ensures Anchored(s, n)
  {
    forall p ensures n !in Raises(s.Pc(p)) {
      assert PcOk(s, s.Pc(p)) && LockOk(s, p);
    }
  }

  lemma KeepEvidence(s: State, q: Proc, s': State)
    requires Inv(s) && Footprint(s, q, s')
    ensures Evidence(s')
  {
    if s'.devices != {} && !s'.marker {
      var n: Name;
      if s'.devices <= s.devices {
        n :| Anchored(s, n);
      } else {
        var d :| d in s'.devices && d !in s.devices;
        assert MayAdd(s, q, d.vmid);
        n :| OwnRecord(s, q, n, d.vmid);
        OwnRecordAnchored(s, q, n);
      }
      forall p ensures n !in Raises(s'.Pc(p)) {
        assert n !in Raises(s.Pc(p));
      }
      assert Anchored(s', n);
    }
  }

  /** A step that keeps to its footprint and leaves its own process and names in order keeps the invariant. */
  lemma FootprintKeepsInv(s: State, q: Proc, s': State)
    requires Inv(s) && Footprint(s, q, s') && OwnOk(s, q, s')
    ensures Inv(s')
  {
    forall p ensures PcOk(s', s'.Pc(p)) && LockOk(s', p) {
      if p != q { OthersKeepPc(s, q, s', p); }
    }
    forall n ensures NameOk(s', n) {
      if !s.Holds(n, q) { OthersKeepName(s, q, s', n); }
    }
    forall p ensures FlightOk(s', p) {
      KeepFlight(s, q, s', p);
    }
    KeepIds(s, q, s');
    KeepEvidence(s, q, s');
  }
}
