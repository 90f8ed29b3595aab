/** What holds of every command line: SATA ports, drive ids, and which drives take part in snapshots. */
module Wiring {
  import opened Text
  import opened Options
  import opened Snapshots
  import opened Launch

  /** The values f finds in a command line, in order. */
  function Collect(opts: seq<Opt>, f: Opt -> seq<string>): seq<string>
  {
    if opts == [] then [] else f(opts[0]) + Collect(opts[1..], f)
  }

  lemma {:induction false} CollectAppend(a: seq<Opt>, b: seq<Opt>, f: Opt -> seq<string>)
    ensures Collect(a + b, f) == Collect(a, f) + Collect(b, f)
  {
    if a == [] {
      assert a + b == b;
    } else {
      assert (a + b)[1..] == a[1..] + b;
      CollectAppend(a[1..], b, f);
    }
  }

  lemma {:induction false} CollectNothing(opts: seq<Opt>, f: Opt -> seq<string>)
    requires forall i :: 0 <= i < |opts| ==> f(opts[i]) == []
    ensures Collect(opts, f) == []
  {
    if opts != [] { CollectNothing(opts[1..], f); }
  }

  lemma CollectOne(opts: seq<Opt>, o: Opt, f: Opt -> seq<string>)
    ensures Collect(opts + [o], f) == Collect(opts, f) + f(o)
  {
    CollectAppend(opts, [o], f);
    assert Collect([o], f) == f(o) + Collect([], f);
  }

  predicate Nothing(opts: seq<Opt>, f: Opt -> seq<string>) { forall i :: 0 <= i < |opts| ==> f(opts[i]) == [] }

  lemma AppendNothing(a: seq<Opt>, b: seq<Opt>, f: Opt -> seq<string>)
    requires Nothing(b, f)
    ensures Collect(a + b, f) == Collect(a, f)
  {
    CollectAppend(a, b, f);
    CollectNothing(b, f);
  }

  /** Only the firmware, system disk and data disk options name disks. */
  predicate DisksOnly(s: Spec, f: Opt -> seq<string>)
  {
    && Nothing(MachineOpts(s), f) && Nothing(DeviceOpts(), f) && Nothing(NoReboot(s), f) && Nothing(NetOpts(s), f)
    && Nothing(VncOpts(s), f) && Nothing(SocketOpts("-monitor", s.monSock), f) && Nothing(SocketOpts("-qmp", s.qmpSock), f)
  }

  lemma CollectFirst(m: seq<Opt>, e: seq<Opt>, f: seq<Opt>, g: Opt -> seq<string>)
    requires Nothing(m, g) && Nothing(e, g)
    ensures Collect(m + e + f, g) == Collect(f, g)
  {
    CollectNothing(m, g);
    AppendNothing(m, e, g);
    CollectAppend(m + e, f, g);
  }

  lemma CollectRest(a: seq<Opt>, d: seq<Opt>, r: seq<Opt>, g: Opt -> seq<string>)
    requires Nothing(r, g)
    ensures Collect(a + d + r, g) == Collect(a, g) + Collect(d, g)
  {
    CollectAppend(a, d, g);
    AppendNothing(a + d, r, g);
  }

  lemma CollectParts(m: seq<Opt>, e: seq<Opt>, f: seq<Opt>, d: seq<Opt>, r: seq<Opt>, x: seq<Opt>, rest: seq<Opt>, g: Opt -> seq<string>)
    requires Nothing(m, g) && Nothing(e, g) && Nothing(r, g) && Nothing(rest, g)
    ensures Collect(m + e + f + d + r + x + rest, g) == Collect(f, g) + Collect(d, g) + Collect(x, g)
  {
    CollectFirst(m, e, f, g);
    CollectRest(m + e + f, d, r, g);
    CollectRest(m + e + f + d + r, x, rest, g);
  }

  lemma NothingAppend(a: seq<Opt>, b: seq<Opt>, f: Opt -> seq<string>)
    requires Nothing(a, f) && Nothing(b, f)
    ensures Nothing(a + b, f)
  {
  }

  lemma Regroup(a: seq<Opt>, n: seq<Opt>, v: seq<Opt>, o: seq<Opt>, q: seq<Opt>)
    ensures a + n + v + o + q == a + (n + v + o + q)
  {
  }

  lemma CollectDisks(s: Spec, f: Opt -> seq<string>)
    requires |s.dataDisks| <= |DATA_DISK_PORTS| && DisksOnly(s, f)
    ensures Collect(Intended(s), f)
         == Collect(FirmwareOpts(s), f) + Collect(SystemDiskOpts(s), f) + Collect(DataDiskOpts(s.dataDisks, |s.dataDisks|), f)
  {
    var n, v, o, q := NetOpts(s), VncOpts(s), SocketOpts("-monitor", s.monSock), SocketOpts("-qmp", s.qmpSock);
    NothingAppend(n, v, f);
    NothingAppend(n + v, o, f);
    NothingAppend(n + v + o, q, f);
    var x := DataDiskOpts(s.dataDisks, |s.dataDisks|);
    CollectParts(MachineOpts(s), DeviceOpts(), FirmwareOpts(s), SystemDiskOpts(s), NoReboot(s), x, n + v + o + q, f);
    Regroup(MachineOpts(s) + DeviceOpts() + FirmwareOpts(s) + SystemDiskOpts(s) + NoReboot(s) + x, n, v, o, q);
  }

  // ---- SATA ports --------------------------------------------------------------------------------------------------

  predicate IsDisk(o: Opt) { o.flag == "-device" && |o.fields| == 3 && o.fields[0] == "ide-hd" }

  function BusOf(o: Opt): seq<string> { if IsDisk(o) then [o.fields[1]] else [] }

  function Port(n: nat): string { "bus=sata." + Decimal(n) }

  lemma PortInjective(m: nat, n: nat)
    requires Port(m) == Port(n)
    ensures m == n
  {
    assert Port(m)[9..] == Decimal(m) && Port(n)[9..] == Decimal(n);
    DecimalInjective(m, n);
  }

  function Ports(n: nat): seq<nat>
    requires n <= |DATA_DISK_PORTS|
  {
    [2, 4] + DATA_DISK_PORTS[..n]
  }

  lemma CollectTwo(opts: seq<Opt>, a: Opt, b: Opt, f: Opt -> seq<string>)
    ensures Collect(opts + [a] + [b], f) == Collect(opts, f) + f(a) + f(b)
  {
    CollectOne(opts, a, f);
    CollectOne(opts + [a], b, f);
  }

  lemma CollectThree(a: Opt, b: Opt, c: Opt, f: Opt -> seq<string>)
    ensures Collect([] + [a] + [b] + [c], f) == f(a) + f(b) + f(c)
  {
    CollectOne([], a, f);
    CollectOne([] + [a], b, f);
    CollectOne([] + [a] + [b], c, f);
  }

  lemma BootBuses(s: Spec)
    ensures Collect([] + [Opt("-device", CONTROLLER)] + [Opt("-drive", OPENCORE_DRIVE + ["file=" + s.openCore] + [])]
                    + [Opt("-device", OPENCORE_DEVICE)], BusOf) == ["bus=sata.2"]
  {
    CollectThree(Opt("-device", CONTROLLER), Opt("-drive", OPENCORE_DRIVE + ["file=" + s.openCore] + []),
                 Opt("-device", OPENCORE_DEVICE), BusOf);
  }

  lemma MacBuses(s: Spec)
    ensures Collect([] + [Opt("-drive", SYSTEM_DRIVE + ["file=" + s.disk] + [])] + [Opt("-device", SYSTEM_DEVICE)]
                    + [Opt("-device", SVGA)], BusOf) == ["bus=sata.4"]
  {
    CollectThree(Opt("-drive", SYSTEM_DRIVE + ["file=" + s.disk] + []), Opt("-device", SYSTEM_DEVICE), Opt("-device", SVGA), BusOf);
  }

  lemma SystemBuses(s: Spec)
    ensures Collect(SystemDiskOpts(s), BusOf) == [Port(2), Port(4)] && Collect(FirmwareOpts(s), BusOf) == []
  {
    CollectNothing(FirmwareOpts(s), BusOf);
    BootBuses(s);
    MacBuses(s);
    var boot := [] + [Opt("-device", CONTROLLER)] + [Opt("-drive", OPENCORE_DRIVE + ["file=" + s.openCore] + [])]
                + [Opt("-device", OPENCORE_DEVICE)];
    var mac := [] + [Opt("-drive", SYSTEM_DRIVE + ["file=" + s.disk] + [])] + [Opt("-device", SYSTEM_DEVICE)] + [Opt("-device", SVGA)];
    CollectAppend(boot, mac, BusOf);
    assert SystemDiskOpts(s) == boot + mac;
    assert Port(2) == "bus=sata.2" && Port(4) == "bus=sata.4";
  }

  lemma {:induction false} DataBuses(disks: seq<Path>, n: nat)
    requires n <= |disks| && n <= |DATA_DISK_PORTS|
    ensures Collect(DataDiskOpts(disks, n), BusOf) == seq(n, i requires 0 <= i < n => Port(DATA_DISK_PORTS[i]))
  {
    if n > 0 {
      DataBuses(disks, n - 1);
      CollectTwo(DataDiskOpts(disks, n - 1), DataDrive(disks, n - 1), DataDevice(n - 1), BusOf);
      assert BusOf(DataDrive(disks, n - 1)) == [] && BusOf(DataDevice(n - 1)) == [Port(DATA_DISK_PORTS[n - 1])];
    }
  }

  lemma BusesElsewhere(s: Spec)
    ensures DisksOnly(s, BusOf)
  {
  }

  lemma PortsAreDistinct(n: nat, buses: seq<string>)
    requires n <= |DATA_DISK_PORTS| && |buses| == n + 2 && forall i :: 0 <= i < |buses| ==> buses[i] == Port(Ports(n)[i])
    ensures forall i, j :: 0 <= i < j < |buses| ==> buses[i] != buses[j]
  {
    forall i, j | 0 <= i < j < |buses| ensures buses[i] != buses[j] {
      assert Ports(n)[i] != Ports(n)[j];
      if Port(Ports(n)[i]) == Port(Ports(n)[j]) { PortInjective(Ports(n)[i], Ports(n)[j]); }
    }
  }

  lemma AllBuses(s: Spec)
    requires |s.dataDisks| <= |DATA_DISK_PORTS|
    ensures Collect(Intended(s), BusOf)
         == [Port(2), Port(4)] + seq(|s.dataDisks|, i requires 0 <= i < |s.dataDisks| => Port(DATA_DISK_PORTS[i]))
  {
    BusesElsewhere(s);
    CollectDisks(s, BusOf);
    SystemBuses(s);
    DataBuses(s.dataDisks, |s.dataDisks|);
  }

  /** Every disk gets its own port of the six-port controller, and the ports the system disks use stay theirs. */
  lemma SataPortsAreDistinct(s: Spec)
    requires |s.dataDisks| <= |DATA_DISK_PORTS|
    ensures var buses, ports := Collect(Intended(s), BusOf), Ports(|s.dataDisks|);
      && |buses| == |ports| == 2 + |s.dataDisks|
      && (forall i :: 0 <= i < |ports| ==> ports[i] < 6 && buses[i] == Port(ports[i]))
      && (forall i, j :: 0 <= i < j < |ports| ==> buses[i] != buses[j])
    ensures |s.dataDisks| == |DATA_DISK_PORTS| ==> forall p: nat :: p < 6 ==> Port(p) in Collect(Intended(s), BusOf)
  {
    var buses := Collect(Intended(s), BusOf);
    AllBuses(s);
    PortsAreDistinct(|s.dataDisks|, buses);
    if |s.dataDisks| == |DATA_DISK_PORTS| { NoPortIsLeft(buses); }
  }

  lemma NoPortIsLeft(buses: seq<string>)
    requires buses == [Port(2), Port(4)] + seq(|DATA_DISK_PORTS|, i requires 0 <= i < |DATA_DISK_PORTS| => Port(DATA_DISK_PORTS[i]))
    ensures forall p: nat :: p < 6 ==> Port(p) in buses
  {
    assert Port(2) == buses[0] && Port(4) == buses[1];
    forall p: nat | p < 6 && p != 2 && p != 4 ensures Port(p) in buses {
      var k := if p == 0 then 0 else if p == 1 then 1 else if p == 3 then 2 else 3;
      assert DATA_DISK_PORTS[k] == p && buses[2 + k] == Port(p);
    }
  }

  // ---- NVRAM and snapshots -----------------------------------------------------------------------------------------

  /** The file of a qcow2 drive the guest can write through. */
  function WritableOf(o: Opt): seq<Path>
  {
    if o.flag == "-drive" && |o.fields| > 0 && "format=qcow2" in o.fields && "readonly=on" !in o.fields && "snapshot=on" !in o.fields
    then [TrimPrefix(o.fields[|o.fields| - 1], "file=")] else []
  }

  lemma DriveFile(fields: seq<string>, path: Path)
    requires "readonly=on" !in fields && "snapshot=on" !in fields
    ensures WritableOf(Opt("-drive", fields + ["file=" + path] + [])) == if "format=qcow2" in fields then [path] else []
  {
    var all := fields + ["file=" + path] + [];
    assert "file=" + path != "readonly=on" && "file=" + path != "snapshot=on" && "file=" + path != "format=qcow2" by {
      assert ("file=" + path)[0] == 'f' && ("file=" + path)[1] == 'i';
    }
    assert all == fields + ["file=" + path];
    assert all[|all| - 1] == "file=" + path && ("file=" + path)[..5] == "file=";
  }

  lemma VarsFields(s: Spec)
    ensures "format=qcow2" in VarsDrive(s) <==> IsQcow2NVRAM(s.ovmfVars)
    ensures "readonly=on" !in VarsDrive(s) && "snapshot=on" !in VarsDrive(s)
  {
    var fields := VarsDrive(s);
    assert fields[0] == "if=pflash" && fields[0][0] == 'i';
    assert fields[1] == "format=" + VarsFormat(s) && fields[1][0] == 'f';
    if IsQcow2NVRAM(s.ovmfVars) {
      assert fields[1] == "format=qcow2";
    } else {
      assert fields[1][7] == 'r';
    }
  }

  lemma FirmwareWritable(s: Spec)
    ensures Collect(FirmwareOpts(s), WritableOf) == if IsQcow2NVRAM(s.ovmfVars) then [s.ovmfVars] else []
  {
    var opts := [] + [Opt("-drive", CODE_DRIVE + ["file=" + s.ovmfCode] + [])];
    CollectOne([], Opt("-drive", CODE_DRIVE + ["file=" + s.ovmfCode] + []), WritableOf);
    assert WritableOf(opts[0]) == [] by { assert opts[0].fields[2] == "readonly=on"; }
    VarsFields(s);
    DriveFile(VarsDrive(s), s.ovmfVars);
    CollectOne(opts, Opt("-drive", VarsDrive(s) + ["file=" + s.ovmfVars] + []), WritableOf);
    opts := opts + [Opt("-drive", VarsDrive(s) + ["file=" + s.ovmfVars] + [])];
    CollectOne(opts, Opt("-smbios", SMBIOS_TYPE), WritableOf);
  }

  lemma SystemWritable(s: Spec)
    ensures Collect(SystemDiskOpts(s), WritableOf) == [s.disk]
  {
    var opts := [] + [Opt("-device", CONTROLLER)];
    CollectOne([], Opt("-device", CONTROLLER), WritableOf);
    var oc := Opt("-drive", OPENCORE_DRIVE + ["file=" + s.openCore] + []);
    assert WritableOf(oc) == [] by { assert oc.fields[2] == "snapshot=on"; }
    CollectOne(opts, oc, WritableOf);
    opts := opts + [oc];
    CollectOne(opts, Opt("-device", OPENCORE_DEVICE), WritableOf);
    opts := opts + [Opt("-device", OPENCORE_DEVICE)];
    AhciWritable("id=MacHDD", s.disk);
    CollectOne(opts, Opt("-drive", SYSTEM_DRIVE + ["file=" + s.disk] + []), WritableOf);
    opts := opts + [Opt("-drive", SYSTEM_DRIVE + ["file=" + s.disk] + [])];
    CollectOne(opts, Opt("-device", SYSTEM_DEVICE), WritableOf);
    opts := opts + [Opt("-device", SYSTEM_DEVICE)];
    CollectOne(opts, Opt("-device", SVGA), WritableOf);
  }

  lemma AhciWritable(id: string, path: Path)
    requires |id| > 0 && id[0] == 'i'
    ensures WritableOf(Opt("-drive", [id] + AHCI + ["file=" + path] + [])) == [path]
  {
    var fields := [id] + AHCI;
    assert fields[2] == "format=qcow2";
    forall i | 0 <= i < |fields| ensures fields[i] != "readonly=on" && fields[i] != "snapshot=on" {
      assert fields[i][0] == 'i' || fields[i][0] == 'f' || fields[i][0] == 'c' || fields[i][0] == 'a' || fields[i][0] == 'd';
    }
    DriveFile(fields, path);
  }

  lemma {:induction false} DataWritable(disks: seq<Path>, n: nat)
    requires n <= |disks| && n <= |DATA_DISK_PORTS|
    ensures Collect(DataDiskOpts(disks, n), WritableOf) == disks[..n]
  {
    if n > 0 {
      DataWritable(disks, n - 1);
      OneDiskWritable(disks, n - 1);
      CollectTwo(DataDiskOpts(disks, n - 1), DataDrive(disks, n - 1), DataDevice(n - 1), WritableOf);
      assert disks[..n] == disks[..n - 1] + [disks[n - 1]] + [];
    }
  }

  lemma OneDiskWritable(disks: seq<Path>, i: nat)
    requires i < |disks| && i < |DATA_DISK_PORTS|
    ensures WritableOf(DataDrive(disks, i)) == [disks[i]] && WritableOf(DataDevice(i)) == []
  {
    AhciWritable("id=" + DataDiskId(i), disks[i]);
  }

  lemma WritableElsewhere(s: Spec)
    ensures DisksOnly(s, WritableOf)
  {
  }

  /** Snapshots cover exactly the qcow2 images the guest can write, NVRAM included only when its drive is qcow2. */
  lemma SnapshotsCoverWritableImages(s: Spec, r: Record)
    requires |s.dataDisks| <= |DATA_DISK_PORTS| && s.disk == r.disk && s.ovmfVars == r.ovmfVars && s.dataDisks == r.dataDisks
    ensures multiset(Collect(Intended(s), WritableOf)) == multiset(ImagesToSnapshot(r))
  {
    AllWritable(s);
  }

  lemma AllWritable(s: Spec)
    requires |s.dataDisks| <= |DATA_DISK_PORTS|
    ensures Collect(Intended(s), WritableOf) == (if IsQcow2NVRAM(s.ovmfVars) then [s.ovmfVars] else []) + [s.disk] + s.dataDisks
  {
    WritableElsewhere(s);
    CollectDisks(s, WritableOf);
    FirmwareWritable(s);
    SystemWritable(s);
    DataWritable(s.dataDisks, |s.dataDisks|);
    assert s.dataDisks[..|s.dataDisks|] == s.dataDisks;
  }
}
