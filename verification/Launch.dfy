/** The qemu command line of a VM, and what qemu reads from it. */
module Launch {
  import opened Text
  import opened Options
  import opened Snapshots

  const OSK := "ourhardworkbythesewords" + "guardedpleasedontsteal" + "(c)AppleComputerInc"

  const CPU := ["Skylake-Client", "-hle", "-rtm", "kvm=on", "vendor=GenuineIntel", "+invtsc", "vmware-cpuid-freq=on",
                "+ssse3", "+sse4.2", "+popcnt", "+avx", "+aes", "+xsave", "+xsaveopt",
                "+pcid", "+invpcid", "+tsc-deadline", "+rdtscp", "+xsavec", "check"]

  const AHCI := ["if=none", "format=qcow2", "cache=writeback", "aio=io_uring", "discard=unmap", "detect-zeroes=unmap"]

  /** The SATA ports that OpenCoreBoot (2) and MacHDD (4) leave free. */
  const DATA_DISK_PORTS := [0, 1, 3, 5]

  datatype Spec = Spec(
    cpus: int, memory: string, vncDisp: int, vncSock: string, vncPass: string, sshPort: int, hugepages: bool,
    exitOnReboot: bool, dataDisks: seq<Path>, disk: Path, openCore: Path, ovmfCode: Path, ovmfVars: Path,
    mac: string, tap: string, monSock: Path, qmpSock: Path)

  /** One option as qemu sees it: a flag and the fields of its value. */
  datatype Opt = Opt(flag: string, fields: seq<string>)

  function Int(n: int): string { if n < 0 then "-" + Decimal(-n) else Decimal(n) }

  function Cores(cpus: int): int { if cpus / 2 > 1 then cpus / 2 else 1 }

  // ---- printing and reading options ------------------------------------------------------------------------------

  function PrintOne(o: Opt): seq<string>
  {
    if o.fields == [] then [o.flag] else [o.flag, Join(EscapeAll(o.fields), ',')]
  }

  function Print(opts: seq<Opt>): seq<string>
  {
    if opts == [] then [] else PrintOne(opts[0]) + Print(opts[1..])
  }

  predicate Valueless(flag: string) { flag == "-enable-kvm" || flag == "-no-reboot" }

  /** How qemu walks its arguments; each value is read under the comma rule. */
  function Read(args: seq<string>): seq<Opt>
  {
    if args == [] then []
    else if Valueless(args[0]) || |args| == 1 then [Opt(args[0], [])] + Read(args[1..])
    else [Opt(args[0], Fields(args[1]))] + Read(args[2..])
  }

  ghost predicate WellFormed(o: Opt)
  {
    if Valueless(o.flag) then o.fields == [] else Printable(o.fields)
  }

  lemma {:induction false} ReadsBack(opts: seq<Opt>)
    requires forall i :: 0 <= i < |opts| ==> WellFormed(opts[i])
    ensures Read(Print(opts)) == opts
  {
    if opts != [] {
      var o, rest := opts[0], Print(opts[1..]);
      assert WellFormed(o);
      ReadsBack(opts[1..]);
      if o.fields == [] {
        assert ([o.flag] + rest)[1..] == rest;
      } else {
        FieldsReadBack(o.fields);
        assert ([o.flag, Join(EscapeAll(o.fields), ',')] + rest)[2..] == rest;
      }
      assert opts == [o] + opts[1..];
    }
  }

  lemma {:induction false} PrintAppend(a: seq<Opt>, b: seq<Opt>)
    ensures Print(a + b) == Print(a) + Print(b)
  {
    if a == [] {
      assert a + b == b;
    } else {
      assert (a + b)[1..] == a[1..] + b;
      PrintAppend(a[1..], b);
    }
  }

  predicate AllPlain(fields: seq<string>) { forall i :: 0 <= i < |fields| ==> ',' !in fields[i] }

  lemma PlainEscapes(fields: seq<string>)
    requires AllPlain(fields)
    ensures EscapeAll(fields) == fields
  {
    forall i | 0 <= i < |fields| ensures EscapeAll(fields)[i] == fields[i] { EscapePlain(fields[i]); }
  }

  lemma ValueEscapes(before: seq<string>, key: string, v: string, after: seq<string>)
    requires AllPlain(before) && ',' !in key && AllPlain(after)
    ensures EscapeAll(before + [key + v] + after) == before + [key + Escape(v)] + after
  {
    PlainEscapes(before);
    PlainEscapes(after);
    EscapeAppend(key, v);
    EscapePlain(key);
    var fields := before + [key + v] + after;
    forall i | 0 <= i < |fields| ensures EscapeAll(fields)[i] == (before + [key + Escape(v)] + after)[i] {
      if i < |before| {
        assert EscapeAll(before)[i] == before[i];
      } else if i > |before| {
        assert EscapeAll(after)[i - |before| - 1] == after[i - |before| - 1];
      }
    }
  }

  /** append(a, flag, value) for a value without escaped parts. */
  method Append(a: seq<string>, ghost opts: seq<Opt>, flag: string, fields: seq<string>)
    returns (b: seq<string>, ghost more: seq<Opt>)
    requires a == Print(opts) && AllPlain(fields) && fields != []
    ensures b == a + [flag, Join(fields, ',')] == Print(more) && more == opts + [Opt(flag, fields)]
  {
    b, more := a + [flag, Join(fields, ',')], opts + [Opt(flag, fields)];
    PlainEscapes(fields);
    PrintAppend(opts, [Opt(flag, fields)]);
  }

  method AppendFlag(a: seq<string>, ghost opts: seq<Opt>, flag: string) returns (b: seq<string>, ghost more: seq<Opt>)
    requires a == Print(opts)
    ensures b == a + [flag] == Print(more) && more == opts + [Opt(flag, [])]
  {
    b, more := a + [flag], opts + [Opt(flag, [])];
    PrintAppend(opts, [Opt(flag, [])]);
  }

  /** append(a, flag, before + key + escapeOptValue(v) + after). */
  method AppendValue(a: seq<string>, ghost opts: seq<Opt>, flag: string, before: seq<string>, key: string, v: string, after: seq<string>)
    returns (b: seq<string>, ghost more: seq<Opt>)
    requires a == Print(opts) && AllPlain(before) && ',' !in key && AllPlain(after)
    ensures b == a + [flag, Join(before + [key + Escape(v)] + after, ',')] == Print(more)
    ensures more == opts + [Opt(flag, before + [key + v] + after)]
  {
    b, more := a + [flag, Join(before + [key + Escape(v)] + after, ',')], opts + [Opt(flag, before + [key + v] + after)];
    ValueEscapes(before, key, v, after);
    PrintAppend(opts, [Opt(flag, before + [key + v] + after)]);
  }

  // ---- the options a VM needs ------------------------------------------------------------------------------------

  function VarsFormat(s: Spec): string { if IsQcow2NVRAM(s.ovmfVars) then "qcow2" else "raw" }

  function MemBackend(s: Spec): seq<string>
  {
    ["memory-backend-memfd", "id=pc.ram", "size=" + s.memory + "M", "hugetlb=on", "hugetlbsize=2M", "prealloc=on", "share=on"]
  }

  function Machine(s: Spec): seq<string> { if s.hugepages then ["q35", "memory-backend=pc.ram"] else ["q35"] }

  function Smp(s: Spec): seq<string> { [Int(s.cpus), "cores=" + Int(Cores(s.cpus)), "sockets=1"] }

  const XHCI := ["qemu-xhci", "id=xhci"]
  const KEYBOARD := ["usb-kbd", "bus=xhci.0"]
  const TABLET := ["usb-tablet", "bus=xhci.0"]
  const SMC := ["isa-applesmc", "osk=" + OSK]

  function MachineOpts(s: Spec): seq<Opt>
  {
    (if s.hugepages then [] + [Opt("-object", MemBackend(s))] else [])
    + [Opt("-enable-kvm", [])] + [Opt("-m", [s.memory])] + [Opt("-cpu", CPU)] + [Opt("-machine", Machine(s))] + [Opt("-smp", Smp(s))]
  }

  function DeviceOpts(): seq<Opt>
  {
    [] + [Opt("-device", XHCI)] + [Opt("-device", KEYBOARD)] + [Opt("-device", TABLET)] + [Opt("-device", SMC)]
  }

  const CODE_DRIVE := ["if=pflash", "format=raw", "readonly=on"]
  const SMBIOS_TYPE := ["type=2"]

  function VarsDrive(s: Spec): seq<string> { ["if=pflash", "format=" + VarsFormat(s)] }

  function FirmwareOpts(s: Spec): seq<Opt>
  {
    [] + [Opt("-drive", CODE_DRIVE + ["file=" + s.ovmfCode] + [])]
    + [Opt("-drive", VarsDrive(s) + ["file=" + s.ovmfVars] + [])] + [Opt("-smbios", SMBIOS_TYPE)]
  }

  const CONTROLLER := ["ich9-ahci", "id=sata"]
  const OPENCORE_DRIVE := ["id=OpenCoreBoot", "if=none", "snapshot=on", "format=qcow2", "aio=io_uring"]
  const OPENCORE_DEVICE := ["ide-hd", "bus=sata.2", "drive=OpenCoreBoot"]
  const SYSTEM_DRIVE := ["id=MacHDD"] + AHCI
  const SYSTEM_DEVICE := ["ide-hd", "bus=sata.4", "drive=MacHDD"]
  const SVGA := ["vmware-svga"]

  function NoReboot(s: Spec): seq<Opt> { if s.exitOnReboot then [Opt("-no-reboot", [])] else [] }

  function SystemDiskOpts(s: Spec): seq<Opt>
  {
    [] + [Opt("-device", CONTROLLER)]
    + [Opt("-drive", OPENCORE_DRIVE + ["file=" + s.openCore] + [])] + [Opt("-device", OPENCORE_DEVICE)]
    + [Opt("-drive", SYSTEM_DRIVE + ["file=" + s.disk] + [])] + [Opt("-device", SYSTEM_DEVICE)]
    + [Opt("-device", SVGA)]
  }

  function DataDiskId(i: nat): string { "DataDisk" + Decimal(i) }

  function DataDriveFields(i: nat): seq<string> { ["id=" + DataDiskId(i)] + AHCI }

  function DataDeviceFields(i: nat): seq<string>
    requires i < |DATA_DISK_PORTS|
  {
    ["ide-hd", "bus=sata." + Decimal(DATA_DISK_PORTS[i]), "drive=" + DataDiskId(i)]
  }

  function DataDrive(disks: seq<Path>, i: nat): Opt
    requires i < |disks|
  {
    Opt("-drive", DataDriveFields(i) + ["file=" + disks[i]] + [])
  }

  function DataDevice(i: nat): Opt
    requires i < |DATA_DISK_PORTS|
  {
    Opt("-device", DataDeviceFields(i))
  }

  function DataDiskOpts(disks: seq<Path>, n: nat): seq<Opt>
    requires n <= |disks| && n <= |DATA_DISK_PORTS|
  {
    if n == 0 then [] else DataDiskOpts(disks, n - 1) + [DataDrive(disks, n - 1)] + [DataDevice(n - 1)]
  }

  const TAP_NET := ["tap", "id=net0"]
  const NO_SCRIPTS := ["script=no", "downscript=no"]
  const DISPLAY := ["none"]

  function UserNet(s: Spec): seq<string>
  {
    ["user", "id=net0"] + (if s.sshPort > 0 then ["hostfwd=tcp:127.0.0.1:" + Int(s.sshPort) + "-:22"] else [])
  }

  function Nic(s: Spec): seq<string>
  {
    ["virtio-net-pci", "netdev=net0", "id=net0"] + (if s.mac != "" then ["mac=" + s.mac] else [])
  }

  function NetOpts(s: Spec): seq<Opt>
  {
    (if s.tap != "" then [] + [Opt("-netdev", TAP_NET + ["ifname=" + s.tap] + NO_SCRIPTS)] else [] + [Opt("-netdev", UserNet(s))])
    + [Opt("-device", Nic(s))] + [Opt("-display", DISPLAY)]
  }

  const KEYMAP := ["en-us"]
  const SERVER := ["server", "nowait"]

  function Password(s: Spec): seq<string> { if s.vncPass != "" then ["password=on"] else [] }

  function VncTcp(s: Spec): seq<string> { ["127.0.0.1:" + Int(s.vncDisp)] + Password(s) }

  function VncOpts(s: Spec): seq<Opt>
  {
    if s.vncDisp < 0 then []
    else
      [] + [Opt("-k", KEYMAP)]
      + [if s.vncSock != "" then Opt("-vnc", [] + ["unix:" + s.vncSock] + Password(s)) else Opt("-vnc", VncTcp(s))]
  }

  function SocketOpts(flag: string, sock: Path): seq<Opt>
  {
    if sock != "" then [] + [Opt(flag, [] + ["unix:" + sock] + SERVER)] else []
  }

  /** Every option the VM asks for, with its paths and names verbatim. */
  function Intended(s: Spec): seq<Opt>
    requires |s.dataDisks| <= |DATA_DISK_PORTS|
  {
    MachineOpts(s) + DeviceOpts() + FirmwareOpts(s) + SystemDiskOpts(s) + NoReboot(s) + DataDiskOpts(s.dataDisks, |s.dataDisks|)
    + NetOpts(s) + VncOpts(s) + SocketOpts("-monitor", s.monSock) + SocketOpts("-qmp", s.qmpSock)
  }

  // ---- which parts hold no comma -----------------------------------------------------------------------------------

  /** What validation and formatting guarantee of the two values Args prints unescaped. */
  predicate Plain(s: Spec) { ',' !in s.memory && ',' !in s.mac }

  lemma IntPlain(n: int)
    ensures ',' !in Int(n)
  {
    DecimalReadsBack(if n < 0 then -n else n);
  }

  lemma MachinePlain(s: Spec)
    requires Plain(s)
    ensures AllPlain(MemBackend(s)) && AllPlain(Machine(s)) && AllPlain([s.memory])
  {
  }

  lemma SmpPlain(s: Spec)
    ensures AllPlain(Smp(s))
  {
    IntPlain(s.cpus);
    IntPlain(Cores(s.cpus));
  }

  lemma CpuPlain()
    ensures AllPlain(CPU)
  {
    assert AllPlain(CPU[..5]);
    assert AllPlain(CPU[5..10]);
    assert AllPlain(CPU[10..15]);
    assert AllPlain(CPU[15..]);
    forall i | 0 <= i < |CPU| ensures ',' !in CPU[i] {
      if i < 5 { assert CPU[i] == CPU[..5][i]; }
      else if i < 10 { assert CPU[i] == CPU[5..10][i - 5]; }
      else if i < 15 { assert CPU[i] == CPU[10..15][i - 10]; }
      else { assert CPU[i] == CPU[15..][i - 15]; }
    }
  }

  lemma DevicesPlain()
    ensures AllPlain(XHCI) && AllPlain(KEYBOARD) && AllPlain(TABLET) && AllPlain(SMC)
  {
  }

  lemma FirmwarePlain(s: Spec)
    ensures AllPlain(CODE_DRIVE) && AllPlain(VarsDrive(s)) && AllPlain(SMBIOS_TYPE)
  {
  }

  lemma DrivesPlain()
    ensures AllPlain(AHCI) && AllPlain(OPENCORE_DRIVE) && AllPlain(SYSTEM_DRIVE)
  {
  }

  lemma DrivesDevicesPlain()
    ensures AllPlain(CONTROLLER) && AllPlain(OPENCORE_DEVICE) && AllPlain(SYSTEM_DEVICE) && AllPlain(SVGA)
  {
  }

  lemma DataPlain(i: nat)
    requires i < |DATA_DISK_PORTS|
    ensures AllPlain(DataDriveFields(i)) && AllPlain(DataDeviceFields(i))
  {
    DecimalReadsBack(i);
    DecimalReadsBack(DATA_DISK_PORTS[i]);
    DrivesPlain();
  }

  lemma NetPlain(s: Spec)
    requires Plain(s)
    ensures AllPlain(TAP_NET) && AllPlain(NO_SCRIPTS) && AllPlain(DISPLAY) && AllPlain(UserNet(s)) && AllPlain(Nic(s))
  {
    IntPlain(s.sshPort);
  }

  lemma ConsolePlain(s: Spec)
    ensures AllPlain(KEYMAP) && AllPlain(Password(s)) && AllPlain(VncTcp(s))
  {
    IntPlain(s.vncDisp);
  }

  lemma ServerPlain()
    ensures AllPlain(SERVER)
  {
  }

  // ---- Args ------------------------------------------------------------------------------------------------------

  method MachineArgs(s: Spec) returns (a: seq<string>)
    requires Plain(s)
    ensures a == Print(MachineOpts(s))
  {
    ghost var opts: seq<Opt> := [];
    a := [];
    MachinePlain(s);
    SmpPlain(s);
    CpuPlain();
    if s.hugepages {
      a, opts := Append(a, opts, "-object", MemBackend(s));
    }
    a, opts := AppendFlag(a, opts, "-enable-kvm");
    a, opts := Append(a, opts, "-m", [s.memory]);
    a, opts := Append(a, opts, "-cpu", CPU);
    a, opts := Append(a, opts, "-machine", Machine(s));
    a, opts := Append(a, opts, "-smp", Smp(s));
  }

  method DeviceArgs() returns (a: seq<string>)
    ensures a == Print(DeviceOpts())
  {
    ghost var opts: seq<Opt> := [];
    a := [];
    DevicesPlain();
    a, opts := Append(a, opts, "-device", XHCI);
    a, opts := Append(a, opts, "-device", KEYBOARD);
    a, opts := Append(a, opts, "-device", TABLET);
    a, opts := Append(a, opts, "-device", SMC);
  }

  method FirmwareArgs(s: Spec) returns (a: seq<string>)
    ensures a == Print(FirmwareOpts(s))
  {
    ghost var opts: seq<Opt> := [];
    a := [];
    FirmwarePlain(s);
    a, opts := AppendValue(a, opts, "-drive", CODE_DRIVE, "file=", s.ovmfCode, []);
    a, opts := AppendValue(a, opts, "-drive", VarsDrive(s), "file=", s.ovmfVars, []);
    a, opts := Append(a, opts, "-smbios", SMBIOS_TYPE);
  }

  method SystemDiskArgs(s: Spec) returns (a: seq<string>)
    ensures a == Print(SystemDiskOpts(s))
  {
    ghost var opts: seq<Opt> := [];
    a := [];
    DrivesPlain();
    DrivesDevicesPlain();
    a, opts := Append(a, opts, "-device", CONTROLLER);
    a, opts := AppendValue(a, opts, "-drive", OPENCORE_DRIVE, "file=", s.openCore, []);
    a, opts := Append(a, opts, "-device", OPENCORE_DEVICE);
    a, opts := AppendValue(a, opts, "-drive", SYSTEM_DRIVE, "file=", s.disk, []);
    a, opts := Append(a, opts, "-device", SYSTEM_DEVICE);
    a, opts := Append(a, opts, "-device", SVGA);
  }

  method RebootArgs(s: Spec) returns (a: seq<string>)
    ensures a == Print(NoReboot(s))
  {
    a := if s.exitOnReboot then ["-no-reboot"] else [];
  }

  method DataDiskArgs(disks: seq<Path>) returns (a: seq<string>)
    requires |disks| <= |DATA_DISK_PORTS|
    ensures a == Print(DataDiskOpts(disks, |disks|))
  {
    ghost var opts: seq<Opt> := [];
    a := [];
    for i := 0 to |disks|
      invariant a == Print(opts) && opts == DataDiskOpts(disks, i)
    {
      DataPlain(i);
      a, opts := AppendValue(a, opts, "-drive", DataDriveFields(i), "file=", disks[i], []);
      a, opts := Append(a, opts, "-device", DataDeviceFields(i));
    }
  }

  method NetArgs(s: Spec) returns (a: seq<string>)
    requires Plain(s)
    ensures a == Print(NetOpts(s))
  {
    ghost var opts: seq<Opt> := [];
    a := [];
    NetPlain(s);
    if s.tap != "" {
      a, opts := AppendValue(a, opts, "-netdev", TAP_NET, "ifname=", s.tap, NO_SCRIPTS);
    } else {
      a, opts := Append(a, opts, "-netdev", UserNet(s));
    }
    a, opts := Append(a, opts, "-device", Nic(s));
    a, opts := Append(a, opts, "-display", DISPLAY);
  }

  method VncArgs(s: Spec) returns (a: seq<string>)
    ensures a == Print(VncOpts(s))
  {
    ghost var opts: seq<Opt> := [];
    a := [];
    ConsolePlain(s);
    if s.vncDisp >= 0 {
      a, opts := Append(a, opts, "-k", KEYMAP);
      if s.vncSock != "" {
        a, opts := AppendValue(a, opts, "-vnc", [], "unix:", s.vncSock, Password(s));
      } else {
        a, opts := Append(a, opts, "-vnc", VncTcp(s));
      }
    }
  }

  /** One monitor socket. */
  method SocketArgs(flag: string, sock: Path) returns (a: seq<string>)
    ensures a == Print(SocketOpts(flag, sock))
  {
    ghost var opts: seq<Opt> := [];
    a := [];
    ServerPlain();
    if sock != "" { a, opts := AppendValue(a, opts, flag, [], "unix:", sock, SERVER); }
  }

  /** The command line, and with it what qemu reads: exactly the intended options, every path verbatim. */
  method Args(s: Spec) returns (a: seq<string>)
    requires Plain(s) && |s.dataDisks| <= |DATA_DISK_PORTS|
    ensures a == Print(Intended(s)) && Read(a) == Intended(s)
  {
    a := MachineArgs(s);
    ghost var opts := MachineOpts(s);
    var more := DeviceArgs();
    a, opts := Extend(a, opts, more, DeviceOpts());
    more := FirmwareArgs(s);
    a, opts := Extend(a, opts, more, FirmwareOpts(s));
    more := SystemDiskArgs(s);
    a, opts := Extend(a, opts, more, SystemDiskOpts(s));
    more := RebootArgs(s);
    a, opts := Extend(a, opts, more, NoReboot(s));
    more := DataDiskArgs(s.dataDisks);
    a, opts := Extend(a, opts, more, DataDiskOpts(s.dataDisks, |s.dataDisks|));
    more := NetArgs(s);
    a, opts := Extend(a, opts, more, NetOpts(s));
    more := VncArgs(s);
    a, opts := Extend(a, opts, more, VncOpts(s));
    more := SocketArgs("-monitor", s.monSock);
    a, opts := Extend(a, opts, more, SocketOpts("-monitor", s.monSock));
    more := SocketArgs("-qmp", s.qmpSock);
    a, opts := Extend(a, opts, more, SocketOpts("-qmp", s.qmpSock));
    IntendedReadsBack(s);
  }

  method Extend(a: seq<string>, ghost opts: seq<Opt>, more: seq<string>, ghost moreOpts: seq<Opt>)
    returns (b: seq<string>, ghost all: seq<Opt>)
    requires a == Print(opts) && more == Print(moreOpts)
    ensures b == a + more == Print(all) && all == opts + moreOpts
  {
    b, all := a + more, opts + moreOpts;
    PrintAppend(opts, moreOpts);
  }

  ghost predicate AllWellFormed(opts: seq<Opt>) { forall i :: 0 <= i < |opts| ==> WellFormed(opts[i]) }

  lemma {:induction false} DataDisksWellFormed(disks: seq<Path>, n: nat)
    requires n <= |disks| && n <= |DATA_DISK_PORTS|
    ensures AllWellFormed(DataDiskOpts(disks, n))
  {
    if n > 0 {
      DataDisksWellFormed(disks, n - 1);
      assert WellFormed(DataDrive(disks, n - 1)) && WellFormed(DataDevice(n - 1));
    }
  }

  lemma CpuWellFormed()
    ensures WellFormed(Opt("-cpu", CPU))
  {
  }

  lemma MachineWellFormed(s: Spec)
    ensures AllWellFormed(MachineOpts(s))
  {
    CpuWellFormed();
    assert WellFormed(Opt("-object", MemBackend(s))) && WellFormed(Opt("-machine", Machine(s))) && WellFormed(Opt("-smp", Smp(s)));
  }

  lemma DisksWellFormed(s: Spec)
    ensures AllWellFormed(DeviceOpts()) && AllWellFormed(FirmwareOpts(s)) && AllWellFormed(SystemDiskOpts(s))
  {
  }

  lemma NetWellFormed(s: Spec)
    ensures AllWellFormed(NetOpts(s)) && AllWellFormed(VncOpts(s))
    ensures AllWellFormed(SocketOpts("-monitor", s.monSock)) && AllWellFormed(SocketOpts("-qmp", s.qmpSock))
  {
  }

  lemma IntendedWellFormed(s: Spec)
    requires |s.dataDisks| <= |DATA_DISK_PORTS|
    ensures AllWellFormed(Intended(s))
  {
    MachineWellFormed(s);
    DisksWellFormed(s);
    DataDisksWellFormed(s.dataDisks, |s.dataDisks|);
    NetWellFormed(s);
  }

  /** Whatever commas the paths and names hold, qemu reads the printed options back verbatim. */
  lemma IntendedReadsBack(s: Spec)
    requires |s.dataDisks| <= |DATA_DISK_PORTS|
    ensures Read(Print(Intended(s))) == Intended(s)
  {
    IntendedWellFormed(s);
    ReadsBack(Intended(s));
  }
}
