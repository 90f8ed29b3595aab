/** A VM's needles against the whole command line of a sibling's qemu or qemu-nbd. */
module Siblings {
  import opened Text
  import opened Options
  import opened Snapshots
  import opened Launch
  import opened Needles

  /** What a record launches: its images and sockets lie in its directory; OVMF code and OpenCore may lie elsewhere. */
  ghost predicate OwnSpec(vms: string, b: string, s: Spec)
  {
    && LegalName(b) && |s.dataDisks| <= |DATA_DISK_PORTS|
    && Launch.Plain(s) && '/' !in s.memory && '/' !in s.mac
    && InDir(vms, b, s.disk) && InDir(vms, b, s.ovmfVars)
    && (s.vncSock != "" ==> InDir(vms, b, s.vncSock))
    && (s.monSock != "" ==> InDir(vms, b, s.monSock)) && (s.qmpSock != "" ==> InDir(vms, b, s.qmpSock))
    && (forall i :: 0 <= i < |s.dataDisks| ==> InDir(vms, b, s.dataDisks[i]))
  }

  /** The whole argument list of the process launch starts. */
  function CommandLine(s: Spec, pidfile: Path): seq<string>
    requires |s.dataDisks| <= |DATA_DISK_PORTS|
  {
    Print(Intended(s)) + ["-daemonize", "-pidfile", pidfile]
  }

  ghost predicate Silent(opts: seq<Opt>) { forall i :: 0 <= i < |opts| ==> '/' !in opts[i].flag && NoSlash(opts[i].fields) }

  ghost predicate Hit(opts: seq<Opt>, needle: string) { Matches(Print(opts), needle) }

  lemma HitAppend(a: seq<Opt>, b: seq<Opt>, needle: string)
    ensures Hit(a + b, needle) <==> Hit(a, needle) || Hit(b, needle)
  {
    PrintAppend(a, b);
    MatchesAppend(Print(a), Print(b), needle);
  }

  lemma HitOne(o: Opt, needle: string)
    ensures Hit([o], needle) <==> Matches(PrintOne(o), needle)
  {
    assert [o][1..] == [] && PrintOne(o) + [] == PrintOne(o);
    assert Print([o]) == PrintOne(o);
  }

  lemma {:induction false} SilentOpts(opts: seq<Opt>, vms: string, a: string, y: string)
    requires Silent(opts)
    ensures !Hit(opts, Needle(vms, a, y))
  {
    if opts != [] {
      SilentOpt(opts[0], vms, a, y);
      SilentOpts(opts[1..], vms, a, y);
      MatchesAppend(PrintOne(opts[0]), Print(opts[1..]), Needle(vms, a, y));
    }
  }

  // ---- the silent parts --------------------------------------------------------------------------------------------

  lemma IntSilent(n: int)
    ensures '/' !in Int(n)
  {
    DecimalReadsBack(if n < 0 then -n else n);
  }

  lemma CpuSilent()
    ensures NoSlash(CPU)
  {
    assert NoSlash(CPU[..5]);
    assert NoSlash(CPU[5..10]);
    assert NoSlash(CPU[10..15]);
    assert NoSlash(CPU[15..]);
    forall i | 0 <= i < |CPU| ensures '/' !in CPU[i] {
      if i < 5 { assert CPU[i] == CPU[..5][i]; }
      else if i < 10 { assert CPU[i] == CPU[5..10][i - 5]; }
      else if i < 15 { assert CPU[i] == CPU[10..15][i - 10]; }
      else { assert CPU[i] == CPU[15..][i - 15]; }
    }
  }

  lemma MachineFieldsSilent(s: Spec)
    requires '/' !in s.memory
    ensures NoSlash(MemBackend(s)) && NoSlash(Machine(s)) && NoSlash([s.memory]) && NoSlash(Smp(s))
  {
    IntSilent(s.cpus);
    IntSilent(Cores(s.cpus));
  }

  lemma MachineSilent(s: Spec)
    requires '/' !in s.memory
    ensures Silent(MachineOpts(s))
  {
    MachineFieldsSilent(s);
    CpuSilent();
  }

  lemma DevicesSilent()
    ensures Silent(DeviceOpts())
  {
    assert NoSlash(XHCI) && NoSlash(KEYBOARD) && NoSlash(TABLET) && NoSlash(SMC);
  }

  lemma DriveFieldsSilent()
    ensures NoSlash(CODE_DRIVE) && NoSlash(OPENCORE_DRIVE) && NoSlash(SYSTEM_DRIVE) && NoSlash(AHCI)
  {
  }

  lemma DiskDevicesSilent()
    ensures NoSlash(CONTROLLER) && NoSlash(OPENCORE_DEVICE) && NoSlash(SYSTEM_DEVICE) && NoSlash(SVGA) && NoSlash(SMBIOS_TYPE)
  {
  }

  lemma DataFieldsSilent(i: nat)
    requires i < |DATA_DISK_PORTS|
    ensures NoSlash(DataDriveFields(i)) && NoSlash(DataDeviceFields(i))
  {
    DecimalReadsBack(i);
    DecimalReadsBack(DATA_DISK_PORTS[i]);
    DriveFieldsSilent();
  }

  lemma ConsoleFieldsSilent(s: Spec)
    ensures NoSlash(KEYMAP) && NoSlash(SERVER) && NoSlash(Password(s)) && NoSlash(VncTcp(s))
  {
    IntSilent(s.vncDisp);
  }

  lemma NicSilent(s: Spec)
    requires '/' !in s.mac
    ensures Silent([] + [Opt("-device", Nic(s))] + [Opt("-display", DISPLAY)])
  {
  }

  // ---- the parts with paths ------------------------------------------------------------------------------------------

  function CodeOpt(s: Spec): Opt { Opt("-drive", CODE_DRIVE + ["file=" + s.ovmfCode] + []) }

  function OpenCoreOpt(s: Spec): Opt { Opt("-drive", OPENCORE_DRIVE + ["file=" + s.openCore] + []) }

  function NetOpt(s: Spec): Opt
  {
    if s.tap != "" then Opt("-netdev", TAP_NET + ["ifname=" + s.tap] + NO_SCRIPTS) else Opt("-netdev", UserNet(s))
  }

  lemma VarsSilent(vms: string, b: string, s: Spec, a: string, y: string)
    requires OwnSpec(vms, b, s) && LegalName(a) && a != b && '/' !in y
    ensures !Matches(PrintOne(Opt("-drive", VarsDrive(s) + ["file=" + s.ovmfVars] + [])), Needle(vms, a, y))
  {
    FirmwarePlain(s);
    OwnOpt("-drive", VarsDrive(s), "file=", s.ovmfVars, [], vms, b, a, y);
  }

  lemma FirmwareHit(vms: string, b: string, s: Spec, a: string, y: string)
    requires OwnSpec(vms, b, s) && LegalName(a) && a != b && '/' !in y
    ensures Hit(FirmwareOpts(s), Needle(vms, a, y)) <==> Matches(PrintOne(CodeOpt(s)), Needle(vms, a, y))
  {
    VarsSilent(vms, b, s, a, y);
    DiskDevicesSilent();
    SilentOpt(Opt("-smbios", SMBIOS_TYPE), vms, a, y);
    HitThree(CodeOpt(s), Opt("-drive", VarsDrive(s) + ["file=" + s.ovmfVars] + []), Opt("-smbios", SMBIOS_TYPE), Needle(vms, a, y));
  }

  lemma SystemDiskHit(vms: string, b: string, s: Spec, a: string, y: string)
    requires OwnSpec(vms, b, s) && LegalName(a) && a != b && '/' !in y
    ensures Hit(SystemDiskOpts(s), Needle(vms, a, y)) <==> Matches(PrintOne(OpenCoreOpt(s)), Needle(vms, a, y))
  {
    var needle := Needle(vms, a, y);
    var disk := Opt("-drive", SYSTEM_DRIVE + ["file=" + s.disk] + []);
    DriveFieldsSilent();
    DiskDevicesSilent();
    DrivesPlain();
    OwnOpt("-drive", SYSTEM_DRIVE, "file=", s.disk, [], vms, b, a, y);
    SilentOpt(Opt("-device", CONTROLLER), vms, a, y);
    SilentOpt(Opt("-device", OPENCORE_DEVICE), vms, a, y);
    SilentOpt(Opt("-device", SYSTEM_DEVICE), vms, a, y);
    SilentOpt(Opt("-device", SVGA), vms, a, y);
    HitSix(Opt("-device", CONTROLLER), OpenCoreOpt(s), Opt("-device", OPENCORE_DEVICE), disk,
           Opt("-device", SYSTEM_DEVICE), Opt("-device", SVGA), needle);
  }

  lemma HitSix(a: Opt, b: Opt, c: Opt, d: Opt, e: Opt, f: Opt, needle: string)
    ensures Hit([] + [a] + [b] + [c] + [d] + [e] + [f], needle)
       <==> Matches(PrintOne(a), needle) || Matches(PrintOne(b), needle) || Matches(PrintOne(c), needle)
            || Matches(PrintOne(d), needle) || Matches(PrintOne(e), needle) || Matches(PrintOne(f), needle)
  {
    HitThree(a, b, c, needle);
    HitThree(d, e, f, needle);
    HitAppend([] + [a] + [b] + [c], [] + [d] + [e] + [f], needle);
    assert [] + [a] + [b] + [c] + ([] + [d] + [e] + [f]) == [] + [a] + [b] + [c] + [d] + [e] + [f];
  }

  lemma HitThree(a: Opt, b: Opt, c: Opt, needle: string)
    ensures Hit([] + [a] + [b] + [c], needle)
       <==> Matches(PrintOne(a), needle) || Matches(PrintOne(b), needle) || Matches(PrintOne(c), needle)
  {
    HitOne(a, needle);
    HitOne(b, needle);
    HitOne(c, needle);
    assert [] + [a] == [a];
    HitAppend([] + [a], [b], needle);
    HitAppend([] + [a] + [b], [c], needle);
  }

  lemma {:induction false} DataDisksHit(vms: string, b: string, disks: seq<Path>, n: nat, a: string, y: string)
    requires n <= |disks| && n <= |DATA_DISK_PORTS| && LegalName(a) && LegalName(b) && a != b && '/' !in y
    requires forall i :: 0 <= i < |disks| ==> InDir(vms, b, disks[i])
    ensures !Hit(DataDiskOpts(disks, n), Needle(vms, a, y))
  {
    if n > 0 {
      var needle := Needle(vms, a, y);
      DataDisksHit(vms, b, disks, n - 1, a, y);
      DataFieldsSilent(n - 1);
      DataPlain(n - 1);
      OwnOpt("-drive", DataDriveFields(n - 1), "file=", disks[n - 1], [], vms, b, a, y);
      SilentOpt(DataDevice(n - 1), vms, a, y);
      HitOne(DataDrive(disks, n - 1), needle);
      HitOne(DataDevice(n - 1), needle);
      HitAppend(DataDiskOpts(disks, n - 1), [DataDrive(disks, n - 1)], needle);
      HitAppend(DataDiskOpts(disks, n - 1) + [DataDrive(disks, n - 1)], [DataDevice(n - 1)], needle);
    }
  }

  lemma NetHit(s: Spec, vms: string, a: string, y: string)
    requires '/' !in s.mac
    ensures Hit(NetOpts(s), Needle(vms, a, y)) <==> Matches(PrintOne(NetOpt(s)), Needle(vms, a, y))
  {
    NicSilent(s);
    var nic, display := Opt("-device", Nic(s)), Opt("-display", DISPLAY);
    var pair := [] + [nic] + [display];
    assert pair[0] == nic && pair[1] == display;
    SilentOpt(nic, vms, a, y);
    SilentOpt(display, vms, a, y);
    HitThree(NetOpt(s), nic, display, Needle(vms, a, y));
  }

  lemma SocketHit(flag: string, vms: string, b: string, sock: Path, a: string, y: string)
    requires '/' !in flag && LegalName(a) && LegalName(b) && a != b && '/' !in y && (sock != "" ==> InDir(vms, b, sock))
    ensures !Hit(SocketOpts(flag, sock), Needle(vms, a, y))
  {
    if sock != "" {
      ServerPlain();
      assert NoSlash(SERVER) && AllPlain([]) && NoSlash([]);
      OwnOpt(flag, [], "unix:", sock, SERVER, vms, b, a, y);
      HitOne(Opt(flag, [] + ["unix:" + sock] + SERVER), Needle(vms, a, y));
      assert SocketOpts(flag, sock) == [Opt(flag, [] + ["unix:" + sock] + SERVER)];
    } else {
      SilentOpts([], vms, a, y);
    }
  }

  lemma VncHit(vms: string, b: string, s: Spec, a: string, y: string)
    requires OwnSpec(vms, b, s) && LegalName(a) && a != b && '/' !in y
    ensures !Hit(VncOpts(s), Needle(vms, a, y))
  {
    ConsoleFieldsSilent(s);
    ConsolePlain(s);
    if s.vncDisp < 0 {
      SilentOpts([], vms, a, y);
    } else if s.vncSock == "" {
      SilentOpts(VncOpts(s), vms, a, y);
    } else {
      var vnc := Opt("-vnc", [] + ["unix:" + s.vncSock] + Password(s));
      OwnOpt("-vnc", [], "unix:", s.vncSock, Password(s), vms, b, a, y);
      SilentOpts([Opt("-k", KEYMAP)], vms, a, y);
      HitOne(vnc, Needle(vms, a, y));
      HitAppend([Opt("-k", KEYMAP)], [vnc], Needle(vms, a, y));
      assert VncOpts(s) == [Opt("-k", KEYMAP)] + [vnc];
    }
  }

  // ---- the whole command line -----------------------------------------------------------------------------------------

  lemma HitParts(m: seq<Opt>, e: seq<Opt>, f: seq<Opt>, d: seq<Opt>, r: seq<Opt>, needle: string)
    requires !Hit(m, needle) && !Hit(e, needle) && !Hit(r, needle)
    ensures Hit(m + e + f + d + r, needle) <==> Hit(f, needle) || Hit(d, needle)
  {
    HitAppend(m, e, needle);
    HitAppend(m + e, f, needle);
    HitAppend(m + e + f, d, needle);
    HitAppend(m + e + f + d, r, needle);
  }

  lemma HitRest(head: seq<Opt>, x: seq<Opt>, n: seq<Opt>, v: seq<Opt>, o: seq<Opt>, q: seq<Opt>, needle: string)
    requires !Hit(x, needle) && !Hit(v, needle) && !Hit(o, needle) && !Hit(q, needle)
    ensures Hit(head + x + n + v + o + q, needle) <==> Hit(head, needle) || Hit(n, needle)
  {
    HitAppend(head, x, needle);
    HitAppend(head + x, n, needle);
    HitAppend(head + x + n, v, needle);
    HitAppend(head + x + n + v, o, needle);
    HitAppend(head + x + n + v + o, q, needle);
  }

  function Head(s: Spec): seq<Opt> { MachineOpts(s) + DeviceOpts() + FirmwareOpts(s) + SystemDiskOpts(s) + NoReboot(s) }

  lemma HeadSilent(s: Spec, vms: string, a: string, y: string)
    requires '/' !in s.memory
    ensures !Hit(MachineOpts(s), Needle(vms, a, y)) && !Hit(DeviceOpts(), Needle(vms, a, y)) && !Hit(NoReboot(s), Needle(vms, a, y))
  {
    MachineSilent(s);
    DevicesSilent();
    RebootSilent(s);
    SilentOpts(MachineOpts(s), vms, a, y);
    SilentOpts(DeviceOpts(), vms, a, y);
    SilentOpts(NoReboot(s), vms, a, y);
  }

  lemma RebootSilent(s: Spec)
    ensures Silent(NoReboot(s))
  {
  }

  lemma HeadHit(vms: string, b: string, s: Spec, a: string, y: string)
    requires OwnSpec(vms, b, s) && LegalName(a) && a != b && '/' !in y
    ensures Hit(Head(s), Needle(vms, a, y))
       <==> Matches(PrintOne(CodeOpt(s)), Needle(vms, a, y)) || Matches(PrintOne(OpenCoreOpt(s)), Needle(vms, a, y))
  {
    HeadSilent(s, vms, a, y);
    FirmwareHit(vms, b, s, a, y);
    SystemDiskHit(vms, b, s, a, y);
    HitParts(MachineOpts(s), DeviceOpts(), FirmwareOpts(s), SystemDiskOpts(s), NoReboot(s), Needle(vms, a, y));
  }

  lemma TailHit(vms: string, b: string, s: Spec, a: string, y: string, head: seq<Opt>)
    requires OwnSpec(vms, b, s) && LegalName(a) && a != b && '/' !in y
    ensures Hit(head + DataDiskOpts(s.dataDisks, |s.dataDisks|) + NetOpts(s) + VncOpts(s) + SocketOpts("-monitor", s.monSock)
                + SocketOpts("-qmp", s.qmpSock), Needle(vms, a, y))
       <==> Hit(head, Needle(vms, a, y)) || Matches(PrintOne(NetOpt(s)), Needle(vms, a, y))
  {
    DataDisksHit(vms, b, s.dataDisks, |s.dataDisks|, a, y);
    NetHit(s, vms, a, y);
    VncHit(vms, b, s, a, y);
    SocketHit("-monitor", vms, b, s.monSock, a, y);
    SocketHit("-qmp", vms, b, s.qmpSock, a, y);
    HitRest(head, DataDiskOpts(s.dataDisks, |s.dataDisks|), NetOpts(s), VncOpts(s),
            SocketOpts("-monitor", s.monSock), SocketOpts("-qmp", s.qmpSock), Needle(vms, a, y));
  }

  /** A sibling's qemu is found only through its OVMF code, its OpenCore image or its TAP name, and always through those. */
  lemma SiblingFoundExactlyWhen(vms: string, b: string, s: Spec, a: string, y: string)
    requires OwnSpec(vms, b, s) && LegalName(a) && a != b && '/' !in y
    ensures Matches(CommandLine(s, PidPath(vms, b)), Needle(vms, a, y))
       <==> Matches(PrintOne(CodeOpt(s)), Needle(vms, a, y)) || Matches(PrintOne(OpenCoreOpt(s)), Needle(vms, a, y))
            || Matches(PrintOne(NetOpt(s)), Needle(vms, a, y))
  {
    HeadHit(vms, b, s, a, y);
    TailHit(vms, b, s, a, y, Head(s));
    PidfileSilent(vms, b, a, y);
    MatchesAppend(Print(Intended(s)), ["-daemonize", "-pidfile", PidPath(vms, b)], Needle(vms, a, y));
  }

  lemma PidfileSilent(vms: string, b: string, a: string, y: string)
    requires LegalName(a) && LegalName(b) && a != b && '/' !in y
    ensures !Matches(["-daemonize", "-pidfile", PidPath(vms, b)], Needle(vms, a, y))
  {
    var args := ["-daemonize", "-pidfile", PidPath(vms, b)];
    SilentArg("-daemonize", vms, a, y);
    SilentArg("-pidfile", vms, a, y);
    assert InDir(vms, b, PidPath(vms, b));
    OwnPathArg("", vms, b, PidPath(vms, b), "", a, y);
    assert "" + PidPath(vms, b) + "" == PidPath(vms, b);
  }

  /** A VM's own qemu is always found, whatever its other options hold: the pid file argument is printed verbatim. */
  lemma OwnQemuIsFound(vms: string, b: string, s: Spec)
    requires |s.dataDisks| <= |DATA_DISK_PORTS|
    ensures Matches(CommandLine(s, PidPath(vms, b)), PidPath(vms, b))
    ensures Matches(CommandLine(s, PidPath(vms, b)), Needle(vms, b, ""))
  {
    var args, path := CommandLine(s, PidPath(vms, b)), PidPath(vms, b);
    assert args[|args| - 1] == path;
    assert OccursAt(path, path, 0);
    assert OccursAt(path, Needle(vms, b, ""), 0);
  }

  // ---- paths outside the VM's directory ------------------------------------------------------------------------------

  /** A needle that starts with a slash cannot start in front of the first one. */
  lemma ContainsBehind(before: string, v: string, needle: string)
    requires needle != "" && needle[0] == '/' && '/' !in before && Contains(before + v, needle)
    ensures Contains(v, needle)
  {
    var hay := before + v;
    var i :| 0 <= i <= |hay| && OccursAt(hay, needle, i);
    assert hay[i..i + |needle|][0] == hay[i];
    assert i >= |before|;
    assert v[i - |before|..i - |before| + |needle|] == hay[i..i + |needle|];
    assert OccursAt(v, needle, i - |before|);
  }

  lemma FileOptFoundExactlyWhen(before: seq<string>, path: Path, vms: string, a: string, y: string)
    requires AllPlain(before) && NoSlash(before) && vms != "" && vms[0] == '/'
    ensures Matches(PrintOne(Opt("-drive", before + ["file=" + path] + [])), Needle(vms, a, y))
       <==> Contains(Escape(path), Needle(vms, a, y))
  {
    var needle := Needle(vms, a, y);
    assert needle[0] == '/';
    ValueEscapes(before, "file=", path, []);
    var l, r := JoinAround(before, "file=" + Escape(path), []);
    var value := Join(before + ["file=" + Escape(path)] + [], ',');
    JoinEnds(before, "file=" + Escape(path));
    SilentArg("-drive", vms, a, y);
    var front :| '/' !in front && value == front + Escape(path);
    if Contains(value, needle) { ContainsBehind(front, Escape(path), needle); }
    if Contains(Escape(path), needle) {
      ContainsWithin(front, Escape(path), "", needle);
      assert front + Escape(path) + "" == value;
      assert PrintOne(Opt("-drive", before + ["file=" + path] + []))[1] == value;
    }
  }

  lemma {:induction false} JoinEnds(before: seq<string>, v: string)
    requires NoSlash(before) && |v| >= 5 && v[..5] == "file="
    ensures exists front :: '/' !in front && Join(before + [v] + [], ',') == front + v[5..]
  {
    var parts := before + [v] + [];
    if before == [] {
      assert parts == [v] && v == v[..5] + v[5..];
      assert '/' !in v[..5] && Join(parts, ',') == v[..5] + v[5..];
    } else {
      JoinEnds(before[1..], v);
      assert parts[1..] == before[1..] + [v] + [];
      var front :| '/' !in front && Join(parts[1..], ',') == front + v[5..];
      var longer := before[0] + "," + front;
      assert '/' !in longer && Join(parts, ',') == longer + v[5..];
    }
  }

  /** Under an absolute root, with a TAP name the kernel accepts: only a firmware path that itself spells a's directory is found. */
  lemma SiblingFoundByFirmwareOnly(vms: string, b: string, s: Spec, a: string, y: string)
    requires OwnSpec(vms, b, s) && LegalName(a) && a != b && '/' !in y && vms != "" && vms[0] == '/' && '/' !in s.tap
    ensures Matches(CommandLine(s, PidPath(vms, b)), Needle(vms, a, y))
       <==> Contains(Escape(s.ovmfCode), Needle(vms, a, y)) || Contains(Escape(s.openCore), Needle(vms, a, y))
  {
    SiblingFoundExactlyWhen(vms, b, s, a, y);
    FirmwareOptsFoundExactlyWhen(s, vms, a, y);
    NetOptSilent(s, vms, a, y);
  }

  lemma FirmwareOptsFoundExactlyWhen(s: Spec, vms: string, a: string, y: string)
    requires vms != "" && vms[0] == '/'
    ensures Matches(PrintOne(CodeOpt(s)), Needle(vms, a, y)) <==> Contains(Escape(s.ovmfCode), Needle(vms, a, y))
    ensures Matches(PrintOne(OpenCoreOpt(s)), Needle(vms, a, y)) <==> Contains(Escape(s.openCore), Needle(vms, a, y))
  {
    DriveFieldsSilent();
    FirmwarePlain(s);
    DrivesPlain();
    FileOptFoundExactlyWhen(CODE_DRIVE, s.ovmfCode, vms, a, y);
    FileOptFoundExactlyWhen(OPENCORE_DRIVE, s.openCore, vms, a, y);
  }

  lemma NetOptSilent(s: Spec, vms: string, a: string, y: string)
    requires '/' !in s.tap
    ensures !Matches(PrintOne(NetOpt(s)), Needle(vms, a, y))
  {
    NetSilent(s);
    SilentOpt(NetOpt(s), vms, a, y);
  }

  lemma NetSilent(s: Spec)
    requires '/' !in s.tap
    ensures NoSlash(NetOpt(s).fields)
  {
    IntSilent(s.sshPort);
  }

  /** A firmware file kept outside the root, at a path that repeats a's directory, makes b's qemu look like a's. */
  lemma MisleadingFirmware(mount: string, vms: string, b: string, s: Spec, a: string)
    requires OwnSpec(vms, b, s) && LegalName(a) && a != b && vms != "" && vms[0] == '/' && '/' !in s.tap
    requires ',' !in mount && ',' !in vms && s.ovmfCode == mount + Needle(vms, a, "code.fd")
    ensures Matches(CommandLine(s, PidPath(vms, b)), Needle(vms, a, ""))
  {
    SiblingFoundByFirmwareOnly(vms, b, s, a, "");
    EscapePlain(s.ovmfCode);
    assert OccursAt(Needle(vms, a, "code.fd"), Needle(vms, a, ""), 0);
    ContainsWithin(mount, Needle(vms, a, "code.fd"), "", Needle(vms, a, ""));
    assert mount + Needle(vms, a, "code.fd") + "" == s.ovmfCode;
  }

  // ---- qemu-nbd -----------------------------------------------------------------------------------------------------

  /** qemuNBDConnectArgs on the OpenCore overlay of b. */
  function NbdCommandLine(device: nat, image: Path): seq<string>
  {
    ["--fork", "--pid-file=" + (image + ".nbd.pid"), "--connect=" + ("/dev/nbd" + Decimal(device)), "-f", "qcow2", image]
  }

  /** Reaping a's helpers never reaches a sibling's qemu-nbd, and always reaches its own. */
  lemma NbdFoundByItsOwnDirectoryOnly(vms: string, b: string, device: nat, image: Path, a: string)
    requires LegalName(a) && LegalName(b) && InDir(vms, b, image) && HasSuffix(vms, "vms")
    ensures Matches(NbdCommandLine(device, image), Needle(vms, a, "")) <==> a == b
  {
    var args, needle := NbdCommandLine(device, image), Needle(vms, a, "");
    var file :| '/' !in file && image == Needle(vms, b, file);
    if a == b {
      assert OccursAt(image, needle, 0);
      assert args[5] == image;
    } else {
      var pid := image + ".nbd.pid";
      assert pid == Needle(vms, b, file + ".nbd.pid");
      assert InDir(vms, b, pid);
      OwnPathArg("--pid-file=", vms, b, pid, "", a, "");
      OwnPathArg("", vms, b, image, "", a, "");
      assert "--pid-file=" + pid + "" == args[1] && "" + image + "" == args[5];
      ConnectArgSilent(vms, device, a);
      SilentArg("--fork", vms, a, "");
      SilentArg("-f", vms, a, "");
      SilentArg("qcow2", vms, a, "");
    }
  }

  /** The root ends in a directory called vms, so a device path cannot hold it. */
  lemma ConnectArgSilent(vms: string, device: nat, a: string)
    requires LegalName(a) && HasSuffix(vms, "vms")
    ensures !Contains("--connect=" + ("/dev/nbd" + Decimal(device)), Needle(vms, a, ""))
  {
    var arg, needle := "--connect=" + ("/dev/nbd" + Decimal(device)), Needle(vms, a, "");
    assert needle[|vms| - 1] == 's' && needle[|vms|] == '/';
    assert arg[10] == '/' && arg[14] == '/' && arg[9] == '=' && arg[13] == 'v';
    DecimalReadsBack(device);
    forall k | 18 <= k < |arg| ensures arg[k] != '/' { assert arg[k] == Decimal(device)[k - 18]; }
    assert forall k :: 0 <= k < 18 && arg[k] == '/' ==> k == 10 || k == 14 by { assert arg[..18] == "--connect=/dev/nbd"; }
    forall i | 0 <= i && i + |needle| <= |arg| ensures !OccursAt(arg, needle, i) {
      assert arg[i..i + |needle|][|vms|] == arg[i + |vms|] && arg[i..i + |needle|][|vms| - 1] == arg[i + |vms| - 1];
    }
  }
}
