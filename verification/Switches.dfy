/** What each field of a launch spec turns on, off or into, option by option, as the command line's tests look at it. */
module Switches {
  import opened Text
  import opened Options
  import opened Snapshots
  import opened Launch

  /** Every option of part is on the command line of s. */
  ghost predicate Asked(s: Spec, part: seq<Opt>)
    requires |s.dataDisks| <= |DATA_DISK_PORTS|
  {
    forall o :: o in part ==> o in Intended(s)
  }

  function Ssh(s: Spec): seq<string>
  {
    if s.sshPort <= 0 then [] else ["hostfwd=tcp:127.0.0.1:" + Int(s.sshPort) + "-:22"]
  }

  /** A TAP if there is one, and then no ssh port; else user networking; and one NIC with the MAC, if one was given. */
  lemma NetworkOf(s: Spec)
    requires |s.dataDisks| <= |DATA_DISK_PORTS|
    ensures Asked(s, NetOpts(s)) && |NetOpts(s)| == 3
    ensures s.tap != "" ==> NetOpts(s)[0] == Opt("-netdev", ["tap", "id=net0", "ifname=" + s.tap, "script=no", "downscript=no"])
    ensures s.tap == "" ==> NetOpts(s)[0] == Opt("-netdev", ["user", "id=net0"] + Ssh(s))
    ensures s.mac != "" ==> NetOpts(s)[1] == Opt("-device", ["virtio-net-pci", "netdev=net0", "id=net0", "mac=" + s.mac])
    ensures s.mac == "" ==> NetOpts(s)[1] == Opt("-device", ["virtio-net-pci", "netdev=net0", "id=net0"])
    ensures NetOpts(s)[2] == Opt("-display", ["none"])
  {
    assert TAP_NET + ["ifname=" + s.tap] + NO_SCRIPTS == ["tap", "id=net0", "ifname=" + s.tap, "script=no", "downscript=no"];
  }

  /** No display below zero; else VNC on the unix socket, or on loopback, asking for a password exactly if there is one. */
  lemma ConsoleOf(s: Spec)
    requires |s.dataDisks| <= |DATA_DISK_PORTS|
    ensures Asked(s, VncOpts(s)) && (s.vncDisp < 0 <==> VncOpts(s) == [])
    ensures s.vncDisp >= 0 ==>
              && |VncOpts(s)| == 2 && VncOpts(s)[0] == Opt("-k", ["en-us"]) && VncOpts(s)[1].flag == "-vnc"
              && |VncOpts(s)[1].fields| == (if s.vncPass == "" then 1 else 2)
              && VncOpts(s)[1].fields[0] == (if s.vncSock == "" then "127.0.0.1:" + Int(s.vncDisp) else "unix:" + s.vncSock)
              && (s.vncPass != "" ==> VncOpts(s)[1].fields[1] == "password=on")
  {
  }

  /** The monitor and QMP sockets are served exactly if they are named. */
  lemma SocketsOf(s: Spec)
    requires |s.dataDisks| <= |DATA_DISK_PORTS|
    ensures s.monSock != "" ==> Opt("-monitor", ["unix:" + s.monSock, "server", "nowait"]) in Intended(s)
    ensures s.qmpSock != "" ==> Opt("-qmp", ["unix:" + s.qmpSock, "server", "nowait"]) in Intended(s)
    ensures SocketOpts("-monitor", "") == SocketOpts("-qmp", "") == []
  {
    SocketOf("-monitor", s.monSock);
    SocketOf("-qmp", s.qmpSock);
  }

  lemma SocketOf(flag: string, sock: Path)
    ensures sock != "" ==> SocketOpts(flag, sock) == [Opt(flag, ["unix:" + sock, "server", "nowait"])]
  {
    assert [] + ["unix:" + sock] + SERVER == ["unix:" + sock, "server", "nowait"];
  }

  /** With hugepages the memory backend comes first on the command line, and the machine runs on it. */
  lemma MemoryOf(s: Spec)
    requires |s.dataDisks| <= |DATA_DISK_PORTS|
    ensures Opt("-m", [s.memory]) in Intended(s)
    ensures s.hugepages ==>
              && Intended(s)[0] == Opt("-object", ["memory-backend-memfd", "id=pc.ram", "size=" + s.memory + "M", "hugetlb=on",
                                                  "hugetlbsize=2M", "prealloc=on", "share=on"])
              && Opt("-machine", ["q35", "memory-backend=pc.ram"]) in Intended(s)
    ensures !s.hugepages ==> Intended(s)[0] == Opt("-enable-kvm", []) && Opt("-machine", ["q35"]) in Intended(s)
  {
  }

  /** Half of the CPUs are cores, rounded down, but never none. */
  lemma TopologyOf(s: Spec)
    requires |s.dataDisks| <= |DATA_DISK_PORTS|
    ensures exists cores: nat :: Opt("-smp", [Int(s.cpus), "cores=" + Int(cores), "sockets=1"]) in Intended(s)
              && cores >= 1 && (s.cpus >= 2 ==> 2 * cores <= s.cpus <= 2 * cores + 1) && (s.cpus < 2 ==> cores == 1)
  {
    assert Opt("-smp", [Int(s.cpus), "cores=" + Int(Cores(s.cpus)), "sockets=1"]) in MachineOpts(s);
    assert Opt("-smp", [Int(s.cpus), "cores=" + Int(Cores(s.cpus)), "sockets=1"]) in Intended(s);
  }

  /** A guest reboot ends qemu exactly if that was asked for. */
  lemma RebootOf(s: Spec)
    requires |s.dataDisks| <= |DATA_DISK_PORTS|
    ensures s.exitOnReboot ==> Opt("-no-reboot", []) in Intended(s)
    ensures !s.exitOnReboot ==> NoReboot(s) == []
  {
  }

  /** Each image is opened as its kind demands: code read-only, NVRAM by its name, OpenCore thrown away, the disk for good. */
  lemma ImagesOf(s: Spec)
    requires |s.dataDisks| <= |DATA_DISK_PORTS|
    ensures Opt("-drive", ["if=pflash", "format=raw", "readonly=on", "file=" + s.ovmfCode]) in Intended(s)
    ensures HasSuffix(s.ovmfVars, ".qcow2") ==> Opt("-drive", ["if=pflash", "format=qcow2", "file=" + s.ovmfVars]) in Intended(s)
    ensures !HasSuffix(s.ovmfVars, ".qcow2") ==> Opt("-drive", ["if=pflash", "format=raw", "file=" + s.ovmfVars]) in Intended(s)
    ensures Opt("-drive", ["id=OpenCoreBoot", "if=none", "snapshot=on", "format=qcow2", "aio=io_uring", "file=" + s.openCore]) in Intended(s)
    ensures Opt("-drive", ["id=MacHDD", "if=none", "format=qcow2", "cache=writeback", "aio=io_uring", "discard=unmap",
                           "detect-zeroes=unmap", "file=" + s.disk]) in Intended(s)
  {
    assert "format=" + "qcow2" == "format=qcow2" && "format=" + "raw" == "format=raw";
    FirmwareImages(s);
    BootImages(s);
  }

  lemma FirmwareImages(s: Spec)
    ensures Opt("-drive", ["if=pflash", "format=raw", "readonly=on", "file=" + s.ovmfCode]) in FirmwareOpts(s)
    ensures Opt("-drive", ["if=pflash", "format=" + (if HasSuffix(s.ovmfVars, ".qcow2") then "qcow2" else "raw"), "file=" + s.ovmfVars])
         in FirmwareOpts(s)
  {
    assert CODE_DRIVE + ["file=" + s.ovmfCode] + [] == ["if=pflash", "format=raw", "readonly=on", "file=" + s.ovmfCode];
    assert VarsDrive(s) + ["file=" + s.ovmfVars] + [] == ["if=pflash", "format=" + VarsFormat(s), "file=" + s.ovmfVars];
  }

  lemma BootImages(s: Spec)
    ensures Opt("-drive", ["id=OpenCoreBoot", "if=none", "snapshot=on", "format=qcow2", "aio=io_uring", "file=" + s.openCore])
         in SystemDiskOpts(s)
    ensures Opt("-drive", ["id=MacHDD", "if=none", "format=qcow2", "cache=writeback", "aio=io_uring", "discard=unmap",
                           "detect-zeroes=unmap", "file=" + s.disk]) in SystemDiskOpts(s)
  {
    var boot := ["id=OpenCoreBoot", "if=none", "snapshot=on", "format=qcow2", "aio=io_uring", "file=" + s.openCore];
    assert OPENCORE_DRIVE + ["file=" + s.openCore] + [] == boot;
    var disk := ["id=MacHDD", "if=none", "format=qcow2", "cache=writeback", "aio=io_uring", "discard=unmap", "detect-zeroes=unmap",
                 "file=" + s.disk];
    assert SYSTEM_DRIVE + ["file=" + s.disk] + [] == disk;
  }

  /** The guest sees an Intel CPU without TSX and with its TSC frequency told, and the Apple controller's key. */
  lemma MachineOf(s: Spec)
    requires |s.dataDisks| <= |DATA_DISK_PORTS|
    ensures Opt("-cpu", CPU) in Intended(s) && Opt("-enable-kvm", []) in Intended(s)
    ensures CPU[0] == "Skylake-Client" && "vendor=GenuineIntel" in CPU && "-hle" in CPU && "-rtm" in CPU && "kvm=on" in CPU
    ensures "+invtsc" in CPU && "vmware-cpuid-freq=on" in CPU && "+pcid" in CPU && "+invpcid" in CPU
    ensures "+tsc-deadline" in CPU && "+rdtscp" in CPU
    ensures Opt("-device", ["isa-applesmc", "osk=" + OSK]) in Intended(s)
  {
    assert CPU[1] == "-hle" && CPU[2] == "-rtm" && CPU[3] == "kvm=on" && CPU[4] == "vendor=GenuineIntel";
    assert CPU[5] == "+invtsc" && CPU[6] == "vmware-cpuid-freq=on" && CPU[14] == "+pcid" && CPU[15] == "+invpcid";
    assert CPU[16] == "+tsc-deadline" && CPU[17] == "+rdtscp";
  }
}
