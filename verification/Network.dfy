/** Provisioning, recovering and tearing down a VM's host devices, and which of them its record owns. */
module Network {
  import opened Wrappers
  import opened Text
  import opened Smbios
  import opened Host

  /** --net: user is also the empty default; anything unknown is refused by the provider. */
  datatype Mode = User | TapMode | Cni | Bridge | Unknown

  datatype Error = NoProvider | PrepareFailed | AddFailed | MarkFailed | QuiesceFailed | DeleteFailed

  lemma TwoKinds(d: Device)
    ensures d == Device(d.vmid, Tap) || d == Device(d.vmid, Netns)
  {
    match d.kind case Tap => case Netns =>
  }

  /** What the provider reports of one VM's network; CNI answers with its own MAC, the bridge with a generated one. */
  datatype Nic = Nic(tap: string, mac: string)

  /** The netns Prepare makes for a CNI VM is named after the VM's id. */
  function NetnsPath(vmid: Vmid): string { "/run/netns/cm-" + Decimal(vmid) }

  lemma NetnsPathInjective(a: Vmid, b: Vmid)
    requires NetnsPath(a) == NetnsPath(b)
    ensures a == b
  {
    var pre := |"/run/netns/cm-"|;
    assert NetnsPath(a)[pre..] == Decimal(a) && NetnsPath(b)[pre..] == Decimal(b);
    DecimalInjective(a, b);
  }

  class Record {
    const vmid: Vmid
    const mode: Mode
    const rom: Option<string> // the ROM of an SMBIOS identity
    var bridgeDev: string
    var tap: string
    var netns: string
    var tapOwned: bool
    var mac: string

    constructor (vmid: Vmid, mode: Mode, rom: Option<string>, tap: string, mac: string, bridgeDev: string)
      ensures this.vmid == vmid && this.mode == mode && this.rom == rom && this.tap == tap && this.mac == mac
      ensures this.bridgeDev == bridgeDev && netns == "" && !tapOwned
    {
      this.vmid, this.mode, this.rom := vmid, mode, rom;
      this.tap, this.mac, this.bridgeDev, this.netns, this.tapOwned := tap, mac, bridgeDev, "", false;
    }

    /** Outside CNI an identity's NIC address is the one its ROM spells. */
    ghost predicate MacOk() reads this { mode != Cni && rom.Some? ==> mac == Mac(rom.value) }

    /** The state create and clone hand to applyNet: nothing owned, and a TAP name only in tap mode. */
    ghost predicate Unprovisioned() reads this
    {
      !tapOwned && netns == "" && (tap != "" ==> mode == TapMode) && MacOk() && (rom.Some? ==> Mac(rom.value) != "")
    }
  }

  /** The netns an owned record names. */
  function NetnsOf(r: Record): string { if r.mode == Cni then NetnsPath(r.vmid) else "" }

  /** --net has a provider: CNI always, tap and bridge with a bridge, recorded or from the flag. */
  predicate HasProvider(mode: Mode, bridge: string, bridgeFlag: string)
  {
    mode == Cni || ((mode == TapMode || mode == Bridge) && (bridge != "" || bridgeFlag != ""))
  }

  class HostDevices {
    const calm: bool // no external call fails
    var devices: set<Device>
    var marker: bool

    constructor (calm: bool)
      ensures this.calm == calm && devices == {} && !marker
    {
      this.calm, devices, marker := calm, {}, false;
    }

    method Call() returns (ok: bool)
      ensures calm ==> ok
    {
      ok := *;
      if calm { ok := true; }
    }

    ghost predicate Has(vmid: Vmid) reads this { exists d :: d in devices && d.vmid == vmid }

    ghost function Others(vmid: Vmid): set<Device> reads this { set d | d in devices && d.vmid != vmid }

    /** A record's devices: its TAP exactly when it owns one, a netns only in CNI, and none otherwise. */
    ghost predicate Matches(r: Record) reads this, r
    {
      && (r.tapOwned <==> Device(r.vmid, Tap) in devices)
      && (Device(r.vmid, Netns) in devices ==> r.tapOwned && r.mode == Cni)
      && (r.tapOwned ==> r.tap != "" && r.netns == NetnsOf(r))
    }

    method MarkProvisioned() returns (ok: bool)
      modifies `marker
      ensures marker == (old(marker) || ok) && (calm ==> ok)
    {
      ok := Call();
      if ok { marker := true; }
    }

    /** newProvider: fills in the bridge from the flag, and needs one in tap and bridge mode. */
    method NewProvider(r: Record, bridgeFlag: string) returns (ok: bool)
      modifies r`bridgeDev
      ensures ok ==> HasProvider(r.mode, old(r.bridgeDev), bridgeFlag)
      ensures calm && HasProvider(r.mode, old(r.bridgeDev), bridgeFlag) ==> ok
      ensures r.bridgeDev == if (r.mode == TapMode || r.mode == Bridge) && old(r.bridgeDev) == "" then bridgeFlag else old(r.bridgeDev)
    {
      match r.mode
      case Cni => ok := Call();
      case TapMode => ok := NewBridge(r, bridgeFlag);
      case Bridge => ok := NewBridge(r, bridgeFlag);
      case _ => ok := false;
    }

    method NewBridge(r: Record, bridgeFlag: string) returns (ok: bool)
      modifies r`bridgeDev
      ensures r.bridgeDev == if old(r.bridgeDev) == "" then bridgeFlag else old(r.bridgeDev)
      ensures (ok ==> r.bridgeDev != "") && (calm && r.bridgeDev != "" ==> ok)
    {
      if r.bridgeDev == "" { r.bridgeDev := bridgeFlag; }
      if r.bridgeDev == "" { return false; }
      ok := Call();
    }

    /** Prepare is all or nothing; only CNI makes a netns. */
    method Prepare(r: Record) returns (nsPath: Option<string>)
      modifies `devices
      ensures nsPath.None? ==> devices == old(devices) && !calm
      ensures nsPath.Some? ==> devices == old(devices) + (if r.mode == Cni then {Device(r.vmid, Netns)} else {})
      ensures nsPath.Some? ==> nsPath.value == NetnsOf(r)
    {
      var ok := Call();
      if !ok { return None; }
      if r.mode == Cni {
        devices := devices + {Device(r.vmid, Netns)};
        return Some(NetnsPath(r.vmid));
      }
      return Some("");
    }

    /** Add undoes what it created itself when it fails. */
    method Add(r: Record, answer: Nic) returns (ok: bool)
      requires answer.tap != ""
      modifies `devices
      ensures devices == old(devices) + (if ok then {Device(r.vmid, Tap)} else {}) && (calm ==> ok)
    {
      ok := Call();
      if ok { devices := devices + {Device(r.vmid, Tap)}; }
    }

    /** Delete removes every device of the id, or fails. */
    method Delete(vmid: Vmid) returns (ok: bool)
      modifies `devices
      ensures devices == (if ok then old(Others(vmid)) else old(devices)) && (calm ==> ok)
    {
      ok := Call();
      if ok { devices := set d | d in devices && d.vmid != vmid; }
    }

    /** provisionNet: a TAP and, for CNI, its netns; a failed Add is rolled back, as far as Delete succeeds. */
    method ProvisionNet(r: Record, bridgeFlag: string, answer: Nic)
      returns (res: Result<(string, string, string), Error>, ghost rolledBack: bool)
      requires answer.tap != "" && !Has(r.vmid)
      modifies `devices, r`bridgeDev
      ensures res.Ok? ==> r.mode != User
      ensures res.Ok? ==> devices == old(devices) + {Device(r.vmid, Tap)} + (if r.mode == Cni then {Device(r.vmid, Netns)} else {})
      ensures res.Ok? ==> res.value == (answer.tap, res.value.1, if r.mode != Cni && r.mac != "" then r.mac else answer.mac)
                          && res.value.1 == NetnsOf(r)
      ensures calm && HasProvider(r.mode, old(r.bridgeDev), bridgeFlag) ==> res.Ok?
      ensures old(r.bridgeDev) != "" ==> r.bridgeDev == old(r.bridgeDev)
      ensures res.Err? && rolledBack ==> devices == old(devices)
      ensures res.Err? ==> (calm ==> rolledBack) && Others(r.vmid) == old(Others(r.vmid)) && Device(r.vmid, Tap) !in devices
    {
      rolledBack := true;
      ghost var before := devices;
      var ok := NewProvider(r, bridgeFlag);
      if !ok { return Err(NoProvider), rolledBack; }
      var nsPath := Prepare(r);
      if nsPath.None? { return Err(PrepareFailed), rolledBack; }
      ok := Add(r, answer);
      if !ok {
        ok := Delete(r.vmid);
        rolledBack := ok;
        assert ok ==> devices == before;
        return Err(AddFailed), rolledBack;
      }
      var mac := answer.mac;
      if r.mode != Cni && r.mac != "" { mac := r.mac; }
      res := Ok((answer.tap, nsPath.value, mac));
    }

    /** applyNet: on success the record and the host agree on what it owns, whatever the mode. */
    method ApplyNet(r: Record, bridgeFlag: string, answer: Nic) returns (res: Result<(), Error>, ghost rolledBack: bool)
      requires answer.tap != "" && !Has(r.vmid) && r.Unprovisioned()
      modifies this, r
      ensures Others(r.vmid) == old(Others(r.vmid)) && (devices != old(devices) ==> marker)
      ensures res.Ok? ==> marker && Matches(r) && r.MacOk()
      ensures res.Ok? && (r.mode == User || old(r.tap) != "") ==>
                devices == old(devices) && !r.tapOwned && r.tap == old(r.tap) && r.mac == old(r.mac) && r.netns == ""
      ensures res.Ok? && r.mode != User && old(r.tap) == "" ==> r.tapOwned && r.tap == answer.tap
      ensures res.Ok? && r.mode == Cni ==> r.mac == answer.mac
      ensures res.Ok? && r.tapOwned && r.mode != Cni ==> r.mac == if old(r.mac) != "" then old(r.mac) else answer.mac
      ensures res.Err? ==> r.tap == old(r.tap) && r.mac == old(r.mac) && !r.tapOwned && r.netns == ""
      ensures calm && (r.mode == User || old(r.tap) != "" || HasProvider(r.mode, old(r.bridgeDev), bridgeFlag)) ==> res.Ok?
      ensures old(r.bridgeDev) != "" ==> r.bridgeDev == old(r.bridgeDev)
      ensures res.Err? ==> (calm ==> rolledBack) && (rolledBack ==> devices == old(devices))
    {
      rolledBack := true;
      var marked := MarkProvisioned();
      if !marked { return Err(MarkFailed), rolledBack; }
      var userTap := r.tap;
      if r.mode == User { return Ok(()), rolledBack; }
      if r.mode == TapMode && r.tap != "" { return Ok(()), rolledBack; }
      var made;
      made, rolledBack := ProvisionNet(r, bridgeFlag, answer);
      if made.Err? { return Err(made.error), rolledBack; }
      r.mac := made.value.2;
      r.tap, r.netns, r.tapOwned := made.value.0, made.value.1, userTap == "";
      res := Ok(());
    }

    /** What provider.Verify looks for: the record's devices are on the host. */
    ghost predicate Standing(r: Record) reads this, r
    {
      Device(r.vmid, Tap) in devices && (r.mode == Cni ==> Device(r.vmid, Netns) in devices)
    }

    /**
     recoverNet: rebuilds what a reboot took from an owned record, which then names the provider's TAP; a record whose
     devices stand and verify keeps them. The NIC address and the ownership stay.
     */
    method RecoverNet(r: Record, bridgeFlag: string, answer: Nic, verified: bool) returns (ok: bool)
      requires answer.tap != "" && (r.tapOwned ==> r.tap != "" && r.netns == NetnsOf(r))
      modifies `devices, r
      ensures !r.tapOwned ==> ok && devices == old(devices) && r.tap == old(r.tap) && r.netns == old(r.netns)
      ensures old(Matches(r)) ==> Matches(r)
      ensures r.mac == old(r.mac) && r.tapOwned == old(r.tapOwned) && (!ok ==> r.tap == old(r.tap) && r.netns == old(r.netns))
      ensures Others(r.vmid) == old(Others(r.vmid)) && old(devices) <= devices
      ensures devices <= old(devices) + {Device(r.vmid, Tap)} + (if r.mode == Cni then {Device(r.vmid, Netns)} else {})
      ensures ok && r.tapOwned ==> Device(r.vmid, Tap) in devices && (r.mode == Cni ==> Device(r.vmid, Netns) in devices)
      ensures r.tapOwned ==> r.tap != "" && r.netns == NetnsOf(r)
      ensures ok && r.tapOwned ==> r.tap == if verified && old(Standing(r)) then old(r.tap) else answer.tap
      ensures verified && old(Standing(r)) ==> devices == old(devices)
      ensures calm && (r.tapOwned ==> HasProvider(r.mode, old(r.bridgeDev), bridgeFlag)) ==> ok
    {
      if !r.tapOwned { return true; }
      ok := NewProvider(r, bridgeFlag);
      if !ok { return; }
      if verified && Device(r.vmid, Tap) in devices && (r.mode == Cni ==> Device(r.vmid, Netns) in devices) { return true; }
      var nsPath := Prepare(r);
      if nsPath.None? { return false; }
      ok := Add(r, answer);
      if !ok { return; }
      r.tap, r.netns := answer.tap, nsPath.value;
    }

    /** teardownNet: nothing of the host's is touched unless the record owns it, and then only its own devices. */
    method TeardownNet(r: Record, bridgeFlag: string) returns (ok: bool)
      modifies `devices, r`bridgeDev
      ensures !r.tapOwned ==> ok && devices == old(devices)
      ensures Others(r.vmid) == old(Others(r.vmid)) && devices <= old(devices)
      ensures calm ==> (ok <==> r.tapOwned ==> r.mode == Cni || r.mode == TapMode || r.mode == Bridge)
      ensures r.tapOwned && (ok || r.mode == TapMode || r.mode == Bridge) && old(Matches(r)) ==> !Has(r.vmid)
    {
      if !r.tapOwned { return true; }
      var bridgeMode := r.mode == TapMode || r.mode == Bridge;
      forall d | d in devices ensures d == Device(d.vmid, Tap) || d == Device(d.vmid, Netns) { TwoKinds(d); }
      var provider := NewProvider(r, bridgeFlag);
      if !provider {
        if bridgeMode { CleanupTaps(r.vmid); }
        return bridgeMode;
      }
      ok := Delete(r.vmid);
      if bridgeMode { CleanupTaps(r.vmid); }
    }

    /** bridge.CleanupTAPs removes the id's TAPs by name. */
    method CleanupTaps(vmid: Vmid)
      modifies `devices
      ensures devices == old(devices) - {Device(vmid, Tap)}
    {
      devices := devices - {Device(vmid, Tap)};
    }
  }

  /** From applyNet to teardown, whatever the mode: a VM's devices come and go with its ownership, and nobody else's move. */
  method Lifetime(h: HostDevices, r: Record, bridgeFlag: string, answer: Nic, rebuilt: Nic, verified: bool)
    returns (provisioned: bool, recovered: bool, gone: bool)
    requires answer.tap != "" && rebuilt.tap != "" && !h.Has(r.vmid) && r.Unprovisioned()
    modifies h, r
    ensures h.Others(r.vmid) == old(h.Others(r.vmid))
    ensures provisioned ==> r.MacOk() && (r.tapOwned <==> r.mode != User && old(r.tap) == "")
    ensures provisioned && gone && recovered ==> !h.Has(r.vmid)
    ensures provisioned && old(r.tap) != "" ==> r.tap == old(r.tap) && gone && h.devices == old(h.devices)
    ensures h.calm && (r.mode == User || old(r.tap) != "" || HasProvider(r.mode, old(r.bridgeDev), bridgeFlag)) ==>
              provisioned && recovered && gone
  {
    recovered, gone := false, false;
    var res, rolledBack := h.ApplyNet(r, bridgeFlag, answer);
    provisioned := res.Ok?;
    if !provisioned { return; }
    recovered := h.RecoverNet(r, bridgeFlag, rebuilt, verified);
    gone := h.TeardownNet(r, bridgeFlag);
  }
}
