/** How create and clone arrive at a new VM's record, one external call after another. */
module Cloning {
  import opened Wrappers
  import opened Text
  import opened Needles
  import opened Smbios
  import opened Fleet
  import D = DataDisks
  import N = Network
  import S = Snapshots
  import L = Launch

  /** What the host answers while a VM is made: fresh values are unused, and resolved paths exist outside the root. */
  datatype Env = Env(
    vmid: nat, rom: seq<byte>, library: string -> Option<D.Spec>, blob: string -> Option<Path>,
    resolve: string -> Option<(Path, string)>, firmware: Path, answer: N.Nic, bridgeFlag: string)

  ghost predicate EnvOk(vms: string, root: Root, env: Env)
  {
    && |env.rom| == 6 && env.answer.tap != "" && env.answer.mac != "" && Outside(vms, env.firmware)
    && (forall n :: n in root.recs ==> Unused(root.recs[n], env))
    && (forall image :: env.resolve(image).Some? ==> BaseOk(vms, root, env.resolve(image).value.0))
    && (forall s :: env.library(s).Some? ==> '/' !in env.library(s).value.name)
  }

  /** No record names the generated id and identity, or the device and the address the provider answers with. */
  ghost predicate Unused(r: Rec, env: Env)
  {
    && r.vmid != env.vmid && r.rom != Some(HexEncode(env.rom)) && r.net.mac != Mac(HexEncode(env.rom))
    && r.net.tap != env.answer.tap && r.net.mac != env.answer.mac
  }

  predicate BaseOk(vms: string, root: Root, base: Path) { Outside(vms, base) && base in root.sizes && root.sizes[base] > 0 }

  /** The flags of clone; None where the source's value is inherited. */
  datatype CloneArgs = CloneArgs(
    name: string, mode: Option<N.Mode>, tap: string, storage: Option<int>, disks: seq<string>, randomSmbios: bool, bridge: string)

  datatype CreateArgs = CreateArgs(
    name: string, image: string, ovmfCode: Path, ovmfVars: Path, openCore: Path, mode: N.Mode, tap: string, storage: int,
    disks: seq<string>, randomSmbios: bool, bridge: string)

  /** The blob the source was made from, if the store still has it; else whatever its image resolves to now. */
  function CloneImageBase(src: Rec, blob: string -> Option<Path>): string
  {
    if HasPrefix(src.digest, "sha256:") then
      match blob(src.digest[7..]) case Some(b) => b case None => src.image
    else src.image
  }

  function CloneOpenCoreBase(src: Rec, firmware: Path): Path
  {
    if src.openCoreBase != "" then src.openCoreBase else if src.rom.None? then src.openCore else firmware
  }

  /** A clone's OpenCore never rests on its source's overlay, which goes with the source. */
  lemma OpenCoreBaseIsOutside(vms: string, root: Root, n: string, src: Rec, firmware: Path)
    requires OpenCoreOk(vms, root, n, src) && Outside(vms, firmware)
    ensures Outside(vms, CloneOpenCoreBase(src, firmware))
    ensures src.rom.Some? ==> CloneOpenCoreBase(src, firmware) != src.openCore
  {
    if src.rom.Some? {
      OwnFile(vms, n, "OpenCore.qcow2");
      InDirIsInside(vms, n, src.openCore);
    }
  }

  /** The names of a record's data disks, as clone reserves them. */
  function Reserved(disks: seq<Path>): seq<string>
  {
    seq(|disks|, i requires 0 <= i < |disks| => D.DataDiskName(disks[i]))
  }

  /** What applyNet leaves of a fresh record: the caller's choice verbatim, or the provider's devices under the new id. */
  function AppliedNet(mode: N.Mode, tap: string, rom: Option<string>, env: Env): Net
  {
    var own := if rom.Some? then Mac(rom.value) else "";
    if mode == N.User || tap != "" then Net(tap, "", false, own)
    else if mode == N.Cni then Net(env.answer.tap, N.NetnsPath(env.vmid), true, env.answer.mac)
    else Net(env.answer.tap, "", true, if own != "" then own else env.answer.mac)
  }

  /** NetOk for a plan, and that it shares nothing with an existing record. */
  lemma NetOkFrom(vms: string, p: Plan, tap: string, env: Env)
    requires |env.rom| == 6 && (p.rom.Some? ==> p.rom == Some(HexEncode(env.rom))) && p.vmid == env.vmid && env.answer.tap != ""
    requires p.net == AppliedNet(p.mode, tap, p.rom, env) && (tap != "" ==> p.mode == N.TapMode)
    ensures NetOk(NewRec(vms, p, 0))
    ensures forall r :: Unused(r, env) ==> Apart(r, NewRec(vms, p, 0)) && Apart(NewRec(vms, p, 0), r)
  {
    MacInjective(env.rom, env.rom);
  }

  /** The network asked for needs no provider, or has one. */
  predicate Reachable(mode: N.Mode, tap: string, bridge: string, env: Env)
  {
    mode == N.User || tap != "" || N.HasProvider(mode, bridge, env.bridgeFlag)
  }

  /** applyNet on a fresh record, whose address is its identity's, if it has one. */
  method Provision(host: N.HostDevices, env: Env, mode: N.Mode, tap: string, bridge: string, rom: Option<string>) returns (net: Option<Net>)
    requires env.answer.tap != "" && !host.Has(env.vmid) && (tap != "" ==> mode == N.TapMode) && (rom.Some? ==> Mac(rom.value) != "")
    modifies host
    ensures net.Some? ==> net.value == AppliedNet(mode, tap, rom, env)
    ensures host.calm && Reachable(mode, tap, bridge, env) ==> net.Some?
    ensures host.Others(env.vmid) == old(host.Others(env.vmid))
  {
    var mac := if rom.Some? then Mac(rom.value) else "";
    var r := new N.Record(env.vmid, mode, rom, tap, mac, bridge);
    var res, rolledBack := host.ApplyNet(r, env.bridgeFlag, env.answer);
    if res.Err? { return None; }
    net := Some(Net(r.tap, r.netns, r.tapOwned, r.mac));
  }

  /** Copies the source's disks under their names and creates the accepted new ones; any of these may fail. */
  method CloneDisks(vms: string, srcName: string, src: Rec, name: string, specs: seq<D.Spec>, ghost parsed: seq<D.Spec>, ghost index: seq<nat>,
                    calm: bool)
    returns (disks: Option<seq<Path>>)
    requires exists names :: D.DisksOf(VMDir(vms, srcName), src.dataDisks, names)
    requires D.Named(parsed, Reserved(src.dataDisks), specs, index) && D.ExplicitNamesFree(parsed, Reserved(src.dataDisks))
    requires |src.dataDisks| + |specs| <= |L.DATA_DISK_PORTS| && forall i :: 0 <= i < |specs| ==> '/' !in specs[i].name
    ensures calm ==> disks.Some?
    ensures disks.Some? ==> |disks.value| == |src.dataDisks| + |specs| && exists names :: D.DisksOf(VMDir(vms, name), disks.value, names)
    ensures disks.Some? ==> forall i :: 0 <= i < |src.dataDisks| ==> Base(disks.value[i]) == Base(src.dataDisks[i])
  {
    var copied := D.CopyDataDisks(VMDir(vms, name), src.dataDisks, calm);
    if copied.None? { return None; }
    var made := D.CreateDataDisks(VMDir(vms, name), specs, calm);
    if made.None? { return None; }
    ghost var names :| D.DisksOf(VMDir(vms, srcName), src.dataDisks, names);
    D.CloneKeepsDisks(VMDir(vms, srcName), src.dataDisks, names, VMDir(vms, name), copied.value + made.value, parsed, specs, index);
    disks := Some(copied.value + made.value);
    forall i | 0 <= i < |src.dataDisks| ensures Base(disks.value[i]) == Base(src.dataDisks[i]) {
      D.NameReadsBack(VMDir(vms, srcName), names[i]);
      D.NameReadsBack(VMDir(vms, name), names[i]);
    }
  }

  lemma NewNamesHaveNoSlash(raw: seq<string>, library: string -> Option<D.Spec>, specs: seq<D.Spec>, reserved: seq<string>,
                            out: seq<D.Spec>, index: seq<nat>)
    requires |specs| == |raw| && forall i :: 0 <= i < |raw| ==> D.ParseSpec(raw[i], library) == Some(specs[i])
    requires forall s :: library(s).Some? ==> '/' !in library(s).value.name
    requires D.Named(specs, reserved, out, index)
    ensures forall i :: 0 <= i < |out| ==> '/' !in out[i].name
  {
    forall i | 0 <= i < |out| ensures '/' !in out[i].name {
      assert D.ParseSpec(raw[i], library) == Some(specs[i]) && library(raw[i]).Some?;
      if D.Auto(specs, i) { DecimalReadsBack(index[i]); } else { assert D.Explicit(specs, i); }
    }
  }

  function CloneMode(src: Rec, args: CloneArgs): N.Mode { if args.mode.Some? then args.mode.value else src.mode }

  function CloneStorage(src: Rec, args: CloneArgs): int { if args.storage.Some? then args.storage.value else src.storage }

  /** The image resolves to this base. */
  ghost predicate ResolvesTo(env: Env, image: string, base: Path) { env.resolve(image).Some? && env.resolve(image).value.0 == base }

  /** The base a clone is made on: the blob its source was made from, while the store has it, else what the source's image is now. */
  ghost predicate BasedOn(src: Rec, env: Env, base: Path)
  {
    && (forall b :: HasPrefix(src.digest, "sha256:") && env.blob(src.digest[7..]) == Some(b) ==> ResolvesTo(env, b, base))
    && (!HasPrefix(src.digest, "sha256:") || env.blob(src.digest[7..]).None? ==> ResolvesTo(env, src.image, base))
  }

  /** The clone is made on what the image resolves to, under its digest, if it has one. */
  ghost predicate Takes(src: Rec, env: Env, image: string, p: Plan)
  {
    && env.resolve(image).Some? && p.base == env.resolve(image).value.0
    && p.digest == (if env.resolve(image).value.1 != "" then env.resolve(image).value.1 else src.digest)
  }

  /** What a clone takes from its source, and what it never does: no TAP, netns, NIC address or identity of the source's. */
  ghost predicate Inherits(src: Rec, args: CloneArgs, env: Env, p: Plan)
  {
    && p.name == args.name && p.vmid == env.vmid && p.image == src.image && p.ovmfCode == src.ovmfCode && p.varsSrc == src.ovmfVars
    && (forall b :: HasPrefix(src.digest, "sha256:") && env.blob(src.digest[7..]) == Some(b) ==> Takes(src, env, b, p))
    && (!HasPrefix(src.digest, "sha256:") || env.blob(src.digest[7..]).None? ==> Takes(src, env, src.image, p))
    && (src.openCoreBase != "" ==> p.openCoreBase == src.openCoreBase)
    && (src.openCoreBase == "" && src.rom.None? ==> p.openCoreBase == src.openCore)
    && (src.openCoreBase == "" && src.rom.Some? ==> p.openCoreBase == env.firmware)
    && p.rom == (if args.randomSmbios || src.rom.Some? then Some(HexEncode(env.rom)) else None)
    && p.storage == (if args.storage.Some? then args.storage.value else src.storage)
    && p.mode == (if args.mode.Some? then args.mode.value else src.mode)
    && p.net == AppliedNet(p.mode, args.tap, p.rom, env)
    && |p.dataDisks| == |src.dataDisks| + |args.disks|
    && (p.rom.Some? ==> p.rom != src.rom) && (p.net.tapOwned ==> p.net.tap != src.net.tap)
    && (p.net.netns != "" ==> p.net.netns != src.net.netns) && (p.net.mac != "" ==> p.net.mac != src.net.mac)
  }

  lemma NothingInherited(vms: string, root: Root, n: string, src: Rec, args: CloneArgs, env: Env, net: Net, rom: Option<string>)
    requires NetOk(src) && Unused(src, env) && (rom.Some? ==> rom == Some(HexEncode(env.rom)))
    requires net == AppliedNet(CloneMode(src, args), args.tap, rom, env)
    ensures (rom.Some? ==> rom != src.rom) && (net.tapOwned ==> net.tap != src.net.tap)
    ensures (net.netns != "" ==> net.netns != src.net.netns) && (net.mac != "" ==> net.mac != src.net.mac)
  {
    if net.netns != "" && net.netns == src.net.netns { N.NetnsPathInjective(env.vmid, src.vmid); }
  }

  /** Everything PlanOk asks, piece by piece. */
  lemma PlanIsOk(vms: string, root: Root, p: Plan, tap: string, env: Env)
    requires EnvOk(vms, root, env) && LegalName(p.name) && p.name !in root.recs && BaseOk(vms, root, p.base)
    requires Outside(vms, p.ovmfCode) && Outside(vms, p.openCoreBase) && '/' !in Base(p.varsSrc)
    requires exists names :: D.DisksOf(VMDir(vms, p.name), p.dataDisks, names)
    requires (p.rom.Some? ==> p.rom == Some(HexEncode(env.rom))) && p.vmid == env.vmid
    requires p.net == AppliedNet(p.mode, tap, p.rom, env) && (tap != "" ==> p.mode == N.TapMode)
    ensures PlanOk(vms, root, p)
  {
    NetOkFrom(vms, p, tap, env);
  }

  /** The flags and disk specs are accepted. */
  ghost predicate Accepted(src: Rec, args: CloneArgs, env: Env)
  {
    && (args.tap == "" || (if args.mode.Some? then args.mode.value else src.mode) == N.TapMode)
    && exists s :: D.Acceptable(args.disks, Reserved(src.dataDisks), env.library, s)
  }

  /** They are accepted and the image resolves, but to a base larger than the storage asked for. */
  ghost predicate TooSmallFor(root: Root, src: Rec, args: CloneArgs, env: Env)
  {
    && Accepted(src, args, env)
    && exists base :: BasedOn(src, env, base) && base in root.sizes
                      && 0 != (if args.storage.Some? then args.storage.value else src.storage) < root.sizes[base]
  }

  lemma BaseFollows(src: Rec, env: Env)
    ensures forall base :: BasedOn(src, env, base) <==> ResolvesTo(env, CloneImageBase(src, env.blob), base)
  {
  }

  /** Nothing stands in the way of a clone but a failing call. */
  ghost predicate Clonable(root: Root, src: Rec, args: CloneArgs, env: Env)
  {
    && Accepted(src, args, env) && !TooSmallFor(root, src, args, env) && (exists base :: BasedOn(src, env, base))
    && Reachable(if args.mode.Some? then args.mode.value else src.mode, args.tap, args.bridge, env)
  }

  /** clone up to its record: every flag, file and device the new VM will have. */
  method PlanClone(vms: string, host: N.HostDevices, root: Root, srcName: string, src: Rec, args: CloneArgs, env: Env)
    returns (r: Result<Plan, Error>)
    requires srcName in root.recs && src == root.recs[srcName] && args.name !in root.recs
    requires LegalName(srcName) && RecOk(vms, root, srcName, src) && EnvOk(vms, root, env) && LegalName(args.name) && !host.Has(env.vmid)
    modifies host
    ensures r.Ok? ==> PlanOk(vms, root, r.value) && Inherits(src, args, env, r.value)
    ensures r.Ok? ==> Resized(root.sizes[r.value.base], r.value.storage).Ok?
    ensures r.Err? && r.error.TooSmall? ==> TooSmallFor(root, src, args, env)
    ensures host.calm && Clonable(root, src, args, env) ==> r.Ok?
    ensures host.Others(env.vmid) == old(host.Others(env.vmid))
  {
    if args.tap != "" && CloneMode(src, args) != N.TapMode { return Err(Refused); }
    var parsed, specs, index := D.ParseDataDisks(args.disks, Reserved(src.dataDisks), env.library);
    if parsed.Err? { return Err(Refused); }
    NewNamesHaveNoSlash(args.disks, env.library, specs, Reserved(src.dataDisks), parsed.value, index);
    BaseFollows(src, env);
    var scaffolded := host.Call();
    var resolved := env.resolve(CloneImageBase(src, env.blob));
    if resolved.None? || !scaffolded { return Err(External); }
    var size := Resized(root.sizes[resolved.value.0], CloneStorage(src, args));
    if size.Err? { return Err(size.error); }
    var disks := CloneDisks(vms, srcName, src, args.name, parsed.value, specs, index, host.calm);
    if disks.None? { return Err(External); }
    r := CloneRecord(vms, host, root, srcName, src, args, env, resolved.value, disks.value);
  }

  /** The rest of clone: identity, OpenCore, network, record. */
  method CloneRecord(vms: string, host: N.HostDevices, root: Root, srcName: string, src: Rec, args: CloneArgs, env: Env,
                     resolved: (Path, string), disks: seq<Path>)
    returns (r: Result<Plan, Error>)
    requires srcName in root.recs && src == root.recs[srcName] && args.name !in root.recs
    requires LegalName(srcName) && RecOk(vms, root, srcName, src) && EnvOk(vms, root, env) && LegalName(args.name) && !host.Has(env.vmid)
    requires (args.tap != "" ==> CloneMode(src, args) == N.TapMode) && env.resolve(CloneImageBase(src, env.blob)) == Some(resolved)
    requires |disks| == |src.dataDisks| + |args.disks| && exists names :: D.DisksOf(VMDir(vms, args.name), disks, names)
    modifies host
    ensures r.Ok? ==> PlanOk(vms, root, r.value) && Inherits(src, args, env, r.value)
    ensures r.Err? ==> r.error == External
    ensures host.calm && Reachable(CloneMode(src, args), args.tap, args.bridge, env) ==> r.Ok?
    ensures host.Others(env.vmid) == old(host.Others(env.vmid))
  {
    var rom := if args.randomSmbios || src.rom.Some? then Some(HexEncode(env.rom)) else None;
    MacInjective(env.rom, env.rom);
    var injected := host.Call();
    if rom.Some? && !injected { return Err(External); }
    var net := Provision(host, env, CloneMode(src, args), args.tap, args.bridge, rom);
    if net.None? { return Err(External); }
    var plan := Plan(args.name, env.vmid, src.image, if resolved.1 != "" then resolved.1 else src.digest, resolved.0, src.ovmfCode,
                     src.ovmfVars, CloneOpenCoreBase(src, env.firmware), rom, disks, CloneStorage(src, args), CloneMode(src, args), net.value);
    BaseFollows(src, env);
    OpenCoreBaseIsOutside(vms, root, srcName, src, env.firmware);
    VarsName(vms, srcName, src.ovmfVars);
    PlanIsOk(vms, root, plan, args.tap, env);
    NothingInherited(vms, root, srcName, src, args, env, net.value, rom);
    r := Ok(plan);
  }

  /** The one new record says what was decided, and the new disk rests on the base and has the size asked for, or the base's. */
  ghost predicate NewVM(vms: string, root: Root, p: Plan, root': Root)
  {
    && root'.recs.Keys == root.recs.Keys + {p.name} && p.name !in root.recs
    && (forall n :: n in root.recs ==> root'.recs[n] == root.recs[n])
    && var r := root'.recs[p.name];
    && r.vmid == p.vmid && r.image == p.image && r.digest == p.digest && r.ovmfCode == p.ovmfCode && r.mode == p.mode && r.net == p.net
    && r.rom == p.rom && r.dataDisks == p.dataDisks && p.base in root.sizes
    && r.disk in root'.backing && root'.backing[r.disk] == p.base && r.disk in root'.sizes && root'.sizes[r.disk] == r.storage
    && r.storage == (if p.storage == 0 then root.sizes[p.base] else p.storage) && r.storage >= root.sizes[p.base]
    && r.ovmfVars == vms + "/" + p.name + "/" + Base(p.varsSrc)
    && (if p.rom.None? then r.openCore == p.openCoreBase && r.openCoreBase == ""
        else r.openCoreBase == p.openCoreBase && r.openCore in root'.backing && root'.backing[r.openCore] == p.openCoreBase)
  }

  lemma AddedIsNew(vms: string, root: Root, p: Plan, root': Root)
    requires Added(vms, root, p, root')
    ensures NewVM(vms, root, p, root')
  {
    var size := Resized(root.sizes[p.base], p.storage).value;
    CommitHere(vms, root, p, size);
  }

  /** clone, from the source's record to the committed one; on an error nothing is committed. */
  method Clone(vms: string, host: N.HostDevices, root: Root, srcName: string, args: CloneArgs, env: Env)
    returns (r: Result<Root, Error>, ghost p: Option<Plan>)
    requires RootOk(vms, root) && EnvOk(vms, root, env) && LegalName(args.name) && !host.Has(env.vmid)
    modifies host
    ensures r.Ok? ==> p.Some? && srcName in root.recs && Added(vms, root, p.value, r.value)
    ensures r.Ok? ==> Inherits(root.recs[srcName], args, env, p.value) && !TooSmallFor(root, root.recs[srcName], args, env)
    ensures r.Ok? ==> RootOk(vms, r.value) && NewVM(vms, root, p.value, r.value)
    ensures host.calm && srcName in root.recs && args.name !in root.recs && Clonable(root, root.recs[srcName], args, env) ==> r.Ok?
    ensures r.Err? && r.error.TooSmall? ==> srcName in root.recs && TooSmallFor(root, root.recs[srcName], args, env)
    ensures host.Others(env.vmid) == old(host.Others(env.vmid))
    ensures srcName !in root.recs || args.name in root.recs ==> r == Err(Refused)
  {
    p := None;
    if srcName !in root.recs || args.name in root.recs { return Err(Refused), p; }
    var plan := PlanClone(vms, host, root, srcName, root.recs[srcName], args, env);
    if plan.Err? { return Err(plan.error), p; }
    p := Some(plan.value);
    PlanCommits(vms, root, plan.value);
    FitIsNotTooSmall(root, root.recs[srcName], args, env, plan.value);
    r := Ok(Commit(vms, root, plan.value, Resized(root.sizes[plan.value.base], plan.value.storage).value));
  }

  lemma FitIsNotTooSmall(root: Root, src: Rec, args: CloneArgs, env: Env, p: Plan)
    requires Inherits(src, args, env, p) && p.base in root.sizes && Resized(root.sizes[p.base], p.storage).Ok?
    ensures !TooSmallFor(root, src, args, env)
  {
    BaseFollows(src, env);
  }

  lemma PlanCommits(vms: string, root: Root, p: Plan)
    requires RootOk(vms, root) && PlanOk(vms, root, p) && Resized(root.sizes[p.base], p.storage).Ok?
    ensures var root' := Commit(vms, root, p, Resized(root.sizes[p.base], p.storage).value);
      Added(vms, root, p, root') && RootOk(vms, root') && NewVM(vms, root, p, root')
  {
    var root' := Commit(vms, root, p, Resized(root.sizes[p.base], p.storage).value);
    AddedKeepsRootOk(vms, root, p, root');
    AddedIsNew(vms, root, p, root');
  }

  // ---- the size a clone inherits -----------------------------------------------------------------------------------------

  /**
   In every history, a clone that inherits its source's size is too small for what its image resolves to exactly when that
   base is larger than the source's own disk.
   */
  lemma InheritedStorageFitsExactlyWhen(vms: string, tr: seq<Root>, i: nat, n: string, args: CloneArgs, env: Env, base: Path)
    requires IsHistory(vms, tr) && i < |tr| && n in tr[i].recs && EnvOk(vms, tr[i], env) && args.storage.None?
    requires Accepted(tr[i].recs[n], args, env) && BasedOn(tr[i].recs[n], env, base)
    ensures tr[i].recs[n].disk in tr[i].sizes && base in tr[i].sizes
    ensures TooSmallFor(tr[i], tr[i].recs[n], args, env) <==> tr[i].sizes[base] > tr[i].sizes[tr[i].recs[n].disk]
  {
    HistoryIsOk(vms, tr, i);
    BaseFollows(tr[i].recs[n], env);
    assert RecOk(vms, tr[i], n, tr[i].recs[n]);
  }

  lemma AddedOnBase(vms: string, root: Root, p: Plan, root': Root)
    requires Added(vms, root, p, root')
    ensures p.name in root'.recs && root'.recs[p.name].digest == p.digest
    ensures root'.recs[p.name].disk in root'.backing && root'.backing[root'.recs[p.name].disk] == p.base
  {
    CommitHere(vms, root, p, Resized(root.sizes[p.base], p.storage).value);
  }

  lemma OwnBaseFits(vms: string, root: Root, n: string, src: Rec, args: CloneArgs, env: Env)
    requires DiskOk(vms, root, n, src) && args.storage.None?
    requires forall base :: BasedOn(src, env, base) ==> base == root.backing[src.disk]
    ensures !TooSmallFor(root, src, args, env)
  {
  }

  /** As long as the store keeps the blob a VM was made on, no clone of the VM that inherits its size is ever too small. */
  lemma SameBaseNeverTooSmall(vms: string, tr: seq<Root>, i: nat, k: nat, p: Plan, args: CloneArgs, env: Env)
    requires IsHistory(vms, tr) && i < k < |tr| && Added(vms, tr[i], p, tr[i + 1]) && args.storage.None?
    requires forall j :: i < j <= k ==> p.name in tr[j].recs
    requires HasPrefix(p.digest, "sha256:") && env.blob(p.digest[7..]) == Some(p.base)
    requires env.resolve(p.base).Some? ==> env.resolve(p.base).value.0 == p.base
    ensures !TooSmallFor(tr[k], tr[k].recs[p.name], args, env)
  {
    AddedOnBase(vms, tr[i], p, tr[i + 1]);
    HistoryKeepsVM(vms, tr, i + 1, k, p.name);
    RecordIsOk(vms, tr, k, p.name);
    BaseFollows(tr[k].recs[p.name], env);
    OwnBaseFits(vms, tr[k], p.name, tr[k].recs[p.name], args, env);
  }

  lemma RecordIsOk(vms: string, tr: seq<Root>, k: nat, n: string)
    requires IsHistory(vms, tr) && k < |tr| && n in tr[k].recs
    ensures DiskOk(vms, tr[k], n, tr[k].recs[n])
  {
    HistoryIsOk(vms, tr, k);
    assert RecOk(vms, tr[k], n, tr[k].recs[n]);
  }

  // ---- recovery ----------------------------------------------------------------------------------------------------------

  /** recoverNet on a record of the root: its address, netns and ownership stay; the TAP is the old one or one no other VM has. */
  method Recover(vms: string, host: N.HostDevices, root: Root, n: string, answer: N.Nic, bridgeFlag: string,
                 verified: bool)
    returns (next: Root)
    requires RootOk(vms, root) && n in root.recs && answer.tap != ""
    requires forall m :: m in root.recs && m != n ==> root.recs[m].net.tap != answer.tap
    modifies host
    ensures n in next.recs && (next == root || Recovered(root, n, next.recs[n].net.tap, next))
    ensures next.recs[n].net.tap in {root.recs[n].net.tap, answer.tap}
    ensures host.calm && root.recs[n].net.tapOwned && N.HasProvider(root.recs[n].mode, "", bridgeFlag) && !verified ==>
              next.recs[n].net.tap == answer.tap
    ensures RootOk(vms, next) && host.Others(root.recs[n].vmid) == old(host.Others(root.recs[n].vmid))
  {
    var rec := root.recs[n];
    assert RecOk(vms, root, n, rec);
    var r := new N.Record(rec.vmid, rec.mode, rec.rom, rec.net.tap, rec.net.mac, bridgeFlag);
    r.netns, r.tapOwned := rec.net.netns, rec.net.tapOwned;
    var ok := host.RecoverNet(r, bridgeFlag, answer, verified);
    if !r.tapOwned { return root; }
    next := root.(recs := root.recs[n := rec.(net := Net(r.tap, r.netns, r.tapOwned, r.mac))]);
    assert Recovered(root, n, r.tap, next);
    RecoveredKeepsRootOk(vms, root, n, r.tap, next);
  }

  lemma {:induction false} StripKeeps(s: string, i: nat)
    requires i < |s| && s[i] != '/'
    ensures |StripSlashes(s)| > i
  {
    if s[|s| - 1] == '/' { StripKeeps(s[..|s| - 1], i); }
  }

  lemma {:induction false} AfterLastSlashHasNone(s: string)
    ensures '/' !in AfterLastSlash(s)
  {
    if '/' in s { AfterLastSlashHasNone(s[1..]); }
  }

  lemma VarsName(vms: string, n: string, vars: Path)
    requires LegalName(n) && InDir(vms, n, vars)
    ensures '/' !in Base(vars)
  {
    assert vars[|vms| + 1] == n[0];
    StripKeeps(vars, |vms| + 1);
    AfterLastSlashHasNone(StripSlashes(vars));
  }

  /** The flags and disk specs are accepted, and the image resolves to a base no larger than the storage asked for. */
  ghost predicate Creatable(root: Root, args: CreateArgs, env: Env)
  {
    && (exists s :: D.Acceptable(args.disks, [], env.library, s)) && (args.tap == "" || args.mode == N.TapMode)
    && env.resolve(args.image).Some? && env.resolve(args.image).value.0 in root.sizes
    && (args.storage == 0 || args.storage >= root.sizes[env.resolve(args.image).value.0])
  }

  /** create, from the flags to the committed record; on an error nothing is committed. */
  method Create(vms: string, host: N.HostDevices, root: Root, args: CreateArgs, env: Env)
    returns (r: Result<Root, Error>, ghost p: Option<Plan>)
    requires RootOk(vms, root) && EnvOk(vms, root, env) && LegalName(args.name) && !host.Has(env.vmid)
    requires Outside(vms, args.ovmfCode) && Outside(vms, args.openCore) && '/' !in Base(args.ovmfVars)
    modifies host
    ensures r.Ok? ==> p.Some? && Added(vms, root, p.value, r.value) && RootOk(vms, r.value)
    ensures r.Ok? ==> p.value.name == args.name && p.value.vmid == env.vmid && p.value.image == args.image
                      && p.value.ovmfCode == args.ovmfCode && p.value.varsSrc == args.ovmfVars && p.value.openCoreBase == args.openCore
    ensures r.Ok? ==> env.resolve(args.image) == Some((p.value.base, p.value.digest)) && p.value.storage == args.storage
    ensures r.Ok? ==> p.value.mode == args.mode && p.value.rom == (if args.randomSmbios then Some(HexEncode(env.rom)) else None)
                      && |p.value.dataDisks| == |args.disks| && p.value.net == AppliedNet(args.mode, args.tap, p.value.rom, env)
    ensures r.Ok? ==> NewVM(vms, root, p.value, r.value) && Creatable(root, args, env)
    ensures r.Err? && r.error.TooSmall? ==>
              env.resolve(args.image).Some? && 0 != args.storage < root.sizes[env.resolve(args.image).value.0]
    ensures host.calm && args.name !in root.recs && Creatable(root, args, env) && Reachable(args.mode, args.tap, args.bridge, env) ==> r.Ok?
    ensures host.Others(env.vmid) == old(host.Others(env.vmid))
    ensures args.name in root.recs ==> r == Err(Refused)
  {
    p := None;
    var parsed, specs, index := D.ParseDataDisks(args.disks, [], env.library);
    if parsed.Err? || args.name in root.recs { return Err(Refused), p; }
    if args.tap != "" && args.mode != N.TapMode { return Err(Refused), p; }
    var resolved := env.resolve(args.image);
    if resolved.None? { return Err(External), p; }
    var base, digest := resolved.value.0, resolved.value.1;
    var size := Resized(root.sizes[base], args.storage);
    if size.Err? { return Err(size.error), p; }
    var made := D.CreateDataDisks(VMDir(vms, args.name), parsed.value, host.calm);
    if made.None? { return Err(External), p; }
    var rom := if args.randomSmbios then Some(HexEncode(env.rom)) else None;
    MacInjective(env.rom, env.rom);
    var net := Provision(host, env, args.mode, args.tap, args.bridge, rom);
    if net.None? { return Err(External), p; }
    var plan := Plan(args.name, env.vmid, args.image, digest, base, args.ovmfCode, args.ovmfVars, args.openCore, rom, made.value,
                     args.storage, args.mode, net.value);
    NewNamesHaveNoSlash(args.disks, env.library, specs, [], parsed.value, index);
    D.NamesAreDistinctAndFree(specs, [], parsed.value, index);
    ghost var names := seq(|parsed.value|, i requires 0 <= i < |parsed.value| => parsed.value[i].name);
    assert D.DisksOf(VMDir(vms, args.name), made.value, names);
    PlanIsOk(vms, root, plan, args.tap, env);
    p := Some(plan);
    PlanCommits(vms, root, plan);
    r := Ok(Commit(vms, root, plan, size.value));
  }

  // ---- an NVRAM template named like another image ----------------------------------------------------------------------

  function SnapshotImages(r: Rec): seq<Path>
  {
    S.ImagesToSnapshot(S.Record(r.disk, r.ovmfVars, r.dataDisks, []))
  }

  /** A VM's images are distinct files unless its qcow2 NVRAM template was named like its system disk or a data disk. */
  lemma ImagesAreDistinctExactlyWhen(vms: string, n: string, r: Rec, varsFile: string, names: seq<string>)
    requires LegalName(n) && r.disk == SystemDisk(vms, n) && D.DisksOf(VMDir(vms, n), r.dataDisks, names)
    requires '/' !in varsFile && r.ovmfVars == Needle(vms, n, varsFile)
    ensures Distinct(SnapshotImages(r)) <==>
            (HasSuffix(varsFile, ".qcow2") ==>
               varsFile != "disk.qcow2" && forall i :: 0 <= i < |names| ==> varsFile != D.DiskFile(names[i]))
  {
    D.DisksAreDistinct(VMDir(vms, n), r.dataDisks, names);
    SuffixOfFile(vms, n, varsFile);
    SameFile(vms, n, varsFile, "disk.qcow2");
    forall i | 0 <= i < |names|
      ensures r.dataDisks[i] != r.disk && (r.ovmfVars == r.dataDisks[i] <==> varsFile == D.DiskFile(names[i]))
    {
      DataDiskIsNotDisk(vms, n, names[i]);
      SameFile(vms, n, varsFile, D.DiskFile(names[i]));
      assert r.dataDisks[i] == Needle(vms, n, D.DiskFile(names[i]));
    }
    DistinctList(r.disk, r.ovmfVars, HasSuffix(r.ovmfVars, ".qcow2"), r.dataDisks);
  }

  lemma DistinctList(disk: Path, vars: Path, withVars: bool, data: seq<Path>)
    requires Distinct(data) && forall i :: 0 <= i < |data| ==> data[i] != disk
    ensures Distinct([disk] + (if withVars then [vars] else []) + data)
       <==> (withVars ==> vars != disk && forall i :: 0 <= i < |data| ==> vars != data[i])
  {
    var all, k := [disk] + (if withVars then [vars] else []) + data, if withVars then 2 else 1;
    assert forall i :: 0 <= i < |data| ==> all[k + i] == data[i];
    assert forall i :: k <= i < |all| ==> all[i] == data[i - k];
    if withVars && Distinct(all) {
      assert all[0] != all[1];
      forall i | 0 <= i < |data| ensures vars != data[i] { assert all[1] != all[k + i]; }
    }
  }

  lemma SameFile(vms: string, n: string, a: string, b: string)
    ensures Needle(vms, n, a) == Needle(vms, n, b) <==> a == b
  {
    var pre := |vms + "/" + n + "/"|;
    assert Needle(vms, n, a)[pre..] == a && Needle(vms, n, b)[pre..] == b;
  }

  lemma SuffixOfFile(vms: string, n: string, file: string)
    requires '/' !in file
    ensures HasSuffix(Needle(vms, n, file), ".qcow2") <==> HasSuffix(file, ".qcow2")
  {
    var p, q := Needle(vms, n, file), vms + "/" + n;
    assert p == q + "/" + file && p[|q|] == '/';
    if |file| >= 6 {
      assert p[|p| - 6..] == file[|file| - 6..];
    } else if |p| >= 6 {
      assert p[|p| - 6..][5 - |file|] == p[|q|];
      assert '/' !in ".qcow2";
    }
  }

  lemma DataDiskIsNotDisk(vms: string, n: string, name: string)
    ensures Needle(vms, n, D.DiskFile(name)) != SystemDisk(vms, n)
  {
    SameFile(vms, n, D.DiskFile(name), "disk.qcow2");
    assert D.DiskFile(name)[1] == 'a' && "disk.qcow2"[1] == 'i';
  }

  // ---- inputs that break a promise -----------------------------------------------------------------------------------------

  /** A VM "a" with user networking on an outside base, and an NVRAM template of the given name. */
  function PlanA(base: Path, firmware: Path, dir: Path, template: string): Plan
  {
    Plan("a", 1, "img", "", base, firmware, dir + "/" + template, firmware, None, [], 0, N.User, Net("", "", false, ""))
  }

  /** The history that makes such a VM on an empty root. */
  lemma OneVM(vms: string, sizes: map<Path, int>, base: Path, firmware: Path, dir: Path, template: string) returns (tr: seq<Root>)
    requires Outside(vms, base) && Outside(vms, firmware) && base in sizes && sizes[base] > 0 && '/' !in template && template != ""
    ensures IsHistory(vms, tr) && |tr| == 2 && tr[0] == Root(map[], map[], sizes)
    ensures Added(vms, tr[0], PlanA(base, firmware, dir, template), tr[1]) && tr[1].sizes == sizes[SystemDisk(vms, "a") := sizes[base]]
    ensures tr[1].recs == map["a" := NewRec(vms, PlanA(base, firmware, dir, template), sizes[base])]
    ensures Base(PlanA(base, firmware, dir, template).varsSrc) == template
  {
    var root, p := Root(map[], map[], sizes), PlanA(base, firmware, dir, template);
    BaseOfFile(dir, template);
    assert D.DisksOf(VMDir(vms, "a"), [], []);
    tr := [root, Commit(vms, root, p, sizes[base])];
    assert PlanOk(vms, root, p);
    assert Next(vms, tr[0], tr[1]) by { assert Added(vms, root, p, tr[1]); }
    assert NextAt(vms, tr, 0);
  }

  /** A template named disk.qcow2 becomes the VM's system disk. */
  lemma TemplateOverTheDisk(vms: string, base: Path, firmware: Path, dir: Path) returns (tr: seq<Root>)
    requires Outside(vms, base) && Outside(vms, firmware)
    ensures IsHistory(vms, tr) && |tr| == 2 && Added(vms, tr[0], PlanA(base, firmware, dir, "disk.qcow2"), tr[1])
    ensures "a" in tr[1].recs && tr[1].recs["a"].ovmfVars == tr[1].recs["a"].disk && !Distinct(SnapshotImages(tr[1].recs["a"]))
  {
    tr := OneVM(vms, map[base := 10], base, firmware, dir, "disk.qcow2");
    RepeatedImage(vms, tr[1].recs["a"]);
  }

  lemma RepeatedImage(vms: string, r: Rec)
    requires r.disk == SystemDisk(vms, "a") == r.ovmfVars
    ensures !Distinct(SnapshotImages(r))
  {
    assert "disk.qcow2"[4..] == ".qcow2";
    SuffixOfFile(vms, "a", "disk.qcow2");
    assert SnapshotImages(r)[0] == SnapshotImages(r)[1];
  }

  /** A host on which every image resolves to this base. */
  function HostOn(base: Path, firmware: Path): Env
  {
    Env(2, [0, 0, 0, 0, 0, 0], _ => None, _ => None, _ => Some((base, "")), firmware, N.Nic("tap", "mac"), "")
  }

  lemma HostIsOk(vms: string, root: Root, r: Rec, base: Path, firmware: Path)
    requires BaseOk(vms, root, base) && Outside(vms, firmware)
    requires root.recs == map["a" := r] && r.vmid == 1 && r.rom.None? && r.net == Net("", "", false, "")
    ensures EnvOk(vms, root, HostOn(base, firmware))
  {
    MacInjective([0, 0, 0, 0, 0, 0], [0, 0, 0, 0, 0, 0]);
  }

  lemma HostIsTooSmall(root: Root, r: Rec, args: CloneArgs, base: Path, firmware: Path)
    requires args.tap == "" && args.disks == [] && args.storage.None? && r.digest == "" && r.dataDisks == []
    requires base in root.sizes && 0 < r.storage < root.sizes[base]
    ensures TooSmallFor(root, r, args, HostOn(base, firmware))
  {
    assert D.Acceptable([], Reserved([]), HostOn(base, firmware).library, []);
    BaseFollows(r, HostOn(base, firmware));
    assert BasedOn(r, HostOn(base, firmware), base);
  }

  /** The image of "a" now resolves to a larger base than the VM was made on: its plain clone is refused as too small. */
  lemma LargerBaseRefusesTheClone(vms: string, base: Path, larger: Path, firmware: Path, dir: Path)
    returns (tr: seq<Root>, args: CloneArgs, env: Env)
    requires Outside(vms, base) && Outside(vms, larger) && Outside(vms, firmware) && base != larger
    ensures IsHistory(vms, tr) && |tr| == 2 && Added(vms, tr[0], PlanA(base, firmware, dir, "vars"), tr[1]) && EnvOk(vms, tr[1], env)
    ensures "a" in tr[1].recs && args.storage.None? && args.disks == [] && TooSmallFor(tr[1], tr[1].recs["a"], args, env)
  {
    tr := OneVM(vms, map[base := 10, larger := 20], base, firmware, dir, "vars");
    args, env := CloneArgs("b", None, "", None, [], false, ""), HostOn(larger, firmware);
    OwnFile(vms, "a", "disk.qcow2");
    InDirIsInside(vms, "a", SystemDisk(vms, "a"));
    HostIsOk(vms, tr[1], tr[1].recs["a"], larger, firmware);
    HostIsTooSmall(tr[1], tr[1].recs["a"], args, larger, firmware);
  }
}
