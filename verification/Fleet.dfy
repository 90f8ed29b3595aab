/** Records and files across any history of create, clone and rm: what each VM's files depend on, and what clones inherit. */
module Fleet {
  import opened Wrappers
  import opened Text
  import opened Needles
  import opened Smbios
  import D = DataDisks
  import N = Network
  import L = Launch

  /** The fields of vm.json that outlive a launch. */
  datatype Rec = Rec(
    vmid: nat, image: string, digest: string, disk: Path, ovmfCode: Path, ovmfVars: Path, openCore: Path, openCoreBase: Path,
    rom: Option<string>, dataDisks: seq<Path>, storage: int, mode: N.Mode, net: Net)

  /** What applyNet leaves in a record. */
  datatype Net = Net(tap: string, netns: string, tapOwned: bool, mac: string)

  /** The records of a root, the backing file of each overlay, and the virtual size of each qcow2 file. */
  datatype Root = Root(recs: map<string, Rec>, backing: map<Path, Path>, sizes: map<Path, int>)

  datatype Error = Refused | TooSmall(storage: int, size: int) | External

  // ---- where files lie ---------------------------------------------------------------------------------------------

  /** Everything rm of n removes. */
  predicate Under(vms: string, n: string, p: Path) { HasPrefix(p, VMDir(vms, n) + "/") }

  predicate Outside(vms: string, p: Path) { !HasPrefix(p, vms + "/") }

  function SystemDisk(vms: string, n: string): Path { Needle(vms, n, "disk.qcow2") }

  function OpenCoreOverlay(vms: string, n: string): Path { Needle(vms, n, "OpenCore.qcow2") }

  lemma PrefixNames(a: string, b: string, rest: string)
    requires '/' !in a && '/' !in b && HasPrefix(b + "/" + rest, a + "/")
    ensures a == b
  {
    var s := b + "/" + rest;
    assert s[..|a| + 1] == a + "/";
    assert s[|a|] == '/' && s[|b|] == '/';
    assert forall i :: 0 <= i < |b| ==> s[i] == b[i];
    assert forall i :: 0 <= i < |a| ==> (a + "/")[i] == a[i] && s[..|a| + 1][i] == s[i];
    assert |a| == |b|;
    assert a == s[..|a|] == b;
  }

  /** A file of b's directory is not removed with a, and neither is one outside the root. */
  lemma DirectoriesAreDisjoint(vms: string, a: string, b: string, p: Path)
    requires LegalName(a) && LegalName(b) && (InDir(vms, b, p) || Outside(vms, p))
    ensures Under(vms, a, p) ==> a == b && InDir(vms, b, p)
  {
    if Under(vms, a, p) {
      var cut := |vms| + 1;
      assert p[..cut] == (VMDir(vms, a) + "/")[..cut] == vms + "/";
      assert p[cut..][..|a| + 1] == (VMDir(vms, a) + "/")[cut..] == a + "/";
      var file :| '/' !in file && p == Needle(vms, b, file);
      assert p[cut..] == b + "/" + file;
      PrefixNames(a, b, file);
    }
  }

  lemma OwnFile(vms: string, n: string, file: string)
    requires '/' !in file
    ensures InDir(vms, n, Needle(vms, n, file)) && Under(vms, n, Needle(vms, n, file))
  {
    assert Needle(vms, n, file)[..|VMDir(vms, n) + "/"|] == VMDir(vms, n) + "/";
  }

  // ---- what every record keeps -------------------------------------------------------------------------------------

  /** The files a VM needs to boot: its images, what backs them, and its firmware. */
  function Needs(root: Root, r: Rec): set<Path>
  {
    {r.disk, r.ovmfVars, r.ovmfCode, r.openCore} + (set i | 0 <= i < |r.dataDisks| :: r.dataDisks[i])
    + (if r.openCoreBase == "" then {} else {r.openCoreBase})
    + (if r.disk in root.backing then {root.backing[r.disk]} else {})
    + (if r.openCore in root.backing then {root.backing[r.openCore]} else {})
  }

  ghost predicate DiskOk(vms: string, root: Root, n: string, r: Rec)
  {
    && r.disk == SystemDisk(vms, n) && r.disk in root.backing && Outside(vms, root.backing[r.disk])
    && r.disk in root.sizes && root.backing[r.disk] in root.sizes
    && r.storage == root.sizes[r.disk] >= root.sizes[root.backing[r.disk]] > 0
  }

  /** An identity needs its own OpenCore overlay; records of older builds may lack its base. */
  ghost predicate OpenCoreOk(vms: string, root: Root, n: string, r: Rec)
  {
    if r.rom.None? then r.openCoreBase == "" && Outside(vms, r.openCore) && r.openCore !in root.backing
    else
      && r.openCore == OpenCoreOverlay(vms, n) && r.openCore in root.backing && Outside(vms, root.backing[r.openCore])
      && (r.openCoreBase != "" ==> r.openCoreBase == root.backing[r.openCore])
  }

  ghost predicate NetOk(r: Rec)
  {
    && (r.mode != N.Cni && r.rom.Some? ==> r.net.mac == Mac(r.rom.value))
    && (r.rom.Some? ==> exists b: seq<byte> :: |b| == 6 && HexEncode(b) == r.rom.value)
    && r.net.netns == (if r.net.tapOwned && r.mode == N.Cni then N.NetnsPath(r.vmid) else "")
    && (r.net.tapOwned ==> r.net.tap != "")
  }

  ghost predicate RecOk(vms: string, root: Root, n: string, r: Rec)
  {
    && DiskOk(vms, root, n, r) && OpenCoreOk(vms, root, n, r) && NetOk(r)
    && InDir(vms, n, r.ovmfVars) && Outside(vms, r.ovmfCode)
    && exists names :: D.DisksOf(VMDir(vms, n), r.dataDisks, names)
  }

  ghost predicate RecsOk(vms: string, root: Root)
  {
    forall n :: n in root.recs ==> LegalName(n) && RecOk(vms, root, n, root.recs[n])
  }

  /** No two records share an id, an identity, a TAP one of them owns along with the other, or a NIC address. */
  ghost predicate Apart(a: Rec, b: Rec)
  {
    && a.vmid != b.vmid && (a.rom.Some? ==> a.rom != b.rom)
    && (a.net.tapOwned && b.net.tapOwned ==> a.net.tap != b.net.tap)
    && (a.net.mac != "" ==> a.net.mac != b.net.mac)
  }

  ghost predicate IdsOk(recs: map<string, Rec>)
  {
    forall n, m :: n in recs && m in recs && n != m ==> Apart(recs[n], recs[m])
  }

  ghost predicate Inside(vms: string, p: Path) { exists n :: LegalName(n) && InDir(vms, n, p) }

  ghost predicate BackingOk(vms: string, backing: map<Path, Path>) { forall p :: p in backing ==> Inside(vms, p) }

  ghost predicate RootOk(vms: string, root: Root)
  {
    RecsOk(vms, root) && IdsOk(root.recs) && BackingOk(vms, root.backing)
  }

  lemma InDirIsInside(vms: string, n: string, p: Path)
    requires InDir(vms, n, p)
    ensures !Outside(vms, p)
  {
    var file :| '/' !in file && p == Needle(vms, n, file);
    assert p[..|vms| + 1] == vms + "/";
  }

  // ---- building a record ---------------------------------------------------------------------------------------------

  /** What create and clone decide before they touch a file. */
  datatype Plan = Plan(
    name: string, vmid: nat, image: string, digest: string, base: Path, ovmfCode: Path, varsSrc: Path, openCoreBase: Path,
    rom: Option<string>, dataDisks: seq<Path>, storage: int, mode: N.Mode, net: Net)

  function NewRec(vms: string, p: Plan, size: int): Rec
  {
    Rec(p.vmid, p.image, p.digest, SystemDisk(vms, p.name), p.ovmfCode, Needle(vms, p.name, Base(p.varsSrc)),
        if p.rom.Some? then OpenCoreOverlay(vms, p.name) else p.openCoreBase,
        if p.rom.Some? then p.openCoreBase else "", p.rom, p.dataDisks, size, p.mode, p.net)
  }

  /** resizeSystemDisk: 0 keeps the image's size, growing is fine, shrinking is refused. */
  function Resized(size: int, target: int): Result<int, Error>
  {
    if target == 0 || target == size then Ok(size) else if target < size then Err(TooSmall(target, size)) else Ok(target)
  }

  /** The root after the record is committed: one overlay for the disk, and one for OpenCore if there is an identity. */
  function Commit(vms: string, root: Root, p: Plan, size: int): Root
  {
    var overlays := map[SystemDisk(vms, p.name) := p.base]
                    + (if p.rom.Some? then map[OpenCoreOverlay(vms, p.name) := p.openCoreBase] else map[]);
    Root(root.recs[p.name := NewRec(vms, p, size)], root.backing + overlays, root.sizes[SystemDisk(vms, p.name) := size])
  }

  /** What holds of every plan: user-supplied paths lie outside the root, ids and identities are fresh. */
  ghost predicate PlanOk(vms: string, root: Root, p: Plan)
  {
    && LegalName(p.name) && p.name !in root.recs && p.base in root.sizes
    && Outside(vms, p.base) && Outside(vms, p.ovmfCode) && Outside(vms, p.openCoreBase)
    && '/' !in Base(p.varsSrc)
    && (exists names :: D.DisksOf(VMDir(vms, p.name), p.dataDisks, names))
    && 0 < root.sizes[p.base]
    && (forall n :: n in root.recs ==> Apart(root.recs[n], NewRec(vms, p, 0)) && Apart(NewRec(vms, p, 0), root.recs[n]))
    && NetOk(NewRec(vms, p, 0))
  }

  ghost predicate Added(vms: string, root: Root, p: Plan, root': Root)
  {
    && PlanOk(vms, root, p)
    && Resized(root.sizes[p.base], p.storage).Ok?
    && root' == Commit(vms, root, p, Resized(root.sizes[p.base], p.storage).value)
  }

  ghost predicate Removed(vms: string, root: Root, n: string, root': Root)
  {
    && root'.recs == root.recs - {n}
    && root'.backing == (map q | q in root.backing && !Under(vms, n, q) :: root.backing[q])
    && root'.sizes == (map q | q in root.sizes && !Under(vms, n, q) :: root.sizes[q])
  }

  /** recoverNet: an owned record may get a new TAP, one no record names; its address and its netns stay. */
  ghost predicate Recovered(root: Root, n: string, tap: string, root': Root)
  {
    && n in root.recs && root.recs[n].net.tapOwned && tap != ""
    && (tap == root.recs[n].net.tap || forall m :: m in root.recs ==> root.recs[m].net.tap != tap)
    && root' == root.(recs := root.recs[n := root.recs[n].(net := root.recs[n].net.(tap := tap))])
  }

  // ---- preservation ----------------------------------------------------------------------------------------------------

  ghost predicate SameFiles(vms: string, a: Root, b: Root, n: string)
  {
    && (forall q :: InDir(vms, n, q) && q in a.backing ==> q in b.backing && b.backing[q] == a.backing[q])
    && (forall q :: Outside(vms, q) && q in b.backing ==> q in a.backing)
    && (forall q :: (InDir(vms, n, q) || Outside(vms, q)) && q in a.sizes ==> q in b.sizes && b.sizes[q] == a.sizes[q])
  }

  lemma DiskOkFrame(vms: string, a: Root, b: Root, n: string, r: Rec)
    requires DiskOk(vms, a, n, r) && SameFiles(vms, a, b, n)
    ensures DiskOk(vms, b, n, r)
  {
    OwnFile(vms, n, "disk.qcow2");
  }

  lemma OpenCoreOkFrame(vms: string, a: Root, b: Root, n: string, r: Rec)
    requires OpenCoreOk(vms, a, n, r) && SameFiles(vms, a, b, n)
    ensures OpenCoreOk(vms, b, n, r)
  {
    OwnFile(vms, n, "OpenCore.qcow2");
  }

  /** A record only looks at its own files and at files outside the root. */
  lemma RecOkFrame(vms: string, a: Root, b: Root, n: string, r: Rec)
    requires RecOk(vms, a, n, r) && SameFiles(vms, a, b, n)
    ensures RecOk(vms, b, n, r)
  {
    DiskOkFrame(vms, a, b, n, r);
    OpenCoreOkFrame(vms, a, b, n, r);
  }

  lemma CommitElsewhere(vms: string, root: Root, p: Plan, size: int, q: Path)
    requires q != SystemDisk(vms, p.name) && q != OpenCoreOverlay(vms, p.name)
    ensures q in Commit(vms, root, p, size).backing <==> q in root.backing
    ensures q in root.backing ==> Commit(vms, root, p, size).backing[q] == root.backing[q]
    ensures q in Commit(vms, root, p, size).sizes <==> q in root.sizes
    ensures q in root.sizes ==> Commit(vms, root, p, size).sizes[q] == root.sizes[q]
  {
  }

  lemma CommitHere(vms: string, root: Root, p: Plan, size: int)
    ensures var b, disk, oc := Commit(vms, root, p, size).backing, SystemDisk(vms, p.name), OpenCoreOverlay(vms, p.name);
      disk != oc && disk in b && b[disk] == p.base && (p.rom.Some? ==> oc in b && b[oc] == p.openCoreBase)
  {
    var disk, oc := SystemDisk(vms, p.name), OpenCoreOverlay(vms, p.name);
    assert disk[|VMDir(vms, p.name)| + 1] == 'd' && oc[|VMDir(vms, p.name)| + 1] == 'O';
  }

  lemma CommitFrame(vms: string, root: Root, p: Plan, size: int, n: string)
    requires LegalName(p.name) && LegalName(n) && n != p.name
    ensures SameFiles(vms, root, Commit(vms, root, p, size), n)
  {
    OwnFile(vms, p.name, "disk.qcow2");
    OwnFile(vms, p.name, "OpenCore.qcow2");
    var next := Commit(vms, root, p, size);
    forall q | InDir(vms, n, q) || Outside(vms, q)
      ensures q in next.backing <==> q in root.backing
      ensures q in root.backing ==> next.backing[q] == root.backing[q]
      ensures q in root.sizes ==> q in next.sizes && next.sizes[q] == root.sizes[q]
    {
      DirectoriesAreDisjoint(vms, p.name, n, q);
      CommitElsewhere(vms, root, p, size, q);
    }
  }

  lemma AddedKeepsOthers(vms: string, root: Root, p: Plan, root': Root, n: string)
    requires n in root.recs && RecOk(vms, root, n, root.recs[n]) && LegalName(n) && LegalName(p.name) && n != p.name
    requires exists size :: root' == Commit(vms, root, p, size)
    ensures RecOk(vms, root', n, root.recs[n])
  {
    var size :| root' == Commit(vms, root, p, size);
    CommitFrame(vms, root, p, size, n);
    RecOkFrame(vms, root, root', n, root.recs[n]);
  }

  lemma BackedIsInside(vms: string, root: Root, p: Plan, q: Path)
    requires BackingOk(vms, root.backing) && Outside(vms, q)
    ensures q !in root.backing
  {
    if q in root.backing {
      assert Inside(vms, q);
      var n :| LegalName(n) && InDir(vms, n, q);
      InDirIsInside(vms, n, q);
    }
  }

  lemma AddedIsOk(vms: string, root: Root, p: Plan, root': Root)
    requires BackingOk(vms, root.backing) && Added(vms, root, p, root')
    ensures RecOk(vms, root', p.name, root'.recs[p.name])
  {
    var size := Resized(root.sizes[p.base], p.storage).value;
    OwnFile(vms, p.name, Base(p.varsSrc));
    OwnFile(vms, p.name, "disk.qcow2");
    OwnFile(vms, p.name, "OpenCore.qcow2");
    InDirIsInside(vms, p.name, SystemDisk(vms, p.name));
    InDirIsInside(vms, p.name, OpenCoreOverlay(vms, p.name));
    CommitHere(vms, root, p, size);
    CommitElsewhere(vms, root, p, size, p.base);
    CommitElsewhere(vms, root, p, size, p.openCoreBase);
    BackedIsInside(vms, root, p, p.openCoreBase);
    NetIgnoresSize(vms, p, size);
    assert root'.recs[p.name] == NewRec(vms, p, size);
  }

  lemma NetIgnoresSize(vms: string, p: Plan, size: int)
    ensures NetOk(NewRec(vms, p, size)) <==> NetOk(NewRec(vms, p, 0))
  {
  }

  lemma CommitBacking(vms: string, root: Root, p: Plan, size: int)
    requires BackingOk(vms, root.backing) && LegalName(p.name)
    ensures BackingOk(vms, Commit(vms, root, p, size).backing)
  {
    OwnFile(vms, p.name, "disk.qcow2");
    OwnFile(vms, p.name, "OpenCore.qcow2");
    forall q | q in Commit(vms, root, p, size).backing ensures Inside(vms, q) {
      if q != SystemDisk(vms, p.name) && q != OpenCoreOverlay(vms, p.name) { CommitElsewhere(vms, root, p, size, q); }
    }
  }

  lemma FreshIds(recs: map<string, Rec>, n: string, r: Rec)
    requires IdsOk(recs) && n !in recs
    requires forall m :: m in recs ==> Apart(recs[m], r) && Apart(r, recs[m])
    ensures IdsOk(recs[n := r])
  {
  }

  lemma AddedRecords(vms: string, root: Root, p: Plan, root': Root)
    requires RecsOk(vms, root) && BackingOk(vms, root.backing) && Added(vms, root, p, root')
    ensures RecsOk(vms, root')
  {
    AddedIsOk(vms, root, p, root');
    var size := Resized(root.sizes[p.base], p.storage).value;
    assert root' == Commit(vms, root, p, size);
    forall n | n in root'.recs ensures LegalName(n) && RecOk(vms, root', n, root'.recs[n]) {
      if n != p.name { AddedKeepsOthers(vms, root, p, root', n); }
    }
  }

  lemma AddedKeepsRootOk(vms: string, root: Root, p: Plan, root': Root)
    requires RootOk(vms, root) && Added(vms, root, p, root')
    ensures RootOk(vms, root')
  {
    var size := Resized(root.sizes[p.base], p.storage).value;
    AddedRecords(vms, root, p, root');
    CommitBacking(vms, root, p, size);
    assert forall m :: m in root.recs ==>
             Apart(root.recs[m], NewRec(vms, p, 0)) == Apart(root.recs[m], NewRec(vms, p, size))
             && Apart(NewRec(vms, p, 0), root.recs[m]) == Apart(NewRec(vms, p, size), root.recs[m]);
    FreshIds(root.recs, p.name, NewRec(vms, p, size));
  }

  lemma RemovedKeepsRootOk(vms: string, root: Root, n: string, root': Root)
    requires RootOk(vms, root) && LegalName(n) && Removed(vms, root, n, root')
    ensures RootOk(vms, root')
  {
    forall m | m in root'.recs ensures LegalName(m) && RecOk(vms, root', m, root'.recs[m]) {
      forall q | InDir(vms, m, q) || Outside(vms, q) ensures !Under(vms, n, q) { DirectoriesAreDisjoint(vms, n, m, q); }
      RecOkFrame(vms, root, root', m, root.recs[m]);
    }
  }

  lemma RecoveredRecOk(vms: string, root: Root, n: string, r: Rec, root': Root, tap: string)
    requires RecOk(vms, root, n, r) && root'.backing == root.backing && root'.sizes == root.sizes
    ensures RecOk(vms, root', n, r)
    ensures r.net.tapOwned && tap != "" ==> RecOk(vms, root', n, r.(net := r.net.(tap := tap)))
  {
    RecOkFrame(vms, root, root', n, r);
    var s := r.(net := r.net.(tap := tap));
    if r.net.tapOwned && tap != "" {
      assert NetOk(s);
      assert DiskOk(vms, root', n, s) && OpenCoreOk(vms, root', n, s);
    }
  }

  lemma RecoveredIds(recs: map<string, Rec>, n: string, tap: string)
    requires IdsOk(recs) && n in recs && (tap == recs[n].net.tap || forall m :: m in recs ==> recs[m].net.tap != tap)
    ensures IdsOk(recs[n := recs[n].(net := recs[n].net.(tap := tap))])
  {
  }

  lemma RecoveredRecs(vms: string, root: Root, n: string, tap: string, root': Root)
    requires RecsOk(vms, root) && Recovered(root, n, tap, root')
    ensures RecsOk(vms, root')
  {
    forall m | m in root'.recs ensures LegalName(m) && RecOk(vms, root', m, root'.recs[m]) {
      RecoveredRecOk(vms, root, m, root.recs[m], root', tap);
    }
  }

  lemma RecoveredKeepsRootOk(vms: string, root: Root, n: string, tap: string, root': Root)
    requires RootOk(vms, root) && Recovered(root, n, tap, root')
    ensures RootOk(vms, root')
  {
    RecoveredRecs(vms, root, n, tap, root');
    RecoveredIds(root.recs, n, tap);
  }

  ghost predicate Next(vms: string, a: Root, b: Root)
  {
    || (exists p :: Added(vms, a, p, b))
    || (exists n, tap :: Recovered(a, n, tap, b))
    || (exists n :: LegalName(n) && Removed(vms, a, n, b))
  }

  ghost predicate NextAt(vms: string, tr: seq<Root>, i: int)
  {
    0 <= i < |tr| - 1 && Next(vms, tr[i], tr[i + 1])
  }

  ghost predicate IsHistory(vms: string, tr: seq<Root>)
  {
    |tr| > 0 && RootOk(vms, tr[0]) && forall i :: 0 <= i < |tr| - 1 ==> NextAt(vms, tr, i)
  }

  lemma NextKeepsRootOk(vms: string, a: Root, b: Root)
    requires RootOk(vms, a) && Next(vms, a, b)
    ensures RootOk(vms, b)
  {
    if p :| Added(vms, a, p, b) {
      AddedKeepsRootOk(vms, a, p, b);
    } else if n, tap :| Recovered(a, n, tap, b) {
      RecoveredKeepsRootOk(vms, a, n, tap, b);
    } else {
      var n :| LegalName(n) && Removed(vms, a, n, b);
      RemovedKeepsRootOk(vms, a, n, b);
    }
  }

  lemma StepIsOk(vms: string, tr: seq<Root>, i: nat)
    requires IsHistory(vms, tr) && i + 1 < |tr| && RootOk(vms, tr[i])
    ensures RootOk(vms, tr[i + 1])
  {
    assert NextAt(vms, tr, i);
    NextKeepsRootOk(vms, tr[i], tr[i + 1]);
  }

  lemma {:induction false} HistoryIsOk(vms: string, tr: seq<Root>, i: nat)
    requires IsHistory(vms, tr) && i < |tr|
    ensures RootOk(vms, tr[i])
  {
    if i > 0 {
      var before := i - 1;
      HistoryIsOk(vms, tr, before);
      StepIsOk(vms, tr, before);
      assert tr[before + 1] == tr[i];
    }
  }

  // ---- what the histories guarantee --------------------------------------------------------------------------------------

  lemma DataDiskIsOwn(vms: string, n: string, disks: seq<Path>, p: Path)
    requires p in disks && exists names :: D.DisksOf(VMDir(vms, n), disks, names)
    ensures InDir(vms, n, p)
  {
    var names :| D.DisksOf(VMDir(vms, n), disks, names);
    var i :| 0 <= i < |disks| && disks[i] == p;
    FileOfDisk(names[i]);
    OwnFile(vms, n, D.DiskFile(names[i]));
    assert p == Needle(vms, n, D.DiskFile(names[i]));
  }

  lemma OpenCoreIsOwnOrOutside(vms: string, root: Root, n: string, r: Rec)
    requires OpenCoreOk(vms, root, n, r)
    ensures InDir(vms, n, r.openCore) || Outside(vms, r.openCore)
    ensures r.openCoreBase == "" || Outside(vms, r.openCoreBase)
    ensures r.openCore in root.backing ==> Outside(vms, root.backing[r.openCore])
  {
    OwnFile(vms, n, "OpenCore.qcow2");
  }

  /** Every file a VM needs is its own or lies outside the root. */
  lemma NeedsAreOwnOrOutside(vms: string, root: Root, n: string, p: Path)
    requires n in root.recs && RecOk(vms, root, n, root.recs[n]) && p in Needs(root, root.recs[n])
    ensures InDir(vms, n, p) || Outside(vms, p)
  {
    var r := root.recs[n];
    OwnFile(vms, n, "disk.qcow2");
    OpenCoreIsOwnOrOutside(vms, root, n, r);
    if p in r.dataDisks { DataDiskIsOwn(vms, n, r.dataDisks, p); }
  }

  lemma FileOfDisk(name: string)
    requires '/' !in name
    ensures '/' !in D.DiskFile(name)
  {
    var file := D.DiskFile(name);
    forall i | 0 <= i < |file| ensures file[i] != '/' {
      if 5 <= i < 5 + |name| { assert file[i] == name[i - 5]; }
    }
  }

  /** Removing a VM, even the source of a clone of a clone, removes no file any other VM needs. */
  lemma RemovalSparesOthers(vms: string, tr: seq<Root>, i: nat, n: string, m: string, p: Path)
    requires IsHistory(vms, tr) && i < |tr| && LegalName(n) && m in tr[i].recs && m != n && p in Needs(tr[i], tr[i].recs[m])
    ensures !Under(vms, n, p)
  {
    HistoryIsOk(vms, tr, i);
    NeedsAreOwnOrOutside(vms, tr[i], m, p);
    DirectoriesAreDisjoint(vms, n, m, p);
  }

  /** In every history each data disk of a VM has a SATA port of its own to go to, and all are distinct files of its directory. */
  lemma DataDisksStayDistinct(vms: string, tr: seq<Root>, i: nat, n: string)
    requires IsHistory(vms, tr) && i < |tr| && n in tr[i].recs
    ensures var disks := tr[i].recs[n].dataDisks;
      && |disks| <= |L.DATA_DISK_PORTS| && (forall j :: 0 <= j < |disks| ==> InDir(vms, n, disks[j]))
      && (forall j, k :: 0 <= j < k < |disks| ==> disks[j] != disks[k])
  {
    HistoryIsOk(vms, tr, i);
    var r := tr[i].recs[n];
    var names :| D.DisksOf(VMDir(vms, n), r.dataDisks, names);
    D.DisksAreDistinct(VMDir(vms, n), r.dataDisks, names);
    forall j | 0 <= j < |r.dataDisks| ensures InDir(vms, n, r.dataDisks[j]) {
      FileOfDisk(names[j]);
      OwnFile(vms, n, D.DiskFile(names[j]));
    }
  }

  /** Storage is always the system disk's virtual size, and never less than its base's. */
  lemma StorageIsTheDiskSize(vms: string, tr: seq<Root>, i: nat, n: string)
    requires IsHistory(vms, tr) && i < |tr| && n in tr[i].recs
    ensures var r := tr[i].recs[n];
      && r.disk in tr[i].sizes && r.storage == tr[i].sizes[r.disk]
      && r.disk in tr[i].backing && tr[i].backing[r.disk] in tr[i].sizes && tr[i].sizes[tr[i].backing[r.disk]] <= r.storage
  {
    HistoryIsOk(vms, tr, i);
  }

  // ---- what stays through a history --------------------------------------------------------------------------------------

  /** The file facts of n: its record but for its network, its disk's backing, and both sizes. */
  ghost predicate SameVM(a: Root, b: Root, n: string)
  {
    && n in a.recs && n in b.recs && b.recs[n].(net := a.recs[n].net) == a.recs[n]
    && (a.recs[n].disk in a.backing ==> a.recs[n].disk in b.backing && b.backing[a.recs[n].disk] == a.backing[a.recs[n].disk])
  }

  ghost predicate SameOutside(vms: string, a: Root, b: Root)
  {
    forall q :: q in a.sizes && Outside(vms, q) ==> q in b.sizes && b.sizes[q] == a.sizes[q]
  }

  lemma RecoveredKeepsFiles(vms: string, a: Root, m: string, tap: string, b: Root, n: string)
    requires Recovered(a, m, tap, b) && n in a.recs && n in b.recs
    ensures SameVM(a, b, n) && SameOutside(vms, a, b)
  {
  }

  lemma StepKeepsVM(vms: string, a: Root, b: Root, n: string)
    requires RootOk(vms, a) && Next(vms, a, b) && n in a.recs && n in b.recs
    ensures SameVM(a, b, n) && SameOutside(vms, a, b)
  {
    if p :| Added(vms, a, p, b) {
      AddedKeepsFiles(vms, a, p, b, n);
    } else if m, tap :| Recovered(a, m, tap, b) {
      RecoveredKeepsFiles(vms, a, m, tap, b, n);
    } else {
      var m :| LegalName(m) && Removed(vms, a, m, b);
      RemovedKeepsFiles(vms, a, m, b, n);
    }
  }

  lemma AddedKeepsFiles(vms: string, a: Root, p: Plan, b: Root, n: string)
    requires RecsOk(vms, a) && n in a.recs && Added(vms, a, p, b)
    ensures SameVM(a, b, n) && SameOutside(vms, a, b)
  {
    assert RecOk(vms, a, n, a.recs[n]);
    CommitKeepsFiles(vms, a, p, Resized(a.sizes[p.base], p.storage).value, n);
  }

  lemma CommitKeepsFiles(vms: string, a: Root, p: Plan, size: int, n: string)
    requires n in a.recs && RecOk(vms, a, n, a.recs[n]) && LegalName(n) && LegalName(p.name) && n != p.name
    ensures SameVM(a, Commit(vms, a, p, size), n) && SameOutside(vms, a, Commit(vms, a, p, size))
  {
    CommitFrame(vms, a, p, size, n);
    OwnFile(vms, n, "disk.qcow2");
  }

  lemma RemovedKeepsFiles(vms: string, a: Root, m: string, b: Root, n: string)
    requires RecsOk(vms, a) && LegalName(m) && Removed(vms, a, m, b) && n in b.recs
    ensures SameVM(a, b, n) && SameOutside(vms, a, b)
  {
    assert RecOk(vms, a, n, a.recs[n]);
    OwnFile(vms, n, "disk.qcow2");
    forall q | InDir(vms, n, q) || Outside(vms, q) ensures !Under(vms, m, q) { DirectoriesAreDisjoint(vms, m, n, q); }
  }

  lemma StepAtKeepsVM(vms: string, tr: seq<Root>, k: nat, n: string)
    requires IsHistory(vms, tr) && k + 1 < |tr| && n in tr[k].recs && n in tr[k + 1].recs
    ensures SameVM(tr[k], tr[k + 1], n) && SameOutside(vms, tr[k], tr[k + 1])
  {
    HistoryIsOk(vms, tr, k);
    assert NextAt(vms, tr, k);
    StepKeepsVM(vms, tr[k], tr[k + 1], n);
  }

  lemma SameTransitive(vms: string, a: Root, b: Root, c: Root, n: string)
    requires SameVM(a, b, n) && SameVM(b, c, n) && SameOutside(vms, a, b) && SameOutside(vms, b, c)
    ensures SameVM(a, c, n) && SameOutside(vms, a, c)
  {
  }

  /** While n stays, so does everything its clones are made from. */
  lemma {:induction false} HistoryKeepsVM(vms: string, tr: seq<Root>, i: nat, k: nat, n: string)
    requires IsHistory(vms, tr) && i <= k < |tr| && forall j :: i <= j <= k ==> n in tr[j].recs
    ensures SameVM(tr[i], tr[k], n) && SameOutside(vms, tr[i], tr[k])
  {
    if i < k {
      HistoryKeepsVM(vms, tr, i, k - 1, n);
      StepAtKeepsVM(vms, tr, k - 1, n);
      SameTransitive(vms, tr[i], tr[k - 1], tr[k], n);
    }
  }

  // ---- what the network names guarantee ----------------------------------------------------------------------------------

  /**
   Through provisioning, cloning and recovery no two VMs share an owned TAP, a netns or a NIC address, and outside CNI a
   VM with an identity has the address its ROM spells.
   */
  lemma NetworksStayApart(vms: string, tr: seq<Root>, i: nat, n: string, m: string)
    requires IsHistory(vms, tr) && i < |tr| && n in tr[i].recs && m in tr[i].recs && n != m
    ensures tr[i].recs[n].net.tapOwned && tr[i].recs[m].net.tapOwned ==> tr[i].recs[n].net.tap != tr[i].recs[m].net.tap
    ensures tr[i].recs[n].net.netns != "" ==> tr[i].recs[n].net.netns != tr[i].recs[m].net.netns
    ensures tr[i].recs[n].net.mac != "" ==> tr[i].recs[n].net.mac != tr[i].recs[m].net.mac
    ensures tr[i].recs[n].rom.Some? && tr[i].recs[n].mode != N.Cni ==>
              tr[i].recs[n].net.mac == Mac(tr[i].recs[n].rom.value) && tr[i].recs[n].net.mac != ""
  {
    HistoryIsOk(vms, tr, i);
    var a, b := tr[i].recs[n], tr[i].recs[m];
    assert RecOk(vms, tr[i], n, a) && RecOk(vms, tr[i], m, b) && Apart(a, b);
    if a.net.netns != "" && a.net.netns == b.net.netns { N.NetnsPathInjective(a.vmid, b.vmid); }
    if a.rom.Some? {
      var rom: seq<byte> :| |rom| == 6 && HexEncode(rom) == a.rom.value;
      MacInjective(rom, rom);
    }
  }
}
