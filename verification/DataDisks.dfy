/** Data disks: naming them under the four-port cap, and the files that carry the names through clones. */
module DataDisks {
  import opened Wrappers
  import opened Text
  import L = Launch

  /** macOS has no virtio-blk; the system disks leave four of the controller's six SATA ports. */
  const MAX_DATA_DISKS := 4

  const AGENT_ONLY_KEYS := {"fstype", "mount", "directio"}

  /** A parsed --data-disk; an empty name asks for the next free dataN. */
  datatype Spec = Spec(name: string, size: int)

  datatype Error = BadSpec(spec: string) | Duplicated(name: string) | TooMany(total: nat)

  // ---- names ---------------------------------------------------------------------------------------------------

  function AutoName(k: nat): string { "data" + Decimal(k) }

  lemma AutoNameInjective(j: nat, k: nat)
    requires AutoName(j) == AutoName(k)
    ensures j == k
  {
    assert AutoName(j)[4..] == Decimal(j) && AutoName(k)[4..] == Decimal(k);
    DecimalInjective(j, k);
  }

  /** The keys of a spec's comma-separated parts. */
  predicate AgentOnly(s: string)
  {
    exists i :: 0 <= i < |Split(s, ',')| && TrimSpace(Before(Split(s, ',')[i], '=')) in AGENT_ONLY_KEYS
  }

  /** A part of the spec sets what only an agent in the guest could do: format, mount or open the disk. */
  ghost predicate NeedsAgent(s: string)
  {
    exists i :: 0 <= i < |Split(s, ',')| && AgentKey(TrimSpace(Before(Split(s, ',')[i], '=')))
  }

  predicate AgentKey(key: string) { key == "fstype" || key == "mount" || key == "directio" }

  /** library is the cocoon parser of one spec. */
  function ParseSpec(s: string, library: string -> Option<Spec>): Option<Spec>
  {
    if AgentOnly(s) then None else library(s)
  }

  lemma {:induction false} BeforeStops(k: string, c: char, rest: string)
    requires c !in k
    ensures Before(k + [c] + rest, c) == k
  {
    var s := k + [c] + rest;
    if k != "" {
      assert s[0] == k[0] && s[1..] == k[1..] + [c] + rest;
      BeforeStops(k[1..], c, rest);
      assert k == [k[0]] + k[1..];
    }
  }

  lemma KeysAreTrimmed(key: string)
    requires AgentKey(key)
    ensures TrimSpace(key) == key && '=' !in key && ',' !in key
  {
    assert !IsSpace(key[0]) && !IsSpace(key[|key| - 1]);
  }

  /** Wherever in a spec such a key is set, and to whatever, the spec is refused even if the library would take it. */
  lemma AgentKeysAreRefused(first: string, key: string, value: string, library: string -> Option<Spec>)
    requires ',' !in first && ',' !in value && AgentKey(key)
    ensures NeedsAgent(first + "," + key + "=" + value) && ParseSpec(first + "," + key + "=" + value, library).None?
  {
    var part, s := key + "=" + value, first + "," + key + "=" + value;
    KeysAreTrimmed(key);
    BeforeStops(key, '=', value);
    assert s == first + [','] + part && part == key + ['='] + value;
    SplitAtSeparator(first, ',', part);
    SplitNoSeparator(part, ',');
    assert Split(s, ',')[1] == part;
  }

  predicate Explicit(specs: seq<Spec>, i: int) { 0 <= i < |specs| && specs[i].name != "" }

  predicate Auto(specs: seq<Spec>, i: int) { 0 <= i < |specs| && specs[i].name == "" }

  /** Nobody asked twice for one name, nor for a reserved one. */
  ghost predicate ExplicitNamesFree(specs: seq<Spec>, reserved: seq<string>)
  {
    && (forall i :: Explicit(specs, i) ==> specs[i].name !in reserved)
    && (forall i, j :: Explicit(specs, i) && Explicit(specs, j) && i < j ==> specs[i].name != specs[j].name)
  }

  /** The names no automatic disk may take. */
  ghost function Claimed(specs: seq<Spec>, reserved: seq<string>): set<string>
  {
    (set i | 0 <= i < |reserved| :: reserved[i]) + (set i | 0 <= i < |specs| && specs[i].name != "" :: specs[i].name)
  }

  /** Automatic names climb: each is the least index whose name is neither claimed nor already handed out. */
  ghost predicate Named(specs: seq<Spec>, reserved: seq<string>, out: seq<Spec>, index: seq<nat>)
  {
    && |out| <= |specs| && |index| == |out|
    && (forall i :: 0 <= i < |out| && Explicit(specs, i) ==> out[i] == specs[i] && index[i] == 0)
    && (forall i :: 0 <= i < |out| && Auto(specs, i) ==>
          && index[i] >= 1 && AutoName(index[i]) !in Claimed(specs, reserved)
          && out[i] == Spec(AutoName(index[i]), specs[i].size))
    && (forall i, j :: 0 <= i < j < |out| && Auto(specs, i) && Auto(specs, j) ==> index[i] < index[j])
    && (forall i, k :: 0 <= i < |out| && Auto(specs, i) && 1 <= k < index[i] ==>
          AutoName(k) in Claimed(specs, reserved) || k in index[..i])
  }

  /** The exact condition under which a set of specs is accepted: all parse, no name is taken, each disk has a free port. */
  ghost predicate Acceptable(raw: seq<string>, reserved: seq<string>, library: string -> Option<Spec>, specs: seq<Spec>)
  {
    && |specs| == |raw| && (forall i :: 0 <= i < |raw| ==> ParseSpec(raw[i], library) == Some(specs[i]))
    && ExplicitNamesFree(specs, reserved)
    && |reserved| + |raw| <= |L.DATA_DISK_PORTS|
  }

  ghost predicate AutoFrom(name: string, k: nat) { exists j: nat :: j >= k && AutoName(j) == name }

  ghost function AutoUsed(used: set<string>, k: nat): set<string> { set n | n in used && AutoFrom(n, k) }

  /** The first name at or after index from that is still unused; used is finite, so the search ends. */
  method NextUnused(used: set<string>, from: nat) returns (k: nat)
    ensures k >= from && AutoName(k) !in used && forall j :: from <= j < k ==> AutoName(j) in used
  {
    k := from;
    while AutoName(k) in used
      invariant k >= from && forall j :: from <= j < k ==> AutoName(j) in used
      decreases |AutoUsed(used, k)|
    {
      FewerAutoNames(used, k);
      k := k + 1;
    }
  }

  /** Explicit names go first, so that no automatic one takes a name a later spec asked for. */
  method ClaimExplicit(specs: seq<Spec>, reserved: seq<string>) returns (used: set<string>, clash: Option<string>)
    ensures clash.None? ==> used == Claimed(specs, reserved) && ExplicitNamesFree(specs, reserved)
    ensures clash.Some? ==> !ExplicitNamesFree(specs, reserved)
  {
    used, clash := set i | 0 <= i < |reserved| :: reserved[i], None;
    for i := 0 to |specs|
      invariant used == Claimed(specs[..i], reserved) && ExplicitNamesFree(specs[..i], reserved)
    {
      assert specs[..i + 1] == specs[..i] + [specs[i]];
      ClaimNext(specs[..i], reserved, specs[i]);
      if specs[i].name != "" {
        if specs[i].name in used {
          ClaimedTwice(specs, reserved, i);
          return used, Some(specs[i].name);
        }
        used := used + {specs[i].name};
      }
    }
    assert specs[..|specs|] == specs;
  }

  lemma NamedNext(specs: seq<Spec>, reserved: seq<string>, out: seq<Spec>, index: seq<nat>, k: nat)
    requires Named(specs, reserved, out, index) && |out| < |specs| && specs[|out|].name == ""
    requires k >= 1 && AutoName(k) !in Claimed(specs, reserved)
    requires forall j :: 0 <= j < |out| && Auto(specs, j) ==> index[j] < k
    requires forall j :: 1 <= j < k ==> AutoName(j) in Claimed(specs, reserved) || j in index
    ensures Named(specs, reserved, out + [Spec(AutoName(k), specs[|out|].size)], index + [k])
  {
    var longer := index + [k];
    assert forall i :: 0 <= i <= |out| ==> longer[..i] == index[..i];
    assert index[..|out|] == index;
  }

  lemma NamedSame(specs: seq<Spec>, reserved: seq<string>, out: seq<Spec>, index: seq<nat>)
    requires Named(specs, reserved, out, index) && |out| < |specs| && specs[|out|].name != ""
    ensures Named(specs, reserved, out + [specs[|out|]], index + [0])
  {
    var longer := index + [0];
    assert forall i :: 0 <= i <= |out| ==> longer[..i] == index[..i];
  }

  lemma UsedAreHandedOut(claimed: set<string>, used: set<string>, index: seq<nat>, from: nat, k: nat)
    requires forall n :: n in used && n !in claimed ==> exists h :: h in index && AutoName(h) == n
    requires forall j :: from <= j < k ==> AutoName(j) in used
    ensures forall j :: from <= j < k ==> AutoName(j) in claimed || j in index
  {
    forall j | from <= j < k && AutoName(j) !in claimed ensures j in index {
      var h :| h in index && AutoName(h) == AutoName(j);
      AutoNameInjective(h, j);
    }
  }

  method NameAutos(specs: seq<Spec>, reserved: seq<string>, claimed: set<string>) returns (named: seq<Spec>, ghost index: seq<nat>)
    requires claimed == Claimed(specs, reserved)
    ensures |named| == |specs| && Named(specs, reserved, named, index)
  {
    var used, autoIdx := claimed, 1;
    named, index := [], [];
    for i := 0 to |specs|
      invariant |named| == i && Named(specs, reserved, named, index) && autoIdx >= 1
      invariant claimed <= used && forall n :: n in used && n !in claimed ==> exists k :: k in index && AutoName(k) == n
      invariant forall j :: j in index ==> j < autoIdx
      invariant forall k :: 1 <= k < autoIdx ==> AutoName(k) in claimed || k in index
    {
      if specs[i].name != "" {
        NamedSame(specs, reserved, named, index);
        named, index := named + [specs[i]], index + [0];
      } else {
        var k := NextUnused(used, autoIdx);
        UsedAreHandedOut(claimed, used, index, autoIdx, k);
        assert forall j :: 0 <= j < |index| ==> index[j] in index;
        assert forall j :: 1 <= j < k ==> AutoName(j) in claimed || j in index;
        NamedNext(specs, reserved, named, index, k);
        assert forall j :: j in index + [k] <==> j in index || j == k;
        used := used + {AutoName(k)};
        named, index := named + [Spec(AutoName(k), specs[i].size)], index + [k];
        autoIdx := k + 1;
      }
    }
  }

  method ParseDataDisks(raw: seq<string>, reserved: seq<string>, library: string -> Option<Spec>)
    returns (r: Result<seq<Spec>, Error>, ghost specs: seq<Spec>, ghost index: seq<nat>)
    ensures r.Ok? ==> Acceptable(raw, reserved, library, specs) && |r.value| == |raw| && Named(specs, reserved, r.value, index)
    ensures r.Ok? ==> forall i :: 0 <= i < |raw| ==> library(raw[i]) == Some(specs[i]) && !NeedsAgent(raw[i])
    ensures r.Err? ==> forall s :: !Acceptable(raw, reserved, library, s)
    ensures r.Err? && r.error.BadSpec? ==> r.error.spec in raw && (library(r.error.spec).None? || NeedsAgent(r.error.spec))
    ensures r.Err? && !r.error.BadSpec? ==> |specs| == |raw| && forall i :: 0 <= i < |raw| ==> ParseSpec(raw[i], library) == Some(specs[i])
    ensures r.Err? && r.error.Duplicated? ==> !ExplicitNamesFree(specs, reserved)
    ensures r.Err? && r.error.TooMany? ==> r.error.total == |reserved| + |raw| > |L.DATA_DISK_PORTS|
  {
    index := [];
    var parsed: seq<Spec> := [];
    specs := parsed;
    for i := 0 to |raw|
      invariant |parsed| == i && forall j :: 0 <= j < i ==> ParseSpec(raw[j], library) == Some(parsed[j])
    {
      var spec := ParseSpec(raw[i], library);
      if spec.None? { return Err(BadSpec(raw[i])), specs, index; }
      parsed := parsed + [spec.value];
    }
    specs := parsed;
    forall s | Acceptable(raw, reserved, library, s) ensures s == parsed { ParsesOnce(raw, library, s, parsed); }
    var used, clash := ClaimExplicit(parsed, reserved);
    if clash.Some? { return Err(Duplicated(clash.value)), specs, index; }
    var named;
    named, index := NameAutos(parsed, reserved, used);
    var total := |reserved| + |named|;
    if total > MAX_DATA_DISKS { return Err(TooMany(total)), specs, index; }
    r := Ok(named);
  }

  lemma ParsesOnce(raw: seq<string>, library: string -> Option<Spec>, a: seq<Spec>, b: seq<Spec>)
    requires |a| == |raw| == |b|
    requires forall i :: 0 <= i < |raw| ==> ParseSpec(raw[i], library) == Some(a[i])
    requires forall i :: 0 <= i < |raw| ==> ParseSpec(raw[i], library) == Some(b[i])
    ensures a == b
  {
    forall i | 0 <= i < |raw| ensures a[i] == b[i] { assert ParseSpec(raw[i], library) == Some(a[i]); }
  }

  lemma FewerAutoNames(used: set<string>, k: nat)
    requires AutoName(k) in used
    ensures |AutoUsed(used, k + 1)| < |AutoUsed(used, k)|
  {
    var less, more := AutoUsed(used, k + 1), AutoUsed(used, k);
    assert AutoName(k) in more;
    if AutoName(k) in less {
      var j: nat :| j >= k + 1 && AutoName(j) == AutoName(k);
      AutoNameInjective(j, k);
    }
    SmallerSet(less, more, AutoName(k));
  }

  lemma SmallerSet(a: set<string>, b: set<string>, x: string)
    requires a <= b && x in b && x !in a
    ensures |a| < |b|
  {
    assert a <= b - {x};
    SubsetSize(a, b - {x});
  }

  lemma {:induction false} SubsetSize(a: set<string>, b: set<string>)
    requires a <= b
    ensures |a| <= |b|
  {
    if a != {} {
      var x :| x in a;
      SubsetSize(a - {x}, b - {x});
    }
  }

  lemma ClaimNext(specs: seq<Spec>, reserved: seq<string>, s: Spec)
    ensures Claimed(specs + [s], reserved) == Claimed(specs, reserved) + (if s.name == "" then {} else {s.name})
    ensures ExplicitNamesFree(specs, reserved) && (s.name == "" || s.name !in Claimed(specs, reserved)) ==>
              ExplicitNamesFree(specs + [s], reserved)
  {
    var more := specs + [s];
    assert forall i :: 0 <= i < |specs| ==> more[i] == specs[i];
    if s.name != "" { assert more[|specs|].name in Claimed(more, reserved); }
    forall n | n in Claimed(specs, reserved) ensures n in Claimed(more, reserved) {
      if n !in reserved {
        var i :| 0 <= i < |specs| && specs[i].name != "" && specs[i].name == n;
        assert more[i].name == n;
      }
    }
  }

  lemma ClaimedTwice(specs: seq<Spec>, reserved: seq<string>, i: nat)
    requires i < |specs| && specs[i].name != "" && specs[i].name in Claimed(specs[..i], reserved)
    ensures !ExplicitNamesFree(specs, reserved)
  {
    assert Explicit(specs, i);
    if specs[i].name !in reserved {
      var j :| 0 <= j < |specs[..i]| && specs[..i][j].name != "" && specs[..i][j].name == specs[i].name;
      assert Explicit(specs, j);
    }
  }

  // ---- what the naming guarantees ------------------------------------------------------------------------------

  lemma NameIsClaimed(specs: seq<Spec>, reserved: seq<string>, i: nat)
    requires Explicit(specs, i)
    ensures specs[i].name in Claimed(specs, reserved)
  {
  }

  /** The names of an accepted set are pairwise distinct and none is reserved. */
  lemma NamesAreDistinctAndFree(specs: seq<Spec>, reserved: seq<string>, out: seq<Spec>, index: seq<nat>)
    requires Named(specs, reserved, out, index) && ExplicitNamesFree(specs, reserved)
    ensures forall i, j :: 0 <= i < j < |out| ==> out[i].name != out[j].name
    ensures forall i :: 0 <= i < |out| ==> out[i].name !in reserved && out[i].size == specs[i].size
  {
    forall i, j | 0 <= i < j < |out| ensures out[i].name != out[j].name {
      assert (Explicit(specs, i) || Auto(specs, i)) && (Explicit(specs, j) || Auto(specs, j));
      if Explicit(specs, i) { NameIsClaimed(specs, reserved, i); }
      if Explicit(specs, j) { NameIsClaimed(specs, reserved, j); }
      if Auto(specs, i) && Auto(specs, j) && out[i].name == out[j].name { AutoNameInjective(index[i], index[j]); }
    }
    forall i | 0 <= i < |out| ensures out[i].name !in reserved && out[i].size == specs[i].size {
      assert Explicit(specs, i) || Auto(specs, i);
      assert forall n :: n in reserved ==> n in Claimed(specs, reserved);
    }
  }

  /** The naming rule leaves no choice: two results for the same specs are the same. */
  lemma {:induction false} NamesAreDetermined(specs: seq<Spec>, reserved: seq<string>, a: seq<Spec>, ai: seq<nat>,
                                                    b: seq<Spec>, bi: seq<nat>, n: nat)
    requires Named(specs, reserved, a, ai) && Named(specs, reserved, b, bi) && n <= |a| && n <= |b|
    ensures a[..n] == b[..n]
    ensures forall i :: 0 <= i < n && Auto(specs, i) ==> ai[i] == bi[i]
  {
    if n > 0 {
      var i := n - 1;
      NamesAreDetermined(specs, reserved, a, ai, b, bi, i);
      if Auto(specs, i) {
        NoSmallerIndex(specs, reserved, a, ai, b, bi, i);
        NoSmallerIndex(specs, reserved, b, bi, a, ai, i);
      } else {
        assert Explicit(specs, i);
      }
      assert a[..n] == a[..i] + [a[i]] && b[..n] == b[..i] + [b[i]];
    }
  }

  lemma NoSmallerIndex(specs: seq<Spec>, reserved: seq<string>, a: seq<Spec>, ai: seq<nat>, b: seq<Spec>, bi: seq<nat>, i: nat)
    requires Named(specs, reserved, a, ai) && Named(specs, reserved, b, bi) && i < |a| && i < |b| && Auto(specs, i)
    requires forall j :: 0 <= j < i && Auto(specs, j) ==> ai[j] == bi[j]
    ensures ai[i] <= bi[i]
  {
    var k := bi[i];
    assert AutoName(k) !in Claimed(specs, reserved);
    forall j | 0 <= j < i ensures ai[j] != k { assert Auto(specs, j) || Explicit(specs, j); }
  }

  // ---- files ---------------------------------------------------------------------------------------------------

  function DiskFile(name: string): string { "data-" + name + ".qcow2" }

  function DataDiskPath(dir: string, name: string): string { dir + "/" + DiskFile(name) }

  /** The first free name, and the file of a disk, as users see them. */
  lemma NamesOnDisk(name: string)
    ensures AutoName(1) == "data1" && AutoName(12) == "data12" && DiskFile("logs") == "data-logs.qcow2"
    ensures HasPrefix(DiskFile(name), "data-") && HasSuffix(DiskFile(name), ".qcow2") && |DiskFile(name)| == |name| + 11
  {
    assert Decimal(12) == Decimal(1) + ['2'] && Decimal(1) == "1";
    assert DiskFile(name)[..5] == "data-" && DiskFile(name)[|name| + 5..] == ".qcow2";
  }

  function DataDiskName(path: string): string { TrimSuffix(TrimPrefix(Base(path), "data-"), ".qcow2") }

  lemma NameReadsBack(dir: string, name: string)
    requires '/' !in name
    ensures DataDiskName(DataDiskPath(dir, name)) == name && Base(DataDiskPath(dir, name)) == DiskFile(name)
  {
    var file := DiskFile(name);
    forall i | 0 <= i < |file| ensures file[i] != '/' {
      if 5 <= i < 5 + |name| { assert file[i] == name[i - 5]; }
    }
    BaseOfFile(dir, file);
    assert file[..5] == "data-" && file[5..] == name + ".qcow2";
    assert (name + ".qcow2")[|name|..] == ".qcow2" && (name + ".qcow2")[..|name|] == name;
  }

  lemma PathInjective(dir: string, a: string, b: string)
    requires '/' !in a && '/' !in b && DataDiskPath(dir, a) == DataDiskPath(dir, b)
    ensures a == b
  {
    NameReadsBack(dir, a);
    NameReadsBack(dir, b);
  }

  /** A record's data disks: at most one file of its own directory for each free port, under distinct names. */
  ghost predicate DisksOf(dir: string, disks: seq<string>, names: seq<string>)
  {
    && |disks| == |names| <= |L.DATA_DISK_PORTS|
    && (forall i :: 0 <= i < |disks| ==> '/' !in names[i] && disks[i] == DataDiskPath(dir, names[i]))
    && (forall i, j :: 0 <= i < j < |names| ==> names[i] != names[j])
  }

  lemma DisksAreDistinct(dir: string, disks: seq<string>, names: seq<string>)
    requires DisksOf(dir, disks, names)
    ensures forall i, j :: 0 <= i < j < |disks| ==> disks[i] != disks[j]
    ensures forall i :: 0 <= i < |disks| ==> DataDiskName(disks[i]) == names[i]
  {
    forall i | 0 <= i < |disks| ensures DataDiskName(disks[i]) == names[i] { NameReadsBack(dir, names[i]); }
  }

  /** The qcow2 files a step wrote, if every one of them succeeded; calm says that no call fails. */
  method CreateDataDisks(dir: string, specs: seq<Spec>, calm: bool) returns (paths: Option<seq<string>>)
    ensures calm ==> paths.Some?
    ensures paths.Some? ==> |paths.value| == |specs|
                            && forall i :: 0 <= i < |specs| ==> paths.value[i] == DataDiskPath(dir, specs[i].name)
  {
    var made: seq<string> := [];
    for i := 0 to |specs|
      invariant |made| == i && forall j :: 0 <= j < i ==> made[j] == DataDiskPath(dir, specs[j].name)
    {
      var ok: bool := *;
      if !ok && !calm { return None; }
      made := made + [DataDiskPath(dir, specs[i].name)];
    }
    paths := Some(made);
  }

  /** A copied disk keeps its file name, and with it its disk name. */
  method CopyDataDisks(dir: string, src: seq<string>, calm: bool) returns (paths: Option<seq<string>>)
    ensures calm ==> paths.Some?
    ensures paths.Some? ==> |paths.value| == |src| && forall i :: 0 <= i < |src| ==> paths.value[i] == dir + "/" + Base(src[i])
  {
    var made: seq<string> := [];
    for i := 0 to |src|
      invariant |made| == i && forall j :: 0 <= j < i ==> made[j] == dir + "/" + Base(src[j])
    {
      var ok: bool := *;
      if !ok && !calm { return None; }
      made := made + [dir + "/" + Base(src[i])];
    }
    paths := Some(made);
  }

  /** What clone does with its source's disks: their names are reserved, then they are copied and new ones created. */
  lemma CloneKeepsDisks(srcDir: string, src: seq<string>, names: seq<string>, dir: string, paths: seq<string>,
                        specs: seq<Spec>, out: seq<Spec>, index: seq<nat>)
    requires DisksOf(srcDir, src, names) && |src| + |out| <= |L.DATA_DISK_PORTS|
    requires Named(specs, seq(|src|, i requires 0 <= i < |src| => DataDiskName(src[i])), out, index)
    requires ExplicitNamesFree(specs, seq(|src|, i requires 0 <= i < |src| => DataDiskName(src[i])))
    requires forall i :: 0 <= i < |out| ==> '/' !in out[i].name
    requires |paths| == |src| + |out|
    requires forall i :: 0 <= i < |src| ==> paths[i] == dir + "/" + Base(src[i])
    requires forall i :: 0 <= i < |out| ==> paths[|src| + i] == DataDiskPath(dir, out[i].name)
    ensures DisksOf(dir, paths, names + seq(|out|, i requires 0 <= i < |out| => out[i].name))
  {
    DisksAreDistinct(srcDir, src, names);
    var reserved := seq(|src|, i requires 0 <= i < |src| => DataDiskName(src[i]));
    assert reserved == names;
    NamesAreDistinctAndFree(specs, reserved, out, index);
    var all := names + seq(|out|, i requires 0 <= i < |out| => out[i].name);
    forall i | 0 <= i < |paths| ensures '/' !in all[i] && paths[i] == DataDiskPath(dir, all[i]) {
      if i < |src| {
        NameReadsBack(srcDir, names[i]);
      } else {
        assert paths[|src| + (i - |src|)] == DataDiskPath(dir, out[i - |src|].name);
      }
    }
  }
}
