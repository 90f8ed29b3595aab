/** Internal snapshots of a VM's qcow2 images: all-or-nothing creation, two-phase restore, and what a tag returns. */
module Snapshots {
  import opened Wrappers
  import opened Text

  type Content = string // what the guest reads on a disk

  datatype Snap = Snap(tag: string, content: Content)

  /** A qcow2 image: its content, and its internal snapshots in the order they were taken. */
  datatype Image = Image(content: Content, snaps: seq<Snap>)

  type Disks = map<Path, Image>

  datatype Record = Record(disk: Path, ovmfVars: Path, dataDisks: seq<Path>, snapshots: seq<string>)

  datatype VM = VM(disks: Disks, rec: Record)

  datatype Error =
    | Running | StopFailed | LaunchFailed | SaveFailed
    | Duplicate | CreateFailed
    | NoSnapshots | InfoFailed | Missing(img: Path) | ApplyFailed(img: Path)

  // ---- qemu-img snapshot ---------------------------------------------------------------------------------------

  /** qemu-img resolves a tag to the oldest snapshot that carries it. */
  function Lookup(snaps: seq<Snap>, tag: string): Option<Content>
  {
    if snaps == [] then None else if snaps[0].tag == tag then Some(snaps[0].content) else Lookup(snaps[1..], tag)
  }

  /** The list after qemu-img -d: the oldest snapshot under the tag is gone. */
  function Drop(snaps: seq<Snap>, tag: string): seq<Snap>
  {
    if snaps == [] then [] else if snaps[0].tag == tag then snaps[1..] else [snaps[0]] + Drop(snaps[1..], tag)
  }

  function Tag(d: Disks, img: Path, tag: string): Disks
  {
    if img in d then d[img := d[img].(snaps := d[img].snaps + [Snap(tag, d[img].content)])] else d
  }

  function Untag(d: Disks, img: Path, tag: string): Disks
  {
    if img in d then d[img := d[img].(snaps := Drop(d[img].snaps, tag))] else d
  }

  function Apply(d: Disks, img: Path, tag: string): Disks
  {
    if img in d && Lookup(d[img].snaps, tag).Some? then d[img := d[img].(content := Lookup(d[img].snaps, tag).value)] else d
  }

  function TagAll(d: Disks, imgs: seq<Path>, tag: string): Disks
  {
    if imgs == [] then d else Tag(TagAll(d, imgs[..|imgs| - 1], tag), imgs[|imgs| - 1], tag)
  }

  /** Untags the created images in turn; deleted says which deletions succeed. */
  function RollBack(d: Disks, created: seq<Path>, tag: string, deleted: seq<bool>): Disks
    requires |created| == |deleted|
  {
    if created == [] then d
    else
      var last := |created| - 1;
      var before := RollBack(d, created[..last], tag, deleted[..last]);
      if deleted[last] then Untag(before, created[last], tag) else before
  }

  function ApplyAll(d: Disks, imgs: seq<Path>, tag: string): Disks
  {
    if imgs == [] then d else Apply(ApplyAll(d, imgs[..|imgs| - 1], tag), imgs[|imgs| - 1], tag)
  }

  /** NVRAM takes part only as qcow2: a raw file cannot hold internal snapshots. */
  predicate IsQcow2NVRAM(path: Path) { HasSuffix(path, ".qcow2") }

  function ImagesToSnapshot(r: Record): seq<Path>
  {
    [r.disk] + (if IsQcow2NVRAM(r.ovmfVars) then [r.ovmfVars] else []) + r.dataDisks
  }

  function Last(tags: seq<string>): string { if tags == [] then "" else tags[|tags| - 1] }

  function TagFor(requested: string, clock: string): string { if requested == "" then "snap-" + clock else requested }

  /** The tag a restore reverts to: by default the last one recorded. */
  function Chosen(r: Record, requested: string): Option<string>
  {
    if requested != "" then Some(requested)
    else if r.snapshots == [] then None
    else Some(r.snapshots[|r.snapshots| - 1])
  }

  // ---- what one command may do ---------------------------------------------------------------------------------

  predicate Carry(d: Disks, imgs: seq<Path>, tag: string)
  {
    forall i :: 0 <= i < |imgs| ==> imgs[i] in d && Lookup(d[imgs[i]].snaps, tag).Some?
  }

  /** The guest writes its disks; it neither takes nor drops internal snapshots. */
  ghost predicate GuestWrites(a: Disks, b: Disks)
  {
    a.Keys == b.Keys && forall p :: p in a ==> a[p].snaps == b[p].snaps
  }

  ghost predicate PartlyTagged(a: Disks, imgs: seq<Path>, tag: string, deleted: seq<bool>, b: Disks)
  {
    var k := |deleted|;
    k < |imgs| && b == RollBack(TagAll(a, imgs[..k], tag), imgs[..k], tag, deleted)
  }

  ghost predicate Wrote(a: VM, b: VM) { a.rec == b.rec && GuestWrites(a.disks, b.disks) }

  ghost predicate Snapped(a: VM, tag: string, b: VM)
  {
    && tag !in a.rec.snapshots
    && (forall p :: p in ImagesToSnapshot(a.rec) ==> p in a.disks)
    && b == VM(TagAll(a.disks, ImagesToSnapshot(a.rec), tag), a.rec.(snapshots := a.rec.snapshots + [tag]))
  }

  /** The images are tagged, but the record write failed. */
  ghost predicate SnappedUnsaved(a: VM, tag: string, b: VM)
  {
    tag !in a.rec.snapshots && b == VM(TagAll(a.disks, ImagesToSnapshot(a.rec), tag), a.rec)
  }

  ghost predicate SnapFailed(a: VM, tag: string, deleted: seq<bool>, b: VM)
  {
    tag !in a.rec.snapshots && b.rec == a.rec && PartlyTagged(a.disks, ImagesToSnapshot(a.rec), tag, deleted, b.disks)
  }

  ghost predicate Restored(a: VM, tag: string, b: VM)
  {
    && Carry(a.disks, ImagesToSnapshot(a.rec), tag)
    && b == VM(ApplyAll(a.disks, ImagesToSnapshot(a.rec), tag), a.rec)
  }

  /** qemu-img failed on image k after the ones before it were reverted. */
  ghost predicate RestoreBroke(a: VM, tag: string, k: nat, b: VM)
  {
    && k < |ImagesToSnapshot(a.rec)| && Carry(a.disks, ImagesToSnapshot(a.rec), tag)
    && b == VM(ApplyAll(a.disks, ImagesToSnapshot(a.rec)[..k], tag), a.rec)
  }

  ghost predicate Restorable(vm: VM, requested: string)
  {
    Chosen(vm.rec, requested).Some? && Carry(vm.disks, ImagesToSnapshot(vm.rec), Chosen(vm.rec, requested).value)
  }

  ghost predicate SomeImageMissing(vm: VM) { exists p :: p in ImagesToSnapshot(vm.rec) && p !in vm.disks }

  /** The images and the record of one VM, as snapshot and restore work on them. */
  class Images {
    const calm: bool // no external call fails
    var disks: Disks
    var rec: Record // vm.json

    ghost function Now(): VM reads this { VM(disks, rec) }

    constructor (disks: Disks, rec: Record, calm: bool)
      ensures Now() == VM(disks, rec) && this.calm == calm
    {
      this.disks, this.rec, this.calm := disks, rec, calm;
    }

    method Call() returns (ok: bool)
      ensures calm ==> ok
    {
      ok := *;
      if calm { ok := true; }
    }

    method SnapCreate(img: Path, tag: string) returns (ok: bool)
      modifies `disks
      ensures ok ==> img in old(disks) && disks == Tag(old(disks), img, tag)
      ensures !ok ==> disks == old(disks) && (calm ==> img !in disks)
    {
      ok := Call();
      ok := ok && img in disks;
      if ok { disks := disks[img := disks[img].(snaps := disks[img].snaps + [Snap(tag, disks[img].content)])]; }
    }

    method SnapApply(img: Path, tag: string) returns (ok: bool)
      modifies `disks
      ensures ok ==> img in old(disks) && Lookup(old(disks)[img].snaps, tag).Some? && disks == Apply(old(disks), img, tag)
      ensures !ok ==> disks == old(disks) && (calm ==> img !in disks || Lookup(disks[img].snaps, tag).None?)
    {
      ok := Call();
      ok := ok && img in disks && Lookup(disks[img].snaps, tag).Some?;
      if ok { disks := disks[img := disks[img].(content := Lookup(disks[img].snaps, tag).value)]; }
    }

    method SnapDelete(img: Path, tag: string) returns (ok: bool)
      modifies `disks
      ensures disks == (if ok then Untag(old(disks), img, tag) else old(disks)) && (calm ==> ok)
    {
      ok := Call();
      if ok && img in disks { disks := disks[img := disks[img].(snaps := Drop(disks[img].snaps, tag))]; }
    }

    method SnapExists(img: Path, tag: string) returns (r: Result<bool, Error>)
      ensures r.Ok? ==> (r.value <==> img in disks && Lookup(disks[img].snaps, tag).Some?)
      ensures r.Err? ==> r.error == InfoFailed && !calm
    {
      var readable := Call();
      if !readable { return Err(InfoFailed); }
      r := Ok(img in disks && Lookup(disks[img].snaps, tag).Some?);
    }

    method SaveRec(r: Record) returns (ok: bool)
      modifies `rec
      ensures rec == (if ok then r else old(rec)) && (calm ==> ok)
    {
      ok := Call();
      if ok { rec := r; }
    }

    /** Tags every image, or deletes the tag again from the ones already done. */
    method SnapshotAllOrNothing(imgs: seq<Path>, tag: string) returns (ok: bool, ghost deleted: seq<bool>)
      modifies `disks
      ensures ok ==> disks == TagAll(old(disks), imgs, tag) && forall p :: p in imgs ==> p in old(disks)
      ensures !ok ==> PartlyTagged(old(disks), imgs, tag, deleted, disks)
      ensures calm && !ok ==> (forall j :: 0 <= j < |deleted| ==> deleted[j]) && imgs[|deleted|] !in old(disks)
    {
      var created: seq<Path> := [];
      for i := 0 to |imgs|
        invariant created == imgs[..i] && disks == TagAll(old(disks), created, tag) && disks.Keys == old(disks).Keys
        invariant forall p :: p in created ==> p in old(disks)
      {
        var done := SnapCreate(imgs[i], tag);
        if !done {
          deleted := [];
          ghost var tagged := disks;
          for j := 0 to |created|
            invariant |deleted| == j && disks == RollBack(tagged, created[..j], tag, deleted)
            invariant calm ==> forall l :: 0 <= l < j ==> deleted[l]
          {
            var gone := SnapDelete(created[j], tag);
            deleted := deleted + [gone];
            assert created[..j + 1][..j] == created[..j] && deleted[..j] + [gone] == deleted;
          }
          assert created[..|created|] == created;
          return false, deleted;
        }
        created := created + [imgs[i]];
        assert imgs[..i + 1][..i] == imgs[..i];
      }
      assert imgs[..|imgs|] == imgs;
      ok, deleted := true, [];
    }

    method Snapshot(requested: string, clock: string, running: bool) returns (r: Result<string, Error>, ghost deleted: seq<bool>)
      modifies this
      ensures r == Err(Running) <==> running
      ensures r.Ok? ==> r.value == (if requested != "" then requested else "snap-" + clock) && Snapped(old(Now()), r.value, Now())
      ensures !running && TagFor(requested, clock) in old(rec).snapshots ==> r == Err(Duplicate)
      ensures r.Err? && calm ==> r.error.Running? || r.error.Duplicate? || (r.error.CreateFailed? && SomeImageMissing(old(Now())))
      ensures r == Err(SaveFailed) ==> SnappedUnsaved(old(Now()), TagFor(requested, clock), Now())
      ensures r == Err(CreateFailed) ==> SnapFailed(old(Now()), TagFor(requested, clock), deleted, Now())
      ensures r == Err(Duplicate) ==> TagFor(requested, clock) in old(rec).snapshots
      ensures r.Err? && r.error != SaveFailed && r.error != CreateFailed ==> Now() == old(Now())
    {
      var tag := TagFor(requested, clock);
      var rec0 := rec;
      deleted := [];
      if running { return Err(Running), deleted; }
      if tag in rec0.snapshots { return Err(Duplicate), deleted; }
      var ok;
      ok, deleted := SnapshotAllOrNothing(ImagesToSnapshot(rec0), tag);
      if !ok { return Err(CreateFailed), deleted; }
      rec0 := rec0.(snapshots := rec0.snapshots + [tag]);
      var saved := SaveRec(rec0);
      r := if saved then Ok(tag) else Err(SaveFailed);
    }

    /** Whether every image carries the tag; the first that does not, or cannot be read, is the error. */
    method CheckAll(imgs: seq<Path>, tag: string) returns (r: Option<Error>)
      ensures r.None? ==> Carry(disks, imgs, tag)
      ensures r.Some? ==> (r.value.InfoFailed? && !calm) || (r.value.Missing? && !Carry(disks, imgs, tag))
    {
      for i := 0 to |imgs|
        invariant Carry(disks, imgs[..i], tag)
      {
        var has := SnapExists(imgs[i], tag);
        if has.Err? { return Some(has.error); }
        if !has.value { return Some(Missing(imgs[i])); }
      }
      assert imgs[..|imgs|] == imgs;
      r := None;
    }

    /** Reverts the images in turn; done counts those reverted before an error. */
    method ApplyEach(imgs: seq<Path>, tag: string) returns (r: Option<Error>, ghost done: nat)
      modifies `disks
      ensures r.None? ==> disks == ApplyAll(old(disks), imgs, tag)
      ensures r.Some? ==> r.value.ApplyFailed? && done < |imgs| && disks == ApplyAll(old(disks), imgs[..done], tag)
      ensures r.Some? && calm ==> !Carry(old(disks), imgs, tag)
    {
      for i := 0 to |imgs|
        invariant disks == ApplyAll(old(disks), imgs[..i], tag) && GuestWrites(old(disks), disks)
      {
        var ok := SnapApply(imgs[i], tag);
        if !ok { return Some(ApplyFailed(imgs[i])), i; }
        assert imgs[..i + 1][..i] == imgs[..i];
      }
      assert imgs[..|imgs|] == imgs;
      r, done := None, |imgs|;
    }

    /** Restore with the VM offline: every image is checked for the tag before any is reverted. */
    method RestoreOffline(requested: string) returns (r: Result<string, Error>, ghost done: nat)
      modifies `disks
      ensures r.Ok? ==> Chosen(rec, requested) == Some(r.value) && Restored(old(Now()), r.value, Now())
      ensures r.Ok? ==> if requested != "" then r.value == requested else rec.snapshots != [] && r.value == rec.snapshots[|rec.snapshots| - 1]
      ensures calm && Restorable(old(Now()), requested) ==> r.Ok?
      ensures calm && r.Err? ==> r.error.NoSnapshots? || r.error.Missing?
      ensures r == Err(NoSnapshots) ==> Chosen(rec, requested).None?
      ensures r.Err? && r.error != NoSnapshots ==> Chosen(rec, requested).Some?
      ensures r.Err? && r.error.Missing? ==> !Carry(old(disks), ImagesToSnapshot(rec), Chosen(rec, requested).value)
      ensures r.Err? && r.error.ApplyFailed? ==> RestoreBroke(old(Now()), Chosen(rec, requested).value, done, Now())
      ensures r.Err? && !r.error.ApplyFailed? ==> Now() == old(Now())
      ensures r.Err? ==> r.error.NoSnapshots? || r.error.InfoFailed? || r.error.Missing? || r.error.ApplyFailed?
    {
      var tag := requested;
      done := 0;
      if tag == "" {
        if |rec.snapshots| == 0 { return Err(NoSnapshots), done; }
        tag := rec.snapshots[|rec.snapshots| - 1];
      }
      var imgs := ImagesToSnapshot(rec);
      var bad := CheckAll(imgs, tag);
      if bad.Some? { return Err(bad.value), done; }
      bad, done := ApplyEach(imgs, tag);
      r := if bad.Some? then Err(bad.value) else Ok(tag);
    }

    /** A forced restore stops the guest first, which may flush its disks, and relaunches it afterwards. */
    method Restore(requested: string, running: bool, force: bool) returns (r: Result<string, Error>, ghost offline: VM, ghost done: nat)
      modifies this
      ensures r == Err(Running) <==> running && !force
      ensures r == Err(StopFailed) || r == Err(LaunchFailed) ==> running && force && !calm
      ensures r == Err(SaveFailed) || r == Err(InfoFailed) || (r.Err? && r.error.ApplyFailed?) ==> !calm
      ensures Wrote(old(Now()), offline) && (!running || !force ==> offline == old(Now()))
      ensures r.Ok? ==> r.value == if requested != "" then requested else Last(offline.rec.snapshots)
      ensures r == Err(NoSnapshots) ==> requested == "" && offline.rec.snapshots == []
      ensures calm && (running ==> force) && Restorable(offline, requested) ==> r.Ok?
      ensures (r.Ok? || r == Err(LaunchFailed) || (r == Err(SaveFailed) && !running)) ==>
                Chosen(offline.rec, requested).Some? && Restored(offline, Chosen(offline.rec, requested).value, Now())
      ensures r.Err? && r.error.ApplyFailed? ==>
                Chosen(offline.rec, requested).Some? && RestoreBroke(offline, Chosen(offline.rec, requested).value, done, Now())
      ensures r.Err? && r.error.Missing? ==>
                Chosen(offline.rec, requested).Some?
                && !Carry(offline.disks, ImagesToSnapshot(offline.rec), Chosen(offline.rec, requested).value)
      ensures r.Err? && !r.error.ApplyFailed? && r.error != LaunchFailed && !(r.error == SaveFailed && !running) ==> Now() == offline
    {
      offline, done := Now(), 0;
      if running {
        if !force { return Err(Running), offline, done; }
        GuestShutdown();
        offline := Now();
        var stopped := Call();
        if !stopped { return Err(StopFailed), offline, done; }
        var cleared := SaveRec(rec);
        if !cleared { return Err(SaveFailed), offline, done; }
      }
      r, done := RestoreOffline(requested);
      if r.Err? { return r, offline, done; }
      if running {
        var launched := Call();
        if !launched { r := Err(LaunchFailed); }
      } else {
        var saved := SaveRec(rec);
        if !saved { r := Err(SaveFailed); }
      }
    }

    /** Until it exits, the guest may write any of its disks. */
    method GuestShutdown()
      modifies `disks
      ensures GuestWrites(old(disks), disks)
    {
      var todo := disks.Keys;
      while todo != {}
        invariant GuestWrites(old(disks), disks) && todo <= disks.Keys
      {
        var p :| p in todo;
        var content := *;
        disks := disks[p := disks[p].(content := content)];
        todo := todo - {p};
      }
    }
  }
}
