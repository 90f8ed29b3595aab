/** What a snapshot tag returns after any history of the VM, and when it returns something else. */
module History {
  import opened Wrappers
  import opened Text
  import opened Snapshots

  // ---- one image -------------------------------------------------------------------------------------------------

  function Count(imgs: seq<Path>, p: Path): nat
  {
    if imgs == [] then 0 else Count(imgs[..|imgs| - 1], p) + (if imgs[|imgs| - 1] == p then 1 else 0)
  }

  function Copies(x: Snap, n: nat): seq<Snap> { if n == 0 then [] else Copies(x, n - 1) + [x] }

  lemma {:induction false} LookupAppend(s: seq<Snap>, x: Snap, t: string)
    ensures Lookup(s + [x], t) == if Lookup(s, t).Some? then Lookup(s, t) else if x.tag == t then Some(x.content) else None
  {
    if s != [] {
      assert (s + [x])[1..] == s[1..] + [x];
      LookupAppend(s[1..], x, t);
    } else {
      assert s + [x] == [x] && [x][1..] == [];
    }
  }

  lemma {:induction false} LookupAfterDrop(s: seq<Snap>, tag: string, t: string)
    requires t != tag
    ensures Lookup(Drop(s, tag), t) == Lookup(s, t)
  {
    if s != [] && s[0].tag != tag {
      LookupAfterDrop(s[1..], tag, t);
      assert Drop(s, tag)[1..] == Drop(s[1..], tag);
    }
  }

  lemma {:induction false} DropAbsent(s: seq<Snap>, x: Snap, rest: seq<Snap>)
    requires Lookup(s, x.tag).None?
    ensures Drop(s + [x] + rest, x.tag) == s + rest
  {
    if s == [] {
      assert s + [x] + rest == [x] + rest;
    } else {
      assert (s + [x] + rest)[1..] == s[1..] + [x] + rest;
      DropAbsent(s[1..], x, rest);
    }
  }

  lemma {:induction false} CopiesShift(x: Snap, n: nat)
    requires n > 0
    ensures Copies(x, n) == [x] + Copies(x, n - 1)
  {
    if n > 1 {
      CopiesShift(x, n - 1);
      assert [x] + Copies(x, n - 2) + [x] == [x] + (Copies(x, n - 2) + [x]);
    }
  }

  lemma {:induction false} LookupCopies(s: seq<Snap>, x: Snap, n: nat, t: string)
    ensures Lookup(s, t).Some? || t != x.tag || n == 0 ==> Lookup(s + Copies(x, n), t) == Lookup(s, t)
    ensures Lookup(s, t).None? && t == x.tag && n > 0 ==> Lookup(s + Copies(x, n), t) == Some(x.content)
  {
    if n == 0 {
      assert s + [] == s;
    } else {
      LookupCopies(s, x, n - 1, t);
      LookupAppend(s + Copies(x, n - 1), x, t);
      assert s + Copies(x, n) == s + Copies(x, n - 1) + [x];
    }
  }

  lemma {:induction false} TagAllImage(d: Disks, imgs: seq<Path>, tag: string, p: Path)
    requires p in d
    ensures TagAll(d, imgs, tag).Keys == d.Keys
    ensures TagAll(d, imgs, tag)[p] == Image(d[p].content, d[p].snaps + Copies(Snap(tag, d[p].content), Count(imgs, p)))
  {
    if imgs != [] {
      TagAllImage(d, imgs[..|imgs| - 1], tag, p);
      if imgs[|imgs| - 1] == p {
        var x, n := Snap(tag, d[p].content), Count(imgs, p);
        assert d[p].snaps + Copies(x, n - 1) + [x] == d[p].snaps + Copies(x, n);
      }
    } else {
      assert d[p].snaps + [] == d[p].snaps;
    }
  }

  lemma {:induction false} CountIn(imgs: seq<Path>, p: Path)
    ensures Count(imgs, p) > 0 <==> p in imgs
  {
    if imgs != [] {
      CountIn(imgs[..|imgs| - 1], p);
      assert imgs == imgs[..|imgs| - 1] + [imgs[|imgs| - 1]];
    }
  }

  lemma {:induction false} RollBackImage(d: Disks, created: seq<Path>, tag: string, deleted: seq<bool>, p: Path, t: string)
    requires p in d && |created| == |deleted|
    ensures RollBack(d, created, tag, deleted).Keys == d.Keys
    ensures RollBack(d, created, tag, deleted)[p].content == d[p].content
    ensures t != tag ==> Lookup(RollBack(d, created, tag, deleted)[p].snaps, t) == Lookup(d[p].snaps, t)
  {
    if created != [] {
      var last := |created| - 1;
      RollBackImage(d, created[..last], tag, deleted[..last], p, t);
      if t != tag { LookupAfterDrop(RollBack(d, created[..last], tag, deleted[..last])[p].snaps, tag, t); }
    }
  }

  lemma ApplyImage(d: Disks, img: Path, tag: string, p: Path)
    requires p in d
    ensures Apply(d, img, tag).Keys == d.Keys && Apply(d, img, tag)[p].snaps == d[p].snaps
    ensures Apply(d, img, tag)[p].content ==
            if p == img && Lookup(d[p].snaps, tag).Some? then Lookup(d[p].snaps, tag).value else d[p].content
  {
  }

  lemma {:induction false} ApplyAllImage(d: Disks, imgs: seq<Path>, tag: string, p: Path)
    requires p in d
    ensures ApplyAll(d, imgs, tag).Keys == d.Keys && ApplyAll(d, imgs, tag)[p].snaps == d[p].snaps
    ensures p in imgs && Lookup(d[p].snaps, tag).Some? ==> ApplyAll(d, imgs, tag)[p].content == Lookup(d[p].snaps, tag).value
    ensures p !in imgs ==> ApplyAll(d, imgs, tag)[p] == d[p]
  {
    if imgs != [] {
      var k := |imgs| - 1;
      ApplyAllImage(d, imgs[..k], tag, p);
      ApplyImage(ApplyAll(d, imgs[..k], tag), imgs[k], tag, p);
      assert p in imgs <==> p in imgs[..k] || p == imgs[k] by { assert imgs == imgs[..k] + [imgs[k]]; }
    }
  }

  // ---- a failed snapshot ---------------------------------------------------------------------------------------------

  /** No image of the VM holds the tag. */
  ghost predicate Fresh(d: Disks, imgs: seq<Path>, tag: string)
  {
    forall p :: p in imgs && p in d ==> Lookup(d[p].snaps, tag).None?
  }

  ghost predicate AllTrue(b: seq<bool>) { forall i :: 0 <= i < |b| ==> b[i] }

  /** Undoing the first j tags of a fresh image leaves the copies the other images' turns still owe. */
  lemma {:induction false} RollBackCopies(d: Disks, created: seq<Path>, tag: string, deleted: seq<bool>, p: Path, s: seq<Snap>, n: nat)
    requires p in d && |created| == |deleted| && AllTrue(deleted) && Count(created, p) <= n
    requires Lookup(s, tag).None? && d[p].snaps == s + Copies(Snap(tag, d[p].content), n)
    ensures RollBack(d, created, tag, deleted).Keys == d.Keys
    ensures RollBack(d, created, tag, deleted)[p] == Image(d[p].content, s + Copies(Snap(tag, d[p].content), n - Count(created, p)))
  {
    var x := Snap(tag, d[p].content);
    if created != [] {
      var last := |created| - 1;
      RollBackCopies(d, created[..last], tag, deleted[..last], p, s, n);
      if created[last] == p {
        var m := n - Count(created[..last], p);
        CopiesShift(x, m);
        assert s + Copies(x, m) == s + [x] + Copies(x, m - 1);
        DropAbsent(s, x, Copies(x, m - 1));
      }
    }
  }

  /** A failed snapshot whose rollback succeeds changes nothing, provided no image already held the tag. */
  lemma CleanFailureIsNoChange(a: VM, tag: string, deleted: seq<bool>, b: VM)
    requires SnapFailed(a, tag, deleted, b) && AllTrue(deleted) && Fresh(a.disks, ImagesToSnapshot(a.rec), tag)
    ensures b == a
  {
    var created := ImagesToSnapshot(a.rec)[..|deleted|];
    var tagged := TagAll(a.disks, created, tag);
    if a.disks.Keys == {} {
      TagAllEmpty(a.disks, created, tag);
      RollBackEmpty(a.disks, created, tag, deleted);
    }
    forall p | p in a.disks ensures b.disks.Keys == a.disks.Keys && b.disks[p] == a.disks[p] {
      TagAllImage(a.disks, created, tag, p);
      CountIn(created, p);
      var s := a.disks[p].snaps;
      if p in created {
        RollBackCopies(tagged, created, tag, deleted, p, s, Count(created, p));
      } else {
        RollBackElsewhere(tagged, created, tag, deleted, p);
      }
      assert s + Copies(Snap(tag, a.disks[p].content), 0) == s;
    }
    if p :| p in a.disks { assert b.disks == a.disks; }
  }

  lemma {:induction false} TagAllEmpty(d: Disks, imgs: seq<Path>, tag: string)
    requires d == map[]
    ensures TagAll(d, imgs, tag) == map[]
  {
    if imgs != [] { TagAllEmpty(d, imgs[..|imgs| - 1], tag); }
  }

  lemma {:induction false} RollBackEmpty(d: Disks, created: seq<Path>, tag: string, deleted: seq<bool>)
    requires d == map[] && |created| == |deleted|
    ensures RollBack(d, created, tag, deleted) == map[]
  {
    if created != [] { RollBackEmpty(d, created[..|created| - 1], tag, deleted[..|deleted| - 1]); }
  }

  lemma {:induction false} RollBackElsewhere(d: Disks, created: seq<Path>, tag: string, deleted: seq<bool>, p: Path)
    requires p in d && p !in created && |created| == |deleted|
    ensures RollBack(d, created, tag, deleted).Keys == d.Keys && RollBack(d, created, tag, deleted)[p] == d[p]
  {
    if created != [] {
      var last := |created| - 1;
      assert created == created[..last] + [created[last]];
      RollBackElsewhere(d, created[..last], tag, deleted[..last], p);
    }
  }

  /** From the oldest snapshot under x's tag on, the list holds nothing but x. */
  predicate Settled(s: seq<Snap>, x: Snap)
  {
    if s == [] then true else if s[0].tag == x.tag then (forall i :: 0 <= i < |s| ==> s[i] == x) else Settled(s[1..], x)
  }

  lemma {:induction false} ConstantIsShiftInvariant(s: seq<Snap>, x: Snap)
    requires |s| > 0
    ensures s[1..] + [x] == s <==> forall i :: 0 <= i < |s| ==> s[i] == x
  {
    if s[1..] + [x] == s {
      var i := |s| - 1;
      while i > 0
        invariant 0 <= i < |s| && forall j :: i <= j < |s| ==> s[j] == x
      {
        assert (s[1..] + [x])[i - 1] == s[i];
        i := i - 1;
      }
    }
  }

  lemma {:induction false} DropUndoesAppendExactlyWhen(s: seq<Snap>, x: Snap)
    ensures Drop(s + [x], x.tag) == s <==> Settled(s, x)
  {
    if s == [] {
      assert s + [x] == [x];
    } else {
      assert (s + [x])[1..] == s[1..] + [x];
      if s[0].tag == x.tag {
        ConstantIsShiftInvariant(s, x);
      } else {
        DropUndoesAppendExactlyWhen(s[1..], x);
        assert Drop(s + [x], x.tag) == [s[0]] + Drop(s[1..] + [x], x.tag);
        assert s == [s[0]] + s[1..];
        assert Drop(s + [x], x.tag)[1..] == Drop(s[1..] + [x], x.tag);
      }
    }
  }

  /** What n deletions of a tag leave. */
  function Drops(s: seq<Snap>, tag: string, n: nat): seq<Snap> { if n == 0 then s else Drop(Drops(s, tag, n - 1), tag) }

  /** What a tagging and its deletion make of an image's list, n times over. */
  function Turns(s: seq<Snap>, x: Snap, n: nat): seq<Snap>
    decreases n
  {
    if n == 0 then s else Turns(Drop(s + [x], x.tag), x, n - 1)
  }

  lemma {:induction false} DropsFirst(s: seq<Snap>, tag: string, n: nat)
    requires n > 0
    ensures Drops(s, tag, n) == Drops(Drop(s, tag), tag, n - 1)
  {
    if n > 1 { DropsFirst(s, tag, n - 1); }
  }

  lemma {:induction false} DropWithin(s: seq<Snap>, x: Snap, rest: seq<Snap>)
    ensures Drop(s + [x] + rest, x.tag) == Drop(s + [x], x.tag) + rest
  {
    var u := s + [x];
    if s == [] {
      assert u + rest == [x] + rest && u == [x];
    } else {
      assert (u + rest)[1..] == s[1..] + [x] + rest && u[1..] == s[1..] + [x];
      DropWithin(s[1..], x, rest);
    }
  }

  /** Tagging an image n times and then deleting n times is as good as deleting after each tagging. */
  lemma {:induction false} DropsAfterCopies(s: seq<Snap>, x: Snap, n: nat)
    ensures Drops(s + Copies(x, n), x.tag, n) == Turns(s, x, n)
    decreases n
  {
    if n == 0 {
      assert s + [] == s;
    } else {
      CopiesShift(x, n);
      assert s + Copies(x, n) == s + [x] + Copies(x, n - 1);
      DropWithin(s, x, Copies(x, n - 1));
      DropsFirst(s + Copies(x, n), x.tag, n);
      DropsAfterCopies(Drop(s + [x], x.tag), x, n - 1);
    }
  }

  /** Where the first snapshot under another tag is. */
  function Lead(s: seq<Snap>, tag: string): nat { if s == [] || s[0].tag != tag then 0 else 1 + Lead(s[1..], tag) }

  lemma {:induction false} LeadAppend(s: seq<Snap>, x: Snap)
    ensures Lead(s, x.tag) <= |s|
    ensures Lead(s + [x], x.tag) == if Lead(s, x.tag) < |s| then Lead(s, x.tag) else |s| + 1
  {
    if s != [] {
      assert (s + [x])[1..] == s[1..] + [x];
      LeadAppend(s[1..], x);
    }
  }

  /** One turn brings a snapshot under another tag one place forward, until it is first. */
  lemma TurnLeads(s: seq<Snap>, x: Snap)
    requires s != []
    ensures |Drop(s + [x], x.tag)| == |s|
    ensures Lead(s, x.tag) < |s| ==> Lead(Drop(s + [x], x.tag), x.tag) == if Lead(s, x.tag) == 0 then 0 else Lead(s, x.tag) - 1
  {
    LeadAppend(s, x);
    assert (s + [x])[0] == s[0];
    if s[0].tag != x.tag {
      assert (s + [x])[|s|].tag == x.tag;
      DropShortens(s + [x], x.tag);
    }
  }

  lemma {:induction false} DropShortens(s: seq<Snap>, tag: string)
    requires exists i :: 0 <= i < |s| && s[i].tag == tag
    ensures |Drop(s, tag)| == |s| - 1
  {
    if s[0].tag != tag {
      var i :| 0 <= i < |s| && s[i].tag == tag;
      assert s[1..][i - 1].tag == tag;
      DropShortens(s[1..], tag);
    }
  }

  lemma {:induction false} TurnsLead(s: seq<Snap>, x: Snap, n: nat)
    requires s != [] && Lead(s, x.tag) < |s|
    ensures Lead(Turns(s, x, n), x.tag) == if Lead(s, x.tag) <= n then 0 else Lead(s, x.tag) - n
    decreases n
  {
    if n > 0 {
      TurnLeads(s, x);
      TurnsLead(Drop(s + [x], x.tag), x, n - 1);
    }
  }

  lemma {:induction false} TurnsBehind(c: Snap, s: seq<Snap>, x: Snap, n: nat)
    requires c.tag != x.tag
    ensures Turns([c] + s, x, n) == [c] + Turns(s, x, n)
    decreases n
  {
    if n > 0 {
      assert ([c] + s + [x])[1..] == s + [x];
      TurnsBehind(c, Drop(s + [x], x.tag), x, n - 1);
    }
  }

  predicate EndsIn(s: seq<Snap>, x: Snap, k: int) { forall i :: 0 <= i < |s| && k <= i ==> s[i] == x }

  lemma {:induction false} AllTagged(s: seq<Snap>, tag: string)
    ensures Lead(s, tag) == |s| ==> forall i :: 0 <= i < |s| ==> s[i].tag == tag
  {
    if s != [] && s[0].tag == tag {
      AllTagged(s[1..], tag);
      assert forall i :: 1 <= i < |s| ==> s[i] == s[1..][i - 1];
    }
  }

  /** In a list under the tag alone each turn adds one x at the end. */
  lemma {:induction false} TurnsShift(s: seq<Snap>, x: Snap, n: nat, k: int)
    requires (forall i :: 0 <= i < |s| ==> s[i].tag == x.tag) && EndsIn(s, x, k) && s != []
    ensures EndsIn(Turns(s, x, n), x, k - n)
    decreases n
  {
    if n > 0 {
      var t := Drop(s + [x], x.tag);
      assert (s + [x])[0] == s[0] && t == (s + [x])[1..];
      TurnsShift(t, x, n - 1, k - 1);
    }
  }

  lemma {:induction false} CycleEndsIn(s: seq<Snap>, x: Snap, n: nat, k: nat)
    requires (forall i :: 0 <= i < |s| ==> s[i].tag == x.tag) && EndsIn(s, x, k) && s != [] && n > 0 && Turns(s, x, n) == s
    ensures EndsIn(s, x, 0)
  {
    if k > 0 {
      TurnsShift(s, x, n, k);
      CycleEndsIn(s, x, n, k - 1);
    }
  }

  lemma {:induction false} SettledTurns(s: seq<Snap>, x: Snap, n: nat)
    requires Settled(s, x)
    ensures Turns(s, x, n) == s
  {
    if n > 0 {
      DropUndoesAppendExactlyWhen(s, x);
      SettledTurns(s, x, n - 1);
    }
  }

  /** However often an image was tagged, its rollback gives the list back under the same condition. */
  lemma {:induction false} TurnsReturnExactlyWhen(s: seq<Snap>, x: Snap, n: nat)
    requires n > 0
    ensures Turns(s, x, n) == s <==> Settled(s, x)
  {
    if Settled(s, x) {
      SettledTurns(s, x, n);
    } else if s[0].tag != x.tag {
      assert s == [s[0]] + s[1..];
      TurnsBehind(s[0], s[1..], x, n);
      TurnsReturnExactlyWhen(s[1..], x, n);
    } else if Lead(s, x.tag) < |s| {
      TurnsLead(s, x, n);
    } else if Turns(s, x, n) == s {
      LeadAppend(s, x);
      AllTagged(s, x.tag);
      CycleEndsIn(s, x, n, |s|);
    }
  }

  lemma {:induction false} RollBackDrops(d: Disks, created: seq<Path>, tag: string, deleted: seq<bool>, p: Path)
    requires p in d && |created| == |deleted| && AllTrue(deleted)
    ensures RollBack(d, created, tag, deleted).Keys == d.Keys
    ensures RollBack(d, created, tag, deleted)[p] == d[p].(snaps := Drops(d[p].snaps, tag, Count(created, p)))
  {
    if created != [] {
      var last := |created| - 1;
      RollBackDrops(d, created[..last], tag, deleted[..last], p);
    }
  }

  /**
   Without freshness the rollback deletes an image's older snapshots under the tag and keeps the new ones; the images come
   back unchanged, listed once or repeatedly, exactly when on each image already tagged everything from its oldest snapshot
   under the tag on equals the new one.
   */
  lemma CleanFailureIsNoChangeExactlyWhen(a: VM, tag: string, deleted: seq<bool>, b: VM)
    requires SnapFailed(a, tag, deleted, b) && AllTrue(deleted)
    ensures b == a <==> forall p :: p in ImagesToSnapshot(a.rec)[..|deleted|] && p in a.disks ==>
                          Settled(a.disks[p].snaps, Snap(tag, a.disks[p].content))
  {
    var created := ImagesToSnapshot(a.rec)[..|deleted|];
    var tagged := TagAll(a.disks, created, tag);
    if a.disks.Keys == {} {
      TagAllEmpty(a.disks, created, tag);
      RollBackEmpty(a.disks, created, tag, deleted);
    }
    forall p | p in a.disks
      ensures b.disks.Keys == a.disks.Keys
      ensures b.disks[p] == a.disks[p] <==> p !in created || Settled(a.disks[p].snaps, Snap(tag, a.disks[p].content))
    {
      var x, n := Snap(tag, a.disks[p].content), Count(created, p);
      TagAllImage(a.disks, created, tag, p);
      CountIn(created, p);
      RollBackDrops(tagged, created, tag, deleted, p);
      DropsAfterCopies(a.disks[p].snaps, x, n);
      if n > 0 { TurnsReturnExactlyWhen(a.disks[p].snaps, x, n); }
    }
    if forall p :: p in a.disks ==> b.disks[p] == a.disks[p] {
      if p :| p in a.disks { assert b.disks == a.disks; }
    }
  }

  // ---- histories -----------------------------------------------------------------------------------------------------

  /** Anything one command or the guest may do to the VM's images. */
  ghost predicate Evolves(a: VM, b: VM)
  {
    || Wrote(a, b)
    || (exists tag :: Snapped(a, tag, b))
    || (exists tag :: SnappedUnsaved(a, tag, b))
    || (exists tag, deleted :: SnapFailed(a, tag, deleted, b))
    || (exists tag :: Restored(a, tag, b))
    || (exists tag, k :: RestoreBroke(a, tag, k, b))
  }

  /** Tag t, once recorded, stands on every image for the content the image had in d0. */
  ghost predicate Stands(d0: Disks, t: string, v: VM)
  {
    && t in v.rec.snapshots
    && forall p :: p in ImagesToSnapshot(v.rec) ==>
         p in d0 && p in v.disks && Lookup(v.disks[p].snaps, t) == Some(d0[p].content)
  }

  predicate SameImages(a: VM, b: VM) { a.rec.(snapshots := []) == b.rec.(snapshots := []) }

  lemma TaggingStands(d0: Disks, t: string, a: VM, tag: string, b: VM)
    requires Stands(d0, t, a) && SameImages(a, b) && t in b.rec.snapshots
    requires b.disks == TagAll(a.disks, ImagesToSnapshot(a.rec), tag)
    ensures Stands(d0, t, b)
  {
    forall p | p in ImagesToSnapshot(b.rec) ensures p in b.disks && Lookup(b.disks[p].snaps, t) == Lookup(a.disks[p].snaps, t) {
      TagAllImage(a.disks, ImagesToSnapshot(a.rec), tag, p);
      LookupCopies(a.disks[p].snaps, Snap(tag, a.disks[p].content), Count(ImagesToSnapshot(a.rec), p), t);
    }
  }

  lemma FailureStands(d0: Disks, t: string, a: VM, tag: string, deleted: seq<bool>, b: VM)
    requires Stands(d0, t, a) && SnapFailed(a, tag, deleted, b)
    ensures Stands(d0, t, b)
  {
    var created := ImagesToSnapshot(a.rec)[..|deleted|];
    forall p | p in ImagesToSnapshot(b.rec) ensures p in b.disks && Lookup(b.disks[p].snaps, t) == Lookup(a.disks[p].snaps, t) {
      TagAllImage(a.disks, created, tag, p);
      LookupCopies(a.disks[p].snaps, Snap(tag, a.disks[p].content), Count(created, p), t);
      RollBackImage(TagAll(a.disks, created, tag), created, tag, deleted, p, t);
    }
  }

  lemma ApplyingStands(d0: Disks, t: string, a: VM, tag: string, imgs: seq<Path>, b: VM)
    requires Stands(d0, t, a) && a.rec == b.rec && b.disks == ApplyAll(a.disks, imgs, tag)
    ensures Stands(d0, t, b)
  {
    forall p | p in ImagesToSnapshot(b.rec) ensures p in b.disks && b.disks[p].snaps == a.disks[p].snaps {
      ApplyAllImage(a.disks, imgs, tag, p);
    }
  }

  lemma EvolutionStands(d0: Disks, t: string, a: VM, b: VM)
    requires Stands(d0, t, a) && Evolves(a, b)
    ensures Stands(d0, t, b) && SameImages(a, b)
  {
    if Wrote(a, b) {
    } else if tag :| Snapped(a, tag, b) {
      TaggingStands(d0, t, a, tag, b);
    } else if tag :| SnappedUnsaved(a, tag, b) {
      TaggingStands(d0, t, a, tag, b);
    } else if tag, deleted :| SnapFailed(a, tag, deleted, b) {
      FailureStands(d0, t, a, tag, deleted, b);
    } else if tag :| Restored(a, tag, b) {
      ApplyingStands(d0, t, a, tag, ImagesToSnapshot(a.rec), b);
    } else if tag, k: nat :| RestoreBroke(a, tag, k, b) {
      ApplyingStands(d0, t, a, tag, ImagesToSnapshot(a.rec)[..k], b);
    }
  }

  ghost predicate EvolvesAt(tr: seq<VM>, i: int)
  {
    0 <= i < |tr| - 1 && Evolves(tr[i], tr[i + 1])
  }

  ghost predicate IsHistory(tr: seq<VM>)
  {
    forall i :: 0 <= i < |tr| - 1 ==> EvolvesAt(tr, i)
  }

  lemma SnapshotStands(a: VM, t: string, b: VM)
    requires Snapped(a, t, b) && Fresh(a.disks, ImagesToSnapshot(a.rec), t)
    ensures Stands(a.disks, t, b)
  {
    var imgs := ImagesToSnapshot(a.rec);
    forall p | p in imgs ensures p in b.disks && Lookup(b.disks[p].snaps, t) == Some(a.disks[p].content) {
      TagAllImage(a.disks, imgs, t, p);
      CountIn(imgs, p);
      LookupCopies(a.disks[p].snaps, Snap(t, a.disks[p].content), Count(imgs, p), t);
    }
  }

  lemma {:induction false} StandsThrough(tr: seq<VM>, d0: Disks, t: string, i: nat, k: nat)
    requires IsHistory(tr) && i <= k < |tr| && Stands(d0, t, tr[i])
    ensures Stands(d0, t, tr[k]) && SameImages(tr[i], tr[k])
  {
    if i < k {
      StandsThrough(tr, d0, t, i, k - 1);
      assert EvolvesAt(tr, k - 1);
      EvolutionStands(d0, t, tr[k - 1], tr[k]);
    }
  }

  lemma HistoryStands(tr: seq<VM>, i: nat, t: string, k: nat)
    requires IsHistory(tr) && i < k < |tr| && Snapped(tr[i], t, tr[i + 1])
    requires Fresh(tr[i].disks, ImagesToSnapshot(tr[i].rec), t)
    ensures Stands(tr[i].disks, t, tr[k]) && SameImages(tr[i], tr[k])
  {
    SnapshotStands(tr[i], t, tr[i + 1]);
    StandsThrough(tr, tr[i].disks, t, i + 1, k);
  }

  /**
   After a successful snapshot under a tag no image held, any history of guest writes, other snapshots, failed or
   unrecorded ones and restores, a successful restore of the tag returns every image to its content at the snapshot.
   */
  lemma RestoreReturnsTheSnapshot(tr: seq<VM>, i: nat, t: string, k: nat, b: VM)
    requires IsHistory(tr) && i < k < |tr| && Snapped(tr[i], t, tr[i + 1]) && Restored(tr[k], t, b)
    requires Fresh(tr[i].disks, ImagesToSnapshot(tr[i].rec), t)
    ensures forall p :: p in ImagesToSnapshot(tr[i].rec) ==> p in b.disks && b.disks[p].content == tr[i].disks[p].content
  {
    HistoryStands(tr, i, t, k);
    forall p | p in ImagesToSnapshot(tr[i].rec) ensures p in b.disks && b.disks[p].content == tr[i].disks[p].content {
      ApplyAllImage(tr[k].disks, ImagesToSnapshot(tr[k].rec), t, p);
    }
  }

  /** Such a tag stays restorable: no restore of it is ever refused for a missing image. */
  lemma TagStaysRestorable(tr: seq<VM>, i: nat, t: string, k: nat)
    requires IsHistory(tr) && i < k < |tr| && Snapped(tr[i], t, tr[i + 1])
    requires Fresh(tr[i].disks, ImagesToSnapshot(tr[i].rec), t)
    ensures Carry(tr[k].disks, ImagesToSnapshot(tr[k].rec), t)
  {
    HistoryStands(tr, i, t, k);
  }

  // ---- when freshness holds, and what happens without it -------------------------------------------------------------

  /** The record lists exactly the tags the images carry. */
  ghost predicate Tracked(v: VM)
  {
    forall p :: p in ImagesToSnapshot(v.rec) ==>
      p in v.disks && forall t :: Lookup(v.disks[p].snaps, t).Some? <==> t in v.rec.snapshots
  }

  /** A history without crashes: record writes succeed, and so do the deletions of a failed snapshot. */
  ghost predicate EvolvesCleanly(a: VM, b: VM)
  {
    || Wrote(a, b)
    || (exists tag :: Snapped(a, tag, b))
    || (exists tag, deleted :: AllTrue(deleted) && SnapFailed(a, tag, deleted, b))
    || (exists tag :: Restored(a, tag, b))
    || (exists tag, k :: RestoreBroke(a, tag, k, b))
  }

  /** A VM just created: new overlays and an untagged NVRAM template. */
  ghost predicate Created(v: VM)
  {
    v.rec.snapshots == [] && forall p :: p in ImagesToSnapshot(v.rec) ==> p in v.disks && v.disks[p].snaps == []
  }

  lemma SnapshotTracks(a: VM, tag: string, b: VM)
    requires Tracked(a) && Snapped(a, tag, b)
    ensures Tracked(b)
  {
    var imgs := ImagesToSnapshot(a.rec);
    assert imgs == ImagesToSnapshot(b.rec);
    forall p | p in imgs ensures p in b.disks && forall t :: Lookup(b.disks[p].snaps, t).Some? <==> t in b.rec.snapshots {
      TagAllImage(a.disks, imgs, tag, p);
      CountIn(imgs, p);
      forall t ensures Lookup(b.disks[p].snaps, t).Some? <==> t in b.rec.snapshots {
        LookupCopies(a.disks[p].snaps, Snap(tag, a.disks[p].content), Count(imgs, p), t);
      }
    }
  }

  lemma ApplyingTracks(a: VM, tag: string, imgs: seq<Path>, b: VM)
    requires Tracked(a) && a.rec == b.rec && b.disks == ApplyAll(a.disks, imgs, tag)
    ensures Tracked(b)
  {
    forall p | p in ImagesToSnapshot(b.rec) ensures p in b.disks && b.disks[p].snaps == a.disks[p].snaps {
      ApplyAllImage(a.disks, imgs, tag, p);
    }
  }

  lemma CleanEvolutionTracks(a: VM, b: VM)
    requires Tracked(a) && EvolvesCleanly(a, b)
    ensures Tracked(b) && Evolves(a, b)
  {
    if Wrote(a, b) {
    } else if tag :| Snapped(a, tag, b) {
      SnapshotTracks(a, tag, b);
    } else if tag, deleted :| AllTrue(deleted) && SnapFailed(a, tag, deleted, b) {
      CleanFailureIsNoChange(a, tag, deleted, b);
    } else if tag :| Restored(a, tag, b) {
      ApplyingTracks(a, tag, ImagesToSnapshot(a.rec), b);
    } else if tag, k: nat :| RestoreBroke(a, tag, k, b) {
      ApplyingTracks(a, tag, ImagesToSnapshot(a.rec)[..k], b);
    }
  }

  lemma {:induction false} CleanHistoryTracks(tr: seq<VM>, k: nat)
    requires k < |tr| && Created(tr[0]) && forall i :: 0 <= i < |tr| - 1 ==> EvolvesCleanly(tr[i], tr[i + 1])
    ensures Tracked(tr[k])
  {
    if k > 0 {
      CleanHistoryTracks(tr, k - 1);
      assert EvolvesCleanly(tr[k - 1], tr[k - 1 + 1]);
      CleanEvolutionTracks(tr[k - 1], tr[k]);
    }
  }

  /** On a created VM whose history saw no crash, every snapshot is fresh, so every restore returns its snapshot. */
  lemma CleanRestoreReturnsTheSnapshot(tr: seq<VM>, i: nat, t: string, k: nat, b: VM)
    requires |tr| > 0 && Created(tr[0]) && forall j :: 0 <= j < |tr| - 1 ==> EvolvesCleanly(tr[j], tr[j + 1])
    requires i < k < |tr| && Snapped(tr[i], t, tr[i + 1]) && Restored(tr[k], t, b)
    ensures forall p :: p in ImagesToSnapshot(tr[i].rec) ==> p in b.disks && b.disks[p].content == tr[i].disks[p].content
  {
    CleanHistoryTracks(tr, i);
    forall j | 0 <= j < |tr| - 1 ensures EvolvesAt(tr, j) {
      CleanHistoryTracks(tr, j);
      CleanEvolutionTracks(tr[j], tr[j + 1]);
    }
    RestoreReturnsTheSnapshot(tr, i, t, k, b);
  }

  /** An image already holding the tag restores to that older snapshot, so only an equal one is harmless. */
  ghost predicate Harmless(img: Image, t: string)
  {
    Lookup(img.snaps, t).Some? ==> Lookup(img.snaps, t).value == img.content
  }

  /** What the tag stands for on each image right after a snapshot: an older snapshot if there was one, else the content. */
  function StandFor(a: VM, t: string): Disks
  {
    map p | p in a.disks :: Image(if Lookup(a.disks[p].snaps, t).Some? then Lookup(a.disks[p].snaps, t).value else a.disks[p].content, [])
  }

  lemma AnySnapshotStands(a: VM, t: string, b: VM)
    requires Snapped(a, t, b)
    ensures Stands(StandFor(a, t), t, b) && SameImages(a, b)
  {
    var imgs := ImagesToSnapshot(a.rec);
    forall p | p in imgs ensures p in b.disks && Lookup(b.disks[p].snaps, t) == Some(StandFor(a, t)[p].content) {
      TagAllImage(a.disks, imgs, t, p);
      CountIn(imgs, p);
      LookupCopies(a.disks[p].snaps, Snap(t, a.disks[p].content), Count(imgs, p), t);
    }
    assert ImagesToSnapshot(b.rec) == imgs;
  }

  /** Whatever happened in between, a restore returns each image to what the tag stood for after its snapshot. */
  lemma RestoreReturnsWhatStands(tr: seq<VM>, i: nat, t: string, k: nat, e: VM)
    requires IsHistory(tr) && i < k < |tr| && Snapped(tr[i], t, tr[i + 1]) && Restored(tr[k], t, e)
    ensures forall p :: p in ImagesToSnapshot(tr[i].rec) ==> p in e.disks && e.disks[p].content == StandFor(tr[i], t)[p].content
  {
    AnySnapshotStands(tr[i], t, tr[i + 1]);
    StandsThrough(tr, StandFor(tr[i], t), t, i + 1, k);
    var imgs := ImagesToSnapshot(tr[i].rec);
    assert ImagesToSnapshot(tr[k].rec) == imgs;
    forall p | p in imgs ensures p in e.disks && e.disks[p].content == StandFor(tr[i], t)[p].content {
      ApplyAllImage(tr[k].disks, imgs, t, p);
    }
  }

  /** A snapshot comes back, through any history up to the restore, exactly when no image held an older, different one. */
  lemma RestoreIsFaithfulExactlyWhen(tr: seq<VM>, i: nat, t: string, k: nat, e: VM)
    requires IsHistory(tr) && i < k < |tr| && Snapped(tr[i], t, tr[i + 1]) && Restored(tr[k], t, e)
    ensures forall p :: p in ImagesToSnapshot(tr[i].rec) ==> p in e.disks
    ensures (forall p :: p in ImagesToSnapshot(tr[i].rec) ==> e.disks[p].content == tr[i].disks[p].content)
       <==> (forall p :: p in ImagesToSnapshot(tr[i].rec) ==> Harmless(tr[i].disks[p], t))
  {
    RestoreReturnsWhatStands(tr, i, t, k, e);
    forall p | p in ImagesToSnapshot(tr[i].rec)
      ensures e.disks[p].content == tr[i].disks[p].content <==> Harmless(tr[i].disks[p], t)
    {
    }
  }

  // ---- clones ----------------------------------------------------------------------------------------------------------

  /** clone overlays the base anew, copies NVRAM and data disks byte for byte, and starts with no recorded snapshot. */
  ghost predicate ClonedFrom(src: VM, v: VM)
  {
    var r, s := v.rec, src.rec;
    && (forall p :: p in ImagesToSnapshot(r) ==> p in v.disks) && (forall p :: p in ImagesToSnapshot(s) ==> p in src.disks)
    && r.snapshots == [] && v.disks[r.disk].snaps == []
    && (IsQcow2NVRAM(r.ovmfVars) <==> IsQcow2NVRAM(s.ovmfVars))
    && (IsQcow2NVRAM(s.ovmfVars) ==> v.disks[r.ovmfVars] == src.disks[s.ovmfVars])
    && |s.dataDisks| <= |r.dataDisks|
    && (forall i :: 0 <= i < |s.dataDisks| ==> v.disks[r.dataDisks[i]] == src.disks[s.dataDisks[i]])
    && (forall i :: |s.dataDisks| <= i < |r.dataDisks| ==> v.disks[r.dataDisks[i]].snaps == [])
  }

  lemma CloneImages(src: VM, v: VM)
    requires ClonedFrom(src, v)
    ensures |ImagesToSnapshot(src.rec)| <= |ImagesToSnapshot(v.rec)|
    ensures forall i {:trigger ImagesToSnapshot(v.rec)[i]} :: 1 <= i < |ImagesToSnapshot(src.rec)| ==>
              v.disks[ImagesToSnapshot(v.rec)[i]] == src.disks[ImagesToSnapshot(src.rec)[i]]
    ensures forall i :: |ImagesToSnapshot(src.rec)| <= i < |ImagesToSnapshot(v.rec)| ==>
              v.disks[ImagesToSnapshot(v.rec)[i]].snaps == []
    ensures v.disks[ImagesToSnapshot(v.rec)[0]].snaps == []
  {
    var n := if IsQcow2NVRAM(v.rec.ovmfVars) then 2 else 1;
    assert forall i :: n <= i < |ImagesToSnapshot(v.rec)| ==> ImagesToSnapshot(v.rec)[i] == v.rec.dataDisks[i - n];
    assert forall i :: n <= i < |ImagesToSnapshot(src.rec)| ==> ImagesToSnapshot(src.rec)[i] == src.rec.dataDisks[i - n];
  }

  /** The copy of the source's image j in a clone that has run since. */
  function CopyOf(src: VM, v: VM, j: nat): Path
    requires j < |ImagesToSnapshot(src.rec)| <= |ImagesToSnapshot(v.rec)|
  {
    ImagesToSnapshot(v.rec)[j]
  }

  /**
   A clone that has only run since it was made takes its first snapshot under t. Through any history up to the restore it
   comes back exactly when no image copied from the source had kept an older t with another content.
   */
  lemma CloneSnapshotIsFaithfulExactlyWhen(src: VM, v: VM, tr: seq<VM>, i: nat, t: string, k: nat, e: VM)
    requires ClonedFrom(src, v) && IsHistory(tr) && i < k < |tr| && Wrote(v, tr[i])
    requires Snapped(tr[i], t, tr[i + 1]) && Restored(tr[k], t, e)
    ensures |ImagesToSnapshot(src.rec)| <= |ImagesToSnapshot(tr[i].rec)|
    ensures forall p :: p in ImagesToSnapshot(tr[i].rec) ==> p in e.disks
    ensures (forall p :: p in ImagesToSnapshot(tr[i].rec) ==> e.disks[p].content == tr[i].disks[p].content)
       <==> (forall j :: 1 <= j < |ImagesToSnapshot(src.rec)| ==> KeptHarmless(src, tr[i], j, t))
  {
    RestoreIsFaithfulExactlyWhen(tr, i, t, k, e);
    CloneImages(src, v);
    HarmlessCopies(src, v, tr[i], t);
  }

  /** What the source's image j kept under t, if anything, is what the clone's copy of it holds now. */
  ghost predicate KeptHarmless(src: VM, v: VM, j: nat, t: string)
    requires j < |ImagesToSnapshot(src.rec)| <= |ImagesToSnapshot(v.rec)|
    requires ImagesToSnapshot(src.rec)[j] in src.disks && CopyOf(src, v, j) in v.disks
  {
    var kept := Lookup(src.disks[ImagesToSnapshot(src.rec)[j]].snaps, t);
    kept.Some? ==> kept.value == v.disks[CopyOf(src, v, j)].content
  }

  lemma HarmlessCopies(src: VM, v: VM, w: VM, t: string)
    requires ClonedFrom(src, v) && Wrote(v, w)
    requires |ImagesToSnapshot(src.rec)| <= |ImagesToSnapshot(w.rec)|
    ensures (forall p :: p in ImagesToSnapshot(w.rec) ==> Harmless(w.disks[p], t))
       <==> (forall j :: 1 <= j < |ImagesToSnapshot(src.rec)| ==> KeptHarmless(src, w, j, t))
  {
    var mine, theirs := ImagesToSnapshot(w.rec), ImagesToSnapshot(src.rec);
    CloneImages(src, v);
    assert mine == ImagesToSnapshot(v.rec);
    forall j | 1 <= j < |theirs| ensures Harmless(w.disks[mine[j]], t) <==> KeptHarmless(src, w, j, t) {
      assert w.disks[mine[j]].snaps == src.disks[theirs[j]].snaps;
    }
    if forall p :: p in mine ==> Harmless(w.disks[p], t) {
      forall j | 1 <= j < |theirs| ensures KeptHarmless(src, w, j, t) { assert mine[j] in mine; }
    }
    if forall j :: 1 <= j < |theirs| ==> KeptHarmless(src, w, j, t) {
      forall p | p in mine ensures Harmless(w.disks[p], t) {
        var j :| 0 <= j < |mine| && mine[j] == p;
        assert j == 0 || j >= |theirs| ==> w.disks[p].snaps == [];
      }
    }
  }

  // ---- inputs that break a promise -----------------------------------------------------------------------------------------

  lemma TagTwo(d: Disks, p: Path, q: Path, tag: string)
    ensures TagAll(d, [p, q], tag) == Tag(Tag(d, p, tag), q, tag)
  {
    assert [p, q][..1] == [p] && [p][..0] == [];
    assert TagAll(d, [p], tag) == Tag(TagAll(d, [], tag), p, tag);
  }

  /** A VM with one disk and one data disk, whose NVRAM is raw. */
  function TwoDisks(disk: Path, data: Path, tags: seq<string>): (r: Record)
    ensures ImagesToSnapshot(r) == [disk, data]
  {
    assert "/fw/vars.fd"[10] == 'd' && ".qcow2"[5] == '2';
    Record(disk, "/fw/vars.fd", [data], tags)
  }

  /**
   A created VM is snapshotted as "t" and cloned; the clone writes its data disk and takes its own first snapshot "t", whose
   restore puts the source's data back.
   */
  lemma StaleCloneTag() returns (o: VM, src: VM, c: VM, v: VM, b: VM, e: VM)
    ensures Created(o) && Snapped(o, "t", src) && ClonedFrom(src, c) && Wrote(c, v) && Snapped(v, "t", b) && Restored(b, "t", e)
    ensures "/v/d" in v.disks && v.disks["/v/d"].content == "clone"
    ensures "/v/d" in e.disks && e.disks["/v/d"].content == "source"
  {
    o := VM(map["/s/disk" := Image("", []), "/s/d" := Image("source", [])], TwoDisks("/s/disk", "/s/d", []));
    TagTwo(o.disks, "/s/disk", "/s/d", "t");
    src := VM(TagAll(o.disks, ["/s/disk", "/s/d"], "t"), TwoDisks("/s/disk", "/s/d", ["t"]));
    var kept := [Snap("t", "source")];
    assert src.disks["/s/d"] == Image("source", kept) by { assert [] + kept == kept; }
    var rec := TwoDisks("/v/disk", "/v/d", []);
    c := VM(map["/v/disk" := Image("", []), "/v/d" := Image("source", kept)], rec);
    v := VM(map["/v/disk" := Image("", []), "/v/d" := Image("clone", kept)], rec);
    TagTwo(v.disks, "/v/disk", "/v/d", "t");
    b := VM(TagAll(v.disks, ["/v/disk", "/v/d"], "t"), TwoDisks("/v/disk", "/v/d", ["t"]));
    LookupAppend(kept, Snap("t", "clone"), "t");
    LookupAppend([], Snap("t", ""), "t");
    e := VM(ApplyAll(b.disks, ["/v/disk", "/v/d"], "t"), b.rec);
    ApplyAllImage(b.disks, ["/v/disk", "/v/d"], "t", "/v/d");
  }

  /**
   A created VM is tagged "t" but its record is not written; it runs on, and the next snapshot "t" fails on its data disk.
   The rollback succeeds and yet takes the old content's snapshot and leaves the new one's.
   */
  lemma RollbackTakesTheOldSnapshot() returns (o: VM, m: VM, a: VM, b: VM)
    ensures Created(o) && SnappedUnsaved(o, "t", m) && Wrote(m, a) && SnapFailed(a, "t", [true], b)
    ensures "/v/disk" in a.disks && a.disks["/v/disk"].snaps == [Snap("t", "old")]
    ensures "/v/disk" in b.disks && b.disks["/v/disk"].snaps == [Snap("t", "new")]
  {
    var rec := TwoDisks("/v/disk", "/v/d", []);
    o := VM(map["/v/disk" := Image("old", []), "/v/d" := Image("", [])], rec);
    TagTwo(o.disks, "/v/disk", "/v/d", "t");
    m := VM(TagAll(o.disks, ["/v/disk", "/v/d"], "t"), rec);
    a := VM(m.disks["/v/disk" := Image("new", [Snap("t", "old")])], rec);
    var imgs := ["/v/disk", "/v/d"];
    assert imgs[..1] == ["/v/disk"] && ["/v/disk"][..0] == [] && [true][..0] == [];
    b := VM(RollBack(TagAll(a.disks, imgs[..1], "t"), imgs[..1], "t", [true]), rec);
    assert [Snap("t", "old")] + [Snap("t", "new")] == [Snap("t", "old"), Snap("t", "new")];
    assert [Snap("t", "old"), Snap("t", "new")][1..] == [Snap("t", "new")];
  }
}
