/** Where the protocol and the layout of files meet: no qemu reads an image while a command works on it. */
module Offline {
  import opened Host
  import opened Protocol
  import opened Safety
  import opened Needles
  import F = Fleet

  /** One host seen twice: the committed VMs are the records of the root, under the same network ids and ownership. */
  ghost predicate SameRecords(s: State, root: F.Root)
  {
    && (forall m :: s.IsCommitted(m) <==> m in root.recs)
    && (forall m :: s.IsCommitted(m) ==> s.dirs[m].rec.vmid == root.recs[m].vmid && s.dirs[m].rec.owned == root.recs[m].net.tapOwned)
  }

  /**
   While snapshot, restore or a clone's copy works on an image of n, a live qemu of m has a record, and that VM does not
   need the image: the qemu of n are gone, and no other VM's record names a file of n's directory.
   */
  lemma NoQemuUsesTheImage(tr: seq<State>, i: nat, p: Proc, n: Name, vms: string, roots: seq<F.Root>, k: nat, img: string, x: Pid, m: Name)
    requires IsRun(tr) && i < |tr| && WorksOn(tr[i], p, n) && NoLossBefore(tr, i, n) && NoLossBefore(tr, i, m)
    requires F.IsHistory(vms, roots) && k < |roots| && SameRecords(tr[i], roots[k]) && LegalName(n) && InDir(vms, n, img)
    requires x in tr[i].procs && tr[i].procs[x] == Qemu(m)
    ensures m in roots[k].recs && img !in F.Needs(roots[k], roots[k].recs[m])
  {
    ImagesAreOffline(tr, i, p, n);
    SingleQemu(tr, i, m);
    assert x in tr[i].Live(m) && m != n;
    FilesAreApart(vms, roots, k, n, m, img);
  }

  lemma FilesAreApart(vms: string, roots: seq<F.Root>, k: nat, n: Name, m: Name, img: string)
    requires F.IsHistory(vms, roots) && k < |roots| && LegalName(n) && InDir(vms, n, img) && m in roots[k].recs && m != n
    ensures img !in F.Needs(roots[k], roots[k].recs[m])
  {
    F.HistoryIsOk(vms, roots, k);
    assert LegalName(m) && F.RecOk(vms, roots[k], m, roots[k].recs[m]);
    if img in F.Needs(roots[k], roots[k].recs[m]) {
      F.NeedsAreOwnOrOutside(vms, roots[k], m, img);
      F.InDirIsInside(vms, n, img);
      var file :| '/' !in file && img == Needle(vms, n, file);
      F.OwnFile(vms, n, file);
      F.DirectoriesAreDisjoint(vms, n, m, img);
    }
  }
}
