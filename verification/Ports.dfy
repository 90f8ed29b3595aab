/** A SATA port for every data disk, from the flags of create and clone to the command line. */
module Ports {
  import opened Text
  import opened Launch
  import opened Wiring
  import F = Fleet

  /**
   In every history of create, clone, recovery and rm, the command line of any VM gives each of its disks a port: the cap
   that create and clone enforce is the number of ports the command line has to give.
   */
  lemma EveryDiskHasItsPort(vms: string, tr: seq<F.Root>, i: nat, n: string, s: Spec)
    requires F.IsHistory(vms, tr) && i < |tr| && n in tr[i].recs && s.dataDisks == tr[i].recs[n].dataDisks
    ensures |s.dataDisks| <= |DATA_DISK_PORTS|
    ensures forall j :: 0 <= j < |s.dataDisks| ==>
              DataDrive(s.dataDisks, j) in Intended(s) && DataDevice(j) in Intended(s) && DATA_DISK_PORTS[j] < 6
    ensures forall j, k :: 0 <= j < k < |s.dataDisks| ==>
              s.dataDisks[j] != s.dataDisks[k] && DataDeviceFields(j)[1] != DataDeviceFields(k)[1]
  {
    F.DataDisksStayDistinct(vms, tr, i, n);
    forall j | 0 <= j < |s.dataDisks|
      ensures DataDrive(s.dataDisks, j) in Intended(s) && DataDevice(j) in Intended(s)
    {
      OptionsOfDisk(s.dataDisks, |s.dataDisks|, j);
    }
    forall j, k | 0 <= j < k < |s.dataDisks| ensures DataDeviceFields(j)[1] != DataDeviceFields(k)[1] {
      assert DataDeviceFields(j)[1] == Port(DATA_DISK_PORTS[j]) && DataDeviceFields(k)[1] == Port(DATA_DISK_PORTS[k]);
      assert DATA_DISK_PORTS[j] != DATA_DISK_PORTS[k];
      if Port(DATA_DISK_PORTS[j]) == Port(DATA_DISK_PORTS[k]) { PortInjective(DATA_DISK_PORTS[j], DATA_DISK_PORTS[k]); }
    }
  }

  lemma {:induction false} OptionsOfDisk(disks: seq<Path>, n: nat, j: nat)
    requires j < n <= |disks| && n <= |DATA_DISK_PORTS|
    ensures DataDrive(disks, j) in DataDiskOpts(disks, n) && DataDevice(j) in DataDiskOpts(disks, n)
  {
    if j < n - 1 { OptionsOfDisk(disks, n - 1, j); }
  }
}
