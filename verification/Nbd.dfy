/** Patching OpenCore through a host-wide qemu-nbd device: choosing the device, and undoing every step that was taken. */
module Nbd {
  import opened Wrappers
  import opened Text

  const DEVICE_COUNT := 16

  function Device(i: nat): string { "/dev/nbd" + Decimal(i) }

  // ---- which device an argument names ----------------------------------------------------------------------------

  const MAX_INT := 0x7FFF_FFFF_FFFF_FFFF

  predicate AllDigits(s: string) { s != "" && forall i :: 0 <= i < |s| ==> IsDigit(s[i]) }

  /** strconv.Atoi succeeds: an optional sign and digits, within 64 bits. */
  predicate IsInt(s: string)
  {
    var signed := s != "" && (s[0] == '+' || s[0] == '-');
    var digits := if signed then s[1..] else s;
    AllDigits(digits) && Value(digits) <= (if signed && s[0] == '-' then MAX_INT + 1 else MAX_INT)
  }

  /** nbdArgReferencesDevice: the device itself, qemu-nbd's connect argument, or one of its partitions. */
  predicate References(arg: string, device: string)
  {
    || arg == device || arg == "--connect=" + device
    || (HasPrefix(arg, device + "p") && arg[|device| + 1..] != "" && IsInt(arg[|device| + 1..]))
  }

  lemma DeviceShape(i: nat)
    ensures |Device(i)| >= 9 && Device(i)[..8] == "/dev/nbd" && Device(i)[8..] == Decimal(i) && Device(i)[0] == '/'
    ensures forall k :: 8 <= k < |Device(i)| ==> IsDigit(Device(i)[k])
  {
    DecimalReadsBack(i);
    forall k | 8 <= k < |Device(i)| ensures IsDigit(Device(i)[k]) { assert Device(i)[k] == Decimal(i)[k - 8]; }
  }

  lemma DeviceInjective(i: nat, j: nat)
    requires Device(i) == Device(j)
    ensures i == j
  {
    DeviceShape(i);
    DeviceShape(j);
    DecimalInjective(i, j);
  }

  /** A partition ends the device's digits, so nbd10p1 is never a partition of nbd1. */
  lemma PartitionOfOne(arg: string, i: nat, j: nat)
    requires HasPrefix(arg, Device(i) + "p") && HasPrefix(arg, Device(j) + "p")
    ensures i == j
  {
    DeviceShape(i);
    DeviceShape(j);
    var m, n := |Device(i)|, |Device(j)|;
    assert arg[..m + 1][m] == 'p' && arg[..n + 1][n] == 'p' && arg[..m + 1][..m] == Device(i) && arg[..n + 1][..n] == Device(j);
    assert forall k :: 8 <= k < m ==> IsDigit(arg[k]);
    assert forall k :: 8 <= k < n ==> IsDigit(arg[k]);
    assert Device(i) == arg[..m] && Device(j) == arg[..n];
    DeviceInjective(i, j);
  }

  lemma DeviceIsNoPartition(i: nat, j: nat)
    ensures !HasPrefix(Device(i), Device(j) + "p")
  {
    DeviceShape(i);
    DeviceShape(j);
    var n := |Device(j)|;
    if n < |Device(i)| { assert Device(i)[..n + 1][n] == Device(i)[n]; }
  }

  lemma ConnectArg(i: nat)
    ensures ("--connect=" + Device(i))[0] == '-' && ("--connect=" + Device(i))[10..] == Device(i)
  {
  }

  lemma PartitionStart(arg: string, i: nat)
    requires HasPrefix(arg, Device(i) + "p")
    ensures arg[0] == '/'
  {
    DeviceShape(i);
    assert arg[..|Device(i)| + 1][0] == '/';
  }

  /** No argument counts for two devices. */
  lemma ReferencesAtMostOne(arg: string, i: nat, j: nat)
    requires References(arg, Device(i)) && References(arg, Device(j))
    ensures i == j
  {
    DeviceShape(i);
    DeviceShape(j);
    ConnectArg(i);
    ConnectArg(j);
    if arg[0] == '-' {
      assert arg != Device(i) && arg != Device(j);
      if HasPrefix(arg, Device(i) + "p") { PartitionStart(arg, i); }
      if HasPrefix(arg, Device(j) + "p") { PartitionStart(arg, j); }
      DeviceInjective(i, j);
    } else if arg == Device(i) {
      DeviceIsNoPartition(i, j);
      DeviceInjective(i, j);
    } else if arg == Device(j) {
      DeviceIsNoPartition(j, i);
      DeviceInjective(i, j);
    } else {
      PartitionOfOne(arg, i, j);
    }
  }

  /** A mounted partition, and the command line of a running server, both hold their device. */
  lemma OwnArgumentsCount(i: nat, n: nat)
    requires n <= MAX_INT
    ensures References(Device(i) + "p" + Decimal(n), Device(i)) && References("--connect=" + Device(i), Device(i))
    ensures References(Device(i), Device(i))
  {
    DecimalReadsBack(n);
    var arg := Device(i) + "p" + Decimal(n);
    assert arg[..|Device(i)| + 1] == Device(i) + "p" && arg[|Device(i)| + 1..] == Decimal(n);
    assert IsDigit(Decimal(n)[0]);
  }

  predicate SomeReferences(args: seq<string>, device: string) { exists k :: 0 <= k < |args| && References(args[k], device) }

  /** One process holds the device: one of its NUL-separated arguments references it. */
  predicate Holds(cmdline: string, device: string) { SomeReferences(Split(cmdline, '\0'), device) }

  predicate ReferencedBy(cmdlines: seq<string>, device: string)
  {
    exists i :: 0 <= i < |cmdlines| && Holds(cmdlines[i], device)
  }

  /** One word after another, each ended by a NUL, as the kernel shows a process' command line. */
  function Cmdline(args: seq<string>): string
  {
    if args == [] then "" else args[0] + ['\0'] + Cmdline(args[1..])
  }

  lemma NothingReferences(device: nat)
    ensures !References("", Device(device))
  {
    DeviceShape(device);
  }

  lemma {:induction false} CmdlineSplits(args: seq<string>)
    requires forall i :: 0 <= i < |args| ==> '\0' !in args[i]
    ensures Split(Cmdline(args), '\0') == args + [""]
  {
    if args != [] {
      assert forall i :: 0 <= i < |args[1..]| ==> args[1..][i] == args[i + 1];
      CmdlineSplits(args[1..]);
      SplitAtSeparator(args[0], '\0', Cmdline(args[1..]));
      assert args == [args[0]] + args[1..];
    }
  }

  /** A device is held exactly if an argument of some process names it, one of its partitions, or it as a server's device. */
  lemma HeldExactlyWhenNamed(processes: seq<seq<string>>, device: nat)
    requires forall i :: 0 <= i < |processes| ==> forall k :: 0 <= k < |processes[i]| ==> '\0' !in processes[i][k]
    ensures ReferencedBy(seq(|processes|, i requires 0 <= i < |processes| => Cmdline(processes[i])), Device(device))
       <==> exists i :: 0 <= i < |processes| && SomeReferences(processes[i], Device(device))
  {
    var lines := seq(|processes|, i requires 0 <= i < |processes| => Cmdline(processes[i]));
    forall i | 0 <= i < |processes| ensures Holds(lines[i], Device(device)) <==> SomeReferences(processes[i], Device(device)) {
      ProcessHolds(processes[i], device);
    }
  }

  lemma ProcessHolds(args: seq<string>, device: nat)
    requires forall i :: 0 <= i < |args| ==> '\0' !in args[i]
    ensures Holds(Cmdline(args), Device(device)) <==> SomeReferences(args, Device(device))
  {
    CmdlineSplits(args);
    NothingReferences(device);
    EmptyAddsNothing(args, Device(device));
  }

  lemma EmptyAddsNothing(args: seq<string>, device: string)
    requires !References("", device)
    ensures SomeReferences(args + [""], device) <==> SomeReferences(args, device)
  {
    var parts := args + [""];
    if SomeReferences(args, device) {
      var i :| 0 <= i < |args| && References(args[i], device);
      assert parts[i] == args[i];
    }
  }

  /** A number is digits, perhaps signed, that fit into 64 bits. */
  lemma NumbersOf(sign: string, digits: string)
    requires sign == "" || sign == "+" || sign == "-"
    requires digits != "" && digits[0] != '+' && digits[0] != '-'
    ensures var limit := if sign == "-" then 9223372036854775808 else 9223372036854775807;
      IsInt(sign + digits) <==> (forall i :: 0 <= i < |digits| ==> '0' <= digits[i] <= '9') && Value(digits) <= limit
  {
    var s := sign + digits;
    if sign == "" { assert s == digits; } else { assert s[1..] == digits && s[0] == sign[0]; }
  }

  /** After the device and a p, a number makes a partition and nothing else does. */
  lemma Partition(i: nat, rest: string)
    ensures References(Device(i) + "p" + rest, Device(i)) <==> IsInt(rest)
  {
    DeviceShape(i);
    var arg := Device(i) + "p" + rest;
    assert arg[..|Device(i)| + 1] == Device(i) + "p" && arg[|Device(i)| + 1..] == rest;
    assert arg[0] == '/' && ("--connect=" + Device(i))[0] == '-';
  }

  // ---- choosing a device ---------------------------------------------------------------------------------------------

  /** What the host answers about each device during one search, and which partitions of the chosen one hold a file system. */
  datatype Survey = Survey(
    present: seq<bool>, pidFile: seq<bool>, cmdlines: seq<string>, connects: seq<bool>, pidReadable: bool, cancelledAt: nat,
    mounts: set<nat>)
  {
    predicate Complete() { |present| == |pidFile| == |connects| == DEVICE_COUNT }

    /** The device node exists, the kernel knows no server for it, and no process names it. */
    predicate IsFree(i: nat)
      requires Complete() && i < DEVICE_COUNT
    {
      present[i] && !pidFile[i] && !ReferencedBy(cmdlines, Device(i))
    }

    /** The search ends at a device it can use, with an image whose EFI partition mounts. */
    ghost predicate Ready()
      requires Complete()
    {
      && (exists i :: 0 <= i < DEVICE_COUNT && IsFree(i) && connects[i]) && pidReadable && cancelledAt >= DEVICE_COUNT
      && (1 in mounts || 2 in mounts)
    }

    /** The search passes over i. */
    predicate Passes(i: nat)
      requires Complete() && i < DEVICE_COUNT
    {
      !IsFree(i) || (!connects[i] && i != cancelledAt)
    }
  }

  datatype Error =
    | LeaseFailed | ProcUnreadable
    | PidUnreadable(device: nat) | Cancelled | ConnectFailed | NoFreeDevice
    | NoPartition | NoMountDir | MountFailed | PatchFailed
    | CleanupFailed

  // ---- the transaction -----------------------------------------------------------------------------------------------

  datatype Event = Acquire | Connect(device: nat) | Mount | Patch | Unmount | Disconnect | Release

  datatype Phase = Free | Leased | Attached | Mounted

  /** Which event may follow in which phase: each step is undone before the one it was built on. */
  function Advance(at: Phase, e: Event): Option<Phase>
  {
    match (at, e)
    case (Free, Acquire) => Some(Leased)
    case (Leased, Connect(_)) => Some(Attached)
    case (Attached, Mount) => Some(Mounted)
    case (Mounted, Patch) => Some(Mounted)
    case (Mounted, Unmount) => Some(Attached)
    case (Attached, Disconnect) => Some(Leased)
    case (Leased, Release) => Some(Free)
    case _ => None
  }

  function Follow(at: Phase, events: seq<Event>): Option<Phase>
    decreases |events|
  {
    if events == [] then Some(at)
    else match Advance(at, events[0]) case None => None case Some(next) => Follow(next, events[1..])
  }

  lemma {:induction false} FollowAppend(at: Phase, a: seq<Event>, b: seq<Event>)
    ensures Follow(at, a).Some? ==> Follow(at, a + b) == Follow(Follow(at, a).value, b)
    decreases |a|
  {
    if a == [] {
      assert a + b == b;
    } else if Advance(at, a[0]).Some? {
      assert (a + b)[1..] == a[1..] + b;
      FollowAppend(Advance(at, a[0]).value, a[1..], b);
    }
  }

  lemma FollowNext(at: Phase, events: seq<Event>, e: Event)
    requires Follow(at, events).Some?
    ensures Follow(at, events + [e]) == Advance(Follow(at, events).value, e)
  {
    FollowAppend(at, events, [e]);
    var here := Follow(at, events).value;
    assert [e][1..] == [];
    assert Follow(here, [e]) == Advance(here, e);
  }

  // ---- what an accepted trace guarantees -------------------------------------------------------------------------------

  function Depth(p: Phase): nat { match p case Free => 0 case Leased => 1 case Attached => 2 case Mounted => 3 }

  /** The event that takes back the step into p. */
  function Undo(p: Phase): Event
    requires p != Free
  {
    match p case Leased => Release case Attached => Disconnect case Mounted => Unmount
  }

  /** Events that leave a host at least as deep as p. */
  predicate Inside(p: Phase, e: Event)
  {
    match p
    case Free => true
    case Leased => e != Acquire && e != Release
    case Attached => e == Mount || e == Patch || e == Unmount
    case Mounted => e == Patch
  }

  lemma {:induction false} LeavesThroughUndo(at: Phase, events: seq<Event>, p: Phase) returns (j: nat)
    requires p != Free && Depth(at) >= Depth(p) && Follow(at, events) == Some(Free)
    ensures j < |events| && events[j] == Undo(p) && forall l :: 0 <= l < j ==> Inside(p, events[l])
    decreases |events|
  {
    if events[0] == Undo(p) {
      j := 0;
    } else {
      j := LeavesThroughUndo(Advance(at, events[0]).value, events[1..], p);
      assert events == [events[0]] + events[1..];
      j := j + 1;
    }
  }

  /** In a trace that ends with everything released, a mount is unmounted before any disconnect or release, and so on down. */
  lemma {:induction false} EveryStepIsUndone(at: Phase, events: seq<Event>, k: nat, p: Phase) returns (j: nat)
    requires Follow(at, events) == Some(Free) && k < |events| && p != Free
    requires match events[k] case Acquire => p == Leased case Connect(_) => p == Attached case Mount => p == Mounted case _ => false
    ensures k < j < |events| && events[j] == Undo(p) && forall l :: k < l < j ==> Inside(p, events[l])
    decreases |events|
  {
    var next := Advance(at, events[0]).value;
    assert events == [events[0]] + events[1..];
    if k == 0 {
      j := LeavesThroughUndo(next, events[1..], p);
      assert forall l :: 0 < l <= j ==> events[l] == events[1..][l - 1];
    } else {
      j := EveryStepIsUndone(next, events[1..], k - 1, p);
      assert forall l :: k < l <= j ==> events[l] == events[1..][l - 1];
    }
    j := j + 1;
  }

  /** The host around one OpenCore image: the qemu-nbd servers on it, and what has been attempted. */
  class Injection {
    const calm: bool // no external call fails, and servers end when they are told to
    var servers: set<nat>
    var events: seq<Event>

    ghost function At(): Option<Phase> reads this { Follow(Free, events) }

    constructor (calm: bool)
      ensures servers == {} && events == [] && At() == Some(Free) && this.calm == calm
    {
      servers, events, this.calm := {}, [], calm;
    }

    method Call() returns (ok: bool)
      ensures calm ==> ok
    {
      ok := *;
      if calm { ok := true; }
    }

    method Attempt(e: Event)
      requires At().Some? && Advance(At().value, e).Some?
      modifies `events
      ensures events == old(events) + [e] && At() == Advance(old(At()).value, e)
    {
      FollowNext(Free, events, e);
      events := events + [e];
    }

    /** qemu-nbd servers on the image end: on request, on termination, or on their own. */
    method SomeServersEnd()
      modifies `servers
      ensures servers <= old(servers) && (calm ==> servers == {})
    {
      var left :| left <= servers;
      servers := if calm then {} else left;
    }

    /** Whether the search may try device i. */
    method Usable(survey: Survey, i: nat) returns (usable: bool)
      requires survey.Complete() && i < DEVICE_COUNT
      ensures usable <==> survey.IsFree(i)
    {
      if !survey.present[i] { return false; }
      if survey.pidFile[i] { return false; }
      if ReferencedBy(survey.cmdlines, Device(i)) { return false; }
      return true;
    }

    method ConnectFree(survey: Survey, pid: nat) returns (r: Result<nat, Error>)
      requires survey.Complete() && At() == Some(Leased)
      modifies this
      ensures r.Ok? ==> r.value < DEVICE_COUNT && survey.IsFree(r.value) && survey.connects[r.value] && survey.pidReadable
                        && (forall j :: 0 <= j < r.value ==> survey.Passes(j))
                        && events == old(events) + [Connect(r.value)] && At() == Some(Attached)
      ensures r.Ok? ==> r.value < 16 && survey.present[r.value] && !survey.pidFile[r.value]
                        && !ReferencedBy(survey.cmdlines, Device(r.value))
      ensures r == Err(NoFreeDevice) ==>
                forall j :: 0 <= j < 16 && survey.present[j] && !survey.pidFile[j] ==> ReferencedBy(survey.cmdlines, Device(j))
      ensures r.Err? ==> events == old(events) && (calm ==> !survey.Ready())
      ensures r.Err? ==> match r.error
                         case PidUnreadable(i) => i < DEVICE_COUNT && survey.IsFree(i) && survey.connects[i] && !survey.pidReadable
                                                  && forall j :: 0 <= j < i ==> survey.Passes(j)
                         case Cancelled => survey.cancelledAt < DEVICE_COUNT && survey.IsFree(survey.cancelledAt)
                         case ConnectFailed => (exists j :: 0 <= j < DEVICE_COUNT && survey.IsFree(j))
                                               && forall j :: 0 <= j < DEVICE_COUNT ==> survey.Passes(j)
                         case NoFreeDevice => forall j :: 0 <= j < DEVICE_COUNT ==> !survey.IsFree(j)
                         case ProcUnreadable => !calm
                         case _ => false
    {
      var scanned := Call();
      if !scanned { return Err(ProcUnreadable); }
      var tried := false;
      for i := 0 to DEVICE_COUNT
        invariant events == old(events)
        invariant forall j :: 0 <= j < i ==> survey.Passes(j)
        invariant tried <==> exists j :: 0 <= j < i && survey.IsFree(j)
      {
        var usable := Usable(survey, i);
        if !usable { continue; }
        if survey.connects[i] {
          servers := servers + {pid};
          if survey.pidReadable {
            Attempt(Connect(i));
            return Ok(i);
          }
          SomeServersEnd();
          return Err(PidUnreadable(i));
        }
        tried := true;
        SomeServersEnd();
        if i == survey.cancelledAt { return Err(Cancelled); }
      }
      assert forall j :: 0 <= j < DEVICE_COUNT && survey.IsFree(j) ==> survey.Passes(j);
      assert !tried ==> forall j :: 0 <= j < DEVICE_COUNT && survey.present[j] && !survey.pidFile[j] ==> !survey.IsFree(j);
      return Err(if tried then ConnectFailed else NoFreeDevice);
    }

    /** Detaches the image; without an error no server is left on it. */
    method DisconnectAll() returns (ok: bool)
      requires At() == Some(Attached)
      modifies this
      ensures events == old(events) + [Disconnect] && At() == Some(Leased) && servers <= old(servers)
      ensures (ok ==> servers == {}) && (calm ==> ok)
    {
      Attempt(Disconnect);
      SomeServersEnd();
      var commandOk := Call();
      var commandFailed := !commandOk;
      var waited := Call();
      if !waited || servers != {} {
        SomeServersEnd();   // terminated by pid, then by command line
        commandFailed := true;
      }
      var scanned := Call();
      ok := scanned && (servers == {} || !commandFailed);
    }

    /** cleanupNBDMount: an attempted unmount whenever a mount succeeded. */
    method CleanupMount(mounted: bool) returns (ok: bool)
      requires At() == Some(if mounted then Mounted else Attached)
      modifies `events
      ensures At() == Some(Attached) && events == old(events) + (if mounted then [Unmount] else [])
      ensures calm ==> ok
    {
      if mounted { Attempt(Unmount); }
      ok := Call();
    }

    /** The first two partitions are tried in turn; mounts says which of them hold a file system. */
    method MountFirst(mounts: set<nat>) returns (mounted: bool)
      requires At() == Some(Attached)
      modifies `events
      ensures mounted <==> 1 in mounts || 2 in mounts
      ensures events == old(events) + (if mounted then [Mount] else []) && At() == Some(if mounted then Mounted else Attached)
    {
      for p := 1 to 3
        invariant events == old(events) && forall q :: 1 <= q < p ==> q !in mounts
      {
        if p in mounts {
          Attempt(Mount);
          return true;
        }
      }
      return false;
    }

    /** Between connect and disconnect; the deferred unmount runs on every path. */
    method MountAndPatch(mounts: set<nat>) returns (r: Result<(), Error>)
      requires At() == Some(Attached)
      modifies `events
      ensures At() == Some(Attached) && |events| >= |old(events)| && events[..|old(events)|] == old(events)
      ensures r.Ok? ==> events == old(events) + [Mount, Patch, Unmount]
      ensures r.Err? ==> (|| r.error.NoPartition? || r.error.NoMountDir? || r.error.MountFailed?
                          || r.error.PatchFailed? || r.error.CleanupFailed?)
      ensures var steps := events[|old(events)|..]; steps == [] || steps == [Mount, Unmount] || steps == [Mount, Patch, Unmount]
      ensures r.Err? && (calm || r.error.MountFailed?) ==> 1 !in mounts && 2 !in mounts
    {
      var partition := Call();
      if !partition { return Err(NoPartition); }
      var dir := Call();
      if !dir { return Err(NoMountDir); }
      var mounted := MountFirst(mounts);
      var patched := false;
      if mounted {
        patched := Call();
        if patched { Attempt(Patch); }
      }
      var clean := CleanupMount(mounted);
      r := if !mounted then Err(MountFailed) else if !patched then Err(PatchFailed) else if !clean then Err(CleanupFailed) else Ok(());
    }

    /**
     The whole transaction: whatever fails, what was done is undone in reverse order before the lease goes, and success
     means a patched image with no server left on it.
     */
    method InjectConfig(survey: Survey, pid: nat) returns (r: Result<(), Error>)
      requires survey.Complete() && At() == Some(Free)
      modifies this
      ensures At() == Some(Free) && |events| >= |old(events)| && events[..|old(events)|] == old(events)
      ensures r == Err(LeaseFailed) ==> events == old(events)
      ensures r.Ok? ==> servers == {}
      ensures r.Ok? ==> exists i :: 0 <= i < DEVICE_COUNT && survey.IsFree(i) &&
                          events == old(events) + [Acquire, Connect(i), Mount, Patch, Unmount, Disconnect, Release]
      ensures calm && survey.Ready() ==> r.Ok?
    {
      var leased := Call();
      if !leased { return Err(LeaseFailed); }
      Attempt(Acquire);
      var conn := ConnectFree(survey, pid);
      if conn.Err? {
        Attempt(Release);
        return Err(conn.error);
      }
      r := MountAndPatch(survey.mounts);
      var gone := DisconnectAll();
      if r.Ok? && !gone { r := Err(CleanupFailed); }
      Attempt(Release);
    }
  }
}
