/** The Ascend backend: core checks that keep a card with a full-core tenant
    exclusive even when the card's core budget is oversold. */
module Ascend {
  import opened Usages
  import opened Devices
  import opened Lifecycle
  import opened Stretches

  /** Cores are percentages of a card; an oversold card has a budget above this. */
  const PERCENT_BASE := 100

  function MemReq(info: DeviceInfo, req: Request): nat {
    if req.memreq > 0 then req.memreq else if req.mempct != 101 then info.totalmem * req.mempct / 100 else 0
  }

  /** A single tenant holds the whole percentage base. */
  predicate Occupied(dev: DeviceUsage) {
    exists i :: 0 <= i < |dev.tenants| && dev.tenants[i].cores >= PERCENT_BASE
  }

  /** The cores that tenants other than `uid` hold. */
  function OthersCores(tenants: seq<Tenant>, uid: string): nat {
    if tenants == [] then 0
    else
      var last := tenants[|tenants| - 1];
      OthersCores(tenants[..|tenants| - 1], uid) + if last.uid == uid then 0 else last.cores
  }

  /** Whether a container may take a card on which its pod already runs `self` cores. */
  predicate Admissible(sel: Selection, dev: DeviceUsage, req: Request, self: nat, uid: string) {
    && dev.info.health && dev.info.id in sel.typeOk && dev.info.id in sel.uuidOk
    && 0 <= req.coresreq <= 100
    && dev.use.slots < dev.info.count
    && !(sel.mutex && dev.use.slots > 0)
    && dev.use.mem + MemReq(dev.info, req) <= dev.info.totalmem
    && dev.use.cores + req.coresreq <= dev.info.totalcore
    && !(req.coresreq == PERCENT_BASE && dev.use.slots > 0 && (sel.hamiCore || dev.info.totalcore == PERCENT_BASE))
    && !(dev.info.totalcore != 0 && dev.use.cores == dev.info.totalcore && req.coresreq == 0)
    && !(dev.use.cores >= PERCENT_BASE && (dev.use.slots == 1 || Occupied(dev)))
    && !((sel.hamiCore || dev.info.totalcore >= PERCENT_BASE) && self + req.coresreq >= PERCENT_BASE
         && OthersCores(dev.tenants, uid) > 0)
  }

  function Grant(info: DeviceInfo, req: Request): ContainerDevice {
    ContainerDevice(info.id, ASCEND, MemReq(info, req), Max(req.coresreq, 0), 0)
  }

  function LiveCores(pod: Pod, d: DeviceId): (string, PodSingleDevice) -> nat {
    (t, rows) => LiveUse(pod, rows, |rows|, d, Cores)
  }

  /** The cores the containers placed so far still run on `d`. */
  ghost function SelfCores(pod: Pod, placed: PodDevices, d: DeviceId): nat {
    SumMap(placed, LiveCores(pod, d))
  }

  method ExclusiveOccupant(dev: DeviceUsage) returns (yes: bool)
    ensures yes == Occupied(dev)
  {
    for i := 0 to |dev.tenants|
      invariant forall j :: 0 <= j < i ==> dev.tenants[j].cores < PERCENT_BASE
    {
      if dev.tenants[i].cores >= PERCENT_BASE {
        return true;
      }
    }
    return false;
  }

  method OthersOnDevice(dev: DeviceUsage, uid: string) returns (others: nat)
    ensures others == OthersCores(dev.tenants, uid)
  {
    others := 0;
    for i := 0 to |dev.tenants|
      invariant others == OthersCores(dev.tenants[..i], uid)
    {
      assert dev.tenants[..i + 1][..i] == dev.tenants[..i];
      if dev.tenants[i].uid != uid {
        others := others + dev.tenants[i].cores;
      }
    }
    assert dev.tenants[..|dev.tenants|] == dev.tenants;
  }

  /** Only concurrent usage counts: an ordinary init container has exited by the time
      the next container is placed, while sidecars and apps keep running. */
  predicate StillRunning(pod: Pod, cidx: nat) {
    cidx < |pod.sidecars| ==> pod.sidecars[cidx]
  }

  method RowCores(row: ContainerDevices, d: DeviceId) returns (sum: nat)
    ensures sum == RowUse(row, d, Cores)
  {
    sum := 0;
    for i := 0 to |row|
      invariant sum == RowUse(row[..i], d, Cores)
    {
      assert row[..i + 1][..i] == row[..i];
      if row[i].uuid == d {
        sum := sum + row[i].cores;
      }
    }
    assert row[..|row|] == row;
  }

  method IncomingOnDevice(pod: Pod, placed: PodDevices, row: ContainerDevices, d: DeviceId) returns (sum: nat)
    ensures sum == SelfCores(pod, placed, d) + RowUse(row, d, Cores)
  {
    sum := 0;
    var todo := placed.Keys;
    ghost var done: PodDevices := map[];
    while todo != {}
      invariant todo <= placed.Keys
      invariant done == map t | t in placed && t !in todo :: placed[t]
      invariant sum == SelfCores(pod, done, d)
    {
      var t :| t in todo;
      var rows, live := placed[t], 0;
      for cidx := 0 to |rows|
        invariant live == LiveUse(pod, rows, cidx, d, Cores)
      {
        if StillRunning(pod, cidx) {
          var cores := RowCores(rows[cidx], d);
          live := live + cores;
        }
      }
      SumMapUpdate(done, LiveCores(pod, d), t, rows);
      assert done - {t} == done;
      sum, todo, done := sum + live, todo - {t}, done[t := rows];
    }
    assert done == placed;
    var own := RowCores(row, d);
    sum := sum + own;
  }

  method IncomingExclusive(dev: DeviceUsage, uid: string, self: nat, coresreq: int) returns (yes: bool)
    ensures yes == (self + coresreq >= PERCENT_BASE && OthersCores(dev.tenants, uid) > 0)
  {
    if self + coresreq < PERCENT_BASE {
      return false;
    }
    var others := OthersOnDevice(dev, uid);
    return others > 0;
  }

  method CheckDevice(dev: DeviceUsage, req: Request, pod: Pod, sel: Selection, placed: PodDevices, row: ContainerDevices)
    returns (ok: bool)
    requires dev.info.health && dev.info.id in sel.typeOk && 0 <= req.coresreq <= 100
    ensures ok == Admissible(sel, dev, req, SelfCores(pod, placed, dev.info.id) + RowUse(row, dev.info.id, Cores), pod.uid)
  {
    if dev.info.id !in sel.uuidOk || dev.info.count <= dev.use.slots || (sel.mutex && dev.use.slots > 0) {
      return false;
    }
    if dev.info.totalmem - dev.use.mem < MemReq(dev.info, req) || dev.info.totalcore - dev.use.cores < req.coresreq {
      return false;
    }
    if req.coresreq == PERCENT_BASE && dev.use.slots > 0 && (sel.hamiCore || dev.info.totalcore == PERCENT_BASE) {
      return false;
    }
    if dev.info.totalcore != 0 && dev.use.cores == dev.info.totalcore && req.coresreq == 0 {
      return false;
    }
    if dev.use.cores >= PERCENT_BASE {
      var occupied := ExclusiveOccupant(dev);
      if dev.use.slots == 1 || occupied {
        return false;
      }
    }
    if sel.hamiCore || dev.info.totalcore >= PERCENT_BASE {
      var self := IncomingOnDevice(pod, placed, row, dev.info.id);
      var conflict := IncomingExclusive(dev, pod.uid, self, req.coresreq);
      if conflict {
        return false;
      }
    }
    return true;
  }

  /** `row` grants admissible devices at the positions `at`. */
  ghost predicate Picked(sel: Selection, devices: seq<DeviceUsage>, req: Request, pod: Pod, placed: PodDevices,
                         row: ContainerDevices, at: seq<nat>) {
    && |at| == |row|
    && (forall x :: 0 <= x < |at| ==>
      && at[x] < |devices|
      && Admissible(sel, devices[at[x]], req, SelfCores(pod, placed, devices[at[x]].info.id), pod.uid)
      && row[x] == Grant(devices[at[x]].info, req))
    && (forall x, y :: 0 <= x < y < |at| ==> at[x] > at[y])
  }

  ghost predicate Above(at: seq<nat>, i: nat) {
    forall x :: 0 <= x < |at| ==> i <= at[x]
  }

  lemma PickedDistinct(sel: Selection, devices: seq<DeviceUsage>, req: Request, pod: Pod, placed: PodDevices,
                       row: ContainerDevices, at: seq<nat>)
    requires UniqueIds(devices) && Picked(sel, devices, req, pod, placed, row, at)
    ensures Distinct(row)
  {
    forall x, y | 0 <= x < y < |row| ensures row[x].uuid != row[y].uuid { assert at[x] > at[y]; }
  }

  lemma NotYetNamed(sel: Selection, devices: seq<DeviceUsage>, req: Request, pod: Pod, placed: PodDevices,
                    row: ContainerDevices, at: seq<nat>, i: nat)
    requires UniqueIds(devices) && Picked(sel, devices, req, pod, placed, row, at) && i < |devices| && Above(at, i + 1)
    ensures RowUse(row, devices[i].info.id, Cores) == 0
  {
    forall x | 0 <= x < |row| ensures row[x].uuid != devices[i].info.id { assert at[x] >= i + 1; }
    RowUseUnnamed(row, devices[i].info.id, Cores);
  }

  lemma TakeDevice(sel: Selection, devices: seq<DeviceUsage>, req: Request, pod: Pod, placed: PodDevices,
                   row: ContainerDevices, at: seq<nat>, i: nat)
    requires Picked(sel, devices, req, pod, placed, row, at) && i < |devices| && Above(at, i + 1)
    requires Admissible(sel, devices[i], req, SelfCores(pod, placed, devices[i].info.id), pod.uid)
    ensures Picked(sel, devices, req, pod, placed, row + [Grant(devices[i].info, req)], at + [i])
    ensures Above(at + [i], i)
  {
  }

  /** The check of a device beside what the pod already runs. */
  ghost function Good(sel: Selection, req: Request, pod: Pod, placed: PodDevices): DeviceUsage -> bool {
    (dev: DeviceUsage) => Admissible(sel, dev, req, SelfCores(pod, placed, dev.info.id), pod.uid)
  }

  /** The checks made before a card may open a new NUMA run. */
  predicate Reached(sel: Selection, dev: DeviceUsage) {
    dev.info.health && dev.info.id in sel.typeOk
  }

  /** The device list as a search of this backend sees it. */
  ghost function Seen(devices: seq<DeviceUsage>, sel: Selection, req: Request, pod: Pod, placed: PodDevices): Listing {
    Listing(devices, (dev: DeviceUsage) => Reached(sel, dev), Good(sel, req, pod, placed), sel.numaBind)
  }

  /** The search: any admissible card may join the row. */
  ghost function HuntOf(devices: seq<DeviceUsage>, sel: Selection, req: Request, pod: Pod, placed: PodDevices): Hunt {
    Hunt(Seen(devices, sel, req, pod, placed), (dev: DeviceUsage) => Grant(dev.info, req), (row: ContainerDevices, dev: DeviceUsage) => true)
  }

  ghost predicate SameNuma(devices: seq<DeviceUsage>, at: seq<nat>, numa: int) {
    forall x :: 0 <= x < |at| ==> at[x] < |devices| && devices[at[x]].info.numa == numa
  }

  /** The search has passed the positions from `i` on and taken those at `at`: `k` devices
      are still missing. */
  ghost predicate Taken(sel: Selection, devices: seq<DeviceUsage>, req: Request, pod: Pod, placed: PodDevices, i: nat, k: nat, run: int,
                        row: ContainerDevices, at: seq<nat>) {
    && i <= |devices| && k + |row| == req.nums && Picked(sel, devices, req, pod, placed, row, at) && Above(at, i)
    && (sel.numaBind ==> SameNuma(devices, at, run))
  }

  /** The row has what the current stretch gave, and no stretch seen so far was large enough. */
  ghost predicate Scanned(h: Hunt, sel: Selection, req: Request, pod: Pod, placed: PodDevices, i: nat, k: nat, run: int,
                          row: ContainerDevices, at: seq<nat>, hi: nat, last: nat) {
    && k > 0 && Taken(sel, h.list.devices, req, pod, placed, i, k, run, row, at)
    && Hunting(h, i, run, hi, last, row) && Missed(h, req.nums, i)
  }

  /** Position `i` belongs to the current stretch and is about to be checked. */
  ghost predicate Checking(h: Hunt, sel: Selection, req: Request, pod: Pod, placed: PodDevices, i: nat, k: nat, run: int,
                           row: ContainerDevices, at: seq<nat>, hi: nat) {
    && k > 0 && Entered(h, i, run, hi, row) && Taken(sel, h.list.devices, req, pod, placed, i + 1, k, run, row, at)
    && (sel.numaBind ==> NumaAt(h.list, i) == run) && Missed(h, req.nums, i + 1)
  }

  /** Either the search goes on, or position `i` served the request. */
  ghost predicate Visited(h: Hunt, sel: Selection, req: Request, pod: Pod, placed: PodDevices, i: nat, k: nat, run: int,
                          row: ContainerDevices, at: seq<nat>, hi: nat, last: nat) {
    if k == 0 then Taken(sel, h.list.devices, req, pod, placed, i, 0, run, row, at) && Finds(h, req.nums, row)
    else Scanned(h, sel, req, pod, placed, i, k, run, row, at, hi, last)
  }

  lemma SkipDevice(h: Hunt, sel: Selection, devices: seq<DeviceUsage>, req: Request, pod: Pod, placed: PodDevices, i: nat, k: nat, run: int,
                   row: ContainerDevices, at: seq<nat>, hi: nat, last: nat)
    requires h == HuntOf(devices, sel, req, pod, placed) && i < |devices| && !Reached(sel, devices[i])
    requires Scanned(h, sel, req, pod, placed, i + 1, k, run, row, at, hi, last)
    ensures Visited(h, sel, req, pod, placed, i, k, run, row, at, hi, last)
  {
    HuntSkip(h, i, run, hi, last, row);
    MissedSkip(h, req.nums, i);
  }

  lemma EnterRun(h: Hunt, sel: Selection, devices: seq<DeviceUsage>, req: Request, pod: Pod, placed: PodDevices, i: nat, k: nat, run: int,
                 row: ContainerDevices, at: seq<nat>, hi: nat, last: nat)
    requires h == HuntOf(devices, sel, req, pod, placed) && i < |devices| && Reached(sel, devices[i])
    requires Scanned(h, sel, req, pod, placed, i + 1, k, run, row, at, hi, last)
    ensures if sel.numaBind && run != devices[i].info.numa
      then Checking(h, sel, req, pod, placed, i, req.nums, devices[i].info.numa, [], [], last)
      else Checking(h, sel, req, pod, placed, i, k, run, row, at, hi)
  {
    if sel.numaBind && run != devices[i].info.numa {
      HuntOpen(h, i, run, hi, last, row);
    } else {
      HuntStay(h, i, run, hi, last, row);
    }
  }

  lemma RejectDevice(h: Hunt, sel: Selection, devices: seq<DeviceUsage>, req: Request, pod: Pod, placed: PodDevices, i: nat, k: nat, run: int,
                     row: ContainerDevices, at: seq<nat>, hi: nat)
    requires h == HuntOf(devices, sel, req, pod, placed) && i < |devices| && !Good(sel, req, pod, placed)(devices[i])
    requires Checking(h, sel, req, pod, placed, i, k, run, row, at, hi)
    ensures Visited(h, sel, req, pod, placed, i, k, run, row, at, hi, i)
  {
    HuntNext(h, i, run, hi, row);
    MissedNext(h, req.nums, i, hi);
  }

  lemma AcceptDevice(h: Hunt, sel: Selection, devices: seq<DeviceUsage>, req: Request, pod: Pod, placed: PodDevices, i: nat, k: nat, run: int,
                     row: ContainerDevices, at: seq<nat>, hi: nat)
    requires h == HuntOf(devices, sel, req, pod, placed) && i < |devices| && Good(sel, req, pod, placed)(devices[i])
    requires Checking(h, sel, req, pod, placed, i, k, run, row, at, hi)
    ensures Visited(h, sel, req, pod, placed, i, k - 1, run, row + [Grant(devices[i].info, req)], at + [i], hi, i)
  {
    TakenNext(sel, devices, req, pod, placed, i, k, run, row, at);
    HuntNext(h, i, run, hi, row);
    if k > 1 { MissedNext(h, req.nums, i, hi); } else { FoundHere(h, req.nums, i, hi, row + [Grant(devices[i].info, req)]); }
  }

  lemma TakenNext(sel: Selection, devices: seq<DeviceUsage>, req: Request, pod: Pod, placed: PodDevices, i: nat, k: nat, run: int,
                  row: ContainerDevices, at: seq<nat>)
    requires i < |devices| && k > 0 && Taken(sel, devices, req, pod, placed, i + 1, k, run, row, at) && Good(sel, req, pod, placed)(devices[i])
    requires sel.numaBind ==> devices[i].info.numa == run
    ensures Taken(sel, devices, req, pod, placed, i, k - 1, run, row + [Grant(devices[i].info, req)], at + [i])
  {
    TakeDevice(sel, devices, req, pod, placed, row, at, i);
  }

  lemma FoundHere(h: Hunt, n: nat, lo: nat, hi: nat, row: ContainerDevices)
    requires Longest(h.list, lo, hi) && row == Gathered(h, lo, hi) && |row| == n && Missed(h, n, lo + 1)
    ensures Finds(h, n, row)
  {
  }

  /** The check of a device that the search has not taken yet. */
  method CheckNext(devices: seq<DeviceUsage>, req: Request, pod: Pod, sel: Selection, placed: PodDevices, i: nat, ghost k: nat, ghost run: int,
                   row: ContainerDevices, ghost at: seq<nat>)
    returns (fits: bool)
    requires UniqueIds(devices) && 0 <= req.coresreq <= 100 && i < |devices| && Reached(sel, devices[i])
    requires Taken(sel, devices, req, pod, placed, i + 1, k, run, row, at)
    ensures fits == Good(sel, req, pod, placed)(devices[i])
  {
    fits := CheckDevice(devices[i], req, pod, sel, placed, row);
    NotYetNamed(sel, devices, req, pod, placed, row, at, i);
  }

  /** Looks at one device. */
  method Visit(devices: seq<DeviceUsage>, req: Request, pod: Pod, sel: Selection, placed: PodDevices, i: nat, k: nat, run: int,
               row: ContainerDevices, ghost at: seq<nat>, ghost hi: nat, ghost last: nat, ghost h: Hunt)
    returns (k': nat, run': int, row': ContainerDevices, ghost at': seq<nat>, ghost hi': nat, ghost last': nat)
    requires UniqueIds(devices) && 0 <= req.coresreq <= 100 && i < |devices| && h == HuntOf(devices, sel, req, pod, placed)
    requires Scanned(h, sel, req, pod, placed, i + 1, k, run, row, at, hi, last)
    ensures Visited(h, sel, req, pod, placed, i, k', run', row', at', hi', last')
  {
    var dev := devices[i];
    k', run', row', at', hi', last' := k, run, row, at, hi, last;
    if !dev.info.health || dev.info.id !in sel.typeOk {
      SkipDevice(h, sel, devices, req, pod, placed, i, k, run, row, at, hi, last);
      return;
    }
    EnterRun(h, sel, devices, req, pod, placed, i, k, run, row, at, hi, last);
    if sel.numaBind && run != dev.info.numa {
      k', run', row', at', hi' := req.nums, dev.info.numa, [], [], last;
    }
    last' := i;
    var fits := CheckNext(devices, req, pod, sel, placed, i, k', run', row', at');
    if !fits {
      RejectDevice(h, sel, devices, req, pod, placed, i, k', run', row', at', hi');
      return;
    }
    AcceptDevice(h, sel, devices, req, pod, placed, i, k', run', row', at', hi');
    k', row', at' := k' - 1, row' + [Grant(dev.info, req)], at' + [i];
  }

  /** Chooses `req.nums` devices for one container, from the end of the list. It succeeds
      exactly when a stretch of the list whose reached cards share a NUMA node, as far as
      the request is bound to one, has enough admissible cards. */
  method Fit(devices: seq<DeviceUsage>, req: Request, pod: Pod, sel: Selection, placed: PodDevices)
    returns (ok: bool, row: ContainerDevices, ghost at: seq<nat>)
    requires UniqueIds(devices)
    ensures ok ==> |row| == req.nums && Distinct(row)
    ensures ok ==> Picked(sel, devices, req, pod, placed, row, at)
    ensures ok && sel.numaBind && row != [] ==> SameNuma(devices, at, devices[at[0]].info.numa)
    ensures ok <==> Enough(Seen(devices, sel, req, pod, placed), req.nums)
    ensures var h := HuntOf(devices, sel, req, pod, placed); if ok then Finds(h, req.nums, row) else Missed(h, req.nums, 0)
  {
    ghost var h := HuntOf(devices, sel, req, pod, placed);
    MissedIff(h, req.nums);
    row, at := [], [];
    if req.coresreq > 100 || req.coresreq < 0 {
      NothingGood(h.list, req.nums);
      return false, row, at;
    }
    var k: nat, run, i := req.nums, -1, |devices|;
    ghost var hi: nat, last: nat := |devices|, |devices|;
    HuntStart(h, run, req.nums);
    while i > 0
      invariant 0 <= i && Scanned(h, sel, req, pod, placed, i, k, run, row, at, hi, last)
    {
      i := i - 1;
      k, run, row, at, hi, last := Visit(devices, req, pod, sel, placed, i, k, run, row, at, hi, last, h);
      if k == 0 {
        PickedDistinct(sel, devices, req, pod, placed, row, at);
        FindsEnough(h, req.nums, row);
        return true, row, at;
      }
    }
    return false, row, at;
  }

  lemma FindsEnough(h: Hunt, n: nat, row: ContainerDevices)
    requires Unrestricted(h) && Sound(h.list) && n > 0 && Finds(h, n, row)
    ensures Enough(h.list, n)
  {
    MissedIff(h, n);
  }

  lemma NothingGood(l: Listing, n: nat)
    requires n > 0 && forall j :: 0 <= j < |l.devices| ==> !l.good(l.devices[j])
    ensures !Enough(l, n)
  {
    if Enough(l, n) {
      var lo: nat, hi: nat :| Serves(l, lo, hi, n);
      var x := SomeGood(l, lo, hi);
    }
  }
}
