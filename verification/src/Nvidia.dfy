/** The NVIDIA backend for devices that are not in MIG mode: which devices a
    container request may take, and the quota check made along the way. */
module Nvidia {
  import opened Usages
  import opened Devices
  import opened Collapse
  import opened Quotas
  import opened QuotaManagers
  import opened Totals
  import opened Stretches
  import Combinations

  /** The memory a request takes on a device. 101 marks an unset percentage. */
  function MemReq(info: DeviceInfo, req: Request): nat {
    if req.memreq > 0 then req.memreq else if req.mempct != 101 then info.totalmem * req.mempct / 100 else 0
  }

  /** The checks made before a device may open a new NUMA run. */
  predicate Reached(sel: Selection, dev: DeviceUsage) {
    dev.info.health && dev.info.id !in sel.cordoned && dev.info.id in sel.typeOk
  }

  /** Every check on a single device except the quota. */
  predicate Admissible(sel: Selection, dev: DeviceUsage, req: Request) {
    && Reached(sel, dev)
    && dev.info.id in sel.uuidOk
    && dev.use.slots < dev.info.count
    && !(sel.mutex && dev.use.slots > 0)
    && 0 <= req.coresreq <= 100
    && dev.use.mem + MemReq(dev.info, req) <= dev.info.totalmem
    && dev.use.cores + req.coresreq <= dev.info.totalcore
    && !(dev.info.totalcore == 100 && req.coresreq == 100 && dev.use.slots > 0)
    && !(dev.info.totalcore != 0 && dev.use.cores == dev.info.totalcore && req.coresreq == 0)
  }

  function Grant(info: DeviceInfo, req: Request): ContainerDevice {
    ContainerDevice(info.id, NVIDIA, MemReq(info, req), Max(req.coresreq, 0), 0)
  }

  function MemoryFactor(reg: Registry): int {
    if NVIDIA in reg then reg[NVIDIA].factor else 0
  }

  /** Whether the namespace can take the collapsed usage of `rows`. */
  predicate QuotaOk(reg: Registry, ledger: Ledger, pod: Pod, rows: PodSingleDevice) {
    var row := CollapsedRow(pod, NVIDIA, rows);
    Fits(reg, ledger, pod.ns, RowTotal(row, Mem), MemoryFactor(reg), RowTotal(row, Cores), NVIDIA)
  }

  predicate Unlimited(reg: Registry, ledger: Ledger, ns: string) {
    NVIDIA in reg ==> !QuotaOf(ledger, ns, reg[NVIDIA].memory).limitSet && !QuotaOf(ledger, ns, reg[NVIDIA].core).limitSet
  }

  lemma PartQuotaOk(reg: Registry, ledger: Ledger, pod: Pod, rows: PodSingleDevice, part: ContainerDevices, row: ContainerDevices)
    requires PartOf(part, row) && QuotaOk(reg, ledger, pod, rows + [row])
    ensures QuotaOk(reg, ledger, pod, rows + [part])
  {
    PartTotalLe(pod, NVIDIA, rows, part, row, Mem);
    PartTotalLe(pod, NVIDIA, rows, part, row, Cores);
  }

  method FitQuota(quota: QuotaManager, pod: Pod, tmp: ContainerDevices, placed: PodDevices, uuid: DeviceId, mem: nat, cores: nat)
    returns (ok: bool)
    ensures ok == QuotaOk(quota.reg, quota.ledger, pod, Rows(placed, NVIDIA) + [tmp + [ContainerDevice(uuid, NVIDIA, mem, cores, 0)]])
  {
    var cur := tmp + [ContainerDevice(uuid, NVIDIA, mem, cores, 0)];
    var hypo := placed[NVIDIA := Rows(placed, NVIDIA) + [cur]];
    var collapsed := CollapseInitContainerUsage(pod, hypo);
    var row: ContainerDevices := collapsed[NVIDIA][0];
    var totalMem, totalCores := SumRowTotals(row);
    ok := quota.FitQuota(pod.ns, totalMem, MemoryFactor(quota.reg), totalCores, NVIDIA);
  }

  /** The device list as a search of this backend sees it. */
  ghost function Seen(devices: seq<DeviceUsage>, sel: Selection, req: Request): Listing {
    Listing(devices, (dev: DeviceUsage) => Reached(sel, dev), (dev: DeviceUsage) => Admissible(sel, dev, req), sel.numaBind)
  }

  /** The search: a device joins the row if the namespace can take the row with it. */
  ghost function HuntOf(devices: seq<DeviceUsage>, sel: Selection, req: Request, pod: Pod, reg: Registry, ledger: Ledger, before: PodSingleDevice): Hunt {
    Hunt(Seen(devices, sel, req), (dev: DeviceUsage) => Grant(dev.info, req),
         (row: ContainerDevices, dev: DeviceUsage) => QuotaOk(reg, ledger, pod, before + [row + [Grant(dev.info, req)]]))
  }

  // ---------- The search ----------

  /** `row` grants the devices at positions `at`, which the search passed in this order. */
  ghost predicate Picked(sel: Selection, devices: seq<DeviceUsage>, req: Request, row: ContainerDevices, at: seq<nat>) {
    && |at| == |row|
    && (forall x :: 0 <= x < |at| ==> at[x] < |devices| && Admissible(sel, devices[at[x]], req))
    && (forall x :: 0 <= x < |at| ==> row[x] == Grant(devices[at[x]].info, req))
    && (forall x, y :: 0 <= x < y < |at| ==> at[x] > at[y])
  }

  ghost predicate SameNuma(devices: seq<DeviceUsage>, at: seq<nat>, numa: int) {
    forall x :: 0 <= x < |at| ==> at[x] < |devices| && devices[at[x]].info.numa == numa
  }

  lemma PickedDistinct(sel: Selection, devices: seq<DeviceUsage>, req: Request, row: ContainerDevices, at: seq<nat>)
    requires UniqueIds(devices) && Picked(sel, devices, req, row, at)
    ensures Distinct(row)
  {
    forall x, y | 0 <= x < y < |row| ensures row[x].uuid != row[y].uuid {
      assert at[x] > at[y];
    }
  }

  /** The search state when it is about to look at position `i - 1`. */
  ghost predicate Searching(devices: seq<DeviceUsage>, req: Request, sel: Selection, i: nat, k: nat, prev: int,
                            row: ContainerDevices, at: seq<nat>) {
    && Picked(sel, devices, req, row, at)
    && (forall x :: 0 <= x < |at| ==> i <= at[x])
    && (sel.numaBind ==> SameNuma(devices, at, prev))
    && (if sel.topology then k == req.nums else k + |row| == req.nums)
  }

  /** Without limits: what the search finds. The topology policy scans to the front and keeps
      the last stretch; the others stop at the first stretch that is large enough. */
  ghost predicate Feasible(devices: seq<DeviceUsage>, sel: Selection, req: Request) {
    if sel.topology then FrontEnough(Seen(devices, sel, req), req.nums) else Enough(Seen(devices, sel, req), req.nums)
  }

  /** The checks on one device that passed the type check, the quota among them. */
  method CheckDevice(dev: DeviceUsage, req: Request, pod: Pod, sel: Selection, quota: QuotaManager, placed: PodDevices,
                     row: ContainerDevices)
    returns (ok: bool)
    requires Reached(sel, dev)
    ensures ok <==> Admissible(sel, dev, req) && QuotaOk(quota.reg, quota.ledger, pod, Rows(placed, NVIDIA) + [row + [Grant(dev.info, req)]])
  {
    if dev.info.id !in sel.uuidOk || dev.info.count <= dev.use.slots || (sel.mutex && dev.use.slots > 0)
      || req.coresreq > 100 || req.coresreq < 0 {
      return false;
    }
    var mem := MemReq(dev.info, req);
    var withinQuota := FitQuota(quota, pod, row, placed, dev.info.id, mem, req.coresreq);
    if !withinQuota {
      return false;
    }
    if dev.info.totalmem - dev.use.mem < mem || dev.info.totalcore - dev.use.cores < req.coresreq {
      return false;
    }
    // A request for all cores wants the card for itself.
    if dev.info.totalcore == 100 && req.coresreq == 100 && dev.use.slots > 0 {
      return false;
    }
    // A request without cores cannot join a card whose cores are all taken.
    if dev.info.totalcore != 0 && dev.use.cores == dev.info.totalcore && req.coresreq == 0 {
      return false;
    }
    return true;
  }

  /** The search takes a device into its run. */
  lemma TakeDevice(devices: seq<DeviceUsage>, req: Request, sel: Selection, i: nat, k: nat, prev: int,
                   row: ContainerDevices, at: seq<nat>)
    requires i < |devices| && Searching(devices, req, sel, i + 1, k, prev, row, at)
    requires Admissible(sel, devices[i], req) && (sel.numaBind ==> devices[i].info.numa == prev) && k > 0
    ensures var k' := if sel.topology then k else k - 1;
      var row', at' := row + [Grant(devices[i].info, req)], at + [i];
      && Picked(sel, devices, req, row', at')
      && (forall x :: 0 <= x < |at'| ==> i <= at'[x])
      && (sel.numaBind ==> SameNuma(devices, at', prev))
      && (if sel.topology then k' == req.nums else k' + |row'| == req.nums)
  {
  }

  /** The state of the search before it looks at position `i - 1`. */
  ghost predicate Valid(h: Hunt, req: Request, sel: Selection, i: nat, k: nat, run: int, row: ContainerDevices, at: seq<nat>, hi: nat, last: nat) {
    && i <= |h.list.devices| && k > 0 && Searching(h.list.devices, req, sel, i, k, run, row, at)
    && Hunting(h, i, run, hi, last, row) && (!sel.topology ==> Missed(h, req.nums, i))
  }

  /** Position `i` belongs to the current stretch and is about to be checked. */
  ghost predicate Checking(h: Hunt, req: Request, sel: Selection, i: nat, k: nat, run: int, row: ContainerDevices, at: seq<nat>, hi: nat) {
    && k > 0 && Entered(h, i, run, hi, row) && Searching(h.list.devices, req, sel, i + 1, k, run, row, at)
    && (sel.numaBind ==> NumaAt(h.list, i) == run) && (!sel.topology ==> Missed(h, req.nums, i + 1))
  }

  /** Either the search goes on, or position `i` served the request. */
  ghost predicate Visited(h: Hunt, req: Request, sel: Selection, i: nat, k: nat, run: int, row: ContainerDevices, at: seq<nat>, hi: nat, last: nat) {
    if k == 0 then
      && !sel.topology && Picked(sel, h.list.devices, req, row, at) && |row| == req.nums
      && (sel.numaBind ==> SameNuma(h.list.devices, at, run)) && Finds(h, req.nums, row)
    else Valid(h, req, sel, i, k, run, row, at, hi, last)
  }

  /** The hunt is one for this request. */
  ghost predicate IsHunt(h: Hunt, req: Request, sel: Selection) {
    && h.list.bind == sel.numaBind && (forall dev :: h.list.reached(dev) == Reached(sel, dev))
    && (forall dev :: h.list.good(dev) == Admissible(sel, dev, req)) && forall dev :: h.grant(dev) == Grant(dev.info, req)
  }

  lemma SkipDevice(h: Hunt, req: Request, sel: Selection, i: nat, k: nat, run: int, row: ContainerDevices, at: seq<nat>, hi: nat, last: nat)
    requires IsHunt(h, req, sel) && i < |h.list.devices| && Valid(h, req, sel, i + 1, k, run, row, at, hi, last) && !Reached(sel, h.list.devices[i])
    ensures Visited(h, req, sel, i, k, run, row, at, hi, last)
  {
    HuntSkip(h, i, run, hi, last, row);
    if !sel.topology { MissedSkip(h, req.nums, i); }
  }

  lemma EnterRun(h: Hunt, req: Request, sel: Selection, i: nat, k: nat, run: int, row: ContainerDevices, at: seq<nat>, hi: nat, last: nat)
    requires IsHunt(h, req, sel) && i < |h.list.devices| && Valid(h, req, sel, i + 1, k, run, row, at, hi, last) && Reached(sel, h.list.devices[i])
    ensures if sel.numaBind && run != NumaAt(h.list, i) then Checking(h, req, sel, i, req.nums, NumaAt(h.list, i), [], [], last)
      else Checking(h, req, sel, i, k, run, row, at, hi)
  {
    if sel.numaBind && run != NumaAt(h.list, i) {
      HuntOpen(h, i, run, hi, last, row);
    } else {
      HuntStay(h, i, run, hi, last, row);
    }
  }

  lemma RejectDevice(h: Hunt, req: Request, sel: Selection, i: nat, k: nat, run: int, row: ContainerDevices, at: seq<nat>, hi: nat)
    requires IsHunt(h, req, sel) && Checking(h, req, sel, i, k, run, row, at, hi) && !Takes(h, row, h.list.devices[i])
    ensures Visited(h, req, sel, i, k, run, row, at, hi, i)
  {
    HuntNext(h, i, run, hi, row);
    if !sel.topology { MissedNext(h, req.nums, i, hi); }
  }

  lemma AcceptDevice(h: Hunt, req: Request, sel: Selection, i: nat, k: nat, run: int, row: ContainerDevices, at: seq<nat>, hi: nat)
    requires IsHunt(h, req, sel) && Checking(h, req, sel, i, k, run, row, at, hi) && Takes(h, row, h.list.devices[i])
    ensures Visited(h, req, sel, i, if sel.topology then k else k - 1, run, row + [Grant(h.list.devices[i].info, req)], at + [i], hi, i)
  {
    TakeDevice(h.list.devices, req, sel, i, k, run, row, at);
    HuntNext(h, i, run, hi, row);
    if !sel.topology && k > 1 { MissedNext(h, req.nums, i, hi); }
  }

  /** And its rows are checked against these limits. */
  ghost predicate ForQuota(h: Hunt, devices: seq<DeviceUsage>, req: Request, sel: Selection, pod: Pod, reg: Registry, ledger: Ledger, placed: PodDevices) {
    IsHunt(h, req, sel) && h.list.devices == devices && h.fits == HuntOf(devices, sel, req, pod, reg, ledger, Rows(placed, NVIDIA)).fits
  }

  lemma TakesIff(h: Hunt, devices: seq<DeviceUsage>, req: Request, sel: Selection, pod: Pod, reg: Registry, ledger: Ledger, placed: PodDevices,
                 row: ContainerDevices, dev: DeviceUsage)
    requires ForQuota(h, devices, req, sel, pod, reg, ledger, placed)
    ensures Takes(h, row, dev) <==> Admissible(sel, dev, req) && QuotaOk(reg, ledger, pod, Rows(placed, NVIDIA) + [row + [Grant(dev.info, req)]])
  {
  }

  /** Looks at one device. */
  method Visit(devices: seq<DeviceUsage>, req: Request, pod: Pod, sel: Selection, quota: QuotaManager, placed: PodDevices,
               i: nat, k: nat, run: int, row: ContainerDevices, ghost at: seq<nat>, ghost hi: nat, ghost last: nat, ghost h: Hunt)
    returns (k': nat, run': int, row': ContainerDevices, ghost at': seq<nat>, ghost hi': nat, ghost last': nat)
    requires ForQuota(h, devices, req, sel, pod, quota.reg, quota.ledger, placed)
    requires i < |devices| && Valid(h, req, sel, i + 1, k, run, row, at, hi, last)
    requires row != [] ==> QuotaOk(quota.reg, quota.ledger, pod, Rows(placed, NVIDIA) + [row])
    ensures row' != [] ==> QuotaOk(quota.reg, quota.ledger, pod, Rows(placed, NVIDIA) + [row'])
    ensures Visited(h, req, sel, i, k', run', row', at', hi', last')
  {
    var dev := devices[i];
    k', run', row', at', hi', last' := k, run, row, at, hi, last;
    if !dev.info.health || dev.info.id in sel.cordoned || dev.info.id !in sel.typeOk {
      SkipDevice(h, req, sel, i, k, run, row, at, hi, last);
      return;
    }
    EnterRun(h, req, sel, i, k, run, row, at, hi, last);
    if sel.numaBind && run != dev.info.numa {
      k', run', row', at', hi' := req.nums, dev.info.numa, [], [], last;
    }
    last' := i;
    var fits := CheckDevice(dev, req, pod, sel, quota, placed, row');
    TakesIff(h, devices, req, sel, pod, quota.reg, quota.ledger, placed, row', dev);
    if !fits {
      RejectDevice(h, req, sel, i, k', run', row', at', hi');
      return;
    }
    AcceptDevice(h, req, sel, i, k', run', row', at', hi');
    if !sel.topology {
      k' := k' - 1;
    }
    row', at' := row' + [Grant(dev.info, req)], at' + [i];
  }

  /** Scans the devices from the end of the list. Stops with `full` once the request
      is served; the topology policy always scans to the front. */
  method Search(devices: seq<DeviceUsage>, req: Request, pod: Pod, sel: Selection, quota: QuotaManager, placed: PodDevices)
    returns (full: bool, row: ContainerDevices, ghost at: seq<nat>, ghost run: int)
    ensures Picked(sel, devices, req, row, at)
    ensures sel.numaBind ==> SameNuma(devices, at, run)
    ensures full ==> !sel.topology && |row| == req.nums
    ensures row != [] ==> QuotaOk(quota.reg, quota.ledger, pod, Rows(placed, NVIDIA) + [row])
    ensures var h := HuntOf(devices, sel, req, pod, quota.reg, quota.ledger, Rows(placed, NVIDIA));
      if sel.topology then Front(h, row) else if full then Finds(h, req.nums, row) else Missed(h, req.nums, 0)
  {
    var i, k: nat, prev := |devices|, req.nums, -1;
    row, at := [], [];
    ghost var h := HuntOf(devices, sel, req, pod, quota.reg, quota.ledger, Rows(placed, NVIDIA));
    ghost var hi: nat, last: nat := |devices|, |devices|;
    HuntStart(h, prev, req.nums);
    while i > 0
      invariant 0 <= i <= |devices| && Valid(h, req, sel, i, k, prev, row, at, hi, last)
      invariant row != [] ==> QuotaOk(quota.reg, quota.ledger, pod, Rows(placed, NVIDIA) + [row])
    {
      i := i - 1;
      k, prev, row, at, hi, last := Visit(devices, req, pod, sel, quota, placed, i, k, prev, row, at, hi, last, h);
      if k == 0 {
        full, run := true, prev;
        return;
      }
    }
    full, run := false, prev;
  }

  /** The row holds what the stretch at the front of the list gave. */
  ghost predicate Front(h: Hunt, row: ContainerDevices) {
    exists hi: nat :: Longest(h.list, 0, hi) && row == Gathered(h, 0, hi)
  }

  /** What a request is answered on a list: under the topology policy the choice from the
      stretch at the front, otherwise the first row that is complete. */
  ghost predicate Yields(h: Hunt, sel: Selection, n: nat, ok: bool, row: ContainerDevices) {
    if sel.topology then exists all :: Front(h, all) && ok == (|all| >= n) && (ok ==> Linked(sel, all, n, row))
    else if ok then Finds(h, n, row) else Missed(h, n, 0)
  }

  /** Chooses `req.nums` devices for one container. Without limits it succeeds exactly when
      a stretch of the list whose reached devices share a NUMA node has enough admissible
      ones; for the topology policy it has to be a stretch at the front. */
  method Fit(devices: seq<DeviceUsage>, req: Request, pod: Pod, sel: Selection, quota: QuotaManager, placed: PodDevices)
    returns (ok: bool, row: ContainerDevices, ghost at: seq<nat>)
    requires UniqueIds(devices)
    ensures ok ==> |row| == req.nums && Distinct(row) && Picked(sel, devices, req, row, at)
    ensures ok && sel.numaBind && row != [] ==> SameNuma(devices, at, devices[at[0]].info.numa)
    ensures ok && row != [] ==> QuotaOk(quota.reg, quota.ledger, pod, Rows(placed, NVIDIA) + [row])
    ensures Yields(HuntOf(devices, sel, req, pod, quota.reg, quota.ledger, Rows(placed, NVIDIA)), sel, req.nums, ok, row)
    ensures Unlimited(quota.reg, quota.ledger, pod.ns) ==> (ok <==> Feasible(devices, sel, req))
  {
    ghost var run;
    ok, row, at, run := Search(devices, req, pod, sel, quota, placed);
    PickedDistinct(sel, devices, req, row, at);
    if sel.topology && |row| >= req.nums {
      ok := true;
      if |row| > req.nums {
        ghost var all := row;
        ghost var p;
        row, p := ChooseLinked(sel, devices, req, row, at);
        PickedPart(sel, devices, req, all, at, p);
        PartQuotaOk(quota.reg, quota.ledger, pod, Rows(placed, NVIDIA), row, all);
        at := Combinations.Choose(at, p);
      }
    }
    if Unlimited(quota.reg, quota.ledger, pod.ns) {
      YieldsFeasible(devices, sel, req, pod, quota.reg, quota.ledger, Rows(placed, NVIDIA), ok, row);
    }
  }

  /** Without limits a request is served exactly when it is feasible. */
  lemma YieldsFeasible(devices: seq<DeviceUsage>, sel: Selection, req: Request, pod: Pod, reg: Registry, ledger: Ledger, before: PodSingleDevice,
                       ok: bool, row: ContainerDevices)
    requires Unlimited(reg, ledger, pod.ns) && Yields(HuntOf(devices, sel, req, pod, reg, ledger, before), sel, req.nums, ok, row)
    ensures ok <==> Feasible(devices, sel, req)
  {
    var h := HuntOf(devices, sel, req, pod, reg, ledger, before);
    assert Unrestricted(h);
    if sel.topology {
      var all :| Front(h, all) && ok == (|all| >= req.nums);
      var hi: nat :| Longest(h.list, 0, hi) && all == Gathered(h, 0, hi);
      FrontIff(h, hi, req.nums);
    } else {
      MissedIff(h, req.nums);
    }
  }

  /** A topology-aware request that is NUMA-bound can miss the node that would serve it: the
      search ends with the devices at the front of the list. */
  lemma FrontMisses(a: DeviceUsage, b: DeviceUsage, sel: Selection, req: Request)
    requires sel.numaBind && sel.topology && req.nums == 1 && a.info.numa != b.info.numa
    requires Reached(sel, a) && !Admissible(sel, a, req) && Admissible(sel, b, req)
    ensures Enough(Seen([a, b], sel, req), 1) && !Feasible([a, b], sel, req)
  {
    var l := Seen([a, b], sel, req);
    assert Serves(l, 1, 2, 1);
    assert CountIn(l, 0, 1) == 0;
    assert !OneNode(l, 0, 2) by { assert NumaAt(l, 0) != NumaAt(l, 1); }
  }

  // ---------- Topology-aware choice among the candidates ----------

  function LinkScore(sel: Selection, a: DeviceId, b: DeviceId): int {
    if a in sel.scores && b in sel.scores[a] then sel.scores[a][b] else 0
  }

  function PairScore(sel: Selection): (ContainerDevice, ContainerDevice) -> int {
    (a: ContainerDevice, b: ContainerDevice) => LinkScore(sel, a.uuid, b.uuid)
  }

  /** The links of candidate `x` to the first `n` candidates. */
  function LinksOf(sel: Selection, row: ContainerDevices, x: nat, n: nat): int
    requires x < |row| && n <= |row|
  {
    if n == 0 then 0
    else LinksOf(sel, row, x, n - 1) + if row[x].uuid == row[n - 1].uuid then 0 else LinkScore(sel, row[x].uuid, row[n - 1].uuid)
  }

  /** The candidate with the weakest links to the others. */
  method ComputeWorstSingleCard(sel: Selection, row: ContainerDevices) returns (worst: nat)
    requires row != []
    ensures worst < |row|
    ensures forall x :: 0 <= x < |row| ==> LinksOf(sel, row, worst, |row|) <= LinksOf(sel, row, x, |row|)
    ensures forall x :: 0 <= x < worst ==> LinksOf(sel, row, worst, |row|) < LinksOf(sel, row, x, |row|)
  {
    var worstScore, found := 0, false;
    worst := 0;
    for x := 0 to |row|
      invariant found == (x > 0) && (found ==> worst < x && worstScore == LinksOf(sel, row, worst, |row|))
      invariant !found ==> worst == 0
      invariant forall y :: 0 <= y < x ==> worstScore <= LinksOf(sel, row, y, |row|)
      invariant worst <= x && forall y :: 0 <= y < worst ==> worstScore < LinksOf(sel, row, y, |row|)
    {
      var total := 0;
      for z := 0 to |row|
        invariant total == LinksOf(sel, row, x, z)
      {
        if row[x].uuid != row[z].uuid {
          total := total + LinkScore(sel, row[x].uuid, row[z].uuid);
        }
      }
      if !found || total < worstScore {
        found, worstScore, worst := true, total, x;
      }
    }
  }

  lemma PickedPart(sel: Selection, devices: seq<DeviceUsage>, req: Request, row: ContainerDevices, at: seq<nat>, p: Combinations.Pick)
    requires Distinct(row) && Picked(sel, devices, req, row, at) && Combinations.IsPick(p, 0, |row|, |p|)
    ensures Picked(sel, devices, req, Combinations.Choose(row, p), Combinations.Choose(at, p))
    ensures PartOf(Combinations.Choose(row, p), row)
  {
  }

  /** The choice from the candidates `all`: the card whose links to the others score least and
      the earliest of those, or the best connected combination and the first of those. */
  ghost predicate Linked(sel: Selection, all: ContainerDevices, n: nat, row: ContainerDevices) {
    if |all| == n then row == all
    else if n == 1 then exists x :: 0 <= x < |all| && row == [all[x]] && Weakest(sel, all, x)
    else exists p :: Combinations.FirstOptimum(all, n, p, PairScore(sel)) && row == Combinations.Choose(all, p)
  }

  /** No other candidate has weaker links to the rest, and those before have stronger ones. */
  ghost predicate Weakest(sel: Selection, all: ContainerDevices, x: nat)
    requires x < |all|
  {
    && (forall y :: 0 <= y < |all| ==> LinksOf(sel, all, x, |all|) <= LinksOf(sel, all, y, |all|))
    && (forall y :: 0 <= y < x ==> LinksOf(sel, all, x, |all|) < LinksOf(sel, all, y, |all|))
  }

  /** Cuts too many candidates down to the requested number. */
  method ChooseLinked(sel: Selection, devices: seq<DeviceUsage>, req: Request, row: ContainerDevices, ghost at: seq<nat>)
    returns (chosen: ContainerDevices, ghost p: Combinations.Pick)
    requires |row| > req.nums && Distinct(row) && Picked(sel, devices, req, row, at)
    ensures Combinations.IsPick(p, 0, |row|, req.nums) && chosen == Combinations.Choose(row, p)
    ensures Linked(sel, row, req.nums, chosen)
  {
    if req.nums == 1 {
      var x := ComputeWorstSingleCard(sel, row);
      chosen, p := [row[x]], [x];
    } else {
      chosen := Combinations.BestOf(row, req.nums, PairScore(sel));
      p :| Combinations.FirstOptimum(row, req.nums, p, PairScore(sel)) && chosen == Combinations.Choose(row, p);
    }
  }

  // ---------- What the scores mean ----------

  lemma PairOnly(sel: Selection, pair: ContainerDevices)
    requires |pair| == 2
    ensures Combinations.PairTotal(pair, PairScore(sel)) == LinkScore(sel, pair[0].uuid, pair[1].uuid)
  {
    var f := PairScore(sel);
    assert Combinations.PairsBelow(pair, 1, f) == Combinations.PairsBelow(pair, 0, f) + Combinations.PairsWith(pair, 0, 0, f);
    assert Combinations.PairsWith(pair, 1, 1, f) == Combinations.PairsWith(pair, 1, 0, f) + f(pair[0], pair[1]);
  }

  /** The link score the node registered for two devices. */
  function Registered(sel: Selection, a: DeviceId, b: DeviceId): int {
    if a !in sel.scores then 0 else if b !in sel.scores[a] then 0 else sel.scores[a][b]
  }

  /** Where two cards are asked, no two candidates have a better link than those chosen. */
  lemma TwoCardsBest(sel: Selection, all: ContainerDevices, row: ContainerDevices, x: nat, y: nat)
    requires Linked(sel, all, 2, row) && x < y < |all|
    ensures |row| == 2 && Registered(sel, all[x].uuid, all[y].uuid) <= Registered(sel, row[0].uuid, row[1].uuid)
  {
    if |all| > 2 {
      var p :| Combinations.FirstOptimum(all, 2, p, PairScore(sel)) && row == Combinations.Choose(all, p);
      var q: Combinations.Pick := [x, y];
      assert Combinations.IsPick(q, 0, |all|, 2) && Combinations.Choose(all, q) == [all[x], all[y]];
      PairOnly(sel, Combinations.Choose(all, q));
      PairOnly(sel, row);
    }
  }

  /** Where one card is asked and there are two, the one with the weaker link to the other. */
  lemma OneCardWeakest(sel: Selection, a: ContainerDevice, b: ContainerDevice, row: ContainerDevices)
    requires Linked(sel, [a, b], 1, row) && a.uuid != b.uuid
    ensures row == if Registered(sel, a.uuid, b.uuid) <= Registered(sel, b.uuid, a.uuid) then [a] else [b]
  {
    var all := [a, b];
    assert LinksOf(sel, all, 0, 1) == LinksOf(sel, all, 0, 0) && LinksOf(sel, all, 1, 1) == LinksOf(sel, all, 1, 0) + LinkScore(sel, b.uuid, a.uuid);
    assert LinksOf(sel, all, 0, 2) == Registered(sel, a.uuid, b.uuid) && LinksOf(sel, all, 1, 2) == Registered(sel, b.uuid, a.uuid);
    var x :| 0 <= x < |all| && row == [all[x]] && Weakest(sel, all, x);
  }

  /** The quota check, written out: memory counts in units of the factor. */
  lemma QuotaOkExactly(reg: Registry, ledger: Ledger, pod: Pod, rows: PodSingleDevice)
    requires NVIDIA in reg && pod.ns in ledger && reg[NVIDIA].memory in ledger[pod.ns] && reg[NVIDIA].core in ledger[pod.ns]
    ensures var m, c, row := ledger[pod.ns][reg[NVIDIA].memory], ledger[pod.ns][reg[NVIDIA].core], CollapsedRow(pod, NVIDIA, rows);
      QuotaOk(reg, ledger, pod, rows) <==>
        && (m.limitSet ==> m.used + RowTotal(row, Mem) <= m.limit * (if reg[NVIDIA].factor > 1 then reg[NVIDIA].factor else 1))
        && (c.limitSet ==> c.used + RowTotal(row, Cores) <= c.limit)
  {
  }
}
