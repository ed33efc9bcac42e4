/** Which devices a placed pod gets and which nodes must take it, told in terms of the devices,
    the request and the pod's annotations. */
module Promises {
  import opened Usages
  import opened Devices
  import opened Lifecycle
  import opened Placement
  import opened Quotas
  import opened Counting
  import opened Fitting
  import opened Simulation
  import opened Scoring
  import opened Refusals
  import Nvidia
  import Ascend

  // ---------- What is granted ----------

  /** What the device had in use when container `i` of the placement started. */
  function InUse(dev: DeviceUsage, pod: Pod, rows: PodSingleDevice, i: nat, r: Res): nat
    requires i <= |rows|
  {
    dev.use.Of(r) + LiveUse(pod, rows[..i], i, dev.info.id, r)
  }

  /** The memory of a grant: what was asked, or the percentage of the card rounded down. */
  predicate MemoryAsked(mem: nat, total: nat, req: Request) {
    && (req.memreq > 0 ==> mem == req.memreq)
    && (req.memreq == 0 && req.mempct != 101 ==> 100 * mem <= total * req.mempct < 100 * mem + 100)
    && (req.memreq == 0 && req.mempct == 101 ==> mem == 0)
  }

  lemma NvidiaMemory(info: DeviceInfo, req: Request)
    ensures MemoryAsked(Nvidia.MemReq(info, req), info.totalmem, req)
  {
    var whole := info.totalmem * req.mempct;
    assert 100 * (whole / 100) <= whole < 100 * (whole / 100) + 100;
  }

  lemma AscendMemory(info: DeviceInfo, req: Request)
    ensures MemoryAsked(Ascend.MemReq(info, req), info.totalmem, req)
  {
    var whole := info.totalmem * req.mempct;
    assert 100 * (whole / 100) <= whole < 100 * (whole / 100) + 100;
  }

  /** Every NVIDIA grant of a placement is on a healthy card that the pod accepts and nobody
      cordoned, with a free slot and room for the amounts asked, beside what the pod's own
      containers run there. A card the pod wants for itself had no tenant. */
  lemma GrantedCard(start: Snapshot, sel: Selection, pod: Pod, raw: PodDevices, i: nat, x: nat)
    requires WellKeyed(start) && PlacedAll(start, sel, pod, raw) && i < |pod.reqs| && NVIDIA in pod.reqs[i] && x < |Rows(raw, NVIDIA)[i]|
    ensures var req, rows := pod.reqs[i][NVIDIA], Rows(raw, NVIDIA);
      var e := rows[i][x];
      |rows[i]| == req.nums && e.uuid in start && e.uuid in sel.typeOk && e.uuid in sel.uuidOk && e.uuid !in sel.cordoned &&
      var dev := start[e.uuid];
      && dev.info.health && dev.info.vendor == NVIDIA && e.cores == req.coresreq <= 100 && MemoryAsked(e.mem, dev.info.totalmem, req)
      && InUse(dev, pod, rows, i, Slots) + 1 <= dev.info.count
      && InUse(dev, pod, rows, i, Mem) + e.mem <= dev.info.totalmem
      && InUse(dev, pod, rows, i, Cores) + e.cores <= dev.info.totalcore
      && (sel.mutex || (req.coresreq == 100 && dev.info.totalcore == 100) ==> InUse(dev, pod, rows, i, Slots) == 0)
      && (req.coresreq == 0 && dev.info.totalcore > 0 ==> InUse(dev, pod, rows, i, Cores) < dev.info.totalcore)
  {
    var req, rows := pod.reqs[i][NVIDIA], Rows(raw, NVIDIA);
    assert Requests(pod, NVIDIA) && StepOk(start, sel, pod, NVIDIA, rows[..i], rows[i]);
    NvidiaMemory(start[rows[i][x].uuid].info, req);
  }

  /** The same for Ascend cards. A card on which one tenant has all cores is not shared. */
  lemma GrantedAscend(start: Snapshot, sel: Selection, pod: Pod, raw: PodDevices, i: nat, x: nat)
    requires WellKeyed(start) && PlacedAll(start, sel, pod, raw) && i < |pod.reqs| && ASCEND in pod.reqs[i] && x < |Rows(raw, ASCEND)[i]|
    ensures var req, rows := pod.reqs[i][ASCEND], Rows(raw, ASCEND);
      var e := rows[i][x];
      |rows[i]| == req.nums && e.uuid in start && e.uuid in sel.typeOk && e.uuid in sel.uuidOk &&
      var dev := start[e.uuid];
      && dev.info.health && dev.info.vendor == ASCEND && e.cores == req.coresreq <= 100 && MemoryAsked(e.mem, dev.info.totalmem, req)
      && InUse(dev, pod, rows, i, Slots) + 1 <= dev.info.count
      && InUse(dev, pod, rows, i, Mem) + e.mem <= dev.info.totalmem
      && InUse(dev, pod, rows, i, Cores) + e.cores <= dev.info.totalcore
      && (sel.mutex || (req.coresreq == 100 && (sel.hamiCore || dev.info.totalcore == 100)) ==> InUse(dev, pod, rows, i, Slots) == 0)
      && (req.coresreq == 0 && dev.info.totalcore > 0 ==> InUse(dev, pod, rows, i, Cores) != dev.info.totalcore)
      && (InUse(dev, pod, rows, i, Cores) >= 100 ==> forall j :: 0 <= j < |dev.tenants| ==> dev.tenants[j].cores < 100)
  {
    var req, rows := pod.reqs[i][ASCEND], Rows(raw, ASCEND);
    assert Requests(pod, ASCEND) && StepOk(start, sel, pod, ASCEND, rows[..i], rows[i]);
    AscendMemory(start[rows[i][x].uuid].info, req);
  }

  // ---------- What must be served ----------

  /** An idle NVIDIA card that the pod accepts and that is large enough. */
  predicate IdleCard(dev: DeviceUsage, sel: Selection, req: Request) {
    && dev.info.vendor == NVIDIA && dev.info.health && dev.info.id !in sel.cordoned && dev.info.id in sel.typeOk && dev.info.id in sel.uuidOk
    && dev.use == Usage(0, 0, 0) && dev.info.count > 0 && 0 < req.memreq <= dev.info.totalmem && 0 <= req.coresreq <= 100 && req.coresreq <= dev.info.totalcore
  }

  lemma IdleAdmissible(dev: DeviceUsage, sel: Selection, req: Request)
    requires IdleCard(dev, sel, req)
    ensures Nvidia.Admissible(sel, dev, req)
  {
  }

  lemma IdleCounted(devs: Snapshot, sel: Selection, pod: Pod, req: Request, before: PodSingleDevice, list: seq<DeviceUsage>, ids: set<DeviceId>)
    requires WellKeyed(devs) && ListOf(devs, NVIDIA, list) && forall d :: d in ids ==> d in devs && IdleCard(devs[d], sel, req)
    ensures CountGood(list, SeenBy(list, sel, pod, NVIDIA, req, before).good, 0) >= |ids|
  {
    var good := SeenBy(list, sel, pod, NVIDIA, req, before).good;
    forall d | d in ids ensures GoodFrom(list, good, 0, d) {
      IdleAdmissible(devs[d], sel, req);
      var j :| 0 <= j < |list| && list[j] == devs[d];
    }
    GoodIds(list, good, 0, ids);
  }

  lemma FirstContainer(start: Snapshot, sel: Selection, pod: Pod, types: set<string>, pd: PodDevices)
    requires WellKeyed(start) && Progress(start, sel, pod, types, pd, 0)
    ensures Live(start, pod, pd) == start && forall t :: Rows(pd, t) == []
  {
    forall t ensures Rows(pd, t) == [] { assert |Rows(pd, t)| == 0; }
    forall d | d in start ensures WithLive(start[d], pod, []) == start[d] {}
  }

  /** A node with as many idle cards as a pod's only container asks for takes the pod, if the
      namespace has no limits and the cards are on one NUMA node or the pod is not bound to one. */
  lemma IdleNodeServes(start: Snapshot, sel: Selection, pod: Pod, reg: Registry, ledger: Ledger, req: Request, ids: set<DeviceId>)
    requires WellKeyed(start) && pod.sidecars == [] && pod.reqs == [map[NVIDIA := req]] && Nvidia.Unlimited(reg, ledger, pod.ns)
    requires !sel.numaBind || OneNuma(start, NVIDIA)
    requires |ids| >= req.nums && forall d :: d in ids ==> d in start && IdleCard(start[d], sel, req)
    ensures !Refused(start, sel, pod, reg, ledger)
  {
    if Refused(start, sel, pod, reg, ledger) {
      var types: set<string>, pd: PodDevices, n: nat :| RefusedAt(start, sel, pod, reg, ledger, types, pd, n);
      FirstContainer(start, sel, pod, types, pd);
      var row: ContainerDevices :| Answers(start, sel, pod, NVIDIA, req, [], reg, ledger, false, row);
      OneNumaAnswer(start, sel, pod, NVIDIA, req, [], reg, ledger, false, row);
      var list :| ListOf(start, NVIDIA, list) && CountGood(list, SeenBy(list, sel, pod, NVIDIA, req, []).good, 0) < req.nums;
      IdleCounted(start, sel, pod, req, [], list, ids);
    }
  }

  /** An idle Ascend card that the pod accepts and that is large enough. */
  predicate IdleAscend(dev: DeviceUsage, sel: Selection, req: Request) {
    && dev.info.vendor == ASCEND && dev.info.health && dev.info.id in sel.typeOk && dev.info.id in sel.uuidOk && dev.tenants == []
    && dev.use == Usage(0, 0, 0) && dev.info.count > 0 && 0 < req.memreq <= dev.info.totalmem && 0 <= req.coresreq <= 100 && req.coresreq <= dev.info.totalcore
  }

  lemma IdleAscendCounted(devs: Snapshot, sel: Selection, pod: Pod, req: Request, list: seq<DeviceUsage>, ids: set<DeviceId>)
    requires WellKeyed(devs) && ListOf(devs, ASCEND, list) && forall d :: d in ids ==> d in devs && IdleAscend(devs[d], sel, req)
    ensures CountGood(list, SeenBy(list, sel, pod, ASCEND, req, []).good, 0) >= |ids|
  {
    var good := SeenBy(list, sel, pod, ASCEND, req, []).good;
    forall d | d in ids ensures GoodFrom(list, good, 0, d) {
      assert Ascend.OthersCores([], pod.uid) == 0;
      var j :| 0 <= j < |list| && list[j] == devs[d];
      assert good(list[j]);
    }
    GoodIds(list, good, 0, ids);
  }

  lemma IdleAscendServes(start: Snapshot, sel: Selection, pod: Pod, reg: Registry, ledger: Ledger, req: Request, ids: set<DeviceId>)
    requires WellKeyed(start) && pod.sidecars == [] && pod.reqs == [map[ASCEND := req]]
    requires !sel.numaBind || OneNuma(start, ASCEND)
    requires |ids| >= req.nums && forall d :: d in ids ==> d in start && IdleAscend(start[d], sel, req)
    ensures !Refused(start, sel, pod, reg, ledger)
  {
    if Refused(start, sel, pod, reg, ledger) {
      var types: set<string>, pd: PodDevices, n: nat :| RefusedAt(start, sel, pod, reg, ledger, types, pd, n);
      FirstContainer(start, sel, pod, types, pd);
      var row: ContainerDevices :| Answers(start, sel, pod, ASCEND, req, [], reg, ledger, false, row);
      OneNumaAnswer(start, sel, pod, ASCEND, req, [], reg, ledger, false, row);
      var list :| ListOf(start, ASCEND, list) && CountGood(list, SeenBy(list, sel, pod, ASCEND, req, []).good, 0) < req.nums;
      IdleAscendCounted(start, sel, pod, req, list, ids);
    }
  }
}
