/** Placing one container: `fitInDevices` asks the backend of every requested device
    type and books what it grants. */
module Fitting {
  import opened Usages
  import opened Devices
  import opened Lifecycle
  import opened Placement
  import opened Nodes
  import opened QuotaManagers
  import opened Quotas
  import opened Counting
  import Stretches
  import Nvidia
  import Ascend

  function RowAt(pd: PodDevices, t: string, i: nat): ContainerDevices {
    if t in pd && i < |pd[t]| then pd[t][i] else []
  }

  /** Rows of a type name only devices its backend serves. */
  ghost predicate Typed(devs: Snapshot, pd: PodDevices) {
    forall t, i :: t in pd && 0 <= i < |pd[t]| ==> RowTyped(devs, t, pd[t][i])
  }

  ghost predicate RowTyped(devs: Snapshot, t: string, row: ContainerDevices) {
    forall x :: 0 <= x < |row| ==> row[x].uuid in devs && devs[row[x].uuid].info.vendor == t
  }

  /** The devices after a container with the rows `pd[..][n]` of the types `done`. */
  function Booked(devs: Snapshot, pd: PodDevices, done: set<string>, n: nat): Snapshot {
    map d | d in devs :: if devs[d].info.vendor in done then WithRow(devs[d], RowAt(pd, devs[d].info.vendor, n)) else devs[d]
  }

  lemma ForeignLive(devs: Snapshot, pod: Pod, pd: PodDevices, t: string, d: DeviceId)
    requires Typed(devs, pd) && t in pd && d in devs && devs[d].info.vendor != t
    ensures LiveUse(pod, pd[t], |pd[t]|, d, Cores) == 0
  {
    var rows := pd[t];
    forall i | 0 <= i < |rows| ensures !Names(rows[i], d) { assert RowTyped(devs, t, rows[i]); }
    LiveUnnamed(pod, rows, |rows|, d, Cores);
  }

  lemma {:induction false} ForeignSelf(devs: Snapshot, pod: Pod, pd: PodDevices, d: DeviceId)
    requires Typed(devs, pd) && d in devs && devs[d].info.vendor !in pd
    ensures Ascend.SelfCores(pod, pd, d) == 0
    decreases |pd|
  {
    if pd != map[] {
      var t :| t in pd;
      SumMapRemove(pd, Ascend.LiveCores(pod, d), t);
      ForeignLive(devs, pod, pd, t, d);
      assert Typed(devs, pd - {t});
      ForeignSelf(devs, pod, pd - {t}, d);
    }
  }

  /** The cores a pod runs on a device come from the rows of the device's own type. */
  lemma SelfIsLive(devs: Snapshot, pod: Pod, pd: PodDevices, d: DeviceId)
    requires Typed(devs, pd) && d in devs
    ensures var rows := Rows(pd, devs[d].info.vendor); Ascend.SelfCores(pod, pd, d) == LiveUse(pod, rows, |rows|, d, Cores)
  {
    var t := devs[d].info.vendor;
    if t in pd {
      SumMapRemove(pd, Ascend.LiveCores(pod, d), t);
      assert Typed(devs, pd - {t});
      ForeignSelf(devs, pod, pd - {t}, d);
    } else {
      ForeignSelf(devs, pod, pd, d);
    }
  }

  lemma NvidiaRowOk(devs: Snapshot, sel: Selection, pod: Pod, req: Request, before: PodSingleDevice, list: seq<DeviceUsage>,
                    row: ContainerDevices, at: seq<nat>)
    requires WellKeyed(devs)
    requires forall x :: 0 <= x < |list| ==> list[x].info.id in devs && list[x] == devs[list[x].info.id] && list[x].info.vendor == NVIDIA
    requires |row| == req.nums && Distinct(row) && Nvidia.Picked(sel, list, req, row, at)
    ensures RowOk(devs, sel, pod, NVIDIA, req, before, row) && RowTyped(devs, NVIDIA, row)
    ensures forall x :: 0 <= x < |row| ==> row[x].slots == 0
  {
  }

  lemma AscendRowOk(devs: Snapshot, sel: Selection, pod: Pod, req: Request, pd: PodDevices, list: seq<DeviceUsage>,
                    row: ContainerDevices, at: seq<nat>)
    requires WellKeyed(devs) && Typed(devs, pd)
    requires forall x :: 0 <= x < |list| ==> list[x].info.id in devs && list[x] == devs[list[x].info.id] && list[x].info.vendor == ASCEND
    requires |row| == req.nums && Distinct(row) && Ascend.Picked(sel, list, req, pod, pd, row, at)
    ensures RowOk(devs, sel, pod, ASCEND, req, Rows(pd, ASCEND), row) && RowTyped(devs, ASCEND, row)
    ensures forall x :: 0 <= x < |row| ==> row[x].slots == 0
  {
    forall x | 0 <= x < |row| ensures row[x].uuid in devs && devs[row[x].uuid].info.vendor == ASCEND
      && Grants(sel, devs[row[x].uuid], ASCEND, req, LiveUse(pod, Rows(pd, ASCEND), |Rows(pd, ASCEND)|, row[x].uuid, Cores), pod.uid, row[x])
    {
      SelfIsLive(devs, pod, pd, row[x].uuid);
    }
  }

  /** A row of one type leaves the devices of every other type alone. */
  lemma ForeignRow(dev: DeviceUsage, devs: Snapshot, t: string, row: ContainerDevices)
    requires RowTyped(devs, t, row) && dev.info.id in devs && devs[dev.info.id].info.vendor != t
    ensures WithRow(dev, row) == dev
  {
    assert !Names(row, dev.info.id);
    RowUseUnnamed(row, dev.info.id, Mem);
    RowUseUnnamed(row, dev.info.id, Cores);
    RowUseUnnamed(row, dev.info.id, Slots);
  }

  lemma BookOne(devs: Snapshot, pd: PodDevices, pd': PodDevices, done: set<string>, t: string, n: nat, row: ContainerDevices)
    requires WellKeyed(devs) && t !in done && RowTyped(devs, t, row)
    requires |Rows(pd, t)| == n && pd' == pd[t := Rows(pd, t) + [row]]
    ensures Rowed(Booked(devs, pd, done, n), row) == Booked(devs, pd', done + {t}, n)
  {
    assert RowAt(pd', t, n) == row;
    forall d | d in devs ensures Rowed(Booked(devs, pd, done, n), row)[d] == Booked(devs, pd', done + {t}, n)[d] {
      if devs[d].info.vendor != t {
        ForeignRow(Booked(devs, pd, done, n)[d], devs, t, row);
        assert RowAt(pd', devs[d].info.vendor, n) == RowAt(pd, devs[d].info.vendor, n);
      }
    }
  }

  /** The row that was placed for type `t` after the `n` rows given. */
  ghost predicate TypeFitted(devs: Snapshot, sel: Selection, pod: Pod, requests: ContainerRequests, before: PodSingleDevice,
                             rows: PodSingleDevice, t: string, n: nat) {
    && t in requests && IsBackend(t) && |before| == n && |rows| == n + 1 && rows == before + [rows[n]]
    && RowOk(devs, sel, pod, t, requests[t], before, rows[n])
  }

  /** What placing the container of `requests` after `n` others did to the rows. */
  ghost predicate Fitted(devs: Snapshot, sel: Selection, pod: Pod, requests: ContainerRequests, given: PodDevices, pd: PodDevices,
                         done: set<string>, n: nat) {
    && pd.Keys == given.Keys + done
    && (forall t :: t in done ==> TypeFitted(devs, sel, pod, requests, Rows(given, t), pd[t], t, n))
    && (forall t :: t in given && t !in done ==> pd[t] == given[t])
  }

  lemma TypedOne(devs: Snapshot, pd: PodDevices, t: string, row: ContainerDevices)
    requires Typed(devs, pd) && RowTyped(devs, t, row)
    ensures Typed(devs, pd[t := Rows(pd, t) + [row]])
  {
    var pd' := pd[t := Rows(pd, t) + [row]];
    forall u, i | u in pd' && 0 <= i < |pd'[u]| ensures RowTyped(devs, u, pd'[u][i]) {
      if u == t && i < |Rows(pd, t)| { assert RowTyped(devs, t, pd[t][i]); }
      if u != t { assert RowTyped(devs, u, pd[u][i]); }
    }
  }

  lemma FitOne(devs: Snapshot, sel: Selection, pod: Pod, requests: ContainerRequests, given: PodDevices, pd: PodDevices,
               done: set<string>, n: nat, t: string, row: ContainerDevices)
    requires Fitted(devs, sel, pod, requests, given, pd, done, n) && t !in done
    requires TypeFitted(devs, sel, pod, requests, Rows(given, t), Rows(given, t) + [row], t, n)
    ensures Fitted(devs, sel, pod, requests, given, pd[t := Rows(pd, t) + [row]], done + {t}, n)
  {
    var pd' := pd[t := Rows(pd, t) + [row]];
    assert pd'[t] == Rows(given, t) + [row];
    forall u | u in done + {t} ensures TypeFitted(devs, sel, pod, requests, Rows(given, u), pd'[u], u, n) {
      if u != t { assert pd'[u] == pd[u]; }
    }
  }

  // ---------- When a type can be served ----------

  /** The backend could grant the container an acceptable row. */
  ghost predicate CanFit(devs: Snapshot, sel: Selection, pod: Pod, t: string, req: Request, before: PodSingleDevice) {
    IsBackend(t) && exists row :: RowOk(devs, sel, pod, t, req, before, row)
  }

  /** Neither a NUMA bind nor a quota limit narrows the choice. */
  predicate Open(sel: Selection, reg: Registry, ledger: Ledger, ns: string) {
    !sel.numaBind && Nvidia.Unlimited(reg, ledger, ns)
  }

  /** The search of the Ascend backend, beside the cores that the pod's own rows run. */
  ghost function AscendHunt(list: seq<DeviceUsage>, sel: Selection, req: Request, pod: Pod, before: PodSingleDevice): Stretches.Hunt {
    Stretches.Hunt(
      Stretches.Listing(list, (dev: DeviceUsage) => Ascend.Reached(sel, dev),
                        (dev: DeviceUsage) => Ascend.Admissible(sel, dev, req, LiveUse(pod, before, |before|, dev.info.id, Cores), pod.uid), sel.numaBind),
      (dev: DeviceUsage) => Ascend.Grant(dev.info, req), (row: ContainerDevices, dev: DeviceUsage) => true)
  }

  /** What the backend of type `t` answers on a device list. */
  ghost predicate Yields(list: seq<DeviceUsage>, sel: Selection, pod: Pod, t: string, req: Request, before: PodSingleDevice, reg: Registry,
                         ledger: Ledger, ok: bool, row: ContainerDevices) {
    if t == NVIDIA then Nvidia.Yields(Nvidia.HuntOf(list, sel, req, pod, reg, ledger, before), sel, req.nums, ok, row)
    else
      var h := AscendHunt(list, sel, req, pod, before);
      if ok then Stretches.Finds(h, req.nums, row) else Stretches.Missed(h, req.nums, 0)
  }

  /** What a container is answered for type `t` on these devices, in whichever order they were
      listed. Types without a backend are refused. */
  ghost predicate Answers(devs: Snapshot, sel: Selection, pod: Pod, t: string, req: Request, before: PodSingleDevice, reg: Registry, ledger: Ledger,
                          ok: bool, row: ContainerDevices) {
    if IsBackend(t) then exists list :: ListOf(devs, t, list) && Yields(list, sel, pod, t, req, before, reg, ledger, ok, row) else !ok
  }

  /** The list holds every device of type `t`. */
  ghost predicate ListsType(devs: Snapshot, t: string, list: seq<DeviceUsage>) {
    forall d :: d in devs && devs[d].info.vendor == t ==> devs[d] in list
  }

  lemma RowListed(devs: Snapshot, sel: Selection, pod: Pod, t: string, req: Request, before: PodSingleDevice, row: ContainerDevices,
                  list: seq<DeviceUsage>, good: DeviceUsage -> bool)
    requires WellKeyed(devs) && RowOk(devs, sel, pod, t, req, before, row) && ListsType(devs, t, list)
    requires forall x :: 0 <= x < |row| ==> good(devs[row[x].uuid])
    ensures CountGood(list, good, 0) >= req.nums
  {
    forall x | 0 <= x < |row| ensures GoodFrom(list, good, 0, row[x].uuid) {
      var j :| 0 <= j < |list| && list[j] == devs[row[x].uuid];
    }
    RowCounted(list, good, row);
  }

  lemma NvidiaEnough(devs: Snapshot, sel: Selection, pod: Pod, req: Request, before: PodSingleDevice, list: seq<DeviceUsage>)
    requires WellKeyed(devs) && CanFit(devs, sel, pod, NVIDIA, req, before) && ListsType(devs, NVIDIA, list) && !sel.numaBind
    ensures |list| >= req.nums && Nvidia.Feasible(list, sel, req)
  {
    var row: ContainerDevices :| RowOk(devs, sel, pod, NVIDIA, req, before, row);
    RowListed(devs, sel, pod, NVIDIA, req, before, row, list, Nvidia.Seen(list, sel, req).good);
    Stretches.UnboundIff(Nvidia.Seen(list, sel, req), req.nums);
  }

  lemma AscendEnough(devs: Snapshot, sel: Selection, pod: Pod, req: Request, before: PodSingleDevice, list: seq<DeviceUsage>)
    requires WellKeyed(devs) && CanFit(devs, sel, pod, ASCEND, req, before) && ListsType(devs, ASCEND, list) && !sel.numaBind
    ensures Stretches.Enough(AscendHunt(list, sel, req, pod, before).list, req.nums)
  {
    var l := AscendHunt(list, sel, req, pod, before).list;
    var row: ContainerDevices :| RowOk(devs, sel, pod, ASCEND, req, before, row);
    RowListed(devs, sel, pod, ASCEND, req, before, row, list, l.good);
    Stretches.UnboundIff(l, req.nums);
  }

  /** Where nothing narrows the choice, a refusal means that no row would do. */
  lemma OpenRefusal(devs: Snapshot, sel: Selection, pod: Pod, t: string, req: Request, before: PodSingleDevice, reg: Registry, ledger: Ledger,
                    row: ContainerDevices)
    requires WellKeyed(devs) && Open(sel, reg, ledger, pod.ns) && Answers(devs, sel, pod, t, req, before, reg, ledger, false, row)
    ensures !CanFit(devs, sel, pod, t, req, before)
  {
    if CanFit(devs, sel, pod, t, req, before) {
      var list :| ListOf(devs, t, list) && Yields(list, sel, pod, t, req, before, reg, ledger, false, row);
      if t == NVIDIA {
        NvidiaEnough(devs, sel, pod, req, before, list);
        Nvidia.YieldsFeasible(list, sel, req, pod, reg, ledger, before, false, row);
      } else {
        AscendEnough(devs, sel, pod, req, before, list);
        Stretches.MissedIff(AscendHunt(list, sel, req, pod, before), req.nums);
      }
    }
  }

  /** The devices of type `t` are still as they were when the container started. */
  ghost predicate Untouched(devs: Snapshot, now: Snapshot, t: string) {
    && now.Keys == devs.Keys
    && (forall d :: d in devs ==> now[d].info == devs[d].info)
    && (forall d :: d in devs && devs[d].info.vendor == t ==> now[d] == devs[d])
  }

  lemma BookedUntouched(devs: Snapshot, pd: PodDevices, done: set<string>, n: nat, t: string)
    requires t !in done
    ensures Untouched(devs, Booked(devs, pd, done, n), t)
  {
  }

  /** The devices of type `t` of a snapshot, each once. */
  ghost predicate ListOf(devs: Snapshot, t: string, list: seq<DeviceUsage>) {
    && UniqueIds(list) && ListsType(devs, t, list)
    && (forall x :: 0 <= x < |list| ==> list[x].info.id in devs && list[x] == devs[list[x].info.id] && list[x].info.vendor == t)
  }

  method ServeNvidia(list: seq<DeviceUsage>, req: Request, pod: Pod, sel: Selection, quota: QuotaManager, pd: PodDevices, ghost devs: Snapshot)
    returns (ok: bool, row: ContainerDevices)
    requires WellKeyed(devs) && ListOf(devs, NVIDIA, list)
    ensures ok ==> RowOk(devs, sel, pod, NVIDIA, req, Rows(pd, NVIDIA), row) && RowTyped(devs, NVIDIA, row)
    ensures ok ==> (forall x :: 0 <= x < |row| ==> row[x].slots == 0) && Nvidia.QuotaOk(quota.reg, quota.ledger, pod, Rows(pd, NVIDIA) + [row])
    ensures Yields(list, sel, pod, NVIDIA, req, Rows(pd, NVIDIA), quota.reg, quota.ledger, ok, row)
  {
    ghost var at;
    ok, row, at := Nvidia.Fit(list, req, pod, sel, quota, pd);
    if ok { NvidiaRowOk(devs, sel, pod, req, Rows(pd, NVIDIA), list, row, at); }
  }

  method ServeAscend(list: seq<DeviceUsage>, req: Request, pod: Pod, sel: Selection, quota: QuotaManager, pd: PodDevices, ghost devs: Snapshot)
    returns (ok: bool, row: ContainerDevices)
    requires WellKeyed(devs) && Typed(devs, pd) && ListOf(devs, ASCEND, list)
    ensures ok ==> RowOk(devs, sel, pod, ASCEND, req, Rows(pd, ASCEND), row) && RowTyped(devs, ASCEND, row)
    ensures ok ==> forall x :: 0 <= x < |row| ==> row[x].slots == 0
    ensures Yields(list, sel, pod, ASCEND, req, Rows(pd, ASCEND), quota.reg, quota.ledger, ok, row)
  {
    ghost var at;
    ok, row, at := Ascend.Fit(list, req, pod, sel, pd);
    if ok { AscendRowOk(devs, sel, pod, req, pd, list, row, at); }
    AscendYields(list, req, pod, sel, pd, devs, quota.reg, quota.ledger, ok, row);
  }

  /** The cores of the pod's own rows are those the backend counts. */
  lemma AscendYields(list: seq<DeviceUsage>, req: Request, pod: Pod, sel: Selection, pd: PodDevices, devs: Snapshot, reg: Registry, ledger: Ledger,
                     ok: bool, row: ContainerDevices)
    requires Typed(devs, pd) && ListOf(devs, ASCEND, list)
    requires var h := Ascend.HuntOf(list, sel, req, pod, pd); if ok then Stretches.Finds(h, req.nums, row) else Stretches.Missed(h, req.nums, 0)
    ensures Yields(list, sel, pod, ASCEND, req, Rows(pd, ASCEND), reg, ledger, ok, row)
  {
    var a, b := Ascend.HuntOf(list, sel, req, pod, pd), AscendHunt(list, sel, req, pod, Rows(pd, ASCEND));
    forall i | 0 <= i < |list| ensures Stretches.SameOn(a, b, list[i]) { SelfIsLive(devs, pod, pd, list[i].info.id); }
    if ok { Stretches.SameFinds(a, b, req.nums, row); } else { Stretches.SameMissed(a, b, req.nums, 0); }
  }

  /** A request for more devices than are listed is refused by either backend. */
  lemma TooFew(list: seq<DeviceUsage>, sel: Selection, pod: Pod, t: string, req: Request, before: PodSingleDevice, reg: Registry, ledger: Ledger)
    requires req.nums > |list|
    ensures Yields(list, sel, pod, t, req, before, reg, ledger, false, [])
  {
    if t == NVIDIA {
      var h := Nvidia.HuntOf(list, sel, req, pod, reg, ledger, before);
      Stretches.FewMissed(h, req.nums);
      if sel.topology {
        var hi := Stretches.FrontStretch(h.list);
        assert Nvidia.Front(h, Stretches.Gathered(h, 0, hi));
      }
    } else {
      Stretches.FewMissed(AscendHunt(list, sel, req, pod, before), req.nums);
    }
  }

  /** Serves one device type of a container. */
  method FitType(node: NodeUsage, t: string, req: Request, pod: Pod, sel: Selection, quota: QuotaManager, pd: PodDevices,
                 ghost devs: Snapshot)
    returns (ok: bool, row: ContainerDevices)
    requires node.Valid() && WellKeyed(devs) && (t == ASCEND ==> Typed(devs, pd))
    requires Untouched(devs, node.dev, t)
    modifies node
    ensures node.Valid()
    ensures ok ==> IsBackend(t) && RowOk(devs, sel, pod, t, req, Rows(pd, t), row) && RowTyped(devs, t, row)
    ensures ok ==> node.dev == Rowed(old(node.dev), row)
    ensures ok && t == NVIDIA ==> Nvidia.QuotaOk(quota.reg, quota.ledger, pod, Rows(pd, NVIDIA) + [row])
    ensures Answers(devs, sel, pod, t, req, Rows(pd, t), quota.reg, quota.ledger, ok, row)
  {
    row := [];
    node.Sort();
    if t != NVIDIA && t != ASCEND {
      return false, row;
    }
    var list := node.TypeDevices(t);
    assert ListOf(devs, t, list);
    if req.nums > |list| {
      TooFew(list, sel, pod, t, req, Rows(pd, t), quota.reg, quota.ledger);
      return false, row;
    }
    if t == NVIDIA {
      ok, row := ServeNvidia(list, req, pod, sel, quota, pd, devs);
    } else {
      ok, row := ServeAscend(list, req, pod, sel, quota, pd, devs);
    }
    if ok {
      ok := node.AddRow(row);
    }
  }

  /** The types `done` of a container are placed and booked. */
  ghost predicate Booking(devs: Snapshot, now: Snapshot, sel: Selection, pod: Pod, requests: ContainerRequests,
                          given: PodDevices, pd: PodDevices, done: set<string>, n: nat) {
    Fitted(devs, sel, pod, requests, given, pd, done, n) && Typed(devs, pd) && now == Booked(devs, pd, done, n)
  }

  lemma BookNext(devs: Snapshot, now: Snapshot, sel: Selection, pod: Pod, requests: ContainerRequests,
                 given: PodDevices, pd: PodDevices, done: set<string>, n: nat, t: string, row: ContainerDevices)
    requires WellKeyed(devs) && Booking(devs, now, sel, pod, requests, given, pd, done, n) && t !in done
    requires t in requests && IsBackend(t) && |Rows(given, t)| == n
    requires RowOk(devs, sel, pod, t, requests[t], Rows(pd, t), row) && RowTyped(devs, t, row)
    ensures Booking(devs, Rowed(now, row), sel, pod, requests, given, pd[t := Rows(pd, t) + [row]], done + {t}, n)
  {
    TypedOne(devs, pd, t, row);
    assert Rows(pd, t) == Rows(given, t);
    assert TypeFitted(devs, sel, pod, requests, Rows(given, t), Rows(given, t) + [row], t, n);
    FitOne(devs, sel, pod, requests, given, pd, done, n, t, row);
    BookOne(devs, pd, pd[t := Rows(pd, t) + [row]], done, t, n, row);
  }

  /** Every requested type can be served. */
  ghost predicate Fittable(devs: Snapshot, sel: Selection, pod: Pod, requests: ContainerRequests, given: PodDevices) {
    forall t :: t in requests ==> CanFit(devs, sel, pod, t, requests[t], Rows(given, t))
  }

  /** The container's rows of the types `done` are what the backends answered. */
  ghost predicate Answered(devs: Snapshot, sel: Selection, pod: Pod, requests: ContainerRequests, given: PodDevices, reg: Registry, ledger: Ledger,
                           pd: PodDevices, done: set<string>, n: nat) {
    forall t :: t in done && t in requests ==> Answers(devs, sel, pod, t, requests[t], Rows(given, t), reg, ledger, true, RowAt(pd, t, n))
  }

  /** Some requested type is refused. */
  ghost predicate Refuses(devs: Snapshot, sel: Selection, pod: Pod, requests: ContainerRequests, given: PodDevices, reg: Registry, ledger: Ledger) {
    exists t, row :: t in requests && Answers(devs, sel, pod, t, requests[t], Rows(given, t), reg, ledger, false, row)
  }

  /** The types `done` are placed and booked, and an NVIDIA row among them passed the quota. */
  ghost predicate Underway(devs: Snapshot, now: Snapshot, sel: Selection, pod: Pod, requests: ContainerRequests, reg: Registry,
                           ledger: Ledger, given: PodDevices, pd: PodDevices, done: set<string>, n: nat) {
    && WellKeyed(devs) && Booking(devs, now, sel, pod, requests, given, pd, done, n)
    && (NVIDIA in done ==> Nvidia.QuotaOk(reg, ledger, pod, Rows(pd, NVIDIA)))
    && Answered(devs, sel, pod, requests, given, reg, ledger, pd, done, n)
  }

  lemma AnsweredNext(devs: Snapshot, sel: Selection, pod: Pod, requests: ContainerRequests, given: PodDevices, reg: Registry, ledger: Ledger,
                     pd: PodDevices, done: set<string>, n: nat, t: string, row: ContainerDevices)
    requires Answered(devs, sel, pod, requests, given, reg, ledger, pd, done, n) && t !in done && |Rows(pd, t)| == n
    requires t in requests && Answers(devs, sel, pod, t, requests[t], Rows(given, t), reg, ledger, true, row)
    ensures Answered(devs, sel, pod, requests, given, reg, ledger, pd[t := Rows(pd, t) + [row]], done + {t}, n)
  {
    var pd' := pd[t := Rows(pd, t) + [row]];
    forall u | u in done + {t} && u in requests ensures Answers(devs, sel, pod, u, requests[u], Rows(given, u), reg, ledger, true, RowAt(pd', u, n)) {
      if u == t { assert RowAt(pd', t, n) == row; } else { assert RowAt(pd', u, n) == RowAt(pd, u, n); }
    }
  }

  /** One more type is placed and booked. */
  lemma UnderwayNext(devs: Snapshot, now: Snapshot, sel: Selection, pod: Pod, requests: ContainerRequests, reg: Registry, ledger: Ledger, given: PodDevices,
                     pd: PodDevices, done: set<string>, n: nat, t: string, row: ContainerDevices)
    requires Underway(devs, now, sel, pod, requests, reg, ledger, given, pd, done, n) && t in requests && t !in done && |Rows(given, t)| == n
    requires IsBackend(t) && RowOk(devs, sel, pod, t, requests[t], Rows(given, t), row) && RowTyped(devs, t, row)
    requires t == NVIDIA ==> Nvidia.QuotaOk(reg, ledger, pod, Rows(given, NVIDIA) + [row])
    requires Answers(devs, sel, pod, t, requests[t], Rows(given, t), reg, ledger, true, row)
    ensures Underway(devs, Rowed(now, row), sel, pod, requests, reg, ledger, given, pd[t := Rows(pd, t) + [row]], done + {t}, n)
  {
    assert Rows(pd, t) == Rows(given, t);
    BookNext(devs, now, sel, pod, requests, given, pd, done, n, t, row);
    AnsweredNext(devs, sel, pod, requests, given, reg, ledger, pd, done, n, t, row);
  }

  /** Serves the next type of a container and books its row. */
  method FitNext(node: NodeUsage, requests: ContainerRequests, pod: Pod, sel: Selection, quota: QuotaManager,
                 ghost given: PodDevices, pd: PodDevices, t: string, ghost devs: Snapshot, ghost done: set<string>, ghost n: nat)
    returns (ok: bool, pd': PodDevices)
    requires node.Valid() && t in requests && t !in done && |Rows(given, t)| == n
    requires Underway(devs, node.dev, sel, pod, requests, quota.reg, quota.ledger, given, pd, done, n)
    modifies node
    ensures node.Valid()
    ensures ok ==> Underway(devs, node.dev, sel, pod, requests, quota.reg, quota.ledger, given, pd', done + {t}, n)
    ensures !ok ==> Refuses(devs, sel, pod, requests, given, quota.reg, quota.ledger)
  {
    ghost var now := node.dev;
    assert Rows(pd, t) == Rows(given, t);
    BookedUntouched(devs, pd, done, n, t);
    var row;
    ok, row := FitType(node, t, requests[t], pod, sel, quota, pd, devs);
    pd' := pd;
    if ok {
      UnderwayNext(devs, now, sel, pod, requests, quota.reg, quota.ledger, given, pd, done, n, t, row);
      pd' := pd[t := Rows(pd, t) + [row]];
    }
  }

  /** Everything but the types `todo` is placed and booked. */
  ghost predicate Pending(devs: Snapshot, now: Snapshot, sel: Selection, pod: Pod, requests: ContainerRequests, reg: Registry, ledger: Ledger,
                          given: PodDevices, pd: PodDevices, todo: set<string>, n: nat) {
    Underway(devs, now, sel, pod, requests, reg, ledger, given, pd, requests.Keys - todo, n)
  }

  /** Serves one of the types that are left. */
  method FitOneOf(node: NodeUsage, requests: ContainerRequests, pod: Pod, sel: Selection, quota: QuotaManager, ghost given: PodDevices,
                  pd: PodDevices, todo: set<string>, t: string, ghost devs: Snapshot, ghost n: nat)
    returns (ok: bool, pd': PodDevices)
    requires node.Valid() && t in todo && todo <= requests.Keys && |Rows(given, t)| == n
    requires Pending(devs, node.dev, sel, pod, requests, quota.reg, quota.ledger, given, pd, todo, n)
    modifies node
    ensures node.Valid()
    ensures ok ==> Pending(devs, node.dev, sel, pod, requests, quota.reg, quota.ledger, given, pd', todo - {t}, n)
    ensures !ok ==> Refuses(devs, sel, pod, requests, given, quota.reg, quota.ledger)
  {
    ok, pd' := FitNext(node, requests, pod, sel, quota, given, pd, t, devs, requests.Keys - todo, n);
    assert requests.Keys - todo + {t} == requests.Keys - (todo - {t});
  }

  /** Serves all types of a container, one after the other. */
  method FitTypes(node: NodeUsage, requests: ContainerRequests, pod: Pod, sel: Selection, quota: QuotaManager,
                  given: PodDevices, ghost devs: Snapshot, ghost n: nat)
    returns (ok: bool, pd: PodDevices)
    requires node.Valid() && Pending(devs, node.dev, sel, pod, requests, quota.reg, quota.ledger, given, given, requests.Keys, n)
    requires forall t :: t in requests ==> |Rows(given, t)| == n
    modifies node
    ensures node.Valid()
    ensures ok ==> Pending(devs, node.dev, sel, pod, requests, quota.reg, quota.ledger, given, pd, {}, n)
    ensures !ok ==> Refuses(devs, sel, pod, requests, given, quota.reg, quota.ledger)
  {
    pd := given;
    var todo := requests.Keys;
    while todo != {}
      invariant node.Valid() && todo <= requests.Keys
      invariant Pending(devs, node.dev, sel, pod, requests, quota.reg, quota.ledger, given, pd, todo, n)
    {
      var t :| t in todo;
      ok, pd := FitOneOf(node, requests, pod, sel, quota, given, pd, todo, t, devs, n);
      if !ok {
        return;
      }
      todo := todo - {t};
    }
    ok := true;
  }

  /** Places one container on the node and appends its row to every requested type. */
  method FitInDevices(node: NodeUsage, requests: ContainerRequests, pod: Pod, sel: Selection, quota: QuotaManager,
                      given: PodDevices, ghost n: nat)
    returns (ok: bool, pd: PodDevices)
    requires node.Valid() && Typed(node.dev, given)
    requires forall t :: t in requests ==> |Rows(given, t)| == n
    modifies node
    ensures node.Valid()
    ensures ok ==> Booking(old(node.dev), node.dev, sel, pod, requests, given, pd, requests.Keys, n)
    ensures ok && NVIDIA in requests ==> Nvidia.QuotaOk(quota.reg, quota.ledger, pod, Rows(pd, NVIDIA))
    ensures ok ==> Answered(old(node.dev), sel, pod, requests, given, quota.reg, quota.ledger, pd, requests.Keys, n)
    ensures !ok ==> Refuses(old(node.dev), sel, pod, requests, given, quota.reg, quota.ledger)
  {
    assert node.dev == Booked(node.dev, given, {}, n);
    assert requests.Keys - requests.Keys == {} && requests.Keys - {} == requests.Keys;
    ok, pd := FitTypes(node, requests, pod, sel, quota, given, node.dev, n);
  }
}
