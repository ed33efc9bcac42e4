/** The NUMA refit: one container of a bound pod moves to devices from an allowed set. */
module Refits {
  import opened Usages
  import opened Devices
  import opened Lifecycle
  import opened Codec
  import opened Quotas
  import opened QuotaManagers
  import opened Ledgers
  import opened QuotaSoundness
  import opened Placement
  import opened Fitting
  import opened Nodes
  import opened Pods
  import opened Snapshots
  import opened Claims
  import opened Worlds
  import opened Assigning
  import opened Relocating
  import opened Preparing
  import opened Schedulers
  import Moving
  import Nvidia

  /** The most devices an allowed set may name. */
  const MAX_ALLOWED := 512

  datatype RefitRequest = RefitRequest(uid: string, ns: string, name: string, node: string, deviceType: string, idx: int,
                                       allowed: seq<DeviceId>)

  datatype RefitResult = Refused | Kept(current: ContainerDevices) | Moved(row: ContainerDevices)

  predicate WellFormed(req: RefitRequest) {
    && req.uid != "" && req.ns != "" && req.name != "" && req.node != ""
    && 0 < |req.allowed| <= MAX_ALLOWED && req.deviceType == NVIDIA
  }

  function Allowed(req: RefitRequest): set<DeviceId> {
    set d | d in req.allowed
  }

  /** The cached devices of one type name no device that another type's backend serves, and
      the annotation names a device at most once per ordinary init container. */
  ghost predicate Tidy(infos: map<DeviceId, DeviceInfo>, pi: PodInfo) {
    && (forall t :: t in pi.devices && t != NVIDIA ==> OwnRows(infos, pi.devices[t]))
    && InitRowsDistinct(pi.obj.pod, Rows(RawOf(pi.obj), NVIDIA))
  }

  ghost predicate OwnRows(infos: map<DeviceId, DeviceInfo>, rows: PodSingleDevice) {
    forall d, i :: d in infos && infos[d].vendor == NVIDIA && 0 <= i < |rows| ==> !Names(rows[i], d)
  }

  lemma {:induction false} OwnRowsUse(infos: map<DeviceId, DeviceInfo>, rows: PodSingleDevice, d: DeviceId, r: Res)
    requires OwnRows(infos, rows) && d in infos && infos[d].vendor == NVIDIA
    ensures RowsUse(rows, d, r) == 0
  {
    if rows != [] {
      RowUseUnnamed(rows[|rows| - 1], d, r);
      OwnRowsUse(infos, rows[..|rows| - 1], d, r);
    }
  }

  /** On an NVIDIA device a pod uses what its NVIDIA rows say. */
  lemma NvidiaUse(infos: map<DeviceId, DeviceInfo>, pi: PodInfo, d: DeviceId, r: Res)
    requires Tidy(infos, pi) && d in infos && infos[d].vendor == NVIDIA
    ensures PodUse(pi.devices, d, r) == RowsUse(Rows(pi.devices, NVIDIA), d, r)
  {
    var f, rest := TypeUse(d, r), pi.devices - {NVIDIA};
    forall t | t in rest ensures f(t, rest[t]) == 0 { OwnRowsUse(infos, pi.devices[t], d, r); }
    SumMapZero(rest, f);
    if NVIDIA in pi.devices { SumMapRemove(pi.devices, f, NVIDIA); } else { assert rest == pi.devices; }
  }

  /** The prepared snapshot shows the other pods' usage and the preload. */
  lemma PreparedTarget(infos: map<DeviceId, DeviceInfo>, cache: Cache, u: string, snap: Snapshot, prepared: Snapshot, idx: nat, mem: nat,
                       cores: nat, allowed: set<DeviceId>, d: DeviceId)
    requires u in cache && Tidy(infos, cache[u]) && Shows(snap, infos, cache, cache[u].node) && d in infos && infos[d].vendor == NVIDIA
    requires infos[d].id == d && d in allowed && idx < |Rows(RawOf(cache[u].obj), NVIDIA)|
    requires PreparedFrom(snap, prepared, Rows(cache[u].devices, NVIDIA), cache[u].obj.pod, Rows(RawOf(cache[u].obj), NVIDIA), idx, mem, cores,
                          allowed, cache[u].released)
    ensures PreparedOn(prepared[d], infos[d], cache - {u}, cache[u].node, cache[u].obj.pod, Rows(RawOf(cache[u].obj), NVIDIA), idx,
                       cache[u].released, mem, cores)
  {
    var node := cache[u].node;
    assert PreparedFromOn(snap[d], prepared[d], d, Rows(cache[u].devices, NVIDIA), cache[u].obj.pod, Rows(RawOf(cache[u].obj), NVIDIA), idx,
                          mem, cores, allowed, cache[u].released);
    forall r ensures Max(snap[d].use.Of(r) - RowsUse(Rows(cache[u].devices, NVIDIA), d, r), 0) == CachedUse(cache - {u}, node, d, r) {
      SumMapRemove(cache, CachedShare(node, d, r), u);
      NvidiaUse(infos, cache[u], d, r);
    }
  }

  /** On an NVIDIA device that is not allowed it shows the other pods' usage and what the rest of
      the pod is charged there. */
  lemma PreparedElsewhere(infos: map<DeviceId, DeviceInfo>, cache: Cache, u: string, snap: Snapshot, prepared: Snapshot, idx: nat, mem: nat,
                          cores: nat, allowed: set<DeviceId>, d: DeviceId, r: Res)
    requires u in cache && Tidy(infos, cache[u]) && Shows(snap, infos, cache, cache[u].node) && d in infos && infos[d].vendor == NVIDIA
    requires infos[d].id == d && d !in allowed && idx < |Rows(RawOf(cache[u].obj), NVIDIA)|
    requires PreparedFrom(snap, prepared, Rows(cache[u].devices, NVIDIA), cache[u].obj.pod, Rows(RawOf(cache[u].obj), NVIDIA), idx, mem, cores,
                          allowed, cache[u].released)
    ensures prepared[d].use.Of(r) == CachedUse(cache - {u}, cache[u].node, d, r)
      + Effective(cache[u].obj.pod, Rows(RawOf(cache[u].obj), NVIDIA)[idx := []], cache[u].released, d, r)
  {
    assert PreparedFromOn(snap[d], prepared[d], d, Rows(cache[u].devices, NVIDIA), cache[u].obj.pod, Rows(RawOf(cache[u].obj), NVIDIA), idx,
                          mem, cores, allowed, cache[u].released);
    SumMapRemove(cache, CachedShare(cache[u].node, d, r), u);
    NvidiaUse(infos, cache[u], d, r);
  }

  /** What the fit accepted on the prepared node is an acceptable move. */
  lemma FitIsMove(infos: map<DeviceId, DeviceInfo>, cache: Cache, u: string, snap: Snapshot, prepared: Snapshot, idx: nat, mem: nat, cores: nat,
                  nums: Positive, allowed: set<DeviceId>, sel: Selection, before: PodSingleDevice, row: ContainerDevices)
    requires u in cache && Tidy(infos, cache[u]) && Shows(snap, infos, cache, cache[u].node) && idx < |Rows(RawOf(cache[u].obj), NVIDIA)|
    requires forall d :: d in infos ==> infos[d].id == d
    requires PreparedFrom(snap, prepared, Rows(cache[u].devices, NVIDIA), cache[u].obj.pod, Rows(RawOf(cache[u].obj), NVIDIA), idx, mem, cores,
                          allowed, cache[u].released)
    requires RowOk(prepared, sel, cache[u].obj.pod, NVIDIA, Moving.MoveRequest(nums, mem, cores), before, row)
    requires forall x :: 0 <= x < |row| ==> row[x].uuid in allowed
    ensures |row| == nums
    ensures MoveOk(infos, cache - {u}, cache[u].node, cache[u].obj.pod, Rows(RawOf(cache[u].obj), NVIDIA), idx, cache[u].released, row, mem,
                   cores, sel, prepared)
  {
    forall x | 0 <= x < |row| ensures row[x] == Moving.Grant(row[x].uuid, mem, cores)
      && TargetOk(infos, cache - {u}, cache[u].node, cache[u].obj.pod, Rows(RawOf(cache[u].obj), NVIDIA), idx, cache[u].released,
                  row[x].uuid, nums, mem, cores, sel, prepared)
    {
      var d := row[x].uuid;
      assert PreparedFromOn(snap[d], prepared[d], d, Rows(cache[u].devices, NVIDIA), cache[u].obj.pod, Rows(RawOf(cache[u].obj), NVIDIA), idx,
                            mem, cores, allowed, cache[u].released);
      assert prepared[d].info == infos[d];
      PreparedTarget(infos, cache, u, snap, prepared, idx, mem, cores, allowed, d);
    }
  }

  // ---------- The handler ----------

  /** The rows of the other containers, as the fit is given them. */
  function NonEmpty(rows: PodSingleDevice): PodSingleDevice {
    if rows == [] then []
    else
      var front := NonEmpty(rows[..|rows| - 1]);
      if rows[|rows| - 1] == [] then front else front + [rows[|rows| - 1]]
  }

  function Seeded(raw: PodDevices, idx: nat): PodDevices {
    map t | t in raw :: NonEmpty(if t == NVIDIA && idx < |raw[t]| then raw[t][idx := []] else raw[t])
  }

  lemma {:induction false} NonEmptyRows(rows: PodSingleDevice, row: ContainerDevices)
    ensures row in NonEmpty(rows) <==> row != [] && row in rows
  {
    if rows != [] {
      NonEmptyRows(rows[..|rows| - 1], row);
      assert rows == rows[..|rows| - 1] + [rows[|rows| - 1]];
    }
  }

  /** The fit is given the rows of all other containers that have one. */
  lemma SeededRows(raw: PodDevices, idx: nat, row: ContainerDevices)
    requires NVIDIA in raw && idx < |raw[NVIDIA]|
    ensures row in Rows(Seeded(raw, idx), NVIDIA) <==> row != [] && exists i :: 0 <= i < |raw[NVIDIA]| && i != idx && raw[NVIDIA][i] == row
    ensures forall t :: t in raw && t != NVIDIA ==> (row in Rows(Seeded(raw, idx), t) <==> row != [] && row in raw[t])
  {
    var rows := raw[NVIDIA][idx := []];
    NonEmptyRows(rows, row);
    if row != [] && row in rows {
      var i :| 0 <= i < |rows| && rows[i] == row;
      assert i != idx && raw[NVIDIA][i] == row;
    }
    if i :| 0 <= i < |raw[NVIDIA]| && i != idx && raw[NVIDIA][i] == row { assert rows[i] == row; }
    forall t | t in raw && t != NVIDIA ensures row in Rows(Seeded(raw, idx), t) <==> row != [] && row in raw[t] { NonEmptyRows(raw[t], row); }
  }

  /** The row the pod will be charged with the container moved. */
  function ChargedRow(pi: PodInfo, raw: PodDevices, idx: nat, row: ContainerDevices): ContainerDevices
    requires NVIDIA in raw && idx < |raw[NVIDIA]|
  {
    EffectiveRow(pi.obj.pod, NVIDIA, raw[NVIDIA][idx := row], pi.released)
  }

  /** The namespace can take the moved pod, judged in the original layout of the rows. */
  method QuotaAllows(quota: QuotaManager, pi: PodInfo, raw: PodDevices, idx: nat, row: ContainerDevices) returns (ok: bool)
    requires NVIDIA in raw && idx < |raw[NVIDIA]|
    ensures ok == QuotaTakes(quota.reg, quota.ledger, pi, raw, idx, row)
  {
    var effective := EffectivePodDeviceUsage(pi.obj.pod, raw[NVIDIA := raw[NVIDIA][idx := row]], pi.released);
    var mem, cores := SumRowTotals(effective[NVIDIA][0]);
    ok := quota.FitQuota(pi.obj.pod.ns, mem, Nvidia.MemoryFactor(quota.reg), cores, NVIDIA);
  }

  /** What the move asks of the fit: as many devices, each with the amounts of the first. */
  function Asked(raw: PodDevices, idx: nat): Request
    requires NVIDIA in raw && idx < |raw[NVIDIA]| && raw[NVIDIA][idx] != []
  {
    var current := raw[NVIDIA][idx];
    Moving.MoveRequest(|current|, current[0].mem, current[0].cores)
  }

  /** What the fit answers for the container on the allowed devices of the prepared node. */
  ghost predicate Judged(pi: PodInfo, raw: PodDevices, idx: nat, allowed: set<DeviceId>, sel: Selection, prepared: Snapshot, reg: Registry,
                         off: Ledger, fits: bool, row: ContainerDevices)
    requires NVIDIA in raw && idx < |raw[NVIDIA]| && raw[NVIDIA][idx] != []
  {
    Answers(Restricted(prepared, allowed), sel, pi.obj.pod, NVIDIA, Asked(raw, idx), Rows(Seeded(raw, idx), NVIDIA), reg, off, fits, row)
  }

  /** The namespace can take what the moved pod will be charged. */
  ghost predicate QuotaTakes(reg: Registry, off: Ledger, pi: PodInfo, raw: PodDevices, idx: nat, row: ContainerDevices)
    requires NVIDIA in raw && idx < |raw[NVIDIA]|
  {
    var charged := ChargedRow(pi, raw, idx, row);
    Fits(reg, off, pi.obj.pod.ns, RowTotal(charged, Mem), Nvidia.MemoryFactor(reg), RowTotal(charged, Cores), NVIDIA)
  }

  /** The devices the fit chose on the prepared node. */
  method ChooseTarget(s: Scheduler, pi: PodInfo, raw: PodDevices, idx: nat, allowed: set<DeviceId>, sel: Selection, quota: QuotaManager,
                      usage: NodeUsage)
    returns (ok: bool, row: ContainerDevices)
    requires usage.Valid() && NVIDIA in raw && idx < |raw[NVIDIA]| && raw[NVIDIA][idx] != []
    ensures ok ==> RowOk(usage.dev, sel, pi.obj.pod, NVIDIA, Asked(raw, idx), Rows(Seeded(raw, idx), NVIDIA), row)
    ensures ok ==> forall x :: 0 <= x < |row| ==> row[x].uuid in allowed
    ensures Judged(pi, raw, idx, allowed, sel, usage.dev, quota.reg, quota.ledger, ok, row)
  {
    var current := raw[NVIDIA][idx];
    var placed := Seeded(raw, idx);
    ok, row := FitInRestrictedDevices(usage, Moving.MoveRequest(|current|, current[0].mem, current[0].cores), allowed, pi.obj.pod, sel, quota, placed);
  }

  /** The annotation rows of a cached pod, with an entry for container `idx`. */
  predicate Movable(pi: PodInfo, raw: PodDevices, idx: nat) {
    && DecodeAnnos(pi.obj.annos) == Ok(raw) && NVIDIA in raw && idx < |raw[NVIDIA]| && raw[NVIDIA][idx] != []
    && NVIDIA in pi.obj.annos
  }

  /** The node as the fit sees it: a snapshot of the cache with the pod's own usage replaced by
      the preload. */
  ghost predicate PreparedFor(infos: map<DeviceId, DeviceInfo>, cache: Cache, u: string, raw: PodDevices, idx: nat, allowed: set<DeviceId>,
                              snap: Snapshot, prepared: Snapshot)
    requires u in cache && Movable(cache[u], raw, idx)
  {
    var pi, current := cache[u], raw[NVIDIA][idx];
    Shows(snap, infos, cache, pi.node) && (InitRowsDistinct(pi.obj.pod, raw[NVIDIA][idx := []]) ==>
      PreparedFrom(snap, prepared, Rows(pi.devices, NVIDIA), pi.obj.pod, raw[NVIDIA], idx, current[0].mem, current[0].cores, allowed, pi.released))
  }

  /** The snapshot of the pod's node with the pod's own usage replaced by the preload. */
  method PreparedNode(s: Scheduler, u: string, raw: PodDevices, idx: nat, allowed: set<DeviceId>)
    returns (usage: NodeUsage, ghost snap: Snapshot)
    requires s.Valid() && u in s.podManager.pods && s.podManager.pods[u].node in s.cluster && Movable(s.podManager.pods[u], raw, idx)
    ensures fresh(usage) && usage.Valid() && usage.dev.Keys == s.cluster[s.podManager.pods[u].node].Keys
    ensures PreparedFor(s.cluster[s.podManager.pods[u].node], s.podManager.pods, u, raw, idx, allowed, snap, usage.dev)
  {
    var pi := s.podManager.pods[u];
    assert ListsAll(s.cluster[pi.node], s.orders[pi.node]);
    usage := GetNodesUsage(s.cluster[pi.node], s.orders[pi.node], s.podManager.pods, pi.node);
    snap := usage.dev;
    PreparePhaseAwareRefitUsage(usage, pi.obj.pod, Rows(pi.devices, NVIDIA), raw, idx, raw[NVIDIA][idx][0].mem, raw[NVIDIA][idx][0].cores,
                                allowed, pi.released);
  }

  /** Everything that must hold before the move is written down: the fit, the quota in the
      original layout and the rewritten annotation. */
  method Approve(s: Scheduler, pi: PodInfo, raw: PodDevices, idx: nat, allowed: set<DeviceId>, sel: Selection, usage: NodeUsage)
    returns (ok: bool, row: ContainerDevices, ghost fits: bool)
    requires usage.Valid() && Movable(pi, raw, idx)
    ensures ok ==> RowOk(usage.dev, sel, pi.obj.pod, NVIDIA, Asked(raw, idx), Rows(Seeded(raw, idx), NVIDIA), row)
    ensures ok ==> forall x :: 0 <= x < |row| ==> row[x].uuid in allowed
    ensures ok ==> ReplaceEntry(pi.obj.annos[NVIDIA], idx, row).Ok?
    ensures Judged(pi, raw, idx, allowed, sel, usage.dev, s.quotaManager.reg, s.quotaManager.ledger, fits, row)
    ensures ok <==> fits && QuotaTakes(s.quotaManager.reg, s.quotaManager.ledger, pi, raw, idx, row)
  {
    ok, row := ChooseTarget(s, pi, raw, idx, allowed, sel, s.quotaManager, usage);
    fits := ok;
    if ok {
      ok := QuotaAllows(s.quotaManager, pi, raw, idx, row);
    }
    EntryThere(pi, raw, idx, row);
    ok := ok && ReplaceEntry(pi.obj.annos[NVIDIA], idx, row).Ok?;
  }

  lemma EntryThere(pi: PodInfo, raw: PodDevices, idx: nat, row: ContainerDevices)
    requires Movable(pi, raw, idx)
    ensures ReplaceEntry(pi.obj.annos[NVIDIA], idx, row).Ok?
  {
    ReplaceOk(pi.obj.annos[NVIDIA], idx, row);
  }

  /** The cache after the move: the devices are rebuilt from the rewritten annotation, or
      kept when it cannot be read. */
  function MovedCache(cache: Cache, u: string, idx: nat, row: ContainerDevices): Cache
    requires u in cache
  {
    var o := Rewritten(cache[u].obj, idx, row);
    if DecodeAnnos(o.annos).Ok? then cache[u := cache[u].(devices := EffectiveDevices(o.pod, RawOf(o), cache[u].released))] else cache
  }

  /** The pod's usage is off the ledger; it was on `before`. */
  ghost predicate TakenOff(reg: Registry, before: Ledger, ledger: Ledger, cache: Cache, u: string) {
    u in cache && Balanced(reg, before, cache) && Lost(reg, before, ledger, cache[u].obj.pod.ns, cache[u].devices)
  }

  /** Takes a cached pod's usage off its namespace. */
  method TakeOff(s: Scheduler, u: string)
    requires s.Valid() && u in s.podManager.pods
    modifies s.quotaManager`ledger
    ensures s.quotaManager.Valid() && SameLimits(old(s.quotaManager.ledger), s.quotaManager.ledger)
    ensures TakenOff(s.quotaManager.reg, old(s.quotaManager.ledger), s.quotaManager.ledger, s.podManager.pods, u)
  {
    var pi := s.podManager.pods[u];
    s.quotaManager.RmUsage(pi.obj.pod.ns, pi.devices);
  }

  /** Puts the pod's usage back as it was. */
  method PutBack(s: Scheduler, u: string, ghost before: Ledger)
    requires s.quotaManager.Valid() && Registered(s.cluster, s.orders)
    requires TakenOff(s.quotaManager.reg, before, s.quotaManager.ledger, s.podManager.pods, u)
    modifies s.quotaManager`ledger
    ensures s.Valid() && SameLimits(old(s.quotaManager.ledger), s.quotaManager.ledger) && SameUsage(before, s.quotaManager.ledger)
    ensures Gained(s.quotaManager.reg, old(s.quotaManager.ledger), s.quotaManager.ledger, s.podManager.pods[u].obj.pod.ns, s.podManager.pods[u].devices)
  {
    var pi := s.podManager.pods[u];
    ghost var mid := s.quotaManager.ledger;
    s.quotaManager.AddUsage(pi.obj.pod.ns, pi.devices);
    RestoredUsage(s.quotaManager.reg, before, mid, s.quotaManager.ledger, s.podManager.pods, u);
  }

  /** Stores other devices and charges them. */
  method Exchange(s: Scheduler, u: string, devices: PodDevices, ghost before: Ledger)
    requires s.quotaManager.Valid() && Registered(s.cluster, s.orders)
    requires TakenOff(s.quotaManager.reg, before, s.quotaManager.ledger, s.podManager.pods, u)
    modifies s.podManager, s.quotaManager`ledger
    ensures s.Valid() && SameLimits(old(s.quotaManager.ledger), s.quotaManager.ledger)
    ensures s.podManager.pods == old(s.podManager.pods)[u := old(s.podManager.pods)[u].(devices := devices)]
    ensures Gained(s.quotaManager.reg, old(s.quotaManager.ledger), s.quotaManager.ledger, old(s.podManager.pods)[u].obj.pod.ns, devices)
  {
    ghost var cache, mid := s.podManager.pods, s.quotaManager.ledger;
    var pi := s.podManager.pods[u];
    var was := s.podManager.ReplacePodDevices(u, devices);
    s.quotaManager.AddUsage(pi.obj.pod.ns, devices);
    ExchangedUsage(s.quotaManager.reg, before, mid, s.quotaManager.ledger, cache, u, devices);
  }

  /** Charges the moved pod and stores its devices. */
  method Commit(s: Scheduler, u: string, idx: nat, row: ContainerDevices, ghost before: Ledger)
    requires s.quotaManager.Valid() && Registered(s.cluster, s.orders)
    requires TakenOff(s.quotaManager.reg, before, s.quotaManager.ledger, s.podManager.pods, u)
    modifies s.podManager, s.quotaManager`ledger
    ensures s.Valid() && SameLimits(old(s.quotaManager.ledger), s.quotaManager.ledger)
    ensures s.podManager.pods == MovedCache(old(s.podManager.pods), u, idx, row)
    ensures Gained(s.quotaManager.reg, old(s.quotaManager.ledger), s.quotaManager.ledger, old(s.podManager.pods)[u].obj.pod.ns, s.podManager.pods[u].devices)
  {
    var pi := s.podManager.pods[u];
    var o := Rewritten(pi.obj, idx, row);
    var raw := DecodePodDevices(o.annos);
    if raw.Ok? {
      var effective := EffectivePodDeviceUsage(o.pod, raw.value, pi.released);
      Exchange(s, u, effective, before);
    } else {
      PutBack(s, u, before);
    }
  }

  /** What a completed move did. */
  ghost predicate Accomplished(s: Scheduler, cache: Cache, u: string, raw: PodDevices, idx: nat, allowed: set<DeviceId>, sel: Selection,
                               row: ContainerDevices, prepared: Snapshot)
    requires u in cache && cache[u].node in s.cluster && Movable(cache[u], raw, idx)
  {
    && (forall x :: 0 <= x < |row| ==> row[x].uuid in allowed)
    && ReplaceEntry(cache[u].obj.annos[NVIDIA], idx, row).Ok?
    && (Tidy(s.cluster[cache[u].node], cache[u]) ==>
      && |row| == |raw[NVIDIA][idx]|
      && MoveOk(s.cluster[cache[u].node], cache - {u}, cache[u].node, cache[u].obj.pod, raw[NVIDIA], idx, cache[u].released, row,
                raw[NVIDIA][idx][0].mem, raw[NVIDIA][idx][0].cores, sel, prepared))
  }

  lemma ApprovedAccomplishes(s: Scheduler, cache: Cache, u: string, raw: PodDevices, idx: nat, allowed: set<DeviceId>, sel: Selection,
                             row: ContainerDevices, snap: Snapshot, prepared: Snapshot)
    requires u in cache && cache[u].node in s.cluster && Movable(cache[u], raw, idx) && Registered(s.cluster, s.orders)
    requires PreparedFor(s.cluster[cache[u].node], cache, u, raw, idx, allowed, snap, prepared)
    requires RowOk(prepared, sel, cache[u].obj.pod, NVIDIA, Asked(raw, idx), Rows(Seeded(raw, idx), NVIDIA), row)
    requires (forall x :: 0 <= x < |row| ==> row[x].uuid in allowed) && ReplaceEntry(cache[u].obj.annos[NVIDIA], idx, row).Ok?
    ensures Accomplished(s, cache, u, raw, idx, allowed, sel, row, prepared)
  {
    var infos, current := s.cluster[cache[u].node], raw[NVIDIA][idx];
    assert ListsAll(infos, s.orders[cache[u].node]);
    var before := Rows(Seeded(raw, idx), NVIDIA);
    if Tidy(infos, cache[u]) {
      EmptiedDistinct(cache[u].obj.pod, raw[NVIDIA], idx);
      FitIsMove(infos, cache, u, snap, prepared, idx, current[0].mem, current[0].cores, |current|, allowed, sel, before, row);
    }
  }

  lemma EmptiedDistinct(pod: Pod, rows: PodSingleDevice, idx: nat)
    requires InitRowsDistinct(pod, rows) && idx < |rows|
    ensures InitRowsDistinct(pod, rows[idx := []])
  {
  }

  /** The row that was granted can be written down and read back. */
  lemma GrantedClean(cluster: Cluster, node: string, dev: Snapshot, sel: Selection, pod: Pod, req: Request, before: PodSingleDevice, row: ContainerDevices)
    requires CleanCluster(cluster) && node in cluster && dev.Keys == cluster[node].Keys && WellKeyed(dev)
    requires RowOk(dev, sel, pod, NVIDIA, req, before, row)
    ensures CleanRow(row) && NormRow(row) == row
  {
    BackendsClean();
    forall x | 0 <= x < |row| ensures CleanName(row[x].uuid) && CleanName(row[x].typ) && Norm(row[x]) == row[x] {
      assert row[x].uuid in dev && Grants(sel, dev[row[x].uuid], NVIDIA, req, LiveUse(pod, before, |before|, row[x].uuid, Cores), pod.uid, row[x]);
    }
  }

  lemma MovedRowReadable(cluster: Cluster, pi: PodInfo, raw: PodDevices, idx: nat, sel: Selection, prepared: Snapshot, row: ContainerDevices)
    requires CleanCluster(cluster) && pi.node in cluster && prepared.Keys == cluster[pi.node].Keys && WellKeyed(prepared) && Movable(pi, raw, idx)
    requires RowOk(prepared, sel, pi.obj.pod, NVIDIA, Asked(raw, idx), Rows(Seeded(raw, idx), NVIDIA), row)
    ensures CleanRow(row) && NormRow(row) == row
  {
    GrantedClean(cluster, pi.node, prepared, sel, pi.obj.pod, Asked(raw, idx), Rows(Seeded(raw, idx), NVIDIA), row);
  }

  /** The moved pod is charged the row that the quota check looked at. */
  lemma MovedCharge(cache: Cache, u: string, raw: PodDevices, idx: nat, row: ContainerDevices)
    requires u in cache && Movable(cache[u], raw, idx) && CleanRow(row) && NormRow(row) == row
    requires ReplaceEntry(cache[u].obj.annos[NVIDIA], idx, row).Ok?
    ensures Rows(MovedCache(cache, u, idx, row)[u].devices, NVIDIA) == [ChargedRow(cache[u], raw, idx, row)]
  {
    var obj := cache[u].obj;
    RewrittenRows(obj, idx, row);
  }

  /** The namespace of a moved pod is within its limits. */
  lemma MoveWithinQuota(reg: Registry, off: Ledger, after: Ledger, cache: Cache, u: string, raw: PodDevices, idx: nat, row: ContainerDevices)
    requires DistinctNames(reg) && u in cache && Movable(cache[u], raw, idx) && CleanRow(row) && NormRow(row) == row
    requires ReplaceEntry(cache[u].obj.annos[NVIDIA], idx, row).Ok?
    requires QuotaTakes(reg, off, cache[u], raw, idx, row)
    requires Gained(reg, off, after, cache[u].obj.pod.ns, MovedCache(cache, u, idx, row)[u].devices) && SameLimits(off, after)
    ensures WithinQuota(reg, after, cache[u].obj.pod.ns)
  {
    MovedCharge(cache, u, raw, idx, row);
    ChargeWithinQuota(reg, off, after, cache[u].obj.pod.ns, MovedCache(cache, u, idx, row)[u].devices, ChargedRow(cache[u], raw, idx, row));
  }

  /** Whether the patch goes through: it names the version of the object that was read, and
      the API server refuses it on any other. `stored` is the object it holds, if it answers. */
  predicate PatchLands(stored: Option<ApiPod>, read: ApiPod) {
    stored == Some(read)
  }

  /** How a request that reaches the fit is decided: it moves exactly when the fit answers a
      row, the namespace can take it and the patch goes through, and then to that row. */
  ghost predicate Decided(pi: PodInfo, raw: PodDevices, idx: nat, allowed: set<DeviceId>, sel: Selection, prepared: Snapshot, reg: Registry,
                          off: Ledger, stored: Option<ApiPod>, res: RefitResult)
    requires NVIDIA in raw && idx < |raw[NVIDIA]| && raw[NVIDIA][idx] != []
  {
    exists fits, row ::
      && Judged(pi, raw, idx, allowed, sel, prepared, reg, off, fits, row)
      && (res.Moved? <==> fits && QuotaTakes(reg, off, pi, raw, idx, row) && PatchLands(stored, pi.obj))
      && (res.Moved? ==> res.row == row) && !res.Kept?
  }

  /** Everything the decision rests on. */
  ghost predicate Reasoned(s: Scheduler, cache: Cache, ledger: Ledger, u: string, raw: PodDevices, idx: nat, allowed: set<DeviceId>, sel: Selection,
                           stored: Option<ApiPod>, res: RefitResult, prepared: Snapshot, off: Ledger)
    requires u in cache && cache[u].node in s.cluster && Movable(cache[u], raw, idx)
  {
    && TakenOff(s.quotaManager.reg, ledger, off, cache, u) && SameLimits(ledger, off)
    && (exists snap :: PreparedFor(s.cluster[cache[u].node], cache, u, raw, idx, allowed, snap, prepared))
    && Decided(cache[u], raw, idx, allowed, sel, prepared, s.quotaManager.reg, off, stored, res)
  }

  /** Every new grant has the memory and the cores of the first grant it replaces. */
  ghost predicate SameAmounts(row: ContainerDevices, current: ContainerDevices) {
    |row| == |current| && forall x :: 0 <= x < |row| ==> row[x].mem == current[0].mem && row[x].cores == current[0].cores
  }

  lemma AskedAmounts(dev: Snapshot, sel: Selection, pod: Pod, raw: PodDevices, idx: nat, before: PodSingleDevice, row: ContainerDevices)
    requires NVIDIA in raw && idx < |raw[NVIDIA]| && raw[NVIDIA][idx] != [] && RowOk(dev, sel, pod, NVIDIA, Asked(raw, idx), before, row)
    ensures SameAmounts(row, raw[NVIDIA][idx])
  {
    forall x | 0 <= x < |row| ensures row[x] == Nvidia.Grant(dev[row[x].uuid].info, Asked(raw, idx)) {
      assert Grants(sel, dev[row[x].uuid], NVIDIA, Asked(raw, idx), LiveUse(pod, before, |before|, row[x].uuid, Cores), pod.uid, row[x]);
    }
  }

  /** Completes an approved move. */
  method Complete(s: Scheduler, u: string, raw: PodDevices, idx: nat, row: ContainerDevices, sel: Selection, ghost before: Ledger, ghost prepared: Snapshot)
    requires s.quotaManager.Valid() && Registered(s.cluster, s.orders)
    requires TakenOff(s.quotaManager.reg, before, s.quotaManager.ledger, s.podManager.pods, u) && s.podManager.pods[u].node in s.cluster
    requires Movable(s.podManager.pods[u], raw, idx) && QuotaTakes(s.quotaManager.reg, s.quotaManager.ledger, s.podManager.pods[u], raw, idx, row)
    requires RowOk(prepared, sel, s.podManager.pods[u].obj.pod, NVIDIA, Asked(raw, idx), Rows(Seeded(raw, idx), NVIDIA), row)
    requires prepared.Keys == s.cluster[s.podManager.pods[u].node].Keys && WellKeyed(prepared)
    requires ReplaceEntry(s.podManager.pods[u].obj.annos[NVIDIA], idx, row).Ok?
    modifies s.podManager, s.quotaManager`ledger
    ensures s.Valid() && SameLimits(old(s.quotaManager.ledger), s.quotaManager.ledger)
    ensures s.podManager.pods == MovedCache(old(s.podManager.pods), u, idx, row)
    ensures CleanCluster(s.cluster) && DistinctNames(s.quotaManager.reg) ==>
      WithinQuota(s.quotaManager.reg, s.quotaManager.ledger, old(s.podManager.pods)[u].obj.pod.ns)
  {
    ghost var pi, cache, off := s.podManager.pods[u], s.podManager.pods, s.quotaManager.ledger;
    Commit(s, u, idx, row, before);
    if CleanCluster(s.cluster) && DistinctNames(s.quotaManager.reg) {
      MovedRowReadable(s.cluster, pi, raw, idx, sel, prepared, row);
      MoveWithinQuota(s.quotaManager.reg, off, s.quotaManager.ledger, cache, u, raw, idx, row);
    }
  }

  /** Tries the move. Unless it completes, cache and usage are as they were. */
  method Move(s: Scheduler, u: string, raw: PodDevices, idx: nat, allowed: set<DeviceId>, sel: Selection, stored: Option<ApiPod>)
    returns (res: RefitResult, ghost prepared: Snapshot, ghost off: Ledger)
    requires s.Valid() && u in s.podManager.pods && s.podManager.pods[u].node in s.cluster && Movable(s.podManager.pods[u], raw, idx)
    modifies s.podManager, s.quotaManager`ledger
    ensures s.Valid() && SameLimits(old(s.quotaManager.ledger), s.quotaManager.ledger) && !res.Kept?
    ensures res.Refused? ==> s.podManager.pods == old(s.podManager.pods) && SameUsage(old(s.quotaManager.ledger), s.quotaManager.ledger)
    ensures res.Moved? ==> Accomplished(s, old(s.podManager.pods), u, raw, idx, allowed, sel, res.row, prepared)
    ensures res.Moved? ==> SameAmounts(res.row, raw[NVIDIA][idx])
    ensures res.Moved? ==> s.podManager.pods == MovedCache(old(s.podManager.pods), u, idx, res.row)
    ensures res.Moved? && CleanCluster(s.cluster) && DistinctNames(s.quotaManager.reg) ==>
      WithinQuota(s.quotaManager.reg, s.quotaManager.ledger, old(s.podManager.pods)[u].obj.pod.ns)
    ensures Reasoned(s, old(s.podManager.pods), old(s.quotaManager.ledger), u, raw, idx, allowed, sel, stored, res, prepared, off)
  {
    var pi := s.podManager.pods[u];
    ghost var before, cache := s.quotaManager.ledger, s.podManager.pods;
    var usage; ghost var snap;
    usage, snap := PreparedNode(s, u, raw, idx, allowed);
    prepared := usage.dev;
    TakeOff(s, u);
    off := s.quotaManager.ledger;
    var ok, row; ghost var fits;
    ok, row, fits := Approve(s, pi, raw, idx, allowed, sel, usage);
    if !ok || !PatchLands(stored, pi.obj) {
      PutBack(s, u, before);
      return Refused, prepared, off;
    }
    ApprovedAccomplishes(s, cache, u, raw, idx, allowed, sel, row, snap, prepared);
    AskedAmounts(prepared, sel, pi.obj.pod, raw, idx, Rows(Seeded(raw, idx), NVIDIA), row);
    Complete(s, u, raw, idx, row, sel, before, prepared);
    res := Moved(row);
  }

  method Contains(row: ContainerDevices, allowed: set<DeviceId>) returns (all: bool)
    ensures all <==> forall x :: 0 <= x < |row| ==> row[x].uuid in allowed
  {
    for x := 0 to |row|
      invariant forall y :: 0 <= y < x ==> row[y].uuid in allowed
    {
      if row[x].uuid !in allowed {
        return false;
      }
    }
    return true;
  }

  predicate Uniform(row: ContainerDevices) {
    forall x :: 0 <= x < |row| ==> row[x].mem == row[0].mem && row[x].cores == row[0].cores
  }

  /** The request names a cached pod on its node and a container of it with a recorded entry. */
  predicate Addressed(cache: Cache, req: RefitRequest) {
    && req.uid != "" && req.ns != "" && req.name != "" && req.node != "" && 0 < |req.allowed| <= 512 && req.deviceType == NVIDIA
    && req.uid in cache && cache[req.uid].obj.pod.ns == req.ns && cache[req.uid].obj.pod.name == req.name
    && cache[req.uid].node == req.node && 0 <= req.idx < |cache[req.uid].obj.pod.reqs|
    && Movable(cache[req.uid], RawOf(cache[req.uid].obj), req.idx)
  }

  /** The recorded entry of the container. */
  function Recorded(cache: Cache, req: RefitRequest): ContainerDevices
    requires Addressed(cache, req)
  {
    RawOf(cache[req.uid].obj)[NVIDIA][req.idx]
  }

  /** Every recorded device is allowed. */
  ghost predicate Inside(cache: Cache, req: RefitRequest)
    requires Addressed(cache, req)
  {
    forall x :: 0 <= x < |Recorded(cache, req)| ==> Recorded(cache, req)[x].uuid in req.allowed
  }

  lemma InsideIff(cache: Cache, req: RefitRequest, row: ContainerDevices)
    requires Addressed(cache, req) && row == Recorded(cache, req)
    ensures (forall x :: 0 <= x < |row| ==> row[x].uuid in Allowed(req)) <==> Inside(cache, req)
  {
    forall x | 0 <= x < |row| ensures row[x].uuid in Allowed(req) <==> Recorded(cache, req)[x].uuid in req.allowed {}
  }

  lemma {:induction false} EqualTotals(row: ContainerDevices, current: ContainerDevices, mem: nat, cores: nat)
    requires |row| == |current|
    requires forall x :: 0 <= x < |row| ==> row[x].mem == current[x].mem == mem && row[x].cores == current[x].cores == cores
    ensures RowTotal(row, Mem) == RowTotal(current, Mem) && RowTotal(row, Cores) == RowTotal(current, Cores)
  {
    if row != [] { EqualTotals(row[..|row| - 1], current[..|current| - 1], mem, cores); }
  }

  /** The row keeps what was reserved: the amounts of every grant it replaces, and the totals. */
  ghost predicate Preserves(row: ContainerDevices, current: ContainerDevices) {
    && |row| == |current|
    && (forall x, y :: 0 <= x < |row| && 0 <= y < |current| ==> row[x].mem == current[y].mem && row[x].cores == current[y].cores)
    && RowTotal(row, Mem) == RowTotal(current, Mem) && RowTotal(row, Cores) == RowTotal(current, Cores)
  }

  lemma UniformPreserves(row: ContainerDevices, current: ContainerDevices)
    requires current != [] && Uniform(current) && SameAmounts(row, current)
    ensures Preserves(row, current)
  {
    EqualTotals(row, current, current[0].mem, current[0].cores);
  }

  /** The annotation rows of the pod that the request names. */
  method Lookup(s: Scheduler, req: RefitRequest, nameOk: bool, pending: bool) returns (raw: Option<PodDevices>)
    ensures raw.Some? <==> Addressed(s.podManager.pods, req) && nameOk && pending
    ensures raw.Some? ==> raw.value == RawOf(s.podManager.pods[req.uid].obj)
  {
    if !WellFormed(req) {
      return None;
    }
    var cached := s.podManager.GetPod(req.uid);
    if cached.None? {
      return None;
    }
    var pi := cached.value;
    if pi.obj.pod.ns != req.ns || pi.obj.pod.name != req.name || pi.node != req.node {
      return None;
    }
    if req.idx < 0 || req.idx >= |pi.obj.pod.reqs| || !nameOk || !pending {
      return None;
    }
    var decoded := DecodePodDevices(pi.obj.annos);
    if decoded.Err? || req.idx >= |Rows(decoded.value, NVIDIA)| || Rows(decoded.value, NVIDIA)[req.idx] == [] {
      return None;
    }
    return Some(decoded.value);
  }

  /** Where nothing narrows the choice, a request on the stored object moves whenever the allowed
      devices can take the container. */
  lemma AcceptableMoves(s: Scheduler, cache: Cache, ledger: Ledger, u: string, raw: PodDevices, idx: nat, allowed: set<DeviceId>, sel: Selection,
                        stored: Option<ApiPod>, res: RefitResult, prepared: Snapshot, off: Ledger)
    requires u in cache && cache[u].node in s.cluster && Movable(cache[u], raw, idx) && WellKeyed(prepared)
    requires Reasoned(s, cache, ledger, u, raw, idx, allowed, sel, stored, res, prepared, off) && PatchLands(stored, cache[u].obj)
    requires Open(sel, s.quotaManager.reg, ledger, cache[u].obj.pod.ns)
    requires CanFit(Restricted(prepared, allowed), sel, cache[u].obj.pod, NVIDIA, Asked(raw, idx), Rows(Seeded(raw, idx), NVIDIA))
    ensures res.Moved?
  {
    var reg, ns := s.quotaManager.reg, cache[u].obj.pod.ns;
    var fits, row :| Judged(cache[u], raw, idx, allowed, sel, prepared, reg, off, fits, row)
      && (res.Moved? <==> fits && QuotaTakes(reg, off, cache[u], raw, idx, row) && PatchLands(stored, cache[u].obj));
    assert Open(sel, reg, off, ns);
    if !fits {
      OpenRefusal(Restricted(prepared, allowed), sel, cache[u].obj.pod, NVIDIA, Asked(raw, idx), Rows(Seeded(raw, idx), NVIDIA), reg, off, row);
    }
  }

  /** The refit request. `nameOk` and `pending` stand for the container-name check and for
      the pending-allocation annotation, `stored` for the object the API server holds. */
  method RefitNumaAllocation(s: Scheduler, req: RefitRequest, nameOk: bool, pending: bool, sel: Selection, stored: Option<ApiPod>)
    returns (res: RefitResult, ghost prepared: Snapshot, ghost off: Ledger)
    requires s.Valid()
    modifies s.podManager, s.quotaManager`ledger
    ensures s.Valid() && SameLimits(old(s.quotaManager.ledger), s.quotaManager.ledger)
    ensures !res.Moved? ==> s.podManager.pods == old(s.podManager.pods) && SameUsage(old(s.quotaManager.ledger), s.quotaManager.ledger)
    ensures !res.Refused? ==> Addressed(old(s.podManager.pods), req) && nameOk && pending
    ensures res.Kept? ==> res.current == Recorded(old(s.podManager.pods), req) && Inside(old(s.podManager.pods), req)
    ensures Addressed(old(s.podManager.pods), req) && nameOk && pending && Inside(old(s.podManager.pods), req) ==> res.Kept?
    ensures res.Moved? ==> !Inside(old(s.podManager.pods), req) && req.node in s.cluster && PatchLands(stored, old(s.podManager.pods)[req.uid].obj)
    ensures res.Moved? ==> Preserves(res.row, Recorded(old(s.podManager.pods), req))
    ensures res.Moved? ==> Accomplished(s, old(s.podManager.pods), req.uid, RawOf(old(s.podManager.pods)[req.uid].obj), req.idx, Allowed(req), sel, res.row, prepared)
    ensures res.Moved? ==> s.podManager.pods == MovedCache(old(s.podManager.pods), req.uid, req.idx, res.row)
    ensures res.Moved? && CleanCluster(s.cluster) && DistinctNames(s.quotaManager.reg) ==> WithinQuota(s.quotaManager.reg, s.quotaManager.ledger, req.ns)
    ensures Addressed(old(s.podManager.pods), req) && nameOk && pending && !Inside(old(s.podManager.pods), req) && req.node in s.cluster ==>
      Uniform(Recorded(old(s.podManager.pods), req)) ==>
      Reasoned(s, old(s.podManager.pods), old(s.quotaManager.ledger), req.uid, RawOf(old(s.podManager.pods)[req.uid].obj), req.idx, Allowed(req), sel,
               stored, res, prepared, off)
  {
    prepared, off := map[], s.quotaManager.ledger;
    var raw := Lookup(s, req, nameOk, pending);
    if raw.None? {
      return Refused, prepared, off;
    }
    var current := raw.value[NVIDIA][req.idx];
    var inside := Contains(current, Allowed(req));
    InsideIff(s.podManager.pods, req, current);
    if inside {
      return Kept(current), prepared, off;
    }
    if !Uniform(current) || req.node !in s.cluster {
      return Refused, prepared, off;
    }
    res, prepared, off := Move(s, req.uid, raw.value, req.idx, Allowed(req), sel, stored);
    if res.Moved? { UniformPreserves(res.row, current); }
  }
}
