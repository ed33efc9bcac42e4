/** A NUMA refit seen from the API server and the cache: one row of the annotation changes
    and the cached devices follow. The patch names the version of the object that was read,
    so it lands only on that object. */
module Relocating {
  import opened Devices
  import opened Lifecycle
  import opened Codec
  import opened Placement
  import opened Fitting
  import opened Pods
  import opened Snapshots
  import opened Claims
  import opened Worlds
  import opened Assigning
  import Moving
  import Nvidia

  /** The pod object with one container's entry of the annotation replaced. */
  function Rewritten(o: ApiPod, idx: nat, row: ContainerDevices): ApiPod {
    if NVIDIA !in o.annos || ReplaceEntry(o.annos[NVIDIA], idx, row).Err? then o
    else o.(annos := o.annos[NVIDIA := ReplaceEntry(o.annos[NVIDIA], idx, row).value])
  }

  /** The world after a refit. The cached object is not replaced, only its devices. */
  function Refitted(w: World, u: string, idx: nat, row: ContainerDevices): World
    requires u in w.api && u in w.cache
  {
    var o := Rewritten(w.api[u], idx, row);
    w.(cache := w.cache[u := w.cache[u].(devices := EffectiveDevices(o.pod, RawOf(o), w.cache[u].released))],
       api := w.api[u := o])
  }

  /** The candidate devices with the other cached pods' usage and the preload. */
  ghost predicate PreparedOn(dev: DeviceUsage, info: DeviceInfo, cache: Cache, node: string, pod: Pod, rows: PodSingleDevice, idx: nat,
                             released: bool, mem: nat, cores: nat)
    requires idx < |rows|
  {
    && dev.info == info
    && (forall r :: dev.use.Of(r) == CachedUse(cache, node, info.id, r) + Moving.Preload(pod, rows, idx, released, mem, cores, info.id, r))
  }

  /** A device of the new row passed the fit on its prepared usage. */
  ghost predicate TargetOk(infos: map<DeviceId, DeviceInfo>, others: Cache, node: string, pod: Pod, rows: PodSingleDevice, idx: nat,
                           released: bool, d: DeviceId, nums: nat, mem: nat, cores: nat, sel: Selection, prepared: Snapshot)
    requires idx < |rows| && nums > 0
  {
    && d in infos && infos[d].vendor == NVIDIA && d in prepared
    && PreparedOn(prepared[d], infos[d], others, node, pod, rows, idx, released, mem, cores)
    && Nvidia.Admissible(sel, prepared[d], Moving.MoveRequest(nums, mem, cores))
  }

  ghost predicate MoveOk(infos: map<DeviceId, DeviceInfo>, others: Cache, node: string, pod: Pod, rows: PodSingleDevice, idx: nat,
                         released: bool, row: ContainerDevices, mem: nat, cores: nat, sel: Selection, prepared: Snapshot)
  {
    && idx < |rows| && row != [] && Moving.UniformRow(row, mem, cores)
    && (forall x :: 0 <= x < |row| ==>
      TargetOk(infos, others, node, pod, rows, idx, released, row[x].uuid, |row|, mem, cores, sel, prepared))
  }

  /** The refit moves container `idx` of a cached pod to `row`, whose devices the fit
      accepted. The patch was not refused: the object that was read is the API server's. */
  ghost predicate Refittable(cluster: Cluster, w: World, u: string, idx: nat, row: ContainerDevices, mem: nat, cores: nat,
                             sel: Selection, prepared: Snapshot) {
    && u in w.api && u in w.cache && u !in w.gone && w.cache[u].obj == w.api[u] && w.cache[u].node in cluster
    && NVIDIA in w.api[u].annos && ReplaceEntry(w.api[u].annos[NVIDIA], idx, row).Ok?
    && RowAt(RawOf(w.api[u]), NVIDIA, idx) != []
    && MoveOk(cluster[w.cache[u].node], w.cache - {u}, w.cache[u].node, w.api[u].pod, Rows(RawOf(w.api[u]), NVIDIA), idx,
              w.cache[u].released, row, mem, cores, sel, prepared)
  }

  lemma MovedRowClean(cluster: Cluster, w: World, u: string, idx: nat, row: ContainerDevices, mem: nat, cores: nat, sel: Selection, prepared: Snapshot)
    requires CleanCluster(cluster) && Refittable(cluster, w, u, idx, row, mem, cores, sel, prepared)
    ensures CleanRow(row) && NormRow(row) == row && RowTypedIn(cluster[w.cache[u].node], NVIDIA, row)
  {
    BackendsClean();
    forall x | 0 <= x < |row| ensures CleanName(row[x].uuid) && CleanName(row[x].typ) && Norm(row[x]) == row[x]
      && row[x].uuid in cluster[w.cache[u].node] && cluster[w.cache[u].node][row[x].uuid].vendor == NVIDIA {
      assert TargetOk(cluster[w.cache[u].node], w.cache - {u}, w.cache[u].node, w.api[u].pod, Rows(RawOf(w.api[u]), NVIDIA), idx,
                      w.cache[u].released, row[x].uuid, |row|, mem, cores, sel, prepared);
    }
  }

  /** The annotation read back after the refit: exactly one row differs. */
  lemma RewrittenRows(o: ApiPod, idx: nat, row: ContainerDevices)
    requires DecodeAnnos(o.annos).Ok? && CleanRow(row) && NormRow(row) == row && NVIDIA in o.annos
    requires ReplaceEntry(o.annos[NVIDIA], idx, row).Ok?
    ensures DecodeAnnos(Rewritten(o, idx, row).annos).Ok? && NVIDIA in RawOf(o) && idx < |RawOf(o)[NVIDIA]|
    ensures RawOf(Rewritten(o, idx, row)) == RawOf(o)[NVIDIA := RawOf(o)[NVIDIA][idx := row]]
  {
    var o' := Rewritten(o, idx, row);
    ReplaceChangesOneRow(o.annos[NVIDIA], idx, row);
    forall t | t in o'.annos ensures DecodeRows(o'.annos[t]).Ok? {}
  }

  lemma DistinctReplaced(pod: Pod, rows: PodSingleDevice, idx: nat, row: ContainerDevices)
    requires InitRowsDistinct(pod, rows) && idx < |rows| && Distinct(row)
    ensures InitRowsDistinct(pod, rows[idx := row])
  {
  }

  lemma RewrittenAnnotated(cluster: Cluster, o: ApiPod, idx: nat, row: ContainerDevices)
    requires Annotated(cluster, o) && CleanRow(row) && NormRow(row) == row && NVIDIA in o.annos
    requires ReplaceEntry(o.annos[NVIDIA], idx, row).Ok? && RowAt(RawOf(o), NVIDIA, idx) != []
    requires Distinct(row) && RowTypedIn(cluster[o.node.value], NVIDIA, row)
    ensures Annotated(cluster, Rewritten(o, idx, row))
  {
    var raw, raw' := RawOf(o), RawOf(Rewritten(o, idx, row));
    RewrittenRows(o, idx, row);
    forall t, i | t in raw' && 0 <= i < |raw'[t]| ensures RowTypedIn(cluster[o.node.value], t, raw'[t][i]) {
      if t != NVIDIA || i != idx { assert RowTypedIn(cluster[o.node.value], t, raw[t][i]); }
    }
    forall t ensures InitRowsDistinct(o.pod, Rows(raw', t)) {
      assert InitRowsDistinct(o.pod, Rows(raw, t));
      if t == NVIDIA { DistinctReplaced(o.pod, raw[t], idx, row); }
    }
    forall t | t in raw' && !Requests(o.pod, t) ensures AllEmpty(raw'[t]) {
      assert AllEmpty(raw[t]);
      assert t != NVIDIA;
    }
  }

  lemma EffectiveMatch(o: ApiPod, released: bool)
    ensures DevicesMatch(EffectiveDevices(o.pod, RawOf(o), released), o, released)
  {
    var devices := EffectiveDevices(o.pod, RawOf(o), released);
    forall t ensures RowAt(devices, t, 0) == EffectiveRow(o.pod, t, Rows(RawOf(o), t), released) {
      if t !in RawOf(o) { EmptyCharges(o.pod, t, [], released); }
    }
  }

  lemma RefittedSame(w: World, u: string, idx: nat, row: ContainerDevices)
    requires u in w.api && u in w.cache
    ensures SameBut(w, Refitted(w, u, idx, row), u)
  {
    forall v | v != u ensures SameAt(w, Refitted(w, u, idx, row), v) {}
  }

  lemma RefittedConsistent(cluster: Cluster, w: World, u: string, idx: nat, row: ContainerDevices, mem: nat, cores: nat,
                           sel: Selection, prepared: Snapshot)
    requires Consistent(cluster, w) && CleanCluster(cluster) && Refittable(cluster, w, u, idx, row, mem, cores, sel, prepared)
    ensures Consistent(cluster, Refitted(w, u, idx, row))
  {
    var w' := Refitted(w, u, idx, row);
    assert ConsistentAt(cluster, w, u);
    MovedRowClean(cluster, w, u, idx, row, mem, cores, sel, prepared);
    RewrittenRows(w.api[u], idx, row);
    RewrittenAnnotated(cluster, w.api[u], idx, row);
    EffectiveMatch(w'.api[u], w.cache[u].released);
    assert ConsistentAt(cluster, w', u);
    RefittedSame(w, u, idx, row);
    ConsistentStep(cluster, w, w', u);
  }

  // ---------- What the pods claim afterwards ----------

  lemma CachedClaim(w: World, u: string)
    requires u in w.api && u in w.cache && w.api[u].node.Some?
    ensures u in ClaimsOf(w) && ClaimsOf(w)[u] == ClaimOf(w.api[u], w.cache[u].released)
  {
  }

  lemma RefittedClaims(cluster: Cluster, w: World, u: string, idx: nat, row: ContainerDevices, mem: nat, cores: nat,
                       sel: Selection, prepared: Snapshot)
    requires Consistent(cluster, w) && CleanCluster(cluster) && Refittable(cluster, w, u, idx, row, mem, cores, sel, prepared)
    ensures u in ClaimsOf(w) && ClaimsOf(w)[u] == ClaimOf(w.api[u], w.cache[u].released)
    ensures NVIDIA in RawOf(w.api[u]) && idx < |RawOf(w.api[u])[NVIDIA]|
    ensures ClaimsOf(Refitted(w, u, idx, row)) == (ClaimsOf(w) - {u})[u := Moving.MovedClaim(ClaimsOf(w)[u], idx, row)]
  {
    var w' := Refitted(w, u, idx, row);
    assert ConsistentAt(cluster, w, u);
    MovedRowClean(cluster, w, u, idx, row, mem, cores, sel, prepared);
    RewrittenRows(w.api[u], idx, row);
    RefittedSame(w, u, idx, row);
    CachedClaim(w, u);
    CachedClaim(w', u);
    ClaimsJoin(w, w', u);
  }

  /** `others` use of the node's devices what the cached pods other than `u` use. */
  ghost predicate SeenByFit(cluster: Cluster, w: World, u: string, others: ClaimMap)
    requires u in w.cache && w.cache[u].node in cluster
  {
    var node := w.cache[u].node;
    forall d, r :: d in cluster[node] ==> CachedUse(w.cache - {u}, node, d, r) == TotalUse(others, node, cluster[node][d].vendor, d, r)
  }

  lemma AcceptedTarget(cluster: Cluster, w: World, u: string, others: ClaimMap, idx: nat, d: DeviceId, nums: nat, mem: nat, cores: nat,
                       sel: Selection, prepared: Snapshot)
    requires u in w.api && u in w.cache && w.api[u].node == Some(w.cache[u].node) && w.cache[u].node in cluster
    requires CleanCluster(cluster) && SeenByFit(cluster, w, u, others) && nums > 0 && NVIDIA in RawOf(w.api[u]) && idx < |RawOf(w.api[u])[NVIDIA]|
    requires TargetOk(cluster[w.cache[u].node], w.cache - {u}, w.cache[u].node, w.api[u].pod, RawOf(w.api[u])[NVIDIA], idx,
                      w.cache[u].released, d, nums, mem, cores, sel, prepared)
    ensures Moving.AcceptedOn(cluster, others, ClaimOf(w.api[u], w.cache[u].released), idx, d, nums, mem, cores, sel, prepared)
  {
    var node := w.cache[u].node;
    assert CleanName(d) && cluster[node][d].id == d;
    assert Moving.Prepared(prepared[d], cluster[node][d], others, ClaimOf(w.api[u], w.cache[u].released), idx, mem, cores);
  }

  /** The fit that the refit runs accepts the new row beside the claims it sees. */
  lemma RefitAccepted(cluster: Cluster, w: World, u: string, others: ClaimMap, idx: nat, row: ContainerDevices, mem: nat, cores: nat,
                      sel: Selection, prepared: Snapshot)
    requires Consistent(cluster, w) && CleanCluster(cluster) && Refittable(cluster, w, u, idx, row, mem, cores, sel, prepared)
    requires SeenByFit(cluster, w, u, others) && NVIDIA in RawOf(w.api[u]) && idx < |RawOf(w.api[u])[NVIDIA]|
    ensures w.api[u].node.Some?
    ensures Moving.Accepted(cluster, others, ClaimOf(w.api[u], w.cache[u].released), idx, row, mem, cores, sel, prepared)
  {
    assert ConsistentAt(cluster, w, u);
    var c := ClaimOf(w.api[u], w.cache[u].released);
    forall x | 0 <= x < |row| ensures Moving.AcceptedOn(cluster, others, c, idx, row[x].uuid, |row|, mem, cores, sel, prepared) {
      AcceptedTarget(cluster, w, u, others, idx, row[x].uuid, |row|, mem, cores, sel, prepared);
    }
  }

  // ---------- A second refit waits for the event ----------

  /** The pod is cached at most with annotations that are not the API server's. */
  predicate Behind(w: World, u: string) {
    u in w.cache && u in w.api ==> w.cache[u].obj.annos != w.api[u].annos
  }

  /** No refit of the pod completes: the patch would name an old version. */
  lemma BehindRefused(cluster: Cluster, w: World, u: string, idx: nat, row: ContainerDevices, mem: nat, cores: nat, sel: Selection, prepared: Snapshot)
    requires Behind(w, u)
    ensures !Refittable(cluster, w, u, idx, row, mem, cores, sel, prepared)
  {
  }

  /** A refit that changes the row leaves the cached object behind. */
  lemma RefitFallsBehind(cluster: Cluster, w: World, u: string, idx: nat, row: ContainerDevices, mem: nat, cores: nat, sel: Selection, prepared: Snapshot)
    requires Consistent(cluster, w) && CleanCluster(cluster) && Refittable(cluster, w, u, idx, row, mem, cores, sel, prepared)
    requires row != RowAt(RawOf(w.api[u]), NVIDIA, idx)
    ensures Behind(Refitted(w, u, idx, row), u)
  {
    assert ConsistentAt(cluster, w, u);
    MovedRowClean(cluster, w, u, idx, row, mem, cores, sel, prepared);
    RewrittenRows(w.api[u], idx, row);
  }
}
