/** The scheduler's cache next to the pods of the API server, and the claims they
    stand for: a cached pod claims what it is charged, and a pod that is annotated but
    not cached claims what the next event for it will charge. */
module Worlds {
  import opened Usages
  import opened Devices
  import opened Collapse
  import opened Lifecycle
  import opened Placement
  import opened Fitting
  import opened Pods
  import opened Snapshots
  import opened Claims
  import opened Reserving

  /** `gone` are the pods the API server has removed; their last object stays in `api`. */
  datatype World = World(cache: Cache, api: map<string, ApiPod>, gone: set<string>)

  function RawOf(o: ApiPod): PodDevices {
    var raw := DecodeAnnos(o.annos);
    if raw.Ok? then raw.value else map[]
  }

  function EffectiveRow(pod: Pod, t: string, rows: PodSingleDevice, released: bool): ContainerDevices {
    if released then SteadyRow(pod, t, rows) else CollapsedRow(pod, t, rows)
  }

  /** The cached devices are the effective devices of the API server's annotation. The cached
      object can be older. */
  ghost predicate Matches(pi: PodInfo, o: ApiPod) {
    && o.node == Some(pi.node) && pi.obj.pod == o.pod && DecodeAnnos(o.annos).Ok?
    && (pi.released ==> InitSucceeded(o))
    && DevicesMatch(pi.devices, o, pi.released)
  }

  ghost predicate DevicesMatch(devices: PodDevices, o: ApiPod, released: bool) {
    && (forall t :: t in devices ==> |devices[t]| == 1)
    && (forall t :: RowAt(devices, t, 0) == EffectiveRow(o.pod, t, Rows(RawOf(o), t), released))
  }

  /** Rows of a type name only devices of the node that the type's backend serves. */
  ghost predicate TypedIn(infos: map<DeviceId, DeviceInfo>, raw: PodDevices) {
    forall t, i :: t in raw && 0 <= i < |raw[t]| ==> RowTypedIn(infos, t, raw[t][i])
  }

  ghost predicate RowTypedIn(infos: map<DeviceId, DeviceInfo>, t: string, row: ContainerDevices) {
    forall x :: 0 <= x < |row| ==> row[x].uuid in infos && infos[row[x].uuid].vendor == t
  }

  /** The annotation of an assigned pod is one the scheduler wrote for its node. */
  ghost predicate Annotated(cluster: Cluster, o: ApiPod) {
    && o.node.Some? && o.node.value in cluster && DecodeAnnos(o.annos).Ok?
    && TypedIn(cluster[o.node.value], RawOf(o))
    && (forall t :: InitRowsDistinct(o.pod, Rows(RawOf(o), t)))
    && (forall t :: t in RawOf(o) && !Requests(o.pod, t) ==> AllEmpty(RawOf(o)[t]))
  }

  ghost predicate ApiOk(cluster: Cluster, u: string, o: ApiPod) {
    o.pod.uid == u && if o.node.None? then o.annos == map[] else Annotated(cluster, o)
  }

  ghost predicate Consistent(cluster: Cluster, w: World) {
    && (forall u :: u in w.api ==> ApiOk(cluster, u, w.api[u]))
    && (forall u :: u in w.cache ==> u in w.api && Matches(w.cache[u], w.api[u]))
  }

  /** Annotated and alive, but not cached: an event will bring it back. */
  predicate Stray(w: World, u: string) {
    u in w.api && u !in w.cache && u !in w.gone && !w.api[u].terminated && w.api[u].node.Some?
  }

  predicate Claiming(w: World, u: string) {
    u in w.api && w.api[u].node.Some? && (u in w.cache || Stray(w, u))
  }

  function ClaimOf(o: ApiPod, released: bool): Claim
    requires o.node.Some?
  {
    Claim(o.pod, o.node.value, RawOf(o), released)
  }

  function ReleasedIn(w: World, u: string): bool
    requires u in w.api
  {
    if u in w.cache then w.cache[u].released else InitSucceeded(w.api[u])
  }

  function ClaimsOf(w: World): ClaimMap {
    map u | u in w.api && Claiming(w, u) :: ClaimOf(w.api[u], ReleasedIn(w, u))
  }

  // ---------- Cached usage is the usage of the claims ----------

  lemma EffectiveRowUse(pod: Pod, t: string, rows: PodSingleDevice, released: bool, d: DeviceId, r: Res)
    requires InitRowsDistinct(pod, rows)
    ensures RowUse(EffectiveRow(pod, t, rows, released), d, r) == Effective(pod, rows, released, d, r)
    ensures Distinct(EffectiveRow(pod, t, rows, released))
    ensures Names(EffectiveRow(pod, t, rows, released), d) ==> exists i :: 0 <= i < |rows| && Names(rows[i], d)
  {
    if released {
      SteadyRowUse(pod, t, rows, d, r);
    } else {
      CollapsedRowUse(pod, t, rows, d, r);
      CollapsedIsEffective(pod, rows, d, r);
    }
  }

  /** A type's charged row has nothing on devices of other types. */
  lemma ForeignCharge(infos: map<DeviceId, DeviceInfo>, pod: Pod, raw: PodDevices, released: bool, t: string, d: DeviceId, r: Res)
    requires TypedIn(infos, raw) && InitRowsDistinct(pod, Rows(raw, t)) && d in infos && infos[d].vendor != t
    ensures RowUse(EffectiveRow(pod, t, Rows(raw, t), released), d, r) == 0
  {
    var row, rows := EffectiveRow(pod, t, Rows(raw, t), released), Rows(raw, t);
    EffectiveRowUse(pod, t, rows, released, d, r);
    forall i | 0 <= i < |rows| ensures !Names(rows[i], d) { assert RowTypedIn(infos, t, rows[i]); }
    RowUseUnnamed(row, d, r);
  }

  lemma SingleRowsUse(rows: PodSingleDevice, d: DeviceId, r: Res)
    requires |rows| == 1
    ensures RowsUse(rows, d, r) == RowUse(rows[0], d, r)
  {
    assert rows[..0] == [];
  }

  /** What a cached pod uses of a device is what its claim is charged there. */
  lemma CachedIsClaimed(cluster: Cluster, devices: PodDevices, o: ApiPod, released: bool, d: DeviceId, r: Res)
    requires Annotated(cluster, o) && DevicesMatch(devices, o, released) && d in cluster[o.node.value]
    ensures PodUse(devices, d, r) == ClaimUse(ClaimOf(o, released), cluster[o.node.value][d].vendor, d, r)
  {
    var infos, raw, v := cluster[o.node.value], RawOf(o), cluster[o.node.value][d].vendor;
    var f := TypeUse(d, r);
    forall t | t in devices ensures f(t, devices[t]) == if t == v then Effective(o.pod, Rows(raw, v), released, d, r) else 0 {
      SingleRowsUse(devices[t], d, r);
      assert RowAt(devices, t, 0) == EffectiveRow(o.pod, t, Rows(raw, t), released);
      if t == v {
        EffectiveRowUse(o.pod, t, Rows(raw, t), released, d, r);
      } else {
        ForeignCharge(infos, o.pod, raw, released, t, d, r);
      }
    }
    if v in devices {
      SumMapRemove(devices, f, v);
      SumMapZero(devices - {v}, f);
    } else {
      SumMapZero(devices, f);
      assert RowAt(devices, v, 0) == EffectiveRow(o.pod, v, Rows(raw, v), released);
      EffectiveRowUse(o.pod, v, Rows(raw, v), released, d, r);
    }
  }

  lemma SingleRowsListed(rows: PodSingleDevice, uid: string, d: DeviceId, tn: Tenant)
    requires |rows| == 1
    ensures RowsListed(rows, uid, d, tn) == RowListing(rows[0], uid, d, tn)
  {
    assert rows[..0] == [];
  }

  /** How often a claim is listed with a device: once if it has an entry there, with the
      cores it is charged. */
  function ClaimListed(c: Claim, uid: string, t: string, d: DeviceId, tn: Tenant): nat {
    if ClaimUse(c, t, d, Slots) > 0 && tn == Tenant(uid, ClaimUse(c, t, d, Cores)) then 1 else 0
  }

  lemma EffectiveListed(infos: map<DeviceId, DeviceInfo>, pod: Pod, raw: PodDevices, released: bool, t: string, uid: string, d: DeviceId, tn: Tenant)
    requires TypedIn(infos, raw) && InitRowsDistinct(pod, Rows(raw, t)) && d in infos
    ensures RowListing(EffectiveRow(pod, t, Rows(raw, t), released), uid, d, tn) ==
      if infos[d].vendor == t && Effective(pod, Rows(raw, t), released, d, Slots) > 0
        && tn == Tenant(uid, Effective(pod, Rows(raw, t), released, d, Cores)) then 1 else 0
  {
    var row, rows := EffectiveRow(pod, t, Rows(raw, t), released), Rows(raw, t);
    EffectiveRowUse(pod, t, rows, released, d, Slots);
    EffectiveRowUse(pod, t, rows, released, d, Cores);
    DistinctListed(row, uid, d, tn);
    if infos[d].vendor != t {
      forall i | 0 <= i < |rows| ensures !Names(rows[i], d) { assert RowTypedIn(infos, t, rows[i]); }
    }
    if Names(row, d) {
      var x :| 0 <= x < |row| && row[x].uuid == d;
      RowUseBound(row, d, Slots, x);
    } else {
      RowUseUnnamed(row, d, Slots);
    }
  }

  /** A cached pod is listed with a device as its claim is. */
  lemma ListedIsClaimed(cluster: Cluster, devices: PodDevices, o: ApiPod, released: bool, uid: string, d: DeviceId, tn: Tenant)
    requires Annotated(cluster, o) && DevicesMatch(devices, o, released) && d in cluster[o.node.value]
    ensures PodListed(devices, uid, d, tn) == ClaimListed(ClaimOf(o, released), uid, cluster[o.node.value][d].vendor, d, tn)
  {
    var infos, raw, v := cluster[o.node.value], RawOf(o), cluster[o.node.value][d].vendor;
    var f, n := TypeListed(uid, d, tn), ClaimListed(ClaimOf(o, released), uid, v, d, tn);
    forall t | t in devices ensures f(t, devices[t]) == if t == v then n else 0 {
      SingleRowsListed(devices[t], uid, d, tn);
      assert RowAt(devices, t, 0) == EffectiveRow(o.pod, t, Rows(raw, t), released);
      EffectiveListed(infos, o.pod, raw, released, t, uid, d, tn);
    }
    if v in devices {
      SumMapRemove(devices, f, v);
      SumMapZero(devices - {v}, f);
    } else {
      SumMapZero(devices, f);
      assert RowAt(devices, v, 0) == EffectiveRow(o.pod, v, Rows(raw, v), released);
      EffectiveListed(infos, o.pod, raw, released, v, uid, d, tn);
    }
  }

  /** The claims of the cached pods. */
  function CachedClaims(w: World): ClaimMap {
    map u | u in w.cache && u in w.api && w.api[u].node.Some? :: ClaimOf(w.api[u], w.cache[u].released)
  }

  lemma CachedTotal(cluster: Cluster, w: World, node: string, d: DeviceId, r: Res)
    requires Consistent(cluster, w) && node in cluster && d in cluster[node]
    ensures CachedUse(w.cache, node, d, r) == TotalUse(CachedClaims(w), node, cluster[node][d].vendor, d, r)
  {
    var t := cluster[node][d].vendor;
    forall u | u in w.cache ensures u in CachedClaims(w) && CachedShare(node, d, r)(u, w.cache[u]) == Share(node, t, d, r)(u, CachedClaims(w)[u]) {
      assert Matches(w.cache[u], w.api[u]) && ApiOk(cluster, u, w.api[u]);
      if w.cache[u].node == node { CachedIsClaimed(cluster, w.cache[u].devices, w.api[u], w.cache[u].released, d, r); }
    }
    SumMapSame(w.cache, CachedClaims(w), CachedShare(node, d, r), Share(node, t, d, r));
  }

  // ---------- Snapshots of the cache show the claims ----------

  /** No pod other than `u` waits outside the cache with a claim on the node. */
  ghost predicate NoStrays(w: World, node: string, u: string) {
    forall v :: v != u && Stray(w, v) ==> w.api[v].node != Some(node)
  }

  function Without(w: World, u: string): World {
    w.(cache := w.cache - {u})
  }

  /** A charge in cores is carried by one entry of the charged row. */
  lemma ChargedEntry(pod: Pod, t: string, rows: PodSingleDevice, released: bool, d: DeviceId) returns (x: nat)
    requires InitRowsDistinct(pod, rows) && Effective(pod, rows, released, d, Cores) > 0
    ensures var row := EffectiveRow(pod, t, rows, released);
      x < |row| && row[x].uuid == d && row[x].cores == Effective(pod, rows, released, d, Cores)
  {
    var row := EffectiveRow(pod, t, rows, released);
    EffectiveRowUse(pod, t, rows, released, d, Cores);
    if !Names(row, d) { RowUseUnnamed(row, d, Cores); }
    x :| 0 <= x < |row| && row[x].uuid == d;
    RowUseDistinct(row, Cores, x);
  }

  lemma TenantListed(cluster: Cluster, cache: Cache, u: string, o: ApiPod, snap: Snapshot, node: string, d: DeviceId)
    requires u in cache && Matches(cache[u], o) && ApiOk(cluster, u, o) && node in cluster
    requires Shows(snap, cluster[node], cache, node) && WellKeyed(snap) && d in snap
    ensures Listed(snap[d], node, ClaimOf(o, cache[u].released), u)
  {
    var pi, t := cache[u], snap[d].info.vendor;
    var rows := Rows(RawOf(o), t);
    if pi.node == node && Effective(o.pod, rows, pi.released, d, Cores) > 0 {
      var x := ChargedEntry(o.pod, t, rows, pi.released, d);
      assert RowAt(pi.devices, t, 0) == EffectiveRow(o.pod, t, rows, pi.released);
      GrantListed(cache, node, u, t, 0, x);
      assert multiset(snap[d].tenants)[Tenant(u, pi.devices[t][0][x].cores)] > 0;
    }
  }

  /** A snapshot of the cache without pod `u` shows what the other cached pods claim. */
  lemma SnapshotReflects(cluster: Cluster, w: World, u: string, node: string, snap: Snapshot)
    requires Consistent(cluster, w) && node in cluster
    requires WellKeyed(snap) && Shows(snap, cluster[node], w.cache - {u}, node)
    ensures Reflects(snap, cluster, CachedClaims(Without(w, u)), node)
  {
    var w1 := Without(w, u);
    var others := CachedClaims(w1);
    forall d, r | d in snap ensures snap[d].use.Of(r) == TotalUse(others, node, snap[d].info.vendor, d, r) {
      CachedTotal(cluster, w1, node, d, r);
    }
    forall d, v | d in snap && v in others ensures Listed(snap[d], node, others[v], v) {
      TenantListed(cluster, w1.cache, v, w.api[v], snap, node, d);
    }
  }

  // ---------- Steps that touch one pod ----------

  ghost predicate SameBut(w: World, w': World, u: string) {
    forall v :: v != u ==> SameAt(w, w', v)
  }

  ghost predicate SameAt(w: World, w': World, v: string) {
    && (v in w.api <==> v in w'.api) && (v in w.api ==> w.api[v] == w'.api[v])
    && (v in w.cache <==> v in w'.cache) && (v in w.cache ==> w.cache[v] == w'.cache[v])
    && (v in w.gone <==> v in w'.gone)
  }

  lemma ClaimAt(w: World, w': World, v: string)
    requires SameAt(w, w', v)
    ensures v in ClaimsOf(w) <==> v in ClaimsOf(w')
    ensures v in ClaimsOf(w) ==> ClaimsOf(w)[v] == ClaimsOf(w')[v]
  {
  }

  ghost predicate AgreeAt(a: ClaimMap, b: ClaimMap, v: string) {
    (v in a <==> v in b) && (v in a ==> a[v] == b[v])
  }

  lemma AgreeElsewhere(a: ClaimMap, b: ClaimMap, u: string)
    requires forall v :: v != u ==> AgreeAt(a, b, v)
    ensures b - {u} == a - {u}
  {
    forall v | v in a - {u} ensures v in b && a[v] == b[v] { assert AgreeAt(a, b, v); }
    forall v | v in b - {u} ensures v in a { assert AgreeAt(a, b, v); }
  }

  lemma ClaimsElsewhere(w: World, w': World, u: string)
    requires SameBut(w, w', u)
    ensures ClaimsOf(w') - {u} == ClaimsOf(w) - {u}
  {
    forall v | v != u ensures AgreeAt(ClaimsOf(w), ClaimsOf(w'), v) {
      assert SameAt(w, w', v);
      ClaimAt(w, w', v);
    }
    AgreeElsewhere(ClaimsOf(w), ClaimsOf(w'), u);
  }

  lemma UpdateBySplit(a: ClaimMap, b: ClaimMap, u: string)
    requires u in b && b - {u} == a - {u}
    ensures b == (a - {u})[u := b[u]]
  {
    forall v | v in b ensures v in (a - {u})[u := b[u]] && b[v] == (a - {u})[u := b[u]][v] {
      if v != u { assert v in b - {u} && (b - {u})[v] == b[v]; }
    }
    forall v | v in (a - {u})[u := b[u]] ensures v in b {
      if v != u { assert v in a - {u}; }
    }
  }

  /** A step of one pod: its new claim beside the claims of the others. */
  lemma ClaimsJoin(w: World, w': World, u: string)
    requires SameBut(w, w', u) && u in ClaimsOf(w')
    ensures ClaimsOf(w') == (ClaimsOf(w) - {u})[u := ClaimsOf(w')[u]]
  {
    ClaimsElsewhere(w, w', u);
    UpdateBySplit(ClaimsOf(w), ClaimsOf(w'), u);
  }

  ghost predicate ConsistentAt(cluster: Cluster, w: World, u: string) {
    && (u in w.api ==> ApiOk(cluster, u, w.api[u]))
    && (u in w.cache ==> u in w.api && Matches(w.cache[u], w.api[u]))
  }

  lemma ConsistentStep(cluster: Cluster, w: World, w': World, u: string)
    requires Consistent(cluster, w) && SameBut(w, w', u) && ConsistentAt(cluster, w', u)
    ensures Consistent(cluster, w')
  {
    forall v ensures ConsistentAt(cluster, w', v) {
      if v != u { assert SameAt(w, w', v); }
    }
    assert forall v :: v in w'.api ==> ConsistentAt(cluster, w', v);
    assert forall v :: v in w'.cache ==> ConsistentAt(cluster, w', v);
  }
}
