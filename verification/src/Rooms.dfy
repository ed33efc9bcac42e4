/** Pods that are annotated but not cached will come back, and the fit does not see them.
    When a reservation or a refit keeps a law for the claims of all pods, those included. */
module Rooms {
  import opened Usages
  import opened Devices
  import opened Lifecycle
  import opened Placement
  import opened Snapshots
  import opened Claims
  import opened Reserving
  import opened Worlds
  import opened Assigning
  import opened Relocating
  import Moving

  function PartShare(inside: bool, c: Claim, node: string, t: string, d: DeviceId, r: Res): nat {
    if inside && c.node == node then ClaimUse(c, t, d, r) else 0
  }

  function StrayShare(cached: set<string>, node: string, t: string, d: DeviceId, r: Res): (string, Claim) -> nat {
    (v: string, c: Claim) => PartShare(v !in cached, c, node, t, d, r)
  }

  function OwnShare(cached: set<string>, node: string, t: string, d: DeviceId, r: Res): (string, Claim) -> nat {
    (v: string, c: Claim) => PartShare(v in cached, c, node, t, d, r)
  }

  /** What the pods other than `u` that wait outside the cache will use of a device. */
  ghost function StrayUse(w: World, u: string, node: string, t: string, d: DeviceId, r: Res): nat {
    SumMap(ClaimsOf(w) - {u}, StrayShare(w.cache.Keys, node, t, d, r))
  }

  /** The placement leaves room for the pods that will come back. */
  ghost predicate RoomForStrays(cluster: Cluster, w: World, u: string, node: string, snap: Snapshot, raw: PodDevices)
    requires u in w.api && node in cluster && snap.Keys == cluster[node].Keys
  {
    forall d, r :: d in snap ==> RoomOn(cluster[node][d], w, u, node, snap[d], raw, d, r)
  }

  ghost predicate RoomOn(info: DeviceInfo, w: World, u: string, node: string, dev: DeviceUsage, raw: PodDevices, d: DeviceId, r: Res)
    requires u in w.api
  {
    dev.use.Of(r) + StrayUse(w, u, node, info.vendor, d, r) + Effective(w.api[u].pod, Rows(raw, info.vendor), false, d, r) <= Capacity(info, r)
  }

  /** `cached` are the claims of `all` whose pods are among `keys`. */
  ghost predicate PartBy(cached: ClaimMap, all: ClaimMap, keys: set<string>) {
    && (forall v :: v in cached ==> v in keys && v in all && all[v] == cached[v])
    && (forall v :: v in all && v in keys ==> v in cached)
  }

  lemma CachedPart(cluster: Cluster, w: World, u: string)
    requires Consistent(cluster, w)
    ensures PartBy(CachedClaims(Without(w, u)), ClaimsOf(w) - {u}, w.cache.Keys)
  {
    var cached, all := CachedClaims(Without(w, u)), ClaimsOf(w) - {u};
    forall v | v in cached ensures v in w.cache.Keys && v in all && all[v] == cached[v] { CachedClaim(w, v); }
    forall v | v in all && v in w.cache.Keys ensures v in cached { assert v in w.api; }
  }

  lemma OwnTotal(cached: ClaimMap, all: ClaimMap, keys: set<string>, node: string, t: string, d: DeviceId, r: Res)
    requires PartBy(cached, all, keys)
    ensures TotalUse(cached, node, t, d, r) == SumMap(all, OwnShare(keys, node, t, d, r))
  {
    var own := OwnShare(keys, node, t, d, r);
    SumMapSame(cached, cached, Share(node, t, d, r), own);
    SumMapPart(cached, all, own);
  }

  lemma SplitTotal(all: ClaimMap, keys: set<string>, node: string, t: string, d: DeviceId, r: Res)
    ensures TotalUse(all, node, t, d, r) == SumMap(all, OwnShare(keys, node, t, d, r)) + SumMap(all, StrayShare(keys, node, t, d, r))
  {
    SumMapPlus(all, OwnShare(keys, node, t, d, r), StrayShare(keys, node, t, d, r), Share(node, t, d, r));
  }

  lemma CachedAndStray(cluster: Cluster, w: World, u: string, node: string, d: DeviceId, r: Res)
    requires Consistent(cluster, w) && node in cluster && d in cluster[node]
    ensures TotalUse(ClaimsOf(w) - {u}, node, cluster[node][d].vendor, d, r)
      == CachedUse(w.cache - {u}, node, d, r) + StrayUse(w, u, node, cluster[node][d].vendor, d, r)
  {
    var t := cluster[node][d].vendor;
    CachedTotal(cluster, Without(w, u), node, d, r);
    CachedPart(cluster, w, u);
    OwnTotal(CachedClaims(Without(w, u)), ClaimsOf(w) - {u}, w.cache.Keys, node, t, d, r);
    SplitTotal(ClaimsOf(w) - {u}, w.cache.Keys, node, t, d, r);
  }

  /** What all claims use of a device of the chosen node once the pod is reserved. */
  lemma ReservedTotal(cluster: Cluster, w: World, u: string, node: string, snap: Snapshot, sel: Selection, raw: PodDevices, n: string, d: DeviceId, r: Res)
    requires Consistent(cluster, w) && CleanCluster(cluster) && Reservable(cluster, w, u, node, snap, sel, raw) && n in cluster && d in cluster[n]
    ensures TotalUse(ClaimsOf(Reserved(w, u, node, raw)), n, cluster[n][d].vendor, d, r) ==
      if n == node then snap[d].use.Of(r) + StrayUse(w, u, node, cluster[n][d].vendor, d, r)
        + Effective(w.api[u].pod, Rows(raw, cluster[n][d].vendor), false, d, r)
      else TotalUse(ClaimsOf(w) - {u}, n, cluster[n][d].vendor, d, r)
  {
    var t, others, o' := cluster[n][d].vendor, ClaimsOf(w) - {u}, Assigned(w.api[u], node, raw);
    ReservedClaims(w, u, node, raw);
    AssignedAnnotated(cluster, w, u, node, snap, sel, raw);
    assert RecoveredType(w.api[u].pod, raw, RawOf(o'), t);
    RecoveredCharge(w.api[u].pod, raw, RawOf(o'), t, false);
    TotalSplit(others, u, ClaimOf(o', false), n, t, d, r);
    assert others - {u} == others;
    if n == node { CachedAndStray(cluster, w, u, node, d, r); }
  }

  lemma ReservedFitsIff(cluster: Cluster, w: World, u: string, node: string, snap: Snapshot, sel: Selection, raw: PodDevices)
    requires Consistent(cluster, w) && CleanCluster(cluster) && WithinCapacity(cluster, ClaimsOf(w))
    requires Reservable(cluster, w, u, node, snap, sel, raw)
    ensures WithinCapacity(cluster, ClaimsOf(Reserved(w, u, node, raw))) <==> RoomForStrays(cluster, w, u, node, snap, raw)
  {
    var after := ClaimsOf(Reserved(w, u, node, raw));
    DropKeeps(cluster, ClaimsOf(w), u, CapacityLaw);
    forall n, d, r | n in cluster && d in cluster[n]
      ensures TotalUse(after, n, cluster[n][d].vendor, d, r) <= Capacity(cluster[n][d], r)
        <==> (n == node ==> RoomOn(cluster[n][d], w, u, node, snap[d], raw, d, r))
    {
      ReservedTotal(cluster, w, u, node, snap, sel, raw, n, d, r);
    }
  }

  // ---------- Exclusive cards beside strays ----------

  /** The claim is apart from every other pod that waits outside the cache. */
  ghost predicate StraysApart(cluster: Cluster, w: World, u: string, c: Claim, law: Law) {
    forall v :: v != u && Stray(w, v) ==> Apart(cluster, c, ClaimsOf(w)[v], law)
  }

  lemma CachedOrStray(cluster: Cluster, w: World, u: string, v: string)
    requires Consistent(cluster, w) && v in ClaimsOf(w) - {u}
    ensures Stray(w, v) || (v in CachedClaims(Without(w, u)) && CachedClaims(Without(w, u))[v] == ClaimsOf(w)[v])
  {
    if v in w.cache {
      assert ConsistentAt(cluster, w, v);
      CachedClaim(w, v);
    }
  }

  /** The placement is apart from the cached pods, so only strays can be in its way. */
  lemma PlacedApart(cluster: Cluster, w: World, u: string, node: string, snap: Snapshot, sel: Selection, raw: PodDevices, v: string, law: Law)
    requires Consistent(cluster, w) && CleanCluster(cluster) && Reservable(cluster, w, u, node, snap, sel, raw)
    requires v in ClaimsOf(w) - {u} && !Stray(w, v)
    ensures Apart(cluster, Claim(w.api[u].pod, node, raw, false), ClaimsOf(w)[v], law)
  {
    var others, c := CachedClaims(Without(w, u)), Claim(w.api[u].pod, node, raw, false);
    assert ConsistentAt(cluster, w, u);
    CachedOrStray(cluster, w, u, v);
    SnapshotReflects(cluster, w, u, node, snap);
    assert PlacedBeside(cluster, others, u, c, snap, sel);
    ReserveApart(cluster, others, u, c, snap, sel, v, law);
  }

  lemma ReservedApartIff(cluster: Cluster, w: World, u: string, node: string, snap: Snapshot, sel: Selection, raw: PodDevices, v: string, law: Law)
    requires Consistent(cluster, w) && CleanCluster(cluster) && Reservable(cluster, w, u, node, snap, sel, raw) && v in ClaimsOf(w) - {u}
    ensures Apart(cluster, ClaimOf(Assigned(w.api[u], node, raw), false), ClaimsOf(w)[v], law)
      <==> (Stray(w, v) ==> Apart(cluster, Claim(w.api[u].pod, node, raw, false), ClaimsOf(w)[v], law))
  {
    var back, c := ClaimOf(Assigned(w.api[u], node, raw), false), Claim(w.api[u].pod, node, raw, false);
    RecoveredEquivalent(cluster, w, u, node, snap, sel, raw);
    if Apart(cluster, back, ClaimsOf(w)[v], law) { LighterApart(cluster, c, back, ClaimsOf(w)[v], law); }
    if !Stray(w, v) { PlacedApart(cluster, w, u, node, snap, sel, raw, v, law); }
    if Apart(cluster, c, ClaimsOf(w)[v], law) { LighterApart(cluster, back, c, ClaimsOf(w)[v], law); }
  }

  /** What a reservation must leave to the pods that will come back. */
  ghost predicate LeavesRoom(cluster: Cluster, w: World, u: string, node: string, snap: Snapshot, raw: PodDevices, law: Law)
    requires u in w.api && node in cluster && snap.Keys == cluster[node].Keys
  {
    if law.CapacityLaw? then RoomForStrays(cluster, w, u, node, snap, raw)
    else StraysApart(cluster, w, u, Claim(w.api[u].pod, node, raw, false), law)
  }

  /** A reservation keeps a law for the claims of all pods exactly when the placement leaves
      the pods outside the cache what they claim. */
  lemma ReservedKeepsIff(cluster: Cluster, w: World, u: string, node: string, snap: Snapshot, sel: Selection, raw: PodDevices, law: Law)
    requires Consistent(cluster, w) && CleanCluster(cluster) && Keeps(cluster, ClaimsOf(w), law)
    requires Reservable(cluster, w, u, node, snap, sel, raw)
    ensures Keeps(cluster, ClaimsOf(Reserved(w, u, node, raw)), law) <==> LeavesRoom(cluster, w, u, node, snap, raw, law)
  {
    if law.CapacityLaw? {
      ReservedFitsIff(cluster, w, u, node, snap, sel, raw);
    } else {
      ReservedExclusiveIff(cluster, w, u, node, snap, sel, raw, law);
    }
  }

  lemma ReservedExclusiveIff(cluster: Cluster, w: World, u: string, node: string, snap: Snapshot, sel: Selection, raw: PodDevices, law: Law)
    requires Consistent(cluster, w) && CleanCluster(cluster) && Keeps(cluster, ClaimsOf(w), law) && !law.CapacityLaw?
    requires Reservable(cluster, w, u, node, snap, sel, raw)
    ensures Keeps(cluster, ClaimsOf(Reserved(w, u, node, raw)), law)
      <==> StraysApart(cluster, w, u, Claim(w.api[u].pod, node, raw, false), law)
  {
    var others, back := ClaimsOf(w) - {u}, ClaimOf(Assigned(w.api[u], node, raw), false);
    DropKeeps(cluster, ClaimsOf(w), u, law);
    ReservedClaims(w, u, node, raw);
    JoinKeepsIff(cluster, others, u, back, law);
    forall v | v in others ensures Apart(cluster, back, others[v], law)
      <==> (Stray(w, v) ==> Apart(cluster, Claim(w.api[u].pod, node, raw, false), ClaimsOf(w)[v], law))
    {
      ReservedApartIff(cluster, w, u, node, snap, sel, raw, v, law);
    }
    ApartFromStrays(cluster, w, u, Claim(w.api[u].pod, node, raw, false), back, law);
  }

  lemma ApartFromStrays(cluster: Cluster, w: World, u: string, c: Claim, back: Claim, law: Law)
    requires forall v :: v in ClaimsOf(w) - {u} ==>
      (Apart(cluster, back, ClaimsOf(w)[v], law) <==> (Stray(w, v) ==> Apart(cluster, c, ClaimsOf(w)[v], law)))
    ensures (forall v :: v in ClaimsOf(w) - {u} ==> Apart(cluster, back, ClaimsOf(w)[v], law)) <==> StraysApart(cluster, w, u, c, law)
  {
    forall v | v != u && Stray(w, v) ensures v in ClaimsOf(w) - {u} {}
  }

  /** Without strays on the node a reservation always leaves room. */
  lemma SettledReservation(cluster: Cluster, w: World, u: string, node: string, snap: Snapshot, sel: Selection, raw: PodDevices, law: Law)
    requires Consistent(cluster, w) && CleanCluster(cluster) && Keeps(cluster, ClaimsOf(w), law)
    requires Reservable(cluster, w, u, node, snap, sel, raw) && NoStrays(w, node, u)
    ensures LeavesRoom(cluster, w, u, node, snap, raw, law)
  {
    if law.CapacityLaw? {
      forall d, r | d in snap ensures RoomOn(cluster[node][d], w, u, node, snap[d], raw, d, r) {
        SettledDevice(cluster, w, u, node, snap, sel, raw, d, r);
      }
    } else {
      forall v | v != u && Stray(w, v) ensures Apart(cluster, Claim(w.api[u].pod, node, raw, false), ClaimsOf(w)[v], law) {}
    }
  }

  lemma SettledDevice(cluster: Cluster, w: World, u: string, node: string, snap: Snapshot, sel: Selection, raw: PodDevices, d: DeviceId, r: Res)
    requires Consistent(cluster, w) && WithinCapacity(cluster, ClaimsOf(w)) && Reservable(cluster, w, u, node, snap, sel, raw)
    requires NoStrays(w, node, u) && d in snap
    ensures RoomOn(cluster[node][d], w, u, node, snap[d], raw, d, r)
  {
    DropKeeps(cluster, ClaimsOf(w), u, CapacityLaw);
    CachedAndStray(cluster, w, u, node, d, r);
    NothingStray(w, u, node, cluster[node][d].vendor, d, r);
    ClaimFits(snap, sel, Claim(w.api[u].pod, node, raw, false), cluster[node][d].vendor, d, r);
  }

  lemma NothingStray(w: World, u: string, node: string, t: string, d: DeviceId, r: Res)
    requires NoStrays(w, node, u)
    ensures StrayUse(w, u, node, t, d, r) == 0
  {
    var f := StrayShare(w.cache.Keys, node, t, d, r);
    forall v | v in ClaimsOf(w) - {u} ensures f(v, (ClaimsOf(w) - {u})[v]) == 0 {
      if v !in w.cache { assert Stray(w, v); }
    }
    SumMapZero(ClaimsOf(w) - {u}, f);
  }

  // ---------- Refits ----------

  ghost predicate RoomForMoveOn(info: DeviceInfo, w: World, u: string, moved: Claim, d: DeviceId, r: Res) {
    CachedUse(w.cache - {u}, moved.node, d, r) + StrayUse(w, u, moved.node, NVIDIA, d, r) + ClaimUse(moved, NVIDIA, d, r) <= Capacity(info, r)
  }

  /** The new devices have room for the moved pod beside the cached pods and the strays. */
  ghost predicate RoomForMove(infos: map<DeviceId, DeviceInfo>, w: World, u: string, moved: Claim, row: ContainerDevices) {
    forall x, r :: 0 <= x < |row| && row[x].uuid in infos ==> RoomForMoveOn(infos[row[x].uuid], w, u, moved, row[x].uuid, r)
  }

  /** On the new devices the moved pod is apart from the strays. */
  ghost predicate TargetsApart(cluster: Cluster, w: World, u: string, moved: Claim, row: ContainerDevices, law: Law) {
    forall v, x :: v != u && Stray(w, v) && 0 <= x < |row| ==> ApartOn(cluster, moved, ClaimsOf(w)[v], row[x].uuid, law)
  }

  /** What a refit must leave to the pods that will come back, on the devices it moves to.
      Ascend cards are not concerned. */
  ghost predicate MoveLeavesRoom(cluster: Cluster, w: World, u: string, idx: nat, row: ContainerDevices, law: Law)
    requires u in ClaimsOf(w) && ClaimsOf(w)[u].node in cluster && NVIDIA in ClaimsOf(w)[u].raw && idx < |ClaimsOf(w)[u].raw[NVIDIA]|
  {
    var moved := Moving.MovedClaim(ClaimsOf(w)[u], idx, row);
    match law
    case CapacityLaw => RoomForMove(cluster[moved.node], w, u, moved, row)
    case WholeCardLaw => TargetsApart(cluster, w, u, moved, row, law)
    case FullCoreLaw => true
  }

  lemma NamedBy(row: ContainerDevices, d: DeviceId) returns (x: nat)
    requires Names(row, d)
    ensures x < |row| && row[x].uuid == d
  {
    x :| 0 <= x < |row| && row[x].uuid == d;
  }

  /** Where the container does not go, the claim does not grow. */
  lemma MovedElsewhere(c: Claim, idx: nat, row: ContainerDevices, t: string, d: DeviceId, r: Res)
    requires NVIDIA in c.raw && idx < |c.raw[NVIDIA]| && (t == NVIDIA ==> !Names(row, d))
    ensures ClaimUse(Moving.MovedClaim(c, idx, row), t, d, r) <= ClaimUse(c, t, d, r)
  {
    if t == NVIDIA {
      Moving.ChargeElsewhere(c, idx, row, d, r);
      RestOfClaim(c, idx);
    } else {
      assert Rows(Moving.MovedClaim(c, idx, row).raw, t) == Rows(c.raw, t);
    }
  }

  lemma RestOfClaim(c: Claim, idx: nat)
    requires NVIDIA in c.raw && idx < |c.raw[NVIDIA]|
    ensures LighterClaim(Moving.Rest(c, idx), c)
  {
    assert c.raw[NVIDIA][idx := c.raw[NVIDIA][idx]] == c.raw[NVIDIA];
    assert Moving.MovedClaim(c, idx, c.raw[NVIDIA][idx]) == c;
    Moving.RestLighter(c, idx, c.raw[NVIDIA][idx]);
  }

  lemma RefitCapacityAt(cluster: Cluster, w: World, u: string, idx: nat, row: ContainerDevices, n: string, d: DeviceId, r: Res)
    requires Consistent(cluster, w) && WithinCapacity(cluster, ClaimsOf(w)) && u in ClaimsOf(w) && n in cluster && d in cluster[n]
    requires NVIDIA in ClaimsOf(w)[u].raw && idx < |ClaimsOf(w)[u].raw[NVIDIA]|
    ensures var moved := Moving.MovedClaim(ClaimsOf(w)[u], idx, row); var t := cluster[n][d].vendor;
      if n == moved.node && t == NVIDIA && Names(row, d) then
        TotalUse((ClaimsOf(w) - {u})[u := moved], n, t, d, r) == CachedUse(w.cache - {u}, n, d, r) + StrayUse(w, u, n, t, d, r) + ClaimUse(moved, t, d, r)
      else TotalUse((ClaimsOf(w) - {u})[u := moved], n, t, d, r) <= Capacity(cluster[n][d], r)
  {
    var t, claims, moved := cluster[n][d].vendor, ClaimsOf(w), Moving.MovedClaim(ClaimsOf(w)[u], idx, row);
    ReplacedTotal(claims, u, moved, n, t, d, r);
    assert TotalUse(claims, n, t, d, r) <= Capacity(cluster[n][d], r);
    if n == moved.node {
      if t == NVIDIA && Names(row, d) { CachedAndStray(cluster, w, u, n, d, r); } else { MovedElsewhere(claims[u], idx, row, t, d, r); }
    }
  }

  lemma RefitCapacityIff(cluster: Cluster, w: World, u: string, idx: nat, row: ContainerDevices)
    requires Consistent(cluster, w) && WithinCapacity(cluster, ClaimsOf(w)) && u in ClaimsOf(w) && ClaimsOf(w)[u].node in cluster
    requires NVIDIA in ClaimsOf(w)[u].raw && idx < |ClaimsOf(w)[u].raw[NVIDIA]| && RowTypedIn(cluster[ClaimsOf(w)[u].node], NVIDIA, row)
    ensures var moved := Moving.MovedClaim(ClaimsOf(w)[u], idx, row);
      WithinCapacity(cluster, (ClaimsOf(w) - {u})[u := moved]) <==> RoomForMove(cluster[moved.node], w, u, moved, row)
  {
    var moved := Moving.MovedClaim(ClaimsOf(w)[u], idx, row);
    var after, node := (ClaimsOf(w) - {u})[u := moved], moved.node;
    if WithinCapacity(cluster, after) {
      forall x, r | 0 <= x < |row| && row[x].uuid in cluster[node] ensures RoomForMoveOn(cluster[node][row[x].uuid], w, u, moved, row[x].uuid, r) {
        RefitCapacityAt(cluster, w, u, idx, row, node, row[x].uuid, r);
        assert TotalUse(after, node, NVIDIA, row[x].uuid, r) <= Capacity(cluster[node][row[x].uuid], r);
      }
    }
    if RoomForMove(cluster[node], w, u, moved, row) {
      forall n, d, r | n in cluster && d in cluster[n] ensures TotalUse(after, n, cluster[n][d].vendor, d, r) <= Capacity(cluster[n][d], r) {
        RefitCapacityAt(cluster, w, u, idx, row, n, d, r);
        if n == node && cluster[n][d].vendor == NVIDIA && Names(row, d) {
          var x := NamedBy(row, d);
          assert RoomForMoveOn(cluster[node][row[x].uuid], w, u, moved, row[x].uuid, r);
        }
      }
    }
  }

  lemma CachedSeen(cluster: Cluster, w: World, u: string)
    requires Consistent(cluster, w) && u in w.cache && w.cache[u].node in cluster
    ensures SeenByFit(cluster, w, u, CachedClaims(Without(w, u)))
  {
    var node := w.cache[u].node;
    forall d, r | d in cluster[node]
      ensures CachedUse(w.cache - {u}, node, d, r) == TotalUse(CachedClaims(Without(w, u)), node, cluster[node][d].vendor, d, r)
    {
      CachedTotal(cluster, Without(w, u), node, d, r);
    }
  }

  /** The claims of a law are apart from each other. */
  lemma KeptApart(cluster: Cluster, claims: ClaimMap, u: string, v: string, law: Law)
    requires Keeps(cluster, claims, law) && u in claims && v in claims && u != v
    ensures Apart(cluster, claims[u], claims[v], law)
  {
    forall d ensures ApartOn(cluster, claims[u], claims[v], d, law) {
      PairApart(cluster, claims, u, v, d, law);
      PairApart(cluster, claims, v, u, d, law);
    }
  }

  /** From a cached pod the moved claim is apart: the fit saw it. */
  lemma RefitApartCached(cluster: Cluster, w: World, u: string, idx: nat, row: ContainerDevices, mem: nat, cores: nat, sel: Selection, prepared: Snapshot, v: string)
    requires Consistent(cluster, w) && CleanCluster(cluster) && Refittable(cluster, w, u, idx, row, mem, cores, sel, prepared)
    requires WholeCardsExclusive(cluster, ClaimsOf(w)) && v in ClaimsOf(w) - {u} && !Stray(w, v)
    requires u in ClaimsOf(w) && NVIDIA in ClaimsOf(w)[u].raw && idx < |ClaimsOf(w)[u].raw[NVIDIA]|
    ensures Apart(cluster, Moving.MovedClaim(ClaimsOf(w)[u], idx, row), ClaimsOf(w)[v], WholeCardLaw)
  {
    var c, others := ClaimsOf(w)[u], CachedClaims(Without(w, u));
    CachedClaim(w, u);
    CachedSeen(cluster, w, u);
    RefitAccepted(cluster, w, u, others, idx, row, mem, cores, sel, prepared);
    CachedOrStray(cluster, w, u, v);
    KeptApart(cluster, ClaimsOf(w), u, v, WholeCardLaw);
    RestOfClaim(c, idx);
    LighterApart(cluster, Moving.Rest(c, idx), c, ClaimsOf(w)[v], WholeCardLaw);
    Moving.MoveApartIff(cluster, others, c, idx, row, mem, cores, sel, prepared, v, WholeCardLaw);
  }

  /** Where the container does not go, the moved claim is apart if the claim was. */
  lemma ApartElsewhere(cluster: Cluster, c: Claim, idx: nat, row: ContainerDevices, mem: nat, cores: nat, e: Claim, d: DeviceId)
    requires NVIDIA in c.raw && idx < |c.raw[NVIDIA]| && Moving.UniformRow(row, mem, cores) && !Names(row, d)
    requires ApartOn(cluster, c, e, d, WholeCardLaw)
    ensures ApartOn(cluster, Moving.MovedClaim(c, idx, row), e, d, WholeCardLaw)
  {
    RestOfClaim(c, idx);
    MovedElsewhere(c, idx, row, NVIDIA, d, Slots);
    if HoldsWhole(Moving.MovedClaim(c, idx, row), d) { Moving.WholeBefore(c, idx, row, mem, cores, d); }
  }

  /** From a stray it is apart exactly when it is on the new devices. */
  lemma RefitApartStrayIff(cluster: Cluster, w: World, u: string, idx: nat, row: ContainerDevices, mem: nat, cores: nat, v: string)
    requires WholeCardsExclusive(cluster, ClaimsOf(w)) && u in ClaimsOf(w) && v in ClaimsOf(w) && u != v
    requires NVIDIA in ClaimsOf(w)[u].raw && idx < |ClaimsOf(w)[u].raw[NVIDIA]| && Moving.UniformRow(row, mem, cores)
    ensures Apart(cluster, Moving.MovedClaim(ClaimsOf(w)[u], idx, row), ClaimsOf(w)[v], WholeCardLaw)
      <==> forall x :: 0 <= x < |row| ==> ApartOn(cluster, Moving.MovedClaim(ClaimsOf(w)[u], idx, row), ClaimsOf(w)[v], row[x].uuid, WholeCardLaw)
  {
    var c, e := ClaimsOf(w)[u], ClaimsOf(w)[v];
    var moved := Moving.MovedClaim(c, idx, row);
    KeptApart(cluster, ClaimsOf(w), u, v, WholeCardLaw);
    if forall x :: 0 <= x < |row| ==> ApartOn(cluster, moved, e, row[x].uuid, WholeCardLaw) {
      forall d ensures ApartOn(cluster, moved, e, d, WholeCardLaw) {
        if Names(row, d) {
          var x := NamedBy(row, d);
        } else {
          assert ApartOn(cluster, c, e, d, WholeCardLaw);
          ApartElsewhere(cluster, c, idx, row, mem, cores, e, d);
        }
      }
    }
  }

  lemma RefitWholeIff(cluster: Cluster, w: World, u: string, idx: nat, row: ContainerDevices, mem: nat, cores: nat, sel: Selection, prepared: Snapshot)
    requires Consistent(cluster, w) && CleanCluster(cluster) && Refittable(cluster, w, u, idx, row, mem, cores, sel, prepared)
    requires WholeCardsExclusive(cluster, ClaimsOf(w)) && u in ClaimsOf(w) && NVIDIA in ClaimsOf(w)[u].raw && idx < |ClaimsOf(w)[u].raw[NVIDIA]|
    ensures WholeCardsExclusive(cluster, (ClaimsOf(w) - {u})[u := Moving.MovedClaim(ClaimsOf(w)[u], idx, row)])
      <==> TargetsApart(cluster, w, u, Moving.MovedClaim(ClaimsOf(w)[u], idx, row), row, WholeCardLaw)
  {
    var moved, others := Moving.MovedClaim(ClaimsOf(w)[u], idx, row), ClaimsOf(w) - {u};
    DropKeeps(cluster, ClaimsOf(w), u, WholeCardLaw);
    JoinKeepsIff(cluster, others, u, moved, WholeCardLaw);
    forall v | v in others ensures Apart(cluster, moved, ClaimsOf(w)[v], WholeCardLaw)
      <==> (Stray(w, v) ==> forall x :: 0 <= x < |row| ==> ApartOn(cluster, moved, ClaimsOf(w)[v], row[x].uuid, WholeCardLaw))
    {
      RefitApartStrayIff(cluster, w, u, idx, row, mem, cores, v);
      if !Stray(w, v) { RefitApartCached(cluster, w, u, idx, row, mem, cores, sel, prepared, v); }
    }
    ApartOnTargets(cluster, w, u, moved, row, WholeCardLaw);
  }

  lemma ApartOnTargets(cluster: Cluster, w: World, u: string, moved: Claim, row: ContainerDevices, law: Law)
    requires forall v :: v in ClaimsOf(w) - {u} ==> (Apart(cluster, moved, ClaimsOf(w)[v], law)
      <==> (Stray(w, v) ==> forall x :: 0 <= x < |row| ==> ApartOn(cluster, moved, ClaimsOf(w)[v], row[x].uuid, law)))
    ensures (forall v :: v in ClaimsOf(w) - {u} ==> Apart(cluster, moved, ClaimsOf(w)[v], law)) <==> TargetsApart(cluster, w, u, moved, row, law)
  {
    forall v | v != u && Stray(w, v) ensures v in ClaimsOf(w) - {u} {}
    if forall v :: v in ClaimsOf(w) - {u} ==> Apart(cluster, moved, ClaimsOf(w)[v], law) {
      forall v, x | v != u && Stray(w, v) && 0 <= x < |row| ensures ApartOn(cluster, moved, ClaimsOf(w)[v], row[x].uuid, law) {
        assert Apart(cluster, moved, ClaimsOf(w)[v], law);
      }
    }
  }

  /** Nothing a refit changes concerns Ascend cards. */
  lemma RefitFull(cluster: Cluster, claims: ClaimMap, u: string, idx: nat, row: ContainerDevices)
    requires FullCoresExclusive(cluster, claims) && u in claims && NVIDIA in claims[u].raw && idx < |claims[u].raw[NVIDIA]|
    ensures FullCoresExclusive(cluster, (claims - {u})[u := Moving.MovedClaim(claims[u], idx, row)])
  {
    var moved := Moving.MovedClaim(claims[u], idx, row);
    assert NVIDIA != ASCEND;
    assert Rows(moved.raw, ASCEND) == Rows(claims[u].raw, ASCEND);
    ReplaceFull(cluster, claims, u, moved);
  }

  /** A refit keeps a law for the claims of all pods exactly when it leaves the pods outside
      the cache what they claim of the new devices. */
  lemma RefittedKeepsIff(cluster: Cluster, w: World, u: string, idx: nat, row: ContainerDevices, mem: nat, cores: nat, sel: Selection, prepared: Snapshot, law: Law)
    requires Consistent(cluster, w) && CleanCluster(cluster) && Keeps(cluster, ClaimsOf(w), law)
    requires Refittable(cluster, w, u, idx, row, mem, cores, sel, prepared)
    ensures u in ClaimsOf(w) && ClaimsOf(w)[u].node in cluster && NVIDIA in ClaimsOf(w)[u].raw && idx < |ClaimsOf(w)[u].raw[NVIDIA]|
    ensures Keeps(cluster, ClaimsOf(Refitted(w, u, idx, row)), law) <==> MoveLeavesRoom(cluster, w, u, idx, row, law)
  {
    assert ConsistentAt(cluster, w, u);
    RefittedClaims(cluster, w, u, idx, row, mem, cores, sel, prepared);
    MovedRowClean(cluster, w, u, idx, row, mem, cores, sel, prepared);
    match law
    case CapacityLaw => RefitCapacityIff(cluster, w, u, idx, row);
    case WholeCardLaw => RefitWholeIff(cluster, w, u, idx, row, mem, cores, sel, prepared);
    case FullCoreLaw => RefitFull(cluster, ClaimsOf(w), u, idx, row);
  }

  /** Without strays on the node a refit always leaves room. */
  lemma SettledRefit(cluster: Cluster, w: World, u: string, idx: nat, row: ContainerDevices, mem: nat, cores: nat, sel: Selection, prepared: Snapshot, law: Law)
    requires Consistent(cluster, w) && CleanCluster(cluster)
    requires Refittable(cluster, w, u, idx, row, mem, cores, sel, prepared) && NoStrays(w, w.cache[u].node, u)
    ensures u in ClaimsOf(w) && ClaimsOf(w)[u].node in cluster && NVIDIA in ClaimsOf(w)[u].raw && idx < |ClaimsOf(w)[u].raw[NVIDIA]|
    ensures MoveLeavesRoom(cluster, w, u, idx, row, law)
  {
    assert ConsistentAt(cluster, w, u);
    RefittedClaims(cluster, w, u, idx, row, mem, cores, sel, prepared);
    var moved := Moving.MovedClaim(ClaimsOf(w)[u], idx, row);
    if law.CapacityLaw? {
      forall x, r | 0 <= x < |row| && row[x].uuid in cluster[moved.node]
        ensures RoomForMoveOn(cluster[moved.node][row[x].uuid], w, u, moved, row[x].uuid, r)
      {
        SettledTarget(cluster, w, u, idx, row, mem, cores, sel, prepared, x, r);
      }
    } else if law.WholeCardLaw? {
      forall v, x | v != u && Stray(w, v) && 0 <= x < |row| ensures ApartOn(cluster, moved, ClaimsOf(w)[v], row[x].uuid, law) {}
    }
  }

  lemma SettledTarget(cluster: Cluster, w: World, u: string, idx: nat, row: ContainerDevices, mem: nat, cores: nat, sel: Selection, prepared: Snapshot, x: nat, r: Res)
    requires Consistent(cluster, w) && CleanCluster(cluster) && Refittable(cluster, w, u, idx, row, mem, cores, sel, prepared)
    requires NoStrays(w, w.cache[u].node, u) && x < |row| && u in ClaimsOf(w) && ClaimsOf(w)[u] == ClaimOf(w.api[u], w.cache[u].released)
    requires w.api[u].node == Some(w.cache[u].node) && NVIDIA in RawOf(w.api[u]) && idx < |RawOf(w.api[u])[NVIDIA]|
    ensures row[x].uuid in cluster[w.cache[u].node]
    ensures RoomForMoveOn(cluster[w.cache[u].node][row[x].uuid], w, u, Moving.MovedClaim(ClaimsOf(w)[u], idx, row), row[x].uuid, r)
  {
    var others, d := CachedClaims(Without(w, u)), row[x].uuid;
    CachedSeen(cluster, w, u);
    RefitAccepted(cluster, w, u, others, idx, row, mem, cores, sel, prepared);
    assert Names(row, d);
    Moving.MoveOnTarget(cluster, others, ClaimsOf(w)[u], idx, row, mem, cores, sel, prepared, d, r);
    NothingStray(w, u, w.cache[u].node, NVIDIA, d, r);
    assert Moving.AcceptedOn(cluster, others, ClaimsOf(w)[u], idx, row[x].uuid, |row|, mem, cores, sel, prepared);
  }
}
