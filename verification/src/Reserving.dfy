/** A placement judged against the other claims on its node keeps the cluster safe. */
module Reserving {
  import opened Usages
  import opened Devices
  import opened Lifecycle
  import opened Placement
  import opened Reach
  import opened Claims
  import Ascend

  /** The snapshot shows the devices of a node with exactly what `others` use of them. */
  ghost predicate Reflects(snap: Snapshot, cluster: Cluster, others: ClaimMap, node: string) {
    && node in cluster && snap.Keys == cluster[node].Keys && WellKeyed(snap)
    && (forall d :: d in snap ==> snap[d].info == cluster[node][d])
    && (forall d, r :: d in snap ==> snap[d].use.Of(r) == TotalUse(others, node, snap[d].info.vendor, d, r))
    && (forall d, v :: d in snap && v in others ==> Listed(snap[d], node, others[v], v))
  }

  /** A claim with cores on the device is among its tenants. */
  ghost predicate Listed(dev: DeviceUsage, node: string, c: Claim, v: string) {
    var cores := ClaimUse(c, dev.info.vendor, dev.info.id, Cores);
    c.node == node && cores > 0 ==> Tenant(v, cores) in dev.tenants
  }

  // ---------- One step of a placement ----------

  /** The grant a container got on `d`, and the device it was judged against. */
  lemma StepGrant(snap: Snapshot, sel: Selection, pod: Pod, t: string, rows: PodSingleDevice, i: nat, d: DeviceId)
    returns (x: nat, dev: DeviceUsage, req: Request)
    requires WellKeyed(snap) && PlacedSoFar(snap, sel, pod, t, rows) && i < |rows| && Names(rows[i], d)
    ensures x < |rows[i]| && rows[i][x].uuid == d && d in snap && snap[d].info.vendor == t
    ensures dev.info == snap[d].info && dev.tenants == snap[d].tenants
    ensures forall r :: dev.use.Of(r) == snap[d].use.Of(r) + LiveUse(pod, rows, i, d, r)
    ensures Grants(sel, dev, t, req, LiveUse(pod, rows, i, d, Cores), pod.uid, rows[i][x])
    ensures forall r :: RowUse(rows[i], d, r) == rows[i][x].Use().Of(r)
  {
    x :| 0 <= x < |rows[i]| && rows[i][x].uuid == d;
    var before := rows[..i];
    assert StepOk(snap, sel, pod, t, before, rows[i]);
    req := pod.reqs[i][t];
    dev := WithLive(snap[d], pod, before);
    forall r ensures LiveUse(pod, before, i, d, r) == LiveUse(pod, rows, i, d, r) { LivePrefix(pod, rows, i, d, r); }
    forall r ensures RowUse(rows[i], d, r) == rows[i][x].Use().Of(r) { RowUseDistinct(rows[i], r, x); }
  }

  /** A container fits beside what runs when it starts. */
  lemma StepFits(snap: Snapshot, sel: Selection, pod: Pod, t: string, rows: PodSingleDevice, i: nat, d: DeviceId, r: Res)
    requires WellKeyed(snap) && PlacedSoFar(snap, sel, pod, t, rows) && i < |rows| && d in snap
    requires snap[d].use.Of(r) + LiveUse(pod, rows, i, d, r) <= Capacity(snap[d].info, r)
    ensures snap[d].use.Of(r) + StepUse(pod, rows, i, d, r) <= Capacity(snap[d].info, r)
  {
    if Names(rows[i], d) {
      var x, dev, req := StepGrant(snap, sel, pod, t, rows, i, d);
      assert dev.use.Of(r) == snap[d].use.Of(r) + LiveUse(pod, rows, i, d, r);
      assert RowUse(rows[i], d, r) == rows[i][x].Use().Of(r);
    } else {
      RowUseUnnamed(rows[i], d, r);
    }
  }

  /** If every container fits beside what runs when it starts, every stage fits. */
  lemma {:induction false} StagesBound(pod: Pod, rows: PodSingleDevice, n: nat, d: DeviceId, r: Res, room: nat)
    requires n <= |rows|
    requires forall i :: 0 <= i < n && LiveUse(pod, rows, i, d, r) <= room ==> StepUse(pod, rows, i, d, r) <= room
    ensures LiveUse(pod, rows, n, d, r) <= room && PeakUse(pod, rows, n, d, r) <= room
  {
    if n > 0 { StagesBound(pod, rows, n - 1, d, r, room); }
  }

  /** A placement keeps every device within its capacity at every stage of the pod. */
  lemma PlacementFits(snap: Snapshot, sel: Selection, pod: Pod, t: string, rows: PodSingleDevice, d: DeviceId, r: Res)
    requires WellKeyed(snap) && PlacedSoFar(snap, sel, pod, t, rows) && d in snap
    requires snap[d].use.Of(r) <= Capacity(snap[d].info, r)
    ensures snap[d].use.Of(r) + Effective(pod, rows, false, d, r) <= Capacity(snap[d].info, r)
  {
    var room := Capacity(snap[d].info, r) - snap[d].use.Of(r);
    forall i | 0 <= i < |rows| && LiveUse(pod, rows, i, d, r) <= room ensures StepUse(pod, rows, i, d, r) <= room {
      StepFits(snap, sel, pod, t, rows, i, d, r);
    }
    StagesBound(pod, rows, |rows|, d, r, room);
  }

  /** The rows of any type: placed, or empty throughout. */
  lemma AnyRows(snap: Snapshot, sel: Selection, pod: Pod, raw: PodDevices, t: string)
    requires PlacedAll(snap, sel, pod, raw)
    ensures PlacedSoFar(snap, sel, pod, t, Rows(raw, t)) || AllEmpty(Rows(raw, t))
  {
    if t in raw && Requests(pod, t) { assert Placed(snap, sel, pod, t, raw[t]); }
  }

  lemma EmptyUnnamed(rows: PodSingleDevice, d: DeviceId)
    requires AllEmpty(rows)
    ensures forall i :: 0 <= i < |rows| ==> !Names(rows[i], d)
  {
  }

  /** The new claim is charged no more than the room on the device. */
  lemma ClaimFits(snap: Snapshot, sel: Selection, c: Claim, t: string, d: DeviceId, r: Res)
    requires WellKeyed(snap) && PlacedAll(snap, sel, c.pod, c.raw) && !c.released && d in snap
    requires snap[d].use.Of(r) <= Capacity(snap[d].info, r)
    ensures snap[d].use.Of(r) + ClaimUse(c, t, d, r) <= Capacity(snap[d].info, r)
  {
    AnyRows(snap, sel, c.pod, c.raw, t);
    if AllEmpty(Rows(c.raw, t)) {
      EmptyUnnamed(Rows(c.raw, t), d);
      EffectiveUnnamed(c.pod, Rows(c.raw, t), false, d, r);
    } else {
      PlacementFits(snap, sel, c.pod, t, Rows(c.raw, t), d, r);
    }
  }

  // ---------- Exclusive cards ----------

  lemma WholeStepAlone(snap: Snapshot, sel: Selection, pod: Pod, rows: PodSingleDevice, i: nat, d: DeviceId)
    requires WellKeyed(snap) && PlacedSoFar(snap, sel, pod, NVIDIA, rows) && i < |rows| && d in snap
    requires GrantsWhole(rows[i], d) && snap[d].info.totalcore == 100
    ensures snap[d].use.slots == 0
  {
    var y :| 0 <= y < |rows[i]| && rows[i][y].uuid == d && rows[i][y].cores == 100;
    var x, dev, req := StepGrant(snap, sel, pod, NVIDIA, rows, i, d);
    assert StepOk(snap, sel, pod, NVIDIA, rows[..i], rows[i]);
    assert rows[i][x].uuid == rows[i][y].uuid;
    assert dev.use.Of(Slots) == snap[d].use.Of(Slots) + LiveUse(pod, rows, i, d, Slots);
  }

  /** All cores are granted only on a card nobody else uses. */
  lemma WholeGrantAlone(snap: Snapshot, sel: Selection, c: Claim, d: DeviceId)
    requires WellKeyed(snap) && PlacedAll(snap, sel, c.pod, c.raw) && HoldsWhole(c, d) && d in snap
    requires snap[d].info.totalcore == 100
    ensures snap[d].use.slots == 0
  {
    var rows: PodSingleDevice := Rows(c.raw, NVIDIA);
    AnyRows(snap, sel, c.pod, c.raw, NVIDIA);
    var i :| 0 <= i < |rows| && GrantsWhole(rows[i], d);
    if AllEmpty(rows) { assert false; }
    WholeStepAlone(snap, sel, c.pod, rows, i, d);
  }

  /** Nothing is placed on an NVIDIA card whose cores are all in use. */
  lemma FullCardUntouched(snap: Snapshot, sel: Selection, c: Claim, d: DeviceId, r: Res)
    requires WellKeyed(snap) && PlacedAll(snap, sel, c.pod, c.raw) && d in snap
    requires snap[d].info.totalcore == 100 && snap[d].use.cores >= 100
    ensures ClaimUse(c, NVIDIA, d, r) == 0
  {
    var rows: PodSingleDevice := Rows(c.raw, NVIDIA);
    AnyRows(snap, sel, c.pod, c.raw, NVIDIA);
    forall i | 0 <= i < |rows| ensures !Names(rows[i], d) {
      if Names(rows[i], d) {
        var x, dev, req := StepGrant(snap, sel, c.pod, NVIDIA, rows, i, d);
        assert false;
      }
    }
    EffectiveUnnamed(c.pod, rows, c.released, d, r);
  }

  lemma {:induction false} OthersPositive(tenants: seq<Tenant>, uid: string, x: nat)
    requires x < |tenants| && tenants[x].uid != uid && tenants[x].cores > 0
    ensures Ascend.OthersCores(tenants, uid) > 0
  {
    if x < |tenants| - 1 { OthersPositive(tenants[..|tenants| - 1], uid, x); }
  }

  /** Reaching the percentage base on an Ascend card takes a card without other cores. */
  lemma BaseReachedAlone(snap: Snapshot, sel: Selection, c: Claim, d: DeviceId)
    requires WellKeyed(snap) && PlacedAll(snap, sel, c.pod, c.raw) && !c.released && d in snap
    requires snap[d].info.totalcore >= 100 && ClaimUse(c, ASCEND, d, Cores) >= 100
    ensures Ascend.OthersCores(snap[d].tenants, c.pod.uid) == 0
  {
    var rows: PodSingleDevice := Rows(c.raw, ASCEND);
    AnyRows(snap, sel, c.pod, c.raw, ASCEND);
    var i := EffectiveReached(c.pod, rows, d, Cores);
    var x, dev, req := StepGrant(snap, sel, c.pod, ASCEND, rows, i, d);
    assert RowUse(rows[i], d, Cores) == rows[i][x].Use().Of(Cores);
  }

  /** Nothing is placed on an Ascend card that a single tenant fills. */
  lemma OccupiedUntouched(snap: Snapshot, sel: Selection, c: Claim, d: DeviceId, r: Res)
    requires WellKeyed(snap) && PlacedAll(snap, sel, c.pod, c.raw) && d in snap
    requires snap[d].use.cores >= 100 && Ascend.Occupied(snap[d])
    ensures ClaimUse(c, ASCEND, d, r) == 0
  {
    var rows: PodSingleDevice := Rows(c.raw, ASCEND);
    AnyRows(snap, sel, c.pod, c.raw, ASCEND);
    forall i | 0 <= i < |rows| ensures !Names(rows[i], d) {
      if Names(rows[i], d) {
        var x, dev, req := StepGrant(snap, sel, c.pod, ASCEND, rows, i, d);
        assert false;
      }
    }
    EffectiveUnnamed(c.pod, rows, c.released, d, r);
  }

  // ---------- The reservation ----------

  /** The claim `c` of pod `u` was placed beside the claims of all other pods. */
  ghost predicate PlacedBeside(cluster: Cluster, others: ClaimMap, u: string, c: Claim, snap: Snapshot, sel: Selection) {
    && u !in others && c.pod.uid == u && !c.released
    && Reflects(snap, cluster, others, c.node) && PlacedAll(snap, sel, c.pod, c.raw)
  }

  lemma ReserveCapacity(cluster: Cluster, others: ClaimMap, u: string, c: Claim, snap: Snapshot, sel: Selection)
    requires WithinCapacity(cluster, others) && PlacedBeside(cluster, others, u, c, snap, sel)
    ensures WithinCapacity(cluster, others[u := c])
  {
    forall n, d, r | n in cluster && d in cluster[n]
      ensures TotalUse(others[u := c], n, cluster[n][d].vendor, d, r) <= Capacity(cluster[n][d], r)
    {
      TotalSplit(others, u, c, n, cluster[n][d].vendor, d, r);
      assert others - {u} == others;
      if n == c.node { ClaimFits(snap, sel, c, cluster[n][d].vendor, d, r); }
    }
  }

  lemma NoSlotsNoEntry(others: ClaimMap, v: string, t: string, d: DeviceId)
    requires v in others && TotalUse(others, others[v].node, t, d, Slots) == 0
    ensures ClaimUse(others[v], t, d, Slots) == 0
  {
    TotalBound(others, v, t, d, Slots);
  }

  lemma ReserveWhole(cluster: Cluster, others: ClaimMap, u: string, c: Claim, snap: Snapshot, sel: Selection, v: string, d: DeviceId)
    requires PlacedBeside(cluster, others, u, c, snap, sel) && v in others
    ensures ApartOn(cluster, c, others[v], d, WholeCardLaw)
  {
    if Exclusive(cluster, c, others[v], d, WholeCardLaw) {
      assert forall r :: snap[d].use.Of(r) == TotalUse(others, c.node, NVIDIA, d, r);
      if HoldsWhole(c, d) {
        WholeGrantAlone(snap, sel, c, d);
        assert snap[d].use.Of(Slots) == TotalUse(others, c.node, NVIDIA, d, Slots);
        NoSlotsNoEntry(others, v, NVIDIA, d);
      }
      if HoldsWhole(others[v], d) {
        WholeIsFull(others[v], d);
        TotalBound(others, v, NVIDIA, d, Cores);
        assert snap[d].use.Of(Cores) == TotalUse(others, c.node, NVIDIA, d, Cores);
        FullCardUntouched(snap, sel, c, d, Slots);
      }
    }
  }

  lemma ReserveFull(cluster: Cluster, others: ClaimMap, u: string, c: Claim, snap: Snapshot, sel: Selection, v: string, d: DeviceId)
    requires PlacedBeside(cluster, others, u, c, snap, sel) && v in others
    ensures ApartOn(cluster, c, others[v], d, FullCoreLaw)
  {
    if Exclusive(cluster, c, others[v], d, FullCoreLaw) {
      if ClaimUse(c, ASCEND, d, Cores) >= 100 {
        BaseReachedAlone(snap, sel, c, d);
        TenantSeen(snap, cluster, others, c.node, v, u, d);
      }
      if ClaimUse(others[v], ASCEND, d, Cores) >= 100 {
        TotalBound(others, v, ASCEND, d, Cores);
        assert snap[d].use.Of(Cores) == TotalUse(others, c.node, ASCEND, d, Cores);
        assert Listed(snap[d], c.node, others[v], v);
        OccupiedUntouched(snap, sel, c, d, Cores);
      }
    }
  }

  /** No other cores on the card means that no other claim has cores there. */
  lemma TenantSeen(snap: Snapshot, cluster: Cluster, others: ClaimMap, node: string, v: string, uid: string, d: DeviceId)
    requires Reflects(snap, cluster, others, node) && d in snap && v in others && v != uid && others[v].node == node
    requires Ascend.OthersCores(snap[d].tenants, uid) == 0
    ensures ClaimUse(others[v], snap[d].info.vendor, d, Cores) == 0
  {
    var cores := ClaimUse(others[v], snap[d].info.vendor, d, Cores);
    if cores > 0 {
      assert Listed(snap[d], node, others[v], v);
      var x :| 0 <= x < |snap[d].tenants| && snap[d].tenants[x] == Tenant(v, cores);
      OthersPositive(snap[d].tenants, uid, x);
      assert false;
    }
  }

  /** A placement judged beside other claims is apart from each of them. */
  lemma ReserveApart(cluster: Cluster, others: ClaimMap, u: string, c: Claim, snap: Snapshot, sel: Selection, v: string, law: Law)
    requires PlacedBeside(cluster, others, u, c, snap, sel) && v in others
    ensures Apart(cluster, c, others[v], law)
  {
    forall d ensures ApartOn(cluster, c, others[v], d, law) {
      match law
      case CapacityLaw =>
      case WholeCardLaw => ReserveWhole(cluster, others, u, c, snap, sel, v, d);
      case FullCoreLaw => ReserveFull(cluster, others, u, c, snap, sel, v, d);
    }
  }

  /** Reserving a placement beside the claims of all other pods breaks no law. */
  lemma ReserveKeeps(cluster: Cluster, others: ClaimMap, u: string, c: Claim, snap: Snapshot, sel: Selection, law: Law)
    requires Keeps(cluster, others, law) && PlacedBeside(cluster, others, u, c, snap, sel)
    ensures Keeps(cluster, others[u := c], law)
  {
    if law.CapacityLaw? {
      ReserveCapacity(cluster, others, u, c, snap, sel);
    } else {
      forall v | v in others ensures Apart(cluster, c, others[v], law) { ReserveApart(cluster, others, u, c, snap, sel, v, law); }
      JoinKeepsIff(cluster, others, u, c, law);
    }
  }
}
