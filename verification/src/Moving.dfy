/** Moving one container of a reserved pod to other devices. The candidate devices
    are preloaded so that the ordinary additive fit arrives at the phase-aware usage. */
module Moving {
  import opened Usages
  import opened Devices
  import opened Lifecycle
  import opened Placement
  import opened Reach
  import opened Claims
  import Nvidia

  /** What the moved container takes on a device: one slot, its memory and its cores. */
  function Grant(d: DeviceId, mem: nat, cores: nat): ContainerDevice {
    ContainerDevice(d, NVIDIA, mem, cores, 0)
  }

  function Taken(mem: nat, cores: nat, r: Res): nat {
    Usage(mem, cores, 1).Of(r)
  }

  /** What the pod is charged on `d` with the container moved there. */
  function WithMoved(pod: Pod, rows: PodSingleDevice, idx: nat, released: bool, mem: nat, cores: nat, d: DeviceId, r: Res): nat
    requires idx < |rows|
  {
    Effective(pod, rows[idx := [Grant(d, mem, cores)]], released, d, r)
  }

  /** What a candidate is preloaded with before the fit adds the container. */
  function Preload(pod: Pod, rows: PodSingleDevice, idx: nat, released: bool, mem: nat, cores: nat, d: DeviceId, r: Res): nat
    requires idx < |rows|
  {
    Max(WithMoved(pod, rows, idx, released, mem, cores, d, r) - Taken(mem, cores, r), 0)
  }

  lemma GrantUse(d: DeviceId, mem: nat, cores: nat, r: Res)
    ensures RowUse([Grant(d, mem, cores)], d, r) == Taken(mem, cores, r)
  {
    assert [Grant(d, mem, cores)][..0] == [];
    assert RowUse([Grant(d, mem, cores)], d, r) == RowUse([], d, r) + UseOn(Grant(d, mem, cores), d, r);
  }

  /** The preload is right: the fit's additive result never falls below the charge with
      the container on the candidate, and equals it unless the container is an ordinary
      init container whose usage was already released. */
  lemma PreloadIsRight(pod: Pod, rows: PodSingleDevice, idx: nat, released: bool, mem: nat, cores: nat, d: DeviceId, r: Res)
    requires idx < |rows|
    ensures Preload(pod, rows, idx, released, mem, cores, d, r) + Taken(mem, cores, r) >= WithMoved(pod, rows, idx, released, mem, cores, d, r)
    ensures !(released && pod.KindAt(idx) == OrdinaryInit) ==>
      Preload(pod, rows, idx, released, mem, cores, d, r) + Taken(mem, cores, r) == WithMoved(pod, rows, idx, released, mem, cores, d, r)
  {
    if !(released && pod.KindAt(idx) == OrdinaryInit) {
      var moved := rows[idx := [Grant(d, mem, cores)]];
      EffectiveCovers(pod, moved, released, idx, d, r);
      GrantUse(d, mem, cores, r);
    }
  }

  /** A released ordinary init container is not charged any more, so its preload can
      only be too high. */
  lemma {:induction false} ReleasedIgnores(pod: Pod, a: PodSingleDevice, b: PodSingleDevice, idx: nat, n: nat, d: DeviceId, r: Res)
    requires n <= |a| == |b| && idx < |a| && pod.KindAt(idx) == OrdinaryInit && forall i :: 0 <= i < |a| && i != idx ==> a[i] == b[i]
    ensures LiveUse(pod, a, n, d, r) == LiveUse(pod, b, n, d, r)
  {
    if n > 0 { ReleasedIgnores(pod, a, b, idx, n - 1, d, r); }
  }

  /** For a released ordinary init container the preload is exact just where the rest of
      the pod already uses what the container would take. */
  lemma ReleasedPreloadExactIff(pod: Pod, rows: PodSingleDevice, idx: nat, mem: nat, cores: nat, d: DeviceId, r: Res)
    requires idx < |rows| && pod.KindAt(idx) == OrdinaryInit
    ensures Preload(pod, rows, idx, true, mem, cores, d, r) + Taken(mem, cores, r) == WithMoved(pod, rows, idx, true, mem, cores, d, r)
      <==> Taken(mem, cores, r) <= Effective(pod, rows, true, d, r)
  {
    ReleasedIgnores(pod, rows[idx := [Grant(d, mem, cores)]], rows, idx, |rows|, d, r);
  }

  // ---------- The move ----------

  /** The new row names each device once and takes the same amounts on each. */
  ghost predicate UniformRow(row: ContainerDevices, mem: nat, cores: nat) {
    Distinct(row) && forall x :: 0 <= x < |row| ==> row[x] == Grant(row[x].uuid, mem, cores)
  }

  function MovedClaim(c: Claim, idx: nat, row: ContainerDevices): Claim
    requires NVIDIA in c.raw && idx < |c.raw[NVIDIA]|
  {
    c.(raw := c.raw[NVIDIA := c.raw[NVIDIA][idx := row]])
  }

  /** The device of a candidate with the other pods' usage and the preload on it. */
  ghost predicate Prepared(dev: DeviceUsage, info: DeviceInfo, others: ClaimMap, c: Claim, idx: nat, mem: nat, cores: nat)
    requires NVIDIA in c.raw && idx < |c.raw[NVIDIA]|
  {
    && dev.info == info
    && (forall r :: dev.use.Of(r) == TotalUse(others, c.node, NVIDIA, info.id, r)
          + Preload(c.pod, c.raw[NVIDIA], idx, c.released, mem, cores, info.id, r))
  }

  function MoveRequest(nums: Positive, mem: nat, cores: nat): Request {
    Request(nums, mem, 0, cores)
  }

  /** Every device of the new row passed the fit on its prepared usage. */
  ghost predicate Accepted(cluster: Cluster, others: ClaimMap, c: Claim, idx: nat, row: ContainerDevices, mem: nat, cores: nat,
                           sel: Selection, prepared: Snapshot) {
    && c.node in cluster && NVIDIA in c.raw && idx < |c.raw[NVIDIA]| && row != [] && UniformRow(row, mem, cores)
    && (forall x :: 0 <= x < |row| ==> AcceptedOn(cluster, others, c, idx, row[x].uuid, |row|, mem, cores, sel, prepared))
  }

  ghost predicate AcceptedOn(cluster: Cluster, others: ClaimMap, c: Claim, idx: nat, d: DeviceId, nums: nat, mem: nat, cores: nat,
                             sel: Selection, prepared: Snapshot)
    requires c.node in cluster && NVIDIA in c.raw && idx < |c.raw[NVIDIA]| && nums > 0
  {
    && d in cluster[c.node] && cluster[c.node][d].vendor == NVIDIA && cluster[c.node][d].id == d && d in prepared
    && Prepared(prepared[d], cluster[c.node][d], others, c, idx, mem, cores)
    && Nvidia.Admissible(sel, prepared[d], MoveRequest(nums, mem, cores))
  }

  lemma MovedRowUse(row: ContainerDevices, mem: nat, cores: nat, d: DeviceId, r: Res)
    requires UniformRow(row, mem, cores)
    ensures RowUse(row, d, r) == if Names(row, d) then Taken(mem, cores, r) else 0
  {
    if Names(row, d) {
      var x :| 0 <= x < |row| && row[x].uuid == d;
      RowUseDistinct(row, r, x);
    } else {
      RowUseUnnamed(row, d, r);
    }
  }

  /** On a device of the new row the pod is charged what the preload computed. */
  lemma ChargeOnTarget(c: Claim, idx: nat, row: ContainerDevices, mem: nat, cores: nat, d: DeviceId, r: Res)
    requires NVIDIA in c.raw && idx < |c.raw[NVIDIA]| && UniformRow(row, mem, cores) && Names(row, d)
    ensures ClaimUse(MovedClaim(c, idx, row), NVIDIA, d, r) == WithMoved(c.pod, c.raw[NVIDIA], idx, c.released, mem, cores, d, r)
  {
    var rows := c.raw[NVIDIA];
    MovedRowUse(row, mem, cores, d, r);
    GrantUse(d, mem, cores, r);
    EffectiveCongruent(c.pod, rows[idx := row], rows[idx := [Grant(d, mem, cores)]], c.released, d, r);
  }

  /** The claim without the moved container. */
  function Rest(c: Claim, idx: nat): Claim
    requires NVIDIA in c.raw && idx < |c.raw[NVIDIA]|
  {
    MovedClaim(c, idx, [])
  }

  lemma RestLighter(c: Claim, idx: nat, row: ContainerDevices)
    requires NVIDIA in c.raw && idx < |c.raw[NVIDIA]|
    ensures LighterClaim(Rest(c, idx), MovedClaim(c, idx, row))
  {
    var rest, moved := Rest(c, idx), MovedClaim(c, idx, row);
    forall t, d, r ensures ClaimUse(rest, t, d, r) <= ClaimUse(moved, t, d, r) {
      if t == NVIDIA {
        EffectiveMono(c.pod, rest.raw[NVIDIA], moved.raw[NVIDIA], c.released, d, r);
      } else {
        assert Rows(rest.raw, t) == Rows(moved.raw, t);
      }
    }
    forall d | HoldsWhole(rest, d) ensures HoldsWhole(moved, d) {
      var rows: PodSingleDevice := rest.raw[NVIDIA];
      var i :| 0 <= i < |rows| && (c.released ==> c.pod.KindAt(i) != OrdinaryInit) && GrantsWhole(rows[i], d);
      assert rows[i] == moved.raw[NVIDIA][i];
      HoldsAt(moved, i, d);
    }
  }

  /** On devices the new row does not name, the pod is charged for its other containers. */
  lemma ChargeElsewhere(c: Claim, idx: nat, row: ContainerDevices, d: DeviceId, r: Res)
    requires NVIDIA in c.raw && idx < |c.raw[NVIDIA]| && !Names(row, d)
    ensures ClaimUse(MovedClaim(c, idx, row), NVIDIA, d, r) == ClaimUse(Rest(c, idx), NVIDIA, d, r)
  {
    var rows := c.raw[NVIDIA];
    RowUseUnnamed(row, d, r);
    EffectiveCongruent(c.pod, rows[idx := row], rows[idx := []], c.released, d, r);
  }

  lemma MoveOnTarget(cluster: Cluster, others: ClaimMap, c: Claim, idx: nat, row: ContainerDevices, mem: nat, cores: nat,
                     sel: Selection, prepared: Snapshot, d: DeviceId, r: Res)
    requires Accepted(cluster, others, c, idx, row, mem, cores, sel, prepared) && Names(row, d)
    ensures d in cluster[c.node] && TotalUse(others, c.node, NVIDIA, d, r) + ClaimUse(MovedClaim(c, idx, row), NVIDIA, d, r) <= Capacity(cluster[c.node][d], r)
  {
    var x :| 0 <= x < |row| && row[x].uuid == d;
    assert AcceptedOn(cluster, others, c, idx, row[x].uuid, |row|, mem, cores, sel, prepared);
    ChargeOnTarget(c, idx, row, mem, cores, d, r);
    PreloadIsRight(c.pod, c.raw[NVIDIA], idx, c.released, mem, cores, d, r);
    assert prepared[d].use.Of(r) == TotalUse(others, c.node, NVIDIA, d, r) + Preload(c.pod, c.raw[NVIDIA], idx, c.released, mem, cores, d, r);
  }

  /** A card taken whole by the move had no other user. */
  lemma WholeTarget(cluster: Cluster, others: ClaimMap, c: Claim, idx: nat, row: ContainerDevices, mem: nat, cores: nat,
                    sel: Selection, prepared: Snapshot, d: DeviceId)
    requires Accepted(cluster, others, c, idx, row, mem, cores, sel, prepared) && Names(row, d) && cores == 100
    requires d in cluster[c.node] && cluster[c.node][d].totalcore == 100
    ensures TotalUse(others, c.node, NVIDIA, d, Slots) == 0
  {
    var x :| 0 <= x < |row| && row[x].uuid == d;
    assert AcceptedOn(cluster, others, c, idx, row[x].uuid, |row|, mem, cores, sel, prepared);
    assert prepared[d].use.Of(Slots) == TotalUse(others, c.node, NVIDIA, d, Slots)
      + Preload(c.pod, c.raw[NVIDIA], idx, c.released, mem, cores, d, Slots);
  }

  /** A target has cores that others do not use. */
  lemma TargetNotFull(cluster: Cluster, others: ClaimMap, c: Claim, idx: nat, row: ContainerDevices, mem: nat, cores: nat,
                      sel: Selection, prepared: Snapshot, d: DeviceId)
    requires Accepted(cluster, others, c, idx, row, mem, cores, sel, prepared) && Names(row, d)
    requires d in cluster[c.node] && cluster[c.node][d].totalcore == 100
    ensures TotalUse(others, c.node, NVIDIA, d, Cores) < 100
  {
    var x :| 0 <= x < |row| && row[x].uuid == d;
    assert AcceptedOn(cluster, others, c, idx, row[x].uuid, |row|, mem, cores, sel, prepared);
    assert prepared[d].use.Of(Cores) == TotalUse(others, c.node, NVIDIA, d, Cores)
      + Preload(c.pod, c.raw[NVIDIA], idx, c.released, mem, cores, d, Cores);
  }

  lemma WholeBefore(c: Claim, idx: nat, row: ContainerDevices, mem: nat, cores: nat, d: DeviceId)
    requires NVIDIA in c.raw && idx < |c.raw[NVIDIA]| && UniformRow(row, mem, cores) && HoldsWhole(MovedClaim(c, idx, row), d)
    ensures HoldsWhole(Rest(c, idx), d) || (Names(row, d) && cores == 100)
  {
    var rows: PodSingleDevice := Rows(MovedClaim(c, idx, row).raw, NVIDIA);
    var i :| 0 <= i < |rows| && (c.released ==> c.pod.KindAt(i) != OrdinaryInit) && GrantsWhole(rows[i], d);
    if i != idx {
      assert rows[i] == Rest(c, idx).raw[NVIDIA][i];
      HoldsAt(Rest(c, idx), i, d);
    }
  }

  lemma MoveWhole(cluster: Cluster, others: ClaimMap, c: Claim, idx: nat, row: ContainerDevices, mem: nat, cores: nat,
                  sel: Selection, prepared: Snapshot, v: string, d: DeviceId)
    requires Accepted(cluster, others, c, idx, row, mem, cores, sel, prepared) && v in others
    requires ApartOn(cluster, Rest(c, idx), others[v], d, WholeCardLaw)
    ensures ApartOn(cluster, MovedClaim(c, idx, row), others[v], d, WholeCardLaw)
  {
    var moved := MovedClaim(c, idx, row);
    if Exclusive(cluster, moved, others[v], d, WholeCardLaw) {
      if HoldsWhole(moved, d) {
        WholeBefore(c, idx, row, mem, cores, d);
        if !HoldsWhole(Rest(c, idx), d) {
          WholeTarget(cluster, others, c, idx, row, mem, cores, sel, prepared, d);
          TotalBound(others, v, NVIDIA, d, Slots);
        }
      }
      if HoldsWhole(others[v], d) { BesideWhole(cluster, others, c, idx, row, mem, cores, sel, prepared, v, d); }
    }
  }

  /** A card that another claim holds whole is not a target. */
  lemma BesideWhole(cluster: Cluster, others: ClaimMap, c: Claim, idx: nat, row: ContainerDevices, mem: nat, cores: nat,
                    sel: Selection, prepared: Snapshot, v: string, d: DeviceId)
    requires Accepted(cluster, others, c, idx, row, mem, cores, sel, prepared) && v in others && HoldsWhole(others[v], d)
    requires Exclusive(cluster, MovedClaim(c, idx, row), others[v], d, WholeCardLaw)
    ensures ClaimUse(MovedClaim(c, idx, row), NVIDIA, d, Slots) == ClaimUse(Rest(c, idx), NVIDIA, d, Slots)
  {
    WholeIsFull(others[v], d);
    TotalBound(others, v, NVIDIA, d, Cores);
    if Names(row, d) {
      TargetNotFull(cluster, others, c, idx, row, mem, cores, sel, prepared, d);
      assert false;
    }
    ChargeElsewhere(c, idx, row, d, Slots);
  }

  /** The moved claim is apart from a claim the fit saw exactly when its other containers are. */
  lemma MoveApartIff(cluster: Cluster, others: ClaimMap, c: Claim, idx: nat, row: ContainerDevices, mem: nat, cores: nat,
                     sel: Selection, prepared: Snapshot, v: string, law: Law)
    requires Accepted(cluster, others, c, idx, row, mem, cores, sel, prepared) && v in others
    ensures Apart(cluster, MovedClaim(c, idx, row), others[v], law) <==> Apart(cluster, Rest(c, idx), others[v], law)
  {
    var rest, moved, e := Rest(c, idx), MovedClaim(c, idx, row), others[v];
    if Apart(cluster, moved, e, law) {
      RestLighter(c, idx, row);
      LighterApart(cluster, rest, moved, e, law);
    }
    if Apart(cluster, rest, e, law) {
      forall d ensures ApartOn(cluster, moved, e, d, law) {
        assert ApartOn(cluster, rest, e, d, law);
        if law.WholeCardLaw? { MoveWhole(cluster, others, c, idx, row, mem, cores, sel, prepared, v, d); }
        assert NVIDIA != ASCEND && Rows(moved.raw, ASCEND) == Rows(rest.raw, ASCEND);
      }
    }
  }

  /** Beside the claims the fit saw, a device holds the moved claim exactly when it holds
      the claim without the container. */
  lemma MoveFitsIff(cluster: Cluster, others: ClaimMap, c: Claim, idx: nat, row: ContainerDevices, mem: nat, cores: nat,
                    sel: Selection, prepared: Snapshot, d: DeviceId, r: Res)
    requires Accepted(cluster, others, c, idx, row, mem, cores, sel, prepared) && d in cluster[c.node]
    ensures var t, cap, used := cluster[c.node][d].vendor, Capacity(cluster[c.node][d], r), TotalUse(others, c.node, cluster[c.node][d].vendor, d, r);
      used + ClaimUse(MovedClaim(c, idx, row), t, d, r) <= cap <==> used + ClaimUse(Rest(c, idx), t, d, r) <= cap
  {
    var rest, moved, t := Rest(c, idx), MovedClaim(c, idx, row), cluster[c.node][d].vendor;
    RestLighter(c, idx, row);
    assert ClaimUse(rest, t, d, r) <= ClaimUse(moved, t, d, r);
    if t == NVIDIA {
      if Names(row, d) {
        MoveOnTarget(cluster, others, c, idx, row, mem, cores, sel, prepared, d, r);
      } else {
        ChargeElsewhere(c, idx, row, d, r);
      }
    } else {
      assert Rows(moved.raw, t) == Rows(rest.raw, t);
    }
  }

  lemma MoveCapacityIff(cluster: Cluster, others: ClaimMap, u: string, c: Claim, idx: nat, row: ContainerDevices, mem: nat, cores: nat,
                        sel: Selection, prepared: Snapshot)
    requires u !in others && WithinCapacity(cluster, others) && Accepted(cluster, others, c, idx, row, mem, cores, sel, prepared)
    ensures WithinCapacity(cluster, others[u := MovedClaim(c, idx, row)]) <==> WithinCapacity(cluster, others[u := Rest(c, idx)])
  {
    var rest, moved := Rest(c, idx), MovedClaim(c, idx, row);
    assert others - {u} == others;
    forall n, d, r | n in cluster && d in cluster[n]
      ensures TotalUse(others[u := moved], n, cluster[n][d].vendor, d, r) <= Capacity(cluster[n][d], r)
        <==> TotalUse(others[u := rest], n, cluster[n][d].vendor, d, r) <= Capacity(cluster[n][d], r)
    {
      TotalSplit(others, u, moved, n, cluster[n][d].vendor, d, r);
      TotalSplit(others, u, rest, n, cluster[n][d].vendor, d, r);
      if n == c.node { MoveFitsIff(cluster, others, c, idx, row, mem, cores, sel, prepared, d, r); }
    }
  }

  /** A move that the fit accepted beside `others`, for any number of devices: a law holds
      afterwards exactly when it holds with the moved container left out. */
  lemma MoveKeepsIff(cluster: Cluster, others: ClaimMap, u: string, c: Claim, idx: nat, row: ContainerDevices, mem: nat, cores: nat,
                     sel: Selection, prepared: Snapshot, law: Law)
    requires u !in others && Keeps(cluster, others, law) && Accepted(cluster, others, c, idx, row, mem, cores, sel, prepared)
    ensures Keeps(cluster, others[u := MovedClaim(c, idx, row)], law) <==> Keeps(cluster, others[u := Rest(c, idx)], law)
  {
    if law.CapacityLaw? {
      MoveCapacityIff(cluster, others, u, c, idx, row, mem, cores, sel, prepared);
    } else {
      JoinKeepsIff(cluster, others, u, MovedClaim(c, idx, row), law);
      JoinKeepsIff(cluster, others, u, Rest(c, idx), law);
      forall v | v in others
        ensures Apart(cluster, MovedClaim(c, idx, row), others[v], law) <==> Apart(cluster, Rest(c, idx), others[v], law)
      {
        MoveApartIff(cluster, others, c, idx, row, mem, cores, sel, prepared, v, law);
      }
    }
  }

  /** In particular a law that held before the move holds after it. */
  lemma MoveKeeps(cluster: Cluster, claims: ClaimMap, u: string, idx: nat, row: ContainerDevices, mem: nat, cores: nat,
                  sel: Selection, prepared: Snapshot, law: Law)
    requires u in claims && Keeps(cluster, claims, law) && Accepted(cluster, claims - {u}, claims[u], idx, row, mem, cores, sel, prepared)
    ensures Keeps(cluster, claims[u := MovedClaim(claims[u], idx, row)], law)
  {
    var c, others := claims[u], claims - {u};
    DropKeeps(cluster, claims, u, law);
    assert c.raw[NVIDIA][idx := c.raw[NVIDIA][idx]] == c.raw[NVIDIA];
    assert MovedClaim(c, idx, c.raw[NVIDIA][idx]) == c;
    RestLighter(c, idx, c.raw[NVIDIA][idx]);
    ReplaceLighter(cluster, claims, u, Rest(c, idx), law);
    MoveKeepsIff(cluster, others, u, c, idx, row, mem, cores, sel, prepared, law);
    assert claims[u := MovedClaim(c, idx, row)] == others[u := MovedClaim(c, idx, row)];
  }

  lemma ReplaceLighter(cluster: Cluster, claims: ClaimMap, u: string, c: Claim, law: Law)
    requires u in claims && Keeps(cluster, claims, law) && LighterClaim(c, claims[u])
    ensures Keeps(cluster, (claims - {u})[u := c], law)
  {
    var b := (claims - {u})[u := c];
    forall v | v in b ensures v in claims && LighterClaim(b[v], claims[v]) {
      if v != u { LighterRefl(claims[v]); }
    }
    LighterKeeps(cluster, claims, b, law);
  }
}
