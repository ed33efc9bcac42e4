/** Writing a placement to the annotations of its pod: what is read back charges the
    same devices the same amounts. */
module Assigning {
  import opened Usages
  import opened Devices
  import opened Collapse
  import opened Lifecycle
  import opened Codec
  import opened Accounting
  import opened Placement
  import opened Fitting
  import opened Pods
  import opened Reach
  import opened Snapshots
  import opened Claims
  import opened Reserving
  import opened Worlds

  /** Device identifiers are free of the codec's separators and key their devices. */
  predicate CleanCluster(cluster: Cluster) {
    forall n, d :: n in cluster && d in cluster[n] ==> CleanName(d) && cluster[n][d].id == d
  }

  /** The annotations of a placement, one per backend. */
  function Written(raw: PodDevices): map<string, string> {
    map t | t in raw && IsBackend(t) && raw[t] != [] :: EncodeRows(raw[t])
  }

  function Assigned(o: ApiPod, node: string, raw: PodDevices): ApiPod {
    o.(node := Some(node), annos := o.annos + Written(raw))
  }

  /** A placement whose names the codec can carry. */
  ghost predicate CleanPlacement(snap: Snapshot, sel: Selection, pod: Pod, raw: PodDevices) {
    PlacedAll(snap, sel, pod, raw) && Typed(snap, raw) && forall d :: d in snap ==> CleanName(d)
  }

  lemma BackendsClean()
    ensures CleanName(NVIDIA) && CleanName(ASCEND)
  {
  }

  /** Every row of a placement is clean, distinct and leaves the slot count unset. */
  lemma PlacedRow(snap: Snapshot, sel: Selection, pod: Pod, raw: PodDevices, t: string, i: nat)
    requires CleanPlacement(snap, sel, pod, raw) && t in raw && i < |raw[t]|
    ensures CleanRow(raw[t][i]) && Distinct(raw[t][i]) && NormRow(raw[t][i]) == raw[t][i]
  {
    var row := raw[t][i];
    if Requests(pod, t) {
      BackendsClean();
      assert StepOk(snap, sel, pod, t, raw[t][..i], raw[t][i]);
      assert RowTyped(snap, t, row);
      assert Placed(snap, sel, pod, t, raw[t]);
      if t in pod.reqs[i] {
        forall x | 0 <= x < |row| ensures CleanName(row[x].uuid) && CleanName(row[x].typ) && Norm(row[x]) == row[x] {
          assert Grants(sel, LiveDevs(snap, pod, raw[t][..i])[row[x].uuid], t, pod.reqs[i][t],
                        LiveUse(pod, raw[t][..i], i, row[x].uuid, Cores), pod.uid, row[x]);
        }
      }
    } else {
      assert row == [];
    }
  }

  lemma PlacedRows(snap: Snapshot, sel: Selection, pod: Pod, raw: PodDevices, t: string)
    requires CleanPlacement(snap, sel, pod, raw) && t in raw
    ensures CleanRows(raw[t]) && NormRows(raw[t]) == raw[t] && InitRowsDistinct(pod, raw[t])
    ensures DecodeRows(EncodeRows(raw[t])) == Ok(raw[t] + [[]])
  {
    forall i | 0 <= i < |raw[t]| ensures CleanRow(raw[t][i]) && Distinct(raw[t][i]) && NormRow(raw[t][i]) == raw[t][i] {
      PlacedRow(snap, sel, pod, raw, t, i);
    }
    RoundTrip(raw[t]);
  }

  lemma {:induction false} EmptyIds(pod: Pod, rows: PodSingleDevice, n: nat, live: bool)
    requires AllEmpty(rows) && n <= |rows|
    ensures Ids(pod, rows, n, live) == []
  {
    if n > 0 { EmptyIds(pod, rows, n - 1, live); }
  }

  lemma EmptyCharges(pod: Pod, t: string, rows: PodSingleDevice, released: bool)
    requires AllEmpty(rows)
    ensures EffectiveRow(pod, t, rows, released) == []
    ensures forall d, r :: Effective(pod, rows, released, d, r) == 0
  {
    EmptyIds(pod, rows, |rows|, true);
    EmptyIds(pod, rows, |rows|, false);
    forall d, r ensures Effective(pod, rows, released, d, r) == 0 {
      EmptyUnnamed(rows, d);
      EffectiveUnnamed(pod, rows, released, d, r);
    }
  }

  /** What comes back from the annotations: the placement with one more empty row per
      written type, and nothing but empty rows for types the pod does not request. */
  ghost predicate Recovered(pod: Pod, raw: PodDevices, back: PodDevices) {
    forall t :: RecoveredType(pod, raw, back, t)
  }

  ghost predicate RecoveredType(pod: Pod, raw: PodDevices, back: PodDevices, t: string) {
    if Requests(pod, t) then ReadBack(Rows(raw, t), Rows(back, t)) && Rows(back, t) == Rows(raw, t) + [[]]
    else AllEmpty(Rows(raw, t)) && AllEmpty(Rows(back, t))
  }

  lemma AssignedOk(o: ApiPod, node: string, snap: Snapshot, sel: Selection, raw: PodDevices)
    requires DecodeAnnos(o.annos).Ok? && CleanPlacement(snap, sel, o.pod, raw)
    ensures DecodeAnnos(Assigned(o, node, raw).annos).Ok?
  {
    var annos := Assigned(o, node, raw).annos;
    forall t | t in annos ensures DecodeRows(annos[t]).Ok? {
      if t in Written(raw) { PlacedRows(snap, sel, o.pod, raw, t); }
    }
  }

  lemma AssignedRows(o: ApiPod, node: string, snap: Snapshot, sel: Selection, raw: PodDevices, t: string)
    requires DecodeAnnos(o.annos).Ok? && CleanPlacement(snap, sel, o.pod, raw)
    ensures Rows(RawOf(Assigned(o, node, raw)), t) == if t in Written(raw) then raw[t] + [[]] else Rows(RawOf(o), t)
  {
    AssignedOk(o, node, snap, sel, raw);
    if t in Written(raw) { PlacedRows(snap, sel, o.pod, raw, t); }
  }

  /** The rows of a requested type are written down. */
  lemma PlacedWritten(snap: Snapshot, sel: Selection, pod: Pod, raw: PodDevices, t: string)
    requires CleanPlacement(snap, sel, pod, raw) && Requests(pod, t)
    ensures t in Written(raw) && ReadBack(raw[t], raw[t] + [[]])
  {
    assert Placed(snap, sel, pod, t, raw[t]);
    PlacedRows(snap, sel, pod, raw, t);
  }

  lemma AssignedRecovers(cluster: Cluster, o: ApiPod, node: string, snap: Snapshot, sel: Selection, raw: PodDevices, t: string)
    requires ApiOk(cluster, o.pod.uid, o) && CleanPlacement(snap, sel, o.pod, raw)
    ensures RecoveredType(o.pod, raw, RawOf(Assigned(o, node, raw)), t)
  {
    AssignedRows(o, node, snap, sel, raw, t);
    if Requests(o.pod, t) { PlacedWritten(snap, sel, o.pod, raw, t); } else { LeftoversEmpty(cluster, o, snap, sel, raw, t); }
  }

  /** Neither the placement nor an older annotation has rows for a type that is not requested. */
  lemma LeftoversEmpty(cluster: Cluster, o: ApiPod, snap: Snapshot, sel: Selection, raw: PodDevices, t: string)
    requires ApiOk(cluster, o.pod.uid, o) && PlacedAll(snap, sel, o.pod, raw) && !Requests(o.pod, t)
    ensures AllEmpty(Rows(raw, t)) && AllEmpty(Rows(raw, t) + [[]]) && AllEmpty(Rows(RawOf(o), t))
  {
  }

  // ---------- The reservation ----------

  /** The world once Filter has reserved `raw` for pod `u` and written it down. The cache
      keeps the object the request carried, from before the annotation was written. */
  function Reserved(w: World, u: string, node: string, raw: PodDevices): World
    requires u in w.api
  {
    w.(cache := (w.cache - {u})[u := PodInfo(w.api[u], node, CollapsedDevices(w.api[u].pod, raw), false)],
       api := w.api[u := Assigned(w.api[u], node, raw)])
  }

  /** The placement was found on a snapshot of the cache without the pod itself. */
  ghost predicate Reservable(cluster: Cluster, w: World, u: string, node: string, snap: Snapshot, sel: Selection, raw: PodDevices) {
    && u in w.api && u !in w.gone && node in cluster
    && WellKeyed(snap) && Shows(snap, cluster[node], w.cache - {u}, node)
    && PlacedAll(snap, sel, w.api[u].pod, raw) && Typed(snap, raw)
  }

  lemma RecoveredCharge(pod: Pod, raw: PodDevices, back: PodDevices, t: string, released: bool)
    requires RecoveredType(pod, raw, back, t)
    ensures EffectiveRow(pod, t, Rows(back, t), released) == EffectiveRow(pod, t, Rows(raw, t), released)
    ensures forall d, r :: Effective(pod, Rows(back, t), released, d, r) == Effective(pod, Rows(raw, t), released, d, r)
  {
    if Requests(pod, t) {
      ReadBackCharges(pod, t, Rows(raw, t), Rows(back, t));
      forall d, r ensures Effective(pod, Rows(back, t), released, d, r) == Effective(pod, Rows(raw, t), released, d, r) {
        ReadBackEffective(pod, Rows(raw, t), Rows(back, t), released, d, r);
      }
    } else {
      EmptyCharges(pod, t, Rows(raw, t), released);
      EmptyCharges(pod, t, Rows(back, t), released);
    }
  }

  lemma RecoveredLighter(pod: Pod, node: string, raw: PodDevices, back: PodDevices)
    requires Recovered(pod, raw, back)
    ensures LighterClaim(Claim(pod, node, back, false), Claim(pod, node, raw, false))
    ensures LighterClaim(Claim(pod, node, raw, false), Claim(pod, node, back, false))
  {
    forall t, d, r ensures Effective(pod, Rows(back, t), false, d, r) == Effective(pod, Rows(raw, t), false, d, r) {
      assert RecoveredType(pod, raw, back, t);
      RecoveredCharge(pod, raw, back, t, false);
    }
    forall d ensures HoldsWhole(Claim(pod, node, back, false), d) <==> HoldsWhole(Claim(pod, node, raw, false), d) {
      assert RecoveredType(pod, raw, back, NVIDIA);
      RecoveredWhole(pod, node, raw, back, d);
    }
  }

  lemma RecoveredWhole(pod: Pod, node: string, raw: PodDevices, back: PodDevices, d: DeviceId)
    requires RecoveredType(pod, raw, back, NVIDIA)
    ensures HoldsWhole(Claim(pod, node, back, false), d) <==> HoldsWhole(Claim(pod, node, raw, false), d)
  {
    var rows, placed := Rows(back, NVIDIA), Rows(raw, NVIDIA);
    if i :| 0 <= i < |rows| && GrantsWhole(rows[i], d) { assert i < |placed| && GrantsWhole(placed[i], d); }
    if i :| 0 <= i < |placed| && GrantsWhole(placed[i], d) { assert i < |rows| && GrantsWhole(rows[i], d); }
  }

  lemma AssignedAnnotated(cluster: Cluster, w: World, u: string, node: string, snap: Snapshot, sel: Selection, raw: PodDevices)
    requires Consistent(cluster, w) && CleanCluster(cluster) && Reservable(cluster, w, u, node, snap, sel, raw)
    ensures Recovered(w.api[u].pod, raw, RawOf(Assigned(w.api[u], node, raw)))
    ensures Annotated(cluster, Assigned(w.api[u], node, raw))
  {
    var o := w.api[u];
    var o' := Assigned(o, node, raw);
    forall t ensures RecoveredType(o.pod, raw, RawOf(o'), t) { AssignedRecovers(cluster, o, node, snap, sel, raw, t); }
    AssignedOk(o, node, snap, sel, raw);
    forall t ensures InitRowsDistinct(o.pod, Rows(RawOf(o'), t)) {
      AssignedDistinct(o, snap, sel, raw, RawOf(o'), t);
    }
    forall t, i | t in RawOf(o') && 0 <= i < |RawOf(o')[t]| ensures RowTypedIn(cluster[node], t, RawOf(o')[t][i]) {
      AssignedTyped(cluster, o, node, snap, raw, RawOf(o'), t, i);
    }
    forall t | t in RawOf(o') && !Requests(o.pod, t) ensures AllEmpty(RawOf(o')[t]) {
      assert RecoveredType(o.pod, raw, RawOf(o'), t);
    }
  }

  lemma AssignedDistinct(o: ApiPod, snap: Snapshot, sel: Selection, raw: PodDevices, back: PodDevices, t: string)
    requires CleanPlacement(snap, sel, o.pod, raw) && RecoveredType(o.pod, raw, back, t)
    ensures InitRowsDistinct(o.pod, Rows(back, t))
  {
    if Requests(o.pod, t) { PlacedRows(snap, sel, o.pod, raw, t); }
  }

  lemma AssignedTyped(cluster: Cluster, o: ApiPod, node: string, snap: Snapshot, raw: PodDevices, back: PodDevices, t: string, i: nat)
    requires RecoveredType(o.pod, raw, back, t) && i < |Rows(back, t)| && node in cluster && Typed(snap, raw)
    requires snap.Keys == cluster[node].Keys && forall d :: d in snap ==> snap[d].info == cluster[node][d]
    ensures RowTypedIn(cluster[node], t, Rows(back, t)[i])
  {
    if Requests(o.pod, t) && i < |Rows(raw, t)| { assert RowTyped(snap, t, raw[t][i]); }
  }

  lemma AssignedMatches(cluster: Cluster, w: World, u: string, node: string, snap: Snapshot, sel: Selection, raw: PodDevices)
    requires Consistent(cluster, w) && CleanCluster(cluster) && Reservable(cluster, w, u, node, snap, sel, raw)
    ensures Matches(Reserved(w, u, node, raw).cache[u], Assigned(w.api[u], node, raw))
  {
    var o, o' := w.api[u], Assigned(w.api[u], node, raw);
    AssignedAnnotated(cluster, w, u, node, snap, sel, raw);
    var devices := CollapsedDevices(o.pod, raw);
    forall t ensures RowAt(devices, t, 0) == EffectiveRow(o.pod, t, Rows(RawOf(o'), t), false) {
      assert RecoveredType(o.pod, raw, RawOf(o'), t);
      RecoveredCharge(o.pod, raw, RawOf(o'), t, false);
      if t !in raw { EmptyCharges(o.pod, t, [], false); }
    }
  }

  lemma ReservedClaims(w: World, u: string, node: string, raw: PodDevices)
    requires u in w.api
    ensures SameBut(w, Reserved(w, u, node, raw), u)
    ensures ClaimsOf(Reserved(w, u, node, raw)) == (ClaimsOf(w) - {u})[u := ClaimOf(Assigned(w.api[u], node, raw), false)]
  {
    var w' := Reserved(w, u, node, raw);
    forall v | v != u ensures SameAt(w, w', v) {}
    ClaimsJoin(w, w', u);
  }

  lemma ReservedConsistent(cluster: Cluster, w: World, u: string, node: string, snap: Snapshot, sel: Selection, raw: PodDevices)
    requires Consistent(cluster, w) && CleanCluster(cluster) && Reservable(cluster, w, u, node, snap, sel, raw)
    ensures Consistent(cluster, Reserved(w, u, node, raw))
  {
    AssignedMatches(cluster, w, u, node, snap, sel, raw);
    AssignedAnnotated(cluster, w, u, node, snap, sel, raw);
    ReservedClaims(w, u, node, raw);
    ConsistentStep(cluster, w, Reserved(w, u, node, raw), u);
  }

  /** Claims that weigh the same. */
  ghost predicate Equivalent(a: Claim, b: Claim) {
    LighterClaim(a, b) && LighterClaim(b, a)
  }

  /** The claim read back weighs what the placement weighs. */
  lemma RecoveredEquivalent(cluster: Cluster, w: World, u: string, node: string, snap: Snapshot, sel: Selection, raw: PodDevices)
    requires Consistent(cluster, w) && CleanCluster(cluster) && Reservable(cluster, w, u, node, snap, sel, raw)
    ensures Equivalent(ClaimOf(Assigned(w.api[u], node, raw), false), Claim(w.api[u].pod, node, raw, false))
  {
    AssignedAnnotated(cluster, w, u, node, snap, sel, raw);
    RecoveredLighter(w.api[u].pod, node, raw, RawOf(Assigned(w.api[u], node, raw)));
  }
}
