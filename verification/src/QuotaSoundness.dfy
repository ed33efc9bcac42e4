/** A reservation that passed the quota checks made along the way leaves its namespace
    within its limits. */
module QuotaSoundness {
  import opened Usages
  import opened Devices
  import opened Collapse
  import opened Quotas
  import opened Totals
  import opened Placement
  import opened Scoring
  import opened Ledgers
  import Nvidia

  /** No other type charges the resources of the NVIDIA type. */
  predicate DistinctNames(reg: Registry) {
    && NVIDIA in reg && reg[NVIDIA].memory != "" && reg[NVIDIA].core != "" && reg[NVIDIA].memory != reg[NVIDIA].core
    && (forall t :: t in reg && t != NVIDIA ==> !ChargesTo(reg[t], reg[NVIDIA].memory) && !ChargesTo(reg[t], reg[NVIDIA].core))
  }

  predicate ChargesTo(names: ResourceNames, res: string) {
    names.memory == res || names.core == res
  }

  lemma {:induction false} NoCharge(names: ResourceNames, rows: PodSingleDevice, res: string)
    requires !ChargesTo(names, res)
    ensures RowsCount(names, rows, res) == 0
  {
    if rows != [] { NoCharge(names, rows[..|rows| - 1], res); }
  }

  lemma {:induction false} OneTypeCounts(reg: Registry, pd: PodDevices, types: set<string>, res: string)
    requires forall t :: t in types && t in reg && t != NVIDIA ==> !ChargesTo(reg[t], res)
    ensures SumSet(types, TypeCount(reg, pd, res)) == if NVIDIA in types then TypeCount(reg, pd, res)(NVIDIA) else 0
  {
    if types != {} {
      var t :| t in types;
      SumSetRemove(types, TypeCount(reg, pd, res), t);
      OneTypeCounts(reg, pd, types - {t}, res);
      if t != NVIDIA && t in reg { NoCharge(reg[t], Rows(pd, t), res); }
    }
  }

  /** The resource of a counter. */
  function Name(names: ResourceNames, r: Res): string
    requires r != Slots
  {
    if r == Mem then names.memory else names.core
  }

  /** What a pod with one charged NVIDIA row charges to the NVIDIA resources. */
  lemma NvidiaCount(reg: Registry, pd: PodDevices, row: ContainerDevices, r: Res)
    requires DistinctNames(reg) && Rows(pd, NVIDIA) == [row] && r != Slots
    ensures PodCount(reg, pd, Name(reg[NVIDIA], r)) == RowTotal(row, r)
  {
    var res := Name(reg[NVIDIA], r);
    OneTypeCounts(reg, pd, reg.Keys, res);
    assert [row][..0] == [];
    assert RowsCount(reg[NVIDIA], [row], res) == RowsCount(reg[NVIDIA], [], res) + RowCount(reg[NVIDIA], row, res);
  }

  /** Charging devices that fit the quota leaves the namespace within its limits. */
  lemma ChargeWithinQuota(reg: Registry, before: Ledger, after: Ledger, ns: string, pd: PodDevices, row: ContainerDevices)
    requires DistinctNames(reg) && Rows(pd, NVIDIA) == [row]
    requires Fits(reg, before, ns, RowTotal(row, Mem), reg[NVIDIA].factor, RowTotal(row, Cores), NVIDIA)
    requires Gained(reg, before, after, ns, pd) && SameLimits(before, after)
    ensures WithinQuota(reg, after, ns)
  {
    NvidiaCount(reg, pd, row, Mem);
    NvidiaCount(reg, pd, row, Cores);
    forall res ensures UsedOf(after, ns, res) == UsedOf(before, ns, res) + PodCount(reg, pd, res)
      && QuotaOf(after, ns, res).limit == QuotaOf(before, ns, res).limit
      && QuotaOf(after, ns, res).limitSet == QuotaOf(before, ns, res).limitSet {}
  }

  // ---------- Padding charges nothing ----------

  lemma {:induction false} EmptyStates(pod: Pod, rows: PodSingleDevice, m: nat, n: nat, d: DeviceId)
    requires m <= n <= |rows| && forall i :: m <= i < n ==> rows[i] == []
    ensures StateAt(pod, rows, n, d) == StateAt(pod, rows, m, d)
    decreases n
  {
    if n > m { EmptyStates(pod, rows, m, n - 1, d); }
  }

  lemma {:induction false} StatePrefix(pod: Pod, rows: PodSingleDevice, m: nat, n: nat, d: DeviceId)
    requires n <= m <= |rows|
    ensures StateAt(pod, rows[..m], n, d) == StateAt(pod, rows, n, d)
  {
    if n > 0 { StatePrefix(pod, rows, m, n - 1, d); }
  }

  /** Rows that only follow the containers with requests change no total. */
  lemma PaddingTotal(pod: Pod, rows: PodSingleDevice, m: nat, r: Res)
    requires m <= |rows| && forall i :: m <= i < |rows| ==> rows[i] == []
    ensures RowTotal(CollapsedRow(pod, NVIDIA, rows), r) == RowTotal(CollapsedRow(pod, NVIDIA, rows[..m]), r)
  {
    forall d ensures Collapsed(pod, rows, d).Of(r) == Collapsed(pod, rows[..m], d).Of(r) {
      EmptyStates(pod, rows, m, |rows|, d);
      StatePrefix(pod, rows, m, m, d);
    }
    CollapsedTotalMono(pod, NVIDIA, rows, rows[..m], r);
    CollapsedTotalMono(pod, NVIDIA, rows[..m], rows, r);
  }

  /** The last container with an NVIDIA request. */
  lemma {:induction false} LastRequest(pod: Pod, n: nat) returns (m: nat)
    requires n <= |pod.reqs| && exists i :: 0 <= i < n && NVIDIA in pod.reqs[i]
    ensures m < n && NVIDIA in pod.reqs[m] && forall i :: m < i < n ==> NVIDIA !in pod.reqs[i]
  {
    if NVIDIA in pod.reqs[n - 1] { m := n - 1; } else { m := LastRequest(pod, n - 1); }
  }

  /** The last container with a request, and nothing but padding after it. */
  lemma LastPlaced(start: Snapshot, sel: Selection, pod: Pod, raw: PodDevices) returns (m: nat)
    requires PlacedAll(start, sel, pod, raw) && Requests(pod, NVIDIA)
    ensures m < |Rows(raw, NVIDIA)| == |pod.reqs| && NVIDIA in pod.reqs[m]
    ensures forall i :: m + 1 <= i < |Rows(raw, NVIDIA)| ==> Rows(raw, NVIDIA)[i] == []
  {
    var rows: PodSingleDevice := Rows(raw, NVIDIA);
    assert Placed(start, sel, pod, NVIDIA, rows);
    m := LastRequest(pod, |pod.reqs|);
    forall i | m < i < |rows| ensures rows[i] == [] { assert StepOk(start, sel, pod, NVIDIA, rows[..i], rows[i]); }
  }

  /** The checks made for every container amount to a check of the whole placement. */
  lemma WholePlacementChecked(start: Snapshot, sel: Selection, reg: Registry, ledger: Ledger, pod: Pod, raw: PodDevices)
    requires PlacedAll(start, sel, pod, raw) && Requests(pod, NVIDIA) && QuotaPassed(reg, ledger, pod, Rows(raw, NVIDIA))
    ensures Nvidia.QuotaOk(reg, ledger, pod, Rows(raw, NVIDIA))
  {
    var m := LastPlaced(start, sel, pod, raw);
    assert Nvidia.QuotaOk(reg, ledger, pod, Rows(raw, NVIDIA)[..m + 1]);
    PaddingTotal(pod, Rows(raw, NVIDIA), m + 1, Mem);
    PaddingTotal(pod, Rows(raw, NVIDIA), m + 1, Cores);
  }

  /** A namespace is within its NVIDIA limits. */
  predicate WithinQuota(reg: Registry, ledger: Ledger, ns: string)
    requires NVIDIA in reg
  {
    var mem, core := QuotaOf(ledger, ns, reg[NVIDIA].memory), QuotaOf(ledger, ns, reg[NVIDIA].core);
    (mem.limitSet ==> mem.used <= mem.limit * Max(reg[NVIDIA].factor, 1)) && (core.limitSet ==> core.used <= core.limit)
  }

  /** Quota soundness: charging a placement that passed its checks leaves the namespace
      within its limits. */
  lemma ReservationWithinQuota(start: Snapshot, sel: Selection, reg: Registry, before: Ledger, after: Ledger, pod: Pod, raw: PodDevices)
    requires DistinctNames(reg) && PlacedAll(start, sel, pod, raw) && Requests(pod, NVIDIA)
    requires QuotaPassed(reg, before, pod, Rows(raw, NVIDIA))
    requires Gained(reg, before, after, pod.ns, CollapsedDevices(pod, raw)) && SameLimits(before, after)
    ensures WithinQuota(reg, after, pod.ns)
  {
    WholePlacementChecked(start, sel, reg, before, pod, raw);
    ChargeWithinQuota(reg, before, after, pod.ns, CollapsedDevices(pod, raw), CollapsedRow(pod, NVIDIA, raw[NVIDIA]));
  }
}
