/** The usage that placing containers one by one leaves on a node is the usage that the
    closed form charges for the rows it produced. */
module Agreement {
  import opened Usages
  import opened Devices
  import opened Collapse
  import opened Lifecycle
  import opened Placement
  import opened Fitting
  import opened Snapshots
  import Simulation

  /** Placed rows name a device at most once. */
  lemma PlacedDistinct(start: Snapshot, sel: Selection, pod: Pod, raw: PodDevices, t: string)
    requires PlacedAll(start, sel, pod, raw)
    ensures InitRowsDistinct(pod, Rows(raw, t))
  {
    var rows := Rows(raw, t);
    if t in raw && Requests(pod, t) {
      forall i | 0 <= i < |rows| ensures Distinct(rows[i]) { assert StepOk(start, sel, pod, t, rows[..i], rows[i]); }
    }
  }

  lemma ReservedUse(start: Snapshot, pod: Pod, raw: PodDevices, d: DeviceId, r: Res)
    requires d in start
    ensures Simulation.Reserved(start, pod, raw)[d].use.Of(r) ==
      start[d].use.Of(r) + Effective(pod, Rows(raw, start[d].info.vendor), false, d, r)
  {
  }

  lemma CollapsedCharge(pod: Pod, t: string, rows: PodSingleDevice, d: DeviceId, r: Res)
    requires InitRowsDistinct(pod, rows)
    ensures RowUse(CollapsedRow(pod, t, rows), d, r) == Effective(pod, rows, false, d, r)
  {
    CollapsedRowUse(pod, t, rows, d, r);
    CollapsedIsEffective(pod, rows, d, r);
  }

  /** The incremental simulation refines the closed form: after a placement, every device
      has its starting usage plus what the collapsed rows charge on it, counter by counter. */
  lemma SimulationRefinesCollapse(start: Snapshot, sel: Selection, pod: Pod, raw: PodDevices, d: DeviceId, r: Res)
    requires WellKeyed(start) && PlacedAll(start, sel, pod, raw) && d in start
    ensures Simulation.Reserved(start, pod, raw)[d].use.Of(r) ==
      start[d].use.Of(r) + RowUse(CollapsedRow(pod, start[d].info.vendor, Rows(raw, start[d].info.vendor)), d, r)
  {
    var t := start[d].info.vendor;
    PlacedDistinct(start, sel, pod, raw, t);
    CollapsedCharge(pod, t, Rows(raw, t), d, r);
    ReservedUse(start, pod, raw, d, r);
  }

  /** Read from the collapsed devices as a whole, whatever type lists them. */
  lemma SimulationRefinesCharge(start: Snapshot, sel: Selection, pod: Pod, raw: PodDevices, d: DeviceId, r: Res)
    requires WellKeyed(start) && PlacedAll(start, sel, pod, raw) && Typed(start, raw) && d in start
    ensures Simulation.Reserved(start, pod, raw)[d].use.Of(r) == start[d].use.Of(r) + PodUse(CollapsedDevices(pod, raw), d, r)
  {
    var t, pd, f := start[d].info.vendor, CollapsedDevices(pod, raw), TypeUse(d, r);
    SimulationRefinesCollapse(start, sel, pod, raw, d, r);
    forall u | u in pd && u != t ensures f(u, pd[u]) == 0 {
      PlacedDistinct(start, sel, pod, raw, u);
      ForeignCollapsed(start, pod, raw, u, d, r);
    }
    SumMapZero(pd - {t}, f);
    if t in pd {
      SumMapRemove(pd, f, t);
      OneRowUse(CollapsedRow(pod, t, raw[t]), d, r);
    } else {
      assert pd - {t} == pd;
      CollapsedRowUse(pod, t, [], d, r);
      RowUseUnnamed(CollapsedRow(pod, t, []), d, r);
    }
  }

  lemma OneRowUse(row: ContainerDevices, d: DeviceId, r: Res)
    ensures RowsUse([row], d, r) == RowUse(row, d, r)
  {
    assert [row][..0] == [];
    assert RowsUse([row], d, r) == RowsUse([], d, r) + RowUse(row, d, r);
  }

  lemma ForeignCollapsed(start: Snapshot, pod: Pod, raw: PodDevices, u: string, d: DeviceId, r: Res)
    requires Typed(start, raw) && u in raw && InitRowsDistinct(pod, raw[u]) && d in start && start[d].info.vendor != u
    ensures RowsUse([CollapsedRow(pod, u, raw[u])], d, r) == 0
  {
    var rows := raw[u];
    OneRowUse(CollapsedRow(pod, u, rows), d, r);
    CollapsedRowUse(pod, u, rows, d, r);
    forall i | 0 <= i < |rows| ensures !Names(rows[i], d) { assert RowTyped(start, u, rows[i]); }
    RowUseUnnamed(CollapsedRow(pod, u, rows), d, r);
  }
}
