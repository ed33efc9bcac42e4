/** What a pod is charged in all, over every device it names. */
module Totals {
  import opened Usages
  import opened Devices
  import opened Collapse
  import opened Lifecycle
  import opened Quotas

  ghost function UseOf(row: ContainerDevices, r: Res): DeviceId -> nat {
    d => RowUse(row, d, r)
  }

  ghost function CollapsedOf(pod: Pod, rows: PodSingleDevice, r: Res): DeviceId -> nat {
    d => Collapsed(pod, rows, d).Of(r)
  }

  ghost predicate Covers(ids: set<DeviceId>, row: ContainerDevices) {
    forall i :: 0 <= i < |row| ==> row[i].uuid in ids
  }

  lemma {:induction false} SumSetZero(s: set<DeviceId>, f: DeviceId -> nat)
    requires forall d :: d in s ==> f(d) == 0
    ensures SumSet(s, f) == 0
  {
    if s != {} {
      var k :| k in s;
      SumSetRemove(s, f, k);
      SumSetZero(s - {k}, f);
    }
  }

  lemma {:induction false} SumSetEqual(s: set<DeviceId>, f: DeviceId -> nat, g: DeviceId -> nat)
    requires forall d :: d in s ==> f(d) == g(d)
    ensures SumSet(s, f) == SumSet(s, g)
  {
    SumSetMono(s, s, f, g);
    SumSetMono(s, s, g, f);
  }

  /** The total of a row is the sum of its per-device uses. */
  lemma {:induction false} RowTotalBySet(ids: set<DeviceId>, row: ContainerDevices, r: Res)
    requires Covers(ids, row)
    ensures RowTotal(row, r) == SumSet(ids, UseOf(row, r))
  {
    if row == [] {
      SumSetZero(ids, UseOf(row, r));
    } else {
      var front, last := row[..|row| - 1], row[|row| - 1];
      RowTotalBySet(ids, front, r);
      SumSetRemove(ids, UseOf(row, r), last.uuid);
      SumSetRemove(ids, UseOf(front, r), last.uuid);
      SumSetEqual(ids - {last.uuid}, UseOf(row, r), UseOf(front, r));
    }
  }

  ghost predicate CoversRows(ids: set<DeviceId>, rows: PodSingleDevice) {
    forall i :: 0 <= i < |rows| ==> Covers(ids, rows[i])
  }

  /** The collapsed total is the sum of the collapsed uses over any set of devices
      that contains the named ones. */
  lemma CollapsedTotal(ids: set<DeviceId>, pod: Pod, t: string, rows: PodSingleDevice, r: Res)
    requires CoversRows(ids, rows)
    ensures RowTotal(CollapsedRow(pod, t, rows), r) == SumSet(ids, CollapsedOf(pod, rows, r))
  {
    var row := CollapsedRow(pod, t, rows);
    forall i | 0 <= i < |row| ensures row[i].uuid in ids {
      CollapsedRowUse(pod, t, rows, row[i].uuid, r);
      assert Names(row, row[i].uuid);
      var c :| 0 <= c < |rows| && Names(rows[c], row[i].uuid);
      assert Covers(ids, rows[c]);
    }
    RowTotalBySet(ids, row, r);
    forall d ensures UseOf(row, r)(d) == CollapsedOf(pod, rows, r)(d) { CollapsedRowUse(pod, t, rows, d, r); }
    SumSetEqual(ids, UseOf(row, r), CollapsedOf(pod, rows, r));
  }

  function AllIds(rows: PodSingleDevice): set<DeviceId> {
    set i, j | 0 <= i < |rows| && 0 <= j < |rows[i]| :: rows[i][j].uuid
  }

  /** Collapsed totals are ordered as the collapsed uses are. */
  lemma CollapsedTotalMono(pod: Pod, t: string, a: PodSingleDevice, b: PodSingleDevice, r: Res)
    requires forall d :: Collapsed(pod, a, d).Of(r) <= Collapsed(pod, b, d).Of(r)
    ensures RowTotal(CollapsedRow(pod, t, a), r) <= RowTotal(CollapsedRow(pod, t, b), r)
  {
    var ids := AllIds(a) + AllIds(b);
    assert CoversRows(ids, a) && CoversRows(ids, b);
    CollapsedTotal(ids, pod, t, a, r);
    CollapsedTotal(ids, pod, t, b, r);
    SumSetMono(ids, ids, CollapsedOf(pod, a, r), CollapsedOf(pod, b, r));
  }

  // ---------- Leaving grants out of the last row ----------

  /** `part` holds some of the grants of `row`, each at most once. */
  ghost predicate PartOf(part: ContainerDevices, row: ContainerDevices) {
    && Distinct(part) && Distinct(row)
    && (forall i :: 0 <= i < |part| ==> part[i] in row)
  }

  lemma PartUses(part: ContainerDevices, row: ContainerDevices, d: DeviceId, r: Res)
    requires PartOf(part, row)
    ensures RowUse(part, d, r) <= RowUse(row, d, r)
  {
    if Names(part, d) {
      var i :| 0 <= i < |part| && part[i].uuid == d;
      RowUseDistinct(part, r, i);
      var j :| 0 <= j < |row| && row[j] == part[i];
      RowUseBound(row, d, r, j);
    } else {
      RowUseUnnamed(part, d, r);
    }
  }

  lemma {:induction false} StateAppend(pod: Pod, rows: PodSingleDevice, row: ContainerDevices, n: nat, d: DeviceId)
    requires n <= |rows|
    ensures StateAt(pod, rows + [row], n, d) == StateAt(pod, rows, n, d)
  {
    if n > 0 { StateAppend(pod, rows, row, n - 1, d); }
  }

  lemma CollapsedAppend(pod: Pod, rows: PodSingleDevice, row: ContainerDevices, d: DeviceId)
    ensures Collapsed(pod, rows + [row], d) == Peak(AfterRow(pod.KindAt(|rows|), StateAt(pod, rows, |rows|, d), row, d))
  {
    StateAppend(pod, rows, row, |rows|, d);
  }

  lemma PeakOf(s: DevState, r: Res)
    ensures Peak(s).Of(r) == Max(s.peak.Of(r), s.sc.Of(r) + s.app.Of(r))
  {
  }

  /** The charge once a container of kind `k` using `use` follows totals `sc`, `peak` and `app`. */
  function PeakWith(k: Kind, sc: nat, peak: nat, app: nat, use: nat): nat {
    if k == OrdinaryInit then Max(Max(peak, sc + use), sc + app) else Max(peak, sc + app + use)
  }

  lemma AfterDistinctRow(k: Kind, s: DevState, row: ContainerDevices, d: DeviceId, r: Res)
    requires Distinct(row) && s.sc.Of(r) <= s.peak.Of(r)
    ensures Peak(AfterRow(k, s, row, d)).Of(r) == PeakWith(k, s.sc.Of(r), s.peak.Of(r), s.app.Of(r), RowUse(row, d, r))
  {
    PeakOf(AfterRow(k, s, row, d), r);
    AfterRowSums(k, s, row, d, r);
    if k == Sidecar { SidecarPeak(s, row, d, r); }
    if k == OrdinaryInit { InitPeak(s, row, d, r); }
  }

  lemma CollapsedWith(pod: Pod, rows: PodSingleDevice, row: ContainerDevices, d: DeviceId, r: Res) returns (sc: nat, peak: nat, app: nat)
    requires Distinct(row)
    ensures sc == StateAt(pod, rows, |rows|, d).sc.Of(r) && peak == StateAt(pod, rows, |rows|, d).peak.Of(r)
    ensures app == StateAt(pod, rows, |rows|, d).app.Of(r)
    ensures Collapsed(pod, rows + [row], d).Of(r) == PeakWith(pod.KindAt(|rows|), sc, peak, app, RowUse(row, d, r))
  {
    var s := StateAt(pod, rows, |rows|, d);
    sc, peak, app := s.sc.Of(r), s.peak.Of(r), s.app.Of(r);
    CollapsedAppend(pod, rows, row, d);
    StateParts(pod, rows, |rows|, d, r);
    AfterDistinctRow(pod.KindAt(|rows|), s, row, d, r);
  }

  /** Collapse is monotone: fewer grants in the last container charge no more. */
  lemma CollapsedPartLe(pod: Pod, rows: PodSingleDevice, part: ContainerDevices, row: ContainerDevices, d: DeviceId, r: Res)
    requires PartOf(part, row)
    ensures Collapsed(pod, rows + [part], d).Of(r) <= Collapsed(pod, rows + [row], d).Of(r)
  {
    var sc, peak, app := CollapsedWith(pod, rows, part, d, r);
    var sc', peak', app' := CollapsedWith(pod, rows, row, d, r);
    PartUses(part, row, d, r);
  }

  lemma PartTotalLe(pod: Pod, t: string, rows: PodSingleDevice, part: ContainerDevices, row: ContainerDevices, r: Res)
    requires PartOf(part, row)
    ensures RowTotal(CollapsedRow(pod, t, rows + [part]), r) <= RowTotal(CollapsedRow(pod, t, rows + [row]), r)
  {
    forall d ensures Collapsed(pod, rows + [part], d).Of(r) <= Collapsed(pod, rows + [row], d).Of(r) {
      CollapsedPartLe(pod, rows, part, row, d, r);
    }
    CollapsedTotalMono(pod, t, rows + [part], rows + [row], r);
  }
}
