/** Accounting rebuilt from an annotation is the accounting that was written. */
module Accounting {
  import opened Usages
  import opened Devices
  import opened Collapse
  import opened Lifecycle
  import opened Codec
  import Reach
  import Placement

  lemma NormUse(e: ContainerDevice)
    ensures Norm(e).Use() == e.Use() && Norm(e).uuid == e.uuid
  {
  }

  lemma {:induction false} NormAfterRow(k: Kind, s: DevState, row: ContainerDevices, d: DeviceId)
    ensures AfterRow(k, s, NormRow(row), d) == AfterRow(k, s, row, d)
  {
    if row != [] {
      var front := row[..|row| - 1];
      NormAfterRow(k, s, front, d);
      assert NormRow(row)[..|row| - 1] == NormRow(front);
      NormUse(row[|row| - 1]);
    }
  }

  lemma {:induction false} NormAddRow(u: Usage, row: ContainerDevices, d: DeviceId)
    ensures AddRow(u, NormRow(row), d) == AddRow(u, row, d)
  {
    if row != [] {
      var front := row[..|row| - 1];
      NormAddRow(u, front, d);
      assert NormRow(row)[..|row| - 1] == NormRow(front);
      NormUse(row[|row| - 1]);
    }
  }

  lemma {:induction false} NormRowIds(ids: seq<DeviceId>, row: ContainerDevices)
    ensures RowIds(ids, NormRow(row)) == RowIds(ids, row)
  {
    if row != [] {
      var front := row[..|row| - 1];
      NormRowIds(ids, front);
      assert NormRow(row)[..|row| - 1] == NormRow(front);
    }
  }

  /** `b` is `a` as it comes back from the annotation. */
  ghost predicate ReadBack(a: PodSingleDevice, b: PodSingleDevice) {
    b == NormRows(a) + [[]]
  }

  lemma {:induction false} ReadBackStates(pod: Pod, a: PodSingleDevice, b: PodSingleDevice, n: nat, d: DeviceId)
    requires ReadBack(a, b) && n <= |a|
    ensures StateAt(pod, b, n, d) == StateAt(pod, a, n, d)
    ensures SteadyAt(pod, b, n, d) == SteadyAt(pod, a, n, d)
  {
    if n > 0 {
      ReadBackStates(pod, a, b, n - 1, d);
      NormAfterRow(pod.KindAt(n - 1), StateAt(pod, a, n - 1, d), a[n - 1], d);
      NormAddRow(SteadyAt(pod, a, n - 1, d), a[n - 1], d);
    }
  }

  lemma {:induction false} ReadBackIds(pod: Pod, a: PodSingleDevice, b: PodSingleDevice, n: nat, live: bool)
    requires ReadBack(a, b) && n <= |a|
    ensures Ids(pod, b, n, live) == Ids(pod, a, n, live)
  {
    if n > 0 {
      ReadBackIds(pod, a, b, n - 1, live);
      NormRowIds(Ids(pod, a, n - 1, live), a[n - 1]);
    }
  }

  lemma ReadBackEntry(pod: Pod, t: string, a: PodSingleDevice, b: PodSingleDevice, d: DeviceId)
    requires ReadBack(a, b)
    ensures CollapsedEntry(pod, t, b, d) == CollapsedEntry(pod, t, a, d)
    ensures SteadyEntry(pod, t, b, d) == SteadyEntry(pod, t, a, d)
  {
    ReadBackStates(pod, a, b, |a|, d);
    assert StateAt(pod, b, |a| + 1, d) == StateAt(pod, b, |a|, d);
    assert SteadyAt(pod, b, |a| + 1, d) == SteadyAt(pod, b, |a|, d);
  }

  /** Both ways of charging a pod agree on the rows written and the rows read back. */
  lemma ReadBackCharges(pod: Pod, t: string, a: PodSingleDevice, b: PodSingleDevice)
    requires ReadBack(a, b)
    ensures CollapsedRow(pod, t, b) == CollapsedRow(pod, t, a)
    ensures SteadyRow(pod, t, b) == SteadyRow(pod, t, a)
  {
    ReadBackIds(pod, a, b, |a|, false);
    ReadBackIds(pod, a, b, |a|, true);
    assert Ids(pod, b, |a| + 1, false) == Ids(pod, b, |a|, false);
    assert Ids(pod, b, |a| + 1, true) == Ids(pod, b, |a|, true);
    forall d ensures CollapsedEntry(pod, t, b, d) == CollapsedEntry(pod, t, a, d) && SteadyEntry(pod, t, b, d) == SteadyEntry(pod, t, a, d) {
      ReadBackEntry(pod, t, a, b, d);
    }
  }

  /** The codec round trip preserves accounting. */
  lemma AnnotationPreservesAccounting(pod: Pod, t: string, rows: PodSingleDevice)
    requires CleanRows(rows)
    ensures DecodeRows(EncodeRows(rows)).Ok?
    ensures CollapsedRow(pod, t, DecodeRows(EncodeRows(rows)).value) == CollapsedRow(pod, t, rows)
    ensures SteadyRow(pod, t, DecodeRows(EncodeRows(rows)).value) == SteadyRow(pod, t, rows)
  {
    RoundTrip(rows);
    ReadBackCharges(pod, t, rows, NormRows(rows) + [[]]);
  }

  lemma {:induction false} NormRowUse(row: ContainerDevices, d: DeviceId, r: Res)
    ensures RowUse(NormRow(row), d, r) == RowUse(row, d, r)
  {
    if row != [] {
      var front := row[..|row| - 1];
      NormRowUse(front, d, r);
      assert NormRow(row)[..|row| - 1] == NormRow(front);
      NormUse(row[|row| - 1]);
    }
  }

  lemma ReadBackRow(a: PodSingleDevice, b: PodSingleDevice, i: nat, d: DeviceId, r: Res)
    requires ReadBack(a, b) && i < |a|
    ensures RowUse(b[i], d, r) == RowUse(a[i], d, r)
  {
    NormRowUse(a[i], d, r);
  }

  lemma ReadBackRows(a: PodSingleDevice, b: PodSingleDevice, d: DeviceId, r: Res)
    requires ReadBack(a, b)
    ensures Reach.RowsLe(a + [[]], b, d, r) && Reach.RowsLe(b, a + [[]], d, r)
  {
    forall i | 0 <= i <= |a| ensures RowUse(b[i], d, r) == RowUse((a + [[]])[i], d, r) {
      if i < |a| { ReadBackRow(a, b, i, d, r); }
    }
  }

  /** A charge, counter by counter, is the same for the rows read back. */
  lemma ReadBackEffective(pod: Pod, a: PodSingleDevice, b: PodSingleDevice, released: bool, d: DeviceId, r: Res)
    requires ReadBack(a, b)
    ensures Effective(pod, b, released, d, r) == Effective(pod, a, released, d, r)
  {
    var c := a + [[]];
    assert c[..|a|] == a;
    ReadBackRows(a, b, d, r);
    Reach.EffectiveCongruent(pod, b, c, released, d, r);
    EmptyLast(pod, c, |a|, d, r);
    Placement.LivePrefix(pod, c, |a|, d, r);
    Placement.PeakPrefix(pod, c, |a|, |a|, d, r);
  }

  /** An empty row at the end charges nothing. */
  lemma EmptyLast(pod: Pod, b: PodSingleDevice, n: nat, d: DeviceId, r: Res)
    requires |b| == n + 1 && b[n] == []
    ensures LiveUse(pod, b, n + 1, d, r) == LiveUse(pod, b, n, d, r)
    ensures Max(PeakUse(pod, b, n + 1, d, r), LiveUse(pod, b, n + 1, d, r)) == Max(PeakUse(pod, b, n, d, r), LiveUse(pod, b, n, d, r))
  {
    assert RowUse(b[n], d, r) == 0;
    assert PartUse(pod, b, n + 1, Sidecar, d, r) == PartUse(pod, b, n, Sidecar, d, r);
    assert PartUse(pod, b, n + 1, App, d, r) == PartUse(pod, b, n, App, d, r);
    if n < |pod.sidecars| {
      NoAppsYet(pod, b, n, d, r);
      InitLiveBelowPeak(pod, b, n, d, r);
    }
  }
}
