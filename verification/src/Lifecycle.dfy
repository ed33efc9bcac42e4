/** What the collapsed usage means: a pod's init containers run one after another,
    sidecars stay, and the app containers run together at the end. The collapsed
    row is the least amount that covers every one of those stages. */
module Lifecycle {
  import opened Usages
  import opened Devices
  import opened Collapse

  // ---------- Counter by counter ----------

  /** What the containers of kind `k` among the first `n` use of `r` on `d`. */
  function PartUse(pod: Pod, rows: PodSingleDevice, n: nat, k: Kind, d: DeviceId, r: Res): nat
    requires n <= |rows|
  {
    if n == 0 then 0
    else PartUse(pod, rows, n - 1, k, d, r) + if pod.KindAt(n - 1) == k then RowUse(rows[n - 1], d, r) else 0
  }

  /** What still runs on `d` once the first `n` containers have started and the
      ordinary init containers among them have exited. */
  function LiveUse(pod: Pod, rows: PodSingleDevice, n: nat, d: DeviceId, r: Res): nat
    requires n <= |rows|
  {
    PartUse(pod, rows, n, Sidecar, d, r) + PartUse(pod, rows, n, App, d, r)
  }

  /** What runs on `d` while container `n` starts. */
  function StepUse(pod: Pod, rows: PodSingleDevice, n: nat, d: DeviceId, r: Res): nat
    requires n < |rows|
  {
    LiveUse(pod, rows, n, d, r) + RowUse(rows[n], d, r)
  }

  /** The largest init-phase step among the first `n` containers. */
  function PeakUse(pod: Pod, rows: PodSingleDevice, n: nat, d: DeviceId, r: Res): nat
    requires n <= |rows|
  {
    if n == 0 then 0
    else if pod.KindAt(n - 1) == App then PeakUse(pod, rows, n - 1, d, r)
    else Max(PeakUse(pod, rows, n - 1, d, r), StepUse(pod, rows, n - 1, d, r))
  }

  /** What the pod is charged on `d`: its peak, or its steady state once the
      ordinary init containers have been released. */
  function Effective(pod: Pod, rows: PodSingleDevice, released: bool, d: DeviceId, r: Res): nat {
    var live := LiveUse(pod, rows, |rows|, d, r);
    if released then live else Max(PeakUse(pod, rows, |rows|, d, r), live)
  }

  predicate InitRowsDistinct(pod: Pod, rows: PodSingleDevice) {
    forall i :: 0 <= i < |rows| && pod.KindAt(i) == OrdinaryInit ==> Distinct(rows[i])
  }

  // ---------- The running totals, counter by counter ----------

  lemma {:induction false} AfterRowSums(k: Kind, s: DevState, row: ContainerDevices, d: DeviceId, r: Res)
    ensures AfterRow(k, s, row, d).sc.Of(r) == s.sc.Of(r) + if k == Sidecar then RowUse(row, d, r) else 0
    ensures AfterRow(k, s, row, d).app.Of(r) == s.app.Of(r) + if k == App then RowUse(row, d, r) else 0
    ensures k == App ==> AfterRow(k, s, row, d).peak == s.peak
    ensures AfterRow(k, s, row, d).peak.Of(r) >= s.peak.Of(r)
  {
    if row != [] {
      AfterRowSums(k, s, row[..|row| - 1], d, r);
    }
  }

  lemma {:induction false} SidecarPeak(s: DevState, row: ContainerDevices, d: DeviceId, r: Res)
    requires s.sc.Of(r) <= s.peak.Of(r)
    ensures AfterRow(Sidecar, s, row, d).peak.Of(r) == Max(s.peak.Of(r), s.sc.Of(r) + RowUse(row, d, r))
  {
    if row != [] {
      SidecarPeak(s, row[..|row| - 1], d, r);
      AfterRowSums(Sidecar, s, row[..|row| - 1], d, r);
    }
  }

  lemma {:induction false} InitPeakUnnamed(s: DevState, row: ContainerDevices, d: DeviceId)
    requires !Names(row, d)
    ensures AfterRow(OrdinaryInit, s, row, d) == s
  {
    if row != [] {
      assert row[|row| - 1].uuid != d;
      InitPeakUnnamed(s, row[..|row| - 1], d);
    }
  }

  lemma {:induction false} InitPeak(s: DevState, row: ContainerDevices, d: DeviceId, r: Res)
    requires s.sc.Of(r) <= s.peak.Of(r) && Distinct(row)
    ensures AfterRow(OrdinaryInit, s, row, d).peak.Of(r) == Max(s.peak.Of(r), s.sc.Of(r) + RowUse(row, d, r))
  {
    if row != [] {
      var front := row[..|row| - 1];
      assert Distinct(front);
      InitPeak(s, front, d, r);
      AfterRowSums(OrdinaryInit, s, front, d, r);
      if row[|row| - 1].uuid == d {
        assert !Names(front, d);
        InitPeakUnnamed(s, front, d);
        RowUseUnnamed(front, d, r);
      }
    }
  }

  lemma {:induction false} StateParts(pod: Pod, rows: PodSingleDevice, n: nat, d: DeviceId, r: Res)
    requires n <= |rows|
    ensures StateAt(pod, rows, n, d).sc.Of(r) == PartUse(pod, rows, n, Sidecar, d, r)
    ensures StateAt(pod, rows, n, d).app.Of(r) == PartUse(pod, rows, n, App, d, r)
    ensures StateAt(pod, rows, n, d).sc.Of(r) <= StateAt(pod, rows, n, d).peak.Of(r)
  {
    if n > 0 {
      StateParts(pod, rows, n - 1, d, r);
      var s := StateAt(pod, rows, n - 1, d);
      AfterRowSums(pod.KindAt(n - 1), s, rows[n - 1], d, r);
      if pod.KindAt(n - 1) == Sidecar { SidecarPeak(s, rows[n - 1], d, r); }
    }
  }

  lemma {:induction false} NoAppsYet(pod: Pod, rows: PodSingleDevice, n: nat, d: DeviceId, r: Res)
    requires n <= |rows| && n <= |pod.sidecars|
    ensures PartUse(pod, rows, n, App, d, r) == 0
  {
    if n > 0 { NoAppsYet(pod, rows, n - 1, d, r); }
  }

  /** While only init containers have started, what runs is part of the peak. */
  lemma {:induction false} InitLiveBelowPeak(pod: Pod, rows: PodSingleDevice, n: nat, d: DeviceId, r: Res)
    requires n <= |rows| && n <= |pod.sidecars|
    ensures LiveUse(pod, rows, n, d, r) <= PeakUse(pod, rows, n, d, r)
  {
    if n > 0 { InitLiveBelowPeak(pod, rows, n - 1, d, r); }
  }

  /** Without ordinary init containers nothing leaves, so the peak is what runs in the end. */
  lemma {:induction false} NobodyLeaves(pod: Pod, rows: PodSingleDevice, n: nat, d: DeviceId, r: Res)
    requires n <= |rows| && forall i :: 0 <= i < |pod.sidecars| ==> pod.sidecars[i]
    ensures PeakUse(pod, rows, n, d, r) <= LiveUse(pod, rows, n, d, r)
  {
    if n > 0 { NobodyLeaves(pod, rows, n - 1, d, r); }
  }

  lemma {:induction false} StatePeak(pod: Pod, rows: PodSingleDevice, n: nat, d: DeviceId, r: Res)
    requires n <= |rows| && InitRowsDistinct(pod, rows)
    ensures StateAt(pod, rows, n, d).peak.Of(r) == PeakUse(pod, rows, n, d, r)
  {
    if n > 0 {
      StatePeak(pod, rows, n - 1, d, r);
      StateParts(pod, rows, n - 1, d, r);
      var s := StateAt(pod, rows, n - 1, d);
      match pod.KindAt(n - 1) {
        case App => AfterRowSums(App, s, rows[n - 1], d, r);
        case Sidecar =>
          SidecarPeak(s, rows[n - 1], d, r);
          NoAppsYet(pod, rows, n - 1, d, r);
        case OrdinaryInit =>
          InitPeak(s, rows[n - 1], d, r);
          NoAppsYet(pod, rows, n - 1, d, r);
      }
    }
  }

  /** The running totals arrive at the charge, whatever the mix and order of
      ordinary inits, sidecars and apps. */
  lemma CollapsedIsEffective(pod: Pod, rows: PodSingleDevice, d: DeviceId, r: Res)
    requires InitRowsDistinct(pod, rows)
    ensures Collapsed(pod, rows, d).Of(r) == Effective(pod, rows, false, d, r)
  {
    StateParts(pod, rows, |rows|, d, r);
    StatePeak(pod, rows, |rows|, d, r);
  }

  lemma {:induction false} AddRowSum(u: Usage, row: ContainerDevices, d: DeviceId, r: Res)
    ensures AddRow(u, row, d).Of(r) == u.Of(r) + RowUse(row, d, r)
  {
    if row != [] { AddRowSum(u, row[..|row| - 1], d, r); }
  }

  lemma {:induction false} SteadyIsLive(pod: Pod, rows: PodSingleDevice, n: nat, d: DeviceId, r: Res)
    requires n <= |rows|
    ensures SteadyAt(pod, rows, n, d).Of(r) == LiveUse(pod, rows, n, d, r)
  {
    if n > 0 {
      SteadyIsLive(pod, rows, n - 1, d, r);
      if pod.KindAt(n - 1) != OrdinaryInit { AddRowSum(SteadyAt(pod, rows, n - 1, d), rows[n - 1], d, r); }
    }
  }

  // ---------- The collapsed row carries those amounts ----------

  lemma {:induction false} LessIrreflexive(a: string)
    ensures !Less(a, a)
  {
    if a != [] { LessIrreflexive(a[1..]); }
  }

  lemma SortedDistinct(ids: seq<DeviceId>)
    requires Sorted(ids)
    ensures forall i, j :: 0 <= i < j < |ids| ==> ids[i] != ids[j]
  {
    forall i, j | 0 <= i < j < |ids| ensures ids[i] != ids[j] {
      LessIrreflexive(ids[i]);
    }
  }

  lemma {:induction false} NamedRowSlots(k: Kind, s: DevState, row: ContainerDevices, d: DeviceId)
    requires Names(row, d)
    ensures AfterRow(k, s, row, d).peak.slots + AfterRow(k, s, row, d).app.slots >= 1
  {
    var front := row[..|row| - 1];
    if row[|row| - 1].uuid != d {
      var i :| 0 <= i < |row| && row[i].uuid == d;
      assert front[i].uuid == d;
      NamedRowSlots(k, s, front, d);
    }
  }

  lemma {:induction false} NamedSlots(pod: Pod, rows: PodSingleDevice, n: nat, d: DeviceId)
    requires n <= |rows| && NamedIn(pod, rows, n, false, d)
    ensures StateAt(pod, rows, n, d).peak.slots + StateAt(pod, rows, n, d).app.slots >= 1
  {
    var s := StateAt(pod, rows, n - 1, d);
    if Names(rows[n - 1], d) {
      NamedRowSlots(pod.KindAt(n - 1), s, rows[n - 1], d);
    } else {
      NamedSlots(pod, rows, n - 1, d);
      AfterRowSums(pod.KindAt(n - 1), s, rows[n - 1], d, Slots);
    }
  }

  lemma {:induction false} UnnamedState(pod: Pod, rows: PodSingleDevice, n: nat, d: DeviceId)
    requires n <= |rows| && !NamedIn(pod, rows, n, false, d)
    ensures StateAt(pod, rows, n, d) == StateAt(pod, rows, 0, d)
  {
    if n > 0 {
      assert Counts(pod, n - 1, false) && !Names(rows[n - 1], d);
      UnnamedState(pod, rows, n - 1, d);
      UnnamedRow(pod.KindAt(n - 1), StateAt(pod, rows, n - 1, d), rows[n - 1], d);
    }
  }

  lemma {:induction false} UnnamedRow(k: Kind, s: DevState, row: ContainerDevices, d: DeviceId)
    requires !Names(row, d)
    ensures AfterRow(k, s, row, d) == s
  {
    if row != [] {
      assert row[|row| - 1].uuid != d;
      UnnamedRow(k, s, row[..|row| - 1], d);
    }
  }

  lemma CollapsedNames(pod: Pod, t: string, rows: PodSingleDevice, d: DeviceId)
    ensures Distinct(CollapsedRow(pod, t, rows))
    ensures Names(CollapsedRow(pod, t, rows), d) <==> NamedIn(pod, rows, |rows|, false, d)
  {
    var ids, row := Ids(pod, rows, |rows|, false), CollapsedRow(pod, t, rows);
    IdsMembers(pod, rows, |rows|, false);
    SortedDistinct(ids);
    if d in ids {
      var i :| 0 <= i < |ids| && ids[i] == d;
      assert row[i].uuid == d;
    }
  }

  lemma CollapsedEntryAt(pod: Pod, t: string, rows: PodSingleDevice, d: DeviceId) returns (i: nat)
    requires Names(CollapsedRow(pod, t, rows), d)
    ensures i < |CollapsedRow(pod, t, rows)| && CollapsedRow(pod, t, rows)[i] == CollapsedEntry(pod, t, rows, d)
  {
    var row := CollapsedRow(pod, t, rows);
    i :| 0 <= i < |row| && row[i].uuid == d;
  }

  /** Read back, the collapsed row charges every device its collapsed usage, names
      each device once and names no other. */
  lemma CollapsedRowUse(pod: Pod, t: string, rows: PodSingleDevice, d: DeviceId, r: Res)
    ensures Distinct(CollapsedRow(pod, t, rows))
    ensures Names(CollapsedRow(pod, t, rows), d) <==> NamedIn(pod, rows, |rows|, false, d)
    ensures RowUse(CollapsedRow(pod, t, rows), d, r) == Collapsed(pod, rows, d).Of(r)
  {
    var row := CollapsedRow(pod, t, rows);
    CollapsedNames(pod, t, rows, d);
    if Names(row, d) {
      var i := CollapsedEntryAt(pod, t, rows, d);
      RowUseDistinct(row, r, i);
      NamedSlots(pod, rows, |rows|, d);
    } else {
      RowUseUnnamed(row, d, r);
      UnnamedState(pod, rows, |rows|, d);
    }
  }

  lemma {:induction false} LiveSlots(pod: Pod, rows: PodSingleDevice, n: nat, d: DeviceId)
    requires n <= |rows| && NamedIn(pod, rows, n, true, d)
    ensures LiveUse(pod, rows, n, d, Slots) >= 1
  {
    if pod.KindAt(n - 1) != OrdinaryInit && Names(rows[n - 1], d) {
      var i :| 0 <= i < |rows[n - 1]| && rows[n - 1][i].uuid == d;
      RowUseBound(rows[n - 1], d, Slots, i);
    } else {
      LiveSlots(pod, rows, n - 1, d);
    }
  }

  lemma {:induction false} LiveUnnamed(pod: Pod, rows: PodSingleDevice, n: nat, d: DeviceId, r: Res)
    requires n <= |rows| && !NamedIn(pod, rows, n, true, d)
    ensures LiveUse(pod, rows, n, d, r) == 0
  {
    if n > 0 {
      LiveUnnamed(pod, rows, n - 1, d, r);
      if Counts(pod, n - 1, true) {
        assert !Names(rows[n - 1], d);
        RowUseUnnamed(rows[n - 1], d, r);
      }
    }
  }

  /** The same for the steady-state row. */
  lemma SteadyRowUse(pod: Pod, t: string, rows: PodSingleDevice, d: DeviceId, r: Res)
    ensures Distinct(SteadyRow(pod, t, rows))
    ensures Names(SteadyRow(pod, t, rows), d) <==> NamedIn(pod, rows, |rows|, true, d)
    ensures RowUse(SteadyRow(pod, t, rows), d, r) == Effective(pod, rows, true, d, r)
  {
    var ids, row := Ids(pod, rows, |rows|, true), SteadyRow(pod, t, rows);
    IdsMembers(pod, rows, |rows|, true);
    SortedDistinct(ids);
    SteadyIsLive(pod, rows, |rows|, d, r);
    SteadyIsLive(pod, rows, |rows|, d, Slots);
    if d in ids {
      var i :| 0 <= i < |ids| && ids[i] == d;
      assert row[i].uuid == d;
      RowUseDistinct(row, r, i);
      LiveSlots(pod, rows, |rows|, d);
    } else {
      assert !Names(row, d);
      RowUseUnnamed(row, d, r);
      LiveUnnamed(pod, rows, |rows|, d, r);
    }
  }

  // ---------- The stages of a pod's life ----------

  /** Whether container `j` runs in stage `stage`. Stage `s` below the number of
      init containers is the one in which init container `s` runs; the stage after
      them is the pod's steady state. */
  predicate Running(pod: Pod, stage: nat, j: nat) {
    if stage < |pod.sidecars| then j == stage || (j < stage && pod.KindAt(j) == Sidecar)
    else pod.KindAt(j) != OrdinaryInit
  }

  function StageUse(pod: Pod, rows: PodSingleDevice, n: nat, stage: nat, d: DeviceId, r: Res): nat
    requires n <= |rows|
  {
    if n == 0 then 0
    else StageUse(pod, rows, n - 1, stage, d, r) + if Running(pod, stage, n - 1) then RowUse(rows[n - 1], d, r) else 0
  }

  ghost predicate IsPeak(pod: Pod, rows: PodSingleDevice, d: DeviceId, r: Res, peak: nat) {
    && (forall stage :: 0 <= stage <= |pod.sidecars| ==> StageUse(pod, rows, |rows|, stage, d, r) <= peak)
    && (exists stage :: 0 <= stage <= |pod.sidecars| && StageUse(pod, rows, |rows|, stage, d, r) == peak)
  }

  lemma {:induction false} LastStage(pod: Pod, rows: PodSingleDevice, n: nat, d: DeviceId, r: Res)
    requires n <= |rows|
    ensures StageUse(pod, rows, n, |pod.sidecars|, d, r) == LiveUse(pod, rows, n, d, r)
  {
    if n > 0 { LastStage(pod, rows, n - 1, d, r); }
  }

  lemma {:induction false} InitStage(pod: Pod, rows: PodSingleDevice, n: nat, stage: nat, d: DeviceId, r: Res)
    requires n <= |rows| && stage < |pod.sidecars|
    ensures n <= stage ==> StageUse(pod, rows, n, stage, d, r) == LiveUse(pod, rows, n, d, r)
    ensures n > stage ==> StageUse(pod, rows, n, stage, d, r) == StepUse(pod, rows, stage, d, r)
  {
    if n > 0 { InitStage(pod, rows, n - 1, stage, d, r); }
  }

  lemma {:induction false} LiveMono(pod: Pod, rows: PodSingleDevice, n: nat, m: nat, d: DeviceId, r: Res)
    requires n <= m <= |rows|
    ensures LiveUse(pod, rows, n, d, r) <= LiveUse(pod, rows, m, d, r)
  {
    if n < m { LiveMono(pod, rows, n, m - 1, d, r); }
  }

  lemma {:induction false} PeakCovers(pod: Pod, rows: PodSingleDevice, n: nat, i: nat, d: DeviceId, r: Res)
    requires i < n <= |rows| && pod.KindAt(i) != App
    ensures StepUse(pod, rows, i, d, r) <= PeakUse(pod, rows, n, d, r)
  {
    if i < n - 1 { PeakCovers(pod, rows, n - 1, i, d, r); }
  }

  lemma {:induction false} PeakReached(pod: Pod, rows: PodSingleDevice, n: nat, d: DeviceId, r: Res) returns (i: nat)
    requires n <= |rows|
    ensures PeakUse(pod, rows, n, d, r) > 0 ==>
      i < n && pod.KindAt(i) != App && StepUse(pod, rows, i, d, r) == PeakUse(pod, rows, n, d, r)
  {
    if n == 0 { return 0; }
    i := PeakReached(pod, rows, n - 1, d, r);
    if pod.KindAt(n - 1) != App && PeakUse(pod, rows, n - 1, d, r) <= StepUse(pod, rows, n - 1, d, r) {
      i := n - 1;
    }
  }

  /** The charge before release is the least amount that covers every stage. */
  lemma EffectiveIsPeak(pod: Pod, rows: PodSingleDevice, d: DeviceId, r: Res)
    ensures IsPeak(pod, rows, d, r, Effective(pod, rows, false, d, r))
    ensures StageUse(pod, rows, |rows|, |pod.sidecars|, d, r) == Effective(pod, rows, true, d, r)
  {
    var peak := Effective(pod, rows, false, d, r);
    LastStage(pod, rows, |rows|, d, r);
    forall stage | 0 <= stage <= |pod.sidecars| ensures StageUse(pod, rows, |rows|, stage, d, r) <= peak {
      if stage < |pod.sidecars| {
        InitStage(pod, rows, |rows|, stage, d, r);
        if stage < |rows| { PeakCovers(pod, rows, |rows|, stage, d, r); }
      }
    }
    if PeakUse(pod, rows, |rows|, d, r) > LiveUse(pod, rows, |rows|, d, r) {
      var i := PeakReached(pod, rows, |rows|, d, r);
      InitStage(pod, rows, |rows|, i, d, r);
    }
  }

  /** Releasing the ordinary init containers never raises a charge. */
  lemma ReleaseShrinks(pod: Pod, rows: PodSingleDevice, released: bool, d: DeviceId, r: Res)
    ensures Effective(pod, rows, true, d, r) <= Effective(pod, rows, released, d, r)
  {
  }

  /** Collapse is exactly the lifecycle peak, and steady state its last stage. */
  lemma CollapseIsLifecyclePeak(pod: Pod, t: string, rows: PodSingleDevice, d: DeviceId, r: Res)
    requires InitRowsDistinct(pod, rows)
    ensures IsPeak(pod, rows, d, r, RowUse(CollapsedRow(pod, t, rows), d, r))
    ensures RowUse(SteadyRow(pod, t, rows), d, r) == StageUse(pod, rows, |rows|, |pod.sidecars|, d, r)
    ensures RowUse(SteadyRow(pod, t, rows), d, r) <= RowUse(CollapsedRow(pod, t, rows), d, r)
  {
    CollapsedRowUse(pod, t, rows, d, r);
    CollapsedIsEffective(pod, rows, d, r);
    SteadyRowUse(pod, t, rows, d, r);
    EffectiveIsPeak(pod, rows, d, r);
  }

  // ---------- Which row layouts collapse exactly ----------

  /** The same containers hold grants on the same devices; amounts may differ. */
  ghost predicate SameLayout(a: PodSingleDevice, b: PodSingleDevice) {
    && |a| == |b|
    && (forall i :: 0 <= i < |a| ==> SameDevices(a[i], b[i]))
  }

  ghost predicate SameDevices(a: ContainerDevices, b: ContainerDevices) {
    |a| == |b| && forall j :: 0 <= j < |a| ==> a[j].uuid == b[j].uuid
  }

  ghost predicate ExactFor(pod: Pod, rows: PodSingleDevice) {
    forall d, r :: IsPeak(pod, rows, d, r, Collapsed(pod, rows, d).Of(r))
  }

  /** An ordinary init container holding two grants on one device is charged only
      for the larger, although both are in use at once. Collapse is the lifecycle
      peak for every assignment of amounts exactly when no such row exists. */
  lemma CollapseExactIff(pod: Pod, rows: PodSingleDevice)
    ensures (forall rows' :: SameLayout(rows, rows') ==> ExactFor(pod, rows')) <==> InitRowsDistinct(pod, rows)
  {
    if InitRowsDistinct(pod, rows) {
      forall rows', d, r | SameLayout(rows, rows')
        ensures IsPeak(pod, rows', d, r, Collapsed(pod, rows', d).Of(r))
      {
        assert InitRowsDistinct(pod, rows') by {
          forall i | 0 <= i < |rows'| && pod.KindAt(i) == OrdinaryInit ensures Distinct(rows'[i]) {
            assert SameDevices(rows[i], rows'[i]) && Distinct(rows[i]);
          }
        }
        CollapsedIsEffective(pod, rows', d, r);
        EffectiveIsPeak(pod, rows', d, r);
      }
    } else {
      var i :| 0 <= i < |rows| && pod.KindAt(i) == OrdinaryInit && !Distinct(rows[i]);
      var a, b :| 0 <= a < b < |rows[i]| && rows[i][a].uuid == rows[i][b].uuid;
      var rows' := Weigh(rows, i);
      DoubleGrantUndercharged(pod, rows, i, a, b);
      assert SameLayout(rows, rows') && !ExactFor(pod, rows');
    }
  }

  /** The layout of `rows` with one unit of memory on every grant of container `i`. */
  function Weigh(rows: PodSingleDevice, i: nat): PodSingleDevice {
    seq(|rows|, k requires 0 <= k < |rows| => WeighRow(rows[k], if k == i then 1 else 0))
  }

  function WeighRow(row: ContainerDevices, w: nat): ContainerDevices {
    seq(|row|, j requires 0 <= j < |row| => ContainerDevice(row[j].uuid, row[j].typ, w, 0, 0))
  }

  lemma DoubleGrantUndercharged(pod: Pod, rows: PodSingleDevice, i: nat, a: nat, b: nat)
    requires i < |rows| && pod.KindAt(i) == OrdinaryInit
    requires a < b < |rows[i]| && rows[i][a].uuid == rows[i][b].uuid
    ensures Collapsed(pod, Weigh(rows, i), rows[i][a].uuid).mem <= 1
    ensures StageUse(pod, Weigh(rows, i), |rows|, i, rows[i][a].uuid, Mem) >= 2
    ensures !ExactFor(pod, Weigh(rows, i))
  {
    var rows', d := Weigh(rows, i), rows[i][a].uuid;
    LightState(pod, rows, i, |rows|, d);
    InitStage(pod, rows', |rows'|, i, d, Mem);
    TwoGrants(rows'[i], d, Mem, a, b);
    assert !IsPeak(pod, rows', d, Mem, Collapsed(pod, rows', d).Of(Mem));
  }

  lemma {:induction false} TwoGrants(row: ContainerDevices, d: DeviceId, r: Res, a: nat, b: nat)
    requires a < b < |row| && row[a].uuid == d && row[b].uuid == d
    ensures RowUse(row, d, r) >= row[a].Use().Of(r) + row[b].Use().Of(r)
  {
    if b < |row| - 1 {
      TwoGrants(row[..|row| - 1], d, r, a, b);
    } else {
      RowUseBound(row[..|row| - 1], d, r, a);
    }
  }

  predicate Light(s: DevState) {
    s.sc.mem == 0 && s.app.mem == 0 && s.peak.mem <= 1
  }

  lemma {:induction false} LightRow(k: Kind, s: DevState, row: ContainerDevices, w: nat, d: DeviceId)
    requires Light(s) && w <= 1 && (w == 0 || k == OrdinaryInit)
    ensures Light(AfterRow(k, s, WeighRow(row, w), d))
  {
    if row != [] {
      LightRow(k, s, row[..|row| - 1], w, d);
      assert WeighRow(row, w)[..|row| - 1] == WeighRow(row[..|row| - 1], w);
    }
  }

  lemma {:induction false} LightState(pod: Pod, rows: PodSingleDevice, i: nat, n: nat, d: DeviceId)
    requires i < |rows| && n <= |rows| && pod.KindAt(i) == OrdinaryInit
    ensures Light(StateAt(pod, Weigh(rows, i), n, d))
  {
    if n > 0 {
      LightState(pod, rows, i, n - 1, d);
      LightRow(pod.KindAt(n - 1), StateAt(pod, Weigh(rows, i), n - 1, d), rows[n - 1], if n - 1 == i then 1 else 0, d);
    }
  }

  /** One init container and one app container on a device: an ordinary init container has left
      when the app starts, a sidecar runs beside it. */
  lemma InitThenApp(pod: Pod, e: ContainerDevice, f: ContainerDevice)
    requires |pod.sidecars| == 1 && e.uuid == f.uuid
    ensures Effective(pod, [[e], [f]], false, e.uuid, Mem) == if pod.sidecars[0] then e.mem + f.mem else if e.mem > f.mem then e.mem else f.mem
    ensures Effective(pod, [[e], [f]], true, e.uuid, Mem) == if pod.sidecars[0] then e.mem + f.mem else f.mem
    ensures Effective(pod, [[e], [f]], false, e.uuid, Cores) == if pod.sidecars[0] then e.cores + f.cores else if e.cores > f.cores then e.cores else f.cores
    ensures Effective(pod, [[e], [f]], true, e.uuid, Cores) == if pod.sidecars[0] then e.cores + f.cores else f.cores
  {
    InitThenAppOf(pod, e, f, Mem);
    InitThenAppOf(pod, e, f, Cores);
  }

  lemma InitThenAppOf(pod: Pod, e: ContainerDevice, f: ContainerDevice, r: Res)
    requires |pod.sidecars| == 1 && e.uuid == f.uuid
    ensures var a, b := e.Use().Of(r), f.Use().Of(r);
      && Effective(pod, [[e], [f]], false, e.uuid, r) == (if pod.sidecars[0] then a + b else Max(a, b))
      && Effective(pod, [[e], [f]], true, e.uuid, r) == (if pod.sidecars[0] then a + b else b)
  {
    var d, rows := e.uuid, [[e], [f]];
    RowUseDistinct([e], r, 0);
    RowUseDistinct([f], r, 0);
    EffectiveIsPeak(pod, rows, d, r);
    forall s: nat | s <= 1 ensures StageUse(pod, rows, 2, s, d, r) ==
      (if Running(pod, s, 0) then e.Use().Of(r) else 0) + (if Running(pod, s, 1) then f.Use().Of(r) else 0)
    {
      assert StageUse(pod, rows, 1, s, d, r) == StageUse(pod, rows, 0, s, d, r) + if Running(pod, s, 0) then RowUse(rows[0], d, r) else 0;
      assert StageUse(pod, rows, 2, s, d, r) == StageUse(pod, rows, 1, s, d, r) + if Running(pod, s, 1) then RowUse(rows[1], d, r) else 0;
    }
    assert StageUse(pod, rows, 2, 0, d, r) <= Effective(pod, rows, false, d, r) && StageUse(pod, rows, 2, 1, d, r) <= Effective(pod, rows, false, d, r);
  }
}
