/** The admission check: it compares the namespace quota with the pod's own peak, before
    any device is chosen. */
module Admission {
  import opened Usages
  import opened Devices
  import opened Collapse
  import opened Lifecycle
  import opened Quotas
  import opened QuotaManagers
  import opened Totals
  import opened Placement
  import Nvidia

  /** What container `i` asks of NVIDIA memory or cores, over all its devices. */
  function Ask(pod: Pod, i: nat, r: Res): nat
    requires i < |pod.reqs|
  {
    if NVIDIA !in pod.reqs[i] then 0
    else pod.reqs[i][NVIDIA].nums * (if r == Mem then pod.reqs[i][NVIDIA].memreq else Max(pod.reqs[i][NVIDIA].coresreq, 0))
  }

  /** What the containers of kind `k` among the first `n` ask. */
  function AskPart(pod: Pod, n: nat, k: Kind, r: Res): nat
    requires n <= |pod.reqs|
  {
    if n == 0 then 0 else AskPart(pod, n - 1, k, r) + if pod.KindAt(n - 1) == k then Ask(pod, n - 1, r) else 0
  }

  function AskLive(pod: Pod, n: nat, r: Res): nat
    requires n <= |pod.reqs|
  {
    AskPart(pod, n, Sidecar, r) + AskPart(pod, n, App, r)
  }

  function AskInit(pod: Pod, n: nat, r: Res): nat
    requires n <= |pod.reqs|
  {
    if n == 0 then 0
    else if pod.KindAt(n - 1) == App then AskInit(pod, n - 1, r)
    else Max(AskInit(pod, n - 1, r), AskLive(pod, n - 1, r) + Ask(pod, n - 1, r))
  }

  /** The most the pod asks at any stage of its life. */
  function AskPeak(pod: Pod, r: Res): nat {
    Max(AskInit(pod, |pod.reqs|, r), AskLive(pod, |pod.reqs|, r))
  }

  /** The backend has refused requests for a negative share of cores. */
  predicate WellAsked(pod: Pod) {
    |pod.sidecars| <= |pod.reqs| && forall i :: 0 <= i < |pod.reqs| && NVIDIA in pod.reqs[i] ==> pod.reqs[i][NVIDIA].coresreq >= 0
  }

  // ---------- The loops ----------

  lemma {:induction false} NoAppsAsked(pod: Pod, n: nat, r: Res)
    requires n <= |pod.sidecars| && n <= |pod.reqs|
    ensures AskPart(pod, n, App, r) == 0 && AskPart(pod, n, Sidecar, r) <= AskInit(pod, n, r)
  {
    if n > 0 { NoAppsAsked(pod, n - 1, r); }
  }

  lemma {:induction false} OnlyAppsAsked(pod: Pod, n: nat, r: Res)
    requires |pod.sidecars| <= n <= |pod.reqs|
    ensures AskPart(pod, n, Sidecar, r) == AskPart(pod, |pod.sidecars|, Sidecar, r) && AskInit(pod, n, r) == AskInit(pod, |pod.sidecars|, r)
    decreases n
  {
    if n > |pod.sidecars| { OnlyAppsAsked(pod, n - 1, r); }
  }

  /** A container's request for all its devices. */
  method ContainerAsk(pod: Pod, i: nat) returns (mem: nat, cores: nat)
    requires WellAsked(pod) && i < |pod.reqs| && NVIDIA in pod.reqs[i]
    ensures mem == Ask(pod, i, Mem) && cores == Ask(pod, i, Cores)
  {
    var req := pod.reqs[i][NVIDIA];
    mem, cores := req.nums * req.memreq, req.nums * req.coresreq;
  }

  /** What the app containers ask. */
  method AppRequests(pod: Pod) returns (mem: nat, cores: nat)
    requires WellAsked(pod)
    ensures mem == AskPart(pod, |pod.reqs|, App, Mem) && cores == AskPart(pod, |pod.reqs|, App, Cores)
  {
    mem, cores := 0, 0;
    NoAppsAsked(pod, |pod.sidecars|, Mem);
    NoAppsAsked(pod, |pod.sidecars|, Cores);
    for i := |pod.sidecars| to |pod.reqs|
      invariant mem == AskPart(pod, i, App, Mem) && cores == AskPart(pod, i, App, Cores)
    {
      if NVIDIA !in pod.reqs[i] {
        continue;
      }
      var m, c := ContainerAsk(pod, i);
      mem, cores := mem + m, cores + c;
    }
  }

  /** What the sidecars ask, and the peak of the init phase. */
  method InitRequests(pod: Pod) returns (mem: nat, cores: nat, peakMem: nat, peakCores: nat)
    requires WellAsked(pod)
    ensures mem == AskPart(pod, |pod.sidecars|, Sidecar, Mem) && cores == AskPart(pod, |pod.sidecars|, Sidecar, Cores)
    ensures peakMem == AskInit(pod, |pod.sidecars|, Mem) && peakCores == AskInit(pod, |pod.sidecars|, Cores)
  {
    mem, cores, peakMem, peakCores := 0, 0, 0, 0;
    for i := 0 to |pod.sidecars|
      invariant mem == AskPart(pod, i, Sidecar, Mem) && cores == AskPart(pod, i, Sidecar, Cores)
      invariant peakMem == AskInit(pod, i, Mem) && peakCores == AskInit(pod, i, Cores)
    {
      NoAppsAsked(pod, i, Mem);
      NoAppsAsked(pod, i, Cores);
      if NVIDIA !in pod.reqs[i] {
        continue;
      }
      var m, c := ContainerAsk(pod, i);
      if pod.sidecars[i] {
        mem, cores := mem + m, cores + c;
        peakMem, peakCores := Max(peakMem, mem), Max(peakCores, cores);
        continue;
      }
      peakMem, peakCores := Max(peakMem, mem + m), Max(peakCores, cores + c);
    }
  }

  /** The decision for the NVIDIA type. */
  method FitResourceQuota(pod: Pod, quota: QuotaManager) returns (ok: bool)
    requires WellAsked(pod)
    ensures AskPeak(pod, Mem) == 0 == AskPeak(pod, Cores) ==> ok
    ensures AskPeak(pod, Mem) != 0 || AskPeak(pod, Cores) != 0 ==>
      ok == Fits(quota.reg, quota.ledger, pod.ns, AskPeak(pod, Mem), Nvidia.MemoryFactor(quota.reg), AskPeak(pod, Cores), NVIDIA)
  {
    var appMem, appCores := AppRequests(pod);
    var mem, cores, peakMem, peakCores := InitRequests(pod);
    OnlyAppsAsked(pod, |pod.reqs|, Mem);
    OnlyAppsAsked(pod, |pod.reqs|, Cores);
    var memReq, coresReq := Max(peakMem, mem + appMem), Max(peakCores, cores + appCores);
    if memReq == 0 && coresReq == 0 {
      return true;
    }
    ok := quota.FitQuota(pod.ns, memReq, Nvidia.MemoryFactor(quota.reg), coresReq, NVIDIA);
  }

  // ---------- Admission asks for no more than placement charges ----------

  ghost function PartOn(pod: Pod, rows: PodSingleDevice, n: nat, k: Kind, r: Res): DeviceId -> nat
    requires n <= |rows|
  {
    d => PartUse(pod, rows, n, k, d, r)
  }

  ghost function LiveOn(pod: Pod, rows: PodSingleDevice, n: nat, r: Res): DeviceId -> nat
    requires n <= |rows|
  {
    d => LiveUse(pod, rows, n, d, r)
  }

  ghost function StepOn(pod: Pod, rows: PodSingleDevice, n: nat, r: Res): DeviceId -> nat
    requires n < |rows|
  {
    d => StepUse(pod, rows, n, d, r)
  }

  ghost function PeakOn(pod: Pod, rows: PodSingleDevice, n: nat, r: Res): DeviceId -> nat
    requires n <= |rows|
  {
    d => PeakUse(pod, rows, n, d, r)
  }

  /** Every row grants what its container asked. */
  ghost predicate Covered(pod: Pod, rows: PodSingleDevice, r: Res) {
    |rows| == |pod.reqs| && forall i :: 0 <= i < |rows| ==> Ask(pod, i, r) <= RowTotal(rows[i], r)
  }

  lemma {:induction false} AskPartLe(pod: Pod, rows: PodSingleDevice, ids: set<DeviceId>, n: nat, k: Kind, r: Res)
    requires Covered(pod, rows, r) && CoversRows(ids, rows) && n <= |rows|
    ensures AskPart(pod, n, k, r) <= SumSet(ids, PartOn(pod, rows, n, k, r))
  {
    if n > 0 {
      AskPartLe(pod, rows, ids, n - 1, k, r);
      if pod.KindAt(n - 1) == k {
        RowTotalBySet(ids, rows[n - 1], r);
        SumSetPlus(ids, PartOn(pod, rows, n - 1, k, r), UseOf(rows[n - 1], r), PartOn(pod, rows, n, k, r));
      } else {
        SumSetEqual(ids, PartOn(pod, rows, n - 1, k, r), PartOn(pod, rows, n, k, r));
      }
    }
  }

  lemma AskLiveLe(pod: Pod, rows: PodSingleDevice, ids: set<DeviceId>, n: nat, r: Res)
    requires Covered(pod, rows, r) && CoversRows(ids, rows) && n <= |rows|
    ensures AskLive(pod, n, r) <= SumSet(ids, LiveOn(pod, rows, n, r))
  {
    AskPartLe(pod, rows, ids, n, Sidecar, r);
    AskPartLe(pod, rows, ids, n, App, r);
    SumSetPlus(ids, PartOn(pod, rows, n, Sidecar, r), PartOn(pod, rows, n, App, r), LiveOn(pod, rows, n, r));
  }

  lemma AskStepLe(pod: Pod, rows: PodSingleDevice, ids: set<DeviceId>, n: nat, r: Res)
    requires Covered(pod, rows, r) && CoversRows(ids, rows) && n < |rows|
    ensures AskLive(pod, n, r) + Ask(pod, n, r) <= SumSet(ids, StepOn(pod, rows, n, r))
  {
    AskLiveLe(pod, rows, ids, n, r);
    RowTotalBySet(ids, rows[n], r);
    SumSetPlus(ids, LiveOn(pod, rows, n, r), UseOf(rows[n], r), StepOn(pod, rows, n, r));
  }

  lemma StepBelowPeak(pod: Pod, rows: PodSingleDevice, ids: set<DeviceId>, n: nat, r: Res)
    requires 0 < n <= |rows|
    ensures SumSet(ids, PeakOn(pod, rows, n - 1, r)) <= SumSet(ids, PeakOn(pod, rows, n, r))
    ensures pod.KindAt(n - 1) != App ==> SumSet(ids, StepOn(pod, rows, n - 1, r)) <= SumSet(ids, PeakOn(pod, rows, n, r))
  {
    SumSetMono(ids, ids, PeakOn(pod, rows, n - 1, r), PeakOn(pod, rows, n, r));
    if pod.KindAt(n - 1) != App { SumSetMono(ids, ids, StepOn(pod, rows, n - 1, r), PeakOn(pod, rows, n, r)); }
  }

  /** The maximum of the sums stays below the sum of the maxima. */
  lemma {:induction false} AskInitLe(pod: Pod, rows: PodSingleDevice, ids: set<DeviceId>, n: nat, r: Res)
    requires Covered(pod, rows, r) && CoversRows(ids, rows) && n <= |rows|
    ensures AskInit(pod, n, r) <= SumSet(ids, PeakOn(pod, rows, n, r))
  {
    if n > 0 {
      AskInitLe(pod, rows, ids, n - 1, r);
      StepBelowPeak(pod, rows, ids, n, r);
      if pod.KindAt(n - 1) != App { AskStepLe(pod, rows, ids, n - 1, r); }
    }
  }

  lemma StagesBelowCollapsed(pod: Pod, rows: PodSingleDevice, ids: set<DeviceId>, r: Res)
    requires InitRowsDistinct(pod, rows)
    ensures SumSet(ids, PeakOn(pod, rows, |rows|, r)) <= SumSet(ids, CollapsedOf(pod, rows, r))
    ensures SumSet(ids, LiveOn(pod, rows, |rows|, r)) <= SumSet(ids, CollapsedOf(pod, rows, r))
  {
    forall d ensures PeakUse(pod, rows, |rows|, d, r) <= Collapsed(pod, rows, d).Of(r) && LiveUse(pod, rows, |rows|, d, r) <= Collapsed(pod, rows, d).Of(r) {
      CollapsedIsEffective(pod, rows, d, r);
    }
    SumSetMono(ids, ids, PeakOn(pod, rows, |rows|, r), CollapsedOf(pod, rows, r));
    SumSetMono(ids, ids, LiveOn(pod, rows, |rows|, r), CollapsedOf(pod, rows, r));
  }

  lemma AskPeakLe(pod: Pod, rows: PodSingleDevice, r: Res)
    requires Covered(pod, rows, r) && InitRowsDistinct(pod, rows)
    ensures AskPeak(pod, r) <= RowTotal(CollapsedRow(pod, NVIDIA, rows), r)
  {
    var ids := AllIds(rows);
    assert CoversRows(ids, rows);
    CollapsedTotal(ids, pod, NVIDIA, rows, r);
    AskInitLe(pod, rows, ids, |rows|, r);
    AskLiveLe(pod, rows, ids, |rows|, r);
    StagesBelowCollapsed(pod, rows, ids, r);
  }

  lemma {:induction false} GrantedTotal(row: ContainerDevices, each: nat, r: Res)
    requires forall x :: 0 <= x < |row| ==> row[x].Use().Of(r) >= each
    ensures |row| * each <= RowTotal(row, r)
  {
    if row != [] { GrantedTotal(row[..|row| - 1], each, r); }
  }

  lemma RowCovers(start: Snapshot, sel: Selection, pod: Pod, rows: PodSingleDevice, i: nat, r: Res)
    requires Placed(start, sel, pod, NVIDIA, rows) && i < |rows| && r != Slots
    ensures Ask(pod, i, r) <= RowTotal(rows[i], r) && Distinct(rows[i])
  {
    assert StepOk(start, sel, pod, NVIDIA, rows[..i], rows[i]);
    if NVIDIA in pod.reqs[i] {
      var req, row := pod.reqs[i][NVIDIA], rows[i];
      var each := if r == Mem then req.memreq else Max(req.coresreq, 0);
      forall x | 0 <= x < |row| ensures row[x].Use().Of(r) >= each {
        assert Grants(sel, LiveDevs(start, pod, rows[..i])[row[x].uuid], NVIDIA, req,
                      LiveUse(pod, rows[..i], i, row[x].uuid, Cores), pod.uid, row[x]);
      }
      GrantedTotal(row, each, r);
    }
  }

  /** Admission never exceeds the scheduler's charge: the pod-level peak is at most what
      any placement is charged over all its devices. */
  lemma AdmissionBelowCharge(start: Snapshot, sel: Selection, pod: Pod, raw: PodDevices, r: Res)
    requires PlacedAll(start, sel, pod, raw) && Requests(pod, NVIDIA) && r != Slots
    ensures AskPeak(pod, r) <= RowTotal(CollapsedRow(pod, NVIDIA, raw[NVIDIA]), r)
  {
    var rows := raw[NVIDIA];
    forall i | 0 <= i < |rows| ensures Ask(pod, i, r) <= RowTotal(rows[i], r) && Distinct(rows[i]) { RowCovers(start, sel, pod, rows, i, r); }
    AskPeakLe(pod, rows, r);
  }

  /** At the same usage, admission denies nothing the scheduler's quota check accepts. */
  lemma AdmissionNeverStricter(start: Snapshot, sel: Selection, pod: Pod, raw: PodDevices, reg: Registry, ledger: Ledger)
    requires PlacedAll(start, sel, pod, raw) && Requests(pod, NVIDIA) && Nvidia.QuotaOk(reg, ledger, pod, raw[NVIDIA])
    ensures Fits(reg, ledger, pod.ns, AskPeak(pod, Mem), Nvidia.MemoryFactor(reg), AskPeak(pod, Cores), NVIDIA)
  {
    AdmissionBelowCharge(start, sel, pod, raw, Mem);
    AdmissionBelowCharge(start, sel, pod, raw, Cores);
  }

  // ---------- The peak, stage by stage ----------

  /** What the containers among the first `n` that run in a stage ask together. */
  function AskStage(pod: Pod, n: nat, stage: nat, r: Res): nat
    requires n <= |pod.reqs|
  {
    if n == 0 then 0 else AskStage(pod, n - 1, stage, r) + if Running(pod, stage, n - 1) then Ask(pod, n - 1, r) else 0
  }

  lemma {:induction false} AskLastStage(pod: Pod, n: nat, r: Res)
    requires n <= |pod.reqs|
    ensures AskStage(pod, n, |pod.sidecars|, r) == AskLive(pod, n, r)
  {
    if n > 0 { AskLastStage(pod, n - 1, r); }
  }

  lemma {:induction false} AskInitStage(pod: Pod, n: nat, s: nat, r: Res)
    requires n <= |pod.reqs| && s < |pod.sidecars|
    ensures n <= s ==> AskStage(pod, n, s, r) == AskLive(pod, n, r)
    ensures n > s ==> AskStage(pod, n, s, r) == AskLive(pod, s, r) + Ask(pod, s, r)
  {
    if n > 0 {
      AskInitStage(pod, n - 1, s, r);
      NoAppsAsked(pod, if n <= |pod.sidecars| then n else |pod.sidecars|, r);
    }
  }

  lemma {:induction false} AskInitCovers(pod: Pod, n: nat, s: nat, r: Res)
    requires s < n <= |pod.reqs| && s < |pod.sidecars|
    ensures AskLive(pod, s, r) + Ask(pod, s, r) <= AskInit(pod, n, r)
  {
    if s < n - 1 { AskInitCovers(pod, n - 1, s, r); }
  }

  lemma {:induction false} AskInitReached(pod: Pod, n: nat, r: Res) returns (s: nat)
    requires n <= |pod.reqs| && AskInit(pod, n, r) > 0
    ensures s < n && s < |pod.sidecars| && AskInit(pod, n, r) == AskLive(pod, s, r) + Ask(pod, s, r)
  {
    if pod.KindAt(n - 1) == App || AskInit(pod, n - 1, r) == AskInit(pod, n, r) {
      s := AskInitReached(pod, n - 1, r);
    } else {
      s := n - 1;
    }
  }

  /** The admission check compares the most that is asked in any stage of the pod's life. */
  lemma AskPeakIsStagePeak(pod: Pod, r: Res)
    requires |pod.sidecars| <= |pod.reqs|
    ensures forall s: nat :: s <= |pod.sidecars| ==> AskStage(pod, |pod.reqs|, s, r) <= AskPeak(pod, r)
    ensures exists s: nat :: s <= |pod.sidecars| && AskStage(pod, |pod.reqs|, s, r) == AskPeak(pod, r)
  {
    var n := |pod.reqs|;
    AskLastStage(pod, n, r);
    forall s: nat | s <= |pod.sidecars| ensures AskStage(pod, n, s, r) <= AskPeak(pod, r) {
      if s < |pod.sidecars| {
        AskInitStage(pod, n, s, r);
        AskInitCovers(pod, n, s, r);
      }
    }
    if AskInit(pod, n, r) > AskLive(pod, n, r) {
      var s := AskInitReached(pod, n, r);
      AskInitStage(pod, n, s, r);
    }
  }

  /** A pod with one container asks the number of devices times the amounts of each. */
  lemma SingleAsk(pod: Pod, req: Request)
    requires pod.sidecars == [] && pod.reqs == [map[NVIDIA := req]] && req.coresreq >= 0
    ensures AskPeak(pod, Mem) == req.nums * req.memreq && AskPeak(pod, Cores) == req.nums * req.coresreq
  {
    AskPeakIsStagePeak(pod, Mem);
    AskPeakIsStagePeak(pod, Cores);
    assert forall r :: AskStage(pod, 1, 0, r) == AskStage(pod, 0, 0, r) + Ask(pod, 0, r);
  }
}
