/** The pieces of a placement simulation: usage of one more container, the peak map,
    and the rows a container adds. */
module Simulation {
  import opened Usages
  import opened Devices
  import opened Lifecycle
  import opened Placement
  import opened Nodes
  import opened Fitting
  import opened QuotaManagers
  import opened Quotas
  import Nvidia

  function PeakUsage(pod: Pod, rows: PodSingleDevice, d: DeviceId): Usage {
    Usage(PeakUse(pod, rows, |rows|, d, Mem), PeakUse(pod, rows, |rows|, d, Cores), PeakUse(pod, rows, |rows|, d, Slots))
  }

  function EffectiveUsage(pod: Pod, rows: PodSingleDevice, d: DeviceId): Usage {
    Usage(Effective(pod, rows, false, d, Mem), Effective(pod, rows, false, d, Cores), Effective(pod, rows, false, d, Slots))
  }

  /** The devices while the containers placed so far keep running. */
  function Live(start: Snapshot, pod: Pod, pd: PodDevices): Snapshot {
    map d | d in start :: WithLive(start[d], pod, Rows(pd, start[d].info.vendor))
  }

  /** The highest usage each device saw while the init containers placed so far ran. */
  function Peaks(start: Snapshot, pod: Pod, pd: PodDevices): map<DeviceId, Usage> {
    map d | d in start :: start[d].use.Plus(PeakUsage(pod, Rows(pd, start[d].info.vendor), d))
  }

  /** The devices charged with the collapsed usage of the pod. */
  function Reserved(start: Snapshot, pod: Pod, pd: PodDevices): Snapshot {
    map d | d in start :: start[d].(use := start[d].use.Plus(EffectiveUsage(pod, Rows(pd, start[d].info.vendor), d)))
  }

  // ---------- One container, device by device ----------

  lemma LiveStepUsage(dev: DeviceUsage, pod: Pod, rows: PodSingleDevice, row: ContainerDevices)
    ensures WithLive(dev, pod, rows + [row]) ==
      if pod.KindAt(|rows|) == OrdinaryInit then WithLive(dev, pod, rows) else WithRow(WithLive(dev, pod, rows), row)
  {
    var d := dev.info.id;
    LiveStep(pod, rows, row, d, Mem);
    LiveStep(pod, rows, row, d, Cores);
    LiveStep(pod, rows, row, d, Slots);
  }

  lemma MaxShift(base: nat, peak: nat, a: nat, b: nat)
    requires peak == Max(a, b)
    ensures base + peak == Max(base + a, base + b)
  {
  }

  lemma PeakStepOf(base: nat, pod: Pod, rows: PodSingleDevice, row: ContainerDevices, d: DeviceId, r: Res)
    requires pod.KindAt(|rows|) != App
    ensures base + PeakUse(pod, rows + [row], |rows| + 1, d, r) ==
      Max(base + PeakUse(pod, rows, |rows|, d, r), base + (LiveUse(pod, rows, |rows|, d, r) + RowUse(row, d, r)))
  {
    LiveStep(pod, rows, row, d, r);
    MaxShift(base, PeakUse(pod, rows + [row], |rows| + 1, d, r), PeakUse(pod, rows, |rows|, d, r), LiveUse(pod, rows, |rows|, d, r) + RowUse(row, d, r));
  }

  lemma JoinedOf(base: Usage, now: Usage, was: Usage, running: Usage, r: Res)
    requires base.Of(r) + now.Of(r) == Max(base.Of(r) + was.Of(r), running.Of(r))
    ensures base.Plus(now).Of(r) == base.Plus(was).Join(running).Of(r)
  {
  }

  lemma PeakUsageOf(pod: Pod, rows: PodSingleDevice, d: DeviceId, r: Res)
    ensures PeakUsage(pod, rows, d).Of(r) == PeakUse(pod, rows, |rows|, d, r)
  {
  }

  lemma RunningOf(dev: DeviceUsage, pod: Pod, rows: PodSingleDevice, row: ContainerDevices, r: Res)
    ensures WithRow(WithLive(dev, pod, rows), row).use.Of(r) ==
      dev.use.Of(r) + LiveUse(pod, rows, |rows|, dev.info.id, r) + RowUse(row, dev.info.id, r)
  {
  }

  lemma PeakStepAt(dev: DeviceUsage, pod: Pod, rows: PodSingleDevice, row: ContainerDevices, r: Res)
    requires pod.KindAt(|rows|) != App
    ensures dev.use.Plus(PeakUsage(pod, rows + [row], dev.info.id)).Of(r) ==
      dev.use.Plus(PeakUsage(pod, rows, dev.info.id)).Join(WithRow(WithLive(dev, pod, rows), row).use).Of(r)
  {
    PeakUsageOf(pod, rows + [row], dev.info.id, r);
    PeakUsageOf(pod, rows, dev.info.id, r);
    RunningOf(dev, pod, rows, row, r);
    PeakStepOf(dev.use.Of(r), pod, rows, row, dev.info.id, r);
    JoinedOf(dev.use, PeakUsage(pod, rows + [row], dev.info.id), PeakUsage(pod, rows, dev.info.id),
             WithRow(WithLive(dev, pod, rows), row).use, r);
  }

  lemma SameCounters(a: Usage, b: Usage)
    requires forall r :: a.Of(r) == b.Of(r)
    ensures a == b
  {
    assert a.Of(Mem) == b.Of(Mem) && a.Of(Cores) == b.Of(Cores) && a.Of(Slots) == b.Of(Slots);
  }

  lemma AppPeakAt(pod: Pod, rows: PodSingleDevice, row: ContainerDevices, d: DeviceId, r: Res)
    requires pod.KindAt(|rows|) == App
    ensures PeakUsage(pod, rows + [row], d).Of(r) == PeakUsage(pod, rows, d).Of(r)
  {
    assert |rows + [row]| == |rows| + 1;
    LiveStep(pod, rows, row, d, r);
  }

  lemma PeakStepUsage(dev: DeviceUsage, pod: Pod, rows: PodSingleDevice, row: ContainerDevices)
    ensures pod.KindAt(|rows|) == App ==> PeakUsage(pod, rows + [row], dev.info.id) == PeakUsage(pod, rows, dev.info.id)
    ensures pod.KindAt(|rows|) != App ==>
      dev.use.Plus(PeakUsage(pod, rows + [row], dev.info.id)) ==
      dev.use.Plus(PeakUsage(pod, rows, dev.info.id)).Join(WithRow(WithLive(dev, pod, rows), row).use)
  {
    var d := dev.info.id;
    if pod.KindAt(|rows|) == App {
      var a, b := PeakUsage(pod, rows + [row], d), PeakUsage(pod, rows, d);
      forall r ensures a.Of(r) == b.Of(r) { AppPeakAt(pod, rows, row, d, r); }
      SameCounters(a, b);
    } else {
      var a := dev.use.Plus(PeakUsage(pod, rows + [row], d));
      var b := dev.use.Plus(PeakUsage(pod, rows, d)).Join(WithRow(WithLive(dev, pod, rows), row).use);
      forall r ensures a.Of(r) == b.Of(r) { PeakStepAt(dev, pod, rows, row, r); }
      SameCounters(a, b);
    }
  }

  lemma NoRowUse(dev: DeviceUsage)
    ensures WithRow(dev, []) == dev
  {
  }

  /** A container without a request leaves the init peak where it is. */
  lemma PeakUnmoved(dev: DeviceUsage, pod: Pod, rows: PodSingleDevice)
    requires |rows| < |pod.sidecars|
    ensures dev.use.Plus(PeakUsage(pod, rows + [[]], dev.info.id)) == dev.use.Plus(PeakUsage(pod, rows, dev.info.id))
  {
    var d := dev.info.id;
    PeakStepUsage(dev, pod, rows, []);
    NoRowUse(WithLive(dev, pod, rows));
    InitLiveBelowPeak(pod, rows, |rows|, d, Mem);
    InitLiveBelowPeak(pod, rows, |rows|, d, Cores);
    InitLiveBelowPeak(pod, rows, |rows|, d, Slots);
  }

  // ---------- The peak map ----------

  method SnapshotPeakUsage(node: NodeUsage) returns (peak: map<DeviceId, Usage>)
    requires node.Valid()
    ensures peak == map d | d in node.dev :: node.dev[d].use
  {
    peak := map[];
    for i := 0 to |node.order|
      invariant peak == map d | d in node.order[..i] :: node.dev[d].use
    {
      peak := peak[node.order[i] := node.dev[node.order[i]].use];
    }
    assert forall d :: d in node.order[..|node.order|] <==> d in node.dev;
  }

  function Joined(peak: map<DeviceId, Usage>, devs: Snapshot): map<DeviceId, Usage> {
    map d | d in peak && d in devs :: peak[d].Join(devs[d].use)
  }

  /** The larger of the recorded and the current usage, for every device. */
  method UpdatePeakUsage(peak: map<DeviceId, Usage>, node: NodeUsage) returns (peak': map<DeviceId, Usage>)
    requires node.Valid() && peak.Keys == node.dev.Keys
    ensures peak' == Joined(peak, node.dev)
  {
    peak' := peak;
    for i := 0 to |node.order|
      invariant peak'.Keys == peak.Keys
      invariant forall j :: 0 <= j < i ==> peak'[node.order[j]] == peak[node.order[j]].Join(node.dev[node.order[j]].use)
      invariant forall j :: i <= j < |node.order| ==> peak'[node.order[j]] == peak[node.order[j]]
    {
      var d := node.order[i];
      var u := node.dev[d].use;
      var p := peak'[d];
      if u.slots > p.slots {
        p := p.(slots := u.slots);
      }
      if u.cores > p.cores {
        p := p.(cores := u.cores);
      }
      if u.mem > p.mem {
        p := p.(mem := u.mem);
      }
      peak' := peak'[d := p];
    }
    assert forall d :: d in peak ==> d in node.order;
  }

  function Raised(dev: DeviceUsage, app: DeviceUsage, peak: Usage): DeviceUsage {
    dev.(use := app.use.Join(peak))
  }

  /** Writes the larger of the steady and the peak usage back to the node. */
  method ApplyPeakUsage(node: NodeUsage, app: NodeUsage, peak: map<DeviceId, Usage>)
    requires node.Valid() && app.Valid() && node != app
    requires peak.Keys == node.dev.Keys && app.dev.Keys == node.dev.Keys
    modifies node`dev
    ensures node.Valid()
    ensures node.dev == map d | d in old(node.dev) :: Raised(old(node.dev)[d], app.dev[d], peak[d])
  {
    var order, was, steady := node.order, node.dev, app.dev;
    var now: Snapshot := map[];
    for i := 0 to |order|
      invariant forall d :: d in now <==> d in order[..i]
      invariant forall d :: d in now ==> now[d] == Raised(was[d], steady[d], peak[d])
    {
      now := now[order[i] := Raised(was[order[i]], steady[order[i]], peak[order[i]])];
    }
    assert order[..|order|] == order;
    node.dev := now;
  }

  // ---------- Rows of one container ----------

  /** Container `n` added one row to every type in `types`: a placed one where it asks
      for the type, an empty one elsewhere. */
  ghost predicate Stepped(devs: Snapshot, sel: Selection, pod: Pod, types: set<string>, pd: PodDevices, pd': PodDevices, n: nat) {
    && n < |pod.reqs| && Typed(devs, pd')
    && (forall t :: TypeStepped(devs, sel, pod, types, Rows(pd, t), Rows(pd', t), t, n))
  }

  ghost predicate TypeStepped(devs: Snapshot, sel: Selection, pod: Pod, types: set<string>, before: PodSingleDevice,
                              rows: PodSingleDevice, t: string, n: nat)
    requires n < |pod.reqs|
  {
    if t in types then
      && |before| == n && |rows| == n + 1 && rows == before + [rows[n]]
      && if t in pod.reqs[n] then IsBackend(t) && RowOk(devs, sel, pod, t, pod.reqs[n][t], before, rows[n]) else rows[n] == []
    else before == [] && rows == []
  }

  /** Every device with the grants of container `n` added. */
  function Moved(devs: Snapshot, pd: PodDevices, n: nat): Snapshot {
    map d | d in devs :: WithRow(devs[d], RowAt(pd, devs[d].info.vendor, n))
  }

  method Pad(pd: PodDevices, types: set<string>, n: nat) returns (pd': PodDevices)
    ensures pd'.Keys == pd.Keys + (set t | t in types && |Rows(pd, t)| == n)
    ensures forall t :: Rows(pd', t) == if t in types && |Rows(pd, t)| == n then Rows(pd, t) + [[]] else Rows(pd, t)
  {
    pd' := pd;
    var todo := types;
    while todo != {}
      invariant todo <= types
      invariant pd'.Keys == pd.Keys + (set t | t in types && t !in todo && |Rows(pd, t)| == n)
      invariant forall t :: Rows(pd', t) == if t in types && t !in todo && |Rows(pd, t)| == n then Rows(pd, t) + [[]] else Rows(pd, t)
    {
      var t :| t in todo;
      if |Rows(pd', t)| == n {
        pd' := pd'[t := Rows(pd', t) + [[]]];
      }
      todo := todo - {t};
    }
  }

  lemma PadTyped(devs: Snapshot, pd: PodDevices, pd': PodDevices)
    requires Typed(devs, pd) && forall t :: Rows(pd', t) == Rows(pd, t) || Rows(pd', t) == Rows(pd, t) + [[]]
    ensures Typed(devs, pd')
  {
    forall t, i | t in pd' && 0 <= i < |pd'[t]| ensures RowTyped(devs, t, pd'[t][i]) {
      assert Rows(pd', t) == pd'[t];
      if i < |Rows(pd, t)| { assert pd'[t][i] == pd[t][i] && RowTyped(devs, t, pd[t][i]); }
    }
  }

  /** Rows of length `n` for the types that matter, and none for the others. */
  ghost predicate Aligned(types: set<string>, pd: PodDevices, n: nat) {
    forall t :: |Rows(pd, t)| == if t in types then n else 0
  }

  lemma FittedStepped(devs: Snapshot, now: Snapshot, sel: Selection, pod: Pod, types: set<string>, pd: PodDevices, mid: PodDevices,
                      pd': PodDevices, n: nat)
    requires n < |pod.reqs| && pod.reqs[n].Keys <= types && Aligned(types, pd, n)
    requires Booking(devs, now, sel, pod, pod.reqs[n], pd, mid, pod.reqs[n].Keys, n)
    requires forall t :: Rows(pd', t) == if t in types && |Rows(mid, t)| == n then Rows(mid, t) + [[]] else Rows(mid, t)
    ensures Stepped(devs, sel, pod, types, pd, pd', n) && now == Moved(devs, pd', n)
  {
    PadTyped(devs, mid, pd');
    forall t ensures TypeStepped(devs, sel, pod, types, Rows(pd, t), Rows(pd', t), t, n) {
      assert |Rows(pd, t)| == if t in types then n else 0;
      if t in pod.reqs[n] {
        assert TypeFitted(devs, sel, pod, pod.reqs[n], Rows(pd, t), mid[t], t, n);
      } else {
        assert Rows(mid, t) == Rows(pd, t);
      }
    }
    forall d | d in devs ensures now[d] == Moved(devs, pd', n)[d] {
      var t := devs[d].info.vendor;
      assert TypeStepped(devs, sel, pod, types, Rows(pd, t), Rows(pd', t), t, n);
      if t in pod.reqs[n] {
        assert TypeFitted(devs, sel, pod, pod.reqs[n], Rows(pd, t), mid[t], t, n);
        assert RowAt(pd', t, n) == RowAt(mid, t, n);
      } else {
        assert RowAt(pd', t, n) == [];
        NoRowUse(devs[d]);
      }
    }
  }

  lemma PaddedAnswers(devs: Snapshot, now: Snapshot, sel: Selection, pod: Pod, types: set<string>, pd: PodDevices, mid: PodDevices,
                      pd': PodDevices, n: nat, reg: Registry, ledger: Ledger)
    requires n < |pod.reqs| && Booking(devs, now, sel, pod, pod.reqs[n], pd, mid, pod.reqs[n].Keys, n)
    requires Answered(devs, sel, pod, pod.reqs[n], pd, reg, ledger, mid, pod.reqs[n].Keys, n)
    requires forall t :: Rows(pd', t) == if t in types && |Rows(mid, t)| == n then Rows(mid, t) + [[]] else Rows(mid, t)
    ensures Answered(devs, sel, pod, pod.reqs[n], pd, reg, ledger, pd', pod.reqs[n].Keys, n)
  {
    forall t | t in pod.reqs[n] ensures RowAt(pd', t, n) == RowAt(mid, t, n) {
      assert TypeFitted(devs, sel, pod, pod.reqs[n], Rows(pd, t), mid[t], t, n);
      assert Rows(pd', t) == Rows(mid, t);
    }
  }

  /** Places container `n` and pads the types it does not ask for. */
  method PlaceContainer(node: NodeUsage, pod: Pod, sel: Selection, quota: QuotaManager, types: set<string>, pd: PodDevices, n: nat)
    returns (ok: bool, pd': PodDevices)
    requires node.Valid() && Typed(node.dev, pd) && n < |pod.reqs| && pod.reqs[n].Keys <= types && Aligned(types, pd, n)
    modifies node
    ensures node.Valid()
    ensures ok ==> Stepped(old(node.dev), sel, pod, types, pd, pd', n) && node.dev == Moved(old(node.dev), pd', n)
    ensures ok && NVIDIA in pod.reqs[n] ==> Nvidia.QuotaOk(quota.reg, quota.ledger, pod, Rows(pd', NVIDIA))
    ensures ok ==> Answered(old(node.dev), sel, pod, pod.reqs[n], pd, quota.reg, quota.ledger, pd', pod.reqs[n].Keys, n)
    ensures !ok ==> Refuses(old(node.dev), sel, pod, pod.reqs[n], pd, quota.reg, quota.ledger)
  {
    ok, pd' := FitInDevices(node, pod.reqs[n], pod, sel, quota, pd, n);
    if ok {
      ghost var mid := pd';
      pd' := Pad(pd', types, n);
      FittedStepped(old(node.dev), node.dev, sel, pod, types, pd, mid, pd', n);
      PaddedAnswers(old(node.dev), node.dev, sel, pod, types, pd, mid, pd', n, quota.reg, quota.ledger);
      if NVIDIA in pod.reqs[n] {
        assert TypeFitted(old(node.dev), sel, pod, pod.reqs[n], Rows(pd, NVIDIA), mid[NVIDIA], NVIDIA, n);
        assert Rows(pd', NVIDIA) == Rows(mid, NVIDIA);
      }
    }
  }

  lemma PadStepped(devs: Snapshot, sel: Selection, pod: Pod, types: set<string>, pd: PodDevices, pd': PodDevices, n: nat)
    requires n < |pod.reqs| && pod.reqs[n] == map[] && Typed(devs, pd) && Aligned(types, pd, n)
    requires forall t :: Rows(pd', t) == if t in types && |Rows(pd, t)| == n then Rows(pd, t) + [[]] else Rows(pd, t)
    ensures Stepped(devs, sel, pod, types, pd, pd', n) && Moved(devs, pd', n) == devs
  {
    PadTyped(devs, pd, pd');
    forall t ensures TypeStepped(devs, sel, pod, types, Rows(pd, t), Rows(pd', t), t, n) {
      assert |Rows(pd, t)| == if t in types then n else 0;
    }
    forall d | d in devs ensures Moved(devs, pd', n)[d] == devs[d] {
      var t := devs[d].info.vendor;
      assert TypeStepped(devs, sel, pod, types, Rows(pd, t), Rows(pd', t), t, n);
      assert RowAt(pd', t, n) == [];
      NoRowUse(devs[d]);
    }
  }
}
