/** Placing a whole pod on a node: containers are simulated one by one on copies of
    the node while the peak usage is tracked. */
module Scoring {
  import opened Usages
  import opened Devices
  import opened Placement
  import opened Nodes
  import opened Fitting
  import opened Simulation
  import opened QuotaManagers
  import opened Quotas
  import Nvidia

  /** The first `n` containers are placed, and each passed its quota check. */
  ghost predicate Progress(start: Snapshot, sel: Selection, pod: Pod, types: set<string>, pd: PodDevices, n: nat) {
    && n <= |pod.reqs| && Aligned(types, pd, n) && Typed(start, pd)
    && (forall t :: t in types ==> PlacedSoFar(start, sel, pod, t, Rows(pd, t)))
    && (forall i, t :: 0 <= i < n && t in pod.reqs[i] ==> IsBackend(t))
  }

  ghost predicate QuotaPassed(reg: Registry, ledger: Ledger, pod: Pod, rows: PodSingleDevice) {
    forall i :: 0 <= i < |rows| && i < |pod.reqs| && NVIDIA in pod.reqs[i] ==> Nvidia.QuotaOk(reg, ledger, pod, rows[..i + 1])
  }

  /** Only the devices a row names matter for it, and those follow its own type. */
  lemma RowOkLocal(start: Snapshot, sel: Selection, pod: Pod, t: string, req: Request, pd: PodDevices, row: ContainerDevices)
    requires RowOk(Live(start, pod, pd), sel, pod, t, req, Rows(pd, t), row)
    ensures RowOk(LiveDevs(start, pod, Rows(pd, t)), sel, pod, t, req, Rows(pd, t), row)
  {
    forall x | 0 <= x < |row| ensures row[x].uuid in start && Live(start, pod, pd)[row[x].uuid] == LiveDevs(start, pod, Rows(pd, t))[row[x].uuid] { }
  }

  lemma TypedSame(start: Snapshot, pod: Pod, pd: PodDevices, pd': PodDevices)
    requires Typed(Live(start, pod, pd), pd')
    ensures Typed(start, pd')
  {
    forall t, i | t in pd' && 0 <= i < |pd'[t]| ensures RowTyped(start, t, pd'[t][i]) {
      assert RowTyped(Live(start, pod, pd), t, pd'[t][i]);
    }
  }

  lemma TypedLive(start: Snapshot, pod: Pod, pd: PodDevices)
    requires Typed(start, pd)
    ensures Typed(Live(start, pod, pd), pd)
  {
    forall t, i | t in pd && 0 <= i < |pd[t]| ensures RowTyped(Live(start, pod, pd), t, pd[t][i]) {
      assert RowTyped(start, t, pd[t][i]);
    }
  }

  lemma ProgressStep(start: Snapshot, sel: Selection, pod: Pod, types: set<string>, pd: PodDevices, pd': PodDevices, n: nat)
    requires Progress(start, sel, pod, types, pd, n) && n < |pod.reqs| && pod.reqs[n].Keys <= types
    requires Stepped(Live(start, pod, pd), sel, pod, types, pd, pd', n)
    ensures Progress(start, sel, pod, types, pd', n + 1)
  {
    var devs := Live(start, pod, pd);
    TypedSame(start, pod, pd, pd');
    forall t ensures |Rows(pd', t)| == if t in types then n + 1 else 0 {
      assert TypeStepped(devs, sel, pod, types, Rows(pd, t), Rows(pd', t), t, n);
    }
    forall t | t in types ensures PlacedSoFar(start, sel, pod, t, Rows(pd', t)) {
      assert TypeStepped(devs, sel, pod, types, Rows(pd, t), Rows(pd', t), t, n);
      if t in pod.reqs[n] { RowOkLocal(start, sel, pod, t, pod.reqs[n][t], pd, Rows(pd', t)[n]); }
      PlacedExtend(start, sel, pod, t, Rows(pd, t), Rows(pd', t)[n]);
    }
    forall i, t | 0 <= i < n + 1 && t in pod.reqs[i] ensures IsBackend(t) {
      if i == n { assert TypeStepped(devs, sel, pod, types, Rows(pd, t), Rows(pd', t), t, n); }
    }
  }

  lemma QuotaStep(reg: Registry, ledger: Ledger, pod: Pod, rows: PodSingleDevice, row: ContainerDevices)
    requires QuotaPassed(reg, ledger, pod, rows) && |rows| < |pod.reqs|
    requires NVIDIA in pod.reqs[|rows|] ==> Nvidia.QuotaOk(reg, ledger, pod, rows + [row])
    ensures QuotaPassed(reg, ledger, pod, rows + [row])
  {
    var all := rows + [row];
    forall i | 0 <= i < |all| && i < |pod.reqs| && NVIDIA in pod.reqs[i] ensures Nvidia.QuotaOk(reg, ledger, pod, all[..i + 1]) {
      if i < |rows| { assert all[..i + 1] == rows[..i + 1]; } else { assert all[..i + 1] == all; }
    }
  }

  lemma QuotaSteps(reg: Registry, ledger: Ledger, devs: Snapshot, sel: Selection, pod: Pod, types: set<string>, pd: PodDevices,
                   pd': PodDevices, n: nat)
    requires Stepped(devs, sel, pod, types, pd, pd', n) && QuotaPassed(reg, ledger, pod, Rows(pd, NVIDIA)) && pod.reqs[n].Keys <= types
    requires NVIDIA in pod.reqs[n] ==> Nvidia.QuotaOk(reg, ledger, pod, Rows(pd', NVIDIA))
    ensures QuotaPassed(reg, ledger, pod, Rows(pd', NVIDIA))
  {
    assert TypeStepped(devs, sel, pod, types, Rows(pd, NVIDIA), Rows(pd', NVIDIA), NVIDIA, n);
    if NVIDIA in types { QuotaStep(reg, ledger, pod, Rows(pd, NVIDIA), Rows(pd', NVIDIA)[n]); }
  }

  /** The running usage after container `n`. */
  lemma AdvanceLive(start: Snapshot, sel: Selection, pod: Pod, types: set<string>, pd: PodDevices, pd': PodDevices, n: nat)
    requires WellKeyed(start) && Stepped(Live(start, pod, pd), sel, pod, types, pd, pd', n)
    ensures Live(start, pod, pd') ==
      if pod.KindAt(n) == OrdinaryInit then Live(start, pod, pd) else Moved(Live(start, pod, pd), pd', n)
  {
    var devs := Live(start, pod, pd);
    forall d | d in start
      ensures Live(start, pod, pd')[d] == if pod.KindAt(n) == OrdinaryInit then devs[d] else Moved(devs, pd', n)[d]
    {
      var t := start[d].info.vendor;
      assert TypeStepped(devs, sel, pod, types, Rows(pd, t), Rows(pd', t), t, n);
      if t in types {
        LiveStepUsage(start[d], pod, Rows(pd, t), Rows(pd', t)[n]);
      } else {
        NoRowUse(devs[d]);
      }
    }
  }

  /** The init peak after container `n`. */
  lemma AdvancePeak(start: Snapshot, sel: Selection, pod: Pod, types: set<string>, pd: PodDevices, pd': PodDevices, n: nat, d: DeviceId)
    requires WellKeyed(start) && Stepped(Live(start, pod, pd), sel, pod, types, pd, pd', n) && d in start
    ensures Peaks(start, pod, pd')[d] ==
      if pod.KindAt(n) == App then Peaks(start, pod, pd)[d]
      else Peaks(start, pod, pd)[d].Join(Moved(Live(start, pod, pd), pd', n)[d].use)
  {
    var devs, t := Live(start, pod, pd), start[d].info.vendor;
    assert TypeStepped(devs, sel, pod, types, Rows(pd, t), Rows(pd', t), t, n);
    if t in types {
      PeakStepUsage(start[d], pod, Rows(pd, t), Rows(pd', t)[n]);
    } else {
      NoRowUse(devs[d]);
    }
  }

  /** Padding alone moves neither the running usage nor the peak. */
  lemma PadPeak(start: Snapshot, sel: Selection, pod: Pod, types: set<string>, pd: PodDevices, pd': PodDevices, n: nat, d: DeviceId)
    requires WellKeyed(start) && Stepped(Live(start, pod, pd), sel, pod, types, pd, pd', n) && d in start
    requires n < |pod.sidecars| && pod.reqs[n] == map[]
    ensures Peaks(start, pod, pd')[d] == Peaks(start, pod, pd)[d]
  {
    var t := start[d].info.vendor;
    assert TypeStepped(Live(start, pod, pd), sel, pod, types, Rows(pd, t), Rows(pd', t), t, n);
    if t in types { PeakUnmoved(start[d], pod, Rows(pd, t)); }
  }

  // ---------- What the backends answered ----------

  /** The row of the container that follows `before` is what the backend answered. */
  ghost predicate StepServed(start: Snapshot, sel: Selection, pod: Pod, reg: Registry, ledger: Ledger, t: string, before: PodSingleDevice,
                             row: ContainerDevices) {
    |before| < |pod.reqs| && t in pod.reqs[|before|] ==>
      Answers(LiveDevs(start, pod, before), sel, pod, t, pod.reqs[|before|][t], before, reg, ledger, true, row)
  }

  ghost predicate ServedSoFar(start: Snapshot, sel: Selection, pod: Pod, reg: Registry, ledger: Ledger, t: string, rows: PodSingleDevice) {
    forall i :: 0 <= i < |rows| ==> StepServed(start, sel, pod, reg, ledger, t, rows[..i], rows[i])
  }

  ghost predicate ServedRows(start: Snapshot, sel: Selection, pod: Pod, reg: Registry, ledger: Ledger, types: set<string>, pd: PodDevices) {
    forall t :: t in types ==> ServedSoFar(start, sel, pod, reg, ledger, t, Rows(pd, t))
  }

  /** The backend of a type sees the devices of that type only. */
  lemma AnswersLocal(start: Snapshot, sel: Selection, pod: Pod, t: string, req: Request, pd: PodDevices, reg: Registry, ledger: Ledger,
                     ok: bool, row: ContainerDevices)
    requires Answers(Live(start, pod, pd), sel, pod, t, req, Rows(pd, t), reg, ledger, ok, row)
    ensures Answers(LiveDevs(start, pod, Rows(pd, t)), sel, pod, t, req, Rows(pd, t), reg, ledger, ok, row)
  {
    if IsBackend(t) {
      var devs, own := Live(start, pod, pd), LiveDevs(start, pod, Rows(pd, t));
      var list :| ListOf(devs, t, list) && Yields(list, sel, pod, t, req, Rows(pd, t), reg, ledger, ok, row);
      forall d | d in start && start[d].info.vendor == t ensures devs[d] == own[d] {}
      assert ListOf(own, t, list);
    }
  }

  lemma ServedExtend(start: Snapshot, sel: Selection, pod: Pod, reg: Registry, ledger: Ledger, t: string, rows: PodSingleDevice, row: ContainerDevices)
    requires ServedSoFar(start, sel, pod, reg, ledger, t, rows) && StepServed(start, sel, pod, reg, ledger, t, rows, row)
    ensures ServedSoFar(start, sel, pod, reg, ledger, t, rows + [row])
  {
    var all := rows + [row];
    forall i | 0 <= i < |all| ensures StepServed(start, sel, pod, reg, ledger, t, all[..i], all[i]) {
      if i < |rows| { assert all[..i] == rows[..i]; } else { assert all[..i] == rows; }
    }
  }

  lemma ServedStep(start: Snapshot, sel: Selection, pod: Pod, reg: Registry, ledger: Ledger, types: set<string>, pd: PodDevices, pd': PodDevices, n: nat)
    requires ServedRows(start, sel, pod, reg, ledger, types, pd) && n < |pod.reqs| && Aligned(types, pd, n)
    requires Stepped(Live(start, pod, pd), sel, pod, types, pd, pd', n)
    requires Answered(Live(start, pod, pd), sel, pod, pod.reqs[n], pd, reg, ledger, pd', pod.reqs[n].Keys, n)
    ensures ServedRows(start, sel, pod, reg, ledger, types, pd')
  {
    forall t | t in types ensures ServedSoFar(start, sel, pod, reg, ledger, t, Rows(pd', t)) {
      assert TypeStepped(Live(start, pod, pd), sel, pod, types, Rows(pd, t), Rows(pd', t), t, n);
      if t in pod.reqs[n] { AnswersLocal(start, sel, pod, t, pod.reqs[n][t], pd, reg, ledger, true, RowAt(pd', t, n)); }
      assert StepServed(start, sel, pod, reg, ledger, t, Rows(pd, t), Rows(pd', t)[n]);
      ServedExtend(start, sel, pod, reg, ledger, t, Rows(pd, t), Rows(pd', t)[n]);
    }
  }

  // ---------- The simulation ----------

  /** The simulation has placed the first `n` containers and `devs` is what runs. */
  ghost predicate Simulated(start: Snapshot, sel: Selection, pod: Pod, reg: Registry, ledger: Ledger, types: set<string>,
                            pd: PodDevices, n: nat, devs: Snapshot) {
    && WellKeyed(start) && Progress(start, sel, pod, types, pd, n) && QuotaPassed(reg, ledger, pod, Rows(pd, NVIDIA))
    && ServedRows(start, sel, pod, reg, ledger, types, pd) && devs == Live(start, pod, pd)
  }

  /** Type keys that get a row per container: everything requested, and the product
      types the node registers. */
  predicate CoversRequests(pod: Pod, types: set<string>) {
    forall i, t :: 0 <= i < |pod.reqs| && t in pod.reqs[i] ==> t in types
  }

  /** The first `n` containers are placed, but the next cannot be, whatever devices are
      chosen for it. */
  ghost predicate StuckAt(start: Snapshot, sel: Selection, pod: Pod, types: set<string>, pd: PodDevices, n: nat) {
    CoversRequests(pod, types) && Progress(start, sel, pod, types, pd, n) && n < |pod.reqs| && !Fittable(Live(start, pod, pd), sel, pod, pod.reqs[n], pd)
  }

  ghost predicate Stuck(start: Snapshot, sel: Selection, pod: Pod) {
    exists types, pd, n :: StuckAt(start, sel, pod, types, pd, n)
  }

  /** The first `n` containers got rows, and a backend refused the next. */
  ghost predicate RefusedAt(start: Snapshot, sel: Selection, pod: Pod, reg: Registry, ledger: Ledger, types: set<string>, pd: PodDevices, n: nat) {
    && CoversRequests(pod, types) && Simulated(start, sel, pod, reg, ledger, types, pd, n, Live(start, pod, pd))
    && n < |pod.reqs| && Refuses(Live(start, pod, pd), sel, pod, pod.reqs[n], pd, reg, ledger)
  }

  ghost predicate Refused(start: Snapshot, sel: Selection, pod: Pod, reg: Registry, ledger: Ledger) {
    exists types, pd, n :: RefusedAt(start, sel, pod, reg, ledger, types, pd, n)
  }

  lemma Advance(start: Snapshot, sel: Selection, pod: Pod, reg: Registry, ledger: Ledger, types: set<string>, pd: PodDevices,
                pd': PodDevices, n: nat, devs: Snapshot)
    requires Simulated(start, sel, pod, reg, ledger, types, pd, n, devs) && CoversRequests(pod, types)
    requires n < |pod.reqs| && Stepped(devs, sel, pod, types, pd, pd', n)
    requires NVIDIA in pod.reqs[n] ==> Nvidia.QuotaOk(reg, ledger, pod, Rows(pd', NVIDIA))
    requires Answered(devs, sel, pod, pod.reqs[n], pd, reg, ledger, pd', pod.reqs[n].Keys, n)
    ensures Simulated(start, sel, pod, reg, ledger, types, pd', n + 1,
                      if pod.KindAt(n) == OrdinaryInit then devs else Moved(devs, pd', n))
  {
    ProgressStep(start, sel, pod, types, pd, pd', n);
    QuotaSteps(reg, ledger, devs, sel, pod, types, pd, pd', n);
    ServedStep(start, sel, pod, reg, ledger, types, pd, pd', n);
    AdvanceLive(start, sel, pod, types, pd, pd', n);
  }

  lemma JoinedAt(peak: map<DeviceId, Usage>, devs: Snapshot, joined: map<DeviceId, Usage>)
    requires peak.Keys == devs.Keys == joined.Keys && forall d :: d in joined ==> joined[d] == peak[d].Join(devs[d].use)
    ensures joined == Joined(peak, devs)
  {
  }

  lemma PeaksAdvance(start: Snapshot, sel: Selection, pod: Pod, types: set<string>, pd: PodDevices, pd': PodDevices, n: nat)
    requires WellKeyed(start) && Stepped(Live(start, pod, pd), sel, pod, types, pd, pd', n) && n < |pod.sidecars|
    ensures Peaks(start, pod, pd') == Joined(Peaks(start, pod, pd), Moved(Live(start, pod, pd), pd', n))
  {
    var peak, devs, joined := Peaks(start, pod, pd), Moved(Live(start, pod, pd), pd', n), Peaks(start, pod, pd');
    forall d | d in joined ensures joined[d] == peak[d].Join(devs[d].use) {
      AdvancePeak(start, sel, pod, types, pd, pd', n, d);
    }
    JoinedAt(peak, devs, joined);
  }

  lemma PeaksPadded(start: Snapshot, sel: Selection, pod: Pod, types: set<string>, pd: PodDevices, pd': PodDevices, n: nat)
    requires WellKeyed(start) && Stepped(Live(start, pod, pd), sel, pod, types, pd, pd', n)
    requires n < |pod.sidecars| && pod.reqs[n] == map[]
    ensures Peaks(start, pod, pd') == Peaks(start, pod, pd)
  {
    forall d | d in start ensures Peaks(start, pod, pd')[d] == Peaks(start, pod, pd)[d] {
      PadPeak(start, sel, pod, types, pd, pd', n, d);
    }
  }

  /** A container without requests only gets padding rows. */
  method PadContainer(ghost start: Snapshot, ghost sel: Selection, pod: Pod, quota: QuotaManager, types: set<string>, pd: PodDevices,
                      n: nat, ghost devs: Snapshot)
    returns (pd': PodDevices)
    requires Simulated(start, sel, pod, quota.reg, quota.ledger, types, pd, n, devs) && CoversRequests(pod, types)
    requires n < |pod.reqs| && pod.reqs[n] == map[]
    ensures Simulated(start, sel, pod, quota.reg, quota.ledger, types, pd', n + 1, devs)
    ensures Peaks(start, pod, pd') == Peaks(start, pod, pd)
  {
    TypedLive(start, pod, pd);
    pd' := Pad(pd, types, n);
    PadStepped(devs, sel, pod, types, pd, pd', n);
    Advance(start, sel, pod, quota.reg, quota.ledger, types, pd, pd', n, devs);
    if n < |pod.sidecars| {
      PeaksPadded(start, sel, pod, types, pd, pd', n);
    } else {
      PeaksSettled(start, sel, pod, types, pd, pd', n);
    }
  }

  /** A container that keeps running is placed on the node itself. */
  method PlaceStaying(node: NodeUsage, pod: Pod, sel: Selection, quota: QuotaManager, types: set<string>, pd: PodDevices, n: nat,
                      ghost start: Snapshot)
    returns (ok: bool, pd': PodDevices)
    requires node.Valid() && Simulated(start, sel, pod, quota.reg, quota.ledger, types, pd, n, node.dev) && CoversRequests(pod, types)
    requires n < |pod.reqs| && pod.KindAt(n) != OrdinaryInit
    modifies node
    ensures node.Valid()
    ensures ok ==> Simulated(start, sel, pod, quota.reg, quota.ledger, types, pd', n + 1, node.dev)
    ensures ok && n < |pod.sidecars| ==> Peaks(start, pod, pd') == Joined(Peaks(start, pod, pd), node.dev)
    ensures ok && n >= |pod.sidecars| ==> Peaks(start, pod, pd') == Peaks(start, pod, pd)
    ensures !ok ==> RefusedAt(start, sel, pod, quota.reg, quota.ledger, types, pd, n)
  {
    ghost var devs := node.dev;
    TypedLive(start, pod, pd);
    ok, pd' := PlaceContainer(node, pod, sel, quota, types, pd, n);
    if ok {
      Advance(start, sel, pod, quota.reg, quota.ledger, types, pd, pd', n, devs);
      if n < |pod.sidecars| { PeaksAdvance(start, sel, pod, types, pd, pd', n); } else { PeaksSettled(start, sel, pod, types, pd, pd', n); }
    }
  }

  /** An ordinary init container leaves the running usage as it was and can raise the peaks. */
  lemma LeavingAdvances(start: Snapshot, sel: Selection, pod: Pod, reg: Registry, ledger: Ledger, types: set<string>, pd: PodDevices,
                        pd': PodDevices, n: nat, devs: Snapshot)
    requires Simulated(start, sel, pod, reg, ledger, types, pd, n, devs) && CoversRequests(pod, types)
    requires n < |pod.reqs| && pod.KindAt(n) == OrdinaryInit && Stepped(devs, sel, pod, types, pd, pd', n)
    requires NVIDIA in pod.reqs[n] ==> Nvidia.QuotaOk(reg, ledger, pod, Rows(pd', NVIDIA))
    requires Answered(devs, sel, pod, pod.reqs[n], pd, reg, ledger, pd', pod.reqs[n].Keys, n)
    ensures Simulated(start, sel, pod, reg, ledger, types, pd', n + 1, devs) && Moved(devs, pd', n).Keys == start.Keys
    ensures Peaks(start, pod, pd') == Joined(Peaks(start, pod, pd), Moved(devs, pd', n))
  {
    Advance(start, sel, pod, reg, ledger, types, pd, pd', n, devs);
    PeaksAdvance(start, sel, pod, types, pd, pd', n);
  }

  /** An ordinary init container is tried on a copy: it exits before the next starts. */
  method PlaceLeaving(app: NodeUsage, pod: Pod, sel: Selection, quota: QuotaManager, types: set<string>, pd: PodDevices, n: nat,
                      ghost start: Snapshot)
    returns (ok: bool, pd': PodDevices, copy: NodeUsage)
    requires app.Valid() && Simulated(start, sel, pod, quota.reg, quota.ledger, types, pd, n, app.dev) && CoversRequests(pod, types)
    requires n < |pod.reqs| && pod.KindAt(n) == OrdinaryInit
    ensures copy.Valid() && copy != app
    ensures ok ==> Simulated(start, sel, pod, quota.reg, quota.ledger, types, pd', n + 1, app.dev)
    ensures ok ==> copy.dev.Keys == start.Keys && Peaks(start, pod, pd') == Joined(Peaks(start, pod, pd), copy.dev)
    ensures !ok ==> RefusedAt(start, sel, pod, quota.reg, quota.ledger, types, pd, n)
  {
    TypedLive(start, pod, pd);
    copy := new NodeUsage(app.order, app.dev);
    ok, pd' := PlaceContainer(copy, pod, sel, quota, types, pd, n);
    if ok { LeavingAdvances(start, sel, pod, quota.reg, quota.ledger, types, pd, pd', n, app.dev); }
  }

  method PlaceSidecar(app: NodeUsage, pod: Pod, sel: Selection, quota: QuotaManager, types: set<string>, pd: PodDevices,
                      n: nat, peak: map<DeviceId, Usage>, ghost start: Snapshot)
    returns (ok: bool, pd': PodDevices, peak': map<DeviceId, Usage>)
    requires app.Valid() && Simulated(start, sel, pod, quota.reg, quota.ledger, types, pd, n, app.dev) && CoversRequests(pod, types)
    requires n < |pod.sidecars| <= |pod.reqs| && pod.sidecars[n] && peak == Peaks(start, pod, pd)
    modifies app
    ensures app.Valid()
    ensures ok ==> Simulated(start, sel, pod, quota.reg, quota.ledger, types, pd', n + 1, app.dev) && peak' == Peaks(start, pod, pd')
    ensures !ok ==> RefusedAt(start, sel, pod, quota.reg, quota.ledger, types, pd, n)
  {
    peak' := peak;
    ok, pd' := PlaceStaying(app, pod, sel, quota, types, pd, n, start);
    if ok {
      peak' := UpdatePeakUsage(peak, app);
    }
  }

  method PlaceOrdinaryInit(app: NodeUsage, pod: Pod, sel: Selection, quota: QuotaManager, types: set<string>, pd: PodDevices,
                           n: nat, peak: map<DeviceId, Usage>, ghost start: Snapshot)
    returns (ok: bool, pd': PodDevices, peak': map<DeviceId, Usage>)
    requires app.Valid() && Simulated(start, sel, pod, quota.reg, quota.ledger, types, pd, n, app.dev) && CoversRequests(pod, types)
    requires n < |pod.sidecars| <= |pod.reqs| && !pod.sidecars[n] && peak == Peaks(start, pod, pd)
    ensures ok ==> Simulated(start, sel, pod, quota.reg, quota.ledger, types, pd', n + 1, app.dev) && peak' == Peaks(start, pod, pd')
    ensures !ok ==> RefusedAt(start, sel, pod, quota.reg, quota.ledger, types, pd, n)
  {
    peak' := peak;
    var copy;
    ok, pd', copy := PlaceLeaving(app, pod, sel, quota, types, pd, n, start);
    if ok {
      peak' := UpdatePeakUsage(peak, copy);
    }
  }

  method AllocateInitContainers(app: NodeUsage, pod: Pod, sel: Selection, quota: QuotaManager, types: set<string>,
                                peak: map<DeviceId, Usage>, ghost start: Snapshot)
    returns (ok: bool, pd: PodDevices, peak': map<DeviceId, Usage>)
    requires app.Valid() && Simulated(start, sel, pod, quota.reg, quota.ledger, types, map[], 0, app.dev) && CoversRequests(pod, types)
    requires |pod.sidecars| <= |pod.reqs| && peak == Peaks(start, pod, map[])
    modifies app
    ensures app.Valid()
    ensures ok ==> Simulated(start, sel, pod, quota.reg, quota.ledger, types, pd, |pod.sidecars|, app.dev) && peak' == Peaks(start, pod, pd)
    ensures !ok ==> Refused(start, sel, pod, quota.reg, quota.ledger)
  {
    ok, pd, peak' := true, map[], peak;
    for i := 0 to |pod.sidecars|
      invariant app.Valid() && Simulated(start, sel, pod, quota.reg, quota.ledger, types, pd, i, app.dev)
      invariant ok && peak' == Peaks(start, pod, pd)
    {
      if pod.reqs[i] == map[] {
        pd := PadContainer(start, sel, pod, quota, types, pd, i, app.dev);
      } else if pod.sidecars[i] {
        ok, pd, peak' := PlaceSidecar(app, pod, sel, quota, types, pd, i, peak', start);
      } else {
        ok, pd, peak' := PlaceOrdinaryInit(app, pod, sel, quota, types, pd, i, peak', start);
      }
      if !ok {
        return;
      }
    }
  }

  lemma PeaksSettled(start: Snapshot, sel: Selection, pod: Pod, types: set<string>, pd: PodDevices, pd': PodDevices, n: nat)
    requires WellKeyed(start) && Stepped(Live(start, pod, pd), sel, pod, types, pd, pd', n) && n >= |pod.sidecars|
    ensures Peaks(start, pod, pd') == Peaks(start, pod, pd)
  {
    forall d | d in start ensures Peaks(start, pod, pd')[d] == Peaks(start, pod, pd)[d] {
      AdvancePeak(start, sel, pod, types, pd, pd', n, d);
    }
  }

  method AllocateAppContainers(app: NodeUsage, pod: Pod, sel: Selection, quota: QuotaManager, types: set<string>, given: PodDevices,
                               ghost start: Snapshot)
    returns (ok: bool, pd: PodDevices)
    requires app.Valid() && |pod.sidecars| <= |pod.reqs| && CoversRequests(pod, types)
    requires Simulated(start, sel, pod, quota.reg, quota.ledger, types, given, |pod.sidecars|, app.dev)
    modifies app
    ensures app.Valid()
    ensures ok ==> Simulated(start, sel, pod, quota.reg, quota.ledger, types, pd, |pod.reqs|, app.dev)
    ensures ok ==> Peaks(start, pod, pd) == Peaks(start, pod, given)
    ensures !ok ==> Refused(start, sel, pod, quota.reg, quota.ledger)
  {
    ok, pd := true, given;
    for i := |pod.sidecars| to |pod.reqs|
      invariant app.Valid() && Simulated(start, sel, pod, quota.reg, quota.ledger, types, pd, i, app.dev)
      invariant ok && Peaks(start, pod, pd) == Peaks(start, pod, given)
    {
      if pod.reqs[i] == map[] {
        pd := PadContainer(start, sel, pod, quota, types, pd, i, app.dev);
      } else {
        ok, pd := PlaceStaying(app, pod, sel, quota, types, pd, i, start);
        if !ok {
          return;
        }
      }
    }
  }

  // ---------- The whole pod ----------

  lemma NothingPlaced(start: Snapshot, sel: Selection, pod: Pod, reg: Registry, ledger: Ledger, types: set<string>)
    requires WellKeyed(start)
    ensures Simulated(start, sel, pod, reg, ledger, types, map[], 0, start)
    ensures Peaks(start, pod, map[]) == map d | d in start :: start[d].use
  {
    forall d | d in start ensures WithLive(start[d], pod, []) == start[d] && start[d].use.Plus(PeakUsage(pod, [], d)) == start[d].use { }
  }

  /** The larger of peak and steady usage is the collapsed usage of the rows. */
  lemma RaisedIsReserved(start: Snapshot, pod: Pod, pd: PodDevices, d: DeviceId)
    requires WellKeyed(start) && d in start
    ensures Raised(start[d], Live(start, pod, pd)[d], Peaks(start, pod, pd)[d]) == Reserved(start, pod, pd)[d]
  {
  }

  lemma ProgressIsPlacement(start: Snapshot, sel: Selection, pod: Pod, types: set<string>, pd: PodDevices)
    requires Progress(start, sel, pod, types, pd, |pod.reqs|) && CoversRequests(pod, types)
    ensures PlacedAll(start, sel, pod, pd)
  {
    forall t | Requests(pod, t) ensures IsBackend(t) && t in pd && Placed(start, sel, pod, t, pd[t]) {
      var i :| 0 <= i < |pod.reqs| && t in pod.reqs[i];
      assert |Rows(pd, t)| == |pod.reqs|;
    }
    forall t | t in pd && !Requests(pod, t) ensures AllEmpty(pd[t]) {
      assert pd[t] == Rows(pd, t) && |Rows(pd, t)| == if t in types then |pod.reqs| else 0;
      forall i | 0 <= i < |pd[t]| ensures pd[t][i] == [] {
        assert StepOk(start, sel, pod, t, Rows(pd, t)[..i], Rows(pd, t)[i]) && t !in pod.reqs[i];
      }
    }
  }

  /** Places the init containers and then the apps on a copy of the node. */
  method Simulate(node: NodeUsage, pod: Pod, sel: Selection, quota: QuotaManager, types: set<string>)
    returns (ok: bool, raw: PodDevices, app: NodeUsage, peak: map<DeviceId, Usage>)
    requires node.Valid() && |pod.sidecars| <= |pod.reqs| && CoversRequests(pod, types)
    ensures app.Valid() && fresh(app)
    ensures ok ==> Simulated(node.dev, sel, pod, quota.reg, quota.ledger, types, raw, |pod.reqs|, app.dev)
    ensures ok ==> peak == Peaks(node.dev, pod, raw)
    ensures !ok ==> Refused(node.dev, sel, pod, quota.reg, quota.ledger)
  {
    NothingPlaced(node.dev, sel, pod, quota.reg, quota.ledger, types);
    peak := SnapshotPeakUsage(node);
    app := new NodeUsage(node.order, node.dev);
    ok, raw := true, map[];
    if |pod.sidecars| > 0 {
      ok, raw, peak := AllocateInitContainers(app, pod, sel, quota, types, peak, node.dev);
    }
    if ok {
      ok, raw := AllocateAppContainers(app, pod, sel, quota, types, raw, node.dev);
    }
  }

  lemma RaisedAll(start: Snapshot, pod: Pod, pd: PodDevices, now: Snapshot)
    requires WellKeyed(start)
    requires now == map d | d in start :: Raised(start[d], Live(start, pod, pd)[d], Peaks(start, pod, pd)[d])
    ensures now == Reserved(start, pod, pd)
  {
    var all := Reserved(start, pod, pd);
    forall d | d in start ensures d in all && now[d] == all[d] { RaisedIsReserved(start, pod, pd, d); }
    assert now.Keys == all.Keys;
  }

  /** Every row of the placement is what its backend answered after the rows before it. */
  ghost predicate ServedAll(start: Snapshot, sel: Selection, pod: Pod, reg: Registry, ledger: Ledger, raw: PodDevices) {
    forall t :: Requests(pod, t) ==> ServedSoFar(start, sel, pod, reg, ledger, t, Rows(raw, t))
  }

  /** The whole pod has been placed. */
  lemma SimulatedPlaced(start: Snapshot, sel: Selection, pod: Pod, reg: Registry, ledger: Ledger, types: set<string>, raw: PodDevices, devs: Snapshot)
    requires CoversRequests(pod, types) && Simulated(start, sel, pod, reg, ledger, types, raw, |pod.reqs|, devs)
    ensures PlacedAll(start, sel, pod, raw) && Typed(start, raw) && QuotaPassed(reg, ledger, pod, Rows(raw, NVIDIA))
    ensures ServedAll(start, sel, pod, reg, ledger, raw) && devs == Live(start, pod, raw)
  {
    ProgressIsPlacement(start, sel, pod, types, raw);
  }

  /** The types of the node's devices and of the pod's requests. */
  function TypeKeys(devs: Snapshot, pod: Pod): (types: set<string>)
    ensures CoversRequests(pod, types)
  {
    (set d | d in devs :: devs[d].info.typ) + (set i, t | 0 <= i < |pod.reqs| && t in pod.reqs[i] :: t)
  }

  /** Simulates the pod on the node. On success the rows are a placement that passed
      every quota check, and the node is charged exactly their collapsed usage. */
  method ScoreNode(node: NodeUsage, pod: Pod, sel: Selection, quota: QuotaManager) returns (ok: bool, raw: PodDevices)
    requires node.Valid() && |pod.sidecars| <= |pod.reqs|
    modifies node
    ensures node.Valid()
    ensures ok ==> PlacedAll(old(node.dev), sel, pod, raw) && Typed(old(node.dev), raw)
    ensures ok ==> QuotaPassed(quota.reg, quota.ledger, pod, Rows(raw, NVIDIA))
    ensures node.dev == if ok then Reserved(old(node.dev), pod, raw) else old(node.dev)
    ensures ok ==> ServedAll(old(node.dev), sel, pod, quota.reg, quota.ledger, raw)
    ensures !ok ==> Refused(old(node.dev), sel, pod, quota.reg, quota.ledger)
  {
    var types := TypeKeys(node.dev, pod);
    var app, peak;
    ok, raw, app, peak := Simulate(node, pod, sel, quota, types);
    if ok {
      SimulatedPlaced(node.dev, sel, pod, quota.reg, quota.ledger, types, raw, app.dev);
      ApplyPeakUsage(node, app, peak);
      RaisedAll(old(node.dev), pod, raw, node.dev);
    }
  }
}
