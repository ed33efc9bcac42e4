/** Neuron cores over time. A pod is cached with its collapsed masks: sums of the masks that
    run together, and an integer maximum over the stages of its life. Devices are rebuilt by
    joining the cached masks. When this covers every core that runs, and that then no core
    is held by two pods. */
module NeuronRuns {
  import opened Usages
  import opened Devices
  import opened Collapse
  import opened Lifecycle
  import opened Masks
  import opened Neuron

  /** A held pod: the rows of its containers, with a mask where other types have a number of
      cores, and whether its ordinary init containers have been released. */
  datatype Holding = Holding(pod: Pod, rows: PodSingleDevice, released: bool)

  /** The cores of every device of the node. */
  type Inventory = map<DeviceId, nat>

  /** The stages a held pod can still be in: one per init container, and the last. */
  predicate Stage(h: Holding, s: nat) {
    s <= |h.pod.sidecars| && (h.released ==> s == |h.pod.sidecars|)
  }

  /** The cores of `d` on which containers of the pod run in a stage. */
  function StageMask(h: Holding, s: nat, d: DeviceId): nat {
    StageUse(h.pod, h.rows, |h.rows|, s, d, Cores)
  }

  /** The mask the pod is cached with. */
  function ChargedMask(h: Holding, d: DeviceId): nat {
    Effective(h.pod, h.rows, h.released, d, Cores)
  }

  /** The cached row of the pod carries the charged mask. */
  lemma CachedMask(h: Holding, t: string, d: DeviceId)
    requires InitRowsDistinct(h.pod, h.rows)
    ensures RowUse(if h.released then SteadyRow(h.pod, t, h.rows) else CollapsedRow(h.pod, t, h.rows), d, Cores) == ChargedMask(h, d)
  {
    if h.released {
      SteadyRowUse(h.pod, t, h.rows, d, Cores);
    } else {
      CollapsedRowUse(h.pod, t, h.rows, d, Cores);
      CollapsedIsEffective(h.pod, h.rows, d, Cores);
    }
  }

  // ---------- When the cached mask covers what runs ----------

  /** The cached mask has every core on which the pod runs in some stage. */
  ghost predicate Covered(h: Holding, d: DeviceId) {
    forall s :: Stage(h, s) ==> Part(StageMask(h, s, d), ChargedMask(h, d))
  }

  /** Some stage uses every core that any stage uses. */
  ghost predicate FullStage(h: Holding, d: DeviceId) {
    exists s :: Stage(h, s) && forall t :: Stage(h, t) ==> Part(StageMask(h, t, d), StageMask(h, s, d))
  }

  /** The charge is the number of the largest stage mask. */
  lemma ChargedIsStage(h: Holding, d: DeviceId) returns (s: nat)
    ensures Stage(h, s) && ChargedMask(h, d) == StageMask(h, s, d)
    ensures forall t :: Stage(h, t) ==> StageMask(h, t, d) <= ChargedMask(h, d)
  {
    EffectiveIsPeak(h.pod, h.rows, d, Cores);
    if h.released {
      s := |h.pod.sidecars|;
    } else {
      s :| 0 <= s <= |h.pod.sidecars| && StageUse(h.pod, h.rows, |h.rows|, s, d, Cores) == Effective(h.pod, h.rows, false, d, Cores);
    }
  }

  /** The cached mask covers what runs exactly when some stage of the pod uses every core
      that any of its stages uses. */
  lemma CoveredIff(h: Holding, d: DeviceId)
    ensures Covered(h, d) <==> FullStage(h, d)
  {
    var c := ChargedIsStage(h, d);
    if FullStage(h, d) {
      var s :| Stage(h, s) && forall t :: Stage(h, t) ==> Part(StageMask(h, t, d), StageMask(h, s, d));
      PartLe(StageMask(h, c, d), StageMask(h, s, d));
    }
  }

  /** A pod without init containers is always covered, and so is one whose init containers
      have been released. */
  lemma LastStageCovered(h: Holding, d: DeviceId)
    requires h.released || h.pod.sidecars == []
    ensures Covered(h, d)
  {
    forall s | Stage(h, s) ensures Part(StageMask(h, s, d), ChargedMask(h, d)) {
      EffectiveIsPeak(h.pod, h.rows, d, Cores);
      var c := ChargedIsStage(h, d);
      PartRefl(StageMask(h, s, d));
    }
  }

  // ---------- Placing a pod ----------

  /** The mask of a device while container `n` is placed: what was used, joined with the
      masks of the pod's containers that still run. */
  function Simulated(used: nat, pod: Pod, rows: PodSingleDevice, n: nat, d: DeviceId): nat
    requires n <= |rows|
  {
    if n == 0 then used
    else
      var before := Simulated(used, pod, rows, n - 1, d);
      if pod.KindAt(n - 1) == OrdinaryInit then before else Or(before, RowUse(rows[n - 1], d, Cores))
  }

  /** Every container got runs of cores that were free when it was placed, one per device. */
  ghost predicate PlacedOn(node: Inventory, used: DeviceId -> nat, pod: Pod, rows: PodSingleDevice) {
    forall i :: 0 <= i < |rows| ==> Distinct(rows[i]) && forall x :: 0 <= x < |rows[i]| ==> FreeEntry(node, used, pod, rows, i, rows[i][x])
  }

  ghost predicate FreeEntry(node: Inventory, used: DeviceId -> nat, pod: Pod, rows: PodSingleDevice, i: nat, e: ContainerDevice)
    requires i <= |rows|
  {
    e.uuid in node && FreeMask(Simulated(used(e.uuid), pod, rows, i, e.uuid), node[e.uuid], e.cores, Ones(e.cores))
  }

  /** The list the fit is given: devices of the node, each once, with the simulated masks. */
  ghost predicate Lists(node: Inventory, used: DeviceId -> nat, pod: Pod, rows: PodSingleDevice, i: nat, devices: seq<NeuronDevice>)
    requires i <= |rows|
  {
    && (forall k :: 0 <= k < |devices| ==> devices[k].id in node && devices[k].total == node[devices[k].id])
    && (forall k :: 0 <= k < |devices| ==> devices[k].cores == Simulated(used(devices[k].id), pod, rows, i, devices[k].id))
    && (forall k, l :: 0 <= k < l < |devices| ==> devices[k].id != devices[l].id)
  }

  /** A row that the fit returns for container `i` grants free cores of different devices. */
  lemma FitPlaces(node: Inventory, used: DeviceId -> nat, pod: Pod, rows: PodSingleDevice, i: nat, devices: seq<NeuronDevice>,
                  grants: seq<CoreGrant>, at: seq<nat>, row: ContainerDevices)
    requires i <= |rows| && Lists(node, used, pod, rows, i, devices) && Granted(devices, grants, at) && DifferentDevices(at)
    requires |row| == |grants| && forall x :: 0 <= x < |row| ==> row[x].uuid == grants[x].id && row[x].cores == grants[x].mask
    ensures Distinct(row) && forall x :: 0 <= x < |row| ==> FreeEntry(node, used, pod, rows, i, row[x])
  {
    forall x | 0 <= x < |row| ensures FreeEntry(node, used, pod, rows, i, row[x]) { assert GrantedOn(devices[at[x]], grants[x]); }
    forall x, y | 0 <= x < y < |row| ensures row[x].uuid != row[y].uuid {
      assert at[x] != at[y] && GrantedOn(devices[at[x]], grants[x]) && GrantedOn(devices[at[y]], grants[y]);
      if at[x] < at[y] { assert devices[at[x]].id != devices[at[y]].id; } else { assert devices[at[y]].id != devices[at[x]].id; }
    }
  }

  /** What container `i` holds on `d` was free when it was placed. */
  predicate FreeAt(used: nat, total: nat, pod: Pod, rows: PodSingleDevice, i: nat, d: DeviceId)
    requires i < |rows|
  {
    And(Simulated(used, pod, rows, i, d), RowUse(rows[i], d, Cores)) == 0 && Part(RowUse(rows[i], d, Cores), total)
  }

  predicate FreeThroughout(used: nat, total: nat, pod: Pod, rows: PodSingleDevice, d: DeviceId) {
    forall i :: 0 <= i < |rows| ==> FreeAt(used, total, pod, rows, i, d)
  }

  lemma EntryFree(node: Inventory, used: DeviceId -> nat, pod: Pod, rows: PodSingleDevice, i: nat, d: DeviceId)
    requires PlacedOn(node, used, pod, rows) && i < |rows| && d in node
    ensures FreeAt(used(d), node[d], pod, rows, i, d)
  {
    if Names(rows[i], d) {
      var x :| 0 <= x < |rows[i]| && rows[i][x].uuid == d;
      assert FreeEntry(node, used, pod, rows, i, rows[i][x]);
      RowUseDistinct(rows[i], Cores, x);
    } else {
      RowUseUnnamed(rows[i], d, Cores);
    }
  }

  lemma PlacedFree(node: Inventory, used: DeviceId -> nat, pod: Pod, rows: PodSingleDevice, d: DeviceId)
    requires PlacedOn(node, used, pod, rows) && d in node
    ensures FreeThroughout(used(d), node[d], pod, rows, d)
  {
    forall i | 0 <= i < |rows| ensures FreeAt(used(d), node[d], pod, rows, i, d) { EntryFree(node, used, pod, rows, i, d); }
  }

  /** Apart from what was used, and within the device. */
  predicate Fresh(used: nat, total: nat, mask: nat) {
    And(used, mask) == 0 && Part(mask, total)
  }

  /** The simulated mask joins what was used with the sum of what the pod runs. */
  predicate Joins(used: nat, total: nat, simulated: nat, live: nat) {
    simulated == Or(used, live) && Fresh(used, total, live)
  }

  lemma JoinsNext(used: nat, total: nat, simulated: nat, live: nat, m: nat)
    requires Joins(used, total, simulated, live) && And(simulated, m) == 0 && Part(m, total)
    ensures Joins(used, total, Or(simulated, m), live + m)
  {
    MeetsJoin(used, live, m);
    AddIsJoin(live, m);
    OrAssociative(used, live, m);
    MeetsJoin(live, m, used);
    AndSymmetric(used, live);
    AndSymmetric(used, m);
    AndSymmetric(used, Or(live, m));
    PartJoin(live, m, total);
  }

  /** The sums that collapse adds up are the masks that the simulation joined. */
  lemma {:induction false} SumsAreJoins(used: nat, total: nat, pod: Pod, rows: PodSingleDevice, n: nat, d: DeviceId)
    requires FreeThroughout(used, total, pod, rows, d) && n <= |rows|
    ensures Joins(used, total, Simulated(used, pod, rows, n, d), LiveUse(pod, rows, n, d, Cores))
  {
    if n == 0 {
      NoCores(used, total);
    } else {
      SumsAreJoins(used, total, pod, rows, n - 1, d);
      assert FreeAt(used, total, pod, rows, n - 1, d);
      JoinStep(used, total, pod, rows, n, d);
    }
  }

  lemma JoinStep(used: nat, total: nat, pod: Pod, rows: PodSingleDevice, n: nat, d: DeviceId)
    requires 0 < n <= |rows| && FreeAt(used, total, pod, rows, n - 1, d)
    requires Joins(used, total, Simulated(used, pod, rows, n - 1, d), LiveUse(pod, rows, n - 1, d, Cores))
    ensures Joins(used, total, Simulated(used, pod, rows, n, d), LiveUse(pod, rows, n, d, Cores))
  {
    LiveNext(pod, rows, n, d);
    SimulatedNext(used, pod, rows, n, d);
    if pod.KindAt(n - 1) != OrdinaryInit {
      JoinsNext(used, total, Simulated(used, pod, rows, n - 1, d), LiveUse(pod, rows, n - 1, d, Cores), RowUse(rows[n - 1], d, Cores));
    }
  }

  lemma SimulatedNext(used: nat, pod: Pod, rows: PodSingleDevice, n: nat, d: DeviceId)
    requires 0 < n <= |rows|
    ensures Simulated(used, pod, rows, n, d) ==
      var before := Simulated(used, pod, rows, n - 1, d); if pod.KindAt(n - 1) == OrdinaryInit then before else Or(before, RowUse(rows[n - 1], d, Cores))
  {
  }

  lemma LiveNext(pod: Pod, rows: PodSingleDevice, n: nat, d: DeviceId)
    requires 0 < n <= |rows|
    ensures LiveUse(pod, rows, n, d, Cores) ==
      LiveUse(pod, rows, n - 1, d, Cores) + if pod.KindAt(n - 1) == OrdinaryInit then 0 else RowUse(rows[n - 1], d, Cores)
  {
  }

  lemma NoCores(used: nat, total: nat)
    ensures Joins(used, total, used, 0)
  {
  }

  lemma StageFresh(used: nat, total: nat, pod: Pod, rows: PodSingleDevice, s: nat, d: DeviceId)
    requires FreeThroughout(used, total, pod, rows, d) && s <= |pod.sidecars|
    ensures Fresh(used, total, StageUse(pod, rows, |rows|, s, d, Cores))
  {
    SumsAreJoins(used, total, pod, rows, |rows|, d);
    if s == |pod.sidecars| {
      LastStage(pod, rows, |rows|, d, Cores);
    } else {
      InitStage(pod, rows, |rows|, s, d, Cores);
      if s < |rows| {
        SumsAreJoins(used, total, pod, rows, s, d);
        assert FreeAt(used, total, pod, rows, s, d);
        JoinsNext(used, total, Simulated(used, pod, rows, s, d), LiveUse(pod, rows, s, d, Cores), RowUse(rows[s], d, Cores));
      }
    }
  }

  /** In no stage does a placed pod run on a core that was used. */
  lemma StagesFresh(node: Inventory, used: DeviceId -> nat, h: Holding, s: nat, d: DeviceId)
    requires PlacedOn(node, used, h.pod, h.rows) && s <= |h.pod.sidecars| && d in node
    ensures Fresh(used(d), node[d], StageMask(h, s, d))
  {
    PlacedFree(node, used, h.pod, h.rows, d);
    StageFresh(used(d), node[d], h.pod, h.rows, s, d);
  }

  // ---------- Many pods ----------

  /** The mask after joining masks one by one. */
  function Joined(masks: seq<nat>): nat {
    if masks == [] then 0 else Or(Joined(masks[..|masks| - 1]), masks[|masks| - 1])
  }

  function SumOnes(masks: seq<nat>): nat {
    if masks == [] then 0 else SumOnes(masks[..|masks| - 1]) + Ones(masks[|masks| - 1])
  }

  /** The cached masks of a device. */
  function ChargedMasks(held: seq<Holding>, d: DeviceId): (masks: seq<nat>)
    ensures |masks| == |held|
  {
    seq(|held|, i requires 0 <= i < |held| => ChargedMask(held[i], d))
  }

  /** The devices as they are rebuilt from the cached pods. */
  function InUse(held: seq<Holding>): DeviceId -> nat {
    d => Joined(ChargedMasks(held, d))
  }

  lemma {:induction false} MeetsJoined(masks: seq<nat>, m: nat)
    ensures And(Joined(masks), m) == 0 <==> forall i :: 0 <= i < |masks| ==> And(masks[i], m) == 0
  {
    if masks != [] {
      var front, last := masks[..|masks| - 1], masks[|masks| - 1];
      MeetsJoined(front, m);
      MeetsJoin(Joined(front), last, m);
      assert masks == front + [last];
    }
  }

  /** Any two of the masks have no core in common. */
  predicate Disjoint(masks: seq<nat>) {
    forall i, j :: 0 <= i < j < |masks| ==> And(masks[i], masks[j]) == 0
  }

  /** Masks without common cores: as many cores are in use as were granted. */
  lemma {:induction false} DisjointCounts(masks: seq<nat>)
    requires Disjoint(masks)
    ensures Ones(Joined(masks)) == SumOnes(masks)
  {
    if masks != [] {
      var front, last := masks[..|masks| - 1], masks[|masks| - 1];
      DisjointCounts(front);
      forall i | 0 <= i < |front| ensures And(front[i], last) == 0 { assert front[i] == masks[i]; }
      MeetsJoined(front, last);
      OnesJoin(Joined(front), last);
    }
  }

  // ---------- Runs ----------

  datatype CoreStep = Place(h: Holding) | InitDone(i: nat) | Leave(i: nat)

  /** A pod is placed on the devices as rebuilt; a pod's init containers are done; it goes. */
  ghost predicate Enabled(node: Inventory, held: seq<Holding>, s: CoreStep) {
    match s
    case Place(h) => !h.released && PlacedOn(node, InUse(held), h.pod, h.rows)
    case InitDone(i) => i < |held|
    case Leave(i) => i < |held|
  }

  function After(held: seq<Holding>, s: CoreStep): seq<Holding> {
    match s
    case Place(h) => held + [h]
    case InitDone(i) => if i < |held| then held[i := held[i].(released := true)] else held
    case Leave(i) => if i < |held| then held[..i] + held[i + 1..] else held
  }

  function RunOf(steps: seq<CoreStep>): seq<Holding> {
    if steps == [] then [] else After(RunOf(steps[..|steps| - 1]), steps[|steps| - 1])
  }

  ghost predicate Possible(node: Inventory, steps: seq<CoreStep>) {
    steps != [] ==>
      var front, last := steps[..|steps| - 1], steps[|steps| - 1];
      Possible(node, front) && Enabled(node, RunOf(front), last)
  }

  /** Every pod that was placed has, on every device, a stage that uses all its cores. */
  ghost predicate AllFull(node: Inventory, steps: seq<CoreStep>) {
    forall i, d :: 0 <= i < |steps| && steps[i].Place? && d in node ==> FullStage(steps[i].h, d)
  }

  /** The cached masks cover what the held pods run. */
  ghost predicate AllCovered(node: Inventory, held: seq<Holding>) {
    forall i, d :: 0 <= i < |held| && d in node ==> Covered(held[i], d)
  }

  /** Two pods run on different cores of the device, whatever stages they are in. */
  ghost predicate RunApart(a: Holding, b: Holding, d: DeviceId) {
    forall s, t :: Stage(a, s) && Stage(b, t) ==> And(StageMask(a, s, d), StageMask(b, t, d)) == 0
  }

  ghost predicate AllApart(node: Inventory, held: seq<Holding>) {
    forall i, j, d :: 0 <= i < j < |held| && d in node ==> RunApart(held[i], held[j], d)
  }

  /** Fewer stages, the same masks. */
  lemma ReleasedApart(a: Holding, b: Holding, d: DeviceId)
    requires RunApart(a, b, d)
    ensures RunApart(a.(released := true), b, d) && RunApart(a, b.(released := true), d)
  {
    var a', b' := a.(released := true), b.(released := true);
    forall s, t | Stage(a', s) && Stage(b, t) ensures And(StageMask(a', s, d), StageMask(b, t, d)) == 0 {
      assert Stage(a, s) && StageMask(a', s, d) == StageMask(a, s, d);
    }
    forall s, t | Stage(a, s) && Stage(b', t) ensures And(StageMask(a, s, d), StageMask(b', t, d)) == 0 {
      assert Stage(b, t) && StageMask(b', t, d) == StageMask(b, t, d);
    }
  }

  /** A pod placed beside held ones runs apart from each that is covered. */
  lemma PlacedApart(node: Inventory, held: seq<Holding>, h: Holding, i: nat, d: DeviceId)
    requires PlacedOn(node, InUse(held), h.pod, h.rows) && i < |held| && d in node && Covered(held[i], d)
    ensures RunApart(held[i], h, d)
  {
    forall s, t | Stage(held[i], s) && Stage(h, t) ensures And(StageMask(held[i], s, d), StageMask(h, t, d)) == 0 {
      StagesFresh(node, InUse(held), h, t, d);
      MeetsJoined(ChargedMasks(held, d), StageMask(h, t, d));
      assert ChargedMasks(held, d)[i] == ChargedMask(held[i], d);
      MissesPart(StageMask(held[i], s, d), ChargedMask(held[i], d), StageMask(h, t, d));
    }
  }

  lemma PlaceStep(node: Inventory, held: seq<Holding>, h: Holding)
    requires AllCovered(node, held) && AllApart(node, held) && Enabled(node, held, Place(h)) && forall d :: d in node ==> FullStage(h, d)
    ensures AllCovered(node, held + [h]) && AllApart(node, held + [h])
  {
    forall d | d in node ensures Covered(h, d) { CoveredIff(h, d); }
    forall i, j, d | 0 <= i < j < |held + [h]| && d in node ensures RunApart((held + [h])[i], (held + [h])[j], d) {
      if j == |held| { PlacedApart(node, held, h, i, d); }
    }
  }

  lemma InitDoneStep(node: Inventory, held: seq<Holding>, k: nat)
    requires AllCovered(node, held) && AllApart(node, held) && k < |held|
    ensures AllCovered(node, After(held, InitDone(k))) && AllApart(node, After(held, InitDone(k)))
  {
    var now := After(held, InitDone(k));
    forall d | d in node ensures Covered(now[k], d) { LastStageCovered(now[k], d); }
    forall i, j, d | 0 <= i < j < |now| && d in node ensures RunApart(now[i], now[j], d) {
      assert RunApart(held[i], held[j], d);
      ReleasedApart(held[i], held[j], d);
    }
  }

  lemma LeaveStep(node: Inventory, held: seq<Holding>, k: nat)
    requires AllCovered(node, held) && AllApart(node, held) && k < |held|
    ensures AllCovered(node, After(held, Leave(k))) && AllApart(node, After(held, Leave(k)))
  {
    var now := After(held, Leave(k));
    forall i | 0 <= i < |now| ensures now[i] == held[if i < k then i else i + 1] {}
  }

  lemma {:induction false} RunInvariant(node: Inventory, steps: seq<CoreStep>)
    requires Possible(node, steps) && AllFull(node, steps)
    ensures AllCovered(node, RunOf(steps)) && AllApart(node, RunOf(steps))
  {
    if steps != [] {
      var front, last := steps[..|steps| - 1], steps[|steps| - 1];
      assert forall i :: 0 <= i < |front| ==> front[i] == steps[i];
      RunInvariant(node, front);
      match last
      case Place(h) => PlaceStep(node, RunOf(front), h);
      case InitDone(k) => InitDoneStep(node, RunOf(front), k);
      case Leave(k) => LeaveStep(node, RunOf(front), k);
    }
  }

  lemma ChargedDisjoint(node: Inventory, held: seq<Holding>, d: DeviceId)
    requires AllApart(node, held) && d in node
    ensures Disjoint(ChargedMasks(held, d))
  {
    var masks := ChargedMasks(held, d);
    forall i, j | 0 <= i < j < |masks| ensures And(masks[i], masks[j]) == 0 {
      var s := ChargedIsStage(held[i], d);
      var t := ChargedIsStage(held[j], d);
      assert RunApart(held[i], held[j], d);
    }
  }

  /** In every run of placements, releases and removals on a node that starts empty, if each
      placed pod has a stage that uses all its cores: no two held pods ever run on the same
      core, the rebuilt masks have every core that runs, and as many cores are in use as the
      cached masks hold. */
  lemma CoresConserved(node: Inventory, steps: seq<CoreStep>, d: DeviceId)
    requires Possible(node, steps) && AllFull(node, steps) && d in node
    ensures forall i, j :: 0 <= i < j < |RunOf(steps)| ==> RunApart(RunOf(steps)[i], RunOf(steps)[j], d)
    ensures forall i :: 0 <= i < |RunOf(steps)| ==> Covered(RunOf(steps)[i], d)
    ensures Ones(InUse(RunOf(steps))(d)) == SumOnes(ChargedMasks(RunOf(steps), d))
  {
    RunInvariant(node, steps);
    ChargedDisjoint(node, RunOf(steps), d);
    DisjointCounts(ChargedMasks(RunOf(steps), d));
  }

  /** Every state of the run is covered. */
  ghost predicate AlwaysCovered(node: Inventory, steps: seq<CoreStep>) {
    AllCovered(node, RunOf(steps)) && (steps != [] ==> AlwaysCovered(node, steps[..|steps| - 1]))
  }

  lemma LastFull(node: Inventory, held: seq<Holding>, h: Holding)
    requires AllCovered(node, held + [h])
    ensures forall d :: d in node ==> FullStage(h, d)
  {
    forall d | d in node ensures FullStage(h, d) {
      assert Covered((held + [h])[|held|], d);
      CoveredIff(h, d);
    }
  }

  lemma AllFullLast(node: Inventory, front: seq<CoreStep>, last: CoreStep)
    ensures AllFull(node, front + [last]) <==> AllFull(node, front) && (last.Place? ==> forall d :: d in node ==> FullStage(last.h, d))
  {
    var steps := front + [last];
    assert steps[|front|] == last && forall i :: 0 <= i < |front| ==> front[i] == steps[i];
  }

  /** The rebuilt masks have every core that runs, in every state of a run, exactly when each
      placed pod has a stage that uses all its cores. */
  lemma {:induction false} AlwaysCoveredIff(node: Inventory, steps: seq<CoreStep>)
    requires Possible(node, steps)
    ensures AlwaysCovered(node, steps) <==> AllFull(node, steps)
  {
    if steps != [] {
      var front, last := steps[..|steps| - 1], steps[|steps| - 1];
      assert steps == front + [last];
      AlwaysCoveredIff(node, front);
      AllFullLast(node, front, last);
      if AllFull(node, steps) { RunInvariant(node, steps); }
      if AlwaysCovered(node, steps) && last.Place? { LastFull(node, RunOf(front), last.h); }
    }
  }
}
