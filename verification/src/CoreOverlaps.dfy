/** A run in which two pods get the same neuron core: the cached mask of a pod is the integer
    maximum over its stages, and a large mask hides a small one. */
module CoreOverlaps {
  import opened Usages
  import opened Devices
  import opened Lifecycle
  import opened Masks
  import opened Neuron
  import opened NeuronRuns

  /** Every container got the first free run of cores. */
  ghost predicate FirstOn(node: Inventory, used: DeviceId -> nat, pod: Pod, rows: PodSingleDevice) {
    forall i :: 0 <= i < |rows| ==> Distinct(rows[i]) && forall x :: 0 <= x < |rows[i]| ==> FirstEntry(node, used, pod, rows, i, rows[i][x])
  }

  ghost predicate FirstEntry(node: Inventory, used: DeviceId -> nat, pod: Pod, rows: PodSingleDevice, i: nat, e: ContainerDevice)
    requires i <= |rows|
  {
    e.uuid in node && FirstFree(Simulated(used(e.uuid), pod, rows, i, e.uuid), node[e.uuid], e.cores, Ones(e.cores))
  }

  lemma FirstIsPlaced(node: Inventory, used: DeviceId -> nat, pod: Pod, rows: PodSingleDevice)
    requires FirstOn(node, used, pod, rows)
    ensures PlacedOn(node, used, pod, rows)
  {
    forall i, x | 0 <= i < |rows| && 0 <= x < |rows[i]| ensures FreeEntry(node, used, pod, rows, i, rows[i][x]) {
      assert FirstEntry(node, used, pod, rows, i, rows[i][x]);
    }
  }

  // ---------- The grants ----------

  lemma FirstSingle(used: nat)
    requires And(used, 1) == 0
    ensures FirstFree(used, 15, 1, 1)
  {
    assert Run(0, 1) == 1;
    assert FreeRun(used, 15, 0, 1);
  }

  lemma SecondSingle()
    ensures FirstFree(1, 15, 2, 1)
  {
    assert Run(0, 1) == 1 && Run(1, 1) == 2;
    assert !FreeRun(1, 15, 0, 1) && FreeRun(1, 15, 1, 1);
  }

  lemma FirstPair()
    ensures FirstFree(2, 15, 12, 2)
  {
    assert Run(0, 2) == 3 && Run(1, 2) == 6 && Run(2, 2) == 12;
    assert !FreeRun(2, 15, 0, 2) && !FreeRun(2, 15, 1, 2) && FreeRun(2, 15, 2, 2);
  }

  // ---------- The pods ----------

  function Row(d: DeviceId, mask: nat): ContainerDevices {
    [ContainerDevice(d, "", 0, mask, 1)]
  }

  /** A pod with one container. */
  function Plain(d: DeviceId, mask: nat): Holding {
    Holding(Pod("", "", "", [], []), [Row(d, mask)], false)
  }

  /** A pod with an ordinary init container and one container. */
  function Staged(d: DeviceId, init: nat, app: nat): Holding {
    Holding(Pod("", "", "", [false], []), [Row(d, init), Row(d, app)], false)
  }

  lemma RowMask(d: DeviceId, mask: nat)
    ensures RowUse(Row(d, mask), d, Cores) == mask && Distinct(Row(d, mask))
  {
    RowUseDistinct(Row(d, mask), Cores, 0);
  }

  lemma PlainMask(d: DeviceId, mask: nat)
    ensures StageMask(Plain(d, mask), 0, d) == mask && ChargedMask(Plain(d, mask), d) == mask
  {
    RowMask(d, mask);
    var h := Plain(d, mask);
    assert Running(h.pod, 0, 0) && StageUse(h.pod, h.rows, 0, 0, d, Cores) == 0;
    var s := ChargedIsStage(h, d);
  }

  lemma StagedMasks(d: DeviceId, init: nat, app: nat)
    ensures StageMask(Staged(d, init, app), 0, d) == init && StageMask(Staged(d, init, app), 1, d) == app
    ensures ChargedMask(Staged(d, init, app), d) == Max(init, app)
  {
    RowMask(d, init);
    RowMask(d, app);
    var h := Staged(d, init, app);
    assert Running(h.pod, 0, 0) && !Running(h.pod, 0, 1) && !Running(h.pod, 1, 0) && Running(h.pod, 1, 1);
    assert StageUse(h.pod, h.rows, 1, 0, d, Cores) == init && StageUse(h.pod, h.rows, 1, 1, d, Cores) == 0;
    var s := ChargedIsStage(h, d);
    assert Stage(h, 0) && Stage(h, 1);
  }

  lemma PlainFirst(node: Inventory, used: DeviceId -> nat, d: DeviceId, mask: nat)
    requires d in node && FirstFree(used(d), node[d], mask, Ones(mask))
    ensures FirstOn(node, used, Plain(d, mask).pod, Plain(d, mask).rows)
  {
  }

  lemma StagedFirst(node: Inventory, used: DeviceId -> nat, d: DeviceId, init: nat, app: nat)
    requires d in node && FirstFree(used(d), node[d], init, Ones(init)) && FirstFree(used(d), node[d], app, Ones(app))
    ensures FirstOn(node, used, Staged(d, init, app).pod, Staged(d, init, app).rows)
  {
    var h := Staged(d, init, app);
    assert h.pod.KindAt(0) == OrdinaryInit;
    assert Simulated(used(d), h.pod, h.rows, 1, d) == Simulated(used(d), h.pod, h.rows, 0, d) == used(d);
  }

  // ---------- The run ----------

  function Overlap(d: DeviceId): seq<CoreStep> {
    [Place(Plain(d, 1)), Place(Plain(d, 2)), Leave(0), Place(Staged(d, 1, 12)), Place(Plain(d, 1))]
  }

  /** Every pod of the run got the first free cores. */
  ghost predicate AllFirst(node: Inventory, steps: seq<CoreStep>) {
    forall i :: 0 <= i < |steps| && steps[i].Place? ==> FirstStep(node, RunOf(steps[..i]), steps[i].h)
  }

  lemma InUseNone(d: DeviceId)
    ensures InUse([])(d) == 0
  {
    assert ChargedMasks([], d) == [];
  }

  lemma InUseNext(held: seq<Holding>, h: Holding, d: DeviceId)
    ensures InUse(held + [h])(d) == Or(InUse(held)(d), ChargedMask(h, d))
  {
    var masks := ChargedMasks(held + [h], d);
    assert masks[..|held|] == ChargedMasks(held, d);
  }

  /** The states of the run, and the masks of the device in them. */
  lemma OverlapStates(d: DeviceId)
    ensures RunOf(Overlap(d)[..0]) == [] && InUse([])(d) == 0
    ensures RunOf(Overlap(d)[..1]) == [Plain(d, 1)] && InUse([Plain(d, 1)])(d) == 1
    ensures RunOf(Overlap(d)[..3]) == [Plain(d, 2)] && InUse([Plain(d, 2)])(d) == 2
    ensures RunOf(Overlap(d)[..4]) == [Plain(d, 2), Staged(d, 1, 12)] && InUse([Plain(d, 2), Staged(d, 1, 12)])(d) == 14
    ensures RunOf(Overlap(d)) == [Plain(d, 2), Staged(d, 1, 12), Plain(d, 1)]
  {
    OverlapRun(d);
    InUseNone(d);
    PlainMask(d, 1);
    PlainMask(d, 2);
    StagedMasks(d, 1, 12);
    InUseNext([], Plain(d, 1), d);
    InUseNext([], Plain(d, 2), d);
    InUseNext([Plain(d, 2)], Staged(d, 1, 12), d);
    assert [] + [Plain(d, 1)] == [Plain(d, 1)] && [] + [Plain(d, 2)] == [Plain(d, 2)];
    assert [Plain(d, 2)] + [Staged(d, 1, 12)] == [Plain(d, 2), Staged(d, 1, 12)];
    assert Or(2, 12) == 14;
  }

  lemma NextState(steps: seq<CoreStep>, n: nat)
    requires n < |steps|
    ensures RunOf(steps[..n + 1]) == After(RunOf(steps[..n]), steps[n])
  {
    assert steps[..n + 1][..n] == steps[..n];
  }

  lemma OverlapRun(d: DeviceId)
    ensures RunOf(Overlap(d)[..0]) == [] && RunOf(Overlap(d)[..1]) == [Plain(d, 1)] && RunOf(Overlap(d)[..3]) == [Plain(d, 2)]
    ensures RunOf(Overlap(d)[..4]) == [Plain(d, 2), Staged(d, 1, 12)]
    ensures RunOf(Overlap(d)) == [Plain(d, 2), Staged(d, 1, 12), Plain(d, 1)]
  {
    var steps := Overlap(d);
    forall n | 0 <= n < 5 ensures RunOf(steps[..n + 1]) == After(RunOf(steps[..n]), steps[n]) { NextState(steps, n); }
    assert RunOf(steps[..1]) == After([], steps[0]) == [Plain(d, 1)];
    assert RunOf(steps[..2]) == [Plain(d, 1), Plain(d, 2)];
    assert RunOf(steps[..3]) == [Plain(d, 2)];
    assert RunOf(steps[..4]) == [Plain(d, 2), Staged(d, 1, 12)];
    assert steps[..5] == steps;
  }

  /** A placement takes the first free cores of the devices as rebuilt. */
  ghost predicate FirstStep(node: Inventory, held: seq<Holding>, h: Holding) {
    FirstOn(node, InUse(held), h.pod, h.rows)
  }

  lemma PlainStep(d: DeviceId, held: seq<Holding>, mask: nat)
    requires FirstFree(InUse(held)(d), 15, mask, Ones(mask))
    ensures FirstStep(map[d := 15], held, Plain(d, mask))
  {
    PlainFirst(map[d := 15], InUse(held), d, mask);
  }

  lemma StagedStep(d: DeviceId, held: seq<Holding>, init: nat, app: nat)
    requires FirstFree(InUse(held)(d), 15, init, Ones(init)) && FirstFree(InUse(held)(d), 15, app, Ones(app))
    ensures FirstStep(map[d := 15], held, Staged(d, init, app))
  {
    StagedFirst(map[d := 15], InUse(held), d, init, app);
  }

  lemma OverlapSteps(d: DeviceId)
    ensures FirstStep(map[d := 15], [], Plain(d, 1)) && FirstStep(map[d := 15], [Plain(d, 1)], Plain(d, 2))
    ensures FirstStep(map[d := 15], [Plain(d, 2)], Staged(d, 1, 12))
    ensures FirstStep(map[d := 15], [Plain(d, 2), Staged(d, 1, 12)], Plain(d, 1))
  {
    OverlapStates(d);
    assert Ones(1) == 1 && Ones(2) == 1 && Ones(12) == 2;
    FirstSingle(0);
    PlainStep(d, [], 1);
    SecondSingle();
    PlainStep(d, [Plain(d, 1)], 2);
    FirstSingle(2);
    FirstPair();
    StagedStep(d, [Plain(d, 2)], 1, 12);
    FirstSingle(14);
    PlainStep(d, [Plain(d, 2), Staged(d, 1, 12)], 1);
  }

  lemma OverlapFirst(d: DeviceId)
    ensures AllFirst(map[d := 15], Overlap(d))
  {
    OverlapRun(d);
    OverlapSteps(d);
  }

  /** A run that gives every container the first free cores is possible. */
  lemma {:induction false} FirstPossible(node: Inventory, steps: seq<CoreStep>)
    requires AllFirst(node, steps)
    requires forall i :: 0 <= i < |steps| && steps[i].Place? ==> !steps[i].h.released
    requires forall i :: 0 <= i < |steps| && !steps[i].Place? ==> steps[i].i < |RunOf(steps[..i])|
    ensures Possible(node, steps)
  {
    if steps != [] {
      var front, last := steps[..|steps| - 1], steps[|steps| - 1];
      forall i | 0 <= i < |front| ensures front[..i] == steps[..i] {}
      FirstPossible(node, front);
      if last.Place? { FirstIsPlaced(node, InUse(RunOf(front)), last.h.pod, last.h.rows); }
    }
  }

  /** Two pods on one core: every container gets the first free cores of a device of four.
      The third pod's init container gets the first core and its container the last two. It
      is cached with the larger mask, so the first core goes to the fourth pod as well. */
  lemma MaximumHidesCores(d: DeviceId)
    ensures var node, steps := map[d := 15], Overlap(d);
      Possible(node, steps) && AllFirst(node, steps) && !FullStage(Staged(d, 1, 12), d)
      && |RunOf(steps)| == 3 && !RunApart(RunOf(steps)[1], RunOf(steps)[2], d)
  {
    OverlapFirst(d);
    OverlapRun(d);
    FirstPossible(map[d := 15], Overlap(d));
    OverlapMeets(d);
  }

  lemma OverlapMeets(d: DeviceId)
    ensures !FullStage(Staged(d, 1, 12), d) && !RunApart(Staged(d, 1, 12), Plain(d, 1), d)
  {
    PlainMask(d, 1);
    StagedMasks(d, 1, 12);
    assert And(1, 1) == 1 && And(12, 1) == 0;
    HiddenMask(Staged(d, 1, 12), d, 0);
    SharedMask(Staged(d, 1, 12), Plain(d, 1), d, 0, 0);
  }

  lemma HiddenMask(h: Holding, d: DeviceId, s: nat)
    requires Stage(h, s) && !Part(StageMask(h, s, d), ChargedMask(h, d))
    ensures !FullStage(h, d)
  {
    CoveredIff(h, d);
  }

  lemma SharedMask(a: Holding, b: Holding, d: DeviceId, s: nat, t: nat)
    requires Stage(a, s) && Stage(b, t) && And(StageMask(a, s, d), StageMask(b, t, d)) != 0
    ensures !RunApart(a, b, d)
  {
  }
}
