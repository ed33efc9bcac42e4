/** Exactly when the rebuilt masks protect the cores that run: a core that a cached mask
    misses is free for the next pod. */
module CoreSharing {
  import opened Devices
  import opened Masks
  import opened Neuron
  import opened NeuronRuns
  import opened CoreOverlaps

  // ---------- Single cores ----------

  /** A core of the first mask that the second lacks. */
  lemma {:induction false} MissedCore(a: nat, b: nat) returns (k: nat)
    requires !Part(a, b)
    ensures Part(Pow2(k), a) && And(b, Pow2(k)) == 0
  {
    if a == 0 {
      assert false;
    } else if a % 2 == 1 && b % 2 == 0 {
      k := 0;
      AndDouble(a / 2, 0, 1, 1);
      AndDouble(b / 2, 0, 0, 1);
    } else {
      AndDouble(b / 2, a / 2, b % 2, a % 2);
      var j := MissedCore(a / 2, b / 2);
      k := j + 1;
      AndDouble(a / 2, Pow2(j), a % 2, 0);
      AndDouble(b / 2, Pow2(j), b % 2, 0);
    }
  }

  /** A core of one of two masks without common cores is not in the other. */
  lemma SharedCore(a: nat, b: nat, k: nat)
    requires Part(Pow2(k), a) && And(a, b) == 0
    ensures And(b, Pow2(k)) == 0
  {
    MissesPart(Pow2(k), a, b);
    AndSymmetric(b, Pow2(k));
  }

  lemma PartWithin(a: nat, b: nat, c: nat)
    requires Part(a, b) && Part(b, c)
    ensures Part(a, c)
  {
    AndAssociative(c, b, a);
  }

  lemma CoreBelow(k: nat, total: nat)
    requires Part(Pow2(k), total) && total < 16
    ensures k < MAX_CORES_PER_NEURON_DEVICE
  {
    PartLe(Pow2(k), total);
    if k >= 4 { PowersGrow(4, k); }
  }

  lemma {:induction false} PowersGrow(j: nat, k: nat)
    requires j <= k
    ensures Pow2(j) <= Pow2(k)
  {
    if j < k { PowersGrow(j, k - 1); }
  }

  // ---------- Held pods stay on their devices ----------

  /** A device registers at most four cores. */
  predicate Sized(node: Inventory) {
    forall d :: d in node ==> node[d] < 16
  }

  /** In no stage does the pod run on a core that a device lacks. */
  ghost predicate Within(node: Inventory, h: Holding) {
    forall s, d :: Stage(h, s) && d in node ==> Part(StageMask(h, s, d), node[d])
  }

  lemma PlacedWithin(node: Inventory, used: DeviceId -> nat, h: Holding)
    requires PlacedOn(node, used, h.pod, h.rows)
    ensures Within(node, h)
  {
    forall s, d | Stage(h, s) && d in node ensures Part(StageMask(h, s, d), node[d]) { StagesFresh(node, used, h, s, d); }
  }

  lemma ReleasedWithin(node: Inventory, h: Holding)
    requires Within(node, h)
    ensures Within(node, h.(released := true))
  {
    var now := h.(released := true);
    forall s, d | Stage(now, s) && d in node ensures Part(StageMask(now, s, d), node[d]) {
      assert Stage(h, s) && StageMask(now, s, d) == StageMask(h, s, d);
    }
  }

  lemma {:induction false} RunWithin(node: Inventory, steps: seq<CoreStep>)
    requires Possible(node, steps)
    ensures forall i :: 0 <= i < |RunOf(steps)| ==> Within(node, RunOf(steps)[i])
  {
    if steps != [] {
      var front, last := steps[..|steps| - 1], steps[|steps| - 1];
      RunWithin(node, front);
      match last
      case Place(h) => PlacedWithin(node, InUse(RunOf(front)), h);
      case InitDone(k) => ReleasedWithin(node, RunOf(front)[k]);
      case Leave(k) =>
    }
  }

  // ---------- A missed core is given away ----------

  /** The rebuilt mask has a core only if some cached mask has it. */
  lemma CoreFree(held: seq<Holding>, d: DeviceId, i: nat, s: nat, k: nat)
    requires i < |held| && Stage(held[i], s) && Part(Pow2(k), StageMask(held[i], s, d)) && And(ChargedMask(held[i], d), Pow2(k)) == 0
    requires forall j :: 0 <= j < |held| && j != i ==> RunApart(held[i], held[j], d)
    ensures And(InUse(held)(d), Pow2(k)) == 0
  {
    var masks := ChargedMasks(held, d);
    forall j | 0 <= j < |masks| ensures And(masks[j], Pow2(k)) == 0 {
      if j != i {
        var t := ChargedIsStage(held[j], d);
        assert RunApart(held[i], held[j], d);
        SharedCore(StageMask(held[i], s, d), StageMask(held[j], t, d), k);
      }
    }
    MeetsJoined(masks, Pow2(k));
  }

  lemma CoreRun(used: nat, total: nat, k: nat)
    requires k < MAX_CORES_PER_NEURON_DEVICE && Part(Pow2(k), total) && And(used, Pow2(k)) == 0
    ensures FreeMask(used, total, Pow2(k), Ones(Pow2(k)))
  {
    assert Run(k, 1) == Pow2(k);
    RunOnes(k, 1);
    assert FreeRun(used, total, k, 1);
  }

  /** A pod that asks for one free core can be placed on it. */
  lemma CorePlaced(node: Inventory, held: seq<Holding>, d: DeviceId, k: nat)
    requires d in node && k < MAX_CORES_PER_NEURON_DEVICE && Part(Pow2(k), node[d]) && And(InUse(held)(d), Pow2(k)) == 0
    ensures Enabled(node, held, Place(Plain(d, Pow2(k))))
  {
    CoreRun(InUse(held)(d), node[d], k);
    var h := Plain(d, Pow2(k));
    assert FreeEntry(node, InUse(held), h.pod, h.rows, 0, h.rows[0][0]);
  }

  lemma ApartBoth(a: Holding, b: Holding, d: DeviceId)
    requires RunApart(a, b, d)
    ensures RunApart(b, a, d)
  {
    forall s, t | Stage(b, s) && Stage(a, t) ensures And(StageMask(b, s, d), StageMask(a, t, d)) == 0 {
      AndSymmetric(StageMask(b, s, d), StageMask(a, t, d));
    }
  }

  lemma ApartFrom(node: Inventory, held: seq<Holding>, i: nat, d: DeviceId)
    requires AllApart(node, held) && i < |held| && d in node
    ensures forall j :: 0 <= j < |held| && j != i ==> RunApart(held[i], held[j], d)
  {
    forall j | 0 <= j < |held| && j != i ensures RunApart(held[i], held[j], d) {
      if j < i { ApartBoth(held[j], held[i], d); }
    }
  }

  /** A held pod that is not covered: the next pod can be placed on a core it runs on. */
  lemma MissedIsShared(node: Inventory, held: seq<Holding>, i: nat, d: DeviceId) returns (h: Holding)
    requires Sized(node) && AllApart(node, held) && i < |held| && d in node && Within(node, held[i]) && !Covered(held[i], d)
    ensures Enabled(node, held, Place(h)) && !RunApart(held[i], h, d)
  {
    var s: nat :| Stage(held[i], s) && !Part(StageMask(held[i], s, d), ChargedMask(held[i], d));
    var k := MissedCore(StageMask(held[i], s, d), ChargedMask(held[i], d));
    ApartFrom(node, held, i, d);
    CoreFree(held, d, i, s, k);
    PartWithin(Pow2(k), StageMask(held[i], s, d), node[d]);
    CoreBelow(k, node[d]);
    CorePlaced(node, held, d, k);
    h := Plain(d, Pow2(k));
    PlainMask(d, Pow2(k));
    SharedMask(held[i], h, d, s, 0);
  }

  // ---------- Runs ----------

  /** Whatever pod is placed next, no two pods run on the same core. */
  ghost predicate Protected(node: Inventory, held: seq<Holding>) {
    forall h :: Enabled(node, held, Place(h)) ==> AllApart(node, held + [h])
  }

  lemma CoveredProtects(node: Inventory, held: seq<Holding>)
    requires AllCovered(node, held) && AllApart(node, held)
    ensures Protected(node, held)
  {
    forall h | Enabled(node, held, Place(h)) ensures AllApart(node, held + [h]) {
      forall i, j, d | 0 <= i < j < |held + [h]| && d in node ensures RunApart((held + [h])[i], (held + [h])[j], d) {
        if j == |held| { PlacedApart(node, held, h, i, d); }
      }
    }
  }

  lemma ApartPrefix(node: Inventory, held: seq<Holding>, h: Holding)
    requires AllApart(node, held + [h])
    ensures AllApart(node, held)
  {
    forall i, j, d | 0 <= i < j < |held| && d in node ensures RunApart(held[i], held[j], d) {
      assert RunApart((held + [h])[i], (held + [h])[j], d);
    }
  }

  lemma NotApart(node: Inventory, held: seq<Holding>, h: Holding, i: nat, d: DeviceId)
    requires i < |held| && d in node && !RunApart(held[i], h, d)
    ensures !AllApart(node, held + [h])
  {
    assert !RunApart((held + [h])[i], (held + [h])[|held|], d);
  }

  lemma MissedUnprotects(node: Inventory, held: seq<Holding>, i: nat, d: DeviceId)
    requires Sized(node) && AllApart(node, held) && i < |held| && d in node && Within(node, held[i]) && !Covered(held[i], d)
    ensures !Protected(node, held)
  {
    var h := MissedIsShared(node, held, i, d);
    NotApart(node, held, h, i, d);
  }

  lemma ProtectedCovers(node: Inventory, held: seq<Holding>)
    requires Sized(node) && Protected(node, held) && forall i :: 0 <= i < |held| ==> Within(node, held[i])
    ensures AllCovered(node, held) && AllApart(node, held)
  {
    var none := Holding(Pod("", "", "", [], []), [], false);
    assert Enabled(node, held, Place(none));
    ApartPrefix(node, held, none);
    forall i, d | 0 <= i < |held| && d in node ensures Covered(held[i], d) {
      if !Covered(held[i], d) { MissedUnprotects(node, held, i, d); }
    }
  }

  /** In every state of the run the next pod is kept off the cores that run. */
  ghost predicate AlwaysProtected(node: Inventory, steps: seq<CoreStep>) {
    Protected(node, RunOf(steps)) && (steps != [] ==> AlwaysProtected(node, steps[..|steps| - 1]))
  }

  /** No state of a run lets the next pod onto a core that runs, exactly when each placed pod
      has a stage that uses all its cores. */
  lemma {:induction false} ProtectedIff(node: Inventory, steps: seq<CoreStep>)
    requires Sized(node) && Possible(node, steps)
    ensures AlwaysProtected(node, steps) <==> AllFull(node, steps)
  {
    if AllFull(node, steps) { FullProtects(node, steps); }
    if AlwaysProtected(node, steps) {
      ProtectedCovered(node, steps);
      AlwaysCoveredIff(node, steps);
    }
  }

  lemma {:induction false} FullProtects(node: Inventory, steps: seq<CoreStep>)
    requires Possible(node, steps) && AllFull(node, steps)
    ensures AlwaysProtected(node, steps)
  {
    RunInvariant(node, steps);
    CoveredProtects(node, RunOf(steps));
    if steps != [] {
      var front, last := steps[..|steps| - 1], steps[|steps| - 1];
      assert steps == front + [last];
      AllFullLast(node, front, last);
      FullProtects(node, front);
    }
  }

  lemma {:induction false} ProtectedCovered(node: Inventory, steps: seq<CoreStep>)
    requires Sized(node) && Possible(node, steps) && AlwaysProtected(node, steps)
    ensures AlwaysCovered(node, steps)
  {
    RunWithin(node, steps);
    ProtectedCovers(node, RunOf(steps));
    if steps != [] { ProtectedCovered(node, steps[..|steps| - 1]); }
  }
}
