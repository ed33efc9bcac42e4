/** Runs of the scheduler: pods come and go, events arrive, the scheduler restarts,
    reserves and moves. Every run keeps the cache in step with the annotations; exactly
    which runs keep each safety property in every state. */
module Runs {
  import opened Usages
  import opened Devices
  import opened Lifecycle
  import opened Placement
  import opened Fitting
  import opened Pods
  import opened Snapshots
  import opened Claims
  import opened Worlds
  import opened Assigning
  import opened Relocating
  import opened Rooms

  datatype Step =
    | Create(o: ApiPod)
    | InitDone(u: string, i: nat)
    | Terminate(u: string)
    | Delete(u: string)
    | Remove(u: string)
    | AddEvent(u: string)
    | UpdateEvent(u: string)
    | Drop(u: string)
    | Restart
    | Reserve(u: string, node: string, snap: Snapshot, sel: Selection, raw: PodDevices)
    | Refit(u: string, idx: nat, row: ContainerDevices, mem: nat, cores: nat, sel: Selection, prepared: Snapshot)

  /** When a step can happen. `Drop` is a delete event, the cleanup after a failed bind,
      and a Filter that finds no node or cannot write its annotation. */
  ghost predicate Enabled(cluster: Cluster, w: World, s: Step) {
    match s
    case Create(o) => o.pod.uid !in w.api && o.pod.uid !in w.cache && o.node.None? && o.annos == map[]
    case InitDone(u, _) => u in w.api
    case Terminate(u) => u in w.api
    case Delete(u) => u in w.api
    case Remove(u) => u in w.api
    case AddEvent(u) => u in w.api && u !in w.gone
    case UpdateEvent(u) => u in w.api && u !in w.gone
    case Drop(u) => u in w.api
    case Restart => true
    case Reserve(u, node, snap, sel, raw) => Reservable(cluster, w, u, node, snap, sel, raw)
    case Refit(u, idx, row, mem, cores, sel, prepared) => Refittable(cluster, w, u, idx, row, mem, cores, sel, prepared)
  }

  /** What a step makes of the world. */
  function After(w: World, s: Step): World {
    match s
    case Create(o) => w.(api := w.api[o.pod.uid := o])
    case InitDone(u, i) => if u in w.api then w.(api := w.api[u := w.api[u].(succeeded := w.api[u].succeeded + {i})]) else w
    case Terminate(u) => if u in w.api then w.(api := w.api[u := w.api[u].(terminated := true)]) else w
    case Delete(u) => if u in w.api then w.(api := w.api[u := w.api[u].(terminating := true)]) else w
    case Remove(u) => w.(gone := w.gone + {u})
    case AddEvent(u) => if u in w.api then w.(cache := AfterAdd(w.cache, w.api[u])) else w
    case UpdateEvent(u) => if u in w.api then w.(cache := AfterUpdate(w.cache, w.api[u])) else w
    case Drop(u) => if u in w.api then w.(cache := Taken(w.cache, w.api[u].pod)) else w
    case Restart => w.(cache := map[])
    case Reserve(u, node, _, _, raw) => if u in w.api then Reserved(w, u, node, raw) else w
    case Refit(u, idx, row, _, _, _, _) => if u in w.api && u in w.cache then Refitted(w, u, idx, row) else w
  }

  /** The pod of a step; a restart touches all of them. */
  function Subject(s: Step): string
    requires !s.Restart?
  {
    match s
    case Create(o) => o.pod.uid
    case InitDone(u, _) => u
    case Terminate(u) => u
    case Delete(u) => u
    case Remove(u) => u
    case AddEvent(u) => u
    case UpdateEvent(u) => u
    case Drop(u) => u
    case Reserve(u, _, _, _, _) => u
    case Refit(u, _, _, _, _, _, _) => u
  }

  /** A reservation or refit leaves the pods it does not look at what a law gives them. */
  ghost predicate Guarded(cluster: Cluster, w: World, s: Step, law: Law) {
    match s
    case Reserve(u, node, snap, _, raw) =>
      u in w.api && node in cluster && snap.Keys == cluster[node].Keys && LeavesRoom(cluster, w, u, node, snap, raw, law)
    case Refit(u, idx, row, _, _, _, _) =>
      && u in ClaimsOf(w) && ClaimsOf(w)[u].node in cluster && NVIDIA in ClaimsOf(w)[u].raw && idx < |ClaimsOf(w)[u].raw[NVIDIA]|
      && MoveLeavesRoom(cluster, w, u, idx, row, law)
    case _ => true
  }

  /** A reservation or refit looks at a node on which no other pod waits outside the cache. */
  ghost predicate Settled(w: World, s: Step) {
    match s
    case Reserve(u, node, _, _, _) => NoStrays(w, node, u)
    case Refit(u, _, _, _, _, _, _) => u in w.cache && NoStrays(w, w.cache[u].node, u)
    case _ => true
  }

  // ---------- Steps that give back ----------

  ghost predicate LighterAt(w': World, w: World, u: string) {
    u in ClaimsOf(w') ==> u in ClaimsOf(w) && LighterClaim(ClaimsOf(w')[u], ClaimsOf(w)[u])
  }

  lemma LighterStep(w: World, w': World, u: string)
    requires SameBut(w, w', u) && LighterAt(w', w, u)
    ensures Lighter(ClaimsOf(w'), ClaimsOf(w))
  {
    forall v | v in ClaimsOf(w') ensures v in ClaimsOf(w) && LighterClaim(ClaimsOf(w')[v], ClaimsOf(w)[v]) {
      if v != u {
        assert SameAt(w, w', v);
        ClaimAt(w, w', v);
        LighterRefl(ClaimsOf(w)[v]);
      }
    }
  }

  /** The objects differ in status only. */
  predicate SameSpec(a: ApiPod, b: ApiPod) {
    a.pod == b.pod && a.node == b.node && a.annos == b.annos
  }

  /** A claim that stays on the same object, or goes from unreleased to released. */
  ghost predicate Eased(w: World, w': World, u: string) {
    Claiming(w', u) ==> Claiming(w, u) && SameSpec(w'.api[u], w.api[u]) && (ReleasedIn(w, u) ==> ReleasedIn(w', u))
  }

  lemma EasedLighter(w: World, w': World, u: string)
    requires Eased(w, w', u)
    ensures LighterAt(w', w, u)
  {
    if u in ClaimsOf(w') {
      var c := ClaimsOf(w)[u];
      if ReleasedIn(w, u) == ReleasedIn(w', u) { LighterRefl(c); } else { ReleaseLighter(c); }
    }
  }

  lemma AfterAddElsewhere(cache: Cache, o: ApiPod)
    ensures AfterAdd(cache, o) - {o.pod.uid} == cache - {o.pod.uid}
    ensures AfterUpdate(cache, o) - {o.pod.uid} == cache - {o.pod.uid}
  {
  }

  /** An assigned pod that is cached or comes in: the cached devices match the object, and
      usage that was released stays released. */
  lemma AssignedAt(cluster: Cluster, w: World, u: string)
    requires Consistent(cluster, w) && u in w.api && u !in w.gone && !w.api[u].terminated && w.api[u].node.Some?
    ensures var cache := AfterAssigned(w.cache, w.api[u]);
      u in cache && Matches(cache[u], w.api[u]) && (ReleasedIn(w, u) ==> cache[u].released)
  {
    assert ConsistentAt(cluster, w, u);
    EffectiveMatch(w.api[u], false);
    EffectiveMatch(w.api[u], true);
  }

  lemma UpdatedAt(cluster: Cluster, w: World, u: string)
    requires Consistent(cluster, w) && u in w.api && u in w.cache && !w.api[u].terminated
    ensures var cache := AfterUpdate(w.cache, w.api[u]);
      u in cache && Matches(cache[u], w.api[u]) && (w.cache[u].released ==> cache[u].released)
  {
    assert ConsistentAt(cluster, w, u);
    EffectiveMatch(w.api[u], true);
  }

  /** An event of a pod: the cache stays in step with the object and the claim can only
      get lighter. */
  lemma EventStep(cluster: Cluster, w: World, s: Step)
    requires Consistent(cluster, w) && (s.AddEvent? || s.UpdateEvent?) && Enabled(cluster, w, s)
    ensures SameBut(w, After(w, s), s.u) && ConsistentAt(cluster, After(w, s), s.u) && Eased(w, After(w, s), s.u)
  {
    var u := s.u;
    var w', o := After(w, s), w.api[u];
    assert ConsistentAt(cluster, w, u);
    AfterAddElsewhere(w.cache, o);
    assert w'.cache - {u} == w.cache - {u};
    CacheElsewhere(w, w', u);
    if !o.terminated && o.node.Some? {
      if s.AddEvent? || u !in w.cache { AssignedAt(cluster, w, u); } else { UpdatedAt(cluster, w, u); }
    }
  }

  lemma CacheElsewhere(w: World, w': World, u: string)
    requires w'.api == w.api && w'.gone == w.gone && w'.cache - {u} == w.cache - {u}
    ensures SameBut(w, w', u)
  {
    forall v | v != u ensures SameAt(w, w', v) {
      assert v in w.cache <==> v in w.cache - {u};
      assert v in w'.cache <==> v in w'.cache - {u};
      if v in w.cache { assert (w.cache - {u})[v] == w.cache[v] && (w'.cache - {u})[v] == w'.cache[v]; }
    }
  }

  /** The object of a pod with its status moved on. */
  predicate Later(a: ApiPod, b: ApiPod) {
    SameSpec(b, a) && a.succeeded <= b.succeeded && (a.terminated ==> b.terminated)
  }

  lemma StatusAt(cluster: Cluster, w: World, u: string, o: ApiPod)
    requires Consistent(cluster, w) && u in w.api && Later(w.api[u], o)
    ensures var w' := w.(api := w.api[u := o]); SameBut(w, w', u) && ConsistentAt(cluster, w', u) && Eased(w, w', u)
  {
    var w' := w.(api := w.api[u := o]);
    assert ConsistentAt(cluster, w, u);
    forall v | v != u ensures SameAt(w, w', v) {}
  }

  lemma RemoveStep(w: World, u: string)
    ensures SameBut(w, After(w, Remove(u)), u) && Eased(w, After(w, Remove(u)), u)
  {
    forall v | v != u ensures SameAt(w, After(w, Remove(u)), v) {}
  }

  lemma DropStep(cluster: Cluster, w: World, s: Step)
    requires Consistent(cluster, w) && s.Drop? && Enabled(cluster, w, s)
    ensures SameBut(w, After(w, s), s.u) && ConsistentAt(cluster, After(w, s), s.u) && Eased(w, After(w, s), s.u)
  {
    assert ConsistentAt(cluster, w, s.u);
    CacheElsewhere(w, After(w, s), s.u);
  }

  lemma CreateStep(cluster: Cluster, w: World, s: Step)
    requires Consistent(cluster, w) && s.Create? && Enabled(cluster, w, s)
    ensures SameBut(w, After(w, s), s.o.pod.uid) && ConsistentAt(cluster, After(w, s), s.o.pod.uid) && Eased(w, After(w, s), s.o.pod.uid)
  {
    forall v | v != s.o.pod.uid ensures SameAt(w, After(w, s), v) {}
  }

  lemma EasedKeeps(cluster: Cluster, w: World, w': World, u: string, law: Law)
    requires Keeps(cluster, ClaimsOf(w), law) && SameBut(w, w', u) && Eased(w, w', u)
    ensures Keeps(cluster, ClaimsOf(w'), law)
  {
    EasedLighter(w, w', u);
    LighterStep(w, w', u);
    LighterKeeps(cluster, ClaimsOf(w), ClaimsOf(w'), law);
  }

  lemma RestartEases(cluster: Cluster, w: World, u: string)
    requires Consistent(cluster, w)
    ensures Eased(w, After(w, Restart), u)
  {
    assert ConsistentAt(cluster, w, u);
  }

  lemma RestartKeeps(cluster: Cluster, w: World, law: Law)
    requires Consistent(cluster, w) && Keeps(cluster, ClaimsOf(w), law)
    ensures Keeps(cluster, ClaimsOf(After(w, Restart)), law)
  {
    var w' := After(w, Restart);
    forall u ensures LighterAt(w', w, u) {
      RestartEases(cluster, w, u);
      EasedLighter(w, w', u);
    }
    LightEverywhere(w, w');
    LighterKeeps(cluster, ClaimsOf(w), ClaimsOf(w'), law);
  }

  lemma LightEverywhere(w: World, w': World)
    requires forall u :: LighterAt(w', w, u)
    ensures Lighter(ClaimsOf(w'), ClaimsOf(w))
  {
    forall u | u in ClaimsOf(w') ensures u in ClaimsOf(w) && LighterClaim(ClaimsOf(w')[u], ClaimsOf(w)[u]) {
      assert LighterAt(w', w, u);
    }
  }

  lemma EasedStep(cluster: Cluster, w: World, s: Step)
    requires Consistent(cluster, w) && Enabled(cluster, w, s) && !s.Reserve? && !s.Refit? && !s.Restart?
    ensures SameBut(w, After(w, s), Subject(s)) && ConsistentAt(cluster, After(w, s), Subject(s)) && Eased(w, After(w, s), Subject(s))
  {
    match s
    case Create(_) => CreateStep(cluster, w, s);
    case AddEvent(_) => EventStep(cluster, w, s);
    case UpdateEvent(_) => EventStep(cluster, w, s);
    case Drop(_) => DropStep(cluster, w, s);
    case Remove(u) => RemoveStep(w, u);
    case InitDone(u, i) => StatusAt(cluster, w, u, w.api[u].(succeeded := w.api[u].succeeded + {i}));
    case Terminate(u) => StatusAt(cluster, w, u, w.api[u].(terminated := true));
    case Delete(u) => StatusAt(cluster, w, u, w.api[u].(terminating := true));
  }

  /** Every step keeps the cache in step with the annotations. */
  lemma StepConsistent(cluster: Cluster, w: World, s: Step)
    requires CleanCluster(cluster) && Consistent(cluster, w) && Enabled(cluster, w, s)
    ensures Consistent(cluster, After(w, s))
  {
    if s.Reserve? {
      ReservedConsistent(cluster, w, s.u, s.node, s.snap, s.sel, s.raw);
    } else if s.Refit? {
      RefittedConsistent(cluster, w, s.u, s.idx, s.row, s.mem, s.cores, s.sel, s.prepared);
    } else if !s.Restart? {
      EasedStep(cluster, w, s);
      ConsistentStep(cluster, w, After(w, s), Subject(s));
    }
  }

  /** Every step keeps every law, but for reservations and refits that leave no room. */
  lemma StepKeepsIff(cluster: Cluster, w: World, s: Step, law: Law)
    requires CleanCluster(cluster) && Consistent(cluster, w) && Keeps(cluster, ClaimsOf(w), law) && Enabled(cluster, w, s)
    ensures Keeps(cluster, ClaimsOf(After(w, s)), law) <==> Guarded(cluster, w, s, law)
  {
    if s.Reserve? {
      ReservedKeepsIff(cluster, w, s.u, s.node, s.snap, s.sel, s.raw, law);
    } else if s.Refit? {
      RefittedKeepsIff(cluster, w, s.u, s.idx, s.row, s.mem, s.cores, s.sel, s.prepared, law);
    } else if s.Restart? {
      RestartKeeps(cluster, w, law);
    } else {
      EasedStep(cluster, w, s);
      EasedKeeps(cluster, w, After(w, s), Subject(s), law);
    }
  }

  /** A settled step leaves room. */
  lemma SettledStep(cluster: Cluster, w: World, s: Step, law: Law)
    requires CleanCluster(cluster) && Consistent(cluster, w) && Keeps(cluster, ClaimsOf(w), law)
    requires Enabled(cluster, w, s) && Settled(w, s)
    ensures Guarded(cluster, w, s, law)
  {
    if s.Reserve? {
      SettledReservation(cluster, w, s.u, s.node, s.snap, s.sel, s.raw, law);
    } else if s.Refit? {
      SettledRefit(cluster, w, s.u, s.idx, s.row, s.mem, s.cores, s.sel, s.prepared, law);
    }
  }

  // ---------- Runs ----------

  const EMPTY := World(map[], map[], {})

  /** The world after the steps of a run. */
  function RunOf(w: World, steps: seq<Step>): World {
    if steps == [] then w else After(RunOf(w, steps[..|steps| - 1]), steps[|steps| - 1])
  }

  /** Every step could happen where it happened. */
  ghost predicate Possible(cluster: Cluster, w: World, steps: seq<Step>) {
    steps != [] ==>
      var front, last := steps[..|steps| - 1], steps[|steps| - 1];
      Possible(cluster, w, front) && Enabled(cluster, RunOf(w, front), last)
  }

  ghost predicate GuardedAll(cluster: Cluster, w: World, steps: seq<Step>, law: Law) {
    steps != [] ==>
      var front, last := steps[..|steps| - 1], steps[|steps| - 1];
      GuardedAll(cluster, w, front, law) && Guarded(cluster, RunOf(w, front), last, law)
  }

  ghost predicate SettledAll(w: World, steps: seq<Step>) {
    steps != [] ==>
      var front, last := steps[..|steps| - 1], steps[|steps| - 1];
      SettledAll(w, front) && Settled(RunOf(w, front), last)
  }

  /** Every state of the run keeps the law, for the claims of all pods. */
  ghost predicate AlwaysKeeps(cluster: Cluster, w: World, steps: seq<Step>, law: Law) {
    Keeps(cluster, ClaimsOf(RunOf(w, steps)), law) && (steps != [] ==> AlwaysKeeps(cluster, w, steps[..|steps| - 1], law))
  }

  lemma EmptyKeeps(cluster: Cluster, law: Law)
    ensures Consistent(cluster, EMPTY) && Keeps(cluster, ClaimsOf(EMPTY), law)
  {
    assert ClaimsOf(EMPTY) == map[];
  }

  /** In every run from the empty world, every state has a consistent cache. */
  lemma {:induction false} RunConsistent(cluster: Cluster, steps: seq<Step>)
    requires CleanCluster(cluster) && Possible(cluster, EMPTY, steps)
    ensures Consistent(cluster, RunOf(EMPTY, steps))
  {
    if steps == [] {
      EmptyKeeps(cluster, CapacityLaw);
    } else {
      var front, last := steps[..|steps| - 1], steps[|steps| - 1];
      RunConsistent(cluster, front);
      StepConsistent(cluster, RunOf(EMPTY, front), last);
    }
  }

  /** The runs in which every reservation and refit leaves room are exactly those that keep
      the law throughout, strays included. */
  lemma {:induction false} RunKeepsIff(cluster: Cluster, steps: seq<Step>, law: Law)
    requires CleanCluster(cluster) && Possible(cluster, EMPTY, steps)
    ensures AlwaysKeeps(cluster, EMPTY, steps, law) <==> GuardedAll(cluster, EMPTY, steps, law)
  {
    if steps == [] {
      EmptyKeeps(cluster, law);
    } else {
      var front, last := steps[..|steps| - 1], steps[|steps| - 1];
      RunKeepsIff(cluster, front, law);
      RunConsistent(cluster, front);
      if AlwaysKeeps(cluster, EMPTY, front, law) { StepKeepsIff(cluster, RunOf(EMPTY, front), last, law); }
    }
  }

  /** A run that leaves room for one law. */
  ghost predicate Proper(cluster: Cluster, steps: seq<Step>, law: Law) {
    CleanCluster(cluster) && Possible(cluster, EMPTY, steps) && GuardedAll(cluster, EMPTY, steps, law)
  }

  lemma RunKeeps(cluster: Cluster, steps: seq<Step>, law: Law)
    requires Proper(cluster, steps, law)
    ensures Consistent(cluster, RunOf(EMPTY, steps)) && Keeps(cluster, ClaimsOf(RunOf(EMPTY, steps)), law)
  {
    RunConsistent(cluster, steps);
    RunKeepsIff(cluster, steps, law);
  }

  /** Settled runs are proper for every law. */
  lemma {:induction false} SettledProper(cluster: Cluster, steps: seq<Step>, law: Law)
    requires CleanCluster(cluster) && Possible(cluster, EMPTY, steps) && SettledAll(EMPTY, steps)
    ensures Proper(cluster, steps, law)
  {
    if steps != [] {
      var front, last := steps[..|steps| - 1], steps[|steps| - 1];
      SettledProper(cluster, front, law);
      RunKeeps(cluster, front, law);
      SettledStep(cluster, RunOf(EMPTY, front), last, law);
    }
  }

  lemma SettledKeeps(cluster: Cluster, steps: seq<Step>, law: Law)
    requires CleanCluster(cluster) && Possible(cluster, EMPTY, steps) && SettledAll(EMPTY, steps)
    ensures Consistent(cluster, RunOf(EMPTY, steps)) && Keeps(cluster, ClaimsOf(RunOf(EMPTY, steps)), law)
  {
    SettledProper(cluster, steps, law);
    RunKeeps(cluster, steps, law);
  }

  /** In every settled run from the empty world, every state is safe. */
  lemma RunSafe(cluster: Cluster, steps: seq<Step>)
    requires CleanCluster(cluster) && Possible(cluster, EMPTY, steps) && SettledAll(EMPTY, steps)
    ensures Consistent(cluster, RunOf(EMPTY, steps)) && Safe(cluster, ClaimsOf(RunOf(EMPTY, steps)))
  {
    SettledKeeps(cluster, steps, CapacityLaw);
    SettledKeeps(cluster, steps, WholeCardLaw);
    SettledKeeps(cluster, steps, FullCoreLaw);
    SafeByLaws(cluster, ClaimsOf(RunOf(EMPTY, steps)));
  }

  /** The cached pods have a part of the claims. */
  lemma CachedAreClaims(cluster: Cluster, w: World)
    requires Consistent(cluster, w)
    ensures Lighter(CachedClaims(w), ClaimsOf(w))
  {
    forall u | u in CachedClaims(w) ensures u in ClaimsOf(w) && LighterClaim(CachedClaims(w)[u], ClaimsOf(w)[u]) {
      CachedClaim(w, u);
      LighterRefl(ClaimsOf(w)[u]);
    }
  }

  /** Usage as the scheduler rebuilds it from its cache stays within every device's
      capacity, in every state of every run that leaves room. */
  lemma UsageWithinCapacity(cluster: Cluster, steps: seq<Step>, node: string, d: DeviceId)
    requires Proper(cluster, steps, CapacityLaw) && node in cluster && d in cluster[node]
    ensures var cache, info := RunOf(EMPTY, steps).cache, cluster[node][d];
      CachedUse(cache, node, d, Mem) <= info.totalmem && CachedUse(cache, node, d, Cores) <= info.totalcore && CachedUse(cache, node, d, Slots) <= info.count
  {
    CounterWithinCapacity(cluster, steps, node, d, Mem);
    CounterWithinCapacity(cluster, steps, node, d, Cores);
    CounterWithinCapacity(cluster, steps, node, d, Slots);
  }

  lemma CounterWithinCapacity(cluster: Cluster, steps: seq<Step>, node: string, d: DeviceId, r: Res)
    requires Proper(cluster, steps, CapacityLaw) && node in cluster && d in cluster[node]
    ensures CachedUse(RunOf(EMPTY, steps).cache, node, d, r) <= Capacity(cluster[node][d], r)
  {
    var w := RunOf(EMPTY, steps);
    RunKeeps(cluster, steps, CapacityLaw);
    CachedTotal(cluster, w, node, d, r);
    CachedAreClaims(cluster, w);
    TotalMono(CachedClaims(w), ClaimsOf(w), node, cluster[node][d].vendor, d, r);
  }

  /** Two cached pods on the node of a device. */
  predicate Together(cluster: Cluster, w: World, u: string, v: string, d: DeviceId, t: string) {
    && u in w.cache && v in w.cache && u != v && w.cache[u].node == w.cache[v].node
    && w.cache[u].node in cluster && d in cluster[w.cache[u].node] && cluster[w.cache[u].node][d].vendor == t
  }

  lemma TogetherClaims(cluster: Cluster, w: World, u: string, v: string, d: DeviceId, t: string)
    requires Consistent(cluster, w) && Together(cluster, w, u, v, d, t)
    ensures Neighbours(cluster, ClaimsOf(w), u, v, d, t)
    ensures ClaimsOf(w)[u] == ClaimOf(w.api[u], w.cache[u].released) && ClaimsOf(w)[v] == ClaimOf(w.api[v], w.cache[v].released)
  {
    assert ConsistentAt(cluster, w, u) && ConsistentAt(cluster, w, v);
    CachedClaim(w, u);
    CachedClaim(w, v);
  }

  /** A pod that is charged no slot on a device has no entry there. */
  lemma NoSlotNoEntry(pi: PodInfo, o: ApiPod, t: string, d: DeviceId)
    requires Matches(pi, o) && InitRowsDistinct(o.pod, Rows(RawOf(o), t)) && ClaimUse(ClaimOf(o, pi.released), t, d, Slots) == 0
    ensures !Names(RowAt(pi.devices, t, 0), d)
  {
    var row := RowAt(pi.devices, t, 0);
    assert row == EffectiveRow(o.pod, t, Rows(RawOf(o), t), pi.released);
    EffectiveRowUse(o.pod, t, Rows(RawOf(o), t), pi.released, d, Slots);
    if Names(row, d) {
      var x :| 0 <= x < |row| && row[x].uuid == d;
      RowUseBound(row, d, Slots, x);
      assert false;
    }
  }

  /** In every state of every run that leaves room: beside a cached pod with a container that still counts
      and was granted a whole NVIDIA card, no other cached pod has an entry on the card. */
  lemma WholeCardAlone(cluster: Cluster, steps: seq<Step>, u: string, v: string, d: DeviceId, i: nat, x: nat)
    requires Proper(cluster, steps, WholeCardLaw)
    requires var w := RunOf(EMPTY, steps);
      && Together(cluster, w, u, v, d, NVIDIA) && cluster[w.cache[u].node][d].totalcore == 100 && u in w.api && w.api[u].node.Some? &&
      var rows, pod := Rows(RawOf(w.api[u]), NVIDIA), w.api[u].pod;
      && i < |rows| && x < |rows[i]| && rows[i][x].uuid == d && rows[i][x].cores == 100
      && (w.cache[u].released ==> i >= |pod.sidecars| || pod.sidecars[i])
    ensures !Names(RowAt(RunOf(EMPTY, steps).cache[v].devices, NVIDIA, 0), d)
  {
    var w := RunOf(EMPTY, steps);
    RunKeeps(cluster, steps, WholeCardLaw);
    HoldsAt(ClaimOf(w.api[u], w.cache[u].released), i, d);
    TogetherClaims(cluster, w, u, v, d, NVIDIA);
    assert WholeCardExclusive(cluster, ClaimsOf(w), u, v, d);
    assert ConsistentAt(cluster, w, v);
    NoSlotNoEntry(w.cache[v], w.api[v], NVIDIA, d);
  }

  /** In every state of every run that leaves room: beside a cached pod whose cores on an Ascend card reach
      100, by one container or by several, no other cached pod has cores there, even when
      the card's core budget is oversold. */
  lemma FullCoresAlone(cluster: Cluster, steps: seq<Step>, u: string, v: string, d: DeviceId)
    requires Proper(cluster, steps, FullCoreLaw)
    requires var w := RunOf(EMPTY, steps);
      && Together(cluster, w, u, v, d, ASCEND) && cluster[w.cache[u].node][d].totalcore >= 100
      && PodUse(w.cache[u].devices, d, Cores) >= 100
    ensures PodUse(RunOf(EMPTY, steps).cache[v].devices, d, Cores) == 0
  {
    var w := RunOf(EMPTY, steps);
    RunKeeps(cluster, steps, FullCoreLaw);
    TogetherClaims(cluster, w, u, v, d, ASCEND);
    assert FullCoreExclusive(cluster, ClaimsOf(w), u, v, d);
    assert ConsistentAt(cluster, w, u) && ConsistentAt(cluster, w, v);
    CachedIsClaimed(cluster, w.cache[u].devices, w.api[u], w.cache[u].released, d, Cores);
    CachedIsClaimed(cluster, w.cache[v].devices, w.api[v], w.cache[v].released, d, Cores);
  }

  // ---------- Refits wait for events ----------

  /** A step that brings the cached object of `u` up to date or places the pod anew. */
  predicate Refreshes(s: Step, u: string) {
    (s.AddEvent? || s.UpdateEvent? || s.Reserve?) && s.u == u
  }

  lemma StaysBehind(cluster: Cluster, w: World, s: Step, u: string)
    requires Consistent(cluster, w) && Behind(w, u) && Enabled(cluster, w, s) && !Refreshes(s, u)
    ensures Behind(After(w, s), u)
  {
    if s.Refit? && s.u == u {
      BehindRefused(cluster, w, u, s.idx, s.row, s.mem, s.cores, s.sel, s.prepared);
    } else if s.AddEvent? || s.UpdateEvent? {
      BehindElsewhere(cluster, w, s, u);
    } else {
      BehindOtherwise(w, s, u);
    }
  }

  lemma BehindOtherwise(w: World, s: Step, u: string)
    requires Behind(w, u) && !s.AddEvent? && !s.UpdateEvent?
    requires (s.Reserve? || s.Refit? ==> s.u != u) && (s.Create? ==> s.o.pod.uid !in w.cache)
    ensures Behind(After(w, s), u)
  {
  }

  lemma BehindElsewhere(cluster: Cluster, w: World, s: Step, u: string)
    requires Consistent(cluster, w) && Behind(w, u) && (s.AddEvent? || s.UpdateEvent?) && Enabled(cluster, w, s) && s.u != u
    ensures Behind(After(w, s), u)
  {
    EventStep(cluster, w, s);
    assert SameAt(w, After(w, s), u);
  }

  /** After a refit that changed the annotation, no refit of the pod completes until an event
      of the pod arrives or the pod is placed anew, whatever else happens. */
  lemma {:induction false} RefitsWaitForEvents(cluster: Cluster, w: World, steps: seq<Step>, u: string)
    requires CleanCluster(cluster) && Consistent(cluster, w) && Behind(w, u) && Possible(cluster, w, steps)
    requires forall i :: 0 <= i < |steps| ==> !Refreshes(steps[i], u)
    ensures Consistent(cluster, RunOf(w, steps)) && Behind(RunOf(w, steps), u)
    ensures forall i :: 0 <= i < |steps| ==> !(steps[i].Refit? && steps[i].u == u)
  {
    if steps != [] {
      var front, last := steps[..|steps| - 1], steps[|steps| - 1];
      RefitsWaitForEvents(cluster, w, front, u);
      WaitStep(cluster, RunOf(w, front), last, u);
      assert forall i :: 0 <= i < |front| ==> front[i] == steps[i];
    }
  }

  lemma WaitStep(cluster: Cluster, w: World, s: Step, u: string)
    requires CleanCluster(cluster) && Consistent(cluster, w) && Behind(w, u) && Enabled(cluster, w, s) && !Refreshes(s, u)
    ensures Consistent(cluster, After(w, s)) && Behind(After(w, s), u) && !(s.Refit? && s.u == u)
  {
    StepConsistent(cluster, w, s);
    StaysBehind(cluster, w, s, u);
    if s.Refit? && s.u == u { BehindRefused(cluster, w, u, s.idx, s.row, s.mem, s.cores, s.sel, s.prepared); }
  }

  // ---------- Terminated pods ----------

  predicate Finished(w: World, u: string) {
    u in w.api && w.api[u].terminated && u !in w.cache
  }

  /** A pod that the API server has removed and that is not cached claims nothing. */
  lemma RemovedClaimsNothing(w: World, u: string)
    requires u in w.gone && u !in w.cache
    ensures u !in ClaimsOf(w)
  {
  }

  /** The event of a terminated pod takes the pod out of the cache. */
  lemma TerminatedGoes(cluster: Cluster, w: World, s: Step)
    requires Consistent(cluster, w) && Enabled(cluster, w, s) && (s.AddEvent? || s.UpdateEvent?) && w.api[s.u].terminated
    ensures Finished(After(w, s), s.u) && s.u !in ClaimsOf(After(w, s))
  {
    assert ConsistentAt(cluster, w, s.u);
  }

  lemma FinishedStep(cluster: Cluster, w: World, s: Step, u: string)
    requires Consistent(cluster, w) && Enabled(cluster, w, s) && Finished(w, u) && !(s.Reserve? && s.u == u)
    ensures Finished(After(w, s), u)
  {
    if s.AddEvent? || s.UpdateEvent? {
      EventStep(cluster, w, s);
      if s.u == u { TerminatedGoes(cluster, w, s); } else { assert SameAt(w, After(w, s), u); }
    } else {
      FinishedOtherwise(w, s, u);
    }
  }

  lemma FinishedOtherwise(w: World, s: Step, u: string)
    requires Finished(w, u) && !s.AddEvent? && !s.UpdateEvent? && (s.Reserve? ==> s.u != u) && (s.Create? ==> s.o.pod.uid !in w.api)
    ensures Finished(After(w, s), u)
  {
  }

  /** Once the event of a terminated pod is in, the pod claims nothing in any later state,
      unless it is placed anew. */
  lemma {:induction false} TerminatedStaysGone(cluster: Cluster, w: World, steps: seq<Step>, u: string)
    requires CleanCluster(cluster) && Consistent(cluster, w) && Possible(cluster, w, steps) && Finished(w, u)
    requires forall i :: 0 <= i < |steps| ==> !(steps[i].Reserve? && steps[i].u == u)
    ensures Consistent(cluster, RunOf(w, steps)) && Finished(RunOf(w, steps), u) && u !in ClaimsOf(RunOf(w, steps))
  {
    if steps != [] {
      var front, last := steps[..|steps| - 1], steps[|steps| - 1];
      TerminatedStaysGone(cluster, w, front, u);
      StepConsistent(cluster, RunOf(w, front), last);
      FinishedStep(cluster, RunOf(w, front), last, u);
    }
  }
}
