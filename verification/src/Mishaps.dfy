/** Runs in which a law fails although every step was possible: a dropped reservation comes
    back beside the one that took its place. */
module Mishaps {
  import opened Usages
  import opened Devices
  import opened Codec
  import opened Lifecycle
  import opened Placement
  import opened Fitting
  import opened Pods
  import opened Snapshots
  import opened Reach
  import opened Claims
  import opened Worlds
  import opened Assigning
  import opened Runs

  // ---------- Extending runs ----------

  /** A run so far: possible, with a consistent cache throughout. */
  ghost predicate Sound(cluster: Cluster, steps: seq<Step>, w: World) {
    && CleanCluster(cluster) && Possible(cluster, EMPTY, steps)
    && w == RunOf(EMPTY, steps) && Consistent(cluster, w)
  }

  lemma Next(cluster: Cluster, steps: seq<Step>, w: World, s: Step)
    requires Sound(cluster, steps, w) && Enabled(cluster, w, s)
    ensures Sound(cluster, steps + [s], After(w, s))
  {
    assert (steps + [s])[..|steps|] == steps;
    StepConsistent(cluster, w, s);
  }

  // ---------- A dropped reservation comes back ----------

  function Idle(infos: map<DeviceId, DeviceInfo>): Snapshot {
    map d | d in infos :: DeviceUsage(infos[d], Usage(0, 0, 0), [])
  }

  lemma IdleShows(infos: map<DeviceId, DeviceInfo>, node: string)
    requires forall d :: d in infos ==> infos[d].id == d
    ensures WellKeyed(Idle(infos)) && Shows(Idle(infos), infos, map[], node)
  {
    assert forall d :: d in infos ==> multiset(Idle(infos)[d].tenants) == multiset{};
  }

  /** A pod as it is created. */
  predicate Unassigned(o: ApiPod) {
    o.node.None? && o.annos == map[] && o.succeeded == {} && !o.terminated && !o.terminating
  }

  /** The pod can be placed on the node if nothing else is there. */
  ghost predicate PlacedAlone(cluster: Cluster, node: string, o: ApiPod, sel: Selection, raw: PodDevices) {
    node in cluster && PlacedAll(Idle(cluster[node]), sel, o.pod, raw) && Typed(Idle(cluster[node]), raw)
  }

  function ReserveAlone(cluster: Cluster, node: string, o: ApiPod, sel: Selection, raw: PodDevices): Step
    requires node in cluster
  {
    Reserve(o.pod.uid, node, Idle(cluster[node]), sel, raw)
  }

  lemma AloneEnabled(cluster: Cluster, w: World, node: string, o: ApiPod, sel: Selection, raw: PodDevices)
    requires CleanCluster(cluster) && PlacedAlone(cluster, node, o, sel, raw)
    requires o.pod.uid in w.api && w.api[o.pod.uid] == o && o.pod.uid !in w.gone && w.cache == map[]
    ensures Enabled(cluster, w, ReserveAlone(cluster, node, o, sel, raw))
  {
    forall d | d in cluster[node] ensures cluster[node][d].id == d { assert CleanName(d); }
    IdleShows(cluster[node], node);
    assert w.cache - {o.pod.uid} == map[];
  }

  /** Pod `a` is reserved and dropped, pod `b` is reserved, and an update brings `a` back. */
  function ReturnRun(cluster: Cluster, node: string, sel: Selection, a: ApiPod, rawA: PodDevices, b: ApiPod, rawB: PodDevices): seq<Step>
    requires node in cluster
  {
    [] + [Create(a)] + [Create(b)] + [ReserveAlone(cluster, node, a, sel, rawA)] + [Drop(a.pod.uid)]
    + [ReserveAlone(cluster, node, b, sel, rawB)] + [UpdateEvent(a.pod.uid)]
  }

  ghost predicate Rivals(cluster: Cluster, node: string, sel: Selection, a: ApiPod, rawA: PodDevices, b: ApiPod, rawB: PodDevices) {
    && CleanCluster(cluster) && Unassigned(a) && Unassigned(b) && a.pod.uid != b.pod.uid
    && PlacedAlone(cluster, node, a, sel, rawA) && PlacedAlone(cluster, node, b, sel, rawB)
  }

  /** The cache is empty; `a` has its annotation, `b` waits. */
  ghost predicate Adrift(w: World, node: string, a: ApiPod, rawA: PodDevices, b: ApiPod) {
    && w.cache == map[] && w.gone == {} && w.api == map[a.pod.uid := Assigned(a, node, rawA), b.pod.uid := b]
  }

  lemma NextCreate(cluster: Cluster, steps: seq<Step>, w: World, o: ApiPod)
    requires Sound(cluster, steps, w) && Unassigned(o) && o.pod.uid !in w.api && o.pod.uid !in w.cache
    ensures Sound(cluster, steps + [Create(o)], w.(api := w.api[o.pod.uid := o]))
  {
    Next(cluster, steps, w, Create(o));
  }

  lemma Created(cluster: Cluster, a: ApiPod, b: ApiPod)
    requires CleanCluster(cluster) && Unassigned(a) && Unassigned(b) && a.pod.uid != b.pod.uid
    ensures Sound(cluster, [] + [Create(a)] + [Create(b)], World(map[], map[a.pod.uid := a, b.pod.uid := b], {}))
  {
    EmptyKeeps(cluster, CapacityLaw);
    NextCreate(cluster, [], EMPTY, a);
    var w1 := EMPTY.(api := EMPTY.api[a.pod.uid := a]);
    NextCreate(cluster, [] + [Create(a)], w1, b);
    assert w1.(api := w1.api[b.pod.uid := b]) == World(map[], map[a.pod.uid := a, b.pod.uid := b], {});
  }

  lemma FirstHalf(cluster: Cluster, node: string, sel: Selection, a: ApiPod, rawA: PodDevices, b: ApiPod, rawB: PodDevices) returns (w: World)
    requires Rivals(cluster, node, sel, a, rawA, b, rawB)
    ensures Sound(cluster, [] + [Create(a)] + [Create(b)] + [ReserveAlone(cluster, node, a, sel, rawA)] + [Drop(a.pod.uid)], w)
    ensures Adrift(w, node, a, rawA, b)
    ensures Equivalent(ClaimOf(Assigned(a, node, rawA), false), Claim(a.pod, node, rawA, false))
  {
    var steps, s3, s4 := [] + [Create(a)] + [Create(b)], ReserveAlone(cluster, node, a, sel, rawA), Drop(a.pod.uid);
    var w2 := World(map[], map[a.pod.uid := a, b.pod.uid := b], {});
    Created(cluster, a, b);
    AloneEnabled(cluster, w2, node, a, sel, rawA);
    RecoveredEquivalent(cluster, w2, a.pod.uid, node, Idle(cluster[node]), sel, rawA);
    Next(cluster, steps, w2, s3);
    var w3 := After(w2, s3);
    Next(cluster, steps + [s3], w3, s4);
    w := After(w3, s4);
    DroppedAll(w2, w3, w, node, a, rawA, b);
  }

  lemma DroppedAll(w2: World, w3: World, w: World, node: string, a: ApiPod, rawA: PodDevices, b: ApiPod)
    requires a.pod.uid != b.pod.uid && w2 == World(map[], map[a.pod.uid := a, b.pod.uid := b], {})
    requires w3 == Reserved(w2, a.pod.uid, node, rawA) && w == After(w3, Drop(a.pod.uid))
    ensures Adrift(w, node, a, rawA, b)
  {
    assert w3.cache.Keys == {a.pod.uid};
    assert w.cache == map[];
    assert w.api == map[a.pod.uid := Assigned(a, node, rawA), b.pod.uid := b];
  }

  /** Both pods are cached, with the claims of their placements. */
  ghost predicate BothHold(w: World, node: string, a: ApiPod, rawA: PodDevices, b: ApiPod, rawB: PodDevices) {
    && a.pod.uid in CachedClaims(w) && b.pod.uid in CachedClaims(w)
    && Equivalent(CachedClaims(w)[a.pod.uid], Claim(a.pod, node, rawA, false))
    && Equivalent(CachedClaims(w)[b.pod.uid], Claim(b.pod, node, rawB, false))
  }

  lemma Return(cluster: Cluster, w: World, w5: World, w6: World, node: string, a: ApiPod, rawA: PodDevices, b: ApiPod, rawB: PodDevices)
    requires a.pod.uid != b.pod.uid && Adrift(w, node, a, rawA, b) && Unassigned(a) && Unassigned(b)
    requires w5 == Reserved(w, b.pod.uid, node, rawB) && Consistent(cluster, w5) && w6 == After(w5, UpdateEvent(a.pod.uid))
    ensures a.pod.uid in CachedClaims(w6) && b.pod.uid in CachedClaims(w6)
    ensures CachedClaims(w6)[a.pod.uid] == ClaimOf(Assigned(a, node, rawA), InitSucceeded(a))
    ensures CachedClaims(w6)[b.pod.uid] == ClaimOf(Assigned(b, node, rawB), false)
  {
    var u := a.pod.uid;
    EventStep(cluster, w5, UpdateEvent(u));
    AssignedAt(cluster, w5, u);
    assert w6.cache == AfterAssigned(w5.cache, w5.api[u]) && w5.api[u] == Assigned(a, node, rawA);
    assert w6.cache[u].released == InitSucceeded(a);
    assert SameAt(w5, w6, b.pod.uid);
  }

  /** A new pod counts as released only if nothing of it would ever leave, and then its claim
      weighs the same. */
  lemma NewPodWeighs(a: ApiPod, node: string, raw: PodDevices)
    requires Unassigned(a)
    ensures Equivalent(Claim(a.pod, node, raw, InitSucceeded(a)), Claim(a.pod, node, raw, false))
  {
    var c, o := Claim(a.pod, node, raw, InitSucceeded(a)), Claim(a.pod, node, raw, false);
    forall t, d, r ensures ClaimUse(c, t, d, r) == ClaimUse(o, t, d, r) {
      if InitSucceeded(a) { NobodyLeaves(a.pod, Rows(raw, t), |Rows(raw, t)|, d, r); }
    }
    forall d ensures HoldsWhole(c, d) <==> HoldsWhole(o, d) {}
  }

  lemma WeighsLikewise(a: Claim, b: Claim, c: Claim)
    requires Equivalent(a, b) && Equivalent(b, c)
    ensures Equivalent(a, c)
  {
  }

  lemma SecondHalf(cluster: Cluster, half: seq<Step>, w: World, node: string, sel: Selection, a: ApiPod, rawA: PodDevices, b: ApiPod, rawB: PodDevices)
    requires Rivals(cluster, node, sel, a, rawA, b, rawB) && Sound(cluster, half, w) && Adrift(w, node, a, rawA, b)
    requires Equivalent(ClaimOf(Assigned(a, node, rawA), false), Claim(a.pod, node, rawA, false))
    ensures var steps := half + [ReserveAlone(cluster, node, b, sel, rawB)] + [UpdateEvent(a.pod.uid)];
      Sound(cluster, steps, RunOf(EMPTY, steps)) && BothHold(RunOf(EMPTY, steps), node, a, rawA, b, rawB)
  {
    var s5, s6 := ReserveAlone(cluster, node, b, sel, rawB), UpdateEvent(a.pod.uid);
    AloneEnabled(cluster, w, node, b, sel, rawB);
    RecoveredEquivalent(cluster, w, b.pod.uid, node, Idle(cluster[node]), sel, rawB);
    Next(cluster, half, w, s5);
    Next(cluster, half + [s5], After(w, s5), s6);
    Return(cluster, w, After(w, s5), After(After(w, s5), s6), node, a, rawA, b, rawB);
    var o := Assigned(a, node, rawA);
    NewPodWeighs(a, node, RawOf(o));
    WeighsLikewise(ClaimOf(o, InitSucceeded(a)), ClaimOf(o, false), Claim(a.pod, node, rawA, false));
  }

  /** Whatever the two pods hold, both end up cached. */
  lemma ReturnRunHolds(cluster: Cluster, node: string, sel: Selection, a: ApiPod, rawA: PodDevices, b: ApiPod, rawB: PodDevices)
    requires Rivals(cluster, node, sel, a, rawA, b, rawB)
    ensures var steps := ReturnRun(cluster, node, sel, a, rawA, b, rawB);
      Sound(cluster, steps, RunOf(EMPTY, steps)) && BothHold(RunOf(EMPTY, steps), node, a, rawA, b, rawB)
  {
    var w := FirstHalf(cluster, node, sel, a, rawA, b, rawB);
    SecondHalf(cluster, [] + [Create(a)] + [Create(b)] + [ReserveAlone(cluster, node, a, sel, rawA)] + [Drop(a.pod.uid)], w, node, sel, a, rawA, b, rawB);
  }

  lemma ApartSymmetric(cluster: Cluster, a: Claim, b: Claim, law: Law)
    requires Apart(cluster, a, b, law)
    ensures Apart(cluster, b, a, law)
  {
    forall d ensures ApartOn(cluster, b, a, d, law) { assert ApartOn(cluster, a, b, d, law); }
  }

  /** Pods that can each be placed alone but are not apart break the exclusivity law. */
  lemma ReturnBreaksExclusivity(cluster: Cluster, node: string, sel: Selection, a: ApiPod, rawA: PodDevices, b: ApiPod, rawB: PodDevices, law: Law)
    requires Rivals(cluster, node, sel, a, rawA, b, rawB)
    requires !Apart(cluster, Claim(a.pod, node, rawA, false), Claim(b.pod, node, rawB, false), law)
    ensures var steps := ReturnRun(cluster, node, sel, a, rawA, b, rawB);
      Possible(cluster, EMPTY, steps) && !Keeps(cluster, CachedClaims(RunOf(EMPTY, steps)), law)
  {
    ReturnRunHolds(cluster, node, sel, a, rawA, b, rawB);
    NotKept(cluster, RunOf(EMPTY, ReturnRun(cluster, node, sel, a, rawA, b, rawB)), node, a, rawA, b, rawB, law);
  }

  lemma NotKept(cluster: Cluster, w: World, node: string, a: ApiPod, rawA: PodDevices, b: ApiPod, rawB: PodDevices, law: Law)
    requires BothHold(w, node, a, rawA, b, rawB) && a.pod.uid != b.pod.uid
    requires !Apart(cluster, Claim(a.pod, node, rawA, false), Claim(b.pod, node, rawB, false), law)
    ensures !Keeps(cluster, CachedClaims(w), law)
  {
    var claims, ca, cb := CachedClaims(w), Claim(a.pod, node, rawA, false), Claim(b.pod, node, rawB, false);
    if Keeps(cluster, claims, law) {
      forall d ensures ApartOn(cluster, claims[a.pod.uid], claims[b.pod.uid], d, law) {
        PairApart(cluster, claims, a.pod.uid, b.pod.uid, d, law);
        PairApart(cluster, claims, b.pod.uid, a.pod.uid, d, law);
      }
      LighterApart(cluster, ca, claims[a.pod.uid], claims[b.pod.uid], law);
      ApartSymmetric(cluster, ca, claims[b.pod.uid], law);
      LighterApart(cluster, cb, claims[b.pod.uid], ca, law);
      ApartSymmetric(cluster, cb, ca, law);
      assert false;
    }
  }

  lemma TwoShares(claims: ClaimMap, u: string, v: string, node: string, t: string, d: DeviceId, r: Res)
    requires u in claims && v in claims && u != v && claims[u].node == node && claims[v].node == node
    ensures TotalUse(claims, node, t, d, r) >= ClaimUse(claims[u], t, d, r) + ClaimUse(claims[v], t, d, r)
  {
    SumMapRemove(claims, Share(node, t, d, r), u);
    SumMapRemove(claims - {u}, Share(node, t, d, r), v);
  }

  /** Pods that can each be placed alone but do not fit together overcommit the device. */
  lemma ReturnOvercommits(cluster: Cluster, node: string, sel: Selection, a: ApiPod, rawA: PodDevices, b: ApiPod, rawB: PodDevices, d: DeviceId, r: Res)
    requires Rivals(cluster, node, sel, a, rawA, b, rawB) && d in cluster[node]
    requires var t := cluster[node][d].vendor;
      ClaimUse(Claim(a.pod, node, rawA, false), t, d, r) + ClaimUse(Claim(b.pod, node, rawB, false), t, d, r) > Capacity(cluster[node][d], r)
    ensures var steps := ReturnRun(cluster, node, sel, a, rawA, b, rawB);
      && Possible(cluster, EMPTY, steps)
      && CachedUse(RunOf(EMPTY, steps).cache, node, d, r) > Capacity(cluster[node][d], r)
  {
    ReturnRunHolds(cluster, node, sel, a, rawA, b, rawB);
    var w := RunOf(EMPTY, ReturnRun(cluster, node, sel, a, rawA, b, rawB));
    CachedTotal(cluster, w, node, d, r);
    TwoShares(CachedClaims(w), a.pod.uid, b.pod.uid, node, cluster[node][d].vendor, d, r);
  }

  // ---------- Three such pairs of pods ----------

  /** A pod with one container that requests one device of type `t`. */
  function OneCardPod(u: string, t: string, mem: nat, cores: nat): ApiPod {
    ApiPod(Pod(u, "default", u, [], [map[t := Request(1, mem, 101, cores)]]), None, map[], {}, false, false)
  }

  function OneGrant(info: DeviceInfo, mem: nat, cores: nat): PodDevices {
    map[info.vendor := [[ContainerDevice(info.id, info.vendor, mem, cores, 0)]]]
  }

  function OneCard(info: DeviceInfo): Cluster {
    map["node" := map[info.id := info]]
  }

  function Only(d: DeviceId): Selection {
    Selection({d}, {d}, {}, false, false, false, false, map[])
  }

  /** Backend of the card grants the amounts on the idle card. */
  predicate Obtains(info: DeviceInfo, u: string, mem: nat, cores: nat) {
    Grants(Only(info.id), DeviceUsage(info, Usage(0, 0, 0), []), info.vendor, Request(1, mem, 101, cores), 0, u,
           ContainerDevice(info.id, info.vendor, mem, cores, 0))
  }

  lemma OneGrantPlaced(info: DeviceInfo, u: string, mem: nat, cores: nat)
    requires Obtains(info, u, mem, cores) && IsBackend(info.vendor)
    ensures PlacedAlone(OneCard(info), "node", OneCardPod(u, info.vendor, mem, cores), Only(info.id), OneGrant(info, mem, cores))
  {
    var idle, pod, t, raw := Idle(OneCard(info)["node"]), OneCardPod(u, info.vendor, mem, cores).pod, info.vendor, OneGrant(info, mem, cores);
    var rows := raw[t];
    assert rows[..0] == [];
    assert t in pod.reqs[0];
    assert LiveDevs(idle, pod, [])[info.id] == idle[info.id];
    assert StepOk(idle, Only(info.id), pod, t, rows[..0], rows[0]);
    assert RowTyped(idle, t, rows[0]);
  }

  lemma OneGrantUse(info: DeviceInfo, u: string, mem: nat, cores: nat, r: Res)
    ensures ClaimUse(Claim(OneCardPod(u, info.vendor, mem, cores).pod, "node", OneGrant(info, mem, cores), false), info.vendor, info.id, r)
      >= Usage(mem, cores, 1).Of(r)
  {
    var rows := OneGrant(info, mem, cores)[info.vendor];
    RowUseBound(rows[0], info.id, r, 0);
    EffectiveCovers(OneCardPod(u, info.vendor, mem, cores).pod, rows, false, 0, info.id, r);
  }

  /** Two pods for the same card, `a` and `b`. */
  function ReturnOn(info: DeviceInfo, memA: nat, coresA: nat, memB: nat, coresB: nat): seq<Step> {
    ReturnRun(OneCard(info), "node", Only(info.id), OneCardPod("a", info.vendor, memA, coresA), OneGrant(info, memA, coresA),
              OneCardPod("b", info.vendor, memB, coresB), OneGrant(info, memB, coresB))
  }

  lemma CardRivals(info: DeviceInfo, memA: nat, coresA: nat, memB: nat, coresB: nat)
    requires Obtains(info, "a", memA, coresA) && Obtains(info, "b", memB, coresB) && IsBackend(info.vendor) && info.id == "card"
    ensures Rivals(OneCard(info), "node", Only(info.id), OneCardPod("a", info.vendor, memA, coresA), OneGrant(info, memA, coresA),
                   OneCardPod("b", info.vendor, memB, coresB), OneGrant(info, memB, coresB))
  {
    OneGrantPlaced(info, "a", memA, coresA);
    OneGrantPlaced(info, "b", memB, coresB);
  }

  const SINGLE := DeviceInfo("card", NVIDIA, NVIDIA, 1, 1000, 100, 0, true)
  const SHARED := DeviceInfo("card", NVIDIA, NVIDIA, 2, 1000, 100, 0, true)
  const OVERSOLD := DeviceInfo("card", ASCEND, ASCEND, 2, 1000, 200, 0, true)

  /** The only slot of a card is granted to two pods. */
  lemma StrayRunOvercommits()
    ensures var steps := ReturnOn(SINGLE, 1000, 0, 1000, 0);
      && Possible(OneCard(SINGLE), EMPTY, steps)
      && CachedUse(RunOf(EMPTY, steps).cache, "node", "card", Slots) > Capacity(SINGLE, Slots)
  {
    CardRivals(SINGLE, 1000, 0, 1000, 0);
    OneGrantUse(SINGLE, "a", 1000, 0, Slots);
    OneGrantUse(SINGLE, "b", 1000, 0, Slots);
    ReturnOvercommits(OneCard(SINGLE), "node", Only("card"), OneCardPod("a", NVIDIA, 1000, 0), OneGrant(SINGLE, 1000, 0),
                      OneCardPod("b", NVIDIA, 1000, 0), OneGrant(SINGLE, 1000, 0), "card", Slots);
  }

  lemma WholeNotApart()
    ensures !Apart(OneCard(SHARED), Claim(OneCardPod("a", NVIDIA, 500, 100).pod, "node", OneGrant(SHARED, 500, 100), false),
                   Claim(OneCardPod("b", NVIDIA, 500, 0).pod, "node", OneGrant(SHARED, 500, 0), false), WholeCardLaw)
  {
    var a, b := Claim(OneCardPod("a", NVIDIA, 500, 100).pod, "node", OneGrant(SHARED, 500, 100), false),
                Claim(OneCardPod("b", NVIDIA, 500, 0).pod, "node", OneGrant(SHARED, 500, 0), false);
    OneGrantUse(SHARED, "b", 500, 0, Slots);
    var row := Rows(a.raw, NVIDIA)[0];
    assert row[0].uuid == "card" && row[0].cores == 100;
    HoldsAt(a, 0, "card");
    assert !ApartOn(OneCard(SHARED), a, b, "card", WholeCardLaw);
  }

  lemma FullNotApart()
    ensures !Apart(OneCard(OVERSOLD), Claim(OneCardPod("a", ASCEND, 500, 100).pod, "node", OneGrant(OVERSOLD, 500, 100), false),
                   Claim(OneCardPod("b", ASCEND, 500, 50).pod, "node", OneGrant(OVERSOLD, 500, 50), false), FullCoreLaw)
  {
    var a, b := Claim(OneCardPod("a", ASCEND, 500, 100).pod, "node", OneGrant(OVERSOLD, 500, 100), false),
                Claim(OneCardPod("b", ASCEND, 500, 50).pod, "node", OneGrant(OVERSOLD, 500, 50), false);
    OneGrantUse(OVERSOLD, "a", 500, 100, Cores);
    OneGrantUse(OVERSOLD, "b", 500, 50, Cores);
    assert !ApartOn(OneCard(OVERSOLD), a, b, "card", FullCoreLaw);
  }

  lemma CardBreaks(info: DeviceInfo, memA: nat, coresA: nat, memB: nat, coresB: nat, law: Law)
    requires Obtains(info, "a", memA, coresA) && Obtains(info, "b", memB, coresB) && IsBackend(info.vendor) && info.id == "card"
    requires !Apart(OneCard(info), Claim(OneCardPod("a", info.vendor, memA, coresA).pod, "node", OneGrant(info, memA, coresA), false),
                    Claim(OneCardPod("b", info.vendor, memB, coresB).pod, "node", OneGrant(info, memB, coresB), false), law)
    ensures var steps := ReturnOn(info, memA, coresA, memB, coresB);
      && Possible(OneCard(info), EMPTY, steps)
      && !Keeps(OneCard(info), CachedClaims(RunOf(EMPTY, steps)), law)
  {
    CardRivals(info, memA, coresA, memB, coresB);
    ReturnBreaksExclusivity(OneCard(info), "node", Only(info.id), OneCardPod("a", info.vendor, memA, coresA), OneGrant(info, memA, coresA),
                            OneCardPod("b", info.vendor, memB, coresB), OneGrant(info, memB, coresB), law);
  }

  /** A card that was granted whole is shared. */
  lemma StrayRunSharesWholeCard()
    ensures var steps := ReturnOn(SHARED, 500, 100, 500, 0);
      && Possible(OneCard(SHARED), EMPTY, steps)
      && !Keeps(OneCard(SHARED), CachedClaims(RunOf(EMPTY, steps)), WholeCardLaw)
  {
    WholeNotApart();
    CardBreaks(SHARED, 500, 100, 500, 0, WholeCardLaw);
  }

  /** An Ascend card on which a pod has all cores is shared. */
  lemma StrayRunSharesFullCores()
    ensures var steps := ReturnOn(OVERSOLD, 500, 100, 500, 50);
      && Possible(OneCard(OVERSOLD), EMPTY, steps)
      && !Keeps(OneCard(OVERSOLD), CachedClaims(RunOf(EMPTY, steps)), FullCoreLaw)
  {
    FullNotApart();
    CardBreaks(OVERSOLD, 500, 100, 500, 50, FullCoreLaw);
  }
}
