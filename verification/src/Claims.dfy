/** What pods hold on the devices of a cluster, and the safety properties those
    holdings keep: no device is overcommitted, and exclusive cards stay exclusive. */
module Claims {
  import opened Usages
  import opened Devices
  import opened Lifecycle
  import opened Reach

  /** A pod's reservation: the node, the raw rows and whether its ordinary init
      containers have been released. */
  datatype Claim = Claim(pod: Pod, node: string, raw: PodDevices, released: bool)

  type ClaimMap = map<string, Claim>

  /** The registered devices of every node. */
  type Cluster = map<string, map<DeviceId, DeviceInfo>>

  function Capacity(info: DeviceInfo, r: Res): nat {
    match r
    case Mem => info.totalmem
    case Cores => info.totalcore
    case Slots => info.count
  }

  /** What a claim is charged on a device of type `t`. */
  function ClaimUse(c: Claim, t: string, d: DeviceId, r: Res): nat {
    Effective(c.pod, Rows(c.raw, t), c.released, d, r)
  }

  function Share(node: string, t: string, d: DeviceId, r: Res): (string, Claim) -> nat {
    (u: string, c: Claim) => if c.node == node then ClaimUse(c, t, d, r) else 0
  }

  /** What all claims together use of a device. */
  ghost function TotalUse(claims: ClaimMap, node: string, t: string, d: DeviceId, r: Res): nat {
    SumMap(claims, Share(node, t, d, r))
  }

  // ---------- The safety properties ----------

  ghost predicate WithinCapacity(cluster: Cluster, claims: ClaimMap) {
    forall n, d, r :: n in cluster && d in cluster[n] ==>
      TotalUse(claims, n, cluster[n][d].vendor, d, r) <= Capacity(cluster[n][d], r)
  }

  /** Two different claims on the node of device `d` of type `t`. */
  predicate Neighbours(cluster: Cluster, claims: ClaimMap, u: string, v: string, d: DeviceId, t: string) {
    && u in claims && v in claims && u != v && claims[u].node == claims[v].node
    && claims[u].node in cluster && d in cluster[claims[u].node] && cluster[claims[u].node][d].vendor == t
  }

  /** The row grants all cores of `d`. */
  predicate GrantsWhole(row: ContainerDevices, d: DeviceId) {
    exists x :: 0 <= x < |row| && row[x].uuid == d && row[x].cores == 100
  }

  /** A container of the claim that still counts was granted all cores of `d`. */
  predicate HoldsWhole(c: Claim, d: DeviceId) {
    var rows := Rows(c.raw, NVIDIA);
    exists i :: 0 <= i < |rows| && (c.released ==> c.pod.KindAt(i) != OrdinaryInit) && GrantsWhole(rows[i], d)
  }

  lemma HoldsAt(c: Claim, i: nat, d: DeviceId)
    requires i < |Rows(c.raw, NVIDIA)| && (c.released ==> c.pod.KindAt(i) != OrdinaryInit) && GrantsWhole(Rows(c.raw, NVIDIA)[i], d)
    ensures HoldsWhole(c, d)
  {
  }

  /** Next to a container that was granted a whole NVIDIA card nobody else has an entry. */
  ghost predicate WholeCardsExclusive(cluster: Cluster, claims: ClaimMap) {
    forall u, v, d :: WholeCardExclusive(cluster, claims, u, v, d)
  }

  ghost predicate WholeCardExclusive(cluster: Cluster, claims: ClaimMap, u: string, v: string, d: DeviceId) {
    Neighbours(cluster, claims, u, v, d, NVIDIA) && cluster[claims[u].node][d].totalcore == 100 && HoldsWhole(claims[u], d) ==>
      ClaimUse(claims[v], NVIDIA, d, Slots) == 0
  }

  /** A pod that reaches the percentage base on an Ascend card, by any number of
      containers, shares its cores with nobody, however far the card is oversold. */
  ghost predicate FullCoresExclusive(cluster: Cluster, claims: ClaimMap) {
    forall u, v, d :: FullCoreExclusive(cluster, claims, u, v, d)
  }

  ghost predicate FullCoreExclusive(cluster: Cluster, claims: ClaimMap, u: string, v: string, d: DeviceId) {
    Neighbours(cluster, claims, u, v, d, ASCEND) && cluster[claims[u].node][d].totalcore >= 100
      && ClaimUse(claims[u], ASCEND, d, Cores) >= 100 ==>
      ClaimUse(claims[v], ASCEND, d, Cores) == 0
  }

  ghost predicate Safe(cluster: Cluster, claims: ClaimMap) {
    WithinCapacity(cluster, claims) && WholeCardsExclusive(cluster, claims) && FullCoresExclusive(cluster, claims)
  }

  /** The safety properties one by one. */
  datatype Law = CapacityLaw | WholeCardLaw | FullCoreLaw

  ghost predicate Keeps(cluster: Cluster, claims: ClaimMap, law: Law) {
    match law
    case CapacityLaw => WithinCapacity(cluster, claims)
    case WholeCardLaw => WholeCardsExclusive(cluster, claims)
    case FullCoreLaw => FullCoresExclusive(cluster, claims)
  }

  lemma SafeByLaws(cluster: Cluster, claims: ClaimMap)
    requires Keeps(cluster, claims, CapacityLaw) && Keeps(cluster, claims, WholeCardLaw) && Keeps(cluster, claims, FullCoreLaw)
    ensures Safe(cluster, claims)
  {
  }

  // ---------- Dropping and releasing ----------

  /** Every claim of `b` is one of `a` that was charged at least as much and counted
      at least the same containers. */
  ghost predicate Lighter(b: ClaimMap, a: ClaimMap) {
    forall u :: u in b ==> u in a && LighterClaim(b[u], a[u])
  }

  ghost predicate LighterClaim(c: Claim, o: Claim) {
    && c.node == o.node
    && (forall t, d, r :: ClaimUse(c, t, d, r) <= ClaimUse(o, t, d, r))
    && (forall d :: HoldsWhole(c, d) ==> HoldsWhole(o, d))
  }

  lemma TotalMono(b: ClaimMap, a: ClaimMap, n: string, t: string, d: DeviceId, r: Res)
    requires Lighter(b, a)
    ensures TotalUse(b, n, t, d, r) <= TotalUse(a, n, t, d, r)
  {
    forall u | u in b ensures u in a && Share(n, t, d, r)(u, b[u]) <= Share(n, t, d, r)(u, a[u]) {
      assert LighterClaim(b[u], a[u]);
    }
    SumMapMono(b, a, Share(n, t, d, r));
  }

  lemma LighterCapacity(cluster: Cluster, a: ClaimMap, b: ClaimMap)
    requires WithinCapacity(cluster, a) && Lighter(b, a)
    ensures WithinCapacity(cluster, b)
  {
    forall n, d, r | n in cluster && d in cluster[n]
      ensures TotalUse(b, n, cluster[n][d].vendor, d, r) <= Capacity(cluster[n][d], r)
    {
      TotalMono(b, a, n, cluster[n][d].vendor, d, r);
    }
  }

  lemma LighterWhole(cluster: Cluster, a: ClaimMap, b: ClaimMap)
    requires WholeCardsExclusive(cluster, a) && Lighter(b, a)
    ensures WholeCardsExclusive(cluster, b)
  {
    forall u, v, d ensures WholeCardExclusive(cluster, b, u, v, d) {
      if u in b && v in b { assert WholeCardExclusive(cluster, a, u, v, d) && LighterClaim(b[u], a[u]) && LighterClaim(b[v], a[v]); }
    }
  }

  lemma LighterFull(cluster: Cluster, a: ClaimMap, b: ClaimMap)
    requires FullCoresExclusive(cluster, a) && Lighter(b, a)
    ensures FullCoresExclusive(cluster, b)
  {
    forall u, v, d ensures FullCoreExclusive(cluster, b, u, v, d) {
      if u in b && v in b {
        assert FullCoreExclusive(cluster, a, u, v, d) && LighterClaim(b[u], a[u]) && LighterClaim(b[v], a[v]);
        assert ClaimUse(b[u], ASCEND, d, Cores) <= ClaimUse(a[u], ASCEND, d, Cores);
        assert ClaimUse(b[v], ASCEND, d, Cores) <= ClaimUse(a[v], ASCEND, d, Cores);
      }
    }
  }

  /** Giving back breaks no law. */
  lemma LighterKeeps(cluster: Cluster, a: ClaimMap, b: ClaimMap, law: Law)
    requires Keeps(cluster, a, law) && Lighter(b, a)
    ensures Keeps(cluster, b, law)
  {
    match law
    case CapacityLaw => LighterCapacity(cluster, a, b);
    case WholeCardLaw => LighterWhole(cluster, a, b);
    case FullCoreLaw => LighterFull(cluster, a, b);
  }

  lemma LighterRefl(c: Claim)
    ensures LighterClaim(c, c)
  {
  }

  lemma DropKeeps(cluster: Cluster, claims: ClaimMap, u: string, law: Law)
    requires Keeps(cluster, claims, law)
    ensures Keeps(cluster, claims - {u}, law)
  {
    forall v | v in claims - {u} ensures LighterClaim((claims - {u})[v], claims[v]) { LighterRefl(claims[v]); }
    LighterKeeps(cluster, claims, claims - {u}, law);
  }

  lemma ReleaseLighter(c: Claim)
    ensures LighterClaim(c.(released := true), c)
  {
    var b := c.(released := true);
    forall t, d, r ensures ClaimUse(b, t, d, r) <= ClaimUse(c, t, d, r) {
      ReleaseShrinks(c.pod, Rows(c.raw, t), c.released, d, r);
    }
  }

  /** One claim's share of a total. */
  lemma TotalSplit(claims: ClaimMap, u: string, c: Claim, n: string, t: string, d: DeviceId, r: Res)
    ensures TotalUse(claims[u := c], n, t, d, r) ==
      TotalUse(claims - {u}, n, t, d, r) + if c.node == n then ClaimUse(c, t, d, r) else 0
  {
    SumMapUpdate(claims, Share(n, t, d, r), u, c);
  }

  /** The total before and after a claim takes the place of another. */
  lemma ReplacedTotal(claims: ClaimMap, u: string, c: Claim, n: string, t: string, d: DeviceId, r: Res)
    requires u in claims
    ensures TotalUse((claims - {u})[u := c], n, t, d, r) ==
      TotalUse(claims - {u}, n, t, d, r) + if c.node == n then ClaimUse(c, t, d, r) else 0
    ensures TotalUse(claims, n, t, d, r) ==
      TotalUse(claims - {u}, n, t, d, r) + if claims[u].node == n then ClaimUse(claims[u], t, d, r) else 0
  {
    assert (claims - {u}) - {u} == claims - {u} && claims[u := claims[u]] == claims;
    TotalSplit(claims - {u}, u, c, n, t, d, r);
    TotalSplit(claims, u, claims[u], n, t, d, r);
  }

  lemma TotalBound(claims: ClaimMap, u: string, t: string, d: DeviceId, r: Res)
    requires u in claims
    ensures ClaimUse(claims[u], t, d, r) <= TotalUse(claims, claims[u].node, t, d, r)
  {
    SumMapRemove(claims, Share(claims[u].node, t, d, r), u);
  }

  /** The whole-card holder is charged all cores. */
  lemma WholeIsFull(c: Claim, d: DeviceId)
    requires HoldsWhole(c, d)
    ensures ClaimUse(c, NVIDIA, d, Cores) >= 100
  {
    var rows: PodSingleDevice := Rows(c.raw, NVIDIA);
    var i :| 0 <= i < |rows| && (c.released ==> c.pod.KindAt(i) != OrdinaryInit) && GrantsWhole(rows[i], d);
    var x :| 0 <= x < |rows[i]| && rows[i][x].uuid == d && rows[i][x].cores == 100;
    RowUseBound(rows[i], d, Cores, x);
    EffectiveCovers(c.pod, rows, c.released, i, d, Cores);
  }

  // ---------- Two claims apart ----------

  /** A card on the node of both claims that an exclusivity law speaks of. */
  predicate Exclusive(cluster: Cluster, a: Claim, b: Claim, d: DeviceId, law: Law) {
    && a.node == b.node && a.node in cluster && d in cluster[a.node]
    && match law
       case CapacityLaw => false
       case WholeCardLaw => cluster[a.node][d].vendor == NVIDIA && cluster[a.node][d].totalcore == 100
       case FullCoreLaw => cluster[a.node][d].vendor == ASCEND && cluster[a.node][d].totalcore >= 100
  }

  /** The claim has the card for itself: whole, or with cores up to the percentage base. */
  ghost predicate Occupies(c: Claim, d: DeviceId, law: Law) {
    match law
    case CapacityLaw => false
    case WholeCardLaw => HoldsWhole(c, d)
    case FullCoreLaw => ClaimUse(c, ASCEND, d, Cores) >= 100
  }

  /** The claim has an entry on the card, or cores of it. */
  predicate Touches(c: Claim, d: DeviceId, law: Law) {
    match law
    case CapacityLaw => false
    case WholeCardLaw => ClaimUse(c, NVIDIA, d, Slots) > 0
    case FullCoreLaw => ClaimUse(c, ASCEND, d, Cores) > 0
  }

  ghost predicate ApartOn(cluster: Cluster, a: Claim, b: Claim, d: DeviceId, law: Law) {
    Exclusive(cluster, a, b, d, law) ==>
      !(Occupies(a, d, law) && Touches(b, d, law)) && !(Occupies(b, d, law) && Touches(a, d, law))
  }

  /** Neither claim occupies a card that the other touches. */
  ghost predicate Apart(cluster: Cluster, a: Claim, b: Claim, law: Law) {
    forall d :: ApartOn(cluster, a, b, d, law)
  }

  /** A claim joins others that keep an exclusivity law: the law still holds exactly when
      the claim is apart from each of them. */
  lemma JoinKeepsIff(cluster: Cluster, others: ClaimMap, u: string, c: Claim, law: Law)
    requires u !in others && Keeps(cluster, others, law) && !law.CapacityLaw?
    ensures Keeps(cluster, others[u := c], law) <==> forall v :: v in others ==> Apart(cluster, c, others[v], law)
  {
    var all := others[u := c];
    if Keeps(cluster, all, law) {
      forall v, d | v in others ensures ApartOn(cluster, c, others[v], d, law) {
        assert all[v] == others[v] && all[u] == c;
        PairApart(cluster, all, u, v, d, law);
        PairApart(cluster, all, v, u, d, law);
      }
    }
    if forall v :: v in others ==> Apart(cluster, c, others[v], law) {
      forall a, b, d ensures PairKept(cluster, all, a, b, d, law) {
        if a in all && b in all && a != b {
          if a == u { assert Apart(cluster, c, others[b], law) && ApartOn(cluster, c, others[b], d, law); }
          else if b == u { assert Apart(cluster, c, others[a], law) && ApartOn(cluster, c, others[a], d, law); }
          else { PairApart(cluster, others, a, b, d, law); }
        }
      }
      PairsKept(cluster, all, law);
    }
  }

  /** The exclusivity laws, one pair of claims and one card at a time. */
  ghost predicate PairKept(cluster: Cluster, claims: ClaimMap, a: string, b: string, d: DeviceId, law: Law) {
    a in claims && b in claims && a != b && Exclusive(cluster, claims[a], claims[b], d, law) ==>
      !(Occupies(claims[a], d, law) && Touches(claims[b], d, law))
  }

  lemma PairApart(cluster: Cluster, claims: ClaimMap, a: string, b: string, d: DeviceId, law: Law)
    requires Keeps(cluster, claims, law)
    ensures PairKept(cluster, claims, a, b, d, law)
  {
    match law
    case CapacityLaw =>
    case WholeCardLaw => assert WholeCardExclusive(cluster, claims, a, b, d);
    case FullCoreLaw => assert FullCoreExclusive(cluster, claims, a, b, d);
  }

  lemma PairsKept(cluster: Cluster, claims: ClaimMap, law: Law)
    requires (forall a, b, d :: PairKept(cluster, claims, a, b, d, law)) && !law.CapacityLaw?
    ensures Keeps(cluster, claims, law)
  {
    match law
    case WholeCardLaw =>
      forall a, b, d ensures WholeCardExclusive(cluster, claims, a, b, d) { assert PairKept(cluster, claims, a, b, d, law); }
    case FullCoreLaw =>
      forall a, b, d ensures FullCoreExclusive(cluster, claims, a, b, d) { assert PairKept(cluster, claims, a, b, d, law); }
  }

  /** A lighter claim is apart from whatever the heavier one is apart from. */
  lemma LighterApart(cluster: Cluster, a: Claim, c: Claim, e: Claim, law: Law)
    requires LighterClaim(a, c) && Apart(cluster, c, e, law)
    ensures Apart(cluster, a, e, law)
  {
    forall d ensures ApartOn(cluster, a, e, d, law) {
      assert ApartOn(cluster, c, e, d, law);
      assert HoldsWhole(a, d) ==> HoldsWhole(c, d);
      assert ClaimUse(a, NVIDIA, d, Slots) <= ClaimUse(c, NVIDIA, d, Slots);
      assert ClaimUse(a, ASCEND, d, Cores) <= ClaimUse(c, ASCEND, d, Cores);
    }
  }

  /** A claim with the same cores on Ascend cards takes the place of another. */
  lemma ReplaceFull(cluster: Cluster, claims: ClaimMap, u: string, c: Claim)
    requires u in claims && FullCoresExclusive(cluster, claims) && c.node == claims[u].node
    requires forall d :: ClaimUse(c, ASCEND, d, Cores) == ClaimUse(claims[u], ASCEND, d, Cores)
    ensures FullCoresExclusive(cluster, (claims - {u})[u := c])
  {
    var after := (claims - {u})[u := c];
    forall a, b, d ensures FullCoreExclusive(cluster, after, a, b, d) {
      assert FullCoreExclusive(cluster, claims, a, b, d);
    }
  }
}
