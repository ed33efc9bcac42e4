/** Rebuilding the usage of a node's devices from the cached pods. */
module Snapshots {
  import opened Usages
  import opened Devices
  import opened Placement
  import opened Nodes
  import opened Pods

  function RowsUse(rows: PodSingleDevice, d: DeviceId, r: Res): nat {
    if rows == [] then 0 else RowsUse(rows[..|rows| - 1], d, r) + RowUse(rows[|rows| - 1], d, r)
  }

  function TypeUse(d: DeviceId, r: Res): (string, PodSingleDevice) -> nat {
    (t, rows) => RowsUse(rows, d, r)
  }

  /** What all grants of a pod's devices take on `d`, whatever type they are listed under. */
  ghost function PodUse(pd: PodDevices, d: DeviceId, r: Res): nat {
    SumMap(pd, TypeUse(d, r))
  }

  ghost function CachedShare(node: string, d: DeviceId, r: Res): (string, PodInfo) -> nat {
    (u: string, pi: PodInfo) => if pi.node == node then PodUse(pi.devices, d, r) else 0
  }

  /** What the cached pods of a node use of its device `d`. */
  ghost function CachedUse(cache: Cache, node: string, d: DeviceId, r: Res): nat {
    SumMap(cache, CachedShare(node, d, r))
  }

  // ---------- Who is listed with a device ----------

  /** How often the grants of a row list tenant `tn` with device `d`. */
  function RowListing(row: ContainerDevices, uid: string, d: DeviceId, tn: Tenant): nat {
    if row == [] then 0
    else RowListing(row[..|row| - 1], uid, d, tn) + EntryListed(row[|row| - 1], uid, d, tn)
  }

  function EntryListed(e: ContainerDevice, uid: string, d: DeviceId, tn: Tenant): nat {
    if e.uuid == d && tn == Tenant(uid, e.cores) then 1 else 0
  }

  function RowsListed(rows: PodSingleDevice, uid: string, d: DeviceId, tn: Tenant): nat {
    if rows == [] then 0 else RowsListed(rows[..|rows| - 1], uid, d, tn) + RowListing(rows[|rows| - 1], uid, d, tn)
  }

  function TypeListed(uid: string, d: DeviceId, tn: Tenant): (string, PodSingleDevice) -> nat {
    (t, rows) => RowsListed(rows, uid, d, tn)
  }

  ghost function PodListed(pd: PodDevices, uid: string, d: DeviceId, tn: Tenant): nat {
    SumMap(pd, TypeListed(uid, d, tn))
  }

  ghost function ListedShare(node: string, d: DeviceId, tn: Tenant): (string, PodInfo) -> nat {
    (u: string, pi: PodInfo) => if pi.node == node then PodListed(pi.devices, u, d, tn) else 0
  }

  /** How often the cached pods of a node list tenant `tn` with device `d`. */
  ghost function CachedListed(cache: Cache, node: string, d: DeviceId, tn: Tenant): nat {
    SumMap(cache, ListedShare(node, d, tn))
  }

  // ---------- Growing usage ----------

  /** What is added: to the counters of a device, and to its tenants. */
  datatype Growth = Growth(use: (DeviceId, Res) -> nat, listed: (DeviceId, Tenant) -> nat)

  ghost predicate Adds(a: Snapshot, b: Snapshot, g: Growth) {
    a.Keys == b.Keys && forall d :: d in a ==> AddsOn(a[d], b[d], d, g)
  }

  ghost predicate AddsOn(a: DeviceUsage, b: DeviceUsage, d: DeviceId, g: Growth) {
    && a.info == b.info
    && (forall r :: b.use.Of(r) == a.use.Of(r) + g.use(d, r))
    && (forall tn :: multiset(b.tenants)[tn] == multiset(a.tenants)[tn] + g.listed(d, tn))
  }

  ghost predicate SumsTo(g: Growth, h: Growth, k: Growth) {
    && (forall d, r :: k.use(d, r) == g.use(d, r) + h.use(d, r))
    && (forall d, tn :: k.listed(d, tn) == g.listed(d, tn) + h.listed(d, tn))
  }

  lemma AddsTrans(a: Snapshot, b: Snapshot, c: Snapshot, g: Growth, h: Growth, k: Growth)
    requires Adds(a, b, g) && Adds(b, c, h) && SumsTo(g, h, k)
    ensures Adds(a, c, k)
  {
    forall d | d in a ensures AddsOn(a[d], c[d], d, k) {
      assert AddsOn(a[d], b[d], d, g) && AddsOn(b[d], c[d], d, h);
    }
  }

  function RowFn(row: ContainerDevices): (DeviceId, Res) -> nat {
    (d, r) => RowUse(row, d, r)
  }

  function RowsFn(rows: PodSingleDevice): (DeviceId, Res) -> nat {
    (d, r) => RowsUse(rows, d, r)
  }

  function RowGrowth(uid: string, row: ContainerDevices): Growth {
    Growth(RowFn(row), (d, tn) => RowListing(row, uid, d, tn))
  }

  function RowsGrowth(uid: string, rows: PodSingleDevice): Growth {
    Growth(RowsFn(rows), (d, tn) => RowsListed(rows, uid, d, tn))
  }

  ghost function PodGrowth(uid: string, pd: PodDevices): Growth {
    Growth((d: DeviceId, r: Res) => PodUse(pd, d, r), (d: DeviceId, tn: Tenant) => PodListed(pd, uid, d, tn))
  }

  ghost function CacheGrowth(cache: Cache, node: string): Growth {
    Growth((d: DeviceId, r: Res) => CachedUse(cache, node, d, r), (d: DeviceId, tn: Tenant) => CachedListed(cache, node, d, tn))
  }

  lemma SingleUse(e: ContainerDevice, d: DeviceId, r: Res)
    ensures RowUse([e], d, r) == UseOn(e, d, r)
  {
    assert [e][..0] == [];
  }

  lemma SingleListed(e: ContainerDevice, uid: string, d: DeviceId, tn: Tenant)
    ensures RowListing([e], uid, d, tn) == EntryListed(e, uid, d, tn)
  {
    assert [e][..0] == [];
  }

  lemma GrantGrows(dev: DeviceUsage, uid: string, e: ContainerDevice, d: DeviceId)
    ensures AddsOn(dev, if e.uuid == d then dev.(use := dev.use.Plus(Usage(e.mem, e.cores, Max(e.slots, 1))), tenants := dev.tenants + [Tenant(uid, e.cores)]) else dev,
                   d, RowGrowth(uid, [e]))
  {
    forall r ensures RowUse([e], d, r) == UseOn(e, d, r) { SingleUse(e, d, r); }
    forall tn ensures RowListing([e], uid, d, tn) == EntryListed(e, uid, d, tn) { SingleListed(e, uid, d, tn); }
  }

  /** Books one grant on the device it names; a grant on an unknown device is skipped. */
  method AddGrant(devs: Snapshot, uid: string, e: ContainerDevice) returns (now: Snapshot)
    ensures Adds(devs, now, RowGrowth(uid, [e]))
  {
    now := devs;
    if e.uuid in devs {
      var dev := devs[e.uuid];
      now := devs[e.uuid := dev.(use := dev.use.Plus(Usage(e.mem, e.cores, Max(e.slots, 1))), tenants := dev.tenants + [Tenant(uid, e.cores)])];
    }
    forall d | d in devs ensures AddsOn(devs[d], now[d], d, RowGrowth(uid, [e])) { GrantGrows(devs[d], uid, e, d); }
  }

  method AddRowUsage(devs: Snapshot, uid: string, row: ContainerDevices) returns (now: Snapshot)
    ensures Adds(devs, now, RowGrowth(uid, row))
  {
    now := devs;
    assert row[..0] == [];
    for x := 0 to |row|
      invariant Adds(devs, now, RowGrowth(uid, row[..x]))
    {
      ghost var before := now;
      now := AddGrant(now, uid, row[x]);
      GrantAdded(uid, row, x);
      AddsTrans(devs, before, now, RowGrowth(uid, row[..x]), RowGrowth(uid, [row[x]]), RowGrowth(uid, row[..x + 1]));
    }
    assert row[..|row|] == row;
  }

  lemma GrantAdded(uid: string, row: ContainerDevices, x: nat)
    requires x < |row|
    ensures SumsTo(RowGrowth(uid, row[..x]), RowGrowth(uid, [row[x]]), RowGrowth(uid, row[..x + 1]))
  {
    assert row[..x + 1][..x] == row[..x];
    forall d, r ensures RowUse(row[..x + 1], d, r) == RowUse(row[..x], d, r) + RowUse([row[x]], d, r) { SingleUse(row[x], d, r); }
    forall d, tn ensures RowListing(row[..x + 1], uid, d, tn) == RowListing(row[..x], uid, d, tn) + RowListing([row[x]], uid, d, tn) {
      SingleListed(row[x], uid, d, tn);
    }
  }

  method AddRowsUsage(devs: Snapshot, uid: string, rows: PodSingleDevice) returns (now: Snapshot)
    ensures Adds(devs, now, RowsGrowth(uid, rows))
  {
    now := devs;
    assert rows[..0] == [];
    for i := 0 to |rows|
      invariant Adds(devs, now, RowsGrowth(uid, rows[..i]))
    {
      ghost var before := now;
      now := AddRowUsage(now, uid, rows[i]);
      assert rows[..i + 1][..i] == rows[..i];
      AddsTrans(devs, before, now, RowsGrowth(uid, rows[..i]), RowGrowth(uid, rows[i]), RowsGrowth(uid, rows[..i + 1]));
    }
    assert rows[..|rows|] == rows;
  }

  method AddPodUsage(devs: Snapshot, uid: string, pd: PodDevices) returns (now: Snapshot)
    ensures Adds(devs, now, PodGrowth(uid, pd))
  {
    now := devs;
    var todo := pd.Keys;
    ghost var done: PodDevices := map[];
    while todo != {}
      invariant todo <= pd.Keys && done == map t | t in pd && t !in todo :: pd[t]
      invariant Adds(devs, now, PodGrowth(uid, done))
    {
      var t :| t in todo;
      ghost var before := now;
      now := AddRowsUsage(now, uid, pd[t]);
      TypeAdded(uid, done, t, pd[t]);
      AddsTrans(devs, before, now, PodGrowth(uid, done), RowsGrowth(uid, pd[t]), PodGrowth(uid, done[t := pd[t]]));
      done, todo := done[t := pd[t]], todo - {t};
    }
    assert done == pd;
  }

  lemma TypeAdded(uid: string, done: PodDevices, t: string, rows: PodSingleDevice)
    requires t !in done
    ensures SumsTo(PodGrowth(uid, done), RowsGrowth(uid, rows), PodGrowth(uid, done[t := rows]))
  {
    assert done - {t} == done;
    forall d, r ensures PodUse(done[t := rows], d, r) == PodUse(done, d, r) + RowsUse(rows, d, r) {
      SumMapUpdate(done, TypeUse(d, r), t, rows);
    }
    forall d, tn ensures PodListed(done[t := rows], uid, d, tn) == PodListed(done, uid, d, tn) + RowsListed(rows, uid, d, tn) {
      SumMapUpdate(done, TypeListed(uid, d, tn), t, rows);
    }
  }

  // ---------- The snapshot ----------

  /** The devices of a node with what the cached pods on it use, and exactly the tenants
      that their grants list. */
  ghost predicate Shows(devs: Snapshot, infos: map<DeviceId, DeviceInfo>, cache: Cache, node: string) {
    && devs.Keys == infos.Keys
    && (forall d :: d in infos ==> devs[d].info == infos[d])
    && (forall d, r :: d in infos ==> devs[d].use.Of(r) == CachedUse(cache, node, d, r))
    && (forall d, tn :: d in infos ==> multiset(devs[d].tenants)[tn] == CachedListed(cache, node, d, tn))
  }

  lemma PodAdded(done: Cache, node: string, u: string, pi: PodInfo)
    requires u !in done
    ensures pi.node == node ==> SumsTo(CacheGrowth(done, node), PodGrowth(u, pi.devices), CacheGrowth(done[u := pi], node))
    ensures pi.node != node ==> SumsTo(CacheGrowth(done, node), NO_GROWTH, CacheGrowth(done[u := pi], node))
  {
    assert done - {u} == done;
    forall d, r ensures CachedUse(done[u := pi], node, d, r) == CachedUse(done, node, d, r) + if pi.node == node then PodUse(pi.devices, d, r) else 0 {
      SumMapUpdate(done, CachedShare(node, d, r), u, pi);
    }
    forall d, tn ensures CachedListed(done[u := pi], node, d, tn) == CachedListed(done, node, d, tn) + if pi.node == node then PodListed(pi.devices, u, d, tn) else 0 {
      SumMapUpdate(done, ListedShare(node, d, tn), u, pi);
    }
  }

  const NO_GROWTH := Growth((d: DeviceId, r: Res) => 0, (d: DeviceId, tn: Tenant) => 0)

  method AddCachedPod(devs: Snapshot, node: string, u: string, pi: PodInfo, ghost blank: Snapshot, ghost done: Cache) returns (now: Snapshot)
    requires u !in done && Adds(blank, devs, CacheGrowth(done, node))
    ensures Adds(blank, now, CacheGrowth(done[u := pi], node))
  {
    now := devs;
    PodAdded(done, node, u, pi);
    if pi.node == node {
      now := AddPodUsage(devs, u, pi.devices);
      AddsTrans(blank, devs, now, CacheGrowth(done, node), PodGrowth(u, pi.devices), CacheGrowth(done[u := pi], node));
    } else {
      AddsTrans(blank, devs, now, CacheGrowth(done, node), NO_GROWTH, CacheGrowth(done[u := pi], node));
    }
  }

  lemma ShowsAll(infos: map<DeviceId, DeviceInfo>, blank: Snapshot, devs: Snapshot, cache: Cache, node: string)
    requires blank == map d | d in infos :: DeviceUsage(infos[d], Usage(0, 0, 0), [])
    requires Adds(blank, devs, CacheGrowth(cache, node))
    ensures Shows(devs, infos, cache, node)
  {
    forall d | d in infos ensures AddsOn(blank[d], devs[d], d, CacheGrowth(cache, node)) && multiset(blank[d].tenants) == multiset{} {}
  }

  /** The devices of a node charged with everything the cached pods hold on them. */
  method GetNodesUsage(infos: map<DeviceId, DeviceInfo>, order: seq<DeviceId>, cache: Cache, node: string) returns (usage: NodeUsage)
    requires NoDuplicates(order) && (forall d :: d in order <==> d in infos) && forall d :: d in infos ==> infos[d].id == d
    ensures fresh(usage) && usage.Valid() && Shows(usage.dev, infos, cache, node)
  {
    var blank := map d | d in infos :: DeviceUsage(infos[d], Usage(0, 0, 0), []);
    var devs := blank;
    var todo := cache.Keys;
    ghost var done: Cache := map[];
    while todo != {}
      invariant todo <= cache.Keys && done == map u | u in cache && u !in todo :: cache[u]
      invariant Adds(blank, devs, CacheGrowth(done, node))
    {
      var u :| u in todo;
      devs := AddCachedPod(devs, node, u, cache[u], blank, done);
      done, todo := done[u := cache[u]], todo - {u};
    }
    assert done == cache;
    ShowsAll(infos, blank, devs, cache, node);
    usage := new NodeUsage(order, devs);
  }

  // ---------- Reading the tenants off ----------

  lemma {:induction false} RowLists(row: ContainerDevices, uid: string, x: nat)
    requires x < |row|
    ensures RowListing(row, uid, row[x].uuid, Tenant(uid, row[x].cores)) > 0
  {
    if x < |row| - 1 { RowLists(row[..|row| - 1], uid, x); }
  }

  lemma {:induction false} RowsList(rows: PodSingleDevice, uid: string, i: nat, d: DeviceId, tn: Tenant)
    requires i < |rows|
    ensures RowsListed(rows, uid, d, tn) >= RowListing(rows[i], uid, d, tn)
  {
    if i < |rows| - 1 { RowsList(rows[..|rows| - 1], uid, i, d, tn); }
  }

  /** Every grant of a cached pod is listed with the device it names. */
  lemma GrantListed(cache: Cache, node: string, u: string, t: string, i: nat, x: nat)
    requires u in cache && cache[u].node == node && t in cache[u].devices && i < |cache[u].devices[t]| && x < |cache[u].devices[t][i]|
    ensures var e := cache[u].devices[t][i][x]; CachedListed(cache, node, e.uuid, Tenant(u, e.cores)) > 0
  {
    var pd := cache[u].devices;
    var e: ContainerDevice := pd[t][i][x];
    RowLists(pd[t][i], u, x);
    RowsList(pd[t], u, i, e.uuid, Tenant(u, e.cores));
    SumMapRemove(pd, TypeListed(u, e.uuid, Tenant(u, e.cores)), t);
    SumMapRemove(cache, ListedShare(node, e.uuid, Tenant(u, e.cores)), u);
  }

  lemma {:induction false} UnnamedListed(row: ContainerDevices, uid: string, d: DeviceId, tn: Tenant)
    requires !Names(row, d)
    ensures RowListing(row, uid, d, tn) == 0
  {
    if row != [] {
      var front := row[..|row| - 1];
      assert row[|row| - 1].uuid != d;
      forall i | 0 <= i < |front| ensures front[i].uuid != d { assert front[i] == row[i]; }
      UnnamedListed(front, uid, d, tn);
    }
  }

  /** A row that names each device once lists one tenant with it, with the cores it uses there. */
  lemma DistinctListed(row: ContainerDevices, uid: string, d: DeviceId, tn: Tenant)
    requires Distinct(row)
    ensures RowListing(row, uid, d, tn) == if Names(row, d) && tn == Tenant(uid, RowUse(row, d, Cores)) then 1 else 0
  {
    if Names(row, d) {
      var x :| 0 <= x < |row| && row[x].uuid == d;
      RowUseDistinct(row, Cores, x);
      ListedAt(row, uid, x, tn);
    } else {
      UnnamedListed(row, uid, d, tn);
    }
  }

  lemma {:induction false} ListedAt(row: ContainerDevices, uid: string, x: nat, tn: Tenant)
    requires Distinct(row) && x < |row|
    ensures RowListing(row, uid, row[x].uuid, tn) == EntryListed(row[x], uid, row[x].uuid, tn)
  {
    var front := row[..|row| - 1];
    if x < |row| - 1 {
      ListedAt(front, uid, x, tn);
    } else {
      UnnamedListed(front, uid, row[x].uuid, tn);
    }
  }
}
