/** Preparing a node for a refit: the pod's cached usage is taken off the snapshot and
    every candidate is preloaded, so that adding the moved container yields what the pod
    will be charged. */
module Preparing {
  import opened Usages
  import opened Devices
  import opened Lifecycle
  import opened Placement
  import opened Nodes
  import opened Fitting
  import opened QuotaManagers
  import opened Pods
  import opened Snapshots
  import opened Reach
  import opened Worlds
  import Moving
  import Nvidia

  // ---------- Taking usage off ----------

  /** Usage fell by `g`, stopping at zero. */
  ghost predicate Eases(a: Snapshot, b: Snapshot, g: (DeviceId, Res) -> nat) {
    a.Keys == b.Keys && forall d :: d in a ==> EasesOn(a[d], b[d], d, g)
  }

  ghost predicate EasesOn(a: DeviceUsage, b: DeviceUsage, d: DeviceId, g: (DeviceId, Res) -> nat) {
    a.info == b.info && forall r :: b.use.Of(r) == Max(a.use.Of(r) - g(d, r), 0)
  }

  lemma EasesTrans(a: Snapshot, b: Snapshot, c: Snapshot, g: (DeviceId, Res) -> nat, h: (DeviceId, Res) -> nat, k: (DeviceId, Res) -> nat)
    requires Eases(a, b, g) && Eases(b, c, h) && forall d, r :: d in a ==> k(d, r) == g(d, r) + h(d, r)
    ensures Eases(a, c, k)
  {
    forall d | d in a ensures EasesOn(a[d], c[d], d, k) {
      assert EasesOn(a[d], b[d], d, g) && EasesOn(b[d], c[d], d, h);
    }
  }

  function Less(u: Usage, e: ContainerDevice): Usage {
    Usage(Max(u.mem - e.mem, 0), Max(u.cores - e.cores, 0), Max(u.slots - Max(e.slots, 1), 0))
  }

  lemma GrantEased(a: Snapshot, b: Snapshot, e: ContainerDevice)
    requires b == if e.uuid in a then a[e.uuid := a[e.uuid].(use := Less(a[e.uuid].use, e))] else a
    ensures Eases(a, b, RowFn([e]))
  {
    forall d | d in a ensures EasesOn(a[d], b[d], d, RowFn([e])) {
      forall r ensures RowUse([e], d, r) == UseOn(e, d, r) { SingleUse(e, d, r); }
    }
  }

  lemma NothingEased(a: Snapshot, g: (DeviceId, Res) -> nat)
    requires forall d, r :: g(d, r) == 0
    ensures Eases(a, a, g)
  {
  }

  /** Subtracts one grant from the device it names. */
  method ReleaseGrant(node: NodeUsage, e: ContainerDevice)
    requires node.Valid()
    modifies node`dev
    ensures node.Valid() && Eases(old(node.dev), node.dev, RowFn([e]))
  {
    if e.uuid in node.dev {
      node.dev := node.dev[e.uuid := node.dev[e.uuid].(use := Less(node.dev[e.uuid].use, e))];
    }
    GrantEased(old(node.dev), node.dev, e);
  }

  lemma NextEased(a: Snapshot, b: Snapshot, c: Snapshot, row: ContainerDevices, x: nat)
    requires x < |row| && Eases(a, b, RowFn(row[..x])) && Eases(b, c, RowFn([row[x]]))
    ensures Eases(a, c, RowFn(row[..x + 1]))
  {
    assert row[..x + 1] == row[..x] + [row[x]];
    forall d, r ensures RowUse(row[..x + 1], d, r) == RowUse(row[..x], d, r) + RowUse([row[x]], d, r) {
      RowUseAppend(row[..x], [row[x]], d, r);
    }
    EasesTrans(a, b, c, RowFn(row[..x]), RowFn([row[x]]), RowFn(row[..x + 1]));
  }

  /** Subtracts the grants of a row from the devices they name. */
  method ReleaseContainerUsage(node: NodeUsage, row: ContainerDevices)
    requires node.Valid()
    modifies node`dev
    ensures node.Valid() && Eases(old(node.dev), node.dev, RowFn(row))
  {
    assert row[..0] == [];
    NothingEased(node.dev, RowFn(row[..0]));
    for x := 0 to |row|
      invariant node.Valid() && Eases(old(node.dev), node.dev, RowFn(row[..x]))
    {
      ghost var before := node.dev;
      ReleaseGrant(node, row[x]);
      NextEased(old(node.dev), before, node.dev, row, x);
    }
    assert row[..|row|] == row;
  }

  method ReleaseRows(node: NodeUsage, rows: PodSingleDevice)
    requires node.Valid()
    modifies node`dev
    ensures node.Valid() && Eases(old(node.dev), node.dev, RowsFn(rows))
  {
    assert rows[..0] == [];
    NothingEased(node.dev, RowsFn(rows[..0]));
    for i := 0 to |rows|
      invariant node.Valid() && Eases(old(node.dev), node.dev, RowsFn(rows[..i]))
    {
      ghost var before := node.dev;
      ReleaseContainerUsage(node, rows[i]);
      assert rows[..i + 1][..i] == rows[..i];
      EasesTrans(old(node.dev), before, node.dev, RowsFn(rows[..i]), RowFn(rows[i]), RowsFn(rows[..i + 1]));
    }
    assert rows[..|rows|] == rows;
  }

  // ---------- What the pod uses per device ----------

  function AmountOn(usage: map<DeviceId, Usage>, d: DeviceId, r: Res): nat {
    if d in usage then usage[d].Of(r) else 0
  }

  /** One total per device. */
  method AggregateDeviceUsage(rows: PodSingleDevice) returns (usage: map<DeviceId, Usage>)
    ensures forall d, r :: AmountOn(usage, d, r) == RowsUse(rows, d, r)
  {
    usage := map[];
    assert rows[..0] == [];
    for i := 0 to |rows|
      invariant forall d, r :: AmountOn(usage, d, r) == RowsUse(rows[..i], d, r)
    {
      usage := AggregateRow(rows[i], usage);
      assert rows[..i + 1][..i] == rows[..i];
    }
    assert rows[..|rows|] == rows;
  }

  method AggregateRow(row: ContainerDevices, start: map<DeviceId, Usage>) returns (usage: map<DeviceId, Usage>)
    ensures forall d, r :: AmountOn(usage, d, r) == AmountOn(start, d, r) + RowUse(row, d, r)
  {
    usage := start;
    assert row[..0] == [];
    for x := 0 to |row|
      invariant forall d, r :: AmountOn(usage, d, r) == AmountOn(start, d, r) + RowUse(row[..x], d, r)
    {
      var e := row[x];
      var total := if e.uuid in usage then usage[e.uuid] else Usage(0, 0, 0);
      usage := usage[e.uuid := total.Plus(Usage(e.mem, e.cores, Max(e.slots, 1)))];
      assert row[..x + 1][..x] == row[..x];
    }
    assert row[..|row|] == row;
  }

  /** The grants of a row on one device. */
  method OnlyOn(row: ContainerDevices, d: DeviceId) returns (part: ContainerDevices)
    ensures forall r :: RowUse(part, d, r) == RowUse(row, d, r)
    ensures Distinct(row) ==> |part| <= 1
    ensures !Names(row, d) ==> part == []
  {
    part := [];
    assert row[..0] == [];
    for x := 0 to |row|
      invariant part == Filtered(row[..x], d)
    {
      assert row[..x + 1][..x] == row[..x];
      if row[x].uuid == d {
        part := part + [row[x]];
      }
    }
    assert row[..|row|] == row;
    forall r ensures RowUse(part, d, r) == RowUse(row, d, r) { FilteredUse(row, d, r); }
    FilteredSize(row, d);
  }

  /** The entries of a row on one device. */
  function Filtered(row: ContainerDevices, d: DeviceId): ContainerDevices {
    if row == [] then []
    else
      var front := Filtered(row[..|row| - 1], d);
      if row[|row| - 1].uuid == d then front + [row[|row| - 1]] else front
  }

  lemma {:induction false} FilteredUse(row: ContainerDevices, d: DeviceId, r: Res)
    ensures RowUse(Filtered(row, d), d, r) == RowUse(row, d, r)
  {
    if row != [] {
      var front, last := row[..|row| - 1], row[|row| - 1];
      FilteredUse(front, d, r);
      if last.uuid == d { RowUseAppend(Filtered(front, d), [last], d, r); SingleUse(last, d, r); }
    }
  }

  lemma {:induction false} FilteredSize(row: ContainerDevices, d: DeviceId)
    ensures Filtered(row, d) != [] ==> Names(row, d)
    ensures Distinct(row) ==> |Filtered(row, d)| <= 1
  {
    if row != [] {
      var front, last := row[..|row| - 1], row[|row| - 1];
      FilteredSize(front, d);
      if Names(front, d) {
        var i :| 0 <= i < |front| && front[i].uuid == d;
        assert row[i].uuid == d;
      }
    }
  }

  /** Row by row the same uses of `d`. */
  ghost predicate SameOn(a: PodSingleDevice, b: PodSingleDevice, d: DeviceId) {
    |a| == |b| && forall i :: 0 <= i < |a| ==> SameRowOn(a[i], b[i], d)
  }

  ghost predicate SameRowOn(a: ContainerDevices, b: ContainerDevices, d: DeviceId) {
    (forall r :: RowUse(a, d, r) == RowUse(b, d, r)) && (Distinct(b) ==> |a| <= 1)
  }

  method CandidateRows(rows: PodSingleDevice, d: DeviceId) returns (part: PodSingleDevice)
    ensures SameOn(part, rows, d)
    ensures forall i :: 0 <= i < |rows| && rows[i] == [] ==> part[i] == []
  {
    part := [];
    for i := 0 to |rows|
      invariant |part| == i && forall j :: 0 <= j < i ==> SameRowOn(part[j], rows[j], d) && (rows[j] == [] ==> part[j] == [])
    {
      var row := OnlyOn(rows[i], d);
      part := part + [row];
    }
  }

  /** What the pod is charged on one device with the container moved there. Collapsing is
      done device by device, so the other devices' grants are left out first. */
  method EffectiveUsageOnCandidate(pod: Pod, without: PodSingleDevice, idx: nat, mem: nat, cores: nat, d: DeviceId, released: bool)
    returns (u: Usage)
    requires idx < |without| && without[idx] == []
    ensures InitRowsDistinct(pod, without) ==> forall r :: u.Of(r) == Moving.WithMoved(pod, without, idx, released, mem, cores, d, r)
  {
    var rows := CandidateRows(without, d);
    rows := rows[idx := rows[idx] + [Moving.Grant(d, mem, cores)]];
    var effective := EffectivePodDeviceUsage(pod, map[NVIDIA := rows], released);
    var usage := AggregateDeviceUsage(Rows(effective, NVIDIA));
    u := if d in usage then usage[d] else Usage(0, 0, 0);
    if InitRowsDistinct(pod, without) {
      forall r ensures u.Of(r) == Moving.WithMoved(pod, without, idx, released, mem, cores, d, r) {
        CandidateCharge(pod, without, rows, idx, mem, cores, d, released, r);
        assert AmountOn(usage, d, r) == RowsUse(Rows(effective, NVIDIA), d, r);
      }
    }
  }

  lemma CandidateCharge(pod: Pod, without: PodSingleDevice, rows: PodSingleDevice, idx: nat, mem: nat, cores: nat, d: DeviceId,
                        released: bool, r: Res)
    requires idx < |without| == |rows| && without[idx] == [] && InitRowsDistinct(pod, without)
    requires rows[idx] == [Moving.Grant(d, mem, cores)] && forall i :: 0 <= i < |rows| && i != idx ==> SameRowOn(rows[i], without[i], d)
    ensures RowsUse(Rows(EffectiveDevices(pod, map[NVIDIA := rows], released), NVIDIA), d, r)
      == Moving.WithMoved(pod, without, idx, released, mem, cores, d, r)
  {
    assert InitRowsDistinct(pod, rows);
    EffectiveRowUse(pod, NVIDIA, rows, released, d, r);
    var row := EffectiveRow(pod, NVIDIA, rows, released);
    assert Rows(EffectiveDevices(pod, map[NVIDIA := rows], released), NVIDIA) == [row];
    SingleRowsUse([row], d, r);
    var moved := without[idx := [Moving.Grant(d, mem, cores)]];
    forall i | 0 <= i < |rows| ensures RowUse(rows[i], d, r) == RowUse(moved[i], d, r) {
      if i != idx { assert SameRowOn(rows[i], without[i], d); }
    }
    EffectiveCongruent(pod, rows, moved, released, d, r);
  }

  // ---------- The preload ----------

  /** What a device gets on top: a candidate the preload, any other NVIDIA device what the
      rest of the pod uses of it. */
  ghost function Load(info: DeviceInfo, pod: Pod, rows: PodSingleDevice, idx: nat, mem: nat, cores: nat, allowed: set<DeviceId>,
                      released: bool, r: Res): nat
    requires idx < |rows|
  {
    if info.vendor != NVIDIA then 0
    else if info.id in allowed then Moving.Preload(pod, rows, idx, released, mem, cores, info.id, r)
    else Effective(pod, rows[idx := []], released, info.id, r)
  }

  ghost predicate LoadedOn(a: DeviceUsage, b: DeviceUsage, pod: Pod, rows: PodSingleDevice, idx: nat, mem: nat, cores: nat,
                           allowed: set<DeviceId>, released: bool)
    requires idx < |rows|
  {
    b.info == a.info && forall r :: b.use.Of(r) == a.use.Of(r) + Load(a.info, pod, rows, idx, mem, cores, allowed, released, r)
  }

  /** What the pod uses of each device without the moved container. */
  method WithoutUsage(pod: Pod, raw: PodDevices, without: PodSingleDevice, released: bool) returns (usage: map<DeviceId, Usage>)
    ensures InitRowsDistinct(pod, without) ==> forall d, r :: AmountOn(usage, d, r) == Effective(pod, without, released, d, r)
  {
    var effective := EffectivePodDeviceUsage(pod, raw[NVIDIA := without], released);
    usage := AggregateDeviceUsage(Rows(effective, NVIDIA));
    if InitRowsDistinct(pod, without) {
      var row := EffectiveRow(pod, NVIDIA, without, released);
      assert Rows(effective, NVIDIA) == [row];
      forall d, r ensures AmountOn(usage, d, r) == Effective(pod, without, released, d, r) {
        SingleRowsUse([row], d, r);
        EffectiveRowUse(pod, NVIDIA, without, released, d, r);
      }
    }
  }

  /** What one device is loaded with. */
  method PreloadOf(info: DeviceInfo, pod: Pod, rows: PodSingleDevice, without: map<DeviceId, Usage>, idx: nat, mem: nat, cores: nat,
                   allowed: set<DeviceId>, released: bool)
    returns (load: Usage)
    requires idx < |rows|
    requires InitRowsDistinct(pod, rows[idx := []]) ==> forall d, r :: AmountOn(without, d, r) == Effective(pod, rows[idx := []], released, d, r)
    ensures InitRowsDistinct(pod, rows[idx := []]) ==> forall r :: load.Of(r) == Load(info, pod, rows, idx, mem, cores, allowed, released, r)
  {
    load := Usage(0, 0, 0);
    if info.vendor != NVIDIA {
      return;
    }
    if info.id in without {
      load := without[info.id];
    }
    assert forall r :: load.Of(r) == AmountOn(without, info.id, r);
    if info.id in allowed {
      var rest := rows[idx := []];
      var use := EffectiveUsageOnCandidate(pod, rest, idx, mem, cores, info.id, released);
      load := Usage(Max(use.mem - mem, 0), Max(use.cores - cores, 0), Max(use.slots - 1, 0));
      assert rest[idx := [Moving.Grant(info.id, mem, cores)]] == rows[idx := [Moving.Grant(info.id, mem, cores)]];
      assert forall r :: load.Of(r) == Max(use.Of(r) - Moving.Taken(mem, cores, r), 0);
    }
  }

  /** The node as the refit's fit sees it. */
  ghost predicate PreparedFrom(a: Snapshot, b: Snapshot, cached: PodSingleDevice, pod: Pod, rows: PodSingleDevice, idx: nat, mem: nat,
                               cores: nat, allowed: set<DeviceId>, released: bool)
    requires idx < |rows|
  {
    a.Keys == b.Keys && forall d :: d in a ==> PreparedFromOn(a[d], b[d], d, cached, pod, rows, idx, mem, cores, allowed, released)
  }

  ghost predicate PreparedFromOn(a: DeviceUsage, b: DeviceUsage, d: DeviceId, cached: PodSingleDevice, pod: Pod, rows: PodSingleDevice,
                                 idx: nat, mem: nat, cores: nat, allowed: set<DeviceId>, released: bool)
    requires idx < |rows|
  {
    && b.info == a.info
    && (forall r :: b.use.Of(r) == Max(a.use.Of(r) - RowsUse(cached, d, r), 0) + Load(a.info, pod, rows, idx, mem, cores, allowed, released, r))
  }

  ghost predicate Loaded(a: Snapshot, b: Snapshot, pod: Pod, rows: PodSingleDevice, idx: nat, mem: nat, cores: nat,
                         allowed: set<DeviceId>, released: bool)
    requires idx < |rows|
  {
    a.Keys == b.Keys && forall d :: d in a ==> LoadedOn(a[d], b[d], pod, rows, idx, mem, cores, allowed, released)
  }

  lemma PreparedJoin(a: Snapshot, mid: Snapshot, b: Snapshot, cached: PodSingleDevice, pod: Pod, rows: PodSingleDevice, idx: nat, mem: nat,
                     cores: nat, allowed: set<DeviceId>, released: bool)
    requires idx < |rows| && Eases(a, mid, RowsFn(cached)) && Loaded(mid, b, pod, rows, idx, mem, cores, allowed, released)
    ensures PreparedFrom(a, b, cached, pod, rows, idx, mem, cores, allowed, released)
  {
    forall d | d in a ensures PreparedFromOn(a[d], b[d], d, cached, pod, rows, idx, mem, cores, allowed, released) {
      assert EasesOn(a[d], mid[d], d, RowsFn(cached));
      assert LoadedOn(mid[d], b[d], pod, rows, idx, mem, cores, allowed, released);
    }
  }

  method PreloadDevices(node: NodeUsage, pod: Pod, rows: PodSingleDevice, without: map<DeviceId, Usage>, idx: nat, mem: nat, cores: nat,
                        allowed: set<DeviceId>, released: bool)
    requires node.Valid() && idx < |rows|
    requires InitRowsDistinct(pod, rows[idx := []]) ==> forall d, r :: AmountOn(without, d, r) == Effective(pod, rows[idx := []], released, d, r)
    modifies node`dev
    ensures node.Valid() && node.dev.Keys == old(node.dev.Keys)
    ensures InitRowsDistinct(pod, rows[idx := []]) ==> Loaded(old(node.dev), node.dev, pod, rows, idx, mem, cores, allowed, released)
  {
    ghost var exact := InitRowsDistinct(pod, rows[idx := []]);
    for i := 0 to |node.order|
      invariant node.Valid() && LoadedUpTo(node.order, i, old(node.dev), node.dev, exact, pod, rows, idx, mem, cores, allowed, released)
    {
      var d := node.order[i];
      var dev := node.dev[d];
      var load := PreloadOf(dev.info, pod, rows, without, idx, mem, cores, allowed, released);
      ghost var before := node.dev;
      node.dev := node.dev[d := dev.(use := dev.use.Plus(load))];
      if exact { LoadAdded(dev, load, pod, rows, idx, mem, cores, allowed, released); }
      LoadNext(node.order, i, old(node.dev), before, node.dev, exact, pod, rows, idx, mem, cores, allowed, released);
    }
  }

  /** The devices before position `i` are loaded, those from `i` on as they were. */
  ghost predicate LoadedUpTo(order: seq<DeviceId>, i: nat, was: Snapshot, now: Snapshot, exact: bool, pod: Pod, rows: PodSingleDevice, idx: nat,
                             mem: nat, cores: nat, allowed: set<DeviceId>, released: bool)
    requires idx < |rows|
  {
    && was.Keys == now.Keys && (forall d :: d in order <==> d in was)
    && (forall j :: i <= j < |order| ==> now[order[j]] == was[order[j]])
    && (exact ==> forall j :: 0 <= j < i && j < |order| ==> LoadedOn(was[order[j]], now[order[j]], pod, rows, idx, mem, cores, allowed, released))
  }

  lemma LoadNext(order: seq<DeviceId>, i: nat, was: Snapshot, before: Snapshot, now: Snapshot, exact: bool, pod: Pod, rows: PodSingleDevice,
                 idx: nat, mem: nat, cores: nat, allowed: set<DeviceId>, released: bool)
    requires i < |order| && idx < |rows| && NoDuplicates(order)
    requires LoadedUpTo(order, i, was, before, exact, pod, rows, idx, mem, cores, allowed, released)
    requires order[i] in now && now == before[order[i] := now[order[i]]]
    requires exact ==> LoadedOn(before[order[i]], now[order[i]], pod, rows, idx, mem, cores, allowed, released)
    ensures LoadedUpTo(order, i + 1, was, now, exact, pod, rows, idx, mem, cores, allowed, released)
  {
  }

  lemma LoadAdded(dev: DeviceUsage, load: Usage, pod: Pod, rows: PodSingleDevice, idx: nat, mem: nat, cores: nat, allowed: set<DeviceId>,
                  released: bool)
    requires idx < |rows| && forall r :: load.Of(r) == Load(dev.info, pod, rows, idx, mem, cores, allowed, released, r)
    ensures LoadedOn(dev, dev.(use := dev.use.Plus(load)), pod, rows, idx, mem, cores, allowed, released)
  {
  }

  method PreparePhaseAwareRefitUsage(node: NodeUsage, pod: Pod, cached: PodSingleDevice, raw: PodDevices, idx: nat, mem: nat, cores: nat,
                                     allowed: set<DeviceId>, released: bool)
    requires node.Valid() && NVIDIA in raw && idx < |raw[NVIDIA]|
    modifies node`dev
    ensures node.Valid() && node.dev.Keys == old(node.dev.Keys)
    ensures InitRowsDistinct(pod, raw[NVIDIA][idx := []]) ==>
      PreparedFrom(old(node.dev), node.dev, cached, pod, raw[NVIDIA], idx, mem, cores, allowed, released)
  {
    ReleaseRows(node, cached);
    ghost var mid := node.dev;
    var without := WithoutUsage(pod, raw, raw[NVIDIA][idx := []], released);
    PreloadDevices(node, pod, raw[NVIDIA], without, idx, mem, cores, allowed, released);
    if InitRowsDistinct(pod, raw[NVIDIA][idx := []]) {
      PreparedJoin(old(node.dev), mid, node.dev, cached, pod, raw[NVIDIA], idx, mem, cores, allowed, released);
    }
  }

  // ---------- The restricted fit ----------

  /** The devices without the NVIDIA devices that are not allowed. */
  function Restricted(devs: Snapshot, allowed: set<DeviceId>): Snapshot {
    map d | d in devs && (devs[d].info.vendor == NVIDIA ==> d in allowed) :: devs[d]
  }

  /** A copy of the node whose NVIDIA devices are limited to the allowed ones. */
  method RestrictNodeUsage(node: NodeUsage, allowed: set<DeviceId>) returns (restricted: NodeUsage)
    requires node.Valid()
    ensures fresh(restricted) && restricted.Valid()
    ensures restricted.dev == Restricted(node.dev, allowed)
  {
    var order: seq<DeviceId> := [];
    for i := 0 to |node.order|
      invariant NoDuplicates(order) && forall x :: 0 <= x < |order| ==> order[x] in node.order[..i]
      invariant forall d :: d in order <==> d in node.order[..i] && (node.dev[d].info.vendor == NVIDIA ==> d in allowed)
    {
      var d := node.order[i];
      assert d !in node.order[..i];
      if node.dev[d].info.vendor == NVIDIA && d !in allowed {
        continue;
      }
      order := order + [d];
    }
    restricted := new NodeUsage(order, map d | d in node.dev && d in order :: node.dev[d]);
  }

  /** Without any device left the request is refused. */
  lemma NoneAllowed(devs: Snapshot, sel: Selection, pod: Pod, req: Request, before: PodSingleDevice, quota: QuotaManager)
    requires forall d :: d in devs ==> devs[d].info.vendor != NVIDIA
    ensures Answers(devs, sel, pod, NVIDIA, req, before, quota.reg, quota.ledger, false, [])
  {
    assert ListOf(devs, NVIDIA, []);
    TooFew([], sel, pod, NVIDIA, req, before, quota.reg, quota.ledger);
  }

  /** The ordinary fit over the allowed devices. There is one request, of one type. */
  method FitInRestrictedDevices(node: NodeUsage, req: Request, allowed: set<DeviceId>, pod: Pod, sel: Selection, quota: QuotaManager,
                                placed: PodDevices)
    returns (ok: bool, row: ContainerDevices)
    requires node.Valid()
    ensures ok ==> RowOk(node.dev, sel, pod, NVIDIA, req, Rows(placed, NVIDIA), row)
    ensures ok ==> forall x :: 0 <= x < |row| ==> row[x].uuid in allowed
    ensures ok ==> Nvidia.QuotaOk(quota.reg, quota.ledger, pod, Rows(placed, NVIDIA) + [row])
    ensures Answers(Restricted(node.dev, allowed), sel, pod, NVIDIA, req, Rows(placed, NVIDIA), quota.reg, quota.ledger, ok, row)
  {
    var restricted := RestrictNodeUsage(node, allowed);
    if forall d :: d in restricted.dev ==> restricted.dev[d].info.vendor != NVIDIA {
      NoneAllowed(restricted.dev, sel, pod, req, Rows(placed, NVIDIA), quota);
      return false, [];
    }
    ok, row := FitType(restricted, NVIDIA, req, pod, sel, quota, placed, restricted.dev);
  }
}
