/** The scheduler's methods take the steps of the runs: in every consistent state their
    preconditions hold, and what they guarantee is what the steps describe. */
module Stepping {
  import opened Usages
  import opened Devices
  import opened Collapse
  import opened Lifecycle
  import opened Quotas
  import opened Placement
  import opened Fitting
  import opened Pods
  import opened Claims
  import opened Worlds
  import opened Assigning
  import opened Relocating
  import opened Runs
  import opened Schedulers
  import Refits

  /** A type with one charged row counts by that row, a type without rows like an empty one. */
  lemma OneRowCount(reg: Registry, pd: PodDevices, t: string, res: string)
    requires t in reg && (t in pd ==> |pd[t]| == 1)
    ensures TypeCount(reg, pd, res)(t) == RowCount(reg[t], RowAt(pd, t, 0), res)
  {
    var rows := Rows(pd, t);
    if t in pd {
      assert rows[..0] == [];
      assert RowsCount(reg[t], rows, res) == RowsCount(reg[t], [], res) + RowCount(reg[t], rows[0], res);
    }
  }

  lemma {:induction false} SameRowsSameCount(reg: Registry, a: PodDevices, b: PodDevices, types: set<string>, res: string)
    requires forall t :: t in a ==> |a[t]| == 1
    requires forall t :: t in b ==> |b[t]| == 1
    requires forall t :: RowAt(a, t, 0) == RowAt(b, t, 0)
    ensures SumSet(types, TypeCount(reg, a, res)) == SumSet(types, TypeCount(reg, b, res))
  {
    if types != {} {
      var t :| t in types;
      SumSetRemove(types, TypeCount(reg, a, res), t);
      SumSetRemove(types, TypeCount(reg, b, res), t);
      SameRowsSameCount(reg, a, b, types - {t}, res);
      if t in reg {
        OneRowCount(reg, a, t, res);
        OneRowCount(reg, b, t, res);
      }
    }
  }

  /** In a consistent state an add event carries what the cached pod was charged. */
  lemma EventsRecur(cluster: Cluster, w: World, u: string, reg: Registry)
    requires Consistent(cluster, w) && u in w.api
    ensures Recurs(reg, w.cache, w.api[u])
  {
    var o := w.api[u];
    assert ConsistentAt(cluster, w, u);
    if u in w.cache && !w.cache[u].released {
      EffectiveMatch(o, false);
      var now, was := CollapsedDevices(o.pod, RawOf(o)), w.cache[u].devices;
      forall res ensures PodCount(reg, now, res) == PodCount(reg, was, res) {
        SameRowsSameCount(reg, now, was, reg.Keys, res);
      }
    }
  }

  /** A node that Filter chooses is a reservation step. */
  lemma FilterTakesStep(cluster: Cluster, w: World, u: string, node: string, sel: Selection, reg: Registry, ledger: Ledger, snap: Snapshot, raw: PodDevices)
    requires Consistent(cluster, w) && u in w.api && u !in w.gone && node in cluster
    requires FitsOn(cluster[node], w.cache - {u}, node, w.api[u].pod, sel, reg, ledger, snap, raw)
    ensures Enabled(cluster, w, Reserve(u, node, snap, sel, raw))
    ensures After(w, Reserve(u, node, snap, sel, raw)).cache == (w.cache - {u})[u := PodInfo(w.api[u], node, CollapsedDevices(w.api[u].pod, raw), false)]
  {
  }

  /** In a consistent state the cached devices of one type are that type's own. */
  lemma CachedTidy(cluster: Cluster, w: World, u: string)
    requires Consistent(cluster, w) && u in w.cache && w.cache[u].obj == w.api[u]
    ensures w.cache[u].node in cluster && Refits.Tidy(cluster[w.cache[u].node], w.cache[u])
  {
    var pi, o := w.cache[u], w.api[u];
    assert ConsistentAt(cluster, w, u);
    var infos, raw := cluster[pi.node], RawOf(o);
    forall t | t in pi.devices && t != NVIDIA ensures Refits.OwnRows(infos, pi.devices[t]) {
      forall d, i | d in infos && infos[d].vendor == NVIDIA && 0 <= i < |pi.devices[t]| ensures !Names(pi.devices[t][i], d) {
        assert RowAt(pi.devices, t, 0) == EffectiveRow(o.pod, t, Rows(raw, t), pi.released);
        UnnamedCharge(infos, o.pod, raw, pi.released, t, d);
      }
    }
  }

  lemma UnnamedCharge(infos: map<DeviceId, DeviceInfo>, pod: Pod, raw: PodDevices, released: bool, t: string, d: DeviceId)
    requires TypedIn(infos, raw) && InitRowsDistinct(pod, Rows(raw, t)) && d in infos && infos[d].vendor != t
    ensures !Names(EffectiveRow(pod, t, Rows(raw, t), released), d)
  {
    var rows := Rows(raw, t);
    EffectiveRowUse(pod, t, rows, released, d, Mem);
    forall i | 0 <= i < |rows| ensures !Names(rows[i], d) { assert RowTypedIn(infos, t, rows[i]); }
  }

  lemma MovedCacheIsRefitted(w: World, u: string, idx: nat, row: ContainerDevices)
    requires u in w.cache && u in w.api && w.cache[u].obj == w.api[u] && DecodeAnnos(Rewritten(w.api[u], idx, row).annos).Ok?
    ensures Refits.MovedCache(w.cache, u, idx, row) == Refitted(w, u, idx, row).cache
  {
  }

  lemma AccomplishedRefits(s: Scheduler, w: World, u: string, idx: nat, allowed: set<DeviceId>, sel: Selection, row: ContainerDevices, prepared: Snapshot)
    requires Consistent(s.cluster, w) && u in w.cache && u in w.api && u !in w.gone && Refits.PatchLands(Some(w.api[u]), w.cache[u].obj)
    requires w.cache[u].node in s.cluster && Refits.Movable(w.cache[u], RawOf(w.cache[u].obj), idx)
    requires Refits.Accomplished(s, w.cache, u, RawOf(w.cache[u].obj), idx, allowed, sel, row, prepared)
    ensures var current := RawOf(w.cache[u].obj)[NVIDIA][idx]; Refittable(s.cluster, w, u, idx, row, current[0].mem, current[0].cores, sel, prepared)
  {
    assert ConsistentAt(s.cluster, w, u);
    CachedTidy(s.cluster, w, u);
  }

  /** A completed refit is a refit step: what it guarantees with the API server's object as
      the stored one is what the step asks for. */
  lemma RefitTakesStep(s: Scheduler, w: World, u: string, idx: nat, allowed: set<DeviceId>, sel: Selection, row: ContainerDevices, prepared: Snapshot)
    requires CleanCluster(s.cluster) && Consistent(s.cluster, w) && u in w.cache && u in w.api && u !in w.gone
    requires Refits.PatchLands(Some(w.api[u]), w.cache[u].obj)
    requires w.cache[u].node in s.cluster && Refits.Movable(w.cache[u], RawOf(w.cache[u].obj), idx)
    requires Refits.Accomplished(s, w.cache, u, RawOf(w.cache[u].obj), idx, allowed, sel, row, prepared)
    ensures var current := RawOf(w.cache[u].obj)[NVIDIA][idx]; var step := Refit(u, idx, row, current[0].mem, current[0].cores, sel, prepared);
      Enabled(s.cluster, w, step) && After(w, step).cache == Refits.MovedCache(w.cache, u, idx, row)
  {
    var current := RawOf(w.cache[u].obj)[NVIDIA][idx];
    assert ConsistentAt(s.cluster, w, u);
    AccomplishedRefits(s, w, u, idx, allowed, sel, row, prepared);
    MovedRowClean(s.cluster, w, u, idx, row, current[0].mem, current[0].cores, sel, prepared);
    RewrittenRows(w.api[u], idx, row);
    MovedCacheIsRefitted(w, u, idx, row);
  }
}
