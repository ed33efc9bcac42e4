/** The two ledgers of the scheduler: what cached pods are charged, and what their
    namespaces have used. */
module Ledgers {
  import opened Usages
  import opened Devices
  import opened Quotas
  import opened Pods

  ghost function NsShare(reg: Registry, ns: string, res: string): (string, PodInfo) -> nat {
    (u: string, pi: PodInfo) => PodShare(reg, pi, ns, res)
  }

  ghost function PodShare(reg: Registry, pi: PodInfo, ns: string, res: string): nat {
    if pi.obj.pod.ns == ns then PodCount(reg, pi.devices, res) else 0
  }

  /** What the cached pods of a namespace are charged of a resource. */
  ghost function CacheCount(reg: Registry, cache: Cache, ns: string, res: string): nat {
    SumMap(cache, NsShare(reg, ns, res))
  }

  /** The usage of every namespace is what its cached pods are charged. */
  ghost predicate Balanced(reg: Registry, ledger: Ledger, cache: Cache) {
    forall ns, res :: UsedOf(ledger, ns, res) == CacheCount(reg, cache, ns, res)
  }

  lemma CountSplit(reg: Registry, cache: Cache, u: string, ns: string, res: string)
    requires u in cache
    ensures CacheCount(reg, cache, ns, res) == CacheCount(reg, cache - {u}, ns, res) + PodShare(reg, cache[u], ns, res)
  {
    SumMapRemove(cache, NsShare(reg, ns, res), u);
  }

  lemma CountUpdate(reg: Registry, cache: Cache, u: string, pi: PodInfo, ns: string, res: string)
    ensures CacheCount(reg, cache[u := pi], ns, res) == CacheCount(reg, cache - {u}, ns, res) + PodShare(reg, pi, ns, res)
  {
    SumMapUpdate(cache, NsShare(reg, ns, res), u, pi);
  }

  /** Usage of the pod's namespace changed by taking off `was` and putting on `now`. */
  ghost predicate Moved(reg: Registry, before: Ledger, after: Ledger, ns: string, was: PodDevices, now: PodDevices) {
    forall n, res :: UsedOf(after, n, res) ==
      if n == ns then Max(UsedOf(before, n, res) - PodCount(reg, was, res), 0) + PodCount(reg, now, res) else UsedOf(before, n, res)
  }

  ghost predicate Lost(reg: Registry, before: Ledger, after: Ledger, ns: string, pd: PodDevices) {
    forall n, res :: UsedOf(after, n, res) ==
      if n == ns then Max(UsedOf(before, n, res) - PodCount(reg, pd, res), 0) else UsedOf(before, n, res)
  }

  ghost predicate Gained(reg: Registry, before: Ledger, after: Ledger, ns: string, pd: PodDevices) {
    forall n, res :: UsedOf(after, n, res) == UsedOf(before, n, res) + if n == ns then PodCount(reg, pd, res) else 0
  }

  lemma {:induction false} NoRowsNoCount(reg: Registry, types: set<string>, res: string)
    ensures SumSet(types, TypeCount(reg, map[], res)) == 0
  {
    if types != {} {
      var t :| t in types;
      SumSetRemove(types, TypeCount(reg, map[], res), t);
      NoRowsNoCount(reg, types - {t}, res);
    }
  }

  lemma NothingLost(reg: Registry, ledger: Ledger, ns: string)
    ensures Lost(reg, ledger, ledger, ns, map[])
  {
    forall res ensures PodCount(reg, map[], res) == 0 { NoRowsNoCount(reg, reg.Keys, res); }
  }

  /** Taking a cached pod off: the clamp at zero never fires. */
  lemma BalancedTake(reg: Registry, before: Ledger, after: Ledger, cache: Cache, u: string)
    requires Balanced(reg, before, cache) && u in cache && Lost(reg, before, after, cache[u].obj.pod.ns, cache[u].devices)
    ensures Balanced(reg, after, cache - {u})
    ensures forall res :: PodCount(reg, cache[u].devices, res) <= UsedOf(before, cache[u].obj.pod.ns, res)
  {
    forall ns, res ensures UsedOf(after, ns, res) == CacheCount(reg, cache - {u}, ns, res)
      && (ns == cache[u].obj.pod.ns ==> PodCount(reg, cache[u].devices, res) <= UsedOf(before, ns, res)) {
      CountSplit(reg, cache, u, ns, res);
    }
  }

  lemma BalancedAdd(reg: Registry, before: Ledger, after: Ledger, cache: Cache, u: string, pi: PodInfo)
    requires Balanced(reg, before, cache) && u !in cache && Gained(reg, before, after, pi.obj.pod.ns, pi.devices)
    ensures Balanced(reg, after, cache[u := pi])
  {
    forall ns, res ensures UsedOf(after, ns, res) == CacheCount(reg, cache[u := pi], ns, res) {
      CountUpdate(reg, cache, u, pi, ns, res);
      assert cache - {u} == cache;
    }
  }

  lemma BalancedReplace(reg: Registry, before: Ledger, after: Ledger, cache: Cache, u: string, pi: PodInfo)
    requires Balanced(reg, before, cache) && u in cache && pi.obj.pod.ns == cache[u].obj.pod.ns
    requires Moved(reg, before, after, pi.obj.pod.ns, cache[u].devices, pi.devices)
    ensures Balanced(reg, after, cache[u := pi])
    ensures forall res :: PodCount(reg, cache[u].devices, res) <= UsedOf(before, cache[u].obj.pod.ns, res)
  {
    forall ns, res ensures UsedOf(after, ns, res) == CacheCount(reg, cache[u := pi], ns, res)
      && (ns == pi.obj.pod.ns ==> PodCount(reg, cache[u].devices, res) <= UsedOf(before, ns, res)) {
      CountSplit(reg, cache, u, ns, res);
      CountUpdate(reg, cache, u, pi, ns, res);
    }
  }

  /** Putting other devices on a cached pod without touching the namespace keeps the
      balance exactly when both are charged alike. This is what an add event does to a
      pod that is cached already. */
  lemma BalancedOverwriteIff(reg: Registry, ledger: Ledger, cache: Cache, u: string, pi: PodInfo)
    requires Balanced(reg, ledger, cache) && u in cache && pi.obj.pod.ns == cache[u].obj.pod.ns
    ensures Balanced(reg, ledger, cache[u := pi]) <==> forall res :: PodCount(reg, pi.devices, res) == PodCount(reg, cache[u].devices, res)
  {
    var same := cache[u := pi];
    forall ns, res ensures UsedOf(ledger, ns, res) == CacheCount(reg, same, ns, res)
      <==> PodShare(reg, pi, ns, res) == PodShare(reg, cache[u], ns, res) {
      CountSplit(reg, cache, u, ns, res);
      CountUpdate(reg, cache, u, pi, ns, res);
    }
    if Balanced(reg, ledger, same) {
      forall res ensures PodCount(reg, pi.devices, res) == PodCount(reg, cache[u].devices, res) {
        assert UsedOf(ledger, pi.obj.pod.ns, res) == CacheCount(reg, same, pi.obj.pod.ns, res);
      }
    }
  }

  /** Taking a cached pod's usage off and putting it back leaves every usage as it was. */
  lemma RestoredUsage(reg: Registry, before: Ledger, mid: Ledger, after: Ledger, cache: Cache, u: string)
    requires Balanced(reg, before, cache) && u in cache
    requires Lost(reg, before, mid, cache[u].obj.pod.ns, cache[u].devices) && Gained(reg, mid, after, cache[u].obj.pod.ns, cache[u].devices)
    ensures SameUsage(before, after) && Balanced(reg, after, cache)
  {
    forall ns, res ensures UsedOf(after, ns, res) == UsedOf(before, ns, res) { CountSplit(reg, cache, u, ns, res); }
  }

  /** Taking a cached pod's usage off and putting other devices on. */
  lemma ExchangedUsage(reg: Registry, before: Ledger, mid: Ledger, after: Ledger, cache: Cache, u: string, devices: PodDevices)
    requires Balanced(reg, before, cache) && u in cache
    requires Lost(reg, before, mid, cache[u].obj.pod.ns, cache[u].devices) && Gained(reg, mid, after, cache[u].obj.pod.ns, devices)
    ensures Balanced(reg, after, cache[u := cache[u].(devices := devices)])
  {
    forall ns, res ensures UsedOf(after, ns, res) == CacheCount(reg, cache[u := cache[u].(devices := devices)], ns, res) {
      CountSplit(reg, cache, u, ns, res);
      CountUpdate(reg, cache, u, cache[u].(devices := devices), ns, res);
    }
  }
}
