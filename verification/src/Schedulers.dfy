/** The scheduler's event handlers and Filter. Each is one step: it changes the cache of
    reserved pods and the namespace usage together. */
module Schedulers {
  import opened Devices
  import opened Collapse
  import opened Codec
  import opened Quotas
  import opened QuotaManagers
  import QuotaObjects
  import opened Ledgers
  import opened Placement
  import opened Fitting
  import opened Nodes
  import opened Pods
  import opened Events
  import opened Snapshots
  import opened Claims
  import opened Scoring
  import opened QuotaSoundness

  /** An add event of a pod that is cached unreleased carries rows that are charged as the
      cached ones are: the annotation last written. */
  ghost predicate Recurs(reg: Registry, cache: Cache, o: ApiPod) {
    && SameIdentity(cache, o.pod)
    && (o.pod.uid in cache && !cache[o.pod.uid].released && !o.terminating && DecodeAnnos(o.annos).Ok? ==>
      forall res :: PodCount(reg, CollapsedDevices(o.pod, DecodeAnnos(o.annos).value), res) == PodCount(reg, cache[o.pod.uid].devices, res))
  }

  datatype FilterResult = AllNodes | NoNode | PatchFailed | Chosen(node: string, raw: PodDevices)

  /** The device lists of the registered nodes. */
  ghost predicate Registered(cluster: Cluster, orders: map<string, seq<DeviceId>>) {
    orders.Keys == cluster.Keys && forall n :: n in cluster ==> ListsAll(cluster[n], orders[n])
  }

  ghost predicate ListsAll(infos: map<DeviceId, DeviceInfo>, order: seq<DeviceId>) {
    NoDuplicates(order) && (forall d :: d in order <==> d in infos) && forall d :: d in infos ==> infos[d].id == d
  }

  /** The placement was found on a snapshot of the cache, and passed the quota checks. */
  ghost predicate FitsOn(infos: map<DeviceId, DeviceInfo>, cache: Cache, node: string, pod: Pod, sel: Selection,
                         reg: Registry, ledger: Ledger, snap: Snapshot, raw: PodDevices) {
    && WellKeyed(snap) && Shows(snap, infos, cache, node)
    && PlacedAll(snap, sel, pod, raw) && Typed(snap, raw) && QuotaPassed(reg, ledger, pod, Rows(raw, NVIDIA))
    && ServedAll(snap, sel, pod, reg, ledger, raw)
  }

  /** On a snapshot of the cache some container of the pod was refused after rows for those
      before it. */
  ghost predicate NoRoomOn(infos: map<DeviceId, DeviceInfo>, cache: Cache, node: string, pod: Pod, sel: Selection, reg: Registry, ledger: Ledger) {
    exists snap :: WellKeyed(snap) && Shows(snap, infos, cache, node) && Refused(snap, sel, pod, reg, ledger)
  }

  class Scheduler {
    const podManager: PodManager
    const quotaManager: QuotaManager
    const cluster: Cluster
    const orders: map<string, seq<DeviceId>>

    constructor (reg: Registry, cluster: Cluster, orders: map<string, seq<DeviceId>>)
      requires Registered(cluster, orders)
      ensures Valid() && podManager.pods == map[] && quotaManager.reg == reg && fresh(podManager) && fresh(quotaManager)
      ensures this.cluster == cluster && this.orders == orders
    {
      podManager := new PodManager();
      quotaManager := new QuotaManager(reg);
      this.cluster, this.orders := cluster, orders;
    }

    /** Limits are those of the quota objects. */
    ghost predicate Ready()
      reads this, quotaManager
    {
      quotaManager.Valid() && Registered(cluster, orders)
    }

    /** And usage is that of the cached pods. */
    ghost predicate Valid()
      reads this, podManager, quotaManager
    {
      Ready() && Balanced(quotaManager.reg, quotaManager.ledger, podManager.pods)
    }

    /** Removes a pod from the cache and its devices from its namespace. */
    method Forget(pod: Pod)
      requires Ready()
      modifies podManager, quotaManager`ledger
      ensures Ready() && podManager.pods == Taken(old(podManager.pods), pod) && SameLimits(old(quotaManager.ledger), quotaManager.ledger)
      ensures old(Valid()) ==> Valid()
    {
      ghost var cache, ledger := podManager.pods, quotaManager.ledger;
      var pi := podManager.TakeAndDeletePod(pod);
      if pi.Some? {
        quotaManager.RmUsage(pod.ns, pi.value.devices);
        if old(Valid()) { BalancedTake(quotaManager.reg, ledger, quotaManager.ledger, cache, pod.uid); }
      }
    }

    /** Releases the usage of completed ordinary init containers, once. The caller may pass
        the cached pod and the decoded rows it has at hand. */
    method ReleaseCompletedInitContainersLocked(o: ApiPod, known: Option<PodInfo>, decoded: Option<PodDevices>)
      requires Ready() && SameIdentity(podManager.pods, o.pod)
      requires known.Some? ==> o.pod.uid in podManager.pods && podManager.pods[o.pod.uid].released == known.value.released
      requires decoded.Some? ==> DecodeAnnos(o.annos) == Ok(decoded.value)
      modifies podManager, quotaManager`ledger
      ensures Ready() && podManager.pods == Shrunk(old(podManager.pods), o, DecodeAnnos(o.annos))
      ensures SameLimits(old(quotaManager.ledger), quotaManager.ledger) && (old(Valid()) ==> Valid())
    {
      var done := AllNonSidecarInitContainersSucceeded(o);
      if (known.Some? && known.value.released) || !done {
        return;
      }
      if known.None? {
        var pi := podManager.GetPod(o.pod.uid);
        if pi.None? || pi.value.released {
          return;
        }
      }
      var raw: Result<PodDevices>;
      if decoded.Some? {
        raw := Ok(decoded.value);
      } else {
        raw := DecodePodDevices(o.annos);
      }
      if raw.Ok? {
        Shrink(o, raw.value);
      }
    }

    /** Puts a cached pod on its steady-state devices. */
    method Shrink(o: ApiPod, raw: PodDevices)
      requires Ready() && SameIdentity(podManager.pods, o.pod) && o.pod.uid in podManager.pods
      modifies podManager, quotaManager`ledger
      ensures Ready() && SameLimits(old(quotaManager.ledger), quotaManager.ledger) && (old(Valid()) ==> Valid())
      ensures podManager.pods == old(podManager.pods)[o.pod.uid :=
        old(podManager.pods)[o.pod.uid].(devices := SteadyDevices(o.pod, raw), released := true)]
    {
      ghost var cache, ledger := podManager.pods, quotaManager.ledger;
      var steady := SteadyStateDeviceUsage(o.pod, raw);
      var was := podManager.UpdatePodDevice(o.pod.uid, steady);
      if was.Some? {
        quotaManager.ReplaceUsage(o.pod.ns, was.value, steady);
        if old(Valid()) { BalancedReplace(quotaManager.reg, ledger, quotaManager.ledger, cache, o.pod.uid, podManager.pods[o.pod.uid]); }
      }
    }

    /** Stores the collapsed devices of an assigned pod and charges a pod that is new. Usage
        stays that of the cached pods exactly when a pod that was cached recurs. */
    method Restore(o: ApiPod, node: string, raw: PodDevices)
      requires Ready() && SameIdentity(podManager.pods, o.pod) && DecodeAnnos(o.annos) == Ok(raw)
      requires !(o.terminating && o.pod.uid in podManager.pods)
      modifies podManager, quotaManager`ledger
      ensures Ready() && SameLimits(old(quotaManager.ledger), quotaManager.ledger)
      ensures podManager.pods == Added(old(podManager.pods), o, node, CollapsedDevices(o.pod, raw))
      ensures old(Valid()) ==> (Valid() <==> Recurs(quotaManager.reg, old(podManager.pods), o))
    {
      ghost var cache, ledger := podManager.pods, quotaManager.ledger;
      var effective := CollapseInitContainerUsage(o.pod, raw);
      var isNew := podManager.AddPod(o, node, effective);
      if isNew {
        quotaManager.AddUsage(o.pod.ns, effective);
        if old(Valid()) { BalancedAdd(quotaManager.reg, ledger, quotaManager.ledger, cache, o.pod.uid, podManager.pods[o.pod.uid]); }
      } else if old(Valid()) {
        BalancedOverwriteIff(quotaManager.reg, ledger, cache, o.pod.uid, podManager.pods[o.pod.uid]);
      }
    }

    /** Restores the accounting of an assigned pod. */
    method OnAddPodLocked(o: ApiPod)
      requires Ready() && SameIdentity(podManager.pods, o.pod) && o.node.Some?
      modifies podManager, quotaManager`ledger
      ensures Ready() && podManager.pods == AfterAssigned(old(podManager.pods), o) && SameLimits(old(quotaManager.ledger), quotaManager.ledger)
      ensures old(Valid()) && Recurs(quotaManager.reg, old(podManager.pods), o) ==> Valid()
    {
      if o.terminating {
        var pi := podManager.GetPod(o.pod.uid);
        if pi.Some? {
          Refresh(o);
          return;
        }
      }
      var raw := DecodePodDevices(o.annos);
      if raw.Err? {
        return;
      }
      Restore(o, o.node.value, raw.value);
      ReleaseCompletedInitContainersLocked(o, None, Some(raw.value));
    }

    /** Replaces the cached object and nothing else. */
    method Refresh(o: ApiPod)
      requires Ready() && SameIdentity(podManager.pods, o.pod)
      modifies podManager
      ensures Ready() && podManager.pods == Updated(old(podManager.pods), o) && (old(Valid()) ==> Valid())
    {
      ghost var cache := podManager.pods;
      podManager.UpdatePod(o);
      if o.pod.uid in cache && old(Valid()) {
        BalancedOverwriteIff(quotaManager.reg, quotaManager.ledger, cache, o.pod.uid, podManager.pods[o.pod.uid]);
      }
    }

    method OnAddPod(o: ApiPod)
      requires Ready() && SameIdentity(podManager.pods, o.pod)
      modifies podManager, quotaManager`ledger
      ensures Ready() && podManager.pods == AfterAdd(old(podManager.pods), o) && SameLimits(old(quotaManager.ledger), quotaManager.ledger)
      ensures AddsToCache(old(podManager.pods), podManager.pods, o)
      ensures old(Valid()) && Recurs(quotaManager.reg, old(podManager.pods), o) ==> Valid()
      ensures old(Valid()) && Recurs(quotaManager.reg, old(podManager.pods), o) ==>
        Shifted(quotaManager.reg, old(quotaManager.ledger), quotaManager.ledger, o.pod.ns, DevicesOf(old(podManager.pods), o.pod.uid), DevicesOf(podManager.pods, o.pod.uid))
    {
      ghost var cache, ledger := podManager.pods, quotaManager.ledger;
      AddCached(cache, o);
      if o.terminated {
        Forget(o.pod);
      } else if o.node.Some? {
        OnAddPodLocked(o);
      }
      if old(Valid()) && Recurs(quotaManager.reg, cache, o) {
        BalanceShifts(quotaManager.reg, cache, podManager.pods, ledger, quotaManager.ledger, o.pod.uid, o.pod.ns);
      }
    }

    method OnUpdatePod(o: ApiPod)
      requires Valid() && SameIdentity(podManager.pods, o.pod)
      modifies podManager, quotaManager`ledger
      ensures Valid() && podManager.pods == AfterUpdate(old(podManager.pods), o) && SameLimits(old(quotaManager.ledger), quotaManager.ledger)
      ensures UpdatesCache(old(podManager.pods), podManager.pods, o)
      ensures Shifted(quotaManager.reg, old(quotaManager.ledger), quotaManager.ledger, o.pod.ns, DevicesOf(old(podManager.pods), o.pod.uid),
                      DevicesOf(podManager.pods, o.pod.uid))
    {
      ghost var cache, ledger := podManager.pods, quotaManager.ledger;
      UpdateCached(cache, o);
      HandleUpdate(o);
      BalanceShifts(quotaManager.reg, cache, podManager.pods, ledger, quotaManager.ledger, o.pod.uid, o.pod.ns);
    }

    method HandleUpdate(o: ApiPod)
      requires Valid() && SameIdentity(podManager.pods, o.pod)
      modifies podManager, quotaManager`ledger
      ensures Valid() && podManager.pods == AfterUpdate(old(podManager.pods), o) && SameLimits(old(quotaManager.ledger), quotaManager.ledger)
    {
      if o.terminated {
        Forget(o.pod);
        return;
      }
      if o.node.None? {
        return;
      }
      if o.terminating {
        var cached := podManager.GetPod(o.pod.uid);
        if cached.None? {
          OnAddPod(o);
        } else {
          Refresh(o);
        }
        return;
      }
      var pi := podManager.GetPod(o.pod.uid);
      if pi.None? {
        OnAddPodLocked(o);
        return;
      }
      Refresh(o);
      ReleaseCompletedInitContainersLocked(o, pi, None);
    }

    method OnDelPod(o: ApiPod)
      requires Valid()
      modifies podManager, quotaManager`ledger
      ensures Valid() && podManager.pods == Taken(old(podManager.pods), o.pod) && SameLimits(old(quotaManager.ledger), quotaManager.ledger)
      ensures Leaves(quotaManager.reg, old(podManager.pods), podManager.pods, old(quotaManager.ledger), quotaManager.ledger, o.pod)
    {
      ghost var cache, ledger := podManager.pods, quotaManager.ledger;
      Forget(o.pod);
      TakenLeaves(quotaManager.reg, cache, ledger, quotaManager.ledger, o.pod);
    }

    /** Frees what a pod holds after its binding failed. */
    method CleanupStalePodAllocation(o: ApiPod)
      requires Valid()
      modifies podManager, quotaManager`ledger
      ensures Valid() && podManager.pods == Taken(old(podManager.pods), o.pod) && SameLimits(old(quotaManager.ledger), quotaManager.ledger)
      ensures Leaves(quotaManager.reg, old(podManager.pods), podManager.pods, old(quotaManager.ledger), quotaManager.ledger, o.pod)
    {
      ghost var cache, ledger := podManager.pods, quotaManager.ledger;
      var pi := podManager.TakeAndDeletePod(o.pod);
      if pi.Some? && |pi.value.devices| > 0 {
        quotaManager.RmUsage(o.pod.ns, pi.value.devices);
      }
      if pi.Some? {
        if pi.value.devices == map[] { NothingLost(quotaManager.reg, ledger, o.pod.ns); }
        BalancedTake(quotaManager.reg, ledger, quotaManager.ledger, cache, o.pod.uid);
      }
      TakenLeaves(quotaManager.reg, cache, ledger, quotaManager.ledger, o.pod);
    }

    /** Tries to place a pod on one node. */
    method TryNode(pod: Pod, node: string, sel: Selection) returns (ok: bool, raw: PodDevices, ghost snap: Snapshot)
      requires Valid() && node in cluster && |pod.sidecars| <= |pod.reqs|
      ensures ok ==> FitsOn(cluster[node], podManager.pods, node, pod, sel, quotaManager.reg, quotaManager.ledger, snap, raw)
      ensures !ok ==> NoRoomOn(cluster[node], podManager.pods, node, pod, sel, quotaManager.reg, quotaManager.ledger)
    {
      assert ListsAll(cluster[node], orders[node]);
      var usage := GetNodesUsage(cluster[node], orders[node], podManager.pods, node);
      snap := usage.dev;
      ok, raw := ScoreNode(usage, pod, sel, quotaManager);
    }

    /** Tries all candidates and takes one of those that fit, whichever the policy prefers. */
    method CalcScore(pod: Pod, candidates: set<string>, sel: string -> Selection)
      returns (best: Option<string>, raw: PodDevices, ghost snap: Snapshot)
      requires Valid() && |pod.sidecars| <= |pod.reqs|
      ensures best.Some? ==> best.value in candidates && best.value in cluster
      ensures best.Some? ==>
        FitsOn(cluster[best.value], podManager.pods, best.value, pod, sel(best.value), quotaManager.reg, quotaManager.ledger, snap, raw)
      ensures best.None? ==> forall n :: n in candidates && n in cluster ==>
        NoRoomOn(cluster[n], podManager.pods, n, pod, sel(n), quotaManager.reg, quotaManager.ledger)
    {
      best, raw, snap := None, map[], map[];
      var todo := candidates * cluster.Keys;
      while todo != {}
        invariant todo <= candidates * cluster.Keys
        invariant best.None? ==> forall n :: n in candidates && n in cluster && n !in todo ==>
          NoRoomOn(cluster[n], podManager.pods, n, pod, sel(n), quotaManager.reg, quotaManager.ledger)
        invariant best.Some? ==> best.value in candidates && best.value in cluster
        invariant best.Some? ==>
          FitsOn(cluster[best.value], podManager.pods, best.value, pod, sel(best.value), quotaManager.reg, quotaManager.ledger, snap, raw)
      {
        var node :| node in todo;
        var ok, found; ghost var seen;
        ok, found, seen := TryNode(pod, node, sel(node));
        var better: bool := *;
        if ok && (best.None? || better) {
          best, raw, snap := Some(node), found, seen;
        }
        todo := todo - {node};
      }
    }

    /** Caches a placement and charges it. */
    method Book(o: ApiPod, node: string, raw: PodDevices) returns (effective: PodDevices)
      requires Valid() && o.pod.uid !in podManager.pods
      modifies podManager, quotaManager`ledger
      ensures Valid() && SameLimits(old(quotaManager.ledger), quotaManager.ledger) && effective == CollapsedDevices(o.pod, raw)
      ensures podManager.pods == old(podManager.pods)[o.pod.uid := PodInfo(o, node, effective, false)]
      ensures Gained(quotaManager.reg, old(quotaManager.ledger), quotaManager.ledger, o.pod.ns, effective)
    {
      ghost var cache, ledger := podManager.pods, quotaManager.ledger;
      effective := CollapseInitContainerUsage(o.pod, raw);
      var added := podManager.AddPod(o, node, effective);
      if added {
        quotaManager.AddUsage(o.pod.ns, effective);
      }
      BalancedAdd(quotaManager.reg, ledger, quotaManager.ledger, cache, o.pod.uid, podManager.pods[o.pod.uid]);
    }

    /** Takes back what was cached and charged a moment ago. */
    method Rollback(o: ApiPod, effective: PodDevices, ghost cache: Cache, ghost ledger: Ledger)
      requires Valid() && o.pod.uid !in cache && o.pod.uid in podManager.pods && podManager.pods[o.pod.uid].devices == effective
      requires podManager.pods[o.pod.uid].obj == o && podManager.pods - {o.pod.uid} == cache
      requires Gained(quotaManager.reg, ledger, quotaManager.ledger, o.pod.ns, effective)
      modifies podManager, quotaManager`ledger
      ensures Valid() && SameLimits(old(quotaManager.ledger), quotaManager.ledger)
      ensures podManager.pods == cache && SameUsage(ledger, quotaManager.ledger)
    {
      ghost var charged, cached := quotaManager.ledger, podManager.pods;
      quotaManager.RmUsage(o.pod.ns, effective);
      podManager.DelPod(o.pod.uid);
      BalancedTake(quotaManager.reg, charged, quotaManager.ledger, cached, o.pod.uid);
    }

    /** Reserves a placement. When the annotation cannot be written the reservation is
        rolled back, and cache and usage are as they were. */
    method Reserve(o: ApiPod, node: string, raw: PodDevices, patchOk: bool)
      requires Valid() && o.pod.uid !in podManager.pods
      modifies podManager, quotaManager`ledger
      ensures Valid() && SameLimits(old(quotaManager.ledger), quotaManager.ledger)
      ensures podManager.pods == if patchOk then old(podManager.pods)[o.pod.uid := PodInfo(o, node, CollapsedDevices(o.pod, raw), false)]
                                 else old(podManager.pods)
      ensures patchOk ==> Gained(quotaManager.reg, old(quotaManager.ledger), quotaManager.ledger, o.pod.ns, CollapsedDevices(o.pod, raw))
      ensures !patchOk ==> SameUsage(old(quotaManager.ledger), quotaManager.ledger)
    {
      ghost var cache, ledger := podManager.pods, quotaManager.ledger;
      var effective := Book(o, node, raw);
      if !patchOk {
        assert podManager.pods - {o.pod.uid} == cache;
        Rollback(o, effective, cache, ledger);
      }
    }

    /** Chooses a node for a pod and reserves its devices there. */
    method Filter(o: ApiPod, candidates: set<string>, sel: string -> Selection, patchOk: bool)
      returns (res: FilterResult, ghost snap: Snapshot, ghost free: Ledger)
      requires Valid() && SameIdentity(podManager.pods, o.pod) && |o.pod.sidecars| <= |o.pod.reqs|
      modifies podManager, quotaManager`ledger
      ensures Valid() && SameLimits(old(quotaManager.ledger), quotaManager.ledger)
      ensures res.AllNodes? <==> forall i :: 0 <= i < |o.pod.reqs| ==> o.pod.reqs[i] == map[]
      ensures res.AllNodes? ==> podManager.pods == old(podManager.pods) && quotaManager.ledger == old(quotaManager.ledger)
      ensures res.NoNode? || res.PatchFailed? ==> podManager.pods == old(podManager.pods) - {o.pod.uid}
      ensures res.NoNode? ==> forall n :: n in candidates && n in cluster ==>
        NoRoomOn(cluster[n], old(podManager.pods) - {o.pod.uid}, n, o.pod, sel(n), quotaManager.reg, free)
      ensures res.PatchFailed? ==> !patchOk
      ensures res.Chosen? ==> patchOk && res.node in candidates && res.node in cluster
      ensures res.Chosen? ==>
        podManager.pods == (old(podManager.pods) - {o.pod.uid})[o.pod.uid := PodInfo(o, res.node, CollapsedDevices(o.pod, res.raw), false)]
      ensures !res.AllNodes? ==> Balanced(quotaManager.reg, free, old(podManager.pods) - {o.pod.uid})
      ensures res.Chosen? ==>
        FitsOn(cluster[res.node], old(podManager.pods) - {o.pod.uid}, res.node, o.pod, sel(res.node), quotaManager.reg, free, snap, res.raw)
      ensures res.Chosen? && DistinctNames(quotaManager.reg) && Requests(o.pod, NVIDIA) ==>
        WithinQuota(quotaManager.reg, quotaManager.ledger, o.pod.ns)
    {
      snap, free := map[], quotaManager.ledger;
      if forall i :: 0 <= i < |o.pod.reqs| ==> o.pod.reqs[i] == map[] {
        return AllNodes, snap, free;
      }
      Forget(o.pod);
      assert podManager.pods == old(podManager.pods) - {o.pod.uid};
      free := quotaManager.ledger;
      var best, raw;
      best, raw, snap := CalcScore(o.pod, candidates, sel);
      if best.None? {
        return NoNode, snap, free;
      }
      Reserve(o, best.value, raw, patchOk);
      if !patchOk {
        return PatchFailed, snap, free;
      }
      res := Chosen(best.value, raw);
      if DistinctNames(quotaManager.reg) && Requests(o.pod, NVIDIA) {
        ReservationWithinQuota(snap, sel(best.value), quotaManager.reg, free, quotaManager.ledger, o.pod, raw);
      }
    }

    // ---------- Quota events ----------

    method OnAddQuota(q: QuotaObjects.QuotaObject)
      requires Valid()
      modifies quotaManager`ledger, quotaManager`objs
      ensures Valid() && SameUsage(old(quotaManager.ledger), quotaManager.ledger)
      ensures QuotaObjects.Applied(quotaManager.reg, old(quotaManager.objs), QuotaObjects.Added(q), quotaManager.objs)
      ensures !q.scoped ==> QuotaObjects.ImposesAll(quotaManager.reg, quotaManager.ledger, old(quotaManager.objs), q)
    {
      quotaManager.AddQuota(q);
    }

    method OnUpdateQuota(was: QuotaObjects.QuotaObject, now: QuotaObjects.QuotaObject)
      requires Valid()
      modifies quotaManager`ledger, quotaManager`objs
      ensures Valid() && SameUsage(old(quotaManager.ledger), quotaManager.ledger)
      ensures QuotaObjects.Applied(quotaManager.reg, old(quotaManager.objs), QuotaObjects.Updated(was, now), quotaManager.objs)
    {
      quotaManager.UpdateQuota(was, now);
    }

    method OnDelQuota(q: QuotaObjects.QuotaObject)
      requires Valid()
      modifies quotaManager`ledger, quotaManager`objs
      ensures Valid() && SameUsage(old(quotaManager.ledger), quotaManager.ledger)
      ensures QuotaObjects.Applied(quotaManager.reg, old(quotaManager.objs), QuotaObjects.Deleted(q), quotaManager.objs)
      ensures forall ns, res :: QuotaObjects.Lifted(old(quotaManager.objs), old(quotaManager.ledger), quotaManager.ledger, q, ns, res)
    {
      quotaManager.DelQuota(q);
    }
  }
}
