/** What add and update events make of the cache and of the namespaces, told in terms of the
    object, the stages of the pod and the counts of its devices. */
module Events {
  import opened Devices
  import opened Collapse
  import opened Lifecycle
  import opened Quotas
  import opened Pods
  import opened Ledgers

  /** Every entry but that of `u` is as it was. */
  ghost predicate OthersKept(was: Cache, now: Cache, u: string) {
    forall v :: v != u ==> (v in now <==> v in was) && (v in was && v in now ==> now[v] == was[v])
  }

  function DevicesOf(cache: Cache, u: string): PodDevices {
    if u in cache then cache[u].devices else map[]
  }

  /** The namespace's usage of every resource changed by what the pod counts for now and what
      it counted for before; no other usage changed. */
  ghost predicate Shifted(reg: Registry, before: Ledger, after: Ledger, ns: string, was: PodDevices, now: PodDevices) {
    forall n, res ::
      if n == ns then UsedOf(after, n, res) + PodCount(reg, was, res) == UsedOf(before, n, res) + PodCount(reg, now, res)
      else UsedOf(after, n, res) == UsedOf(before, n, res)
  }

  /** There is an init container, and every one that is no sidecar exited with code zero. */
  predicate InitsDone(o: ApiPod) {
    o.pod.sidecars != [] && forall i: nat :: i < |o.pod.sidecars| ==> o.pod.sidecars[i] || i in o.succeeded
  }

  /** The devices are one row per type: what runs in the last stage of the pod, or the most that
      runs in any stage, device by device. */
  ghost predicate Charges(devices: PodDevices, o: ApiPod, raw: PodDevices, last: bool) {
    devices.Keys == raw.Keys && forall t :: t in raw ==> |devices[t]| == 1 && ChargesRow(devices[t][0], o.pod, raw[t], last)
  }

  ghost predicate ChargesRow(row: ContainerDevices, pod: Pod, rows: PodSingleDevice, last: bool) {
    forall d, r ::
      if last then RowUse(row, d, r) == StageUse(pod, rows, |rows|, |pod.sidecars|, d, r)
      else InitRowsDistinct(pod, rows) ==> IsPeak(pod, rows, d, r, RowUse(row, d, r))
  }

  /** A pod that was not cached comes in. */
  ghost predicate ComesIn(now: Cache, o: ApiPod) {
    var u := o.pod.uid;
    && u in now && now[u].obj == o && o.node == Some(now[u].node) && (now[u].released <==> InitsDone(o))
    && DecodeAnnos(o.annos).Ok? && Charges(now[u].devices, o, DecodeAnnos(o.annos).value, now[u].released)
  }

  /** A cached pod gets the new object, and its devices once its init containers are done. */
  ghost predicate GoesOn(was: PodInfo, now: PodInfo, o: ApiPod) {
    && now.obj == o && now.node == was.node
    && if !o.terminating && !was.released && InitsDone(o) && DecodeAnnos(o.annos).Ok?
       then now.released && Charges(now.devices, o, DecodeAnnos(o.annos).value, true)
       else now.released == was.released && now.devices == was.devices
  }

  /** What an update event does to the cache. */
  ghost predicate UpdatesCache(was: Cache, now: Cache, o: ApiPod) {
    var u := o.pod.uid;
    OthersKept(was, now, u) &&
    if o.terminated then u !in now
    else if o.node.None? then now == was
    else if u in was then u in now && GoesOn(was[u], now[u], o)
    else if DecodeAnnos(o.annos).Ok? then ComesIn(now, o)
    else now == was
  }

  /** A cached pod that is added again: its rows are read anew unless they were released. */
  ghost predicate IsReadAnew(was: PodInfo, now: PodInfo, o: ApiPod) {
    && now.obj == o && o.node == Some(now.node) && (now.released <==> was.released || InitsDone(o))
    && if was.released then now.devices == was.devices
       else DecodeAnnos(o.annos).Ok? && Charges(now.devices, o, DecodeAnnos(o.annos).value, now.released)
  }

  /** What an add event does to the cache. */
  ghost predicate AddsToCache(was: Cache, now: Cache, o: ApiPod) {
    var u := o.pod.uid;
    OthersKept(was, now, u) &&
    if o.terminated then u !in now
    else if o.node.None? then now == was
    else if u in was && o.terminating then u in now && now[u] == was[u].(obj := o)
    else if DecodeAnnos(o.annos).Err? then now == was
    else if u in was then u in now && IsReadAnew(was[u], now[u], o)
    else ComesIn(now, o)
  }

  /** A UID fixes the name and the namespace of a pod. */
  predicate SameIdentity(cache: Cache, pod: Pod) {
    pod.uid in cache ==> cache[pod.uid].obj.pod.ns == pod.ns && cache[pod.uid].obj.pod.name == pod.name
  }

  // ---------- The cached rows ----------

  lemma SteadyCharges(o: ApiPod, raw: PodDevices)
    ensures Charges(SteadyDevices(o.pod, raw), o, raw, true)
  {
    forall t | t in raw ensures ChargesRow(SteadyDevices(o.pod, raw)[t][0], o.pod, raw[t], true) {
      forall d, r ensures RowUse(SteadyRow(o.pod, t, raw[t]), d, r) == StageUse(o.pod, raw[t], |raw[t]|, |o.pod.sidecars|, d, r) {
        SteadyRowUse(o.pod, t, raw[t], d, r);
        EffectiveIsPeak(o.pod, raw[t], d, r);
      }
    }
  }

  lemma CollapsedCharges(o: ApiPod, raw: PodDevices)
    ensures Charges(CollapsedDevices(o.pod, raw), o, raw, false)
  {
    forall t | t in raw ensures ChargesRow(CollapsedDevices(o.pod, raw)[t][0], o.pod, raw[t], false) {
      forall d, r | InitRowsDistinct(o.pod, raw[t]) ensures IsPeak(o.pod, raw[t], d, r, RowUse(CollapsedRow(o.pod, t, raw[t]), d, r)) {
        CollapsedRowUse(o.pod, t, raw[t], d, r);
        CollapsedIsEffective(o.pod, raw[t], d, r);
        EffectiveIsPeak(o.pod, raw[t], d, r);
      }
    }
  }

  lemma UpdateCached(was: Cache, o: ApiPod)
    requires SameIdentity(was, o.pod)
    ensures UpdatesCache(was, AfterUpdate(was, o), o)
  {
    var raw := DecodeAnnos(o.annos);
    if raw.Ok? {
      SteadyCharges(o, raw.value);
      CollapsedCharges(o, raw.value);
    }
  }

  lemma AddCached(was: Cache, o: ApiPod)
    requires SameIdentity(was, o.pod)
    ensures AddsToCache(was, AfterAdd(was, o), o)
  {
    var raw := DecodeAnnos(o.annos);
    if raw.Ok? {
      SteadyCharges(o, raw.value);
      CollapsedCharges(o, raw.value);
    }
  }

  // ---------- The namespaces ----------

  lemma ShareOf(reg: Registry, cache: Cache, u: string, ns: string, n: string, res: string)
    requires u in cache ==> cache[u].obj.pod.ns == ns
    ensures CacheCount(reg, cache, n, res) == CacheCount(reg, cache - {u}, n, res) + if n == ns then PodCount(reg, DevicesOf(cache, u), res) else 0
  {
    if u in cache {
      CountSplit(reg, cache, u, n, res);
    } else {
      assert cache - {u} == cache;
      NoRowsNoCount(reg, reg.Keys, res);
    }
  }

  /** Where usage is that of the cached pods before and after, it changed by the one pod. */
  lemma BalanceShifts(reg: Registry, was: Cache, now: Cache, before: Ledger, after: Ledger, u: string, ns: string)
    requires Balanced(reg, before, was) && Balanced(reg, after, now) && OthersKept(was, now, u)
    requires (u in was ==> was[u].obj.pod.ns == ns) && (u in now ==> now[u].obj.pod.ns == ns)
    ensures Shifted(reg, before, after, ns, DevicesOf(was, u), DevicesOf(now, u))
  {
    assert was - {u} == now - {u};
    forall n, res ensures
      if n == ns then UsedOf(after, n, res) + PodCount(reg, DevicesOf(was, u), res) == UsedOf(before, n, res) + PodCount(reg, DevicesOf(now, u), res)
      else UsedOf(after, n, res) == UsedOf(before, n, res)
    {
      ShareOf(reg, was, u, ns, n, res);
      ShareOf(reg, now, u, ns, n, res);
    }
  }

  /** A cached pod of this UID, name and namespace is gone with its usage; a request that pairs
      a UID with another name or namespace changes nothing. */
  ghost predicate Leaves(reg: Registry, was: Cache, now: Cache, before: Ledger, after: Ledger, pod: Pod) {
    if pod.uid in was && was[pod.uid].obj.pod.name == pod.name && was[pod.uid].obj.pod.ns == pod.ns
    then pod.uid !in now && OthersKept(was, now, pod.uid) && Shifted(reg, before, after, pod.ns, was[pod.uid].devices, map[])
    else now == was && SameUsage(before, after)
  }

  lemma TakenLeaves(reg: Registry, was: Cache, before: Ledger, after: Ledger, pod: Pod)
    requires Balanced(reg, before, was) && Balanced(reg, after, Taken(was, pod))
    ensures Leaves(reg, was, Taken(was, pod), before, after, pod)
  {
    if Holds(was, pod) { BalanceShifts(reg, was, Taken(was, pod), before, after, pod.uid, pod.ns); }
  }
}
