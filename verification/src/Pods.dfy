/** Pods as the API server and the scheduler cache hold them. */
module Pods {
  import opened Devices
  import opened Collapse
  import opened Codec

  /** A pod object: the spec, the node and the allocation annotations the scheduler
      wrote, and the parts of the status the handlers read. `succeeded` are the positions of
      the init containers that exited with code zero. */
  datatype ApiPod = ApiPod(pod: Pod, node: Option<string>, annos: map<string, string>,
                           succeeded: set<nat>, terminated: bool, terminating: bool)

  /** All ordinary init containers have succeeded, and there is an init container at all. */
  predicate InitSucceeded(o: ApiPod) {
    |o.pod.sidecars| > 0 && forall i: nat :: i < |o.pod.sidecars| && !o.pod.sidecars[i] ==> i in o.succeeded
  }

  method AllNonSidecarInitContainersSucceeded(o: ApiPod) returns (done: bool)
    ensures done == InitSucceeded(o)
  {
    if |o.pod.sidecars| == 0 {
      return false;
    }
    for i := 0 to |o.pod.sidecars|
      invariant forall j: nat :: j < i && !o.pod.sidecars[j] ==> j in o.succeeded
    {
      if o.pod.sidecars[i] {
        continue;
      }
      if i !in o.succeeded {
        return false;
      }
    }
    return true;
  }

  /** A cached pod: the object last seen, its node, the effective devices, and whether
      the usage of its ordinary init containers was released. */
  datatype PodInfo = PodInfo(obj: ApiPod, node: string, devices: PodDevices, released: bool)

  type Cache = map<string, PodInfo>

  function DecodeAnnos(annos: map<string, string>): Result<PodDevices> {
    if forall t :: t in annos ==> DecodeRows(annos[t]).Ok? then Ok(map t | t in annos :: DecodeRows(annos[t]).value) else Err
  }

  /** One unreadable annotation spoils the pod; otherwise every type has the rows of its own. */
  lemma ReadsAllOrNothing(annos: map<string, string>, t: string)
    requires t in annos
    ensures DecodeRows(annos[t]).Err? ==> DecodeAnnos(annos).Err?
    ensures DecodeAnnos(annos).Ok? ==> DecodeAnnos(annos).value.Keys == annos.Keys && DecodeRows(annos[t]) == Ok(DecodeAnnos(annos).value[t])
  {
  }

  method DecodePodDevices(annos: map<string, string>) returns (pd: Result<PodDevices>)
    ensures pd == DecodeAnnos(annos)
  {
    var acc: PodDevices := map[];
    var todo := annos.Keys;
    while todo != {}
      invariant todo <= annos.Keys && acc.Keys == annos.Keys - todo
      invariant forall t :: t in acc ==> DecodeRows(annos[t]) == Ok(acc[t])
    {
      var t :| t in todo;
      var rows := DecodePodSingleDevice(annos[t]);
      if rows.Err? {
        return Err;
      }
      acc := acc[t := rows.value];
      todo := todo - {t};
    }
    assert acc == DecodeAnnos(annos).value;
    return Ok(acc);
  }

  function EffectiveDevices(pod: Pod, raw: PodDevices, released: bool): PodDevices {
    if released then SteadyDevices(pod, raw) else CollapsedDevices(pod, raw)
  }

  method EffectivePodDeviceUsage(pod: Pod, raw: PodDevices, released: bool) returns (devices: PodDevices)
    ensures devices == EffectiveDevices(pod, raw, released)
  {
    if released {
      devices := SteadyStateDeviceUsage(pod, raw);
    } else {
      devices := CollapseInitContainerUsage(pod, raw);
    }
  }

  // ---------- What the operations of the cache do ----------

  function Added(cache: Cache, o: ApiPod, node: string, devices: PodDevices): Cache {
    var u := o.pod.uid;
    if u !in cache then cache[u := PodInfo(o, node, devices, false)]
    else if cache[u].released then cache[u := cache[u].(obj := o, node := node)]
    else cache[u := cache[u].(obj := o, node := node, devices := devices)]
  }

  function Updated(cache: Cache, o: ApiPod): Cache {
    if o.pod.uid in cache then cache[o.pod.uid := cache[o.pod.uid].(obj := o)] else cache
  }

  /** The cached pod of this UID, if it is the named pod. */
  predicate Holds(cache: Cache, pod: Pod) {
    pod.uid in cache && cache[pod.uid].obj.pod.name == pod.name && cache[pod.uid].obj.pod.ns == pod.ns
  }

  function Taken(cache: Cache, pod: Pod): Cache {
    if Holds(cache, pod) then cache - {pod.uid} else cache
  }

  class PodManager {
    var pods: Cache

    constructor ()
      ensures pods == map[]
    {
      pods := map[];
    }

    /** Stores the effective devices of a pod. Usage that was already shrunk is kept: a
        later add must not inflate it again. */
    method AddPod(o: ApiPod, node: string, devices: PodDevices) returns (isNew: bool)
      modifies this
      ensures pods == Added(old(pods), o, node, devices) && isNew == (o.pod.uid !in old(pods))
    {
      var u := o.pod.uid;
      isNew := u !in pods;
      if isNew {
        pods := pods[u := PodInfo(o, node, devices, false)];
      } else {
        var pi := pods[u].(obj := o, node := node);
        if !pi.released {
          pi := pi.(devices := devices);
        }
        pods := pods[u := pi];
      }
    }

    method UpdatePod(o: ApiPod)
      modifies this
      ensures pods == Updated(old(pods), o)
    {
      if o.pod.uid in pods {
        pods := pods[o.pod.uid := pods[o.pod.uid].(obj := o)];
      }
    }

    method DelPod(uid: string)
      modifies this
      ensures pods == old(pods) - {uid}
    {
      pods := pods - {uid};
    }

    method GetPod(uid: string) returns (pi: Option<PodInfo>)
      ensures pi == if uid in pods then Some(pods[uid]) else None
    {
      pi := if uid in pods then Some(pods[uid]) else None;
    }

    /** Removes a cached pod. The UID is the key, but name and namespace must agree too:
        a request that pairs one pod's UID with another pod's name frees nothing. */
    method TakeAndDeletePod(pod: Pod) returns (pi: Option<PodInfo>)
      modifies this
      ensures pods == Taken(old(pods), pod)
      ensures pi == if Holds(old(pods), pod) then Some(old(pods)[pod.uid]) else None
    {
      if pod.uid !in pods {
        return None;
      }
      var found := pods[pod.uid];
      if found.obj.pod.name != pod.name || found.obj.pod.ns != pod.ns {
        return None;
      }
      pods := pods - {pod.uid};
      return Some(found);
    }

    method ReplacePodDevices(uid: string, devices: PodDevices) returns (was: Option<PodDevices>)
      modifies this
      ensures was == if uid in old(pods) then Some(old(pods)[uid].devices) else None
      ensures pods == if uid in old(pods) then old(pods)[uid := old(pods)[uid].(devices := devices)] else old(pods)
    {
      if uid !in pods {
        return None;
      }
      was := Some(pods[uid].devices);
      pods := pods[uid := pods[uid].(devices := devices)];
    }

    /** Replaces the devices and records that init usage was released. */
    method UpdatePodDevice(uid: string, devices: PodDevices) returns (was: Option<PodDevices>)
      modifies this
      ensures was == if uid in old(pods) then Some(old(pods)[uid].devices) else None
      ensures pods == if uid in old(pods) then old(pods)[uid := old(pods)[uid].(devices := devices, released := true)] else old(pods)
    {
      if uid !in pods {
        return None;
      }
      was := Some(pods[uid].devices);
      pods := pods[uid := pods[uid].(devices := devices, released := true)];
    }
  }

  // ---------- What the event handlers do to the cache ----------

  /** Shrinks a cached pod to steady state once its ordinary init containers are done. */
  function Shrunk(cache: Cache, o: ApiPod, raw: Result<PodDevices>): Cache {
    var u := o.pod.uid;
    if !InitSucceeded(o) || u !in cache || cache[u].released || raw.Err? then cache
    else cache[u := cache[u].(devices := SteadyDevices(o.pod, raw.value), released := true)]
  }

  function AfterAssigned(cache: Cache, o: ApiPod): Cache
    requires o.node.Some?
  {
    var raw := DecodeAnnos(o.annos);
    if o.terminating && o.pod.uid in cache then Updated(cache, o)
    else if raw.Err? then cache
    else Shrunk(Added(cache, o, o.node.value, CollapsedDevices(o.pod, raw.value)), o, raw)
  }

  /** The cache after an add event. */
  function AfterAdd(cache: Cache, o: ApiPod): Cache {
    if o.terminated then Taken(cache, o.pod)
    else if o.node.None? then cache
    else AfterAssigned(cache, o)
  }

  /** The cache after an update event. */
  function AfterUpdate(cache: Cache, o: ApiPod): Cache {
    if o.terminated then Taken(cache, o.pod)
    else if o.node.None? then cache
    else if o.pod.uid !in cache then AfterAssigned(cache, o)
    else if o.terminating then Updated(cache, o)
    else Shrunk(Updated(cache, o), o, DecodeAnnos(o.annos))
  }
}
