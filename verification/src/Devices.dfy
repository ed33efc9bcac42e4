/** The records that pass between the scheduler's components: allocation rows,
    pods, requests and device snapshots. */
module Devices {
  import opened Usages

  datatype Option<+T> = None | Some(value: T)

  type DeviceId = string

  /** One container's grant on one device. */
  datatype ContainerDevice = ContainerDevice(uuid: DeviceId, typ: string, mem: nat, cores: nat, slots: nat) {
    /** Raw grants leave `slots` unset, which still occupies one slot. */
    function Use(): Usage {
      Usage(mem, cores, Max(slots, 1))
    }
  }

  type ContainerDevices = seq<ContainerDevice>
  type PodSingleDevice = seq<ContainerDevices>

  /** Device type to one row per container. */
  type PodDevices = map<string, PodSingleDevice>

  type Positive = n: nat | n > 0 witness 1

  datatype Request = Request(nums: Positive, memreq: nat, mempct: nat, coresreq: int)

  /** What one container asks for, by device type. */
  type ContainerRequests = map<string, Request>

  datatype Kind = Sidecar | OrdinaryInit | App

  /** The part of a pod's spec the scheduler reads: one flag per init container
      that says whether it is a sidecar, and one request map per container, init
      containers first. */
  datatype Pod = Pod(uid: string, ns: string, name: string, sidecars: seq<bool>, reqs: seq<ContainerRequests>) {
    function KindAt(i: nat): Kind {
      if i < |sidecars| then (if sidecars[i] then Sidecar else OrdinaryInit) else App
    }
  }

  const NVIDIA := "NVIDIA"
  const ASCEND := "Ascend910B"

  /** A registered device. `vendor` is the registered device type that serves it;
      `typ` is the product name the node registers. */
  datatype DeviceInfo = DeviceInfo(id: DeviceId, typ: string, vendor: string, count: nat, totalmem: nat, totalcore: nat,
                                   numa: int, health: bool)

  /** One grant of a cached pod on a device. */
  datatype Tenant = Tenant(uid: string, cores: nat)

  /** A device as the scheduler sees it while it places a pod. */
  datatype DeviceUsage = DeviceUsage(info: DeviceInfo, use: Usage, tenants: seq<Tenant>)

  predicate UniqueIds(devices: seq<DeviceUsage>) {
    forall i, j :: 0 <= i < j < |devices| ==> devices[i].info.id != devices[j].info.id
  }

  /** What the annotations of a pod and of a node say about the choice of devices:
      the devices whose type and whose identifier the pod accepts, the cordoned
      devices, the policies, the node's hami-core mode and the link scores. */
  datatype Selection = Selection(typeOk: set<DeviceId>, uuidOk: set<DeviceId>, cordoned: set<DeviceId>,
                                 numaBind: bool, mutex: bool, topology: bool, hamiCore: bool,
                                 scores: map<DeviceId, map<DeviceId, int>>)

  /** How much of counter `r` a single grant takes on device `d`. */
  function UseOn(e: ContainerDevice, d: DeviceId, r: Res): nat {
    if e.uuid == d then e.Use().Of(r) else 0
  }

  /** What a container uses on device `d`: its grants run together. */
  function RowUse(row: ContainerDevices, d: DeviceId, r: Res): nat {
    if row == [] then 0
    else RowUse(row[..|row| - 1], d, r) + UseOn(row[|row| - 1], d, r)
  }

  predicate Names(row: ContainerDevices, d: DeviceId) {
    exists i :: 0 <= i < |row| && row[i].uuid == d
  }

  /** No device appears twice in the row. */
  predicate Distinct(row: ContainerDevices) {
    forall i, j :: 0 <= i < j < |row| ==> row[i].uuid != row[j].uuid
  }

  function Rows(pd: PodDevices, t: string): PodSingleDevice {
    if t in pd then pd[t] else []
  }

  lemma {:induction false} RowUseUnnamed(row: ContainerDevices, d: DeviceId, r: Res)
    requires !Names(row, d)
    ensures RowUse(row, d, r) == 0
  {
    if row != [] {
      assert row[|row| - 1].uuid != d;
      RowUseUnnamed(row[..|row| - 1], d, r);
    }
  }

  lemma {:induction false} RowUseBound(row: ContainerDevices, d: DeviceId, r: Res, i: nat)
    requires i < |row| && row[i].uuid == d
    ensures row[i].Use().Of(r) <= RowUse(row, d, r)
  {
    if i < |row| - 1 {
      RowUseBound(row[..|row| - 1], d, r, i);
    }
  }

  lemma {:induction false} RowUseDistinct(row: ContainerDevices, r: Res, i: nat)
    requires Distinct(row) && i < |row|
    ensures RowUse(row, row[i].uuid, r) == row[i].Use().Of(r)
  {
    var front := row[..|row| - 1];
    if i == |row| - 1 {
      RowUseUnnamed(front, row[i].uuid, r);
    } else {
      assert Distinct(front);
      RowUseDistinct(front, r, i);
      assert row[|row| - 1].uuid != row[i].uuid;
    }
  }

  lemma {:induction false} RowUseAppend(a: ContainerDevices, b: ContainerDevices, d: DeviceId, r: Res)
    ensures RowUse(a + b, d, r) == RowUse(a, d, r) + RowUse(b, d, r)
  {
    if b == [] {
      assert a + b == a;
    } else {
      assert (a + b)[..|a + b| - 1] == a + b[..|b| - 1];
      RowUseAppend(a, b[..|b| - 1], d, r);
    }
  }
}
