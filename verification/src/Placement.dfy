/** What it means for a pod's rows to be a placement: every container was granted
    admissible devices, judged against the usage left by the containers still
    running when it starts. */
module Placement {
  import opened Usages
  import opened Devices
  import opened Lifecycle
  import Nvidia
  import Ascend

  /** The devices of a node by identifier. */
  type Snapshot = map<DeviceId, DeviceUsage>

  predicate WellKeyed(devs: Snapshot) {
    forall d :: d in devs ==> devs[d].info.id == d
  }

  predicate IsBackend(t: string) {
    t == NVIDIA || t == ASCEND
  }

  function RowUsage(row: ContainerDevices, d: DeviceId): Usage {
    Usage(RowUse(row, d, Mem), RowUse(row, d, Cores), RowUse(row, d, Slots))
  }

  /** A device once a container with this row runs beside what is already there. */
  function WithRow(dev: DeviceUsage, row: ContainerDevices): DeviceUsage {
    dev.(use := dev.use.Plus(RowUsage(row, dev.info.id)))
  }

  function LiveUsage(pod: Pod, rows: PodSingleDevice, d: DeviceId): Usage {
    Usage(LiveUse(pod, rows, |rows|, d, Mem), LiveUse(pod, rows, |rows|, d, Cores), LiveUse(pod, rows, |rows|, d, Slots))
  }

  /** A device while the containers of `rows` that do not exit keep running. */
  function WithLive(dev: DeviceUsage, pod: Pod, rows: PodSingleDevice): DeviceUsage {
    dev.(use := dev.use.Plus(LiveUsage(pod, rows, dev.info.id)))
  }

  /** Backend `t` may make grant `e` on `dev` to a pod that runs `self` cores there. */
  predicate Grants(sel: Selection, dev: DeviceUsage, t: string, req: Request, self: nat, uid: string, e: ContainerDevice) {
    if t == NVIDIA then Nvidia.Admissible(sel, dev, req) && e == Nvidia.Grant(dev.info, req)
    else t == ASCEND && Ascend.Admissible(sel, dev, req, self, uid) && e == Ascend.Grant(dev.info, req)
  }

  /** A container's row against the devices as they are when it starts. */
  ghost predicate RowOk(devs: Snapshot, sel: Selection, pod: Pod, t: string, req: Request, before: PodSingleDevice,
                        row: ContainerDevices) {
    && |row| == req.nums && Distinct(row)
    && (forall x :: 0 <= x < |row| ==>
      && row[x].uuid in devs && devs[row[x].uuid].info.vendor == t
      && Grants(sel, devs[row[x].uuid], t, req, LiveUse(pod, before, |before|, row[x].uuid, Cores), pod.uid, row[x]))
  }

  function LiveDevs(start: Snapshot, pod: Pod, rows: PodSingleDevice): Snapshot {
    map d | d in start :: WithLive(start[d], pod, rows)
  }

  /** The row of the container that follows `before`. */
  ghost predicate StepOk(start: Snapshot, sel: Selection, pod: Pod, t: string, before: PodSingleDevice, row: ContainerDevices) {
    && |before| < |pod.reqs|
    && if t in pod.reqs[|before|] then RowOk(LiveDevs(start, pod, before), sel, pod, t, pod.reqs[|before|][t], before, row)
       else row == []
  }

  /** The rows of the first containers. */
  ghost predicate PlacedSoFar(start: Snapshot, sel: Selection, pod: Pod, t: string, rows: PodSingleDevice) {
    forall i :: 0 <= i < |rows| ==> StepOk(start, sel, pod, t, rows[..i], rows[i])
  }

  ghost predicate Placed(start: Snapshot, sel: Selection, pod: Pod, t: string, rows: PodSingleDevice) {
    |rows| == |pod.reqs| && PlacedSoFar(start, sel, pod, t, rows)
  }

  predicate Requests(pod: Pod, t: string) {
    exists i :: 0 <= i < |pod.reqs| && t in pod.reqs[i]
  }

  predicate AllEmpty(rows: PodSingleDevice) {
    forall i :: 0 <= i < |rows| ==> rows[i] == []
  }

  /** A placement of the whole pod: rows for every type it requests, and nothing but
      padding for any other type. */
  ghost predicate PlacedAll(start: Snapshot, sel: Selection, pod: Pod, raw: PodDevices) {
    && (forall t :: Requests(pod, t) ==> IsBackend(t) && t in raw && Placed(start, sel, pod, t, raw[t]))
    && (forall t :: t in raw && !Requests(pod, t) ==> AllEmpty(raw[t]))
  }

  // ---------- Prefixes ----------

  lemma {:induction false} PartPrefix(pod: Pod, rows: PodSingleDevice, n: nat, m: nat, k: Kind, d: DeviceId, r: Res)
    requires n <= m <= |rows|
    ensures PartUse(pod, rows[..m], n, k, d, r) == PartUse(pod, rows, n, k, d, r)
  {
    if n > 0 { PartPrefix(pod, rows, n - 1, m, k, d, r); }
  }

  /** What runs after the first `n` containers does not depend on later rows. */
  lemma LivePrefix(pod: Pod, rows: PodSingleDevice, n: nat, d: DeviceId, r: Res)
    requires n <= |rows|
    ensures LiveUse(pod, rows[..n], n, d, r) == LiveUse(pod, rows, n, d, r)
  {
    PartPrefix(pod, rows, n, n, Sidecar, d, r);
    PartPrefix(pod, rows, n, n, App, d, r);
  }

  lemma {:induction false} PeakPrefix(pod: Pod, rows: PodSingleDevice, n: nat, m: nat, d: DeviceId, r: Res)
    requires n <= m <= |rows|
    ensures PeakUse(pod, rows[..m], n, d, r) == PeakUse(pod, rows, n, d, r)
  {
    if n > 0 {
      PeakPrefix(pod, rows, n - 1, m, d, r);
      PartPrefix(pod, rows, n - 1, m, Sidecar, d, r);
      PartPrefix(pod, rows, n - 1, m, App, d, r);
    }
  }

  /** One more container: how the running usage and the init peak move on. */
  lemma LiveStep(pod: Pod, rows: PodSingleDevice, row: ContainerDevices, d: DeviceId, r: Res)
    ensures LiveUse(pod, rows + [row], |rows| + 1, d, r) ==
      LiveUse(pod, rows, |rows|, d, r) + if pod.KindAt(|rows|) == OrdinaryInit then 0 else RowUse(row, d, r)
    ensures PeakUse(pod, rows + [row], |rows| + 1, d, r) ==
      if pod.KindAt(|rows|) == App then PeakUse(pod, rows, |rows|, d, r)
      else Max(PeakUse(pod, rows, |rows|, d, r), LiveUse(pod, rows, |rows|, d, r) + RowUse(row, d, r))
  {
    var all := rows + [row];
    assert all[..|rows|] == rows;
    LivePrefix(pod, all, |rows|, d, r);
    PartPrefix(pod, all, |rows|, |rows|, Sidecar, d, r);
    PartPrefix(pod, all, |rows|, |rows|, App, d, r);
    PeakPrefix(pod, all, |rows|, |rows|, d, r);
  }

  lemma PlacedExtend(start: Snapshot, sel: Selection, pod: Pod, t: string, rows: PodSingleDevice, row: ContainerDevices)
    requires PlacedSoFar(start, sel, pod, t, rows) && StepOk(start, sel, pod, t, rows, row)
    ensures PlacedSoFar(start, sel, pod, t, rows + [row])
  {
    forall i | 0 <= i < |rows| + 1 ensures StepOk(start, sel, pod, t, (rows + [row])[..i], (rows + [row])[i]) {
      if i < |rows| {
        assert (rows + [row])[..i] == rows[..i];
      } else {
        assert (rows + [row])[..i] == rows;
      }
    }
  }
}
