/** The Enflame backend: a card is cut into slices, a profile takes some of them and a
    share of the cores that is rounded down. */
module Enflame {
  import opened Usages
  import opened Devices
  import opened Lifecycle
  import opened Claims

  /** The share of the cores that `size` of `maxSlice` slices take, rounded down. */
  function CorePercent(size: nat, maxSlice: Positive): nat {
    size * 100 / maxSlice
  }

  const ENFLAME := "Enflame"

  datatype Profile = Profile(size: Positive, memoryGB: Positive)

  function Grant(info: DeviceInfo, p: Profile, maxSlice: Positive): ContainerDevice {
    ContainerDevice(info.id, ENFLAME, p.memoryGB * 1024, CorePercent(p.size, maxSlice), p.size)
  }

  /** Every check but the one on cores. */
  predicate HasSlices(sel: Selection, dev: DeviceUsage, p: Profile) {
    && dev.info.health && dev.info.id in sel.typeOk && dev.info.id in sel.uuidOk
    && dev.use.slots + p.size <= dev.info.count && !(sel.mutex && dev.use.slots > 0)
    && dev.use.mem + p.memoryGB * 1024 <= dev.info.totalmem
  }

  predicate HasCores(dev: DeviceUsage, p: Profile, maxSlice: Positive) {
    dev.info.totalcore > 0 ==> dev.use.cores + CorePercent(p.size, maxSlice) <= dev.info.totalcore
  }

  // ---------- The invariant ----------

  /** Cores never run ahead of slices. */
  predicate InStep(cores: nat, slots: nat, maxSlice: Positive) {
    cores * maxSlice <= 100 * slots
  }

  lemma InStepPlus(c: nat, s: nat, c': nat, s': nat, m: Positive)
    requires InStep(c, s, m) && InStep(c', s', m)
    ensures InStep(c + c', s + s', m)
  {
    assert (c + c') * m == c * m + c' * m;
  }

  /** Rounding down keeps a grant in step. */
  lemma GrantInStep(info: DeviceInfo, p: Profile, m: Positive)
    ensures InStep(Grant(info, p, m).Use().Of(Cores), Grant(info, p, m).Use().Of(Slots), m)
  {
    assert CorePercent(p.size, m) * m <= p.size * 100;
  }

  predicate RowInStep(row: ContainerDevices, m: Positive) {
    forall x :: 0 <= x < |row| ==> InStep(row[x].Use().Of(Cores), row[x].Use().Of(Slots), m)
  }

  predicate RowsInStep(rows: PodSingleDevice, m: Positive) {
    forall i :: 0 <= i < |rows| ==> RowInStep(rows[i], m)
  }

  lemma {:induction false} RowUseInStep(row: ContainerDevices, d: DeviceId, m: Positive)
    requires RowInStep(row, m)
    ensures InStep(RowUse(row, d, Cores), RowUse(row, d, Slots), m)
  {
    if row != [] {
      var front, e := row[..|row| - 1], row[|row| - 1];
      RowUseInStep(front, d, m);
      InStepPlus(RowUse(front, d, Cores), RowUse(front, d, Slots), UseOn(e, d, Cores), UseOn(e, d, Slots), m);
    }
  }

  lemma {:induction false} PartInStep(pod: Pod, rows: PodSingleDevice, n: nat, k: Kind, d: DeviceId, m: Positive)
    requires RowsInStep(rows, m) && n <= |rows|
    ensures InStep(PartUse(pod, rows, n, k, d, Cores), PartUse(pod, rows, n, k, d, Slots), m)
  {
    if n > 0 {
      PartInStep(pod, rows, n - 1, k, d, m);
      if pod.KindAt(n - 1) == k {
        RowUseInStep(rows[n - 1], d, m);
        InStepPlus(PartUse(pod, rows, n - 1, k, d, Cores), PartUse(pod, rows, n - 1, k, d, Slots),
                   RowUse(rows[n - 1], d, Cores), RowUse(rows[n - 1], d, Slots), m);
      }
    }
  }

  lemma LiveInStep(pod: Pod, rows: PodSingleDevice, n: nat, d: DeviceId, m: Positive)
    requires RowsInStep(rows, m) && n <= |rows|
    ensures InStep(LiveUse(pod, rows, n, d, Cores), LiveUse(pod, rows, n, d, Slots), m)
  {
    PartInStep(pod, rows, n, Sidecar, d, m);
    PartInStep(pod, rows, n, App, d, m);
    InStepPlus(PartUse(pod, rows, n, Sidecar, d, Cores), PartUse(pod, rows, n, Sidecar, d, Slots),
               PartUse(pod, rows, n, App, d, Cores), PartUse(pod, rows, n, App, d, Slots), m);
  }

  lemma InStepMax(c: nat, s: nat, c': nat, s': nat, m: Positive)
    requires InStep(c, s, m) && InStep(c', s', m)
    ensures InStep(Max(c, c'), Max(s, s'), m)
  {
  }

  lemma {:induction false} PeakInStep(pod: Pod, rows: PodSingleDevice, n: nat, d: DeviceId, m: Positive)
    requires RowsInStep(rows, m) && n <= |rows|
    ensures InStep(PeakUse(pod, rows, n, d, Cores), PeakUse(pod, rows, n, d, Slots), m)
  {
    if n > 0 {
      PeakInStep(pod, rows, n - 1, d, m);
      if pod.KindAt(n - 1) != App {
        LiveInStep(pod, rows, n - 1, d, m);
        RowUseInStep(rows[n - 1], d, m);
        InStepPlus(LiveUse(pod, rows, n - 1, d, Cores), LiveUse(pod, rows, n - 1, d, Slots),
                   RowUse(rows[n - 1], d, Cores), RowUse(rows[n - 1], d, Slots), m);
        InStepMax(PeakUse(pod, rows, n - 1, d, Cores), PeakUse(pod, rows, n - 1, d, Slots),
                  StepUse(pod, rows, n - 1, d, Cores), StepUse(pod, rows, n - 1, d, Slots), m);
      }
    }
  }

  /** What a pod is charged stays in step, collapsed or steady, although the peaks of the
      two counters may come from different stages. */
  lemma ChargeInStep(pod: Pod, rows: PodSingleDevice, released: bool, d: DeviceId, m: Positive)
    requires RowsInStep(rows, m)
    ensures InStep(Effective(pod, rows, released, d, Cores), Effective(pod, rows, released, d, Slots), m)
  {
    LiveInStep(pod, rows, |rows|, d, m);
    PeakInStep(pod, rows, |rows|, d, m);
    InStepMax(PeakUse(pod, rows, |rows|, d, Cores), PeakUse(pod, rows, |rows|, d, Slots),
              LiveUse(pod, rows, |rows|, d, Cores), LiveUse(pod, rows, |rows|, d, Slots), m);
  }

  lemma ShareInStep(c: Claim, u: string, node: string, t: string, d: DeviceId, m: Positive)
    requires RowsInStep(Rows(c.raw, t), m)
    ensures InStep(Share(node, t, d, Cores)(u, c), Share(node, t, d, Slots)(u, c), m)
  {
    ChargeInStep(c.pod, Rows(c.raw, t), c.released, d, m);
  }

  lemma OneMoreInStep(claims: ClaimMap, u: string, node: string, t: string, d: DeviceId, m: Positive)
    requires u in claims && RowsInStep(Rows(claims[u].raw, t), m)
    requires InStep(TotalUse(claims - {u}, node, t, d, Cores), TotalUse(claims - {u}, node, t, d, Slots), m)
    ensures InStep(TotalUse(claims, node, t, d, Cores), TotalUse(claims, node, t, d, Slots), m)
  {
    var c, s := Share(node, t, d, Cores)(u, claims[u]), Share(node, t, d, Slots)(u, claims[u]);
    ShareInStep(claims[u], u, node, t, d, m);
    InStepPlus(TotalUse(claims - {u}, node, t, d, Cores), TotalUse(claims - {u}, node, t, d, Slots), c, s, m);
    SumMapRemove(claims, Share(node, t, d, Cores), u);
    SumMapRemove(claims, Share(node, t, d, Slots), u);
  }

  /** Any pods together stay in step. */
  lemma {:induction false} TotalInStep(claims: ClaimMap, node: string, t: string, d: DeviceId, m: Positive)
    requires forall u :: u in claims ==> RowsInStep(Rows(claims[u].raw, t), m)
    ensures InStep(TotalUse(claims, node, t, d, Cores), TotalUse(claims, node, t, d, Slots), m)
    decreases |claims|
  {
    if claims != map[] {
      var u :| u in claims;
      TotalInStep(claims - {u}, node, t, d, m);
      OneMoreInStep(claims, u, node, t, d, m);
    }
  }

  lemma Divide(x: nat, m: Positive)
    requires x * m <= 100 * m
    ensures x <= 100
  {
  }

  /** Rounding strands no slice: with no more slices than the profiles divide a card into,
      a profile that finds its slices free finds the cores too. */
  lemma SlicesBringCores(sel: Selection, dev: DeviceUsage, p: Profile, m: Positive)
    requires InStep(dev.use.cores, dev.use.slots, m) && dev.info.count <= m && dev.info.totalcore in {0, 100} && HasSlices(sel, dev, p)
    ensures HasCores(dev, p, m)
  {
    var cores := CorePercent(p.size, m);
    GrantInStep(dev.info, p, m);
    InStepPlus(dev.use.cores, dev.use.slots, cores, p.size, m);
    Divide(dev.use.cores + cores, m);
  }

  /** On a node shared by any pods placed by this backend. */
  lemma SlicesBringCoresInAnyState(sel: Selection, dev: DeviceUsage, claims: ClaimMap, node: string, t: string, p: Profile, m: Positive)
    requires forall u :: u in claims ==> RowsInStep(Rows(claims[u].raw, t), m)
    requires forall r :: dev.use.Of(r) == TotalUse(claims, node, t, dev.info.id, r)
    requires dev.info.count <= m && dev.info.totalcore in {0, 100} && HasSlices(sel, dev, p)
    ensures HasCores(dev, p, m)
  {
    TotalInStep(claims, node, t, dev.info.id, m);
    assert dev.use.Of(Cores) == TotalUse(claims, node, t, dev.info.id, Cores);
    assert dev.use.Of(Slots) == TotalUse(claims, node, t, dev.info.id, Slots);
    SlicesBringCores(sel, dev, p, m);
  }

  // ---------- The fit ----------

  predicate Admissible(sel: Selection, dev: DeviceUsage, p: Profile, maxSlice: Positive) {
    HasSlices(sel, dev, p) && HasCores(dev, p, maxSlice)
  }

  /** How many of the devices from position `i` on are admissible. */
  function Count(sel: Selection, devices: seq<DeviceUsage>, i: nat, p: Profile, maxSlice: Positive): nat
    requires i <= |devices|
    decreases |devices| - i
  {
    if i == |devices| then 0
    else (if Admissible(sel, devices[i], p, maxSlice) then 1 else 0) + Count(sel, devices, i + 1, p, maxSlice)
  }

  /** The row grants the profile on different admissible devices. */
  ghost predicate Granted(sel: Selection, devices: seq<DeviceUsage>, lo: nat, p: Profile, maxSlice: Positive, row: ContainerDevices, at: seq<nat>) {
    && |at| == |row|
    && (forall x :: 0 <= x < |row| ==>
      lo <= at[x] < |devices| && Admissible(sel, devices[at[x]], p, maxSlice) && row[x] == Grant(devices[at[x]].info, p, maxSlice))
    && (forall x, y :: 0 <= x < y < |at| ==> at[x] > at[y])
  }

  /** Takes admissible devices from the end of the list. */
  method Fit(devices: seq<DeviceUsage>, sel: Selection, p: Profile, maxSlice: Positive, nums: Positive)
    returns (ok: bool, row: ContainerDevices, ghost at: seq<nat>)
    ensures Granted(sel, devices, 0, p, maxSlice, row, at) && |row| <= nums
    ensures ok <==> Count(sel, devices, 0, p, maxSlice) >= nums
    ensures ok ==> |row| == nums
  {
    row, at := [], [];
    var i := |devices|;
    while i > 0
      invariant 0 <= i <= |devices| && |row| < nums && |row| == Count(sel, devices, i, p, maxSlice)
      invariant Granted(sel, devices, i, p, maxSlice, row, at)
    {
      i := i - 1;
      if Admissible(sel, devices[i], p, maxSlice) {
        row, at := row + [Grant(devices[i].info, p, maxSlice)], at + [i];
      }
      if |row| == nums {
        CountMono(sel, devices, i, p, maxSlice);
        return true, row, at;
      }
    }
    return false, row, at;
  }

  lemma {:induction false} CountMono(sel: Selection, devices: seq<DeviceUsage>, i: nat, p: Profile, maxSlice: Positive)
    requires i <= |devices|
    ensures Count(sel, devices, i, p, maxSlice) <= Count(sel, devices, 0, p, maxSlice)
    decreases i
  {
    if i > 0 { CountMono(sel, devices, i - 1, p, maxSlice); }
  }

  /** A granted row is in step. */
  lemma FitInStep(sel: Selection, devices: seq<DeviceUsage>, p: Profile, maxSlice: Positive, row: ContainerDevices, at: seq<nat>)
    requires Granted(sel, devices, 0, p, maxSlice, row, at)
    ensures RowInStep(row, maxSlice)
  {
    forall x | 0 <= x < |row| ensures InStep(row[x].Use().Of(Cores), row[x].Use().Of(Slots), maxSlice) {
      GrantInStep(devices[at[x]].info, p, maxSlice);
    }
  }

  /** What a granted profile takes: its slices, its gigabytes in units of 1024, and its share of
      the cores rounded down; and it takes them on a card that has them free. */
  lemma GrantedProfile(sel: Selection, devices: seq<DeviceUsage>, p: Profile, maxSlice: Positive, row: ContainerDevices, at: seq<nat>, x: nat)
    requires Granted(sel, devices, 0, p, maxSlice, row, at) && x < |row|
    ensures var e, dev := row[x], devices[at[x]];
      && e.uuid == dev.info.id && dev.info.health && e.uuid in sel.typeOk && e.uuid in sel.uuidOk && (sel.mutex ==> dev.use.slots == 0)
      && e.slots == p.size && e.mem == 1024 * p.memoryGB && e.cores * maxSlice <= 100 * p.size < (e.cores + 1) * maxSlice
      && dev.use.slots + e.slots <= dev.info.count && dev.use.mem + e.mem <= dev.info.totalmem
      && (dev.info.totalcore > 0 ==> dev.use.cores + e.cores <= dev.info.totalcore)
  {
    var e, dev := row[x], devices[at[x]];
    assert row[x] == Grant(dev.info, p, maxSlice) && Admissible(sel, dev, p, maxSlice);
    ShareRounded(p.size, maxSlice);
  }

  lemma ShareRounded(size: nat, maxSlice: Positive)
    ensures CorePercent(size, maxSlice) * maxSlice <= 100 * size < (CorePercent(size, maxSlice) + 1) * maxSlice
  {
    var q, whole := CorePercent(size, maxSlice), size * 100;
    assert whole == maxSlice * q + whole % maxSlice;
    assert (q + 1) * maxSlice == q * maxSlice + maxSlice;
  }
}
