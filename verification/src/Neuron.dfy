/** The AWS Neuron backend: devices have at most four cores, a grant is a mask of
    neighbouring cores, and usage accumulates by joining masks. */
module Neuron {
  import opened Usages
  import opened Devices
  import opened Masks

  const MAX_CORES_PER_NEURON_DEVICE := 4

  /** A device: `total` and `cores` are the masks of its cores and of those in use; `ring`
      says whether its node connects the devices in a ring, if the node type is known. */
  datatype NeuronDevice = NeuronDevice(id: DeviceId, index: nat, total: nat, cores: nat, used: nat, count: nat, health: bool,
                                       ring: Option<bool>)

  /** Cores are asked for in total, or per device with zero for all of them. */
  datatype CoreRequest = CoreRequest(nums: Positive, coresreq: nat, total: nat)

  datatype CoreGrant = CoreGrant(id: DeviceId, mask: nat)

  // ---------- One device ----------

  /** The run lies within the available cores and outside the used ones. */
  predicate FreeRun(used: nat, available: nat, start: nat, len: nat) {
    start + len <= MAX_CORES_PER_NEURON_DEVICE && And(available, Run(start, len)) == Run(start, len) && And(used, Run(start, len)) == 0
  }

  /** The mask is a free run of `len` cores. */
  ghost predicate FreeMask(used: nat, available: nat, mask: nat, len: nat) {
    exists start :: FreeRun(used, available, start, len) && mask == Run(start, len)
  }

  /** The mask is the first free run of `len` cores. */
  ghost predicate FirstFree(used: nat, available: nat, mask: nat, len: nat) {
    exists start: nat :: FreeRun(used, available, start, len) && mask == Run(start, len)
      && forall s: nat :: s < start ==> !FreeRun(used, available, s, len)
  }

  /** The first run of free neighbouring cores. */
  method AllocateCoreMask(used: nat, available: nat, required: nat) returns (mask: nat, found: bool)
    ensures found <==> required > 0 && exists start :: FreeRun(used, available, start, required)
    ensures found ==> FreeMask(used, available, mask, required) && FirstFree(used, available, mask, required) && Ones(mask) == required
  {
    if required <= 0 || required > MAX_CORES_PER_NEURON_DEVICE {
      return 0, false;
    }
    var start := 0;
    while start + required <= MAX_CORES_PER_NEURON_DEVICE
      invariant forall s :: 0 <= s < start ==> !FreeRun(used, available, s, required)
    {
      mask := Run(start, required);
      if And(available, mask) == mask && And(used, mask) == 0 {
        RunOnes(start, required);
        assert FreeRun(used, available, start, required);
        return mask, true;
      }
      start := start + 1;
    }
    return 0, false;
  }

  function Booked(dev: NeuronDevice, mask: nat): NeuronDevice {
    dev.(used := dev.used + 1, cores := Or(dev.cores, mask))
  }

  /** A shorter run from the same core is free as well. */
  lemma ShorterRun(used: nat, available: nat, start: nat, len: nat, k: nat)
    requires FreeRun(used, available, start, len) && k <= len
    ensures FreeRun(used, available, start, k)
  {
    RunMeets(start, len, k);
    AndAssociative(available, Run(start, len), Run(start, k));
    AndAssociative(used, Run(start, len), Run(start, k));
  }

  // ---------- Choosing neighbouring devices ----------

  predicate UniqueIndexes(devices: seq<NeuronDevice>) {
    forall i, j :: 0 <= i < j < |devices| ==> devices[i].index != devices[j].index
  }

  /** The devices in index order. */
  ghost predicate IndexOrder(devices: seq<NeuronDevice>, sorted: seq<NeuronDevice>) {
    && |sorted| == |devices|
    && (forall d :: d in sorted <==> d in devices)
    && (forall i, j :: 0 <= i < j < |sorted| ==> sorted[i].index <= sorted[j].index)
    && (UniqueIndexes(devices) ==> UniqueIndexes(sorted))
  }

  method SortByIndex(devices: seq<NeuronDevice>) returns (sorted: seq<NeuronDevice>)
    ensures IndexOrder(devices, sorted)
  {
    sorted := [];
    assert devices[..0] == [];
    for i := 0 to |devices|
      invariant IndexOrder(devices[..i], sorted)
    {
      var p := 0;
      while p < |sorted| && sorted[p].index <= devices[i].index
        invariant p <= |sorted| && forall q :: 0 <= q < p ==> sorted[q].index <= devices[i].index
      {
        p := p + 1;
      }
      InsertedOrder(devices, i, sorted, p);
      sorted := Inserted(sorted, p, devices[i]);
    }
    assert devices[..|devices|] == devices;
  }

  function Inserted(sorted: seq<NeuronDevice>, p: nat, d: NeuronDevice): seq<NeuronDevice>
    requires p <= |sorted|
  {
    sorted[..p] + [d] + sorted[p..]
  }

  lemma InsertedMembers(sorted: seq<NeuronDevice>, p: nat, d: NeuronDevice, e: NeuronDevice)
    requires p <= |sorted|
    ensures e in Inserted(sorted, p, d) <==> e in sorted || e == d
  {
    assert sorted == sorted[..p] + sorted[p..];
  }

  lemma InsertedUnique(devices: seq<NeuronDevice>, i: nat, sorted: seq<NeuronDevice>, p: nat)
    requires i < |devices| && IndexOrder(devices[..i], sorted) && p <= |sorted| && UniqueIndexes(devices[..i + 1])
    ensures UniqueIndexes(Inserted(sorted, p, devices[i]))
  {
    var upto := devices[..i + 1];
    assert UniqueIndexes(devices[..i]);
    forall q | 0 <= q < |sorted| ensures sorted[q].index != devices[i].index {
      assert sorted[q] in devices[..i];
      var j :| 0 <= j < i && devices[j] == sorted[q];
      assert upto[j].index != upto[i].index;
    }
  }

  lemma InsertedOrder(devices: seq<NeuronDevice>, i: nat, sorted: seq<NeuronDevice>, p: nat)
    requires i < |devices| && IndexOrder(devices[..i], sorted) && p <= |sorted|
    requires forall q :: 0 <= q < p ==> sorted[q].index <= devices[i].index
    requires p < |sorted| ==> devices[i].index < sorted[p].index
    ensures IndexOrder(devices[..i + 1], Inserted(sorted, p, devices[i]))
  {
    forall d ensures d in Inserted(sorted, p, devices[i]) <==> d in devices[..i + 1] { InsertedMembers(sorted, p, devices[i], d); }
    if UniqueIndexes(devices[..i + 1]) { InsertedUnique(devices, i, sorted, p); }
  }

  predicate Idle(d: NeuronDevice) {
    d.used == 0 && d.health
  }

  /** The indexes of the devices at positions `start` to `start + count`. */
  function IndexesAt(devices: seq<NeuronDevice>, start: nat, count: nat): seq<int>
    requires start + count <= |devices|
  {
    seq(count, i requires 0 <= i < count => devices[start + i].index)
  }

  /** A run of `count` idle devices. */
  predicate IdleRun(devices: seq<NeuronDevice>, start: nat, count: nat) {
    start + count <= |devices| && forall i :: start <= i < start + count ==> Idle(devices[i])
  }

  method ContinuousDeviceAvailable(devices: seq<NeuronDevice>, start: nat, count: Positive) returns (res: seq<int>)
    ensures if IdleRun(devices, start, count) then res == IndexesAt(devices, start, count) else res == []
  {
    if |devices| < start + count {
      return [];
    }
    res := [];
    for i := start to start + count
      invariant |res| == i - start && forall j :: 0 <= j < i - start ==> res[j] == devices[start + j].index
      invariant forall j :: start <= j < i ==> Idle(devices[j])
    {
      if devices[i].used > 0 || !devices[i].health {
        return [];
      }
      res := res + [devices[i].index];
    }
  }

  /** On a ring any idle run will do; elsewhere only runs of 1, 4, 8 or 16 devices that
      start at a multiple of their length. */
  predicate Selectable(sorted: seq<NeuronDevice>, count: Positive, start: nat) {
    && sorted != [] && sorted[0].ring.Some? && IdleRun(sorted, start, count)
    && (sorted[0].ring.value || (count in {1, 4, 8, 16} && start % count == 0))
  }

  /** The indexes of the first run that may be selected. */
  method GraphSelect(devices: seq<NeuronDevice>, count: Positive) returns (res: seq<int>, ghost sorted: seq<NeuronDevice>, ghost at: nat)
    ensures IndexOrder(devices, sorted)
    ensures |res| == 0 || |res| == count
    ensures res != [] ==> Selectable(sorted, count, at) && res == IndexesAt(sorted, at, count)
    ensures res != [] ==> forall s :: 0 <= s < at ==> !Selectable(sorted, count, s)
    ensures res == [] ==> forall s :: 0 <= s ==> !Selectable(sorted, count, s)
  {
    at := 0;
    var order := SortByIndex(devices);
    sorted := order;
    if |order| == 0 || order[0].ring.None? {
      return [], sorted, at;
    }
    if !order[0].ring.value && count !in {1, 4, 8, 16} {
      return [], sorted, at;
    }
    var step := if order[0].ring.value then 1 else count;
    var start := 0;
    while start < |order|
      invariant start % step == 0 && forall s :: 0 <= s < start ==> !Selectable(order, count, s)
      decreases |order| - start
    {
      res := ContinuousDeviceAvailable(order, start, count);
      if |res| > 0 {
        at := start;
        return;
      }
      SkippedStarts(order, count, start, step);
      start := start + step;
    }
    res := [];
  }

  /** What may be selected, device by device: neighbouring devices that are healthy and unused,
      anywhere on a ring, and elsewhere in blocks of 1, 4, 8 or 16. */
  lemma SelectableExactly(sorted: seq<NeuronDevice>, count: Positive, start: nat)
    ensures Selectable(sorted, count, start) <==>
      && start + count <= |sorted| && sorted[0].ring.Some? && (forall i :: start <= i < start + count ==> sorted[i].health && sorted[i].used == 0)
      && (sorted[0].ring == Some(true) || count == 1 || (count == 4 && start % 4 == 0) || (count == 8 && start % 8 == 0) || (count == 16 && start % 16 == 0))
  {
  }

  /** Between two starts there is nothing to select. */
  lemma SkippedStarts(sorted: seq<NeuronDevice>, count: Positive, start: nat, step: Positive)
    requires sorted != [] && sorted[0].ring.Some? && start % step == 0 && !IdleRun(sorted, start, count)
    requires if sorted[0].ring.value then step == 1 else step == count && count in {1, 4, 8, 16}
    ensures (start + step) % step == 0 && forall s :: start <= s < start + step ==> !Selectable(sorted, count, s)
  {
    NextMultiple(start, step);
    forall s | start <= s < start + step ensures !Selectable(sorted, count, s) {
      if s > start { NoMultiple(start, step, s); }
    }
  }

  lemma NextMultiple(start: nat, step: nat)
    requires step in {1, 4, 8, 16} && start % step == 0
    ensures (start + step) % step == 0
  {
    if step == 4 {
    } else if step == 8 {
    } else if step == 16 {
    }
  }

  lemma NoMultiple(start: nat, step: nat, s: nat)
    requires step in {1, 4, 8, 16} && start % step == 0 && start < s < start + step
    ensures step != 1 && s % step != 0
  {
    if step == 4 {
    } else if step == 8 {
    } else if step == 16 {
    }
  }

  // ---------- The fit ----------

  /** `rest` cores need exactly `left` devices of `per` cores. */
  predicate Spans(rest: nat, left: nat, per: Positive) {
    if left == 0 then rest == 0 else (left - 1) * per < rest <= left * per
  }

  lemma SpanStep(rest: nat, left: nat, per: Positive)
    requires Spans(rest, left, per) && left > 0
    ensures rest > 0 && if rest > per then Spans(rest - per, left - 1, per) else left == 1
  {
    assert left > 1 ==> (left - 1) * per >= per;
    if rest > per {
      assert (left - 1) * per == (left - 2) * per + per;
      assert left * per == (left - 1) * per + per;
    }
  }

  lemma SpanOf(total: nat, per: Positive)
    requires total > 0
    ensures Spans(total, (total - 1) / per + 1, per)
  {
    var q := (total - 1) / per;
    assert q * per <= total - 1 < q * per + per;
    assert (q + 1) * per == q * per + per;
  }

  function TotalGranted(row: seq<CoreGrant>): nat {
    if row == [] then 0 else TotalGranted(row[..|row| - 1]) + Ones(row[|row| - 1].mask)
  }

  /** Every grant is the first run of as many cores that were free on its device. */
  ghost predicate Granted(devices: seq<NeuronDevice>, row: seq<CoreGrant>, at: seq<nat>) {
    && |at| == |row|
    && (forall x :: 0 <= x < |row| ==> at[x] < |devices| && GrantedOn(devices[at[x]], row[x]))
  }

  ghost predicate GrantedOn(dev: NeuronDevice, g: CoreGrant) {
    g.id == dev.id && FirstFree(dev.cores, dev.total, g.mask, Ones(g.mask))
  }

  /** Without a total every device gives the cores asked of each, or all it has. */
  predicate PerDevice(devices: seq<NeuronDevice>, req: CoreRequest, row: seq<CoreGrant>, at: seq<nat>) {
    req.total == 0 ==> forall x :: 0 <= x < |row| && x < |at| && at[x] < |devices| ==>
      Ones(row[x].mask) == if req.coresreq == 0 then Ones(devices[at[x]].total) else req.coresreq
  }

  predicate DifferentDevices(at: seq<nat>) {
    forall x, y :: 0 <= x < y < |at| ==> at[x] != at[y]
  }

  predicate UniformCores(devices: seq<NeuronDevice>, per: nat) {
    forall i :: 0 <= i < |devices| ==> Ones(devices[i].total) == per
  }

  /** What the next device has to give. */
  function Required(req: CoreRequest, rest: nat, available: nat): nat {
    if rest > 0 then (if rest < available then rest else available) else if req.coresreq == 0 then available else req.coresreq
  }

  /** The device has a free run of `len` cores. */
  ghost predicate HasRun(dev: NeuronDevice, len: nat) {
    len > 0 && exists start :: FreeRun(dev.cores, dev.total, start, len)
  }

  /** Devices that cannot give what they would have to count as unhealthy. */
  ghost predicate Marked(dev: NeuronDevice, req: CoreRequest, candidate: NeuronDevice) {
    candidate == if HasRun(dev, Required(req, req.total, Ones(dev.total))) then dev else dev.(health := false)
  }

  method Candidates(devices: seq<NeuronDevice>, req: CoreRequest) returns (candidates: seq<NeuronDevice>)
    ensures |candidates| == |devices| && forall i :: 0 <= i < |devices| ==> Marked(devices[i], req, candidates[i])
  {
    candidates := [];
    for i := 0 to |devices|
      invariant |candidates| == i && forall j :: 0 <= j < i ==> Marked(devices[j], req, candidates[j])
    {
      var available := CountMask(devices[i].total);
      var mask, found := AllocateCoreMask(devices[i].cores, devices[i].total, Required(req, req.total, available));
      candidates := candidates + [if found then devices[i] else devices[i].(health := false)];
    }
  }

  /** The position of the first device with this index. */
  method Find(devices: seq<NeuronDevice>, index: int) returns (k: nat)
    ensures k <= |devices| && (k < |devices| ==> devices[k].index == index)
    ensures (exists i :: 0 <= i < |devices| && devices[i].index == index) ==> k < |devices|
  {
    for i := 0 to |devices|
      invariant forall j :: 0 <= j < i ==> devices[j].index != index
    {
      if devices[i].index == index {
        return i;
      }
    }
    return |devices|;
  }

  ghost predicate Indexed(devices: seq<NeuronDevice>, index: int) {
    exists i :: 0 <= i < |devices| && devices[i].index == index
  }

  /** The chosen indexes name devices, each once. */
  ghost predicate Chosen(devices: seq<NeuronDevice>, chosen: seq<int>) {
    && (forall x :: 0 <= x < |chosen| ==> Indexed(devices, chosen[x]))
    && (UniqueIndexes(devices) ==> forall x, y :: 0 <= x < y < |chosen| ==> chosen[x] != chosen[y])
  }

  lemma SelectedIndexes(devices: seq<NeuronDevice>, candidates: seq<NeuronDevice>, sorted: seq<NeuronDevice>, at: nat, count: Positive)
    requires |candidates| == |devices| && forall i :: 0 <= i < |devices| ==> candidates[i].index == devices[i].index
    requires IndexOrder(candidates, sorted) && at + count <= |sorted|
    ensures Chosen(devices, IndexesAt(sorted, at, count))
  {
    var chosen := IndexesAt(sorted, at, count);
    forall x | 0 <= x < |chosen| ensures Indexed(devices, chosen[x]) {
      assert sorted[at + x] in candidates;
      var i :| 0 <= i < |candidates| && candidates[i] == sorted[at + x];
      assert devices[i].index == chosen[x];
    }
    if UniqueIndexes(devices) {
      assert UniqueIndexes(candidates);
      forall x, y | 0 <= x < y < count ensures chosen[x] != chosen[y] { assert sorted[at + x].index != sorted[at + y].index; }
    }
  }

  /** Grants cores on the device with this index. */
  method GiveNext(devices: seq<NeuronDevice>, req: CoreRequest, index: int, rest: nat)
    returns (found: bool, grant: CoreGrant, left: nat, ghost k: nat)
    requires Indexed(devices, index)
    ensures k < |devices| && devices[k].index == index
    ensures found <==> HasRun(devices[k], Required(req, rest, Ones(devices[k].total)))
    ensures found ==> GrantedOn(devices[k], grant)
    ensures found ==> Ones(grant.mask) == Required(req, rest, Ones(devices[k].total))
    ensures left == if found && rest > 0 then rest - Ones(grant.mask) else rest
  {
    left, grant := rest, CoreGrant("", 0);
    var p := Find(devices, index);
    k := p;
    var available := CountMask(devices[p].total);
    var required := Required(req, rest, available);
    var mask;
    mask, found := AllocateCoreMask(devices[p].cores, devices[p].total, required);
    if found {
      grant := CoreGrant(devices[p].id, mask);
      if rest > 0 {
        left := rest - required;
      }
    }
  }

  lemma OneMoreGrant(row: seq<CoreGrant>, grant: CoreGrant)
    ensures TotalGranted(row + [grant]) == TotalGranted(row) + Ones(grant.mask)
  {
    assert (row + [grant])[..|row|] == row;
  }

  /** So far the grants and the rest make up the total, and the rest needs all the devices left. */
  ghost predicate OnTrack(devices: seq<NeuronDevice>, req: CoreRequest, row: seq<CoreGrant>, rest: nat, left: nat, per: Positive) {
    req.total > 0 && UniformCores(devices, per) ==> rest + TotalGranted(row) == req.total && Spans(rest, left, per)
  }

  lemma TrackStep(devices: seq<NeuronDevice>, req: CoreRequest, row: seq<CoreGrant>, rest: nat, left: nat, per: Positive, k: nat, grant: CoreGrant)
    requires OnTrack(devices, req, row, rest, left, per) && left > 0 && k < |devices|
    requires Ones(grant.mask) == Required(req, rest, Ones(devices[k].total))
    ensures OnTrack(devices, req, row + [grant], if 0 < rest then Max(rest - Ones(grant.mask), 0) else rest, left - 1, per)
  {
    OneMoreGrant(row, grant);
    if req.total > 0 && UniformCores(devices, per) { SpanStep(rest, left, per); }
  }

  /** The chosen devices can give what was asked of them as candidates. */
  ghost predicate Able(devices: seq<NeuronDevice>, req: CoreRequest, chosen: seq<int>) {
    UniqueIndexes(devices) && forall x, i :: 0 <= x < |chosen| && 0 <= i < |devices| && devices[i].index == chosen[x] ==>
      HasRun(devices[i], Required(req, req.total, Ones(devices[i].total)))
  }

  lemma StillAble(dev: NeuronDevice, req: CoreRequest, rest: nat)
    requires HasRun(dev, Required(req, req.total, Ones(dev.total)))
    requires if req.total == 0 then rest == 0 else 0 < rest <= req.total
    ensures HasRun(dev, Required(req, rest, Ones(dev.total)))
  {
    var len, k := Required(req, req.total, Ones(dev.total)), Required(req, rest, Ones(dev.total));
    var start :| FreeRun(dev.cores, dev.total, start, len);
    ShorterRun(dev.cores, dev.total, start, len, k);
  }

  /** A chosen device that was able as a candidate can give what is left. */
  lemma MustGive(devices: seq<NeuronDevice>, req: CoreRequest, chosen: seq<int>, row: seq<CoreGrant>, rest: nat, per: Positive, x: nat, k: nat)
    requires Able(devices, req, chosen) && (req.total > 0 ==> UniformCores(devices, per)) && (req.total == 0 ==> rest == 0)
    requires x < |chosen| && k < |devices| && devices[k].index == chosen[x] && OnTrack(devices, req, row, rest, |chosen| - x, per)
    ensures HasRun(devices[k], Required(req, rest, Ones(devices[k].total)))
  {
    if req.total > 0 { SpanStep(rest, |chosen| - x, per); }
    StillAble(devices[k], req, rest);
  }

  /** The devices at these positions have the chosen indexes. */
  ghost predicate Located(devices: seq<NeuronDevice>, chosen: seq<int>, at: seq<nat>) {
    |at| <= |chosen| && forall y :: 0 <= y < |at| ==> at[y] < |devices| && devices[at[y]].index == chosen[y]
  }

  lemma GrantedNext(devices: seq<NeuronDevice>, chosen: seq<int>, row: seq<CoreGrant>, at: seq<nat>, grant: CoreGrant, k: nat)
    requires Granted(devices, row, at) && Located(devices, chosen, at) && |at| < |chosen|
    requires k < |devices| && devices[k].index == chosen[|at|] && GrantedOn(devices[k], grant)
    ensures Granted(devices, row + [grant], at + [k]) && Located(devices, chosen, at + [k])
  {
  }

  lemma LocatedApart(devices: seq<NeuronDevice>, chosen: seq<int>, at: seq<nat>)
    requires Chosen(devices, chosen) && Located(devices, chosen, at)
    ensures UniqueIndexes(devices) ==> DifferentDevices(at)
  {
  }

  /** Grants cores on the chosen devices, as many on each as are left to give. */
  method Distribute(devices: seq<NeuronDevice>, req: CoreRequest, chosen: seq<int>, ghost per: Positive)
    returns (ok: bool, row: seq<CoreGrant>, ghost at: seq<nat>)
    requires Chosen(devices, chosen) && OnTrack(devices, req, [], req.total, |chosen|, per)
    ensures ok ==> |row| == |chosen| && Granted(devices, row, at) && Located(devices, chosen, at) && PerDevice(devices, req, row, at)
    ensures ok && UniqueIndexes(devices) ==> DifferentDevices(at)
    ensures ok && req.total > 0 && UniformCores(devices, per) ==> TotalGranted(row) == req.total
    ensures Able(devices, req, chosen) && (req.total > 0 ==> UniformCores(devices, per)) ==> ok
  {
    row, at := [], [];
    var rest := req.total;
    for x := 0 to |chosen|
      invariant |row| == x && Granted(devices, row, at) && Located(devices, chosen, at)
      invariant OnTrack(devices, req, row, rest, |chosen| - x, per)
      invariant (req.total == 0 ==> rest == 0) && PerDevice(devices, req, row, at)
    {
      var found, grant, left; ghost var k;
      found, grant, left, k := GiveNext(devices, req, chosen[x], rest);
      if Able(devices, req, chosen) && (req.total > 0 ==> UniformCores(devices, per)) { MustGive(devices, req, chosen, row, rest, per, x, k); }
      if !found {
        return false, row, at;
      }
      TrackStep(devices, req, row, rest, |chosen| - x, per, k, grant);
      GrantedNext(devices, chosen, row, at, grant, k);
      row, at, rest := row + [grant], at + [k], left;
    }
    LocatedApart(devices, chosen, at);
    ok := true;
  }

  function Wanted(req: CoreRequest, available: nat): nat {
    if req.total > 0 then req.total else if req.coresreq == 0 then available else req.coresreq
  }

  /** A device that can serve the request alone. */
  ghost predicate ServesAlone(sel: Selection, dev: NeuronDevice, req: CoreRequest) {
    && dev.health && dev.id in sel.typeOk && dev.id in sel.uuidOk && dev.used < dev.count && !(sel.mutex && dev.used > 0)
    && Ones(dev.cores) + Wanted(req, Ones(dev.total)) <= Ones(dev.total) && Wanted(req, Ones(dev.total)) > 0
    && exists start :: FreeRun(dev.cores, dev.total, start, Wanted(req, Ones(dev.total)))
  }

  method TryAlone(sel: Selection, dev: NeuronDevice, req: CoreRequest) returns (ok: bool, grant: CoreGrant)
    ensures ok <==> ServesAlone(sel, dev, req)
    ensures ok ==> GrantedOn(dev, grant) && Ones(grant.mask) == Wanted(req, Ones(dev.total))
  {
    grant := CoreGrant("", 0);
    if !dev.health || dev.id !in sel.typeOk || dev.id !in sel.uuidOk || dev.count <= dev.used || (sel.mutex && dev.used > 0) {
      return false, grant;
    }
    var available := CountMask(dev.total);
    var inUse := CountMask(dev.cores);
    var required := Wanted(req, available);
    if available < inUse + required {
      return false, grant;
    }
    var mask, found := AllocateCoreMask(dev.cores, dev.total, required);
    return found, CoreGrant(dev.id, mask);
  }

  /** The last device that can serve the request alone. */
  method FitAlone(devices: seq<NeuronDevice>, req: CoreRequest, sel: Selection) returns (ok: bool, row: seq<CoreGrant>, ghost at: seq<nat>)
    ensures ok <==> exists i :: 0 <= i < |devices| && ServesAlone(sel, devices[i], req)
    ensures ok ==> |row| == 1 && Granted(devices, row, at) && PerDevice(devices, req, row, at)
    ensures ok ==> ServesAlone(sel, devices[at[0]], req) && forall i :: at[0] < i < |devices| ==> !ServesAlone(sel, devices[i], req)
    ensures ok && req.total > 0 ==> TotalGranted(row) == req.total
  {
    var i := |devices|;
    while i > 0
      invariant 0 <= i <= |devices| && forall j :: i <= j < |devices| ==> !ServesAlone(sel, devices[j], req)
    {
      i := i - 1;
      var grant;
      ok, grant := TryAlone(sel, devices[i], req);
      if ok {
        row, at := [grant], [i];
        assert [] + [grant] == row;
        OneMoreGrant([], grant);
        return;
      }
    }
    return false, [], [];
  }

  /** The number of devices: asked for, or following from the total. */
  function DeviceCount(devices: seq<NeuronDevice>, req: CoreRequest): nat {
    if req.total > 0 && |devices| > 0 then
      if Ones(devices[0].total) == 0 then 0 else (req.total - 1) / Ones(devices[0].total) + 1
    else req.nums
  }

  /** In index order, devices that could not give what they would have to being left out,
      there is a run of `count` idle devices that may be selected. */
  ghost predicate Placeable(devices: seq<NeuronDevice>, req: CoreRequest, count: nat, sorted: seq<NeuronDevice>) {
    && |sorted| == |devices| && UniqueIndexes(sorted) && (forall i, j :: 0 <= i < j < |sorted| ==> sorted[i].index <= sorted[j].index)
    && (forall d :: d in sorted <==> exists i :: 0 <= i < |devices| && Marked(devices[i], req, d))
    && count > 0 && exists s :: 0 <= s && Selectable(sorted, count, s)
  }

  /** The devices granted are the first selectable run in index order. */
  ghost predicate TakesRun(devices: seq<NeuronDevice>, req: CoreRequest, count: nat, sorted: seq<NeuronDevice>, start: nat, at: seq<nat>) {
    && Placeable(devices, req, count, sorted) && |at| == count && Selectable(sorted, count, start)
    && (forall s :: 0 <= s < start ==> !Selectable(sorted, count, s)) && Located(devices, IndexesAt(sorted, start, count), at)
  }

  /** Places a request. With a total, the number of devices follows from the total. A request
      for one device is served exactly when some device serves it alone; one for several
      exactly when enough neighbouring devices are idle and have the cores, on nodes whose
      devices are indexed once and, for a total, have the same number of cores. */
  method Fit(devices: seq<NeuronDevice>, req: CoreRequest, sel: Selection) returns (ok: bool, row: seq<CoreGrant>, ghost at: seq<nat>)
    ensures ok ==> Granted(devices, row, at) && PerDevice(devices, req, row, at) && (req.total == 0 ==> |row| == req.nums)
    ensures ok && DeviceCount(devices, req) == 1 ==> |at| == 1 && ServesAlone(sel, devices[at[0]], req) && forall i :: at[0] < i < |devices| ==> !ServesAlone(sel, devices[i], req)
    ensures ok && DeviceCount(devices, req) != 1 && UniqueIndexes(devices) ==> exists sorted, start :: TakesRun(devices, req, DeviceCount(devices, req), sorted, start, at)
    ensures ok && UniqueIndexes(devices) ==> DifferentDevices(at)
    ensures ok && req.total > 0 && (exists per :: UniformCores(devices, per)) ==> TotalGranted(row) == req.total
    ensures DeviceCount(devices, req) == 1 ==> (ok <==> exists i :: 0 <= i < |devices| && ServesAlone(sel, devices[i], req))
    ensures DeviceCount(devices, req) != 1 && UniqueIndexes(devices) && (req.total > 0 ==> exists per :: UniformCores(devices, per)) ==>
      (ok <==> exists sorted :: Placeable(devices, req, DeviceCount(devices, req), sorted))
  {
    row, at := [], [];
    var nums := req.nums;
    ghost var per: Positive := 1;
    if req.total > 0 && |devices| > 0 {
      var coresPerDevice := CountMask(devices[0].total);
      if coresPerDevice == 0 {
        return false, row, at;
      }
      per := coresPerDevice;
      nums := (req.total - 1) / coresPerDevice + 1;
      SpanOf(req.total, per);
      if nums > |devices| {
        return false, row, at;
      }
    }
    if nums > 1 {
      ok, row, at := FitTogether(devices, req, nums, per);
    } else {
      ok, row, at := FitAlone(devices, req, sel);
    }
  }

  lemma MarkedOrder(devices: seq<NeuronDevice>, req: CoreRequest, candidates: seq<NeuronDevice>, sorted: seq<NeuronDevice>)
    requires |candidates| == |devices| && forall i :: 0 <= i < |devices| ==> Marked(devices[i], req, candidates[i])
    requires IndexOrder(candidates, sorted)
    ensures |sorted| == |devices| && (forall i, j :: 0 <= i < j < |sorted| ==> sorted[i].index <= sorted[j].index)
    ensures forall d :: d in sorted <==> exists i :: 0 <= i < |devices| && Marked(devices[i], req, d)
  {
    forall d ensures d in candidates <==> exists i :: 0 <= i < |devices| && Marked(devices[i], req, d) {
      if i :| 0 <= i < |devices| && Marked(devices[i], req, d) { assert candidates[i] == d; }
    }
  }

  lemma TailMembers(a: seq<NeuronDevice>, d: NeuronDevice)
    requires a != [] && UniqueIndexes(a)
    ensures d in a[1..] <==> d in a && d != a[0]
  {
    if d in a[1..] {
      var i :| 0 <= i < |a| - 1 && a[1..][i] == d;
      assert a[i + 1] == d;
    }
    if d in a && d != a[0] {
      var i :| 0 <= i < |a| && a[i] == d;
      assert a[1..][i - 1] == d;
    }
  }

  /** Two index orders of the same uniquely indexed devices are the same. */
  lemma {:induction false} OrderUnique(a: seq<NeuronDevice>, b: seq<NeuronDevice>)
    requires |a| == |b| && UniqueIndexes(a) && UniqueIndexes(b) && (forall d :: d in a <==> d in b)
    requires forall i, j :: 0 <= i < j < |a| ==> a[i].index <= a[j].index
    requires forall i, j :: 0 <= i < j < |b| ==> b[i].index <= b[j].index
    ensures a == b
  {
    if a != [] {
      assert a[0] in b && b[0] in a;
      var i :| 0 <= i < |b| && b[i] == a[0];
      var j :| 0 <= j < |a| && a[j] == b[0];
      assert a[0] == b[0];
      forall d ensures d in a[1..] <==> d in b[1..] { TailMembers(a, d); TailMembers(b, d); }
      OrderUnique(a[1..], b[1..]);
      assert a == [a[0]] + a[1..] && b == [b[0]] + b[1..];
    }
  }

  lemma SelectedAble(devices: seq<NeuronDevice>, req: CoreRequest, candidates: seq<NeuronDevice>, sorted: seq<NeuronDevice>, at: nat, count: Positive)
    requires |candidates| == |devices| && forall i :: 0 <= i < |devices| ==> Marked(devices[i], req, candidates[i])
    requires IndexOrder(candidates, sorted) && UniqueIndexes(devices) && Selectable(sorted, count, at)
    ensures Able(devices, req, IndexesAt(sorted, at, count))
  {
    var chosen := IndexesAt(sorted, at, count);
    forall x, i | 0 <= x < |chosen| && 0 <= i < |devices| && devices[i].index == chosen[x]
      ensures HasRun(devices[i], Required(req, req.total, Ones(devices[i].total)))
    {
      assert sorted[at + x] in candidates && Idle(sorted[at + x]);
      var j :| 0 <= j < |candidates| && candidates[j] == sorted[at + x];
      assert Marked(devices[j], req, candidates[j]);
      assert i == j;
    }
  }

  /** Places a request on several neighbouring devices. */
  method FitTogether(devices: seq<NeuronDevice>, req: CoreRequest, nums: Positive, ghost per: Positive)
    returns (ok: bool, row: seq<CoreGrant>, ghost at: seq<nat>)
    requires req.total > 0 && devices != [] ==> Spans(req.total, nums, per)
    ensures ok ==> |row| == nums && Granted(devices, row, at) && PerDevice(devices, req, row, at)
    ensures ok && UniqueIndexes(devices) ==> DifferentDevices(at) && exists sorted, start :: TakesRun(devices, req, nums, sorted, start, at)
    ensures ok && req.total > 0 && UniformCores(devices, per) ==> TotalGranted(row) == req.total
    ensures UniqueIndexes(devices) && (req.total > 0 ==> UniformCores(devices, per)) ==>
      (ok <==> exists sorted :: Placeable(devices, req, nums, sorted))
  {
    row, at := [], [];
    var candidates := Candidates(devices, req);
    var chosen; ghost var sorted, start;
    chosen, sorted, start := GraphSelect(candidates, nums);
    MarkedOrder(devices, req, candidates, sorted);
    if |chosen| == 0 {
      if UniqueIndexes(devices) { NotPlaceable(devices, req, candidates, nums, sorted); }
      return false, row, at;
    }
    SelectedIndexes(devices, candidates, sorted, start, nums);
    ok, row, at := Distribute(devices, req, chosen, per);
    if UniqueIndexes(devices) {
      SelectedAble(devices, req, candidates, sorted, start, nums);
      assert UniqueIndexes(candidates);
      assert Placeable(devices, req, nums, sorted);
      assert ok ==> TakesRun(devices, req, nums, sorted, start, at);
    }
  }

  lemma NotPlaceable(devices: seq<NeuronDevice>, req: CoreRequest, candidates: seq<NeuronDevice>, nums: Positive, sorted: seq<NeuronDevice>)
    requires |candidates| == |devices| && forall i :: 0 <= i < |devices| ==> Marked(devices[i], req, candidates[i])
    requires IndexOrder(candidates, sorted) && UniqueIndexes(devices) && forall s :: 0 <= s ==> !Selectable(sorted, nums, s)
    ensures forall other :: !Placeable(devices, req, nums, other)
  {
    MarkedOrder(devices, req, candidates, sorted);
    assert UniqueIndexes(candidates);
    forall other ensures !Placeable(devices, req, nums, other) {
      if Placeable(devices, req, nums, other) {
        OrderUnique(sorted, other);
        assert false;
      }
    }
  }
}
