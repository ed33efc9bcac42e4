/** Phase-aware usage of a pod: `CollapseInitContainerUsage` and
    `SteadyStateDeviceUsage`, and the pod lifecycle they stand for. */
module Collapse {
  import opened Usages
  import opened Devices

  /** Running totals kept per device while the rows of one device type are read. */
  datatype DevState = DevState(sc: Usage, peak: Usage, app: Usage)

  function StateOf(states: map<DeviceId, DevState>, d: DeviceId): DevState {
    if d in states then states[d] else DevState(Usage(0, 0, 0), Usage(0, 0, 0), Usage(0, 0, 0))
  }

  /** One grant of a container of kind `k`, as the three loops treat it. */
  function AfterGrant(k: Kind, s: DevState, e: ContainerDevice): DevState {
    match k
    case Sidecar =>
      var sc := s.sc.Plus(e.Use());
      s.(sc := sc, peak := s.peak.Join(sc))
    case OrdinaryInit => s.(peak := s.peak.Join(s.sc.Plus(e.Use())))
    case App => s.(app := s.app.Plus(e.Use()))
  }

  function AfterRow(k: Kind, s: DevState, row: ContainerDevices, d: DeviceId): DevState {
    if row == [] then s
    else
      var before := AfterRow(k, s, row[..|row| - 1], d);
      if row[|row| - 1].uuid == d then AfterGrant(k, before, row[|row| - 1]) else before
  }

  function StateAt(pod: Pod, rows: PodSingleDevice, n: nat, d: DeviceId): DevState
    requires n <= |rows|
  {
    if n == 0 then DevState(Usage(0, 0, 0), Usage(0, 0, 0), Usage(0, 0, 0))
    else AfterRow(pod.KindAt(n - 1), StateAt(pod, rows, n - 1, d), rows[n - 1], d)
  }

  /** The collapsed usage of `rows` on `d`. */
  function Collapsed(pod: Pod, rows: PodSingleDevice, d: DeviceId): Usage {
    Peak(StateAt(pod, rows, |rows|, d))
  }

  /** The larger of the init-phase peak and the sidecars running with the apps. */
  function Peak(s: DevState): Usage {
    s.peak.Join(s.sc.Plus(s.app))
  }

  // ---------- Device identifiers in the order of the collapsed row ----------

  predicate Less(a: string, b: string) {
    b != [] && (a == [] || a[0] < b[0] || (a[0] == b[0] && Less(a[1..], b[1..])))
  }

  lemma {:induction false} LessTransitive(a: string, b: string, c: string)
    requires Less(a, b) && Less(b, c)
    ensures Less(a, c)
  {
    if a != [] && a[0] == b[0] && b[0] == c[0] {
      LessTransitive(a[1..], b[1..], c[1..]);
    }
  }

  lemma {:induction false} LessTotal(a: string, b: string)
    ensures Less(a, b) || Less(b, a) || a == b
  {
    if a != [] && b != [] && a[0] == b[0] {
      LessTotal(a[1..], b[1..]);
      assert a == [a[0]] + a[1..] && b == [b[0]] + b[1..];
    }
  }

  predicate Sorted(ids: seq<DeviceId>) {
    forall i, j :: 0 <= i < j < |ids| ==> Less(ids[i], ids[j])
  }

  /** Puts `x` in its place unless it is there already. */
  function Insert(ids: seq<DeviceId>, x: DeviceId): seq<DeviceId> {
    if ids == [] then [x]
    else if ids[0] == x then ids
    else if Less(x, ids[0]) then [x] + ids
    else [ids[0]] + Insert(ids[1..], x)
  }

  lemma {:induction false} InsertMembers(ids: seq<DeviceId>, x: DeviceId)
    ensures forall y :: y in Insert(ids, x) <==> y == x || y in ids
  {
    if ids != [] && ids[0] != x && !Less(x, ids[0]) {
      InsertMembers(ids[1..], x);
      assert ids == [ids[0]] + ids[1..];
    }
  }

  lemma {:induction false} InsertSorted(ids: seq<DeviceId>, x: DeviceId)
    requires Sorted(ids)
    ensures Sorted(Insert(ids, x))
  {
    if ids != [] && ids[0] != x {
      if Less(x, ids[0]) {
        forall i | 0 < i < |ids| ensures Less(x, ids[i]) {
          LessTransitive(x, ids[0], ids[i]);
        }
      } else {
        LessTotal(x, ids[0]);
        InsertSorted(ids[1..], x);
        InsertMembers(ids[1..], x);
        var rest := Insert(ids[1..], x);
        forall i | 0 <= i < |rest| ensures Less(ids[0], rest[i]) {
          assert rest[i] in rest;
        }
      }
    }
  }

  function RowIds(ids: seq<DeviceId>, row: ContainerDevices): seq<DeviceId> {
    if row == [] then ids else Insert(RowIds(ids, row[..|row| - 1]), row[|row| - 1].uuid)
  }

  /** The devices the first `n` rows name; `live` leaves out ordinary init rows. */
  function Ids(pod: Pod, rows: PodSingleDevice, n: nat, live: bool): seq<DeviceId>
    requires n <= |rows|
  {
    if n == 0 then []
    else if live && pod.KindAt(n - 1) == OrdinaryInit then Ids(pod, rows, n - 1, live)
    else RowIds(Ids(pod, rows, n - 1, live), rows[n - 1])
  }

  predicate Counts(pod: Pod, i: nat, live: bool) {
    !live || pod.KindAt(i) != OrdinaryInit
  }

  predicate NamedIn(pod: Pod, rows: PodSingleDevice, n: nat, live: bool, d: DeviceId)
    requires n <= |rows|
  {
    exists i :: 0 <= i < n && Counts(pod, i, live) && Names(rows[i], d)
  }

  lemma {:induction false} RowIdsMembers(ids: seq<DeviceId>, row: ContainerDevices)
    ensures forall y :: y in RowIds(ids, row) <==> y in ids || Names(row, y)
    ensures Sorted(ids) ==> Sorted(RowIds(ids, row))
  {
    if row != [] {
      var front := row[..|row| - 1];
      RowIdsMembers(ids, front);
      InsertMembers(RowIds(ids, front), row[|row| - 1].uuid);
      if Sorted(ids) { InsertSorted(RowIds(ids, front), row[|row| - 1].uuid); }
      forall y ensures Names(row, y) <==> y == row[|row| - 1].uuid || Names(front, y) {
        if Names(row, y) {
          var i :| 0 <= i < |row| && row[i].uuid == y;
          if i < |front| { assert front[i].uuid == y; }
        }
        if Names(front, y) {
          var i :| 0 <= i < |front| && front[i].uuid == y;
          assert row[i].uuid == y;
        }
      }
    }
  }

  /** The collapsed row lists exactly the named devices, in increasing order. */
  lemma {:induction false} IdsMembers(pod: Pod, rows: PodSingleDevice, n: nat, live: bool)
    requires n <= |rows|
    ensures forall d :: d in Ids(pod, rows, n, live) <==> NamedIn(pod, rows, n, live, d)
    ensures Sorted(Ids(pod, rows, n, live))
  {
    if n > 0 {
      IdsMembers(pod, rows, n - 1, live);
      RowIdsMembers(Ids(pod, rows, n - 1, live), rows[n - 1]);
    }
  }

  // ---------- The collapsed and the steady-state rows ----------

  /** The sum of a row's grants on `d`, added to `u` in the order of the row. */
  function AddRow(u: Usage, row: ContainerDevices, d: DeviceId): Usage {
    if row == [] then u
    else
      var before := AddRow(u, row[..|row| - 1], d);
      if row[|row| - 1].uuid == d then before.Plus(row[|row| - 1].Use()) else before
  }

  /** The sum over the first `n` rows without the ordinary init containers. */
  function SteadyAt(pod: Pod, rows: PodSingleDevice, n: nat, d: DeviceId): Usage
    requires n <= |rows|
  {
    if n == 0 then Usage(0, 0, 0)
    else if pod.KindAt(n - 1) == OrdinaryInit then SteadyAt(pod, rows, n - 1, d)
    else AddRow(SteadyAt(pod, rows, n - 1, d), rows[n - 1], d)
  }

  function CollapsedEntry(pod: Pod, t: string, rows: PodSingleDevice, d: DeviceId): ContainerDevice {
    PeakEntry(t, d, StateAt(pod, rows, |rows|, d))
  }

  function PeakEntry(t: string, d: DeviceId, s: DevState): ContainerDevice {
    var u := Peak(s);
    ContainerDevice(d, t, u.mem, u.cores, Max(u.slots, 1))
  }

  function SteadyEntry(pod: Pod, t: string, rows: PodSingleDevice, d: DeviceId): ContainerDevice {
    var u := SteadyAt(pod, rows, |rows|, d);
    ContainerDevice(d, t, u.mem, u.cores, u.slots)
  }

  function CollapsedRow(pod: Pod, t: string, rows: PodSingleDevice): ContainerDevices {
    var ids := Ids(pod, rows, |rows|, false);
    seq(|ids|, i requires 0 <= i < |ids| => CollapsedEntry(pod, t, rows, ids[i]))
  }

  function SteadyRow(pod: Pod, t: string, rows: PodSingleDevice): ContainerDevices {
    var ids := Ids(pod, rows, |rows|, true);
    seq(|ids|, i requires 0 <= i < |ids| => SteadyEntry(pod, t, rows, ids[i]))
  }

  function CollapsedDevices(pod: Pod, raw: PodDevices): PodDevices {
    map t | t in raw :: [CollapsedRow(pod, t, raw[t])]
  }

  function SteadyDevices(pod: Pod, raw: PodDevices): PodDevices {
    map t | t in raw :: [SteadyRow(pod, t, raw[t])]
  }

  // ---------- The loops ----------

  method ReadRow(k: Kind, states: map<DeviceId, DevState>, ids: seq<DeviceId>, row: ContainerDevices)
    returns (states': map<DeviceId, DevState>, ids': seq<DeviceId>)
    ensures forall d :: StateOf(states', d) == AfterRow(k, StateOf(states, d), row, d)
    ensures ids' == RowIds(ids, row)
  {
    states', ids' := states, ids;
    for j := 0 to |row|
      invariant forall d :: StateOf(states', d) == AfterRow(k, StateOf(states, d), row[..j], d)
      invariant ids' == RowIds(ids, row[..j])
    {
      var e := row[j];
      assert row[..j + 1][..j] == row[..j];
      var s := StateOf(states', e.uuid);
      match k {
        case Sidecar =>
          // Counted from its start on, also beside later init containers.
          var sc := s.sc.Plus(e.Use());
          s := s.(sc := sc, peak := s.peak.Join(sc));
        case OrdinaryInit =>
          s := s.(peak := s.peak.Join(s.sc.Plus(e.Use())));
        case App =>
          s := s.(app := s.app.Plus(e.Use()));
      }
      states' := states'[e.uuid := s];
      ids' := Insert(ids', e.uuid);
    }
    assert row[..|row|] == row;
  }

  method ReadRows(pod: Pod, rows: PodSingleDevice)
    returns (states: map<DeviceId, DevState>, ids: seq<DeviceId>)
    ensures forall d :: StateOf(states, d) == StateAt(pod, rows, |rows|, d)
    ensures ids == Ids(pod, rows, |rows|, false)
  {
    states, ids := map[], [];
    for cidx := 0 to |rows|
      invariant forall d :: StateOf(states, d) == StateAt(pod, rows, cidx, d)
      invariant ids == Ids(pod, rows, cidx, false)
    {
      states, ids := ReadRow(pod.KindAt(cidx), states, ids, rows[cidx]);
    }
  }

  method EntryFor(t: string, d: DeviceId, s: DevState) returns (e: ContainerDevice)
    ensures e == PeakEntry(t, d, s)
  {
    var u := Peak(s);
    e := ContainerDevice(d, t, u.mem, u.cores, Max(u.slots, 1));
  }

  /** The states in the order of `ids`. */
  method StatesOf(ids: seq<DeviceId>, states: map<DeviceId, DevState>) returns (at: seq<DevState>)
    ensures |at| == |ids| && forall k :: 0 <= k < |ids| ==> at[k] == StateOf(states, ids[k])
  {
    at := [];
    for i := 0 to |ids|
      invariant |at| == i && forall k :: 0 <= k < i ==> at[k] == StateOf(states, ids[k])
    {
      at := at + [StateOf(states, ids[i])];
    }
  }

  /** One entry per device, in the order of `ids`. */
  method PeakEntries(t: string, ids: seq<DeviceId>, at: seq<DevState>) returns (row: ContainerDevices)
    requires |at| == |ids|
    ensures |row| == |ids| && forall k :: 0 <= k < |ids| ==> row[k] == PeakEntry(t, ids[k], at[k])
  {
    row := [];
    for i := 0 to |ids|
      invariant |row| == i && forall k :: 0 <= k < i ==> row[k] == PeakEntry(t, ids[k], at[k])
    {
      var e := EntryFor(t, ids[i], at[i]);
      row := row + [e];
    }
  }

  lemma CollapsedRowAt(pod: Pod, t: string, rows: PodSingleDevice, k: nat)
    requires k < |Ids(pod, rows, |rows|, false)|
    ensures |CollapsedRow(pod, t, rows)| == |Ids(pod, rows, |rows|, false)|
    ensures CollapsedRow(pod, t, rows)[k] == CollapsedEntry(pod, t, rows, Ids(pod, rows, |rows|, false)[k])
  {
  }

  lemma EntriesCollapse(pod: Pod, t: string, rows: PodSingleDevice, row: ContainerDevices)
    requires |row| == |Ids(pod, rows, |rows|, false)|
    requires forall k :: 0 <= k < |row| ==> row[k] == CollapsedEntry(pod, t, rows, Ids(pod, rows, |rows|, false)[k])
    ensures row == CollapsedRow(pod, t, rows)
  {
    forall k | 0 <= k < |row| ensures |row| == |CollapsedRow(pod, t, rows)| && row[k] == CollapsedRow(pod, t, rows)[k] {
      CollapsedRowAt(pod, t, rows, k);
    }
  }

  method CollapseSingle(pod: Pod, t: string, rows: PodSingleDevice) returns (row: ContainerDevices)
    ensures row == CollapsedRow(pod, t, rows)
  {
    var states, ids := ReadRows(pod, rows);
    var at := StatesOf(ids, states);
    row := PeakEntries(t, ids, at);
    forall k | 0 <= k < |row| ensures row[k] == CollapsedEntry(pod, t, rows, ids[k]) {}
    EntriesCollapse(pod, t, rows, row);
  }

  /** The effective usage of a pod while its init phase may still run. */
  method CollapseInitContainerUsage(pod: Pod, raw: PodDevices) returns (collapsed: PodDevices)
    ensures collapsed == CollapsedDevices(pod, raw)
  {
    collapsed := map[];
    var todo := raw.Keys;
    while todo != {}
      invariant todo <= raw.Keys
      invariant collapsed == map t | t in raw && t !in todo :: [CollapsedRow(pod, t, raw[t])]
    {
      var t :| t in todo;
      var row := CollapseSingle(pod, t, raw[t]);
      collapsed := collapsed[t := [row]];
      todo := todo - {t};
    }
  }

  method SumRow(sums: map<DeviceId, Usage>, ids: seq<DeviceId>, row: ContainerDevices)
    returns (sums': map<DeviceId, Usage>, ids': seq<DeviceId>)
    ensures forall d :: SumOf(sums', d) == AddRow(SumOf(sums, d), row, d)
    ensures ids' == RowIds(ids, row)
  {
    sums', ids' := sums, ids;
    for j := 0 to |row|
      invariant forall d :: SumOf(sums', d) == AddRow(SumOf(sums, d), row[..j], d)
      invariant ids' == RowIds(ids, row[..j])
    {
      assert row[..j + 1][..j] == row[..j];
      sums' := sums'[row[j].uuid := SumOf(sums', row[j].uuid).Plus(row[j].Use())];
      ids' := Insert(ids', row[j].uuid);
    }
    assert row[..|row|] == row;
  }

  function SumOf(sums: map<DeviceId, Usage>, d: DeviceId): Usage {
    if d in sums then sums[d] else Usage(0, 0, 0)
  }

  method SteadySingle(pod: Pod, t: string, rows: PodSingleDevice) returns (row: ContainerDevices)
    ensures row == SteadyRow(pod, t, rows)
  {
    var sums: map<DeviceId, Usage>, ids: seq<DeviceId> := map[], [];
    for cidx := 0 to |rows|
      invariant forall d :: SumOf(sums, d) == SteadyAt(pod, rows, cidx, d)
      invariant ids == Ids(pod, rows, cidx, true)
    {
      if cidx < |pod.sidecars| && !pod.sidecars[cidx] {
        continue;
      }
      sums, ids := SumRow(sums, ids, rows[cidx]);
    }
    row := [];
    for i := 0 to |ids|
      invariant |row| == i
      invariant forall k :: 0 <= k < i ==> row[k] == SteadyEntry(pod, t, rows, ids[k])
    {
      var u := SumOf(sums, ids[i]);
      row := row + [ContainerDevice(ids[i], t, u.mem, u.cores, u.slots)];
    }
  }

  /** The effective usage of a pod whose ordinary init containers have all finished. */
  method SteadyStateDeviceUsage(pod: Pod, raw: PodDevices) returns (steady: PodDevices)
    ensures steady == SteadyDevices(pod, raw)
  {
    steady := map[];
    var todo := raw.Keys;
    while todo != {}
      invariant todo <= raw.Keys
      invariant steady == map t | t in raw && t !in todo :: [SteadyRow(pod, t, raw[t])]
    {
      var t :| t in todo;
      var row := SteadySingle(pod, t, raw[t]);
      steady := steady[t := [row]];
      todo := todo - {t};
    }
  }
}
