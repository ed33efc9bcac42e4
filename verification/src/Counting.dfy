/** Counting the devices of a list that pass a check. */
module Counting {
  import opened Devices

  /** How many devices from position `i` on pass. */
  ghost function CountGood(devices: seq<DeviceUsage>, good: DeviceUsage -> bool, i: nat): (n: nat)
    requires i <= |devices|
    ensures n <= |devices| - i
    decreases |devices| - i
  {
    if i == |devices| then 0 else CountGood(devices, good, i + 1) + if good(devices[i]) then 1 else 0
  }

  /** Some device from position `i` on has this identifier and passes. */
  ghost predicate GoodFrom(devices: seq<DeviceUsage>, good: DeviceUsage -> bool, i: nat, d: DeviceId) {
    exists j :: i <= j < |devices| && devices[j].info.id == d && good(devices[j])
  }

  lemma {:induction false} GoodIds(devices: seq<DeviceUsage>, good: DeviceUsage -> bool, i: nat, ids: set<DeviceId>)
    requires i <= |devices| && forall d :: d in ids ==> GoodFrom(devices, good, i, d)
    ensures |ids| <= CountGood(devices, good, i)
    decreases |devices| - i
  {
    if i == |devices| {
      assert forall d :: d in ids ==> GoodFrom(devices, good, i, d);
      assert ids == {};
    } else {
      var rest := if good(devices[i]) then ids - {devices[i].info.id} else ids;
      forall d | d in rest ensures GoodFrom(devices, good, i + 1, d) {
        var j :| i <= j < |devices| && devices[j].info.id == d && good(devices[j]);
        assert j != i;
      }
      GoodIds(devices, good, i + 1, rest);
    }
  }

  function IdsOf(row: ContainerDevices): set<DeviceId> {
    set x | 0 <= x < |row| :: row[x].uuid
  }

  lemma {:induction false} DistinctIds(row: ContainerDevices)
    requires Distinct(row)
    ensures |IdsOf(row)| == |row|
  {
    if row != [] {
      var front, last := row[..|row| - 1], row[|row| - 1].uuid;
      DistinctIds(front);
      assert IdsOf(row) == IdsOf(front) + {last};
      assert last !in IdsOf(front);
    }
  }

  /** A row of different devices that all pass bounds the count from below. */
  lemma RowCounted(devices: seq<DeviceUsage>, good: DeviceUsage -> bool, row: ContainerDevices)
    requires Distinct(row) && forall x :: 0 <= x < |row| ==> GoodFrom(devices, good, 0, row[x].uuid)
    ensures CountGood(devices, good, 0) >= |row|
  {
    DistinctIds(row);
    GoodIds(devices, good, 0, IdsOf(row));
  }
}
