/** The mutable device list of a node while pods are being placed on it. */
module Nodes {
  import opened Usages
  import opened Devices
  import opened Placement

  predicate NoDuplicates(order: seq<DeviceId>) {
    forall i, j :: 0 <= i < j < |order| ==> order[i] != order[j]
  }

  /** Every device with the row's grants on it added. */
  function Rowed(devs: Snapshot, row: ContainerDevices): Snapshot {
    map d | d in devs :: WithRow(devs[d], row)
  }

  lemma WithRowFront(dev: DeviceUsage, row: ContainerDevices, x: nat)
    requires x < |row|
    ensures WithRow(dev, row[..x + 1]) ==
      if row[x].uuid == dev.info.id then WithRow(dev, row[..x]).(use := WithRow(dev, row[..x]).use.Plus(row[x].Use()))
      else WithRow(dev, row[..x])
  {
    assert row[..x + 1][..x] == row[..x];
  }

  /** One more grant touches the device it names and no other. */
  lemma RowedStep(devs: Snapshot, row: ContainerDevices, x: nat)
    requires WellKeyed(devs) && x < |row| && row[x].uuid in devs && row[x].slots <= 1
    ensures var now := Rowed(devs, row[..x])[row[x].uuid];
      Rowed(devs, row[..x + 1]) ==
      Rowed(devs, row[..x])[row[x].uuid := now.(use := now.use.Plus(Usage(row[x].mem, row[x].cores, 1)))]
  {
    var before, after := Rowed(devs, row[..x]), Rowed(devs, row[..x + 1]);
    forall o | o in devs
      ensures o != row[x].uuid ==> after[o] == before[o]
      ensures o == row[x].uuid ==> after[o] == before[o].(use := before[o].use.Plus(row[x].Use()))
    {
      WithRowFront(devs[o], row, x);
    }
  }

  class NodeUsage {
    var order: seq<DeviceId>
    var dev: Snapshot

    ghost predicate Valid()
      reads this
    {
      WellKeyed(dev) && NoDuplicates(order) && forall d :: d in order <==> d in dev
    }

    /** A copy that later changes do not touch. */
    constructor (order: seq<DeviceId>, dev: Snapshot)
      requires WellKeyed(dev) && NoDuplicates(order) && forall d :: d in order <==> d in dev
      ensures Valid() && this.order == order && this.dev == dev
    {
      this.order, this.dev := order, dev;
    }

    /** The policies order the list by scores and NUMA nodes; any order may come out. */
    method Sort()
      requires Valid()
      modifies this`order
      ensures Valid()
    {
      var sorted: seq<DeviceId> :| NoDuplicates(sorted) && (forall d :: d in sorted ==> d in order) && (forall d :: d in order ==> d in sorted);
      order := sorted;
    }

    /** The devices that backend `t` serves, in list order. */
    method TypeDevices(t: string) returns (list: seq<DeviceUsage>)
      requires Valid()
      ensures UniqueIds(list)
      ensures forall x :: 0 <= x < |list| ==> list[x].info.id in dev && list[x] == dev[list[x].info.id] && list[x].info.vendor == t
      ensures forall d :: d in dev && dev[d].info.vendor == t ==> dev[d] in list
    {
      list := [];
      for i := 0 to |order|
        invariant UniqueIds(list)
        invariant forall x :: 0 <= x < |list| ==> list[x].info.id in order[..i]
        invariant forall x :: 0 <= x < |list| ==> list[x].info.id in dev && list[x] == dev[list[x].info.id] && list[x].info.vendor == t
        invariant forall j :: 0 <= j < i && dev[order[j]].info.vendor == t ==> dev[order[j]] in list
      {
        var d := dev[order[i]];
        assert order[i] !in order[..i];
        if d.info.vendor == t {
          list := list + [d];
        }
      }
    }

    /** Adds the grants of a row to the devices they name. */
    method AddRow(row: ContainerDevices) returns (ok: bool)
      requires Valid() && forall x :: 0 <= x < |row| ==> row[x].slots <= 1
      modifies this`dev
      ensures Valid()
      ensures (forall x :: 0 <= x < |row| ==> row[x].uuid in old(dev)) ==> ok
      ensures ok ==> dev == Rowed(old(dev), row)
    {
      assert forall d :: d in dev ==> WithRow(dev[d], []) == dev[d];
      for x := 0 to |row|
        invariant Valid() && dev == Rowed(old(dev), row[..x])
      {
        var d := row[x].uuid;
        if d !in dev {
          return false;
        }
        RowedStep(old(dev), row, x);
        dev := dev[d := dev[d].(use := dev[d].use.Plus(Usage(row[x].mem, row[x].cores, 1)))];
      }
      assert row[..|row|] == row;
      return true;
    }
  }
}
