/** What it means that a container or a pod finds no devices, and which devices it finds. */
module Refusals {
  import opened Devices
  import opened Placement
  import opened Quotas
  import opened Counting
  import opened Stretches
  import opened Fitting
  import opened Simulation
  import opened Scoring
  import Nvidia

  /** The devices of a type as its backend's search sees them. */
  ghost function SeenBy(list: seq<DeviceUsage>, sel: Selection, pod: Pod, t: string, req: Request, before: PodSingleDevice): Listing {
    if t == NVIDIA then Nvidia.Seen(list, sel, req) else AscendHunt(list, sel, req, pod, before).list
  }

  /** Some stretch of the list on one NUMA node has enough admissible devices; for NVIDIA cards
      under the topology policy, the stretch at the front. */
  ghost predicate Sufficient(list: seq<DeviceUsage>, sel: Selection, pod: Pod, t: string, req: Request, before: PodSingleDevice) {
    var l := SeenBy(list, sel, pod, t, req, before);
    if t == NVIDIA && sel.topology then FrontEnough(l, req.nums) else Enough(l, req.nums)
  }

  /** Without limits a type is refused exactly on a list without such a stretch. */
  lemma UnlimitedAnswer(devs: Snapshot, sel: Selection, pod: Pod, t: string, req: Request, before: PodSingleDevice, reg: Registry, ledger: Ledger,
                        ok: bool, row: ContainerDevices)
    requires IsBackend(t) && (t == NVIDIA ==> Nvidia.Unlimited(reg, ledger, pod.ns)) && Answers(devs, sel, pod, t, req, before, reg, ledger, ok, row)
    ensures exists list :: ListOf(devs, t, list) && (ok <==> Sufficient(list, sel, pod, t, req, before))
  {
    var list :| ListOf(devs, t, list) && Yields(list, sel, pod, t, req, before, reg, ledger, ok, row);
    if t == NVIDIA {
      Nvidia.YieldsFeasible(list, sel, req, pod, reg, ledger, before, ok, row);
    } else {
      MissedIff(AscendHunt(list, sel, req, pod, before), req.nums);
    }
  }

  /** An admissible card was turned away: the namespace could not take it together with the
      cards, fewer than requested, that the search had gathered. */
  ghost predicate OverQuota(list: seq<DeviceUsage>, sel: Selection, pod: Pod, req: Request, before: PodSingleDevice, reg: Registry, ledger: Ledger) {
    exists row: ContainerDevices, x ::
      && |row| < req.nums && (forall y :: 0 <= y < |row| ==> GrantsListed(list, sel, req, row[y]))
      && 0 <= x < |list| && Nvidia.Admissible(sel, list[x], req) && !Nvidia.QuotaOk(reg, ledger, pod, before + [row + [Nvidia.Grant(list[x].info, req)]])
  }

  ghost predicate GrantsListed(list: seq<DeviceUsage>, sel: Selection, req: Request, e: ContainerDevice) {
    exists z :: 0 <= z < |list| && Nvidia.Admissible(sel, list[z], req) && e == Nvidia.Grant(list[z].info, req)
  }

  /** The list has no such stretch, or the quota check turned a card away. */
  ghost predicate Inadequate(list: seq<DeviceUsage>, sel: Selection, pod: Pod, t: string, req: Request, before: PodSingleDevice, reg: Registry, ledger: Ledger) {
    !Sufficient(list, sel, pod, t, req, before) || (t == NVIDIA && OverQuota(list, sel, pod, req, before, reg, ledger))
  }

  /** With limits these are the only two causes of a refusal. */
  lemma RefusalCause(devs: Snapshot, sel: Selection, pod: Pod, t: string, req: Request, before: PodSingleDevice, reg: Registry, ledger: Ledger,
                     row: ContainerDevices)
    requires IsBackend(t) && Answers(devs, sel, pod, t, req, before, reg, ledger, false, row)
    ensures exists list :: ListOf(devs, t, list) && Inadequate(list, sel, pod, t, req, before, reg, ledger)
  {
    var list :| ListOf(devs, t, list) && Yields(list, sel, pod, t, req, before, reg, ledger, false, row);
    if Sufficient(list, sel, pod, t, req, before) {
      if t == NVIDIA {
        NvidiaTurnsAway(list, sel, pod, req, before, reg, ledger, row);
      } else {
        MissedIff(AscendHunt(list, sel, req, pod, before), req.nums);
      }
    }
    assert Inadequate(list, sel, pod, t, req, before, reg, ledger);
  }

  lemma NvidiaTurnsAway(list: seq<DeviceUsage>, sel: Selection, pod: Pod, req: Request, before: PodSingleDevice, reg: Registry, ledger: Ledger,
                        row: ContainerDevices)
    requires Sufficient(list, sel, pod, NVIDIA, req, before) && Yields(list, sel, pod, NVIDIA, req, before, reg, ledger, false, row)
    ensures OverQuota(list, sel, pod, req, before, reg, ledger)
  {
    var h := Nvidia.HuntOf(list, sel, req, pod, reg, ledger, before);
    if sel.topology {
      var all :| Nvidia.Front(h, all) && |all| < req.nums;
      var hi: nat :| Longest(h.list, 0, hi) && all == Gathered(h, 0, hi);
      FrontTurnsAway(h, hi, req.nums);
    } else {
      MissedTurnsAway(h, req.nums);
    }
    var lo: nat, hi: nat :| TurnedAway(h, req.nums, lo, hi);
    AwayIsOverQuota(list, sel, pod, req, before, reg, ledger, lo, hi);
  }

  lemma AwayIsOverQuota(list: seq<DeviceUsage>, sel: Selection, pod: Pod, req: Request, before: PodSingleDevice, reg: Registry, ledger: Ledger,
                        lo: nat, hi: nat)
    requires TurnedAway(Nvidia.HuntOf(list, sel, req, pod, reg, ledger, before), req.nums, lo, hi)
    ensures OverQuota(list, sel, pod, req, before, reg, ledger)
  {
    var h := Nvidia.HuntOf(list, sel, req, pod, reg, ledger, before);
    var row := Gathered(h, lo + 1, hi);
    forall y | 0 <= y < |row| ensures GrantsListed(list, sel, req, row[y]) { var z := GatheredFrom(h, lo + 1, hi, y); }
    assert Nvidia.Admissible(sel, list[lo], req) && !Nvidia.QuotaOk(reg, ledger, pod, before + [row + [Nvidia.Grant(list[lo].info, req)]]);
  }

  // ---------- Devices on one NUMA node ----------

  predicate OneNuma(devs: Snapshot, t: string) {
    forall d, e :: d in devs && e in devs && devs[d].info.vendor == t && devs[e].info.vendor == t ==> devs[d].info.numa == devs[e].info.numa
  }

  /** Where all devices of the type are on one node, or the request is not bound to one, only
      the number of admissible devices counts. */
  lemma OneNumaAnswer(devs: Snapshot, sel: Selection, pod: Pod, t: string, req: Request, before: PodSingleDevice, reg: Registry, ledger: Ledger,
                      ok: bool, row: ContainerDevices)
    requires IsBackend(t) && (t == NVIDIA ==> Nvidia.Unlimited(reg, ledger, pod.ns)) && Answers(devs, sel, pod, t, req, before, reg, ledger, ok, row)
    requires !sel.numaBind || OneNuma(devs, t)
    ensures exists list :: ListOf(devs, t, list) && (ok <==> CountGood(list, SeenBy(list, sel, pod, t, req, before).good, 0) >= req.nums)
  {
    UnlimitedAnswer(devs, sel, pod, t, req, before, reg, ledger, ok, row);
    var list :| ListOf(devs, t, list) && (ok <==> Sufficient(list, sel, pod, t, req, before));
    var l := SeenBy(list, sel, pod, t, req, before);
    if sel.numaBind { OneNumaIff(l, req.nums); } else { UnboundIff(l, req.nums); }
  }

  /** A refusal there means what it means without a bind: no row would do. */
  lemma OneNumaRefusal(devs: Snapshot, sel: Selection, pod: Pod, t: string, req: Request, before: PodSingleDevice, reg: Registry, ledger: Ledger,
                       row: ContainerDevices)
    requires WellKeyed(devs) && (t == NVIDIA ==> Nvidia.Unlimited(reg, ledger, pod.ns)) && Answers(devs, sel, pod, t, req, before, reg, ledger, false, row)
    requires !sel.numaBind || OneNuma(devs, t)
    ensures !CanFit(devs, sel, pod, t, req, before)
  {
    if CanFit(devs, sel, pod, t, req, before) {
      OneNumaAnswer(devs, sel, pod, t, req, before, reg, ledger, false, row);
      var list :| ListOf(devs, t, list) && CountGood(list, SeenBy(list, sel, pod, t, req, before).good, 0) < req.nums;
      var some: ContainerDevices :| RowOk(devs, sel, pod, t, req, before, some);
      RowListed(devs, sel, pod, t, req, before, some, list, SeenBy(list, sel, pod, t, req, before).good);
    }
  }

  /** A pod refused on a node whose devices are on one NUMA node for each type: some container,
      after rows for those before it, would do with no devices. */
  lemma OneNumaStuck(start: Snapshot, sel: Selection, pod: Pod, reg: Registry, ledger: Ledger)
    requires Nvidia.Unlimited(reg, ledger, pod.ns) && Refused(start, sel, pod, reg, ledger)
    requires !sel.numaBind || forall t :: OneNuma(start, t)
    ensures Stuck(start, sel, pod)
  {
    var types: set<string>, pd: PodDevices, n: nat :| RefusedAt(start, sel, pod, reg, ledger, types, pd, n);
    var devs := Live(start, pod, pd);
    var t, row :| t in pod.reqs[n] && Answers(devs, sel, pod, t, pod.reqs[n][t], Rows(pd, t), reg, ledger, false, row);
    assert OneNuma(start, t) ==> OneNuma(devs, t);
    OneNumaRefusal(devs, sel, pod, t, pod.reqs[n][t], Rows(pd, t), reg, ledger, row);
    assert StuckAt(start, sel, pod, types, pd, n);
  }

  // ---------- Devices that are granted together ----------

  /** The row is on one NUMA node. */
  predicate Together(devs: Snapshot, row: ContainerDevices) {
    forall x, y :: 0 <= x < |row| && 0 <= y < |row| && row[x].uuid in devs && row[y].uuid in devs ==> devs[row[x].uuid].info.numa == devs[row[y].uuid].info.numa
  }

  lemma GatheredTogether(devs: Snapshot, t: string, h: Hunt, lo: nat, hi: nat)
    requires ListOf(devs, t, h.list.devices) && Sound(h.list) && h.list.bind && Longest(h.list, lo, hi)
    requires forall dev :: h.grant(dev).uuid == dev.info.id
    ensures Together(devs, Gathered(h, lo, hi))
  {
    var row := Gathered(h, lo, hi);
    forall x, y | 0 <= x < |row| && 0 <= y < |row| && row[x].uuid in devs && row[y].uuid in devs
      ensures devs[row[x].uuid].info.numa == devs[row[y].uuid].info.numa
    {
      var i, j := GatheredOneNode(h, lo, hi, x, y);
    }
  }

  lemma PartTogether(devs: Snapshot, all: ContainerDevices, row: ContainerDevices)
    requires Together(devs, all) && forall x :: 0 <= x < |row| ==> row[x] in all
    ensures Together(devs, row)
  {
  }

  lemma LinkedPart(sel: Selection, all: ContainerDevices, n: nat, row: ContainerDevices)
    requires Nvidia.Linked(sel, all, n, row)
    ensures forall x :: 0 <= x < |row| ==> row[x] in all
  {
  }

  lemma FoundTogether(devs: Snapshot, t: string, h: Hunt, n: nat, row: ContainerDevices)
    requires ListOf(devs, t, h.list.devices) && Sound(h.list) && h.list.bind && (forall dev :: h.grant(dev).uuid == dev.info.id) && Finds(h, n, row)
    ensures Together(devs, row)
  {
    var lo: nat, hi: nat :| Longest(h.list, lo, hi) && row == Gathered(h, lo, hi) && |row| == n && Missed(h, n, lo + 1);
    GatheredTogether(devs, t, h, lo, hi);
  }

  lemma LinkedTogether(devs: Snapshot, t: string, h: Hunt, sel: Selection, n: nat, row: ContainerDevices, all: ContainerDevices)
    requires ListOf(devs, t, h.list.devices) && Sound(h.list) && h.list.bind && (forall dev :: h.grant(dev).uuid == dev.info.id)
    requires Nvidia.Front(h, all) && Nvidia.Linked(sel, all, n, row)
    ensures Together(devs, row)
  {
    var hi: nat :| Longest(h.list, 0, hi) && all == Gathered(h, 0, hi);
    GatheredTogether(devs, t, h, 0, hi);
    LinkedPart(sel, all, n, row);
    PartTogether(devs, all, row);
  }

  /** A request that is bound to a NUMA node is answered with devices of one. */
  lemma BoundTogether(devs: Snapshot, sel: Selection, pod: Pod, t: string, req: Request, before: PodSingleDevice, reg: Registry, ledger: Ledger,
                      row: ContainerDevices)
    requires sel.numaBind && Answers(devs, sel, pod, t, req, before, reg, ledger, true, row)
    ensures Together(devs, row)
  {
    var list :| ListOf(devs, t, list) && Yields(list, sel, pod, t, req, before, reg, ledger, true, row);
    if t == NVIDIA {
      var h := Nvidia.HuntOf(list, sel, req, pod, reg, ledger, before);
      if sel.topology {
        var all :| Nvidia.Front(h, all) && Nvidia.Linked(sel, all, req.nums, row);
        LinkedTogether(devs, t, h, sel, req.nums, row, all);
      } else {
        FoundTogether(devs, t, h, req.nums, row);
      }
    } else {
      FoundTogether(devs, t, AscendHunt(list, sel, req, pod, before), req.nums, row);
    }
  }

  /** Every container of a placed pod that is bound to a NUMA node has its devices on one. */
  lemma PlacedTogether(start: Snapshot, sel: Selection, pod: Pod, reg: Registry, ledger: Ledger, raw: PodDevices, t: string, i: nat)
    requires sel.numaBind && ServedAll(start, sel, pod, reg, ledger, raw) && i < |pod.reqs| && t in pod.reqs[i] && i < |Rows(raw, t)|
    ensures Together(start, Rows(raw, t)[i])
  {
    var rows := Rows(raw, t);
    assert StepServed(start, sel, pod, reg, ledger, t, rows[..i], rows[i]);
    BoundTogether(LiveDevs(start, pod, rows[..i]), sel, pod, t, pod.reqs[i][t], rows[..i], reg, ledger, rows[i]);
  }
}
