/** The quota manager: it charges pods to their namespaces and keeps the effective
    limits those of the ResourceQuota objects. */
module QuotaManagers {
  import opened Usages
  import opened Devices
  import opened Quotas
  import opened QuotaObjects

  lemma LimitsUntouched(before: Ledger, after: Ledger, objs: ObjectLimits)
    requires SameLimits(before, after)
    requires forall ns, res :: Agrees(before, objs, ns, res)
    ensures forall ns, res :: Agrees(after, objs, ns, res)
  {
    forall ns, res ensures Agrees(after, objs, ns, res) {
      assert Agrees(before, objs, ns, res);
      assert QuotaOf(after, ns, res).limit == QuotaOf(before, ns, res).limit;
    }
  }

  class QuotaManager {
    const reg: Registry
    var ledger: Ledger
    var objs: ObjectLimits

    ghost predicate Valid()
      reads this
    {
      forall ns, res :: Agrees(ledger, objs, ns, res)
    }

    constructor (reg: Registry)
      ensures this.reg == reg && ledger == map[] && objs == map[] && Valid()
    {
      this.reg, ledger, objs := reg, map[], map[];
    }

    method FitQuota(ns: string, memreq: int, factor: int, coresreq: int, t: string) returns (ok: bool)
      ensures ok == Fits(reg, ledger, ns, memreq, factor, coresreq, t)
    {
      if t !in reg || ns !in ledger {
        return true;
      }
      var names, dq := reg[t], ledger[ns];
      if names.memory in dq {
        var q := dq[names.memory];
        var limit := q.limit;
        if factor > 1 {
          limit := limit * factor;
        }
        if q.limitSet && q.used + memreq > limit {
          return false;
        }
      }
      if names.core in dq && dq[names.core].limitSet && dq[names.core].used + coresreq > dq[names.core].limit {
        return false;
      }
      return true;
    }

    method AddUsageLocked(ns: string, usage: map<string, nat>)
      modifies this`ledger
      ensures Charged(old(ledger), ledger, ns, usage)
    {
      if ns !in ledger {
        ledger := ledger[ns := map[]];
      }
      var todo := usage.Keys;
      while todo != {}
        invariant ns in ledger && todo <= usage.Keys
        invariant SameLimits(old(ledger), ledger)
        invariant forall n, res ::
          UsedOf(ledger, n, res) ==
          UsedOf(old(ledger), n, res) + if n == ns && res !in todo then Amount(usage, res) else 0
      {
        var res :| res in todo;
        var q := if res in ledger[ns] then ledger[ns][res] else Quota(0, 0, false);
        ledger := ledger[ns := ledger[ns][res := q.(used := q.used + usage[res])]];
        todo := todo - {res};
      }
    }

    method RmUsageLocked(ns: string, usage: map<string, nat>)
      modifies this`ledger
      ensures Released(old(ledger), ledger, ns, usage)
    {
      if ns !in ledger {
        return;
      }
      var todo := usage.Keys;
      while todo != {}
        invariant ns in ledger && todo <= usage.Keys
        invariant SameLimits(old(ledger), ledger)
        invariant forall n, res ::
          UsedOf(ledger, n, res) ==
          if n == ns && res !in todo then Max(UsedOf(old(ledger), n, res) - Amount(usage, res), 0)
          else UsedOf(old(ledger), n, res)
      {
        var res :| res in todo;
        if res in ledger[ns] {
          var q := ledger[ns][res];
          var used := q.used - usage[res];
          if used < 0 {
            used := 0;
          }
          ledger := ledger[ns := ledger[ns][res := q.(used := used)]];
        }
        todo := todo - {res};
      }
    }

    /** Charges the devices of a pod to its namespace. */
    method AddUsage(ns: string, pd: PodDevices)
      requires Valid()
      modifies this`ledger
      ensures Valid() && SameLimits(old(ledger), ledger)
      ensures forall n, res ::
        UsedOf(ledger, n, res) == UsedOf(old(ledger), n, res) + if n == ns then PodCount(reg, pd, res) else 0
    {
      var usage := CountPodDevices(reg, pd);
      if |usage| != 0 {
        AddUsageLocked(ns, usage);
        LimitsUntouched(old(ledger), ledger, objs);
      }
    }

    /** Takes the devices of a pod off its namespace. */
    method RmUsage(ns: string, pd: PodDevices)
      requires Valid()
      modifies this`ledger
      ensures Valid() && SameLimits(old(ledger), ledger)
      ensures forall n, res ::
        UsedOf(ledger, n, res) ==
        if n == ns then Max(UsedOf(old(ledger), n, res) - PodCount(reg, pd, res), 0) else UsedOf(old(ledger), n, res)
    {
      var usage := CountPodDevices(reg, pd);
      if |usage| != 0 {
        RmUsageLocked(ns, usage);
        LimitsUntouched(old(ledger), ledger, objs);
      }
    }

    /** Swaps one set of devices for another in a single step. */
    method ReplaceUsage(ns: string, oldDevices: PodDevices, newDevices: PodDevices)
      requires Valid()
      modifies this`ledger
      ensures Valid() && SameLimits(old(ledger), ledger)
      ensures forall n, res ::
        UsedOf(ledger, n, res) ==
        if n == ns then Max(UsedOf(old(ledger), n, res) - PodCount(reg, oldDevices, res), 0) + PodCount(reg, newDevices, res)
        else UsedOf(old(ledger), n, res)
    {
      var oldUsage := CountPodDevices(reg, oldDevices);
      var newUsage := CountPodDevices(reg, newDevices);
      if |oldUsage| == 0 && |newUsage| == 0 {
        return;
      }
      RmUsageLocked(ns, oldUsage);
      AddUsageLocked(ns, newUsage);
      LimitsUntouched(old(ledger), ledger, objs);
    }

    /** Sets the effective limit of a resource to the smallest limit of the objects
        that name it, or clears it when none does. */
    method RecalcLimitLocked(ns: string, res: string)
      modifies this`ledger
      ensures Agrees(ledger, objs, ns, res)
      ensures UsedOf(ledger, ns, res) == UsedOf(old(ledger), ns, res)
      ensures forall n, r :: n != ns || r != res ==> QuotaOf(ledger, n, r) == QuotaOf(old(ledger), n, r)
    {
      var minLimit, found := 0, false;
      ghost var at := "";
      if ns in objs {
        var todo := objs[ns].Keys;
        while todo != {}
          invariant todo <= objs[ns].Keys
          invariant found ==> at in objs[ns] && res in objs[ns][at] && objs[ns][at][res] == minLimit
          invariant forall m :: m in objs[ns] && m !in todo && res in objs[ns][m] ==> found && minLimit <= objs[ns][m][res]
        {
          var m :| m in todo;
          if res in objs[ns][m] {
            var limit := objs[ns][m][res];
            if !found || limit < minLimit {
              minLimit, found, at := limit, true, m;
            }
          }
          todo := todo - {m};
        }
      }
      assert found ==> res in LimitsOf(objs, ns, at) && LimitsOf(objs, ns, at)[res] == minLimit;
      assert forall m :: res in LimitsOf(objs, ns, m) ==> found && minLimit <= LimitsOf(objs, ns, m)[res];
      if ns !in ledger {
        if !found {
          return;
        }
        ledger := ledger[ns := map[]];
      }
      if res !in ledger[ns] {
        if !found {
          return;
        }
        ledger := ledger[ns := ledger[ns][res := Quota(0, 0, false)]];
      }
      var q := ledger[ns][res];
      if found {
        q := q.(limit := minLimit, limitSet := true);
      } else {
        q := q.(limit := 0, limitSet := false);
      }
      ledger := ledger[ns := ledger[ns][res := q]];
    }

    method RecalcAll(ns: string, affected: set<string>)
      requires forall n, r :: n != ns || r !in affected ==> Agrees(ledger, objs, n, r)
      modifies this`ledger
      ensures Valid() && SameUsage(old(ledger), ledger)
    {
      var todo := affected;
      while todo != {}
        invariant todo <= affected
        invariant forall n, r :: n != ns || r !in todo ==> Agrees(ledger, objs, n, r)
        invariant SameUsage(old(ledger), ledger)
      {
        var res :| res in todo;
        ghost var before := ledger;
        RecalcLimitLocked(ns, res);
        forall n, r | n != ns || r !in todo - {res} ensures Agrees(ledger, objs, n, r) {
          if n != ns || r != res {
            assert Agrees(before, objs, n, r) && QuotaOf(ledger, n, r) == QuotaOf(before, n, r);
          }
        }
        forall n, r ensures UsedOf(ledger, n, r) == UsedOf(before, n, r) {
          assert n != ns || r != res ==> QuotaOf(ledger, n, r) == QuotaOf(before, n, r);
        }
        todo := todo - {res};
      }
    }

    method SetObject(ns: string, name: string, limits: map<string, int>)
      modifies this`objs
      ensures Sets(old(objs), objs, ns, name, limits)
    {
      if limits != map[] {
        if ns !in objs {
          objs := objs[ns := map[]];
        }
        objs := objs[ns := objs[ns][name := limits]];
      } else if ns in objs {
        var rest := objs[ns] - {name};
        assert forall m :: m in rest <==> m in objs[ns] && m != name;
        if rest == map[] {
          objs := objs - {ns};
        } else {
          objs := objs[ns := rest];
        }
      }
    }

    method AddQuotaLocked(q: QuotaObject)
      requires Valid()
      modifies this`ledger, this`objs
      ensures Valid() && SameUsage(old(ledger), ledger)
      ensures if q.scoped then objs == old(objs) else Sets(old(objs), objs, q.ns, q.name, ManagedLimits(reg, q))
    {
      if q.scoped {
        return;
      }
      var limits := CollectLimits(reg, q);
      // Resources the object no longer names are affected too.
      var affected := limits.Keys + LimitsOf(objs, q.ns, q.name).Keys;
      SetObject(q.ns, q.name, limits);
      forall n, r | n != q.ns || r !in affected ensures Agrees(ledger, objs, n, r) {
        UnaffectedAgrees(ledger, old(objs), objs, q.ns, q.name, limits, n, r);
      }
      RecalcAll(q.ns, affected);
    }

    method DelQuotaLocked(q: QuotaObject)
      requires Valid()
      modifies this`ledger, this`objs
      ensures Valid() && SameUsage(old(ledger), ledger)
      ensures Sets(old(objs), objs, q.ns, q.name, map[])
    {
      var affected := LimitsOf(objs, q.ns, q.name).Keys;
      SetObject(q.ns, q.name, map[]);
      if !q.scoped {
        affected := affected + set key | key in q.hard && LIMITS <= key && IsManaged(reg, key[|LIMITS|..]) :: key[|LIMITS|..];
      }
      forall n, r | n != q.ns || r !in affected ensures Agrees(ledger, objs, n, r) {
        UnaffectedAgrees(ledger, old(objs), objs, q.ns, q.name, map[], n, r);
      }
      RecalcAll(q.ns, affected);
    }

    method AddQuota(q: QuotaObject)
      requires Valid()
      modifies this`ledger, this`objs
      ensures Valid() && SameUsage(old(ledger), ledger)
      ensures Applied(reg, old(objs), Added(q), objs)
      ensures !q.scoped ==> ImposesAll(reg, ledger, old(objs), q)
      ensures forall ns, res :: Unconcerned(reg, old(objs), q, ns, res) ==> SameLimit(old(ledger), ledger, ns, res)
    {
      AddQuotaLocked(q);
      if !q.scoped {
        forall res | Registers(reg, res) ensures Imposed(ledger, old(objs), q, res) { AddImposes(reg, old(objs), objs, ledger, q, res); }
      }
      forall ns, res | Unconcerned(reg, old(objs), q, ns, res) ensures SameLimit(old(ledger), ledger, ns, res) {
        AddLeaves(reg, old(objs), objs, old(ledger), ledger, q, ns, res);
      }
    }

    method DelQuota(q: QuotaObject)
      requires Valid()
      modifies this`ledger, this`objs
      ensures Valid() && SameUsage(old(ledger), ledger)
      ensures Applied(reg, old(objs), Deleted(q), objs)
      ensures forall ns, res :: Lifted(old(objs), old(ledger), ledger, q, ns, res)
    {
      DelQuotaLocked(q);
      forall ns, res ensures Lifted(old(objs), old(ledger), ledger, q, ns, res) { DeleteLifts(old(objs), objs, old(ledger), ledger, q, ns, res); }
    }

    method UpdateQuota(was: QuotaObject, now: QuotaObject)
      requires Valid()
      modifies this`ledger, this`objs
      ensures Valid() && SameUsage(old(ledger), ledger)
      ensures Applied(reg, old(objs), Updated(was, now), objs)
    {
      DelQuotaLocked(was);
      ghost var mid := objs;
      AddQuotaLocked(now);
      assert AppliedDelete(old(objs), was, mid) && AppliedAdd(reg, mid, now, objs);
    }
  }
}
