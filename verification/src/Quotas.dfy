/** Namespace quotas: usage per device resource and limits taken from the live
    ResourceQuota objects. */
module Quotas {
  import opened Usages
  import opened Devices

  datatype ResourceNames = ResourceNames(memory: string, core: string, factor: int)

  /** The registered device types and the quota resources they charge. */
  type Registry = map<string, ResourceNames>

  datatype Quota = Quota(used: nat, limit: int, limitSet: bool)

  type DeviceQuota = map<string, Quota>
  type Ledger = map<string, DeviceQuota>

  function QuotaOf(ledger: Ledger, ns: string, res: string): Quota {
    if ns in ledger && res in ledger[ns] then ledger[ns][res] else Quota(0, 0, false)
  }

  function UsedOf(ledger: Ledger, ns: string, res: string): nat {
    QuotaOf(ledger, ns, res).used
  }

  /** Whether adding the two amounts keeps a namespace within its limits. */
  predicate Fits(reg: Registry, ledger: Ledger, ns: string, memreq: int, factor: int, coresreq: int, t: string) {
    t in reg && ns in ledger ==>
      var mem, core := QuotaOf(ledger, ns, reg[t].memory), QuotaOf(ledger, ns, reg[t].core);
      && (mem.limitSet ==> mem.used + memreq <= mem.limit * Max(factor, 1))
      && (core.limitSet ==> core.used + coresreq <= core.limit)
  }

  // ---------- What a pod's devices add to a resource ----------

  /** The sum of counter `r` over all grants of a row. */
  function RowTotal(row: ContainerDevices, r: Res): nat {
    if row == [] then 0 else RowTotal(row[..|row| - 1], r) + row[|row| - 1].Use().Of(r)
  }

  method SumRowTotals(row: ContainerDevices) returns (mem: nat, cores: nat)
    ensures mem == RowTotal(row, Mem) && cores == RowTotal(row, Cores)
  {
    mem, cores := 0, 0;
    assert row[..0] == [];
    for x := 0 to |row|
      invariant mem == RowTotal(row[..x], Mem) && cores == RowTotal(row[..x], Cores)
    {
      assert row[..x + 1][..x] == row[..x];
      mem, cores := mem + row[x].mem, cores + row[x].cores;
    }
    assert row[..|row|] == row;
  }

  /** What one row charges to resource `res` under the given names. */
  function RowCount(names: ResourceNames, row: ContainerDevices, res: string): nat {
    if res == "" then 0
    else (if names.memory == res then RowTotal(row, Mem) else 0) + (if names.core == res then RowTotal(row, Cores) else 0)
  }

  function RowsCount(names: ResourceNames, rows: PodSingleDevice, res: string): nat {
    if rows == [] then 0 else RowsCount(names, rows[..|rows| - 1], res) + RowCount(names, rows[|rows| - 1], res)
  }

  function TypeCount(reg: Registry, pd: PodDevices, res: string): string -> nat {
    t => if t in reg then RowsCount(reg[t], Rows(pd, t), res) else 0
  }

  /** What the devices of a pod charge to resource `res`: the sum over the
      registered device types. */
  ghost function PodCount(reg: Registry, pd: PodDevices, res: string): nat {
    SumSet(reg.Keys, TypeCount(reg, pd, res))
  }

  /** What the part `done` of a pod's device types charges. */
  ghost function PartCount(reg: Registry, pd: PodDevices, done: set<string>, res: string): nat {
    SumSet(done * reg.Keys, TypeCount(reg, pd, res))
  }

  function Amount(usage: map<string, nat>, res: string): nat {
    if res in usage then usage[res] else 0
  }

  method CountRow(names: ResourceNames, row: ContainerDevices, start: map<string, nat>) returns (counts: map<string, nat>)
    ensures forall res :: Amount(counts, res) == Amount(start, res) + RowCount(names, row, res)
  {
    counts := start;
    assert row[..0] == [];
    for i := 0 to |row|
      invariant forall res :: Amount(counts, res) == Amount(start, res) + RowCount(names, row[..i], res)
    {
      if |names.memory| > 0 {
        counts := counts[names.memory := Amount(counts, names.memory) + row[i].mem];
      }
      if |names.core| > 0 {
        counts := counts[names.core := Amount(counts, names.core) + row[i].cores];
      }
      assert row[..i + 1][..i] == row[..i];
    }
    assert row[..|row|] == row;
  }

  method CountRows(names: ResourceNames, rows: PodSingleDevice, start: map<string, nat>) returns (counts: map<string, nat>)
    ensures forall res :: Amount(counts, res) == Amount(start, res) + RowsCount(names, rows, res)
  {
    counts := start;
    assert rows[..0] == [];
    for i := 0 to |rows|
      invariant forall res :: Amount(counts, res) == Amount(start, res) + RowsCount(names, rows[..i], res)
    {
      counts := CountRow(names, rows[i], counts);
      assert rows[..i + 1][..i] == rows[..i];
    }
    assert rows[..|rows|] == rows;
  }

  method CountPodDevices(reg: Registry, pd: PodDevices) returns (counts: map<string, nat>)
    ensures forall res :: Amount(counts, res) == PodCount(reg, pd, res)
  {
    counts := map[];
    var todo := pd.Keys;
    while todo != {}
      invariant todo <= pd.Keys
      invariant forall res :: Amount(counts, res) == PartCount(reg, pd, pd.Keys - todo, res)
    {
      var t :| t in todo;
      ghost var done, before := pd.Keys - todo, counts;
      if t in reg {
        counts := CountRows(reg[t], pd[t], counts);
      }
      forall res ensures Amount(counts, res) == PartCount(reg, pd, done + {t}, res) {
        CountOneMore(reg, pd, done, t, res);
      }
      assert pd.Keys - (todo - {t}) == done + {t};
      todo := todo - {t};
    }
    forall res ensures PartCount(reg, pd, pd.Keys, res) == PodCount(reg, pd, res) {
      AbsentTypesCountNothing(reg, pd, reg.Keys, res);
    }
    assert pd.Keys - todo == pd.Keys;
  }

  lemma CountOneMore(reg: Registry, pd: PodDevices, done: set<string>, t: string, res: string)
    requires t in pd && t !in done
    ensures PartCount(reg, pd, done + {t}, res) ==
      PartCount(reg, pd, done, res) + if t in reg then RowsCount(reg[t], pd[t], res) else 0
  {
    if t in reg {
      SumSetRemove((done + {t}) * reg.Keys, TypeCount(reg, pd, res), t);
      assert (done + {t}) * reg.Keys - {t} == done * reg.Keys;
    } else {
      assert (done + {t}) * reg.Keys == done * reg.Keys;
    }
  }

  lemma {:induction false} AbsentTypesCountNothing(reg: Registry, pd: PodDevices, types: set<string>, res: string)
    ensures SumSet(pd.Keys * types, TypeCount(reg, pd, res)) == SumSet(types, TypeCount(reg, pd, res))
  {
    if types != {} {
      var f := TypeCount(reg, pd, res);
      var t :| t in types;
      AbsentTypesCountNothing(reg, pd, types - {t}, res);
      SumSetRemove(types, f, t);
      if t in pd {
        SumSetRemove(pd.Keys * types, f, t);
        assert pd.Keys * types - {t} == pd.Keys * (types - {t});
      } else {
        assert pd.Keys * types == pd.Keys * (types - {t});
      }
    }
  }

  // ---------- Changes of a ledger ----------

  /** Usage of `ns` grew by `amounts`; no limit changed. */
  ghost predicate Charged(before: Ledger, after: Ledger, ns: string, amounts: map<string, nat>) {
    && (forall n, res :: UsedOf(after, n, res) == UsedOf(before, n, res) + if n == ns then Amount(amounts, res) else 0)
    && SameLimits(before, after)
  }

  /** Usage of `ns` fell by `amounts`, stopping at zero; no limit changed. */
  ghost predicate Released(before: Ledger, after: Ledger, ns: string, amounts: map<string, nat>) {
    && (forall n, res ::
      UsedOf(after, n, res) == if n == ns then Max(UsedOf(before, n, res) - Amount(amounts, res), 0) else UsedOf(before, n, res))
    && SameLimits(before, after)
  }

  ghost predicate SameLimits(before: Ledger, after: Ledger) {
    forall n, res ::
      && QuotaOf(after, n, res).limit == QuotaOf(before, n, res).limit
      && QuotaOf(after, n, res).limitSet == QuotaOf(before, n, res).limitSet
  }

  ghost predicate SameUsage(before: Ledger, after: Ledger) {
    forall n, res :: UsedOf(after, n, res) == UsedOf(before, n, res)
  }

  /** A namespace can be filled exactly: what uses up a limit fits, and one more does not. Memory
      limits count in units of the factor. */
  lemma FitsExactly(reg: Registry, ledger: Ledger, ns: string, t: string, mem: nat, cores: nat)
    requires t in reg && ns in ledger && reg[t].memory in ledger[ns] && reg[t].core in ledger[ns]
    requires var m, c := ledger[ns][reg[t].memory], ledger[ns][reg[t].core];
      m.limitSet && c.limitSet && m.used + mem == m.limit * (if reg[t].factor > 1 then reg[t].factor else 1) && c.used + cores == c.limit
    ensures Fits(reg, ledger, ns, mem, reg[t].factor, cores, t)
    ensures !Fits(reg, ledger, ns, mem + 1, reg[t].factor, cores, t) && !Fits(reg, ledger, ns, mem, reg[t].factor, cores + 1, t)
  {
  }
}
