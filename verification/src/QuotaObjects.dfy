/** ResourceQuota objects and the device limits they carry. */
module QuotaObjects {
  import opened Devices
  import opened Quotas

  /** A ResourceQuota: hard limits by key, `None` where the quantity is not an integer. */
  datatype QuotaObject = QuotaObject(ns: string, name: string, hard: map<string, Option<int>>, scoped: bool)

  /** Limits per namespace, object and resource. */
  type ObjectLimits = map<string, map<string, map<string, int>>>

  predicate IsManaged(reg: Registry, res: string) {
    res != "" && exists t :: t in reg && (reg[t].memory == res || reg[t].core == res)
  }

  const LIMITS := "limits."

  /** Whether an object limits device resource `res`. */
  predicate Limits(reg: Registry, q: QuotaObject, res: string) {
    IsManaged(reg, res) && LIMITS + res in q.hard && q.hard[LIMITS + res].Some?
  }

  /** The device resources an object limits, with their limits. */
  function ManagedLimits(reg: Registry, q: QuotaObject): map<string, int> {
    map res | res in (set key | key in q.hard && LIMITS <= key :: key[|LIMITS|..]) && Limits(reg, q, res)
      :: q.hard[LIMITS + res].value
  }

  /** What an object contributes: scoped objects are skipped. */
  function Contribution(reg: Registry, q: QuotaObject): map<string, int> {
    if q.scoped then map[] else ManagedLimits(reg, q)
  }

  function LimitsOf(objs: ObjectLimits, ns: string, name: string): map<string, int> {
    if ns in objs && name in objs[ns] then objs[ns][name] else map[]
  }

  /** The effective limit of a resource is set exactly when some object limits it,
      and is then the smallest of those limits. */
  ghost predicate Agrees(ledger: Ledger, objs: ObjectLimits, ns: string, res: string) {
    var q := QuotaOf(ledger, ns, res);
    && (q.limitSet <==> exists name :: res in LimitsOf(objs, ns, name))
    && (q.limitSet ==>
      && (exists name :: res in LimitsOf(objs, ns, name) && LimitsOf(objs, ns, name)[res] == q.limit)
      && (forall name :: res in LimitsOf(objs, ns, name) ==> q.limit <= LimitsOf(objs, ns, name)[res]))
  }

  /** The limits of one object were replaced; every other object kept its own. */
  ghost predicate Sets(before: ObjectLimits, after: ObjectLimits, ns: string, name: string, limits: map<string, int>) {
    forall n, m :: LimitsOf(after, n, m) == if n == ns && m == name then limits else LimitsOf(before, n, m)
  }

  /** A resource that neither the old nor the new limits of an object mention keeps
      its effective limit. */
  lemma UnaffectedAgrees(ledger: Ledger, before: ObjectLimits, after: ObjectLimits,
                         ns: string, name: string, limits: map<string, int>, n: string, res: string)
    requires Sets(before, after, ns, name, limits) && Agrees(ledger, before, n, res)
    requires n != ns || (res !in limits && res !in LimitsOf(before, ns, name))
    ensures Agrees(ledger, after, n, res)
  {
    assert forall m :: LimitsOf(after, n, m) == if n == ns && m == name then limits else LimitsOf(before, n, m);
    assert forall m :: res in LimitsOf(after, n, m) <==> res in LimitsOf(before, n, m);
  }

  datatype QuotaEvent = Added(q: QuotaObject) | Updated(was: QuotaObject, now: QuotaObject) | Deleted(gone: QuotaObject)

  ghost predicate AppliedAdd(reg: Registry, before: ObjectLimits, q: QuotaObject, after: ObjectLimits) {
    if q.scoped then after == before else Sets(before, after, q.ns, q.name, ManagedLimits(reg, q))
  }

  ghost predicate AppliedDelete(before: ObjectLimits, q: QuotaObject, after: ObjectLimits) {
    Sets(before, after, q.ns, q.name, map[])
  }

  ghost predicate Applied(reg: Registry, before: ObjectLimits, e: QuotaEvent, after: ObjectLimits) {
    match e
    case Added(q) => AppliedAdd(reg, before, q, after)
    case Deleted(q) => AppliedDelete(before, q, after)
    case Updated(was, now) => exists mid :: AppliedDelete(before, was, mid) && AppliedAdd(reg, mid, now, after)
  }

  // ---------- What an object does to a namespace ----------

  /** A device type of the registry charges this resource. */
  predicate Registers(reg: Registry, res: string) {
    res != "" && exists t :: t in reg && res in {reg[t].memory, reg[t].core}
  }

  /** The object gives an integer under the key of the resource. */
  predicate Demands(q: QuotaObject, res: string) {
    "limits." + res in q.hard && q.hard["limits." + res].Some?
  }

  /** The resource has a limit, at most what the object demands, and exactly that if no other
      object of the namespace limits it. */
  ghost predicate Imposed(ledger: Ledger, others: ObjectLimits, q: QuotaObject, res: string) {
    Demands(q, res) ==>
      var v, eff := q.hard["limits." + res].value, QuotaOf(ledger, q.ns, res);
      && eff.limitSet && eff.limit <= v
      && ((forall name :: name != q.name ==> res !in LimitsOf(others, q.ns, name)) ==> eff.limit == v)
  }

  ghost predicate ImposesAll(reg: Registry, ledger: Ledger, others: ObjectLimits, q: QuotaObject) {
    forall res :: Registers(reg, res) ==> Imposed(ledger, others, q, res)
  }

  ghost predicate SameLimit(before: Ledger, after: Ledger, ns: string, res: string) {
    var was, now := QuotaOf(before, ns, res), QuotaOf(after, ns, res);
    now.limitSet == was.limitSet && (was.limitSet ==> now.limit == was.limit)
  }

  /** An added object does not concern the resource: it is scoped, or of another namespace, or
      neither it nor its earlier version demands a limit. */
  ghost predicate Unconcerned(reg: Registry, before: ObjectLimits, q: QuotaObject, ns: string, res: string) {
    q.scoped || ns != q.ns || (res !in LimitsOf(before, q.ns, q.name) && !(Registers(reg, res) && Demands(q, res)))
  }

  lemma RegistersIff(reg: Registry, res: string)
    ensures Registers(reg, res) <==> IsManaged(reg, res)
  {
  }

  lemma ManagedIff(reg: Registry, q: QuotaObject, res: string)
    ensures res in ManagedLimits(reg, q) <==> Registers(reg, res) && Demands(q, res)
    ensures res in ManagedLimits(reg, q) ==> ManagedLimits(reg, q)[res] == q.hard["limits." + res].value
  {
    RegistersIff(reg, res);
    if Limits(reg, q, res) {
      var key := LIMITS + res;
      assert key in q.hard && LIMITS <= key && key[|LIMITS|..] == res;
    }
  }

  lemma AddImposes(reg: Registry, before: ObjectLimits, after: ObjectLimits, ledger: Ledger, q: QuotaObject, res: string)
    requires !q.scoped && AppliedAdd(reg, before, q, after) && Agrees(ledger, after, q.ns, res) && Registers(reg, res)
    ensures Imposed(ledger, before, q, res)
  {
    ManagedIff(reg, q, res);
    if Demands(q, res) {
      assert res in LimitsOf(after, q.ns, q.name);
      var name :| res in LimitsOf(after, q.ns, name) && LimitsOf(after, q.ns, name)[res] == QuotaOf(ledger, q.ns, res).limit;
    }
  }

  lemma AddLeaves(reg: Registry, before: ObjectLimits, after: ObjectLimits, was: Ledger, now: Ledger, q: QuotaObject, ns: string, res: string)
    requires AppliedAdd(reg, before, q, after) && Agrees(was, before, ns, res) && Agrees(now, after, ns, res) && Unconcerned(reg, before, q, ns, res)
    ensures SameLimit(was, now, ns, res)
  {
    ManagedIff(reg, q, res);
    forall name ensures res in LimitsOf(after, ns, name) <==> res in LimitsOf(before, ns, name) {}
    forall name | res in LimitsOf(after, ns, name) ensures LimitsOf(after, ns, name)[res] == LimitsOf(before, ns, name)[res] {}
  }

  /** What a deleted object leaves: resources it did not limit keep their limits, and one that no
      other object limits has none. */
  ghost predicate Lifted(before: ObjectLimits, was: Ledger, now: Ledger, q: QuotaObject, ns: string, res: string) {
    && (ns != q.ns || res !in LimitsOf(before, q.ns, q.name) ==> SameLimit(was, now, ns, res))
    && (ns == q.ns && (forall name :: name != q.name ==> res !in LimitsOf(before, ns, name)) ==> !QuotaOf(now, ns, res).limitSet)
  }

  lemma DeleteLifts(before: ObjectLimits, after: ObjectLimits, was: Ledger, now: Ledger, q: QuotaObject, ns: string, res: string)
    requires AppliedDelete(before, q, after) && Agrees(was, before, ns, res) && Agrees(now, after, ns, res)
    ensures Lifted(before, was, now, q, ns, res)
  {
    forall name | ns != q.ns || name != q.name ensures LimitsOf(after, ns, name) == LimitsOf(before, ns, name) {}
    assert ns == q.ns ==> LimitsOf(after, ns, q.name) == map[];
  }

  /** The limits of an object on device resources, read key by key. */
  method CollectLimits(reg: Registry, q: QuotaObject) returns (limits: map<string, int>)
    ensures limits == ManagedLimits(reg, q)
  {
    limits := map[];
    var todo := q.hard.Keys;
    while todo != {}
      invariant todo <= q.hard.Keys
      invariant forall res :: res in limits <==> Limits(reg, q, res) && LIMITS + res !in todo
      invariant forall res :: res in limits ==> limits[res] == q.hard[LIMITS + res].value
    {
      var key :| key in todo;
      if q.hard[key].Some? && LIMITS <= key && IsManaged(reg, key[|LIMITS|..]) {
        assert LIMITS + key[|LIMITS|..] == key;
        limits := limits[key[|LIMITS|..] := q.hard[key].value];
      }
      forall res ensures LIMITS + res == key ==> LIMITS <= key && key[|LIMITS|..] == res { }
      todo := todo - {key};
    }
    forall res | Limits(reg, q, res) ensures res in (set key | key in q.hard && LIMITS <= key :: key[|LIMITS|..]) {
      var key := LIMITS + res;
      assert key in q.hard && LIMITS <= key && key[|LIMITS|..] == res;
    }
  }
}
