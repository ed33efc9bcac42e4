/** Effective limits do not depend on the order or history of quota events. */
module QuotaHistory {
  import opened Devices
  import opened Quotas
  import opened QuotaObjects

  /** The quota objects that exist in the cluster. */
  type Live = map<(string, string), QuotaObject>

  function Key(q: QuotaObject): (string, string) { (q.ns, q.name) }

  function LiveAfter(live: Live, e: QuotaEvent): Live {
    match e
    case Added(q) => live[Key(q) := q]
    case Deleted(q) => live - {Key(q)}
    case Updated(was, now) => (live - {Key(was)})[Key(now) := now]
  }

  function LiveLimits(reg: Registry, live: Live, ns: string, name: string): map<string, int> {
    if (ns, name) in live then Contribution(reg, live[(ns, name)]) else map[]
  }

  /** The recorded limits are those of the live objects. */
  ghost predicate Tracks(reg: Registry, objs: ObjectLimits, live: Live) {
    forall ns, name :: LimitsOf(objs, ns, name) == LiveLimits(reg, live, ns, name)
  }

  /** An add that turns an object the manager already holds limits for into a scoped
      one: the add is skipped and the old limits stay. */
  predicate StaleAdd(reg: Registry, live: Live, q: QuotaObject) {
    q.scoped && LiveLimits(reg, live, q.ns, q.name) != map[]
  }

  predicate Stale(reg: Registry, live: Live, e: QuotaEvent) {
    match e
    case Added(q) => StaleAdd(reg, live, q)
    case Deleted(_) => false
    case Updated(was, now) => StaleAdd(reg, live - {Key(was)}, now)
  }

  lemma AddTracksIff(reg: Registry, before: ObjectLimits, live: Live, q: QuotaObject, after: ObjectLimits)
    requires Tracks(reg, before, live) && AppliedAdd(reg, before, q, after)
    ensures Tracks(reg, after, live[Key(q) := q]) <==> !StaleAdd(reg, live, q)
  {
    var live' := live[Key(q) := q];
    assert LimitsOf(before, q.ns, q.name) == LiveLimits(reg, live, q.ns, q.name);
    assert LiveLimits(reg, live', q.ns, q.name) == Contribution(reg, q);
    forall ns, name | (ns, name) != Key(q) ensures LimitsOf(after, ns, name) == LiveLimits(reg, live', ns, name) {
      assert LimitsOf(before, ns, name) == LiveLimits(reg, live, ns, name);
    }
    if Tracks(reg, after, live') {
      assert LimitsOf(after, q.ns, q.name) == LiveLimits(reg, live', q.ns, q.name);
    }
  }

  lemma DeleteTracks(reg: Registry, before: ObjectLimits, live: Live, q: QuotaObject, after: ObjectLimits)
    requires Tracks(reg, before, live) && AppliedDelete(before, q, after)
    ensures Tracks(reg, after, live - {Key(q)})
  {
    forall ns, name ensures LimitsOf(after, ns, name) == LiveLimits(reg, live - {Key(q)}, ns, name) {
      assert LimitsOf(before, ns, name) == LiveLimits(reg, live, ns, name);
    }
  }

  /** An event leaves the recorded limits those of the live objects exactly when it
      is not a stale add. */
  lemma EventTracksIff(reg: Registry, before: ObjectLimits, live: Live, e: QuotaEvent, after: ObjectLimits)
    requires Tracks(reg, before, live) && Applied(reg, before, e, after)
    ensures Tracks(reg, after, LiveAfter(live, e)) <==> !Stale(reg, live, e)
  {
    match e {
      case Added(q) => AddTracksIff(reg, before, live, q, after);
      case Deleted(q) => DeleteTracks(reg, before, live, q, after);
      case Updated(was, now) =>
        var mid :| AppliedDelete(before, was, mid) && AppliedAdd(reg, mid, now, after);
        DeleteTracks(reg, before, live, was, mid);
        AddTracksIff(reg, mid, live - {Key(was)}, now, after);
    }
  }

  function LiveAfterAll(live: Live, events: seq<QuotaEvent>): Live {
    if events == [] then live else LiveAfter(LiveAfterAll(live, events[..|events| - 1]), events[|events| - 1])
  }

  ghost predicate Run(reg: Registry, trace: seq<ObjectLimits>, events: seq<QuotaEvent>) {
    && |trace| == |events| + 1 && trace[0] == map[]
    && (forall i :: 0 <= i < |events| ==> Applied(reg, trace[i], events[i], trace[i + 1]))
    && (forall i :: 0 <= i < |events| ==> !Stale(reg, LiveAfterAll(map[], events[..i]), events[i]))
  }

  lemma {:induction false} RunTracks(reg: Registry, trace: seq<ObjectLimits>, events: seq<QuotaEvent>, n: nat)
    requires Run(reg, trace, events) && n <= |events|
    ensures Tracks(reg, trace[n], LiveAfterAll(map[], events[..n]))
  {
    if n > 0 {
      RunTracks(reg, trace, events, n - 1);
      assert events[..n][..n - 1] == events[..n - 1];
      EventTracksIff(reg, trace[n - 1], LiveAfterAll(map[], events[..n - 1]), events[n - 1], trace[n]);
    }
  }

  /** Whether a live object of the namespace limits `res` to `limit`. */
  ghost predicate LimitedBy(reg: Registry, live: Live, ns: string, res: string, q: QuotaObject, limit: int) {
    Key(q) in live && live[Key(q)] == q && q.ns == ns && !q.scoped && Limits(reg, q, res) && q.hard[LIMITS + res].value == limit
  }

  lemma LimitSource(reg: Registry, objs: ObjectLimits, live: Live, ns: string, res: string, name: string) returns (q: QuotaObject)
    requires Tracks(reg, objs, live) && res in LimitsOf(objs, ns, name)
    requires forall k :: k in live ==> Key(live[k]) == k
    ensures LimitedBy(reg, live, ns, res, q, LimitsOf(objs, ns, name)[res])
  {
    assert LimitsOf(objs, ns, name) == LiveLimits(reg, live, ns, name);
    q := live[(ns, name)];
  }

  lemma LimitRecorded(reg: Registry, objs: ObjectLimits, live: Live, ns: string, res: string, q: QuotaObject, limit: int)
    requires Tracks(reg, objs, live) && LimitedBy(reg, live, ns, res, q, limit)
    ensures res in LimitsOf(objs, ns, q.name) && LimitsOf(objs, ns, q.name)[res] == limit
  {
    assert LimitsOf(objs, ns, q.name) == LiveLimits(reg, live, ns, q.name);
    var key := LIMITS + res;
    assert key in q.hard && LIMITS <= key && key[|LIMITS|..] == res;
  }

  lemma {:induction false} LiveKeyed(events: seq<QuotaEvent>)
    ensures forall k :: k in LiveAfterAll(map[], events) ==> Key(LiveAfterAll(map[], events)[k]) == k
  {
    if events != [] { LiveKeyed(events[..|events| - 1]); }
  }

  /** The effective limit of a resource, told from the live objects alone. */
  ghost predicate IsEffectiveLimit(reg: Registry, live: Live, ns: string, res: string, eff: Quota) {
    && (eff.limitSet <==> exists q, limit :: LimitedBy(reg, live, ns, res, q, limit))
    && (eff.limitSet ==> exists q :: LimitedBy(reg, live, ns, res, q, eff.limit))
    && (forall q, limit :: LimitedBy(reg, live, ns, res, q, limit) ==> eff.limit <= limit)
  }

  lemma EffectiveFromLive(reg: Registry, ledger: Ledger, objs: ObjectLimits, live: Live, ns: string, res: string)
    requires Agrees(ledger, objs, ns, res) && Tracks(reg, objs, live)
    requires forall k :: k in live ==> Key(live[k]) == k
    ensures IsEffectiveLimit(reg, live, ns, res, QuotaOf(ledger, ns, res))
  {
    var eff := QuotaOf(ledger, ns, res);
    if eff.limitSet {
      var name :| res in LimitsOf(objs, ns, name) && LimitsOf(objs, ns, name)[res] == eff.limit;
      var q := LimitSource(reg, objs, live, ns, res, name);
    }
    forall q, limit | LimitedBy(reg, live, ns, res, q, limit) ensures eff.limitSet && eff.limit <= limit {
      LimitRecorded(reg, objs, live, ns, res, q, limit);
    }
  }

  /** After any run of quota events a resource of a namespace has a limit exactly
      when some live unscoped object limits it, and the limit is then the smallest. */
  lemma LimitsAreHistoryIndependent(reg: Registry, ledger: Ledger, trace: seq<ObjectLimits>, events: seq<QuotaEvent>,
                                    ns: string, res: string)
    requires Run(reg, trace, events) && Agrees(ledger, trace[|events|], ns, res)
    ensures IsEffectiveLimit(reg, LiveAfterAll(map[], events), ns, res, QuotaOf(ledger, ns, res))
  {
    RunTracks(reg, trace, events, |events|);
    assert events[..|events|] == events;
    LiveKeyed(events);
    EffectiveFromLive(reg, ledger, trace[|events|], LiveAfterAll(map[], events), ns, res);
  }

  // ---------- What a stale add does to the effective limits ----------

  /** The object that an event adds, with the objects that were live before it. */
  function Incoming(live: Live, e: QuotaEvent): (Option<QuotaObject>, Live) {
    match e
    case Added(q) => (Some(q), live)
    case Deleted(q) => (None, live - {Key(q)})
    case Updated(was, now) => (Some(now), live - {Key(was)})
  }

  /** The limits of the object's predecessor that a skipped add leaves recorded. */
  function Leftover(reg: Registry, live: Live, e: QuotaEvent, ns: string): map<string, int> {
    var (q, rest) := Incoming(live, e);
    if q.Some? && q.value.scoped && q.value.ns == ns then LiveLimits(reg, rest, ns, q.value.name) else map[]
  }

  /** A live object limits the resource at least as tightly. */
  ghost predicate Undercut(reg: Registry, live: Live, ns: string, res: string, limit: int) {
    exists q, l :: LimitedBy(reg, live, ns, res, q, l) && l <= limit
  }

  /** The recorded limits of a namespace are the live ones, but for what is left over from
      one object that is not live. */
  ghost predicate TracksBut(reg: Registry, objs: ObjectLimits, live: Live, ns: string, name: string, left: map<string, int>) {
    && (forall m :: m != name ==> LimitsOf(objs, ns, m) == LiveLimits(reg, live, ns, m))
    && LimitsOf(objs, ns, name) == left && LiveLimits(reg, live, ns, name) == map[]
  }

  lemma ButSource(reg: Registry, objs: ObjectLimits, live: Live, ns: string, res: string, name: string, left: map<string, int>, m: string)
    returns (q: QuotaObject)
    requires TracksBut(reg, objs, live, ns, name, left) && m != name && res in LimitsOf(objs, ns, m)
    requires forall k :: k in live ==> Key(live[k]) == k
    ensures LimitedBy(reg, live, ns, res, q, LimitsOf(objs, ns, m)[res])
  {
    assert LimitsOf(objs, ns, m) == LiveLimits(reg, live, ns, m);
    q := live[(ns, m)];
  }

  lemma ButRecorded(reg: Registry, objs: ObjectLimits, live: Live, ns: string, res: string, name: string, left: map<string, int>, q: QuotaObject, limit: int)
    requires TracksBut(reg, objs, live, ns, name, left) && LimitedBy(reg, live, ns, res, q, limit)
    ensures res in LimitsOf(objs, ns, q.name) && LimitsOf(objs, ns, q.name)[res] == limit
  {
    var key := LIMITS + res;
    assert key in q.hard && LIMITS <= key && key[|LIMITS|..] == res;
    assert res in LiveLimits(reg, live, ns, q.name);
    assert LimitsOf(objs, ns, q.name) == LiveLimits(reg, live, ns, q.name);
  }

  lemma ButBelow(reg: Registry, ledger: Ledger, objs: ObjectLimits, live: Live, ns: string, name: string, left: map<string, int>, res: string)
    requires TracksBut(reg, objs, live, ns, name, left) && Agrees(ledger, objs, ns, res)
    ensures forall q, limit :: LimitedBy(reg, live, ns, res, q, limit) ==>
      QuotaOf(ledger, ns, res).limitSet && QuotaOf(ledger, ns, res).limit <= limit
    ensures res in left ==> QuotaOf(ledger, ns, res).limitSet && QuotaOf(ledger, ns, res).limit <= left[res]
  {
    var eff := QuotaOf(ledger, ns, res);
    forall q, limit | LimitedBy(reg, live, ns, res, q, limit) ensures eff.limitSet && eff.limit <= limit {
      ButRecorded(reg, objs, live, ns, res, name, left, q, limit);
    }
    if res in left { assert res in LimitsOf(objs, ns, name); }
  }

  /** The effective limit is one of a live object if the leftover is undercut. */
  lemma ButReached(reg: Registry, ledger: Ledger, objs: ObjectLimits, live: Live, ns: string, name: string, left: map<string, int>, res: string)
    returns (q: QuotaObject)
    requires TracksBut(reg, objs, live, ns, name, left) && Agrees(ledger, objs, ns, res)
    requires forall k :: k in live ==> Key(live[k]) == k
    requires QuotaOf(ledger, ns, res).limitSet && (res in left ==> Undercut(reg, live, ns, res, left[res]))
    ensures LimitedBy(reg, live, ns, res, q, QuotaOf(ledger, ns, res).limit)
  {
    var eff := QuotaOf(ledger, ns, res);
    var m :| res in LimitsOf(objs, ns, m) && LimitsOf(objs, ns, m)[res] == eff.limit;
    if m != name {
      q := ButSource(reg, objs, live, ns, res, name, left, m);
    } else {
      var o, l :| LimitedBy(reg, live, ns, res, o, l) && l <= left[res];
      ButRecorded(reg, objs, live, ns, res, name, left, o, l);
      q := o;
    }
  }

  lemma LeftoverIff(reg: Registry, ledger: Ledger, objs: ObjectLimits, live: Live, ns: string, name: string, left: map<string, int>, res: string)
    requires TracksBut(reg, objs, live, ns, name, left) && Agrees(ledger, objs, ns, res)
    requires forall k :: k in live ==> Key(live[k]) == k
    ensures IsEffectiveLimit(reg, live, ns, res, QuotaOf(ledger, ns, res)) <==> (res in left ==> Undercut(reg, live, ns, res, left[res]))
  {
    ButBelow(reg, ledger, objs, live, ns, name, left, res);
    if QuotaOf(ledger, ns, res).limitSet && (res in left ==> Undercut(reg, live, ns, res, left[res])) {
      var q := ButReached(reg, ledger, objs, live, ns, name, left, res);
    }
  }

  lemma LiveKeyedAfter(live: Live, e: QuotaEvent)
    requires forall k :: k in live ==> Key(live[k]) == k
    ensures forall k :: k in LiveAfter(live, e) ==> Key(LiveAfter(live, e)[k]) == k
  {
  }

  lemma StaleTracksBut(reg: Registry, before: ObjectLimits, live: Live, e: QuotaEvent, after: ObjectLimits, ns: string)
    requires Tracks(reg, before, live) && Applied(reg, before, e, after) && Stale(reg, live, e)
    ensures var q := Incoming(live, e).0;
      q.Some? && TracksBut(reg, after, LiveAfter(live, e), q.value.ns, q.value.name, Leftover(reg, live, e, q.value.ns))
    ensures ns != Incoming(live, e).0.value.ns ==> forall m :: LimitsOf(after, ns, m) == LiveLimits(reg, LiveAfter(live, e), ns, m)
  {
    var mid := before;
    var (q, rest) := Incoming(live, e);
    if e.Updated? {
      mid :| AppliedDelete(before, e.was, mid) && AppliedAdd(reg, mid, e.now, after);
      DeleteTracks(reg, before, live, e.was, mid);
    }
    assert after == mid && Tracks(reg, mid, rest);
    forall n, m ensures LimitsOf(after, n, m) == LiveLimits(reg, rest, n, m) {}
  }

  /** After an event a resource of a namespace has the limit of the live objects, unless a
      skipped add left a limit recorded that no live object matches or undercuts. */
  lemma EventEffectiveIff(reg: Registry, before: ObjectLimits, live: Live, e: QuotaEvent, after: ObjectLimits, ledger: Ledger, ns: string, res: string)
    requires Tracks(reg, before, live) && Applied(reg, before, e, after) && Agrees(ledger, after, ns, res)
    requires forall k :: k in live ==> Key(live[k]) == k
    ensures IsEffectiveLimit(reg, LiveAfter(live, e), ns, res, QuotaOf(ledger, ns, res))
      <==> (res in Leftover(reg, live, e, ns) ==> Undercut(reg, LiveAfter(live, e), ns, res, Leftover(reg, live, e, ns)[res]))
  {
    var live' := LiveAfter(live, e);
    LiveKeyedAfter(live, e);
    if Stale(reg, live, e) {
      StaleTracksBut(reg, before, live, e, after, ns);
      var q := Incoming(live, e).0.value;
      if ns == q.ns {
        LeftoverIff(reg, ledger, after, live', ns, q.name, Leftover(reg, live, e, ns), res);
      } else {
        EffectiveInNamespace(reg, ledger, after, live', ns, res);
      }
    } else {
      EventTracksIff(reg, before, live, e, after);
      EffectiveFromLive(reg, ledger, after, live', ns, res);
      assert res !in Leftover(reg, live, e, ns);
    }
  }

  lemma EffectiveInNamespace(reg: Registry, ledger: Ledger, objs: ObjectLimits, live: Live, ns: string, res: string)
    requires Agrees(ledger, objs, ns, res) && forall m :: LimitsOf(objs, ns, m) == LiveLimits(reg, live, ns, m)
    requires forall k :: k in live ==> Key(live[k]) == k
    ensures IsEffectiveLimit(reg, live, ns, res, QuotaOf(ledger, ns, res))
  {
    var eff := QuotaOf(ledger, ns, res);
    if eff.limitSet {
      var name :| res in LimitsOf(objs, ns, name) && LimitsOf(objs, ns, name)[res] == eff.limit;
      assert LimitedBy(reg, live, ns, res, live[(ns, name)], eff.limit);
    }
    forall q, limit | LimitedBy(reg, live, ns, res, q, limit) ensures eff.limitSet && eff.limit <= limit {
      var key := LIMITS + res;
      assert key in q.hard && LIMITS <= key && key[|LIMITS|..] == res;
      assert res in LiveLimits(reg, live, ns, q.name);
    }
  }

  /** An object whose add is followed by an add of its scoped version: nothing live limits
      the resource, but the limit stays in force. */
  lemma StaleAddKeepsLimit(reg: Registry, q: QuotaObject, first: ObjectLimits, second: ObjectLimits, ledger: Ledger, res: string)
    requires !q.scoped && Limits(reg, q, res)
    requires Applied(reg, map[], Added(q), first) && Applied(reg, first, Added(q.(scoped := true)), second) && Agrees(ledger, second, q.ns, res)
    ensures var live := LiveAfter(LiveAfter(map[], Added(q)), Added(q.(scoped := true)));
      (forall o, l :: !LimitedBy(reg, live, q.ns, res, o, l)) && !IsEffectiveLimit(reg, live, q.ns, res, QuotaOf(ledger, q.ns, res))
    ensures QuotaOf(ledger, q.ns, res).limitSet && QuotaOf(ledger, q.ns, res).limit == q.hard[LIMITS + res].value
  {
    var live1 := LiveAfter(map[], Added(q));
    AddTracksIff(reg, map[], map[], q, first);
    LimitRecorded(reg, first, live1, q.ns, res, q, q.hard[LIMITS + res].value);
    EventEffectiveIff(reg, first, live1, Added(q.(scoped := true)), second, ledger, q.ns, res);
    forall m ensures res in LimitsOf(second, q.ns, m) ==> m == q.name {}
  }
}
