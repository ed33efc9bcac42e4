/** What replayed events can do to the cache: pods that are annotated but not cached come
    back. A run keeps a law under every replay exactly when every reservation and refit in
    it leaves room for them. */
module Replays {
  import opened Devices
  import opened Placement
  import opened Pods
  import opened Snapshots
  import opened Claims
  import opened Worlds
  import opened Assigning
  import opened Relocating
  import opened Rooms
  import opened Runs

  predicate Replayable(w: World, us: seq<string>) {
    forall i :: 0 <= i < |us| ==> us[i] in w.api && us[i] !in w.gone
  }

  /** The world after add events for the pods `us`, in this order. */
  function Replayed(w: World, us: seq<string>): World {
    if us == [] then w else After(Replayed(w, us[..|us| - 1]), AddEvent(us[|us| - 1]))
  }

  /** Usage as the scheduler rebuilds it from its cache is within every device's capacity. */
  ghost predicate CacheFits(cluster: Cluster, cache: Cache) {
    forall n, d, r :: n in cluster && d in cluster[n] ==> CachedUse(cache, n, d, r) <= Capacity(cluster[n][d], r)
  }

  lemma CacheFitsIff(cluster: Cluster, w: World)
    requires Consistent(cluster, w)
    ensures CacheFits(cluster, w.cache) <==> Keeps(cluster, CachedClaims(w), CapacityLaw)
  {
    forall n, d, r | n in cluster && d in cluster[n]
      ensures CachedUse(w.cache, n, d, r) == TotalUse(CachedClaims(w), n, cluster[n][d].vendor, d, r)
    {
      CachedTotal(cluster, w, n, d, r);
    }
  }

  lemma {:induction false} ReplayConsistent(cluster: Cluster, w: World, us: seq<string>)
    requires Consistent(cluster, w) && Replayable(w, us)
    ensures Replayed(w, us).api == w.api && Replayed(w, us).gone == w.gone && Consistent(cluster, Replayed(w, us))
  {
    if us != [] {
      var u := us[|us| - 1];
      ReplayConsistent(cluster, w, us[..|us| - 1]);
      var w1 := Replayed(w, us[..|us| - 1]);
      EventStep(cluster, w1, AddEvent(u));
      ConsistentStep(cluster, w1, After(w1, AddEvent(u)), u);
    }
  }

  /** Replayed events break no law. */
  lemma {:induction false} ReplayKeeps(cluster: Cluster, w: World, us: seq<string>, law: Law)
    requires Consistent(cluster, w) && Keeps(cluster, ClaimsOf(w), law) && Replayable(w, us)
    ensures Keeps(cluster, ClaimsOf(Replayed(w, us)), law)
  {
    if us != [] {
      var front, u := us[..|us| - 1], us[|us| - 1];
      ReplayKeeps(cluster, w, front, law);
      ReplayConsistent(cluster, w, front);
      EventStep(cluster, Replayed(w, front), AddEvent(u));
      EasedKeeps(cluster, Replayed(w, front), Replayed(w, us), u, law);
    }
  }

  function Strays(w: World): set<string> {
    set u | u in w.api && Stray(w, u)
  }

  lemma StraysElsewhere(w: World, w': World, u: string)
    requires SameBut(w, w', u) && u in w'.cache
    ensures Strays(w') == Strays(w) - {u}
  {
    forall v | v != u ensures v in Strays(w') <==> v in Strays(w) { assert SameAt(w, w', v); }
  }

  /** Only the cache differs, and no claim does. */
  ghost predicate Alike(w: World, w': World) {
    w'.api == w.api && w'.gone == w.gone && ClaimsOf(w') == ClaimsOf(w)
  }

  /** Replaying a stray caches it with the claim it had. */
  lemma StrayReplayed(cluster: Cluster, w: World, u: string)
    requires Consistent(cluster, w) && Stray(w, u)
    ensures var w' := After(w, AddEvent(u)); Consistent(cluster, w') && Alike(w, w') && Strays(w') == Strays(w) - {u}
  {
    var w' := After(w, AddEvent(u));
    EventStep(cluster, w, AddEvent(u));
    ConsistentStep(cluster, w, w', u);
    StrayRelease(cluster, w, u);
    StraysElsewhere(w, w', u);
    SameClaims(w, w', u);
  }

  lemma SameClaims(w: World, w': World, u: string)
    requires SameBut(w, w', u) && u in ClaimsOf(w) && u in ClaimsOf(w') && ClaimsOf(w')[u] == ClaimsOf(w)[u]
    requires w' == w.(cache := w'.cache)
    ensures Alike(w, w')
  {
    ClaimsJoin(w, w', u);
    UpdateBySplit(ClaimsOf(w), ClaimsOf(w), u);
  }

  lemma StrayRelease(cluster: Cluster, w: World, u: string)
    requires Consistent(cluster, w) && Stray(w, u)
    ensures var w' := After(w, AddEvent(u)); u in w'.cache && u in ClaimsOf(w) && u in ClaimsOf(w') && ClaimsOf(w')[u] == ClaimsOf(w)[u]
  {
    assert ConsistentAt(cluster, w, u);
  }

  /** After these events nothing is astray and no claim has changed. */
  ghost predicate BringsBack(cluster: Cluster, w: World, us: seq<string>) {
    && Replayable(w, us) && Consistent(cluster, Replayed(w, us))
    && ClaimsOf(Replayed(w, us)) == ClaimsOf(w) && Strays(Replayed(w, us)) == {}
  }

  lemma BringsBackFirst(cluster: Cluster, w: World, w1: World, u: string, us: seq<string>)
    requires Alike(w, w1) && u in w.api && u !in w.gone
    requires Replayed(w, [u] + us) == Replayed(w1, us) && BringsBack(cluster, w1, us)
    ensures BringsBack(cluster, w, [u] + us)
  {
    forall i | 0 <= i < |us| + 1 ensures ([u] + us)[i] in w.api && ([u] + us)[i] !in w.gone {
      if i > 0 { assert ([u] + us)[i] == us[i - 1]; }
    }
  }

  lemma {:induction false} ReplayAll(cluster: Cluster, w: World) returns (us: seq<string>)
    requires Consistent(cluster, w)
    ensures BringsBack(cluster, w, us)
    decreases |Strays(w)|
  {
    us := [];
    if Strays(w) != {} {
      var u :| u in Strays(w);
      StrayReplayed(cluster, w, u);
      var w1 := After(w, AddEvent(u));
      var rest := ReplayAll(cluster, w1);
      ReplayFirst(w, u, rest);
      BringsBackFirst(cluster, w, w1, u, rest);
      us := [u] + rest;
    }
  }

  lemma {:induction false} ReplayFirst(w: World, u: string, us: seq<string>)
    ensures Replayed(w, [u] + us) == Replayed(After(w, AddEvent(u)), us)
  {
    if us == [] {
      assert [u] + us == [u];
      assert [u][..0] == [];
    } else {
      ReplayFirst(w, u, us[..|us| - 1]);
      assert ([u] + us)[..|us|] == [u] + us[..|us| - 1];
    }
  }

  lemma NothingAstray(cluster: Cluster, w: World)
    requires Consistent(cluster, w) && Strays(w) == {}
    ensures CachedClaims(w) == ClaimsOf(w)
  {
    forall u | u in ClaimsOf(w) ensures u in CachedClaims(w) {
      assert u in w.cache || u in Strays(w);
    }
    forall u | u in CachedClaims(w) ensures u in ClaimsOf(w) && ClaimsOf(w)[u] == CachedClaims(w)[u] { CachedClaim(w, u); }
  }

  /** Whatever add events are replayed, the cached pods keep the law. */
  ghost predicate Withstands(cluster: Cluster, w: World, law: Law) {
    forall us :: Replayable(w, us) ==> Keeps(cluster, CachedClaims(Replayed(w, us)), law)
  }

  /** A state withstands every replay exactly when the cached pods and the strays keep the
      law together. */
  lemma WithstandsIff(cluster: Cluster, w: World, law: Law)
    requires Consistent(cluster, w)
    ensures Withstands(cluster, w, law) <==> Keeps(cluster, ClaimsOf(w), law)
  {
    if Keeps(cluster, ClaimsOf(w), law) {
      forall us | Replayable(w, us) ensures Keeps(cluster, CachedClaims(Replayed(w, us)), law) {
        ReplayKeeps(cluster, w, us, law);
        ReplayConsistent(cluster, w, us);
        CachedAreClaims(cluster, Replayed(w, us));
        LighterKeeps(cluster, ClaimsOf(Replayed(w, us)), CachedClaims(Replayed(w, us)), law);
      }
    }
    if Withstands(cluster, w, law) {
      var us := ReplayAll(cluster, w);
      NothingAstray(cluster, Replayed(w, us));
    }
  }

  /** For capacity this is about the usage the scheduler rebuilds from its cache. */
  lemma WithstandsFits(cluster: Cluster, w: World)
    requires Consistent(cluster, w)
    ensures Withstands(cluster, w, CapacityLaw) <==> forall us :: Replayable(w, us) ==> CacheFits(cluster, Replayed(w, us).cache)
  {
    forall us | Replayable(w, us)
      ensures CacheFits(cluster, Replayed(w, us).cache) <==> Keeps(cluster, CachedClaims(Replayed(w, us)), CapacityLaw)
    {
      ReplayConsistent(cluster, w, us);
      CacheFitsIff(cluster, Replayed(w, us));
    }
  }

  /** A reservation withstands every later replay of annotations exactly when the placement
      leaves room for the pods that wait outside the cache. */
  lemma ReservationWithstandsIff(cluster: Cluster, w: World, u: string, node: string, snap: Snapshot, sel: Selection, raw: PodDevices, law: Law)
    requires Consistent(cluster, w) && CleanCluster(cluster) && Keeps(cluster, ClaimsOf(w), law)
    requires Reservable(cluster, w, u, node, snap, sel, raw)
    ensures Withstands(cluster, Reserved(w, u, node, raw), law) <==> LeavesRoom(cluster, w, u, node, snap, raw, law)
  {
    ReservedConsistent(cluster, w, u, node, snap, sel, raw);
    WithstandsIff(cluster, Reserved(w, u, node, raw), law);
    ReservedKeepsIff(cluster, w, u, node, snap, sel, raw, law);
  }

  /** A refit withstands every later replay exactly when it leaves room. */
  lemma RefitWithstandsIff(cluster: Cluster, w: World, u: string, idx: nat, row: ContainerDevices, mem: nat, cores: nat, sel: Selection, prepared: Snapshot, law: Law)
    requires Consistent(cluster, w) && CleanCluster(cluster) && Keeps(cluster, ClaimsOf(w), law)
    requires Refittable(cluster, w, u, idx, row, mem, cores, sel, prepared)
    ensures u in ClaimsOf(w) && ClaimsOf(w)[u].node in cluster && NVIDIA in ClaimsOf(w)[u].raw && idx < |ClaimsOf(w)[u].raw[NVIDIA]|
    ensures Withstands(cluster, Refitted(w, u, idx, row), law) <==> MoveLeavesRoom(cluster, w, u, idx, row, law)
  {
    RefittedConsistent(cluster, w, u, idx, row, mem, cores, sel, prepared);
    WithstandsIff(cluster, Refitted(w, u, idx, row), law);
    RefittedKeepsIff(cluster, w, u, idx, row, mem, cores, sel, prepared, law);
  }

  /** Every state of the run withstands every replay. */
  ghost predicate AlwaysWithstands(cluster: Cluster, w: World, steps: seq<Step>, law: Law) {
    Withstands(cluster, RunOf(w, steps), law) && (steps != [] ==> AlwaysWithstands(cluster, w, steps[..|steps| - 1], law))
  }

  lemma {:induction false} RunReplaysIff(cluster: Cluster, steps: seq<Step>, law: Law)
    requires CleanCluster(cluster) && Possible(cluster, EMPTY, steps)
    ensures AlwaysWithstands(cluster, EMPTY, steps, law) <==> AlwaysKeeps(cluster, EMPTY, steps, law)
  {
    RunConsistent(cluster, steps);
    WithstandsIff(cluster, RunOf(EMPTY, steps), law);
    if steps != [] { RunReplaysIff(cluster, steps[..|steps| - 1], law); }
  }

  /** A run keeps a law in every state and under every replay exactly when each reservation
      and each refit in it left room. */
  lemma RunWithstandsIff(cluster: Cluster, steps: seq<Step>, law: Law)
    requires CleanCluster(cluster) && Possible(cluster, EMPTY, steps)
    ensures AlwaysWithstands(cluster, EMPTY, steps, law) <==> GuardedAll(cluster, EMPTY, steps, law)
  {
    RunReplaysIff(cluster, steps, law);
    RunKeepsIff(cluster, steps, law);
  }
}
