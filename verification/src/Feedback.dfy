/** The monitor's feedback tick: containers with recent kernels count towards their
    devices, containers behind a more urgent one are blocked, and shared devices switch
    utilisation control on. */
module Feedback {

  /** A container as one tick sees it. A smaller priority number is more urgent. */
  datatype Task = Task(priority: int, uuids: seq<string>, recent: int, control: int)

  predicate Valid(uuid: string) {
    uuid != "" && uuid[0] != '\0'
  }

  /** The counter that a tick leaves positive. */
  predicate Active(t: Task) {
    t.recent >= 2
  }

  predicate Uses(t: Task, uuid: string) {
    uuid in t.uuids && Valid(uuid)
  }

  // ---------- What a tick does ----------

  /** `h` is strictly more urgent than `t`, active, and on the device. */
  predicate Outranks(h: Task, t: Task, uuid: string) {
    0 <= h.priority < t.priority && Active(h) && Uses(h, uuid)
  }

  /** A strictly more urgent active task shares a valid device. */
  ghost predicate Blocked(s: seq<Task>, t: Task) {
    exists h, uuid :: h in s && uuid in t.uuids && Outranks(h, t, uuid)
  }

  /** How many of the first `n` slots hold the valid device `uuid`. */
  function Slots(uuids: seq<string>, n: nat, uuid: string): nat
    requires n <= |uuids|
  {
    if n == 0 then 0 else Slots(uuids, n - 1, uuid) + if uuids[n - 1] == uuid && Valid(uuid) then 1 else 0
  }

  /** How many slots of active tasks of priority `p` hold the device. */
  function CountOn(s: seq<Task>, uuid: string, p: int): nat {
    if s == [] then 0
    else
      var t := s[|s| - 1];
      CountOn(s[..|s| - 1], uuid, p) + if Active(t) && t.priority == p && p >= 0 then Slots(t.uuids, |t.uuids|, uuid) else 0
  }

  /** A device of the task is wanted by a more urgent task, or by a second slot of the
      same priority. */
  ghost predicate Contended(s: seq<Task>, t: Task) {
    Blocked(s, t) || exists i :: 0 <= i < |t.uuids| && CountOn(s, t.uuids[i], t.priority) > 1
  }

  function Decremented(recent: int): int {
    if recent > 0 then recent - 1 else recent
  }

  /** A counter below zero is how a container is blocked. */
  function Settled(recent: int, blocked: bool): int {
    if blocked then (if recent >= 0 then -1 else recent) else if recent < 0 then 0 else recent
  }

  ghost function Ticked(s: seq<Task>, t: Task): Task {
    t.(recent := Settled(Decremented(t.recent), Blocked(s, t)), control := if Contended(s, t) then 1 else 0)
  }

  ghost function Tick(s: seq<Task>): seq<Task> {
    seq(|s|, i requires 0 <= i < |s| => Ticked(s, s[i]))
  }

  /** After a tick a task is blocked exactly when a strictly more urgent task whose counter
      was at least two shares a valid device with it. */
  lemma BlockedExactly(s: seq<Task>, i: nat)
    requires i < |s|
    ensures Tick(s)[i].recent < 0 <==> Blocked(s, s[i])
  {
  }

  /** A task of least priority number is never blocked. */
  lemma LeastNeverBlocked(s: seq<Task>, i: nat)
    requires i < |s| && forall j :: 0 <= j < |s| ==> s[i].priority <= s[j].priority
    ensures Tick(s)[i].recent >= 0
  {
    forall h | h in s ensures s[i].priority <= h.priority {
      var j :| 0 <= j < |s| && s[j] == h;
    }
  }

  ghost function Ticks(s: seq<Task>, n: nat): seq<Task> {
    if n == 0 then s else Tick(Ticks(s, n - 1))
  }

  /** Counters run down when nothing refreshes them. */
  lemma {:induction false} CountersRunDown(s: seq<Task>, bound: nat, n: nat)
    requires forall i :: 0 <= i < |s| ==> s[i].recent <= bound
    ensures |Ticks(s, n)| == |s| && forall i :: 0 <= i < |s| ==> Ticks(s, n)[i].recent <= (if bound > n then bound - n else 0)
  {
    if n > 0 { CountersRunDown(s, bound, n - 1); }
  }

  /** No starvation: with no counter refreshed, from `bound` ticks on nobody is blocked. */
  lemma NobodyStaysBlocked(s: seq<Task>, bound: nat, n: nat, i: nat)
    requires (forall j :: 0 <= j < |s| ==> s[j].recent <= bound) && n >= 1 && n >= bound && i < |s|
    ensures |Ticks(s, n)| == |s| && Ticks(s, n)[i].recent >= 0
  {
    var before := Ticks(s, n - 1);
    CountersRunDown(s, bound, n - 1);
    forall h | h in before ensures !Active(h) {
      var j :| 0 <= j < |before| && before[j] == h;
    }
    BlockedExactly(before, i);
  }

  // ---------- The counts ----------

  type Counts = map<string, map<int, nat>>

  function Lookup(on: Counts, uuid: string, p: int): nat {
    if uuid in on && p in on[uuid] then on[uuid][p] else 0
  }

  ghost predicate CountsOf(on: Counts, s: seq<Task>) {
    forall uuid, p :: Lookup(on, uuid, p) == CountOn(s, uuid, p)
  }

  lemma {:induction false} SlotsPositive(uuids: seq<string>, n: nat, uuid: string)
    requires n <= |uuids|
    ensures Slots(uuids, n, uuid) > 0 <==> Valid(uuid) && exists i :: 0 <= i < n && uuids[i] == uuid
  {
    if n > 0 { SlotsPositive(uuids, n - 1, uuid); }
  }

  lemma {:induction false} CountPositive(s: seq<Task>, uuid: string, p: int)
    ensures CountOn(s, uuid, p) > 0 <==> p >= 0 && exists h :: h in s && Active(h) && h.priority == p && Uses(h, uuid)
  {
    if s != [] {
      var front, t := s[..|s| - 1], s[|s| - 1];
      CountPositive(front, uuid, p);
      SlotsPositive(t.uuids, |t.uuids|, uuid);
      assert forall h :: h in s <==> h in front || h == t;
    }
  }

  /** Some count below the task's priority is positive exactly when the task is outranked. */
  lemma OutrankedByCount(s: seq<Task>, t: Task, uuid: string, p: int)
    ensures p < t.priority && CountOn(s, uuid, p) > 0 <==> exists h :: h in s && h.priority == p && Outranks(h, t, uuid)
  {
    CountPositive(s, uuid, p);
    if p < t.priority && CountOn(s, uuid, p) > 0 {
      var h :| h in s && Active(h) && h.priority == p && Uses(h, uuid);
      assert Outranks(h, t, uuid);
    }
  }

  method AddSlot(on: Counts, uuid: string, p: int) returns (on': Counts)
    ensures forall v, q :: Lookup(on', v, q) == Lookup(on, v, q) + if v == uuid && q == p then 1 else 0
  {
    on' := on;
    if uuid !in on' {
      on' := on'[uuid := map[]];
    }
    on' := on'[uuid := on'[uuid][p := (if p in on'[uuid] then on'[uuid][p] else 0) + 1]];
  }

  /** Counts the valid slots of an active task. */
  method CountTask(on: Counts, t: Task) returns (on': Counts)
    ensures forall uuid, p ::
      Lookup(on', uuid, p) == Lookup(on, uuid, p) + if t.priority == p && p >= 0 then Slots(t.uuids, |t.uuids|, uuid) else 0
  {
    on' := on;
    assert forall uuid :: Slots(t.uuids, 0, uuid) == 0;
    for i := 0 to |t.uuids|
      invariant forall uuid, p :: Lookup(on', uuid, p) == Lookup(on, uuid, p) + if t.priority == p && p >= 0 then Slots(t.uuids, i, uuid) else 0
    {
      if !Valid(t.uuids[i]) {
        continue;
      }
      if t.priority < 0 {
        continue;
      }
      on' := AddSlot(on', t.uuids[i], t.priority);
    }
  }

  // ---------- The checks ----------

  /** Some priority more urgent than `p` has a positive count. */
  method AnyUrgent(counts: map<int, nat>, p: int) returns (found: bool)
    ensures found <==> exists q :: q in counts && q < p && counts[q] > 0
  {
    var todo := counts.Items;
    while todo != {}
      invariant todo <= counts.Items && forall q :: q in counts && (q, counts[q]) !in todo ==> !(q < p && counts[q] > 0)
    {
      var item :| item in todo;
      assert item.0 in counts && counts[item.0] == item.1;
      if item.0 < p && item.1 > 0 {
        return true;
      }
      todo := todo - {item};
    }
    return false;
  }

  method HasUrgent(on: Counts, uuid: string, p: int) returns (found: bool)
    ensures found <==> exists q :: q < p && Lookup(on, uuid, q) > 0
  {
    if uuid !in on {
      return false;
    }
    found := AnyUrgent(on[uuid], p);
    if found {
      ghost var q :| q in on[uuid] && q < p && on[uuid][q] > 0;
      assert Lookup(on, uuid, q) > 0;
    }
  }

  lemma UrgentIsOutranked(on: Counts, s: seq<Task>, t: Task, uuid: string)
    requires CountsOf(on, s)
    ensures (exists q :: q < t.priority && Lookup(on, uuid, q) > 0) <==> exists h :: h in s && Outranks(h, t, uuid)
  {
    if q :| q < t.priority && Lookup(on, uuid, q) > 0 { OutrankedByCount(s, t, uuid, q); }
    if h :| h in s && Outranks(h, t, uuid) { OutrankedByCount(s, t, uuid, h.priority); }
  }

  method CheckBlocking(on: Counts, t: Task, ghost s: seq<Task>) returns (blocked: bool)
    requires CountsOf(on, s)
    ensures blocked <==> Blocked(s, t)
  {
    for i := 0 to |t.uuids|
      invariant forall j :: 0 <= j < i ==> !exists h :: h in s && Outranks(h, t, t.uuids[j])
    {
      var found := HasUrgent(on, t.uuids[i], t.priority);
      UrgentIsOutranked(on, s, t, t.uuids[i]);
      if found {
        return true;
      }
    }
    return false;
  }

  method CheckPriority(on: Counts, t: Task, ghost s: seq<Task>) returns (contended: bool)
    requires CountsOf(on, s)
    ensures contended <==> Contended(s, t)
  {
    for i := 0 to |t.uuids|
      invariant forall j :: 0 <= j < i ==> !(exists h :: h in s && Outranks(h, t, t.uuids[j])) && CountOn(s, t.uuids[j], t.priority) <= 1
    {
      var found := HasUrgent(on, t.uuids[i], t.priority);
      UrgentIsOutranked(on, s, t, t.uuids[i]);
      if found {
        return true;
      }
      if Lookup(on, t.uuids[i], t.priority) > 1 {
        return true;
      }
    }
    return false;
  }

  // ---------- The tick ----------

  /** The shared region of a container. */
  class Region {
    const priority: int
    const uuids: seq<string>
    var recentKernel: int
    var utilizationSwitch: int

    constructor (priority: int, uuids: seq<string>)
      ensures this.priority == priority && this.uuids == uuids && recentKernel == 0 && utilizationSwitch == 0
    {
      this.priority, this.uuids, recentKernel, utilizationSwitch := priority, uuids, 0, 0;
    }

    function Seen(): Task
      reads this
    {
      Task(priority, uuids, recentKernel, utilizationSwitch)
    }
  }

  function Views(cs: seq<Region>): seq<Task>
    reads cs
  {
    seq(|cs|, i requires 0 <= i < |cs| reads cs => cs[i].Seen())
  }

  predicate Separate(cs: seq<Region>) {
    forall i, j :: 0 <= i < j < |cs| ==> cs[i] != cs[j]
  }

  /** Counts the active containers and lets every counter run down by one. */
  method Gather(cs: seq<Region>) returns (on: Counts)
    requires Separate(cs)
    modifies cs
    ensures CountsOf(on, old(Views(cs)))
    ensures forall i :: 0 <= i < |cs| ==> cs[i].Seen() == old(cs[i].Seen()).(recent := Decremented(old(cs[i].recentKernel)))
  {
    on := map[];
    ghost var s := Views(cs);
    assert s[..0] == [];
    for i := 0 to |cs|
      invariant CountsOf(on, s[..i])
      invariant forall j :: 0 <= j < i ==> cs[j].Seen() == s[j].(recent := Decremented(s[j].recent))
      invariant forall j :: i <= j < |cs| ==> cs[j].Seen() == s[j]
    {
      var c := cs[i];
      assert s[..i + 1][..i] == s[..i];
      if c.recentKernel > 0 {
        if c.recentKernel - 1 > 0 {
          on := CountTask(on, c.Seen());
        }
        c.recentKernel := c.recentKernel - 1;
      }
    }
    assert s[..|s|] == s;
  }

  /** Blocks and unblocks one container and sets its utilisation control. */
  method Settle(c: Region, on: Counts, ghost s: seq<Task>)
    requires CountsOf(on, s)
    modifies c
    ensures var t := old(c.Seen());
      c.Seen() == t.(recent := Settled(t.recent, Blocked(s, t)), control := if Contended(s, t) then 1 else 0)
  {
    var t := c.Seen();
    var blocked := CheckBlocking(on, t, s);
    if blocked {
      if c.recentKernel >= 0 {
        c.recentKernel := -1;
      }
    } else if c.recentKernel < 0 {
      c.recentKernel := 0;
    }
    var contended := CheckPriority(on, t, s);
    if contended {
      if c.utilizationSwitch != 1 {
        c.utilizationSwitch := 1;
      }
    } else if c.utilizationSwitch != 0 {
      c.utilizationSwitch := 0;
    }
  }

  /** Whether a task is blocked or contended does not depend on its own counter. */
  lemma OwnCounterIrrelevant(s: seq<Task>, t: Task, recent: int)
    ensures Blocked(s, t.(recent := recent)) == Blocked(s, t) && Contended(s, t.(recent := recent)) == Contended(s, t)
  {
    var u := t.(recent := recent);
    forall h, uuid ensures Outranks(h, u, uuid) == Outranks(h, t, uuid) {}
  }

  /** Settling a counter that ran down completes the tick of a task. */
  lemma SettledIsTicked(s: seq<Task>, t: Task)
    ensures var u := t.(recent := Decremented(t.recent));
      u.(recent := Settled(u.recent, Blocked(s, u)), control := if Contended(s, u) then 1 else 0) == Ticked(s, t)
  {
    OwnCounterIrrelevant(s, t, Decremented(t.recent));
  }

  method Observe(cs: seq<Region>)
    requires Separate(cs)
    modifies cs
    ensures Views(cs) == Tick(old(Views(cs)))
    ensures forall i :: 0 <= i < |cs| ==> (cs[i].recentKernel < 0 <==> Blocked(old(Views(cs)), old(cs[i].Seen())))
  {
    ghost var s := Views(cs);
    var on := Gather(cs);
    for i := 0 to |cs|
      invariant forall j :: 0 <= j < i ==> cs[j].Seen() == Ticked(s, s[j])
      invariant forall j :: i <= j < |cs| ==> cs[j].Seen() == s[j].(recent := Decremented(s[j].recent))
    {
      SettledIsTicked(s, s[i]);
      Settle(cs[i], on, s);
    }
  }

  // ---------- Ticks in terms of the tasks ----------

  /** A slot of an active task of priority `p` that holds the device. */
  predicate SlotOf(s: seq<Task>, uuid: string, p: int, j: nat, a: nat) {
    && j < |s| && a < |s[j].uuids| && s[j].uuids[a] == uuid && uuid != "" && uuid[0] != '\0'
    && s[j].recent >= 2 && s[j].priority == p && p >= 0
  }

  /** Two different positions among the first `n` slots hold the device. */
  ghost predicate TwoSlots(uuids: seq<string>, n: nat, uuid: string) {
    exists a, b :: 0 <= a < b < n <= |uuids| && uuids[a] == uuid && uuids[b] == uuid
  }

  lemma {:induction false} SlotsTwo(uuids: seq<string>, n: nat, uuid: string)
    requires n <= |uuids|
    ensures Slots(uuids, n, uuid) > 1 <==> Valid(uuid) && TwoSlots(uuids, n, uuid)
  {
    if n > 0 {
      SlotsTwo(uuids, n - 1, uuid);
      SlotsPositive(uuids, n - 1, uuid);
      if TwoSlots(uuids, n, uuid) {
        var a, b :| 0 <= a < b < n && uuids[a] == uuid && uuids[b] == uuid;
        assert b < n - 1 ==> TwoSlots(uuids, n - 1, uuid);
      }
    }
  }

  ghost predicate TwoSlotsOf(s: seq<Task>, uuid: string, p: int) {
    exists j: nat, a: nat, k: nat, b: nat :: SlotOf(s, uuid, p, j, a) && SlotOf(s, uuid, p, k, b) && (j < k || (j == k && a < b))
  }

  ghost predicate AnySlot(s: seq<Task>, uuid: string, p: int) {
    exists j: nat, a: nat :: SlotOf(s, uuid, p, j, a)
  }

  ghost predicate HasSlot(s: seq<Task>, uuid: string, p: int, j: nat) {
    exists a: nat :: SlotOf(s, uuid, p, j, a)
  }

  /** Two slots of the tasks: both among the first ones, one there and one in the last task,
      or both in the last. */
  ghost predicate Divided(s: seq<Task>, uuid: string, p: int)
    requires s != []
  {
    var front, t := s[..|s| - 1], s[|s| - 1];
    || TwoSlotsOf(front, uuid, p)
    || (HasSlot(s, uuid, p, |front|) && AnySlot(front, uuid, p))
    || (t.recent >= 2 && t.priority == p && p >= 0 && Valid(uuid) && TwoSlots(t.uuids, |t.uuids|, uuid))
  }

  lemma SlotFound(s: seq<Task>, uuid: string, p: int)
    ensures CountOn(s, uuid, p) > 0 <==> AnySlot(s, uuid, p)
  {
    CountPositive(s, uuid, p);
    if CountOn(s, uuid, p) > 0 {
      var h :| h in s && Active(h) && h.priority == p && Uses(h, uuid);
      var j :| 0 <= j < |s| && s[j] == h;
      var a :| 0 <= a < |h.uuids| && h.uuids[a] == uuid;
      assert SlotOf(s, uuid, p, j, a);
    }
    if j: nat, a: nat :| SlotOf(s, uuid, p, j, a) { assert s[j] in s && Uses(s[j], uuid); }
  }

  lemma TwoDivided(s: seq<Task>, uuid: string, p: int)
    requires s != [] && TwoSlotsOf(s, uuid, p)
    ensures Divided(s, uuid, p)
  {
    var front, t := s[..|s| - 1], s[|s| - 1];
    var j: nat, a: nat, k: nat, b: nat :| SlotOf(s, uuid, p, j, a) && SlotOf(s, uuid, p, k, b) && (j < k || (j == k && a < b));
    if k < |front| {
      assert SlotOf(front, uuid, p, j, a) && SlotOf(front, uuid, p, k, b);
    } else if j < |front| {
      assert SlotOf(front, uuid, p, j, a) && SlotOf(s, uuid, p, |front|, b);
    } else {
      assert TwoSlots(t.uuids, |t.uuids|, uuid);
    }
  }

  lemma DividedTwo(s: seq<Task>, uuid: string, p: int)
    requires s != [] && Divided(s, uuid, p)
    ensures TwoSlotsOf(s, uuid, p)
  {
    var front, t := s[..|s| - 1], s[|s| - 1];
    if TwoSlotsOf(front, uuid, p) {
      var j: nat, a: nat, k: nat, b: nat :| SlotOf(front, uuid, p, j, a) && SlotOf(front, uuid, p, k, b) && (j < k || (j == k && a < b));
      assert SlotOf(s, uuid, p, j, a) && SlotOf(s, uuid, p, k, b);
    } else if HasSlot(s, uuid, p, |front|) && AnySlot(front, uuid, p) {
      var b: nat :| SlotOf(s, uuid, p, |front|, b);
      var j: nat, a: nat :| SlotOf(front, uuid, p, j, a);
      assert SlotOf(s, uuid, p, j, a);
    } else {
      var a, b :| 0 <= a < b < |t.uuids| && t.uuids[a] == uuid && t.uuids[b] == uuid;
      assert SlotOf(s, uuid, p, |front|, a) && SlotOf(s, uuid, p, |front|, b);
    }
  }

  /** More than one slot is counted exactly when there are two. */
  lemma {:induction false} CountTwo(s: seq<Task>, uuid: string, p: int)
    ensures CountOn(s, uuid, p) > 1 <==> TwoSlotsOf(s, uuid, p)
  {
    if s != [] {
      var front, t := s[..|s| - 1], s[|s| - 1];
      CountTwo(front, uuid, p);
      SlotFound(front, uuid, p);
      SlotsTwo(t.uuids, |t.uuids|, uuid);
      SlotsPositive(t.uuids, |t.uuids|, uuid);
      if TwoSlotsOf(s, uuid, p) { TwoDivided(s, uuid, p); }
      if Divided(s, uuid, p) { DividedTwo(s, uuid, p); }
      if Active(t) && t.priority == p && p >= 0 && Slots(t.uuids, |t.uuids|, uuid) > 0 {
        var a :| 0 <= a < |t.uuids| && t.uuids[a] == uuid;
        assert SlotOf(s, uuid, p, |front|, a);
      }
    }
  }

  /** A task of a smaller priority number with a recent kernel holds a device of task `i`. */
  ghost predicate Overtaken(s: seq<Task>, i: nat)
    requires i < |s|
  {
    exists p: int, j: nat, a: nat, b: nat :: 0 <= b < |s[i].uuids| && p < s[i].priority && SlotOf(s, s[i].uuids[b], p, j, a)
  }

  /** Two slots of the task's own priority hold a device of the task. */
  ghost predicate Crowded(s: seq<Task>, i: nat)
    requires i < |s|
  {
    exists b :: 0 <= b < |s[i].uuids| && TwoSlotsOf(s, s[i].uuids[b], s[i].priority)
  }

  lemma BlockedIff(s: seq<Task>, i: nat)
    requires i < |s|
    ensures Blocked(s, s[i]) <==> Overtaken(s, i)
  {
    if Blocked(s, s[i]) {
      var h, uuid :| h in s && uuid in s[i].uuids && Outranks(h, s[i], uuid);
      var j :| 0 <= j < |s| && s[j] == h;
      var a :| 0 <= a < |h.uuids| && h.uuids[a] == uuid;
      var b :| 0 <= b < |s[i].uuids| && s[i].uuids[b] == uuid;
      assert SlotOf(s, s[i].uuids[b], h.priority, j, a);
    }
    if Overtaken(s, i) {
      var p: int, j: nat, a: nat, b: nat :| 0 <= b < |s[i].uuids| && p < s[i].priority && SlotOf(s, s[i].uuids[b], p, j, a);
      assert s[j] in s && Outranks(s[j], s[i], s[i].uuids[b]);
    }
  }

  /** What a tick leaves: counters fall by one and stop at zero, a blocked task has a counter
      below zero, and control is on exactly where a device is wanted more urgently or twice. */
  lemma TickExactly(s: seq<Task>, i: nat)
    requires i < |s|
    ensures Overtaken(s, i) ==> Tick(s)[i].recent == if s[i].recent >= 0 then -1 else s[i].recent
    ensures !Overtaken(s, i) ==> Tick(s)[i].recent == if s[i].recent > 0 then s[i].recent - 1 else 0
    ensures Tick(s)[i].control == if Overtaken(s, i) || Crowded(s, i) then 1 else 0
    ensures Tick(s)[i].priority == s[i].priority && Tick(s)[i].uuids == s[i].uuids
  {
    BlockedIff(s, i);
    forall b | 0 <= b < |s[i].uuids| ensures CountOn(s, s[i].uuids[b], s[i].priority) > 1 <==> TwoSlotsOf(s, s[i].uuids[b], s[i].priority) {
      CountTwo(s, s[i].uuids[b], s[i].priority);
    }
  }
}
