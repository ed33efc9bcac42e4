/** A search through a device list from its end. A NUMA-bound search starts over whenever the
    next device it reaches is on another node, so what it can find are stretches of the list
    whose reached devices are on one node. */
module Stretches {
  import opened Devices
  import opened Counting

  /** A device list, the devices at which the search looks, and those it can use. */
  datatype Listing = Listing(devices: seq<DeviceUsage>, reached: DeviceUsage -> bool, good: DeviceUsage -> bool, bind: bool)

  ghost predicate Sound(l: Listing) {
    forall i :: 0 <= i < |l.devices| && l.good(l.devices[i]) ==> l.reached(l.devices[i])
  }

  function NumaAt(l: Listing, i: nat): int
    requires i < |l.devices|
  {
    l.devices[i].info.numa
  }

  /** The usable devices in positions `lo` to `hi`. */
  ghost function CountIn(l: Listing, lo: nat, hi: nat): (n: nat)
    requires lo <= hi <= |l.devices|
    ensures n <= hi - lo
    decreases hi - lo
  {
    if lo == hi then 0 else CountIn(l, lo + 1, hi) + if l.good(l.devices[lo]) then 1 else 0
  }

  /** When bound, the devices the search reaches between `lo` and `hi` are on one node. */
  ghost predicate OneNode(l: Listing, lo: nat, hi: nat)
    requires lo <= hi <= |l.devices|
  {
    l.bind ==> forall i, j :: lo <= i < j < hi && l.reached(l.devices[i]) && l.reached(l.devices[j]) ==> NumaAt(l, i) == NumaAt(l, j)
  }

  ghost predicate Serves(l: Listing, lo: nat, hi: nat, n: nat) {
    lo <= hi <= |l.devices| && OneNode(l, lo, hi) && CountIn(l, lo, hi) >= n
  }

  /** Some stretch on one node has `n` usable devices. */
  ghost predicate Enough(l: Listing, n: nat) {
    exists lo: nat, hi: nat :: Serves(l, lo, hi, n)
  }

  /** A stretch at the front of the list does. */
  ghost predicate FrontEnough(l: Listing, n: nat) {
    exists hi: nat :: Serves(l, 0, hi, n)
  }

  // ---------- Stretches that cannot be longer ----------

  /** The stretch from `lo` that ends only at a device of another node, or with the list. */
  ghost predicate Longest(l: Listing, lo: nat, hi: nat) {
    && lo <= hi <= |l.devices| && OneNode(l, lo, hi)
    && (hi < |l.devices| ==> l.bind && l.reached(l.devices[hi]) && exists j :: lo <= j < hi && l.reached(l.devices[j]) && NumaAt(l, j) != NumaAt(l, hi))
  }

  lemma LongestUnique(l: Listing, lo: nat, a: nat, b: nat)
    requires Longest(l, lo, a) && Longest(l, lo, b)
    ensures a == b
  {
  }

  lemma {:induction false} CountShorter(l: Listing, lo: nat, hi: nat, end: nat)
    requires lo <= hi <= end <= |l.devices|
    ensures CountIn(l, lo, hi) <= CountIn(l, lo, end)
    decreases hi - lo
  {
    if lo < hi { CountShorter(l, lo + 1, hi, end); }
  }

  lemma {:induction false} SomeGood(l: Listing, lo: nat, hi: nat) returns (i: nat)
    requires lo <= hi <= |l.devices| && CountIn(l, lo, hi) > 0
    ensures lo <= i < hi && l.good(l.devices[i])
    decreases hi - lo
  {
    if l.good(l.devices[lo]) { i := lo; } else { i := SomeGood(l, lo + 1, hi); }
  }

  /** A stretch with a reached device can be made longest. */
  lemma {:induction false} Extend(l: Listing, lo: nat, hi: nat, j: nat) returns (end: nat)
    requires lo <= j < hi <= |l.devices| && OneNode(l, lo, hi) && l.reached(l.devices[j])
    ensures hi <= end && Longest(l, lo, end)
    decreases |l.devices| - hi
  {
    if hi == |l.devices| || (l.bind && l.reached(l.devices[hi]) && NumaAt(l, hi) != NumaAt(l, j)) {
      end := hi;
    } else {
      OneNodeMore(l, lo, hi, j);
      end := Extend(l, lo, hi + 1, j);
    }
  }

  lemma OneNodeMore(l: Listing, lo: nat, hi: nat, j: nat)
    requires lo <= j < hi < |l.devices| && OneNode(l, lo, hi) && l.reached(l.devices[j])
    requires l.bind && l.reached(l.devices[hi]) ==> NumaAt(l, hi) == NumaAt(l, j)
    ensures OneNode(l, lo, hi + 1)
  {
    if l.bind {
      forall i | lo <= i < hi && l.reached(l.devices[i]) ensures NumaAt(l, i) == NumaAt(l, j) {
        if i < j { assert NumaAt(l, i) == NumaAt(l, j); } else if j < i { assert NumaAt(l, j) == NumaAt(l, i); }
      }
    }
  }

  // ---------- What a search gathers ----------

  /** A search: what a device is granted with, and which devices may join a row. */
  datatype Hunt = Hunt(list: Listing, grant: DeviceUsage -> ContainerDevice, fits: (ContainerDevices, DeviceUsage) -> bool)

  ghost predicate Takes(h: Hunt, row: ContainerDevices, dev: DeviceUsage) {
    h.list.good(dev) && h.fits(row, dev)
  }

  /** The grants on the positions from `hi` down to `lo`: each usable device that may join
      those before it. */
  ghost function Gathered(h: Hunt, lo: nat, hi: nat): (row: ContainerDevices)
    requires lo <= hi <= |h.list.devices|
    ensures |row| <= hi - lo
    decreases hi - lo
  {
    if lo == hi then []
    else
      var row, dev := Gathered(h, lo + 1, hi), h.list.devices[lo];
      if Takes(h, row, dev) then row + [h.grant(dev)] else row
  }

  /** No stretch from `i` on gives `n` devices. */
  ghost predicate Missed(h: Hunt, n: nat, i: nat) {
    forall lo: nat, hi: nat :: i <= lo && Longest(h.list, lo, hi) ==> |Gathered(h, lo, hi)| < n
  }

  /** The row of the first position, from the end, at which a stretch has given `n` devices. */
  ghost predicate Finds(h: Hunt, n: nat, row: ContainerDevices) {
    exists lo: nat, hi: nat :: Longest(h.list, lo, hi) && row == Gathered(h, lo, hi) && |row| == n && Missed(h, n, lo + 1)
  }

  lemma {:induction false} GatheredNone(h: Hunt, lo: nat, hi: nat)
    requires Sound(h.list) && lo <= hi <= |h.list.devices| && forall j :: lo <= j < hi ==> !h.list.reached(h.list.devices[j])
    ensures Gathered(h, lo, hi) == []
    decreases hi - lo
  {
    if lo < hi { GatheredNone(h, lo + 1, hi); }
  }

  /** Every grant is that of a usable device of the stretch. */
  lemma {:induction false} GatheredFrom(h: Hunt, lo: nat, hi: nat, x: nat) returns (i: nat)
    requires lo <= hi <= |h.list.devices| && x < |Gathered(h, lo, hi)|
    ensures lo <= i < hi && h.list.good(h.list.devices[i]) && Gathered(h, lo, hi)[x] == h.grant(h.list.devices[i])
    decreases hi - lo
  {
    if x < |Gathered(h, lo + 1, hi)| { i := GatheredFrom(h, lo + 1, hi, x); } else { i := lo; }
  }

  /** So a bound search gathers devices of one node. */
  lemma GatheredOneNode(h: Hunt, lo: nat, hi: nat, x: nat, y: nat) returns (i: nat, j: nat)
    requires Sound(h.list) && h.list.bind && Longest(h.list, lo, hi) && x < |Gathered(h, lo, hi)| && y < |Gathered(h, lo, hi)|
    ensures i < |h.list.devices| && j < |h.list.devices| && NumaAt(h.list, i) == NumaAt(h.list, j)
    ensures Gathered(h, lo, hi)[x] == h.grant(h.list.devices[i]) && Gathered(h, lo, hi)[y] == h.grant(h.list.devices[j])
  {
    i := GatheredFrom(h, lo, hi, x);
    j := GatheredFrom(h, lo, hi, y);
    if i < j { assert NumaAt(h.list, i) == NumaAt(h.list, j); } else if j < i { assert NumaAt(h.list, j) == NumaAt(h.list, i); }
  }

  // ---------- The state of the search ----------

  /** Before position `i - 1`: the current stretch ends at `hi`, `last` is the lowest position
      reached, and it is on node `run`. */
  ghost predicate Scanning(l: Listing, i: nat, run: int, hi: nat, last: nat) {
    && i <= last <= |l.devices| && Longest(l, i, hi)
    && (forall j :: i <= j < last ==> !l.reached(l.devices[j]))
    && (last < |l.devices| ==> last < hi && l.reached(l.devices[last]) && (l.bind ==> NumaAt(l, last) == run))
    && (last == |l.devices| ==> hi == |l.devices|)
  }

  /** The row holds what the current stretch gave. */
  ghost predicate Hunting(h: Hunt, i: nat, run: int, hi: nat, last: nat, row: ContainerDevices) {
    Scanning(h.list, i, run, hi, last) && row == Gathered(h, i, hi)
  }

  /** Position `i` is reached and belongs to the stretch; the row holds what came before it. */
  ghost predicate Entered(h: Hunt, i: nat, run: int, hi: nat, row: ContainerDevices) {
    i < hi <= |h.list.devices| && Scanning(h.list, i, run, hi, i) && row == Gathered(h, i + 1, hi)
  }

  lemma HuntStart(h: Hunt, run: int, n: nat)
    requires n > 0
    ensures Hunting(h, |h.list.devices|, run, |h.list.devices|, |h.list.devices|, []) && Missed(h, n, |h.list.devices|)
  {
  }

  lemma HuntSkip(h: Hunt, i: nat, run: int, hi: nat, last: nat, row: ContainerDevices)
    requires Sound(h.list) && i < |h.list.devices| && Hunting(h, i + 1, run, hi, last, row) && !h.list.reached(h.list.devices[i])
    ensures Hunting(h, i, run, hi, last, row)
  {
  }

  /** A device of another node starts a stretch of its own. */
  lemma HuntOpen(h: Hunt, i: nat, run: int, hi: nat, last: nat, row: ContainerDevices)
    requires Sound(h.list) && i < |h.list.devices| && Hunting(h, i + 1, run, hi, last, row) && h.list.reached(h.list.devices[i])
    requires h.list.bind && NumaAt(h.list, i) != run
    ensures Entered(h, i, NumaAt(h.list, i), last, [])
  {
    GatheredNone(h, i + 1, last);
  }

  lemma HuntStay(h: Hunt, i: nat, run: int, hi: nat, last: nat, row: ContainerDevices)
    requires i < |h.list.devices| && Hunting(h, i + 1, run, hi, last, row) && h.list.reached(h.list.devices[i])
    requires h.list.bind ==> NumaAt(h.list, i) == run
    ensures Entered(h, i, run, hi, row)
  {
    var l := h.list;
    if l.bind && last < |l.devices| {
      forall j | i < j < hi && l.reached(l.devices[j]) ensures NumaAt(l, j) == run {
        if last < j { assert NumaAt(l, last) == NumaAt(l, j); }
      }
    }
  }

  lemma HuntNext(h: Hunt, i: nat, run: int, hi: nat, row: ContainerDevices)
    requires Entered(h, i, run, hi, row)
    ensures var dev := h.list.devices[i]; Hunting(h, i, run, hi, i, if Takes(h, row, dev) then row + [h.grant(dev)] else row)
  {
  }

  lemma MissedSkip(h: Hunt, n: nat, i: nat)
    requires Sound(h.list) && i < |h.list.devices| && n > 0 && Missed(h, n, i + 1) && !h.list.reached(h.list.devices[i])
    ensures Missed(h, n, i)
  {
    var l := h.list;
    forall lo: nat, hi: nat | i <= lo && Longest(l, lo, hi) ensures |Gathered(h, lo, hi)| < n {
      if lo == i < hi {
        if hi < |l.devices| { assert exists j :: lo < j < hi && l.reached(l.devices[j]) && NumaAt(l, j) != NumaAt(l, hi); }
        assert Longest(l, i + 1, hi);
      }
    }
  }

  lemma MissedNext(h: Hunt, n: nat, i: nat, hi: nat)
    requires Longest(h.list, i, hi) && Missed(h, n, i + 1) && |Gathered(h, i, hi)| < n
    ensures Missed(h, n, i)
  {
    forall lo: nat, end: nat | i <= lo && Longest(h.list, lo, end) ensures |Gathered(h, lo, end)| < n {
      if lo == i { LongestUnique(h.list, i, hi, end); }
    }
  }

  lemma {:induction false} FrontStretch(l: Listing) returns (hi: nat)
    ensures Longest(l, 0, hi)
  {
    if j :| 0 <= j < |l.devices| && l.reached(l.devices[j]) && (forall i :: 0 <= i < j ==> !l.reached(l.devices[i])) {
      hi := Extend(l, 0, j + 1, j);
    } else {
      NothingReached(l, |l.devices|);
      hi := |l.devices|;
    }
  }

  lemma {:induction false} NothingReached(l: Listing, n: nat)
    requires n <= |l.devices| && forall j :: 0 <= j < |l.devices| && l.reached(l.devices[j]) ==> exists i :: 0 <= i < j && l.reached(l.devices[i])
    ensures forall j :: 0 <= j < n ==> !l.reached(l.devices[j])
  {
    if n > 0 { NothingReached(l, n - 1); }
  }

  lemma FewMissed(h: Hunt, n: nat)
    requires |h.list.devices| < n
    ensures Missed(h, n, 0)
  {
  }

  // ---------- Searches that agree on the list ----------

  ghost predicate SameHunts(a: Hunt, b: Hunt) {
    a.list.devices == b.list.devices && a.list.bind == b.list.bind && forall i :: 0 <= i < |a.list.devices| ==> SameOn(a, b, a.list.devices[i])
  }

  ghost predicate SameOn(a: Hunt, b: Hunt, dev: DeviceUsage) {
    && a.list.reached(dev) == b.list.reached(dev) && a.list.good(dev) == b.list.good(dev) && a.grant(dev) == b.grant(dev)
    && forall row :: a.fits(row, dev) == b.fits(row, dev)
  }

  lemma {:induction false} SameGathered(a: Hunt, b: Hunt, lo: nat, hi: nat)
    requires SameHunts(a, b) && lo <= hi <= |a.list.devices|
    ensures Gathered(a, lo, hi) == Gathered(b, lo, hi)
    decreases hi - lo
  {
    if lo < hi {
      SameGathered(a, b, lo + 1, hi);
      assert SameOn(a, b, a.list.devices[lo]);
    }
  }

  lemma SameLongest(a: Hunt, b: Hunt, lo: nat, hi: nat)
    requires SameHunts(a, b)
    ensures Longest(a.list, lo, hi) <==> Longest(b.list, lo, hi)
  {
    forall i | 0 <= i < |a.list.devices| ensures a.list.reached(a.list.devices[i]) == b.list.reached(a.list.devices[i]) {
      assert SameOn(a, b, a.list.devices[i]);
    }
  }

  lemma SameMissed(a: Hunt, b: Hunt, n: nat, i: nat)
    requires SameHunts(a, b)
    ensures Missed(a, n, i) <==> Missed(b, n, i)
  {
    forall lo: nat, hi: nat | Longest(a.list, lo, hi) || Longest(b.list, lo, hi)
      ensures Longest(a.list, lo, hi) && Longest(b.list, lo, hi) && Gathered(a, lo, hi) == Gathered(b, lo, hi)
    {
      SameLongest(a, b, lo, hi);
      SameGathered(a, b, lo, hi);
    }
  }

  lemma SameFinds(a: Hunt, b: Hunt, n: nat, row: ContainerDevices)
    requires SameHunts(a, b) && Finds(a, n, row)
    ensures Finds(b, n, row)
  {
    var lo: nat, hi: nat :| Longest(a.list, lo, hi) && row == Gathered(a, lo, hi) && |row| == n && Missed(a, n, lo + 1);
    SameLongest(a, b, lo, hi);
    SameGathered(a, b, lo, hi);
    SameMissed(a, b, n, lo + 1);
  }

  // ---------- Searches that nothing but the devices restricts ----------

  ghost predicate Unrestricted(h: Hunt) {
    forall row, dev :: h.fits(row, dev)
  }

  lemma {:induction false} GatheredCount(h: Hunt, lo: nat, hi: nat)
    requires Unrestricted(h) && lo <= hi <= |h.list.devices|
    ensures |Gathered(h, lo, hi)| == CountIn(h.list, lo, hi)
    decreases hi - lo
  {
    if lo < hi { GatheredCount(h, lo + 1, hi); }
  }

  /** Its row has the grants of exactly the usable devices of the stretch. */
  lemma {:induction false} GatheredExactly(h: Hunt, lo: nat, hi: nat, e: ContainerDevice)
    requires Unrestricted(h) && lo <= hi <= |h.list.devices|
    ensures e in Gathered(h, lo, hi) <==> exists j :: lo <= j < hi && h.list.good(h.list.devices[j]) && e == h.grant(h.list.devices[j])
    decreases hi - lo
  {
    if lo < hi { GatheredExactly(h, lo + 1, hi, e); }
  }

  /** It finds nothing exactly when no stretch is large enough. */
  lemma MissedIff(h: Hunt, n: nat)
    requires Unrestricted(h) && Sound(h.list) && n > 0
    ensures Missed(h, n, 0) <==> !Enough(h.list, n)
  {
    var l := h.list;
    if !Missed(h, n, 0) {
      var lo: nat, hi: nat :| Longest(l, lo, hi) && |Gathered(h, lo, hi)| >= n;
      GatheredCount(h, lo, hi);
      assert Serves(l, lo, hi, n);
    }
    if Enough(l, n) {
      var lo: nat, hi: nat :| Serves(l, lo, hi, n);
      var j := SomeGood(l, lo, hi);
      var end := Extend(l, lo, hi, j);
      CountShorter(l, lo, hi, end);
      GatheredCount(h, lo, end);
    }
  }

  lemma FrontIff(h: Hunt, hi: nat, n: nat)
    requires Unrestricted(h) && Sound(h.list) && Longest(h.list, 0, hi) && n > 0
    ensures FrontEnough(h.list, n) <==> |Gathered(h, 0, hi)| >= n
  {
    var l := h.list;
    GatheredCount(h, 0, hi);
    if CountIn(l, 0, hi) >= n { assert Serves(l, 0, hi, n); }
    if FrontEnough(l, n) {
      var end: nat :| Serves(l, 0, end, n);
      var j := SomeGood(l, 0, end);
      var far := Extend(l, 0, end, j);
      LongestUnique(l, 0, far, hi);
      CountShorter(l, 0, end, far);
    }
  }

  // ---------- What a restricted search misses ----------

  /** A usable device was turned away because it did not fit the fewer than `n` devices that
      the search had gathered. */
  ghost predicate TurnedAway(h: Hunt, n: nat, lo: nat, hi: nat) {
    && lo < hi <= |h.list.devices| && h.list.good(h.list.devices[lo])
    && |Gathered(h, lo + 1, hi)| < n && !h.fits(Gathered(h, lo + 1, hi), h.list.devices[lo])
  }

  /** Where too few were gathered of a stretch with enough usable devices, one was turned away. */
  lemma {:induction false} SomeTurnedAway(h: Hunt, n: nat, lo: nat, hi: nat) returns (i: nat)
    requires lo <= hi <= |h.list.devices| && |Gathered(h, lo, hi)| < n && |Gathered(h, lo, hi)| < CountIn(h.list, lo, hi)
    ensures TurnedAway(h, n, i, hi)
    decreases hi - lo
  {
    var dev := h.list.devices[lo];
    if h.list.good(dev) && !h.fits(Gathered(h, lo + 1, hi), dev) {
      i := lo;
    } else {
      i := SomeTurnedAway(h, n, lo + 1, hi);
    }
  }

  /** A search that finds nothing where a stretch is large enough turned a device away. */
  lemma MissedTurnsAway(h: Hunt, n: nat)
    requires Sound(h.list) && n > 0 && Missed(h, n, 0) && Enough(h.list, n)
    ensures exists lo: nat, hi: nat :: TurnedAway(h, n, lo, hi)
  {
    var l := h.list;
    var lo: nat, hi: nat :| Serves(l, lo, hi, n);
    var j := SomeGood(l, lo, hi);
    var end := Extend(l, lo, hi, j);
    CountShorter(l, lo, hi, end);
    var i := SomeTurnedAway(h, n, lo, end);
  }

  lemma FrontTurnsAway(h: Hunt, hi: nat, n: nat)
    requires Sound(h.list) && n > 0 && Longest(h.list, 0, hi) && |Gathered(h, 0, hi)| < n && FrontEnough(h.list, n)
    ensures exists a: nat, b: nat :: TurnedAway(h, n, a, b)
  {
    var l := h.list;
    var end: nat :| Serves(l, 0, end, n);
    var j := SomeGood(l, 0, end);
    var far := Extend(l, 0, end, j);
    LongestUnique(l, 0, far, hi);
    CountShorter(l, 0, end, far);
    var i := SomeTurnedAway(h, n, 0, hi);
  }

  // ---------- Without a bind, and on lists sorted by node ----------

  lemma {:induction false} CountAll(l: Listing, i: nat)
    requires i <= |l.devices|
    ensures CountIn(l, i, |l.devices|) == CountGood(l.devices, l.good, i)
    decreases |l.devices| - i
  {
    if i < |l.devices| { CountAll(l, i + 1); }
  }

  lemma {:induction false} CountLater(l: Listing, lo: nat, hi: nat)
    requires lo <= hi <= |l.devices|
    ensures CountIn(l, lo, hi) <= CountIn(l, 0, hi)
    decreases lo
  {
    if lo > 0 { CountLater(l, lo - 1, hi); }
  }

  /** Without a bind every usable device counts. */
  lemma UnboundIff(l: Listing, n: nat)
    requires !l.bind
    ensures Enough(l, n) <==> CountGood(l.devices, l.good, 0) >= n
    ensures FrontEnough(l, n) <==> CountGood(l.devices, l.good, 0) >= n
  {
    var end := |l.devices|;
    CountAll(l, 0);
    if CountIn(l, 0, end) >= n { assert Serves(l, 0, end, n); }
    if Enough(l, n) {
      var lo: nat, hi: nat :| Serves(l, lo, hi, n);
      CountShorter(l, lo, hi, end);
      CountLater(l, lo, end);
    }
  }

  /** With a bind too, if all devices are on one node. */
  lemma OneNumaIff(l: Listing, n: nat)
    requires forall i, j :: 0 <= i < j < |l.devices| ==> NumaAt(l, i) == NumaAt(l, j)
    ensures Enough(l, n) <==> CountGood(l.devices, l.good, 0) >= n
    ensures FrontEnough(l, n) <==> CountGood(l.devices, l.good, 0) >= n
  {
    var end := |l.devices|;
    CountAll(l, 0);
    if CountIn(l, 0, end) >= n { assert Serves(l, 0, end, n); }
    if Enough(l, n) {
      var lo: nat, hi: nat :| Serves(l, lo, hi, n);
      CountShorter(l, lo, hi, end);
      CountLater(l, lo, end);
    }
  }

  /** Devices of one NUMA node stand next to each other. */
  ghost predicate Grouped(devices: seq<DeviceUsage>) {
    forall i, j, k :: 0 <= i < j < k < |devices| && devices[i].info.numa == devices[k].info.numa ==>
      devices[j].info.numa == devices[i].info.numa
  }

  /** The usable devices of one node. */
  ghost function OnNode(l: Listing, numa: int): Listing {
    l.(good := (dev: DeviceUsage) => l.good(dev) && dev.info.numa == numa)
  }

  lemma {:induction false} CountOnNode(l: Listing, lo: nat, hi: nat, numa: int)
    requires lo <= hi <= |l.devices|
    requires forall i :: lo <= i < hi && l.good(l.devices[i]) ==> NumaAt(l, i) == numa
    ensures CountIn(OnNode(l, numa), lo, hi) == CountIn(l, lo, hi)
    decreases hi - lo
  {
    if lo < hi { CountOnNode(l, lo + 1, hi, numa); }
  }

  /** A stretch that serves is part of the devices of some node. */
  lemma StretchOnNode(l: Listing, lo: nat, hi: nat, n: nat) returns (numa: int)
    requires l.bind && Sound(l) && n > 0 && Serves(l, lo, hi, n)
    ensures CountIn(OnNode(l, numa), 0, |l.devices|) >= n
  {
    var x := SomeGood(l, lo, hi);
    numa := NumaAt(l, x);
    forall i | lo <= i < hi && l.good(l.devices[i]) ensures NumaAt(l, i) == numa {
      if i < x { assert NumaAt(l, i) == NumaAt(l, x); } else if x < i { assert NumaAt(l, x) == NumaAt(l, i); }
    }
    CountOnNode(l, lo, hi, numa);
    CountShorter(OnNode(l, numa), lo, hi, |l.devices|);
    CountLater(OnNode(l, numa), lo, |l.devices|);
  }

  /** The stretch of a node: from its first to its last usable device. */
  lemma {:induction false} Trim(l: Listing, lo: nat, hi: nat) returns (first: nat, end: nat)
    requires lo <= hi <= |l.devices| && CountIn(l, lo, hi) > 0
    ensures lo <= first < end <= hi && l.good(l.devices[first]) && l.good(l.devices[end - 1])
    ensures CountIn(l, first, end) == CountIn(l, lo, hi)
    decreases hi - lo
  {
    if !l.good(l.devices[lo]) {
      first, end := Trim(l, lo + 1, hi);
    } else if !l.good(l.devices[hi - 1]) {
      CountBack(l, lo, hi);
      first, end := Trim(l, lo, hi - 1);
    } else {
      first, end := lo, hi;
    }
  }

  lemma {:induction false} CountBack(l: Listing, lo: nat, hi: nat)
    requires lo < hi <= |l.devices|
    ensures CountIn(l, lo, hi) == CountIn(l, lo, hi - 1) + if l.good(l.devices[hi - 1]) then 1 else 0
    decreases hi - lo
  {
    if lo + 1 < hi { CountBack(l, lo + 1, hi); }
  }

  lemma NodeStretch(l: Listing, n: nat, numa: int)
    requires Grouped(l.devices) && n > 0 && CountIn(OnNode(l, numa), 0, |l.devices|) >= n
    ensures Enough(l, n)
  {
    var first, end := Trim(OnNode(l, numa), 0, |l.devices|);
    forall i | first <= i < end ensures NumaAt(l, i) == numa {
      if first < i < end - 1 { assert l.devices[first].info.numa == l.devices[end - 1].info.numa; }
    }
    CountOnNode(l, first, end, numa);
    assert Serves(l, first, end, n);
  }

  /** On a list grouped by node: exactly when some node has enough usable devices. */
  lemma GroupedIff(l: Listing, n: nat)
    requires l.bind && Sound(l) && Grouped(l.devices) && n > 0
    ensures Enough(l, n) <==> exists numa :: CountGood(l.devices, OnNode(l, numa).good, 0) >= n
  {
    if Enough(l, n) {
      var lo: nat, hi: nat :| Serves(l, lo, hi, n);
      var numa := StretchOnNode(l, lo, hi, n);
      CountAll(OnNode(l, numa), 0);
    }
    if numa :| CountGood(l.devices, OnNode(l, numa).good, 0) >= n {
      CountAll(OnNode(l, numa), 0);
      NodeStretch(l, n, numa);
    }
  }
}
