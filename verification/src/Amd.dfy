/** The AMD backend's choice of tightly connected GPUs: a pruned walk over the
    combinations of a group, and the best over the groups of a NUMA-bound request. */
module Amd {
  import opened Devices
  import opened Combinations

  const XGMI_PAIR_SCORE := 4
  const NUMA_PAIR_SCORE := 1
  const MAX_COMBINATION_CANDIDATES := 16

  /** What a registered GPU says about its links. */
  datatype Card = Card(numa: int, bdf: string, peers: set<string>)

  predicate HasPeer(from: Card, to: Card) {
    to.bdf != "" && to.bdf in from.peers
  }

  predicate XgmiLinked(a: Card, b: Card) {
    HasPeer(a, b) && HasPeer(b, a)
  }

  type Cards = map<DeviceId, Card>

  /** A candidate that is not registered has no NUMA node and no links. */
  function CardOf(byId: Cards, c: ContainerDevice): Card {
    if c.uuid in byId then byId[c.uuid] else Card(-1, "", {})
  }

  function PairScore(byId: Cards): (ContainerDevice, ContainerDevice) -> int {
    (a, b) => LinkScore(CardOf(byId, a), CardOf(byId, b))
  }

  function LinkScore(a: Card, b: Card): nat {
    (if XgmiLinked(a, b) then XGMI_PAIR_SCORE else 0) + (if a.numa >= 0 && a.numa == b.numa then NUMA_PAIR_SCORE else 0)
  }

  /** The total score of the pairs of a group. */
  function GroupScore(byId: Cards, group: ContainerDevices): int {
    PairTotal(group, PairScore(byId))
  }

  lemma {:induction false} PairsWithNat(byId: Cards, row: ContainerDevices, z: nat, n: nat)
    requires n <= z < |row|
    ensures PairsWith(row, z, n, PairScore(byId)) >= 0
  {
    if n > 0 { PairsWithNat(byId, row, z, n - 1); }
  }

  lemma {:induction false} PairsBelowNat(byId: Cards, row: ContainerDevices, n: nat)
    requires n <= |row|
    ensures PairsBelow(row, n, PairScore(byId)) >= 0
  {
    if n > 0 {
      PairsBelowNat(byId, row, n - 1);
      PairsWithNat(byId, row, n - 1, n - 1);
    }
  }

  lemma ScoreNat(byId: Cards, group: ContainerDevices)
    ensures GroupScore(byId, group) >= 0
  {
    PairsBelowNat(byId, group, |group|);
  }

  // ---------- Keeping the first of the best ----------

  /** The best pick so far; a score of -1 stands for none. */
  datatype Best = Best(pick: Pick, score: int)

  function Better(worth: Pick -> int, b: Best, p: Pick): Best {
    if worth(p) > b.score then Best(p, worth(p)) else b
  }

  /** The best after looking at the picks `ps` in order. */
  function Scan(worth: Pick -> int, b: Best, ps: seq<Pick>): Best {
    if ps == [] then b else Better(worth, Scan(worth, b, ps[..|ps| - 1]), ps[|ps| - 1])
  }

  lemma {:induction false} ScanAppend(worth: Pick -> int, b: Best, ps: seq<Pick>, qs: seq<Pick>)
    ensures Scan(worth, b, ps + qs) == Scan(worth, Scan(worth, b, ps), qs)
  {
    if qs == [] {
      assert ps + qs == ps;
    } else {
      ScanAppend(worth, b, ps, qs[..|qs| - 1]);
      assert (ps + qs)[..|ps + qs| - 1] == ps + qs[..|qs| - 1];
    }
  }

  lemma {:induction false} ScanBest(worth: Pick -> int, ps: seq<Pick>) returns (b: nat)
    requires ps != [] && forall p :: worth(p) >= 0
    ensures b < |ps| && Scan(worth, Best([], -1), ps) == Best(ps[b], worth(ps[b]))
    ensures forall x :: 0 <= x < |ps| ==> worth(ps[x]) <= worth(ps[b])
    ensures forall x :: 0 <= x < b ==> worth(ps[x]) < worth(ps[b])
  {
    var front, last := ps[..|ps| - 1], ps[|ps| - 1];
    if front == [] {
      b := 0;
    } else {
      b := ScanBest(worth, front);
      if worth(last) > worth(ps[b]) { b := |front|; }
    }
  }

  /** Every pick of `ps` put behind `pick`. */
  function Behind(pick: Pick, ps: seq<Pick>): seq<Pick> {
    seq(|ps|, x requires 0 <= x < |ps| => pick + ps[x])
  }

  /** The best after looking at every completion of `pick` by `k` positions from `lo` up to
      `n`: first those that take `lo`, then those that do not. */
  function ScanFrom(worth: Pick -> int, b: Best, pick: Pick, lo: nat, n: nat, k: nat): Best
    decreases n - lo
  {
    if k == 0 then Better(worth, b, pick)
    else if lo + k > n then b
    else ScanFrom(worth, ScanFrom(worth, b, pick + [lo], lo + 1, n, k - 1), pick, lo + 1, n, k)
  }

  lemma BehindWhole(pick: Pick)
    ensures Behind(pick, [[]]) == [pick]
  {
    assert Behind(pick, [[]])[0] == pick + [] == pick;
  }

  lemma BehindStep(pick: Pick, i: nat, n: nat, k: nat)
    requires k > 0 && i + k <= n
    ensures Behind(pick, Picks(i, n, k)) == Behind(pick + [i], Picks(i + 1, n, k - 1)) + Behind(pick, Picks(i + 1, n, k))
  {
    var first := Picks(i + 1, n, k - 1);
    assert Picks(i, n, k) == Prepend(i, first) + Picks(i + 1, n, k);
    forall x | 0 <= x < |first| ensures pick + ([i] + first[x]) == (pick + [i]) + first[x] {}
  }

  /** These are all the picks of the enumeration, in its order. */
  lemma {:induction false} ScanFromPicks(worth: Pick -> int, b: Best, pick: Pick, lo: nat, n: nat, k: nat)
    ensures ScanFrom(worth, b, pick, lo, n, k) == Scan(worth, b, Behind(pick, Picks(lo, n, k)))
    decreases n - lo
  {
    if k == 0 {
      BehindWhole(pick);
      assert [pick][..0] == [];
    } else if lo + k <= n {
      var b1 := ScanFrom(worth, b, pick + [lo], lo + 1, n, k - 1);
      ScanFromPicks(worth, b, pick + [lo], lo + 1, n, k - 1);
      ScanFromPicks(worth, b1, pick, lo + 1, n, k);
      BehindStep(pick, lo, n, k);
      ScanAppend(worth, b, Behind(pick + [lo], Picks(lo + 1, n, k - 1)), Behind(pick, Picks(lo + 1, n, k)));
    }
  }

  // ---------- The walk ----------

  predicate InGroup(group: ContainerDevices, p: Pick) {
    forall i :: 0 <= i < |p| ==> p[i] < |group|
  }

  function Worth(byId: Cards, group: ContainerDevices): Pick -> int {
    p => if InGroup(group, p) then GroupScore(byId, Choose(group, p)) else 0
  }

  lemma WorthNat(byId: Cards, group: ContainerDevices)
    ensures forall p :: Worth(byId, group)(p) >= 0
  {
    forall p ensures Worth(byId, group)(p) >= 0 {
      if InGroup(group, p) { ScoreNat(byId, Choose(group, p)); }
    }
  }

  /** Scores a complete pick and keeps it if it beats the best. */
  method Judge(byId: Cards, group: ContainerDevices, pick: Pick, b: Best) returns (b': Best)
    requires InGroup(group, pick)
    ensures b' == Better(Worth(byId, group), b, pick)
  {
    var score := TotalScore(Choose(group, pick), PairScore(byId));
    b' := if score > b.score then Best(pick, score) else b;
  }

  /** Looks at every completion of `pick` with positions from `start` on. */
  method Walk(byId: Cards, group: ContainerDevices, n: nat, start: nat, pick: Pick, b: Best) returns (b': Best)
    requires |pick| <= n && InGroup(group, pick)
    ensures b' == ScanFrom(Worth(byId, group), b, pick, start, |group|, n - |pick|)
    decreases n - |pick|, 1
  {
    if |pick| == n {
      b' := Judge(byId, group, pick, b);
    } else {
      b' := WalkOn(byId, group, n, start, pick, b);
    }
  }

  /** Extends an incomplete pick, leaving out starts from which too few positions remain. */
  method WalkOn(byId: Cards, group: ContainerDevices, n: nat, start: nat, pick: Pick, b: Best) returns (b': Best)
    requires |pick| < n && InGroup(group, pick)
    ensures b' == ScanFrom(Worth(byId, group), b, pick, start, |group|, n - |pick|)
    decreases n - |pick|, 0
  {
    ghost var worth, goal := Worth(byId, group), ScanFrom(Worth(byId, group), b, pick, start, |group|, n - |pick|);
    var k := n - |pick|;
    b' := b;
    var i := start;
    while i + k <= |group|
      invariant ScanFrom(worth, b', pick, i, |group|, k) == goal
    {
      b' := Walk(byId, group, n, i + 1, pick + [i], b');
      i := i + 1;
    }
  }

  // ---------- What the walk finds ----------

  /** What a group contributes: its first `n` when it is large, and otherwise the
      lexicographically first optimum among all choices of `n`. */
  ghost predicate GroupChoice(byId: Cards, group: ContainerDevices, n: nat, out: ContainerDevices) {
    && n <= |group|
    && if |group| > MAX_COMBINATION_CANDIDATES then out == group[..n]
       else exists p :: FirstOptimum(group, n, p, PairScore(byId)) && out == Choose(group, p)
  }

  lemma BehindNothing(ps: seq<Pick>)
    ensures Behind([], ps) == ps
  {
    forall x | 0 <= x < |ps| ensures [] + ps[x] == ps[x] {}
  }

  lemma WorthIsTotal(byId: Cards, group: ContainerDevices, n: nat, x: nat)
    requires x < |Picks(0, |group|, n)|
    ensures var p := Picks(0, |group|, n)[x]; InGroup(group, p) && Worth(byId, group)(p) == PairTotal(Choose(group, p), PairScore(byId))
  {
    assert IsPick(Picks(0, |group|, n)[x], 0, |group|, n);
  }

  /** The first of the best picks is the first optimum. */
  lemma ScanFinds(byId: Cards, group: ContainerDevices, n: nat)
    requires n <= |group|
    ensures var best := Scan(Worth(byId, group), Best([], -1), Picks(0, |group|, n));
      FirstOptimum(group, n, best.pick, PairScore(byId)) && best.score == GroupScore(byId, Choose(group, best.pick))
  {
    var ps := Picks(0, |group|, n);
    PicksNonempty(0, |group|, n);
    WorthNat(byId, group);
    var b := ScanBest(Worth(byId, group), ps);
    var xs := seq(|ps|, x requires 0 <= x < |ps| => Choose(group, ps[x]));
    forall x | 0 <= x < |ps| ensures Worth(byId, group)(ps[x]) == PairTotal(xs[x], PairScore(byId)) { WorthIsTotal(byId, group, n, x); }
    assert FirstBest(xs, b, PairScore(byId));
    FirstBestIsOptimum(group, n, xs, b, PairScore(byId));
  }

  lemma WalkIsScan(worth: Pick -> int, n: nat, k: nat)
    ensures ScanFrom(worth, Best([], -1), [], 0, n, k) == Scan(worth, Best([], -1), Picks(0, n, k))
  {
    ScanFromPicks(worth, Best([], -1), [], 0, n, k);
    BehindNothing(Picks(0, n, k));
  }

  lemma ScanChoice(byId: Cards, group: ContainerDevices, n: nat, best: Best)
    requires n <= |group| <= MAX_COMBINATION_CANDIDATES && best == Scan(Worth(byId, group), Best([], -1), Picks(0, |group|, n))
    ensures InGroup(group, best.pick) && |best.pick| == n
    ensures GroupChoice(byId, group, n, Choose(group, best.pick)) && best.score == GroupScore(byId, Choose(group, best.pick)) >= 0
  {
    ScanFinds(byId, group, n);
    assert IsPick(best.pick, 0, |group|, n);
    ScoreNat(byId, Choose(group, best.pick));
  }

  lemma SearchChoice(byId: Cards, group: ContainerDevices, n: nat, best: Best)
    requires n <= |group| <= MAX_COMBINATION_CANDIDATES && best == ScanFrom(Worth(byId, group), Best([], -1), [], 0, |group|, n)
    ensures InGroup(group, best.pick) && |best.pick| == n
    ensures GroupChoice(byId, group, n, Choose(group, best.pick)) && best.score == GroupScore(byId, Choose(group, best.pick)) >= 0
  {
    WalkIsScan(Worth(byId, group), |group|, n);
    ScanChoice(byId, group, n, best);
  }

  method FirstOfGroup(byId: Cards, group: ContainerDevices, n: nat) returns (out: ContainerDevices, score: int)
    requires n <= |group|
    ensures out == group[..n] && score == GroupScore(byId, out) && score >= 0
  {
    out := group[..n];
    score := TotalScore(out, PairScore(byId));
    ScoreNat(byId, out);
  }

  method BestInGroup(byId: Cards, group: ContainerDevices, n: nat) returns (out: ContainerDevices, score: int)
    requires n <= |group|
    ensures GroupChoice(byId, group, n, out) && score == GroupScore(byId, out) && score >= 0 && |out| == n
  {
    if |group| > MAX_COMBINATION_CANDIDATES {
      out, score := FirstOfGroup(byId, group, n);
      return;
    }
    var best := Walk(byId, group, n, 0, [], Best([], -1));
    SearchChoice(byId, group, n, best);
    out, score := Choose(group, best.pick), best.score;
  }

  // ---------- Groups by NUMA node ----------

  /** The candidates on NUMA node `m`, in order. */
  function OnNode(byId: Cards, cs: ContainerDevices, m: int): ContainerDevices {
    if cs == [] then []
    else
      var front := OnNode(byId, cs[..|cs| - 1], m);
      if CardOf(byId, cs[|cs| - 1]).numa == m then front + [cs[|cs| - 1]] else front
  }

  lemma OnNodeNext(byId: Cards, cs: ContainerDevices, i: nat, m: int)
    requires i < |cs|
    ensures OnNode(byId, cs[..i + 1], m) == OnNode(byId, cs[..i], m) + if CardOf(byId, cs[i]).numa == m then [cs[i]] else []
  {
    assert cs[..i + 1][..i] == cs[..i];
  }

  lemma {:induction false} OnNodeMembers(byId: Cards, cs: ContainerDevices, m: int)
    ensures forall x :: 0 <= x < |OnNode(byId, cs, m)| ==> OnNode(byId, cs, m)[x] in cs && CardOf(byId, OnNode(byId, cs, m)[x]).numa == m
  {
    if cs != [] { OnNodeMembers(byId, cs[..|cs| - 1], m); }
  }

  /** The position of the first candidate on node `m`, if there is one. */
  function First(byId: Cards, cs: ContainerDevices, m: int): nat {
    if cs == [] then 0
    else if OnNode(byId, cs[..|cs| - 1], m) != [] then First(byId, cs[..|cs| - 1], m)
    else |cs| - 1
  }

  lemma {:induction false} FirstAt(byId: Cards, cs: ContainerDevices, m: int)
    requires OnNode(byId, cs, m) != []
    ensures First(byId, cs, m) < |cs| && cs[First(byId, cs, m)] == OnNode(byId, cs, m)[0]
  {
    if OnNode(byId, cs[..|cs| - 1], m) != [] { FirstAt(byId, cs[..|cs| - 1], m); }
  }

  /** The groups, the node of each, in the order in which the nodes first appear. */
  ghost predicate Grouped(byId: Cards, cs: ContainerDevices, groups: seq<ContainerDevices>, nodes: seq<int>) {
    && |nodes| == |groups|
    && (forall g :: 0 <= g < |groups| ==> groups[g] == OnNode(byId, cs, nodes[g]) && groups[g] != [])
    && (forall m :: OnNode(byId, cs, m) != [] ==> m in nodes)
    && (forall g, h :: 0 <= g < h < |nodes| ==> First(byId, cs, nodes[g]) < First(byId, cs, nodes[h]))
  }

  lemma NodesNext(byId: Cards, cs: ContainerDevices, i: nat, nodes: seq<int>, g: nat)
    requires i < |cs| && g < |nodes| && OnNode(byId, cs[..i], nodes[g]) != []
    ensures First(byId, cs[..i + 1], nodes[g]) == First(byId, cs[..i], nodes[g]) < i
  {
    FirstAt(byId, cs[..i], nodes[g]);
    assert cs[..i + 1][..i] == cs[..i];
  }

  /** One more candidate joins the group of its node. */
  lemma GroupJoined(byId: Cards, cs: ContainerDevices, i: nat, groups: seq<ContainerDevices>, nodes: seq<int>, at: nat)
    requires i < |cs| && Grouped(byId, cs[..i], groups, nodes) && at < |nodes| && nodes[at] == CardOf(byId, cs[i]).numa
    ensures Grouped(byId, cs[..i + 1], groups[at := groups[at] + [cs[i]]], nodes)
  {
    var m, now := CardOf(byId, cs[i]).numa, groups[at := groups[at] + [cs[i]]];
    forall g | 0 <= g < |nodes| ensures First(byId, cs[..i + 1], nodes[g]) == First(byId, cs[..i], nodes[g]) { NodesNext(byId, cs, i, nodes, g); }
    forall g | 0 <= g < |now| ensures now[g] == OnNode(byId, cs[..i + 1], nodes[g]) && now[g] != [] {
      OnNodeNext(byId, cs, i, nodes[g]);
      if g != at { assert nodes[g] != m; }
    }
    forall n | OnNode(byId, cs[..i + 1], n) != [] ensures n in nodes { OnNodeNext(byId, cs, i, n); }
  }

  /** One more candidate opens a group for its node. */
  lemma GroupOpened(byId: Cards, cs: ContainerDevices, i: nat, groups: seq<ContainerDevices>, nodes: seq<int>)
    requires i < |cs| && Grouped(byId, cs[..i], groups, nodes) && CardOf(byId, cs[i]).numa !in nodes
    ensures Grouped(byId, cs[..i + 1], groups + [[cs[i]]], nodes + [CardOf(byId, cs[i]).numa])
  {
    var m := CardOf(byId, cs[i]).numa;
    var now, at := groups + [[cs[i]]], nodes + [m];
    assert OnNode(byId, cs[..i], m) == [];
    forall g | 0 <= g < |nodes| ensures First(byId, cs[..i + 1], nodes[g]) == First(byId, cs[..i], nodes[g]) < i { NodesNext(byId, cs, i, nodes, g); }
    assert First(byId, cs[..i + 1], m) == i by { assert cs[..i + 1][..i] == cs[..i]; }
    forall g | 0 <= g < |now| ensures now[g] == OnNode(byId, cs[..i + 1], at[g]) && now[g] != [] { OnNodeNext(byId, cs, i, at[g]); }
    forall n | OnNode(byId, cs[..i + 1], n) != [] ensures n in at {
      OnNodeNext(byId, cs, i, n);
      if n == m { assert at[|nodes|] == m; }
    }
  }

  method GroupByNuma(byId: Cards, cs: ContainerDevices) returns (groups: seq<ContainerDevices>, ghost nodes: seq<int>)
    ensures Grouped(byId, cs, groups, nodes)
  {
    groups, nodes := [], [];
    var index: map<int, nat> := map[];
    assert cs[..0] == [];
    for i := 0 to |cs|
      invariant Grouped(byId, cs[..i], groups, nodes)
      invariant forall m :: m in index <==> m in nodes
      invariant forall m :: m in index ==> index[m] < |nodes| && nodes[index[m]] == m
    {
      var numa := CardOf(byId, cs[i]).numa;
      if numa !in index {
        GroupOpened(byId, cs, i, groups, nodes);
        index := index[numa := |groups|];
        groups, nodes := groups + [[cs[i]]], nodes + [numa];
      } else {
        GroupJoined(byId, cs, i, groups, nodes, index[numa]);
        groups := groups[index[numa] := groups[index[numa]] + [cs[i]]];
      }
    }
    assert cs[..|cs|] == cs;
  }

  /** No choice of the group scores more than `most`. */
  ghost predicate ScoresAtMost(byId: Cards, group: ContainerDevices, n: nat, most: int) {
    forall other :: GroupChoice(byId, group, n, other) ==> GroupScore(byId, other) <= most
  }

  /** `g` is the first group whose choice `out` no other group's choice beats. */
  ghost predicate BestGroup(byId: Cards, groups: seq<ContainerDevices>, n: nat, g: nat, out: ContainerDevices) {
    && g < |groups| && GroupChoice(byId, groups[g], n, out)
    && (forall h :: 0 <= h < |groups| ==> ScoresAtMost(byId, groups[h], n, GroupScore(byId, out)))
    && (forall h :: 0 <= h < g ==> ScoresAtMost(byId, groups[h], n, GroupScore(byId, out) - 1))
  }

  /** All choices of a group score alike. */
  lemma ChoiceScore(byId: Cards, group: ContainerDevices, n: nat, a: ContainerDevices, b: ContainerDevices)
    requires GroupChoice(byId, group, n, a) && GroupChoice(byId, group, n, b)
    ensures GroupScore(byId, a) == GroupScore(byId, b)
  {
  }

  method BestOfGroups(byId: Cards, groups: seq<ContainerDevices>, n: nat) returns (ok: bool, out: ContainerDevices, ghost at: nat)
    ensures ok <==> exists g :: 0 <= g < |groups| && n <= |groups[g]|
    ensures ok ==> |out| == n && BestGroup(byId, groups, n, at, out)
  {
    ok, out, at := false, [], 0;
    var bestScore := -1;
    for g := 0 to |groups|
      invariant ok <==> exists h :: 0 <= h < g && n <= |groups[h]|
      invariant !ok ==> bestScore == -1
      invariant ok ==> |out| == n && bestScore == GroupScore(byId, out) && at < g && BestGroup(byId, groups[..g], n, at, out)
    {
      if |groups[g]| < n {
        if ok { SkippedGroup(byId, groups, g, n, at, out); }
        continue;
      }
      var picked, score := BestInGroup(byId, groups[g], n);
      if ok && score <= bestScore { GroupHeld(byId, groups, g, n, at, out, picked); }
      if score > bestScore {
        forall h | 0 <= h < g ensures ScoresAtMost(byId, groups[h], n, bestScore) { assert groups[..g][h] == groups[h]; }
        GroupBeats(byId, groups, g, n, picked, bestScore);
        ok, out, at, bestScore := true, picked, g, score;
      }
    }
    assert groups[..|groups|] == groups;
  }

  lemma SkippedGroup(byId: Cards, groups: seq<ContainerDevices>, g: nat, n: nat, at: nat, out: ContainerDevices)
    requires g < |groups| && |groups[g]| < n && BestGroup(byId, groups[..g], n, at, out)
    ensures BestGroup(byId, groups[..g + 1], n, at, out)
  {
    assert groups[..g + 1] == groups[..g] + [groups[g]];
  }

  lemma ScoresMono(byId: Cards, group: ContainerDevices, n: nat, most: int, more: int)
    requires ScoresAtMost(byId, group, n, most) && most <= more
    ensures ScoresAtMost(byId, group, n, more)
  {
  }

  lemma OwnScore(byId: Cards, group: ContainerDevices, n: nat, picked: ContainerDevices)
    requires GroupChoice(byId, group, n, picked)
    ensures ScoresAtMost(byId, group, n, GroupScore(byId, picked))
  {
    forall other | GroupChoice(byId, group, n, other) ensures GroupScore(byId, other) <= GroupScore(byId, picked) {
      ChoiceScore(byId, group, n, other, picked);
    }
  }

  /** Group `g` does not beat the best before it. */
  lemma GroupHeld(byId: Cards, groups: seq<ContainerDevices>, g: nat, n: nat, at: nat, out: ContainerDevices, picked: ContainerDevices)
    requires g < |groups| && GroupChoice(byId, groups[g], n, picked) && GroupScore(byId, picked) <= GroupScore(byId, out)
    requires BestGroup(byId, groups[..g], n, at, out)
    ensures BestGroup(byId, groups[..g + 1], n, at, out)
  {
    OwnScore(byId, groups[g], n, picked);
    ScoresMono(byId, groups[g], n, GroupScore(byId, picked), GroupScore(byId, out));
    assert groups[..g + 1] == groups[..g] + [groups[g]];
  }

  /** Group `g` beats every group before it. */
  lemma GroupBeats(byId: Cards, groups: seq<ContainerDevices>, g: nat, n: nat, picked: ContainerDevices, most: int)
    requires g < |groups| && GroupChoice(byId, groups[g], n, picked) && most < GroupScore(byId, picked)
    requires forall h :: 0 <= h < g ==> ScoresAtMost(byId, groups[h], n, most)
    ensures BestGroup(byId, groups[..g + 1], n, g, picked)
  {
    OwnScore(byId, groups[g], n, picked);
    forall h | 0 <= h < g ensures ScoresAtMost(byId, groups[h], n, GroupScore(byId, picked)) && ScoresAtMost(byId, groups[h], n, GroupScore(byId, picked) - 1) {
      ScoresMono(byId, groups[h], n, most, GroupScore(byId, picked));
      ScoresMono(byId, groups[h], n, most, GroupScore(byId, picked) - 1);
    }
  }

  /** With a NUMA bind the best over the nodes' groups, and otherwise the best of all
      candidates. */
  method BestLinkedCombination(byId: Cards, candidates: ContainerDevices, n: Positive, numaBind: bool)
    returns (ok: bool, out: ContainerDevices, ghost node: int)
    ensures !numaBind ==> (ok <==> n <= |candidates|)
    ensures ok && !numaBind ==> GroupChoice(byId, candidates, n, out)
    ensures numaBind ==> (ok <==> exists m :: n <= |OnNode(byId, candidates, m)|)
    ensures ok && numaBind ==> GroupChoice(byId, OnNode(byId, candidates, node), n, out)
    ensures ok && numaBind ==> forall x :: 0 <= x < |out| ==> CardOf(byId, out[x]).numa == node
    ensures ok && numaBind ==> forall m :: ScoresAtMost(byId, OnNode(byId, candidates, m), n, GroupScore(byId, out))
    ensures ok && numaBind ==>
      forall m :: OnNode(byId, candidates, m) != [] && First(byId, candidates, m) < First(byId, candidates, node) ==>
        ScoresAtMost(byId, OnNode(byId, candidates, m), n, GroupScore(byId, out) - 1)
  {
    node := 0;
    ghost var at;
    if !numaBind {
      ok, out, at := BestOfGroups(byId, [candidates], n);
      assert [candidates][0] == candidates;
      return;
    }
    var groups; ghost var nodes;
    groups, nodes := GroupByNuma(byId, candidates);
    ok, out, at := BestOfGroups(byId, groups, n);
    GroupsFound(byId, candidates, groups, nodes, n);
    if ok {
      node := nodes[at];
      BestNode(byId, candidates, groups, nodes, n, at, out);
    }
  }

  lemma GroupsFound(byId: Cards, cs: ContainerDevices, groups: seq<ContainerDevices>, nodes: seq<int>, n: Positive)
    requires Grouped(byId, cs, groups, nodes)
    ensures (exists g :: 0 <= g < |groups| && n <= |groups[g]|) <==> exists m :: n <= |OnNode(byId, cs, m)|
  {
    if m :| n <= |OnNode(byId, cs, m)| {
      var g :| 0 <= g < |nodes| && nodes[g] == m;
      assert groups[g] == OnNode(byId, cs, m);
      assert 0 <= g < |groups| && n <= |groups[g]|;
    }
    if g :| 0 <= g < |groups| && n <= |groups[g]| {
      assert groups[g] == OnNode(byId, cs, nodes[g]);
      assert n <= |OnNode(byId, cs, nodes[g])|;
    }
  }

  lemma BestNode(byId: Cards, cs: ContainerDevices, groups: seq<ContainerDevices>, nodes: seq<int>, n: Positive, at: nat, out: ContainerDevices)
    requires Grouped(byId, cs, groups, nodes) && BestGroup(byId, groups, n, at, out)
    ensures forall x :: 0 <= x < |out| ==> CardOf(byId, out[x]).numa == nodes[at]
    ensures forall m :: ScoresAtMost(byId, OnNode(byId, cs, m), n, GroupScore(byId, out))
    ensures forall m :: OnNode(byId, cs, m) != [] && First(byId, cs, m) < First(byId, cs, nodes[at]) ==>
        ScoresAtMost(byId, OnNode(byId, cs, m), n, GroupScore(byId, out) - 1)
  {
    OnNodeMembers(byId, cs, nodes[at]);
    assert groups[at] == OnNode(byId, cs, nodes[at]);
    ChosenFrom(byId, groups[at], n, out);
    forall m ensures ScoresAtMost(byId, OnNode(byId, cs, m), n, GroupScore(byId, out)) {
      if OnNode(byId, cs, m) != [] {
        var g :| 0 <= g < |nodes| && nodes[g] == m;
        assert groups[g] == OnNode(byId, cs, m);
      }
    }
    forall m | OnNode(byId, cs, m) != [] && First(byId, cs, m) < First(byId, cs, nodes[at])
      ensures ScoresAtMost(byId, OnNode(byId, cs, m), n, GroupScore(byId, out) - 1)
    {
      var g :| 0 <= g < |nodes| && nodes[g] == m;
      assert groups[g] == OnNode(byId, cs, m);
      assert g < at;
    }
  }

  lemma ChosenFrom(byId: Cards, group: ContainerDevices, n: nat, out: ContainerDevices)
    requires GroupChoice(byId, group, n, out)
    ensures forall x :: 0 <= x < |out| ==> out[x] in group
  {
    if |group| <= MAX_COMBINATION_CANDIDATES {
      var p :| FirstOptimum(group, n, p, PairScore(byId)) && out == Choose(group, p);
      forall x | 0 <= x < |out| ensures out[x] in group { assert group[p[x]] == out[x]; }
    }
  }

  // ---------- What the scores mean ----------

  /** Two cards with a link each way count four, two on one known NUMA node count one. */
  lemma LinkScores(a: Card, b: Card)
    ensures LinkScore(a, b) == (if a.bdf != "" && b.bdf != "" && a.bdf in b.peers && b.bdf in a.peers then 4 else 0)
      + (if 0 <= a.numa == b.numa then 1 else 0)
  {
  }

  lemma PairOnly(byId: Cards, pair: ContainerDevices)
    requires |pair| == 2
    ensures GroupScore(byId, pair) == LinkScore(CardOf(byId, pair[0]), CardOf(byId, pair[1]))
  {
    var f := PairScore(byId);
    assert PairsBelow(pair, 1, f) == PairsBelow(pair, 0, f) + PairsWith(pair, 0, 0, f);
    assert PairsWith(pair, 1, 1, f) == PairsWith(pair, 1, 0, f) + f(pair[0], pair[1]);
  }

  /** Where two cards are asked and a group has a linked pair, a linked pair is chosen. */
  lemma LinkedPairChosen(byId: Cards, group: ContainerDevices, out: ContainerDevices, x: nat, y: nat)
    requires GroupChoice(byId, group, 2, out) && 2 < |group| <= 16 && x < y < |group|
    requires var a, b := CardOf(byId, group[x]), CardOf(byId, group[y]); a.bdf != "" && b.bdf != "" && a.bdf in b.peers && b.bdf in a.peers
    ensures |out| == 2 && var a, b := CardOf(byId, out[0]), CardOf(byId, out[1]); a.bdf != "" && b.bdf != "" && a.bdf in b.peers && b.bdf in a.peers
  {
    var p :| FirstOptimum(group, 2, p, PairScore(byId)) && out == Choose(group, p);
    var q: Pick := [x, y];
    assert IsPick(q, 0, |group|, 2) && Choose(group, q) == [group[x], group[y]];
    PairOnly(byId, Choose(group, q));
    PairOnly(byId, out);
    LinkScores(CardOf(byId, group[x]), CardOf(byId, group[y]));
    LinkScores(CardOf(byId, out[0]), CardOf(byId, out[1]));
  }
}
