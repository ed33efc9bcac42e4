/** Choosing `k` of `n` candidates: the exhaustive enumeration behind the
    topology-aware policies and the choice of a best combination from it. */
module Combinations {

  type Pick = seq<nat>

  /** An index-increasing choice of `k` positions from `lo` up to `n`. */
  predicate IsPick(p: Pick, lo: nat, n: nat, k: nat) {
    && |p| == k
    && (forall i :: 0 <= i < k ==> lo <= p[i] < n)
    && (forall i, j :: 0 <= i < j < k ==> p[i] < p[j])
  }

  predicate LexLess(a: Pick, b: Pick) {
    a != [] && b != [] && (a[0] < b[0] || (a[0] == b[0] && LexLess(a[1..], b[1..])))
  }

  function Prepend(i: nat, ps: seq<Pick>): seq<Pick> {
    seq(|ps|, x requires 0 <= x < |ps| => [i] + ps[x])
  }

  /** All picks in lexicographic order. */
  function Picks(lo: nat, n: nat, k: nat): (ps: seq<Pick>)
    ensures forall x :: 0 <= x < |ps| ==> IsPick(ps[x], lo, n, k)
    decreases n - lo
  {
    if k == 0 then [[]]
    else if lo + k > n then []
    else Prepend(lo, Picks(lo + 1, n, k - 1)) + Picks(lo + 1, n, k)
  }

  lemma Prepended(p: Pick, rest: seq<Pick>)
    requires p != [] && p[1..] in rest
    ensures p in Prepend(p[0], rest)
  {
    var x :| 0 <= x < |rest| && rest[x] == p[1..];
    assert Prepend(p[0], rest)[x] == p;
  }

  /** The enumeration misses no pick. */
  lemma {:induction false} PicksComplete(p: Pick, lo: nat, n: nat, k: nat)
    requires IsPick(p, lo, n, k)
    ensures p in Picks(lo, n, k)
    decreases n - lo
  {
    if k > 0 {
      PickSpan(p, lo, n, k);
      if p[0] == lo {
        PicksComplete(p[1..], lo + 1, n, k - 1);
        Prepended(p, Picks(lo + 1, n, k - 1));
        assert p in Prepend(lo, Picks(lo + 1, n, k - 1));
      } else {
        assert IsPick(p, lo + 1, n, k);
        PicksComplete(p, lo + 1, n, k);
      }
    }
  }

  lemma {:induction false} PickSpan(p: Pick, lo: nat, n: nat, k: nat)
    requires IsPick(p, lo, n, k) && k > 0
    ensures lo + k <= n
  {
    assert lo <= p[0] < n;
    if k > 1 {
      forall i | 0 < i < k ensures lo + 1 <= p[i] < n { assert p[0] < p[i]; }
      PickSpan(p[1..], lo + 1, n, k - 1);
    }
  }

  /** The enumeration is strictly increasing, so it lists every pick exactly once. */
  lemma {:induction false} PicksIncreasing(lo: nat, n: nat, k: nat, x: nat, y: nat)
    requires x < y < |Picks(lo, n, k)|
    ensures LexLess(Picks(lo, n, k)[x], Picks(lo, n, k)[y])
    decreases n - lo
  {
    var first, rest := Picks(lo + 1, n, k - 1), Picks(lo + 1, n, k);
    var ps := Picks(lo, n, k);
    assert ps == Prepend(lo, first) + rest;
    if y < |first| {
      PicksIncreasing(lo + 1, n, k - 1, x, y);
      assert ps[x][1..] == first[x] && ps[y][1..] == first[y];
    } else if x >= |first| {
      PicksIncreasing(lo + 1, n, k, x - |first|, y - |first|);
    } else {
      assert ps[x] == [lo] + first[x] && ps[y] == rest[y - |first|];
      assert IsPick(ps[y], lo + 1, n, k);
    }
  }

  lemma {:induction false} LexLessIrreflexive(a: Pick)
    ensures !LexLess(a, a)
  {
    if a != [] { LexLessIrreflexive(a[1..]); }
  }

  function Choose<T>(arr: seq<T>, p: Pick): (c: seq<T>)
    requires forall i :: 0 <= i < |p| ==> p[i] < |arr|
    ensures |c| == |p|
  {
    seq(|p|, i requires 0 <= i < |p| => arr[p[i]])
  }

  function Extend<T>(arr: seq<T>, current: seq<T>, ps: seq<Pick>): seq<seq<T>>
    requires forall x, i :: 0 <= x < |ps| && 0 <= i < |ps[x]| ==> ps[x][i] < |arr|
  {
    seq(|ps|, x requires 0 <= x < |ps| => current + Choose(arr, ps[x]))
  }

  /** Every way to complete `current` with `k` devices from `start` on: first those that
      take the device at `start`, then those that do not. */
  function Completions<T>(arr: seq<T>, start: nat, k: nat, current: seq<T>): seq<seq<T>>
    decreases |arr| - start
  {
    if k == 0 then [current]
    else if start + k > |arr| then []
    else Completions(arr, start + 1, k - 1, current + [arr[start]]) + Completions(arr, start + 1, k, current)
  }

  /** With the completions that take the device at `i` appended, those that do not are left. */
  lemma TakenFirst<T>(arr: seq<T>, i: nat, k: nat, current: seq<T>, before: seq<seq<T>>, after: seq<seq<T>>)
    requires k > 0 && i + k <= |arr| && after == before + Completions(arr, i + 1, k - 1, current + [arr[i]])
    ensures after + Completions(arr, i + 1, k, current) == before + Completions(arr, i, k, current)
  {
    Regroup(before, Completions(arr, i + 1, k - 1, current + [arr[i]]), Completions(arr, i + 1, k, current));
  }

  lemma NoneLeft<T>(arr: seq<T>, i: nat, k: nat, current: seq<T>, result: seq<seq<T>>)
    requires k > 0 && i + k > |arr|
    ensures result + Completions(arr, i, k, current) == result
  {
  }

  lemma Regroup<T>(a: seq<T>, b: seq<T>, c: seq<T>)
    ensures (a + b) + c == a + (b + c)
  {
  }

  /** Appends every way to complete `current` with `k` devices from `start` on. */
  method Helper<T>(arr: seq<T>, start: nat, k: nat, current: seq<T>, result: seq<seq<T>>) returns (result': seq<seq<T>>)
    ensures result' == result + Completions(arr, start, k, current)
    decreases k, 1
  {
    if k == 0 {
      return result + [current];
    }
    result' := result;
    var i := start;
    ghost var goal := result + Completions(arr, start, k, current);
    while i + k <= |arr|
      invariant result' + Completions(arr, i, k, current) == goal
    {
      result' := TakeAt(arr, i, k, current, result');
      i := i + 1;
    }
    NoneLeft(arr, i, k, current, result');
  }

  /** Appends those that take the device at `i`. */
  method TakeAt<T>(arr: seq<T>, i: nat, k: nat, current: seq<T>, result: seq<seq<T>>) returns (result': seq<seq<T>>)
    requires k > 0 && i + k <= |arr|
    ensures result' + Completions(arr, i + 1, k, current) == result + Completions(arr, i, k, current)
    decreases k, 0
  {
    result' := Helper(arr, i + 1, k - 1, current + [arr[i]], result);
    TakenFirst(arr, i, k, current, result, result');
  }

  predicate InRange(ps: seq<Pick>, n: nat) {
    forall x, i :: 0 <= x < |ps| && 0 <= i < |ps[x]| ==> ps[x][i] < n
  }

  lemma ChooseFirst<T>(arr: seq<T>, current: seq<T>, i: nat, p: Pick)
    requires i < |arr| && forall j :: 0 <= j < |p| ==> p[j] < |arr|
    ensures current + Choose(arr, [i] + p) == current + [arr[i]] + Choose(arr, p)
  {
    assert Choose(arr, [i] + p) == [arr[i]] + Choose(arr, p);
    Regroup(current, [arr[i]], Choose(arr, p));
  }

  lemma ExtendPrepend<T>(arr: seq<T>, current: seq<T>, i: nat, ps: seq<Pick>)
    requires i < |arr| && InRange(ps, |arr|)
    ensures InRange(Prepend(i, ps), |arr|) && Extend(arr, current, Prepend(i, ps)) == Extend(arr, current + [arr[i]], ps)
  {
    forall x | 0 <= x < |ps| ensures current + Choose(arr, [i] + ps[x]) == current + [arr[i]] + Choose(arr, ps[x]) {
      ChooseFirst(arr, current, i, ps[x]);
    }
  }

  lemma ExtendConcat<T>(arr: seq<T>, current: seq<T>, ps: seq<Pick>, qs: seq<Pick>)
    requires InRange(ps, |arr|) && InRange(qs, |arr|)
    ensures InRange(ps + qs, |arr|) && Extend(arr, current, ps + qs) == Extend(arr, current, ps) + Extend(arr, current, qs)
  {
  }

  lemma ExtendStep<T>(arr: seq<T>, current: seq<T>, i: nat, k: nat)
    requires 0 < k && i + k <= |arr|
    ensures Extend(arr, current, Picks(i, |arr|, k)) ==
      Extend(arr, current + [arr[i]], Picks(i + 1, |arr|, k - 1)) + Extend(arr, current, Picks(i + 1, |arr|, k))
  {
    var first, rest := Picks(i + 1, |arr|, k - 1), Picks(i + 1, |arr|, k);
    ExtendPrepend(arr, current, i, first);
    ExtendConcat(arr, current, Prepend(i, first), rest);
  }

  /** The completions are those of the enumeration of picks, in its order. */
  lemma {:induction false} CompletionsExtend<T>(arr: seq<T>, start: nat, k: nat, current: seq<T>)
    ensures Completions(arr, start, k, current) == Extend(arr, current, Picks(start, |arr|, k))
    decreases |arr| - start
  {
    if k == 0 {
      assert current + Choose(arr, []) == current;
    } else if start + k <= |arr| {
      CompletionsExtend(arr, start + 1, k - 1, current + [arr[start]]);
      CompletionsExtend(arr, start + 1, k, current);
      ExtendStep(arr, current, start, k);
    }
  }

  method GenerateCombinations<T>(devices: seq<T>, num: nat) returns (result: seq<seq<T>>)
    ensures |result| == |Picks(0, |devices|, num)|
    ensures forall x :: 0 <= x < |result| ==> result[x] == Choose(devices, Picks(0, |devices|, num)[x])
  {
    result := Helper(devices, 0, num, [], []);
    CompletionsExtend(devices, 0, num, []);
  }

  // ---------- Scores ----------

  /** The score of the pairs `(i, z)` with `i` before `z`, summed over `z < n`. */
  function PairsBelow<T>(row: seq<T>, n: nat, score: (T, T) -> int): int
    requires n <= |row|
  {
    if n == 0 then 0 else PairsBelow(row, n - 1, score) + PairsWith(row, n - 1, n - 1, score)
  }

  function PairsWith<T>(row: seq<T>, z: nat, n: nat, score: (T, T) -> int): int
    requires n <= z < |row|
  {
    if n == 0 then 0 else PairsWith(row, z, n - 1, score) + score(row[n - 1], row[z])
  }

  /** The total score of all pairs of a combination. */
  function PairTotal<T>(row: seq<T>, score: (T, T) -> int): int {
    PairsBelow(row, |row|, score)
  }

  function PairsAfter<T>(row: seq<T>, i: nat, z: nat, score: (T, T) -> int): int
    requires i < z <= |row|
    decreases z
  {
    if z == i + 1 then 0 else PairsAfter(row, i, z - 1, score) + score(row[i], row[z - 1])
  }

  function PairsFrom<T>(row: seq<T>, n: nat, m: nat, score: (T, T) -> int): int
    requires n <= m <= |row|
  {
    if n == 0 then 0 else PairsFrom(row, n - 1, m, score) + PairsAfter(row, n - 1, m, score)
  }

  /** Summing row by row and column by column gives the same total. */
  lemma {:induction false} PairsTranspose<T>(row: seq<T>, n: nat, m: nat, score: (T, T) -> int)
    requires n <= m < |row|
    ensures PairsFrom(row, n, m + 1, score) == PairsFrom(row, n, m, score) + PairsWith(row, m, n, score)
  {
    if n > 0 { PairsTranspose(row, n - 1, m, score); }
  }

  lemma {:induction false} PairsFromBelow<T>(row: seq<T>, m: nat, score: (T, T) -> int)
    requires m <= |row|
    ensures PairsFrom(row, m, m, score) == PairsBelow(row, m, score)
  {
    if m > 0 {
      PairsFromBelow(row, m - 1, score);
      PairsTranspose(row, m - 1, m - 1, score);
      assert PairsAfter(row, m - 1, m, score) == 0;
    }
  }

  method TotalScore<T>(row: seq<T>, score: (T, T) -> int) returns (total: int)
    ensures total == PairTotal(row, score)
  {
    total := 0;
    for i := 0 to |row|
      invariant total == PairsFrom(row, i, |row|, score)
    {
      for z := i + 1 to |row|
        invariant total == PairsFrom(row, i, |row|, score) + PairsAfter(row, i, z, score)
      {
        total := total + score(row[i], row[z]);
      }
    }
    PairsFromBelow(row, |row|, score);
  }

  /** `b` is the first position whose score no other position exceeds. */
  ghost predicate FirstBest<T>(xs: seq<seq<T>>, b: nat, score: (T, T) -> int) {
    && b < |xs|
    && (forall x :: 0 <= x < |xs| ==> PairTotal(xs[x], score) <= PairTotal(xs[b], score))
    && (forall x :: 0 <= x < b ==> PairTotal(xs[x], score) < PairTotal(xs[b], score))
  }

  method ComputeBestCombination<T>(combinations: seq<seq<T>>, score: (T, T) -> int) returns (best: seq<T>)
    ensures combinations == [] ==> best == []
    ensures combinations != [] ==> exists b: nat :: FirstBest(combinations, b, score) && best == combinations[b]
  {
    best := [];
    var bestScore, found := -1, false;
    ghost var b := 0;
    for x := 0 to |combinations|
      invariant found == (x > 0)
      invariant found ==> b < x && best == combinations[b] && bestScore == PairTotal(best, score)
      invariant forall y :: 0 <= y < x ==> PairTotal(combinations[y], score) <= bestScore
      invariant b <= x && forall y :: 0 <= y < b ==> PairTotal(combinations[y], score) < bestScore
      invariant !found ==> best == [] && b == 0
    {
      var total := TotalScore(combinations[x], score);
      if !found || total > bestScore {
        found, bestScore, best, b := true, total, combinations[x], x;
      }
    }
    if combinations != [] {
      assert FirstBest(combinations, b, score);
    }
  }

  /** `p` is an optimum, and every pick before it in lexicographic order is worse. */
  ghost predicate FirstOptimum<T>(devices: seq<T>, k: nat, p: Pick, score: (T, T) -> int) {
    && IsPick(p, 0, |devices|, k)
    && (forall q :: IsPick(q, 0, |devices|, k) ==> PairTotal(Choose(devices, q), score) <= PairTotal(Choose(devices, p), score))
    && (forall q :: IsPick(q, 0, |devices|, k) && LexLess(q, p) ==>
          PairTotal(Choose(devices, q), score) < PairTotal(Choose(devices, p), score))
  }

  lemma {:induction false} LexLessAsymmetric(a: Pick, b: Pick)
    requires LexLess(a, b)
    ensures !LexLess(b, a)
  {
    if a[0] == b[0] { LexLessAsymmetric(a[1..], b[1..]); }
  }

  /** The first maximiser of the enumeration is the lexicographically first optimum
      among all picks. */
  lemma FirstBestIsOptimum<T>(devices: seq<T>, k: nat, xs: seq<seq<T>>, b: nat, score: (T, T) -> int)
    requires |xs| == |Picks(0, |devices|, k)| && FirstBest(xs, b, score)
    requires forall x :: 0 <= x < |xs| ==> xs[x] == Choose(devices, Picks(0, |devices|, k)[x])
    ensures FirstOptimum(devices, k, Picks(0, |devices|, k)[b], score)
  {
    var ps := Picks(0, |devices|, k);
    forall q | IsPick(q, 0, |devices|, k)
      ensures PairTotal(Choose(devices, q), score) <= PairTotal(Choose(devices, ps[b]), score)
      ensures LexLess(q, ps[b]) ==> PairTotal(Choose(devices, q), score) < PairTotal(Choose(devices, ps[b]), score)
    {
      PicksComplete(q, 0, |devices|, k);
      var x :| 0 <= x < |ps| && ps[x] == q;
      assert xs[x] == Choose(devices, q);
      if LexLess(q, ps[b]) && x >= b {
        if x == b { LexLessIrreflexive(q); } else { PicksIncreasing(0, |devices|, k, b, x); LexLessAsymmetric(ps[b], q); }
      }
    }
  }

  /** More than `k` candidates always leave something to choose. */
  lemma {:induction false} PicksNonempty(lo: nat, n: nat, k: nat)
    requires lo + k <= n
    ensures Picks(lo, n, k) != []
    decreases k
  {
    if k > 0 { PicksNonempty(lo + 1, n, k - 1); }
  }

  /** Enumerating and then maximising finds the lexicographically first optimum. */
  method BestOf<T>(devices: seq<T>, num: nat, score: (T, T) -> int) returns (best: seq<T>)
    requires num <= |devices|
    ensures exists p :: FirstOptimum(devices, num, p, score) && best == Choose(devices, p)
  {
    var combinations := GenerateCombinations(devices, num);
    best := ComputeBestCombination(combinations, score);
    PicksNonempty(0, |devices|, num);
    ghost var b: nat :| FirstBest(combinations, b, score) && best == combinations[b];
    FirstBestIsOptimum(devices, num, combinations, b, score);
  }
}
