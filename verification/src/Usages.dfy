/** Amounts of the three resources a device hands out, and sums of them.

    A device counts device memory, core percentage and concurrent tasks (slots).
    Every accounting rule of the scheduler treats the three counters alike, so
    records carry them together as a `Usage`, and properties are stated for an
    arbitrary counter `r`.
 */
module Usages {

  datatype Res = Mem | Cores | Slots

  datatype Usage = Usage(mem: nat, cores: nat, slots: nat) {
    function Of(r: Res): nat {
      match r
      case Mem => mem
      case Cores => cores
      case Slots => slots
    }

    function Plus(o: Usage): Usage {
      Usage(mem + o.mem, cores + o.cores, slots + o.slots)
    }

    /** The larger amount of each counter, taken independently. */
    function Join(o: Usage): Usage {
      Usage(Max(mem, o.mem), Max(cores, o.cores), Max(slots, o.slots))
    }
  }

  function Max(a: int, b: int): (m: int) {
    if a >= b then a else b
  }

  /** The sum of `f` over the items of `m`. */
  ghost function SumMap<K, V>(m: map<K, V>, f: (K, V) -> nat): nat
    decreases |m|
  {
    if m == map[] then 0
    else
      var k :| k in m;
      SumMap(m - {k}, f) + f(k, m[k])
  }

  /** Any key may be taken out of a sum first. */
  lemma {:induction false} SumMapRemove<K, V>(m: map<K, V>, f: (K, V) -> nat, k: K)
    requires k in m
    ensures SumMap(m, f) == SumMap(m - {k}, f) + f(k, m[k])
    decreases |m|
  {
    var c :| c in m && SumMap(m, f) == SumMap(m - {c}, f) + f(c, m[c]);
    if c != k {
      SumMapRemove(m - {c}, f, k);
      SumMapRemove(m - {k}, f, c);
      assert m - {c} - {k} == m - {k} - {c};
    }
  }

  /** Writing one key replaces that key's share of the sum and nothing else. */
  lemma SumMapUpdate<K, V>(m: map<K, V>, f: (K, V) -> nat, k: K, v: V)
    ensures SumMap(m[k := v], f) == SumMap(m - {k}, f) + f(k, v)
  {
    SumMapRemove(m[k := v], f, k);
    assert m[k := v] - {k} == m - {k};
  }

  /** A smaller map with smaller values has a smaller sum. */
  lemma {:induction false} SumMapMono<K, V>(small: map<K, V>, big: map<K, V>, f: (K, V) -> nat)
    requires forall k :: k in small ==> k in big && f(k, small[k]) <= f(k, big[k])
    ensures SumMap(small, f) <= SumMap(big, f)
    decreases |small|
  {
    if small != map[] {
      var k :| k in small;
      SumMapRemove(small, f, k);
      SumMapRemove(big, f, k);
      SumMapMono(small - {k}, big - {k}, f);
    }
  }

  lemma {:induction false} SumMapZero<K, V>(m: map<K, V>, f: (K, V) -> nat)
    requires forall k :: k in m ==> f(k, m[k]) == 0
    ensures SumMap(m, f) == 0
    decreases |m|
  {
    if m != map[] {
      var k :| k in m;
      SumMapRemove(m, f, k);
      SumMapZero(m - {k}, f);
    }
  }

  /** Two maps with the same keys and matching terms have the same sum. */
  lemma {:induction false} SumMapSame<K, V, W>(m: map<K, V>, n: map<K, W>, f: (K, V) -> nat, g: (K, W) -> nat)
    requires m.Keys == n.Keys && forall k :: k in m ==> f(k, m[k]) == g(k, n[k])
    ensures SumMap(m, f) == SumMap(n, g)
    decreases |m|
  {
    if m != map[] {
      var k :| k in m;
      SumMapRemove(m, f, k);
      SumMapRemove(n, g, k);
      SumMapSame(m - {k}, n - {k}, f, g);
    }
  }

  /** Items that contribute nothing can be left out. */
  lemma {:induction false} SumMapPart<K, V>(small: map<K, V>, big: map<K, V>, f: (K, V) -> nat)
    requires forall k :: k in small ==> k in big && big[k] == small[k]
    requires forall k :: k in big && k !in small ==> f(k, big[k]) == 0
    ensures SumMap(small, f) == SumMap(big, f)
    decreases |big|
  {
    if big != map[] {
      var k :| k in big;
      SumMapRemove(big, f, k);
      if k in small { SumMapRemove(small, f, k); }
      assert k !in small ==> small - {k} == small;
      SumMapPart(small - {k}, big - {k}, f);
    } else {
      assert small == map[];
    }
  }

  lemma {:induction false} SumMapPlus<K, V>(m: map<K, V>, f: (K, V) -> nat, g: (K, V) -> nat, h: (K, V) -> nat)
    requires forall k :: k in m ==> h(k, m[k]) == f(k, m[k]) + g(k, m[k])
    ensures SumMap(m, h) == SumMap(m, f) + SumMap(m, g)
    decreases |m|
  {
    if m != map[] {
      var k :| k in m;
      SumMapRemove(m, f, k);
      SumMapRemove(m, g, k);
      SumMapRemove(m, h, k);
      SumMapPlus(m - {k}, f, g, h);
    }
  }

  /** The sum of `f` over the members of `s`. */
  ghost function SumSet<K>(s: set<K>, f: K -> nat): nat {
    if s == {} then 0
    else
      var k :| k in s;
      SumSet(s - {k}, f) + f(k)
  }

  lemma {:induction false} SumSetRemove<K>(s: set<K>, f: K -> nat, k: K)
    requires k in s
    ensures SumSet(s, f) == SumSet(s - {k}, f) + f(k)
  {
    var c :| c in s && SumSet(s, f) == SumSet(s - {c}, f) + f(c);
    if c != k {
      SumSetRemove(s - {c}, f, k);
      SumSetRemove(s - {k}, f, c);
      assert s - {c} - {k} == s - {k} - {c};
    }
  }

  /** A sum grows with its set and with its terms. */
  lemma {:induction false} SumSetMono<K>(small: set<K>, big: set<K>, f: K -> nat, g: K -> nat)
    requires small <= big && forall k :: k in small ==> f(k) <= g(k)
    ensures SumSet(small, f) <= SumSet(big, g)
  {
    if small != {} {
      var k :| k in small;
      SumSetRemove(small, f, k);
      SumSetRemove(big, g, k);
      SumSetMono(small - {k}, big - {k}, f, g);
    }
  }

  lemma {:induction false} SumSetPlus<K>(s: set<K>, f: K -> nat, g: K -> nat, h: K -> nat)
    requires forall k :: k in s ==> h(k) == f(k) + g(k)
    ensures SumSet(s, h) == SumSet(s, f) + SumSet(s, g)
  {
    if s != {} {
      var k :| k in s;
      SumSetRemove(s, f, k);
      SumSetRemove(s, g, k);
      SumSetRemove(s, h, k);
      SumSetPlus(s - {k}, f, g, h);
    }
  }
}
