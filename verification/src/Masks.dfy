/** Core masks: a non-negative integer whose binary digits are cores. */
module Masks {

  function And(a: nat, b: nat): nat {
    if a == 0 || b == 0 then 0 else (if a % 2 == 1 && b % 2 == 1 then 1 else 0) + 2 * And(a / 2, b / 2)
  }

  function Or(a: nat, b: nat): nat {
    if a == 0 then b else if b == 0 then a else (if a % 2 == 1 || b % 2 == 1 then 1 else 0) + 2 * Or(a / 2, b / 2)
  }

  /** The number of cores of a mask. */
  function Ones(a: nat): nat {
    if a == 0 then 0 else a % 2 + Ones(a / 2)
  }

  function Pow2(k: nat): (p: nat)
    ensures p >= 1
  {
    if k == 0 then 1 else 2 * Pow2(k - 1)
  }

  /** `len` neighbouring cores from position `start` on. */
  function Run(start: nat, len: nat): nat {
    (Pow2(len) - 1) * Pow2(start)
  }

  lemma OnesDouble(a: nat, low: nat)
    requires low < 2
    ensures Ones(2 * a + low) == low + Ones(a)
  {
    assert (2 * a + low) / 2 == a && (2 * a + low) % 2 == low;
  }

  lemma {:induction false} OnesBelow(k: nat)
    ensures Ones(Pow2(k) - 1) == k
  {
    if k > 0 {
      OnesBelow(k - 1);
      OnesDouble(Pow2(k - 1) - 1, 1);
    }
  }

  lemma {:induction false} RunOnes(start: nat, len: nat)
    ensures Ones(Run(start, len)) == len
  {
    OnesBelow(len);
    if start > 0 {
      RunOnes(start - 1, len);
      RunShift(start, len);
      OnesDouble(Run(start - 1, len), 0);
    }
  }

  lemma RunShift(start: nat, len: nat)
    requires start > 0
    ensures Run(start, len) == 2 * Run(start - 1, len)
  {
    var x, y := Pow2(len) - 1, Pow2(start - 1);
    assert x * (2 * y) == 2 * (x * y);
  }

  /** Joining two masks counts every core once. */
  lemma {:induction false} OnesJoin(a: nat, b: nat)
    ensures Ones(Or(a, b)) + Ones(And(a, b)) == Ones(a) + Ones(b)
  {
    if a != 0 && b != 0 {
      OnesJoin(a / 2, b / 2);
      var hi := if a % 2 == 1 || b % 2 == 1 then 1 else 0;
      var lo := if a % 2 == 1 && b % 2 == 1 then 1 else 0;
      OnesDouble(Or(a / 2, b / 2), hi);
      OnesDouble(And(a / 2, b / 2), lo);
      assert Ones(a) == a % 2 + Ones(a / 2) && Ones(b) == b % 2 + Ones(b / 2);
    }
  }

  // ---------- Masks that meet ----------

  lemma {:induction false} AndSymmetric(a: nat, b: nat)
    ensures And(a, b) == And(b, a)
  {
    if a != 0 && b != 0 { AndSymmetric(a / 2, b / 2); }
  }

  lemma AndDouble(a: nat, b: nat, la: nat, lb: nat)
    requires la < 2 && lb < 2
    ensures And(2 * a + la, 2 * b + lb) == (if la == 1 && lb == 1 then 1 else 0) + 2 * And(a, b)
  {
    assert (2 * a + la) / 2 == a && (2 * b + lb) / 2 == b;
  }

  lemma OrDouble(a: nat, b: nat, la: nat, lb: nat)
    requires la < 2 && lb < 2
    ensures Or(2 * a + la, 2 * b + lb) == (if la == 1 || lb == 1 then 1 else 0) + 2 * Or(a, b)
  {
    assert (2 * a + la) / 2 == a && (2 * b + lb) / 2 == b;
  }

  /** A mask meets a join exactly when it meets one of its parts. */
  lemma {:induction false} MeetsJoin(a: nat, b: nat, c: nat)
    ensures And(Or(a, b), c) == 0 <==> And(a, c) == 0 && And(b, c) == 0
  {
    if a != 0 && b != 0 && c != 0 {
      MeetsJoin(a / 2, b / 2, c / 2);
      MeetsJoinDouble(a / 2, b / 2, c / 2, a % 2, b % 2, c % 2);
    }
  }

  lemma MeetsJoinDouble(a: nat, b: nat, c: nat, la: nat, lb: nat, lc: nat)
    requires la < 2 && lb < 2 && lc < 2 && (And(Or(a, b), c) == 0 <==> And(a, c) == 0 && And(b, c) == 0)
    ensures And(Or(2 * a + la, 2 * b + lb), 2 * c + lc) == 0 <==> And(2 * a + la, 2 * c + lc) == 0 && And(2 * b + lb, 2 * c + lc) == 0
  {
    OrDouble(a, b, la, lb);
    AndDouble(Or(a, b), c, if la == 1 || lb == 1 then 1 else 0, lc);
    AndDouble(a, c, la, lc);
    AndDouble(b, c, lb, lc);
  }

  lemma {:induction false} AndAssociative(a: nat, b: nat, c: nat)
    ensures And(And(a, b), c) == And(a, And(b, c))
  {
    if a != 0 && b != 0 && c != 0 {
      AndAssociative(a / 2, b / 2, c / 2);
      AndDouble(a / 2, b / 2, a % 2, b % 2);
      AndDouble(b / 2, c / 2, b % 2, c % 2);
      var ab := if a % 2 == 1 && b % 2 == 1 then 1 else 0;
      var bc := if b % 2 == 1 && c % 2 == 1 then 1 else 0;
      AndDouble(And(a / 2, b / 2), c / 2, ab, c % 2);
      AndDouble(a / 2, And(b / 2, c / 2), a % 2, bc);
    }
  }

  lemma {:induction false} BelowMeets(k: nat, j: nat)
    requires j <= k
    ensures And(Pow2(k) - 1, Pow2(j) - 1) == Pow2(j) - 1
  {
    if j > 0 {
      BelowMeets(k - 1, j - 1);
      AndDouble(Pow2(k - 1) - 1, Pow2(j - 1) - 1, 1, 1);
    }
  }

  /** A shorter run is part of a longer one. */
  lemma {:induction false} RunMeets(start: nat, k: nat, j: nat)
    requires j <= k
    ensures And(Run(start, k), Run(start, j)) == Run(start, j)
  {
    if start == 0 {
      BelowMeets(k, j);
    } else {
      RunMeets(start - 1, k, j);
      RunShift(start, k);
      RunShift(start, j);
      AndDouble(Run(start - 1, k), Run(start - 1, j), 0, 0);
    }
  }

  /** The cores of `a` are all in `b`. */
  predicate Part(a: nat, b: nat) {
    And(b, a) == a
  }

  /** Masks without a common core: adding is joining. */
  lemma {:induction false} AddIsJoin(a: nat, b: nat)
    requires And(a, b) == 0
    ensures a + b == Or(a, b)
  {
    if a != 0 && b != 0 {
      AndDouble(a / 2, b / 2, a % 2, b % 2);
      AddIsJoin(a / 2, b / 2);
      OrDouble(a / 2, b / 2, a % 2, b % 2);
    }
  }

  lemma {:induction false} OrAssociative(a: nat, b: nat, c: nat)
    ensures Or(Or(a, b), c) == Or(a, Or(b, c))
  {
    if a != 0 && b != 0 && c != 0 {
      OrAssociative(a / 2, b / 2, c / 2);
      OrDouble(a / 2, b / 2, a % 2, b % 2);
      OrDouble(b / 2, c / 2, b % 2, c % 2);
      var ab := if a % 2 == 1 || b % 2 == 1 then 1 else 0;
      var bc := if b % 2 == 1 || c % 2 == 1 then 1 else 0;
      OrDouble(Or(a / 2, b / 2), c / 2, ab, c % 2);
      OrDouble(a / 2, Or(b / 2, c / 2), a % 2, bc);
    }
  }

  lemma {:induction false} PartLe(a: nat, b: nat)
    requires Part(a, b)
    ensures a <= b
  {
    if a != 0 && b != 0 {
      AndDouble(b / 2, a / 2, b % 2, a % 2);
      PartLe(a / 2, b / 2);
    }
  }

  /** What misses a mask misses its parts. */
  lemma MissesPart(a: nat, b: nat, c: nat)
    requires Part(a, b) && And(b, c) == 0
    ensures And(a, c) == 0
  {
    AndSymmetric(b, a);
    AndAssociative(a, b, c);
    AndSymmetric(a, 0);
  }

  lemma {:induction false} PartRefl(a: nat)
    ensures Part(a, a)
  {
    if a != 0 {
      PartRefl(a / 2);
      AndDouble(a / 2, a / 2, a % 2, a % 2);
    }
  }

  /** Joined parts are a part. */
  lemma {:induction false} PartJoin(a: nat, b: nat, c: nat)
    requires Part(a, c) && Part(b, c)
    ensures Part(Or(a, b), c)
  {
    if a != 0 && b != 0 {
      PartHalf(a, c);
      PartHalf(b, c);
      PartJoin(a / 2, b / 2, c / 2);
      OrDouble(a / 2, b / 2, a % 2, b % 2);
      PartHalf(Or(a, b), c);
    }
  }

  lemma PartHalf(a: nat, c: nat)
    ensures Part(a, c) <==> Part(a / 2, c / 2) && a % 2 <= c % 2
  {
    AndDouble(c / 2, a / 2, c % 2, a % 2);
  }

  /** Counts the cores of a mask. */
  method CountMask(mask: nat) returns (ones: nat)
    ensures ones == Ones(mask)
  {
    var tmp := mask;
    ones := 0;
    while tmp > 0
      invariant ones + Ones(tmp) == Ones(mask)
    {
      ones := ones + tmp % 2;
      tmp := tmp / 2;
    }
  }
}
