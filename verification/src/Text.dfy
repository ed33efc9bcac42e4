/** Strings as the annotation codec uses them: decimal numbers, splitting and joining. */
module Text {
  import opened Devices

  // ---------- Splitting ----------

  predicate Free(s: string, c: char) {
    c !in s
  }

  /** Splits at every `c`; a string without `c` is its only part. */
  function Split(s: string, c: char): (parts: seq<string>)
    ensures |parts| > 0
    ensures forall i :: 0 <= i < |parts| ==> Free(parts[i], c)
  {
    if s == [] then [[]]
    else
      var rest := Split(s[1..], c);
      if s[0] == c then [[]] + rest else [[s[0]] + rest[0]] + rest[1..]
  }

  function Join(parts: seq<string>, c: char): string
    requires parts != []
  {
    if |parts| == 1 then parts[0] else parts[0] + [c] + Join(parts[1..], c)
  }

  lemma JoinCons(a: string, rest: seq<string>, c: char)
    requires rest != []
    ensures Join([a] + rest, c) == a + [c] + Join(rest, c)
  {
    assert ([a] + rest)[1..] == rest;
  }

  lemma {:induction false} SplitFree(s: string, c: char)
    requires Free(s, c)
    ensures Split(s, c) == [s]
  {
    if s != [] {
      SplitFree(s[1..], c);
      assert s == [s[0]] + s[1..];
    }
  }

  /** A separator ends the first part. */
  lemma {:induction false} SplitAt(a: string, b: string, c: char)
    requires Free(a, c)
    ensures Split(a + [c] + b, c) == [a] + Split(b, c)
  {
    var s := a + [c] + b;
    if a == [] {
      assert s[1..] == b;
    } else {
      SplitAt(a[1..], b, c);
      assert s[1..] == a[1..] + [c] + b;
      assert a == [a[0]] + a[1..];
    }
  }

  /** Splitting gives back the parts that were joined, if none contains the separator. */
  lemma {:induction false} SplitJoin(parts: seq<string>, c: char)
    requires parts != [] && forall i :: 0 <= i < |parts| ==> Free(parts[i], c)
    ensures Split(Join(parts, c), c) == parts
  {
    if |parts| == 1 {
      SplitFree(parts[0], c);
    } else {
      SplitJoin(parts[1..], c);
      SplitAt(parts[0], Join(parts[1..], c), c);
    }
  }

  lemma {:induction false} JoinFree(parts: seq<string>, c: char, x: char)
    requires parts != [] && c != x && forall i :: 0 <= i < |parts| ==> Free(parts[i], x)
    ensures Free(Join(parts, c), x)
  {
    if |parts| > 1 { JoinFree(parts[1..], c, x); }
  }

  // ---------- Decimal numbers ----------

  predicate IsDigit(c: char) { '0' <= c <= '9' }

  function Digit(n: nat): char
    requires n < 10
  {
    '0' + n as char
  }

  function FormatInt(n: nat): (s: string)
    ensures s != [] && forall i :: 0 <= i < |s| ==> IsDigit(s[i])
  {
    if n < 10 then [Digit(n)] else FormatInt(n / 10) + [Digit(n % 10)]
  }

  /** The value of a digit string, or nothing if another character occurs. */
  function ParseDigits(s: string): Option<nat> {
    if s == [] then Some(0)
    else
      var last := s[|s| - 1];
      match ParseDigits(s[..|s| - 1])
      case None => None
      case Some(n) => if IsDigit(last) then Some(10 * n + (last as int - '0' as int)) else None
  }

  /** A decimal integer with an optional sign. */
  function ParseInt(s: string): Option<int> {
    if s == [] then None
    else if s[0] == '+' || s[0] == '-' then
      if |s| == 1 then None
      else
        match ParseDigits(s[1..])
        case None => None
        case Some(n) => if s[0] == '-' then Some(0 - n) else Some(n)
    else
      match ParseDigits(s)
      case None => None
      case Some(n) => Some(n)
  }

  lemma {:induction false} ParseFormatDigits(n: nat)
    ensures ParseDigits(FormatInt(n)) == Some(n)
  {
    if n < 10 {
      assert [Digit(n)][..0] == [];
    } else {
      ParseFormatDigits(n / 10);
      var s := FormatInt(n);
      assert s[..|s| - 1] == FormatInt(n / 10);
    }
  }

  lemma ParseFormat(n: nat)
    ensures ParseInt(FormatInt(n)) == Some(n)
  {
    ParseFormatDigits(n);
    assert IsDigit(FormatInt(n)[0]);
  }

  lemma FormatFree(n: nat, c: char)
    requires !IsDigit(c)
    ensures Free(FormatInt(n), c)
  {
  }

  /** Decimal notation: one character for a number below ten, otherwise the text of the tens
      followed by that of the ones. */
  lemma Decimal(n: nat)
    ensures n < 10 ==> FormatInt(n) == ["0123456789"[n]]
    ensures n >= 10 ==> FormatInt(n) == FormatInt(n / 10) + FormatInt(n % 10)
  {
  }
}
