/** Housefile revisions: A, B, ..., Z, AA, AB, ..., ZZZZZZZZ, as a counter. */
module Revisions {

  datatype NextRevision = NextRevision(revision: string) | InvalidRevision | RevisionExhausted

  predicate IsLetter(c: char) {
    'A' <= c <= 'Z'
  }

  /** One to eight capital letters. */
  predicate IsRevision(s: string) {
    1 <= |s| <= 8 && forall i :: 0 <= i < |s| ==> IsLetter(s[i])
  }

  const LAST := "ZZZZZZZZ"

  // ---------------------------------------------------------------- bijective base 26

  predicate AreDigits(ds: seq<nat>) {
    forall i :: 0 <= i < |ds| ==> ds[i] < 26
  }

  /** `acc` followed by the digits `ds`, each standing for one more than itself. */
  function Fold(acc: nat, ds: seq<nat>): nat
    decreases |ds|
  {
    if ds == [] then acc else Fold(acc * 26 + ds[0] + 1, ds[1..])
  }

  function Digit(c: char): (d: nat)
    requires IsLetter(c)
    ensures d < 26
  {
    c as int - 'A' as int
  }

  function Letter(d: nat): (c: char)
    requires d < 26
    ensures IsLetter(c) && Digit(c) == d
  {
    (d + 'A' as int) as char
  }

  function Digits(s: string): (ds: seq<nat>)
    requires forall i :: 0 <= i < |s| ==> IsLetter(s[i])
    ensures |ds| == |s| && AreDigits(ds)
    ensures forall i :: 0 <= i < |s| ==> ds[i] == Digit(s[i])
  {
    seq(|s|, i requires 0 <= i < |s| => Digit(s[i]))
  }

  function Letters(ds: seq<nat>): (s: string)
    requires AreDigits(ds)
    ensures |s| == |ds| && (forall i :: 0 <= i < |s| ==> IsLetter(s[i])) && Digits(s) == ds
  {
    var s := seq(|ds|, i requires 0 <= i < |ds| => Letter(ds[i]));
    assert Digits(s) == ds;
    s
  }

  /** Which revision it is: A is 1. */
  function Value(s: string): nat
    requires IsRevision(s)
  {
    Fold(0, Digits(s))
  }

  lemma {:induction false} FoldSnoc(acc: nat, ds: seq<nat>, d: nat)
    ensures Fold(acc, ds + [d]) == Fold(acc, ds) * 26 + d + 1
    decreases |ds|
  {
    if ds == [] {
      assert ([d])[1..] == [];
    } else {
      assert (ds + [d])[1..] == ds[1..] + [d];
      FoldSnoc(acc * 26 + ds[0] + 1, ds[1..], d);
    }
  }

  lemma {:induction false} FoldMany(acc: nat, a: seq<nat>, b: seq<nat>)
    ensures Fold(acc, a + b) == Fold(Fold(acc, a), b)
    decreases |a|
  {
    if a == [] {
      assert a + b == b;
    } else {
      assert (a + b)[1..] == a[1..] + b;
      FoldMany(acc * 26 + a[0] + 1, a[1..], b);
    }
  }

  lemma LastDigit(a: nat, d: nat, b: nat, e: nat)
    requires d < 26 && e < 26 && a * 26 + d == b * 26 + e
    ensures a == b && d == e
  {
  }

  /** The number determines the numeral: there is no leading zero to write twice. */
  lemma {:induction false} FoldInjective(a: seq<nat>, b: seq<nat>)
    requires AreDigits(a) && AreDigits(b) && Fold(0, a) == Fold(0, b)
    ensures a == b
    decreases |a|
  {
    if a != [] { FoldSnoc(0, a[..|a| - 1], a[|a| - 1]); assert a == a[..|a| - 1] + [a[|a| - 1]]; }
    if b != [] { FoldSnoc(0, b[..|b| - 1], b[|b| - 1]); assert b == b[..|b| - 1] + [b[|b| - 1]]; }
    if a != [] && b != [] {
      LastDigit(Fold(0, a[..|a| - 1]), a[|a| - 1], Fold(0, b[..|b| - 1]), b[|b| - 1]);
      FoldInjective(a[..|a| - 1], b[..|b| - 1]);
    }
  }

  lemma ValueInjective(a: string, b: string)
    requires IsRevision(a) && IsRevision(b) && Value(a) == Value(b)
    ensures a == b
  {
    FoldInjective(Digits(a), Digits(b));
    forall i | 0 <= i < |a| ensures a[i] == b[i] {
      assert Digits(a)[i] == Digits(b)[i];
    }
  }

  function Largest(n: nat): nat {
    if n == 0 then 0 else Largest(n - 1) * 26 + 26
  }

  lemma {:induction false} FoldLargest(ds: seq<nat>)
    requires AreDigits(ds)
    ensures Fold(0, ds) <= Largest(|ds|)
    ensures (forall i :: 0 <= i < |ds| ==> ds[i] == 25) ==> Fold(0, ds) == Largest(|ds|)
    decreases |ds|
  {
    if ds != [] {
      var n := |ds| - 1;
      FoldLargest(ds[..n]);
      FoldSnoc(0, ds[..n], ds[n]);
      assert ds == ds[..n] + [ds[n]];
    }
  }

  lemma {:induction false} LargestGrows(m: nat, n: nat)
    requires m <= n
    ensures Largest(m) <= Largest(n)
    decreases n
  {
    if m < n { LargestGrows(m, n - 1); }
  }

  /** ZZZZZZZZ is the last there is. */
  lemma LastIsLargest(s: string)
    requires IsRevision(s)
    ensures IsRevision(LAST) && Value(s) <= Value(LAST)
  {
    FoldLargest(Digits(s));
    assert forall i :: 0 <= i < 8 ==> LAST[i] == 'Z';
    FoldLargest(Digits(LAST));
    LargestGrows(|s|, 8);
  }

  // ---------------------------------------------------------------- the counter

  /** What one step of the carry loop keeps of the sum. */
  lemma CarryStep(before: seq<nat>, i: nat, low: seq<nat>, sum: nat)
    requires i < |before| && before[i] <= 25 && sum == before[i] + 1
    ensures Fold(Fold(0, before[..i]) + sum / 26, [sum % 26] + low) == Fold(Fold(0, before[..i + 1]) + 1, low)
  {
    assert before[..i + 1] == before[..i] + [before[i]];
    FoldSnoc(0, before[..i], before[i]);
    assert ([sum % 26] + low)[1..] == low;
  }

  /** Between two turns of the loop: digits before `at` are still the old ones, and with
      the carry the number is one more than it was. */
  predicate Carried(before: seq<nat>, values: seq<nat>, at: nat, carry: nat)
    requires |values| == |before| && at <= |values|
  {
    && values[..at] == before[..at]
    && Fold(Fold(0, before[..at]) + carry, values[at..]) == Fold(0, before) + 1
    && (carry == 1 <==> forall i :: at <= i < |before| ==> before[i] == 25)
  }

  lemma CarryOne(before: seq<nat>, values: seq<nat>, i: nat)
    requires i < |values| == |before| && AreDigits(before) && Carried(before, values, i + 1, 1)
    ensures var value := values[i] + 1;
            Carried(before, values[i := value % 26], i, value / 26)
  {
    var value := values[i] + 1;
    assert values[i] == values[..i + 1][i] == before[..i + 1][i];
    CarryStep(before, i, values[i + 1..], value);
    var next := values[i := value % 26];
    assert next[i..] == [value % 26] + values[i + 1..];
    assert next[..i] == values[..i + 1][..i] == before[..i];
    hide Fold;
    assert (value / 26 == 1) <==> before[i] == 25;
  }

  lemma CarryEnds(before: seq<nat>, values: seq<nat>, at: nat, carry: nat)
    requires at <= |values| == |before| && Carried(before, values, at, carry) && carry <= 1
    requires at == 0 || carry == 0
    ensures Fold(0, if carry > 0 then [0] + values else values) == Fold(0, before) + 1
    ensures carry > 0 <==> forall i :: 0 <= i < |before| ==> before[i] == 25
  {
    if carry == 0 {
      FoldMany(0, values[..at], values[at..]);
      assert values[..at] + values[at..] == values;
    } else {
      assert values[0..] == values;
      assert ([0] + values)[1..] == values;
    }
  }

  /** `_next_revision`: the carry loop is the successor, and only the last revision has
      none. */
  method Next(revision: string) returns (r: NextRevision)
    ensures r.InvalidRevision? <==> !IsRevision(revision)
    ensures r.RevisionExhausted? <==> revision == LAST
    ensures r.NextRevision? ==> IsRevision(r.revision) && Value(r.revision) == Value(revision) + 1
  {
    if !IsRevision(revision) { return InvalidRevision; }
    var values := Digits(revision);
    ghost var before := values;
    var index, carry := |values| - 1, 1;
    assert before[..|before|] == before;
    while index >= 0 && carry > 0
      invariant -1 <= index < |values| == |before| && carry <= 1 && AreDigits(values)
      invariant Carried(before, values, index + 1, carry)
    {
      var value := values[index] + carry;
      CarryOne(before, values, index);
      values := values[index := value % 26];
      carry := value / 26;
      index := index - 1;
    }
    CarryEnds(before, values, index + 1, carry);
    if carry > 0 { values := [0] + values; }
    LastIs(revision);
    if |values| > 8 { return RevisionExhausted; }
    r := NextRevision(Letters(values));
  }

  lemma LastIs(revision: string)
    requires IsRevision(revision)
    ensures revision == LAST <==> |revision| == 8 && forall i :: 0 <= i < 8 ==> Digits(revision)[i] == 25
  {
    if |revision| == 8 && forall i :: 0 <= i < 8 ==> Digits(revision)[i] == 25 {
      forall i | 0 <= i < 8 ensures revision[i] == LAST[i] {
        assert Digits(revision)[i] == 25;
        assert LAST[i] == 'Z';
      }
    }
  }
}
