/** Byte strings as the ledger file holds them: newline-terminated prefixes and the
    first/last occurrence searches the file scans are written with. */
module Bytes {

  type byte = x: int | 0 <= x < 256

  const NL: byte := 10
  const CR: byte := 13

  predicate EndsLine(b: seq<byte>) {
    b == [] || b[|b| - 1] == NL
  }

  /** The longest newline-terminated prefix: what is left once a torn tail is dropped. */
  function Terminated(b: seq<byte>): (t: seq<byte>)
    ensures EndsLine(t)
    ensures t <= b
    ensures NL !in b[|t|..]
  {
    if EndsLine(b) then b
    else
      var t := Terminated(b[..|b| - 1]);
      assert b[|t|..] == b[..|b| - 1][|t|..] + [b[|b| - 1]];
      t
  }

  lemma NoneAfter(b: seq<byte>, n: nat)
    requires n <= |b| && NL !in b[n..]
    ensures forall i :: n <= i < |b| ==> b[i] != NL
  {
    forall i | n <= i < |b| ensures b[i] != NL { assert b[i] == b[n..][i - n]; }
  }

  /** There is only one way to cut a file into complete lines and a torn tail. */
  lemma TerminatedIs(a: seq<byte>, torn: seq<byte>)
    requires EndsLine(a) && NL !in torn
    ensures Terminated(a + torn) == a
  {
    var b := a + torn;
    assert b[|a|..] == torn;
    NoneAfter(b, |a|);
    NoneAfter(b, |Terminated(b)|);
    assert |Terminated(b)| == |a|;
  }

  /** Index of the first `c` at or after `from`, or -1. */
  function Find(b: seq<byte>, c: byte, from: nat := 0): (i: int)
    requires from <= |b|
    ensures -1 <= i < |b|
    ensures forall k :: from <= k < (if i == -1 then |b| else i) ==> b[k] != c
    ensures i != -1 ==> from <= i && b[i] == c
    decreases |b| - from
  {
    if from == |b| then -1
    else if b[from] == c then from
    else Find(b, c, from + 1)
  }

  /** Index of the last `c`, or -1. */
  function RFind(b: seq<byte>, c: byte): (i: int)
    ensures -1 <= i < |b|
    ensures forall k :: i < k < |b| ==> b[k] != c
    ensures i != -1 ==> b[i] == c
  {
    if b == [] then -1
    else if b[|b| - 1] == c then |b| - 1
    else RFind(b[..|b| - 1], c)
  }
}
