/** Bounded text as the stores and the capture artifacts accept it. */
module Texts {

  predicate IsAlnum(c: char) {
    'a' <= c <= 'z' || 'A' <= c <= 'Z' || '0' <= c <= '9'
  }

  predicate IsHex(c: char) {
    '0' <= c <= '9' || 'a' <= c <= 'f'
  }

  predicate IsHexDigest(s: string) {
    |s| == 64 && forall i :: 0 <= i < 64 ==> IsHex(s[i])
  }

  predicate IsToken(s: string, limit: nat) {
    && 1 <= |s| <= limit && IsAlnum(s[0])
    && forall i :: 0 <= i < |s| ==> IsAlnum(s[i]) || s[i] in "._-"
  }

  /** No control character. */
  predicate Printable(s: string) {
    forall i :: 0 <= i < |s| ==> s[i] >= ' ' && !(127 <= s[i] as int < 160)
  }

  predicate BoundedText(s: string, limit: nat) {
    1 <= |s| <= limit && Printable(s)
  }

  /** Among printable characters only the space is stripped. */
  predicate Stripped(s: string) {
    s != [] ==> s[0] != ' ' && s[|s| - 1] != ' '
  }

  predicate Distinct<T(==)>(s: seq<T>) {
    forall i, j :: 0 <= i < j < |s| ==> s[i] != s[j]
  }

  /** One more value, tried against those already seen. */
  lemma DistinctSnoc(s: seq<string>, n: nat)
    requires n < |s| && Distinct(s[..n])
    ensures s[n] !in s[..n] ==> Distinct(s[..n + 1])
    ensures s[n] in s[..n] ==> !Distinct(s)
  {
    assert forall i :: 0 <= i < n ==> s[..n][i] == s[i] == s[..n + 1][i];
    assert s[..n + 1][n] == s[n];
    if s[n] in s[..n] {
      var i :| 0 <= i < n && s[..n][i] == s[n];
      assert s[i] == s[n];
    }
  }
}
