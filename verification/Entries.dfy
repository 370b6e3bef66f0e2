/** A ledger entry, its canonical line, and the digests that bind such lines. */
module Entries {
  import opened Bytes
  import opened Json
  import opened Outcomes
  import opened Texts

  const MAX_ENTRY_BYTES: nat := 256 * 1024
  const MAX_REVISION: nat := 0x7FFF_FFFF_FFFF_FFFF
  const CHECKPOINT_TAIL_BYTES: nat := 64 * 1024

  datatype EventType = GRANT | READ | DENY | REVOKE | ESTOP | PROVISION

  /** The paired fields `transaction` and `grant_revision`. */
  datatype Stamp = Stamp(transaction: string, revision: nat)

  datatype Entry = Entry(
    ts: string,
    etype: EventType,
    agent: string,
    detail: string,
    tier: Option<string>,
    stamp: Option<Stamp>)

  /** SHA-256 as a free constructor: two digests agree exactly when their inputs do. */
  datatype Digest = Sha256(preimage: seq<byte>)

  /** The checkpoint digest covers the offset and at most the last 64 KiB before it. */
  datatype TailDigest = TailSha256(offset: nat, tail: seq<byte>)

  function TypeName(t: EventType): string {
    match t
    case GRANT => "GRANT"
    case READ => "READ"
    case DENY => "DENY"
    case REVOKE => "REVOKE"
    case ESTOP => "ESTOP"
    case PROVISION => "PROVISION"
  }

  predicate IsTransactionId(t: string) {
    |t| == 35 && t[..3] == "tx-" && forall i :: 3 <= i < 35 ==> IsHex(t[i])
  }

  /** `tx-` and 32 lower-case hexadecimal digits. */
  lemma TransactionMeans(t: string)
    ensures IsTransactionId(t) <==>
            && |t| == 35 && t[0] == 't' && t[1] == 'x' && t[2] == '-'
            && forall i :: 3 <= i < 35 ==> 48 <= t[i] as int <= 57 || 97 <= t[i] as int <= 102
  {
    if |t| == 35 { assert t[..3] == [t[0], t[1], t[2]]; }
  }

  /** What `_normalize(strict=True)` still has to check of a typed entry. */
  predicate EntryOk(e: Entry) {
    && |e.ts| > 0
    && |e.agent| > 0
    && (e.tier.Some? ==> |e.tier.value| > 0)
    && (e.stamp.Some? ==> IsTransactionId(e.stamp.value.transaction) && 0 < e.stamp.value.revision <= MAX_REVISION)
  }

  function RevisionField(e: Entry): (f: seq<Field>) {
    if e.stamp.Some? then [Field("grant_revision", Num(e.stamp.value.revision))] else []
  }

  function TierField(e: Entry): (f: seq<Field>) {
    if e.tier.Some? then [Field("tier", Str(e.tier.value))] else []
  }

  function TransactionField(e: Entry): (f: seq<Field>) {
    if e.stamp.Some? then [Field("transaction", Str(e.stamp.value.transaction))] else []
  }

  function ToJson(e: Entry): Json {
    Obj([Field("agent", Str(e.agent)), Field("detail", Str(e.detail))]
        + RevisionField(e) + TierField(e) + TransactionField(e)
        + [Field("ts", Str(e.ts)), Field("type", Str(TypeName(e.etype)))])
  }

  /** The bytes one entry occupies in the file. */
  function Line(e: Entry): (b: seq<byte>) {
    CanonicalLine(ToJson(e))
  }

  /** `_encode_entry` raises above this size. */
  predicate Fits(e: Entry) {
    |Line(e)| <= MAX_ENTRY_BYTES
  }

  lemma TypeNameInjective(a: EventType, b: EventType)
    requires TypeName(a) == TypeName(b)
    ensures a == b
  {
    var x, y := TypeName(a), TypeName(b);
    assert |x| == |y| && x[0] == y[0] && x[2] == y[2] && (|x| > 3 ==> x[3] == y[3]);
  }

  lemma ToJsonInjective(a: Entry, b: Entry)
    requires ToJson(a) == ToJson(b)
    ensures a == b
  {
    var f, g := ToJson(a).fields, ToJson(b).fields;
    var n := |f|;
    assert f[0] == Field("agent", Str(a.agent)) && g[0] == Field("agent", Str(b.agent));
    assert f[1] == Field("detail", Str(a.detail)) && g[1] == Field("detail", Str(b.detail));
    assert f[n - 2] == Field("ts", Str(a.ts)) && g[n - 2] == Field("ts", Str(b.ts));
    assert f[n - 1] == Field("type", Str(TypeName(a.etype))) && g[n - 1] == Field("type", Str(TypeName(b.etype)));
    TypeNameInjective(a.etype, b.etype);
    assert "grant_revision"[0] == 'g' && "tier"[0] == 't' && "tier"[1] == 'i' && "ts"[0] == 't' && "ts"[1] == 's';
    assert f[2].key[0] == 'g' <==> a.stamp.Some?;
    assert g[2].key[0] == 'g' <==> b.stamp.Some?;
    if a.stamp.Some? {
      assert f[2] == RevisionField(a)[0] && g[2] == RevisionField(b)[0];
      assert f[n - 3] == TransactionField(a)[0] && g[n - 3] == TransactionField(b)[0];
      assert n == 6 + |TierField(a)| == 6 + |TierField(b)|;
      if a.tier.Some? { assert f[3] == TierField(a)[0] && g[3] == TierField(b)[0]; }
    } else {
      assert n == 4 + |TierField(a)| == 4 + |TierField(b)|;
      if a.tier.Some? { assert f[2] == TierField(a)[0] && g[2] == TierField(b)[0]; }
    }
  }

  /** One entry, one line: a receipt digest pins the whole receipt. */
  lemma LineInjective(a: Entry, b: Entry)
    requires Line(a) == Line(b)
    ensures a == b
  {
    CanonicalLineInjective(ToJson(a), ToJson(b));
    ToJsonInjective(a, b);
  }

  lemma LineShape(e: Entry)
    ensures |Line(e)| >= 2
    ensures Line(e)[|Line(e)| - 1] == NL
    ensures NL !in Line(e)[..|Line(e)| - 1]
    ensures CR !in Line(e)
  {
    CanonicalLineShape(ToJson(e));
  }
}
