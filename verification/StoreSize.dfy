/** The store file as JSON, and why `Records` counts its bytes right: what `StoreBytes` adds
    up is the length of the canonical encoding of the whole envelope. */
module StoreSize {
  import opened Outcomes
  import opened Json
  import opened Order
  import opened Texts
  import opened Entries
  import opened Grants
  import opened Ledger
  import opened Records

  /** How digests are printed: 64 hexadecimal digits each. */
  datatype Digests = Digests(line: Digest -> string, snapshot: TargetDigest -> string, tail: TailDigest -> string)

  ghost predicate Hexadecimal(d: Digests) {
    && (forall x :: IsHexDigest(d.line(x))) && (forall x :: IsHexDigest(d.snapshot(x)))
    && forall x :: IsHexDigest(d.tail(x))
  }

  // ---------------------------------------------------------------- the document

  function TextArray(texts: seq<string>): Json {
    Arr(seq(|texts|, i requires 0 <= i < |texts| => Str(texts[i])))
  }

  /** One grant record. */
  function RecordJson(g: Grant): Json {
    Obj([Field("credential_digest", Str(g.credential)),
         Field("expires", Str(g.texts.expires)),
         Field("id", Str(g.id)),
         Field("issued", Str(g.texts.issued)),
         Field("kind", Str(AgentName(g.kind))),
         Field("name", Str(g.name)),
         Field("scopes", TextArray(ScopeNames(g.scopes))),
         Field("status", Str(StatusName(g.status))),
         Field("window", Str(g.texts.window)),
         Field("zones", TextArray(g.zones))])
  }

  function RecordJsons(ids: seq<string>, grants: map<string, Grant>): seq<Json>
    requires forall i :: 0 <= i < |ids| ==> ids[i] in grants
  {
    if ids == [] then [] else [RecordJson(grants[ids[0]])] + RecordJsons(ids[1..], grants)
  }

  /** The records in the order of their ids. */
  function SnapshotJson(grants: map<string, Grant>): Json {
    Arr(RecordJsons(Sorted(grants.Keys), grants))
  }

  function StatusFields(ids: seq<string>, previous: map<string, Status>): seq<Field>
    requires forall i :: 0 <= i < |ids| ==> ids[i] in previous
  {
    if ids == [] then [] else [Field(ids[0], Str(StatusName(previous[ids[0]])))] + StatusFields(ids[1..], previous)
  }

  function StatusesJson(previous: map<string, Status>): Json {
    Obj(StatusFields(Sorted(previous.Keys), previous))
  }

  /** A ledger witness. */
  function WitnessFields(w: StoreWitness, d: Digests): Json {
    Obj([Field("ledger_offset", Num(w.offset)),
         Field("receipt_sha256", Str(d.line(w.receipt))),
         Field("revision", Num(w.revision)),
         Field("target_sha256", Str(d.snapshot(w.target))),
         Field("transaction", Str(w.transaction))])
  }

  function WitnessJson(w: Option<StoreWitness>, d: Digests): Json {
    if w.None? then Null else WitnessFields(w.value, d)
  }

  /** A pending transition with its receipt. */
  function PendingFields(p: Pending, d: Digests): Json {
    Obj([Field("base_revision", Num(p.baseRevision)),
         Field("event", ToJson(p.event)),
         Field("kind", Str(KindName(p.kind))),
         Field("ledger_offset", Num(p.checkpoint.offset)),
         Field("ledger_tail_sha256", Str(d.tail(p.checkpoint.tail))),
         Field("previous_statuses", StatusesJson(p.previous)),
         Field("receipt_sha256", Str(d.line(p.receipt))),
         Field("target_grants", SnapshotJson(p.grants)),
         Field("target_revision", Num(p.targetRevision)),
         Field("target_sha256", Str(d.snapshot(p.target))),
         Field("transaction", Str(p.transaction))])
  }

  function PendingJson(p: Option<Pending>, d: Digests): Json {
    if p.None? then Null else PendingFields(p.value, d)
  }

  /** `_encode_state`. */
  function EnvelopeJson(e: Envelope, d: Digests): Json {
    Obj([Field("grants", SnapshotJson(e.grants)),
         Field("ledger_witness", WitnessJson(e.ledgerWitness, d)),
         Field("pending", PendingJson(e.pending, d)),
         Field("revision", Num(e.revision)),
         Field("schema", Str("ths/grant-metadata/0.2"))])
  }

  // ---------------------------------------------------------------- its parts

  lemma ObjectSize(fields: seq<Field>)
    requires fields != []
    ensures Size(Obj(fields)) == 1 + MembersSize(fields)
  {
  }

  lemma NoMembers()
    ensures MembersSize([]) == 0
  {
  }

  lemma RecordKeysFirst()
    ensures TextBytes("credential_digest") == 19
    ensures TextBytes("expires") == 9
    ensures TextBytes("id") == 4
    ensures TextBytes("issued") == 8
    ensures TextBytes("kind") == 6
  {
    hide TextBytes;
    PlainSize("credential_digest");
    PlainSize("expires");
    PlainSize("id");
    PlainSize("issued");
    PlainSize("kind");
  }

  lemma RecordKeysLast()
    ensures TextBytes("name") == 6
    ensures TextBytes("scopes") == 8
    ensures TextBytes("status") == 8
    ensures TextBytes("window") == 8
    ensures TextBytes("zones") == 7
  {
    hide TextBytes;
    PlainSize("name");
    PlainSize("scopes");
    PlainSize("status");
    PlainSize("window");
    PlainSize("zones");
  }

  lemma RecordShape(g: Grant)
    ensures Size(RecordJson(g)) == 104 +
              Size(Str(g.credential)) +
              Size(Str(g.texts.expires)) +
              Size(Str(g.id)) +
              Size(Str(g.texts.issued)) +
              Size(Str(AgentName(g.kind))) +
              Size(Str(g.name)) +
              Size(TextArray(ScopeNames(g.scopes))) +
              Size(Str(StatusName(g.status))) +
              Size(Str(g.texts.window)) +
              Size(TextArray(g.zones))
  {
    hide TextBytes, MembersSize, TextArray, ScopeNames, AgentName, StatusName;
    RecordKeysFirst();
    RecordKeysLast();
    var f := RecordJson(g).fields;
    ObjectSize(f);
    NoMembers();
    MembersSizeCons(f[9], []);
    var t9 := [f[9]];
    assert t9 == [f[9]] + [];
    MembersSizeCons(f[8], t9);
    var t8 := [f[8]] + t9;
    MembersSizeCons(f[7], t8);
    var t7 := [f[7]] + t8;
    MembersSizeCons(f[6], t7);
    var t6 := [f[6]] + t7;
    MembersSizeCons(f[5], t6);
    var t5 := [f[5]] + t6;
    MembersSizeCons(f[4], t5);
    var t4 := [f[4]] + t5;
    MembersSizeCons(f[3], t4);
    var t3 := [f[3]] + t4;
    MembersSizeCons(f[2], t3);
    var t2 := [f[2]] + t3;
    MembersSizeCons(f[1], t2);
    var t1 := [f[1]] + t2;
    MembersSizeCons(f[0], t1);
    var t0 := [f[0]] + t1;
    assert f == t0;
  }

  lemma WitnessKeys()
    ensures TextBytes("ledger_offset") == 15
    ensures TextBytes("receipt_sha256") == 16
    ensures TextBytes("revision") == 10
    ensures TextBytes("target_sha256") == 15
    ensures TextBytes("transaction") == 13
  {
    hide TextBytes;
    PlainSize("ledger_offset");
    PlainSize("receipt_sha256");
    PlainSize("revision");
    PlainSize("target_sha256");
    PlainSize("transaction");
  }

  lemma WitnessShape(w: StoreWitness, d: Digests)
    ensures Size(WitnessFields(w, d)) == 80 +
              Size(Num(w.offset)) +
              Size(Str(d.line(w.receipt))) +
              Size(Num(w.revision)) +
              Size(Str(d.snapshot(w.target))) +
              Size(Str(w.transaction))
  {
    hide TextBytes, MembersSize, Digits;
    WitnessKeys();
    var f := WitnessFields(w, d).fields;
    ObjectSize(f);
    NoMembers();
    MembersSizeCons(f[4], []);
    var t4 := [f[4]];
    assert t4 == [f[4]] + [];
    MembersSizeCons(f[3], t4);
    var t3 := [f[3]] + t4;
    MembersSizeCons(f[2], t3);
    var t2 := [f[2]] + t3;
    MembersSizeCons(f[1], t2);
    var t1 := [f[1]] + t2;
    MembersSizeCons(f[0], t1);
    var t0 := [f[0]] + t1;
    assert f == t0;
  }

  lemma PendingKeysFirst()
    ensures TextBytes("base_revision") == 15
    ensures TextBytes("event") == 7
    ensures TextBytes("kind") == 6
    ensures TextBytes("ledger_offset") == 15
    ensures TextBytes("ledger_tail_sha256") == 20
  {
    hide TextBytes;
    PlainSize("base_revision");
    PlainSize("event");
    PlainSize("kind");
    PlainSize("ledger_offset");
    PlainSize("ledger_tail_sha256");
  }

  lemma PendingKeysLast()
    ensures TextBytes("previous_statuses") == 19
    ensures TextBytes("receipt_sha256") == 16
    ensures TextBytes("target_grants") == 15
    ensures TextBytes("target_revision") == 17
    ensures TextBytes("target_sha256") == 15
    ensures TextBytes("transaction") == 13
  {
    hide TextBytes;
    PlainSize("previous_statuses");
    PlainSize("receipt_sha256");
    PlainSize("target_grants");
    PlainSize("target_revision");
    PlainSize("target_sha256");
    PlainSize("transaction");
  }

  lemma PendingShape(p: Pending, d: Digests)
    ensures Size(PendingFields(p, d)) == 181 +
              Size(Num(p.baseRevision)) +
              Size(ToJson(p.event)) +
              Size(Str(KindName(p.kind))) +
              Size(Num(p.checkpoint.offset)) +
              Size(Str(d.tail(p.checkpoint.tail))) +
              Size(StatusesJson(p.previous)) +
              Size(Str(d.line(p.receipt))) +
              Size(SnapshotJson(p.grants)) +
              Size(Num(p.targetRevision)) +
              Size(Str(d.snapshot(p.target))) +
              Size(Str(p.transaction))
  {
    hide TextBytes, MembersSize, Digits, KindName, ToJson, StatusesJson, SnapshotJson;
    PendingKeysFirst();
    PendingKeysLast();
    var f := PendingFields(p, d).fields;
    ObjectSize(f);
    NoMembers();
    MembersSizeCons(f[10], []);
    var t10 := [f[10]];
    assert t10 == [f[10]] + [];
    MembersSizeCons(f[9], t10);
    var t9 := [f[9]] + t10;
    MembersSizeCons(f[8], t9);
    var t8 := [f[8]] + t9;
    MembersSizeCons(f[7], t8);
    var t7 := [f[7]] + t8;
    MembersSizeCons(f[6], t7);
    var t6 := [f[6]] + t7;
    MembersSizeCons(f[5], t6);
    var t5 := [f[5]] + t6;
    MembersSizeCons(f[4], t5);
    var t4 := [f[4]] + t5;
    MembersSizeCons(f[3], t4);
    var t3 := [f[3]] + t4;
    MembersSizeCons(f[2], t3);
    var t2 := [f[2]] + t3;
    MembersSizeCons(f[1], t2);
    var t1 := [f[1]] + t2;
    MembersSizeCons(f[0], t1);
    var t0 := [f[0]] + t1;
    assert f == t0;
  }

  lemma EnvelopeKeys()
    ensures TextBytes("grants") == 8
    ensures TextBytes("ledger_witness") == 16
    ensures TextBytes("pending") == 9
    ensures TextBytes("revision") == 10
    ensures TextBytes("schema") == 8
  {
    hide TextBytes;
    PlainSize("grants");
    PlainSize("ledger_witness");
    PlainSize("pending");
    PlainSize("revision");
    PlainSize("schema");
  }

  lemma EnvelopeShape(e: Envelope, d: Digests)
    ensures Size(EnvelopeJson(e, d)) == 62 +
              Size(SnapshotJson(e.grants)) +
              Size(WitnessJson(e.ledgerWitness, d)) +
              Size(PendingJson(e.pending, d)) +
              Size(Num(e.revision)) +
              Size(Str("ths/grant-metadata/0.2"))
  {
    hide TextBytes, MembersSize, Digits, SnapshotJson, WitnessJson, PendingJson;
    EnvelopeKeys();
    var f := EnvelopeJson(e, d).fields;
    ObjectSize(f);
    NoMembers();
    MembersSizeCons(f[4], []);
    var t4 := [f[4]];
    assert t4 == [f[4]] + [];
    MembersSizeCons(f[3], t4);
    var t3 := [f[3]] + t4;
    MembersSizeCons(f[2], t3);
    var t2 := [f[2]] + t3;
    MembersSizeCons(f[1], t2);
    var t1 := [f[1]] + t2;
    MembersSizeCons(f[0], t1);
    var t0 := [f[0]] + t1;
    assert f == t0;
  }

  lemma {:induction false} TextItems(texts: seq<string>)
    ensures ItemsSize(TextArray(texts).items) == ItemBytes(texts)
  {
    hide TextBytes;
    var items := TextArray(texts).items;
    if texts != [] {
      TextItems(texts[1..]);
      assert items[0] == Str(texts[0]) && items[1..] == TextArray(texts[1..]).items;
      assert Size(Str(texts[0])) == TextBytes(texts[0]);
    }
  }

  lemma TextsSize(texts: seq<string>)
    ensures Size(TextArray(texts)) == ListBytes(texts)
  {
    TextItems(texts);
    hide TextBytes;
  }

  lemma RecordSize(g: Grant)
    ensures Size(RecordJson(g)) == RecordBytes(g)
  {
    RecordShape(g);
    TextsSize(ScopeNames(g.scopes));
    TextsSize(g.zones);
    StatusSize(g.status);
    hide TextBytes, ListBytes, RecordJson, ScopeNames, TextArray;
  }

  lemma StatusSize(s: Status)
    ensures TextBytes(StatusName(s)) == StatusBytes(s)
  {
    hide TextBytes;
    PlainSize(StatusName(s));
  }

  lemma {:induction false} RecordsSize(ids: seq<string>, grants: map<string, Grant>)
    requires forall i :: 0 <= i < |ids| ==> ids[i] in grants
    ensures ItemsSize(RecordJsons(ids, grants)) == RecordsBytes(ids, grants)
  {
    hide RecordJson, RecordBytes;
    if ids != [] {
      RecordSize(grants[ids[0]]);
      RecordsSize(ids[1..], grants);
      assert RecordJsons(ids, grants)[1..] == RecordJsons(ids[1..], grants);
    }
  }

  lemma SnapshotSize(grants: map<string, Grant>)
    ensures Size(SnapshotJson(grants)) == SnapshotBytes(grants)
  {
    RecordsSize(Sorted(grants.Keys), grants);
    hide RecordJson, RecordBytes;
  }

  lemma {:induction false} StatusFieldsSize(ids: seq<string>, previous: map<string, Status>)
    requires forall i :: 0 <= i < |ids| ==> ids[i] in previous
    ensures MembersSize(StatusFields(ids, previous)) == MembersBytes(ids, previous)
  {
    hide TextBytes, StatusName, StatusBytes;
    if ids != [] {
      StatusSize(previous[ids[0]]);
      StatusFieldsSize(ids[1..], previous);
      MembersSizeCons(Field(ids[0], Str(StatusName(previous[ids[0]]))), StatusFields(ids[1..], previous));
    }
  }

  lemma StatusesSize(previous: map<string, Status>)
    ensures Size(StatusesJson(previous)) == PreviousBytes(previous)
  {
    StatusFieldsSize(Sorted(previous.Keys), previous);
    hide TextBytes, StatusName, StatusBytes;
  }

  lemma HexSize(s: string)
    requires IsHexDigest(s)
    ensures TextBytes(s) == 66
  {
    PlainSize(s);
  }

  lemma WitnessSize(w: Option<StoreWitness>, d: Digests)
    requires Hexadecimal(d)
    ensures Size(WitnessJson(w, d)) == WitnessBytes(w)
  {
    if w.Some? {
      WitnessShape(w.value, d);
      HexSize(d.line(w.value.receipt));
      HexSize(d.snapshot(w.value.target));
      hide TextBytes, WitnessFields;
    }
  }

  lemma EventSize(e: Entry)
    ensures Size(ToJson(e)) == |Line(e)| - 1
  {
    LineSize(ToJson(e));
  }

  lemma PendingSize(p: Option<Pending>, d: Digests)
    requires Hexadecimal(d)
    ensures Size(PendingJson(p, d)) == PendingBytes(p)
  {
    if p.Some? {
      PendingShape(p.value, d);
      EventSize(p.value.event);
      StatusesSize(p.value.previous);
      SnapshotSize(p.value.grants);
      HexSize(d.line(p.value.receipt));
      HexSize(d.snapshot(p.value.target));
      HexSize(d.tail(p.value.checkpoint.tail));
      hide TextBytes, PendingFields, ToJson, Line, StatusesJson, SnapshotJson, SnapshotBytes, PreviousBytes;
    }
  }

  lemma LeafSizes(n: nat)
    ensures Size(Num(n)) == NumberBytes(n) && Size(Str("ths/grant-metadata/0.2")) == 24
  {
    hide TextBytes;
    PlainSize("ths/grant-metadata/0.2");
  }

  /** The count of the store's bytes is the length of what is written. */
  lemma StoreBytesIs(e: Envelope, d: Digests)
    requires Hexadecimal(d)
    ensures StoreBytes(e) == |CanonicalLine(EnvelopeJson(e, d))|
  {
    hide TextBytes, EnvelopeJson, CanonicalLine, SnapshotJson, WitnessJson, PendingJson, SnapshotBytes, WitnessBytes,
      PendingBytes, Size;
    LineSize(EnvelopeJson(e, d));
    EnvelopeShape(e, d);
    SnapshotSize(e.grants);
    WitnessSize(e.ledgerWitness, d);
    PendingSize(e.pending, d);
    LeafSizes(e.revision);
  }
}
