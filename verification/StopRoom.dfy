/** When an emergency stop can always be recorded. The store file has a byte limit, and the
    pending envelope of a stop holds the snapshot twice and every status it replaces, so
    accepting one more grant may leave no room for stopping it. */
module StopRoom {
  import opened Outcomes
  import opened Texts
  import opened Json
  import opened Order
  import opened Entries
  import opened Grants
  import opened Records
  import opened AtomicLog
  import opened Ledger
  import opened Envelopes

  // ---------------------------------------------------------------- numbers and lines

  function Pow10(k: nat): nat {
    if k == 0 then 1 else 10 * Pow10(k - 1)
  }

  lemma {:induction false} DigitsMost(n: nat, k: nat)
    requires k >= 1 && n < Pow10(k)
    ensures |Digits(n)| <= k
    decreases k
  {
    if n >= 10 {
      assert n / 10 < Pow10(k - 1);
      DigitsMost(n / 10, k - 1);
    }
  }

  lemma RevisionDigits(n: nat)
    requires n <= MAX_REVISION
    ensures NumberBytes(n) <= 19
  {
    assert Pow10(4) == 10_000;
    assert Pow10(8) == 100_000_000;
    assert Pow10(12) == 1_000_000_000_000;
    assert Pow10(16) == 10_000_000_000_000_000;
    assert Pow10(19) == 10_000_000_000_000_000_000;
    DigitsMost(n, 19);
  }

  /** No receipt is longer than its texts allow. */
  lemma EntryLength(e: Entry)
    requires e.tier == None && e.stamp.Some? && |e.stamp.value.transaction| == 35 && e.stamp.value.revision <= MAX_REVISION
    ensures |Line(e)| <= 600 + 6 * (|e.agent| + |e.detail| + |e.ts|)
  {
    RevisionDigits(e.stamp.value.revision);
    CanonicalLineBound(ToJson(e));
    var f := ToJson(e).fields;
    hide CanonicalLine, Digits;
    assert |TypeName(e.etype)| <= 9;
    MembersBoundCons(f[5], []);
    MembersBoundCons(f[4], [f[5]]);
    MembersBoundCons(f[3], [f[4]] + [f[5]]);
    MembersBoundCons(f[2], [f[3]] + ([f[4]] + [f[5]]));
    MembersBoundCons(f[1], [f[2]] + ([f[3]] + ([f[4]] + [f[5]])));
    MembersBoundCons(f[0], [f[1]] + ([f[2]] + ([f[3]] + ([f[4]] + [f[5]]))));
    assert [f[5]] + [] == [f[5]];
    assert f == [f[0]] + ([f[1]] + ([f[2]] + ([f[3]] + ([f[4]] + [f[5]]))));
  }

  /** Nor is a READ or DENY line. */
  lemma NoteLength(e: Entry)
    requires e.stamp.None?
    ensures |Line(e)| <= 600 + 6 * (|e.agent| + |e.detail| + |e.ts| + if e.tier.Some? then |e.tier.value| else 0)
  {
    CanonicalLineBound(ToJson(e));
    NoteFields(e);
    var f := ToJson(e).fields;
    hide CanonicalLine, Digits, ToJson, TypeName;
    var n := |f| - 1;
    MembersBoundCons(f[n], []);
    MembersBoundCons(f[n - 1], [f[n]]);
    var last := [f[n - 1]] + [f[n]];
    if e.tier.Some? { MembersBoundCons(f[2], last); }
    var rest := TierField(e) + last;
    MembersBoundCons(f[1], rest);
    MembersBoundCons(f[0], [f[1]] + rest);
    assert [f[n]] + [] == [f[n]];
    assert f == [f[0]] + ([f[1]] + rest);
  }

  lemma NoteFields(e: Entry)
    requires e.stamp.None?
    ensures |TypeName(e.etype)| <= 9
    ensures ToJson(e) == Obj([Field("agent", Str(e.agent)), Field("detail", Str(e.detail))] + TierField(e) +
                             [Field("ts", Str(e.ts)), Field("type", Str(TypeName(e.etype)))])
  {
    assert RevisionField(e) == [] && TransactionField(e) == [];
  }

  /** A READ or DENY line over short texts can be written. */
  lemma NoteOk(e: Entry)
    requires e.stamp.None? && 0 < |e.ts| <= MAX_POLICY_LENGTH && 0 < |e.agent| <= MAX_NAME_LENGTH
    requires |e.detail| <= MAX_POLICY_LENGTH && (e.tier.Some? ==> 0 < |e.tier.value| <= MAX_POLICY_LENGTH)
    ensures EntryOk(e) && Fits(e)
  {
    hide Line;
    NoteLength(e);
  }

  // ---------------------------------------------------------------- the statuses a stop replaces

  /** Members `"id":"active"` of the listed ids, each with the comma or brace after it. */
  function NamesBytes(ids: seq<string>): nat {
    if ids == [] then 0 else TextBytes(ids[0]) + 10 + NamesBytes(ids[1..])
  }

  lemma {:induction false} MembersAre(ids: seq<string>, previous: map<string, Status>)
    requires forall i :: 0 <= i < |ids| ==> ids[i] in previous && previous[ids[i]] == Active
    ensures MembersBytes(ids, previous) == NamesBytes(ids)
  {
    if ids != [] { MembersAre(ids[1..], previous); }
  }

  /** A sum over a set does not depend on where an element comes in the order. */
  lemma {:induction false} NamesRemove(s: set<string>, x: string)
    requires x in s
    ensures NamesBytes(Sorted(s)) == TextBytes(x) + 10 + NamesBytes(Sorted(s - {x}))
    decreases |s|
  {
    var k := Least(s);
    assert Sorted(s)[1..] == Sorted(s - {k});
    if x != k {
      var rest := s - {x};
      assert IsLeast(k, rest);
      LeastUnique(rest);
      assert Sorted(rest)[1..] == Sorted(rest - {k});
      assert s - {k} - {x} == rest - {k};
      NamesRemove(s - {k}, x);
    }
  }

  lemma {:induction false} NamesSubset(a: set<string>, b: set<string>)
    requires a <= b
    ensures NamesBytes(Sorted(a)) <= NamesBytes(Sorted(b))
    decreases |b|
  {
    if a != b {
      var x :| x in b && x !in a;
      NamesSubset(a, b - {x});
      NamesRemove(b, x);
    }
  }

  lemma StopPrevious(grants: map<string, Grant>)
    ensures PreviousBytes(PreviousOf(SuspendAll, grants)) <= 2 + NamesBytes(Sorted(grants.Keys))
  {
    var p := PreviousOf(SuspendAll, grants);
    if p.Keys != {} {
      MembersAre(Sorted(p.Keys), p);
      NamesSubset(p.Keys, grants.Keys);
    }
  }

  // ---------------------------------------------------------------- the snapshots

  /** Every grant under the longest status name. */
  function AllSuspended(grants: map<string, Grant>): map<string, Grant> {
    map id | id in grants :: grants[id].(status := Suspended)
  }

  lemma {:induction false} RecordsAtMost(ids: seq<string>, grants: map<string, Grant>)
    requires forall i :: 0 <= i < |ids| ==> ids[i] in grants
    ensures RecordsBytes(ids, grants) <= RecordsBytes(ids, AllSuspended(grants))
  {
    if ids != [] {
      RecordsAtMost(ids[1..], grants);
      assert StatusBytes(grants[ids[0]].status) <= StatusBytes(Suspended);
    }
  }

  lemma SnapshotAtMost(grants: map<string, Grant>)
    ensures SnapshotBytes(grants) <= SnapshotBytes(AllSuspended(grants))
  {
    assert AllSuspended(grants).Keys == grants.Keys;
    RecordsAtMost(Sorted(grants.Keys), grants);
  }

  // ---------------------------------------------------------------- room

  /** Frames, digests, numbers, two transaction ids and the longest ESTOP receipt. */
  const STOP_OVERHEAD: nat := 4_000

  /** As long as the pending envelope of a stop over these grants can get, now or after any
      of them has changed its status. */
  function StopBound(grants: map<string, Grant>): nat {
    2 * SnapshotBytes(AllSuspended(grants)) + NamesBytes(Sorted(grants.Keys)) + STOP_OVERHEAD
  }

  predicate RoomToStop(grants: map<string, Grant>) {
    StopBound(grants) <= MAX_STORE_BYTES
  }

  predicate IsStop(event: Entry, revision: nat) {
    && event.etype == ESTOP && event.agent == "system" && event.tier == None
    && |event.detail| <= MAX_POLICY_LENGTH && |event.ts| <= MAX_POLICY_LENGTH
    && event.stamp.Some? && |event.stamp.value.transaction| == 35 && event.stamp.value.revision == revision
  }

  predicate ShortWitness(w: Option<StoreWitness>) {
    w.Some? ==> |w.value.transaction| == 35 && w.value.offset <= MAX_REVISION && w.value.revision <= MAX_REVISION
  }

  lemma StopWitness(w: Option<StoreWitness>)
    requires ShortWitness(w)
    ensures WitnessBytes(w) <= 600
  {
    if w.Some? {
      RevisionDigits(w.value.offset);
      RevisionDigits(w.value.revision);
    }
    hide TextBytes, NumberBytes;
  }

  lemma PendingLength(base: Envelope, op: Op, event: Entry, at: Checkpoint)
    requires base.revision < MAX_REVISION && at.offset <= MAX_REVISION && event.tier == None && event.stamp.Some?
    requires |event.stamp.value.transaction| == 35 && event.stamp.value.revision <= MAX_REVISION
    ensures PendingBytes(PendingEnvelope(base, op, event, at).pending) <=
            SnapshotBytes(Apply(op, base.grants)) + PreviousBytes(PreviousOf(op, base.grants)) +
            1_400 + 6 * (|event.agent| + |event.detail| + |event.ts|)
  {
    RevisionDigits(base.revision);
    RevisionDigits(base.revision + 1);
    RevisionDigits(at.offset);
    EntryLength(event);
    hide SnapshotBytes, PreviousBytes, TextBytes, NumberBytes, Line, Apply, PreviousOf;
    var p := PendingEnvelope(base, op, event, at).pending.value;
    assert TextBytes(KindName(p.kind)) <= 2 + 6 * 11;
    assert TextBytes(p.transaction) <= 2 + 6 * 35;
  }

  lemma StopPending(base: Envelope, event: Entry, at: Checkpoint)
    requires base.revision < MAX_REVISION && at.offset <= MAX_REVISION && IsStop(event, base.revision + 1)
    ensures var p := PendingEnvelope(base, SuspendAll, event, at).pending;
            PendingBytes(p) <=
            SnapshotBytes(SuspendActive(base.grants)) + PreviousBytes(PreviousOf(SuspendAll, base.grants)) + 3_000
  {
    StopLength(event, base.revision + 1);
    SuspendIs(base.grants);
    hide *;
    PendingLength(base, SuspendAll, event, at);
  }

  lemma SuspendIs(grants: map<string, Grant>)
    ensures Apply(SuspendAll, grants) == SuspendActive(grants)
  {
  }

  lemma StopLength(event: Entry, revision: nat)
    requires IsStop(event, revision)
    ensures event.tier == None && event.stamp.Some? && |event.stamp.value.transaction| == 35
    ensures event.stamp.value.revision == revision && |event.agent| + |event.detail| + |event.ts| <= 262
  {
  }

  lemma StopFits(base: Envelope, event: Entry, at: Checkpoint)
    requires base.revision < MAX_REVISION && at.offset <= MAX_REVISION && ShortWitness(base.ledgerWitness)
    requires IsStop(event, base.revision + 1)
    ensures StoreBytes(PendingEnvelope(base, SuspendAll, event, at)) <= StopBound(base.grants)
  {
    var target := SuspendActive(base.grants);
    assert AllSuspended(target) == AllSuspended(base.grants);
    StopFrame(base, event, at);
    hide *;
    StopPrevious(base.grants);
    SnapshotAtMost(target);
    StopWitness(base.ledgerWitness);
    StopPending(base, event, at);
    RoomIs(base.grants);
  }

  lemma RoomIs(grants: map<string, Grant>)
    ensures StopBound(grants) == 2 * SnapshotBytes(AllSuspended(grants)) + NamesBytes(Sorted(grants.Keys)) + 4_000
  {
    hide SnapshotBytes, NamesBytes;
  }

  lemma FrameShort()
    ensures |STORE_FRAME| <= 250
  {
  }

  lemma StoreParts(e: Envelope)
    requires e.revision <= MAX_REVISION
    ensures StoreBytes(e) <= SnapshotBytes(e.grants) + WitnessBytes(e.ledgerWitness) + PendingBytes(e.pending) + 300
  {
    FrameShort();
    hide SnapshotBytes, WitnessBytes, PendingBytes, NumberBytes, STORE_FRAME;
    RevisionDigits(e.revision);
  }

  lemma StopFrame(base: Envelope, event: Entry, at: Checkpoint)
    requires base.revision < MAX_REVISION && event.stamp.Some?
    ensures var e := PendingEnvelope(base, SuspendAll, event, at);
            StoreBytes(e) <= SnapshotBytes(SuspendActive(base.grants)) + WitnessBytes(base.ledgerWitness) +
                             PendingBytes(e.pending) + 300
  {
    hide SnapshotBytes, WitnessBytes, PendingBytes, NumberBytes, StoreBytes, Line, SuspendActive, PreviousOf, CheckpointOf;
    StoreParts(PendingEnvelope(base, SuspendAll, event, at));
  }

  /** A change of statuses alone keeps a snapshot storable. */
  lemma StatusesOk(before: map<string, Grant>, after: map<string, Grant>)
    requires RecordsOk(before) && after.Keys == before.Keys
    requires forall id :: id in before ==> after[id] == before[id].(status := after[id].status)
    ensures RecordsOk(after)
  {
    hide IsGrantId, BoundedText, IsHexDigest, IsToken;
    assert |after| == |after.Keys| == |before.Keys| == |before|;
    forall id | id in after ensures after[id].id == id && RecordOk(after[id]) {
      assert RecordOk(before[id]);
    }
  }

  /** With room to stop, the pending envelope of every stop decodes. */
  lemma StopDecodes(base: Envelope, event: Entry, at: Checkpoint)
    requires CleanOk(base) && RoomToStop(base.grants) && base.revision < MAX_REVISION && at.offset <= MAX_REVISION
    requires EventFor(SuspendAll, event, base.revision + 1)
    requires EventOk(event, event.stamp.value.transaction, base.revision + 1)
    ensures DecodeOk(PendingEnvelope(base, SuspendAll, event, at)) && RecordsOk(Apply(SuspendAll, base.grants))
  {
    StopEvent(base, event);
    EventOkIs(SuspendAll, event, base.revision + 1);
    StopFacts(base);
    hide *;
    StopFits(base, event, at);
    PendingComplete(base, SuspendAll, event, at);
  }

  lemma StopFacts(base: Envelope)
    requires CleanOk(base) && RoomToStop(base.grants)
    ensures OpOk(SuspendAll, base.grants, base.revision) && RecordsOk(Apply(SuspendAll, base.grants))
    ensures StopBound(base.grants) <= MAX_STORE_BYTES
  {
    hide CleanOk, RecordsOk, StopBound, SuspendActive;
    CleanRecords(base);
    SuspendedOk(base.grants);
  }

  lemma CleanRecords(base: Envelope)
    requires CleanOk(base)
    ensures RecordsOk(base.grants)
  {
    hide RecordsOk, StoreBytes;
  }

  lemma SuspendedOk(grants: map<string, Grant>)
    requires RecordsOk(grants)
    ensures RecordsOk(SuspendActive(grants))
  {
    hide RecordsOk;
    StatusesOk(grants, SuspendActive(grants));
  }

  lemma StopEvent(base: Envelope, event: Entry)
    requires CleanOk(base) && EventFor(SuspendAll, event, base.revision + 1)
    requires EventOk(event, event.stamp.value.transaction, base.revision + 1)
    ensures ShortWitness(base.ledgerWitness) && IsStop(event, base.revision + 1)
  {
    hide RecordsOk, StoreBytes, Line;
  }

  /** Room to stop lasts for as long as no grant is added: no revocation, expiry or stop
      takes it away. */
  lemma RoomStays(before: map<string, Grant>, after: map<string, Grant>)
    requires OnlyTightened(before, after) && after.Keys == before.Keys
    ensures RoomToStop(after) <==> RoomToStop(before)
  {
    hide SnapshotBytes, NamesBytes, Sorted;
    assert AllSuspended(after) == AllSuspended(before);
  }

  // ---------------------------------------------------------------- room for any transition

  /** Frames, digests, numbers, two transaction ids and the longest receipt. */
  const ROOM_OVERHEAD: nat := 5_000

  /** The pending envelope of `op` is sure to fit: the snapshot that stays in force, the one
      proposed, the statuses replaced, and the rest. */
  predicate RoomFor(op: Op, grants: map<string, Grant>) {
    SnapshotBytes(if Widens(op) then grants else Apply(op, grants)) + SnapshotBytes(Apply(op, grants)) +
    PreviousBytes(PreviousOf(op, grants)) + ROOM_OVERHEAD <= MAX_STORE_BYTES
  }

  lemma EnvelopeLength(base: Envelope, op: Op, event: Entry, at: Checkpoint)
    requires base.revision < MAX_REVISION && at.offset <= MAX_REVISION && ShortWitness(base.ledgerWitness)
    requires event.tier == None && event.stamp.Some?
    requires |event.stamp.value.transaction| == 35 && event.stamp.value.revision <= MAX_REVISION
    requires |event.agent| <= MAX_NAME_LENGTH && |event.detail| <= MAX_POLICY_LENGTH && |event.ts| <= MAX_POLICY_LENGTH
    ensures RoomFor(op, base.grants) ==> StoreBytes(PendingEnvelope(base, op, event, at)) <= MAX_STORE_BYTES
  {
    StopWitness(base.ledgerWitness);
    PendingLength(base, op, event, at);
    hide SnapshotBytes, PreviousBytes, WitnessBytes, PendingBytes, NumberBytes, StoreBytes, Line, Apply, PreviousOf,
      CheckpointOf, ShortWitness;
    StoreParts(PendingEnvelope(base, op, event, at));
  }

  /** With room for it, the pending envelope of any transition over short texts decodes. */
  lemma TransitionDecodes(base: Envelope, op: Op, event: Entry, at: Checkpoint)
    requires CleanOk(base) && OpOk(op, base.grants, base.revision) && RoomFor(op, base.grants)
    requires base.revision < MAX_REVISION && at.offset <= MAX_REVISION && RecordsOk(Apply(op, base.grants))
    requires EventFor(op, event, base.revision + 1) && |event.ts| <= MAX_POLICY_LENGTH
    requires |event.agent| <= MAX_NAME_LENGTH && Printable(event.agent)
    requires |event.detail| <= MAX_POLICY_LENGTH && Printable(event.detail)
    ensures DecodeOk(PendingEnvelope(base, op, event, at))
  {
    assert ShortWitness(base.ledgerWitness);
    EventShort(op, event, base.revision + 1);
    hide RecordsOk, StoreBytes, EventOk, EventFor, ShortWitness, RoomFor, PendingOk, Printable, OpOk, Apply, CleanOk;
    EnvelopeLength(base, op, event, at);
    PendingComplete(base, op, event, at);
  }

  lemma EventShort(op: Op, event: Entry, revision: nat)
    requires EventFor(op, event, revision)
    ensures event.tier == None && event.stamp.Some? && |event.stamp.value.transaction| == 35
    ensures event.stamp.value.revision <= MAX_REVISION
  {
    hide Line;
  }

  /** Room to stop and a little more is room for any transition that ends or suspends. */
  predicate RoomToEnd(grants: map<string, Grant>) {
    StopBound(grants) + 2_000 <= MAX_STORE_BYTES
  }

  lemma EndPrevious(op: Op, grants: map<string, Grant>)
    requires op.Revoke? || op.Expire?
    requires op.id in grants && RecordsOk(grants)
    ensures PreviousBytes(PreviousOf(op, grants)) <= 800
  {
    var p := PreviousOf(op, grants);
    assert RecordOk(grants[op.id]);
    hide RecordsOk, RecordOk, TextBytes;
    assert p.Keys == {op.id};
    SortedOne(op.id);
    assert MembersBytes([op.id], p) == TextBytes(op.id) + 2 + StatusBytes(p[op.id]);
  }

  lemma SortedOne(id: string)
    ensures Sorted({id}) == [id]
  {
    assert Sorted({id})[0] in Sorted({id});
  }

  lemma EndFits(op: Op, grants: map<string, Grant>)
    requires RecordsOk(grants) && OpOk(op, grants, 0) && !Widens(op) && RoomToEnd(grants)
    ensures RoomFor(op, grants)
  {
    var target := Apply(op, grants);
    EndPreviousFits(op, grants);
    EndTarget(op, grants);
    hide SnapshotBytes, NamesBytes, PreviousBytes, Apply, PreviousOf, RecordsOk, OpOk, AllSuspended;
    SnapshotAtMost(target);
  }

  lemma EndTarget(op: Op, grants: map<string, Grant>)
    requires OpOk(op, grants, 0) && !Widens(op)
    ensures AllSuspended(Apply(op, grants)) == AllSuspended(grants)
  {
  }

  lemma EndPreviousFits(op: Op, grants: map<string, Grant>)
    requires RecordsOk(grants) && OpOk(op, grants, 0) && !Widens(op)
    ensures PreviousBytes(PreviousOf(op, grants)) <= 802 + NamesBytes(Sorted(grants.Keys))
  {
    hide PreviousBytes, NamesBytes, RecordsOk, PreviousOf;
    if op.SuspendAll? { StopPrevious(grants); } else { EndPrevious(op, grants); }
  }

  // ---------------------------------------------------------------- few grants always have room

  lemma {:induction false} ItemsAtMost(texts: seq<string>, limit: nat)
    requires forall i :: 0 <= i < |texts| ==> |texts[i]| <= limit
    ensures ItemBytes(texts) <= |texts| * (3 + 6 * limit)
  {
    if texts != [] {
      ItemsAtMost(texts[1..], limit);
      assert |texts| * (3 + 6 * limit) == (3 + 6 * limit) + (|texts| - 1) * (3 + 6 * limit);
    }
  }

  const RECORD_MOST: nat := 56_000

  lemma RecordAtMost(g: Grant)
    requires RecordOk(g)
    ensures RecordBytes(g) <= RECORD_MOST
  {
    RecordTexts(g);
    ItemsAtMost(g.zones, 128);
    ItemsAtMost(ScopeNames(g.scopes), 18);
    RecordFrame();
    hide RecordOk, ItemBytes, TextBytes, RECORD_FRAME, ScopeNames;
    ListMost(g.zones, 64, 771);
    ListMost(ScopeNames(g.scopes), 5, 111);
  }

  lemma RecordFrame()
    ensures |RECORD_FRAME| <= 120
  {
  }

  lemma ListMost(texts: seq<string>, n: nat, each: nat)
    requires |texts| <= n && ItemBytes(texts) <= |texts| * each
    ensures ListBytes(texts) <= 2 + n * each
  {
    hide ItemBytes;
    assert |texts| * each <= n * each;
  }

  lemma RecordTexts(g: Grant)
    requires RecordOk(g)
    ensures |g.credential| == 64 && |g.id| <= 128 && |g.name| <= 128
    ensures |g.texts.expires| <= 128 && |g.texts.issued| <= 128 && |g.texts.window| <= 128
    ensures |g.zones| <= 64 && |ScopeNames(g.scopes)| <= 5
    ensures forall i :: 0 <= i < |g.zones| ==> |g.zones[i]| <= 128
    ensures forall i :: 0 <= i < |ScopeNames(g.scopes)| ==> |ScopeNames(g.scopes)[i]| <= 18
    ensures |AgentName(g.kind)| <= 8 && StatusBytes(g.status) <= 11
  {
    hide IsAlnum, IsHex, Printable;
  }

  lemma {:induction false} RecordsMost(ids: seq<string>, grants: map<string, Grant>)
    requires forall i :: 0 <= i < |ids| ==> ids[i] in grants
    requires forall id :: id in grants ==> RecordOk(grants[id])
    ensures RecordsBytes(ids, grants) <= |ids| * (RECORD_MOST + 1)
  {
    hide RecordOk, RecordBytes;
    if ids != [] {
      RecordAtMost(grants[ids[0]]);
      RecordsMost(ids[1..], grants);
    }
  }

  lemma SnapshotMost(grants: map<string, Grant>)
    requires RecordsOk(grants)
    ensures SnapshotBytes(grants) <= 2 + |grants| * (RECORD_MOST + 1)
  {
    hide RecordOk;
    RecordsMost(Sorted(grants.Keys), grants);
    assert |grants.Keys| == |grants|;
  }

  lemma {:induction false} NamesMost(ids: seq<string>)
    requires forall i :: 0 <= i < |ids| ==> |ids[i]| <= 128
    ensures NamesBytes(ids) <= |ids| * 780
  {
    if ids != [] { NamesMost(ids[1..]); }
  }

  /** However long their texts, up to 36 grants leave room for every transition among them. */
  lemma FewGrantsFit(op: Op, grants: map<string, Grant>)
    requires RecordsOk(grants) && RecordsOk(Apply(op, grants)) && OpOk(op, grants, 0)
    requires |grants| <= 36 && |Apply(op, grants)| <= 36
    ensures RoomFor(op, grants) && RoomToStop(grants) && RoomToEnd(grants)
  {
    ShortNames(grants);
    FewRecords(|grants|);
    FewLeaveRoom(op, grants);
    FewLeaveStop(grants);
  }

  lemma FewLeaveStop(grants: map<string, Grant>)
    requires RecordsOk(grants) && |grants| <= 36 && NamesBytes(Sorted(grants.Keys)) <= 28_080
    ensures RoomToStop(grants) && RoomToEnd(grants)
  {
    AllSuspendedOk(grants);
    hide SnapshotBytes, NamesBytes, RecordsOk, AllSuspended;
    SnapshotMost(AllSuspended(grants));
    FewRecords(|grants|);
  }

  lemma FewLeaveRoom(op: Op, grants: map<string, Grant>)
    requires RecordsOk(grants) && RecordsOk(Apply(op, grants)) && OpOk(op, grants, 0)
    requires |grants| <= 36 && |Apply(op, grants)| <= 36 && NamesBytes(Sorted(grants.Keys)) <= 28_080
    ensures RoomFor(op, grants)
  {
    hide SnapshotBytes, NamesBytes, PreviousBytes, RecordsOk, Apply, PreviousOf, OpOk;
    SnapshotMost(grants);
    SnapshotMost(Apply(op, grants));
    PreviousMost(op, grants);
    FewRecords(|grants|);
    FewRecords(|Apply(op, grants)|);
  }

  lemma FewRecords(n: nat)
    requires n <= 36
    ensures n * (RECORD_MOST + 1) <= 2_016_036 && n * 780 <= 28_080
  {
  }

  lemma AllSuspendedOk(grants: map<string, Grant>)
    requires RecordsOk(grants)
    ensures RecordsOk(AllSuspended(grants)) && |AllSuspended(grants)| == |grants|
  {
    assert AllSuspended(grants).Keys == grants.Keys;
    StatusesOk(grants, AllSuspended(grants));
    hide RecordsOk, AllSuspended;
    assert |AllSuspended(grants).Keys| == |AllSuspended(grants)| && |grants.Keys| == |grants|;
  }

  lemma ShortNames(grants: map<string, Grant>)
    requires RecordsOk(grants)
    ensures NamesBytes(Sorted(grants.Keys)) <= |grants| * 780
  {
    var ids := Sorted(grants.Keys);
    forall i | 0 <= i < |ids| ensures |ids[i]| <= 128 { assert ids[i] in grants && RecordOk(grants[ids[i]]); }
    hide RecordsOk, RecordOk;
    NamesMost(ids);
    assert |grants.Keys| == |grants|;
  }

  lemma PreviousMost(op: Op, grants: map<string, Grant>)
    requires RecordsOk(grants) && OpOk(op, grants, 0)
    ensures PreviousBytes(PreviousOf(op, grants)) <= 802 + NamesBytes(Sorted(grants.Keys))
  {
    hide NamesBytes, RecordsOk;
    if Widens(op) { assert PreviousOf(op, grants) == map[]; } else { EndPreviousFits(op, grants); }
  }

  lemma EmptyClean()
    ensures CleanOk(EMPTY) && RoomToStop(EMPTY.grants)
  {
    EmptyFits();
    assert AllSuspended(EMPTY.grants) == map[];
    assert Sorted({}) == [];
    hide StoreBytes;
  }
}
