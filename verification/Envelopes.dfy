/** The private grant envelope: what may be stored, and why a stored pending transition
    can be trusted during recovery. */
module Envelopes {
  import opened Outcomes
  import opened Texts
  import opened Entries
  import opened Grants
  import opened AtomicLog
  import opened Ledger
  import opened Records

  // ---------------------------------------------------------------- records

  predicate IsGrantId(id: string) {
    |id| >= 2 && id[..2] == "g-" && IsToken(id[2..], 126)
  }

  /** `_validate_record`. */
  predicate RecordOk(g: Grant) {
    && IsGrantId(g.id)
    && BoundedText(g.name, MAX_NAME_LENGTH)
    && 1 <= |g.scopes| <= 5 && Distinct(g.scopes)
    && 1 <= |g.zones| <= MAX_ZONES_PER_GRANT && Distinct(g.zones)
    && (forall i :: 0 <= i < |g.zones| ==> IsToken(g.zones[i], 128))
    && ParseWindow(g.window).Some?
    && !g.expires.UnreadableExpiry?
    && IsHexDigest(g.credential)
    && |g.texts.window| <= MAX_POLICY_LENGTH && |g.texts.expires| <= MAX_POLICY_LENGTH
    && |g.texts.issued| <= MAX_POLICY_LENGTH
  }

  /** A record that is accepted, character by character. */
  lemma RecordMeans(g: Grant)
    ensures RecordOk(g) <==>
            && 3 <= |g.id| <= 128 && g.id[0] == 'g' && g.id[1] == '-' && Wordlike(g.id[2])
            && (forall i :: 2 <= i < |g.id| ==> Wordlike(g.id[i]) || g.id[i] in {'.', '_', '-'})
            && 1 <= |g.name| <= 128
            && (forall i :: 0 <= i < |g.name| ==> 32 <= g.name[i] as int < 127 || 160 <= g.name[i] as int)
            && 1 <= |g.scopes| <= 5 && (forall i, j :: 0 <= i < j < |g.scopes| ==> g.scopes[i] != g.scopes[j])
            && 1 <= |g.zones| <= 64 && (forall i, j :: 0 <= i < j < |g.zones| ==> g.zones[i] != g.zones[j])
            && (forall i :: 0 <= i < |g.zones| ==> ZoneNamed(g.zones[i]))
            && (g.window.Standing? || (g.window.Interval? && g.window.start < g.window.end))
            && !g.expires.UnreadableExpiry?
            && |g.texts.window| <= 128 && |g.texts.expires| <= 128 && |g.texts.issued| <= 128
            && |g.credential| == 64
            && forall i :: 0 <= i < 64 ==> 48 <= g.credential[i] as int <= 57 || 97 <= g.credential[i] as int <= 102
  {
    hide ParseWindow;
    IdMeans(g.id);
    WindowMeans(g.window);
    forall i | 0 <= i < |g.zones| ensures IsToken(g.zones[i], 128) <==> ZoneNamed(g.zones[i]) { ZoneMeans(g.zones[i]); }
    hide IsToken, IsGrantId, Wordlike, ZoneNamed;
  }

  predicate Wordlike(c: char) {
    48 <= c as int <= 57 || 65 <= c as int <= 90 || 97 <= c as int <= 122
  }

  predicate ZoneNamed(s: string) {
    && 1 <= |s| <= 128 && Wordlike(s[0])
    && forall i :: 0 <= i < |s| ==> Wordlike(s[i]) || s[i] in {'.', '_', '-'}
  }

  lemma ZoneMeans(s: string)
    ensures IsToken(s, 128) <==> ZoneNamed(s)
  {
  }

  lemma IdMeans(id: string)
    ensures IsGrantId(id) <==>
            && 3 <= |id| <= 128 && id[0] == 'g' && id[1] == '-' && Wordlike(id[2])
            && forall i :: 2 <= i < |id| ==> Wordlike(id[i]) || id[i] in {'.', '_', '-'}
  {
    if |id| >= 2 {
      var rest := id[2..];
      assert forall i :: 2 <= i < |id| ==> id[i] == rest[i - 2];
      assert forall i :: 0 <= i < |rest| ==> rest[i] == id[i + 2];
      assert id[..2] == [id[0], id[1]];
    }
  }

  lemma WindowMeans(w: Window)
    ensures ParseWindow(w).Some? <==> w.Standing? || (w.Interval? && w.start < w.end)
  {
  }

  predicate OneCredentialEach(grants: map<string, Grant>) {
    forall a, b :: a in grants && b in grants && a != b ==> grants[a].credential != grants[b].credential
  }

  /** A snapshot `_normalize_outgoing` accepts and `_records_to_grants` reads back. */
  predicate RecordsOk(grants: map<string, Grant>) {
    && |grants| <= MAX_GRANTS
    && (forall id :: id in grants ==> grants[id].id == id && RecordOk(grants[id]))
    && OneCredentialEach(grants)
  }

  /** A record list without a repeated id or credential, every record well formed. */
  predicate Loadable(records: seq<Grant>) {
    && (forall i :: 0 <= i < |records| ==> RecordOk(records[i]))
    && (forall i, j :: 0 <= i < j < |records| ==> records[i].id != records[j].id)
    && (forall i, j :: 0 <= i < j < |records| ==> records[i].credential != records[j].credential)
  }

  /** The snapshot holds exactly the listed records, each under its own id. */
  predicate Holds(grants: map<string, Grant>, records: seq<Grant>) {
    && (forall i :: 0 <= i < |records| ==> records[i].id in grants && grants[records[i].id] == records[i])
    && (forall id :: id in grants ==> grants[id].id == id && grants[id] in records)
  }

  function Credentials(records: seq<Grant>): (c: set<string>)
    ensures forall i :: 0 <= i < |records| ==> records[i].credential in c
    ensures forall d :: d in c ==> exists i :: 0 <= i < |records| && records[i].credential == d
  {
    set i | 0 <= i < |records| :: records[i].credential
  }

  lemma LoadStep(grants: map<string, Grant>, loaded: seq<Grant>, g: Grant)
    requires Loadable(loaded) && Holds(grants, loaded)
    requires RecordOk(g) && g.id !in grants && g.credential !in Credentials(loaded)
    ensures Loadable(loaded + [g]) && Holds(grants[g.id := g], loaded + [g])
    ensures Credentials(loaded + [g]) == Credentials(loaded) + {g.credential}
  {
    hide RecordOk;
    var more := loaded + [g];
    assert forall i :: 0 <= i < |loaded| ==> more[i] == loaded[i];
    assert more[|loaded|] == g;
    LoadHolds(grants, loaded, g);
    hide Holds;
  }

  lemma LoadHolds(grants: map<string, Grant>, loaded: seq<Grant>, g: Grant)
    requires Holds(grants, loaded) && g.id !in grants
    ensures Holds(grants[g.id := g], loaded + [g])
  {
    var more := loaded + [g];
    assert forall i :: 0 <= i < |loaded| ==> more[i] == loaded[i];
    assert more[|loaded|] == g;
  }

  lemma LoadRefuses(grants: map<string, Grant>, records: seq<Grant>, i: nat)
    requires i < |records| && Holds(grants, records[..i])
    requires !RecordOk(records[i]) || records[i].id in grants || records[i].credential in Credentials(records[..i])
    ensures !Loadable(records)
  {
    hide RecordOk;
    assert forall k :: 0 <= k < i ==> records[..i][k] == records[k];
    if records[i].id in grants { assert grants[records[i].id] in records[..i]; }
  }

  /** `_records_to_grants`: a list of records becomes a snapshot, or nothing does. */
  method RecordsToGrants(records: seq<Grant>) returns (loaded: Option<map<string, Grant>>)
    ensures loaded.Some? <==> |records| <= MAX_GRANTS && Loadable(records)
    ensures loaded.Some? ==> Holds(loaded.value, records) && |loaded.value| == |records|
  {
    hide RecordOk, Loadable, Holds;
    if |records| > MAX_GRANTS { return None; }
    var grants: map<string, Grant> := map[];
    var digests: set<string> := {};
    EmptyLoad();
    for i := 0 to |records|
      invariant |grants| == i
      invariant Loadable(records[..i]) && Holds(grants, records[..i])
      invariant digests == Credentials(records[..i])
    {
      var g := records[i];
      if !RecordOk(g) || g.id in grants || g.credential in digests {
        LoadRefuses(grants, records, i);
        return None;
      }
      LoadStep(grants, records[..i], g);
      assert records[..i + 1] == records[..i] + [g];
      grants := grants[g.id := g];
      digests := digests + {g.credential};
    }
    assert records[..|records|] == records;
    loaded := Some(grants);
  }

  lemma EmptyLoad()
    ensures Loadable([]) && Holds(map[], []) && Credentials([]) == {}
  {
  }

  // ---------------------------------------------------------------- transitions

  function KindOf(op: Op): TransactionKind {
    match op
    case Issue(_) => IssueKind
    case Seed(_) => DemoSeedKind
    case Revoke(_) => RevokeKind
    case Expire(_) => ExpireKind
    case SuspendAll => SuspendAllKind
  }

  /** The statuses a restrictive transition replaces. */
  function PreviousOf(op: Op, grants: map<string, Grant>): map<string, Status> {
    match op
    case Issue(_) => map[]
    case Seed(_) => map[]
    case Revoke(id) => if id in grants then map[id := grants[id].status] else map[]
    case Expire(id) => if id in grants then map[id := grants[id].status] else map[]
    case SuspendAll => map id | id in grants && grants[id].status == Active :: Active
  }

  predicate WidensKind(kind: TransactionKind) {
    kind == IssueKind || kind == DemoSeedKind
  }

  function ExpectedType(kind: TransactionKind): EventType {
    match kind
    case IssueKind => GRANT
    case DemoSeedKind => PROVISION
    case RevokeKind => REVOKE
    case ExpireKind => DENY
    case SuspendAllKind => ESTOP
  }

  /** `_validate_event`. */
  predicate EventOk(e: Entry, transaction: string, revision: nat) {
    && e.etype != READ && e.tier == None
    && 0 < |e.ts| <= MAX_POLICY_LENGTH && BoundedText(e.agent, MAX_NAME_LENGTH)
    && |e.detail| <= MAX_POLICY_LENGTH && Printable(e.detail)
    && e.stamp == Some(Stamp(transaction, revision))
  }

  predicate PreviousOk(previous: map<string, Status>) {
    |previous| <= MAX_GRANTS && forall id :: id in previous ==> IsGrantId(id)
  }

  /** A widening target keeps every effective record and adds active ones. */
  predicate WidenOk(kind: TransactionKind, effective: map<string, Grant>, target: map<string, Grant>) {
    var added := target.Keys - effective.Keys;
    && effective.Keys <= target.Keys
    && (forall id :: id in effective ==> target[id] == effective[id])
    && (kind == IssueKind ==> |added| == 1)
    && (kind == DemoSeedKind ==> effective == map[] && added != {})
    && (forall id :: id in added ==> target[id].status == Active)
  }

  predicate AllowedFrom(kind: TransactionKind, s: Status) {
    s == Active || (kind == RevokeKind && s == Suspended)
  }

  function ExpectedTo(kind: TransactionKind): Status {
    match kind
    case RevokeKind => Revoked
    case ExpireKind => Expired
    case _ => Suspended
  }

  /** A restrictive target is already effective; `previous` says what it replaced. */
  predicate RestrictOk(kind: TransactionKind, target: map<string, Grant>, previous: map<string, Status>) {
    && previous.Keys <= target.Keys
    && (kind == SuspendAllKind ==> NoneActive(target))
    && (forall id :: id in previous ==> AllowedFrom(kind, previous[id]) && target[id].status == ExpectedTo(kind))
    && (kind != SuspendAllKind ==> |previous| == 1)
  }

  /** `_validate_pending_semantics`. */
  predicate SemanticsOk(kind: TransactionKind, effective: map<string, Grant>, target: map<string, Grant>,
                        previous: map<string, Status>, event: Entry)
  {
    && event.etype == ExpectedType(kind)
    && if WidensKind(kind) then previous == map[] && WidenOk(kind, effective, target)
       else effective == target && RestrictOk(kind, target, previous)
  }

  /** The snapshot a pending transition claims to start from. */
  function ClaimedBase(kind: TransactionKind, effective: map<string, Grant>, target: map<string, Grant>,
                       previous: map<string, Status>): map<string, Grant>
  {
    if WidensKind(kind) then effective
    else map id | id in target :: if id in previous then target[id].(status := previous[id]) else target[id]
  }

  predicate BaseOk(kind: TransactionKind, revision: nat, effective: map<string, Grant>, target: map<string, Grant>,
                   previous: map<string, Status>, ledgerWitness: Option<StoreWitness>)
  {
    && (kind == DemoSeedKind ==> revision == 0)
    && var base := ClaimedBase(kind, effective, target, previous);
       if revision == 0 then ledgerWitness.None? && base == map[]
       else ledgerWitness.Some? && TargetSha256(base) == ledgerWitness.value.target
  }

  predicate PendingOk(p: Pending, revision: nat, effective: map<string, Grant>, ledgerWitness: Option<StoreWitness>) {
    && IsTransactionId(p.transaction)
    && p.baseRevision == revision && p.targetRevision == revision + 1
    && p.checkpoint.offset <= MAX_REVISION
    && EventOk(p.event, p.transaction, p.targetRevision)
    && Sha256(Line(p.event)) == p.receipt
    && RecordsOk(p.grants) && TargetSha256(p.grants) == p.target
    && PreviousOk(p.previous)
    && SemanticsOk(p.kind, effective, p.grants, p.previous, p.event)
    && BaseOk(p.kind, revision, effective, p.grants, p.previous, ledgerWitness)
  }

  predicate WitnessOk(w: StoreWitness, revision: nat) {
    IsTransactionId(w.transaction) && w.revision == revision && w.offset <= MAX_REVISION
  }

  /** `_decode_state` returning normally on a file within the size limit; `_encode_state`
      checks both of its own output. */
  predicate DecodeOk(e: Envelope) {
    && StoreBytes(e) <= MAX_STORE_BYTES
    && e.revision <= MAX_REVISION
    && RecordsOk(e.grants)
    && (e.ledgerWitness.Some? ==> WitnessOk(e.ledgerWitness.value, e.revision))
    && (e.pending.Some? ==> PendingOk(e.pending.value, e.revision, e.grants, e.ledgerWitness))
    && (e.revision == 0 <==> e.ledgerWitness.None?)
  }

  /** The envelope `_commit` saves before the receipt is written. */
  function PendingEnvelope(base: Envelope, op: Op, event: Entry, at: Checkpoint): Envelope
    requires event.stamp.Some?
  {
    var target := Apply(op, base.grants);
    Envelope(
      base.revision,
      if Widens(op) then base.grants else target,
      base.ledgerWitness,
      Some(Pending(event.stamp.value.transaction, KindOf(op), base.revision, base.revision + 1, at,
                   TargetSha256(target), Sha256(Line(event)), event, target, PreviousOf(op, base.grants))))
  }

  /** `_final_state`. */
  function FinalEnvelope(e: Envelope): Envelope
    requires e.pending.Some?
  {
    var p := e.pending.value;
    Envelope(p.targetRevision, p.grants,
             Some(StoreWitness(p.transaction, p.targetRevision, p.checkpoint.offset, p.receipt, p.target)), None)
  }

  /** The aborted state of `_recover`: the effective grants, nothing pending. */
  function AbortedEnvelope(e: Envelope): Envelope {
    e.(pending := None)
  }

  // ---------------------------------------------------------------- soundness

  /** A base snapshot as the prior clean envelope recorded it. */
  predicate BoundBase(e: Envelope, base: map<string, Grant>) {
    if e.revision == 0 then base == map[]
    else e.ledgerWitness.Some? && e.ledgerWitness.value.target == TargetSha256(base)
  }

  lemma TheOnlyKey<T>(m: map<string, T>, id: string)
    requires |m| == 1 && id in m
    ensures m == map[id := m[id]]
  {
    TheOnlyElement(m.Keys, id);
  }

  lemma TheOnlyElement(s: set<string>, id: string)
    requires |s| == 1 && id in s
    ensures s == {id}
  {
    assert |s - {id}| == 0;
  }

  lemma AddedOne(base: map<string, Grant>, target: map<string, Grant>, id: string)
    requires base.Keys <= target.Keys && target.Keys - base.Keys == {id}
    requires forall x :: x in base ==> target[x] == base[x]
    ensures target == base[id := target[id]]
  {
    assert target.Keys == base.Keys + {id};
  }

  /** An issue that decodes adds exactly one active grant to its base. */
  lemma IssueSound(base: map<string, Grant>, target: map<string, Grant>) returns (op: Op)
    requires WidenOk(IssueKind, base, target)
    requires forall id :: id in target ==> target[id].id == id
    ensures op.Issue? && OpOk(op, base, 0) && target == Apply(op, base)
  {
    var added := target.Keys - base.Keys;
    var id :| id in added;
    TheOnlyElement(added, id);
    AddedOne(base, target, id);
    op := Issue(target[id]);
  }

  lemma RestrictSound(kind: TransactionKind, base: map<string, Grant>, target: map<string, Grant>,
                      previous: map<string, Status>) returns (op: Op)
    requires kind == RevokeKind || kind == ExpireKind
    requires RestrictOk(kind, target, previous)
    requires base == ClaimedBase(kind, target, target, previous)
    ensures KindOf(op) == kind && OpOk(op, base, 0)
    ensures target == Apply(op, base) && previous == PreviousOf(op, base)
  {
    var id :| id in previous;
    TheOnlyKey(previous, id);
    op := if kind == RevokeKind then Revoke(id) else Expire(id);
    assert base[id] == target[id].(status := previous[id]);
    assert target == Apply(op, base);
  }

  lemma SuspendSound(base: map<string, Grant>, target: map<string, Grant>, previous: map<string, Status>)
    requires RestrictOk(SuspendAllKind, target, previous)
    requires base == ClaimedBase(SuspendAllKind, target, target, previous)
    ensures target == Apply(SuspendAll, base) && previous == PreviousOf(SuspendAll, base)
  {
    assert forall id :: id in base ==> (base[id].status == Active <==> id in previous);
    assert target == SuspendActive(base);
  }

  /** The digest of the prior clean snapshot leaves one base to claim. */
  lemma BaseIs(e: Envelope, base: map<string, Grant>)
    requires DecodeOk(e) && e.pending.Some? && BoundBase(e, base)
    ensures var p := e.pending.value;
            base == ClaimedBase(p.kind, e.grants, p.grants, p.previous)
  {
    hide RecordsOk, WidenOk, RestrictOk, EventOk;
  }

  lemma DecodedParts(e: Envelope)
    requires DecodeOk(e) && e.pending.Some?
    ensures var p := e.pending.value;
            && SemanticsOk(p.kind, e.grants, p.grants, p.previous, p.event) && RecordsOk(p.grants)
            && (p.kind == DemoSeedKind ==> e.revision == 0)
  {
    hide StoreBytes, RecordsOk, EventOk, SemanticsOk, PreviousOk, ClaimedBase, WitnessOk, IsTransactionId;
  }

  /** A witness that decodes names the revision it stands for. */
  lemma WitnessSound(e: Envelope)
    requires DecodeOk(e)
    ensures e.ledgerWitness.Some? <==> e.revision > 0
    ensures e.ledgerWitness.Some? ==>
              var w := e.ledgerWitness.value;
              w.revision == e.revision <= MAX_REVISION && w.offset <= MAX_REVISION && |w.transaction| == 35 &&
              IsTransactionId(w.transaction)
  {
    hide StoreBytes, RecordsOk, PendingOk;
  }

  lemma DecodedReceipt(e: Envelope)
    requires DecodeOk(e) && e.pending.Some?
    ensures var p := e.pending.value;
            && p.event.tier == None && p.event.stamp == Some(Stamp(p.transaction, e.revision + 1))
            && p.receipt == Sha256(Line(p.event))
            && 0 < |p.event.ts| <= 128 && 0 < |p.event.agent| <= 128 && |p.event.detail| <= 128
            && Printable(p.event.agent) && Printable(p.event.detail)
  {
    hide StoreBytes, RecordsOk, SemanticsOk, BaseOk, PreviousOk, WitnessOk, IsTransactionId, Line, Printable;
  }

  /** Whatever decodes differs from its base in exactly one permitted way. */
  lemma PendingSound(e: Envelope, base: map<string, Grant>) returns (op: Op)
    requires DecodeOk(e) && e.pending.Some? && BoundBase(e, base)
    ensures var p := e.pending.value;
            && KindOf(op) == p.kind && OpOk(op, base, e.revision)
            && p.grants == Apply(op, base)
            && p.previous == PreviousOf(op, base)
            && e.grants == (if Widens(op) then base else p.grants)
            && p.event.etype == TypeOf(op) && p.event.tier == None
            && p.event.stamp == Some(Stamp(p.transaction, e.revision + 1)) && p.receipt == Sha256(Line(p.event))
            && 0 < |p.event.ts| <= 128 && 0 < |p.event.agent| <= 128 && |p.event.detail| <= 128
            && Printable(p.event.agent) && Printable(p.event.detail)
  {
    hide DecodeOk, RecordOk, OneCredentialEach;
    var p := e.pending.value;
    BaseIs(e, base);
    DecodedParts(e);
    DecodedReceipt(e);
    match p.kind
    case IssueKind => op := IssueSound(base, p.grants);
    case DemoSeedKind => op := Seed(p.grants);
    case RevokeKind => op := RestrictSound(p.kind, base, p.grants, p.previous);
    case ExpireKind => op := RestrictSound(p.kind, base, p.grants, p.previous);
    case SuspendAllKind =>
      op := SuspendAll;
      SuspendSound(base, p.grants, p.previous);
  }

  // ---------------------------------------------------------------- completeness

  /** A verified clean state: what `_install_state` lets through. */
  predicate CleanOk(e: Envelope) {
    DecodeOk(e) && e.pending.None? && BoundBase(e, e.grants)
  }

  lemma SubsetSize(a: set<string>, b: set<string>)
    requires a <= b
    ensures |a| <= |b|
  {
    assert b == a + (b - a);
  }

  lemma PreviousFits(op: Op, grants: map<string, Grant>, revision: nat)
    requires RecordsOk(grants) && OpOk(op, grants, revision)
    ensures PreviousOk(PreviousOf(op, grants))
    ensures op.Revoke? || op.Expire? ==> |PreviousOf(op, grants)| == 1
  {
    hide IsGrantId;
    var p := PreviousOf(op, grants);
    SubsetSize(p.Keys, grants.Keys);
  }

  lemma ClaimedBaseIs(op: Op, grants: map<string, Grant>, revision: nat)
    requires OpOk(op, grants, revision)
    ensures ClaimedBase(KindOf(op), if Widens(op) then grants else Apply(op, grants), Apply(op, grants),
                        PreviousOf(op, grants)) == grants
  {
  }

  lemma WidenComplete(op: Op, grants: map<string, Grant>, revision: nat)
    requires OpOk(op, grants, revision) && Widens(op)
    ensures WidenOk(KindOf(op), grants, Apply(op, grants))
  {
    match op
    case Issue(g) => assert grants[g.id := g].Keys - grants.Keys == {g.id};
    case Seed(seeds) => assert seeds.Keys - grants.Keys == seeds.Keys;
  }

  lemma RestrictComplete(op: Op, grants: map<string, Grant>, revision: nat)
    requires OpOk(op, grants, revision) && !Widens(op)
    requires op.Revoke? || op.Expire? ==> |PreviousOf(op, grants)| == 1
    ensures RestrictOk(KindOf(op), Apply(op, grants), PreviousOf(op, grants))
  {
  }

  lemma KindAgrees(op: Op)
    ensures ExpectedType(KindOf(op)) == TypeOf(op) && WidensKind(KindOf(op)) == Widens(op)
    ensures KindOf(op) == DemoSeedKind ==> op.Seed?
  {
  }

  lemma SemanticsComplete(op: Op, grants: map<string, Grant>, revision: nat, event: Entry)
    requires RecordsOk(grants) && OpOk(op, grants, revision) && event.etype == TypeOf(op)
    ensures SemanticsOk(KindOf(op), if Widens(op) then grants else Apply(op, grants), Apply(op, grants),
                        PreviousOf(op, grants), event)
  {
    PreviousFits(op, grants, revision);
    hide RecordsOk, WidenOk, RestrictOk, PreviousOk;
    KindAgrees(op);
    if Widens(op) { WidenComplete(op, grants, revision); } else { RestrictComplete(op, grants, revision); }
  }

  lemma BaseComplete(base: Envelope, op: Op)
    requires BoundBase(base, base.grants) && OpOk(op, base.grants, base.revision)
    requires base.revision == 0 <==> base.ledgerWitness.None?
    ensures BaseOk(KindOf(op), base.revision, if Widens(op) then base.grants else Apply(op, base.grants),
                   Apply(op, base.grants), PreviousOf(op, base.grants), base.ledgerWitness)
  {
    KindAgrees(op);
    ClaimedBaseIs(op, base.grants, base.revision);
    hide ClaimedBase, Apply, PreviousOf;
  }

  lemma PendingFits(base: Envelope, op: Op, event: Entry, at: Checkpoint)
    requires RecordsOk(base.grants) && BoundBase(base, base.grants) && OpOk(op, base.grants, base.revision)
    requires base.revision == 0 <==> base.ledgerWitness.None?
    requires at.offset <= MAX_REVISION && RecordsOk(Apply(op, base.grants))
    requires event.etype == TypeOf(op) && event.stamp.Some? && IsTransactionId(event.stamp.value.transaction)
    requires EventOk(event, event.stamp.value.transaction, base.revision + 1)
    ensures var e := PendingEnvelope(base, op, event, at);
            PendingOk(e.pending.value, base.revision, e.grants, base.ledgerWitness)
  {
    hide RecordsOk, SemanticsOk, BaseOk, PreviousOk, EventOk, IsTransactionId, Apply, OpOk, PreviousOf, BoundBase,
      Line;
    PreviousFits(op, base.grants, base.revision);
    SemanticsComplete(op, base.grants, base.revision, event);
    BaseComplete(base, op);
  }

  /** Every envelope `_commit` builds can be read back, exactly when its receipt has short
      printable texts and it fits the file. */
  lemma PendingComplete(base: Envelope, op: Op, event: Entry, at: Checkpoint)
    requires CleanOk(base) && OpOk(op, base.grants, base.revision)
    requires base.revision < MAX_REVISION && at.offset <= MAX_REVISION
    requires RecordsOk(Apply(op, base.grants))
    requires EventFor(op, event, base.revision + 1)
    ensures DecodeOk(PendingEnvelope(base, op, event, at)) <==>
            && StoreBytes(PendingEnvelope(base, op, event, at)) <= MAX_STORE_BYTES
            && |event.ts| <= MAX_POLICY_LENGTH
            && |event.agent| <= MAX_NAME_LENGTH && Printable(event.agent)
            && |event.detail| <= MAX_POLICY_LENGTH && Printable(event.detail)
  {
    hide RecordsOk, PendingOk, OpOk, EventOk, Apply, StoreBytes, WitnessOk, Fits, IsTransactionId, Printable;
    EventOkIs(op, event, base.revision + 1);
    if EventOk(event, event.stamp.value.transaction, base.revision + 1) {
      PendingFits(base, op, event, at);
      if !Widens(op) { assert PendingEnvelope(base, op, event, at).grants == Apply(op, base.grants); }
    } else {
      DecodedEvent(PendingEnvelope(base, op, event, at));
    }
  }

  lemma EventOkIs(op: Op, event: Entry, revision: nat)
    requires EventFor(op, event, revision)
    ensures EventOk(event, event.stamp.value.transaction, revision) <==>
            && |event.ts| <= MAX_POLICY_LENGTH
            && |event.agent| <= MAX_NAME_LENGTH && Printable(event.agent)
            && |event.detail| <= MAX_POLICY_LENGTH && Printable(event.detail)
  {
    hide Line, Printable;
  }

  lemma DecodedEvent(e: Envelope)
    requires e.pending.Some?
    ensures DecodeOk(e) ==> EventOk(e.pending.value.event, e.pending.value.transaction, e.pending.value.targetRevision)
  {
    hide StoreBytes, RecordsOk, EventOk, SemanticsOk, BaseOk, PreviousOk, WitnessOk, IsTransactionId;
  }

  lemma PendingParts(e: Envelope)
    requires DecodeOk(e) && e.pending.Some?
    ensures var p := e.pending.value;
            && StoreBytes(e) <= MAX_STORE_BYTES && RecordsOk(p.grants) && p.targetRevision == e.revision + 1
            && p.target == TargetSha256(p.grants)
            && FinalEnvelope(e) == Envelope(e.revision + 1, p.grants, Some(StoreWitness(
                 p.transaction, p.targetRevision, p.checkpoint.offset, p.receipt, p.target)), None)
            && WitnessOk(FinalEnvelope(e).ledgerWitness.value, e.revision + 1)
  {
    hide RecordsOk, StoreBytes, EventOk, BaseOk, SemanticsOk, PreviousOk, Line, IsTransactionId;
  }

  lemma FinalParts(e: Envelope)
    requires 0 < e.revision && e.pending.None? && e.ledgerWitness.Some? && RecordsOk(e.grants)
    requires WitnessOk(e.ledgerWitness.value, e.revision) && e.ledgerWitness.value.target == TargetSha256(e.grants)
    ensures StoreBytes(e) <= MAX_STORE_BYTES && e.revision <= MAX_REVISION ==> CleanOk(e)
  {
    hide RecordsOk, StoreBytes, WitnessOk;
  }

  /** And once its receipt is in the ledger, the final envelope is clean. */
  lemma FinalClean(e: Envelope)
    requires DecodeOk(e) && e.pending.Some? && e.revision < MAX_REVISION
    ensures CleanOk(FinalEnvelope(e))
  {
    var p := e.pending.value;
    var w := StoreWitness(p.transaction, p.targetRevision, p.checkpoint.offset, p.receipt, p.target);
    PendingParts(e);
    FinalParts(FinalEnvelope(e));
    hide *;
    SettlingShrinks(e, w);
  }

  // ---------------------------------------------------------------- the store file

  /** Faults of one save; a crash leaves what the failure at the same point leaves. */
  datatype SaveFault = SaveFault(opens: bool, stages: bool, swaps: bool, syncs: bool, restores: bool, unlinks: bool)

  predicate SmoothSave(f: SaveFault) {
    f.opens && f.stages && f.swaps && f.syncs && f.unlinks
  }

  class GrantMetadataStore {
    var file: Option<Envelope>

    constructor ()
      ensures file == None
    {
      file := None;
    }

    /** `_rollback_replace`: put the staged backup back, or remove a first envelope. */
    method RollbackReplace(backup: Option<Envelope>, f: SaveFault)
      modifies this
      ensures file == if f.restores then backup else old(file)
    {
      if f.restores { file := backup; }
    }

    /** `save_state`: all of the new envelope or all of the old one is live afterwards. */
    method SaveState(e: Envelope, f: SaveFault) returns (ok: bool)
      modifies this
      ensures ok ==> DecodeOk(e) && file == Some(e)
      ensures file == old(file) || (DecodeOk(e) && file == Some(e))
      ensures old(file).Some? ==> file.Some?
      ensures old(file).Some? && !DecodeOk(old(file).value) ==> !ok && file == old(file)
      ensures SmoothSave(f) && DecodeOk(e) && (old(file).Some? ==> DecodeOk(old(file).value)) ==> ok
    {
      if !DecodeOk(e) || !f.opens { return false; }
      var previous := file;
      if previous.Some? && !DecodeOk(previous.value) { return false; }
      var backup := previous;
      if !f.stages || !f.swaps { return false; }
      file := Some(e);
      if !f.syncs {
        RollbackReplace(backup, f);
        return false;
      }
      if backup.Some? && !f.unlinks { return false; }
      ok := true;
    }
  }
}
