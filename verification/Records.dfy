/** The grant envelope as a record, and the number of bytes it takes in the store file. */
module Records {
  import opened Outcomes
  import opened Json
  import opened Order
  import opened House
  import opened Entries
  import opened Grants
  import opened Ledger

  const MAX_STORE_BYTES: nat := 4 * 1024 * 1024
  const MAX_GRANTS: nat := 1_024
  const MAX_ZONES_PER_GRANT: nat := 64
  const MAX_NAME_LENGTH: nat := 128
  const MAX_POLICY_LENGTH: nat := 128

  /** The digest of a complete snapshot, as a free constructor over the canonical
      (sorted) record list, that is, over the map. */
  datatype TargetDigest = TargetSha256(grants: map<string, Grant>)

  datatype StoreWitness = StoreWitness(transaction: string, revision: nat, offset: nat, receipt: Digest, target: TargetDigest)

  datatype TransactionKind = IssueKind | DemoSeedKind | RevokeKind | ExpireKind | SuspendAllKind

  datatype Pending = Pending(
    transaction: string,
    kind: TransactionKind,
    baseRevision: nat,
    targetRevision: nat,
    checkpoint: Checkpoint,
    target: TargetDigest,
    receipt: Digest,
    event: Entry,
    grants: map<string, Grant>,
    previous: map<string, Status>)

  datatype Envelope = Envelope(
    revision: nat,
    grants: map<string, Grant>,
    ledgerWitness: Option<StoreWitness>,
    pending: Option<Pending>)

  const EMPTY := Envelope(0, map[], None, None)

  // ---------------------------------------------------------------- names as stored

  function StatusName(s: Status): string {
    match s
    case Active => "active"
    case Revoked => "revoked"
    case Expired => "expired"
    case Suspended => "suspended"
  }

  function AgentName(a: Agent): string {
    match a
    case AgentKind => "agent"
    case HumanKind => "human"
    case HumanoidKind => "humanoid"
  }

  function ScopeName(s: Scope): string {
    match s
    case ReadLayout => "read:layout"
    case ReadSystems => "read:systems"
    case ReadInventory => "read:inventory"
    case CmdNavigate => "command:navigate"
    case CmdManipulate => "command:manipulate"
  }

  function KindName(k: TransactionKind): string {
    match k
    case IssueKind => "issue"
    case DemoSeedKind => "demo_seed"
    case RevokeKind => "revoke"
    case ExpireKind => "expire"
    case SuspendAllKind => "suspend_all"
  }

  // ---------------------------------------------------------------- bytes

  /** Frames are what is left of an object without its values; their single quotes stand for
      double ones. */
  const NULL_BYTES: nat := |"null"|
  const DIGEST_BYTES: nat := 64

  function NumberBytes(n: nat): nat {
    |Digits(n)|
  }

  /** A JSON array of strings. */
  function ListBytes(texts: seq<string>): nat {
    if texts == [] then 2 else 1 + ItemBytes(texts)
  }

  /** Its items, each with the comma or bracket after it. */
  function ItemBytes(texts: seq<string>): nat {
    if texts == [] then 0 else TextBytes(texts[0]) + 1 + ItemBytes(texts[1..])
  }

  function ScopeNames(scopes: seq<Scope>): seq<string> {
    seq(|scopes|, i requires 0 <= i < |scopes| => ScopeName(scopes[i]))
  }

  const RECORD_FRAME := "{'credential_digest':,'expires':,'id':,'issued':,'kind':,'name':,'scopes':,'status':,'window':,'zones':}"

  /** One record but for its status. */
  function RecordBody(g: Grant): nat {
    |RECORD_FRAME| + TextBytes(g.credential) + TextBytes(g.texts.expires) + TextBytes(g.id) + TextBytes(g.texts.issued)
    + TextBytes(AgentName(g.kind)) + TextBytes(g.name) + ListBytes(ScopeNames(g.scopes)) + TextBytes(g.texts.window)
    + ListBytes(g.zones)
  }

  function StatusBytes(s: Status): nat {
    2 + |StatusName(s)|
  }

  function RecordBytes(g: Grant): nat {
    RecordBody(g) + StatusBytes(g.status)
  }

  /** The records of the listed grants, each with the comma or bracket after it. */
  function RecordsBytes(ids: seq<string>, grants: map<string, Grant>): nat
    requires forall i :: 0 <= i < |ids| ==> ids[i] in grants
  {
    if ids == [] then 0 else RecordBytes(grants[ids[0]]) + 1 + RecordsBytes(ids[1..], grants)
  }

  /** The sorted record list of a snapshot. */
  function SnapshotBytes(grants: map<string, Grant>): nat {
    if grants.Keys == {} then 2 else 1 + RecordsBytes(Sorted(grants.Keys), grants)
  }

  /** The members of the listed previous statuses, each with the comma or brace after it. */
  function MembersBytes(ids: seq<string>, previous: map<string, Status>): nat
    requires forall i :: 0 <= i < |ids| ==> ids[i] in previous
  {
    if ids == [] then 0
    else TextBytes(ids[0]) + 1 + StatusBytes(previous[ids[0]]) + 1 + MembersBytes(ids[1..], previous)
  }

  function PreviousBytes(previous: map<string, Status>): nat {
    if previous.Keys == {} then 2 else 1 + MembersBytes(Sorted(previous.Keys), previous)
  }

  const WITNESS_FRAME := "{'ledger_offset':,'receipt_sha256':'','revision':,'target_sha256':'','transaction':}"

  function WitnessBytes(w: Option<StoreWitness>): nat {
    match w
    case None => NULL_BYTES
    case Some(w) =>
      |WITNESS_FRAME| + 2 * DIGEST_BYTES + NumberBytes(w.offset) + NumberBytes(w.revision) + TextBytes(w.transaction)
  }

  const PENDING_FRAME :=
    "{'base_revision':,'event':,'kind':,'ledger_offset':,'ledger_tail_sha256':'','previous_statuses':,'receipt_sha256':'','target_grants':,'target_revision':,'target_sha256':'','transaction':}"

  function PendingBytes(p: Option<Pending>): nat {
    match p
    case None => NULL_BYTES
    case Some(p) =>
      |PENDING_FRAME| + 3 * DIGEST_BYTES + NumberBytes(p.baseRevision) + |Line(p.event)| - 1
      + TextBytes(KindName(p.kind)) + NumberBytes(p.checkpoint.offset) + PreviousBytes(p.previous)
      + SnapshotBytes(p.grants) + NumberBytes(p.targetRevision) + TextBytes(p.transaction)
  }

  const STORE_FRAME := "{'grants':,'ledger_witness':,'pending':,'revision':,'schema':'ths/grant-metadata/0.2'}\n"

  /** The canonical encoding of the envelope, with its newline. */
  function StoreBytes(e: Envelope): nat {
    |STORE_FRAME| + SnapshotBytes(e.grants) + WitnessBytes(e.ledgerWitness) + PendingBytes(e.pending) + NumberBytes(e.revision)
  }

  // ---------------------------------------------------------------- how sizes move

  lemma DigitsGrow(n: nat)
    ensures |Digits(n + 1)| <= |Digits(n)| + 1
  {
    if n + 1 >= 10 && n >= 10 {
      if (n + 1) / 10 != n / 10 { DigitsGrow(n / 10); }
    }
  }

  /** Finishing or dropping a pending transition never makes the envelope longer. */
  lemma SettlingShrinks(e: Envelope, w: StoreWitness)
    requires e.pending.Some? && e.pending.value.targetRevision == e.revision + 1
    requires w.transaction == e.pending.value.transaction && w.revision == e.revision + 1
    requires w.offset == e.pending.value.checkpoint.offset
    ensures StoreBytes(Envelope(e.revision + 1, e.pending.value.grants, Some(w), None)) <= StoreBytes(e)
    ensures StoreBytes(e.(pending := None)) <= StoreBytes(e)
  {
    hide Digits, Line, PreviousBytes, SnapshotBytes, TextBytes;
    DigitsGrow(e.revision);
  }

  lemma EmptyFits()
    ensures StoreBytes(EMPTY) <= MAX_STORE_BYTES
  {
    assert |Digits(0)| == 1;
  }
}
