/** Crash-recoverable authority for durable grant state: one of any number of instances
    that share a directory, each with a cache that may be stale. */
module Authority {
  import opened Bytes
  import opened Outcomes
  import opened Texts
  import opened Entries
  import opened House
  import opened Grants
  import opened AtomicLog
  import opened Ledger
  import opened Order
  import opened Records
  import opened Envelopes
  import opened StopRoom
  import opened Protocol
  import opened Directories

  /** The faults of one durable sequence: reading the store, then each action. */
  datatype Faults = Faults(load: bool, prepare: Fault, pending: SaveFault, append: Fault, final: SaveFault)

  /** What the world supplies to one call: the clock, transaction ids, and the faults of
      the reload and of the commit. */
  datatype Turn = Turn(instant: int, ts: string, seedTransaction: string, transaction: string,
                       reload: Faults, commit: Faults)

  datatype Refresh = Fresh | SeedRefused(error: IssueError) | Unready

  predicate SmoothFaults(f: Faults) {
    f.load && Smooth(f.prepare) && SmoothSave(f.pending) && Smooth(f.append) && SmoothSave(f.final)
  }

  // ---------------------------------------------------------------- verification

  /** `_verify_clean_state`. */
  predicate VerifyClean(file: Housefile, loads: seq<byte> -> Option<Entry>, e: Envelope, data: seq<byte>) {
    && e.pending.None?
    && (if e.revision == 0 then e.grants == map[] && e.ledgerWitness.None?
        else e.ledgerWitness.Some? && TargetSha256(e.grants) == e.ledgerWitness.value.target &&
             VerifyWitness(data, loads, LineWitness(e.ledgerWitness.value)))
    && AllBound(file, e.grants)
  }

  /** `_verify_pending_base_receipt`. */
  predicate VerifyPendingBase(file: Housefile, loads: seq<byte> -> Option<Entry>, e: Envelope, data: seq<byte>) {
    && e.pending.Some? && e.pending.value.baseRevision == e.revision
    && AllBound(file, e.pending.value.grants)
    && if e.revision == 0 then e.ledgerWitness.None?
       else e.ledgerWitness.Some? && VerifyWitness(data, loads, LineWitness(e.ledgerWitness.value))
  }

  lemma WitnessedIs(loads: seq<byte> -> Option<Entry>, w: StoreWitness, revision: nat, data: seq<byte>)
    requires ReadsBack(loads) && WitnessOk(w, revision) && revision > 0
    ensures VerifyWitness(data, loads, LineWitness(w)) <==> Witnessed(data, w)
  {
    if VerifyWitness(data, loads, LineWitness(w)) {
      VerifyWitnessSound(data, loads, LineWitness(w));
    }
    hide VerifyWitness, Vouches;
    if Witnessed(data, w) {
      var e :| Vouches(data, LineWitness(w), e);
      VerifyWitnessComplete(data, loads, LineWitness(w), e);
    }
  }

  lemma VerifyCleanIs(file: Housefile, loads: seq<byte> -> Option<Entry>, e: Envelope, data: seq<byte>)
    requires ReadsBack(loads) && DecodeOk(e)
    ensures VerifyClean(file, loads, e, data) <==> Verified(e, data) && AllBound(file, e.grants)
  {
    hide RecordsOk, PendingOk, VerifyWitness, Witnessed, AllBound;
    if e.revision > 0 { WitnessedIs(loads, e.ledgerWitness.value, e.revision, data); }
  }

  lemma VerifyPendingBaseIs(file: Housefile, loads: seq<byte> -> Option<Entry>, e: Envelope, data: seq<byte>)
    requires ReadsBack(loads) && DecodeOk(e)
    ensures VerifyPendingBase(file, loads, e, data) <==>
            BaseVerified(e, data) && AllBound(file, e.pending.value.grants)
  {
    hide RecordsOk, PendingOk, VerifyWitness, Witnessed, AllBound;
    if e.revision > 0 { WitnessedIs(loads, e.ledgerWitness.value, e.revision, data); }
  }

  // ---------------------------------------------------------------- what a commit may start from

  /** What a caller of `_commit` has checked; the envelope validation adds the rest. */
  predicate Startable(op: Op, grants: map<string, Grant>) {
    match op
    case Issue(g) => g.id !in grants
    case Seed(_) => true
    case Revoke(id) => id in grants && (grants[id].status == Active || grants[id].status == Suspended)
    case Expire(id) => id in grants && grants[id].status == Active
    case SuspendAll => true
  }

  lemma DecodedWidens(base: Envelope, op: Op, event: Entry, at: Checkpoint)
    requires event.stamp.Some? && Widens(op)
    requires DecodeOk(PendingEnvelope(base, op, event, at))
    ensures WidenOk(KindOf(op), base.grants, Apply(op, base.grants)) && RecordsOk(Apply(op, base.grants))
    ensures op.Seed? ==> base.revision == 0
  {
    hide RecordsOk, EventOk, PreviousOk, WidenOk, RestrictOk, Apply, PreviousOf, ClaimedBase;
  }

  lemma SeedOk(seeds: map<string, Grant>, grants: map<string, Grant>)
    requires WidenOk(DemoSeedKind, grants, seeds) && RecordsOk(seeds)
    ensures OpOk(Seed(seeds), grants, 0)
  {
    hide RecordOk, OneCredentialEach;
    assert seeds.Keys - grants.Keys == seeds.Keys;
  }

  lemma IssueActive(g: Grant, grants: map<string, Grant>)
    requires WidenOk(IssueKind, grants, grants[g.id := g]) && g.id !in grants
    ensures g.status == Active
  {
    assert grants[g.id := g].Keys - grants.Keys == {g.id};
  }

  lemma DecodedOpOk(base: Envelope, op: Op, event: Entry, at: Checkpoint)
    requires event.stamp.Some? && Startable(op, base.grants)
    requires DecodeOk(PendingEnvelope(base, op, event, at))
    ensures OpOk(op, base.grants, base.revision)
  {
    hide DecodeOk, PendingEnvelope, RecordsOk, WidenOk;
    match op
    case Issue(g) =>
      DecodedWidens(base, op, event, at);
      IssueActive(g, base.grants);
    case Seed(seeds) =>
      DecodedWidens(base, op, event, at);
      SeedOk(seeds, base.grants);
    case _ =>
  }

  // ---------------------------------------------------------------- outcomes over the log

  /** All that a transition may have done to the log by the time recovery has settled it:
      nothing, or exactly its one receipt. */
  predicate AllOrNothing(before: seq<Item>, op: Op, after: seq<Item>) {
    after == before || (|after| == |before| + 1 && before <= after && IsReceipt(after[|before|], op))
  }

  predicate IsReceipt(item: Item, op: Op) {
    item.Receipt? && item.op == op
  }

  /** The log that a reload leaves: what was owed is settled, or a fresh demo is seeded. */
  predicate Reloaded(t: Tale, seeds: seq<Grant>, log: seq<Item>) {
    log == Settled(t) || (t == Tale([], Idle) && |log| == 1 && IsSeeding(log[0], seeds))
  }

  predicate IsSeeding(item: Item, seeds: seq<Grant>) {
    item.Receipt? && item.op == Seed(Seeded(seeds))
  }

  /** The seeds under their ids. */
  function Seeded(seeds: seq<Grant>): map<string, Grant> {
    if seeds == [] then map[]
    else
      var g := seeds[|seeds| - 1];
      Seeded(seeds[..|seeds| - 1])[g.id := g]
  }

  /** What the manager says to seed `i` after those before it. */
  function SeedCheck(file: Housefile, seeds: seq<Grant>, i: nat, now: int): Option<IssueError>
    requires i < |seeds|
  {
    IssueCheck(file, Seeded(seeds[..i]), seeds[i], now)
  }

  predicate SeedsPass(file: Housefile, seeds: seq<Grant>, now: int) {
    forall i :: 0 <= i < |seeds| ==> SeedCheck(file, seeds, i, now).None?
  }

  /** The first refusal of a seed, after seeds that pass. */
  predicate FirstRefusal(file: Housefile, seeds: seq<Grant>, now: int, error: IssueError) {
    exists i :: 0 <= i < |seeds| && SeedCheck(file, seeds, i, now) == Some(error) &&
                forall k :: 0 <= k < i ==> SeedCheck(file, seeds, k, now).None?
  }

  function SeedReceipt(turn: Turn, seeds: seq<Grant>): Entry {
    ReceiptEntry(Seed(Seeded(seeds)), SEED_DETAIL, turn.ts, turn.seedTransaction, 1)
  }

  const SEED_DETAIL := "synthetic demo grant provisioned"

  function ReceiptEntry(op: Op, detail: string, ts: string, transaction: string, revision: nat): Entry {
    Entry(ts, TypeOf(op), AgentOf(op), detail, None, Some(Stamp(transaction, revision)))
  }

  /** What keeps `_commit` from refusing a startable transition: the record and event rules,
      and every size limit, that of the envelope file included. */
  predicate Acceptable(file: Housefile, op: Op, log: seq<Item>, event: Entry) {
    && OpOk(op, Replay(log), Receipts(log))
    && AllBound(file, Apply(op, Replay(log))) && RecordsOk(Apply(op, Replay(log)))
    && Receipts(log) < MAX_REVISION && |LogBytes(log)| <= MAX_REVISION
    && event.stamp.Some? && EventOk(event, event.stamp.value.transaction, Receipts(log) + 1)
    && EventFor(op, event, Receipts(log) + 1)
    && StoreBytes(PendingEnvelope(EnvelopeOf(log), op, event, CheckpointOf(LogBytes(log)))) <= MAX_STORE_BYTES
  }

  /** The authority's own credential comparison knows no exempt digest. */
  predicate CredentialClash(grants: map<string, Grant>, credential: string) {
    exists id :: id in grants && grants[id].credential == credential
  }

  datatype IssueOutcome = Issued | Conflict | Rejected(error: IssueError) | SeedRejected(error: IssueError) | Unavailable

  function IssueReceipt(g: Grant, turn: Turn, log: seq<Item>): Entry {
    ReceiptEntry(Op.Issue(g), "grant issued", turn.ts, turn.transaction, Receipts(log) + 1)
  }

  datatype RevokeOutcome =
    | Revoked
    | AlreadyEnded
    | NotFound
    | RevokeSeedRejected(error: IssueError)
    | RevokeUnavailable

  predicate Ended(s: Status) {
    s == Status.Revoked || s == Status.Expired
  }

  function RevokeReceipt(grantId: string, turn: Turn, log: seq<Item>): Entry {
    ReceiptEntry(Op.Revoke(grantId), "grant revoked", turn.ts, turn.transaction, Receipts(log) + 1)
  }

  const STOP_DETAIL := "simulated interlock" + " tripped; active" + " grants suspended"

  datatype SuspendOutcome = SuspendedAll(count: nat) | SuspendSeedRejected(error: IssueError) | SuspendUnavailable

  function StopReceipt(turn: Turn, log: seq<Item>): Entry {
    ReceiptEntry(SuspendAll, STOP_DETAIL, turn.ts, turn.transaction, Receipts(log) + 1)
  }

  /** The clock and the random source as they always are, and counters that have not run out. */
  predicate WorldOk(ts: string, transaction: string, log: seq<Item>) {
    && IsTransactionId(transaction) && 0 < |ts| <= MAX_POLICY_LENGTH
    && Receipts(log) < MAX_REVISION && |LogBytes(log)| <= MAX_REVISION
  }

  predicate TurnOk(turn: Turn, log: seq<Item>) {
    WorldOk(turn.ts, turn.transaction, log)
  }

  function ActiveIds(grants: map<string, Grant>): (ids: set<string>)
    ensures ids <= grants.Keys
  {
    set id | id in grants && grants[id].status == Active
  }

  /** `presented` is the digest of a well-formed bearer token, if there is one. */
  datatype AuthOutcome =
    | Authorized(decision: Decision)
    | AuthFailed
    | AuthSeedRejected(error: IssueError)
    | AuthUnavailable

  function ExpiryReceipt(grantId: string, action: string, turn: Turn, log: seq<Item>): Entry {
    ReceiptEntry(Op.Expire(grantId), action + " refused: grant_expired", turn.ts, turn.transaction, Receipts(log) + 1)
  }

  /** What a decision adds to the log. */
  function ExpiryItems(g: Grant, grantId: string, action: string, turn: Turn, log: seq<Item>): seq<Item> {
    if Due(g, turn.instant) then [Receipt(Op.Expire(grantId), ExpiryReceipt(grantId, action, turn, log))] else []
  }

  const OBSERVED_DETAIL := "owner projection observed: grant_expired"

  datatype SnapshotOutcome =
    | Shown(grants: map<string, Grant>)
    | SnapshotSeedRejected(error: IssueError)
    | SnapshotUnavailable

  function ObservedReceipt(grantId: string, ts: string, turn: Turn, log: seq<Item>): Entry {
    ReceiptEntry(Op.Expire(grantId), OBSERVED_DETAIL, ts, turn.transaction, Receipts(log) + 1)
  }

  function DueIds(grants: map<string, Grant>, now: int): set<string> {
    set id | id in grants && Due(grants[id], now)
  }

  /** Those of the listed grants that are due. */
  function DueOf(ids: seq<string>, grants: map<string, Grant>, now: int): seq<string>
    requires forall i :: 0 <= i < |ids| ==> ids[i] in grants
  {
    if ids == [] then []
    else
      var m := |ids| - 1;
      DueOf(ids[..m], grants, now) + if Due(grants[ids[m]], now) then [ids[m]] else []
  }

  /** The due grants in the order of their ids. */
  function DueList(grants: map<string, Grant>, now: int): seq<string> {
    DueOf(Sorted(grants.Keys), grants, now)
  }

  /** Nothing stands in the way of expiring the due grants one after the other. */
  ghost predicate ExpiresFreely(file: Housefile, log: seq<Item>, due: seq<string>, ts: string, later: nat -> Turn) {
    forall k: nat, reached :: k < |due| && Expiries(log, due[..k], ts, later, reached) ==>
      SmoothFaults(later(k).commit) &&
      Acceptable(file, Op.Expire(due[k]), reached, ObservedReceipt(due[k], ts, later(k), reached))
  }

  /** A good clock, no faults, and counters that last for `n` expiries. */
  ghost predicate ExpiryWorld(log: seq<Item>, n: nat, ts: string, later: nat -> Turn) {
    && (forall k: nat :: k < n ==> SmoothFaults(later(k).commit) && IsTransactionId(later(k).transaction))
    && 0 < |ts| <= MAX_POLICY_LENGTH
    && Receipts(log) + n <= MAX_REVISION && |LogBytes(log)| + EXPIRY_BYTES * n <= MAX_REVISION
  }

  /** More than any receipt of an expiry takes in the ledger. */
  const EXPIRY_BYTES: nat := 4_000

  function ExpireAllDue(grants: map<string, Grant>, now: int): map<string, Grant> {
    map id | id in grants :: if Due(grants[id], now) then grants[id].(status := Status.Expired) else grants[id]
  }

  /** `log` is `base` with one expiry receipt for each of `ids`, in that order. */
  predicate Expiries(base: seq<Item>, ids: seq<string>, ts: string, later: nat -> Turn, log: seq<Item>)
    decreases |ids|
  {
    if ids == [] then log == base
    else
      var n := |ids| - 1;
      && log != []
      && Expiries(base, ids[..n], ts, later, log[..|log| - 1])
      && log[|log| - 1] == Receipt(Op.Expire(ids[n]), ObservedReceipt(ids[n], ts, later(n), log[..|log| - 1]))
  }

  // ---------------------------------------------------------------- the authority

  class GrantAuthority {
    const id: nat
    const file: Housefile
    const dir: Directory
    const loads: seq<byte> -> Option<Entry>
    const demoMode: bool
    const demoSeeds: seq<Grant>
    var state: Option<Envelope>
    var ready: bool
    var grants: map<string, Grant>
    /** The log as the last reload left it. */
    ghost var loaded: seq<Item>

    ghost predicate Valid()
      reads dir, dir.store, dir.ledger
    {
      dir.Valid() && ReadsBack(loads)
    }

    /** Inside the lock with a verified state installed. */
    ghost predicate Leased()
      reads this, dir, dir.store, dir.ledger
    {
      && Valid() && ready && state.Some? && dir.session == Lease(id, state.value)
      && grants == state.value.grants && AllBound(file, grants)
    }

    constructor (id: nat, file: Housefile, dir: Directory, loads: seq<byte> -> Option<Entry>,
                 demoMode: bool, demoSeeds: seq<Grant>)
      requires dir.Valid() && ReadsBack(loads)
      ensures Valid() && !ready && this.dir == dir && this.file == file
    {
      this.id, this.file, this.dir, this.loads := id, file, dir, loads;
      this.demoMode, this.demoSeeds := demoMode, demoSeeds;
      state, ready, grants := None, false, map[];
      loaded := [];
    }

    method MarkUnavailable()
      modifies this`ready, this`grants
      ensures !ready && grants == map[]
    {
      ready, grants := false, map[];
    }

    lemma LeaseIs()
      requires Leased()
      ensures dir.tale.intent.Idle? && state.value == EnvelopeOf(dir.tale.log)
      ensures grants == Replay(dir.tale.log)
    {
      LeaseFacts(dir.Now(), dir.tale);
    }

    lemma LeaseHealthy()
      requires Leased()
      ensures Healthy()
    {
      LeaseFile(dir.Now(), dir.tale);
    }

    lemma LeaseBaseClean()
      requires Leased()
      ensures CleanOk(state.value)
    {
      LeaseClean(dir.Now(), dir.tale);
    }

    lemma LeaseIdShort(grantId: string)
      requires Leased() && grantId in grants
      ensures 0 < |grantId| <= MAX_NAME_LENGTH
    {
      LeaseBaseClean();
      CleanRecords(state.value);
      KnownIdShort(grants, grantId);
    }

    lemma IntentAcceptable()
      requires Valid() && dir.tale.intent.Intended?
      requires AllBound(file, Apply(dir.tale.intent.op, Replay(dir.tale.log)))
      ensures Acceptable(file, dir.tale.intent.op, dir.tale.log, dir.tale.intent.event)
    {
      IntendedAcceptable(file, dir.Now(), dir.tale);
    }

    /** `_install_state`: verified once more, then copied into the cache. */
    method Install(e: Envelope) returns (ok: bool)
      requires Valid() && dir.session == Lease(id, e)
      modifies this`state, this`ready, this`grants
      ensures ok <==> AllBound(file, e.grants)
      ensures ok ==> Leased() && state == Some(e)
      ensures !ok ==> state == old(state)
    {
      LeaseVerified(dir.Now(), dir.tale);
      VerifyCleanIs(file, loads, e, dir.ledger.data);
      hide Matches, DecodeOk, Verified, IsRun, AllBound, VerifyClean;
      ok := VerifyClean(file, loads, e, dir.ledger.data);
      if ok { state, ready, grants := Some(e), true, e.grants; }
    }

    /** The first half of `_commit`: prepare the receipt, save the pending envelope. */
    method Intend(ghost op: Op, kind: TransactionKind, target: map<string, Grant>, previous: map<string, Status>,
                  event: Entry, transaction: string, f: Faults)
      returns (ok: bool, env: Envelope, at: Prepared)
      requires Leased() && Startable(op, grants)
      requires kind == KindOf(op) && target == Apply(op, grants) && previous == PreviousOf(op, grants)
      requires event.etype == TypeOf(op) && event.agent == AgentOf(op) && event.tier == None
      requires event.stamp == Some(Stamp(transaction, state.value.revision + 1))
      modifies this`state, this`ready, dir, dir.store, dir.ledger
      ensures Valid()
      ensures ok ==> dir.session == Committing(id) && dir.store.file == Some(env) && env.pending.Some?
      ensures ok ==> at == PreparedOf(env.pending.value) && env.pending.value.grants == target && state == Some(env)
      ensures if ok then dir.tale == Tale(old(dir.tale.log), Intended(op, event))
              else dir.tale == old(dir.tale) || dir.tale == Tale(old(dir.tale.log), Intended(op, event))
      ensures SmoothFaults(f) && Acceptable(file, op, old(dir.tale.log), event) ==> ok
      ensures old(dir.store.file).Some? ==> dir.store.file.Some?
    {
      hide Matches, DecodeOk, IsRun, AllBound, EventFor, OpOk, Startable, EntryOk, Fits, Replay, Receipts, Apply,
        PreviousOf, PendingEnvelope, CleanOk, EnvelopeOf, Acceptable, SmoothFaults, Smooth, SmoothSave, EndsLine, Line,
        CheckpointOf, Directory.Valid, LogBytes, RecordsOk, EventOk, StoreBytes;
      LeaseIs();
      ghost var log := dir.tale.log;
      LeaseBaseClean();
      var base := state.value;
      AcceptableMeans(file, op, log, event, base, f);
      ok, env := false, base;
      var prepared := dir.Prepare(event, f.prepare);
      if prepared.None? { at := Prepared(event, [], Checkpoint(0, TailSha256(0, []))); return; }
      at := prepared.value;
      var pending := Pending(transaction, kind, base.revision, base.revision + 1, at.checkpoint,
                             TargetSha256(target), Sha256(at.encoded), at.entry, target, previous);
      var effective := if kind == IssueKind || kind == DemoSeedKind then base.grants else target;
      env := Envelope(base.revision, effective, base.ledgerWitness, Some(pending));
      EventIs(op, event, transaction, base.revision + 1);
      IntentFacts(op, event, base, at.checkpoint);
      dir.OffsetIs();
      assert env == PendingEnvelope(base, op, event, at.checkpoint) by { EnvelopeIs(op, event, base, at.checkpoint); }
      ok := dir.SaveIntent(op, event, env, f.pending);
      if ok { state, ready := Some(env), false; }
    }

    /** The second half: append the receipt, save the final envelope, install it. */
    method Conclude(env: Envelope, at: Prepared, f: Faults) returns (ok: bool)
      requires Valid() && dir.session == Committing(id) && dir.tale.intent.Intended?
      requires dir.store.file == Some(env) && env.pending.Some? && at == PreparedOf(env.pending.value)
      requires AllBound(file, env.pending.value.grants)
      modifies this`state, this`ready, this`grants, dir, dir.store, dir.ledger
      ensures Valid()
      ensures ok ==> Leased() && dir.tale == Tale(Paid(old(dir.tale)).log, Idle)
      ensures dir.tale == old(dir.tale) || dir.tale == Paid(old(dir.tale)) || dir.tale == Tale(Paid(old(dir.tale)).log, Idle)
      ensures SmoothFaults(f) ==> ok
      ensures old(dir.store.file).Some? ==> dir.store.file.Some?
    {
      hide Matches, DecodeOk, IsRun, AllBound, Smooth, SmoothSave, EnvelopeOf;
      ok := dir.AppendReceipt(at, f.append);
      if !ok { return; }
      var final := FinalEnvelope(env);
      ok := dir.SaveFinal(final, f.final);
      if !ok { return; }
      ok := Install(final);
    }

    /** `_commit`. Returning means all of the transition happened; raising means that all
        or nothing of it will have, once recovery has run. */
    method Commit(ghost op: Op, kind: TransactionKind, target: map<string, Grant>, previous: map<string, Status>,
                  etype: EventType, agent: string, detail: string, ts: string, transaction: string, f: Faults)
      returns (ok: bool)
      requires Leased() && Startable(op, grants)
      requires kind == KindOf(op) && target == Apply(op, grants) && previous == PreviousOf(op, grants)
      requires etype == TypeOf(op) && agent == AgentOf(op)
      modifies this`state, this`ready, this`grants, dir, dir.store, dir.ledger
      ensures Valid()
      ensures var event := ReceiptEntry(op, detail, ts, transaction, Receipts(old(dir.tale.log)) + 1);
              ok ==> Leased() && dir.tale == Tale(old(dir.tale.log) + [Receipt(op, event)], Idle)
      ensures !ok ==> !ready && grants == map[]
      ensures AllOrNothing(old(dir.tale.log), op, Settled(dir.tale))
      ensures var event := ReceiptEntry(op, detail, ts, transaction, Receipts(old(dir.tale.log)) + 1);
              && (SmoothFaults(f) && Acceptable(file, op, old(dir.tale.log), event) ==> ok)
              && (ok ==> Acceptable(file, op, old(dir.tale.log), event))
      ensures old(dir.store.file).Some? ==> dir.store.file.Some?
    {
      hide Matches, DecodeOk, IsRun, AllBound, Startable, Replay, Receipts, Apply, PreviousOf, Settled, AllOrNothing,
        EnvelopeOf, Acceptable, SmoothFaults, TypeOf, AgentOf, KindOf, Directory.Valid;
      LeaseIs();
      ghost var before := dir.tale;
      var event := Entry(ts, etype, agent, detail, None, Some(Stamp(transaction, state.value.revision + 1)));
      EnvelopeRevision(before.log);
      AllOrNothingIs(before, op, event);
      AcceptableBound(file, op, before.log, event);
      ok := false;
      if !AllBound(file, target) { MarkUnavailable(); return; }
      var env, at;
      ok, env, at := Intend(op, kind, target, previous, event, transaction, f);
      if ok {
        IntentAcceptable();
        ok := Conclude(env, at, f);
      }
      if !ok { MarkUnavailable(); }
    }

    // -------------------------------------------------------------- reload

    /** `_recover`: finalize a receipt that is there, abort an issue whose receipt is not,
        write any other missing receipt and then finalize. */
    method Recover(env: Envelope, f: Faults) returns (ok: bool, out: Envelope)
      requires Valid() && dir.session == Held(id) && dir.store.file == Some(env) && DecodeOk(env)
      requires VerifyPendingBase(file, loads, env, dir.ledger.data)
      modifies dir, dir.store, dir.ledger
      ensures Valid() && Settled(dir.tale) == Settled(old(dir.tale))
      ensures ok ==> dir.session == Lease(id, out) && dir.tale == Tale(Settled(old(dir.tale)), Idle)
      ensures ok ==> AllBound(file, out.grants)
      ensures ok ==> Inspect(old(dir.ledger.data), PreparedOf(env.pending.value)) != Ambiguous
      ensures SmoothFaults(f) && Inspect(old(dir.ledger.data), PreparedOf(env.pending.value)) != Ambiguous ==> ok
      ensures old(dir.store.file).Some? ==> dir.store.file.Some?
    {
      hide Matches, DecodeOk, IsRun, AllBound, Smooth, SmoothSave, VerifyPendingBase, Inspect, Directory.Valid,
        FinalEnvelope, AbortedEnvelope, Recovering, Settled, VerifyClean;
      VerifyPendingBaseIs(file, loads, env, dir.ledger.data);
      RecoveringIs(dir.Now());
      FinalBound(file, env);
      var prepared := PreparedOf(env.pending.value);
      var found := Inspect(dir.ledger.data, prepared);
      ok, out := false, env;
      if found == Ambiguous { return; }
      if found == Absent && env.pending.value.kind == IssueKind {
        out := AbortedEnvelope(env);
        AbortedBound(file, env);
        ok := dir.Abort(out, f.final);
      } else {
        if found == Absent {
          ok := dir.RollForward(prepared, f.append);
          if !ok { return; }
        }
        out := FinalEnvelope(env);
        ok := dir.Finish(out, f.final);
      }
      SettledIdle(dir.tale);
      if ok {
        CleanlyVerified(out);
        ok := VerifyClean(file, loads, out, dir.ledger.data);
      }
    }

    /** What a reload needs of the files: no torn receipt under a pending envelope, and
        zones the housefile still grants. */
    ghost predicate Healthy()
      reads dir, dir.store, dir.ledger
    {
      match dir.store.file
      case None => true
      case Some(e) =>
        if e.pending.Some? then Inspect(dir.ledger.data, PreparedOf(e.pending.value)) != Ambiguous && AllBound(file, e.pending.value.grants)
        else AllBound(file, e.grants)
    }

    /** A fresh directory that is to be seeded. */
    ghost predicate Seeding()
      reads dir, dir.store
    {
      dir.store.file.None? && demoMode && demoSeeds != []
    }

    /** What seeding needs of the seeds and of the world. */
    ghost predicate SeedsAccepted(turn: Turn) {
      SeedsPass(file, demoSeeds, turn.instant) &&
      Acceptable(file, Seed(Seeded(demoSeeds)), [], SeedReceipt(turn, demoSeeds))
    }

    /** Well-formed active seeds that pass the checks, a good clock, and room for them. */
    predicate SeedsSound(turn: Turn) {
      && demoSeeds != [] && SeedsPass(file, demoSeeds, turn.instant) && |demoSeeds| <= MAX_GRANTS
      && (forall i :: 0 <= i < |demoSeeds| ==> RecordOk(demoSeeds[i]) && demoSeeds[i].status == Active)
      && IsTransactionId(turn.seedTransaction) && 0 < |turn.ts| <= MAX_POLICY_LENGTH
      && RoomFor(Seed(Seeded(demoSeeds)), map[])
    }

    /** Sound seeds can be provided. */
    lemma SeedsAreAccepted(turn: Turn)
      requires SeedsSound(turn)
      ensures SeedsAccepted(turn)
    {
      SeedsAccept(file, demoSeeds, turn);
    }

    /** The demo seeds, issued one by one into an empty manager. */
    method SeedTarget(instant: int) returns (target: map<string, Grant>, error: Option<IssueError>)
      ensures error.None? <==> SeedsPass(file, demoSeeds, instant)
      ensures error.Some? ==> FirstRefusal(file, demoSeeds, instant, error.value)
      ensures error.None? ==> target == Seeded(demoSeeds) && Holds(target, demoSeeds) && |target| == |demoSeeds|
    {
      hide IssueCheck, Seeded, Holds;
      var manager := new GrantManager(file);
      NoSeeds();
      for i := 0 to |demoSeeds|
        invariant manager.file == file && fresh(manager)
        invariant manager.grants == Seeded(demoSeeds[..i])
        invariant Holds(manager.grants, demoSeeds[..i]) && |manager.grants| == i
        invariant forall k :: 0 <= k < i ==> SeedCheck(file, demoSeeds, k, instant).None?
      {
        error := manager.Issue(demoSeeds[i], instant);
        assert error == SeedCheck(file, demoSeeds, i, instant);
        if error.Some? { return manager.grants, error; }
        SeedStep(file, demoSeeds, i, instant);
      }
      assert demoSeeds[..|demoSeeds|] == demoSeeds;
      target, error := manager.grants, None;
    }

    /** `_bootstrap_demo`: a fresh demo directory gets one PROVISION transaction. A seed that
        the manager refuses leaves the empty state installed. */
    method Bootstrap(turn: Turn) returns (r: Refresh)
      requires Leased() && dir.tale == Tale([], Idle)
      modifies this`state, this`ready, this`grants, dir, dir.store, dir.ledger
      ensures Valid() && Reloaded(Tale([], Idle), demoSeeds, Settled(dir.tale))
      ensures r.Fresh? ==>
                Leased() && dir.tale == Tale([Receipt(Seed(Seeded(demoSeeds)), SeedReceipt(turn, demoSeeds))], Idle)
      ensures r.SeedRefused? <==> !SeedsPass(file, demoSeeds, turn.instant)
      ensures r.SeedRefused? ==>
                Leased() && grants == map[] && dir.tale == old(dir.tale) && FirstRefusal(file, demoSeeds, turn.instant, r.error)
      ensures SmoothFaults(turn.reload) && SeedsAccepted(turn) ==> r.Fresh?
      ensures old(dir.store.file).Some? ==> dir.store.file.Some?
    {
      hide Matches, DecodeOk, IsRun, AllBound, Directory.Valid, Holds, Acceptable, SmoothFaults, IssueCheck, SeedsPass,
        FirstRefusal, Seeded;
      LeaseIs();
      var target, error := SeedTarget(turn.instant);
      if error.Some? { return SeedRefused(error.value); }
      var ok := Commit(Seed(target), DemoSeedKind, target, map[], PROVISION, "system", SEED_DETAIL,
                       turn.ts, turn.seedTransaction, turn.reload);
      SettledIdle(dir.tale);
      r := if ok then Fresh else Unready;
    }

    /** `_reload`: what is on disk wins over whatever was cached. */
    method Reload(turn: Turn) returns (r: Refresh)
      requires Valid() && dir.session == Held(id)
      modifies this, dir, dir.store, dir.ledger
      ensures Valid() && loaded == Settled(dir.tale) && Reloaded(old(dir.tale), demoSeeds, loaded)
      ensures r.Fresh? ==> Leased() && dir.tale == Tale(loaded, Idle)
      ensures r.Fresh? && old(Seeding()) ==> loaded == [Receipt(Seed(Seeded(demoSeeds)), SeedReceipt(turn, demoSeeds))]
      ensures !old(Seeding()) ==> loaded == Settled(old(dir.tale))
      ensures r.Fresh? ==> old(Healthy())
      ensures r.SeedRefused? <==>
                old(Seeding()) && turn.reload.load && !SeedsPass(file, demoSeeds, turn.instant)
      ensures r.SeedRefused? ==>
                && Leased() && grants == map[] && dir.tale == Tale([], Idle) && loaded == []
                && FirstRefusal(file, demoSeeds, turn.instant, r.error)
      ensures Served(turn) ==> r.Fresh?
      ensures old(dir.store.file).Some? ==> dir.store.file.Some?
    {
      hide Matches, DecodeOk, IsRun, AllBound, Directory.Valid, Holds, Smooth, SmoothSave, Settled, VerifyClean,
        VerifyPendingBase, Inspect, Acceptable, SeedsPass, FirstRefusal, Seeded;
      loaded := Settled(dir.tale);
      r := Unready;
      if !turn.reload.load { return; }
      if dir.store.file.None? {
        dir.FreshTale();
        if dir.ledger.HasHistory() { return; }
        dir.Load(EMPTY);
        var installed := Install(EMPTY);
        EmptyBound(file);
        SettledIdle(dir.tale);
        if demoMode && demoSeeds != [] { r := Bootstrap(turn); } else { r := Fresh; }
        SettledIdle(dir.tale);
        loaded := Settled(dir.tale);
        return;
      }
      var env := dir.store.file.value;
      dir.StoreDecodes();
      if !DecodeOk(env) { return; }
      var ok;
      if env.pending.Some? {
        dir.OwedBase();
        VerifyPendingBaseIs(file, loads, env, dir.ledger.data);
        if !VerifyPendingBase(file, loads, env, dir.ledger.data) { return; }
        ok, env := Recover(env, turn.reload);
        SettledIdle(dir.tale);
        if !ok { return; }
      } else {
        dir.NothingOwed();
        SettledIdle(dir.tale);
        VerifyCleanIs(file, loads, env, dir.ledger.data);
        if !VerifyClean(file, loads, env, dir.ledger.data) { return; }
        dir.Load(env);
      }
      ok := Install(env);
      if ok { r := Fresh; }
    }

    // -------------------------------------------------------------- one exclusive action

    /** Entering `_exclusive`: the lock, then the reload; a failure gives the lock back. */
    method Begin(turn: Turn) returns (r: Refresh)
      requires Valid() && dir.session.Free?
      modifies this, dir, dir.store, dir.ledger
      ensures Valid() && loaded == Settled(dir.tale) && Reloaded(old(dir.tale), demoSeeds, loaded)
      ensures r.Fresh? ==> Leased() && dir.tale == Tale(loaded, Idle)
      ensures !r.Fresh? ==> dir.session.Free?
      ensures r.Fresh? && old(Seeding()) ==> loaded == [Receipt(Seed(Seeded(demoSeeds)), SeedReceipt(turn, demoSeeds))]
      ensures !old(Seeding()) ==> loaded == Settled(old(dir.tale))
      ensures r.Fresh? ==> old(Healthy())
      ensures r.SeedRefused? <==>
                old(Seeding()) && turn.reload.load && !SeedsPass(file, demoSeeds, turn.instant)
      ensures r.SeedRefused? ==>
                && ready && grants == map[] && dir.tale == Tale([], Idle) && loaded == []
                && FirstRefusal(file, demoSeeds, turn.instant, r.error)
      ensures r.Unready? ==> !ready && grants == map[]
      ensures Served(turn) ==> r.Fresh?
      ensures old(dir.store.file).Some? ==> dir.store.file.Some?
    {
      hide Matches, DecodeOk, IsRun, AllBound, Directory.Valid, Holds, Smooth, SmoothSave, Settled, Reloaded, Inspect,
        Acceptable, SeedsPass, FirstRefusal, Seeded;
      dir.Enter(id);
      r := Reload(turn);
      if r.Unready? { MarkUnavailable(); }
      if !r.Fresh? { dir.Leave(); }
    }

    /** When a reload must get through: no faults, a healthy directory, and acceptable seeds
        if they are to be provided. */
    twostate predicate Served(turn: Turn)
      reads dir, dir.store, dir.ledger
    {
      SmoothFaults(turn.reload) && old(Healthy()) && (old(Seeding()) ==> SeedsAccepted(turn))
    }

    /** `ensure_ready`. */
    method EnsureReady(turn: Turn) returns (r: Refresh)
      requires Valid() && dir.session.Free?
      modifies this, dir, dir.store, dir.ledger
      ensures Valid() && dir.session.Free? && loaded == Settled(dir.tale) && Reloaded(old(dir.tale), demoSeeds, loaded)
      ensures r.Fresh? ==> ready && grants == Replay(loaded) && dir.tale == Tale(loaded, Idle)
      ensures r.Fresh? && old(Seeding()) ==> loaded == [Receipt(Seed(Seeded(demoSeeds)), SeedReceipt(turn, demoSeeds))]
      ensures !old(Seeding()) ==> loaded == Settled(old(dir.tale))
      ensures r.Fresh? ==> old(Healthy())
      ensures r.SeedRefused? <==>
                old(Seeding()) && turn.reload.load && !SeedsPass(file, demoSeeds, turn.instant)
      ensures r.SeedRefused? ==>
                && ready && grants == map[] && dir.tale == Tale([], Idle) && loaded == []
                && FirstRefusal(file, demoSeeds, turn.instant, r.error)
      ensures r.Unready? ==> !ready && grants == map[]
      ensures r.Fresh? ==> Healthy() && !Seeding()
      ensures Served(turn) ==> r.Fresh?
    {
      hide Matches, DecodeOk, IsRun, AllBound, Directory.Valid, Holds, Smooth, SmoothSave, Settled, Reloaded, Inspect,
        Acceptable, SeedsPass, FirstRefusal, Seeded, Replay;
      r := Begin(turn);
      if r.Fresh? {
        LeaseIs();
        LeaseHealthy();
        dir.Leave();
        if dir.store.file.None? { dir.FreshTale(); }
      }
    }

    /** `issue`. */
    method Issue(g: Grant, turn: Turn) returns (r: IssueOutcome)
      requires Valid() && dir.session.Free?
      modifies this, dir, dir.store, dir.ledger
      ensures Valid() && dir.session.Free? && Reloaded(old(dir.tale), demoSeeds, loaded)
      ensures r.Issued? ==>
                && !CredentialClash(Replay(loaded), g.credential)
                && IssueCheck(file, Replay(loaded), g, turn.instant).None?
                && dir.tale == Tale(loaded + [Receipt(Op.Issue(g), IssueReceipt(g, turn, loaded))], Idle)
                && ready && grants == Replay(loaded)[g.id := g]
      ensures r.SeedRejected? ==> old(Seeding()) && dir.tale == Tale([], Idle) && loaded == []
      ensures !old(Seeding()) ==> loaded == Settled(old(dir.tale))
      ensures r.Conflict? ==> CredentialClash(Replay(loaded), g.credential) && dir.tale == Tale(loaded, Idle)
      ensures r.Rejected? ==>
                && !CredentialClash(Replay(loaded), g.credential)
                && IssueCheck(file, Replay(loaded), g, turn.instant) == Some(r.error) && dir.tale == Tale(loaded, Idle)
      ensures r.Unavailable? ==> !ready && grants == map[] && AllOrNothing(loaded, Op.Issue(g), Settled(dir.tale))
      ensures Served(turn) &&
              (CredentialClash(Replay(loaded), g.credential) || IssueCheck(file, Replay(loaded), g, turn.instant).Some? ||
               (SmoothFaults(turn.commit) && Acceptable(file, Op.Issue(g), loaded, IssueReceipt(g, turn, loaded)))) ==>
                !r.Unavailable? && !r.SeedRejected?
      ensures Served(turn) && SmoothFaults(turn.commit) && TurnOk(turn, loaded) &&
              !CredentialClash(Replay(loaded), g.credential) && IssueCheck(file, Replay(loaded), g, turn.instant).None? &&
              RecordOk(g) && g.status == Active && |Replay(loaded)| < MAX_GRANTS && RoomFor(Op.Issue(g), Replay(loaded)) ==>
                r.Issued?
    {
      hide Matches, DecodeOk, IsRun, AllBound, Directory.Valid, Holds, Smooth, SmoothSave, Settled, Reloaded, Receipted,
        Acceptable, SmoothFaults, IssueCheck, GrantAuthority.Healthy, Replay, Receipts, CredentialClash,
        Startable, SeedsPass, FirstRefusal, Seeded, AllOrNothing, EnvelopeOf, OpOk, Apply, CleanOk, WorldOk, RoomFor, RecordOk;
      var begun := Begin(turn);
      if begun.SeedRefused? { return SeedRejected(begun.error); }
      NothingDone(loaded, Op.Issue(g));
      if begun.Unready? { return Unavailable; }
      LeaseIs();
      if exists id :: id in grants && grants[id].credential == g.credential {
        assert CredentialClash(grants, g.credential) by { ClashIs(grants, g.credential); }
        dir.Leave();
        return Conflict;
      }
      ClashIs(grants, g.credential);
      var manager := new GrantManager(file);
      manager.grants := grants;
      var error := manager.Issue(g, turn.instant);
      if error.Some? {
        dir.Leave();
        return Rejected(error.value);
      }
      CheckedStartable(file, grants, g, turn.instant);
      LeaseBaseClean();
      if RecordOk(g) && g.status == Active && |grants| < MAX_GRANTS && TurnOk(turn, loaded) && RoomFor(Op.Issue(g), grants) {
        IssueAccepts(file, g, loaded, turn);
      }
      var ok := Commit(Op.Issue(g), IssueKind, manager.grants, map[], GRANT, g.id, "grant issued",
                       turn.ts, turn.transaction, turn.commit);
      ReplayReceipt(loaded, Op.Issue(g), IssueReceipt(g, turn, loaded));
      if ok { LeaseIs(); }
      dir.Leave();
      r := if ok then Issued else Unavailable;
    }

    /** `revoke`: an active or suspended grant is revoked, an ended one is left alone. */
    method Revoke(grantId: string, turn: Turn) returns (r: RevokeOutcome)
      requires Valid() && dir.session.Free?
      modifies this, dir, dir.store, dir.ledger
      ensures Valid() && dir.session.Free? && Reloaded(old(dir.tale), demoSeeds, loaded)
      ensures r.RevokeSeedRejected? ==> old(Seeding()) && dir.tale == Tale([], Idle) && loaded == []
      ensures !old(Seeding()) ==> loaded == Settled(old(dir.tale))
      ensures r.NotFound? ==> grantId !in Replay(loaded) && dir.tale == Tale(loaded, Idle)
      ensures r.AlreadyEnded? ==>
                && grantId in Replay(loaded) && Ended(Replay(loaded)[grantId].status)
                && dir.tale == Tale(loaded, Idle)
      ensures r.Revoked? ==>
                && grantId in Replay(loaded) && !Ended(Replay(loaded)[grantId].status)
                && dir.tale == Tale(loaded + [Receipt(Op.Revoke(grantId), RevokeReceipt(grantId, turn, loaded))], Idle)
                && ready && grants == Apply(Op.Revoke(grantId), Replay(loaded))
      ensures r.RevokeUnavailable? ==>
                !ready && grants == map[] && AllOrNothing(loaded, Op.Revoke(grantId), Settled(dir.tale))
      ensures Served(turn) &&
              (grantId !in Replay(loaded) || Ended(Replay(loaded)[grantId].status) ||
               (SmoothFaults(turn.commit) &&
                Acceptable(file, Op.Revoke(grantId), loaded, RevokeReceipt(grantId, turn, loaded)))) ==>
                !r.RevokeUnavailable? && !r.RevokeSeedRejected?
      ensures Served(turn) && SmoothFaults(turn.commit) && TurnOk(turn, loaded) &&
              grantId in Replay(loaded) &&
              (Replay(loaded)[grantId].status == Active || Replay(loaded)[grantId].status == Suspended) &&
              RoomFor(Op.Revoke(grantId), Replay(loaded)) ==>
                r.Revoked?
    {
      hide Matches, DecodeOk, IsRun, AllBound, Directory.Valid, Holds, Smooth, SmoothSave, Settled, Reloaded, Inspect,
        Acceptable, SmoothFaults, GrantAuthority.Healthy, Replay, Receipts, Apply, PreviousOf,
        Startable, SeedsPass, FirstRefusal, Seeded, AllOrNothing, EnvelopeOf, CredentialClash, OpOk, CleanOk, WorldOk, RoomFor;
      var begun := Begin(turn);
      if begun.SeedRefused? { return RevokeSeedRejected(begun.error); }
      NothingDone(loaded, Op.Revoke(grantId));
      if begun.Unready? { return RevokeUnavailable; }
      LeaseIs();
      if grantId !in grants {
        dir.Leave();
        return NotFound;
      }
      var current := grants[grantId];
      if current.status == Status.Revoked || current.status == Status.Expired {
        dir.Leave();
        return AlreadyEnded;
      }
      var target := grants[grantId := current.(status := Status.Revoked)];
      RevokeIs(grants, grantId);
      LeaseBaseClean();
      if TurnOk(turn, loaded) && RoomFor(Op.Revoke(grantId), Replay(loaded)) {
        RevokeAccepts(file, grantId, loaded, turn);
      }
      var ok := Commit(Op.Revoke(grantId), RevokeKind, target, map[grantId := current.status], REVOKE, grantId,
                       "grant revoked", turn.ts, turn.transaction, turn.commit);
      ReplayReceipt(loaded, Op.Revoke(grantId), RevokeReceipt(grantId, turn, loaded));
      if ok { LeaseIs(); }
      dir.Leave();
      r := if ok then RevokeOutcome.Revoked else RevokeUnavailable;
    }

    /** The copy that `suspend_all` commits, each affected grant suspended in turn. */
    method SuspendTarget() returns (target: map<string, Grant>, affected: map<string, Status>)
      ensures target == Apply(Op.SuspendAll, grants) == SuspendActive(grants) && affected == PreviousOf(Op.SuspendAll, grants)
      ensures NoneActive(target) && |affected| == |ActiveIds(grants)|
    {
      affected := map i | i in grants && grants[i].status == Active :: grants[i].status;
      target := grants;
      var todo := affected.Keys;
      while todo != {}
        invariant todo <= affected.Keys && target.Keys == grants.Keys
        invariant forall i :: i in grants ==>
                    target[i] == if i in affected && i !in todo then grants[i].(status := Suspended) else grants[i]
      {
        var i :| i in todo;
        target := target[i := target[i].(status := Suspended)];
        todo := todo - {i};
      }
      AffectedAre(grants, affected, target);
    }

    /** `suspend_all`: one ESTOP receipt, and no grant left active. */
    method SuspendAll(turn: Turn) returns (r: SuspendOutcome)
      requires Valid() && dir.session.Free?
      modifies this, dir, dir.store, dir.ledger
      ensures Valid() && dir.session.Free? && Reloaded(old(dir.tale), demoSeeds, loaded)
      ensures r.SuspendedAll? ==>
                && r.count == |ActiveIds(Replay(loaded))|
                && dir.tale == Tale(loaded + [Receipt(Op.SuspendAll, StopReceipt(turn, loaded))], Idle)
                && ready && grants == SuspendActive(Replay(loaded)) && NoneActive(grants)
                && Acceptable(file, Op.SuspendAll, loaded, StopReceipt(turn, loaded))
      ensures r.SuspendSeedRejected? ==> dir.tale == Tale([], Idle) && loaded == []
      ensures r.SuspendUnavailable? ==>
                !ready && grants == map[] && AllOrNothing(loaded, Op.SuspendAll, Settled(dir.tale))
      ensures Served(turn) && SmoothFaults(turn.commit) &&
              Acceptable(file, Op.SuspendAll, loaded, StopReceipt(turn, loaded)) ==>
                r.SuspendedAll?
      ensures Served(turn) && SmoothFaults(turn.commit) && RoomToStop(Replay(loaded)) && TurnOk(turn, loaded) ==>
                r.SuspendedAll?
    {
      hide Matches, DecodeOk, IsRun, AllBound, Directory.Valid, Holds, Smooth, SmoothSave, Settled, Reloaded, Inspect,
        Acceptable, SmoothFaults, GrantAuthority.Healthy, SuspendActive, NoneActive, Apply, PreviousOf, ActiveIds,
        Replay, Receipts, RoomToStop, TurnOk, SeedsPass, FirstRefusal, Seeded;
      var begun := Begin(turn);
      if begun.SeedRefused? { return SuspendSeedRejected(begun.error); }
      if begun.Unready? { return SuspendUnavailable; }
      LeaseIs();
      LeaseBaseClean();
      StopAcceptable(file, loaded, turn);
      assert Startable(Op.SuspendAll, grants);
      var target, affected := SuspendTarget();
      r := SuspendedAll(|affected|);
      var ok := Commit(Op.SuspendAll, SuspendAllKind, target, affected, ESTOP, "system", STOP_DETAIL,
                       turn.ts, turn.transaction, turn.commit);
      ReplayReceipt(loaded, Op.SuspendAll, StopReceipt(turn, loaded));
      if ok { LeaseIs(); }
      dir.Leave();
      if !ok { r := SuspendUnavailable; }
    }

    /** Nothing about the clock, the action or the room stands in the way of an expiry. */
    predicate CanRecord(grantId: string, action: string, turn: Turn, grants: map<string, Grant>, log: seq<Item>) {
      TurnOk(turn, log) && RoomFor(Op.Expire(grantId), grants) && |action| <= 100 && Printable(action)
    }

    /** `_decision_locked`: a boundary that has passed is recorded before the denial. */
    method DecideLocked(grantId: string, action: string, turn: Turn) returns (ok: bool, decision: Decision)
      requires Leased() && grantId in grants && dir.tale == Tale(loaded, Idle)
      modifies this`state, this`ready, this`grants, dir, dir.store, dir.ledger
      ensures Valid() && decision == Decide(old(grants)[grantId], turn.instant)
      ensures ok ==> Leased() && dir.tale == Tale(loaded + ExpiryItems(old(grants)[grantId], grantId, action, turn, loaded), Idle)
      ensures !ok ==> !ready && grants == map[] && AllOrNothing(loaded, Op.Expire(grantId), Settled(dir.tale))
      ensures SmoothFaults(turn.commit) && Acceptable(file, Op.Expire(grantId), loaded, ExpiryReceipt(grantId, action, turn, loaded)) ==> ok
      ensures !Due(old(grants)[grantId], turn.instant) ==> ok
      ensures SmoothFaults(turn.commit) && CanRecord(grantId, action, turn, old(grants), loaded) ==> ok
    {
      hide Matches, DecodeOk, IsRun, AllBound, Directory.Valid, Holds, Smooth, SmoothSave, Settled, Reloaded, Inspect,
        Acceptable, SmoothFaults, GrantAuthority.Healthy, CleanOk, WorldOk, RoomFor, Printable;
      LeaseIs();
      LeaseBaseClean();
      decision, ok := Decide(grants[grantId], turn.instant), true;
      if decision.next == Some(Status.Expired) {
        var g := grants[grantId];
        var target := grants[grantId := g.(status := Status.Expired)];
        if CanRecord(grantId, action, turn, grants, loaded) { ExpiryAccepts(file, grantId, action, loaded, turn); }
        ok := Commit(Op.Expire(grantId), ExpireKind, target, map[grantId := g.status], DENY, grantId,
                     action + " refused: grant_expired", turn.ts, turn.transaction, turn.commit);
      }
    }

    /** `authorized`, up to its yield: authentication and the decision, with the lock kept. */
    method Authorize(grantId: string, presented: Option<string>, action: string, turn: Turn) returns (r: AuthOutcome)
      requires Valid() && dir.session.Free?
      modifies this, dir, dir.store, dir.ledger
      ensures Valid() && Reloaded(old(dir.tale), demoSeeds, loaded)
      ensures r.Authorized? ==>
                && grantId in Replay(loaded) && presented == Some(Replay(loaded)[grantId].credential)
                && r.decision == Decide(Replay(loaded)[grantId], turn.instant)
                && Leased()
                && dir.tale == Tale(loaded + ExpiryItems(Replay(loaded)[grantId], grantId, action, turn, loaded), Idle)
      ensures r.AuthFailed? ==>
                && (grantId !in Replay(loaded) || presented != Some(Replay(loaded)[grantId].credential))
                && dir.tale == Tale(loaded, Idle)
      ensures !r.Authorized? ==> dir.session.Free?
      ensures r.AuthSeedRejected? ==> dir.tale == Tale([], Idle) && loaded == []
      ensures r.AuthUnavailable? ==>
                !ready && grants == map[] && AllOrNothing(loaded, Op.Expire(grantId), Settled(dir.tale))
      ensures Served(turn) && SmoothFaults(turn.commit) &&
              Acceptable(file, Op.Expire(grantId), loaded, ExpiryReceipt(grantId, action, turn, loaded)) ==>
                r.Authorized? || r.AuthFailed?
      ensures Served(turn) && (grantId in Replay(loaded) ==> !Due(Replay(loaded)[grantId], turn.instant)) ==>
                r.Authorized? || r.AuthFailed?
      ensures Served(turn) && !(grantId in Replay(loaded) && presented == Some(Replay(loaded)[grantId].credential)) ==>
                r.AuthFailed?
      ensures Served(turn) && SmoothFaults(turn.commit) && CanRecord(grantId, action, turn, Replay(loaded), loaded) ==>
                r.Authorized? || r.AuthFailed?
    {
      hide Matches, DecodeOk, IsRun, AllBound, Directory.Valid, Holds, Smooth, SmoothSave, Settled, Reloaded, Inspect,
        Acceptable, SmoothFaults, GrantAuthority.Healthy;
      var begun := Begin(turn);
      if begun.SeedRefused? { return AuthSeedRejected(begun.error); }
      if begun.Unready? { return AuthUnavailable; }
      LeaseIs();
      if grantId !in grants || presented != Some(grants[grantId].credential) {
        dir.Leave();
        return AuthFailed;
      }
      var ok, decision := DecideLocked(grantId, action, turn);
      if !ok {
        dir.Leave();
        return AuthUnavailable;
      }
      r := Authorized(decision);
    }

    /** `_expire_due_locked`: one committed expiry for each active grant that is due, in the
        order of their ids. `done` lists the ids expired so far, and `reached` is the log
        they led to. */
    method ExpireDue(turn: Turn, later: nat -> Turn)
      returns (ok: bool, ghost done: seq<string>, ghost reached: seq<Item>)
      requires Leased() && dir.tale == Tale(loaded, Idle)
      modifies this`state, this`ready, this`grants, dir, dir.store, dir.ledger
      ensures Valid() && Expiries(loaded, done, turn.ts, later, reached)
      ensures done <= DueList(Replay(loaded), turn.instant)
      ensures ok <==> done == DueList(Replay(loaded), turn.instant)
      ensures ok ==> Leased() && dir.tale == Tale(reached, Idle) && grants == ExpireAllDue(Replay(loaded), turn.instant)
      ensures !ok ==>
                var stuck := DueList(Replay(loaded), turn.instant)[|done|];
                && !ready && grants == map[] && AllOrNothing(reached, Op.Expire(stuck), Settled(dir.tale))
                && !(SmoothFaults(later(|done|).commit) &&
                     Acceptable(file, Op.Expire(stuck), reached, ObservedReceipt(stuck, turn.ts, later(|done|), reached)))
                && !(SmoothFaults(later(|done|).commit) && WorldOk(turn.ts, later(|done|).transaction, reached) &&
                     RoomToEnd(Replay(reached)))
    {
      hide Matches, DecodeOk, IsRun, AllBound, Directory.Valid, Holds, Smooth, SmoothSave, Settled, Reloaded, Inspect,
        Acceptable, SmoothFaults, GrantAuthority.Healthy, Replay, Receipts, Decide, Expiries, AllOrNothing, DueOf, Due,
        PartlyExpired, Sorted, Lists, InOrder, ExpireAllDue, EnvelopeOf, OpOk, Apply, PreviousOf, Startable,
        CleanOk, WorldOk, RoomToEnd;
      LeaseIs();
      ghost var base := grants;
      done, reached, ok := [], loaded, true;
      NoExpiries(loaded, turn.ts, later);
      var ids, k := Sorted(grants.Keys), 0;
      SortedLists(base);
      ListStart(ids, base, turn.instant);
      for n := 0 to |ids|
        invariant ok && base == Replay(loaded) && Lists(ids, base) && k == |done|
        invariant forall i :: 0 <= i < |ids| ==> ids[i] in base
        invariant Leased() && dir.tale == Tale(reached, Idle) && Expiries(loaded, done, turn.ts, later, reached)
        invariant done == DueOf(ids[..n], base, turn.instant) && PartlyExpired(ids, base, turn.instant, n, grants)
      {
        LeaseIs();
        var i := ids[n];
        DueOfNext(ids, n, base, turn.instant);
        PartlyExpiredStep(ids, base, turn.instant, n, grants);
        DueActive(base[i], turn.instant);
        if Due(grants[i], turn.instant) {
          var g, next := grants[i], later(k);
          var target := grants[i := g.(status := Status.Expired)];
          ExpireIs(grants, i);
          LeaseBaseClean();
          LastingAccepts(file, i, turn.ts, reached, next);
          ok := Commit(Op.Expire(i), ExpireKind, target, map[i := g.status], DENY, i, OBSERVED_DETAIL,
                       turn.ts, next.transaction, next.commit);
          if !ok { return; }
          ReplayReceipt(reached, Op.Expire(i), ObservedReceipt(i, turn.ts, next, reached));
          ExpiriesStep(loaded, done, turn.ts, later, reached, i);
          reached := reached + [Receipt(Op.Expire(i), ObservedReceipt(i, turn.ts, next, reached))];
          done, k := done + [i], k + 1;
          LeaseIs();
        }
      }
      assert ids[..|ids|] == ids;
      PartlyExpiredEnd(ids, base, turn.instant, grants);
    }

    /** `snapshot`: the effective grants, with every due expiry recorded first. */
    method Snapshot(turn: Turn, later: nat -> Turn)
      returns (r: SnapshotOutcome, ghost done: seq<string>, ghost reached: seq<Item>, ghost stuck: string)
      requires Valid() && dir.session.Free?
      modifies this, dir, dir.store, dir.ledger
      ensures Valid() && dir.session.Free? && Reloaded(old(dir.tale), demoSeeds, loaded)
      ensures Expiries(loaded, done, turn.ts, later, reached) && done <= DueList(Replay(loaded), turn.instant)
      ensures r.Shown? ==>
                && r.grants == ExpireAllDue(Replay(loaded), turn.instant)
                && dir.tale == Tale(reached, Idle) && done == DueList(Replay(loaded), turn.instant)
      ensures r.SnapshotSeedRejected? ==> dir.tale == Tale([], Idle) && loaded == []
      ensures !r.Shown? ==> AllOrNothing(reached, Op.Expire(stuck), Settled(dir.tale))
      ensures r.SnapshotUnavailable? ==> !ready && grants == map[]
      ensures Served(turn) && ExpiresFreely(file, loaded, DueList(Replay(loaded), turn.instant), turn.ts, later) ==>
                r.Shown?
      ensures Served(turn) && RoomToEnd(Replay(loaded)) &&
              ExpiryWorld(loaded, |DueIds(Replay(loaded), turn.instant)|, turn.ts, later) ==>
                r.Shown?
    {
      hide Matches, DecodeOk, IsRun, AllBound, Directory.Valid, Holds, Smooth, SmoothSave, Settled, Reloaded, Inspect,
        Acceptable, SmoothFaults, GrantAuthority.Healthy, Replay, Receipts, Decide, Expiries, DueOf, DueList, SeedsPass,
        FirstRefusal, Seeded, RecordsOk, CleanOk, WorldOk, RoomToEnd, EnvelopeOf, ExpiryWorld, DueIds;
      var begun := Begin(turn);
      done, reached, stuck := [], loaded, "";
      NoExpiries(loaded, turn.ts, later);
      if begun.SeedRefused? { r := SnapshotSeedRejected(begun.error); return; }
      if begun.Unready? { r := SnapshotUnavailable; return; }
      LeaseIs();
      LeaseBaseClean();
      CleanRecords(state.value);
      var ok;
      ok, done, reached := ExpireDue(turn, later);
      ghost var due := DueList(Replay(loaded), turn.instant);
      DueCount(Replay(loaded), turn.instant);
      if !ok {
        if ExpiryWorld(loaded, |due|, turn.ts, later) && RoomToEnd(Replay(loaded)) {
          ExpiryLasts(loaded, turn.instant, done, turn.ts, later, reached);
        }
        assert done == due[..|done|];
        stuck := due[|done|];
      }
      r := if ok then Shown(grants) else SnapshotUnavailable;
      dir.Leave();
    }

    lemma CleanlyVerified(e: Envelope)
      requires Valid() && dir.session == Lease(id, e)
      ensures VerifyClean(file, loads, e, dir.ledger.data) <==> AllBound(file, e.grants)
    {
      LeaseVerified(dir.Now(), dir.tale);
      VerifyCleanIs(file, loads, e, dir.ledger.data);
    }
  }

  lemma NoSeeds()
    ensures Seeded([]) == map[] && Holds(map[], [])
  {
  }

  lemma SeedStep(file: Housefile, seeds: seq<Grant>, i: nat, now: int)
    requires i < |seeds| && SeedCheck(file, seeds, i, now).None? && Holds(Seeded(seeds[..i]), seeds[..i])
    ensures seeds[i].id !in Seeded(seeds[..i])
    ensures Seeded(seeds[..i + 1]) == Seeded(seeds[..i])[seeds[i].id := seeds[i]]
    ensures Holds(Seeded(seeds[..i + 1]), seeds[..i + 1])
  {
    CheckedStartable(file, Seeded(seeds[..i]), seeds[i], now);
    hide IssueCheck;
    assert seeds[..i + 1][..i] == seeds[..i];
    var more := seeds[..i + 1];
    assert forall k :: 0 <= k < i ==> more[k] == seeds[..i][k];
    assert more[i] == seeds[i];
  }

  lemma CheckedStartable(file: Housefile, grants: map<string, Grant>, g: Grant, now: int)
    requires IssueCheck(file, grants, g, now).None?
    ensures Startable(Op.Issue(g), grants) && grants[g.id := g] == Apply(Op.Issue(g), grants)
  {
  }

  lemma PrintableJoin(a: string, b: string)
    requires Printable(a) && Printable(b)
    ensures Printable(a + b)
  {
  }

  lemma StopDetailOk()
    ensures |STOP_DETAIL| <= 60 && Printable(STOP_DETAIL)
  {
    PrintableJoin("simulated interlock", " tripped; active");
    PrintableJoin("simulated interlock" + " tripped; active", " grants suspended");
  }

  lemma ReceiptOk(op: Op, detail: string, ts: string, transaction: string, revision: nat)
    requires IsTransactionId(transaction) && 0 < |ts| <= MAX_POLICY_LENGTH && 0 < revision <= MAX_REVISION
    requires BoundedText(AgentOf(op), MAX_NAME_LENGTH) && |detail| <= MAX_POLICY_LENGTH && Printable(detail)
    ensures var e := ReceiptEntry(op, detail, ts, transaction, revision);
            EventFor(op, e, revision) && EventOk(e, transaction, revision)
  {
    hide Line, Printable, AgentOf;
    EntryLength(ReceiptEntry(op, detail, ts, transaction, revision));
  }

  lemma StopEventOk(turn: Turn, revision: nat)
    requires IsTransactionId(turn.transaction) && 0 < |turn.ts| <= MAX_POLICY_LENGTH && 0 < revision <= MAX_REVISION
    ensures var e := ReceiptEntry(SuspendAll, STOP_DETAIL, turn.ts, turn.transaction, revision);
            EventFor(SuspendAll, e, revision) && EventOk(e, turn.transaction, revision)
  {
    StopDetailOk();
    hide IsTransactionId, STOP_DETAIL, EventFor, EventOk;
    assert BoundedText("system", MAX_NAME_LENGTH);
    ReceiptOk(SuspendAll, STOP_DETAIL, turn.ts, turn.transaction, revision);
  }

  /** With room, a good clock and short texts, every allowed transition is acceptable. */
  lemma Accepts(file: Housefile, op: Op, log: seq<Item>, detail: string, ts: string, transaction: string)
    requires CleanOk(EnvelopeOf(log)) && OpOk(op, Replay(log), Receipts(log)) && WorldOk(ts, transaction, log)
    requires AllBound(file, Apply(op, Replay(log))) && RecordsOk(Apply(op, Replay(log))) && RoomFor(op, Replay(log))
    requires BoundedText(AgentOf(op), MAX_NAME_LENGTH) && |detail| <= MAX_POLICY_LENGTH && Printable(detail)
    ensures Acceptable(file, op, log, ReceiptEntry(op, detail, ts, transaction, Receipts(log) + 1))
  {
    hide *;
    var e := ReceiptEntry(op, detail, ts, transaction, Receipts(log) + 1);
    WorldMeans(ts, transaction, log);
    ReceiptOk(op, detail, ts, transaction, Receipts(log) + 1);
    ReceiptFields(op, detail, ts, transaction, Receipts(log) + 1);
    AcceptsEvent(file, op, log, e);
  }

  lemma AcceptsEvent(file: Housefile, op: Op, log: seq<Item>, event: Entry)
    requires CleanOk(EnvelopeOf(log)) && OpOk(op, Replay(log), Receipts(log))
    requires Receipts(log) < MAX_REVISION && |LogBytes(log)| <= MAX_REVISION
    requires AllBound(file, Apply(op, Replay(log))) && RecordsOk(Apply(op, Replay(log))) && RoomFor(op, Replay(log))
    requires event.stamp.Some? && EventOk(event, event.stamp.value.transaction, Receipts(log) + 1)
    requires EventFor(op, event, Receipts(log) + 1)
    ensures Acceptable(file, op, log, event)
  {
    hide *;
    EnvelopeRevision(log);
    CheckpointOffset(LogBytes(log));
    EventOkIs(op, event, Receipts(log) + 1);
    AcceptableIs(file, op, log, event);
    TransitionDecodes(EnvelopeOf(log), op, event, CheckpointOf(LogBytes(log)));
    DecodedFits(PendingEnvelope(EnvelopeOf(log), op, event, CheckpointOf(LogBytes(log))));
  }

  lemma WorldMeans(ts: string, transaction: string, log: seq<Item>)
    requires WorldOk(ts, transaction, log)
    ensures IsTransactionId(transaction) && 0 < |ts| <= MAX_POLICY_LENGTH
    ensures Receipts(log) < 0x7FFF_FFFF_FFFF_FFFF == MAX_REVISION && |LogBytes(log)| <= MAX_REVISION
    ensures 0 < Receipts(log) + 1 <= MAX_REVISION
  {
    hide IsTransactionId, Receipts, LogBytes;
  }

  lemma ReceiptFields(op: Op, detail: string, ts: string, transaction: string, revision: nat)
    ensures var e := ReceiptEntry(op, detail, ts, transaction, revision);
            e.ts == ts && e.detail == detail && e.agent == AgentOf(op) && e.stamp == Some(Stamp(transaction, revision))
  {
    hide AgentOf;
  }

  lemma AcceptableIs(file: Housefile, op: Op, log: seq<Item>, event: Entry)
    requires OpOk(op, Replay(log), Receipts(log)) && AllBound(file, Apply(op, Replay(log)))
    requires RecordsOk(Apply(op, Replay(log))) && Receipts(log) < MAX_REVISION && |LogBytes(log)| <= MAX_REVISION
    requires event.stamp.Some? && EventOk(event, event.stamp.value.transaction, Receipts(log) + 1)
    requires EventFor(op, event, Receipts(log) + 1)
    ensures StoreBytes(PendingEnvelope(EnvelopeOf(log), op, event, CheckpointOf(LogBytes(log)))) <= MAX_STORE_BYTES ==>
              Acceptable(file, op, log, event)
  {
    hide OpOk, AllBound, RecordsOk, EventOk, EventFor, StoreBytes, Replay, Receipts, LogBytes, PendingEnvelope, EnvelopeOf;
  }

  lemma GrantIdText(id: string)
    requires IsGrantId(id)
    ensures BoundedText(id, MAX_NAME_LENGTH)
  {
    forall i | 0 <= i < |id| ensures ' ' <= id[i] <= 'z' {
      if i >= 2 { assert id[i] == id[2..][i - 2]; } else { assert id[i] == id[..2][i]; }
    }
  }

  lemma EndedBound(file: Housefile, op: Op, grants: map<string, Grant>)
    requires AllBound(file, grants) && (op.Revoke? || op.Expire?)
    ensures AllBound(file, Apply(op, grants))
  {
    hide Grantable;
    forall id | id in grants ensures Bound(file, Apply(op, grants)[id]) { assert Bound(file, grants[id]); }
  }

  lemma EndedOk(op: Op, grants: map<string, Grant>)
    requires RecordsOk(grants) && (op.Revoke? || op.Expire?) && op.id in grants
    ensures RecordsOk(Apply(op, grants)) && BoundedText(AgentOf(op), MAX_NAME_LENGTH)
  {
    assert RecordOk(grants[op.id]);
    GrantIdText(op.id);
    hide RecordsOk, RecordOk, BoundedText;
    assert Apply(op, grants).Keys == grants.Keys;
    StatusesOk(grants, Apply(op, grants));
  }

  /** So is every revocation or expiry that may be started. */
  lemma EndAccepts(file: Housefile, op: Op, log: seq<Item>, detail: string, ts: string, transaction: string)
    requires CleanOk(EnvelopeOf(log)) && AllBound(file, Replay(log)) && (op.Revoke? || op.Expire?)
    requires OpOk(op, Replay(log), Receipts(log)) && WorldOk(ts, transaction, log) && RoomFor(op, Replay(log))
    requires |detail| <= MAX_POLICY_LENGTH && Printable(detail)
    ensures Acceptable(file, op, log, ReceiptEntry(op, detail, ts, transaction, Receipts(log) + 1))
  {
    EnvelopeRevision(log);
    CleanRecords(EnvelopeOf(log));
    EndableKnown(op, Replay(log), Receipts(log));
    hide *;
    EndedBound(file, op, Replay(log));
    EndedOk(op, Replay(log));
    Accepts(file, op, log, detail, ts, transaction);
  }

  lemma EndableKnown(op: Op, grants: map<string, Grant>, revision: nat)
    requires OpOk(op, grants, revision) && (op.Revoke? || op.Expire?)
    ensures op.id in grants
  {
  }

  /** A live grant can be revoked. */
  lemma RevokeAccepts(file: Housefile, id: string, log: seq<Item>, turn: Turn)
    requires CleanOk(EnvelopeOf(log)) && AllBound(file, Replay(log))
    requires id in Replay(log) && (Replay(log)[id].status == Active || Replay(log)[id].status == Suspended)
    requires TurnOk(turn, log) && RoomFor(Op.Revoke(id), Replay(log))
    ensures Acceptable(file, Op.Revoke(id), log, RevokeReceipt(id, turn, log))
  {
    hide CleanOk, AllBound, WorldOk, RoomFor, Replay, Receipts, EnvelopeOf, Acceptable;
    EndAccepts(file, Op.Revoke(id), log, "grant revoked", turn.ts, turn.transaction);
  }

  lemma ExpiryDetailOk(action: string)
    requires |action| <= 100 && Printable(action)
    ensures |action + " refused: grant_expired"| <= MAX_POLICY_LENGTH && Printable(action + " refused: grant_expired")
  {
    PrintableJoin(action, " refused: grant_expired");
  }

  lemma ExpiryReceiptIs(id: string, action: string, turn: Turn, log: seq<Item>)
    ensures ExpiryReceipt(id, action, turn, log) ==
            ReceiptEntry(Op.Expire(id), action + " refused: grant_expired", turn.ts, turn.transaction, Receipts(log) + 1)
  {
  }

  /** A boundary that has passed can be recorded. */
  lemma ExpiryAccepts(file: Housefile, id: string, action: string, log: seq<Item>, turn: Turn)
    requires CleanOk(EnvelopeOf(log)) && AllBound(file, Replay(log))
    requires id in Replay(log) && Replay(log)[id].status == Active
    requires TurnOk(turn, log) && RoomFor(Op.Expire(id), Replay(log)) && |action| <= 100 && Printable(action)
    ensures Acceptable(file, Op.Expire(id), log, ExpiryReceipt(id, action, turn, log))
  {
    ExpiryDetailOk(action);
    ExpiryReceiptIs(id, action, turn, log);
    hide CleanOk, AllBound, WorldOk, RoomFor, Replay, Receipts, EnvelopeOf, Acceptable, Printable, ExpiryReceipt,
      ReceiptEntry;
    EndAccepts(file, Op.Expire(id), log, action + " refused: grant_expired", turn.ts, turn.transaction);
  }

  lemma ObservedDetailOk()
    ensures |OBSERVED_DETAIL| <= 60 && Printable(OBSERVED_DETAIL)
  {
  }

  /** So can one that an owner projection comes across. */
  lemma ObservedAccepts(file: Housefile, id: string, ts: string, log: seq<Item>, turn: Turn)
    requires CleanOk(EnvelopeOf(log)) && AllBound(file, Replay(log))
    requires id in Replay(log) && Replay(log)[id].status == Active
    ensures WorldOk(ts, turn.transaction, log) && RoomFor(Op.Expire(id), Replay(log)) ==>
              Acceptable(file, Op.Expire(id), log, ObservedReceipt(id, ts, turn, log))
  {
    hide CleanOk, AllBound, WorldOk, RoomFor, Replay, Receipts, EnvelopeOf, Acceptable, Printable, OBSERVED_DETAIL;
    ObservedDetailOk();
    if WorldOk(ts, turn.transaction, log) && RoomFor(Op.Expire(id), Replay(log)) {
      EndAccepts(file, Op.Expire(id), log, OBSERVED_DETAIL, ts, turn.transaction);
    }
  }

  /** And with room that lasts, each of several in a row. */
  lemma LastingAccepts(file: Housefile, id: string, ts: string, log: seq<Item>, turn: Turn)
    requires CleanOk(EnvelopeOf(log)) && AllBound(file, Replay(log))
    requires id in Replay(log) && Replay(log)[id].status == Active
    ensures WorldOk(ts, turn.transaction, log) && RoomToEnd(Replay(log)) ==>
              Acceptable(file, Op.Expire(id), log, ObservedReceipt(id, ts, turn, log))
  {
    hide *;
    ObservedAccepts(file, id, ts, log, turn);
    EnvelopeRevision(log);
    CleanRecords(EnvelopeOf(log));
    ExpirySure(id, Replay(log));
    if RoomToEnd(Replay(log)) { EndFits(Op.Expire(id), Replay(log)); }
  }

  lemma ExpirySure(id: string, grants: map<string, Grant>)
    requires id in grants && grants[id].status == Active
    ensures OpOk(Op.Expire(id), grants, 0) && !Widens(Op.Expire(id))
  {
  }

  lemma IssuedOk(g: Grant, grants: map<string, Grant>)
    requires RecordsOk(grants) && RecordOk(g) && g.id !in grants && |grants| < MAX_GRANTS
    requires !CredentialClash(grants, g.credential)
    ensures RecordsOk(Apply(Op.Issue(g), grants)) && BoundedText(g.id, MAX_NAME_LENGTH)
  {
    hide RecordOk, BoundedText, OneCredentialEach, CredentialClash;
    RecordIdText(g);
    IssuedCredentials(g, grants);
    OneMore(g, grants);
  }

  lemma OneMore(g: Grant, grants: map<string, Grant>)
    requires g.id !in grants
    ensures |grants[g.id := g]| == |grants| + 1
  {
    var target := grants[g.id := g];
    assert target.Keys == grants.Keys + {g.id};
    assert |target| == |target.Keys| && |grants| == |grants.Keys|;
  }

  lemma KnownIdShort(grants: map<string, Grant>, id: string)
    requires RecordsOk(grants) && id in grants
    ensures 0 < |id| <= MAX_NAME_LENGTH
  {
    assert RecordOk(grants[id]);
  }

  lemma RecordIdText(g: Grant)
    requires RecordOk(g)
    ensures BoundedText(g.id, MAX_NAME_LENGTH)
  {
    GrantIdText(g.id);
  }

  lemma IssuedCredentials(g: Grant, grants: map<string, Grant>)
    requires OneCredentialEach(grants) && !CredentialClash(grants, g.credential)
    ensures OneCredentialEach(grants[g.id := g])
  {
  }

  lemma IssuedBound(file: Housefile, g: Grant, grants: map<string, Grant>)
    requires AllBound(file, grants) && Bound(file, g)
    ensures AllBound(file, Apply(Op.Issue(g), grants))
  {
    hide Bound;
  }

  lemma RecordCredential(g: Grant)
    requires RecordOk(g)
    ensures g.credential != ""
  {
  }

  /** A well-formed active grant that passes the checks can be issued. */
  lemma IssueAccepts(file: Housefile, g: Grant, log: seq<Item>, turn: Turn)
    requires CleanOk(EnvelopeOf(log)) && AllBound(file, Replay(log)) && IssueCheck(file, Replay(log), g, turn.instant).None?
    requires !CredentialClash(Replay(log), g.credential) && RecordOk(g) && g.status == Active
    requires |Replay(log)| < MAX_GRANTS && TurnOk(turn, log) && RoomFor(Op.Issue(g), Replay(log))
    ensures Acceptable(file, Op.Issue(g), log, IssueReceipt(g, turn, log))
  {
    hide CleanOk, AllBound, WorldOk, RoomFor, Replay, Receipts, EnvelopeOf, Acceptable, Printable, IssueCheck, RecordOk,
      RecordsOk, CredentialClash, Bound, BoundedText, Startable;
    EnvelopeRevision(log);
    CleanRecords(EnvelopeOf(log));
    RecordCredential(g);
    CheckedIsBound(file, Replay(log), g, turn.instant);
    CheckedFresh(file, Replay(log), g, turn.instant);
    IssuedOk(g, Replay(log));
    IssuedBound(file, g, Replay(log));
    IssuedDetailOk();
    Accepts(file, Op.Issue(g), log, "grant issued", turn.ts, turn.transaction);
  }

  /** The snapshot of seeds that pass is storable, bound and all active. */
  lemma {:induction false} SeededOk(file: Housefile, seeds: seq<Grant>, n: nat, now: int)
    requires n <= |seeds| <= MAX_GRANTS && SeedsPass(file, seeds, now)
    requires forall i :: 0 <= i < |seeds| ==> RecordOk(seeds[i]) && seeds[i].status == Active
    ensures var grants := Seeded(seeds[..n]);
            && RecordsOk(grants) && AllBound(file, grants) && |grants| == n && Holds(grants, seeds[..n])
            && forall id :: id in grants ==> grants[id].id == id && grants[id].status == Active
    decreases n
  {
    if n == 0 {
      NoSeeds();
      assert seeds[..0] == [];
    } else {
      assert SeedCheck(file, seeds, n - 1, now).None?;
      hide SeedsPass, IssueCheck, RecordOk, RecordsOk, Bound, AllBound, Holds, Seeded, CredentialClash, BoundedText;
      SeededOk(file, seeds, n - 1, now);
      SeedStep(file, seeds, n - 1, now);
      OneSeedMore(file, seeds[n - 1], Seeded(seeds[..n - 1]), now);
    }
  }

  lemma OneSeedMore(file: Housefile, g: Grant, grants: map<string, Grant>, now: int)
    requires RecordsOk(grants) && AllBound(file, grants) && |grants| < MAX_GRANTS
    requires RecordOk(g) && g.id !in grants && IssueCheck(file, grants, g, now).None?
    ensures RecordsOk(grants[g.id := g]) && AllBound(file, grants[g.id := g]) && |grants[g.id := g]| == |grants| + 1
  {
    hide IssueCheck, RecordOk, RecordsOk, Bound, AllBound, CredentialClash, BoundedText;
    RecordCredential(g);
    CheckedIsBound(file, grants, g, now);
    NoClash(grants, g.credential);
    IssuedOk(g, grants);
    IssuedBound(file, g, grants);
    OneMore(g, grants);
  }

  lemma ClashIs(grants: map<string, Grant>, credential: string)
    ensures CredentialClash(grants, credential) <==> exists id :: id in grants && grants[id].credential == credential
  {
  }

  lemma NoClash(grants: map<string, Grant>, credential: string)
    requires forall id :: id in grants ==> grants[id].credential != credential
    ensures !CredentialClash(grants, credential)
  {
  }

  lemma SeedsAccept(file: Housefile, seeds: seq<Grant>, turn: Turn)
    requires seeds != [] && SeedsPass(file, seeds, turn.instant) && |seeds| <= MAX_GRANTS
    requires forall i :: 0 <= i < |seeds| ==> RecordOk(seeds[i]) && seeds[i].status == Active
    requires IsTransactionId(turn.seedTransaction) && 0 < |turn.ts| <= MAX_POLICY_LENGTH
    requires RoomFor(Seed(Seeded(seeds)), map[])
    ensures Acceptable(file, Seed(Seeded(seeds)), [], SeedReceipt(turn, seeds))
  {
    hide *;
    SeededOk(file, seeds, |seeds|, turn.instant);
    assert seeds[..|seeds|] == seeds;
    EmptyClean();
    NothingYet();
    SeedDetailOk();
    SystemText();
    SeedingIs(Seeded(seeds), turn, seeds);
    Accepts(file, Seed(Seeded(seeds)), [], SEED_DETAIL, turn.ts, turn.seedTransaction);
  }

  lemma SeedingIs(grants: map<string, Grant>, turn: Turn, seeds: seq<Grant>)
    requires grants == Seeded(seeds) && |grants| > 0
    requires forall id :: id in grants ==> grants[id].id == id && grants[id].status == Active
    requires IsTransactionId(turn.seedTransaction) && 0 < |turn.ts| <= MAX_POLICY_LENGTH
    ensures OpOk(Seed(grants), map[], 0) && Apply(Seed(grants), map[]) == grants && AgentOf(Seed(grants)) == "system"
    ensures WorldOk(turn.ts, turn.seedTransaction, [])
    ensures SeedReceipt(turn, seeds) == ReceiptEntry(Seed(grants), SEED_DETAIL, turn.ts, turn.seedTransaction, 1)
  {
    hide Seeded, IsTransactionId, ReceiptEntry, SEED_DETAIL;
  }

  lemma NothingYet()
    ensures EnvelopeOf([]) == EMPTY && Replay([]) == map[] && Receipts([]) == 0 && LogBytes([]) == []
  {
  }

  lemma SystemText()
    ensures BoundedText("system", MAX_NAME_LENGTH)
  {
  }

  lemma SeedDetailOk()
    ensures |SEED_DETAIL| <= MAX_POLICY_LENGTH && Printable(SEED_DETAIL)
  {
  }

  lemma IssuedDetailOk()
    ensures |"grant issued"| <= MAX_POLICY_LENGTH && Printable("grant issued")
  {
  }

  lemma CheckedFresh(file: Housefile, grants: map<string, Grant>, g: Grant, now: int)
    requires IssueCheck(file, grants, g, now).None?
    ensures g.id !in grants
  {
  }

  lemma SuspendedBound(file: Housefile, grants: map<string, Grant>)
    requires AllBound(file, grants)
    ensures AllBound(file, Apply(SuspendAll, grants))
  {
    forall id | id in grants ensures Bound(file, SuspendActive(grants)[id]) { assert Bound(file, grants[id]); }
  }

  /** With room to stop, a stop is always acceptable. */
  lemma StopAcceptable(file: Housefile, log: seq<Item>, turn: Turn)
    requires CleanOk(EnvelopeOf(log)) && AllBound(file, Replay(log))
    ensures RoomToStop(Replay(log)) && TurnOk(turn, log) ==>
              Acceptable(file, SuspendAll, log, StopReceipt(turn, log))
  {
    if RoomToStop(Replay(log)) && TurnOk(turn, log) {
      var e := StopReceipt(turn, log);
      StopReceiptOk(turn, log);
      SuspendedBound(file, Replay(log));
      EnvelopeRevision(log);
      CheckpointOffset(LogBytes(log));
      hide CleanOk, RoomToStop, StoreBytes, EventFor, EventOk, RecordsOk, AllBound, PendingEnvelope, Apply, Replay, Receipts,
        LogBytes, CheckpointOf, EnvelopeOf, StopReceipt, DecodeOk, IsTransactionId;
      StopDecodes(EnvelopeOf(log), e, CheckpointOf(LogBytes(log)));
      DecodedFits(PendingEnvelope(EnvelopeOf(log), SuspendAll, e, CheckpointOf(LogBytes(log))));
    }
  }

  /** And without room for two suspended snapshots none is. */
  lemma StopNeeds(file: Housefile, log: seq<Item>, event: Entry)
    requires Acceptable(file, SuspendAll, log, event)
    ensures 2 * SnapshotBytes(SuspendActive(Replay(log))) < MAX_STORE_BYTES
  {
    AcceptableFits(file, SuspendAll, log, event);
    EnvelopeRevision(log);
    hide *;
    StopEnvelope(EnvelopeOf(log), event, CheckpointOf(LogBytes(log)));
    PendingHoldsTarget(PendingEnvelope(EnvelopeOf(log), SuspendAll, event, CheckpointOf(LogBytes(log))));
  }

  lemma AcceptableFits(file: Housefile, op: Op, log: seq<Item>, event: Entry)
    requires Acceptable(file, op, log, event)
    ensures event.stamp.Some?
    ensures StoreBytes(PendingEnvelope(EnvelopeOf(log), op, event, CheckpointOf(LogBytes(log)))) <= MAX_STORE_BYTES
  {
    hide AllBound, RecordsOk, EventOk, EventFor, OpOk, StoreBytes, Replay, Receipts, LogBytes, PendingEnvelope, EnvelopeOf;
  }

  lemma StopEnvelope(base: Envelope, event: Entry, at: Checkpoint)
    requires event.stamp.Some?
    ensures var e := PendingEnvelope(base, SuspendAll, event, at);
            e.pending.Some? && e.grants == e.pending.value.grants == SuspendActive(base.grants)
  {
  }

  lemma PendingHoldsTarget(e: Envelope)
    requires e.pending.Some?
    ensures StoreBytes(e) > SnapshotBytes(e.grants) + SnapshotBytes(e.pending.value.grants)
  {
    LineShape(e.pending.value.event);
    hide SnapshotBytes, PreviousBytes, NumberBytes, Line;
  }

  lemma StopReceiptOk(turn: Turn, log: seq<Item>)
    requires TurnOk(turn, log)
    ensures var e := StopReceipt(turn, log);
            && e.stamp == Some(Stamp(turn.transaction, Receipts(log) + 1))
            && EventFor(SuspendAll, e, Receipts(log) + 1) && EventOk(e, turn.transaction, Receipts(log) + 1)
            && OpOk(SuspendAll, Replay(log), Receipts(log))
            && Receipts(log) < MAX_REVISION && |LogBytes(log)| <= MAX_REVISION
  {
    StopEventOk(turn, Receipts(log) + 1);
    hide EventFor, EventOk, Replay, Receipts, LogBytes, IsTransactionId, STOP_DETAIL;
  }

  lemma DecodedFits(e: Envelope)
    requires DecodeOk(e)
    ensures StoreBytes(e) <= MAX_STORE_BYTES
  {
  }

  lemma AffectedAre(grants: map<string, Grant>, affected: map<string, Status>, target: map<string, Grant>)
    requires affected == map i | i in grants && grants[i].status == Active :: grants[i].status
    requires target.Keys == grants.Keys
    requires forall i :: i in grants ==>
               target[i] == if i in affected then grants[i].(status := Suspended) else grants[i]
    ensures target == Apply(SuspendAll, grants) == SuspendActive(grants) && affected == PreviousOf(SuspendAll, grants)
    ensures NoneActive(target) && |affected| == |ActiveIds(grants)|
  {
    assert affected.Keys == ActiveIds(grants);
  }

  lemma NoExpiries(base: seq<Item>, ts: string, later: nat -> Turn)
    ensures Expiries(base, [], ts, later, base)
  {
  }

  lemma ExpiriesStep(base: seq<Item>, ids: seq<string>, ts: string, later: nat -> Turn, log: seq<Item>, id: string)
    requires Expiries(base, ids, ts, later, log)
    ensures Expiries(base, ids + [id], ts, later,
                     log + [Receipt(Op.Expire(id), ObservedReceipt(id, ts, later(|ids|), log))])
  {
    var more := log + [Receipt(Op.Expire(id), ObservedReceipt(id, ts, later(|ids|), log))];
    assert more[..|log|] == log && (ids + [id])[..|ids|] == ids;
  }

  /** The ids of `grants`, each once, in order. */
  ghost predicate Lists(ids: seq<string>, grants: map<string, Grant>) {
    (forall id :: id in ids <==> id in grants) && InOrder(ids)
  }

  lemma SortedLists(grants: map<string, Grant>)
    ensures Lists(Sorted(grants.Keys), grants)
  {
    SortedInOrder(grants.Keys);
  }

  lemma {:induction false} ExpiriesGrow(base: seq<Item>, ids: seq<string>, ts: string, later: nat -> Turn, log: seq<Item>)
    requires Expiries(base, ids, ts, later, log) && |ts| <= MAX_POLICY_LENGTH
    requires forall k: nat :: k < |ids| ==> |ids[k]| <= 128 && IsTransactionId(later(k).transaction)
    requires Receipts(base) + |ids| <= MAX_REVISION
    ensures Receipts(log) == Receipts(base) + |ids|
    ensures |LogBytes(log)| <= |LogBytes(base)| + EXPIRY_BYTES * |ids|
    ensures AllSuspended(Replay(log)) == AllSuspended(Replay(base)) && Replay(log).Keys == Replay(base).Keys
    decreases |ids|
  {
    if ids != [] {
      var n, rest := |ids| - 1, log[..|log| - 1];
      ExpiriesLast(base, ids, ts, later, log);
      hide Expiries, Receipts, LogBytes, Replay, AllSuspended, IsTransactionId, ObservedReceipt;
      ExpiriesGrow(base, ids[..n], ts, later, rest);
      ExpiryGrows(rest, ids[n], ts, later(n), log);
    }
  }

  lemma ExpiriesLast(base: seq<Item>, ids: seq<string>, ts: string, later: nat -> Turn, log: seq<Item>)
    requires Expiries(base, ids, ts, later, log) && ids != []
    ensures var n, rest := |ids| - 1, log[..|log| - 1];
            && log != [] && Expiries(base, ids[..n], ts, later, rest)
            && log == rest + [Receipt(Op.Expire(ids[n]), ObservedReceipt(ids[n], ts, later(n), rest))]
  {
    hide ObservedReceipt;
  }

  lemma ExpiryGrows(rest: seq<Item>, id: string, ts: string, turn: Turn, log: seq<Item>)
    requires log == rest + [Receipt(Op.Expire(id), ObservedReceipt(id, ts, turn, rest))]
    requires |id| <= 128 && |ts| <= MAX_POLICY_LENGTH && IsTransactionId(turn.transaction) && Receipts(rest) < MAX_REVISION
    ensures Receipts(log) == Receipts(rest) + 1 && |LogBytes(log)| <= |LogBytes(rest)| + EXPIRY_BYTES
    ensures AllSuspended(Replay(log)) == AllSuspended(Replay(rest)) && Replay(log).Keys == Replay(rest).Keys
  {
    var e := ObservedReceipt(id, ts, turn, rest);
    ObservedDetailOk();
    EntryLength(e);
    hide Line, OBSERVED_DETAIL;
    assert log[..|rest|] == rest;
    assert LogBytes(log) == LogBytes(rest) + Line(e);
  }

  lemma ExpiryLasts(base: seq<Item>, now: int, done: seq<string>, ts: string, later: nat -> Turn, log: seq<Item>)
    requires RecordsOk(Replay(base)) && RoomToEnd(Replay(base)) && Expiries(base, done, ts, later, log)
    requires done <= DueList(Replay(base), now) && |done| < |DueList(Replay(base), now)|
    requires ExpiryWorld(base, |DueList(Replay(base), now)|, ts, later)
    ensures SmoothFaults(later(|done|).commit) && WorldOk(ts, later(|done|).transaction, log) && RoomToEnd(Replay(log))
  {
    hide Expiries, Receipts, LogBytes, Replay, AllSuspended, IsTransactionId, DueList, SmoothFaults, RecordsOk, SnapshotBytes,
      NamesBytes;
    DueShort(Replay(base), now);
    assert forall k :: 0 <= k < |done| ==> done[k] == DueList(Replay(base), now)[k];
    ExpiriesGrow(base, done, ts, later, log);
  }

  lemma DueShort(grants: map<string, Grant>, now: int)
    requires RecordsOk(grants)
    ensures forall k :: 0 <= k < |DueList(grants, now)| ==> |DueList(grants, now)[k]| <= 128
  {
    DueListMeans(grants, now);
    hide DueList, Due;
    forall k | 0 <= k < |DueList(grants, now)| ensures |DueList(grants, now)[k]| <= 128 {
      var id := DueList(grants, now)[k];
      assert id in DueIds(grants, now) && RecordOk(grants[id]);
    }
  }

  lemma DueCount(grants: map<string, Grant>, now: int)
    ensures |DueList(grants, now)| == |DueIds(grants, now)|
  {
    DueListMeans(grants, now);
    hide DueList, Due, Leq;
    DistinctCount(DueList(grants, now), DueIds(grants, now));
  }

  lemma {:induction false} DistinctCount(l: seq<string>, s: set<string>)
    requires (forall x :: x in l <==> x in s) && InOrder(l)
    ensures |l| == |s|
  {
    hide Leq;
    if l == [] {
      assert s == {};
    } else {
      var m := |l| - 1;
      forall x ensures x in l[..m] <==> x in s - {l[m]} {
        assert l == l[..m] + [l[m]];
      }
      DistinctCount(l[..m], s - {l[m]});
    }
  }

  /** After the first `n` ids: the due ones among them are expired, the rest is as it was. */
  predicate PartlyExpired(ids: seq<string>, base: map<string, Grant>, now: int, n: nat, grants: map<string, Grant>)
    requires forall i :: 0 <= i < |ids| ==> ids[i] in base
  {
    && grants.Keys == base.Keys
    && forall i :: 0 <= i < |ids| ==>
         grants[ids[i]] == if i < n && Due(base[ids[i]], now) then base[ids[i]].(status := Status.Expired) else base[ids[i]]
  }

  lemma ListStart(ids: seq<string>, base: map<string, Grant>, now: int)
    requires Lists(ids, base)
    ensures forall i :: 0 <= i < |ids| ==> ids[i] in base
    ensures PartlyExpired(ids, base, now, 0, base) && DueOf(ids[..0], base, now) == []
  {
    hide Due, Leq;
  }

  lemma PartlyExpiredStep(ids: seq<string>, base: map<string, Grant>, now: int, n: nat, grants: map<string, Grant>)
    requires Lists(ids, base) && n < |ids| && PartlyExpired(ids, base, now, n, grants)
    ensures ids[n] in grants && grants[ids[n]] == base[ids[n]]
    ensures Due(base[ids[n]], now) ==>
              PartlyExpired(ids, base, now, n + 1, grants[ids[n] := base[ids[n]].(status := Status.Expired)])
    ensures !Due(base[ids[n]], now) ==> PartlyExpired(ids, base, now, n + 1, grants)
  {
    hide Due, Leq;
  }

  lemma PartlyExpiredEnd(ids: seq<string>, base: map<string, Grant>, now: int, grants: map<string, Grant>)
    requires Lists(ids, base) && PartlyExpired(ids, base, now, |ids|, grants)
    ensures grants == ExpireAllDue(base, now)
  {
    hide Due, Leq;
    forall id | id in base ensures grants[id] == ExpireAllDue(base, now)[id] {
      var i :| 0 <= i < |ids| && ids[i] == id;
    }
  }

  lemma {:induction false} DueOfPrefix(ids: seq<string>, n: nat, grants: map<string, Grant>, now: int)
    requires n <= |ids| && forall i :: 0 <= i < |ids| ==> ids[i] in grants
    ensures DueOf(ids[..n], grants, now) <= DueOf(ids, grants, now)
    decreases |ids|
  {
    hide Due;
    if n == |ids| {
      assert ids[..n] == ids;
    } else {
      var m := |ids| - 1;
      DueOfPrefix(ids[..m], n, grants, now);
      assert ids[..m][..n] == ids[..n];
    }
  }

  lemma DueOfNext(ids: seq<string>, n: nat, grants: map<string, Grant>, now: int)
    requires n < |ids| && forall i :: 0 <= i < |ids| ==> ids[i] in grants
    ensures DueOf(ids[..n + 1], grants, now) ==
            DueOf(ids[..n], grants, now) + if Due(grants[ids[n]], now) then [ids[n]] else []
    ensures DueOf(ids[..n + 1], grants, now) <= DueOf(ids, grants, now)
  {
    DueOfPrefix(ids, n + 1, grants, now);
    hide Due;
    assert ids[..n + 1][..n] == ids[..n];
  }

  lemma DueActive(g: Grant, now: int)
    ensures Due(g, now) ==> g.status == Active
  {
  }

  /** The due list names every due grant, once, in order. */
  lemma DueListMeans(grants: map<string, Grant>, now: int)
    ensures forall i :: i in DueList(grants, now) <==> i in DueIds(grants, now)
    ensures InOrder(DueList(grants, now))
  {
    SortedLists(grants);
    hide Due, InOrder, Sorted;
    DueOfAre(Sorted(grants.Keys), grants, now);
    DueOfInOrder(Sorted(grants.Keys), grants, now);
  }

  lemma {:induction false} DueOfAre(ids: seq<string>, grants: map<string, Grant>, now: int)
    requires forall i :: 0 <= i < |ids| ==> ids[i] in grants
    ensures forall id :: id in DueOf(ids, grants, now) <==> id in ids && Due(grants[id], now)
  {
    hide Due;
    if ids != [] {
      var m := |ids| - 1;
      DueOfAre(ids[..m], grants, now);
      assert ids == ids[..m] + [ids[m]];
    }
  }

  lemma {:induction false} DueOfInOrder(ids: seq<string>, grants: map<string, Grant>, now: int)
    requires forall i :: 0 <= i < |ids| ==> ids[i] in grants
    requires InOrder(ids)
    ensures InOrder(DueOf(ids, grants, now))
  {
    hide Due, Leq;
    if ids != [] {
      var m := |ids| - 1;
      var due := DueOf(ids[..m], grants, now);
      DueOfInOrder(ids[..m], grants, now);
      DueOfAre(ids[..m], grants, now);
      forall i | 0 <= i < |due| ensures due[i] != ids[m] && Leq(due[i], ids[m]) {
        assert due[i] in due;
        var k :| 0 <= k < m && ids[..m][k] == due[i];
        assert ids[k] == due[i];
      }
    }
  }

  lemma NothingDone(log: seq<Item>, op: Op)
    ensures AllOrNothing(log, op, log)
  {
  }

  lemma ExpireIs(grants: map<string, Grant>, id: string)
    requires id in grants && grants[id].status == Active
    ensures Startable(Op.Expire(id), grants)
    ensures grants[id := grants[id].(status := Status.Expired)] == Apply(Op.Expire(id), grants)
    ensures map[id := grants[id].status] == PreviousOf(Op.Expire(id), grants)
  {
  }

  lemma RevokeIs(grants: map<string, Grant>, id: string)
    requires id in grants && !Ended(grants[id].status)
    ensures Startable(Op.Revoke(id), grants)
    ensures grants[id := grants[id].(status := Status.Revoked)] == Apply(Op.Revoke(id), grants)
    ensures map[id := grants[id].status] == PreviousOf(Op.Revoke(id), grants)
  {
  }

  lemma ReplayReceipt(log: seq<Item>, op: Op, e: Entry)
    ensures Replay(log + [Receipt(op, e)]) == Apply(op, Replay(log))
  {
    assert (log + [Receipt(op, e)])[..|log|] == log;
  }

  lemma EmptyBound(file: Housefile)
    ensures AllBound(file, EMPTY.grants)
  {
  }

  /** What reaches the envelope file was acceptable. */
  lemma IntendedAcceptable(file: Housefile, s: Sys, t: Tale)
    requires Matches(s, t) && t.intent.Intended? && AllBound(file, Apply(t.intent.op, Replay(t.log)))
    ensures Acceptable(file, t.intent.op, t.log, t.intent.event)
  {
    hide DecodeOk, AllBound, LegalItem, PendingOf, Legal, SessionMatches, Acceptable, LogBytes;
    DecodedAcceptable(file, t.log, t.intent.op, t.intent.event);
  }

  lemma DecodedAcceptable(file: Housefile, log: seq<Item>, op: Op, e: Entry)
    requires LegalItem(log, Receipt(op, e)) && DecodeOk(PendingOf(log, op, e))
    requires AllBound(file, Apply(op, Replay(log)))
    ensures Acceptable(file, op, log, e)
  {
    hide StoreBytes, RecordsOk, SemanticsOk, BaseOk, EventOk, PreviousOk, AllBound, Line, Apply, Replay, Receipts, LogBytes;
  }

  lemma RecoveringIs(s: Sys)
    requires s.session.Held? && s.file.Some? && DecodeOk(s.file.value) && BaseVerified(s.file.value, s.ledger)
    ensures Recovering(s)
  {
    hide RecordsOk, Witnessed;
  }

  lemma SettledIdle(t: Tale)
    ensures t.intent.Idle? ==> Settled(t) == t.log
  {
  }

  lemma FinalBound(file: Housefile, e: Envelope)
    requires e.pending.Some?
    ensures FinalEnvelope(e).grants == e.pending.value.grants
  {
  }

  /** What an aborted issue leaves was part of what it proposed. */
  lemma AbortedBound(file: Housefile, e: Envelope)
    requires DecodeOk(e) && e.pending.Some? && e.pending.value.kind == IssueKind
    requires AllBound(file, e.pending.value.grants)
    ensures AllBound(file, AbortedEnvelope(e).grants)
  {
    hide RecordsOk, EventOk, BaseOk, PreviousOk, Bound;
    assert WidenOk(IssueKind, e.grants, e.pending.value.grants);
  }

  lemma AcceptableMeans(file: Housefile, op: Op, log: seq<Item>, event: Entry, base: Envelope, f: Faults)
    requires base == EnvelopeOf(log)
    ensures Acceptable(file, op, log, event) ==>
              OpOk(op, base.grants, base.revision) && EventFor(op, event, base.revision + 1) &&
              RecordsOk(Apply(op, base.grants)) && base.revision < MAX_REVISION && |LogBytes(log)| <= MAX_REVISION &&
              EntryOk(event) && Fits(event) &&
              EventOk(event, event.stamp.value.transaction, base.revision + 1) &&
              StoreBytes(PendingEnvelope(base, op, event, CheckpointOf(LogBytes(log)))) <= MAX_STORE_BYTES
    ensures SmoothFaults(f) ==> Smooth(f.prepare) && SmoothSave(f.pending)
  {
    hide OpOk, RecordsOk, EventOk, EntryOk, Fits, Apply, StoreBytes, PendingEnvelope, LogBytes;
  }

  lemma AcceptableBound(file: Housefile, op: Op, log: seq<Item>, event: Entry)
    ensures Acceptable(file, op, log, event) ==> AllBound(file, Apply(op, Replay(log)))
  {
    hide OpOk, RecordsOk, EventOk, EntryOk, Fits, Apply, AllBound, StoreBytes;
  }

  lemma AllOrNothingIs(t: Tale, op: Op, event: Entry)
    requires t.intent.Idle?
    ensures AllOrNothing(t.log, op, Settled(t))
    ensures AllOrNothing(t.log, op, Settled(Tale(t.log, Intended(op, event))))
    ensures AllOrNothing(t.log, op, Settled(Paid(Tale(t.log, Intended(op, event)))))
    ensures AllOrNothing(t.log, op, Settled(Tale(Paid(Tale(t.log, Intended(op, event))).log, Idle)))
  {
  }

  lemma EnvelopeIs(op: Op, event: Entry, base: Envelope, at: Checkpoint)
    requires event.stamp.Some?
    ensures PendingEnvelope(base, op, event, at) ==
            Envelope(base.revision, if WidensKind(KindOf(op)) then base.grants else Apply(op, base.grants),
                     base.ledgerWitness,
                     Some(Pending(event.stamp.value.transaction, KindOf(op), base.revision, base.revision + 1, at,
                                  TargetSha256(Apply(op, base.grants)), Sha256(Line(event)), event,
                                  Apply(op, base.grants), PreviousOf(op, base.grants))))
  {
    KindAgrees(op);
  }

  /** The envelope validation both keeps bad transitions out and lets good ones in. */
  lemma IntentFacts(op: Op, event: Entry, base: Envelope, at: Checkpoint)
    requires CleanOk(base) && Startable(op, base.grants) && event.stamp.Some?
    ensures DecodeOk(PendingEnvelope(base, op, event, at)) ==> OpOk(op, base.grants, base.revision)
    ensures OpOk(op, base.grants, base.revision) && EventFor(op, event, base.revision + 1) &&
            RecordsOk(Apply(op, base.grants)) && base.revision < MAX_REVISION && at.offset <= MAX_REVISION &&
            EventOk(event, event.stamp.value.transaction, base.revision + 1) &&
            StoreBytes(PendingEnvelope(base, op, event, at)) <= MAX_STORE_BYTES ==>
              DecodeOk(PendingEnvelope(base, op, event, at))
  {
    hide DecodeOk, OpOk, EventFor, RecordsOk, EventOk, PendingEnvelope, CleanOk, Startable, Apply, StoreBytes;
    if DecodeOk(PendingEnvelope(base, op, event, at)) { DecodedOpOk(base, op, event, at); }
    if OpOk(op, base.grants, base.revision) && EventFor(op, event, base.revision + 1) &&
       RecordsOk(Apply(op, base.grants)) && base.revision < MAX_REVISION && at.offset <= MAX_REVISION &&
       EventOk(event, event.stamp.value.transaction, base.revision + 1)
    {
      EventOkIs(op, event, base.revision + 1);
      PendingComplete(base, op, event, at);
    }
  }

  lemma EventIs(op: Op, event: Entry, transaction: string, revision: nat)
    requires event.etype == TypeOf(op) && event.agent == AgentOf(op) && event.tier == None
    requires event.stamp == Some(Stamp(transaction, revision)) && EntryOk(event) && Fits(event)
    ensures EventFor(op, event, revision)
  {
  }

  lemma EnvelopeRevision(log: seq<Item>)
    ensures EnvelopeOf(log).revision == Receipts(log) && EnvelopeOf(log).grants == Replay(log)
  {
  }

  lemma LeaseClean(s: Sys, t: Tale)
    requires Matches(s, t) && s.session.Lease?
    ensures CleanOk(s.session.base)
  {
    LeaseVerified(s, t);
    EnvelopeVerified(t.log, s.ledger);
    hide DecodeOk;
  }

  lemma LeaseFile(s: Sys, t: Tale)
    requires Matches(s, t) && s.session.Lease?
    ensures s.file.Some? ==> s.file.value == s.session.base && s.session.base.pending.None?
  {
    hide DecodeOk, Replay, Receipts;
  }

  lemma LeaseVerified(s: Sys, t: Tale)
    requires Matches(s, t) && s.session.Lease?
    ensures DecodeOk(s.session.base) && Verified(s.session.base, s.ledger)
  {
    EnvelopeVerified(t.log, s.ledger);
    hide Verified;
    if s.file.None? { assert EnvelopeOf([]) == EMPTY; }
  }
}
