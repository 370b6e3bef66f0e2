/** The two-file commit protocol as a step machine: the envelope file, the ledger bytes
    and whoever holds the shared lock. Every durable action may fail with any of its
    partial effects, and a crash may come between any two of them. */
module Protocol {
  import opened Bytes
  import opened Outcomes
  import opened Entries
  import opened Grants
  import opened AtomicLog
  import opened Ledger
  import opened Records
  import opened Envelopes

  /** How far the lock holder has come; a crash or an exception goes back to `Free`. */
  datatype Session =
    | Free
    | Held(owner: nat)
    | Lease(owner: nat, base: Envelope)
    | Committing(owner: nat)
    | Committed(owner: nat)

  datatype Sys = Sys(file: Option<Envelope>, ledger: seq<byte>, session: Session)

  datatype Saved = Done | FailedOld | FailedNew

  datatype Step =
    | Acquire(owner: nat)
    | Stop
    | LoadMissing
    | LoadClean
    | Finish(saved: Saved)
    | Abort(saved: Saved)
    | RollForward(kept: nat, ok: bool)
    | RepairTail(ok: bool)
    | SavePending(op: Op, event: Entry, saved: Saved)
    | AppendReceipt(kept: nat, ok: bool)
    | SaveFinal(saved: Saved)
    | AppendNote(event: Entry, kept: nat, ok: bool)

  const START := Sys(None, [], Free)

  // ---------------------------------------------------------------- guards

  function LineWitness(w: StoreWitness): LedgerWitness {
    LedgerWitness(w.transaction, w.revision, w.offset, w.receipt)
  }

  ghost predicate Witnessed(ledger: seq<byte>, w: StoreWitness) {
    exists e :: Vouches(ledger, LineWitness(w), e)
  }

  /** `_verify_clean_state`, without the housefile bindings. */
  ghost predicate Verified(e: Envelope, ledger: seq<byte>) {
    && e.pending.None?
    && if e.revision == 0 then e.grants == map[] && e.ledgerWitness.None?
       else e.ledgerWitness.Some? && TargetSha256(e.grants) == e.ledgerWitness.value.target &&
            Witnessed(ledger, e.ledgerWitness.value)
  }

  /** `_verify_pending_base_receipt`, without the housefile bindings. */
  ghost predicate BaseVerified(e: Envelope, ledger: seq<byte>) {
    && e.pending.Some? && e.pending.value.baseRevision == e.revision
    && if e.revision == 0 then e.ledgerWitness.None?
       else e.ledgerWitness.Some? && Witnessed(ledger, e.ledgerWitness.value)
  }

  function PreparedOf(p: Pending): Prepared {
    Prepared(p.event, Line(p.event), p.checkpoint)
  }

  /** The state in which `_recover` runs. */
  ghost predicate Recovering(s: Sys) {
    && s.session.Held? && s.file.Some? && DecodeOk(s.file.value) && BaseVerified(s.file.value, s.ledger)
    && s.file.value.pending.value.receipt == Sha256(Line(s.file.value.pending.value.event))
  }

  // ---------------------------------------------------------------- effects

  /** One atomic replacement of the envelope; success leads to `next`. */
  predicate Saves(s: Sys, e: Envelope, saved: Saved, next: Session, s': Sys) {
    && DecodeOk(e)
    && s' == match saved
             case Done => s.(file := Some(e), session := next)
             case FailedOld => s.(session := Free)
             case FailedNew => s.(file := Some(e), session := Free)
  }

  /** One append of a line onto the repaired end of the ledger, perhaps torn. */
  predicate Appends(s: Sys, e: Entry, kept: nat, ok: bool, next: Session, s': Sys) {
    && Fits(e) && kept <= |Line(e)| && (ok ==> kept == |Line(e)|)
    && s' == s.(ledger := Terminated(s.ledger) + Line(e)[..kept], session := if ok then next else Free)
  }

  predicate AtCheckpoint(s: Sys, p: Pending) {
    CheckpointOf(Terminated(s.ledger)) == p.checkpoint
  }

  function Receipted(s: Sys): (i: Inspection)
    requires s.file.Some? && s.file.value.pending.Some?
  {
    Inspect(s.ledger, PreparedOf(s.file.value.pending.value))
  }

  ghost predicate DoesFinish(s: Sys, saved: Saved, s': Sys) {
    && Recovering(s) && Receipted(s) == Present
    && var e := FinalEnvelope(s.file.value);
       Saves(s, e, saved, Lease(s.session.owner, e), s')
  }

  ghost predicate DoesAbort(s: Sys, saved: Saved, s': Sys) {
    && Recovering(s) && Receipted(s) == Absent && s.file.value.pending.value.kind == IssueKind
    && var e := AbortedEnvelope(s.file.value);
       Saves(s, e, saved, Lease(s.session.owner, e), s')
  }

  ghost predicate DoesRollForward(s: Sys, kept: nat, ok: bool, s': Sys) {
    && Recovering(s) && Receipted(s) == Absent && s.file.value.pending.value.kind != IssueKind
    && AtCheckpoint(s, s.file.value.pending.value)
    && Appends(s, s.file.value.pending.value.event, kept, ok, s.session, s')
  }

  predicate DoesSavePending(s: Sys, op: Op, event: Entry, saved: Saved, s': Sys) {
    && s.session.Lease? && EndsLine(s.ledger)
    && OpOk(op, s.session.base.grants, s.session.base.revision)
    && EventFor(op, event, s.session.base.revision + 1)
    && Saves(s, PendingEnvelope(s.session.base, op, event, CheckpointOf(s.ledger)), saved,
             Committing(s.session.owner), s')
  }

  predicate DoesAppendReceipt(s: Sys, kept: nat, ok: bool, s': Sys) {
    && s.session.Committing? && s.file.Some? && s.file.value.pending.Some?
    && AtCheckpoint(s, s.file.value.pending.value)
    && Appends(s, s.file.value.pending.value.event, kept, ok, Committed(s.session.owner), s')
  }

  predicate DoesSaveFinal(s: Sys, saved: Saved, s': Sys) {
    && s.session.Committed? && s.file.Some? && s.file.value.pending.Some?
    && var e := FinalEnvelope(s.file.value);
       Saves(s, e, saved, Lease(s.session.owner, e), s')
  }

  predicate DoesAppendNote(s: Sys, event: Entry, kept: nat, ok: bool, s': Sys) {
    && s.session.Lease? && LegalNote(s.session.base.grants, event)
    && Appends(s, event, kept, ok, s.session, s')
  }

  predicate DoesLoadMissing(s: Sys, s': Sys) {
    && s.session.Held? && s.file.None? && s.ledger == []
    && s' == s.(session := Lease(s.session.owner, EMPTY))
  }

  ghost predicate DoesLoadClean(s: Sys, s': Sys) {
    && s.session.Held? && s.file.Some? && DecodeOk(s.file.value) && Verified(s.file.value, s.ledger)
    && s' == s.(session := Lease(s.session.owner, s.file.value))
  }

  predicate DoesRepairTail(s: Sys, ok: bool, s': Sys) {
    && s.session.Lease?
    && s' == s.(ledger := Terminated(s.ledger), session := if ok then s.session else Free)
  }

  ghost predicate Does(s: Sys, step: Step, s': Sys) {
    match step
    case Acquire(owner) => s.session.Free? && s' == s.(session := Held(owner))
    case Stop => s' == s.(session := Free)
    case LoadMissing => DoesLoadMissing(s, s')
    case LoadClean => DoesLoadClean(s, s')
    case Finish(saved) => DoesFinish(s, saved, s')
    case Abort(saved) => DoesAbort(s, saved, s')
    case RollForward(kept, ok) => DoesRollForward(s, kept, ok, s')
    case RepairTail(ok) => DoesRepairTail(s, ok, s')
    case SavePending(op, event, saved) => DoesSavePending(s, op, event, saved, s')
    case AppendReceipt(kept, ok) => DoesAppendReceipt(s, kept, ok, s')
    case SaveFinal(saved) => DoesSaveFinal(s, saved, s')
    case AppendNote(event, kept, ok) => DoesAppendNote(s, event, kept, ok, s')
  }

  lemma SavePendingDoes(s: Sys, op: Op, e: Entry, saved: Saved, s': Sys)
    requires s.session.Lease? && EndsLine(s.ledger)
    requires OpOk(op, s.session.base.grants, s.session.base.revision)
    requires EventFor(op, e, s.session.base.revision + 1)
    requires Saves(s, PendingEnvelope(s.session.base, op, e, CheckpointOf(s.ledger)), saved,
                   Committing(s.session.owner), s')
    ensures Does(s, SavePending(op, e, saved), s')
  {
  }

  lemma ReceiptDoes(s: Sys, kept: nat, ok: bool, s': Sys)
    requires s.session.Committing? && s.file.Some? && s.file.value.pending.Some?
    requires Terminated(s.ledger) == s.ledger && AtCheckpoint(s, s.file.value.pending.value)
    requires Appends(s, s.file.value.pending.value.event, kept, ok, Committed(s.session.owner), s')
    ensures Does(s, AppendReceipt(kept, ok), s')
  {
  }

  ghost predicate Next(s: Sys, s': Sys) {
    exists step :: Does(s, step, s')
  }

  ghost predicate IsRun(run: seq<Sys>) {
    && run != [] && run[0] == START
    && forall i :: 0 <= i < |run| - 1 ==> Next(run[i], run[i + 1])
  }

  // ---------------------------------------------------------------- the abstraction

  /** The transition under way: none, intended (envelope saved) or recorded (receipt there). */
  datatype Intent = Idle | Intended(op: Op, event: Entry) | Recorded(op: Op, event: Entry)

  /** The atomic machine's log, and what is still owed to it. */
  datatype Tale = Tale(log: seq<Item>, intent: Intent)

  function LastWitness(log: seq<Item>): Option<StoreWitness> {
    if log == [] then None
    else
      var m := |log| - 1;
      match log[m]
      case Note(_) => LastWitness(log[..m])
      case Receipt(_, e) =>
        if e.stamp.None? then None
        else Some(StoreWitness(e.stamp.value.transaction, Receipts(log), |LogBytes(log[..m])|,
                               Sha256(Line(e)), TargetSha256(Replay(log))))
  }

  /** The one clean envelope that belongs to a log. */
  function EnvelopeOf(log: seq<Item>): Envelope {
    Envelope(Receipts(log), Replay(log), LastWitness(log), None)
  }

  function PendingOf(log: seq<Item>, op: Op, event: Entry): Envelope
    requires event.stamp.Some?
  {
    PendingEnvelope(EnvelopeOf(log), op, event, CheckpointOf(LogBytes(log)))
  }

  predicate FileMatches(file: Option<Envelope>, ledger: seq<byte>, t: Tale)
    requires LogBytes(t.log) <= ledger
  {
    match t.intent
    case Idle =>
      if file.None? then t.log == [] && ledger == [] else file.value == EnvelopeOf(t.log)
    case Intended(op, e) =>
      && LegalItem(t.log, Receipt(op, e)) && file == Some(PendingOf(t.log, op, e))
      && var torn := ledger[|LogBytes(t.log)|..]; torn <= Line(e) && torn != Line(e)
    case Recorded(op, e) =>
      && t.log != [] && t.log[|t.log| - 1] == Receipt(op, e) && LegalItem(t.log[..|t.log| - 1], Receipt(op, e))
      && file == Some(PendingOf(t.log[..|t.log| - 1], op, e))
      && ledger == LogBytes(t.log)
  }

  predicate SessionMatches(s: Sys, t: Tale) {
    match s.session
    case Free => true
    case Held(_) => true
    case Lease(_, base) => t.intent.Idle? && base == EnvelopeOf(t.log)
    case Committing(_) => t.intent.Intended? && s.ledger == LogBytes(t.log)
    case Committed(_) => t.intent.Recorded?
  }

  /** What may follow the complete lines: part of one line, short enough to repair. */
  predicate TornTail(b: seq<byte>) {
    NL !in b && CR !in b && |b| < MAX_ENTRY_BYTES
  }

  predicate Matches(s: Sys, t: Tale)
    ensures Matches(s, t) ==> LogBytes(t.log) <= s.ledger
  {
    && Legal(t.log)
    && LogBytes(t.log) <= s.ledger && TornTail(s.ledger[|LogBytes(t.log)|..])
    && (s.file.Some? ==> DecodeOk(s.file.value))
    && FileMatches(s.file, s.ledger, t)
    && SessionMatches(s, t)
  }

  /** One step of the atomic machine, or none. */
  predicate LogStep(log: seq<Item>, log': seq<Item>) {
    log' == log || (|log'| == |log| + 1 && log'[..|log|] == log && LegalItem(log, log'[|log|]))
  }

  /** The log once whatever is owed has been paid or dropped. */
  function Settled(t: Tale): seq<Item> {
    if t.intent.Intended? && !t.intent.op.Issue? then t.log + [Receipt(t.intent.op, t.intent.event)] else t.log
  }

  /** What each step does to the tale: the receipt's last byte is the commit. */
  predicate TaleStep(t: Tale, step: Step, t': Tale) {
    match step
    case SavePending(op, e, saved) => SavedStep(t, saved, Intended(op, e), t')
    case AppendReceipt(kept, _) => ReceiptStep(t, kept, t')
    case RollForward(kept, _) => ReceiptStep(t, kept, t')
    case Finish(saved) => SavedStep(t, saved, Idle, t')
    case SaveFinal(saved) => SavedStep(t, saved, Idle, t')
    case Abort(saved) => SavedStep(t, saved, Idle, t')
    case AppendNote(e, kept, _) => NoteStep(t, e, kept, t')
    case _ => t' == t
  }

  predicate SavedStep(t: Tale, saved: Saved, intent: Intent, t': Tale) {
    t' == if saved.FailedOld? then t else Tale(t.log, intent)
  }

  predicate NoteStep(t: Tale, e: Entry, kept: nat, t': Tale) {
    t' == if kept == |Line(e)| then Tale(t.log + [Note(e)], Idle) else t
  }

  predicate ReceiptStep(t: Tale, kept: nat, t': Tale) {
    && t.intent.Intended?
    && t' == if kept == |Line(t.intent.event)| then
               Tale(t.log + [Receipt(t.intent.op, t.intent.event)], Recorded(t.intent.op, t.intent.event))
             else t
  }

  // ---------------------------------------------------------------- facts about a matching state

  lemma {:induction false} LastWitnessHolds(log: seq<Item>, ledger: seq<byte>)
    requires Legal(log) && LogBytes(log) <= ledger
    ensures Receipts(log) == 0 ==> Replay(log) == map[] && LastWitness(log).None?
    ensures Receipts(log) > 0 ==>
              LastWitness(log).Some? && LastWitness(log).value.target == TargetSha256(Replay(log)) &&
              Witnessed(ledger, LastWitness(log).value)
  {
    if log != [] {
      var m := |log| - 1;
      if log[m].Note? {
        LastWitnessHolds(log[..m], ledger);
      } else {
        var e := log[m].event;
        var w := LastWitness(log).value;
        assert ledger[w.offset..w.offset + |Line(e)|] == LogBytes(log)[w.offset..] == Line(e);
        assert Vouches(ledger, LineWitness(w), e);
      }
    }
  }

  lemma EnvelopeVerified(log: seq<Item>, ledger: seq<byte>)
    requires Legal(log) && LogBytes(log) <= ledger
    ensures Verified(EnvelopeOf(log), ledger) && BoundBase(EnvelopeOf(log), Replay(log))
  {
    LastWitnessHolds(log, ledger);
  }

  lemma FinalIs(log: seq<Item>, op: Op, e: Entry)
    requires LegalItem(log, Receipt(op, e))
    ensures FinalEnvelope(PendingOf(log, op, e)) == EnvelopeOf(log + [Receipt(op, e)])
  {
    assert (log + [Receipt(op, e)])[..|log|] == log;
  }

  lemma AbortedIs(log: seq<Item>, op: Op, e: Entry)
    requires e.stamp.Some? && Widens(op)
    ensures AbortedEnvelope(PendingOf(log, op, e)) == EnvelopeOf(log)
  {
  }

  lemma NoteKeeps(log: seq<Item>, e: Entry)
    ensures EnvelopeOf(log + [Note(e)]) == EnvelopeOf(log)
  {
    assert (log + [Note(e)])[..|log|] == log;
  }

  lemma TornBytes(s: Sys, t: Tale)
    requires Matches(s, t)
    ensures Terminated(s.ledger) == LogBytes(t.log)
  {
    hide DecodeOk, FileMatches, SessionMatches, Legal, LogBytes, Terminated;
    LogBytesEndLine(t.log);
    assert s.ledger == LogBytes(t.log) + s.ledger[|LogBytes(t.log)|..];
    TerminatedIs(LogBytes(t.log), s.ledger[|LogBytes(t.log)|..]);
  }

  /** What `inspect_prepared` finds tells the three pending cases apart. */
  lemma InspectMatches(s: Sys, t: Tale)
    requires Matches(s, t) && !t.intent.Idle?
    ensures s.file.Some? && s.file.value.pending.Some?
    ensures var p := PreparedOf(s.file.value.pending.value);
            Inspect(s.ledger, p) ==
            if t.intent.Recorded? then Present
            else if s.ledger == LogBytes(t.log) then Absent
            else Ambiguous
  {
    hide DecodeOk, EventFor, OpOk, Legal, Inspect, EnvelopeOf, Apply, PreviousOf;
    var e := t.intent.event;
    var base := if t.intent.Recorded? then t.log[..|t.log| - 1] else t.log;
    var torn := s.ledger[|LogBytes(base)|..];
    assert s.ledger == LogBytes(base) + torn;
    assert torn == Line(e)[..|torn|];
    InspectAfter(LogBytes(base), e, |torn|);
  }

  lemma RecoveringOf(s: Sys, t: Tale)
    requires Matches(s, t) && !t.intent.Idle? && s.session.Held?
    ensures Recovering(s)
  {
    OwedBaseHolds(s, t);
    PendingReceipt(s, t);
    hide DecodeOk, Inspect, FileMatches, Legal, LogBytes, BaseVerified, TornTail;
  }

  lemma OwedBaseHolds(s: Sys, t: Tale)
    requires Matches(s, t) && !t.intent.Idle?
    ensures s.file.Some? && BaseVerified(s.file.value, s.ledger)
  {
    var log := if t.intent.Recorded? then t.log[..|t.log| - 1] else t.log;
    LastWitnessHolds(log, s.ledger);
    hide DecodeOk, Legal, LegalItem, LogBytes, Line, Replay, LastWitness, Witnessed, Apply, CheckpointOf, TornTail,
      SessionMatches;
  }

  lemma PendingReceipt(s: Sys, t: Tale)
    requires Matches(s, t) && !t.intent.Idle?
    ensures s.file.Some? && s.file.value.pending.Some? && DecodeOk(s.file.value)
    ensures s.file.value.pending.value.receipt == Sha256(Line(s.file.value.pending.value.event))
  {
    hide DecodeOk, Legal, LegalItem, LogBytes, Line, Replay, LastWitness, Apply, CheckpointOf, TornTail, SessionMatches;
  }

  // ---------------------------------------------------------------- simulation, step by step

  lemma LeaseFacts(s: Sys, t: Tale)
    requires Matches(s, t) && s.session.Lease?
    ensures t.intent.Idle? && s.session.base == EnvelopeOf(t.log)
    ensures EndsLine(s.ledger) ==> s.ledger == LogBytes(t.log)
  {
    TornBytes(s, t);
    hide DecodeOk, EnvelopeOf;
  }

  lemma PendingSaved(s: Sys, s': Sys, t: Tale, op: Op, e: Entry)
    requires Matches(s, t) && s.ledger == LogBytes(t.log) && LegalItem(t.log, Receipt(op, e))
    requires s'.ledger == s.ledger && s'.file == Some(PendingOf(t.log, op, e)) && DecodeOk(s'.file.value)
    requires s'.session.Free? || s'.session.Committing?
    ensures Matches(s', Tale(t.log, Intended(op, e)))
  {
    LineShape(e);
    hide DecodeOk, EventFor, OpOk, PendingEnvelope, EnvelopeOf;
    assert s'.ledger[|LogBytes(t.log)|..] == [];
  }

  lemma IntentLegal(s: Sys, t: Tale, op: Op, e: Entry)
    requires Matches(s, t) && s.session.Lease? && EndsLine(s.ledger)
    requires OpOk(op, s.session.base.grants, s.session.base.revision)
    requires EventFor(op, e, s.session.base.revision + 1)
    ensures s.ledger == LogBytes(t.log) && LegalItem(t.log, Receipt(op, e))
    ensures PendingEnvelope(s.session.base, op, e, CheckpointOf(s.ledger)) == PendingOf(t.log, op, e)
  {
    LeaseFacts(s, t);
    hide Matches, DecodeOk, EventFor, OpOk, PendingEnvelope, LogBytes, CheckpointOf;
  }

  lemma SavePendingSimulates(s: Sys, op: Op, e: Entry, saved: Saved, s': Sys, t: Tale) returns (t': Tale)
    requires Matches(s, t) && DoesSavePending(s, op, e, saved, s')
    ensures Matches(s', t') && SavedStep(t, saved, Intended(op, e), t')
  {
    IntentLegal(s, t, op, e);
    hide Matches, DecodeOk, EventFor, OpOk, PendingEnvelope, LegalItem, PendingOf, EndsLine, CheckpointOf, LogBytes;
    if saved.FailedOld? {
      t' := t;
      SessionOnly(s, s', t);
    } else {
      t' := Tale(t.log, Intended(op, e));
      PendingSaved(s, s', t, op, e);
    }
  }

  /** The last byte of an owed receipt commits the transition. */
  lemma RecordSimulates(s: Sys, s': Sys, t: Tale, t': Tale)
    requires Matches(s, t) && t.intent.Intended?
    requires s'.file == s.file && s'.ledger == LogBytes(t.log) + Line(t.intent.event)
    requires !s'.session.Lease? && !s'.session.Committing?
    requires t' == Tale(t.log + [Receipt(t.intent.op, t.intent.event)], Recorded(t.intent.op, t.intent.event))
    ensures Matches(s', t') && LogStep(t.log, t'.log)
  {
    hide DecodeOk, EventFor, OpOk, PendingEnvelope, EnvelopeOf, Fits;
    var item := Receipt(t.intent.op, t.intent.event);
    LegalStep(t.log, item);
    LogBytesStep(t.log, item);
    assert (t.log + [item])[..|t.log|] == t.log;
    assert s'.ledger[|LogBytes(t'.log)|..] == [];
  }

  lemma OwedLine(s: Sys, t: Tale)
    requires Matches(s, t) && t.intent.Intended?
    ensures |Line(t.intent.event)| <= MAX_ENTRY_BYTES
  {
    hide DecodeOk, OpOk, PendingEnvelope, EnvelopeOf, Legal;
  }

  /** Anything less leaves the transition owed. */
  lemma TearSimulates(s: Sys, kept: nat, s': Sys, t: Tale)
    requires Matches(s, t) && t.intent.Intended? && kept < |Line(t.intent.event)|
    requires s'.file == s.file && s'.ledger == LogBytes(t.log) + Line(t.intent.event)[..kept]
    requires s'.session.Free?
    ensures Matches(s', t)
  {
    OwedLine(s, t);
    TornFile(s, s', t, kept);
    TornLine(t.intent.event, kept);
    hide DecodeOk, FileMatches, Legal, LogBytes, TornTail, Line;
    assert s'.ledger[|LogBytes(t.log)|..] == Line(t.intent.event)[..kept];
  }

  lemma TornFile(s: Sys, s': Sys, t: Tale, kept: nat)
    requires Matches(s, t) && t.intent.Intended? && kept < |Line(t.intent.event)|
    requires s'.file == s.file && s'.ledger == LogBytes(t.log) + Line(t.intent.event)[..kept]
    ensures FileMatches(s'.file, s'.ledger, t)
  {
    hide DecodeOk, LegalItem, PendingOf, EventFor, Legal, LogBytes, Line, TornTail, SessionMatches;
    var torn := Line(t.intent.event)[..kept];
    assert s'.ledger[|LogBytes(t.log)|..] == torn;
    assert torn <= Line(t.intent.event) && torn != Line(t.intent.event);
  }

  /** Writing part or all of an owed receipt: only the whole line commits. */
  lemma ReceiptSimulates(s: Sys, kept: nat, ok: bool, next: Session, s': Sys, t: Tale) returns (t': Tale)
    requires Matches(s, t) && t.intent.Intended? && s.ledger == LogBytes(t.log)
    requires Appends(s, t.intent.event, kept, ok, next, s')
    requires next.Held? || next.Committed?
    ensures Matches(s', t') && LogStep(t.log, t'.log) && ReceiptStep(t, kept, t')
    ensures Settled(t') == if t'.intent.Recorded? then t'.log else Settled(t)
  {
    hide Matches, Fits, Terminated, LogBytes, LogStep;
    TornBytes(s, t);
    SameLog(t.log);
    var op, e := t.intent.op, t.intent.event;
    if kept == |Line(e)| {
      assert Line(e)[..kept] == Line(e);
      t' := Tale(t.log + [Receipt(op, e)], Recorded(op, e));
      RecordSimulates(s, s', t, t');
    } else {
      t' := t;
      TearSimulates(s, kept, s', t);
    }
  }

  lemma FinalSimulates(s: Sys, saved: Saved, owner: nat, s': Sys, t: Tale) returns (t': Tale)
    requires Matches(s, t) && t.intent.Recorded?
    requires Saves(s, FinalEnvelope(s.file.value), saved, Lease(owner, FinalEnvelope(s.file.value)), s')
    ensures Matches(s', t') && SavedStep(t, saved, Idle, t') && Settled(t') == Settled(t)
    ensures s'.ledger == LogBytes(t'.log)
  {
    hide DecodeOk, FinalEnvelope, EnvelopeOf, EventFor, OpOk;
    var base := t.log[..|t.log| - 1];
    FinalIs(base, t.intent.op, t.intent.event);
    assert base + [Receipt(t.intent.op, t.intent.event)] == t.log;
    hide DecodeOk, EnvelopeOf, AbortedEnvelope, Legal, LogBytes, Matches, LegalItem;
    if saved.FailedOld? {
      t' := t;
      FreedMatches(s, s', t);
    } else {
      t' := Tale(t.log, Idle);
      CleanMatches(s', t.log);
    }
  }

  /** What an aborted issue goes back to is the envelope of the log. */
  lemma IntendedFile(s: Sys, t: Tale)
    requires Matches(s, t) && t.intent.Intended? && t.intent.op.Issue?
    ensures AbortedEnvelope(s.file.value) == EnvelopeOf(t.log) && Legal(t.log)
  {
    hide DecodeOk, Line, LogBytes, Legal, OpOk, AbortedEnvelope, PendingOf, EnvelopeOf, CheckpointOf, SessionMatches;
    AbortedIs(t.log, t.intent.op, t.intent.event);
  }

  lemma CleanMatches(s: Sys, log: seq<Item>)
    requires Legal(log) && s.ledger == LogBytes(log) && s.file == Some(EnvelopeOf(log)) && DecodeOk(EnvelopeOf(log))
    requires s.session.Free? || (s.session.Lease? && s.session.base == EnvelopeOf(log))
    ensures Matches(s, Tale(log, Idle))
  {
    hide DecodeOk, EnvelopeOf, Legal, LogBytes;
  }

  lemma FreedMatches(s: Sys, s': Sys, t: Tale)
    requires Matches(s, t) && s' == s.(session := Free)
    ensures Matches(s', t)
  {
    hide DecodeOk, FileMatches, Legal, LogBytes;
  }

  lemma AbortSimulates(s: Sys, saved: Saved, owner: nat, s': Sys, t: Tale) returns (t': Tale)
    requires Matches(s, t) && t.intent.Intended? && t.intent.op.Issue? && s.ledger == LogBytes(t.log)
    requires Saves(s, AbortedEnvelope(s.file.value), saved, Lease(owner, AbortedEnvelope(s.file.value)), s')
    ensures Matches(s', t') && SavedStep(t, saved, Idle, t') && Settled(t') == Settled(t)
    ensures s'.ledger == LogBytes(t'.log)
  {
    IntendedFile(s, t);
    t' := if saved.FailedOld? then t else Tale(t.log, Idle);
  }

  lemma NoteWritten(s: Sys, e: Entry, s': Sys, t: Tale, t': Tale)
    requires Matches(s, t) && s.session.Lease? && LegalNote(s.session.base.grants, e)
    requires s'.file == s.file && s'.ledger == LogBytes(t.log) + Line(e)
    requires s'.session == s.session || s'.session.Free?
    requires t' == Tale(t.log + [Note(e)], Idle)
    ensures Matches(s', t') && LogStep(t.log, t'.log)
  {
    hide DecodeOk, EntryOk, Fits;
    var item := Note(e);
    LegalStep(t.log, item);
    LogBytesStep(t.log, item);
    NoteKeeps(t.log, e);
    assert (t.log + [item])[..|t.log|] == t.log;
    assert s'.ledger[|LogBytes(t'.log)|..] == [];
    LeaseHasFile(s, t, e.agent);
  }

  /** A grant to note about means there is an envelope. */
  lemma LeaseHasFile(s: Sys, t: Tale, id: string)
    requires Matches(s, t) && s.session.Lease? && id in s.session.base.grants
    ensures s.file.Some?
  {
    hide DecodeOk;
  }

  lemma NoteFits(grants: map<string, Grant>, e: Entry)
    requires LegalNote(grants, e)
    ensures |Line(e)| <= MAX_ENTRY_BYTES
  {
  }

  lemma TornLine(e: Entry, kept: nat)
    requires kept < |Line(e)| <= MAX_ENTRY_BYTES
    ensures TornTail(Line(e)[..kept])
  {
    LineShape(e);
    assert Line(e)[..kept] <= Line(e)[..|Line(e)| - 1];
  }

  lemma NoteTorn(s: Sys, e: Entry, kept: nat, s': Sys, t: Tale)
    requires Matches(s, t) && s.session.Lease? && LegalNote(s.session.base.grants, e) && kept < |Line(e)|
    requires s' == s.(ledger := LogBytes(t.log) + Line(e)[..kept], session := Free)
    ensures Matches(s', t)
  {
    LeaseHasFile(s, t, e.agent);
    NoteFits(s.session.base.grants, e);
    hide DecodeOk, EntryOk, Fits, EnvelopeOf, LegalNote, Legal, LogBytes, Terminated;
    TornLine(e, kept);
    assert s'.ledger[|LogBytes(t.log)|..] == Line(e)[..kept];
  }

  lemma LogStays(log: seq<Item>)
    ensures LogStep(log, log)
  {
  }

  lemma NoteSimulates(s: Sys, e: Entry, kept: nat, ok: bool, s': Sys, t: Tale) returns (t': Tale)
    requires Matches(s, t) && s.session.Lease? && LegalNote(s.session.base.grants, e)
    requires Appends(s, e, kept, ok, s.session, s')
    ensures Matches(s', t') && LogStep(t.log, t'.log)
    ensures NoteStep(t, e, kept, t')
  {
    NoteLedger(s, e, kept, ok, s', t);
    LogStays(t.log);
    NoteStepIs(t, e, kept);
    hide *;
    if kept == |Line(e)| {
      t' := Tale(t.log + [Note(e)], Idle);
      NoteWritten(s, e, s', t, t');
    } else {
      t' := t;
      NoteTorn(s, e, kept, s', t);
    }
  }

  lemma NoteStepIs(t: Tale, e: Entry, kept: nat)
    ensures kept == |Line(e)| ==> NoteStep(t, e, kept, Tale(t.log + [Note(e)], Idle)) && Line(e)[..kept] == Line(e)
    ensures kept != |Line(e)| ==> NoteStep(t, e, kept, t)
  {
    hide Line;
  }

  lemma NoteLedger(s: Sys, e: Entry, kept: nat, ok: bool, s': Sys, t: Tale)
    requires Matches(s, t) && Appends(s, e, kept, ok, s.session, s')
    ensures kept <= |Line(e)| && (ok ==> kept == |Line(e)|)
    ensures s' == s.(ledger := LogBytes(t.log) + Line(e)[..kept], session := if ok then s.session else Free)
  {
    TornBytes(s, t);
    hide Matches, Line, LogBytes, Terminated, Fits;
  }

  lemma PendingFacts(s: Sys, t: Tale)
    requires Matches(s, t) && s.file.Some? && s.file.value.pending.Some?
    ensures !t.intent.Idle?
    ensures s.file.value.pending.value.event == t.intent.event
    ensures s.file.value.pending.value.kind == KindOf(t.intent.op)
  {
    hide DecodeOk, LogBytes, Legal, LegalItem, Line, SessionMatches, TornTail, Replay, LastWitness, CheckpointOf, Apply;
  }

  lemma FinishSimulates(s: Sys, saved: Saved, s': Sys, t: Tale) returns (t': Tale)
    requires Matches(s, t) && DoesFinish(s, saved, s')
    ensures !t.intent.Idle? && Matches(s', t') && SavedStep(t, saved, Idle, t')
    ensures Settled(t') == Settled(t) && s'.ledger == LogBytes(t'.log)
  {
    PendingFacts(s, t);
    InspectMatches(s, t);
    hide Matches, DecodeOk, FinalEnvelope, Inspect, BaseVerified, Saves;
    t' := FinalSimulates(s, saved, s.session.owner, s', t);
  }

  lemma AbortingSimulates(s: Sys, saved: Saved, s': Sys, t: Tale) returns (t': Tale)
    requires Matches(s, t) && DoesAbort(s, saved, s')
    ensures !t.intent.Idle? && Matches(s', t') && SavedStep(t, saved, Idle, t')
    ensures Settled(t') == Settled(t) && s'.ledger == LogBytes(t'.log)
  {
    PendingFacts(s, t);
    InspectMatches(s, t);
    hide Matches, DecodeOk, AbortedEnvelope, Inspect, BaseVerified, Saves;
    t' := AbortSimulates(s, saved, s.session.owner, s', t);
  }

  lemma RollForwardSimulates(s: Sys, kept: nat, ok: bool, s': Sys, t: Tale) returns (t': Tale)
    requires Matches(s, t) && DoesRollForward(s, kept, ok, s')
    ensures Matches(s', t') && LogStep(t.log, t'.log) && ReceiptStep(t, kept, t') && Settled(t') == Settled(t)
  {
    PendingFacts(s, t);
    InspectMatches(s, t);
    hide Matches, DecodeOk, Inspect, BaseVerified, Appends, LogStep;
    t' := ReceiptSimulates(s, kept, ok, s.session, s', t);
  }

  /** Recovery never changes what the log is going to be. */
  lemma RecoveryStepSimulates(s: Sys, step: Step, s': Sys, t: Tale) returns (t': Tale)
    requires Matches(s, t) && Does(s, step, s')
    requires step.Finish? || step.Abort? || step.RollForward?
    ensures Matches(s', t') && LogStep(t.log, t'.log) && TaleStep(t, step, t') && Settled(t') == Settled(t)
    ensures !t.intent.Idle? && (t'.intent.Idle? ==> s'.ledger == LogBytes(t'.log))
  {
    SameLog(t.log);
    hide Matches, DoesFinish, DoesAbort, DoesRollForward, LogStep, Settled;
    match step
    case Finish(saved) => t' := FinishSimulates(s, saved, s', t);
    case Abort(saved) => t' := AbortingSimulates(s, saved, s', t);
    case RollForward(kept, ok) => t' := RollForwardSimulates(s, kept, ok, s', t);
  }

  lemma RepairSimulates(s: Sys, ok: bool, s': Sys, t: Tale)
    requires Matches(s, t) && DoesRepairTail(s, ok, s')
    ensures Matches(s', t) && LogStep(t.log, t.log)
  {
    TornBytes(s, t);
    assert s'.ledger[|LogBytes(t.log)|..] == [];
  }

  lemma SessionOnly(s: Sys, s': Sys, t: Tale)
    requires Matches(s, t) && s' == s.(session := s'.session) && (s'.session.Free? || s'.session.Held?)
    ensures Matches(s', t) && LogStep(t.log, t.log)
  {
  }

  lemma LoadSimulates(s: Sys, s': Sys, t: Tale)
    requires Matches(s, t) && (DoesLoadMissing(s, s') || DoesLoadClean(s, s'))
    ensures Matches(s', t) && LogStep(t.log, t.log)
  {
    assert EnvelopeOf([]) == EMPTY;
    LogBytesEndLine(t.log);
  }

  lemma CommittingFacts(s: Sys, t: Tale)
    requires Matches(s, t) && (s.session.Committing? || s.session.Committed?)
    ensures s.file.Some? && s.file.value.pending.Some?
    ensures s.file.value.pending.value.event == t.intent.event
    ensures if s.session.Committing? then t.intent.Intended? && s.ledger == LogBytes(t.log) else t.intent.Recorded?
  {
  }

  lemma SameLog(log: seq<Item>)
    ensures LogStep(log, log)
  {
  }

  /** What the lease holder does to the files. */
  lemma CommitStepSimulates(s: Sys, step: Step, s': Sys, t: Tale) returns (t': Tale)
    requires Matches(s, t) && Does(s, step, s')
    requires step.SavePending? || step.AppendReceipt? || step.SaveFinal? || step.AppendNote?
    ensures Matches(s', t') && LogStep(t.log, t'.log) && TaleStep(t, step, t')
  {
    hide Matches, DoesSavePending, LogStep, AtCheckpoint, Appends, Saves, LegalNote, FinalEnvelope;
    SameLog(t.log);
    match step
    case SavePending(op, e, saved) => t' := SavePendingSimulates(s, op, e, saved, s', t);
    case AppendReceipt(kept, ok) =>
      CommittingFacts(s, t);
      t' := ReceiptSimulates(s, kept, ok, Committed(s.session.owner), s', t);
    case SaveFinal(saved) =>
      CommittingFacts(s, t);
      t' := FinalSimulates(s, saved, s.session.owner, s', t);
    case AppendNote(e, kept, ok) => t' := NoteSimulates(s, e, kept, ok, s', t);
  }

  /** Every concrete step is a step of the atomic machine or leaves it where it was. */
  lemma StepSimulates(s: Sys, step: Step, s': Sys, t: Tale) returns (t': Tale)
    requires Matches(s, t) && Does(s, step, s')
    ensures Matches(s', t') && LogStep(t.log, t'.log) && TaleStep(t, step, t')
  {
    hide Matches, DoesLoadMissing, DoesLoadClean, DoesRepairTail, LogStep, DoesSavePending, DoesAppendReceipt,
      DoesSaveFinal, DoesAppendNote, DoesFinish, DoesAbort, DoesRollForward, SavedStep, ReceiptStep, NoteStep;
    SameLog(t.log);
    match step
    case Acquire(_) => t' := t; SessionOnly(s, s', t);
    case Stop => t' := t; SessionOnly(s, s', t);
    case LoadMissing => t' := t; LoadSimulates(s, s', t);
    case LoadClean => t' := t; LoadSimulates(s, s', t);
    case Finish(_) => t' := RecoveryStepSimulates(s, step, s', t);
    case Abort(_) => t' := RecoveryStepSimulates(s, step, s', t);
    case RollForward(_, _) => t' := RecoveryStepSimulates(s, step, s', t);
    case RepairTail(ok) => t' := t; RepairSimulates(s, ok, s', t);
    case _ => t' := CommitStepSimulates(s, step, s', t);
  }

  // ---------------------------------------------------------------- all runs

  ghost predicate Tells(run: seq<Sys>, tales: seq<Tale>) {
    && |tales| == |run|
    && (forall i :: 0 <= i < |run| ==> Matches(run[i], tales[i]))
    && forall i :: 0 <= i < |run| - 1 ==> LogStep(tales[i].log, tales[i + 1].log)
  }

  /** The refinement: beside every run of the two-file protocol goes a run of the
      one-step log machine, from the empty log, with the commit at the receipt append. */
  lemma {:induction false} RunRefines(run: seq<Sys>) returns (tales: seq<Tale>)
    requires IsRun(run)
    ensures Tells(run, tales) && tales[0] == Tale([], Idle)
  {
    hide Matches, Does, LogStep, TaleStep;
    var n := |run| - 1;
    if n == 0 {
      StartMatches();
      tales := [Tale([], Idle)];
    } else {
      assert IsRun(run[..n]);
      var before := RunRefines(run[..n]);
      assert Next(run[n - 1], run[n]);
      var step :| Does(run[n - 1], step, run[n]);
      var t := StepSimulates(run[n - 1], step, run[n], before[n - 1]);
      tales := before + [t];
    }
  }

  lemma StartMatches()
    ensures Matches(START, Tale([], Idle))
  {
  }

  ghost predicate Reachable(s: Sys) {
    exists run :: IsRun(run) && run[|run| - 1] == s
  }

  lemma ReachableMatches(s: Sys) returns (t: Tale)
    requires Reachable(s)
    ensures Matches(s, t)
  {
    var run :| IsRun(run) && run[|run| - 1] == s;
    var tales := RunRefines(run);
    t := tales[|run| - 1];
  }

  lemma ReachableStep(s: Sys, s': Sys)
    requires Reachable(s) && Next(s, s')
    ensures Reachable(s')
  {
    hide Next;
    var run :| IsRun(run) && run[|run| - 1] == s;
    assert IsRun(run + [s']);
  }

  /** A file cut into whole entries and a torn tail. */
  predicate Reads(ledger: seq<byte>, es: seq<Entry>, torn: seq<byte>) {
    ledger == EntryBytes(es) + torn && NL !in torn
  }

  lemma EntriesAre(s: Sys, t: Tale, es: seq<Entry>, torn: seq<byte>)
    requires Matches(s, t) && Reads(s.ledger, es, torn)
    ensures es == Events(t.log)
  {
    TornBytes(s, t);
    EntryBytesEndLine(es);
    TerminatedIs(EntryBytes(es), torn);
    LogBytesEvents(t.log);
    EntryBytesInjective(es, Events(t.log));
  }

  lemma LogReads(ledger: seq<byte>, log: seq<Item>)
    requires LogBytes(log) <= ledger && NL !in ledger[|LogBytes(log)|..]
    ensures Reads(ledger, Events(log), ledger[|LogBytes(log)|..])
  {
    LogBytesEvents(log);
  }

  lemma StateMatches(run: seq<Sys>, i: nat) returns (t: Tale)
    requires IsRun(run) && i < |run|
    ensures Matches(run[i], t)
  {
    var tales := RunRefines(run);
    t := tales[i];
  }

  /** At every state of every run the ledger reads as entries and at most one torn tail. */
  lemma LedgerReads(run: seq<Sys>, i: nat) returns (es: seq<Entry>, torn: seq<byte>)
    requires IsRun(run) && i < |run|
    ensures Reads(run[i].ledger, es, torn)
  {
    var t := StateMatches(run, i);
    LogReads(run[i].ledger, t.log);
    es, torn := Events(t.log), run[i].ledger[|LogBytes(t.log)|..];
  }

  /** No ledger ever holds a return character, so every one of them reads back exactly. */
  lemma NoReturns(run: seq<Sys>, i: nat)
    requires IsRun(run) && i < |run|
    ensures CR !in run[i].ledger
  {
    var t := StateMatches(run, i);
    hide *;
    MatchedTail(run[i], t);
    LogNoReturns(t.log);
    NoneInBoth(run[i].ledger, |LogBytes(t.log)|);
  }

  lemma MatchedTail(s: Sys, t: Tale)
    requires Matches(s, t)
    ensures LogBytes(t.log) == s.ledger[..|LogBytes(t.log)|] && CR !in s.ledger[|LogBytes(t.log)|..]
  {
    hide DecodeOk, FileMatches, SessionMatches, Legal, LogBytes;
  }

  lemma NoneInBoth(b: seq<byte>, n: nat)
    requires n <= |b| && CR !in b[..n] && CR !in b[n..]
    ensures CR !in b
  {
    assert b == b[..n] + b[n..];
  }

  lemma {:induction false} LogNoReturns(log: seq<Item>)
    ensures CR !in LogBytes(log)
  {
    if log != [] {
      LogNoReturns(log[..|log| - 1]);
      LineShape(log[|log| - 1].event);
    }
  }

  /** The audit guarantee of every ledger any run can produce. The log behind it is the one
      the files match, so it knows which grants a PROVISION line provided; what the bytes
      show without it is in `AuditOrder`. */
  lemma AuditedReads(run: seq<Sys>, i: nat, es: seq<Entry>, torn: seq<byte>) returns (t: Tale)
    requires IsRun(run) && i < |run| && Reads(run[i].ledger, es, torn)
    ensures Matches(run[i], t) && Legal(t.log) && Events(t.log) == es
    ensures ReadsJustified(t.log) && AuditOrder(es)
  {
    t := StateMatches(run, i);
    EntriesAre(run[i], t, es, torn);
    LegalReadsJustified(t.log);
    LegalAuditOrder(t.log);
  }

  /** Receipts count 1, 2, ..., k; the stored revision is k, or k - 1 or k while a
      transition from it is pending. */
  lemma ReceiptNumbering(run: seq<Sys>, i: nat, es: seq<Entry>, torn: seq<byte>)
    requires IsRun(run) && i < |run| && Reads(run[i].ledger, es, torn)
    ensures CountsUp(Stamps(es))
    ensures run[i].file.None? ==> es == []
    ensures run[i].file.Some? && run[i].file.value.pending.None? ==> |Stamps(es)| == run[i].file.value.revision
    ensures run[i].file.Some? && run[i].file.value.pending.Some? ==>
              |Stamps(es)| == run[i].file.value.revision || |Stamps(es)| == run[i].file.value.revision + 1
  {
    var t := StateMatches(run, i);
    EntriesAre(run[i], t, es, torn);
    RevisionMatches(run[i], t);
    hide Matches, IsRun;
    LegalNumbering(t.log);
  }

  lemma RevisionMatches(s: Sys, t: Tale)
    requires Matches(s, t)
    ensures Legal(t.log)
    ensures s.file.None? ==> t.log == []
    ensures s.file.Some? && s.file.value.pending.None? ==> Receipts(t.log) == s.file.value.revision
    ensures s.file.Some? && s.file.value.pending.Some? ==>
              Receipts(t.log) == s.file.value.revision || Receipts(t.log) == s.file.value.revision + 1
  {
    hide DecodeOk, LegalItem, Apply;
  }

  /** Whoever holds a lease has installed exactly the replay of the ledger's receipts. */
  lemma LeaseIsReplay(run: seq<Sys>, i: nat, es: seq<Entry>, torn: seq<byte>) returns (log: seq<Item>)
    requires IsRun(run) && i < |run| && run[i].session.Lease? && Reads(run[i].ledger, es, torn)
    ensures Legal(log) && Events(log) == es
    ensures run[i].session.base.grants == Replay(log) && run[i].session.base.revision == Receipts(log)
  {
    var t := StateMatches(run, i);
    EntriesAre(run[i], t, es, torn);
    log := t.log;
  }

  // ---------------------------------------------------------------- effective grants

  /** What `load` shows: the top-level grants of the envelope. */
  function Effective(s: Sys): map<string, Grant> {
    if s.file.None? then map[] else s.file.value.grants
  }

  function EffectiveOf(t: Tale): map<string, Grant> {
    match t.intent
    case Idle => Replay(t.log)
    case Intended(op, _) => if Widens(op) then Replay(t.log) else Apply(op, Replay(t.log))
    case Recorded(op, _) => if t.log != [] && Widens(op) then Replay(t.log[..|t.log| - 1]) else Replay(t.log)
  }

  lemma EffectiveMatches(s: Sys, t: Tale)
    requires Matches(s, t)
    ensures Effective(s) == EffectiveOf(t)
  {
    hide DecodeOk, LegalItem, Apply, Widens;
  }

  lemma DecodedTightens(e: Envelope)
    requires DecodeOk(e) && e.pending.Some?
    ensures OnlyTightened(e.grants, e.pending.value.grants)
  {
    hide RecordsOk, EventOk, BaseOk, PreviousOk;
  }

  lemma LeaseBaseEffective(s: Sys, t: Tale)
    requires Matches(s, t) && s.session.Lease?
    ensures Effective(s) == s.session.base.grants
  {
    hide DecodeOk;
  }

  lemma SavesTightens(s: Sys, e: Envelope, saved: Saved, next: Session, s': Sys)
    requires Saves(s, e, saved, next, s') && OnlyTightened(Effective(s), e.grants)
    ensures OnlyTightened(Effective(s), Effective(s'))
  {
    hide DecodeOk;
  }

  lemma SavePendingTightens(s: Sys, op: Op, e: Entry, saved: Saved, s': Sys, t: Tale)
    requires Matches(s, t) && DoesSavePending(s, op, e, saved, s')
    ensures OnlyTightened(Effective(s), Effective(s'))
  {
    LeaseBaseEffective(s, t);
    var base := s.session.base;
    ApplyTightens(op, base.grants, base.revision);
    PendingTightens(op, base.grants);
    hide DecodeOk, Matches, Saves, OnlyTightened, Effective, Apply, OpOk, EventFor, EndsLine, CheckpointOf;
    SavesTightens(s, PendingEnvelope(base, op, e, CheckpointOf(s.ledger)), saved, Committing(s.session.owner), s');
  }

  lemma PendingTightens(op: Op, grants: map<string, Grant>)
    requires OnlyTightened(grants, Apply(op, grants))
    ensures OnlyTightened(grants, grants)
  {
  }

  lemma FinalTightens(s: Sys, saved: Saved, owner: nat, s': Sys)
    requires s.file.Some? && s.file.value.pending.Some? && DecodeOk(s.file.value)
    requires Saves(s, FinalEnvelope(s.file.value), saved, Lease(owner, FinalEnvelope(s.file.value)), s')
    ensures OnlyTightened(Effective(s), Effective(s'))
  {
    DecodedTightens(s.file.value);
    hide DecodeOk;
    SavesTightens(s, FinalEnvelope(s.file.value), saved, Lease(owner, FinalEnvelope(s.file.value)), s');
  }

  lemma OtherStepsKeepEffective(s: Sys, step: Step, s': Sys)
    requires Does(s, step, s') && !step.SavePending? && !step.Finish? && !step.SaveFinal?
    ensures Effective(s') == Effective(s)
  {
    hide DecodeOk, Inspect, Verified, BaseVerified;
  }

  lemma StepTightens(s: Sys, step: Step, s': Sys, t: Tale)
    requires Matches(s, t) && Does(s, step, s')
    ensures OnlyTightened(Effective(s), Effective(s'))
  {
    hide DecodeOk, Matches, Verified, Inspect, OnlyTightened, Saves;
    match step
    case SavePending(op, e, saved) => SavePendingTightens(s, op, e, saved, s', t);
    case Finish(saved) => FinalTightens(s, saved, s.session.owner, s');
    case SaveFinal(saved) => FileDecodes(s, t); FinalTightens(s, saved, s.session.owner, s');
    case _ => OtherStepsKeepEffective(s, step, s'); Unchanged(Effective(s));
  }

  lemma Unchanged(grants: map<string, Grant>)
    ensures OnlyTightened(grants, grants)
  {
  }

  /** Through every success, failure, abort, roll-forward and crash, an effective grant
      never disappears, changes in nothing but its status, and is never loosened. */
  lemma EffectiveTightens(s: Sys, s': Sys)
    requires Reachable(s) && Next(s, s')
    ensures OnlyTightened(Effective(s), Effective(s'))
  {
    hide Does, Matches, OnlyTightened;
    var t := ReachableMatches(s);
    var step :| Does(s, step, s');
    StepTightens(s, step, s', t);
  }

  lemma FileDecodes(s: Sys, t: Tale)
    requires Matches(s, t) && s.file.Some?
    ensures DecodeOk(s.file.value)
  {
  }

  lemma {:induction false} KnownIntroduced(log: seq<Item>, id: string) returns (k: nat)
    requires Legal(log) && id in Replay(log)
    ensures k < |log| && Introduces(log[k], id)
  {
    var m := |log| - 1;
    if Introduces(log[m], id) { k := m; } else { k := KnownIntroduced(log[..m], id); }
  }

  lemma KeptByApply(intent: Intent, grants: map<string, Grant>, id: string)
    requires intent.Intended? && !Widens(intent.op)
    ensures id in Apply(intent.op, grants) <==> id in grants
  {
  }

  lemma EffectiveKnown(s: Sys, t: Tale, id: string)
    requires Matches(s, t) && id in Effective(s)
    ensures id in Replay(t.log)
  {
    hide DecodeOk, FileMatches, SessionMatches, Replay, Legal;
    EffectiveMatches(s, t);
    if t.intent.Recorded? && t.log != [] { ReplayTightens(t.log, |t.log| - 1); }
    if t.intent.Intended? && !Widens(t.intent.op) { KeptByApply(t.intent, Replay(t.log), id); }
  }

  /** A pending issue or demo seed is not usable: whatever is effective was introduced by a
      receipt that is already in the ledger. */
  lemma EffectiveIntroduced(run: seq<Sys>, i: nat, es: seq<Entry>, torn: seq<byte>, id: string)
    returns (t: Tale, k: nat)
    requires IsRun(run) && i < |run| && Reads(run[i].ledger, es, torn) && id in Effective(run[i])
    ensures Matches(run[i], t) && Legal(t.log) && Events(t.log) == es
    ensures k < |t.log| && Introduces(t.log[k], id)
  {
    t := StateMatches(run, i);
    EntriesAre(run[i], t, es, torn);
    EffectiveKnown(run[i], t, id);
    hide DecodeOk, FileMatches, SessionMatches, IsRun;
    k := KnownIntroduced(t.log, id);
  }
}
