/** What restart recovery guarantees: it converges, whatever crashes it, and a receipt
    torn under a pending envelope stops it for good. */
module Recovery {
  import opened Bytes
  import opened Outcomes
  import opened Entries
  import opened Grants
  import opened AtomicLog
  import opened Ledger
  import opened Records
  import opened Envelopes
  import opened StopRoom
  import opened Protocol

  // ---------------------------------------------------------------- over whole runs

  lemma TightensTransitive(a: map<string, Grant>, b: map<string, Grant>, c: map<string, Grant>)
    requires OnlyTightened(a, b) && OnlyTightened(b, c)
    ensures OnlyTightened(a, c)
  {
  }

  lemma RunStateReachable(run: seq<Sys>, i: nat)
    requires IsRun(run) && i < |run|
    ensures Reachable(run[i])
  {
    hide Next;
    assert IsRun(run[..i + 1]);
    assert run[..i + 1][i] == run[i];
  }

  /** Statuses over any stretch of any run. */
  lemma {:induction false} RunTightens(run: seq<Sys>, i: nat, j: nat)
    requires IsRun(run) && i <= j < |run|
    ensures OnlyTightened(Effective(run[i]), Effective(run[j]))
    decreases j
  {
    hide OnlyTightened, Next;
    if i == j {
      Unchanged(Effective(run[i]));
    } else {
      RunTightens(run, i, j - 1);
      RunStateReachable(run, j - 1);
      EffectiveTightens(run[j - 1], run[j]);
      TightensTransitive(Effective(run[i]), Effective(run[j - 1]), Effective(run[j]));
    }
  }

  lemma LogStepBytes(log: seq<Item>, log': seq<Item>)
    requires LogStep(log, log')
    ensures LogBytes(log) <= LogBytes(log')
  {
    hide LegalItem;
    if log' != log { assert log'[..|log'| - 1] == log; }
  }

  /** No step cuts into or rewrites a complete line. */
  lemma StepKeepsLines(s: Sys, s': Sys)
    requires Reachable(s) && Next(s, s')
    ensures Terminated(s.ledger) <= Terminated(s'.ledger)
  {
    hide Does, Matches, LogStep, Reachable, Terminated;
    var t := ReachableMatches(s);
    var step :| Does(s, step, s');
    var t' := StepSimulates(s, step, s', t);
    TornBytes(s, t);
    TornBytes(s', t');
    LogStepBytes(t.log, t'.log);
  }

  lemma {:induction false} LinesStay(run: seq<Sys>, i: nat, j: nat)
    requires IsRun(run) && i <= j < |run|
    ensures Terminated(run[i].ledger) <= Terminated(run[j].ledger)
    decreases j
  {
    hide Next, Terminated;
    if i < j {
      LinesStay(run, i, j - 1);
      RunStateReachable(run, j - 1);
      StepKeepsLines(run[j - 1], run[j]);
    }
  }

  /** A witness that verifies once verifies for ever, whatever is appended, torn, rolled
      back or repaired after it. */
  lemma WitnessForever(run: seq<Sys>, i: nat, j: nat, loads: seq<byte> -> Option<Entry>, w: LedgerWitness)
    requires IsRun(run) && i <= j < |run|
    requires ReadsBack(loads) && VerifyWitness(run[i].ledger, loads, w)
    ensures VerifyWitness(run[j].ledger, loads, w)
  {
    LinesStay(run, i, j);
    hide VerifyWitness, IsRun;
    WitnessStable(run[i].ledger, run[j].ledger, loads, w);
  }

  /** The step writes a receipt to its last byte. */
  predicate WritesReceipt(s: Sys, step: Step) {
    && s.file.Some? && s.file.value.pending.Some?
    && (step.AppendReceipt? || step.RollForward?) && step.kept == |Line(s.file.value.pending.value.event)|
  }

  /** The witness that the final envelope is to carry. */
  function OwedWitness(s: Sys): LedgerWitness
    requires s.file.Some? && s.file.value.pending.Some?
  {
    LineWitness(FinalEnvelope(s.file.value).ledgerWitness.value)
  }

  lemma WritesLine(s: Sys, step: Step, s': Sys)
    requires Does(s, step, s') && WritesReceipt(s, step)
    ensures var p := s.file.value.pending.value;
            && CheckpointOf(Terminated(s.ledger)) == p.checkpoint && Fits(p.event)
            && s'.ledger == Terminated(s.ledger) + Line(p.event)
  {
    hide DecodeOk, BaseVerified, Inspect, Terminated, Line, CheckpointOf, Fits;
    var line := Line(s.file.value.pending.value.event);
    assert line[..|line|] == line;
  }

  lemma PendingStamped(s: Sys, t: Tale)
    requires Matches(s, t) && s.file.Some? && s.file.value.pending.Some?
    ensures var p, w := s.file.value.pending.value, OwedWitness(s);
            && EntryOk(p.event) && WitnessShape(w) && p.event.stamp == Some(Stamp(w.transaction, w.revision))
            && w.receipt == Sha256(Line(p.event)) && w.offset == p.checkpoint.offset
  {
    PendingFacts(s, t);
    PendingEntry(s, t);
    StoredPending(s, t);
    hide Matches, DecodeOk, EntryOk, Line, IsTransactionId;
  }

  lemma PendingEntry(s: Sys, t: Tale)
    requires Matches(s, t) && !t.intent.Idle?
    ensures EntryOk(t.intent.event)
  {
    hide DecodeOk, Legal, OpOk, EntryOk, Fits, Replay, Receipts, LogBytes, PendingOf, TornTail, Line, SessionMatches;
  }

  lemma StoredPending(s: Sys, t: Tale)
    requires Matches(s, t) && s.file.Some? && s.file.value.pending.Some?
    ensures var p := s.file.value.pending.value;
            && IsTransactionId(p.transaction) && p.targetRevision > 0
            && p.event.stamp == Some(Stamp(p.transaction, p.targetRevision)) && p.receipt == Sha256(Line(p.event))
  {
    hide FileMatches, SessionMatches, Legal, LogBytes, TornTail, RecordsOk, SemanticsOk, BaseOk, PreviousOk, StoreBytes,
      Line, IsTransactionId;
  }

  /** A receipt once appended verifies at every later state of the run, under the witness
      that its own pending envelope fixes. */
  lemma AppendedForever(run: seq<Sys>, i: nat, step: Step, j: nat, loads: seq<byte> -> Option<Entry>)
    requires IsRun(run) && i < j < |run| && Does(run[i], step, run[i + 1]) && WritesReceipt(run[i], step)
    requires ReadsBack(loads)
    ensures VerifyWitness(run[j].ledger, loads, OwedWitness(run[i]))
  {
    var t := StateMatches(run, i);
    WritesLine(run[i], step, run[i + 1]);
    PendingStamped(run[i], t);
    CheckpointOffset(Terminated(run[i].ledger));
    hide *;
    AppendedVerifies(Terminated(run[i].ledger), run[i].file.value.pending.value.event, loads, OwedWitness(run[i]));
    WitnessForever(run, i + 1, j, loads, OwedWitness(run[i]));
  }

  // ---------------------------------------------------------------- a torn receipt

  /** A pending envelope whose receipt is neither absent nor whole. */
  ghost predicate TornReceipt(s: Sys) {
    && s.file.Some? && s.file.value.pending.Some?
    && Receipted(s) == Ambiguous
  }

  lemma TornSession(s: Sys, t: Tale)
    requires Matches(s, t) && TornReceipt(s)
    ensures s.session.Free? || s.session.Held?
  {
    PendingFacts(s, t);
    InspectMatches(s, t);
    hide Inspect, DecodeOk;
  }

  lemma TornStep(s: Sys, step: Step, s': Sys)
    requires s.session.Free? || s.session.Held?
    requires TornReceipt(s) && Does(s, step, s')
    ensures s'.file == s.file && s'.ledger == s.ledger && (s'.session.Free? || s'.session.Held?)
  {
    hide Inspect, DecodeOk, BaseVerified, Saves, Appends;
  }

  /** With a torn receipt every reload raises: nothing is installed, nothing changes. */
  lemma TornIsStuck(s: Sys, s': Sys)
    requires Reachable(s) && TornReceipt(s) && Next(s, s')
    ensures s'.file == s.file && s'.ledger == s.ledger && !s'.session.Lease? && TornReceipt(s')
  {
    var t := ReachableMatches(s);
    TornSession(s, t);
    hide Matches, Inspect;
    var step :| Does(s, step, s');
    TornStep(s, step, s');
  }

  lemma {:induction false} TornForever(run: seq<Sys>, i: nat, j: nat)
    requires IsRun(run) && i <= j < |run| && TornReceipt(run[i])
    ensures run[j].file == run[i].file && run[j].ledger == run[i].ledger && TornReceipt(run[j])
    ensures i < j ==> !run[j].session.Lease?
    decreases j
  {
    hide TornReceipt, Next;
    if i < j {
      TornForever(run, i, j - 1);
      RunStateReachable(run, j - 1);
      TornIsStuck(run[j - 1], run[j]);
    }
  }

  // ---------------------------------------------------------------- and it happens

  lemma ExtendRun(run: seq<Sys>, step: Step, s': Sys) returns (more: seq<Sys>)
    requires IsRun(run) && Does(run[|run| - 1], step, s')
    ensures more == run + [s'] && IsRun(more)
  {
    more := run + [s'];
    hide Does;
    assert Next(run[|run| - 1], s');
  }

  lemma ExtendTwice(run: seq<Sys>, a: Step, s1: Sys, b: Step, s2: Sys) returns (more: seq<Sys>)
    requires IsRun(run) && Does(run[|run| - 1], a, s1) && Does(s1, b, s2)
    ensures IsRun(more) && run <= more && more[|more| - 1] == s2
  {
    hide Does;
    more := ExtendRun(run, a, s1);
    more := ExtendRun(more, b, s2);
    assert more == run + [s1, s2];
  }

  lemma TornInspection(base: Envelope, op: Op, e: Entry, ledger: seq<byte>, kept: nat)
    requires e.stamp.Some? && 0 < kept < |Line(e)|
    ensures var p := PendingEnvelope(base, op, e, CheckpointOf(ledger)).pending.value;
            Inspect(ledger + Line(e)[..kept], PreparedOf(p)) == Ambiguous
  {
    InspectAfter(ledger, e, kept);
  }

  /** A lease on a clean ledger, and a pending envelope that decodes. */
  predicate CanIntend(s: Sys, op: Op, e: Entry) {
    && s.session.Lease? && EndsLine(s.ledger)
    && OpOk(op, s.session.base.grants, s.session.base.revision) && EventFor(op, e, s.session.base.revision + 1)
    && DecodeOk(PendingEnvelope(s.session.base, op, e, CheckpointOf(s.ledger)))
  }

  lemma TornSave(s: Sys, op: Op, e: Entry) returns (s1: Sys)
    requires CanIntend(s, op, e)
    ensures Does(s, SavePending(op, e, Done), s1) && s1.session.Committing? && s1.ledger == s.ledger
    ensures s1.file == Some(PendingEnvelope(s.session.base, op, e, CheckpointOf(s.ledger)))
  {
    EventStamped(op, e, s.session.base.revision + 1);
    hide DecodeOk, OpOk, EventFor, CheckpointOf, Does, PendingEnvelope, EndsLine;
    s1 := s.(file := Some(PendingEnvelope(s.session.base, op, e, CheckpointOf(s.ledger))),
             session := Committing(s.session.owner));
    SavePendingDoes(s, op, e, Done, s1);
  }

  lemma TornAppend(s: Sys, base: Envelope, op: Op, e: Entry, kept: nat) returns (s1: Sys)
    requires s.session.Committing? && EndsLine(s.ledger) && e.stamp.Some? && Fits(e) && 0 < kept < |Line(e)|
    requires s.file == Some(PendingEnvelope(base, op, e, CheckpointOf(s.ledger)))
    ensures Does(s, AppendReceipt(kept, false), s1) && TornReceipt(s1)
  {
    EndsItself(s.ledger);
    hide CheckpointOf, Does, PendingEnvelope, EndsLine, Terminated, Line, Fits, Inspect;
    PendingIs(base, op, e, CheckpointOf(s.ledger));
    s1 := s.(ledger := s.ledger + Line(e)[..kept], session := Free);
    ReceiptDoes(s, kept, false, s1);
    TornInspection(base, op, e, s.ledger, kept);
  }

  /** From any lease, a transition whose receipt tears part-way and is not taken back ends
      in a torn receipt: two steps, the second a fault that the code can meet. */
  lemma TornArises(run: seq<Sys>, op: Op, e: Entry, kept: nat) returns (more: seq<Sys>)
    requires IsRun(run) && CanIntend(run[|run| - 1], op, e) && 0 < kept < |Line(e)|
    ensures IsRun(more) && run <= more && TornReceipt(more[|more| - 1])
  {
    var s := run[|run| - 1];
    IntendedStamped(s, op, e);
    hide *;
    var s1 := TornSave(s, op, e);
    var s2 := TornAppend(s1, s.session.base, op, e, kept);
    more := ExtendTwice(run, SavePending(op, e, Done), s1, AppendReceipt(kept, false), s2);
  }

  lemma IntendedStamped(s: Sys, op: Op, e: Entry)
    requires CanIntend(s, op, e)
    ensures e.stamp.Some? && Fits(e) && EndsLine(s.ledger)
  {
    hide DecodeOk, OpOk, PendingEnvelope, EndsLine;
  }

  lemma PendingIs(base: Envelope, op: Op, e: Entry, at: Checkpoint)
    requires e.stamp.Some?
    ensures var p := PendingEnvelope(base, op, e, at).pending;
            p.Some? && p.value.event == e && p.value.checkpoint == at
  {
  }

  lemma EventStamped(op: Op, e: Entry, revision: nat)
    requires EventFor(op, e, revision)
    ensures e.stamp.Some? && Fits(e)
  {
  }

  lemma EndsItself(b: seq<byte>)
    requires EndsLine(b)
    ensures Terminated(b) == b
  {
  }

  const FIRST_TRANSACTION := "tx-00000000000000000000000000000000"

  /** The first emergency stop of a fresh directory. */
  const FIRST_STOP := Entry("0", ESTOP, "system", "", None, Some(Stamp(FIRST_TRANSACTION, 1)))

  lemma FirstTransaction()
    ensures IsTransactionId(FIRST_TRANSACTION)
  {
    assert forall i :: 3 <= i < 35 ==> FIRST_TRANSACTION[i] == '0';
  }

  lemma FirstStopShort()
    ensures Fits(FIRST_STOP)
  {
    EntryLength(FIRST_STOP);
    hide Line;
  }

  lemma FirstStopIs()
    ensures EventFor(SuspendAll, FIRST_STOP, 1) && EventOk(FIRST_STOP, FIRST_TRANSACTION, 1)
  {
    FirstTransaction();
    FirstStopShort();
    hide Line, Fits, IsTransactionId;
  }

  lemma FirstStopDecodes()
    ensures OpOk(SuspendAll, EMPTY.grants, 0) && DecodeOk(PendingEnvelope(EMPTY, SuspendAll, FIRST_STOP, CheckpointOf([])))
  {
    hide StoreBytes, EventOk, EventFor, DecodeOk, RoomToStop, CleanOk, PendingEnvelope;
    FirstStopIs();
    EmptyClean();
    StopDecodes(EMPTY, FIRST_STOP, CheckpointOf([]));
  }

  /** A concrete run: the stop of a fresh directory, its receipt torn after one byte. */
  lemma TornRun() returns (run: seq<Sys>)
    ensures IsRun(run) && TornReceipt(run[|run| - 1])
  {
    FirstStopDecodes();
    FirstStopIs();
    LineShape(FIRST_STOP);
    hide DecodeOk, EventFor, CheckpointOf, Line;
    var s1 := START.(session := Held(0));
    var s2 := START.(session := Lease(0, EMPTY));
    assert Does(START, Acquire(0), s1) && Does(s1, LoadMissing, s2);
    run := ExtendRun([START], Acquire(0), s1);
    run := ExtendRun(run, LoadMissing, s2);
    run := TornArises(run, SuspendAll, FIRST_STOP, 1);
  }

  // ---------------------------------------------------------------- convergence

  /** Attempts to reload, each perhaps cut short, up to the first that completes. */
  ghost predicate Recovers(run: seq<Sys>) {
    && run != []
    && (forall i :: 0 <= i < |run| - 1 ==> Next(run[i], run[i + 1]))
    && (forall i :: 0 <= i < |run| - 1 ==> run[i].session.Free? || run[i].session.Held?)
    && run[|run| - 1].session.Lease?
  }

  lemma RecoveryKeepsSettled(s: Sys, step: Step, s': Sys, t: Tale) returns (t': Tale)
    requires Matches(s, t) && Does(s, step, s') && (s.session.Free? || s.session.Held?)
    ensures Matches(s', t') && Settled(t') == Settled(t)
    ensures t.intent.Idle? ==> t' == t && s'.ledger == s.ledger && s'.file == s.file
    ensures t'.intent.Idle? && !t.intent.Idle? ==>
              s'.ledger == LogBytes(Settled(t)) && s'.file == Some(EnvelopeOf(Settled(t)))
  {
    hide Matches, Settled, EnvelopeOf, DoesLoadMissing, DoesLoadClean, DoesFinish, DoesAbort, DoesRollForward;
    match step
    case Acquire(_) => t' := t; SessionOnly(s, s', t);
    case Stop => t' := t; SessionOnly(s, s', t);
    case LoadMissing => t' := t; LoadKeepsLedger(s, s', t);
    case LoadClean => t' := t; LoadKeepsLedger(s, s', t);
    case _ =>
      t' := RecoveryStepSimulates(s, step, s', t);
      SavedTaleIdle(s, step, s', t, t');
  }

  /** A recovery step that settles the tale is a save that left the new envelope live. */
  lemma SavedTaleIdle(s: Sys, step: Step, s': Sys, t: Tale, t': Tale)
    requires Matches(s', t') && TaleStep(t, step, t') && Settled(t') == Settled(t)
    requires Does(s, step, s') && (step.Finish? || step.Abort? || step.RollForward?)
    ensures t'.intent.Idle? && !t.intent.Idle? ==> s'.file == Some(EnvelopeOf(Settled(t))) && t'.log == Settled(t)
  {
    SaveLeavesFile(s, step, s');
    hide Matches, Does, EnvelopeOf, Settled;
    if t'.intent.Idle? && !t.intent.Idle? { IdleFile(s', t'); }
  }

  lemma SaveLeavesFile(s: Sys, step: Step, s': Sys)
    requires Does(s, step, s') && (step.Finish? || step.Abort? || step.RollForward?)
    ensures s'.file.Some?
  {
    hide DecodeOk, BaseVerified, Inspect, FinalEnvelope, AbortedEnvelope;
  }

  lemma IdleFile(s: Sys, t: Tale)
    requires Matches(s, t) && t.intent.Idle? && s.file.Some?
    ensures s.file == Some(EnvelopeOf(t.log)) && Settled(t) == t.log
  {
    hide DecodeOk, EnvelopeOf;
  }

  lemma LoadKeepsLedger(s: Sys, s': Sys, t: Tale)
    requires Matches(s, t) && (DoesLoadMissing(s, s') || DoesLoadClean(s, s'))
    ensures Matches(s', t) && t.intent.Idle? && s'.ledger == s.ledger && s'.file == s.file
  {
    LoadSimulates(s, s', t);
    hide DecodeOk;
  }

  lemma LeaseSettled(s: Sys, t: Tale)
    requires Matches(s, t) && s.session.Lease?
    ensures t.intent.Idle? && s.session.base == EnvelopeOf(Settled(t))
  {
  }

  /** Wherever recovery completes, it has paid or dropped exactly what was owed. */
  lemma {:induction false} RecoverySettles(run: seq<Sys>, t: Tale)
    requires Recovers(run) && Matches(run[0], t)
    ensures run[|run| - 1].session.base == EnvelopeOf(Settled(t))
    ensures run[|run| - 1].ledger == if t.intent.Idle? then run[0].ledger else LogBytes(Settled(t))
    ensures run[|run| - 1].file == if t.intent.Idle? then run[0].file else Some(EnvelopeOf(Settled(t)))
    decreases |run|
  {
    hide Matches, Does, Settled, EnvelopeOf, LogBytes;
    if |run| == 1 {
      LeaseSettled(run[0], t);
    } else {
      var step :| Does(run[0], step, run[1]);
      var t' := RecoveryKeepsSettled(run[0], step, run[1], t);
      var rest := run[1..];
      assert rest[|rest| - 1] == run[|run| - 1];
      assert forall i :: 0 <= i < |rest| ==> rest[i] == run[i + 1];
      assert Recovers(rest);
      RecoverySettles(rest, t');
    }
  }

  /** Any two ways of getting through recovery, however often they crashed, install the
      same grants and revision and leave the same ledger and envelope. */
  lemma RecoveryConverges(a: seq<Sys>, b: seq<Sys>)
    requires Recovers(a) && Recovers(b) && a[0] == b[0] && Reachable(a[0])
    ensures a[|a| - 1].session.base == b[|b| - 1].session.base
    ensures a[|a| - 1].ledger == b[|b| - 1].ledger && a[|a| - 1].file == b[|b| - 1].file
  {
    var t := ReachableMatches(a[0]);
    hide Recovers, Reachable;
    RecoverySettles(a, t);
    RecoverySettles(b, t);
  }

  // ---------------------------------------------------------------- when it can complete

  lemma FinalDecodes(s: Sys, t: Tale)
    requires Matches(s, t) && !t.intent.Idle?
    ensures s.file.Some? && s.file.value.pending.Some?
    ensures DecodeOk(FinalEnvelope(s.file.value)) && DecodeOk(AbortedEnvelope(s.file.value))
  {
    assert s.file.value.revision < MAX_REVISION;
    FinalClean(s.file.value);
    hide RecordsOk, PendingOk;
  }

  lemma FinishStep(s: Sys, e: Envelope) returns (s': Sys)
    requires Recovering(s) && Receipted(s) == Present
    requires e == FinalEnvelope(s.file.value) && DecodeOk(e)
    ensures Next(s, s') && s'.session.Lease?
  {
    hide DecodeOk, Inspect, FinalEnvelope, BaseVerified;
    s' := s.(file := Some(e), session := Lease(s.session.owner, e));
    assert Saves(s, e, Done, Lease(s.session.owner, e), s');
    assert Does(s, Finish(Done), s');
  }

  lemma AbortStep(s: Sys, e: Envelope) returns (s': Sys)
    requires Recovering(s) && Receipted(s) == Absent
    requires s.file.value.pending.value.kind == IssueKind
    requires e == AbortedEnvelope(s.file.value) && DecodeOk(e)
    ensures Next(s, s') && s'.session.Lease?
  {
    hide DecodeOk, Inspect, AbortedEnvelope, BaseVerified;
    s' := s.(file := Some(e), session := Lease(s.session.owner, e));
    assert Saves(s, e, Done, Lease(s.session.owner, e), s');
    assert Does(s, Abort(Done), s');
  }

  lemma RollForwardStep(s: Sys, e: Entry) returns (s': Sys)
    requires Recovering(s) && Receipted(s) == Absent
    requires s.file.value.pending.value.kind != IssueKind && s.file.value.pending.value.event == e
    requires AtCheckpoint(s, s.file.value.pending.value) && Fits(e)
    ensures Appends(s, e, |Line(e)|, true, s.session, s') && Next(s, s') && s'.session == s.session
  {
    hide DecodeOk, Inspect, BaseVerified, AtCheckpoint, Fits;
    s' := s.(ledger := Terminated(s.ledger) + Line(e)[..|Line(e)|]);
    assert Does(s, RollForward(|Line(e)|, true), s');
  }

  lemma CleanFinish(s: Sys, t: Tale) returns (s': Sys)
    requires Matches(s, t) && t.intent.Recorded? && s.session.Held?
    ensures Next(s, s') && s'.session.Lease?
  {
    hide DecodeOk, Inspect, FinalEnvelope, Next, FileMatches;
    RecoveringOf(s, t);
    InspectMatches(s, t);
    FinalDecodes(s, t);
    s' := FinishStep(s, FinalEnvelope(s.file.value));
  }

  lemma CleanAbort(s: Sys, t: Tale) returns (s': Sys)
    requires Matches(s, t) && t.intent.Intended? && t.intent.op.Issue?
    requires s.session.Held? && s.ledger == LogBytes(t.log)
    ensures Next(s, s') && s'.session.Lease?
  {
    hide DecodeOk, Inspect, AbortedEnvelope, Next, FileMatches;
    RecoveringOf(s, t);
    InspectMatches(s, t);
    FinalDecodes(s, t);
    PendingFacts(s, t);
    s' := AbortStep(s, AbortedEnvelope(s.file.value));
  }

  lemma CheckpointHolds(s: Sys, t: Tale)
    requires Matches(s, t) && t.intent.Intended? && s.ledger == LogBytes(t.log)
    ensures s.file.Some? && s.file.value.pending.Some? && AtCheckpoint(s, s.file.value.pending.value)
    ensures Fits(t.intent.event)
  {
    TornBytes(s, t);
    hide DecodeOk;
  }

  lemma CleanRollForward(s: Sys, t: Tale) returns (s': Sys, t': Tale)
    requires Matches(s, t) && t.intent.Intended? && !t.intent.op.Issue?
    requires s.session.Held? && s.ledger == LogBytes(t.log)
    ensures Next(s, s') && Matches(s', t') && t'.intent.Recorded? && s'.session.Held?
  {
    hide DecodeOk, Inspect, Next, FileMatches, AtCheckpoint, Fits;
    RecoveringOf(s, t);
    InspectMatches(s, t);
    CheckpointHolds(s, t);
    PendingFacts(s, t);
    s' := RollForwardStep(s, t.intent.event);
    t' := ReceiptSimulates(s, |Line(t.intent.event)|, true, s.session, s', t);
  }

  /** A recovery without faults, from the lock on. */
  lemma CleanRecovery(s: Sys, t: Tale) returns (run: seq<Sys>)
    requires Matches(s, t) && s.session.Held? && !t.intent.Idle?
    requires t.intent.Intended? ==> s.ledger == LogBytes(t.log)
    ensures Recovers(run) && run[0] == s
  {
    hide Matches, Next;
    if t.intent.Recorded? {
      var s1 := CleanFinish(s, t);
      run := [s, s1];
    } else if t.intent.op.Issue? {
      var s1 := CleanAbort(s, t);
      run := [s, s1];
    } else {
      var s1, t1 := CleanRollForward(s, t);
      var s2 := CleanFinish(s1, t1);
      run := [s, s1, s2];
    }
  }

  lemma {:induction false} TornNeverRecovers(run: seq<Sys>)
    requires Recovers(run) && Reachable(run[0]) && TornReceipt(run[0])
    requires run[0].session.Free? || run[0].session.Held?
    ensures false
    decreases |run|
  {
    hide TornReceipt, Reachable, Next;
    TornIsStuck(run[0], run[1]);
    ReachableStep(run[0], run[1]);
    var rest := run[1..];
    assert forall i :: 0 <= i < |rest| ==> rest[i] == run[i + 1];
    if |run| > 2 { TornNeverRecovers(rest); }
  }

  lemma PendingIntent(s: Sys, t: Tale)
    requires Matches(s, t) && s.file.Some? && s.file.value.pending.Some?
    ensures !t.intent.Idle?
    ensures TornReceipt(s) <==> t.intent.Intended? && s.ledger != LogBytes(t.log)
  {
    PendingFacts(s, t);
    InspectMatches(s, t);
    hide DecodeOk, Inspect;
  }

  /** From any pending state of any run, recovery can complete exactly when the receipt
      is not torn. */
  lemma RecoverableExactly(run: seq<Sys>, i: nat)
    requires IsRun(run) && i < |run|
    requires run[i].session.Free? && run[i].file.Some? && run[i].file.value.pending.Some?
    ensures (exists more :: Recovers(more) && more[0] == run[i]) <==> !TornReceipt(run[i])
  {
    hide TornReceipt, Matches, Next;
    var s := run[i];
    var t := StateMatches(run, i);
    RunStateReachable(run, i);
    hide IsRun, Reachable;
    PendingIntent(s, t);
    if TornReceipt(s) {
      forall more | Recovers(more) && more[0] == s ensures false {
        TornNeverRecovers(more);
      }
    } else {
      var more := RecoveryExists(s, t);
    }
  }

  lemma AcquireStep(s: Sys) returns (s': Sys)
    requires s.session.Free?
    ensures Next(s, s') && s' == s.(session := Held(0))
  {
    s' := s.(session := Held(0));
    assert Does(s, Acquire(0), s');
  }

  lemma Prepend(s: Sys, rest: seq<Sys>)
    requires Recovers(rest) && Next(s, rest[0]) && s.session.Free?
    ensures Recovers([s] + rest)
  {
    hide Next;
    var run := [s] + rest;
    forall i | 0 <= i < |run| - 1
      ensures Next(run[i], run[i + 1]) && (run[i].session.Free? || run[i].session.Held?)
    {
      if i > 0 { assert run[i] == rest[i - 1] && run[i + 1] == rest[i - 1 + 1]; }
    }
  }

  lemma RecoveryExists(s: Sys, t: Tale) returns (run: seq<Sys>)
    requires Matches(s, t) && !t.intent.Idle? && s.session.Free?
    requires t.intent.Intended? ==> s.ledger == LogBytes(t.log)
    ensures Recovers(run) && run[0] == s
  {
    var s1 := AcquireStep(s);
    SessionOnly(s, s1, t);
    hide Next, Matches;
    var rest := CleanRecovery(s1, t);
    Prepend(s, rest);
    run := [s] + rest;
  }
}
