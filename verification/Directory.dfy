/** The private directory every authority instance shares: the envelope file, the ledger
    file and the advisory lock. A ghost trace records the run of the step machine that
    the files have been through, so the code below can only do what that machine does. */
module Directories {
  import opened Bytes
  import opened Outcomes
  import opened Entries
  import opened Grants
  import opened AtomicLog
  import opened Ledger
  import opened Records
  import opened Envelopes
  import opened Protocol
  import opened Recovery

  class Directory {
    const store: GrantMetadataStore
    const ledger: JsonlLedger
    ghost var session: Session
    ghost var run: seq<Sys>
    ghost var tale: Tale

    ghost function Now(): Sys
      reads this, store, ledger
    {
      Sys(store.file, ledger.data, session)
    }

    ghost predicate Valid()
      reads this, store, ledger
    {
      IsRun(run) && run[|run| - 1] == Now() && Matches(Now(), tale)
    }

    constructor ()
      ensures Valid() && session.Free? && tale == Tale([], Idle)
      ensures fresh(store) && fresh(ledger)
    {
      store := new GrantMetadataStore();
      ledger := new JsonlLedger();
      session := Free;
      run := [START];
      tale := Tale([], Idle);
      new;
      StartMatches();
    }

    /** Records that the files have just done `step`. */
    ghost method Advance(before: Sys, step: Step)
      requires IsRun(run) && run[|run| - 1] == before && Matches(before, tale)
      requires Does(before, step, Now())
      modifies this`run, this`tale
      ensures Valid() && TaleStep(old(tale), step, tale) && LogStep(old(tale).log, tale.log)
    {
      hide Matches, Does, TaleStep, LogStep;
      var after := Now();
      tale := StepSimulates(before, step, after, tale);
      assert Next(before, after);
      run := run + [after];
    }

    /** The session alone changes: the lock is taken, given back, or lost in a crash. */
    ghost method Enter(owner: nat)
      requires Valid() && session.Free?
      modifies this`session, this`run, this`tale
      ensures Valid() && session == Held(owner) && tale == old(tale)
    {
      hide Matches;
      var before := Now();
      session := Held(owner);
      Advance(before, Acquire(owner));
    }

    ghost method Leave()
      requires Valid()
      modifies this`session, this`run, this`tale
      ensures Valid() && session.Free? && tale == old(tale)
    {
      hide Matches;
      var before := Now();
      session := Free;
      Advance(before, Stop);
    }

    /** A directory without an envelope has never recorded anything. */
    lemma FreshTale()
      requires Valid() && store.file.None?
      ensures tale == Tale([], Idle) && ledger.data == []
    {
    }

    /** Under a lease, or with a clean envelope, nothing is owed. */
    lemma NothingOwed()
      requires Valid() && store.file.Some? && store.file.value.pending.None?
      ensures tale.intent.Idle? && DecodeOk(store.file.value) && Verified(store.file.value, ledger.data)
    {
      EnvelopeVerified(tale.log, ledger.data);
      hide DecodeOk, Verified;
    }

    lemma OwedBase()
      requires Valid() && store.file.Some? && store.file.value.pending.Some? && session.Held?
      ensures BaseVerified(store.file.value, ledger.data)
    {
      PendingFacts(Now(), tale);
      RecoveringOf(Now(), tale);
      hide DecodeOk, Matches, BaseVerified;
    }

    lemma StoreDecodes()
      requires Valid() && store.file.Some?
      ensures DecodeOk(store.file.value)
    {
    }

    lemma OffsetIs()
      requires Valid() && EndsLine(ledger.data)
      ensures CheckpointOf(ledger.data).offset == |LogBytes(tale.log)| && ledger.data == LogBytes(tale.log)
    {
      TornBytes(Now(), tale);
    }

    // -------------------------------------------------------------- under a lease

    /** `prepare_event`: the only effect is that a torn tail may be gone. */
    method Prepare(e: Entry, f: Fault) returns (r: Option<Prepared>)
      requires Valid() && session.Lease?
      modifies this`session, this`run, this`tale, ledger
      ensures Valid() && tale == old(tale)
      ensures r.Some? ==> session == old(session) && EntryOk(e) && Fits(e) && EndsLine(ledger.data)
      ensures r.Some? ==> r.value == Prepared(e, Line(e), CheckpointOf(ledger.data))
      ensures r.None? ==> session.Free?
      ensures Smooth(f) && EntryOk(e) && Fits(e) ==> r.Some?
    {
      hide Matches, EntryOk, Fits, Terminated, Line, IsRun, Does, TaleStep, LogStep, CheckpointOf, EndsLine;
      ghost var before := Now();
      TailRepairable(before, tale);
      r := ledger.Prepare(e, f);
      if r.None? { session := Free; }
      if ledger.data == before.ledger && r.None? {
        StopDoes(before, Now());
        Advance(before, Stop);
        StopTale(old(tale), tale);
      } else {
        RepairDoes(before, r.Some?, Now());
        Advance(before, RepairTail(r.Some?));
        RepairTale(old(tale), r.Some?, tale);
      }
    }

    /** Saving the pending envelope: from here on the transition is owed. */
    method SaveIntent(ghost op: Op, ghost e: Entry, env: Envelope, f: SaveFault) returns (ok: bool)
      requires Valid() && session.Lease? && EndsLine(ledger.data)
      requires EventFor(op, e, session.base.revision + 1)
      requires env == PendingEnvelope(session.base, op, e, CheckpointOf(ledger.data))
      requires DecodeOk(env) ==> OpOk(op, session.base.grants, session.base.revision)
      modifies this`session, this`run, this`tale, store
      ensures Valid()
      ensures ok ==> session == Committing(old(session.owner)) && store.file == Some(env)
      ensures ok ==> tale == Tale(old(tale.log), Intended(op, e))
      ensures !ok ==> session.Free? && (tale == old(tale) || tale == Tale(old(tale.log), Intended(op, e)))
      ensures SmoothSave(f) && DecodeOk(env) ==> ok
      ensures old(store.file).Some? ==> store.file.Some?
    {
      hide Matches, DecodeOk, EventFor, OpOk, PendingEnvelope, CheckpointOf, IsRun, Does, TaleStep, LogStep, EndsLine;
      ghost var before := Now();
      StoredDecodes(before, tale);
      ok := store.SaveState(env, f);
      session := if ok then Committing(before.session.owner) else Free;
      if store.file == before.file && !ok {
        StopDoes(before, Now());
        Advance(before, Stop);
        StopTale(old(tale), tale);
      } else {
        ghost var step := SavePending(op, e, if ok then Done else FailedNew);
        SavePendingDoes(before, op, e, if ok then Done else FailedNew, Now());
        Advance(before, step);
        SavedTale(old(tale), step, tale);
      }
    }

    /** An owed receipt onto a ledger that ends at its checkpoint: a prefix is added. */
    method WriteReceipt(p: Prepared, f: Fault) returns (ok: bool, ghost kept: nat)
      requires Terminated(ledger.data) == ledger.data && CheckpointOf(ledger.data) == p.checkpoint
      requires p.encoded == Line(p.entry) && EntryOk(p.entry) && Fits(p.entry)
      modifies ledger
      ensures kept <= |p.encoded| && ledger.data == old(ledger.data) + p.encoded[..kept]
      ensures ok ==> kept == |p.encoded|
      ensures Smooth(f) && Repairable(old(ledger.data)) ==> ok
    {
      hide CheckpointOf, Terminated, Line, EntryOk, Fits, Smooth;
      ghost var before := ledger.data;
      ok, kept := ledger.AppendPrepared(p, f);
      if ok {
        kept := WholeLine(p.encoded);
      } else if ledger.data == before {
        kept := 0;
        assert before + p.encoded[..0] == before;
      }
    }

    /** Appending the receipt: its last byte is the commit point. */
    method AppendReceipt(p: Prepared, f: Fault) returns (ok: bool)
      requires Valid() && session.Committing?
      requires store.file.Some? && store.file.value.pending.Some? && p == PreparedOf(store.file.value.pending.value)
      modifies this`session, this`run, this`tale, ledger
      ensures Valid()
      ensures old(tale).intent.Intended?
      ensures if ok then tale == Paid(old(tale)) && session == Committed(old(session.owner))
              else session.Free? && (tale == old(tale) || tale == Paid(old(tale)))
      ensures Smooth(f) ==> ok
    {
      hide Matches, DecodeOk, CheckpointOf, Terminated, Line, IsRun, Fits, Does, EntryOk, LogStep, TaleStep, LogBytes;
      ghost var before, kept := Now(), 0;
      CommittingFacts(before, tale);
      TornBytes(before, tale);
      OwedFits(before, tale);
      ok, kept := WriteReceipt(p, f);
      session := if ok then Committed(before.session.owner) else Free;
      ReceiptDoes(before, kept, ok, Now());
      Advance(before, Protocol.AppendReceipt(kept, ok));
      ReceiptStepIs(old(tale), kept, ok, tale);
    }

    /** Saving the final envelope of a transition whose receipt is written. */
    method SaveFinal(env: Envelope, f: SaveFault) returns (ok: bool)
      requires Valid() && session.Committed?
      requires store.file.Some? && store.file.value.pending.Some? && env == FinalEnvelope(store.file.value)
      modifies this`session, this`run, this`tale, store
      ensures Valid() && tale.log == old(tale.log)
      ensures ok ==> session == Lease(old(session.owner), env) && tale == Tale(old(tale.log), Idle)
      ensures !ok ==> session.Free? && (tale == old(tale) || tale == Tale(old(tale.log), Idle))
      ensures SmoothSave(f) ==> ok
      ensures old(store.file).Some? ==> store.file.Some?
    {
      hide Matches, DecodeOk, FinalEnvelope, IsRun, Does, TaleStep, LogStep;
      ghost var before := Now();
      CommittingFacts(before, tale);
      FinalDecodes(before, tale);
      StoredDecodes(before, tale);
      ok := store.SaveState(env, f);
      session := if ok then Lease(before.session.owner, env) else Free;
      if store.file == before.file && !ok {
        StopDoes(before, Now());
        Advance(before, Stop);
        StopTale(old(tale), tale);
      } else {
        ghost var step := Protocol.SaveFinal(if ok then Done else FailedNew);
        SaveFinalDoes(before, if ok then Done else FailedNew, Now());
        Advance(before, step);
        SavedTale(old(tale), step, tale);
      }
    }

    /** A READ or DENY line of the lease holder. */
    method AppendNote(e: Entry, f: Fault) returns (ok: bool)
      requires Valid() && session.Lease?
      requires e.stamp == None && e.agent in session.base.grants
      requires e.etype == DENY || (e.etype == READ && session.base.grants[e.agent].status == Active)
      modifies this`session, this`run, this`tale, ledger
      ensures Valid()
      ensures ok ==> session == old(session) && tale == Tale(old(tale.log) + [Note(e)], Idle)
      ensures !ok ==> session.Free? && (tale == old(tale) || tale == Tale(old(tale.log) + [Note(e)], Idle))
      ensures Smooth(f) && EntryOk(e) && Fits(e) ==> ok
    {
      hide Matches, EntryOk, Fits, Terminated, Line, IsRun, Does, TaleStep, LogStep;
      ghost var before, kept := Now(), 0;
      TailRepairable(before, tale);
      ok, kept := ledger.Append(e, f);
      if !ok { session := Free; }
      if ledger.data == before.ledger && !ok {
        StopDoes(before, Now());
        Advance(before, Stop);
        StopTale(old(tale), tale);
      } else {
        if ok { kept := WholeLine(Line(e)); }
        NoteDoes(before, e, kept, ok, Now());
        Advance(before, Protocol.AppendNote(e, kept, ok));
        NoteTale(old(tale), e, kept, ok, tale);
      }
    }

    // -------------------------------------------------------------- while reloading

    /** Installing a verified clean envelope, or the empty one of a fresh directory. */
    ghost method Load(env: Envelope)
      requires Valid() && session.Held?
      requires (store.file.None? && ledger.data == [] && env == EMPTY) ||
               (store.file == Some(env) && DecodeOk(env) && Verified(env, ledger.data))
      modifies this`session, this`run, this`tale
      ensures Valid() && tale == old(tale) && session == Lease(old(session.owner), env)
    {
      hide Matches, DecodeOk, Verified;
      var before := Now();
      session := Lease(before.session.owner, env);
      Advance(before, if store.file.None? then LoadMissing else LoadClean);
    }

    /** Finalizing a receipt recovery found in place. */
    method Finish(env: Envelope, f: SaveFault) returns (ok: bool)
      requires Valid() && Recovering(Now()) && Receipted(Now()) == Present && env == FinalEnvelope(store.file.value)
      modifies this`session, this`run, this`tale, store
      ensures Valid() && tale.log == old(tale.log) && Settled(tale) == Settled(old(tale))
      ensures ok ==> session == Lease(old(session.owner), env) && tale.intent.Idle?
      ensures !ok ==> session.Free?
      ensures SmoothSave(f) ==> ok
      ensures old(store.file).Some? ==> store.file.Some?
    {
      hide Matches, DecodeOk, FinalEnvelope, Recovering, Receipted, Settled, IsRun, Does, TaleStep, LogStep;
      ghost var before := Now();
      RecoveringHeld(before);
      RecoveringFacts(before, tale);
      StoredDecodes(before, tale);
      ok := store.SaveState(env, f);
      session := if ok then Lease(before.session.owner, env) else Free;
      if store.file == before.file && !ok {
        StopDoes(before, Now());
        Advance(before, Stop);
        StopTale(old(tale), tale);
      } else {
        ghost var saved := if ok then Done else FailedNew;
        FinishDoes(before, saved, Now(), old(tale));
        Advance(before, Protocol.Finish(saved));
        SavedTale(old(tale), Protocol.Finish(saved), tale);
      }
    }

    /** Dropping an issue whose receipt was never written. */
    method Abort(env: Envelope, f: SaveFault) returns (ok: bool)
      requires Valid() && Recovering(Now()) && Receipted(Now()) == Absent
      requires store.file.value.pending.value.kind == IssueKind && env == AbortedEnvelope(store.file.value)
      modifies this`session, this`run, this`tale, store
      ensures Valid() && tale.log == old(tale.log) && Settled(tale) == Settled(old(tale))
      ensures ok ==> session == Lease(old(session.owner), env) && tale.intent.Idle?
      ensures !ok ==> session.Free?
      ensures SmoothSave(f) ==> ok
      ensures old(store.file).Some? ==> store.file.Some?
    {
      hide Matches, DecodeOk, AbortedEnvelope, Recovering, Receipted, Settled, IsRun, Does, TaleStep, LogStep;
      ghost var before := Now();
      RecoveringHeld(before);
      RecoveringFacts(before, tale);
      StoredDecodes(before, tale);
      ok := store.SaveState(env, f);
      session := if ok then Lease(before.session.owner, env) else Free;
      if store.file == before.file && !ok {
        StopDoes(before, Now());
        Advance(before, Stop);
        StopTale(old(tale), tale);
      } else {
        ghost var saved := if ok then Done else FailedNew;
        AbortDoes(before, saved, Now(), old(tale));
        Advance(before, Protocol.Abort(saved));
        SavedTale(old(tale), Protocol.Abort(saved), tale);
      }
    }

    /** Writing the missing receipt of a restrictive or seeding transition. */
    method RollForward(p: Prepared, f: Fault) returns (ok: bool)
      requires Valid() && Recovering(Now()) && Receipted(Now()) == Absent
      requires store.file.value.pending.value.kind != IssueKind && p == PreparedOf(store.file.value.pending.value)
      modifies this`session, this`run, this`tale, ledger
      ensures Valid() && Settled(tale) == Settled(old(tale))
      ensures ok ==> session == old(session) && Recovering(Now()) && Receipted(Now()) == Present
      ensures !ok ==> session.Free?
      ensures tale.log == old(tale.log) || tale.log == Settled(old(tale))
      ensures Smooth(f) ==> ok
    {
      hide Matches, DecodeOk, CheckpointOf, Recovering, Receipted, Settled, Terminated, Line, IsRun, Fits, Does,
        EntryOk, TaleStep, LogStep;
      ghost var before, kept := Now(), 0;
      RecoveringHeld(before);
      AbsentFacts(before, tale);
      OwedFits(before, tale);
      ok, kept := WriteReceipt(p, f);
      if !ok { session := Free; }
      RollForwardDoes(before, kept, ok, Now());
      Advance(before, Protocol.RollForward(kept, ok));
      ForwardTale(old(tale), kept, ok, tale);
      if ok { PresentFacts(Now(), tale); }
    }
  }

  /** The tale once its owed receipt is written. */
  function Paid(t: Tale): Tale
    requires t.intent.Intended?
  {
    Tale(t.log + [Receipt(t.intent.op, t.intent.event)], Recorded(t.intent.op, t.intent.event))
  }

  lemma WholeLine(b: seq<byte>) returns (kept: nat)
    ensures kept == |b| && b[..kept] == b
  {
    kept := |b|;
  }

  lemma StopDoes(s: Sys, s': Sys)
    requires s' == s.(session := Free)
    ensures Does(s, Stop, s')
  {
  }

  lemma RepairDoes(s: Sys, ok: bool, s': Sys)
    requires s.session.Lease?
    requires s' == s.(ledger := Terminated(s.ledger), session := if ok then s.session else Free)
    ensures Does(s, RepairTail(ok), s') && EndsLine(s'.ledger)
  {
  }

  lemma RepairTale(t: Tale, ok: bool, t': Tale)
    requires TaleStep(t, RepairTail(ok), t')
    ensures t' == t
  {
  }

  lemma SaveFinalDoes(s: Sys, saved: Saved, s': Sys)
    requires s.session.Committed? && s.file.Some? && s.file.value.pending.Some?
    requires Saves(s, FinalEnvelope(s.file.value), saved, Lease(s.session.owner, FinalEnvelope(s.file.value)), s')
    ensures Does(s, Protocol.SaveFinal(saved), s')
  {
  }

  lemma FinishDoes(s: Sys, saved: Saved, s': Sys, t: Tale)
    requires Matches(s, t) && Recovering(s) && Receipted(s) == Present
    requires Saves(s, FinalEnvelope(s.file.value), saved, Lease(s.session.owner, FinalEnvelope(s.file.value)), s')
    ensures Does(s, Protocol.Finish(saved), s')
    ensures saved != FailedOld ==> Settled(Tale(t.log, Idle)) == Settled(t)
  {
    hide Matches, DecodeOk, Inspect, BaseVerified, Saves;
    var t' := FinishSimulates(s, saved, s', t);
  }

  lemma AbortDoes(s: Sys, saved: Saved, s': Sys, t: Tale)
    requires Matches(s, t) && Recovering(s) && Receipted(s) == Absent && s.file.value.pending.value.kind == IssueKind
    requires Saves(s, AbortedEnvelope(s.file.value), saved, Lease(s.session.owner, AbortedEnvelope(s.file.value)), s')
    ensures Does(s, Protocol.Abort(saved), s')
    ensures saved != FailedOld ==> Settled(Tale(t.log, Idle)) == Settled(t)
  {
    hide Matches, DecodeOk, Inspect, BaseVerified, Saves;
    var t' := AbortingSimulates(s, saved, s', t);
  }

  lemma SavedTale(t: Tale, step: Step, t': Tale)
    requires TaleStep(t, step, t')
    ensures step.SavePending? && !step.saved.FailedOld? ==> t' == Tale(t.log, Intended(step.op, step.event))
    ensures (step.SaveFinal? || step.Finish? || step.Abort?) && !step.saved.FailedOld? ==> t' == Tale(t.log, Idle)
  {
  }

  lemma NoteDoes(s: Sys, e: Entry, kept: nat, ok: bool, s': Sys)
    requires s.session.Lease? && e.stamp == None && e.agent in s.session.base.grants && EntryOk(e)
    requires e.etype == DENY || (e.etype == READ && s.session.base.grants[e.agent].status == Active)
    requires Appends(s, e, kept, ok, s.session, s')
    ensures Does(s, Protocol.AppendNote(e, kept, ok), s')
  {
  }

  lemma RollForwardDoes(s: Sys, kept: nat, ok: bool, s': Sys)
    requires Recovering(s) && Receipted(s) == Absent && s.file.value.pending.value.kind != IssueKind
    requires AtCheckpoint(s, s.file.value.pending.value)
    requires Appends(s, s.file.value.pending.value.event, kept, ok, s.session, s')
    ensures Does(s, Protocol.RollForward(kept, ok), s')
  {
  }

  lemma StopTale(t: Tale, t': Tale)
    requires TaleStep(t, Stop, t')
    ensures t' == t
  {
  }

  lemma ReceiptStepIs(t: Tale, kept: nat, ok: bool, t': Tale)
    requires TaleStep(t, Protocol.AppendReceipt(kept, ok), t')
    ensures t.intent.Intended?
    ensures t' == if kept == |Line(t.intent.event)| then Paid(t) else t
  {
  }

  lemma NoteTale(t: Tale, e: Entry, kept: nat, ok: bool, t': Tale)
    requires TaleStep(t, Protocol.AppendNote(e, kept, ok), t')
    ensures t' == if kept == |Line(e)| then Tale(t.log + [Note(e)], Idle) else t
  {
  }

  lemma ForwardTale(t: Tale, kept: nat, ok: bool, t': Tale)
    requires TaleStep(t, Protocol.RollForward(kept, ok), t')
    ensures t.intent.Intended?
    ensures t' == if kept == |Line(t.intent.event)| then Paid(t) else t
    ensures !t.intent.op.Issue? ==> Settled(t') == Settled(t) && (t'.log == t.log || t'.log == Settled(t))
  {
  }

  lemma RecoveringHeld(s: Sys)
    requires Recovering(s)
    ensures s.session.Held? && s.file.Some? && s.file.value.pending.Some?
  {
  }

  lemma TailRepairable(s: Sys, t: Tale)
    requires Matches(s, t)
    ensures Repairable(s.ledger)
  {
    TornBytes(s, t);
  }

  lemma StoredDecodes(s: Sys, t: Tale)
    requires Matches(s, t)
    ensures s.file.Some? ==> DecodeOk(s.file.value)
  {
  }

  /** A receipt that is owed onto an untorn ledger can be written. */
  lemma OwedFits(s: Sys, t: Tale)
    requires Matches(s, t) && t.intent.Intended? && Terminated(s.ledger) == s.ledger
    ensures s.file.Some? && s.file.value.pending.Some? && s.file.value.pending.value.event == t.intent.event
    ensures EntryOk(t.intent.event) && Fits(t.intent.event) && Repairable(s.ledger)
    ensures AtCheckpoint(s, s.file.value.pending.value)
  {
    TornBytes(s, t);
    CheckpointHolds(s, t);
    hide DecodeOk, LogBytes, CheckpointOf;
  }

  lemma RecoveringFacts(s: Sys, t: Tale)
    requires Matches(s, t) && Recovering(s)
    ensures DecodeOk(s.file.value) && DecodeOk(FinalEnvelope(s.file.value)) && DecodeOk(AbortedEnvelope(s.file.value))
  {
    PendingFacts(s, t);
    FinalDecodes(s, t);
  }

  lemma AbsentFacts(s: Sys, t: Tale)
    requires Matches(s, t) && Recovering(s) && Receipted(s) == Absent
    ensures t.intent.Intended? && Terminated(s.ledger) == s.ledger
    ensures s.file.value.pending.value.event == t.intent.event
    ensures t.intent.op.Issue? <==> s.file.value.pending.value.kind == IssueKind
  {
    PendingFacts(s, t);
    InspectMatches(s, t);
    TornBytes(s, t);
    hide DecodeOk, Inspect;
  }

  lemma PresentFacts(s: Sys, t: Tale)
    requires Matches(s, t) && t.intent.Recorded? && s.session.Held?
    ensures Recovering(s) && Receipted(s) == Present
  {
    RecoveringOf(s, t);
    InspectMatches(s, t);
    hide DecodeOk, Inspect;
  }
}
