/** The serving process: its routes as guarded steps over the authority, the ledger and
    the stop interlock, one at a time under the process-wide grant lock. */
module Nodes {
  import opened Outcomes
  import opened Entries
  import opened House
  import opened Grants
  import opened AtomicLog
  import opened Ledger
  import opened Records
  import opened Envelopes
  import opened Protocol
  import opened StopRoom
  import opened Directories
  import opened Authority
  import opened ScopedViews
  import opened Interlocks

  datatype Denial = NotAllowed(reason: Reason) | InterlockTripped

  datatype ReadReply =
    | Payload(view: View)
    | ReadDenied(denial: Denial)
    | Unauthenticated
    | AuditUnavailable
    | AuthorityUnavailable
    | ReadUnhandled(error: IssueError)

  datatype QuietHours = QuietAllowed | QuietActive | QuietInvalid | ClockInvalid | TimezoneInvalid

  datatype Command = Command(grant: string, verb: Verb, zone: string, hasParams: bool)

  datatype CommandReply =
    | AllowedNotRelayed
    | GateRefused
    | UnsupportedParams
    | QuietRefused(quiet: QuietHours)
    | CommandDenied(denial: Denial)
    | CommandUnauthenticated
    | CommandAuditUnavailable
    | CommandAuthorityUnavailable
    | CommandUnhandled(error: IssueError)

  datatype IssueReply =
    | IssuedAs(grant: Grant)
    | Locked
    | CredentialInUse
    | NoFreeId
    | PolicyInvalid(error: IssueError)
    | IssueUnavailable
    | IssueUnhandled(error: IssueError)

  datatype RearmReply = Rearmed(changed: bool) | RearmRefused

  function ReasonText(r: Reason): string {
    match r
    case GrantInactive(s) => "grant_" + StatusName(s)
    case GrantInvalidExpiry => "grant_invalid_expiry"
    case GrantExpired => "grant_expired"
    case GrantInvalidWindow => "grant_invalid_window"
    case GrantOutsideWindow => "grant_outside_window"
    case GrantActive => "grant_active"
  }

  function ReadLine(id: string, ts: string): Entry {
    Entry(ts, READ, id, "scoped read", None, None)
  }

  function DenyLine(id: string, detail: string, ts: string, tier: Option<string>): Entry {
    Entry(ts, DENY, id, detail, tier, None)
  }

  function FirstFree(candidates: seq<string>, grants: map<string, Grant>): (id: Option<string>)
    ensures id.Some? ==> id.value !in grants && exists i :: 0 <= i < |candidates| && candidates[i] == id.value &&
                                                             forall k :: 0 <= k < i ==> candidates[k] in grants
    ensures id.None? ==> forall c :: c in candidates ==> c in grants
  {
    if candidates == [] then None
    else if candidates[0] !in grants then Some(candidates[0])
    else FirstFree(candidates[1..], grants)
  }

  /** An issue that has an answer: one of the checks refuses it, or nothing stands in the
      way of its commit. */
  ghost predicate Issuable(file: Housefile, grants: map<string, Grant>, g: Grant, candidates: seq<string>, turn: Turn,
                           log: seq<Item>)
  {
    var id := FirstFree(candidates, grants);
    CredentialClash(grants, g.credential) || id.None? ||
    var grant := g.(id := id.value);
    || IssueCheck(file, grants, grant, turn.instant).Some?
    || (SmoothFaults(turn.commit) && Acceptable(file, Op.Issue(grant), log, IssueReceipt(grant, turn, log)))
  }

  /** A well-formed active grant that, under the first free candidate, passes the checks and
      finds room. */
  ghost predicate Welcome(file: Housefile, grants: map<string, Grant>, g: Grant, candidates: seq<string>, now: int) {
    var id := FirstFree(candidates, grants);
    && !CredentialClash(grants, g.credential) && id.Some?
    && var grant := g.(id := id.value);
       && IssueCheck(file, grants, grant, now).None? && RecordOk(grant) && g.status == Active
       && |grants| < MAX_GRANTS && RoomFor(Op.Issue(grant), grants)
  }

  /** How `_usable_grant` ends; only `Granted` keeps the lock. A demo seed that the manager
      refuses raises a validation error that no handler on the way converts. */
  datatype Usable = Granted | Refused(denial: Denial) | NotAuthentic | AuditDown | AuthorityDown | Unhandled(error: IssueError)

  function DenialText(d: Denial): string {
    match d
    case NotAllowed(reason) => ReasonText(reason)
    case InterlockTripped => "simulated interlock tripped"
  }

  /** The holder of the token of an active grant, inside its window. */
  predicate MayUse(grants: map<string, Grant>, id: string, presented: Option<string>, now: int) {
    id in grants && presented == Some(grants[id].credential) && Decide(grants[id], now).allowed
  }

  function RefusalItems(g: Grant, id: string, action: string, turn: Turn, log: seq<Item>, d: Denial): seq<Item> {
    if Due(g, turn.instant) then ExpiryItems(g, id, action, turn, log)
    else [Note(DenyLine(id, action + " refused: " + DenialText(d), turn.ts, None))]
  }

  /** `_evaluate_command` with its checks in their order. */
  function Evaluation(file: Housefile, g: Grant, c: Command, quiet: QuietHours): CommandReply {
    if !quiet.QuietAllowed? then QuietRefused(quiet)
    else if c.hasParams then UnsupportedParams
    else if !GateAdmits(file, g, c.verb, c.zone) then GateRefused
    else AllowedNotRelayed
  }

  function EvaluationLine(id: string, r: CommandReply, ts: string): Entry {
    match r
    case AllowedNotRelayed => DenyLine(id, "command not relayed: adapter unavailable", ts, Some("UNAVAILABLE"))
    case UnsupportedParams => DenyLine(id, "command refused: parameters unsupported", ts, None)
    case QuietRefused(quiet) => DenyLine(id, "command refused: " + QuietText(quiet), ts, None)
    case _ => DenyLine(id, "command refused: policy boundary", ts, None)
  }

  function QuietText(quiet: QuietHours): string {
    match quiet
    case QuietAllowed => "outside_quiet_hours"
    case QuietActive => "quiet_hours_active"
    case QuietInvalid => "quiet_hours_invalid"
    case ClockInvalid => "quiet_hours_clock_invalid"
    case TimezoneInvalid => "quiet_hours_timezone_invalid"
  }

  /** One plain line was added: its type, its agent, its time and its tier. */
  predicate LeavesLine(before: seq<Item>, after: Tale, etype: EventType, agent: string, ts: string, tier: Option<string>) {
    && after.intent.Idle? && |after.log| == |before| + 1 && after.log[..|before|] == before
    && after.log[|before|].Note?
    && var e := after.log[|before|].event;
       e.etype == etype && e.agent == agent && e.ts == ts && e.tier == tier && e.stamp == None
  }

  lemma ShortNote(e: Entry)
    requires e.stamp.None? && 0 < |e.agent| <= MAX_NAME_LENGTH && (e.tier == None || e.tier == Some("UNAVAILABLE"))
    ensures 0 < |e.ts| <= MAX_POLICY_LENGTH && |e.detail| <= MAX_POLICY_LENGTH ==> EntryOk(e) && Fits(e)
  {
    hide EntryOk, Fits;
    if 0 < |e.ts| <= MAX_POLICY_LENGTH && |e.detail| <= MAX_POLICY_LENGTH { NoteOk(e); }
  }

  lemma NoteLeaves(before: seq<Item>, e: Entry)
    requires e.stamp == None
    ensures LeavesLine(before, Tale(before + [Note(e)], Idle), e.etype, e.agent, e.ts, e.tier)
  {
  }

  /** What the body of a command is answered once its grant has been found usable, in the
      order of the checks: quiet hours, parameters, and what the view says may be done. */
  predicate Answers(r: CommandReply, view: View, granted: set<string>, c: Command, quiet: QuietHours)
    requires view.View?
  {
    && (r.QuietRefused? <==> !quiet.QuietAllowed?) && (r.QuietRefused? ==> r.quiet == quiet)
    && (r.UnsupportedParams? <==> quiet.QuietAllowed? && c.hasParams)
    && (r.AllowedNotRelayed? <==>
          quiet.QuietAllowed? && !c.hasParams && c.zone in granted &&
          (if c.verb.Navigate? then CmdNavigate else CmdManipulate) in view.capabilities)
    && (r.GateRefused? <==>
          quiet.QuietAllowed? && !c.hasParams &&
          !(c.zone in granted && (if c.verb.Navigate? then CmdNavigate else CmdManipulate) in view.capabilities))
  }

  predicate AnswersHolder(r: CommandReply, file: Housefile, g: Grant, c: Command, quiet: QuietHours) {
    g.status == Active && Answers(r, ScopedView(file, g), ScopedViews.Granted(file, g), c, quiet)
  }

  lemma EvaluationAnswers(file: Housefile, g: Grant, c: Command, quiet: QuietHours)
    requires g.status == Active
    ensures AnswersHolder(Evaluation(file, g, c, quiet), file, g, c, quiet)
    ensures Evaluated(Evaluation(file, g, c, quiet))
  {
    GateMatchesView(file, g, c.verb, c.zone);
    hide GateAdmits, ScopedViews.Granted;
  }

  predicate Evaluated(r: CommandReply) {
    r.AllowedNotRelayed? || r.GateRefused? || r.UnsupportedParams? || r.QuietRefused?
  }

  lemma EvaluationLineIs(id: string, r: CommandReply, ts: string)
    requires Evaluated(r)
    ensures var e := EvaluationLine(id, r, ts);
            && e.etype == DENY && e.agent == id && e.ts == ts && e.stamp == None
            && e.tier == (if r.AllowedNotRelayed? then Some("UNAVAILABLE") else None) && |e.detail| <= 60
  {
  }

  /** Every answer leaves a line of its own, so the line tells the answer. */
  lemma EvaluationLineTells(id: string, r: CommandReply, q: CommandReply, ts: string)
    requires Evaluated(r) && Evaluated(q) && r != QuietRefused(QuietAllowed) && q != QuietRefused(QuietAllowed)
    requires EvaluationLine(id, r, ts) == EvaluationLine(id, q, ts)
    ensures r == q
  {
    assert EvaluationLine(id, r, ts).detail[17] == EvaluationLine(id, q, ts).detail[17];
    assert |EvaluationLine(id, r, ts).detail| == |EvaluationLine(id, q, ts).detail|;
  }

  /** And the detail of a refused use tells which refusal it was. */
  lemma DenialTextTells(d: Denial, e: Denial)
    requires DenialText(d) == DenialText(e)
    requires (d.NotAllowed? ==> !d.reason.GrantActive?) && (e.NotAllowed? ==> !e.reason.GrantActive?)
    requires (d.NotAllowed? && d.reason.GrantInactive? ==> d.reason.status != Active)
    requires (e.NotAllowed? && e.reason.GrantInactive? ==> e.reason.status != Active)
    ensures d == e || (DenialText(d) == "grant_expired" == DenialText(e))
  {
    assert |DenialText(d)| == |DenialText(e)|;
  }

  /** The words of the ledger, refusal by refusal. */
  lemma DenialWords()
    ensures DenialText(NotAllowed(GrantInactive(Status.Revoked))) == "grant_revoked"
    ensures DenialText(NotAllowed(GrantInactive(Status.Expired))) == DenialText(NotAllowed(GrantExpired)) == "grant_expired"
    ensures DenialText(NotAllowed(GrantInactive(Status.Suspended))) == "grant_suspended"
    ensures DenialText(NotAllowed(GrantInvalidExpiry)) == "grant_invalid_expiry"
    ensures DenialText(NotAllowed(GrantInvalidWindow)) == "grant_invalid_window"
    ensures DenialText(NotAllowed(GrantOutsideWindow)) == "grant_outside_window"
    ensures DenialText(InterlockTripped) == "simulated interlock tripped"
  {
  }

  lemma EvaluationWords(ts: string, id: string)
    ensures EvaluationLine(id, QuietRefused(QuietActive), ts).detail == "command refused: " + "quiet_hours_active"
    ensures EvaluationLine(id, QuietRefused(QuietInvalid), ts).detail == "command refused: " + "quiet_hours_invalid"
    ensures EvaluationLine(id, QuietRefused(ClockInvalid), ts).detail == "command refused: " + "quiet_hours_clock_invalid"
    ensures EvaluationLine(id, QuietRefused(TimezoneInvalid), ts).detail == "command refused: " + "quiet_hours_timezone_invalid"
    ensures EvaluationLine(id, UnsupportedParams, ts).detail == "command refused: parameters unsupported"
    ensures EvaluationLine(id, GateRefused, ts).detail == "command refused: policy boundary"
    ensures EvaluationLine(id, AllowedNotRelayed, ts).detail == "command not relayed: adapter unavailable"
  {
  }

  lemma DenialTextShort(d: Denial)
    ensures |DenialText(d)| <= 40
  {
  }

  // ---------------------------------------------------------------- stopped logs

  /** The log, once settled, leaves no grant active, and there is a log. */
  predicate StoppedTale(t: Tale) {
    Settled(t) != [] && NoneActive(Replay(Settled(t)))
  }

  lemma StopStops(log: seq<Item>, e: Entry)
    ensures StoppedTale(Tale(log + [Receipt(SuspendAll, e)], Idle))
  {
    hide Replay, SuspendActive, NoneActive;
    SettledIdle(Tale(log + [Receipt(SuspendAll, e)], Idle));
    ReplayReceipt(log, SuspendAll, e);
    SuspendedNone(Replay(log));
  }

  lemma SuspendedNone(grants: map<string, Grant>)
    ensures NoneActive(SuspendActive(grants))
  {
  }

  lemma ReloadKeepsStopped(t: Tale, seeds: seq<Grant>, log: seq<Item>)
    requires StoppedTale(t) && Reloaded(t, seeds, log)
    ensures log == Settled(t) && log != [] && NoneActive(Replay(log))
  {
  }

  /** Nothing but an issue or a seeding can make a grant active. */
  lemma CommitKeepsStopped(log: seq<Item>, op: Op, after: seq<Item>)
    requires log != [] && NoneActive(Replay(log)) && !Widens(op) && AllOrNothing(log, op, after)
    ensures after != [] && NoneActive(Replay(after))
  {
    if after != log {
      assert after == log + [Receipt(op, after[|log|].event)];
      ReplayReceipt(log, op, after[|log|].event);
    }
  }

  lemma NoteReplay(log: seq<Item>, e: Entry)
    ensures Replay(log + [Note(e)]) == Replay(log)
  {
    assert (log + [Note(e)])[..|log|] == log;
  }

  /** A stopped log shows in the effective grants: none is active on disk either. */
  lemma StoppedEffective(s: Sys, t: Tale)
    requires Matches(s, t) && StoppedTale(t)
    ensures NoneActive(Effective(s))
  {
    EffectiveMatches(s, t);
    MatchedAllowed(s, t);
    hide Matches, Effective, Allowed;
    StoppedEarlier(t);
  }

  /** What is pending or just recorded was allowed where it was started. */
  predicate Allowed(t: Tale) {
    match t.intent
    case Idle => true
    case Intended(op, _) => OpOk(op, Replay(t.log), Receipts(t.log))
    case Recorded(op, e) =>
      && t.log != [] && t.log[|t.log| - 1] == Receipt(op, e)
      && OpOk(op, Replay(t.log[..|t.log| - 1]), Receipts(t.log[..|t.log| - 1]))
  }

  lemma MatchedAllowed(s: Sys, t: Tale)
    requires Matches(s, t)
    ensures Allowed(t)
  {
    hide DecodeOk, Legal, OpOk, EventFor, Replay, Receipts, LogBytes, PendingOf;
  }

  lemma StoppedEarlier(t: Tale)
    requires Allowed(t) && StoppedTale(t)
    ensures NoneActive(EffectiveOf(t))
  {
    hide Replay, Receipts;
    match t.intent
    case Idle =>
    case Intended(op, e) => ReplayReceipt(t.log, op, e);
    case Recorded(op, e) =>
      var m := |t.log| - 1;
      assert t.log == t.log[..m] + [Receipt(op, e)];
      ReplayReceipt(t.log[..m], op, e);
      if Widens(op) { WidenedActive(op, Replay(t.log[..m]), Receipts(t.log[..m])); }
  }

  lemma WidenedActive(op: Op, grants: map<string, Grant>, revision: nat)
    requires OpOk(op, grants, revision) && Widens(op)
    ensures !NoneActive(Apply(op, grants))
  {
    match op
    case Issue(g) => assert g.id in Apply(op, grants);
    case Seed(seeds) => var id :| id in seeds;
    case _ =>
  }

  // ---------------------------------------------------------------- the process

  class Node {
    const authority: GrantAuthority
    const interlock: SimulatedLatchedInterlock

    /** Latched in this cycle, with the suspension durably recorded. */
    ghost predicate Stopped()
      reads interlock
    {
      interlock.state.Tripped? && interlock.reported && interlock.lastReport.Some? &&
      interlock.lastReport.value.PersistenceSucceeded()
    }

    /** Latched without a successfully recorded suspension to show for it. */
    predicate Stuck()
      reads interlock
    {
      interlock.state.Tripped? &&
      (interlock.lastReport.None? || !interlock.lastReport.value.PersistenceSucceeded())
    }

    ghost predicate Ready()
      reads authority.dir, authority.dir.store, authority.dir.ledger, interlock
    {
      authority.Valid() && authority.dir.session.Free? && interlock.Valid() && interlock.authority == authority
    }

    /** A recorded stop means that no grant is active. */
    ghost predicate Valid()
      reads authority.dir, authority.dir.store, authority.dir.ledger, interlock
    {
      Ready() && (Stopped() ==> StoppedTale(authority.dir.tale))
    }

    constructor (authority: GrantAuthority, adapters: nat, hasDisplay: bool, hasReceipt: bool)
      requires authority.Valid() && authority.dir.session.Free?
      ensures Valid() && this.authority == authority && fresh(interlock)
    {
      this.authority := authority;
      interlock := new SimulatedLatchedInterlock(authority, adapters, hasDisplay, hasReceipt);
    }

    /** The invariant in terms of what any reader of the directory would see. */
    lemma StoppedMeans()
      requires Valid() && Stopped()
      ensures NoneActive(Effective(authority.dir.Now()))
    {
      StoppedEffective(authority.dir.Now(), authority.dir.tale);
    }

    /** `POST /sim/interlock/trip`. */
    method Trip(world: World) returns (report: Option<TripReport>)
      requires Valid() && |world.halts| == interlock.adapters
      modifies interlock, authority, authority.dir, authority.dir.store, authority.dir.ledger
      ensures Valid() && interlock.state.Tripped?
      ensures old(Stuck()) ==> Stuck()
      ensures old(interlock.state).Tripped? ==>
                (Stopped() <==> old(Stopped())) && (Stuck() <==> old(Stuck()))
      ensures old(interlock.state).Armed? && world.interruption.Uninterrupted? ==> (Stuck() <==> !Stopped())
      ensures old(interlock.state).Armed? && !world.interruption.Uninterrupted? ==> !Stopped()
      ensures old(interlock.state).Armed? ==>
                (Stopped() || Stuck() <==>
                 world.interruption.Uninterrupted? || old(interlock.lastReport).None? ||
                 !old(interlock.lastReport).value.PersistenceSucceeded())
      ensures old(interlock.state).Tripped? || world.interruption.BeforeDurable? ==>
                authority.dir.tale == old(authority.dir.tale) && authority.loaded == old(authority.loaded)
      ensures old(interlock.state).Armed? && world.interruption.Uninterrupted? && interlock.Recordable(world) ==> Stopped()
      ensures old(interlock.state).Armed? && Stopped() ==>
                authority.dir.tale ==
                Tale(authority.loaded + [Receipt(Op.SuspendAll, StopReceipt(world.turn, authority.loaded))], Idle)
    {
      hide Replay, Receipts, Settled, GrantAuthority.Valid, SimulatedLatchedInterlock.Valid, Reloaded, StoppedTale,
        GrantAuthority.Healthy, SeedsPass, RoomToStop, TurnOk, SmoothFaults;
      ghost var armed := interlock.state.Armed?;
      report := interlock.Trip(world);
      if armed && interlock.reported && interlock.lastReport.value.PersistenceSucceeded() {
        StopStops(authority.loaded, StopReceipt(world.turn, authority.loaded));
      }
    }

    /** `POST /sim/interlock/rearm`: refused without a recorded suspension; otherwise the
        latch clears and no grant changes. */
    method Rearm() returns (r: RearmReply)
      requires Valid()
      modifies interlock
      ensures Valid()
      ensures r.RearmRefused? <==> old(Stuck())
      ensures r.RearmRefused? ==> interlock.state.Tripped? && Stuck()
      ensures r.Rearmed? ==> interlock.state.Armed? && (r.changed <==> old(interlock.state).Tripped?)
      ensures interlock.lastReport == old(interlock.lastReport)
    {
      hide StoppedTale, GrantAuthority.Valid, SimulatedLatchedInterlock.Valid;
      if interlock.state.Tripped? &&
         (interlock.lastReport.None? || !interlock.lastReport.value.PersistenceSucceeded())
      {
        return RearmRefused;
      }
      var changed := interlock.Rearm();
      r := Rearmed(changed);
    }

    /** Two cycles, the second cut short before its durable call: if the first one recorded
        its stop, the second is left again with nothing recorded in it. */
    method StaleReport(first: World, second: World) returns (ghost recorded: bool, r: RearmReply)
      requires Valid() && interlock.state.Armed?
      requires |first.halts| == interlock.adapters == |second.halts|
      requires first.interruption.Uninterrupted? && second.interruption.BeforeDurable?
      modifies interlock, authority, authority.dir, authority.dir.store, authority.dir.ledger
      ensures Valid()
      ensures interlock.Recordable(first) ==> recorded
      ensures recorded ==>
                authority.dir.tale ==
                Tale(authority.loaded + [Receipt(Op.SuspendAll, StopReceipt(first.turn, authority.loaded))], Idle)
      ensures recorded ==> r == Rearmed(true) && interlock.state.Armed?
      ensures !recorded ==> r == RearmRefused && Stuck()
    {
      hide Replay, Receipts, Settled, GrantAuthority.Valid, SimulatedLatchedInterlock.Valid, Reloaded, StoppedTale,
        GrantAuthority.Healthy, SeedsPass, RoomToStop, TurnOk, SmoothFaults, StopReceipt;
      var report := Trip(first);
      recorded := Stopped();
      r := Rearm();
      report := Trip(second);
      r := Rearm();
    }

    /** `POST /grants`: refused while latched. `candidates` are the five random ids. */
    method IssueGrant(g: Grant, candidates: seq<string>, first: Turn, second: Turn) returns (r: IssueReply)
      requires Valid() && |candidates| == 5
      modifies authority, authority.dir, authority.dir.store, authority.dir.ledger
      ensures Valid()
      ensures interlock.state.Tripped? <==> r.Locked?
      ensures r.Locked? ==> authority.dir.tale == old(authority.dir.tale)
      ensures r.CredentialInUse? || r.PolicyInvalid? || r.NoFreeId? ==> authority.dir.tale == Tale(authority.loaded, Idle)
      ensures r.CredentialInUse? ==> CredentialClash(Replay(authority.loaded), g.credential)
      ensures r.NoFreeId? ==> forall c :: c in candidates ==> c in Replay(authority.loaded)
      ensures r.PolicyInvalid? || r.IssuedAs? ==>
                var grants, id := Replay(authority.loaded), FirstFree(candidates, Replay(authority.loaded));
                && id.Some? && !CredentialClash(grants, g.credential)
                && IssueCheck(authority.file, grants, g.(id := id.value), second.instant) ==
                   if r.IssuedAs? then None else Some(r.error)
      ensures r.IssuedAs? ==>
                && Some(r.grant.id) == FirstFree(candidates, Replay(authority.loaded)) && r.grant == g.(id := r.grant.id)
                && authority.dir.tale ==
                   Tale(authority.loaded + [Receipt(Op.Issue(r.grant), IssueReceipt(r.grant, second, authority.loaded))], Idle)
      ensures interlock.state.Armed? && authority.Served(first) && SmoothFaults(second.reload) &&
              Issuable(authority.file, Replay(authority.loaded), g, candidates, second, authority.loaded) ==>
                !r.IssueUnavailable? && !r.IssueUnhandled?
      ensures interlock.state.Armed? && authority.Served(first) && SmoothFaults(second.reload) &&
              SmoothFaults(second.commit) && TurnOk(second, authority.loaded) &&
              Welcome(authority.file, Replay(authority.loaded), g, candidates, second.instant) ==>
                r.IssuedAs?
    {
      hide Replay, Receipts, Settled, GrantAuthority.Valid, SimulatedLatchedInterlock.Valid, Reloaded, StoppedTale,
        IssueCheck, AllOrNothing, Acceptable, SmoothFaults, CredentialClash, IssueReceipt, GrantAuthority.Healthy, SeedsPass,
        WorldOk, RoomFor, RecordOk,
        FirstRefusal, Seeded;
      if interlock.state.Tripped? { return Locked; }
      var begun := authority.EnsureReady(first);
      if begun.SeedRefused? { return IssueUnhandled(begun.error); }
      if begun.Unready? { return IssueUnavailable; }
      TakenClashes(authority.grants, g.credential);
      if CredentialTaken(authority.grants, g.credential) { return CredentialInUse; }
      var id := FirstFree(candidates, authority.grants);
      if id.None? { return NoFreeId; }
      var grant := g.(id := id.value);
      var issued := authority.Issue(grant, second);
      match issued
      case Issued =>
        r := IssuedAs(grant);
      case Conflict => r := CredentialInUse;
      case Rejected(e) => r := PolicyInvalid(e);
      case SeedRejected(e) => r := PolicyInvalid(e);
      case Unavailable => r := IssueUnavailable;
    }

    /** `POST /grants/{id}/revoke`: the id is looked up once the authority is ready, and
        again by the revocation itself. */
    method RevokeGrant(id: string, first: Turn, second: Turn) returns (r: RevokeOutcome)
      requires Valid()
      modifies authority, authority.dir, authority.dir.store, authority.dir.ledger
      ensures Valid()
      ensures r.Revoked? ==>
                && authority.dir.tale ==
                   Tale(authority.loaded + [Receipt(Op.Revoke(id), RevokeReceipt(id, second, authority.loaded))], Idle)
                && id in Replay(authority.loaded) && !Ended(Replay(authority.loaded)[id].status)
      ensures r.NotFound? ==> id !in Replay(authority.loaded) && authority.dir.tale == Tale(authority.loaded, Idle)
      ensures r.AlreadyEnded? ==>
                && id in Replay(authority.loaded) && Ended(Replay(authority.loaded)[id].status)
                && authority.dir.tale == Tale(authority.loaded, Idle)
      ensures authority.Served(first) && SmoothFaults(second.reload) &&
              (id !in Replay(authority.loaded) || Ended(Replay(authority.loaded)[id].status) ||
               (SmoothFaults(second.commit) &&
                Acceptable(authority.file, Op.Revoke(id), authority.loaded, RevokeReceipt(id, second, authority.loaded)))) ==>
                !r.RevokeUnavailable? && !r.RevokeSeedRejected?
      ensures authority.Served(first) && SmoothFaults(second.reload) && SmoothFaults(second.commit) &&
              TurnOk(second, authority.loaded) && id in Replay(authority.loaded) &&
              (Replay(authority.loaded)[id].status == Active || Replay(authority.loaded)[id].status == Suspended) &&
              RoomFor(Op.Revoke(id), Replay(authority.loaded)) ==>
                r.Revoked?
    {
      hide Replay, Receipts, Settled, GrantAuthority.Valid, SimulatedLatchedInterlock.Valid, Reloaded, StoppedTale,
        AllOrNothing, Acceptable, SmoothFaults, RevokeReceipt, GrantAuthority.Healthy, SeedsPass, FirstRefusal, Seeded, WorldOk,
        RoomFor;
      ghost var before := authority.dir.tale;
      var begun := authority.EnsureReady(first);
      ReadyStopped(before, authority.demoSeeds, authority.loaded, authority.dir.tale);
      if begun.SeedRefused? { return RevokeSeedRejected(begun.error); }
      if begun.Unready? { return RevokeUnavailable; }
      if id !in authority.grants { return NotFound; }
      before := authority.dir.tale;
      r := authority.Revoke(id, second);
      if Stopped() { RevokeStopped(before, authority.demoSeeds, authority.loaded, id, second, authority.dir.tale, r); }
    }

    /** The owner projections: due expiries are recorded before grants are shown. */
    method OwnerGrants(turn: Turn, later: nat -> Turn) returns (r: SnapshotOutcome)
      requires Valid()
      modifies authority, authority.dir, authority.dir.store, authority.dir.ledger
      ensures Valid()
      ensures r.Shown? ==> r.grants == ExpireAllDue(Replay(authority.loaded), turn.instant)
      ensures authority.Served(turn) &&
              ExpiresFreely(authority.file, authority.loaded, DueList(Replay(authority.loaded), turn.instant), turn.ts, later) ==>
                r.Shown?
      ensures authority.Served(turn) && RoomToEnd(Replay(authority.loaded)) &&
              ExpiryWorld(authority.loaded, |DueIds(Replay(authority.loaded), turn.instant)|, turn.ts, later) ==>
                r.Shown?
    {
      hide Replay, Receipts, Settled, GrantAuthority.Valid, SimulatedLatchedInterlock.Valid, Reloaded, StoppedTale,
        AllOrNothing, Expiries, Due, DueList, ExpiresFreely, GrantAuthority.Healthy, SeedsPass, RoomToEnd, ExpiryWorld,
        DueIds;
      ghost var before := authority.dir.tale;
      ghost var done, reached, stuck;
      r, done, reached, stuck := authority.Snapshot(turn, later);
      if Stopped() {
        SnapshotStopped(before, authority.demoSeeds, authority.loaded, done, turn.ts, later, reached, stuck,
                        authority.dir.tale);
      }
    }

    // -------------------------------------------------------------- under a grant's own token

    /** A DENY or READ line under the lease, and then the lock is given back. */
    method NoteAndLeave(e: Entry, f: Fault) returns (ok: bool)
      requires authority.Leased() && authority.dir.tale == Tale(authority.loaded, Idle)
      requires e.stamp == None && e.agent in authority.grants
      requires e.etype == DENY || (e.etype == READ && authority.grants[e.agent].status == Active)
      modifies authority.dir, authority.dir.store, authority.dir.ledger
      ensures authority.Valid() && authority.dir.session.Free?
      ensures StoppedTale(old(authority.dir.tale)) ==> StoppedTale(authority.dir.tale)
      ensures ok ==> authority.dir.tale == Tale(authority.loaded + [Note(e)], Idle)
      ensures authority.dir.tale == Tale(authority.loaded, Idle) ||
              authority.dir.tale == Tale(authority.loaded + [Note(e)], Idle)
      ensures Smooth(f) && EntryOk(e) && Fits(e) ==> ok
    {
      hide Replay, Receipts, Settled, Directory.Valid, SimulatedLatchedInterlock.Valid, Reloaded, StoppedTale, IsRun,
        AllOrNothing, Acceptable, SmoothFaults, Matches, DecodeOk, EntryOk, Fits, AllBound, Decide, Smooth, Settled;
      NoteStopped(authority.loaded, e);
      ok := authority.dir.AppendNote(e, f);
      authority.dir.Leave();
    }

    /** `_usable_grant`, up to its yield. A denial leaves exactly one DENY line behind: the
        expiry receipt if the grant was due, a plain line otherwise. */
    method UsableGrant(id: string, presented: Option<string>, action: string, turn: Turn, noted: Fault) returns (r: Usable)
      requires Valid()
      modifies authority, authority.dir, authority.dir.store, authority.dir.ledger
      ensures authority.Valid() && (StoppedTale(old(authority.dir.tale)) ==> StoppedTale(authority.dir.tale))
      ensures r.Granted? ==>
                && interlock.state.Armed? && authority.Leased() && authority.dir.tale == Tale(authority.loaded, Idle)
                && authority.grants == Replay(authority.loaded)
                && MayUse(Replay(authority.loaded), id, presented, turn.instant)
      ensures !r.Granted? ==> authority.dir.session.Free?
      ensures r.Refused? ==>
                && id in Replay(authority.loaded) && presented == Some(Replay(authority.loaded)[id].credential)
                && authority.dir.tale ==
                   Tale(authority.loaded + RefusalItems(Replay(authority.loaded)[id], id, action, turn,
                                                       authority.loaded, r.denial), Idle)
                && if Decide(Replay(authority.loaded)[id], turn.instant).allowed
                   then interlock.state.Tripped? && r.denial == InterlockTripped
                   else r.denial == NotAllowed(Decide(Replay(authority.loaded)[id], turn.instant).reason)
      ensures r.NotAuthentic? ==>
                !(id in Replay(authority.loaded) && presented == Some(Replay(authority.loaded)[id].credential))
                && authority.dir.tale == Tale(authority.loaded, Idle)
      ensures authority.Served(turn) && interlock.state.Armed? &&
              MayUse(Replay(authority.loaded), id, presented, turn.instant) ==>
                r.Granted?
      ensures authority.Served(turn) &&
              !(id in Replay(authority.loaded) && presented == Some(Replay(authority.loaded)[id].credential)) ==>
                r.NotAuthentic?
      ensures authority.Served(turn) && SmoothFaults(turn.commit) && Smooth(noted) && |action| <= 60 &&
              authority.CanRecord(id, action, turn, Replay(authority.loaded), authority.loaded) &&
              id in Replay(authority.loaded) && presented == Some(Replay(authority.loaded)[id].credential) &&
              (interlock.state.Tripped? || !Decide(Replay(authority.loaded)[id], turn.instant).allowed) ==>
                r.Refused?
      ensures r.Refused? && !Due(Replay(authority.loaded)[id], turn.instant) ==>
                LeavesLine(authority.loaded, authority.dir.tale, DENY, id, turn.ts, None)
    {
      hide Replay, Receipts, Settled, Directory.Valid, SimulatedLatchedInterlock.Valid, Reloaded, StoppedTale, IsRun,
        AllOrNothing, Acceptable, SmoothFaults, Matches, DecodeOk, EntryOk, Fits, AllBound, Decide, Smooth, Settled;
      ghost var before := authority.dir.tale;
      var auth := authority.Authorize(id, presented, action, turn);
      if id in Replay(authority.loaded) { DecisionMeans(Replay(authority.loaded)[id], turn.instant); }
      AuthStopped(before, authority.demoSeeds, authority.loaded, id, action, turn, authority.dir.tale, auth);
      match auth
      case AuthFailed => r := NotAuthentic;
      case AuthSeedRejected(e) => r := Unhandled(e);
      case AuthUnavailable => r := AuthorityDown;
      case Authorized(decision) =>
        authority.LeaseIs();
        DecisionMeans(Replay(authority.loaded)[id], turn.instant);
        if decision.allowed && interlock.state.Armed? { return Granted; }
        var denial := if decision.allowed then InterlockTripped else NotAllowed(decision.reason);
        var ok := true;
        DenialTextShort(denial);
        if decision.next.None? {
          assert authority.dir.tale == Tale(authority.loaded, Idle);
          authority.LeaseIs();
          authority.LeaseIdShort(id);
          var line := DenyLine(id, action + " refused: " + DenialText(denial), turn.ts, None);
          ShortNote(line);
          NoteLeaves(authority.loaded, line);
          ok := NoteAndLeave(line, noted);
        } else {
          authority.dir.Leave();
        }
        r := if ok then Refused(denial) else AuditDown;
    }

    /** `GET /housefile`: the view is handed out only once its READ line is in the ledger. */
    method Housefile(id: string, presented: Option<string>, turn: Turn, noted: Fault) returns (r: ReadReply)
      requires Valid()
      modifies authority, authority.dir, authority.dir.store, authority.dir.ledger
      ensures Valid()
      ensures r.Payload? ==>
                && interlock.state.Armed? && MayUse(Replay(authority.loaded), id, presented, turn.instant)
                && r.view == ScopedView(authority.file, Replay(authority.loaded)[id])
                && authority.dir.tale == Tale(authority.loaded + [Note(ReadLine(id, turn.ts))], Idle)
      ensures r.ReadDenied? ==>
                && id in Replay(authority.loaded)
                && authority.dir.tale ==
                   Tale(authority.loaded + RefusalItems(Replay(authority.loaded)[id], id, "scoped read", turn,
                                                       authority.loaded, r.denial), Idle)
      ensures authority.Served(turn) && interlock.state.Armed? && Smooth(noted) &&
              MayUse(Replay(authority.loaded), id, presented, turn.instant) &&
              EntryOk(ReadLine(id, turn.ts)) && Fits(ReadLine(id, turn.ts)) ==>
                r.Payload?
      ensures r.Payload? ==> LeavesLine(authority.loaded, authority.dir.tale, READ, id, turn.ts, None)
      ensures authority.Served(turn) && interlock.state.Armed? && Smooth(noted) &&
              MayUse(Replay(authority.loaded), id, presented, turn.instant) && 0 < |turn.ts| <= MAX_POLICY_LENGTH ==>
                r.Payload?
    {
      hide Replay, Receipts, Settled, Directory.Valid, SimulatedLatchedInterlock.Valid, Reloaded, StoppedTale, IsRun,
        AllOrNothing, Acceptable, SmoothFaults, Matches, DecodeOk, EntryOk, Fits, AllBound, Decide, Smooth, Settled;
      var usable := UsableGrant(id, presented, "scoped read", turn, noted);
      match usable
      case NotAuthentic => r := Unauthenticated;
      case AuthorityDown => r := AuthorityUnavailable;
      case AuditDown => r := AuditUnavailable;
      case Unhandled(e) => r := ReadUnhandled(e);
      case Refused(denial) => r := ReadDenied(denial);
      case Granted =>
        DecisionMeans(authority.grants[id], turn.instant);
        var view := ScopedView(authority.file, authority.grants[id]);
        var line := if view.InactiveView? then DenyLine(id, "scoped read", turn.ts, None) else ReadLine(id, turn.ts);
        authority.LeaseIdShort(id);
        ShortNote(line);
        NoteLeaves(authority.loaded, line);
        var ok := NoteAndLeave(line, noted);
        r := if ok then Payload(view) else AuditUnavailable;
    }

    /** `POST /command`: nothing is ever relayed, and every evaluation leaves one DENY line. */
    method Command(c: Command, quiet: QuietHours, presented: Option<string>, turn: Turn, noted: Fault) returns (r: CommandReply)
      requires Valid()
      modifies authority, authority.dir, authority.dir.store, authority.dir.ledger
      ensures Valid()
      ensures r.AllowedNotRelayed? || r.GateRefused? || r.UnsupportedParams? || r.QuietRefused? ==>
                && interlock.state.Armed? && MayUse(Replay(authority.loaded), c.grant, presented, turn.instant)
                && r == Evaluation(authority.file, Replay(authority.loaded)[c.grant], c, quiet)
                && authority.dir.tale == Tale(authority.loaded + [Note(EvaluationLine(c.grant, r, turn.ts))], Idle)
      ensures Evaluated(r) ==>
                AnswersHolder(r, authority.file, Replay(authority.loaded)[c.grant], c, quiet)
      ensures Evaluated(r) ==>
                LeavesLine(authority.loaded, authority.dir.tale, DENY, c.grant, turn.ts,
                              if r.AllowedNotRelayed? then Some("UNAVAILABLE") else None)
      ensures authority.Served(turn) && interlock.state.Armed? && Smooth(noted) &&
              MayUse(Replay(authority.loaded), c.grant, presented, turn.instant) && 0 < |turn.ts| <= MAX_POLICY_LENGTH ==>
                Evaluated(r)
      ensures r.CommandDenied? ==>
                && c.grant in Replay(authority.loaded)
                && authority.dir.tale ==
                   Tale(authority.loaded + RefusalItems(Replay(authority.loaded)[c.grant], c.grant, "command", turn,
                                                       authority.loaded, r.denial), Idle)
    {
      hide Replay, Receipts, Settled, Directory.Valid, SimulatedLatchedInterlock.Valid, Reloaded, StoppedTale, IsRun,
        AllOrNothing, Acceptable, SmoothFaults, Matches, DecodeOk, EntryOk, Fits, AllBound, Decide, Smooth, Settled, AnswersHolder,
        Evaluation, EvaluationLine, LeavesLine;
      var usable := UsableGrant(c.grant, presented, "command", turn, noted);
      match usable
      case NotAuthentic => r := CommandUnauthenticated;
      case AuthorityDown => r := CommandAuthorityUnavailable;
      case AuditDown => r := CommandAuditUnavailable;
      case Unhandled(e) => r := CommandUnhandled(e);
      case Refused(denial) => r := CommandDenied(denial);
      case Granted =>
        var g := authority.grants[c.grant];
        DecisionMeans(g, turn.instant);
        EvaluationAnswers(authority.file, g, c, quiet);
        r := Evaluation(authority.file, g, c, quiet);
        var line := EvaluationLine(c.grant, r, turn.ts);
        EvaluationLineIs(c.grant, r, turn.ts);
        authority.LeaseIdShort(c.grant);
        ShortNote(line);
        NoteLeaves(authority.loaded, line);
        var ok := NoteAndLeave(line, noted);
        if !ok { r := CommandAuditUnavailable; }
    }
  }

  lemma NoteStopped(log: seq<Item>, e: Entry)
    ensures StoppedTale(Tale(log, Idle)) ==> StoppedTale(Tale(log + [Note(e)], Idle))
  {
    NoteReplay(log, e);
  }

  lemma DecisionMeans(g: Grant, now: int)
    ensures Decide(g, now).allowed ==> g.status == Active && Decide(g, now).next.None?
    ensures Decide(g, now).next.Some? <==> Due(g, now)
  {
  }

  lemma AuthStopped(before: Tale, seeds: seq<Grant>, loaded: seq<Item>, id: string, action: string, turn: Turn,
                    after: Tale, r: AuthOutcome)
    requires Reloaded(before, seeds, loaded)
    requires r.Authorized? ==>
               id in Replay(loaded) && after == Tale(loaded + ExpiryItems(Replay(loaded)[id], id, action, turn, loaded), Idle)
    requires r.AuthFailed? ==> after == Tale(loaded, Idle)
    requires r.AuthUnavailable? ==> AllOrNothing(loaded, Op.Expire(id), Settled(after))
    requires r.AuthSeedRejected? ==> loaded == []
    ensures StoppedTale(before) ==> StoppedTale(after)
  {
    hide Due, Replay;
    if StoppedTale(before) {
      ReloadKeepsStopped(before, seeds, loaded);
      SettledIdle(after);
      if r.Authorized? { assert AllOrNothing(loaded, Op.Expire(id), after.log); }
      CommitKeepsStopped(loaded, Op.Expire(id), Settled(after));
    }
  }

  lemma {:induction false} ExpiriesKeepStopped(base: seq<Item>, ids: seq<string>, ts: string, later: nat -> Turn,
                                               log: seq<Item>)
    requires Expiries(base, ids, ts, later, log) && base != [] && NoneActive(Replay(base))
    ensures log != [] && NoneActive(Replay(log))
    decreases |ids|
  {
    if ids != [] {
      var n := |ids| - 1;
      ExpiriesKeepStopped(base, ids[..n], ts, later, log[..|log| - 1]);
      CommitKeepsStopped(log[..|log| - 1], Op.Expire(ids[n]), log);
    }
  }

  lemma SnapshotStopped(before: Tale, seeds: seq<Grant>, loaded: seq<Item>, done: seq<string>, ts: string,
                        later: nat -> Turn, reached: seq<Item>, stuck: string, after: Tale)
    requires StoppedTale(before) && Reloaded(before, seeds, loaded)
    requires Expiries(loaded, done, ts, later, reached)
    requires after == Tale(reached, Idle) || AllOrNothing(reached, Op.Expire(stuck), Settled(after))
    ensures StoppedTale(after)
  {
    hide Expiries;
    ReloadKeepsStopped(before, seeds, loaded);
    ExpiriesKeepStopped(loaded, done, ts, later, reached);
    SettledIdle(after);
    CommitKeepsStopped(reached, Op.Expire(stuck), Settled(after));
  }

  lemma TakenClashes(grants: map<string, Grant>, credential: string)
    ensures CredentialTaken(grants, credential) ==> CredentialClash(grants, credential)
  {
  }

  lemma ReadyStopped(before: Tale, seeds: seq<Grant>, loaded: seq<Item>, after: Tale)
    requires Reloaded(before, seeds, loaded) && loaded == Settled(after)
    ensures StoppedTale(before) ==> StoppedTale(after)
  {
    if StoppedTale(before) { ReloadKeepsStopped(before, seeds, loaded); }
  }

  lemma RevokeStopped(before: Tale, seeds: seq<Grant>, loaded: seq<Item>, id: string, turn: Turn, after: Tale,
                      r: RevokeOutcome)
    requires StoppedTale(before) && Reloaded(before, seeds, loaded)
    requires r.NotFound? || r.AlreadyEnded? ==> after == Tale(loaded, Idle)
    requires r.Revoked? ==> after == Tale(loaded + [Receipt(Op.Revoke(id), RevokeReceipt(id, turn, loaded))], Idle)
    requires r.RevokeUnavailable? ==> AllOrNothing(loaded, Op.Revoke(id), Settled(after))
    requires r.RevokeSeedRejected? ==> loaded == []
    ensures StoppedTale(after)
  {
    ReloadKeepsStopped(before, seeds, loaded);
    SettledIdle(after);
    CommitKeepsStopped(loaded, Op.Revoke(id), Settled(after));
  }
}
