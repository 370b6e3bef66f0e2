/** The simulated latched stop interlock: it latches first, then makes one durable call
    and one halt call per adapter. */
module Interlocks {
  import opened Outcomes
  import opened Grants
  import opened AtomicLog
  import opened Protocol
  import opened StopRoom
  import opened Authority

  datatype InterlockState = Armed | Tripped

  datatype TripReport = TripReport(
    newlyTripped: bool,
    trippedAt: Option<int>,
    persistenceAttempts: nat,
    persistenceFailures: nat,
    suspendedGrants: Option<nat>,
    adapterAttempts: nat,
    adapterCompletions: nat,
    adapterFailures: nat,
    displayAttempts: nat,
    displayFailures: nat,
    receiptAttempts: nat,
    receiptFailures: nat)
  {
    predicate PersistenceSucceeded() {
      persistenceAttempts == 1 && persistenceFailures == 0
    }

    predicate CountsAgree() {
      && adapterAttempts == adapterCompletions + adapterFailures
      && persistenceAttempts <= 1 && persistenceFailures <= persistenceAttempts
      && (PersistenceSucceeded() <==> suspendedGrants.Some?)
      && displayFailures <= displayAttempts <= 1 && receiptFailures <= receiptAttempts <= 1
    }
  }

  const EMPTY_TRIPPED := TripReport(false, None, 0, 0, None, 0, 0, 0, 0, 0, 0, 0)

  /** Where an exception no handler of `trip` catches gets in, if anywhere. */
  datatype Interruption = Uninterrupted | BeforeDurable | AfterDurable

  /** What one trip meets: the clock, the durable call, and which callbacks complete. */
  datatype World = World(instant: Option<int>, turn: Turn, halts: seq<bool>, display: bool, receipt: bool,
                         interruption: Interruption)

  /** What the interlock does to the outside, in order. */
  datatype Mark = Latched | DurableCall | HaltCall(adapter: nat)

  function Completions(halts: seq<bool>): (n: nat)
    ensures n <= |halts|
  {
    if halts == [] then 0 else Completions(halts[..|halts| - 1]) + if halts[|halts| - 1] then 1 else 0
  }

  function Halts(adapters: nat): (h: seq<Mark>)
    ensures |h| == adapters && forall i :: 0 <= i < adapters ==> h[i] == HaltCall(i)
  {
    seq(adapters, i requires 0 <= i < adapters => HaltCall(i))
  }

  /** The marks of one latch cycle that has reached `adapters` adapters. */
  function Cycle(durable: bool, adapters: nat): seq<Mark> {
    [Latched] + (if durable then [DurableCall] else []) + Halts(adapters)
  }

  /** No call is repeated without a new latch in between, and none comes before a latch. */
  ghost predicate OncePerCycle(history: seq<Mark>) {
    && (history != [] ==> history[0].Latched?)
    && forall i, j :: 0 <= i < j < |history| && history[i] == history[j] && !history[i].Latched? ==>
         LatchedBetween(history, i, j)
  }

  ghost predicate LatchedBetween(history: seq<Mark>, i: nat, j: nat)
    requires i < j < |history|
  {
    exists k :: i < k < j && history[k].Latched?
  }

  lemma CycleKeeps(history: seq<Mark>, durable: bool, adapters: nat)
    requires OncePerCycle(history)
    ensures OncePerCycle(history + Cycle(durable, adapters))
  {
    var more, n := history + Cycle(durable, adapters), |history|;
    assert more[n].Latched?;
    forall i, j | 0 <= i < j < |more| && more[i] == more[j] && !more[i].Latched?
      ensures LatchedBetween(more, i, j)
    {
      if j < n {
        assert LatchedBetween(history, i, j);
        var k :| i < k < j && history[k].Latched?;
        assert more[k].Latched?;
      } else if i < n {
        assert more[n].Latched?;
      }
    }
  }

  lemma CycleParts(history: seq<Mark>, durable: bool, adapters: nat)
    ensures history + [Latched] + (if durable then [DurableCall] else []) + Halts(adapters) ==
            history + Cycle(durable, adapters)
    ensures adapters == 0 ==>
              history + [Latched] + (if durable then [DurableCall] else []) == history + Cycle(durable, adapters)
    ensures adapters == 0 && !durable ==> history + [Latched] == history + Cycle(durable, adapters)
  {
  }

  class SimulatedLatchedInterlock {
    const authority: GrantAuthority
    const adapters: nat
    const hasDisplay: bool
    const hasReceipt: bool
    var state: InterlockState
    var lastReport: Option<TripReport>
    /** Whether the last report belongs to the cycle that is latched now. */
    ghost var reported: bool
    ghost var history: seq<Mark>

    ghost predicate Valid()
      reads this
    {
      && OncePerCycle(history)
      && (lastReport.Some? ==> lastReport.value.CountsAgree())
      && (reported ==> lastReport.Some? && state.Tripped?)
    }

    constructor (authority: GrantAuthority, adapters: nat, hasDisplay: bool, hasReceipt: bool)
      ensures Valid() && state == Armed && lastReport == None && history == []
      ensures this.authority == authority && this.adapters == adapters
    {
      this.authority, this.adapters := authority, adapters;
      this.hasDisplay, this.hasReceipt := hasDisplay, hasReceipt;
      state, lastReport, reported, history := Armed, None, false, [];
    }

    /** One `halt_all` per adapter, each independent of the others. */
    method HaltAll(halts: seq<bool>) returns (attempts: nat, completions: nat)
      requires |halts| == adapters
      modifies this`history
      ensures attempts == adapters && completions == Completions(halts)
      ensures history == old(history) + Halts(adapters)
    {
      attempts, completions := 0, 0;
      while attempts < adapters
        invariant attempts <= adapters && completions == Completions(halts[..attempts])
        invariant history == old(history) + Halts(attempts)
      {
        history := history + [HaltCall(attempts)];
        assert Halts(attempts + 1) == Halts(attempts) + [HaltCall(attempts)];
        assert halts[..attempts + 1][..attempts] == halts[..attempts];
        if halts[attempts] { completions := completions + 1; }
        attempts := attempts + 1;
      }
      assert halts[..adapters] == halts;
    }

    /** When the durable call must get through: a clock, a directory that serves, no faults,
        and room for the stop. */
    twostate predicate Recordable(world: World)
      reads authority, authority.dir, authority.dir.store, authority.dir.ledger
    {
      && world.instant.Some? && authority.Served(world.turn) && SmoothFaults(world.turn.commit)
      && RoomToStop(Replay(authority.loaded)) && TurnOk(world.turn, authority.loaded)
    }

    /** The durable callback of a new cycle: one ESTOP commit, if there is a clock. */
    method Persist(world: World) returns (attempts: nat, failures: nat, suspended: Option<nat>)
      requires authority.Valid() && authority.dir.session.Free?
      modifies this`history, authority, authority.dir, authority.dir.store, authority.dir.ledger
      ensures authority.Valid() && authority.dir.session.Free?
      ensures attempts <= 1 && failures <= attempts && (suspended.Some? <==> attempts == 1 && failures == 0)
      ensures attempts == 1 <==> world.instant.Some?
      ensures history == old(history) + if world.instant.Some? then [DurableCall] else []
      ensures world.instant.None? ==>
                authority.dir.tale == old(authority.dir.tale) && authority.loaded == old(authority.loaded)
      ensures suspended.Some? ==>
                && Reloaded(old(authority.dir.tale), authority.demoSeeds, authority.loaded)
                && suspended.value == |ActiveIds(Replay(authority.loaded))|
                && authority.dir.tale ==
                   Tale(authority.loaded + [Receipt(SuspendAll, StopReceipt(world.turn, authority.loaded))], Idle)
      ensures attempts == 1 && failures == 1 ==>
                Reloaded(old(authority.dir.tale), authority.demoSeeds, authority.loaded)
      ensures Recordable(world) ==> suspended.Some?
    {
      hide Replay, Receipts, Settled, GrantAuthority.Valid, Reloaded, ActiveIds, AllOrNothing, NoneActive, SuspendActive,
        Acceptable, SmoothFaults, RoomToStop, TurnOk, GrantAuthority.Healthy, SeedsPass;
      attempts, failures, suspended := 0, 0, None;
      if world.instant.None? { return; }
      attempts := 1;
      history := history + [DurableCall];
      var r := authority.SuspendAll(world.turn);
      if r.SuspendedAll? { suspended := Some(r.count); } else { failures := 1; }
    }

    /** The report of a cycle that met no interruption; it counts one attempt per adapter. */
    function Report(world: World, attempts: nat, failures: nat, suspended: Option<nat>, completed: nat): (r: TripReport)
      requires attempts <= 1 && failures <= attempts && (suspended.Some? <==> attempts == 1 && failures == 0)
      requires completed <= adapters
      ensures r.CountsAgree() && r.newlyTripped && r.trippedAt == world.instant && r.suspendedGrants == suspended
      ensures r.persistenceAttempts == attempts && r.persistenceFailures == failures
      ensures r.adapterAttempts == adapters && r.adapterCompletions == completed
    {
      TripReport(true, world.instant, attempts, failures, suspended, adapters, completed, adapters - completed,
                 if hasDisplay then 1 else 0, if hasDisplay && !world.display then 1 else 0,
                 if hasReceipt then 1 else 0, if hasReceipt && !world.receipt then 1 else 0)
    }

    /** `trip`. A repeated trip while latched calls nothing and repeats the report. */
    method Trip(world: World) returns (report: Option<TripReport>)
      requires Valid() && |world.halts| == adapters
      requires authority.Valid() && authority.dir.session.Free?
      modifies this, authority, authority.dir, authority.dir.store, authority.dir.ledger
      ensures Valid() && authority.Valid() && authority.dir.session.Free? && state.Tripped?
      ensures old(state).Tripped? ==>
                && lastReport == old(lastReport) && reported == old(reported) && history == old(history)
                && report == Some(if old(lastReport).Some? then old(lastReport).value.(newlyTripped := false)
                                  else EMPTY_TRIPPED)
      ensures old(state).Armed? && world.interruption.Uninterrupted? ==>
                && report.Some? && lastReport == report && reported && report.value.newlyTripped
                && report.value.trippedAt == world.instant
                && report.value.adapterAttempts == adapters && report.value.adapterCompletions == Completions(world.halts)
                && (report.value.persistenceAttempts == 1 <==> world.instant.Some?)
                && history == old(history) + Cycle(world.instant.Some?, adapters)
      ensures old(state).Armed? && !world.interruption.Uninterrupted? ==>
                report == None && lastReport == old(lastReport) && !reported
      ensures old(state).Armed? && reported && lastReport.value.PersistenceSucceeded() ==>
                && Reloaded(old(authority.dir.tale), authority.demoSeeds, authority.loaded)
                && lastReport.value.suspendedGrants == Some(|ActiveIds(Replay(authority.loaded))|)
                && authority.dir.tale ==
                   Tale(authority.loaded + [Receipt(SuspendAll, StopReceipt(world.turn, authority.loaded))], Idle)
      ensures old(state).Tripped? || world.instant.None? || world.interruption.BeforeDurable? ==>
                authority.dir.tale == old(authority.dir.tale) && authority.loaded == old(authority.loaded)
      ensures old(state).Armed? && world.interruption.Uninterrupted? && Recordable(world) ==>
                reported && lastReport.value.PersistenceSucceeded()
    {
      hide Replay, Receipts, Settled, GrantAuthority.Valid, Reloaded, ActiveIds, OncePerCycle, StopReceipt, RoomToStop,
        TurnOk, GrantAuthority.Healthy, SeedsPass, SmoothFaults, Halts, Completions, LatchedBetween, Cycle,
        SimulatedLatchedInterlock.Report, TripReport.CountsAgree;
      if state.Tripped? {
        if lastReport.None? { return Some(EMPTY_TRIPPED); }
        return Some(lastReport.value.(newlyTripped := false));
      }
      ghost var before := history;
      CycleKeeps(before, false, 0);
      CycleKeeps(before, world.instant.Some?, 0);
      CycleKeeps(before, world.instant.Some?, adapters);
      CycleParts(before, false, 0);
      CycleParts(before, world.instant.Some?, 0);
      CycleParts(before, world.instant.Some?, adapters);
      state, reported := Tripped, false;
      history := history + [Latched];
      if world.interruption.BeforeDurable? { return None; }
      var attempts, failures, suspended := Persist(world);
      if world.interruption.AfterDurable? { return None; }
      var _, completed := HaltAll(world.halts);
      var full := Report(world, attempts, failures, suspended, completed);
      lastReport, reported := Some(full), true;
      report := lastReport;
    }

    /** `rearm`: the latch, and nothing but the latch. */
    method Rearm() returns (changed: bool)
      requires Valid()
      modifies this`state, this`reported
      ensures Valid() && state.Armed? && (changed <==> old(state).Tripped?)
    {
      changed := state.Tripped?;
      state, reported := Armed, false;
    }
  }
}
