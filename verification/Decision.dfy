/** The write-once owner decision: any number of writers race to put one artifact at the
    same path through the same staging name, every step may fail, and any writer may die
    between two steps. */
module Decisions {
  import opened Bytes
  import opened Outcomes

  /** A directory entry's file: who created it, and what is in it. Each writer creates at
      most one file, so entries with the same creator are names of the same file. */
  datatype File = File(writer: nat, bytes: seq<byte>)

  /** Where a writer stands in `_atomic_private_artifact`. */
  datatype Phase =
    | Checked                     // the decision path did not exist a moment ago
    | Staged                      // staging file created, not yet complete
    | Written                     // complete, synced and closed
    | Linked                      // the artifact is in place, staging still there
    | Unlinked                    // staging gone, directory not yet synced
    | Undoing                     // directory sync failed: first attempt to take the artifact back
    | Retrying(ownsStaging: bool) // the outer handler's attempt to take it back
    | Cleaning                    // about to remove the staging file
    | Succeeded
    | Abandoned
    | Crashed

  datatype State = State(artifact: Option<File>, staging: Option<File>, phases: map<nat, Phase>)

  const START := State(None, None, map[])

  datatype Step =
    | Look(w: nat)
    | Create(w: nat, r: Ending)
    | Write(w: nat, kept: nat, r: Ending)
    | Link(w: nat, r: Ending)
    | Unstage(w: nat, r: Ending)
    | Sync(w: nat, r: Ending)
    | Undo(w: nat, r: Ending)
    | Retry(w: nat, r: Ending)
    | Clean(w: nat, r: Ending)
    | Crash(w: nat)

  predicate At(s: State, w: nat, p: Phase) {
    w in s.phases && s.phases[w] == p
  }

  function To(s: State, w: nat, p: Phase): State {
    s.(phases := s.phases[w := p])
  }

  /** `unlink` removes whatever has the name, whoever made it. */
  function Unlinking(file: Option<File>, r: Ending): Option<File> {
    if r.Error? then file else None
  }

  /** Whatever a name shows of the file that `w` created, after `w` has written it. */
  function Rewritten(file: Option<File>, w: nat, bytes: seq<byte>): Option<File> {
    if file.Some? && file.value.writer == w then Some(File(w, bytes)) else file
  }

  /** A write goes through the descriptor, to every name that the file has. */
  function Writing(s: State, w: nat, bytes: seq<byte>): State {
    s.(artifact := Rewritten(s.artifact, w, bytes), staging := Rewritten(s.staging, w, bytes))
  }

  /** What every writer wants to write is fixed by `data`. */
  predicate Does(s: State, step: Step, data: nat -> seq<byte>, s': State) {
    match step
    case Look(w) => w !in s.phases && s' == To(s, w, if s.artifact.None? then Checked else Abandoned)
    case Create(w, r) =>
      && At(s, w, Checked)
      && s' == if r.Error? || s.staging.Some? then To(s, w, Abandoned)
               else To(s.(staging := Some(File(w, []))), w, if r.Ok? then Staged else Abandoned)
    case Write(w, kept, r) =>
      && At(s, w, Staged) && kept <= |data(w)|
      && s' == if r.Ok? then To(Writing(s, w, data(w)), w, Written)
               else To(Writing(s, w, data(w)[..kept]), w, Cleaning)
    case Link(w, r) =>
      && At(s, w, Written)
      && s' == if r.Error? || s.artifact.Some? || s.staging.None? then To(s, w, Cleaning)
               else To(s.(artifact := s.staging), w, if r.Ok? then Linked else Cleaning)
    case Unstage(w, r) =>
      && At(s, w, Linked)
      && s' == To(s.(staging := Unlinking(s.staging, r)), w,
                  if r.Ok? && s.staging.Some? then Unlinked else Retrying(true))
    case Sync(w, r) => At(s, w, Unlinked) && s' == To(s, w, if r.Ok? then Succeeded else Undoing)
    case Undo(w, r) =>
      && At(s, w, Undoing)
      && s' == To(s.(artifact := Unlinking(s.artifact, r)), w,
                  if r.Ok? && s.artifact.Some? then Abandoned else Retrying(false))
    case Retry(w, r) =>
      && w in s.phases && s.phases[w].Retrying?
      && s' == To(s.(artifact := Unlinking(s.artifact, r)), w, if s.phases[w].ownsStaging then Cleaning else Abandoned)
    case Clean(w, r) => At(s, w, Cleaning) && s' == To(s.(staging := Unlinking(s.staging, r)), w, Abandoned)
    case Crash(w) => w in s.phases && !s.phases[w].Succeeded? && s' == To(s, w, Crashed)
  }

  /** The two removals that are repeated by name after an error may report one after taking
      effect only where that is permitted. */
  predicate Permitted(step: Step, lateUndo: bool, lateUnstage: bool) {
    (step.Undo? && step.r.LateError? ==> lateUndo) && (step.Unstage? && step.r.LateError? ==> lateUnstage)
  }

  datatype Run = Run(states: seq<State>, steps: seq<Step>)

  predicate IsRun(run: Run, data: nat -> seq<byte>) {
    && |run.states| == |run.steps| + 1 && run.states[0] == START
    && forall i :: 0 <= i < |run.steps| ==> Does(run.states[i], run.steps[i], data, run.states[i + 1])
  }

  predicate Permits(run: Run, lateUndo: bool, lateUnstage: bool) {
    forall i :: 0 <= i < |run.steps| ==> Permitted(run.steps[i], lateUndo, lateUnstage)
  }

  // ---------------------------------------------------------------- the invariant

  /** Phases in which the staging file is the writer's own. */
  predicate OwnsStaging(p: Phase) {
    p.Staged? || p.Written? || p.Linked? || p.Cleaning? || (p.Retrying? && p.ownsStaging)
  }

  /** Phases in which the artifact is the writer's own. */
  predicate OwnsArtifact(p: Phase) {
    p.Linked? || p.Unlinked? || p.Undoing? || p.Retrying? || p.Succeeded?
  }

  predicate StagingInv(s: State, data: nat -> seq<byte>) {
    && (forall w :: w in s.phases && OwnsStaging(s.phases[w]) ==> s.staging.Some? && s.staging.value.writer == w)
    && (forall w :: w in s.phases && (s.phases[w].Written? || s.phases[w].Linked?) ==>
          s.staging == Some(File(w, data(w))))
  }

  predicate ArtifactInv(s: State, data: nat -> seq<byte>) {
    forall w :: w in s.phases && OwnsArtifact(s.phases[w]) ==> s.artifact == Some(File(w, data(w)))
  }

  predicate KnownWriters(s: State) {
    && (s.staging.Some? ==> s.staging.value.writer in s.phases)
    && (s.artifact.Some? ==> s.artifact.value.writer in s.phases)
  }

  /** One writer at most believes that the artifact is its own, and then there is one. */
  predicate SoleOwner(s: State) {
    && (forall w :: w in s.phases && OwnsArtifact(s.phases[w]) ==> s.artifact.Some?)
    && forall w, v :: w in s.phases && v in s.phases && OwnsArtifact(s.phases[w]) && OwnsArtifact(s.phases[v]) ==>
         w == v
  }

  /** What holds of the files under the faults that are permitted. */
  predicate Inv(s: State, data: nat -> seq<byte>, lateUndo: bool, lateUnstage: bool) {
    && KnownWriters(s)
    && (!lateUnstage ==> StagingInv(s, data))
    && (!lateUndo ==> SoleOwner(s))
    && (!lateUndo && !lateUnstage ==> ArtifactInv(s, data))
  }

  lemma StepKeepsStaging(s: State, step: Step, data: nat -> seq<byte>, s': State, lateUndo: bool)
    requires StagingInv(s, data) && KnownWriters(s) && Does(s, step, data, s') && Permitted(step, lateUndo, false)
    ensures StagingInv(s', data)
  {
  }

  lemma StepKeepsSole(s: State, step: Step, data: nat -> seq<byte>, s': State, lateUnstage: bool)
    requires SoleOwner(s) && Does(s, step, data, s') && Permitted(step, false, lateUnstage)
    ensures SoleOwner(s')
  {
  }

  lemma StepKeepsArtifact(s: State, step: Step, data: nat -> seq<byte>, s': State)
    requires StagingInv(s, data) && ArtifactInv(s, data) && KnownWriters(s)
    requires Does(s, step, data, s') && Permitted(step, false, false)
    ensures ArtifactInv(s', data)
  {
  }

  lemma StepKeepsKnown(s: State, step: Step, data: nat -> seq<byte>, s': State)
    requires KnownWriters(s) && Does(s, step, data, s')
    ensures KnownWriters(s')
  {
  }

  lemma StepKeeps(s: State, step: Step, data: nat -> seq<byte>, s': State, lateUndo: bool, lateUnstage: bool)
    requires Inv(s, data, lateUndo, lateUnstage) && Does(s, step, data, s') && Permitted(step, lateUndo, lateUnstage)
    ensures Inv(s', data, lateUndo, lateUnstage)
  {
    hide Does, StagingInv, SoleOwner, ArtifactInv, KnownWriters, Permitted;
    StepKeepsKnown(s, step, data, s');
    if !lateUnstage { StepKeepsStaging(s, step, data, s', lateUndo); }
    if !lateUndo { StepKeepsSole(s, step, data, s', lateUnstage); }
    if !lateUndo && !lateUnstage { StepKeepsArtifact(s, step, data, s'); }
  }

  lemma {:induction false} RunKeeps(run: Run, data: nat -> seq<byte>, i: nat, lateUndo: bool, lateUnstage: bool)
    requires IsRun(run, data) && Permits(run, lateUndo, lateUnstage) && i < |run.states|
    ensures Inv(run.states[i], data, lateUndo, lateUnstage)
    decreases i
  {
    hide Does, Inv, Permitted;
    if i == 0 {
      StartInv(data, lateUndo, lateUnstage);
    } else {
      RunKeeps(run, data, i - 1, lateUndo, lateUnstage);
      StepKeeps(run.states[i - 1], run.steps[i - 1], data, run.states[i], lateUndo, lateUnstage);
    }
  }

  lemma StartInv(data: nat -> seq<byte>, lateUndo: bool, lateUnstage: bool)
    ensures Inv(START, data, lateUndo, lateUnstage)
  {
  }

  // ---------------------------------------------------------------- what the race guarantees

  lemma SuccessStep(s: State, step: Step, data: nat -> seq<byte>, s': State, w: nat)
    requires Does(s, step, data, s') && At(s, w, Succeeded)
    ensures At(s', w, Succeeded)
    ensures SoleOwner(s) && s.artifact.Some? ==>
              s'.artifact.Some? && s'.artifact.value.writer == s.artifact.value.writer
  {
  }

  /** Success is final, and where taking an artifact back is honest the file at the path
      stays the same file from then on. */
  lemma {:induction false} SuccessStays(run: Run, data: nat -> seq<byte>, i: nat, j: nat, w: nat, lateUndo: bool,
                                        lateUnstage: bool)
    requires IsRun(run, data) && Permits(run, lateUndo, lateUnstage) && i <= j < |run.states|
    requires At(run.states[i], w, Succeeded)
    ensures At(run.states[j], w, Succeeded)
    ensures var before, after := run.states[i].artifact, run.states[j].artifact;
            !lateUndo ==> before.Some? && after.Some? && after.value.writer == before.value.writer
    decreases j
  {
    hide Does, Permits;
    RunKeeps(run, data, i, lateUndo, lateUnstage);
    if i < j {
      SuccessStays(run, data, i, j - 1, w, lateUndo, lateUnstage);
      RunKeeps(run, data, j - 1, lateUndo, lateUnstage);
      SuccessStep(run.states[j - 1], run.steps[j - 1], data, run.states[j], w);
    }
  }

  /** Two successes anywhere in a run are the same writer's, however staging files are
      removed. */
  lemma OneWinnerEver(run: Run, data: nat -> seq<byte>, i: nat, j: nat, w: nat, v: nat, lateUnstage: bool)
    requires IsRun(run, data) && Permits(run, false, lateUnstage) && i <= j < |run.states|
    requires At(run.states[i], w, Succeeded) && At(run.states[j], v, Succeeded)
    ensures w == v
  {
    hide Does, Permits;
    SuccessStays(run, data, i, j, w, false, lateUnstage);
    RunKeeps(run, data, j, false, lateUnstage);
  }

  /** From its success on, the winner's bytes stay at the decision path. */
  lemma WinnerStays(run: Run, data: nat -> seq<byte>, i: nat, j: nat, w: nat)
    requires IsRun(run, data) && Permits(run, false, false) && i <= j < |run.states| && At(run.states[i], w, Succeeded)
    ensures At(run.states[j], w, Succeeded) && run.states[j].artifact == Some(File(w, data(w)))
  {
    hide Does, Permits;
    SuccessStays(run, data, i, j, w, false, false);
    RunKeeps(run, data, j, false, false);
  }

  /** The step of `w` leaves a name that shows another writer's file alone. */
  predicate Spares(before: Option<File>, w: nat, after: Option<File>) {
    before.Some? && before.value.writer != w ==> after == before
  }

  /** Nobody removes, replaces or rewrites anybody else's staging file, or artifact. */
  lemma OthersUntouched(run: Run, data: nat -> seq<byte>, i: nat, lateUndo: bool)
    requires IsRun(run, data) && Permits(run, lateUndo, false) && i < |run.steps|
    ensures var s, s', w := run.states[i], run.states[i + 1], run.steps[i].w;
            && Spares(s.staging, w, s'.staging)
            && (!lateUndo ==> Spares(s.artifact, w, s'.artifact))
  {
    RunKeeps(run, data, i, lateUndo, false);
  }

  // ---------------------------------------------------------------- particular runs

  function Last(run: Run): State
    requires run.states != []
  {
    run.states[|run.states| - 1]
  }

  lemma Extend(run: Run, data: nat -> seq<byte>, step: Step, s': State, k: nat) returns (more: Run)
    requires IsRun(run, data) && Does(Last(run), step, data, s')
    requires LateOnlyAt(run, k) && (k == |run.steps| || !(step.Undo? || step.Unstage?) || !step.r.LateError?)
    ensures IsRun(more, data) && more == Run(run.states + [s'], run.steps + [step]) && Last(more) == s'
    ensures LateOnlyAt(more, k)
  {
    more := Run(run.states + [s'], run.steps + [step]);
  }

  /** Every step of the run but perhaps step `k` is honest. */
  predicate LateOnlyAt(run: Run, k: nat) {
    forall i :: 0 <= i < |run.steps| && i != k ==> Permitted(run.steps[i], false, false)
  }

  /** Only one step of the run is not honest, and it is `late`. */
  ghost predicate OneLate(run: Run, late: Step) {
    exists k: nat :: k < |run.steps| && run.steps[k] == late && LateOnlyAt(run, k)
  }

  const LATE_UNDO := Undo(0, LateError)
  const LATE_UNSTAGE := Unstage(0, LateError)

  lemma OneLatePermits(run: Run, late: Step, lateUndo: bool, lateUnstage: bool)
    requires OneLate(run, late) && Permitted(late, lateUndo, lateUnstage)
    ensures Permits(run, lateUndo, lateUnstage)
  {
  }

  /** The run ends with `step`, taken from `before`. */
  predicate EndsWith(run: Run, before: State, step: Step) {
    && |run.states| == |run.steps| + 1 && run.steps != []
    && run.states[|run.steps| - 1] == before && run.steps[|run.steps| - 1] == step
  }

  lemma Begin(data: nat -> seq<byte>, k: nat) returns (run: Run)
    ensures IsRun(run, data) && Last(run) == START && run.steps == [] && LateOnlyAt(run, k)
  {
    run := Run([START], []);
  }

  /** Staging, linking and unstaging without faults when nobody else is in the way. */
  lemma Stage(run: Run, data: nat -> seq<byte>, w: nat, k: nat) returns (more: Run)
    requires IsRun(run, data) && LateOnlyAt(run, k)
    requires Last(run).artifact.None? && Last(run).staging.None? && w !in Last(run).phases
    ensures IsRun(more, data) && LateOnlyAt(more, k) && run.steps <= more.steps && |more.steps| == |run.steps| + 4
    ensures Last(more) == State(Some(File(w, data(w))), Some(File(w, data(w))), Last(run).phases[w := Linked])
  {
    var s, f := Last(run), Some(File(w, data(w)));
    hide IsRun, LateOnlyAt, Permits;
    more := Extend(run, data, Look(w), To(s, w, Checked), k);
    more := Extend(more, data, Create(w, Ok), State(None, Some(File(w, [])), s.phases[w := Staged]), k);
    more := Extend(more, data, Write(w, 0, Ok), State(None, f, s.phases[w := Written]), k);
    more := Extend(more, data, Link(w, Ok), State(f, f, s.phases[w := Linked]), k);
  }

  lemma Publish(run: Run, data: nat -> seq<byte>, w: nat, r: Ending, k: nat) returns (more: Run)
    requires IsRun(run, data) && LateOnlyAt(run, k)
    requires Last(run).artifact.None? && Last(run).staging.None? && w !in Last(run).phases
    ensures IsRun(more, data) && LateOnlyAt(more, k) && run.steps <= more.steps && |more.steps| == |run.steps| + 6
    ensures Last(more) == State(Some(File(w, data(w))), None, Last(run).phases[w := if r.Ok? then Succeeded else Undoing])
  {
    var f := Some(File(w, data(w)));
    more := Stage(run, data, w, k);
    hide IsRun, LateOnlyAt, Permits;
    more := Extend(more, data, Unstage(w, Ok), State(f, None, Last(run).phases[w := Phase.Unlinked]), k);
    more := Extend(more, data, Sync(w, r), State(f, None, Last(run).phases[w := if r.Ok? then Succeeded else Undoing]), k);
  }

  /** A writer alone, without faults, gets its bytes in place. */
  lemma LoneWriterSucceeds(w: nat, data: nat -> seq<byte>) returns (run: Run)
    ensures IsRun(run, data) && Permits(run, false, false)
    ensures At(Last(run), w, Succeeded) && Last(run).artifact == Some(File(w, data(w)))
  {
    run := Begin(data, 6);
    run := Publish(run, data, w, Ok, 6);
  }

  // ---------------------------------------------------------------- where it stops being true

  lemma LastOf(run: Run, data: nat -> seq<byte>)
    requires IsRun(run, data)
    ensures |run.states| == |run.steps| + 1 && Last(run) == run.states[|run.steps|]
  {
  }

  /** The first late error after honest steps. */
  lemma GoLate(run: Run, data: nat -> seq<byte>, step: Step, s': State) returns (more: Run)
    requires IsRun(run, data) && LateOnlyAt(run, |run.steps|) && Does(Last(run), step, data, s')
    ensures IsRun(more, data) && OneLate(more, step) && Last(more) == s'
  {
    hide IsRun, Does, Permitted;
    more := Extend(run, data, step, s', |run.steps|);
    assert more.steps[|run.steps|] == step;
  }

  /** An honest step after it. */
  lemma Go(run: Run, data: nat -> seq<byte>, late: Step, step: Step, s': State) returns (more: Run)
    requires IsRun(run, data) && OneLate(run, late) && Does(Last(run), step, data, s')
    requires step.Undo? || step.Unstage? ==> !step.r.LateError?
    ensures IsRun(more, data) && OneLate(more, late) && Last(more) == s' && EndsWith(more, Last(run), step)
  {
    LastOf(run, data);
    assert Permitted(step, false, false);
    hide IsRun, Does, Permitted;
    var k: nat :| k < |run.steps| && run.steps[k] == late && LateOnlyAt(run, k);
    more := Extend(run, data, step, s', k);
    assert more.steps[k] == late;
  }

  lemma PublishLate(run: Run, data: nat -> seq<byte>, late: Step, w: nat) returns (more: Run)
    requires IsRun(run, data) && OneLate(run, late)
    requires Last(run).artifact.None? && Last(run).staging.None? && w !in Last(run).phases
    ensures IsRun(more, data) && OneLate(more, late)
    ensures Last(more) == State(Some(File(w, data(w))), None, Last(run).phases[w := Succeeded])
  {
    hide IsRun, Permitted;
    var k: nat :| k < |run.steps| && run.steps[k] == late && LateOnlyAt(run, k);
    more := Publish(run, data, w, Ok, k);
    assert more.steps[k] == late;
  }

  /** If taking the artifact back reports an error after doing it, the retry by name can
      delete a decision that another writer has meanwhile recorded with success. */
  lemma LateUndoLosesDecision(data: nat -> seq<byte>) returns (run: Run)
    ensures IsRun(run, data) && OneLate(run, LATE_UNDO)
    ensures Last(run) == State(None, None, map[0 := Abandoned, 1 := Succeeded])
    ensures EndsWith(run, State(Some(File(1, data(1))), None, map[0 := Retrying(false), 1 := Succeeded]), Retry(0, Ok))
  {
    run := Begin(data, 6);
    run := Publish(run, data, 0, Error, 6);
    hide IsRun, LateOnlyAt, OneLate, EndsWith;
    run := GoLate(run, data, LATE_UNDO, State(None, None, map[0 := Retrying(false)]));
    run := PublishLate(run, data, LATE_UNDO, 1);
    run := Go(run, data, LATE_UNDO, Retry(0, Ok), State(None, None, Last(run).phases[0 := Abandoned]));
  }

  /** And then the next writer records a second decision. */
  lemma LateUndoTwoWinners(data: nat -> seq<byte>) returns (run: Run)
    ensures IsRun(run, data) && OneLate(run, LATE_UNDO)
    ensures At(Last(run), 1, Succeeded) && At(Last(run), 2, Succeeded)
  {
    run := LateUndoLosesDecision(data);
    hide IsRun, OneLate;
    run := PublishLate(run, data, LATE_UNDO, 2);
  }

  /** After a late error on its staging file, a writer still believes that it owns it, and
      its final cleanup can delete another writer's staging file. */
  lemma LateUnstageRemovesStaging(data: nat -> seq<byte>) returns (run: Run)
    ensures IsRun(run, data) && OneLate(run, LATE_UNSTAGE)
    ensures Last(run) == State(None, None, map[0 := Abandoned, 1 := Written, 2 := Checked])
    ensures EndsWith(run, State(None, Some(File(1, data(1))), map[0 := Cleaning, 1 := Written, 2 := Checked]),
                     Clean(0, Ok))
  {
    var f := Some(File(0, data(0)));
    run := Begin(data, 4);
    run := Stage(run, data, 0, 4);
    hide IsRun, LateOnlyAt, OneLate, EndsWith;
    run := GoLate(run, data, LATE_UNSTAGE, State(f, None, map[0 := Retrying(true)]));
    run := Go(run, data, LATE_UNSTAGE, Retry(0, Ok), State(None, None, map[0 := Cleaning]));
    run := TwoArrive(run, data);
    run := Go(run, data, LATE_UNSTAGE, Clean(0, Ok),
              State(None, None, map[0 := Abandoned, 1 := Written, 2 := Checked]));
  }

  lemma TwoArrive(run: Run, data: nat -> seq<byte>) returns (more: Run)
    requires IsRun(run, data) && OneLate(run, LATE_UNSTAGE) && Last(run) == State(None, None, map[0 := Cleaning])
    ensures IsRun(more, data) && OneLate(more, LATE_UNSTAGE)
    ensures Last(more) == State(None, Some(File(1, data(1))), map[0 := Cleaning, 1 := Written, 2 := Checked])
  {
    hide IsRun, LateOnlyAt, OneLate, EndsWith;
    more := Go(run, data, LATE_UNSTAGE, Look(1), State(None, None, map[0 := Cleaning, 1 := Checked]));
    more := Go(more, data, LATE_UNSTAGE, Look(2), State(None, None, map[0 := Cleaning, 1 := Checked, 2 := Checked]));
    more := FirstStages(more, data);
  }

  lemma FirstStages(run: Run, data: nat -> seq<byte>) returns (more: Run)
    requires IsRun(run, data) && OneLate(run, LATE_UNSTAGE)
    requires Last(run) == State(None, None, map[0 := Cleaning, 1 := Checked, 2 := Checked])
    ensures IsRun(more, data) && OneLate(more, LATE_UNSTAGE)
    ensures Last(more) == State(None, Some(File(1, data(1))), map[0 := Cleaning, 1 := Written, 2 := Checked])
  {
    var empty, full := Some(File(1, [])), Some(File(1, data(1)));
    hide IsRun, LateOnlyAt, OneLate, EndsWith;
    more := Go(run, data, LATE_UNSTAGE, Create(1, Ok),
               State(None, empty, map[0 := Cleaning, 1 := Staged, 2 := Checked]));
    more := Go(more, data, LATE_UNSTAGE, Write(1, 0, Ok),
               State(None, full, map[0 := Cleaning, 1 := Written, 2 := Checked]));
  }

  /** From there the writer that lost its staging file links the next one's. */
  lemma LateUnstageLinksOther(data: nat -> seq<byte>) returns (run: Run)
    ensures IsRun(run, data) && OneLate(run, LATE_UNSTAGE)
    ensures Last(run) == State(Some(File(2, [])), Some(File(2, [])), map[0 := Abandoned, 1 := Linked, 2 := Staged])
  {
    var f := Some(File(2, []));
    run := LateUnstageRemovesStaging(data);
    hide IsRun, LateOnlyAt, OneLate, EndsWith;
    run := Go(run, data, LATE_UNSTAGE, Create(2, Ok), State(None, f, map[0 := Abandoned, 1 := Written, 2 := Staged]));
    run := Go(run, data, LATE_UNSTAGE, Link(1, Ok), State(f, f, map[0 := Abandoned, 1 := Linked, 2 := Staged]));
  }

  /** It succeeds, with the other's unwritten file at the path. */
  lemma LateUnstageEmptySuccess(data: nat -> seq<byte>) returns (run: Run)
    ensures IsRun(run, data) && OneLate(run, LATE_UNSTAGE)
    ensures Last(run) == State(Some(File(2, [])), None, map[0 := Abandoned, 1 := Succeeded, 2 := Staged])
  {
    var empty := Some(File(2, []));
    run := LateUnstageLinksOther(data);
    hide IsRun, LateOnlyAt, OneLate, EndsWith;
    run := Go(run, data, LATE_UNSTAGE, Unstage(1, Ok),
              State(empty, None, map[0 := Abandoned, 1 := Phase.Unlinked, 2 := Staged]));
    run := Go(run, data, LATE_UNSTAGE, Sync(1, Ok),
              State(empty, None, map[0 := Abandoned, 1 := Succeeded, 2 := Staged]));
  }

  /** Then the other writes its own decision there, through a descriptor that was open all
      the time, and goes on to fail. */
  lemma LateUnstageSwapsDecision(data: nat -> seq<byte>) returns (run: Run)
    ensures IsRun(run, data) && OneLate(run, LATE_UNSTAGE)
    ensures Last(run) == State(Some(File(2, data(2))), None, map[0 := Abandoned, 1 := Succeeded, 2 := Abandoned])
  {
    var full := Some(File(2, data(2)));
    run := LateUnstageEmptySuccess(data);
    hide IsRun, LateOnlyAt, OneLate, EndsWith;
    run := Go(run, data, LATE_UNSTAGE, Write(2, 0, Ok),
              State(full, None, map[0 := Abandoned, 1 := Succeeded, 2 := Written]));
    run := Go(run, data, LATE_UNSTAGE, Link(2, Ok),
              State(full, None, map[0 := Abandoned, 1 := Succeeded, 2 := Cleaning]));
    run := Go(run, data, LATE_UNSTAGE, Clean(2, Ok),
              State(full, None, map[0 := Abandoned, 1 := Succeeded, 2 := Abandoned]));
  }

  /** Or it fails, and takes the other's file back as its own. */
  lemma LateUnstageRemovesArtifact(data: nat -> seq<byte>) returns (run: Run)
    ensures IsRun(run, data) && OneLate(run, LATE_UNSTAGE) && Last(run).artifact.None?
    ensures EndsWith(run, State(Some(File(2, [])), Some(File(2, [])), map[0 := Abandoned, 1 := Retrying(true), 2 := Staged]),
                     Retry(1, Ok))
  {
    var f := Some(File(2, []));
    run := LateUnstageLinksOther(data);
    hide IsRun, LateOnlyAt, OneLate, EndsWith;
    run := Go(run, data, LATE_UNSTAGE, Unstage(1, Error),
              State(f, f, map[0 := Abandoned, 1 := Retrying(true), 2 := Staged]));
    run := Go(run, data, LATE_UNSTAGE, Retry(1, Ok), State(None, f, map[0 := Abandoned, 1 := Cleaning, 2 := Staged]));
  }

  // ---------------------------------------------------------------- exactly when it is true

  /** No run with only these faults lets two writers succeed. */
  ghost predicate OneWinner(data: nat -> seq<byte>, lateUndo: bool, lateUnstage: bool) {
    forall run, i, w, v ::
      IsRun(run, data) && Permits(run, lateUndo, lateUnstage) && 0 <= i < |run.states| &&
      At(run.states[i], w, Succeeded) && At(run.states[i], v, Succeeded) ==>
        w == v
  }

  /** Whoever has succeeded finds its own file with its own bytes at the path. */
  ghost predicate WinnersKept(data: nat -> seq<byte>, lateUndo: bool, lateUnstage: bool) {
    forall run, i, w ::
      IsRun(run, data) && Permits(run, lateUndo, lateUnstage) && 0 <= i < |run.states| &&
      At(run.states[i], w, Succeeded) ==>
        run.states[i].artifact == Some(File(w, data(w)))
  }

  predicate SparesStaging(run: Run, i: nat)
    requires i < |run.steps| < |run.states|
  {
    Spares(run.states[i].staging, run.steps[i].w, run.states[i + 1].staging)
  }

  predicate SparesArtifact(run: Run, i: nat)
    requires i < |run.steps| < |run.states|
  {
    Spares(run.states[i].artifact, run.steps[i].w, run.states[i + 1].artifact)
  }

  ghost predicate StagingSpared(data: nat -> seq<byte>, lateUndo: bool, lateUnstage: bool) {
    forall run, i: nat :: IsRun(run, data) && Permits(run, lateUndo, lateUnstage) && i < |run.steps| ==>
      SparesStaging(run, i)
  }

  ghost predicate ArtifactsSpared(data: nat -> seq<byte>, lateUndo: bool, lateUnstage: bool) {
    forall run, i: nat :: IsRun(run, data) && Permits(run, lateUndo, lateUnstage) && i < |run.steps| ==>
      SparesArtifact(run, i)
  }

  /** Two successes are one writer's exactly when taking an artifact back is honest. */
  lemma OneWinnerExactly(data: nat -> seq<byte>, lateUndo: bool, lateUnstage: bool)
    ensures OneWinner(data, lateUndo, lateUnstage) <==> !lateUndo
  {
    hide IsRun, Permits;
    if lateUndo {
      var run := LateUndoTwoWinners(data);
      OneLatePermits(run, LATE_UNDO, lateUndo, lateUnstage);
      LastOf(run, data);
    } else {
      forall run, i, w, v |
        IsRun(run, data) && Permits(run, lateUndo, lateUnstage) && 0 <= i < |run.states| &&
        At(run.states[i], w, Succeeded) && At(run.states[i], v, Succeeded)
        ensures w == v
      {
        OneWinnerEver(run, data, i, i, w, v, lateUnstage);
      }
    }
  }

  /** Every success keeps its bytes at the path exactly when both removals are honest. */
  lemma WinnersKeptExactly(data: nat -> seq<byte>, lateUndo: bool, lateUnstage: bool)
    ensures WinnersKept(data, lateUndo, lateUnstage) <==> !lateUndo && !lateUnstage
  {
    hide IsRun, Permits;
    if lateUndo || lateUnstage {
      var run := Run([], []);
      if lateUndo {
        run := LateUndoLosesDecision(data);
        OneLatePermits(run, LATE_UNDO, lateUndo, lateUnstage);
      } else {
        run := LateUnstageSwapsDecision(data);
        OneLatePermits(run, LATE_UNSTAGE, lateUndo, lateUnstage);
      }
      LastOf(run, data);
      var last := run.states[|run.steps|];
      assert At(last, 1, Succeeded) && last.artifact != Some(File(1, data(1)));
    } else {
      forall run, i, w |
        IsRun(run, data) && Permits(run, lateUndo, lateUnstage) && 0 <= i < |run.states| &&
        At(run.states[i], w, Succeeded)
        ensures run.states[i].artifact == Some(File(w, data(w)))
      {
        WinnerStays(run, data, i, i, w);
      }
    }
  }

  /** Other writers' staging files are safe exactly when removing one's own is honest. */
  lemma StagingSparedExactly(data: nat -> seq<byte>, lateUndo: bool, lateUnstage: bool)
    ensures StagingSpared(data, lateUndo, lateUnstage) <==> !lateUnstage
  {
    hide IsRun, Permits;
    if lateUnstage {
      var run := LateUnstageRemovesStaging(data);
      OneLatePermits(run, LATE_UNSTAGE, lateUndo, lateUnstage);
      LastOf(run, data);
      assert !SparesStaging(run, |run.steps| - 1);
    } else {
      forall run, i: nat | IsRun(run, data) && Permits(run, lateUndo, lateUnstage) && i < |run.steps|
        ensures i < |run.steps| < |run.states| && SparesStaging(run, i)
      {
        LastOf(run, data);
        OthersUntouched(run, data, i, lateUndo);
      }
    }
  }

  /** Their artifacts are exactly when both removals are. */
  lemma ArtifactsSparedExactly(data: nat -> seq<byte>, lateUndo: bool, lateUnstage: bool)
    ensures ArtifactsSpared(data, lateUndo, lateUnstage) <==> !lateUndo && !lateUnstage
  {
    hide IsRun, Permits;
    if lateUndo || lateUnstage {
      var run := Run([], []);
      if lateUndo {
        run := LateUndoLosesDecision(data);
        OneLatePermits(run, LATE_UNDO, lateUndo, lateUnstage);
      } else {
        run := LateUnstageRemovesArtifact(data);
        OneLatePermits(run, LATE_UNSTAGE, lateUndo, lateUnstage);
      }
      LastOf(run, data);
      assert !SparesArtifact(run, |run.steps| - 1);
    } else {
      forall run, i: nat | IsRun(run, data) && Permits(run, lateUndo, lateUnstage) && i < |run.steps|
        ensures i < |run.steps| < |run.states| && SparesArtifact(run, i)
      {
        LastOf(run, data);
        OthersUntouched(run, data, i, lateUndo);
      }
    }
  }
}
