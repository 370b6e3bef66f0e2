/** The store of the one canonical housefile: replacement that puts the exact old bytes
    back when anything after the swap goes wrong. */
module HousefileStores {
  import opened Bytes
  import opened Outcomes

  const MAX_HOUSEFILE_BYTES: nat := 2 * 1024 * 1024

  datatype StoreFailure =
    | LockAlreadyHeld
    | LockRequired
    | InvalidJson
    | HousefileUnavailable
    | StageFailed
    | UnsafeStage
    | CommitFailed
    | UnsafeFile
    | RollbackFailed

  /** How `_new_private_file` ends: after a failed write the partial file may stay. */
  datatype Creation = Created | OpenFails | WriteFails(kept: nat, cleans: bool) | StageUnsafe(cleans: bool)

  /** One outcome for each step of `_replace_existing_locked`, in order. */
  datatype Faults = Faults(
    readable: bool,
    namesNew: bool,
    namesOld: bool,
    stagesNew: Creation,
    stagesOld: Creation,
    swap: Ending,
    firstSync: bool,
    dropsOld: Ending,
    secondSync: bool,
    stillRegular: bool,
    namesRestore: bool,
    stagesRestore: Creation,
    restores: Ending,
    tidies: bool)

  datatype Name = Replacement | Rollback | Restore

  class HousefileStore {
    var live: seq<byte>
    var staged: map<Name, seq<byte>>
    var locked: bool

    constructor (bytes: seq<byte>)
      ensures live == bytes && staged == map[] && !locked
    {
      live, staged, locked := bytes, map[], false;
    }

    /** Entering `locked()`: the lock is not reentrant. */
    method Lock() returns (failure: Option<StoreFailure>)
      modifies this`locked
      ensures locked && (failure.Some? <==> old(locked))
    {
      if locked { return Some(LockAlreadyHeld); }
      locked := true;
      failure := None;
    }

    method Unlock()
      modifies this`locked
      ensures !locked
    {
      locked := false;
    }

    method ReadLocked(readable: bool) returns (bytes: Option<seq<byte>>)
      ensures bytes == if readable then Some(live) else None
    {
      bytes := if readable then Some(live) else None;
    }

    /** `_new_private_file`: all of the data under the name, or a failure. */
    method NewPrivateFile(name: Name, data: seq<byte>, c: Creation) returns (failure: Option<StoreFailure>)
      modifies this`staged
      ensures failure.None? <==> c.Created?
      ensures failure != Some(RollbackFailed)
      ensures failure.None? ==> staged == old(staged)[name := data]
      ensures failure.Some? ==> forall n :: n != name && n in old(staged) ==> n in staged && staged[n] == old(staged)[n]
      ensures failure.Some? ==> staged.Keys <= old(staged).Keys + {name}
    {
      match c
      case OpenFails =>
        failure := Some(StageFailed);
      case WriteFails(kept, cleans) =>
        staged := if cleans then staged - {name}
                  else staged[name := data[..if kept < |data| then kept else |data|]];
        failure := Some(CommitFailed);
      case StageUnsafe(cleans) =>
        staged := if cleans then staged - {name} else staged[name := data];
        failure := Some(UnsafeStage);
      case Created =>
        staged := staged[name := data];
        failure := None;
    }

    /** `os.replace` of a staged file onto the canonical name. */
    method Swap(name: Name, r: Ending) returns (ok: bool)
      requires name in staged
      modifies this`live, this`staged
      ensures ok <==> r.Ok?
      ensures if r.Error? then live == old(live) && staged == old(staged)
              else live == old(staged)[name] && staged == old(staged) - {name}
    {
      if !r.Error? {
        live := staged[name];
        staged := staged - {name};
      }
      ok := r.Ok?;
    }

    /** The steps inside the `try` up to the swap. */
    method StageBoth(data: seq<byte>, before: seq<byte>, f: Faults) returns (failure: Option<StoreFailure>)
      requires staged == map[]
      modifies this`staged
      ensures failure.None? ==> staged == map[Replacement := data, Rollback := before]
      ensures staged.Keys <= {Replacement, Rollback}
      ensures failure.None? <==> StagesBoth(f)
      ensures failure != Some(RollbackFailed)
    {
      if !f.namesNew || !f.namesOld { return Some(CommitFailed); }
      failure := NewPrivateFile(Replacement, data, f.stagesNew);
      if failure.Some? { return; }
      failure := NewPrivateFile(Rollback, before, f.stagesOld);
    }

    /** The steps after the swap: anything that fails here must be undone. */
    method Settle(f: Faults) returns (failure: Option<StoreFailure>)
      modifies this`staged
      ensures failure.None? ==> staged == old(staged) - {Rollback}
      ensures staged == old(staged) || staged == old(staged) - {Rollback}
      ensures Flawless(f) ==> failure.None?
    {
      if !f.firstSync { return Some(CommitFailed); }
      if !f.dropsOld.Error? { staged := staged - {Rollback}; }
      if !f.dropsOld.Ok? || !f.secondSync { return Some(CommitFailed); }
      failure := if f.stillRegular then None else Some(UnsafeFile);
    }

    /** The handler: the kept copy, or a fresh copy of the remembered bytes, goes back. */
    method PutBack(before: seq<byte>, f: Faults) returns (ok: bool)
      requires Rollback in staged ==> staged[Rollback] == before
      modifies this`live, this`staged
      ensures if ok then live == before else live == old(live) || live == before
      ensures ok <==> (Rollback in old(staged) || (f.namesRestore && f.stagesRestore.Created?)) && f.restores.Ok?
      ensures staged.Keys <= old(staged).Keys + {Restore}
    {
      var name := Rollback;
      if Rollback !in staged {
        if !f.namesRestore { return false; }
        var failure := NewPrivateFile(Restore, before, f.stagesRestore);
        if failure.Some? { return false; }
        name := Restore;
      }
      ok := Swap(name, f.restores);
    }

    /** The `finally` clause. */
    method Tidy(f: Faults)
      modifies this`staged
      ensures staged == if f.tidies then map[] else old(staged)
    {
      if f.tidies { staged := map[]; }
    }

    /** `_replace_existing_locked`. Returning means the new bytes are live. A failure but for
        a failed rollback means the exact old bytes are live, with one exception: a swap that
        reports an error after taking effect is not undone, and leaves the new bytes. */
    method ReplaceExistingLocked(data: seq<byte>, f: Faults) returns (failure: Option<StoreFailure>)
      modifies this`live, this`staged
      ensures failure.None? ==> live == data && staged == map[]
      ensures ReachesSwap(locked, data, f) && f.swap.LateError? ==> failure == Some(CommitFailed) && live == data
      ensures failure.Some? && failure != Some(RollbackFailed) && data != old(live) ==>
                (live == old(live) <==> !(ReachesSwap(locked, data, f) && f.swap.LateError?))
      ensures failure == Some(RollbackFailed) ==> ReachesSwap(locked, data, f) && f.swap.Ok?
      ensures live == data || live == old(live)
      ensures f.tidies ==> staged == map[]
      ensures ReachesSwap(locked, data, f) && Flawless(f) ==> failure.None?
    {
      // Temporary names are new, so nothing an earlier call left is among them.
      staged := map[];
      if !locked { return Some(LockRequired); }
      if !(1 <= |data| <= MAX_HOUSEFILE_BYTES) { return Some(InvalidJson); }
      var before := ReadLocked(f.readable);
      if before.None? { return Some(HousefileUnavailable); }
      failure := StageBoth(data, before.value, f);
      if failure.Some? {
        Tidy(f);
        return;
      }
      var swapped := Swap(Replacement, f.swap);
      if !swapped {
        Tidy(f);
        return Some(CommitFailed);
      }
      failure := Settle(f);
      if failure.Some? {
        var ok := PutBack(before.value, f);
        if !ok { failure := Some(RollbackFailed); }
      }
      Tidy(f);
    }
  }

  /** Both copies get staged. */
  predicate StagesBoth(f: Faults) {
    f.namesNew && f.namesOld && f.stagesNew.Created? && f.stagesOld.Created?
  }

  /** Nothing stops the call before the swap. */
  predicate ReachesSwap(locked: bool, data: seq<byte>, f: Faults) {
    locked && 1 <= |data| <= MAX_HOUSEFILE_BYTES && f.readable && StagesBoth(f)
  }

  /** Nothing goes wrong. */
  predicate Flawless(f: Faults) {
    && f.readable && StagesBoth(f) && f.swap.Ok?
    && f.firstSync && f.dropsOld.Ok? && f.secondSync && f.stillRegular
  }
}
