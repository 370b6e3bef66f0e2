/** The append-only JSONL ledger: one file of bytes, changed by appends that may tear,
    rollbacks that may fail and a bounded tail repair. */
module Ledger {
  import opened Bytes
  import opened Entries
  import opened Outcomes

  datatype Checkpoint = Checkpoint(offset: nat, tail: TailDigest)

  datatype Prepared = Prepared(entry: Entry, encoded: seq<byte>, checkpoint: Checkpoint)

  datatype LedgerWitness = LedgerWitness(transaction: string, revision: nat, offset: nat, receipt: Digest)

  datatype Inspection = Present | Absent | Ambiguous

  /** What goes wrong inside one call. A crash is a fault whose caller never resumes:
      it leaves the same bytes behind as the exception at the same point. `writes`
      lists what successive `os.write` calls accept; running out of it is an error. */
  datatype Fault = Fault(
    opens: bool,
    cuts: bool,
    cutSyncs: bool,
    writes: seq<int>,
    syncs: bool,
    undoes: bool)

  /** Nothing goes wrong, and the first `os.write` takes the whole line. */
  predicate Smooth(f: Fault) {
    f.opens && f.cuts && f.cutSyncs && f.syncs && |f.writes| > 0 && f.writes[0] >= MAX_ENTRY_BYTES
  }

  /** A tail that `Repair` can take away. */
  predicate Repairable(data: seq<byte>) {
    |data| - |Terminated(data)| <= MAX_ENTRY_BYTES
  }

  function TailDigestAt(data: seq<byte>, offset: nat): TailDigest
    requires offset <= |data|
  {
    var length := if offset < CHECKPOINT_TAIL_BYTES then offset else CHECKPOINT_TAIL_BYTES;
    TailSha256(offset, data[offset - length..offset])
  }

  function CheckpointOf(data: seq<byte>): Checkpoint {
    Checkpoint(|data|, TailDigestAt(data, |data|))
  }

  lemma CheckpointOffset(data: seq<byte>)
    ensures CheckpointOf(data).offset == |data|
  {
  }

  /** At most `length` bytes from `offset`, as `os.pread` returns them. */
  function Pread(data: seq<byte>, length: nat, offset: nat): (b: seq<byte>)
    ensures |b| <= length
  {
    if offset >= |data| then []
    else if offset + length <= |data| then data[offset..offset + length]
    else data[offset..]
  }

  function Inspect(data: seq<byte>, p: Prepared): Inspection {
    if |data| < p.checkpoint.offset then Ambiguous
    else if TailDigestAt(data, p.checkpoint.offset) != p.checkpoint.tail then Ambiguous
    else if |data| == p.checkpoint.offset then Absent
    else if Pread(data, |p.encoded|, p.checkpoint.offset) != p.encoded then Ambiguous
    else Present
  }

  /** A receipt torn part-way is neither present nor absent: recovery refuses it. */
  lemma InspectAfter(base: seq<byte>, e: Entry, kept: nat)
    requires kept <= |Line(e)|
    ensures var p := Prepared(e, Line(e), CheckpointOf(base));
            Inspect(base + Line(e)[..kept], p) ==
            if kept == 0 then Absent else if kept == |Line(e)| then Present else Ambiguous
  {
    var data := base + Line(e)[..kept];
    assert data[|base|..] == Line(e)[..kept];
    var start := if |base| < CHECKPOINT_TAIL_BYTES then 0 else |base| - CHECKPOINT_TAIL_BYTES;
    assert data[start..|base|] == base[start..];
    LineShape(e);
  }

  // ---------------------------------------------------------------- witnesses

  /** A parser that at least reads back what the encoder writes. */
  ghost predicate ReadsBack(loads: seq<byte> -> Option<Entry>) {
    forall e: Entry :: EntryOk(e) ==> loads(Line(e)) == Some(e)
  }

  predicate WitnessShape(w: LedgerWitness) {
    IsTransactionId(w.transaction) && w.revision > 0
  }

  /** `verify_witness` returning normally. */
  predicate VerifyWitness(data: seq<byte>, loads: seq<byte> -> Option<Entry>, w: LedgerWitness) {
    && WitnessShape(w)
    && var chunk := Pread(data, MAX_ENTRY_BYTES + 1, w.offset);
       var newline := Find(chunk, NL);
       && 0 <= newline < MAX_ENTRY_BYTES
       && var encoded := chunk[..newline + 1];
          && Sha256(encoded) == w.receipt
          && match loads(encoded)
             case None => false
             case Some(e) =>
               && EntryOk(e)
               && e.stamp == Some(Stamp(w.transaction, w.revision))
               && Line(e) == encoded
  }

  /** What a witness vouches for: a whole line, at its offset, with its stamp. */
  ghost predicate Vouches(data: seq<byte>, w: LedgerWitness, e: Entry) {
    && EntryOk(e) && Fits(e)
    && e.stamp == Some(Stamp(w.transaction, w.revision))
    && w.offset + |Line(e)| <= |data|
    && data[w.offset..w.offset + |Line(e)|] == Line(e)
    && w.receipt == Sha256(Line(e))
  }

  lemma FirstNewline(data: seq<byte>, offset: nat, e: Entry)
    requires Fits(e)
    requires offset + |Line(e)| <= |data| && data[offset..offset + |Line(e)|] == Line(e)
    ensures var chunk := Pread(data, MAX_ENTRY_BYTES + 1, offset);
            Find(chunk, NL) == |Line(e)| - 1 && chunk[..|Line(e)|] == Line(e)
  {
    LineShape(e);
    var n := |Line(e)|;
    var chunk := Pread(data, MAX_ENTRY_BYTES + 1, offset);
    assert forall i :: 0 <= i < n ==> chunk[i] == data[offset..offset + n][i] == Line(e)[i];
    assert forall i :: 0 <= i < n - 1 ==> chunk[i] == Line(e)[..n - 1][i];
    assert chunk[n - 1] == NL;
  }

  /** The scan of `verify_witness` accepts exactly the lines a witness vouches for. */
  lemma VerifyWitnessSound(data: seq<byte>, loads: seq<byte> -> Option<Entry>, w: LedgerWitness)
    requires VerifyWitness(data, loads, w)
    ensures IsTransactionId(w.transaction) && w.revision > 0
    ensures exists e :: Vouches(data, w, e)
  {
    var chunk := Pread(data, MAX_ENTRY_BYTES + 1, w.offset);
    var encoded := chunk[..Find(chunk, NL) + 1];
    var e := loads(encoded).value;
    assert data[w.offset..w.offset + |encoded|] == encoded;
    assert Vouches(data, w, e);
  }

  lemma VerifyWitnessComplete(data: seq<byte>, loads: seq<byte> -> Option<Entry>, w: LedgerWitness, e: Entry)
    requires ReadsBack(loads) && WitnessShape(w) && Vouches(data, w, e)
    ensures VerifyWitness(data, loads, w)
  {
    FirstNewline(data, w.offset, e);
    assert loads(Line(e)) == Some(e);
  }

  /** The witness that `_commit` keeps of a receipt verifies as soon as the receipt is
      appended where it was prepared. */
  lemma AppendedVerifies(base: seq<byte>, e: Entry, loads: seq<byte> -> Option<Entry>, w: LedgerWitness)
    requires ReadsBack(loads) && WitnessShape(w) && EntryOk(e) && Fits(e)
    requires e.stamp == Some(Stamp(w.transaction, w.revision)) && w.receipt == Sha256(Line(e)) && w.offset == |base|
    ensures VerifyWitness(base + Line(e), loads, w)
  {
    hide Line, EntryOk, Fits, IsTransactionId;
    assert (base + Line(e))[|base|..|base| + |Line(e)|] == Line(e);
    assert Vouches(base + Line(e), w, e);
    hide VerifyWitness;
    VerifyWitnessComplete(base + Line(e), loads, w, e);
  }

  lemma VouchesStable(before: seq<byte>, after: seq<byte>, w: LedgerWitness, e: Entry)
    requires Vouches(before, w, e) && Terminated(before) <= after
    ensures Vouches(after, w, e)
  {
    var stop := w.offset + |Line(e)|;
    LineShape(e);
    assert before[stop - 1] == before[w.offset..stop][|Line(e)| - 1];
    NoneAfter(before, |Terminated(before)|);
    hide Line, EntryOk, Fits, Terminated;
    assert stop <= |Terminated(before)|;
    assert after[w.offset..stop] == Terminated(before)[w.offset..stop] == before[w.offset..stop];
  }

  /** Witness stability: anything that keeps the complete lines keeps every witness. */
  lemma WitnessStable(before: seq<byte>, after: seq<byte>, loads: seq<byte> -> Option<Entry>, w: LedgerWitness)
    requires ReadsBack(loads) && VerifyWitness(before, loads, w)
    requires Terminated(before) <= after
    ensures VerifyWitness(after, loads, w)
  {
    VerifyWitnessSound(before, loads, w);
    hide VerifyWitness, Vouches, Terminated;
    var e :| Vouches(before, w, e);
    VouchesStable(before, after, w, e);
    VerifyWitnessComplete(after, loads, w, e);
  }

  // ---------------------------------------------------------------- the file

  /** Where the bounded backward scan cuts, or -1 when the torn tail is too long. */
  function RepairBoundary(data: seq<byte>): (boundary: int) {
    var size := |data|;
    var scan := if size < MAX_ENTRY_BYTES then size else MAX_ENTRY_BYTES;
    var start := size - scan;
    var newline := RFind(Pread(data, scan, start), NL);
    if newline >= 0 then start + newline + 1
    else if start == 0 then 0
    else if Pread(data, 1, start - 1) == [NL] then start
    else -1
  }

  lemma ScanFindsLineEnd(data: seq<byte>, start: nat)
    requires start <= |data|
    ensures RFind(data[start..], NL) ==
            if |Terminated(data)| > start then |Terminated(data)| - 1 - start else -1
  {
    var end := |Terminated(data)|;
    NoneAfter(data, end);
    var chunk := data[start..];
    assert forall k :: 0 <= k < |chunk| ==> chunk[k] == data[start + k];
    assert end > start ==> chunk[end - 1 - start] == NL;
  }

  lemma ByteBefore(data: seq<byte>, n: nat)
    requires 0 < n <= |data|
    ensures Pread(data, 1, n - 1) == [data[n - 1]]
  {
  }

  lemma WholeScan(data: seq<byte>, start: nat)
    requires start <= |data|
    ensures Pread(data, |data| - start, start) == data[start..]
  {
  }

  /** The byte before the window decides when the window itself has no newline. */
  lemma ByteBeforeScan(data: seq<byte>, start: nat)
    requires 0 < start <= |data| && |Terminated(data)| <= start
    ensures data[start - 1] == NL <==> |Terminated(data)| == start
  {
    NoneAfter(data, |Terminated(data)|);
  }

  /** The bounded scan finds the end of the last complete line exactly when the torn
      tail is no longer than one entry may be. */
  lemma RepairBoundaryIs(data: seq<byte>)
    ensures RepairBoundary(data) ==
            if |data| - |Terminated(data)| <= MAX_ENTRY_BYTES then |Terminated(data)| else -1
  {
    var start := if |data| < MAX_ENTRY_BYTES then 0 else |data| - MAX_ENTRY_BYTES;
    WholeScan(data, start);
    ScanFindsLineEnd(data, start);
    if 0 < start {
      ByteBefore(data, start);
      if |Terminated(data)| <= start { ByteBeforeScan(data, start); }
    }
    hide Terminated, RFind, Pread;
  }

  class JsonlLedger {
    var data: seq<byte>

    constructor ()
      ensures data == []
    {
      data := [];
    }

    predicate HasHistory()
      reads this
    {
      |data| > 0
    }

    /** `_write_all` against an `os.write` that may take less than it was given. */
    method WriteAll(line: seq<byte>, writes: seq<int>) returns (ok: bool, ghost kept: nat)
      modifies this
      ensures kept <= |line| && data == old(data) + line[..kept]
      ensures ok <==> kept == |line|
      ensures |writes| > 0 && writes[0] >= |line| ==> ok
    {
      var remaining, i := line, 0;
      kept := 0;
      while remaining != []
        invariant i <= |writes|
        invariant kept <= |line| && remaining == line[kept..]
        invariant data == old(data) + line[..kept]
        invariant |writes| > 0 && writes[0] >= |line| && i > 0 ==> remaining == []
        decreases |writes| - i
      {
        if i == |writes| || writes[i] <= 0 { return false, kept; }
        var written := if writes[i] < |remaining| then writes[i] else |remaining|;
        data := data + remaining[..written];
        assert line[..kept + written] == line[..kept] + remaining[..written];
        remaining := remaining[written..];
        kept := kept + written;
        i := i + 1;
      }
      ok := true;
    }

    /** `_repair_incomplete_tail`: at most one entry's worth of bytes is scanned. */
    method Repair(f: Fault) returns (ok: bool)
      modifies this
      ensures ok ==> data == Terminated(old(data))
      ensures !ok ==> data == old(data) || data == Terminated(old(data))
      ensures f.cuts && f.cutSyncs ==>
                (ok <==> Repairable(old(data)))
    {
      RepairBoundaryIs(data);
      if |data| > 0 { ByteBefore(data, |data|); }
      if |data| == 0 || Pread(data, 1, |data| - 1) == [NL] { return true; }
      var boundary := RepairBoundary(data);
      if boundary < 0 || !f.cuts { return false; }
      data := data[..boundary];
      ok := f.cutSyncs;
    }

    /** Write one line at the end, or take it back: the shared tail of both appends. */
    method Extend(line: seq<byte>, f: Fault) returns (ok: bool, ghost kept: nat)
      modifies this
      ensures kept <= |line| && data == old(data) + line[..kept]
      ensures ok ==> kept == |line|
      ensures Smooth(f) && |line| <= MAX_ENTRY_BYTES ==> ok
    {
      var size := |data|;
      var wrote;
      wrote, kept := WriteAll(line, f.writes);
      ok := wrote && f.syncs;
      if !ok && f.undoes {
        data := data[..size];
        kept := 0;
        assert line[..0] == [];
      }
    }

    /** `append`: returning means the whole line is the last thing in the file. */
    method Append(e: Entry, f: Fault) returns (ok: bool, ghost kept: nat)
      modifies this
      ensures ok ==> EntryOk(e) && Fits(e) && data == Terminated(old(data)) + Line(e)
      ensures !ok ==> data == old(data) ||
                      (EntryOk(e) && Fits(e) && kept <= |Line(e)| && data == Terminated(old(data)) + Line(e)[..kept])
      ensures Terminated(old(data)) <= data
      ensures Smooth(f) && Repairable(old(data)) && EntryOk(e) && Fits(e) ==> ok
    {
      ok, kept := false, 0;
      if !EntryOk(e) || |Line(e)| > MAX_ENTRY_BYTES || !f.opens { return; }
      var repaired := Repair(f);
      if !repaired {
        assert Line(e)[..0] == [];
        assert data != old(data) ==> data == Terminated(old(data)) + Line(e)[..0];
        return;
      }
      ok, kept := Extend(Line(e), f);
      assert kept == |Line(e)| ==> Line(e)[..kept] == Line(e);
    }

    /** `prepare_event`: bind the line to the repaired end of the file. */
    method Prepare(e: Entry, f: Fault) returns (r: Option<Prepared>)
      modifies this
      ensures data == old(data) || data == Terminated(old(data))
      ensures Terminated(old(data)) <= data
      ensures r.Some? ==> EntryOk(e) && Fits(e) && data == Terminated(old(data)) &&
                          r.value == Prepared(e, Line(e), CheckpointOf(data))
      ensures Smooth(f) && Repairable(old(data)) && EntryOk(e) && Fits(e) ==> r.Some?
    {
      if !EntryOk(e) || |Line(e)| > MAX_ENTRY_BYTES || !f.opens { return None; }
      var ok := Repair(f);
      if !ok || !f.syncs { return None; }
      r := Some(Prepared(e, Line(e), CheckpointOf(data)));
    }

    /** `append_prepared`: only onto the exact tail the receipt was prepared against. */
    method AppendPrepared(p: Prepared, f: Fault) returns (ok: bool, ghost kept: nat)
      requires p.encoded == Line(p.entry)
      modifies this
      ensures ok ==> EntryOk(p.entry) && Fits(p.entry) && CheckpointOf(Terminated(old(data))) == p.checkpoint &&
                     data == Terminated(old(data)) + p.encoded
      ensures !ok ==> data == old(data) || data == Terminated(old(data)) ||
                      (Fits(p.entry) && CheckpointOf(Terminated(old(data))) == p.checkpoint && kept <= |p.encoded| &&
                       data == Terminated(old(data)) + p.encoded[..kept])
      ensures Terminated(old(data)) <= data
      ensures CheckpointOf(Terminated(old(data))) == p.checkpoint && EntryOk(p.entry) && Fits(p.entry) ==>
                (Smooth(f) && Repairable(old(data)) ==> ok)
    {
      ok, kept := false, 0;
      if !EntryOk(p.entry) || |p.encoded| > MAX_ENTRY_BYTES || !f.opens { return; }
      var repaired := Repair(f);
      if !repaired { return; }
      if |data| != p.checkpoint.offset || TailDigestAt(data, |data|) != p.checkpoint.tail { return; }
      ok, kept := Extend(p.encoded, f);
      assert kept == |p.encoded| ==> p.encoded[..kept] == p.encoded;
    }
  }

  /** A torn `append` never leaves more than `Repair` can take away. */
  lemma TornAppendIsRepairable(data: seq<byte>, e: Entry, kept: nat)
    requires Fits(e) && kept <= |Line(e)|
    ensures var after := Terminated(data) + Line(e)[..kept];
            Terminated(after) == (if kept == |Line(e)| then after else Terminated(data)) &&
            |after| - |Terminated(after)| < MAX_ENTRY_BYTES
  {
    LineShape(e);
    var after := Terminated(data) + Line(e)[..kept];
    if kept == |Line(e)| {
      assert after[|after| - 1] == NL;
    } else {
      assert Line(e)[..kept] <= Line(e)[..|Line(e)| - 1];
      TerminatedIs(Terminated(data), Line(e)[..kept]);
    }
  }
}
