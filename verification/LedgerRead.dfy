/** The bounded owner read: a fixed window at the end of the file, and the simple
    whole-file scan it agrees with. */
module LedgerRead {
  import opened Bytes
  import opened Entries
  import opened Outcomes
  import opened Json
  import opened AtomicLog

  const MAX_READ_LIMIT: nat := 1_000
  const MAX_READ_BYTES: nat := 4 * 1024 * 1024

  // ---------------------------------------------------------------- the simple scan

  /** The complete lines of a file, without their newlines. */
  function Lines(b: seq<byte>): (lines: seq<seq<byte>>)
    requires EndsLine(b)
    decreases |b|
  {
    if b == [] then []
    else
      var n := Find(b, NL);
      [b[..n]] + Lines(b[n + 1..])
  }

  function Joined(lines: seq<seq<byte>>): seq<byte> {
    if lines == [] then [] else lines[0] + [NL] + Joined(lines[1..])
  }

  lemma FirstLine(b: seq<byte>)
    requires EndsLine(b) && b != []
    ensures var n := Find(b, NL);
            n >= 0 && EndsLine(b[n + 1..]) && b == b[..n] + [NL] + b[n + 1..] &&
            Lines(b) == [b[..n]] + Lines(b[n + 1..])
  {
    assert b[|b| - 1] == NL;
  }

  lemma JoinedCons(line: seq<byte>, rest: seq<seq<byte>>)
    ensures Joined([line] + rest) == line + [NL] + Joined(rest)
  {
    assert ([line] + rest)[1..] == rest;
  }

  lemma {:induction false} JoinedLines(b: seq<byte>)
    requires EndsLine(b)
    ensures Joined(Lines(b)) == b
    decreases |b|
  {
    if b != [] {
      FirstLine(b);
      var n := Find(b, NL);
      JoinedLines(b[n + 1..]);
      JoinedCons(b[..n], Lines(b[n + 1..]));
    }
  }

  /** The longest suffix of whole lines that takes at most `budget` bytes. */
  function LongestFit(lines: seq<seq<byte>>, budget: int): (fit: seq<seq<byte>>) {
    if lines == [] || |Joined(lines)| <= budget then lines else LongestFit(lines[1..], budget)
  }

  lemma DropTwice<T>(s: seq<T>, m: nat, n: nat)
    requires m <= n <= |s|
    ensures s[m..][n - m..] == s[n..]
  {
  }

  lemma {:induction false} LongestFitMeans(lines: seq<seq<byte>>, budget: int)
    ensures var fit := LongestFit(lines, budget);
            && |fit| <= |lines| && fit == lines[|lines| - |fit|..]
            && (fit == [] || |Joined(fit)| <= budget)
            && forall n :: 0 <= n < |lines| - |fit| ==> |Joined(lines[n..])| > budget
  {
    if lines != [] && |Joined(lines)| > budget {
      hide Joined;
      LongestFitMeans(lines[1..], budget);
      var fit := LongestFit(lines[1..], budget);
      assert LongestFit(lines, budget) == fit;
      DropTwice(lines, 1, |lines| - |fit|);
      forall n | 0 <= n < |lines| - |fit| ensures |Joined(lines[n..])| > budget {
        if n == 0 { assert lines[0..] == lines; } else { DropTwice(lines, 1, n); }
      }
    }
  }

  /** The entries a reader accepts, oldest first. */
  function Accepted(lines: seq<seq<byte>>, loads: seq<byte> -> Option<Entry>): seq<Entry> {
    if lines == [] then []
    else
      var rest := Accepted(lines[..|lines| - 1], loads);
      var line := lines[|lines| - 1];
      if Blank(line) || |line| > MAX_ENTRY_BYTES then rest
      else match loads(line) case None => rest case Some(e) => rest + [e]
  }

  predicate Blank(line: seq<byte>) {
    forall i :: 0 <= i < |line| ==> line[i] in {9, 10, 11, 12, 13, 32}
  }

  function LastN<T>(s: seq<T>, n: nat): seq<T> {
    if |s| <= n then s else s[|s| - n..]
  }

  function Reversed<T>(s: seq<T>): (r: seq<T>)
    ensures |r| == |s|
    ensures forall i :: 0 <= i < |s| ==> r[i] == s[|s| - 1 - i]
  {
    if s == [] then [] else [s[|s| - 1]] + Reversed(s[..|s| - 1])
  }

  // ---------------------------------------------------------------- the bounded window

  /** The first newline or return, or -1. */
  function Break(b: seq<byte>): (i: int)
    ensures -1 <= i < |b|
  {
    var n, r := Find(b, NL), Find(b, CR);
    if n == -1 then r else if r == -1 then n else if r < n then r else n
  }

  /** `bytes.splitlines`: also breaks at a lone return, which no entry contains. */
  function SplitLines(b: seq<byte>): seq<seq<byte>>
    decreases |b|
  {
    var i := Break(b);
    if b == [] then []
    else if i == -1 then [b]
    else if b[i] == CR && i + 1 < |b| && b[i + 1] == NL then [b[..i]] + SplitLines(b[i + 2..])
    else [b[..i]] + SplitLines(b[i + 1..])
  }

  lemma BreakIs(b: seq<byte>)
    requires CR !in b
    ensures Break(b) == Find(b, NL)
  {
    assert Find(b, CR) == -1;
  }

  lemma {:induction false} SplitLinesIsLines(b: seq<byte>)
    requires EndsLine(b) && CR !in b
    ensures SplitLines(b) == Lines(b)
    decreases |b|
  {
    if b != [] {
      FirstLine(b);
      SplitFirst(b);
      hide Find, SplitLines, Lines;
      SplitLinesIsLines(b[Find(b, NL) + 1..]);
    }
  }

  lemma SplitFirst(b: seq<byte>)
    requires CR !in b && Find(b, NL) >= 0
    ensures SplitLines(b) == [b[..Find(b, NL)]] + SplitLines(b[Find(b, NL) + 1..])
  {
    BreakIs(b);
    hide Find, Break;
  }

  function CutTail(data: seq<byte>): seq<byte> {
    if data != [] && data[|data| - 1] == NL then data
    else
      var last := RFind(data, NL);
      if last < 0 then [] else data[..last + 1]
  }

  /** The bytes `_tail_lines` splits. */
  function TailWindow(data: seq<byte>): seq<byte> {
    WindowFrom(data, WindowStart(|data|))
  }

  function WindowStart(size: nat): (start: nat)
    ensures start <= size
  {
    if size < MAX_READ_BYTES then 0 else size - MAX_READ_BYTES
  }

  lemma CutTailIs(data: seq<byte>)
    ensures CutTail(data) == Terminated(data)
  {
    NoneAfter(data, |Terminated(data)|);
    var cut := CutTail(data);
    assert data == cut + data[|cut|..];
    TerminatedIs(cut, data[|cut|..]);
  }

  lemma TerminatedDrop(data: seq<byte>, n: nat)
    requires n <= |Terminated(data)|
    ensures Terminated(data[n..]) == Terminated(data)[n..]
  {
    var t := Terminated(data);
    assert data[n..] == t[n..] + data[|t|..];
    TerminatedIs(t[n..], data[|t|..]);
  }

  lemma FindAfter(data: seq<byte>, n: nat)
    requires n <= |data| && Find(data, NL) >= n
    ensures Find(data[n..], NL) == Find(data, NL) - n
  {
    var f := Find(data, NL);
    assert forall k :: 0 <= k < |data| - n ==> data[n..][k] == data[n + k];
    assert data[n..][f - n] == NL;
  }

  function WindowFrom(data: seq<byte>, start: nat): seq<byte>
    requires start <= |data|
  {
    var window := data[start..];
    if start > 0 && data[start - 1] != NL then
      var first := Find(window, NL);
      if first < 0 then [] else CutTail(window[first + 1..])
    else CutTail(window)
  }

  lemma WindowInside(data: seq<byte>, start: nat)
    requires 0 < start <= |data| && data[start - 1] != NL && Find(data[start..], NL) >= 0
    ensures WindowFrom(data, start) == CutTail(data[start..][Find(data[start..], NL) + 1..])
  {
    hide CutTail, Find;
  }

  /** Starting inside the first line and starting right after it read the same. */
  lemma WindowInFirstLine(data: seq<byte>, start: nat)
    requires 0 < start <= Find(data, NL) + 1
    ensures WindowFrom(data, start) == CutTail(data[Find(data, NL) + 1..])
  {
    var n := Find(data, NL) + 1;
    assert data[n - 1] == NL && (start < n ==> data[start - 1] != NL);
    hide CutTail, Find;
    if start < n {
      hide WindowFrom;
      FindAfter(data, start);
      WindowInside(data, start);
      DropTwice(data, start, n);
    } else {
      assert WindowFrom(data, n) == CutTail(data[n..]);
    }
  }

  lemma WindowPastFirstLine(data: seq<byte>, start: nat, n: nat)
    requires n < start <= |data|
    ensures WindowFrom(data, start) == WindowFrom(data[n..], start - n)
  {
    assert data[n..][start - n..] == data[start..];
    assert data[n..][start - n - 1] == data[start - 1];
  }

  /** Whether the first line is there makes no difference to a full window. */
  lemma WindowDropsFirstLine(data: seq<byte>)
    requires |data| > MAX_READ_BYTES && Find(data, NL) >= 0
    ensures TailWindow(data) == TailWindow(data[Find(data, NL) + 1..])
  {
    var n := Find(data, NL) + 1;
    var start := WindowStart(|data|);
    var rest := data[n..];
    if start <= n {
      WindowInFirstLine(data, start);
      assert WindowStart(|rest|) == 0 && rest[0..] == rest;
    } else {
      WindowPastFirstLine(data, start, n);
      assert WindowStart(|rest|) == start - n;
    }
  }

  lemma FirstLineOfBoth(data: seq<byte>)
    requires Terminated(data) != []
    ensures Find(data, NL) == Find(Terminated(data), NL) >= 0
  {
    var t := Terminated(data);
    assert data[|t| - 1] == NL;
    assert forall k :: 0 <= k < |t| ==> t[k] == data[k];
  }

  lemma CompleteLinesDrop(data: seq<byte>)
    requires Terminated(data) != []
    ensures var n := Find(data, NL) + 1;
            0 < n <= |Terminated(data)| &&
            Terminated(data[n..]) == Terminated(data)[n..] &&
            Lines(Terminated(data))[1..] == Lines(Terminated(data)[n..]) &&
            Lines(Terminated(data)) != []
  {
    hide Lines, Terminated, Find;
    FirstLineOfBoth(data);
    FirstLine(Terminated(data));
    TerminatedDrop(data, Find(data, NL) + 1);
  }

  lemma ShortWindow(data: seq<byte>)
    requires |data| <= MAX_READ_BYTES || Terminated(data) == []
    ensures TailWindow(data) == Terminated(data)
  {
    CutTailIs(data);
    if |data| <= MAX_READ_BYTES {
      assert data[0..] == data;
    } else {
      NoneAfter(data, 0);
      assert Find(data[|data| - MAX_READ_BYTES..], NL) == -1;
    }
  }

  /** The longest run of whole lines at the end of the file that fits the read limit
      together with whatever torn tail follows them. */
  function RecentLines(data: seq<byte>): seq<seq<byte>> {
    LongestFit(Lines(Terminated(data)), MAX_READ_BYTES - (|data| - |Terminated(data)|))
  }

  lemma FitStep(lines: seq<seq<byte>>, rest: seq<seq<byte>>, budget: int)
    requires lines != [] && lines[1..] == rest && |Joined(lines)| > budget
    ensures LongestFit(lines, budget) == LongestFit(rest, budget)
  {
  }

  lemma RecentFrom(data: seq<byte>, t: seq<byte>)
    requires Terminated(data) == t
    ensures RecentLines(data) == LongestFit(Lines(t), MAX_READ_BYTES - (|data| - |t|))
  {
  }

  lemma FirstLineTooMuch(t: seq<byte>, n: nat, budget: int)
    requires EndsLine(t) && n <= |t| && EndsLine(t[n..]) && |t| > budget
    requires Lines(t) != [] && Lines(t)[1..] == Lines(t[n..])
    ensures LongestFit(Lines(t), budget) == LongestFit(Lines(t[n..]), budget)
  {
    JoinedLines(t);
    FitStep(Lines(t), Lines(t[n..]), budget);
  }

  /** Losing its first line does not change what a file longer than the limit shows. */
  lemma RecentLinesDrop(data: seq<byte>, n: nat)
    requires Terminated(data) != [] && |data| > MAX_READ_BYTES
    requires n == Find(data, NL) + 1 && n <= |data|
    ensures RecentLines(data) == RecentLines(data[n..])
  {
    hide Lines, Terminated, Find, LongestFit, Joined, RecentLines;
    var t := Terminated(data);
    CompleteLinesDrop(data);
    FirstLineTooMuch(t, n, MAX_READ_BYTES - (|data| - |t|));
    RecentFrom(data, t);
    RecentFrom(data[n..], t[n..]);
  }

  lemma {:induction false} TailWindowIs(data: seq<byte>)
    ensures EndsLine(TailWindow(data)) && Lines(TailWindow(data)) == RecentLines(data)
    decreases |data|
  {
    if |data| <= MAX_READ_BYTES || Terminated(data) == [] {
      ShortWindow(data);
      WholeFits(data);
    } else {
      var n := Find(data, NL) + 1;
      FirstLineThere(data);
      RecentLinesDrop(data, n);
      WindowDropsFirstLine(data);
      TailWindowIs(data[n..]);
    }
  }

  lemma FirstLineThere(data: seq<byte>)
    requires Terminated(data) != []
    ensures Find(data, NL) >= 0
  {
    assert data[|Terminated(data)| - 1] == NL;
  }

  lemma WholeFits(data: seq<byte>)
    requires |data| <= MAX_READ_BYTES || Terminated(data) == []
    ensures RecentLines(data) == Lines(Terminated(data))
  {
    JoinedLines(Terminated(data));
  }

  lemma SplitWindow(data: seq<byte>)
    requires CR !in data
    ensures SplitLines(TailWindow(data)) == RecentLines(data)
  {
    TailWindowIs(data);
    WindowNoReturn(data);
    SplitLinesIsLines(TailWindow(data));
  }

  lemma {:induction false} LastNAppend<T>(s: seq<T>, e: T, n: nat)
    requires n > 0
    ensures LastN(s + [e], n) == (if |LastN(s, n)| == n then LastN(s, n)[1..] else LastN(s, n)) + [e]
  {
  }

  function Bounded(limit: int): (n: nat)
    requires limit > 0
    ensures 0 < n <= limit
  {
    if limit < MAX_READ_LIMIT then limit else MAX_READ_LIMIT
  }

  // ---------------------------------------------------------------- entries that were written

  /** A reader that understands a line without its newline. */
  ghost predicate ReadsBodies(loads: seq<byte> -> Option<Entry>) {
    forall e: Entry :: EntryOk(e) ==> loads(Body(e)) == Some(e)
  }

  function Body(e: Entry): (b: seq<byte>) {
    LineShape(e);
    Line(e)[..|Line(e)| - 1]
  }

  function Bodies(es: seq<Entry>): (b: seq<seq<byte>>)
    ensures |b| == |es| && forall i :: 0 <= i < |es| ==> b[i] == Body(es[i])
  {
    seq(|es|, i requires 0 <= i < |es| => Body(es[i]))
  }

  /** Valid entries that fit their line limit. */
  predicate Written(es: seq<Entry>) {
    forall i :: 0 <= i < |es| ==> EntryOk(es[i]) && Fits(es[i])
  }

  /** What a reader sees of a file with these entries and a torn tail of `torn` bytes: newest
      first, at most `limit` of those whose lines fit the window from the end. */
  predicate Newest(r: seq<Entry>, es: seq<Entry>, torn: nat, limit: nat) {
    exists n: nat :: n <= |es| && FitsFrom(es, torn, n) && NewestFrom(r, es, n, limit)
  }

  /** The entries from `n` on fit the window with the torn tail, and no more do. */
  predicate FitsFrom(es: seq<Entry>, torn: nat, n: nat)
    requires n <= |es|
  {
    && (n == |es| || |EntryBytes(es[n..])| + torn <= MAX_READ_BYTES)
    && forall m: nat :: m < n ==> |EntryBytes(es[m..])| + torn > MAX_READ_BYTES
  }

  predicate NewestFrom(r: seq<Entry>, es: seq<Entry>, n: nat, limit: nat)
    requires n <= |es|
  {
    && |r| == (if |es| - n <= limit then |es| - n else limit)
    && forall i :: 0 <= i < |r| ==> r[i] == es[|es| - 1 - i]
  }

  lemma BodyShape(e: Entry)
    ensures NL !in Body(e) && Line(e) == Body(e) + [NL] && !Blank(Body(e))
  {
    LineShape(e);
    LineOpens(e);
    var n := |Line(e)| - 1;
    assert Line(e) == Line(e)[..n] + [Line(e)[n]];
    assert Body(e)[0] == 123;
  }

  /** Every line opens with a brace, so none is blank. */
  lemma LineOpens(e: Entry)
    ensures |Line(e)| >= 2 && Line(e)[0] == 123
  {
    LineShape(e);
    var s := Dump(ToJson(e), "\n");
    assert s[0] == '{';
    assert Utf8Char('{') == [123];
    assert Utf8(s)[0] == Utf8Char(s[0])[0];
  }

  lemma BodiesCons(es: seq<Entry>)
    requires es != []
    ensures Bodies(es) == [Body(es[0])] + Bodies(es[1..])
  {
    hide Body;
  }

  lemma {:induction false} JoinedBodies(es: seq<Entry>)
    ensures Joined(Bodies(es)) == EntryBytes(es)
    decreases |es|
  {
    hide Body, Line, Blank;
    if es != [] {
      var e, rest := es[0], es[1..];
      JoinedBodies(rest);
      BodyShape(e);
      BodiesCons(es);
      JoinedCons(Body(e), Bodies(rest));
      EntryBytesCons(e, rest);
      assert es == [e] + rest;
    }
  }

  lemma {:induction false} EntryBytesCons(e: Entry, rest: seq<Entry>)
    ensures EntryBytes([e] + rest) == Line(e) + EntryBytes(rest)
    decreases |rest|
  {
    hide Line;
    var all := [e] + rest;
    if rest == [] {
      assert all[..0] == [];
    } else {
      var m := |rest| - 1;
      EntryBytesCons(e, rest[..m]);
      assert all[..|all| - 1] == [e] + rest[..m];
    }
  }

  /** Cutting a file at its newlines gives back the lines that were joined. */
  lemma {:induction false} LinesJoined(lines: seq<seq<byte>>)
    requires forall i :: 0 <= i < |lines| ==> NL !in lines[i]
    ensures EndsLine(Joined(lines)) && Lines(Joined(lines)) == lines
    decreases |lines|
  {
    if lines != [] {
      var line, rest := lines[0], lines[1..];
      LinesJoined(rest);
      var b := Joined(lines);
      assert b == line + [NL] + Joined(rest);
      assert Find(b, NL) == |line| by { FindLine(line, Joined(rest)); }
      assert b[..|line|] == line && b[|line| + 1..] == Joined(rest);
      assert lines == [line] + rest;
    }
  }

  lemma FindLine(line: seq<byte>, rest: seq<byte>)
    requires NL !in line
    ensures Find(line + [NL] + rest, NL) == |line|
  {
    var b := line + [NL] + rest;
    assert b[|line|] == NL;
    assert forall k :: 0 <= k < |line| ==> b[k] == line[k];
  }

  lemma EntryLines(es: seq<Entry>)
    ensures EndsLine(EntryBytes(es)) && Lines(EntryBytes(es)) == Bodies(es)
  {
    forall i | 0 <= i < |es| ensures NL !in Bodies(es)[i] { BodyShape(es[i]); }
    JoinedBodies(es);
    LinesJoined(Bodies(es));
  }

  lemma {:induction false} AllAccepted(es: seq<Entry>, loads: seq<byte> -> Option<Entry>)
    requires ReadsBodies(loads) && Written(es)
    ensures Accepted(Bodies(es), loads) == es
    decreases |es|
  {
    hide Body, Blank, EntryOk, Fits, Line, ReadsBodies;
    if es != [] {
      var m := |es| - 1;
      AllAccepted(es[..m], loads);
      BodyAccepted(es[m], loads);
      BodiesSnoc(es);
      assert es == es[..m] + [es[m]];
    }
  }

  lemma BodyAccepted(e: Entry, loads: seq<byte> -> Option<Entry>)
    requires ReadsBodies(loads) && EntryOk(e) && Fits(e)
    ensures !Blank(Body(e)) && |Body(e)| <= MAX_ENTRY_BYTES && loads(Body(e)) == Some(e)
  {
    BodyShape(e);
    hide EntryOk, Line, Blank;
  }

  lemma BodiesSnoc(es: seq<Entry>)
    requires es != []
    ensures Bodies(es)[..|es| - 1] == Bodies(es[..|es| - 1]) && Bodies(es)[|es| - 1] == Body(es[|es| - 1])
  {
    hide Body;
  }

  lemma BodiesFrom(es: seq<Entry>, m: nat)
    requires m <= |es|
    ensures Bodies(es)[m..] == Bodies(es[m..]) && Joined(Bodies(es)[m..]) == EntryBytes(es[m..])
  {
    JoinedBodies(es[m..]);
    hide Body, Joined, EntryBytes;
    assert Bodies(es)[m..] == Bodies(es[m..]);
  }

  /** The longest fitting run of lines holds the longest fitting run of entries. */
  lemma FitBodies(es: seq<Entry>, torn: nat) returns (n: nat)
    ensures n <= |es| && LongestFit(Bodies(es), MAX_READ_BYTES - torn) == Bodies(es[n..]) && FitsFrom(es, torn, n)
  {
    hide LongestFit, Body, Joined, EntryBytes;
    var lines := Bodies(es);
    LongestFitMeans(lines, MAX_READ_BYTES - torn);
    n := |es| - |LongestFit(lines, MAX_READ_BYTES - torn)|;
    BodiesFrom(es, n);
    forall m: nat | m < n ensures |EntryBytes(es[m..])| + torn > MAX_READ_BYTES { BodiesFrom(es, m); }
  }

  lemma RecentBodies(es: seq<Entry>, torn: seq<byte>) returns (n: nat)
    requires NL !in torn
    ensures n <= |es| && RecentLines(EntryBytes(es) + torn) == Bodies(es[n..]) && FitsFrom(es, |torn|, n)
  {
    hide *;
    EntryLines(es);
    TerminatedIs(EntryBytes(es), torn);
    n := FitBodies(es, |torn|);
    RecentFrom(EntryBytes(es) + torn, EntryBytes(es));
    assert |EntryBytes(es) + torn| - |EntryBytes(es)| == |torn|;
  }

  lemma WrittenFrom(es: seq<Entry>, n: nat)
    requires Written(es) && n <= |es|
    ensures Written(es[n..])
  {
    hide EntryOk, Fits;
  }

  lemma LastReversed(es: seq<Entry>, n: nat, limit: nat)
    requires n <= |es|
    ensures NewestFrom(Reversed(LastN(es[n..], limit)), es, n, limit)
  {
  }

  lemma IsNewest(r: seq<Entry>, es: seq<Entry>, torn: nat, n: nat, limit: nat)
    requires n <= |es| && FitsFrom(es, torn, n) && NewestFrom(r, es, n, limit)
    ensures Newest(r, es, torn, limit)
  {
    hide FitsFrom, NewestFrom;
  }

  lemma ReadsWritten(es: seq<Entry>, torn: seq<byte>, loads: seq<byte> -> Option<Entry>, limit: nat)
    requires ReadsBodies(loads) && Written(es) && NL !in torn && limit > 0
    ensures Newest(Reversed(LastN(Accepted(RecentLines(EntryBytes(es) + torn), loads), limit)), es, |torn|, limit)
  {
    hide *;
    var n := RecentBodies(es, torn);
    WrittenFrom(es, n);
    AllAccepted(es[n..], loads);
    LastReversed(es, n, limit);
    IsNewest(Reversed(LastN(es[n..], limit)), es, |torn|, n, limit);
  }

  /** When everything fits the window, these are simply the last entries. */
  lemma NewestOfAll(r: seq<Entry>, es: seq<Entry>, torn: nat, limit: nat)
    requires Newest(r, es, torn, limit) && |EntryBytes(es)| + torn <= MAX_READ_BYTES
    ensures |r| == (if |es| <= limit then |es| else limit)
    ensures forall i :: 0 <= i < |r| ==> r[i] == es[|es| - 1 - i]
  {
    var n: nat :| n <= |es| && FitsFrom(es, torn, n) && NewestFrom(r, es, n, limit);
    assert es[0..] == es;
  }

  /** `read`: newest first, at most `limit` of the entries the window holds. */
  method Read(data: seq<byte>, limit: int, loads: seq<byte> -> Option<Entry>) returns (r: seq<Entry>)
    requires CR !in data
    ensures limit <= 0 ==> r == []
    ensures limit > 0 ==>
              r == Reversed(LastN(Accepted(RecentLines(data), loads), Bounded(limit)))
    ensures limit > 0 && ReadsBodies(loads) ==>
              forall es, torn :: data == EntryBytes(es) + torn && Written(es) && NL !in torn ==>
                Newest(r, es, |torn|, if limit < 1_000 then limit else 1_000)
  {
    if limit <= 0 { return []; }
    var bounded := Bounded(limit);
    SplitWindow(data);
    var lines := SplitLines(TailWindow(data));
    var entries := [];
    for i := 0 to |lines|
      invariant entries == LastN(Accepted(lines[..i], loads), bounded)
    {
      AcceptedStep(lines, i, loads, bounded);
      if !Blank(lines[i]) && |lines[i]| <= MAX_ENTRY_BYTES {
        var parsed := loads(lines[i]);
        if parsed.Some? {
          // a deque with `maxlen` drops its oldest element
          entries := (if |entries| == bounded then entries[1..] else entries) + [parsed.value];
        }
      }
    }
    assert lines[..|lines|] == lines;
    r := Reversed(entries);
    forall es, torn | data == EntryBytes(es) + torn && Written(es) && NL !in torn && ReadsBodies(loads)
      ensures Newest(r, es, |torn|, bounded)
    {
      ReadsWritten(es, torn, loads, bounded);
    }
  }

  lemma AcceptedStep(lines: seq<seq<byte>>, i: nat, loads: seq<byte> -> Option<Entry>, n: nat)
    requires i < |lines| && n > 0
    ensures var kept := LastN(Accepted(lines[..i], loads), n);
            LastN(Accepted(lines[..i + 1], loads), n) ==
            if Blank(lines[i]) || |lines[i]| > MAX_ENTRY_BYTES || loads(lines[i]).None? then kept
            else (if |kept| == n then kept[1..] else kept) + [loads(lines[i]).value]
  {
    assert lines[..i + 1][..i] == lines[..i];
    if loads(lines[i]).Some? { LastNAppend(Accepted(lines[..i], loads), loads(lines[i]).value, n); }
  }

  lemma WindowNoReturn(data: seq<byte>)
    requires CR !in data
    ensures CR !in TailWindow(data)
  {
    var w := TailWindow(data);
    forall i | 0 <= i < |w| ensures w[i] in data {
      var start := WindowStart(|data|);
      var window := data[start..];
      if start > 0 && data[start - 1] != NL {
        var first := Find(window, NL);
        assert w[i] == window[first + 1..][i] == data[start + first + 1 + i];
      } else {
        assert w[i] == window[i] == data[start + i];
      }
    }
  }
}
