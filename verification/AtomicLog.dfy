/** The one-step machine the two-file protocol is meant to look like: a single log in
    which a grant transition and its receipt are the same event. */
module AtomicLog {
  import opened Bytes
  import opened Outcomes
  import opened Entries
  import opened Grants

  datatype Op =
    | Issue(grant: Grant)
    | Seed(grants: map<string, Grant>)
    | Revoke(id: string)
    | Expire(id: string)
    | SuspendAll

  /** A committed transition with its receipt, or a READ/DENY line of a lease holder. */
  datatype Item =
    | Receipt(op: Op, event: Entry)
    | Note(event: Entry)

  function Apply(op: Op, grants: map<string, Grant>): map<string, Grant> {
    match op
    case Issue(g) => grants[g.id := g]
    case Seed(seeds) => seeds
    case Revoke(id) => if id in grants then grants[id := grants[id].(status := Revoked)] else grants
    case Expire(id) => if id in grants then grants[id := grants[id].(status := Expired)] else grants
    case SuspendAll => SuspendActive(grants)
  }

  /** When a transition may be committed on top of `grants` at `revision`. */
  predicate OpOk(op: Op, grants: map<string, Grant>, revision: nat) {
    match op
    case Issue(g) => g.id !in grants && g.status == Active
    case Seed(seeds) =>
      && revision == 0 && grants == map[] && seeds != map[]
      && forall id :: id in seeds ==> seeds[id].id == id && seeds[id].status == Active
    case Revoke(id) => id in grants && (grants[id].status == Active || grants[id].status == Suspended)
    case Expire(id) => id in grants && grants[id].status == Active
    case SuspendAll => true
  }

  /** A transition that only widens what is usable stays hidden until it is committed. */
  predicate Widens(op: Op) {
    op.Issue? || op.Seed?
  }

  function TypeOf(op: Op): EventType {
    match op
    case Issue(_) => GRANT
    case Seed(_) => PROVISION
    case Revoke(_) => REVOKE
    case Expire(_) => DENY
    case SuspendAll => ESTOP
  }

  function AgentOf(op: Op): string {
    match op
    case Issue(g) => g.id
    case Seed(_) => "system"
    case Revoke(id) => id
    case Expire(id) => id
    case SuspendAll => "system"
  }

  predicate EventFor(op: Op, e: Entry, revision: nat) {
    && e.etype == TypeOf(op) && e.agent == AgentOf(op) && e.tier == None
    && e.stamp.Some? && e.stamp.value.revision == revision
    && EntryOk(e) && Fits(e)
  }

  function Replay(log: seq<Item>): map<string, Grant> {
    if log == [] then map[]
    else
      var rest := Replay(log[..|log| - 1]);
      match log[|log| - 1]
      case Note(_) => rest
      case Receipt(op, _) => Apply(op, rest)
  }

  /** The grant revision: how many receipts there are. */
  function Receipts(log: seq<Item>): nat {
    if log == [] then 0
    else Receipts(log[..|log| - 1]) + if log[|log| - 1].Receipt? then 1 else 0
  }

  predicate LegalNote(grants: map<string, Grant>, e: Entry) {
    && (e.etype == READ || e.etype == DENY) && e.stamp == None
    && e.agent in grants && (e.etype == READ ==> grants[e.agent].status == Active)
    && EntryOk(e) && Fits(e)
  }

  predicate LegalItem(log: seq<Item>, item: Item) {
    match item
    case Note(e) => LegalNote(Replay(log), e)
    case Receipt(op, e) => OpOk(op, Replay(log), Receipts(log)) && EventFor(op, e, Receipts(log) + 1)
  }

  /** Every log the atomic machine can produce. */
  predicate Legal(log: seq<Item>) {
    log == [] || (Legal(log[..|log| - 1]) && LegalItem(log[..|log| - 1], log[|log| - 1]))
  }

  lemma LegalStep(log: seq<Item>, item: Item)
    requires Legal(log) && LegalItem(log, item)
    ensures Legal(log + [item])
    ensures Replay(log + [item]) == if item.Receipt? then Apply(item.op, Replay(log)) else Replay(log)
    ensures Receipts(log + [item]) == Receipts(log) + if item.Receipt? then 1 else 0
  {
    assert (log + [item])[..|log|] == log;
  }

  lemma {:induction false} LegalPrefix(log: seq<Item>, n: nat)
    requires Legal(log) && n <= |log|
    ensures Legal(log[..n])
    ensures n < |log| ==> LegalItem(log[..n], log[n])
  {
    var m := |log| - 1;
    if n < m {
      LegalPrefix(log[..m], n);
      assert log[..m][..n] == log[..n];
    } else if n == |log| {
      assert log[..n] == log;
    }
  }

  // ---------------------------------------------------------------- statuses only tighten

  predicate Tightens(a: Status, b: Status) {
    a == b || (a == Active && b != Active) || (a == Suspended && b == Revoked)
  }

  /** Nothing but a status changes, and no status is ever loosened. */
  predicate OnlyTightened(before: map<string, Grant>, after: map<string, Grant>) {
    forall id :: id in before ==>
      id in after && Tightens(before[id].status, after[id].status) &&
      after[id] == before[id].(status := after[id].status)
  }

  lemma ApplyTightens(op: Op, grants: map<string, Grant>, revision: nat)
    requires OpOk(op, grants, revision)
    ensures OnlyTightened(grants, Apply(op, grants))
  {
  }

  lemma {:induction false} ReplayTightens(log: seq<Item>, n: nat)
    requires Legal(log) && n <= |log|
    ensures OnlyTightened(Replay(log[..n]), Replay(log))
  {
    var m := |log| - 1;
    if n == |log| {
      assert log[..n] == log;
    } else {
      ReplayTightens(log[..m], n);
      assert log[..m][..n] == log[..n];
      if log[m].Receipt? { ApplyTightens(log[m].op, Replay(log[..m]), Receipts(log[..m])); }
    }
  }

  // ---------------------------------------------------------------- what the audit says

  predicate Introduces(item: Item, id: string) {
    item.Receipt? && match item.op
                     case Issue(g) => g.id == id
                     case Seed(seeds) => id in seeds
                     case _ => false
  }

  predicate Ends(item: Item, id: string) {
    item.Receipt? && (item.op == Revoke(id) || item.op == Expire(id))
  }

  predicate Stops(item: Item) {
    item.Receipt? && item.op.SuspendAll?
  }

  predicate Untouched(log: seq<Item>, id: string) {
    forall k :: 0 <= k < |log| ==> !Ends(log[k], id) && !Introduces(log[k], id)
  }

  lemma {:induction false} UnknownNeverEnded(log: seq<Item>, id: string)
    requires Legal(log) && id !in Replay(log)
    ensures Untouched(log, id)
  {
    hide *;
    if log == [] {
      UntouchedEmpty(id);
    } else {
      UnknownBefore(log, id);
      UnknownNeverEnded(log[..|log| - 1], id);
      UntouchedStep(log, id);
    }
  }

  lemma UntouchedEmpty(id: string)
    ensures Untouched([], id)
  {
  }

  lemma UntouchedStep(log: seq<Item>, id: string)
    requires log != [] && Untouched(log[..|log| - 1], id)
    requires !Ends(log[|log| - 1], id) && !Introduces(log[|log| - 1], id)
    ensures Untouched(log, id)
  {
    hide Ends, Introduces;
    assert log == log[..|log| - 1] + [log[|log| - 1]];
  }

  lemma UnknownBefore(log: seq<Item>, id: string)
    requires Legal(log) && log != [] && id !in Replay(log)
    ensures Legal(log[..|log| - 1]) && id !in Replay(log[..|log| - 1])
    ensures !Ends(log[|log| - 1], id) && !Introduces(log[|log| - 1], id)
  {
    hide EventFor, LegalNote, OpOk, Apply;
    var rest := log[..|log| - 1];
    match log[|log| - 1]
    case Note(_) =>
    case Receipt(op, e) => AbsentStays(op, Replay(rest), Receipts(rest), id);
  }

  lemma AbsentStays(op: Op, grants: map<string, Grant>, revision: nat, id: string)
    requires OpOk(op, grants, revision) && id !in Apply(op, grants)
    ensures id !in grants
    ensures forall e :: !Ends(Receipt(op, e), id) && !Introduces(Receipt(op, e), id)
  {
  }

  /** What the last item did to a grant that is active after it. */
  lemma ActiveBefore(log: seq<Item>, id: string)
    requires Legal(log) && log != [] && id in Replay(log) && Replay(log)[id].status == Active
    requires !Introduces(log[|log| - 1], id)
    ensures var rest := log[..|log| - 1];
            Legal(rest) && id in Replay(rest) && Replay(rest)[id].status == Active
    ensures !Ends(log[|log| - 1], id) && !Stops(log[|log| - 1])
  {
  }

  lemma FreshBefore(log: seq<Item>, id: string)
    requires Legal(log) && log != [] && Introduces(log[|log| - 1], id)
    ensures Legal(log[..|log| - 1]) && id !in Replay(log[..|log| - 1])
    ensures !Ends(log[|log| - 1], id) && !Stops(log[|log| - 1])
  {
    hide EventFor, Apply, Replay;
  }

  /** Item `j` alone introduces the grant, nothing ends it, and no stop comes after `j`. */
  predicate InForceSince(log: seq<Item>, j: nat, id: string) {
    && j < |log| && Introduces(log[j], id)
    && (forall k :: 0 <= k < |log| && k != j ==> !Introduces(log[k], id))
    && (forall k :: 0 <= k < |log| ==> !Ends(log[k], id))
    && forall k :: j < k < |log| ==> !Stops(log[k])
  }

  /** An active grant was introduced once, was never ended, and no stop came since. */
  lemma {:induction false} ActiveMeans(log: seq<Item>, id: string) returns (j: nat)
    requires Legal(log) && id in Replay(log) && Replay(log)[id].status == Active
    ensures InForceSince(log, j, id)
  {
    assert log != [];
    hide *;
    var m := |log| - 1;
    if Introduces(log[m], id) {
      j := m;
      FreshBefore(log, id);
      UnknownNeverEnded(log[..m], id);
      InForceFirst(log, id);
    } else {
      ActiveBefore(log, id);
      j := ActiveMeans(log[..m], id);
      InForceStays(log, j, id);
    }
  }

  lemma InForceFirst(log: seq<Item>, id: string)
    requires log != [] && Untouched(log[..|log| - 1], id) && Introduces(log[|log| - 1], id)
    ensures InForceSince(log, |log| - 1, id)
  {
    var rest := log[..|log| - 1];
    assert forall k :: 0 <= k < |rest| ==> rest[k] == log[k];
  }

  lemma InForceStays(log: seq<Item>, j: nat, id: string)
    requires log != [] && InForceSince(log[..|log| - 1], j, id)
    requires !Introduces(log[|log| - 1], id) && !Ends(log[|log| - 1], id) && !Stops(log[|log| - 1])
    ensures InForceSince(log, j, id)
  {
    hide Introduces, Ends, Stops;
    var m := |log| - 1;
    assert forall k :: 0 <= k < m ==> log[..m][k] == log[k];
  }

  // ---------------------------------------------------------------- the log as bytes

  function Events(log: seq<Item>): (es: seq<Entry>)
    ensures |es| == |log|
    ensures forall i :: 0 <= i < |log| ==> es[i] == log[i].event
  {
    seq(|log|, i requires 0 <= i < |log| => log[i].event)
  }

  function EntryBytes(es: seq<Entry>): (b: seq<byte>) {
    if es == [] then [] else EntryBytes(es[..|es| - 1]) + Line(es[|es| - 1])
  }

  function LogBytes(log: seq<Item>): (b: seq<byte>) {
    if log == [] then [] else LogBytes(log[..|log| - 1]) + Line(log[|log| - 1].event)
  }

  lemma LogBytesStep(log: seq<Item>, item: Item)
    ensures LogBytes(log + [item]) == LogBytes(log) + Line(item.event)
  {
    assert (log + [item])[..|log|] == log;
  }

  lemma {:induction false} LogBytesEvents(log: seq<Item>)
    ensures LogBytes(log) == EntryBytes(Events(log))
  {
    if log != [] {
      var m := |log| - 1;
      LogBytesEvents(log[..m]);
      assert Events(log[..m]) == Events(log)[..m];
    }
  }

  lemma {:induction false} EntryBytesEndLine(es: seq<Entry>)
    ensures EndsLine(EntryBytes(es))
    ensures es != [] ==> |EntryBytes(es)| > 0
  {
    if es != [] { LineShape(es[|es| - 1]); }
  }

  lemma LogBytesEndLine(log: seq<Item>)
    ensures EndsLine(LogBytes(log))
    ensures log != [] ==> |LogBytes(log)| > 0
  {
    LogBytesEvents(log);
    EntryBytesEndLine(Events(log));
  }

  /** A line that ends a file is fixed by the file. */
  lemma LastLineUnique(a: seq<byte>, x: Entry, b: seq<byte>, y: Entry)
    requires EndsLine(a) && EndsLine(b)
    requires a + Line(x) == b + Line(y)
    ensures a == b && x == y
  {
    LineShape(x);
    LineShape(y);
    var f := a + Line(x);
    var n := |f| - 1;
    assert f[..n] == a + Line(x)[..|Line(x)| - 1];
    assert f[..n] == b + Line(y)[..|Line(y)| - 1];
    TerminatedIs(a, Line(x)[..|Line(x)| - 1]);
    TerminatedIs(b, Line(y)[..|Line(y)| - 1]);
    assert Line(x) == f[|a|..] == Line(y);
    LineInjective(x, y);
  }

  /** The bytes of a ledger determine its entries. */
  lemma {:induction false} EntryBytesInjective(a: seq<Entry>, b: seq<Entry>)
    requires EntryBytes(a) == EntryBytes(b)
    ensures a == b
  {
    hide Line, EndsLine;
    EntryBytesEndLine(a);
    EntryBytesEndLine(b);
    if a != [] && b != [] {
      var i, j := |a| - 1, |b| - 1;
      EntryBytesEndLine(a[..i]);
      EntryBytesEndLine(b[..j]);
      LastLineUnique(EntryBytes(a[..i]), a[i], EntryBytes(b[..j]), b[j]);
      EntryBytesInjective(a[..i], b[..j]);
      assert a == a[..i] + [a[i]] && b == b[..j] + [b[j]];
    }
  }

  // ---------------------------------------------------------------- reads are justified

  /** Item `j` is the one that introduced the grant read at `i`; nothing had ended that
      grant by then, and no stop lies between. */
  predicate Justifies(log: seq<Item>, j: nat, i: nat)
    requires j < i < |log|
  {
    var id := log[i].event.agent;
    && Introduces(log[j], id) && (forall k :: 0 <= k < |log| && k != j ==> !Introduces(log[k], id))
    && (forall k :: 0 <= k < i ==> !Ends(log[k], id))
    && forall k :: j < k < i ==> !Stops(log[k])
  }

  predicate ReadsJustified(log: seq<Item>) {
    forall i :: 0 <= i < |log| && log[i].event.etype == READ ==> exists j :: 0 <= j < i && Justifies(log, j, i)
  }

  lemma LegalLine(log: seq<Item>, item: Item)
    requires LegalItem(log, item)
    ensures match item
            case Note(e) => (e.etype == READ || e.etype == DENY) && e.stamp == None
            case Receipt(op, e) => e.etype == TypeOf(op) && e.agent == AgentOf(op) && e.stamp.Some?
  {
    hide OpOk, Replay, EntryOk, Fits;
  }

  lemma ReadIsActive(log: seq<Item>, i: nat)
    requires Legal(log) && i < |log| && log[i].event.etype == READ
    ensures Legal(log[..i]) && log[i].event.agent in Replay(log[..i])
    ensures Replay(log[..i])[log[i].event.agent].status == Active
  {
    LegalPrefix(log, i);
    hide *;
    LegalRead(log[..i], log[i]);
  }

  /** Only a note is a READ, and only an active grant is noted to read. */
  lemma LegalRead(log: seq<Item>, item: Item)
    requires LegalItem(log, item) && item.event.etype == READ
    ensures item.event.agent in Replay(log) && Replay(log)[item.event.agent].status == Active
  {
    LegalLine(log, item);
    hide Replay, EventFor, OpOk, EntryOk, Fits;
  }

  /** A known grant is never introduced again. */
  lemma KnownNotIntroduced(log: seq<Item>, k: nat, id: string)
    requires Legal(log) && k < |log| && id in Replay(log[..k])
    ensures !Introduces(log[k], id)
  {
    LegalPrefix(log, k);
    hide Apply, EventFor;
  }

  lemma {:induction false} StaysKnown(log: seq<Item>, i: nat, k: nat, id: string)
    requires Legal(log) && i <= k <= |log| && id in Replay(log[..i])
    ensures id in Replay(log[..k])
  {
    hide Legal, Replay;
    LegalPrefix(log, k);
    ReplayTightens(log[..k], i);
    assert log[..k][..i] == log[..i];
  }

  lemma ReadJustified(log: seq<Item>, i: nat) returns (j: nat)
    requires Legal(log) && i < |log| && log[i].event.etype == READ
    ensures j < i && Justifies(log, j, i)
  {
    hide Legal, Replay, Introduces, Ends, Stops;
    var id := log[i].event.agent;
    ReadIsActive(log, i);
    j := ActiveMeans(log[..i], id);
    forall k | 0 <= k < |log|
      ensures (k != j ==> !Introduces(log[k], id)) && (k < i ==> !Ends(log[k], id)) && (j < k < i ==> !Stops(log[k]))
    {
      if k < i {
        assert log[..i][k] == log[k];
      } else {
        StaysKnown(log, i, k, id);
        KnownNotIntroduced(log, k, id);
      }
    }
    assert log[..i][j] == log[j];
  }

  /** The audit guarantee of every legal log. */
  lemma LegalReadsJustified(log: seq<Item>)
    requires Legal(log)
    ensures ReadsJustified(log)
  {
    forall i | 0 <= i < |log| && log[i].event.etype == READ
      ensures exists j :: 0 <= j < i && Justifies(log, j, i)
    {
      var j := ReadJustified(log, i);
    }
  }

  // ---------------------------------------------------------------- audit over entries

  /** The GRANT line of `id`. */
  predicate GrantsEntry(e: Entry, id: string) {
    e.etype == GRANT && e.agent == id
  }

  /** A REVOKE of `id`, or the stamped DENY that records its expiry. */
  predicate EndsEntry(e: Entry, id: string) {
    e.agent == id && (e.etype == REVOKE || (e.etype == DENY && e.stamp.Some?))
  }

  /** What the lines alone show of one READ: a GRANT of its grant before it, or the demo
      PROVISION and then no GRANT of it anywhere; in either case no second GRANT, no end of
      the grant before it and no ESTOP in between. */
  predicate LinesShow(es: seq<Entry>, j: nat, i: nat)
    requires j < i < |es|
  {
    var id := es[i].agent;
    && (GrantsEntry(es[j], id) || es[j].etype == PROVISION)
    && (forall k :: 0 <= k < |es| && k != j ==> !GrantsEntry(es[k], id))
    && (forall k :: 0 <= k < i ==> !EndsEntry(es[k], id))
    && forall k :: j < k < i ==> es[k].etype != ESTOP
  }

  predicate AuditOrder(es: seq<Entry>) {
    forall i :: 0 <= i < |es| && es[i].etype == READ ==> exists j :: 0 <= j < i && LinesShow(es, j, i)
  }

  /** What a line says and what its item did are the same, but that a PROVISION line does
      not name the grants it provides. */
  lemma EntryMeans(log: seq<Item>, k: nat, id: string)
    requires Legal(log) && k < |log|
    ensures EndsEntry(log[k].event, id) <==> Ends(log[k], id)
    ensures GrantsEntry(log[k].event, id) <==> Introduces(log[k], id) && log[k].op.Issue?
    ensures log[k].event.etype == PROVISION <==> log[k].Receipt? && log[k].op.Seed?
    ensures log[k].event.etype == ESTOP <==> Stops(log[k])
  {
    LegalPrefix(log, k);
    LegalLine(log[..k], log[k]);
    LineMeans(log[k], id);
    hide *;
  }

  lemma LineMeans(item: Item, id: string)
    requires item.Note? ==>
               (item.event.etype == READ || item.event.etype == DENY) && item.event.stamp == None
    requires item.Receipt? ==>
               item.event.etype == TypeOf(item.op) && item.event.agent == AgentOf(item.op) && item.event.stamp.Some?
    ensures EndsEntry(item.event, id) <==> Ends(item, id)
    ensures GrantsEntry(item.event, id) <==> Introduces(item, id) && item.op.Issue?
    ensures item.event.etype == PROVISION <==> item.Receipt? && item.op.Seed?
    ensures item.event.etype == ESTOP <==> Stops(item)
  {
  }

  lemma JustifiedShows(log: seq<Item>, j: nat, i: nat)
    requires Legal(log) && j < i < |log| && Justifies(log, j, i)
    ensures LinesShow(Events(log), j, i)
  {
    hide Legal, GrantsEntry, EndsEntry, Ends, Stops;
    var es, id := Events(log), log[i].event.agent;
    forall k | 0 <= k < |log|
      ensures (k != j ==> !GrantsEntry(es[k], id)) && (k < i ==> !EndsEntry(es[k], id))
      ensures j < k < i ==> es[k].etype != ESTOP
    {
      EntryMeans(log, k, id);
    }
    EntryMeans(log, j, id);
  }

  lemma LegalAuditOrder(log: seq<Item>)
    requires Legal(log)
    ensures AuditOrder(Events(log))
  {
    hide Legal, Justifies, LinesShow;
    var es := Events(log);
    forall i | 0 <= i < |es| && es[i].etype == READ ensures exists j :: 0 <= j < i && LinesShow(es, j, i) {
      var j := ReadJustified(log, i);
      JustifiedShows(log, j, i);
    }
  }

  // ---------------------------------------------------------------- receipts are numbered

  /** Revisions of the stamped entries, in file order. */
  function Stamps(es: seq<Entry>): seq<nat> {
    if es == [] then []
    else
      var rest := Stamps(es[..|es| - 1]);
      if es[|es| - 1].stamp.Some? then rest + [es[|es| - 1].stamp.value.revision] else rest
  }

  /** 1, 2, ..., k with no gap and no repeat. */
  predicate CountsUp(s: seq<nat>) {
    forall i :: 0 <= i < |s| ==> s[i] == i + 1
  }

  lemma {:induction false} LegalNumbering(log: seq<Item>)
    requires Legal(log)
    ensures CountsUp(Stamps(Events(log))) && |Stamps(Events(log))| == Receipts(log)
  {
    if log != [] {
      var m := |log| - 1;
      LegalNumbering(log[..m]);
      assert Events(log[..m]) == Events(log)[..m];
    }
  }
}
