/** Grant lifecycle and time-bound access decisions. */
module Grants {
  import opened Outcomes
  import opened House

  datatype Status = Active | Revoked | Expired | Suspended

  /** Times are integers; text that does not parse as a time is `Unreadable`. */
  datatype Window = Standing | Interval(start: int, end: int) | UnreadableWindow

  datatype Expiry = Revocable | At(t: int) | UnreadableExpiry

  datatype Agent = AgentKind | HumanKind | HumanoidKind

  /** The texts that `window`, `expires` and `issued` were read from, as they are stored. */
  datatype TimeTexts = TimeTexts(window: string, expires: string, issued: string)

  datatype Grant = Grant(
    id: string,
    name: string,
    kind: Agent,
    scopes: seq<Scope>,
    zones: seq<string>,
    window: Window,
    expires: Expiry,
    status: Status,
    issued: int,
    texts: TimeTexts,
    credential: string)

  datatype Reason =
    | GrantInactive(status: Status)
    | GrantInvalidExpiry
    | GrantExpired
    | GrantInvalidWindow
    | GrantOutsideWindow
    | GrantActive

  datatype Decision = Decision(allowed: bool, reason: Reason, next: Option<Status>)

  datatype IssueError =
    | IdExists
    | CredentialRegistered
    | NoScope
    | NoZone
    | UnknownZone(id: string)
    | UngrantableZone(id: string)
    | BadExpiry
    | ExpiryNotFuture
    | BadWindow
    | WindowNotFuture
    | ExpiresBeforeWindow

  /** `parse_window`: `Some(None)` is a standing grant, `None` an error. */
  function ParseWindow(w: Window): Option<Option<(int, int)>> {
    match w
    case Standing => Some(None)
    case UnreadableWindow => None
    case Interval(start, end) => if start >= end then None else Some(Some((start, end)))
  }

  function Decide(g: Grant, now: int): Decision {
    if g.status != Active then Decision(false, GrantInactive(g.status), None)
    else if g.expires.UnreadableExpiry? then Decision(false, GrantInvalidExpiry, None)
    else if g.expires.At? && now >= g.expires.t then Decision(false, GrantExpired, Some(Expired))
    else match ParseWindow(g.window)
      case None => Decision(false, GrantInvalidWindow, None)
      case Some(None) => Decision(true, GrantActive, None)
      case Some(Some(interval)) =>
        if now >= interval.1 then Decision(false, GrantExpired, Some(Expired))
        else if now < interval.0 then Decision(false, GrantOutsideWindow, None)
        else Decision(true, GrantActive, None)
  }

  predicate Due(g: Grant, now: int) {
    Decide(g, now).next == Some(Expired)
  }

  // ---------------------------------------------------------------- issue checks

  predicate Grantable(file: Housefile, zone: string) {
    FirstZone(file.zones, zone).Some? && FirstZone(file.zones, zone).value.access != NoGo
  }

  /** `_validate_housefile_bindings`. */
  predicate Bound(file: Housefile, g: Grant) {
    g.scopes != [] && g.zones != [] && g.credential != "" &&
    forall i :: 0 <= i < |g.zones| ==> Grantable(file, g.zones[i])
  }

  predicate AllBound(file: Housefile, grants: map<string, Grant>) {
    forall id :: id in grants ==> Bound(file, grants[id])
  }

  /** A second grant under the same digest, unless the digest is empty. */
  predicate CredentialTaken(grants: map<string, Grant>, credential: string) {
    credential != "" && exists id :: id in grants && grants[id].credential == credential
  }

  function ZoneError(file: Housefile, zones: seq<string>): (e: Option<IssueError>)
    ensures e.None? <==> forall i :: 0 <= i < |zones| ==> Grantable(file, zones[i])
  {
    if zones == [] then None
    else if FirstZone(file.zones, zones[0]).None? then Some(UnknownZone(zones[0]))
    else if FirstZone(file.zones, zones[0]).value.access == NoGo then Some(UngrantableZone(zones[0]))
    else
      assert forall i :: 1 <= i < |zones| ==> zones[i] == zones[1..][i - 1];
      ZoneError(file, zones[1..])
  }

  function TimeError(g: Grant, now: int): Option<IssueError> {
    if g.expires.UnreadableExpiry? then Some(BadExpiry)
    else if g.expires.At? && g.expires.t <= now then Some(ExpiryNotFuture)
    else match ParseWindow(g.window)
      case None => Some(BadWindow)
      case Some(None) => None
      case Some(Some(interval)) =>
        if interval.1 <= now then Some(WindowNotFuture)
        else if g.expires.At? && g.expires.t <= interval.0 then Some(ExpiresBeforeWindow)
        else None
  }

  function IssueCheck(file: Housefile, grants: map<string, Grant>, g: Grant, now: int): Option<IssueError> {
    if g.id in grants then Some(IdExists)
    else if CredentialTaken(grants, g.credential) then Some(CredentialRegistered)
    else if g.scopes == [] then Some(NoScope)
    else if g.zones == [] then Some(NoZone)
    else if ZoneError(file, g.zones).Some? then ZoneError(file, g.zones)
    else TimeError(g, now)
  }

  /** What the checks let through is bound to the housefile, but for one thing: they do
      not ask for a credential, which the authority's own binding check does. */
  lemma CheckedIsBound(file: Housefile, grants: map<string, Grant>, g: Grant, now: int)
    requires IssueCheck(file, grants, g, now).None?
    ensures Bound(file, g) <==> g.credential != ""
    ensures g.credential != "" ==> forall id :: id in grants ==> grants[id].credential != g.credential
  {
  }

  /** A window that can be read is standing or a proper interval. */
  predicate ReadableWindow(w: Window) {
    w.Standing? || (w.Interval? && w.start < w.end)
  }

  /** What the checks ask, all of it: the grant is new, its scopes and zones are named and
      grantable, and its times can be read and leave something to use. */
  lemma CheckedExactly(file: Housefile, grants: map<string, Grant>, g: Grant, now: int)
    ensures IssueCheck(file, grants, g, now).None? <==>
            && g.id !in grants
            && (g.credential == "" || forall id :: id in grants ==> grants[id].credential != g.credential)
            && g.scopes != [] && g.zones != []
            && (forall i :: 0 <= i < |g.zones| ==>
                  FirstZone(file.zones, g.zones[i]).Some? && FirstZone(file.zones, g.zones[i]).value.access != NoGo)
            && !g.expires.UnreadableExpiry? && ReadableWindow(g.window)
            && (g.expires.At? ==> now < g.expires.t) && (g.window.Interval? ==> now < g.window.end)
            && (g.expires.At? && g.window.Interval? ==> g.window.start < g.expires.t)
  {
  }

  /** A refusal names something that is really wrong, and with the zone it is wrong with. */
  lemma RefusalMeans(file: Housefile, grants: map<string, Grant>, g: Grant, now: int, error: IssueError)
    requires IssueCheck(file, grants, g, now) == Some(error)
    ensures match error
            case IdExists => g.id in grants
            case CredentialRegistered => exists id :: id in grants && grants[id].credential == g.credential
            case NoScope => g.scopes == []
            case NoZone => g.zones == []
            case UnknownZone(id) => id in g.zones && FirstZone(file.zones, id).None?
            case UngrantableZone(id) =>
              id in g.zones && FirstZone(file.zones, id).Some? && FirstZone(file.zones, id).value.access == NoGo
            case BadExpiry => g.expires.UnreadableExpiry?
            case ExpiryNotFuture => g.expires.At? && g.expires.t <= now
            case BadWindow => !ReadableWindow(g.window)
            case WindowNotFuture => g.window.Interval? && g.window.end <= now
            case ExpiresBeforeWindow => g.window.Interval? && g.expires.At? && g.expires.t <= g.window.start
  {
    ZoneErrorNames(file, g.zones);
  }

  lemma {:induction false} ZoneErrorNames(file: Housefile, zones: seq<string>)
    ensures match ZoneError(file, zones)
            case Some(UnknownZone(id)) => id in zones && FirstZone(file.zones, id).None?
            case Some(UngrantableZone(id)) =>
              id in zones && FirstZone(file.zones, id).Some? && FirstZone(file.zones, id).value.access == NoGo
            case Some(_) => false
            case None => true
  {
    if zones != [] { ZoneErrorNames(file, zones[1..]); }
  }

  // ---------------------------------------------------------------- time

  /** First allowed instant, if there is one. */
  function Opens(g: Grant): Option<int> {
    if g.window.Interval? then Some(g.window.start) else None
  }

  /** First instant at which the grant is due, if there is one. */
  function Closes(g: Grant): Option<int> {
    if g.window.Interval? && g.expires.At? then
      Some(if g.expires.t < g.window.end then g.expires.t else g.window.end)
    else if g.window.Interval? then Some(g.window.end)
    else if g.expires.At? then Some(g.expires.t)
    else None
  }

  predicate Within(g: Grant, t: int) {
    (Opens(g).Some? ==> Opens(g).value <= t) && (Closes(g).Some? ==> t < Closes(g).value)
  }

  /** A use is allowed exactly for an active grant with readable times, within them; every
      other grant is refused at every instant, loaded or issued. */
  lemma AllowedExactly(g: Grant, now: int)
    ensures Decide(g, now).allowed <==>
            g.status == Active && !g.expires.UnreadableExpiry? && ReadableWindow(g.window) && Within(g, now)
    ensures Due(g, now) ==> g.status == Active && Closes(g).Some? && Closes(g).value <= now
    ensures Decide(g, now).next.Some? ==> Due(g, now) && !Decide(g, now).allowed
  {
  }

  /** And a refusal says why: the status first, then the expiry, then the window. */
  lemma ReasonMeans(g: Grant, now: int)
    ensures match Decide(g, now).reason
            case GrantInactive(s) => s == g.status && g.status != Active
            case GrantInvalidExpiry => g.status == Active && g.expires.UnreadableExpiry?
            case GrantExpired => Due(g, now)
            case GrantInvalidWindow => g.status == Active && !ReadableWindow(g.window)
            case GrantOutsideWindow => g.status == Active && g.window.Interval? && now < g.window.start
            case GrantActive => Decide(g, now).allowed
    ensures Decide(g, now).next == if Decide(g, now).reason.GrantExpired? then Some(Expired) else None
  {
  }

  /** An issued grant left active is usable in one half-open interval, due from its end
      on, and really usable at some instant no earlier than its issue. */
  lemma IssuedInterval(g: Grant, now: int)
    requires g.status == Active && TimeError(g, now).None?
    ensures forall t :: Decide(g, t).allowed <==> Within(g, t)
    ensures forall t :: Due(g, t) <==> Closes(g).Some? && Closes(g).value <= t
    ensures exists t :: now <= t && Decide(g, t).allowed
  {
    var first := if Opens(g).Some? && Opens(g).value > now then Opens(g).value else now;
    assert Decide(g, first).allowed;
  }

  /** A boundary once reached stays reached, for every grant, issued or only loaded. */
  lemma DueStays(g: Grant, t: int, u: int)
    requires Due(g, t) && t <= u
    ensures Due(g, u) && !Decide(g, u).allowed
  {
  }

  // ---------------------------------------------------------------- the manager

  class GrantManager {
    const file: Housefile
    var grants: map<string, Grant>

    constructor (file: Housefile)
      ensures this.file == file && grants == map[]
    {
      this.file := file;
      grants := map[];
    }

    method Issue(g: Grant, now: int) returns (error: Option<IssueError>)
      modifies this
      ensures error == IssueCheck(file, old(grants), g, now)
      ensures grants == if error.None? then old(grants)[g.id := g] else old(grants)
    {
      error := IssueCheck(file, grants, g, now);
      if error.None? { grants := grants[g.id := g]; }
    }
  }

  /** Every active grant suspended, every other one as it was. */
  function SuspendActive(grants: map<string, Grant>): (r: map<string, Grant>)
    ensures r.Keys == grants.Keys
  {
    map id | id in grants ::
      if grants[id].status == Active then grants[id].(status := Suspended) else grants[id]
  }

  predicate NoneActive(grants: map<string, Grant>) {
    forall id :: id in grants ==> grants[id].status != Active
  }
}
