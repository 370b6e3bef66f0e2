/** Deterministic rectangular geometry proposals: the builder, the strict parser, and
    why each undoes the other. */
module Geometry {
  import opened Bytes
  import opened Texts
  import opened Json
  import opened Entries
  import opened Outcomes
  import opened House

  const GEOMETRY_SCHEMA := "ths/geometry-proposal/0.1"
  const ALGORITHM := "ths/rectangular-strip-grid/0.1"
  const ZONE_CANDIDATE_ID := "zone-candidate-001"

  const MAX_ROOMS: nat := 64
  const MAX_NAME: nat := 80
  const MAX_GEOMETRY_BYTES: nat := 128 * 1024
  const GRID_COLUMNS: nat := 8
  const ROOM_WIDTH: nat := 400
  const ROOM_HEIGHT: nat := 300

  datatype RoomBinding = RoomBinding(zone: string, name: string, proposal: string, candidate: string)

  /** A validated room; its candidate id and its rectangle are fixed. */
  datatype Room = Room(order: nat, zone: string, name: string, proposal: string)

  datatype Artifact = Artifact(canonical: seq<byte>, digest: Digest, rooms: seq<Room>)

  datatype Failure =
    | InvalidRoomCount
    | InvalidZoneId
    | InvalidSuggestedName
    | InvalidProposalDigest
    | InvalidZoneCandidate
    | DuplicateZoneId
    | DuplicateProposalDigest
    | InvalidGeometryBytes
    | GeometryDigestMismatch
    | InvalidGeometryJson
    | InvalidGeometryDocument
    | InvalidGeometryRoom
    | InvalidGeometryBoundary
    | NoncanonicalGeometryJson

  // ---------------------------------------------------------------- validation

  predicate ValidName(s: string) {
    BoundedText(s, MAX_NAME) && Stripped(s)
  }

  predicate IsSlugChar(c: char) {
    'a' <= c <= 'z' || '0' <= c <= '9'
  }

  /** A letter, then letters and digits in runs separated by single hyphens. */
  predicate ValidZoneId(s: string) {
    && 1 <= |s| <= 64 && 'a' <= s[0] <= 'z' && s[|s| - 1] != '-'
    && (forall i :: 0 <= i < |s| ==> IsSlugChar(s[i]) || s[i] == '-')
    && forall i :: 0 < i < |s| && s[i] == '-' ==> s[i - 1] != '-'
  }

  /** The same as a machine that reads the letters one by one; `open` means that a run is
      still to begin. */
  predicate Runs(s: string, open: bool) {
    if s == [] then !open
    else if s[0] == '-' then !open && Runs(s[1..], true)
    else (97 <= s[0] as int <= 122 || 48 <= s[0] as int <= 57) && Runs(s[1..], false)
  }

  lemma ZoneIdRuns(s: string)
    ensures ValidZoneId(s) <==> 1 <= |s| <= 64 && 97 <= s[0] as int <= 122 && Runs(s[1..], false)
  {
    if |s| >= 1 {
      RunsMeans(s[1..], false);
      var rest := s[1..];
      assert forall i :: 0 < i < |s| ==> s[i] == rest[i - 1];
      assert forall i :: 0 <= i < |rest| ==> rest[i] == s[i + 1];
    }
  }

  lemma {:induction false} RunsMeans(s: string, open: bool)
    ensures Runs(s, open) <==>
            && (forall i :: 0 <= i < |s| ==> IsSlugChar(s[i]) || s[i] == '-')
            && (forall i :: 0 < i < |s| && s[i] == '-' ==> s[i - 1] != '-')
            && (if s == [] then !open else s[|s| - 1] != '-' && (open ==> s[0] != '-'))
  {
    if s != [] {
      var rest := s[1..];
      RunsMeans(rest, s[0] == '-');
      assert forall i :: 0 < i < |s| ==> s[i] == rest[i - 1];
      assert forall i :: 0 <= i < |rest| ==> rest[i] == s[i + 1];
    }
  }

  /** A name as people write it: short, printable, no space at either end. */
  lemma NameMeans(s: string)
    ensures ValidName(s) <==>
            && 1 <= |s| <= 80 && s[0] != ' ' && s[|s| - 1] != ' '
            && forall i :: 0 <= i < |s| ==> 32 <= s[i] as int < 127 || 160 <= s[i] as int
  {
  }

  function BoundaryOf(order: nat): Boundary {
    Boundary(order % GRID_COLUMNS * ROOM_WIDTH, order / GRID_COLUMNS * ROOM_HEIGHT, ROOM_WIDTH, ROOM_HEIGHT)
  }

  function BindingError(b: RoomBinding): Option<Failure> {
    if !ValidZoneId(b.zone) then Some(InvalidZoneId)
    else if !ValidName(b.name) then Some(InvalidSuggestedName)
    else if !IsHexDigest(b.proposal) then Some(InvalidProposalDigest)
    else if b.candidate != ZONE_CANDIDATE_ID then Some(InvalidZoneCandidate)
    else None
  }

  function FirstError(bindings: seq<RoomBinding>): (e: Option<Failure>)
    ensures e.None? <==> forall i :: 0 <= i < |bindings| ==> BindingError(bindings[i]).None?
  {
    if bindings == [] then None
    else if BindingError(bindings[0]).Some? then BindingError(bindings[0])
    else
      assert forall i :: 0 < i < |bindings| ==> bindings[i] == bindings[1..][i - 1];
      FirstError(bindings[1..])
  }

  predicate RoomOk(r: Room, order: nat) {
    r.order == order && ValidZoneId(r.zone) && ValidName(r.name) && IsHexDigest(r.proposal)
  }

  /** The rooms of every artifact there is. */
  predicate RoomsOk(rooms: seq<Room>) {
    && 1 <= |rooms| <= MAX_ROOMS
    && (forall i :: 0 <= i < |rooms| ==> RoomOk(rooms[i], i))
    && (forall i, j :: 0 <= i < j < |rooms| ==> rooms[i].zone != rooms[j].zone)
    && (forall i, j :: 0 <= i < j < |rooms| ==> rooms[i].proposal != rooms[j].proposal)
  }

  // ---------------------------------------------------------------- the document

  function BoundaryJson(b: Boundary): Json
    requires b.x >= 0 && b.y >= 0 && b.w >= 0 && b.h >= 0
  {
    Arr([Num(b.x), Num(b.y), Num(b.w), Num(b.h)])
  }

  function RoomJson(r: Room): Json {
    Obj([Field("boundary", BoundaryJson(BoundaryOf(r.order))),
         Field("order", Num(r.order)),
         Field("proposal_sha256", Str(r.proposal)),
         Field("suggested_name", Str(r.name)),
         Field("zone_candidate_id", Str(ZONE_CANDIDATE_ID)),
         Field("zone_id", Str(r.zone))])
  }

  function RoomJsons(rooms: seq<Room>): (js: seq<Json>)
    ensures |js| == |rooms| && forall i :: 0 <= i < |rooms| ==> js[i] == RoomJson(rooms[i])
  {
    seq(|rooms|, i requires 0 <= i < |rooms| => RoomJson(rooms[i]))
  }

  function DocumentOf(rooms: seq<Room>): Json {
    Obj([Field("algorithm", Str(ALGORITHM)),
         Field("canonical_housefile_written", Flag(false)),
         Field("rooms", Arr(RoomJsons(rooms))),
         Field("schema", Str(GEOMETRY_SCHEMA))])
  }

  /** `_artifact`. */
  function ArtifactOf(rooms: seq<Room>): Artifact {
    var bytes := CanonicalLine(DocumentOf(rooms));
    Artifact(bytes, Sha256(bytes), rooms)
  }

  function RoomsOf(bindings: seq<RoomBinding>): (rooms: seq<Room>)
    ensures |rooms| == |bindings|
    ensures forall i :: 0 <= i < |bindings| ==>
              rooms[i] == Room(i, bindings[i].zone, bindings[i].name, bindings[i].proposal)
  {
    seq(|bindings|, i requires 0 <= i < |bindings| => Room(i, bindings[i].zone, bindings[i].name, bindings[i].proposal))
  }

  /** `build_geometry`. */
  function BuildGeometry(bindings: seq<RoomBinding>): (r: Result<Artifact, Failure>)
    ensures r.Success? ==> RoomsOk(r.value.rooms) && r.value == ArtifactOf(r.value.rooms)
  {
    if !(1 <= |bindings| <= MAX_ROOMS) then Failed(InvalidRoomCount)
    else if FirstError(bindings).Some? then Failed(FirstError(bindings).value)
    else if exists i, j :: 0 <= i < j < |bindings| && bindings[i].zone == bindings[j].zone then Failed(DuplicateZoneId)
    else if exists i, j :: 0 <= i < j < |bindings| && bindings[i].proposal == bindings[j].proposal then
      Failed(DuplicateProposalDigest)
    else Success(ArtifactOf(RoomsOf(bindings)))
  }

  function BindingsOf(rooms: seq<Room>): (bs: seq<RoomBinding>)
    ensures |bs| == |rooms|
    ensures forall i :: 0 <= i < |rooms| ==>
              bs[i] == RoomBinding(rooms[i].zone, rooms[i].name, rooms[i].proposal, ZONE_CANDIDATE_ID)
  {
    seq(|rooms|, i requires 0 <= i < |rooms| =>
      RoomBinding(rooms[i].zone, rooms[i].name, rooms[i].proposal, ZONE_CANDIDATE_ID))
  }

  /** Valid rooms are exactly what the builder makes of some bindings. */
  lemma BuiltFromBindings(rooms: seq<Room>)
    requires RoomsOk(rooms)
    ensures BuildGeometry(BindingsOf(rooms)) == Success(ArtifactOf(rooms))
  {
    var bs := BindingsOf(rooms);
    assert forall i :: 0 <= i < |rooms| ==> RoomOk(rooms[i], i);
    assert RoomsOf(bs) == rooms;
  }

  // ---------------------------------------------------------------- the parser

  /** The first problem `_validate_document` meets in one room. */
  function RoomError(j: Json, order: nat): (e: Option<Failure>)
    ensures e.None? ==> exists r :: RoomOk(r, order) && j == RoomJson(r)
  {
    if !j.Obj? || !RoomShape(j.fields) then Some(InvalidGeometryRoom)
    else
      var f := j.fields;
      var room := Room(order, f[5].value.s, f[3].value.s, f[2].value.s);
      if !(f[1].value == Num(order) && RoomOk(room, order) && f[4].value == Str(ZONE_CANDIDATE_ID)) then
        Some(InvalidGeometryRoom)
      else if f[0].value != BoundaryJson(BoundaryOf(order)) then Some(InvalidGeometryBoundary)
      else
        assert j.fields == RoomJson(room).fields;
        None
  }

  /** Exactly the six keys, with strings where strings are read. */
  predicate RoomShape(f: seq<Field>) {
    && |f| == 6
    && f[0].key == "boundary" && f[1].key == "order" && f[2].key == "proposal_sha256"
    && f[3].key == "suggested_name" && f[4].key == "zone_candidate_id" && f[5].key == "zone_id"
    && f[2].value.Str? && f[3].value.Str? && f[5].value.Str?
  }

  lemma RoomErrorNone(r: Room, order: nat)
    ensures RoomError(RoomJson(r), order).None? <==> RoomOk(r, order)
  {
  }

  lemma RoomJsonInjective(a: Room, b: Room)
    requires RoomJson(a) == RoomJson(b)
    ensures a == b
  {
    var f, g := RoomJson(a).fields, RoomJson(b).fields;
    assert f[1] == g[1] && f[2] == g[2] && f[3] == g[3] && f[5] == g[5];
  }

  /** A parsed value is the document of these rooms. */
  predicate Documents(value: Json, rooms: seq<Room>) {
    RoomsOk(rooms) && value == DocumentOf(rooms)
  }

  predicate DocumentShape(value: Json) {
    && value.Obj? && |value.fields| == 4
    && value.fields[0] == Field("algorithm", Str(ALGORITHM))
    && value.fields[1] == Field("canonical_housefile_written", Flag(false))
    && value.fields[2].key == "rooms"
    && value.fields[3] == Field("schema", Str(GEOMETRY_SCHEMA))
  }

  /** `_validate_document`: a loop over the rooms with the ids and digests seen so far. */
  method ValidateDocument(value: Json) returns (r: Result<seq<Room>, Failure>)
    ensures r.Success? ==> Documents(value, r.value)
    ensures r.Failed? ==> forall rooms :: !Documents(value, rooms)
  {
    hide ValidName, ValidZoneId, BoundaryOf, RoomError, RoomOk, RoomJson, RoomsOk, Accepted, DocumentOf;
    if !DocumentShape(value) {
      NotADocument(value);
      return Failed(InvalidGeometryDocument);
    }
    var raw := value.fields[2].value;
    if !raw.Arr? || !(1 <= |raw.items| <= MAX_ROOMS) {
      NotRooms(value);
      return Failed(InvalidRoomCount);
    }
    var rooms: seq<Room> := [];
    var zones: set<string>, digests: set<string> := {}, {};
    NothingAccepted(raw.items);
    for order := 0 to |raw.items|
      invariant |rooms| == order && Accepted(rooms, raw.items)
      invariant zones == Zones(rooms) && digests == Proposals(rooms)
    {
      var error := RoomError(raw.items[order], order);
      if error.Some? {
        BadRoom(value, order);
        return Failed(error.value);
      }
      var room := ReadRoom(raw.items[order], order);
      if room.zone in zones || room.proposal in digests {
        RepeatedRoom(value, rooms, room);
        return Failed(if room.zone in zones then DuplicateZoneId else DuplicateProposalDigest);
      }
      AcceptOne(rooms, raw.items, room);
      SeenSnoc(rooms, room);
      zones, digests := zones + {room.zone}, digests + {room.proposal};
      rooms := rooms + [room];
    }
    AllAccepted(value, rooms);
    r := Success(rooms);
  }

  function Zones(rooms: seq<Room>): set<string> {
    set i | 0 <= i < |rooms| :: rooms[i].zone
  }

  function Proposals(rooms: seq<Room>): set<string> {
    set i | 0 <= i < |rooms| :: rooms[i].proposal
  }

  /** The rooms read so far: the first items, each valid and none repeated. */
  predicate Accepted(rooms: seq<Room>, items: seq<Json>) {
    && |rooms| <= |items| && RoomJsons(rooms) == items[..|rooms|]
    && (forall i :: 0 <= i < |rooms| ==> RoomOk(rooms[i], i))
    && (forall i, j :: 0 <= i < j < |rooms| ==> rooms[i].zone != rooms[j].zone)
    && (forall i, j :: 0 <= i < j < |rooms| ==> rooms[i].proposal != rooms[j].proposal)
  }

  lemma NothingAccepted(items: seq<Json>)
    ensures Accepted([], items) && Zones([]) == {} && Proposals([]) == {}
  {
  }

  lemma SeenSnoc(rooms: seq<Room>, room: Room)
    ensures Zones(rooms + [room]) == Zones(rooms) + {room.zone}
    ensures Proposals(rooms + [room]) == Proposals(rooms) + {room.proposal}
  {
    hide RoomOk, RoomJson;
    var more := rooms + [room];
    assert more[|rooms|] == room;
    assert forall i :: 0 <= i < |rooms| ==> more[i] == rooms[i];
    forall z | z in Zones(rooms) ensures z in Zones(more) {
      var i :| 0 <= i < |rooms| && rooms[i].zone == z;
      assert more[i].zone == z;
    }
    forall d | d in Proposals(rooms) ensures d in Proposals(more) {
      var i :| 0 <= i < |rooms| && rooms[i].proposal == d;
      assert more[i].proposal == d;
    }
  }

  lemma AcceptOne(rooms: seq<Room>, items: seq<Json>, room: Room)
    requires Accepted(rooms, items) && |rooms| < |items|
    requires RoomOk(room, |rooms|) && RoomJson(room) == items[|rooms|]
    requires room.zone !in Zones(rooms) && room.proposal !in Proposals(rooms)
    ensures Accepted(rooms + [room], items)
  {
    hide RoomOk, RoomJson;
    var more := rooms + [room];
    forall i | 0 <= i < |rooms|
      ensures more[i] == rooms[i] && rooms[i].zone != room.zone && rooms[i].proposal != room.proposal
    {
      assert rooms[i].zone in Zones(rooms) && rooms[i].proposal in Proposals(rooms);
    }
    assert more[|rooms|] == room;
    hide Zones, Proposals;
    assert RoomJsons(more) == RoomJsons(rooms) + [RoomJson(room)];
  }

  lemma AllAccepted(value: Json, rooms: seq<Room>)
    requires DocumentShape(value) && value.fields[2].value.Arr? && 1 <= |rooms| <= MAX_ROOMS
    requires Accepted(rooms, value.fields[2].value.items) && |rooms| == |value.fields[2].value.items|
    ensures Documents(value, rooms)
  {
    hide RoomOk, RoomJson;
    var items := value.fields[2].value.items;
    assert items[..|rooms|] == items;
    DocumentIs(value, rooms);
  }

  lemma NotADocument(value: Json)
    requires !DocumentShape(value)
    ensures forall rooms :: !Documents(value, rooms)
  {
  }

  lemma NotRooms(value: Json)
    requires DocumentShape(value)
    requires !value.fields[2].value.Arr? || !(1 <= |value.fields[2].value.items| <= MAX_ROOMS)
    ensures forall rooms :: !Documents(value, rooms)
  {
    hide RoomOk, RoomJson;
    forall rooms | Documents(value, rooms) ensures false { RoomsAre(value, rooms); }
  }

  /** The room an accepted object stands for. */
  function ReadRoom(j: Json, order: nat): (r: Room)
    requires RoomError(j, order).None?
    ensures RoomOk(r, order) && RoomJson(r) == j
  {
    var r := Room(order, j.fields[5].value.s, j.fields[3].value.s, j.fields[2].value.s);
    assert j.fields == RoomJson(r).fields;
    r
  }

  lemma DocumentIs(value: Json, rooms: seq<Room>)
    requires DocumentShape(value) && value.fields[2].value == Arr(RoomJsons(rooms))
    ensures value == DocumentOf(rooms)
  {
    assert value.fields == DocumentOf(rooms).fields;
  }

  lemma RoomsAre(value: Json, rooms: seq<Room>)
    requires value == DocumentOf(rooms)
    ensures DocumentShape(value) && value.fields[2].value == Arr(RoomJsons(rooms))
  {
  }

  lemma BadRoom(value: Json, order: nat)
    requires DocumentShape(value) && value.fields[2].value.Arr? && order < |value.fields[2].value.items|
    requires RoomError(value.fields[2].value.items[order], order).Some?
    ensures forall rooms :: !Documents(value, rooms)
  {
    hide RoomError, RoomOk;
    forall rooms | Documents(value, rooms) ensures false {
      RoomsAre(value, rooms);
      RoomErrorNone(rooms[order], order);
    }
  }

  lemma RepeatedRoom(value: Json, seen: seq<Room>, room: Room)
    requires DocumentShape(value) && value.fields[2].value.Arr? && |seen| < |value.fields[2].value.items|
    requires Accepted(seen, value.fields[2].value.items)
    requires RoomJson(room) == value.fields[2].value.items[|seen|]
    requires room.zone in Zones(seen) || room.proposal in Proposals(seen)
    ensures forall rooms :: !Documents(value, rooms)
  {
    hide RoomOk, RoomJson;
    var k :| 0 <= k < |seen| && (seen[k].zone == room.zone || seen[k].proposal == room.proposal);
    var items := value.fields[2].value.items;
    forall rooms | Documents(value, rooms) ensures false {
      RoomsAre(value, rooms);
      assert items[k] == RoomJson(rooms[k]) == items[..|seen|][k] == RoomJson(seen[k]);
      RoomJsonInjective(rooms[k], seen[k]);
      RoomJsonInjective(rooms[|seen|], room);
    }
  }

  /** A JSON reader that at least reads back the documents the encoder writes. */
  ghost predicate ReadsDocuments(loads: seq<byte> -> Option<Json>) {
    forall rooms :: loads(CanonicalLine(DocumentOf(rooms))) == Some(DocumentOf(rooms))
  }

  /** Some bindings build exactly this artifact. */
  ghost predicate Buildable(a: Artifact) {
    exists bindings :: BuildGeometry(bindings) == Success(a)
  }

  /** `parse_geometry` accepts exactly what `build_geometry` makes, under its own digest,
      and gives the same artifact back. */
  method ParseGeometry(data: seq<byte>, expected: Digest, loads: seq<byte> -> Option<Json>) returns (r: Result<Artifact, Failure>)
    ensures r.Success? ==> Buildable(r.value) && r.value.canonical == data && r.value.digest == expected
    ensures ReadsDocuments(loads) && r.Failed? ==>
              forall a :: Buildable(a) ==> !(a.canonical == data && a.digest == expected)
  {
    hide DocumentOf, RoomsOk, BuildGeometry, Bound;
    if !(1 <= |data| <= MAX_GEOMETRY_BYTES) {
      forall a | Buildable(a) ensures a.canonical != data { BuildableFits(a); }
      return Failed(InvalidGeometryBytes);
    }
    if Sha256(data) != expected {
      forall a | Buildable(a) ensures a.digest == Sha256(a.canonical) { BuildableIs(a); }
      return Failed(GeometryDigestMismatch);
    }
    var value := loads(data);
    if value.None? {
      forall a | Buildable(a) ensures a.canonical == CanonicalLine(DocumentOf(a.rooms)) { BuildableIs(a); }
      return Failed(InvalidGeometryJson);
    }
    var rooms := ValidateDocument(value.value);
    if rooms.Failed? {
      forall a | Buildable(a)
        ensures a.canonical == CanonicalLine(DocumentOf(a.rooms)) && Documents(DocumentOf(a.rooms), a.rooms)
      {
        BuildableIs(a);
      }
      return Failed(rooms.error);
    }
    var artifact := ArtifactOf(rooms.value);
    if artifact.canonical != data {
      forall a | Buildable(a) ensures a.canonical == CanonicalLine(DocumentOf(a.rooms)) { BuildableIs(a); }
      return Failed(NoncanonicalGeometryJson);
    }
    BuiltFromBindings(rooms.value);
    r := Success(artifact);
  }

  lemma BuildableIs(a: Artifact)
    requires Buildable(a)
    ensures RoomsOk(a.rooms) && a == ArtifactOf(a.rooms)
  {
    var bindings :| BuildGeometry(bindings) == Success(a);
  }

  /** The canonical bytes alone fix the rooms. */
  lemma ArtifactInjective(a: Artifact, b: Artifact)
    requires Buildable(a) && Buildable(b) && a.canonical == b.canonical
    ensures a == b
  {
    BuildableIs(a);
    BuildableIs(b);
    CanonicalLineInjective(DocumentOf(a.rooms), DocumentOf(b.rooms));
    RoomsAre(DocumentOf(a.rooms), a.rooms);
    RoomsAre(DocumentOf(b.rooms), b.rooms);
    hide RoomJson, DocumentOf, RoomsOk, Buildable;
    forall i | 0 <= i < |a.rooms| ensures a.rooms[i] == b.rooms[i] {
      assert RoomJsons(a.rooms)[i] == RoomJsons(b.rooms)[i];
      RoomJsonInjective(a.rooms[i], b.rooms[i]);
    }
  }

  // ---------------------------------------------------------------- size

  lemma SmallDigits(n: nat)
    requires n < 10000
    ensures |Digits(n)| <= 4
  {
    if n >= 10 { assert |Digits(n)| == |Digits(n / 10)| + 1; }
    if n >= 100 { assert |Digits(n / 10)| == |Digits(n / 100)| + 1; }
    if n >= 1000 { assert |Digits(n / 100)| == |Digits(n / 1000)| + 1; }
  }

  lemma BoundaryBound(order: nat)
    requires order < MAX_ROOMS
    ensures Bound(BoundaryJson(BoundaryOf(order))) <= 22
  {
    var b := BoundaryOf(order);
    assert order / GRID_COLUMNS < 8;
    SmallDigits(b.x);
    SmallDigits(b.y);
    SmallDigits(b.w);
    SmallDigits(b.h);
    hide BoundaryOf, Digits;
    var items := [Num(b.x), Num(b.y), Num(b.w), Num(b.h)];
    assert items[1..] == [Num(b.y), Num(b.w), Num(b.h)];
    assert items[1..][1..] == [Num(b.w), Num(b.h)];
    assert items[1..][1..][1..] == [Num(b.h)];
    assert items[1..][1..][1..][1..] == [];
    ItemsBoundCons(items);
    ItemsBoundCons(items[1..]);
    ItemsBoundCons(items[1..][1..]);
    ItemsBoundCons(items[1..][1..][1..]);
  }

  lemma RoomBound(r: Room)
    requires r.order < MAX_ROOMS && |r.zone| <= 64 && |r.name| <= 80 && |r.proposal| <= 64
    ensures Bound(RoomJson(r)) <= 1820
  {
    BoundaryBound(r.order);
    SmallDigits(r.order);
    var f := RoomJson(r).fields;
    hide BoundaryJson, BoundaryOf, Digits;
    MembersBoundCons(f[5], []);
    MembersBoundCons(f[4], [f[5]]);
    MembersBoundCons(f[3], [f[4]] + [f[5]]);
    MembersBoundCons(f[2], [f[3]] + ([f[4]] + [f[5]]));
    MembersBoundCons(f[1], [f[2]] + ([f[3]] + ([f[4]] + [f[5]])));
    MembersBoundCons(f[0], [f[1]] + ([f[2]] + ([f[3]] + ([f[4]] + [f[5]]))));
    assert [f[5]] + [] == [f[5]];
    assert f == [f[0]] + ([f[1]] + ([f[2]] + ([f[3]] + ([f[4]] + [f[5]]))));
  }

  lemma {:induction false} RoomJsonsBound(items: seq<Json>)
    requires forall i :: 0 <= i < |items| ==> Bound(items[i]) <= 1820
    ensures ItemsBound(items) <= 1821 * |items|
  {
    if items != [] { RoomJsonsBound(items[1..]); }
  }

  /** Every artifact the builder can make is within the parser's limit. */
  lemma BuildableFits(a: Artifact)
    requires Buildable(a)
    ensures 1 <= |a.canonical| <= MAX_GEOMETRY_BYTES
  {
    BuildableIs(a);
    DocumentFits(a.rooms);
    CanonicalLineShape(DocumentOf(a.rooms));
  }

  lemma DocumentFits(rooms: seq<Room>)
    requires RoomsOk(rooms)
    ensures |CanonicalLine(DocumentOf(rooms))| <= MAX_GEOMETRY_BYTES
  {
    forall i | 0 <= i < |rooms| ensures Bound(RoomJsons(rooms)[i]) <= 1820 {
      assert RoomOk(rooms[i], i);
      RoomBound(rooms[i]);
    }
    RoomJsonsBound(RoomJsons(rooms));
    var f := DocumentOf(rooms).fields;
    CanonicalLineBound(DocumentOf(rooms));
    hide RoomJson, RoomOk, CanonicalLine, RoomsOk;
    MembersBoundCons(f[3], []);
    MembersBoundCons(f[2], [f[3]]);
    MembersBoundCons(f[1], [f[2]] + [f[3]]);
    MembersBoundCons(f[0], [f[1]] + ([f[2]] + [f[3]]));
    assert [f[3]] + [] == [f[3]];
    assert f == [f[0]] + ([f[1]] + ([f[2]] + [f[3]]));
  }

  // ---------------------------------------------------------------- layout

  predicate Disjoint(a: Boundary, b: Boundary) {
    a.x + a.w <= b.x || b.x + b.w <= a.x || a.y + a.h <= b.y || b.y + b.h <= a.y
  }

  /** The order a rectangle was assigned to. */
  function OrderOf(b: Boundary): int {
    b.y / ROOM_HEIGHT * GRID_COLUMNS + b.x / ROOM_WIDTH
  }

  /** The grid position is a number in base eight, so the rectangle gives the order back. */
  lemma OrderRecovered(order: nat)
    ensures OrderOf(BoundaryOf(order)) == order
  {
    assert order % GRID_COLUMNS * ROOM_WIDTH / ROOM_WIDTH == order % GRID_COLUMNS;
    assert order / GRID_COLUMNS * ROOM_HEIGHT / ROOM_HEIGHT == order / GRID_COLUMNS;
  }

  lemma CellsApart(a: nat, b: nat, size: nat)
    requires a < b
    ensures a * size + size <= b * size
  {
    assert b * size == (b - a - 1) * size + (a + 1) * size;
  }

  /** No two rooms overlap. */
  lemma RectanglesDisjoint(i: nat, j: nat)
    requires i != j
    ensures Disjoint(BoundaryOf(i), BoundaryOf(j))
  {
    var a, b := i % GRID_COLUMNS, j % GRID_COLUMNS;
    var c, d := i / GRID_COLUMNS, j / GRID_COLUMNS;
    if a < b { CellsApart(a, b, ROOM_WIDTH); }
    if b < a { CellsApart(b, a, ROOM_WIDTH); }
    if c < d { CellsApart(c, d, ROOM_HEIGHT); }
    if d < c { CellsApart(d, c, ROOM_HEIGHT); }
  }
}
