/** Housefile materialization: an owner review and a geometry proposal become the next
    revision of the stored document, by compare-and-swap under the store's lock. */
module Materialization {
  import opened Bytes
  import opened Texts
  import opened Outcomes
  import opened Json
  import opened Entries
  import opened House
  import opened Revisions
  import G = Geometry
  import S = HousefileStores

  const REVIEW_SCHEMA := "ths/materialization-review/0.1"
  const MAX_ZONES: nat := 64

  datatype Failure =
    | InvalidReviewPayload
    | StaleGeometryDigest
    | InvalidGeometry
    | ReviewChoiceCoverageMismatch
    | ReviewChoiceBindingMismatch
    | InvalidHousefileJson
    | InvalidHousefileSchema
    | SyntheticFixtureRequired
    | DuplicateHousefileIdentifier
    | InvalidHousefileReferences
    | StaleHousefileRevision
    | InvalidHousefileRevision
    | HousefileRevisionExhausted
    | StoreFailed(failure: S.StoreFailure)

  datatype ReviewedZone = ReviewedZone(order: int, zone: string, proposal: string, name: string, access: Access, outdoor: bool)

  /** A payload with the right keys and types; any other is rejected the same way. */
  datatype Review = Review(schema: string, ownerReviewed: bool, synthetic: bool, geometry: Digest, revision: string,
                           zones: seq<ReviewedZone>)

  datatype CanonicalZone = CanonicalZone(id: string, name: string, access: Access, boundary: Boundary, outdoor: bool)

  datatype ProvenanceZone = ProvenanceZone(order: int, zone: string, proposal: string)

  datatype Provenance = Provenance(geometry: Digest, zones: seq<ProvenanceZone>)

  datatype Item = Item(id: string, zone: string, rest: string)

  /** A stored document; `rest` is everything materialization leaves alone. */
  datatype Document = Document(rev: string, zones: seq<CanonicalZone>, systems: seq<Item>, inventory: seq<Item>,
                               quirks: seq<Item>, materialization: Option<Provenance>, rest: string)

  datatype Receipt = Receipt(previous: string, next: string, geometry: Digest, zoneCount: nat)

  // ---------------------------------------------------------------- the review

  predicate IsZoneChar(c: char) {
    'a' <= c <= 'z' || '0' <= c <= '9' || c in "._-"
  }

  predicate IsReviewZoneId(s: string) {
    1 <= |s| <= 80 && s[0] !in "._-" && forall i :: 0 <= i < |s| ==> IsZoneChar(s[i])
  }

  predicate ChoiceOk(z: ReviewedZone, order: nat) {
    && z.order == order && IsReviewZoneId(z.zone) && IsHexDigest(z.proposal)
    && BoundedText(z.name, 80) && Stripped(z.name)
  }

  function ChoiceZones(zones: seq<ReviewedZone>): (ids: seq<string>)
    ensures |ids| == |zones| && forall i :: 0 <= i < |zones| ==> ids[i] == zones[i].zone
  {
    seq(|zones|, i requires 0 <= i < |zones| => zones[i].zone)
  }

  function ChoiceProposals(zones: seq<ReviewedZone>): (ids: seq<string>)
    ensures |ids| == |zones| && forall i :: 0 <= i < |zones| ==> ids[i] == zones[i].proposal
  {
    seq(|zones|, i requires 0 <= i < |zones| => zones[i].proposal)
  }

  predicate LowerOrDigit(c: char) {
    48 <= c as int <= 57 || 97 <= c as int <= 122
  }

  /** A reviewed zone that is accepted, character by character. */
  lemma ChoiceMeans(z: ReviewedZone, order: nat)
    ensures ChoiceOk(z, order) <==>
            && z.order == order
            && 1 <= |z.zone| <= 80 && LowerOrDigit(z.zone[0])
            && (forall i :: 0 <= i < |z.zone| ==> LowerOrDigit(z.zone[i]) || z.zone[i] in {'.', '_', '-'})
            && |z.proposal| == 64
            && (forall i :: 0 <= i < 64 ==> 48 <= z.proposal[i] as int <= 57 || 97 <= z.proposal[i] as int <= 102)
            && 1 <= |z.name| <= 80 && z.name[0] != ' ' && z.name[|z.name| - 1] != ' '
            && forall i :: 0 <= i < |z.name| ==> 32 <= z.name[i] as int < 127 || 160 <= z.name[i] as int
    ensures ChoiceOk(z, order) <==>
            && z.order == order && IsReviewZoneId(z.zone) && IsHexDigest(z.proposal)
            && 1 <= |z.name| <= 80 && Stripped(z.name) && Printable(z.name)
  {
  }

  /** What `_review` accepts. */
  predicate ReviewOk(r: Review) {
    && r.schema == REVIEW_SCHEMA && r.ownerReviewed && r.synthetic && IsRevision(r.revision)
    && 1 <= |r.zones| <= MAX_ZONES
    && (forall i :: 0 <= i < |r.zones| ==> ChoiceOk(r.zones[i], i))
    && Distinct(ChoiceZones(r.zones)) && Distinct(ChoiceProposals(r.zones))
  }

  /** `_review`: one pass with the zone ids and proposal digests seen so far. */
  method CheckReview(r: Review) returns (ok: bool)
    ensures ok <==> ReviewOk(r)
  {
    hide ChoiceOk, IsRevision, Distinct;
    if r.schema != REVIEW_SCHEMA || !r.ownerReviewed || !r.synthetic || !IsRevision(r.revision) ||
       !(1 <= |r.zones| <= MAX_ZONES)
    {
      return false;
    }
    ghost var ids, digests := ChoiceZones(r.zones), ChoiceProposals(r.zones);
    var zones: set<string>, proposals: set<string> := {}, {};
    NothingRepeats();
    for order := 0 to |r.zones|
      invariant forall i :: 0 <= i < order ==> ChoiceOk(r.zones[i], i)
      invariant zones == (set z | z in ids[..order]) && Distinct(ids[..order])
      invariant proposals == (set d | d in digests[..order]) && Distinct(digests[..order])
    {
      var z := r.zones[order];
      DistinctSnoc(ids, order);
      DistinctSnoc(digests, order);
      ChoiceMeans(z, order);
      if z.order != order || !IsReviewZoneId(z.zone) || z.zone in zones || !IsHexDigest(z.proposal) ||
         z.proposal in proposals || !(1 <= |z.name| <= 80) || !Stripped(z.name) || !Printable(z.name)
      {
        return false;
      }
      assert ids[..order + 1] == ids[..order] + [z.zone];
      assert digests[..order + 1] == digests[..order] + [z.proposal];
      zones, proposals := zones + {z.zone}, proposals + {z.proposal};
    }
    assert ids[..|ids|] == ids && digests[..|digests|] == digests;
    ok := true;
  }

  lemma NothingRepeats()
    ensures Distinct<string>([])
  {
  }

  // ---------------------------------------------------------------- document semantics

  function ZoneIds(zones: seq<CanonicalZone>): (ids: seq<string>)
    ensures |ids| == |zones| && forall i :: 0 <= i < |zones| ==> ids[i] == zones[i].id
  {
    seq(|zones|, i requires 0 <= i < |zones| => zones[i].id)
  }

  function ItemIds(items: seq<Item>): (ids: seq<string>)
    ensures |ids| == |items| && forall i :: 0 <= i < |items| ==> ids[i] == items[i].id
  {
    seq(|items|, i requires 0 <= i < |items| => items[i].id)
  }

  predicate RefersTo(items: seq<Item>, zones: seq<string>) {
    forall i :: 0 <= i < |items| ==> items[i].zone in zones
  }

  /** Unique ids in every collection, and every item in a listed zone. */
  predicate Coherent(d: Document) {
    && Distinct(ZoneIds(d.zones))
    && Distinct(ItemIds(d.systems)) && Distinct(ItemIds(d.inventory)) && Distinct(ItemIds(d.quirks))
    && RefersTo(d.systems, ZoneIds(d.zones)) && RefersTo(d.inventory, ZoneIds(d.zones))
    && RefersTo(d.quirks, ZoneIds(d.zones))
  }

  method CheckItems(items: seq<Item>, ids: set<string>, ghost zones: seq<string>) returns (failure: Option<Failure>)
    requires ids == set z | z in zones
    ensures failure.None? <==> Distinct(ItemIds(items)) && RefersTo(items, zones)
    ensures failure == Some(InvalidHousefileReferences) ==> !RefersTo(items, zones)
    ensures failure == Some(DuplicateHousefileIdentifier) ==> !Distinct(ItemIds(items))
    ensures failure.Some? ==> failure.value.InvalidHousefileReferences? || failure.value.DuplicateHousefileIdentifier?
  {
    hide Distinct;
    ghost var all := ItemIds(items);
    var seen: set<string> := {};
    NothingRepeats();
    for n := 0 to |items|
      invariant seen == (set d | d in all[..n]) && Distinct(all[..n])
      invariant forall i :: 0 <= i < n ==> items[i].zone in ids
    {
      DistinctSnoc(all, n);
      if items[n].id in seen { return Some(DuplicateHousefileIdentifier); }
      assert all[..n + 1] == all[..n] + [items[n].id];
      seen := seen + {items[n].id};
      if items[n].zone !in ids { return Some(InvalidHousefileReferences); }
    }
    assert all[..|all|] == all;
    failure := None;
  }

  /** `_check_document_semantics`. */
  method CheckDocumentSemantics(d: Document) returns (failure: Option<Failure>)
    ensures failure.None? <==> Coherent(d)
    ensures failure.Some? ==> failure.value.InvalidHousefileReferences? || failure.value.DuplicateHousefileIdentifier?
  {
    hide Distinct, RefersTo;
    ghost var all := ZoneIds(d.zones);
    var ids: set<string> := {};
    NothingRepeats();
    for n := 0 to |d.zones|
      invariant ids == (set z | z in all[..n]) && Distinct(all[..n])
    {
      DistinctSnoc(all, n);
      if d.zones[n].id in ids { return Some(DuplicateHousefileIdentifier); }
      assert all[..n + 1] == all[..n] + [d.zones[n].id];
      ids := ids + {d.zones[n].id};
    }
    assert all[..|all|] == all;
    failure := CheckItems(d.systems, ids, all);
    if failure.Some? { return; }
    failure := CheckItems(d.inventory, ids, all);
    if failure.Some? { return; }
    failure := CheckItems(d.quirks, ids, all);
  }

  // ---------------------------------------------------------------- binding the review to the rooms

  predicate Bound(z: ReviewedZone, r: G.Room) {
    r.order == z.order && r.zone == z.zone && r.proposal == z.proposal
  }

  /** The zones to be stored: names, access and outdoor from the owner, boundaries from
      the geometry. */
  function ZonesOf(review: seq<ReviewedZone>, rooms: seq<G.Room>): (zones: seq<CanonicalZone>)
    requires |review| == |rooms|
    ensures |zones| == |review|
    ensures forall i :: 0 <= i < |review| ==>
              zones[i] == CanonicalZone(review[i].zone, review[i].name, review[i].access,
                                        G.BoundaryOf(rooms[i].order), review[i].outdoor)
  {
    seq(|review|, i requires 0 <= i < |review| =>
      CanonicalZone(review[i].zone, review[i].name, review[i].access, G.BoundaryOf(rooms[i].order), review[i].outdoor))
  }

  function ProvenanceOf(review: seq<ReviewedZone>): (zones: seq<ProvenanceZone>)
    ensures |zones| == |review|
    ensures forall i :: 0 <= i < |review| ==>
              zones[i] == ProvenanceZone(review[i].order, review[i].zone, review[i].proposal)
  {
    seq(|review|, i requires 0 <= i < |review| => ProvenanceZone(review[i].order, review[i].zone, review[i].proposal))
  }

  predicate AllBound(review: seq<ReviewedZone>, rooms: seq<G.Room>) {
    |review| == |rooms| && forall i :: 0 <= i < |review| ==> Bound(review[i], rooms[i])
  }

  method BindZones(review: seq<ReviewedZone>, rooms: seq<G.Room>)
    returns (bound: bool, zones: seq<CanonicalZone>, provenance: seq<ProvenanceZone>)
    requires |review| == |rooms|
    ensures bound <==> AllBound(review, rooms)
    ensures bound ==> zones == ZonesOf(review, rooms) && provenance == ProvenanceOf(review)
  {
    zones, provenance := [], [];
    for i := 0 to |review|
      invariant forall k :: 0 <= k < i ==> Bound(review[k], rooms[k])
      invariant zones == ZonesOf(review, rooms)[..i] && provenance == ProvenanceOf(review)[..i]
    {
      var z, r := review[i], rooms[i];
      if r.order != z.order || r.zone != z.zone || r.proposal != z.proposal { return false, [], []; }
      zones := zones + [CanonicalZone(z.zone, z.name, z.access, G.BoundaryOf(r.order), z.outdoor)];
      provenance := provenance + [ProvenanceZone(z.order, z.zone, z.proposal)];
    }
    bound := true;
  }

  // ---------------------------------------------------------------- compare and swap

  /** The document's encoding, its schema and the synthetic-fixture rule, as the code uses
      them; only that decoding reads back what encoding wrote is assumed. */
  datatype Codec = Codec(encode: Document -> seq<byte>, decode: seq<byte> -> Option<Document>,
                         schema: Document -> bool, synthetic: Document -> bool)

  ghost predicate ReadsBack(c: Codec) {
    forall d: Document :: c.decode(c.encode(d)) == Some(d)
  }

  function Updated(current: Document, next: string, review: Review, rooms: seq<G.Room>): Document
    requires |review.zones| == |rooms|
  {
    current.(rev := next, zones := ZonesOf(review.zones, rooms),
             materialization := Some(Provenance(review.geometry, ProvenanceOf(review.zones))))
  }

  /** What a stored document may and must become: the next revision, the reviewed zones
      with the rectangles of their rooms, the review on record, and all else as it was. */
  predicate Succeeds(before: Document, after: Document, review: Review, rooms: seq<G.Room>, next: string)
    requires |review.zones| == |rooms|
  {
    && after.rev == next
    && after.systems == before.systems && after.inventory == before.inventory && after.quirks == before.quirks
    && after.rest == before.rest
    && |after.zones| == |rooms|
    && (forall i :: 0 <= i < |rooms| ==>
          var zone, owner := after.zones[i], review.zones[i];
          && zone.id == owner.zone && zone.name == owner.name && zone.access == owner.access
          && zone.outdoor == owner.outdoor && zone.boundary == G.BoundaryOf(rooms[i].order))
    && after.materialization.Some? && after.materialization.value.geometry == review.geometry
    && |after.materialization.value.zones| == |rooms|
    && forall i :: 0 <= i < |rooms| ==>
         var record, owner := after.materialization.value.zones[i], review.zones[i];
         record.order == owner.order && record.zone == owner.zone && record.proposal == owner.proposal
  }

  lemma UpdatedSucceeds(current: Document, next: string, review: Review, rooms: seq<G.Room>)
    requires |review.zones| == |rooms|
    ensures Succeeds(current, Updated(current, next, review, rooms), review, rooms, next)
  {
  }

  /** Both copies are staged and the swap reports an error after taking effect. */
  predicate Late(f: S.Faults) {
    f.readable && S.StagesBoth(f) && f.swap.LateError?
  }

  /** Strictly later each time. */
  ghost predicate Increasing(revs: seq<string>) {
    && (forall i :: 0 <= i < |revs| ==> IsRevision(revs[i]))
    && forall i, j :: 0 <= i < j < |revs| ==> Value(revs[i]) < Value(revs[j])
  }

  class Materializer {
    const store: S.HousefileStore
    const codec: Codec
    const loads: seq<byte> -> Option<Json>
    /** Expected revisions of the calls that succeeded, in order. */
    ghost var consumed: seq<string>
    /** Revisions the file has held since the first change, in order. */
    ghost var stored: seq<string>

    ghost predicate Valid()
      reads this, store
    {
      && ReadsBack(codec) && G.ReadsDocuments(loads) && !store.locked
      && Increasing(consumed) && Increasing(stored)
      && (stored == [] ==> consumed == [])
      && (stored != [] ==>
            && codec.decode(store.live).Some? && codec.decode(store.live).value.rev == stored[|stored| - 1]
            && forall i :: 0 <= i < |consumed| ==> Value(consumed[i]) < Value(stored[|stored| - 1]))
    }

    constructor (bytes: seq<byte>, codec: Codec, loads: seq<byte> -> Option<Json>)
      requires ReadsBack(codec) && G.ReadsDocuments(loads)
      ensures Valid() && fresh(store) && store.live == bytes && consumed == [] && stored == []
      ensures this.codec == codec && this.loads == loads
    {
      store := new S.HousefileStore(bytes);
      this.codec, this.loads := codec, loads;
      consumed, stored := [], [];
    }

    /** Everything about a call that does not touch the stored file: the review, the
        geometry under its digest, and the pairing of the two. */
    method Accept(geometry: seq<byte>, review: Review) returns (r: Result<seq<G.Room>, Failure>)
      requires G.ReadsDocuments(loads)
      ensures r.Success? ==> Reviewed(geometry, review, r.value)
      ensures r.Failed? ==> forall rooms :: !Reviewed(geometry, review, rooms)
    {
      hide ReviewOk, G.Buildable, G.ReadsDocuments, AllBound;
      var ok := CheckReview(review);
      if !ok { return Failed(InvalidReviewPayload); }
      if !(1 <= |geometry| <= G.MAX_GEOMETRY_BYTES) {
        forall rooms ensures !Reviewed(geometry, review, rooms) { ReviewedFits(geometry, review, rooms); }
        return Failed(InvalidGeometry);
      }
      if Sha256(geometry) != review.geometry { return Failed(StaleGeometryDigest); }
      var parsed := G.ParseGeometry(geometry, review.geometry, loads);
      if parsed.Failed? { return Failed(InvalidGeometry); }
      var rooms := parsed.value.rooms;
      assert parsed.value == G.ArtifactOf(rooms) by { G.BuildableIs(parsed.value); }
      ReviewedOnce(geometry, review, rooms);
      if |rooms| != |review.zones| {
        assert !AllBound(review.zones, rooms) by { Unpaired(review.zones, rooms); }
        return Failed(ReviewChoiceCoverageMismatch);
      }
      var bound, zones, provenance := BindZones(review.zones, rooms);
      if !bound { return Failed(ReviewChoiceBindingMismatch); }
      r := Success(rooms);
    }

    /** What the swap still asks of the stored document. */
    predicate Swappable(current: Document, review: Review, rooms: seq<G.Room>, next: string) {
      && |review.zones| == |rooms|
      && codec.schema(current) && codec.synthetic(current) && Coherent(current) && current.rev == review.revision
      && var updated := Updated(current, next, review, rooms);
         && Coherent(updated) && codec.schema(updated)
         && 1 <= |codec.encode(updated)| <= S.MAX_HOUSEFILE_BYTES
    }

    /** A call that nothing in its inputs stands in the way of. */
    ghost predicate Applicable(before: seq<byte>, geometry: seq<byte>, review: Review) {
      exists rooms, next :: Reviewed(geometry, review, rooms) && Applies(before, review, rooms, next)
    }

    ghost predicate Applies(before: seq<byte>, review: Review, rooms: seq<G.Room>, next: string) {
      && codec.decode(before).Some? && Successor(codec.decode(before).value.rev, next)
      && Swappable(codec.decode(before).value, review, rooms, next)
    }

    /** The checks under the lock, in the code's order. */
    method Next(current: Document, review: Review, rooms: seq<G.Room>) returns (r: Result<string, Failure>)
      requires |review.zones| == |rooms|
      ensures r.Success? ==> Swappable(current, review, rooms, r.value) && Successor(current.rev, r.value)
      ensures r.Failed? ==> forall next :: Successor(current.rev, next) ==> !Swappable(current, review, rooms, next)
      ensures current.rev != review.revision ==> r.Failed?
    {
      hide Coherent, Updated, Value, Successor;
      if !IsRevision(current.rev) || current.rev == LAST { NoSuccessor(current.rev); }
      if !codec.schema(current) { return Failed(InvalidHousefileSchema); }
      if !codec.synthetic(current) { return Failed(SyntheticFixtureRequired); }
      var failure := CheckDocumentSemantics(current);
      if failure.Some? { return Failed(failure.value); }
      if current.rev != review.revision { return Failed(StaleHousefileRevision); }
      var next := Revisions.Next(current.rev);
      match next
      case InvalidRevision => return Failed(InvalidHousefileRevision);
      case RevisionExhausted => return Failed(HousefileRevisionExhausted);
      case NextRevision(revision) =>
        var updated := Updated(current, revision, review, rooms);
        IsSuccessor(current.rev, revision);
        failure := CheckDocumentSemantics(updated);
        if failure.Some? { return Failed(failure.value); }
        if !codec.schema(updated) { return Failed(InvalidHousefileSchema); }
        if !(1 <= |codec.encode(updated)| <= S.MAX_HOUSEFILE_BYTES) { return Failed(InvalidHousefileJson); }
        r := Success(revision);
    }

    /** `materialize_housefile`. Success means that the reviewed zones are the stored ones
        under the successor of exactly the revision the owner reviewed, with everything
        else kept. After any failure but a failed rollback the file is unchanged, unless an
        applicable call met a late error of the swap: then it already holds that update. */
    method Materialize(geometry: seq<byte>, review: Review, readable: bool, f: S.Faults) returns (r: Result<Receipt, Failure>)
      requires Valid()
      modifies this`consumed, this`stored, store
      ensures Valid()
      ensures r.Success? ==>
                && codec.decode(old(store.live)).Some? && codec.decode(old(store.live)).value.rev == review.revision
                && (exists rooms :: Reviewed(geometry, review, rooms) &&
                      Updates(old(store.live), store.live, review, rooms, r.value.next))
                && r.value == Receipt(review.revision, r.value.next, review.geometry, |review.zones|)
                && consumed == old(consumed) + [review.revision]
      ensures r.Failed? ==> consumed == old(consumed)
      ensures r.Failed? && r.error != StoreFailed(S.RollbackFailed) ==>
                (store.live == old(store.live) <==>
                  !(Applicable(old(store.live), geometry, review) && readable && Late(f)))
      ensures Applicable(old(store.live), geometry, review) && readable && Late(f) ==>
                r == Result.Failed(StoreFailed(S.CommitFailed))
      ensures store.live == old(store.live) ==> stored == old(stored)
      ensures store.live == old(store.live) ||
              exists rooms, next :: Reviewed(geometry, review, rooms) &&
                Updates(old(store.live), store.live, review, rooms, next)
      ensures readable && S.Flawless(f) && Applicable(old(store.live), geometry, review) ==> r.Success?
    {
      hide Coherent, Updated, Successor, Swappable, Increasing, ReadsBack, S.StagesBoth, Reviewed, IsRevision, Value;
      var accepted := Accept(geometry, review);
      if accepted.Failed? { return Failed(accepted.error); }
      var rooms := accepted.value;
      ReviewedFacts(geometry, review, rooms);
      var failure := store.Lock();
      var bytes := store.ReadLocked(readable);
      if bytes.None? {
        store.Unlock();
        return Failed(StoreFailed(S.HousefileUnavailable));
      }
      var current := codec.decode(bytes.value);
      if current.None? {
        store.Unlock();
        return Failed(InvalidHousefileJson);
      }
      var next := Next(current.value, review, rooms);
      if next.Failed? {
        store.Unlock();
        NotApplicable(bytes.value, geometry, review, rooms);
        return Failed(next.error);
      }
      var updated := Updated(current.value, next.value, review, rooms);
      var data := codec.encode(updated);
      SwappableFits(current.value, review, rooms, next.value);
      IsApplicable(bytes.value, geometry, review, rooms, next.value);
      failure := store.ReplaceExistingLocked(data, f);
      store.Unlock();
      UpdatedReads(bytes.value, geometry, review, rooms, next.value);
      if store.live == data {
        Record(current.value.rev, next.value, failure.None?);
      }
      if failure.Some? { return Failed(StoreFailed(failure.value)); }
      r := Success(Receipt(review.revision, next.value, review.geometry, |review.zones|));
    }

    /** The stored bytes changed from the reviewed document to its successor with the
        reviewed zones. */
    ghost predicate Updates(before: seq<byte>, after: seq<byte>, review: Review, rooms: seq<G.Room>, next: string) {
      && |review.zones| == |rooms|
      && codec.decode(before).Some? && codec.decode(before).value.rev == review.revision
      && Successor(review.revision, next)
      && codec.decode(after).Some? && Succeeds(codec.decode(before).value, codec.decode(after).value, review, rooms, next)
    }

    lemma SwappableFits(current: Document, review: Review, rooms: seq<G.Room>, next: string)
      requires Swappable(current, review, rooms, next)
      ensures |review.zones| == |rooms| && current.rev == review.revision
      ensures 1 <= |codec.encode(Updated(current, next, review, rooms))| <= S.MAX_HOUSEFILE_BYTES
    {
    }

    lemma NotApplicable(before: seq<byte>, geometry: seq<byte>, review: Review, rooms: seq<G.Room>)
      requires Reviewed(geometry, review, rooms) && codec.decode(before).Some?
      requires forall next :: Successor(codec.decode(before).value.rev, next) ==>
                 !Swappable(codec.decode(before).value, review, rooms, next)
      ensures !Applicable(before, geometry, review)
    {
      ReviewedOnce(geometry, review, rooms);
    }

    lemma IsApplicable(before: seq<byte>, geometry: seq<byte>, review: Review, rooms: seq<G.Room>, next: string)
      requires Reviewed(geometry, review, rooms) && codec.decode(before).Some?
      requires Successor(codec.decode(before).value.rev, next)
      requires Swappable(codec.decode(before).value, review, rooms, next)
      ensures Applicable(before, geometry, review)
    {
      hide Reviewed, Swappable;
      assert Applies(before, review, rooms, next);
    }

    lemma UpdatedReads(before: seq<byte>, geometry: seq<byte>, review: Review, rooms: seq<G.Room>, next: string)
      requires ReadsBack(codec) && codec.decode(before).Some? && |review.zones| == |rooms|
      requires codec.decode(before).value.rev == review.revision && Successor(review.revision, next)
      ensures var data := codec.encode(Updated(codec.decode(before).value, next, review, rooms));
              && Updates(before, data, review, rooms, next) && data != before
              && codec.decode(data).Some? && codec.decode(data).value.rev == next
    {
      SuccessorDiffers(review.revision, next);
      UpdatedSucceeds(codec.decode(before).value, next, review, rooms);
      hide Coherent, Succeeds;
    }

    /** Keeps the two histories when the file has moved on. */
    ghost method Record(before: string, next: string, success: bool)
      requires ReadsBack(codec) && G.ReadsDocuments(loads) && !store.locked
      requires Increasing(consumed) && Increasing(stored) && (stored == [] ==> consumed == [])
      requires Successor(before, next)
      requires stored != [] ==>
                 stored[|stored| - 1] == before && forall i :: 0 <= i < |consumed| ==> Value(consumed[i]) < Value(before)
      requires codec.decode(store.live).Some? && codec.decode(store.live).value.rev == next
      modifies this`consumed, this`stored
      ensures Valid() && stored == (if old(stored) == [] then [before, next] else old(stored) + [next])
      ensures consumed == if success then old(consumed) + [before] else old(consumed)
    {
      hide Value, IsRevision, ReadsBack;
      stored := if stored == [] then [before, next] else stored + [next];
      if success { consumed := consumed + [before]; }
    }

    /** No expected revision is ever consumed twice, and no stored revision recurs. */
    lemma NeverTwice(i: nat, j: nat)
      requires Valid() && i < j
      ensures j < |consumed| ==> consumed[i] != consumed[j]
      ensures j < |stored| ==> stored[i] != stored[j]
    {
    }
  }

  /** The review and the geometry bytes agree on these rooms. */
  ghost predicate Reviewed(geometry: seq<byte>, review: Review, rooms: seq<G.Room>) {
    && ReviewOk(review)
    && G.Buildable(G.ArtifactOf(rooms)) && G.ArtifactOf(rooms).canonical == geometry
    && G.ArtifactOf(rooms).digest == review.geometry
    && AllBound(review.zones, rooms)
  }

  lemma ReviewedFacts(geometry: seq<byte>, review: Review, rooms: seq<G.Room>)
    requires Reviewed(geometry, review, rooms)
    ensures |review.zones| == |rooms| && IsRevision(review.revision)
  {
  }

  lemma ReviewedFits(geometry: seq<byte>, review: Review, rooms: seq<G.Room>)
    ensures Reviewed(geometry, review, rooms) ==> 1 <= |geometry| <= G.MAX_GEOMETRY_BYTES
  {
    if Reviewed(geometry, review, rooms) { G.BuildableFits(G.ArtifactOf(rooms)); }
  }

  /** The geometry bytes leave one choice of rooms. */
  lemma ReviewedOnce(geometry: seq<byte>, review: Review, rooms: seq<G.Room>)
    requires G.Buildable(G.ArtifactOf(rooms)) && G.ArtifactOf(rooms).canonical == geometry
    ensures forall others :: Reviewed(geometry, review, others) ==> others == rooms
  {
    forall others | Reviewed(geometry, review, others) ensures others == rooms {
      G.ArtifactInjective(G.ArtifactOf(others), G.ArtifactOf(rooms));
    }
  }

  lemma Unpaired(review: seq<ReviewedZone>, rooms: seq<G.Room>)
    requires |review| != |rooms|
    ensures !AllBound(review, rooms)
  {
  }

  /** The next revision, if there is one. */
  predicate Successor(rev: string, next: string) {
    IsRevision(rev) && IsRevision(next) && Value(next) == Value(rev) + 1
  }

  lemma IsSuccessor(rev: string, next: string)
    requires IsRevision(rev) && IsRevision(next) && Value(next) == Value(rev) + 1
    ensures Successor(rev, next) && forall other :: Successor(rev, other) ==> other == next
  {
    forall other | Successor(rev, other) ensures other == next { ValueInjective(other, next); }
  }

  lemma NoSuccessor(rev: string)
    requires !IsRevision(rev) || rev == LAST
    ensures forall other :: !Successor(rev, other)
  {
    forall other | Successor(rev, other) ensures false { LastIsLargest(other); }
  }

  lemma SuccessorDiffers(rev: string, next: string)
    requires Successor(rev, next)
    ensures next != rev
  {
  }
}
