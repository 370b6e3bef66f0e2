/** The JPEG marker walk that finds the size of a frame (ITU-T T.81, sections B.1.1 and
    B.2.2), against a printer of the headers it must understand. */
module Jpeg {
  import opened Bytes
  import opened Outcomes

  const FF: byte := 0xFF
  const SOI: seq<byte> := [0xFF, 0xD8]
  const EOI: seq<byte> := [0xFF, 0xD9]

  datatype Size = Size(width: nat, height: nat)

  /** Markers that carry no length: stuffing, TEM, restarts, start and end of image. */
  predicate Standalone(marker: byte) {
    marker == 0x00 || marker == 0x01 || 0xD0 <= marker <= 0xD9
  }

  /** SOF0 to SOF15 without the three table markers DHT, JPG and DAC. */
  predicate StartOfFrame(marker: byte) {
    0xC0 <= marker <= 0xCF && marker != 0xC4 && marker != 0xC8 && marker != 0xCC
  }

  /** The markers of Table B.1, one by one. */
  lemma MarkersAre(marker: byte)
    ensures StartOfFrame(marker) <==>
            marker in {0xC0, 0xC1, 0xC2, 0xC3, 0xC5, 0xC6, 0xC7, 0xC9, 0xCA, 0xCB, 0xCD, 0xCE, 0xCF}
    ensures Standalone(marker) <==>
            marker in {0x00, 0x01, 0xD0, 0xD1, 0xD2, 0xD3, 0xD4, 0xD5, 0xD6, 0xD7, 0xD8, 0xD9}
  {
  }

  function Word(high: byte, low: byte): nat {
    high * 256 + low
  }

  function WordBytes(n: nat): (b: seq<byte>)
    requires n < 0x10000
    ensures |b| == 2 && Word(b[0], b[1]) == n
  {
    [n / 256, n % 256]
  }

  // ---------------------------------------------------------------- headers as values

  /** What may come before the frame header: bytes that are not 0xFF, fill bytes, and a
      marker, with its segment if it has one. */
  datatype Piece =
    | Bare(junk: seq<byte>, fill: nat, marker: byte)
    | Segment(junk: seq<byte>, fill: nat, marker: byte, payload: seq<byte>)

  datatype Frame = Frame(junk: seq<byte>, fill: nat, marker: byte, length: nat, precision: byte, height: nat, width: nat)

  predicate JunkOk(junk: seq<byte>) {
    forall i :: 0 <= i < |junk| ==> junk[i] != FF
  }

  predicate PieceOk(p: Piece) {
    && JunkOk(p.junk) && p.marker != FF
    && match p
       case Bare(_, _, marker) => Standalone(marker)
       case Segment(_, _, marker, payload) =>
         !Standalone(marker) && !StartOfFrame(marker) && |payload| + 2 < 0x10000
  }

  predicate FrameOk(f: Frame) {
    && JunkOk(f.junk) && StartOfFrame(f.marker)
    && 2 <= f.length < 0x10000 && f.height < 0x10000 && f.width < 0x10000
  }

  function Fill(n: nat): (b: seq<byte>)
    ensures |b| == n && forall i :: 0 <= i < n ==> b[i] == FF
  {
    seq(n, i => FF)
  }

  /** Junk, fill bytes, then the marker itself. */
  function MarkerBytes(junk: seq<byte>, fill: nat, marker: byte): seq<byte> {
    junk + Fill(fill + 1) + [marker]
  }

  function PieceBytes(p: Piece): seq<byte>
    requires PieceOk(p)
  {
    match p
    case Bare(junk, fill, marker) => MarkerBytes(junk, fill, marker)
    case Segment(junk, fill, marker, payload) =>
      MarkerBytes(junk, fill, marker) + WordBytes(|payload| + 2) + payload
  }

  function FrameBytes(f: Frame): seq<byte>
    requires FrameOk(f)
  {
    MarkerBytes(f.junk, f.fill, f.marker) + WordBytes(f.length) + [f.precision] + WordBytes(f.height) + WordBytes(f.width)
  }

  predicate PiecesOk(pieces: seq<Piece>) {
    forall i :: 0 <= i < |pieces| ==> PieceOk(pieces[i])
  }

  function PiecesBytes(pieces: seq<Piece>): seq<byte>
    requires PiecesOk(pieces)
  {
    if pieces == [] then [] else PieceBytes(pieces[0]) + PiecesBytes(pieces[1..])
  }

  // ---------------------------------------------------------------- the walk as a function

  /** The first byte at or after `from` that is not 0xFF, or the end. */
  function SkipFill(data: seq<byte>, from: nat): (i: nat)
    requires from <= |data|
    ensures from <= i <= |data|
    ensures forall k :: from <= k < i ==> data[k] == FF
    ensures i < |data| ==> data[i] != FF
    decreases |data| - from
  {
    if from < |data| && data[from] == FF then SkipFill(data, from + 1) else from
  }

  /** The first 0xFF at or after `from`, or the end. */
  function SkipJunk(data: seq<byte>, from: nat): (i: nat)
    requires from <= |data|
    ensures from <= i <= |data|
    ensures forall k :: from <= k < i ==> data[k] != FF
    ensures i < |data| ==> data[i] == FF
  {
    if Find(data, FF, from) == -1 then |data| else Find(data, FF, from)
  }

  /** Where the next marker code is, or the end. */
  function MarkerAt(data: seq<byte>, from: nat): (i: nat)
    requires from <= |data|
    ensures from <= i <= |data|
    ensures i < |data| ==> i > from
  {
    var p := SkipJunk(data, from);
    if p == |data| then p else SkipFill(data, p + 1)
  }

  function Walk(data: seq<byte>, at: nat): Option<Size>
    decreases |data| - at
  {
    if at >= |data| - 2 then None
    else
      var m := MarkerAt(data, at);
      if m == |data| then None
      else if Standalone(data[m]) then Walk(data, m + 1)
      else if m + 3 > |data| || Word(data[m + 1], data[m + 2]) < 2 then None
      else if !StartOfFrame(data[m]) then Walk(data, m + 1 + Word(data[m + 1], data[m + 2]))
      else if m + 8 > |data| then None
      else Some(Size(Word(data[m + 6], data[m + 7]), Word(data[m + 4], data[m + 5])))
  }

  function Dimensions(data: seq<byte>): Option<Size> {
    if |data| < 8 || data[..2] != SOI || data[|data| - 2..] != EOI then None else Walk(data, 2)
  }

  /** The two inner loops: skip to an 0xFF, then past every 0xFF. */
  method NextMarker(data: seq<byte>, from: nat) returns (at: nat)
    requires from <= |data|
    ensures at == MarkerAt(data, from)
  {
    at := from;
    while at < |data| && data[at] != FF
      invariant from <= at <= |data|
      invariant SkipJunk(data, at) == SkipJunk(data, from)
    {
      at := at + 1;
    }
    if at == |data| { return; }
    at := at + 1;
    ghost var filled := at;
    while at < |data| && data[at] == FF
      invariant filled <= at <= |data|
      invariant SkipFill(data, at) == SkipFill(data, filled)
    {
      at := at + 1;
    }
  }

  lemma WalkStep(data: seq<byte>, at: nat)
    requires at + 2 < |data|
    ensures var m := MarkerAt(data, at);
            && (m == |data| ==> Walk(data, at) == None)
            && (m < |data| && Standalone(data[m]) ==> Walk(data, at) == Walk(data, m + 1))
            && (m < |data| && !Standalone(data[m]) ==>
                  && (m + 3 > |data| ==> Walk(data, at) == None)
                  && (m + 3 <= |data| && Word(data[m + 1], data[m + 2]) < 2 ==> Walk(data, at) == None))
  {
  }

  lemma WalkSegment(data: seq<byte>, at: nat)
    requires at + 2 < |data|
    ensures var m := MarkerAt(data, at);
            m + 3 <= |data| && !Standalone(data[m]) && Word(data[m + 1], data[m + 2]) >= 2 ==>
              Walk(data, at) ==
              if !StartOfFrame(data[m]) then Walk(data, m + 1 + Word(data[m + 1], data[m + 2]))
              else if m + 8 > |data| then None
              else Some(Size(Word(data[m + 6], data[m + 7]), Word(data[m + 4], data[m + 5])))
  {
  }

  lemma MarkerFound(data: seq<byte>, at: nat)
    requires at <= |data|
    ensures at <= MarkerAt(data, at) <= |data|
  {
  }

  lemma WalkEnds(data: seq<byte>, at: nat)
    requires at + 2 >= |data|
    ensures Walk(data, at) == None
  {
  }

  // ---------------------------------------------------------------- the walk reads headers

  /** Junk, fill bytes and a marker put at `at` are what the scan finds there. */
  lemma FindsMarker(data: seq<byte>, at: nat, junk: seq<byte>, fill: nat, marker: byte)
    requires JunkOk(junk) && marker != FF
    requires at + |MarkerBytes(junk, fill, marker)| <= |data|
    requires data[at..at + |MarkerBytes(junk, fill, marker)|] == MarkerBytes(junk, fill, marker)
    ensures MarkerAt(data, at) == at + |junk| + fill + 1 && data[at + |junk| + fill + 1] == marker
  {
    var b := MarkerBytes(junk, fill, marker);
    forall k | 0 <= k < |b| ensures data[at + k] == b[k] {
      assert data[at..at + |b|][k] == data[at + k];
    }
    hide MarkerBytes;
    MarkerByte(junk, fill, marker);
    JunkSkipped(data, at, |junk|);
    FillSkipped(data, at + |junk| + 1, fill);
  }

  lemma MarkerByte(junk: seq<byte>, fill: nat, marker: byte)
    ensures var b := MarkerBytes(junk, fill, marker);
            && |b| == |junk| + fill + 2 && b[|junk| + fill + 1] == marker
            && (forall k :: 0 <= k < |junk| ==> b[k] == junk[k])
            && forall k :: |junk| <= k <= |junk| + fill ==> b[k] == FF
  {
  }

  lemma JunkSkipped(data: seq<byte>, at: nat, n: nat)
    requires at + n < |data| && data[at + n] == FF && forall k :: at <= k < at + n ==> data[k] != FF
    ensures SkipJunk(data, at) == at + n
  {
  }

  lemma {:induction false} FillSkipped(data: seq<byte>, at: nat, n: nat)
    requires at + n < |data| && data[at + n] != FF && forall k :: at <= k < at + n ==> data[k] == FF
    ensures SkipFill(data, at) == at + n
    decreases n
  {
    if n > 0 { FillSkipped(data, at + 1, n - 1); }
  }

  predicate Holds(data: seq<byte>, at: nat, b: seq<byte>) {
    at + |b| <= |data| && data[at..at + |b|] == b
  }

  lemma HoldsParts(data: seq<byte>, at: nat, a: seq<byte>, b: seq<byte>)
    requires Holds(data, at, a + b)
    ensures Holds(data, at, a) && Holds(data, at + |a|, b)
  {
    assert (a + b)[..|a|] == a && (a + b)[|a|..] == b;
    assert data[at..at + |a|] == data[at..at + |a + b|][..|a|];
    assert data[at + |a|..at + |a| + |b|] == data[at..at + |a + b|][|a|..];
  }

  lemma HoldsWord(data: seq<byte>, at: nat, n: nat)
    requires n < 0x10000 && Holds(data, at, WordBytes(n))
    ensures at + 2 <= |data| && Word(data[at], data[at + 1]) == n
  {
    assert data[at] == data[at..at + 2][0] && data[at + 1] == data[at..at + 2][1];
  }

  /** One piece is walked over. */
  lemma WalksPiece(data: seq<byte>, at: nat, p: Piece)
    requires PieceOk(p) && Holds(data, at, PieceBytes(p)) && at + 2 < |data|
    ensures Walk(data, at) == Walk(data, at + |PieceBytes(p)|)
  {
    hide Walk, MarkerAt, Word, WordBytes;
    if p.Segment? {
      WalksSegment(data, at, p);
    } else {
      MarkerByte(p.junk, p.fill, p.marker);
      WalkStep(data, at);
      FindsMarker(data, at, p.junk, p.fill, p.marker);
    }
  }

  /** What stands where the walk looks: the marker, its length word and the payload. */
  lemma SegmentParts(data: seq<byte>, at: nat, head: seq<byte>, p: Piece)
    requires p.Segment? && PieceOk(p) && head == MarkerBytes(p.junk, p.fill, p.marker) && Holds(data, at, PieceBytes(p))
    ensures p.marker != FF && !Standalone(p.marker) && !StartOfFrame(p.marker) && JunkOk(p.junk)
    ensures |PieceBytes(p)| == |head| + 2 + |p.payload| && |p.payload| + 2 < 0x10000
    ensures Holds(data, at, head) && Holds(data, at + |head|, WordBytes(|p.payload| + 2))
  {
    hide MarkerBytes, JunkOk, WordBytes, Holds;
    var w := WordBytes(|p.payload| + 2);
    HoldsParts(data, at, head + w, p.payload);
    HoldsParts(data, at, head, w);
  }

  lemma WalksSegment(data: seq<byte>, at: nat, p: Piece)
    requires p.Segment? && PieceOk(p) && Holds(data, at, PieceBytes(p)) && at + 2 < |data|
    ensures Walk(data, at) == Walk(data, at + |PieceBytes(p)|)
  {
    hide *;
    var head := MarkerBytes(p.junk, p.fill, p.marker);
    SegmentParts(data, at, head, p);
    MarkerByte(p.junk, p.fill, p.marker);
    HoldsMarker(data, at, p.junk, p.fill, p.marker);
    HoldsWord(data, at + |head|, |p.payload| + 2);
    WalkSegment(data, at);
  }

  lemma HoldsMarker(data: seq<byte>, at: nat, junk: seq<byte>, fill: nat, marker: byte)
    requires JunkOk(junk) && marker != FF && Holds(data, at, MarkerBytes(junk, fill, marker))
    ensures MarkerAt(data, at) == at + |junk| + fill + 1 < |data| && data[at + |junk| + fill + 1] == marker
  {
    hide MarkerBytes, JunkOk, MarkerAt;
    MarkerByte(junk, fill, marker);
    FindsMarker(data, at, junk, fill, marker);
  }

  /** The frame header is read. */
  lemma ReadsFrame(data: seq<byte>, at: nat, f: Frame)
    requires FrameOk(f) && Holds(data, at, FrameBytes(f)) && at + 2 < |data|
    ensures Walk(data, at) == Some(Size(f.width, f.height))
  {
    hide Walk, MarkerAt, Word, WordBytes;
    var head, l, h, w := MarkerBytes(f.junk, f.fill, f.marker), WordBytes(f.length), WordBytes(f.height), WordBytes(f.width);
    MarkerByte(f.junk, f.fill, f.marker);
    HoldsParts(data, at, head + l + [f.precision] + h, w);
    HoldsParts(data, at, head + l + [f.precision], h);
    HoldsParts(data, at, head + l, [f.precision]);
    HoldsParts(data, at, head, l);
    HoldsWord(data, at + |head|, f.length);
    HoldsWord(data, at + |head| + 3, f.height);
    HoldsWord(data, at + |head| + 5, f.width);
    FindsMarker(data, at, f.junk, f.fill, f.marker);
    WalkStep(data, at);
    WalkSegment(data, at);
  }

  /** Pieces, however many, and then the frame header. */
  lemma {:induction false} WalksAll(data: seq<byte>, at: nat, pieces: seq<Piece>, f: Frame)
    requires PiecesOk(pieces) && FrameOk(f)
    requires Holds(data, at, PiecesBytes(pieces) + FrameBytes(f)) && at + |PiecesBytes(pieces)| + 2 < |data|
    ensures Walk(data, at) == Some(Size(f.width, f.height))
    decreases |pieces|
  {
    hide Walk, PieceBytes, FrameBytes, Holds;
    if pieces == [] {
      assert [] + FrameBytes(f) == FrameBytes(f);
      ReadsFrame(data, at, f);
    } else {
      var first, rest := PieceBytes(pieces[0]), PiecesBytes(pieces[1..]);
      assert (first + rest) + FrameBytes(f) == first + (rest + FrameBytes(f));
      HoldsParts(data, at, first, rest + FrameBytes(f));
      WalksPiece(data, at, pieces[0]);
      WalksAll(data, at + |first|, pieces[1..], f);
    }
  }

  // ---------------------------------------------------------------- and nothing else

  /** The walk found its answer in these pieces and this frame header. */
  ghost predicate Explains(data: seq<byte>, at: nat, pieces: seq<Piece>, f: Frame) {
    && PiecesOk(pieces) && FrameOk(f)
    && Holds(data, at, PiecesBytes(pieces) + FrameBytes(f)) && at + |PiecesBytes(pieces)| + 2 < |data|
  }

  /** A JPEG file with this size in its first frame header. */
  ghost predicate HasSize(data: seq<byte>, size: Size) {
    && |data| >= 8 && data[..2] == SOI && data[|data| - 2..] == EOI
    && exists pieces, f :: Explains(data, 2, pieces, f) && size == Size(f.width, f.height)
  }

  lemma HoldsJoin(data: seq<byte>, at: nat, a: seq<byte>, b: seq<byte>)
    requires Holds(data, at, a) && Holds(data, at + |a|, b)
    ensures Holds(data, at, a + b)
  {
    assert data[at..at + |a + b|] == data[at..at + |a|] + data[at + |a|..at + |a| + |b|];
  }

  lemma HoldsSlice(data: seq<byte>, at: nat, end: nat)
    requires at <= end <= |data|
    ensures Holds(data, at, data[at..end])
  {
  }

  /** What the scan passes over is junk, fill and a marker. */
  lemma MarkerSplit(data: seq<byte>, at: nat) returns (junk: seq<byte>, fill: nat)
    requires at <= |data| && MarkerAt(data, at) < |data|
    ensures var m := MarkerAt(data, at);
            && JunkOk(junk) && data[m] != FF && at + |MarkerBytes(junk, fill, data[m])| == m + 1
            && Holds(data, at, MarkerBytes(junk, fill, data[m]))
  {
    var p, m := SkipJunk(data, at), MarkerAt(data, at);
    junk, fill := data[at..p], m - p - 1;
    MarkerByte(junk, fill, data[m]);
    var b := MarkerBytes(junk, fill, data[m]);
    forall k | 0 <= k < |b| ensures data[at..m + 1][k] == b[k] {
      if p - at <= k < m - at { assert data[at + k] == FF; }
    }
    assert data[at..m + 1] == b;
  }

  lemma HoldsWordOf(data: seq<byte>, at: nat)
    requires at + 2 <= |data|
    ensures Word(data[at], data[at + 1]) < 0x10000 && Holds(data, at, WordBytes(Word(data[at], data[at + 1])))
  {
    assert data[at..at + 2] == [data[at], data[at + 1]];
  }

  lemma FrameFound(data: seq<byte>, at: nat) returns (f: Frame)
    requires at + 2 < |data| && MarkerAt(data, at) + 8 <= |data|
    requires var m := MarkerAt(data, at); StartOfFrame(data[m]) && Word(data[m + 1], data[m + 2]) >= 2
    ensures var m := MarkerAt(data, at);
            && FrameOk(f) && Holds(data, at, FrameBytes(f))
            && Size(f.width, f.height) == Size(Word(data[m + 6], data[m + 7]), Word(data[m + 4], data[m + 5]))
  {
    hide MarkerAt, Word, WordBytes, Holds;
    var m := MarkerAt(data, at);
    var junk, fill := MarkerSplit(data, at);
    HoldsWordOf(data, m + 1);
    HoldsWordOf(data, m + 4);
    HoldsWordOf(data, m + 6);
    HoldsSlice(data, m + 3, m + 4);
    assert data[m + 3..m + 4] == [data[m + 3]];
    f := Frame(junk, fill, data[m], Word(data[m + 1], data[m + 2]), data[m + 3],
               Word(data[m + 4], data[m + 5]), Word(data[m + 6], data[m + 7]));
    var head, l := MarkerBytes(junk, fill, data[m]), WordBytes(f.length);
    HoldsJoin(data, at, head, l);
    HoldsJoin(data, at, head + l, [f.precision]);
    HoldsJoin(data, at, head + l + [f.precision], WordBytes(f.height));
    HoldsJoin(data, at, head + l + [f.precision] + WordBytes(f.height), WordBytes(f.width));
  }

  lemma SegmentFound(data: seq<byte>, at: nat) returns (p: Piece)
    requires at + 2 < |data| && MarkerAt(data, at) + 3 <= |data|
    requires var m := MarkerAt(data, at);
             && !Standalone(data[m]) && !StartOfFrame(data[m]) && 2 <= Word(data[m + 1], data[m + 2])
             && m + 1 + Word(data[m + 1], data[m + 2]) <= |data|
    ensures var m := MarkerAt(data, at);
            PieceOk(p) && Holds(data, at, PieceBytes(p)) && at + |PieceBytes(p)| == m + 1 + Word(data[m + 1], data[m + 2])
  {
    hide MarkerAt, Word, WordBytes, Holds;
    var m := MarkerAt(data, at);
    var length := Word(data[m + 1], data[m + 2]);
    var junk, fill := MarkerSplit(data, at);
    HoldsWordOf(data, m + 1);
    HoldsSlice(data, m + 3, m + 1 + length);
    p := Segment(junk, fill, data[m], data[m + 3..m + 1 + length]);
    var head := MarkerBytes(junk, fill, data[m]);
    HoldsJoin(data, at, head, WordBytes(length));
    HoldsJoin(data, at, head + WordBytes(length), p.payload);
  }

  lemma ExplainsCons(data: seq<byte>, at: nat, p: Piece, pieces: seq<Piece>, f: Frame)
    requires PieceOk(p) && Holds(data, at, PieceBytes(p)) && Explains(data, at + |PieceBytes(p)|, pieces, f)
    ensures Explains(data, at, [p] + pieces, f)
  {
    hide PieceBytes, FrameBytes, Holds, PieceOk, FrameOk;
    var all := [p] + pieces;
    assert all[1..] == pieces && forall i :: 0 <= i < |pieces| ==> all[i + 1] == pieces[i];
    HoldsJoin(data, at, PieceBytes(p), PiecesBytes(pieces) + FrameBytes(f));
    assert PieceBytes(p) + (PiecesBytes(pieces) + FrameBytes(f)) == PiecesBytes(all) + FrameBytes(f);
  }

  /** Any answer comes from a run of pieces and a frame header that are really there. */
  lemma {:induction false} WalkExplained(data: seq<byte>, at: nat) returns (pieces: seq<Piece>, f: Frame)
    requires Walk(data, at).Some?
    ensures Explains(data, at, pieces, f) && Walk(data, at) == Some(Size(f.width, f.height))
    decreases |data| - at
  {
    hide Walk, MarkerAt, Word, WordBytes, Holds, PieceBytes, FrameBytes, Explains, MarkerBytes, StartOfFrame, Standalone;
    if at + 2 >= |data| { WalkEnds(data, at); }
    MarkerFound(data, at);
    WalkStep(data, at);
    WalkSegment(data, at);
    var m := MarkerAt(data, at);
    if Standalone(data[m]) {
      var junk, fill := MarkerSplit(data, at);
      BareIs(junk, fill, data[m]);
      pieces, f := WalkExplained(data, m + 1);
      ExplainsCons(data, at, Bare(junk, fill, data[m]), pieces, f);
      pieces := [Bare(junk, fill, data[m])] + pieces;
    } else if StartOfFrame(data[m]) {
      f := FrameFound(data, at);
      pieces := [];
      OnlyFrame(data, at, f);
    } else {
      var next := m + 1 + Word(data[m + 1], data[m + 2]);
      if next + 2 >= |data| { WalkEnds(data, next); }
      pieces, f := WalkExplained(data, next);
      var p := SegmentFound(data, at);
      ExplainsCons(data, at, p, pieces, f);
      pieces := [p] + pieces;
    }
  }

  lemma BareIs(junk: seq<byte>, fill: nat, marker: byte)
    requires JunkOk(junk) && marker != FF && Standalone(marker)
    ensures PieceOk(Bare(junk, fill, marker)) && PieceBytes(Bare(junk, fill, marker)) == MarkerBytes(junk, fill, marker)
  {
  }

  lemma OnlyFrame(data: seq<byte>, at: nat, f: Frame)
    requires FrameOk(f) && Holds(data, at, FrameBytes(f)) && at + 2 < |data|
    ensures Explains(data, at, [], f)
  {
    assert [] + FrameBytes(f) == FrameBytes(f);
  }

  /** On every byte file, the answer is the size in the first frame header, and there is
      an answer exactly when there is such a header. */
  lemma DimensionsExactly(data: seq<byte>)
    ensures forall s :: HasSize(data, s) <==> Dimensions(data) == Some(s)
  {
    forall s ensures HasSize(data, s) <==> Dimensions(data) == Some(s) {
      hide Walk, Explains;
      if HasSize(data, s) {
        var pieces, f :| Explains(data, 2, pieces, f) && s == Size(f.width, f.height);
        ExplainedWalks(data, pieces, f);
      }
      if Dimensions(data) == Some(s) {
        var pieces, f := WalkExplained(data, 2);
      }
    }
  }

  lemma ExplainedWalks(data: seq<byte>, pieces: seq<Piece>, f: Frame)
    requires Explains(data, 2, pieces, f)
    ensures Walk(data, 2) == Some(Size(f.width, f.height))
  {
    WalksAll(data, 2, pieces, f);
  }

  /** A file as an encoder writes it. */
  function Printed(pieces: seq<Piece>, f: Frame, rest: seq<byte>): seq<byte>
    requires PiecesOk(pieces) && FrameOk(f)
  {
    SOI + (PiecesBytes(pieces) + FrameBytes(f)) + rest + EOI
  }

  /** The walk inverts the printer, whatever follows the frame header. */
  lemma PrintedSize(pieces: seq<Piece>, f: Frame, rest: seq<byte>)
    requires PiecesOk(pieces) && FrameOk(f)
    ensures Dimensions(Printed(pieces, f, rest)) == Some(Size(f.width, f.height))
  {
    var data, header := Printed(pieces, f, rest), PiecesBytes(pieces) + FrameBytes(f);
    MarkerByte(f.junk, f.fill, f.marker);
    assert |FrameBytes(f)| >= 9;
    hide PieceBytes, FrameBytes, Walk, PiecesBytes;
    assert data[2..2 + |header|] == header;
    assert data[..2] == SOI && data[|data| - 2..] == EOI;
    ExplainedWalks(data, pieces, f);
  }

  /** `_jpeg_dimensions`: the walk over one stream position, on any bytes at all. */
  method JpegDimensions(data: seq<byte>, size: nat) returns (r: Option<Size>)
    ensures r == if |data| == size then Dimensions(data) else None
    ensures r.Some? ==> HasSize(data, r.value)
    ensures r.None? && |data| == size ==> forall s :: !HasSize(data, s)
  {
    DimensionsExactly(data);
    hide HasSize, MarkerAt, Walk, Standalone, StartOfFrame, Word;
    if |data| != size || size < 8 || data[..2] != SOI || data[size - 2..] != EOI { return None; }
    var at := 2;
    while at < size - 2
      invariant Walk(data, at) == Walk(data, 2)
      decreases |data| - at
    {
      WalkStep(data, at);
      WalkSegment(data, at);
      MarkerFound(data, at);
      var m := NextMarker(data, at);
      if m == |data| { return None; }
      at := m + 1;
      if Standalone(data[m]) { continue; }
      if at + 2 > |data| { return None; }
      var length := Word(data[at], data[at + 1]);
      at := at + 2;
      if length < 2 { return None; }
      if StartOfFrame(data[m]) {
        if at + 5 > |data| { return None; }
        return Some(Size(Word(data[at + 3], data[at + 4]), Word(data[at + 1], data[at + 2])));
      }
      at := at + length - 2;
    }
    WalkEnds(data, at);
    r := None;
  }
}
