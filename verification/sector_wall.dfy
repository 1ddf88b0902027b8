/**
 * Vertical wall faces of one sector side (SectorWall): which floor-part,
 * ceiling-part and middle faces are built from the corner heights, the main
 * splits QA (floor) and WS (ceiling) and the extra split lists, and the
 * normalisation that snaps splits and drops the ones lying in the void.
 *
 * The face constructors SectorFace.CreateVertical*FaceData are not part of this
 * model: they are passed in as functions from the constructor's arguments to an
 * optional face, so every property below holds whatever they return.
 */
module SectorGeometry {
  import W = Wrappers

  datatype Direction = PositiveZ | NegativeZ | PositiveX | NegativeX

  datatype DiagonalSplit = None | XnZn | XnZp | XpZn | XpZp

  /** The (X, Z) position of a wall corner and the floor (MinY) and ceiling (MaxY) heights there. */
  datatype WallEnd = WallEnd(x: int, z: int, minY: int, maxY: int)

  /** A split of the wall (QA, WS, ED, RF or any other extra split): its heights at the two corners. */
  datatype WallSplit = WallSplit(startY: int, endY: int)

  datatype SectorWall = SectorWall(
    direction: Direction,
    start: WallEnd,
    end: WallEnd,
    qa: WallSplit,
    ws: WallSplit,
    extraFloorSplits: seq<WallSplit>,
    extraCeilingSplits: seq<WallSplit>)

  /** Which logical face of the wall a face is (SectorFaceExtensions.Get*Face). */
  datatype SectorFaceIdentifier =
    | QaFace(direction: Direction)
    | ExtraFloorSplitFace(direction: Direction, index: nat)
    | WsFace(direction: Direction)
    | ExtraCeilingSplitFace(direction: Direction, index: nat)
    | MiddleFace(direction: Direction)

  /** The arguments handed to a face constructor, in the order the source passes them. */
  datatype FaceArgs = FaceArgs(
    identifier: SectorFaceIdentifier,
    startXZ: (int, int),
    endXZ: (int, int),
    yStart: WallSplit,
    yEnd: WallSplit)

  function Floor(w: SectorWall): WallSplit { WallSplit(w.start.minY, w.end.minY) }

  function Ceiling(w: SectorWall): WallSplit { WallSplit(w.start.maxY, w.end.maxY) }

  function Args(w: SectorWall, id: SectorFaceIdentifier, yStart: WallSplit, yEnd: WallSplit): FaceArgs {
    FaceArgs(id, (w.start.x, w.start.z), (w.end.x, w.end.z), yStart, yEnd)
  }

  function OptionToSeq<F>(o: W.Option<F>): seq<F> {
    if o.Some? then [o.value] else []
  }

  function Min(a: int, b: int): int { if a <= b then a else b }

  function Max(a: int, b: int): int { if a >= b then a else b }

  predicate IsQaFullyAboveMaxY(w: SectorWall) {
    w.qa.startY >= w.start.maxY && w.qa.endY >= w.end.maxY
  }

  predicate IsWsFullyBelowMinY(w: SectorWall) {
    w.ws.startY <= w.start.minY && w.ws.endY <= w.end.minY
  }

  /** Whether a wall facing `direction` keeps a square floor part under the flat triangle of a diagonal floor. */
  predicate CanHaveNonDiagonalFloorPart(direction: Direction, diagonal: DiagonalSplit) {
    (diagonal == XnZp && direction in {NegativeZ, PositiveX}) ||
    (diagonal == XpZn && direction in {NegativeX, PositiveZ}) ||
    (diagonal == XpZp && direction in {NegativeZ, NegativeX}) ||
    (diagonal == XnZn && direction in {PositiveZ, PositiveX})
  }

  /** Whether a wall facing `direction` keeps a square ceiling part over the flat triangle of a diagonal ceiling. */
  predicate CanHaveNonDiagonalCeilingPart(direction: Direction, diagonal: DiagonalSplit) {
    (diagonal == XnZp && direction in {NegativeZ, PositiveX}) ||
    (diagonal == XpZn && direction in {NegativeX, PositiveZ}) ||
    (diagonal == XpZp && direction in {NegativeZ, NegativeX}) ||
    (diagonal == XnZn && direction in {PositiveZ, PositiveX})
  }

  const AllDirections: seq<Direction> := [PositiveZ, NegativeZ, PositiveX, NegativeX]

  /** How many of the four wall directions the floor table admits for a diagonal type. */
  function CountFloorDirections(diagonal: DiagonalSplit, ds: seq<Direction>): nat {
    if ds == [] then 0
    else (if CanHaveNonDiagonalFloorPart(ds[0], diagonal) then 1 else 0) + CountFloorDirections(diagonal, ds[1..])
  }

  /** The floor and ceiling tables agree, admit no direction for DiagonalSplit.None and exactly two for every diagonal type. */
  lemma EligibilityTables(diagonal: DiagonalSplit)
    ensures forall d: Direction :: CanHaveNonDiagonalFloorPart(d, diagonal) == CanHaveNonDiagonalCeilingPart(d, diagonal)
    ensures diagonal == DiagonalSplit.None ==> forall d: Direction :: !CanHaveNonDiagonalFloorPart(d, diagonal)
    ensures CountFloorDirections(diagonal, AllDirections) == (if diagonal == DiagonalSplit.None then 0 else 2)
  {
    assert AllDirections[1..] == [NegativeZ, PositiveX, NegativeX];
    assert AllDirections[1..][1..] == [PositiveX, NegativeX];
    assert AllDirections[1..][1..][1..] == [NegativeX];
    assert AllDirections[1..][1..][1..][1..] == [];
  }

  // ---------------------------------------------------------------------------
  // Floor part. Position k in [0, |extraFloorSplits|] stands for the source's
  // extraSplitIndex k - 1: k == 0 is QA, k > 0 is ExtraFloorSplits[k - 1].

  function FloorSplitAt(w: SectorWall, k: nat): WallSplit
    requires k <= |w.extraFloorSplits|
  {
    if k == 0 then w.qa else w.extraFloorSplits[k - 1]
  }

  function FloorFaceId(w: SectorWall, k: nat): SectorFaceIdentifier {
    if k == 0 then QaFace(w.direction) else ExtraFloorSplitFace(w.direction, k - 1)
  }

  /**
   * The first constructor call made for position k, or None when the split is
   * skipped: above the flat triangle of a diagonal wall, or of no positive
   * height over its bottom edge (the floor, or the next split when that one is
   * at or above the floor at both corners).
   */
  function FloorFirstAttempt(w: SectorWall, diagonal: DiagonalSplit, k: nat): (r: W.Option<FaceArgs>)
    requires k <= |w.extraFloorSplits|
    ensures r.Some? ==> r.value.yStart == FloorSplitAt(w, k) && r.value.identifier == FloorFaceId(w, k)
    ensures r.Some? ==> !(r.value.yStart.startY <= r.value.yEnd.startY && r.value.yStart.endY <= r.value.yEnd.endY)
    ensures r.Some? ==> (r.value.yEnd == Floor(w) ||
      (k < |w.extraFloorSplits| && r.value.yEnd == w.extraFloorSplits[k] &&
       r.value.yEnd.startY >= w.start.minY && r.value.yEnd.endY >= w.end.minY))
  {
    var split := FloorSplitAt(w, k);
    var n := |w.extraFloorSplits|;
    if k < n && (CanHaveNonDiagonalFloorPart(w.direction, diagonal) || IsQaFullyAboveMaxY(w)) &&
       (w.extraFloorSplits[k].startY > w.qa.startY || w.extraFloorSplits[k].endY > w.qa.endY)
    then W.None
    else
      var bottom :=
        if k < n && w.extraFloorSplits[k].startY >= w.start.minY && w.extraFloorSplits[k].endY >= w.end.minY
        then w.extraFloorSplits[k] else Floor(w);
      if split.startY <= bottom.startY && split.endY <= bottom.endY then W.None
      else W.Some(Args(w, FloorFaceId(w, k), split, bottom))
  }

  /** The overdraw call tried after a failed first call: only for a split exactly even with QA, down to the lowest of the four heights. */
  function FloorOverdraw(w: SectorWall, diagonal: DiagonalSplit, isAnyWall: bool, a: FaceArgs): W.Option<FaceArgs> {
    if a.yStart == w.qa && (!isAnyWall || CanHaveNonDiagonalFloorPart(w.direction, diagonal)) then
      var lowest := Min(Min(a.yStart.startY, a.yStart.endY), Min(a.yEnd.startY, a.yEnd.endY));
      W.Some(a.(yEnd := WallSplit(lowest, lowest)))
    else W.None
  }

  /** The face (if any) produced for position k. */
  function FloorFaceAt<F>(w: SectorWall, diagonal: DiagonalSplit, isAnyWall: bool, create: FaceArgs -> W.Option<F>, k: nat): (r: W.Option<F>)
    requires k <= |w.extraFloorSplits|
  {
    match FloorFirstAttempt(w, diagonal, k)
    case None => W.None
    case Some(a) =>
      if create(a).Some? then create(a)
      else
        match FloorOverdraw(w, diagonal, isAnyWall, a)
        case None => W.None
        case Some(o) => create(o)
  }

  /** The face at position k comes from the first call, or else from the overdraw call with its lowest height. */
  lemma FloorFaceAtShape<F>(w: SectorWall, diagonal: DiagonalSplit, isAnyWall: bool, create: FaceArgs -> W.Option<F>, k: nat)
    requires k <= |w.extraFloorSplits|
    ensures FloorFaceAt(w, diagonal, isAnyWall, create, k).Some? ==> FloorFirstAttempt(w, diagonal, k).Some?
    ensures FloorFaceAt(w, diagonal, isAnyWall, create, k).Some? ==>
      var a := FloorFirstAttempt(w, diagonal, k).value;
      FloorFaceAt(w, diagonal, isAnyWall, create, k) == create(a) ||
      (create(a).None? && a.yStart == w.qa && (!isAnyWall || CanHaveNonDiagonalFloorPart(w.direction, diagonal)) &&
       var lowest := Min(Min(a.yStart.startY, a.yStart.endY), Min(a.yEnd.startY, a.yEnd.endY));
       lowest <= a.yStart.startY && lowest <= a.yStart.endY && lowest <= a.yEnd.startY && lowest <= a.yEnd.endY &&
       (lowest == a.yStart.startY || lowest == a.yStart.endY || lowest == a.yEnd.startY || lowest == a.yEnd.endY) &&
       FloorFaceAt(w, diagonal, isAnyWall, create, k) == create(a.(yEnd := WallSplit(lowest, lowest))))
  {
  }

  /** The faces produced for the first j positions, in position order. */
  function FloorFacesPrefix<F>(w: SectorWall, diagonal: DiagonalSplit, isAnyWall: bool, create: FaceArgs -> W.Option<F>, j: nat): seq<F>
    requires j <= |w.extraFloorSplits| + 1
  {
    if j == 0 then []
    else FloorFacesPrefix(w, diagonal, isAnyWall, create, j - 1) + OptionToSeq(FloorFaceAt(w, diagonal, isAnyWall, create, j - 1))
  }

  function FloorFaces<F>(w: SectorWall, diagonal: DiagonalSplit, isAnyWall: bool, create: FaceArgs -> W.Option<F>): seq<F> {
    FloorFacesPrefix(w, diagonal, isAnyWall, create, |w.extraFloorSplits| + 1)
  }

  /** One pass of the loop of SectorWall.GetVerticalFloorPartFaces: the face added for extraSplitIndex, if any. */
  method FloorPartFace<F>(w: SectorWall, diagonalFloorSplit: DiagonalSplit, isAnyWall: bool, create: FaceArgs -> W.Option<F>,
                          extraSplitIndex: int)
    returns (faceData: W.Option<F>)
    requires -1 <= extraSplitIndex < |w.extraFloorSplits|
    ensures faceData == FloorFaceAt(w, diagonalFloorSplit, isAnyWall, create, extraSplitIndex + 1)
  {
    var isQaFullyAboveMaxY := w.qa.startY >= w.start.maxY && w.qa.endY >= w.end.maxY;
    var canHaveDiagonalWallFloorPart := CanHaveNonDiagonalFloorPart(w.direction, diagonalFloorSplit);
    var isQA := extraSplitIndex == -1;
    var yStartA, yStartB := if isQA then w.qa.startY else w.extraFloorSplits[extraSplitIndex].startY,
                            if isQA then w.qa.endY else w.extraFloorSplits[extraSplitIndex].endY;
    var sectorFace := if isQA then QaFace(w.direction) else ExtraFloorSplitFace(w.direction, extraSplitIndex);
    ghost var k := extraSplitIndex + 1;
    assert WallSplit(yStartA, yStartB) == FloorSplitAt(w, k) && sectorFace == FloorFaceId(w, k);
    var yEndA, yEndB := w.start.minY, w.end.minY;
    if extraSplitIndex + 1 < |w.extraFloorSplits| {
      var yNextSplitStart, yNextSplitEnd := w.extraFloorSplits[extraSplitIndex + 1].startY, w.extraFloorSplits[extraSplitIndex + 1].endY;
      if (canHaveDiagonalWallFloorPart || isQaFullyAboveMaxY) && (yNextSplitStart > w.qa.startY || yNextSplitEnd > w.qa.endY) {
        return W.None;
      }
      if yNextSplitStart >= w.start.minY && yNextSplitEnd >= w.end.minY {
        yEndA, yEndB := yNextSplitStart, yNextSplitEnd;
      }
    }
    if yStartA <= yEndA && yStartB <= yEndB {
      return W.None;
    }
    faceData := create(Args(w, sectorFace, WallSplit(yStartA, yStartB), WallSplit(yEndA, yEndB)));
    assert FloorFirstAttempt(w, diagonalFloorSplit, k) == W.Some(Args(w, sectorFace, WallSplit(yStartA, yStartB), WallSplit(yEndA, yEndB)));
    if faceData.None? {
      var isEvenWithQA := yStartA == w.qa.startY && yStartB == w.qa.endY;
      var isValidOverdraw := isEvenWithQA && (!isAnyWall || canHaveDiagonalWallFloorPart);
      if isValidOverdraw {
        var lowest := Min(Min(yStartA, yStartB), Min(yEndA, yEndB));
        faceData := create(Args(w, sectorFace, WallSplit(yStartA, yStartB), WallSplit(lowest, lowest)));
      }
    }
  }

  /** SectorWall.GetVerticalFloorPartFaces: QA first, then each extra floor split in order. */
  method GetVerticalFloorPartFaces<F>(w: SectorWall, diagonalFloorSplit: DiagonalSplit, isAnyWall: bool, create: FaceArgs -> W.Option<F>)
    returns (faces: seq<F>)
    ensures faces == FloorFaces(w, diagonalFloorSplit, isAnyWall, create)
  {
    faces := [];
    var extraSplitIndex := -1;
    while extraSplitIndex < |w.extraFloorSplits|
      invariant -1 <= extraSplitIndex <= |w.extraFloorSplits|
      invariant faces == FloorFacesPrefix(w, diagonalFloorSplit, isAnyWall, create, extraSplitIndex + 1)
    {
      var faceData := FloorPartFace(w, diagonalFloorSplit, isAnyWall, create, extraSplitIndex);
      if faceData.Some? {
        faces := faces + [faceData.value];
      }
      extraSplitIndex := extraSplitIndex + 1;
    }
  }

  /** At most one face per split: QA and each extra floor split. */
  lemma {:induction false} FloorFacesPrefixBound<F>(w: SectorWall, diagonal: DiagonalSplit, isAnyWall: bool, create: FaceArgs -> W.Option<F>, j: nat)
    requires j <= |w.extraFloorSplits| + 1
    ensures |FloorFacesPrefix(w, diagonal, isAnyWall, create, j)| <= j
  {
    if j > 0 {
      FloorFacesPrefixBound(w, diagonal, isAnyWall, create, j - 1);
    }
  }

  lemma FloorFacesBound<F>(w: SectorWall, diagonal: DiagonalSplit, isAnyWall: bool, create: FaceArgs -> W.Option<F>)
    ensures |FloorFaces(w, diagonal, isAnyWall, create)| <= |w.extraFloorSplits| + 1
  {
    FloorFacesPrefixBound(w, diagonal, isAnyWall, create, |w.extraFloorSplits| + 1);
  }

  /** QA is considered first: when it yields a face, that face leads the list. */
  lemma {:induction false} FloorQaFaceFirst<F>(w: SectorWall, diagonal: DiagonalSplit, isAnyWall: bool, create: FaceArgs -> W.Option<F>, j: nat)
    requires 1 <= j <= |w.extraFloorSplits| + 1
    requires FloorFaceAt(w, diagonal, isAnyWall, create, 0).Some?
    ensures |FloorFacesPrefix(w, diagonal, isAnyWall, create, j)| >= 1
    ensures FloorFacesPrefix(w, diagonal, isAnyWall, create, j)[0] == FloorFaceAt(w, diagonal, isAnyWall, create, 0).value
  {
    if j > 1 {
      FloorQaFaceFirst(w, diagonal, isAnyWall, create, j - 1);
    }
  }

  // ---------------------------------------------------------------------------
  // Ceiling part: the mirror of the floor part, with WS, the ceiling (MaxY) as
  // baseline and the comparisons reversed.

  function CeilingSplitAt(w: SectorWall, k: nat): WallSplit
    requires k <= |w.extraCeilingSplits|
  {
    if k == 0 then w.ws else w.extraCeilingSplits[k - 1]
  }

  function CeilingFaceId(w: SectorWall, k: nat): SectorFaceIdentifier {
    if k == 0 then WsFace(w.direction) else ExtraCeilingSplitFace(w.direction, k - 1)
  }

  function CeilingFirstAttempt(w: SectorWall, diagonal: DiagonalSplit, k: nat): (r: W.Option<FaceArgs>)
    requires k <= |w.extraCeilingSplits|
    ensures r.Some? ==> r.value.yStart == CeilingSplitAt(w, k) && r.value.identifier == CeilingFaceId(w, k)
    ensures r.Some? ==> !(r.value.yStart.startY >= r.value.yEnd.startY && r.value.yStart.endY >= r.value.yEnd.endY)
    ensures r.Some? ==> (r.value.yEnd == Ceiling(w) ||
      (k < |w.extraCeilingSplits| && r.value.yEnd == w.extraCeilingSplits[k] &&
       r.value.yEnd.startY <= w.start.maxY && r.value.yEnd.endY <= w.end.maxY))
  {
    var split := CeilingSplitAt(w, k);
    var n := |w.extraCeilingSplits|;
    if k < n && (CanHaveNonDiagonalCeilingPart(w.direction, diagonal) || IsWsFullyBelowMinY(w)) &&
       (w.extraCeilingSplits[k].startY < w.ws.startY || w.extraCeilingSplits[k].endY < w.ws.endY)
    then W.None
    else
      var top :=
        if k < n && w.extraCeilingSplits[k].startY <= w.start.maxY && w.extraCeilingSplits[k].endY <= w.end.maxY
        then w.extraCeilingSplits[k] else Ceiling(w);
      if split.startY >= top.startY && split.endY >= top.endY then W.None
      else W.Some(Args(w, CeilingFaceId(w, k), split, top))
  }

  /**
   * The ceiling overdraw call: only for a split exactly even with WS, up to the
   * highest of the four heights. The source passes the highest point first and
   * the split second here, the reverse of its first call.
   */
  function CeilingOverdraw(w: SectorWall, diagonal: DiagonalSplit, isAnyWall: bool, a: FaceArgs): W.Option<FaceArgs> {
    if a.yStart == w.ws && (!isAnyWall || CanHaveNonDiagonalCeilingPart(w.direction, diagonal)) then
      var highest := Max(Max(a.yStart.startY, a.yStart.endY), Max(a.yEnd.startY, a.yEnd.endY));
      W.Some(a.(yStart := WallSplit(highest, highest), yEnd := a.yStart))
    else W.None
  }

  function CeilingFaceAt<F>(w: SectorWall, diagonal: DiagonalSplit, isAnyWall: bool, create: FaceArgs -> W.Option<F>, k: nat): (r: W.Option<F>)
    requires k <= |w.extraCeilingSplits|
  {
    match CeilingFirstAttempt(w, diagonal, k)
    case None => W.None
    case Some(a) =>
      if create(a).Some? then create(a)
      else
        match CeilingOverdraw(w, diagonal, isAnyWall, a)
        case None => W.None
        case Some(o) => create(o)
  }

  /** The face at position k comes from the first call, or else from the overdraw call with its highest height. */
  lemma CeilingFaceAtShape<F>(w: SectorWall, diagonal: DiagonalSplit, isAnyWall: bool, create: FaceArgs -> W.Option<F>, k: nat)
    requires k <= |w.extraCeilingSplits|
    ensures CeilingFaceAt(w, diagonal, isAnyWall, create, k).Some? ==> CeilingFirstAttempt(w, diagonal, k).Some?
    ensures CeilingFaceAt(w, diagonal, isAnyWall, create, k).Some? ==>
      var a := CeilingFirstAttempt(w, diagonal, k).value;
      CeilingFaceAt(w, diagonal, isAnyWall, create, k) == create(a) ||
      (create(a).None? && a.yStart == w.ws && (!isAnyWall || CanHaveNonDiagonalCeilingPart(w.direction, diagonal)) &&
       var highest := Max(Max(a.yStart.startY, a.yStart.endY), Max(a.yEnd.startY, a.yEnd.endY));
       highest >= a.yStart.startY && highest >= a.yStart.endY && highest >= a.yEnd.startY && highest >= a.yEnd.endY &&
       (highest == a.yStart.startY || highest == a.yStart.endY || highest == a.yEnd.startY || highest == a.yEnd.endY) &&
       CeilingFaceAt(w, diagonal, isAnyWall, create, k) == create(a.(yStart := WallSplit(highest, highest), yEnd := a.yStart)))
  {
  }

  function CeilingFacesPrefix<F>(w: SectorWall, diagonal: DiagonalSplit, isAnyWall: bool, create: FaceArgs -> W.Option<F>, j: nat): seq<F>
    requires j <= |w.extraCeilingSplits| + 1
  {
    if j == 0 then []
    else CeilingFacesPrefix(w, diagonal, isAnyWall, create, j - 1) + OptionToSeq(CeilingFaceAt(w, diagonal, isAnyWall, create, j - 1))
  }

  function CeilingFaces<F>(w: SectorWall, diagonal: DiagonalSplit, isAnyWall: bool, create: FaceArgs -> W.Option<F>): seq<F> {
    CeilingFacesPrefix(w, diagonal, isAnyWall, create, |w.extraCeilingSplits| + 1)
  }

  /** One pass of the loop of SectorWall.GetVerticalCeilingPartFaces: the face added for extraSplitIndex, if any. */
  method CeilingPartFace<F>(w: SectorWall, diagonalCeilingSplit: DiagonalSplit, isAnyWall: bool, create: FaceArgs -> W.Option<F>,
                            extraSplitIndex: int)
    returns (faceData: W.Option<F>)
    requires -1 <= extraSplitIndex < |w.extraCeilingSplits|
    ensures faceData == CeilingFaceAt(w, diagonalCeilingSplit, isAnyWall, create, extraSplitIndex + 1)
  {
    var isWsFullyBelowMinY := w.ws.startY <= w.start.minY && w.ws.endY <= w.end.minY;
    var canHaveNonDiagonalCeilingPart := CanHaveNonDiagonalCeilingPart(w.direction, diagonalCeilingSplit);
    var isWS := extraSplitIndex == -1;
    var yStartA, yStartB := if isWS then w.ws.startY else w.extraCeilingSplits[extraSplitIndex].startY,
                            if isWS then w.ws.endY else w.extraCeilingSplits[extraSplitIndex].endY;
    var sectorFace := if isWS then WsFace(w.direction) else ExtraCeilingSplitFace(w.direction, extraSplitIndex);
    ghost var k := extraSplitIndex + 1;
    assert WallSplit(yStartA, yStartB) == CeilingSplitAt(w, k) && sectorFace == CeilingFaceId(w, k);
    var yEndA, yEndB := w.start.maxY, w.end.maxY;
    if extraSplitIndex + 1 < |w.extraCeilingSplits| {
      var yNextSubdivA, yNextSubdivB := w.extraCeilingSplits[extraSplitIndex + 1].startY, w.extraCeilingSplits[extraSplitIndex + 1].endY;
      if (canHaveNonDiagonalCeilingPart || isWsFullyBelowMinY) && (yNextSubdivA < w.ws.startY || yNextSubdivB < w.ws.endY) {
        return W.None;
      }
      if yNextSubdivA <= w.start.maxY && yNextSubdivB <= w.end.maxY {
        yEndA, yEndB := yNextSubdivA, yNextSubdivB;
      }
    }
    if yStartA >= yEndA && yStartB >= yEndB {
      return W.None;
    }
    faceData := create(Args(w, sectorFace, WallSplit(yStartA, yStartB), WallSplit(yEndA, yEndB)));
    assert CeilingFirstAttempt(w, diagonalCeilingSplit, k) == W.Some(Args(w, sectorFace, WallSplit(yStartA, yStartB), WallSplit(yEndA, yEndB)));
    if faceData.None? {
      var isEvenWithWS := yStartA == w.ws.startY && yStartB == w.ws.endY;
      var isValidOverdraw := isEvenWithWS && (!isAnyWall || canHaveNonDiagonalCeilingPart);
      if isValidOverdraw {
        var highest := Max(Max(yStartA, yStartB), Max(yEndA, yEndB));
        faceData := create(Args(w, sectorFace, WallSplit(highest, highest), WallSplit(yStartA, yStartB)));
      }
    }
  }

  /** SectorWall.GetVerticalCeilingPartFaces: WS first, then each extra ceiling split in order. */
  method GetVerticalCeilingPartFaces<F>(w: SectorWall, diagonalCeilingSplit: DiagonalSplit, isAnyWall: bool, create: FaceArgs -> W.Option<F>)
    returns (faces: seq<F>)
    ensures faces == CeilingFaces(w, diagonalCeilingSplit, isAnyWall, create)
  {
    faces := [];
    var extraSplitIndex := -1;
    while extraSplitIndex < |w.extraCeilingSplits|
      invariant -1 <= extraSplitIndex <= |w.extraCeilingSplits|
      invariant faces == CeilingFacesPrefix(w, diagonalCeilingSplit, isAnyWall, create, extraSplitIndex + 1)
    {
      var faceData := CeilingPartFace(w, diagonalCeilingSplit, isAnyWall, create, extraSplitIndex);
      if faceData.Some? {
        faces := faces + [faceData.value];
      }
      extraSplitIndex := extraSplitIndex + 1;
    }
  }

  lemma {:induction false} CeilingFacesPrefixBound<F>(w: SectorWall, diagonal: DiagonalSplit, isAnyWall: bool, create: FaceArgs -> W.Option<F>, j: nat)
    requires j <= |w.extraCeilingSplits| + 1
    ensures |CeilingFacesPrefix(w, diagonal, isAnyWall, create, j)| <= j
  {
    if j > 0 {
      CeilingFacesPrefixBound(w, diagonal, isAnyWall, create, j - 1);
    }
  }

  lemma CeilingFacesBound<F>(w: SectorWall, diagonal: DiagonalSplit, isAnyWall: bool, create: FaceArgs -> W.Option<F>)
    ensures |CeilingFaces(w, diagonal, isAnyWall, create)| <= |w.extraCeilingSplits| + 1
  {
    CeilingFacesPrefixBound(w, diagonal, isAnyWall, create, |w.extraCeilingSplits| + 1);
  }

  lemma {:induction false} CeilingWsFaceFirst<F>(w: SectorWall, diagonal: DiagonalSplit, isAnyWall: bool, create: FaceArgs -> W.Option<F>, j: nat)
    requires 1 <= j <= |w.extraCeilingSplits| + 1
    requires CeilingFaceAt(w, diagonal, isAnyWall, create, 0).Some?
    ensures |CeilingFacesPrefix(w, diagonal, isAnyWall, create, j)| >= 1
    ensures CeilingFacesPrefix(w, diagonal, isAnyWall, create, j)[0] == CeilingFaceAt(w, diagonal, isAnyWall, create, 0).value
  {
    if j > 1 {
      CeilingWsFaceFirst(w, diagonal, isAnyWall, create, j - 1);
    }
  }

  // ---------------------------------------------------------------------------
  // Middle face.

  /**
   * The middle face spans from QA up to WS; a QA dipping below the floor at
   * either corner is replaced by the floor, a WS rising above the ceiling at
   * either corner by the ceiling.
   */
  function MiddleFaceArgs(w: SectorWall): (r: FaceArgs)
    ensures r.identifier == MiddleFace(w.direction)
    ensures r.yStart.startY >= w.start.minY && r.yStart.endY >= w.end.minY
    ensures r.yEnd.startY <= w.start.maxY && r.yEnd.endY <= w.end.maxY
    ensures r.yStart == (if w.qa.startY >= w.start.minY && w.qa.endY >= w.end.minY then w.qa else Floor(w))
    ensures r.yEnd == (if w.ws.startY <= w.start.maxY && w.ws.endY <= w.end.maxY then w.ws else Ceiling(w))
  {
    var (qaStartY, qaEndY) :=
      if w.qa.startY < w.start.minY || w.qa.endY < w.end.minY then (w.start.minY, w.end.minY) else (w.qa.startY, w.qa.endY);
    var (wsStartY, wsEndY) :=
      if w.ws.startY > w.start.maxY || w.ws.endY > w.end.maxY then (w.start.maxY, w.end.maxY) else (w.ws.startY, w.ws.endY);
    var yStartA := if qaStartY <= w.start.minY then w.start.minY else qaStartY;
    var yStartB := if qaEndY <= w.end.minY then w.end.minY else qaEndY;
    var yEndA := if wsStartY >= w.start.maxY then w.start.maxY else wsStartY;
    var yEndB := if wsEndY >= w.end.maxY then w.end.maxY else wsEndY;
    Args(w, MiddleFace(w.direction), WallSplit(yStartA, yStartB), WallSplit(yEndA, yEndB))
  }

  /** SectorWall.GetVerticalMiddleFace. */
  function GetVerticalMiddleFace<F>(w: SectorWall, create: FaceArgs -> W.Option<F>): W.Option<F> {
    create(MiddleFaceArgs(w))
  }

  // ---------------------------------------------------------------------------
  // Normalisation.

  /**
   * SectorWall.NormalizeFloorSplit: the normalised split and the isInFloorVoid flag.
   * A split in the void is returned unchanged, and only for a wall whose
   * direction the floor table does not admit; any other split is snapped to the
   * ceiling, snapped to QA, or kept with neither corner above QA.
   */
  function NormalizeFloorSplit(w: SectorWall, split: WallSplit, diagonal: DiagonalSplit, isAnyWall: bool): (r: (WallSplit, bool))
    ensures r.1 ==> r.0 == split && isAnyWall && !CanHaveNonDiagonalFloorPart(w.direction, diagonal)
    ensures r.1 <==> (isAnyWall && !CanHaveNonDiagonalFloorPart(w.direction, diagonal) &&
      (split.startY < w.start.minY || split.endY < w.end.minY || split == Floor(w)))
    ensures !r.1 ==> r.0 == Ceiling(w) || r.0 == w.qa || (r.0 == split && split.startY <= w.qa.startY && split.endY <= w.qa.endY)
  {
    var canHaveNonDiagonalFloorPart := CanHaveNonDiagonalFloorPart(w.direction, diagonal);
    var isFaceInFloorVoid := split.startY < w.start.minY || split.endY < w.end.minY ||
      (split.startY == w.start.minY && split.endY == w.end.minY);
    if isFaceInFloorVoid && isAnyWall && !canHaveNonDiagonalFloorPart then (split, true)
    else
      var isEitherStartPointAboveCeiling := split.startY > w.start.maxY || split.endY > w.end.maxY;
      var areBothStartPointsAboveCeiling := split.startY >= w.start.maxY && split.endY >= w.end.maxY;
      if (isEitherStartPointAboveCeiling && (isAnyWall || IsQaFullyAboveMaxY(w)) && !canHaveNonDiagonalFloorPart) ||
         areBothStartPointsAboveCeiling
      then (Ceiling(w), false)
      else if split.startY > w.qa.startY || split.endY > w.qa.endY then (w.qa, false)
      else (split, false)
  }

  /**
   * SectorWall.NormalizeCeilingSplit: the mirror of NormalizeFloorSplit, with WS,
   * the ceiling void and snapping to the floor.
   */
  function NormalizeCeilingSplit(w: SectorWall, split: WallSplit, diagonal: DiagonalSplit, isAnyWall: bool): (r: (WallSplit, bool))
    ensures r.1 ==> r.0 == split && isAnyWall && !CanHaveNonDiagonalCeilingPart(w.direction, diagonal)
    ensures r.1 <==> (isAnyWall && !CanHaveNonDiagonalCeilingPart(w.direction, diagonal) &&
      (split.startY > w.start.maxY || split.endY > w.end.maxY || split == Ceiling(w)))
    ensures !r.1 ==> r.0 == Floor(w) || r.0 == w.ws || (r.0 == split && split.startY >= w.ws.startY && split.endY >= w.ws.endY)
  {
    var canHaveNonDiagonalCeilingPart := CanHaveNonDiagonalCeilingPart(w.direction, diagonal);
    var isFaceInCeilingVoid := split.startY > w.start.maxY || split.endY > w.end.maxY ||
      (split.startY == w.start.maxY && split.endY == w.end.maxY);
    if isFaceInCeilingVoid && isAnyWall && !canHaveNonDiagonalCeilingPart then (split, true)
    else
      var isEitherStartPointBelowFloor := split.startY < w.start.minY || split.endY < w.end.minY;
      var areBothStartPointsBelowFloor := split.startY <= w.start.minY && split.endY <= w.end.minY;
      if (isEitherStartPointBelowFloor && (isAnyWall || IsWsFullyBelowMinY(w)) && !canHaveNonDiagonalCeilingPart) ||
         areBothStartPointsBelowFloor
      then (Floor(w), false)
      else if split.startY < w.ws.startY || split.endY < w.ws.endY then (w.ws, false)
      else (split, false)
  }

  /** Normalised extra floor splits: each split normalised, up to (and without) the first one in the void. */
  function NormalizeFloorTail(w: SectorWall, s: seq<WallSplit>, diagonal: DiagonalSplit, isAnyWall: bool): seq<WallSplit> {
    if s == [] then []
    else
      var (normalized, inVoid) := NormalizeFloorSplit(w, s[0], diagonal, isAnyWall);
      if inVoid then [] else [normalized] + NormalizeFloorTail(w, s[1..], diagonal, isAnyWall)
  }

  function NormalizeCeilingTail(w: SectorWall, s: seq<WallSplit>, diagonal: DiagonalSplit, isAnyWall: bool): seq<WallSplit> {
    if s == [] then []
    else
      var (normalized, inVoid) := NormalizeCeilingSplit(w, s[0], diagonal, isAnyWall);
      if inVoid then [] else [normalized] + NormalizeCeilingTail(w, s[1..], diagonal, isAnyWall)
  }

  /** The wall Normalize returns: QA and WS normalised; an extra list is left as is when its main split is in the void. */
  function NormalizedWall(w: SectorWall, diagonalFloorSplit: DiagonalSplit, diagonalCeilingSplit: DiagonalSplit, isAnyWall: bool): (r: SectorWall)
    ensures r.direction == w.direction && r.start == w.start && r.end == w.end
    ensures NormalizeFloorSplit(w, w.qa, diagonalFloorSplit, isAnyWall).1 ==> r.extraFloorSplits == w.extraFloorSplits
    ensures NormalizeCeilingSplit(w, w.ws, diagonalCeilingSplit, isAnyWall).1 ==> r.extraCeilingSplits == w.extraCeilingSplits
  {
    var (qa, qaInVoid) := NormalizeFloorSplit(w, w.qa, diagonalFloorSplit, isAnyWall);
    var (ws, wsInVoid) := NormalizeCeilingSplit(w, w.ws, diagonalCeilingSplit, isAnyWall);
    SectorWall(w.direction, w.start, w.end, qa, ws,
      if qaInVoid then w.extraFloorSplits else NormalizeFloorTail(w, w.extraFloorSplits, diagonalFloorSplit, isAnyWall),
      if wsInVoid then w.extraCeilingSplits else NormalizeCeilingTail(w, w.extraCeilingSplits, diagonalCeilingSplit, isAnyWall))
  }

  lemma ConsAssoc<T>(a: seq<T>, x: T, b: seq<T>)
    ensures (a + [x]) + b == a + ([x] + b)
  {
  }

  /** One step of the floor tail: the split at i either cuts the list or is kept, normalised, in front of the rest. */
  lemma {:induction false} FloorTailStep(w: SectorWall, s: seq<WallSplit>, i: nat, diagonal: DiagonalSplit, isAnyWall: bool)
    requires i < |s|
    ensures NormalizeFloorTail(w, s[i..], diagonal, isAnyWall) ==
      var (normalized, inVoid) := NormalizeFloorSplit(w, s[i], diagonal, isAnyWall);
      if inVoid then [] else [normalized] + NormalizeFloorTail(w, s[i + 1..], diagonal, isAnyWall)
  {
    assert s[i..][0] == s[i];
    assert s[i..][1..] == s[i + 1..];
  }

  /** One step of the ceiling tail: the split at i either cuts the list or is kept, normalised, in front of the rest. */
  lemma {:induction false} CeilingTailStep(w: SectorWall, s: seq<WallSplit>, i: nat, diagonal: DiagonalSplit, isAnyWall: bool)
    requires i < |s|
    ensures NormalizeCeilingTail(w, s[i..], diagonal, isAnyWall) ==
      var (normalized, inVoid) := NormalizeCeilingSplit(w, s[i], diagonal, isAnyWall);
      if inVoid then [] else [normalized] + NormalizeCeilingTail(w, s[i + 1..], diagonal, isAnyWall)
  {
    assert s[i..][0] == s[i];
    assert s[i..][1..] == s[i + 1..];
  }

  /** The extra-floor-split loop of SectorWall.Normalize: overwrites entries in place and cuts the list at its first split in the void. */
  method NormalizeExtraFloorSplits(w: SectorWall, diagonalFloorSplit: DiagonalSplit, isAnyWall: bool)
    returns (extraFloorSplits: seq<WallSplit>)
    ensures extraFloorSplits == NormalizeFloorTail(w, w.extraFloorSplits, diagonalFloorSplit, isAnyWall)
  {
    extraFloorSplits := w.extraFloorSplits;
    var i := 0;
    while i < |extraFloorSplits|
      invariant 0 <= i <= |extraFloorSplits| == |w.extraFloorSplits|
      invariant extraFloorSplits[i..] == w.extraFloorSplits[i..]
      invariant extraFloorSplits[..i] + NormalizeFloorTail(w, w.extraFloorSplits[i..], diagonalFloorSplit, isAnyWall)
        == NormalizeFloorTail(w, w.extraFloorSplits, diagonalFloorSplit, isAnyWall)
    {
      var (normalizedSplit, isFloorSplitInFloorVoid) := NormalizeFloorSplit(w, extraFloorSplits[i], diagonalFloorSplit, isAnyWall);
      FloorTailStep(w, w.extraFloorSplits, i, diagonalFloorSplit, isAnyWall);
      if isFloorSplitInFloorVoid {
        assert extraFloorSplits[..i] + [] == extraFloorSplits[..i];
        return extraFloorSplits[..i];
      }
      ghost var before := extraFloorSplits;
      extraFloorSplits := extraFloorSplits[i := normalizedSplit];
      assert extraFloorSplits[..i + 1] == before[..i] + [normalizedSplit];
      ConsAssoc(before[..i], normalizedSplit, NormalizeFloorTail(w, w.extraFloorSplits[i + 1..], diagonalFloorSplit, isAnyWall));
      assert extraFloorSplits[i + 1..] == before[i + 1..];
      i := i + 1;
    }
    assert extraFloorSplits[..i] == extraFloorSplits;
  }

  /** The extra-ceiling-split loop of SectorWall.Normalize. */
  method NormalizeExtraCeilingSplits(w: SectorWall, diagonalCeilingSplit: DiagonalSplit, isAnyWall: bool)
    returns (extraCeilingSplits: seq<WallSplit>)
    ensures extraCeilingSplits == NormalizeCeilingTail(w, w.extraCeilingSplits, diagonalCeilingSplit, isAnyWall)
  {
    extraCeilingSplits := w.extraCeilingSplits;
    var i := 0;
    while i < |extraCeilingSplits|
      invariant 0 <= i <= |extraCeilingSplits| == |w.extraCeilingSplits|
      invariant extraCeilingSplits[i..] == w.extraCeilingSplits[i..]
      invariant extraCeilingSplits[..i] + NormalizeCeilingTail(w, w.extraCeilingSplits[i..], diagonalCeilingSplit, isAnyWall)
        == NormalizeCeilingTail(w, w.extraCeilingSplits, diagonalCeilingSplit, isAnyWall)
    {
      var (normalizedSplit, isCeilingSplitInCeilingVoid) := NormalizeCeilingSplit(w, extraCeilingSplits[i], diagonalCeilingSplit, isAnyWall);
      CeilingTailStep(w, w.extraCeilingSplits, i, diagonalCeilingSplit, isAnyWall);
      if isCeilingSplitInCeilingVoid {
        assert extraCeilingSplits[..i] + [] == extraCeilingSplits[..i];
        return extraCeilingSplits[..i];
      }
      ghost var before := extraCeilingSplits;
      extraCeilingSplits := extraCeilingSplits[i := normalizedSplit];
      assert extraCeilingSplits[..i + 1] == before[..i] + [normalizedSplit];
      ConsAssoc(before[..i], normalizedSplit, NormalizeCeilingTail(w, w.extraCeilingSplits[i + 1..], diagonalCeilingSplit, isAnyWall));
      assert extraCeilingSplits[i + 1..] == before[i + 1..];
      i := i + 1;
    }
    assert extraCeilingSplits[..i] == extraCeilingSplits;
  }

  /** SectorWall.Normalize: a new wall with normalised QA, WS and extra split lists. */
  method Normalize(w: SectorWall, diagonalFloorSplit: DiagonalSplit, diagonalCeilingSplit: DiagonalSplit, isAnyWall: bool)
    returns (r: SectorWall)
    ensures r == NormalizedWall(w, diagonalFloorSplit, diagonalCeilingSplit, isAnyWall)
  {
    var (qa, isFloorSplitInFloorVoid) := NormalizeFloorSplit(w, w.qa, diagonalFloorSplit, isAnyWall);
    var (ws, isCeilingSplitInCeilingVoid) := NormalizeCeilingSplit(w, w.ws, diagonalCeilingSplit, isAnyWall);
    var extraFloorSplits := w.extraFloorSplits;
    var extraCeilingSplits := w.extraCeilingSplits;
    if !isFloorSplitInFloorVoid {
      extraFloorSplits := NormalizeExtraFloorSplits(w, diagonalFloorSplit, isAnyWall);
    }
    if !isCeilingSplitInCeilingVoid {
      extraCeilingSplits := NormalizeExtraCeilingSplits(w, diagonalCeilingSplit, isAnyWall);
    }
    r := SectorWall(w.direction, w.start, w.end, qa, ws, extraFloorSplits, extraCeilingSplits);
  }

  /** Normalisation never lengthens a split list. */
  lemma {:induction false} FloorTailNoLonger(w: SectorWall, s: seq<WallSplit>, diagonal: DiagonalSplit, isAnyWall: bool)
    ensures |NormalizeFloorTail(w, s, diagonal, isAnyWall)| <= |s|
  {
    if s != [] {
      FloorTailNoLonger(w, s[1..], diagonal, isAnyWall);
    }
  }

  lemma {:induction false} CeilingTailNoLonger(w: SectorWall, s: seq<WallSplit>, diagonal: DiagonalSplit, isAnyWall: bool)
    ensures |NormalizeCeilingTail(w, s, diagonal, isAnyWall)| <= |s|
  {
    if s != [] {
      CeilingTailNoLonger(w, s[1..], diagonal, isAnyWall);
    }
  }

  lemma NormalizeNeverLengthens(w: SectorWall, diagonalFloorSplit: DiagonalSplit, diagonalCeilingSplit: DiagonalSplit, isAnyWall: bool)
    ensures var r := NormalizedWall(w, diagonalFloorSplit, diagonalCeilingSplit, isAnyWall);
      |r.extraFloorSplits| <= |w.extraFloorSplits| && |r.extraCeilingSplits| <= |w.extraCeilingSplits|
  {
    FloorTailNoLonger(w, w.extraFloorSplits, diagonalFloorSplit, isAnyWall);
    CeilingTailNoLonger(w, w.extraCeilingSplits, diagonalCeilingSplit, isAnyWall);
  }

  /**
   * The first extra floor split found in the void is dropped with every split
   * after it; the splits before it are kept, each normalised.
   */
  lemma {:induction false} FloorTailCutAtFirstVoid(w: SectorWall, s: seq<WallSplit>, j: nat, diagonal: DiagonalSplit, isAnyWall: bool)
    requires j <= |s|
    requires j < |s| ==> NormalizeFloorSplit(w, s[j], diagonal, isAnyWall).1
    requires forall i :: 0 <= i < j ==> !NormalizeFloorSplit(w, s[i], diagonal, isAnyWall).1
    ensures |NormalizeFloorTail(w, s, diagonal, isAnyWall)| == j
    ensures forall i :: 0 <= i < j ==> NormalizeFloorTail(w, s, diagonal, isAnyWall)[i] == NormalizeFloorSplit(w, s[i], diagonal, isAnyWall).0
  {
    if j > 0 {
      assert !NormalizeFloorSplit(w, s[0], diagonal, isAnyWall).1;
      FloorTailCutAtFirstVoid(w, s[1..], j - 1, diagonal, isAnyWall);
      var tail := NormalizeFloorTail(w, s, diagonal, isAnyWall);
      assert tail == [NormalizeFloorSplit(w, s[0], diagonal, isAnyWall).0] + NormalizeFloorTail(w, s[1..], diagonal, isAnyWall);
      forall i | 0 <= i < j
        ensures tail[i] == NormalizeFloorSplit(w, s[i], diagonal, isAnyWall).0
      {
        if i > 0 {
          assert s[1..][i - 1] == s[i];
        }
      }
    }
  }

  lemma {:induction false} CeilingTailCutAtFirstVoid(w: SectorWall, s: seq<WallSplit>, j: nat, diagonal: DiagonalSplit, isAnyWall: bool)
    requires j <= |s|
    requires j < |s| ==> NormalizeCeilingSplit(w, s[j], diagonal, isAnyWall).1
    requires forall i :: 0 <= i < j ==> !NormalizeCeilingSplit(w, s[i], diagonal, isAnyWall).1
    ensures |NormalizeCeilingTail(w, s, diagonal, isAnyWall)| == j
    ensures forall i :: 0 <= i < j ==> NormalizeCeilingTail(w, s, diagonal, isAnyWall)[i] == NormalizeCeilingSplit(w, s[i], diagonal, isAnyWall).0
  {
    if j > 0 {
      assert !NormalizeCeilingSplit(w, s[0], diagonal, isAnyWall).1;
      CeilingTailCutAtFirstVoid(w, s[1..], j - 1, diagonal, isAnyWall);
      var tail := NormalizeCeilingTail(w, s, diagonal, isAnyWall);
      assert tail == [NormalizeCeilingSplit(w, s[0], diagonal, isAnyWall).0] + NormalizeCeilingTail(w, s[1..], diagonal, isAnyWall);
      forall i | 0 <= i < j
        ensures tail[i] == NormalizeCeilingSplit(w, s[i], diagonal, isAnyWall).0
      {
        if i > 0 {
          assert s[1..][i - 1] == s[i];
        }
      }
    }
  }
}
