/**
 * LegacyWallGeometry: the older wall-face derivation with a single extra split
 * per side (ED under QA on the floor part, RF over WS on the ceiling part).
 */
module LegacyWallGeometry {
  import W = Wrappers
  import opened SectorGeometry

  /** Whether a split crosses a line: one corner strictly above it and the other strictly below. */
  predicate Crosses(s: WallSplit, line: WallSplit) {
    (s.startY > line.startY && s.endY < line.endY) || (s.startY < line.startY && s.endY > line.endY)
  }

  /** A split crossing `line` is snapped onto it; the result never crosses the line. */
  function SnapCrossing(s: WallSplit, line: WallSplit): (r: WallSplit)
    ensures !Crosses(r, line)
    ensures r == s || r == line
    ensures !Crosses(s, line) ==> r == s
  {
    if Crosses(s, line) then line else s
  }

  // ---------------------------------------------------------------------------
  // Floor part.

  /** QA after the first adjustment, made for every face: at or above the ceiling at both corners, it becomes the ceiling. */
  function ClampedQa(w: SectorWall): (r: WallSplit)
    ensures w.qa.startY >= w.start.maxY && w.qa.endY >= w.end.maxY ==> r == Ceiling(w)
    ensures !(w.qa.startY >= w.start.maxY && w.qa.endY >= w.end.maxY) ==> r == w.qa
  {
    if w.qa.startY >= w.start.maxY && w.qa.endY >= w.end.maxY then Ceiling(w) else w.qa
  }

  /**
   * QA after the adjustments of the floor part: clamped to the ceiling when at
   * or above it at both corners, then, for walls, snapped onto the floor and
   * then onto the ceiling line where it crosses them.
   */
  function LegacyFloorQa(w: SectorWall, isAnyWall: bool): (r: WallSplit)
    ensures r == w.qa || r == Floor(w) || r == Ceiling(w)
    ensures w.qa.startY >= w.start.maxY && w.qa.endY >= w.end.maxY ==> r == Ceiling(w)
    ensures !isAnyWall ==> r == ClampedQa(w)
    ensures isAnyWall ==> !Crosses(r, Ceiling(w))
    ensures isAnyWall && !Crosses(Floor(w), Ceiling(w)) ==> !Crosses(r, Floor(w))
    // for walls: a QA crossing the floor snaps onto it, unless the floor itself crosses the ceiling
    ensures isAnyWall && Crosses(ClampedQa(w), Floor(w)) && !Crosses(Floor(w), Ceiling(w)) ==> r == Floor(w)
    ensures isAnyWall && Crosses(ClampedQa(w), Floor(w)) && Crosses(Floor(w), Ceiling(w)) ==> r == Ceiling(w)
    ensures isAnyWall && !Crosses(ClampedQa(w), Floor(w)) && Crosses(ClampedQa(w), Ceiling(w)) ==> r == Ceiling(w)
    ensures isAnyWall && !Crosses(ClampedQa(w), Floor(w)) && !Crosses(ClampedQa(w), Ceiling(w)) ==> r == ClampedQa(w)
  {
    var clamped := ClampedQa(w);
    if isAnyWall then SnapCrossing(SnapCrossing(clamped, Floor(w)), Ceiling(w)) else clamped
  }

  /** ED, the first extra floor split, is drawn when it lies between the floor and the adjusted QA at both corners and is not flush with the floor. */
  predicate EdVisible(w: SectorWall, isAnyWall: bool)
    requires |w.extraFloorSplits| > 0
  {
    var qa := LegacyFloorQa(w, isAnyWall);
    var ed := w.extraFloorSplits[0];
    ed.startY >= w.start.minY && ed.endY >= w.end.minY && qa.startY >= ed.startY && qa.endY >= ed.endY && ed != Floor(w)
  }

  /** The QA face's constructor arguments: from the adjusted QA down to ED when ED is drawn, else down to the floor. */
  function LegacyQaFaceArgs(w: SectorWall, isAnyWall: bool): FaceArgs
    requires |w.extraFloorSplits| > 0
  {
    Args(w, QaFace(w.direction), LegacyFloorQa(w, isAnyWall), if EdVisible(w, isAnyWall) then w.extraFloorSplits[0] else Floor(w))
  }

  function LegacyEdFaceArgs(w: SectorWall): FaceArgs
    requires |w.extraFloorSplits| > 0
  {
    Args(w, ExtraFloorSplitFace(w.direction, 0), w.extraFloorSplits[0], Floor(w))
  }

  /** The faces of the floor part: none when the adjusted QA is flush with the floor, else the QA face then the ED face. */
  function LegacyFloorFaces<F>(w: SectorWall, isAnyWall: bool, create: FaceArgs -> W.Option<F>): seq<F>
    requires |w.extraFloorSplits| > 0
  {
    if LegacyFloorQa(w, isAnyWall) == Floor(w) then []
    else OptionToSeq(create(LegacyQaFaceArgs(w, isAnyWall))) +
         (if EdVisible(w, isAnyWall) then OptionToSeq(create(LegacyEdFaceArgs(w))) else [])
  }

  /** LegacyWallGeometry.GetVerticalFloorPartFaces. */
  method GetVerticalFloorPartFaces<F>(w: SectorWall, isAnyWall: bool, create: FaceArgs -> W.Option<F>) returns (result: seq<F>)
    requires |w.extraFloorSplits| > 0
    ensures result == LegacyFloorFaces(w, isAnyWall, create)
  {
    result := [];
    var edVisible := false;
    var yQaA, yQaB := w.qa.startY, w.qa.endY;
    var yFloorA, yFloorB := w.start.minY, w.end.minY;
    var yCeilingA, yCeilingB := w.start.maxY, w.end.maxY;
    var yEdA, yEdB := w.extraFloorSplits[0].startY, w.extraFloorSplits[0].endY;

    if yQaA >= yCeilingA && yQaB >= yCeilingB {
      yQaA, yQaB := yCeilingA, yCeilingB;
    }
    if isAnyWall {
      if (yQaA > yFloorA && yQaB < yFloorB) || (yQaA < yFloorA && yQaB > yFloorB) {
        yQaA, yQaB := yFloorA, yFloorB;
      }
      if (yQaA > yCeilingA && yQaB < yCeilingB) || (yQaA < yCeilingA && yQaB > yCeilingB) {
        yQaA, yQaB := yCeilingA, yCeilingB;
      }
    }
    assert WallSplit(yQaA, yQaB) == LegacyFloorQa(w, isAnyWall);
    if yQaA == yFloorA && yQaB == yFloorB {
      return;
    }

    var yA, yB := yFloorA, yFloorB;
    if yEdA >= yA && yEdB >= yB && yQaA >= yEdA && yQaB >= yEdB && !(yEdA == yA && yEdB == yB) {
      edVisible := true;
      yA, yB := yEdA, yEdB;
    }
    assert edVisible == EdVisible(w, isAnyWall);

    var qaFaceData := create(Args(w, QaFace(w.direction), WallSplit(yQaA, yQaB), WallSplit(yA, yB)));
    assert qaFaceData == create(LegacyQaFaceArgs(w, isAnyWall));
    if qaFaceData.Some? {
      result := result + [qaFaceData.value];
    }
    assert result == OptionToSeq(create(LegacyQaFaceArgs(w, isAnyWall)));
    if edVisible {
      var edFaceData := create(Args(w, ExtraFloorSplitFace(w.direction, 0), WallSplit(yEdA, yEdB), WallSplit(yFloorA, yFloorB)));
      assert edFaceData == create(LegacyEdFaceArgs(w));
      if edFaceData.Some? {
        result := result + [edFaceData.value];
      }
    }
  }

  /**
   * At most two faces, QA's first; none when the adjusted QA is flush with the
   * floor; a second face only when ED is drawn, and then ED is the bottom of the
   * QA face and the top of the second one.
   */
  lemma LegacyFloorFacesShape<F>(w: SectorWall, isAnyWall: bool, create: FaceArgs -> W.Option<F>)
    requires |w.extraFloorSplits| > 0
    ensures var faces := LegacyFloorFaces(w, isAnyWall, create);
      |faces| <= 2 &&
      (LegacyFloorQa(w, isAnyWall) == Floor(w) ==> faces == []) &&
      (|faces| == 2 ==>
        EdVisible(w, isAnyWall) &&
        LegacyQaFaceArgs(w, isAnyWall).yEnd == w.extraFloorSplits[0] &&
        faces[0] == create(LegacyQaFaceArgs(w, isAnyWall)).value &&
        faces[1] == create(LegacyEdFaceArgs(w)).value) &&
      (|faces| >= 1 && create(LegacyQaFaceArgs(w, isAnyWall)).Some? ==> faces[0] == create(LegacyQaFaceArgs(w, isAnyWall)).value)
  {
  }

  /** When drawn, ED lies on or above the floor and on or below the adjusted QA at both corners, and is above the floor at some corner. */
  lemma EdBetweenFloorAndQa(w: SectorWall, isAnyWall: bool)
    requires |w.extraFloorSplits| > 0
    requires EdVisible(w, isAnyWall)
    ensures var ed := w.extraFloorSplits[0];
      w.start.minY <= ed.startY <= LegacyFloorQa(w, isAnyWall).startY &&
      w.end.minY <= ed.endY <= LegacyFloorQa(w, isAnyWall).endY &&
      (ed.startY > w.start.minY || ed.endY > w.end.minY)
  {
  }

  // ---------------------------------------------------------------------------
  // Ceiling part.

  /** WS after the first adjustment, made for every face: at or below the floor at both corners, it becomes the floor. */
  function ClampedWs(w: SectorWall): (r: WallSplit)
    ensures w.ws.startY <= w.start.minY && w.ws.endY <= w.end.minY ==> r == Floor(w)
    ensures !(w.ws.startY <= w.start.minY && w.ws.endY <= w.end.minY) ==> r == w.ws
  {
    if w.ws.startY <= w.start.minY && w.ws.endY <= w.end.minY then Floor(w) else w.ws
  }

  /** WS after the adjustments of the ceiling part: the mirror of LegacyFloorQa, snapping onto the ceiling first and then onto the floor. */
  function LegacyCeilingWs(w: SectorWall, isAnyWall: bool): (r: WallSplit)
    ensures r == w.ws || r == Floor(w) || r == Ceiling(w)
    ensures w.ws.startY <= w.start.minY && w.ws.endY <= w.end.minY ==> r == Floor(w)
    ensures !isAnyWall ==> r == ClampedWs(w)
    ensures isAnyWall ==> !Crosses(r, Floor(w))
    ensures isAnyWall && !Crosses(Ceiling(w), Floor(w)) ==> !Crosses(r, Ceiling(w))
    // for walls: a WS crossing the ceiling snaps onto it, unless the ceiling itself crosses the floor
    ensures isAnyWall && Crosses(ClampedWs(w), Ceiling(w)) && !Crosses(Ceiling(w), Floor(w)) ==> r == Ceiling(w)
    ensures isAnyWall && Crosses(ClampedWs(w), Ceiling(w)) && Crosses(Ceiling(w), Floor(w)) ==> r == Floor(w)
    ensures isAnyWall && !Crosses(ClampedWs(w), Ceiling(w)) && Crosses(ClampedWs(w), Floor(w)) ==> r == Floor(w)
    ensures isAnyWall && !Crosses(ClampedWs(w), Ceiling(w)) && !Crosses(ClampedWs(w), Floor(w)) ==> r == ClampedWs(w)
  {
    var clamped := ClampedWs(w);
    if isAnyWall then SnapCrossing(SnapCrossing(clamped, Ceiling(w)), Floor(w)) else clamped
  }

  predicate RfVisible(w: SectorWall, isAnyWall: bool)
    requires |w.extraCeilingSplits| > 0
  {
    var ws := LegacyCeilingWs(w, isAnyWall);
    var rf := w.extraCeilingSplits[0];
    rf.startY <= w.start.maxY && rf.endY <= w.end.maxY && ws.startY <= rf.startY && ws.endY <= rf.endY && rf != Ceiling(w)
  }

  function LegacyWsFaceArgs(w: SectorWall, isAnyWall: bool): FaceArgs
    requires |w.extraCeilingSplits| > 0
  {
    Args(w, WsFace(w.direction), LegacyCeilingWs(w, isAnyWall), if RfVisible(w, isAnyWall) then w.extraCeilingSplits[0] else Ceiling(w))
  }

  function LegacyRfFaceArgs(w: SectorWall): FaceArgs
    requires |w.extraCeilingSplits| > 0
  {
    Args(w, ExtraCeilingSplitFace(w.direction, 0), w.extraCeilingSplits[0], Ceiling(w))
  }

  function LegacyCeilingFaces<F>(w: SectorWall, isAnyWall: bool, create: FaceArgs -> W.Option<F>): seq<F>
    requires |w.extraCeilingSplits| > 0
  {
    if LegacyCeilingWs(w, isAnyWall) == Ceiling(w) then []
    else OptionToSeq(create(LegacyWsFaceArgs(w, isAnyWall))) +
         (if RfVisible(w, isAnyWall) then OptionToSeq(create(LegacyRfFaceArgs(w))) else [])
  }

  /** LegacyWallGeometry.GetVerticalCeilingPartFaces. */
  method GetVerticalCeilingPartFaces<F>(w: SectorWall, isAnyWall: bool, create: FaceArgs -> W.Option<F>) returns (result: seq<F>)
    requires |w.extraCeilingSplits| > 0
    ensures result == LegacyCeilingFaces(w, isAnyWall, create)
  {
    result := [];
    var rfVisible := false;
    var yWsA, yWsB := w.ws.startY, w.ws.endY;
    var yFloorA, yFloorB := w.start.minY, w.end.minY;
    var yCeilingA, yCeilingB := w.start.maxY, w.end.maxY;
    var yRfA, yRfB := w.extraCeilingSplits[0].startY, w.extraCeilingSplits[0].endY;

    if yWsA <= yFloorA && yWsB <= yFloorB {
      yWsA, yWsB := yFloorA, yFloorB;
    }
    if isAnyWall {
      if (yWsA > yCeilingA && yWsB < yCeilingB) || (yWsA < yCeilingA && yWsB > yCeilingB) {
        yWsA, yWsB := yCeilingA, yCeilingB;
      }
      if (yWsA > yFloorA && yWsB < yFloorB) || (yWsA < yFloorA && yWsB > yFloorB) {
        yWsA, yWsB := yFloorA, yFloorB;
      }
    }
    assert WallSplit(yWsA, yWsB) == LegacyCeilingWs(w, isAnyWall);
    if yWsA == yCeilingA && yWsB == yCeilingB {
      return;
    }

    var yA, yB := yCeilingA, yCeilingB;
    if yRfA <= yA && yRfB <= yB && yWsA <= yRfA && yWsB <= yRfB && !(yRfA == yA && yRfB == yB) {
      rfVisible := true;
      yA, yB := yRfA, yRfB;
    }
    assert rfVisible == RfVisible(w, isAnyWall);

    var wsFaceData := create(Args(w, WsFace(w.direction), WallSplit(yWsA, yWsB), WallSplit(yA, yB)));
    assert wsFaceData == create(LegacyWsFaceArgs(w, isAnyWall));
    if wsFaceData.Some? {
      result := result + [wsFaceData.value];
    }
    assert result == OptionToSeq(create(LegacyWsFaceArgs(w, isAnyWall)));
    if rfVisible {
      var rfFaceData := create(Args(w, ExtraCeilingSplitFace(w.direction, 0), WallSplit(yRfA, yRfB), WallSplit(yCeilingA, yCeilingB)));
      assert rfFaceData == create(LegacyRfFaceArgs(w));
      if rfFaceData.Some? {
        result := result + [rfFaceData.value];
      }
    }
  }

  lemma LegacyCeilingFacesShape<F>(w: SectorWall, isAnyWall: bool, create: FaceArgs -> W.Option<F>)
    requires |w.extraCeilingSplits| > 0
    ensures var faces := LegacyCeilingFaces(w, isAnyWall, create);
      |faces| <= 2 &&
      (LegacyCeilingWs(w, isAnyWall) == Ceiling(w) ==> faces == []) &&
      (|faces| == 2 ==>
        RfVisible(w, isAnyWall) &&
        LegacyWsFaceArgs(w, isAnyWall).yEnd == w.extraCeilingSplits[0] &&
        faces[0] == create(LegacyWsFaceArgs(w, isAnyWall)).value &&
        faces[1] == create(LegacyRfFaceArgs(w)).value) &&
      (|faces| >= 1 && create(LegacyWsFaceArgs(w, isAnyWall)).Some? ==> faces[0] == create(LegacyWsFaceArgs(w, isAnyWall)).value)
  {
  }

  lemma RfBetweenWsAndCeiling(w: SectorWall, isAnyWall: bool)
    requires |w.extraCeilingSplits| > 0
    requires RfVisible(w, isAnyWall)
    ensures var rf := w.extraCeilingSplits[0];
      LegacyCeilingWs(w, isAnyWall).startY <= rf.startY <= w.start.maxY &&
      LegacyCeilingWs(w, isAnyWall).endY <= rf.endY <= w.end.maxY &&
      (rf.startY < w.start.maxY || rf.endY < w.end.maxY)
  {
  }

  // ---------------------------------------------------------------------------
  // Middle face.

  /**
   * The middle face's constructor arguments. WS is capped at the ceiling and QA
   * raised to the floor corner by corner; the bottom pair is passed with QA's
   * end corner first and its start corner second.
   */
  function LegacyMiddleFaceArgs(w: SectorWall): (r: FaceArgs)
    ensures r.identifier == MiddleFace(w.direction)
    ensures r.yEnd.startY <= w.start.maxY && r.yEnd.endY <= w.end.maxY
    ensures r.yStart.startY >= w.end.minY && r.yStart.endY >= w.start.minY
    ensures r.yStart.startY == w.qa.endY || r.yStart.startY == w.end.minY
    ensures r.yStart.endY == w.qa.startY || r.yStart.endY == w.start.minY
  {
    var yA := if w.ws.startY >= w.start.maxY then w.start.maxY else w.ws.startY;
    var yB := if w.ws.endY >= w.end.maxY then w.end.maxY else w.ws.endY;
    var yD := if w.qa.startY <= w.start.minY then w.start.minY else w.qa.startY;
    var yC := if w.qa.endY <= w.end.minY then w.end.minY else w.qa.endY;
    Args(w, MiddleFace(w.direction), WallSplit(yC, yD), WallSplit(yA, yB))
  }

  /** LegacyWallGeometry.GetVerticalMiddlePartFace. */
  function GetVerticalMiddlePartFace<F>(w: SectorWall, create: FaceArgs -> W.Option<F>): W.Option<F> {
    create(LegacyMiddleFaceArgs(w))
  }

  /**
   * For a wall whose QA and WS lie within floor and ceiling at both corners, the
   * legacy middle face has the same top as SectorWall's and the same bottom
   * with its two corners exchanged.
   */
  lemma LegacyMiddleSwapsBottomCorners(w: SectorWall)
    requires w.qa.startY >= w.start.minY && w.qa.endY >= w.end.minY
    requires w.ws.startY <= w.start.maxY && w.ws.endY <= w.end.maxY
    ensures LegacyMiddleFaceArgs(w).yEnd == MiddleFaceArgs(w).yEnd
    ensures LegacyMiddleFaceArgs(w).yStart == WallSplit(MiddleFaceArgs(w).yStart.endY, MiddleFaceArgs(w).yStart.startY)
  {
  }
}
