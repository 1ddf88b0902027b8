/**
 * The integer point and rectangle algebra and the search helpers of the editor's
 * Utils class. A rectangle is read as (left, top, right, bottom); X and Y are
 * its left and top edges.
 */
module EditorUtils {
  import W = Wrappers
  import opened Bits

  datatype Point = Point(x: int, y: int)

  datatype Rectangle = Rectangle(left: int, top: int, right: int, bottom: int)

  function Max(a: int, b: int): int { if a >= b then a else b }

  function Min(a: int, b: int): int { if a <= b then a else b }

  /** Componentwise maximum of two points (Utils.Max on Point). */
  function PointMax(p0: Point, p1: Point): (r: Point)
    ensures r.x >= p0.x && r.x >= p1.x && (r.x == p0.x || r.x == p1.x)
    ensures r.y >= p0.y && r.y >= p1.y && (r.y == p0.y || r.y == p1.y)
  {
    Point(Max(p0.x, p1.x), Max(p0.y, p1.y))
  }

  /** Componentwise minimum of two points (Utils.Min on Point). */
  function PointMin(p0: Point, p1: Point): (r: Point)
    ensures r.x <= p0.x && r.x <= p1.x && (r.x == p0.x || r.x == p1.x)
    ensures r.y <= p0.y && r.y <= p1.y && (r.y == p0.y || r.y == p1.y)
  {
    Point(Min(p0.x, p1.x), Min(p0.y, p1.y))
  }

  /** Whether `area` contains `other`: its left/top edges at or before, its right/bottom edges at or after. */
  predicate Contains(area: Rectangle, other: Rectangle) {
    area.left <= other.left && area.right >= other.right && area.top <= other.top && area.bottom >= other.bottom
  }

  /** Whether the two rectangles touch or overlap; edges count as inside. */
  predicate Intersects(area: Rectangle, other: Rectangle) {
    area.left <= other.right && area.right >= other.left && area.top <= other.bottom && area.bottom >= other.top
  }

  /** A rectangle whose right/bottom edges are not before its left/top edges. */
  predicate Normalized(r: Rectangle) {
    r.left <= r.right && r.top <= r.bottom
  }

  function Intersect(area: Rectangle, other: Rectangle): (r: Rectangle)
    ensures Contains(area, r) && Contains(other, r)
  {
    Rectangle(Max(area.left, other.left), Max(area.top, other.top), Min(area.right, other.right), Min(area.bottom, other.bottom))
  }

  function Union(area: Rectangle, other: Rectangle): (r: Rectangle)
    ensures Contains(r, area) && Contains(r, other)
  {
    Rectangle(Min(area.left, other.left), Min(area.top, other.top), Max(area.right, other.right), Max(area.bottom, other.bottom))
  }

  /** The intersection is the largest rectangle contained in both operands. */
  lemma IntersectIsGreatest(area: Rectangle, other: Rectangle, c: Rectangle)
    ensures Contains(area, c) && Contains(other, c) <==> Contains(Intersect(area, other), c)
  {
  }

  /** The union is the smallest rectangle containing both operands. */
  lemma UnionIsLeast(area: Rectangle, other: Rectangle, c: Rectangle)
    ensures Contains(c, area) && Contains(c, other) <==> Contains(c, Union(area, other))
  {
  }

  lemma IntersectsSymmetric(area: Rectangle, other: Rectangle)
    ensures Intersects(area, other) <==> Intersects(other, area)
  {
  }

  /** Two normalised rectangles intersect exactly when their intersection is normalised. */
  lemma IntersectsIffIntersectionNormalized(area: Rectangle, other: Rectangle)
    requires Normalized(area) && Normalized(other)
    ensures Intersects(area, other) <==> Normalized(Intersect(area, other))
  {
  }

  /** A point whose coordinates are C# ints. */
  predicate PointInt32(p: Point) {
    InInt32(p.x) && InInt32(p.y)
  }

  /** A rectangle whose edges are C# ints. */
  predicate RectInt32(r: Rectangle) {
    InInt32(r.left) && InInt32(r.top) && InInt32(r.right) && InInt32(r.bottom)
  }

  /** The width and height as C# computes them: right - left and bottom - top in int arithmetic. */
  function Width(r: Rectangle): int { Int32(r.right - r.left) }

  function Height(r: Rectangle): int { Int32(r.bottom - r.top) }

  /**
   * basePoint + p. The C# sums are unchecked ints: a coordinate whose sum
   * leaves the int range wraps around.
   */
  function OffsetPoint(basePoint: Point, p: Point): (r: Point)
    ensures PointInt32(r)
    ensures InInt32(basePoint.x + p.x) ==> r.x - p.x == basePoint.x
    ensures InInt32(basePoint.y + p.y) ==> r.y - p.y == basePoint.y
    ensures Congruent32(r.x - p.x, basePoint.x) && Congruent32(r.y - p.y, basePoint.y)
  {
    Point(Int32(basePoint.x + p.x), Int32(basePoint.y + p.y))
  }

  /** basePoint - p, wrapping like OffsetPoint. */
  function OffsetNegPoint(basePoint: Point, p: Point): (r: Point)
    ensures PointInt32(r)
    ensures InInt32(basePoint.x - p.x) ==> r.x + p.x == basePoint.x
    ensures InInt32(basePoint.y - p.y) ==> r.y + p.y == basePoint.y
    ensures Congruent32(r.x + p.x, basePoint.x) && Congruent32(r.y + p.y, basePoint.y)
  {
    Point(Int32(basePoint.x - p.x), Int32(basePoint.y - p.y))
  }

  /** Whether moving every edge of the rectangle by d keeps it in the int range. */
  predicate ShiftFits(area: Rectangle, dx: int, dy: int) {
    InInt32(area.left + dx) && InInt32(area.right + dx) && InInt32(area.top + dy) && InInt32(area.bottom + dy)
  }

  /** Moves the rectangle by p; without wrap-around it lies exactly p further on. */
  function Offset(area: Rectangle, p: Point): (r: Rectangle)
    ensures RectInt32(r)
    ensures ShiftFits(area, p.x, p.y) ==>
      r.right - r.left == area.right - area.left && r.bottom - r.top == area.bottom - area.top &&
      r.left == area.left + p.x && r.top == area.top + p.y
  {
    Rectangle(Int32(area.left + p.x), Int32(area.top + p.y), Int32(area.right + p.x), Int32(area.bottom + p.y))
  }

  /** Moves the rectangle by -p, wrapping like Offset. */
  function OffsetNeg(area: Rectangle, p: Point): (r: Rectangle)
    ensures RectInt32(r)
    ensures ShiftFits(area, -p.x, -p.y) ==>
      r.right - r.left == area.right - area.left && r.bottom - r.top == area.bottom - area.top &&
      r.left == area.left - p.x && r.top == area.top - p.y
  {
    Rectangle(Int32(area.left - p.x), Int32(area.top - p.y), Int32(area.right - p.x), Int32(area.bottom - p.y))
  }

  /** Moving a rectangle keeps its int width and height, even when an edge wraps. */
  lemma OffsetKeepsSize(area: Rectangle, p: Point)
    ensures Width(Offset(area, p)) == Width(area) && Height(Offset(area, p)) == Height(area)
    ensures Width(OffsetNeg(area, p)) == Width(area) && Height(OffsetNeg(area, p)) == Height(area)
  {
    OffsetSize(area, p);
    OffsetNegSize(area, p);
  }

  lemma OffsetSize(area: Rectangle, p: Point)
    ensures Width(Offset(area, p)) == Width(area) && Height(Offset(area, p)) == Height(area)
  {
    var there := Offset(area, p);
    WrappedDifference(area.right + p.x, area.left + p.x, area.right - area.left, there.right, there.left);
    WrappedDifference(area.bottom + p.y, area.top + p.y, area.bottom - area.top, there.bottom, there.top);
  }

  lemma OffsetNegSize(area: Rectangle, p: Point)
    ensures Width(OffsetNeg(area, p)) == Width(area) && Height(OffsetNeg(area, p)) == Height(area)
  {
    var back := OffsetNeg(area, p);
    WrappedDifference(area.right - p.x, area.left - p.x, area.right - area.left, back.right, back.left);
    WrappedDifference(area.bottom - p.y, area.top - p.y, area.bottom - area.top, back.bottom, back.top);
  }

  /**
   * OffsetNeg undoes Offset and Offset undoes OffsetNeg, for points and for
   * rectangles of C# ints, wrap-around included.
   */
  lemma OffsetRoundTrip(basePoint: Point, area: Rectangle, p: Point)
    requires PointInt32(basePoint) && RectInt32(area)
    ensures OffsetNegPoint(OffsetPoint(basePoint, p), p) == basePoint
    ensures OffsetPoint(OffsetNegPoint(basePoint, p), p) == basePoint
    ensures OffsetNeg(Offset(area, p), p) == area
    ensures Offset(OffsetNeg(area, p), p) == area
  {
    PointRoundTrip(basePoint, p);
    RectangleRoundTrip(area, p);
  }

  lemma PointRoundTrip(basePoint: Point, p: Point)
    requires PointInt32(basePoint)
    ensures OffsetNegPoint(OffsetPoint(basePoint, p), p) == basePoint
    ensures OffsetPoint(OffsetNegPoint(basePoint, p), p) == basePoint
  {
    PointOffsetThenBack(basePoint, p);
    PointBackThenOffset(basePoint, p);
  }

  lemma PointOffsetThenBack(basePoint: Point, p: Point)
    requires PointInt32(basePoint)
    ensures OffsetNegPoint(OffsetPoint(basePoint, p), p) == basePoint
  {
    var there := OffsetPoint(basePoint, p);
    AddThenSubtract(basePoint.x, p.x, there.x);
    AddThenSubtract(basePoint.y, p.y, there.y);
  }

  lemma PointBackThenOffset(basePoint: Point, p: Point)
    requires PointInt32(basePoint)
    ensures OffsetPoint(OffsetNegPoint(basePoint, p), p) == basePoint
  {
    var back := OffsetNegPoint(basePoint, p);
    SubtractThenAdd(basePoint.x, p.x, back.x);
    SubtractThenAdd(basePoint.y, p.y, back.y);
  }

  lemma RectangleRoundTrip(area: Rectangle, p: Point)
    requires RectInt32(area)
    ensures OffsetNeg(Offset(area, p), p) == area
    ensures Offset(OffsetNeg(area, p), p) == area
  {
    OffsetThenBack(area, p);
    BackThenOffset(area, p);
  }

  lemma OffsetThenBack(area: Rectangle, p: Point)
    requires RectInt32(area)
    ensures OffsetNeg(Offset(area, p), p) == area
  {
    var there := Offset(area, p);
    AddThenSubtract(area.left, p.x, there.left);
    AddThenSubtract(area.top, p.y, there.top);
    AddThenSubtract(area.right, p.x, there.right);
    AddThenSubtract(area.bottom, p.y, there.bottom);
  }

  lemma BackThenOffset(area: Rectangle, p: Point)
    requires RectInt32(area)
    ensures Offset(OffsetNeg(area, p), p) == area
  {
    var back := OffsetNeg(area, p);
    SubtractThenAdd(area.left, p.x, back.left);
    SubtractThenAdd(area.top, p.y, back.top);
    SubtractThenAdd(area.right, p.x, back.right);
    SubtractThenAdd(area.bottom, p.y, back.bottom);
  }

  /** Whether moving the left/top edges by -x/-y and the right/bottom edges by x/y keeps them in the int range. */
  predicate InflateFits(area: Rectangle, x: int, y: int) {
    InInt32(area.left - x) && InInt32(area.right + x) && InInt32(area.top - y) && InInt32(area.bottom + y)
  }

  /**
   * Moves the left/right edges outward by x and the top/bottom edges by y;
   * only without wrap-around does a non-negative inflation contain the
   * original.
   */
  function InflateXY(area: Rectangle, x: int, y: int): (r: Rectangle)
    ensures RectInt32(r)
    ensures InflateFits(area, x, y) ==>
      r.right - r.left == area.right - area.left + 2 * x && r.bottom - r.top == area.bottom - area.top + 2 * y
    ensures InflateFits(area, x, y) && x >= 0 && y >= 0 ==> Contains(r, area)
    ensures InflateFits(area, x, y) && x <= 0 && y <= 0 ==> Contains(area, r)
  {
    Rectangle(Int32(area.left - x), Int32(area.top - y), Int32(area.right + x), Int32(area.bottom + y))
  }

  /** Moves every edge outward by width, wrapping like InflateXY. */
  function Inflate(area: Rectangle, width: int): (r: Rectangle)
    ensures RectInt32(r)
    ensures InflateFits(area, width, width) ==>
      r.right - r.left == area.right - area.left + 2 * width && r.bottom - r.top == area.bottom - area.top + 2 * width
    ensures InflateFits(area, width, width) && width >= 0 ==> Contains(r, area)
  {
    Rectangle(Int32(area.left - width), Int32(area.top - width), Int32(area.right + width), Int32(area.bottom + width))
  }

  /** Inflating grows the int width by 2x and the height by 2y, even when an edge wraps. */
  lemma InflateGrowsSize(area: Rectangle, x: int, y: int)
    ensures Width(InflateXY(area, x, y)) == Int32(area.right - area.left + 2 * x)
    ensures Height(InflateXY(area, x, y)) == Int32(area.bottom - area.top + 2 * y)
  {
    var r := InflateXY(area, x, y);
    WrappedDifference(area.right + x, area.left - x, area.right - area.left + 2 * x, r.right, r.left);
    WrappedDifference(area.bottom + y, area.top - y, area.bottom - area.top + 2 * y, r.bottom, r.top);
  }

  lemma InflateIsInflateXY(area: Rectangle, width: int)
    ensures Inflate(area, width) == InflateXY(area, width, width)
  {
  }

  /**
   * With wrap-around a positive inflation need not contain the original:
   * the left edge int.MinValue moved out by one wraps to int.MaxValue.
   */
  lemma InflateWrapsAtMinValue()
    ensures var area := Rectangle(-0x8000_0000, 0, 0, 0);
      Inflate(area, 1).left == 0x7FFF_FFFF && !Contains(Inflate(area, 1), area)
  {
  }

  /**
   * Utils.ReferenceIndexOf: the first index holding the needle, or -1 for a
   * null needle or one not in the list. Elements of T compare by identity.
   */
  method ReferenceIndexOf<T(==)>(list: seq<T>, needle: W.Option<T>) returns (index: int)
    ensures needle.None? ==> index == -1
    ensures needle.Some? && needle.value !in list ==> index == -1
    ensures needle.Some? && needle.value in list ==>
      0 <= index < |list| && list[index] == needle.value && needle.value !in list[..index]
  {
    if needle.None? {
      return -1;
    }
    var i := 0;
    while i < |list|
      invariant 0 <= i <= |list|
      invariant needle.value !in list[..i]
    {
      if list[i] == needle.value {
        return i;
      }
      i := i + 1;
    }
    assert list[..i] == list;
    return -1;
  }

  function TryGetOrDefault<K, V>(m: map<K, V>, key: K, default: V): (r: V)
    ensures key in m ==> r == m[key]
    ensures key !in m ==> r == default
  {
    if key in m then m[key] else default
  }

  /** Utils.TryGet on a one-dimensional array: null out of range, the element otherwise. */
  function TryGet<T>(a: array<W.Option<T>>, index0: int): (r: W.Option<T>)
    reads a
    ensures 0 <= index0 < a.Length ==> r == a[index0]
    ensures !(0 <= index0 < a.Length) ==> r.None?
  {
    if index0 < 0 || index0 >= a.Length then W.None else a[index0]
  }

  function TryGet2D<T>(a: array2<W.Option<T>>, index0: int, index1: int): (r: W.Option<T>)
    reads a
    ensures 0 <= index0 < a.Length0 && 0 <= index1 < a.Length1 ==> r == a[index0, index1]
    ensures !(0 <= index0 < a.Length0 && 0 <= index1 < a.Length1) ==> r.None?
  {
    if index0 < 0 || index0 >= a.Length0 then W.None
    else if index1 < 0 || index1 >= a.Length1 then W.None
    else a[index0, index1]
  }

  function TryGet3D<T>(a: array3<W.Option<T>>, index0: int, index1: int, index2: int): (r: W.Option<T>)
    reads a
    ensures 0 <= index0 < a.Length0 && 0 <= index1 < a.Length1 && 0 <= index2 < a.Length2 ==> r == a[index0, index1, index2]
    ensures !(0 <= index0 < a.Length0 && 0 <= index1 < a.Length1 && 0 <= index2 < a.Length2) ==> r.None?
  {
    if index0 < 0 || index0 >= a.Length0 then W.None
    else if index1 < 0 || index1 >= a.Length1 then W.None
    else if index2 < 0 || index2 >= a.Length2 then W.None
    else a[index0, index1, index2]
  }

  /** The first index at or after `from` whose element satisfies p, if any. */
  function FirstIndexFrom<T>(list: seq<T>, p: T -> bool, from: nat): (r: W.Option<nat>)
    decreases |list| - from
    ensures r.Some? ==> from <= r.value < |list| && p(list[r.value])
    ensures r.Some? ==> forall j :: from <= j < r.value ==> !p(list[j])
    ensures r.None? ==> forall j :: from <= j < |list| ==> !p(list[j])
  {
    if from >= |list| then W.None
    else if p(list[from]) then W.Some(from)
    else FirstIndexFrom(list, p, from + 1)
  }

  /**
   * What FindFirstAfterWithWrapAround returns: the first match strictly after
   * the first element satisfying isPrevious, else the first match anywhere,
   * else nothing.
   */
  function FirstAfterWithWrapAround<T>(list: seq<T>, isPrevious: T -> bool, matches: T -> bool): W.Option<T> {
    var previous := FirstIndexFrom(list, isPrevious, 0);
    var after := if previous.Some? then FirstIndexFrom(list, matches, previous.value + 1) else W.None;
    if after.Some? then W.Some(list[after.value])
    else
      var any := FirstIndexFrom(list, matches, 0);
      if any.Some? then W.Some(list[any.value]) else W.None
  }

  /** Utils.FindFirstAfterWithWrapAround: a pass that ignores matches until isPrevious holds, then a pass over the whole list. */
  method FindFirstAfterWithWrapAround<T>(list: seq<T>, isPrevious: T -> bool, matches: T -> bool) returns (r: W.Option<T>)
    ensures r == FirstAfterWithWrapAround(list, isPrevious, matches)
  {
    var ignoreMatches := true;
    var i := 0;
    while i < |list|
      invariant 0 <= i <= |list|
      invariant ignoreMatches <==> FirstIndexFrom(list, isPrevious, 0) == FirstIndexFrom(list, isPrevious, i)
      invariant !ignoreMatches ==> (FirstIndexFrom(list, isPrevious, 0).value < i &&
        FirstIndexFrom(list, matches, FirstIndexFrom(list, isPrevious, 0).value + 1) == FirstIndexFrom(list, matches, i))
    {
      var obj := list[i];
      if ignoreMatches {
        if isPrevious(obj) {
          ignoreMatches := false;
        }
      } else if matches(obj) {
        return W.Some(obj);
      }
      i := i + 1;
    }
    i := 0;
    while i < |list|
      invariant 0 <= i <= |list|
      invariant FirstIndexFrom(list, matches, 0) == FirstIndexFrom(list, matches, i)
    {
      var obj := list[i];
      if matches(obj) {
        return W.Some(obj);
      }
      i := i + 1;
    }
    return W.None;
  }

  /** A match after the previous element is preferred to an earlier one; without a previous element the first match is returned. */
  lemma FirstAfterWithWrapAroundPrefers<T>(list: seq<T>, isPrevious: T -> bool, matches: T -> bool)
    ensures var r := FirstAfterWithWrapAround(list, isPrevious, matches);
      (r.None? <==> forall j :: 0 <= j < |list| ==> !matches(list[j])) &&
      (r.Some? ==> matches(r.value) && r.value in list) &&
      ((forall j :: 0 <= j < |list| ==> !isPrevious(list[j])) && FirstIndexFrom(list, matches, 0).Some? ==>
        r == W.Some(list[FirstIndexFrom(list, matches, 0).value]))
  {
  }

  /** Utils.Swap: exchanges the two reference arguments. */
  method Swap<T>(first: T, second: T) returns (newFirst: T, newSecond: T)
    ensures newFirst == second && newSecond == first
  {
    var temp := first;
    newFirst := second;
    newSecond := temp;
  }
}
