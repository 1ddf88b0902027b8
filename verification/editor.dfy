/**
 * The block-selection state of the editor: two corner points, each (-1, -1)
 * when nothing is selected, and the selected light index.
 */
module EditorState {
  import opened EditorUtils

  const Unset: Point := Point(-1, -1)

  /** The selection rectangle of two corners: minima as left/top, maxima as right/bottom. */
  function SelectionRect(start: Point, end: Point): (r: Rectangle)
    ensures Normalized(r)
    ensures r.left <= start.x <= r.right && r.left <= end.x <= r.right
    ensures r.top <= start.y <= r.bottom && r.top <= end.y <= r.bottom
    ensures (r.left == start.x && r.right == end.x) || (r.left == end.x && r.right == start.x)
    ensures (r.top == start.y && r.bottom == end.y) || (r.top == end.y && r.bottom == start.y)
  {
    Rectangle(Min(start.x, end.x), Min(start.y, end.y), Max(start.x, end.x), Max(start.y, end.y))
  }

  /** A selection exists when none of the four corner coordinates is -1. */
  predicate SelectionAvailable(start: Point, end: Point) {
    start.x != -1 && start.y != -1 && end.x != -1 && end.y != -1
  }

  /** The rectangle does not depend on the drag direction along either axis. */
  lemma SelectionRectIgnoresDragDirection(start: Point, end: Point)
    ensures SelectionRect(start, end) == SelectionRect(end, start)
    ensures SelectionRect(start, end) == SelectionRect(Point(end.x, start.y), Point(start.x, end.y))
  {
  }

  /** Storing a normalised rectangle as its two corners and reading it back gives the same rectangle. */
  lemma SelectionRectRoundTrip(value: Rectangle)
    requires Normalized(value)
    ensures SelectionRect(Point(value.left, value.top), Point(value.right, value.bottom)) == value
  {
  }

  class Editor {
    var blockSelectionStart: Point
    var blockSelectionEnd: Point
    var lightIndex: int

    constructor()
      ensures blockSelectionStart == Unset && blockSelectionEnd == Unset && lightIndex == -1
      ensures !BlockSelectionAvailable()
    {
      blockSelectionStart := Unset;
      blockSelectionEnd := Unset;
      lightIndex := -1;
    }

    /** Editor.BlockSelection, getter. */
    function BlockSelection(): (r: Rectangle)
      reads this
      ensures Normalized(r)
    {
      SelectionRect(blockSelectionStart, blockSelectionEnd)
    }

    /** Editor.BlockSelectionAvailable. */
    predicate BlockSelectionAvailable()
      reads this
    {
      SelectionAvailable(blockSelectionStart, blockSelectionEnd)
    }

    /** Editor.BlockSelection, setter: (X, Y) becomes the start corner, (Right, Bottom) the end corner. */
    method SetBlockSelection(value: Rectangle)
      modifies this
      ensures blockSelectionStart == Point(value.left, value.top) && blockSelectionEnd == Point(value.right, value.bottom)
      ensures lightIndex == old(lightIndex)
      ensures Normalized(value) ==> BlockSelection() == value
    {
      blockSelectionStart := Point(value.left, value.top);
      blockSelectionEnd := Point(value.right, value.bottom);
      if Normalized(value) {
        SelectionRectRoundTrip(value);
      }
    }

    /** Editor.BlockSelectionReset. */
    method BlockSelectionReset()
      modifies this
      ensures blockSelectionStart == Unset && blockSelectionEnd == Unset
      ensures lightIndex == old(lightIndex)
      ensures !BlockSelectionAvailable()
    {
      blockSelectionStart := Unset;
      blockSelectionEnd := Unset;
    }

    /** Editor.SelectRoom: forgets the selected light and the block selection. */
    method SelectRoom()
      modifies this
      ensures lightIndex == -1
      ensures blockSelectionStart == Unset && blockSelectionEnd == Unset
      ensures !BlockSelectionAvailable()
    {
      lightIndex := -1;
      BlockSelectionReset();
    }
  }
}
