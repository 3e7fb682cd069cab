/** ExportPanel.py: `ExportCommand.export_list`, which lays the selected
    parts out flat on a grid of about the square root of their number per
    row, ready for a 2D view. Each part is given by the bounding box of its
    shape once `transform_shape` has laid it flat. */
module ExportPanel {
  import opened Solids

  const Margin: real := 10.0
  const ZFix: real := 30.0

  function XLen(b: Box): real { b.hi.x - b.lo.x }
  function YLen(b: Box): real { b.hi.y - b.lo.y }

  /** Bounding boxes of real shapes: no side is negative. */
  predicate WellFormed(boxes: seq<Box>)
  {
    forall i :: 0 <= i < |boxes| ==> boxes[i].lo.x <= boxes[i].hi.x && boxes[i].lo.y <= boxes[i].hi.y
  }

  /** The square root search behind `PerLine`, from a candidate up. */
  function SqrtFrom(n: nat, p: nat): (r: nat)
    requires p * p <= n
    ensures p <= r
    ensures r * r <= n < (r + 1) * (r + 1)
    decreases n - p
  {
    if (p + 1) * (p + 1) > n then p
    else
      assert p + 1 <= (p + 1) * (p + 1);
      SqrtFrom(n, p + 1)
  }

  /** `per_line = int(math.sqrt(len(parts_list)))`: the integer square
      root, at least 1 as soon as there is a part. */
  function PerLine(n: nat): (p: nat)
    ensures p * p <= n < (p + 1) * (p + 1)
    ensures n >= 1 ==> p >= 1
  {
    SqrtFrom(n, 0)
  }

  /** The loop's variables `x_pos`, `y_pos` and `max_line_y`. */
  datatype Cursor = Cursor(x: real, y: real, maxLineY: real)

  const Start := Cursor(0.0, 0.0, 0.0)

  /** One turn of the loop, after part `i` (of box `b`) is placed: move
      right, raise the row's top, and start a new row after every
      `perLine` parts. */
  function Advance(c: Cursor, b: Box, i: nat, perLine: nat): Cursor
    requires perLine >= 1
  {
    var x := c.x + XLen(b) + Margin;
    var maxY := if YLen(b) + c.y > c.maxLineY then YLen(b) + c.y else c.maxLineY;
    if (i + 1) % perLine == 0 then Cursor(0.0, maxY + Margin, maxY) else Cursor(x, c.y, maxY)
  }

  /** The variables when part `i` is about to be placed. */
  function CursorAt(boxes: seq<Box>, perLine: nat, i: nat): Cursor
    requires i <= |boxes|
    requires i == 0 || perLine >= 1
  {
    if i == 0 then Start else Advance(CursorAt(boxes, perLine, i - 1), boxes[i - 1], i - 1, perLine)
  }

  /** The part `i` once shifted by `shift_vector`. */
  function Placed(boxes: seq<Box>, perLine: nat, i: nat): Box
    requires i < |boxes| && perLine >= 1
  {
    var c := CursorAt(boxes, perLine, i);
    var b := boxes[i];
    TranslateBox(b, Vec3(-b.lo.x + c.x, -b.lo.y + c.y, ZFix - b.lo.z))
  }

  /** `export_list`: one new part per part, in the same order, each the
      part shifted to its place in the grid. */
  method ExportList(boxes: seq<Box>) returns (newParts: seq<Box>)
    ensures |newParts| == |boxes|
    ensures forall i :: 0 <= i < |boxes| ==> newParts[i] == Placed(boxes, PerLine(|boxes|), i)
  {
    var xPos := 0.0;
    var yPos := 0.0;
    var maxLineY := 0.0;
    newParts := [];
    var perLine := PerLine(|boxes|);
    for i := 0 to |boxes|
      invariant |newParts| == i
      invariant forall j :: 0 <= j < i ==> newParts[j] == Placed(boxes, perLine, j)
      invariant Cursor(xPos, yPos, maxLineY) == CursorAt(boxes, perLine, i)
    {
      var b := boxes[i];
      var shiftVector := Vec3(-b.lo.x + xPos, -b.lo.y + yPos, ZFix - b.lo.z);
      xPos := xPos + XLen(b) + Margin;
      var newPart := TranslateBox(b, shiftVector);
      if YLen(newPart) + yPos > maxLineY {
        maxLineY := YLen(newPart) + yPos;
      }
      if (i + 1) % perLine == 0 {
        yPos := maxLineY + Margin;
        xPos := 0.0;
      }
      newParts := newParts + [newPart];
    }
  }

  /** Each part keeps its size and has its lower corner moved to the
      cursor, at height 30. */
  lemma PlacedCorner(boxes: seq<Box>, perLine: nat, i: nat)
    requires i < |boxes| && perLine >= 1
    ensures Placed(boxes, perLine, i).lo ==
            Vec3(CursorAt(boxes, perLine, i).x, CursorAt(boxes, perLine, i).y, ZFix)
    ensures XLen(Placed(boxes, perLine, i)) == XLen(boxes[i])
    ensures YLen(Placed(boxes, perLine, i)) == YLen(boxes[i])
    ensures Placed(boxes, perLine, i).hi.z - Placed(boxes, perLine, i).lo.z == boxes[i].hi.z - boxes[i].lo.z
  {
  }

  /** Every `perLine`-th part starts a row at x = 0, the first one with
      y = 0 as well. */
  lemma RowStart(boxes: seq<Box>, perLine: nat, i: nat)
    requires i <= |boxes| && perLine >= 1
    requires i % perLine == 0
    ensures CursorAt(boxes, perLine, i).x == 0.0
    ensures i == 0 ==> CursorAt(boxes, perLine, i).y == 0.0
  {
    if i > 0 {
      assert (i - 1 + 1) % perLine == 0;
    }
  }

  /** One turn never lowers `max_line_y` and lifts it to the new part's top. */
  lemma AdvanceMax(c: Cursor, b: Box, i: nat, perLine: nat)
    requires perLine >= 1
    ensures c.maxLineY <= Advance(c, b, i, perLine).maxLineY
    ensures c.y + YLen(b) <= Advance(c, b, i, perLine).maxLineY
    ensures Advance(c, b, i, perLine).maxLineY == c.maxLineY ||
            Advance(c, b, i, perLine).maxLineY == c.y + YLen(b)
  {
  }

  /** The top edge of part `j` once placed. */
  function Top(boxes: seq<Box>, perLine: nat, j: nat): real
    requires j < |boxes| && perLine >= 1
  {
    CursorAt(boxes, perLine, j).y + YLen(boxes[j])
  }

  /** `max_line_y` is at least the top of every part placed so far. */
  lemma {:induction false} MaxLineIsTop(boxes: seq<Box>, perLine: nat, i: nat)
    requires i <= |boxes| && perLine >= 1
    ensures forall j :: 0 <= j < i ==> Top(boxes, perLine, j) <= CursorAt(boxes, perLine, i).maxLineY
  {
    if i > 0 {
      MaxLineIsTop(boxes, perLine, i - 1);
      AdvanceMax(CursorAt(boxes, perLine, i - 1), boxes[i - 1], i - 1, perLine);
    }
  }

  /** `max_line_y` is 0 before any part, and afterwards either still 0 or
      the top of one of the parts placed so far, part `j` (-1 for none). */
  lemma {:induction false} MaxLineAttained(boxes: seq<Box>, perLine: nat, i: nat) returns (j: int)
    requires i <= |boxes| && perLine >= 1
    ensures -1 <= j < i
    ensures j == -1 ==> CursorAt(boxes, perLine, i).maxLineY == 0.0
    ensures j >= 0 ==> CursorAt(boxes, perLine, i).maxLineY == Top(boxes, perLine, j)
  {
    if i == 0 {
      j := -1;
    } else {
      j := MaxLineAttained(boxes, perLine, i - 1);
      var c := CursorAt(boxes, perLine, i - 1);
      AdvanceMax(c, boxes[i - 1], i - 1, perLine);
      if CursorAt(boxes, perLine, i).maxLineY != c.maxLineY {
        j := i - 1;
      }
    }
  }

  /** A turn that ends a row puts the next row the margin above the
      highest part. */
  lemma AdvanceNewRow(c: Cursor, b: Box, i: nat, perLine: nat)
    requires perLine >= 1 && (i + 1) % perLine == 0
    ensures Advance(c, b, i, perLine).y == Advance(c, b, i, perLine).maxLineY + Margin
  {
  }

  /** A new row starts above everything placed before it, by the margin. */
  lemma NewRowAbove(boxes: seq<Box>, perLine: nat, m: nat, j: nat)
    requires m <= |boxes| && perLine >= 1
    requires 0 < m && m % perLine == 0
    requires j < m
    ensures Top(boxes, perLine, j) + Margin <= CursorAt(boxes, perLine, m).y
  {
    AdvanceNewRow(CursorAt(boxes, perLine, m - 1), boxes[m - 1], m - 1, perLine);
    MaxLineIsTop(boxes, perLine, m);
  }

  /** The rows go up: `y_pos` never decreases. */
  lemma {:induction false} RowsGoUp(boxes: seq<Box>, perLine: nat, i: nat, k: nat)
    requires WellFormed(boxes) && perLine >= 1
    requires i <= k <= |boxes|
    ensures CursorAt(boxes, perLine, i).y <= CursorAt(boxes, perLine, k).y
    decreases k - i
  {
    if i < k {
      RowsGoUp(boxes, perLine, i, k - 1);
      assert boxes[k - 1].lo.y <= boxes[k - 1].hi.y;
    }
  }

  /** Within a row (no row starts after j up to k), part k begins to the
      right of part j, by at least the margin, on the same line. */
  lemma {:induction false} SameRowApart(boxes: seq<Box>, perLine: nat, j: nat, k: nat)
    requires WellFormed(boxes) && perLine >= 1
    requires j < k <= |boxes|
    requires forall m :: j < m <= k ==> m % perLine != 0
    ensures CursorAt(boxes, perLine, j).x + XLen(boxes[j]) + Margin <= CursorAt(boxes, perLine, k).x
    ensures CursorAt(boxes, perLine, k).y == CursorAt(boxes, perLine, j).y
  {
    assert (k - 1 + 1) % perLine != 0;
    if j < k - 1 {
      SameRowApart(boxes, perLine, j, k - 1);
      assert boxes[k - 1].lo.x <= boxes[k - 1].hi.x;
    }
  }

  /** Across rows (a row starts after j, up to k), part k lies above part
      j, by at least the margin. */
  lemma LaterRowApart(boxes: seq<Box>, perLine: nat, j: nat, m: nat, k: nat)
    requires WellFormed(boxes) && perLine >= 1
    requires j < m <= k <= |boxes| && m % perLine == 0
    ensures CursorAt(boxes, perLine, j).y + YLen(boxes[j]) + Margin <= CursorAt(boxes, perLine, k).y
  {
    NewRowAbove(boxes, perLine, m, j);
    RowsGoUp(boxes, perLine, m, k);
  }

  /** No two laid-out parts overlap: a later part is either to the right
      of an earlier one or above it, with the margin between them. */
  lemma PlacedApart(boxes: seq<Box>, j: nat, k: nat)
    requires WellFormed(boxes)
    requires j < k < |boxes|
    ensures var p := PerLine(|boxes|);
      Placed(boxes, p, j).hi.x + Margin <= Placed(boxes, p, k).lo.x ||
      Placed(boxes, p, j).hi.y + Margin <= Placed(boxes, p, k).lo.y
  {
    var p := PerLine(|boxes|);
    PlacedCorner(boxes, p, j);
    PlacedCorner(boxes, p, k);
    if m :| j < m <= k && m % p == 0 {
      LaterRowApart(boxes, p, j, m, k);
    } else {
      SameRowApart(boxes, p, j, k);
    }
  }
}
