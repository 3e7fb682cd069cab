/** LasercutterTechdrawExport/LasercutterTechdrawExport.py: the page layout
    of the laser-cutter drawing. Each offset part is shown by its bounding
    box sizes (`BoundBox.XLength`, `YLength`); the faces of a part by their
    areas; and the part's width after a turn about the z axis by a function
    of the turn's angle, in degrees. */
module Techdraw {
  import opened Wrappers

  /** The sizes of a part's bounding box. */
  datatype Size = Size(xLength: real, yLength: real)

  /** The centre given to a view (`view.X`, `view.Y`). */
  datatype Centre = Centre(x: real, y: real)

  /** The SVG template of the drawing page, whose size the layout grows. */
  class Template {
    var width: real
    var height: real

    constructor (width: real, height: real)
      ensures this.width == width && this.height == height
    {
      this.width := width;
      this.height := height;
    }
  }

  /** Left edge of view `i`: the parts go left to right from x = BeamWidth,
      each followed by a gap of BeamWidth. */
  function LeftAt(sizes: seq<Size>, beam: real, i: nat): real
    requires i <= |sizes|
  {
    if i == 0 then beam else LeftAt(sizes, beam, i - 1) + sizes[i - 1].xLength + beam
  }

  /** Right edge of view `j` plus one beam width: how far the template
      has to reach for that view. */
  function Reach(sizes: seq<Size>, beam: real, j: nat): real
    requires j < |sizes|
  {
    LeftAt(sizes, beam, j) + sizes[j].xLength + beam
  }

  /** Where view `i` is centred; every view sits on the line y = 0. */
  function CentreAt(sizes: seq<Size>, beam: real, i: nat): Centre
    requires i < |sizes|
  {
    Centre(LeftAt(sizes, beam, i) + sizes[i].xLength / 2.0, 0.0 + sizes[i].yLength - sizes[i].yLength / 2.0)
  }

  /** The template's width after the first `i` views. */
  function WidthAfter(sizes: seq<Size>, beam: real, w0: real, i: nat): real
    requires i <= |sizes|
  {
    if i == 0 then w0
    else
      var w := WidthAfter(sizes, beam, w0, i - 1);
      var need := Reach(sizes, beam, i - 1);
      if need > w then need else w
  }

  /** The template's height after the first `i` views. */
  function HeightAfter(sizes: seq<Size>, beam: real, h0: real, i: nat): real
    requires i <= |sizes|
  {
    if i == 0 then h0
    else
      var h := HeightAfter(sizes, beam, h0, i - 1);
      var need := 0.0 + sizes[i - 1].yLength + beam;
      if need > h then need else h
  }

  /** `selected_to_techdraw`: one view per part, in order, and a template
      grown to hold them all. */
  method SelectedToTechdraw(sizes: seq<Size>, template: Template, beam: real) returns (views: seq<Centre>)
    modifies template
    ensures |views| == |sizes|
    ensures forall i :: 0 <= i < |sizes| ==> views[i] == CentreAt(sizes, beam, i)
    ensures template.width == WidthAfter(sizes, beam, old(template.width), |sizes|)
    ensures template.height == HeightAfter(sizes, beam, old(template.height), |sizes|)
  {
    var x := beam;
    var y := 0.0;
    views := [];
    for i := 0 to |sizes|
      invariant |views| == i
      invariant forall j :: 0 <= j < i ==> views[j] == CentreAt(sizes, beam, j)
      invariant x == LeftAt(sizes, beam, i) && y == 0.0
      invariant template.width == WidthAfter(sizes, beam, old(template.width), i)
      invariant template.height == HeightAfter(sizes, beam, old(template.height), i)
    {
      var bbox := sizes[i];
      var maxHeight := y + bbox.yLength + beam;
      if maxHeight > template.height {
        template.height := maxHeight;
      }
      var maxWidth := x + bbox.xLength + beam;
      if maxWidth > template.width {
        template.width := maxWidth;
      }
      views := views + [Centre(x + bbox.xLength / 2.0, y + bbox.yLength - bbox.yLength / 2.0)];
      x := x + bbox.xLength + beam;
    }
  }

  /** View `i` is centred on its part: the part spans x from its left
      edge to the left edge plus its length, y from 0 to its height. */
  lemma CentredOnPart(sizes: seq<Size>, beam: real, i: nat)
    requires i < |sizes|
    ensures CentreAt(sizes, beam, i).x - sizes[i].xLength / 2.0 == LeftAt(sizes, beam, i)
    ensures CentreAt(sizes, beam, i).y * 2.0 == sizes[i].yLength
  {
  }

  /** Consecutive views are separated by exactly one beam width, and the
      first starts one beam width from the page's edge. */
  lemma {:induction false} BeamBetweenViews(sizes: seq<Size>, beam: real, i: nat)
    requires i + 1 < |sizes|
    ensures LeftAt(sizes, beam, i + 1) - (LeftAt(sizes, beam, i) + sizes[i].xLength) == beam
    ensures LeftAt(sizes, beam, 0) == beam
  {
  }

  /** With parts of non-negative width and a non-negative beam, a later
      view starts at or right of where an earlier view ends plus the beam. */
  lemma {:induction false} ViewsInOrder(sizes: seq<Size>, beam: real, i: nat, k: nat)
    requires beam >= 0.0
    requires forall j :: 0 <= j < |sizes| ==> sizes[j].xLength >= 0.0
    requires i < k <= |sizes|
    ensures LeftAt(sizes, beam, i) + sizes[i].xLength + beam <= LeftAt(sizes, beam, k)
    decreases k - i
  {
    if i + 1 < k {
      ViewsInOrder(sizes, beam, i, k - 1);
      assert sizes[k - 1].xLength >= 0.0;
    }
  }

  /** The template width never shrinks and ends wide enough for every view
      plus a trailing beam width. */
  lemma {:induction false} WidthCovers(sizes: seq<Size>, beam: real, w0: real, i: nat)
    requires i <= |sizes|
    ensures w0 <= WidthAfter(sizes, beam, w0, i)
    ensures forall j :: 0 <= j < i ==> Reach(sizes, beam, j) <= WidthAfter(sizes, beam, w0, i)
  {
    if i > 0 {
      WidthCovers(sizes, beam, w0, i - 1);
    }
  }

  /** The template height never shrinks and ends tall enough for every
      view plus a beam width. */
  lemma {:induction false} HeightCovers(sizes: seq<Size>, beam: real, h0: real, i: nat)
    requires i <= |sizes|
    ensures h0 <= HeightAfter(sizes, beam, h0, i)
    ensures forall j :: 0 <= j < i ==> sizes[j].yLength + beam <= HeightAfter(sizes, beam, h0, i)
  {
    if i > 0 {
      HeightCovers(sizes, beam, h0, i - 1);
      var h := HeightAfter(sizes, beam, h0, i);
      assert HeightAfter(sizes, beam, h0, i - 1) <= h;
      assert sizes[i - 1].yLength + beam <= h;
    }
  }

  /** The template only grows as far as some view needs: its final width
      is the starting width or the right edge of a view plus the beam. */
  lemma {:induction false} WidthTight(sizes: seq<Size>, beam: real, w0: real, i: nat) returns (j: int)
    requires i <= |sizes|
    ensures -1 <= j < i
    ensures j == -1 ==> WidthAfter(sizes, beam, w0, i) == w0
    ensures j >= 0 ==> WidthAfter(sizes, beam, w0, i) == Reach(sizes, beam, j)
  {
    if i == 0 {
      j := -1;
    } else {
      j := WidthTight(sizes, beam, w0, i - 1);
      if WidthAfter(sizes, beam, w0, i) != WidthAfter(sizes, beam, w0, i - 1) {
        j := i - 1;
      }
    }
  }

  /** `get_biggest_face`: the first face of strictly greatest area, or none
      when no face has a positive area. A face is given by its position. */
  method GetBiggestFace(areas: seq<real>) returns (maxFace: Option<nat>)
    ensures maxFace.None? <==> forall i :: 0 <= i < |areas| ==> areas[i] <= 0.0
    ensures maxFace.Some? ==>
      var k := maxFace.value;
      k < |areas| && areas[k] > 0.0 &&
      (forall i :: 0 <= i < |areas| ==> areas[i] <= areas[k]) &&
      (forall i :: 0 <= i < k ==> areas[i] < areas[k])
  {
    var maxArea := 0.0;
    maxFace := None;
    for i := 0 to |areas|
      invariant maxFace.None? ==> maxArea == 0.0 && forall j :: 0 <= j < i ==> areas[j] <= 0.0
      invariant maxFace.Some? ==> maxFace.value < i && maxArea == areas[maxFace.value] && maxArea > 0.0
      invariant forall j :: 0 <= j < i ==> areas[j] <= maxArea
      invariant maxFace.Some? ==> forall j :: 0 <= j < maxFace.value ==> areas[j] < maxArea
    {
      if areas[i] > maxArea {
        maxArea := areas[i];
        maxFace := Some(i);
      }
    }
  }

  /** The turn tried at step `k`: 22.5 degrees a step. */
  function StepAngle(k: nat): real { 22.5 * k as real }

  /** `rotate_biggest_side_up`: the part is turned about the z axis eight
      times by 22.5 degrees, and `xLength(a)` is its bounding-box width
      once turned by `a` degrees in all. The angle kept is the first step
      whose width is strictly smaller than every width seen before it (0
      if no turn narrows the part); the part is then turned by 180 plus
      that angle more, `rotation` degrees in all, which leaves it turned
      by the kept angle modulo a full turn. */
  method RotateBiggestSideUp(xLength: real -> real) returns (angleMax: real, rotation: real)
    ensures exists k ::
              0 <= k <= 8 && angleMax == StepAngle(k) &&
              (forall j :: 0 <= j <= 8 ==> xLength(StepAngle(k)) <= xLength(StepAngle(j))) &&
              (forall j :: 0 <= j < k ==> xLength(StepAngle(j)) > xLength(StepAngle(k)))
    ensures rotation == 360.0 + angleMax
  {
    var xmin := xLength(0.0);
    angleMax := 0.0;
    var angle := 0.0;
    ghost var step: nat := 0;
    ghost var best: nat := 0;
    rotation := 0.0;
    while angle < 180.0
      invariant step <= 8 && angle == StepAngle(step) && rotation == angle
      invariant best <= step && angleMax == StepAngle(best) && xmin == xLength(StepAngle(best))
      invariant forall j :: 0 <= j <= step ==> xmin <= xLength(StepAngle(j))
      invariant forall j :: 0 <= j < best ==> xLength(StepAngle(j)) > xmin
      decreases 8 - step
    {
      rotation := rotation + 22.5;
      angle := angle + 22.5;
      step := step + 1;
      if xmin > xLength(angle) {
        xmin := xLength(angle);
        angleMax := angle;
        best := step;
      }
    }
    rotation := rotation + 180.0 + angleMax;
  }
}
