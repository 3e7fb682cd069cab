/** lasercut/makebox.py: the six (or seven) panels of a parametric box, as
    axis-aligned boxes. A panel is the polygon `lo`..`hi` extruded by the
    thickness: `lo` is the polygon's first corner and `hi` the opposite
    corner of the extrusion, which are the minimum and maximum corners
    whenever the dimensions are not negative. */
module Boxes {
  import opened Wrappers
  import opened Solids
  import opened BoxProperty

  /** An entry `{'shape': ..., 'name': ...}` of the part list. */
  datatype NamedPart = NamedPart(shape: Box, name: string)

  const PriorityMessage: string := "Length/Width priority not defined"
  const TopTypeMessage: string := "Top type not implemented"

  // ---------------------------------------------------------------------
  // Panels

  /** `make_z_panel`: a horizontal panel centred on the z axis, from height z up. */
  function ZPanel(length: real, width: real, thickness: real, z: real): (b: Box)
    ensures b.lo.x == -b.hi.x && b.hi.x - b.lo.x == length
    ensures b.lo.y == -b.hi.y && b.hi.y - b.lo.y == width
    ensures b.lo.z == z && b.hi.z - b.lo.z == thickness
  {
    Box(Vec3(-length / 2.0, -width / 2.0, z), Vec3(length / 2.0, width / 2.0, z + thickness))
  }

  /** `make_front_panels`: the front panel, in the XZ plane at `spacing / 2`,
      and the panel behind, mirrored through the XZ plane. */
  function FrontPanels(length: real, height: real, thickness: real, spacing: real): (r: (Box, Box))
    ensures r.0.lo.x == -r.0.hi.x && r.0.hi.x - r.0.lo.x == length
    ensures r.0.lo.z == -r.0.hi.z && r.0.hi.z - r.0.lo.z == height
    ensures r.0.lo.y == spacing / 2.0 && r.0.hi.y - r.0.lo.y == thickness
    ensures r.1 == TranslateBox(r.0, Vec3(0.0, -(spacing + thickness), 0.0))
    ensures r.1.lo.y == -r.0.hi.y && r.1.hi.y == -r.0.lo.y
  {
    var front := Box(Vec3(-length / 2.0, spacing / 2.0, -height / 2.0),
                     Vec3(length / 2.0, spacing / 2.0 + thickness, height / 2.0));
    (front, TranslateBox(front, Vec3(0.0, -spacing - thickness, 0.0)))
  }

  /** `make_twice_half_front_panel`: the front panel cut in two halves that
      meet at x = 0. */
  function TwiceHalfFrontPanel(length: real, height: real, thickness: real, spacing: real): (r: (Box, Box))
    ensures r.0.lo.x == -length / 2.0 && r.0.hi.x == 0.0 && r.1.lo.x == 0.0 && r.1.hi.x == length / 2.0
    ensures var front := FrontPanels(length, height, thickness, spacing).0;
      r.0.lo.y == r.1.lo.y == front.lo.y && r.0.hi.y == r.1.hi.y == front.hi.y &&
      r.0.lo.z == r.1.lo.z == front.lo.z && r.0.hi.z == r.1.hi.z == front.hi.z
  {
    var quarter := length / 4.0;
    var half := Box(Vec3(-quarter, spacing / 2.0, -height / 2.0),
                    Vec3(quarter, spacing / 2.0 + thickness, height / 2.0));
    (TranslateBox(half, Vec3(-quarter, 0.0, 0.0)), TranslateBox(half, Vec3(quarter, 0.0, 0.0)))
  }

  /** `make_side_panels`: the left panel, in the YZ plane at `spacing / 2`,
      and the right panel, mirrored through the YZ plane. */
  function SidePanels(width: real, height: real, thickness: real, spacing: real): (r: (Box, Box))
    ensures r.0.lo.y == -r.0.hi.y && r.0.hi.y - r.0.lo.y == width
    ensures r.0.lo.z == -r.0.hi.z && r.0.hi.z - r.0.lo.z == height
    ensures r.0.lo.x == spacing / 2.0 && r.0.hi.x - r.0.lo.x == thickness
    ensures r.1 == TranslateBox(r.0, Vec3(-(spacing + thickness), 0.0, 0.0))
    ensures r.1.lo.x == -r.0.hi.x && r.1.hi.x == -r.0.lo.x
  {
    var left := Box(Vec3(spacing / 2.0, -width / 2.0, -height / 2.0),
                    Vec3(spacing / 2.0 + thickness, width / 2.0, height / 2.0));
    (left, TranslateBox(left, Vec3(-spacing - thickness, 0.0, 0.0)))
  }

  // ---------------------------------------------------------------------
  // Dimensions

  predicate KnownPriority(p: string)
  {
    p == LengthPriority || p == WidthPriority || p == CrossPriority || p == RoundPriority
  }

  /** The front panels' length and spacing and the side panels' width and
      spacing a priority gives, before the top and bottom are accounted for. */
  datatype Frame = Frame(length: real, lengthSpacing: real, width: real, widthSpacing: real)

  /** What the dimension code has decided once the top and bottom are
      known: the four values of the frame, the side height, the vertical
      shift of every panel, and the bottom and top panels before that shift. */
  datatype Layout = Layout(length: real, lengthSpacing: real, width: real, widthSpacing: real,
                           height: real, shift: real, bottom: Box, top: Box)

  /** The frame of `make_box_outside_measure` for each priority. */
  function OutsideFrame(d: BoxProperties): (r: Option<Frame>)
    ensures r.Some? <==> KnownPriority(d.lengthWidthPriority)
  {
    var t := d.thickness;
    if d.lengthWidthPriority == LengthPriority then
      Some(Frame(d.length, d.width - 2.0 * t, d.width - 2.0 * t, d.length - 2.0 * t - 2.0 * d.widthShift))
    else if d.lengthWidthPriority == WidthPriority then
      Some(Frame(d.length - 2.0 * t, d.width - 2.0 * t - 2.0 * d.lengthShift, d.width, d.length - 2.0 * t))
    else if d.lengthWidthPriority == CrossPriority then
      Some(Frame(d.length, d.width - 2.0 * t - d.widthOutside, d.width, d.length - 2.0 * t - d.lengthOutside))
    else if d.lengthWidthPriority == RoundPriority then
      Some(Frame(d.length - d.innerRadius, d.width - 2.0 * t, d.width - d.innerRadius, d.length - 2.0 * t))
    else None
  }

  /** How far outside panels overhang: the largest of zero and the outside
      values of the panels that are outside. */
  function Overhang(bottomOut: bool, bottomValue: real, topOut: bool, topValue: real): (r: real)
    ensures r >= 0.0
    ensures bottomOut ==> r >= bottomValue
    ensures topOut ==> r >= topValue
    ensures r == 0.0 || (bottomOut && r == bottomValue) || (topOut && r == topValue)
  {
    var e := if bottomOut then Max(0.0, bottomValue) else 0.0;
    if topOut then Max(e, topValue) else e
  }

  /** What outside covers change: the side height, the shift, and the
      overhang in length and in width. */
  datatype Caps = Caps(height: real, shift: real, exceedingLength: real, exceedingWidth: real)

  function OutsideCaps(d: BoxProperties, top: TopBottomProperties, bottom: TopBottomProperties): Caps
  {
    var t := d.thickness;
    var bOut := bottom.position == PositionOutside;
    var tOut := top.position == PositionOutside;
    Caps(d.height - (if bOut then t else 0.0) - (if tOut then t else 0.0),
         (if bOut then t / 2.0 else 0.0) - (if tOut then t / 2.0 else 0.0),
         Overhang(bOut, bottom.lengthOutside, tOut, top.lengthOutside),
         Overhang(bOut, bottom.widthOutside, tOut, top.widthOutside))
  }

  /** The dimensions `make_box_outside_measure` computes. */
  function OutsideLayout(d: BoxProperties, top: TopBottomProperties, bottom: TopBottomProperties): (r: Result<Layout>)
    ensures r.Err? <==> !KnownPriority(d.lengthWidthPriority) || top.topType != TopTypeNormal
    ensures !KnownPriority(d.lengthWidthPriority) ==> r == Err(ValueError(PriorityMessage))
    ensures KnownPriority(d.lengthWidthPriority) && r.Err? ==> r == Err(ValueError(TopTypeMessage))
    ensures r.Ok? ==>
      var bOut := bottom.position == PositionOutside;
      var tOut := top.position == PositionOutside;
      var f := OutsideFrame(d).value;
      var exL := Overhang(bOut, bottom.lengthOutside, tOut, top.lengthOutside);
      var exW := Overhang(bOut, bottom.widthOutside, tOut, top.widthOutside);
      r.value.height == d.height - (if bOut then d.thickness else 0.0) - (if tOut then d.thickness else 0.0) &&
      r.value.length == f.length - exL && r.value.widthSpacing == f.widthSpacing - exL &&
      r.value.width == f.width - exW && r.value.lengthSpacing == f.lengthSpacing - exW
  {
    match OutsideFrame(d)
    case None => Err(ValueError(PriorityMessage))
    case Some(f) =>
      var t := d.thickness;
      var c := OutsideCaps(d, top, bottom);
      var height := c.height;
      var exL := c.exceedingLength;
      var exW := c.exceedingWidth;
      var lengthSpacing := f.lengthSpacing - exW;
      var widthSpacing := f.widthSpacing - exL;
      var bottomPanel :=
        if bottom.position == PositionInside then
          ZPanel(widthSpacing, lengthSpacing, t, -height / 2.0 + bottom.heightShift)
        else
          ZPanel(d.length + bottom.lengthOutside - exL, d.width + bottom.widthOutside - exW, t, -height / 2.0 - t);
      if top.topType != TopTypeNormal then Err(ValueError(TopTypeMessage))
      else
        var topPanel :=
          if top.position == PositionInside then
            ZPanel(widthSpacing, lengthSpacing, t, height / 2.0 - t - top.heightShift)
          else
            ZPanel(d.length + top.lengthOutside - exL, d.width + top.widthOutside - exW, t, height / 2.0);
        Ok(Layout(f.length - exL, lengthSpacing, f.width - exW, widthSpacing, height, c.shift, bottomPanel, topPanel))
  }

  /** The frame of `make_box_inside_measure` for each priority, with how much
      an outside cover grows in length and in width. */
  function InsideFrame(d: BoxProperties): (r: Option<(Frame, real, real)>)
    ensures r.Some? <==> KnownPriority(d.lengthWidthPriority)
    ensures r.Some? ==> r.value.0.lengthSpacing == d.width && r.value.0.widthSpacing == d.length
  {
    var t := d.thickness;
    if d.lengthWidthPriority == LengthPriority then
      Some((Frame(d.length + 2.0 * t + 2.0 * d.widthShift, d.width, d.width, d.length), 2.0 * d.widthShift, 0.0))
    else if d.lengthWidthPriority == WidthPriority then
      Some((Frame(d.length, d.width, d.width + 2.0 * t + 2.0 * d.lengthShift, d.length), 0.0, 2.0 * d.lengthShift))
    else if d.lengthWidthPriority == CrossPriority then
      Some((Frame(d.length + 2.0 * t + d.lengthOutside, d.width, d.width + 2.0 * t + d.widthOutside, d.length), 0.0, 0.0))
    else if d.lengthWidthPriority == RoundPriority then
      Some((Frame(d.length + 2.0 * t - d.innerRadius, d.width, d.width + 2.0 * t - d.innerRadius, d.length), 0.0, 0.0))
    else None
  }

  /** The dimensions `make_box_inside_measure` computes. The shift an
      inside top adds uses the bottom's height shift. */
  function InsideLayout(d: BoxProperties, top: TopBottomProperties, bottom: TopBottomProperties): (r: Result<Layout>)
    ensures r.Err? <==> !KnownPriority(d.lengthWidthPriority) || top.topType != TopTypeNormal
    ensures !KnownPriority(d.lengthWidthPriority) ==> r == Err(ValueError(PriorityMessage))
    ensures KnownPriority(d.lengthWidthPriority) && r.Err? ==> r == Err(ValueError(TopTypeMessage))
    ensures r.Ok? ==>
      var bIn := bottom.position == PositionInside;
      var tIn := top.position == PositionInside;
      var t := d.thickness;
      r.value.height == d.height + (if bIn then t + bottom.heightShift else 0.0) + (if tIn then t + top.heightShift else 0.0) &&
      r.value.shift == (if bIn then (-t - bottom.heightShift) / 2.0 else 0.0) + (if tIn then (t + bottom.heightShift) / 2.0 else 0.0)
  {
    match InsideFrame(d)
    case None => Err(ValueError(PriorityMessage))
    case Some((f, coverLength, coverWidth)) =>
      var t := d.thickness;
      var bIn := bottom.position == PositionInside;
      var tIn := top.position == PositionInside;
      var height := d.height + (if bIn then t + bottom.heightShift else 0.0) + (if tIn then t + top.heightShift else 0.0);
      var shift := (if bIn then (-t - bottom.heightShift) / 2.0 else 0.0) + (if tIn then (t + bottom.heightShift) / 2.0 else 0.0);
      var bottomPanel :=
        if bIn then ZPanel(d.length, d.width, t, -height / 2.0 + bottom.heightShift)
        else ZPanel(d.length + 2.0 * t + bottom.lengthOutside + coverLength,
                    d.width + 2.0 * t + bottom.widthOutside + coverWidth, t, -height / 2.0 - t);
      if top.topType != TopTypeNormal then Err(ValueError(TopTypeMessage))
      else
        var topPanel :=
          if tIn then ZPanel(d.length, d.width, t, height / 2.0 - t - top.heightShift)
          else ZPanel(d.length + 2.0 * t + top.lengthOutside + coverLength,
                      d.width + 2.0 * t + top.widthOutside + coverWidth, t, height / 2.0);
        Ok(Layout(f.length, f.lengthSpacing, f.width, f.widthSpacing, height, shift, bottomPanel, topPanel))
  }

  /** The named panels of a layout, each raised by the layout's shift; the
      rounding priority has two half front panels instead of one. */
  function Panels(lay: Layout, t: real, round: bool): seq<NamedPart>
  {
    var up := Vec3(0.0, 0.0, lay.shift);
    var (face, behind) := FrontPanels(lay.length, lay.height, t, lay.lengthSpacing);
    var (half1, half2) := TwiceHalfFrontPanel(lay.length, lay.height, t, lay.lengthSpacing);
    var (left, right) := SidePanels(lay.width, lay.height, t, lay.widthSpacing);
    (if round then [NamedPart(TranslateBox(half1, up), "face_panel_1"), NamedPart(TranslateBox(half2, up), "face_panel_2")]
     else [NamedPart(TranslateBox(face, up), "face_panel")]) +
    [NamedPart(TranslateBox(behind, up), "behind_panel"),
     NamedPart(TranslateBox(left, up), "left_panel"),
     NamedPart(TranslateBox(right, up), "right_panel"),
     NamedPart(TranslateBox(lay.bottom, up), "bottom_panel"),
     NamedPart(TranslateBox(lay.top, up), "top_panel")]
  }

  function NamesOf(parts: seq<NamedPart>): seq<string>
  {
    seq(|parts|, i requires 0 <= i < |parts| => parts[i].name)
  }

  /** Six named panels, seven when the front one is halved; the panel
      behind is the front one moved back by the spacing and the thickness,
      the right one the left one moved likewise, the two halves meet at
      x = 0, and all panels span the same heights. */
  lemma PanelsShape(lay: Layout, t: real, round: bool)
    ensures var p := Panels(lay, t, round);
      var f := if round then 2 else 1;
      |p| == f + 5 &&
      NamesOf(p) == (if round then ["face_panel_1", "face_panel_2"] else ["face_panel"]) +
                    ["behind_panel", "left_panel", "right_panel", "bottom_panel", "top_panel"] &&
      (!round ==> p[1].shape == TranslateBox(p[0].shape, Vec3(0.0, -(lay.lengthSpacing + t), 0.0))) &&
      (round ==> p[0].shape.hi.x == p[1].shape.lo.x == 0.0 &&
                 p[0].shape.lo.x == -lay.length / 2.0 && p[1].shape.hi.x == lay.length / 2.0) &&
      p[f + 2].shape == TranslateBox(p[f + 1].shape, Vec3(-(lay.widthSpacing + t), 0.0, 0.0)) &&
      p[f + 3].shape == TranslateBox(lay.bottom, Vec3(0.0, 0.0, lay.shift)) &&
      p[f + 4].shape == TranslateBox(lay.top, Vec3(0.0, 0.0, lay.shift)) &&
      forall i :: 0 <= i < f + 3 ==>
        p[i].shape.lo.z == -lay.height / 2.0 + lay.shift && p[i].shape.hi.z == lay.height / 2.0 + lay.shift
  {
    var p := Panels(lay, t, round);
    var f := if round then 2 else 1;
    assert NamesOf(p) == (if round then ["face_panel_1", "face_panel_2"] else ["face_panel"]) +
                         ["behind_panel", "left_panel", "right_panel", "bottom_panel", "top_panel"];
  }

  /** With the default length priority, no shift and both covers outside
      without overhang, every panel lies inside the box of the requested
      outside length, width and height, centred on the origin. */
  lemma OutsideWithinMeasure(d: BoxProperties, top: TopBottomProperties, bottom: TopBottomProperties)
    requires d.lengthWidthPriority == LengthPriority && d.widthShift == 0.0
    requires top.position == PositionOutside && bottom.position == PositionOutside
    requires top.topType == TopTypeNormal
    requires top.lengthOutside == 0.0 && top.widthOutside == 0.0
    requires bottom.lengthOutside == 0.0 && bottom.widthOutside == 0.0
    requires 0.0 <= 2.0 * d.thickness <= d.length && 2.0 * d.thickness <= d.width && 2.0 * d.thickness <= d.height
    ensures OutsideLayout(d, top, bottom).Ok?
    ensures var p := Panels(OutsideLayout(d, top, bottom).value, d.thickness, false);
      var whole := Box(Vec3(-d.length / 2.0, -d.width / 2.0, -d.height / 2.0), Vec3(d.length / 2.0, d.width / 2.0, d.height / 2.0));
      forall i :: 0 <= i < |p| ==> WithinBox(p[i].shape, whole)
  {
    var lay := OutsideLayout(d, top, bottom).value;
    assert lay.shift == 0.0 && lay.height == d.height - 2.0 * d.thickness;
    assert lay.length == d.length && lay.lengthSpacing == d.width - 2.0 * d.thickness;
    assert lay.width == d.width - 2.0 * d.thickness && lay.widthSpacing == d.length - 2.0 * d.thickness;
    PanelsShape(lay, d.thickness, false);
  }

  /** With both covers inside, the space between them is the requested
      inner height; it is centred on the origin exactly when the two height
      shifts agree, since the top's shift is never used for the offset. */
  lemma InsideCoversInterior(d: BoxProperties, top: TopBottomProperties, bottom: TopBottomProperties)
    requires KnownPriority(d.lengthWidthPriority) && top.topType == TopTypeNormal
    requires top.position == PositionInside && bottom.position == PositionInside
    ensures InsideLayout(d, top, bottom).Ok?
    ensures var lay := InsideLayout(d, top, bottom).value;
      var floor := lay.bottom.hi.z + lay.shift;
      var ceiling := lay.top.lo.z + lay.shift;
      lay.shift == 0.0 && ceiling - floor == d.height &&
      (floor + ceiling == 0.0 <==> top.heightShift == bottom.heightShift)
  {
  }

  // ---------------------------------------------------------------------
  // The generators

  /** The priority table of `make_box_outside_measure`. */
  method OutsidePriorityFrame(d: BoxProperties) returns (r: Option<Frame>)
    ensures r == OutsideFrame(d)
  {
    var thickness := d.thickness;
    var length, lengthSpacing, width, widthSpacing;
    if d.lengthWidthPriority == LengthPriority {
      length := d.length;
      lengthSpacing := d.width - 2.0 * thickness;
      width := d.width - 2.0 * thickness;
      widthSpacing := d.length - 2.0 * thickness - 2.0 * d.widthShift;
    } else if d.lengthWidthPriority == WidthPriority {
      length := d.length - 2.0 * thickness;
      lengthSpacing := d.width - 2.0 * thickness - 2.0 * d.lengthShift;
      width := d.width;
      widthSpacing := d.length - 2.0 * thickness;
    } else if d.lengthWidthPriority == CrossPriority {
      length := d.length;
      lengthSpacing := d.width - 2.0 * thickness - d.widthOutside;
      width := d.width;
      widthSpacing := d.length - 2.0 * thickness - d.lengthOutside;
    } else if d.lengthWidthPriority == RoundPriority {
      length := d.length - d.innerRadius;
      lengthSpacing := d.width - 2.0 * thickness;
      width := d.width - d.innerRadius;
      widthSpacing := d.length - 2.0 * thickness;
    } else {
      return None;
    }
    return Some(Frame(length, lengthSpacing, width, widthSpacing));
  }

  /** The covers' part of `make_box_outside_measure`: each outside cover
      takes its thickness off the side height and moves the box by half of
      it, and the overhang grows to the outside values of the covers. */
  method OutsideCapsOf(d: BoxProperties, top: TopBottomProperties, bottom: TopBottomProperties) returns (c: Caps)
    ensures c == OutsideCaps(d, top, bottom)
  {
    var thickness := d.thickness;
    var height := d.height;
    var shiftHeight := 0.0;
    var exceedingLength := 0.0;
    var exceedingWidth := 0.0;
    if bottom.position == PositionOutside {
      height := height - thickness;
      shiftHeight := shiftHeight - (-thickness / 2.0);
      exceedingLength := Max(exceedingLength, bottom.lengthOutside);
      exceedingWidth := Max(exceedingWidth, bottom.widthOutside);
    }
    if top.position == PositionOutside {
      height := height - thickness;
      shiftHeight := shiftHeight - thickness / 2.0;
      exceedingLength := Max(exceedingLength, top.lengthOutside);
      exceedingWidth := Max(exceedingWidth, top.widthOutside);
    }
    c := Caps(height, shiftHeight, exceedingLength, exceedingWidth);
  }

  /** `make_box_outside_measure`, appending to `partList`. */
  method MakeBoxOutsideMeasure(d: BoxProperties, top: TopBottomProperties, bottom: TopBottomProperties,
                               partList: seq<NamedPart>)
    returns (r: Result<seq<NamedPart>>)
    ensures r == match OutsideLayout(d, top, bottom)
      case Err(e) => Err(e)
      case Ok(lay) => Ok(partList + Panels(lay, d.thickness, d.lengthWidthPriority == RoundPriority))
  {
    var thickness := d.thickness;
    var frame := OutsidePriorityFrame(d);
    if frame.None? {
      return Err(ValueError(PriorityMessage));
    }
    var f := frame.value;
    var length, lengthSpacing, width, widthSpacing := f.length, f.lengthSpacing, f.width, f.widthSpacing;
    var caps := OutsideCapsOf(d, top, bottom);
    var height, shiftHeight := caps.height, caps.shift;
    var exceedingLength, exceedingWidth := caps.exceedingLength, caps.exceedingWidth;
    if exceedingLength > 0.0 {
      length := length - exceedingLength;
      widthSpacing := widthSpacing - exceedingLength;
    }
    if exceedingWidth > 0.0 {
      width := width - exceedingWidth;
      lengthSpacing := lengthSpacing - exceedingWidth;
    }
    assert length == f.length - exceedingLength && widthSpacing == f.widthSpacing - exceedingLength;
    assert width == f.width - exceedingWidth && lengthSpacing == f.lengthSpacing - exceedingWidth;
    var downZ := -height / 2.0;
    var upZ := height / 2.0;
    var bottomPanel;
    if bottom.position == PositionInside {
      bottomPanel := ZPanel(widthSpacing, lengthSpacing, thickness, downZ + bottom.heightShift);
    } else {
      bottomPanel := ZPanel(d.length + bottom.lengthOutside - exceedingLength,
                            d.width + bottom.widthOutside - exceedingWidth, thickness, downZ - thickness);
    }
    if top.topType != TopTypeNormal {
      return Err(ValueError(TopTypeMessage));
    }
    var topPanel;
    if top.position == PositionInside {
      topPanel := ZPanel(widthSpacing, lengthSpacing, thickness, upZ - thickness - top.heightShift);
    } else {
      topPanel := ZPanel(d.length + top.lengthOutside - exceedingLength,
                         d.width + top.widthOutside - exceedingWidth, thickness, upZ);
    }
    var lay := Layout(length, lengthSpacing, width, widthSpacing, height, shiftHeight, bottomPanel, topPanel);
    assert OutsideLayout(d, top, bottom) == Ok(lay);
    r := AppendPanels(lay, thickness, d.lengthWidthPriority == RoundPriority, partList);
  }

  /** `make_box_inside_measure`, appending to `partList`. */
  method MakeBoxInsideMeasure(d: BoxProperties, top: TopBottomProperties, bottom: TopBottomProperties,
                              partList: seq<NamedPart>)
    returns (r: Result<seq<NamedPart>>)
    ensures r == match InsideLayout(d, top, bottom)
      case Err(e) => Err(e)
      case Ok(lay) => Ok(partList + Panels(lay, d.thickness, d.lengthWidthPriority == RoundPriority))
  {
    var thickness := d.thickness;
    var height := d.height;
    var shiftHeight := 0.0;
    var coverLength := 0.0;
    var coverWidth := 0.0;
    var length, lengthSpacing, width, widthSpacing;
    if d.lengthWidthPriority == LengthPriority {
      length := d.length + 2.0 * thickness + 2.0 * d.widthShift;
      lengthSpacing := d.width;
      width := d.width;
      widthSpacing := d.length;
      coverLength := 2.0 * d.widthShift;
    } else if d.lengthWidthPriority == WidthPriority {
      length := d.length;
      lengthSpacing := d.width;
      width := d.width + 2.0 * thickness + 2.0 * d.lengthShift;
      widthSpacing := d.length;
      coverWidth := 2.0 * d.lengthShift;
    } else if d.lengthWidthPriority == CrossPriority {
      length := d.length + 2.0 * thickness + d.lengthOutside;
      lengthSpacing := d.width;
      width := d.width + 2.0 * thickness + d.widthOutside;
      widthSpacing := d.length;
    } else if d.lengthWidthPriority == RoundPriority {
      length := d.length + 2.0 * thickness - d.innerRadius;
      lengthSpacing := d.width;
      width := d.width + 2.0 * thickness - d.innerRadius;
      widthSpacing := d.length;
    } else {
      return Err(ValueError(PriorityMessage));
    }
    assert InsideFrame(d) == Some((Frame(length, lengthSpacing, width, widthSpacing), coverLength, coverWidth));
    if bottom.position == PositionInside {
      height := height + (thickness + bottom.heightShift);
      shiftHeight := shiftHeight + (-thickness - bottom.heightShift) / 2.0;
    }
    if top.position == PositionInside {
      height := height + (thickness + top.heightShift);
      shiftHeight := shiftHeight + (thickness + bottom.heightShift) / 2.0;
    }
    var downZ := -height / 2.0;
    var upZ := height / 2.0;
    var bottomPanel;
    if bottom.position == PositionInside {
      bottomPanel := ZPanel(d.length, d.width, thickness, downZ + bottom.heightShift);
    } else {
      bottomPanel := ZPanel(d.length + 2.0 * thickness + bottom.lengthOutside + coverLength,
                            d.width + 2.0 * thickness + bottom.widthOutside + coverWidth, thickness, downZ - thickness);
    }
    if top.topType != TopTypeNormal {
      return Err(ValueError(TopTypeMessage));
    }
    var topPanel;
    if top.position == PositionInside {
      topPanel := ZPanel(d.length, d.width, thickness, upZ - thickness - top.heightShift);
    } else {
      topPanel := ZPanel(d.length + 2.0 * thickness + top.lengthOutside + coverLength,
                         d.width + 2.0 * thickness + top.widthOutside + coverWidth, thickness, upZ);
    }
    var lay := Layout(length, lengthSpacing, width, widthSpacing, height, shiftHeight, bottomPanel, topPanel);
    assert InsideLayout(d, top, bottom) == Ok(lay);
    r := AppendPanels(lay, thickness, d.lengthWidthPriority == RoundPriority, partList);
  }

  /** The common end of both generators: build the front and side panels,
      raise every panel by the shift and append them in their fixed order. */
  method AppendPanels(lay: Layout, thickness: real, round: bool, partList: seq<NamedPart>)
    returns (r: Result<seq<NamedPart>>)
    ensures r == Ok(partList + Panels(lay, thickness, round))
  {
    var up := Vec3(0.0, 0.0, lay.shift);
    var (face, behind) := FrontPanels(lay.length, lay.height, thickness, lay.lengthSpacing);
    var (left, right) := SidePanels(lay.width, lay.height, thickness, lay.widthSpacing);
    var parts := partList;
    if round {
      var (half1, half2) := TwiceHalfFrontPanel(lay.length, lay.height, thickness, lay.lengthSpacing);
      parts := parts + [NamedPart(TranslateBox(half1, up), "face_panel_1")];
      parts := parts + [NamedPart(TranslateBox(half2, up), "face_panel_2")];
    } else {
      parts := parts + [NamedPart(TranslateBox(face, up), "face_panel")];
    }
    ghost var front := parts[|partList|..];
    assert parts == partList + front;
    assert front == Panels(lay, thickness, round)[..|front|];
    parts := parts + [NamedPart(TranslateBox(behind, up), "behind_panel")];
    parts := parts + [NamedPart(TranslateBox(left, up), "left_panel")];
    parts := parts + [NamedPart(TranslateBox(right, up), "right_panel")];
    parts := parts + [NamedPart(TranslateBox(lay.bottom, up), "bottom_panel")];
    parts := parts + [NamedPart(TranslateBox(lay.top, up), "top_panel")];
    ghost var all := Panels(lay, thickness, round);
    assert parts == partList + front + all[|front|..];
    assert all == front + all[|front|..];
    assert partList + front + all[|front|..] == partList + all;
    return Ok(parts);
  }

  /** `make_box`: the outside or the inside measuring of the box. */
  method MakeBox(d: BoxProperties, top: TopBottomProperties, bottom: TopBottomProperties)
    returns (r: Result<seq<NamedPart>>)
    ensures r.Err? <==> !KnownPriority(d.lengthWidthPriority) || top.topType != TopTypeNormal
    ensures r.Ok? ==>
      var lay := if d.outsideMeasure then OutsideLayout(d, top, bottom) else InsideLayout(d, top, bottom);
      r.value == Panels(lay.value, d.thickness, d.lengthWidthPriority == RoundPriority)
  {
    if d.outsideMeasure {
      r := MakeBoxOutsideMeasure(d, top, bottom, []);
    } else {
      r := MakeBoxInsideMeasure(d, top, bottom, []);
    }
  }
}
