/** lasercut/boxproperties.py: the dimensions of a parametric box and of
    its top and bottom panels, with their defaults. */
module BoxProperty {
  import opened Wrappers

  const LengthPriority: string := "Length"
  const WidthPriority: string := "Width"
  const CrossPriority: string := "No - Cross"
  const RoundPriority: string := "No - For rounding"

  const PositionOutside: string := "Outside"
  const PositionInside: string := "Inside"
  const TopTypeNormal: string := "Normal"
  const TopTypeCover: string := "Openable"

  /** The keyword arguments of `BoxProperties(...)`; `None` is a keyword
      that was not passed. */
  datatype BoxArgs = BoxArgs(
    length: Option<real>, width: Option<real>, height: Option<real>, thickness: Option<real>,
    outsideMeasure: Option<bool>, lengthWidthPriority: Option<string>,
    lengthOutside: Option<real>, widthOutside: Option<real>, innerRadius: Option<real>,
    lengthShift: Option<real>, widthShift: Option<real>)

  datatype BoxProperties = BoxProperties(
    length: real, width: real, height: real, thickness: real,
    outsideMeasure: bool, lengthWidthPriority: string,
    lengthOutside: real, widthOutside: real, innerRadius: real,
    lengthShift: real, widthShift: real)

  /** `BoxProperties.__init__`: every attribute not passed gets its default. */
  method NewBoxProperties(args: BoxArgs) returns (r: BoxProperties)
    ensures r.length == OrElse(args.length, 90.0) && r.width == OrElse(args.width, 50.0)
    ensures r.height == OrElse(args.height, 30.0) && r.thickness == OrElse(args.thickness, 3.0)
    ensures r.outsideMeasure == OrElse(args.outsideMeasure, true)
    ensures r.lengthWidthPriority == OrElse(args.lengthWidthPriority, LengthPriority)
    ensures r.lengthOutside == OrElse(args.lengthOutside, 0.0) && r.widthOutside == OrElse(args.widthOutside, 0.0)
    ensures r.innerRadius == OrElse(args.innerRadius, 0.0)
    ensures r.lengthShift == OrElse(args.lengthShift, 0.0) && r.widthShift == OrElse(args.widthShift, 0.0)
  {
    var length := OrElse(args.length, 90.0);
    var width := OrElse(args.width, 50.0);
    var height := OrElse(args.height, 30.0);
    var thickness := OrElse(args.thickness, 3.0);
    var outside := OrElse(args.outsideMeasure, true);
    var priority := OrElse(args.lengthWidthPriority, LengthPriority);
    var lengthOutside := OrElse(args.lengthOutside, 0.0);
    var widthOutside := OrElse(args.widthOutside, 0.0);
    var innerRadius := OrElse(args.innerRadius, 0.0);
    var lengthShift := OrElse(args.lengthShift, 0.0);
    var widthShift := OrElse(args.widthShift, 0.0);
    r := BoxProperties(length, width, height, thickness, outside, priority,
                       lengthOutside, widthOutside, innerRadius, lengthShift, widthShift);
  }

  /** The keyword arguments of `TopBottomProperties(...)`. */
  datatype TopBottomArgs = TopBottomArgs(
    position: Option<string>, heightShift: Option<real>, lengthOutside: Option<real>,
    widthOutside: Option<real>, topType: Option<string>, coverLengthTolerance: Option<real>)

  datatype TopBottomProperties = TopBottomProperties(
    position: string, heightShift: real, lengthOutside: real, widthOutside: real,
    topType: string, coverLengthTolerance: real)

  /** `TopBottomProperties.__init__`. */
  method NewTopBottomProperties(args: TopBottomArgs) returns (r: TopBottomProperties)
    ensures r.position == OrElse(args.position, PositionOutside)
    ensures r.heightShift == OrElse(args.heightShift, 0.0)
    ensures r.lengthOutside == OrElse(args.lengthOutside, 0.0) && r.widthOutside == OrElse(args.widthOutside, 0.0)
    ensures r.topType == OrElse(args.topType, TopTypeNormal)
    ensures r.coverLengthTolerance == OrElse(args.coverLengthTolerance, 3.0)
  {
    var position := OrElse(args.position, PositionOutside);
    var heightShift := OrElse(args.heightShift, 0.0);
    var lengthOutside := OrElse(args.lengthOutside, 0.0);
    var widthOutside := OrElse(args.widthOutside, 0.0);
    var topType := OrElse(args.topType, TopTypeNormal);
    var tolerance := OrElse(args.coverLengthTolerance, 3.0);
    r := TopBottomProperties(position, heightShift, lengthOutside, widthOutside, topType, tolerance);
  }
}
