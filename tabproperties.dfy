/** lasercut/tabproperties.py: the settings of one tab joint, checked and
    completed with defaults when it is built. */
module TabProperty {
  import opened Wrappers
  import opened Solids
  import opened Helper

  /** `TYPE_TAB` ('Tab'), `TYPE_T_SLOT` ('Screw'), `TYPE_CONTINUOUS`
      ('Continuous'), and `TYPE_NOT_DEFINED`, which the tabs list gives to a
      link entry. */
  datatype TabType = TabKind | TSlotKind | ContinuousKind | NotDefinedKind

  /** The attributes the tabs list identifies an entry by. tabproperties.py
      does not set them; they are stored as the caller passes them. A
      `linkName` of `None` is an entry that is not a link: `link_name` is
      None, as the tab widgets set it on themselves. */
  datatype TabIdentity = TabIdentity(tabName: string, faceName: string, description: string,
                                     freecadObjName: string, linkName: Option<string>)

  /** Keyword arguments of `TabProperties(...)`; `None` is a keyword that was
      not passed. No caller passes Python's `None` for any of them, so the
      case of a keyword passed as `None` does not arise. */
  datatype TabArgs = TabArgs(
    freecadObject: Option<DocObject>, freecadFace: Option<Face>, tabType: Option<TabType>,
    yLength: Option<real>, thickness: Option<real>, transformMatrix: Option<Matrix3>,
    tabsNumber: Option<int>, tabsWidth: Option<real>, tabsShift: Option<real>,
    intervalRatio: Option<real>, halfTabRatio: Option<real>,
    screwDiameter: Option<real>, screwLength: Option<real>,
    dogBone: Option<bool>, yInvert: Option<bool>, identity: TabIdentity)

  /** A built tab. The face geometry (`y_length`, `thickness`,
      `transform_matrix`) is `None` when the attribute was never set: the
      local frame of the face could not be found and none was passed.
      Reading such an attribute raises an AttributeError. */
  datatype TabProperties = TabProperties(
    freecadObject: DocObject, freecadFace: Face, tabType: TabType,
    yLength: Option<real>, thickness: Option<real>, transformMatrix: Option<Matrix3>,
    tabsNumber: int, tabsWidth: real, tabsShift: real, intervalRatio: real, halfTabRatio: real,
    screwDiameter: real, screwLength: real, dogBone: bool, yInvert: bool, identity: TabIdentity)

  function Default<T>(o: Option<T>, d: T): T
  {
    if o.Some? then o.value else d
  }

  /** Whether the constructor has to look up the face's local frame. */
  predicate NeedsAxes(args: TabArgs)
  {
    args.yLength.None? || args.thickness.None? || args.transformMatrix.None?
  }

  /** The face geometry of `TabProperties.__init__`: `y_length`, `thickness`
      and `transform_matrix` as passed, or all three from the face's local
      frame when one of them is missing. */
  method FaceGeometry(args: TabArgs, axes: Result<Option<LocalAxes>>,
                      length: Vec3 -> real, normalize: Vec3 -> Vec3)
    returns (r: Result<(Option<real>, Option<real>, Option<Matrix3>)>)
    ensures r.Err? <==> NeedsAxes(args) && (axes == Ok(None) || (axes.Err? && !axes.error.ValueError?))
    ensures r.Err? ==> r == (if axes == Ok(None) then Err(AttributeError) else Err(axes.error))
    ensures r.Ok? && NeedsAxes(args) && axes.Ok? ==>
      axes.value.Some? &&
      r.value == (Some(length(axes.value.value.yRaw)), Some(length(axes.value.value.zRaw)),
                  Some(GetMatrixTransform(axes, normalize).value))
    ensures r.Ok? && !(NeedsAxes(args) && axes.Ok?) ==>
      r.value == (args.yLength, args.thickness, args.transformMatrix)
  {
    if !NeedsAxes(args) {
      return Ok((args.yLength, args.thickness, args.transformMatrix));
    }
    match axes {
      case Err(e) =>
        if !e.ValueError? {
          return Err(e);
        }
        return Ok((args.yLength, args.thickness, args.transformMatrix));
      case Ok(found) =>
        if found.None? {
          return Err(AttributeError);
        }
        var m := GetMatrixTransform(axes, normalize);
        return Ok((Some(length(found.value.yRaw)), Some(length(found.value.zRaw)), Some(m.value)));
    }
  }

  /** `TabProperties.__init__`. `axes` is what `get_local_axis` gives for the
      face (Helper.GetLocalAxis); `length` is the kernel's vector length and
      `normalize` its normalisation. Only a ValueError of the frame lookup is
      caught (the three geometry attributes are then left as passed); a face
      without a matching frame makes `None.Length` fail with AttributeError. */
  method NewTabProperties(args: TabArgs, axes: Result<Option<LocalAxes>>,
                          length: Vec3 -> real, normalize: Vec3 -> Vec3)
    returns (r: Result<TabProperties>)
    ensures r.Err? <==>
      (args.freecadObject.None? || args.freecadFace.None? || args.tabType.None? ||
       (NeedsAxes(args) && (axes == Ok(None) || (axes.Err? && !axes.error.ValueError?))))
    ensures args.freecadObject.None? || args.freecadFace.None? ==>
      r == Err(ValueError("Must defined freecad face/object"))
    ensures args.freecadObject.Some? && args.freecadFace.Some? && args.tabType.None? ==>
      r == Err(ValueError("no type of tab defined"))
    ensures args.freecadObject.Some? && args.freecadFace.Some? && args.tabType.Some? && r.Err? ==>
      r == (if axes == Ok(None) then Err(AttributeError) else Err(axes.error))
    ensures r.Ok? && NeedsAxes(args) && axes.Ok? ==>
      axes.value.Some? &&
      r.value.thickness == Some(length(axes.value.value.zRaw)) &&
      r.value.yLength == Some(length(axes.value.value.yRaw)) &&
      r.value.transformMatrix == Some(GetMatrixTransform(axes, normalize).value)
    ensures r.Ok? && !(NeedsAxes(args) && axes.Ok?) ==>
      r.value.thickness == args.thickness && r.value.yLength == args.yLength &&
      r.value.transformMatrix == args.transformMatrix
    ensures r.Ok? ==>
      r.value.freecadObject == args.freecadObject.value && r.value.freecadFace == args.freecadFace.value &&
      r.value.tabType == args.tabType.value && r.value.identity == args.identity
    ensures r.Ok? ==>
      r.value.tabsNumber == Default(args.tabsNumber, 1) &&
      r.value.tabsWidth == Default(args.tabsWidth, 10.0) &&
      r.value.tabsShift == Default(args.tabsShift, 0.0) &&
      r.value.intervalRatio == Default(args.intervalRatio, 1.0) &&
      r.value.halfTabRatio == Default(args.halfTabRatio, 1.0) &&
      r.value.screwDiameter == Default(args.screwDiameter, 3.0) &&
      r.value.screwLength == Default(args.screwLength, 15.0) &&
      r.value.dogBone == Default(args.dogBone, true) &&
      r.value.yInvert == Default(args.yInvert, false)
  {
    if args.freecadObject.None? || args.freecadFace.None? {
      return Err(ValueError("Must defined freecad face/object"));
    }
    if args.tabType.None? {
      return Err(ValueError("no type of tab defined"));
    }
    var geometry := FaceGeometry(args, axes, length, normalize);
    if geometry.Err? {
      return Err(geometry.error);
    }
    var (yLength, thickness, matrix) := geometry.value;
    var tabsNumber := Default(args.tabsNumber, 1);
    var tabsWidth := Default(args.tabsWidth, 10.0);
    var tabsShift := Default(args.tabsShift, 0.0);
    var intervalRatio := Default(args.intervalRatio, 1.0);
    var halfTabRatio := Default(args.halfTabRatio, 1.0);
    var screwDiameter := Default(args.screwDiameter, 3.0);
    var screwLength := Default(args.screwLength, 15.0);
    var dogBone := Default(args.dogBone, true);
    var yInvert := Default(args.yInvert, false);
    return Ok(TabProperties(args.freecadObject.value, args.freecadFace.value, args.tabType.value,
                            yLength, thickness, matrix, tabsNumber, tabsWidth, tabsShift,
                            intervalRatio, halfTabRatio, screwDiameter, screwLength,
                            dogBone, yInvert, args.identity));
  }
}
