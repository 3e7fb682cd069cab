/** lasercut/hingesproperties.py: the properties of one hinge between two
    faces of a part, filled from the bend geometry of makehinges.py, and the
    material of a living-hinge part. */
module HingesProperty {
  import opened Wrappers
  import opened Solids
  import opened Hinges

  /** A keyword argument of a constructor: not passed at all, or passed with
      a value that Python takes as true (`Some`) or as false (`None`). */
  datatype Kwarg<T> = Absent | Passed(value: Option<T>)

  /** The keyword arguments of `HingesProperties(...)`; `name` and
      `reversed_angle` are `None` when not passed. */
  datatype HingeArgs = HingeArgs(
    object1: Kwarg<DocObject>, face1: Kwarg<Face>, object2: Kwarg<DocObject>, face2: Kwarg<Face>,
    name: Option<string>, reversedAngle: Option<bool>)

  const RefsMessage: string := "Must defined freecad face/object"

  /** A reference given with a true value. */
  predicate Given<T>(a: Kwarg<T>) { a.Passed? && a.value.Some? }

  /** `kwargs[key]`, read for the truth test of `__init__`. */
  function Lookup<T>(a: Kwarg<T>, key: string): Result<Option<T>>
  {
    if a.Absent? then Err(KeyError(key)) else Ok(a.value)
  }

  /** One side of the checks of `__init__`: `not kwargs[o] or not kwargs[f]`. */
  function CheckSide<T, U>(o: Kwarg<T>, f: Kwarg<U>, oKey: string, fKey: string): Result<(T, U)>
  {
    match Lookup(o, oKey)
    case Err(e) => Err(e)
    case Ok(None) => Err(ValueError(RefsMessage))
    case Ok(Some(ov)) =>
      match Lookup(f, fKey)
      case Err(e) => Err(e)
      case Ok(None) => Err(ValueError(RefsMessage))
      case Ok(Some(fv)) => Ok((ov, fv))
  }

  /** The two checks of `__init__` on the objects and faces of both sides. */
  function CheckRefs(args: HingeArgs): (r: Result<HingeRefs>)
    ensures r.Ok? <==> Given(args.object1) && Given(args.face1) && Given(args.object2) && Given(args.face2)
    ensures r.Ok? ==>
      r.value == HingeRefs(args.object1.value.value, args.face1.value.value,
                           args.object2.value.value, args.face2.value.value)
    ensures r.Err? ==>
      r.error == ValueError(RefsMessage) ||
      r.error in {KeyError("freecad_object_1"), KeyError("freecad_face_1"),
                  KeyError("freecad_object_2"), KeyError("freecad_face_2")}
    ensures args.object1.Passed? && args.face1.Passed? && args.object2.Passed? && args.face2.Passed? && r.Err? ==>
      r.error == ValueError(RefsMessage)
  {
    match CheckSide(args.object1, args.face1, "freecad_object_1", "freecad_face_1")
    case Err(e) => Err(e)
    case Ok((o1, f1)) =>
      match CheckSide(args.object2, args.face2, "freecad_object_2", "freecad_face_2")
      case Err(e) => Err(e)
      case Ok((o2, f2)) => Ok(HingeRefs(o1, f1, o2, f2))
  }

  /** `name` when passed, otherwise "label1 -> label2". */
  function HingeName(given: Option<string>, refs: HingeRefs): (r: string)
    ensures given.Some? ==> r == given.value
    ensures given.None? ==> r == refs.object1.userLabel + " -> " + refs.object2.userLabel
  {
    if given.Some? then given.value else refs.object1.userLabel + " -> " + refs.object2.userLabel
  }

  /** The clearance width `__init__` estimates the minimum link count with. */
  const InitialClearance: real := 0.20

  /** The number of links of a hinge before its minimum is known. */
  const InitialNbLink: int := 5

  /** The six attributes `complete_hinges_properties` always writes:
      `rad_angle`, `deg_angle`, `arc_length`, `arc_inner_radius`,
      `arc_outer_radius` and `thickness`. */
  datatype Bend = Bend(radAngle: real, degAngle: real, arcLength: real,
                       innerRadius: real, outerRadius: real, thickness: real)

  /** The five attributes it writes only when asked to keep everything:
      `seg_face_1`, `seg_face_2`, `arc_middle_segment`, `extrustion_vector`
      and `rotation_vector`. */
  datatype Kept = Kept(seg1: Segment, seg2: Segment, arcMiddle: Segment, extrusion: Vec3, rotation: Vec3)

  function BendOf(g: HingeGeometry): Bend
  {
    Bend(g.radAngle, g.degAngle, g.arcLength, g.innerRadius, g.outerRadius, g.thickness)
  }

  function KeptOf(g: HingeGeometry): Kept
  {
    Kept(g.seg1, g.seg2, g.arcMiddle, g.extrusion, g.rotation)
  }

  class HingesProperties {
    /** The two objects and faces; `None` until `recomputeInit`. */
    var refs: Option<HingeRefs>
    var object1Name: string
    var object2Name: string
    var name: string
    var reversedAngle: bool
    /** The bend attributes, all `None` together until the geometry is completed. */
    var bend: Option<Bend>
    /** The kept attributes, all `None` together unless the geometry was kept. */
    var kept: Option<Kept>
    var minLinksNb: Option<int>
    var nbLink: int
    var solid: Option<Solid>

    /** The attributes `__init__` sets before it completes the geometry. */
    constructor (object1Name: string, object2Name: string, name: string, reversedAngle: bool)
      ensures this.object1Name == object1Name && this.object2Name == object2Name
      ensures this.name == name && this.reversedAngle == reversedAngle
      ensures refs.None? && bend.None? && kept.None? && minLinksNb.None? && nbLink == InitialNbLink && solid.None?
    {
      refs := None;
      this.object1Name := object1Name;
      this.object2Name := object2Name;
      this.name := name;
      this.reversedAngle := reversedAngle;
      bend, kept := None, None;
      minLinksNb := None;
      nbLink := InitialNbLink;
      solid := None;
    }

    /** The attributes hold bend geometry `g`; the segments, the extrusion
        and the rotation vector only when they were to be kept. */
    predicate Holds(g: HingeGeometry, storeAll: bool)
      reads this
    {
      bend == Some(BendOf(g)) && kept == (if storeAll then Some(KeptOf(g)) else None)
    }

    /** What `create_linked_part` reads of this hinge. */
    function View(): (v: HingeView)
      reads this
      ensures v.refs == refs && v.nbLink == nbLink && v.minLinksNb == minLinksNb && v.solid == solid
      ensures v.degAngle.Some? <==> bend.Some?
      ensures bend.Some? ==> v.degAngle == Some(bend.value.degAngle) && v.arcLength == Some(bend.value.arcLength) &&
                             v.thickness == Some(bend.value.thickness)
      ensures v.rotation.Some? <==> kept.Some?
      ensures kept.Some? ==> v.rotation == Some(kept.value.rotation) && v.extrusion == Some(kept.value.extrusion)
    {
      HingeView(name, refs, nbLink, minLinksNb,
                if bend.Some? then Some(bend.value.arcLength) else None,
                if kept.Some? then Some(kept.value.extrusion) else None,
                if bend.Some? then Some(bend.value.thickness) else None,
                if bend.Some? then Some(bend.value.degAngle) else None,
                if kept.Some? then Some(kept.value.rotation) else None,
                solid)
    }

    /** `complete_hinges_properties(self, face1, face2, storeAll)`: nothing is
        written when the bend geometry cannot be found. */
    method CompleteHingesProperties(face1: Face, face2: Face, storeAll: bool, k: HingeKernel) returns (r: Result<()>)
      modifies this`bend, this`kept
      ensures var g := HingeGeometryOf(face1, face2, reversedAngle, k);
        (r.Ok? <==> g.Ok?) && (r.Err? ==> r.error == g.error && unchanged(this)) &&
        (r.Ok? ==> Holds(g.value, storeAll))
    {
      var g := CompleteHinges(face1, face2, reversedAngle, k);
      if g.Err? {
        return Err(g.error);
      }
      bend := Some(BendOf(g.value));
      kept := Some(KeptOf(g.value));
      if !storeAll {
        kept := None;
      }
      return Ok(());
    }

    /** `compute_min_link`: the minimum number of links for a clearance, and
        one link more than that. */
    method ComputeMinLink(clearance: real, k: HingeKernel) returns (r: Result<()>)
      modifies this`minLinksNb, this`nbLink
      ensures var e := EstimateMinLink(if bend.Some? then Some(bend.value.radAngle) else None,
                                       if bend.Some? then Some(bend.value.thickness) else None, clearance, k);
        (r.Ok? <==> e.Ok?) && (r.Err? ==> r.error == e.error && unchanged(this)) &&
        (r.Ok? ==> minLinksNb == Some(e.value) && nbLink == e.value + 1)
    {
      var e := EstimateMinLink(if bend.Some? then Some(bend.value.radAngle) else None,
                               if bend.Some? then Some(bend.value.thickness) else None, clearance, k);
      if e.Err? {
        return Err(e.error);
      }
      minLinksNb := Some(e.value);
      nbLink := e.value + 1;
      return Ok(());
    }

    /** `recomputeInit`: stores the objects and faces, completes the whole
        geometry and builds the bent solid; `corner` is the kernel work of
        `create_solid_corner` on the two segments, the arc's middle segment
        and the extrusion vector. */
    method RecomputeInit(refs: HingeRefs, corner: (Segment, Segment, Segment, Vec3) -> Solid, k: HingeKernel)
      returns (r: Result<()>)
      modifies this`refs, this`bend, this`kept, this`solid
      ensures this.refs == Some(refs)
      ensures var g := HingeGeometryOf(refs.face1, refs.face2, reversedAngle, k);
        (r.Ok? <==> g.Ok?) &&
        (r.Ok? ==> Holds(g.value, true) &&
                   solid == Some(corner(g.value.seg1, g.value.seg2, g.value.arcMiddle, g.value.extrusion))) &&
        (r.Err? ==> r.error == g.error && bend == old(bend) && kept == old(kept) && solid == old(solid))
    {
      this.refs := Some(refs);
      r := CompleteHingesProperties(refs.face1, refs.face2, true, k);
      if r.Ok? {
        solid := Some(corner(kept.value.seg1, kept.value.seg2, kept.value.arcMiddle, kept.value.extrusion));
      }
    }
  }

  /** What `HingesProperties(**kwargs)` ends with: an error, or the
      objects and faces, the bend and the minimum number of links of the new
      hinge. The bend geometry is computed before `reversed_angle` is read,
      so a hinge built without that keyword fails with the geometry's error,
      or else on the missing attribute. */
  function Construction(args: HingeArgs, k: HingeKernel): Result<(HingeRefs, Bend, int)>
  {
    match CheckRefs(args)
    case Err(e) => Err(e)
    case Ok(refs) =>
      var reversed := if args.reversedAngle.Some? then args.reversedAngle.value else false;
      match HingeGeometryOf(refs.face1, refs.face2, reversed, k)
      case Err(e) => Err(e)
      case Ok(g) =>
        if args.reversedAngle.None? then Err(AttributeError)
        else match EstimateMinLink(Some(g.radAngle), Some(g.thickness), InitialClearance, k)
          case Err(e) => Err(e)
          case Ok(m) => Ok((refs, BendOf(g), m))
  }

  /** `HingesProperties(**kwargs)`. */
  method NewHingesProperties(args: HingeArgs, k: HingeKernel) returns (r: Result<HingesProperties>)
    ensures var c := Construction(args, k);
      (r.Ok? <==> c.Ok?) && (r.Err? ==> r.error == c.error) &&
      (r.Ok? ==>
        var (refs, bend, m) := c.value;
        var h := r.value;
        fresh(h) && h.refs.None? && h.bend == Some(bend) && h.kept.None? && h.solid.None? &&
        h.minLinksNb == Some(m) && h.nbLink == m + 1 && h.reversedAngle == args.reversedAngle.value &&
        h.object1Name == refs.object1.name && h.object2Name == refs.object2.name &&
        h.name == HingeName(args.name, refs))
  {
    var checked := CheckRefs(args);
    if checked.Err? {
      return Err(checked.error);
    }
    var refs := checked.value;
    var name := HingeName(args.name, refs);
    if args.reversedAngle.None? {
      var g := CompleteHinges(refs.face1, refs.face2, false, k);
      if g.Err? {
        return Err(g.error);
      }
      return Err(AttributeError);
    }
    var h := new HingesProperties(refs.object1.name, refs.object2.name, name, args.reversedAngle.value);
    var done := h.CompleteHingesProperties(refs.face1, refs.face2, false, k);
    if done.Err? {
      return Err(done.error);
    }
    done := h.ComputeMinLink(InitialClearance, k);
    if done.Err? {
      return Err(done.error);
    }
    return Ok(h);
  }

  /** A hinge is built only from true objects and faces on both sides and
      an explicit `reversed_angle`; its bend is the geometry of the two faces
      and its minimum number of links the ceiling of the bend angle over the
      angle one link takes at clearance 0.20. */
  lemma ConstructionOk(args: HingeArgs, k: HingeKernel)
    requires Construction(args, k).Ok?
    ensures Given(args.object1) && Given(args.face1) && Given(args.object2) && Given(args.face2)
    ensures args.reversedAngle.Some?
    ensures var (refs, bend, m) := Construction(args, k).value;
      var g := HingeGeometryOf(refs.face1, refs.face2, args.reversedAngle.value, k);
      refs == CheckRefs(args).value && g.Ok? && bend == BendOf(g.value) &&
      var gap := Pi / 4.0 - k.acos(BendCosine(bend.thickness, InitialClearance, k));
      HalfDiagonal(bend.thickness, k) != 0.0 && gap != 0.0 &&
      ((m - 1) as real) < bend.radAngle / gap <= m as real
  {
    var refs := CheckRefs(args).value;
    var g := HingeGeometryOf(refs.face1, refs.face2, args.reversedAngle.value, k);
    var e := EstimateMinLink(Some(g.value.radAngle), Some(g.value.thickness), InitialClearance, k);
    assert e.Ok?;
  }

  /** The failures of construction, in the order `__init__` meets them. */
  lemma ConstructionErrors(args: HingeArgs, k: HingeKernel)
    ensures CheckRefs(args).Err? ==> Construction(args, k) == Err(CheckRefs(args).error)
    ensures CheckRefs(args).Ok? && args.reversedAngle.None? ==>
      var refs := CheckRefs(args).value;
      var g := HingeGeometryOf(refs.face1, refs.face2, false, k);
      Construction(args, k) == Err(if g.Err? then g.error else AttributeError)
  {
  }

  /** A hinge whose link count is one more than its minimum, as
      `compute_min_link` leaves it, never raises the "min link is not
      respected" warning of `create_linked_part`. */
  lemma MinLinkRespected(h: HingeView)
    requires h.minLinksNb.Some? && h.nbLink == h.minLinksNb.value + 1
    ensures !BelowMinLink(h)
  {
  }

  /** A linked part cannot be made from a hinge list whose first hinge
      has no objects and faces yet, as after construction. */
  lemma UnboundHingeNotLinked(hs: seq<HingeView>, g: GlobalLiving, step: Stepper)
    requires |hs| > 0 && hs[0].refs.None?
    ensures LinkedPartOf(hs, g, step).Err?
    ensures g.laserBeamDiameter <= g.linkClearance ==> LinkedPartOf(hs, g, step) == Err(AttributeError)
  {
  }

  // ---------------------------------------------------------------------
  // GlobalLivingMaterialProperties

  /** The keyword arguments of `GlobalLivingMaterialProperties(...)`; `None`
      is a keyword that was not passed. */
  datatype GlobalLivingArgs = GlobalLivingArgs(
    freecadObject: Option<DocObject>, thickness: Option<real>, freecadObjectName: Option<string>,
    name: Option<string>, objectLabel: Option<string>, laserBeamDiameter: Option<real>,
    linkClearance: Option<real>, newName: Option<string>, solidName: Option<string>,
    dogBone: Option<bool>, generateSolid: Option<bool>, hingeType: Option<string>,
    alternateNbHinge: Option<int>, occupancyRatio: Option<real>)

  const HingeTypeAlternateDouble: string := "Alternate"

  /** Some default needs `kwargs['freecad_object']`. */
  predicate NeedsObject(args: GlobalLivingArgs)
  {
    args.thickness.None? || args.freecadObjectName.None? || args.name.None? || args.objectLabel.None? ||
    args.newName.None? || args.solidName.None?
  }

  /** `GlobalLivingMaterialProperties.__init__`. `estimate` is what
      `retrieve_thickness_from_biggest_face` gives for the object; only its
      ValueError is caught, and the thickness stays 5.0 then. */
  method NewGlobalLiving(args: GlobalLivingArgs, estimate: Result<real>) returns (r: Result<GlobalLiving>)
    ensures r.Err? <==>
      (args.freecadObject.None? && NeedsObject(args)) ||
      (args.freecadObject.Some? && args.thickness.None? && estimate.Err? && !estimate.error.ValueError?)
    ensures args.freecadObject.None? && r.Err? ==> r == Err(KeyError("freecad_object"))
    ensures args.freecadObject.Some? && r.Err? ==> r == Err(estimate.error)
    ensures r.Ok? ==>
      var g := r.value;
      g.thickness == (if args.thickness.Some? then args.thickness.value
                      else if estimate.Ok? then estimate.value else 5.0) &&
      g.laserBeamDiameter == (if args.laserBeamDiameter.Some? then args.laserBeamDiameter.value
                              else g.thickness / 15.0) &&
      g.linkClearance == (if args.linkClearance.Some? then args.linkClearance.value
                          else g.laserBeamDiameter * 3.0) &&
      g.dogBone == (if args.dogBone.Some? then args.dogBone.value else false) &&
      g.generateSolid == (if args.generateSolid.Some? then args.generateSolid.value else true) &&
      g.hingeType == (if args.hingeType.Some? then args.hingeType.value else HingeTypeAlternateDouble) &&
      g.alternateNbHinge == (if args.alternateNbHinge.Some? then args.alternateNbHinge.value else 2) &&
      g.occupancyRatio == (if args.occupancyRatio.Some? then args.occupancyRatio.value else 0.8)
    ensures r.Ok? && args.freecadObject.Some? ==>
      var o := args.freecadObject.value;
      var g := r.value;
      g.freecadObjectName == (if args.freecadObjectName.Some? then args.freecadObjectName.value else o.name) &&
      g.name == (if args.name.Some? then args.name.value else o.name) &&
      g.objectLabel == (if args.objectLabel.Some? then args.objectLabel.value else o.userLabel) &&
      g.newName == (if args.newName.Some? then args.newName.value else o.userLabel + "_flat") &&
      g.solidName == (if args.solidName.Some? then args.solidName.value else o.userLabel + "_solid")
    ensures r.Ok? && args.freecadObject.None? ==>
      r.value.freecadObjectName == args.freecadObjectName.value && r.value.name == args.name.value &&
      r.value.objectLabel == args.objectLabel.value && r.value.newName == args.newName.value &&
      r.value.solidName == args.solidName.value
  {
    // the defaults below read `kwargs['freecad_object']` only when it is
    // present, and the estimate fails only on a present object, so the two
    // kinds of failure never compete
    if args.freecadObject.None? && NeedsObject(args) {
      return Err(KeyError("freecad_object"));
    }
    var thickness: real;
    if args.thickness.Some? {
      thickness := args.thickness.value;
    } else {
      thickness := 5.0;
      match estimate {
        case Ok(t) => thickness := t;
        case Err(e) =>
          if !e.ValueError? {
            return Err(e);
          }
      }
    }
    var objectName, name, objectLabel, newName, solidName;
    if args.freecadObject.Some? {
      var o := args.freecadObject.value;
      objectName := OrElse(args.freecadObjectName, o.name);
      name := OrElse(args.name, o.name);
      objectLabel := OrElse(args.objectLabel, o.userLabel);
      newName := OrElse(args.newName, o.userLabel + "_flat");
      solidName := OrElse(args.solidName, o.userLabel + "_solid");
    } else {
      objectName, name, objectLabel := args.freecadObjectName.value, args.name.value, args.objectLabel.value;
      newName, solidName := args.newName.value, args.solidName.value;
    }
    var laser := OrElse(args.laserBeamDiameter, thickness / 15.0);
    var clearance := OrElse(args.linkClearance, laser * 3.0);
    var dogBone := OrElse(args.dogBone, false);
    var generateSolid := OrElse(args.generateSolid, true);
    var hingeType := OrElse(args.hingeType, HingeTypeAlternateDouble);
    var alternate := OrElse(args.alternateNbHinge, 2);
    var occupancy := OrElse(args.occupancyRatio, 0.8);
    return Ok(GlobalLiving(newName, thickness, laser, objectName, name, objectLabel, clearance, solidName,
                           dogBone, generateSolid, hingeType, alternate, occupancy));
  }
}
