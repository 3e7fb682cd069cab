/** lasercut/join.py: the tab, hole and screw-way solids of a joint, in the
    local frame of the tab's face: x across the other panel's thickness, y
    along the face, z across the tab panel's thickness. */
module JoinShapes {
  import opened Wrappers
  import opened Solids
  import opened Helper
  import opened Material
  import opened TabProperty

  /** `tab_join_create_tab_on_face`: the tab is the nominal width, widened by
      half the tab panel's kerf on each side that asks for it. */
  function TabOnFace(face: MaterialProperties, plane: MaterialProperties, width: real, posY: real,
                     leftKerf: bool, rightKerf: bool): (b: Box)
    ensures b.lo.x == -plane.thickness / 2.0 && b.hi.x == plane.thickness / 2.0
    ensures b.lo.z == -face.thickness / 2.0 && b.hi.z == face.thickness / 2.0
    ensures b.lo.y == posY - width / 2.0 - (if leftKerf then face.laserBeamDiameter / 2.0 else 0.0)
    ensures b.hi.y == posY + width / 2.0 + (if rightKerf then face.laserBeamDiameter / 2.0 else 0.0)
  {
    var length := plane.thickness;
    var height := face.thickness;
    var kerf := face.laserBeamDiameter;
    var (w, center) :=
      if leftKerf && rightKerf then (width + kerf, (width + kerf) / 2.0)
      else if leftKerf then (width + kerf / 2.0, (width + kerf / 2.0 + kerf / 2.0) / 2.0)
      else if rightKerf then (width + kerf / 2.0, (width + kerf / 2.0 - kerf / 2.0) / 2.0)
      else (width, width / 2.0);
    TranslateBox(MakeBox(length, w, height, Vec3(-length / 2.0, -center, -height / 2.0)), Vec3(0.0, posY, 0.0))
  }

  /** The hole `tab_join_create_hole_on_plane` cuts: the nominal width,
      narrowed by half the other panel's kerf on each kerf side, and the tab
      panel's thickness plus tolerance, narrowed by half a kerf on each side
      where `check_limit_z` found material. */
  function HoleBox(face: MaterialProperties, plane: MaterialProperties, width: real, posY: real,
                   leftKerf: bool, rightKerf: bool, zPlus: bool, zMinus: bool): (b: Box)
    ensures b.lo.x == -plane.thickness / 2.0 && b.hi.x == plane.thickness / 2.0
    ensures b.lo.y == posY - width / 2.0 + (if leftKerf then plane.laserBeamDiameter / 2.0 else 0.0)
    ensures b.hi.y == posY + width / 2.0 - (if rightKerf then plane.laserBeamDiameter / 2.0 else 0.0)
    ensures b.lo.z == -(face.thickness + face.thicknessTolerance) / 2.0 +
                      (if zPlus then plane.laserBeamDiameter / 2.0 else 0.0)
    ensures b.hi.z == (face.thickness + face.thicknessTolerance) / 2.0 -
                      (if zMinus then plane.laserBeamDiameter / 2.0 else 0.0)
  {
    var length := plane.thickness;
    var kerf := plane.laserBeamDiameter;
    var (w, wCenter) :=
      if leftKerf && rightKerf then (width - kerf, (width - kerf) / 2.0)
      else if leftKerf then (width - kerf / 2.0, (width - kerf / 2.0 - kerf / 2.0) / 2.0)
      else if rightKerf then (width - kerf / 2.0, (width - kerf / 2.0 + kerf / 2.0) / 2.0)
      else (width, width / 2.0);
    var height := face.thickness + face.thicknessTolerance;
    var (h, hCenter) :=
      if zPlus && zMinus then (height - kerf, (height - kerf) / 2.0)
      else if zPlus then (height - kerf / 2.0, (height - kerf / 2.0 - kerf / 2.0) / 2.0)
      else if zMinus then (height - kerf / 2.0, (height - kerf / 2.0 + kerf / 2.0) / 2.0)
      else (height, height / 2.0);
    TranslateBox(MakeBox(length, w, h, Vec3(-length / 2.0, -wCenter, -hCenter)), Vec3(0.0, posY, 0.0))
  }

  /** The two probes of `check_limit_z`: thin boxes a quarter of the slot
      wide, just past the tab panel's two faces. `box_z_minus` sits above
      the panel, `box_z_plus` below it. */
  function LimitZMinusBox(face: MaterialProperties, plane: MaterialProperties, width: real, posY: real): (b: Box)
    ensures b.lo.z == face.thickness / 2.0 && b.hi.z == face.thickness / 2.0 + 0.1
    ensures b.lo.y == posY - width / 4.0 && b.hi.y == posY + width / 4.0
  {
    TranslateBox(MakeBox(plane.thickness / 2.0, width / 2.0, 0.1, Vec3(0.0, 0.0, 0.0)),
                 Vec3(-plane.thickness / 2.0 - 0.005, posY - width / 4.0, face.thickness / 2.0))
  }

  function LimitZPlusBox(face: MaterialProperties, plane: MaterialProperties, width: real, posY: real): (b: Box)
    ensures b.hi.z == -face.thickness / 2.0 && b.lo.z == -face.thickness / 2.0 - 0.1
    ensures b.lo.y == posY - width / 4.0 && b.hi.y == posY + width / 4.0
  {
    TranslateBox(MakeBox(plane.thickness / 2.0, width / 2.0, 0.1, Vec3(0.0, 0.0, 0.0)),
                 Vec3(-plane.thickness / 2.0 - 0.005, posY - width / 4.0, -0.1 - face.thickness / 2.0))
  }

  /** `transform_part`: into the tab face's frame, offset by half the other panel's thickness. */
  function Transform(s: Solid, tab: TabProperties, plane: MaterialProperties): Solid
  {
    Placed(s, OnFace(tab.freecadFace, tab.transformMatrix, plane.thickness / 2.0))
  }

  /** `check_intersect`: whether the transformed solid meets the other panel's shape. */
  predicate Hits(probe: Probe, plane: MaterialProperties, transformed: Solid)
  {
    probe(Source(plane.freecadObject.id), transformed)
  }

  /** The left fold `shape = shape.fuse(x)` over `l`. */
  function FuseOnto(s: Solid, l: seq<Solid>): (r: Solid)
    ensures FusedPieces(r, |l| + 1) == [s] + l
  {
    if l == [] then s
    else
      var r := Fuse(FuseOnto(s, l[..|l| - 1]), l[|l| - 1]);
      assert [s] + l[..|l| - 1] + [l[|l| - 1]] == [s] + l;
      r
  }

  /** A dog bone centred 0.1 in from both walls of a corner, whose radius 0.2
      reaches past the corner (0.1 * 0.1 + 0.1 * 0.1 < 0.2 * 0.2). */
  predicate NearCorner(cy: real, cz: real, loY: real, hiY: real, loZ: real, hiZ: real)
  {
    (cy == loY + 0.1 || cy == hiY - 0.1) && (cz == loZ + 0.1 || cz == hiZ - 0.1)
  }

  /** The cylinders of `make_dog_bone_on_limits_on_yz`, along x through the
      corners chosen by the four flags, in the order (y min, z min),
      (y max, z min), (y min, z max), (y max, z max). */
  function YZBones(b: Box, length: real, yMinZMin: bool, yMaxZMin: bool, yMinZMax: bool, yMaxZMax: bool)
    : (r: seq<Solid>)
    ensures |r| == (if yMinZMin then 1 else 0) + (if yMaxZMin then 1 else 0) +
                   (if yMinZMax then 1 else 0) + (if yMaxZMax then 1 else 0)
    ensures forall i :: 0 <= i < |r| ==>
      r[i].Cylinder? && r[i].axis == XAxis && r[i].radius == 0.2 && r[i].length == length &&
      r[i].center.x == 0.0 && NearCorner(r[i].center.y, r[i].center.z, b.lo.y, b.hi.y, b.lo.z, b.hi.z)
  {
    (if yMinZMin then [Cylinder(XAxis, Vec3(0.0, b.lo.y + 0.1, b.lo.z + 0.1), 0.2, length)] else []) +
    (if yMaxZMin then [Cylinder(XAxis, Vec3(0.0, b.hi.y - 0.1, b.lo.z + 0.1), 0.2, length)] else []) +
    (if yMinZMax then [Cylinder(XAxis, Vec3(0.0, b.lo.y + 0.1, b.hi.z - 0.1), 0.2, length)] else []) +
    (if yMaxZMax then [Cylinder(XAxis, Vec3(0.0, b.hi.y - 0.1, b.hi.z - 0.1), 0.2, length)] else [])
  }

  /** The cylinders of `make_dog_bone_on_limits_on_xy`, along z through the
      four corners (x min, y min), (x max, y min), (x min, y max), (x max, y max). */
  function XYBones(b: Box, height: real): (r: seq<Solid>)
    ensures |r| == 4
    ensures forall i :: 0 <= i < 4 ==>
      r[i].Cylinder? && r[i].axis == ZAxis && r[i].radius == 0.2 && r[i].length == height &&
      r[i].center.z == 0.0 && NearCorner(r[i].center.x, r[i].center.y, b.lo.x, b.hi.x, b.lo.y, b.hi.y)
  {
    [Cylinder(ZAxis, Vec3(b.lo.x + 0.1, b.lo.y + 0.1, 0.0), 0.2, height),
     Cylinder(ZAxis, Vec3(b.hi.x - 0.1, b.lo.y + 0.1, 0.0), 0.2, height),
     Cylinder(ZAxis, Vec3(b.lo.x + 0.1, b.hi.y - 0.1, 0.0), 0.2, height),
     Cylinder(ZAxis, Vec3(b.hi.x - 0.1, b.hi.y - 0.1, 0.0), 0.2, height)]
  }

  /** The limit probes and the hole of `tab_join_create_hole_on_plane`; with
      dog bones, the corners on the sides where material was found. */
  function HoleShape(tab: TabProperties, face: MaterialProperties, plane: MaterialProperties,
                     width: real, posY: real, leftKerf: bool, rightKerf: bool, probe: Probe): Solid
  {
    var zPlus := Hits(probe, plane, Transform(Cuboid(LimitZPlusBox(face, plane, width, posY)), tab, plane));
    var zMinus := Hits(probe, plane, Transform(Cuboid(LimitZMinusBox(face, plane, width, posY)), tab, plane));
    var hole := HoleBox(face, plane, width, posY, leftKerf, rightKerf, zPlus, zMinus);
    if tab.dogBone then FuseOnto(Cuboid(hole), YZBones(hole, plane.thickness, zPlus, zPlus, zMinus, zMinus))
    else Cuboid(hole)
  }

  /** The screw shaft channel of `screw_way_on_face`: from the other panel's
      mid-plane outwards, as long as the screw less the other panel's
      thickness plus its tolerance, 1.2 screw diameters less a kerf wide. */
  function ScrewBox(face: MaterialProperties, plane: MaterialProperties, spec: ScrewNutSpec, posY: real): (b: Box)
    ensures b.lo.x == plane.thickness / 2.0
    ensures b.hi.x == plane.thickness / 2.0 + spec.screwLength - plane.thickness + plane.thicknessTolerance
    ensures b.lo.y + b.hi.y == 2.0 * posY && b.hi.y - b.lo.y == spec.screwDiameter * 1.2 - face.laserBeamDiameter
    ensures b.lo.z == -face.thickness / 2.0 && b.hi.z == face.thickness / 2.0
  {
    var length := spec.screwLength - plane.thickness + plane.thicknessTolerance;
    var width := spec.screwDiameter * 1.2 - face.laserBeamDiameter;
    var height := face.thickness;
    TranslateBox(MakeBox(length, width, height, Vec3(plane.thickness / 2.0, -width / 2.0, -height / 2.0)),
                 Vec3(0.0, posY, 0.0))
  }

  /** The nut pocket of `screw_way_on_face`: its far side lies one nut height
      short of the end of the shaft channel. */
  function NutBox(face: MaterialProperties, plane: MaterialProperties, spec: ScrewNutSpec, posY: real): (b: Box)
    ensures b.hi.x == ScrewBox(face, plane, spec, posY).hi.x - spec.nutHeight
    ensures b.hi.x - b.lo.x == spec.nutHeight - face.laserBeamDiameter + 0.1
    ensures b.lo.y + b.hi.y == 2.0 * posY && b.hi.y - b.lo.y == spec.nutFlatFlat - face.laserBeamDiameter + 0.1
    ensures b.lo.z == -face.thickness / 2.0 && b.hi.z == face.thickness / 2.0
  {
    var screwLength := spec.screwLength - plane.thickness + plane.thicknessTolerance;
    var length := spec.nutHeight - face.laserBeamDiameter + 0.1;
    var width := spec.nutFlatFlat - face.laserBeamDiameter + 0.1;
    var height := face.thickness;
    TranslateBox(MakeBox(length, width, height, Vec3(plane.thickness / 2.0, -width / 2.0, -height / 2.0)),
                 Vec3(screwLength - length - spec.nutHeight, posY, 0.0))
  }

  /** `screw_way_on_face`: the shaft channel fused with the nut pocket. */
  function ScrewWayOnFace(face: MaterialProperties, plane: MaterialProperties, spec: ScrewNutSpec,
                          posY: real, dogBone: bool): (r: Solid)
    ensures r.Fuse? && r.a == Cuboid(ScrewBox(face, plane, spec, posY))
  {
    var nut := NutBox(face, plane, spec, posY);
    var nutShape := if dogBone then FuseOnto(Cuboid(nut), XYBones(nut, face.thickness)) else Cuboid(nut);
    Fuse(Cuboid(ScrewBox(face, plane, spec, posY)), nutShape)
  }

  /** `screw_way_on_plane`: the screw's hole through the other panel, along
      x, 1.2 diameters less a kerf across. */
  function ScrewWayOnPlane(plane: MaterialProperties, spec: ScrewNutSpec, posY: real): (r: Solid)
    ensures r.Cylinder? && r.axis == XAxis && r.center == Vec3(0.0, posY, 0.0) && r.length == plane.thickness
    ensures 2.0 * r.radius + plane.laserBeamDiameter == 1.2 * spec.screwDiameter
  {
    Cylinder(XAxis, Vec3(0.0, posY, 0.0), (spec.screwDiameter * 1.2 - plane.laserBeamDiameter) / 2.0,
             plane.thickness)
  }
}
