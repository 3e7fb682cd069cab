/** lasercut/crosspart.py: cross-lap joints. Every pair of panels whose
    shapes overlap gets a notch cut into each of them, half the depth of the
    overlap each, so that the two panels slide into each other. */
module CrossPart {
  import opened Wrappers
  import opened Solids
  import opened Material
  import opened Elements

  // ---------------------------------------------------------------------
  // Notch geometry

  /** `make_cross_box`: the notch block, `length` along x and `width` along
      y, both centred, hanging `height` down from z = 0. (The node arguments
      of the source function are not used by it.) */
  function CrossBox(length: real, width: real, height: real): (b: Box)
    ensures b.hi.x - b.lo.x == length && b.lo.x == -b.hi.x
    ensures b.hi.y - b.lo.y == width && b.lo.y == -b.hi.y
    ensures b.hi.z == 0.0 && b.lo.z == -height
  {
    Box(Vec3(-length / 2.0, -width / 2.0, -height), Vec3(length / 2.0, width / 2.0, 0.0))
  }

  /** The slot width the other panel needs: its thickness, widened by its
      thickness and hole tolerances and narrowed by the laser kerf. */
  function HoleWidth(p: MaterialProperties): real
  {
    p.thickness + p.thicknessTolerance - p.laserBeamDiameter + p.settings.holeWidthTolerance
  }

  /** The dog-bone radius of a notch of the given width and height. */
  function DogBoneRadius(width: real, height: real): (r: real)
    ensures r <= width / 15.0 && r <= height / 15.0
    ensures r == width / 15.0 || r == height / 15.0
  {
    Min(width, height) * 2.0 / 30.0
  }

  /** The horizontal offset of a node on the wall at `side`, at height `z`. */
  function NodeOffset(plane: NodePlane, side: real, z: real): Vec3
  {
    match plane
      case NodeXZ => Vec3(side, 0.0, z)
      case NodeYZ => Vec3(0.0, side, z)
  }

  /** The left node (bulging towards +) and right node (bulging towards −)
      of one level, `span` apart. */
  function NodePair(plane: NodePlane, span: real, thickness: real, nodeThickness: real,
                    height: real, z: real): seq<Solid>
  {
    [Translated(Node(plane, nodeThickness, height, thickness, true), NodeOffset(plane, -span / 2.0, z)),
     Translated(Node(plane, nodeThickness, height, thickness, false), NodeOffset(plane, span / 2.0, z))]
  }

  /** A node standing on one of the two walls of the notch, `span` apart,
      and bulging into the notch. */
  predicate OnWall(n: Solid, plane: NodePlane, span: real, thickness: real, nodeThickness: real)
  {
    n.Translated? && n.s.Node? && n.s.plane == plane && n.s.width == nodeThickness &&
    n.s.thickness == thickness &&
    n.offset == NodeOffset(plane, if n.s.positive then -span / 2.0 else span / 2.0, n.offset.z)
  }

  /** The z offset of a node's centre. */
  function NodeZ(n: Solid): real
  {
    if n.Translated? then n.offset.z else 0.0
  }

  function NodeHeight(n: Solid): real
  {
    if n.Translated? && n.s.Node? then n.s.height else 0.0
  }

  /** The nodes list of `make_nodes_xz` (plane XZ, `span` = `x_length`) and
      `make_nodes_yz` (plane YZ, `span` = `y_length`) for a notch `depth`
      deep. */
  function Nodes(plane: NodePlane, span: real, thickness: real, depth: real,
                 nodeType: NodeType, nodeThickness: real): (r: Result<seq<Solid>>)
    ensures r.Err? <==> nodeType == NodeUnknown
    ensures r.Err? ==> r.error == ValueError("Not implemented")
    ensures r.Ok? ==> |r.value| == match nodeType
                                    case NodeNo => 0
                                    case NodeDualShort => 4
                                    case _ => 2
    ensures r.Ok? ==> forall n | n in r.value :: OnWall(n, plane, span, thickness, nodeThickness)
    ensures r.Ok? ==> forall n | n in r.value ::
      NodeHeight(n) == (if nodeType == NodeSingleLong then depth / 2.0 else depth / 4.0)
    ensures r.Ok? ==> forall i :: 0 <= i < |r.value| ==>
      NodeZ(r.value[i]) + NodeZ(r.value[|r.value| - 1 - i]) == -depth
  {
    match nodeType
      case NodeNo => Ok([])
      case NodeSingleShort => Ok(NodePair(plane, span, thickness, nodeThickness, depth / 4.0, -depth / 2.0))
      case NodeSingleLong => Ok(NodePair(plane, span, thickness, nodeThickness, depth / 2.0, -depth / 2.0))
      case NodeDualShort =>
        Ok(NodePair(plane, span, thickness, nodeThickness, depth / 4.0, -depth / 2.0 + (0.08 + 0.125) * depth) +
           NodePair(plane, span, thickness, nodeThickness, depth / 4.0, -depth / 2.0 - (0.08 + 0.125) * depth))
      case NodeUnknown => Err(ValueError("Not implemented"))
  }

  /** `make_nodes_xz` / `make_nodes_yz`: the shape cut by each node in turn. */
  method MakeNodes(shape: Solid, plane: NodePlane, span: real, thickness: real, depth: real,
                   nodeType: NodeType, nodeThickness: real) returns (r: Result<Solid>)
    ensures r.Err? <==> nodeType == NodeUnknown
    ensures r.Err? ==> r.error == ValueError("Not implemented")
    ensures r.Ok? ==> r.value == CutAll(shape, Nodes(plane, span, thickness, depth, nodeType, nodeThickness).value)
    ensures nodeType == NodeNo ==> r == Ok(shape)
  {
    if nodeType == NodeNo {
      return Ok(shape);
    }
    var nodes := Nodes(plane, span, thickness, depth, nodeType, nodeThickness);
    if nodes.Err? {
      return Err(nodes.error);
    }
    var s := shape;
    var i := 0;
    while i < |nodes.value|
      invariant 0 <= i <= |nodes.value|
      invariant s == CutAll(shape, nodes.value[..i])
    {
      assert nodes.value[..i + 1][..i] == nodes.value[..i];
      s := Cut(s, nodes.value[i]);
      i := i + 1;
    }
    assert nodes.value[..i] == nodes.value;
    return Ok(s);
  }

  /** A dog-bone cylinder that runs through `box` parallel to its long
      plane axis, with its axis `r / 2` in from one vertical wall and from the
      top (`up`) or the bottom of the box. */
  predicate BoneInCorner(c: Solid, plane: NodePlane, box: Box, r: real, up: bool)
  {
    c.Cylinder? && c.radius == r &&
    c.center.z == (if up then box.hi.z - r / 2.0 else box.lo.z + r / 2.0) &&
    match plane
      case NodeXZ =>
        c.axis == YAxis && c.center.y == box.lo.y && c.length == box.hi.y - box.lo.y
      case NodeYZ =>
        c.axis == XAxis && c.center.x == box.lo.x && c.length == box.hi.x - box.lo.x
  }

  /** The coordinate of a bone across its plane (x for XZ, y for YZ). */
  function BoneSide(c: Solid, plane: NodePlane): real
    requires c.Cylinder?
  {
    match plane
      case NodeXZ => c.center.x
      case NodeYZ => c.center.y
  }

  /** The two cylinders of `make_dog_bones_xz` / `make_dog_bones_yz` for the
      notch `CrossBox(length, width, height)`: one in each top corner when
      `up`, one in each bottom corner otherwise. */
  function DogBones(plane: NodePlane, length: real, width: real, height: real, radius: real, up: bool)
    : (r: (Solid, Solid))
    ensures var b := CrossBox(length, width, height);
      BoneInCorner(r.0, plane, b, radius, up) && BoneInCorner(r.1, plane, b, radius, up)
    ensures var b := CrossBox(length, width, height);
      var lo := (if plane == NodeXZ then b.lo.x else b.lo.y) + radius / 2.0;
      var hi := (if plane == NodeXZ then b.hi.x else b.hi.y) - radius / 2.0;
      (BoneSide(r.0, plane) == lo && BoneSide(r.1, plane) == hi) ||
      (BoneSide(r.0, plane) == hi && BoneSide(r.1, plane) == lo)
  {
    var shift := radius / 2.0;
    var z := if up then -shift else -height + shift;
    match plane
      case NodeXZ =>
        var left := Cylinder(YAxis, Vec3(-length / 2.0 + shift, -width / 2.0, z), radius, width);
        var right := Cylinder(YAxis, Vec3(length / 2.0 - shift, -width / 2.0, z), radius, width);
        if up then (right, left) else (left, right)
      case NodeYZ =>
        (Cylinder(XAxis, Vec3(-length / 2.0, -width / 2.0 + shift, z), radius, length),
         Cylinder(XAxis, Vec3(-length / 2.0, width / 2.0 - shift, z), radius, length))
  }

  /** One of the two notches of a crossing: its block, the nodes cut from
      it, the dog bones fused onto it, and whether it is lowered by its own
      depth before being placed. */
  datatype Notch = Notch(plane: NodePlane, box: Box, nodes: seq<Solid>,
                         bones: Option<(Solid, Solid)>, lowered: bool)

  function Depth(n: Notch): real { n.box.hi.z - n.box.lo.z }

  /** The notch built and carried onto the crossing's reference face. */
  function NotchSolid(n: Notch, placement: Placement): Solid
  {
    var cut := CutAll(Cuboid(n.box), n.nodes);
    var boned := if n.bones.Some? then Fuse(cut, Fuse(n.bones.value.0, n.bones.value.1)) else cut;
    var moved := if n.lowered then Translated(boned, Vec3(0.0, 0.0, -Depth(n))) else boned;
    Placed(moved, placement)
  }

  /** The z range a notch occupies before it is placed. */
  function ZRange(n: Notch): (real, real)
  {
    if n.lowered then (n.box.lo.z - Depth(n), n.box.hi.z - Depth(n)) else (n.box.lo.z, n.box.hi.z)
  }

  /** The notch of `remove_intersections` for one panel: a block `length`
      along x and `width` along y, cut by the nodes on its walls `span`
      apart (x for plane XZ, y for YZ), with dog bones of radius
      `min(span, depth) * 2 / 30` when the panel asks for them, lowered when
      `lowered`; the bones go to the top corners of a lowered notch and to
      the bottom corners of the other. */
  function NotchOf(plane: NodePlane, length: real, width: real, depth: real, nodeType: NodeType,
                   nodeThickness: real, dogBone: bool, lowered: bool): Result<Notch>
  {
    var span := if plane == NodeXZ then length else width;
    var thickness := if plane == NodeXZ then width else length;
    var nodes := Nodes(plane, span, thickness, depth, nodeType, nodeThickness);
    if nodes.Err? then Err(nodes.error)
    else
      var bones := if dogBone then Some(DogBones(plane, length, width, depth, DogBoneRadius(span, depth), lowered))
                   else None;
      Ok(Notch(plane, CrossBox(length, width, depth), nodes.value, bones, lowered))
  }

  /** The notch of the first panel of a pair: as wide as the second panel's
      slot width, as thick as the first panel, lowered when `invertY`. */
  function FirstNotch(p1: MaterialProperties, p2: MaterialProperties, height: real, invertY: bool)
    : (r: Result<Notch>)
    ensures r.Err? <==> p1.settings.nodeType == NodeUnknown
    ensures r.Ok? ==>
      var b := r.value.box;
      r.value.plane == NodeXZ &&
      b.hi.x - b.lo.x == HoleWidth(p2) && b.hi.y - b.lo.y == p1.thickness &&
      b.hi.z == 0.0 && b.lo.z == -height && r.value.lowered == invertY &&
      (r.value.bones.Some? <==> p1.settings.dogBone) &&
      (r.value.bones.Some? ==>
        var radius := DogBoneRadius(HoleWidth(p2), height);
        BoneInCorner(r.value.bones.value.0, NodeXZ, b, radius, invertY) &&
        BoneInCorner(r.value.bones.value.1, NodeXZ, b, radius, invertY))
  {
    NotchOf(NodeXZ, HoleWidth(p2), p1.thickness, height, p1.settings.nodeType, p1.settings.nodeThickness,
            p1.settings.dogBone, invertY)
  }

  /** The notch of the second panel: as wide as its own thickness along x
      and as long as the first panel's slot width along y, lowered unless
      `invertY`. */
  function SecondNotch(p1: MaterialProperties, p2: MaterialProperties, height: real, invertY: bool)
    : (r: Result<Notch>)
    ensures r.Err? <==> p2.settings.nodeType == NodeUnknown
    ensures r.Ok? ==>
      var b := r.value.box;
      r.value.plane == NodeYZ &&
      b.hi.x - b.lo.x == p2.thickness && b.hi.y - b.lo.y == HoleWidth(p1) &&
      b.hi.z == 0.0 && b.lo.z == -height && r.value.lowered == !invertY &&
      (r.value.bones.Some? <==> p2.settings.dogBone) &&
      (r.value.bones.Some? ==>
        var radius := DogBoneRadius(HoleWidth(p1), height);
        BoneInCorner(r.value.bones.value.0, NodeYZ, b, radius, !invertY) &&
        BoneInCorner(r.value.bones.value.1, NodeYZ, b, radius, !invertY))
  {
    NotchOf(NodeYZ, p2.thickness, HoleWidth(p1), height, p2.settings.nodeType, p2.settings.nodeThickness,
            p2.settings.dogBone, !invertY)
  }

  /** Exactly one of the two notches is lowered, and together they fill the
      full depth `2 * height` below the reference face, meeting halfway. */
  lemma NotchesStack(p1: MaterialProperties, p2: MaterialProperties, height: real, invertY: bool)
    requires FirstNotch(p1, p2, height, invertY).Ok? && SecondNotch(p1, p2, height, invertY).Ok?
    ensures var n1, n2 := FirstNotch(p1, p2, height, invertY).value, SecondNotch(p1, p2, height, invertY).value;
      var (upper, lower) := if n1.lowered then (n2, n1) else (n1, n2);
      n1.lowered != n2.lowered &&
      ZRange(upper) == (-height, 0.0) && ZRange(lower) == (-2.0 * height, -height)
  {
  }

  /** The solids `remove_intersections` appends to the two panels. The notch
      depth is half the distance between the two reference faces' centres
      (`length` is the kernel's vector length). */
  function CrossCuts(p1: MaterialProperties, p2: MaterialProperties, ref0: Face, ref1: Face,
                     axis: (Vec3, Vec3, Vec3), invertY: bool, length: Vec3 -> real): (r: Result<(Solid, Solid)>)
    ensures r.Err? <==> p1.settings.nodeType == NodeUnknown || p2.settings.nodeType == NodeUnknown
  {
    var height := length(Sub(ref0.center, ref1.center)) / 2.0;
    var placement := OnCrossing(ref0, axis.0, axis.1, axis.2);
    var n1 := FirstNotch(p1, p2, height, invertY);
    var n2 := SecondNotch(p1, p2, height, invertY);
    if n1.Err? then Err(n1.error)
    else if n2.Err? then Err(n2.error)
    else Ok((NotchSolid(n1.value, placement), NotchSolid(n2.value, placement)))
  }

  /** `make_dog_bones_xz` / `make_dog_bones_yz`: the notch fused with its
      two bones. */
  function MakeDogBones(part: Solid, bones: (Solid, Solid)): Solid
  {
    Fuse(part, Fuse(bones.0, bones.1))
  }

  /** One of the two blocks of `remove_intersections`: the notch of
      `NotchOf` built step by step and carried onto the reference face. */
  method BuildNotch(plane: NodePlane, length: real, width: real, depth: real, nodeType: NodeType,
                    nodeThickness: real, dogBone: bool, lowered: bool, placement: Placement)
    returns (r: Result<Solid>)
    ensures var n := NotchOf(plane, length, width, depth, nodeType, nodeThickness, dogBone, lowered);
      (r.Err? <==> n.Err?) && (r.Err? ==> r.error == n.error) &&
      (r.Ok? ==> r.value == NotchSolid(n.value, placement))
  {
    var span := if plane == NodeXZ then length else width;
    var thickness := if plane == NodeXZ then width else length;
    var block := MakeNodes(Cuboid(CrossBox(length, width, depth)), plane, span, thickness, depth,
                           nodeType, nodeThickness);
    if block.Err? {
      return Err(block.error);
    }
    var shape := block.value;
    var radius := DogBoneRadius(span, depth);
    if lowered {
      if dogBone {
        shape := MakeDogBones(shape, DogBones(plane, length, width, depth, radius, true));
      }
      shape := Translated(shape, Vec3(0.0, 0.0, -depth));
    } else if dogBone {
      shape := MakeDogBones(shape, DogBones(plane, length, width, depth, radius, false));
    }
    return Ok(Placed(shape, placement));
  }

  /** `remove_intersections`: builds both notches and appends one to each
      panel's removals; nothing is appended when a node type is unknown. */
  method RemoveIntersections(first: MaterialElement, second: MaterialElement, ref0: Face, ref1: Face,
                             axis: (Vec3, Vec3, Vec3), invertY: bool, length: Vec3 -> real)
    returns (r: Result<()>)
    requires first != second
    modifies first, second
    ensures var c := CrossCuts(first.properties, second.properties, ref0, ref1, axis, invertY, length);
      (r.Err? <==> c.Err?) && (r.Err? ==> r.error == c.error) &&
      first.toRemove == old(first.toRemove) + (if c.Ok? then [c.value.0] else []) &&
      second.toRemove == old(second.toRemove) + (if c.Ok? then [c.value.1] else [])
    ensures first.toAdd == old(first.toAdd) && second.toAdd == old(second.toAdd)
  {
    var p1, p2 := first.properties, second.properties;
    var height := length(Sub(ref0.center, ref1.center)) / 2.0;
    var placement := OnCrossing(ref0, axis.0, axis.1, axis.2);
    var firstBox := BuildNotch(NodeXZ, HoleWidth(p2), p1.thickness, height, p1.settings.nodeType,
                               p1.settings.nodeThickness, p1.settings.dogBone, invertY, placement);
    if firstBox.Err? {
      return Err(firstBox.error);
    }
    var secondBox := BuildNotch(NodeYZ, p2.thickness, HoleWidth(p1), height, p2.settings.nodeType,
                                p2.settings.nodeThickness, p2.settings.dogBone, !invertY, placement);
    if secondBox.Err? {
      return Err(secondBox.error);
    }
    first.toRemove := first.toRemove + [firstBox.value];
    second.toRemove := second.toRemove + [secondBox.value];
    return Ok(());
  }

  // ---------------------------------------------------------------------
  // Classification of a crossing

  /** No face lies in both shapes and no shape holds both faces: the
      "inside" relation between the two reference faces and the two shapes
      is a partial matching. */
  predicate PartialMatching(f1s1: bool, f2s1: bool, f1s2: bool, f2s2: bool)
  {
    !(f1s1 && f2s1) && !(f1s2 && f2s2) && !(f1s1 && f1s2) && !(f2s1 && f2s2)
  }

  /** The decision chain of `make_cross_parts` on the four `is_inside`
      results; `Ok(invertY)` for an accepted configuration. */
  function Classify(f1s1: bool, f2s1: bool, f1s2: bool, f2s2: bool, names: string): (r: Result<bool>)
    ensures r.Ok? <==> PartialMatching(f1s1, f2s1, f1s2, f2s2)
    ensures r.Ok? ==> r.value == (f1s1 || f2s2)
    ensures r == Err(ValueError(names + " : a part is included in the other.")) <==>
      f1s1 == f2s1 && f1s2 == f2s2 && f1s1 != f1s2
    ensures r.Err? && !(f1s1 == f2s1 && f1s2 == f2s2 && f1s1 != f1s2) ==> r == Err(ValueError("Not managed"))
  {
    if !f1s1 && !f2s1 && f1s2 && f2s2 then Err(ValueError(names + " : a part is included in the other."))
    else if f1s1 && f2s1 && !f1s2 && !f2s2 then Err(ValueError(names + " : a part is included in the other."))
    else if !f1s1 && !f2s1 && !f1s2 && !f2s2 then Ok(false)
    else if !f1s1 && f2s1 && f1s2 && !f2s2 then Ok(false)
    else if f1s1 && !f2s1 && !f1s2 && f2s2 then Ok(true)
    else if !f1s1 && !f2s1 && f1s2 && !f2s2 then Ok(false)
    else if f1s1 && !f2s1 && !f1s2 && !f2s2 then Ok(true)
    else if !f1s1 && f2s1 && !f1s2 && !f2s2 then Ok(false)
    else if !f1s1 && !f2s1 && !f1s2 && f2s2 then Ok(true)
    else Err(ValueError("Not managed"))
  }

  /** `retrieve_face_axis`: z is the normal of the smallest group's first
      face; the medium group's first face gives x when it lies inside the
      first shape and y otherwise, and the third axis is their cross
      product, at right angles to both. */
  function RetrieveFaceAxis(groups: seq<seq<Face>>, shape1: Solid, inside: (Face, Solid) -> bool)
    : (r: (Vec3, Vec3, Vec3))
    requires |groups| >= 3 && |groups[0]| > 0 && |groups[2]| > 0
    ensures r.2 == groups[0][0].normal
    ensures inside(groups[2][0], shape1) ==>
      r.0 == groups[2][0].normal && Dot(r.1, r.0) == 0.0 && Dot(r.1, r.2) == 0.0
    ensures !inside(groups[2][0], shape1) ==>
      r.1 == groups[2][0].normal && Dot(r.0, r.1) == 0.0 && Dot(r.0, r.2) == 0.0
  {
    var test := groups[2][0];
    var z := groups[0][0].normal;
    if inside(test, shape1) then
      CrossOrthogonal(z, test.normal);
      (test.normal, Cross(z, test.normal), z)
    else
      CrossOrthogonal(test.normal, z);
      (Cross(test.normal, z), test.normal, z)
  }

  lemma CrossOrthogonal(a: Vec3, b: Vec3)
    ensures Dot(Cross(a, b), a) == 0.0 && Dot(Cross(a, b), b) == 0.0
  {
    assert Dot(Cross(a, b), a) ==
      (a.y * b.z - a.z * b.y) * a.x + (a.z * b.x - a.x * b.z) * a.y + (a.x * b.y - a.y * b.x) * a.z;
  }

  // ---------------------------------------------------------------------
  // The pair loop

  /** The kernel queries of `make_cross_parts`: the volume of the common
      part of two shapes, that common part's faces grouped by normal
      (`sort_area_shape_faces`, smallest area first, each group's faces by
      descending area), `is_inside`, and the vector length. */
  datatype CrossKernel = CrossKernel(
    commonVolume: (Solid, Solid) -> real,
    sortedFaces: (Solid, Solid) -> seq<seq<Face>>,
    inside: (Face, Solid) -> bool,
    length: Vec3 -> real)

  /** The cuts one pair of panels receives, `None` when the shapes do not
      overlap. */
  function CrossPair(p1: MaterialProperties, p2: MaterialProperties, k: CrossKernel)
    : (r: Result<Option<(Solid, Solid)>>)
    ensures r == Ok(None) <==>
      k.commonVolume(Source(p1.freecadObject.id), Source(p2.freecadObject.id)) <= 0.001
    ensures (|k.sortedFaces(Source(p1.freecadObject.id), Source(p2.freecadObject.id))| != 3 &&
             k.commonVolume(Source(p1.freecadObject.id), Source(p2.freecadObject.id)) > 0.001) ==>
      r == Err(ValueError(p1.freecadObject.name + " -> " + p2.freecadObject.name +
                          " : intersection is not rectangular box"))
  {
    var s1, s2 := Source(p1.freecadObject.id), Source(p2.freecadObject.id);
    if k.commonVolume(s1, s2) <= 0.001 then Ok(None)
    else
      var groups := k.sortedFaces(s1, s2);
      var names := p1.freecadObject.name + " -> " + p2.freecadObject.name;
      if |groups| != 3 then Err(ValueError(names + " : intersection is not rectangular box"))
      else if |groups[0]| < 2 || |groups[2]| == 0 then Err(IndexError)
      else
        var face1, face2 := groups[0][0], groups[0][1];
        var axis := RetrieveFaceAxis(groups, s1, k.inside);
        var c := Classify(k.inside(face1, s1), k.inside(face2, s1), k.inside(face1, s2), k.inside(face2, s2), names);
        if c.Err? then Err(c.error)
        else
          var cuts := CrossCuts(p1, p2, face1, face2, axis, c.value, k.length);
          if cuts.Err? then Err(cuts.error) else Ok(Some(cuts.value))
  }

  /** One pass of the loop body of `make_cross_parts` on a pair of panels;
      `Ok(true)` when the pair was cut. */
  method CrossStep(e1: MaterialElement, e2: MaterialElement, k: CrossKernel) returns (r: Result<bool>)
    requires e1 != e2
    modifies e1, e2
    ensures var c := CrossPair(e1.properties, e2.properties, k);
      (r.Err? <==> c.Err?) && (r.Err? ==> r.error == c.error) &&
      (r.Ok? ==> r.value == c.value.Some?) &&
      e1.toRemove == old(e1.toRemove) + (if c.Ok? && c.value.Some? then [c.value.value.0] else []) &&
      e2.toRemove == old(e2.toRemove) + (if c.Ok? && c.value.Some? then [c.value.value.1] else [])
    ensures e1.toAdd == old(e1.toAdd) && e2.toAdd == old(e2.toAdd)
  {
    var s1, s2 := Source(e1.properties.freecadObject.id), Source(e2.properties.freecadObject.id);
    if k.commonVolume(s1, s2) <= 0.001 {
      return Ok(false);
    }
    var groups := k.sortedFaces(s1, s2);
    var names := e1.GetName() + " -> " + e2.GetName();
    if |groups| != 3 {
      return Err(ValueError(names + " : intersection is not rectangular box"));
    }
    if |groups[0]| < 2 || |groups[2]| == 0 {
      return Err(IndexError);
    }
    var face1, face2 := groups[0][0], groups[0][1];
    var axis := RetrieveFaceAxis(groups, s1, k.inside);
    var c := Classify(k.inside(face1, s1), k.inside(face2, s1), k.inside(face1, s2), k.inside(face2, s2), names);
    if c.Err? {
      return Err(c.error);
    }
    var done := RemoveIntersections(e1, e2, face1, face2, axis, c.value, k.length);
    if done.Err? {
      return Err(done.error);
    }
    return Ok(true);
  }

  /** `itertools.combinations(range(n), 2)`: row `a` is `(a, a+1) … (a, n-1)`. */
  function Combinations(n: nat): seq<(nat, nat)>
  {
    RowsFrom(n, 0)
  }

  function RowsFrom(n: nat, a: nat): seq<(nat, nat)>
    decreases n - a
  {
    if a >= n then [] else RowOf(a, a + 1, n) + RowsFrom(n, a + 1)
  }

  function RowOf(a: nat, b: nat, n: nat): seq<(nat, nat)>
    decreases n - b
  {
    if b >= n then [] else [(a, b)] + RowOf(a, b + 1, n)
  }

  predicate LexLess(p: (nat, nat), q: (nat, nat))
  {
    p.0 < q.0 || (p.0 == q.0 && p.1 < q.1)
  }

  predicate LexSorted(s: seq<(nat, nat)>)
  {
    forall i, j :: 0 <= i < j < |s| ==> LexLess(s[i], s[j])
  }

  lemma {:induction false} RowOfShape(a: nat, b: nat, n: nat)
    ensures forall p :: p in RowOf(a, b, n) <==> p.0 == a && b <= p.1 < n
    ensures LexSorted(RowOf(a, b, n))
    decreases n - b
  {
    if b < n {
      RowOfShape(a, b + 1, n);
    }
  }

  lemma {:induction false} RowsFromShape(n: nat, a: nat)
    ensures forall p :: p in RowsFrom(n, a) <==> a <= p.0 < p.1 < n
    ensures LexSorted(RowsFrom(n, a))
    decreases n - a
  {
    if a < n {
      RowOfShape(a, a + 1, n);
      RowsFromShape(n, a + 1);
      var r, rest := RowOf(a, a + 1, n), RowsFrom(n, a + 1);
      forall i, j | 0 <= i < j < |r + rest| ensures LexLess((r + rest)[i], (r + rest)[j]) {
        if j < |r| {
        } else if i >= |r| {
          assert (r + rest)[i] == rest[i - |r|] && (r + rest)[j] == rest[j - |r|];
        } else {
          assert (r + rest)[i] == r[i] && r[i] in r;
          assert (r + rest)[j] == rest[j - |r|] && rest[j - |r|] in rest;
        }
      }
    }
  }

  /** Every unordered pair of distinct indices is visited once, in index
      order. */
  lemma CombinationsVisitEachPairOnce(n: nat)
    ensures forall p :: p in Combinations(n) <==> p.0 < p.1 < n
    ensures LexSorted(Combinations(n))
    ensures forall i, j :: 0 <= i < j < |Combinations(n)| ==> Combinations(n)[i] != Combinations(n)[j]
  {
    RowsFromShape(n, 0);
  }

  predicate ValidPairs(pairs: seq<(nat, nat)>, n: nat)
  {
    forall p | p in pairs :: p.0 < p.1 < n
  }

  /** What processing one pair of panels gives. */
  type PairOutcome = Result<Option<(Solid, Solid)>>

  /** The outcome of every pair of indices into `props`. */
  function Outcomes(props: seq<MaterialProperties>, k: CrossKernel): (nat, nat) -> PairOutcome
  {
    (a: nat, b: nat) => if a < |props| && b < |props| then CrossPair(props[a], props[b], k) else Ok(None)
  }

  /** The removal lists of all panels after the pairs `pairs` have
      been processed in order from `removes`, each pair `(a, b)` with the
      outcome `outcome(a, b)`. */
  function CrossFold(removes: seq<seq<Solid>>, outcome: (nat, nat) -> PairOutcome,
                     pairs: seq<(nat, nat)>): (r: Result<seq<seq<Solid>>>)
    requires ValidPairs(pairs, |removes|)
    ensures r.Ok? ==> |r.value| == |removes|
    decreases |pairs|
  {
    if pairs == [] then Ok(removes)
    else
      var (a, b) := pairs[0];
      var c := outcome(a, b);
      if c.Err? then Err(c.error)
      else if c.value.None? then CrossFold(removes, outcome, pairs[1..])
      else CrossFold(removes[a := removes[a] + [c.value.value.0]][b := removes[b] + [c.value.value.1]],
                     outcome, pairs[1..])
  }

  /** What `make_cross_parts` leaves in each panel's removal list. */
  function CrossRemoves(props: seq<MaterialProperties>, k: CrossKernel): Result<seq<seq<Solid>>>
  {
    CombinationsVisitEachPairOnce(|props|);
    CrossFold(seq(|props|, i => []), Outcomes(props, k), Combinations(|props|))
  }

  /** One pass of the pair loop: pair `t` taken from the remaining pairs. */
  method CrossPairAt(elems: seq<MaterialElement>, k: CrossKernel, pairs: seq<(nat, nat)>, t: nat,
                     ghost props: seq<MaterialProperties>, ghost start: seq<seq<Solid>>) returns (r: Result<bool>)
    requires t < |pairs| && ValidPairs(pairs, |elems|) && DistinctElements(elems) && |start| == |elems|
    requires props == PropsOf(elems)
    requires CrossFold(start, Outcomes(props, k), pairs) == CrossFold(RemovesOf(elems), Outcomes(props, k), pairs[t..])
    modifies elems[pairs[t].0], elems[pairs[t].1]
    ensures r.Err? ==> CrossFold(start, Outcomes(props, k), pairs) == Err(r.error)
    ensures r.Ok? ==>
      CrossFold(start, Outcomes(props, k), pairs) == CrossFold(RemovesOf(elems), Outcomes(props, k), pairs[t + 1..])
    ensures AddsOf(elems) == old(AddsOf(elems))
  {
    var (a, b) := pairs[t];
    assert pairs[t] in pairs;
    ghost var before := RemovesOf(elems);
    assert pairs[t..][0] == pairs[t] && pairs[t..][1..] == pairs[t + 1..];
    r := CrossStep(elems[a], elems[b], k);
    ghost var c := Outcomes(props, k)(a, b);
    assert c == CrossPair(elems[a].properties, elems[b].properties, k);
    ghost var after := if c.Ok? && c.value.Some?
                       then before[a := before[a] + [c.value.value.0]][b := before[b] + [c.value.value.1]]
                       else before;
    assert RemovesOf(elems) == after by {
      forall j | 0 <= j < |elems| ensures RemovesOf(elems)[j] == after[j] {
        if j != a && j != b {
          assert elems[j] != elems[a] && elems[j] != elems[b];
        }
      }
    }
    assert AddsOf(elems) == old(AddsOf(elems)) by {
      forall j | 0 <= j < |elems| ensures AddsOf(elems)[j] == old(AddsOf(elems))[j] {
        if j != a && j != b {
          assert elems[j] != elems[a] && elems[j] != elems[b];
        }
      }
    }
  }

  /** One fresh element per part, in order. */
  method NewElements(parts: seq<MaterialProperties>) returns (elems: seq<MaterialElement>)
    ensures PropsOf(elems) == parts && DistinctElements(elems)
    ensures forall j :: 0 <= j < |elems| ==> fresh(elems[j])
    ensures RemovesOf(elems) == seq(|parts|, i => []) && AddsOf(elems) == seq(|parts|, i => [])
  {
    elems := [];
    var i := 0;
    while i < |parts|
      invariant i <= |parts| && |elems| == i && DistinctElements(elems)
      invariant forall j :: 0 <= j < i ==> fresh(elems[j])
      invariant forall j :: 0 <= j < i ==>
        elems[j].properties == parts[j] && elems[j].toAdd == [] && elems[j].toRemove == []
    {
      var e := new MaterialElement(parts[i]);
      elems := elems + [e];
      i := i + 1;
    }
  }

  /** `make_cross_parts`: one element per part, then every pair of parts
      visited once; each overlapping pair gets its two notches. */
  method MakeCrossParts(parts: seq<MaterialProperties>, k: CrossKernel) returns (r: Result<seq<MaterialElement>>)
    ensures r.Err? <==> CrossRemoves(parts, k).Err?
    ensures r.Err? ==> r.error == CrossRemoves(parts, k).error
    ensures r.Ok? ==>
      PropsOf(r.value) == parts && DistinctElements(r.value) &&
      AddsOf(r.value) == seq(|parts|, i => []) && RemovesOf(r.value) == CrossRemoves(parts, k).value
  {
    var elems := NewElements(parts);
    ghost var start := RemovesOf(elems);
    ghost var none := AddsOf(elems);
    var pairs := Combinations(|parts|);
    CombinationsVisitEachPairOnce(|parts|);
    assert pairs[0..] == pairs;
    var t := 0;
    while t < |pairs|
      invariant t <= |pairs|
      invariant forall j :: 0 <= j < |elems| ==> fresh(elems[j])
      invariant CrossFold(start, Outcomes(parts, k), pairs) == CrossFold(RemovesOf(elems), Outcomes(parts, k), pairs[t..])
      invariant AddsOf(elems) == none
    {
      var step := CrossPairAt(elems, k, pairs, t, parts, start);
      if step.Err? {
        return Err(step.error);
      }
      t := t + 1;
    }
    return Ok(elems);
  }

  // ---------------------------------------------------------------------
  // What each panel receives

  /** The cuts panel `i` receives from `pairs`, in order: the first notch
      of every cut pair it opens, the second of every cut pair it closes. */
  function CutsOf(outcome: (nat, nat) -> PairOutcome, pairs: seq<(nat, nat)>, i: nat): seq<Solid>
  {
    if pairs == [] then []
    else
      var (a, b) := pairs[0];
      var c := outcome(a, b);
      (if c.Ok? && c.value.Some? then (if i == a then [c.value.value.0] else if i == b then [c.value.value.1] else [])
       else []) + CutsOf(outcome, pairs[1..], i)
  }

  /** The fold over all pairs and the per-panel view agree: each panel ends
      with its initial removals followed by its share of the cuts. */
  lemma {:induction false} CrossFoldPerPanel(removes: seq<seq<Solid>>, outcome: (nat, nat) -> PairOutcome,
                                             pairs: seq<(nat, nat)>, i: nat)
    requires ValidPairs(pairs, |removes|) && i < |removes|
    requires CrossFold(removes, outcome, pairs).Ok?
    ensures CrossFold(removes, outcome, pairs).value[i] == removes[i] + CutsOf(outcome, pairs, i)
    decreases |pairs|
  {
    if pairs != [] {
      var (a, b) := pairs[0];
      assert pairs[0] in pairs;
      var c := outcome(a, b);
      if c.value.None? {
        CrossFoldPerPanel(removes, outcome, pairs[1..], i);
      } else {
        var next := removes[a := removes[a] + [c.value.value.0]][b := removes[b] + [c.value.value.1]];
        CrossFoldPerPanel(next, outcome, pairs[1..], i);
      }
    }
  }

  /** The index of the first pair whose outcome is an error, `|pairs|` if none. */
  function FirstFailure(outcome: (nat, nat) -> PairOutcome, pairs: seq<(nat, nat)>): (t: nat)
    ensures t <= |pairs|
  {
    if pairs == [] then 0
    else if outcome(pairs[0].0, pairs[0].1).Err? then 0
    else FirstFailure(outcome, pairs[1..]) + 1
  }

  lemma {:induction false} FirstFailureIs(outcome: (nat, nat) -> PairOutcome, pairs: seq<(nat, nat)>)
    ensures var t := FirstFailure(outcome, pairs);
      (t < |pairs| ==> outcome(pairs[t].0, pairs[t].1).Err?) &&
      forall u :: 0 <= u < t ==> outcome(pairs[u].0, pairs[u].1).Ok?
  {
    if pairs != [] && outcome(pairs[0].0, pairs[0].1).Ok? {
      FirstFailureIs(outcome, pairs[1..]);
      forall u | 0 < u < FirstFailure(outcome, pairs) ensures outcome(pairs[u].0, pairs[u].1).Ok? {
        assert pairs[u] == pairs[1..][u - 1];
      }
    }
  }

  /** The fold fails exactly when some pair fails, with the error of the
      first pair that fails. */
  lemma {:induction false} CrossFoldFails(removes: seq<seq<Solid>>, outcome: (nat, nat) -> PairOutcome,
                                          pairs: seq<(nat, nat)>)
    requires ValidPairs(pairs, |removes|)
    ensures var t := FirstFailure(outcome, pairs);
      (CrossFold(removes, outcome, pairs).Err? <==> t < |pairs|) &&
      (t < |pairs| ==> outcome(pairs[t].0, pairs[t].1).Err? &&
                       CrossFold(removes, outcome, pairs).error == outcome(pairs[t].0, pairs[t].1).error)
    decreases |pairs|
  {
    FirstFailureIs(outcome, pairs);
    if pairs != [] {
      var (a, b) := pairs[0];
      assert pairs[0] in pairs;
      var c := outcome(a, b);
      if c.Ok? {
        var next := if c.value.None? then removes
                    else removes[a := removes[a] + [c.value.value.0]][b := removes[b] + [c.value.value.1]];
        CrossFoldFails(next, outcome, pairs[1..]);
        var t := FirstFailure(outcome, pairs[1..]);
        if t < |pairs[1..]| {
          assert pairs[t + 1] == pairs[1..][t];
        }
      }
    }
  }

  /** A panel that no cut pair involves keeps an empty removal list. */
  lemma {:induction false} UntouchedPanel(outcome: (nat, nat) -> PairOutcome, pairs: seq<(nat, nat)>, i: nat)
    requires forall t :: 0 <= t < |pairs| && (pairs[t].0 == i || pairs[t].1 == i) ==>
      outcome(pairs[t].0, pairs[t].1) == Ok(None)
    ensures CutsOf(outcome, pairs, i) == []
  {
    if pairs != [] {
      assert forall t :: 1 <= t < |pairs| ==> pairs[t] == pairs[1..][t - 1];
      UntouchedPanel(outcome, pairs[1..], i);
    }
  }
}
