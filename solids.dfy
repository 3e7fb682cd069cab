/** The geometry kernel as the workbench sees it.
    Boolean operations, extrusions and placements are not computed: a solid
    is a term that records how it was built, and the few solids whose
    extents the workbench computes itself are axis-aligned boxes. Kernel
    probes (a common volume above a threshold, a point inside a shape) are
    boolean function parameters of the operations that use them. */
module Solids {
  import opened Wrappers

  datatype Vec3 = Vec3(x: real, y: real, z: real)

  function Add(a: Vec3, b: Vec3): Vec3 { Vec3(a.x + b.x, a.y + b.y, a.z + b.z) }
  function Sub(a: Vec3, b: Vec3): Vec3 { Vec3(a.x - b.x, a.y - b.y, a.z - b.z) }
  function Scale(a: Vec3, k: real): Vec3 { Vec3(k * a.x, k * a.y, k * a.z) }
  function Neg(a: Vec3): Vec3 { Vec3(-a.x, -a.y, -a.z) }
  function Dot(a: Vec3, b: Vec3): real { a.x * b.x + a.y * b.y + a.z * b.z }
  function Cross(a: Vec3, b: Vec3): Vec3 {
    Vec3(a.y * b.z - a.z * b.y, a.z * b.x - a.x * b.z, a.x * b.y - a.y * b.x)
  }
  /** Squared Euclidean length; comparisons of lengths are made on it,
      since the square root is strictly increasing. */
  function SqLength(a: Vec3): real { Dot(a, a) }

  function Abs(r: real): real { if r < 0.0 then -r else r }
  function Min(a: real, b: real): real { if a <= b then a else b }
  function Max(a: real, b: real): real { if a >= b then a else b }

  datatype Axis = XAxis | YAxis | ZAxis

  /** Axis-aligned box, from its minimum corner to its maximum corner. */
  datatype Box = Box(lo: Vec3, hi: Vec3)

  /** `Part.makeBox(l, w, h, origin)`. */
  function MakeBox(l: real, w: real, h: real, origin: Vec3): (b: Box)
    ensures b.hi.x - b.lo.x == l && b.hi.y - b.lo.y == w && b.hi.z - b.lo.z == h
    ensures b.lo == origin
  {
    Box(origin, Add(origin, Vec3(l, w, h)))
  }

  function TranslateBox(b: Box, v: Vec3): Box { Box(Add(b.lo, v), Add(b.hi, v)) }

  predicate WithinBox(inner: Box, outer: Box) {
    outer.lo.x <= inner.lo.x && inner.hi.x <= outer.hi.x &&
    outer.lo.y <= inner.lo.y && inner.hi.y <= outer.hi.y &&
    outer.lo.z <= inner.lo.z && inner.hi.z <= outer.hi.z
  }

  /** A 3x3 rotation matrix (`FreeCAD.Matrix`, translation part unused). */
  datatype Matrix3 = Matrix3(a11: real, a12: real, a13: real,
                             a21: real, a22: real, a23: real,
                             a31: real, a32: real, a33: real)

  function Apply(m: Matrix3, v: Vec3): Vec3
  {
    Vec3(m.a11 * v.x + m.a12 * v.y + m.a13 * v.z,
         m.a21 * v.x + m.a22 * v.y + m.a23 * v.z,
         m.a31 * v.x + m.a32 * v.y + m.a33 * v.z)
  }

  /** A straight kernel edge between its two vertices. */
  datatype Edge = Edge(v0: Vec3, v1: Vec3)

  /** What the workbench reads of a kernel face: `normalAt(0, 0)`, `Area`,
      `CenterOfMass`, its edges (already in `Part.__sortEdges__` order) and
      its vertices. */
  datatype Face = Face(normal: Vec3, area: real, center: Vec3, edges: seq<Edge>, vertexes: seq<Vec3>)

  /** Which side of the reference plane a cross-lap node arc bulges to. */
  datatype NodePlane = NodeXZ | NodeYZ

  /** Where a shape built in a local frame is carried. */
  datatype Placement =
    | OnFace(face: Face, matrix: Option<Matrix3>, xOrigin: real) // a tab's face frame, shifted by xOrigin along x
    | ToFace(face: Face)                            // a face frame, no shift (hinge pieces)
    | OnCrossing(reference: Face, x: Vec3, y: Vec3, z: Vec3) // an intersection's reference face and axes
    | Rotated(center: Vec3, axis: Vec3, angleDeg: real)      // a rotation about an axis through center

  /** How a solid was built. */
  datatype Solid =
    | Source(objectId: nat)                               // a document object's shape
    | Cuboid(box: Box)
    | Cylinder(axis: Axis, center: Vec3, radius: real, length: real)
    | Node(plane: NodePlane, width: real, height: real, thickness: real, positive: bool)
    | Kernel(tag: string, params: seq<real>)              // a profile the model does not compute
    | Translated(s: Solid, offset: Vec3)
    | Placed(s: Solid, placement: Placement)
    | Fuse(a: Solid, b: Solid)
    | Cut(a: Solid, b: Solid)

  /** A document object: its internal name, its user label and its shape `Source(id)`. */
  datatype DocObject = DocObject(id: nat, name: string, userLabel: string)

  /** A kernel probe on two solids (`common(...).Volume > threshold`). */
  type Probe = (Solid, Solid) -> bool

  /** `assemble_list_element`'s left fold, defined on the last element. */
  function FuseAll(l: seq<Solid>): Solid
    requires |l| > 0
  {
    if |l| == 1 then l[0] else Fuse(FuseAll(l[..|l| - 1]), l[|l| - 1])
  }

  /** `shape.cut(n)` applied for each `n` of `l` in order. */
  function CutAll(s: Solid, l: seq<Solid>): Solid
  {
    if l == [] then s else Cut(CutAll(s, l[..|l| - 1]), l[|l| - 1])
  }

  /** The pieces a left fold of fuses was built from, read back off its left spine. */
  function FusedPieces(s: Solid, n: nat): seq<Solid>
  {
    if n <= 1 then [s]
    else match s
      case Fuse(a, b) => FusedPieces(a, n - 1) + [b]
      case _ => [s]
  }

  lemma {:induction false} FuseAllRoundTrip(l: seq<Solid>)
    requires |l| > 0
    ensures FusedPieces(FuseAll(l), |l|) == l
  {
    if |l| > 1 {
      FuseAllRoundTrip(l[..|l| - 1]);
      assert l[..|l| - 1] + [l[|l| - 1]] == l;
    }
  }

  lemma {:induction false} CutAllRoundTrip(s: Solid, l: seq<Solid>)
    ensures CutAll(s, l) == s <==> l == []
  {
    if l != [] {
      CutAllDepth(s, l);
    }
  }

  function CutDepth(s: Solid): nat
  {
    match s
      case Cut(a, _) => CutDepth(a) + 1
      case _ => 0
  }

  lemma {:induction false} CutAllDepth(s: Solid, l: seq<Solid>)
    ensures CutDepth(CutAll(s, l)) == CutDepth(s) + |l|
  {
    if l != [] { CutAllDepth(s, l[..|l| - 1]); }
  }
}
