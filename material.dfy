/** lasercut/material.py: the properties of a laser-cut part and the
    estimate of its thickness from its largest faces. */
module Material {
  import opened Wrappers
  import opened Solids
  import opened Helper

  const TypeLaserCut: int := 1

  /** Cross-lap node profiles (the `NODE_*` constants of the part widgets). */
  datatype NodeType = NodeNo | NodeSingleShort | NodeSingleLong | NodeDualShort | NodeUnknown

  /** The attributes the part widgets set on a material and the cross-lap
      code reads; material.py gives them no default. */
  datatype PartSettings = PartSettings(holeWidthTolerance: real, nodeType: NodeType,
                                       nodeThickness: real, dogBone: bool)

  /** Keyword arguments of `MaterialProperties(...)`; `None` is a keyword
      that was not passed. `name`, `label` and `link_name` are stored as
      given. */
  datatype MaterialArgs = MaterialArgs(
    freecadObject: Option<DocObject>, kind: Option<int>, thickness: Option<real>,
    thicknessTolerance: Option<real>, laserBeamDiameter: Option<real>, newName: Option<string>,
    name: string, userLabel: string, linkName: Option<string>, settings: PartSettings)

  datatype MaterialProperties = MaterialProperties(
    freecadObject: DocObject, kind: int, thickness: real, thicknessTolerance: real,
    laserBeamDiameter: real, newName: string,
    name: string, userLabel: string, linkName: Option<string>, settings: PartSettings)

  /** `MaterialProperties.__init__`. `estimate` is what
      `retrieve_thickness_from_biggest_face` gives for the object (see
      RetrieveThicknessFromBiggestFace); only its ValueError is caught. */
  method NewMaterialProperties(args: MaterialArgs, estimate: Result<real>) returns (r: Result<MaterialProperties>)
    ensures r.Err? <==>
      (args.freecadObject.None? || (args.thickness.None? && estimate.Err? && !estimate.error.ValueError?))
    ensures args.freecadObject.None? ==> r == Err(ValueError("Must defined freecad object"))
    ensures args.freecadObject.Some? && r.Err? ==> r == Err(estimate.error)
    ensures r.Ok? ==>
      r.value.freecadObject == args.freecadObject.value &&
      r.value.kind == (if args.kind.Some? then args.kind.value else TypeLaserCut) &&
      r.value.thickness == (if args.thickness.Some? then args.thickness.value
                            else if estimate.Ok? then estimate.value else 5.0) &&
      r.value.thicknessTolerance == (if args.thicknessTolerance.Some? then args.thicknessTolerance.value
                                     else 0.1 * r.value.thickness) &&
      r.value.laserBeamDiameter == (if args.laserBeamDiameter.Some? then args.laserBeamDiameter.value
                                    else r.value.thickness / 15.0) &&
      r.value.newName == (if args.newName.Some? then args.newName.value
                          else args.freecadObject.value.userLabel + "_tab")
    ensures r.Ok? ==>
      r.value.name == args.name && r.value.userLabel == args.userLabel &&
      r.value.linkName == args.linkName && r.value.settings == args.settings
  {
    if args.freecadObject.None? {
      return Err(ValueError("Must defined freecad object"));
    }
    var obj := args.freecadObject.value;
    var kind := TypeLaserCut;
    if args.kind.Some? { kind := args.kind.value; }
    var thickness: real;
    if args.thickness.Some? {
      thickness := args.thickness.value;
    } else {
      thickness := 5.0;
      match estimate {
        case Ok(t) => thickness := t;
        case Err(e) =>
          if !e.ValueError? {
            return Err(e);
          }
      }
    }
    var tolerance := 0.1 * thickness;
    if args.thicknessTolerance.Some? { tolerance := args.thicknessTolerance.value; }
    var laser := thickness / 15.0;
    if args.laserBeamDiameter.Some? { laser := args.laserBeamDiameter.value; }
    var newName := obj.userLabel + "_tab";
    if args.newName.Some? { newName := args.newName.value; }
    return Ok(MaterialProperties(obj, kind, thickness, tolerance, laser, newName,
                                 args.name, args.userLabel, args.linkName, args.settings));
  }

  // ---------------------------------------------------------------------
  // Thickness estimate

  /** The smallest value of a non-empty list (Python's `min`). */
  function MinOf(s: seq<real>): (r: real)
    requires |s| > 0
    ensures r in s
    ensures forall i :: 0 <= i < |s| ==> r <= s[i]
  {
    if |s| == 1 then s[0]
    else
      var m := MinOf(s[..|s| - 1]);
      assert forall i :: 0 <= i < |s| - 1 ==> s[..|s| - 1][i] == s[i];
      if s[|s| - 1] < m then s[|s| - 1] else m
  }

  /** A value of maximal multiplicity (`Counter(s).most_common(1)[0][0]`);
      the model takes the first such value in list order. */
  function MostCommon(s: seq<real>): (r: real)
    requires |s| > 0
    ensures r in s
    ensures forall i :: 0 <= i < |s| ==> multiset(s)[s[i]] <= multiset(s)[r]
  {
    MostCommonFrom(s, 0)
  }

  function MostCommonFrom(s: seq<real>, i: nat): (r: real)
    requires i < |s|
    ensures r in s[i..]
    ensures forall j :: i <= j < |s| ==> multiset(s)[s[j]] <= multiset(s)[r]
    decreases |s| - i
  {
    if i == |s| - 1 then s[i]
    else
      var b := MostCommonFrom(s, i + 1);
      assert s[i..] == [s[i]] + s[i + 1..];
      if multiset(s)[s[i]] >= multiset(s)[b] then s[i] else b
  }

  /** `d` is the distance from `p` to some point of `pts`. */
  predicate Attained(d: real, p: Vec3, pts: seq<Vec3>, length: Vec3 -> real)
  {
    exists j :: 0 <= j < |pts| && d == length(Sub(p, pts[j]))
  }

  /** `min_array`: for each point of the first face, the distance to the
      nearest point of the second face (`length` is the kernel's vector length). */
  method MinDistances(pts1: seq<Vec3>, pts2: seq<Vec3>, length: Vec3 -> real) returns (m: seq<real>)
    requires |pts2| > 0
    ensures |m| == |pts1|
    ensures forall i :: 0 <= i < |pts1| ==> Attained(m[i], pts1[i], pts2, length)
    ensures forall i, j :: 0 <= i < |pts1| && 0 <= j < |pts2| ==> m[i] <= length(Sub(pts1[i], pts2[j]))
  {
    m := [];
    var i := 0;
    while i < |pts1|
      invariant 0 <= i <= |pts1| && |m| == i
      invariant forall k :: 0 <= k < i ==> Attained(m[k], pts1[k], pts2, length)
      invariant forall k, j :: 0 <= k < i && 0 <= j < |pts2| ==> m[k] <= length(Sub(pts1[k], pts2[j]))
    {
      var tabDiff: seq<real> := [];
      var j := 0;
      while j < |pts2|
        invariant 0 <= j <= |pts2| && |tabDiff| == j
        invariant forall l :: 0 <= l < j ==> tabDiff[l] == length(Sub(pts1[i], pts2[l]))
      {
        tabDiff := tabDiff + [length(Sub(pts1[i], pts2[j]))];
        j := j + 1;
      }
      var least := MinOf(tabDiff);
      var l :| 0 <= l < |tabDiff| && tabDiff[l] == least;
      m := m + [least];
      assert Attained(m[i], pts1[i], pts2, length);
      i := i + 1;
    }
  }

  /** The group `biggest_area_faces` picks. */
  function BiggestGroup(faces: seq<Face>): Group
    requires faces != [] && GroupsOf(faces) != []
  {
    GroupsOf(faces)[LastMax(GroupsOf(faces))]
  }

  /** `retrieve_thickness_from_biggest_face`: the first two faces of the
      largest-area normal group are chained into points; the estimate is
      the most frequent nearest-point distance from the first face to the
      second. A missing face or edge is an IndexError, an unchainable face
      the ValueError "Error sorting vertex". */
  method RetrieveThicknessFromBiggestFace(faces: seq<Face>, length: Vec3 -> real) returns (r: Result<real>)
    ensures faces == [] ==> r == Err(IndexError)
    ensures faces != [] ==> GroupsOf(faces) != []
    ensures faces != [] && NearestDistances(BiggestGroup(faces), length).Err? ==>
      r == Err(NearestDistances(BiggestGroup(faces), length).error)
    ensures faces != [] && NearestDistances(BiggestGroup(faces), length).Ok? ==>
      r.Ok? && IsMode(r.value, NearestDistances(BiggestGroup(faces), length).value)
  {
    var group := BiggestAreaFaces(faces);
    if group.Err? {
      return Err(group.error);
    }
    var g := group.value;
    if |g.faces| < 2 {
      return Err(IndexError);
    }
    var pts1 := SortFacePoints(g.faces[0].edges);
    if pts1.Err? {
      return Err(pts1.error);
    }
    var pts2 := SortFacePoints(g.faces[1].edges);
    if pts2.Err? {
      return Err(pts2.error);
    }
    assert NearestDistances(g, length) == Ok(MinArraySpec(pts1.value, pts2.value, length));
    var m := MinDistances(pts1.value, pts2.value, length);
    MinDistancesAreSpec(pts1.value, pts2.value, length, m);
    var t := MostCommon(m);
    MostCommonIsMode(m);
    return Ok(t);
  }

  /** `x` occurs in `s` at least as often as any other value. */
  predicate IsMode(x: real, s: seq<real>)
  {
    x in s && forall y :: y in s ==> multiset(s)[y] <= multiset(s)[x]
  }

  lemma MostCommonIsMode(s: seq<real>)
    requires |s| > 0
    ensures IsMode(MostCommon(s), s)
  {
    var t := MostCommon(s);
    forall y | y in s ensures multiset(s)[y] <= multiset(s)[t] {
      var i :| 0 <= i < |s| && s[i] == y;
    }
  }

  /** The nearest-point distances of the group's first two faces, or why
      they cannot be computed. */
  function NearestDistances(g: Group, length: Vec3 -> real): (r: Result<seq<real>>)
    ensures |g.faces| < 2 ==> r == Err(IndexError)
    ensures |g.faces| >= 2 && r.Err? ==> r.error == IndexError || r.error == ValueError("Error sorting vertex")
    ensures r.Ok? ==>
      (|g.faces| >= 2 && SortedPoints(g.faces[0].edges).Ok? && SortedPoints(g.faces[1].edges).Ok? &&
       |r.value| == |SortedPoints(g.faces[0].edges).value|)
  {
    if |g.faces| < 2 then Err(IndexError)
    else
      match SortedPoints(g.faces[0].edges)
      case Err(e) => Err(e)
      case Ok(p1) =>
        match SortedPoints(g.faces[1].edges)
        case Err(e) => Err(e)
        case Ok(p2) => Ok(MinArraySpec(p1, p2, length))
  }

  /** The nearest-point distances as a function of the two point lists. */
  function MinArraySpec(pts1: seq<Vec3>, pts2: seq<Vec3>, length: Vec3 -> real): (m: seq<real>)
    requires |pts2| > 0
    ensures |m| == |pts1|
  {
    seq(|pts1|, i requires 0 <= i < |pts1| =>
      MinOf(seq(|pts2|, j requires 0 <= j < |pts2| => length(Sub(pts1[i], pts2[j])))))
  }

  lemma MinDistancesAreSpec(pts1: seq<Vec3>, pts2: seq<Vec3>, length: Vec3 -> real, m: seq<real>)
    requires |pts2| > 0 && |m| == |pts1|
    requires forall i :: 0 <= i < |pts1| ==> Attained(m[i], pts1[i], pts2, length)
    requires forall i, j :: 0 <= i < |pts1| && 0 <= j < |pts2| ==> m[i] <= length(Sub(pts1[i], pts2[j]))
    ensures m == MinArraySpec(pts1, pts2, length)
  {
    var spec := MinArraySpec(pts1, pts2, length);
    forall i | 0 <= i < |pts1| ensures m[i] == spec[i] {
      var d := seq(|pts2|, j requires 0 <= j < |pts2| => length(Sub(pts1[i], pts2[j])));
      var j :| 0 <= j < |pts2| && m[i] == length(Sub(pts1[i], pts2[j]));
      assert d[j] == m[i];
      assert spec[i] == MinOf(d);
    }
  }

  /** The two attempts of `sort_quad_vertex` on one face. */
  method SortFacePoints(edges: seq<Edge>) returns (r: Result<seq<Vec3>>)
    ensures r == SortedPoints(edges)
  {
    if edges == [] {
      return Err(IndexError);
    }
    var pts := SortQuadVertex(edges, false);
    if pts.None? {
      pts := SortQuadVertex(edges, true);
    }
    if pts.None? {
      return Err(ValueError("Error sorting vertex"));
    }
    return Ok(pts.value);
  }
}
