/** lasercut/helper.py: screw/nut table, epsilon comparisons, the ordering of
    a quadrilateral face's vertices, its local axes and the grouping of a
    solid's faces by normal. */
module Helper {
  import opened Wrappers
  import opened Solids

  /** The default tolerance `10e-6` of the comparison helpers. */
  const Eps: real := 0.00001

  // ---------------------------------------------------------------------
  // ObjectProperties

  /** Keyword arguments copied onto an object, one attribute per argument. */
  class ObjectProperties<V> {
    var attributes: map<string, V>

    constructor (kwargs: seq<(string, V)>)
      requires forall i, j :: 0 <= i < j < |kwargs| ==> kwargs[i].0 != kwargs[j].0
      ensures attributes.Keys == set i | 0 <= i < |kwargs| :: kwargs[i].0
      ensures forall i :: 0 <= i < |kwargs| ==> attributes[kwargs[i].0] == kwargs[i].1
    {
      var attrs: map<string, V> := map[];
      var n := 0;
      while n < |kwargs|
        invariant 0 <= n <= |kwargs|
        invariant attrs.Keys == set i | 0 <= i < n :: kwargs[i].0
        invariant forall i :: 0 <= i < n ==> attrs[kwargs[i].0] == kwargs[i].1
      {
        attrs := attrs[kwargs[n].0 := kwargs[n].1];
        n := n + 1;
      }
      attributes := attrs;
    }
  }

  // ---------------------------------------------------------------------
  // Screw and nut table

  datatype ScrewNutSpec = ScrewNutSpec(screwDiameter: real, screwLength: real,
                                       nutFlatFlat: real, nutHeight: real)

  /** Metric nut dimensions by screw diameter: (width across flats, height). */
  const NutTable: map<real, (real, real)> := map[
    1.6 := (3.2, 1.3), 2.0 := (4.0, 1.6), 2.5 := (5.0, 2.0), 3.0 := (5.5, 2.4), 4.0 := (7.0, 3.2),
    5.0 := (8.0, 4.7), 6.0 := (10.0, 5.2), 8.0 := (13.0, 6.8), 10.0 := (16.0, 8.4)]

  /** `get_screw_nut_spec`: the nut that goes with a metric screw; the
      screw's own diameter and length are passed through. */
  function GetScrewNutSpec(diameter: real, length: real): (r: Result<ScrewNutSpec>)
    ensures r.Ok? <==> diameter in NutTable
    ensures r.Ok? ==> r.value == ScrewNutSpec(diameter, length, NutTable[diameter].0, NutTable[diameter].1)
    ensures r.Err? ==> r == Err(ValueError("Unknown screw diameter"))
    ensures r.Ok? ==> r.value.nutFlatFlat > r.value.screwDiameter > 0.0
  {
    if diameter == 1.6 then Ok(ScrewNutSpec(diameter, length, 3.2, 1.3))
    else if diameter == 2.0 then Ok(ScrewNutSpec(diameter, length, 4.0, 1.6))
    else if diameter == 2.5 then Ok(ScrewNutSpec(diameter, length, 5.0, 2.0))
    else if diameter == 3.0 then Ok(ScrewNutSpec(diameter, length, 5.5, 2.4))
    else if diameter == 4.0 then Ok(ScrewNutSpec(diameter, length, 7.0, 3.2))
    else if diameter == 5.0 then Ok(ScrewNutSpec(diameter, length, 8.0, 4.7))
    else if diameter == 6.0 then Ok(ScrewNutSpec(diameter, length, 10.0, 5.2))
    else if diameter == 8.0 then Ok(ScrewNutSpec(diameter, length, 13.0, 6.8))
    else if diameter == 10.0 then Ok(ScrewNutSpec(diameter, length, 16.0, 8.4))
    else Err(ValueError("Unknown screw diameter"))
  }

  // ---------------------------------------------------------------------
  // Epsilon comparisons

  /** `compare_value(a, b, eps)`, used by the hinge and part modules. */
  predicate CompareValue(a: real, b: real, eps: real) { Abs(a - b) < eps }

  /** `compare_freecad_vector`: every component closer than `eps`. */
  predicate CompareVector(v1: Vec3, v2: Vec3, eps: real)
  {
    var d := Sub(v1, v2);
    Abs(d.x) < eps && Abs(d.y) < eps && Abs(d.z) < eps
  }

  /** `compare_freecad_vector_direction`: the cross product is shorter than
      `eps`, stated on its squared length (for a positive `eps`). */
  predicate CompareVectorDirection(v1: Vec3, v2: Vec3, eps: real)
  {
    SqLength(Cross(v1, v2)) < eps * eps
  }

  lemma CompareVectorSymmetric(v1: Vec3, v2: Vec3, eps: real)
    ensures CompareVector(v1, v2, eps) <==> CompareVector(v2, v1, eps)
  {
  }

  /** Closeness adds up: two comparisons chain with the sum of their tolerances. */
  lemma CompareVectorTriangle(a: Vec3, b: Vec3, c: Vec3, e1: real, e2: real)
    requires CompareVector(a, b, e1) && CompareVector(b, c, e2)
    ensures CompareVector(a, c, e1 + e2)
  {
  }

  // ---------------------------------------------------------------------
  // Vertex ordering of a face

  /** Points chained by `sort_quad_vertex` once the middle edges
      `edges[1..m]` are processed: the endpoints of the first edge, then for
      each middle edge the endpoint that is not shared with the last point;
      `None` at the first middle edge that shares no endpoint with it. */
  function Chain(edges: seq<Edge>, reverse: bool, m: nat): Option<seq<Vec3>>
    requires 1 <= m <= |edges|
  {
    if m == 1 then
      Some(if reverse then [edges[0].v1, edges[0].v0] else [edges[0].v0, edges[0].v1])
    else
      match Chain(edges, reverse, m - 1)
      case None => None
      case Some(pts) =>
        var e := edges[m - 1];
        if e.v0 == pts[|pts| - 1] then Some(pts + [e.v1])
        else if e.v1 == pts[|pts| - 1] then Some(pts + [e.v0])
        else None
  }

  /** The middle edges are `edges[1..|edges| - 1]`; the last edge is never looked at. */
  function MiddleEnd(edges: seq<Edge>): nat
    requires |edges| >= 1
  {
    if |edges| >= 2 then |edges| - 1 else 1
  }

  /** `sort_quad_vertex`. An empty edge list is not accepted (a face has edges). */
  method SortQuadVertex(edges: seq<Edge>, reverse: bool) returns (r: Option<seq<Vec3>>)
    requires |edges| >= 1
    ensures r == Chain(edges, reverse, MiddleEnd(edges))
  {
    var points := if reverse then [edges[0].v1, edges[0].v0] else [edges[0].v0, edges[0].v1];
    var k := 1;
    while k < |edges| - 1
      invariant 1 <= k <= MiddleEnd(edges)
      invariant Chain(edges, reverse, k) == Some(points)
    {
      var e := edges[k];
      ChainShape(edges, reverse, k);
      if e.v0 == points[|points| - 1] {
        points := points + [e.v1];
      } else if e.v1 == points[|points| - 1] {
        points := points + [e.v0];
      } else {
        ChainStaysNone(edges, reverse, k + 1, MiddleEnd(edges));
        return None;
      }
      k := k + 1;
    }
    return Some(points);
  }

  /** The chain enters edge `e` at `from` and leaves it at `to`; the first
      endpoint is tried first. */
  predicate Walks(e: Edge, from: Vec3, to: Vec3)
  {
    (e.v0 == from && to == e.v1) || (e.v0 != from && e.v1 == from && to == e.v0)
  }

  /** A chained prefix has one point more than edges processed, starts with
      the first edge's endpoints and walks each middle edge from one end to
      the other. */
  lemma {:induction false} ChainShape(edges: seq<Edge>, reverse: bool, m: nat)
    requires 1 <= m <= |edges| && Chain(edges, reverse, m).Some?
    ensures |Chain(edges, reverse, m).value| == m + 1
    ensures Chain(edges, reverse, m).value[0] == (if reverse then edges[0].v1 else edges[0].v0)
    ensures Chain(edges, reverse, m).value[1] == (if reverse then edges[0].v0 else edges[0].v1)
    ensures forall k :: 1 <= k < m ==> Walks(edges[k], Chain(edges, reverse, m).value[k], Chain(edges, reverse, m).value[k + 1])
  {
    if m > 1 {
      ChainShape(edges, reverse, m - 1);
      var prev := Chain(edges, reverse, m - 1).value;
      var pts := Chain(edges, reverse, m).value;
      assert pts[..m] == prev;
      var e := edges[m - 1];
      if e.v0 == prev[m - 1] {
        assert pts == prev + [e.v1];
      } else {
        assert pts == prev + [e.v0];
      }
      forall k | 1 <= k < m
        ensures Walks(edges[k], pts[k], pts[k + 1])
      {
        if k < m - 1 {
          assert pts[k] == prev[k] && pts[k + 1] == prev[k + 1];
        }
      }
    }
  }

  lemma {:induction false} ChainStaysNone(edges: seq<Edge>, reverse: bool, m: nat, n: nat)
    requires 1 <= m <= n <= |edges| && Chain(edges, reverse, m).None?
    ensures Chain(edges, reverse, n).None?
    decreases n - m
  {
    if m < n {
      ChainStaysNone(edges, reverse, m + 1, n);
    }
  }

  /** Middle edge `k` shares no endpoint with the last point chained before it. */
  predicate Disconnected(edges: seq<Edge>, reverse: bool, k: nat)
    requires 1 <= k < |edges|
  {
    Chain(edges, reverse, k).Some? &&
    var pts := Chain(edges, reverse, k).value;
    |pts| > 0 && edges[k].v0 != pts[|pts| - 1] && edges[k].v1 != pts[|pts| - 1]
  }

  /** `sort_quad_vertex` gives up exactly at a middle edge that shares no
      endpoint with the point chained just before it. */
  lemma {:induction false} ChainFailsAtDisconnectedEdge(edges: seq<Edge>, reverse: bool, m: nat)
    requires 1 <= m <= |edges| && Chain(edges, reverse, m).None?
    ensures exists k :: 1 <= k < m && Disconnected(edges, reverse, k)
  {
    assert m > 1;
    if Chain(edges, reverse, m - 1).None? {
      ChainFailsAtDisconnectedEdge(edges, reverse, m - 1);
    } else {
      ChainShape(edges, reverse, m - 1);
      assert Disconnected(edges, reverse, m - 1);
    }
  }

  /** The points of a face's edge chain, trying the forward orientation and
      then the reversed one, as both `get_local_axis` and the thickness
      estimate do; no edge at all fails on `list_edges[0]`. */
  function SortedPoints(edges: seq<Edge>): (r: Result<seq<Vec3>>)
    ensures r.Ok? ==> edges != [] && |r.value| == MiddleEnd(edges) + 1 && |r.value| >= 2
    ensures r.Err? ==> r == Err(IndexError) || r == Err(ValueError("Error sorting vertex"))
    ensures r == Err(IndexError) <==> edges == []
  {
    if edges == [] then Err(IndexError)
    else
      var forward := Chain(edges, false, MiddleEnd(edges));
      var backward := Chain(edges, true, MiddleEnd(edges));
      if forward.Some? then ChainShape(edges, false, MiddleEnd(edges)); Ok(forward.value)
      else if backward.Some? then ChainShape(edges, true, MiddleEnd(edges)); Ok(backward.value)
      else Err(ValueError("Error sorting vertex"))
  }

  // ---------------------------------------------------------------------
  // Local axes of a face

  datatype LocalAxes = LocalAxes(x: Vec3, yRaw: Vec3, zRaw: Vec3)

  /** The two edges leaving point `k` of the chained quad, the longer one
      taken as y and the other as z (`>=` keeps the next edge on a tie). */
  function AxesAt(points: seq<Vec3>, k: nat): (r: (Vec3, Vec3))
    requires |points| >= 4 && k < 4
    ensures SqLength(r.0) >= SqLength(r.1)
    ensures {r.0, r.1} == {Sub(points[(k + 1) % 4], points[k]), Sub(points[(k + 3) % 4], points[k])}
  {
    var v1 := Sub(points[(k + 1) % 4], points[k]);
    var v2 := Sub(points[(k + 3) % 4], points[k]);
    if SqLength(v1) >= SqLength(v2) then (v1, v2) else (v2, v1)
  }

  /** The axes at point `k` give a right-handed frame whose x is `xLocal`. */
  predicate AxesMatch(points: seq<Vec3>, k: nat, xLocal: Vec3, normalize: Vec3 -> Vec3)
    requires |points| >= 4 && k < 4
  {
    var (y, z) := AxesAt(points, k);
    CompareVector(Cross(normalize(y), normalize(z)), xLocal, Eps)
  }

  /** `get_local_axis` after the vertex sort: x is the reversed face normal,
      y and z are the (unnormalised) edges at the first vertex whose frame
      matches; `None` when no vertex matches. */
  method LocalAxisOfPoints(points: seq<Vec3>, normal: Vec3, normalize: Vec3 -> Vec3)
    returns (r: Result<Option<LocalAxes>>)
    ensures r.Err? <==> |points| < 4
    ensures r.Err? ==> r.error == IndexError
    ensures r.Ok? && r.value.Some? ==>
      exists k :: 0 <= k < 4 && AxesMatch(points, k, Neg(normal), normalize) &&
        (forall j :: 0 <= j < k ==> !AxesMatch(points, j, Neg(normal), normalize)) &&
        r.value.value == LocalAxes(Neg(normal), AxesAt(points, k).0, AxesAt(points, k).1)
    ensures r.Ok? && r.value.None? ==> forall k :: 0 <= k < 4 ==> !AxesMatch(points, k, Neg(normal), normalize)
  {
    if |points| < 4 {
      return Err(IndexError);
    }
    var xLocal := Neg(normal);
    var k := 0;
    while k < 4
      invariant 0 <= k <= 4
      invariant forall j :: 0 <= j < k ==> !AxesMatch(points, j, xLocal, normalize)
    {
      var v1 := Sub(points[(k + 1) % 4], points[k]);
      var v2 := Sub(points[(k + 3) % 4], points[k]);
      var yRaw, zRaw;
      if SqLength(v1) >= SqLength(v2) {
        yRaw, zRaw := v1, v2;
      } else {
        yRaw, zRaw := v2, v1;
      }
      if CompareVector(Cross(normalize(yRaw), normalize(zRaw)), xLocal, Eps) {
        assert AxesMatch(points, k, xLocal, normalize);
        return Ok(Some(LocalAxes(xLocal, yRaw, zRaw)));
      }
      k := k + 1;
    }
    return Ok(None);
  }

  /** `get_local_axis`: sort the face's edges into a chain of points, first
      forwards then reversed, and fail with "Error sorting vertex" when
      neither orientation chains. */
  method GetLocalAxis(edges: seq<Edge>, normal: Vec3, normalize: Vec3 -> Vec3)
    returns (r: Result<Option<LocalAxes>>)
    ensures SortedPoints(edges).Err? ==> r == Err(SortedPoints(edges).error)
    ensures SortedPoints(edges).Ok? ==> (r.Err? <==> |SortedPoints(edges).value| < 4)
    ensures r.Err? ==> r.error == IndexError || r.error == ValueError("Error sorting vertex")
    ensures r.Ok? && r.value.Some? ==>
      SortedPoints(edges).Ok? && |SortedPoints(edges).value| >= 4 &&
      exists k :: 0 <= k < 4 && AxesMatch(SortedPoints(edges).value, k, Neg(normal), normalize) &&
        r.value.value == LocalAxes(Neg(normal), AxesAt(SortedPoints(edges).value, k).0,
                                   AxesAt(SortedPoints(edges).value, k).1)
    ensures r.Ok? && r.value.None? ==>
      SortedPoints(edges).Ok? && |SortedPoints(edges).value| >= 4 &&
      forall k :: 0 <= k < 4 ==> !AxesMatch(SortedPoints(edges).value, k, Neg(normal), normalize)
  {
    if edges == [] {
      return Err(IndexError);
    }
    var points := SortQuadVertex(edges, false);
    if points.None? {
      points := SortQuadVertex(edges, true);
      if points.None? {
        return Err(ValueError("Error sorting vertex"));
      }
      ChainShape(edges, true, MiddleEnd(edges));
    } else {
      ChainShape(edges, false, MiddleEnd(edges));
    }
    assert SortedPoints(edges) == Ok(points.value);
    r := LocalAxisOfPoints(points.value, normal, normalize);
  }

  // ---------------------------------------------------------------------
  // Matrix of a face's local frame

  /** `get_matrix_transform`: x, normalised y and normalised z become the
      columns. When `get_local_axis` found no frame, normalising `None`
      fails with AttributeError; its ValueError is passed on. */
  function GetMatrixTransform(axes: Result<Option<LocalAxes>>, normalize: Vec3 -> Vec3): (r: Result<Matrix3>)
    ensures axes.Err? ==> r == Err(axes.error)
    ensures axes == Ok(None) ==> r == Err(AttributeError)
    ensures axes.Ok? && axes.value.Some? ==>
      (r.Ok? &&
       Apply(r.value, Vec3(1.0, 0.0, 0.0)) == axes.value.value.x &&
       Apply(r.value, Vec3(0.0, 1.0, 0.0)) == normalize(axes.value.value.yRaw) &&
       Apply(r.value, Vec3(0.0, 0.0, 1.0)) == normalize(axes.value.value.zRaw))
  {
    match axes
    case Err(e) => Err(e)
    case Ok(None) => Err(AttributeError)
    case Ok(Some(a)) =>
      var x, y, z := a.x, normalize(a.yRaw), normalize(a.zRaw);
      Ok(Matrix3(x.x, y.x, z.x,
                 x.y, y.y, z.y,
                 x.z, y.z, z.z))
  }

  // ---------------------------------------------------------------------
  // Faces grouped by normal

  /** `[normal, total area, faces]` of `biggest_area_faces`. */
  datatype Group = Group(normal: Vec3, area: real, faces: seq<Face>)

  function SumArea(fs: seq<Face>): real
  {
    if fs == [] then 0.0 else SumArea(fs[..|fs| - 1]) + fs[|fs| - 1].area
  }

  /** Index of the first group whose normal is parallel to `n`, if any. */
  function FirstParallel(groups: seq<Group>, n: Vec3, from: nat): (r: Option<nat>)
    requires from <= |groups|
    ensures r.Some? ==>
      (from <= r.value < |groups| && CompareVectorDirection(n, groups[r.value].normal, Eps) &&
       forall i :: from <= i < r.value ==> !CompareVectorDirection(n, groups[i].normal, Eps))
    ensures r.None? ==> forall i :: from <= i < |groups| ==> !CompareVectorDirection(n, groups[i].normal, Eps)
    decreases |groups| - from
  {
    if from == |groups| then None
    else if CompareVectorDirection(n, groups[from].normal, Eps) then Some(from)
    else FirstParallel(groups, n, from + 1)
  }

  /** The face added to its group, or a new group at the end. */
  function Insert(groups: seq<Group>, f: Face): seq<Group>
  {
    match FirstParallel(groups, f.normal, 0)
    case Some(i) => groups[i := Group(groups[i].normal, groups[i].area + f.area, groups[i].faces + [f])]
    case None => groups + [Group(f.normal, f.area, [f])]
  }

  function GroupsOf(faces: seq<Face>): seq<Group>
  {
    if faces == [] then [] else Insert(GroupsOf(faces[..|faces| - 1]), faces[|faces| - 1])
  }

  function Count(groups: seq<Group>): nat
  {
    if groups == [] then 0 else Count(groups[..|groups| - 1]) + |groups[|groups| - 1].faces|
  }

  /** Each group's area is the sum of its faces' areas. */
  predicate AreasAdd(groups: seq<Group>)
  {
    forall i :: 0 <= i < |groups| ==> groups[i].area == SumArea(groups[i].faces)
  }

  /** Inserting a face keeps every group's area the sum of its faces' areas. */
  lemma {:induction false} InsertKeepsAreas(groups: seq<Group>, f: Face)
    requires AreasAdd(groups)
    ensures AreasAdd(Insert(groups, f))
  {
    match FirstParallel(groups, f.normal, 0)
    case Some(i) =>
      var fs := groups[i].faces + [f];
      assert fs[..|fs| - 1] == groups[i].faces;
      assert SumArea(fs) == SumArea(groups[i].faces) + f.area;
    case None =>
      assert [f][..0] == [];
      assert SumArea([f]) == f.area;
  }

  /** Inserting a face counts it once. */
  lemma {:induction false} InsertCountsOnce(groups: seq<Group>, f: Face)
    ensures Count(Insert(groups, f)) == Count(groups) + 1
  {
    match FirstParallel(groups, f.normal, 0)
    case Some(i) =>
      CountUpdate(groups, i, Group(groups[i].normal, groups[i].area + f.area, groups[i].faces + [f]));
    case None =>
      assert (groups + [Group(f.normal, f.area, [f])])[..|groups|] == groups;
  }

  lemma {:induction false} CountUpdate(groups: seq<Group>, i: nat, g: Group)
    requires i < |groups|
    ensures Count(groups[i := g]) == Count(groups) - |groups[i].faces| + |g.faces|
    decreases |groups|
  {
    var n := |groups|;
    if i == n - 1 {
      assert groups[i := g][..n - 1] == groups[..n - 1];
    } else {
      assert groups[i := g][..n - 1] == groups[..n - 1][i := g];
      CountUpdate(groups[..n - 1], i, g);
    }
  }

  /** Every face lands in exactly one group, and each group's area is the
      sum of its faces' areas. */
  lemma {:induction false} GroupsPartitionFaces(faces: seq<Face>)
    ensures AreasAdd(GroupsOf(faces)) && Count(GroupsOf(faces)) == |faces|
  {
    if faces != [] {
      GroupsPartitionFaces(faces[..|faces| - 1]);
      InsertKeepsAreas(GroupsOf(faces[..|faces| - 1]), faces[|faces| - 1]);
      InsertCountsOnce(GroupsOf(faces[..|faces| - 1]), faces[|faces| - 1]);
    }
  }

  /** Two groups never have parallel normals. */
  lemma {:induction false} GroupsNotParallel(faces: seq<Face>)
    ensures forall i, j :: 0 <= i < j < |GroupsOf(faces)| ==>
      !CompareVectorDirection(GroupsOf(faces)[j].normal, GroupsOf(faces)[i].normal, Eps)
  {
    if faces != [] {
      var pre := faces[..|faces| - 1];
      GroupsNotParallel(pre);
      InsertKeepsNormals(GroupsOf(pre), faces[|faces| - 1]);
    }
  }

  lemma InsertKeepsNormals(groups: seq<Group>, f: Face)
    requires forall i, j :: 0 <= i < j < |groups| ==> !CompareVectorDirection(groups[j].normal, groups[i].normal, Eps)
    ensures forall i, j :: 0 <= i < j < |Insert(groups, f)| ==>
      !CompareVectorDirection(Insert(groups, f)[j].normal, Insert(groups, f)[i].normal, Eps)
  {
    var gs := Insert(groups, f);
    assert forall i :: 0 <= i < |groups| ==> gs[i].normal == groups[i].normal;
  }

  /** Index of the last group of largest area: where an ascending stable
      sort on area puts its final element. */
  function LastMax(groups: seq<Group>): (k: nat)
    requires |groups| > 0
    ensures k < |groups|
    ensures forall i :: 0 <= i < |groups| ==> groups[i].area <= groups[k].area
    ensures forall i :: k < i < |groups| ==> groups[i].area < groups[k].area
  {
    if |groups| == 1 then 0
    else
      var k := LastMax(groups[..|groups| - 1]);
      if groups[|groups| - 1].area >= groups[k].area then |groups| - 1 else k
  }

  /** One pass of the face loop of `biggest_area_faces`: the face joins the
      first group with a parallel normal, or opens a new group. */
  method InsertFace(groups: seq<Group>, face: Face) returns (r: seq<Group>)
    ensures r == Insert(groups, face)
  {
    var i := 0;
    while i < |groups|
      invariant 0 <= i <= |groups|
      invariant FirstParallel(groups, face.normal, 0) == FirstParallel(groups, face.normal, i)
    {
      if CompareVectorDirection(face.normal, groups[i].normal, Eps) {
        return groups[i := Group(groups[i].normal, groups[i].area + face.area, groups[i].faces + [face])];
      }
      i := i + 1;
    }
    return groups + [Group(face.normal, face.area, [face])];
  }

  /** The index the ascending stable sort on area puts last. */
  method LastMaxIndex(groups: seq<Group>) returns (best: nat)
    requires |groups| > 0
    ensures best == LastMax(groups)
  {
    best := 0;
    var k := 1;
    while k < |groups|
      invariant 0 <= best < k <= |groups|
      invariant best == LastMax(groups[..k])
    {
      assert groups[..k + 1][..k] == groups[..k];
      if groups[k].area >= groups[best].area {
        best := k;
      }
      k := k + 1;
    }
    assert groups[..k] == groups;
  }

  /** `biggest_area_faces`: groups the faces by parallel normal and returns
      the group of largest total area; the ascending stable sort makes it
      the last such group. No face at all fails as `sorted_list[-1]` does. */
  method BiggestAreaFaces(faces: seq<Face>) returns (r: Result<Group>)
    ensures r.Err? <==> faces == []
    ensures r.Err? ==> r.error == IndexError
    ensures r.Ok? ==> GroupsOf(faces) != [] && r.value == GroupsOf(faces)[LastMax(GroupsOf(faces))]
  {
    var groups: seq<Group> := [];
    var n := 0;
    while n < |faces|
      invariant 0 <= n <= |faces|
      invariant groups == GroupsOf(faces[..n])
    {
      groups := InsertFace(groups, faces[n]);
      assert faces[..n + 1][..n] == faces[..n];
      n := n + 1;
    }
    assert faces[..n] == faces;
    if groups == [] {
      return Err(IndexError);
    }
    var best := LastMaxIndex(groups);
    return Ok(groups[best]);
  }
}
