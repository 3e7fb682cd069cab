/** lasercut/makehinges.py: living hinges. Two panels that meet at an angle
    are unfolded into one flat part; the strip between them is cut with
    staggered columns of slits so that it bends. */
module Hinges {
  import opened Wrappers
  import opened Solids
  import opened Helper
  import Elements
  import Plans

  // ---------------------------------------------------------------------
  // Segments and kernel operations

  /** helper's `Segment(A, B)`; `B` is the end at the bend. Its midpoint,
      vector and length are taken as (A + B) / 2, B − A and the length of
      B − A. */
  datatype Segment = Segment(a: Vec3, b: Vec3)

  function SegMid(s: Segment): Vec3 { Scale(Add(s.a, s.b), 0.5) }

  function SegVector(s: Segment): Vec3 { Sub(s.b, s.a) }

  /** The kernel operations the hinge code uses and the model does not
      compute: vector length, normalisation, the angle between two segments,
      square root, arc cosine, the default tolerance of
      `compare_value`, and the faces of a solid in kernel order. */
  datatype HingeKernel = HingeKernel(
    length: Vec3 -> real, normalize: Vec3 -> Vec3, angle: (Segment, Segment) -> real,
    sqrt: real -> real, acos: real -> real, valueEps: real,
    facesOf: Solid -> seq<Face>)

  /** The fields of a hinge (hingesproperties.py `HingesProperties`) that the
      functions of this module read. `refs` holds the two document objects and
      faces that `recomputeInit` stores; it is absent before that call. */
  datatype HingeRefs = HingeRefs(object1: DocObject, face1: Face, object2: DocObject, face2: Face)

  datatype HingeView = HingeView(
    name: string, refs: Option<HingeRefs>, nbLink: int, minLinksNb: Option<int>,
    arcLength: Option<real>, extrusion: Option<Vec3>, thickness: Option<real>,
    degAngle: Option<real>, rotation: Option<Vec3>, solid: Option<Solid>)

  /** `GlobalLivingMaterialProperties`, built in hingesproperties.py. */
  datatype GlobalLiving = GlobalLiving(
    newName: string, thickness: real, laserBeamDiameter: real, freecadObjectName: string,
    name: string, objectLabel: string, linkClearance: real, solidName: string, dogBone: bool,
    generateSolid: bool, hingeType: string, alternateNbHinge: int, occupancyRatio: real)

  // ---------------------------------------------------------------------
  // Column positions along the bend

  /** `len(range(n))`. */
  function Count(n: int): nat { if n > 0 then n else 0 }

  /** The i-th value of `get_hinges_x_positions`. */
  function XPosition(nb: int, xLength: real, i: nat): real
    requires nb != 1
  {
    (i as real) * (xLength / ((nb - 1) as real))
  }

  function XPositions(nb: int, xLength: real): seq<real>
    requires nb != 1
  {
    seq(Count(nb), i requires 0 <= i < Count(nb) => XPosition(nb, xLength, i))
  }

  /** `get_hinges_x_positions`: a single column divides by zero. */
  method GetHingesXPositions(nb: int, xLength: real) returns (r: Result<seq<real>>)
    ensures nb == 1 ==> r == Err(ZeroDivisionError)
    ensures nb != 1 ==> r == Ok(XPositions(nb, xLength))
  {
    if nb - 1 == 0 {
      return Err(ZeroDivisionError);
    }
    var interval := xLength / ((nb - 1) as real);
    var list: seq<real> := [];
    var i: nat := 0;
    while i < nb
      invariant i <= Count(nb) && |list| == i
      invariant forall j :: 0 <= j < i ==> list[j] == XPosition(nb, xLength, j)
    {
      list := list + [(i as real) * interval];
      i := i + 1;
    }
    assert list == XPositions(nb, xLength);
    return Ok(list);
  }

  /** For two columns or more the positions run evenly from 0 to `xLength`. */
  lemma XPositionsSpan(nb: int, xLength: real)
    requires nb >= 2
    ensures |XPositions(nb, xLength)| == nb
    ensures XPositions(nb, xLength)[0] == 0.0 && XPositions(nb, xLength)[nb - 1] == xLength
    ensures forall i :: 0 <= i < nb - 1 ==>
      XPositions(nb, xLength)[i + 1] - XPositions(nb, xLength)[i] == xLength / ((nb - 1) as real)
  {
    var d := (nb - 1) as real;
    assert d * (xLength / d) == xLength;
    forall i | 0 <= i < nb - 1
      ensures XPositions(nb, xLength)[i + 1] - XPositions(nb, xLength)[i] == xLength / d
    {
      assert ((i + 1) as real) * (xLength / d) == (i as real) * (xLength / d) + xLength / d;
    }
  }

  // ---------------------------------------------------------------------
  // Slit positions within a column

  /** The two values one iteration of `get_hinges_y_positions` appends. */
  function YPair(i: nat, d: real, odd: bool): seq<real>
  {
    if odd then [((i + 1) as real) * d, ((-(i as int) - 1) as real) * d]
    else [(i as real) * d + d / 2.0, ((-(i as int)) as real) * d - d / 2.0]
  }

  function YPairs(h: nat, d: real, odd: bool): (r: seq<real>)
    ensures |r| == 2 * h
  {
    if h == 0 then [] else YPairs(h - 1, d, odd) + YPair(h - 1, d, odd)
  }

  /** The iteration count `int(float(n) / 2.0)`; `range` of a negative count is empty. */
  function HalfCount(n: int): nat { if n >= 0 then n / 2 else 0 }

  /** `get_hinges_y_positions(n, l, s)` with `d = l + s`. */
  function YPositions(n: int, d: real): seq<real>
  {
    (if n % 2 == 1 then [0.0] else []) + YPairs(HalfCount(n), d, n % 2 == 1)
  }

  method GetHingesYPositions(n: int, holeLength: real, holeSpace: real) returns (r: seq<real>)
    ensures r == YPositions(n, holeLength + holeSpace)
  {
    var list: seq<real> := [];
    var half: int := if n >= 0 then n / 2 else -((-n) / 2);
    var interval := holeLength + holeSpace;
    if n % 2 == 1 {
      list := list + [0.0];
      var i: nat := 0;
      while i < half
        invariant i <= HalfCount(n)
        invariant list == [0.0] + YPairs(i, interval, true)
      {
        PairAppended(list, i, interval, true);
        list := list + [((i + 1) as real) * interval];
        list := list + [((-(i as int) - 1) as real) * interval];
        i := i + 1;
      }
    } else {
      var i: nat := 0;
      while i < half
        invariant i <= HalfCount(n)
        invariant list == YPairs(i, interval, false)
      {
        PairAppended(list, i, interval, false);
        list := list + [(i as real) * interval + interval / 2.0];
        list := list + [((-(i as int)) as real) * interval - interval / 2.0];
        i := i + 1;
      }
    }
    return list;
  }

  /** Appending the two values of one iteration appends `YPair`. */
  lemma PairAppended(l: seq<real>, i: nat, d: real, odd: bool)
    ensures odd ==> (l + [((i + 1) as real) * d]) + [((-(i as int) - 1) as real) * d] == l + YPair(i, d, odd)
    ensures !odd ==>
      (l + [(i as real) * d + d / 2.0]) + [((-(i as int)) as real) * d - d / 2.0] == l + YPair(i, d, odd)
  {
  }

  /** The k-th of n points spaced `d` apart and centred on 0. */
  function Grid(n: int, d: real, k: int): real
  {
    ((k as real) - ((n - 1) as real) / 2.0) * d
  }

  /** Which grid point the i-th position of a column is. */
  function GridIndex(n: nat, i: nat): int
  {
    var h := n / 2;
    if n % 2 == 1 then (if i == 0 then h else if i % 2 == 1 then h + (i + 1) / 2 else h - i / 2)
    else (if i % 2 == 0 then h + i / 2 else h - 1 - i / 2)
  }

  /** Where grid point k sits in the column. */
  function ListIndex(n: nat, k: int): int
  {
    var h := n / 2;
    if n % 2 == 1 then (if k == h then 0 else if k > h then 2 * (k - h) - 1 else 2 * (h - k))
    else (if k >= h then 2 * (k - h) else 2 * (h - 1 - k) + 1)
  }

  lemma {:induction false} YPairsAt(h: nat, d: real, odd: bool, j: nat)
    requires j < h
    ensures YPairs(h, d, odd)[2 * j] == YPair(j, d, odd)[0]
    ensures YPairs(h, d, odd)[2 * j + 1] == YPair(j, d, odd)[1]
  {
    if j < h - 1 {
      YPairsAt(h - 1, d, odd, j);
    }
  }

  lemma GridCoefficient(n: int, d: real, k: int, c: real)
    requires (k as real) - ((n - 1) as real) / 2.0 == c
    ensures Grid(n, d, k) == c * d
  {
  }

  lemma GridAtOdd(h: nat, d: real, i: nat)
    requires i < 2 * h + 1
    ensures 0 <= GridIndex(2 * h + 1, i) < 2 * h + 1
    ensures YPositions(2 * h + 1, d)[i] == Grid(2 * h + 1, d, GridIndex(2 * h + 1, i))
  {
    var n := 2 * h + 1;
    assert n / 2 == h && n % 2 == 1 && HalfCount(n) == h;
    var ys := YPositions(n, d);
    assert ys == [0.0] + YPairs(h, d, true);
    if i == 0 {
      GridCoefficient(n, d, h, 0.0);
    } else {
      var j := (i - 1) / 2;
      YPairsAt(h, d, true, j);
      if i % 2 == 1 {
        assert i - 1 == 2 * j && GridIndex(n, i) == h + j + 1;
        GridCoefficient(n, d, h + j + 1, (j + 1) as real);
      } else {
        assert i - 1 == 2 * j + 1 && GridIndex(n, i) == h - j - 1;
        GridCoefficient(n, d, h - j - 1, (-(j as int) - 1) as real);
      }
    }
  }

  lemma HalfStep(j: nat, d: real)
    ensures ((j as real) + 0.5) * d == (j as real) * d + d / 2.0
    ensures (-(j as real) - 0.5) * d == ((-(j as int)) as real) * d - d / 2.0
  {
  }

  lemma EvenColumn(h: nat, d: real)
    ensures YPositions(2 * h, d) == YPairs(h, d, false)
  {
    assert (2 * h) % 2 == 0 && HalfCount(2 * h) == h;
  }

  lemma EvenIndex(h: nat, j: nat)
    requires j < h
    ensures GridIndex(2 * h, 2 * j) == h + j && GridIndex(2 * h, 2 * j + 1) == h - 1 - j
  {
    assert (2 * h) / 2 == h && (2 * h) % 2 == 0;
  }

  /** The even column's positions 2j (right of 0) and 2j + 1 (left of 0). */
  lemma GridAtEvenRight(h: nat, d: real, j: nat)
    requires j < h
    ensures YPositions(2 * h, d)[2 * j] == Grid(2 * h, d, h + j)
  {
    EvenColumn(h, d);
    YPairsAt(h, d, false, j);
    HalfStep(j, d);
    GridCoefficient(2 * h, d, h + j, (j as real) + 0.5);
  }

  lemma GridAtEvenLeft(h: nat, d: real, j: nat)
    requires j < h
    ensures YPositions(2 * h, d)[2 * j + 1] == Grid(2 * h, d, h - 1 - j)
  {
    EvenColumn(h, d);
    YPairsAt(h, d, false, j);
    HalfStep(j, d);
    GridCoefficient(2 * h, d, h - 1 - j, -(j as real) - 0.5);
  }

  lemma GridAtEven(h: nat, d: real, i: nat)
    requires i < 2 * h
    ensures 0 <= GridIndex(2 * h, i) < 2 * h
    ensures YPositions(2 * h, d)[i] == Grid(2 * h, d, GridIndex(2 * h, i))
  {
    EvenIndex(h, i / 2);
    if i % 2 == 0 {
      GridAtEvenRight(h, d, i / 2);
    } else {
      GridAtEvenLeft(h, d, i / 2);
    }
  }

  /** Position i of a column is grid point `GridIndex(n, i)`. */
  lemma GridAt(n: nat, d: real, i: nat)
    requires i < n
    ensures |YPositions(n, d)| == n
    ensures 0 <= GridIndex(n, i) < n && YPositions(n, d)[i] == Grid(n, d, GridIndex(n, i))
  {
    if n % 2 == 1 {
      GridAtOdd(n / 2, d, i);
    } else {
      GridAtEven(n / 2, d, i);
    }
  }

  lemma ListAt(n: nat, k: int)
    requires 0 <= k < n
    ensures 0 <= ListIndex(n, k) < n && GridIndex(n, ListIndex(n, k)) == k
  {
  }

  /** A column holds exactly the n points spaced `d` apart and centred on 0:
      `GridIndex` maps its positions onto the grid and `ListIndex` is its
      inverse, so the column is a permutation of the grid. */
  lemma YPositionsGrid(n: nat, d: real)
    ensures |YPositions(n, d)| == n
    ensures forall i :: 0 <= i < n ==>
      0 <= GridIndex(n, i) < n && YPositions(n, d)[i] == Grid(n, d, GridIndex(n, i))
    ensures forall k :: 0 <= k < n ==> 0 <= ListIndex(n, k) < n && GridIndex(n, ListIndex(n, k)) == k
    ensures forall k :: 0 <= k < n - 1 ==> Grid(n, d, k + 1) - Grid(n, d, k) == d
  {
    assert |YPositions(n, d)| == n;
    forall i | 0 <= i < n
      ensures 0 <= GridIndex(n, i) < n && YPositions(n, d)[i] == Grid(n, d, GridIndex(n, i))
    {
      GridAt(n, d, i);
    }
    forall k | 0 <= k < n
      ensures 0 <= ListIndex(n, k) < n && GridIndex(n, ListIndex(n, k)) == k
    {
      ListAt(n, k);
    }
  }

  lemma GridMirror(n: int, d: real, k: int)
    ensures Grid(n, d, n - 1 - k) == -Grid(n, d, k)
  {
    var c := (k as real) - ((n - 1) as real) / 2.0;
    GridCoefficient(n, d, k, c);
    GridCoefficient(n, d, n - 1 - k, -c);
    assert (-c) * d == -(c * d);
  }

  /** The mirror image of position i, `-ys[i]`, is also in the column. */
  lemma SymmetricAt(n: nat, d: real, i: nat)
    requires i < n
    ensures 0 <= ListIndex(n, n - 1 - GridIndex(n, i)) < n
    ensures YPositions(n, d)[ListIndex(n, n - 1 - GridIndex(n, i))] == -YPositions(n, d)[i]
  {
    GridAt(n, d, i);
    var k := GridIndex(n, i);
    ListAt(n, n - 1 - k);
    var m := ListIndex(n, n - 1 - k);
    GridAt(n, d, m);
    GridMirror(n, d, k);
  }

  /** A column is symmetric about 0. */
  lemma YPositionsSymmetric(n: nat, d: real)
    ensures forall i :: 0 <= i < n ==>
      0 <= ListIndex(n, n - 1 - GridIndex(n, i)) < n &&
      YPositions(n, d)[ListIndex(n, n - 1 - GridIndex(n, i))] == -YPositions(n, d)[i]
  {
    forall i | 0 <= i < n
      ensures 0 <= ListIndex(n, n - 1 - GridIndex(n, i)) < n &&
        YPositions(n, d)[ListIndex(n, n - 1 - GridIndex(n, i))] == -YPositions(n, d)[i]
    {
      SymmetricAt(n, d, i);
    }
  }

  /** With a non-zero spacing, a column has a slit at 0 iff it has an odd count. */
  lemma YPositionsZero(n: nat, d: real)
    requires d != 0.0
    ensures 0.0 in YPositions(n, d) <==> n % 2 == 1
  {
    var ys := YPositions(n, d);
    assert |ys| == n;
    if n % 2 == 1 {
      assert ys[0] == 0.0;
    } else {
      forall i | 0 <= i < n
        ensures ys[i] != 0.0
      {
        GridAt(n, d, i);
        var k := GridIndex(n, i);
        var c := (k as real) - ((n - 1) as real) / 2.0;
        assert 2.0 * c != 0.0;
        assert ys[i] == c * d;
      }
    }
  }

  // ---------------------------------------------------------------------
  // One slit

  const RoundedSlitTag: string := "rounded_hinge"

  /** The extent of a slit along x (its width), y (its whole length) and z.
      `draw_rounded_hinge(w, l, h)` closes a straight part of length l with
      two half discs of diameter w, so its whole length is l + w. */
  function SlitExtent(s: Solid): Option<(real, real, real)>
  {
    match s
    case Cuboid(b) => Some((b.hi.x - b.lo.x, b.hi.y - b.lo.y, b.hi.z - b.lo.z))
    case Kernel(tag, p) => if tag == RoundedSlitTag && |p| == 3 then Some((p[0], p[1] + p[0], p[2])) else None
    case _ => None
  }

  /** A slit drawn about the origin. */
  predicate Centred(s: Solid)
  {
    match s
    case Cuboid(b) => b.lo == Neg(b.hi)
    case Kernel(tag, _) => tag == RoundedSlitTag
    case _ => false
  }

  /** `create_hole_hinge`. Both shapes have the same whole length,
      `length - kerf`: the rounded one takes the corner radii out of its
      straight part. */
  function CreateHoleHinge(clearance: real, length: real, thickness: real, kerf: real): (r: Result<Solid>)
    ensures r.Err? <==> clearance < kerf
    ensures r.Err? ==> r.error == ValueError("Hinge clearance is less than kerf diameter")
    ensures r.Ok? ==> SlitExtent(r.value) == Some((Max(0.01, clearance - kerf), length - kerf, 2.0 * thickness))
    ensures r.Ok? ==> Centred(r.value) && (r.value.Cuboid? <==> clearance < 2.0 * kerf)
  {
    var height := thickness * 2.0;
    var width := Max(0.01, clearance - kerf);
    if clearance < kerf then Err(ValueError("Hinge clearance is less than kerf diameter"))
    else if clearance < 2.0 * kerf then
      var boxLength := length - kerf;
      Ok(Cuboid(MakeBox(width, boxLength, height, Vec3(-width / 2.0, -boxLength / 2.0, -height / 2.0))))
    else
      Ok(Kernel(RoundedSlitTag, [width, length - width - kerf, height]))
  }

  // ---------------------------------------------------------------------
  // The slits of one hinge

  function HoleLength(y: real, ratio: real, n: int): real
    requires n != 0
  {
    (y * ratio) / (n as real)
  }

  function HoleSpace(y: real, ratio: real, n: int): real
    requires n + 1 != 0
  {
    y * (1.0 - ratio) / ((n + 1) as real)
  }

  /** n slits and n + 1 gaps fill the strip's width exactly. */
  lemma HoleBudget(y: real, ratio: real, n: int)
    requires n != 0 && n + 1 != 0
    ensures (n as real) * HoleLength(y, ratio, n) + ((n + 1) as real) * HoleSpace(y, ratio, n) == y
  {
    assert (n as real) * HoleLength(y, ratio, n) == y * ratio;
    assert ((n + 1) as real) * HoleSpace(y, ratio, n) == y * (1.0 - ratio);
  }

  /** The slits of one column at `x`. */
  function Column(x: real, ys: seq<real>, slit: Solid): (r: seq<Solid>)
    ensures |r| == |ys|
  {
    seq(|ys|, j requires 0 <= j < |ys| => Translated(slit, Vec3(x, ys[j], 0.0)))
  }

  /** The positions of column c: even columns get the first list, odd ones the second. */
  function ColumnYs(c: nat, ys1: seq<real>, ys2: seq<real>): seq<real>
  {
    if c % 2 == 0 then ys1 else ys2
  }

  /** `hinges_list` of `make_hinges`, column by column. */
  function Slits(xs: seq<real>, ys1: seq<real>, ys2: seq<real>, slit: Solid): seq<Solid>
  {
    if xs == [] then []
    else Slits(xs[..|xs| - 1], ys1, ys2, slit) + Column(xs[|xs| - 1], ColumnYs(|xs| - 1, ys1, ys2), slit)
  }

  /** Slits in m columns alternating between c1 and c2 slits. */
  function SlitCount(m: nat, c1: nat, c2: nat): nat
  {
    c1 * ((m + 1) / 2) + c2 * (m / 2)
  }

  lemma SlitCountStep(c: nat, c1: nat, c2: nat)
    ensures SlitCount(c + 1, c1, c2) == SlitCount(c, c1, c2) + (if c % 2 == 0 then c1 else c2)
  {
    if c % 2 == 0 {
      assert (c + 2) / 2 == (c + 1) / 2 + 1 && (c + 1) / 2 == c / 2;
      Plans.MulSucc(c1, (c + 1) / 2);
    } else {
      assert (c + 2) / 2 == (c + 1) / 2 && (c + 1) / 2 == c / 2 + 1;
      Plans.MulSucc(c2, c / 2);
    }
  }

  lemma SlitsStep(xs: seq<real>, c: nat, ys1: seq<real>, ys2: seq<real>, slit: Solid)
    requires c < |xs|
    ensures Slits(xs[..c + 1], ys1, ys2, slit) ==
      Slits(xs[..c], ys1, ys2, slit) + Column(xs[c], ColumnYs(c, ys1, ys2), slit)
  {
    assert xs[..c + 1][..c] == xs[..c];
  }

  lemma {:induction false} SlitsCount(xs: seq<real>, ys1: seq<real>, ys2: seq<real>, slit: Solid)
    ensures |Slits(xs, ys1, ys2, slit)| == SlitCount(|xs|, |ys1|, |ys2|)
  {
    if xs != [] {
      var p := |xs| - 1;
      SlitsCount(xs[..p], ys1, ys2, slit);
      SlitCountStep(p, |ys1|, |ys2|);
    }
  }

  lemma SlitCountMono(m1: nat, m2: nat, c1: nat, c2: nat)
    requires m1 <= m2
    ensures SlitCount(m1, c1, c2) <= SlitCount(m2, c1, c2)
  {
    assert (m1 + 1) / 2 <= (m2 + 1) / 2 && m1 / 2 <= m2 / 2;
    assert c1 * ((m1 + 1) / 2) <= c1 * ((m2 + 1) / 2);
    assert c2 * (m1 / 2) <= c2 * (m2 / 2);
  }

  /** Slit j of column c sits at `(xs[c], ColumnYs(c)[j])`, after the slits
      of the columns before it. */
  lemma {:induction false} SlitAt(xs: seq<real>, ys1: seq<real>, ys2: seq<real>, slit: Solid, c: nat, j: nat)
    requires c < |xs| && j < |ColumnYs(c, ys1, ys2)|
    ensures SlitCount(c, |ys1|, |ys2|) + j < |Slits(xs, ys1, ys2, slit)|
    ensures Slits(xs, ys1, ys2, slit)[SlitCount(c, |ys1|, |ys2|) + j] ==
      Translated(slit, Vec3(xs[c], ColumnYs(c, ys1, ys2)[j], 0.0))
  {
    var p := |xs| - 1;
    var init := Slits(xs[..p], ys1, ys2, slit);
    var last := Column(xs[p], ColumnYs(p, ys1, ys2), slit);
    var n := SlitCount(c, |ys1|, |ys2|);
    assert Slits(xs, ys1, ys2, slit) == init + last;
    if c < p {
      SlitAt(xs[..p], ys1, ys2, slit, c, j);
      assert xs[..p][c] == xs[c];
      assert n + j < |init|;
    } else {
      SlitsCount(xs[..p], ys1, ys2, slit);
      assert |init| == n;
      assert (init + last)[n + j] == last[j];
    }
  }

  /** What `create_hole_hinge` gives `make_hinges`: a missing thickness fails on `None * 2.0`. */
  function SlitOf(g: GlobalLiving, holeLength: real, thickness: Option<real>): Result<Solid>
  {
    if thickness.None? then Err(TypeError)
    else CreateHoleHinge(g.linkClearance, holeLength, thickness.value, g.laserBeamDiameter)
  }

  /** Where `make_hinges` puts its slits: the column positions, the slit
      positions of even and odd columns, and the slit length. */
  datatype Layout = Layout(xs: seq<real>, ys1: seq<real>, ys2: seq<real>, holeLength: real)

  /** The first part of `make_hinges`, up to the two position lists. */
  function HingeLayout(h: HingeView, g: GlobalLiving, length: Vec3 -> real): Result<Layout>
  {
    if h.arcLength.None? then Err(TypeError)
    else if h.nbLink == 1 then Err(ZeroDivisionError)
    else if h.extrusion.None? then Err(AttributeError)
    else
      var n := g.alternateNbHinge;
      if n == 0 || n + 1 == 0 then Err(ZeroDivisionError)
      else
        var y := length(h.extrusion.value);
        var hl := HoleLength(y, g.occupancyRatio, n);
        var hs := HoleSpace(y, g.occupancyRatio, n);
        Ok(Layout(XPositions(h.nbLink, h.arcLength.value), YPositions(n, hl + hs), YPositions(n + 1, hl + hs), hl))
  }

  /** The slits of a layout, fused and carried onto `face`. No slit at all
      leaves `None` for `transform`, an AttributeError. */
  function CutOfLayout(l: Layout, g: GlobalLiving, thickness: Option<real>, face: Face): Result<Solid>
  {
    if SlitCount(|l.xs|, |l.ys1|, |l.ys2|) == 0 then Err(AttributeError)
    else match SlitOf(g, l.holeLength, thickness)
      case Err(e) => Err(e)
      case Ok(slit) =>
        SlitsCount(l.xs, l.ys1, l.ys2, slit);
        Ok(Placed(FuseAll(Slits(l.xs, l.ys1, l.ys2, slit)), ToFace(face)))
  }

  /** `make_hinges`: the slits of one hinge, fused and carried onto `face`. */
  function HingeCut(h: HingeView, g: GlobalLiving, face: Face, length: Vec3 -> real): Result<Solid>
  {
    match HingeLayout(h, g, length)
    case Err(e) => Err(e)
    case Ok(l) => CutOfLayout(l, g, h.thickness, face)
  }

  /** The layout of a hinge: `nb_link` columns (XPositionsSpan), n slits in
      even columns and n + 1 in odd ones, with n slits and n + 1 gaps filling
      the strip's width (HoleBudget). */
  lemma LayoutCounts(h: HingeView, g: GlobalLiving, length: Vec3 -> real)
    requires HingeLayout(h, g, length).Ok?
    ensures var l := HingeLayout(h, g, length).value;
      var n := g.alternateNbHinge;
      n != 0 && n + 1 != 0 && h.nbLink != 1 && h.arcLength.Some? && h.extrusion.Some? &&
      l.xs == XPositions(h.nbLink, h.arcLength.value) &&
      l.holeLength == HoleLength(length(h.extrusion.value), g.occupancyRatio, n) &&
      (n >= 0 ==> |l.ys1| == n && |l.ys2| == n + 1)
  {
    var n := g.alternateNbHinge;
    var y := length(h.extrusion.value);
    var d := HoleLength(y, g.occupancyRatio, n) + HoleSpace(y, g.occupancyRatio, n);
    if n >= 0 {
      YPositionsGrid(n, d);
      YPositionsGrid(n + 1, d);
    }
  }

  /** A cut that succeeds fuses all the slits of the layout, and every slit
      has the width, whole length and height `create_hole_hinge` promises. */
  lemma CutOfLayoutShape(l: Layout, g: GlobalLiving, thickness: Option<real>, face: Face)
    requires CutOfLayout(l, g, thickness, face).Ok?
    ensures thickness.Some? && CreateHoleHinge(g.linkClearance, l.holeLength, thickness.value, g.laserBeamDiameter).Ok?
    ensures var slit := CreateHoleHinge(g.linkClearance, l.holeLength, thickness.value, g.laserBeamDiameter).value;
      |Slits(l.xs, l.ys1, l.ys2, slit)| == SlitCount(|l.xs|, |l.ys1|, |l.ys2|) > 0 &&
      CutOfLayout(l, g, thickness, face).value == Placed(FuseAll(Slits(l.xs, l.ys1, l.ys2, slit)), ToFace(face)) &&
      SlitExtent(slit) == Some((Max(0.01, g.linkClearance - g.laserBeamDiameter),
                                l.holeLength - g.laserBeamDiameter, 2.0 * thickness.value))
  {
    var slit := CreateHoleHinge(g.linkClearance, l.holeLength, thickness.value, g.laserBeamDiameter).value;
    SlitsCount(l.xs, l.ys1, l.ys2, slit);
  }

  /** The inner loop of `make_hinges`: the slits of one column. */
  method AddColumn(list: seq<Solid>, x: real, ys: seq<real>, g: GlobalLiving,
                   holeLength: real, thickness: Option<real>)
    returns (r: Result<seq<Solid>>)
    ensures ys == [] ==> r == Ok(list)
    ensures ys != [] && SlitOf(g, holeLength, thickness).Err? ==> r == Err(SlitOf(g, holeLength, thickness).error)
    ensures ys != [] && SlitOf(g, holeLength, thickness).Ok? ==>
      r == Ok(list + Column(x, ys, SlitOf(g, holeLength, thickness).value))
  {
    var acc := list;
    var j := 0;
    while j < |ys|
      invariant 0 <= j <= |ys|
      invariant j > 0 ==> SlitOf(g, holeLength, thickness).Ok?
      invariant j > 0 ==> acc == list + Column(x, ys[..j], SlitOf(g, holeLength, thickness).value)
      invariant j == 0 ==> acc == list
    {
      if thickness.None? {
        return Err(TypeError);
      }
      var newHinge := CreateHoleHinge(g.linkClearance, holeLength, thickness.value, g.laserBeamDiameter);
      if newHinge.Err? {
        return Err(newHinge.error);
      }
      acc := acc + [Translated(newHinge.value, Vec3(x, ys[j], 0.0))];
      assert Column(x, ys[..j + 1], newHinge.value) == Column(x, ys[..j], newHinge.value) + [Translated(newHinge.value, Vec3(x, ys[j], 0.0))];
      j := j + 1;
    }
    assert ys[..|ys|] == ys;
    return Ok(acc);
  }

  /** The column loop of `make_hinges`, kept apart so that its proof stays small. */
  method LayColumns(xs: seq<real>, ys1: seq<real>, ys2: seq<real>, g: GlobalLiving,
                    holeLength: real, thickness: Option<real>)
    returns (r: Result<seq<Solid>>)
    ensures SlitCount(|xs|, |ys1|, |ys2|) == 0 ==> r == Ok([])
    ensures SlitCount(|xs|, |ys1|, |ys2|) != 0 && SlitOf(g, holeLength, thickness).Err? ==>
      r == Err(SlitOf(g, holeLength, thickness).error)
    ensures SlitCount(|xs|, |ys1|, |ys2|) != 0 && SlitOf(g, holeLength, thickness).Ok? ==>
      r == Ok(Slits(xs, ys1, ys2, SlitOf(g, holeLength, thickness).value))
  {
    var slit := SlitOf(g, holeLength, thickness);
    var list: seq<Solid> := [];
    var c := 0;
    while c < |xs|
      invariant 0 <= c <= |xs|
      invariant slit.Err? ==> list == [] && SlitCount(c, |ys1|, |ys2|) == 0
      invariant slit.Ok? ==> list == Slits(xs[..c], ys1, ys2, slit.value)
    {
      var posList := if c % 2 == 0 then ys1 else ys2;
      var next := AddColumn(list, xs[c], posList, g, holeLength, thickness);
      SlitCountStep(c, |ys1|, |ys2|);
      if next.Err? {
        SlitCountMono(c + 1, |xs|, |ys1|, |ys2|);
        return Err(next.error);
      }
      if slit.Ok? {
        SlitsStep(xs, c, ys1, ys2, slit.value);
      }
      list := next.value;
      c := c + 1;
    }
    assert xs[..|xs|] == xs;
    if slit.Err? {
      return Ok([]);
    }
    SlitsCount(xs, ys1, ys2, slit.value);
    return Ok(list);
  }

  /** The first part of `make_hinges`. */
  method GetLayout(h: HingeView, g: GlobalLiving, length: Vec3 -> real) returns (r: Result<Layout>)
    ensures r == HingeLayout(h, g, length)
  {
    if h.arcLength.None? {
      return Err(TypeError);
    }
    var xs := GetHingesXPositions(h.nbLink, h.arcLength.value);
    if xs.Err? {
      return Err(xs.error);
    }
    if h.extrusion.None? {
      return Err(AttributeError);
    }
    var yLength := length(h.extrusion.value);
    var ratio := g.occupancyRatio;
    var n := g.alternateNbHinge;
    if n == 0 || n + 1 == 0 {
      return Err(ZeroDivisionError);
    }
    var holeLength := HoleLength(yLength, ratio, n);
    var holeSpace := HoleSpace(yLength, ratio, n);
    var ys1 := GetHingesYPositions(n, holeLength, holeSpace);
    var ys2 := GetHingesYPositions(n + 1, holeLength, holeSpace);
    return Ok(Layout(xs.value, ys1, ys2, holeLength));
  }

  /** The second part of `make_hinges`: lay the slits out and carry them onto the face. */
  method CutLayout(l: Layout, g: GlobalLiving, thickness: Option<real>, face: Face) returns (r: Result<Solid>)
    ensures r == CutOfLayout(l, g, thickness, face)
  {
    var list := LayColumns(l.xs, l.ys1, l.ys2, g, l.holeLength, thickness);
    if list.Err? {
      return Err(list.error);
    }
    var assembled := Elements.AssembleListElement(list.value);
    if assembled.None? {
      return Err(AttributeError);
    }
    return Ok(Placed(assembled.value, ToFace(face)));
  }

  /** `make_hinges`. */
  method MakeHinges(h: HingeView, g: GlobalLiving, face: Face, length: Vec3 -> real)
    returns (r: Result<Solid>)
    ensures r == HingeCut(h, g, face, length)
  {
    var layout := GetLayout(h, g, length);
    if layout.Err? {
      return Err(layout.error);
    }
    r := CutLayout(layout.value, g, h.thickness, face);
  }

  // ---------------------------------------------------------------------
  // Thickness and width edges of a face

  /** The squared length of a straight edge: equal, smaller and greater
      exactly when its length is. */
  function EdgeSqLength(e: Edge): real { SqLength(Sub(e.v1, e.v0)) }

  /** The lowest, or when `longest` the highest, edge length of a list. */
  function Extreme(edges: seq<Edge>, longest: bool): real
    requires |edges| > 0
  {
    if |edges| == 1 then EdgeSqLength(edges[0])
    else
      var m := Extreme(edges[..|edges| - 1], longest);
      var x := EdgeSqLength(edges[|edges| - 1]);
      if longest then Max(m, x) else Min(m, x)
  }

  /** The edges of squared length `l`, in their order. */
  function WithLength(edges: seq<Edge>, l: real): seq<Edge>
  {
    if edges == [] then [] else
    var last := if EdgeSqLength(edges[|edges| - 1]) == l then [edges[|edges| - 1]] else [];
    WithLength(edges[..|edges| - 1], l) + last
  }

  /** `get_thickness_edge` (`longest` false) and `get_width_edge` (`longest`
      true) on a face's edges; an edgeless face fails on `list_edges[0]`. */
  function ExtremeEdgesOf(edges: seq<Edge>, longest: bool): Result<seq<Edge>>
  {
    if edges == [] then Err(IndexError) else Ok(WithLength(edges, Extreme(edges, longest)))
  }

  lemma {:induction false} ExtremeBound(edges: seq<Edge>, longest: bool)
    requires |edges| > 0
    ensures forall i :: 0 <= i < |edges| ==>
      if longest then EdgeSqLength(edges[i]) <= Extreme(edges, longest)
      else Extreme(edges, longest) <= EdgeSqLength(edges[i])
    ensures exists i :: 0 <= i < |edges| && EdgeSqLength(edges[i]) == Extreme(edges, longest)
  {
    if |edges| == 1 {
      assert EdgeSqLength(edges[0]) == Extreme(edges, longest);
    } else {
      var p := edges[..|edges| - 1];
      ExtremeBound(p, longest);
      var i :| 0 <= i < |p| && EdgeSqLength(p[i]) == Extreme(p, longest);
      if Extreme(edges, longest) == EdgeSqLength(edges[|edges| - 1]) {
        assert EdgeSqLength(edges[|edges| - 1]) == Extreme(edges, longest);
      } else {
        assert edges[i] == p[i];
      }
      forall j | 0 <= j < |edges|
        ensures if longest then EdgeSqLength(edges[j]) <= Extreme(edges, longest)
                else Extreme(edges, longest) <= EdgeSqLength(edges[j])
      {
        if j < |p| {
          assert edges[j] == p[j];
        }
      }
    }
  }

  lemma {:induction false} WithLengthMembers(edges: seq<Edge>, l: real)
    ensures forall e :: e in WithLength(edges, l) <==> e in edges && EdgeSqLength(e) == l
  {
    if edges != [] {
      var p := edges[..|edges| - 1];
      WithLengthMembers(p, l);
      assert edges == p + [edges[|edges| - 1]];
    }
  }

  lemma {:induction false} WithLengthNone(edges: seq<Edge>, l: real)
    requires forall i :: 0 <= i < |edges| ==> EdgeSqLength(edges[i]) != l
    ensures WithLength(edges, l) == []
  {
    if edges != [] {
      var p := edges[..|edges| - 1];
      assert forall i :: 0 <= i < |p| ==> p[i] == edges[i];
      WithLengthNone(p, l);
    }
  }

  /** The edges returned are exactly the edges of extreme length, and there is one at least. */
  lemma ExtremeEdgesAre(edges: seq<Edge>, longest: bool)
    requires edges != []
    ensures ExtremeEdgesOf(edges, longest).Ok? && ExtremeEdgesOf(edges, longest).value != []
    ensures forall e :: e in ExtremeEdgesOf(edges, longest).value <==>
      e in edges && EdgeSqLength(e) == Extreme(edges, longest)
    ensures forall e :: e in edges ==>
      if longest then EdgeSqLength(e) <= Extreme(edges, longest) else Extreme(edges, longest) <= EdgeSqLength(e)
  {
    ExtremeBound(edges, longest);
    WithLengthMembers(edges, Extreme(edges, longest));
    var i :| 0 <= i < |edges| && EdgeSqLength(edges[i]) == Extreme(edges, longest);
    assert edges[i] in ExtremeEdgesOf(edges, longest).value;
  }

  /** One step of the loop of `get_thickness_edge` / `get_width_edge`. */
  lemma ExtremeStep(edges: seq<Edge>, i: nat, longest: bool)
    requires 0 < i < |edges|
    ensures var p := edges[..i]; var m := Extreme(p, longest); var x := EdgeSqLength(edges[i]);
      Extreme(edges[..i + 1], longest) == (if longest then Max(m, x) else Min(m, x)) &&
      WithLength(edges[..i + 1], m) == WithLength(p, m) + (if x == m then [edges[i]] else []) &&
      ((if longest then x > m else x < m) ==> WithLength(edges[..i + 1], x) == [edges[i]])
  {
    var p := edges[..i];
    assert edges[..i + 1][..i] == p;
    var x := EdgeSqLength(edges[i]);
    var m := Extreme(p, longest);
    if (if longest then x > m else x < m) {
      ExtremeBound(p, longest);
      WithLengthNone(p, x);
    }
  }

  /** The loop of `get_thickness_edge` (`longest` false) and `get_width_edge` (`longest` true). */
  method ExtremeEdges(edges: seq<Edge>, longest: bool) returns (r: Result<seq<Edge>>)
    ensures r == ExtremeEdgesOf(edges, longest)
  {
    if |edges| == 0 {
      return Err(IndexError);
    }
    var list := [edges[0]];
    var i := 1;
    assert edges[..1] == [edges[0]];
    while i < |edges|
      invariant 1 <= i <= |edges|
      invariant |list| > 0 && EdgeSqLength(list[0]) == Extreme(edges[..i], longest)
      invariant list == WithLength(edges[..i], Extreme(edges[..i], longest))
    {
      var edge := edges[i];
      ExtremeStep(edges, i, longest);
      if EdgeSqLength(edge) == EdgeSqLength(list[0]) {
        list := list + [edge];
      } else if (if longest then EdgeSqLength(edge) > EdgeSqLength(list[0]) else EdgeSqLength(edge) < EdgeSqLength(list[0])) {
        list := [edge];
      }
      i := i + 1;
    }
    assert edges[..i] == edges;
    return Ok(list);
  }

  // ---------------------------------------------------------------------
  // The two edges along the bend

  /** The centre of mass of a straight edge. */
  function EdgeMid(e: Edge): Vec3 { Scale(Add(e.v0, e.v1), 0.5) }

  /** `get_coplanar_edge`: the first thickness edge of the first face, the
      one of the second face's first two thickness edges whose midpoint is
      nearer to it (the first on a tie), and the vector between the
      midpoints of the first face's first two thickness edges. Faces with
      fewer than two thickness edges fail on the index. */
  function CoplanarEdges(face1: Face, face2: Face): (r: Result<(Edge, Edge, Vec3)>)
    ensures r.Err? ==> r.error == IndexError
    ensures r.Ok? ==>
      r.value.0 in face1.edges && EdgeSqLength(r.value.0) == Extreme(face1.edges, false) &&
      r.value.1 in face2.edges && EdgeSqLength(r.value.1) == Extreme(face2.edges, false)
  {
    match (ExtremeEdgesOf(face1.edges, false), ExtremeEdgesOf(face2.edges, false))
    case (Ok(t1), Ok(t2)) =>
      if |t1| < 2 || |t2| < 2 then Err(IndexError)
      else
        WithLengthMembers(face1.edges, Extreme(face1.edges, false));
        WithLengthMembers(face2.edges, Extreme(face2.edges, false));
        var m1 := EdgeMid(t1[0]);
        var e2 := if SqLength(Sub(m1, EdgeMid(t2[1]))) < SqLength(Sub(m1, EdgeMid(t2[0]))) then t2[1] else t2[0];
        Ok((t1[0], e2, Sub(EdgeMid(t1[1]), EdgeMid(t1[0]))))
    case _ => Err(IndexError)
  }

  method GetCoplanarEdge(face1: Face, face2: Face) returns (r: Result<(Edge, Edge, Vec3)>)
    ensures r == CoplanarEdges(face1, face2)
  {
    var edges1 := ExtremeEdges(face1.edges, false);
    var edges2 := ExtremeEdges(face2.edges, false);
    if edges1.Err? || edges2.Err? || |edges2.value| < 2 || |edges1.value| < 2 {
      return Err(IndexError);
    }
    var mid1 := EdgeMid(edges1.value[0]);
    var edge2 := edges2.value[0];
    var distance := SqLength(Sub(mid1, EdgeMid(edges2.value[0])));
    if SqLength(Sub(mid1, EdgeMid(edges2.value[1]))) < distance {
      edge2 := edges2.value[1];
    }
    return Ok((edges1.value[0], edge2, Sub(EdgeMid(edges1.value[1]), EdgeMid(edges1.value[0]))));
  }

  // ---------------------------------------------------------------------
  // Segments from the two edges

  function EndPoint(e: Edge, i: nat): Vec3 { if i == 0 then e.v0 else e.v1 }

  /** The squared distance of case c (0 to 3) of `get_segment_from_edge`:
      vertex c / 2 of the first edge to vertex c % 2 of the second. */
  function EndDistance(e1: Edge, e2: Edge, c: nat): real
  {
    SqLength(Sub(EndPoint(e1, c / 2), EndPoint(e2, c % 2)))
  }

  /** The first of the four endpoint pairs at the smallest distance. */
  function ClosestCase(e1: Edge, e2: Edge): (c: nat)
    ensures c < 4
    ensures forall j :: 0 <= j < 4 ==> EndDistance(e1, e2, c) <= EndDistance(e1, e2, j)
    ensures forall j :: 0 <= j < c ==> EndDistance(e1, e2, c) < EndDistance(e1, e2, j)
  {
    var c1 := if EndDistance(e1, e2, 1) < EndDistance(e1, e2, 0) then 1 else 0;
    var c2 := if EndDistance(e1, e2, 2) < EndDistance(e1, e2, c1) then 2 else c1;
    if EndDistance(e1, e2, 3) < EndDistance(e1, e2, c2) then 3 else c2
  }

  /** The edge as a segment ending (`B`) at vertex `end`. */
  function Oriented(e: Edge, end: nat): Segment
  {
    if end == 0 then Segment(e.v1, e.v0) else Segment(e.v0, e.v1)
  }

  /** `get_segment_from_edge`: both edges as segments whose `B` ends are the
      closest pair of endpoints. */
  function SegmentsOf(e1: Edge, e2: Edge): (r: (Segment, Segment))
    ensures {r.0.a, r.0.b} == {e1.v0, e1.v1} && {r.1.a, r.1.b} == {e2.v0, e2.v1}
    ensures forall j :: 0 <= j < 4 ==> SqLength(Sub(r.0.b, r.1.b)) <= EndDistance(e1, e2, j)
  {
    var c := ClosestCase(e1, e2);
    (Oriented(e1, c / 2), Oriented(e2, c % 2))
  }

  method GetSegmentFromEdge(e1: Edge, e2: Edge) returns (first: Segment, second: Segment)
    ensures (first, second) == SegmentsOf(e1, e2)
  {
    var length := SqLength(Sub(e1.v0, e2.v0));
    var c := 1;
    var testLength := SqLength(Sub(e1.v0, e2.v1));
    if testLength < length {
      c := 2;
      length := testLength;
    }
    testLength := SqLength(Sub(e1.v1, e2.v0));
    if testLength < length {
      c := 3;
      length := testLength;
    }
    testLength := SqLength(Sub(e1.v1, e2.v1));
    if testLength < length {
      c := 4;
      length := testLength;
    }
    if c == 1 {
      first, second := Segment(e1.v1, e1.v0), Segment(e2.v1, e2.v0);
    } else if c == 2 {
      first, second := Segment(e1.v1, e1.v0), Segment(e2.v0, e2.v1);
    } else if c == 3 {
      first, second := Segment(e1.v0, e1.v1), Segment(e2.v1, e2.v0);
    } else {
      first, second := Segment(e1.v0, e1.v1), Segment(e2.v0, e2.v1);
    }
  }

  // ---------------------------------------------------------------------
  // Where the two lines meet

  function TripleProduct(seg1: Segment, seg2: Segment): real
  {
    Dot(Sub(seg2.a, seg1.a), Cross(SegVector(seg1), SegVector(seg2)))
  }

  /** The scale s of `do_intersection`: how far along the first segment's
      line, in units of its vector, the two lines meet. */
  function LineScale(seg1: Segment, seg2: Segment): real
    requires SqLength(Cross(SegVector(seg1), SegVector(seg2))) != 0.0
  {
    var n := Cross(SegVector(seg1), SegVector(seg2));
    Dot(Cross(Sub(seg2.a, seg1.a), SegVector(seg2)), n) / SqLength(n)
  }

  /** `10e-6`. */
  const MinScale: real := 0.00001

  /** `do_intersection`; `eps` is the default tolerance of `compare_value`.
      Parallel segments divide by zero. */
  function DoIntersection(seg1: Segment, seg2: Segment, eps: real): (r: Result<Vec3>)
    ensures r == Err(ValueError("Not coplanar")) <==> !CompareValue(TripleProduct(seg1, seg2), 0.0, eps)
    ensures r == Err(ZeroDivisionError) <==>
      CompareValue(TripleProduct(seg1, seg2), 0.0, eps) && SqLength(Cross(SegVector(seg1), SegVector(seg2))) == 0.0
    ensures r.Ok? <==>
      CompareValue(TripleProduct(seg1, seg2), 0.0, eps) && SqLength(Cross(SegVector(seg1), SegVector(seg2))) != 0.0 &&
      LineScale(seg1, seg2) >= MinScale
    ensures r.Err? && r.error.ValueError? ==> r.error.msg in {"Not coplanar", "Wrong scale"}
    ensures r.Ok? ==> r.value == Add(seg1.a, Scale(SegVector(seg1), LineScale(seg1, seg2)))
  {
    var da := SegVector(seg1);
    var db := SegVector(seg2);
    var dc := Sub(seg2.a, seg1.a);
    if !CompareValue(Dot(dc, Cross(da, db)), 0.0, eps) then Err(ValueError("Not coplanar"))
    else if SqLength(Cross(da, db)) == 0.0 then Err(ZeroDivisionError)
    else
      var s := Dot(Cross(dc, db), Cross(da, db)) / SqLength(Cross(da, db));
      if s >= MinScale then Ok(Add(seg1.a, Scale(da, s))) else Err(ValueError("Wrong scale"))
  }

  // ---------------------------------------------------------------------
  // Minimum number of links

  /** `math.pi`. */
  const Pi: real := 3.141592653589793

  /** `math.ceil`. */
  function Ceil(x: real): (r: int)
    ensures (r as real) - 1.0 < x <= r as real
  {
    if (x.Floor as real) == x then x.Floor else x.Floor + 1
  }

  /** The half diagonal of the thickness square, whose double divides in `estimate_min_link`. */
  function HalfDiagonal(thickness: real, k: HingeKernel): real { k.sqrt(thickness * thickness / 2.0) }

  /** The cosine `estimate_min_link` takes the arc cosine of. */
  function BendCosine(thickness: real, clearance: real, k: HingeKernel): real
    requires HalfDiagonal(thickness, k) != 0.0
  {
    (clearance + thickness) / (2.0 * HalfDiagonal(thickness, k))
  }

  /** `estimate_min_link`: the smallest whole number of links at least
      `rad_angle / (pi / 4 - acos(tmp))`. A missing angle or thickness is a
      type error, a cosine outside [-1, 1] a domain error. */
  function EstimateMinLink(radAngle: Option<real>, thickness: Option<real>, clearance: real, k: HingeKernel): (r: Result<int>)
    ensures thickness.None? ==> r == Err(TypeError)
    ensures r == Err(ValueError("math domain error")) <==>
      thickness.Some? && var t := thickness.value;
      HalfDiagonal(t, k) != 0.0 && !(-1.0 <= BendCosine(t, clearance, k) <= 1.0)
    ensures r.Ok? ==>
      radAngle.Some? && thickness.Some? && var t := thickness.value;
      HalfDiagonal(t, k) != 0.0 &&
      var gap := Pi / 4.0 - k.acos(BendCosine(t, clearance, k));
      gap != 0.0 && ((r.value - 1) as real) < radAngle.value / gap <= r.value as real
  {
    if thickness.None? then Err(TypeError)
    else
      var t := thickness.value;
      if HalfDiagonal(t, k) == 0.0 then Err(ZeroDivisionError)
      else
        var tmp := BendCosine(t, clearance, k);
        if tmp < -1.0 || 1.0 < tmp then Err(ValueError("math domain error"))
        else if radAngle.None? then Err(TypeError)
        else
          var gap := Pi / 4.0 - k.acos(tmp);
          if gap == 0.0 then Err(ZeroDivisionError)
          else Ok(Ceil(radAngle.value / gap))
  }

  // ---------------------------------------------------------------------
  // The bend of a hinge

  /** What `complete_hinges_properties` stores on a hinge. */
  datatype HingeGeometry = HingeGeometry(
    seg1: Segment, seg2: Segment, arcMiddle: Segment, extrusion: Vec3,
    radAngle: real, degAngle: real, rotation: Vec3, arcLength: real,
    innerRadius: real, outerRadius: real, thickness: real)

  /** `10e-3`: how far the two inner radii may differ. */
  const ArcTolerance: real := 0.01

  /** The part of `complete_hinges_properties` after the segments are found. */
  function ArcFromSegments(seg1: Segment, seg2: Segment, extrusion: Vec3, reversed: bool, k: HingeKernel): Result<HingeGeometry>
  {
    match DoIntersection(seg1, seg2, k.valueEps)
    case Err(e) => Err(e)
    case Ok(ip) =>
      var inner := k.length(Sub(ip, seg1.b));
      if !CompareValue(inner, k.length(Sub(ip, seg2.b)), ArcTolerance) then Err(ValueError("Not an arc"))
      else
        var outer := k.length(Sub(ip, seg1.a));
        var mid := k.length(Sub(ip, SegMid(seg1)));
        var dir := k.normalize(Sub(Scale(Add(seg1.b, seg2.b), 0.5), ip));
        var innerPoint := if reversed then Sub(ip, Scale(dir, inner)) else Add(Scale(dir, inner), ip);
        var outerPoint := if reversed then Sub(ip, Scale(dir, outer)) else Add(Scale(dir, outer), ip);
        var angle := k.angle(seg1, seg2);
        var rad := if reversed then Pi * 2.0 - angle else angle;
        var rotation := Cross(SegVector(seg1), SegVector(seg2));
        Ok(HingeGeometry(seg1, seg2, Segment(outerPoint, innerPoint), extrusion, rad, rad * 180.0 / Pi,
                         if reversed then Scale(rotation, -1.0) else rotation, mid * rad, inner, outer,
                         k.length(SegVector(seg1))))
  }

  /** `complete_hinges_properties` on two faces. */
  function HingeGeometryOf(face1: Face, face2: Face, reversed: bool, k: HingeKernel): Result<HingeGeometry>
  {
    match CoplanarEdges(face1, face2)
    case Err(e) => Err(e)
    case Ok((e1, e2, extrusion)) =>
      var (seg1, seg2) := SegmentsOf(e1, e2);
      ArcFromSegments(seg1, seg2, extrusion, reversed, k)
  }

  /** The computation of `complete_hinges_properties`; the hinge object's
      fields are written from its result by HingesProperty. */
  method CompleteHinges(face1: Face, face2: Face, reversed: bool, k: HingeKernel) returns (r: Result<HingeGeometry>)
    ensures r == HingeGeometryOf(face1, face2, reversed, k)
  {
    var edges := GetCoplanarEdge(face1, face2);
    if edges.Err? {
      return Err(edges.error);
    }
    var (edge1, edge2, extrusion) := edges.value;
    var seg1, seg2 := GetSegmentFromEdge(edge1, edge2);
    return ArcFromSegments(seg1, seg2, extrusion, reversed, k);
  }

  /** Reversing the angle fails exactly when the forward bend fails; it
      turns the bend into its complement to a full turn, flips the rotation
      axis and mirrors the arc's middle segment through the intersection
      point, and keeps the segments, radii and thickness. */
  lemma ArcReversed(seg1: Segment, seg2: Segment, extrusion: Vec3, k: HingeKernel)
    ensures var f := ArcFromSegments(seg1, seg2, extrusion, false, k);
      var b := ArcFromSegments(seg1, seg2, extrusion, true, k);
      f.Ok? == b.Ok? && (f.Err? ==> f.error == b.error) &&
      (f.Ok? ==>
        var ip := DoIntersection(seg1, seg2, k.valueEps).value;
        b.value.radAngle == 2.0 * Pi - f.value.radAngle &&
        b.value.degAngle + f.value.degAngle == 360.0 &&
        b.value.rotation == Neg(f.value.rotation) &&
        Add(b.value.arcMiddle.a, f.value.arcMiddle.a) == Scale(ip, 2.0) &&
        Add(b.value.arcMiddle.b, f.value.arcMiddle.b) == Scale(ip, 2.0) &&
        (b.value.seg1, b.value.seg2, b.value.innerRadius, b.value.outerRadius, b.value.thickness) ==
          (f.value.seg1, f.value.seg2, f.value.innerRadius, f.value.outerRadius, f.value.thickness))
  {
  }

  // ---------------------------------------------------------------------
  // Finding a face again after a move

  predicate SameNormal(ref: Face, f: Face, eps: real)
  {
    CompareVector(ref.normal, f.normal, Eps) && CompareValue(ref.area, f.area, eps)
  }

  /** The first face from index i on with the normal and area of `ref`, or `|faces|`. */
  function FirstSameNormal(faces: seq<Face>, ref: Face, eps: real, i: nat): (j: nat)
    requires i <= |faces|
    ensures i <= j <= |faces|
    ensures j < |faces| ==> SameNormal(ref, faces[j], eps)
    ensures forall m :: i <= m < j ==> !SameNormal(ref, faces[m], eps)
    decreases |faces| - i
  {
    if i == |faces| then i
    else if SameNormal(ref, faces[i], eps) then i
    else FirstSameNormal(faces, ref, eps, i + 1)
  }

  /** `find_same_normal_face` on the faces of a solid; `eps` is the default
      tolerance of `compare_value`. */
  function SameNormalFaceOf(faces: seq<Face>, ref: Face, eps: real): Result<Face>
  {
    var j := FirstSameNormal(faces, ref, eps, 0);
    if j == |faces| then Err(ValueError("Unable to find face with same normal")) else Ok(faces[j])
  }

  method FindSameNormalFace(faces: seq<Face>, ref: Face, eps: real) returns (r: Result<Face>)
    ensures r == SameNormalFaceOf(faces, ref, eps)
  {
    var found: Option<Face> := None;
    var i := 0;
    while i < |faces|
      invariant 0 <= i <= |faces|
      invariant FirstSameNormal(faces, ref, eps, 0) == FirstSameNormal(faces, ref, eps, i)
    {
      if SameNormal(ref, faces[i], eps) {
        found := Some(faces[i]);
        break;
      }
      i := i + 1;
    }
    if found.None? {
      return Err(ValueError("Unable to find face with same normal"));
    }
    return Ok(found.value);
  }

  /** The search finds a face exactly when one matches, and then the first. */
  lemma SameNormalFaceFirst(faces: seq<Face>, ref: Face, eps: real)
    ensures SameNormalFaceOf(faces, ref, eps).Err? <==> forall i :: 0 <= i < |faces| ==> !SameNormal(ref, faces[i], eps)
    ensures SameNormalFaceOf(faces, ref, eps).Ok? ==>
      var j := FirstSameNormal(faces, ref, eps, 0);
      SameNormalFaceOf(faces, ref, eps).value == faces[j] && SameNormal(ref, faces[j], eps) &&
      forall i :: 0 <= i < j ==> !SameNormal(ref, faces[i], eps)
  {
  }

  // ---------------------------------------------------------------------
  // The flat part of a chain of hinges

  /** `create_flat_connection`: a box of the arc length along the face's x
      axis, the strip width and the thickness, starting at the face and
      centred across it in y and z. */
  function FlatConnection(h: HingeView, face: Face, length: Vec3 -> real): (r: Result<Solid>)
    ensures r.Err? <==> h.arcLength.None? || h.extrusion.None? || h.thickness.None?
    ensures r.Err? ==> r.error in {AttributeError, TypeError}
    ensures r.Ok? ==>
      r.value.Placed? && r.value.placement == ToFace(face) && r.value.s.Cuboid? &&
      var b := r.value.s.box;
      b.lo.x == 0.0 && b.hi.x == h.arcLength.value &&
      b.hi.y - b.lo.y == length(h.extrusion.value) && b.lo.y == -b.hi.y &&
      b.hi.z - b.lo.z == h.thickness.value && b.lo.z == -b.hi.z
  {
    if h.extrusion.None? then Err(AttributeError)
    else if h.arcLength.None? || h.thickness.None? then Err(TypeError)
    else
      var y := length(h.extrusion.value);
      var z := h.thickness.value;
      Ok(Placed(Cuboid(MakeBox(h.arcLength.value, y, z, Vec3(0.0, -y / 2.0, -z / 2.0))), ToFace(face)))
  }

  /** `assemble_shape`: rotate about the second face's centre, then carry
      that centre onto the first face's. */
  function AssembleShape(face1: Face, shape: Solid, face2: Face, axis: Vec3, angle: real): Solid
  {
    Translated(Placed(shape, Rotated(face2.center, axis, angle)), Sub(face1.center, face2.center))
  }

  /** The console messages of `create_linked_part`, which do not stop it. */
  datatype Warning = ClearanceBelowTwiceKerf | MinLinkNotRespected(hingeName: string)

  /** The loop state of `create_linked_part`. */
  datatype Chain = Chain(pieces: seq<Solid>, removes: seq<Solid>, lastFace: Face, sumAngle: real,
                         rotation: Option<Vec3>, warnings: seq<Warning>)

  /** Python 2 `nb_link < min_links_nb`: nothing is less than `None`. */
  predicate BelowMinLink(h: HingeView)
  {
    h.minLinksNb.Some? && h.nbLink < h.minLinksNb.value
  }

  /** The flat strip of hinge `h`, its slit cut and the strip's far face. */
  function StepParts(c: Chain, h: HingeView, g: GlobalLiving, k: HingeKernel): Result<(Solid, Solid, Face)>
  {
    match FlatConnection(h, c.lastFace, k.length)
    case Err(e) => Err(e)
    case Ok(flat) =>
      match HingeCut(h, g, c.lastFace, k.length)
      case Err(e) => Err(e)
      case Ok(cut) =>
        match SameNormalFaceOf(k.facesOf(flat), c.lastFace, k.valueEps)
        case Err(e) => Err(e)
        case Ok(face) => Ok((flat, cut, face))
  }

  /** The summed angle, the rotation vector and the turned second object of
      hinge `h`, placed against `face`. */
  function StepTurn(c: Chain, h: HingeView, face: Face): (r: Result<(real, Vec3, Solid)>)
    ensures r.Ok? ==>
      h.degAngle.Some? && r.value.0 == c.sumAngle + h.degAngle.value &&
      (if c.rotation.None? then h.rotation else c.rotation) == Some(r.value.1) &&
      RotatedPiece(r.value.2, h, r.value.1, -r.value.0)
  {
    if h.degAngle.None? then Err(TypeError)
    else
      var sum := c.sumAngle + h.degAngle.value;
      var rotation := if c.rotation.None? then h.rotation else c.rotation;
      if h.refs.None? then Err(AttributeError)
      else if rotation.None? then Err(TypeError)
      else Ok((sum, rotation.value, AssembleShape(face, Source(h.refs.value.object2.id), h.refs.value.face2, rotation.value, -sum)))
  }

  /** What one pass of the loop of `create_linked_part` does to its state
      when it succeeds: two pieces and one cut more, the angle added, the
      rotation vector kept once known, the second object turned by minus the
      running sum, and a warning when the hinge has too few links. */
  predicate StepShaped(c: Chain, h: HingeView, r: Result<Chain>)
  {
    r.Ok? ==>
      |r.value.pieces| == |c.pieces| + 2 && r.value.pieces[..|c.pieces|] == c.pieces &&
      |r.value.removes| == |c.removes| + 1 && r.value.removes[..|c.removes|] == c.removes &&
      h.degAngle.Some? && r.value.sumAngle == c.sumAngle + h.degAngle.value &&
      r.value.rotation == (if c.rotation.None? then h.rotation else c.rotation) && r.value.rotation.Some? &&
      RotatedPiece(r.value.pieces[|c.pieces| + 1], h, r.value.rotation.value, -r.value.sumAngle) &&
      r.value.warnings == c.warnings + (if BelowMinLink(h) then [MinLinkNotRespected(h.name)] else [])
  }

  /** One pass of the loop of `create_linked_part` over hinge `h`. */
  function ChainStep(c: Chain, h: HingeView, isLast: bool, g: GlobalLiving, k: HingeKernel): (r: Result<Chain>)
    ensures StepShaped(c, h, r)
  {
    ChainAfter(c, h, isLast, StepParts(c, h, g, k), k)
  }

  /** The rest of a pass once the flat connection, the slit cut and the
      next face are known (or have failed). */
  function ChainAfter(c: Chain, h: HingeView, isLast: bool, parts: Result<(Solid, Solid, Face)>, k: HingeKernel): (r: Result<Chain>)
    ensures StepShaped(c, h, r)
  {
    match parts
    case Err(e) => Err(e)
    case Ok((flat, slits, face)) =>
      match StepTurn(c, h, face)
      case Err(e) => Err(e)
      case Ok((sum, rotation, second)) =>
        var next := if isLast then Ok(face) else SameNormalFaceOf(k.facesOf(second), face, k.valueEps);
        if next.Err? then Err(next.error)
        else
          var warnings := c.warnings + (if BelowMinLink(h) then [MinLinkNotRespected(h.name)] else []);
          Ok(Chain(c.pieces + [flat, second], c.removes + [slits], next.value, sum, Some(rotation), warnings))
  }

  /** A pass of the loop, given whether it is the last. */
  type Stepper = (Chain, HingeView, bool) -> Result<Chain>

  /** The loop body of `create_linked_part` for a material and a kernel. */
  function LinkStep(g: GlobalLiving, k: HingeKernel): Stepper
  {
    (c: Chain, h: HingeView, isLast: bool) => ChainStep(c, h, isLast, g, k)
  }

  /** The loop state after the first i hinges. */
  function ChainUpTo(init: Chain, hs: seq<HingeView>, i: nat, step: Stepper): Result<Chain>
    requires i <= |hs|
  {
    if i == 0 then Ok(init)
    else match ChainUpTo(init, hs, i - 1, step)
      case Err(e) => Err(e)
      case Ok(c) => step(c, hs[i - 1], i == |hs|)
  }

  /** The sum of the bend angles of the first n hinges, in degrees. */
  function SumDeg(hs: seq<HingeView>, n: nat): real
    requires n <= |hs|
  {
    if n == 0 then 0.0
    else SumDeg(hs, n - 1) + (if hs[n - 1].degAngle.Some? then hs[n - 1].degAngle.value else 0.0)
  }

  /** The first rotation vector the first n hinges carry. */
  function FirstRotation(hs: seq<HingeView>, n: nat): Option<Vec3>
    requires n <= |hs|
  {
    if n == 0 then None
    else if FirstRotation(hs, n - 1).Some? then FirstRotation(hs, n - 1)
    else hs[n - 1].rotation
  }

  /** `p` is the second object of `h` turned by `angle` about `axis` through
      the centre of its face. */
  predicate RotatedPiece(p: Solid, h: HingeView, axis: Vec3, angle: real)
  {
    h.refs.Some? && p.Translated? &&
    p.s == Placed(Source(h.refs.value.object2.id), Rotated(h.refs.value.face2.center, axis, angle))
  }

  /** After i hinges the chain holds two more pieces and one more slit
      cut per hinge, keeps what it had, has summed the hinges' angles and
      holds the first rotation vector met. */
  lemma {:induction false} ChainTotals(init: Chain, hs: seq<HingeView>, i: nat, step: Stepper)
    requires forall c, h, b :: StepShaped(c, h, step(c, h, b))
    requires i <= |hs| && ChainUpTo(init, hs, i, step).Ok? && init.rotation.None?
    ensures var c := ChainUpTo(init, hs, i, step).value;
      |c.pieces| == |init.pieces| + 2 * i && |c.removes| == |init.removes| + i &&
      c.pieces[..|init.pieces|] == init.pieces && c.removes[..|init.removes|] == init.removes &&
      c.sumAngle == init.sumAngle + SumDeg(hs, i) && c.rotation == FirstRotation(hs, i)
  {
    if i > 0 {
      ChainTotals(init, hs, i - 1, step);
      var p := ChainUpTo(init, hs, i - 1, step).value;
      var h := hs[i - 1];
      assert ChainUpTo(init, hs, i, step) == step(p, h, i == |hs|);
      assert StepShaped(p, h, step(p, h, i == |hs|));
    }
  }

  /** Piece `base + 2j + 1` is the second object of hinge j turned by minus
      `start` and the angles of hinges 0 to j, about the first rotation
      vector met up to hinge j. */
  predicate TurnedAt(pieces: seq<Solid>, base: nat, start: real, hs: seq<HingeView>, j: nat)
    requires j < |hs|
  {
    base + 2 * j + 1 < |pieces| && FirstRotation(hs, j + 1).Some? &&
    RotatedPiece(pieces[base + 2 * j + 1], hs[j], FirstRotation(hs, j + 1).value, -(start + SumDeg(hs, j + 1)))
  }

  /** The second object of every hinge so far is turned by minus the
      running sum of the angles. */
  lemma {:induction false} ChainTurns(init: Chain, hs: seq<HingeView>, i: nat, step: Stepper)
    requires forall c, h, b :: StepShaped(c, h, step(c, h, b))
    requires i <= |hs| && ChainUpTo(init, hs, i, step).Ok? && init.rotation.None?
    ensures forall j :: 0 <= j < i ==>
      TurnedAt(ChainUpTo(init, hs, i, step).value.pieces, |init.pieces|, init.sumAngle, hs, j)
  {
    if i > 0 {
      ChainTurns(init, hs, i - 1, step);
      ChainTotals(init, hs, i - 1, step);
      ChainTotals(init, hs, i, step);
      var p := ChainUpTo(init, hs, i - 1, step).value;
      var c := ChainUpTo(init, hs, i, step).value;
      var h := hs[i - 1];
      assert ChainUpTo(init, hs, i, step) == step(p, h, i == |hs|);
      assert StepShaped(p, h, step(p, h, i == |hs|));
      forall j | 0 <= j < i
        ensures TurnedAt(c.pieces, |init.pieces|, init.sumAngle, hs, j)
      {
        if j < i - 1 {
          assert TurnedAt(p.pieces, |init.pieces|, init.sumAngle, hs, j);
          assert c.pieces[..|p.pieces|][|init.pieces| + 2 * j + 1] == c.pieces[|init.pieces| + 2 * j + 1];
        } else {
          assert RotatedPiece(c.pieces[|p.pieces| + 1], h, c.rotation.value, -c.sumAngle);
        }
      }
    }
  }

  lemma LinkStepShaped(g: GlobalLiving, k: HingeKernel)
    ensures forall c, h, b :: StepShaped(c, h, LinkStep(g, k)(c, h, b))
  {
    forall c, h, b ensures StepShaped(c, h, LinkStep(g, k)(c, h, b)) {
      assert LinkStep(g, k)(c, h, b) == ChainStep(c, h, b, g, k);
    }
  }

  /** What `create_linked_part` returns and prints. */
  datatype LinkedPart = LinkedPart(flat: Solid, solid: Solid, warnings: seq<Warning>)

  /** The loop state before the first hinge. */
  function InitialChain(h: HingeView, g: GlobalLiving): Chain
    requires h.refs.Some?
  {
    Chain([Source(h.refs.value.object1.id)], [], h.refs.value.face1, 0.0, None,
          if g.linkClearance < 2.0 * g.laserBeamDiameter then [ClearanceBelowTwiceKerf] else [])
  }

  /** `hinges_list[0].solid.copy()` fused with every later hinge's solid. */
  function HingeSolids(hs: seq<HingeView>): Result<Solid>
    requires |hs| > 0
  {
    if |hs| == 1 then (if hs[0].solid.None? then Err(AttributeError) else Ok(hs[0].solid.value))
    else match HingeSolids(hs[..|hs| - 1])
      case Err(e) => Err(e)
      case Ok(s) => if hs[|hs| - 1].solid.None? then Err(TypeError) else Ok(Fuse(s, hs[|hs| - 1].solid.value))
  }

  /** `create_linked_part`, its loop body being `step`; the workbench's is `LinkStep(g, k)`. */
  function LinkedPartOf(hs: seq<HingeView>, g: GlobalLiving, step: Stepper): Result<LinkedPart>
  {
    if hs == [] then Err(ValueError("No hinge defined"))
    else if g.laserBeamDiameter > g.linkClearance then Err(ValueError("Laser beam diameter is greater than clearance width"))
    else if hs[0].refs.None? then Err(AttributeError)
    else match ChainUpTo(InitialChain(hs[0], g), hs, |hs|, step)
      case Err(e) => Err(e)
      case Ok(c) =>
        match HingeSolids(hs)
        case Err(e) => Err(e)
        case Ok(solid) =>
          // `assemble_list_element` of no pieces is None, whose `cut` raises;
          // `LinkStep` never leaves the list empty (see `LinkedPartShape`)
          if c.pieces == [] then Err(AttributeError)
          else Ok(LinkedPart(CutAll(FuseAll(c.pieces), c.removes), solid, c.warnings))
  }

  /** A linked part needs hinges and a clearance no narrower than the
      laser beam; it fuses the first object, then a flat strip and the
      turned second object per hinge, cuts one slit pattern per hinge, and
      turns the second object of hinge j by minus the sum of the first j+1
      bend angles about the first rotation vector. */
  lemma LinkedPartShape(hs: seq<HingeView>, g: GlobalLiving, step: Stepper)
    requires forall c, h, b :: StepShaped(c, h, step(c, h, b))
    ensures LinkedPartOf(hs, g, step).Ok? ==>
      hs != [] && hs[0].refs.Some? && g.laserBeamDiameter <= g.linkClearance &&
      var c := ChainUpTo(InitialChain(hs[0], g), hs, |hs|, step).value;
      var part := LinkedPartOf(hs, g, step).value;
      |c.pieces| == 1 + 2 * |hs| && |c.removes| == |hs| &&
      c.pieces[0] == Source(hs[0].refs.value.object1.id) &&
      part.flat == CutAll(FuseAll(c.pieces), c.removes) &&
      (ClearanceBelowTwiceKerf in part.warnings <==> g.linkClearance < 2.0 * g.laserBeamDiameter) &&
      forall j :: 0 <= j < |hs| ==> TurnedAt(c.pieces, 1, 0.0, hs, j)
  {
    var r := LinkedPartOf(hs, g, step);
    if r.Ok? {
      var init := InitialChain(hs[0], g);
      var ch := ChainUpTo(init, hs, |hs|, step);
      assert ch.Ok? && r.value.flat == CutAll(FuseAll(ch.value.pieces), ch.value.removes) && r.value.warnings == ch.value.warnings;
      ChainShape(init, hs, step);
      var w := ch.value.warnings;
      if g.linkClearance < 2.0 * g.laserBeamDiameter {
        assert w[0] == ClearanceBelowTwiceKerf;
      } else {
        assert forall j :: 0 <= j < |w| ==> w[j].MinLinkNotRespected?;
      }
    }
  }

  /** The whole loop from the initial state of a linked part. */
  lemma ChainShape(init: Chain, hs: seq<HingeView>, step: Stepper)
    requires forall c, h, b :: StepShaped(c, h, step(c, h, b))
    requires init.rotation.None? && |init.pieces| == 1 && init.removes == [] && init.sumAngle == 0.0
    requires ChainUpTo(init, hs, |hs|, step).Ok?
    ensures var c := ChainUpTo(init, hs, |hs|, step).value;
      |c.pieces| == 1 + 2 * |hs| && |c.removes| == |hs| && c.pieces[0] == init.pieces[0] &&
      |c.warnings| >= |init.warnings| && c.warnings[..|init.warnings|] == init.warnings &&
      (forall j :: |init.warnings| <= j < |c.warnings| ==> c.warnings[j].MinLinkNotRespected?) &&
      forall j :: 0 <= j < |hs| ==> TurnedAt(c.pieces, 1, 0.0, hs, j)
  {
    ChainTotals(init, hs, |hs|, step);
    ChainTurns(init, hs, |hs|, step);
    ChainWarnings(init, hs, |hs|, step);
    var c := ChainUpTo(init, hs, |hs|, step).value;
    assert c.pieces[..1] == init.pieces;
  }

  /** A linked part needs hinges, and a clearance no narrower than the laser beam. */
  lemma LinkedPartErrors(hs: seq<HingeView>, g: GlobalLiving, step: Stepper)
    ensures hs == [] ==> LinkedPartOf(hs, g, step) == Err(ValueError("No hinge defined"))
    ensures hs != [] && g.laserBeamDiameter > g.linkClearance ==>
      LinkedPartOf(hs, g, step) == Err(ValueError("Laser beam diameter is greater than clearance width"))
  {
  }

  /** The loop state one hinge on. */
  lemma ChainNext(init: Chain, hs: seq<HingeView>, i: nat, step: Stepper)
    requires i < |hs| && ChainUpTo(init, hs, i, step).Ok?
    ensures ChainUpTo(init, hs, i + 1, step) == step(ChainUpTo(init, hs, i, step).value, hs[i], i + 1 == |hs|)
  {
  }

  /** A failure after i hinges is the failure of the whole loop. */
  lemma {:induction false} ChainFail(init: Chain, hs: seq<HingeView>, i: nat, step: Stepper)
    requires i <= |hs| && ChainUpTo(init, hs, i, step).Err?
    ensures ChainUpTo(init, hs, |hs|, step) == ChainUpTo(init, hs, i, step)
    decreases |hs| - i
  {
    if i < |hs| {
      assert ChainUpTo(init, hs, i + 1, step) == ChainUpTo(init, hs, i, step);
      ChainFail(init, hs, i + 1, step);
    }
  }

  /** The loop only adds min-link warnings to those it started with. */
  lemma {:induction false} ChainWarnings(init: Chain, hs: seq<HingeView>, i: nat, step: Stepper)
    requires forall c, h, b :: StepShaped(c, h, step(c, h, b))
    requires i <= |hs| && ChainUpTo(init, hs, i, step).Ok?
    ensures var w := ChainUpTo(init, hs, i, step).value.warnings;
      |w| >= |init.warnings| && w[..|init.warnings|] == init.warnings &&
      forall j :: |init.warnings| <= j < |w| ==> w[j].MinLinkNotRespected?
  {
    if i > 0 {
      ChainWarnings(init, hs, i - 1, step);
    }
  }

  /** The flat strip, the slits and the strip's far face, in the order
      `create_linked_part` makes them. */
  method LinkParts(c: Chain, h: HingeView, g: GlobalLiving, k: HingeKernel) returns (r: Result<(Solid, Solid, Face)>)
    ensures r == StepParts(c, h, g, k)
  {
    var flat := FlatConnection(h, c.lastFace, k.length);
    if flat.Err? {
      return Err(flat.error);
    }
    var cut := MakeHinges(h, g, c.lastFace, k.length);
    if cut.Err? {
      return Err(cut.error);
    }
    var face := FindSameNormalFace(k.facesOf(flat.value), c.lastFace, k.valueEps);
    if face.Err? {
      return Err(face.error);
    }
    return Ok((flat.value, cut.value, face.value));
  }

  /** The body of the loop of `create_linked_part`. */
  method LinkHinge(c: Chain, h: HingeView, isLast: bool, g: GlobalLiving, k: HingeKernel) returns (r: Result<Chain>)
    ensures r == ChainStep(c, h, isLast, g, k)
  {
    var parts := LinkParts(c, h, g, k);
    if parts.Err? {
      return Err(parts.error);
    }
    var (flat, slits, face) := parts.value;
    var turn := StepTurn(c, h, face);
    if turn.Err? {
      return Err(turn.error);
    }
    var (sum, rotation, second) := turn.value;
    var lastFace := face;
    if !isLast {
      var next := FindSameNormalFace(k.facesOf(second), lastFace, k.valueEps);
      if next.Err? {
        return Err(next.error);
      }
      lastFace := next.value;
    }
    var warnings := c.warnings;
    if BelowMinLink(h) {
      warnings := warnings + [MinLinkNotRespected(h.name)];
    }
    assert warnings == c.warnings + (if BelowMinLink(h) then [MinLinkNotRespected(h.name)] else []);
    assert StepParts(c, h, g, k) == Ok((flat, slits, face));
    assert StepTurn(c, h, face) == Ok((sum, rotation, second));
    return Ok(Chain(c.pieces + [flat, second], c.removes + [slits], lastFace, sum, Some(rotation), warnings));
  }

  /** A failure on the first i solids is the failure of the whole fuse. */
  lemma {:induction false} HingeSolidsFail(hs: seq<HingeView>, i: nat)
    requires 1 <= i <= |hs| && HingeSolids(hs[..i]).Err?
    ensures HingeSolids(hs) == HingeSolids(hs[..i])
  {
    if i < |hs| {
      var p := hs[..|hs| - 1];
      assert p[..i] == hs[..i];
      HingeSolidsFail(p, i);
    } else {
      assert hs[..i] == hs;
    }
  }

  /** The fuse loop over the hinges' solids at the end of `create_linked_part`. */
  method FuseHingeSolids(hs: seq<HingeView>) returns (r: Result<Solid>)
    requires |hs| > 0
    ensures r == HingeSolids(hs)
  {
    if hs[0].solid.None? {
      assert HingeSolids(hs[..1]) == Err(AttributeError);
      HingeSolidsFail(hs, 1);
      return Err(AttributeError);
    }
    var solid := hs[0].solid.value;
    var i := 1;
    assert hs[..1] == [hs[0]];
    while i < |hs|
      invariant 1 <= i <= |hs|
      invariant HingeSolids(hs[..i]) == Ok(solid)
    {
      assert hs[..i + 1][..i] == hs[..i];
      if hs[i].solid.None? {
        HingeSolidsFail(hs, i + 1);
        return Err(TypeError);
      }
      solid := Fuse(solid, hs[i].solid.value);
      i := i + 1;
    }
    assert hs[..i] == hs;
    return Ok(solid);
  }

  method CreateLinkedPart(hs: seq<HingeView>, g: GlobalLiving, k: HingeKernel) returns (r: Result<LinkedPart>)
    ensures r == LinkedPartOf(hs, g, LinkStep(g, k))
  {
    if |hs| == 0 {
      return Err(ValueError("No hinge defined"));
    }
    if g.laserBeamDiameter > g.linkClearance {
      return Err(ValueError("Laser beam diameter is greater than clearance width"));
    }
    if hs[0].refs.None? {
      return Err(AttributeError);
    }
    var init := InitialChain(hs[0], g);
    var chain := init;
    var i := 0;
    while i < |hs|
      invariant 0 <= i <= |hs|
      invariant ChainUpTo(init, hs, i, LinkStep(g, k)) == Ok(chain)
    {
      var next := LinkHinge(chain, hs[i], i + 1 == |hs|, g, k);
      ChainNext(init, hs, i, LinkStep(g, k));
      assert LinkStep(g, k)(chain, hs[i], i + 1 == |hs|) == next;
      if next.Err? {
        ChainFail(init, hs, i + 1, LinkStep(g, k));
        return Err(next.error);
      }
      chain := next.value;
      i := i + 1;
    }
    LinkStepShaped(g, k);
    ChainTotals(init, hs, |hs|, LinkStep(g, k));
    var flat := Elements.AssembleListElement(chain.pieces);
    var part := CutAll(flat.value, chain.removes);
    var solid := FuseHingeSolids(hs);
    if solid.Err? {
      return Err(solid.error);
    }
    return Ok(LinkedPart(part, solid.value, chain.warnings));
  }
}
