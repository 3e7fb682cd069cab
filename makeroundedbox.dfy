/** lasercut/makeroundedbox.py: the parts of a rounded box: a bottom and a
    top plate and one side panel per polygon face, some of them cut in two. */
module RoundedBox {
  import opened Wrappers
  import opened Solids
  import opened Hinges
  import opened RoundedBoxProperty

  /** An entry `{'shape': ..., 'name': ...}` of the part list. */
  datatype Part = Part(shape: Solid, name: string)

  /** helper's `rotate_vector_z(v, angle)`: rotation about the z axis; the
      trigonometry is not modelled. */
  type Rotation = (Vec3, real) -> Vec3

  /** What `create_plane_part` leaves to the kernel: the arcs between the
      faces (`retrieve_segments_arc`, `get_contours_with_arc`), the wire of
      the inner (`true`) or outer (`false`) contour, its face and its
      extrusion by the thickness. It may fail, for instance when two
      neighbouring segments do not intersect. */
  type Plate = (seq<(Segment, Segment)>, bool) -> Result<Solid>

  const SideMessage: string := "Side length is bigger than its maximum"
  const CutMessage: string := "Number of cut is bigger than number of face"

  // ---------------------------------------------------------------------
  // Integer and real division

  lemma {:induction false} MulLe(x: int, y: int, m: nat)
    requires x <= y
    ensures x * m <= y * m
    decreases m
  {
    if m > 0 {
      MulLe(x, y, m - 1);
      assert x * m == x * (m - 1) + x;
      assert y * m == y * (m - 1) + y;
    }
  }

  /** Euclidean division has a single quotient and remainder. */
  lemma DivUnique(a: int, m: nat, q: int, r: int)
    requires m > 0 && a == q * m + r && 0 <= r < m
    ensures a / m == q && a % m == r
  {
    var q', r' := a / m, a % m;
    if q' > q {
      MulLe(q + 1, q', m);
    } else if q' < q {
      MulLe(q' + 1, q, m);
    }
  }

  lemma DivMonotone(a: int, b: int, m: nat)
    requires m > 0 && a <= b
    ensures a / m <= b / m
  {
    if a / m > b / m {
      MulLe(b / m + 1, a / m, m);
    }
  }

  lemma DivAddDivisor(a: int, m: nat)
    requires m > 0
    ensures (a + m) / m == a / m + 1
  {
    DivUnique(a + m, m, a / m + 1, a % m);
  }

  /** The integer part of the real quotient of two naturals is their
      integer quotient. */
  lemma RealQuotientFloor(a: nat, m: nat)
    requires m > 0
    ensures ((a as real) / (m as real)).Floor == a / m
  {
    var q, r := a / m, a % m;
    assert a == q * m + r;
    var x := (a as real) / (m as real);
    assert x * (m as real) == a as real;
    assert (q as real) * (m as real) <= a as real < ((q + 1) as real) * (m as real);
    assert q as real <= x < (q + 1) as real;
  }

  // ---------------------------------------------------------------------
  // chunkIt

  /** Where chunk k of `num` chunks of n elements starts. */
  function ChunkStart(n: nat, num: nat, k: nat): (i: nat)
    requires num > 0
    ensures k <= num ==> i <= n
  {
    if k <= num then
      MulLe(k, num, n);
      DivMonotone(k * n, num * n, num);
      DivUnique(num * n, num, n, 0);
      (k * n) / num
    else (k * n) / num
  }

  lemma ChunkStartMonotone(n: nat, num: nat, k: nat)
    requires num > 0
    ensures ChunkStart(n, num, k) <= ChunkStart(n, num, k + 1)
    ensures n >= num ==> ChunkStart(n, num, k) < ChunkStart(n, num, k + 1)
  {
    assert (k + 1) * n == k * n + n;
    DivMonotone(k * n, (k + 1) * n, num);
    if n >= num {
      DivMonotone(k * n + num, (k + 1) * n, num);
      DivAddDivisor(k * n, num);
    }
  }

  /** The real value of `last` before chunk k: k times the average length. */
  function Position(n: nat, num: nat, k: nat): real
    requires num > 0
  {
    ((k * n) as real) / (num as real)
  }

  /** `last` is below the length exactly for the first `num` chunks. */
  lemma PositionBelow(n: nat, num: nat, k: nat)
    requires num > 0 && n > 0
    ensures Position(n, num, k) < n as real <==> k < num
  {
    var bign := num as real;
    var x := Position(n, num, k);
    assert x * bign == (k * n) as real;
    if k < num {
      MulLe(k + 1, num, n);
      assert (k * n) as real < (n as real) * bign;
    } else {
      MulLe(num, k, n);
      assert (k * n) as real >= (n as real) * bign;
    }
  }

  /** The integer part of `last` is where the chunk starts. */
  lemma PositionFloor(n: nat, num: nat, k: nat)
    requires num > 0
    ensures Position(n, num, k).Floor == ChunkStart(n, num, k)
  {
    RealQuotientFloor(k * n, num);
  }

  /** One more average length is the next chunk's position. */
  lemma PositionStep(n: nat, num: nat, k: nat)
    requires num > 0
    ensures Position(n, num, k) + (n as real) / (num as real) == Position(n, num, k + 1)
  {
    var bign := num as real;
    var x := Position(n, num, k);
    var avg := (n as real) / bign;
    var y := Position(n, num, k + 1);
    assert x * bign == (k * n) as real;
    assert avg * bign == n as real;
    assert (k + 1) * n == k * n + n;
    assert y * bign == ((k + 1) * n) as real;
    assert (x + avg) * bign == y * bign;
  }

  /** Chunk k of `num` roughly equal chunks of s. */
  function Chunk<T>(s: seq<T>, num: nat, k: nat): seq<T>
    requires 0 < num && k < num
  {
    ChunkStartMonotone(|s|, num, k);
    s[ChunkStart(|s|, num, k)..ChunkStart(|s|, num, k + 1)]
  }

  /** The chunks `chunkIt` returns with exact arithmetic: none for no
      chunk or an empty sequence, otherwise `num` of them. */
  function Chunks<T>(s: seq<T>, num: int): seq<seq<T>>
  {
    if num <= 0 || |s| == 0 then []
    else seq(num, k requires 0 <= k < num => Chunk(s, num, k))
  }

  /** `chunkIt(seq, num)`. A loop over the real `last`, which stays `k`
      times the average chunk length. A negative `num` with a non-empty
      sequence never ends, so it is excluded. */
  method ChunkIt<T>(s: seq<T>, num: int) returns (out: seq<seq<T>>)
    requires num >= 0 || |s| == 0
    ensures out == Chunks(s, num)
  {
    if num == 0 {
      return [];
    }
    var avg := |s| as real / num as real;
    out := [];
    var last := 0.0;
    if |s| == 0 {
      assert !(last < |s| as real);
      return;
    }
    ghost var k: nat := 0;
    assert last == Position(|s|, num, 0);
    while last < |s| as real
      invariant 0 <= k <= num
      invariant last == Position(|s|, num, k)
      invariant out == seq(k, j requires 0 <= j < k => Chunk(s, num, j))
      decreases num - k
    {
      PositionBelow(|s|, num, k);
      PositionStep(|s|, num, k);
      PositionFloor(|s|, num, k);
      PositionFloor(|s|, num, k + 1);
      ChunkStartMonotone(|s|, num, k);
      assert last.Floor == ChunkStart(|s|, num, k) && (last + avg).Floor == ChunkStart(|s|, num, k + 1);
      out := out + [s[last.Floor..(last + avg).Floor]];
      last := last + avg;
      k := k + 1;
    }
    PositionBelow(|s|, num, k);
  }

  function Concat<T>(ss: seq<seq<T>>): seq<T>
  {
    if |ss| == 0 then [] else Concat(ss[..|ss| - 1]) + ss[|ss| - 1]
  }

  lemma {:induction false} ChunksPrefix<T>(s: seq<T>, num: nat, k: nat)
    requires 0 < num && 0 < |s| && k <= num
    ensures Concat(Chunks(s, num)[..k]) == s[..ChunkStart(|s|, num, k)]
  {
    if k > 0 {
      var c := Chunks(s, num);
      assert c[..k][..k - 1] == c[..k - 1];
      ChunksPrefix(s, num, k - 1);
      ChunkStartMonotone(|s|, num, k - 1);
      assert s[..ChunkStart(|s|, num, k)] ==
             s[..ChunkStart(|s|, num, k - 1)] + s[ChunkStart(|s|, num, k - 1)..ChunkStart(|s|, num, k)];
    } else {
      assert (0 * |s|) / num == 0;
    }
  }

  /** For 1 <= num <= |s|, `chunkIt` cuts s into `num` non-empty chunks,
      chunk k running from element k·|s|/num to element (k+1)·|s|/num,
      that together are s. */
  lemma ChunksCover<T>(s: seq<T>, num: nat)
    requires 1 <= num <= |s|
    ensures |Chunks(s, num)| == num
    ensures forall k :: 0 <= k < num ==>
      ChunkStart(|s|, num, k) < ChunkStart(|s|, num, k + 1) &&
      Chunks(s, num)[k] == s[ChunkStart(|s|, num, k)..ChunkStart(|s|, num, k + 1)]
    ensures Concat(Chunks(s, num)) == s
  {
    forall k | 0 <= k < num
      ensures ChunkStart(|s|, num, k) < ChunkStart(|s|, num, k + 1)
      ensures Chunks(s, num)[k] == s[ChunkStart(|s|, num, k)..ChunkStart(|s|, num, k + 1)]
    {
      ChunkStartMonotone(|s|, num, k);
    }
    ChunksConcat(s, num);
  }

  /** The chunks put together are the sequence. */
  lemma ChunksConcat<T>(s: seq<T>, num: nat)
    requires 1 <= num <= |s|
    ensures Concat(Chunks(s, num)) == s
  {
    ChunksPrefix(s, num, num);
    DivUnique(num * |s|, num, |s|, 0);
    assert ChunkStart(|s|, num, num) == |s|;
    assert Chunks(s, num)[..num] == Chunks(s, num);
  }

  /** More chunks than elements: the first chunk is empty. */
  lemma ChunksTooMany<T>(s: seq<T>, num: nat)
    requires 0 < |s| < num
    ensures Chunks(s, num)[0] == []
  {
    DivUnique(|s|, num, 0, |s|);
    assert (0 * |s|) / num == 0;
  }

  // ---------------------------------------------------------------------
  // Names

  function DigitChar(d: int): char
    requires 0 <= d < 10
  {
    "0123456789"[d]
  }

  /** `"%d" % n` for a natural n. */
  function NatToString(n: nat): (s: string)
    ensures 1 <= |s| && (n < 10 <==> |s| == 1)
    ensures s[|s| - 1] == DigitChar(n % 10)
  {
    if n < 10 then [DigitChar(n)] else NatToString(n / 10) + [DigitChar(n % 10)]
  }

  /** Different numbers are written differently. */
  lemma {:induction false} NatToStringInjective(a: nat, b: nat)
    requires NatToString(a) == NatToString(b)
    ensures a == b
  {
    var s := NatToString(a);
    assert DigitChar(a % 10) == DigitChar(b % 10);
    if a >= 10 && b >= 10 {
      assert NatToString(a / 10) == s[..|s| - 1] == NatToString(b / 10);
      NatToStringInjective(a / 10, b / 10);
      assert a == (a / 10) * 10 + a % 10 && b == (b / 10) * 10 + b % 10;
    }
  }

  function SideName(index: nat): string { "side_face_" + NatToString(index) }

  // ---------------------------------------------------------------------
  // Contours

  /** The two segments of face k of `create_contours`: across the
      thickness at either end of the side, rotated by k times the angle
      between faces and carried to the inscribed radius. */
  function ContourFace(radius: real, relAngle: real, side: real, thickness: real, rotate: Rotation, k: nat): (Segment, Segment)
  {
    var angle := relAngle * (k as real);
    var translation := rotate(Vec3(radius, 0.0, 0.0), angle);
    (Segment(Add(rotate(Vec3(thickness, -side / 2.0, 0.0), angle), translation),
             Add(rotate(Vec3(0.0, -side / 2.0, 0.0), angle), translation)),
     Segment(Add(rotate(Vec3(thickness, side / 2.0, 0.0), angle), translation),
             Add(rotate(Vec3(0.0, side / 2.0, 0.0), angle), translation)))
  }

  /** The segments of `create_contours`, one pair per face; no face makes
      the angle between faces a division by zero. */
  function Contours(radius: real, nbFace: int, side: real, thickness: real, rotate: Rotation): (r: Result<seq<(Segment, Segment)>>)
    ensures r.Err? <==> nbFace == 0
    ensures r.Ok? ==> |r.value| == (if nbFace < 0 then 0 else nbFace)
  {
    if nbFace == 0 then Err(ZeroDivisionError)
    else
      var relAngle := 2.0 * Pi / (nbFace as real);
      Ok(seq(if nbFace < 0 then 0 else nbFace, k requires 0 <= k => ContourFace(radius, relAngle, side, thickness, rotate, k)))
  }

  /** One iteration of the loop of `create_contours`. */
  method FaceAt(radius: real, relAngle: real, side: real, thickness: real, rotate: Rotation, faceIndex: nat)
    returns (face: (Segment, Segment))
    ensures face == ContourFace(radius, relAngle, side, thickness, rotate, faceIndex)
  {
    var segA := Segment(Vec3(thickness, -side / 2.0, 0.0), Vec3(0.0, -side / 2.0, 0.0));
    var segB := Segment(Vec3(thickness, side / 2.0, 0.0), Vec3(0.0, side / 2.0, 0.0));
    var currentAngle := relAngle * (faceIndex as real);
    var translation := rotate(Vec3(radius, 0.0, 0.0), currentAngle);
    var a := Segment(Add(rotate(segA.a, currentAngle), translation), Add(rotate(segA.b, currentAngle), translation));
    var b := Segment(Add(rotate(segB.a, currentAngle), translation), Add(rotate(segB.b, currentAngle), translation));
    face := (a, b);
  }

  /** `create_contours`. */
  method CreateContours(radius: real, nbFace: int, side: real, thickness: real, rotate: Rotation)
    returns (r: Result<seq<(Segment, Segment)>>)
    ensures r == Contours(radius, nbFace, side, thickness, rotate)
  {
    if nbFace == 0 {
      return Err(ZeroDivisionError);
    }
    var relAngle := 2.0 * Pi / (nbFace as real);
    var polygon: seq<(Segment, Segment)> := [];
    for faceIndex := 0 to (if nbFace < 0 then 0 else nbFace)
      invariant polygon == seq(faceIndex, k requires 0 <= k => ContourFace(radius, relAngle, side, thickness, rotate, k))
    {
      var face := FaceAt(radius, relAngle, side, thickness, rotate, faceIndex);
      polygon := polygon + [face];
    }
    return Ok(polygon);
  }

  /** When the rotation by angle 0 is the identity, the first face's
      segments start at radius + thickness and end on the inscribed
      circle, at either end of a side of the given length. */
  lemma FirstFaceOnInscribedCircle(radius: real, nbFace: int, side: real, thickness: real, rotate: Rotation)
    requires nbFace > 0
    requires forall v :: rotate(v, 0.0) == v
    ensures Contours(radius, nbFace, side, thickness, rotate).value[0] ==
      (Segment(Vec3(radius + thickness, -side / 2.0, 0.0), Vec3(radius, -side / 2.0, 0.0)),
       Segment(Vec3(radius + thickness, side / 2.0, 0.0), Vec3(radius, side / 2.0, 0.0)))
  {
    assert 2.0 * Pi / (nbFace as real) * (0 as real) == 0.0;
  }

  // ---------------------------------------------------------------------
  // Sides

  /** `create_shape(p1, p2, p3, p4)` extruded by `height` and lowered by
      half of it: the quadrilateral is kernel geometry. */
  function SidePrism(p1: Vec3, p2: Vec3, p3: Vec3, p4: Vec3, height: real): Solid
  {
    Translated(Kernel("extruded_quad", [p1.x, p1.y, p1.z, p2.x, p2.y, p2.z, p3.x, p3.y, p3.z, p4.x, p4.y, p4.z, height]),
               Vec3(0.0, 0.0, -height / 2.0))
  }

  function Midpoint(a: Vec3, b: Vec3): Vec3 { Scale(Add(a, b), 0.5) }

  /** The parts of face `index`: one panel, or two halves split at the
      midpoints of its two segments when the face is cut. */
  function SideFace(face: (Segment, Segment), height: real, cut: bool, index: nat): seq<Part>
  {
    var (segA, segB) := face;
    if !cut then
      [Part(SidePrism(segA.a, segB.a, segB.b, segA.b, height), SideName(index))]
    else
      var midA := Midpoint(segA.a, segB.a);
      var midB := Midpoint(segA.b, segB.b);
      [Part(SidePrism(segA.a, midA, midB, segA.b, height), SideName(index) + "_a"),
       Part(SidePrism(midA, segB.a, segB.b, midB, height), SideName(index) + "_b")]
  }

  /** The side parts of the first i faces. */
  function SidesUpTo(polygon: seq<(Segment, Segment)>, height: real, cuts: seq<int>, i: nat): seq<Part>
    requires i <= |polygon|
  {
    if i == 0 then [] else SidesUpTo(polygon, height, cuts, i - 1) + SideFace(polygon[i - 1], height, i - 1 in cuts, i - 1)
  }

  /** The first index of each chunk; an empty chunk is an index error. */
  function Firsts(chunks: seq<seq<int>>): (r: Result<seq<int>>)
    ensures r.Err? ==> r == Err(IndexError)
    ensures r.Ok? <==> forall k :: 0 <= k < |chunks| ==> chunks[k] != []
    ensures r.Ok? ==> |r.value| == |chunks| && forall k :: 0 <= k < |chunks| ==> r.value[k] == chunks[k][0]
  {
    if forall k :: 0 <= k < |chunks| ==> chunks[k] != [] then Ok(seq(|chunks|, k requires 0 <= k < |chunks| => chunks[k][0]))
    else Err(IndexError)
  }

  function Range(n: nat): (r: seq<int>)
    ensures |r| == n && forall i :: 0 <= i < n ==> r[i] == i
  {
    seq(n, i => i)
  }

  /** What `create_sides` returns: the faces to cut are the first of each
      of `nb_cut` chunks of the face indexes. */
  function Sides(polygon: seq<(Segment, Segment)>, height: real, nbCut: int): Result<seq<Part>>
    requires nbCut >= 0 || |polygon| == 0
  {
    match Firsts(Chunks(Range(|polygon|), nbCut))
    case Err(e) => Err(e)
    case Ok(cuts) => Ok(SidesUpTo(polygon, height, cuts, |polygon|))
  }

  /** `create_sides`. */
  method CreateSides(polygon: seq<(Segment, Segment)>, height: real, nbCut: int) returns (r: Result<seq<Part>>)
    requires nbCut >= 0 || |polygon| == 0
    ensures r == Sides(polygon, height, nbCut)
  {
    var nbFace := |polygon|;
    var chunks := ChunkIt(Range(nbFace), nbCut);
    var cutIndexList := CutIndexes(chunks);
    if cutIndexList.Err? {
      return Err(cutIndexList.error);
    }
    var partList: seq<Part> := [];
    for index := 0 to nbFace
      invariant partList == SidesUpTo(polygon, height, cutIndexList.value, index)
    {
      var parts := FaceParts(polygon[index], height, index in cutIndexList.value, index);
      partList := partList + parts;
    }
    return Ok(partList);
  }

  /** The first loop of `create_sides`: the first index of each chunk. */
  method CutIndexes(chunks: seq<seq<int>>) returns (r: Result<seq<int>>)
    ensures r == Firsts(chunks)
  {
    var cutIndexList: seq<int> := [];
    for c := 0 to |chunks|
      invariant forall k :: 0 <= k < c ==> chunks[k] != []
      invariant cutIndexList == seq(c, k requires 0 <= k < c => chunks[k][0])
    {
      if chunks[c] == [] {
        return Err(IndexError);
      }
      cutIndexList := cutIndexList + [chunks[c][0]];
    }
    return Ok(cutIndexList);
  }

  /** One iteration of the second loop of `create_sides`. */
  method FaceParts(face: (Segment, Segment), height: real, cut: bool, index: nat) returns (parts: seq<Part>)
    ensures parts == SideFace(face, height, cut, index)
  {
    var (segA, segB) := face;
    if !cut {
      parts := [Part(SidePrism(segA.a, segB.a, segB.b, segA.b, height), SideName(index))];
    } else {
      var midA := Midpoint(segA.a, segB.a);
      var midB := Midpoint(segA.b, segB.b);
      var part1 := SidePrism(segA.a, midA, midB, segA.b, height);
      var part2 := SidePrism(midA, segB.a, segB.b, midB, height);
      parts := [Part(part1, SideName(index) + "_a")];
      parts := parts + [Part(part2, SideName(index) + "_b")];
    }
  }

  /** How many of the first i indexes are to be cut. */
  function CutCount(cuts: seq<int>, i: nat): nat
  {
    if i == 0 then 0 else CutCount(cuts, i - 1) + (if i - 1 in cuts then 1 else 0)
  }

  /** One part per face and one more per face cut. */
  lemma {:induction false} SidesCount(polygon: seq<(Segment, Segment)>, height: real, cuts: seq<int>, i: nat)
    requires i <= |polygon|
    ensures |SidesUpTo(polygon, height, cuts, i)| == i + CutCount(cuts, i)
  {
    if i > 0 {
      SidesCount(polygon, height, cuts, i - 1);
    }
  }

  lemma {:induction false} CutCountAgrees(c: seq<int>, d: seq<int>, i: nat)
    requires forall j :: 0 <= j < i ==> (j in c <==> j in d)
    ensures CutCount(c, i) == CutCount(d, i)
  {
    if i > 0 {
      CutCountAgrees(c, d, i - 1);
    }
  }

  predicate StrictlyIncreasing(c: seq<int>)
  {
    forall a, b :: 0 <= a < b < |c| ==> c[a] < c[b]
  }

  /** A strictly increasing list of indexes below i has all of its
      elements counted. */
  lemma {:induction false} CutCountIncreasing(c: seq<int>, i: nat)
    requires StrictlyIncreasing(c)
    requires forall j :: 0 <= j < |c| ==> 0 <= c[j] < i
    ensures CutCount(c, i) == |c|
  {
    if |c| == 0 {
      CutCountNone(c, i);
    } else {
      var last := |c| - 1;
      assert 0 <= c[last] < i;
      if c[last] == i - 1 {
        var init := c[..last];
        forall j | 0 <= j < i - 1
          ensures j in c <==> j in init
        {
          if j in c {
            var x :| 0 <= x < |c| && c[x] == j;
            assert x != last;
            assert init[x] == j;
          }
        }
        CutCountAgrees(c, init, i - 1);
        forall j | 0 <= j < |init|
          ensures 0 <= init[j] < i - 1
        {
          assert c[j] < c[last];
        }
        CutCountIncreasing(init, i - 1);
      } else {
        forall j | 0 <= j < |c|
          ensures 0 <= c[j] < i - 1
        {
          if j < last {
            assert c[j] < c[last];
          }
        }
        CutCountIncreasing(c, i - 1);
      }
    }
  }

  lemma {:induction false} CutCountNone(c: seq<int>, i: nat)
    requires |c| == 0
    ensures CutCount(c, i) == 0
  {
    if i > 0 {
      CutCountNone(c, i - 1);
    }
  }

  /** With 1 <= nb_cut <= nb_face, the cut faces are the faces
      k·nb_face/nb_cut, no two the same, so `create_sides` makes
      nb_face + nb_cut parts. */
  lemma SidesOfCut(polygon: seq<(Segment, Segment)>, height: real, nbCut: int)
    requires 1 <= nbCut <= |polygon|
    ensures Sides(polygon, height, nbCut).Ok?
    ensures |Sides(polygon, height, nbCut).value| == |polygon| + nbCut
  {
    var n := |polygon|;
    CutsOfChunks(n, nbCut);
    var cuts := Firsts(Chunks(Range(n), nbCut)).value;
    assert StrictlyIncreasing(cuts) by {
      forall a, b | 0 <= a < b < |cuts|
        ensures cuts[a] < cuts[b]
      {
        StartsIncrease(n, nbCut, a, b);
      }
    }
    forall j | 0 <= j < |cuts|
      ensures 0 <= cuts[j] < n
    {
      ChunkStartMonotone(n, nbCut, j);
    }
    CutCountIncreasing(cuts, n);
    SidesCount(polygon, height, cuts, n);
  }

  /** The faces to cut are the chunk starts k·nb_face/nb_cut. */
  lemma CutsOfChunks(n: nat, nbCut: nat)
    requires 1 <= nbCut <= n
    ensures Firsts(Chunks(Range(n), nbCut)).Ok?
    ensures |Firsts(Chunks(Range(n), nbCut)).value| == nbCut
    ensures forall k :: 0 <= k < nbCut ==> Firsts(Chunks(Range(n), nbCut)).value[k] == ChunkStart(n, nbCut, k)
  {
    var chunks := Chunks(Range(n), nbCut);
    ChunksCover(Range(n), nbCut);
    forall k | 0 <= k < nbCut
      ensures chunks[k] != [] && chunks[k][0] == ChunkStart(n, nbCut, k)
    {
      assert chunks[k][0] == Range(n)[ChunkStart(n, nbCut, k)];
    }
  }

  lemma {:induction false} StartsIncrease(n: nat, num: nat, a: nat, b: nat)
    requires 0 < num <= n && a < b
    ensures ChunkStart(n, num, a) < ChunkStart(n, num, b)
    decreases b - a
  {
    ChunkStartMonotone(n, num, a);
    if a + 1 < b {
      StartsIncrease(n, num, a + 1, b);
    }
  }

  /** More cuts than faces: the first chunk is empty and `create_sides`
      fails on it. */
  lemma SidesTooManyCuts(polygon: seq<(Segment, Segment)>, height: real, nbCut: int)
    requires 0 < |polygon| < nbCut
    ensures Sides(polygon, height, nbCut) == Err(IndexError)
  {
    ChunksTooMany(Range(|polygon|), nbCut);
  }

  /** m is the name of a part of face x. */
  predicate NameOfFace(m: string, x: nat)
  {
    m == SideName(x) || m == SideName(x) + "_a" || m == SideName(x) + "_b"
  }

  function PartNames(parts: seq<Part>): seq<string>
  {
    seq(|parts|, j requires 0 <= j < |parts| => parts[j].name)
  }

  /** The names of face `index`'s parts. */
  function FaceNames(index: nat, cut: bool): seq<string>
  {
    if cut then [SideName(index) + "_a", SideName(index) + "_b"] else [SideName(index)]
  }

  /** The names of the first i faces' parts. */
  function SideNamesUpTo(cuts: seq<int>, i: nat): seq<string>
  {
    if i == 0 then [] else SideNamesUpTo(cuts, i - 1) + FaceNames(i - 1, i - 1 in cuts)
  }

  /** Face i's parts are named `side_face_i`, or `side_face_i_a` and
      `side_face_i_b` when the face is cut, in face order. */
  lemma {:induction false} SidesNames(polygon: seq<(Segment, Segment)>, height: real, cuts: seq<int>, i: nat)
    requires i <= |polygon|
    ensures PartNames(SidesUpTo(polygon, height, cuts, i)) == SideNamesUpTo(cuts, i)
  {
    if i > 0 {
      SidesNames(polygon, height, cuts, i - 1);
      var prev := SidesUpTo(polygon, height, cuts, i - 1);
      var face := SideFace(polygon[i - 1], height, i - 1 in cuts, i - 1);
      SideFaceNames(polygon[i - 1], height, i - 1 in cuts, i - 1);
      PartNamesAppend(prev, face);
    } else {
      assert PartNames([]) == [];
    }
  }

  lemma SideFaceNames(face: (Segment, Segment), height: real, cut: bool, index: nat)
    ensures PartNames(SideFace(face, height, cut, index)) == FaceNames(index, cut)
  {
  }

  lemma PartNamesAppend(p: seq<Part>, q: seq<Part>)
    ensures PartNames(p + q) == PartNames(p) + PartNames(q)
  {
    assert forall j :: 0 <= j < |p + q| ==> PartNames(p + q)[j] == (PartNames(p) + PartNames(q))[j];
  }

  /** The names of the first i faces' parts are all named after faces below i. */
  lemma {:induction false} NameBelow(cuts: seq<int>, i: nat, a: nat, y: nat)
    requires a < |SideNamesUpTo(cuts, i)| && NameOfFace(SideNamesUpTo(cuts, i)[a], y)
    ensures y < i
  {
    if i > 0 {
      var prev := SideNamesUpTo(cuts, i - 1);
      if a < |prev| {
        assert SideNamesUpTo(cuts, i)[a] == prev[a];
        NameBelow(cuts, i - 1, a, y);
      } else {
        var m := SideNamesUpTo(cuts, i)[a];
        assert m == FaceNames(i - 1, i - 1 in cuts)[a - |prev|];
        assert NameOfFace(m, i - 1);
        NameOwner(m, i - 1, y);
      }
    }
  }

  /** No two side parts have the same name. */
  lemma {:induction false} NamesDistinct(cuts: seq<int>, i: nat)
    ensures forall a, b :: 0 <= a < b < |SideNamesUpTo(cuts, i)| ==>
      SideNamesUpTo(cuts, i)[a] != SideNamesUpTo(cuts, i)[b]
  {
    if i > 0 {
      NamesDistinct(cuts, i - 1);
      var prev := SideNamesUpTo(cuts, i - 1);
      var face := FaceNames(i - 1, i - 1 in cuts);
      var n := prev + face;
      assert n == SideNamesUpTo(cuts, i);
      forall a, b | 0 <= a < b < |n|
        ensures n[a] != n[b]
      {
        if b >= |prev| {
          assert n[b] == face[b - |prev|];
          assert NameOfFace(n[b], i - 1);
          if a < |prev| {
            assert n[a] == prev[a];
            if n[a] == n[b] {
              NameBelow(cuts, i - 1, a, i - 1);
            }
          } else {
            assert n[a] == face[0] && n[b] == face[1];
            assert n[a][|n[a]| - 1] != n[b][|n[b]| - 1];
          }
        } else {
          assert n[a] == prev[a] && n[b] == prev[b];
        }
      }
    }
  }

  /** Every side part has its own name. */
  lemma SideNamesDistinct(polygon: seq<(Segment, Segment)>, height: real, cuts: seq<int>)
    ensures var p := SidesUpTo(polygon, height, cuts, |polygon|);
      forall a, b :: 0 <= a < b < |p| ==> p[a].name != p[b].name
  {
    var p := SidesUpTo(polygon, height, cuts, |polygon|);
    SidesNames(polygon, height, cuts, |polygon|);
    NamesDistinct(cuts, |polygon|);
    assert forall a :: 0 <= a < |p| ==> p[a].name == PartNames(p)[a];
  }

  /** A name belongs to one face only. */
  lemma NameOwner(m: string, x: nat, y: nat)
    requires NameOfFace(m, x) && NameOfFace(m, y)
    ensures x == y
  {
    if x != y {
      NamesDiffer(x, y, m, m);
    }
  }

  /** A name of face x's parts differs from a name of face y's parts: the
      number is followed either by nothing or by '_', never by a digit. */
  lemma NamesDiffer(x: nat, y: nat, m: string, n: string)
    requires x != y && NameOfFace(m, x) && NameOfFace(n, y)
    ensures m != n
  {
    var sx, sy := NatToString(x), NatToString(y);
    assert sx != sy by {
      if sx == sy {
        NatToStringInjective(x, y);
      }
    }
    DigitsOnly(x);
    DigitsOnly(y);
    var ex, ey := 10 + |sx|, 10 + |sy|;
    assert m[10..ex] == sx && n[10..ey] == sy;
    if |m| == |n| {
      if |m| == ex && |n| == ey {
        assert m[10..] != n[10..];
      } else if |m| == ex + 2 && |n| == ey + 2 {
        assert m[10..ex] != n[10..ey];
      } else if |m| == ex {
        assert n[ey] == '_' && m[ey] == sx[ey - 10];
      } else {
        assert m[ex] == '_' && n[ex] == sy[ex - 10];
      }
    }
  }

  lemma {:induction false} DigitsOnly(n: nat)
    ensures forall i :: 0 <= i < |NatToString(n)| ==> '0' <= NatToString(n)[i] <= '9'
  {
    if n >= 10 {
      DigitsOnly(n / 10);
    }
    assert '0' <= DigitChar(n % 10) <= '9';
  }

  // ---------------------------------------------------------------------
  // Plates

  /** The radius and side of a plate's polygon: an inside plate uses the
      box's own, an outside plate grows the radius by `radius_outside` and
      the side in proportion. */
  function PlaneFrame(d: RoundedDims, plane: TopBottomRoundedProperties): (r: Result<(real, real)>)
    ensures r.Err? <==> plane.position != PositionInside && d.inradius == 0.0
    ensures r.Err? ==> r == Err(ZeroDivisionError)
    ensures plane.position == PositionInside ==> r == Ok((d.inradius, d.sideLength))
    ensures r.Ok? ==> r.value.1 * d.inradius == d.sideLength * r.value.0
    ensures r.Ok? && plane.position != PositionInside ==> r.value.0 == d.inradius + plane.radiusOutside
  {
    if plane.position == PositionInside then Ok((d.inradius, d.sideLength))
    else if d.inradius == 0.0 then Err(ZeroDivisionError)
    else
      var radius := d.inradius + plane.radiusOutside;
      Ok((radius, ScaledSide(d.sideLength, radius, d.inradius)))
  }

  /** A side grown in proportion to its polygon's radius. */
  function ScaledSide(side: real, radius: real, inradius: real): (s: real)
    requires inradius != 0.0
    ensures s * inradius == side * radius
  {
    side * radius / inradius
  }

  /** What `create_plane_part` returns. */
  function PlanePart(d: RoundedDims, plane: TopBottomRoundedProperties, rotate: Rotation, plate: Plate): Result<Solid>
  {
    match PlaneFrame(d, plane)
    case Err(e) => Err(e)
    case Ok((radius, side)) =>
      match Contours(radius, d.nbFace, side, d.thickness, rotate)
      case Err(e) => Err(e)
      case Ok(edge) => plate(edge, plane.position == PositionInside)
  }

  /** `create_plane_part`. */
  method CreatePlanePart(d: RoundedDims, plane: TopBottomRoundedProperties, rotate: Rotation, plate: Plate)
    returns (r: Result<Solid>)
    ensures r == PlanePart(d, plane, rotate, plate)
  {
    var radius, sideLength;
    if plane.position == PositionInside {
      radius := d.inradius;
      sideLength := d.sideLength;
    } else {
      radius := d.inradius + plane.radiusOutside;
      if d.inradius == 0.0 {
        return Err(ZeroDivisionError);
      }
      sideLength := ScaledSide(d.sideLength, radius, d.inradius);
    }
    assert PlaneFrame(d, plane) == Ok((radius, sideLength));
    var edge := CreateContours(radius, d.nbFace, sideLength, d.thickness, rotate);
    if edge.Err? {
      return Err(edge.error);
    }
    r := plate(edge.value, plane.position == PositionInside);
  }

  // ---------------------------------------------------------------------
  // The box

  /** Where the bottom and the top plates are raised to. */
  function BottomZ(d: RoundedDims, bottom: TopBottomRoundedProperties): real
  {
    if bottom.position == PositionInside then -d.height / 2.0 + bottom.heightShift
    else -d.height / 2.0 - d.thickness
  }

  function TopZ(d: RoundedDims, top: TopBottomRoundedProperties): real
  {
    if top.position == PositionInside then d.height / 2.0 - d.thickness - top.heightShift
    else d.height / 2.0
  }

  /** A box `make_rounded_box` would never finish: with a negative number
      of cuts that passes its checks, `chunkIt` does not end. */
  predicate Finishes(d: RoundedDims)
  {
    d.sideLength < d.maxSideLength && d.cut.Some? && d.cut.value < 0 ==> d.nbFace <= 0
  }

  /** The bottom and the top plates of `make_rounded_box`, raised as
      their positions say. */
  function Plates(d: RoundedDims, top: TopBottomRoundedProperties, bottom: TopBottomRoundedProperties,
                  rotate: Rotation, plate: Plate): Result<seq<Part>>
  {
    match PlanePart(d, bottom, rotate, plate)
    case Err(e) => Err(e)
    case Ok(bottomPart) =>
      match PlanePart(d, top, rotate, plate)
      case Err(e) => Err(e)
      case Ok(topPart) =>
        Ok([Part(Translated(bottomPart, Vec3(0.0, 0.0, BottomZ(d, bottom))), "bottom_face_"),
            Part(Translated(topPart, Vec3(0.0, 0.0, TopZ(d, top))), "top_face_")])
  }

  /** What `make_rounded_box` returns. */
  function RoundedBoxParts(d: RoundedDims, top: TopBottomRoundedProperties, bottom: TopBottomRoundedProperties,
                           rotate: Rotation, plate: Plate): Result<seq<Part>>
    requires Finishes(d)
  {
    if d.sideLength >= d.maxSideLength then Err(ValueError(SideMessage))
    else if d.cut.None? then Err(AttributeError)
    else if d.cut.value > d.nbFace then Err(ValueError(CutMessage))
    else
      match Plates(d, top, bottom, rotate, plate)
      case Err(e) => Err(e)
      case Ok(plates) =>
        match Contours(d.inradius, d.nbFace, d.sideLength, d.thickness, rotate)
        case Err(e) => Err(e)
        case Ok(edge) =>
          match Sides(edge, d.height, d.cut.value)
          case Err(e) => Err(e)
          case Ok(sides) => Ok(plates + sides)
  }

  /** The plates part of `make_rounded_box`. */
  method CreatePlates(d: RoundedDims, top: TopBottomRoundedProperties, bottom: TopBottomRoundedProperties,
                      rotate: Rotation, plate: Plate)
    returns (r: Result<seq<Part>>)
    ensures r == Plates(d, top, bottom, rotate, plate)
  {
    var partList: seq<Part> := [];
    var bottomPart := CreatePlanePart(d, bottom, rotate, plate);
    if bottomPart.Err? {
      return Err(bottomPart.error);
    }
    var bottomShape;
    if bottom.position == PositionInside {
      bottomShape := Translated(bottomPart.value, Vec3(0.0, 0.0, -d.height / 2.0 + bottom.heightShift));
    } else {
      bottomShape := Translated(bottomPart.value, Vec3(0.0, 0.0, -d.height / 2.0 - d.thickness));
    }
    assert bottomShape == Translated(bottomPart.value, Vec3(0.0, 0.0, BottomZ(d, bottom)));
    partList := partList + [Part(bottomShape, "bottom_face_")];
    var topPart := CreatePlanePart(d, top, rotate, plate);
    if topPart.Err? {
      return Err(topPart.error);
    }
    var topShape;
    if top.position == PositionInside {
      topShape := Translated(topPart.value, Vec3(0.0, 0.0, d.height / 2.0 - d.thickness - top.heightShift));
    } else {
      topShape := Translated(topPart.value, Vec3(0.0, 0.0, d.height / 2.0));
    }
    assert topShape == Translated(topPart.value, Vec3(0.0, 0.0, TopZ(d, top)));
    partList := partList + [Part(topShape, "top_face_")];
    assert partList == [Part(bottomShape, "bottom_face_"), Part(topShape, "top_face_")];
    assert PlanePart(d, bottom, rotate, plate) == Ok(bottomPart.value);
    assert PlanePart(d, top, rotate, plate) == Ok(topPart.value);
    return Ok(partList);
  }

  /** `make_rounded_box`. */
  method MakeRoundedBox(p: RoundedBoxProperties, top: TopBottomRoundedProperties, bottom: TopBottomRoundedProperties,
                        rotate: Rotation, plate: Plate)
    returns (r: Result<seq<Part>>)
    requires Finishes(p.Dims())
    ensures r == RoundedBoxParts(p.Dims(), top, bottom, rotate, plate)
  {
    var d := p.Dims();
    var height := d.height;
    if d.sideLength >= d.maxSideLength {
      return Err(ValueError(SideMessage));
    }
    if d.cut.None? {
      return Err(AttributeError);
    }
    if d.cut.value > d.nbFace {
      return Err(ValueError(CutMessage));
    }
    var partList := CreatePlates(d, top, bottom, rotate, plate);
    if partList.Err? {
      return Err(partList.error);
    }
    var edge := CreateContours(d.inradius, d.nbFace, d.sideLength, d.thickness, rotate);
    if edge.Err? {
      return Err(ZeroDivisionError);
    }
    var sides := CreateSides(edge.value, height, d.cut.value);
    if sides.Err? {
      return Err(sides.error);
    }
    return Ok(partList.value + sides.value);
  }

  /** The checks of `make_rounded_box` in their order, and on success the
      bottom plate, the top plate and then one part per face plus one per
      cut face, the plates raised as the positions say. */
  lemma RoundedBoxShape(d: RoundedDims, top: TopBottomRoundedProperties, bottom: TopBottomRoundedProperties,
                        rotate: Rotation, plate: Plate)
    requires Finishes(d)
    ensures var r := RoundedBoxParts(d, top, bottom, rotate, plate);
      (d.sideLength >= d.maxSideLength ==> r == Err(ValueError(SideMessage))) &&
      (d.sideLength < d.maxSideLength && d.cut.Some? && d.cut.value > d.nbFace ==> r == Err(ValueError(CutMessage))) &&
      (r.Ok? ==>
        d.sideLength < d.maxSideLength && d.cut.Some? && d.cut.value <= d.nbFace && d.nbFace != 0 &&
        |r.value| == 2 + (if d.nbFace < 0 then 0 else d.nbFace + d.cut.value) &&
        r.value[0].name == "bottom_face_" && r.value[1].name == "top_face_" &&
        r.value[0].shape == Translated(PlanePart(d, bottom, rotate, plate).value, Vec3(0.0, 0.0, BottomZ(d, bottom))) &&
        r.value[1].shape == Translated(PlanePart(d, top, rotate, plate).value, Vec3(0.0, 0.0, TopZ(d, top))))
  {
    var r := RoundedBoxParts(d, top, bottom, rotate, plate);
    if r.Ok? {
      var edge := Contours(d.inradius, d.nbFace, d.sideLength, d.thickness, rotate).value;
      var cut := d.cut.value;
      if cut == 0 {
        assert Chunks(Range(|edge|), 0) == [];
        assert Firsts([]) == Ok([]);
        var cuts: seq<int> := [];
        SidesCount(edge, d.height, cuts, |edge|);
        assert CutCount(cuts, |edge|) == 0 by { CutCountIncreasing(cuts, |edge|); }
      } else if d.nbFace < 0 {
        assert edge == [];
      } else {
        SidesOfCut(edge, d.height, cut);
      }
    }
  }
}
