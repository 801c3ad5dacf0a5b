/** The terrain mesh of terrain.c: a grid of heights sampled from a height
    function, two face normals per grid quad, and a vertex normal averaged
    from the faces around each vertex. */
module Mesh {
  import opened MathLib
  import opened Structures

  /** A height function maps a grid position (x, z) to a height. */
  type HeightFunction = (real, real) -> real

  /** The normals of the two triangles of one quad: n1 for (v0, v1, v2), n2
      for (v1, v3, v2). */
  datatype FacePair = FacePair(n1: Vector3, n2: Vector3)

  // ---------------------------------------------------------------------
  // Heights and face normals

  /** The height populateTerrain stores at (x, z). */
  function HeightAt(hf: HeightFunction, height: int, x: int, z: int): real {
    hf(x as real, z as real) * height as real
  }

  /** The mesh vertex above grid point (x, z) at height h. */
  function Vertex(x: int, z: int, h: real): Vector3 {
    Vector3(x as real, h, z as real)
  }

  /** Both edges of the first triangle (v0, v1, v2) run one step along x and
      z: their raw cross product is (h10 - h00, -1, h01 - h00), never zero,
      and the upward flip turns it into (h00 - h10, 1, h00 - h01). */
  lemma FirstTriangleCross(x: int, z: int, h00: real, h10: real, h01: real)
    ensures var e1 := Sub3(Vertex(x + 1, z, h10), Vertex(x, z, h00));
            var e2 := Sub3(Vertex(x, z + 1, h01), Vertex(x, z, h00));
            && RawCross(e1, e2) == Vector3(h10 - h00, -1.0, h01 - h00)
            && SqNorm3(RawCross(e1, e2)) != 0.0
            && CrossProduct3(e1, e2) == Vector3(h00 - h10, 1.0, h00 - h01)
  {
    var e1 := Sub3(Vertex(x + 1, z, h10), Vertex(x, z, h00));
    var e2 := Sub3(Vertex(x, z + 1, h01), Vertex(x, z, h00));
    assert e1 == Vector3(1.0, h10 - h00, 0.0);
    assert e2 == Vector3(0.0, h01 - h00, 1.0);
    var raw := RawCross(e1, e2);
    assert raw.x == h10 - h00 && raw.y == -1.0 && raw.z == h01 - h00;
    SqNormZero(raw);
  }

  /** The second triangle (v1, v3, v2) likewise: raw cross product
      (h11 - h01, -1, h11 - h10), flipped to (h01 - h11, 1, h10 - h11). */
  lemma SecondTriangleCross(x: int, z: int, h10: real, h01: real, h11: real)
    ensures var e1 := Sub3(Vertex(x + 1, z + 1, h11), Vertex(x + 1, z, h10));
            var e2 := Sub3(Vertex(x, z + 1, h01), Vertex(x + 1, z, h10));
            && RawCross(e1, e2) == Vector3(h11 - h01, -1.0, h11 - h10)
            && SqNorm3(RawCross(e1, e2)) != 0.0
            && CrossProduct3(e1, e2) == Vector3(h01 - h11, 1.0, h10 - h11)
  {
    var e1 := Sub3(Vertex(x + 1, z + 1, h11), Vertex(x + 1, z, h10));
    var e2 := Sub3(Vertex(x, z + 1, h01), Vertex(x + 1, z, h10));
    assert e1 == Vector3(0.0, h11 - h10, 1.0);
    assert e2 == Vector3(-1.0, h01 - h10, 1.0);
    var raw := RawCross(e1, e2);
    assert raw.x == h11 - h01 && raw.y == -1.0 && raw.z == h11 - h10;
    SqNormZero(raw);
  }

  /** The two face normals of the quad with corner (x, z) and corner heights
      h00, h10, h01, h11, as the body of populateTerrain's face loop computes
      them; FaceNormalsUp shows both are upward unit vectors. */
  function FaceNormals(x: int, z: int, h00: real, h10: real, h01: real, h11: real,
                       sqrt: real -> real): FacePair
    requires IsSqrt(sqrt)
  {
    var v0 := Vertex(x, z, h00);
    var v1 := Vertex(x + 1, z, h10);
    var v2 := Vertex(x, z + 1, h01);
    var v3 := Vertex(x + 1, z + 1, h11);
    FirstTriangleCross(x, z, h00, h10, h01);
    SecondTriangleCross(x, z, h10, h01, h11);
    SqNormZero(CrossProduct3(Sub3(v1, v0), Sub3(v2, v0)));
    SqNormZero(CrossProduct3(Sub3(v3, v1), Sub3(v2, v1)));
    var normal1 := Normalise3(CrossProduct3(Sub3(v1, v0), Sub3(v2, v0)), sqrt);
    var normal2 := Normalise3(CrossProduct3(Sub3(v3, v1), Sub3(v2, v1)), sqrt);
    FacePair(normal1, normal2)
  }

  /** Each face normal is the unit vector along the upward-flipped cross
      product (h00 - h10, 1, h00 - h01), respectively (h01 - h11, 1, h10 - h11):
      both point upwards, so neither cross_product_3's nor normalise_3's
      precondition can fail. */
  lemma FaceNormalsUp(x: int, z: int, h00: real, h10: real, h01: real, h11: real,
                      sqrt: real -> real)
    requires IsSqrt(sqrt)
    ensures var r := FaceNormals(x, z, h00, h10, h01, h11, sqrt);
      && SqNorm3(Vector3(h00 - h10, 1.0, h00 - h01)) != 0.0
      && r.n1 == Normalise3(Vector3(h00 - h10, 1.0, h00 - h01), sqrt)
      && SqNorm3(Vector3(h01 - h11, 1.0, h10 - h11)) != 0.0
      && r.n2 == Normalise3(Vector3(h01 - h11, 1.0, h10 - h11), sqrt)
      && SqNorm3(r.n1) == 1.0 && r.n1.y > 0.0
      && SqNorm3(r.n2) == 1.0 && r.n2.y > 0.0
  {
    FirstTriangleCross(x, z, h00, h10, h01);
    SecondTriangleCross(x, z, h10, h01, h11);
    SqNormZero(Vector3(h00 - h10, 1.0, h00 - h01));
    SqNormZero(Vector3(h01 - h11, 1.0, h10 - h11));
  }

  /** The two face normals of the quad at (x, z) of the surface hf * height:
      upward unit vectors for every height function. */
  function FacePairAt(hf: HeightFunction, height: int, x: int, z: int, sqrt: real -> real): (r: FacePair)
    requires IsSqrt(sqrt)
    ensures SqNorm3(r.n1) == 1.0 && r.n1.y > 0.0
    ensures SqNorm3(r.n2) == 1.0 && r.n2.y > 0.0
  {
    FaceNormalsUp(x, z, HeightAt(hf, height, x, z), HeightAt(hf, height, x + 1, z),
                  HeightAt(hf, height, x, z + 1), HeightAt(hf, height, x + 1, z + 1), sqrt);
    FaceNormals(x, z, HeightAt(hf, height, x, z), HeightAt(hf, height, x + 1, z),
                HeightAt(hf, height, x, z + 1), HeightAt(hf, height, x + 1, z + 1), sqrt)
  }

  /** The two face normals of quad (x, z) computed from a grid of stored
      heights. */
  function StoredFacePair(heights: array2<real>, x: int, z: int, sqrt: real -> real): FacePair
    reads heights
    requires IsSqrt(sqrt)
    requires 0 <= x && x + 1 < heights.Length0 && 0 <= z && z + 1 < heights.Length1
  {
    FaceNormals(x, z, heights[x, z], heights[x + 1, z], heights[x, z + 1], heights[x + 1, z + 1], sqrt)
  }

  // ---------------------------------------------------------------------
  // Vertex normals

  /** The quads of an xSize by zSize vertex grid: (x, z) with both
      coordinates below the last vertex. */
  predicate FaceInBounds(xSize: int, zSize: int, x: int, z: int) {
    0 <= x < xSize - 1 && 0 <= z < zSize - 1
  }

  /** The face normal getFaceNormalInBounds selects for the surface hf * height:
      triangle `which` (0 for n1, otherwise n2) of quad (x, z), or None off the
      grid of quads. */
  function FaceAt(hf: HeightFunction, height: int, xSize: int, zSize: int,
                  x: int, z: int, which: int, sqrt: real -> real): (r: Option<Vector3>)
    requires IsSqrt(sqrt)
    ensures r.Some? <==> FaceInBounds(xSize, zSize, x, z)
  {
    if FaceInBounds(xSize, zSize, x, z) then
      var pair := FacePairAt(hf, height, x, z, sqrt);
      Some(if which == 0 then pair.n1 else pair.n2)
    else None
  }

  /** The six triangles that can touch vertex (x, z), in populateTerrain's
      order: the second triangle of quad (x-1, z-1), both of (x, z-1), both of
      (x-1, z), and the first of (x, z). */
  function VertexFaces(hf: HeightFunction, height: int, xSize: int, zSize: int,
                       x: int, z: int, sqrt: real -> real): (r: seq<Option<Vector3>>)
    requires IsSqrt(sqrt)
    ensures |r| == 6
  {
    [FaceAt(hf, height, xSize, zSize, x - 1, z - 1, 1, sqrt),
     FaceAt(hf, height, xSize, zSize, x, z - 1, 0, sqrt),
     FaceAt(hf, height, xSize, zSize, x, z - 1, 1, sqrt),
     FaceAt(hf, height, xSize, zSize, x - 1, z, 0, sqrt),
     FaceAt(hf, height, xSize, zSize, x - 1, z, 1, sqrt),
     FaceAt(hf, height, xSize, zSize, x, z, 0, sqrt)]
  }

  /** Every face normal of the surface is an upward unit vector. */
  lemma FaceAtUp(hf: HeightFunction, height: int, xSize: int, zSize: int,
                 x: int, z: int, which: int, sqrt: real -> real)
    requires IsSqrt(sqrt)
    ensures var r := FaceAt(hf, height, xSize, zSize, x, z, which, sqrt);
      r.Some? ==> SqNorm3(r.value) == 1.0 && r.value.y > 0.0
  {
    FaceNormalsUp(x, z, HeightAt(hf, height, x, z), HeightAt(hf, height, x + 1, z),
                  HeightAt(hf, height, x, z + 1), HeightAt(hf, height, x + 1, z + 1), sqrt);
  }

  /** Every face around a vertex is an upward unit vector. */
  lemma VertexFacesUp(hf: HeightFunction, height: int, xSize: int, zSize: int,
                      x: int, z: int, sqrt: real -> real)
    requires IsSqrt(sqrt)
    ensures var r := VertexFaces(hf, height, xSize, zSize, x, z, sqrt);
      forall i :: 0 <= i < 6 && r[i].Some? ==> SqNorm3(r[i].value) == 1.0 && r[i].value.y > 0.0
  {
    FaceAtUp(hf, height, xSize, zSize, x - 1, z - 1, 1, sqrt);
    FaceAtUp(hf, height, xSize, zSize, x, z - 1, 0, sqrt);
    FaceAtUp(hf, height, xSize, zSize, x, z - 1, 1, sqrt);
    FaceAtUp(hf, height, xSize, zSize, x - 1, z, 0, sqrt);
    FaceAtUp(hf, height, xSize, zSize, x - 1, z, 1, sqrt);
    FaceAtUp(hf, height, xSize, zSize, x, z, 0, sqrt);
  }

  /** The sum of the present normals, accumulated left to right. */
  function SumSome(s: seq<Option<Vector3>>): Vector3 {
    if |s| == 0 then Zero3
    else
      var acc := SumSome(s[..|s| - 1]);
      match s[|s| - 1]
      case None => acc
      case Some(n) => Add3(acc, n)
  }

  /** The number of present normals. */
  function CountSome(s: seq<Option<Vector3>>): nat {
    if |s| == 0 then 0
    else CountSome(s[..|s| - 1]) + (if s[|s| - 1].Some? then 1 else 0)
  }

  /** A sum of upward normals points upwards, strictly once one is present. */
  lemma {:induction false} SumSomeUp(s: seq<Option<Vector3>>)
    requires forall i :: 0 <= i < |s| && s[i].Some? ==> s[i].value.y > 0.0
    ensures SumSome(s).y >= 0.0
    ensures CountSome(s) > 0 ==> SumSome(s).y > 0.0
  {
    if |s| > 0 {
      var init := s[..|s| - 1];
      assert forall i :: 0 <= i < |init| && init[i].Some? ==> init[i].value.y > 0.0 by {
        forall i | 0 <= i < |init| ensures init[i] == s[i] {
        }
      }
      SumSomeUp(init);
    }
  }

  /** Counting a prefix one slot longer adds that slot. */
  lemma CountPrefix(s: seq<Option<Vector3>>, i: int)
    requires 0 < i <= |s|
    ensures CountSome(s[..i]) == CountSome(s[..i - 1]) + (if s[i - 1].Some? then 1 else 0)
  {
    assert s[..i][..i - 1] == s[..i - 1];
  }

  /** The count of a six-element list, one slot at a time. */
  lemma CountSix(s: seq<Option<Vector3>>)
    requires |s| == 6
    ensures CountSome(s) == (if s[0].Some? then 1 else 0) + (if s[1].Some? then 1 else 0)
                          + (if s[2].Some? then 1 else 0) + (if s[3].Some? then 1 else 0)
                          + (if s[4].Some? then 1 else 0) + (if s[5].Some? then 1 else 0)
  {
    CountPrefix(s, 1);
    CountPrefix(s, 2);
    CountPrefix(s, 3);
    CountPrefix(s, 4);
    CountPrefix(s, 5);
    CountPrefix(s, 6);
    assert s[..6] == s;
  }

  /** How many faces meet at vertex (x, z): six at an interior vertex, one at
      the corners (0, 0) and (xSize - 1, zSize - 1), and at least one at every
      vertex of a grid with at least two vertices each way. */
  lemma VertexFaceCount(hf: HeightFunction, height: int, xSize: int, zSize: int,
                        x: int, z: int, sqrt: real -> real)
    requires IsSqrt(sqrt)
    requires xSize >= 2 && zSize >= 2 && 0 <= x < xSize && 0 <= z < zSize
    ensures var n := CountSome(VertexFaces(hf, height, xSize, zSize, x, z, sqrt));
      && n >= 1
      && (0 < x < xSize - 1 && 0 < z < zSize - 1 ==> n == 6)
      && (x == 0 && z == 0 ==> n == 1)
      && (x == xSize - 1 && z == zSize - 1 ==> n == 1)
  {
    CountSix(VertexFaces(hf, height, xSize, zSize, x, z, sqrt));
  }

  /** The vertex normal populateTerrain stores at (x, z): the normalised sum
      of the faces around the vertex, an upward unit vector. */
  function VertexNormal(hf: HeightFunction, height: int, xSize: int, zSize: int,
                        x: int, z: int, sqrt: real -> real): (r: Vector3)
    requires IsSqrt(sqrt)
    requires xSize >= 2 && zSize >= 2 && 0 <= x < xSize && 0 <= z < zSize
    ensures SqNorm3(r) == 1.0 && r.y > 0.0
  {
    var around := VertexFaces(hf, height, xSize, zSize, x, z, sqrt);
    VertexSumUp(hf, height, xSize, zSize, x, z, sqrt);
    Normalise3(SumSome(around), sqrt)
  }

  /** The faces around a vertex sum to a vector pointing strictly upwards, so
      normalise_3's precondition holds at every vertex. */
  lemma VertexSumUp(hf: HeightFunction, height: int, xSize: int, zSize: int,
                    x: int, z: int, sqrt: real -> real)
    requires IsSqrt(sqrt)
    requires xSize >= 2 && zSize >= 2 && 0 <= x < xSize && 0 <= z < zSize
    ensures SumSome(VertexFaces(hf, height, xSize, zSize, x, z, sqrt)).y > 0.0
    ensures SqNorm3(SumSome(VertexFaces(hf, height, xSize, zSize, x, z, sqrt))) != 0.0
  {
    var around := VertexFaces(hf, height, xSize, zSize, x, z, sqrt);
    VertexFaceCount(hf, height, xSize, zSize, x, z, sqrt);
    VertexFacesUp(hf, height, xSize, zSize, x, z, sqrt);
    SumSomeUp(around);
    SqNormZero(SumSome(around));
  }

  // ---------------------------------------------------------------------
  // The terrain object

  /** getFaceNormalInBounds: the stored normal of triangle `which` of quad
      (x, z), or None when (x, z) is not a quad of the grid; it never reads
      outside faceNormals. */
  function FaceNormalInBounds(faceNormals: array2<FacePair>, xSize: int, zSize: int,
                              x: int, z: int, which: int): (r: Option<Vector3>)
    reads faceNormals
    requires faceNormals.Length0 == xSize - 1 && faceNormals.Length1 == zSize - 1
    ensures r.Some? <==> FaceInBounds(xSize, zSize, x, z)
    ensures r.Some? ==> r.value == (if which == 0 then faceNormals[x, z].n1 else faceNormals[x, z].n2)
  {
    if x >= 0 && z >= 0 && x < xSize - 1 && z < zSize - 1 then
      Some(if which == 0 then faceNormals[x, z].n1 else faceNormals[x, z].n2)
    else None
  }

  /** Every stored face normal points strictly upwards. */
  ghost predicate FacesUp(faceNormals: array2<FacePair>)
    reads faceNormals
  {
    forall a, b :: 0 <= a < faceNormals.Length0 && 0 <= b < faceNormals.Length1 ==>
      faceNormals[a, b].n1.y > 0.0 && faceNormals[a, b].n2.y > 0.0
  }

  /** The six candidates populateTerrain's vertex loop reads for vertex (x, z),
      in its order, out of the stored face normals. */
  function StoredVertexFaces(faceNormals: array2<FacePair>, xSize: int, zSize: int,
                             x: int, z: int): (r: seq<Option<Vector3>>)
    reads faceNormals
    requires faceNormals.Length0 == xSize - 1 && faceNormals.Length1 == zSize - 1
    ensures |r| == 6
  {
    [FaceNormalInBounds(faceNormals, xSize, zSize, x - 1, z - 1, 1),
     FaceNormalInBounds(faceNormals, xSize, zSize, x, z - 1, 0),
     FaceNormalInBounds(faceNormals, xSize, zSize, x, z - 1, 1),
     FaceNormalInBounds(faceNormals, xSize, zSize, x - 1, z, 0),
     FaceNormalInBounds(faceNormals, xSize, zSize, x - 1, z, 1),
     FaceNormalInBounds(faceNormals, xSize, zSize, x, z, 0)]
  }

  /** Over upward stored faces, the candidates of every vertex of a grid with
      at least two vertices each way sum to a vector pointing strictly upwards. */
  lemma StoredSumUp(faceNormals: array2<FacePair>, xSize: int, zSize: int, x: int, z: int)
    requires faceNormals.Length0 == xSize - 1 && faceNormals.Length1 == zSize - 1
    requires FacesUp(faceNormals)
    requires xSize >= 2 && zSize >= 2 && 0 <= x < xSize && 0 <= z < zSize
    ensures SumSome(StoredVertexFaces(faceNormals, xSize, zSize, x, z)).y > 0.0
    ensures SqNorm3(SumSome(StoredVertexFaces(faceNormals, xSize, zSize, x, z))) != 0.0
  {
    var around := StoredVertexFaces(faceNormals, xSize, zSize, x, z);
    CountSix(around);
    SumSomeUp(around);
    SqNormZero(SumSome(around));
  }

  /** The vertex normal populateTerrain computes from the stored face normals:
      over upward faces, an upward unit vector. */
  function StoredVertexNormal(faceNormals: array2<FacePair>, xSize: int, zSize: int,
                              x: int, z: int, sqrt: real -> real): (r: Vector3)
    reads faceNormals
    requires IsSqrt(sqrt)
    requires faceNormals.Length0 == xSize - 1 && faceNormals.Length1 == zSize - 1
    requires FacesUp(faceNormals)
    requires xSize >= 2 && zSize >= 2 && 0 <= x < xSize && 0 <= z < zSize
    ensures SqNorm3(r) == 1.0 && r.y > 0.0
  {
    StoredSumUp(faceNormals, xSize, zSize, x, z);
    Normalise3(SumSome(StoredVertexFaces(faceNormals, xSize, zSize, x, z)), sqrt)
  }

  /** Stored face normals that are those of the surface hf * height are all
      upward, and the vertex normal computed from them is the surface's. */
  lemma StoredVertexNormalIsSurfaces(faceNormals: array2<FacePair>, hf: HeightFunction, height: int,
                                     xSize: int, zSize: int, x: int, z: int, sqrt: real -> real)
    requires IsSqrt(sqrt)
    requires faceNormals.Length0 == xSize - 1 && faceNormals.Length1 == zSize - 1
    requires forall a, b :: 0 <= a < xSize - 1 && 0 <= b < zSize - 1 ==>
      faceNormals[a, b] == FacePairAt(hf, height, a, b, sqrt)
    requires xSize >= 2 && zSize >= 2 && 0 <= x < xSize && 0 <= z < zSize
    ensures FacesUp(faceNormals)
    ensures StoredVertexNormal(faceNormals, xSize, zSize, x, z, sqrt)
         == VertexNormal(hf, height, xSize, zSize, x, z, sqrt)
  {
    StoredFacesUp(faceNormals, hf, height, xSize, zSize, sqrt);
    assert StoredVertexFaces(faceNormals, xSize, zSize, x, z)
        == VertexFaces(hf, height, xSize, zSize, x, z, sqrt);
  }

  /** Stored face normals that are those of a surface all point upwards. */
  lemma StoredFacesUp(faceNormals: array2<FacePair>, hf: HeightFunction, height: int,
                      xSize: int, zSize: int, sqrt: real -> real)
    requires IsSqrt(sqrt)
    requires faceNormals.Length0 == xSize - 1 && faceNormals.Length1 == zSize - 1
    requires forall a, b :: 0 <= a < xSize - 1 && 0 <= b < zSize - 1 ==>
      faceNormals[a, b] == FacePairAt(hf, height, a, b, sqrt)
    ensures FacesUp(faceNormals)
  {
    forall a, b | 0 <= a < xSize - 1 && 0 <= b < zSize - 1
      ensures faceNormals[a, b].n1.y > 0.0 && faceNormals[a, b].n2.y > 0.0
    {
      FaceNormalsUp(a, b, HeightAt(hf, height, a, b), HeightAt(hf, height, a + 1, b),
                    HeightAt(hf, height, a, b + 1), HeightAt(hf, height, a + 1, b + 1), sqrt);
    }
  }

  // ---------------------------------------------------------------------
  // The loop bounds of populateTerrain as written

  /** The quads populateTerrain's face loop visits as written: z below
      zSize - 1, and x also below zSize - 1. */
  predicate FaceLoopVisits(xSize: int, zSize: int, x: int, z: int) {
    0 <= z < zSize - 1 && 0 <= x < zSize - 1
  }

  /** The vertices populateTerrain's vertex loop visits as written: both z
      and x below xSize. */
  predicate VertexLoopVisits(xSize: int, zSize: int, x: int, z: int) {
    0 <= z < xSize && 0 <= x < xSize
  }

  /** The vertices of an xSize by zSize grid. */
  predicate VertexInBounds(xSize: int, zSize: int, x: int, z: int) {
    0 <= x < xSize && 0 <= z < zSize
  }

  /** The loops as written visit exactly the quads and exactly the vertices
      of the grid if and only if the grid is square. */
  lemma LoopBoundsSquareOnly(xSize: int, zSize: int)
    requires xSize >= 2 && zSize >= 2
    ensures (forall x, z :: FaceLoopVisits(xSize, zSize, x, z) <==> FaceInBounds(xSize, zSize, x, z))
            <==> xSize == zSize
    ensures (forall x, z :: VertexLoopVisits(xSize, zSize, x, z) <==> VertexInBounds(xSize, zSize, x, z))
            <==> xSize == zSize
  {
    if xSize < zSize {
      assert FaceLoopVisits(xSize, zSize, xSize - 1, 0) && !FaceInBounds(xSize, zSize, xSize - 1, 0);
      assert !VertexLoopVisits(xSize, zSize, 0, xSize) && VertexInBounds(xSize, zSize, 0, xSize);
    } else if xSize > zSize {
      assert !FaceLoopVisits(xSize, zSize, zSize - 1, 0) && FaceInBounds(xSize, zSize, zSize - 1, 0);
      assert VertexLoopVisits(xSize, zSize, 0, zSize) && !VertexInBounds(xSize, zSize, 0, zSize);
    }
  }

  /** On a 2 by 3 grid the face loop as written visits quad (1, 0), whose
      corner x + 1 = 2 is past the last row of heights, and the vertex loop
      never reaches the vertices with z = 2. */
  lemma LoopBoundsCounterexample()
    ensures FaceLoopVisits(2, 3, 1, 0) && !VertexInBounds(2, 3, 1 + 1, 0)
    ensures VertexInBounds(2, 3, 0, 2) && !VertexLoopVisits(2, 3, 0, 2)
  {
  }

  /** A terrain: the vertex grid's size, the height scale, the display flags,
      and the height and normal of every vertex, indexed [x, z]. */
  class Terrain {
    const xSize: int
    const zSize: int
    const height: int
    var spinning: bool
    var morphing: bool
    const heights: array2<real>
    const normals: array2<Vector3>

    /** Both grids are xSize by zSize. */
    predicate Valid() {
      && heights.Length0 == xSize && heights.Length1 == zSize
      && normals.Length0 == xSize && normals.Length1 == zSize
    }

    /** createTerrain: records the sizes and the height scale, clears both
        flags, and allocates both grids, whose contents stay unset. The grid
        allocations are asserted; the record's own allocation is not checked,
        and its failure is not modelled. */
    constructor (xSize: int, zSize: int, height: int)
      requires xSize >= 0 && zSize >= 0
      ensures this.xSize == xSize && this.zSize == zSize && this.height == height
      ensures !spinning && !morphing
      ensures Valid() && fresh(heights) && fresh(normals)
    {
      this.xSize := xSize;
      this.zSize := zSize;
      this.height := height;
      spinning := false;
      morphing := false;
      normals := new Vector3[xSize, zSize];
      heights := new real[xSize, zSize];
    }

    /** populateTerrain, with the loop bounds of the face and vertex loops
        corrected (see LoopBoundsSquareOnly). Every height becomes hf(x, z) * height,
        and every normal the unit upward VertexNormal of that surface. */
    method Populate(hf: HeightFunction, sqrt: real -> real)
      requires Valid() && xSize >= 2 && zSize >= 2
      requires IsSqrt(sqrt)
      modifies heights, normals
      ensures forall x, z :: 0 <= x < xSize && 0 <= z < zSize ==>
        heights[x, z] == HeightAt(hf, height, x, z)
      ensures forall x, z :: 0 <= x < xSize && 0 <= z < zSize ==>
        normals[x, z] == VertexNormal(hf, height, xSize, zSize, x, z, sqrt)
    {
      PopulateHeights(hf);
      var faceNormals := ComputeFaceNormals(sqrt);
      forall x, z | 0 <= x < xSize - 1 && 0 <= z < zSize - 1
        ensures faceNormals[x, z] == FacePairAt(hf, height, x, z, sqrt)
      {
      }
      StoredFacesUp(faceNormals, hf, height, xSize, zSize, sqrt);
      PopulateNormals(faceNormals, sqrt);
      forall x, z | 0 <= x < xSize && 0 <= z < zSize
        ensures normals[x, z] == VertexNormal(hf, height, xSize, zSize, x, z, sqrt)
      {
        StoredVertexNormalIsSurfaces(faceNormals, hf, height, xSize, zSize, x, z, sqrt);
      }
    }

    /** The first loop of populateTerrain: every height becomes
        hf(x, z) * height. */
    method PopulateHeights(hf: HeightFunction)
      requires Valid()
      modifies heights
      ensures forall x, z :: 0 <= x < xSize && 0 <= z < zSize ==>
        heights[x, z] == HeightAt(hf, height, x, z)
    {
      for x := 0 to xSize
        invariant forall a, b :: 0 <= a < x && 0 <= b < zSize ==> heights[a, b] == HeightAt(hf, height, a, b)
      {
        for z := 0 to zSize
          invariant forall a, b :: 0 <= a < x && 0 <= b < zSize ==> heights[a, b] == HeightAt(hf, height, a, b)
          invariant forall b :: 0 <= b < z ==> heights[x, b] == HeightAt(hf, height, x, b)
        {
          heights[x, z] := hf(x as real, z as real) * height as real;
        }
      }
    }

    /** The second loop of populateTerrain: the two face normals of every
        quad, read off the stored heights, in a fresh (xSize - 1) by
        (zSize - 1) grid. */
    method ComputeFaceNormals(sqrt: real -> real) returns (faceNormals: array2<FacePair>)
      requires Valid() && xSize >= 1 && zSize >= 1
      requires IsSqrt(sqrt)
      ensures fresh(faceNormals)
      ensures faceNormals.Length0 == xSize - 1 && faceNormals.Length1 == zSize - 1
      ensures forall x, z :: 0 <= x < xSize - 1 && 0 <= z < zSize - 1 ==>
        faceNormals[x, z] == StoredFacePair(heights, x, z, sqrt)
    {
      faceNormals := new FacePair[xSize - 1, zSize - 1];
      for z := 0 to zSize - 1
        invariant forall a, b :: 0 <= a < xSize - 1 && 0 <= b < z ==>
          faceNormals[a, b] == StoredFacePair(heights, a, b, sqrt)
      {
        for x := 0 to xSize - 1
          invariant forall a, b :: 0 <= a < xSize - 1 && 0 <= b <= z && (b < z || a < x) ==>
            faceNormals[a, b] == StoredFacePair(heights, a, b, sqrt)
        {
          var h00, h10, h01, h11 := heights[x, z], heights[x + 1, z], heights[x, z + 1], heights[x + 1, z + 1];
          faceNormals[x, z] := FaceNormals(x, z, h00, h10, h01, h11, sqrt);
        }
      }
    }

    /** The third loop of populateTerrain: every vertex normal, from the
        stored face normals. */
    method PopulateNormals(faceNormals: array2<FacePair>, sqrt: real -> real)
      requires Valid() && xSize >= 2 && zSize >= 2
      requires IsSqrt(sqrt)
      requires faceNormals.Length0 == xSize - 1 && faceNormals.Length1 == zSize - 1
      requires FacesUp(faceNormals)
      modifies normals
      ensures forall x, z :: 0 <= x < xSize && 0 <= z < zSize ==>
        normals[x, z] == StoredVertexNormal(faceNormals, xSize, zSize, x, z, sqrt)
    {
      for z := 0 to zSize
        invariant forall a, b :: 0 <= a < xSize && 0 <= b < z ==>
          normals[a, b] == StoredVertexNormal(faceNormals, xSize, zSize, a, b, sqrt)
      {
        for x := 0 to xSize
          invariant forall a, b :: 0 <= a < xSize && 0 <= b <= z && (b < z || a < x) ==>
            normals[a, b] == StoredVertexNormal(faceNormals, xSize, zSize, a, b, sqrt)
        {
          var n := AverageFaces(faceNormals, x, z, sqrt);
          normals[x, z] := n;
        }
      }
    }

    /** The body of populateTerrain's vertex loop: collects the up to six
        in-bounds faces around (x, z), sums them and counts them, and
        normalises the sum. */
    method AverageFaces(faceNormals: array2<FacePair>, x: int, z: int,
                        sqrt: real -> real) returns (n: Vector3)
      requires xSize >= 2 && zSize >= 2 && 0 <= x < xSize && 0 <= z < zSize
      requires IsSqrt(sqrt)
      requires faceNormals.Length0 == xSize - 1 && faceNormals.Length1 == zSize - 1
      requires FacesUp(faceNormals)
      ensures n == StoredVertexNormal(faceNormals, xSize, zSize, x, z, sqrt)
    {
      var around := StoredVertexFaces(faceNormals, xSize, zSize, x, z);
      var normal := Zero3;
      var faces := 0;
      for i := 0 to 6
        invariant normal == SumSome(around[..i]) && faces == CountSome(around[..i])
      {
        assert around[..i + 1][..i] == around[..i];
        if around[i].Some? {
          normal := Add3(normal, around[i].value);
          faces := faces + 1;
        }
      }
      assert around[..6] == around;
      StoredSumUp(faceNormals, xSize, zSize, x, z);
      n := Normalise3(normal, sqrt);
    }
  }
}
