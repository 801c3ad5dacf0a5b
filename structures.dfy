/** Vector helpers and the flat two-dimensional layout of structures.c. */
module Structures {
  import opened MathLib

  /** A pointer that may be NULL. */
  datatype Option<T> = None | Some(value: T)

  datatype Vector2 = Vector2(x: real, y: real)

  datatype Vector3 = Vector3(x: real, y: real, z: real)

  /** The up direction (0, 1, 0) that cross products are oriented towards. */
  const Upwards: Vector3 := Vector3(0.0, 1.0, 0.0)

  const Zero3: Vector3 := Vector3(0.0, 0.0, 0.0)

  function Dot2(v1: Vector2, v2: Vector2): real {
    v1.x * v2.x + v1.y * v2.y
  }

  function Dot3(v1: Vector3, v2: Vector3): real {
    v1.x * v2.x + v1.y * v2.y + v1.z * v2.z
  }

  /** The squared magnitude x*x + y*y + z*z; the source's magnitude is `sqrtf`
      of this. */
  function SqNorm3(v: Vector3): real {
    Sq(v.x) + Sq(v.y) + Sq(v.z)
  }

  function Add3(a: Vector3, b: Vector3): Vector3 {
    Vector3(a.x + b.x, a.y + b.y, a.z + b.z)
  }

  function Sub3(a: Vector3, b: Vector3): Vector3 {
    Vector3(a.x - b.x, a.y - b.y, a.z - b.z)
  }

  function Scale3(k: real, v: Vector3): Vector3 {
    Vector3(k * v.x, k * v.y, k * v.z)
  }

  function Neg3(v: Vector3): Vector3 {
    Vector3(-v.x, -v.y, -v.z)
  }

  /** The `out` vector of `cross_product_3` before it is oriented upwards. */
  function RawCross(v1: Vector3, v2: Vector3): Vector3 {
    Vector3(v1.y * v2.z - v1.z * v2.y,
            v2.x * v1.z - v2.z * v1.x,
            v1.x * v2.y - v1.y * v2.x)
  }

  /** Both dot products are component-wise sums of products, and symmetric. */
  lemma DotSymmetric(a: Vector2, b: Vector2, c: Vector3, d: Vector3)
    ensures Dot2(a, b) == Dot2(b, a)
    ensures Dot3(c, d) == Dot3(d, c)
  {
  }

  /** The squared magnitude is the dot product of a vector with itself. */
  lemma SqNormIsDot(v: Vector3)
    ensures SqNorm3(v) == Dot3(v, v)
  {
  }

  /** The squared magnitude is never negative, and vanishes exactly at the
      zero vector. */
  lemma SqNormZero(v: Vector3)
    ensures SqNorm3(v) >= 0.0
    ensures SqNorm3(v) == 0.0 <==> v.x == 0.0 && v.y == 0.0 && v.z == 0.0
  {
    SquareNonNegative(v.x);
    SquareNonNegative(v.y);
    SquareNonNegative(v.z);
    if v.x != 0.0 {
      SquarePositive(v.x);
    } else if v.y != 0.0 {
      SquarePositive(v.y);
    } else if v.z != 0.0 {
      SquarePositive(v.z);
    }
  }

  /** The raw cross product is orthogonal to both arguments. */
  lemma RawCrossOrthogonal(v1: Vector3, v2: Vector3)
    ensures Dot3(RawCross(v1, v2), v1) == 0.0
    ensures Dot3(RawCross(v1, v2), v2) == 0.0
  {
    var c := RawCross(v1, v2);
    assert c.x * v1.x == v1.x * v1.y * v2.z - v1.x * v1.z * v2.y;
    assert c.y * v1.y == v1.y * v1.z * v2.x - v1.x * v1.y * v2.z;
    assert c.z * v1.z == v1.x * v1.z * v2.y - v1.y * v1.z * v2.x;
    assert c.x * v2.x == v1.y * v2.x * v2.z - v1.z * v2.x * v2.y;
    assert c.y * v2.y == v1.z * v2.x * v2.y - v1.x * v2.y * v2.z;
    assert c.z * v2.z == v1.x * v2.y * v2.z - v1.y * v2.x * v2.z;
  }

  /** Parallel arguments give a zero raw cross product, so the precondition of
      `CrossProduct3` excludes them. */
  lemma ParallelRawCrossIsZero(v: Vector3, k: real)
    ensures RawCross(v, Scale3(k, v)) == Zero3
  {
  }

  /** `cross_product_3`: the cross product, negated when it points downwards.
      The source asserts that the magnitude `sqrtf(SqNorm3(out))` is non-zero;
      with an exact square root that is the requirement below. */
  function CrossProduct3(v1: Vector3, v2: Vector3): (r: Vector3)
    requires SqNorm3(RawCross(v1, v2)) != 0.0
    ensures Dot3(r, Upwards) >= 0.0
    ensures Dot3(r, v1) == 0.0 && Dot3(r, v2) == 0.0
    ensures r == RawCross(v1, v2) || r == Neg3(RawCross(v1, v2))
    ensures Dot3(RawCross(v1, v2), Upwards) >= 0.0 ==> r == RawCross(v1, v2)
    ensures SqNorm3(r) == SqNorm3(RawCross(v1, v2))
  {
    RawCrossOrthogonal(v1, v2);
    var out := RawCross(v1, v2);
    if Dot3(out, Upwards) >= 0.0 then out
    else
      // the source divides each component by -1, which negates it exactly
      Neg3(out)
  }

  /** `normalise_3`: the unit vector with the direction of `v`. The result has
      magnitude 1, is parallel to `v` (zero cross product) and points the same
      way (positive dot product); these three facts determine it. */
  function Normalise3(v: Vector3, sqrt: real -> real): (r: Vector3)
    requires IsSqrt(sqrt)
    requires SqNorm3(v) != 0.0
    ensures SqNorm3(r) == 1.0
    ensures RawCross(r, v) == Zero3
    ensures Dot3(r, v) > 0.0
    ensures r.y > 0.0 <==> v.y > 0.0
  {
    SqNormZero(v);
    var m := sqrt(SqNorm3(v));
    SqrtPositive(sqrt, SqNorm3(v));
    NormaliseFacts(v, m);
    Vector3(v.x / m, v.y / m, v.z / m)
  }

  /** Scaling multiplies the squared magnitude by the square of the factor. */
  lemma ScaleSqNorm(k: real, v: Vector3)
    ensures SqNorm3(Scale3(k, v)) == Sq(k) * SqNorm3(v)
  {
    assert Sq(k * v.x) == Sq(k) * Sq(v.x);
    assert Sq(k * v.y) == Sq(k) * Sq(v.y);
    assert Sq(k * v.z) == Sq(k) * Sq(v.z);
  }

  lemma NormaliseFacts(v: Vector3, m: real)
    requires m > 0.0 && Sq(m) == SqNorm3(v)
    ensures SqNorm3(Vector3(v.x / m, v.y / m, v.z / m)) == 1.0
    ensures RawCross(Vector3(v.x / m, v.y / m, v.z / m), v) == Zero3
    ensures Dot3(Vector3(v.x / m, v.y / m, v.z / m), v) > 0.0
    ensures v.y / m > 0.0 <==> v.y > 0.0
  {
    var k := 1.0 / m;
    assert k * m == 1.0;
    var r := Vector3(v.x / m, v.y / m, v.z / m);
    assert r == Scale3(k, v);
    ScaleSqNorm(k, v);
    assert Sq(k) * Sq(m) == Sq(k * m);
    assert Dot3(r, v) == k * SqNorm3(v);
    MulPositive(k, SqNorm3(v));
    assert RawCross(r, v) == Vector3(k * (v.y * v.z - v.z * v.y),
                                     k * (v.x * v.z - v.z * v.x),
                                     k * (v.x * v.y - v.y * v.x));
  }

  /** The expected 2D dot products of structures_test.c. */
  lemma Dot2TestValues()
    ensures Dot2(Vector2(1.0, 0.0), Vector2(0.0, 1.0)) == 0.0
    ensures Dot2(Vector2(1.0, 0.0), Vector2(1.0, 1.0)) == 1.0
    ensures Dot2(Vector2(1.0, 0.0), Vector2(2.0, 2.0)) == 2.0
    ensures Dot2(Vector2(0.0, 1.0), Vector2(2.0, 2.0)) == 2.0
    ensures Dot2(Vector2(1.0, 1.0), Vector2(2.0, 2.0)) == 4.0
  {
    assert Dot2(Vector2(1.0, 0.0), Vector2(0.0, 1.0)) == 0.0;
    assert Dot2(Vector2(1.0, 0.0), Vector2(1.0, 1.0)) == 1.0;
    assert Dot2(Vector2(1.0, 0.0), Vector2(2.0, 2.0)) == 2.0;
    assert Dot2(Vector2(0.0, 1.0), Vector2(2.0, 2.0)) == 2.0;
  }

  /** The expected 3D dot products of structures_test.c. */
  lemma Dot3TestValues()
    ensures Dot3(Vector3(1.0, 0.0, 0.0), Vector3(0.0, 1.0, 0.0)) == 0.0
    ensures Dot3(Vector3(1.0, 0.0, 0.0), Vector3(1.0, 1.0, 0.0)) == 1.0
    ensures Dot3(Vector3(1.0, 0.0, 0.0), Vector3(1.0, 2.0, 1.0)) == 1.0
    ensures Dot3(Vector3(0.0, 0.0, 1.0), Vector3(1.0, 2.0, 1.0)) == 1.0
    ensures Dot3(Vector3(1.0, 1.0, 0.0), Vector3(1.0, 2.0, 1.0)) == 3.0
    ensures Dot3(Vector3(0.0, 1.0, 0.0), Vector3(1.0, 2.0, 1.0)) == 2.0
  {
    Dot3UnitX(Vector3(0.0, 1.0, 0.0));
    Dot3UnitX(Vector3(1.0, 1.0, 0.0));
    Dot3UnitX(Vector3(1.0, 2.0, 1.0));
    Dot3UnitZ(Vector3(1.0, 2.0, 1.0));
    Dot3UnitXY(Vector3(1.0, 2.0, 1.0));
    Dot3UnitY(Vector3(1.0, 2.0, 1.0));
  }

  /** A dot product with the x axis picks out the x component. */
  lemma Dot3UnitX(b: Vector3)
    ensures Dot3(Vector3(1.0, 0.0, 0.0), b) == b.x
  {
  }

  /** A dot product with the y axis picks out the y component. */
  lemma Dot3UnitY(b: Vector3)
    ensures Dot3(Vector3(0.0, 1.0, 0.0), b) == b.y
  {
  }

  /** A dot product with the z axis picks out the z component. */
  lemma Dot3UnitZ(b: Vector3)
    ensures Dot3(Vector3(0.0, 0.0, 1.0), b) == b.z
  {
  }

  /** A dot product with (1, 1, 0) adds the x and y components. */
  lemma Dot3UnitXY(b: Vector3)
    ensures Dot3(Vector3(1.0, 1.0, 0.0), b) == b.x + b.y
  {
  }

  /** The expected normalisations of structures_test.c: (1,1,0) becomes
      (1/sqrt 2, 1/sqrt 2, 0) and (1,2,1) becomes (1/sqrt 6, 2/sqrt 6, 1/sqrt 6). */
  lemma NormaliseTestValues(sqrt: real -> real)
    requires IsSqrt(sqrt)
    ensures sqrt(2.0) > 0.0 && sqrt(6.0) > 0.0
    ensures SqNorm3(Vector3(1.0, 1.0, 0.0)) == 2.0 && SqNorm3(Vector3(1.0, 2.0, 1.0)) == 6.0
    ensures Normalise3(Vector3(1.0, 1.0, 0.0), sqrt) == Vector3(1.0 / sqrt(2.0), 1.0 / sqrt(2.0), 0.0)
    ensures Normalise3(Vector3(1.0, 2.0, 1.0), sqrt) == Vector3(1.0 / sqrt(6.0), 2.0 / sqrt(6.0), 1.0 / sqrt(6.0))
  {
    SqrtPositive(sqrt, 2.0);
    SqrtPositive(sqrt, 6.0);
    assert SqNorm3(Vector3(1.0, 1.0, 0.0)) == Sq(1.0) + Sq(1.0) + Sq(0.0);
    assert SqNorm3(Vector3(1.0, 2.0, 1.0)) == Sq(1.0) + Sq(2.0) + Sq(1.0);
  }

  /** The raw cross product with the x axis on the left. */
  lemma RawCrossUnitX(v: Vector3)
    ensures RawCross(Vector3(1.0, 0.0, 0.0), v) == Vector3(0.0, -v.z, v.y)
  {
  }

  /** The cross products of structures_test.c: X×Y = (0,0,1) as computed. */
  lemma CrossXY()
    ensures RawCross(Vector3(1.0, 0.0, 0.0), Vector3(0.0, 1.0, 0.0)) == Vector3(0.0, 0.0, 1.0)
    ensures SqNorm3(Vector3(0.0, 0.0, 1.0)) == 1.0
    ensures CrossProduct3(Vector3(1.0, 0.0, 0.0), Vector3(0.0, 1.0, 0.0)) == Vector3(0.0, 0.0, 1.0)
  {
    RawCrossUnitX(Vector3(0.0, 1.0, 0.0));
  }

  /** A raw cross product with a negative y component is the one
      cross_product_3 flips. */
  lemma CrossProductDown(v1: Vector3, v2: Vector3)
    requires RawCross(v1, v2).y < 0.0
    ensures SqNorm3(RawCross(v1, v2)) != 0.0
    ensures CrossProduct3(v1, v2) == Neg3(RawCross(v1, v2))
  {
    SqNormZero(RawCross(v1, v2));
  }

  /** X×Z = (0,-1,0) points downwards and is flipped to (0,1,0). */
  lemma CrossXZ()
    ensures RawCross(Vector3(1.0, 0.0, 0.0), Vector3(0.0, 0.0, 1.0)) == Vector3(0.0, -1.0, 0.0)
    ensures SqNorm3(RawCross(Vector3(1.0, 0.0, 0.0), Vector3(0.0, 0.0, 1.0))) != 0.0
    ensures CrossProduct3(Vector3(1.0, 0.0, 0.0), Vector3(0.0, 0.0, 1.0)) == Vector3(0.0, 1.0, 0.0)
  {
    RawCrossUnitX(Vector3(0.0, 0.0, 1.0));
    CrossProductDown(Vector3(1.0, 0.0, 0.0), Vector3(0.0, 0.0, 1.0));
  }

  /** (1,1,0)×(1,2,1) = (1,-1,1) points downwards and is flipped to (-1,1,-1). */
  lemma CrossSkew()
    ensures RawCross(Vector3(1.0, 1.0, 0.0), Vector3(1.0, 2.0, 1.0)) == Vector3(1.0, -1.0, 1.0)
    ensures SqNorm3(Vector3(1.0, -1.0, 1.0)) == 3.0
    ensures CrossProduct3(Vector3(1.0, 1.0, 0.0), Vector3(1.0, 2.0, 1.0)) == Vector3(-1.0, 1.0, -1.0)
  {
    assert Neg3(Vector3(1.0, -1.0, 1.0)) == Vector3(-1.0, 1.0, -1.0);
  }

  /** A vector of magnitude 1 is its own normalisation; the unit axes of
      structures_test.c are instances. */
  lemma NormaliseUnit(v: Vector3, sqrt: real -> real)
    requires IsSqrt(sqrt)
    requires SqNorm3(v) == 1.0
    ensures Normalise3(v, sqrt) == v
  {
    SqrtOne(sqrt);
    assert sqrt(SqNorm3(v)) == 1.0;
  }

  /** Normalising twice is normalising once. */
  lemma NormaliseIdempotent(v: Vector3, sqrt: real -> real)
    requires IsSqrt(sqrt)
    requires SqNorm3(v) != 0.0
    ensures SqNorm3(Normalise3(v, sqrt)) != 0.0
    ensures Normalise3(Normalise3(v, sqrt), sqrt) == Normalise3(v, sqrt)
  {
    NormaliseUnit(Normalise3(v, sqrt), sqrt);
  }

  // ---------------------------------------------------------------------
  // allocate2D: a row-pointer view over one contiguous block

  /** Cell (i, j) of an xSize × zSize layout sits at offset i*zSize + j of the
      block, inside the block. */
  lemma OffsetInBlock(xSize: int, zSize: int, i: int, j: int)
    requires 0 <= i < xSize && 0 <= j < zSize
    ensures 0 <= i * zSize + j < xSize * zSize
  {
    MulLeq(i, xSize - 1, zSize);
    assert (xSize - 1) * zSize == xSize * zSize - zSize;
    MulLeq(0, i, zSize);
  }

  /** Row i of an xSize × zSize layout ends inside the block. */
  lemma RowInBlock(xSize: int, zSize: int, i: int)
    requires 0 <= i < xSize && 0 <= zSize
    ensures 0 <= i * zSize && i * zSize + zSize <= xSize * zSize
  {
    MulLeq(i + 1, xSize, zSize);
    MulLeq(0, i, zSize);
  }

  /** Distinct cells of the layout never share an offset. */
  lemma OffsetInjective(zSize: int, i: int, j: int, i': int, j': int)
    requires 0 <= i && 0 <= i' && 0 <= j < zSize && 0 <= j' < zSize
    requires i * zSize + j == i' * zSize + j'
    ensures i == i' && j == j'
  {
    MulStep(i, i', zSize);
    MulStep(i', i, zSize);
  }

  /** `allocate2D`: `rowsOk` and `blockOk` stand for the outcomes of the two
      `malloc` calls. On success row i starts at offset i*zSize of one block of
      xSize*zSize cells, and every cell holds NULL; on failure it reports 0
      (false). The source writes row 0 unconditionally, so xSize >= 1. */
  method Allocate2D<T>(xSize: int, zSize: int, rowsOk: bool, blockOk: bool)
    returns (ok: bool, rows: array<int>, block: array<Option<T>>)
    requires xSize >= 1 && zSize >= 0
    ensures fresh(rows) && fresh(block)
    ensures ok <==> rowsOk && blockOk
    ensures ok ==> rows.Length == xSize && block.Length == xSize * zSize
    ensures ok ==> forall i :: 0 <= i < xSize ==> rows[i] == i * zSize
    ensures ok ==> forall k :: 0 <= k < block.Length ==> block[k] == None
  {
    if !rowsOk {
      return false, new int[0], new Option<T>[0];
    }
    rows := new int[xSize];
    if !blockOk {
      return false, rows, new Option<T>[0];
    }
    MulLeq(0, xSize, zSize);
    block := new Option<T>[xSize * zSize];
    rows[0] := 0;
    // directing the row pointers
    var i := 1;
    while i < xSize
      invariant 1 <= i <= xSize
      modifies rows
      invariant forall k :: 0 <= k < i ==> rows[k] == k * zSize
    {
      rows[i] := rows[i - 1] + zSize;
      i := i + 1;
    }
    // filling the block with NULLs, row by row; `base` is the offset of row i
    i := 0;
    var base := 0;
    while i < xSize
      invariant 0 <= i <= xSize
      invariant base == i * zSize
      invariant forall k :: 0 <= k < base ==> block[k] == None
      modifies block
    {
      RowInBlock(xSize, zSize, i);
      assert rows[i] == base && base + zSize <= block.Length;
      ClearRow(block, base, zSize);
      base := base + zSize;
      i := i + 1;
    }
    assert base == block.Length;
    ok := true;
  }

  /** The inner loop of allocate2D's NULL fill: the zSize cells of the row
      starting at offset `base` become NULL, and no other cell changes. */
  method ClearRow<T>(block: array<Option<T>>, base: int, zSize: int)
    requires 0 <= base && 0 <= zSize && base + zSize <= block.Length
    modifies block
    ensures forall k :: base <= k < base + zSize ==> block[k] == None
    ensures forall k :: 0 <= k < block.Length && !(base <= k < base + zSize) ==> block[k] == old(block[k])
  {
    var j := 0;
    while j < zSize
      invariant 0 <= j <= zSize
      invariant forall k :: base <= k < base + j ==> block[k] == None
      invariant forall k :: 0 <= k < block.Length && !(base <= k < base + j) ==> block[k] == old(block[k])
    {
      block[base + j] := None;
      j := j + 1;
    }
  }
}
