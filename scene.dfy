/** The height functions and the morph animation of main.c: four ways of
    turning the noise field into terrain heights, and the blend that moves the
    live terrain from its current surface towards a freshly generated one. */
module Scene {
  import opened MathLib
  import opened Structures
  import opened Noise
  import opened Mesh

  /** MAX_HEIGHT: the terrain's height scale, and the number of levels per
      unit of height of the blocky height functions. */
  const MaxHeight: int := 30

  /** The number of steps of the morph animation. */
  const MorphSteps: int := 30

  // ---------------------------------------------------------------------
  // Height functions

  /** The noise point simple_perlin samples for grid position (x, z) of a
      size by size terrain. */
  function SimplePoint(size: int, x: real, z: real): Vector2
    requires size != 0
  {
    Vector2(x * 0.05 * (100.0 / size as real), z * 0.05 * (100.0 / size as real))
  }

  /** The sampling scale of simple_perlin is five noise cells across the
      whole terrain: grid position x maps to 5x / size. */
  lemma SimplePointScale(size: int, x: real, z: real)
    requires size != 0
    ensures SimplePoint(size, x, z) == Vector2(5.0 * x / size as real, 5.0 * z / size as real)
  {
    var s := size as real;
    assert 0.05 * (100.0 / s) == 5.0 / s;
    assert x * (5.0 / s) == 5.0 * x / s;
    assert z * (5.0 / s) == 5.0 * z / s;
  }

  /** simple_perlin: the smootherstep noise at (5x / size, 5z / size), scaled
      by size / 100. It is 0 wherever that point is a lattice point, and never
      larger in magnitude than size / 100. */
  function SimplePerlin(p: Perlin, size: int, x: real, z: real): (r: real)
    requires Valid(p) && size > 0 && InDomain(p, SimplePoint(size, x, z))
    ensures var v := SimplePoint(size, x, z);
      v.x == v.x.Floor as real && v.y == v.y.Floor as real ==> r == 0.0
    ensures Abs(r) <= size as real / 100.0
  {
    var v := SimplePoint(size, x, z);
    PerlinValueBounded(p, v, 2);
    SizeScaled(PerlinValue(p, v, 2), size)
  }

  /** simple_perlin's output scaling: a noise value in [-1, 1] times
      size / 100 is at most size / 100 in magnitude, and zero stays zero. */
  function SizeScaled(n: real, size: int): (r: real)
    requires -1.0 <= n <= 1.0 && size >= 0
    ensures Abs(r) <= size as real / 100.0
    ensures n == 0.0 ==> r == 0.0
  {
    AbsScaleLeq(size as real, n);
    assert n * size as real == size as real * n;
    n * size as real / 100.0
  }

  /** simple_perlin's sample for grid position (x, z) lies in the noise domain. */
  predicate SimpleSafe(p: Perlin, size: int, x: int, z: int)
    requires size != 0
  {
    InDomain(p, SimplePoint(size, x as real, z as real))
  }

  /** Every grid position of a size by size terrain stays in the noise domain
      of a size by size field under simple_perlin's scaling exactly when
      size > 5. */
  lemma SimpleDomain(p: Perlin, size: int)
    requires p.xSize == size && p.zSize == size && size >= 1
    ensures (forall x, z :: 0 <= x < size && 0 <= z < size ==> SimpleSafe(p, size, x, z))
            <==> size > 5
  {
    if size > 5 {
      forall x, z | 0 <= x < size && 0 <= z < size
        ensures SimpleSafe(p, size, x, z)
      {
        SimplePointScale(size, x as real, z as real);
        ScaledBelow(x, size);
        ScaledBelow(z, size);
      }
    } else {
      SimplePointScale(size, (size - 1) as real, 0.0);
      ScaledNotBelow(size);
      assert !SimpleSafe(p, size, size - 1, 0);
    }
  }

  /** 5i / size stays in [0, size - 1) for 0 <= i < size when size > 5. */
  lemma ScaledBelow(i: int, size: int)
    requires size > 5 && 0 <= i < size
    ensures 0.0 <= 5.0 * i as real / size as real < (size - 1) as real
  {
    var s := size as real;
    var a := 5.0 * i as real;
    MulPositive(s - 5.0, s - 1.0);
    assert (s - 5.0) * (s - 1.0) == (s - 1.0) * s - 5.0 * (s - 1.0);
    assert a <= 5.0 * (s - 1.0);
    DivLess(a, s, s - 1.0);
    DivAtLeast(a, s, 0.0);
  }

  /** 5 (size - 1) / size reaches size - 1 when size <= 5. */
  lemma ScaledNotBelow(size: int)
    requires 1 <= size <= 5
    ensures 5.0 * (size - 1) as real / size as real >= (size - 1) as real
  {
    var s := size as real;
    MulNonNegative(5.0 - s, s - 1.0);
    assert (5.0 - s) * (s - 1.0) == 5.0 * (s - 1.0) - (s - 1.0) * s;
    DivAtLeast(5.0 * (s - 1.0), s, s - 1.0);
  }

  /** The coarse octave of double_perlin: (0.02x + 1, 0.02z + 1). */
  function CoarsePoint(x: real, z: real): Vector2 {
    Vector2(x * 0.02 + 1.0, z * 0.02 + 1.0)
  }

  /** The fine octave of double_perlin: (0.05x, 0.05z). */
  function FinePoint(x: real, z: real): Vector2 {
    Vector2(x * 0.05, z * 0.05)
  }

  /** double_perlin: 1.2 times the coarse octave plus 0.4 times the fine one,
      with no normalising divisor, so it lies within [-1.6, 1.6] rather than
      [-1, 1]. It is 0 at the origin, which is a lattice point of both. */
  function DoublePerlin(p: Perlin, x: real, z: real): (r: real)
    requires Valid(p) && InDomain(p, CoarsePoint(x, z)) && InDomain(p, FinePoint(x, z))
    ensures -1.6 <= r <= 1.6
    ensures x == 0.0 && z == 0.0 ==> r == 0.0
  {
    PerlinValueBounded(p, CoarsePoint(x, z), 2);
    PerlinValueBounded(p, FinePoint(x, z), 2);
    var perlin1 := PerlinValue(p, CoarsePoint(x, z), 2) * 1.2;
    var perlin2 := PerlinValue(p, FinePoint(x, z), 2) * 0.4;
    perlin1 + perlin2
  }

  /** Both of double_perlin's samples for grid position (x, z) lie in the
      noise domain. */
  predicate DoubleSafe(p: Perlin, x: int, z: int) {
    InDomain(p, CoarsePoint(x as real, z as real)) && InDomain(p, FinePoint(x as real, z as real))
  }

  /** Both octaves of double_perlin stay in the noise domain of a size by
      size field for every grid position exactly when size >= 3. */
  lemma DoubleDomain(p: Perlin, size: int)
    requires p.xSize == size && p.zSize == size && size >= 1
    ensures (forall x, z :: 0 <= x < size && 0 <= z < size ==> DoubleSafe(p, x, z))
            <==> size >= 3
  {
    if size < 3 {
      assert !DoubleSafe(p, size - 1, 0);
    }
  }

  /** floor(h * MAX_HEIGHT) / MAX_HEIGHT: h rounded down to a multiple of
      1 / 30, the nearest one at or below h. */
  function Quantise(h: real): (r: real)
    ensures r <= h < r + 1.0 / MaxHeight as real
    ensures r * MaxHeight as real == (r * MaxHeight as real).Floor as real
  {
    (h * MaxHeight as real).Floor as real / MaxHeight as real
  }

  /** Quantising a quantised height changes nothing. */
  lemma QuantiseIdempotent(h: real)
    ensures Quantise(Quantise(h)) == Quantise(h)
  {
    var q := Quantise(h);
    var k := (q * MaxHeight as real).Floor;
    assert q * MaxHeight as real == k as real;
    assert (Quantise(h) * MaxHeight as real).Floor == k;
  }

  /** simple_perlin_blocky: simple_perlin rounded down to a multiple of 1/30. */
  function SimplePerlinBlocky(p: Perlin, size: int, x: real, z: real): (r: real)
    requires Valid(p) && size > 0 && InDomain(p, SimplePoint(size, x, z))
    ensures r <= SimplePerlin(p, size, x, z) < r + 1.0 / MaxHeight as real
    ensures Quantise(r) == r
  {
    QuantiseIdempotent(SimplePerlin(p, size, x, z));
    Quantise(SimplePerlin(p, size, x, z))
  }

  /** double_perlin_blocky: double_perlin rounded down to a multiple of 1/30. */
  function DoublePerlinBlocky(p: Perlin, x: real, z: real): (r: real)
    requires Valid(p) && InDomain(p, CoarsePoint(x, z)) && InDomain(p, FinePoint(x, z))
    ensures r <= DoublePerlin(p, x, z) < r + 1.0 / MaxHeight as real
    ensures Quantise(r) == r
  {
    QuantiseIdempotent(DoublePerlin(p, x, z));
    Quantise(DoublePerlin(p, x, z))
  }

  // ---------------------------------------------------------------------
  // The morph blend

  /** The value morph writes at step `step`: `step` thirtieths of the way
      from o to n. */
  function Blend(o: real, n: real, step: int): (r: real)
    ensures step == 0 ==> r == o
    ensures step == MorphSteps ==> r == n
    ensures 0 <= step <= MorphSteps ==> Between(r, o, n)
  {
    BlendOffset(o, n, step);
    (o * (MorphSteps - step) as real + n * step as real) / MorphSteps as real
  }

  /** The blend is o moved by step / MorphSteps of the difference n - o. */
  lemma BlendOffset(o: real, n: real, step: int)
    ensures (o * (MorphSteps - step) as real + n * step as real) / MorphSteps as real
         == o + (n - o) * (step as real / MorphSteps as real)
    ensures 0 <= step <= MorphSteps ==> Between(o + (n - o) * (step as real / MorphSteps as real), o, n)
  {
    var f := step as real / MorphSteps as real;
    assert o * (MorphSteps - step) as real + n * step as real == MorphSteps as real * (o + (n - o) * f);
    if 0 <= step <= MorphSteps {
      if o <= n {
        MulNonNegative(n - o, f);
        MulNonNegative(n - o, 1.0 - f);
      } else {
        MulNonNegative(o - n, f);
        MulNonNegative(o - n, 1.0 - f);
      }
    }
  }

  /** The normal morph writes at step `step`, channel by channel as written:
      x and y blend like with like, z blends the old x channel into the new z
      channel, and nothing is normalised. */
  function BlendNormal(o: Vector3, n: Vector3, step: int): (r: Vector3)
    ensures 0 <= step <= MorphSteps ==>
      Between(r.x, o.x, n.x) && Between(r.y, o.y, n.y) && Between(r.z, o.x, n.z)
  {
    Vector3(Blend(o.x, n.x, step), Blend(o.y, n.y, step), Blend(o.x, n.z, step))
  }

  /** At the first step the z channel already holds the old x channel, so the
      old normal is not restored even though the step weight is zero. */
  lemma BlendNormalFirstStep(o: Vector3, n: Vector3)
    ensures BlendNormal(o, n, 0) == Vector3(o.x, o.y, o.x)
    ensures BlendNormal(o, n, 0) == o <==> o.z == o.x
  {
  }

  /** Nothing renormalises the blended normal: already at the first step,
      a unit normal o stays a unit vector only when |o.x| = |o.z|. */
  lemma BlendNormalFirstStepNorm(o: Vector3, n: Vector3)
    requires SqNorm3(o) == 1.0
    ensures SqNorm3(BlendNormal(o, n, 0)) == 1.0 - Sq(o.z) + Sq(o.x)
    ensures SqNorm3(BlendNormal(o, n, 0)) == 1.0 <==> Sq(o.x) == Sq(o.z)
  {
    BlendNormalFirstStep(o, n);
  }

  /** The cells morph's blend loops write: both coordinates below the last
      row and column. */
  predicate BlendCell(xSize: int, zSize: int, x: int, z: int) {
    0 <= x < xSize - 1 && 0 <= z < zSize - 1
  }

  /** One pass of morph's height loop: every blend cell of `live` becomes the
      blend of the two snapshots; the last row and column are untouched. */
  method BlendHeights(live: Terrain, from: Terrain, to: Terrain, step: int)
    requires live.Valid() && from.Valid() && to.Valid()
    requires from.xSize == live.xSize && from.zSize == live.zSize
    requires to.xSize == live.xSize && to.zSize == live.zSize
    requires live.heights != from.heights && live.heights != to.heights
    modifies live.heights
    ensures forall x, z :: BlendCell(live.xSize, live.zSize, x, z) ==>
      live.heights[x, z] == Blend(from.heights[x, z], to.heights[x, z], step)
    ensures forall x, z :: 0 <= x < live.xSize && 0 <= z < live.zSize && !BlendCell(live.xSize, live.zSize, x, z) ==>
      live.heights[x, z] == old(live.heights[x, z])
  {
    var x := 0;
    while x < live.xSize - 1
      invariant 0 <= x && (x <= live.xSize - 1 || x == 0)
      invariant forall a, b :: 0 <= a < live.xSize && 0 <= b < live.zSize ==>
        live.heights[a, b] == (if BlendCell(live.xSize, live.zSize, a, b) && a < x
                               then Blend(from.heights[a, b], to.heights[a, b], step)
                               else old(live.heights[a, b]))
    {
      var z := 0;
      while z < live.zSize - 1
        invariant 0 <= z && (z <= live.zSize - 1 || z == 0)
        invariant forall a, b :: 0 <= a < live.xSize && 0 <= b < live.zSize ==>
          live.heights[a, b] == (if BlendCell(live.xSize, live.zSize, a, b) && (a < x || (a == x && b < z))
                                 then Blend(from.heights[a, b], to.heights[a, b], step)
                                 else old(live.heights[a, b]))
      {
        live.heights[x, z] := (from.heights[x, z] * (MorphSteps - step) as real + to.heights[x, z] * step as real)
                              / MorphSteps as real;
        z := z + 1;
      }
      x := x + 1;
    }
  }

  /** One pass of morph's normal loop: every blend cell of `live` gets the
      channel-wise blend of the two snapshots' normals, written one channel at
      a time; the last row and column are untouched. */
  method BlendNormals(live: Terrain, from: Terrain, to: Terrain, step: int)
    requires live.Valid() && from.Valid() && to.Valid()
    requires from.xSize == live.xSize && from.zSize == live.zSize
    requires to.xSize == live.xSize && to.zSize == live.zSize
    requires live.normals != from.normals && live.normals != to.normals
    modifies live.normals
    ensures forall x, z :: BlendCell(live.xSize, live.zSize, x, z) ==>
      live.normals[x, z] == BlendNormal(from.normals[x, z], to.normals[x, z], step)
    ensures forall x, z :: 0 <= x < live.xSize && 0 <= z < live.zSize && !BlendCell(live.xSize, live.zSize, x, z) ==>
      live.normals[x, z] == old(live.normals[x, z])
  {
    var x := 0;
    while x < live.xSize - 1
      invariant 0 <= x && (x <= live.xSize - 1 || x == 0)
      invariant forall a, b :: 0 <= a < live.xSize && 0 <= b < live.zSize ==>
        live.normals[a, b] == (if BlendCell(live.xSize, live.zSize, a, b) && a < x
                               then BlendNormal(from.normals[a, b], to.normals[a, b], step)
                               else old(live.normals[a, b]))
    {
      var z := 0;
      while z < live.zSize - 1
        invariant 0 <= z && (z <= live.zSize - 1 || z == 0)
        invariant forall a, b :: 0 <= a < live.xSize && 0 <= b < live.zSize ==>
          live.normals[a, b] == (if BlendCell(live.xSize, live.zSize, a, b) && (a < x || (a == x && b < z))
                                 then BlendNormal(from.normals[a, b], to.normals[a, b], step)
                                 else old(live.normals[a, b]))
      {
        var o, n := from.normals[x, z], to.normals[x, z];
        live.normals[x, z] := live.normals[x, z].(x := (o.x * (MorphSteps - step) as real + n.x * step as real) / MorphSteps as real);
        live.normals[x, z] := live.normals[x, z].(y := (o.y * (MorphSteps - step) as real + n.y * step as real) / MorphSteps as real);
        live.normals[x, z] := live.normals[x, z].(z := (o.x * (MorphSteps - step) as real + n.z * step as real) / MorphSteps as real);
        assert live.normals[x, z] == BlendNormal(o, n, step);
        z := z + 1;
      }
      x := x + 1;
    }
  }

  /** The live grid value after `steps` blend steps: the blend of the last
      step for a blend cell once a step has run, the value before the morph
      otherwise. */
  function AfterSteps<T>(blendCell: bool, steps: int, before: T, blended: T): T {
    if blendCell && steps > 0 then blended else before
  }

  /** morph: snapshots the current surface (`before`, the height function
      over the current noise field), regenerates the noise field, builds the
      new terrain from `after`, the height function over the new field, and
      blends the live terrain from the snapshot towards the new terrain, one
      step per frame, until 30 steps have run or the window is closing
      (`closing(s)` is the window's state before step s). The caller then
      replaces the live terrain by `next`. When the live terrain shows the
      `before` surface, as it does when it was populated from the current
      noise field, the snapshot equals it and every live height stays
      between the old and the new surface throughout. */
  method Morph(live: Terrain, before: HeightFunction, after: HeightFunction,
               sqrt: real -> real, closing: int -> bool)
    returns (next: Terrain, steps: int)
    requires live.Valid() && live.xSize >= 2 && live.zSize >= 2
    requires IsSqrt(sqrt)
    modifies live.heights, live.normals
    ensures fresh(next) && fresh(next.heights) && fresh(next.normals) && next.Valid()
    ensures next.xSize == live.xSize && next.zSize == live.zSize && next.height == live.height
    ensures !next.spinning && !next.morphing
    ensures forall x, z :: VertexInBounds(live.xSize, live.zSize, x, z) ==>
      next.heights[x, z] == HeightAt(after, live.height, x, z) &&
      next.normals[x, z] == VertexNormal(after, live.height, live.xSize, live.zSize, x, z, sqrt)
    ensures 0 <= steps <= MorphSteps
    ensures forall s :: 0 <= s < steps ==> !closing(s)
    ensures steps < MorphSteps ==> closing(steps)
    ensures forall x, z :: VertexInBounds(live.xSize, live.zSize, x, z) ==>
      live.heights[x, z] == AfterSteps(BlendCell(live.xSize, live.zSize, x, z), steps, old(live.heights[x, z]),
        Blend(HeightAt(before, live.height, x, z), HeightAt(after, live.height, x, z), steps - 1))
    ensures forall x, z :: VertexInBounds(live.xSize, live.zSize, x, z) ==>
      live.normals[x, z] == AfterSteps(BlendCell(live.xSize, live.zSize, x, z), steps, old(live.normals[x, z]),
        BlendNormal(VertexNormal(before, live.height, live.xSize, live.zSize, x, z, sqrt),
                    VertexNormal(after, live.height, live.xSize, live.zSize, x, z, sqrt), steps - 1))
    ensures (forall x, z :: VertexInBounds(live.xSize, live.zSize, x, z) ==>
               old(live.heights[x, z]) == HeightAt(before, live.height, x, z)) ==>
      forall x, z :: VertexInBounds(live.xSize, live.zSize, x, z) ==>
        Between(live.heights[x, z], HeightAt(before, live.height, x, z), HeightAt(after, live.height, x, z))
  {
    var snapshot := new Terrain(live.xSize, live.zSize, live.height);
    snapshot.Populate(before, sqrt);
    next := new Terrain(live.xSize, live.zSize, live.height);
    next.Populate(after, sqrt);
    steps := Animate(live, snapshot, next, closing);
  }

  /** morph's step loop: blends the live terrain from `from` towards `to`,
      one step per frame, until 30 steps have run or the window is closing. */
  method Animate(live: Terrain, from: Terrain, to: Terrain, closing: int -> bool) returns (steps: int)
    requires live.Valid() && from.Valid() && to.Valid()
    requires from.xSize == live.xSize && from.zSize == live.zSize
    requires to.xSize == live.xSize && to.zSize == live.zSize
    requires live.heights != from.heights && live.heights != to.heights
    requires live.normals != from.normals && live.normals != to.normals
    modifies live.heights, live.normals
    ensures 0 <= steps <= MorphSteps
    ensures forall s :: 0 <= s < steps ==> !closing(s)
    ensures steps < MorphSteps ==> closing(steps)
    ensures forall x, z :: VertexInBounds(live.xSize, live.zSize, x, z) ==>
      live.heights[x, z] == AfterSteps(BlendCell(live.xSize, live.zSize, x, z), steps, old(live.heights[x, z]),
        Blend(from.heights[x, z], to.heights[x, z], steps - 1))
    ensures forall x, z :: VertexInBounds(live.xSize, live.zSize, x, z) ==>
      live.normals[x, z] == AfterSteps(BlendCell(live.xSize, live.zSize, x, z), steps, old(live.normals[x, z]),
        BlendNormal(from.normals[x, z], to.normals[x, z], steps - 1))
  {
    steps := 0;
    while !closing(steps) && steps < MorphSteps
      invariant 0 <= steps <= MorphSteps
      invariant forall s :: 0 <= s < steps ==> !closing(s)
      invariant forall x, z :: VertexInBounds(live.xSize, live.zSize, x, z) ==>
        live.heights[x, z] == AfterSteps(BlendCell(live.xSize, live.zSize, x, z), steps, old(live.heights[x, z]),
          Blend(from.heights[x, z], to.heights[x, z], steps - 1))
      invariant forall x, z :: VertexInBounds(live.xSize, live.zSize, x, z) ==>
        live.normals[x, z] == AfterSteps(BlendCell(live.xSize, live.zSize, x, z), steps, old(live.normals[x, z]),
          BlendNormal(from.normals[x, z], to.normals[x, z], steps - 1))
    {
      BlendHeights(live, from, to, steps);
      BlendNormals(live, from, to, steps);
      steps := steps + 1;
    }
  }
}
