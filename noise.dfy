/** The gradient-noise field of perlin.c: a grid of unit gradients, three
    interpolation kernels, and the per-cell sample built from them. */
module Noise {
  import opened MathLib
  import opened Structures

  // ---------------------------------------------------------------------
  // Interpolation kernels

  /** The smoothstep polynomial (3 - 2w)w², which runs from 0 at w = 0 to 1 at
      w = 1. */
  function SmoothstepFade(w: real): real {
    (3.0 - 2.0 * w) * w * w
  }

  /** The smootherstep polynomial ((6w - 15)w + 10)w³, likewise from 0 to 1. */
  function SmootherstepFade(w: real): real {
    ((6.0 * w - 15.0) * w + 10.0) * w * w * w
  }

  /** Moving a fraction t in [0, 1] of the way from v1 to v2 stays between them. */
  lemma ConvexBetween(v1: real, v2: real, t: real)
    requires 0.0 <= t <= 1.0
    ensures Between((v2 - v1) * t + v1, v1, v2)
  {
    if v1 <= v2 {
      MulNonNegative(v2 - v1, t);
      MulNonNegative(v2 - v1, 1.0 - t);
    } else {
      MulNonNegative(v1 - v2, t);
      MulNonNegative(v1 - v2, 1.0 - t);
    }
  }

  /** On [0, 1] the smoothstep polynomial stays in [0, 1]: it is a product of
      non-negative factors, and so is 1 - (3 - 2w)w² = (1 - w)²(1 + 2w). */
  lemma SmoothstepFadeRange(w: real)
    requires 0.0 <= w <= 1.0
    ensures 0.0 <= SmoothstepFade(w) <= 1.0
  {
    MulNonNegative(3.0 - 2.0 * w, w);
    MulNonNegative((3.0 - 2.0 * w) * w, w);
    SquareNonNegative(1.0 - w);
    MulNonNegative(Sq(1.0 - w), 1.0 + 2.0 * w);
    assert 1.0 - SmoothstepFade(w) == Sq(1.0 - w) * (1.0 + 2.0 * w);
  }

  /** On [0, 1] the smootherstep polynomial stays in [0, 1]: 6w² - 15w + 10 has
      no real root, and 1 - T(w) = (1 - w)³(6w² + 3w + 1). */
  lemma SmootherstepFadeRange(w: real)
    requires 0.0 <= w <= 1.0
    ensures 0.0 <= SmootherstepFade(w) <= 1.0
  {
    var q := (6.0 * w - 15.0) * w + 10.0;
    assert q == 6.0 * Sq(1.25 - w) + 0.625;
    SquareNonNegative(1.25 - w);
    MulNonNegative(q, w);
    MulNonNegative(q * w, w);
    MulNonNegative(q * w * w, w);
    var c := 1.0 - w;
    SquareNonNegative(c);
    MulNonNegative(Sq(c), c);
    MulNonNegative(Sq(c) * c, 6.0 * w * w + 3.0 * w + 1.0);
    assert 1.0 - SmootherstepFade(w) == Sq(c) * c * (6.0 * w * w + 3.0 * w + 1.0);
  }

  /** interpolate_linear: clamps the weight to [0, 1], then moves that fraction
      of the way from v1 to v2. */
  function InterpolateLinear(v1: real, v2: real, w: real): (r: real)
    ensures w <= 0.0 ==> r == v1
    ensures w >= 1.0 ==> r == v2
    ensures Between(r, v1, v2)
  {
    if w < 0.0 then v1
    else if w > 1.0 then v2
    else
      ConvexBetween(v1, v2, w);
      (v2 - v1) * w + v1
  }

  /** smoothstep: clamps the weight, then eases by (3 - 2w)w². */
  function Smoothstep(v1: real, v2: real, w: real): (r: real)
    ensures w <= 0.0 ==> r == v1
    ensures w >= 1.0 ==> r == v2
    ensures Between(r, v1, v2)
  {
    if w < 0.0 then v1
    else if w > 1.0 then v2
    else
      SmoothstepFadeRange(w);
      ConvexBetween(v1, v2, SmoothstepFade(w));
      assert (v2 - v1) * (3.0 - 2.0 * w) * w * w == (v2 - v1) * SmoothstepFade(w);
      (v2 - v1) * (3.0 - 2.0 * w) * w * w + v1
  }

  /** smootherstep: clamps the weight, then eases by ((6w - 15)w + 10)w³. */
  function Smootherstep(v1: real, v2: real, w: real): (r: real)
    ensures w <= 0.0 ==> r == v1
    ensures w >= 1.0 ==> r == v2
    ensures Between(r, v1, v2)
  {
    if w < 0.0 then v1
    else if w > 1.0 then v2
    else
      SmootherstepFadeRange(w);
      ConvexBetween(v1, v2, SmootherstepFade(w));
      assert (v2 - v1) * ((6.0 * w - 15.0) * w + 10.0) * w * w * w == (v2 - v1) * SmootherstepFade(w);
      (v2 - v1) * ((6.0 * w - 15.0) * w + 10.0) * w * w * w + v1
  }

  /** The interpolation modes interpolate_general knows: 0 linear, 1
      smoothstep, 2 smootherstep. */
  predicate ValidMode(mode: int) {
    0 <= mode <= 2
  }

  /** interpolate_general: dispatches on the mode; an unknown mode yields 0.
      Every known mode clamps its weight and stays between the two values. */
  function InterpolateGeneral(v1: real, v2: real, w: real, mode: int): (r: real)
    ensures ValidMode(mode) && w <= 0.0 ==> r == v1
    ensures ValidMode(mode) && w >= 1.0 ==> r == v2
    ensures ValidMode(mode) ==> Between(r, v1, v2)
    ensures !ValidMode(mode) ==> r == 0.0
  {
    if mode == 0 then InterpolateLinear(v1, v2, w)
    else if mode == 1 then Smoothstep(v1, v2, w)
    else if mode == 2 then Smootherstep(v1, v2, w)
    else 0.0
  }

  /** The easing curve each mode applies to a weight in [0, 1]. */
  function Fade(mode: int, w: real): real {
    if mode == 1 then SmoothstepFade(w)
    else if mode == 2 then SmootherstepFade(w)
    else w
  }

  /** Inside [0, 1] every known mode moves the eased fraction of the way from
      v1 to v2. */
  lemma InterpolateIsFade(v1: real, v2: real, w: real, mode: int)
    requires ValidMode(mode) && 0.0 <= w <= 1.0
    ensures InterpolateGeneral(v1, v2, w, mode) == (v2 - v1) * Fade(mode, w) + v1
  {
    if mode == 1 {
      assert (v2 - v1) * (3.0 - 2.0 * w) * w * w == (v2 - v1) * SmoothstepFade(w);
    } else if mode == 2 {
      assert (v2 - v1) * ((6.0 * w - 15.0) * w + 10.0) * w * w * w == (v2 - v1) * SmootherstepFade(w);
    }
  }

  /** The mix (1 - s)b0 + s b1 of two bounds with weight s. */
  function Mix(s: real, b0: real, b1: real): real {
    (1.0 - s) * b0 + s * b1
  }

  /** Every fade stays in [0, 1] and lies on the same side of 1/2 as its
      argument, so that (1 - s)u + s(1 - u) never exceeds 1/2. The three
      curves satisfy 1 - 2s = (1 - 2u)q with q = 1, 1 + 2u(1 - u) and
      6u²(1 - u)² + 2u(1 - u) + 1 respectively, all positive on [0, 1]. */
  lemma FadeBalance(mode: int, u: real)
    requires ValidMode(mode) && 0.0 <= u <= 1.0
    ensures 0.0 <= Fade(mode, u) <= 1.0
    ensures Mix(Fade(mode, u), u, 1.0 - u) <= 0.5
  {
    var s := Fade(mode, u);
    var c := u * (1.0 - u);
    MulNonNegative(u, 1.0 - u);
    var q := if mode == 0 then 1.0 else if mode == 1 then 1.0 + 2.0 * c else 6.0 * c * c + 2.0 * c + 1.0;
    MulNonNegative(c, c);
    if mode == 1 {
      SmoothstepFadeRange(u);
      assert 1.0 - 2.0 * s == (1.0 - 2.0 * u) * q;
    } else if mode == 2 {
      SmootherstepFadeRange(u);
      assert 1.0 - 2.0 * s == (1.0 - 2.0 * u) * q;
    }
    SquareNonNegative(1.0 - 2.0 * u);
    MulNonNegative(Sq(1.0 - 2.0 * u), q);
    assert (1.0 - 2.0 * u) * (1.0 - 2.0 * s) == Sq(1.0 - 2.0 * u) * q;
    assert (1.0 - s) * u + s * (1.0 - u) == 0.5 - 0.5 * (1.0 - 2.0 * u) * (1.0 - 2.0 * s);
  }

  // ---------------------------------------------------------------------
  // Bounds used by the noise estimate

  /** A unit vector's components lie in [-1, 1]. */
  lemma UnitComponents(g: Vector2)
    requires Sq(g.x) + Sq(g.y) == 1.0
    ensures -1.0 <= g.x <= 1.0 && -1.0 <= g.y <= 1.0
  {
    SquareNonNegative(g.x);
    SquareNonNegative(g.y);
    SquareAtMostOne(g.x);
    SquareAtMostOne(g.y);
  }

  /** A number whose square is at most 1 lies in [-1, 1]. */
  lemma SquareAtMostOne(a: real)
    requires Sq(a) <= 1.0
    ensures -1.0 <= a <= 1.0
  {
    assert (a - 1.0) * (a + 1.0) == Sq(a) - 1.0;
    if a > 1.0 {
      MulPositive(a - 1.0, a + 1.0);
    } else if a < -1.0 {
      MulPositive(-1.0 - a, 1.0 - a);
    }
  }

  /** Scaling by a factor in [-1, 1] does not increase a magnitude. */
  lemma AbsScaleLeq(a: real, g: real)
    requires -1.0 <= g <= 1.0
    ensures Abs(a * g) <= Abs(a)
  {
    if a >= 0.0 {
      MulNonNegative(a, 1.0 - g);
      MulNonNegative(a, 1.0 + g);
    } else {
      MulNonNegative(-a, 1.0 - g);
      MulNonNegative(-a, 1.0 + g);
    }
  }

  /** The dot product of an offset with a gradient whose components lie in
      [-1, 1] is bounded by the offset's taxicab length. */
  lemma DotBound(dx: real, dy: real, g: Vector2)
    requires -1.0 <= g.x <= 1.0 && -1.0 <= g.y <= 1.0
    ensures Abs(dx * g.x + dy * g.y) <= Abs(dx) + Abs(dy)
  {
    AbsScaleLeq(dx, g.x);
    AbsScaleLeq(dy, g.y);
    SumBound(dx * g.x, dy * g.y, Abs(dx), Abs(dy));
  }

  /** Bounds on two magnitudes bound the magnitude of their sum. */
  lemma SumBound(a: real, b: real, ba: real, bb: real)
    requires Abs(a) <= ba && Abs(b) <= bb
    ensures Abs(a + b) <= ba + bb
  {
  }

  /** Interpolating a fraction s of the way from d0 to d1 is bounded by the same
      mix of their bounds. */
  lemma MixBound(d0: real, d1: real, s: real, b0: real, b1: real)
    requires 0.0 <= s <= 1.0
    requires Abs(d0) <= b0 && Abs(d1) <= b1
    ensures Abs((d1 - d0) * s + d0) <= Mix(s, b0, b1)
  {
    assert (d1 - d0) * s + d0 == (1.0 - s) * d0 + s * d1;
    MulNonNegative(1.0 - s, b0 - d0);
    MulNonNegative(1.0 - s, b0 + d0);
    MulNonNegative(s, b1 - d1);
    MulNonNegative(s, b1 + d1);
  }

  // ---------------------------------------------------------------------
  // The noise field

  /** A Perlin: the lattice size and the gradient at each lattice point,
      grid[x][z]. */
  datatype Perlin = Perlin(xSize: int, zSize: int, grid: seq<seq<Vector2>>)

  /** The grid has xSize rows of zSize gradients, each of magnitude 1 (the
      promise of perlin.h). */
  ghost predicate Valid(p: Perlin) {
    && p.xSize >= 1 && p.zSize >= 0
    && |p.grid| == p.xSize
    && (forall i :: 0 <= i < p.xSize ==> |p.grid[i]| == p.zSize)
    && (forall i, j :: 0 <= i < p.xSize && 0 <= j < p.zSize ==>
          Sq(p.grid[i][j].x) + Sq(p.grid[i][j].y) == 1.0)
  }

  /** get_gradient_dot: the dot product of the offset from lattice point
      (xGrid, yGrid) to v with that point's gradient. It vanishes at the
      lattice point itself and is bounded by the offset's taxicab length. */
  function GradientDot(p: Perlin, xGrid: int, yGrid: int, v: Vector2): (r: real)
    requires Valid(p)
    requires 0 <= xGrid < p.xSize && 0 <= yGrid < p.zSize
    ensures v.x == xGrid as real && v.y == yGrid as real ==> r == 0.0
    ensures Abs(r) <= Abs(v.x - xGrid as real) + Abs(v.y - yGrid as real)
  {
    var dx := v.x - xGrid as real;
    var dy := v.y - yGrid as real;
    var g := p.grid[xGrid][yGrid];
    UnitComponents(g);
    DotBound(dx, dy, g);
    dx * g.x + dy * g.y
  }

  /** The points at which a sample reads only lattice points that exist: the
      cell's far corner (floor(x) + 1, floor(y) + 1) must still be on the
      grid. */
  predicate InDomain(p: Perlin, v: Vector2) {
    0.0 <= v.x < (p.xSize - 1) as real && 0.0 <= v.y < (p.zSize - 1) as real
  }

  /** The range get_perlin_value asserts on its argument. */
  predicate AssertedDomain(p: Perlin, v: Vector2) {
    0.0 <= v.x < p.xSize as real && 0.0 <= v.y < p.zSize as real
  }

  /** A point is in the domain exactly when it is non-negative and all four
      corners of its cell are lattice points of the grid. */
  lemma CornersInRange(p: Perlin, v: Vector2)
    ensures InDomain(p, v) <==>
      && 0.0 <= v.x && 0.0 <= v.y
      && 0 <= v.x.Floor && v.x.Floor + 1 < p.xSize
      && 0 <= v.y.Floor && v.y.Floor + 1 < p.zSize
  {
  }

  /** The asserted range is too wide: on a 2 by 2 grid it admits the point
      (1, 0), whose cell's far corner has x index 2, past the last row. */
  lemma AssertedDomainAdmitsMissingCorner()
    ensures var p := Perlin(2, 2, [[Vector2(1.0, 0.0), Vector2(1.0, 0.0)], [Vector2(1.0, 0.0), Vector2(1.0, 0.0)]]);
      var v := Vector2(1.0, 0.0);
      && Valid(p) && AssertedDomain(p, v) && !InDomain(p, v)
      && v.x.Floor + 1 == |p.grid|
  {
    var p := Perlin(2, 2, [[Vector2(1.0, 0.0), Vector2(1.0, 0.0)], [Vector2(1.0, 0.0), Vector2(1.0, 0.0)]]);
    assert Sq(1.0) + Sq(0.0) == 1.0;
    assert Valid(p);
  }

  /** Every domain point lies in the asserted range: the corrected
      precondition only narrows it. */
  lemma InDomainIsAsserted(p: Perlin, v: Vector2)
    ensures InDomain(p, v) ==> AssertedDomain(p, v)
  {
  }

  /** get_perlin_value: interpolates the four corner dot products of the cell
      containing v, first along x and then along y. It is 0 at every lattice
      point and for an unknown mode. */
  function PerlinValue(p: Perlin, v: Vector2, mode: int): (r: real)
    requires Valid(p) && InDomain(p, v)
    ensures v.x == v.x.Floor as real && v.y == v.y.Floor as real ==> r == 0.0
    ensures !ValidMode(mode) ==> r == 0.0
  {
    var x0 := v.x.Floor;
    var x1 := x0 + 1;
    var y0 := v.y.Floor;
    var y1 := y0 + 1;
    var d00 := GradientDot(p, x0, y0, v);
    var d10 := GradientDot(p, x1, y0, v);
    var d01 := GradientDot(p, x0, y1, v);
    var d11 := GradientDot(p, x1, y1, v);
    var wx := v.x - x0 as real;
    var wy := v.y - y0 as real;
    var ix0 := InterpolateGeneral(d00, d10, wx, mode);
    var ix1 := InterpolateGeneral(d01, d11, wx, mode);
    InterpolateGeneral(ix0, ix1, wy, mode)
  }

  /** A known mode's interpolation is bounded by the eased mix of the bounds
      of its two values. */
  lemma InterpolateBound(d0: real, d1: real, w: real, mode: int, b0: real, b1: real)
    requires ValidMode(mode) && 0.0 <= w <= 1.0
    requires Abs(d0) <= b0 && Abs(d1) <= b1
    ensures Abs(InterpolateGeneral(d0, d1, w, mode)) <= Mix(Fade(mode, w), b0, b1)
  {
    InterpolateIsFade(d0, d1, w, mode);
    FadeBalance(mode, w);
    MixBound(d0, d1, Fade(mode, w), b0, b1);
  }

  /** Shifting both bounds by c shifts their mix by c. */
  lemma MixShift(s: real, a: real, b: real, c: real)
    ensures Mix(s, a + c, b + c) == Mix(s, a, b) + c
  {
  }

  /** One cell's interpolation of four corner values, each bounded by its
      taxicab distance to the point (u, t) of the unit square, lies in
      [-1, 1]. Interpolating the bounds along x leaves t + A(u) and
      1 - t + A(u), and along y A(u) + A(t), where A(u) = Mix(s, u, 1 - u)
      <= 1/2 for the eased weight s (FadeBalance). */
  lemma CellBound(d00: real, d10: real, d01: real, d11: real, u: real, t: real, mode: int)
    requires ValidMode(mode) && 0.0 <= u <= 1.0 && 0.0 <= t <= 1.0
    requires Abs(d00) <= u + t && Abs(d10) <= (1.0 - u) + t
    requires Abs(d01) <= u + (1.0 - t) && Abs(d11) <= (1.0 - u) + (1.0 - t)
    ensures -1.0 <= InterpolateGeneral(InterpolateGeneral(d00, d10, u, mode),
                                       InterpolateGeneral(d01, d11, u, mode), t, mode) <= 1.0
  {
    FadeBalance(mode, u);
    FadeBalance(mode, t);
    var au := Mix(Fade(mode, u), u, 1.0 - u);
    InterpolateBound(d00, d10, u, mode, u + t, (1.0 - u) + t);
    MixShift(Fade(mode, u), u, 1.0 - u, t);
    InterpolateBound(d01, d11, u, mode, u + (1.0 - t), (1.0 - u) + (1.0 - t));
    MixShift(Fade(mode, u), u, 1.0 - u, 1.0 - t);
    var ix0 := InterpolateGeneral(d00, d10, u, mode);
    var ix1 := InterpolateGeneral(d01, d11, u, mode);
    InterpolateBound(ix0, ix1, t, mode, t + au, (1.0 - t) + au);
    MixShift(Fade(mode, t), t, 1.0 - t, au);
  }

  /** Every sample of a known mode lies in [-1, 1]: the four corner dot
      products meet CellBound's bounds (GradientDot). */
  lemma PerlinValueBounded(p: Perlin, v: Vector2, mode: int)
    requires Valid(p) && InDomain(p, v) && ValidMode(mode)
    ensures -1.0 <= PerlinValue(p, v, mode) <= 1.0
  {
    var x0 := v.x.Floor;
    var y0 := v.y.Floor;
    var u := v.x - x0 as real;
    var t := v.y - y0 as real;
    CellBound(GradientDot(p, x0, y0, v), GradientDot(p, x0 + 1, y0, v),
              GradientDot(p, x0, y0 + 1, v), GradientDot(p, x0 + 1, y0 + 1, v), u, t, mode);
  }

  // ---------------------------------------------------------------------
  // Building the grid

  /** generate_random_vector2 after its allocation succeeded: the unit vector
      at angle a. */
  function RandomGradient(a: real, cos: real -> real, sin: real -> real): (g: Vector2)
    requires IsTrig(cos, sin)
    ensures Sq(g.x) + Sq(g.y) == 1.0
  {
    Vector2(cos(a), sin(a))
  }

  /** create_perlin. Allocation outcomes are parameters: perlinOk for the
      Perlin record, gridOk for allocate2D, and vectorOk(i, j) for the vector
      of cell (i, j). The random angles are the sequence angle(0), angle(1),
      ... drawn in row-major order, one per allocated vector. On success the
      grid holds the unit vector of the (i * zSize + j)th angle at (i, j); any
      failed allocation yields None. */
  method CreatePerlin(xSize: int, zSize: int, perlinOk: bool, gridOk: bool,
                      vectorOk: (int, int) -> bool, angle: int -> real,
                      cos: real -> real, sin: real -> real)
    returns (r: Option<Perlin>)
    requires xSize >= 1 && zSize >= 0
    requires IsTrig(cos, sin)
    ensures r.Some? <==>
      (perlinOk && gridOk && forall i, j :: 0 <= i < xSize && 0 <= j < zSize ==> vectorOk(i, j))
    ensures r.Some? ==> r.value.xSize == xSize && r.value.zSize == zSize && Valid(r.value)
    ensures r.Some? ==> forall i, j :: 0 <= i < xSize && 0 <= j < zSize ==>
      r.value.grid[i][j] == RandomGradient(angle(i * zSize + j), cos, sin)
  {
    if !perlinOk || !gridOk {
      return None;
    }
    var grid: seq<seq<Vector2>> := [];
    var i := 0;
    while i < xSize
      invariant 0 <= i <= xSize && |grid| == i
      invariant forall a :: 0 <= a < i ==> |grid[a]| == zSize
      invariant forall a, b :: 0 <= a < i && 0 <= b < zSize ==>
        vectorOk(a, b) && grid[a][b] == RandomGradient(angle(a * zSize + b), cos, sin)
    {
      var row: seq<Vector2> := [];
      var j := 0;
      while j < zSize
        invariant 0 <= j <= zSize && |row| == j
        invariant forall b :: 0 <= b < j ==>
          vectorOk(i, b) && row[b] == RandomGradient(angle(i * zSize + b), cos, sin)
      {
        if !vectorOk(i, j) {
          return None;
        }
        row := row + [RandomGradient(angle(i * zSize + j), cos, sin)];
        j := j + 1;
      }
      grid := grid + [row];
      i := i + 1;
    }
    r := Some(Perlin(xSize, zSize, grid));
  }
}
