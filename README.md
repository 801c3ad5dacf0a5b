# Terrain generator: noise, mesh and morph

A Dafny model of the core of a small C/OpenGL terrain generator. This core:

- generates a Perlin-style gradient-noise field;
- samples it with one of four height functions;
- fills a terrain grid with heights, per-quad face normals and averaged vertex normals;
- animates a "morph" from the current terrain to a freshly generated one, by blending the live height and normal grids in place over 30 steps.

`GLfloat` is modelled as `real`; rounding is not modelled.

The C math library functions `sqrtf`, `cosf` and `sinf` become function-valued parameters. Each comes with the one property the proofs need (`MathLib.IsSqrt`, `MathLib.IsTrig`).

Inputs to the C code that are not pure computation come in as parameters, "oracles" the caller supplies:

- `rand()` becomes an angle oracle.
- The outcomes of `malloc` become boolean parameters.
- The window-close flag becomes an oracle indexed by step.

The model has five modules:

- `MathLib`: squares, absolute value, and the square-root and trigonometric properties.
- `Structures` (structures.c): vectors, dot and cross products, normalisation, and the flat 2D layout of `allocate2D`.
- `Noise` (perlin.c): the interpolation kernels, the gradient grid, and the sample `get_perlin_value`.
- `Mesh` (terrain.c): a `Terrain` class whose methods fill its `heights` and `normals` arrays. Each method is proved against specification functions for heights, face normals and vertex normals.
- `Scene` (main.c 277-341): the four height functions, the blend formulas, and the morph loop over the live terrain's arrays.

The main results are:

- each interpolation kernel clamps its weight, hits both endpoints and stays between them;
- every noise sample is 0 at lattice points and lies in [-1, 1];
- every face normal and every vertex normal is an upward unit vector, so neither assert of structures.c can fire while `populateTerrain` runs;
- the number of faces around each vertex is 6 inside the grid, 1 at two corners, and at least 1 everywhere;
- quantisation rounds down by less than 1/30 and is idempotent;
- the morph leaves the last row and column untouched; when the live terrain showed the old surface, every live height stays between the old and new surfaces.

Behaviour of the code that a reader might not expect, kept as written:

- The `Terrain` struct in terrain.h:9-13 declares no `spinning` or `morphing` field, but `createTerrain` (terrain.c:22-23) sets both. The `Terrain` class has them.
- `double_perlin` (main.c:282-290) has no normalising divisor, so it lies within [-1.6, 1.6] (`Scene.DoublePerlin`).
- The morph blends the normal's z channel from the old x channel (main.c:327-329). `Scene.BlendNormal` keeps this as written, and `Scene.BlendNormalFirstStep` and `Scene.BlendNormalFirstStepNorm` show its effect.
- The terrain built for the new surface starts with both flags cleared, because it comes fresh from `createTerrain`.

## Model

| member | source | states |
|---|---|---|
| Structures.Dot2 | structures.c:10-12 | computes the 2D dot product v1.x·v2.x + v1.y·v2.y; it has no contract of its own, and Structures.DotSymmetric and Structures.Dot2TestValues state its properties |
| Structures.Dot3 | structures.c:15-17 | computes the 3D dot product; it has no contract of its own, and Structures.DotSymmetric, Structures.SqNormIsDot and Structures.Dot3TestValues state its properties |
| Structures.RawCross | structures.c:21-25 | computes the three components of `out` in cross_product_3 before the magnitude check; it has no contract of its own, and Structures.RawCrossOrthogonal and Structures.ParallelRawCrossIsZero state its properties |
| Structures.DotSymmetric | structures.c:10-17 | both dot products are symmetric in their arguments |
| Structures.Dot2TestValues | structures_test.c:27-31 | the five expected 2D dot products of the test |
| Structures.Dot3TestValues | structures_test.c:43-49 | the expected 3D dot products of the test (six distinct ones) |
| Structures.SqNormIsDot | structures.c:26-30 | the squared magnitude under `sqrtf` is the dot product of the vector with itself |
| Structures.SqNormZero | structures.c:26-31 | the squared magnitude is non-negative and zero exactly at the zero vector |
| Structures.RawCrossOrthogonal | structures.c:21-25 | the raw cross product is orthogonal to both inputs |
| Structures.ParallelRawCrossIsZero | structures.c:26-31 | parallel inputs give a zero raw cross product, which the magnitude precondition excludes |
| Structures.CrossProduct3 | structures.c:20-39 | the result has a non-negative dot product with (0,1,0), is orthogonal to both inputs, is the raw cross product or its negation (the raw one whenever that already points up), and keeps its magnitude; requires a non-zero magnitude |
| Structures.CrossProductDown | structures.c:32-38 | a raw cross product with negative y has a non-zero magnitude and is returned negated |
| Structures.RawCrossUnitX | structures.c:21-25 | the raw cross product of the x axis with v is (0, -v.z, v.y) |
| Structures.CrossXY | structures_test.c:52-55 | X×Y = (0,0,1) |
| Structures.CrossXZ | structures_test.c:53-56 | the raw X×Z = (0,-1,0) is non-zero and is flipped to (0,1,0) |
| Structures.CrossSkew | structures_test.c:54-57 | (1,1,0)×(1,2,1) = (1,-1,1) is flipped to (-1,1,-1) |
| Structures.Normalise3 | structures.c:42-53 | the result has magnitude 1, is parallel to the input (zero cross product) and points the same way (positive dot product); its y is positive exactly when the input's is; requires a non-zero magnitude |
| Structures.NormaliseFacts | structures.c:49-51 | dividing each component by the magnitude gives a unit vector, parallel and in the same direction |
| Structures.ScaleSqNorm | structures.c:43-51 | scaling by k multiplies the squared magnitude by k² |
| Structures.NormaliseUnit | structures_test.c:60-63 | a unit vector is its own normalisation |
| Structures.NormaliseIdempotent | structures.c:42-53 | normalising twice equals normalising once |
| Structures.NormaliseTestValues | structures_test.c:60-65 | (1,1,0) normalises to (1/√2, 1/√2, 0) and (1,2,1) to (1/√6, 2/√6, 1/√6) |
| Structures.OffsetInBlock | structures.c:69-78 | cell (i, j) lies at offset i·zSize + j inside the xSize·zSize block |
| Structures.RowInBlock | structures.c:69-71 | every row pointer's zSize cells lie inside the block |
| Structures.OffsetInjective | structures.c:69-78 | distinct in-range cells have distinct offsets |
| Structures.ClearRow | structures.c:75-77 | the zSize cells of one row become NULL and no other cell changes |
| Structures.Allocate2D | structures.c:57-80 | returns fresh arrays and succeeds exactly when both allocations do; on success row i starts at offset i·zSize and every cell of the xSize·zSize block is NULL |
| Noise.ConvexBetween | perlin.c:72-74 | moving a fraction in [0,1] of the way from val1 to val2 stays between them |
| Noise.SmoothstepFade | perlin.c:93 | computes the smoothstep polynomial (3 - 2w)w²; it has no contract of its own, and Noise.SmoothstepFadeRange and Noise.FadeBalance state its properties |
| Noise.SmootherstepFade | perlin.c:105 | computes the smootherstep polynomial ((6w - 15)w + 10)w³; it has no contract of its own, and Noise.SmootherstepFadeRange and Noise.FadeBalance state its properties |
| Noise.SmoothstepFadeRange | perlin.c:93 | the smoothstep polynomial maps [0,1] into [0,1] |
| Noise.SmootherstepFadeRange | perlin.c:105 | the smootherstep polynomial maps [0,1] into [0,1] |
| Noise.InterpolateLinear | perlin.c:75-82 | weight ≤ 0 gives val1, weight ≥ 1 gives val2, and the result is always between them |
| Noise.Smoothstep | perlin.c:87-94 | weight ≤ 0 gives val1, weight ≥ 1 gives val2, and the result is always between them |
| Noise.Smootherstep | perlin.c:99-106 | weight ≤ 0 gives val1, weight ≥ 1 gives val2, and the result is always between them |
| Noise.InterpolateGeneral | perlin.c:110-125 | modes 0, 1 and 2 clamp, hit both endpoints and stay between the values; any other mode gives 0 |
| Noise.InterpolateIsFade | perlin.c:110-125 | within [0,1], each mode moves its eased fraction (w, smoothstep or smootherstep of w) of the way from val1 to val2 |
| Noise.FadeBalance | perlin.c:93 | each easing stays in [0,1], and weighting u and 1 - u by it never exceeds 1/2 |
| Noise.UnitComponents | perlin.h:13 | the components of a unit gradient lie in [-1,1] |
| Noise.GradientDot | perlin.c:62-70 | the corner dot product is 0 at the corner itself and bounded by the taxicab length of the offset |
| Noise.CornersInRange | perlin.c:131-143 | a point is in the domain exactly when it is non-negative and all four corners of its cell exist in the grid |
| Noise.AssertedDomainAdmitsMissingCorner | perlin.c:131-135 | on a 2×2 grid the asserted range admits (1, 0), whose corner x1 = 2 is past the last row |
| Noise.InDomainIsAsserted | perlin.c:131-132 | every point of the corrected domain passes the source's asserts |
| Noise.PerlinValue | perlin.c:130-157 | 0 at every integer lattice point, and 0 for an unknown mode; requires the corrected domain |
| Noise.InterpolateBound | perlin.c:151-154 | an interpolation is bounded by the eased mix of its two values' bounds |
| Noise.CellBound | perlin.c:146-154 | interpolating corner values bounded by their taxicab distances, along x and then y, gives a value in [-1,1] |
| Noise.PerlinValueBounded | perlin.c:127-157 | every sample of a known mode lies in [-1,1] |
| Noise.RandomGradient | perlin.c:9-19 | the vector at a random angle has magnitude 1 |
| Noise.CreatePerlin | perlin.c:28-57 | succeeds exactly when every allocation does; on success records the sizes and holds at (i, j) the unit vector of the (i·zSize + j)-th random angle |
| Mesh.HeightAt | terrain.c:55 | computes hf(x, z)·height, the value stored at (x, z); it has no contract of its own, and Mesh.Terrain.PopulateHeights is proved to store it in every cell |
| Mesh.FaceNormals | terrain.c:64-89 | computes both triangle normals of a quad from its corner heights, as the face loop's body does; it has no contract of its own, and Mesh.FaceNormalsUp states that both are upward unit vectors for any corner heights |
| Mesh.FacePairAt | terrain.c:64-89 | both face normals of every quad of a surface are upward unit vectors |
| Mesh.StoredFacePair | terrain.c:64-89 | the two face normals of a quad computed from the stored heights; it has no contract of its own, and Mesh.Terrain.ComputeFaceNormals is proved to store it for every quad, while Mesh.StoredFacesUp and Mesh.StoredVertexNormalIsSurfaces relate it to the surface |
| Mesh.FirstTriangleCross | terrain.c:65-74 | the first triangle's raw cross product is (h10 - h00, -1, h01 - h00), non-zero, flipped to y = 1 |
| Mesh.SecondTriangleCross | terrain.c:80-84 | the second triangle's raw cross product is (h11 - h01, -1, h11 - h10), non-zero, flipped to y = 1 |
| Mesh.FaceNormalsUp | terrain.c:64-89 | both face normals are the normalisations of vectors with y = 1, hence upward unit vectors; neither assert of structures.c can fire |
| Mesh.FaceAt | terrain.c:44-49 | a face exists exactly when 0 ≤ x < xSize - 1 and 0 ≤ z < zSize - 1 |
| Mesh.FaceAtUp | terrain.c:44-49 | every existing face normal of a surface is an upward unit vector |
| Mesh.VertexFaces | terrain.c:98-103 | the six candidate faces of a vertex, in the source's order, always six slots; Mesh.VertexFacesUp and Mesh.VertexFaceCount state which are present and that they point up |
| Mesh.VertexFacesUp | terrain.c:98-103 | each of the six candidate faces of a vertex, when present, is an upward unit vector |
| Mesh.SumSome | terrain.c:105-111 | computes the sum of the present candidates; it has no contract of its own, and Mesh.SumSomeUp and Mesh.Terrain.AverageFaces state its properties |
| Mesh.CountSome | terrain.c:106-112 | computes the `faces` counter, the number of present candidates; it has no contract of its own, and Mesh.CountSix, Mesh.VertexFaceCount and Mesh.Terrain.AverageFaces state its properties |
| Mesh.SumSomeUp | terrain.c:105-114 | a sum of upward normals has y ≥ 0, and y > 0 once one is present |
| Mesh.CountSix | terrain.c:106-113 | the face count is the number of present candidates, one slot at a time |
| Mesh.VertexFaceCount | terrain.c:98-114 | 6 faces at an interior vertex, 1 at (0,0) and at (xSize-1, zSize-1), and at least 1 at every vertex of a grid at least 2×2 |
| Mesh.VertexSumUp | terrain.c:105-115 | every vertex's sum of faces points strictly up, so its normalisation is defined |
| Mesh.VertexNormal | terrain.c:95-115 | the normalised sum of the faces around a vertex is an upward unit vector, at every vertex of a grid at least 2×2 |
| Mesh.FaceNormalInBounds | terrain.c:44-49 | returns a face exactly in bounds, and then the stored first or second normal; never reads outside the face grid |
| Mesh.StoredVertexFaces | terrain.c:98-103 | the six candidate stored faces of a vertex, read through getFaceNormalInBounds, always six slots; Mesh.StoredSumUp states that their sum points up |
| Mesh.StoredSumUp | terrain.c:105-114 | over upward stored faces, every vertex's sum points strictly up |
| Mesh.StoredVertexNormal | terrain.c:95-115 | over upward stored faces, the normalised sum at every vertex of a grid at least 2×2 is an upward unit vector |
| Mesh.StoredVertexNormalIsSurfaces | terrain.c:93-117 | face normals stored from a surface point up, and the vertex normal averaged from them is that surface's vertex normal |
| Mesh.StoredFacesUp | terrain.c:62-91 | face normals stored from a surface all point up |
| Mesh.LoopBoundsSquareOnly | terrain.c:62-94 | the face loop as written visits exactly the quads, and the vertex loop exactly the vertices, if and only if xSize == zSize |
| Mesh.LoopBoundsCounterexample | terrain.c:62-94 | on a 2×3 grid the face loop visits quad (1,0), whose corner x+1 = 2 is past the last row, and the vertex loop never reaches z = 2 |
| Mesh.Terrain.constructor | terrain.c:14-42 | records the sizes and height, clears both flags, and allocates both grids as xSize × zSize |
| Mesh.Terrain.Populate | terrain.c:52-119 | every height becomes hf(x, z)·height and every normal the vertex normal of that surface (loop bounds corrected) |
| Mesh.Terrain.PopulateHeights | terrain.c:53-57 | every cell's height is hf(x, z)·height; none is left unset |
| Mesh.Terrain.ComputeFaceNormals | terrain.c:59-91 | a fresh (xSize-1) × (zSize-1) grid holding both triangle normals of each quad, computed from the stored heights |
| Mesh.Terrain.PopulateNormals | terrain.c:93-117 | every vertex normal is the normalised sum of its in-bounds stored faces |
| Mesh.Terrain.AverageFaces | terrain.c:95-115 | the accumulated normal of the six candidates, summed and counted in order, then normalised, is the averaged vertex normal |
| Scene.SimplePoint | main.c:278 | computes simple_perlin's sample point (0.05·x·100/size, 0.05·z·100/size); it has no contract of its own, and Scene.SimplePointScale and Scene.SimpleDomain state its properties |
| Scene.SimplePointScale | main.c:278 | simple_perlin samples grid position x at 5x / size |
| Scene.SimplePerlin | main.c:277-280 | 0 wherever the sample point is a lattice point, and never larger in magnitude than size / 100 |
| Scene.SizeScaled | main.c:279 | a noise value in [-1,1] times size / 100 is at most size / 100 in magnitude |
| Scene.SimpleDomain | main.c:277-280 | every grid position of a size × size terrain samples inside the noise domain exactly when size > 5 |
| Scene.ScaledBelow | main.c:278 | 5i / size lies in [0, size - 1) for every grid index i when size > 5 |
| Scene.ScaledNotBelow | main.c:278 | for size ≤ 5 the last grid index samples at or past size - 1 |
| Scene.DoublePerlin | main.c:282-290 | the sum 1.2·coarse + 0.4·fine lies in [-1.6, 1.6] and is 0 at the origin |
| Scene.CoarsePoint | main.c:283 | computes the coarse sample point (0.02x + 1, 0.02z + 1); it has no contract of its own, and Scene.DoubleDomain states when it lies in the noise domain |
| Scene.FinePoint | main.c:286 | computes the fine sample point (0.05x, 0.05z); it has no contract of its own, and Scene.DoubleDomain states when it lies in the noise domain |
| Scene.DoubleDomain | main.c:282-290 | both octaves sample inside the noise domain for every grid position exactly when size ≥ 3 |
| Scene.Quantise | main.c:293 | the result is a multiple of 1/30, at most h, and more than h - 1/30 |
| Scene.QuantiseIdempotent | main.c:292-298 | quantising twice equals quantising once |
| Scene.SimplePerlinBlocky | main.c:292-294 | within 1/30 below simple_perlin, and unchanged by a second quantisation |
| Scene.DoublePerlinBlocky | main.c:296-298 | within 1/30 below double_perlin, and unchanged by a second quantisation |
| Scene.Blend | main.c:315 | step 0 gives the old value, step 30 the new one, and every step in between lies between them |
| Scene.BlendOffset | main.c:315 | the blend moves the old value by step/30 of the difference to the new one |
| Scene.BlendNormal | main.c:321-329 | x and y lie between old and new like with like; z lies between the old x and the new z |
| Scene.BlendNormalFirstStep | main.c:327-329 | at step 0 the normal becomes (o.x, o.y, o.x), which equals the old normal only when o.z == o.x |
| Scene.BlendNormalFirstStepNorm | main.c:321-329 | at step 0 a unit normal gets squared magnitude 1 - o.z² + o.x², so it stays unit exactly when o.x² == o.z² |
| Scene.BlendHeights | main.c:313-317 | every cell with x < xSize-1 and z < zSize-1 gets the blend of the snapshots; the last row and column are untouched |
| Scene.BlendNormals | main.c:319-331 | every blend cell gets the channel-wise blend as written; the last row and column are untouched |
| Scene.Animate | main.c:310-335 | runs until 30 steps or the close flag. Blend cells then hold the last step's blend and all other cells are unchanged |
| Scene.Morph | main.c:300-341 | the new terrain and both its grids are fresh, so they share nothing with the live terrain; it has the same sizes and height and holds the new surface. The live terrain holds the last step's blend of the old and new surfaces on blend cells and its pre-morph values elsewhere. When it showed the old surface, every live height stays between old and new |

## Left out

- Rendering and windowing are not modelled: OpenGL/GLFW, the text overlay, and the `glfwPollEvents`/`display` calls between morph steps.
- The morph's window-close check (main.c:311) is the oracle `closing(step)`.
- Input callbacks and camera and mouse state (`createCamera`, `createMouse`) are user-interface code, outside this core.
- Command-line parsing in `main` is a `sscanf` over the arguments. Its size check prints a message but does not stop the program, so it enforces nothing.
- `rand`, `cosf`, `sinf` and `sqrtf` are not computed. They are parameters with the properties stated in `MathLib`.
- Floating-point rounding and the 0.01 tolerance of the tests are not modelled; all arithmetic is exact real arithmetic.
- Freeing memory is not modelled: `free2D`, `free_perlin`, `freeTerrain`, and the frees at the end of `morph` and `populateTerrain`.
- The faulty failure path of `create_perlin` at perlin.c:47-48 is not modelled: after freeing the grid, it calls `free_perlin` on a record whose grid pointer was never set. A failed vector allocation simply yields `None`.
- Noise.CreatePerlin: the vector grid is a value `seq<seq<Vector2>>`, not row pointers into the block built by `allocate2D`. `Structures.Allocate2D` models that layout on its own.
- Mesh.Terrain.Populate: the face-normal grid comes from `new`, not from `allocate2D` with one `malloc` per cell. The source ignores that call's return value (terrain.c:60), and the model does not reproduce a failure there.
- Mesh.Terrain.constructor: allocation failure is not modelled. The record's own `malloc` (terrain.c:16) is unchecked and dereferenced at once (terrain.c:18), while the grid allocations are asserted (terrain.c:26-38). The grids' initial contents are unspecified, as in the source.
- Mesh.Terrain.Populate: it visits the corrected loop bounds (see Findings). On square grids, the only ones the program creates, these equal the bounds as written.
- Mesh.Terrain.AverageFaces: the `faces` counter is kept in the loop invariant, but the source never uses it after the loop.
- Scene.SimplePerlin, Scene.DoublePerlin: a height function reads the global `perlin` and `size`; here they are explicit parameters.
- Scene.Morph: the noise field before and after `create_perlin` (main.c:304-305) appears as two height functions, `before` and `after`. Nothing requires `after` to come from a different field.
- Scene.Morph: the global `terrain` is reassigned to the new terrain after the loop (main.c:338). The model returns that terrain as `next` for the caller to install.
- Scene.Morph: the weaker "between old and new" guarantee covers heights only. Normals cannot be bounded that way, because the z channel mixes in the old x channel.

## Findings

| source | as written | input that shows it | evidently intended | confidence | as-written member | corrected member |
|---|---|---|---|---|---|---|
| perlin.c:131-132 | `get_perlin_value` asserts 0 ≤ v.x < xSize and 0 ≤ v.y < zSize, then reads corner x0 + 1 and y0 + 1 | a 2×2 grid and v = (1, 0): the asserts pass and x1 = 2 indexes past the last row | require v.x < xSize - 1 and v.y < zSize - 1, so that all four corners exist | not executed | Noise.AssertedDomainAdmitsMissingCorner | Noise.PerlinValue |
| terrain.c:62-94 | the face loop bounds x by zSize - 1, and the vertex loop bounds z by xSize | a 2×3 grid: the face loop visits quad (1, 0) and reads heights[2][0] past the last row; the vertex loop never computes the normals with z = 2 | bound x by xSize - 1 and z by zSize | not executed | Mesh.LoopBoundsCounterexample | Mesh.Terrain.Populate |
