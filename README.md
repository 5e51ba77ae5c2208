# Chunk interpolators of Gaea, modelled in Dafny

Gaea generates terrain density for a 16×16 (×256 high) chunk. It does not call
its noise generators at every block. It samples them every 4 blocks and
interpolates in between. This project models the part that builds and queries
the interpolation lattice:

- `ChunkInterpolator3` (module `Chunk3D`) builds the 3D lattice.
  - It samples an 8×8 grid of base-phase biome generators over coarse
    positions −2..5 around the chunk.
  - It caches their noise in an 8×8×65 array. Layers 0..63 are written; layer
    64 keeps Java's default 0.0.
  - It fills a 4×64×4 lattice of 8-corner cells. Each corner is the mean of
    the four cross neighbours in the cache.
- `ChunkInterpolator2` (module `Chunk2D`) builds the 2D lattice.
  - It samples the same 8×8 grid.
  - It fills a 4×4 lattice of 4-corner cells. Each corner is 2.0 × the mean of
    the four neighbouring generators. All four are evaluated at the corner's
    own world column.
- `ChunkInterpolator` holds the query interface (module `ChunkInterpolator`,
  datatype `Instance`). Its `InterpolationType` enum picks one of the two
  constructions.
- Shared pieces:
  - Module `Lattice` has the cell records `Interpolator` and `Interpolator3`,
    the four-value blend, the cross of indices a blend reads, and the split of
    a coordinate into a cell index and a fraction.
  - Module `Java` has the Java integer semantics the code relies on. These are
    the 32-bit wrap of `chunk << 4`, and `/` and `%` that truncate toward
    zero. An out-of-range index becomes `ArrayIndexOutOfBounds`.
  - Module `Biome` models the foreign biome grid and generators as functions
    of their coordinates.

The constructors and `storeNoise` fill arrays in place. They are methods over
`array2`/`array3` fields with loop invariants. Each one is proved against
specification functions: `GridGenerator`, `StoredNoise`, `Corner` and `Cell`
in 3D, and `GridTerrain`, `Blend` and `Cell` in 2D. `biomeAvg` and the queries
are functions.

Facts about the code that the model makes explicit:

- Java's integer division truncates toward zero. So query coordinates −3..−1
  are not rejected. They select cell 0 with a negative fraction
  (`Lattice.LocateInCells`, the `GetNoise` contracts). Only coordinates ≤ −4
  or ≥ 16 (≥ 256 for the 3D height) raise the index exception. The source's
  comments say the coordinates are 0–15; the model follows the code.
- `storeNoise` fills only layers 0..63 of its 65-layer cache. So the four
  upper corners of every top-layer cell are 0. Take a generator that returns
  the height it is asked for: every corner below the top equals its height,
  but the top corners are 0 instead of 256 (`HeightField`).
- The corners of the chunk read coarse indices 1..7 only, and never the four
  corners of that square (`MarginCoverage`). So samples at index 0, and at
  (1,1), (1,7), (7,1) and (7,7), are taken but never used.

## Model

| member | source | states |
|---|---|---|
| `Java.ShiftLeft4` | src/main/java/org/polydev/gaea/math/ChunkInterpolator3.java:29-30 | `chunk << 4` is a Java int and a multiple of 16; it is congruent to 16·chunk modulo 2^32 (the 32-bit wrap), and equals 16·chunk whenever −2^27 ≤ chunk < 2^27 |
| `Java.ShiftLeft4Overflows` | src/main/java/org/polydev/gaea/math/ChunkInterpolator2.java:24-25 | the shift wraps: chunk 2^27 gets the origin −2^31 |
| `Java.Div4` | src/main/java/org/polydev/gaea/math/ChunkInterpolator2.java:57 | `c / 4` truncates toward zero: 4q ≤ c < 4q + 4 for c ≥ 0, and 4q − 4 < c ≤ 4q ≤ 0 for c < 0 |
| `Java.Rem4` | src/main/java/org/polydev/gaea/math/ChunkInterpolator3.java:95 | `c % 4` completes the division (c = 4·(c/4) + c%4) and takes the sign of c |
| `Lattice.Mean4` | src/main/java/org/polydev/gaea/math/ChunkInterpolator3.java:75-78 | the `/4D` mean lies between the least and the greatest of its four values, and four equal values give that value |
| `Lattice.Cross` | src/main/java/org/polydev/gaea/math/ChunkInterpolator2.java:44-47 | a blend reads four different indices, each one step from the centre (x+2, z+2), and never the centre itself |
| `Lattice.MarginCoverage` | src/main/java/org/polydev/gaea/math/ChunkInterpolator3.java:45-56 | the blends of all corners 0..4 × 0..4 read exactly the indices 1..7 × 1..7 without the four corners of that square: everything is in bounds and index 0 is never read |
| `Lattice.Locate` | src/main/java/org/polydev/gaea/math/ChunkInterpolator3.java:95 | index and fraction put the coordinate back together (c = 4·index + 4·frac); for c ≥ 0 the index is c/4 and the fraction is in [0,1); for c < 0 the fraction is in (−1,0] |
| `Lattice.LocateInCells` | src/main/java/org/polydev/gaea/math/ChunkInterpolator2.java:56-58 | the cell index is in 0..n−1 exactly when −4 < c < 4n |
| `Lattice.LocateBijective` | src/main/java/org/polydev/gaea/math/ChunkInterpolator2.java:57 | coordinate 4·index + k (k in 0..3) maps to that index with fraction k/4, and it is the only non-negative coordinate that does |
| `Chunk3D.ChunkInterpolator3.constructor` | src/main/java/org/polydev/gaea/math/ChunkInterpolator3.java:28-60 | the origins are `chunk << 4`; world, grid and noise are kept as given; the fresh 4×64×4 lattice holds `Cell(x, y, z)` at every position |
| `Chunk3D.ChunkInterpolator3.StoreNoise` | src/main/java/org/polydev/gaea/math/ChunkInterpolator3.java:62-72 | the fresh 8×8×65 cache holds generator (i, j)'s noise at (4(i−2)+xOrigin, 4y, 4(j−2)+zOrigin) for layers 0..63, and 0.0 at layer 64 |
| `Chunk3D.ChunkInterpolator3.FillLattice` | src/main/java/org/polydev/gaea/math/ChunkInterpolator3.java:45-59 | every one of the 4×64×4 cells is assigned the eight blends of its corners, in the argument order of `Interpolator3` |
| `Chunk3D.ChunkInterpolator3.LatticeFromCache` | src/main/java/org/polydev/gaea/math/ChunkInterpolator3.java:37-56 | a lattice filled from the cache of the sampled base-phase generators holds `Cell(x, y, z)` everywhere |
| `Chunk3D.ChunkInterpolator3.CellFromCache` | src/main/java/org/polydev/gaea/math/ChunkInterpolator3.java:48-56 | the cell the constructor builds from a full cache is the specified `Cell(x, y, z)` |
| `Chunk3D.ChunkInterpolator3.BiomeAvg` | src/main/java/org/polydev/gaea/math/ChunkInterpolator3.java:74-79 | reads in bounds whenever the four cross indices are; four equal cross values give that value |
| `Chunk3D.ChunkInterpolator3.BiomeAvgIsCorner` | src/main/java/org/polydev/gaea/math/ChunkInterpolator3.java:74-79 | every blend taken from a full cache, for corners 0..4 × 0..64 × 0..4, is `Corner(x, y, z)`: the mean of the four cross neighbours' stored noise at that layer |
| `Chunk3D.ChunkInterpolator3.BiomeAvgIgnoresCentre` | src/main/java/org/polydev/gaea/math/ChunkInterpolator3.java:75-78 | two caches that agree on the four cross neighbours give the same blend, whatever the centre holds |
| `Chunk3D.ChunkInterpolator3.GetNoise` | src/main/java/org/polydev/gaea/math/ChunkInterpolator3.java:93-96 | succeeds exactly for −4 < x, z < 16 and −4 < y < 256; then it gives the specified cell at the located indices with the located fractions; inside the chunk that is cell (x/4, y/4, z/4) with fractions in [0,1) |
| `Chunk3D.ChunkInterpolator3.GetNoise2` | src/main/java/org/polydev/gaea/math/ChunkInterpolator3.java:81-84 | equals the 3D query at y = 0: a ground-layer cell with height fraction 0, for −4 < x, z < 16 |
| `Chunk3D.ChunkInterpolator3.SharedFaces` | src/main/java/org/polydev/gaea/math/ChunkInterpolator3.java:48-56 | cells adjacent along x, y or z have equal values at the four corners of their shared face |
| `Chunk3D.ChunkInterpolator3.TopLayerUpperCornersZero` | src/main/java/org/polydev/gaea/math/ChunkInterpolator3.java:63-67 | the four upper corners of every cell in layer 63 are 0 |
| `Chunk3D.ChunkInterpolator3.HeightField` | src/main/java/org/polydev/gaea/math/ChunkInterpolator3.java:62-79 | with generators that return the height they are asked for, corner (x, y, z) equals 4y below the top and 0 at y = 64 |
| `Chunk2D.ChunkInterpolator2.constructor` | src/main/java/org/polydev/gaea/math/ChunkInterpolator2.java:23-41 | the origins are `chunk << 4`; the noise is kept; the fresh 4×4 lattice holds `Cell(x, z)` at every position |
| `Chunk2D.ChunkInterpolator2.FillLattice` | src/main/java/org/polydev/gaea/math/ChunkInterpolator2.java:33-40 | every one of the 4×4 cells is assigned 2.0 × the blends of its corners (x,z), (x+1,z), (x,z+1), (x+1,z+1) |
| `Chunk2D.ChunkInterpolator2.LatticeFromGrid` | src/main/java/org/polydev/gaea/math/ChunkInterpolator2.java:27-40 | a lattice filled from the sampled generators holds `Cell(x, z)` everywhere; each blend equals `Blend(x, z)` of the generators at (xOrigin+4(i−2), zOrigin+4(j−2)) |
| `Chunk2D.ChunkInterpolator2.BiomeAvg` | src/main/java/org/polydev/gaea/math/ChunkInterpolator2.java:43-48 | all four generators are evaluated at the corner's own column (4x+xOrigin, 4z+zOrigin); if the four are one generator, the blend is its noise there |
| `Chunk2D.ChunkInterpolator2.BiomeAvgIsBlend` | src/main/java/org/polydev/gaea/math/ChunkInterpolator2.java:43-48 | every blend taken from the sampled generators, for corners 0..4 × 0..4, is `Blend(x, z)`: the mean of the four cross neighbours' generators, all evaluated at the corner's own column |
| `Chunk2D.ChunkInterpolator2.GetNoise` | src/main/java/org/polydev/gaea/math/ChunkInterpolator2.java:56-58 | succeeds exactly for −4 < x, z < 16; then it gives the specified cell at the located indices with the located fractions; inside the chunk that is cell (x/4, z/4) with fractions in [0,1) |
| `Chunk2D.ChunkInterpolator2.GetNoise3` | src/main/java/org/polydev/gaea/math/ChunkInterpolator2.java:60-63 | the 3-coordinate query is the 2D query: it succeeds for −4 < x, z < 16 whatever y is |
| `Chunk2D.ChunkInterpolator2.HeightIgnored` | src/main/java/org/polydev/gaea/math/ChunkInterpolator2.java:61-62 | two queries that differ only in y give the same answer |
| `Chunk2D.ChunkInterpolator2.SharedEdges` | src/main/java/org/polydev/gaea/math/ChunkInterpolator2.java:35-38 | horizontally adjacent cells have equal values on their shared edge |
| `Chunk2D.ChunkInterpolator2.SharedGenerator` | src/main/java/org/polydev/gaea/math/ChunkInterpolator2.java:44-47 | if the four cross neighbours share one generator, the corner blend is that generator's noise at the corner's column |
| `Chunk2D.ChunkInterpolator2.ConstantTerrain` | src/main/java/org/polydev/gaea/math/ChunkInterpolator2.java:35-38 | if every generator returns c, every corner of every cell is 2c |
| `ChunkInterpolator.Instance.GetNoise2` | src/main/java/org/polydev/gaea/math/ChunkInterpolator.java:7 | the 2-coordinate query is the chosen interpolator's own: a 3D instance gives its query at y = 0 (cell at layer 0, height fraction 0), a 2D instance its 2D query; both succeed exactly for −4 < x, z < 16 |
| `ChunkInterpolator.Instance.GetNoise3` | src/main/java/org/polydev/gaea/math/ChunkInterpolator.java:9 | the 3-coordinate query is the chosen interpolator's own: a 3D instance gives its 3D query (y bounded to −4 < y < 256), a 2D instance its 2D query for every y |
| `ChunkInterpolator.GetInstance` | src/main/java/org/polydev/gaea/math/ChunkInterpolator.java:14-23 | `Trilinear` gives a fresh 3D interpolator and `Bilinear` a fresh 2D one; each is valid and built from the chunk coordinates, grid and noise as given; the choice is exhaustive, so no null result exists |

## Left out

- Interpolation arithmetic: `Interpolator.bilerp` and `Interpolator3.trilerp`
  are not part of this model. A query returns the selected cell and its
  fractions (`Lattice.Lookup`), which is what those methods receive.
- Floating point: `double`, `float` and the `(float)` casts are modelled as
  exact reals. Rounding of `/4D`, `* 2.0f` and `/ 4` is not modelled.
- Fractional query coordinates: the 3D queries take `double` in the source.
  The model takes integers, for which `(int) x` is x itself and `x % 4` is
  the integer remainder. The 2D queries take `byte`; the model widens them to
  `int`, which gives the same answers for every byte value.
- Java int overflow beyond the origin: `chunk << 4` wraps as in Java. The later
  world coordinates (`xOrigin + 4 * x`, `4 * y`) are computed without 32-bit
  wrap. They only differ for chunks within a few blocks of the int limit.
- Foreign collaborators: `BiomeGrid.getBiome(...).getGenerator()`,
  `Generator.getNoise`, `BiomeTerrain.getNoise`, `FastNoise`/`FastNoiseLite`
  and the Bukkit `World` are not part of this model. They are modelled as
  deterministic functions of their coordinates (`Biome.BiomeGrid`), or as
  opaque values passed through unchanged (the type parameters W and N).
  Exceptions thrown by them are not modelled.
- `GenerationPhase`: only `BASE` is used, so the grid's phase-aware lookup is
  modelled as `baseGeneratorAt`. The enum itself is not part of this model.
- Nested Java arrays (`Interpolator3[4][64][4]`, `double[8][8][65]`) become
  Dafny `array3`/`array2`. Row aliasing cannot occur in the source either,
  since the rows are never shared.
- The lattice loops of both constructors are stated as a separate method,
  `FillLattice`, which the constructor calls. The loop structure, bounds and
  order are those of the source.
- `ChunkInterpolator2` does not keep its grid. The model records it as a ghost
  field so that the lattice can be specified.
- Selector signatures: `getInstance` passes the world and a `FastNoiseLite` to
  a `ChunkInterpolator2` whose constructor takes neither. The model
  dispatches to the 2D construction with the chunk coordinates, grid and
  noise, and drops the world.
- Interface query signatures: `ChunkInterpolator` declares `getNoise(double,
  double)` and `getNoise(double, double, double)`
  (src/main/java/org/polydev/gaea/math/ChunkInterpolator.java:7-9).
  `ChunkInterpolator2` defines `getNoise(byte, byte)` and
  `getNoise(byte, int, byte)` instead, and the second carries `@Override`
  without matching an interface method. As written, the class does not
  implement the interface. The model sends the interface queries of a 2D
  instance to these byte methods, with integer coordinates.
- `Chunk3D.ChunkInterpolator3.BiomeAvg`: its contract states only the
  agreement case. That the value is the mean of the four cross neighbours
  (with the bounds of `Lattice.Mean4`) is stated through `BiomeAvgIsCorner`
  and `BiomeAvgIgnoresCentre`.
- `Chunk2D.ChunkInterpolator2.BiomeAvg`: its contract states only the
  agreement case. That the value is the mean of the four cross neighbours'
  generators is stated through `BiomeAvgIsBlend`.
- `CoordinatePair` in `ChunkInterpolator3.java` is unused. Its `hashCode`
  relies on Java's `String.hashCode`, so it is not part of this model.
- `SerializationUtil.java` is file I/O and Java object serialization. It is
  not part of this model.
