/** `ChunkInterpolator2`: the 2D interpolator of one chunk. Construction samples
    an 8x8 grid of biome generators around the chunk and fills a 4x4 lattice of
    4-corner cells; each corner is twice the blend of the four neighbouring
    generators, all evaluated at the corner's own world column. */
module Chunk2D {
  import opened Java
  import opened Biome
  import opened Lattice

  class ChunkInterpolator2<!W, !N> {
    const interpGrid: array2<Interpolator>
    const xOrigin: int
    const zOrigin: int
    const noise: N
    /** The grid the constructor was given; the source does not keep it. */
    ghost const grid: BiomeGrid<W, N>

    /** The generator the constructor samples into `gridTemp[i][j]`: that of
        the biome 4 * (i - 2), 4 * (j - 2) blocks from the chunk origin. */
    ghost function GridTerrain(i: int, j: int): BiomeTerrain<N> {
      grid.terrainAt(xOrigin + 4 * (i - 2), zOrigin + 4 * (j - 2))
    }

    /** The world column of lattice corner (x, z) */
    function CornerX(x: int): int { 4 * x + xOrigin }
    function CornerZ(z: int): int { 4 * z + zOrigin }

    /** The blend at lattice corner (x, z): the four cross neighbours'
        generators, each evaluated at the corner's own world column. */
    ghost function Blend(x: int, z: int): real {
      Mean4(GridTerrain(x + 3, z + 2)(noise, CornerX(x), CornerZ(z)),
            GridTerrain(x + 1, z + 2)(noise, CornerX(x), CornerZ(z)),
            GridTerrain(x + 2, z + 3)(noise, CornerX(x), CornerZ(z)),
            GridTerrain(x + 2, z + 1)(noise, CornerX(x), CornerZ(z)))
    }

    /** The cell construction stores at lattice position (x, z) */
    ghost function Cell(x: int, z: int): Interpolator {
      Interpolator(2.0 * Blend(x, z), 2.0 * Blend(x + 1, z), 2.0 * Blend(x, z + 1), 2.0 * Blend(x + 1, z + 1))
    }

    /** The lattice has its 4x4 shape and every cell holds its blends */
    ghost predicate Valid()
      reads interpGrid
    {
      interpGrid.Length0 == 4 && interpGrid.Length1 == 4 &&
      forall x, z :: 0 <= x < 4 && 0 <= z < 4 ==> interpGrid[x, z] == Cell(x, z)
    }

    constructor (chunkX: int, chunkZ: int, grid: BiomeGrid<W, N>, noise: N)
      requires IsInt(chunkX) && IsInt(chunkZ)
      ensures this.xOrigin == ShiftLeft4(chunkX) && this.zOrigin == ShiftLeft4(chunkZ)
      ensures this.grid == grid && this.noise == noise
      ensures fresh(interpGrid) && Valid()
    {
      xOrigin := ShiftLeft4(chunkX);
      zOrigin := ShiftLeft4(chunkZ);
      this.noise := noise;
      this.grid := grid;
      interpGrid := new Interpolator[4, 4];
      new;
      var gridTemp := new BiomeTerrain<N>[8, 8];
      for x := -2 to 6
        invariant forall i, j :: 0 <= i < x + 2 && 0 <= j < 8 ==> gridTemp[i, j] == GridTerrain(i, j)
      {
        for z := -2 to 6
          invariant forall i, j :: 0 <= i < 8 && 0 <= j < 8 && (i < x + 2 || (i == x + 2 && j < z + 2)) ==>
            gridTemp[i, j] == GridTerrain(i, j)
        {
          gridTemp[x + 2, z + 2] := grid.terrainAt(xOrigin + x * 4, zOrigin + z * 4);
        }
      }
      FillLattice(gridTemp);
      LatticeFromGrid(gridTemp);
    }

    /** The lattice loops of the constructor: cell (x, z) gets twice the
        blends of its corners (x, z), (x+1, z), (x, z+1), (x+1, z+1). */
    method FillLattice(gridTemp: array2<BiomeTerrain<N>>)
      requires gridTemp.Length0 == 8 && gridTemp.Length1 == 8
      requires interpGrid.Length0 == 4 && interpGrid.Length1 == 4
      modifies interpGrid
      ensures forall x, z :: 0 <= x < 4 && 0 <= z < 4 ==> interpGrid[x, z] == CellOf(x, z, gridTemp)
    {
      for x := 0 to 4
        modifies interpGrid
        invariant forall a, c :: 0 <= a < x && 0 <= c < 4 ==> interpGrid[a, c] == CellOf(a, c, gridTemp)
      {
        for z := 0 to 4
          modifies interpGrid
          invariant forall a, c :: 0 <= a < x && 0 <= c < 4 ==> interpGrid[a, c] == CellOf(a, c, gridTemp)
          invariant forall c :: 0 <= c < z ==> interpGrid[x, c] == CellOf(x, c, gridTemp)
        {
          interpGrid[x, z] := CellOf(x, z, gridTemp);
        }
      }
    }

    /** The cell the constructor builds at (x, z) from the sampled generators */
    function CellOf(x: int, z: int, g: array2<BiomeTerrain<N>>): Interpolator
      reads g
      requires g.Length0 == 8 && g.Length1 == 8
      requires 0 <= x < 4 && 0 <= z < 4
    {
      Interpolator(
        BiomeAvg(x, z, g) * 2.0, BiomeAvg(x + 1, z, g) * 2.0,
        BiomeAvg(x, z + 1, g) * 2.0, BiomeAvg(x + 1, z + 1, g) * 2.0)
    }

    /** A lattice built from the sampled generators is the specified one. */
    lemma LatticeFromGrid(g: array2<BiomeTerrain<N>>)
      requires g.Length0 == 8 && g.Length1 == 8
      requires forall i, j :: 0 <= i < 8 && 0 <= j < 8 ==> g[i, j] == GridTerrain(i, j)
      requires interpGrid.Length0 == 4 && interpGrid.Length1 == 4
      requires forall x, z :: 0 <= x < 4 && 0 <= z < 4 ==> interpGrid[x, z] == CellOf(x, z, g)
      ensures Valid()
    {
      BiomeAvgIsBlend(g);
    }

    /** Every blend the constructor takes from the sampled generators is the
        specified one: the mean of the four cross neighbours' generators, all
        evaluated at the corner's own world column. */
    lemma BiomeAvgIsBlend(g: array2<BiomeTerrain<N>>)
      requires g.Length0 == 8 && g.Length1 == 8
      requires forall i, j :: 0 <= i < 8 && 0 <= j < 8 ==> g[i, j] == GridTerrain(i, j)
      ensures forall x, z :: 0 <= x <= 4 && 0 <= z <= 4 ==> BiomeAvg(x, z, g) == Blend(x, z)
    {
      forall x, z | 0 <= x <= 4 && 0 <= z <= 4
        ensures BiomeAvg(x, z, g) == Blend(x, z)
      {
        assert g[x + 3, z + 2] == GridTerrain(x + 3, z + 2);
        assert g[x + 1, z + 2] == GridTerrain(x + 1, z + 2);
        assert g[x + 2, z + 3] == GridTerrain(x + 2, z + 3);
        assert g[x + 2, z + 1] == GridTerrain(x + 2, z + 1);
      }
    }

    /** `biomeAvg`: the blend of the four generators around (x + 2, z + 2)
        (the indices `Cross(x, z)`), each evaluated at the corner's world
        column; when the four are one generator, the blend is that
        generator's noise at the corner. */
    function BiomeAvg(x: int, z: int, g: array2<BiomeTerrain<N>>): (r: real)
      reads g
      requires 0 <= x + 1 && x + 3 < g.Length0
      requires 0 <= z + 1 && z + 3 < g.Length1
      ensures g[x + 3, z + 2] == g[x + 1, z + 2] == g[x + 2, z + 3] == g[x + 2, z + 1] ==>
        r == g[x + 2, z + 1](noise, CornerX(x), CornerZ(z))
    {
      Mean4(g[x + 3, z + 2](noise, x * 4 + xOrigin, z * 4 + zOrigin),
            g[x + 1, z + 2](noise, x * 4 + xOrigin, z * 4 + zOrigin),
            g[x + 2, z + 3](noise, x * 4 + xOrigin, z * 4 + zOrigin),
            g[x + 2, z + 1](noise, x * 4 + xOrigin, z * 4 + zOrigin))
    }

    /** `getNoise(x, z)` (byte coordinates, widened here to int): the cell at
        (x / 4, z / 4) with fractions (c % 4) / 4, in Java arithmetic.
        Coordinates -3..-1 still land in cell 0 (with a negative fraction);
        anything else outside 0..15 raises the index exception. */
    function GetNoise(x: int, z: int): (r: Outcome<Lookup>)
      reads interpGrid
      requires Valid()
      ensures r.Ok? <==> -4 < x < 16 && -4 < z < 16
      ensures r.Ok? ==>
        r.value.Bilerp? &&
        r.value.cell2 == Cell(Locate(x).index, Locate(z).index) &&
        r.value.tx == Locate(x).frac && r.value.tz == Locate(z).frac
      ensures 0 <= x < 16 && 0 <= z < 16 ==>
        r.Ok? && r.value.cell2 == Cell(x / 4, z / 4) &&
        0.0 <= r.value.tx < 1.0 && 0.0 <= r.value.tz < 1.0
    {
      var ax, az := Locate(x), Locate(z);
      LocateInCells(x, 4);
      LocateInCells(z, 4);
      if 0 <= ax.index < 4 && 0 <= az.index < 4 then
        Ok(Bilerp(interpGrid[ax.index, az.index], ax.frac, az.frac))
      else
        ArrayIndexOutOfBounds
    }

    /** `getNoise(x, y, z)`: the height is ignored, every y gives the 2D query */
    function GetNoise3(x: int, y: int, z: int): (r: Outcome<Lookup>)
      reads interpGrid
      requires Valid()
      ensures r == GetNoise(x, z)
      ensures r.Ok? <==> -4 < x < 16 && -4 < z < 16
    {
      GetNoise(x, z)
    }

    /** Two queries that differ only in height agree. */
    lemma HeightIgnored(x: int, y1: int, y2: int, z: int)
      requires Valid()
      ensures GetNoise3(x, y1, z) == GetNoise3(x, y2, z)
    {
    }

    /** Horizontally adjacent cells agree on the edge they share. */
    lemma SharedEdges(x: int, z: int)
      ensures Cell(x, z).c10 == Cell(x + 1, z).c00 && Cell(x, z).c11 == Cell(x + 1, z).c01
      ensures Cell(x, z).c01 == Cell(x, z + 1).c00 && Cell(x, z).c11 == Cell(x, z + 1).c10
    {
    }

    /** Neighbours that share one generator blend to its noise at the corner */
    lemma SharedGenerator(x: int, z: int, t: BiomeTerrain<N>)
      requires GridTerrain(x + 3, z + 2) == GridTerrain(x + 1, z + 2) == t
      requires GridTerrain(x + 2, z + 3) == GridTerrain(x + 2, z + 1) == t
      ensures Blend(x, z) == t(noise, CornerX(x), CornerZ(z))
    {
    }

    /** A world whose generators all answer c: every corner of every cell is
        2c, the 2.0 factor of the construction. */
    lemma ConstantTerrain(c: real)
      requires forall px, pz, qx, qz :: grid.terrainAt(px, pz)(noise, qx, qz) == c
      ensures forall x, z :: Cell(x, z) == Interpolator(2.0 * c, 2.0 * c, 2.0 * c, 2.0 * c)
    {
    }
  }
}
