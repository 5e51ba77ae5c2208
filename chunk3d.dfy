/** `ChunkInterpolator3`: the 3D interpolator of one chunk. Construction samples
    an 8x8 grid of base-phase generators around the chunk, caches their noise
    every 4 blocks upward in an 8x8x65 array, and fills a 4x64x4 lattice of
    8-corner cells whose corners are four-neighbour blends of that cache. */
module Chunk3D {
  import opened Java
  import opened Biome
  import opened Lattice

  class ChunkInterpolator3<!W, !N> {
    const interpGrid: array3<Interpolator3>
    const grid: BiomeGrid<W, N>
    const noise: N
    const xOrigin: int
    const zOrigin: int
    const w: W

    /** The generator the constructor samples into `gridTemp[i][j]`: the
        base-phase generator of the column 4 * (i - 2), 4 * (j - 2) blocks
        from the chunk origin. */
    function GridGenerator(i: int, j: int): Generator<W, N> {
      grid.baseGeneratorAt(xOrigin + 4 * (i - 2), zOrigin + 4 * (j - 2))
    }

    /** Noise of generator g for coarse cell (i, j) at layer y, taken at the
        world point of that coarse cell and height 4 * y. */
    function NoiseAt(g: Generator<W, N>, i: int, j: int, y: int): real {
      g(noise, w, 4 * (i - 2) + xOrigin, 4 * y, 4 * (j - 2) + zOrigin)
    }

    /** What construction leaves in `noiseStorage[i][j][y]`: layers 0..63
        hold the sampled noise, layer 64 keeps Java's default 0.0. */
    function StoredNoise(i: int, j: int, y: int): real {
      if y < 64 then NoiseAt(GridGenerator(i, j), i, j, y) else 0.0
    }

    /** The blended value of lattice corner (x, y, z) */
    function Corner(x: int, y: int, z: int): real {
      Mean4(StoredNoise(x + 3, z + 2, y), StoredNoise(x + 1, z + 2, y),
            StoredNoise(x + 2, z + 3, y), StoredNoise(x + 2, z + 1, y))
    }

    /** The cell construction stores at lattice position (x, y, z) */
    function Cell(x: int, y: int, z: int): Interpolator3 {
      Interpolator3(
        Corner(x, y, z), Corner(x + 1, y, z), Corner(x, y + 1, z), Corner(x + 1, y + 1, z),
        Corner(x, y, z + 1), Corner(x + 1, y, z + 1), Corner(x, y + 1, z + 1), Corner(x + 1, y + 1, z + 1))
    }

    /** The lattice has its 4x64x4 shape and every cell holds its blends */
    ghost predicate Valid()
      reads interpGrid
    {
      interpGrid.Length0 == 4 && interpGrid.Length1 == 64 && interpGrid.Length2 == 4 &&
      forall x, y, z :: 0 <= x < 4 && 0 <= y < 64 && 0 <= z < 4 ==>
        interpGrid[x, y, z] == Cell(x, y, z)
    }

    /** The noise cache holds `StoredNoise` at every index */
    ghost predicate Caches(storage: array3<real>)
      reads storage
    {
      storage.Length0 == 8 && storage.Length1 == 8 && storage.Length2 == 65 &&
      forall i, j, y :: 0 <= i < 8 && 0 <= j < 8 && 0 <= y < 65 ==>
        storage[i, j, y] == StoredNoise(i, j, y)
    }

    constructor (w: W, chunkX: int, chunkZ: int, grid: BiomeGrid<W, N>, noise: N)
      requires IsInt(chunkX) && IsInt(chunkZ)
      ensures this.xOrigin == ShiftLeft4(chunkX) && this.zOrigin == ShiftLeft4(chunkZ)
      ensures this.grid == grid && this.noise == noise && this.w == w
      ensures fresh(interpGrid) && Valid()
    {
      xOrigin := ShiftLeft4(chunkX);
      zOrigin := ShiftLeft4(chunkZ);
      this.grid := grid;
      this.noise := noise;
      this.w := w;
      interpGrid := new Interpolator3[4, 64, 4];
      new;
      var gridTemp := new Generator<W, N>[8, 8];
      for x := -2 to 6
        invariant forall i, j :: 0 <= i < x + 2 && 0 <= j < 8 ==> gridTemp[i, j] == GridGenerator(i, j)
      {
        for z := -2 to 6
          invariant forall i, j :: 0 <= i < 8 && 0 <= j < 8 && (i < x + 2 || (i == x + 2 && j < z + 2)) ==>
            gridTemp[i, j] == GridGenerator(i, j)
        {
          gridTemp[x + 2, z + 2] := grid.baseGeneratorAt(xOrigin + x * 4, zOrigin + z * 4);
        }
      }
      var stor := StoreNoise(gridTemp);
      FillLattice(stor);
      LatticeFromCache(gridTemp, stor);
    }

    /** The lattice loops of the constructor: cell (x, y, z) gets the blends
        of its eight corners, x fastest, then y, then z. */
    method FillLattice(stor: array3<real>)
      requires stor.Length0 == 8 && stor.Length1 == 8 && stor.Length2 == 65
      requires interpGrid.Length0 == 4 && interpGrid.Length1 == 64 && interpGrid.Length2 == 4
      modifies interpGrid
      ensures forall x, y, z :: 0 <= x < 4 && 0 <= y < 64 && 0 <= z < 4 ==>
        interpGrid[x, y, z] == CellOf(x, y, z, stor)
    {
      for x := 0 to 4
        modifies interpGrid
        invariant forall a, b, c :: 0 <= a < x && 0 <= b < 64 && 0 <= c < 4 ==>
          interpGrid[a, b, c] == CellOf(a, b, c, stor)
      {
        for z := 0 to 4
          modifies interpGrid
          invariant forall a, b, c :: 0 <= a < 4 && 0 <= b < 64 && 0 <= c < 4 && (a < x || (a == x && c < z)) ==>
            interpGrid[a, b, c] == CellOf(a, b, c, stor)
        {
          for y := 0 to 64
            modifies interpGrid
            invariant forall a, b, c :: 0 <= a < 4 && 0 <= b < 64 && 0 <= c < 4 && (a < x || (a == x && c < z)) ==>
              interpGrid[a, b, c] == CellOf(a, b, c, stor)
            invariant forall b :: 0 <= b < y ==> interpGrid[x, b, z] == CellOf(x, b, z, stor)
          {
            interpGrid[x, y, z] := CellOf(x, y, z, stor);
          }
        }
      }
    }

    /** The cell the constructor builds at (x, y, z) from a noise cache */
    function CellOf(x: int, y: int, z: int, storage: array3<real>): Interpolator3
      reads storage
      requires storage.Length0 == 8 && storage.Length1 == 8 && storage.Length2 == 65
      requires 0 <= x < 4 && 0 <= y < 64 && 0 <= z < 4
    {
      Interpolator3(
        BiomeAvg(x, y, z, storage), BiomeAvg(x + 1, y, z, storage),
        BiomeAvg(x, y + 1, z, storage), BiomeAvg(x + 1, y + 1, z, storage),
        BiomeAvg(x, y, z + 1, storage), BiomeAvg(x + 1, y, z + 1, storage),
        BiomeAvg(x, y + 1, z + 1, storage), BiomeAvg(x + 1, y + 1, z + 1, storage))
    }

    /** A lattice built from the cache of the sampled generators is the
        specified one. */
    lemma LatticeFromCache(gens: array2<Generator<W, N>>, storage: array3<real>)
      requires gens.Length0 == 8 && gens.Length1 == 8
      requires forall i, j :: 0 <= i < 8 && 0 <= j < 8 ==> gens[i, j] == GridGenerator(i, j)
      requires storage.Length0 == 8 && storage.Length1 == 8 && storage.Length2 == 65
      requires forall i, j, y :: 0 <= i < 8 && 0 <= j < 8 && 0 <= y < 65 ==>
        storage[i, j, y] == if y < 64 then NoiseAt(gens[i, j], i, j, y) else 0.0
      requires interpGrid.Length0 == 4 && interpGrid.Length1 == 64 && interpGrid.Length2 == 4
      requires forall x, y, z :: 0 <= x < 4 && 0 <= y < 64 && 0 <= z < 4 ==>
        interpGrid[x, y, z] == CellOf(x, y, z, storage)
      ensures Valid()
    {
      assert Caches(storage) by {
        forall i, j, y | 0 <= i < 8 && 0 <= j < 8 && 0 <= y < 65
          ensures storage[i, j, y] == StoredNoise(i, j, y)
        {
          if y < 64 {
            assert gens[i, j] == GridGenerator(i, j);
          }
        }
      }
      forall x, y, z | 0 <= x < 4 && 0 <= y < 64 && 0 <= z < 4
        ensures interpGrid[x, y, z] == Cell(x, y, z)
      {
        CellFromCache(x, y, z, storage);
      }
    }

    /** `storeNoise`: caches each sampled generator's noise at layers 0..63
        and leaves layer 64 at 0.0. */
    method StoreNoise(gens: array2<Generator<W, N>>) returns (noiseStorage: array3<real>)
      requires gens.Length0 == 8 && gens.Length1 == 8
      ensures fresh(noiseStorage)
      ensures noiseStorage.Length0 == 8 && noiseStorage.Length1 == 8 && noiseStorage.Length2 == 65
      ensures forall i, j, y :: 0 <= i < 8 && 0 <= j < 8 && 0 <= y < 65 ==>
        noiseStorage[i, j, y] == if y < 64 then NoiseAt(gens[i, j], i, j, y) else 0.0
    {
      noiseStorage := new real[8, 8, 65]((i, j, y) => 0.0);
      for x := -2 to 6
        invariant forall i, j, y :: 0 <= i < 8 && 0 <= j < 8 && 0 <= y < 65 ==>
          noiseStorage[i, j, y] == if i < x + 2 && y < 64 then NoiseAt(gens[i, j], i, j, y) else 0.0
      {
        for z := -2 to 6
          invariant forall i, j, y :: 0 <= i < 8 && 0 <= j < 8 && 0 <= y < 65 ==>
            noiseStorage[i, j, y] ==
              if (i < x + 2 || (i == x + 2 && j < z + 2)) && y < 64 then NoiseAt(gens[i, j], i, j, y) else 0.0
        {
          for y := 0 to 64
            invariant forall i, j, l :: 0 <= i < 8 && 0 <= j < 8 && 0 <= l < 65 ==>
              noiseStorage[i, j, l] ==
                if (i < x + 2 || (i == x + 2 && j < z + 2) || (i == x + 2 && j == z + 2 && l < y)) && l < 64
                then NoiseAt(gens[i, j], i, j, l) else 0.0
          {
            noiseStorage[x + 2, z + 2, y] := gens[x + 2, z + 2](noise, w, x * 4 + xOrigin, y * 4, z * 4 + zOrigin);
          }
        }
      }
    }

    /** `biomeAvg`: the blend of the four cached values around (x + 2, z + 2)
        at layer y (the indices `Cross(x, z)`); four equal values blend to
        their common value. */
    function BiomeAvg(x: int, y: int, z: int, storage: array3<real>): (r: real)
      reads storage
      requires 0 <= x + 1 && x + 3 < storage.Length0
      requires 0 <= z + 1 && z + 3 < storage.Length1
      requires 0 <= y < storage.Length2
      ensures storage[x + 3, z + 2, y] == storage[x + 1, z + 2, y] == storage[x + 2, z + 3, y] == storage[x + 2, z + 1, y]
        ==> r == storage[x + 2, z + 1, y]
    {
      Mean4(storage[x + 3, z + 2, y], storage[x + 1, z + 2, y],
            storage[x + 2, z + 3, y], storage[x + 2, z + 1, y])
    }

    /** The blend reads the four cross neighbours only: two caches that agree
        on them give the same blend, whatever the centre holds. */
    lemma BiomeAvgIgnoresCentre(x: int, y: int, z: int, s1: array3<real>, s2: array3<real>)
      requires 0 <= x + 1 && x + 3 < s1.Length0 && x + 3 < s2.Length0
      requires 0 <= z + 1 && z + 3 < s1.Length1 && z + 3 < s2.Length1
      requires 0 <= y < s1.Length2 && y < s2.Length2
      requires forall k :: 0 <= k < 4 ==> s1[Cross(x, z)[k].0, Cross(x, z)[k].1, y] == s2[Cross(x, z)[k].0, Cross(x, z)[k].1, y]
      ensures BiomeAvg(x, y, z, s1) == BiomeAvg(x, y, z, s2)
    {
      assert Cross(x, z)[0] == (x + 3, z + 2) && Cross(x, z)[1] == (x + 1, z + 2);
      assert Cross(x, z)[2] == (x + 2, z + 3) && Cross(x, z)[3] == (x + 2, z + 1);
    }

    /** The eight blends the constructor computes from a full cache are the
        corners of `Cell(x, y, z)`. */
    lemma CellFromCache(x: int, y: int, z: int, storage: array3<real>)
      requires Caches(storage)
      requires 0 <= x < 4 && 0 <= y < 64 && 0 <= z < 4
      ensures CellOf(x, y, z, storage) == Cell(x, y, z)
    {
    }

    /** Every blend the constructor takes from a full cache is the specified
        corner: the mean of the four cross neighbours' noise at that layer. */
    lemma BiomeAvgIsCorner(storage: array3<real>)
      requires Caches(storage)
      ensures forall x, y, z :: 0 <= x <= 4 && 0 <= y <= 64 && 0 <= z <= 4 ==>
        BiomeAvg(x, y, z, storage) == Corner(x, y, z)
    {
      forall x, y, z | 0 <= x <= 4 && 0 <= y <= 64 && 0 <= z <= 4
        ensures BiomeAvg(x, y, z, storage) == Corner(x, y, z)
      {
        assert storage[x + 3, z + 2, y] == StoredNoise(x + 3, z + 2, y);
        assert storage[x + 1, z + 2, y] == StoredNoise(x + 1, z + 2, y);
        assert storage[x + 2, z + 3, y] == StoredNoise(x + 2, z + 3, y);
        assert storage[x + 2, z + 1, y] == StoredNoise(x + 2, z + 1, y);
      }
    }

    /** `getNoise(x, y, z)` for integer coordinates: the cell at
        (x / 4, y / 4, z / 4) with fractions (c % 4) / 4, in Java arithmetic.
        Coordinates -3..-1 still land in cell 0 (with a negative fraction);
        anything else outside the chunk raises the index exception. */
    function GetNoise(x: int, y: int, z: int): (r: Outcome<Lookup>)
      reads interpGrid
      requires Valid()
      ensures r.Ok? <==> -4 < x < 16 && -4 < y < 256 && -4 < z < 16
      ensures r.Ok? ==>
        r.value.Trilerp? &&
        r.value.cell3 == Cell(Locate(x).index, Locate(y).index, Locate(z).index) &&
        r.value.tx == Locate(x).frac && r.value.ty == Locate(y).frac && r.value.tz == Locate(z).frac
      ensures 0 <= x < 16 && 0 <= y < 256 && 0 <= z < 16 ==>
        r.Ok? && r.value.cell3 == Cell(x / 4, y / 4, z / 4) &&
        0.0 <= r.value.tx < 1.0 && 0.0 <= r.value.ty < 1.0 && 0.0 <= r.value.tz < 1.0
    {
      var ax, ay, az := Locate(x), Locate(y), Locate(z);
      LocateInCells(x, 4);
      LocateInCells(y, 64);
      LocateInCells(z, 4);
      if 0 <= ax.index < 4 && 0 <= ay.index < 64 && 0 <= az.index < 4 then
        Ok(Trilerp(interpGrid[ax.index, ay.index, az.index], ax.frac, ay.frac, az.frac))
      else
        ArrayIndexOutOfBounds
    }

    /** `getNoise(x, z)`: the 3D query on the ground layer y = 0 */
    function GetNoise2(x: int, z: int): (r: Outcome<Lookup>)
      reads interpGrid
      requires Valid()
      ensures r == GetNoise(x, 0, z)
      ensures r.Ok? <==> -4 < x < 16 && -4 < z < 16
      ensures r.Ok? ==> r.value.cell3 == Cell(Locate(x).index, 0, Locate(z).index) && r.value.ty == 0.0
    {
      GetNoise(x, 0, z)
    }

    /** Adjacent cells agree on the face they share. */
    lemma SharedFaces(x: int, y: int, z: int)
      ensures var c, n := Cell(x, y, z), Cell(x + 1, y, z);
        c.c100 == n.c000 && c.c110 == n.c010 && c.c101 == n.c001 && c.c111 == n.c011
      ensures var c, n := Cell(x, y, z), Cell(x, y + 1, z);
        c.c010 == n.c000 && c.c110 == n.c100 && c.c011 == n.c001 && c.c111 == n.c101
      ensures var c, n := Cell(x, y, z), Cell(x, y, z + 1);
        c.c001 == n.c000 && c.c101 == n.c100 && c.c011 == n.c010 && c.c111 == n.c110
    {
    }

    /** The four upper corners of every top-layer cell blend only the
        unwritten layer 64, so they are 0. */
    lemma TopLayerUpperCornersZero(x: int, z: int)
      ensures var c := Cell(x, 63, z);
        c.c010 == 0.0 && c.c110 == 0.0 && c.c011 == 0.0 && c.c111 == 0.0
    {
    }

    /** A generator that answers with the height it is asked about: every
        lattice corner below the top equals its height 4 * y, while the top
        corners (y = 64) read the unwritten layer and are 0 instead of 256. */
    lemma HeightField(x: int, y: int, z: int)
      requires forall px, pz, qx, qy, qz :: grid.baseGeneratorAt(px, pz)(noise, w, qx, qy, qz) == qy as real
      requires 0 <= y <= 64
      ensures Corner(x, y, z) == if y < 64 then 4.0 * y as real else 0.0
    {
    }
  }
}
