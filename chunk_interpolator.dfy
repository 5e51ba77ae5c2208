/** `ChunkInterpolator`: the interface both interpolators answer (a 2-coordinate
    and a 3-coordinate query) and `InterpolationType`, the two-valued choice
    that constructs one of them for a chunk. */
module ChunkInterpolator {
  import opened Java
  import opened Biome
  import opened Lattice
  import opened Chunk3D
  import opened Chunk2D

  datatype InterpolationType = Bilinear | Trilinear

  /** An object behind the `ChunkInterpolator` interface */
  datatype Instance<!W, !N> =
    | Instance3(ci3: ChunkInterpolator3<W, N>)
    | Instance2(ci2: ChunkInterpolator2<W, N>)
  {
    /** The lattice array the instance reads */
    function Repr(): set<object> {
      match this
      case Instance3(c) => {c.interpGrid}
      case Instance2(c) => {c.interpGrid}
    }

    ghost predicate Valid()
      reads Repr()
    {
      match this
      case Instance3(c) => c.Valid()
      case Instance2(c) => c.Valid()
    }

    /** `getNoise(x, z)`: both kinds answer exactly inside the chunk (with
        Java's truncating division letting -3..-1 through); the 3D one reads
        the ground layer. */
    function GetNoise2(x: int, z: int): (r: Outcome<Lookup>)
      reads Repr()
      requires Valid()
      ensures r.Ok? <==> -4 < x < 16 && -4 < z < 16
      ensures r.Ok? ==> (r.value.Trilerp? <==> Instance3?)
      ensures r.Ok? && Instance3? ==> r.value.ty == 0.0
      ensures Instance3? ==> r == ci3.GetNoise(x, 0, z)
      ensures r.Ok? && Instance3? ==> r.value.cell3 == ci3.Cell(Locate(x).index, 0, Locate(z).index)
      ensures Instance2? ==> r == ci2.GetNoise(x, z)
    {
      match this
      case Instance3(c) => c.GetNoise2(x, z)
      case Instance2(c) => c.GetNoise(x, z)
    }

    /** `getNoise(x, y, z)`: the 3D kind also bounds the height to the 64
        layers of 4 blocks; the 2D kind ignores it. */
    function GetNoise3(x: int, y: int, z: int): (r: Outcome<Lookup>)
      reads Repr()
      requires Valid()
      ensures Instance3? ==> (r.Ok? <==> -4 < x < 16 && -4 < y < 256 && -4 < z < 16)
      ensures Instance2? ==> (r.Ok? <==> -4 < x < 16 && -4 < z < 16)
      ensures r.Ok? ==> (r.value.Trilerp? <==> Instance3?)
      ensures Instance3? ==> r == ci3.GetNoise(x, y, z)
      ensures Instance2? ==> r == ci2.GetNoise(x, z)
    {
      match this
      case Instance3(c) => c.GetNoise(x, y, z)
      case Instance2(c) => c.GetNoise3(x, y, z)
    }
  }

  /** `getInstance`: the chosen interpolator, built from the arguments as
      given; the match is exhaustive, so no instance is ever missing. */
  method GetInstance<W, N>(t: InterpolationType, w: W, chunkX: int, chunkZ: int, grid: BiomeGrid<W, N>, noise: N)
    returns (r: Instance<W, N>)
    requires IsInt(chunkX) && IsInt(chunkZ)
    ensures fresh(r.Repr()) && r.Valid()
    ensures r.Instance3? <==> t == Trilinear
    ensures r.Instance3? ==>
      r.ci3.w == w && r.ci3.grid == grid && r.ci3.noise == noise &&
      r.ci3.xOrigin == ShiftLeft4(chunkX) && r.ci3.zOrigin == ShiftLeft4(chunkZ)
    ensures r.Instance2? ==>
      r.ci2.grid == grid && r.ci2.noise == noise &&
      r.ci2.xOrigin == ShiftLeft4(chunkX) && r.ci2.zOrigin == ShiftLeft4(chunkZ)
  {
    match t
    case Trilinear =>
      var c := new ChunkInterpolator3(w, chunkX, chunkZ, grid, noise);
      r := Instance3(c);
    case Bilinear =>
      var c := new ChunkInterpolator2(chunkX, chunkZ, grid, noise);
      r := Instance2(c);
  }
}
