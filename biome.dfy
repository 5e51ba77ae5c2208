/** The collaborators the interpolators call but do not own. The model treats
    each as a deterministic function of its coordinates: a biome's generator is
    represented by its noise function, and the world and the noise source are
    opaque values (type parameters W and N) that are only passed along. */
module Biome {

  /** `Generator.getNoise(noise, world, x, y, z)` of one 3D biome generator */
  type Generator<!W, !N> = (N, W, int, int, int) -> real

  /** `BiomeTerrain.getNoise(noise, x, z)` of one 2D biome generator */
  type BiomeTerrain<!N> = (N, int, int) -> real

  /** A `BiomeGrid`: the generator of the biome at a world column.
      `baseGeneratorAt(x, z)` is `getBiome(x, z, GenerationPhase.BASE).getGenerator()`,
      `terrainAt(x, z)` is `getBiome(x, z).getGenerator()`. */
  datatype BiomeGrid<!W, !N> = BiomeGrid(
    baseGeneratorAt: (int, int) -> Generator<W, N>,
    terrainAt: (int, int) -> BiomeTerrain<N>)
}
