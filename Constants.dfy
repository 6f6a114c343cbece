/** Shared constants of the terrain generator (src/lib/constants.ts). */
module Constants {
  /** Edge length of a chunk in cells. Must be divisible by every LOD stride in use. */
  const CHUNK_SIZE: nat := 32

  /** Number of grid corners along each axis of a chunk's density field. */
  const SIDE: nat := CHUNK_SIZE + 1

  /** Octave scales used when the caller gives none. */
  const DEFAULT_NOISE_LAYERS: seq<real> := [50.0, 25.0, 10.0]

  /** Density threshold: a corner below it is inside solid ground. */
  const SURFACE_LEVEL: real := 0.0
}
