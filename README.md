# Marching-cubes terrain core, modelled in Dafny

This project models the core of a voxel-terrain generator. The core has three parts.

- **Density-field generator** (`generateNoiseMap`).
  - For one chunk it builds a (CHUNK_SIZE+1)^3 grid of densities, indexed `[y][z][x]`.
  - Each density is three weighted noise octaves (weights 1, 0.5 and 0.25) plus a height bias.
  - A module-level cache, keyed by chunk key, keeps per chunk the octave values, the octave scales and a seed.
  - A later cached call recomputes only the octaves whose scale or seed changed.
- **Isosurface triangulator** (`generateMesh`).
  - It walks the grid in cubes of edge q = 2^levelOfDetail, with x outermost, then y, then z.
  - It classifies the eight corners of each cube into an 8-bit cube index.
  - It turns the case-table entry for that index into triangles, three edge ids at a time.
  - Each vertex is the edge's table coordinate. With interpolation on, the 0.5 components are replaced by the edge's interpolation factor.
  - The vertex is then scaled by q and translated to the cube origin.
- **Chunk key** (`getChunkKey`): `"x,y,z"` for integer chunk coordinates.

Files:

- `Constants.dfy`: CHUNK_SIZE = 32, the grid side 33, the default scales [50, 25, 10] and the surface level 0.
- `Options.dfy`: the `Option` datatype shared by the key parser and the call arguments.
- `Sequences.dfy`: two facts about sequence prefixes, used by the loops that build sequences by appending.
- `ChunkKey.dfy` (pure):
  - decimal rendering of integers and its parser, with the rendering's properties proved as lemmas;
  - splitting on `,`;
  - the key, with its round trip, injectivity and comma count.
- `MarchingCubes.dfy` (imperative):
  - `GenerateMesh` is three nested loops, split into `MarchSheet`, `MarchRow` and `MarchCube`.
  - Each is proved against the specification function `Mesh`.
  - `Mesh` is the concatenation, over the visited cube origins in visiting order, of each cube's triangles.
  - The lemmas about `Mesh` and its parts cover the visiting order, bounds, the cube index, triangle counts and placement.
- `NoiseMap.dfy` (imperative):
  - The class `NoiseMapGenerator` holds the cache as a field `noiseMapCache: map<string, Entry>`.
  - Its method `GenerateNoiseMap` updates the cache in place with the scale loop and the y/z/x loops of the source.
  - The method is proved against the functions `NoiseGrid` (its result) and `NextCache` (the new cache).
  - The lemmas about those two functions cover the reuse policy, the seed, the other chunks, and the coherence of cached values with fresh samples over a whole sequence of calls.

Where the lookup tables, the noise function and the environment come in:

- The three lookup tables of `./triangulation` are not part of this model. They are a parameter `Tables`, and only their shape is assumed (`TablesShape`):
  - 256 case entries, each a multiple of 3 long;
  - edge ids below 12;
  - corner ids below 8.
- The noise function of the simplex-noise library is a parameter `noise(seed, px, py, pz)`.
- The interpolation flag, the seed and the level of detail are explicit parameters.

Notes on what the code does, which the model follows:

- The cache stores the octave values already weighted: the second octave includes its factor 0.5 and the third its factor 0.25. A reused value is read back as stored, with no re-weighting.
- `generateMesh` emits every triangle its case table lists, with no guard that discards degenerate (all-zero) triangles. The model represents a chunk the surface does not cross as the empty triangle list `[]`.
- A cached call is guaranteed to return what an uncached call would while every cached call for a chunk uses one seed (`ReplayFresh`). A cached call whose seed differs from the stored one recomputes every octave and so also returns the fresh grid (`SeedMismatchFresh`). Going back to the entry's seed after another one reuses stale values (see Findings).

## Model

| member | source | states |
|---|---|---|
| ChunkKey.NatToDecimalCanonical | src/lib/utils.ts:4 | the decimal text of a natural number is non-empty, all digits, starts with '0' only for 0, is one digit exactly below 10, and parses back to the number |
| ChunkKey.IntToDecimalCanonical | src/lib/utils.ts:4 | the decimal text of an integer is the canonical one JavaScript prints: digits with a leading '-' exactly when the integer is negative, no leading zero except in "0", no "-0", and it parses back to the integer |
| ChunkKey.Key | src/lib/utils.ts:3-5 | getChunkKey: the three decimal fields joined by ','; what it satisfies is stated by KeySplit, KeyRoundTrip, KeyInjective and KeyCommaCount |
| ChunkKey.KeySplit | src/lib/utils.ts:3-5 | the key splits on ',' into exactly the three decimal fields x, y, z |
| ChunkKey.KeyRoundTrip | src/lib/utils.ts:4 | splitting a key on ',' and parsing the fields recovers (x, y, z) |
| ChunkKey.KeyInjective | src/lib/utils.ts:4 | two chunks have the same key if and only if they are the same integer triple |
| ChunkKey.KeyCommaCount | src/lib/utils.ts:4 | a key contains exactly two ',' characters |
| MarchingCubes.OriginsExact | src/lib/meshGenerator.ts:27-33 | when q divides CHUNK_SIZE, the visited origins are exactly the multiples of q in [0, CHUNK_SIZE) on each axis, in strictly increasing (x, y, z) order, so each is visited once |
| MarchingCubes.RowMember | src/lib/meshGenerator.ts:33 | an origin is among the first k passes of the z loop at (x, y) if and only if it has that x and y and its z is j*q for some j < k |
| MarchingCubes.SheetMember | src/lib/meshGenerator.ts:32-33 | an origin is among the first k passes of the y loop at x if and only if it has that x, its y is j*q for some j < k and its z is a visited z |
| MarchingCubes.BlockMember | src/lib/meshGenerator.ts:31-33 | an origin is among the first k passes of the x loop if and only if its x is i*q for some i < k and its y and z are visited values |
| MarchingCubes.BlockSorted | src/lib/meshGenerator.ts:31-33 | the origins the three loops visit are in strictly increasing (x, y, z) order |
| MarchingCubes.ValidOriginInChunk | src/lib/meshGenerator.ts:35-48 | every visited origin has all its corner reads, at offsets 0 and q on each axis, inside [0, CHUNK_SIZE] |
| MarchingCubes.Corners | src/lib/meshGenerator.ts:39-48 | a cube has eight corner densities, bottom face (x,z), (x+q,z), (x+q,z+q), (x,z+q), then the top face in the same order |
| MarchingCubes.CubeIndex | src/lib/meshGenerator.ts:50-55 | the cube index is below 256 and its bit n is set if and only if corner n lies below the surface level |
| MarchingCubes.ComputeCubeIndex | src/lib/meshGenerator.ts:51-55 | the loop adding 1 << n for each inside corner computes the cube index |
| MarchingCubes.CubeIndexExtremes | src/lib/meshGenerator.ts:57 | index 0 means no corner is inside and index 255 means every corner is inside |
| MarchingCubes.EdgeFactor | src/lib/meshGenerator.ts:78-94 | the interpolation factor is non-negative; on an edge whose corners straddle the surface it lies in [0, 1] and is where the linear density reaches the surface |
| MarchingCubes.InterpolatedVertex | src/lib/meshGenerator.ts:96-106 | with interpolation on and an edge whose corner densities straddle the surface, a vertex keeps each table component other than 0.5, and each 0.5 component becomes the factor in [0, 1] at which the density reaches the surface |
| MarchingCubes.PlaceInCube | src/lib/meshGenerator.ts:126-127 | scaling a local coordinate in [0,1]^3 by q and translating it to the origin lands it inside the cube [x, x+q] x [y, y+q] x [z, z+q] |
| MarchingCubes.CubeTrianglesShape | src/lib/meshGenerator.ts:57-131 | index 0 or 255 emits no triangle; any other index emits one triangle per three table entries, in table order; without interpolation the vertices are the edge-table coordinates, placed and in listed order |
| MarchingCubes.EdgeVertex | src/lib/meshGenerator.ts:67-119 | computes the vertex of one edge id: its table coordinate, or with interpolation on the coordinate with each 0.5 component replaced by the edge's factor |
| MarchingCubes.MarchEdges | src/lib/meshGenerator.ts:57-131 | the loop over the case entries, three at a time, returns one placed triangle per three entries, in table order |
| MarchingCubes.MarchCube | src/lib/meshGenerator.ts:34-131 | the body of the innermost loop returns exactly that cube's triangle list |
| MarchingCubes.MarchRow | src/lib/meshGenerator.ts:33-134 | the z loop returns the triangles of the cubes (x, y, z) in increasing z |
| MarchingCubes.MarchSheet | src/lib/meshGenerator.ts:32-135 | the y loop returns the triangles of every row at x in increasing y |
| MarchingCubes.GenerateMesh | src/lib/meshGenerator.ts:27-136 | the whole walk returns Mesh: each visited cube's triangles, concatenated in visiting order |
| MarchingCubes.ConsistentEdgesStraddle | src/lib/meshGenerator.ts:73-94 | with a case table whose listed edges join an inside corner to an outside one, every interpolated edge straddles the surface |
| MarchingCubes.ConsistentTablesNoFlatEdges | src/lib/meshGenerator.ts:78-94 | with such a table, interpolation never divides by zero for any grid |
| MarchingCubes.CubeTrianglesInCube | src/lib/meshGenerator.ts:96-127 | with such a table and edge coordinates in [0,1]^3, each triangle of a cube lies inside that cube |
| MarchingCubes.MeshInsideChunk | src/lib/meshGenerator.ts:31-128 | with such tables, every vertex of the mesh lies in [0, CHUNK_SIZE]^3 |
| NoiseMaps.Scales | src/lib/noiseMapGenerator.ts:22 | omitted scales default to [50, 25, 10]; the scales in force are three positive values |
| NoiseMaps.Changed | src/lib/noiseMapGenerator.ts:24-47 | an octave is marked unchanged only on a cached call whose chunk already has an entry |
| NoiseMaps.NoiseGrid | src/lib/noiseMapGenerator.ts:49-119 | the grid has CHUNK_SIZE+1 planes of CHUNK_SIZE+1 lines of CHUNK_SIZE+1 values, the shape the triangulator reads |
| NoiseMaps.Octaves | src/lib/noiseMapGenerator.ts:93-114 | the stored octave grid holds an octave triple for every corner |
| NoiseMaps.NextCache | src/lib/noiseMapGenerator.ts:26-114 | every entry of the cache after a call is well formed |
| NoiseMaps.ReusedFreshGrid | src/lib/noiseMapGenerator.ts:60-91 | if every reused octave equals a fresh sample, the call returns the fresh grid (octaves weighted 1, 0.5, 0.25 plus the height bias 0.1 times the world y) and stores fresh octaves |
| NoiseMaps.UncachedCall | src/lib/noiseMapGenerator.ts:24-36 | with caching off, every octave is fresh and the cache is unchanged |
| NoiseMaps.FirstCachedCall | src/lib/noiseMapGenerator.ts:27-114 | the first cached call for a chunk returns the fresh grid and creates an entry with the call's seed, its scales and the weighted fresh octave triple at every corner |
| NoiseMaps.ReuseIff | src/lib/noiseMapGenerator.ts:37-46 | on a chunk with an entry, octave i is reused if and only if its scale equals the stored scale and the seed equals the stored seed |
| NoiseMaps.SeedMismatchFresh | src/lib/noiseMapGenerator.ts:37-46 | a cached call whose seed differs from its chunk's stored seed recomputes all three octaves and returns the fresh grid |
| NoiseMaps.CachedCallOctaves | src/lib/noiseMapGenerator.ts:60-103 | on a cached call, the entry afterwards holds at every corner the old stored value of each reused octave and a fresh weighted sample of each changed one (that the result sums this triple is ResultSumsStoredOctaves) |
| NoiseMaps.ResultSumsStoredOctaves | src/lib/noiseMapGenerator.ts:87-103 | a cached call returns, at every corner, the sum of the triple left in the entry plus the height bias |
| NoiseMaps.SeedNeverChanges | src/lib/noiseMapGenerator.ts:29-46 | a call never changes an existing entry's seed; a cached call leaves the call's scales in it |
| NoiseMaps.OtherChunksUnchanged | src/lib/noiseMapGenerator.ts:26-44 | a call leaves the entry of every other chunk as it was, present or absent |
| NoiseMaps.CoherentGivesFresh | src/lib/noiseMapGenerator.ts:37-84 | against a cache whose stored values match fresh samples under the stored seed and scales, any call returns the fresh grid |
| NoiseMaps.InsertCoherent | src/lib/noiseMapGenerator.ts:26-29 | storing a coherent entry under a chunk's key keeps the whole cache coherent |
| NoiseMaps.NextCacheCoherent | src/lib/noiseMapGenerator.ts:29-46 | a call whose seed equals the stored seed of its chunk keeps the cache coherent |
| NoiseMaps.ReplayFresh | src/lib/noiseMapGenerator.ts:8-47 | over any sequence of calls in which every cached call for a chunk uses one seed, every call returns the fresh grid |
| NoiseMaps.SeedPerChunkNext | src/lib/noiseMapGenerator.ts:26-46 | after the first call of a sequence, the remaining calls still keep to one seed per chunk against the cache that call leaves |
| NoiseMaps.ReplayFromEmpty | src/lib/noiseMapGenerator.ts:8-47 | starting from the empty cache, the same holds |
| NoiseMaps.StaleSeedCounterexample | src/lib/noiseMapGenerator.ts:29-46 | as written, cached calls with seeds 1, 2, 1 on one chunk make the third call return 1.9 at corner (0,0,0) where the fresh value is 0.15 |
| NoiseMaps.NextCacheLastSeedCoherent | src/lib/noiseMapGenerator.ts:29-33 | corrected: recording the call's seed in the entry keeps the cache coherent for every call |
| NoiseMaps.ReplayLastSeedFresh | src/lib/noiseMapGenerator.ts:29-46 | corrected: over any sequence of calls, whatever their seeds, every call returns the fresh grid |
| NoiseMaps.CacheDuringAppend | src/lib/noiseMapGenerator.ts:110-114 | on a first cached call, appending plane y to the new entry advances the cache by exactly one plane |
| NoiseMaps.CacheDuringReplace | src/lib/noiseMapGenerator.ts:97-103 | on a later cached call, replacing plane y of the entry with its new octaves advances the cache by exactly one plane |
| NoiseMaps.NoiseMapGenerator.constructor | src/lib/noiseMapGenerator.ts:8 | the cache starts empty |
| NoiseMaps.NoiseMapGenerator.SampleOctaves | src/lib/noiseMapGenerator.ts:60-84 | each octave at a corner is sampled, weighted, where it changed, and is otherwise the stored value |
| NoiseMaps.NoiseMapGenerator.FillLine | src/lib/noiseMapGenerator.ts:55-109 | the x loop fills the line with each corner's density (its three octaves plus the height bias) and collects the octave triples |
| NoiseMaps.NoiseMapGenerator.FillPlane | src/lib/noiseMapGenerator.ts:51-113 | the z loop builds one plane of densities and of octave triples |
| NoiseMaps.NoiseMapGenerator.ReconcileLayers | src/lib/noiseMapGenerator.ts:36-47 | the scale loop marks octave i unchanged exactly when its scale and the seed match the entry; it overwrites the other scales and keeps the seed |
| NoiseMaps.NoiseMapGenerator.PrepareEntry | src/lib/noiseMapGenerator.ts:24-47 | a first cached call creates the placeholder entry; a cached call leaves the entry with the call's scales and its old seed and octaves; an uncached call leaves the cache as it was; the change flags are those of Changed |
| NoiseMaps.NoiseMapGenerator.GeneratePlane | src/lib/noiseMapGenerator.ts:50-116 | one pass of the y loop returns plane y of the grid and advances the cache by exactly that plane's octaves |
| NoiseMaps.NoiseMapGenerator.FillGrid | src/lib/noiseMapGenerator.ts:49-117 | the y loop returns every plane of the grid in order and leaves the entry holding the octaves of every plane |
| NoiseMaps.NoiseMapGenerator.GenerateNoiseMap | src/lib/noiseMapGenerator.ts:10-120 | returns NoiseGrid of the old cache and leaves NextCache of it, keeping every entry well formed |

## Left out

- THREE geometry objects, `mergeBufferGeometries`, `computeVertexNormals`, the material and the `wireframe` flag are not modelled. The mesh is the sequence of triangles in push order. These are foreign rendering calls.
- GenerateMesh: what `mergeBufferGeometries` (meshGenerator.ts:139) does with an empty geometry list is not modelled. When every visited cube index is 0 or 255, `geoms` is `[]`, and three.js's merge reads `geometries[0]` first, so the source fails there with a TypeError rather than yielding an empty mesh. The model returns `[]` for such a chunk. With noise values in [-1, 1], the octave sum is at most 1.75 in magnitude, while the height bias of noiseMapGenerator.ts:87-88 is at least 4.8 in magnitude once |chunkY| >= 2, so every such chunk is of this kind.
- The sessionStorage defaults of `interpolate` and `wireframe`, `getSeed` and the `seed || Math.random()` fallback are not modelled. The interpolation flag is a parameter, and a nonzero seed is required. These are I/O and randomness.
- `createNoise3D` from simplex-noise is not modelled: its body is not available, so noise is a deterministic function parameter.
- The contents of `./triangulation` are not part of this model. Only their shape is assumed. Properties that need a correct table (`ConsistentTables`, `EdgesInUnitCube`) state that as a hypothesis.
- Float32 rounding of the stored densities (`Float32Array`) and of the vertices is not modelled. Densities and coordinates are reals, and floating-point edge cases (NaN, Infinity, -0) are absent.
- JavaScript number-to-text conversion is modelled for integers in plain decimal only. Exponent notation at magnitudes of 1e21 and beyond, and non-integer chunk coordinates, are not modelled.
- `generateMesh`'s `chunkX`, `chunkY` and `chunkZ` arguments and `cubeCounter` are not modelled, because the source never uses their values.
- GenerateMesh: requires, with interpolation on, that no edge listed for a cube the loops visit has two equal corner densities. The source divides by their difference unguarded. Cubes the loops skip are not constrained. `ConsistentTablesNoFlatEdges` shows that a correct case table always meets this.
- GenerateNoiseMap: requires a nonzero seed and, when scales are supplied, exactly three positive ones. With a zero scale, the first cached call would read an empty cache entry.
- GenerateNoiseMap: the source writes a changed octave back into an existing entry cell by cell. The model collects each plane's triples and replaces that plane once its z loop ends. Each cell is read only in its own iteration, before its write, so the final cache is the same. Writes in between are not modelled.
- GenerateNoiseMap: the octave triples of each line are collected on every call. Only cached calls store them; on an uncached call the source does not build them.
- GenerateMesh: requires `levelOfDetail` to be a natural number with 2^levelOfDetail dividing CHUNK_SIZE, that is levelOfDetail <= 5. With levelOfDetail >= 6 (q = 64), or a negative or fractional one, the source reads a plane or line past the grid (or at a fractional index), gets `undefined` and throws a TypeError at the corner reads of meshGenerator.ts:39-48. When levelOfDetail is so negative (about -1075 or below, or -Infinity) that `Math.pow(2, levelOfDetail)` underflows to 0, the step q is 0: the loops of meshGenerator.ts:31-33 never advance, every corner read is `noiseMap[0][0][0]`, nothing throws and the source never terminates. The model's loops terminate because its `levelOfDetail` is a `nat`, which rules out both failures; neither is modelled.
- GenerateMesh: the three nested loops are three methods (`GenerateMesh`, `MarchSheet`, `MarchRow`), and the cube body, its edge loop and the vertex of one edge are `MarchCube`, `MarchEdges` and `EdgeVertex`. The loops and their order are the source's.
- GenerateNoiseMap: the set-up before the y loop, the y loop, its body, the scale loop, the z loop, the x loop and the octave sampling are the methods `PrepareEntry`, `FillGrid`, `GeneratePlane`, `ReconcileLayers`, `FillPlane`, `FillLine` and `SampleOctaves`.
- The cache is a field of a `NoiseMapGenerator` object rather than a module-level variable. Concurrent callers are not modelled.

## Findings

| source | as written | input that shows it | evidently intended | confidence | as-written member | corrected member |
|---|---|---|---|---|---|---|
| src/lib/noiseMapGenerator.ts:29-46 | the entry's seed is set only when the entry is created. Later calls compare their seed with it and recompute on a mismatch, but never record the new seed. | chunk (0,0,0), default scales, noise returning its seed, cached calls with seeds 1, 2, 1: the third call reuses the octaves computed under seed 2 and returns 1.9 at corner (0,0,0) instead of 0.15 | the entry records the seed its values were last computed with, so a reused octave always matches a fresh sample | not executed; high | NoiseMaps.StaleSeedCounterexample | NoiseMaps.NextCacheLastSeedCoherent |
