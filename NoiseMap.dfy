/**
 * The density-field generator (src/lib/noiseMapGenerator.ts): a (CHUNK_SIZE+1)^3 grid, indexed
 * [y][z][x], of three weighted noise octaves plus a height bias, with a per-chunk cache of the
 * octave values that lets a later call skip the octaves whose scale and seed are unchanged.
 *
 * The noise function of the simplex-noise library is a parameter: a deterministic function of
 * the seed and the sample point.
 */
module NoiseMaps {
  import opened Constants
  import opened Options
  import opened ChunkKey
  import opened Sequences
  import MarchingCubes

  /** The multiplier of the world-space height that biases densities towards ground. */
  const HEIGHT_BIAS_MULTIPLIER: real := 0.1

  /** noise(seed, px, py, pz): the seeded 3-D noise function. */
  type Noise = (real, real, real, real) -> real

  /** A density grid, [y][z][x]. */
  type Grid = seq<seq<seq<real>>>

  /** Per-corner octave triples, [y][z][x][octave]. */
  type OctaveGrid = seq<seq<seq<seq<real>>>>
  type OctavePlane = seq<seq<seq<real>>>

  /** A cache entry: the octave values, the scales they were computed with, and a seed. */
  datatype Entry = Entry(noiseMap: OctaveGrid, noiseLayers: seq<real>, seed: real)

  type Cache = map<string, Entry>

  /** The arguments of one call of generateNoiseMap; layers None stands for the default scales. */
  datatype Call = Call(chunkX: int, chunkY: int, chunkZ: int, layers: Option<seq<real>>, seed: real, useCache: bool)

  predicate ValidLayers(layers: seq<real>) {
    |layers| == 3 && forall i | 0 <= i < 3 :: layers[i] > 0.0
  }

  /** What the model asks of a call: a supplied nonzero seed and, if given, three positive scales. */
  predicate ValidCall(c: Call) {
    c.seed != 0.0 && (c.layers.Some? ==> ValidLayers(c.layers.value))
  }

  /** The scales in force for a call. */
  function Scales(c: Call): (layers: seq<real>)
    requires ValidCall(c)
    ensures ValidLayers(layers)
    ensures c.layers.None? ==> layers == DEFAULT_NOISE_LAYERS
    ensures c.layers.Some? ==> layers == c.layers.value
  {
    if c.layers.None? then DEFAULT_NOISE_LAYERS else c.layers.value
  }

  function KeyOf(c: Call): string {
    Key(c.chunkX, c.chunkY, c.chunkZ)
  }

  predicate IsOctavePlane(p: OctavePlane) {
    && |p| == SIDE
    && (forall z | 0 <= z < SIDE :: |p[z]| == SIDE)
    && (forall z, x | 0 <= z < SIDE && 0 <= x < SIDE :: |p[z][x]| == 3)
  }

  predicate IsOctaveGrid(g: OctaveGrid) {
    |g| == SIDE && forall y | 0 <= y < SIDE :: IsOctavePlane(g[y])
  }

  predicate ValidEntry(e: Entry) {
    IsOctaveGrid(e.noiseMap) && |e.noiseLayers| == 3
  }

  predicate CacheValid(cache: Cache) {
    forall k <- cache :: ValidEntry(cache[k])
  }

  /** World-space coordinate of grid index v in the chunk with coordinate chunk. */
  function World(v: nat, chunk: int): real {
    v as real + (chunk as real - 0.5) * CHUNK_SIZE as real
  }

  function HeightBias(chunkY: int, y: nat): real {
    World(y, chunkY) * HEIGHT_BIAS_MULTIPLIER
  }

  /** Octave i sampled afresh: noise at the world point divided by the scale, weighted 1, 0.5, 0.25. */
  function FreshOctave(noise: Noise, seed: real, scale: real, cx: int, cy: int, cz: int, i: nat, x: nat, y: nat, z: nat): real
    requires scale > 0.0
  {
    var n := noise(seed, World(x, cx) / scale, World(y, cy) / scale, World(z, cz) / scale);
    if i == 0 then n else if i == 1 then 0.5 * n else 0.25 * n
  }

  /** The density of an uncached call: the reference the cache is meant to reproduce. */
  function FreshValue(noise: Noise, c: Call, x: nat, y: nat, z: nat): real
    requires ValidCall(c)
  {
    var s := Scales(c);
    FreshOctave(noise, c.seed, s[0], c.chunkX, c.chunkY, c.chunkZ, 0, x, y, z)
    + FreshOctave(noise, c.seed, s[1], c.chunkX, c.chunkY, c.chunkZ, 1, x, y, z)
    + FreshOctave(noise, c.seed, s[2], c.chunkX, c.chunkY, c.chunkZ, 2, x, y, z)
    + HeightBias(c.chunkY, y)
  }

  function FreshGrid(noise: Noise, c: Call): (g: Grid)
    requires ValidCall(c)
  {
    seq(SIDE, y requires 0 <= y < SIDE => seq(SIDE, z requires 0 <= z < SIDE =>
      seq(SIDE, x requires 0 <= x < SIDE => FreshValue(noise, c, x, y, z))))
  }

  // ---------------------------------------------------------------------------------------
  // One call against a cache: the entry it starts from and the octaves it recomputes.

  /** The entry the call works on: the cached one, or the placeholder a first cached call creates. */
  function Prior(cache: Cache, c: Call): Entry {
    if KeyOf(c) in cache then cache[KeyOf(c)] else Entry([], [0.0, 0.0, 0.0], c.seed)
  }

  /** noiseLayerChanged: octave i is recomputed unless caching is on and its scale and the seed match. */
  function Changed(cache: Cache, c: Call): (changed: seq<bool>)
    requires ValidCall(c)
    ensures |changed| == 3
    ensures forall i | 0 <= i < 3 :: !changed[i] ==> c.useCache && KeyOf(c) in cache
  {
    var p := Prior(cache, c);
    seq(3, i requires 0 <= i < 3 =>
      !(c.useCache && |p.noiseLayers| == 3 && Scales(c)[i] == p.noiseLayers[i] && c.seed == p.seed))
  }

  /** The stored plane y of the entry, where there is one. */
  function StoredPlane(e: Entry, y: nat): OctavePlane {
    if y < |e.noiseMap| then e.noiseMap[y] else []
  }

  /** The stored plane can be read wherever an octave is reused. */
  predicate Readable(changed: seq<bool>, plane: OctavePlane) {
    |changed| == 3 && ((!changed[0] || !changed[1] || !changed[2]) ==> IsOctavePlane(plane))
  }

  /** Octave i at (x, y, z): fresh if changed, else the stored value as it is. */
  function Octave(noise: Noise, c: Call, changed: seq<bool>, plane: OctavePlane, i: nat, x: nat, y: nat, z: nat): real
    requires ValidCall(c) && Readable(changed, plane) && i < 3 && x < SIDE && z < SIDE
  {
    if changed[i] then FreshOctave(noise, c.seed, Scales(c)[i], c.chunkX, c.chunkY, c.chunkZ, i, x, y, z)
    else plane[z][x][i]
  }

  function OctaveLine(noise: Noise, c: Call, changed: seq<bool>, plane: OctavePlane, y: nat, z: nat): (line: seq<seq<real>>)
    requires ValidCall(c) && Readable(changed, plane) && z < SIDE
    ensures |line| == SIDE && forall x | 0 <= x < SIDE :: |line[x]| == 3
  {
    seq(SIDE, x requires 0 <= x < SIDE =>
      [Octave(noise, c, changed, plane, 0, x, y, z), Octave(noise, c, changed, plane, 1, x, y, z),
       Octave(noise, c, changed, plane, 2, x, y, z)])
  }

  function ValueLine(noise: Noise, c: Call, changed: seq<bool>, plane: OctavePlane, y: nat, z: nat): (line: seq<real>)
    requires ValidCall(c) && Readable(changed, plane) && z < SIDE
    ensures |line| == SIDE
  {
    seq(SIDE, x requires 0 <= x < SIDE =>
      Octave(noise, c, changed, plane, 0, x, y, z) + Octave(noise, c, changed, plane, 1, x, y, z)
      + Octave(noise, c, changed, plane, 2, x, y, z) + HeightBias(c.chunkY, y))
  }

  function OctavePlaneOf(noise: Noise, c: Call, changed: seq<bool>, plane: OctavePlane, y: nat): (p: OctavePlane)
    requires ValidCall(c) && Readable(changed, plane)
    ensures IsOctavePlane(p)
  {
    seq(SIDE, z requires 0 <= z < SIDE => OctaveLine(noise, c, changed, plane, y, z))
  }

  function ValuePlane(noise: Noise, c: Call, changed: seq<bool>, plane: OctavePlane, y: nat): (p: seq<seq<real>>)
    requires ValidCall(c) && Readable(changed, plane)
    ensures |p| == SIDE && forall z | 0 <= z < SIDE :: |p[z]| == SIDE
  {
    seq(SIDE, z requires 0 <= z < SIDE => ValueLine(noise, c, changed, plane, y, z))
  }

  /** Every plane of the prior entry is readable where the call reuses an octave. */
  lemma PriorReadable(cache: Cache, c: Call, y: nat)
    requires CacheValid(cache) && ValidCall(c) && y < SIDE
    ensures Readable(Changed(cache, c), StoredPlane(Prior(cache, c), y))
  {
    var changed := Changed(cache, c);
    if !changed[0] || !changed[1] || !changed[2] {
      assert ValidEntry(cache[KeyOf(c)]);
    }
  }

  /** Plane y of the grid a call returns. */
  function GridPlane(cache: Cache, c: Call, noise: Noise, y: nat): (p: seq<seq<real>>)
    requires CacheValid(cache) && ValidCall(c) && y < SIDE
    ensures |p| == SIDE && forall z | 0 <= z < SIDE :: |p[z]| == SIDE
  {
    PriorReadable(cache, c, y);
    ValuePlane(noise, c, Changed(cache, c), StoredPlane(Prior(cache, c), y), y)
  }

  /** The grid a call returns. */
  function NoiseGrid(cache: Cache, c: Call, noise: Noise): (g: Grid)
    requires CacheValid(cache) && ValidCall(c)
    ensures MarchingCubes.IsNoiseMap(g)
  {
    seq(SIDE, y requires 0 <= y < SIDE => GridPlane(cache, c, noise, y))
  }

  /** The first y planes of the grid a call returns, as the y loop builds them. */
  function PlanesBelow(cache: Cache, c: Call, noise: Noise, y: nat): (g: Grid)
    requires CacheValid(cache) && ValidCall(c) && y <= SIDE
    ensures |g| == y
  {
    if y == 0 then [] else PlanesBelow(cache, c, noise, y - 1) + [GridPlane(cache, c, noise, y - 1)]
  }

  lemma {:induction false} PlanesBelowPrefix(cache: Cache, c: Call, noise: Noise, y: nat)
    requires CacheValid(cache) && ValidCall(c) && y <= SIDE
    ensures PlanesBelow(cache, c, noise, y) == NoiseGrid(cache, c, noise)[..y]
  {
    if y > 0 {
      var g := NoiseGrid(cache, c, noise);
      PlanesBelowPrefix(cache, c, noise, y - 1);
      assert g[y - 1] == GridPlane(cache, c, noise, y - 1);
      PrefixSnoc(g, y);
    }
  }

  /** Once every plane is built, the planes are the grid. */
  lemma PlanesBelowGrid(cache: Cache, c: Call, noise: Noise)
    requires CacheValid(cache) && ValidCall(c)
    ensures PlanesBelow(cache, c, noise, SIDE) == NoiseGrid(cache, c, noise)
  {
    PlanesBelowPrefix(cache, c, noise, SIDE);
    FullPrefix(NoiseGrid(cache, c, noise));
  }

  /** The octave triples the call leaves for its chunk. */
  function Octaves(cache: Cache, c: Call, noise: Noise): (g: OctaveGrid)
    requires CacheValid(cache) && ValidCall(c)
    ensures IsOctaveGrid(g)
  {
    seq(SIDE, y requires 0 <= y < SIDE =>
      PriorReadable(cache, c, y);
      OctavePlaneOf(noise, c, Changed(cache, c), StoredPlane(Prior(cache, c), y), y))
  }

  /** One octave of the call's triples, read through the comprehensions. */
  lemma OctavesAt(cache: Cache, c: Call, noise: Noise, y: nat, z: nat, x: nat, i: nat)
    requires CacheValid(cache) && ValidCall(c) && y < SIDE && z < SIDE && x < SIDE && i < 3
    ensures Readable(Changed(cache, c), StoredPlane(Prior(cache, c), y))
    ensures Octaves(cache, c, noise)[y][z][x][i]
            == Octave(noise, c, Changed(cache, c), StoredPlane(Prior(cache, c), y), i, x, y, z)
  {
    PriorReadable(cache, c, y);
  }

  /** The cache after a call, as the source writes it: the entry keeps the seed it was created with. */
  function NextCache(cache: Cache, c: Call, noise: Noise): (next: Cache)
    requires CacheValid(cache) && ValidCall(c)
    ensures CacheValid(next)
  {
    if !c.useCache then cache
    else cache[KeyOf(c) := Entry(Octaves(cache, c, noise), Scales(c), Prior(cache, c).seed)]
  }

  /** The cache after a call if the entry recorded the seed its values were last computed with. */
  function NextCacheLastSeed(cache: Cache, c: Call, noise: Noise): (next: Cache)
    requires CacheValid(cache) && ValidCall(c)
    ensures CacheValid(next)
  {
    if !c.useCache then cache
    else cache[KeyOf(c) := Entry(Octaves(cache, c, noise), Scales(c), c.seed)]
  }

  // ---------------------------------------------------------------------------------------
  // What one call does.

  /** Every octave the call reuses already holds the value a fresh sample would give. */
  predicate ReusedFresh(cache: Cache, c: Call, noise: Noise) {
    && CacheValid(cache) && ValidCall(c)
    && forall y, z, x, i | 0 <= y < SIDE && 0 <= z < SIDE && 0 <= x < SIDE && 0 <= i < 3 && !Changed(cache, c)[i] ::
         Prior(cache, c).noiseMap[y][z][x][i]
         == FreshOctave(noise, c.seed, Scales(c)[i], c.chunkX, c.chunkY, c.chunkZ, i, x, y, z)
  }

  /** Under ReusedFresh, every octave of plane y is the fresh one. */
  lemma ReusedFreshOctaves(cache: Cache, c: Call, noise: Noise, y: nat)
    requires ReusedFresh(cache, c, noise) && y < SIDE
    ensures Readable(Changed(cache, c), StoredPlane(Prior(cache, c), y))
    ensures forall z, x, i | 0 <= z < SIDE && 0 <= x < SIDE && 0 <= i < 3 ::
      Octave(noise, c, Changed(cache, c), StoredPlane(Prior(cache, c), y), i, x, y, z)
      == FreshOctave(noise, c.seed, Scales(c)[i], c.chunkX, c.chunkY, c.chunkZ, i, x, y, z)
  {
    PriorReadable(cache, c, y);
  }

  /** Under ReusedFresh, plane y of the call is plane y of the fresh grid, and so are its octaves. */
  lemma ReusedFreshPlane(cache: Cache, c: Call, noise: Noise, y: nat)
    requires ReusedFresh(cache, c, noise) && y < SIDE
    ensures NoiseGrid(cache, c, noise)[y] == FreshGrid(noise, c)[y]
    ensures forall z, x, i | 0 <= z < SIDE && 0 <= x < SIDE && 0 <= i < 3 ::
      Octaves(cache, c, noise)[y][z][x][i]
      == FreshOctave(noise, c.seed, Scales(c)[i], c.chunkX, c.chunkY, c.chunkZ, i, x, y, z)
  {
    ReusedFreshOctaves(cache, c, noise, y);
    var changed, plane := Changed(cache, c), StoredPlane(Prior(cache, c), y);
    var values, expected := ValuePlane(noise, c, changed, plane, y), FreshGrid(noise, c)[y];
    forall z | 0 <= z < SIDE ensures values[z] == expected[z] {
      assert forall x | 0 <= x < SIDE :: values[z][x] == expected[z][x];
    }
  }

  /** If every reused octave is fresh, the call returns the fresh grid and leaves fresh octaves. */
  lemma ReusedFreshGrid(cache: Cache, c: Call, noise: Noise)
    requires ReusedFresh(cache, c, noise)
    ensures NoiseGrid(cache, c, noise) == FreshGrid(noise, c)
    ensures forall y, z, x, i | 0 <= y < SIDE && 0 <= z < SIDE && 0 <= x < SIDE && 0 <= i < 3 ::
      Octaves(cache, c, noise)[y][z][x][i]
      == FreshOctave(noise, c.seed, Scales(c)[i], c.chunkX, c.chunkY, c.chunkZ, i, x, y, z)
  {
    forall y | 0 <= y < SIDE
      ensures NoiseGrid(cache, c, noise)[y] == FreshGrid(noise, c)[y]
      ensures forall z, x, i | 0 <= z < SIDE && 0 <= x < SIDE && 0 <= i < 3 ::
        Octaves(cache, c, noise)[y][z][x][i]
        == FreshOctave(noise, c.seed, Scales(c)[i], c.chunkX, c.chunkY, c.chunkZ, i, x, y, z)
    {
      ReusedFreshPlane(cache, c, noise, y);
    }
  }

  /** With caching off every octave is fresh and the cache is untouched. */
  lemma UncachedCall(cache: Cache, c: Call, noise: Noise)
    requires CacheValid(cache) && ValidCall(c) && !c.useCache
    ensures NextCache(cache, c, noise) == cache
    ensures NoiseGrid(cache, c, noise) == FreshGrid(noise, c)
  {
    ReusedFreshGrid(cache, c, noise);
  }

  /** The first cached call for a chunk stores the call's seed, its scales and the weighted fresh octaves. */
  lemma FirstCachedCall(cache: Cache, c: Call, noise: Noise)
    requires CacheValid(cache) && ValidCall(c) && c.useCache && KeyOf(c) !in cache
    ensures NoiseGrid(cache, c, noise) == FreshGrid(noise, c)
    ensures KeyOf(c) in NextCache(cache, c, noise)
    ensures NextCache(cache, c, noise)[KeyOf(c)].seed == c.seed
    ensures NextCache(cache, c, noise)[KeyOf(c)].noiseLayers == Scales(c)
    ensures forall y, z, x | 0 <= y < SIDE && 0 <= z < SIDE && 0 <= x < SIDE ::
      NextCache(cache, c, noise)[KeyOf(c)].noiseMap[y][z][x]
      == [FreshOctave(noise, c.seed, Scales(c)[0], c.chunkX, c.chunkY, c.chunkZ, 0, x, y, z),
          FreshOctave(noise, c.seed, Scales(c)[1], c.chunkX, c.chunkY, c.chunkZ, 1, x, y, z),
          FreshOctave(noise, c.seed, Scales(c)[2], c.chunkX, c.chunkY, c.chunkZ, 2, x, y, z)]
  {
    ReusedFreshGrid(cache, c, noise);
    var o := Octaves(cache, c, noise);
    forall y, z, x | 0 <= y < SIDE && 0 <= z < SIDE && 0 <= x < SIDE
      ensures o[y][z][x]
      == [FreshOctave(noise, c.seed, Scales(c)[0], c.chunkX, c.chunkY, c.chunkZ, 0, x, y, z),
          FreshOctave(noise, c.seed, Scales(c)[1], c.chunkX, c.chunkY, c.chunkZ, 1, x, y, z),
          FreshOctave(noise, c.seed, Scales(c)[2], c.chunkX, c.chunkY, c.chunkZ, 2, x, y, z)]
    {
      assert |o[y][z][x]| == 3;
    }
  }

  /** On a cached chunk, octave i is reused exactly when its scale and the seed equal the stored ones. */
  lemma ReuseIff(cache: Cache, c: Call, i: nat)
    requires CacheValid(cache) && ValidCall(c) && c.useCache && KeyOf(c) in cache && i < 3
    ensures !Changed(cache, c)[i]
            <==> Scales(c)[i] == cache[KeyOf(c)].noiseLayers[i] && c.seed == cache[KeyOf(c)].seed
  {
    assert ValidEntry(cache[KeyOf(c)]);
  }

  /** A cached call whose seed differs from the stored one recomputes every octave, so it returns the fresh grid. */
  lemma SeedMismatchFresh(cache: Cache, c: Call, noise: Noise)
    requires CacheValid(cache) && ValidCall(c) && c.useCache && KeyOf(c) in cache
    requires c.seed != cache[KeyOf(c)].seed
    ensures forall i | 0 <= i < 3 :: Changed(cache, c)[i]
    ensures NoiseGrid(cache, c, noise) == FreshGrid(noise, c)
  {
    forall i | 0 <= i < 3 ensures Changed(cache, c)[i] {
      ReuseIff(cache, c, i);
    }
    ReusedFreshGrid(cache, c, noise);
  }

  /**
   * On a cached chunk, a reused octave is the stored value read back as it is (already weighted),
   * a changed one is resampled; either way the entry holds it afterwards.
   */
  lemma CachedCallOctaves(cache: Cache, c: Call, noise: Noise, y: nat, z: nat, x: nat, i: nat)
    requires CacheValid(cache) && ValidCall(c) && c.useCache && KeyOf(c) in cache
    requires y < SIDE && z < SIDE && x < SIDE && i < 3
    ensures KeyOf(c) in NextCache(cache, c, noise)
    ensures NextCache(cache, c, noise)[KeyOf(c)].noiseMap[y][z][x][i]
      == if Scales(c)[i] == cache[KeyOf(c)].noiseLayers[i] && c.seed == cache[KeyOf(c)].seed
         then cache[KeyOf(c)].noiseMap[y][z][x][i]
         else FreshOctave(noise, c.seed, Scales(c)[i], c.chunkX, c.chunkY, c.chunkZ, i, x, y, z)
  {
    ReuseIff(cache, c, i);
    OctavesAt(cache, c, noise, y, z, x, i);
    assert ValidEntry(cache[KeyOf(c)]);
  }

  /** A cached call returns, at every corner, the sum of the octave triple it leaves in the cache plus the height bias. */
  lemma ResultSumsStoredOctaves(cache: Cache, c: Call, noise: Noise, y: nat, z: nat, x: nat)
    requires CacheValid(cache) && ValidCall(c) && c.useCache
    requires y < SIDE && z < SIDE && x < SIDE
    ensures KeyOf(c) in NextCache(cache, c, noise)
    ensures var t := NextCache(cache, c, noise)[KeyOf(c)].noiseMap[y][z][x];
      |t| == 3 && NoiseGrid(cache, c, noise)[y][z][x] == t[0] + t[1] + t[2] + HeightBias(c.chunkY, y)
  {
    PriorReadable(cache, c, y);
  }

  /** A cached call never changes the stored seed, and leaves the call's scales. */
  lemma SeedNeverChanges(cache: Cache, c: Call, noise: Noise)
    requires CacheValid(cache) && ValidCall(c) && KeyOf(c) in cache
    ensures KeyOf(c) in NextCache(cache, c, noise)
    ensures NextCache(cache, c, noise)[KeyOf(c)].seed == cache[KeyOf(c)].seed
    ensures c.useCache ==> NextCache(cache, c, noise)[KeyOf(c)].noiseLayers == Scales(c)
  {
  }

  /** A call leaves the entry of every other chunk as it was, present or absent. */
  lemma OtherChunksUnchanged(cache: Cache, c: Call, noise: Noise, cx: int, cy: int, cz: int)
    requires CacheValid(cache) && ValidCall(c)
    requires (cx, cy, cz) != (c.chunkX, c.chunkY, c.chunkZ)
    ensures Key(cx, cy, cz) in NextCache(cache, c, noise) <==> Key(cx, cy, cz) in cache
    ensures Key(cx, cy, cz) in cache ==> NextCache(cache, c, noise)[Key(cx, cy, cz)] == cache[Key(cx, cy, cz)]
  {
    KeyInjective(cx, cy, cz, c.chunkX, c.chunkY, c.chunkZ);
  }

  // ---------------------------------------------------------------------------------------
  // Coherence: every stored octave is what a fresh sample with the stored seed and scale gives.

  predicate Coherent(e: Entry, noise: Noise, cx: int, cy: int, cz: int) {
    && ValidEntry(e) && ValidLayers(e.noiseLayers)
    && forall y, z, x, i | 0 <= y < SIDE && 0 <= z < SIDE && 0 <= x < SIDE && 0 <= i < 3 ::
         e.noiseMap[y][z][x][i] == FreshOctave(noise, e.seed, e.noiseLayers[i], cx, cy, cz, i, x, y, z)
  }

  ghost predicate CacheCoherent(cache: Cache, noise: Noise) {
    && CacheValid(cache)
    && forall cx, cy, cz | Key(cx, cy, cz) in cache :: Coherent(cache[Key(cx, cy, cz)], noise, cx, cy, cz)
  }

  /** Against a coherent cache every call, whatever its seed, returns the fresh grid. */
  lemma CoherentGivesFresh(cache: Cache, c: Call, noise: Noise)
    requires CacheCoherent(cache, noise) && ValidCall(c)
    ensures NoiseGrid(cache, c, noise) == FreshGrid(noise, c)
  {
    CoherentReusedFresh(cache, c, noise);
    ReusedFreshGrid(cache, c, noise);
  }

  lemma CoherentReusedFresh(cache: Cache, c: Call, noise: Noise)
    requires CacheCoherent(cache, noise) && ValidCall(c)
    ensures ReusedFresh(cache, c, noise)
  {
    if KeyOf(c) in cache {
      assert Coherent(cache[Key(c.chunkX, c.chunkY, c.chunkZ)], noise, c.chunkX, c.chunkY, c.chunkZ);
    }
  }

  /** Storing a coherent entry under a chunk's key keeps the cache coherent. */
  lemma InsertCoherent(cache: Cache, noise: Noise, c: Call, e: Entry)
    requires CacheCoherent(cache, noise) && Coherent(e, noise, c.chunkX, c.chunkY, c.chunkZ)
    ensures CacheCoherent(cache[KeyOf(c) := e], noise)
  {
    var next := cache[KeyOf(c) := e];
    forall cx, cy, cz | Key(cx, cy, cz) in next ensures Coherent(next[Key(cx, cy, cz)], noise, cx, cy, cz) {
      KeyInjective(cx, cy, cz, c.chunkX, c.chunkY, c.chunkZ);
    }
  }

  /** As written: a call keeps the cache coherent when its seed is the one stored for its chunk. */
  lemma NextCacheCoherent(cache: Cache, c: Call, noise: Noise)
    requires CacheCoherent(cache, noise) && ValidCall(c)
    requires c.useCache && KeyOf(c) in cache ==> c.seed == cache[KeyOf(c)].seed
    ensures CacheCoherent(NextCache(cache, c, noise), noise)
  {
    if c.useCache {
      CoherentReusedFresh(cache, c, noise);
      ReusedFreshGrid(cache, c, noise);
      InsertCoherent(cache, noise, c, NextCache(cache, c, noise)[KeyOf(c)]);
    }
  }

  /** Corrected: recording the call's seed keeps the cache coherent for every call. */
  lemma NextCacheLastSeedCoherent(cache: Cache, c: Call, noise: Noise)
    requires CacheCoherent(cache, noise) && ValidCall(c)
    ensures CacheCoherent(NextCacheLastSeed(cache, c, noise), noise)
  {
    if c.useCache {
      CoherentReusedFresh(cache, c, noise);
      ReusedFreshGrid(cache, c, noise);
      InsertCoherent(cache, noise, c, NextCacheLastSeed(cache, c, noise)[KeyOf(c)]);
    }
  }

  // ---------------------------------------------------------------------------------------
  // Sequences of calls.

  /** The grids a sequence of calls returns, each against the cache the earlier ones left. */
  function Replay(cache: Cache, calls: seq<Call>, noise: Noise): (results: seq<Grid>)
    requires CacheValid(cache) && forall c <- calls :: ValidCall(c)
    ensures |results| == |calls|
    decreases |calls|
  {
    if calls == [] then []
    else [NoiseGrid(cache, calls[0], noise)] + Replay(NextCache(cache, calls[0], noise), calls[1..], noise)
  }

  /** The same, for the corrected cache update. */
  function ReplayLastSeed(cache: Cache, calls: seq<Call>, noise: Noise): (results: seq<Grid>)
    requires CacheValid(cache) && forall c <- calls :: ValidCall(c)
    ensures |results| == |calls|
    decreases |calls|
  {
    if calls == [] then []
    else [NoiseGrid(cache, calls[0], noise)] + ReplayLastSeed(NextCacheLastSeed(cache, calls[0], noise), calls[1..], noise)
  }

  predicate SameChunk(a: Call, b: Call) {
    a.chunkX == b.chunkX && a.chunkY == b.chunkY && a.chunkZ == b.chunkZ
  }

  /**
   * Every cached call for a chunk uses one seed: the seed already stored for it, if any, and the
   * seed of every earlier cached call for the same chunk.
   */
  predicate SeedPerChunk(cache: Cache, calls: seq<Call>) {
    forall i | 0 <= i < |calls| && calls[i].useCache ::
      && (KeyOf(calls[i]) in cache ==> calls[i].seed == cache[KeyOf(calls[i])].seed)
      && forall j | 0 <= j < i && calls[j].useCache && SameChunk(calls[j], calls[i]) :: calls[j].seed == calls[i].seed
  }

  /** One seed per chunk still holds for the remaining calls, against the cache the first call leaves. */
  lemma SeedPerChunkNext(cache: Cache, calls: seq<Call>, noise: Noise)
    requires CacheCoherent(cache, noise) && (forall c <- calls :: ValidCall(c)) && SeedPerChunk(cache, calls)
    requires calls != []
    ensures SeedPerChunk(NextCache(cache, calls[0], noise), calls[1..])
  {
    var c0 := calls[0];
    var next := NextCache(cache, c0, noise);
    var rest := calls[1..];
    forall i | 0 <= i < |rest| && rest[i].useCache
      ensures KeyOf(rest[i]) in next ==> rest[i].seed == next[KeyOf(rest[i])].seed
    {
      assert calls[i + 1] == rest[i];
      if KeyOf(rest[i]) in cache {
        if SameChunk(rest[i], c0) {
          SeedNeverChanges(cache, c0, noise);
        } else {
          OtherChunksUnchanged(cache, c0, noise, rest[i].chunkX, rest[i].chunkY, rest[i].chunkZ);
        }
      } else if KeyOf(rest[i]) in next {
        KeyInjective(rest[i].chunkX, rest[i].chunkY, rest[i].chunkZ, c0.chunkX, c0.chunkY, c0.chunkZ);
        assert calls[0] == c0;
      }
    }
    forall i | 0 <= i < |rest| && rest[i].useCache
      ensures forall j | 0 <= j < i && rest[j].useCache && SameChunk(rest[j], rest[i]) :: rest[j].seed == rest[i].seed
    {
      assert calls[i + 1] == rest[i];
      forall j | 0 <= j < i && rest[j].useCache && SameChunk(rest[j], rest[i]) ensures rest[j].seed == rest[i].seed {
        assert calls[j + 1] == rest[j];
      }
    }
  }

  /** The first call of a sequence returns the fresh grid and leaves a cache the remaining calls can start from. */
  lemma ReplayStep(cache: Cache, calls: seq<Call>, noise: Noise)
    requires CacheCoherent(cache, noise) && (forall c <- calls :: ValidCall(c)) && SeedPerChunk(cache, calls)
    requires calls != []
    ensures NoiseGrid(cache, calls[0], noise) == FreshGrid(noise, calls[0])
    ensures CacheCoherent(NextCache(cache, calls[0], noise), noise)
    ensures SeedPerChunk(NextCache(cache, calls[0], noise), calls[1..])
  {
    CoherentGivesFresh(cache, calls[0], noise);
    NextCacheCoherent(cache, calls[0], noise);
    SeedPerChunkNext(cache, calls, noise);
  }

  /** While every cached call for a chunk keeps to one seed, each cached result equals the uncached one. */
  lemma {:induction false} ReplayFresh(cache: Cache, calls: seq<Call>, noise: Noise)
    requires CacheCoherent(cache, noise) && (forall c <- calls :: ValidCall(c)) && SeedPerChunk(cache, calls)
    ensures forall i | 0 <= i < |calls| :: Replay(cache, calls, noise)[i] == FreshGrid(noise, calls[i])
    decreases |calls|
  {
    if calls != [] {
      var next := NextCache(cache, calls[0], noise);
      ReplayStep(cache, calls, noise);
      ReplayFresh(next, calls[1..], noise);
      var r := Replay(cache, calls, noise);
      assert r == [NoiseGrid(cache, calls[0], noise)] + Replay(next, calls[1..], noise);
      forall i | 0 <= i < |calls| ensures r[i] == FreshGrid(noise, calls[i]) {
        if i > 0 {
          assert calls[1..][i - 1] == calls[i];
        }
      }
    }
  }

  /** From an empty cache, under one seed per chunk, every cached result equals the uncached one. */
  lemma ReplayFromEmpty(calls: seq<Call>, noise: Noise)
    requires (forall c <- calls :: ValidCall(c)) && SeedPerChunk(map[], calls)
    ensures forall i | 0 <= i < |calls| :: Replay(map[], calls, noise)[i] == FreshGrid(noise, calls[i])
  {
    ReplayFresh(map[], calls, noise);
  }

  /** Corrected: with the call's seed recorded, every result equals the uncached one, seeds notwithstanding. */
  lemma {:induction false} ReplayLastSeedFresh(cache: Cache, calls: seq<Call>, noise: Noise)
    requires CacheCoherent(cache, noise) && forall c <- calls :: ValidCall(c)
    ensures forall i | 0 <= i < |calls| :: ReplayLastSeed(cache, calls, noise)[i] == FreshGrid(noise, calls[i])
    decreases |calls|
  {
    if calls != [] {
      CoherentGivesFresh(cache, calls[0], noise);
      NextCacheLastSeedCoherent(cache, calls[0], noise);
      ReplayLastSeedFresh(NextCacheLastSeed(cache, calls[0], noise), calls[1..], noise);
    }
  }

  /** The noise function that returns its seed. */
  function SeedNoise(seed: real, px: real, py: real, pz: real): real {
    seed
  }

  /**
   * As written, seeds 1, 2, 1 for one chunk with default scales: the third call reuses the octaves
   * of the second (seed 2) because the entry still records seed 1, so its result is not the fresh one.
   */
  lemma StaleSeedCounterexample()
    ensures var a, b := Call(0, 0, 0, None, 1.0, true), Call(0, 0, 0, None, 2.0, true);
      var cache := NextCache(NextCache(map[], a, SeedNoise), b, SeedNoise);
      && NoiseGrid(cache, a, SeedNoise)[0][0][0] == 1.9
      && FreshGrid(SeedNoise, a)[0][0][0] == 0.15
  {
    var a, b := Call(0, 0, 0, None, 1.0, true), Call(0, 0, 0, None, 2.0, true);
    var c1 := NextCache(map[], a, SeedNoise);
    FirstCachedCall(map[], a, SeedNoise);
    var c2 := NextCache(c1, b, SeedNoise);
    SeedNeverChanges(c1, b, SeedNoise);
    forall i | 0 <= i < 3 ensures c2[KeyOf(b)].noiseMap[0][0][0][i] == FreshOctave(SeedNoise, 2.0, Scales(b)[i], 0, 0, 0, i, 0, 0, 0) {
      CachedCallOctaves(c1, b, SeedNoise, 0, 0, 0, i);
    }
    forall i | 0 <= i < 3 ensures !Changed(c2, a)[i] {
      ReuseIff(c2, a, i);
    }
    PriorReadable(c2, a, 0);
  }

  // ---------------------------------------------------------------------------------------
  // generateNoiseMap, with the module-level cache as the state of an object.

  /** The octave grid while the planes are being filled: planes below y are new, the rest as they were. */
  function PartialOctaves(cache: Cache, c: Call, noise: Noise, y: nat): OctaveGrid
    requires CacheValid(cache) && ValidCall(c) && y <= SIDE
  {
    var o := Octaves(cache, c, noise);
    if KeyOf(c) in cache then o[..y] + cache[KeyOf(c)].noiseMap[y..] else o[..y]
  }

  /** What the y loop of a call works with: the scales in force, the change flags, the key and whether the entry is new. */
  predicate CallSetup(cache: Cache, c: Call, layers: seq<real>, changed: seq<bool>, key: string, initialCache: bool) {
    && CacheValid(cache) && ValidCall(c) && layers == Scales(c) && key == KeyOf(c)
    && changed == Changed(cache, c) && initialCache == (c.useCache && KeyOf(c) !in cache)
  }

  /** The cache of a call once its scales are reconciled and its first y planes written. */
  function CacheDuring(cache: Cache, c: Call, noise: Noise, y: nat): Cache
    requires CacheValid(cache) && ValidCall(c) && y <= SIDE
  {
    if !c.useCache then cache
    else cache[KeyOf(c) := Entry(PartialOctaves(cache, c, noise, y), Scales(c), Prior(cache, c).seed)]
  }

  /** Before any plane is written, the entry holds the prior octaves under the call's scales. */
  lemma CacheDuringStart(cache: Cache, c: Call, noise: Noise)
    requires CacheValid(cache) && ValidCall(c)
    ensures CacheDuring(cache, c, noise, 0)
            == if !c.useCache then cache else cache[KeyOf(c) := Prior(cache, c).(noiseLayers := Scales(c))]
  {
    var o := Octaves(cache, c, noise);
    assert o[..0] == [];
    if KeyOf(c) in cache {
      assert [] + cache[KeyOf(c)].noiseMap[0..] == cache[KeyOf(c)].noiseMap;
    }
  }

  lemma ReplaceSlice<T>(o: seq<T>, p: seq<T>, y: nat)
    requires y < |o| && y < |p|
    ensures (o[..y] + p[y..])[y := o[y]] == o[..y + 1] + p[y + 1..]
  {
  }

  lemma AppendSlice<T>(o: seq<T>, y: nat)
    requires y < |o|
    ensures o[..y] + [o[y]] == o[..y + 1]
  {
  }

  /** Replacing plane y of an entry that existed before the call advances the cache by one plane. */
  lemma CacheDuringReplace(cache: Cache, c: Call, noise: Noise, y: nat)
    requires CacheValid(cache) && ValidCall(c) && c.useCache && KeyOf(c) in cache && y < SIDE
    ensures KeyOf(c) in CacheDuring(cache, c, noise, y)
    ensures var e := CacheDuring(cache, c, noise, y)[KeyOf(c)];
      && y < |e.noiseMap|
      && CacheDuring(cache, c, noise, y + 1)
         == CacheDuring(cache, c, noise, y)[KeyOf(c) := e.(noiseMap := e.noiseMap[y := Octaves(cache, c, noise)[y]])]
  {
    var o, p := Octaves(cache, c, noise), cache[KeyOf(c)].noiseMap;
    assert ValidEntry(cache[KeyOf(c)]);
    ReplaceSlice(o, p, y);
    var e := CacheDuring(cache, c, noise, y)[KeyOf(c)];
    assert e.noiseMap == o[..y] + p[y..];
    assert CacheDuring(cache, c, noise, y + 1)[KeyOf(c)] == e.(noiseMap := o[..y + 1] + p[y + 1..]);
  }

  /** Appending plane y to the entry a first cached call created advances the cache by one plane. */
  lemma CacheDuringAppend(cache: Cache, c: Call, noise: Noise, y: nat)
    requires CacheValid(cache) && ValidCall(c) && c.useCache && KeyOf(c) !in cache && y < SIDE
    ensures KeyOf(c) in CacheDuring(cache, c, noise, y)
    ensures var e := CacheDuring(cache, c, noise, y)[KeyOf(c)];
      && |e.noiseMap| == y
      && CacheDuring(cache, c, noise, y + 1)
         == CacheDuring(cache, c, noise, y)[KeyOf(c) := e.(noiseMap := e.noiseMap + [Octaves(cache, c, noise)[y]])]
  {
    AppendSlice(Octaves(cache, c, noise), y);
  }

  /** While plane y is being filled, the stored plane y is still the prior one. */
  lemma CacheDuringPlane(cache: Cache, c: Call, noise: Noise, y: nat)
    requires CacheValid(cache) && ValidCall(c) && y < SIDE
    ensures var during := CacheDuring(cache, c, noise, y);
      (if KeyOf(c) in during then StoredPlane(during[KeyOf(c)], y) else []) == StoredPlane(Prior(cache, c), y)
  {
    if c.useCache {
      var o := Octaves(cache, c, noise);
      if KeyOf(c) in cache {
        var p := cache[KeyOf(c)].noiseMap;
        assert ValidEntry(cache[KeyOf(c)]);
        assert (o[..y] + p[y..])[y] == p[y];
      } else {
        assert |o[..y]| == y;
      }
    }
  }

  /** Once every plane is written, the cache is the one the call leaves. */
  lemma CacheDuringDone(cache: Cache, c: Call, noise: Noise)
    requires CacheValid(cache) && ValidCall(c)
    ensures CacheDuring(cache, c, noise, SIDE) == NextCache(cache, c, noise)
  {
    var o := Octaves(cache, c, noise);
    assert o[..SIDE] == o;
    if KeyOf(c) in cache {
      assert ValidEntry(cache[KeyOf(c)]);
      assert o[..SIDE] + cache[KeyOf(c)].noiseMap[SIDE..] == o;
    }
  }

  class NoiseMapGenerator {
    /** noiseMapCache: chunk key to entry. */
    var noiseMapCache: Cache

    predicate Valid()
      reads this
    {
      CacheValid(noiseMapCache)
    }

    constructor ()
      ensures Valid() && noiseMapCache == map[]
    {
      noiseMapCache := map[];
    }

    /** Plane y of the entry currently stored under key, where there is one. */
    function LivePlane(key: string, y: nat): OctavePlane
      reads this
    {
      if key in noiseMapCache then StoredPlane(noiseMapCache[key], y) else []
    }

    /** The three octave values at one corner: sampled where the octave changed, else read from the cache. */
    method SampleOctaves(c: Call, noiseLayers: seq<real>, noiseLayerChanged: seq<bool>, chunkKey: string, noise: Noise,
                         x: nat, y: nat, z: nat, ghost stored: OctavePlane)
      returns (noiseOne: real, noiseTwo: real, noiseThree: real)
      requires ValidCall(c) && noiseLayers == Scales(c) && x < SIDE && z < SIDE
      requires stored == LivePlane(chunkKey, y) && Readable(noiseLayerChanged, stored)
      ensures noiseOne == Octave(noise, c, noiseLayerChanged, stored, 0, x, y, z)
      ensures noiseTwo == Octave(noise, c, noiseLayerChanged, stored, 1, x, y, z)
      ensures noiseThree == Octave(noise, c, noiseLayerChanged, stored, 2, x, y, z)
    {
      var px := x as real + (c.chunkX as real - 0.5) * CHUNK_SIZE as real;
      var py := y as real + (c.chunkY as real - 0.5) * CHUNK_SIZE as real;
      var pz := z as real + (c.chunkZ as real - 0.5) * CHUNK_SIZE as real;
      noiseOne := if noiseLayerChanged[0]
        then noise(c.seed, px / noiseLayers[0], py / noiseLayers[0], pz / noiseLayers[0])
        else noiseMapCache[chunkKey].noiseMap[y][z][x][0];
      noiseTwo := if noiseLayerChanged[1]
        then 0.5 * noise(c.seed, px / noiseLayers[1], py / noiseLayers[1], pz / noiseLayers[1])
        else noiseMapCache[chunkKey].noiseMap[y][z][x][1];
      noiseThree := if noiseLayerChanged[2]
        then 0.25 * noise(c.seed, px / noiseLayers[2], py / noiseLayers[2], pz / noiseLayers[2])
        else noiseMapCache[chunkKey].noiseMap[y][z][x][2];
    }

    /** The innermost (x) loop: fills one line of densities and collects its octave triples. */
    method FillLine(line: array<real>, c: Call, noiseLayers: seq<real>, noiseLayerChanged: seq<bool>,
                    chunkKey: string, noise: Noise, y: nat, z: nat, ghost plane: OctavePlane)
      returns (lineCache: seq<seq<real>>)
      requires ValidCall(c) && noiseLayers == Scales(c) && z < SIDE && line.Length == SIDE
      requires plane == LivePlane(chunkKey, y) && Readable(noiseLayerChanged, plane)
      modifies line
      ensures line[..] == ValueLine(noise, c, noiseLayerChanged, plane, y, z)
      ensures lineCache == OctaveLine(noise, c, noiseLayerChanged, plane, y, z)
    {
      ghost var octaves := OctaveLine(noise, c, noiseLayerChanged, plane, y, z);
      ghost var values := ValueLine(noise, c, noiseLayerChanged, plane, y, z);
      lineCache := [];
      var x := 0;
      while x <= CHUNK_SIZE
        invariant 0 <= x <= SIDE && lineCache == octaves[..x]
        invariant forall j | 0 <= j < x :: line[j] == values[j]
      {
        var noiseOne, noiseTwo, noiseThree := SampleOctaves(c, noiseLayers, noiseLayerChanged, chunkKey, noise, x, y, z, plane);
        var heightBias := (y as real + (c.chunkY as real - 0.5) * CHUNK_SIZE as real) * HEIGHT_BIAS_MULTIPLIER;
        var noiseValue := noiseOne + noiseTwo + noiseThree + heightBias;
        assert octaves[x] == [noiseOne, noiseTwo, noiseThree];
        assert values[x] == noiseValue;
        PrefixSnoc(octaves, x + 1);
        lineCache := lineCache + [[noiseOne, noiseTwo, noiseThree]];
        line[x] := noiseValue;
        x := x + 1;
      }
      FullPrefix(octaves);
    }

    /** The middle (z) loop: one plane of densities and its octave triples. */
    method FillPlane(c: Call, noiseLayers: seq<real>, noiseLayerChanged: seq<bool>, chunkKey: string, noise: Noise, y: nat,
                     ghost stored: OctavePlane)
      returns (plane: seq<seq<real>>, planeCache: OctavePlane)
      requires ValidCall(c) && noiseLayers == Scales(c)
      requires stored == LivePlane(chunkKey, y) && Readable(noiseLayerChanged, stored)
      ensures plane == ValuePlane(noise, c, noiseLayerChanged, stored, y)
      ensures planeCache == OctavePlaneOf(noise, c, noiseLayerChanged, stored, y)
    {
      ghost var values := ValuePlane(noise, c, noiseLayerChanged, stored, y);
      ghost var octaves := OctavePlaneOf(noise, c, noiseLayerChanged, stored, y);
      plane, planeCache := [], [];
      var z := 0;
      while z <= CHUNK_SIZE
        invariant 0 <= z <= SIDE && plane == values[..z] && planeCache == octaves[..z]
      {
        var line := new real[SIDE];
        var lineCache := FillLine(line, c, noiseLayers, noiseLayerChanged, chunkKey, noise, y, z, stored);
        PrefixSnoc(values, z + 1);
        PrefixSnoc(octaves, z + 1);
        planeCache := planeCache + [lineCache];
        plane := plane + [line[..]];
        z := z + 1;
      }
      FullPrefix(values);
      FullPrefix(octaves);
    }

    /**
     * The scale loop of a cached call: octave i is marked unchanged when its scale and the seed
     * equal the stored ones; otherwise the stored scale is overwritten. The stored seed is kept.
     */
    method ReconcileLayers(noiseLayers: seq<real>, currentSeed: real, chunkKey: string)
      returns (noiseLayerChanged: seq<bool>)
      requires |noiseLayers| == 3 && chunkKey in noiseMapCache && |noiseMapCache[chunkKey].noiseLayers| == 3
      modifies this
      ensures noiseMapCache == old(noiseMapCache)[chunkKey := old(noiseMapCache[chunkKey]).(noiseLayers := noiseLayers)]
      ensures |noiseLayerChanged| == 3
      ensures forall i | 0 <= i < 3 ::
        (noiseLayerChanged[i]
         <==> !(noiseLayers[i] == old(noiseMapCache[chunkKey]).noiseLayers[i] && currentSeed == old(noiseMapCache[chunkKey]).seed))
    {
      ghost var start := noiseMapCache[chunkKey];
      noiseLayerChanged := [true, true, true];
      var i := 0;
      while i < |noiseLayers|
        invariant 0 <= i <= 3 && |noiseLayerChanged| == 3 && chunkKey in noiseMapCache
        invariant noiseMapCache == old(noiseMapCache)[chunkKey := start.(noiseLayers := noiseMapCache[chunkKey].noiseLayers)]
        invariant |noiseMapCache[chunkKey].noiseLayers| == 3
        invariant forall j | 0 <= j < i :: noiseMapCache[chunkKey].noiseLayers[j] == noiseLayers[j]
        invariant forall j | i <= j < 3 :: noiseMapCache[chunkKey].noiseLayers[j] == start.noiseLayers[j]
        invariant forall j | 0 <= j < i ::
          noiseLayerChanged[j] == !(noiseLayers[j] == start.noiseLayers[j] && currentSeed == start.seed)
        invariant forall j | i <= j < 3 :: noiseLayerChanged[j]
      {
        var entry := noiseMapCache[chunkKey];
        if noiseLayers[i] == entry.noiseLayers[i] && currentSeed == entry.seed {
          noiseLayerChanged := noiseLayerChanged[i := false];
        } else {
          noiseMapCache := noiseMapCache[chunkKey := entry.(noiseLayers := entry.noiseLayers[i := noiseLayers[i]])];
        }
        i := i + 1;
      }
      assert noiseMapCache[chunkKey].noiseLayers == noiseLayers;
    }

    /**
     * The part of generateNoiseMap before the plane loop: a first cached call creates a placeholder
     * entry, and a cached call reconciles the entry's scales with the call's.
     */
    method PrepareEntry(c: Call, noiseLayers: seq<real>, currentSeed: real, chunkKey: string)
      returns (initialCache: bool, noiseLayerChanged: seq<bool>)
      requires Valid() && ValidCall(c) && noiseLayers == Scales(c) && currentSeed == c.seed && chunkKey == KeyOf(c)
      modifies this
      ensures initialCache == (c.useCache && KeyOf(c) !in old(noiseMapCache))
      ensures noiseLayerChanged == Changed(old(noiseMapCache), c)
      ensures noiseMapCache
              == if !c.useCache then old(noiseMapCache)
                 else old(noiseMapCache)[chunkKey := Prior(old(noiseMapCache), c).(noiseLayers := noiseLayers)]
    {
      noiseLayerChanged := [true, true, true];
      initialCache := c.useCache && chunkKey !in noiseMapCache;
      if initialCache {
        noiseMapCache := noiseMapCache[chunkKey := Entry([], [0.0, 0.0, 0.0], currentSeed)];
      }
      if c.useCache {
        noiseLayerChanged := ReconcileLayers(noiseLayers, currentSeed, chunkKey);
      }
    }

    /** One iteration of the y loop: fills plane y and writes its octaves to the cache. */
    method GeneratePlane(c: Call, layers: seq<real>, noiseLayerChanged: seq<bool>, chunkKey: string, initialCache: bool,
                         noise: Noise, y: nat, ghost cache0: Cache)
      returns (plane: seq<seq<real>>)
      requires CallSetup(cache0, c, layers, noiseLayerChanged, chunkKey, initialCache) && y < SIDE
      requires noiseMapCache == CacheDuring(cache0, c, noise, y)
      modifies this
      ensures plane == GridPlane(cache0, c, noise, y)
      ensures noiseMapCache == CacheDuring(cache0, c, noise, y + 1)
    {
      CacheDuringPlane(cache0, c, noise, y);
      PriorReadable(cache0, c, y);
      var planeCache;
      plane, planeCache := FillPlane(c, layers, noiseLayerChanged, chunkKey, noise, y, StoredPlane(Prior(cache0, c), y));
      if initialCache {
        CacheDuringAppend(cache0, c, noise, y);
        var entry := noiseMapCache[chunkKey];
        noiseMapCache := noiseMapCache[chunkKey := entry.(noiseMap := entry.noiseMap + [planeCache])];
      } else if c.useCache {
        CacheDuringReplace(cache0, c, noise, y);
        var entry := noiseMapCache[chunkKey];
        noiseMapCache := noiseMapCache[chunkKey := entry.(noiseMap := entry.noiseMap[y := planeCache])];
      }
    }

    /** The y loop: every plane of the grid, each written to the cache as it is completed. */
    method FillGrid(c: Call, layers: seq<real>, noiseLayerChanged: seq<bool>, chunkKey: string, initialCache: bool,
                    noise: Noise, ghost cache0: Cache)
      returns (noiseMap: Grid)
      requires CallSetup(cache0, c, layers, noiseLayerChanged, chunkKey, initialCache)
      requires noiseMapCache == CacheDuring(cache0, c, noise, 0)
      modifies this
      ensures noiseMap == PlanesBelow(cache0, c, noise, SIDE)
      ensures noiseMapCache == CacheDuring(cache0, c, noise, SIDE)
    {
      noiseMap := [];
      var y := 0;
      while y <= CHUNK_SIZE
        invariant 0 <= y <= SIDE
        invariant noiseMapCache == CacheDuring(cache0, c, noise, y)
        invariant noiseMap == PlanesBelow(cache0, c, noise, y)
      {
        var plane := GeneratePlane(c, layers, noiseLayerChanged, chunkKey, initialCache, noise, y, cache0);
        noiseMap := noiseMap + [plane];
        y := y + 1;
      }
    }

    /**
     * generateNoiseMap: the grid of one call, against and updating the cache. The result and the
     * new cache are those of NoiseGrid and NextCache, about which the lemmas above speak.
     */
    method GenerateNoiseMap(chunkX: int, chunkY: int, chunkZ: int, noiseLayers: Option<seq<real>>, seed: real,
                            cacheNoiseMap: bool, noise: Noise)
      returns (noiseMap: Grid)
      requires Valid() && ValidCall(Call(chunkX, chunkY, chunkZ, noiseLayers, seed, cacheNoiseMap))
      modifies this
      ensures Valid()
      ensures noiseMap == NoiseGrid(old(noiseMapCache), Call(chunkX, chunkY, chunkZ, noiseLayers, seed, cacheNoiseMap), noise)
      ensures noiseMapCache == NextCache(old(noiseMapCache), Call(chunkX, chunkY, chunkZ, noiseLayers, seed, cacheNoiseMap), noise)
    {
      var c := Call(chunkX, chunkY, chunkZ, noiseLayers, seed, cacheNoiseMap);
      ghost var cache0 := noiseMapCache;
      var layers := if noiseLayers.None? then DEFAULT_NOISE_LAYERS else noiseLayers.value;
      var chunkKey := Key(chunkX, chunkY, chunkZ);
      var initialCache, noiseLayerChanged := PrepareEntry(c, layers, seed, chunkKey);
      CacheDuringStart(cache0, c, noise);
      noiseMap := FillGrid(c, layers, noiseLayerChanged, chunkKey, initialCache, noise, cache0);
      PlanesBelowGrid(cache0, c, noise);
      CacheDuringDone(cache0, c, noise);
    }
  }
}
