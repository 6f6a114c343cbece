/**
  The isosurface triangulator (src/lib/meshGenerator.ts, generateMesh).

  The chunk's density field is walked in cubes of edge q = 2^levelOfDetail,
  x outermost, then y, then z. Each cube's eight corner densities are
  classified against the surface level into an 8-bit cube index; every
  index other than 0 and 255 selects a case-table entry whose edge ids,
  taken three at a time, become triangles. A vertex is the edge's table
  coordinate, optionally with its 0.5 components replaced by the edge's
  interpolation factor, then scaled by q and translated to the cube origin.

  The three lookup tables of ./triangulation are not part of this model:
  they are a parameter, of which only their shape is assumed (TablesShape).
 */
module MarchingCubes {
  import opened Constants
  import opened Sequences

  datatype Vec3 = Vec3(x: real, y: real, z: real)

  /** One emitted triangle; vertex order is the winding. */
  datatype Triangle = Triangle(a: Vec3, b: Vec3, c: Vec3)

  /** Grid position of a cube's lowest corner. */
  datatype Origin = Origin(x: int, y: int, z: int)

  /** The case table, edge table and edge-corner table. */
  datatype Tables = Tables(table: seq<seq<nat>>, edges: seq<Vec3>, edgeCorners: seq<(nat, nat)>)

  /** What the triangulator relies on about the tables. */
  predicate TablesShape(t: Tables) {
    && |t.table| == 256
    && (forall i | 0 <= i < 256 :: |t.table[i]| % 3 == 0)
    && (forall i, k | 0 <= i < 256 && 0 <= k < |t.table[i]| :: t.table[i][k] < 12)
    && |t.edges| == 12
    && |t.edgeCorners| == 12
    && (forall e | 0 <= e < 12 :: t.edgeCorners[e].0 < 8 && t.edgeCorners[e].1 < 8)
  }

  /** A density field indexed [y][z][x], SIDE values along each axis. */
  type NoiseMap = seq<seq<seq<real>>>

  predicate IsNoiseMap(m: NoiseMap) {
    && |m| == SIDE
    && (forall y | 0 <= y < SIDE :: |m[y]| == SIDE)
    && (forall y, z | 0 <= y < SIDE && 0 <= z < SIDE :: |m[y][z]| == SIDE)
  }

  /** Math.pow(2, levelOfDetail). */
  function Pow2(n: nat): (r: nat)
    ensures r > 0
  {
    if n == 0 then 1 else 2 * Pow2(n - 1)
  }

  // ---------------------------------------------------------------------
  // Arithmetic on multiples of the stride

  lemma MulMod(k: int, q: int)
    requires q > 0
    ensures (k * q) % q == 0 && (k * q) / q == k
  {
    var d, r := (k * q) / q, (k * q) % q;
    assert k * q == d * q + r;
    assert (k - d) * q == r;
    MulLess(k - d, 1, q);
    MulLess(-1, k - d, q);
  }

  lemma MulLess(a: int, b: int, q: int)
    requires q > 0
    ensures a * q < b * q <==> a < b
  {
    if a < b { assert (b - a) * q > 0; }
    if a >= b { assert (a - b) * q >= 0; }
  }

  /** A multiple of q is q times its quotient. */
  lemma MultipleOf(v: int, q: int)
    requires q > 0 && v % q == 0
    ensures v == (v / q) * q
  {
  }

  // ---------------------------------------------------------------------
  // The cubes visited

  /** Cube origins the source visits: multiples of q in [0, CHUNK_SIZE) on each axis. */
  predicate ValidOrigin(o: Origin, q: nat)
    requires q > 0
  {
    && 0 <= o.x < CHUNK_SIZE && o.x % q == 0
    && 0 <= o.y < CHUNK_SIZE && o.y % q == 0
    && 0 <= o.z < CHUNK_SIZE && o.z % q == 0
  }

  /** All eight corners of the cube at o lie inside the grid. */
  predicate InChunk(o: Origin, q: nat) {
    && 0 <= o.x && o.x + q <= CHUNK_SIZE
    && 0 <= o.y && o.y + q <= CHUNK_SIZE
    && 0 <= o.z && o.z + q <= CHUNK_SIZE
  }

  /** Cubes (x, y, j*q) for j < k: the first k passes of the innermost loop. */
  function Row(x: int, y: int, k: nat, q: nat): seq<Origin> {
    if k == 0 then [] else Row(x, y, k - 1, q) + [Origin(x, y, (k - 1) * q)]
  }

  /** Cubes at x whose y is j*q for j < k, each row complete (n cubes). */
  function Sheet(x: int, k: nat, q: nat, n: nat): seq<Origin> {
    if k == 0 then [] else Sheet(x, k - 1, q, n) + Row(x, (k - 1) * q, n, q)
  }

  /** Cubes whose x is i*q for i < k, each sheet complete. */
  function Block(k: nat, q: nat, n: nat): seq<Origin> {
    if k == 0 then [] else Block(k - 1, q, n) + Sheet((k - 1) * q, n, q, n)
  }

  /** Every cube origin, in the order the three nested loops visit them. */
  function Origins(q: nat): seq<Origin>
    requires q > 0
  {
    Block(CHUNK_SIZE / q, q, CHUNK_SIZE / q)
  }

  /** (x, y, z) order: x compared first, then y, then z. */
  predicate LexLess(a: Origin, b: Origin) {
    a.x < b.x || (a.x == b.x && (a.y < b.y || (a.y == b.y && a.z < b.z)))
  }

  predicate Sorted(s: seq<Origin>) {
    forall a, b :: 0 <= a < b < |s| ==> LexLess(s[a], s[b])
  }

  lemma SortedConcat(s: seq<Origin>, t: seq<Origin>)
    requires Sorted(s) && Sorted(t)
    requires forall u, v :: u in s && v in t ==> LexLess(u, v)
    ensures Sorted(s + t)
  {
    forall a, b | 0 <= a < b < |s + t|
      ensures LexLess((s + t)[a], (s + t)[b])
    {
      if b < |s| {
      } else if a >= |s| {
        assert (s + t)[a] == t[a - |s|] && (s + t)[b] == t[b - |s|];
      } else {
        assert (s + t)[a] in s && (s + t)[b] in t;
      }
    }
  }

  /** Whether v is one of 0, q, ..., (k-1)*q. */
  predicate Stepped(v: int, k: nat, q: nat)
    requires q > 0
  {
    0 <= v < k * q && v % q == 0
  }

  lemma SteppedNext(v: int, k: nat, q: nat)
    requires q > 0
    ensures Stepped(v, k + 1, q) <==> Stepped(v, k, q) || v == k * q
  {
    MulMod(k, q);
    assert (k + 1) * q == k * q + q;
    if Stepped(v, k + 1, q) && v != k * q {
      MultipleOf(v, q);
      MulLess(v / q, k + 1, q);
      MulLess(v / q, k, q);
    }
  }

  lemma {:induction false} RowMember(x: int, y: int, k: nat, q: nat, o: Origin)
    requires q > 0
    ensures o in Row(x, y, k, q) <==> o.x == x && o.y == y && Stepped(o.z, k, q)
  {
    if k > 0 {
      RowMember(x, y, k - 1, q, o);
      SteppedNext(o.z, k - 1, q);
    }
  }

  lemma {:induction false} SheetMember(x: int, k: nat, q: nat, n: nat, o: Origin)
    requires q > 0
    ensures o in Sheet(x, k, q, n) <==> o.x == x && Stepped(o.y, k, q) && Stepped(o.z, n, q)
  {
    if k > 0 {
      SheetMember(x, k - 1, q, n, o);
      RowMember(x, (k - 1) * q, n, q, o);
      SteppedNext(o.y, k - 1, q);
    }
  }

  lemma {:induction false} BlockMember(k: nat, q: nat, n: nat, o: Origin)
    requires q > 0
    ensures o in Block(k, q, n) <==> Stepped(o.x, k, q) && Stepped(o.y, n, q) && Stepped(o.z, n, q)
  {
    if k > 0 {
      BlockMember(k - 1, q, n, o);
      SheetMember((k - 1) * q, n, q, n, o);
      SteppedNext(o.x, k - 1, q);
    }
  }

  lemma {:induction false} RowSorted(x: int, y: int, k: nat, q: nat)
    requires q > 0
    ensures Sorted(Row(x, y, k, q))
  {
    if k > 0 {
      var z := (k - 1) * q;
      RowSorted(x, y, k - 1, q);
      forall u, v | u in Row(x, y, k - 1, q) && v in [Origin(x, y, z)] ensures LexLess(u, v) {
        RowMember(x, y, k - 1, q, u);
      }
      SortedConcat(Row(x, y, k - 1, q), [Origin(x, y, z)]);
    }
  }

  lemma {:induction false} SheetSorted(x: int, k: nat, q: nat, n: nat)
    requires q > 0
    ensures Sorted(Sheet(x, k, q, n))
  {
    if k > 0 {
      var y := (k - 1) * q;
      SheetSorted(x, k - 1, q, n);
      RowSorted(x, y, n, q);
      forall u, v | u in Sheet(x, k - 1, q, n) && v in Row(x, y, n, q) ensures LexLess(u, v) {
        SheetMember(x, k - 1, q, n, u);
        RowMember(x, y, n, q, v);
      }
      SortedConcat(Sheet(x, k - 1, q, n), Row(x, y, n, q));
    }
  }

  /** Every cube of the first k sheets comes before every cube of sheet k. */
  lemma BlockBeforeSheet(k: nat, q: nat, n: nat, x: int)
    requires q > 0 && x == k * q
    ensures forall u, v :: u in Block(k, q, n) && v in Sheet(x, n, q, n) ==> LexLess(u, v)
  {
    forall u, v | u in Block(k, q, n) && v in Sheet(x, n, q, n) ensures u.x < v.x {
      BlockMember(k, q, n, u);
      SheetMember(x, n, q, n, v);
    }
  }

  lemma {:induction false} BlockSorted(k: nat, q: nat, n: nat)
    requires q > 0
    ensures Sorted(Block(k, q, n))
  {
    if k > 0 {
      var x := (k - 1) * q;
      BlockBeforeSheet(k - 1, q, n, x);
      BlockSorted(k - 1, q, n);
      SheetSorted(x, n, q, n);
      SortedConcat(Block(k - 1, q, n), Sheet(x, n, q, n));
    }
  }

  /**
    The cubes visited are exactly those at multiples of q in [0, CHUNK_SIZE)
    on each axis, each once, in increasing (x, y, z) order: x outermost,
    then y, then z.
   */
  lemma OriginsExact(q: nat)
    requires q > 0 && CHUNK_SIZE % q == 0
    ensures forall o :: o in Origins(q) <==> ValidOrigin(o, q)
    ensures Sorted(Origins(q))
  {
    var n := CHUNK_SIZE / q;
    MultipleOf(CHUNK_SIZE, q);
    forall o ensures o in Origins(q) <==> ValidOrigin(o, q) {
      BlockMember(n, q, n, o);
    }
    BlockSorted(n, q, n);
  }

  lemma StrideFits(v: int, q: nat)
    requires q > 0 && CHUNK_SIZE % q == 0 && 0 <= v < CHUNK_SIZE && v % q == 0
    ensures v + q <= CHUNK_SIZE
  {
    var k, n := v / q, CHUNK_SIZE / q;
    MultipleOf(CHUNK_SIZE, q);
    MultipleOf(v, q);
    MulLess(k, 0, q);
    StepFits(v, q, k, n);
  }

  /** When q divides CHUNK_SIZE, every corner read of a visited cube is in bounds. */
  lemma ValidOriginInChunk(o: Origin, q: nat)
    requires q > 0 && CHUNK_SIZE % q == 0 && ValidOrigin(o, q)
    ensures InChunk(o, q)
  {
    StrideFits(o.x, q);
    StrideFits(o.y, q);
    StrideFits(o.z, q);
  }

  // ---------------------------------------------------------------------
  // Corner classification

  /** The cube's corner densities: bottom face (x,z), (x+q,z), (x+q,z+q), (x,z+q), then the top face. */
  function Corners(m: NoiseMap, o: Origin, q: nat): (c: seq<real>)
    requires IsNoiseMap(m) && InChunk(o, q)
    ensures |c| == 8
  {
    var bot, top := m[o.y], m[o.y + q];
    [bot[o.z][o.x], bot[o.z][o.x + q], bot[o.z + q][o.x + q], bot[o.z + q][o.x],
     top[o.z][o.x], top[o.z][o.x + q], top[o.z + q][o.x + q], top[o.z + q][o.x]]
  }

  /** Bit n of i. */
  function Bit(i: nat, n: nat): bool {
    if n == 0 then i % 2 == 1 else Bit(i / 2, n - 1)
  }

  /** Sum of 2^k over the corners k < n that lie below the surface. */
  function IndexPrefix(c: seq<real>, n: nat): nat
    requires n <= |c|
  {
    if n == 0 then 0
    else IndexPrefix(c, n - 1) + (if c[n - 1] < SURFACE_LEVEL then Pow2(n - 1) else 0)
  }

  /** Adding 2^n to a number below 2^n sets bit n and keeps the lower bits. */
  lemma {:induction false} BitOfSum(i: nat, b: bool, n: nat, k: nat)
    requires i < Pow2(n) && k <= n
    ensures Bit(i + (if b then Pow2(n) else 0), k) == if k < n then Bit(i, k) else b
  {
    if n > 0 && k > 0 {
      var s := i + (if b then Pow2(n) else 0);
      assert s / 2 == i / 2 + (if b then Pow2(n - 1) else 0);
      BitOfSum(i / 2, b, n - 1, k - 1);
    }
  }

  lemma {:induction false} IndexPrefixBits(c: seq<real>, n: nat)
    requires n <= |c|
    ensures IndexPrefix(c, n) < Pow2(n)
    ensures forall k :: 0 <= k < n ==> (Bit(IndexPrefix(c, n), k) <==> c[k] < SURFACE_LEVEL)
  {
    if n > 0 {
      IndexPrefixBits(c, n - 1);
      forall k | 0 <= k < n
        ensures Bit(IndexPrefix(c, n), k) <==> c[k] < SURFACE_LEVEL
      {
        BitOfSum(IndexPrefix(c, n - 1), c[n - 1] < SURFACE_LEVEL, n - 1, k);
      }
    }
  }

  /** The cube index: bit n is set exactly when corner n lies below the surface level. */
  function CubeIndex(c: seq<real>): (idx: nat)
    requires |c| == 8
    ensures idx < 256
    ensures forall n :: 0 <= n < 8 ==> (Bit(idx, n) <==> c[n] < SURFACE_LEVEL)
  {
    IndexPrefixBits(c, 8);
    IndexPrefix(c, 8)
  }

  lemma {:induction false} IndexPrefixExtremes(c: seq<real>, n: nat)
    requires n <= |c|
    ensures IndexPrefix(c, n) < Pow2(n)
    ensures IndexPrefix(c, n) == 0 <==> forall k :: 0 <= k < n ==> c[k] >= SURFACE_LEVEL
    ensures IndexPrefix(c, n) == Pow2(n) - 1 <==> forall k :: 0 <= k < n ==> c[k] < SURFACE_LEVEL
  {
    if n > 0 {
      IndexPrefixExtremes(c, n - 1);
    }
  }

  /** Index 0 means every corner is outside, index 255 that every corner is inside. */
  lemma CubeIndexExtremes(c: seq<real>)
    requires |c| == 8
    ensures CubeIndex(c) == 0 <==> forall k :: 0 <= k < 8 ==> c[k] >= SURFACE_LEVEL
    ensures CubeIndex(c) == 255 <==> forall k :: 0 <= k < 8 ==> c[k] < SURFACE_LEVEL
  {
    IndexPrefixExtremes(c, 8);
  }

  /** The loop at meshGenerator.ts:51-55, accumulating 1 << n per inside corner. */
  method ComputeCubeIndex(cornerNoises: seq<real>) returns (cubeIndex: nat)
    requires |cornerNoises| == 8
    ensures cubeIndex == CubeIndex(cornerNoises)
  {
    cubeIndex := 0;
    var bit := 1;
    for n := 0 to |cornerNoises|
      invariant cubeIndex == IndexPrefix(cornerNoises, n)
      invariant bit == Pow2(n)
    {
      if cornerNoises[n] < SURFACE_LEVEL {
        cubeIndex := cubeIndex + bit;
      }
      bit := 2 * bit;
    }
  }

  // ---------------------------------------------------------------------
  // Vertices

  function Abs(r: real): real {
    if r < 0.0 then -r else r
  }

  /** Corner a and corner b are on opposite sides of the surface. */
  predicate Straddles(da: real, db: real) {
    (da < SURFACE_LEVEL <= db) || (db < SURFACE_LEVEL <= da)
  }

  /**
    The interpolation factor |d_a - 0| / |d_b - d_a| of an edge. When the
    edge crosses the surface it lies in [0, 1] and is the fraction of the
    way from corner a to corner b at which the linearly interpolated
    density reaches the surface level.
   */
  function EdgeFactor(da: real, db: real): (t: real)
    requires da != db
    ensures t >= 0.0
    ensures Straddles(da, db) ==> 0.0 <= t <= 1.0 && da + t * (db - da) == SURFACE_LEVEL
  {
    Abs(da - SURFACE_LEVEL) / Abs(db - da)
  }

  /** The two corner densities of edge e of a cube with corner densities c. */
  function EdgeDensities(t: Tables, c: seq<real>, e: nat): (real, real)
    requires TablesShape(t) && |c| == 8 && e < 12
  {
    (c[t.edgeCorners[e].0], c[t.edgeCorners[e].1])
  }

  /** No edge that the case entry for c lists has two equal corner densities. */
  predicate NoFlatEdge(t: Tables, c: seq<real>)
    requires TablesShape(t) && |c| == 8
  {
    var idx := CubeIndex(c);
    idx != 0 && idx != 255 ==>
      forall k | 0 <= k < |t.table[idx]| ::
        EdgeDensities(t, c, t.table[idx][k]).0 != EdgeDensities(t, c, t.table[idx][k]).1
  }

  /**
    Interpolation never divides by zero in a visited cube (one whose origin is
    a multiple of q and whose corners lie in the grid). Cubes the loops skip
    are not constrained.
   */
  ghost predicate NoFlatEdges(m: NoiseMap, t: Tables, q: nat)
    requires IsNoiseMap(m) && TablesShape(t) && q > 0
  {
    forall o {:trigger Corners(m, o, q)} :: ValidOrigin(o, q) && InChunk(o, q) ==> NoFlatEdge(t, Corners(m, o, q))
  }

  /** A visited cube's listed edges can be interpolated. */
  lemma VisitedEdgesFit(m: NoiseMap, t: Tables, q: nat, interpolate: bool, o: Origin)
    requires IsNoiseMap(m) && TablesShape(t) && q > 0 && ValidOrigin(o, q) && InChunk(o, q)
    requires interpolate ==> NoFlatEdges(m, t, q)
    ensures EdgesFit(t, Corners(m, o, q), interpolate)
  {
  }

  /** The cube-local position of the vertex on edge e. */
  function LocalVertex(t: Tables, c: seq<real>, e: nat, interpolate: bool): Vec3
    requires TablesShape(t) && |c| == 8 && e < 12
    requires interpolate ==> EdgeDensities(t, c, e).0 != EdgeDensities(t, c, e).1
  {
    var v := t.edges[e];
    if !interpolate then v
    else
      var f := EdgeFactor(EdgeDensities(t, c, e).0, EdgeDensities(t, c, e).1);
      Vec3(if v.x == 0.5 then f else v.x, if v.y == 0.5 then f else v.y, if v.z == 0.5 then f else v.z)
  }

  /**
    With interpolation on, a vertex on an edge that crosses the surface keeps
    every table component other than 0.5; each 0.5 component becomes a factor
    in [0, 1] at which the linearly interpolated density reaches the surface.
   */
  lemma InterpolatedVertex(t: Tables, c: seq<real>, e: nat)
    requires TablesShape(t) && |c| == 8 && e < 12
    requires Straddles(EdgeDensities(t, c, e).0, EdgeDensities(t, c, e).1)
    ensures var da, db := EdgeDensities(t, c, e).0, EdgeDensities(t, c, e).1;
      var v, w := t.edges[e], LocalVertex(t, c, e, true);
      && (v.x != 0.5 ==> w.x == v.x) && (v.x == 0.5 ==> 0.0 <= w.x <= 1.0 && da + w.x * (db - da) == SURFACE_LEVEL)
      && (v.y != 0.5 ==> w.y == v.y) && (v.y == 0.5 ==> 0.0 <= w.y <= 1.0 && da + w.y * (db - da) == SURFACE_LEVEL)
      && (v.z != 0.5 ==> w.z == v.z) && (v.z == 0.5 ==> 0.0 <= w.z <= 1.0 && da + w.z * (db - da) == SURFACE_LEVEL)
  {
  }

  /** geom.scale(q, q, q) followed by geom.translate(x, y, z). */
  function Place(v: Vec3, q: nat, o: Origin): Vec3 {
    Vec3(q as real * v.x + o.x as real, q as real * v.y + o.y as real, q as real * v.z + o.z as real)
  }

  predicate InUnitCube(v: Vec3) {
    0.0 <= v.x <= 1.0 && 0.0 <= v.y <= 1.0 && 0.0 <= v.z <= 1.0
  }

  predicate InCube(v: Vec3, o: Origin, q: nat) {
    && o.x as real <= v.x <= (o.x + q) as real
    && o.y as real <= v.y <= (o.y + q) as real
    && o.z as real <= v.z <= (o.z + q) as real
  }

  /** Scaling a value in [0, 1] by r >= 0 stays in [0, r]. */
  lemma ScaleUnit(r: real, a: real)
    requires r >= 0.0 && 0.0 <= a <= 1.0
    ensures 0.0 <= r * a <= r
  {
    assert r * (1.0 - a) >= 0.0;
  }

  /** One axis of Place: a coordinate in [0, 1] lands in [b, b + q]. */
  lemma PlaceAxis(a: real, q: nat, b: int)
    requires 0.0 <= a <= 1.0
    ensures b as real <= q as real * a + b as real <= (b + q) as real
  {
    ScaleUnit(q as real, a);
    assert (b + q) as real == b as real + q as real;
  }

  /** A cube-local coordinate in [0,1]^3 lands inside the cube [o, o+q]^3. */
  lemma PlaceInCube(v: Vec3, q: nat, o: Origin)
    requires InUnitCube(v)
    ensures InCube(Place(v, q, o), o, q)
  {
    PlaceAxis(v.x, q, o.x);
    PlaceAxis(v.y, q, o.y);
    PlaceAxis(v.z, q, o.z);
  }


  // ---------------------------------------------------------------------
  // Triangles of one cube, and of the chunk

  /** With interpolation on, the cube's listed edges can be interpolated. */
  predicate EdgesFit(t: Tables, c: seq<real>, interpolate: bool)
    requires TablesShape(t) && |c| == 8
  {
    interpolate ==> NoFlatEdge(t, c)
  }

  /** Triangle k of a cube with index idx: edges table[idx][3k..3k+3], in table order. */
  function CubeTriangle(t: Tables, c: seq<real>, idx: nat, k: nat, interpolate: bool, q: nat, o: Origin): Triangle
    requires TablesShape(t) && |c| == 8 && idx == CubeIndex(c) && idx != 0 && idx != 255
    requires 3 * k + 3 <= |t.table[idx]|
    requires EdgesFit(t, c, interpolate)
  {
    var ids := t.table[idx];
    Triangle(Place(LocalVertex(t, c, ids[3 * k], interpolate), q, o),
             Place(LocalVertex(t, c, ids[3 * k + 1], interpolate), q, o),
             Place(LocalVertex(t, c, ids[3 * k + 2], interpolate), q, o))
  }

  /** One triangle per three entries of case idx, in table order. */
  function CaseTriangles(t: Tables, c: seq<real>, idx: nat, interpolate: bool, q: nat, o: Origin): seq<Triangle>
    requires TablesShape(t) && |c| == 8 && idx == CubeIndex(c) && idx != 0 && idx != 255
    requires EdgesFit(t, c, interpolate)
  {
    seq(|t.table[idx]| / 3, k requires 0 <= k < |t.table[idx]| / 3 => CubeTriangle(t, c, idx, k, interpolate, q, o))
  }

  /** Triangles of the cube at o: none for index 0 or 255, else one per three table entries. */
  function CubeTriangles(m: NoiseMap, t: Tables, q: nat, interpolate: bool, o: Origin): seq<Triangle>
    requires IsNoiseMap(m) && TablesShape(t) && InChunk(o, q)
    requires EdgesFit(t, Corners(m, o, q), interpolate)
  {
    var c := Corners(m, o, q);
    var idx := CubeIndex(c);
    if idx == 0 || idx == 255 then [] else CaseTriangles(t, c, idx, interpolate, q, o)
  }

  /**
    A cube with index 0 or 255 emits nothing; any other emits one triangle per
    three case-table entries, in table order, and without interpolation each
    vertex is the edge-table coordinate, scaled and translated, in the order listed.
   */
  lemma CubeTrianglesShape(m: NoiseMap, t: Tables, q: nat, interpolate: bool, o: Origin)
    requires IsNoiseMap(m) && TablesShape(t) && InChunk(o, q)
    requires EdgesFit(t, Corners(m, o, q), interpolate)
    ensures var idx := CubeIndex(Corners(m, o, q));
      var tris := CubeTriangles(m, t, q, interpolate, o);
      && (idx == 0 || idx == 255 ==> tris == [])
      && (idx != 0 && idx != 255 ==> |tris| == |t.table[idx]| / 3)
      && (idx != 0 && idx != 255 && !interpolate ==>
            forall k | 0 <= k < |tris| ::
              tris[k] == Triangle(Place(t.edges[t.table[idx][3 * k]], q, o),
                                  Place(t.edges[t.table[idx][3 * k + 1]], q, o),
                                  Place(t.edges[t.table[idx][3 * k + 2]], q, o)))
  {
  }

  /** The cube's triangle list as a function of its origin, wherever it can be evaluated. */
  function CubeFn(m: NoiseMap, t: Tables, q: nat, interpolate: bool): (cube: Origin --> seq<Triangle>)
    requires IsNoiseMap(m) && TablesShape(t)
    ensures forall o :: InChunk(o, q) && EdgesFit(t, Corners(m, o, q), interpolate) ==> cube.requires(o)
    ensures forall o :: InChunk(o, q) && EdgesFit(t, Corners(m, o, q), interpolate) ==>
      cube(o) == CubeTriangles(m, t, q, interpolate, o)
  {
    o requires InChunk(o, q) && EdgesFit(t, Corners(m, o, q), interpolate) =>
      CubeTriangles(m, t, q, interpolate, o)
  }

  /** The triangles of the cubes os, in order. */
  function Emit(cube: Origin --> seq<Triangle>, os: seq<Origin>): seq<Triangle>
    requires forall o <- os :: cube.requires(o)
  {
    if os == [] then [] else Emit(cube, os[..|os| - 1]) + cube(os[|os| - 1])
  }

  /** A loop coordinate v = k*q below CHUNK_SIZE = n*q: one more step stays within the chunk. */
  lemma StepFits(v: int, q: nat, k: int, n: int)
    requires q > 0 && n * q == CHUNK_SIZE && v == k * q && 0 <= k && v < CHUNK_SIZE
    ensures k < n && v + q == (k + 1) * q && v + q <= CHUNK_SIZE
  {
    MulLess(k, n, q);
    MulLess(k + 1, n + 1, q);
  }

  /** A loop coordinate v = k*q that reached CHUNK_SIZE = n*q with k <= n has made n steps. */
  lemma StepsDone(v: int, q: nat, k: int, n: int)
    requires q > 0 && n * q == CHUNK_SIZE && v == k * q && k <= n && v >= CHUNK_SIZE
    ensures k == n
  {
    MulLess(k, n, q);
  }

  lemma EmitSnoc(cube: Origin --> seq<Triangle>, os: seq<Origin>, o: Origin)
    requires forall o' <- os :: cube.requires(o')
    requires cube.requires(o)
    ensures Emit(cube, os + [o]) == Emit(cube, os) + cube(o)
  {
    assert (os + [o])[..|os|] == os;
  }

  lemma {:induction false} EmitConcat(cube: Origin --> seq<Triangle>, a: seq<Origin>, b: seq<Origin>)
    requires forall o <- a :: cube.requires(o)
    requires forall o <- b :: cube.requires(o)
    ensures Emit(cube, a + b) == Emit(cube, a) + Emit(cube, b)
  {
    if b == [] {
      assert a + b == a;
    } else {
      var b' := b[..|b| - 1];
      assert (a + b)[..|a + b| - 1] == a + b' && (a + b)[|a + b| - 1] == b[|b| - 1];
      EmitConcat(cube, a, b');
    }
  }

  /** Every visited cube can be evaluated. */
  lemma OriginsEvaluable(m: NoiseMap, t: Tables, q: nat, interpolate: bool)
    requires IsNoiseMap(m) && TablesShape(t) && q > 0 && CHUNK_SIZE % q == 0
    requires interpolate ==> NoFlatEdges(m, t, q)
    ensures forall o <- Origins(q) :: InChunk(o, q) && EdgesFit(t, Corners(m, o, q), interpolate)
  {
    OriginsExact(q);
    forall o | o in Origins(q) ensures ValidOrigin(o, q) && InChunk(o, q) {
      ValidOriginInChunk(o, q);
    }
  }

  /** The whole chunk's triangle list: each visited cube's triangles, in visiting order. */
  function Mesh(m: NoiseMap, t: Tables, levelOfDetail: nat, interpolate: bool): seq<Triangle>
    requires IsNoiseMap(m) && TablesShape(t) && CHUNK_SIZE % Pow2(levelOfDetail) == 0
    requires interpolate ==> NoFlatEdges(m, t, Pow2(levelOfDetail))
  {
    var q := Pow2(levelOfDetail);
    OriginsEvaluable(m, t, q, interpolate);
    Emit(CubeFn(m, t, q, interpolate), Origins(q))
  }

  // ---------------------------------------------------------------------
  // The imperative triangulator

  /** One vertex of a triangle: the edge-table coordinate, its 0.5 components replaced by the edge's factor when interpolating. */
  method EdgeVertex(tables: Tables, cornerNoises: seq<real>, id: nat, interpolate: bool) returns (v: Vec3)
    requires TablesShape(tables) && |cornerNoises| == 8 && id < 12
    requires interpolate ==> EdgeDensities(tables, cornerNoises, id).0 != EdgeDensities(tables, cornerNoises, id).1
    ensures v == LocalVertex(tables, cornerNoises, id, interpolate)
  {
    var edge := tables.edges[id];
    if interpolate {
      var edgeCorners := tables.edgeCorners[id];
      var edgeInterpolate := Abs(cornerNoises[edgeCorners.0] - SURFACE_LEVEL)
        / Abs(cornerNoises[edgeCorners.1] - cornerNoises[edgeCorners.0]);
      v := Vec3(if edge.x == 0.5 then edgeInterpolate else edge.x,
                if edge.y == 0.5 then edgeInterpolate else edge.y,
                if edge.z == 0.5 then edgeInterpolate else edge.z);
    } else {
      v := edge;
    }
  }

  /** The edge loop of a cube that the surface crosses: one triangle per three entries of its case. */
  method MarchEdges(tables: Tables, cornerNoises: seq<real>, cubeIndex: nat, interpolate: bool, quality: nat, o: Origin)
    returns (tris: seq<Triangle>)
    requires TablesShape(tables) && |cornerNoises| == 8
    requires cubeIndex == CubeIndex(cornerNoises) && cubeIndex != 0 && cubeIndex != 255
    requires EdgesFit(tables, cornerNoises, interpolate)
    ensures tris == CaseTriangles(tables, cornerNoises, cubeIndex, interpolate, quality, o)
  {
    ghost var want := CaseTriangles(tables, cornerNoises, cubeIndex, interpolate, quality, o);
    var tableEdges := tables.table[cubeIndex];
    ghost var n := |tableEdges| / 3;
    assert |tableEdges| == 3 * n && |want| == n;
    tris := [];
    var e := 0;
    ghost var k := 0;
    while e < |tableEdges|
      invariant 0 <= k <= n && e == 3 * k && tris == want[..k]
    {
      var v1 := EdgeVertex(tables, cornerNoises, tableEdges[e], interpolate);
      var v2 := EdgeVertex(tables, cornerNoises, tableEdges[e + 1], interpolate);
      var v3 := EdgeVertex(tables, cornerNoises, tableEdges[e + 2], interpolate);
      assert want[k] == Triangle(Place(v1, quality, o), Place(v2, quality, o), Place(v3, quality, o));
      PrefixSnoc(want, k + 1);
      tris := tris + [Triangle(Place(v1, quality, o), Place(v2, quality, o), Place(v3, quality, o))];
      e := e + 3;
      k := k + 1;
    }
    FullPrefix(want);
  }

  /** The body of the innermost loop: classify one cube and push its triangles. */
  method MarchCube(noiseMap: NoiseMap, tables: Tables, quality: nat, interpolate: bool, x: int, y: int, z: int)
    returns (tris: seq<Triangle>)
    requires IsNoiseMap(noiseMap) && TablesShape(tables) && InChunk(Origin(x, y, z), quality)
    requires EdgesFit(tables, Corners(noiseMap, Origin(x, y, z), quality), interpolate)
    ensures tris == CubeTriangles(noiseMap, tables, quality, interpolate, Origin(x, y, z))
  {
    var noiseMapYBot := noiseMap[y];
    var noiseMapYTop := noiseMap[y + quality];
    var cornerNoises := [
      noiseMapYBot[z][x], noiseMapYBot[z][x + quality],
      noiseMapYBot[z + quality][x + quality], noiseMapYBot[z + quality][x],
      noiseMapYTop[z][x], noiseMapYTop[z][x + quality],
      noiseMapYTop[z + quality][x + quality], noiseMapYTop[z + quality][x]];
    var o := Origin(x, y, z);
    assert cornerNoises == Corners(noiseMap, o, quality);
    var cubeIndex := ComputeCubeIndex(cornerNoises);
    tris := [];
    if cubeIndex != 0 && cubeIndex != 255 {
      tris := MarchEdges(tables, cornerNoises, cubeIndex, interpolate, quality, o);
    }
  }

  /** The innermost loop of generateMesh: the cubes (x, y, z) for every z, in increasing z. */
  method MarchRow(noiseMap: NoiseMap, tables: Tables, quality: nat, interpolate: bool, x: int, y: int)
    returns (geoms: seq<Triangle>)
    requires IsNoiseMap(noiseMap) && TablesShape(tables)
    requires quality > 0 && CHUNK_SIZE % quality == 0
    requires 0 <= x && x + quality <= CHUNK_SIZE && 0 <= y && y + quality <= CHUNK_SIZE
    requires x % quality == 0 && y % quality == 0
    requires interpolate ==> NoFlatEdges(noiseMap, tables, quality)
    ensures forall o <- Row(x, y, CHUNK_SIZE / quality, quality) :: CubeFn(noiseMap, tables, quality, interpolate).requires(o)
    ensures geoms == Emit(CubeFn(noiseMap, tables, quality, interpolate), Row(x, y, CHUNK_SIZE / quality, quality))
  {
    ghost var cube := CubeFn(noiseMap, tables, quality, interpolate);
    ghost var n := CHUNK_SIZE / quality;
    MultipleOf(CHUNK_SIZE, quality);
    geoms := [];
    var z := 0;
    ghost var k := 0;
    while z < CHUNK_SIZE
      invariant 0 <= k <= n && z == k * quality
      invariant forall o <- Row(x, y, k, quality) :: cube.requires(o)
      invariant geoms == Emit(cube, Row(x, y, k, quality))
    {
      StepFits(z, quality, k, n);
      MulMod(k, quality);
      VisitedEdgesFit(noiseMap, tables, quality, interpolate, Origin(x, y, z));
      var tris := MarchCube(noiseMap, tables, quality, interpolate, x, y, z);
      EmitSnoc(cube, Row(x, y, k, quality), Origin(x, y, z));
      geoms := geoms + tris;
      z := z + quality;
      k := k + 1;
    }
    StepsDone(z, quality, k, n);
  }

  /** The middle loop of generateMesh: every row at x, in increasing y. */
  method MarchSheet(noiseMap: NoiseMap, tables: Tables, quality: nat, interpolate: bool, x: int)
    returns (geoms: seq<Triangle>)
    requires IsNoiseMap(noiseMap) && TablesShape(tables)
    requires quality > 0 && CHUNK_SIZE % quality == 0
    requires 0 <= x && x + quality <= CHUNK_SIZE && x % quality == 0
    requires interpolate ==> NoFlatEdges(noiseMap, tables, quality)
    ensures forall o <- Sheet(x, CHUNK_SIZE / quality, quality, CHUNK_SIZE / quality) ::
      CubeFn(noiseMap, tables, quality, interpolate).requires(o)
    ensures geoms == Emit(CubeFn(noiseMap, tables, quality, interpolate),
                          Sheet(x, CHUNK_SIZE / quality, quality, CHUNK_SIZE / quality))
  {
    ghost var cube := CubeFn(noiseMap, tables, quality, interpolate);
    ghost var n := CHUNK_SIZE / quality;
    MultipleOf(CHUNK_SIZE, quality);
    geoms := [];
    var y := 0;
    ghost var j := 0;
    while y < CHUNK_SIZE
      invariant 0 <= j <= n && y == j * quality
      invariant forall o <- Sheet(x, j, quality, n) :: cube.requires(o)
      invariant geoms == Emit(cube, Sheet(x, j, quality, n))
    {
      StepFits(y, quality, j, n);
      MulMod(j, quality);
      var row := MarchRow(noiseMap, tables, quality, interpolate, x, y);
      EmitConcat(cube, Sheet(x, j, quality, n), Row(x, y, n, quality));
      geoms := geoms + row;
      y := y + quality;
      j := j + 1;
    }
    StepsDone(y, quality, j, n);
  }

  /**
    generateMesh: walk the chunk in cubes of edge 2^levelOfDetail, x
    outermost, and collect every cube's triangles into one list.
   */
  method GenerateMesh(noiseMap: NoiseMap, tables: Tables, interpolate: bool, levelOfDetail: nat)
    returns (geoms: seq<Triangle>)
    requires IsNoiseMap(noiseMap) && TablesShape(tables)
    requires CHUNK_SIZE % Pow2(levelOfDetail) == 0
    requires interpolate ==> NoFlatEdges(noiseMap, tables, Pow2(levelOfDetail))
    ensures geoms == Mesh(noiseMap, tables, levelOfDetail, interpolate)
  {
    var quality := Pow2(levelOfDetail);
    ghost var cube := CubeFn(noiseMap, tables, quality, interpolate);
    ghost var n := CHUNK_SIZE / quality;
    MultipleOf(CHUNK_SIZE, quality);
    geoms := [];
    var x := 0;
    ghost var i := 0;
    while x < CHUNK_SIZE
      invariant 0 <= i <= n && x == i * quality
      invariant forall o <- Block(i, quality, n) :: cube.requires(o)
      invariant geoms == Emit(cube, Block(i, quality, n))
    {
      StepFits(x, quality, i, n);
      MulMod(i, quality);
      var sheet := MarchSheet(noiseMap, tables, quality, interpolate, x);
      EmitConcat(cube, Block(i, quality, n), Sheet(x, n, quality, n));
      geoms := geoms + sheet;
      x := x + quality;
      i := i + 1;
    }
    StepsDone(x, quality, i, n);
  }

  // ---------------------------------------------------------------------
  // Properties that need more than the table's shape

  /**
    A case table in which every edge listed for configuration idx joins an
    inside corner to an outside corner of that configuration, as a correct
    marching-cubes table does.
   */
  predicate ConsistentTables(t: Tables)
    requires TablesShape(t)
  {
    forall idx, k | 0 <= idx < 256 && 0 <= k < |t.table[idx]| ::
      Bit(idx, t.edgeCorners[t.table[idx][k]].0) != Bit(idx, t.edgeCorners[t.table[idx][k]].1)
  }

  /** Every edge-table coordinate is in [0,1]^3 (the 0.5 components are the interpolated ones). */
  predicate EdgesInUnitCube(t: Tables)
    requires TablesShape(t)
  {
    forall e | 0 <= e < 12 :: InUnitCube(t.edges[e])
  }

  /** With a consistent case table, every edge used for a cube crosses the surface. */
  lemma ConsistentEdgesStraddle(t: Tables, c: seq<real>, k: nat)
    requires TablesShape(t) && ConsistentTables(t) && |c| == 8
    requires CubeIndex(c) != 0 && CubeIndex(c) != 255 && k < |t.table[CubeIndex(c)]|
    ensures Straddles(EdgeDensities(t, c, t.table[CubeIndex(c)][k]).0, EdgeDensities(t, c, t.table[CubeIndex(c)][k]).1)
  {
    var idx := CubeIndex(c);
    var e := t.table[idx][k];
    assert Bit(idx, t.edgeCorners[e].0) != Bit(idx, t.edgeCorners[e].1);
  }

  /** A consistent case table never makes interpolation divide by zero. */
  lemma ConsistentTablesNoFlatEdges(m: NoiseMap, t: Tables, q: nat)
    requires IsNoiseMap(m) && TablesShape(t) && ConsistentTables(t) && q > 0
    ensures NoFlatEdges(m, t, q)
  {
    forall o | InChunk(o, q) ensures NoFlatEdge(t, Corners(m, o, q)) {
      var c := Corners(m, o, q);
      if CubeIndex(c) != 0 && CubeIndex(c) != 255 {
        forall k | 0 <= k < |t.table[CubeIndex(c)]|
          ensures EdgeDensities(t, c, t.table[CubeIndex(c)][k]).0 != EdgeDensities(t, c, t.table[CubeIndex(c)][k]).1
        {
          ConsistentEdgesStraddle(t, c, k);
        }
      }
    }
  }

  /** With consistent tables whose coordinates lie in [0,1]^3, each cube's triangles stay in that cube. */
  lemma CubeTrianglesInCube(m: NoiseMap, t: Tables, q: nat, interpolate: bool, o: Origin)
    requires IsNoiseMap(m) && TablesShape(t) && ConsistentTables(t) && EdgesInUnitCube(t)
    requires InChunk(o, q) && EdgesFit(t, Corners(m, o, q), interpolate)
    ensures forall tri <- CubeTriangles(m, t, q, interpolate, o) ::
      InCube(tri.a, o, q) && InCube(tri.b, o, q) && InCube(tri.c, o, q)
  {
    var c := Corners(m, o, q);
    var idx := CubeIndex(c);
    var tris := CubeTriangles(m, t, q, interpolate, o);
    if idx != 0 && idx != 255 {
      var ids := t.table[idx];
      forall j | 0 <= j < |ids| ensures InUnitCube(LocalVertex(t, c, ids[j], interpolate)) {
        if interpolate {
          ConsistentEdgesStraddle(t, c, j);
        }
      }
      forall tri <- tris ensures InCube(tri.a, o, q) && InCube(tri.b, o, q) && InCube(tri.c, o, q) {
        var k :| 0 <= k < |tris| && tris[k] == tri;
        PlaceInCube(LocalVertex(t, c, ids[3 * k], interpolate), q, o);
        PlaceInCube(LocalVertex(t, c, ids[3 * k + 1], interpolate), q, o);
        PlaceInCube(LocalVertex(t, c, ids[3 * k + 2], interpolate), q, o);
      }
    }
  }

  predicate InsideChunk(v: Vec3) {
    && 0.0 <= v.x <= CHUNK_SIZE as real
    && 0.0 <= v.y <= CHUNK_SIZE as real
    && 0.0 <= v.z <= CHUNK_SIZE as real
  }

  lemma {:induction false} EmitInsideChunk(m: NoiseMap, t: Tables, q: nat, interpolate: bool, os: seq<Origin>)
    requires IsNoiseMap(m) && TablesShape(t) && ConsistentTables(t) && EdgesInUnitCube(t)
    requires forall o <- os :: InChunk(o, q) && EdgesFit(t, Corners(m, o, q), interpolate)
    ensures forall tri <- Emit(CubeFn(m, t, q, interpolate), os) ::
      InsideChunk(tri.a) && InsideChunk(tri.b) && InsideChunk(tri.c)
  {
    if os != [] {
      var o := os[|os| - 1];
      EmitInsideChunk(m, t, q, interpolate, os[..|os| - 1]);
      CubeTrianglesInCube(m, t, q, interpolate, o);
    }
  }

  /** With consistent tables, the whole mesh lies inside the chunk [0, CHUNK_SIZE]^3. */
  lemma MeshInsideChunk(m: NoiseMap, t: Tables, levelOfDetail: nat, interpolate: bool)
    requires IsNoiseMap(m) && TablesShape(t) && ConsistentTables(t) && EdgesInUnitCube(t)
    requires CHUNK_SIZE % Pow2(levelOfDetail) == 0
    ensures forall tri <- Mesh(m, t, levelOfDetail, interpolate) ::
      InsideChunk(tri.a) && InsideChunk(tri.b) && InsideChunk(tri.c)
  {
    var q := Pow2(levelOfDetail);
    ConsistentTablesNoFlatEdges(m, t, q);
    OriginsEvaluable(m, t, q, interpolate);
    EmitInsideChunk(m, t, q, interpolate, Origins(q));
  }
}
