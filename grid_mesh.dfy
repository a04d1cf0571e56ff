/**
 * The regular-grid plane that the water, terrain and sum-of-sines scripts all
 * build the same way: an (S+1) x (S+1) lattice of vertices laid out column by
 * column (outer loop x, inner loop z), and two triangles per grid cell written
 * six indices at a time.  The scripts instantiate it with S = 200.
 */
module GridMesh {
  import opened Arith

  datatype Vec2 = Vec2(u: real, v: real)
  datatype Vec3 = Vec3(x: real, y: real, z: real)
  datatype Vec4 = Vec4(x: real, y: real, z: real, w: real)

  /** The tangent every vertex receives. */
  const Tangent := Vec4(1.0, 0.0, 0.0, -1.0)

  /** Where a vertex's height comes from: zero, or a heightmap sample scaled by 100. */
  datatype HeightSource = Flat | Sampled(heightMap: seq<real>, resN: nat)

  /** A mesh as Unity keeps it after the setters copied the arrays. */
  datatype MeshData = MeshData(vertices: seq<Vec3>, uv: seq<Vec2>, tangents: seq<Vec4>, triangles: seq<int>)

  function VertexCount(S: nat): nat { (S + 1) * (S + 1) }

  function TriangleSlots(S: nat): nat { S * S * 6 }

  /** Vertex slot of lattice point (x, z): x * (S + 1) + z. */
  function GridIndex(S: nat, x: nat, z: nat): nat { x * (S + 1) + z }

  // ---------------------------------------------------------------------
  // Vertices

  /** The height source has a sample for every lattice point: z * resN + x stays inside it. */
  predicate HeightsCover(S: nat, h: HeightSource)
  {
    h.Sampled? ==> S * h.resN + S < |h.heightMap|
  }

  function HeightAt(S: nat, h: HeightSource, x: nat, z: nat): real
    requires HeightsCover(S, h) && x <= S && z <= S
  {
    match h
    case Flat => 0.0
    case Sampled(heightMap, resN) =>
      MulLeft(z, S, resN);
      heightMap[z * resN + x] * 100.0
  }

  /** Position of lattice point (x, z) on a plane of side L centred on the origin. */
  function Position(S: nat, L: real, x: nat, z: nat, y: real): Vec3
    requires 0 < S
  {
    Vec3(x as real / S as real * L - L * 0.5, y, z as real / S as real * L - L * 0.5)
  }

  function UvAt(S: nat, x: nat, z: nat): Vec2
    requires 0 < S
  {
    Vec2(x as real / S as real, z as real / S as real)
  }

  /** The vertex that lattice point (x, z) receives. */
  function VertexAt(S: nat, L: real, h: HeightSource, x: nat, z: nat): Vec3
    requires 0 < S && HeightsCover(S, h) && x <= S && z <= S
  {
    Position(S, L, x, z, HeightAt(S, h, x, z))
  }

  /** Lattice column and row of vertex slot i. */
  function Column(S: nat, i: nat): nat { i / (S + 1) }
  function Row(S: nat, i: nat): nat { i % (S + 1) }

  lemma SlotInLattice(S: nat, i: nat)
    requires i < VertexCount(S)
    ensures Column(S, i) <= S && Row(S, i) <= S
    ensures GridIndex(S, Column(S, i), Row(S, i)) == i
  {
    DivBelow(i, S + 1, S + 1);
    assert i == (i / (S + 1)) * (S + 1) + i % (S + 1);
  }

  /** What vertex slot i holds once the vertex loop is done. */
  function VertexSlot(S: nat, L: real, h: HeightSource, i: nat): Vec3
    requires 0 < S && HeightsCover(S, h) && i < VertexCount(S)
  {
    SlotInLattice(S, i);
    VertexAt(S, L, h, Column(S, i), Row(S, i))
  }

  function UvSlot(S: nat, i: nat): Vec2
    requires 0 < S
  {
    UvAt(S, Column(S, i), Row(S, i))
  }

  /** Slot x * (S + 1) + z belongs to lattice point (x, z) and to no other. */
  lemma {:induction false} GridIndexDecodes(S: nat, x: nat, z: nat)
    requires x <= S && z <= S
    ensures GridIndex(S, x, z) < VertexCount(S)
    ensures Column(S, GridIndex(S, x, z)) == x && Row(S, GridIndex(S, x, z)) == z
  {
    DivModOf(S + 1, x, z);
    MulLeft(x, S, S + 1);
  }

  /** The first n slots of the three vertex buffers hold what the vertex loop writes there. */
  ghost predicate VerticesFilled(S: nat, L: real, h: HeightSource, vs: seq<Vec3>, uvs: seq<Vec2>, tans: seq<Vec4>, n: nat)
    requires 0 < S && HeightsCover(S, h)
  {
    && n <= VertexCount(S) && n <= |vs| && n <= |uvs| && n <= |tans|
    && forall j | 0 <= j < n :: vs[j] == VertexSlot(S, L, h, j) && uvs[j] == UvSlot(S, j) && tans[j] == Tangent
  }

  /** One step of the vertex loop: writing point (x, z) into slot x * (S + 1) + z extends the filled prefix. */
  lemma {:induction false} FillVertex(S: nat, L: real, h: HeightSource, vs: seq<Vec3>, uvs: seq<Vec2>, tans: seq<Vec4>, x: nat, z: nat)
    requires 0 < S && HeightsCover(S, h) && x <= S && z <= S
    requires |vs| == |uvs| == |tans| == VertexCount(S)
    requires VerticesFilled(S, L, h, vs, uvs, tans, GridIndex(S, x, z))
    ensures GridIndex(S, x, z) < VertexCount(S)
    ensures var i := GridIndex(S, x, z);
            VerticesFilled(S, L, h, vs[i := VertexAt(S, L, h, x, z)], uvs[i := UvAt(S, x, z)], tans[i := Tangent], i + 1)
  {
    GridIndexDecodes(S, x, z);
  }

  /**
   * The vertex loop of CreatePlane / CreatePlaneMesh: i runs over the slots in
   * order while x (outer) and z (inner) run over the lattice, so slot
   * x * (S + 1) + z gets the position, uv and tangent of point (x, z).
   */
  method BuildVertices(S: nat, L: real, h: HeightSource)
    returns (vertices: array<Vec3>, uv: array<Vec2>, tangents: array<Vec4>)
    requires 0 < S && HeightsCover(S, h)
    ensures vertices.Length == uv.Length == tangents.Length == VertexCount(S)
    ensures VerticesFilled(S, L, h, vertices[..], uv[..], tangents[..], VertexCount(S))
  {
    var n := (S + 1) * (S + 1);
    vertices := new Vec3[n];
    uv := new Vec2[n];
    tangents := new Vec4[n];
    var tangent := Vec4(1.0, 0.0, 0.0, -1.0);
    var i, x := 0, 0;
    while x <= S
      invariant 0 <= x <= S + 1
      invariant i == x * (S + 1)
      invariant VerticesFilled(S, L, h, vertices[..], uv[..], tangents[..], i)
    {
      var z := 0;
      while z <= S
        invariant 0 <= z <= S + 1
        invariant i == x * (S + 1) + z
        invariant VerticesFilled(S, L, h, vertices[..], uv[..], tangents[..], i)
      {
        FillVertex(S, L, h, vertices[..], uv[..], tangents[..], x, z);
        vertices[i] := Position(S, L, x, z, HeightAt(S, h, x, z));
        uv[i] := Vec2(x as real / S as real, z as real / S as real);
        tangents[i] := tangent;
        z, i := z + 1, i + 1;
      }
      x := x + 1;
    }
  }

  /** Slot x * (S + 1) + z holds the vertex of lattice point (x, z). */
  lemma VertexSlotAtGrid(S: nat, L: real, h: HeightSource, x: nat, z: nat)
    requires 0 < S && HeightsCover(S, h) && x <= S && z <= S
    ensures GridIndex(S, x, z) < VertexCount(S)
    ensures VertexSlot(S, L, h, GridIndex(S, x, z)) == VertexAt(S, L, h, x, z)
    ensures UvSlot(S, GridIndex(S, x, z)) == UvAt(S, x, z)
  {
    GridIndexDecodes(S, x, z);
  }

  /** Every uv coordinate lies in the unit square. */
  lemma UvInUnitSquare(S: nat, i: nat)
    requires 0 < S && i < VertexCount(S)
    ensures 0.0 <= UvSlot(S, i).u <= 1.0 && 0.0 <= UvSlot(S, i).v <= 1.0
  {
    SlotInLattice(S, i);
    RatioInUnit(Column(S, i), S);
    RatioInUnit(Row(S, i), S);
  }

  /**
   * The heightmap is read transposed: the vertex of slot x * (S + 1) + z takes
   * sample z * resN + x, which with resN = S + 1 is the slot of point (z, x).
   */
  lemma HeightReadTransposed(S: nat, L: real, heightMap: seq<real>, x: nat, z: nat)
    requires 0 < S && x <= S && z <= S && HeightsCover(S, Sampled(heightMap, S + 1))
    ensures GridIndex(S, x, z) < VertexCount(S) && GridIndex(S, z, x) < |heightMap|
    ensures VertexSlot(S, L, Sampled(heightMap, S + 1), GridIndex(S, x, z)).y
            == heightMap[GridIndex(S, z, x)] * 100.0
  {
    VertexSlotAtGrid(S, L, Sampled(heightMap, S + 1), x, z);
    MulLeft(z, S, S + 1);
  }

  /** For any resolution, vertex slot i takes sample Row(i) * resN + Column(i), scaled by 100. */
  lemma SampledHeightAtSlot(S: nat, L: real, heightMap: seq<real>, resN: nat)
    requires 0 < S && HeightsCover(S, Sampled(heightMap, resN))
    ensures forall i | 0 <= i < VertexCount(S) ::
              && Row(S, i) * resN + Column(S, i) < |heightMap|
              && VertexSlot(S, L, Sampled(heightMap, resN), i).y == heightMap[Row(S, i) * resN + Column(S, i)] * 100.0
  {
    forall i | 0 <= i < VertexCount(S)
      ensures Row(S, i) * resN + Column(S, i) < |heightMap|
      ensures VertexSlot(S, L, Sampled(heightMap, resN), i).y == heightMap[Row(S, i) * resN + Column(S, i)] * 100.0
    {
      SlotInLattice(S, i);
      MulLeft(Row(S, i), S, resN);
    }
  }

  /** A heightmap of (S + 1)^2 samples read with resN = S + 1 covers the lattice. */
  lemma SquareHeightMapCovers(S: nat, heightMap: seq<real>)
    requires |heightMap| == VertexCount(S)
    ensures HeightsCover(S, Sampled(heightMap, S + 1))
  {
    assert S * (S + 1) + S < (S + 1) * (S + 1);
  }

  // ---------------------------------------------------------------------
  // Triangles

  /** Index written at corner c of the quad whose first vertex is vi. */
  function Corner(S: nat, vi: nat, c: nat): nat
    requires c < 6
  {
    match c
    case 0 => vi
    case 1 => vi + 1
    case 2 => vi + S + 2
    case 3 => vi
    case 4 => vi + S + 2
    case _ => vi + S + 1
  }

  /** Triangle-buffer slot of corner c of quad (x, z): 6 * (x * S + z) + c. */
  function QuadSlot(S: nat, x: nat, z: nat, c: nat): nat { 6 * (x * S + z) + c }

  /** What triangle slot t holds once the triangle loop is done. */
  function TriangleSlot(S: nat, t: nat): nat
    requires 0 < S
  {
    Corner(S, GridIndex(S, (t / 6) / S, (t / 6) % S), t % 6)
  }

  /** Corner c of quad (x, z) lands in its own slot with the index of that corner. */
  lemma {:induction false} QuadSlotDecodes(S: nat, x: nat, z: nat, c: nat)
    requires z < S && c < 6
    ensures (QuadSlot(S, x, z, c) / 6) / S == x && (QuadSlot(S, x, z, c) / 6) % S == z
    ensures QuadSlot(S, x, z, c) % 6 == c
    ensures TriangleSlot(S, QuadSlot(S, x, z, c)) == Corner(S, GridIndex(S, x, z), c)
  {
    DivModOf(6, x * S + z, c);
    DivModOf(S, x, z);
  }

  lemma {:induction false} QuadSlotInRange(S: nat, x: nat, z: nat)
    requires x < S && z < S
    ensures QuadSlot(S, x, z, 5) < TriangleSlots(S)
  {
    MulLeft(x + 1, S, S);
  }

  /** The first n slots of a triangle buffer hold what the triangle loop writes there. */
  ghost predicate TrianglesFilled(S: nat, s: seq<int>, n: nat)
    requires 0 < S
  {
    n <= |s| && forall t | 0 <= t < n :: s[t] == TriangleSlot(S, t)
  }

  /** One step of the triangle loop: the six writes of quad (x, z) extend the filled prefix by 6. */
  lemma {:induction false} FillQuad(S: nat, s: seq<int>, s': seq<int>, x: nat, z: nat)
    requires x < S && z < S && |s| == |s'| == TriangleSlots(S)
    requires TrianglesFilled(S, s, QuadSlot(S, x, z, 0))
    requires var ti, vi := QuadSlot(S, x, z, 0), GridIndex(S, x, z);
             QuadSlot(S, x, z, 5) < |s| &&
             s' == s[ti := vi][ti + 1 := vi + 1][ti + 2 := vi + S + 2][ti + 3 := vi][ti + 4 := vi + S + 2][ti + 5 := vi + S + 1]
    ensures TrianglesFilled(S, s', QuadSlot(S, x, z, 6))
  {
    var ti := QuadSlot(S, x, z, 0);
    forall t | ti <= t < ti + 6
      ensures s'[t] == TriangleSlot(S, t)
    {
      QuadSlotDecodes(S, x, z, t - ti);
    }
  }

  /** Body of the triangle loop: the two triangles of quad (x, z), six indices from slot ti. */
  method WriteQuad(triangles: array<int>, S: nat, x: nat, z: nat, ti: nat, vi: nat)
    requires x < S && z < S && triangles.Length == TriangleSlots(S)
    requires ti == QuadSlot(S, x, z, 0) && vi == GridIndex(S, x, z)
    requires TrianglesFilled(S, triangles[..], ti)
    modifies triangles
    ensures ti + 6 <= triangles.Length
    ensures TrianglesFilled(S, triangles[..], ti + 6)
    ensures triangles[ti + 6..] == old(triangles[ti + 6..])
  {
    QuadSlotInRange(S, x, z);
    ghost var before := triangles[..];
    triangles[ti + 0] := vi;
    triangles[ti + 1] := vi + 1;
    triangles[ti + 2] := vi + S + 2;
    triangles[ti + 3] := vi;
    triangles[ti + 4] := vi + S + 2;
    triangles[ti + 5] := vi + S + 1;
    FillQuad(S, before, triangles[..], x, z);
  }

  /**
   * The triangle loop of CreatePlane / CreatePlaneMesh: ti advances by 6 and
   * vi by 1 per quad, and vi once more at the end of each column, so quad
   * (x, z) starts at vertex x * (S + 1) + z and fills slots 6 * (x * S + z) + 0..5.
   */
  method BuildTriangles(S: nat) returns (triangles: array<int>)
    requires 0 < S
    ensures triangles.Length == TriangleSlots(S)
    ensures TrianglesFilled(S, triangles[..], triangles.Length)
  {
    triangles := new int[S * S * 6];
    var ti, vi, x := 0, 0, 0;
    while x < S
      invariant 0 <= x <= S
      invariant ti == QuadSlot(S, x, 0, 0) && vi == GridIndex(S, x, 0)
      invariant TrianglesFilled(S, triangles[..], ti)
    {
      var z := 0;
      while z < S
        invariant 0 <= z <= S
        invariant ti == QuadSlot(S, x, z, 0) && vi == GridIndex(S, x, z)
        invariant TrianglesFilled(S, triangles[..], ti)
      {
        WriteQuad(triangles, S, x, z, ti, vi);
        ti, vi, z := ti + 6, vi + 1, z + 1;
      }
      assert (x + 1) * S == x * S + S && (x + 1) * (S + 1) == x * (S + 1) + S + 1;
      vi, x := vi + 1, x + 1;
    }
  }

  /** Every triangle slot belongs to exactly one corner of exactly one quad. */
  lemma {:induction false} EverySlotHasOneQuadCorner(S: nat, t: nat)
    requires 0 < S && t < TriangleSlots(S)
    ensures var q := t / 6;
            q / S < S && q % S < S && t == QuadSlot(S, q / S, q % S, t % 6)
  {
    var q := t / 6;
    DivBelow(t, 6, S * S);
    DivBelow(q, S, S);
    assert q == (q / S) * S + q % S;
  }

  lemma {:induction false} QuadSlotInjective(S: nat, x: nat, z: nat, c: nat, x': nat, z': nat, c': nat)
    requires z < S && c < 6 && z' < S && c' < 6
    requires QuadSlot(S, x, z, c) == QuadSlot(S, x', z', c')
    ensures x == x' && z == z' && c == c'
  {
    QuadSlotDecodes(S, x, z, c);
    QuadSlotDecodes(S, x', z', c');
  }

  /** Every index in the triangle buffer names a vertex: 0 <= index < (S + 1)^2. */
  lemma {:induction false} TriangleIndexInBounds(S: nat, t: nat)
    requires 0 < S && t < TriangleSlots(S)
    ensures 0 <= TriangleSlot(S, t) < VertexCount(S)
  {
    EverySlotHasOneQuadCorner(S, t);
    CornerInLattice(S, (t / 6) / S, (t / 6) % S, t % 6);
  }

  /** The farthest corner of quad (x, z) is vertex (x + 1, z + 1), still inside the lattice. */
  lemma {:induction false} CornerInLattice(S: nat, x: nat, z: nat, c: nat)
    requires x < S && z < S && c < 6
    ensures Corner(S, GridIndex(S, x, z), c) <= GridIndex(S, x + 1, z + 1)
    ensures Corner(S, GridIndex(S, x, z), c) < VertexCount(S)
  {
    var vi := GridIndex(S, x, z);
    MulLeft(x + 1, S, S + 1);
    assert vi + S + 2 == (x + 1) * (S + 1) + z + 1;
    assert VertexCount(S) == S * (S + 1) + S + 1;
  }

  /** The bound is tight: the last quad's far corner is the last vertex. */
  lemma LastQuadReachesLastVertex(S: nat)
    requires 0 < S
    ensures 6 * S * S - 4 < TriangleSlots(S)
    ensures TriangleSlot(S, 6 * S * S - 4) == VertexCount(S) - 1
  {
    assert 6 * S * S - 4 == QuadSlot(S, S - 1, S - 1, 2);
    QuadSlotDecodes(S, S - 1, S - 1, 2);
  }

  /**
   * The quad at (x, z) is the lattice cell with corners (x, z), (x, z+1),
   * (x+1, z+1) and (x+1, z): no quad wraps from the end of one column to the
   * start of the next.
   */
  lemma QuadIsLatticeCell(S: nat, x: nat, z: nat)
    requires x < S && z < S
    ensures Corner(S, GridIndex(S, x, z), 0) == GridIndex(S, x, z)
    ensures Corner(S, GridIndex(S, x, z), 1) == GridIndex(S, x, z + 1)
    ensures Corner(S, GridIndex(S, x, z), 2) == GridIndex(S, x + 1, z + 1)
    ensures Corner(S, GridIndex(S, x, z), 3) == GridIndex(S, x, z)
    ensures Corner(S, GridIndex(S, x, z), 4) == GridIndex(S, x + 1, z + 1)
    ensures Corner(S, GridIndex(S, x, z), 5) == GridIndex(S, x + 1, z)
  {
  }

  /**
   * The two triangles of a quad, slots 6q..6q+2 and 6q+3..6q+5, share the
   * diagonal from the quad's first vertex to its opposite corner, each has
   * three distinct corners, and their remaining corners differ.
   */
  lemma {:induction false} QuadSplitsAlongDiagonal(S: nat, x: nat, z: nat)
    requires x < S && z < S
    ensures var a, b, c := TriangleSlot(S, QuadSlot(S, x, z, 0)), TriangleSlot(S, QuadSlot(S, x, z, 1)), TriangleSlot(S, QuadSlot(S, x, z, 2));
            var d, e, f := TriangleSlot(S, QuadSlot(S, x, z, 3)), TriangleSlot(S, QuadSlot(S, x, z, 4)), TriangleSlot(S, QuadSlot(S, x, z, 5));
            && a == d == GridIndex(S, x, z) && c == e == GridIndex(S, x + 1, z + 1)
            && a != b && b != c && a != c
            && d != e && e != f && d != f
            && b != f
  {
    QuadSlotDecodes(S, x, z, 0);
    QuadSlotDecodes(S, x, z, 1);
    QuadSlotDecodes(S, x, z, 2);
    QuadSlotDecodes(S, x, z, 3);
    QuadSlotDecodes(S, x, z, 4);
    QuadSlotDecodes(S, x, z, 5);
  }

  /** Triangle k starts at corner 0 or 3 of quad k / 2. */
  lemma {:induction false} TriangleStartsAtHalfQuad(S: nat, k: nat)
    requires 0 < S && k < 2 * S * S
    ensures var q := k / 2;
            q / S < S && q % S < S && 3 * k == QuadSlot(S, q / S, q % S, 3 * (k % 2))
  {
    var q := k / 2;
    DivBelow(q, S, S);
    assert q == (q / S) * S + q % S;
  }

  /** Each of the 2 * S^2 triangles, slots 3k..3k+2, has three distinct vertices. */
  lemma {:induction false} TriangleCornersDistinct(S: nat, k: nat)
    requires 0 < S && k < 2 * S * S
    ensures TriangleSlot(S, 3 * k) != TriangleSlot(S, 3 * k + 1)
    ensures TriangleSlot(S, 3 * k + 1) != TriangleSlot(S, 3 * k + 2)
    ensures TriangleSlot(S, 3 * k) != TriangleSlot(S, 3 * k + 2)
  {
    TriangleStartsAtHalfQuad(S, k);
    var q := k / 2;
    var x, z, h := q / S, q % S, 3 * (k % 2);
    QuadSlotDecodes(S, x, z, h);
    QuadSlotDecodes(S, x, z, h + 1);
    QuadSlotDecodes(S, x, z, h + 2);
  }

  // ---------------------------------------------------------------------
  // The plane as a whole

  /** Triangle buffer exactly as the triangle loop leaves it. */
  ghost predicate IsTriangulation(S: nat, triangles: seq<int>)
    requires 0 < S
  {
    |triangles| == TriangleSlots(S) && TrianglesFilled(S, triangles, |triangles|)
  }

  /** Mesh exactly as CreatePlane / CreatePlaneMesh hands it to Unity. */
  ghost predicate IsPlaneMesh(S: nat, L: real, h: HeightSource, m: MeshData)
    requires 0 < S && HeightsCover(S, h)
  {
    && |m.vertices| == |m.uv| == |m.tangents| == VertexCount(S)
    && VerticesFilled(S, L, h, m.vertices, m.uv, m.tangents, VertexCount(S))
    && IsTriangulation(S, m.triangles)
  }

  /** The triangulation depends on S alone: two loops with the same S write the same buffer. */
  lemma TriangulationUnique(S: nat, a: seq<int>, b: seq<int>)
    requires 0 < S && IsTriangulation(S, a) && IsTriangulation(S, b)
    ensures a == b
  {
  }

  /** Likewise the whole mesh depends only on S, the plane length and the heights it reads. */
  lemma PlaneMeshUnique(S: nat, L: real, h: HeightSource, a: MeshData, b: MeshData)
    requires 0 < S && HeightsCover(S, h) && IsPlaneMesh(S, L, h, a) && IsPlaneMesh(S, L, h, b)
    ensures a == b
  {
  }

  /** The plane mesh in closed form: slot i of each buffer, slot t of the triangle buffer. */
  function PlaneMeshOf(S: nat, L: real, h: HeightSource): (m: MeshData)
    requires 0 < S && HeightsCover(S, h)
    ensures |m.vertices| == |m.uv| == |m.tangents| == VertexCount(S)
    ensures |m.triangles| == TriangleSlots(S)
    ensures forall i | 0 <= i < VertexCount(S) :: m.tangents[i] == Tangent
  {
    MeshData(
      seq(VertexCount(S), i requires 0 <= i < VertexCount(S) => VertexSlot(S, L, h, i)),
      seq(VertexCount(S), i requires 0 <= i < VertexCount(S) => UvSlot(S, i)),
      seq(VertexCount(S), _ => Tangent),
      seq(TriangleSlots(S), t requires 0 <= t < TriangleSlots(S) => TriangleSlot(S, t)))
  }

  /** What the loops build is exactly the closed form. */
  lemma PlaneMeshIsClosedForm(S: nat, L: real, h: HeightSource, m: MeshData)
    requires 0 < S && HeightsCover(S, h)
    ensures IsPlaneMesh(S, L, h, m) <==> m == PlaneMeshOf(S, L, h)
  {
    if IsPlaneMesh(S, L, h, m) {
      var c := PlaneMeshOf(S, L, h);
      assert m.vertices == c.vertices;
      assert m.uv == c.uv;
      assert m.tangents == c.tangents;
      assert m.triangles == c.triangles;
    }
  }

  /** A plane mesh only references its own vertices, and it has 2 * S^2 triangles. */
  lemma PlaneMeshIndicesValid(S: nat, L: real, h: HeightSource, m: MeshData)
    requires 0 < S && HeightsCover(S, h) && IsPlaneMesh(S, L, h, m)
    ensures |m.triangles| == 3 * (2 * S * S)
    ensures forall t | 0 <= t < |m.triangles| :: 0 <= m.triangles[t] < |m.vertices|
  {
    forall t | 0 <= t < |m.triangles|
      ensures 0 <= m.triangles[t] < |m.vertices|
    {
      TriangleIndexInBounds(S, t);
    }
  }

  /**
   * The height source only moves vertices up and down: a sampled plane and the
   * flat plane of the same size share uv, tangents, triangles and the x and z of
   * every vertex, and the flat plane lies at height 0.
   */
  lemma HeightOnlyMovesY(S: nat, L: real, h: HeightSource)
    requires 0 < S && HeightsCover(S, h)
    ensures var m, f := PlaneMeshOf(S, L, h), PlaneMeshOf(S, L, Flat);
            && m.uv == f.uv && m.tangents == f.tangents && m.triangles == f.triangles
            && |m.vertices| == |f.vertices|
            && forall i | 0 <= i < |f.vertices| ::
                 f.vertices[i].y == 0.0 && m.vertices[i].x == f.vertices[i].x && m.vertices[i].z == f.vertices[i].z
  {
  }

  /** Both loops together: builds the arrays CreatePlane assigns and the mesh it sets. */
  method BuildPlane(S: nat, L: real, h: HeightSource)
    returns (vertices: array<Vec3>, triangles: array<int>, m: MeshData)
    requires 0 < S && HeightsCover(S, h)
    ensures IsPlaneMesh(S, L, h, m) && m == PlaneMeshOf(S, L, h)
    ensures vertices[..] == m.vertices && triangles[..] == m.triangles
  {
    var uv, tangents;
    vertices, uv, tangents := BuildVertices(S, L, h);
    triangles := BuildTriangles(S);
    m := MeshData(vertices[..], uv[..], tangents[..], triangles[..]);
    PlaneMeshIsClosedForm(S, L, h, m);
  }
}
