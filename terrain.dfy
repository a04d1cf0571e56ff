/**
 * The C# side of the procedural terrain (class TerrainScript): the 200 x 200
 * terrain plane whose heights come from the fractal-noise heightmap, the
 * collision plane built from the same heights, the routing of the four
 * inspector octaves into the octave buffer, and the two dispatches (fractal
 * noise over the 201 x 201 heightmap, grass placement over the terrain
 * triangles).  The noise and grass kernels run on the GPU and are not part of
 * this model; the heights they leave in the height buffer are an input.
 */
module Terrain {
  import opened Compute
  import GridMesh

  const PlaneSize: nat := 100
  /** Quads per side of the plane. */
  const SideVertCount: nat := PlaneSize * 2
  /** Vertices per side, and the heightmap resolution. */
  const VertNum: nat := SideVertCount + 1
  const OctaveCount: nat := 4

  /** One octave as the inspector shows it. */
  datatype UiOctaveParams = UiOctaveParams(lacunarity: real, persistence: real, rotation: int, shift: real)

  /** One octave as the noise kernel reads it from the octave buffer. */
  datatype OctaveParams = OctaveParams(lacunarity: real, persistence: real, rotation: int, shift: real)

  const ZeroOctave := OctaveParams(0.0, 0.0, 0, 0.0)

  function FillOctaveStruct(ui: UiOctaveParams): (o: OctaveParams)
    ensures o.lacunarity == ui.lacunarity && o.persistence == ui.persistence
    ensures o.rotation == ui.rotation && o.shift == ui.shift
  {
    OctaveParams(ui.lacunarity, ui.persistence, ui.rotation, ui.shift)
  }

  /** The four octave structs SetSOctaveBuffers produces, slot k from inspector octave k + 1. */
  function FilledOctaves(ui: seq<UiOctaveParams>): seq<OctaveParams>
  {
    seq(|ui|, k requires 0 <= k < |ui| => FillOctaveStruct(ui[k]))
  }

  datatype Kernel = FractalNoiseCS | TerrainOffsets

  /** The heightmap dispatch: GRID_DIM x GRID_DIM groups. */
  function NoiseDispatch(gridDim: nat): Dispatch<Kernel>
  {
    Dispatch(FractalNoiseCS, gridDim, gridDim, 1)
  }

  /** The grass dispatch: one row of CeilToInt(count / group size) groups. */
  function GrassDispatch(triangleCount: nat, groupSize: BlockSize): Dispatch<Kernel>
  {
    Dispatch(TerrainOffsets, GrassThreadGroups(triangleCount, groupSize), 1, 1)
  }

  /** Terrain mesh: the 200 x 200 plane whose vertex (x, z) stands at 100 times heights[z * resN + x]; only y differs from the flat plane. */
  function TerrainMeshOf(heights: seq<real>, resN: nat): (m: GridMesh.MeshData)
    requires GridMesh.HeightsCover(SideVertCount, GridMesh.Sampled(heights, resN))
    ensures |m.vertices| == VertNum * VertNum && |m.triangles| == 6 * SideVertCount * SideVertCount
    ensures m.uv == GridMesh.PlaneMeshOf(SideVertCount, PlaneSize as real, GridMesh.Flat).uv
    ensures m.triangles == GridMesh.PlaneMeshOf(SideVertCount, PlaneSize as real, GridMesh.Flat).triangles
    ensures forall i | 0 <= i < |m.vertices| ::
              && m.vertices[i].x == GridMesh.PlaneMeshOf(SideVertCount, PlaneSize as real, GridMesh.Flat).vertices[i].x
              && m.vertices[i].z == GridMesh.PlaneMeshOf(SideVertCount, PlaneSize as real, GridMesh.Flat).vertices[i].z
    ensures forall i | 0 <= i < |m.vertices| ::
              && GridMesh.Row(SideVertCount, i) * resN + GridMesh.Column(SideVertCount, i) < |heights|
              && m.vertices[i].y == 100.0 * heights[GridMesh.Row(SideVertCount, i) * resN + GridMesh.Column(SideVertCount, i)]
  {
    GridMesh.HeightOnlyMovesY(SideVertCount, PlaneSize as real, GridMesh.Sampled(heights, resN));
    GridMesh.SampledHeightAtSlot(SideVertCount, PlaneSize as real, heights, resN);
    GridMesh.PlaneMeshOf(SideVertCount, PlaneSize as real, GridMesh.Sampled(heights, resN))
  }

  /**
   * The terrain mesh read from a 201 x 201 heightmap is a plane mesh of 2 * 200^2
   * triangles, the count the grass pass works through, each corner a valid vertex.
   */
  lemma TerrainTriangleCount(heights: seq<real>)
    requires |heights| == VertNum * VertNum
    ensures GridMesh.HeightsCover(SideVertCount, GridMesh.Sampled(heights, VertNum))
    ensures var m := TerrainMeshOf(heights, VertNum);
            && GridMesh.IsPlaneMesh(SideVertCount, PlaneSize as real, GridMesh.Sampled(heights, VertNum), m)
            && |m.triangles| / 3 == 80000
            && forall t | 0 <= t < |m.triangles| :: 0 <= m.triangles[t] < |m.vertices|
  {
    var h := GridMesh.Sampled(heights, VertNum);
    GridMesh.SquareHeightMapCovers(SideVertCount, heights);
    var m := TerrainMeshOf(heights, VertNum);
    GridMesh.PlaneMeshIsClosedForm(SideVertCount, PlaneSize as real, h, m);
    GridMesh.PlaneMeshIndicesValid(SideVertCount, PlaneSize as real, h, m);
  }

  /** The noise dispatch gives every one of the 201 x 201 heightmap texels a thread, whatever the block size. */
  lemma NoiseCoversHeightmap(blockDim: BlockSize)
    ensures NoiseDispatch(GridDimFor(VertNum, blockDim)).groupsX * blockDim >= VertNum
    ensures NoiseDispatch(GridDimFor(VertNum, blockDim)).groupsY * blockDim >= VertNum
  {
  }

  /**
   * The grass dispatch reaches every terrain triangle only when the group size
   * divides 80000.  The group size is read from the grass compute shader, which
   * is not part of this model; for example, with 256 threads per group it
   * launches 312 groups, and the last 128 triangles get no grass.
   */
  lemma GrassDispatchMissesTail(groupSize: BlockSize)
    ensures GrassDispatch(80000, groupSize).groupsX * groupSize == 80000 <==> 80000 % groupSize == 0
    ensures GrassDispatch(80000, 256).groupsX == 312 && 312 * 256 == 80000 - 128
  {
    GrassThreadGroupsCoverAll(80000, groupSize);
  }

  class TerrainScript {
    var octave1: UiOctaveParams
    var octave2: UiOctaveParams
    var octave3: UiOctaveParams
    var octave4: UiOctaveParams
    /** Re-run the noise and grass passes every frame while set; never cleared here. */
    var updateOctave: bool
    /** Rebuild the collision plane on the next frame; cleared once done. */
    var reCalcCollision: bool

    const octaves: array<OctaveParams>
    /** What SetData last uploaded to the octave buffer. */
    var octaveBuffer: seq<OctaveParams>
    /** CPU copy of the height buffer, read back once at Start. */
    const heightMap: array<real>
    var resN: nat
    var gridDim: nat
    var vertices: array?<GridMesh.Vec3>
    var triangles: array?<int>
    var mesh: Option<GridMesh.MeshData>
    /** The mesh shared with the MeshCollider. */
    var collisionMesh: Option<GridMesh.MeshData>
    var terrainTriangleCount: nat
    /** Every kernel dispatch issued so far, oldest first. */
    var dispatches: seq<Dispatch<Kernel>>

    /** Thread-group size of each kernel, fixed by the compute shaders. */
    const blockDim: Kernel -> BlockSize

    ghost predicate Valid()
      reads this
    {
      octaves.Length == OctaveCount && heightMap.Length == VertNum * VertNum
    }

    function UiOctaves(): (ui: seq<UiOctaveParams>)
      reads this
      ensures |ui| == OctaveCount
    {
      [octave1, octave2, octave3, octave4]
    }

    /** The component as the scene loads it, before Start. */
    constructor (ui: seq<UiOctaveParams>, updateOctave: bool, reCalcCollision: bool, blockDim: Kernel -> BlockSize)
      requires |ui| == OctaveCount
      ensures Valid() && fresh(octaves) && fresh(heightMap)
      ensures UiOctaves() == ui && this.updateOctave == updateOctave && this.reCalcCollision == reCalcCollision
      ensures this.blockDim == blockDim
      ensures octaves[..] == seq(OctaveCount, _ => ZeroOctave)
      ensures heightMap[..] == seq(VertNum * VertNum, _ => 0.0)
      ensures resN == 0 && terrainTriangleCount == 0 && dispatches == []
      ensures mesh == None && collisionMesh == None && vertices == null && triangles == null
    {
      octave1, octave2, octave3, octave4 := ui[0], ui[1], ui[2], ui[3];
      this.updateOctave := updateOctave;
      this.reCalcCollision := reCalcCollision;
      this.blockDim := blockDim;
      octaves := new OctaveParams[4](_ => ZeroOctave);
      octaveBuffer := [];
      heightMap := new real[201 * 201](_ => 0.0);
      resN, gridDim := 0, 0;
      vertices, triangles := null, null;
      mesh, collisionMesh := None, None;
      terrainTriangleCount := 0;
      dispatches := [];
    }

    /** Slot k of the octave array is filled from inspector octave k + 1, then uploaded. */
    method SetSOctaveBuffers()
      requires Valid()
      modifies octaves, this`octaveBuffer
      ensures octaves[..] == FilledOctaves(UiOctaves())
      ensures octaveBuffer == octaves[..]
    {
      octaves[0] := FillOctaveStruct(octave1);
      octaves[1] := FillOctaveStruct(octave2);
      octaves[2] := FillOctaveStruct(octave3);
      octaves[3] := FillOctaveStruct(octave4);
      octaveBuffer := octaves[..];
    }

    /** The render plane, with heights read from heightMap[z * resN + x]. */
    method CreatePlaneMesh()
      requires Valid() && GridMesh.HeightsCover(SideVertCount, GridMesh.Sampled(heightMap[..], resN))
      modifies this`vertices, this`triangles, this`mesh
      ensures mesh == Some(TerrainMeshOf(heightMap[..], resN))
      ensures vertices != null && triangles != null
      ensures vertices[..] == mesh.value.vertices && triangles[..] == mesh.value.triangles
    {
      var m;
      vertices, triangles, m := GridMesh.BuildPlane(SideVertCount, PlaneSize as real, GridMesh.Sampled(heightMap[..], resN));
      mesh := Some(m);
    }

    /** Sizes the grass pass from the terrain's triangle buffer and dispatches it. */
    method CreateGrass()
      requires triangles != null
      modifies this`terrainTriangleCount, this`dispatches
      ensures terrainTriangleCount == triangles.Length / 3
      ensures dispatches == old(dispatches) + [GrassDispatch(terrainTriangleCount, blockDim(TerrainOffsets))]
    {
      terrainTriangleCount := triangles.Length / 3;
      var threadGroupSize := blockDim(TerrainOffsets);
      var threadGroups := GrassThreadGroups(terrainTriangleCount, threadGroupSize);
      dispatches := dispatches + [Dispatch(TerrainOffsets, threadGroups, 1, 1)];
    }

    /**
     * The collision plane, built like the render plane from heightMap (which
     * is not read back from the GPU again).  It replaces the vertices field;
     * its triangle buffer is a local and the triangles field is left alone.
     */
    method CreateCollisionPlane()
      requires Valid() && GridMesh.HeightsCover(SideVertCount, GridMesh.Sampled(heightMap[..], resN))
      modifies this`vertices, this`collisionMesh
      ensures collisionMesh == Some(TerrainMeshOf(heightMap[..], resN))
      ensures vertices != null && vertices[..] == collisionMesh.value.vertices
    {
      var localTriangles, m;
      vertices, localTriangles, m := GridMesh.BuildPlane(SideVertCount, PlaneSize as real, GridMesh.Sampled(heightMap[..], resN));
      collisionMesh := Some(m);
    }

    /** heightBuffer.GetData: the CPU heightmap becomes a copy of the height buffer. */
    method ReadHeights(gpuHeights: seq<real>)
      requires |gpuHeights| == heightMap.Length
      modifies heightMap
      ensures heightMap[..] == gpuHeights
    {
      forall i | 0 <= i < heightMap.Length {
        heightMap[i] := gpuHeights[i];
      }
    }

    /**
     * The heightmap pass of Start: fixes the resolution at 201, uploads the
     * octaves, dispatches the noise kernel over the heightmap and reads the
     * heights back (gpuHeights, what the kernel left in the height buffer).
     */
    method ComputeHeightmap(gpuHeights: seq<real>)
      requires Valid() && |gpuHeights| == VertNum * VertNum
      modifies this`resN, this`gridDim, octaves, this`octaveBuffer, this`dispatches, heightMap
      ensures resN == VertNum && gridDim == GridDimFor(VertNum, blockDim(FractalNoiseCS))
      ensures octaves[..] == FilledOctaves(UiOctaves()) && octaveBuffer == octaves[..]
      ensures heightMap[..] == gpuHeights
      ensures dispatches == old(dispatches) + [NoiseDispatch(gridDim)]
    {
      resN := 201;
      gridDim := GridDimFor(resN, blockDim(FractalNoiseCS));
      SetSOctaveBuffers();
      dispatches := dispatches + [Dispatch(FractalNoiseCS, gridDim, gridDim, 1)];
      ReadHeights(gpuHeights);
    }

    /** Computes the heightmap, then builds the terrain plane, the grass pass and the collision plane. */
    method Start(gpuHeights: seq<real>)
      requires Valid() && |gpuHeights| == VertNum * VertNum
      modifies this`resN, this`gridDim, octaves, this`octaveBuffer, this`dispatches, heightMap,
               this`vertices, this`triangles, this`mesh, this`terrainTriangleCount, this`collisionMesh
      ensures resN == VertNum && gridDim == GridDimFor(VertNum, blockDim(FractalNoiseCS))
      ensures octaves[..] == FilledOctaves(UiOctaves()) && octaveBuffer == octaves[..]
      ensures heightMap[..] == gpuHeights
      ensures GridMesh.HeightsCover(SideVertCount, GridMesh.Sampled(gpuHeights, VertNum))
      ensures mesh == collisionMesh == Some(TerrainMeshOf(gpuHeights, VertNum))
      ensures triangles != null && triangles[..] == mesh.value.triangles
      ensures vertices != null && vertices[..] == mesh.value.vertices
      ensures terrainTriangleCount == 80000
      ensures dispatches == old(dispatches) + [NoiseDispatch(gridDim), GrassDispatch(80000, blockDim(TerrainOffsets))]
    {
      ComputeHeightmap(gpuHeights);
      GridMesh.SquareHeightMapCovers(SideVertCount, gpuHeights);
      CreatePlaneMesh();
      CreateGrass();
      CreateCollisionPlane();
    }

    /**
     * One frame.  While updateOctave is set the octaves are re-uploaded and the
     * noise and grass passes dispatched again; the flag stays set.  When
     * reCalcCollision is set the collision plane is rebuilt once, from the
     * heights read at Start, and the flag is cleared.
     */
    method Update()
      requires Valid()
      requires reCalcCollision ==> GridMesh.HeightsCover(SideVertCount, GridMesh.Sampled(heightMap[..], resN))
      modifies octaves, this`octaveBuffer, this`dispatches, this`vertices, this`collisionMesh, this`reCalcCollision
      ensures Valid()
      ensures updateOctave == old(updateOctave) && !reCalcCollision
      ensures heightMap[..] == old(heightMap[..])
      ensures updateOctave ==> octaves[..] == FilledOctaves(UiOctaves()) && octaveBuffer == octaves[..]
      ensures !updateOctave ==> octaves[..] == old(octaves[..]) && octaveBuffer == old(octaveBuffer)
      ensures dispatches == old(dispatches) +
                (if updateOctave then [NoiseDispatch(gridDim), GrassDispatch(terrainTriangleCount, blockDim(TerrainOffsets))]
                 else [])
      ensures old(reCalcCollision) ==>
                collisionMesh == Some(TerrainMeshOf(heightMap[..], resN)) &&
                vertices != null && vertices[..] == collisionMesh.value.vertices
      ensures !old(reCalcCollision) ==> collisionMesh == old(collisionMesh) && vertices == old(vertices)
    {
      if updateOctave {
        SetSOctaveBuffers();
        dispatches := dispatches + [Dispatch(FractalNoiseCS, gridDim, gridDim, 1)];
        var threadGroupSize := blockDim(TerrainOffsets);
        var threadGroups := GrassThreadGroups(terrainTriangleCount, threadGroupSize);
        dispatches := dispatches + [Dispatch(TerrainOffsets, threadGroups, 1, 1)];
      }
      if reCalcCollision {
        if collisionMesh.Some? {
          collisionMesh := None;
          vertices := null;
        }
        CreateCollisionPlane();
        reCalcCollision := false;
      }
    }
  }
}
