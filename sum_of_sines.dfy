/**
 * The C# side of the sum-of-sines water (class Waves_sum): a flat 200 x 200
 * plane built once in Start.  The waves themselves are computed by its
 * material from uniforms the script copies every frame; those copies are
 * plumbing and not part of this model.
 */
module SumOfSines {
  import opened Compute
  import GridMesh
  import Water

  /** Side length of the plane in world units. */
  const PlaneSize: nat := 100
  /** Quads per side: two per world unit. */
  const SideVertCount: nat := PlaneSize * 2

  /** The mesh CreatePlaneMesh builds. */
  function WavesPlane(): (m: GridMesh.MeshData)
    ensures |m.vertices| == |m.uv| == |m.tangents| == 201 * 201
    ensures |m.triangles| == 200 * 200 * 6
  {
    GridMesh.PlaneMeshOf(SideVertCount, PlaneSize as real, GridMesh.Flat)
  }

  /**
   * The plane is flat, references only its own vertices, and is the very mesh
   * the FFT water script builds for its own plane.
   */
  lemma WavesPlaneIsWaterPlane()
    ensures forall i | 0 <= i < |WavesPlane().vertices| :: WavesPlane().vertices[i].y == 0.0
    ensures forall t | 0 <= t < |WavesPlane().triangles| ::
              0 <= WavesPlane().triangles[t] < |WavesPlane().vertices|
    ensures WavesPlane() == GridMesh.PlaneMeshOf(Water.SideVertCount, Water.PlaneLength as real, GridMesh.Flat)
  {
    var m := WavesPlane();
    GridMesh.PlaneMeshIsClosedForm(SideVertCount, PlaneSize as real, GridMesh.Flat, m);
    GridMesh.PlaneMeshIndicesValid(SideVertCount, PlaneSize as real, GridMesh.Flat, m);
    GridMesh.HeightOnlyMovesY(SideVertCount, PlaneSize as real, GridMesh.Flat);
  }

  class WavesSum {
    var vertices: array?<GridMesh.Vec3>
    var mesh: Option<GridMesh.MeshData>

    /** The component as the scene loads it: no mesh yet. */
    constructor ()
      ensures vertices == null && mesh == None
    {
      vertices := null;
      mesh := None;
    }

    /** Builds the (S+1)^2 flat vertices and the 6 * S^2 triangle indices, S = 200, and sets them on the mesh. */
    method CreatePlaneMesh()
      modifies this`vertices, this`mesh
      ensures vertices != null && mesh == Some(WavesPlane())
      ensures vertices[..] == WavesPlane().vertices
    {
      var sideVertCount := PlaneSize * 2;
      var triangles, m;
      vertices, triangles, m := GridMesh.BuildPlane(sideVertCount, PlaneSize as real, GridMesh.Flat);
      mesh := Some(m);
    }

    /** Start: builds the plane (the material creation that follows is not modelled). */
    method Start()
      modifies this`vertices, this`mesh
      ensures vertices != null && mesh == Some(WavesPlane())
      ensures vertices[..] == WavesPlane().vertices
    {
      CreatePlaneMesh();
    }
  }
}
