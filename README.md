# Unity world generator: the C# side, modelled in Dafny

This project models the CPU-side C# of a Unity scene that generates a world
procedurally. The scene has an FFT ocean (`FFTWater_BRDF`), a noise-based
terrain with grass and a collision plane (`TerrainScript`), a sum-of-sines
water plane (`Waves_sum`), and a preset generator (`InputGenerator`). The
generator turns a few sliders and random draws into octave, spectrum and
cloud settings for the other scripts.

The heavy work runs in GPU compute kernels: the JONSWAP spectrum, the FFT,
fractal noise and grass placement. Their source is not part of this model. What
the C# does, and what is modelled, is:

- **The regular-grid plane** (`grid_mesh.dfy`). All four plane builders share
  one pair of nested loops. One loop fills (S+1)² vertices, uvs and tangents.
  The other writes 6·S² triangle indices, two triangles per lattice cell. Both
  are modelled once, as methods over arrays with loop invariants, and shown
  equal to a closed form (`PlaneMeshOf`). The scripts instantiate them with
  S = 200.
- **Dispatch sizing** (`compute.dfy`). `getGridDimFor` is a ceiling division.
  The grass dispatch count truncates before `Mathf.CeilToInt` sees it, so it
  rounds down. A dispatch is recorded as a `Dispatch(kernel, x, y, z)` command
  appended to a log.
- **The FFT water script** (`water.dfy`):
  - eight inspector spectra are routed into the compute structs;
  - the wind direction is converted to an angle;
  - the spectrum is re-uploaded while `updateSpectrum` is set;
  - every frame issues a fixed dispatch order.
- **The terrain script** (`terrain.dfy`):
  - four octaves are routed into the octave buffer;
  - the terrain and collision planes are built from the heightmap read back at
    Start, which is read transposed;
  - `updateOctave` is never cleared;
  - `reCalcCollision` triggers a single rebuild.
- **The sum-of-sines script** (`sum_of_sines.dfy`). Its flat plane is the same
  mesh as the FFT water plane.
- **The preset generator** (`presets.dfy`). The Unity `Mathf` helpers it uses
  are in `mathf.dfy`. Floats are modelled as reals:
  - every `Random.Range` call is an input drawn from that call's range. The
    float overload includes both ends. The int overload excludes its upper end;
  - the terrain, vegetation, spectrum and cloud presets are functions of the
    sliders and draws;
  - lemmas bound every value they produce;
  - the `InputGenerator` class writes the fields of the terrain, water and
    cloud objects and clears its `generate*` flags.

`arith.dfy` holds the small multiplication and division facts the index proofs
share.

Where the code and its documentation differ, the model follows the code:

- **`updateSpectrum` is never cleared.** The water script's `Update` re-runs
  the spectrum initialisation every frame while the flag stays set.
- **The wind angle is not normalised.** It is `windDirection / 180 · π`, so
  0° and 360° give angles a full turn apart.
- **No input validation.** Nothing checks that fetch or wind speed is
  positive.
- **The collision rebuild uses the old heightmap.** It reads the heights read
  back at Start, because the read-back inside `CreateCollisionPlane` is
  commented out.
- **`terrainFormat` is not used.** `UpdateTerrainParameters` never reads the
  slider. It draws the format at random instead.
- **Sliders start below their declared range.** Every preset slider starts at
  0.0, below its inspector `Range(0.1, 1)`. The model therefore states its
  bounds for any slider value where it can.

## Model

| member | source | states |
|---|---|---|
| GridMesh.BuildVertices | Assets/Shaders/Water/FFTWater/FFTWater.cs:150-162 | the three buffers have (S+1)² slots and slot x·(S+1)+z holds the position, uv and constant tangent (1,0,0,−1) of lattice point (x, z): every slot written once, in order |
| GridMesh.WriteQuad | Assets/Shaders/Water/FFTWater/FFTWater.cs:172-177 | the six writes of one quad extend the correctly filled prefix of the triangle buffer by six slots and leave every slot from ti+6 on unchanged |
| GridMesh.BuildTriangles | Assets/Shaders/Water/FFTWater/FFTWater.cs:168-179 | the buffer has S·S·6 slots, and after the loops every slot holds the index of its quad corner (ti = 6·(x·S+z), vi = x·(S+1)+z) |
| GridMesh.BuildPlane | Assets/Shaders/Water/FFTWater/FFTWater.cs:143-185 | the mesh handed to Unity is exactly the closed-form plane for S, the plane length and the height source |
| GridMesh.PlaneMeshOf | Assets/Shaders/Water/FFTWater/FFTWater.cs:143-185 | the plane has (S+1)² vertices, uvs and tangents, S·S·6 triangle indices, and every tangent is (1,0,0,−1) |
| GridMesh.FillVertex | Assets/Shaders/Water/FFTWater/FFTWater.cs:156-161 | writing point (x, z) into slot x·(S+1)+z keeps that slot in bounds and extends the filled prefix by one |
| GridMesh.FillQuad | Assets/Shaders/Water/FFTWater/FFTWater.cs:171-178 | the six writes of quad (x, z) fill exactly slots 6·(x·S+z)..+5 with their corner indices |
| GridMesh.GridIndexDecodes | Assets/Shaders/Water/FFTWater/FFTWater.cs:155-156 | slot x·(S+1)+z is below (S+1)² and decodes back to column x, row z, so the vertex loop writes each slot for one point only |
| GridMesh.SlotInLattice | Assets/Shaders/Water/FFTWater/FFTWater.cs:150-156 | every vertex slot below (S+1)² is x·(S+1)+z for one lattice point with x, z ≤ S |
| GridMesh.VertexSlotAtGrid | Assets/Shaders/Water/FFTWater/FFTWater.cs:157-159 | slot x·(S+1)+z holds the vertex and uv of point (x, z) |
| GridMesh.UvInUnitSquare | Assets/Shaders/Water/FFTWater/FFTWater.cs:159 | every uv coordinate x/S, z/S lies in [0, 1] |
| GridMesh.HeightReadTransposed | Assets/Shaders/Terrain/TerrainScript.cs:130-133 | with resN = S+1, vertex slot x·(S+1)+z takes its height from sample z·(S+1)+x, the slot of point (z, x), scaled by 100 |
| GridMesh.SampledHeightAtSlot | Assets/Shaders/Terrain/TerrainScript.cs:130-135 | for any resolution resN whose heightmap covers the lattice, vertex slot i reads sample row(i)·resN + column(i), which lies inside the heightmap, and its y is 100 times that sample |
| GridMesh.SquareHeightMapCovers | Assets/Shaders/Terrain/TerrainScript.cs:55 | a heightmap of (S+1)² samples read with resN = S+1 keeps every index z·resN+x inside it |
| GridMesh.QuadSlotDecodes | Assets/Shaders/Water/FFTWater/FFTWater.cs:170-177 | slot 6·(x·S+z)+c decodes to quad (x, z) and corner c and holds that corner's index |
| GridMesh.QuadSlotInRange | Assets/Shaders/Water/FFTWater/FFTWater.cs:168-177 | the last slot a quad writes, ti+5, is inside the S·S·6 buffer |
| GridMesh.EverySlotHasOneQuadCorner | Assets/Shaders/Water/FFTWater/FFTWater.cs:168-179 | every triangle slot is corner t mod 6 of one quad inside the S×S grid |
| GridMesh.QuadSlotInjective | Assets/Shaders/Water/FFTWater/FFTWater.cs:170-177 | two different (quad, corner) pairs never share a slot: each slot is written once |
| GridMesh.TriangleIndexInBounds | Assets/Shaders/Water/FFTWater/FFTWater.cs:172-177 | every triangle index lies in [0, (S+1)²), inside the vertex array |
| GridMesh.CornerInLattice | Assets/Shaders/Water/FFTWater/FFTWater.cs:172-177 | every corner index of quad (x, z) is at most the index of vertex (x+1, z+1) and below (S+1)², inside the lattice |
| GridMesh.LastQuadReachesLastVertex | Assets/Shaders/Water/FFTWater/FFTWater.cs:174 | the bound is tight: the last quad's vi+S+2 is (S+1)²−1 |
| GridMesh.QuadIsLatticeCell | Assets/Shaders/Water/FFTWater/FFTWater.cs:170-177 | the corners of quad (x, z) are the points (x,z), (x,z+1), (x+1,z+1), (x+1,z): the extra ++vi per column stops quads wrapping across columns |
| GridMesh.QuadSplitsAlongDiagonal | Assets/Shaders/Water/FFTWater/FFTWater.cs:172-177 | the two triangles of a quad share the diagonal (x,z)–(x+1,z+1), each has three distinct corners, and their third corners differ |
| GridMesh.TriangleCornersDistinct | Assets/Shaders/Water/FFTWater/FFTWater.cs:172-177 | each of the 2·S² triangles has three pairwise distinct vertex indices |
| GridMesh.TriangulationUnique | Assets/Shaders/Terrain/TerrainScript.cs:232-241 | the triangle buffer depends on S alone, so the collision plane's triangles equal the render plane's |
| GridMesh.PlaneMeshUnique | Assets/Shaders/Terrain/TerrainScript.cs:207-247 | two meshes built from the same S, plane length and heights are equal |
| GridMesh.PlaneMeshIsClosedForm | Assets/Shaders/Water/FFTWater/FFTWater.cs:143-185 | a mesh is what the loops build exactly when it equals the closed form |
| GridMesh.PlaneMeshIndicesValid | Assets/Shaders/Water/FFTWater/FFTWater.cs:168-177 | a plane mesh has 3·(2·S²) triangle indices, each naming one of its vertices |
| GridMesh.HeightOnlyMovesY | Assets/Shaders/Terrain/TerrainScript.cs:130-135 | a heightmapped plane and the flat plane share uv, tangents, triangles and every vertex's x and z; the flat plane has y = 0 |
| Compute.GridDimFor | Assets/Shaders/Water/FFTWater/FFTWater.cs:386-389 | g = ⌈resN / B⌉: g·B ≥ resN and (g−1)·B < resN |
| Compute.GrassThreadGroups | Assets/Shaders/Terrain/TerrainScript.cs:197-199 | the integer division runs before CeilToInt, so g·B ≤ count < (g+1)·B: it rounds down |
| Compute.GrassThreadGroupsCoverAll | Assets/Shaders/Terrain/TerrainScript.cs:199 | g·B equals the triangle count exactly when B divides it |
| Compute.GridDimExceedsGrassGroupsOnRemainder | Assets/Shaders/Terrain/TerrainScript.cs:256-259 | the two sizings agree when B divides n and differ by one group otherwise |
| Compute.CountKernelAppend | Assets/Shaders/Water/FFTWater/FFTWater.cs:424-455 | the dispatch count of a kernel over two logs is the sum of the two counts |
| Water.FillSpectrumStructRecoversUi | Assets/Shaders/Water/FFTWater/FFTWater.cs:311-320 | partner of FillSpectrumStruct: scale, spread blend, swell and short-waves fade pass through, gamma is the peak enhancement, and the wind direction is recovered from the angle |
| Water.JonswapDependsOnWindAndFetchOnly | Assets/Shaders/Water/FFTWater/FFTWater.cs:282-303 | partner of JonswapAlpha and JonswapPeakFrequency: alpha and peak frequency are equal for any two spectra with equal fetch and wind speed |
| Water.WindAngleNotWrapped | Assets/Shaders/Water/FFTWater/FFTWater.cs:313 | for every direction d, d+360 gives an angle exactly 2π above that of d: no normalisation |
| Water.FilledSpectra | Assets/Shaders/Water/FFTWater/FFTWater.cs:326-334 | slot k holds FillSpectrumStruct of inspector spectrum k+1, for every k |
| Water.SpectrumInitDispatches | Assets/Shaders/Water/FFTWater/FFTWater.cs:415-421 | init then pack, each on a square grid of groups one deep whose side times the kernel's block size covers resN |
| Water.FrameDispatches | Assets/Shaders/Water/FFTWater/FFTWater.cs:424-455 | a frame has six dispatches while updateSpectrum is set and four otherwise, and always ends with the assembly on the ⌈resN/B⌉ grid |
| Water.FrameDispatchOrder | Assets/Shaders/Water/FFTWater/FFTWater.cs:424-455 | one frame dispatches (init, pack if updateSpectrum) then update, horizontal FFT, vertical FFT, assemble; FFT passes use 1×resN groups, the rest cover resN×resN |
| Water.FrameDispatchCounts | Assets/Shaders/Water/FFTWater/FFTWater.cs:429-455 | per frame, init and pack run once if updateSpectrum and never otherwise; each FFT pass and assembly runs once |
| Water.FramesCounts | Assets/Shaders/Water/FFTWater/FFTWater.cs:429-439 | over n frames the spectrum is re-initialised n times with the flag held set and never with it clear; the FFT passes and assembly run n times |
| Water.FFTWaterBRDF.UiSpectra | Assets/Shaders/Water/FFTWater/FFTWater.cs:60-88 | the eight inspector spectra in slot order |
| Water.FFTWaterBRDF.constructor | Assets/Shaders/Water/FFTWater/FFTWater.cs:42-128 | the inspector state before Start: no mesh, no dispatches, zeroed spectrum structs |
| Water.FFTWaterBRDF.CreatePlane | Assets/Shaders/Water/FFTWater/FFTWater.cs:143-185 | builds the 200×200 flat plane mesh and keeps its vertex array |
| Water.FFTWaterBRDF.SetSpectrumBuffers | Assets/Shaders/Water/FFTWater/FFTWater.cs:326-338 | the spectrum array holds the eight filled structs, and the buffer receives exactly that array |
| Water.FFTWaterBRDF.Dispatch | Assets/Shaders/Water/FFTWater/FFTWater.cs:417 | one dispatch is appended to the log |
| Water.FFTWaterBRDF.InverseFFT | Assets/Shaders/Water/FFTWater/FFTWater.cs:346-352 | appends the horizontal then the vertical FFT, each with 1×resN groups |
| Water.FFTWaterBRDF.Start | Assets/Shaders/Water/FFTWater/FFTWater.cs:391-422 | builds the plane, sets resN = 1024, uploads the spectra and dispatches init then pack with ⌈resN/B⌉ groups |
| Water.FFTWaterBRDF.Update | Assets/Shaders/Water/FFTWater/FFTWater.cs:424-455 | re-uploads the spectra only while updateSpectrum is set and leaves the flag as it is; appends exactly that frame's dispatches |
| Terrain.FillOctaveStruct | Assets/Shaders/Terrain/TerrainScript.cs:91-96 | lacunarity, persistence, rotation and shift are copied unchanged |
| Terrain.TerrainMeshOf | Assets/Shaders/Terrain/TerrainScript.cs:121-159 | the terrain mesh has 201² vertices and 200·200·6 indices; its uvs, triangles and every vertex's x and z are those of the flat 200×200 plane of the same size, and vertex slot i stands at y = 100·heights[row(i)·resN + column(i)] |
| Terrain.TerrainTriangleCount | Assets/Shaders/Terrain/TerrainScript.cs:121-171 | from a 201² heightmap the terrain mesh is a plane mesh with triangles.Length/3 = 80000, every index a valid vertex |
| Terrain.NoiseCoversHeightmap | Assets/Shaders/Terrain/TerrainScript.cs:263-274 | the noise dispatch's groups cover all 201×201 texels on both axes for any block size |
| Terrain.GrassDispatchMissesTail | Assets/Shaders/Terrain/TerrainScript.cs:197-204 | the grass dispatch covers all 80000 triangles exactly when the group size divides 80000 (the group size comes from the shader); for example, with 256 it launches 312 groups and skips 128 triangles |
| Terrain.TerrainScript.UiOctaves | Assets/Shaders/Terrain/TerrainScript.cs:68-71 | the four inspector octaves in slot order |
| Terrain.TerrainScript.constructor | Assets/Shaders/Terrain/TerrainScript.cs:53-74 | the state before Start: the inspector octaves and flags, four zeroed octave structs and a zeroed 201² heightmap |
| Terrain.TerrainScript.SetSOctaveBuffers | Assets/Shaders/Terrain/TerrainScript.cs:98-105 | slot k holds inspector octave k+1 unchanged, and the buffer receives exactly that array |
| Terrain.TerrainScript.CreatePlaneMesh | Assets/Shaders/Terrain/TerrainScript.cs:121-159 | the render mesh is the plane whose vertex (x, z) has height 100·heightMap[z·resN+x] |
| Terrain.TerrainScript.CreateGrass | Assets/Shaders/Terrain/TerrainScript.cs:161-205 | terrainTriangleCount = triangles.Length/3, and one grass dispatch of ⌊count/B⌋ groups is appended |
| Terrain.TerrainScript.CreateCollisionPlane | Assets/Shaders/Terrain/TerrainScript.cs:207-247 | the collision mesh is the same plane mesh from the heights already in heightMap (no new read-back) |
| Terrain.TerrainScript.ReadHeights | Assets/Shaders/Terrain/TerrainScript.cs:276 | the CPU heightmap becomes the GPU heights |
| Terrain.TerrainScript.ComputeHeightmap | Assets/Shaders/Terrain/TerrainScript.cs:261-276 | resN = 201, GRID_DIM = ⌈201/B⌉, the octaves are uploaded, one noise dispatch is appended and the heights are read back |
| Terrain.TerrainScript.Start | Assets/Shaders/Terrain/TerrainScript.cs:261-284 | the render and collision meshes are both the terrain plane of the read-back heights; 80000 triangles; dispatches are noise then grass |
| Terrain.TerrainScript.Update | Assets/Shaders/Terrain/TerrainScript.cs:286-314 | updateOctave re-uploads and re-dispatches noise and grass and is never cleared; reCalcCollision rebuilds the collision plane once from the Start heights and is cleared |
| SumOfSines.WavesPlane | Assets/Shaders/SumOfSinesApprox/Waves_sum.cs:52-74 | the plane has 201² vertices, uvs and tangents and 200·200·6 triangle indices |
| SumOfSines.WavesPlaneIsWaterPlane | Assets/Shaders/SumOfSinesApprox/Waves_sum.cs:60-87 | the plane is flat (y = 0), every index is < vertices.Length, and it equals the FFT water plane |
| SumOfSines.WavesSum.constructor | Assets/Shaders/SumOfSinesApprox/Waves_sum.cs:15-17 | no mesh before Start |
| SumOfSines.WavesSum.CreatePlaneMesh | Assets/Shaders/SumOfSinesApprox/Waves_sum.cs:47-93 | the mesh and vertex array are those of the 200×200 flat plane |
| SumOfSines.WavesSum.Start | Assets/Shaders/SumOfSinesApprox/Waves_sum.cs:107-111 | builds the plane mesh |
| Mathf.Clamp | Assets/Scripts/InputGenerator.cs:92 | the result lies in [min, max], equals the value inside it and the nearer bound outside it |
| Mathf.Clamp01 | Assets/Scripts/InputGenerator.cs:74 | the result lies in [0, 1] and equals the value when already inside |
| Mathf.Lerp | Assets/Scripts/InputGenerator.cs:145-154 | the result lies between the two end points for any t, and is a for t ≤ 0 and b for t ≥ 1 |
| Mathf.Square | Assets/Scripts/InputGenerator.cs:52-53 | x² is non-negative and at most 1 for x in [0, 1] |
| Mathf.HalfPow | Assets/Scripts/InputGenerator.cs:64 | 0.5^i lies in (0, 1] |
| Presets.MountainFactor | Assets/Scripts/InputGenerator.cs:52-53 | 0 for f ≤ 0.6, ((f−0.6)/0.4)² above, and in [0, 1] for f ≤ 1 |
| Presets.PresetOctave | Assets/Scripts/InputGenerator.cs:55-75 | the generated octave's persistence lies in [0, 1] |
| Presets.PresetOctaves | Assets/Scripts/InputGenerator.cs:55-75 | four octaves, slot k being the octave generated for loop index k |
| Presets.PresetOctaveRanges | Assets/Scripts/InputGenerator.cs:55-75 | every generated octave has lacunarity in [1.6, 7.7] and persistence in [0, 1] |
| Presets.LacunarityRange | Assets/Scripts/InputGenerator.cs:57-62 | a base lacunarity in [1.8, 2.5], at most tripled by the mountain factor and varied by 0.2, stays in [1.6, 7.7] |
| Presets.TerrainOctavesInRange | Assets/Scripts/InputGenerator.cs:98-118 | the octaves written to the terrain have lacunarity in [1.6, 7.7], persistence in [0, 1], rotation in [1, 359] and shift in [0, 100] |
| Presets.TerrainOctaves | Assets/Scripts/InputGenerator.cs:98-118 | four terrain octaves; octave k takes lacunarity and persistence from generated octave k and the k-th rotation and shift draws |
| Presets.VegetationRanges | Assets/Scripts/InputGenerator.cs:77-92 | slope in [0.2, 0.9] (the clamp never binds), minimum height in [−14, 64] with the mountain bonus only above 0.6, density in [0.1, 1] |
| Presets.VegetationOf | Assets/Scripts/InputGenerator.cs:77-92 | slope in [0.2, 0.9], density in [0.1, 1]; the minimum height is the format lerp plus the height jitter, with a non-negative mountain bonus only when format > 0.6 |
| Presets.DensityFloor | Assets/Scripts/InputGenerator.cs:90-92 | with the density slider at or below 0, density is the floor 0.1 |
| Presets.DensityOf | Assets/Scripts/InputGenerator.cs:90-92 | the clamped density lies in [0.1, 1] for any slider and draw |
| Presets.UnitScale | Assets/Scripts/InputGenerator.cs:126-129 | a [0, 1] draw times a non-negative wind lies in [0, wind] |
| Presets.SpectrumPresetStrength | Assets/Scripts/InputGenerator.cs:122-123 | windSpeed = 10·wind and scale lies in [wind, 10·wind] |
| Presets.SpectrumPresetShaping | Assets/Scripts/InputGenerator.cs:126-129 | spread blend, swell, peak enhancement and short-waves fade each lie in [0, wind] |
| Presets.SpectrumPreset | Assets/Scripts/InputGenerator.cs:120-140 | windSpeed is 10·wind, and the wind direction and fetch are whole numbers (they come from integer draws) |
| Presets.SpectrumPresetWholeNumbers | Assets/Scripts/InputGenerator.cs:124-125 | the wind direction is a whole number in [1, 359], so its angle lies strictly inside (0, 2π); fetch is a whole number in [1, 99999] |
| Presets.WholeDegreeInsideTurn | Assets/Scripts/InputGenerator.cs:124 | a whole degree in [1, 359] gives an angle strictly between 0 and 2π |
| Presets.CloudPresetRegimes | Assets/Scripts/InputGenerator.cs:145-172 | stormy (both > 0.9): threshold 0, multiplier 10 and the other fixed values; else clear (both < 0.2): scale 4, smooth 40 and the other fixed values; otherwise the lerps stand, with scale in [0.25, 4] and threshold in [0, 0.3]; wind, darkness threshold and detail weight are never overridden |
| Presets.CloudPresetWithinParameterBounds | Assets/Shaders/PostProcess/Clouds/CloudSettings.cs:18-30 | every cloud value written lies inside its ClampedFloatParameter bounds, whatever the sliders hold, and the wind is (w, 0, w) with w in [0.1, 1] |
| Presets.CloudLerps | Assets/Scripts/InputGenerator.cs:145-154 | each lerped cloud value lies between its two end points (scale [0.25, 4], smooth [10, 40], wind (w, 0, w) with w in [0.1, 1], …) whatever the sliders |
| Presets.CloudPreset | Assets/Scripts/InputGenerator.cs:145-172 | stormy sliders force threshold 0 and multiplier 10, clear sliders force scale 4 and smooth 40, and otherwise the lerped values stand |
| Presets.InputGenerator.constructor | Assets/Scripts/InputGenerator.cs:13-42 | sliders at 0, generate flags down, four zeroed octave structs |
| Presets.InputGenerator.UpdateTerrainParameters | Assets/Scripts/InputGenerator.cs:44-96 | the octave array holds the preset octaves, the terrain's inspector octaves become the preset octaves with the drawn rotations and shifts, reCalcCollision is set, and the vegetation preset is returned |
| Presets.InputGenerator.FillOctave | Assets/Scripts/InputGenerator.cs:57-74 | octave slot i becomes the preset octave i and the other slots are unchanged |
| Presets.InputGenerator.SetOctaves | Assets/Scripts/InputGenerator.cs:98-118 | terrain octave k takes slot k's lacunarity and persistence and the k-th rotation and shift draws |
| Presets.InputGenerator.UpdateWaterParameters | Assets/Scripts/InputGenerator.cs:120-140 | the water's first two spectra become the spectrum presets of their draws and the wind slider |
| Presets.InputGenerator.UpdateCloudParameters | Assets/Scripts/InputGenerator.cs:142-174 | when the profile has cloud settings they become the cloud preset of the sliders; otherwise nothing changes |
| Presets.InputGenerator.Start | Assets/Scripts/InputGenerator.cs:176-181 | runs all three presets |
| Presets.InputGenerator.Update | Assets/Scripts/InputGenerator.cs:183-200 | each raised flag runs its preset once and ends lowered; a lowered flag leaves its target unchanged; the three act independently |

## Left out

- The compute kernels (JONSWAP spectrum, conjugate packing, time evolution,
  the FFT passes, map assembly, foam, fractal noise, grass placement) are not
  part of this model. Their effect shows only as dispatch records, and the
  heights they produce are an input (`gpuHeights`).
- The JONSWAP formulas use `Mathf.Pow` with fractional exponents and float
  division. These are kept uninterpreted (`FloatOps`), so no value of alpha or
  peak frequency is computed.
- Floating point is modelled as exact reals. Single-precision rounding is not
  captured. This covers the C# double-to-float casts in `InputGenerator` and
  the float vertex positions and uvs.
- Unity plumbing is not modelled:
  - Mesh, RenderTexture, ComputeBuffer and GraphicsBuffer creation;
  - the material and shader uniform setters (`SetFFTUniforms`,
    `SetMaterialUniforms`, `Waves_sum.Update`);
  - `CreateMaterial`, `OnDisable` and `Graphics.RenderPrimitivesIndexed`;
  - `RecalculateNormals` and `RecalculateBounds`.
- The post-process passes and their settings are left out (`CloudPass`,
  `FogPass`, `CloudFeature`, `FogFeature`, `FogSettings`). Only the value
  bounds of `CloudSettings` are used.
- `PlayerController` is left out. It is frame-time physics through foreign
  Unity calls.
- `ProceduralGrass` is left out. Its dispatch count is the same
  rounding-down division as `Compute.GrassThreadGroups`.
- `UnityEngine.Random` is not modelled as a generator. Each draw is an input
  constrained to the range its call returns. The order of the draws is not
  modelled.
- The vegetation values are returned as a record.
  `UpdateTerrainParameters` writes `vegetationSlope`, `vegetationHeight` and
  `vegetationDensity` on the terrain script, which does not declare those
  fields. The model returns them instead.
- The cloud volume lookup is modelled as an `Option`. `Volume.profile.TryGet`
  becomes that `Option`. Its `CloudSettings` fields that the generator does
  not write are left out.
- The terrain's grass and material settings are not modelled. These are
  `grassDensity`, `grassSlope` and `minHeight`.
