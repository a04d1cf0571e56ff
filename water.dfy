/**
 * The C# side of the FFT ocean (class FFTWater_BRDF): the 200 x 200 water
 * plane, the routing of the eight inspector spectra into the structs the GPU
 * reads, and the order in which each frame dispatches the spectrum, FFT and
 * map-assembly kernels.  The kernels themselves run on the GPU and are not
 * part of this model: a dispatch is recorded as the command it issues.
 */
module Water {
  import opened Compute
  import GridMesh

  const PlaneLength: nat := 100
  const QuadRes: nat := 2
  /** Quads per side of the plane. */
  const SideVertCount: nat := PlaneLength * QuadRes
  const SpectrumCount: nat := 8
  /** Texture resolution Start chooses. */
  const Resolution: nat := 1024
  /** Mathf.PI to nine significant digits. */
  const Pi: real := 3.14159274

  /** One spectrum as the inspector shows it. */
  datatype UiSpectrumSettings = UiSpectrumSettings(
    scale: real, windSpeed: real, windDirection: real, fetch: real,
    spreadBlend: real, swell: real, peakEnhancement: real, shortWavesFade: real)

  /** One spectrum as the compute shader reads it from the spectrum buffer. */
  datatype SpectrumSettings = SpectrumSettings(
    scale: real, angle: real, spreadBlend: real, swell: real,
    alpha: real, peakFrequency: real, gamma: real, shortWavesFade: real)

  /** A C# struct array slot before anything is written to it. */
  const ZeroSpectrum := SpectrumSettings(0.0, 0.0, 0.0, 0.0, 0.0, 0.0, 0.0, 0.0)

  /**
   * Mathf.Pow and single-precision division.  Both are floating point (a zero
   * divisor gives an infinity or NaN, not an error), so the model keeps them
   * uninterpreted.
   */
  datatype FloatOps = FloatOps(pow: (real, real) -> real, div: (real, real) -> real)

  function JonswapAlpha(ops: FloatOps, gravity: real, fetch: real, windSpeed: real): real
  {
    0.076 * ops.pow(ops.div(windSpeed * windSpeed, fetch * gravity), 0.22)
  }

  function JonswapPeakFrequency(ops: FloatOps, gravity: real, fetch: real, windSpeed: real): real
  {
    22.0 * ops.pow(ops.div(gravity * gravity, windSpeed * fetch), 0.33)
  }

  /** Wind direction in degrees to radians, without wrapping. */
  function WindAngle(windDirection: real): real
  {
    windDirection / 180.0 * Pi
  }

  /** Inverse of WindAngle. */
  function WindDirectionOf(angle: real): real
  {
    angle / Pi * 180.0
  }

  function FillSpectrumStruct(ui: UiSpectrumSettings, ops: FloatOps, gravity: real): SpectrumSettings
  {
    SpectrumSettings(
      scale := ui.scale,
      angle := WindAngle(ui.windDirection),
      spreadBlend := ui.spreadBlend,
      swell := ui.swell,
      alpha := JonswapAlpha(ops, gravity, ui.fetch, ui.windSpeed),
      peakFrequency := JonswapPeakFrequency(ops, gravity, ui.fetch, ui.windSpeed),
      gamma := ui.peakEnhancement,
      shortWavesFade := ui.shortWavesFade)
  }

  /**
   * Everything the inspector says about a spectrum except fetch and wind speed
   * can be read back from the compute struct: scale, spread blend, swell and
   * short-waves fade pass through, gamma is the peak enhancement and the wind
   * direction is recovered from the angle.
   */
  lemma FillSpectrumStructRecoversUi(ui: UiSpectrumSettings, ops: FloatOps, gravity: real)
    ensures var s := FillSpectrumStruct(ui, ops, gravity);
            && s.scale == ui.scale && s.spreadBlend == ui.spreadBlend && s.swell == ui.swell
            && s.shortWavesFade == ui.shortWavesFade && s.gamma == ui.peakEnhancement
            && WindDirectionOf(s.angle) == ui.windDirection
  {
  }

  /** alpha and peak frequency depend on fetch, wind speed and gravity only. */
  lemma JonswapDependsOnWindAndFetchOnly(a: UiSpectrumSettings, b: UiSpectrumSettings, ops: FloatOps, gravity: real)
    requires a.fetch == b.fetch && a.windSpeed == b.windSpeed
    ensures FillSpectrumStruct(a, ops, gravity).alpha == FillSpectrumStruct(b, ops, gravity).alpha
    ensures FillSpectrumStruct(a, ops, gravity).peakFrequency == FillSpectrumStruct(b, ops, gravity).peakFrequency
  {
  }

  /** The angle is not normalised: a direction and the same direction plus 360 degrees are a full turn apart. */
  lemma WindAngleNotWrapped(windDirection: real)
    ensures WindAngle(windDirection + 360.0) == WindAngle(windDirection) + 2.0 * Pi
  {
  }

  /** The eight compute structs SetSpectrumBuffers produces from the eight inspector spectra. */
  function FilledSpectra(ui: seq<UiSpectrumSettings>, ops: FloatOps, gravity: real): (r: seq<SpectrumSettings>)
    ensures |r| == |ui|
    ensures forall k | 0 <= k < |ui| :: r[k] == FillSpectrumStruct(ui[k], ops, gravity)
  {
    if ui == [] then [] else FilledSpectra(ui[..|ui| - 1], ops, gravity) + [FillSpectrumStruct(ui[|ui| - 1], ops, gravity)]
  }

  // ---------------------------------------------------------------------
  // Kernel dispatches

  datatype Kernel =
    | InitializeSpectrum
    | PackSpectrumConjugate
    | UpdateSpectrumForFFT
    | HorizontalFFT
    | VerticalFFT
    | AssembleMaps

  /** A resN x resN dispatch of kernel k with getGridDimFor(k) groups per axis. */
  function GridDispatch(k: Kernel, resN: nat, blockDim: Kernel -> BlockSize): Dispatch<Kernel>
  {
    var g := GridDimFor(resN, blockDim(k));
    Dispatch(k, g, g, 1)
  }

  /** Initial JONSWAP spectrum, then its conjugate packing. */
  function SpectrumInitDispatches(resN: nat, blockDim: Kernel -> BlockSize): (r: seq<Dispatch<Kernel>>)
    ensures |r| == 2 && r[0].kernel == InitializeSpectrum && r[1].kernel == PackSpectrumConjugate
    ensures forall i | 0 <= i < 2 :: r[i].groupsX == r[i].groupsY && r[i].groupsZ == 1
                                     && r[i].groupsX * blockDim(r[i].kernel) >= resN
  {
    [GridDispatch(InitializeSpectrum, resN, blockDim), GridDispatch(PackSpectrumConjugate, resN, blockDim)]
  }

  /** InverseFFT: one group per row for the horizontal pass, then for the vertical pass. */
  function InverseFFTDispatches(resN: nat): seq<Dispatch<Kernel>>
  {
    [Dispatch(HorizontalFFT, 1, resN, 1), Dispatch(VerticalFFT, 1, resN, 1)]
  }

  /** The command stream of one Update. */
  function FrameDispatches(updateSpectrum: bool, resN: nat, blockDim: Kernel -> BlockSize): (r: seq<Dispatch<Kernel>>)
    ensures |r| == if updateSpectrum then 6 else 4
    ensures r[|r| - 1] == GridDispatch(AssembleMaps, resN, blockDim)
  {
    (if updateSpectrum then SpectrumInitDispatches(resN, blockDim) else [])
    + [GridDispatch(UpdateSpectrumForFFT, resN, blockDim)]
    + InverseFFTDispatches(resN)
    + [GridDispatch(AssembleMaps, resN, blockDim)]
  }

  function Kernels(log: seq<Dispatch<Kernel>>): (ks: seq<Kernel>)
    ensures |ks| == |log| && forall i | 0 <= i < |log| :: ks[i] == log[i].kernel
  {
    if log == [] then [] else Kernels(log[..|log| - 1]) + [log[|log| - 1].kernel]
  }

  /**
   * Every frame runs time evolution, the horizontal FFT, the vertical FFT and
   * map assembly in that order; the spectrum is re-initialised and re-packed
   * first exactly when updateSpectrum is set.  Every grid dispatch covers the
   * resN x resN texture, and each FFT pass gets one group per row.
   */
  lemma FrameDispatchOrder(updateSpectrum: bool, resN: nat, blockDim: Kernel -> BlockSize)
    ensures Kernels(FrameDispatches(updateSpectrum, resN, blockDim))
            == (if updateSpectrum then [InitializeSpectrum, PackSpectrumConjugate] else [])
               + [UpdateSpectrumForFFT, HorizontalFFT, VerticalFFT, AssembleMaps]
    ensures forall d | d in FrameDispatches(updateSpectrum, resN, blockDim) ::
              if d.kernel in {HorizontalFFT, VerticalFFT} then d.groupsX == 1 && d.groupsY == resN
              else d.groupsX == d.groupsY && d.groupsX * blockDim(d.kernel) >= resN
  {
  }

  /** The command stream of n frames with the flag held at updateSpectrum. */
  function Frames(updateSpectrum: bool, resN: nat, blockDim: Kernel -> BlockSize, n: nat): seq<Dispatch<Kernel>>
  {
    if n == 0 then [] else Frames(updateSpectrum, resN, blockDim, n - 1) + FrameDispatches(updateSpectrum, resN, blockDim)
  }

  lemma FrameDispatchCounts(updateSpectrum: bool, resN: nat, blockDim: Kernel -> BlockSize)
    ensures var f := FrameDispatches(updateSpectrum, resN, blockDim);
            && CountKernel(f, InitializeSpectrum) == (if updateSpectrum then 1 else 0)
            && CountKernel(f, PackSpectrumConjugate) == (if updateSpectrum then 1 else 0)
            && CountKernel(f, HorizontalFFT) == 1 && CountKernel(f, VerticalFFT) == 1
            && CountKernel(f, AssembleMaps) == 1
  {
    var init := if updateSpectrum then SpectrumInitDispatches(resN, blockDim) else [];
    var evolve := [GridDispatch(UpdateSpectrumForFFT, resN, blockDim)];
    var fft := InverseFFTDispatches(resN);
    var assemble := [GridDispatch(AssembleMaps, resN, blockDim)];
    assert FrameDispatches(updateSpectrum, resN, blockDim) == init + evolve + fft + assemble;
    forall k: Kernel
      ensures CountKernel(init + evolve + fft + assemble, k)
              == CountKernel(init, k) + CountKernel(evolve, k) + CountKernel(fft, k) + CountKernel(assemble, k)
    {
      CountKernelAppend(init + evolve + fft, assemble, k);
      CountKernelAppend(init + evolve, fft, k);
      CountKernelAppend(init, evolve, k);
    }
    forall k: Kernel
      ensures CountKernel(fft, k) == (if k in {HorizontalFFT, VerticalFFT} then 1 else 0)
      ensures CountKernel(init, k) == (if updateSpectrum && k in {InitializeSpectrum, PackSpectrumConjugate} then 1 else 0)
      ensures CountKernel(evolve, k) == (if k == UpdateSpectrumForFFT then 1 else 0)
      ensures CountKernel(assemble, k) == (if k == AssembleMaps then 1 else 0)
    {
      CountPair(fft, k);
      if updateSpectrum {
        CountPair(init, k);
      }
      CountKernelSingleton(evolve[0], k);
      CountKernelSingleton(assemble[0], k);
    }
  }

  lemma CountPair(p: seq<Dispatch<Kernel>>, k: Kernel)
    requires |p| == 2
    ensures CountKernel(p, k) == (if p[0].kernel == k then 1 else 0) + (if p[1].kernel == k then 1 else 0)
  {
    assert p == [p[0]] + [p[1]];
    CountKernelAppend([p[0]], [p[1]], k);
    CountKernelSingleton(p[0], k);
    CountKernelSingleton(p[1], k);
  }

  /**
   * updateSpectrum is never cleared, so over n frames with the flag set the
   * spectrum is re-initialised and re-packed n times, and with it clear never;
   * the FFT passes and map assembly run once per frame either way.
   */
  lemma {:induction false} FramesCounts(updateSpectrum: bool, resN: nat, blockDim: Kernel -> BlockSize, n: nat)
    ensures var log := Frames(updateSpectrum, resN, blockDim, n);
            && CountKernel(log, InitializeSpectrum) == (if updateSpectrum then n else 0)
            && CountKernel(log, PackSpectrumConjugate) == (if updateSpectrum then n else 0)
            && CountKernel(log, HorizontalFFT) == n && CountKernel(log, VerticalFFT) == n
            && CountKernel(log, AssembleMaps) == n
  {
    if n > 0 {
      var prev := Frames(updateSpectrum, resN, blockDim, n - 1);
      var f := FrameDispatches(updateSpectrum, resN, blockDim);
      FramesCounts(updateSpectrum, resN, blockDim, n - 1);
      FrameDispatchCounts(updateSpectrum, resN, blockDim);
      forall k: Kernel
        ensures CountKernel(prev + f, k) == CountKernel(prev, k) + CountKernel(f, k)
      {
        CountKernelAppend(prev, f, k);
      }
    }
  }

  // ---------------------------------------------------------------------
  // The script

  class FFTWaterBRDF {
    var spectrum1: UiSpectrumSettings
    var spectrum2: UiSpectrumSettings
    var spectrum3: UiSpectrumSettings
    var spectrum4: UiSpectrumSettings
    var spectrum5: UiSpectrumSettings
    var spectrum6: UiSpectrumSettings
    var spectrum7: UiSpectrumSettings
    var spectrum8: UiSpectrumSettings
    var gravity: real
    var updateSpectrum: bool

    var resN: nat
    const spectrums: array<SpectrumSettings>
    /** What SetData last uploaded to the spectrum buffer. */
    var spectrumBuffer: seq<SpectrumSettings>
    var vertices: array?<GridMesh.Vec3>
    var mesh: Option<GridMesh.MeshData>
    /** Every kernel dispatch issued so far, oldest first. */
    var dispatches: seq<Dispatch<Kernel>>

    /** Mathf.Pow and float division. */
    const ops: FloatOps
    /** Thread-group size of each kernel, fixed by the compute shader. */
    const blockDim: Kernel -> BlockSize

    ghost predicate Valid()
      reads this
    {
      spectrums.Length == SpectrumCount
    }

    /** The inspector spectra in slot order. */
    function UiSpectra(): (ui: seq<UiSpectrumSettings>)
      reads this
      ensures |ui| == SpectrumCount
    {
      [spectrum1, spectrum2, spectrum3, spectrum4, spectrum5, spectrum6, spectrum7, spectrum8]
    }

    /** The component as the scene loads it, before Start. */
    constructor (ui: seq<UiSpectrumSettings>, gravity: real, updateSpectrum: bool,
                 ops: FloatOps, blockDim: Kernel -> BlockSize)
      requires |ui| == SpectrumCount
      ensures Valid() && fresh(spectrums)
      ensures UiSpectra() == ui && this.gravity == gravity && this.updateSpectrum == updateSpectrum
      ensures this.ops == ops && this.blockDim == blockDim
      ensures resN == 0 && dispatches == [] && mesh == None && vertices == null
      ensures spectrums[..] == seq(SpectrumCount, _ => ZeroSpectrum)
    {
      spectrum1, spectrum2, spectrum3, spectrum4 := ui[0], ui[1], ui[2], ui[3];
      spectrum5, spectrum6, spectrum7, spectrum8 := ui[4], ui[5], ui[6], ui[7];
      this.gravity := gravity;
      this.updateSpectrum := updateSpectrum;
      this.ops := ops;
      this.blockDim := blockDim;
      resN := 0;
      spectrums := new SpectrumSettings[8](_ => ZeroSpectrum);
      spectrumBuffer := [];
      vertices := null;
      mesh := None;
      dispatches := [];
    }

    /** The water plane: (S+1)^2 flat vertices and 6 * S^2 triangle indices, S = 200. */
    method CreatePlane()
      modifies this`vertices, this`mesh
      ensures vertices != null && mesh.Some?
      ensures GridMesh.IsPlaneMesh(SideVertCount, PlaneLength as real, GridMesh.Flat, mesh.value)
      ensures vertices[..] == mesh.value.vertices
    {
      var sideVertCount := PlaneLength * QuadRes;
      var triangles, m;
      vertices, triangles, m := GridMesh.BuildPlane(sideVertCount, PlaneLength as real, GridMesh.Flat);
      mesh := Some(m);
    }

    /** Slot k of the spectrum array is filled from inspector spectrum k + 1, then uploaded. */
    method SetSpectrumBuffers()
      requires Valid()
      modifies spectrums, this`spectrumBuffer
      ensures spectrums[..] == FilledSpectra(UiSpectra(), ops, gravity)
      ensures spectrumBuffer == spectrums[..]
    {
      spectrums[0] := FillSpectrumStruct(spectrum1, ops, gravity);
      spectrums[1] := FillSpectrumStruct(spectrum2, ops, gravity);
      spectrums[2] := FillSpectrumStruct(spectrum3, ops, gravity);
      spectrums[3] := FillSpectrumStruct(spectrum4, ops, gravity);
      spectrums[4] := FillSpectrumStruct(spectrum5, ops, gravity);
      spectrums[5] := FillSpectrumStruct(spectrum6, ops, gravity);
      spectrums[6] := FillSpectrumStruct(spectrum7, ops, gravity);
      spectrums[7] := FillSpectrumStruct(spectrum8, ops, gravity);
      spectrumBuffer := spectrums[..];
    }

    method Dispatch(k: Kernel, x: nat, y: nat, z: nat)
      modifies this`dispatches
      ensures dispatches == old(dispatches) + [Compute.Dispatch(k, x, y, z)]
    {
      dispatches := dispatches + [Compute.Dispatch(k, x, y, z)];
    }

    method InverseFFT()
      modifies this`dispatches
      ensures dispatches == old(dispatches) + InverseFFTDispatches(resN)
    {
      Dispatch(HorizontalFFT, 1, resN, 1);
      Dispatch(VerticalFFT, 1, resN, 1);
    }

    /** Builds the plane, fixes the resolution at 1024, uploads the spectra and computes the initial spectrum. */
    method Start()
      requires Valid()
      modifies this`vertices, this`mesh, this`resN, this`spectrumBuffer, this`dispatches, spectrums
      ensures Valid() && resN == Resolution
      ensures vertices != null && mesh.Some? && vertices[..] == mesh.value.vertices
      ensures GridMesh.IsPlaneMesh(SideVertCount, PlaneLength as real, GridMesh.Flat, mesh.value)
      ensures spectrums[..] == FilledSpectra(UiSpectra(), ops, gravity) && spectrumBuffer == spectrums[..]
      ensures dispatches == old(dispatches) + SpectrumInitDispatches(Resolution, blockDim)
    {
      CreatePlane();
      resN := 1024;
      SetSpectrumBuffers();
      var gridDim := GridDimFor(resN, blockDim(InitializeSpectrum));
      Dispatch(InitializeSpectrum, gridDim, gridDim, 1);
      gridDim := GridDimFor(resN, blockDim(PackSpectrumConjugate));
      Dispatch(PackSpectrumConjugate, gridDim, gridDim, 1);
    }

    /**
     * One frame.  While updateSpectrum is set the spectra are re-uploaded and
     * the initial spectrum recomputed and re-packed; the flag itself is left as
     * it is.  Time evolution, both FFT passes and map assembly run every frame.
     */
    method Update()
      requires Valid()
      modifies this`spectrumBuffer, this`dispatches, spectrums
      ensures Valid()
      ensures updateSpectrum == old(updateSpectrum)
      ensures updateSpectrum ==> spectrums[..] == FilledSpectra(UiSpectra(), ops, gravity) && spectrumBuffer == spectrums[..]
      ensures !updateSpectrum ==> spectrums[..] == old(spectrums[..]) && spectrumBuffer == old(spectrumBuffer)
      ensures dispatches == old(dispatches) + FrameDispatches(updateSpectrum, resN, blockDim)
    {
      if updateSpectrum {
        SetSpectrumBuffers();
        var gridDim := GridDimFor(resN, blockDim(InitializeSpectrum));
        Dispatch(InitializeSpectrum, gridDim, gridDim, 1);
        gridDim := GridDimFor(resN, blockDim(PackSpectrumConjugate));
        Dispatch(PackSpectrumConjugate, gridDim, gridDim, 1);
      }
      var gridDim := GridDimFor(resN, blockDim(UpdateSpectrumForFFT));
      Dispatch(UpdateSpectrumForFFT, gridDim, gridDim, 1);
      InverseFFT();
      gridDim := GridDimFor(resN, blockDim(AssembleMaps));
      Dispatch(AssembleMaps, gridDim, gridDim, 1);
    }
  }
}
