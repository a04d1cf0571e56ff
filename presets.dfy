/**
 * The scene preset generator (class InputGenerator): from a few inspector
 * sliders and random draws it writes new octaves into the terrain script, new
 * first and second spectra into the water script, and new cloud settings into
 * the cloud volume.  Every UnityEngine.Random.Range call is an input here,
 * drawn from the range that call returns: the float overload includes both
 * ends, the int overload excludes its upper end.
 */
module Presets {
  import opened Compute
  import opened Mathf
  import GridMesh
  import Terrain
  import Water

  // ---------------------------------------------------------------------
  // Terrain preset

  /** The private octave struct the generator fills before handing it to the terrain. */
  datatype OctaveShape = OctaveShape(lacunarity: real, persistence: real)

  const ZeroShape := OctaveShape(0.0, 0.0)

  /** The random draws of one UpdateTerrainParameters call, in the order the code makes them. */
  datatype TerrainDraws = TerrainDraws(
    format: real,
    lacunarityVariation: real,
    persistenceVariation: real,
    octaveLacunarity: seq<real>,
    octavePersistence: seq<real>,
    slope: real,
    height: real,
    density: real,
    rotations: seq<int>,
    shifts: seq<real>)

  predicate UnitDraw(u: real) { 0.0 <= u <= 1.0 }

  /** Random.Range(0.0f, 1.0f) for every float draw, Random.Range(1, 360) and Random.Range(0.0f, 100.0f) for the octaves. */
  predicate ValidTerrainDraws(d: TerrainDraws)
  {
    && UnitDraw(d.format) && UnitDraw(d.lacunarityVariation) && UnitDraw(d.persistenceVariation)
    && |d.octaveLacunarity| == 4 && |d.octavePersistence| == 4
    && (forall k | 0 <= k < 4 :: UnitDraw(d.octaveLacunarity[k]))
    && (forall k | 0 <= k < 4 :: UnitDraw(d.octavePersistence[k]))
    && UnitDraw(d.slope) && UnitDraw(d.height) && UnitDraw(d.density)
    && |d.rotations| == 4 && (forall k | 0 <= k < 4 :: 1 <= d.rotations[k] < 360)
    && |d.shifts| == 4 && (forall k | 0 <= k < 4 :: 0.0 <= d.shifts[k] <= 100.0)
  }

  /** ((f - 0.6) / 0.4)^2 above 0.6, else 0. */
  function MountainFactor(f: real): (m: real)
    ensures f <= 0.6 ==> m == 0.0
    ensures f > 0.6 ==> m == Square((f - 0.6) / 0.4)
    ensures f <= 1.0 ==> 0.0 <= m <= 1.0
  {
    if f > 0.6 then Square((f - 0.6) / 0.4) else 0.0
  }

  /** Octave k's base lacunarity: 2 + 0.1 k, varied by up to 0.2 either way by the draw u. */
  function BaseLacunarity(k: nat, u: real): real
  {
    2.0 + k as real * 0.1 + (u * 0.4 - 0.2)
  }

  /** Octave k's base persistence: half of 0.5^k, varied by up to 20% by the draw u. */
  function BasePersistence(k: nat, u: real): real
  {
    0.5 * HalfPow(k) * (1.0 + (u * 0.4 - 0.2))
  }

  /** How far mountains raise the persistence of octave k. */
  function PersistenceMultiplier(k: nat, mountainFactor: real): real
  {
    if k == 0 then 2.0 + mountainFactor * 1.5 else if k == 1 then 1.8 + mountainFactor else 1.5
  }

  /** Lacunarity rises from its base towards (2 + mountainFactor) times it as the format goes to 1. */
  function OctaveLacunarity(baseLacunarity: real, mountainFactor: real, f: real, variation: real): real
  {
    Lerp(baseLacunarity, baseLacunarity * (2.0 + mountainFactor), f) + variation
  }

  /** Persistence before clamping: from half its base towards its multiple as the format goes to 1. */
  function OctavePersistence(basePersistence: real, multiplier: real, f: real, variation: real): real
  {
    Lerp(basePersistence * 0.5, basePersistence * multiplier, f) + variation
  }

  /** Octave k as the loop of UpdateTerrainParameters leaves it. */
  function PresetOctave(d: TerrainDraws, k: nat): (o: OctaveShape)
    requires k < 4 && |d.octaveLacunarity| == 4 && |d.octavePersistence| == 4
    ensures 0.0 <= o.persistence <= 1.0
  {
    var mountainFactor := MountainFactor(d.format);
    OctaveShape(
      OctaveLacunarity(BaseLacunarity(k, d.octaveLacunarity[k]), mountainFactor, d.format, d.lacunarityVariation * 0.4 - 0.2),
      Clamp01(OctavePersistence(BasePersistence(k, d.octavePersistence[k]), PersistenceMultiplier(k, mountainFactor),
                                d.format, d.persistenceVariation * 0.3 - 0.15)))
  }

  function PresetOctaves(d: TerrainDraws): (octaves: seq<OctaveShape>)
    requires |d.octaveLacunarity| == 4 && |d.octavePersistence| == 4
    ensures |octaves| == 4 && forall k | 0 <= k < 4 :: octaves[k] == PresetOctave(d, k)
  {
    seq(4, k requires 0 <= k < 4 => PresetOctave(d, k))
  }

  /** The terrain octaves setOctaves produces from the generator's four shapes and the rotation and shift draws. */
  function OctavesWith(shapes: seq<OctaveShape>, rotations: seq<int>, shifts: seq<real>): seq<Terrain.UiOctaveParams>
    requires |shapes| == 4 && |rotations| == 4 && |shifts| == 4
  {
    seq(4, k requires 0 <= k < 4 =>
      Terrain.UiOctaveParams(shapes[k].lacunarity, shapes[k].persistence, rotations[k], shifts[k]))
  }

  /** What one UpdateTerrainParameters call leaves in the terrain's four inspector octaves. */
  function TerrainOctaves(d: TerrainDraws): (octaves: seq<Terrain.UiOctaveParams>)
    requires |d.octaveLacunarity| == 4 && |d.octavePersistence| == 4 && |d.rotations| == 4 && |d.shifts| == 4
    ensures |octaves| == 4
    ensures forall k | 0 <= k < 4 ::
              && octaves[k].lacunarity == PresetOctave(d, k).lacunarity
              && octaves[k].persistence == PresetOctave(d, k).persistence
              && octaves[k].rotation == d.rotations[k] && octaves[k].shift == d.shifts[k]
  {
    OctavesWith(PresetOctaves(d), d.rotations, d.shifts)
  }

  /** A unit draw scaled by a non-negative wind lies between 0 and the wind. */
  lemma UnitScale(x: real, m: real)
    requires UnitDraw(x) && 0.0 <= m
    ensures 0.0 <= ScaledByWind(x, m) <= m
  {
    ProductOfNonNegatives(x, m);
    ProductOfNonNegatives(1.0 - x, m);
    assert (1.0 - x) * m == m - x * m;
  }

  /** The lacunarity interpolation for a base in [1.8, 2.5] and a mountain factor in [0, 1], varied by at most 0.2. */
  lemma LacunarityRange(baseLacunarity: real, mountainFactor: real, f: real, variation: real)
    requires 1.8 <= baseLacunarity <= 2.5 && 0.0 <= mountainFactor <= 1.0 && -0.2 <= variation <= 0.2
    ensures 1.6 <= OctaveLacunarity(baseLacunarity, mountainFactor, f, variation) <= 7.7
  {
    ProductOfNonNegatives(baseLacunarity, 1.0 + mountainFactor);
    ProductOfNonNegatives(2.5 - baseLacunarity, 2.0 + mountainFactor);
    assert baseLacunarity <= baseLacunarity * (2.0 + mountainFactor) <= 7.5;
  }

  /**
   * Every generated octave has lacunarity in [1.6, 7.7] (base 1.8..2.5, at most
   * tripled by the mountain factor, then varied by 0.2 either way) and
   * persistence in [0, 1].
   */
  lemma PresetOctaveRanges(d: TerrainDraws, k: nat)
    requires ValidTerrainDraws(d) && k < 4
    ensures 1.6 <= PresetOctave(d, k).lacunarity <= 7.7
    ensures 0.0 <= PresetOctave(d, k).persistence <= 1.0
  {
    var baseLacunarity := BaseLacunarity(k, d.octaveLacunarity[k]);
    assert 1.8 <= baseLacunarity <= 2.5 by {
      assert UnitDraw(d.octaveLacunarity[k]);
    }
    LacunarityRange(baseLacunarity, MountainFactor(d.format), d.format, d.lacunarityVariation * 0.4 - 0.2);
  }

  /** The octaves setOctaves writes: lacunarity and persistence in range, rotation in [1, 359], shift in [0, 100]. */
  lemma TerrainOctavesInRange(d: TerrainDraws)
    requires ValidTerrainDraws(d)
    ensures forall k | 0 <= k < 4 ::
              && 1.6 <= TerrainOctaves(d)[k].lacunarity <= 7.7
              && 0.0 <= TerrainOctaves(d)[k].persistence <= 1.0
              && 1 <= TerrainOctaves(d)[k].rotation <= 359
              && 0.0 <= TerrainOctaves(d)[k].shift <= 100.0
  {
    forall k | 0 <= k < 4
      ensures 1.6 <= TerrainOctaves(d)[k].lacunarity <= 7.7 && 0.0 <= TerrainOctaves(d)[k].persistence <= 1.0
    {
      PresetOctaveRanges(d, k);
    }
  }

  /** The vegetation settings UpdateTerrainParameters computes (slope, minimum height, density). */
  datatype VegetationPreset = VegetationPreset(slope: real, height: real, density: real)

  function UnclampedSlope(d: TerrainDraws): real
  {
    Lerp(0.3, 0.8, d.format) + (d.slope * 0.2 - 0.1)
  }

  /**
   * Vegetation density: the density draw u times the density slider, raised
   * by half, times the format's density cap, kept within [0.1, 1].
   */
  function DensityOf(u: real, vegetationDensity: real, maxDensity: real): (density: real)
    ensures 0.1 <= density <= 1.0
  {
    Clamp(u * vegetationDensity * 1.5 * maxDensity, 0.1, 1.0)
  }

  function VegetationOf(d: TerrainDraws, vegetationDensity: real): (v: VegetationPreset)
    ensures 0.2 <= v.slope <= 0.9 && 0.1 <= v.density <= 1.0
    ensures d.format <= 0.6 ==> v.height == Lerp(-10.0, 30.0, d.format) + (d.height * 8.0 - 4.0)
    ensures d.format > 0.6 ==> v.height >= Lerp(-10.0, 30.0, d.format) + (d.height * 8.0 - 4.0)
  {
    var f := d.format;
    var slope := Clamp(UnclampedSlope(d), 0.2, 0.9);
    var height := Lerp(-10.0, 30.0, f) + (d.height * 8.0 - 4.0);
    var height' := if f > 0.6 then height + Square((f - 0.6) / 0.4) * 30.0 else height;
    var density := DensityOf(d.density, vegetationDensity, Lerp(1.0, 0.5, f));
    VegetationPreset(slope, height', density)
  }

  /**
   * Slope ends in [0.2, 0.9] and the clamp never changes it; the minimum
   * height ends in [-14, 64] and gets the mountain bonus only above format
   * 0.6; density ends in [0.1, 1].
   */
  lemma VegetationRanges(d: TerrainDraws, vegetationDensity: real)
    requires ValidTerrainDraws(d)
    ensures var v := VegetationOf(d, vegetationDensity);
            && 0.2 <= v.slope <= 0.9 && v.slope == UnclampedSlope(d)
            && -14.0 <= v.height <= 64.0
            && (d.format <= 0.6 ==> v.height == Lerp(-10.0, 30.0, d.format) + (d.height * 8.0 - 4.0))
            && 0.1 <= v.density <= 1.0
  {
    if d.format > 0.6 {
      assert 0.0 <= Square((d.format - 0.6) / 0.4) * 30.0 <= 30.0;
    }
  }

  /**
   * With the density slider at zero or below (zero is its initial value),
   * vegetation density sits at its floor 0.1, never at 0.
   */
  lemma DensityFloor(d: TerrainDraws, vegetationDensity: real)
    requires ValidTerrainDraws(d) && vegetationDensity <= 0.0
    ensures VegetationOf(d, vegetationDensity).density == 0.1
  {
    var m := Lerp(1.0, 0.5, d.format);
    ProductOfNonNegatives(d.density, -vegetationDensity);
    ProductOfNonNegatives(-(d.density * vegetationDensity), 1.5 * m);
    assert d.density * vegetationDensity * 1.5 * m == -((-(d.density * vegetationDensity)) * (1.5 * m));
  }

  // ---------------------------------------------------------------------
  // Water preset

  /** The draws for one spectrum: scale in [1, 10], direction in [1, 359], fetch in [1, 99999], the rest in [0, 1]. */
  datatype SpectrumDraws = SpectrumDraws(
    scale: real, windDirection: int, fetch: int,
    spreadBlend: real, swell: real, peakEnhancement: real, shortWavesFade: real)

  predicate ValidSpectrumDraws(d: SpectrumDraws)
  {
    && 1.0 <= d.scale <= 10.0
    && 1 <= d.windDirection < 360
    && 1 <= d.fetch < 100000
    && UnitDraw(d.spreadBlend) && UnitDraw(d.swell) && UnitDraw(d.peakEnhancement) && UnitDraw(d.shortWavesFade)
  }

  /** A random draw multiplied by the wind slider. */
  function ScaledByWind(draw: real, wind: real): real
  {
    draw * wind
  }

  /** The spectrum UpdateWaterParameters writes for one set of draws. */
  function SpectrumPreset(d: SpectrumDraws, wind: real): (s: Water.UiSpectrumSettings)
    ensures s.windSpeed == 10.0 * wind
    ensures s.windDirection == s.windDirection.Floor as real && s.fetch == s.fetch.Floor as real
  {
    Water.UiSpectrumSettings(
      scale := ScaledByWind(d.scale, wind),
      windSpeed := 10.0 * wind,
      windDirection := d.windDirection as real,
      fetch := d.fetch as real,
      spreadBlend := ScaledByWind(d.spreadBlend, wind),
      swell := ScaledByWind(d.swell, wind),
      peakEnhancement := ScaledByWind(d.peakEnhancement, wind),
      shortWavesFade := ScaledByWind(d.shortWavesFade, wind))
  }

  /** Wind speed is ten times the wind slider and scale lies in [wind, 10 * wind]. */
  lemma SpectrumPresetStrength(d: SpectrumDraws, wind: real)
    requires ValidSpectrumDraws(d) && 0.0 <= wind
    ensures var s := SpectrumPreset(d, wind);
            s.windSpeed == 10.0 * wind && wind <= s.scale <= 10.0 * wind
  {
    ProductOfNonNegatives(d.scale - 1.0, wind);
    ProductOfNonNegatives(10.0 - d.scale, wind);
    assert wind <= ScaledByWind(d.scale, wind) <= 10.0 * wind;
  }

  /** Spread blend, swell, peak enhancement and short-wave fade each lie in [0, wind]. */
  lemma SpectrumPresetShaping(d: SpectrumDraws, wind: real)
    requires ValidSpectrumDraws(d) && 0.0 <= wind
    ensures var s := SpectrumPreset(d, wind);
            && 0.0 <= s.spreadBlend <= wind && 0.0 <= s.swell <= wind
            && 0.0 <= s.peakEnhancement <= wind && 0.0 <= s.shortWavesFade <= wind
  {
    UnitScale(d.spreadBlend, wind);
    UnitScale(d.swell, wind);
    UnitScale(d.peakEnhancement, wind);
    UnitScale(d.shortWavesFade, wind);
  }

  /**
   * The direction is a whole degree in [1, 359], so the angle lies strictly
   * inside one turn, and the fetch a whole number in [1, 99999].
   */
  lemma SpectrumPresetWholeNumbers(d: SpectrumDraws, wind: real)
    requires ValidSpectrumDraws(d)
    ensures var s := SpectrumPreset(d, wind);
            && 1.0 <= s.windDirection <= 359.0 && s.windDirection == s.windDirection.Floor as real
            && 0.0 < Water.WindAngle(s.windDirection) < 2.0 * Water.Pi
            && 1.0 <= s.fetch <= 99999.0 && s.fetch == s.fetch.Floor as real
  {
    WholeDegreeInsideTurn(d.windDirection);
  }

  /** A whole degree in [1, 359] gives an angle strictly between 0 and 2 pi. */
  lemma WholeDegreeInsideTurn(direction: int)
    requires 1 <= direction < 360
    ensures 0.0 < Water.WindAngle(direction as real) < 2.0 * Water.Pi
  {
    var x := direction as real;
    assert Water.WindAngle(x) == x * (Water.Pi / 180.0);
  }

  // ---------------------------------------------------------------------
  // Cloud preset

  /** The CloudSettings fields UpdateCloudParameters writes; the others keep their values. */
  datatype CloudValues = CloudValues(
    wind: GridMesh.Vec3,
    cloudScale: real,
    cloudSmooth: real,
    lightAbsorptionThroughCloud: real,
    densityThreshold: real,
    densityMultiplier: real,
    lightAbsorptionTowardSun: real,
    darknessThreshold: real,
    detailCloudWeight: real,
    detailCloudScale: real)

  /** Dark and heavy: both sliders above 0.9. */
  predicate Stormy(cloudAmount: real, cloudType: real) { cloudType > 0.9 && cloudAmount > 0.9 }

  /** Light and sparse: both sliders below 0.2, and not stormy. */
  predicate Clear(cloudAmount: real, cloudType: real)
  {
    !Stormy(cloudAmount, cloudType) && cloudType < 0.2 && cloudAmount < 0.2
  }

  /** The interpolated settings before the two threshold overrides. */
  function CloudLerps(wind: real, cloudAmount: real, cloudType: real): (c: CloudValues)
    ensures 0.1 <= c.wind.x <= 1.0 && c.wind.y == 0.0 && c.wind.z == c.wind.x
    ensures 0.25 <= c.cloudScale <= 4.0 && 10.0 <= c.cloudSmooth <= 40.0
    ensures 0.25 <= c.lightAbsorptionThroughCloud <= 0.8 && 0.0 <= c.densityThreshold <= 0.3
    ensures 4.0 <= c.densityMultiplier <= 10.0 && 0.6 <= c.lightAbsorptionTowardSun <= 1.0
    ensures 0.1 <= c.darknessThreshold <= 0.2 && 0.25 <= c.detailCloudWeight <= 1.0
    ensures 0.6 <= c.detailCloudScale <= 4.0
  {
    var w := Lerp(0.1, 1.0, wind);
    CloudValues(
      wind := GridMesh.Vec3(w, 0.0, w),
      cloudScale := Lerp(4.0, 0.25, cloudAmount),
      cloudSmooth := Lerp(10.0, 40.0, (cloudAmount + cloudType) / 2.0),
      lightAbsorptionThroughCloud := Lerp(0.25, 0.8, cloudType),
      densityThreshold := Lerp(0.3, 0.0, cloudAmount),
      densityMultiplier := Lerp(4.0, 10.0, cloudType),
      lightAbsorptionTowardSun := Lerp(0.6, 1.0, cloudType),
      darknessThreshold := Lerp(0.1, 0.2, cloudType * 0.5),
      detailCloudWeight := Lerp(0.25, 1.0, (cloudAmount + cloudType) / 2.0),
      detailCloudScale := Lerp(4.0, 0.6, cloudAmount))
  }

  function CloudPreset(wind: real, cloudAmount: real, cloudType: real): (c: CloudValues)
    ensures Stormy(cloudAmount, cloudType) ==> c.densityThreshold == 0.0 && c.densityMultiplier == 10.0
    ensures Clear(cloudAmount, cloudType) ==> c.cloudScale == 4.0 && c.cloudSmooth == 40.0
    ensures !Stormy(cloudAmount, cloudType) && !Clear(cloudAmount, cloudType) ==> c == CloudLerps(wind, cloudAmount, cloudType)
  {
    var c := CloudLerps(wind, cloudAmount, cloudType);
    if Stormy(cloudAmount, cloudType) then
      c.(lightAbsorptionThroughCloud := 0.78, densityThreshold := 0.0, densityMultiplier := 10.0,
         lightAbsorptionTowardSun := 1.0, detailCloudScale := 0.9)
    else if Clear(cloudAmount, cloudType) then
      c.(cloudScale := 4.0, cloudSmooth := 40.0, lightAbsorptionThroughCloud := 0.3,
         densityThreshold := 0.275, densityMultiplier := 4.25, detailCloudScale := 4.4)
    else c
  }

  /**
   * The three regimes: stormy skies get no density threshold and full
   * density; clear skies get the fixed light preset; in between every value is
   * its interpolation, so cloud scale lies in [0.25, 4] and the density
   * threshold in [0, 0.3].  The wind, darkness threshold and detail weight are
   * never overridden.
   */
  lemma CloudPresetRegimes(wind: real, cloudAmount: real, cloudType: real)
    ensures var c, l := CloudPreset(wind, cloudAmount, cloudType), CloudLerps(wind, cloudAmount, cloudType);
            && (Stormy(cloudAmount, cloudType) ==>
                  c.densityThreshold == 0.0 && c.densityMultiplier == 10.0 && c.lightAbsorptionThroughCloud == 0.78
                  && c.lightAbsorptionTowardSun == 1.0 && c.detailCloudScale == 0.9
                  && c.cloudScale == l.cloudScale && c.cloudSmooth == l.cloudSmooth)
            && (Clear(cloudAmount, cloudType) ==>
                  c.cloudScale == 4.0 && c.cloudSmooth == 40.0 && c.lightAbsorptionThroughCloud == 0.3
                  && c.densityThreshold == 0.275 && c.densityMultiplier == 4.25 && c.detailCloudScale == 4.4
                  && c.lightAbsorptionTowardSun == l.lightAbsorptionTowardSun)
            && (!Stormy(cloudAmount, cloudType) && !Clear(cloudAmount, cloudType) ==>
                  c == l && 0.25 <= c.cloudScale <= 4.0 && 0.0 <= c.densityThreshold <= 0.3)
            && c.wind == l.wind && c.darknessThreshold == l.darknessThreshold && c.detailCloudWeight == l.detailCloudWeight
  {
  }

  /**
   * Whatever the sliders hold, every value written stays inside the bounds
   * its ClampedFloatParameter declares, so none is clamped on assignment.
   */
  lemma CloudPresetWithinParameterBounds(wind: real, cloudAmount: real, cloudType: real)
    ensures var c := CloudPreset(wind, cloudAmount, cloudType);
            && 0.0 <= c.cloudScale <= 10.0 && 0.0 <= c.cloudSmooth <= 100.0
            && 0.0 <= c.lightAbsorptionThroughCloud <= 1.0 && 0.0 <= c.densityThreshold <= 1.0
            && 0.0 <= c.densityMultiplier <= 10.0 && 0.0 <= c.lightAbsorptionTowardSun <= 1.0
            && 0.0 <= c.darknessThreshold <= 1.0 && 0.0 <= c.detailCloudWeight <= 1.0
            && 0.0 <= c.detailCloudScale <= 10.0
            && 0.1 <= c.wind.x <= 1.0 && c.wind.y == 0.0 && c.wind.z == c.wind.x
  {
  }

  // ---------------------------------------------------------------------
  // The script

  class InputGenerator {
    var terrainFormat: real
    var vegetationDensity: real
    var wind: real
    var cloudAmount: real
    var cloudType: real

    const terrain: Terrain.TerrainScript
    const water: Water.FFTWaterBRDF
    /** The cloud override of the volume profile; None when the profile has no CloudSettings. */
    var cloud: Option<CloudValues>

    var generateTerrain: bool
    var generateWater: bool
    var generateCloud: bool

    const octave: array<OctaveShape>

    ghost predicate Valid()
      reads this
    {
      octave.Length == 4
    }

    /** The component as declared: every slider at 0, every generate flag down, four zeroed octaves. */
    constructor (terrain: Terrain.TerrainScript, water: Water.FFTWaterBRDF, cloud: Option<CloudValues>)
      ensures Valid() && fresh(octave) && octave[..] == seq(4, _ => ZeroShape)
      ensures this.terrain == terrain && this.water == water && this.cloud == cloud
      ensures terrainFormat == 0.0 && vegetationDensity == 0.0 && wind == 0.0 && cloudAmount == 0.0 && cloudType == 0.0
      ensures !generateTerrain && !generateWater && !generateCloud
    {
      this.terrain := terrain;
      this.water := water;
      this.cloud := cloud;
      terrainFormat, vegetationDensity, wind, cloudAmount, cloudType := 0.0, 0.0, 0.0, 0.0, 0.0;
      generateTerrain, generateWater, generateCloud := false, false, false;
      octave := new OctaveShape[4](_ => ZeroShape);
    }

    /**
     * Fills the four octaves from the draws, hands them to the terrain with
     * fresh rotations and shifts, asks the terrain to rebuild its collision
     * plane, and returns the vegetation settings.
     */
    method UpdateTerrainParameters(d: TerrainDraws) returns (vegetation: VegetationPreset)
      requires Valid() && ValidTerrainDraws(d)
      modifies octave, terrain`octave1, terrain`octave2, terrain`octave3, terrain`octave4, terrain`reCalcCollision
      ensures octave[..] == PresetOctaves(d)
      ensures terrain.UiOctaves() == TerrainOctaves(d)
      ensures terrain.reCalcCollision
      ensures vegetation == VegetationOf(d, vegetationDensity)
    {
      var effectiveTerrainFormat := d.format;
      var lacunarityVariation := d.lacunarityVariation * 0.4 - 0.2;
      var persistenceVariation := d.persistenceVariation * 0.3 - 0.15;
      var mountainFactor := MountainFactor(effectiveTerrainFormat);

      var i := 0;
      while i < 4
        invariant 0 <= i <= 4
        invariant forall k | 0 <= k < i :: octave[k] == PresetOctave(d, k)
      {
        FillOctave(d, i, mountainFactor, lacunarityVariation, persistenceVariation);
        i := i + 1;
      }

      var slope := Clamp(Lerp(0.3, 0.8, effectiveTerrainFormat) + (d.slope * 0.2 - 0.1), 0.2, 0.9);
      var heightVariation := d.height * 8.0 - 4.0;
      var height := Lerp(-10.0, 30.0, effectiveTerrainFormat) + heightVariation;
      if effectiveTerrainFormat > 0.6 {
        var enhancedMountainFactor := Square((effectiveTerrainFormat - 0.6) / 0.4);
        height := height + enhancedMountainFactor * 30.0;
      }
      var maxDensity := Lerp(1.0, 0.5, effectiveTerrainFormat);
      vegetation := VegetationPreset(slope, height, DensityOf(d.density, vegetationDensity, maxDensity));

      SetOctaves(d.rotations, d.shifts);
      terrain.reCalcCollision := true;
    }

    /** One pass of UpdateTerrainParameters' octave loop: slot i gets its lacunarity, then its clamped persistence. */
    method FillOctave(d: TerrainDraws, i: nat, mountainFactor: real, lacunarityVariation: real, persistenceVariation: real)
      requires Valid() && ValidTerrainDraws(d) && i < 4
      requires mountainFactor == MountainFactor(d.format)
      requires lacunarityVariation == d.lacunarityVariation * 0.4 - 0.2
      requires persistenceVariation == d.persistenceVariation * 0.3 - 0.15
      modifies octave
      ensures octave[i] == PresetOctave(d, i)
      ensures forall k | 0 <= k < 4 && k != i :: octave[k] == old(octave[k])
    {
      var baseLacunarity := BaseLacunarity(i, d.octaveLacunarity[i]);
      octave[i] := octave[i].(lacunarity := OctaveLacunarity(baseLacunarity, mountainFactor, d.format, lacunarityVariation));
      var basePersistence := BasePersistence(i, d.octavePersistence[i]);
      var persistenceMultiplier := PersistenceMultiplier(i, mountainFactor);
      octave[i] := octave[i].(persistence := OctavePersistence(basePersistence, persistenceMultiplier, d.format, persistenceVariation));
      octave[i] := octave[i].(persistence := Clamp01(octave[i].persistence));
    }

    /** setOctaves: the terrain's octave k takes lacunarity and persistence from slot k, plus a rotation and a shift. */
    method SetOctaves(rotations: seq<int>, shifts: seq<real>)
      requires Valid() && |rotations| == 4 && |shifts| == 4
      modifies terrain`octave1, terrain`octave2, terrain`octave3, terrain`octave4
      ensures terrain.UiOctaves() == OctavesWith(octave[..], rotations, shifts)
    {
      terrain.octave1 := terrain.octave1.(lacunarity := octave[0].lacunarity);
      terrain.octave2 := terrain.octave2.(lacunarity := octave[1].lacunarity);
      terrain.octave3 := terrain.octave3.(lacunarity := octave[2].lacunarity);
      terrain.octave4 := terrain.octave4.(lacunarity := octave[3].lacunarity);

      terrain.octave1 := terrain.octave1.(persistence := octave[0].persistence);
      terrain.octave2 := terrain.octave2.(persistence := octave[1].persistence);
      terrain.octave3 := terrain.octave3.(persistence := octave[2].persistence);
      terrain.octave4 := terrain.octave4.(persistence := octave[3].persistence);

      terrain.octave1 := terrain.octave1.(rotation := rotations[0]);
      terrain.octave2 := terrain.octave2.(rotation := rotations[1]);
      terrain.octave3 := terrain.octave3.(rotation := rotations[2]);
      terrain.octave4 := terrain.octave4.(rotation := rotations[3]);

      terrain.octave1 := terrain.octave1.(shift := shifts[0]);
      terrain.octave2 := terrain.octave2.(shift := shifts[1]);
      terrain.octave3 := terrain.octave3.(shift := shifts[2]);
      terrain.octave4 := terrain.octave4.(shift := shifts[3]);
    }

    /** Rewrites every field of the water's first two spectra from the draws and the wind slider. */
    method UpdateWaterParameters(d1: SpectrumDraws, d2: SpectrumDraws)
      modifies water`spectrum1, water`spectrum2
      ensures water.spectrum1 == SpectrumPreset(d1, wind)
      ensures water.spectrum2 == SpectrumPreset(d2, wind)
    {
      water.spectrum1 := water.spectrum1.(scale := ScaledByWind(d1.scale, wind));
      water.spectrum1 := water.spectrum1.(windSpeed := 10.0 * wind);
      water.spectrum1 := water.spectrum1.(windDirection := d1.windDirection as real);
      water.spectrum1 := water.spectrum1.(fetch := d1.fetch as real);
      water.spectrum1 := water.spectrum1.(spreadBlend := ScaledByWind(d1.spreadBlend, wind));
      water.spectrum1 := water.spectrum1.(swell := ScaledByWind(d1.swell, wind));
      water.spectrum1 := water.spectrum1.(peakEnhancement := ScaledByWind(d1.peakEnhancement, wind));
      water.spectrum1 := water.spectrum1.(shortWavesFade := ScaledByWind(d1.shortWavesFade, wind));

      water.spectrum2 := water.spectrum2.(scale := ScaledByWind(d2.scale, wind));
      water.spectrum2 := water.spectrum2.(windSpeed := 10.0 * wind);
      water.spectrum2 := water.spectrum2.(windDirection := d2.windDirection as real);
      water.spectrum2 := water.spectrum2.(fetch := d2.fetch as real);
      water.spectrum2 := water.spectrum2.(spreadBlend := ScaledByWind(d2.spreadBlend, wind));
      water.spectrum2 := water.spectrum2.(swell := ScaledByWind(d2.swell, wind));
      water.spectrum2 := water.spectrum2.(peakEnhancement := ScaledByWind(d2.peakEnhancement, wind));
      water.spectrum2 := water.spectrum2.(shortWavesFade := ScaledByWind(d2.shortWavesFade, wind));
    }

    /** Rewrites the cloud settings from the sliders, when the volume profile has them. */
    method UpdateCloudParameters()
      modifies this`cloud
      ensures cloud == if old(cloud).Some? then Some(CloudPreset(wind, cloudAmount, cloudType)) else None
    {
      if cloud.Some? {
        var c := cloud.value;
        c := c.(wind := GridMesh.Vec3(Lerp(0.1, 1.0, wind), 0.0, Lerp(0.1, 1.0, wind)));
        c := c.(cloudScale := Lerp(4.0, 0.25, cloudAmount));
        c := c.(cloudSmooth := Lerp(10.0, 40.0, (cloudAmount + cloudType) / 2.0));
        c := c.(lightAbsorptionThroughCloud := Lerp(0.25, 0.8, cloudType));
        c := c.(densityThreshold := Lerp(0.3, 0.0, cloudAmount));
        c := c.(densityMultiplier := Lerp(4.0, 10.0, cloudType));
        c := c.(lightAbsorptionTowardSun := Lerp(0.6, 1.0, cloudType));
        c := c.(darknessThreshold := Lerp(0.1, 0.2, cloudType * 0.5));
        c := c.(detailCloudWeight := Lerp(0.25, 1.0, (cloudAmount + cloudType) / 2.0));
        c := c.(detailCloudScale := Lerp(4.0, 0.6, cloudAmount));

        if cloudType > 0.9 && cloudAmount > 0.9 {
          c := c.(lightAbsorptionThroughCloud := 0.78);
          c := c.(densityThreshold := 0.0);
          c := c.(densityMultiplier := 10.0);
          c := c.(lightAbsorptionTowardSun := 1.0);
          c := c.(detailCloudScale := 0.9);
        } else if cloudType < 0.2 && cloudAmount < 0.2 {
          c := c.(cloudScale := 4.0);
          c := c.(cloudSmooth := 40.0);
          c := c.(lightAbsorptionThroughCloud := 0.3);
          c := c.(densityThreshold := 0.275);
          c := c.(densityMultiplier := 4.25);
          c := c.(detailCloudScale := 4.4);
        }
        cloud := Some(c);
      }
    }

    /** Generates all three presets once. */
    method Start(terrainDraws: TerrainDraws, spectrum1Draws: SpectrumDraws, spectrum2Draws: SpectrumDraws)
      returns (vegetation: VegetationPreset)
      requires Valid() && ValidTerrainDraws(terrainDraws)
      modifies octave, terrain`octave1, terrain`octave2, terrain`octave3, terrain`octave4, terrain`reCalcCollision,
               water`spectrum1, water`spectrum2, this`cloud
      ensures octave[..] == PresetOctaves(terrainDraws) && terrain.UiOctaves() == TerrainOctaves(terrainDraws)
      ensures terrain.reCalcCollision && vegetation == VegetationOf(terrainDraws, vegetationDensity)
      ensures water.spectrum1 == SpectrumPreset(spectrum1Draws, wind) && water.spectrum2 == SpectrumPreset(spectrum2Draws, wind)
      ensures cloud == if old(cloud).Some? then Some(CloudPreset(wind, cloudAmount, cloudType)) else None
    {
      vegetation := UpdateTerrainParameters(terrainDraws);
      UpdateWaterParameters(spectrum1Draws, spectrum2Draws);
      UpdateCloudParameters();
    }

    /**
     * One frame: each raised generate flag runs its preset once and is
     * lowered; a preset whose flag is down leaves its target alone.
     */
    method Update(terrainDraws: TerrainDraws, spectrum1Draws: SpectrumDraws, spectrum2Draws: SpectrumDraws)
      returns (vegetation: Option<VegetationPreset>)
      requires Valid() && (generateTerrain ==> ValidTerrainDraws(terrainDraws))
      modifies octave, terrain`octave1, terrain`octave2, terrain`octave3, terrain`octave4, terrain`reCalcCollision,
               water`spectrum1, water`spectrum2, this`cloud,
               this`generateTerrain, this`generateWater, this`generateCloud
      ensures Valid()
      ensures !generateTerrain && !generateWater && !generateCloud
      ensures old(generateTerrain) ==>
                && octave[..] == PresetOctaves(terrainDraws) && terrain.UiOctaves() == TerrainOctaves(terrainDraws)
                && terrain.reCalcCollision && vegetation == Some(VegetationOf(terrainDraws, vegetationDensity))
      ensures !old(generateTerrain) ==>
                && octave[..] == old(octave[..]) && terrain.UiOctaves() == old(terrain.UiOctaves())
                && terrain.reCalcCollision == old(terrain.reCalcCollision) && vegetation == None
      ensures old(generateWater) ==>
                water.spectrum1 == SpectrumPreset(spectrum1Draws, wind) && water.spectrum2 == SpectrumPreset(spectrum2Draws, wind)
      ensures !old(generateWater) ==>
                water.spectrum1 == old(water.spectrum1) && water.spectrum2 == old(water.spectrum2)
      ensures old(generateCloud) ==>
                cloud == if old(cloud).Some? then Some(CloudPreset(wind, cloudAmount, cloudType)) else None
      ensures !old(generateCloud) ==> cloud == old(cloud)
    {
      vegetation := None;
      if generateTerrain {
        var v := UpdateTerrainParameters(terrainDraws);
        vegetation := Some(v);
        generateTerrain := false;
      }
      if generateWater {
        UpdateWaterParameters(spectrum1Draws, spectrum2Draws);
        generateWater := false;
      }
      if generateCloud {
        UpdateCloudParameters();
        generateCloud := false;
      }
    }
  }
}
