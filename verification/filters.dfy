/**
 * Filter handlers. Each one finds its layer or throws before touching the
 * host, then either calls a filter method of the layer (motion blur,
 * Gaussian blur, noise) or selects the layer and plays one filter
 * descriptor. Missing options are filled in with `||`, so 0, "" and false
 * count as missing too; enumerated options go through a lookup table with a
 * fallback.
 */
module Filters {
  import opened Wrappers
  import opened Js
  import opened Host

  /** A filter applied by a method of the layer itself: find the layer or throw, then one layer call. */
  function OnLayerCall(h: Host, o: Options, handler: string, call: string, args: seq<Value>): (r: Run)
    ensures Target(h, o).None? <==> Threw(r)
    ensures Target(h, o).None? ==> r == Missing(handler)
    ensures Target(h, o).Some? ==> r.actions == [LayerCall(Target(h, o).value.id, call, args)]
  {
    match Target(h, o)
    case None => Missing(handler)
    case Some(l) => Run([LayerCall(l.id, call, args)], None)
  }

  /**
   * `table[v || fallback] || fallback` for a table that maps each of its keys
   * to itself: a known name is kept, anything else becomes the fallback.
   */
  function Pick(keys: set<string>, v: Value, fallback: string): (r: string)
    requires fallback in keys && "" !in keys
    ensures r in keys
    ensures v.Str? && v.s in keys ==> r == v.s
    ensures !(v.Str? && v.s in keys) ==> r == fallback
  {
    var table := map k | k in keys :: k;
    Lookup(table, Or(v, Str(fallback)), fallback)
  }

  // ---------------------------------------------------------------------
  // Filters applied through the layer's own methods

  /** `applyMotionBlur`: `layer.applyMotionBlur(angle, distance)` with the options as given. */
  function ApplyMotionBlur(h: Host, o: Options): (r: Run)
    ensures Target(h, o).None? ==> r == Missing("applyMotionBlur")
    ensures Target(h, o).Some? ==>
      r == Run([LayerCall(Target(h, o).value.id, "applyMotionBlur", [Get(o, "angle"), Get(o, "distance")])], None)
  {
    OnLayerCall(h, o, "applyMotionBlur", "applyMotionBlur", [Get(o, "angle"), Get(o, "distance")])
  }

  /** `applyGaussianBlur`: `layer.applyGaussianBlur(radius)` with the radius as given. */
  function ApplyGaussianBlur(h: Host, o: Options): (r: Run)
    ensures Target(h, o).None? ==> r == Missing("applyGaussianBlur")
    ensures Target(h, o).Some? ==>
      r == Run([LayerCall(Target(h, o).value.id, "applyGaussianBlur", [Get(o, "radius")])], None)
  {
    OnLayerCall(h, o, "applyGaussianBlur", "applyGaussianBlur", [Get(o, "radius")])
  }

  /**
   * The keys of Photoshop's `constants.NoiseDistribution`. The layer call
   * receives the constant, written here as its key.
   */
  const NoiseDistributions: set<string> := {"GAUSSIAN", "UNIFORM"}

  /**
   * `constants.NoiseDistribution[(distribution || "gaussian").toUpperCase()]
   * || constants.NoiseDistribution.GAUSSIAN`: the name is upper-cased, so its
   * case does not matter; an unknown name gives GAUSSIAN; a truthy value
   * that is not a string has no `toUpperCase` and raises.
   */
  function NoiseDistribution(v: Value): (r: Result<string, string>)
    ensures r.Err? <==> Truthy(v) && !v.Str?
    ensures r.Err? ==> r.error == TypeError
    ensures r.Ok? ==> r.value in NoiseDistributions
    ensures r == Ok("UNIFORM") <==> v.Str? && Upper(v.s) == "UNIFORM"
  {
    match ToUpper(Or(v, Str("gaussian")))
    case Err(e) => Err(e)
    case Ok(key) => Ok(if key in NoiseDistributions then key else "GAUSSIAN")
  }

  /**
   * `applyNoise`: `layer.applyAddNoise(amount, distribution, monochromatic)`
   * with amount `|| 5` and monochromatic unless it is exactly false. A bad
   * distribution raises before the call.
   */
  function ApplyNoise(h: Host, o: Options): (r: Run)
    ensures Target(h, o).None? ==> r == Missing("applyNoise")
    ensures Target(h, o).Some? && NoiseDistribution(Get(o, "distribution")).Err? ==> r == Run([], Some(TypeError))
    ensures Target(h, o).Some? && NoiseDistribution(Get(o, "distribution")).Ok? ==>
      r == Run([LayerCall(Target(h, o).value.id, "applyAddNoise",
                          [Or(Get(o, "amount"), N(5.0)),
                           Str(NoiseDistribution(Get(o, "distribution")).value),
                           Bool(Get(o, "monochromatic") != Bool(false))])], None)
  {
    match Target(h, o)
    case None => Missing("applyNoise")
    case Some(_) =>
      match NoiseDistribution(Get(o, "distribution"))
      case Err(e) => Run([], Some(e))
      case Ok(distribution) =>
        OnLayerCall(h, o, "applyNoise", "applyAddNoise",
                    [Or(Get(o, "amount"), N(5.0)), Str(distribution), Bool(NotFalse(Get(o, "monochromatic")))])
  }

  /** The Python tool's `noise_distributions`: each reaches its own constant, whatever its case. */
  const AdvertisedNoiseDistributions: seq<string> := ["uniform", "gaussian"]

  lemma AdvertisedNoiseDistinct()
    ensures NoiseDistribution(Str(AdvertisedNoiseDistributions[0])) == Ok("UNIFORM")
    ensures NoiseDistribution(Str(AdvertisedNoiseDistributions[1])) == Ok("GAUSSIAN")
  {
    UpperUniform();
    UpperGaussian();
  }

  /** The distribution is matched without regard to case, and a missing one is Gaussian. */
  lemma NoiseDistributionCaseInsensitive()
    ensures NoiseDistribution(Str("Uniform")) == Ok("UNIFORM") && NoiseDistribution(Undefined) == Ok("GAUSSIAN")
  {
    UpperUniform();
    UpperGaussian();
  }

  /** Only an explicit false turns monochromatic noise off; a falsy 0 or "" does not. */
  lemma NoiseMonochromaticUnlessFalse(h: Host, o: Options)
    requires Target(h, o).Some? && Get(o, "distribution") == Undefined
    ensures Get(o, "monochromatic") == Num(0.0) ==> ApplyNoise(h, o).actions[0].args[2] == Bool(true)
    ensures Get(o, "monochromatic") == Bool(false) ==> ApplyNoise(h, o).actions[0].args[2] == Bool(false)
  {
  }

  // ---------------------------------------------------------------------
  // Filters played as descriptors

  /** `applySharpen`: select the layer and play `sharpen`. */
  function ApplySharpen(h: Host, o: Options): (r: Run)
    ensures Target(h, o).None? ==> r == Missing("applySharpen")
    ensures Target(h, o).Some? ==> !Threw(r) && r.actions == [SelectLayer(Target(h, o).value.id), BatchPlay([Plain("sharpen")])]
  {
    OnLayer(h, o, "applySharpen", [Plain("sharpen")])
  }

  /** `unsharpMask`: amount `|| 100`, radius `|| 1` pixels, threshold `|| 0`. */
  function UnsharpMask(o: Options): (d: Value)
    ensures At(d, "amount") == Or(Get(o, "amount"), N(100.0))
    ensures ValueAt(d, "radius") == Or(Get(o, "radius"), N(1.0))
    ensures At(d, "threshold") == Or(Get(o, "threshold"), N(0.0))
  {
    Desc("unsharpMask", map[
      "amount" := Or(Get(o, "amount"), N(100.0)),
      "radius" := Unit("pixelsUnit", Or(Get(o, "radius"), N(1.0))),
      "threshold" := Or(Get(o, "threshold"), N(0.0))])
  }

  function ApplyUnsharpMask(h: Host, o: Options): (r: Run)
    ensures Target(h, o).None? ==> r == Missing("applyUnsharpMask")
    ensures Target(h, o).Some? ==> !Threw(r) && r.actions == [SelectLayer(Target(h, o).value.id), BatchPlay([UnsharpMask(o)])]
  {
    OnLayer(h, o, "applyUnsharpMask", [UnsharpMask(o)])
  }

  /** `highPass`: radius `|| 10` pixels. */
  function HighPass(o: Options): (d: Value)
    ensures ValueAt(d, "radius") == Or(Get(o, "radius"), N(10.0))
  {
    Desc("highPass", map["radius" := Unit("pixelsUnit", Or(Get(o, "radius"), N(10.0)))])
  }

  function ApplyHighPass(h: Host, o: Options): (r: Run)
    ensures Target(h, o).None? ==> r == Missing("applyHighPass")
    ensures Target(h, o).Some? ==> !Threw(r) && r.actions == [SelectLayer(Target(h, o).value.id), BatchPlay([HighPass(o)])]
  {
    OnLayer(h, o, "applyHighPass", [HighPass(o)])
  }

  const BlurMethods: set<string> := {"spin", "zoom"}
  const BlurQualities: set<string> := {"draft", "good", "best"}

  /** `radialBlur`: amount `|| 10`; method "spin" or "zoom", else "spin"; quality "draft", "good" or "best", else "good". */
  function RadialBlur(o: Options): (d: Value)
    ensures At(d, "amount") == Or(Get(o, "amount"), N(10.0))
    ensures ValueAt(d, "blurMethod") == Str(Pick(BlurMethods, Get(o, "method"), "spin"))
    ensures ValueAt(d, "blurQuality") == Str(Pick(BlurQualities, Get(o, "quality"), "good"))
  {
    Desc("radialBlur", map[
      "amount" := Or(Get(o, "amount"), N(10.0)),
      "blurMethod" := Enum("blurMethod", Pick(BlurMethods, Get(o, "method"), "spin")),
      "blurQuality" := Enum("blurQuality", Pick(BlurQualities, Get(o, "quality"), "good"))])
  }

  function ApplyRadialBlur(h: Host, o: Options): (r: Run)
    ensures Target(h, o).None? ==> r == Missing("applyRadialBlur")
    ensures Target(h, o).Some? ==> !Threw(r) && r.actions == [SelectLayer(Target(h, o).value.id), BatchPlay([RadialBlur(o)])]
  {
    OnLayer(h, o, "applyRadialBlur", [RadialBlur(o)])
  }

  /** The Python tool's `radial_blur_methods` and `radial_blur_qualities`. */
  const AdvertisedBlurMethods: seq<string> := ["spin", "zoom"]
  const AdvertisedBlurQualities: seq<string> := ["draft", "good", "best"]

  /** Every advertised method and quality reaches the descriptor unchanged; an unknown one does not. */
  lemma AdvertisedRadialBlurKept(o: Options, i: nat, j: nat)
    requires i < |AdvertisedBlurMethods| && j < |AdvertisedBlurQualities|
    requires Get(o, "method") == Str(AdvertisedBlurMethods[i]) && Get(o, "quality") == Str(AdvertisedBlurQualities[j])
    ensures ValueAt(RadialBlur(o), "blurMethod") == Str(AdvertisedBlurMethods[i])
    ensures ValueAt(RadialBlur(o), "blurQuality") == Str(AdvertisedBlurQualities[j])
  {
    assert AdvertisedBlurMethods[i] in BlurMethods;
    assert AdvertisedBlurQualities[j] in BlurQualities;
  }

  /** `surfaceBlur`: radius `|| 5`, threshold `|| 15`. */
  function SurfaceBlur(o: Options): (d: Value)
    ensures At(d, "radius") == Or(Get(o, "radius"), N(5.0))
    ensures At(d, "threshold") == Or(Get(o, "threshold"), N(15.0))
  {
    Desc("surfaceBlur", map["radius" := Or(Get(o, "radius"), N(5.0)), "threshold" := Or(Get(o, "threshold"), N(15.0))])
  }

  function ApplySurfaceBlur(h: Host, o: Options): (r: Run)
    ensures Target(h, o).None? ==> r == Missing("applySurfaceBlur")
    ensures Target(h, o).Some? ==> !Threw(r) && r.actions == [SelectLayer(Target(h, o).value.id), BatchPlay([SurfaceBlur(o)])]
  {
    OnLayer(h, o, "applySurfaceBlur", [SurfaceBlur(o)])
  }

  /** `lensBlur`: no depth map, focal distance 0, no noise; radius `|| 15`, brightness and threshold `|| 0`. */
  function LensBlur(o: Options): (d: Value)
    ensures At(d, "focalDistance") == N(0.0) && At(d, "noiseAmount") == N(0.0)
    ensures At(d, "radius") == Or(Get(o, "radius"), N(15.0))
    ensures At(d, "brightness") == Or(Get(o, "brightness"), N(0.0))
    ensures At(d, "threshold") == Or(Get(o, "threshold"), N(0.0))
  {
    Desc("lensBlur", map[
      "source" := Enum("depthMapSource", "none"),
      "distribution" := Enum("distribution", "uniform"),
      "focalDistance" := N(0.0),
      "noiseAmount" := N(0.0),
      "radius" := Or(Get(o, "radius"), N(15.0)),
      "brightness" := Or(Get(o, "brightness"), N(0.0)),
      "threshold" := Or(Get(o, "threshold"), N(0.0))])
  }

  function ApplyLensBlur(h: Host, o: Options): (r: Run)
    ensures Target(h, o).None? ==> r == Missing("applyLensBlur")
    ensures Target(h, o).Some? ==> !Threw(r) && r.actions == [SelectLayer(Target(h, o).value.id), BatchPlay([LensBlur(o)])]
  {
    OnLayer(h, o, "applyLensBlur", [LensBlur(o)])
  }

  const RemoveTypes: set<string> := {"gaussianBlur", "lensBlur", "motionBlur"}

  /** `smartSharpen`: amount `|| 100`, radius `|| 1` pixels, noise reduction `|| 0`, a known blur to remove or "gaussianBlur". */
  function SmartSharpen(o: Options): (d: Value)
    ensures At(d, "amount") == Or(Get(o, "amount"), N(100.0))
    ensures ValueAt(d, "radius") == Or(Get(o, "radius"), N(1.0))
    ensures At(d, "noiseReduction") == Or(Get(o, "noiseReduction"), N(0.0))
    ensures ValueAt(d, "remove") == Str(Pick(RemoveTypes, Get(o, "removeType"), "gaussianBlur"))
  {
    Desc("smartSharpen", map[
      "amount" := Or(Get(o, "amount"), N(100.0)),
      "radius" := Unit("pixelsUnit", Or(Get(o, "radius"), N(1.0))),
      "noiseReduction" := Or(Get(o, "noiseReduction"), N(0.0)),
      "remove" := Enum("removeType", Pick(RemoveTypes, Get(o, "removeType"), "gaussianBlur"))])
  }

  function ApplySmartSharpen(h: Host, o: Options): (r: Run)
    ensures Target(h, o).None? ==> r == Missing("applySmartSharpen")
    ensures Target(h, o).Some? ==> !Threw(r) && r.actions == [SelectLayer(Target(h, o).value.id), BatchPlay([SmartSharpen(o)])]
  {
    OnLayer(h, o, "applySmartSharpen", [SmartSharpen(o)])
  }

  /** The Python tool's `smart_sharpen_remove_types`, each kept as given. */
  const AdvertisedRemoveTypes: seq<string> := ["gaussianBlur", "lensBlur", "motionBlur"]

  lemma AdvertisedRemoveTypesKept(o: Options, i: nat)
    requires i < |AdvertisedRemoveTypes| && Get(o, "removeType") == Str(AdvertisedRemoveTypes[i])
    ensures ValueAt(SmartSharpen(o), "remove") == Str(AdvertisedRemoveTypes[i])
  {
    assert AdvertisedRemoveTypes[i] in RemoveTypes;
  }

  /** The oil paint parameters of `GEfc`; lighting is on unless it is exactly false. */
  function OilPaint(o: Options): (d: Value)
    ensures At(d, "lightingOn") == Bool(Get(o, "lighting") != Bool(false))
    ensures At(d, "shininess") == Or(Get(o, "shine"), N(0.5))
    ensures At(d, "stylization") == Or(Get(o, "stylization"), N(4.0))
    ensures At(d, "cleanliness") == Or(Get(o, "cleanliness"), N(5.0))
    ensures At(d, "brushScale") == Or(Get(o, "scale"), N(0.5))
    ensures At(d, "bristleDetail") == Or(Get(o, "bristleDetail"), N(2.0))
    ensures At(d, "angularDirection") == Or(Get(o, "lightDirection"), N(0.0))
  {
    Desc("paintOil", map[
      "stylization" := Or(Get(o, "stylization"), N(4.0)),
      "cleanliness" := Or(Get(o, "cleanliness"), N(5.0)),
      "brushScale" := Or(Get(o, "scale"), N(0.5)),
      "bristleDetail" := Or(Get(o, "bristleDetail"), N(2.0)),
      "angularDirection" := Or(Get(o, "lightDirection"), N(0.0)),
      "shininess" := Or(Get(o, "shine"), N(0.5)),
      "lightingOn" := Bool(NotFalse(Get(o, "lighting")))])
  }

  function ApplyOilPaint(h: Host, o: Options): (r: Run)
    ensures Target(h, o).None? ==> r == Missing("applyOilPaint")
    ensures Target(h, o).Some? ==> !Threw(r) && r.actions == [SelectLayer(Target(h, o).value.id), BatchPlay([Desc("GEfc", map["oilPaint" := OilPaint(o)])])]
  {
    OnLayer(h, o, "applyOilPaint", [Desc("GEfc", map["oilPaint" := OilPaint(o)])])
  }

  /** `emboss`: angle `|| 135`, height `|| 3`, amount `|| 100` percent. */
  function Emboss(o: Options): (d: Value)
    ensures At(d, "angle") == Or(Get(o, "angle"), N(135.0))
    ensures At(d, "height") == Or(Get(o, "height"), N(3.0))
    ensures ValueAt(d, "amount") == Or(Get(o, "amount"), N(100.0))
  {
    Desc("emboss", map[
      "angle" := Or(Get(o, "angle"), N(135.0)),
      "height" := Or(Get(o, "height"), N(3.0)),
      "amount" := Unit("percentUnit", Or(Get(o, "amount"), N(100.0)))])
  }

  function ApplyEmboss(h: Host, o: Options): (r: Run)
    ensures Target(h, o).None? ==> r == Missing("applyEmboss")
    ensures Target(h, o).Some? ==> !Threw(r) && r.actions == [SelectLayer(Target(h, o).value.id), BatchPlay([Emboss(o)])]
  {
    OnLayer(h, o, "applyEmboss", [Emboss(o)])
  }

  function ApplyFindEdges(h: Host, o: Options): (r: Run)
    ensures Target(h, o).None? ==> r == Missing("applyFindEdges")
    ensures Target(h, o).Some? ==> !Threw(r) && r.actions == [SelectLayer(Target(h, o).value.id), BatchPlay([Plain("findEdges")])]
  {
    OnLayer(h, o, "applyFindEdges", [Plain("findEdges")])
  }

  /** `mosaic`: cell size `|| 10` pixels. */
  function Pixelate(o: Options): (d: Value)
    ensures ValueAt(d, "cellSize") == Or(Get(o, "cellSize"), N(10.0))
  {
    Desc("mosaic", map["cellSize" := Unit("pixelsUnit", Or(Get(o, "cellSize"), N(10.0)))])
  }

  function ApplyPixelate(h: Host, o: Options): (r: Run)
    ensures Target(h, o).None? ==> r == Missing("applyPixelate")
    ensures Target(h, o).Some? ==> !Threw(r) && r.actions == [SelectLayer(Target(h, o).value.id), BatchPlay([Pixelate(o)])]
  {
    OnLayer(h, o, "applyPixelate", [Pixelate(o)])
  }

  /** `crystallize`: cell size `|| 10`, a plain number. */
  function Crystallize(o: Options): (d: Value)
    ensures At(d, "cellSize") == Or(Get(o, "cellSize"), N(10.0))
  {
    Desc("crystallize", map["cellSize" := Or(Get(o, "cellSize"), N(10.0))])
  }

  function ApplyCrystallize(h: Host, o: Options): (r: Run)
    ensures Target(h, o).None? ==> r == Missing("applyCrystallize")
    ensures Target(h, o).Some? ==> !Threw(r) && r.actions == [SelectLayer(Target(h, o).value.id), BatchPlay([Crystallize(o)])]
  {
    OnLayer(h, o, "applyCrystallize", [Crystallize(o)])
  }

  /** `colorHalftone`: maximum radius `|| 8` and the four screen angles `|| 108, 162, 90, 45`. */
  function ColorHalftone(o: Options): (d: Value)
    ensures At(d, "maxRadius") == Or(Get(o, "maxRadius"), N(8.0))
    ensures At(d, "angle1") == Or(Get(o, "angle1"), N(108.0)) && At(d, "angle2") == Or(Get(o, "angle2"), N(162.0))
    ensures At(d, "angle3") == Or(Get(o, "angle3"), N(90.0)) && At(d, "angle4") == Or(Get(o, "angle4"), N(45.0))
  {
    Desc("colorHalftone", map[
      "maxRadius" := Or(Get(o, "maxRadius"), N(8.0)),
      "angle1" := Or(Get(o, "angle1"), N(108.0)),
      "angle2" := Or(Get(o, "angle2"), N(162.0)),
      "angle3" := Or(Get(o, "angle3"), N(90.0)),
      "angle4" := Or(Get(o, "angle4"), N(45.0))])
  }

  function ApplyColorHalftone(h: Host, o: Options): (r: Run)
    ensures Target(h, o).None? ==> r == Missing("applyColorHalftone")
    ensures Target(h, o).Some? ==> !Threw(r) && r.actions == [SelectLayer(Target(h, o).value.id), BatchPlay([ColorHalftone(o)])]
  {
    OnLayer(h, o, "applyColorHalftone", [ColorHalftone(o)])
  }

  /** `twirl`: angle `|| 50`. */
  function Twirl(o: Options): (d: Value)
    ensures At(d, "angle") == Or(Get(o, "angle"), N(50.0))
  {
    Desc("twirl", map["angle" := Or(Get(o, "angle"), N(50.0))])
  }

  function ApplyTwirlDistortion(h: Host, o: Options): (r: Run)
    ensures Target(h, o).None? ==> r == Missing("applyTwirlDistortion")
    ensures Target(h, o).Some? ==> !Threw(r) && r.actions == [SelectLayer(Target(h, o).value.id), BatchPlay([Twirl(o)])]
  {
    OnLayer(h, o, "applyTwirlDistortion", [Twirl(o)])
  }

  const ZigZagStyles: set<string> := {"aroundCenter", "outFromCenter", "pondRipples"}

  /** `zigZag`: amount `|| 10`, ridges `|| 5`, a known style or "pondRipples". */
  function ZigZag(o: Options): (d: Value)
    ensures At(d, "amount") == Or(Get(o, "amount"), N(10.0))
    ensures At(d, "ridges") == Or(Get(o, "ridges"), N(5.0))
    ensures ValueAt(d, "style") == Str(Pick(ZigZagStyles, Get(o, "style"), "pondRipples"))
  {
    Desc("zigZag", map[
      "amount" := Or(Get(o, "amount"), N(10.0)),
      "ridges" := Or(Get(o, "ridges"), N(5.0)),
      "style" := Enum("zigZagType", Pick(ZigZagStyles, Get(o, "style"), "pondRipples"))])
  }

  function ApplyZigZagDistortion(h: Host, o: Options): (r: Run)
    ensures Target(h, o).None? ==> r == Missing("applyZigZagDistortion")
    ensures Target(h, o).Some? ==> !Threw(r) && r.actions == [SelectLayer(Target(h, o).value.id), BatchPlay([ZigZag(o)])]
  {
    OnLayer(h, o, "applyZigZagDistortion", [ZigZag(o)])
  }

  /** The Python tool's `zigzag_styles`, each kept as given. */
  const AdvertisedZigZagStyles: seq<string> := ["aroundCenter", "outFromCenter", "pondRipples"]

  lemma AdvertisedZigZagStylesKept(o: Options, i: nat)
    requires i < |AdvertisedZigZagStyles| && Get(o, "style") == Str(AdvertisedZigZagStyles[i])
    ensures ValueAt(ZigZag(o), "style") == Str(AdvertisedZigZagStyles[i])
  {
    assert AdvertisedZigZagStyles[i] in ZigZagStyles;
  }

  function ApplySolarize(h: Host, o: Options): (r: Run)
    ensures Target(h, o).None? ==> r == Missing("applySolarize")
    ensures Target(h, o).Some? ==> !Threw(r) && r.actions == [SelectLayer(Target(h, o).value.id), BatchPlay([Plain("solarize")])]
  {
    OnLayer(h, o, "applySolarize", [Plain("solarize")])
  }

  /** `posterize`: levels `|| 4`. */
  function Posterize(o: Options): (d: Value)
    ensures At(d, "levels") == Or(Get(o, "levels"), N(4.0))
  {
    Desc("posterize", map["levels" := Or(Get(o, "levels"), N(4.0))])
  }

  function ApplyPosterize(h: Host, o: Options): (r: Run)
    ensures Target(h, o).None? ==> r == Missing("applyPosterize")
    ensures Target(h, o).Some? ==> !Threw(r) && r.actions == [SelectLayer(Target(h, o).value.id), BatchPlay([Posterize(o)])]
  {
    OnLayer(h, o, "applyPosterize", [Posterize(o)])
  }

  function ApplyDespeckle(h: Host, o: Options): (r: Run)
    ensures Target(h, o).None? ==> r == Missing("applyDespeckle")
    ensures Target(h, o).Some? ==> !Threw(r) && r.actions == [SelectLayer(Target(h, o).value.id), BatchPlay([Plain("despeckle")])]
  {
    OnLayer(h, o, "applyDespeckle", [Plain("despeckle")])
  }

  /** `median`: radius `|| 1` pixels. */
  function Median(o: Options): (d: Value)
    ensures ValueAt(d, "radius") == Or(Get(o, "radius"), N(1.0))
  {
    Desc("median", map["radius" := Unit("pixelsUnit", Or(Get(o, "radius"), N(1.0)))])
  }

  function ApplyMedianNoise(h: Host, o: Options): (r: Run)
    ensures Target(h, o).None? ==> r == Missing("applyMedianNoise")
    ensures Target(h, o).Some? ==> !Threw(r) && r.actions == [SelectLayer(Target(h, o).value.id), BatchPlay([Median(o)])]
  {
    OnLayer(h, o, "applyMedianNoise", [Median(o)])
  }

  /** `dustAndScratches`: radius `|| 1`, threshold `|| 0`. */
  function DustAndScratches(o: Options): (d: Value)
    ensures At(d, "radius") == Or(Get(o, "radius"), N(1.0))
    ensures At(d, "threshold") == Or(Get(o, "threshold"), N(0.0))
  {
    Desc("dustAndScratches", map["radius" := Or(Get(o, "radius"), N(1.0)), "threshold" := Or(Get(o, "threshold"), N(0.0))])
  }

  function ApplyDustAndScratches(h: Host, o: Options): (r: Run)
    ensures Target(h, o).None? ==> r == Missing("applyDustAndScratches")
    ensures Target(h, o).Some? ==> !Threw(r) && r.actions == [SelectLayer(Target(h, o).value.id), BatchPlay([DustAndScratches(o)])]
  {
    OnLayer(h, o, "applyDustAndScratches", [DustAndScratches(o)])
  }

  // ---------------------------------------------------------------------
  // Properties across the filters

  /** With no such layer, every filter throws and touches nothing in the host. */
  lemma NoLayerNoAction(h: Host, o: Options)
    requires Target(h, o).None?
    ensures ApplyMotionBlur(h, o).actions == [] && ApplyGaussianBlur(h, o).actions == [] && ApplyNoise(h, o).actions == []
    ensures ApplySharpen(h, o).actions == [] && ApplyUnsharpMask(h, o).actions == [] && ApplyHighPass(h, o).actions == []
    ensures ApplyRadialBlur(h, o).actions == [] && ApplySurfaceBlur(h, o).actions == [] && ApplyLensBlur(h, o).actions == []
    ensures ApplySmartSharpen(h, o).actions == [] && ApplyOilPaint(h, o).actions == [] && ApplyEmboss(h, o).actions == []
    ensures ApplyFindEdges(h, o).actions == [] && ApplyPixelate(h, o).actions == [] && ApplyCrystallize(h, o).actions == []
    ensures ApplyColorHalftone(h, o).actions == [] && ApplyTwirlDistortion(h, o).actions == []
    ensures ApplyZigZagDistortion(h, o).actions == [] && ApplySolarize(h, o).actions == []
    ensures ApplyPosterize(h, o).actions == [] && ApplyDespeckle(h, o).actions == []
    ensures ApplyMedianNoise(h, o).actions == [] && ApplyDustAndScratches(h, o).actions == []
  {
  }

  /** `||` treats 0 as missing: a twirl of 0, an emboss angle of 0 and an unsharp amount of 0 take the defaults. */
  lemma ZeroTakesDefault(o: Options)
    requires Get(o, "angle") == N(0.0) && Get(o, "amount") == N(0.0)
    ensures At(Twirl(o), "angle") == N(50.0)
    ensures At(Emboss(o), "angle") == N(135.0)
    ensures At(UnsharpMask(o), "amount") == N(100.0)
  {
  }

  /** Any value that is not a known name gives the same enumerated value as no value at all. */
  lemma UnknownNamesFallBack(o: Options, p: Options)
    requires !(Get(o, "style").Str? && Get(o, "style").s in ZigZagStyles) && Get(p, "style") == Undefined
    requires !(Get(o, "method").Str? && Get(o, "method").s in BlurMethods) && Get(p, "method") == Undefined
    requires !(Get(o, "quality").Str? && Get(o, "quality").s in BlurQualities) && Get(p, "quality") == Undefined
    requires !(Get(o, "removeType").Str? && Get(o, "removeType").s in RemoveTypes) && Get(p, "removeType") == Undefined
    ensures ValueAt(ZigZag(o), "style") == ValueAt(ZigZag(p), "style") == Str("pondRipples")
    ensures ValueAt(RadialBlur(o), "blurMethod") == ValueAt(RadialBlur(p), "blurMethod") == Str("spin")
    ensures ValueAt(RadialBlur(o), "blurQuality") == ValueAt(RadialBlur(p), "blurQuality") == Str("good")
    ensures ValueAt(SmartSharpen(o), "remove") == ValueAt(SmartSharpen(p), "remove") == Str("gaussianBlur")
  {
  }
}
