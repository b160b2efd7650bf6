/**
 * Advanced handlers: content-aware fill on the selection, the three auto
 * adjustments, and the layer filters shadows/highlights, lens correction,
 * liquify, displace, spherize and wave. Options read with
 * `x !== undefined ? x : d` keep 0 and false; those read with `x || d` do not.
 */
module Advanced {
  import opened Wrappers
  import opened Js
  import opened Host

  /** `contentAwareFill`: without an active selection it throws; else one content-aware fill at 100 %. */
  function ContentAwareFill(h: Host): (r: Run)
    ensures !h.selection <==> Threw(r)
    ensures !h.selection ==> r == NoSelection("contentAwareFill")
    ensures h.selection ==> r.actions == [BatchPlay([ContentAwareFillDescriptor()])]
  {
    OnSelection(h, "contentAwareFill", [ContentAwareFillDescriptor()])
  }

  function ContentAwareFillDescriptor(): (d: Value)
    ensures ValueAt(d, "using") == Str("contentAware") && ValueAt(d, "opacity") == N(100.0)
  {
    Desc("fill", map[
      "mode" := Enum("blendMode", "normal"),
      "using" := Enum("fillContents", "contentAware"),
      "opacity" := Unit("percentUnit", N(100.0))])
  }

  /** `autoTone`, `autoColor`, `autoContrast`: no guard, one parameterless descriptor on the active document. */
  function Auto(kind: string): (r: Run)
    requires kind in {"autoTone", "autoColor", "autoContrast"}
    ensures !Threw(r) && r.actions == [BatchPlay([Plain(kind)])]
  {
    Run([BatchPlay([Plain(kind)])], None)
  }

  // ---------------------------------------------------------------------
  // Shadows/highlights

  /** The ten values `shadowsHighlights` reads before it plays anything. */
  datatype ShadowHighlightSettings = ShadowHighlightSettings(
    shadowAmount: Value, shadowWidth: Value, shadowRadius: Value,
    highlightAmount: Value, highlightWidth: Value, highlightRadius: Value,
    colorCorrection: Value, midtoneContrast: Value, blackClip: Value, whiteClip: Value)

  /** Each value defaults only when undefined: amounts 35 and 0, widths 50, radii 30, colour correction 20, clips 0.01. */
  function ShadowHighlightOptions(o: Options): (s: ShadowHighlightSettings)
    ensures s.shadowAmount == Defined(Get(o, "shadowAmount"), N(35.0))
    ensures s.shadowWidth == Defined(Get(o, "shadowTonalWidth"), N(50.0))
    ensures s.shadowRadius == Defined(Get(o, "shadowRadius"), N(30.0))
    ensures s.highlightAmount == Defined(Get(o, "highlightAmount"), N(0.0))
    ensures s.highlightWidth == Defined(Get(o, "highlightTonalWidth"), N(50.0))
    ensures s.highlightRadius == Defined(Get(o, "highlightRadius"), N(30.0))
    ensures s.colorCorrection == Defined(Get(o, "colorCorrection"), N(20.0))
    ensures s.midtoneContrast == Defined(Get(o, "midtoneContrast"), N(0.0))
    ensures s.blackClip == Defined(Get(o, "blackClip"), N(0.01))
    ensures s.whiteClip == Defined(Get(o, "whiteClip"), N(0.01))
  {
    ShadowHighlightSettings(
      Defined(Get(o, "shadowAmount"), N(35.0)), Defined(Get(o, "shadowTonalWidth"), N(50.0)),
      Defined(Get(o, "shadowRadius"), N(30.0)),
      Defined(Get(o, "highlightAmount"), N(0.0)), Defined(Get(o, "highlightTonalWidth"), N(50.0)),
      Defined(Get(o, "highlightRadius"), N(30.0)),
      Defined(Get(o, "colorCorrection"), N(20.0)), Defined(Get(o, "midtoneContrast"), N(0.0)),
      Defined(Get(o, "blackClip"), N(0.01)), Defined(Get(o, "whiteClip"), N(0.01)))
  }

  /** The fields of the shadow/highlight descriptor, amounts, widths and clips as percentages. */
  function ShadowHighlightFields(s: ShadowHighlightSettings): (m: map<string, Value>)
    ensures "_obj" !in m
    ensures "shadowAmount" in m && m["shadowAmount"] == Unit("percentUnit", s.shadowAmount)
    ensures "shadowWidth" in m && m["shadowWidth"] == Unit("percentUnit", s.shadowWidth)
    ensures "shadowRadiusPixels" in m && m["shadowRadiusPixels"] == s.shadowRadius
    ensures "highlightAmount" in m && m["highlightAmount"] == Unit("percentUnit", s.highlightAmount)
    ensures "highlightWidth" in m && m["highlightWidth"] == Unit("percentUnit", s.highlightWidth)
    ensures "highlightRadiusPixels" in m && m["highlightRadiusPixels"] == s.highlightRadius
    ensures "colorCorrection" in m && m["colorCorrection"] == s.colorCorrection
    ensures "midtoneContrast" in m && m["midtoneContrast"] == s.midtoneContrast
    ensures "blackClip" in m && m["blackClip"] == Unit("percentUnit", s.blackClip)
    ensures "whiteClip" in m && m["whiteClip"] == Unit("percentUnit", s.whiteClip)
  {
    map[
      "shadowAmount" := Unit("percentUnit", s.shadowAmount),
      "shadowWidth" := Unit("percentUnit", s.shadowWidth),
      "shadowRadiusPixels" := s.shadowRadius,
      "highlightAmount" := Unit("percentUnit", s.highlightAmount),
      "highlightWidth" := Unit("percentUnit", s.highlightWidth),
      "highlightRadiusPixels" := s.highlightRadius,
      "colorCorrection" := s.colorCorrection,
      "midtoneContrast" := s.midtoneContrast,
      "blackClip" := Unit("percentUnit", s.blackClip),
      "whiteClip" := Unit("percentUnit", s.whiteClip)]
  }

  /** The `shadowHighlight` descriptor: each setting reaches its own field. */
  function ShadowHighlight(s: ShadowHighlightSettings): (d: Value)
    ensures ValueAt(d, "highlightAmount") == s.highlightAmount && ValueAt(d, "highlightWidth") == s.highlightWidth
    ensures At(d, "highlightRadiusPixels") == s.highlightRadius
    ensures At(d, "colorCorrection") == s.colorCorrection && At(d, "midtoneContrast") == s.midtoneContrast
    ensures ValueAt(d, "blackClip") == s.blackClip && ValueAt(d, "whiteClip") == s.whiteClip
    ensures ValueAt(d, "shadowAmount") == s.shadowAmount && ValueAt(d, "shadowWidth") == s.shadowWidth
    ensures At(d, "shadowRadiusPixels") == s.shadowRadius
  {
    Desc("shadowHighlight", ShadowHighlightFields(s))
  }

  function ShadowsHighlights(h: Host, o: Options): (r: Run)
    ensures Target(h, o).None? ==> r == Missing("shadowsHighlights")
    ensures Target(h, o).Some? ==> r == Run([SelectLayer(Target(h, o).value.id), BatchPlay([ShadowHighlight(ShadowHighlightOptions(o))])], None)
  {
    OnLayer(h, o, "shadowsHighlights", [ShadowHighlight(ShadowHighlightOptions(o))])
  }

  /** Zero highlights, colour correction and clips are kept: `!== undefined` does not treat 0 as missing. */
  lemma ShadowHighlightKeepsZero(o: Options)
    requires Get(o, "highlightAmount") == N(0.0) && Get(o, "colorCorrection") == N(0.0)
    requires Get(o, "blackClip") == N(0.0) && Get(o, "whiteClip") == N(0.0)
    ensures var d := ShadowHighlight(ShadowHighlightOptions(o));
      ValueAt(d, "highlightAmount") == N(0.0) && At(d, "colorCorrection") == N(0.0)
      && ValueAt(d, "blackClip") == N(0.0) && ValueAt(d, "whiteClip") == N(0.0)
  {
    var s := ShadowHighlightOptions(o);
    assert s.highlightAmount == N(0.0) && s.colorCorrection == N(0.0);
    assert s.blackClip == N(0.0) && s.whiteClip == N(0.0);
  }

  // ---------------------------------------------------------------------
  // Lens correction and liquify

  /** `newLensCorrection`: distortion, vignette, vignette midpoint and the two aberrations, defaulting only when undefined. */
  function LensCorrection(o: Options): (d: Value)
    ensures At(d, "lensManualDistortion") == Defined(Get(o, "distortion"), N(0.0))
    ensures At(d, "lensManualVignette") == Defined(Get(o, "vignette"), N(0.0))
    ensures At(d, "lensManualVignetteMidpoint") == Defined(Get(o, "vignetteMidpoint"), N(50.0))
    ensures At(d, "lensManualChromaticAberrationRC") == Defined(Get(o, "chromaticAberrationRG"), N(0.0))
    ensures At(d, "lensManualChromaticAberrationBY") == Defined(Get(o, "chromaticAberrationBY"), N(0.0))
  {
    Desc("newLensCorrection", map[
      "lensManualDistortion" := Defined(Get(o, "distortion"), N(0.0)),
      "lensManualChromaticAberrationRC" := Defined(Get(o, "chromaticAberrationRG"), N(0.0)),
      "lensManualChromaticAberrationBY" := Defined(Get(o, "chromaticAberrationBY"), N(0.0)),
      "lensManualVignette" := Defined(Get(o, "vignette"), N(0.0)),
      "lensManualVignetteMidpoint" := Defined(Get(o, "vignetteMidpoint"), N(50.0))])
  }

  function ApplyLensCorrection(h: Host, o: Options): (r: Run)
    ensures Target(h, o).None? ==> r == Missing("lensCorrection")
    ensures Target(h, o).Some? ==> !Threw(r) && r.actions == [SelectLayer(Target(h, o).value.id), BatchPlay([LensCorrection(o)])]
  {
    OnLayer(h, o, "lensCorrection", [LensCorrection(o)])
  }

  /** The fixed `liquify` descriptor with an empty mesh. */
  function Liquify(): Value {
    Desc("liquify", map["liquifyMesh" := Plain("liquifyMesh")])
  }

  /**
   * `liquifyForward`: the start and end point, brush size and pressure are
   * read with defaults but never sent; the same descriptor is played for any
   * options.
   */
  function LiquifyForward(h: Host, o: Options): (r: Run)
    ensures Target(h, o).None? ==> r == Missing("liquifyForward")
    ensures Target(h, o).Some? ==> !Threw(r) && r.actions == [SelectLayer(Target(h, o).value.id), BatchPlay([Liquify()])]
  {
    OnLayer(h, o, "liquifyForward", [Liquify()])
  }

  /** Two calls on the same layer play the same descriptor whatever else their options say. */
  lemma LiquifyIgnoresOptions(h: Host, o: Options, p: Options)
    requires Get(o, "layerId") == Get(p, "layerId")
    ensures LiquifyForward(h, o) == LiquifyForward(h, p)
  {
  }

  // ---------------------------------------------------------------------
  // Displace

  /** `flag ? yes : no` after `flag !== undefined ? flag : true`. */
  function Choice(flag: Value, yes: string, no: string): (r: string)
    requires yes != no
    ensures flag == Undefined ==> r == yes
    ensures flag == Bool(false) ==> r == no
    ensures r == yes <==> flag == Undefined || Truthy(flag)
  {
    if Truthy(Defined(flag, Bool(true))) then yes else no
  }

  /** `displace`: both scales `|| 10`; stretch to fit and wrap around unless turned off. */
  function Displace(o: Options): (d: Value)
    ensures At(d, "horizontalScale") == Or(Get(o, "horizontalScale"), N(10.0))
    ensures At(d, "verticalScale") == Or(Get(o, "verticalScale"), N(10.0))
    ensures ValueAt(d, "displacementMap") == Str(Choice(Get(o, "stretchToFit"), "stretchToFit", "tile"))
    ensures ValueAt(d, "undefinedArea") == Str(Choice(Get(o, "wrapAround"), "wrapAround", "repeatEdgePixels"))
  {
    Desc("displace", map[
      "horizontalScale" := Or(Get(o, "horizontalScale"), N(10.0)),
      "verticalScale" := Or(Get(o, "verticalScale"), N(10.0)),
      "displacementMap" := Enum("displacementMap", Choice(Get(o, "stretchToFit"), "stretchToFit", "tile")),
      "undefinedArea" := Enum("undefinedArea", Choice(Get(o, "wrapAround"), "wrapAround", "repeatEdgePixels"))])
  }

  function ApplyDisplace(h: Host, o: Options): (r: Run)
    ensures Target(h, o).None? ==> r == Missing("applyDisplace")
    ensures Target(h, o).Some? ==> !Threw(r) && r.actions == [SelectLayer(Target(h, o).value.id), BatchPlay([Displace(o)])]
  {
    OnLayer(h, o, "applyDisplace", [Displace(o)])
  }

  /** Displace's two flags: true and absent give one mode, false the other. */
  lemma DisplaceFlags(o: Options)
    ensures Get(o, "stretchToFit") in {Undefined, Bool(true)} ==> ValueAt(Displace(o), "displacementMap") == Str("stretchToFit")
    ensures Get(o, "stretchToFit") == Bool(false) ==> ValueAt(Displace(o), "displacementMap") == Str("tile")
    ensures Get(o, "wrapAround") in {Undefined, Bool(true)} ==> ValueAt(Displace(o), "undefinedArea") == Str("wrapAround")
    ensures Get(o, "wrapAround") == Bool(false) ==> ValueAt(Displace(o), "undefinedArea") == Str("repeatEdgePixels")
  {
  }

  // ---------------------------------------------------------------------
  // Spherize

  /** The `modeMap` of `applySphere`. */
  const SphereModes: map<string, string> :=
    map["normal" := "normal", "horizontal" := "horizontalOnly", "vertical" := "verticalOnly"]

  /** `modeMap[mode || "normal"] || "normal"` */
  function SphereMode(mode: Value): (r: string)
    ensures r in SphereModes.Values
    ensures mode.Str? && mode.s in SphereModes ==> r == SphereModes[mode.s]
    ensures !(mode.Str? && mode.s in SphereModes) ==> r == "normal"
  {
    assert SphereModes["normal"] == "normal";
    Lookup(SphereModes, Or(mode, Str("normal")), "normal")
  }

  /** `spherize`: amount defaults to 100 only when undefined. */
  function Spherize(o: Options): (d: Value)
    ensures At(d, "amount") == Defined(Get(o, "amount"), N(100.0))
    ensures ValueAt(d, "mode") == Str(SphereMode(Get(o, "mode")))
  {
    Desc("spherize", map["amount" := Defined(Get(o, "amount"), N(100.0)), "mode" := Enum("spherizeMode", SphereMode(Get(o, "mode")))])
  }

  function ApplySphere(h: Host, o: Options): (r: Run)
    ensures Target(h, o).None? ==> r == Missing("applySphere")
    ensures Target(h, o).Some? ==> !Threw(r) && r.actions == [SelectLayer(Target(h, o).value.id), BatchPlay([Spherize(o)])]
  {
    OnLayer(h, o, "applySphere", [Spherize(o)])
  }

  /** The Python tool's `spherize_modes`. */
  const AdvertisedSphereModes: seq<string> := ["normal", "horizontal", "vertical"]

  /** The advertised modes reach three different spherize modes. */
  lemma AdvertisedSphereModesDistinct(i: nat, j: nat)
    requires i < |AdvertisedSphereModes| && j < |AdvertisedSphereModes|
    ensures SphereMode(Str(AdvertisedSphereModes[i])) == SphereMode(Str(AdvertisedSphereModes[j])) <==> i == j
  {
    assert AdvertisedSphereModes[i] in SphereModes && AdvertisedSphereModes[j] in SphereModes;
  }

  // ---------------------------------------------------------------------
  // Wave

  /** The `typeMap` of `applyWave`, including its entry for "sine". */
  const WaveTypes: map<string, string> := map["sine" := "triangular", "triangle" := "triangular", "square" := "squareWave"]

  /**
   * `waveType === "sine" ? "sinusoidal" : (typeMap[waveType] || "sinusoidal")`
   * with `waveType` defaulting to "sine" through `||`.
   */
  function WaveType(t: Value): (r: string)
    ensures r in {"sinusoidal", "triangular", "squareWave"}
    ensures r == "triangular" <==> t == Str("triangle")
    ensures r == "squareWave" <==> t == Str("square")
  {
    var waveType := Or(t, Str("sine"));
    if waveType == Str("sine") then "sinusoidal" else Lookup(WaveTypes, waveType, "sinusoidal")
  }

  /** The "sine" entry of the table is never consulted: "sine" and no type at all both give sinusoidal waves. */
  lemma SineEntryUnused()
    ensures WaveTypes["sine"] == "triangular"
    ensures WaveType(Str("sine")) == "sinusoidal" && WaveType(Undefined) == "sinusoidal"
  {
  }

  /** The values `applyWave` reads, all through `||`. */
  datatype WaveSettings = WaveSettings(
    generators: Value, wavelengthMin: Value, wavelengthMax: Value,
    amplitudeMin: Value, amplitudeMax: Value, scale: Value, waveType: string)

  /** Five generators, wavelengths 10 to 120, amplitudes 5 to 35, scale 100 %, unless given. */
  function WaveOptions(o: Options): (s: WaveSettings)
    ensures s.generators == Or(Get(o, "generators"), N(5.0))
    ensures s.wavelengthMin == Or(Get(o, "wavelengthMin"), N(10.0)) && s.wavelengthMax == Or(Get(o, "wavelengthMax"), N(120.0))
    ensures s.amplitudeMin == Or(Get(o, "amplitudeMin"), N(5.0)) && s.amplitudeMax == Or(Get(o, "amplitudeMax"), N(35.0))
    ensures s.scale == Or(Get(o, "scale"), N(100.0))
    ensures s.waveType == WaveType(Get(o, "waveType"))
  {
    WaveSettings(Or(Get(o, "generators"), N(5.0)), Or(Get(o, "wavelengthMin"), N(10.0)), Or(Get(o, "wavelengthMax"), N(120.0)),
                 Or(Get(o, "amplitudeMin"), N(5.0)), Or(Get(o, "amplitudeMax"), N(35.0)), Or(Get(o, "scale"), N(100.0)),
                 WaveType(Get(o, "waveType")))
  }

  /** `wave` without its random seed: one scale for both axes, undefined areas wrapped around. */
  function Wave(s: WaveSettings): (d: Value)
    ensures ValueAt(d, "horizontalScale") == ValueAt(d, "verticalScale") == s.scale
    ensures ValueAt(d, "waveType") == Str(s.waveType) && ValueAt(d, "undefinedAreas") == Str("wrapAround")
    ensures At(d, "numberOfGenerators") == s.generators
    ensures At(d, "minimumWavelength") == s.wavelengthMin && At(d, "maximumWavelength") == s.wavelengthMax
    ensures At(d, "minimumAmplitude") == s.amplitudeMin && At(d, "maximumAmplitude") == s.amplitudeMax
  {
    Desc("wave", map[
      "numberOfGenerators" := s.generators,
      "minimumWavelength" := s.wavelengthMin,
      "maximumWavelength" := s.wavelengthMax,
      "minimumAmplitude" := s.amplitudeMin,
      "maximumAmplitude" := s.amplitudeMax,
      "horizontalScale" := Unit("percentUnit", s.scale),
      "verticalScale" := Unit("percentUnit", s.scale),
      "waveType" := Enum("waveType", s.waveType),
      "undefinedAreas" := Enum("undefinedArea", "wrapAround")])
  }

  function ApplyWave(h: Host, o: Options): (r: Run)
    ensures Target(h, o).None? ==> r == Missing("applyWave")
    ensures Target(h, o).Some? ==> !Threw(r) && r.actions == [SelectLayer(Target(h, o).value.id), BatchPlay([Wave(WaveOptions(o))])]
  {
    OnLayer(h, o, "applyWave", [Wave(WaveOptions(o))])
  }

  /** The Python tool's `wave_types`. */
  const AdvertisedWaveTypes: seq<string> := ["sine", "triangle", "square"]

  /** The advertised wave types reach three different wave shapes. */
  lemma AdvertisedWaveTypesDistinct(i: nat, j: nat)
    requires i < |AdvertisedWaveTypes| && j < |AdvertisedWaveTypes|
    ensures WaveType(Str(AdvertisedWaveTypes[i])) == WaveType(Str(AdvertisedWaveTypes[j])) <==> i == j
  {
  }

  // ---------------------------------------------------------------------

  /** Every layer handler here throws before any host action when the layer is missing. */
  lemma NoLayerNoAction(h: Host, o: Options)
    requires Target(h, o).None?
    ensures ShadowsHighlights(h, o).actions == [] && ApplyLensCorrection(h, o).actions == []
    ensures LiquifyForward(h, o).actions == [] && ApplyDisplace(h, o).actions == []
    ensures ApplySphere(h, o).actions == [] && ApplyWave(h, o).actions == []
  {
  }
}
