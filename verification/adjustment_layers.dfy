/**
 * Adjustment-layer handlers: each finds its layer or throws, selects it,
 * and plays a `make adjustmentLayer` descriptor, usually followed by a
 * `set` of the new layer's settings. Settings default through
 * `x !== undefined ? x : d` (a given 0 is kept) and through `x || d`.
 */
module AdjustmentLayers {
  import opened Wrappers
  import opened Js
  import opened Host

  /** `{_obj: "make", _target: [{_ref: "adjustmentLayer"}], using: {_obj: "adjustmentLayer", type: kind}}` */
  function Make(kind: Value): Value {
    Desc("make", map["_target" := Arr([Obj(map["_ref" := Str("adjustmentLayer")])]),
                     "using" := Desc("adjustmentLayer", map["type" := kind])])
  }

  /** `{_obj: "set", _target: [the current adjustment layer], to: settings}` */
  function SetAdjustment(to: Value): Value {
    Desc("set", map["_target" := Arr([Obj(map["_enum" := Str("ordinal"), "_ref" := Str("adjustmentLayer"),
                                              "_value" := Str("targetEnum")])]),
                    "to" := to])
  }

  /** The adjustment kind the first descriptor of a run made. */
  function Made(r: Run): Value {
    if |Played(r)| > 0 then At(At(Played(r)[0], "using"), "type") else Undefined
  }

  /** The settings the second descriptor of a run set. */
  function SetTo(r: Run): Value {
    if |Played(r)| > 1 then At(Played(r)[1], "to") else Undefined
  }

  // ---------------------------------------------------------------------
  // Black and white, brightness/contrast, vibrance, colour balance

  /** The black-and-white settings: the six colour weights (green sent as `grain`) and the optional tint. */
  function BlackAndWhite(o: Options): (kind: Value)
    ensures At(kind, "grain") == Member(Get(o, "colors"), "green") && At(kind, "red") == Member(Get(o, "colors"), "red")
    ensures At(kind, "tintColor") == Rgb(Get(o, "tintColor")) && At(kind, "useTint") == Get(o, "tint")
  {
    var colors := Get(o, "colors");
    Desc("blackAndWhite", map[
      "blue" := Member(colors, "blue"),
      "cyan" := Member(colors, "cyan"),
      "magenta" := Member(colors, "magenta"),
      "presetKind" := Enum("presetKindType", "presetKindDefault"),
      "yellow" := Member(colors, "yellow"),
      "useTint" := Get(o, "tint"),
      "tintColor" := Rgb(Get(o, "tintColor")),
      "red" := Member(colors, "red"),
      "grain" := Member(colors, "green")])
  }

  /** `addAdjustmentLayerBlackAndWhite`: select the layer, then make the black-and-white adjustment layer. */
  function AddBlackAndWhite(h: Host, o: Options): (r: Run)
    ensures Target(h, o).None? ==> r == Missing("addAdjustmentLayerBlackAndWhite")
    ensures Target(h, o).Some? ==> r == Run([SelectLayer(Target(h, o).value.id), BatchPlay([Make(BlackAndWhite(o))])], None)
  {
    OnLayer(h, o, "addAdjustmentLayerBlackAndWhite", [Make(BlackAndWhite(o))])
  }

  /** `addBrightnessContrastAdjustmentLayer`: make, then set; the contrast goes in the `center` field. */
  function AddBrightnessContrast(h: Host, o: Options): (r: Run)
    ensures Target(h, o).None? ==> r == Missing("addBrightnessContrastAdjustmentLayer")
    ensures Target(h, o).Some? ==> !Threw(r) && |Played(r)| == 2
    ensures Target(h, o).Some? ==> At(Played(r)[0], "_obj") == Str("make") && At(Played(r)[1], "_obj") == Str("set")
    ensures Target(h, o).Some? ==>
      At(SetTo(r), "brightness") == Get(o, "brightness") && At(SetTo(r), "center") == Get(o, "contrast")
      && At(SetTo(r), "contrast") == Undefined
  {
    OnLayer(h, o, "addBrightnessContrastAdjustmentLayer", [
      Make(Desc("brightnessEvent", map["useLegacy" := Bool(false)])),
      SetAdjustment(Desc("brightnessEvent", map["useLegacy" := Bool(false),
                                                "brightness" := Get(o, "brightness"),
                                                "center" := Get(o, "contrast")]))])
  }

  /** `addAdjustmentLayerVibrance` */
  function AddVibrance(h: Host, o: Options): (r: Run)
    ensures Target(h, o).None? ==> r == Missing("addAdjustmentLayerVibrance")
    ensures Target(h, o).Some? ==> !Threw(r) && |Played(r)| == 2
    ensures Target(h, o).Some? ==>
      At(SetTo(r), "saturation") == Get(o, "saturation") && At(SetTo(r), "vibrance") == Get(o, "vibrance")
  {
    OnLayer(h, o, "addAdjustmentLayerVibrance", [
      Make(Obj(map["_class" := Str("vibrance")])),
      SetAdjustment(Desc("vibrance", map["saturation" := Get(o, "saturation"), "vibrance" := Get(o, "vibrance")]))])
  }

  /** The colour-balance handler words its error differently; the interpolated id is not modelled. */
  const ColorBalanceNotFound := "addColorBalanceAdjustmentLayer : Could not find layer named : []"

  /**
   * `addColorBalanceAdjustmentLayer`: the layer is looked up but never
   * selected, so the adjustment lands above whatever layer is active.
   */
  function AddColorBalance(h: Host, o: Options): (r: Run)
    ensures Target(h, o).None? <==> r == Run([], Some(ColorBalanceNotFound))
    ensures Target(h, o).Some? ==> !Threw(r) && |r.actions| == 1 && r.actions[0].BatchPlay?
    ensures forall a | a in r.actions :: !a.SelectLayer?
    ensures Target(h, o).Some? ==>
      At(SetTo(r), "highlightLevels") == Get(o, "highlights") && At(SetTo(r), "midtoneLevels") == Get(o, "midtones")
      && At(SetTo(r), "shadowLevels") == Get(o, "shadows")
  {
    if Target(h, o).None? then Run([], Some(ColorBalanceNotFound))
    else
      var zero := Arr([N(0.0), N(0.0), N(0.0)]);
      Run([BatchPlay([
        Make(Desc("colorBalance", map["highlightLevels" := zero, "midtoneLevels" := zero,
                                      "preserveLuminosity" := Bool(true), "shadowLevels" := zero])),
        SetAdjustment(Desc("colorBalance", map["highlightLevels" := Get(o, "highlights"),
                                               "midtoneLevels" := Get(o, "midtones"),
                                               "shadowLevels" := Get(o, "shadows")]))])], None)
  }

  // ---------------------------------------------------------------------
  // Curves

  /** The curve used when no points are given: the identity from (0, 0) to (255, 255). */
  function DefaultCurve(): Value {
    Arr([Obj(map["input" := N(0.0), "output" := N(0.0)]), Obj(map["input" := N(255.0), "output" := N(255.0)])])
  }

  /** `points.map(p => ({_obj: "paint", horizontal: p.input, vertical: p.output}))` */
  function CurvePoints(points: seq<Value>): (r: seq<Value>)
    ensures |r| == |points|
    ensures forall k :: 0 <= k < |points| ==>
      At(r[k], "horizontal") == Member(points[k], "input") && At(r[k], "vertical") == Member(points[k], "output")
  {
    seq(|points|, k requires 0 <= k < |points| =>
      Desc("paint", map["horizontal" := Member(points[k], "input"), "vertical" := Member(points[k], "output")]))
  }

  /**
   * The curves settings: the channel defaults to "composite" and the points
   * to the identity curve, both through `||`; a truthy `points` that is not
   * an array has no `map` and raises.
   */
  function CurvesSettings(o: Options): (r: Result<Value, string>)
    ensures r.Err? <==> Truthy(Get(o, "points")) && !Get(o, "points").Arr?
    ensures r.Ok? ==> r.value == Desc("curves", map["adjustment" := Arr([CurvesAdjustment(Or(Get(o, "channel"), Str("composite")),
                                                                                           AsList(Or(Get(o, "points"), DefaultCurve())))])])
  {
    match Mappable(Or(Get(o, "points"), DefaultCurve()))
    case Err(e) => Err(e)
    case Ok(points) =>
      Ok(Desc("curves", map["adjustment" := Arr([CurvesAdjustment(Or(Get(o, "channel"), Str("composite")), points)])]))
  }

  /** One `curvesAdjustment`: the channel and the converted points. */
  function CurvesAdjustment(channel: Value, points: seq<Value>): (a: Value)
    ensures ValueAt(a, "channel") == channel
    ensures At(a, "curve") == Arr(CurvePoints(points))
  {
    Desc("curvesAdjustment", map["channel" := EnumOf("channel", channel), "curve" := Arr(CurvePoints(points))])
  }

  /** Without options the curve is the identity on the composite channel: every point has horizontal == vertical. */
  lemma CurvesDefaultIdentity(o: Options)
    requires !Truthy(Get(o, "points")) && !Truthy(Get(o, "channel"))
    ensures CurvesSettings(o).Ok?
    ensures var curve := CurvePoints(DefaultCurve().items);
      |curve| == 2 && At(curve[0], "horizontal") == At(curve[0], "vertical") == N(0.0)
      && At(curve[1], "horizontal") == At(curve[1], "vertical") == N(255.0)
    ensures CurvesSettings(o).value
      == Desc("curves", map["adjustment" := Arr([CurvesAdjustment(Str("composite"), DefaultCurve().items)])])
  {
  }

  /** `addCurvesAdjustmentLayer` */
  function AddCurves(h: Host, o: Options): (r: Run)
    ensures Target(h, o).None? ==> r == Missing("addCurvesAdjustmentLayer")
    ensures Target(h, o).Some? && CurvesSettings(o).Err? ==> r == Run([], Some(TypeError))
    ensures Target(h, o).Some? && CurvesSettings(o).Ok? ==>
      !Threw(r) && |r.actions| == 2 && r.actions[0] == SelectLayer(Target(h, o).value.id)
      && Played(r) == [Make(CurvesKind()), SetAdjustment(CurvesSettings(o).value)]
  {
    Prepared(h, o, "addCurvesAdjustmentLayer",
      match CurvesSettings(o)
      case Err(e) => Err(e)
      case Ok(settings) => Ok([Make(CurvesKind()), SetAdjustment(settings)]))
  }

  function CurvesKind(): Value {
    Desc("curves", map["presetKind" := Enum("presetKindType", "presetKindCustom")])
  }

  // ---------------------------------------------------------------------
  // Levels

  /**
   * One `levelsAdjustment`: shadow, highlight and midtone default to 0, 255
   * and 1.0 on input and 0 and 255 on output, each only when undefined.
   */
  function LevelsAdjustment(o: Options): (a: Value)
    ensures ValueAt(a, "channel") == Or(Get(o, "channel"), Str("composite"))
    ensures At(a, "input") == Arr([Defined(Get(o, "inputShadow"), N(0.0)), Defined(Get(o, "inputHighlight"), N(255.0))])
    ensures At(a, "output") == Arr([Defined(Get(o, "outputShadow"), N(0.0)), Defined(Get(o, "outputHighlight"), N(255.0))])
    ensures At(a, "gamma") == Defined(Get(o, "inputMidtone"), N(1.0))
  {
    Desc("levelsAdjustment", map[
      "channel" := EnumOf("channel", Or(Get(o, "channel"), Str("composite"))),
      "gamma" := Defined(Get(o, "inputMidtone"), N(1.0)),
      "input" := Arr([Defined(Get(o, "inputShadow"), N(0.0)), Defined(Get(o, "inputHighlight"), N(255.0))]),
      "output" := Arr([Defined(Get(o, "outputShadow"), N(0.0)), Defined(Get(o, "outputHighlight"), N(255.0))])])
  }

  /** With no levels given the adjustment is the identity: full input and output range, gamma 1. */
  lemma LevelsDefaultIdentity(o: Options)
    requires forall k | k in ["inputShadow", "inputHighlight", "inputMidtone", "outputShadow", "outputHighlight"] :: k !in o
    ensures At(LevelsAdjustment(o), "input") == At(LevelsAdjustment(o), "output") == Arr([N(0.0), N(255.0)])
    ensures At(LevelsAdjustment(o), "gamma") == N(1.0)
  {
    assert "inputShadow" !in o && "inputHighlight" !in o && "inputMidtone" !in o;
    assert "outputShadow" !in o && "outputHighlight" !in o;
  }

  /** An input highlight of 0 given explicitly is kept; only a missing value takes the default. */
  lemma LevelsKeepGivenValues(o: Options)
    requires Get(o, "inputHighlight") == N(0.0) && Get(o, "outputHighlight") == N(100.0)
    ensures At(LevelsAdjustment(o), "input") == Arr([Defined(Get(o, "inputShadow"), N(0.0)), N(0.0)])
    ensures At(LevelsAdjustment(o), "output") == Arr([Defined(Get(o, "outputShadow"), N(0.0)), N(100.0)])
  {
  }

  /** `addLevelsAdjustmentLayer` */
  function AddLevels(h: Host, o: Options): (r: Run)
    ensures Target(h, o).None? ==> r == Missing("addLevelsAdjustmentLayer")
    ensures Target(h, o).Some? ==> !Threw(r) && |Played(r)| == 2
    ensures Target(h, o).Some? ==> At(SetTo(r), "adjustment") == Arr([LevelsAdjustment(o)])
  {
    OnLayer(h, o, "addLevelsAdjustmentLayer", [
      Make(Desc("levels", map["presetKind" := Enum("presetKindType", "presetKindDefault")])),
      SetAdjustment(Desc("levels", map["adjustment" := Arr([LevelsAdjustment(o)])]))])
  }

  // ---------------------------------------------------------------------
  // Hue/saturation, photo filter, channel mixer

  /** `addHueSaturationAdjustmentLayer`: hue, saturation and lightness default to 0, colorize to false. */
  function AddHueSaturation(h: Host, o: Options): (r: Run)
    ensures Target(h, o).None? ==> r == Missing("addHueSaturationAdjustmentLayer")
    ensures Target(h, o).Some? ==> !Threw(r) && |Played(r)| == 2
    ensures Target(h, o).Some? ==> var a := At(SetTo(r), "adjustment");
      a == Arr([Desc("hueSatAdjustmentV2", map["hue" := Defined(Get(o, "hue"), N(0.0)),
                                               "saturation" := Defined(Get(o, "saturation"), N(0.0)),
                                               "lightness" := Defined(Get(o, "lightness"), N(0.0))])])
      && At(SetTo(r), "colorize") == Defined(Get(o, "colorize"), Bool(false))
  {
    OnLayer(h, o, "addHueSaturationAdjustmentLayer", [
      Make(Desc("hueSaturation", map["presetKind" := Enum("presetKindType", "presetKindDefault")])),
      SetAdjustment(Desc("hueSaturation", map[
        "adjustment" := Arr([Desc("hueSatAdjustmentV2", map["hue" := Defined(Get(o, "hue"), N(0.0)),
                                                            "saturation" := Defined(Get(o, "saturation"), N(0.0)),
                                                            "lightness" := Defined(Get(o, "lightness"), N(0.0))])]),
        "colorize" := Defined(Get(o, "colorize"), Bool(false))]))])
  }

  /** `addPhotoFilterAdjustmentLayer`: colour defaults to (236, 138, 0) through `||`, density to 25, luminosity kept. */
  function AddPhotoFilter(h: Host, o: Options): (r: Run)
    ensures Target(h, o).None? ==> r == Missing("addPhotoFilterAdjustmentLayer")
    ensures Target(h, o).Some? ==> !Threw(r) && |Played(r)| == 1
    ensures Target(h, o).Some? ==> var kind := Made(r);
      At(kind, "color") == Rgb(Or(Get(o, "color"), Color(236.0, 138.0, 0.0)))
      && At(kind, "density") == Defined(Get(o, "density"), N(25.0))
      && At(kind, "preserveLuminosity") == Defined(Get(o, "preserveLuminosity"), Bool(true))
  {
    OnLayer(h, o, "addPhotoFilterAdjustmentLayer", [Make(Desc("photoFilter", map[
      "color" := Rgb(Or(Get(o, "color"), Color(236.0, 138.0, 0.0))),
      "density" := Defined(Get(o, "density"), N(25.0)),
      "preserveLuminosity" := Defined(Get(o, "preserveLuminosity"), Bool(true))]))])
  }

  /** The channel-mixer settings after defaulting. */
  datatype Mixer = Mixer(outputChannel: Value, red: Value, green: Value, blue: Value, constant: Value, monochrome: Value)

  /**
   * The output channel defaults to "red" through `||`; red to 100, green,
   * blue and constant to 0 and monochrome to false, each only when undefined.
   */
  function MixerOptions(o: Options): (m: Mixer)
    ensures Truthy(m.outputChannel) && (Truthy(Get(o, "outputChannel")) ==> m.outputChannel == Get(o, "outputChannel"))
    ensures !Truthy(Get(o, "outputChannel")) ==> m.outputChannel == Str("red")
    ensures m.red == (if Get(o, "red") == Undefined then N(100.0) else Get(o, "red"))
    ensures m.green == (if Get(o, "green") == Undefined then N(0.0) else Get(o, "green"))
    ensures m.blue == (if Get(o, "blue") == Undefined then N(0.0) else Get(o, "blue"))
    ensures m.constant == (if Get(o, "constant") == Undefined then N(0.0) else Get(o, "constant"))
    ensures m.monochrome == (if Get(o, "monochrome") == Undefined then Bool(false) else Get(o, "monochrome"))
  {
    Mixer(Or(Get(o, "outputChannel"), Str("red")),
          Defined(Get(o, "red"), N(100.0)), Defined(Get(o, "green"), N(0.0)), Defined(Get(o, "blue"), N(0.0)),
          Defined(Get(o, "constant"), N(0.0)), Defined(Get(o, "monochrome"), Bool(false)))
  }

  /** The channel-mixer `set` settings: the green weight goes in the `grain` field. */
  function MixerSettings(m: Mixer): (to: Value)
    ensures ValueAt(to, "outputChannel") == m.outputChannel && At(to, "constant") == m.constant
    ensures At(to, "red") == m.red && At(to, "grain") == m.green && At(to, "blue") == m.blue
    ensures At(to, "green") == Undefined
  {
    Desc("channelMixer", map["outputChannel" := EnumOf("channel", m.outputChannel), "constant" := m.constant,
                             "red" := m.red, "grain" := m.green, "blue" := m.blue])
  }

  /** `addChannelMixerAdjustmentLayer`: monochrome is set when the layer is made, the weights afterwards. */
  function AddChannelMixer(h: Host, o: Options): (r: Run)
    ensures Target(h, o).None? ==> r == Missing("addChannelMixerAdjustmentLayer")
    ensures Target(h, o).Some? ==> !Threw(r) && |Played(r)| == 2
    ensures Target(h, o).Some? ==>
      At(Made(r), "monochromatic") == MixerOptions(o).monochrome && SetTo(r) == MixerSettings(MixerOptions(o))
  {
    var m := MixerOptions(o);
    OnLayer(h, o, "addChannelMixerAdjustmentLayer", [
      Make(Desc("channelMixer", map["monochromatic" := m.monochrome])),
      SetAdjustment(MixerSettings(m))])
  }

  // ---------------------------------------------------------------------
  // Gradient map

  /** The gradient used when no stops are given: black at 0 % to white at 100 %. */
  function DefaultMapStops(): Value {
    Arr([Obj(map["location" := N(0.0), "color" := Color(0.0, 0.0, 0.0), "midpoint" := N(50.0)]),
         Obj(map["location" := N(100.0), "color" := Color(255.0, 255.0, 255.0), "midpoint" := N(50.0)])])
  }

  /** One colour stop of the gradient map; the midpoint defaults to 50 only when undefined. */
  function MapColorStop(stop: Value): Value {
    Desc("colorStop", map[
      "color" := Rgb(Member(stop, "color")),
      "location" := ScaleLocation(Member(stop, "location")),
      "midpoint" := Defined(Member(stop, "midpoint"), N(50.0)),
      "type" := Enum("colorStopType", "userStop")])
  }

  /** The opacity stop made for each colour stop: fully opaque at the same location. */
  function MapOpacityStop(stop: Value): Value {
    Desc("transferSpec", map[
      "location" := ScaleLocation(Member(stop, "location")),
      "midpoint" := N(50.0),
      "opacity" := Unit("percentUnit", N(100.0))])
  }

  /**
   * Both stop lists of the gradient map, each a `.map` over the colour
   * stops: equally long, in the same order, at the same locations, and
   * every opacity stop at 100 % with midpoint 50.
   */
  function MapStops(stops: seq<Value>): (r: (seq<Value>, seq<Value>))
    ensures |r.0| == |r.1| == |stops|
    ensures forall k :: 0 <= k < |stops| ==> r.0[k] == MapColorStop(stops[k])
    ensures forall k :: 0 <= k < |stops| ==>
      At(r.1[k], "location") == At(r.0[k], "location") == ScaleLocation(Member(stops[k], "location"))
      && At(r.1[k], "midpoint") == N(50.0) && ValueAt(r.1[k], "opacity") == N(100.0)
  {
    (seq(|stops|, k requires 0 <= k < |stops| => MapColorStop(stops[k])),
     seq(|stops|, k requires 0 <= k < |stops| => MapOpacityStop(stops[k])))
  }

  /**
   * The gradient-map kind: stops through `||`, a truthy non-array raising;
   * `reverse` defaults to false only when undefined.
   */
  function GradientMapKind(o: Options): (r: Result<Value, string>)
    ensures r.Err? <==> Truthy(Get(o, "colorStops")) && !Get(o, "colorStops").Arr?
    ensures r.Ok? ==> At(r.value, "reverse") == Defined(Get(o, "reverse"), Bool(false))
    ensures r.Ok? ==> var stops := AsList(Or(Get(o, "colorStops"), DefaultMapStops()));
      At(At(r.value, "gradient"), "colors") == Arr(MapStops(stops).0)
      && At(At(r.value, "gradient"), "transparency") == Arr(MapStops(stops).1)
  {
    match Mappable(Or(Get(o, "colorStops"), DefaultMapStops()))
    case Err(e) => Err(e)
    case Ok(stops) =>
      var (colors, opacities) := MapStops(stops);
      Ok(Desc("gradientMapClass", map[
        "gradient" := Desc("gradientClassEvent", map[
          "colors" := Arr(colors),
          "gradientForm" := Enum("gradientForm", "customStops"),
          "interfaceIconFrameDimmed" := N(4096.0),
          "transparency" := Arr(opacities)]),
        "reverse" := Defined(Get(o, "reverse"), Bool(false))]))
  }

  /** The default gradient map runs from black at location 0 to white at 4096. */
  lemma DefaultMapBlackToWhite()
    ensures var stops := MapStops(DefaultMapStops().items).0;
      |stops| == 2 && At(stops[0], "location") == N(0.0) && At(stops[1], "location") == N(4096.0)
      && At(At(stops[0], "color"), "grain") == N(0.0) && At(At(stops[1], "color"), "grain") == N(255.0)
  {
    var items := DefaultMapStops().items;
    DefaultMapItems();
    ScaleLocationEnds();
    MapColorStopFields(items[0]);
    MapColorStopFields(items[1]);
  }

  /** The two default stops: black at 0 %, white at 100 %. */
  lemma DefaultMapItems()
    ensures var items := DefaultMapStops().items;
      |items| == 2 && Member(items[0], "location") == N(0.0) && Member(items[1], "location") == N(100.0)
      && Member(Member(items[0], "color"), "green") == N(0.0) && Member(Member(items[1], "color"), "green") == N(255.0)
  {
  }

  /** Where a colour stop of the gradient map lands and which green it carries. */
  lemma MapColorStopFields(stop: Value)
    ensures At(MapColorStop(stop), "location") == ScaleLocation(Member(stop, "location"))
    ensures At(At(MapColorStop(stop), "color"), "grain") == Member(Member(stop, "color"), "green")
  {
  }

  /** `addGradientMapAdjustmentLayer`: stops are converted before the layer is selected. */
  function AddGradientMap(h: Host, o: Options): (r: Run)
    ensures Target(h, o).None? ==> r == Missing("addGradientMapAdjustmentLayer")
    ensures Target(h, o).Some? && GradientMapKind(o).Err? ==> r == Run([], Some(TypeError))
    ensures Target(h, o).Some? && GradientMapKind(o).Ok? ==>
      !Threw(r) && |r.actions| == 2 && r.actions[0] == SelectLayer(Target(h, o).value.id) && Played(r) == [Make(GradientMapKind(o).value)]
  {
    Prepared(h, o, "addGradientMapAdjustmentLayer",
      match GradientMapKind(o)
      case Err(e) => Err(e)
      case Ok(kind) => Ok([Make(kind)]))
  }

  // ---------------------------------------------------------------------
  // Posterize, threshold, selective colour, exposure, invert, solid colour

  /** `addPosterizeAdjustmentLayer`: 4 levels unless given. */
  function AddPosterize(h: Host, o: Options): (r: Run)
    ensures Target(h, o).None? ==> r == Missing("addPosterizeAdjustmentLayer")
    ensures Target(h, o).Some? ==> !Threw(r) && |Played(r)| == 1
    ensures Target(h, o).Some? ==> At(Made(r), "levels") == Defined(Get(o, "levels"), N(4.0))
  {
    OnLayer(h, o, "addPosterizeAdjustmentLayer", [Make(Desc("posterize", map["levels" := Defined(Get(o, "levels"), N(4.0))]))])
  }

  /** `addThresholdAdjustmentLayer`: level 128 unless given. */
  function AddThreshold(h: Host, o: Options): (r: Run)
    ensures Target(h, o).None? ==> r == Missing("addThresholdAdjustmentLayer")
    ensures Target(h, o).Some? ==> !Threw(r) && |Played(r)| == 1
    ensures Target(h, o).Some? ==> At(Made(r), "level") == Defined(Get(o, "level"), N(128.0))
  {
    OnLayer(h, o, "addThresholdAdjustmentLayer", [Make(Desc("threshold", map["level" := Defined(Get(o, "level"), N(128.0))]))])
  }

  /** One `colorCorrection`: the colour range defaults to "reds" through `||`, the amounts to 0. */
  function ColorCorrection(o: Options): (c: Value)
    ensures ValueAt(c, "colors") == Or(Get(o, "colors"), Str("reds"))
    ensures At(c, "yellowColor") == Defined(Get(o, "yellow"), N(0.0)) && At(c, "yellow") == Undefined
    ensures At(c, "cyan") == Defined(Get(o, "cyan"), N(0.0)) && At(c, "magenta") == Defined(Get(o, "magenta"), N(0.0))
    ensures At(c, "black") == Defined(Get(o, "black"), N(0.0))
  {
    Desc("colorCorrection", map[
      "colors" := EnumOf("colors", Or(Get(o, "colors"), Str("reds"))),
      "cyan" := Defined(Get(o, "cyan"), N(0.0)),
      "magenta" := Defined(Get(o, "magenta"), N(0.0)),
      "yellowColor" := Defined(Get(o, "yellow"), N(0.0)),
      "black" := Defined(Get(o, "black"), N(0.0))])
  }

  /** `addSelectiveColorAdjustmentLayer` */
  function AddSelectiveColor(h: Host, o: Options): (r: Run)
    ensures Target(h, o).None? ==> r == Missing("addSelectiveColorAdjustmentLayer")
    ensures Target(h, o).Some? ==> !Threw(r) && |Played(r)| == 2
    ensures Target(h, o).Some? ==> At(SetTo(r), "colorCorrection") == Arr([ColorCorrection(o)])
  {
    OnLayer(h, o, "addSelectiveColorAdjustmentLayer", [
      Make(Desc("selectiveColor", map[])),
      SetAdjustment(Desc("selectiveColor", map["colorCorrection" := Arr([ColorCorrection(o)])]))])
  }

  /** `addExposureAdjustmentLayer`: exposure and offset 0 and gamma 1.0 unless given. */
  function AddExposure(h: Host, o: Options): (r: Run)
    ensures Target(h, o).None? ==> r == Missing("addExposureAdjustmentLayer")
    ensures Target(h, o).Some? ==> !Threw(r) && |Played(r)| == 1
    ensures Target(h, o).Some? ==> var kind := Made(r);
      At(kind, "exposure") == Defined(Get(o, "exposure"), N(0.0)) && At(kind, "offset") == Defined(Get(o, "offset"), N(0.0))
      && At(kind, "gammaCorrection") == Defined(Get(o, "gamma"), N(1.0))
  {
    OnLayer(h, o, "addExposureAdjustmentLayer", [Make(Desc("exposure", map[
      "exposure" := Defined(Get(o, "exposure"), N(0.0)),
      "offset" := Defined(Get(o, "offset"), N(0.0)),
      "gammaCorrection" := Defined(Get(o, "gamma"), N(1.0))]))])
  }

  /** `addInvertAdjustmentLayer` */
  function AddInvert(h: Host, o: Options): (r: Run)
    ensures Target(h, o).None? ==> r == Missing("addInvertAdjustmentLayer")
    ensures Target(h, o).Some? ==> !Threw(r) && At(Made(r), "_obj") == Str("invert")
  {
    OnLayer(h, o, "addInvertAdjustmentLayer", [Make(Desc("invert", map[]))])
  }

  /**
   * `addSolidColorFillLayer`: needs no layer and never throws; the colour
   * defaults to red (255, 0, 0) through `||`.
   */
  function AddSolidColorFill(o: Options): (r: Run)
    ensures !Threw(r) && |r.actions| == 1 && r.actions[0].BatchPlay?
    ensures var kind := At(At(Played1(r), "using"), "type");
      At(kind, "color") == Rgb(Or(Get(o, "color"), Color(255.0, 0.0, 0.0)))
    ensures !Truthy(Get(o, "color")) ==> At(At(At(At(Played1(r), "using"), "type"), "color"), "red") == N(255.0)
  {
    Run([BatchPlay([Desc("make", map[
      "_target" := Arr([Obj(map["_ref" := Str("contentLayer")])]),
      "using" := Desc("contentLayer", map["type" := Desc("solidColorLayer", map[
        "color" := Rgb(Or(Get(o, "color"), Color(255.0, 0.0, 0.0)))])])])])], None)
  }
}
