/**
 * Layer-style handlers: each finds its layer or throws, selects it, and
 * sets one entry of the layer's `layerEffects` (or makes a gradient fill
 * layer). Blend modes are lower-cased; a blend mode that is not a string
 * raises after the layer was selected.
 */
module LayerStyles {
  import opened Wrappers
  import opened Js
  import opened Host

  /** The `_target` every `set layerEffects` descriptor uses: the effects of the selected layer. */
  function EffectsTarget(): Value {
    Arr([Obj(map["_property" := Str("layerEffects"), "_ref" := Str("property")]),
         Obj(map["_enum" := Str("ordinal"), "_ref" := Str("layer"), "_value" := Str("targetEnum")])])
  }

  /** `{_obj: "set", _target: ..., to: {_obj: "layerEffects", [key]: effect, ...extra}}` */
  function SetEffect(key: string, effect: Value, extra: map<string, Value>): Value {
    Desc("set", map["_target" := EffectsTarget(), "to" := Desc("layerEffects", extra[key := effect])])
  }

  /** The effect a one-descriptor run set under `key`. */
  function EffectOf(r: Run, key: string): Value {
    At(At(Played1(r), "to"), key)
  }

  function Px(v: Value): Value { Unit("pixelsUnit", v) }
  function Pct(v: Value): Value { Unit("percentUnit", v) }
  function Deg(v: Value): Value { Unit("angleUnit", v) }

  // ---------------------------------------------------------------------
  // The common shape: select the layer, lower-case the blend mode, set one effect

  /**
   * Find the layer or throw; select it; lower-case `options.blendMode`
   * (raising when it is not a string); set the effect `key` built from the
   * lower-cased mode.
   */
  function Styled(h: Host, o: Options, handler: string, key: string, extra: map<string, Value>,
                  effect: string -> Value): (r: Run)
    ensures Target(h, o).None? ==> r == Missing(handler)
    ensures Target(h, o).Some? && !Get(o, "blendMode").Str? ==>
      r == Run([SelectLayer(Target(h, o).value.id)], Some(TypeError))
    ensures Target(h, o).Some? && Get(o, "blendMode").Str? ==>
      r == Run([SelectLayer(Target(h, o).value.id),
                BatchPlay([SetEffect(key, effect(Lower(Get(o, "blendMode").s)), extra)])], None)
  {
    Guarded(h, o, handler,
      match ToLower(Get(o, "blendMode"))
      case Err(e) => Err(e)
      case Ok(mode) => Ok([SetEffect(key, effect(mode), extra)]))
  }

  /** A style handler that did not throw set exactly the effect built from the lower-cased mode. */
  lemma StyledSetsEffect(h: Host, o: Options, handler: string, key: string, extra: map<string, Value>,
                         effect: string -> Value)
    requires !Threw(Styled(h, o, handler, key, extra, effect))
    requires key != "_obj" && key !in extra
    ensures Get(o, "blendMode").Str?
    ensures EffectOf(Styled(h, o, handler, key, extra, effect), key) == effect(Lower(Get(o, "blendMode").s))
  {
  }

  // ---------------------------------------------------------------------
  // Drop shadow, inner shadow, outer glow, satin, colour overlay

  /** The `dropShadow` effect: `size` is the blur, `spread` the choke, the angle local. */
  function DropShadowEffect(o: Options, mode: string): (fx: Value)
    ensures ValueAt(fx, "blur") == Get(o, "size") && ValueAt(fx, "chokeMatte") == Get(o, "spread")
    ensures ValueAt(fx, "localLightingAngle") == Get(o, "angle")
    ensures At(fx, "color") == Rgb(Get(o, "color")) && ValueAt(fx, "mode") == Str(mode)
  {
    Desc("dropShadow", map[
      "antiAlias" := Bool(false),
      "distance" := Px(Get(o, "distance")),
      "enabled" := Bool(true),
      "noise" := Pct(Num(0.0)),
      "opacity" := Pct(Get(o, "opacity")),
      "useGlobalAngle" := Bool(true),
      "localLightingAngle" := Deg(Get(o, "angle")),
      "blur" := Px(Get(o, "size")),
      "chokeMatte" := Px(Get(o, "spread")),
      "color" := Rgb(Get(o, "color")),
      "mode" := Enum("blendMode", mode)])
  }

  /** `addDropShadowLayerStyle`: the angle is also set as the global lighting angle. */
  function AddDropShadow(h: Host, o: Options): (r: Run)
    ensures r == Styled(h, o, "addDropShadowLayerStyle", "dropShadow",
                        map["globalLightingAngle" := Deg(Get(o, "angle")), "scale" := Pct(Num(100.0))],
                        mode => DropShadowEffect(o, mode))
    ensures !Threw(r) ==> ValueAt(At(Played1(r), "to"), "globalLightingAngle") == Get(o, "angle")
  {
    Styled(h, o, "addDropShadowLayerStyle", "dropShadow",
           map["globalLightingAngle" := Deg(Get(o, "angle")), "scale" := Pct(Num(100.0))],
           mode => DropShadowEffect(o, mode))
  }

  /** The `innerShadow` effect: `choke` is the choke and `size` the blur. */
  function InnerShadowEffect(o: Options, mode: string): (fx: Value)
    ensures ValueAt(fx, "chokeMatte") == Get(o, "choke") && ValueAt(fx, "blur") == Get(o, "size")
    ensures At(fx, "color") == Rgb(Get(o, "color")) && ValueAt(fx, "mode") == Str(mode)
  {
    Desc("innerShadow", map[
      "enabled" := Bool(true),
      "opacity" := Pct(Get(o, "opacity")),
      "useGlobalAngle" := Bool(true),
      "localLightingAngle" := Deg(Get(o, "angle")),
      "distance" := Px(Get(o, "distance")),
      "noise" := Pct(Num(0.0)),
      "chokeMatte" := Px(Get(o, "choke")),
      "blur" := Px(Get(o, "size")),
      "color" := Rgb(Get(o, "color")),
      "mode" := Enum("blendMode", mode)])
  }

  /** `addInnerShadowLayerStyle` */
  function AddInnerShadow(h: Host, o: Options): (r: Run)
    ensures r == Styled(h, o, "addInnerShadowLayerStyle", "innerShadow", map[], mode => InnerShadowEffect(o, mode))
  {
    Styled(h, o, "addInnerShadowLayerStyle", "innerShadow", map[], mode => InnerShadowEffect(o, mode))
  }

  /** The `outerGlow` effect: `spread` is the choke, `size` the blur, `noise` a percentage. */
  function OuterGlowEffect(o: Options, mode: string): (fx: Value)
    ensures ValueAt(fx, "chokeMatte") == Get(o, "spread") && ValueAt(fx, "blur") == Get(o, "size")
    ensures ValueAt(fx, "noise") == Get(o, "noise")
    ensures At(fx, "color") == Rgb(Get(o, "color")) && ValueAt(fx, "mode") == Str(mode)
  {
    Desc("outerGlow", map[
      "enabled" := Bool(true),
      "opacity" := Pct(Get(o, "opacity")),
      "noise" := Pct(Get(o, "noise")),
      "chokeMatte" := Px(Get(o, "spread")),
      "blur" := Px(Get(o, "size")),
      "color" := Rgb(Get(o, "color")),
      "mode" := Enum("blendMode", mode)])
  }

  /** `addOuterGlowLayerStyle` */
  function AddOuterGlow(h: Host, o: Options): (r: Run)
    ensures r == Styled(h, o, "addOuterGlowLayerStyle", "outerGlow", map[], mode => OuterGlowEffect(o, mode))
  {
    Styled(h, o, "addOuterGlowLayerStyle", "outerGlow", map[], mode => OuterGlowEffect(o, mode))
  }

  /** The satin effect, which Photoshop calls `chromeFX`: `invert` is passed as given. */
  function SatinEffect(o: Options, mode: string): (fx: Value)
    ensures At(fx, "invert") == Get(o, "invert") && ValueAt(fx, "blur") == Get(o, "size")
    ensures At(fx, "color") == Rgb(Get(o, "color")) && ValueAt(fx, "mode") == Str(mode)
  {
    Desc("chromeFX", map[
      "enabled" := Bool(true),
      "antiAlias" := Bool(true),
      "opacity" := Pct(Get(o, "opacity")),
      "localLightingAngle" := Deg(Get(o, "angle")),
      "distance" := Px(Get(o, "distance")),
      "invert" := Get(o, "invert"),
      "blur" := Px(Get(o, "size")),
      "color" := Rgb(Get(o, "color")),
      "mode" := Enum("blendMode", mode)])
  }

  /** `addSatinLayerStyle` */
  function AddSatin(h: Host, o: Options): (r: Run)
    ensures r == Styled(h, o, "addSatinLayerStyle", "chromeFX", map[], mode => SatinEffect(o, mode))
  {
    Styled(h, o, "addSatinLayerStyle", "chromeFX", map[], mode => SatinEffect(o, mode))
  }

  /** The colour overlay, which Photoshop calls `solidFill`. */
  function ColorOverlayEffect(o: Options, mode: string): (fx: Value)
    ensures ValueAt(fx, "opacity") == Get(o, "opacity")
    ensures At(fx, "color") == Rgb(Get(o, "color")) && ValueAt(fx, "mode") == Str(mode)
  {
    Desc("solidFill", map[
      "enabled" := Bool(true),
      "opacity" := Pct(Get(o, "opacity")),
      "color" := Rgb(Get(o, "color")),
      "mode" := Enum("blendMode", mode)])
  }

  /** `addColorOverlayLayerStyle` */
  function AddColorOverlay(h: Host, o: Options): (r: Run)
    ensures r == Styled(h, o, "addColorOverlayLayerStyle", "solidFill", map[], mode => ColorOverlayEffect(o, mode))
  {
    Styled(h, o, "addColorOverlayLayerStyle", "solidFill", map[], mode => ColorOverlayEffect(o, mode))
  }

  // ---------------------------------------------------------------------
  // Stroke

  /**
   * The stroke position, compared with the loose `==`: "INSIDE" is inset,
   * "OUTSIDE" is outset, anything else centred.
   */
  function StrokeStyle(position: Value): (r: string)
    ensures r == "insetFrame" <==> EqualsName(position, "INSIDE")
    ensures r == "outsetFrame" <==> EqualsName(position, "OUTSIDE")
    ensures r == "centeredFrame" <==> !EqualsName(position, "INSIDE") && !EqualsName(position, "OUTSIDE")
  {
    if EqualsName(position, "INSIDE") then "insetFrame"
    else if EqualsName(position, "OUTSIDE") then "outsetFrame"
    else "centeredFrame"
  }

  /** The advertised positions give three different frame styles; the comparison is case-sensitive. */
  lemma StrokePositionsDistinct()
    ensures StrokeStyle(Str("CENTER")) == "centeredFrame"
    ensures StrokeStyle(Str("INSIDE")) == "insetFrame"
    ensures StrokeStyle(Str("OUTSIDE")) == "outsetFrame"
    ensures StrokeStyle(Str("inside")) == "centeredFrame"
  {
  }

  /** Under `==` a position wrapped in one-item arrays, `["INSIDE"]`, is still inset. */
  lemma {:induction false} WrappedPositionInset(depth: nat)
    ensures StrokeStyle(Wrapped(Str("INSIDE"), depth)) == "insetFrame"
  {
    WrappedNameEquals(Str("INSIDE"), "INSIDE", depth);
  }

  /** The `frameFX` effect: a solid-colour stroke of `size` pixels at the resolved position. */
  function StrokeEffect(o: Options, mode: string): (fx: Value)
    ensures ValueAt(fx, "style") == Str(StrokeStyle(Get(o, "position")))
    ensures ValueAt(fx, "size") == Get(o, "size")
    ensures At(fx, "color") == Rgb(Get(o, "color")) && ValueAt(fx, "mode") == Str(mode)
  {
    Desc("frameFX", map[
      "enabled" := Bool(true),
      "opacity" := Pct(Get(o, "opacity")),
      "overprint" := Bool(false),
      "paintType" := Enum("frameFill", "solidColor"),
      "size" := Px(Get(o, "size")),
      "style" := Enum("frameStyle", StrokeStyle(Get(o, "position"))),
      "color" := Rgb(Get(o, "color")),
      "mode" := Enum("blendMode", mode)])
  }

  /** `addStrokeLayerStyle` */
  function AddStroke(h: Host, o: Options): (r: Run)
    ensures r == Styled(h, o, "addStrokeLayerStyle", "frameFX", map["scale" := Pct(Num(100.0))],
                        mode => StrokeEffect(o, mode))
  {
    Styled(h, o, "addStrokeLayerStyle", "frameFX", map["scale" := Pct(Num(100.0))], mode => StrokeEffect(o, mode))
  }

  // ---------------------------------------------------------------------
  // Inner glow and bevel: string options read before the layer is selected

  /**
   * The inner-glow source: "center" in any letter case is a centre glow;
   * anything else, including a missing value, an edge glow. A truthy
   * non-string raises.
   */
  function GlowSource(source: Value): (r: Result<string, string>)
    ensures r.Err? <==> Truthy(source) && !source.Str?
    ensures r == Ok("centerGlow") <==> source.Str? && Lower(source.s) == "center"
    ensures r.Ok? ==> r.value in {"centerGlow", "edgeGlow"}
  {
    if Truthy(source) then
      match ToLower(source)
      case Err(e) => Err(e)
      case Ok(s) => Ok(if s == "center" then "centerGlow" else "edgeGlow")
    else Ok("edgeGlow")
  }

  /** The glow sources the Python tool advertises, in any letter case. */
  lemma GlowSourcesAdvertised()
    ensures GlowSource(Str("center")) == Ok("centerGlow") && GlowSource(Str("CENTER")) == Ok("centerGlow")
    ensures GlowSource(Str("edge")) == Ok("edgeGlow") && GlowSource(Undefined) == Ok("edgeGlow")
  {
  }

  /** The `innerGlow` effect with its resolved source. */
  function InnerGlowEffect(o: Options, source: string, mode: string): (fx: Value)
    ensures ValueAt(fx, "innerGlowSource") == Str(source)
    ensures ValueAt(fx, "chokeMatte") == Get(o, "choke") && ValueAt(fx, "blur") == Get(o, "size")
    ensures At(fx, "color") == Rgb(Get(o, "color")) && ValueAt(fx, "mode") == Str(mode)
  {
    Desc("innerGlow", map[
      "enabled" := Bool(true),
      "opacity" := Pct(Get(o, "opacity")),
      "glowTechnique" := Enum("matteTechnique", "softMatte"),
      "noise" := Pct(Get(o, "noise")),
      "innerGlowSource" := Enum("innerGlowSourceType", source),
      "chokeMatte" := Px(Get(o, "choke")),
      "blur" := Px(Get(o, "size")),
      "color" := Rgb(Get(o, "color")),
      "mode" := Enum("blendMode", mode)])
  }

  /** `addInnerGlowLayerStyle`: a bad `source` raises after the lookup, before the layer is selected. */
  function AddInnerGlow(h: Host, o: Options): (r: Run)
    ensures Target(h, o).None? ==> r == Missing("addInnerGlowLayerStyle")
    ensures Target(h, o).Some? && GlowSource(Get(o, "source")).Err? ==> r == Run([], Some(TypeError))
    ensures Target(h, o).Some? && GlowSource(Get(o, "source")).Ok? ==>
      r == Styled(h, o, "addInnerGlowLayerStyle", "innerGlow", map[],
                  mode => InnerGlowEffect(o, GlowSource(Get(o, "source")).value, mode))
  {
    if Target(h, o).None? then Missing("addInnerGlowLayerStyle")
    else match GlowSource(Get(o, "source"))
      case Err(e) => Run([], Some(e))
      case Ok(source) =>
        Styled(h, o, "addInnerGlowLayerStyle", "innerGlow", map[], mode => InnerGlowEffect(o, source, mode))
  }

  /** The bevel direction: "down" in any letter case stamps out, anything else stamps in. */
  function BevelDirection(direction: Value): (r: Result<string, string>)
    ensures r.Err? <==> Truthy(direction) && !direction.Str?
    ensures r == Ok("stampOut") <==> direction.Str? && Lower(direction.s) == "down"
    ensures r.Ok? ==> r.value in {"stampIn", "stampOut"}
  {
    if Truthy(direction) then
      match ToLower(direction)
      case Err(e) => Err(e)
      case Ok(s) => Ok(if s == "down" then "stampOut" else "stampIn")
    else Ok("stampIn")
  }

  /**
   * The `bevelEmboss` effect: both blend modes lower-cased, both colours as
   * RGB descriptors, the direction already resolved.
   */
  function BevelEffect(o: Options, direction: string, highlightMode: string, shadowMode: string): (fx: Value)
    ensures At(fx, "bevelDirection") == Enum("bevelEmbossStampStyle", direction)
    ensures At(fx, "highlightMode") == Enum("blendMode", highlightMode) && At(fx, "shadowMode") == Enum("blendMode", shadowMode)
  {
    Desc("bevelEmboss", map[
      "enabled" := Bool(true),
      "style" := EnumOf("bevelEmbossStyle", Get(o, "style")),
      "technique" := EnumOf("bevelTechnique", Get(o, "technique")),
      "strength" := Pct(Get(o, "depth")),
      "blur" := Px(Get(o, "size")),
      "softness" := Px(Get(o, "soften")),
      "localLightingAngle" := Deg(Get(o, "angle")),
      "localLightingAltitude" := Deg(Get(o, "altitude")),
      "useGlobalAngle" := Bool(false),
      "highlightOpacity" := Pct(Get(o, "highlightOpacity")),
      "shadowOpacity" := Pct(Get(o, "shadowOpacity")),
      "highlightColor" := Rgb(Get(o, "highlightColor")),
      "shadowColor" := Rgb(Get(o, "shadowColor"))]
      ["bevelDirection" := Enum("bevelEmbossStampStyle", direction)]
      ["highlightMode" := Enum("blendMode", highlightMode)]
      ["shadowMode" := Enum("blendMode", shadowMode)])
  }

  /**
   * `addBevelEmbossLayerStyle`: a bad `direction` raises before the layer is
   * selected, a highlight or shadow mode that is not a string after.
   */
  function AddBevelEmboss(h: Host, o: Options): (r: Run)
    ensures Target(h, o).None? ==> r == Missing("addBevelEmbossLayerStyle")
    ensures Target(h, o).Some? && BevelDirection(Get(o, "direction")).Err? ==> r == Run([], Some(TypeError))
    ensures Target(h, o).Some? && BevelDirection(Get(o, "direction")).Ok? ==>
      var select := SelectLayer(Target(h, o).value.id);
      if !Get(o, "highlightMode").Str? || !Get(o, "shadowMode").Str? then r == Run([select], Some(TypeError))
      else r == Run([select, BatchPlay([SetEffect("bevelEmboss", BevelEffect(o, BevelDirection(Get(o, "direction")).value,
        Lower(Get(o, "highlightMode").s), Lower(Get(o, "shadowMode").s)), map[])])], None)
  {
    if Target(h, o).None? then Missing("addBevelEmbossLayerStyle")
    else match BevelDirection(Get(o, "direction"))
      case Err(e) => Run([], Some(e))
      case Ok(direction) =>
        var body :=
          if !Get(o, "highlightMode").Str? || !Get(o, "shadowMode").Str? then Err(TypeError)
          else Ok([SetEffect("bevelEmboss", BevelEffect(o, direction, Lower(Get(o, "highlightMode").s), Lower(Get(o, "shadowMode").s)), map[])]);
        Guarded(h, o, "addBevelEmbossLayerStyle", body)
  }

  // ---------------------------------------------------------------------
  // Gradient stops

  /**
   * One colour stop. `defaults` is the gradient-overlay rule, where a falsy
   * midpoint becomes 50; the gradient fill layer passes the midpoint as given.
   */
  function ColorStop(c: Value, defaults: bool): Value {
    Desc("colorStop", map[
      "color" := Rgb(Member(c, "color")),
      "location" := ScaleLocation(Member(c, "location")),
      "midpoint" := if defaults then Or(Member(c, "midpoint"), Num(50.0)) else Member(c, "midpoint"),
      "type" := Enum("colorStopType", "userStop")])
  }

  /** One opacity stop; under the overlay rule a missing opacity is 100. */
  function OpacityStop(s: Value, defaults: bool): Value {
    Desc("transferSpec", map[
      "location" := ScaleLocation(Member(s, "location")),
      "midpoint" := if defaults then Or(Member(s, "midpoint"), Num(50.0)) else Member(s, "midpoint"),
      "opacity" := Pct(if defaults then Defined(Member(s, "opacity"), Num(100.0)) else Member(s, "opacity"))])
  }

  /** Every stop converted, in the order given. */
  function ColorStops(stops: seq<Value>, defaults: bool): seq<Value> {
    seq(|stops|, k requires 0 <= k < |stops| => ColorStop(stops[k], defaults))
  }

  function OpacityStops(stops: seq<Value>, defaults: bool): seq<Value> {
    seq(|stops|, k requires 0 <= k < |stops| => OpacityStop(stops[k], defaults))
  }

  /** The `for (let c of colorStops) colors.push(...)` loop. */
  method ConvertColorStops(stops: seq<Value>, defaults: bool) returns (colors: seq<Value>)
    ensures colors == ColorStops(stops, defaults)
  {
    colors := [];
    var i := 0;
    while i < |stops|
      invariant 0 <= i <= |stops|
      invariant |colors| == i
      invariant forall k :: 0 <= k < i ==> colors[k] == ColorStop(stops[k], defaults)
    {
      colors := colors + [ColorStop(stops[i], defaults)];
      i := i + 1;
    }
  }

  /** The `for (let o of opacityStops) opacities.push(...)` loop. */
  method ConvertOpacityStops(stops: seq<Value>, defaults: bool) returns (opacities: seq<Value>)
    ensures opacities == OpacityStops(stops, defaults)
  {
    opacities := [];
    var i := 0;
    while i < |stops|
      invariant 0 <= i <= |stops|
      invariant |opacities| == i
      invariant forall k :: 0 <= k < i ==> opacities[k] == OpacityStop(stops[k], defaults)
    {
      opacities := opacities + [OpacityStop(stops[i], defaults)];
      i := i + 1;
    }
  }

  /** Stops given in order within 0..100 % stay in order within 0..4096. */
  lemma StopOrderKept(a: Value, b: Value, defaults: bool)
    requires Member(a, "location").Num? && Member(b, "location").Num?
    requires 0.0 <= Member(a, "location").n <= Member(b, "location").n <= 100.0
    ensures var la := At(ColorStop(a, defaults), "location"); var lb := At(ColorStop(b, defaults), "location");
      la.Num? && lb.Num? && 0.0 <= la.n <= lb.n <= 4096.0
  {
    ScaleLocationMonotone(Member(a, "location").n, Member(b, "location").n);
  }

  /** Under the overlay rule a midpoint of 0 or a missing midpoint is 50, and only a missing opacity is 100. */
  lemma OverlayStopDefaults(s: Value)
    ensures !Truthy(Member(s, "midpoint")) ==> At(ColorStop(s, true), "midpoint") == Num(50.0)
    ensures Member(s, "opacity") == Undefined ==> ValueAt(OpacityStop(s, true), "opacity") == Num(100.0)
    ensures Member(s, "opacity") == Num(0.0) ==> ValueAt(OpacityStop(s, true), "opacity") == Num(0.0)
  {
  }

  /** The gradient fill layer `createGradientLayerStyle` makes. */
  function GradientLayer(angle: Value, colors: seq<Value>, opacities: seq<Value>, gradientType: string): Value {
    Desc("make", map[
      "_target" := Arr([Obj(map["_ref" := Str("contentLayer")])]),
      "using" := Desc("contentLayer", map["type" := Desc("gradientLayer", map[
        "angle" := Deg(angle),
        "gradient" := Desc("gradientClassEvent", map[
          "colors" := Arr(colors),
          "gradientForm" := Enum("gradientForm", "customStops"),
          "interfaceIconFrameDimmed" := Num(4096.0),
          "name" := Str("Custom"),
          "transparency" := Arr(opacities)]),
        "type" := Enum("gradientType", gradientType)])])])
  }

  /**
   * `createGradientLayerStyle`: select the layer, convert both stop lists in
   * order, then make the gradient layer with the lower-cased type. Stop lists
   * that are not arrays, or a type that is not a string, raise after the
   * layer was selected.
   */
  method CreateGradientLayerStyle(h: Host, o: Options) returns (r: Run)
    ensures Target(h, o).None? ==> r == Missing("createGradientAdjustmentLayer")
    ensures Target(h, o).Some? ==> |r.actions| > 0 && r.actions[0] == SelectLayer(Target(h, o).value.id)
    ensures Target(h, o).Some? ==>
      (Threw(r) <==> ForOf(Get(o, "colorStops")).Err? || ForOf(Get(o, "opacityStops")).Err? || !Get(o, "type").Str?)
    ensures !Threw(r) ==>
      r.actions == [SelectLayer(Target(h, o).value.id),
                    BatchPlay([GradientLayer(Get(o, "angle"),
                                             ColorStops(ForOf(Get(o, "colorStops")).value, false),
                                             OpacityStops(ForOf(Get(o, "opacityStops")).value, false),
                                             Lower(Get(o, "type").s))])]
  {
    var target := Target(h, o);
    if target.None? {
      return Missing("createGradientAdjustmentLayer");
    }
    var select := [SelectLayer(target.value.id)];
    var colorStops := ForOf(Get(o, "colorStops"));
    if colorStops.Err? {
      return Run(select, Some(colorStops.error));
    }
    var colors := ConvertColorStops(colorStops.value, false);
    var opacityStops := ForOf(Get(o, "opacityStops"));
    if opacityStops.Err? {
      return Run(select, Some(opacityStops.error));
    }
    var opacities := ConvertOpacityStops(opacityStops.value, false);
    var gradientType := ToLower(Get(o, "type"));
    if gradientType.Err? {
      return Run(select, Some(gradientType.error));
    }
    r := Run(select + [BatchPlay([GradientLayer(Get(o, "angle"), colors, opacities, gradientType.value)])], None);
  }

  // ---------------------------------------------------------------------
  // Gradient overlay

  /** The normalised options of `addGradientOverlayLayerStyle`. */
  datatype Overlay = Overlay(blendMode: string, opacity: Value, angle: Value, scale: Value,
                             gradientType: string, reverse: Value)

  /** The default blend mode and gradient type are already lower case. */
  lemma LowerDefaults()
    ensures Lower("normal") == "normal" && Lower("linear") == "linear"
  {
  }

  /**
   * Blend mode and type default through `||` and are lower-cased; opacity,
   * angle, scale and reverse default only when undefined.
   */
  function OverlayOptions(o: Options): (r: Result<Overlay, string>)
    ensures r.Ok? <==> Or(Get(o, "blendMode"), Str("normal")).Str? && Or(Get(o, "type"), Str("linear")).Str?
    ensures r.Ok? && !Truthy(Get(o, "blendMode")) ==> r.value.blendMode == "normal"
    ensures r.Ok? && !Truthy(Get(o, "type")) ==> r.value.gradientType == "linear"
    ensures r.Ok? ==> r.value.opacity == Defined(Get(o, "opacity"), Num(100.0))
    ensures r.Ok? ==> r.value.angle == Defined(Get(o, "angle"), Num(90.0))
    ensures r.Ok? ==> r.value.scale == Defined(Get(o, "scale"), Num(100.0))
    ensures r.Ok? ==> r.value.reverse == Defined(Get(o, "reverse"), Bool(false))
  {
    LowerDefaults();
    match ToLower(Or(Get(o, "blendMode"), Str("normal")))
    case Err(e) => Err(e)
    case Ok(blendMode) =>
      match ToLower(Or(Get(o, "type"), Str("linear")))
      case Err(e) => Err(e)
      case Ok(gradientType) =>
        Ok(Overlay(blendMode,
                   Defined(Get(o, "opacity"), Num(100.0)),
                   Defined(Get(o, "angle"), Num(90.0)),
                   Defined(Get(o, "scale"), Num(100.0)),
                   gradientType,
                   Defined(Get(o, "reverse"), Bool(false))))
  }

  /** A zero opacity or angle is kept: only a missing value takes the default. */
  lemma OverlayKeepsZero(o: Options)
    requires OverlayOptions(o).Ok?
    requires Get(o, "opacity") == Num(0.0) && Get(o, "angle") == Num(0.0)
    ensures OverlayOptions(o).value.opacity == Num(0.0) && OverlayOptions(o).value.angle == Num(0.0)
  {
  }

  /** The `set layerEffects` descriptor of the gradient overlay. */
  function GradientOverlay(v: Overlay, colors: seq<Value>, opacities: seq<Value>): Value {
    SetEffect("gradientFill", Desc("gradientFill", map[
      "enabled" := Bool(true),
      "mode" := Enum("blendMode", v.blendMode),
      "opacity" := Pct(v.opacity),
      "gradient" := Desc("gradientClassEvent", map[
        "colors" := Arr(colors),
        "gradientForm" := Enum("gradientForm", "customStops"),
        "interfaceIconFrameDimmed" := Num(4096.0),
        "name" := Str("Custom"),
        "transparency" := Arr(opacities)]),
      "angle" := Deg(v.angle),
      "type" := Enum("gradientType", v.gradientType),
      "reverse" := v.reverse,
      "align" := Bool(true),
      "scale" := Pct(v.scale)]), map[])
  }

  /**
   * The descriptors `addGradientOverlayLayerStyle` plays once the layer is
   * selected: they build exactly when blend mode and type are strings after
   * their defaults and both stop lists (each `|| []`) can be walked.
   */
  function OverlayBody(o: Options): (r: Result<seq<Value>, string>)
    ensures r.Ok? <==> OverlayOptions(o).Ok? && ForOf(Or(Get(o, "colorStops"), Arr([]))).Ok?
                       && ForOf(Or(Get(o, "opacityStops"), Arr([]))).Ok?
    ensures r.Ok? ==> r.value == [GradientOverlay(OverlayOptions(o).value,
                                   ColorStops(ForOf(Or(Get(o, "colorStops"), Arr([]))).value, true),
                                   OpacityStops(ForOf(Or(Get(o, "opacityStops"), Arr([]))).value, true))]
  {
    match OverlayOptions(o)
    case Err(e) => Err(e)
    case Ok(v) =>
      match ForOf(Or(Get(o, "colorStops"), Arr([])))
      case Err(e) => Err(e)
      case Ok(colorStops) =>
        match ForOf(Or(Get(o, "opacityStops"), Arr([])))
        case Err(e) => Err(e)
        case Ok(opacityStops) => Ok([GradientOverlay(v, ColorStops(colorStops, true), OpacityStops(opacityStops, true))])
  }

  /**
   * `addGradientOverlayLayerStyle`: select, normalise, convert the stop lists
   * (each `|| []`) in order, then set the overlay.
   */
  method AddGradientOverlay(h: Host, o: Options) returns (r: Run)
    ensures r == Guarded(h, o, "addGradientOverlayLayerStyle", OverlayBody(o))
    ensures Target(h, o).Some? ==>
      (Threw(r) <==> OverlayOptions(o).Err? || ForOf(Or(Get(o, "colorStops"), Arr([]))).Err?
                     || ForOf(Or(Get(o, "opacityStops"), Arr([]))).Err?)
  {
    var target := Target(h, o);
    if target.None? {
      return Missing("addGradientOverlayLayerStyle");
    }
    var id := target.value.id;
    var v := OverlayOptions(o);
    if v.Err? {
      return Run([SelectLayer(id)], Some(v.error));
    }
    var colorStops := ForOf(Or(Get(o, "colorStops"), Arr([])));
    if colorStops.Err? {
      return Run([SelectLayer(id)], Some(colorStops.error));
    }
    var colors := ConvertColorStops(colorStops.value, true);
    var opacityStops := ForOf(Or(Get(o, "opacityStops"), Arr([])));
    if opacityStops.Err? {
      return Run([SelectLayer(id)], Some(opacityStops.error));
    }
    var opacities := ConvertOpacityStops(opacityStops.value, true);
    r := Run([SelectLayer(id), BatchPlay([GradientOverlay(v.value, colors, opacities)])], None);
  }

  /** `clearLayerStyles` */
  function ClearLayerStyles(h: Host, o: Options): (r: Run)
    ensures Target(h, o).None? ==> r == Missing("clearLayerStyles")
    ensures Target(h, o).Some? ==>
      r.actions == [SelectLayer(Target(h, o).value.id),
       BatchPlay([Desc("clearLayerEffects", map["_target" := Arr([Obj(map[
         "_enum" := Str("ordinal"), "_ref" := Str("layer"), "_value" := Str("targetEnum")])])])])]
  {
    OnLayer(h, o, "clearLayerStyles", [Desc("clearLayerEffects", map["_target" := Arr([Obj(map[
      "_enum" := Str("ordinal"), "_ref" := Str("layer"), "_value" := Str("targetEnum")])])])])
  }
}
