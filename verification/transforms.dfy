/**
 * Transform handlers: free transform, the corner-based "perspective"
 * transform, warp, content-aware scale and conversion to a smart object.
 * Each finds its layer or throws before any host action, then selects the
 * layer and plays one descriptor on the target layer.
 */
module Transforms {
  import opened Wrappers
  import opened Js
  import opened Host

  /** `[{_enum: "ordinal", _ref: "layer", _value: "targetEnum"}]` */
  function TargetLayer(): Value {
    Arr([Obj(map["_enum" := Str("ordinal"), "_ref" := Str("layer"), "_value" := Str("targetEnum")])])
  }

  /** The average centre state every transform here sends. */
  function CenterState(): Value { Enum("quadCenterState", "QCSAverage") }

  /** Bicubic interpolation, sent by every transform here. */
  function Bicubic(): Value { Enum("interpolationType", "bicubicAutomatic") }

  // ---------------------------------------------------------------------
  // Free transform

  /** The seven values `freeTransform` reads; each defaults only when undefined. */
  datatype FreeTransformSettings = FreeTransformSettings(
    width: Value, height: Value, angle: Value, skewX: Value, skewY: Value, moveX: Value, moveY: Value)

  /** Width and height 100 %, no rotation, skew or move, unless given (0 is kept). */
  function FreeTransformOptions(o: Options): (s: FreeTransformSettings)
    ensures s.width == Defined(Get(o, "width"), N(100.0)) && s.height == Defined(Get(o, "height"), N(100.0))
    ensures s.angle == Defined(Get(o, "angle"), N(0.0))
    ensures s.skewX == Defined(Get(o, "skewX"), N(0.0)) && s.skewY == Defined(Get(o, "skewY"), N(0.0))
    ensures s.moveX == Defined(Get(o, "moveX"), N(0.0)) && s.moveY == Defined(Get(o, "moveY"), N(0.0))
  {
    FreeTransformSettings(
      Defined(Get(o, "width"), N(100.0)), Defined(Get(o, "height"), N(100.0)), Defined(Get(o, "angle"), N(0.0)),
      Defined(Get(o, "skewX"), N(0.0)), Defined(Get(o, "skewY"), N(0.0)),
      Defined(Get(o, "moveX"), N(0.0)), Defined(Get(o, "moveY"), N(0.0)))
  }

  /** A pair of `horizontal`/`vertical` quantities in one unit. */
  function Pair(obj: string, unit: string, x: Value, y: Value): (d: Value)
    ensures ValueAt(d, "horizontal") == x && ValueAt(d, "vertical") == y
  {
    Desc(obj, map["horizontal" := Unit(unit, x), "vertical" := Unit(unit, y)])
  }

  /** The `transform` descriptor of the free transform. */
  function FreeTransformDescriptor(s: FreeTransformSettings): Value {
    Desc("transform", map[
      "_target" := TargetLayer(),
      "freeTransformCenterState" := CenterState(),
      "interfaceIconFrameDimmed" := Bicubic(),
      "skew" := Pair("paint", "angleUnit", s.skewX, s.skewY),
      "offset" := Pair("offset", "pixelsUnit", s.moveX, s.moveY),
      "width" := Unit("percentUnit", s.width),
      "height" := Unit("percentUnit", s.height),
      "angle" := Unit("angleUnit", s.angle)])
  }

  /** Each setting lands in its own field of the free transform. */
  lemma FreeTransformFields(s: FreeTransformSettings)
    ensures var d := FreeTransformDescriptor(s);
      ValueAt(d, "width") == s.width && ValueAt(d, "height") == s.height && ValueAt(d, "angle") == s.angle
      && At(d, "skew") == Pair("paint", "angleUnit", s.skewX, s.skewY)
      && At(d, "offset") == Pair("offset", "pixelsUnit", s.moveX, s.moveY)
  {
  }

  function FreeTransform(h: Host, o: Options): (r: Run)
    ensures Target(h, o).None? ==> r == Missing("freeTransform")
    ensures Target(h, o).Some? ==> !Threw(r) && r.actions == [SelectLayer(Target(h, o).value.id), BatchPlay([FreeTransformDescriptor(FreeTransformOptions(o))])]
  {
    OnLayer(h, o, "freeTransform", [FreeTransformDescriptor(FreeTransformOptions(o))])
  }

  /** Skew and move land on the right axes: x is horizontal, y vertical. */
  lemma FreeTransformAxes(o: Options)
    ensures var d := FreeTransformDescriptor(FreeTransformOptions(o));
      ValueAt(At(d, "skew"), "horizontal") == Defined(Get(o, "skewX"), N(0.0))
      && ValueAt(At(d, "skew"), "vertical") == Defined(Get(o, "skewY"), N(0.0))
      && ValueAt(At(d, "offset"), "horizontal") == Defined(Get(o, "moveX"), N(0.0))
      && ValueAt(At(d, "offset"), "vertical") == Defined(Get(o, "moveY"), N(0.0))
  {
    FreeTransformFields(FreeTransformOptions(o));
  }

  /** With no options the transform is the identity: full size, no rotation, no skew, no move. */
  lemma FreeTransformDefaultIdentity()
    ensures var s := FreeTransformOptions(map[]);
      s == FreeTransformSettings(N(100.0), N(100.0), N(0.0), N(0.0), N(0.0), N(0.0), N(0.0))
  {
  }

  // ---------------------------------------------------------------------
  // Perspective transform

  /**
   * `base + (p / 100) * extent` for a corner coordinate given in percent of
   * the layer's extent; a coordinate that is not a number gives NaN.
   */
  function Scaled(base: real, p: Value, extent: real): (r: Value)
    ensures p.Num? ==> r == Num(base + (p.n / 100.0) * extent)
    ensures p == Undefined ==> r == NaN
  {
    if p.Num? then Num(base + (p.n / 100.0) * extent)
    else match ToNumber(p)
      case Num(n) => Num(base + (n / 100.0) * extent)
      case _ => NaN
  }

  /** The four sides of the `rectangle` sent by the perspective transform. */
  datatype Rectangle = Rectangle(top: Value, left: Value, bottom: Value, right: Value)

  /**
   * The rectangle from the corners, in percent of the layer bounds: top and
   * left from the top-left corner, bottom from the bottom-left corner's y,
   * right from the top-right corner's x.
   */
  function PerspectiveRectangle(b: Bounds, tl: Value, tr: Value, bl: Value): (r: Rectangle)
    ensures r.top == Scaled(b.top, Member(tl, "y"), b.bottom - b.top)
    ensures r.left == Scaled(b.left, Member(tl, "x"), b.right - b.left)
    ensures r.bottom == Scaled(b.top, Member(bl, "y"), b.bottom - b.top)
    ensures r.right == Scaled(b.left, Member(tr, "x"), b.right - b.left)
  {
    var w := b.right - b.left;
    var h := b.bottom - b.top;
    Rectangle(Scaled(b.top, Member(tl, "y"), h), Scaled(b.left, Member(tl, "x"), w),
              Scaled(b.top, Member(bl, "y"), h), Scaled(b.left, Member(tr, "x"), w))
  }

  /** The corners as `perspectiveTransform` reads them, each `||` its default. */
  function Corners(o: Options): (Value, Value, Value, Value) {
    (Or(Get(o, "topLeft"), Point(N(0.0), N(0.0))), Or(Get(o, "topRight"), Point(N(100.0), N(0.0))),
     Or(Get(o, "bottomRight"), Point(N(100.0), N(100.0))), Or(Get(o, "bottomLeft"), Point(N(0.0), N(100.0))))
  }

  function PerspectiveDescriptor(r: Rectangle): (d: Value)
    ensures ValueAt(At(d, "rectangle"), "top") == r.top && ValueAt(At(d, "rectangle"), "left") == r.left
    ensures ValueAt(At(d, "rectangle"), "bottom") == r.bottom && ValueAt(At(d, "rectangle"), "right") == r.right
  {
    Desc("transform", map[
      "_target" := TargetLayer(),
      "freeTransformCenterState" := CenterState(),
      "interfaceIconFrameDimmed" := Bicubic(),
      "rectangle" := Desc("rectangle", map[
        "top" := Unit("pixelsUnit", r.top), "left" := Unit("pixelsUnit", r.left),
        "bottom" := Unit("pixelsUnit", r.bottom), "right" := Unit("pixelsUnit", r.right)])])
  }

  /** `perspectiveTransform`: select the layer, then transform it to the rectangle the corners give. */
  function PerspectiveTransform(h: Host, o: Options): (r: Run)
    ensures Target(h, o).None? ==> r == Missing("perspectiveTransform")
    ensures Target(h, o).Some? ==>
      var (tl, tr, _, bl) := Corners(o);
      r == Run([SelectLayer(Target(h, o).value.id),
                BatchPlay([PerspectiveDescriptor(PerspectiveRectangle(Target(h, o).value.bounds, tl, tr, bl))])], None)
  {
    match Target(h, o)
    case None => Missing("perspectiveTransform")
    case Some(l) =>
      var (tl, tr, _, bl) := Corners(o);
      OnLayer(h, o, "perspectiveTransform", [PerspectiveDescriptor(PerspectiveRectangle(l.bounds, tl, tr, bl))])
  }

  /** With the default corners the rectangle is exactly the layer's bounds. */
  lemma DefaultCornersKeepBounds(b: Bounds)
    ensures var (tl, tr, _, bl) := Corners(map[]);
      PerspectiveRectangle(b, tl, tr, bl) == Rectangle(Num(b.top), Num(b.left), Num(b.bottom), Num(b.right))
  {
    var (tl, tr, _, bl) := Corners(map[]);
    assert Member(tl, "y") == N(0.0) && Member(tl, "x") == N(0.0);
    assert Member(bl, "y") == N(100.0) && Member(tr, "x") == N(100.0);
  }

  /** The bottom-right corner is read but never used: any value gives the same run. */
  lemma BottomRightUnused(h: Host, o: Options, v: Value)
    ensures PerspectiveTransform(h, o["bottomRight" := v]) == PerspectiveTransform(h, o)
  {
    var p := o["bottomRight" := v];
    assert Get(p, "layerId") == Get(o, "layerId");
    assert Get(p, "topLeft") == Get(o, "topLeft") && Get(p, "topRight") == Get(o, "topRight");
    assert Get(p, "bottomLeft") == Get(o, "bottomLeft");
  }

  /** Only four of the eight corner coordinates count: the top-right y and the bottom-left x are ignored too. */
  lemma OnlyFourCoordinatesCount(b: Bounds, tl: Value, tr: Value, bl: Value, y: Value, x: Value)
    requires tr.Obj? && bl.Obj?
    ensures PerspectiveRectangle(b, tl, Obj(tr.fields["y" := y]), Obj(bl.fields["x" := x])) == PerspectiveRectangle(b, tl, tr, bl)
  {
    assert Member(Obj(tr.fields["y" := y]), "x") == Member(tr, "x");
    assert Member(Obj(bl.fields["x" := x]), "y") == Member(bl, "y");
  }

  // ---------------------------------------------------------------------
  // Warp

  /** The `warp` part: the style `|| "arc"` as given, the bend defaulting to 50 only when undefined, no perspective. */
  function Warp(o: Options): (d: Value)
    ensures ValueAt(d, "warpStyle") == Or(Get(o, "warpStyle"), Str("arc"))
    ensures At(d, "warpValue") == Defined(Get(o, "bend"), N(50.0))
    ensures At(d, "warpPerspective") == N(0.0) && At(d, "warpPerspectiveOther") == N(0.0)
  {
    Desc("warp", map[
      "warpRotate" := Enum("orientation", "horizontal"),
      "warpStyle" := EnumOf("warpStyle", Or(Get(o, "warpStyle"), Str("arc"))),
      "warpValue" := Defined(Get(o, "bend"), N(50.0)),
      "warpPerspective" := N(0.0),
      "warpPerspectiveOther" := N(0.0)])
  }

  function WarpTransform(h: Host, o: Options): (r: Run)
    ensures Target(h, o).None? ==> r == Missing("warpTransform")
    ensures Target(h, o).Some? ==> !Threw(r) && r.actions == [SelectLayer(Target(h, o).value.id), BatchPlay([Desc("transform", map["_target" := TargetLayer(), "freeTransformCenterState" := CenterState(), "interfaceIconFrameDimmed" := Bicubic(), "warp" := Warp(o)])])]
  {
    OnLayer(h, o, "warpTransform", [Desc("transform", map["_target" := TargetLayer(), "freeTransformCenterState" := CenterState(), "interfaceIconFrameDimmed" := Bicubic(), "warp" := Warp(o)])])
  }

  /** The horizontal and vertical distortion options are read but never sent. */
  lemma WarpIgnoresDistortion(h: Host, o: Options, x: Value, y: Value)
    ensures WarpTransform(h, o["horizontalDistortion" := x]["verticalDistortion" := y]) == WarpTransform(h, o)
  {
    var p := o["horizontalDistortion" := x]["verticalDistortion" := y];
    assert Get(p, "layerId") == Get(o, "layerId");
    assert Get(p, "warpStyle") == Get(o, "warpStyle") && Get(p, "bend") == Get(o, "bend");
    assert Warp(p) == Warp(o);
  }

  /** The Python tool's `warp_styles`; each one is sent as it is. */
  const AdvertisedWarpStyles: seq<string> :=
    ["arc", "arcLower", "arcUpper", "arch", "bulge", "shellLower", "shellUpper", "flag", "wave", "fish",
     "rise", "fisheye", "inflate", "squeeze", "twist"]

  lemma AdvertisedWarpStylesSent(o: Options, i: nat)
    requires i < |AdvertisedWarpStyles| && Get(o, "warpStyle") == Str(AdvertisedWarpStyles[i])
    ensures ValueAt(Warp(o), "warpStyle") == Str(AdvertisedWarpStyles[i])
  {
    assert AdvertisedWarpStyles[i] != "";
  }

  // ---------------------------------------------------------------------
  // Content-aware scale and smart object

  /** `contentAwareScale`: width and height default to 100 % only when undefined. */
  function ContentAwareScaleDescriptor(o: Options): (d: Value)
    ensures ValueAt(d, "width") == Defined(Get(o, "width"), N(100.0))
    ensures ValueAt(d, "height") == Defined(Get(o, "height"), N(100.0))
  {
    Desc("contentAwareScale", map[
      "_target" := TargetLayer(),
      "freeTransformCenterState" := CenterState(),
      "interfaceIconFrameDimmed" := Bicubic(),
      "width" := Unit("percentUnit", Defined(Get(o, "width"), N(100.0))),
      "height" := Unit("percentUnit", Defined(Get(o, "height"), N(100.0)))])
  }

  function ContentAwareScale(h: Host, o: Options): (r: Run)
    ensures Target(h, o).None? ==> r == Missing("contentAwareScale")
    ensures Target(h, o).Some? ==> !Threw(r) && r.actions == [SelectLayer(Target(h, o).value.id), BatchPlay([ContentAwareScaleDescriptor(o)])]
  {
    OnLayer(h, o, "contentAwareScale", [ContentAwareScaleDescriptor(o)])
  }

  /** `convertToSmartObject`: select the layer and play `newPlacedLayer`. */
  function ConvertToSmartObject(h: Host, o: Options): (r: Run)
    ensures Target(h, o).None? ==> r == Missing("convertToSmartObject")
    ensures Target(h, o).Some? ==> !Threw(r) && r.actions == [SelectLayer(Target(h, o).value.id), BatchPlay([Plain("newPlacedLayer")])]
  {
    OnLayer(h, o, "convertToSmartObject", [Plain("newPlacedLayer")])
  }

  /** Every transform throws before any host action when the layer is missing. */
  lemma NoLayerNoAction(h: Host, o: Options)
    requires Target(h, o).None?
    ensures FreeTransform(h, o).actions == [] && PerspectiveTransform(h, o).actions == []
    ensures WarpTransform(h, o).actions == [] && ContentAwareScale(h, o).actions == []
    ensures ConvertToSmartObject(h, o).actions == []
  {
  }
}
