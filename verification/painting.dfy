/**
 * Painting handlers. Brush, eraser and paint-bucket handlers talk to the
 * host step by step (select the layer, then several `batchPlay` calls in
 * order), so they are methods on the `Photoshop` host that append to its
 * action log; a failure part-way leaves the earlier actions in the log.
 * `gradientDraw` plays a single descriptor and is a function.
 */
module Painting {
  import opened Wrappers
  import opened Js
  import opened Host
  import AdjustmentLayers

  /** The points used when none are given: (0, 0) to (100, 100). */
  function DefaultPoints(): Value {
    Arr([Point(N(0.0), N(0.0)), Point(N(100.0), N(100.0))])
  }

  /**
   * `points || default`, then `points.map` and `points[0]`: only a non-empty
   * array gets through; anything else raises when the stroke is built.
   */
  function StrokeInput(points: Value): (r: Result<seq<Value>, string>)
    ensures r.Ok? <==> !Truthy(points) || (points.Arr? && |points.items| > 0)
    ensures r.Ok? ==> |r.value| > 0 && (Truthy(points) ==> r.value == points.items)
    ensures r.Err? ==> r.error == TypeError
  {
    var ps := Or(points, DefaultPoints());
    if ps.Arr? && |ps.items| > 0 then Ok(ps.items) else Err(TypeError)
  }

  /** One stroke point: its position, always at full pressure. */
  function StrokePoint(p: Value): Value {
    Desc("paintPoint", map[
      "horizontal" := Unit("pixelsUnit", Member(p, "x")),
      "vertical" := Unit("pixelsUnit", Member(p, "y")),
      "pressure" := Unit("percentUnit", N(100.0))])
  }

  /** `points.map(...)`: one stroke point per point, in order, each at pressure 100 %. */
  function StrokeList(points: seq<Value>): (r: seq<Value>)
    ensures |r| == |points|
    ensures forall k :: 0 <= k < |points| ==>
      ValueAt(r[k], "horizontal") == Member(points[k], "x") && ValueAt(r[k], "vertical") == Member(points[k], "y")
      && ValueAt(r[k], "pressure") == N(100.0)
  {
    seq(|points|, k requires 0 <= k < |points| => StrokePoint(points[k]))
  }

  /**
   * The `paint` descriptor of a stroke: from the first point, to the last,
   * through every point. `extra` holds the brush's target and flow.
   */
  function PaintStroke(points: seq<Value>, opacity: Value, extra: map<string, Value>): (d: Value)
    requires |points| > 0
    ensures At(d, "from") == PaintPoint(Member(points[0], "x"), Member(points[0], "y"))
    ensures At(d, "to") == PaintPoint(Member(points[|points| - 1], "x"), Member(points[|points| - 1], "y"))
    ensures At(d, "strokeList") == Arr(StrokeList(points))
    ensures ValueAt(d, "opacity") == opacity
  {
    Desc("paint", extra
      ["mode" := Enum("blendMode", "normal")]
      ["opacity" := Unit("percentUnit", opacity)]
      ["from" := PaintPoint(Member(points[0], "x"), Member(points[0], "y"))]
      ["to" := PaintPoint(Member(points[|points| - 1], "x"), Member(points[|points| - 1], "y"))]
      ["strokeList" := Arr(StrokeList(points))])
  }

  /** `set` the foreground colour. */
  function SetForeground(c: Value): Value {
    Desc("set", map["_target" := Arr([Obj(map["_ref" := Str("color"), "_property" := Str("foregroundColor")])]),
                    "to" := Rgb(c)])
  }

  /** `set` the current brush's diameter and hardness. */
  function SetBrush(size: Value, hardness: Value): Value {
    Desc("set", map[
      "_target" := Arr([Obj(map["_ref" := Str("brush"), "_enum" := Str("ordinal"), "_value" := Str("targetEnum")])]),
      "to" := Desc("brush", map["diameter" := Unit("pixelsUnit", size), "hardness" := Unit("percentUnit", hardness)])])
  }

  /** `select` a tool. */
  function SelectTool(tool: string): Value {
    Desc("select", map["_target" := Arr([Obj(map["_ref" := Str(tool)])])])
  }

  /** The target of the brush's `paint`: the current layer. */
  function CurrentLayer(): Value {
    Arr([Obj(map["_enum" := Str("ordinal"), "_ref" := Str("layer"), "_value" := Str("targetEnum")])])
  }

  function White(): Value { Color(255.0, 255.0, 255.0) }

  /** The paint descriptor of the brush: on the current layer, with the flow. */
  function BrushPaint(points: seq<Value>, o: Options): Value
    requires |points| > 0
  {
    PaintStroke(points, Or(Get(o, "opacity"), N(100.0)),
                map["_target" := CurrentLayer(), "flow" := Unit("percentUnit", Or(Get(o, "flow"), N(100.0)))])
  }

  /** The brush set before a stroke: size 10 and hardness 100 unless given (through `||`). */
  function Brush(o: Options): Value {
    SetBrush(Or(Get(o, "brushSize"), N(10.0)), Or(Get(o, "hardness"), N(100.0)))
  }

  /**
   * `brushStroke`: select the layer, set the foreground colour (white
   * unless given), set the brush, then paint. Opacity and flow default to
   * 100 through `||`. Points that are not a non-empty array raise after the
   * brush was set.
   */
  method BrushStroke(ps: Photoshop, o: Options) returns (thrown: Option<string>)
    modifies ps
    ensures Target(ps.state, o).None? ==> ps.log == old(ps.log) && thrown == Missing("brushStroke").thrown
    ensures Target(ps.state, o).Some? ==>
      var setup := [SelectLayer(Target(ps.state, o).value.id),
                    BatchPlay([SetForeground(Or(Get(o, "color"), White()))]),
                    BatchPlay([Brush(o)])];
      match StrokeInput(Get(o, "points"))
      case Ok(points) => thrown.None? && ps.log == old(ps.log) + setup + [BatchPlay([BrushPaint(points, o)])]
      case Err(e) => thrown == Some(e) && ps.log == old(ps.log) + setup
  {
    var target := Target(ps.state, o);
    if target.None? {
      return Missing("brushStroke").thrown;
    }
    ghost var setup := [SelectLayer(target.value.id), BatchPlay([SetForeground(Or(Get(o, "color"), White()))]),
                        BatchPlay([Brush(o)])];
    ps.SelectLayer(target.value);
    ps.BatchPlay([SetForeground(Or(Get(o, "color"), White()))]);
    ps.BatchPlay([Brush(o)]);
    assert ps.log == old(ps.log) + setup;
    var points := StrokeInput(Get(o, "points"));
    if points.Err? {
      return Some(points.error);
    }
    ps.BatchPlay([BrushPaint(points.value, o)]);
    thrown := None;
  }

  /**
   * `eraserStroke`: select the layer, select the eraser, set the brush,
   * paint, and select the paintbrush again last. A failure while building
   * the stroke leaves the eraser selected.
   */
  method EraserStroke(ps: Photoshop, o: Options) returns (thrown: Option<string>)
    modifies ps
    ensures Target(ps.state, o).None? ==> ps.log == old(ps.log) && thrown == Missing("eraserStroke").thrown
    ensures Target(ps.state, o).Some? ==>
      var setup := [SelectLayer(Target(ps.state, o).value.id), BatchPlay([SelectTool("eraserTool")]), BatchPlay([Brush(o)])];
      match StrokeInput(Get(o, "points"))
      case Ok(points) =>
        thrown.None? && ps.log == old(ps.log) + setup +
          [BatchPlay([PaintStroke(points, Or(Get(o, "opacity"), N(100.0)), map[])]), BatchPlay([SelectTool("paintbrushTool")])]
      case Err(e) => thrown == Some(e) && ps.log == old(ps.log) + setup
  {
    var target := Target(ps.state, o);
    if target.None? {
      return Missing("eraserStroke").thrown;
    }
    ghost var setup := [SelectLayer(target.value.id), BatchPlay([SelectTool("eraserTool")]), BatchPlay([Brush(o)])];
    ps.SelectLayer(target.value);
    ps.BatchPlay([SelectTool("eraserTool")]);
    ps.BatchPlay([Brush(o)]);
    assert ps.log == old(ps.log) + setup;
    var points := StrokeInput(Get(o, "points"));
    if points.Err? {
      return Some(points.error);
    }
    ghost var paint := [BatchPlay([PaintStroke(points.value, Or(Get(o, "opacity"), N(100.0)), map[])])];
    ps.BatchPlay([PaintStroke(points.value, Or(Get(o, "opacity"), N(100.0)), map[])]);
    assert ps.log == old(ps.log) + setup + paint;
    ps.BatchPlay([SelectTool("paintbrushTool")]);
    thrown := None;
  }

  /** The gradient types `gradientDraw` knows; each maps to itself. */
  const GradientTypes: map<string, string> :=
    map["linear" := "linear", "radial" := "radial", "angle" := "angle", "reflected" := "reflected", "diamond" := "diamond"]

  /** `typeMap[gradientType] || "linear"`, with `gradientType` itself defaulting to "linear". */
  function GradientType(t: Value): (r: string)
    ensures r in GradientTypes.Values
    ensures t.Str? && t.s in GradientTypes ==> r == t.s
    ensures !(t.Str? && t.s in GradientTypes) ==> r == "linear"
  {
    assert GradientTypes["linear"] == "linear";
    Lookup(GradientTypes, Or(t, Str("linear")), "linear")
  }

  /**
   * `gradientDraw`: select the layer, then draw from the start point to the
   * end point with the converted stops (as the gradient-map adjustment
   * converts them). Stops that are not an array raise after the layer was
   * selected.
   */
  function GradientDraw(h: Host, o: Options): (r: Run)
    ensures Target(h, o).None? ==> r == Missing("gradientDraw")
    ensures Target(h, o).Some? ==> |r.actions| > 0 && r.actions[0] == SelectLayer(Target(h, o).value.id)
    ensures Target(h, o).Some? ==>
      (Threw(r) <==> Truthy(Get(o, "colorStops")) && !Get(o, "colorStops").Arr?)
    ensures !Threw(r) ==>
      var d := Played1(r);
      var stops := AsList(Or(Get(o, "colorStops"), AdjustmentLayers.DefaultMapStops()));
      ValueAt(d, "type") == Str(GradientType(Get(o, "gradientType")))
      && At(At(d, "gradient"), "colors") == Arr(AdjustmentLayers.MapStops(stops).0)
      && At(At(d, "gradient"), "transparency") == Arr(AdjustmentLayers.MapStops(stops).1)
  {
    var start := Or(Get(o, "startPoint"), Point(N(0.0), N(0.0)));
    var end := Or(Get(o, "endPoint"), Point(N(100.0), N(100.0)));
    Guarded(h, o, "gradientDraw",
      match Mappable(Or(Get(o, "colorStops"), AdjustmentLayers.DefaultMapStops()))
      case Err(e) => Err(e)
      case Ok(stops) =>
        var (colors, opacities) := AdjustmentLayers.MapStops(stops);
        Ok([GradientDescriptor(start, end, GradientType(Get(o, "gradientType")), colors, opacities,
                               Or(Get(o, "opacity"), N(100.0)))]))
  }

  /** The `gradientClassEvent` that draws a gradient between two points. */
  function GradientDescriptor(start: Value, end: Value, gradientType: string, colors: seq<Value>, opacities: seq<Value>,
                              opacity: Value): (d: Value)
    ensures ValueAt(d, "type") == Str(gradientType)
    ensures At(At(d, "gradient"), "colors") == Arr(colors) && At(At(d, "gradient"), "transparency") == Arr(opacities)
  {
    Desc("gradientClassEvent", map[
      "from" := PaintPoint(Member(start, "x"), Member(start, "y")),
      "to" := PaintPoint(Member(end, "x"), Member(end, "y")),
      "opacity" := Unit("percentUnit", opacity),
      "mode" := Enum("blendMode", "normal"),
      "useMask" := Bool(true),
      "dither" := Bool(true),
      "type" := Enum("gradientType", gradientType),
      "gradient" := Desc("gradientClassEvent", map[
        "colors" := Arr(colors),
        "gradientForm" := Enum("gradientForm", "customStops"),
        "interfaceIconFrameDimmed" := N(4096.0),
        "name" := Str("Custom"),
        "transparency" := Arr(opacities)])])
  }

  /** The `fill` descriptor of the paint bucket. */
  function BucketFill(o: Options): (d: Value)
    ensures At(d, "tolerance") == Defined(Get(o, "tolerance"), N(32.0))
    ensures At(d, "contiguous") == Defined(Get(o, "contiguous"), Bool(true))
    ensures At(d, "from") == PaintPoint(Or(Get(o, "x"), N(0.0)), Or(Get(o, "y"), N(0.0)))
    ensures ValueAt(d, "opacity") == Or(Get(o, "opacity"), N(100.0))
  {
    Desc("fill", map[
      "antiAlias" := Bool(true),
      "using" := Enum("fillContents", "foregroundColor"),
      "mode" := Enum("blendMode", "normal"),
      "from" := PaintPoint(Or(Get(o, "x"), N(0.0)), Or(Get(o, "y"), N(0.0))),
      "tolerance" := Defined(Get(o, "tolerance"), N(32.0)),
      "contiguous" := Defined(Get(o, "contiguous"), Bool(true)),
      "opacity" := Unit("percentUnit", Or(Get(o, "opacity"), N(100.0)))])
  }

  /** A tolerance of 0 and a non-contiguous fill are kept; only missing values take the defaults. */
  lemma BucketKeepsGivenValues(o: Options)
    requires Get(o, "tolerance") == N(0.0) && Get(o, "contiguous") == Bool(false)
    ensures At(BucketFill(o), "tolerance") == N(0.0) && At(BucketFill(o), "contiguous") == Bool(false)
  {
  }

  /**
   * `paintBucketFill`: select the layer, set the foreground colour (red by
   * default), then fill from (x, y) with the foreground colour.
   */
  method PaintBucketFill(ps: Photoshop, o: Options) returns (thrown: Option<string>)
    modifies ps
    ensures Target(ps.state, o).None? ==> ps.log == old(ps.log) && thrown == Missing("paintBucketFill").thrown
    ensures Target(ps.state, o).Some? ==>
      thrown.None? &&
      ps.log == old(ps.log) + [SelectLayer(Target(ps.state, o).value.id),
                               BatchPlay([SetForeground(Or(Get(o, "color"), Color(255.0, 0.0, 0.0)))]),
                               BatchPlay([BucketFill(o)])]
  {
    var target := Target(ps.state, o);
    if target.None? {
      return Missing("paintBucketFill").thrown;
    }
    ps.SelectLayer(target.value);
    ps.BatchPlay([SetForeground(Or(Get(o, "color"), Color(255.0, 0.0, 0.0)))]);
    ps.BatchPlay([BucketFill(o)]);
    thrown := None;
  }
}
