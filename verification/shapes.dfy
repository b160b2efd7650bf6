/**
 * Shape handlers: each plays one `make contentLayer` descriptor whose
 * `using` is a solid-colour fill plus a shape, optionally merged with a
 * stroke style. None of them needs a layer; only `drawCustomPath` can
 * throw on its options.
 */
module Shapes {
  import opened Wrappers
  import opened Js
  import opened Host

  /** `{_obj: "make", _target: [{_ref: "contentLayer"}], using: using}` */
  function MakeContent(using: Value): Value {
    Desc("make", map["_target" := Arr([Obj(map["_ref" := Str("contentLayer")])]), "using" := using])
  }

  /** The `using` fields every shape shares: a solid-colour layer of `fill` holding `shape`. */
  function ContentLayer(fill: Value, shape: Value): map<string, Value> {
    map["_obj" := Str("contentLayer"),
        "type" := Desc("solidColorLayer", map["color" := Rgb(fill)]),
        "shape" := shape]
  }

  /** `{_obj: "solidColorLayer", color: rgb}` as a stroke content. */
  function SolidColor(c: Value): Value {
    Desc("solidColorLayer", map["color" := Rgb(c)])
  }

  /** `v > 0` after JavaScript's numeric conversion; NaN compares false. */
  predicate Positive(v: Value) {
    ToNumber(v).Num? && ToNumber(v).n > 0.0
  }

  /** The stroke style of a filled shape. */
  function StrokeStyle(color: Value, width: Value): Value {
    Desc("strokeStyle", map[
      "strokeStyleVersion" := N(2.0),
      "strokeEnabled" := Bool(true),
      "fillEnabled" := Bool(true),
      "strokeStyleLineWidth" := Unit("pixelsUnit", width),
      "strokeStyleContent" := SolidColor(color)])
  }

  /**
   * `strokeDesc`: the stroke style, present only when a stroke colour is
   * given and the width is above 0; otherwise nothing is merged.
   */
  function Stroke(o: Options): (s: map<string, Value>)
    ensures "strokeStyle" in s <==> Truthy(Get(o, "strokeColor")) && Positive(Or(Get(o, "strokeWidth"), N(0.0)))
    ensures s.Keys <= {"strokeStyle"}
  {
    var color := Or(Get(o, "strokeColor"), Null);
    var width := Or(Get(o, "strokeWidth"), N(0.0));
    if Truthy(color) && Positive(width) then map["strokeStyle" := StrokeStyle(color, width)] else map[]
  }

  /** `{...shapeDesc, ...strokeDesc}`: the merge adds the stroke and keeps every shape field. */
  lemma MergeKeepsShape(fill: Value, shape: Value, o: Options)
    ensures var using := ContentLayer(fill, shape) + Stroke(o);
      using["type"] == ContentLayer(fill, shape)["type"] && using["shape"] == shape
      && ("strokeStyle" in using <==> "strokeStyle" in Stroke(o))
  {
  }

  /** The one-descriptor run of a shape handler. */
  function Draw(using: map<string, Value>): Run {
    Run([BatchPlay([MakeContent(Obj(using))])], None)
  }

  /** The `using` a shape run made. */
  function Made(r: Run): Value {
    At(Played1(r), "using")
  }

  /** The shape a shape run made. */
  function ShapeOf(r: Run): Value {
    At(Made(r), "shape")
  }

  /** A shape run plays one descriptor, whose `using` is the merged fields. */
  lemma DrawMade(using: map<string, Value>)
    ensures !Threw(Draw(using)) && |Draw(using).actions| == 1 && Made(Draw(using)) == Obj(using)
  {
  }

  /** Merging fields other than `shape` keeps the shape. */
  lemma ShapeKept(fill: Value, shape: Value, extra: map<string, Value>)
    requires "shape" !in extra
    ensures At(Obj(ContentLayer(fill, shape) + extra), "shape") == shape
  {
  }

  /** The default bounds {0, 0, 100, 100}. */
  function DefaultBounds(): Value {
    Obj(map["top" := N(0.0), "left" := N(0.0), "bottom" := N(100.0), "right" := N(100.0)])
  }

  function White(): Value { Color(255.0, 255.0, 255.0) }

  /** The four edges of a bounds object as pixel units. */
  function Edges(bounds: Value): map<string, Value> {
    map["unitValueQuadVersion" := N(1.0),
        "top" := Unit("pixelsUnit", Member(bounds, "top")),
        "left" := Unit("pixelsUnit", Member(bounds, "left")),
        "bottom" := Unit("pixelsUnit", Member(bounds, "bottom")),
        "right" := Unit("pixelsUnit", Member(bounds, "right"))]
  }

  // ---------------------------------------------------------------------
  // Rectangle and ellipse

  /** The rectangle shape: all four corner radii equal `cornerRadius || 0`. */
  function Rectangle(bounds: Value, radius: Value): (s: Value)
    ensures forall c | c in ["topLeft", "topRight", "bottomLeft", "bottomRight"] :: ValueAt(s, c) == radius
    ensures forall e | e in ["top", "left", "bottom", "right"] :: ValueAt(s, e) == Member(bounds, e)
  {
    Desc("rectangle", Edges(bounds)["topLeft" := Unit("pixelsUnit", radius)]["topRight" := Unit("pixelsUnit", radius)]
                                   ["bottomLeft" := Unit("pixelsUnit", radius)]["bottomRight" := Unit("pixelsUnit", radius)])
  }

  /** The stroke a shape run merged in, or undefined. */
  function StrokeOf(r: Run): Value {
    At(Made(r), "strokeStyle")
  }

  /** The stroke a shape run merges: the stroke style exactly when `Stroke` has one. */
  function StrokeOrUndefined(o: Options): Value {
    if "strokeStyle" in Stroke(o) then Stroke(o)["strokeStyle"] else Undefined
  }

  /** Merging the optional stroke leaves `strokeStyle` undefined exactly when there is no stroke. */
  lemma StrokeKept(fill: Value, shape: Value, o: Options)
    ensures At(Obj(ContentLayer(fill, shape) + Stroke(o)), "strokeStyle") == StrokeOrUndefined(o)
    ensures At(At(Obj(ContentLayer(fill, shape) + Stroke(o)), "type"), "color") == Rgb(fill)
  {
  }

  /** A filled shape: fill and shape, plus the optional stroke. */
  function DrawFilled(o: Options, shape: Value): (r: Run)
    ensures !Threw(r) && |r.actions| == 1 && r.actions[0].BatchPlay?
    ensures ShapeOf(r) == shape && StrokeOf(r) == StrokeOrUndefined(o)
    ensures At(At(Made(r), "type"), "color") == Rgb(Or(Get(o, "fillColor"), White()))
  {
    var using := ContentLayer(Or(Get(o, "fillColor"), White()), shape) + Stroke(o);
    DrawMade(using);
    ShapeKept(Or(Get(o, "fillColor"), White()), shape, Stroke(o));
    StrokeKept(Or(Get(o, "fillColor"), White()), shape, o);
    Draw(using)
  }

  /**
   * `drawRectangleShape`: bounds default to {0, 0, 100, 100}, the fill to
   * white and the corner radius to 0, all through `||`.
   */
  function DrawRectangle(o: Options): (r: Run)
    ensures !Threw(r) && |r.actions| == 1
    ensures ShapeOf(r) == Rectangle(Or(Get(o, "bounds"), DefaultBounds()), Or(Get(o, "cornerRadius"), N(0.0)))
    ensures StrokeOf(r) == StrokeOrUndefined(o)
  {
    DrawFilled(o, Rectangle(Or(Get(o, "bounds"), DefaultBounds()), Or(Get(o, "cornerRadius"), N(0.0))))
  }

  /** Without options the rectangle is the square from (0, 0) to (100, 100) with square corners, and there is no stroke. */
  lemma RectangleDefaults()
    ensures var shape := Rectangle(DefaultBounds(), N(0.0));
      ValueAt(shape, "top") == ValueAt(shape, "left") == N(0.0) && ValueAt(shape, "right") == N(100.0)
      && ValueAt(shape, "topLeft") == N(0.0)
    ensures Stroke(map[]) == map[]
  {
    var shape := Rectangle(DefaultBounds(), N(0.0));
    assert "topLeft" in ["topLeft", "topRight", "bottomLeft", "bottomRight"];
    assert "top" in ["top", "left", "bottom", "right"] && "left" in ["top", "left", "bottom", "right"];
    assert "right" in ["top", "left", "bottom", "right"];
  }

  /** `drawEllipseShape`: the ellipse inscribed in the bounds, with the rectangle's defaults. */
  function DrawEllipse(o: Options): (r: Run)
    ensures !Threw(r) && |r.actions| == 1
    ensures var bounds := Or(Get(o, "bounds"), DefaultBounds());
      ShapeOf(r) == Desc("ellipse", Edges(bounds)) && ValueAt(ShapeOf(r), "bottom") == Member(bounds, "bottom")
    ensures StrokeOf(r) == StrokeOrUndefined(o)
  {
    DrawFilled(o, Desc("ellipse", Edges(Or(Get(o, "bounds"), DefaultBounds()))))
  }

  // ---------------------------------------------------------------------
  // Paths

  /** `{_obj: "pathPoint", anchor: {horizontal: x px, vertical: y px}}` */
  function Anchor(p: Value): Value {
    Desc("pathPoint", map["anchor" := PaintPoint(Member(p, "x"), Member(p, "y"))])
  }

  /** A path shape of one component made of the given subpaths. */
  function PathShape(subpaths: seq<Value>): Value {
    Desc("pathClass", map["pathComponents" := Arr([Desc("pathComponent", map[
      "shapeOperation" := Enum("shapeOperation", "add"),
      "subpathListKey" := Arr(subpaths)])])])
  }

  function Subpath(closed: Value, points: seq<Value>): (s: Value)
    ensures At(s, "closedSubpath") == closed && AsList(At(s, "points")) == points
  {
    Desc("subpathsList", map["closedSubpath" := closed, "points" := Arr(points)])
  }

  /** The subpaths of the first component of a path shape. */
  function Subpaths(shape: Value): seq<Value> {
    var components := AsList(At(shape, "pathComponents"));
    if |components| > 0 then AsList(At(components[0], "subpathListKey")) else []
  }

  lemma PathShapeSubpaths(subpaths: seq<Value>)
    ensures Subpaths(PathShape(subpaths)) == subpaths
  {
  }

  /** The stroke of a line or an arrow: round caps, no fill. */
  function LineStroke(color: Value, width: Value, fill: bool): (s: Value)
    ensures ValueAt(s, "strokeStyleLineWidth") == width && At(s, "fillEnabled") == Bool(fill)
  {
    Desc("strokeStyle", map[
      "strokeStyleVersion" := N(2.0),
      "strokeEnabled" := Bool(true),
      "fillEnabled" := Bool(fill),
      "strokeStyleLineWidth" := Unit("pixelsUnit", width),
      "strokeStyleLineCap" := Enum("strokeStyleLineCap", "strokeStyleRoundCap"),
      "strokeStyleContent" := SolidColor(color)])
  }

  /** A stroked path: the stroke colour is also the fill colour of the content layer. */
  function DrawStroked(color: Value, width: Value, fill: bool, subpaths: seq<Value>): (r: Run)
    ensures !Threw(r) && |r.actions| == 1
    ensures Subpaths(ShapeOf(r)) == subpaths
    ensures StrokeOf(r) == LineStroke(color, width, fill)
    ensures ValueAt(StrokeOf(r), "strokeStyleLineWidth") == width
  {
    var using := ContentLayer(color, PathShape(subpaths))["strokeStyle" := LineStroke(color, width, fill)];
    DrawMade(using);
    assert using == ContentLayer(color, PathShape(subpaths)) + map["strokeStyle" := LineStroke(color, width, fill)];
    ShapeKept(color, PathShape(subpaths), map["strokeStyle" := LineStroke(color, width, fill)]);
    assert At(Obj(using), "strokeStyle") == LineStroke(color, width, fill);
    PathShapeSubpaths(subpaths);
    Draw(using)
  }

  /**
   * `drawLineShape`: one open subpath with exactly two anchors, start then
   * end (defaults (0, 0) and (100, 100)); colour white and width 2 through `||`.
   */
  function DrawLine(o: Options): (r: Run)
    ensures !Threw(r) && |r.actions| == 1
    ensures var start := Or(Get(o, "startPoint"), Point(N(0.0), N(0.0)));
      var end := Or(Get(o, "endPoint"), Point(N(100.0), N(100.0)));
      Subpaths(ShapeOf(r)) == [Subpath(Bool(false), [Anchor(start), Anchor(end)])]
    ensures ValueAt(StrokeOf(r), "strokeStyleLineWidth") == Or(Get(o, "strokeWidth"), N(2.0))
  {
    var start := Or(Get(o, "startPoint"), Point(N(0.0), N(0.0)));
    var end := Or(Get(o, "endPoint"), Point(N(100.0), N(100.0)));
    DrawStroked(Or(Get(o, "strokeColor"), White()), Or(Get(o, "strokeWidth"), N(2.0)), false,
                [Subpath(Bool(false), [Anchor(start), Anchor(end)])])
  }

  // ---------------------------------------------------------------------
  // Polygon

  /** The smallest integer not below `x`. */
  function Ceil(x: real): (c: int)
    ensures c as real >= x && (c - 1) as real < x
  {
    -((-x).Floor)
  }

  /**
   * How often `for (let i = 0; i < sides; i++)` runs, with `sides` defaulting
   * to 6 through `||`: once for each natural number below `sides`.
   */
  function PolygonSides(sides: Value): (n: nat)
    ensures n > 0 ==> ToNumber(Or(sides, N(6.0))).Num? && (n - 1) as real < ToNumber(Or(sides, N(6.0))).n
    ensures ToNumber(Or(sides, N(6.0))).Num? ==> ToNumber(Or(sides, N(6.0))).n <= n as real
  {
    match ToNumber(Or(sides, N(6.0)))
    case Num(x) => if x <= 0.0 then 0 else Ceil(x)
    case _ => 0
  }

  /** A hexagon by default; a whole number of sides gives that many points. */
  lemma PolygonSidesCount(k: nat)
    ensures PolygonSides(Undefined) == 6 && PolygonSides(N(0.0)) == 6
    ensures k > 0 ==> PolygonSides(N(k as real)) == k
  {
    var n := PolygonSides(N(6.0));
    assert n >= 6 by { assert 5 < 6; }
    if k > 0 {
      var m := PolygonSides(N(k as real));
      assert (k - 1) < m;
    }
  }

  /**
   * The point-building loop of `drawPolygonShape`. `vertex(i)` stands for
   * the i-th vertex on the circle (its cosine and sine are not modelled).
   */
  method PolygonPoints(sides: Value, vertex: nat -> Value) returns (points: seq<Value>)
    ensures |points| == PolygonSides(sides)
    ensures forall k :: 0 <= k < |points| ==> points[k] == vertex(k)
  {
    var n := ToNumber(Or(sides, N(6.0)));
    points := [];
    var i: nat := 0;
    while n.Num? && (i as real) < n.n
      invariant i <= PolygonSides(sides) && |points| == i
      invariant forall k :: 0 <= k < i ==> points[k] == vertex(k)
      decreases PolygonSides(sides) - i
    {
      points := points + [vertex(i)];
      i := i + 1;
    }
  }

  /** `drawPolygonShape`: one closed subpath through the polygon's points, merged with the optional stroke. */
  method DrawPolygon(o: Options, vertex: nat -> Value) returns (r: Run)
    ensures !Threw(r) && |r.actions| == 1
    ensures Subpaths(ShapeOf(r)) ==
      [Subpath(Bool(true), seq(PolygonSides(Get(o, "sides")), k requires 0 <= k < PolygonSides(Get(o, "sides")) => Anchor(vertex(k))))]
    ensures StrokeOf(r) == StrokeOrUndefined(o)
  {
    var points := PolygonPoints(Get(o, "sides"), vertex);
    var anchors := seq(|points|, k requires 0 <= k < |points| => Anchor(points[k]));
    assert anchors == seq(PolygonSides(Get(o, "sides")), k requires 0 <= k < PolygonSides(Get(o, "sides")) => Anchor(vertex(k)));
    PathShapeSubpaths([Subpath(Bool(true), anchors)]);
    r := DrawFilled(o, PathShape([Subpath(Bool(true), anchors)]));
  }

  // ---------------------------------------------------------------------
  // Custom path

  /**
   * A handle: `leftDirection` (or `rightDirection`) as given; when that is
   * falsy and both `handleInX`/`handleInY` (or the `Out` pair) are defined,
   * a point made of them.
   */
  function Handle(p: Value, direction: string, hx: string, hy: string): (d: Value)
    ensures Truthy(Member(p, direction)) ==> d == Member(p, direction)
    ensures !Truthy(Member(p, direction)) && Member(p, hx) != Undefined && Member(p, hy) != Undefined ==>
      d == Point(Member(p, hx), Member(p, hy))
  {
    var d := Member(p, direction);
    if !Truthy(d) && Member(p, hx) != Undefined && Member(p, hy) != Undefined then Point(Member(p, hx), Member(p, hy))
    else d
  }

  function LeftHandle(p: Value): Value { Handle(p, "leftDirection", "handleInX", "handleInY") }

  function RightHandle(p: Value): Value { Handle(p, "rightDirection", "handleOutX", "handleOutY") }

  /** What one converted custom-path point holds: its anchor, and each handle exactly when it is truthy. */
  predicate IsPathPoint(p: Value, desc: Value) {
    desc.Obj? && At(desc, "_obj") == Str("pathPoint") && At(desc, "anchor") == PaintPoint(Member(p, "x"), Member(p, "y"))
    && ("leftDirection" in desc.fields <==> Truthy(LeftHandle(p)))
    && ("rightDirection" in desc.fields <==> Truthy(RightHandle(p)))
    && (Truthy(LeftHandle(p)) ==> At(desc, "leftDirection") == PaintPoint(Member(LeftHandle(p), "x"), Member(LeftHandle(p), "y")))
    && (Truthy(RightHandle(p)) ==> At(desc, "rightDirection") == PaintPoint(Member(RightHandle(p), "x"), Member(RightHandle(p), "y")))
    && desc.fields.Keys <= {"_obj", "anchor", "leftDirection", "rightDirection"}
  }

  /** The body of the `points.map` callback: build the anchor, then add each handle that is set. */
  method PathPoint(p: Value) returns (desc: Value)
    ensures IsPathPoint(p, desc)
  {
    var left := LeftHandle(p);
    var right := RightHandle(p);
    var fields := map["_obj" := Str("pathPoint"), "anchor" := PaintPoint(Member(p, "x"), Member(p, "y"))];
    if Truthy(left) {
      fields := fields["leftDirection" := PaintPoint(Member(left, "x"), Member(left, "y"))];
    }
    if Truthy(right) {
      fields := fields["rightDirection" := PaintPoint(Member(right, "x"), Member(right, "y"))];
    }
    desc := Obj(fields);
  }

  /** A point given with `leftDirection` keeps it even when `handleInX`/`handleInY` are also given. */
  lemma LeftDirectionWins(p: Value, desc: Value)
    requires IsPathPoint(p, desc) && Truthy(Member(p, "leftDirection"))
    ensures At(desc, "leftDirection") == PaintPoint(Member(Member(p, "leftDirection"), "x"), Member(Member(p, "leftDirection"), "y"))
  {
  }

  /** A point with no handle information is a plain corner: only its anchor. */
  lemma PlainCorner(p: Value, desc: Value)
    requires IsPathPoint(p, desc)
    requires !Truthy(Member(p, "leftDirection")) && !Truthy(Member(p, "rightDirection"))
    requires Member(p, "handleInX") == Undefined && Member(p, "handleOutY") == Undefined
    ensures desc.fields.Keys == {"_obj", "anchor"}
  {
  }

  /** The error `drawCustomPath` throws for fewer than two points. */
  const TooFewPoints := "drawCustomPath : At least 2 points are required"

  /** `x < 2` for the `length` read from an object: true only when `x` converts to a number below 2. */
  predicate BelowTwo(x: Value) {
    ToNumber(x).Num? && ToNumber(x).n < 2.0
  }

  /**
   * `points || []` checked with `points.length < 2`: an array or a string
   * shorter than 2 is refused, and so is an object whose own `length` member
   * is below 2; any other value passes the check and then has no `map` (only
   * arrays are mapped).
   */
  function CustomPoints(points: Value): (r: Result<seq<Value>, string>)
    ensures r.Ok? <==> points.Arr? && |points.items| >= 2
    ensures r.Ok? ==> r.value == points.items
    ensures r == Err(TooFewPoints) <==>
      !Truthy(points) || (points.Arr? && |points.items| < 2) || (points.Str? && |points.s| < 2)
      || (points.Obj? && BelowTwo(Member(points, "length")))
    ensures r.Err? ==> r.error == TooFewPoints || r.error == TypeError
  {
    var ps := Or(points, Arr([]));
    if ps.Arr? then (if |ps.items| < 2 then Err(TooFewPoints) else Ok(ps.items))
    else if ps.Str? && |ps.s| < 2 then Err(TooFewPoints)
    else if ps.Obj? && BelowTwo(Member(ps, "length")) then Err(TooFewPoints)
    else Err(TypeError)
  }

  /**
   * `drawCustomPath`: refuse fewer than two points before any host action,
   * convert every point in order, and play one subpath, closed unless
   * `closed` is given (only an undefined `closed` takes the default true).
   */
  method DrawCustomPath(o: Options) returns (r: Run)
    ensures CustomPoints(Get(o, "points")).Err? ==> r == Run([], Some(CustomPoints(Get(o, "points")).error))
    ensures CustomPoints(Get(o, "points")).Ok? ==> !Threw(r) && |r.actions| == 1 && StrokeOf(r) == StrokeOrUndefined(o)
    ensures CustomPoints(Get(o, "points")).Ok? ==>
      var input := CustomPoints(Get(o, "points")).value;
      var subpaths := Subpaths(ShapeOf(r));
      |subpaths| == 1 && At(subpaths[0], "closedSubpath") == Defined(Get(o, "closed"), Bool(true))
      && var out := AsList(At(subpaths[0], "points"));
      |out| == |input| && forall k :: 0 <= k < |input| ==> IsPathPoint(input[k], out[k])
  {
    var points := CustomPoints(Get(o, "points"));
    if points.Err? {
      return Run([], Some(points.error));
    }
    var input := points.value;
    var out := [];
    var i := 0;
    while i < |input|
      invariant 0 <= i <= |input| && |out| == i
      invariant forall k :: 0 <= k < i ==> IsPathPoint(input[k], out[k])
    {
      var desc := PathPoint(input[i]);
      out := out + [desc];
      i := i + 1;
    }
    var closed := Defined(Get(o, "closed"), Bool(true));
    PathShapeSubpaths([Subpath(closed, out)]);
    r := DrawFilled(o, PathShape([Subpath(closed, out)]));
  }

  // ---------------------------------------------------------------------
  // Arrow

  /**
   * Where the arrowhead meets the shaft and its two wing tips; they are
   * computed with a square root and are not modelled.
   */
  datatype ArrowHead = ArrowHead(base: Value, wingLeft: Value, wingRight: Value)

  /**
   * `drawArrowShape`: an open shaft from the start point to the head's base,
   * then a closed head through the end point and both wings; colour white
   * and width 2 through `||`.
   */
  function DrawArrow(o: Options, head: ArrowHead): (r: Run)
    ensures !Threw(r) && |r.actions| == 1
    ensures var start := Or(Get(o, "startPoint"), Point(N(0.0), N(0.0)));
      var end := Or(Get(o, "endPoint"), Point(N(100.0), N(100.0)));
      Subpaths(ShapeOf(r)) ==
        [Subpath(Bool(false), [Anchor(start), Anchor(head.base)]),
         Subpath(Bool(true), [Anchor(end), Anchor(head.wingLeft), Anchor(head.wingRight)])]
    ensures ValueAt(StrokeOf(r), "strokeStyleLineWidth") == Or(Get(o, "strokeWidth"), N(2.0))
  {
    var start := Or(Get(o, "startPoint"), Point(N(0.0), N(0.0)));
    var end := Or(Get(o, "endPoint"), Point(N(100.0), N(100.0)));
    DrawStroked(Or(Get(o, "strokeColor"), White()), Or(Get(o, "strokeWidth"), N(2.0)), true,
                [Subpath(Bool(false), [Anchor(start), Anchor(head.base)]),
                 Subpath(Bool(true), [Anchor(end), Anchor(head.wingLeft), Anchor(head.wingRight)])])
  }
}
