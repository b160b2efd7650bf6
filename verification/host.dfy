/**
 * The Photoshop host as the plugin handlers use it: the layer table that
 * `findLayer` searches, the active-selection flag that `hasActiveSelection`
 * reports, and the ordered log of host actions (`selectLayer`,
 * `action.batchPlay`, a few DOM calls). What Photoshop does with an action
 * is not modelled; an action is only recorded.
 *
 * A handler is a function from the host state and its `options` to a `Run`:
 * the actions it issued, in order, and the message of the error it threw,
 * if any. Descriptors are `Js.Value` objects; `Desc` adds the `_obj` key.
 */
module Host {
  import opened Wrappers
  import opened Js

  datatype Bounds = Bounds(top: real, left: real, bottom: real, right: real)

  datatype Layer = Layer(id: int, name: string, selected: bool, bounds: Bounds)

  /** The active document: its id, its layers in document order, and whether a selection is active. */
  datatype Host = Host(documentId: int, layers: seq<Layer>, selection: bool)

  datatype Action =
    | SelectLayer(layerId: int)                            // selectLayer(layer, true)
    | BatchPlay(descriptors: seq<Value>)                   // action.batchPlay(descriptors, {})
    | ForwardBatchPlay(commands: Value)                    // action.batchPlay(options.commands, {})
    | LayerCall(layerId: int, call: string, args: seq<Value>)  // a DOM method on a layer
    | SelectAllPixels                                      // doc.selection.selectAll()
    | RenameLayer(layerId: int, name: Value)               // layer.name = ...
    | ActivateDocument(documentId: int)                    // app.activeDocument = doc

  /** What one handler call did: the host actions in order, then the error it threw, if any. */
  datatype Run = Run(actions: seq<Action>, thrown: Option<string>)

  /** The layer `findLayer(id)` returns matches `id` by strict equality. */
  predicate HasId(l: Layer, id: Value) {
    id == Num(l.id as real)
  }

  /** `findLayer(id)`: the first layer, in document order from `from`, whose id is `id`. */
  function FindFrom(layers: seq<Layer>, id: Value, from: nat): (r: Option<nat>)
    requires from <= |layers|
    ensures r.Some? ==> from <= r.value < |layers| && HasId(layers[r.value], id)
    ensures r.Some? ==> forall k :: from <= k < r.value ==> !HasId(layers[k], id)
    ensures r.None? <==> forall k :: from <= k < |layers| ==> !HasId(layers[k], id)
    decreases |layers| - from
  {
    if from == |layers| then None
    else if HasId(layers[from], id) then Some(from)
    else FindFrom(layers, id, from + 1)
  }

  function FindLayer(h: Host, id: Value): Option<Layer> {
    match FindFrom(h.layers, id, 0)
    case Some(k) => Some(h.layers[k])
    case None => None
  }

  /** The layer named by `options.layerId`. */
  function Target(h: Host, o: Options): Option<Layer> {
    FindLayer(h, Get(o, "layerId"))
  }

  /** `findLayer` succeeds exactly when some layer carries the id, and then returns the first one. */
  lemma FindLayerSpec(h: Host, id: Value)
    ensures FindLayer(h, id).Some? <==> exists l :: l in h.layers && HasId(l, id)
    ensures FindLayer(h, id).Some? ==> FindLayer(h, id).value in h.layers && HasId(FindLayer(h, id).value, id)
  {
    if l :| l in h.layers && HasId(l, id) {
      var k :| 0 <= k < |h.layers| && h.layers[k] == l;
      assert !(forall k :: 0 <= k < |h.layers| ==> !HasId(h.layers[k], id));
    }
  }

  /** The error a handler throws when `findLayer` found nothing (the interpolated id is not modelled). */
  function Missing(handler: string): Run {
    Run([], Some(handler + " : Could not find layerId : "))
  }

  /** The error a handler throws when `hasActiveSelection()` is false. */
  function NoSelection(handler: string): Run {
    Run([], Some(handler + " : Requires an active selection"))
  }

  function Threw(r: Run): bool { r.thrown.Some? }

  /**
   * The shape of most layer handlers: find the layer or throw, then select it
   * and play the descriptors.
   */
  function OnLayer(h: Host, o: Options, handler: string, descriptors: seq<Value>): (r: Run)
    ensures Target(h, o).None? <==> Threw(r)
    ensures Target(h, o).None? ==> r == Missing(handler)
    ensures Target(h, o).Some? ==> r.actions == [SelectLayer(Target(h, o).value.id), BatchPlay(descriptors)]
  {
    match Target(h, o)
    case None => Missing(handler)
    case Some(l) => Run([SelectLayer(l.id), BatchPlay(descriptors)], None)
  }

  /**
   * A layer handler whose descriptors may fail to build (a missing string
   * method, a value that is not iterable): find the layer or throw, select
   * it, then play the descriptors or throw the build error.
   */
  function Guarded(h: Host, o: Options, handler: string, body: Result<seq<Value>, string>): (r: Run)
    ensures Target(h, o).None? ==> r == Missing(handler)
    ensures Target(h, o).Some? && body.Err? ==> r == Run([SelectLayer(Target(h, o).value.id)], Some(body.error))
    ensures Target(h, o).Some? && body.Ok? ==>
      r == Run([SelectLayer(Target(h, o).value.id), BatchPlay(body.value)], None)
  {
    match Target(h, o)
    case None => Missing(handler)
    case Some(l) =>
      match body
      case Err(e) => Run([SelectLayer(l.id)], Some(e))
      case Ok(descriptors) => Run([SelectLayer(l.id), BatchPlay(descriptors)], None)
  }

  /**
   * A layer handler that prepares its descriptors before `execute` (a
   * `.map` over an option that may not be an array): find the layer or
   * throw, throw a preparation error before any host action, else select
   * the layer and play.
   */
  function Prepared(h: Host, o: Options, handler: string, prepared: Result<seq<Value>, string>): (r: Run)
    ensures Target(h, o).None? ==> r == Missing(handler)
    ensures Target(h, o).Some? && prepared.Err? ==> r == Run([], Some(prepared.error))
    ensures Target(h, o).Some? && prepared.Ok? ==> r == OnLayer(h, o, handler, prepared.value)
  {
    match Target(h, o)
    case None => Missing(handler)
    case Some(l) =>
      match prepared
      case Err(e) => Run([], Some(e))
      case Ok(descriptors) => Run([SelectLayer(l.id), BatchPlay(descriptors)], None)
  }

  /** `v.map(f)`: of the values an option can hold, only an array has a `map` method. */
  function Mappable(v: Value): Result<seq<Value>, string> {
    if v.Arr? then Ok(v.items) else Err(TypeError)
  }

  /**
   * What `for (let x of v)` walks: an array's items, or a string's
   * characters one by one; any other value is not iterable and raises.
   */
  function ForOf(v: Value): (r: Result<seq<Value>, string>)
    ensures r.Ok? <==> v.Arr? || v.Str?
    ensures v.Arr? ==> r == Ok(v.items)
  {
    match v
    case Arr(items) => Ok(items)
    case Str(s) => Ok(seq(|s|, k requires 0 <= k < |s| => Str([s[k]])))
    case _ => Err(TypeError)
  }

  /** A string is walked character by character; the empty string gives no items and raises nothing. */
  lemma ForOfString(s: string)
    ensures ForOf(Str(s)).Ok? && |ForOf(Str(s)).value| == |s|
    ensures forall k :: 0 <= k < |s| ==> ForOf(Str(s)).value[k] == Str([s[k]])
  {
  }

  /** `for (let x of "")` runs no iteration and raises nothing. */
  lemma ForOfEmptyString()
    ensures ForOf(Str("")) == Ok([])
  {
    assert |ForOf(Str("")).value| == 0;
  }

  /** The shape of the selection handlers: throw without a selection, else play. */
  function OnSelection(h: Host, handler: string, descriptors: seq<Value>): (r: Run)
    ensures !h.selection <==> Threw(r)
    ensures !h.selection ==> r == NoSelection(handler)
    ensures h.selection ==> r.actions == [BatchPlay(descriptors)]
  {
    if h.selection then Run([BatchPlay(descriptors)], None) else NoSelection(handler)
  }

  /** The descriptors of the last `batchPlay` of a run, if it issued one. */
  function Played(r: Run): seq<Value> {
    if |r.actions| > 0 && r.actions[|r.actions| - 1].BatchPlay? then r.actions[|r.actions| - 1].descriptors else []
  }

  /** The single descriptor a one-descriptor run played. */
  function Played1(r: Run): Value {
    var ds := Played(r);
    if |ds| == 1 then ds[0] else Undefined
  }

  /** `d.k` for a descriptor field. */
  function At(d: Value, k: string): Value { Member(d, k) }

  /** `d.k._value` for a `{_unit, _value}` or `{_enum, _value}` field. */
  function ValueAt(d: Value, k: string): Value { Member(Member(d, k), "_value") }

  // ---------------------------------------------------------------------
  // Descriptor builders

  /** `{_obj: obj, ...fields}` */
  function Desc(obj: string, fields: map<string, Value>): Value {
    Obj(fields["_obj" := Str(obj)])
  }

  /** A descriptor with no parameters: `{_obj: obj}`. */
  function Plain(obj: string): (d: Value)
    ensures d == Obj(map["_obj" := Str(obj)])
  {
    Desc(obj, map[])
  }

  /** `{_unit: unit, _value: v}` */
  function Unit(unit: string, v: Value): Value {
    Obj(map["_unit" := Str(unit), "_value" := v])
  }

  /** `{_enum: e, _value: v}` */
  function Enum(e: string, v: string): Value {
    Obj(map["_enum" := Str(e), "_value" := Str(v)])
  }

  /** `{_enum: e, _value: v}` for a value taken from the options as it is. */
  function EnumOf(e: string, v: Value): Value {
    Obj(map["_enum" := Str(e), "_value" := v])
  }

  function N(x: real): Value { Num(x) }

  /**
   * `{_obj: "RGBColor", red: c.red, grain: c.green, blue: c.blue}`:
   * Photoshop's descriptor names the green component `grain`.
   */
  function Rgb(c: Value): Value {
    Desc("RGBColor", map["red" := Member(c, "red"), "grain" := Member(c, "green"), "blue" := Member(c, "blue")])
  }

  /** The RGB descriptor carries red and blue as given and green under `grain`, never under `green`. */
  lemma RgbFields(c: Value)
    ensures At(Rgb(c), "red") == Member(c, "red") && At(Rgb(c), "blue") == Member(c, "blue")
    ensures At(Rgb(c), "grain") == Member(c, "green") && At(Rgb(c), "green") == Undefined
  {
  }

  /** `{red: r, green: g, blue: b}` as the handlers write their default colours. */
  function Color(r: real, g: real, b: real): Value {
    Obj(map["red" := Num(r), "green" := Num(g), "blue" := Num(b)])
  }

  /** `{x, y}` */
  function Point(x: Value, y: Value): Value {
    Obj(map["x" := x, "y" := y])
  }

  /** `{horizontal: {_unit: "pixelsUnit", _value: x}, vertical: ...}` */
  function PaintPoint(x: Value, y: Value): Value {
    Desc("paint", map["horizontal" := Unit("pixelsUnit", x), "vertical" := Unit("pixelsUnit", y)])
  }

  /** `table[key] || fallback` for a table of string values; keys are compared as strings. */
  function Lookup(table: map<string, string>, key: Value, fallback: string): (r: string)
    ensures key.Str? && key.s in table && table[key.s] != "" ==> r == table[key.s]
    ensures !(key.Str? && key.s in table) ==> r == fallback
  {
    if key.Str? && key.s in table && table[key.s] != "" then table[key.s] else fallback
  }

  // ---------------------------------------------------------------------
  // The host as an object that records actions

  /** The host seen by a handler that issues its actions one by one. */
  class Photoshop {
    const state: Host
    var log: seq<Action>

    constructor (state: Host)
      ensures this.state == state && log == []
    {
      this.state := state;
      log := [];
    }

    /** `selectLayer(layer, true)` */
    method SelectLayer(l: Layer)
      modifies this
      ensures log == old(log) + [Action.SelectLayer(l.id)]
    {
      log := log + [Action.SelectLayer(l.id)];
    }

    /** `await action.batchPlay(descriptors, {})` */
    method BatchPlay(descriptors: seq<Value>)
      modifies this
      ensures log == old(log) + [Action.BatchPlay(descriptors)]
    {
      log := log + [Action.BatchPlay(descriptors)];
    }
  }
}
