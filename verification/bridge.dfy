/**
 * The Python tool layer: each tool wraps its arguments in an envelope
 * `createCommand(operation, params)` and hands it to `sendCommand`, which
 * returns the plugin's response. The pair is one operation here: `Send`
 * appends the envelope to the log of sent envelopes and returns the scripted
 * response for that position in the log.
 *
 * JSON parameters and responses are `Js.Value`s (a Python dict is an `Obj`,
 * a list an `Arr`, `None` is `Null`).
 */
module Bridge {
  import opened Wrappers
  import opened Js

  datatype Envelope = Envelope(operation: string, params: Value)

  // ---------------------------------------------------------------------
  // Envelopes and descriptors the tools build

  /** `createCommand("executeBatchPlayCommand", {"commands": commands})` */
  function Batch(commands: seq<Value>): Envelope {
    Envelope("executeBatchPlayCommand", Obj(map["commands" := Arr(commands)]))
  }

  function I(x: int): Value { Num(x as real) }

  function Dict(obj: string, fields: map<string, Value>): Value {
    Obj(fields["_obj" := Str(obj)])
  }

  function EnumRef(e: string, v: string): Value {
    Obj(map["_enum" := Str(e), "_value" := Str(v)])
  }

  /** `{"_ref": "channel", "_enum": "channel", "_value": name}` */
  function ChannelRef(name: string): Value {
    Obj(map["_ref" := Str("channel"), "_enum" := Str("channel"), "_value" := Str(name)])
  }

  /** The descriptor `_select_layer_bp` sends: select the layer by id without making it visible. */
  function SelectById(layerId: Value): Value {
    Dict("select", map[
      "_target" := Arr([Obj(map["_ref" := Str("layer"), "_id" := layerId])]),
      "makeVisible" := Bool(false),
      "_isCommand" := Bool(true)])
  }

  /** The descriptor `merge_layers` sends for each further id. */
  function AddToSelection(layerId: Value): Value {
    Dict("select", map[
      "_target" := Arr([Obj(map["_ref" := Str("layer"), "_id" := layerId])]),
      "selectionModifier" := EnumRef("selectionModifierType", "addToSelection"),
      "makeVisible" := Bool(false),
      "_isCommand" := Bool(true)])
  }

  function MergeDescriptor(): Value {
    Dict("mergeLayersNew", map["_isCommand" := Bool(true)])
  }

  /** Target a channel of the selected layer: "mask" or the "RGB" composite. */
  function SelectChannel(name: string): Value {
    Dict("select", map[
      "_target" := Arr([ChannelRef(name)]),
      "makeVisible" := Bool(false),
      "_isCommand" := Bool(true)])
  }

  /** The selection log `merge_layers` sends for `ids`, when it sends anything. */
  function MergeLog(ids: seq<Value>): seq<Envelope>
    requires |ids| >= 2
  {
    [Batch([SelectById(ids[0])])]
    + seq(|ids| - 1, k requires 0 <= k < |ids| - 1 => Batch([AddToSelection(ids[k + 1])]))
    + [Batch([MergeDescriptor()])]
  }

  /** `merge_layers` sends n + 1 envelopes: select the first id, add every further id in order, merge last. */
  lemma MergeLogShape(ids: seq<Value>)
    requires |ids| >= 2
    ensures |MergeLog(ids)| == |ids| + 1
    ensures MergeLog(ids)[0] == Batch([SelectById(ids[0])])
    ensures forall k :: 1 <= k < |ids| ==> MergeLog(ids)[k] == Batch([AddToSelection(ids[k])])
    ensures MergeLog(ids)[|ids|] == Batch([MergeDescriptor()])
  {
    var adds := seq(|ids| - 1, k requires 0 <= k < |ids| - 1 => Batch([AddToSelection(ids[k + 1])]));
    var log := [Batch([SelectById(ids[0])])] + adds + [Batch([MergeDescriptor()])];
    assert MergeLog(ids) == log;
    forall k | 1 <= k < |ids|
      ensures log[k] == Batch([AddToSelection(ids[k])])
    {
      assert log[k] == adds[k - 1];
    }
  }

  // ---------------------------------------------------------------------
  // The gradient on a mask

  /** `type_map.get(gradient_type, "linear")` in `fill_mask_with_gradient` */
  function MaskGradientType(t: string): (r: string)
    ensures t == "angle" ==> r == "angular"
    ensures t in {"linear", "radial", "reflected", "diamond"} ==> r == t
    ensures t !in {"linear", "radial", "angle", "reflected", "diamond"} ==> r == "linear"
  {
    var typeMap := map["linear" := "linear", "radial" := "radial", "angle" := "angular",
                       "reflected" := "reflected", "diamond" := "diamond"];
    if t in typeMap then typeMap[t] else "linear"
  }

  /** The black-to-white gradient drawn on the mask from (sx, sy) to (ex, ey). */
  function MaskGradient(sx: int, sy: int, ex: int, ey: int, gradientType: string): Value {
    Dict("gradientClassEvent", map[
      "from" := Dict("paint", map["horizontal" := I(sx), "vertical" := I(sy)]),
      "to" := Dict("paint", map["horizontal" := I(ex), "vertical" := I(ey)]),
      "type" := EnumRef("gradientType", MaskGradientType(gradientType)),
      "opacity" := Obj(map["_unit" := Str("percentUnit"), "_value" := I(100)]),
      "_isCommand" := Bool(true)])
  }

  /** The four envelopes of `fill_mask_with_gradient`, in order. */
  function MaskGradientLog(layerId: int, sx: int, sy: int, ex: int, ey: int, gradientType: string): seq<Envelope> {
    [Batch([SelectById(I(layerId))]), Batch([SelectChannel("mask")]),
     Batch([MaskGradient(sx, sy, ex, ey, gradientType)]), Batch([SelectChannel("RGB")])]
  }

  /** The gradient is drawn while the mask is targeted, and the RGB composite is targeted again last. */
  lemma MaskGradientBracketed(layerId: int, sx: int, sy: int, ex: int, ey: int, gradientType: string)
    ensures var log := MaskGradientLog(layerId, sx, sy, ex, ey, gradientType);
      |log| == 4 && log[1] == Batch([SelectChannel("mask")]) && log[3] == Batch([SelectChannel("RGB")])
      && log[2].params.fields["commands"].items[0].fields["type"] == EnumRef("gradientType", MaskGradientType(gradientType))
  {
  }

  // ---------------------------------------------------------------------
  // Filter tools that select the layer first

  /** `texture_map.get(texture, 1)` in `apply_glass_distortion` */
  function TextureId(texture: string): (r: int)
    ensures 1 <= r <= 4
    ensures texture !in {"frosted", "blocks", "canvas", "tinyLens"} ==> r == 1
  {
    var textureMap := map["frosted" := 1, "blocks" := 2, "canvas" := 3, "tinyLens" := 4];
    if texture in textureMap then textureMap[texture] else 1
  }

  /** The four advertised textures get four distinct ids. */
  lemma TextureIdsDistinct(a: string, b: string)
    requires a in {"frosted", "blocks", "canvas", "tinyLens"} && b in {"frosted", "blocks", "canvas", "tinyLens"}
    ensures TextureId(a) == TextureId(b) <==> a == b
  {
  }

  /** `size_map.get(size, 1)` in `apply_ripple` */
  function RippleSize(size: string): (r: int)
    ensures 0 <= r <= 2
    ensures size !in {"small", "medium", "large"} ==> r == 1
    ensures size == "small" ==> r == 0
    ensures size == "large" ==> r == 2
  {
    var sizeMap := map["small" := 0, "medium" := 1, "large" := 2];
    if size in sizeMap then sizeMap[size] else 1
  }

  function PlasticWrap(highlightStrength: int, detail: int, smoothness: int): Value {
    Dict("plasticWrap", map["highlightStrength" := I(highlightStrength), "detail" := I(detail),
                            "smoothness" := I(smoothness), "_isCommand" := Bool(true)])
  }

  function Glass(distortion: int, smoothness: int, texture: string, scaling: int): Value {
    Dict("glass", map["distortion" := I(distortion), "smoothness" := I(smoothness),
                      "textureType" := I(TextureId(texture)), "scaling" := I(scaling),
                      "invert" := Bool(false), "_isCommand" := Bool(true)])
  }

  function Ripple(amount: int, size: string): Value {
    Dict("ripple", map["amount" := I(amount), "rippleSize" := I(RippleSize(size)), "_isCommand" := Bool(true)])
  }

  function OceanRipple(rippleSize: int, rippleMagnitude: int): Value {
    Dict("oceanRipple", map["rippleSize" := I(rippleSize), "rippleMagnitude" := I(rippleMagnitude),
                            "_isCommand" := Bool(true)])
  }

  function Chrome(detail: int, smoothness: int): Value {
    Dict("chrome", map["detail" := I(detail), "smoothness" := I(smoothness), "_isCommand" := Bool(true)])
  }

  function AddMask(using: string): Value {
    Dict("make", map["new" := Obj(map["_class" := Str("channel")]), "at" := ChannelRef("mask"),
                     "using" := EnumRef("userMaskEnabled", using), "_isCommand" := Bool(true)])
  }

  function PolarCoordinates(conversion: string): Value {
    Dict("polarCoordinates", map["conversion" := EnumRef("polarConversionType", conversion),
                                 "_isCommand" := Bool(true)])
  }

  function Pinch(amount: int): Value {
    Dict("pinch", map["amount" := I(amount), "_isCommand" := Bool(true)])
  }

  /** The slider values of one blend range, in the order the Blend If dialog shows them. */
  datatype BlendIf = BlendIf(black: int, blackFeather: int, white: int, whiteFeather: int,
                             underBlack: int, underBlackFeather: int, underWhite: int, underWhiteFeather: int)

  /** The `blendRange` entry of `set_layer_blend_if`. */
  function BlendRange(b: BlendIf): Value {
    Dict("blendRange", map[
      "channel" := Obj(map["_ref" := Str("channel"), "_enum" := Str("channel"), "_value" := Str("gray")]),
      "srcBlackMin" := I(b.black), "srcBlackMax" := I(b.blackFeather),
      "srcWhiteMin" := I(b.whiteFeather), "srcWhiteMax" := I(b.white),
      "destBlackMin" := I(b.underBlack), "destBlackMax" := I(b.underBlackFeather),
      "destWhiteMin" := I(b.underWhiteFeather), "destWhiteMax" := I(b.underWhite)])
  }

  /** Split points placed as the tool advises (feather inside the cutoff) give ordered ranges. */
  predicate Advised(b: BlendIf) {
    b.black <= b.blackFeather && b.whiteFeather <= b.white
    && b.underBlack <= b.underBlackFeather && b.underWhiteFeather <= b.underWhite
  }

  /** Each range's Min never exceeds its Max exactly when the split points are placed as advised. */
  lemma BlendRangeOrdered(b: BlendIf)
    ensures var f := BlendRange(b).fields;
      Advised(b) <==>
        f["srcBlackMin"].n <= f["srcBlackMax"].n && f["srcWhiteMin"].n <= f["srcWhiteMax"].n
        && f["destBlackMin"].n <= f["destBlackMax"].n && f["destWhiteMin"].n <= f["destWhiteMax"].n
  {
  }

  function BlendIfDescriptor(b: BlendIf): Value {
    Dict("set", map[
      "_target" := Arr([Obj(map["_ref" := Str("layer"), "_enum" := Str("ordinal"), "_value" := Str("targetEnum")])]),
      "to" := Dict("layer", map["blendRange" := Arr([BlendRange(b)])]),
      "_isCommand" := Bool(true)])
  }

  /** What `p["x"]` and `p["y"]` raise for one shear point: a non-dict is not subscriptable by a string, a dict may lack a key. */
  function PointError(p: Value): Option<string> {
    if !p.Obj? then Some("TypeError")
    else if "x" in p.fields && "y" in p.fields then None
    else Some("KeyError")
  }

  /** `{"_obj": "paint", "horizontal": p["x"], "vertical": p["y"]}` for each shear point; a point without x or y raises. */
  function ShearPoints(points: seq<Value>): (r: Result<seq<Value>, string>)
    ensures r.Ok? <==> forall k :: 0 <= k < |points| ==> points[k].Obj? && "x" in points[k].fields && "y" in points[k].fields
    ensures r.Ok? ==> |r.value| == |points|
    ensures r.Ok? ==> forall k :: 0 <= k < |points| ==>
      r.value[k] == Dict("paint", map["horizontal" := points[k].fields["x"], "vertical" := points[k].fields["y"]])
  {
    if points == [] then Ok([])
    else
      var p := points[0];
      match PointError(p)
      case Some(e) => Err(e)
      case None =>
        match ShearPoints(points[1..])
        case Err(e) => Err(e)
        case Ok(rest) => Ok([Dict("paint", map["horizontal" := p.fields["x"], "vertical" := p.fields["y"]])] + rest)
  }

  /** The comprehension stops at the first bad point and raises that point's error. */
  lemma {:induction false} ShearFirstError(points: seq<Value>)
    ensures ShearPoints(points).Err? ==>
      exists k :: 0 <= k < |points| && PointError(points[k]) == Some(ShearPoints(points).error)
                  && forall j :: 0 <= j < k ==> PointError(points[j]).None?
  {
    if points != [] && ShearPoints(points).Err? {
      if PointError(points[0]).Some? {
        assert PointError(points[0]) == Some(ShearPoints(points).error);
      } else {
        ShearFirstError(points[1..]);
        var k :| 0 <= k < |points[1..]| && PointError(points[1..][k]) == Some(ShearPoints(points[1..]).error)
                 && forall j :: 0 <= j < k ==> PointError(points[1..][j]).None?;
        assert PointError(points[k + 1]) == Some(ShearPoints(points).error);
        assert forall j :: 0 <= j < k + 1 ==> PointError(points[j]).None? by {
          forall j | 0 <= j < k + 1 ensures PointError(points[j]).None? {
            if j > 0 { assert points[j] == points[1..][j - 1]; }
          }
        }
      }
    }
  }

  /** `points` when given, else the identity line from (0, 0) to (255, 255). */
  function ShearCurve(points: Option<seq<Value>>): seq<Value> {
    match points
    case Some(ps) => ps
    case None => [Obj(map["x" := I(0), "y" := I(0)]), Obj(map["x" := I(255), "y" := I(255)])]
  }

  function Shear(curve: seq<Value>, undefinedArea: string): Value {
    Dict("shear", map["shearPoints" := Arr(curve), "undefinedArea" := EnumRef("undefinedArea", undefinedArea),
                      "_isCommand" := Bool(true)])
  }

  // ---------------------------------------------------------------------
  // Images in responses

  /** What `get_layer_image` and `get_document_image` return. */
  datatype ImageOut =
    | Jpeg(base64: string)       // Image(data=b64decode(payload), format="jpeg")
    | Passthrough(response: Value)

  const JpegPrefix := "data:image/jpeg;base64,"

  /** Python truthiness of a JSON value. */
  predicate PyTruthy(v: Value) {
    match v
    case Undefined => false
    case Null => false
    case Bool(b) => b
    case Num(n) => n != 0.0
    case NaN => true
    case Str(s) => s != ""
    case Arr(items) => items != []
    case Obj(fields) => fields != map[]
  }

  /** `d.get(k)` on a dict. */
  function PyGet(d: Value, k: string): Value
    requires d.Obj?
  {
    if k in d.fields then d.fields[k] else Null
  }

  predicate StartsWith(s: string, p: string) {
    |p| <= |s| && s[..|p|] == p
  }

  /** `s.split(",", 1)[1]`: the text after the first comma, if there is one. */
  function AfterFirstComma(s: string): Option<string> {
    if s == [] then None
    else if s[0] == ',' then Some(s[1..])
    else AfterFirstComma(s[1..])
  }

  /** A comma-free head followed by a comma is split off whole. */
  lemma {:induction false} AfterFirstCommaSkips(head: string, rest: string)
    requires ',' !in head
    ensures AfterFirstComma(head + "," + rest) == Some(rest)
  {
    if head == [] {
      assert head + "," + rest == [','] + rest;
    } else {
      assert (head + "," + rest)[1..] == head[1..] + "," + rest;
      AfterFirstCommaSkips(head[1..], rest);
    }
  }

  /** The payload of a JPEG data URL is exactly the text after its prefix. */
  lemma PayloadAfterPrefix(url: string)
    requires StartsWith(url, JpegPrefix)
    ensures AfterFirstComma(url) == Some(url[|JpegPrefix|..])
  {
    var head := "data:image/jpeg;base64";
    assert url == head + "," + url[|JpegPrefix|..];
    AfterFirstCommaSkips(head, url[|JpegPrefix|..]);
  }

  /** A response holding a JPEG data URL, per the three tests the tools make. */
  predicate HoldsJpeg(response: Value) {
    response.Obj? && PyGet(response, "status") == Str("SUCCESS") && "response" in response.fields
    && response.fields["response"].Obj?
    && PyGet(response.fields["response"], "dataUrl").Str?
    && StartsWith(PyGet(response.fields["response"], "dataUrl").s, JpegPrefix)
  }

  /**
   * The data-URL branch of `get_layer_image` / `get_document_image`. Calling
   * `.get` on something that is not a dict, or `.startswith` on a truthy
   * non-string, raises AttributeError.
   */
  function ImageFromResponse(response: Value): (r: Result<ImageOut, string>)
    ensures r.Ok? && r.value.Jpeg? <==> HoldsJpeg(response)
    ensures r.Ok? && r.value.Jpeg? ==>
      r.value.base64 == PyGet(response.fields["response"], "dataUrl").s[|JpegPrefix|..]
    ensures r.Ok? && r.value.Passthrough? ==> r.value.response == response
    ensures r.Err? ==> !HoldsJpeg(response)
  {
    if !response.Obj? then Err("AttributeError")
    else if !(PyGet(response, "status") == Str("SUCCESS") && "response" in response.fields) then Ok(Passthrough(response))
    else
      var data := response.fields["response"];
      if !data.Obj? then Err("AttributeError")
      else
        var url := PyGet(data, "dataUrl");
        if !PyTruthy(url) then Ok(Passthrough(response))
        else if !url.Str? then Err("AttributeError")
        else if !StartsWith(url.s, JpegPrefix) then Ok(Passthrough(response))
        else
          PayloadAfterPrefix(url.s);
          match AfterFirstComma(url.s)
          case Some(payload) => Ok(Jpeg(payload))
          case None => Err("IndexError")
  }

  // ---------------------------------------------------------------------
  // The tools

  /** The tool layer with its log of sent envelopes; `respond(n)` is the reply to the n-th envelope. */
  class Tools {
    const respond: nat -> Value
    var sent: seq<Envelope>

    constructor (respond: nat -> Value)
      ensures this.respond == respond && sent == []
    {
      this.respond := respond;
      sent := [];
    }

    /** `sendCommand(createCommand(operation, params))` */
    method Send(e: Envelope) returns (response: Value)
      modifies this
      ensures sent == old(sent) + [e]
      ensures response == respond(|old(sent)|)
    {
      response := respond(|sent|);
      sent := sent + [e];
    }

    /** `_select_layer_bp` and `select_layer`: one envelope selecting the layer by id. */
    method SelectLayer(layerId: int) returns (response: Value)
      modifies this
      ensures sent == old(sent) + [Batch([SelectById(I(layerId))])]
      ensures response == respond(|old(sent)|)
    {
      response := Send(Batch([SelectById(I(layerId))]));
    }

    /** A `_select_layer_bp` tool: select the layer, discard that reply, play one descriptor, return its reply. */
    method OnLayer(layerId: int, descriptor: Value) returns (response: Value)
      modifies this
      ensures sent == old(sent) + [Batch([SelectById(I(layerId))]), Batch([descriptor])]
      ensures response == respond(|old(sent)| + 1)
    {
      var _ := SelectLayer(layerId);
      response := Send(Batch([descriptor]));
    }

    /** `apply_plastic_wrap` */
    method ApplyPlasticWrap(layerId: int, highlightStrength: int, detail: int, smoothness: int) returns (response: Value)
      modifies this
      ensures sent == old(sent) + [Batch([SelectById(I(layerId))]), Batch([PlasticWrap(highlightStrength, detail, smoothness)])]
      ensures response == respond(|old(sent)| + 1)
    {
      response := OnLayer(layerId, PlasticWrap(highlightStrength, detail, smoothness));
    }

    /** `apply_glass_distortion` */
    method ApplyGlassDistortion(layerId: int, distortion: int, smoothness: int, texture: string, scaling: int) returns (response: Value)
      modifies this
      ensures sent == old(sent) + [Batch([SelectById(I(layerId))]), Batch([Glass(distortion, smoothness, texture, scaling)])]
      ensures response == respond(|old(sent)| + 1)
    {
      response := OnLayer(layerId, Glass(distortion, smoothness, texture, scaling));
    }

    /** `apply_ripple` */
    method ApplyRipple(layerId: int, amount: int, size: string) returns (response: Value)
      modifies this
      ensures sent == old(sent) + [Batch([SelectById(I(layerId))]), Batch([Ripple(amount, size)])]
      ensures response == respond(|old(sent)| + 1)
    {
      response := OnLayer(layerId, Ripple(amount, size));
    }

    /** `apply_ocean_ripple` */
    method ApplyOceanRipple(layerId: int, rippleSize: int, rippleMagnitude: int) returns (response: Value)
      modifies this
      ensures sent == old(sent) + [Batch([SelectById(I(layerId))]), Batch([OceanRipple(rippleSize, rippleMagnitude)])]
      ensures response == respond(|old(sent)| + 1)
    {
      response := OnLayer(layerId, OceanRipple(rippleSize, rippleMagnitude));
    }

    /** `apply_chrome_filter` */
    method ApplyChromeFilter(layerId: int, detail: int, smoothness: int) returns (response: Value)
      modifies this
      ensures sent == old(sent) + [Batch([SelectById(I(layerId))]), Batch([Chrome(detail, smoothness)])]
      ensures response == respond(|old(sent)| + 1)
    {
      response := OnLayer(layerId, Chrome(detail, smoothness));
    }

    /** `set_layer_blend_if` */
    method SetLayerBlendIf(layerId: int, b: BlendIf) returns (response: Value)
      modifies this
      ensures sent == old(sent) + [Batch([SelectById(I(layerId))]), Batch([BlendIfDescriptor(b)])]
      ensures response == respond(|old(sent)| + 1)
    {
      response := OnLayer(layerId, BlendIfDescriptor(b));
    }

    /** `add_layer_mask_reveal_all` */
    method AddLayerMaskRevealAll(layerId: int) returns (response: Value)
      modifies this
      ensures sent == old(sent) + [Batch([SelectById(I(layerId))]), Batch([AddMask("revealAll")])]
      ensures response == respond(|old(sent)| + 1)
    {
      response := OnLayer(layerId, AddMask("revealAll"));
    }

    /** `add_layer_mask_hide_all` */
    method AddLayerMaskHideAll(layerId: int) returns (response: Value)
      modifies this
      ensures sent == old(sent) + [Batch([SelectById(I(layerId))]), Batch([AddMask("hideAll")])]
      ensures response == respond(|old(sent)| + 1)
    {
      response := OnLayer(layerId, AddMask("hideAll"));
    }

    /** `apply_polar_coordinates` */
    method ApplyPolarCoordinates(layerId: int, conversion: string) returns (response: Value)
      modifies this
      ensures sent == old(sent) + [Batch([SelectById(I(layerId))]), Batch([PolarCoordinates(conversion)])]
      ensures response == respond(|old(sent)| + 1)
    {
      response := OnLayer(layerId, PolarCoordinates(conversion));
    }

    /** `apply_pinch` */
    method ApplyPinch(layerId: int, amount: int) returns (response: Value)
      modifies this
      ensures sent == old(sent) + [Batch([SelectById(I(layerId))]), Batch([Pinch(amount)])]
      ensures response == respond(|old(sent)| + 1)
    {
      response := OnLayer(layerId, Pinch(amount));
    }

    /** `execute_batchplay`: an empty list raises before anything is sent; otherwise the list goes out unchanged. */
    method ExecuteBatchplay(commands: seq<Value>) returns (r: Result<Value, string>)
      modifies this
      ensures commands == [] <==> r.Err?
      ensures r.Err? ==> r.error == "commands list cannot be empty" && sent == old(sent)
      ensures r.Ok? ==> sent == old(sent) + [Batch(commands)] && r.value == respond(|old(sent)|)
    {
      if commands == [] {
        return Err("commands list cannot be empty");
      }
      var response := Send(Batch(commands));
      r := Ok(response);
    }

    /**
     * `merge_layers`: fewer than two ids raise before anything is sent;
     * otherwise select, add each further id, merge, and return the merge's reply.
     */
    method MergeLayers(ids: seq<Value>) returns (r: Result<Value, string>)
      modifies this
      ensures |ids| < 2 <==> r.Err?
      ensures r.Err? ==> r.error == "Need at least 2 layer IDs to merge" && sent == old(sent)
      ensures r.Ok? ==> sent == old(sent) + MergeLog(ids)
      ensures r.Ok? ==> r.value == respond(|old(sent)| + |ids|)
    {
      if |ids| < 2 {
        return Err("Need at least 2 layer IDs to merge");
      }
      var _ := Send(Batch([SelectById(ids[0])]));
      var i := 1;
      while i < |ids|
        invariant 1 <= i <= |ids|
        invariant sent == old(sent) + [Batch([SelectById(ids[0])])]
          + seq(i - 1, k requires 0 <= k < i - 1 => Batch([AddToSelection(ids[k + 1])]))
      {
        var _ := Send(Batch([AddToSelection(ids[i])]));
        i := i + 1;
      }
      var response := Send(Batch([MergeDescriptor()]));
      r := Ok(response);
    }

    /** `select_layer_mask` / `select_layer_rgb`: select the layer, then target one of its channels. */
    method SelectLayerChannel(layerId: int, channel: string) returns (response: Value)
      modifies this
      ensures sent == old(sent) + [Batch([SelectById(I(layerId))]), Batch([SelectChannel(channel)])]
      ensures response == respond(|old(sent)| + 1)
    {
      response := OnLayer(layerId, SelectChannel(channel));
    }

    /** `fill_mask_with_gradient`: four envelopes; the gradient's reply is returned, not the last one's. */
    method FillMaskWithGradient(layerId: int, sx: int, sy: int, ex: int, ey: int, gradientType: string)
      returns (response: Value)
      modifies this
      ensures sent == old(sent) + MaskGradientLog(layerId, sx, sy, ex, ey, gradientType)
      ensures response == respond(|old(sent)| + 2)
    {
      var _ := SelectLayer(layerId);
      var _ := Send(Batch([SelectChannel("mask")]));
      response := Send(Batch([MaskGradient(sx, sy, ex, ey, gradientType)]));
      var _ := Send(Batch([SelectChannel("RGB")]));
    }

    /** `apply_shear`: the curve is converted after the layer was selected, so a bad point raises after one send. */
    method ApplyShear(layerId: int, points: Option<seq<Value>>, undefinedArea: string)
      returns (r: Result<Value, string>)
      modifies this
      ensures r.Err? <==> ShearPoints(ShearCurve(points)).Err?
      ensures r.Err? ==> sent == old(sent) + [Batch([SelectById(I(layerId))])]
      ensures r.Ok? ==> sent == old(sent) + [Batch([SelectById(I(layerId))]),
                                              Batch([Shear(ShearPoints(ShearCurve(points)).value, undefinedArea)])]
      ensures r.Ok? ==> r.value == respond(|old(sent)| + 1)
    {
      var curve := ShearCurve(points);
      var _ := SelectLayer(layerId);
      match ShearPoints(curve)
      case Err(e) =>
        r := Err(e);
      case Ok(converted) =>
        var response := Send(Batch([Shear(converted, undefinedArea)]));
        r := Ok(response);
    }

    /** `get_layer_image`: ask for the layer's pixels, then read the JPEG out of the reply. */
    method GetLayerImage(layerId: int) returns (r: Result<ImageOut, string>)
      modifies this
      ensures sent == old(sent) + [Envelope("getLayerImage", Obj(map["layerId" := I(layerId)]))]
      ensures r == ImageFromResponse(respond(|old(sent)|))
    {
      var response := Send(Envelope("getLayerImage", Obj(map["layerId" := I(layerId)])));
      r := ImageFromResponse(response);
    }

    /** `get_document_image` */
    method GetDocumentImage() returns (r: Result<ImageOut, string>)
      modifies this
      ensures sent == old(sent) + [Envelope("getDocumentImage", Obj(map[]))]
      ensures r == ImageFromResponse(respond(|old(sent)|))
    {
      var response := Send(Envelope("getDocumentImage", Obj(map[])));
      r := ImageFromResponse(response);
    }
  }
}
