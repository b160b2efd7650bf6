/**
 * Document-level handlers of the plugin: canvas and image size, trim, crop,
 * the Firefly generators and the layer they name afterwards, switching the
 * active document, document info and the raw batchPlay pass-through.
 */
module Core {
  import opened Wrappers
  import opened Js
  import opened Host

  // ---------------------------------------------------------------------
  // Firefly content type and the generated layer

  /**
   * The content type sent to Firefly: a truthy option is lower-cased and kept
   * only when it is "photo" or "art"; everything else is "none". A truthy
   * option that is not a string has no `toLowerCase` and raises.
   */
  function ContentType(v: Value): (r: Result<string, string>)
    ensures r.Err? <==> Truthy(v) && !v.Str?
    ensures r.Ok? ==> r.value in {"photo", "art", "none"}
    ensures r == Ok("photo") <==> v.Str? && Lower(v.s) == "photo"
    ensures r == Ok("art") <==> v.Str? && Lower(v.s) == "art"
  {
    if !Truthy(v) then Ok("none")
    else match ToLower(v)
      case Err(e) => Err(e)
      case Ok(c) => if c == "photo" || c == "art" then Ok(c) else Ok("none")
  }

  /** Letter case does not matter: "PHOTO", "Photo" and "photo" all ask for photos. */
  lemma ContentTypeIgnoresCase()
    ensures ContentType(Str("PHOTO")) == Ok("photo") && ContentType(Str("Art")) == Ok("art")
    ensures ContentType(Undefined) == Ok("none") && ContentType(Str("")) == Ok("none")
  {
  }

  /** `o && o[0] ? o[0].layerID : undefined` on the reply of `batchPlay`. */
  function ReplyLayerId(reply: Value): Value {
    if reply.Arr? && |reply.items| > 0 && Truthy(reply.items[0]) then Member(reply.items[0], "layerID") else Undefined
  }

  /** Layer `k` is the first selected layer in document order. */
  predicate FirstSelectedAt(layers: seq<Layer>, k: int) {
    0 <= k < |layers| && layers[k].selected && forall j :: 0 <= j < k ==> !layers[j].selected
  }

  function FirstSelectedFrom(layers: seq<Layer>, from: nat): (r: Option<nat>)
    requires from <= |layers|
    requires forall j :: 0 <= j < from ==> !layers[j].selected
    ensures r.Some? ==> FirstSelectedAt(layers, r.value)
    ensures r.None? <==> forall j :: 0 <= j < |layers| ==> !layers[j].selected
    decreases |layers| - from
  {
    if from == |layers| then None
    else if layers[from].selected then Some(from)
    else FirstSelectedFrom(layers, from + 1)
  }

  /**
   * The layer a Firefly handler renames: the layer of the id in the reply,
   * if it resolves; else the first selected layer; else the top layer; else
   * none, which happens exactly when the document has no layers.
   */
  function GeneratedLayer(h: Host, reply: Value): (r: Option<Layer>)
    ensures r.None? <==> |h.layers| == 0
    ensures r.Some? ==> r.value in h.layers
    ensures Truthy(ReplyLayerId(reply)) && FindLayer(h, ReplyLayerId(reply)).Some? ==>
      r == FindLayer(h, ReplyLayerId(reply))
    ensures !(Truthy(ReplyLayerId(reply)) && FindLayer(h, ReplyLayerId(reply)).Some?) ==>
      (forall k :: FirstSelectedAt(h.layers, k) ==> r == Some(h.layers[k]))
    ensures (!(Truthy(ReplyLayerId(reply)) && FindLayer(h, ReplyLayerId(reply)).Some?)
             && (forall j :: 0 <= j < |h.layers| ==> !h.layers[j].selected) && |h.layers| > 0)
      ==> r == Some(h.layers[0])
  {
    var id := ReplyLayerId(reply);
    var byId := if Truthy(id) then FindLayer(h, id) else None;
    if byId.Some? then byId
    else match FirstSelectedFrom(h.layers, 0)
      case Some(k) => Some(h.layers[k])
      case None => if |h.layers| > 0 then Some(h.layers[0]) else None
  }

  /** The resolution steps of `generateImage` / `generativeFill`, as the handlers run them. */
  method ResolveGeneratedLayer(h: Host, reply: Value) returns (l: Option<Layer>)
    ensures l == GeneratedLayer(h, reply)
  {
    var id := ReplyLayerId(reply);
    l := if Truthy(id) then FindLayer(h, id) else None;
    if l.None? {
      var i := 0;
      while i < |h.layers|
        invariant 0 <= i <= |h.layers|
        invariant l.None?
        invariant forall j :: 0 <= j < i ==> !h.layers[j].selected
      {
        if h.layers[i].selected {
          l := Some(h.layers[i]);
          assert FirstSelectedAt(h.layers, i);
          break;
        }
        i := i + 1;
      }
    }
    if l.None? && |h.layers| > 0 {
      l := Some(h.layers[0]);
    }
  }

  /** The parameterised part of the Firefly style options. */
  function StyleOptions(contentType: string): Value {
    Obj(map["text_to_image_styles_options" := Obj(map[
      "text_to_image_content_type" := Str(contentType),
      "text_to_image_effects_count" := Num(0.0)])])
  }

  /** The descriptors `generateImage` plays: text to image on the document, then rasterize. */
  function TextToImage(documentId: int, prompt: Value, contentType: string): seq<Value> {
    [Desc("syntheticTextToImage", map[
       "documentID" := Num(documentId as real),
       "layerID" := Num(0.0),
       "prompt" := prompt,
       "serviceOptionsList" := Obj(map["clio" := Desc("clio", map[
         "clio_advanced_options" := StyleOptions(contentType),
         "gi_PROMPT" := prompt])]),
       "workflow" := Str("text_to_image")]),
     Desc("rasterizeLayer", map[
       "_target" := Arr([Obj(map["_enum" := Str("ordinal"), "_ref" := Str("layer"), "_value" := Str("targetEnum")])])])]
  }

  /** The descriptor `generativeFill` plays. */
  function SyntheticFill(documentId: int, layerId: Value, prompt: Value, contentType: string): Value {
    Desc("syntheticFill", map[
      "documentID" := Num(documentId as real),
      "layerID" := layerId,
      "prompt" := prompt,
      "serviceOptionsList" := Obj(map["clio" := Desc("clio", map[
        "clio_advanced_options" := StyleOptions(contentType),
        "gi_PROMPT" := prompt])]),
      "serviceVersion" := Str("clio3")])
  }

  /** `l.name = options.layerName` on the resolved layer, if there is one. */
  function Rename(l: Option<Layer>, name: Value): seq<Action> {
    if l.Some? then [RenameLayer(l.value.id, name)] else []
  }

  /**
   * `generateImage`: select all, play text-to-image with the normalised
   * content type, then rename the generated layer.
   */
  method GenerateImage(h: Host, o: Options, reply: Value) returns (r: Run)
    ensures Threw(r) <==> ContentType(Get(o, "contentType")).Err?
    ensures Threw(r) ==> r.actions == [SelectAllPixels]
    ensures !Threw(r) ==>
      r.actions == [SelectAllPixels,
                    BatchPlay(TextToImage(h.documentId, Get(o, "prompt"), ContentType(Get(o, "contentType")).value))]
                   + Rename(GeneratedLayer(h, reply), Get(o, "layerName"))
  {
    var ct := ContentType(Get(o, "contentType"));
    if ct.Err? {
      return Run([SelectAllPixels], Some(ct.error));
    }
    var l := ResolveGeneratedLayer(h, reply);
    r := Run([SelectAllPixels, BatchPlay(TextToImage(h.documentId, Get(o, "prompt"), ct.value))]
             + Rename(l, Get(o, "layerName")), None);
  }

  /**
   * `generativeFill`: the layer must resolve, then a selection must be
   * active; it fills without selecting the layer, then renames the
   * generated layer.
   */
  method GenerativeFill(h: Host, o: Options, reply: Value) returns (r: Run)
    ensures Target(h, o).None? ==> r == Missing("generativeFill")
    ensures Target(h, o).Some? && !h.selection ==>
      r == Run([], Some("generativeFill : Requires an active selection."))
    ensures Target(h, o).Some? && h.selection ==>
      (Threw(r) <==> ContentType(Get(o, "contentType")).Err?)
    ensures Threw(r) ==> r.actions == []
    ensures !Threw(r) ==>
      r.actions == [BatchPlay([SyntheticFill(h.documentId, Get(o, "layerId"), Get(o, "prompt"),
                                             ContentType(Get(o, "contentType")).value)])]
                   + Rename(GeneratedLayer(h, reply), Get(o, "layerName"))
  {
    if Target(h, o).None? {
      return Missing("generativeFill");
    }
    if !h.selection {
      return Run([], Some("generativeFill : Requires an active selection."));
    }
    var ct := ContentType(Get(o, "contentType"));
    if ct.Err? {
      return Run([], Some(ct.error));
    }
    var l := ResolveGeneratedLayer(h, reply);
    r := Run([BatchPlay([SyntheticFill(h.documentId, Get(o, "layerId"), Get(o, "prompt"), ct.value)])]
             + Rename(l, Get(o, "layerName")), None);
  }

  /** A Firefly handler renames a layer exactly when the document has one, and it renames a layer of the document. */
  lemma GeneratedLayerRenamed(h: Host, reply: Value, name: Value)
    ensures |Rename(GeneratedLayer(h, reply), name)| == (if |h.layers| > 0 then 1 else 0)
    ensures forall a :: a in Rename(GeneratedLayer(h, reply), name) ==>
      a.RenameLayer? && a.name == name && exists l :: l in h.layers && l.id == a.layerId
  {
  }

  // ---------------------------------------------------------------------
  // Documents

  /** An open document as `listOpenDocuments` reports it. */
  datatype Document = Document(id: int, path: string, saved: bool)

  /**
   * `setActiveDocument`: activate the first open document whose id is
   * `documentId`; when none matches, do nothing and raise nothing.
   */
  method SetActiveDocument(docs: seq<Document>, documentId: Value) returns (r: Run)
    ensures !Threw(r)
    ensures r.actions == [] <==> forall k :: 0 <= k < |docs| ==> Num(docs[k].id as real) != documentId
    ensures r.actions != [] ==>
      exists k :: (0 <= k < |docs| && Num(docs[k].id as real) == documentId
                   && r.actions == [ActivateDocument(docs[k].id)]
                   && forall j :: 0 <= j < k ==> Num(docs[j].id as real) != documentId)
  {
    var i := 0;
    while i < |docs|
      invariant 0 <= i <= |docs|
      invariant forall j :: 0 <= j < i ==> Num(docs[j].id as real) != documentId
    {
      if Num(docs[i].id as real) == documentId {
        return Run([ActivateDocument(docs[i].id)], None);
      }
      i := i + 1;
    }
    r := Run([], None);
  }

  /** The `saved` and `hasUnsavedChanges` entries of `getDocumentInfo`. */
  function DocumentInfo(doc: Document): (r: Value)
    ensures At(r, "saved") == Bool(|doc.path| > 0)
    ensures At(r, "hasUnsavedChanges") == Bool(!doc.saved)
  {
    Obj(map["path" := Str(doc.path), "saved" := Bool(|doc.path| > 0), "hasUnsavedChanges" := Bool(!doc.saved)])
  }

  /** `saved` only says the document has a file: a document on disk with pending edits reports both. */
  lemma SavedMeansOnDisk(doc: Document)
    requires doc.path != "" && !doc.saved
    ensures At(DocumentInfo(doc), "saved") == Bool(true)
    ensures At(DocumentInfo(doc), "hasUnsavedChanges") == Bool(true)
  {
  }

  /** `cropDocument`: crop to the selection, which must exist. */
  function CropDocument(h: Host): (r: Run)
    ensures !h.selection ==> r == NoSelection("cropDocument")
    ensures h.selection ==> r == Run([BatchPlay([Desc("crop", map["delete" := Bool(true)])])], None)
  {
    OnSelection(h, "cropDocument", [Desc("crop", map["delete" := Bool(true)])])
  }

  // ---------------------------------------------------------------------
  // Raw batchPlay

  /**
   * `executeBatchPlayCommand`: a truthy `layerId` must resolve and is then
   * selected; the caller's commands are played unchanged and the host's
   * `results` are returned.
   */
  function ExecuteBatchPlayCommand(h: Host, o: Options, results: Value): (r: (Run, Value))
    ensures !Truthy(Get(o, "layerId")) ==>
      r.0 == Run([ForwardBatchPlay(Get(o, "commands"))], None) && r.1 == results
    ensures Truthy(Get(o, "layerId")) && Target(h, o).None? ==>
      r.0 == Run([], Some("executeBatchPlayCommand: Could not find layerId: "))
    ensures Truthy(Get(o, "layerId")) && Target(h, o).Some? ==>
      r.0 == Run([SelectLayer(Target(h, o).value.id), ForwardBatchPlay(Get(o, "commands"))], None) && r.1 == results
  {
    var layerId := Or(Get(o, "layerId"), Null);
    if Truthy(layerId) then
      match FindLayer(h, layerId)
      case None => (Run([], Some("executeBatchPlayCommand: Could not find layerId: ")), Undefined)
      case Some(l) => (Run([SelectLayer(l.id), ForwardBatchPlay(Get(o, "commands"))], None), results)
    else
      (Run([ForwardBatchPlay(Get(o, "commands"))], None), results)
  }

  /** A `layerId` of 0 counts as absent, even when a layer has id 0. */
  lemma LayerIdZeroIgnored(h: Host, o: Options, results: Value)
    requires Get(o, "layerId") == Num(0.0)
    ensures ExecuteBatchPlayCommand(h, o, results).0.actions == [ForwardBatchPlay(Get(o, "commands"))]
  {
  }

  // ---------------------------------------------------------------------
  // Image and canvas size

  /**
   * `resizeImage`: width, height and resolution are added to the descriptor
   * only when truthy; proportions are constrained unless `constrain` is
   * false; interpolation defaults to "bicubicAutomatic".
   */
  method ResizeImage(o: Options) returns (r: Run)
    ensures !Threw(r) && |r.actions| == 1 && r.actions[0].BatchPlay? && |r.actions[0].descriptors| == 1
    ensures var d := r.actions[0].descriptors[0];
      d.Obj? && At(d, "_obj") == Str("imageSize")
      && ("width" in d.fields <==> Truthy(Get(o, "width")))
      && ("height" in d.fields <==> Truthy(Get(o, "height")))
      && ("resolution" in d.fields <==> Truthy(Get(o, "resolution")))
      && ("width" in d.fields ==> d.fields["width"] == Unit("pixelsUnit", Get(o, "width")))
      && ("height" in d.fields ==> d.fields["height"] == Unit("pixelsUnit", Get(o, "height")))
      && ("resolution" in d.fields ==> d.fields["resolution"] == Unit("densityUnit", Get(o, "resolution")))
      && At(d, "constrainProportions") == Bool(Get(o, "constrain") != Bool(false))
      && ValueAt(d, "interfaceIconFrameDimmed") == Or(Get(o, "interpolation"), Str("bicubicAutomatic"))
  {
    var width := Get(o, "width");
    var height := Get(o, "height");
    var resolution := Or(Get(o, "resolution"), Undefined);
    var interpolation := Or(Get(o, "interpolation"), Str("bicubicAutomatic"));
    var fields := map[
      "_obj" := Str("imageSize"),
      "constrainProportions" := Bool(NotFalse(Get(o, "constrain"))),
      "interfaceIconFrameDimmed" := EnumOf("interpolationType", interpolation)];
    if Truthy(width) {
      fields := fields["width" := Unit("pixelsUnit", width)];
    }
    if Truthy(height) {
      fields := fields["height" := Unit("pixelsUnit", height)];
    }
    if Truthy(resolution) {
      fields := fields["resolution" := Unit("densityUnit", resolution)];
    }
    r := Run([BatchPlay([Obj(fields)])], None);
  }

  /** The horizontal location of an anchor: LEFT wins over RIGHT; neither means center. */
  function Horizontal(anchor: Value): (r: Result<string, string>)
    ensures r.Err? <==> !(anchor.Str? || anchor.Arr?)
    ensures r.Ok? ==> r.value in {"left", "right", "center"}
    ensures anchor.Str? ==> r == Ok(if Contains(anchor.s, "LEFT") then "left"
                                    else if Contains(anchor.s, "RIGHT") then "right" else "center")
  {
    match Includes(anchor, "LEFT")
    case Err(e) => Err(e)
    case Ok(left) =>
      if left then Ok("left")
      else if Includes(anchor, "RIGHT") == Ok(true) then Ok("right")
      else Ok("center")
  }

  /** The vertical location of an anchor: TOP wins over BOTTOM; neither means center. */
  function Vertical(anchor: Value): (r: Result<string, string>)
    ensures r.Err? <==> !(anchor.Str? || anchor.Arr?)
    ensures r.Ok? ==> r.value in {"top", "bottom", "center"}
    ensures anchor.Str? ==> r == Ok(if Contains(anchor.s, "TOP") then "top"
                                    else if Contains(anchor.s, "BOTTOM") then "bottom" else "center")
  {
    match Includes(anchor, "TOP")
    case Err(e) => Err(e)
    case Ok(top) =>
      if top then Ok("top")
      else if Includes(anchor, "BOTTOM") == Ok(true) then Ok("bottom")
      else Ok("center")
  }

  /** The anchor `resizeCanvas` uses: the option, or "MIDDLECENTER" when it is falsy. */
  function Anchor(o: Options): Value {
    Or(Get(o, "anchor"), Str("MIDDLECENTER"))
  }

  /** An anchor's placement on the 3 x 3 grid. */
  predicate Placed(anchor: string, h: string, v: string) {
    Horizontal(Str(anchor)) == Ok(h) && Vertical(Str(anchor)) == Ok(v)
  }

  /** A missing anchor keeps the content centred both ways. */
  lemma {:induction false} AnchorDefaultCentred(o: Options)
    requires !Truthy(Get(o, "anchor"))
    ensures Horizontal(Anchor(o)) == Ok("center") && Vertical(Anchor(o)) == Ok("center")
  {
    var s := "MIDDLECENTER";
    AbsentCharNotContained(s, "LEFT", 2);
    AbsentCharNotContained(s, "RIGHT", 3);
    AbsentCharNotContained(s, "TOP", 2);
    AbsentCharNotContained(s, "BOTTOM", 0);
  }

  /** The three TOP anchors the tool advertises land on the top row, left to right. */
  lemma {:induction false} TopRowPlaced()
    ensures Placed("TOPLEFT", "left", "top")
    ensures Placed("TOPCENTER", "center", "top")
    ensures Placed("TOPRIGHT", "right", "top")
  {
    ContainsAt("TOPLEFT", "LEFT", 3);
    ContainsAt("TOPLEFT", "TOP", 0);
    AbsentCharNotContained("TOPCENTER", "LEFT", 2);
    AbsentCharNotContained("TOPCENTER", "RIGHT", 3);
    ContainsAt("TOPCENTER", "TOP", 0);
    AbsentCharNotContained("TOPRIGHT", "LEFT", 2);
    ContainsAt("TOPRIGHT", "RIGHT", 3);
    ContainsAt("TOPRIGHT", "TOP", 0);
  }

  /** The three MIDDLE anchors land on the middle row. */
  lemma {:induction false} MiddleRowPlaced()
    ensures Placed("MIDDLELEFT", "left", "center")
    ensures Placed("MIDDLECENTER", "center", "center")
    ensures Placed("MIDDLERIGHT", "right", "center")
  {
    ContainsAt("MIDDLELEFT", "LEFT", 6);
    AbsentCharNotContained("MIDDLELEFT", "TOP", 1);
    AbsentCharNotContained("MIDDLELEFT", "BOTTOM", 0);
    AbsentCharNotContained("MIDDLECENTER", "LEFT", 2);
    AbsentCharNotContained("MIDDLECENTER", "RIGHT", 3);
    AbsentCharNotContained("MIDDLECENTER", "TOP", 2);
    AbsentCharNotContained("MIDDLECENTER", "BOTTOM", 0);
    AbsentCharNotContained("MIDDLERIGHT", "LEFT", 2);
    ContainsAt("MIDDLERIGHT", "RIGHT", 6);
    AbsentCharNotContained("MIDDLERIGHT", "TOP", 1);
    AbsentCharNotContained("MIDDLERIGHT", "BOTTOM", 0);
  }

  /** The three BOTTOM anchors land on the bottom row; "BOTTOM" holds no "TOP". */
  lemma {:induction false} BottomRowPlaced()
    ensures Placed("BOTTOMLEFT", "left", "bottom")
    ensures Placed("BOTTOMCENTER", "center", "bottom")
    ensures Placed("BOTTOMRIGHT", "right", "bottom")
  {
    ContainsAt("BOTTOMLEFT", "LEFT", 6);
    AbsentCharNotContained("BOTTOMLEFT", "TOP", 2);
    ContainsAt("BOTTOMLEFT", "BOTTOM", 0);
    AbsentCharNotContained("BOTTOMCENTER", "LEFT", 2);
    AbsentCharNotContained("BOTTOMCENTER", "RIGHT", 3);
    AbsentCharNotContained("BOTTOMCENTER", "TOP", 2);
    ContainsAt("BOTTOMCENTER", "BOTTOM", 0);
    AbsentCharNotContained("BOTTOMRIGHT", "LEFT", 2);
    ContainsAt("BOTTOMRIGHT", "RIGHT", 6);
    AbsentCharNotContained("BOTTOMRIGHT", "TOP", 2);
    ContainsAt("BOTTOMRIGHT", "BOTTOM", 0);
  }

  /** The `canvasSize` descriptor; the extension colour is added only for a truthy colour. */
  function CanvasSize(width: Value, height: Value, horizontal: string, vertical: string, color: Value): (d: Value)
    ensures d.Obj? && At(d, "_obj") == Str("canvasSize")
    ensures At(d, "width") == Unit("pixelsUnit", width) && At(d, "height") == Unit("pixelsUnit", height)
    ensures At(d, "horizontal") == Enum("horizontalLocation", horizontal)
    ensures At(d, "vertical") == Enum("verticalLocation", vertical)
    ensures "canvasExtensionColor" in d.fields <==> Truthy(color)
    ensures "canvasExtensionColorType" in d.fields <==> Truthy(color)
    ensures "canvasExtensionColor" in d.fields ==> d.fields["canvasExtensionColor"] == Rgb(color)
  {
    var fields := map[
      "_obj" := Str("canvasSize"),
      "width" := Unit("pixelsUnit", width),
      "height" := Unit("pixelsUnit", height),
      "horizontal" := Enum("horizontalLocation", horizontal),
      "vertical" := Enum("verticalLocation", vertical)];
    if Truthy(color) then
      Obj(fields["canvasExtensionColorType" := Enum("canvasExtensionColorType", "color")]["canvasExtensionColor" := Rgb(color)])
    else
      Obj(fields)
  }

  /**
   * `resizeCanvas`: the anchor gives the two locations; the canvas
   * extension colour is added only when a colour is given. An anchor
   * without `includes` raises before anything is played.
   */
  method ResizeCanvas(o: Options) returns (r: Run)
    ensures Threw(r) <==> Horizontal(Anchor(o)).Err?
    ensures Threw(r) ==> r.actions == []
    ensures !Threw(r) ==> |r.actions| == 1 && r.actions[0].BatchPlay? && |r.actions[0].descriptors| == 1
    ensures !Threw(r) ==> var d := r.actions[0].descriptors[0];
      d.Obj? && At(d, "_obj") == Str("canvasSize")
      && At(d, "width") == Unit("pixelsUnit", Get(o, "width"))
      && At(d, "height") == Unit("pixelsUnit", Get(o, "height"))
      && At(d, "horizontal") == Enum("horizontalLocation", Horizontal(Anchor(o)).value)
      && At(d, "vertical") == Enum("verticalLocation", Vertical(Anchor(o)).value)
      && ("canvasExtensionColor" in d.fields <==> Truthy(Get(o, "color")))
      && ("canvasExtensionColorType" in d.fields <==> Truthy(Get(o, "color")))
      && ("canvasExtensionColor" in d.fields ==> d.fields["canvasExtensionColor"] == Rgb(Get(o, "color")))
  {
    var anchor := Anchor(o);
    var color := Or(Get(o, "color"), Null);
    var horizontal := Horizontal(anchor);
    var vertical := Vertical(anchor);
    if horizontal.Err? || vertical.Err? {
      return Run([], Some(TypeError));
    }
    r := Run([BatchPlay([CanvasSize(Get(o, "width"), Get(o, "height"), horizontal.value, vertical.value, color)])], None);
  }

  // ---------------------------------------------------------------------
  // Trim

  /** The `typeMap` of `trimDocument`. */
  const TrimTable: map<string, string> :=
    map["transparent" := "transparency", "topLeft" := "topLeftPixelColor", "bottomRight" := "bottomRightPixelColor"]

  /** `typeMap[options.trimType || "transparent"] || "transparency"`, as written. */
  function TrimBasedOn(trimType: Value): (r: string)
    ensures r in {"transparency", "topLeftPixelColor", "bottomRightPixelColor"}
    ensures r == "topLeftPixelColor" <==> trimType == Str("topLeft")
    ensures r == "bottomRightPixelColor" <==> trimType == Str("bottomRight")
  {
    Lookup(TrimTable, Or(trimType, Str("transparent")), "transparency")
  }

  /** `trimDocument`: one trim descriptor; each side is trimmed unless its option is false. */
  function TrimDocument(o: Options): (r: Run)
    ensures !Threw(r) && r.actions == [BatchPlay([Played1(r)])]
    ensures ValueAt(Played1(r), "trimBasedOn") == Str(TrimBasedOn(Get(o, "trimType")))
    ensures At(Played1(r), "top") == Bool(Get(o, "top") != Bool(false))
    ensures At(Played1(r), "left") == Bool(Get(o, "left") != Bool(false))
    ensures At(Played1(r), "bottom") == Bool(Get(o, "bottom") != Bool(false))
    ensures At(Played1(r), "right") == Bool(Get(o, "right") != Bool(false))
  {
    var d := Desc("trim", map[
      "trimBasedOn" := Enum("trimBasedOn", TrimBasedOn(Get(o, "trimType"))),
      "top" := Bool(NotFalse(Get(o, "top"))),
      "left" := Bool(NotFalse(Get(o, "left"))),
      "bottom" := Bool(NotFalse(Get(o, "bottom"))),
      "right" := Bool(NotFalse(Get(o, "right")))]);
    var r := Run([BatchPlay([d])], None);
    assert Played1(r) == d;
    r
  }

  /** The trim types the Python tool advertises and forwards unchanged. */
  const AdvertisedTrimTypes: seq<string> := ["transparent", "topLeftPixelColor", "bottomRightPixelColor"]

  /** As written, two of the three advertised trim types trim transparent pixels instead. */
  lemma AdvertisedTrimTypesIgnored()
    ensures TrimBasedOn(Str(AdvertisedTrimTypes[1])) == "transparency"
    ensures TrimBasedOn(Str(AdvertisedTrimTypes[2])) == "transparency"
  {
  }

  /** The table extended with the names the Python tool advertises. */
  function TrimBasedOnIntended(trimType: Value): (r: string)
    ensures r in {"transparency", "topLeftPixelColor", "bottomRightPixelColor"}
  {
    var table := TrimTable["topLeftPixelColor" := "topLeftPixelColor"]["bottomRightPixelColor" := "bottomRightPixelColor"];
    Lookup(table, Or(trimType, Str("transparent")), "transparency")
  }

  /** With the extended table every advertised trim type selects a different trim basis, and the plugin's own keys still work. */
  lemma IntendedTrimHonoursAdvertised(a: nat, b: nat, v: Value)
    requires a < |AdvertisedTrimTypes| && b < |AdvertisedTrimTypes|
    ensures TrimBasedOnIntended(Str(AdvertisedTrimTypes[a])) == TrimBasedOnIntended(Str(AdvertisedTrimTypes[b])) <==> a == b
    ensures TrimBasedOnIntended(Str(AdvertisedTrimTypes[a])) != "transparency" <==> a != 0
    ensures v != Str("topLeftPixelColor") && v != Str("bottomRightPixelColor") ==>
      TrimBasedOnIntended(v) == TrimBasedOn(v)
  {
    assert TrimBasedOnIntended(Str("transparent")) == "transparency";
    assert TrimBasedOnIntended(Str("topLeftPixelColor")) == "topLeftPixelColor";
    assert TrimBasedOnIntended(Str("bottomRightPixelColor")) == "bottomRightPixelColor";
  }
}
