/**
 * Selection and channel handlers: select all, colour range, focus area, the
 * selection modifiers (grow, similar, expand, contract, feather, smooth,
 * border), saving, loading and deleting alpha channels, and transforming the
 * selection. Each plays one descriptor on the active document; the
 * selection-dependent ones throw before any host action when
 * `hasActiveSelection()` is false.
 */
module Channels {
  import opened Wrappers
  import opened Js
  import opened Host

  /** `[{_ref: "channel", _property: "selection"}]`: the selection as a target. */
  function SelectionTarget(): Value {
    Arr([Obj(map["_ref" := Str("channel"), "_property" := Str("selection")])])
  }

  /** `selectAll`: no guard; sets the selection to all pixels. */
  function SelectAll(h: Host): (r: Run)
    ensures !Threw(r) && r.actions == [BatchPlay([Played1(r)])]
    ensures At(Played1(r), "_target") == SelectionTarget()
    ensures At(Played1(r), "to") == Enum("ordinal", "allEnum")
  {
    Run([BatchPlay([Desc("set", map["_target" := SelectionTarget(), "to" := Enum("ordinal", "allEnum")])])], None)
  }

  // ---------------------------------------------------------------------
  // Colour range and focus area

  /** The colour `selectColorRange` targets: `options.color || {red: 255, green: 0, blue: 0}`. */
  function RangeColor(o: Options): (c: Value)
    ensures Truthy(Get(o, "color")) ==> c == Get(o, "color")
    ensures !Truthy(Get(o, "color")) ==> c == Color(255.0, 0.0, 0.0)
  {
    Or(Get(o, "color"), Color(255.0, 0.0, 0.0))
  }

  /**
   * The `colorRange` descriptor: the same RGB colour as minimum and maximum,
   * and the fuzziness, 40 only when undefined.
   */
  function ColorRange(o: Options): (d: Value)
    ensures At(d, "minimum") == Rgb(RangeColor(o)) && At(d, "maximum") == Rgb(RangeColor(o))
    ensures At(d, "fuzziness") == Defined(Get(o, "fuzziness"), N(40.0))
  {
    Desc("colorRange", map[
      "fuzziness" := Defined(Get(o, "fuzziness"), N(40.0)),
      "minimum" := Rgb(RangeColor(o)),
      "maximum" := Rgb(RangeColor(o))])
  }

  /** `selectColorRange`: no guard; one colour-range descriptor. */
  function SelectColorRange(h: Host, o: Options): (r: Run)
    ensures !Threw(r) && r.actions == [BatchPlay([ColorRange(o)])]
  {
    Run([BatchPlay([ColorRange(o)])], None)
  }

  /** `selectFocusArea`: no guard; the fuzziness is sent as `focusAreaParam`, 0 only when undefined. */
  function SelectFocusArea(h: Host, o: Options): (r: Run)
    ensures !Threw(r) && r.actions == [BatchPlay([Played1(r)])]
    ensures At(Played1(r), "focusAreaParam") == Defined(Get(o, "fuzziness"), N(0.0))
  {
    Run([BatchPlay([Desc("focusArea", map["focusAreaParam" := Defined(Get(o, "fuzziness"), N(0.0))])])], None)
  }

  /**
   * Through the Python tool `select_color_range`, which always sends a
   * colour dict and the fuzziness, both ends of the range are exactly that
   * colour, green sent as `grain`.
   */
  lemma ToolColorRange(h: Host, red: real, green: real, blue: real, fuzziness: real)
    ensures var d := Played1(SelectColorRange(h, map["color" := Color(red, green, blue), "fuzziness" := Num(fuzziness)]));
      At(d, "minimum") == At(d, "maximum") && At(d, "fuzziness") == Num(fuzziness)
      && At(At(d, "minimum"), "red") == Num(red) && At(At(d, "minimum"), "grain") == Num(green)
      && At(At(d, "minimum"), "blue") == Num(blue)
  {
    var o := map["color" := Color(red, green, blue), "fuzziness" := Num(fuzziness)];
    assert Get(o, "color") == Color(red, green, blue);
    assert Played(SelectColorRange(h, o)) == [ColorRange(o)];
    RgbFields(RangeColor(o));
  }

  // ---------------------------------------------------------------------
  // Grow and similar

  /** `growSelection`: throws without a selection, else one parameterless `grow`. */
  function GrowSelection(h: Host): (r: Run)
    ensures !h.selection ==> r == NoSelection("growSelection")
    ensures h.selection ==> r == Run([BatchPlay([Plain("grow")])], None)
  {
    OnSelection(h, "growSelection", [Plain("grow")])
  }

  /** `similarSelection`: throws without a selection, else one parameterless `similar`. */
  function SimilarSelection(h: Host): (r: Run)
    ensures !h.selection ==> r == NoSelection("similarSelection")
    ensures h.selection ==> r == Run([BatchPlay([Plain("similar")])], None)
  {
    OnSelection(h, "similarSelection", [Plain("similar")])
  }

  // ---------------------------------------------------------------------
  // Expand, contract, feather, smooth, border

  /** The five handlers that change the selection's edge by a pixel amount. */
  datatype Modify = Expand | Contract | Feather | Smooth | Border

  function ModifyHandler(m: Modify): string {
    match m
    case Expand => "expandSelection"
    case Contract => "contractSelection"
    case Feather => "featherSelection"
    case Smooth => "smoothSelection"
    case Border => "borderSelection"
  }

  /** The option each handler reads. */
  function ModifyOption(m: Modify): string {
    match m
    case Smooth => "sampleRadius"
    case Border => "width"
    case _ => "pixels"
  }

  /** The amount each handler uses when its option is falsy. */
  function ModifyDefault(m: Modify): real {
    match m
    case Expand => 1.0
    case Contract => 1.0
    case Feather => 5.0
    case Smooth => 2.0
    case Border => 5.0
  }

  /** The descriptor class each handler plays. */
  function ModifyObj(m: Modify): string {
    match m
    case Expand => "expand"
    case Contract => "contract"
    case Feather => "feather"
    case Smooth => "smoothness"
    case Border => "border"
  }

  /** The descriptor field that carries the amount. */
  function ModifyField(m: Modify): string {
    match m
    case Expand => "by"
    case Contract => "by"
    case Feather => "radius"
    case Smooth => "radius"
    case Border => "width"
  }

  /** The amount a modifier uses: `options[key] || default`. */
  function ModifyAmount(m: Modify, o: Options): Value {
    Or(Get(o, ModifyOption(m)), N(ModifyDefault(m)))
  }

  /** `{_obj: obj, field: {_unit: "pixelsUnit", _value: amount}}` */
  function ModifyDescriptor(m: Modify, amount: Value): (d: Value)
    ensures At(d, "_obj") == Str(ModifyObj(m))
    ensures ValueAt(d, ModifyField(m)) == amount
    ensures At(At(d, ModifyField(m)), "_unit") == Str("pixelsUnit")
  {
    Desc(ModifyObj(m), map[ModifyField(m) := Unit("pixelsUnit", amount)])
  }

  /**
   * `expandSelection`, `contractSelection`, `featherSelection`,
   * `smoothSelection`, `borderSelection`: the amount is read first, then
   * without a selection the handler throws; else it plays one descriptor
   * carrying the amount in pixels.
   */
  function ModifySelection(h: Host, o: Options, m: Modify): (r: Run)
    ensures !h.selection <==> Threw(r)
    ensures !h.selection ==> r == NoSelection(ModifyHandler(m))
    ensures h.selection ==> (r.actions == [BatchPlay([Played1(r)])]
      && At(Played1(r), "_obj") == Str(ModifyObj(m))
      && ValueAt(Played1(r), ModifyField(m)) == ModifyAmount(m, o))
  {
    var amount := ModifyAmount(m, o);
    OnSelection(h, ModifyHandler(m), [ModifyDescriptor(m, amount)])
  }

  /** A truthy amount is sent as given; a falsy one (0, "", missing) becomes the handler's default. */
  lemma ModifyAmountSent(h: Host, o: Options, m: Modify)
    requires h.selection
    ensures Truthy(Get(o, ModifyOption(m))) ==> ValueAt(Played1(ModifySelection(h, o, m)), ModifyField(m)) == Get(o, ModifyOption(m))
    ensures !Truthy(Get(o, ModifyOption(m))) ==> ValueAt(Played1(ModifySelection(h, o, m)), ModifyField(m)) == N(ModifyDefault(m))
  {
  }

  /**
   * The Python tools `expand_selection`, `contract_selection`,
   * `feather_selection`, `smooth_selection` and `border_selection` always
   * send their argument under the handler's option key.
   */
  function ToolOptions(m: Modify, x: real): Options {
    map[ModifyOption(m) := Num(x)]
  }

  /**
   * Through the Python tool the handler's default is reached only by an
   * argument of 0, and then it is the handler's default, not the tool's
   * (the tools default to 1 for every modifier).
   */
  lemma ToolZeroTakesHandlerDefault(h: Host, m: Modify, x: real)
    requires h.selection
    ensures ValueAt(Played1(ModifySelection(h, ToolOptions(m, x), m)), ModifyField(m)) == (if x == 0.0 then N(ModifyDefault(m)) else Num(x))
    ensures x == 1.0 ==> (ValueAt(Played1(ModifySelection(h, ToolOptions(m, x), m)), ModifyField(m)) == N(ModifyDefault(m)) <==> m in {Expand, Contract})
  {
    ModifyAmountSent(h, ToolOptions(m, x), m);
    assert Get(ToolOptions(m, x), ModifyOption(m)) == Num(x);
  }

  // ---------------------------------------------------------------------
  // Alpha channels

  /** The channel name save and load use: `options.channelName || "Alpha 1"`. */
  function ChannelName(o: Options): (v: Value)
    ensures Truthy(Get(o, "channelName")) ==> v == Get(o, "channelName")
    ensures !Truthy(Get(o, "channelName")) ==> v == Str("Alpha 1")
  {
    Or(Get(o, "channelName"), Str("Alpha 1"))
  }

  /** `saveSelectionAsChannel`: throws without a selection, else duplicates the selection into a channel with that name. */
  function SaveSelectionAsChannel(h: Host, o: Options): (r: Run)
    ensures !h.selection ==> r == NoSelection("saveSelectionAsChannel")
    ensures h.selection ==> (!Threw(r) && r.actions == [BatchPlay([Played1(r)])]
      && At(Played1(r), "_obj") == Str("duplicate")
      && At(Played1(r), "_target") == SelectionTarget()
      && At(Played1(r), "name") == ChannelName(o))
  {
    OnSelection(h, "saveSelectionAsChannel", [Desc("duplicate", map["_target" := SelectionTarget(), "name" := ChannelName(o)])])
  }

  /** `{_ref: "channel", _name: name}` */
  function ChannelByName(name: Value): (v: Value)
    ensures Member(v, "_name") == name && Member(v, "_ref") == Str("channel")
  {
    Obj(map["_ref" := Str("channel"), "_name" := name])
  }

  /** `loadSelectionFromChannel`: no guard; sets the selection to the named channel. */
  function LoadSelectionFromChannel(h: Host, o: Options): (r: Run)
    ensures !Threw(r) && r.actions == [BatchPlay([Played1(r)])]
    ensures At(Played1(r), "_target") == SelectionTarget()
    ensures At(Played1(r), "to") == ChannelByName(ChannelName(o))
  {
    Run([BatchPlay([Desc("set", map["_target" := SelectionTarget(), "to" := ChannelByName(ChannelName(o))])])], None)
  }

  /** `deleteChannel`: a falsy or missing name throws before any host action; else the named channel is deleted. */
  function DeleteChannel(h: Host, o: Options): (r: Run)
    ensures !Truthy(Get(o, "channelName")) <==> Threw(r)
    ensures !Truthy(Get(o, "channelName")) ==> r == Run([], Some("deleteChannel : channelName is required"))
    ensures Truthy(Get(o, "channelName")) ==> (r.actions == [BatchPlay([Played1(r)])]
      && At(Played1(r), "_obj") == Str("delete")
      && At(Played1(r), "_target") == Arr([ChannelByName(Get(o, "channelName"))]))
  {
    var name := Get(o, "channelName");
    if !Truthy(name) then Run([], Some("deleteChannel : channelName is required"))
    else Run([BatchPlay([Desc("delete", map["_target" := Arr([ChannelByName(name)])])])], None)
  }

  /** Saving and then loading with the same options names the same channel, "Alpha 1" when none is given. */
  lemma SaveThenLoadSameChannel(h: Host, o: Options)
    requires h.selection
    ensures At(Played1(SaveSelectionAsChannel(h, o)), "name")
      == Member(At(Played1(LoadSelectionFromChannel(h, o)), "to"), "_name")
    ensures !Truthy(Get(o, "channelName")) ==> At(Played1(SaveSelectionAsChannel(h, o)), "name") == Str("Alpha 1")
  {
  }

  /** Deleting needs the name given explicitly: the "Alpha 1" that save and load fall back on is not assumed. */
  lemma DeleteHasNoDefault(h: Host, o: Options)
    requires !Truthy(Get(o, "channelName"))
    ensures Threw(DeleteChannel(h, o)) && DeleteChannel(h, o).actions == []
    ensures Member(At(Played1(LoadSelectionFromChannel(h, o)), "to"), "_name") == Str("Alpha 1")
  {
  }

  // ---------------------------------------------------------------------
  // Transform selection

  /** The three values `transformSelection` reads after its guard. */
  datatype SelectionTransform = SelectionTransform(width: Value, height: Value, angle: Value)

  /** Each value defaults only when undefined: width and height 100 %, angle 0. */
  function SelectionTransformOptions(o: Options): (s: SelectionTransform)
    ensures s.width == Defined(Get(o, "width"), N(100.0))
    ensures s.height == Defined(Get(o, "height"), N(100.0))
    ensures s.angle == Defined(Get(o, "angle"), N(0.0))
  {
    SelectionTransform(Defined(Get(o, "width"), N(100.0)), Defined(Get(o, "height"), N(100.0)), Defined(Get(o, "angle"), N(0.0)))
  }

  /** The `transform` descriptor on the selection, about the centre, with bicubic interpolation. */
  function SelectionTransformDescriptor(s: SelectionTransform): (d: Value)
    ensures At(d, "_target") == SelectionTarget()
    ensures At(d, "width") == Unit("percentUnit", s.width) && At(d, "height") == Unit("percentUnit", s.height)
    ensures At(d, "angle") == Unit("angleUnit", s.angle)
  {
    Desc("transform", map[
      "freeTransformCenterState" := Enum("quadCenterState", "QCSAverage"),
      "interfaceIconFrameDimmed" := Enum("interpolationType", "bicubicAutomatic"),
      "_target" := SelectionTarget(),
      "width" := Unit("percentUnit", s.width),
      "height" := Unit("percentUnit", s.height),
      "angle" := Unit("angleUnit", s.angle)])
  }

  /** `transformSelection`: throws without a selection, else one transform of the selection. */
  function TransformSelection(h: Host, o: Options): (r: Run)
    ensures !h.selection ==> r == NoSelection("transformSelection")
    ensures h.selection ==> r == Run([BatchPlay([SelectionTransformDescriptor(SelectionTransformOptions(o))])], None)
  {
    OnSelection(h, "transformSelection", [SelectionTransformDescriptor(SelectionTransformOptions(o))])
  }

  /** With no options the transform is the identity: 100 % by 100 %, no rotation; 0 given explicitly is kept. */
  lemma TransformDefaultsIdentity(h: Host, o: Options)
    requires h.selection
    ensures o == map[] ==> var d := Played1(TransformSelection(h, o));
      ValueAt(d, "width") == N(100.0) && ValueAt(d, "height") == N(100.0) && ValueAt(d, "angle") == N(0.0)
    ensures Get(o, "width") == N(0.0) ==> ValueAt(Played1(TransformSelection(h, o)), "width") == N(0.0)
  {
    var d := SelectionTransformDescriptor(SelectionTransformOptions(o));
    assert Played(TransformSelection(h, o)) == [d];
  }

  // ---------------------------------------------------------------------
  // Which handlers depend on the selection

  /**
   * Without an active selection the nine selection-dependent handlers throw
   * their own message and issue no host action.
   */
  lemma NoSelectionNoAction(h: Host, o: Options, m: Modify)
    requires !h.selection
    ensures GrowSelection(h).actions == [] && GrowSelection(h).thrown == Some("growSelection : Requires an active selection")
    ensures SimilarSelection(h).actions == [] && Threw(SimilarSelection(h))
    ensures ModifySelection(h, o, m).actions == [] && ModifySelection(h, o, m).thrown == Some(ModifyHandler(m) + " : Requires an active selection")
    ensures SaveSelectionAsChannel(h, o).actions == [] && Threw(SaveSelectionAsChannel(h, o))
    ensures TransformSelection(h, o).actions == [] && Threw(TransformSelection(h, o))
  {
    assert "growSelection" + " : Requires an active selection" == "growSelection : Requires an active selection";
  }

  /** Select all, colour range, focus area, load and delete do not look at the selection. */
  lemma SelectionIndependent(h: Host, o: Options)
    ensures var h' := h.(selection := !h.selection);
      SelectAll(h) == SelectAll(h') && SelectColorRange(h, o) == SelectColorRange(h', o)
      && SelectFocusArea(h, o) == SelectFocusArea(h', o)
      && LoadSelectionFromChannel(h, o) == LoadSelectionFromChannel(h', o)
      && DeleteChannel(h, o) == DeleteChannel(h', o)
  {
  }
}
