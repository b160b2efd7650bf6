# Photoshop MCP bridge and UXP command handlers, modelled in Dafny

This project models the two halves of a bridge that lets an MCP client drive
Adobe Photoshop:

- **The Python tool layer** (`mcp/ps-mcp.py`). Each tool wraps its arguments in an
  envelope `createCommand(operation, params)` and hands it to `sendCommand`.
  The multi-step tools send several envelopes in a fixed order: select a layer
  by id and then play a descriptor, merge layers, and paint a gradient on a
  layer mask. Module `Bridge` models these tools as class `Bridge.Tools`. The
  class holds the log of sent envelopes and a scripted reply for each position
  in that log. Every method states the exact envelopes it appends, their order,
  and which reply it returns.
- **The UXP plugin's command handlers** (`uxp/ps/commands/*.js`). A handler
  checks its guard: the layer must exist, or a selection must be active. It then
  normalises its options, with `x || d` for some and `x !== undefined ? x : d`
  for others, and maps user strings through finite tables. Finally it plays
  Photoshop action descriptors through `batchPlay`.
  - Module `Host` models the host: a document with its layer table, a flag for
    the active selection, and the actions a handler issues (layer selections,
    `batchPlay` calls, DOM filter calls, renames).
  - A handler is a function from host and options to a `Run`. A `Run` is the
    actions issued, then the error thrown, if any.
  - Handlers that issue their actions step by step are methods. These are the
    brush, eraser and paint-bucket handlers, the generated-layer lookup,
    `setActiveDocument` and the two resize handlers. The painting methods act
    on class `Host.Photoshop`, which appends each action to its log.

Module `Js` models the JavaScript values the handlers read and the
coercions they rely on: falsiness, `||`, `!== undefined`, `toUpperCase` and
`toLowerCase` on ASCII, `includes`, `Math.round`, and the 0..100 → 0..4096
scaling of gradient-stop locations. Module `Wrappers` holds `Option` and
`Result`.
The handler modules follow the source files one to one:

| module | file |
|---|---|
| `Core` | `uxp/ps/commands/core.js` |
| `LayerStyles` | `uxp/ps/commands/layer_styles.js` |
| `AdjustmentLayers` | `uxp/ps/commands/adjustment_layers.js` |
| `Shapes` | `uxp/ps/commands/shapes.js` |
| `Painting` | `uxp/ps/commands/painting.js` |
| `Filters` | `uxp/ps/commands/filters.js` |
| `Advanced` | `uxp/ps/commands/advanced.js` |
| `Transforms` | `uxp/ps/commands/transforms.js` |
| `Channels` | `uxp/ps/commands/channels.js` |
| `Bridge` | `mcp/ps-mcp.py` |

Descriptors are `Js.Value` objects. A `{_unit, _value}` or `{_enum, _value}`
wrapper is kept in the descriptor, and `ValueAt` reads through it.

## Model

| member | source | states |
|---|---|---|
| Js.OrAgreesWithDefined | uxp/ps/commands/layer_styles.js:833-838 | `x \|\| d` and `x !== undefined ? x : d` give the same result exactly when the value is truthy or missing; they differ on a defined falsy value such as 0 or false |
| Js.Round | uxp/ps/commands/layer_styles.js:247 | `Math.round(x)` is the integer within half a unit of `x`, halves rounded up |
| Js.ScaleLocation | uxp/ps/commands/layer_styles.js:247 | a stop location is numeric exactly when the option converts to a number, and is then `round(loc * 4096 / 100)` |
| Js.ScaleLocationEnds | uxp/ps/commands/layer_styles.js:247 | location 0 % lands on 0 and 100 % on 4096 |
| Js.ScaleLocationMonotone | uxp/ps/commands/layer_styles.js:247 | the scaling is monotone on 0..100 and lands within 0..4096 |
| Host.FindFrom | uxp/ps/commands/layer_styles.js:37 | the layer lookup returns the first layer in document order whose id equals the option, and nothing exactly when no layer has that id |
| Host.FindLayerSpec | uxp/ps/commands/layer_styles.js:37-43 | the lookup succeeds exactly when some layer carries the id, and the layer it returns carries it |
| Host.OnLayer | uxp/ps/commands/layer_styles.js:37-46 | a handler throws exactly when the layer is not found, and then before any host action; otherwise it selects the layer and then plays its descriptors |
| Host.Guarded | uxp/ps/commands/layer_styles.js:37-46 | an error while building the descriptors inside `execute` is raised after the layer was selected and before `batchPlay` |
| Host.Prepared | uxp/ps/commands/adjustment_layers.js:263-278 | an error while preparing the descriptors before `execute` is raised before any host action |
| Host.OnSelection | uxp/ps/commands/channels.js:65-67 | a selection handler throws exactly when no selection is active, with no action; otherwise it plays its descriptors and nothing else |
| Host.RgbFields | uxp/ps/commands/layer_styles.js:76-81 | a colour descriptor carries red and blue under their own names and green under `grain`, never under `green` |
| Host.Lookup | uxp/ps/commands/filters.js:179-207 | `table[key] \|\| fallback` for a string key: a key with a non-empty entry gives that entry, a key the table lacks gives the fallback |
| Host.ForOf | uxp/ps/commands/layer_styles.js:236-267 | `for…of` walks exactly arrays and strings; an array yields its items; anything else raises |
| Host.ForOfString | uxp/ps/commands/layer_styles.js:236-267 | a string is walked one character at a time, one item per character, in order |
| Host.ForOfEmptyString | uxp/ps/commands/layer_styles.js:236-267 | an empty string runs no iteration and raises nothing |
| Js.WrappedNameEquals | uxp/ps/commands/layer_styles.js:143-145 | under the loose `==`, a word wrapped in one-item arrays still equals that word |
| LayerStyles.Styled | uxp/ps/commands/layer_styles.js:37-124 | no layer: the not-found error and no action; a blend mode that is not a string: the layer selected, then a TypeError; otherwise select, then one `set layerEffects` with the effect built from the lower-cased mode |
| LayerStyles.StyledSetsEffect | uxp/ps/commands/layer_styles.js:94 | a style handler that did not throw had a string blend mode, and the effect it set is the one built from that mode lower-cased |
| LayerStyles.DropShadowEffect | uxp/ps/commands/layer_styles.js:65-108 | `size` is sent as the blur, `spread` as the choke, `angle` as the local lighting angle, the colour with green under `grain`, the mode as given |
| LayerStyles.AddDropShadow | uxp/ps/commands/layer_styles.js:32-126 | the drop shadow follows the common guard order, and the angle is also sent as the global lighting angle |
| LayerStyles.InnerShadowEffect | uxp/ps/commands/layer_styles.js:330-388 | `choke` is the choke and `size` the blur; colour and mode as for the drop shadow |
| LayerStyles.AddInnerShadow | uxp/ps/commands/layer_styles.js:313-393 | the inner shadow follows the common guard order and sets `innerShadow` |
| LayerStyles.OuterGlowEffect | uxp/ps/commands/layer_styles.js:412-465 | `spread` is the choke, `size` the blur, `noise` a percentage; colour and mode as given |
| LayerStyles.AddOuterGlow | uxp/ps/commands/layer_styles.js:395-470 | the outer glow follows the common guard order and sets `outerGlow` |
| LayerStyles.SatinEffect | uxp/ps/commands/layer_styles.js:696-750 | `invert` is passed through unchanged, `size` is the blur; colour and mode as given |
| LayerStyles.AddSatin | uxp/ps/commands/layer_styles.js:679-755 | the satin follows the common guard order and sets `chromeFX` |
| LayerStyles.ColorOverlayEffect | uxp/ps/commands/layer_styles.js:774-810 | opacity, colour and mode of the solid fill are the options' |
| LayerStyles.AddColorOverlay | uxp/ps/commands/layer_styles.js:757-815 | the colour overlay follows the common guard order and sets `solidFill` |
| LayerStyles.StrokeStyle | uxp/ps/commands/layer_styles.js:141-147 | under the loose `==`, a position equal to "INSIDE" gives insetFrame, one equal to "OUTSIDE" gives outsetFrame, and every other value gives centeredFrame, each as an if-and-only-if; arrays and objects compare by their text |
| LayerStyles.StrokePositionsDistinct | uxp/ps/commands/layer_styles.js:141-147 | CENTER, INSIDE and OUTSIDE reach three different frame styles; the comparison is case-sensitive, so "inside" is centred |
| LayerStyles.WrappedPositionInset | uxp/ps/commands/layer_styles.js:143 | a position "INSIDE" wrapped in any number of one-item arrays, such as `["INSIDE"]`, is still inset under `==` |
| LayerStyles.StrokeEffect | uxp/ps/commands/layer_styles.js:154-207 | the frame style is the mapped position and the size is the option |
| LayerStyles.AddStroke | uxp/ps/commands/layer_styles.js:128-214 | the stroke follows the common guard order and sets `frameFX` |
| LayerStyles.GlowSource | uxp/ps/commands/layer_styles.js:485-488 | "center" in any letter case gives centerGlow; every other string, a missing value or a falsy value gives edgeGlow; a truthy non-string raises |
| LayerStyles.GlowSourcesAdvertised | uxp/ps/commands/layer_styles.js:485-488 | "center" and "CENTER" give centerGlow; "edge" and a missing source give edgeGlow |
| LayerStyles.InnerGlowEffect | uxp/ps/commands/layer_styles.js:494-553 | the resolved source is sent as `innerGlowSource`; `choke` is the choke and `size` the blur |
| LayerStyles.AddInnerGlow | uxp/ps/commands/layer_styles.js:472-560 | a source that is not a string raises before the layer is selected; otherwise the common guard order, with the resolved source |
| LayerStyles.BevelDirection | uxp/ps/commands/layer_styles.js:575-578 | "down" in any letter case gives stampOut; every other string or a falsy value gives stampIn; a truthy non-string raises |
| LayerStyles.BevelEffect | uxp/ps/commands/layer_styles.js:584-670 | the resolved direction is sent as the `bevelDirection` enumeration, and the two lower-cased modes as the highlight and shadow blend modes |
| LayerStyles.AddBevelEmboss | uxp/ps/commands/layer_styles.js:562-677 | no layer: the not-found error; a bad direction raises before any action; a highlight or shadow mode that is not a string raises after the layer was selected; otherwise select, then set `bevelEmboss` |
| LayerStyles.ConvertColorStops | uxp/ps/commands/layer_styles.js:236-254 | the colour-stop loop yields one converted stop per input stop, in input order |
| LayerStyles.ConvertOpacityStops | uxp/ps/commands/layer_styles.js:255-266 | the opacity-stop loop yields one converted stop per input stop, in input order |
| LayerStyles.StopOrderKept | uxp/ps/commands/layer_styles.js:247 | stops ordered within 0..100 % stay ordered within 0..4096 after conversion |
| LayerStyles.OverlayStopDefaults | uxp/ps/commands/layer_styles.js:853-869 | in the overlay a midpoint of 0 or a missing midpoint becomes 50; only a missing opacity becomes 100, and an opacity of 0 is kept |
| LayerStyles.CreateGradientLayerStyle | uxp/ps/commands/layer_styles.js:216-311 | no layer: the not-found error; otherwise the layer is selected first; it throws exactly when a stop list cannot be walked by `for…of` (neither an array nor a string) or the type is not a string; otherwise it makes the gradient layer from both converted lists, in order, and the lower-cased type |

| LayerStyles.OverlayOptions | uxp/ps/commands/layer_styles.js:833-838 | blend mode and type default to "normal" and "linear" through `\|\|` and are lower-cased; opacity, angle, scale and reverse default to 100, 90, 100 and false only when undefined |
| LayerStyles.OverlayKeepsZero | uxp/ps/commands/layer_styles.js:834-835 | an opacity or angle of 0 is kept |
| LayerStyles.OverlayBody | uxp/ps/commands/layer_styles.js:826-862 | the overlay descriptors build exactly when blend mode and type are strings after their defaults and both stop lists, each `\|\| []`, can be walked; they are then one overlay from the normalised options and both converted lists |
| LayerStyles.AddGradientOverlay | uxp/ps/commands/layer_styles.js:817-946 | the run is the guarded layer run of the overlay body: no layer gives the not-found error, otherwise the layer is selected first; with the layer found it throws exactly when the options do not normalise or a stop list (each `\|\| []`) cannot be walked, and otherwise sets one overlay |
| LayerStyles.ClearLayerStyles | uxp/ps/commands/layer_styles.js:948-979 | no layer: the not-found error; otherwise select, then one `clearLayerEffects` on the target layer |
| AdjustmentLayers.BlackAndWhite | uxp/ps/commands/adjustment_layers.js:52-82 | the colour weights are sent with green under `grain`; the tint colour and the tint flag are passed on |
| AdjustmentLayers.AddBlackAndWhite | uxp/ps/commands/adjustment_layers.js:32-88 | no layer: the not-found error and no action; otherwise select, then make the black-and-white layer |
| AdjustmentLayers.AddBrightnessContrast | uxp/ps/commands/adjustment_layers.js:90-144 | no layer: the not-found error; otherwise two descriptors, make then set, with the brightness in `brightness` and the contrast in `center` and not in `contrast` |
| AdjustmentLayers.AddVibrance | uxp/ps/commands/adjustment_layers.js:146-200 | no layer: the not-found error; otherwise make then set, with saturation and vibrance as given |
| AdjustmentLayers.AddColorBalance | uxp/ps/commands/adjustment_layers.js:202-256 | the lookup fails exactly when its own error is raised; the layer is never selected, so there is only the `batchPlay`, which sets highlights, midtones and shadows as given |
| AdjustmentLayers.CurvePoints | uxp/ps/commands/adjustment_layers.js:274-278 | one converted point per input point, in order, with input as horizontal and output as vertical |
| AdjustmentLayers.CurvesSettings | uxp/ps/commands/adjustment_layers.js:271-278 | a truthy `points` that is not an array raises; otherwise the channel defaults to "composite" and the points to the identity curve, both through `\|\|` |
| AdjustmentLayers.CurvesAdjustment | uxp/ps/commands/adjustment_layers.js:305-326 | the curves adjustment carries the channel and the converted points |
| AdjustmentLayers.CurvesDefaultIdentity | uxp/ps/commands/adjustment_layers.js:271-272 | without points or channel the settings are built on the composite channel, and the curve is (0,0) to (255,255), with horizontal equal to vertical at both points |
| AdjustmentLayers.AddCurves | uxp/ps/commands/adjustment_layers.js:258-331 | no layer: the not-found error; bad points raise before any host action; otherwise select, then make then set with the curves settings |
| AdjustmentLayers.LevelsAdjustment | uxp/ps/commands/adjustment_layers.js:346-351 | the channel defaults through `\|\|`; input is `[inputShadow, inputHighlight]` and output is `[outputShadow, outputHighlight]`, defaulting to 0 and 255 only when undefined; gamma is the midtone, default 1.0 |
| AdjustmentLayers.LevelsDefaultIdentity | uxp/ps/commands/adjustment_layers.js:347-351 | with no levels given, input and output are both [0, 255] and gamma is 1 |
| AdjustmentLayers.LevelsKeepGivenValues | uxp/ps/commands/adjustment_layers.js:348-351 | a highlight of 0 is kept, not replaced by 255 |
| AdjustmentLayers.AddLevels | uxp/ps/commands/adjustment_layers.js:333-406 | no layer: the not-found error; otherwise make then set with the one levels adjustment |
| AdjustmentLayers.AddHueSaturation | uxp/ps/commands/adjustment_layers.js:408-476 | hue, saturation and lightness default to 0 and colorize to false, each only when undefined |
| AdjustmentLayers.AddPhotoFilter | uxp/ps/commands/adjustment_layers.js:478-526 | the colour defaults to (236, 138, 0) through `\|\|`; density defaults to 25 and preserveLuminosity to true, only when undefined |
| AdjustmentLayers.MixerOptions | uxp/ps/commands/adjustment_layers.js:541-546 | outputChannel defaults to "red" through `\|\|`, so it is always truthy; red defaults to 100, green, blue and constant to 0 and monochrome to false, each only when undefined |
| AdjustmentLayers.MixerSettings | uxp/ps/commands/adjustment_layers.js:570-588 | the mixer weights are sent with green under `grain`, never under `green` |
| AdjustmentLayers.AddChannelMixer | uxp/ps/commands/adjustment_layers.js:528-594 | monochrome is sent when the layer is made and the weights in the following set |
| AdjustmentLayers.MapStops | uxp/ps/commands/adjustment_layers.js:615-639 | both stop lists have one entry per colour stop, in order; each opacity stop shares its colour stop's scaled location and is 100 % with midpoint 50 |
| AdjustmentLayers.GradientMapKind | uxp/ps/commands/adjustment_layers.js:609-639 | a truthy `colorStops` that is not an array raises; otherwise the gradient's colours and transparency are the two converted lists of the stops, defaulting through `\|\|` |
| AdjustmentLayers.DefaultMapBlackToWhite | uxp/ps/commands/adjustment_layers.js:609-612 | the default gradient map has two stops: black at location 0 and white at 4096 |
| AdjustmentLayers.MapColorStopFields | uxp/ps/commands/adjustment_layers.js:615-624 | a colour stop lands at its scaled location and carries its green under `grain` |
| AdjustmentLayers.AddGradientMap | uxp/ps/commands/adjustment_layers.js:596-675 | no layer: the not-found error; bad stops raise before any host action; otherwise select, then make the gradient map |
| AdjustmentLayers.AddPosterize | uxp/ps/commands/adjustment_layers.js:677-716 | levels default to 4 only when undefined |
| AdjustmentLayers.AddThreshold | uxp/ps/commands/adjustment_layers.js:718-757 | the level defaults to 128 only when undefined |
| AdjustmentLayers.ColorCorrection | uxp/ps/commands/adjustment_layers.js:772-776 | the colour range defaults to "reds" through `\|\|`; cyan, magenta, yellow and black default to 0 only when undefined; yellow is sent as `yellowColor` |
| AdjustmentLayers.AddSelectiveColor | uxp/ps/commands/adjustment_layers.js:759-828 | no layer: the not-found error; otherwise make then set with the one colour correction |
| AdjustmentLayers.AddExposure | uxp/ps/commands/adjustment_layers.js:830-873 | exposure and offset default to 0 and gamma to 1.0, each only when undefined |
| AdjustmentLayers.AddInvert | uxp/ps/commands/adjustment_layers.js:875-911 | no layer: the not-found error; otherwise one invert layer is made |
| AdjustmentLayers.AddSolidColorFill | uxp/ps/commands/adjustment_layers.js:913-945 | needs no layer and never throws; one make whose colour defaults to red (255, 0, 0) through `\|\|` |
| Core.ContentType | uxp/ps/commands/core.js:268-274 | a truthy content type is lower-cased and kept only when it is "photo" or "art", each as an if-and-only-if; anything else, including a missing value, is "none"; a truthy non-string raises |
| Core.ContentTypeIgnoresCase | uxp/ps/commands/core.js:268-274 | "PHOTO" gives photo and "Art" gives art; a missing or empty type gives none |
| Core.FirstSelectedFrom | uxp/ps/commands/core.js:341-349 | the scan finds the first selected layer in document order, and finds nothing exactly when no layer is selected |
| Core.GeneratedLayer | uxp/ps/commands/core.js:337-358 | the layer of the reply's truthy `layerID`, if it resolves; else the first selected layer; else the top layer; nothing exactly when the document has no layers; the result is always a layer of the document |
| Core.ResolveGeneratedLayer | uxp/ps/commands/core.js:337-353 | the loop with its early break resolves the same layer as the three-step rule |
| Core.GenerateImage | uxp/ps/commands/core.js:260-360 | selects all pixels first; throws exactly when the content type cannot be lower-cased; otherwise text-to-image with the normalised type, then at most one rename of the resolved layer |
| Core.GenerativeFill | uxp/ps/commands/core.js:362-472 | the layer must resolve, then a selection must be active, each failing with no action; the fill is played without selecting the layer; then at most one rename |
| Core.GeneratedLayerRenamed | uxp/ps/commands/core.js:355-357 | exactly one layer is renamed when the document has a layer, none otherwise, and it is a layer of the document, given the requested name |
| Core.SetActiveDocument | uxp/ps/commands/core.js:486-500 | never throws; does nothing exactly when no open document has the id; otherwise activates the first document whose id matches |
| Core.DocumentInfo | uxp/ps/commands/core.js:158-174 | `saved` reports that the document has a path; `hasUnsavedChanges` is the negation of the document's own saved flag |
| Core.SavedMeansOnDisk | uxp/ps/commands/core.js:169-170 | a document on disk with pending edits reports both `saved` and `hasUnsavedChanges` |
| Core.CropDocument | uxp/ps/commands/core.js:176-194 | no selection: the selection error and no action; otherwise one crop that deletes the cropped pixels |
| Core.ExecuteBatchPlayCommand | uxp/ps/commands/core.js:539-571 | a falsy `layerId` plays the caller's commands unchanged and returns the host's results; a truthy one must resolve or the handler throws before playing; when it resolves the layer is selected first |
| Core.LayerIdZeroIgnored | uxp/ps/commands/core.js:543 | a `layerId` of 0 counts as absent: nothing is selected and the commands are played as given |
| Core.ResizeImage | uxp/ps/commands/core.js:573-597 | one image-size descriptor; width, height and resolution appear exactly when truthy, with their units; proportions are constrained unless `constrain` is false; interpolation defaults to "bicubicAutomatic" |
| Core.Horizontal | uxp/ps/commands/core.js:613-618 | an anchor containing "LEFT" is left, else one containing "RIGHT" is right, else center; an anchor without `includes` raises |
| Core.Vertical | uxp/ps/commands/core.js:621-626 | an anchor containing "TOP" is top, else one containing "BOTTOM" is bottom, else center; an anchor without `includes` raises |
| Core.AnchorDefaultCentred | uxp/ps/commands/core.js:603 | a missing anchor becomes "MIDDLECENTER", which is centred both ways |
| Core.TopRowPlaced | uxp/ps/commands/core.js:613-626 | TOPLEFT, TOPCENTER and TOPRIGHT land on the top row at left, center and right |
| Core.MiddleRowPlaced | uxp/ps/commands/core.js:613-626 | the three MIDDLE anchors land on the middle row at left, center and right |
| Core.BottomRowPlaced | uxp/ps/commands/core.js:613-626 | the three BOTTOM anchors land on the bottom row at left, center and right |
| Core.ResizeCanvas | uxp/ps/commands/core.js:599-644 | throws exactly when the anchor has no `includes`, with no action; otherwise one canvas-size descriptor with width, height and both locations; the extension colour and its type appear exactly when a colour is given |
| Core.TrimBasedOn | uxp/ps/commands/core.js:666-683 | as written: "topLeft" and "bottomRight" are the only keys that reach the two pixel-colour bases; every other value trims transparency |
| Core.TrimDocument | uxp/ps/commands/core.js:664-695 | one trim descriptor with the looked-up basis; each side is trimmed unless its option is exactly false |
| Core.AdvertisedTrimTypesIgnored | mcp/ps-mcp.py:3333-3335 | the two pixel-colour trim types the tool advertises both trim transparency instead |
| Core.TrimBasedOnIntended | uxp/ps/commands/core.js:668-683 | corrected table: the basis is one of the three trim bases |
| Core.IntendedTrimHonoursAdvertised | mcp/ps-mcp.py:3333-3335 | with the corrected table the three advertised types reach three different bases, only "transparent" trims transparency, and every other input is treated as before |
| Filters.OnLayerCall | uxp/ps/commands/filters.js:30-43 | the handler throws exactly when the layer id is not found, with no host action; otherwise it makes exactly one DOM filter call on the found layer |
| Filters.Pick | uxp/ps/commands/filters.js:179-207 | a looked-up enumeration value is always one of the table's keys: a known string passes through unchanged, anything else falls back to the default |
| Filters.ApplyMotionBlur | uxp/ps/commands/filters.js:30-43 | a missing layer throws "Could not find layerId"; otherwise the layer's applyMotionBlur is called with angle and distance exactly as given |
| Filters.ApplyGaussianBlur | uxp/ps/commands/filters.js:45-58 | a missing layer throws; otherwise applyGaussianBlur is called with the given radius |
| Filters.NoiseDistribution | uxp/ps/commands/filters.js:70-75 | a truthy non-string distribution raises a TypeError from toUpperCase; otherwise the result is one of the two noise constants, and it is UNIFORM exactly when the upper-cased name is UNIFORM |
| Filters.ApplyNoise | uxp/ps/commands/filters.js:60-80 | a missing layer throws; a non-string distribution throws with no action; otherwise applyAddNoise gets amount defaulting to 5, the resolved distribution and monochromatic unless explicitly false |
| Filters.AdvertisedNoiseDistinct | mcp/ps-mcp.py:3349-3351 | the two advertised distributions "uniform" and "gaussian" resolve to the two different noise constants |
| Filters.NoiseDistributionCaseInsensitive | uxp/ps/commands/filters.js:71-74 | the name is matched case-insensitively ("Uniform" gives UNIFORM) and an absent name gives GAUSSIAN |
| Filters.NoiseMonochromaticUnlessFalse | uxp/ps/commands/filters.js:75 | a falsy but not false monochromatic flag (0) still means monochromatic; only false turns it off |
| Filters.ApplySharpen | uxp/ps/commands/filters.js:84-105 | a missing layer throws the not-found error with no action; a found layer never throws: it is selected, then exactly one parameterless sharpen descriptor is played |
| Filters.UnsharpMask | uxp/ps/commands/filters.js:117-133 | amount, radius and threshold are the given values when truthy, else 100, 1 and 0 |
| Filters.ApplyUnsharpMask | uxp/ps/commands/filters.js:107-138 | a missing layer throws the not-found error with no action; a found layer never throws: it is selected, then exactly the unsharp-mask descriptor is played |
| Filters.HighPass | uxp/ps/commands/filters.js:150-162 | the radius is the given one when truthy, else 10 |
| Filters.ApplyHighPass | uxp/ps/commands/filters.js:140-167 | a missing layer throws the not-found error with no action; a found layer never throws: it is selected, then exactly the high-pass descriptor is played |
| Filters.RadialBlur | uxp/ps/commands/filters.js:179-209 | amount defaults to 10; the method and quality are table keys, falling back to spin and good for unknown names |
| Filters.ApplyRadialBlur | uxp/ps/commands/filters.js:169-214 | a missing layer throws the not-found error with no action; a found layer never throws: it is selected, then exactly the radial-blur descriptor is played |
| Filters.AdvertisedRadialBlurKept | mcp/ps-mcp.py:3308-3314 | every advertised method and quality reaches the descriptor unchanged |
| Filters.SurfaceBlur | uxp/ps/commands/filters.js:226-237 | radius and threshold default to 5 and 15 |
| Filters.ApplySurfaceBlur | uxp/ps/commands/filters.js:216-242 | a missing layer throws the not-found error with no action; a found layer never throws: it is selected, then exactly the surface-blur descriptor is played |
| Filters.LensBlur | uxp/ps/commands/filters.js:254-277 | focal distance and noise amount are fixed at 0; radius, brightness and threshold default to 15, 0 and 0 |
| Filters.ApplyLensBlur | uxp/ps/commands/filters.js:244-282 | a missing layer throws the not-found error with no action; a found layer never throws: it is selected, then exactly the lens-blur descriptor is played |
| Filters.SmartSharpen | uxp/ps/commands/filters.js:294-321 | amount, radius and noise reduction default to 100, 1 and 0; the removed blur is a table key, falling back to gaussianBlur |
| Filters.ApplySmartSharpen | uxp/ps/commands/filters.js:284-326 | a missing layer throws the not-found error with no action; a found layer never throws: it is selected, then exactly the smart-sharpen descriptor is played |
| Filters.AdvertisedRemoveTypesKept | mcp/ps-mcp.py:3304-3306 | every advertised remove type reaches the descriptor unchanged |
| Filters.OilPaint | uxp/ps/commands/filters.js:338-362 | lighting is on unless explicitly false; shine, stylization, cleanliness, scale, bristle detail and light direction default to 0.5, 4, 5, 0.5, 2 and 0 |
| Filters.ApplyOilPaint | uxp/ps/commands/filters.js:328-367 | a missing layer throws the not-found error with no action; a found layer never throws: it is selected, then exactly one oil-paint filter event wrapping the oil-paint descriptor is played |
| Filters.Emboss | uxp/ps/commands/filters.js:379-395 | angle, height and amount default to 135, 3 and 100 |
| Filters.ApplyEmboss | uxp/ps/commands/filters.js:369-400 | a missing layer throws the not-found error with no action; a found layer never throws: it is selected, then exactly the emboss descriptor is played |
| Filters.ApplyFindEdges | uxp/ps/commands/filters.js:402-423 | a missing layer throws the not-found error with no action; a found layer never throws: it is selected, then exactly one parameterless find-edges descriptor is played |
| Filters.Pixelate | uxp/ps/commands/filters.js:435-447 | the cell size defaults to 10 |
| Filters.ApplyPixelate | uxp/ps/commands/filters.js:425-452 | a missing layer throws the not-found error with no action; a found layer never throws: it is selected, then exactly the mosaic descriptor is played |
| Filters.Crystallize | uxp/ps/commands/filters.js:464-473 | the cell size defaults to 10 |
| Filters.ApplyCrystallize | uxp/ps/commands/filters.js:454-478 | a missing layer throws the not-found error with no action; a found layer never throws: it is selected, then exactly the crystallize descriptor is played |
| Filters.ColorHalftone | uxp/ps/commands/filters.js:490-507 | the maximum radius defaults to 8 and the four screen angles to 108, 162, 90 and 45 |
| Filters.ApplyColorHalftone | uxp/ps/commands/filters.js:480-512 | a missing layer throws the not-found error with no action; a found layer never throws: it is selected, then exactly the colour-halftone descriptor is played |
| Filters.Twirl | uxp/ps/commands/filters.js:526-535 | the twirl angle defaults to 50 |
| Filters.ApplyTwirlDistortion | uxp/ps/commands/filters.js:514-540 | a missing layer throws the not-found error with no action; a found layer never throws: it is selected, then exactly the twirl descriptor is played |
| Filters.ZigZag | uxp/ps/commands/filters.js:554-576 | amount and ridges default to 10 and 5; the style is a table key, falling back to pondRipples |
| Filters.ApplyZigZagDistortion | uxp/ps/commands/filters.js:542-581 | a missing layer throws the not-found error with no action; a found layer never throws: it is selected, then exactly the zigzag descriptor is played |
| Filters.AdvertisedZigZagStylesKept | mcp/ps-mcp.py:3316-3318 | every advertised zigzag style reaches the descriptor unchanged |
| Filters.ApplySolarize | uxp/ps/commands/filters.js:583-604 | a missing layer throws the not-found error with no action; a found layer never throws: it is selected, then exactly one parameterless solarize descriptor is played |
| Filters.Posterize | uxp/ps/commands/filters.js:616-625 | the number of levels defaults to 4 |
| Filters.ApplyPosterize | uxp/ps/commands/filters.js:606-630 | a missing layer throws the not-found error with no action; a found layer never throws: it is selected, then exactly the posterize descriptor is played |
| Filters.ApplyDespeckle | uxp/ps/commands/filters.js:632-653 | a missing layer throws the not-found error with no action; a found layer never throws: it is selected, then exactly one parameterless despeckle descriptor is played |
| Filters.Median | uxp/ps/commands/filters.js:665-677 | the median radius defaults to 1 |
| Filters.ApplyMedianNoise | uxp/ps/commands/filters.js:655-682 | a missing layer throws the not-found error with no action; a found layer never throws: it is selected, then exactly the median descriptor is played |
| Filters.DustAndScratches | uxp/ps/commands/filters.js:696-707 | radius and threshold default to 1 and 0 |
| Filters.ApplyDustAndScratches | uxp/ps/commands/filters.js:684-712 | a missing layer throws the not-found error with no action; a found layer never throws: it is selected, then exactly the dust-and-scratches descriptor is played |
| Filters.NoLayerNoAction | uxp/ps/commands/filters.js:37 | every filter handler given an unknown layer id leaves the document untouched: no action reaches the host |
| Filters.ZeroTakesDefault | uxp/ps/commands/filters.js:117 | because defaults are applied with `\|\|`, an explicit 0 is replaced by the default (twirl 50, emboss 135, unsharp amount 100) |
| Filters.UnknownNamesFallBack | uxp/ps/commands/filters.js:203-207 | an unknown enumeration name gives the same descriptor value as leaving the option out |
| Advanced.ContentAwareFill | uxp/ps/commands/advanced.js:12-38 | without an active selection the handler throws "Requires an active selection" and does nothing; with one it plays exactly one content-aware fill |
| Advanced.ContentAwareFillDescriptor | uxp/ps/commands/advanced.js:20-33 | the fill uses content-aware filling at 100 % opacity |
| Advanced.Auto | uxp/ps/commands/advanced.js:40-65 | autoTone, autoColor and autoContrast never throw and each plays exactly one parameterless descriptor of its own name |
| Advanced.ShadowHighlightOptions | uxp/ps/commands/advanced.js:76-85 | each of the ten values is taken as given unless undefined, else 35, 50, 30, 0, 50, 30, 20, 0, 0.01 and 0.01 |
| Advanced.ShadowHighlight | uxp/ps/commands/advanced.js:89-117 | all ten settings reach their descriptor fields: shadow and highlight amounts, widths and radii, colour correction, midtone contrast and both clips, with amounts, widths and clips wrapped in percent units |
| Advanced.ShadowsHighlights | uxp/ps/commands/advanced.js:67-124 | a missing layer throws with no action; otherwise the layer is selected and exactly the shadow/highlight descriptor is played |
| Advanced.ShadowHighlightKeepsZero | uxp/ps/commands/advanced.js:79-85 | an explicit 0 for highlight amount, colour correction and the clips is kept rather than replaced by a default |
| Advanced.LensCorrection | uxp/ps/commands/advanced.js:135-150 | distortion, vignette, vignette midpoint and both chromatic aberrations are taken as given unless undefined, else 0, 0, 50, 0 and 0 |
| Advanced.ApplyLensCorrection | uxp/ps/commands/advanced.js:126-155 | a missing layer throws the not-found error with no action; a found layer never throws: it is selected, then exactly the lens-correction descriptor is played |
| Advanced.LiquifyForward | uxp/ps/commands/advanced.js:157-191 | a missing layer throws the not-found error with no action; a found layer never throws: it is selected, then exactly the fixed liquify descriptor is played |
| Advanced.LiquifyIgnoresOptions | uxp/ps/commands/advanced.js:166-185 | the stroke options read by liquifyForward never reach the descriptor: two calls on the same layer give the same result |
| Advanced.Choice | uxp/ps/commands/advanced.js:204-217 | a flag that is undefined counts as true; the first mode is chosen exactly when the flag is undefined or truthy, and false picks the second |
| Advanced.Displace | uxp/ps/commands/advanced.js:202-221 | both scales default to 10 through `\|\|`; the displacement map stretches to fit and undefined areas wrap around unless the flag is falsy |
| Advanced.ApplyDisplace | uxp/ps/commands/advanced.js:193-226 | a missing layer throws the not-found error with no action; a found layer never throws: it is selected, then exactly the displace descriptor is played |
| Advanced.DisplaceFlags | uxp/ps/commands/advanced.js:204-205 | true or absent flags give stretch-to-fit and wrap-around; false gives tile and repeat-edge-pixels |
| Advanced.SphereMode | uxp/ps/commands/advanced.js:238-254 | the spherize mode is always a value of the mode table: a known name maps through the table, anything else gives normal |
| Advanced.Spherize | uxp/ps/commands/advanced.js:237-256 | the amount defaults to 100 only when undefined and the mode is the resolved sphere mode |
| Advanced.ApplySphere | uxp/ps/commands/advanced.js:228-260 | a missing layer throws the not-found error with no action; a found layer never throws: it is selected, then exactly the spherize descriptor is played |
| Advanced.AdvertisedSphereModesDistinct | mcp/ps-mcp.py:3324-3326 | the three advertised spherize modes reach three different descriptor modes |
| Advanced.WaveType | uxp/ps/commands/advanced.js:277-305 | the wave type is one of sinusoidal, triangular and square; it is triangular exactly for "triangle" and square exactly for "square" |
| Advanced.SineEntryUnused | uxp/ps/commands/advanced.js:279-305 | the table maps "sine" to triangular, yet "sine" and an absent type both give a sinusoidal wave: the entry is never consulted |
| Advanced.WaveOptions | uxp/ps/commands/advanced.js:271-277 | generators, wavelength bounds, amplitude bounds and scale default through `\|\|` to 5, 10, 120, 5, 35 and 100 |
| Advanced.Wave | uxp/ps/commands/advanced.js:287-310 | one scale is used for both axes, undefined areas wrap around, and generators, wavelength and amplitude bounds and the wave type reach their fields |
| Advanced.ApplyWave | uxp/ps/commands/advanced.js:262-316 | a missing layer throws the not-found error with no action; a found layer never throws: it is selected, then exactly the wave descriptor is played |
| Advanced.AdvertisedWaveTypesDistinct | mcp/ps-mcp.py:3320-3322 | the three advertised wave types reach three different wave shapes |
| Advanced.NoLayerNoAction | uxp/ps/commands/advanced.js:73 | every layer handler of this file given an unknown layer id reaches no host action |
| Transforms.FreeTransformOptions | uxp/ps/commands/transforms.js:20-26 | width and height default to 100 %, angle, skews and moves to 0, each only when undefined |
| Transforms.Pair | uxp/ps/commands/transforms.js:55-77 | a skew or offset pair carries its x value as horizontal and its y value as vertical |
| Transforms.FreeTransformFields | uxp/ps/commands/transforms.js:31-79 | width, height and angle reach their own fields of the transform, and the skew and offset pairs carry the two skews and the two moves |
| Transforms.FreeTransform | uxp/ps/commands/transforms.js:11-86 | a missing layer throws the not-found error with no action; a found layer never throws: it is selected, then exactly the free-transform descriptor is played |
| Transforms.FreeTransformAxes | uxp/ps/commands/transforms.js:23-26 | skewX and moveX land on the horizontal axis, skewY and moveY on the vertical one |
| Transforms.FreeTransformDefaultIdentity | uxp/ps/commands/transforms.js:20-26 | with no options the transform is the identity: full size, no rotation, skew or move |
| Transforms.Scaled | uxp/ps/commands/transforms.js:126-129 | a numeric corner coordinate gives `base + (p / 100) * extent`; a missing one gives NaN |
| Transforms.PerspectiveRectangle | uxp/ps/commands/transforms.js:107-129 | top and left come from the top-left corner, bottom from the bottom-left corner's y and right from the top-right corner's x, each scaled into the layer's bounds |
| Transforms.PerspectiveDescriptor | uxp/ps/commands/transforms.js:111-133 | the four sides of the rectangle reach the descriptor's rectangle in pixels |
| Transforms.PerspectiveTransform | uxp/ps/commands/transforms.js:88-139 | a missing layer throws with no action; otherwise the layer is selected and transformed to the rectangle its corners give within its bounds |
| Transforms.DefaultCornersKeepBounds | uxp/ps/commands/transforms.js:99-102 | with the default corners the rectangle is exactly the layer's bounds |
| Transforms.BottomRightUnused | uxp/ps/commands/transforms.js:101 | the bottom-right corner is read but never used: any value gives the same run |
| Transforms.OnlyFourCoordinatesCount | uxp/ps/commands/transforms.js:126-129 | the top-right corner's y and the bottom-left corner's x do not affect the rectangle |
| Transforms.Warp | uxp/ps/commands/transforms.js:150-182 | the style is the given one `\|\|` arc, the bend defaults to 50 only when undefined, and both perspective values are 0 |
| Transforms.WarpTransform | uxp/ps/commands/transforms.js:141-193 | a missing layer throws the not-found error with no action; a found layer never throws: it is selected, then exactly one transform carrying the warp is played |
| Transforms.WarpIgnoresDistortion | uxp/ps/commands/transforms.js:152-153 | the horizontal and vertical distortion options are read but never sent |
| Transforms.AdvertisedWarpStylesSent | mcp/ps-mcp.py:3287-3291 | every advertised warp style reaches the descriptor unchanged |
| Transforms.ContentAwareScaleDescriptor | uxp/ps/commands/transforms.js:204-232 | width and height default to 100 % only when undefined |
| Transforms.ContentAwareScale | uxp/ps/commands/transforms.js:195-239 | a missing layer throws the not-found error with no action; a found layer never throws: it is selected, then exactly the content-aware scale descriptor is played |
| Transforms.ConvertToSmartObject | uxp/ps/commands/transforms.js:241-259 | a missing layer throws the not-found error with no action; a found layer never throws: it is selected, then exactly one parameterless newPlacedLayer descriptor is played |
| Transforms.NoLayerNoAction | uxp/ps/commands/transforms.js:17 | every transform given an unknown layer id reaches no host action |
| Shapes.Stroke | uxp/ps/commands/shapes.js:41-63 | the stroke style is merged in exactly when the stroke colour is truthy and the width (`\|\| 0`) is above zero; nothing else is ever added |
| Shapes.MergeKeepsShape | uxp/ps/commands/shapes.js:70 | spreading the stroke over the shape descriptor keeps every field of the shape descriptor |
| Shapes.DrawMade | uxp/ps/commands/shapes.js:66-73 | a shape handler never throws and plays one `make contentLayer` whose `using` is exactly the merged fields |
| Shapes.ShapeKept | uxp/ps/commands/shapes.js:70 | merging fields other than `shape` keeps the shape |
| Shapes.Rectangle | uxp/ps/commands/shapes.js:26-37 | all four corner radii equal the corner radius and the four edges are the bounds' edges |
| Shapes.StrokeKept | uxp/ps/commands/shapes.js:15-70 | after the merge the stroke style is present exactly when a stroke is drawn, and the fill colour is the RGB descriptor of the fill |
| Shapes.DrawFilled | uxp/ps/commands/shapes.js:14-73 | one descriptor is played, carrying the given shape, the optional stroke and the fill colour (`\|\|` white) as RGB |
| Shapes.DrawRectangle | uxp/ps/commands/shapes.js:7-76 | the rectangle of the bounds (default 0, 0, 100, 100) with the corner radius (`\|\|` 0) on every corner, plus the optional stroke |
| Shapes.RectangleDefaults | uxp/ps/commands/shapes.js:9-13 | with no options the rectangle spans (0, 0) to (100, 100) with square corners and has no stroke |
| Shapes.DrawEllipse | uxp/ps/commands/shapes.js:78-142 | the ellipse descriptor carries exactly the four edges of the bounds (default 0, 0, 100, 100), plus the optional stroke |
| Shapes.Subpath | uxp/ps/commands/shapes.js:180-210 | a subpath carries its closed flag and its points in order |
| Shapes.PathShapeSubpaths | uxp/ps/commands/shapes.js:175-212 | the path shape holds exactly the subpaths it was built from |
| Shapes.LineStroke | uxp/ps/commands/shapes.js:214-230 | the line stroke carries the given width and fills only when asked |
| Shapes.DrawStroked | uxp/ps/commands/shapes.js:150-235 | a stroked path plays one descriptor whose shape holds exactly the given subpaths and whose stroke has the given width |
| Shapes.DrawLine | uxp/ps/commands/shapes.js:144-235 | one open subpath of exactly two anchors, start (default 0, 0) then end (default 100, 100); stroke width `\|\|` 2 |
| Shapes.PolygonSides | uxp/ps/commands/shapes.js:239-256 | the loop `i < sides` runs once for every natural number below `sides \|\| 6`, and not at all for a non-numeric count |
| Shapes.PolygonSidesCount | uxp/ps/commands/shapes.js:239 | a missing or zero side count gives a hexagon; a whole number k gives k points |
| Shapes.PolygonPoints | uxp/ps/commands/shapes.js:248-256 | the loop yields as many points as it runs, the k-th being the k-th vertex |
| Shapes.DrawPolygon | uxp/ps/commands/shapes.js:237-333 | one closed subpath through the polygon's vertices in order, plus the optional stroke |
| Shapes.Handle | uxp/ps/commands/shapes.js:349-360 | a truthy direction handle is used as given; otherwise a point made of the two handle coordinates when both are defined |
| Shapes.PathPoint | uxp/ps/commands/shapes.js:348-388 | a converted point has its anchor and carries each direction handle exactly when that handle is truthy, and nothing else |
| Shapes.LeftDirectionWins | uxp/ps/commands/shapes.js:349-351 | a point given with leftDirection keeps it even when handleInX and handleInY are also given |
| Shapes.PlainCorner | uxp/ps/commands/shapes.js:348-388 | a point with no handle information becomes a plain corner: only its anchor |
| Shapes.CustomPoints | uxp/ps/commands/shapes.js:337-348 | points are accepted exactly when they form an array of at least two; a missing value, a short array, a short string or an object whose `length` is below 2 gives the "At least 2 points" error; everything else is a TypeError |
| Shapes.DrawCustomPath | uxp/ps/commands/shapes.js:335-457 | refused points throw with no host action; otherwise every point is converted in order into one subpath, closed unless `closed` is given, plus the optional stroke |
| Shapes.DrawArrow | uxp/ps/commands/shapes.js:459-601 | an open shaft from the start to the head's base and a closed head through the end and both wings; stroke width `\|\|` 2 |
| Host.Photoshop.SelectLayer | uxp/ps/commands/painting.js:28 | selecting a layer appends exactly one selection of that layer to the host's action log |
| Host.Photoshop.BatchPlay | uxp/ps/commands/painting.js:41 | each `batchPlay` call appends exactly its descriptors, as one action, to the host's action log |
| Painting.StrokeInput | uxp/ps/commands/painting.js:20-91 | missing points take the two default points; a non-empty array is used as given; anything else raises a TypeError from `map` (an empty array has no first point) |
| Painting.StrokeList | uxp/ps/commands/painting.js:55-60 | one stroke point per input point, in order, each at its position and full pressure |
| Painting.PaintStroke | uxp/ps/commands/painting.js:62-94 | the paint runs from the first point to the last one, carries the whole stroke list and the given opacity |
| Painting.BrushStroke | uxp/ps/commands/painting.js:11-99 | a missing layer throws with the log untouched; otherwise the log grows by: select the layer, set the foreground (white unless given), set the brush (size 10, hardness 100 through `\|\|`), then the paint, which refused points leave out while raising |
| Painting.EraserStroke | uxp/ps/commands/painting.js:101-177 | a missing layer throws with the log untouched; otherwise the log grows by: select the layer, select the eraser, set the brush, paint, select the paintbrush again; refused points stop after the brush, leaving the eraser selected |
| Painting.GradientType | uxp/ps/commands/painting.js:190-242 | the gradient type is always one of the five known types: a known name is kept, anything else gives linear |
| Painting.GradientDraw | uxp/ps/commands/painting.js:179-263 | a missing layer throws; otherwise the layer is selected first, the run throws exactly when the stops are truthy but not an array, and the gradient carries the resolved type and the colours and opacities converted from the stops |
| Painting.GradientDescriptor | uxp/ps/commands/painting.js:228-258 | the descriptor carries the gradient type and exactly the converted colour and transparency stops |
| Painting.BucketFill | uxp/ps/commands/painting.js:274-316 | tolerance 32 and contiguous true unless given, the fill starting at (x, y) `\|\|` (0, 0), opacity `\|\|` 100 |
| Painting.BucketKeepsGivenValues | uxp/ps/commands/painting.js:277-278 | a tolerance of 0 and a non-contiguous fill are kept rather than replaced by the defaults |
| Painting.PaintBucketFill | uxp/ps/commands/painting.js:265-320 | a missing layer throws with the log untouched; otherwise the log grows by exactly: select the layer, set the foreground (red unless given), fill |
| Channels.SelectAll | uxp/ps/commands/channels.js:12-21 | never throws and plays one descriptor setting the selection to all pixels |
| Channels.RangeColor | uxp/ps/commands/channels.js:25 | the target colour is the given one when truthy, else pure red |
| Channels.ColorRange | uxp/ps/commands/channels.js:25-45 | both ends of the range are the RGB descriptor of the target colour; fuzziness is 40 only when undefined |
| Channels.SelectColorRange | uxp/ps/commands/channels.js:23-48 | never throws and plays exactly the colour-range descriptor |
| Channels.SelectFocusArea | uxp/ps/commands/channels.js:50-62 | never throws; the fuzziness is sent as the focus-area parameter, 0 only when undefined |
| Channels.ToolColorRange | mcp/ps-mcp.py:2854-2867 | through the Python tool both ends of the range are exactly the requested colour, green sent as `grain`, with the requested fuzziness |
| Channels.GrowSelection | uxp/ps/commands/channels.js:64-75 | without a selection it throws "Requires an active selection" with no action; with one it plays one parameterless grow |
| Channels.SimilarSelection | uxp/ps/commands/channels.js:77-88 | without a selection it throws with no action; with one it plays one parameterless similar |
| Channels.ModifyDescriptor | uxp/ps/commands/channels.js:99-105 | the descriptor is of the handler's class and carries the amount in pixels under the handler's field |
| Channels.ModifySelection | uxp/ps/commands/channels.js:90-188 | expand, contract, feather, smooth and border throw exactly when there is no selection, with no action; otherwise one descriptor of the handler's class carrying the amount |
| Channels.ModifyAmountSent | uxp/ps/commands/channels.js:92-172 | a truthy amount is sent as given; a falsy one becomes the handler's default (1, 1, 5, 2, 5) |
| Channels.ToolZeroTakesHandlerDefault | mcp/ps-mcp.py:2892-2939 | through the Python tools the handler default is reached only by 0; the tools' own default of 1 agrees with the handler's default for expand and contract only |
| Channels.ChannelName | uxp/ps/commands/channels.js:192 | the channel name is the given one when truthy, else "Alpha 1" |
| Channels.SaveSelectionAsChannel | uxp/ps/commands/channels.js:190-206 | without a selection it throws with no action; with one the selection is duplicated into one channel of that name |
| Channels.ChannelByName | uxp/ps/commands/channels.js:215-218 | a channel reference by name |
| Channels.LoadSelectionFromChannel | uxp/ps/commands/channels.js:208-223 | never throws; sets the selection to the channel of that name |
| Channels.DeleteChannel | uxp/ps/commands/channels.js:225-243 | a falsy or missing name throws "channelName is required" before any action; otherwise exactly the named channel is deleted |
| Channels.SaveThenLoadSameChannel | uxp/ps/commands/channels.js:192-210 | saving and then loading with the same options address the same channel, "Alpha 1" when none is given |
| Channels.DeleteHasNoDefault | uxp/ps/commands/channels.js:210-230 | with no name, delete refuses while load falls back on "Alpha 1" |
| Channels.SelectionTransformOptions | uxp/ps/commands/channels.js:252-254 | width and height default to 100 %, angle to 0, each only when undefined |
| Channels.SelectionTransformDescriptor | uxp/ps/commands/channels.js:256-271 | the transform targets the selection and carries width and height in percent and the angle in degrees |
| Channels.TransformSelection | uxp/ps/commands/channels.js:245-274 | without a selection it throws with no action; with one exactly the selection transform is played |
| Channels.TransformDefaultsIdentity | uxp/ps/commands/channels.js:252-254 | with no options the transform is the identity; an explicit 0 is kept |
| Channels.NoSelectionNoAction | uxp/ps/commands/channels.js:65-66 | every handler that needs a selection throws its "Requires an active selection" message before any host action |
| Channels.SelectionIndependent | uxp/ps/commands/channels.js:12-62 | select all, colour range, focus area, load and delete behave the same whether or not there is a selection |
| Bridge.MergeLogShape | mcp/ps-mcp.py:3617-3641 | merge_layers sends one envelope more than there are ids: it selects the first id, adds every further id in order, and merges last |
| Bridge.MaskGradientType | mcp/ps-mcp.py:3780-3787 | "angle" becomes "angular", the other four known types are kept and any other name gives linear |
| Bridge.MaskGradientBracketed | mcp/ps-mcp.py:3770-3834 | fill_mask_with_gradient sends four envelopes: the gradient is drawn while the mask channel is targeted, and the RGB composite is targeted again last |
| Bridge.TextureId | mcp/ps-mcp.py:3446-3452 | the glass texture id is between 1 and 4, and 1 for an unknown texture |
| Bridge.TextureIdsDistinct | mcp/ps-mcp.py:3446-3452 | the four advertised textures get four different ids |
| Bridge.RippleSize | mcp/ps-mcp.py:3483-3484 | the ripple size is 0 for small, 2 for large and 1 for medium or anything unknown |
| Bridge.BlendRangeOrdered | mcp/ps-mcp.py:3565-3597 | each of the four slider ranges has its Min no larger than its Max exactly when the split points are placed as the tool's documentation advises |
| Bridge.ShearPoints | mcp/ps-mcp.py:3879 | every curve point becomes a paint point with its x as horizontal and its y as vertical, in order; the comprehension succeeds exactly when every point is a dict with both keys |
| Bridge.ShearFirstError | mcp/ps-mcp.py:3879 | when the comprehension raises, the error is that of the first bad point: TypeError for a point that is not a dict, KeyError for a dict without x or y |
| Bridge.AfterFirstCommaSkips | mcp/ps-mcp.py:267 | splitting at the first comma returns exactly the text after it when the head has no comma |
| Bridge.PayloadAfterPrefix | mcp/ps-mcp.py:265-267 | for a JPEG data URL the base64 payload is exactly the text after the prefix |
| Bridge.ImageFromResponse | mcp/ps-mcp.py:261-272 | an image is returned exactly when the response is a success holding a JPEG data URL, and its payload is the text after the prefix; any other response is returned unchanged, unless a `.get` or `.startswith` on a non-dict or non-string raises |
| Bridge.Tools.Send | mcp/ps-mcp.py:24 | sending appends exactly the envelope to the sent log and returns the reply for its position |
| Bridge.Tools.SelectLayer | mcp/ps-mcp.py:3358-3367 | selecting a layer by id sends exactly one batchPlay envelope selecting it without making it visible |
| Bridge.Tools.OnLayer | mcp/ps-mcp.py:3415-3425 | a filter tool sends exactly two envelopes, the layer selection then its descriptor, and returns the reply to the second |
| Bridge.Tools.ApplyPlasticWrap | mcp/ps-mcp.py:3405-3425 | selects the layer, then sends the plastic-wrap descriptor with the three given values |
| Bridge.Tools.ApplyGlassDistortion | mcp/ps-mcp.py:3433-3464 | selects the layer, then sends the glass descriptor with the texture mapped to its id |
| Bridge.Tools.ApplyRipple | mcp/ps-mcp.py:3472-3493 | selects the layer, then sends the ripple descriptor with the size mapped to its number |
| Bridge.Tools.ApplyOceanRipple | mcp/ps-mcp.py:3501-3519 | selects the layer, then sends the ocean-ripple descriptor |
| Bridge.Tools.ApplyChromeFilter | mcp/ps-mcp.py:3527-3545 | selects the layer, then sends the chrome descriptor |
| Bridge.Tools.SetLayerBlendIf | mcp/ps-mcp.py:3553-3602 | selects the layer, then sends one blend range built from the eight slider values |
| Bridge.Tools.AddLayerMaskRevealAll | mcp/ps-mcp.py:3710-3728 | selects the layer, then makes a reveal-all mask |
| Bridge.Tools.AddLayerMaskHideAll | mcp/ps-mcp.py:3731-3749 | selects the layer, then makes a hide-all mask |
| Bridge.Tools.ApplyPolarCoordinates | mcp/ps-mcp.py:3842-3858 | selects the layer, then sends the polar-coordinates descriptor with the given conversion |
| Bridge.Tools.ApplyPinch | mcp/ps-mcp.py:3897-3914 | selects the layer, then sends the pinch descriptor with the given amount |
| Bridge.Tools.ExecuteBatchplay | mcp/ps-mcp.py:3390-3397 | an empty command list raises "commands list cannot be empty" and sends nothing; otherwise exactly one envelope with the commands is sent and its reply returned |
| Bridge.Tools.MergeLayers | mcp/ps-mcp.py:3617-3641 | fewer than two ids raise "Need at least 2 layer IDs to merge" and send nothing; otherwise exactly the merge log is sent and the reply to the merge returned |
| Bridge.Tools.SelectLayerChannel | mcp/ps-mcp.py:3664-3705 | select_layer_mask and select_layer_rgb select the layer, then target its mask or RGB channel |
| Bridge.Tools.FillMaskWithGradient | mcp/ps-mcp.py:3756-3834 | exactly the four envelopes of the mask gradient are sent, and the reply to the gradient, not to the final RGB selection, is returned |
| Bridge.Tools.ApplyShear | mcp/ps-mcp.py:3866-3889 | the layer is selected first; a bad curve point then raises with nothing more sent; otherwise the shear along the curve (the identity line when none is given) is sent |
| Bridge.Tools.GetLayerImage | mcp/ps-mcp.py:250-272 | sends one getLayerImage envelope for the layer and returns what the reply gives under the data-URL rule |
| Bridge.Tools.GetDocumentImage | mcp/ps-mcp.py:276-293 | sends one getDocumentImage envelope and returns what the reply gives under the data-URL rule |

## Left out

- Transport: `createCommand`, `sendCommand` and the socket client are imported from modules that are not part of this model. They are one opaque send, `Bridge.Tools.Send`, which logs the envelope and returns a scripted reply.
- Host semantics behind `batchPlay`, `findLayer`, `selectLayer`, `hasActiveSelection`, `execute`, `imaging`, `app.open` and the file system are abstract. The layer table and the selection flag are inputs, actions are logged, and no image processing is modelled.
- `findLayer`, `selectLayer`, `hasActiveSelection` and `execute` come from the plugin's utilities module, which is not part of this model. `findLayer` is modelled as the first layer of a flat layer list whose id equals the given one. Layer groups are not modelled.
- Property reads on `undefined` or `null` yield `undefined` in the model (`Js.Member`). JavaScript raises a TypeError there. The exceptions that are modelled are: the first and last point of a stroke in `brushStroke` and `eraserStroke`; `toUpperCase` and `toLowerCase` on non-strings; `includes` on a non-string anchor; `.map` on non-arrays. Other reads of a member of a missing nested option (for example `fillColor.red` when `fillColor` is a number) are not modelled as throwing.
- `Js.ToNumber` models `Number(v)` for numbers, booleans, null and the empty string. Other strings and arrays give NaN, so numeric strings such as "5" and one-element arrays are not converted.
- Numbers are mathematical reals: IEEE rounding, overflow and `-0` are not modelled. `Math.round` is `floor(x + 0.5)`.
- `toUpperCase` and `toLowerCase` change ASCII letters only. Unicode case mapping is not modelled.
- Polygon vertices are computed with `cos`/`sin` and arrowhead wings with `sqrt`. `Shapes.PolygonPoints` and `Shapes.DrawArrow` take the computed points as a parameter, and only the point count, order and path structure are stated.
- The wave filter's `randomSeed` from `Math.random` is not part of the `Advanced.Wave` descriptor.
- Constant descriptor fields are mostly left out of the descriptor functions' contracts: `_isCommand`, fixed enumerations, fixed gradient bodies and the Firefly option payloads. Contracts state the fields that depend on the options.
- Interpolated ids in error messages: a missing layer's error is `"<handler> : Could not find layerId"` without the id that follows it.
- The plugin's noise distribution constants are modelled by their key names, "UNIFORM" and "GAUSSIAN".
- Base64 decoding, numpy reshaping and PIL saving in `get_layer_image`, `get_document_image` and `save_document_image_as_png` are library calls and file I/O. `Bridge.ImageFromResponse` stops at the decoded payload's text.
- The single-envelope Python tools that forward their arguments to a plugin handler are modelled only through the handlers they reach. Their Python-side argument defaults are not modelled, except the advertised option tables the model checks against the handlers.
- Font enumeration, `get_instructions`, the install check in `index.js`, and the socket client are not part of this model.
- These `core.js` handlers are not part of this model: `openFile`, `placeImage`, `getDocumentImage`, `removeBackground`, `alignContent`, `saveDocument`, `saveDocumentAs`, `getDocuments`, `duplicateDocument`, `createDocument`, `rotateCanvas`, `revealAll`, `mergeVisible`, `mergeDown`, `stampVisible`, `setForegroundColor`, `setBackgroundColor`, `swapColors`. They are single host calls with no option logic beyond passing values through.
- The source has no lock and no try/finally. No mutual exclusion is modelled, and a failure part-way leaves the earlier actions in the log (`Painting.EraserStroke`, `Bridge.Tools.ApplyShear`).
- Host.Lookup: the plugin's tables are plain JavaScript objects. A key naming a member of `Object.prototype` (`constructor`, `toString`, `__proto__` and the like) reads that member instead of the fallback. A non-string key is converted to a string first, so `["square"]` finds the "square" entry. The model looks up string keys among the table's own entries only.
- Filters.Pick: inherits the `Host.Lookup` gap. Prototype member names and one-item array keys are not modelled, so "always one of the table's keys" holds only for the keys modelled.
- Painting.GradientType: inherits the `Host.Lookup` gap for prototype member names and non-string keys.
- Advanced.SphereMode: inherits the `Host.Lookup` gap for prototype member names and non-string keys.
- Advanced.WaveType: inherits the `Host.Lookup` gap. `["square"]` and `["triangle"]` would find their entries in the source, and prototype member names would read those members.
- Core.TrimBasedOn: inherits the `Host.Lookup` gap. `["topLeft"]` and `["bottomRight"]` would find their entries in the source, and prototype member names would read those members.
- LayerStyles.CreateGradientLayerStyle, LayerStyles.AddGradientOverlay: a non-empty string stop list is walked character by character. In the source, the colour loop then raises at `c.color.blue`, because a character has no `color`. In the model that read yields `undefined`, as in the property-read line above.
- LayerStyles.BevelEffect: states only the direction and the two blend modes. The other fields (style, technique, depth, size, soften, angle, altitude, both opacities and both colours) are built in the body from the options, but their contract is left unstated to keep the proof small.
- LayerStyles.DropShadowEffect, LayerStyles.InnerShadowEffect, LayerStyles.OuterGlowEffect, LayerStyles.InnerGlowEffect, LayerStyles.SatinEffect: state the option-dependent fields the source renames or converts. Fields copied under their own name, and constant fields, are not all restated.

## Findings

| source | as written | input that shows it | evidently intended | confidence | as-written member | corrected member |
|---|---|---|---|---|---|---|
| uxp/ps/commands/core.js:668-683 | The trim table's keys are "transparent", "topLeft" and "bottomRight". The Python tool advertises "transparent", "topLeftPixelColor" and "bottomRightPixelColor" (mcp/ps-mcp.py:3333-3335). | `trimDocument` with `trimType: "topLeftPixelColor"` trims transparent pixels, not by the top-left pixel colour | every advertised trim type selects its own basis: top-left pixel colour, bottom-right pixel colour or transparency | high, not executed | `Core.AdvertisedTrimTypesIgnored` | `Core.IntendedTrimHonoursAdvertised` |
