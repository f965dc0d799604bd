# Mapbox GL style converter — a Dafny model

This project models the core of QGIS's `QgsMapBoxGlStyleConverter`. The
converter turns a Mapbox GL (MapLibre) style document into QGIS vector tile
styles. For each entry of the style's `layers` list it makes at most one
renderer style (a fill, line or marker symbol) and at most one labeling
style (text format and placement), both carrying a QGIS filter expression
translated from the layer's `filter`. Paint and layout values may be
constants, zoom `stops` objects or `["interpolate", …]` expressions. The
last two become data-defined properties: QGIS expressions over
`@zoom_level`. Anything the converter cannot translate is skipped with a
warning.

The style document is a `Json` tree read through lenient accessors. These
behave like Qt's `QVariant` conversions: a missing member reads as null, 0,
"" or an empty list. Every routine is a pure function. It returns its result
together with the warnings it pushed, in order. The modules follow the
structure of the C++ file:

- `Text`, `Json`, `Context`: strings and number text, the JSON tree and its
  accessors, and the conversion context. The context holds the pixel size
  factor, the sprite atlas, the colour parser and the font style lookup.
  It also holds colours and data-defined property collections.
- `Quoting`: QGIS column references, string literals and field equality,
  with their round trips.
- `Colors`: `parseColor` and `colorAsHslaComponents`.
- `Interpolation`: `interpolateExpression` and every `parse…Stops` /
  `parseInterpolate…ByZoom` routine. Each loop that builds a `CASE`
  expression is related to an independent clause-by-clause definition.
- `Settings`: the reading patterns the layer parsers repeat for numbers,
  colours and offsets, plus `retrieveSprite`.
- `Styles`: cap and join styles, the text-anchor table and icon rotation
  alignment.
- `Expressions`: `parseExpression`, `parseValue` and `parseKey`, the
  translation of Mapbox filter expressions into QGIS expressions.
- `Labels`: `processLabelField` (`{field}` templates), the `text-field`
  forms, `text-transform` and `text-font`.
- `Fill`, `Line`, `Symbol`: `parseFillLayer`, `parseLineLayer`,
  `parseSymbolLayer` and `parseSymbolLayerAsRenderer`.
- `Converter`: `convert` and the loop of `parseLayers`. The loop is stated
  for any pair of filter and layer converters, so its ordering and warning
  properties do not depend on them.
- `ExpressionExamples` and `InterpolationExamples`: a few of the concrete
  translations the project's Python tests expect, proved for the model.
- `InterpolationLaws`: what the zoom compilers promise for all inputs: a
  constant for nearly equal end values, the scale function the base
  selects, and a property that is active exactly when nothing was warned.

Where a plain reading of the format and the code differ, the model follows
the code:

- `["!", e]` is not a negation of `e`. The code prefixes the operator name
  of `e` with `!` and hands the list to `parseKey`. So `["!", ["has", k]]`
  yields the bare key `k`, not `k IS NULL`.
- A layer of unknown type skips the step that collects the context's
  warnings. Its filter's warnings stay in the context. They are collected
  with the next known layer's warnings, ahead of them and behind the
  unknown-type warning.
- `parsePointStops` rejects any stop whose zoom is a plain number, so zoom
  stops of more than two points always give an empty expression and a
  warning.
- `text-transform` marks the label field as an expression even when it
  does not wrap it.
- An object-valued `line-offset` sets the line width to the unset marker,
  -1.
- `fill-pattern` given as an object is ignored. Only a sprite name is read.

## Model

| member | source | states |
|---|---|---|
| Converter.Convert | src/core/vectortile/qgsmapboxglstyleconverter.cpp:41-55 | A style without `layers` fails with NoLayerList and the fixed error and converts nothing. Otherwise the result is Success with an empty error. The renderer and labeling styles are each layer's styles in layer order. The warnings kept, plus those left in the context, are exactly the warnings the layers pushed, as a multiset. |
| Converter.ParseLayers | src/core/vectortile/qgsmapboxglstyleconverter.cpp:64-155 | The loop's styles, warnings and pending context warnings equal the fold of the per-layer step over the layers. Its renderer and labeling styles are each layer's contribution concatenated in layer order. |
| Converter.LayerOutcome | src/core/vectortile/qgsmapboxglstyleconverter.cpp:76-146 | A background layer is skipped (iff). An unknown type yields only its type and its filter's warnings (iff). A known layer yields at most one renderer and one labeling style. It has a renderer style iff its parser made a symbol, and a labeling style iff it made label settings. Both carry the layer's header. The layer pushes its filter's warnings and then its parser's. |
| Converter.Header | src/core/vectortile/qgsmapboxglstyleconverter.cpp:84-90 | The style name is the layer id and the layer name is its `source-layer`. The header carries the converted filter. An absent min/max zoom reads -1, and a present one is its value read as an integer. The style is disabled iff `visibility` is "none". |
| Converter.Zoom | src/core/vectortile/qgsmapboxglstyleconverter.cpp:87-88 | A zoom bound absent from the layer reads -1; a present one reads as its integer value. |
| Converter.Dispatch | src/core/vectortile/qgsmapboxglstyleconverter.cpp:100-120 | Fill and line layers give only a renderer symbol, present iff their parser made one, with that parser's warnings. Symbol layers give the renderer and labeling of parseSymbolLayer. Any other type gives nothing. |
| Converter.Step | src/core/vectortile/qgsmapboxglstyleconverter.cpp:122-145 | One iteration appends the layer's styles to those so far. Without a pending unknown layer it collects exactly what the layer pushed and leaves the context empty. |
| Converter.StepKeepsWarnings | src/core/vectortile/qgsmapboxglstyleconverter.cpp:115-145 | One iteration loses and invents no warning. Collected plus pending warnings grow by exactly what the layer pushed. |
| Converter.RenderersInLayerOrder | src/core/vectortile/qgsmapboxglstyleconverter.cpp:122-131 | The renderer styles come out in the order of the layers they were made from. |
| Converter.LabelingsInLayerOrder | src/core/vectortile/qgsmapboxglstyleconverter.cpp:133-142 | The labeling styles come out in layer order. |
| Converter.AtMostOneStylePerLayer | src/core/vectortile/qgsmapboxglstyleconverter.cpp:98-142 | There are no more renderer styles, and no more labeling styles, than layers. |
| Converter.NoWarningLost | src/core/vectortile/qgsmapboxglstyleconverter.cpp:115-145 | Over the whole list, the converter's warnings plus the context's are a permutation of everything the layers pushed. |
| Converter.KnownLayersWarnInOrder | src/core/vectortile/qgsmapboxglstyleconverter.cpp:144-145 | Without unknown layer types, warnings are collected in exactly the order they were pushed, and none stays in the context. |
| Converter.UnknownLayerDefersFilterWarnings | src/core/vectortile/qgsmapboxglstyleconverter.cpp:115-120 | After an unknown layer, its filter warnings are pending in the context. After a following known layer, the warnings are: the unknown-type warning, then the held filter warnings, then the known layer's own. Nothing then stays pending. |
| Fill.ParseFillLayer | src/core/vectortile/qgsmapboxglstyleconverter.cpp:157-398 | Nothing is made iff the layer has no `paint`, with a single warning naming the layer. Otherwise there is a brush iff the fill colour is valid and a pen iff the outline colour is valid. The opacity is set iff it was read, and then is the value read. The offset is the translation read. The pattern is the one `fill-pattern` gives. The data-defined properties are those the paint readers set. The warnings are the paint readers' warnings followed by the pattern's. |
| Fill.ReadFillColor | src/core/vectortile/qgsmapboxglstyleconverter.cpp:170-196 | The fill colour is the colour `fill-color` gives (invalid without one). The fill colour property is set only by stops or an expression, and the warnings are those of the colour. Both opacities start unset (-1), with no raster properties and an invalid outline colour. |
| Fill.ReadOutline | src/core/vectortile/qgsmapboxglstyleconverter.cpp:198-233 | Without `fill-outline-color`, the outline takes a valid fill colour. Failing that, it takes a data-defined fill colour as the stroke colour. Failing both, nothing changes. With it, the outline colour is the colour it gives, the stroke colour property is set from it, and its warnings follow the earlier ones. Only the stroke colour property can change. |
| Fill.FillOpacity | src/core/vectortile/qgsmapboxglstyleconverter.cpp:235-279 | A number sets both opacities. An opacity per zoom over a data-defined fill colour only adds the conflict warning. Otherwise the fill and stroke colour properties are set iff the compiled opacity for that colour is an expression, and then hold that expression. Any other shape only warns that opacity is not implemented. Other properties, the colours and earlier warnings are kept. |
| Fill.FadeColors | src/core/vectortile/qgsmapboxglstyleconverter.cpp:248-272 | The fill and stroke colour properties are set iff the opacity compiled against that colour's alpha is an expression, and then hold it. The raster opacity property is set iff the zoom compilation (factor 100) gives an expression, and then holds its text. The raster opacity becomes the compiled default, or stays as it was. The warnings are the earlier ones, then the fill, stroke and raster ones in that order. Nothing else changes. |
| Fill.ReadTranslate | src/core/vectortile/qgsmapboxglstyleconverter.cpp:281-304 | Absent, nothing changes. Present, the result is what Fill.Translate gives for the value. Only the offset property can change, and earlier warnings are kept. |
| Fill.Translate | src/core/vectortile/qgsmapboxglstyleconverter.cpp:285-303 | A list sets the translation to its first two numbers times the pixel factor, with nothing else changed. Zoom stops set the offset property to the compiled point expression and the translation to the first stop's point (the origin without one), and append the compilation's warnings. Any other shape only appends the "not implemented" fill-translate warning. |
| Fill.ReadPattern | src/core/vectortile/qgsmapboxglstyleconverter.cpp:318-367 | A pattern exists iff `fill-pattern` is a string whose sprite is found. It uses that sprite's image and the raster properties, and pushes the sprite lookup's warnings. It has an opacity iff one was read, and then that opacity is the raster opacity. |
| Fill.NoColorsNoBrushNoPen | src/core/vectortile/qgsmapboxglstyleconverter.cpp:369-394 | A paint object without fill and outline colours gives a symbol with neither brush nor pen. |
| Fill.OutlineDefaultsToFill | src/core/vectortile/qgsmapboxglstyleconverter.cpp:198-210 | Without an outline colour, a valid fill colour is also the pen colour. |
| Fill.OutlineInheritsDataDefinedFill | src/core/vectortile/qgsmapboxglstyleconverter.cpp:198-316 | Without an outline colour, a fill colour given per zoom becomes the stroke colour property too, and there is no plain pen, whatever the opacity and translation. |
| Fill.OpacityKeepsDataDefinedColor | src/core/vectortile/qgsmapboxglstyleconverter.cpp:241-268 | An opacity per zoom never overwrites a fill colour given per zoom. That colour is kept and the conflict warning is pushed. |
| Fill.OpacityConflictStage | src/core/vectortile/qgsmapboxglstyleconverter.cpp:241-268 | On that conflict the properties are unchanged and exactly one warning is appended. |
| Fill.TranslateKeepsWarning | src/core/vectortile/qgsmapboxglstyleconverter.cpp:281-316 | Reading `fill-translate` keeps every earlier warning at its position. |
| Line.ParseLineLayer | src/core/vectortile/qgsmapboxglstyleconverter.cpp:400-617 | Nothing is made iff the layer has no `paint`, with one warning naming the layer. Otherwise there is a colour iff the line colour is valid, and then it is that colour. Width and opacity are set unless left at the unset marker -1. There are dashes iff any were read. Cap and join come from the layout. The paint readers' properties and warnings are kept. |
| Line.ReadLineColor | src/core/vectortile/qgsmapboxglstyleconverter.cpp:412-439 | The line colour is the colour `line-color` gives, and the warnings are that colour's. The fill colour property is set iff the colour was given as stops or an expression that compiled, and then holds that expression; the stroke colour property is set with it, to the same value. Width starts at 1, offset at 0, opacity unset and no dashes. |
| Line.ReadWidthAndOffset | src/core/vectortile/qgsmapboxglstyleconverter.cpp:441-493 | Only the width and offset properties can change. An offset given as zoom stops sets the width to -1. Colour, opacity, dashes and earlier warnings are kept. |
| Line.ReadLineOpacity | src/core/vectortile/qgsmapboxglstyleconverter.cpp:495-532 | A number sets the opacity. An opacity per zoom over a data-defined stroke colour only adds the conflict warning. Otherwise the stroke colour property is set iff the opacity compiled against the colour's alpha is an expression, and then holds it; its warnings follow the earlier ones. Any other shape only warns that opacity is not implemented. Only the stroke colour property can change. |
| Line.ReadDashes | src/core/vectortile/qgsmapboxglstyleconverter.cpp:535-569 | A list gives its numbers times the pixel factor. Zoom stops give the last stop's list, scaled the same way. Any other shape warns. Absent, nothing changes. |
| Line.LastStopDashes | src/core/vectortile/qgsmapboxglstyleconverter.cpp:544 | The dashes taken from zoom stops are the value list of the last stop. |
| Line.Scaled | src/core/vectortile/qgsmapboxglstyleconverter.cpp:552-561 | Each dash length is the corresponding number times the factor, and there are as many of them as numbers. |
| Line.PenStyles | src/core/vectortile/qgsmapboxglstyleconverter.cpp:571-582 | The cap and join default to flat and miter. When `line-cap` or `line-join` is given, they are parsed from it. |
| Line.WidthAndOffsetValues | src/core/vectortile/qgsmapboxglstyleconverter.cpp:441-493 | A numeric width is scaled by the pixel factor unless the offset is given as zoom stops. A numeric offset is scaled and negated. Absent keys keep the width and offset read so far. |
| Line.WidthAndOffsetSettings | src/core/vectortile/qgsmapboxglstyleconverter.cpp:441-493 | The stroke width property is set from `line-width` and the offset property from `line-offset` (negated factor). The offset is the value read. The width is the value read unless offset stops reset it. The width's warnings come before the offset's. |
| Line.WidthDefaultsToOne | src/core/vectortile/qgsmapboxglstyleconverter.cpp:441-493 | Without width and offset the line is 1 unit wide. |
| Line.OffsetIsInverted | src/core/vectortile/qgsmapboxglstyleconverter.cpp:469-493 | A numeric `line-offset` becomes the negated offset times the pixel factor. |
| Line.OffsetStopsUnsetWidth | src/core/vectortile/qgsmapboxglstyleconverter.cpp:479-482 | An offset given as zoom stops leaves the symbol without a width. |
| Line.DashesFromLastStop | src/core/vectortile/qgsmapboxglstyleconverter.cpp:541-550 | Dashes given per zoom use the last stop's non-empty list, scaled by the pixel factor. |
| Line.OpacityKeepsDataDefinedStroke | src/core/vectortile/qgsmapboxglstyleconverter.cpp:501-524 | An opacity per zoom never overwrites a stroke colour given per zoom, and the conflict warning is pushed. |
| Line.OpacityConflictStage | src/core/vectortile/qgsmapboxglstyleconverter.cpp:501-524 | On that conflict the properties are unchanged and the conflict warning follows the earlier warnings. |
| Symbol.ParseSymbolLayer | src/core/vectortile/qgsmapboxglstyleconverter.cpp:619-1229 | Without a layout: nothing and one warning. Without `text-field`: exactly what parseSymbolLayerAsRenderer gives. Without paint: nothing and one warning. There are labels iff layout, `text-field` and paint are all present. Then the labels are those read, and there is an icon renderer iff the icon's sprite is found; it draws that icon. The warnings are the label's, then the icon's. |
| Symbol.ReadTextLayout | src/core/vectortile/qgsmapboxglstyleconverter.cpp:644-778 | The text size defaults to 16; a number is scaled by the pixel factor. The wrap width defaults to unset; a number is converted from ems at 1.4 characters per em. Without `text-font` there is no font. |
| Symbol.TextLayoutSettings | src/core/vectortile/qgsmapboxglstyleconverter.cpp:644-738 | The text size, wrap length and letter spacing are the values read from `text-size` (stop lists reset it to -1 first), `text-max-width` and `text-letter-spacing` (a number as is, stops with factor 1, -1 without it). Each is also a data-defined property when given per zoom. The warnings are the size's, width's, spacing's and font's, in that order. |
| Symbol.ReadTextPaint | src/core/vectortile/qgsmapboxglstyleconverter.cpp:780-876 | The layout values are kept. A colour string for the text or the halo goes to the colour parser; a missing one leaves the colour invalid. A numeric halo width or blur is scaled by the pixel factor. Without `text-halo-width` the buffer size is 0, without `text-halo-blur` the blur is 0. A non-numeric halo blur keeps blur 0 and warns. Only the colour and buffer properties can change. |
| Symbol.LabelExpression | src/core/vectortile/qgsmapboxglstyleconverter.cpp:961-1030 | The label is the converted `text-field`, passed through `text-transform` when one is given, keeping the field's warnings. |
| Symbol.ReadAnchor | src/core/vectortile/qgsmapboxglstyleconverter.cpp:1047-1083 | A string anchor is taken as is. Zoom stops and stop lists are compiled through the anchor table into an expression that sets the quadrant property. Any other shape warns. |
| Symbol.QuadrantOf | src/core/vectortile/qgsmapboxglstyleconverter.cpp:1084-1103 | A known anchor selects the quadrant whose number the anchor table gives. An unknown anchor selects the centre. |
| Symbol.ReadPosition | src/core/vectortile/qgsmapboxglstyleconverter.cpp:1032-1150 | Along lines, labels are curved on line geometry with no anchor or offset. Otherwise they are over points. The quadrant is the one the anchor read selects. The offset is `text-offset` in ems times the text size. The quadrant and offset properties are set from those reads, and their warnings are the anchor's then the offset's. Only the quadrant and offset properties can change. |
| Symbol.ReadLabel | src/core/vectortile/qgsmapboxglstyleconverter.cpp:878-1152 | The settings carry the text size if non-negative, and wrap length and letter spacing only if positive. They carry the font, and the text colour iff it is valid. They carry a buffer iff its size is positive, made of that size, the halo colour and the blur if positive. They also carry the label expression and the placement. Quadrant, offset and properties come from the position. The warnings are the text format's, the label expression's and the position's, in that order. |
| Symbol.ReadIcon | src/core/vectortile/qgsmapboxglstyleconverter.cpp:1154-1229 | There is an icon iff `icon-image` is given and its sprite is found. A missing sprite gives only the sprite warning. The icon's size is the sprite width times the pixel factor. Its angle is `icon-rotate`. Its opacity is `icon-opacity` when that is not negative. Its properties are the rotation's angle and the opacity's opacity. The warnings are the sprite's, the rotation's and the opacity's, in that order. |
| Symbol.Spacing | src/core/vectortile/qgsmapboxglstyleconverter.cpp:1243-1268 | The marker spacing is unset (-1) without `symbol-spacing`; a number is scaled by the pixel factor. Any present value is read as a number setting: zoom stops and `interpolate` lists set the `Interval` property and give the compiled default, and any other shape pushes the non-implemented warning. |
| Symbol.ParseSymbolLayerAsRenderer | src/core/vectortile/qgsmapboxglstyleconverter.cpp:1231-1346 | Without a layout: nothing and one warning. There is a renderer iff the layer is placed along lines; otherwise nothing is pushed. That renderer is a marker line. It places at the centre point iff the spacing is not positive, and otherwise at intervals of the spacing. It rotates markers unless rotation is aligned to the viewport. |
| Symbol.RendererMarker | src/core/vectortile/qgsmapboxglstyleconverter.cpp:1231-1346 | A line-placed layer's marker is the `icon-image` sprite, sized by its width times the pixel factor (no size without a sprite). It is rotated by `icon-rotate`, with no opacity. The rotation is its data-defined angle. |
| Symbol.RendererSettings | src/core/vectortile/qgsmapboxglstyleconverter.cpp:1243-1346 | For a line-placed layer, the `symbol-spacing` setting is the renderer's data-defined interval. The warnings are the spacing's, the rotation's and the sprite lookup's, in that order. |
| Symbol.LinePlacementIgnoresAnchor | src/core/vectortile/qgsmapboxglstyleconverter.cpp:1032-1046 | A labelled layer placed along lines gets curved line labels in the default quadrant with no offset, whatever its anchor. |
| Symbol.AnchorPlacesLabel | src/core/vectortile/qgsmapboxglstyleconverter.cpp:1084-1103 | Each of the nine anchor names puts a point label in the opposite quadrant, the one its anchor-table number denotes. |
| Symbol.TextSizeDefaultsTo16 | src/core/vectortile/qgsmapboxglstyleconverter.cpp:644-646 | Without `text-size` a labelled layer's labels are 16 units. |
| Symbol.MaxWidthInCharacters | src/core/vectortile/qgsmapboxglstyleconverter.cpp:674-701 | A positive `text-max-width` wraps at that many ems times 1.4 characters. |
| Symbol.UnspacedMarkersAtCentre | src/core/vectortile/qgsmapboxglstyleconverter.cpp:1311-1318 | A line-placed symbol layer without text and without spacing draws its marker once, at the centre point. |
| Styles.CapName | src/core/vectortile/qgsmapboxglstyleconverter.cpp:1732-1740 | Each cap style has a Mapbox name that parses back to it ("butt", "round", "square"). |
| Styles.JoinName | src/core/vectortile/qgsmapboxglstyleconverter.cpp:1742-1750 | Each join style has a Mapbox name that parses back to it ("miter", "bevel", "round"). |
| Styles.QuadrantAt | src/core/vectortile/qgsmapboxglstyleconverter.cpp:1084-1101 | The quadrant in a row and column of the 3×3 grid is numbered row by row, 0 to 8. |
| Styles.AnchorName | src/core/vectortile/qgsmapboxglstyleconverter.cpp:1052-1063 | The anchor at a box position selects the quadrant diagonally opposite, and its table entry is that quadrant's number. |
| Styles.AnchorsAreBoxPositions | src/core/vectortile/qgsmapboxglstyleconverter.cpp:1052-1063 | Every anchor in the conversion table names one of the nine box positions. |
| Styles.RotateMarkers | src/core/vectortile/qgsmapboxglstyleconverter.cpp:1270-1282 | Markers are not rotated iff `icon-rotation-alignment` is "viewport". |
| Colors.ParseColor | src/core/vectortile/qgsmapboxglstyleconverter.cpp:1684-1693 | A string goes to the colour parser with no warning. Anything else yields an invalid colour and exactly one warning (iff). |
| Colors.ColorWarningNamesValue | src/core/vectortile/qgsmapboxglstyleconverter.cpp:1686-1690 | The warning for a non-string colour names the value: equal warnings come from values with equal text. |
| Colors.ColorAsHslaComponents | src/core/vectortile/qgsmapboxglstyleconverter.cpp:1695-1701 | The hue is kept, and clamped to 0 when achromatic. Saturation and lightness are rescaled from 0..255 to whole percentages, truncated. The alpha is kept. |
| Colors.HslaOnScale | src/core/vectortile/qgsmapboxglstyleconverter.cpp:1695-1701 | A colour on Qt's scales gives hue 0..359, saturation and lightness 0..100 and alpha 0..255. |
| Interpolation.InterpolateExpression | src/core/vectortile/qgsmapboxglstyleconverter.cpp:1703-1730 | The scale expression is never empty. Its exact texts are stated in InterpolationExamples; its laws in InterpolationLaws. |
| InterpolationLaws.ConstantIgnoresRange | src/core/vectortile/qgsmapboxglstyleconverter.cpp:1705-1707 | Nearly equal end values give the first value times the multiplier, whatever the zoom range, the base and the exact last value. |
| InterpolationLaws.ScaleKind | src/core/vectortile/qgsmapboxglstyleconverter.cpp:1709-1729 | Distinct end values give `scale_linear` exactly for base 1 and `scale_exp` exactly for any other base, whatever the multiplier. |
| InterpolationLaws.HeadsExclusive | src/core/vectortile/qgsmapboxglstyleconverter.cpp:1709-1724 | No expression starts with both the linear and the exponential scale call. |
| InterpolationExamples.MultiplierAppends | src/core/vectortile/qgsmapboxglstyleconverter.cpp:1703-1730 | Nearly equal values give the constant value times the multiplier. Otherwise a multiplier other than 1 appends ` * multiplier` to the unmultiplied scale. |
| InterpolationExamples.LinearScale | tests/src/python/test_qgsmapboxglconverter.py:38-41 | The test's linear scale over zooms 5..13 and values 27..29 has exactly the expected text. |
| InterpolationExamples.ExponentialScale | tests/src/python/test_qgsmapboxglconverter.py:42-45 | Base 1.5 gives the expected `scale_exp` text. |
| InterpolationExamples.EqualValuesAreConstant | tests/src/python/test_qgsmapboxglconverter.py:46-50 | Equal ends give the constant "27", and "54" with multiplier 2. |
| InterpolationExamples.OneAndAHalf | tests/src/python/test_qgsmapboxglconverter.py:42-45 | 1.5 is written "1.5". |
| Interpolation.ParseStops | src/core/vectortile/qgsmapboxglstyleconverter.cpp:1558-1589 | Any zoom given as an expression gives the empty text and the unsupported-expression warning. Otherwise the result is `CASE`, one clause per consecutive stop pair, then `END`, with no warning. |
| Interpolation.NumericStopsFrom | src/core/vectortile/qgsmapboxglstyleconverter.cpp:1563-1588 | The loop from pair i agrees with the clause list from i on. It stops at the first expression zoom. |
| Interpolation.SomeZoomStep | src/core/vectortile/qgsmapboxglstyleconverter.cpp:1562-1580 | Passing a pair whose zooms are both acceptable does not change whether a rejected zoom lies ahead. |
| Interpolation.ParseInterpolateByZoom | src/core/vectortile/qgsmapboxglstyleconverter.cpp:1406-1430 | No stops: nothing. Otherwise the default is the first stop's value times the multiplier. One or two stops give a single scale between the first and last stop. More stops give the parseStops expression and its warnings. |
| InterpolationLaws.ByZoomActiveIffQuiet | src/core/vectortile/qgsmapboxglstyleconverter.cpp:1406-1430 | With stops, the numeric property is active exactly when nothing was warned. |
| InterpolationLaws.ConstantByZoom | src/core/vectortile/qgsmapboxglstyleconverter.cpp:1413-1429 | One or two stops with nearly equal values make the property the default as a constant. |
| InterpolationLaws.EndsConstant | src/core/vectortile/qgsmapboxglstyleconverter.cpp:1705-1707 | Nearly equal end values make the expression of the stops the formatted first value times the multiplier. |
| Interpolation.ParseOpacityStops | src/core/vectortile/qgsmapboxglstyleconverter.cpp:1455-1478 | The text is the clause below the first stop, one clause per stop pair, and the clause above the last stop. |
| Interpolation.OpacityStopsFrom | src/core/vectortile/qgsmapboxglstyleconverter.cpp:1461-1476 | The loop from pair i agrees with the clause list from i on. |
| Interpolation.ParseInterpolateOpacityByZoom | src/core/vectortile/qgsmapboxglstyleconverter.cpp:1432-1453 | The property is inactive iff there are no stops. One or two stops give the symbol colour with the alpha interpolated between the first and last stop, each stop's opacity scaled by the maximum. More than two stops give the parseOpacityStops expression. |
| InterpolationLaws.ConstantOpacity | src/core/vectortile/qgsmapboxglstyleconverter.cpp:1440-1447 | One or two stops with nearly equal alphas give the symbol colour with that alpha as a constant. |
| Interpolation.ParsePointStops | src/core/vectortile/qgsmapboxglstyleconverter.cpp:1524-1556 | Any zoom that is not a list gives the empty text and the offset warning. Otherwise the result is `CASE` plus one array clause per stop pair, then `END`. |
| Interpolation.PointStopsFrom | src/core/vectortile/qgsmapboxglstyleconverter.cpp:1528-1555 | The loop from pair i agrees with the clause list from i on. |
| Interpolation.ParseInterpolatePointByZoom | src/core/vectortile/qgsmapboxglstyleconverter.cpp:1480-1510 | No stops: nothing. Otherwise the default is the first stop's point times the multiplier. One or two stops give a single pair of scales. More stops give the parsePointStops expression and its warnings. |
| InterpolationLaws.PointActiveIffQuiet | src/core/vectortile/qgsmapboxglstyleconverter.cpp:1480-1510 | With stops, the point property is active exactly when nothing was warned. |
| InterpolationLaws.NumericZoomPointsNeverCompile | src/core/vectortile/qgsmapboxglstyleconverter.cpp:1528-1536 | More than two stops starting at a numeric zoom give no property, one warning, and only the first point as the default. |
| InterpolationLaws.ConstantPoint | src/core/vectortile/qgsmapboxglstyleconverter.cpp:1487-1509 | One or two stops with nearly equal coordinates make the property the default point as a constant array. |
| Interpolation.ParseStringStops | src/core/vectortile/qgsmapboxglstyleconverter.cpp:1591-1624 | An expression zoom gives nothing and a warning. Otherwise the result is `CASE` plus one clause per pair, mapping values through the conversion table, and the last stop's value as the `ELSE`. The last stop's text is the default. |
| Interpolation.StringStopsFrom | src/core/vectortile/qgsmapboxglstyleconverter.cpp:1595-1620 | The loop from pair i agrees with the clause list from i on. |
| Interpolation.ParseInterpolateStringByZoom | src/core/vectortile/qgsmapboxglstyleconverter.cpp:1512-1522 | No stops: nothing. A zoom expression as a stop zoom: nothing but the zoom-expression warning. Otherwise a `CASE` with one clause per stop and an `ELSE` with the last stop's value, and that value's text as the default. |
| InterpolationLaws.StringActiveIffQuiet | src/core/vectortile/qgsmapboxglstyleconverter.cpp:1512-1522 | With stops, the property is active and a default exists exactly when nothing was warned. |
| InterpolationLaws.StringElseIsDefault | src/core/vectortile/qgsmapboxglstyleconverter.cpp:1619-1622 | When the last value is a string the conversion map does not rename, the expression ends with `ELSE`, the literal of the default and `END`, and that literal denotes the default. |
| Interpolation.ColorStopsFrom | src/core/vectortile/qgsmapboxglstyleconverter.cpp:1357-1397 | The colour loop from pair i agrees with the clause list from i on. Its warnings are each pair's colour-parse warnings in order, then the last stop's. |
| Interpolation.ParseInterpolateColorByZoom | src/core/vectortile/qgsmapboxglstyleconverter.cpp:1348-1404 | No stops: nothing. Otherwise a `CASE` of one `color_hsla` clause per pair and the last colour. The default is the first stop's colour. The warnings are those of every colour parsed. |
| Interpolation.TextStops | src/core/vectortile/qgsmapboxglstyleconverter.cpp:1657-1662 | The stops of an interpolate list pair each zoom from position i on with the value after it. |
| Interpolation.StopsFunction | src/core/vectortile/qgsmapboxglstyleconverter.cpp:1657-1666 | The stops object built from an interpolate list has its stops and its base. |
| Interpolation.CompileStops | src/core/vectortile/qgsmapboxglstyleconverter.cpp:1664-1681 | An empty stop list compiles to nothing. |
| Interpolation.ParseInterpolateListByZoom | src/core/vectortile/qgsmapboxglstyleconverter.cpp:1626-1682 | A list not headed by "interpolate" gives nothing and a warning. An unknown technique gives nothing and a warning naming it. An input other than `zoom` gives nothing and ends with a warning naming it. Otherwise the result is the stops function's compilation, with every zoom and value as text. cubic-bezier warns first and uses base 1. An expression results only from a list of this shape with stops. |
| Settings.ReadNumber | src/core/vectortile/qgsmapboxglstyleconverter.cpp:441-467 | A number is scaled by the constant. Zoom stops and interpolate lists set the property, and the compiled default replaces the value where there is one. Any other shape keeps the initial value and warns. |
| Settings.ReadColor | src/core/vectortile/qgsmapboxglstyleconverter.cpp:170-196 | A string goes to the colour parser. Zoom stops and interpolate lists set the property and hand back the first stop's colour. Any other shape keeps the invalid colour and warns. |
| Settings.ReadPoint | src/core/vectortile/qgsmapboxglstyleconverter.cpp:281-316 | A list gives its first two numbers times the multiplier. Zoom stops set the property and give the first point. Any other shape keeps the origin and warns. |
| Settings.RetrieveSprite | src/core/vectortile/qgsmapboxglstyleconverter.cpp:1910-1936 | A sprite is found iff there is an atlas, its definition is a non-empty object and the copy is not null. It is then the atlas region the definition names, with no warning. Otherwise one warning names the sprite. |
| Settings.SpriteWarningNamesSprite | src/core/vectortile/qgsmapboxglstyleconverter.cpp:1912-1915 | Equal sprite warnings name the same sprite. |
| Settings.SpriteIgnoresOtherDefinitions | src/core/vectortile/qgsmapboxglstyleconverter.cpp:1918 | Changing or adding another sprite's definition does not change the lookup of a sprite. |
| Expressions.ParseKey | src/core/vectortile/qgsmapboxglstyleconverter.cpp:1980-1992 | `$type` reads the geometry type. A list reads its second element, or its first when shorter. Any other value is a quoted column reference that unquotes to its text. |
| Expressions.ParseValue | src/core/vectortile/qgsmapboxglstyleconverter.cpp:1958-1978 | Strings become quoted literals and numbers their text. Null, booleans and objects are unsupported and warn. |
| Expressions.EqualityTranslation | src/core/vectortile/qgsmapboxglstyleconverter.cpp:1790-1804 | `==` and `!=` give `<key> IS <value>` and `<key> IS NOT <value>`, with only the value's warnings. |
| Expressions.OrderTranslation | src/core/vectortile/qgsmapboxglstyleconverter.cpp:1790-1804 | `>=`, `>`, `<=` and `<` give `<key> <op> <value>`, with only the value's warnings. |
| Expressions.KeyTranslations | src/core/vectortile/qgsmapboxglstyleconverter.cpp:1782-1835 | `has` gives `<key> IS NOT NULL` and `!has` gives `<key> IS NULL`. `get` gives the key. `!` reads its operand, with `!` prefixed to the operator, as a key. None of them warns. |
| Expressions.OperandTranslations | src/core/vectortile/qgsmapboxglstyleconverter.cpp:1755-1831 | A combinator (operands from element 1) and `in`/`!in` (from element 2) give the empty text iff the operand loop fails. Otherwise they give the joined parts. Either way they push the loop's warnings. |
| Expressions.ToStringTranslation | src/core/vectortile/qgsmapboxglstyleconverter.cpp:1899-1902 | `to-string` of a nested list gives `to_string(<its translation>)` with its warnings. Of anything else, it gives `to_string()` and the non-supported warning. |
| Expressions.MatchAndUnknownTranslation | src/core/vectortile/qgsmapboxglstyleconverter.cpp:1836-1907 | `match` is translated by the match rules. An unknown operator gives the empty text and exactly the non-supported warning. |
| Expressions.ParseParts | src/core/vectortile/qgsmapboxglstyleconverter.cpp:1755-1781 | Success gives one part per operand. Failure ends with the unsupported-expression warning. |
| Expressions.PartsSucceedIff | src/core/vectortile/qgsmapboxglstyleconverter.cpp:1758-1770 | The operands translate iff every one of them is a string, a number or a translatable list. |
| Expressions.CombinatorFails | src/core/vectortile/qgsmapboxglstyleconverter.cpp:1755-1781 | A combinator gives the empty expression iff some operand does not translate. Its warnings are those of its operands. |
| Expressions.CombinatorsAgree | src/core/vectortile/qgsmapboxglstyleconverter.cpp:1755-1781 | Two combinators over the same operands push the same warnings and fail together. |
| Expressions.Negated | src/core/vectortile/qgsmapboxglstyleconverter.cpp:1785-1786 | The negated operand is the operand with `!` prefixed to its head and every other element kept. |
| Expressions.NegationReadsKey | src/core/vectortile/qgsmapboxglstyleconverter.cpp:1782-1789 | `["!", e]` translates to the text of e's second element, with no warning. |
| Expressions.HasAndNotHas | src/core/vectortile/qgsmapboxglstyleconverter.cpp:1805-1812 | `has` and `!has` on the same key give `IS NOT NULL` and `IS NULL` on it. |
| Expressions.MembershipComplement | src/core/vectortile/qgsmapboxglstyleconverter.cpp:1813-1831 | `in` and `!in` over the same values push the same warnings and fail together. On success `!in` is exactly "null or not in" the same list `in` tests. |
| Expressions.ParseMatch | src/core/vectortile/qgsmapboxglstyleconverter.cpp:1836-1898 | Exactly five elements ending in `true, false` form the simple match. A list of several labels gives `<column> IN (<quoted labels>)`. One label in a list, or a single string or number, gives that field's equality. Any other label gives nothing and the non-supported warning. Every other match becomes `CASE`, one `WHEN … THEN` per arm, then `ELSE` the last element `END`, with no warning. |
| Expressions.MatchArmsFrom | src/core/vectortile/qgsmapboxglstyleconverter.cpp:1871-1896 | The arm loop from arm j agrees with the arm list from j on. |
| Expressions.QuotedValues | src/core/vectortile/qgsmapboxglstyleconverter.cpp:1847-1851 | Each label becomes its quoted value, in order. |
| ExpressionExamples.GetName | tests/src/python/test_qgsmapboxglconverter.py:235-237 | `["get", name]` is the quoted column. |
| ExpressionExamples.ToStringOfName | tests/src/python/test_qgsmapboxglconverter.py:239-241 | `["to-string", ["get", name]]` is `to_string("name")`. |
| ExpressionExamples.EqualsInteger | tests/src/python/test_qgsmapboxglconverter.py:228-229 | `["==", name, n]` is `"name" IS n`. |
| ExpressionExamples.NegatedHas | src/core/vectortile/qgsmapboxglstyleconverter.cpp:1782-1789 | `["!", ["has", key]]` gives the bare key. |
| ExpressionExamples.MatchOneLabel | tests/src/python/test_qgsmapboxglconverter.py:192-195 | A one-label match returning true and false is the field's equality with the quoted label. |
| ExpressionExamples.MatchSeveralLabels | tests/src/python/test_qgsmapboxglconverter.py:202-207 | A several-label match returning true and false is the field's membership in the quoted labels. |
| Quoting.UnescapeEscape | src/core/vectortile/qgsmapboxglstyleconverter.cpp:1991 | Doubling the quote character is undone by unescaping. |
| Quoting.ColumnRefRoundTrip | src/core/vectortile/qgsmapboxglstyleconverter.cpp:1991 | A quoted column reference unquotes to its name. |
| Quoting.ColumnRefInjective | src/core/vectortile/qgsmapboxglstyleconverter.cpp:1991 | Different names give different column references. |
| Quoting.StringLiteralRoundTrip | src/core/vectortile/qgsmapboxglstyleconverter.cpp:1966-1967 | A quoted string literal unquotes to its text. |
| Quoting.QuotedValue | src/core/vectortile/qgsmapboxglstyleconverter.cpp:1893-1895 | Strings are quoted literals, booleans TRUE/FALSE, numbers their text, null NULL, a list `array( … )` of its quoted elements in order, an object the empty literal. |
| Quoting.SingletonArray | src/core/vectortile/qgsmapboxglstyleconverter.cpp:1893 | A list of one string quotes as an array literal holding that string's literal. |
| Quoting.FieldEqualityReadsBack | src/core/vectortile/qgsmapboxglstyleconverter.cpp:1853-1861 | A field equality starts with the column reference, which names the field. Null gives `IS NULL`; otherwise ` = ` follows, then for a string a literal denoting it and for a number its text. |
| Labels.ProcessLabelField | src/core/vectortile/qgsmapboxglstyleconverter.cpp:922-959 | A lone `{field}` is that field's name. Text without field references is itself. The result is an expression iff the text is not a lone reference yet contains one. |
| Labels.SplitTemplate | src/core/vectortile/qgsmapboxglstyleconverter.cpp:934-936 | The pieces concatenate back to the template. There are several iff the template contains a field reference. |
| Labels.RenderedTemplate | src/core/vectortile/qgsmapboxglstyleconverter.cpp:922-959 | For any template built from field/literal segments: a lone field gives its name. Otherwise it gives `concat` of each field's column reference and each non-empty literal's string, in order. |
| Labels.TextField | src/core/vectortile/qgsmapboxglstyleconverter.cpp:961-1016 | A string is processed as a template. A `format` list concatenates its names. Any other list is a filter expression with its warnings. Other shapes give the empty field and a warning. |
| Labels.FormatOfNames | src/core/vectortile/qgsmapboxglstyleconverter.cpp:983-999 | A `format` list of plain names gives an expression whose k-th part unquotes to the k-th name. |
| Labels.TextTransform | src/core/vectortile/qgsmapboxglstyleconverter.cpp:1018-1030 | The result is always marked as an expression. A transform other than upper/lower case keeps the text. |
| Labels.TransformKeepsField | src/core/vectortile/qgsmapboxglstyleconverter.cpp:1018-1030 | Upper/lower case wraps the field's operand: the expression itself, or the column reference of a plain field name. |
| Labels.UnknownTransformKeepsExpression | src/core/vectortile/qgsmapboxglstyleconverter.cpp:1018-1030 | An unknown transform leaves an expression field unchanged. |
| Labels.FontFrom | src/core/vectortile/qgsmapboxglstyleconverter.cpp:755-767 | Without a style, the family is the whole name and no split into family and style is known. With a style, it is the first split the font database knows. |
| Labels.FontRecombines | src/core/vectortile/qgsmapboxglstyleconverter.cpp:755-774 | Family and style joined by a space give back the font name. |
| Labels.TextFont | src/core/vectortile/qgsmapboxglstyleconverter.cpp:730-778 | A font is found iff `text-font` is a string or a list. A list uses its first name. Otherwise it warns. A font that is found pushes no warning. |

## Left out

- File and network input are not modelled: the JSON text overload of `convert` (lines 57-60) parses text first, and the model starts from the parsed tree.
- The null-context case of `parseLayers` (lines 66-71) is not modelled. It allocates a fresh context, so the model always takes a context.
- Warnings already held by the context before `convert` are assumed empty.
- Colour-string parsing (`QgsSymbolLayerUtils::parseColor`) is a function of the context, not implemented.
- The font database is a predicate of the context, not implemented.
- Cutting a sprite out of the atlas image is a function of the context.
- `retrieveSpriteAsBase64` is modelled through `RetrieveSprite`: PNG and base64 encoding are byte formats outside the model.
- Floating point is modelled as exact reals. `qgsDoubleNear` uses its tolerance of 2^-50 as a real.
- Interpolation.InterpolateExpression: its own contract only says the text is not empty. The constant case and the choice of scale function are stated in InterpolationLaws, the exact texts in InterpolationExamples.
- Text.Fmt: it is exact only for some values. The model prints the integer part and at most six fraction digits, cut off. `QString::number` and `QString::arg` on a double print six significant digits, rounded, in the `g` format. So 1234.5678 gives `1234.57` in Qt. `QVariant`'s number-to-text prints the shortest text that reads back. Both switch to exponent notation below 0.0001 and from 1000000 on, so 1000000 gives `1e+06` and 0.00001 gives `1e-05`. The model and Qt agree on zero and on values with at most six significant digits, at most six fraction digits and a magnitude in that range. Number texts inside generated expressions are exact only for such values.
- `QString::toDouble` is modelled by a decimal parser that reads plain decimal texts and yields 0 otherwise.
- Qt objects are reduced to the values the converter sets on them: symbols, symbol layers, label settings, text formats and buffers. Rendering units, the blur effect object, label priority and debug logging are not modelled.
- `renderer()` and `labeling()` only clone the result and are not modelled.
- Where the source indexes past the end of an empty list, its behaviour is undefined. The model picks a fallback instead:
  - `["!"]` with no operand: the empty text is prefixed;
  - a `text-anchor` stop list that is empty;
  - a `line-dasharray` stops object with no stops;
  - a template piece with no closing brace.
- Interpolation.CompileStops: its own contract covers only the empty stop list; the other cases are stated through ParseInterpolateListByZoom and the per-type stop compilers it hands work to.
- Symbol.ReadTextPaint: the colours and halo width read from zoom stops or `interpolate` expressions are stated only through the properties they may change, not their values.
- Line.ReadWidthAndOffset: its own contract states only the frame and the reset. The settings it stores and the values it reads are stated by Line.WidthAndOffsetSettings and Line.WidthAndOffsetValues, which keeps each proof small.
- Symbol.ReadTextLayout: the letter spacing, the stop-list reset of the size, the properties and the warnings are stated by Symbol.TextLayoutSettings, which keeps each proof small.
- Symbol.ParseSymbolLayerAsRenderer: the marker's image, size and angle, the interval and angle properties and the warnings are stated by Symbol.RendererMarker and Symbol.RendererSettings, for the same reason.
- Expressions.ParseExpression: it carries no contract of its own, because a contract on it weighs on every proof through the mutual recursion with ParseValue and ParseParts. Each operator's translation is stated by Expressions.EqualityTranslation, OrderTranslation, KeyTranslations, OperandTranslations, ToStringTranslation and MatchAndUnknownTranslation.
