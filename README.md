# Meshly mesh-gradient editor, modelled in Dafny

Meshly is a browser editor for mesh gradients. A gradient is a list of colour
points (id, colour, x and y as percentages), a filter record (brightness,
contrast, saturation, hue, blur, grain, grain pattern, grain blend mode), a
canvas record (width, height, display scale, a "W:H" ratio label), an
animation speed, a blend mode and a flag that allows dragging points.

This project models the deterministic logic under the editor's interface:

- the preview's **sanitiser and compositor**: it drops blank colours, clamps
  positions and filters, and builds one `radial-gradient` layer per point. Each
  layer carries an index-dependent two-hex-digit alpha (the `#RRGGBBAA` form of
  CSS Color Module Level 4). The compositor also builds the filter chain, reports
  errors in a fixed precedence, and holds the canvas view's drag, zoom,
  render-error and retry state;
- the **text exporters**: a CSS block, and an SVG document with one
  `radialGradient` (SVG 1.1, section 13.2.3) per point. A dispatcher maps the
  chosen format to a download;
- the **canvas panel**: the integer clamp to [1, 8000], the per-field error
  map, templates, ratio presets, the orientation toggle and the large-canvas
  warning;
- the **animation panel**: easing curves, the frame clock that keeps a progress
  value in [0, 1), the clamped perturbation of the points, the preview layers
  and the settings handlers;
- the **colour-list and filter-record edits**, and the **application shell**:
  its initial state, record updates, randomisation and point moves;
- the **notification centre**: the toast list, the timer table and the
  provider guard.

JavaScript numbers are `JsNumber.Num`: a finite real, `NaN`, or one of the two
infinities. The model uses exact real arithmetic. `Math.round(x)` is
`floor(x + 0.5)`. Strings are sequences of characters. `String.prototype.trim`,
`split`, `join`, `padStart`, `toString(10)` and `toString(16)` on integers, and
`Number(...)` on decimal text are written out in `JsText`.

The code in `src/components/sidebar/AnimationSection.tsx` imports an
`AnimationState` type that `src/types/gradient.ts` does not declare. The
model takes its four fields from the way the panel uses them.

Module layout, one file per source file:

| file | module | source |
|---|---|---|
| wrappers.dfy | `Wrappers` | `Option`, `Result` |
| js_number.dfy | `JsNumber` | JavaScript numbers and `Math` |
| js_text.dfy | `JsText` | JavaScript string operations |
| gradient_types.dfy | `GradientTypes` | src/types/gradient.ts |
| gradient_canvas.dfy | `GradientCanvas` | src/components/GradientCanvas.tsx |
| export_modal.dfy | `ExportModal` | src/components/ExportModal.tsx |
| canvas_section.dfy | `CanvasSection` | src/components/sidebar/CanvasSection.tsx |
| animation_section.dfy | `AnimationSection` | src/components/sidebar/AnimationSection.tsx |
| color_section.dfy | `ColorSection` | src/components/sidebar/ColorSection.tsx |
| filter_section.dfy | `FilterSection` | src/components/sidebar/FilterSection.tsx |
| app.dfy | `App` | src/App.tsx |
| notification_center.dfy | `NotificationCenter` | src/components/NotificationCenter.tsx |

Pure code is modelled as functions and lemmas. State that the components
update step by step is modelled as classes whose methods state the new state:
`GradientCanvas.CanvasView`, `CanvasSection.CanvasEditor`,
`AnimationSection.AnimationClock`, `App.Editor` and
`NotificationCenter.Provider`.

## Model

| member | source | states |
|---|---|---|
| JsNumber.Max | src/components/GradientCanvas.tsx:51 | `Math.max`: NaN iff either argument is NaN, otherwise whichever argument is not below the other |
| JsNumber.Min | src/components/GradientCanvas.tsx:51 | `Math.min`: NaN iff either argument is NaN, otherwise whichever argument is not above the other |
| JsNumber.Add | src/components/sidebar/AnimationSection.tsx:121-122 | JavaScript `+` on numbers: NaN propagates, opposite infinities give NaN, and finite sums are exact |
| JsNumber.Mul | src/components/sidebar/CanvasSection.tsx:148-149 | JavaScript `*`: exact on finite values; NaN iff an operand is NaN or an infinity meets a zero |
| JsNumber.Div | src/components/sidebar/CanvasSection.tsx:148-149 | JavaScript `/`: exact for a non-zero finite divisor; x/0 is NaN iff x is 0; a finite value over an infinity is 0; an infinity over an infinity is NaN |
| JsNumber.RoundReal | src/components/sidebar/CanvasSection.tsx:75 | `Math.round` of a finite value: the integer r with r - 0.5 <= x < r + 0.5 |
| JsNumber.Round | src/components/sidebar/CanvasSection.tsx:148-149 | `Math.round` on any number: non-finite values are kept, finite ones are rounded |
| JsNumber.Clamp | src/components/sidebar/AnimationSection.tsx:19-20 | `Math.min(max, Math.max(min, v))`: the result lies in [lo, hi]; a value in range is unchanged, one below gives lo and one above gives hi |
| JsText.Strip | src/components/GradientCanvas.tsx:45 | removing the characters of a class from both ends leaves none of them at either end, and leaves nothing iff every character is in the class |
| JsText.Trim | src/components/GradientCanvas.tsx:45 | `trim`: no whitespace at either end, and the result is empty iff the text is all whitespace |
| JsText.TrimUnpadded | src/components/GradientCanvas.tsx:45 | text without whitespace at its ends trims to itself |
| JsText.TrimIdempotent | src/components/GradientCanvas.tsx:45 | trimming twice is trimming once |
| JsText.Split | src/components/sidebar/CanvasSection.tsx:146 | `split` on one character: at least one part, and no part contains the separator |
| JsText.JoinSplit | src/components/sidebar/CanvasSection.tsx:158-164 | joining the parts of a split with the separator gives the text back |
| JsText.SplitJoin | src/components/sidebar/CanvasSection.tsx:158-164 | splitting a join of separator-free parts gives the parts back |
| JsText.Join | src/components/GradientCanvas.tsx:104 | `join`: no parts give the empty string and one part gives that part; JoinSplit, SplitJoin and JoinSnoc state the rest |
| JsText.Reverse | src/components/sidebar/CanvasSection.tsx:162 | `reverse`: element i of the result is element n-1-i of the input |
| JsText.NatDigits | src/components/GradientCanvas.tsx:97-99 | `toString(base)` on a natural number in base 10 or 16: at least one digit, all of them valid in the base |
| JsText.NatDigitsRoundTrip | src/components/GradientCanvas.tsx:97-99 | reading the digits back gives the number |
| JsText.HexDigitsAtMost | src/components/GradientCanvas.tsx:97-99 | a number below 16^k takes at most k hex digits |
| JsText.HexDigitsAtLeast | src/components/GradientCanvas.tsx:97-99 | a number of at least 16^(k-1) takes at least k hex digits |
| JsText.PadStart | src/components/GradientCanvas.tsx:97-99 | `padStart`: the length is the larger of the text length and the width, the text sits at the end, and fill characters come before it |
| JsText.LeadingZerosValue | src/components/sidebar/ColorSection.tsx:85 | leading zeros do not change the value of a digit string |
| JsText.ParseNumber | src/components/sidebar/CanvasSection.tsx:126 | `Number(...)` on trimmed text: the empty string gives 0 (the decimal case is stated by IntTextParses) |
| JsText.IntTextParses | src/components/sidebar/CanvasSection.tsx:126 | an integer's decimal text parses back to that integer |
| JsText.IntText | src/components/ExportModal.tsx:37 | `${n}` for an integer: a minus sign for a negative one, then the decimal digits; IntTextParses states that it reads back |
| JsText.HexText | src/components/ExportModal.tsx:20 | `toString(16)` for an integer: a minus sign for a negative one, then the hex digits; CssAlphaHex states its value |
| JsText.Show | src/components/ExportModal.tsx:20 | `${n}` for any number: "NaN", "Infinity", "-Infinity", integers by IntText, other values as decimals |
| GradientTypes.Ids | src/types/gradient.ts:1-6 | the ids of a point list, one per point, in order |
| GradientCanvas.SafeCoordinate | src/components/GradientCanvas.tsx:51-52 | a coordinate is clamped into [0, 100]; in-range values are kept; a non-finite value becomes 50 |
| GradientCanvas.SanitizePoint | src/components/GradientCanvas.tsx:40-60 | a point is dropped iff its colour is blank; a kept point is clean, keeps its id, and has its colour trimmed |
| GradientCanvas.Somes | src/components/GradientCanvas.tsx:61 | `filter(Boolean)`: no longer than the input, empty iff every entry is null, and each survivor is one of the entries |
| GradientCanvas.SanitizeColors | src/components/GradientCanvas.tsx:39-61 | the sanitised list is no longer than the input, every point in it is clean, and it is empty iff every colour is blank |
| GradientCanvas.SanitizedEach | src/components/GradientCanvas.tsx:39-60 | the `map` step applies the point sanitiser at every index |
| GradientCanvas.CleanAll | src/components/GradientCanvas.tsx:45-58 | each point is cleaned, in order |
| GradientCanvas.SanitizeColorsCons | src/components/GradientCanvas.tsx:39-61 | the sanitiser handles the head point, then the rest |
| GradientCanvas.SanitizeColorsKeepsOrder | src/components/GradientCanvas.tsx:39-61 | the sanitised list is exactly the non-blank input points, in input order, each cleaned |
| GradientCanvas.CleanAllAppend | src/components/GradientCanvas.tsx:39-61 | cleaning distributes over concatenation |
| GradientCanvas.SanitizeColorsIds | src/components/GradientCanvas.tsx:54-58 | the surviving ids are the ids of the non-blank points, in order |
| GradientCanvas.SanitizePointClean | src/components/GradientCanvas.tsx:40-60 | a clean point passes the sanitiser unchanged |
| GradientCanvas.SanitizeColorsClean | src/components/GradientCanvas.tsx:39-61 | a list of clean points is its own sanitised list |
| GradientCanvas.SanitizeColorsIdempotent | src/components/GradientCanvas.tsx:39-61 | sanitising twice is sanitising once |
| GradientCanvas.ClampFilter | src/components/GradientCanvas.tsx:76-82 | a finite value below lo becomes lo, one above hi becomes hi, one in [lo, hi] is kept; a non-finite value takes the fallback; the result always lies in [lo, hi] |
| GradientCanvas.SanitizeFilters | src/components/GradientCanvas.tsx:84-93 | each numeric filter is clamped with its own bounds and fallback: brightness, contrast and saturation into [0, 200] falling back to 100, hue into [-360, 360], blur into [0, 50] and grain into [0, 100], each falling back to 0; the grain type and blend mode pass through; in-range filters are unchanged |
| GradientCanvas.SanitizeFiltersIdempotent | src/components/GradientCanvas.tsx:84-93 | sanitising filters twice is sanitising them once |
| GradientCanvas.LayerOpacity | src/components/GradientCanvas.tsx:96 | the opacity lies in [0.2, 0.75]; it is 0.75 - 0.1i up to index 5 and 0.2 from index 6 on |
| GradientCanvas.LayerOpacityNonIncreasing | src/components/GradientCanvas.tsx:96 | a later layer is never more opaque than an earlier one |
| GradientCanvas.LayerAlpha | src/components/GradientCanvas.tsx:97 | the rounded 8-bit alpha lies in [51, 191] |
| GradientCanvas.PreviewAlphaHex | src/components/GradientCanvas.tsx:97-99 | the alpha suffix is exactly two hex digits whose value is the rounded alpha |
| GradientCanvas.GradientLayer | src/components/GradientCanvas.tsx:95-102 | the i-th preview layer: the coordinates, the colour with the PreviewAlphaHex suffix of i, and a 50% radius; CssLayerDiffersFromPreview compares it with the export |
| GradientCanvas.MapIndexed | src/components/GradientCanvas.tsx:95 | `map((x, i) => ...)`: one result per element, in order |
| GradientCanvas.MapIndexedSnoc | src/components/GradientCanvas.tsx:95 | mapping a list with one more element adds exactly that element's image at the end |
| GradientCanvas.BackgroundSnoc | src/components/GradientCanvas.tsx:95-104 | one more point adds exactly one layer after ", " and leaves the earlier text as it was |
| GradientCanvas.JoinSnoc | src/components/GradientCanvas.tsx:104 | joining one more part appends the separator and that part |
| GradientCanvas.Background | src/components/GradientCanvas.tsx:104 | the layers joined by ", "; BackgroundSnoc states that each point adds one layer |
| GradientCanvas.FilterSegments | src/components/GradientCanvas.tsx:106-116 | the chain is brightness, contrast, saturate, hue-rotate and blur in that order, plus `url(#grainFilter)` as a sixth segment iff the grain is above 0 |
| GradientCanvas.FilterChain | src/components/GradientCanvas.tsx:120 | the segments joined by single spaces; FilterSegments states their order and the grain condition |
| GradientCanvas.Fallback | src/components/GradientCanvas.tsx:24-32 | a failure draws nothing: background and filter are "none", there are no points, and each size is the input value if finite, else exactly 0 |
| GradientCanvas.ValidationError | src/components/GradientCanvas.tsx:35-74 | the first failing check, each case an if-and-only-if: no points, then no point with a non-blank colour, then a non-finite or non-positive size; none when all pass |
| GradientCanvas.SanitizedNonEmptyIffVisible | src/components/GradientCanvas.tsx:61-64 | the sanitised list is non-empty iff some colour is not blank |
| GradientCanvas.CanvasRendering | src/components/GradientCanvas.tsx:21-135 | the error precedence, each case an if-and-only-if: an empty list first, then "no valid colors", then the dimensions; on success, the sanitised points, the layers, the filter chain and the input size |
| GradientCanvas.RecoverableFailure | src/components/GradientCanvas.tsx:127-134 | the exception path gives the generic message and is the only recoverable failure |
| GradientCanvas.SafeScale | src/components/GradientCanvas.tsx:192-194 | the display scale lies in [0.1, 4]: a finite scale below 0.1 gives 0.1, one above 4 gives 4, an in-range one is kept, and a non-finite one gives 1 |
| GradientCanvas.PointerPercent | src/components/GradientCanvas.tsx:172-173 | the pointer offset as a percentage of a non-empty rectangle, clamped into [0, 100]: a pointer before the start gives 0, one past the end gives 100 |
| GradientCanvas.CanvasView.constructor | src/components/GradientCanvas.tsx:16-19 | the view starts with no drag, zoom 1, no error and retry key 0 |
| GradientCanvas.CanvasView.SyncRenderError | src/components/GradientCanvas.tsx:137-149 | after the sync, the shown error is the rendering's error, or none when there is none |
| GradientCanvas.CanvasView.RetryRender | src/components/GradientCanvas.tsx:151-154 | a retry clears the error and increments the retry key |
| GradientCanvas.CanvasView.MouseDown | src/components/GradientCanvas.tsx:156-163 | ignored when adjustment is off; otherwise it selects the point and starts dragging it |
| GradientCanvas.CanvasView.MouseMove | src/components/GradientCanvas.tsx:165-178 | a move is emitted only while a point is dragged with adjustment on; it names that point, and its x and y are the pointer's percentages of the rectangle's width and height, so they lie in [0, 100] |
| GradientCanvas.CanvasView.MouseUp | src/components/GradientCanvas.tsx:180-182 | mouse-up ends the drag |
| GradientCanvas.CanvasView.ZoomIn | src/components/GradientCanvas.tsx:184-186 | the zoom takes one inward ZoomStep and the rest of the view is unchanged |
| GradientCanvas.CanvasView.ZoomOut | src/components/GradientCanvas.tsx:188-190 | the zoom takes one outward ZoomStep and the rest of the view is unchanged |
| GradientCanvas.ZoomStep | src/components/GradientCanvas.tsx:184-190 | a step in adds 0.2 up to 2.8 and gives exactly 3 above 2.8; a step out subtracts 0.2 from 0.7 on and gives exactly 0.5 below 0.7; a zoom in [0.5, 3] stays there |
| GradientCanvas.ZoomAfter | src/components/GradientCanvas.tsx:184-190 | the zoom after a sequence of steps; ZoomStaysInRange states its range |
| GradientCanvas.ZoomStaysInRange | src/components/GradientCanvas.tsx:184-190 | any sequence of zoom steps keeps the zoom in [0.5, 3] |
| ExportModal.CssAlpha | src/components/ExportModal.tsx:19-20 | the CSS alpha round((0.7 - 0.1i) * 255) is non-negative up to index 7 and negative from index 8 on, since nothing clamps it |
| ExportModal.CssAlphaHex | src/components/ExportModal.tsx:20 | `toString(16)` with no padding: for a non-negative alpha, at least one hex digit whose value is the alpha |
| ExportModal.CssAlphaHexSeven | src/components/ExportModal.tsx:19-20 | at index 7 the suffix is the single character "0", with no padding |
| ExportModal.CssAlphaHexNegative | src/components/ExportModal.tsx:19-20 | from index 8 on the suffix is a minus sign followed by hex digits |
| ExportModal.CssAlphaBelowPreview | src/components/ExportModal.tsx:19-20 | the exported alpha is always lower than the preview's alpha for the same index |
| ExportModal.CssAlphaHexDiffersFromPreview | src/components/ExportModal.tsx:19-20 | the exported suffix never equals the preview's suffix |
| ExportModal.CssLayer | src/components/ExportModal.tsx:18-21 | the layer starts with the `radial-gradient(circle at x% y%, colour` head, ends with the ` 0%, transparent 50%)` tail, and between them holds exactly the CSS alpha suffix |
| ExportModal.CssLayerDiffersFromPreview | src/components/ExportModal.tsx:18-21 | an exported layer never equals the preview layer for the same point and index |
| ExportModal.CssFilterIgnoresGrain | src/components/ExportModal.tsx:24 | the exported filter line does not depend on the grain settings |
| ExportModal.CssFilter | src/components/ExportModal.tsx:24 | the five raw filter values in a fixed order; CssFilterIgnoresGrain states that grain never enters it |
| ExportModal.CssBackground | src/components/ExportModal.tsx:18-23 | empty for no points; otherwise it starts with the first point's layer |
| ExportModal.CssBackgroundSnoc | src/components/ExportModal.tsx:18-23 | one more point adds exactly one exported layer after ", " |
| ExportModal.GenerateCSS | src/components/ExportModal.tsx:15-32 | the block opens with the layers and the raw filter line and closes with the canvas width and height, verbatim, in px; its length is exactly the two together, so nothing else sits between them |
| ExportModal.GradientId | src/components/ExportModal.tsx:38 | `gradient-i` contains no quote and no closing parenthesis |
| ExportModal.GradientIdsDistinct | src/components/ExportModal.tsx:38 | two gradient ids are equal iff their indices are |
| ExportModal.TakeUntil | src/components/ExportModal.tsx:38 | reads an attribute value: the longest prefix without the delimiter |
| ExportModal.TakeUntilPrefix | src/components/ExportModal.tsx:38 | a delimiter-free prefix followed by the delimiter is read back exactly |
| ExportModal.SvgIds | src/components/ExportModal.tsx:37-46 | definition i declares `gradient-i`, and rect i refers to `gradient-i` |
| ExportModal.SvgRectsResolve | src/components/ExportModal.tsx:37-46 | rect i refers to definition j iff i = j |
| ExportModal.SvgDefOpacityFixed | src/components/ExportModal.tsx:39-40 | after the id, a definition's text does not depend on the index, so the stop opacities are 0.7 and 0 for every point |
| ExportModal.SvgDef | src/components/ExportModal.tsx:36-41 | the i-th `radialGradient` definition; SvgIds and SvgDefOpacityFixed state its id and its index-free body |
| ExportModal.SvgRect | src/components/ExportModal.tsx:43-45 | the i-th rect; SvgIds states the id it refers to |
| ExportModal.SvgDefs | src/components/ExportModal.tsx:36-41 | the definitions of all points concatenated; SvgDefsSnoc states that each point adds one |
| ExportModal.SvgRects | src/components/ExportModal.tsx:43-45 | the rects of all points concatenated; SvgRectsSnoc states that each point adds one |
| ExportModal.SvgDefsSnoc | src/components/ExportModal.tsx:36-41 | one more point appends exactly its definition, with the next index, and leaves the earlier ones as they were |
| ExportModal.SvgRectsSnoc | src/components/ExportModal.tsx:43-45 | one more point appends exactly its rect, referring to the next index, and leaves the earlier ones as they were |
| ExportModal.SvgOpen | src/components/ExportModal.tsx:48 | the root tag with the canvas width and height verbatim and the SVG namespace |
| ExportModal.GenerateSVG | src/components/ExportModal.tsx:48-53 | the document opens with the sized root and `<defs>`, followed by the definitions of every point in order, and closes with `</defs>`, the rects of every point in order and `</svg>`; its length is exactly the two together, so no other definition or rect sits between them |
| ExportModal.ExportContent | src/components/ExportModal.tsx:93-104 | css gives the CSS, svg gives the SVG, png gives the fixed notice, and anything else gives "" |
| ExportModal.HandleExport | src/components/ExportModal.tsx:78-91 | a download exists iff the format is css or svg, with the file names mesh-gradient.css/.svg and types text/css and image/svg+xml |
| CanvasSection.ClampDimension | src/components/sidebar/CanvasSection.tsx:71-77 | the result is an integer in [1, 8000]; a non-finite value gives 1; a finite value rounds to itself in range, to 1 below 0.5 and to 8000 from 8000.5 on |
| CanvasSection.ClampDimensionFixedIff | src/components/sidebar/CanvasSection.tsx:71-77 | the clamp leaves a value unchanged iff it is an integer in [1, 8000] |
| CanvasSection.RoundInteger | src/components/sidebar/CanvasSection.tsx:75 | rounding an integer gives it back |
| CanvasSection.ClampDimensionIdempotent | src/components/sidebar/CanvasSection.tsx:71-77 | clamping twice is clamping once |
| CanvasSection.DimensionMessage | src/components/sidebar/CanvasSection.tsx:94-95 | "Maximum size is 8000px" iff the raw value is above 8000, else "Minimum size is 1px" |
| CanvasSection.ErrorAfter | src/components/sidebar/CanvasSection.tsx:91-113 | a field whose value the clamp changes gets its message; an unchanged field in the update is cleared; a field outside the update keeps its previous error |
| CanvasSection.FractionalSizeReportedAsMinimum | src/components/sidebar/CanvasSection.tsx:91-113 | an in-range non-integer size is reported as "Minimum size is 1px" |
| CanvasSection.Merge | src/components/sidebar/CanvasSection.tsx:80 | `{ ...canvas, ...updates }`: exactly the fields present in the update are overwritten |
| CanvasSection.ClampedMerge | src/components/sidebar/CanvasSection.tsx:80-89 | the merged canvas with width and height each replaced by its clamp: both in range, scale and ratio pass through, and an in-range merge is unchanged |
| CanvasSection.TemplatesInRange | src/components/sidebar/CanvasSection.tsx:11-50 | every template size is an integer in [1, 3840] x [1, 2160], inside the clamp range and below the warning thresholds |
| CanvasSection.AllTemplates | src/components/sidebar/CanvasSection.tsx:200 | the 26 menu options: the 18 social templates, then the 8 standard ones |
| CanvasSection.TemplateUpdate | src/components/sidebar/CanvasSection.tsx:136-143 | a template sets width, height and the ratio label, and leaves the scale alone |
| CanvasSection.FindTemplateByName | src/components/sidebar/CanvasSection.tsx:200 | `find` by name: the template found has that name and comes before every other template with it; if none is found, no template has it |
| CanvasSection.MenuChoiceByNameAppliesWrongTemplate | src/components/sidebar/CanvasSection.tsx:200-216 | choosing option 9 (Twitter, Cover Photo, 1200 wide) resolves to the Facebook Cover Photo, 830 wide |
| CanvasSection.FindTemplateByIndex | src/components/sidebar/CanvasSection.tsx:200-216 | the corrected lookup by option index yields a template of the menu |
| CanvasSection.MenuChoiceByIndexAppliesChosenTemplate | src/components/sidebar/CanvasSection.tsx:200-216 | with index-valued options, every menu choice resolves to the template chosen |
| CanvasSection.ParseRatio | src/components/sidebar/CanvasSection.tsx:146 | `split(':').map(Number)` destructured: a label without a colon gives its number and NaN; ParseRatioLabel states the "a:b" case |
| CanvasSection.RatioSide | src/components/sidebar/CanvasSection.tsx:148-149 | a NaN input gives NaN, and a finite result is an integer; RatioSides states the values |
| CanvasSection.RatioSides | src/components/sidebar/CanvasSection.tsx:145-156 | for positive w and h, each side is round(800 * side / longer side): the longer one is 800, the other lies in [0, 800] and is at least 1 when the ratio is at most 1600 |
| CanvasSection.RatioSideBounds | src/components/sidebar/CanvasSection.tsx:148-149 | 800 * side / longer lies in (0, 800] and rounds into [0, 800] |
| CanvasSection.ParseRatioLabel | src/components/sidebar/CanvasSection.tsx:146 | an "a:b" label of two integers reads back as a and b |
| CanvasSection.SplitRatioLabel | src/components/sidebar/CanvasSection.tsx:146 | an "a:b" label splits at its colon into exactly the two digit strings |
| CanvasSection.DigitsParse | src/components/sidebar/CanvasSection.tsx:146 | a digit string, trimmed and read by `Number`, gives its number back |
| CanvasSection.RatioLabelFits | src/components/sidebar/CanvasSection.tsx:145-156 | for an "a:b" label with both sides positive and at most 1600 to 1 apart, both computed sides are integers in [1, 800], one of them 800 |
| CanvasSection.RatioPresetLabel | src/components/sidebar/CanvasSection.tsx:52-56 | every preset label is "a:b" for positive sides a, b of at most 16 |
| CanvasSection.RatioPresetsFit | src/components/sidebar/CanvasSection.tsx:52-56 | for every preset, both sides are integers in [1, 800] and one of them is 800 |
| CanvasSection.ReverseLabel | src/components/sidebar/CanvasSection.tsx:162 | a label without a colon is unchanged; ReverseLabelInvolution states that reversing twice gives the label back |
| CanvasSection.ReverseLabelInvolution | src/components/sidebar/CanvasSection.tsx:162 | reversing a ratio label twice gives it back |
| CanvasSection.ToggleUpdate | src/components/sidebar/CanvasSection.tsx:158-164 | the toggle swaps width and height and reverses the label |
| CanvasSection.ToggleTwice | src/components/sidebar/CanvasSection.tsx:158-164 | toggling an in-range canvas twice restores it |
| CanvasSection.SmallSidesNotLarge | src/components/sidebar/CanvasSection.tsx:171-176 | with both sides in [0, 4000) the warning never fires, so the area clause is unreachable |
| CanvasSection.IsLargeCanvas | src/components/sidebar/CanvasSection.tsx:173-176 | the warning: a side of at least 4000 or an area of at least 24,000,000, on JavaScript comparisons; LargeIffThresholds states it on finite sizes |
| CanvasSection.LargeIffThresholds | src/components/sidebar/CanvasSection.tsx:171-176 | the warning fires iff width >= 4000, height >= 4000 or area >= 24,000,000 |
| CanvasSection.CanvasEditor.constructor | src/components/sidebar/CanvasSection.tsx:67-69 | no errors, and the menu shows "Choose Template" |
| CanvasSection.CanvasEditor.ApplyCanvasUpdate | src/components/sidebar/CanvasSection.tsx:79-116 | the new canvas is the clamped merge, and each field's error follows the error rule |
| CanvasSection.CanvasEditor.UpdateDimension | src/components/sidebar/CanvasSection.tsx:118-134 | blank or non-numeric input sets "Enter a numeric value" on that field and keeps the canvas and the other error; a number updates that field through the clamp, and the other field's error is re-checked against its unchanged size |
| CanvasSection.CanvasEditor.ApplyTemplate | src/components/sidebar/CanvasSection.tsx:136-143 | a template sets its size and label exactly, clears both errors and becomes the selection |
| CanvasSection.CanvasEditor.ApplyRatio | src/components/sidebar/CanvasSection.tsx:145-156 | the canvas takes the computed sides through the clamp and the given label, and each field's error follows the clamp of its computed side |
| CanvasSection.CanvasEditor.ToggleOrientation | src/components/sidebar/CanvasSection.tsx:158-164 | the sides swap through the clamp and the label reverses; each field's error follows the clamp of the other field's old size, so on an in-range canvas both clear |
| AnimationSection.EasingEndpoints | src/components/sidebar/AnimationSection.tsx:22-35 | every curve maps 0 to 0 and 1 to 1 |
| AnimationSection.ApplyEasing | src/components/sidebar/AnimationSection.tsx:21-34 | the named curve, linear for any other name; EasingEndpoints, EasingBounds, EasingMonotone and UnknownEasingIsLinear state its properties |
| AnimationSection.EaseInOutContinuous | src/components/sidebar/AnimationSection.tsx:28-30 | the two pieces of the shared quadratic meet at (0.5, 0.5) |
| AnimationSection.UnknownEasingIsLinear | src/components/sidebar/AnimationSection.tsx:31-33 | any other easing name is linear |
| AnimationSection.EasingMonotone | src/components/sidebar/AnimationSection.tsx:22-35 | on [0, 1] every curve is non-decreasing |
| AnimationSection.EaseInOutMonotone | src/components/sidebar/AnimationSection.tsx:28-30 | the piecewise quadratic is non-decreasing across both pieces |
| AnimationSection.EasingBounds | src/components/sidebar/AnimationSection.tsx:22-35 | on [0, 1] every curve stays within [0, 1] |
| AnimationSection.Frac | src/components/sidebar/AnimationSection.tsx:71 | `x - Math.floor(x)` lies in [0, 1) |
| AnimationSection.RemOne | src/components/sidebar/AnimationSection.tsx:100 | `x % 1` lies in (-1, 1) and is the fractional part for x >= 0 |
| AnimationSection.EasedProgress | src/components/sidebar/AnimationSection.tsx:99-102 | for non-negative progress the eased value lies in [0, 1] |
| AnimationSection.DurationMs | src/components/sidebar/AnimationSection.tsx:64 | the frame length is the larger of 200 ms and duration * 1000 |
| AnimationSection.Advance | src/components/sidebar/AnimationSection.tsx:67-72 | a step's progress lies in [0, 1) and equals the plain sum when no wrap happens |
| AnimationSection.AdvanceStep | src/components/sidebar/AnimationSection.tsx:69-71 | a step is next - floor(next) |
| AnimationSection.FracOfSum | src/components/sidebar/AnimationSection.tsx:71 | wrapping after each step or only at the end gives the same value |
| AnimationSection.AdvanceAdditive | src/components/sidebar/AnimationSection.tsx:61-78 | two frames advance as far as one frame covering both |
| AnimationSection.AnimationClock.constructor | src/components/sidebar/AnimationSection.tsx:43-45 | progress 0, no last frame and no request |
| AnimationSection.AnimationClock.CancelRequest | src/components/sidebar/AnimationSection.tsx:53-55 | a request, if present, is cancelled |
| AnimationSection.AnimationClock.Start | src/components/sidebar/AnimationSection.tsx:80 | playing requests the first frame |
| AnimationSection.AnimationClock.Tick | src/components/sidebar/AnimationSection.tsx:61-78 | the first frame after a (re)start only records its time; a speed <= 0 keeps the progress; otherwise the progress is advanced and stays in [0, 1); a new frame is requested |
| AnimationSection.AnimationClock.Cleanup | src/components/sidebar/AnimationSection.tsx:82-87 | the effect cleanup cancels the request and forgets the last frame |
| AnimationSection.AnimationClock.Stop | src/components/sidebar/AnimationSection.tsx:51-59 | when not playing: cancel, forget the last frame and rewind the progress to 0 |
| AnimationSection.AnimationClock.Unmount | src/components/sidebar/AnimationSection.tsx:90-97 | unmounting cancels the request |
| AnimationSection.AmplitudeFactor | src/components/sidebar/AnimationSection.tsx:114 | the factor is 0.6 for the first point, 1.0 for the last of two or more, always in [0.6, 1]; a single point gets 0.6 with no division by zero |
| AnimationSection.AmplitudeFactorMonotone | src/components/sidebar/AnimationSection.tsx:114 | later points move at least as far as earlier ones |
| AnimationSection.ClampPercent | src/components/sidebar/AnimationSection.tsx:19-20 | `clamp(v, 0, 100)` lands in [0, 100] unless v is NaN: a value below 0 (including minus infinity) gives 0, one above 100 (including infinity) gives 100, an in-range one is kept |
| AnimationSection.AnimatePoint | src/components/sidebar/AnimationSection.tsx:111-123 | a moved point keeps its id and colour; each coordinate lies in [0, 100] whatever cos and sin return, unless the input coordinate is NaN; when cos and sin stay in [-1, 1] and the speed is non-negative, an in-range coordinate moves by at most 6 + 4 speed; at speed -1.5 the amplitude is 0 and an in-range coordinate does not move |
| AnimationSection.Oscillate | src/components/sidebar/AnimationSection.tsx:121-122 | `clamp(v + offset, 0, 100)` lands in [0, 100] unless v is NaN; an in-range coordinate moves in the direction of the offset and never further than the offset |
| AnimationSection.AnimatedColors | src/components/sidebar/AnimationSection.tsx:104-125 | same count, order, ids and colours; only positions move, clamped into [0, 100] unless the input coordinate is NaN; an empty list comes back unchanged |
| AnimationSection.AnimationAlpha | src/components/sidebar/AnimationSection.tsx:133 | alpha lies in [0.25, 0.7]; it is 0.7 - 0.12i up to index 3 and 0.25 from index 4 on |
| AnimationSection.AnimationAlphaHex | src/components/sidebar/AnimationSection.tsx:134-136 | two hex digits whose value is round(alpha * 255) |
| AnimationSection.PreviewLayer | src/components/sidebar/AnimationSection.tsx:137 | the layer starts at the point's coordinates and ends with its colour, the clamped alpha suffix of its index and a 55% radius; its length is exactly the two together |
| AnimationSection.PreviewGradientEmptyIff | src/components/sidebar/AnimationSection.tsx:127-141 | the preview is the flat "#f3f4f6" iff there are no points |
| AnimationSection.PreviewGradient | src/components/sidebar/AnimationSection.tsx:127-141 | the flat grey for no points; otherwise it starts with the first point's layer |
| AnimationSection.PreviewGradientSnoc | src/components/sidebar/AnimationSection.tsx:132-140 | one more point adds exactly its layer, at the next index, after ", " |
| JsText.JoinStartsWithFirst | src/components/sidebar/AnimationSection.tsx:140 | a join starts with its first part |
| AnimationSection.RoundTo2 | src/components/sidebar/AnimationSection.tsx:144 | `Number(x.toFixed(2))` is a whole number of hundredths within 0.005 of x, with halves rounded away from zero |
| AnimationSection.SpeedChange | src/components/sidebar/AnimationSection.tsx:143-145 | only the speed changes, to a whole number of hundredths within 0.005 of the input, halves away from zero |
| AnimationSection.DurationChange | src/components/sidebar/AnimationSection.tsx:147-149 | only the duration changes, to the nearest integer |
| AnimationSection.EasingChange | src/components/sidebar/AnimationSection.tsx:151-153 | only the easing changes |
| AnimationSection.TogglePlayback | src/components/sidebar/AnimationSection.tsx:155-157 | only `isPlaying` flips |
| AnimationSection.ResetAnimation | src/components/sidebar/AnimationSection.tsx:159-166 | reset gives stopped, speed 1, 8 seconds and "ease-in-out" |
| AnimationSection.SliderSpeedsKept | src/components/sidebar/AnimationSection.tsx:143-145 | every slider speed from 0.5 to 3 in steps of 0.1 survives the rounding unchanged |
| ColorSection.RandomHexColor | src/components/sidebar/ColorSection.tsx:85 | "#" followed by exactly six lower-case hex digits whose value is floor(random * 16777215) |
| ColorSection.PaddedHex | src/components/sidebar/ColorSection.tsx:85 | a number below 16^6, in hex and padded with zeros, is six hex digits with that value |
| ColorSection.AddColor | src/components/sidebar/ColorSection.tsx:82-90 | one point is appended and the others are unchanged; its id is the clock's text, its colour is well-formed, and x, y are in [0, 100) |
| ColorSection.UpdateColor | src/components/sidebar/ColorSection.tsx:92-95 | length, ids and positions are kept; exactly the points with the id get the colour |
| ColorSection.UpdateColorLastWins | src/components/sidebar/ColorSection.tsx:92-95 | a second recolouring of the same id overrides the first |
| ColorSection.UpdateColorKeepsDistinctIds | src/components/sidebar/ColorSection.tsx:92-95 | recolouring keeps distinct ids distinct |
| ColorSection.Without | src/components/sidebar/ColorSection.tsx:99 | the filter keeps exactly the points whose id differs |
| ColorSection.WithoutAppend | src/components/sidebar/ColorSection.tsx:99 | the filter keeps the survivors in order, since it splits over concatenation |
| ColorSection.WithoutAbsent | src/components/sidebar/ColorSection.tsx:99 | removing an id no point carries changes nothing |
| ColorSection.WithoutDistinct | src/components/sidebar/ColorSection.tsx:98-99 | with distinct ids at most one point is removed |
| ColorSection.RemoveColor | src/components/sidebar/ColorSection.tsx:97-104 | a no-op with two or fewer points; otherwise the colours are exactly `Without(colors, id)`, the survivors in their order and multiplicity, so every point with the id goes and no other; the selection clears iff it was that id |
| ColorSection.RemoveColorKeepsTwo | src/components/sidebar/ColorSection.tsx:97-104 | with distinct ids and at least two points, at least two remain |
| ColorSection.ApplyPreset | src/components/sidebar/ColorSection.tsx:106-113 | ids and positions are kept, and point i takes colour preset[i mod k] |
| ColorSection.ApplyPresetIdempotent | src/components/sidebar/ColorSection.tsx:106-113 | applying the same preset again changes nothing |
| ColorSection.ApplyPresetShortList | src/components/sidebar/ColorSection.tsx:106-113 | a list no longer than the palette takes its first colours in order |
| ColorSection.RandomizeColors | src/components/sidebar/ColorSection.tsx:115-121 | only colours change, each to "#" and six lower-case hex digits |
| ColorSection.ColorPresets | src/components/sidebar/ColorSection.tsx:14-69 | 53 palettes, each with two or three well-formed colours |
| ColorSection.MenuPresetGivesHexColors | src/components/sidebar/ColorSection.tsx:106-113 | any menu palette can be applied, and every point then has a well-formed colour |
| FilterSection.UpdateNumeric | src/components/sidebar/FilterSection.tsx:45-47 | `updateFilter` on a number field replaces exactly that field |
| FilterSection.UpdateText | src/components/sidebar/FilterSection.tsx:45-47 | `updateFilter` on a text field replaces exactly that field |
| FilterSection.FieldsDetermineFilters | src/components/sidebar/FilterSection.tsx:45-47 | two filter records that agree on every field are equal |
| FilterSection.UpdateNumericLaws | src/components/sidebar/FilterSection.tsx:45-47 | writing back a field's own value changes nothing, and a second write replaces the first |
| FilterSection.ResetFilters | src/components/sidebar/FilterSection.tsx:49-60 | the reset record is in range, is a fixed point of the sanitiser, and has "noise" and "normal" |
| FilterSection.ResetMatchesSanitizerFallbacks | src/components/sidebar/FilterSection.tsx:49-60 | the reset values are the values the sanitiser falls back to for non-finite filters |
| FilterSection.FilterControls | src/components/sidebar/FilterSection.tsx:10-16 | five sliders, none for saturation, each with min < max |
| FilterSection.SliderValueSurvivesSanitizer | src/components/sidebar/FilterSection.tsx:10-16 | each slider range lies inside its field's clamp range, so any slider value passes the sanitiser unchanged |
| FilterSection.QuickPresets | src/components/sidebar/FilterSection.tsx:62-69 | six hue presets |
| FilterSection.QuickPresetInRange | src/components/sidebar/FilterSection.tsx:62-69 | every hue preset lies in the hue slider's range, and choosing one sets a hue the sanitiser keeps |
| FilterSection.GrainTypes | src/components/sidebar/FilterSection.tsx:18-22 | three grain patterns |
| FilterSection.DeclaredBlendModes | src/types/gradient.ts:16 | the twelve blend modes the type declares |
| FilterSection.BlendModes | src/components/sidebar/FilterSection.tsx:24-39 | fourteen menu entries, the first twelve being the declared ones |
| FilterSection.UndeclaredBlendModesPassThrough | src/components/sidebar/FilterSection.tsx:24-39 | an entry lies outside the declared union iff it is one of the last two; the sanitiser passes every entry through unchanged |
| App.InitialColors | src/App.tsx:8-13 | four points with ids "1" to "4" and well-formed colours |
| App.InitialFilters | src/App.tsx:15-24 | the initial filters equal the panel's reset record |
| App.InitialCanvas | src/App.tsx:26-31 | the initial canvas has positive finite sides |
| App.InitialState | src/App.tsx:34-41 | distinct ids, adjustment off, speed 0 and blend mode "normal" |
| App.InitialStateRendersUnchanged | src/App.tsx:8-41 | the preview sanitiser leaves the initial points and filters unchanged, and the initial state renders without error |
| App.HexColorTrimmed | src/App.tsx:66 | a well-formed hex colour has no whitespace at either end |
| App.MoveColor | src/App.tsx:95-100 | ids and colours are kept; the points with the id get (x, y) and the others are unchanged |
| App.MoveColorKeepsClean | src/App.tsx:95-100 | with clean points and an in-range target, the preview keeps the moved list as it is |
| App.RandomizedColors | src/App.tsx:63-71 | count and ids are kept; every colour is well-formed, and x, y are in [0, 100) |
| App.RandomizedColorsRender | src/App.tsx:63-71 | the preview keeps every randomised point as it is |
| App.ApplyUpdate | src/App.tsx:59-61 | `{ ...prev, ...updates }` overwrites exactly the fields present in the update |
| App.ApplyUpdateLaws | src/App.tsx:59-61 | an empty update changes nothing, and two updates in a row are one combined update |
| App.Editor.constructor | src/App.tsx:34-44 | the editor starts from the initial state with nothing selected |
| App.Editor.UpdateColors | src/App.tsx:47-49 | only the colours change |
| App.Editor.UpdateFilters | src/App.tsx:51-53 | only the filters change |
| App.Editor.UpdateCanvas | src/App.tsx:55-57 | only the canvas changes |
| App.Editor.UpdateGradientState | src/App.tsx:59-61 | exactly the fields present in the update are overwritten |
| App.Editor.RandomizeGradient | src/App.tsx:63-71 | only the colours change, to the randomised list, which the preview keeps as it is |
| App.Editor.OnColorMove | src/App.tsx:95-100 | only the colours change, to the moved list |
| App.Editor.SelectColor | src/App.tsx:44 | only the selection changes |
| NotificationCenter.UseNotifications | src/components/NotificationCenter.tsx:31-39 | the provider's value when there is a provider, and the fixed error when there is none |
| NotificationCenter.WithoutId | src/components/NotificationCenter.tsx:60 | the filter keeps exactly the toasts whose id differs |
| NotificationCenter.WithoutAbsentId | src/components/NotificationCenter.tsx:60 | removing an id no toast carries changes nothing |
| NotificationCenter.WithoutIdAppend | src/components/NotificationCenter.tsx:60 | the filter keeps the other toasts in order |
| NotificationCenter.Provider.constructor | src/components/NotificationCenter.tsx:48-49 | no toasts and no timers |
| NotificationCenter.Provider.Notify | src/components/NotificationCenter.tsx:68-80 | exactly one toast is appended, of kind "info" unless given; a timer is registered for its id iff the timeout (default 4000) is positive; every timer key is a toast's id |
| NotificationCenter.Provider.Remove | src/components/NotificationCenter.tsx:59-66 | toasts with the id go and the rest stay in order; its timer is cancelled and its entry deleted; an unknown id changes nothing |
| NotificationCenter.Provider.FireTimer | src/components/NotificationCenter.tsx:76 | a timeout that fires removes its toast and its timer entry; every other toast's entry stays, and only this timeout and the toast's own registered timer leave the pending set |
| NotificationCenter.Provider.Unmount | src/components/NotificationCenter.tsx:51-57 | every registered timer is cancelled and the table is emptied |

## Left out

- Rendering is not modelled: the JSX, the Tailwind class strings, the icons and the components that only wire others together (`Header`, `Sidebar`, `PaletteSelector`, `RandomizeColorsButton`).
- Browser I/O is not modelled. This covers the Blob, object-URL and anchor download, and the clipboard copy. `HandleExport` returns the content, file name and type that the download receives.
- `requestAnimationFrame`, `cancelAnimationFrame`, `setTimeout` and `clearTimeout` are opaque handles. Frames and timeouts are method calls (`Tick`, `FireTimer`), and cancelling means forgetting the handle.
- `getBoundingClientRect` is a parameter. `Date.now()` and `Math.random()` are parameters with their stated ranges.
- `Math.cos`, `Math.sin` and `Math.PI` are parameters of the animation functions.
- Floating point is not modelled. The model uses exact reals, so it does not reproduce IEEE-754 rounding artefacts.
- ExportModal.CssAlpha: computed on exact reals, so it rounds halves that IEEE-754 doubles miss. In doubles `0.7 - index * 0.1` lands just below the exact value at indexes 2, 4, 6, 8, 10, 12, 14, 16, 22, 24, 26, 28, 36 and 38 (of the indexes up to 40). The browser writes "7f", "4c", "19", "-1a", "-4d", "-80", "-b3", "-e6", "-17f", "-1b2", "-1e5", "-218", "-2e4" and "-317" there, and the model writes "80", "4d", "1a", "-19", "-4c", "-7f", "-b2", "-e5", "-17e", "-1b1", "-1e4", "-217", "-2e3" and "-316". So exports with three or more points differ from the browser's in those suffixes. The lemmas about the export alpha still hold for the browser's values: each such value is one below the model's, which keeps it below the preview alpha, at "0" for index 7 and negative from index 8.
- Negative zero and integer overflow are not modelled.
- The grain filter's float-valued SVG attributes and its random `seed` are not modelled.
- JsText.ParseNumber: covers an optional sign, decimal digits with an optional fraction, and "Infinity". Any other text is treated as NaN. Exponents, hexadecimal literals and other notations that `Number(...)` accepts are not modelled.
- JsText.NatDigits: only bases 10 and 16 are modelled. Those are the only two `toString` radixes the editor uses.
- JsText.Show: numbers in template literals are written exactly for integers and as plain decimals otherwise. JavaScript's shortest round-trip formatting and its exponent notation are not modelled. No contract depends on the digits.
- `Intl.NumberFormat` and `toFixed` used only for display are not modelled.
- GradientCanvas.SanitizePoint: the declared types rule out the branch for a missing point or a non-string colour, so it is not modelled.
- GradientCanvas.RecoverableFailure: the exception handler is a separate function. Nothing inside the modelled `try` block can throw for values of the declared types.
- GradientCanvas.CanvasView.MouseMove: the rectangle's size is taken as given. With a zero-width rectangle the clamp still applies, but the range property is stated only for positive sizes.
- The PNG path only logs a message, and no rasteriser exists, so neither is modelled.
- React memoisation and effect scheduling are plain calls. The stop, cleanup and unmount effects are separate methods.
- ExportModal.CssFilterIgnoresGrain, GradientCanvas.SanitizeFiltersIdempotent and App.ApplyUpdateLaws: these follow from the definitions without further proof.
- `updateFilter` can store a string into a numeric field, because its `value` parameter is `number | string`. No call site does this, so the model has separate numeric and text updates.
- A `Partial<GradientState>` whose present key holds `undefined` is not modelled. An update field is either absent or a value.
- The `timeoutMs` option is a JavaScript number. `NaN` and negative values register no timer, as in the source.
- ColorSection.ApplyPreset: requires a non-empty palette. An empty one would produce `undefined` colours. Every palette in the menu has two or three colours, and `MenuPresetGivesHexColors` covers them.
- The "selected preset" and "expanded" panel states, and the "copied" flag of the export dialog, are display state only.
- `eslint.config.js` and the other configuration files are not part of this model.

## Findings

| source | as written | input that shows it | evidently intended | confidence | as-written member | corrected member |
|---|---|---|---|---|---|---|
| src/components/sidebar/CanvasSection.tsx:200 | the template menu's options carry `value={template.name}` (lines 208 and 215), and the change handler applies the first template whose name matches | choosing "Twitter - Cover Photo" (1200 x 400) finds the Facebook "Cover Photo" first, and applies 830 x 312 | each option applies the template it shows | not executed | CanvasSection.MenuChoiceByNameAppliesWrongTemplate | CanvasSection.MenuChoiceByIndexAppliesChosenTemplate |
