# QR code generator core, modelled in Dafny

This project models the decision logic of `backend/app/core/qr_generator.py`.
That file turns a QR bit matrix, a background image and a set of style
parameters into a PNG: data modules drawn as diamonds, squares or circles,
coloured either with fixed colours or "adaptively" from the background under
each module, with finder and alignment patterns drawn on top in colours
picked from the background's dominant colours.

The model keeps what the program decides and leaves out what the libraries
compute. The QR encoder, Pillow's quantizer and its pixel reads are inputs.
Drawing a shape is a paint event, a `Shape` value, rather than pixels.

Modules, one per concern of the source file:

- `Colors` (colors.dfy): `calculate_hsl_from_rgb` on the 0..240 scale and the
  two brightness helpers. Python floats are exact reals. Python's `round`
  (ties to even), float `% 6` and `int()` (truncation) are written out.
- `Palette` (palette.dfy): the part of `get_dominant_colors` after
  quantization, as a function and as the loop method it specifies. Also the
  crop box, fallback pixel and most frequent entry of
  `get_prominent_color_in_region`, and `get_contrasting_color`.
- `Classification` (classification.dfy): finder cells, alignment centres
  (the position table is an input) and alignment cells.
- `FinderColors` (finder_colors.dfy): `determine_finder_colors`. It is a
  method on a `ColorList` object, because the source pads the caller's list
  in place. The method is proved equal to a specification function, and the
  function's properties are proved as lemmas.
- `Geometry` (geometry.dfy): the three shape helpers, the finder and
  alignment pattern layers, the finder overlay, data-module boxes and
  diamond vertices, and the Contained-mode clamp and centring. Each drawing
  function appends to a `ShapeLayer` object.
- `Renderer` (renderer.dfy): the data-module loop of `create_qr_code`. It
  fills a `ModuleLayer` object, a map from cell to paint.
- `Pipeline` (pipeline.dfy): parameter validation, canvas size, background
  placement, the order of the layers, and the error-correction lookup of
  `generate_qr_code_api`.
- `Sequences` (sequences.dfy) and `Wrappers` (wrappers.dfy): list
  comprehensions, Python's stable `sort(reverse=True)` (an insertion sort),
  `list(set(...))`, the pad-to-three loop, and `Option`/`Result`.

## Model

| member | source | states |
|---|---|---|
| Colors.RoundHalfEven | backend/app/core/qr_generator.py:71-73 | `round`: the result is within 0.5 of the argument, and an exact tie goes to the even integer |
| Colors.Trunc | backend/app/core/qr_generator.py:85-87 | `int()` on a float truncates toward zero: floor for non-negative values, ceiling for negative ones |
| Colors.FloatModSix | backend/app/core/qr_generator.py:63 | float `% 6` lies in [0, 6) and differs from its argument by a whole multiple of 6 |
| Colors.Clamp240 | backend/app/core/qr_generator.py:74-76 | the result lies in 0..240: unchanged in range, 0 below it, 240 above it |
| Colors.CalculateHsl | backend/app/core/qr_generator.py:49-79 | a non-numeric argument gives (0, 0, 0); h, s and l each lie in 0..240; zero saturation forces hue 0 |
| Colors.RawHslInRange | backend/app/core/qr_generator.py:52-70 | for channels in 0..255 the unscaled hue lies in [0, 360) and saturation and lightness in [0, 1] |
| Colors.RoundStaysInScale | backend/app/core/qr_generator.py:71-76 | rounding a value of [0, 240] stays in 0..240 |
| Colors.HslIsScaledRounding | backend/app/core/qr_generator.py:71-79 | for a byte colour the clamps never fire: each component is exactly the rounded, scaled raw value |
| Colors.GreyIsUnsaturated | backend/app/core/qr_generator.py:55-57 | a grey (r = g = b) has saturation 0 and hue 0 |
| Colors.MidGrey | backend/app/core/qr_generator.py:49-79 | the fallback grey (128, 128, 128) converts to (0, 0, 120) |
| Colors.ExtremeLightness | backend/app/core/qr_generator.py:49-79 | black converts to (0, 0, 0) and white to (0, 0, 240) |
| Colors.ClampFactor | backend/app/core/qr_generator.py:82-83 | the factor is clamped to [0, 1], unchanged when already inside it |
| Colors.DarkenChannel | backend/app/core/qr_generator.py:87 | `max(0, int(x * scale))` is non-negative and at most a non-negative x; scale 1 keeps x, scale 0 gives 0 |
| Colors.LightenChannel | backend/app/core/qr_generator.py:98 | the result is a byte, at least a byte x; factor 0 keeps x, factor 1 gives 255 |
| Colors.ReduceBrightness | backend/app/core/qr_generator.py:81-92 | same length out; other lengths unchanged; alpha unchanged; each channel in [0, original]; factor <= 0 keeps and factor >= 1 zeroes the channels |
| Colors.IncreaseBrightness | backend/app/core/qr_generator.py:94-110 | same length out; other lengths unchanged; alpha unchanged; each channel in [original, 255]; factor <= 0 keeps and factor >= 1 saturates the channels |
| Colors.Darkened | backend/app/core/qr_generator.py:81-92 | an RGB colour darkened stays a colour and no channel grows |
| Colors.Lightened | backend/app/core/qr_generator.py:94-110 | an RGB colour lightened stays a colour and no channel shrinks |
| Sequences.StableSortDesc | backend/app/core/qr_generator.py:130 | `sort(key, reverse=True)` returns a permutation sorted by descending key |
| Sequences.StableSortKeepsTies | backend/app/core/qr_generator.py:130 | the sort is stable: for every key value, the elements with that key keep their input order |
| Sequences.FirstOfLargest | backend/app/core/qr_generator.py:319-326 | the head of the sorted filtered list is the first element, in input order, that qualifies with the largest key |
| Sequences.FindFirst | backend/app/core/qr_generator.py:226-233 | the early-exit scan finds the first qualifying index, and finds none exactly when no element qualifies |
| Sequences.Dedup | backend/app/core/qr_generator.py:271-272 | `list(set(...))`: the same elements, each once |
| Sequences.PadToThreeShape | backend/app/core/qr_generator.py:296-298 | the pad loop keeps the list as a prefix, reaches length 3, and repeats the last element (or the fill when empty) |
| Palette.SelectFromFacts | backend/app/core/qr_generator.py:135-145 | from any loop state: the new entries come from the input in order, indices stay distinct and fit the palette, at most k are held, if fewer than k were taken every fitting index was taken, and over a count-sorted input no fitting entry left out has a larger count than a new one |
| Palette.SelectFromShape | backend/app/core/qr_generator.py:135-145 | the held entries only grow, by input entries taken in order, up to k (at least one) |
| Palette.SelectFromDistinct | backend/app/core/qr_generator.py:136-142 | the `indices_seen` check keeps indices distinct, and only entries with a full triple are held |
| Palette.SelectFromComplete | backend/app/core/qr_generator.py:135-145 | when fewer than k are held, every input entry with a full triple has its index held |
| Palette.SelectFromRanked | backend/app/core/qr_generator.py:130-145 | over entries sorted by count, descending, no entry with a full triple whose index was not collected has a larger count than an entry the loop collected |
| Palette.Chosen | backend/app/core/qr_generator.py:129-145 | every collected entry has a full palette triple |
| Palette.ColorsOf | backend/app/core/qr_generator.py:140-142 | the colour list is the palette triple of each collected index, in order |
| Palette.DominantColorsRanked | backend/app/core/qr_generator.py:128-145 | collected entries are ordered by count descending; equal counts keep the quantizer's order; each index appears once; each has a full triple; at most k; if fewer than k, no fitting index is missed; no fitting entry left out has a larger count than a collected one |
| Palette.DominantColorsLayout | backend/app/core/qr_generator.py:147-163 | nothing collected: the first-pixel fallback three times; else the collected colours padded with the last to at least three; cut to at most k |
| Palette.PaddedColours | backend/app/core/qr_generator.py:158-161 | padding a non-empty colour list gives max(3, length) colours: the list, then its last colour repeated |
| Palette.CollectDominantColors | backend/app/core/qr_generator.py:132-146 | the selection loop returns the palette colours of the chosen entries, in order |
| Palette.DominantColorsConversionFailed | backend/app/core/qr_generator.py:113-116 | when the RGB conversion fails, black three times |
| Palette.GetDominantColors | backend/app/core/qr_generator.py:128-163 | the loops with `indices_seen` and the padding loop compute DominantColors |
| Palette.MostFrequent | backend/app/core/qr_generator.py:194-205 | a colour is returned only for an entry of largest count with a full triple, and one is always returned when every entry fits |
| Palette.MostFrequentIsFirstLargest | backend/app/core/qr_generator.py:194-205 | the entry read is the first, in `getcolors` order, with the largest count |
| Palette.ClampByte | backend/app/core/qr_generator.py:174 | the result is a byte: unchanged for bytes, 0 below, 255 above |
| Palette.PixelColor | backend/app/core/qr_generator.py:172-178 | a tuple of 3 or more gives its first three channels, each kept when a byte, 0 when negative, 255 when above 255; an int gives that grey; anything else (128, 128, 128) |
| Palette.RegionBox | backend/app/core/qr_generator.py:167-168 | the crop box is clipped to the image: a side past the left or top edge is 0, past the right or bottom edge the width or height; otherwise each side truncates the centre plus or minus the radius toward zero |
| Palette.RegionBoxInsideImage | backend/app/core/qr_generator.py:167-169 | a box with area lies inside the image |
| Palette.NearestPixel | backend/app/core/qr_generator.py:171 | the fallback pixel lies inside a non-empty image; it is the pixel containing the centre when the centre is inside, 0 for a centre before the image and the last pixel for one past it |
| Palette.ProminentColor | backend/app/core/qr_generator.py:165-219 | a box without area gives the nearest pixel's colour and never consults the quantizer; any other result is the palette colour of a largest-count entry with a full triple, and it is one whenever every entry of the crop has a full triple |
| Palette.ContrastingColor | backend/app/core/qr_generator.py:221-250 | the first palette colour, in list order, that qualifies (dark: l < threshold and not black; light: l > threshold and not white); else the kind's fallback RGB; any other kind the dark fallback |
| Classification.FinderByCentres | backend/app/core/qr_generator.py:252-259 | for n >= 7 a cell is a finder cell exactly when it is within distance 3 of one of the three finder centres |
| Classification.FinderBlocks | backend/app/core/qr_generator.py:252-259 | finder cells are exactly the top-left, top-right and bottom-left 7x7 blocks; never the bottom-right block when n >= 14; never outside the matrix |
| Classification.Product | backend/app/core/qr_generator.py:269 | the pairs are exactly those with the row from the first list and the column from the second |
| Classification.AlignmentCenters | backend/app/core/qr_generator.py:261-274 | empty below version 2 or without positions; otherwise exactly the position pairs other than (6,6), (6,last), (last,6), each once |
| Classification.IsAlignmentModule | backend/app/core/qr_generator.py:276-288 | a cell is an alignment cell exactly when some centre is within row and column distance 2 |
| Classification.AlignmentCellsFromPositions | backend/app/core/qr_generator.py:261-288 | composed: no alignment cells below version 2; at version 2 and up, a cell is one exactly when a non-finder position pair is within distance 2 |
| Classification.PositionsOfCentre | backend/app/core/qr_generator.py:261-288 | an alignment cell is within distance 2 of a position pair that is not a finder corner |
| Classification.CentreOfPositions | backend/app/core/qr_generator.py:261-288 | conversely, a cell within distance 2 of such a position pair is an alignment cell |
| Classification.VersionTwoCenters | backend/app/core/qr_generator.py:261-274 | positions [6, 18] give the single centre (18, 18) |
| FinderColors.MultiColourBase | backend/app/core/qr_generator.py:329-341 | exactly three innermost base colours are chosen |
| FinderColors.WithPatternAlpha | backend/app/core/qr_generator.py:342-354 | each chosen colour, darkened when asked, at alpha 225, in order |
| FinderColors.FinderColorsShape | backend/app/core/qr_generator.py:290-373 | in every mode the outer colour is (0,0,0,225), with exactly three inner and three innermost colours, all at alpha 225 |
| FinderColors.StaticFinderColors | backend/app/core/qr_generator.py:300-302 | static mode, an unknown mode and an unknown sub-mode give white-225 inner and black-225 innermost colours |
| FinderColors.SingleColourChoice | backend/app/core/qr_generator.py:305-326 | the inner colour is white if no colour qualifies; otherwise a qualifying colour of greatest lightness, the first such in list order |
| FinderColors.SingleColourFinderColors | backend/app/core/qr_generator.py:305-328 | single-colour mode repeats that one inner colour three times at alpha 225, innermost black |
| FinderColors.MultiColourInner | backend/app/core/qr_generator.py:355 | multi-colour mode keeps the inner colours white |
| FinderColors.MultiColourThree | backend/app/core/qr_generator.py:329-358 | with three or more colours not near white, the innermost colours are the first three of them, darkened by a quarter when asked |
| FinderColors.MultiColourFew | backend/app/core/qr_generator.py:329-358 | with one or two such colours, the first of them three times |
| FinderColors.MultiColourNone | backend/app/core/qr_generator.py:336-358 | with none, the first three colours of the padded list |
| FinderColors.ColorList.PadInPlace | backend/app/core/qr_generator.py:297-298 | the caller's list is padded in place to three, repeating its last colour or black |
| FinderColors.ColorList.DetermineFinderColors | backend/app/core/qr_generator.py:290-373 | leaves the caller's list padded and returns FinderColors of the original list |
| FinderColors.ColorsFromPadded | backend/app/core/qr_generator.py:300-366 | the three mode branches on a padded list compute FinderColorsOf |
| FinderColors.CollectBright | backend/app/core/qr_generator.py:307-318 | the loop collects exactly the bright, suitable colours, in list order |
| FinderColors.CollectNotNearWhite | backend/app/core/qr_generator.py:329-335 | the loop collects exactly the colours that are not near white, in list order |
| FinderColors.InnermostColours | backend/app/core/qr_generator.py:342-358 | each chosen colour, darkened by 0.25 when asked, at alpha 225, index by index |
| Geometry.EffectiveShape | backend/app/core/qr_generator.py:458 | an unknown pattern shape becomes a square; known ones unchanged |
| Geometry.CircleShape | backend/app/core/qr_generator.py:375-384 | drawn exactly when the radius is positive: an ellipse of diameter 2r centred on the point |
| Geometry.SquareShape | backend/app/core/qr_generator.py:386-396 | drawn exactly when the size is positive: a rectangle of that side centred on the point |
| Geometry.ActualCornerRadius | backend/app/core/qr_generator.py:405-406 | the radius is clamped to [0, side/2]: unchanged when inside, half the side when above it, 0 when it or the side is negative |
| Geometry.RoundedSquareShape | backend/app/core/qr_generator.py:398-413 | drawn exactly when the size is positive, centred; a rounded rectangle with the clamped radius when that is at least 0.5, a plain rectangle otherwise |
| Geometry.LayerShape | backend/app/core/qr_generator.py:462-470 | one layer of side `dim` (a circle of radius dim/2), centred, drawn exactly when dim is positive |
| Geometry.Somes | backend/app/core/qr_generator.py:375-413 | the shapes actually drawn; all of them when every call draws one |
| Geometry.CanvasSide | backend/app/core/qr_generator.py:551 | the canvas side is the pixel origin of module n + border, i.e. (n + 2 border) box |
| Geometry.FinderCentresAreModuleCentres | backend/app/core/qr_generator.py:416-423 | the finder pixel centres are the centres of modules (3,3), (3,n-4) and (n-4,3) |
| Geometry.PatternLayersShape | backend/app/core/qr_generator.py:455-470 | three concentric layers, outermost first, of sides 7, 5, 3 (finder) or 5, 3, 1 (alignment) modules, in the given colours |
| Geometry.PatternLayersCount | backend/app/core/qr_generator.py:455-470 | with a positive module size all three layers are drawn |
| Geometry.OuterLayerShape | backend/app/core/qr_generator.py:462-470 | the outermost layer is a box shape in the outer colour, centred on the pattern, 7 (finder) or 5 (alignment) modules wide in both directions |
| Geometry.FinderOuterCoversBlock | backend/app/core/qr_generator.py:419-423 | the outer finder layer covers exactly the 7x7 module block the data loop skips |
| Geometry.AlignmentOuterCoversBlock | backend/app/core/qr_generator.py:482-490 | the outer alignment layer covers exactly the 5x5 module block around its centre |
| Geometry.FinderPatternBlocks | backend/app/core/qr_generator.py:460-470 | the finder shapes come in blocks of three, one block per pattern, in drawing order |
| Geometry.FinderPatternColours | backend/app/core/qr_generator.py:460-470 | nine finder shapes; pattern i's layers are coloured outer, inner[i], innermost[i] and centred on its centre |
| Geometry.AlignmentPatternCount | backend/app/core/qr_generator.py:477-499 | three layers per alignment centre |
| Geometry.OverlayShape | backend/app/core/qr_generator.py:428-445 | the overlay is centred on the finder and 2·padding wider than the 7-module pattern |
| Geometry.OverlayContainsFinder | backend/app/core/qr_generator.py:425-445 | three overlays, each extending exactly `padding` beyond the outer finder layer on every side |
| Geometry.ModuleShapesInsideBox | backend/app/core/qr_generator.py:677-719 | with non-negative padding, and a diamond border that fits, every shape of a module stays inside its own box |
| Geometry.ModuleShapesDrawn | backend/app/core/qr_generator.py:684-719 | a fill diamond, preceded by a border diamond when the width is positive; or one padded square or circle; nothing once the inset leaves no width, or for an unknown shape |
| Geometry.ContainedPlacement | backend/app/core/qr_generator.py:605-611 | width and height are `max(1, int(target))`; the margins on the two sides differ by at most one pixel |
| Geometry.ContainedInsidePaddedArea | backend/app/core/qr_generator.py:605-611 | a target that fits leaves the pasted image inside the padded area |
| Geometry.ShapeLayer.DrawPattern | backend/app/core/qr_generator.py:460-470 | appends the three layers of one pattern |
| Geometry.ShapeLayer.DrawSomes | backend/app/core/qr_generator.py:375-413 | appends exactly the shapes that are drawn, in order |
| Geometry.ShapeLayer.DrawFinderPatterns | backend/app/core/qr_generator.py:453-475 | appends the three finder patterns in drawing order |
| Geometry.ShapeLayer.DrawAlignmentPatterns | backend/app/core/qr_generator.py:477-504 | appends one pattern per centre, in list order |
| Geometry.ShapeLayer.DrawOverlays | backend/app/core/qr_generator.py:425-451 | appends the three overlays when enabled with a padding that is not negative |
| Renderer.PatternCellsUnpainted | backend/app/core/qr_generator.py:633-638 | a cell is painted exactly when it is in the matrix and is neither a finder nor an alignment cell, with PaintFor's paint |
| Renderer.SkippedCellsFromPositions | backend/app/core/qr_generator.py:633-638 | the skipped cells in terms of the position table: finder cells, and cells near a non-finder position pair |
| Renderer.FixedModuleColours | backend/app/core/qr_generator.py:673-675 | fixed colours: a dark bit gets the dark fill and light border, a light bit the reverse |
| Renderer.AdaptiveBorderAndAlpha | backend/app/core/qr_generator.py:668-672 | adaptive colours: the border is the opposite configured colour and the fill takes the alpha of its bit's configured colour |
| Renderer.AdaptiveContrast | backend/app/core/qr_generator.py:654-662 | a dark bit over a near-white sample takes the contrasting dark colour; a light bit over a near-black sample the contrasting light colour |
| Renderer.AdaptiveFollowsSample | backend/app/core/qr_generator.py:654-665 | otherwise a dark bit over a light sample is no lighter than the sample, a light bit over a dark sample is no darker, and a sample already on the bit's side is kept |
| Renderer.PaintInsideModuleBox | backend/app/core/qr_generator.py:677-719 | with validated padding, every shape a module paints lies inside its own box |
| Renderer.ModuleLayer.DrawDataModules | backend/app/core/qr_generator.py:633-723 | the nested loop adds exactly the data layer: every data cell with its paint |
| Renderer.ModuleLayer.DrawRow | backend/app/core/qr_generator.py:634-723 | one pass of the inner loop extends the painted cells by exactly the data cells of that row |
| Renderer.DrawnAll | backend/app/core/qr_generator.py:633-723 | once every row is done, the painted cells are the data layer over what was there before |
| Pipeline.ValidationError | backend/app/core/qr_generator.py:531-541 | parameters are accepted exactly when padding >= 0, the diamond border width is >= 0 with (padding + width)·2 <= box for diamonds, padding·2 <= box otherwise, and alpha is in 0..255; each error is reported exactly when its check is the first to fail, in the order of the code |
| Pipeline.ValidParamsKeepModulesInBox | backend/app/core/qr_generator.py:531-541 | accepted parameters keep every data-module shape inside its box |
| Pipeline.PaddingExample | backend/app/core/qr_generator.py:533-537 | diamonds with box 20 and border 0: padding 11 is rejected, padding 9 accepted |
| Pipeline.ErrorCorrectionFrom | backend/app/core/qr_generator.py:758-771 | the level whose key is the name, or H when no key matches |
| Pipeline.EcRoundTrip | backend/app/core/qr_generator.py:758-763 | each level is found from its own key, and keys are distinct |
| Pipeline.ApiErrorCorrection | backend/app/core/qr_generator.py:769-771 | the default is H; a string is looked up with H as fallback; a constant passes unchanged |
| Pipeline.PlaceBackground | backend/app/core/qr_generator.py:579-611 | no placement unless the padded area is positive; then Stretched, and only Stretched, fills the padded area; Contained, and only Contained, is placed by ContainedPlacement on the padded area (at least 1x1); any other mode places nothing |
| Pipeline.ValidationComesFirst | backend/app/core/qr_generator.py:531-543 | invalid parameters are reported whatever the encoder and the background would give |
| Pipeline.RenderingFacts | backend/app/core/qr_generator.py:551-734 | a successful run: side (n + 2 border)·box; exactly the data cells painted, no finder cell; nine finder shapes with outer (0,0,0,225); three shapes per alignment centre |
| Pipeline.CreateQrCode | backend/app/core/qr_generator.py:506-756 | validation, then encoding, then background, then the layers, equal to QrCode |
| Pipeline.RenderLayers | backend/app/core/qr_generator.py:551-734 | the layers drawn in place equal Render |
| Pipeline.DataModules | backend/app/core/qr_generator.py:630-726 | a fresh data-module layer holds exactly DataLayer |
| Pipeline.FinderPaletteOf | backend/app/core/qr_generator.py:728 | determine_finder_colors on the dominant colours gives FinderColors, with three inner and three innermost colours |
| Pipeline.PatternLayers | backend/app/core/qr_generator.py:730-734 | the overlay, finder and alignment layers, the alignment patterns in inner[0] and innermost[0] |

## Left out

- Pillow, qrcode and cairosvg are not modelled. Quantization (`quantize`, `getcolors`, `getpalette`), `getpixel`, `thumbnail`, `resize`, `paste`, `alpha_composite` and rasterisation are inputs or paint events. The encoder's matrix, border, version and alignment positions are an input (`Encoding`).
- File, SVG and PNG I/O are left out: loading, `svg2png`, `makedirs`, `save` and `close`. Their failures are two error values (`EncodingFailed`, `BackgroundUnavailable`).
- The Contained-mode target box `padded * sqrt(0.40)` and the aspect-ratio arithmetic (lines 591-604) are floating-point geometry. The target width and height are inputs; the clamp and centring after them are modelled.
- `print_lock`, `threading.Lock` and the stderr warning (lines 720-723) only serialise log output.
- The `try`/`except` blocks that swallow drawing errors are left out; the model's shapes cannot fail.
- `isinstance` checks on list items (non-tuples, wrong lengths, non-int palette entries) are left out. The model is typed: colours are `Rgb` triples, palette entries are integers, and the `not isinstance(dominant_colors, list)` branch cannot arise.
- The `while len(inner_color_list) < 3` padding at the end of `determine_finder_colors` and the `[:3]` cut are not modelled as loops. Every branch already yields exactly three colours, so they change nothing (FinderColorsShape). For the same reason the `if inner_pcolor_list else` fallbacks of lines 732-733 are never taken.
- Python floats are exact reals. Results can differ from the program only where float rounding changes a comparison or a `round` tie.
- `get_alignment_pattern_centers` returns `list(set(...))` in an unspecified order. The model uses row-major order without duplicates (Dedup). What is drawn does not depend on the order.
- Classification.AlignmentCenters: the `try`/`except` around `pattern_position` is left out, since the position list is an input.
- Palette.DominantColors: `num_colors_to_quantize` is a `nat`, so a negative slice bound is not modelled.
- generate_qr_code_api: only the error-correction lookup is modelled. The keyword pass-through, the `os.path.exists`/`getsize` result and the catch-all `except` are I/O.
- Rendering: the overlay, finder and alignment layers are kept as separate shape lists. The model does not composite them into pixels.

## Notes on the source

- The code (lines 329-341) does not de-duplicate colours: with one or two colours that are not near white it repeats the first three times (FinderColors.MultiColourFew).
- Validation also rejects a negative diamond border width (line 534), before the size check for diamonds. The model checks it in that order.
