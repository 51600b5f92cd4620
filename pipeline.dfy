/**
  create_qr_code: parameter validation, canvas sizing, background
  placement, and the order in which the layers are produced; and the
  error-correction lookup of generate_qr_code_api.

  The encoder (qrcode), image loading and decoding, resizing, pasting,
  compositing and saving are outside the model: their results are
  parameters (Encoding, the background's quantizer output and corner
  pixel, and the composited background raster the adaptive colours sample).
*/
module Pipeline {
  import opened Wrappers
  import opened Colors
  import opened Palette
  import opened Classification
  import opened FinderColors
  import opened Geometry
  import opened Renderer

  /** `background_image_mode`: "Stretched", "Contained" or anything else (no image placed). */
  datatype BackgroundMode = Stretched | Contained | UnrecognisedBackgroundMode

  /** The parameters create_qr_code validates and uses. */
  datatype Params = Params(
    backgroundMode: BackgroundMode,
    finderShape: PatternShape,
    finderMode: FinderColorMode,
    finderSubmode: DynamicSubmode,
    reduceInnermost: bool,
    moduleShape: ModuleShape,
    colorMode: ColorMode,
    boxSize: int,
    padding: int,
    diamondBorderWidth: int,
    dark: Rgba,
    light: Rgba,
    backgroundAlpha: int,
    backgroundPadding: int,
    enableOverlay: bool,
    overlayPadding: int,
    overlayColour: Rgba)

  /** The `ValueError`s raised by lines 531-541, in the order they are checked. */
  datatype ParamError =
    | NegativePadding
    | NegativeDiamondBorder
    | PaddingAndBorderTooLarge
    | PaddingTooLarge
    | AlphaOutOfRange

  /** Lines 531-541: the first failed check, or None. */
  function ValidationError(p: Params): (e: Option<ParamError>)
    ensures e.None? <==>
      && p.padding >= 0
      && (p.moduleShape.DiamondModule? ==> p.diamondBorderWidth >= 0 && (p.padding + p.diamondBorderWidth) * 2 <= p.boxSize)
      && (!p.moduleShape.DiamondModule? ==> p.padding * 2 <= p.boxSize)
      && 0 <= p.backgroundAlpha <= 255
    ensures e == Some(NegativePadding) <==> p.padding < 0
    ensures e == Some(NegativeDiamondBorder) <==>
      p.padding >= 0 && p.moduleShape.DiamondModule? && p.diamondBorderWidth < 0
    ensures e == Some(PaddingAndBorderTooLarge) <==>
      && p.padding >= 0 && p.moduleShape.DiamondModule? && p.diamondBorderWidth >= 0
      && (p.padding + p.diamondBorderWidth) * 2 > p.boxSize
    ensures e == Some(PaddingTooLarge) <==>
      p.padding >= 0 && !p.moduleShape.DiamondModule? && p.padding * 2 > p.boxSize
    ensures e == Some(AlphaOutOfRange) <==>
      && p.padding >= 0
      && (p.moduleShape.DiamondModule? ==> p.diamondBorderWidth >= 0 && (p.padding + p.diamondBorderWidth) * 2 <= p.boxSize)
      && (!p.moduleShape.DiamondModule? ==> p.padding * 2 <= p.boxSize)
      && !(0 <= p.backgroundAlpha <= 255)
  {
    if p.padding < 0 then Some(NegativePadding)
    else if p.moduleShape.DiamondModule? && p.diamondBorderWidth < 0 then Some(NegativeDiamondBorder)
    else if p.moduleShape.DiamondModule? && (p.padding + p.diamondBorderWidth) * 2 > p.boxSize then Some(PaddingAndBorderTooLarge)
    else if !p.moduleShape.DiamondModule? && p.padding * 2 > p.boxSize then Some(PaddingTooLarge)
    else if !(0 <= p.backgroundAlpha <= 255) then Some(AlphaOutOfRange)
    else None
  }

  /** Validated parameters keep every data-module shape inside its module's box. */
  lemma ValidParamsKeepModulesInBox(p: Params, cfg: RenderConfig, x: Cell)
    requires ValidationError(p).None?
    requires cfg.padding == p.padding && cfg.borderWidth == p.diamondBorderWidth && cfg.box == p.boxSize
    requires cfg.shape == p.moduleShape
    requires WellFormed(cfg) && InMatrix(x, cfg.n)
    ensures var pt := PaintFor(cfg, x);
      var xs := ModuleOrigin(x.col, cfg.border, cfg.box);
      var ys := ModuleOrigin(x.row, cfg.border, cfg.box);
      forall k :: 0 <= k < |pt.shapes| ==>
        WithinBox(pt.shapes[k], xs as real, ys as real, (xs + cfg.box) as real, (ys + cfg.box) as real)
  {
    PaintInsideModuleBox(cfg, x);
  }

  /** The `qrcode` error-correction levels. */
  datatype EcLevel = EcL | EcM | EcQ | EcH

  /**
    ERROR_CORRECTION_MAP with its `.get(name, ERROR_CORRECT_H)` default
    (lines 758-771): the level whose key is `name`, or H when no key is.
  */
  function ErrorCorrectionFrom(name: string): (e: EcLevel)
    ensures EcName(e) == name || (e == EcH && forall f :: EcName(f) != name)
  {
    if name == "L" then EcL else if name == "M" then EcM else if name == "Q" then EcQ else EcH
  }

  /** The map's key for each level. */
  function EcName(e: EcLevel): (name: string)
    ensures |name| == 1
  {
    match e
    case EcL => "L"
    case EcM => "M"
    case EcQ => "Q"
    case EcH => "H"
  }

  /** Every level is reached from its own key, and no two levels share one. */
  lemma EcRoundTrip(e: EcLevel, f: EcLevel)
    ensures ErrorCorrectionFrom(EcName(e)) == e
    ensures EcName(e) == EcName(f) ==> e == f
  {
  }

  /** The `error_correction` keyword as the API wrapper receives it. */
  datatype EcArgument = EcAbsent | EcString(name: string) | EcConstant(level: EcLevel)

  /**
    Lines 769-771: a string (and the default "H") is looked up in the map,
    falling back to H; a constant passes unchanged.
  */
  function ApiErrorCorrection(arg: EcArgument): (e: EcLevel)
    ensures arg.EcAbsent? ==> e == EcH
    ensures arg.EcString? ==> EcName(e) == arg.name || (e == EcH && forall f :: EcName(f) != arg.name)
    ensures arg.EcConstant? ==> e == arg.level
  {
    match arg
    case EcAbsent => ErrorCorrectionFrom("H")
    case EcString(name) => ErrorCorrectionFrom(name)
    case EcConstant(level) => level
  }

  /** What the encoder returns: the bit matrix, its side, the quiet-zone border, the version and its alignment positions. */
  datatype Encoding = Encoding(matrix: seq<seq<bool>>, n: nat, border: int, version: int, positions: seq<int>)

  /** The background image as the pipeline consumes it (everything Pillow computes from it). */
  datatype BackgroundInput = BackgroundInput(
    quantized: QuantizerOutput,
    corner: Pixel,
    targetW: real,
    targetH: real,
    composed: Raster)

  /** Where the background image goes on the canvas (lines 579-611). */
  datatype BackgroundPlacement =
    | NoPlacement
    | StretchedAt(x: int, y: int, width: int, height: int)
    | ContainedAt(x: int, y: int, width: int, height: int)

  /** Lines 579-584 and 586-611. */
  function PlaceBackground(mode: BackgroundMode, side: int, bgPadding: int, targetW: real, targetH: real): (pl: BackgroundPlacement)
    ensures !(side - 2 * bgPadding > 0) ==> pl == NoPlacement
    ensures side - 2 * bgPadding > 0 ==>
      && (mode.Stretched? <==> pl.StretchedAt?)
      && (mode.Contained? <==> pl.ContainedAt?)
      && (mode.UnrecognisedBackgroundMode? ==> pl == NoPlacement)
    ensures pl.StretchedAt? ==> pl == StretchedAt(bgPadding, bgPadding, side - 2 * bgPadding, side - 2 * bgPadding)
    ensures pl.ContainedAt? ==>
      var c := ContainedPlacement(bgPadding, side - 2 * bgPadding, side - 2 * bgPadding, targetW, targetH);
      pl == ContainedAt(c.0, c.1, c.2, c.3) && pl.width >= 1 && pl.height >= 1
  {
    var padded := Max(0, side - 2 * bgPadding);
    if padded > 0 then
      match mode
      case Stretched => StretchedAt(bgPadding, bgPadding, padded, padded)
      case Contained =>
        var (x, y, w, h) := ContainedPlacement(bgPadding, padded, padded, targetW, targetH);
        ContainedAt(x, y, w, h)
      case UnrecognisedBackgroundMode => NoPlacement
    else NoPlacement
  }

  /** Everything create_qr_code produces before saving. */
  datatype Rendering = Rendering(
    side: int,
    placement: BackgroundPlacement,
    alphaApplied: bool,
    modules: map<Cell, ModulePaint>,
    overlays: seq<Shape>,
    finders: seq<Shape>,
    alignments: seq<Shape>)

  /** The fatal errors of create_qr_code that the model keeps. */
  datatype QrError = InvalidParameter(error: ParamError) | EncodingFailed | BackgroundUnavailable

  /** The number of colours get_dominant_colors is asked for (line 577). */
  const DominantColourCount := 10

  function RenderConfigOf(p: Params, enc: Encoding, bg: BackgroundInput): RenderConfig {
    RenderConfig(enc.n, enc.border, p.boxSize, p.padding, p.diamondBorderWidth, p.moduleShape, p.colorMode,
                 p.dark, p.light, AlignmentCenters(enc.version, enc.positions), enc.matrix, bg.composed,
                 DominantColors(bg.quantized, bg.corner, DominantColourCount))
  }

  predicate EncodingWellFormed(enc: Encoding) {
    |enc.matrix| == enc.n && forall i :: 0 <= i < enc.n ==> |enc.matrix[i]| == enc.n
  }

  /** Lines 551-751 once the parameters are valid and the encoder and the background have delivered. */
  function Render(p: Params, enc: Encoding, bg: BackgroundInput): Rendering
    requires EncodingWellFormed(enc)
  {
    var cfg := RenderConfigOf(p, enc, bg);
    var side := CanvasSide(enc.n, enc.border, p.boxSize);
    var palette := FinderColors.FinderColors(cfg.dominant, p.finderMode, p.finderSubmode, p.reduceInnermost);
    FinderColorsShape(cfg.dominant, p.finderMode, p.finderSubmode, p.reduceInnermost);
    Rendering(
      side,
      PlaceBackground(p.backgroundMode, side, p.backgroundPadding, bg.targetW, bg.targetH),
      p.backgroundAlpha < 255,
      DataLayer(cfg),
      OverlayShapes(p.enableOverlay, p.finderShape, enc.n, enc.border, p.boxSize, p.overlayPadding, p.overlayColour),
      FinderPatternShapes(p.finderShape, enc.n, enc.border, p.boxSize, palette.outer, palette.inner, palette.innermost, 3),
      AlignmentPatternShapes(p.finderShape, cfg.centres, enc.border, p.boxSize,
                             [palette.outer, palette.inner[0], palette.innermost[0]]))
  }

  /** create_qr_code, lines 506-756, without its I/O. */
  function QrCode(p: Params, encoded: Option<Encoding>, background: Option<BackgroundInput>): Result<Rendering, QrError> {
    match ValidationError(p)
    case Some(e) => Failure(InvalidParameter(e))
    case None =>
      if encoded.None? || !EncodingWellFormed(encoded.value) then Failure(EncodingFailed)
      else if background.None? then Failure(BackgroundUnavailable)
      else Success(Render(p, encoded.value, background.value))
  }

  /** Invalid parameters are reported before the encoder or the background is looked at. */
  lemma ValidationComesFirst(p: Params, encoded: Option<Encoding>, background: Option<BackgroundInput>)
    requires ValidationError(p).Some?
    ensures QrCode(p, encoded, background) == Failure(InvalidParameter(ValidationError(p).value))
  {
  }

  /** Box 20 with padding 11 is rejected for diamonds; padding 9 is accepted. */
  lemma PaddingExample(p: Params)
    requires p.moduleShape.DiamondModule? && p.boxSize == 20 && p.diamondBorderWidth == 0
    requires 0 <= p.backgroundAlpha <= 255
    ensures p.padding == 11 ==> ValidationError(p) == Some(PaddingAndBorderTooLarge)
    ensures p.padding == 9 ==> ValidationError(p).None?
  {
  }

  /**
    A successful rendering: the canvas side is (n + 2 border) box; no
    finder or alignment cell is painted and every other cell is; there are
    nine finder shapes (three layers per pattern) with outer colour
    (0, 0, 0, 225), and three alignment shapes per alignment centre.
  */
  lemma RenderingFacts(p: Params, encoded: Option<Encoding>, background: Option<BackgroundInput>)
    requires QrCode(p, encoded, background).Success?
    ensures var r := QrCode(p, encoded, background).value;
      var enc := encoded.value;
      var cfg := RenderConfigOf(p, enc, background.value);
      && p.padding >= 0
      && r.side == (enc.n + 2 * enc.border) * p.boxSize
      && (forall x :: x in r.modules <==> IsDataCell(cfg, x))
      && (forall x: Cell :: IsFinderModule(x.row, x.col, enc.n) ==> x !in r.modules)
      && (p.boxSize >= 1 ==> |r.finders| == 9 && r.finders[0].fill == Rgba(0, 0, 0, 225))
      && (p.boxSize >= 1 ==> |r.alignments| == 3 * |AlignmentCenters(enc.version, enc.positions)|)
  {
    var enc := encoded.value;
    var cfg := RenderConfigOf(p, enc, background.value);
    var r := QrCode(p, encoded, background).value;
    forall x ensures x in r.modules <==> IsDataCell(cfg, x) {
      PatternCellsUnpainted(cfg, x);
    }
    var palette := FinderColors.FinderColors(cfg.dominant, p.finderMode, p.finderSubmode, p.reduceInnermost);
    FinderColorsShape(cfg.dominant, p.finderMode, p.finderSubmode, p.reduceInnermost);
    if p.boxSize >= 1 {
      FinderPatternColours(p.finderShape, enc.n, enc.border, p.boxSize, palette.outer, palette.inner, palette.innermost);
      AlignmentPatternCount(p.finderShape, cfg.centres, enc.border, p.boxSize,
                            [palette.outer, palette.inner[0], palette.innermost[0]]);
    }
  }

  /**
    create_qr_code with the loops and in-place layers of the source: the
    checks in order, then the rendering.
  */
  method CreateQrCode(p: Params, encoded: Option<Encoding>, background: Option<BackgroundInput>)
    returns (result: Result<Rendering, QrError>)
    ensures result == QrCode(p, encoded, background)
  {
    var invalid := ValidationError(p);
    if invalid.Some? {
      return Failure(InvalidParameter(invalid.value));
    }
    if encoded.None? || !EncodingWellFormed(encoded.value) {
      return Failure(EncodingFailed);
    }
    if background.None? {
      return Failure(BackgroundUnavailable);
    }
    var r := RenderLayers(p, encoded.value, background.value);
    return Success(r);
  }

  /** The data-module layer, then the finder colours, the overlay and the pattern layers. */
  method RenderLayers(p: Params, enc: Encoding, bg: BackgroundInput) returns (r: Rendering)
    requires EncodingWellFormed(enc)
    ensures r == Render(p, enc, bg)
  {
    var centres := AlignmentCenters(enc.version, enc.positions);
    var side := CanvasSide(enc.n, enc.border, p.boxSize);
    var dominant := GetDominantColors(bg.quantized, bg.corner, DominantColourCount);
    var placement := PlaceBackground(p.backgroundMode, side, p.backgroundPadding, bg.targetW, bg.targetH);
    var cfg := RenderConfig(enc.n, enc.border, p.boxSize, p.padding, p.diamondBorderWidth, p.moduleShape, p.colorMode,
                            p.dark, p.light, centres, enc.matrix, bg.composed, dominant);
    assert cfg == RenderConfigOf(p, enc, bg);
    var modules := DataModules(cfg);
    var palette := FinderPaletteOf(dominant, p.finderMode, p.finderSubmode, p.reduceInnermost);
    var overlays, finders, alignments := PatternLayers(p, enc, centres, palette);
    r := Rendering(side, placement, p.backgroundAlpha < 255, modules, overlays, finders, alignments);
  }

  /** Lines 630-726: the data-module layer, drawn into a fresh ModuleLayer. */
  method DataModules(cfg: RenderConfig) returns (painted: map<Cell, ModulePaint>)
    requires WellFormed(cfg)
    ensures painted == DataLayer(cfg)
  {
    var layer := new ModuleLayer();
    layer.DrawDataModules(cfg);
    painted := layer.painted;
  }

  /** Line 728: determine_finder_colors on the caller's dominant-colour list. */
  method FinderPaletteOf(dominant: seq<Rgb>, mode: FinderColorMode, sub: DynamicSubmode, reduce: bool)
    returns (palette: FinderPalette)
    ensures palette == FinderColors.FinderColors(dominant, mode, sub, reduce)
    ensures |palette.inner| == 3 && |palette.innermost| == 3
  {
    var list := new ColorList(dominant);
    palette := list.DetermineFinderColors(mode, sub, reduce);
    FinderColorsShape(dominant, mode, sub, reduce);
  }

  /** Lines 730-734: draw_finder_patterns (with its overlay) and draw_alignment_patterns. */
  method PatternLayers(p: Params, enc: Encoding, centres: seq<Cell>, palette: FinderPalette)
    returns (overlays: seq<Shape>, finders: seq<Shape>, alignments: seq<Shape>)
    requires |palette.inner| == 3 && |palette.innermost| == 3
    ensures overlays == OverlayShapes(p.enableOverlay, p.finderShape, enc.n, enc.border, p.boxSize, p.overlayPadding, p.overlayColour)
    ensures finders == FinderPatternShapes(p.finderShape, enc.n, enc.border, p.boxSize, palette.outer, palette.inner, palette.innermost, 3)
    ensures alignments == AlignmentPatternShapes(p.finderShape, centres, enc.border, p.boxSize,
                                                 [palette.outer, palette.inner[0], palette.innermost[0]])
  {
    var overlay := new ShapeLayer();
    overlay.DrawOverlays(p.enableOverlay, p.finderShape, enc.n, enc.border, p.boxSize, p.overlayPadding, p.overlayColour);
    var patterns := new ShapeLayer();
    patterns.DrawFinderPatterns(p.finderShape, enc.n, enc.border, p.boxSize, palette.outer, palette.inner, palette.innermost);
    var align := new ShapeLayer();
    align.DrawAlignmentPatterns(p.finderShape, centres, enc.border, p.boxSize,
                                [palette.outer, palette.inner[0], palette.innermost[0]]);
    overlays, finders, alignments := overlay.shapes, patterns.shapes, align.shapes;
  }
}
