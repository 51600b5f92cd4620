/**
  The data-module loop of create_qr_code (lines 633-719): for every cell
  that is neither a finder nor an alignment cell, the fill and border
  colour (fixed, or adapted to the background under the module) and the
  shapes drawn for it.

  The data-module layer is a map from cell to what is painted there; the
  shapes of a module stay inside its own box (Geometry.ModuleShapesInsideBox),
  so the order the source paints them in does not change the picture.
*/
module Renderer {
  import opened Colors
  import opened Palette
  import opened Classification
  import opened Geometry

  /** ADAPTIVE_COLOR_RADIUS */
  const AdaptiveRadius := 10
  /** ADAPTIVE_LUMINANCE_THRESHOLD */
  const LuminanceThreshold := 130
  /** ADAPTIVE_DARKEN_FACTOR */
  const DarkenFactor := 0.5
  /** ADAPTIVE_LIGHTEN_FACTOR */
  const LightenFactor := 0.5
  /** ADAPTIVE_NEAR_WHITE_THRESHOLD */
  const NearWhiteThreshold := 240
  /** ADAPTIVE_NEAR_BLACK_THRESHOLD */
  const NearBlackThreshold := 15

  /** `data_module_color_mode`: "adaptive", or anything else (the fixed colours). */
  datatype ColorMode = AdaptiveColours | FixedColours

  /** What one data module paints: its fill and border colour and its shapes. */
  datatype ModulePaint = ModulePaint(fill: Rgba, border: Rgba, shapes: seq<Shape>)

  /** Everything the loop reads. */
  datatype RenderConfig = RenderConfig(
    n: nat,
    border: int,
    box: int,
    padding: int,
    borderWidth: int,
    shape: ModuleShape,
    mode: ColorMode,
    dark: Rgba,
    light: Rgba,
    centres: seq<Cell>,
    matrix: seq<seq<bool>>,
    background: Raster,
    dominant: seq<Rgb>)

  /** `qr.modules`: an n x n matrix. */
  predicate WellFormed(cfg: RenderConfig) {
    |cfg.matrix| == cfg.n && forall i :: 0 <= i < cfg.n ==> |cfg.matrix[i]| == cfg.n
  }

  predicate InMatrix(x: Cell, n: int) { 0 <= x.row < n && 0 <= x.col < n }

  /** The cells the loop paints (lines 635-638 skip the rest). */
  predicate IsDataCell(cfg: RenderConfig, x: Cell) {
    InMatrix(x, cfg.n) && !IsFinderModule(x.row, x.col, cfg.n) && !IsAlignmentModule(x.row, x.col, cfg.centres)
  }

  predicate NearWhiteSample(c: Rgb) {
    c.r >= NearWhiteThreshold && c.g >= NearWhiteThreshold && c.b >= NearWhiteThreshold
  }

  predicate NearBlackSample(c: Rgb) {
    c.r <= NearBlackThreshold && c.g <= NearBlackThreshold && c.b <= NearBlackThreshold
  }

  /**
    Lines 650-665: the colour of a module of the given bit over a
    background sample. A dark module over near-white takes the contrasting
    dark colour, over a light sample the sample darkened by half, otherwise
    the sample; a light module over near-black takes the contrasting light
    colour, over a dark sample the sample lightened by half, otherwise the
    sample.
  */
  function AdaptiveRgb(isDark: bool, sample: Rgb, dominant: seq<Rgb>, dark: Rgba, light: Rgba): Rgb {
    var l := HslOf(sample).l;
    if isDark then
      if NearWhiteSample(sample) then ContrastingColor(dominant, DarkKind, LuminanceThreshold, dark, light)
      else if l >= LuminanceThreshold then Darkened(sample, DarkenFactor)
      else sample
    else
      if NearBlackSample(sample) then ContrastingColor(dominant, LightKind, LuminanceThreshold, dark, light)
      else if l < LuminanceThreshold then Lightened(sample, LightenFactor)
      else sample
  }

  /** The background colour under the centre of module x (lines 642-644). */
  function SampleAt(cfg: RenderConfig, x: Cell): Rgb {
    ProminentColor(cfg.background, ModuleCentre(x.col, cfg.border, cfg.box), ModuleCentre(x.row, cfg.border, cfg.box), AdaptiveRadius)
  }

  /** Lines 640-675: fill and border of one module. */
  function ModuleColours(cfg: RenderConfig, x: Cell): (fb: (Rgba, Rgba))
    requires WellFormed(cfg) && InMatrix(x, cfg.n)
  {
    var isDark := cfg.matrix[x.row][x.col];
    var borderColour := if isDark then cfg.light else cfg.dark;
    match cfg.mode
    case AdaptiveColours =>
      var rgb := AdaptiveRgb(isDark, SampleAt(cfg, x), cfg.dominant, cfg.dark, cfg.light);
      (WithAlpha(rgb, if isDark then cfg.dark.a else cfg.light.a), borderColour)
    case FixedColours => (if isDark then cfg.dark else cfg.light, borderColour)
  }

  /** What module x paints. */
  function PaintFor(cfg: RenderConfig, x: Cell): ModulePaint
    requires WellFormed(cfg) && InMatrix(x, cfg.n)
  {
    var (fill, borderColour) := ModuleColours(cfg, x);
    ModulePaint(fill, borderColour,
      ModuleShapes(cfg.shape, ModuleOrigin(x.col, cfg.border, cfg.box), ModuleOrigin(x.row, cfg.border, cfg.box),
                   cfg.box, cfg.padding, cfg.borderWidth, fill, borderColour))
  }

  function Cells(n: nat): set<Cell> {
    set r, c | 0 <= r < n && 0 <= c < n :: Cell(r, c)
  }

  /** The data-module layer once the loop is done. */
  function DataLayer(cfg: RenderConfig): map<Cell, ModulePaint>
    requires WellFormed(cfg)
  {
    map x | x in Cells(cfg.n) && IsDataCell(cfg, x) :: PaintFor(cfg, x)
  }

  /**
    No finder or alignment cell is ever painted, and every other cell of
    the matrix is, with what PaintFor says.
  */
  lemma PatternCellsUnpainted(cfg: RenderConfig, x: Cell)
    requires WellFormed(cfg)
    ensures x in DataLayer(cfg) <==> IsDataCell(cfg, x)
    ensures IsFinderModule(x.row, x.col, cfg.n) ==> x !in DataLayer(cfg)
    ensures IsAlignmentModule(x.row, x.col, cfg.centres) ==> x !in DataLayer(cfg)
    ensures x in DataLayer(cfg) ==> DataLayer(cfg)[x] == PaintFor(cfg, x)
  {
    if IsDataCell(cfg, x) {
      assert x == Cell(x.row, x.col);
      assert x in Cells(cfg.n);
    }
  }

  /** The skipped cells, in terms of the alignment position table. */
  lemma SkippedCellsFromPositions(cfg: RenderConfig, x: Cell, version: int, positions: seq<int>)
    requires WellFormed(cfg) && cfg.centres == AlignmentCenters(version, positions) && InMatrix(x, cfg.n)
    ensures x !in DataLayer(cfg) <==>
      || IsFinderModule(x.row, x.col, cfg.n)
      || (version >= 2 && positions != [] &&
          exists pr, pc :: pr in positions && pc in positions &&
            !IsFinderSlot(Cell(pr, pc), positions[|positions| - 1]) && Within(x.row, x.col, pr, pc, 2))
  {
    PatternCellsUnpainted(cfg, x);
    AlignmentCellsFromPositions(x.row, x.col, version, positions);
  }

  /** Fixed colours: a dark bit gets the dark fill and the light border, a light bit the reverse. */
  lemma FixedModuleColours(cfg: RenderConfig, x: Cell)
    requires WellFormed(cfg) && InMatrix(x, cfg.n) && cfg.mode.FixedColours?
    ensures var p := PaintFor(cfg, x);
      && (cfg.matrix[x.row][x.col] ==> p.fill == cfg.dark && p.border == cfg.light)
      && (!cfg.matrix[x.row][x.col] ==> p.fill == cfg.light && p.border == cfg.dark)
  {
  }

  /**
    Adaptive colours: the border is always the opposite configured colour
    and the fill carries the alpha of the configured colour of its bit.
  */
  lemma AdaptiveBorderAndAlpha(cfg: RenderConfig, x: Cell)
    requires WellFormed(cfg) && InMatrix(x, cfg.n) && cfg.mode.AdaptiveColours?
    ensures var p := PaintFor(cfg, x);
      && (cfg.matrix[x.row][x.col] ==> p.border == cfg.light && p.fill.a == cfg.dark.a)
      && (!cfg.matrix[x.row][x.col] ==> p.border == cfg.dark && p.fill.a == cfg.light.a)
  {
  }

  /**
    Adaptive colours over near-white (near-black) background: a dark
    (light) module takes the contrasting colour chosen from the dominant
    colours, i.e. the first dominant colour of lightness below (above) 130
    that is not pure black (white), else the configured colour.
  */
  lemma AdaptiveContrast(cfg: RenderConfig, x: Cell)
    requires WellFormed(cfg) && InMatrix(x, cfg.n) && cfg.mode.AdaptiveColours?
    ensures var p := PaintFor(cfg, x);
      var sample := SampleAt(cfg, x);
      && (cfg.matrix[x.row][x.col] && NearWhiteSample(sample) ==>
            RgbPart(p.fill) == ContrastingColor(cfg.dominant, DarkKind, 130, cfg.dark, cfg.light))
      && (!cfg.matrix[x.row][x.col] && NearBlackSample(sample) ==>
            RgbPart(p.fill) == ContrastingColor(cfg.dominant, LightKind, 130, cfg.dark, cfg.light))
  {
  }

  /**
    Adaptive colours otherwise: a dark module over a light sample is a
    darker version of the sample, a light module over a dark sample a
    lighter one; for a sample on the side the bit wants, the sample itself.
  */
  lemma AdaptiveFollowsSample(cfg: RenderConfig, x: Cell)
    requires WellFormed(cfg) && InMatrix(x, cfg.n) && cfg.mode.AdaptiveColours?
    requires IsColor(SampleAt(cfg, x))
    ensures var p := PaintFor(cfg, x);
      var s := SampleAt(cfg, x);
      var l := HslOf(s).l;
      && (cfg.matrix[x.row][x.col] && !NearWhiteSample(s) && l >= 130 ==>
            p.fill.r <= s.r && p.fill.g <= s.g && p.fill.b <= s.b)
      && (cfg.matrix[x.row][x.col] && !NearWhiteSample(s) && l < 130 ==> RgbPart(p.fill) == s)
      && (!cfg.matrix[x.row][x.col] && !NearBlackSample(s) && l < 130 ==>
            IsColor(RgbPart(p.fill)) && s.r <= p.fill.r && s.g <= p.fill.g && s.b <= p.fill.b)
      && (!cfg.matrix[x.row][x.col] && !NearBlackSample(s) && l >= 130 ==> RgbPart(p.fill) == s)
  {
  }

  /** With validated parameters, what a module paints stays inside its own box. */
  lemma PaintInsideModuleBox(cfg: RenderConfig, x: Cell)
    requires WellFormed(cfg) && InMatrix(x, cfg.n)
    requires cfg.padding >= 0
    requires cfg.shape.DiamondModule? ==> cfg.borderWidth >= 0 && 2 * (cfg.padding + cfg.borderWidth) <= cfg.box
    ensures var p := PaintFor(cfg, x);
      var xs := ModuleOrigin(x.col, cfg.border, cfg.box);
      var ys := ModuleOrigin(x.row, cfg.border, cfg.box);
      forall k :: 0 <= k < |p.shapes| ==>
        WithinBox(p.shapes[k], xs as real, ys as real, (xs + cfg.box) as real, (ys + cfg.box) as real)
  {
    var (fill, borderColour) := ModuleColours(cfg, x);
    ModuleShapesInsideBox(cfg.shape, ModuleOrigin(x.col, cfg.border, cfg.box), ModuleOrigin(x.row, cfg.border, cfg.box),
                          cfg.box, cfg.padding, cfg.borderWidth, fill, borderColour);
  }

  /** Row-major visiting order of the nested loop: x comes before (r, c). */
  predicate Before(x: Cell, r: int, c: int) {
    x.row < r || (x.row == r && x.col < c)
  }

  /**
    The layer after visiting every cell before (r, c), starting from
    `before`: exactly the data cells visited so far were added, each with
    its PaintFor, and every other entry is as it was.
  */
  ghost predicate Drawn(cfg: RenderConfig, before: map<Cell, ModulePaint>, painted: map<Cell, ModulePaint>, r: int, c: int)
    requires WellFormed(cfg)
  {
    && (forall x :: x in painted <==> x in before || (IsDataCell(cfg, x) && Before(x, r, c)))
    && (forall x :: x in painted ==>
          painted[x] == if IsDataCell(cfg, x) && Before(x, r, c) then PaintFor(cfg, x) else before[x])
  }

  /** Visiting (r, c) paints it when it is a data cell and moves on to the next column. */
  lemma DrawnStep(cfg: RenderConfig, before: map<Cell, ModulePaint>, painted: map<Cell, ModulePaint>, r: int, c: int)
    requires WellFormed(cfg) && 0 <= r < cfg.n && 0 <= c < cfg.n
    requires Drawn(cfg, before, painted, r, c)
    ensures var x := Cell(r, c);
      Drawn(cfg, before, if IsDataCell(cfg, x) then painted[x := PaintFor(cfg, x)] else painted, r, c + 1)
  {
    var x := Cell(r, c);
    var after := if IsDataCell(cfg, x) then painted[x := PaintFor(cfg, x)] else painted;
    forall y ensures y in after <==> y in before || (IsDataCell(cfg, y) && Before(y, r, c + 1)) {
      assert Before(y, r, c + 1) <==> Before(y, r, c) || y == x;
    }
    forall y | y in after
      ensures after[y] == if IsDataCell(cfg, y) && Before(y, r, c + 1) then PaintFor(cfg, y) else before[y]
    {
      assert Before(y, r, c + 1) <==> Before(y, r, c) || y == x;
    }
  }

  /** Past the last column of row r is the start of row r + 1. */
  lemma DrawnNextRow(cfg: RenderConfig, before: map<Cell, ModulePaint>, painted: map<Cell, ModulePaint>, r: int)
    requires WellFormed(cfg)
    requires Drawn(cfg, before, painted, r, cfg.n)
    ensures Drawn(cfg, before, painted, r + 1, 0)
  {
    forall y | IsDataCell(cfg, y) ensures Before(y, r, cfg.n) <==> Before(y, r + 1, 0) {
    }
  }

  /** Past the last row the layer is `before` with the data layer laid over it. */
  lemma DrawnAll(cfg: RenderConfig, before: map<Cell, ModulePaint>, painted: map<Cell, ModulePaint>)
    requires WellFormed(cfg)
    requires Drawn(cfg, before, painted, cfg.n, 0)
    ensures painted == before + DataLayer(cfg)
  {
    forall x ensures x in painted <==> x in before + DataLayer(cfg) {
      PatternCellsUnpainted(cfg, x);
    }
    forall x | x in painted ensures painted[x] == (before + DataLayer(cfg))[x] {
      PatternCellsUnpainted(cfg, x);
    }
  }

  /** `data_module_layer`: the paint of every module drawn so far. */
  class ModuleLayer {
    var painted: map<Cell, ModulePaint>

    /** `Image.new("RGBA", ..., (0, 0, 0, 0))`: nothing painted yet. */
    constructor ()
      ensures painted == map[]
    {
      painted := map[];
    }

    /** The nested `r`/`c` loop of lines 633-723. */
    method DrawDataModules(cfg: RenderConfig)
      requires WellFormed(cfg)
      modifies this
      ensures painted == old(painted) + DataLayer(cfg)
    {
      ghost var before := painted;
      for r := 0 to cfg.n
        invariant Drawn(cfg, before, painted, r, 0)
      {
        DrawRow(cfg, before, r);
        DrawnNextRow(cfg, before, painted, r);
      }
      DrawnAll(cfg, before, painted);
    }

    /** One pass of the inner `c` loop (lines 634-723): the data modules of row `r`. */
    method DrawRow(cfg: RenderConfig, ghost before: map<Cell, ModulePaint>, r: int)
      requires WellFormed(cfg) && 0 <= r < cfg.n
      requires Drawn(cfg, before, painted, r, 0)
      modifies this
      ensures Drawn(cfg, before, painted, r, cfg.n)
    {
      for c := 0 to cfg.n
        invariant Drawn(cfg, before, painted, r, c)
      {
        DrawnStep(cfg, before, painted, r, c);
        var x := Cell(r, c);
        assert IsDataCell(cfg, x) <==> !IsFinderModule(r, c, cfg.n) && !IsAlignmentModule(r, c, cfg.centres);
        if IsFinderModule(r, c, cfg.n) {
          continue;
        }
        if IsAlignmentModule(r, c, cfg.centres) {
          continue;
        }
        painted := painted[x := PaintFor(cfg, x)];
      }
    }
  }
}
