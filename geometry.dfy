/**
  Pixel geometry of the generator: the three shape helpers
  (_draw_single_shape_circle, _square, _rounded_square), the finder and
  alignment pattern layers with the finder overlay, and the box of every
  data module.

  Drawing a shape is modelled as a paint event: the Shape value the source
  hands to Pillow's `ellipse`, `rectangle`, `rounded_rectangle` or
  `polygon`. Rasterising it is not modelled.
*/
module Geometry {
  import opened Wrappers
  import opened Colors
  import opened Classification

  /** ROUNDED_RADIUS_FACTOR */
  const RoundedRadiusFactor := 1.2

  datatype Point = Point(x: real, y: real)

  /** One paint call: its kind, its bounding box (or vertices) and its fill. */
  datatype Shape =
    | Polygon(points: seq<Point>, fill: Rgba)
    | Rectangle(x0: real, y0: real, x1: real, y1: real, fill: Rgba)
    | Ellipse(x0: real, y0: real, x1: real, y1: real, fill: Rgba)
    | RoundedRectangle(x0: real, y0: real, x1: real, y1: real, radius: real, fill: Rgba)

  /** `finder_shape`: "circle", "square", "rounded_square" or anything else. */
  datatype PatternShape = CirclePattern | SquarePattern | RoundedSquarePattern | UnrecognisedPatternShape

  /** Any other name is drawn as a square (lines 430 and 460). */
  function EffectiveShape(s: PatternShape): (e: PatternShape)
    ensures e != UnrecognisedPatternShape
    ensures s.UnrecognisedPatternShape? ==> e == SquarePattern
    ensures s != UnrecognisedPatternShape ==> e == s
  {
    if s.UnrecognisedPatternShape? then SquarePattern else s
  }

  predicate IsBoxShape(s: Shape) { !s.Polygon? }

  /** The shape lies inside the axis-aligned box [x0, x1] x [y0, y1]. */
  predicate WithinBox(s: Shape, x0: real, y0: real, x1: real, y1: real) {
    if s.Polygon? then
      forall i :: 0 <= i < |s.points| ==>
        x0 <= s.points[i].x <= x1 && y0 <= s.points[i].y <= y1
    else
      x0 <= s.x0 && s.x1 <= x1 && y0 <= s.y0 && s.y1 <= y1
  }

  /** _draw_single_shape_circle: the circle's bounding box, nothing for a radius that is not positive. */
  function CircleShape(cx: real, cy: real, radius: real, fill: Rgba): (s: Option<Shape>)
    ensures s.Some? <==> radius > 0.0
    ensures s.Some? ==>
      && s.value.Ellipse? && s.value.fill == fill
      && s.value.x1 - s.value.x0 == 2.0 * radius && s.value.y1 - s.value.y0 == 2.0 * radius
      && (s.value.x0 + s.value.x1) / 2.0 == cx && (s.value.y0 + s.value.y1) / 2.0 == cy
  {
    if radius <= 0.0 then None
    else
      var x0, y0 := cx - radius, cy - radius;
      var x1, y1 := cx + radius, cy + radius;
      if x1 > x0 && y1 > y0 then Some(Ellipse(x0, y0, x1, y1, fill)) else None
  }

  /** _draw_single_shape_square: the square of side `size` around the centre. */
  function SquareShape(cx: real, cy: real, size: real, fill: Rgba): (s: Option<Shape>)
    ensures s.Some? <==> size > 0.0
    ensures s.Some? ==>
      && s.value.Rectangle? && s.value.fill == fill
      && s.value.x1 - s.value.x0 == size && s.value.y1 - s.value.y0 == size
      && (s.value.x0 + s.value.x1) / 2.0 == cx && (s.value.y0 + s.value.y1) / 2.0 == cy
  {
    if size <= 0.0 then None
    else
      var half := size / 2.0;
      var x0, y0 := cx - half, cy - half;
      var x1, y1 := cx + half, cy + half;
      if x0 < x1 && y0 < y1 then Some(Rectangle(x0, y0, x1, y1, fill)) else None
  }

  /** Lines 405-406: the corner radius clamped to half the side and to zero. */
  function ActualCornerRadius(cornerRadius: real, size: real): (r: real)
    ensures 0.0 <= r
    ensures size >= 0.0 ==> r <= size / 2.0
    ensures r <= cornerRadius || r == 0.0
    ensures 0.0 <= cornerRadius <= size / 2.0 ==> r == cornerRadius
    ensures 0.0 <= size / 2.0 < cornerRadius ==> r == size / 2.0
    ensures cornerRadius < 0.0 || size < 0.0 ==> r == 0.0
  {
    MaxR(0.0, MinR(cornerRadius, MinR(size / 2.0, size / 2.0)))
  }

  /**
    _draw_single_shape_rounded_square: a rounded square when the clamped
    corner radius is at least half a pixel, a plain square otherwise.
  */
  function RoundedSquareShape(cx: real, cy: real, size: real, cornerRadius: real, fill: Rgba): (s: Option<Shape>)
    ensures s.Some? <==> size > 0.0
    ensures s.Some? ==>
      && IsBoxShape(s.value) && s.value.fill == fill
      && s.value.x1 - s.value.x0 == size && s.value.y1 - s.value.y0 == size
      && (s.value.x0 + s.value.x1) / 2.0 == cx && (s.value.y0 + s.value.y1) / 2.0 == cy
    ensures s.Some? ==>
      (if ActualCornerRadius(cornerRadius, size) >= 0.5
       then s.value.RoundedRectangle? && s.value.radius == ActualCornerRadius(cornerRadius, size)
       else s.value.Rectangle?)
  {
    if size <= 0.0 then None
    else
      var half := size / 2.0;
      var x0, y0 := cx - half, cy - half;
      var x1, y1 := cx + half, cy + half;
      if x0 < x1 && y0 < y1 then
        var r := ActualCornerRadius(cornerRadius, size);
        assert MinR((x1 - x0) / 2.0, (y1 - y0) / 2.0) == size / 2.0;
        if r >= 0.5 then Some(RoundedRectangle(x0, y0, x1, y1, r, fill))
        else Some(Rectangle(x0, y0, x1, y1, fill))
      else None
  }

  /** One layer of a pattern: a circle of radius `dim / 2`, or a (rounded) square of side `dim`. */
  function LayerShape(shape: PatternShape, cx: real, cy: real, dim: real, cornerRadius: real, fill: Rgba): (s: Option<Shape>)
    ensures s.Some? <==> dim > 0.0
    ensures s.Some? ==>
      && IsBoxShape(s.value) && s.value.fill == fill
      && s.value.x1 - s.value.x0 == dim && s.value.y1 - s.value.y0 == dim
      && (s.value.x0 + s.value.x1) / 2.0 == cx && (s.value.y0 + s.value.y1) / 2.0 == cy
  {
    match EffectiveShape(shape)
    case CirclePattern => CircleShape(cx, cy, dim / 2.0, fill)
    case RoundedSquarePattern => RoundedSquareShape(cx, cy, dim, cornerRadius, fill)
    case _ => SquareShape(cx, cy, dim, fill)
  }

  function Somes(xs: seq<Option<Shape>>): (r: seq<Shape>)
    ensures |r| <= |xs|
    ensures (forall i :: 0 <= i < |xs| ==> xs[i].Some?) ==>
      |r| == |xs| && forall i :: 0 <= i < |xs| ==> r[i] == xs[i].value
  {
    if xs == [] then [] else (if xs[0].Some? then [xs[0].value] else []) + Somes(xs[1..])
  }

  /** Pixel coordinate of the top-left corner of module `i` (row or column), borders included. */
  function ModuleOrigin(i: int, border: int, box: int): int { (i + border) * box }

  /** Pixel coordinate of the centre of module `i`. */
  function ModuleCentre(i: int, border: int, box: int): real {
    (i as real + border as real + 0.5) * box as real
  }

  /** Line 551: the side of the square canvas. */
  function CanvasSide(n: int, border: int, box: int): (side: int)
    ensures side == ModuleOrigin(n + border, border, box)
  {
    (n + 2 * border) * box
  }

  /** Lines 419-423: the pixel centres of the top-left, top-right and bottom-left finder patterns. */
  function FinderCentresPx(n: int, border: int, box: int): seq<Point> {
    var near := (3.5 + border as real) * box as real;
    var far := ((n - 7) as real + 3.5 + border as real) * box as real;
    [Point(near, near), Point(far, near), Point(near, far)]
  }

  /** The finder centres are the centres of modules (3, 3), (3, n-4) and (n-4, 3), in (x, y) order. */
  lemma FinderCentresAreModuleCentres(n: int, border: int, box: int)
    ensures forall i :: 0 <= i < 3 ==>
      FinderCentresPx(n, border, box)[i] ==
        Point(ModuleCentre(FinderCentres(n)[i].col, border, box), ModuleCentre(FinderCentres(n)[i].row, border, box))
  {
    var near := (3.5 + border as real) * box as real;
    var far := ((n - 7) as real + 3.5 + border as real) * box as real;
    assert near == ModuleCentre(3, border, box);
    assert far == ModuleCentre(n - 4, border, box);
  }

  /** Lines 455-456 and 482-483: the three layer sides of a finder (7, 5, 3) or alignment (5, 3, 1) pattern. */
  function LayerDims(finder: bool, box: int): seq<real> {
    if finder then [7.0 * box as real, 5.0 * box as real, 3.0 * box as real]
    else [5.0 * box as real, 3.0 * box as real, 1.0 * box as real]
  }

  /** Lines 457 and 485: the corner radius of the pattern layers. */
  function PatternCornerRadius(box: int): real { box as real * RoundedRadiusFactor }

  /** The three layers of one pattern, outermost first, each None when its size is not positive. */
  function LayerOptions(shape: PatternShape, centre: Point, finder: bool, box: int, colours: seq<Rgba>): seq<Option<Shape>>
    requires |colours| == 3
  {
    var dims := LayerDims(finder, box);
    var radius := PatternCornerRadius(box);
    [LayerShape(shape, centre.x, centre.y, dims[0], radius, colours[0]),
     LayerShape(shape, centre.x, centre.y, dims[1], radius, colours[1]),
     LayerShape(shape, centre.x, centre.y, dims[2], radius, colours[2])]
  }

  /** The layers of one pattern that are drawn, outermost first. */
  function PatternLayers(shape: PatternShape, centre: Point, finder: bool, box: int, colours: seq<Rgba>): (r: seq<Shape>)
    requires |colours| == 3
  {
    Somes(LayerOptions(shape, centre, finder, box, colours))
  }

  /**
    For a positive module size every layer is drawn: three concentric
    shapes, outermost first, of sides 7, 5, 3 modules for a finder and 5, 3,
    1 for an alignment pattern, in the given colours.
  */
  lemma PatternLayersShape(shape: PatternShape, centre: Point, finder: bool, box: int, colours: seq<Rgba>)
    requires |colours| == 3 && box >= 1
    ensures var r := PatternLayers(shape, centre, finder, box, colours);
      && |r| == 3
      && forall k :: 0 <= k < 3 ==>
           && IsBoxShape(r[k]) && r[k].fill == colours[k]
           && (r[k].x0 + r[k].x1) / 2.0 == centre.x && (r[k].y0 + r[k].y1) / 2.0 == centre.y
           && r[k].x1 - r[k].x0 == (if finder then [7.0, 5.0, 3.0] else [5.0, 3.0, 1.0])[k] * box as real
  {
  }

  /** The outermost layer alone: a box of side 7 (finder) or 5 (alignment) modules around the centre. */
  lemma OuterLayerShape(shape: PatternShape, centre: Point, finder: bool, box: int, colours: seq<Rgba>)
    requires |colours| == 3 && box >= 1
    ensures var r := PatternLayers(shape, centre, finder, box, colours);
      && |r| == 3 && IsBoxShape(r[0]) && r[0].fill == colours[0]
      && (r[0].x0 + r[0].x1) / 2.0 == centre.x && (r[0].y0 + r[0].y1) / 2.0 == centre.y
      && r[0].x1 - r[0].x0 == LayerDims(finder, box)[0] && r[0].y1 - r[0].y0 == LayerDims(finder, box)[0]
  {
    var xs := LayerOptions(shape, centre, finder, box, colours);
    var dims := LayerDims(finder, box);
    assert dims[0] > 0.0 && dims[1] > 0.0 && dims[2] > 0.0;
    assert xs[0].Some? && xs[1].Some? && xs[2].Some?;
  }

  /**
    The outer finder layer covers exactly the 7x7 block of modules that
    the data loop leaves out: from the corner of module `first` to the
    corner of module `first + 7`, in both directions.
  */
  lemma FinderOuterCoversBlock(shape: PatternShape, n: int, border: int, box: int, i: nat, colours: seq<Rgba>)
    requires |colours| == 3 && box >= 1 && i < 3
    ensures var centre := FinderCentresPx(n, border, box)[i];
      var outer := PatternLayers(shape, centre, true, box, colours)[0];
      var cell := FinderCentres(n)[i];
      && outer.x0 == ModuleOrigin(cell.col - 3, border, box) as real
      && outer.x1 == ModuleOrigin(cell.col + 4, border, box) as real
      && outer.y0 == ModuleOrigin(cell.row - 3, border, box) as real
      && outer.y1 == ModuleOrigin(cell.row + 4, border, box) as real
  {
    var centre := FinderCentresPx(n, border, box)[i];
    var cell := FinderCentres(n)[i];
    FinderCentresAreModuleCentres(n, border, box);
    assert centre == Point(ModuleCentre(cell.col, border, box), ModuleCentre(cell.row, border, box));
    OuterLayerShape(shape, centre, true, box, colours);
    var outer := PatternLayers(shape, centre, true, box, colours)[0];
    assert LayerDims(true, box)[0] == (2 * 3 + 1) as real * box as real;
    BoxCoversBlock(outer, cell.col, cell.row, border, box, 3);
  }

  /**
    An interval of `2k + 1` modules centred on the centre of module `i`
    runs from the corner of module `i - k` to the corner of module `i + k + 1`.
  */
  lemma CentredSpan(i: int, border: int, box: int, k: int, lo: real, hi: real)
    requires (lo + hi) / 2.0 == ModuleCentre(i, border, box)
    requires hi - lo == (2 * k + 1) as real * box as real
    ensures lo == ModuleOrigin(i - k, border, box) as real
    ensures hi == ModuleOrigin(i + k + 1, border, box) as real
  {
    var b := box as real;
    var a := (i + border) as real;
    assert ModuleOrigin(i - k, border, box) as real == (a - k as real) * b;
    assert ModuleOrigin(i + k + 1, border, box) as real == (a + k as real + 1.0) * b;
    assert lo == (a + 0.5) * b - (k as real + 0.5) * b;
  }

  /** A square of `2k + 1` modules centred on module (row, col) covers modules row - k .. row + k, col - k .. col + k. */
  lemma BoxCoversBlock(s: Shape, col: int, row: int, border: int, box: int, k: int)
    requires IsBoxShape(s)
    requires (s.x0 + s.x1) / 2.0 == ModuleCentre(col, border, box)
    requires (s.y0 + s.y1) / 2.0 == ModuleCentre(row, border, box)
    requires s.x1 - s.x0 == (2 * k + 1) as real * box as real
    requires s.y1 - s.y0 == (2 * k + 1) as real * box as real
    ensures s.x0 == ModuleOrigin(col - k, border, box) as real && s.x1 == ModuleOrigin(col + k + 1, border, box) as real
    ensures s.y0 == ModuleOrigin(row - k, border, box) as real && s.y1 == ModuleOrigin(row + k + 1, border, box) as real
  {
    CentredSpan(col, border, box, k, s.x0, s.x1);
    CentredSpan(row, border, box, k, s.y0, s.y1);
  }

  /** Lines 487-488: the pixel centre of an alignment pattern at (row, col). */
  function AlignmentCentrePx(c: Cell, border: int, box: int): Point {
    Point((c.col as real + border as real + 0.5) * box as real, (c.row as real + border as real + 0.5) * box as real)
  }

  /** The outer alignment layer covers exactly the 5x5 modules around its centre. */
  lemma AlignmentOuterCoversBlock(shape: PatternShape, c: Cell, border: int, box: int, colours: seq<Rgba>)
    requires |colours| == 3 && box >= 1
    ensures var outer := PatternLayers(shape, AlignmentCentrePx(c, border, box), false, box, colours)[0];
      && outer.x0 == ModuleOrigin(c.col - 2, border, box) as real
      && outer.x1 == ModuleOrigin(c.col + 3, border, box) as real
      && outer.y0 == ModuleOrigin(c.row - 2, border, box) as real
      && outer.y1 == ModuleOrigin(c.row + 3, border, box) as real
  {
    var centre := AlignmentCentrePx(c, border, box);
    assert centre == Point(ModuleCentre(c.col, border, box), ModuleCentre(c.row, border, box));
    OuterLayerShape(shape, centre, false, box, colours);
    var outer := PatternLayers(shape, centre, false, box, colours)[0];
    assert LayerDims(false, box)[0] == (2 * 2 + 1) as real * box as real;
    BoxCoversBlock(outer, c.col, c.row, border, box, 2);
  }

  /** The three finder patterns in drawing order, each with its own inner and innermost colour. */
  function FinderPatternShapes(shape: PatternShape, n: int, border: int, box: int,
                               outer: Rgba, inner: seq<Rgba>, innermost: seq<Rgba>, count: nat): seq<Shape>
    requires |inner| >= 3 && |innermost| >= 3 && count <= 3
  {
    if count == 0 then []
    else
      FinderPatternShapes(shape, n, border, box, outer, inner, innermost, count - 1)
        + PatternLayers(shape, FinderCentresPx(n, border, box)[count - 1], true, box,
                        [outer, inner[count - 1], innermost[count - 1]])
  }

  /** The alignment patterns in list order, all in the same three colours. */
  function AlignmentPatternShapes(shape: PatternShape, centres: seq<Cell>, border: int, box: int, colours: seq<Rgba>): seq<Shape>
    requires |colours| == 3
  {
    if centres == [] then []
    else
      AlignmentPatternShapes(shape, centres[..|centres| - 1], border, box, colours)
        + PatternLayers(shape, AlignmentCentrePx(centres[|centres| - 1], border, box), false, box, colours)
  }

  /** The nine finder shapes come in three blocks of three, one block per pattern, in drawing order. */
  lemma FinderPatternBlocks(shape: PatternShape, n: int, border: int, box: int,
                            outer: Rgba, inner: seq<Rgba>, innermost: seq<Rgba>)
    requires |inner| >= 3 && |innermost| >= 3 && box >= 1
    ensures var r := FinderPatternShapes(shape, n, border, box, outer, inner, innermost, 3);
      var cs := FinderCentresPx(n, border, box);
      && |r| == 9
      && r[0..3] == PatternLayers(shape, cs[0], true, box, [outer, inner[0], innermost[0]])
      && r[3..6] == PatternLayers(shape, cs[1], true, box, [outer, inner[1], innermost[1]])
      && r[6..9] == PatternLayers(shape, cs[2], true, box, [outer, inner[2], innermost[2]])
  {
    var cs := FinderCentresPx(n, border, box);
    var b0 := PatternLayers(shape, cs[0], true, box, [outer, inner[0], innermost[0]]);
    var b1 := PatternLayers(shape, cs[1], true, box, [outer, inner[1], innermost[1]]);
    var b2 := PatternLayers(shape, cs[2], true, box, [outer, inner[2], innermost[2]]);
    FinderShapesAsBlocks(shape, n, border, box, outer, inner, innermost);
    ThreeBlocks(b0, b1, b2);
  }

  /** The nine finder shapes are the layers of the three patterns, one after the other. */
  lemma FinderShapesAsBlocks(shape: PatternShape, n: int, border: int, box: int,
                             outer: Rgba, inner: seq<Rgba>, innermost: seq<Rgba>)
    requires |inner| >= 3 && |innermost| >= 3 && box >= 1
    ensures var cs := FinderCentresPx(n, border, box);
      var b0 := PatternLayers(shape, cs[0], true, box, [outer, inner[0], innermost[0]]);
      var b1 := PatternLayers(shape, cs[1], true, box, [outer, inner[1], innermost[1]]);
      var b2 := PatternLayers(shape, cs[2], true, box, [outer, inner[2], innermost[2]]);
      && |b0| == 3 && |b1| == 3 && |b2| == 3
      && FinderPatternShapes(shape, n, border, box, outer, inner, innermost, 3) == b0 + b1 + b2
  {
    var cs := FinderCentresPx(n, border, box);
    var b0 := PatternLayers(shape, cs[0], true, box, [outer, inner[0], innermost[0]]);
    FinderShapesStep(shape, n, border, box, outer, inner, innermost, 0);
    FinderShapesStep(shape, n, border, box, outer, inner, innermost, 1);
    FinderShapesStep(shape, n, border, box, outer, inner, innermost, 2);
    PatternLayersCount(shape, cs[0], true, box, [outer, inner[0], innermost[0]]);
    PatternLayersCount(shape, cs[1], true, box, [outer, inner[1], innermost[1]]);
    PatternLayersCount(shape, cs[2], true, box, [outer, inner[2], innermost[2]]);
    assert [] + b0 == b0;
  }

  /** The three blocks of three of `a + b + c`. */
  lemma ThreeBlocks(a: seq<Shape>, b: seq<Shape>, c: seq<Shape>)
    requires |a| == 3 && |b| == 3 && |c| == 3
    ensures |a + b + c| == 9
    ensures (a + b + c)[0..3] == a && (a + b + c)[3..6] == b && (a + b + c)[6..9] == c
  {
  }

  /** For a positive module size a pattern has exactly three layers. */
  lemma PatternLayersCount(shape: PatternShape, centre: Point, finder: bool, box: int, colours: seq<Rgba>)
    requires |colours| == 3 && box >= 1
    ensures |PatternLayers(shape, centre, finder, box, colours)| == 3
  {
    var dims := LayerDims(finder, box);
    assert dims[0] > 0.0 && dims[1] > 0.0 && dims[2] > 0.0;
  }

  /**
    Shapes `3 * k` to `3 * k + 2` of `r` are one pattern: filled with the
    three colours in order, the outer one a box centred on `centre`.
  */
  predicate LayersAt(r: seq<Shape>, k: nat, centre: Point, colours: seq<Rgba>)
    requires |colours| == 3
  {
    && 3 * k + 3 <= |r|
    && r[3 * k].fill == colours[0] && r[3 * k + 1].fill == colours[1] && r[3 * k + 2].fill == colours[2]
    && IsBoxShape(r[3 * k])
    && (r[3 * k].x0 + r[3 * k].x1) / 2.0 == centre.x && (r[3 * k].y0 + r[3 * k].y1) / 2.0 == centre.y
  }

  /**
    For a positive module size: nine finder shapes; pattern i (top-left,
    top-right, bottom-left) is three concentric layers around its centre,
    coloured outer, inner[i], innermost[i].
  */
  lemma FinderPatternColours(shape: PatternShape, n: int, border: int, box: int,
                             outer: Rgba, inner: seq<Rgba>, innermost: seq<Rgba>)
    requires |inner| >= 3 && |innermost| >= 3 && box >= 1
    ensures var r := FinderPatternShapes(shape, n, border, box, outer, inner, innermost, 3);
      var cs := FinderCentresPx(n, border, box);
      && |r| == 9
      && LayersAt(r, 0, cs[0], [outer, inner[0], innermost[0]])
      && LayersAt(r, 1, cs[1], [outer, inner[1], innermost[1]])
      && LayersAt(r, 2, cs[2], [outer, inner[2], innermost[2]])
  {
    var r := FinderPatternShapes(shape, n, border, box, outer, inner, innermost, 3);
    var cs := FinderCentresPx(n, border, box);
    FinderPatternBlocks(shape, n, border, box, outer, inner, innermost);
    BlockFacts(r, 0, shape, cs[0], box, [outer, inner[0], innermost[0]]);
    BlockFacts(r, 1, shape, cs[1], box, [outer, inner[1], innermost[1]]);
    BlockFacts(r, 2, shape, cs[2], box, [outer, inner[2], innermost[2]]);
  }

  /** A block of three shapes that is a pattern's layers has that pattern's fills and centre. */
  lemma BlockFacts(r: seq<Shape>, k: nat, shape: PatternShape, centre: Point, box: int, colours: seq<Rgba>)
    requires |colours| == 3 && box >= 1 && 3 * k + 3 <= |r|
    requires r[3 * k..3 * k + 3] == PatternLayers(shape, centre, true, box, colours)
    ensures LayersAt(r, k, centre, colours)
  {
    var block := r[3 * k..3 * k + 3];
    PatternLayersShape(shape, centre, true, box, colours);
    assert r[3 * k] == block[0] && r[3 * k + 1] == block[1] && r[3 * k + 2] == block[2];
  }

  /** For a positive module size: three layers per alignment centre. */
  lemma {:induction false} AlignmentPatternCount(shape: PatternShape, centres: seq<Cell>, border: int, box: int, colours: seq<Rgba>)
    requires |colours| == 3 && box >= 1
    ensures |AlignmentPatternShapes(shape, centres, border, box, colours)| == 3 * |centres|
  {
    if centres != [] {
      AlignmentPatternCount(shape, centres[..|centres| - 1], border, box, colours);
      PatternLayersShape(shape, AlignmentCentrePx(centres[|centres| - 1], border, box), false, box, colours);
    }
  }

  /** Lines 425-435: the overlay shape around one finder centre, `padding` pixels beyond the pattern. */
  function OverlayShape(shape: PatternShape, centre: Point, box: int, padding: int, colour: Rgba): (s: Option<Shape>)
    ensures box >= 1 && padding >= 0 ==>
      && s.Some? && IsBoxShape(s.value)
      && s.value.x1 - s.value.x0 == 7.0 * box as real + 2.0 * padding as real
      && s.value.y1 - s.value.y0 == 7.0 * box as real + 2.0 * padding as real
      && (s.value.x0 + s.value.x1) / 2.0 == centre.x && (s.value.y0 + s.value.y1) / 2.0 == centre.y
  {
    var base := 7 * box;
    match EffectiveShape(shape)
    case CirclePattern => CircleShape(centre.x, centre.y, base as real / 2.0 + padding as real, colour)
    case RoundedSquarePattern =>
      var size := (base + 2 * padding) as real;
      var corner := MaxR(0.0, MinR(box as real * RoundedRadiusFactor, size / 2.0));
      RoundedSquareShape(centre.x, centre.y, size, corner, colour)
    case _ => SquareShape(centre.x, centre.y, (base + 2 * padding) as real, colour)
  }

  /** The overlay around each of the three finder centres, in drawing order. */
  function OverlayOptions(shape: PatternShape, n: int, border: int, box: int, padding: int, colour: Rgba): seq<Option<Shape>> {
    var cs := FinderCentresPx(n, border, box);
    [OverlayShape(shape, cs[0], box, padding, colour),
     OverlayShape(shape, cs[1], box, padding, colour),
     OverlayShape(shape, cs[2], box, padding, colour)]
  }

  /** The overlays of the three finder patterns, when enabled with a padding that is not negative. */
  function OverlayShapes(enabled: bool, shape: PatternShape, n: int, border: int, box: int, padding: int, colour: Rgba): seq<Shape> {
    if enabled && padding >= 0 then Somes(OverlayOptions(shape, n, border, box, padding, colour)) else []
  }

  /** With a positive module size, the overlay (when drawn) contains the outer finder layer with `padding` to spare. */
  lemma OverlayContainsFinder(shape: PatternShape, n: int, border: int, box: int, padding: int, colour: Rgba,
                              colours: seq<Rgba>, i: nat)
    requires box >= 1 && padding >= 0 && |colours| == 3 && i < 3
    ensures var ov := OverlayShapes(true, shape, n, border, box, padding, colour);
      var outer := PatternLayers(shape, FinderCentresPx(n, border, box)[i], true, box, colours)[0];
      && |ov| == 3
      && ov[i].x0 == outer.x0 - padding as real && ov[i].x1 == outer.x1 + padding as real
      && ov[i].y0 == outer.y0 - padding as real && ov[i].y1 == outer.y1 + padding as real
  {
    var cs := FinderCentresPx(n, border, box);
    var all := OverlayOptions(shape, n, border, box, padding, colour);
    var ov := OverlayShapes(true, shape, n, border, box, padding, colour);
    assert ov == Somes(all);
    var o := OverlayShape(shape, cs[i], box, padding, colour);
    assert all[i] == o;
    assert ov[i] == o.value;
    OuterLayerShape(shape, cs[i], true, box, colours);
    var outer := PatternLayers(shape, cs[i], true, box, colours)[0];
    WidenedInterval(outer.x0, outer.x1, o.value.x0, o.value.x1, cs[i].x, 7.0 * box as real, padding as real);
    WidenedInterval(outer.y0, outer.y1, o.value.y0, o.value.y1, cs[i].y, 7.0 * box as real, padding as real);
  }

  /** Two intervals around the same centre whose widths differ by `2 * p` differ by `p` at each end. */
  lemma WidenedInterval(lo: real, hi: real, lo': real, hi': real, c: real, w: real, p: real)
    requires (lo + hi) / 2.0 == c && hi - lo == w
    requires (lo' + hi') / 2.0 == c && hi' - lo' == w + 2.0 * p
    ensures lo' == lo - p && hi' == hi + p
  {
  }

  /** `data_module_shape`: "diamond", "square", "circle" or anything else (nothing drawn). */
  datatype ModuleShape = DiamondModule | SquareModule | CircleModule | UnrecognisedModuleShape

  /** The four vertices of a diamond inset by `inset` into the box (top, right, bottom, left). */
  function Diamond(xs: int, ys: int, box: int, inset: int): seq<Point> {
    var cx := xs as real + box as real / 2.0;
    var cy := ys as real + box as real / 2.0;
    [Point(cx, (ys + inset) as real), Point((xs + box - inset) as real, cy),
     Point(cx, (ys + box - inset) as real), Point((xs + inset) as real, cy)]
  }

  predicate NonNegativePoints(ps: seq<Point>) {
    forall i :: 0 <= i < |ps| ==> ps[i].x >= 0.0 && ps[i].y >= 0.0
  }

  /**
    Lines 677-719: the shapes one data module contributes, for the module
    box starting at pixel (xs, ys): a border diamond and a fill diamond, or a
    padded square or circle.
  */
  function ModuleShapes(shape: ModuleShape, xs: int, ys: int, box: int, padding: int, borderWidth: int,
                        fill: Rgba, borderColour: Rgba): seq<Shape>
  {
    match shape
    case DiamondModule =>
      var halfOuter := box as real / 2.0 - padding as real;
      var halfInner := halfOuter - borderWidth as real;
      if halfOuter < 0.0 then []
      else
        var outline := Diamond(xs, ys, box, padding);
        var filled := Diamond(xs, ys, box, padding + borderWidth);
        (if borderWidth > 0 && NonNegativePoints(outline) && xs + box - padding > xs + padding
         then [Polygon(outline, borderColour)] else [])
        + (if halfInner >= 0.0 && NonNegativePoints(filled) && xs + box - (padding + borderWidth) > xs + (padding + borderWidth)
           then [Polygon(filled, fill)] else [])
    case SquareModule =>
      if xs + box - padding > xs + padding && ys + box - padding > ys + padding
      then [Rectangle((xs + padding) as real, (ys + padding) as real, (xs + box - padding) as real, (ys + box - padding) as real, fill)]
      else []
    case CircleModule =>
      if xs + box - padding > xs + padding && ys + box - padding > ys + padding
      then [Ellipse((xs + padding) as real, (ys + padding) as real, (xs + box - padding) as real, (ys + box - padding) as real, fill)]
      else []
    case UnrecognisedModuleShape => []
  }

  /**
    Every shape of a data module lies inside that module's box, so no two
    modules paint over each other, once the padding is not negative and the
    diamond border keeps inside the box (what validation guarantees).
  */
  lemma ModuleShapesInsideBox(shape: ModuleShape, xs: int, ys: int, box: int, padding: int, borderWidth: int,
                              fill: Rgba, borderColour: Rgba)
    requires padding >= 0
    requires shape.DiamondModule? ==> borderWidth >= 0 && 2 * (padding + borderWidth) <= box
    ensures var r := ModuleShapes(shape, xs, ys, box, padding, borderWidth, fill, borderColour);
      forall k :: 0 <= k < |r| ==> WithinBox(r[k], xs as real, ys as real, (xs + box) as real, (ys + box) as real)
  {
  }

  /**
    What each shape draws: a fill diamond (with a border diamond before it
    when the border width is positive), or a single padded square or circle,
    whenever the inset leaves a positive width; nothing for an unknown
    shape name.
  */
  lemma ModuleShapesDrawn(shape: ModuleShape, xs: int, ys: int, box: int, padding: int, borderWidth: int,
                          fill: Rgba, borderColour: Rgba)
    requires xs >= 0 && ys >= 0 && padding >= 0 && borderWidth >= 0
    ensures var r := ModuleShapes(shape, xs, ys, box, padding, borderWidth, fill, borderColour);
      && (shape.DiamondModule? && borderWidth == 0 && 2 * padding < box ==> r == [Polygon(Diamond(xs, ys, box, padding), fill)])
      && (shape.DiamondModule? && borderWidth > 0 && 2 * (padding + borderWidth) < box ==>
            r == [Polygon(Diamond(xs, ys, box, padding), borderColour), Polygon(Diamond(xs, ys, box, padding + borderWidth), fill)])
      && ((shape.SquareModule? || shape.CircleModule?) && 2 * padding < box ==> |r| == 1 && r[0].fill == fill)
      && ((shape.SquareModule? || shape.CircleModule?) && 2 * padding >= box ==> r == [])
      && (shape.UnrecognisedModuleShape? ==> r == [])
  {
    if shape.DiamondModule? && 2 * padding < box {
      assert NonNegativePoints(Diamond(xs, ys, box, padding));
      if 2 * (padding + borderWidth) < box {
        assert NonNegativePoints(Diamond(xs, ys, box, padding + borderWidth));
      }
    }
  }

  /** Lines 605-611: `max(1, int(·))` of the target size, centred in the padded area by floor division. */
  function ContainedPlacement(offset: int, paddedWidth: int, paddedHeight: int, targetW: real, targetH: real): (p: (int, int, int, int))
    ensures p.2 >= 1 && p.3 >= 1
    ensures targetW >= 1.0 ==> p.2 as real <= targetW < p.2 as real + 1.0
    ensures targetH >= 1.0 ==> p.3 as real <= targetH < p.3 as real + 1.0
    ensures var left := p.0 - offset; var right := offset + paddedWidth - (p.0 + p.2);
      left == right || left + 1 == right
    ensures var top := p.1 - offset; var bottom := offset + paddedHeight - (p.1 + p.3);
      top == bottom || top + 1 == bottom
  {
    var w := Max(1, Trunc(targetW));
    var h := Max(1, Trunc(targetH));
    (offset + (paddedWidth - w) / 2, offset + (paddedHeight - h) / 2, w, h)
  }

  /** A placement that fits the padded area keeps the image inside it. */
  lemma ContainedInsidePaddedArea(offset: int, paddedWidth: int, paddedHeight: int, targetW: real, targetH: real)
    requires 1.0 <= targetW <= paddedWidth as real && 1.0 <= targetH <= paddedHeight as real
    ensures var p := ContainedPlacement(offset, paddedWidth, paddedHeight, targetW, targetH);
      offset <= p.0 && p.0 + p.2 <= offset + paddedWidth &&
      offset <= p.1 && p.1 + p.3 <= offset + paddedHeight
  {
  }

  /** The paint events of one image layer, in drawing order. */
  class ShapeLayer {
    var shapes: seq<Shape>

    constructor ()
      ensures shapes == []
    {
      shapes := [];
    }

    /** Draw each shape that exists, in order (the `if` around every draw call). */
    method DrawSomes(xs: seq<Option<Shape>>)
      modifies this
      ensures shapes == old(shapes) + Somes(xs)
    {
      for k := 0 to |xs|
        invariant shapes == old(shapes) + Somes(xs[..k])
      {
        SomesStep(xs, k);
        if xs[k].Some? {
          shapes := shapes + [xs[k].value];
        }
      }
      assert xs[..|xs|] == xs;
    }

    /** Draw the three layers of one pattern (the inner `enumerate` loops of lines 466-475 and 490-499). */
    method DrawPattern(shape: PatternShape, centre: Point, finder: bool, box: int, colours: seq<Rgba>)
      requires |colours| == 3
      modifies this
      ensures shapes == old(shapes) + PatternLayers(shape, centre, finder, box, colours)
    {
      DrawSomes(LayerOptions(shape, centre, finder, box, colours));
    }

    /** draw_finder_patterns, lines 460-475: the three patterns, each with its own colours. */
    method DrawFinderPatterns(shape: PatternShape, n: int, border: int, box: int,
                              outer: Rgba, inner: seq<Rgba>, innermost: seq<Rgba>)
      requires |inner| >= 3 && |innermost| >= 3
      modifies this
      ensures shapes == old(shapes) + FinderPatternShapes(shape, n, border, box, outer, inner, innermost, 3)
    {
      var centres := FinderCentresPx(n, border, box);
      for i := 0 to 3
        invariant shapes == old(shapes) + FinderPatternShapes(shape, n, border, box, outer, inner, innermost, i)
      {
        FinderShapesStep(shape, n, border, box, outer, inner, innermost, i);
        AppendAssociates(old(shapes), FinderPatternShapes(shape, n, border, box, outer, inner, innermost, i),
                         PatternLayers(shape, centres[i], true, box, [outer, inner[i], innermost[i]]));
        DrawPattern(shape, centres[i], true, box, [outer, inner[i], innermost[i]]);
      }
    }

    /** draw_alignment_patterns, lines 477-505: every centre, in list order, in the same colours. */
    method DrawAlignmentPatterns(shape: PatternShape, centres: seq<Cell>, border: int, box: int, colours: seq<Rgba>)
      requires |colours| == 3
      modifies this
      ensures shapes == old(shapes) + AlignmentPatternShapes(shape, centres, border, box, colours)
    {
      for i := 0 to |centres|
        invariant shapes == old(shapes) + AlignmentPatternShapes(shape, centres[..i], border, box, colours)
      {
        AlignmentShapesStep(shape, centres, border, box, colours, i);
        AppendAssociates(old(shapes), AlignmentPatternShapes(shape, centres[..i], border, box, colours),
                         PatternLayers(shape, AlignmentCentrePx(centres[i], border, box), false, box, colours));
        DrawPattern(shape, AlignmentCentrePx(centres[i], border, box), false, box, colours);
      }
      assert centres[..|centres|] == centres;
    }

    /** The overlay loop of lines 436-446. */
    method DrawOverlays(enabled: bool, shape: PatternShape, n: int, border: int, box: int, padding: int, colour: Rgba)
      modifies this
      ensures shapes == old(shapes) + OverlayShapes(enabled, shape, n, border, box, padding, colour)
    {
      if enabled && padding >= 0 {
        DrawSomes(OverlayOptions(shape, n, border, box, padding, colour));
      }
    }
  }

  /** Drawing finder pattern `i` extends the first `i` patterns to the first `i + 1`. */
  lemma FinderShapesStep(shape: PatternShape, n: int, border: int, box: int,
                         outer: Rgba, inner: seq<Rgba>, innermost: seq<Rgba>, i: nat)
    requires |inner| >= 3 && |innermost| >= 3 && i < 3
    ensures FinderPatternShapes(shape, n, border, box, outer, inner, innermost, i + 1)
      == FinderPatternShapes(shape, n, border, box, outer, inner, innermost, i)
         + PatternLayers(shape, FinderCentresPx(n, border, box)[i], true, box, [outer, inner[i], innermost[i]])
  {
  }

  /** Drawing alignment pattern `i` extends the first `i` patterns to the first `i + 1`. */
  lemma AlignmentShapesStep(shape: PatternShape, centres: seq<Cell>, border: int, box: int, colours: seq<Rgba>, i: nat)
    requires |colours| == 3 && i < |centres|
    ensures AlignmentPatternShapes(shape, centres[..i + 1], border, box, colours)
      == AlignmentPatternShapes(shape, centres[..i], border, box, colours)
         + PatternLayers(shape, AlignmentCentrePx(centres[i], border, box), false, box, colours)
  {
    assert centres[..i + 1][..i] == centres[..i];
  }

  lemma AppendAssociates(a: seq<Shape>, b: seq<Shape>, c: seq<Shape>)
    ensures (a + b) + c == a + (b + c)
  {
  }

  /** One more element of `xs` adds its value, if it has one. */
  lemma SomesStep(xs: seq<Option<Shape>>, k: nat)
    requires k < |xs|
    ensures Somes(xs[..k + 1]) == Somes(xs[..k]) + (if xs[k].Some? then [xs[k].value] else [])
  {
    assert xs[..k + 1] == xs[..k] + [xs[k]];
    SomesAppend(xs[..k], xs[k]);
  }

  lemma {:induction false} SomesAppend(xs: seq<Option<Shape>>, x: Option<Shape>)
    ensures Somes(xs + [x]) == Somes(xs) + (if x.Some? then [x.value] else [])
  {
    var tail := if x.Some? then [x.value] else [];
    if xs == [] {
      assert xs + [x] == [x];
      assert [x][1..] == [];
      assert Somes([x]) == tail + Somes([]);
    } else {
      var t := xs + [x];
      var head := if xs[0].Some? then [xs[0].value] else [];
      assert t[0] == xs[0];
      assert t[1..] == xs[1..] + [x];
      SomesAppend(xs[1..], x);
      calc {
        Somes(t);
        head + Somes(t[1..]);
        head + (Somes(xs[1..]) + tail);
        (head + Somes(xs[1..])) + tail;
        Somes(xs) + tail;
      }
    }
  }
}
