/**
  determine_finder_colors: the outer, inner and innermost colours of the
  three finder patterns, chosen from the dominant colours of the
  background in one of three strategies.
*/
module FinderColors {
  import opened Colors
  import opened Sequences

  /** BRIGHTNESS_FILTER: a colour with every channel at least this is "near white". */
  const BrightnessFilter := 225
  /** LUMINOSITY_THRESHOLD */
  const LuminosityThreshold := 70
  /** INNERMOST_BRIGHTNESS_REDUCTION */
  const InnermostReduction := 0.25
  /** The alpha every finder colour carries. */
  const PatternAlpha := 225

  const BlackPattern := Rgba(0, 0, 0, 225)
  const WhitePattern := Rgba(255, 255, 255, 225)

  /** `finder_color_mode`: "static", "dynamic" or anything else. */
  datatype FinderColorMode = StaticFinder | DynamicFinder | UnrecognisedFinderMode
  /** `finder_dynamic_submode`: "single-color", "multi-color" or anything else. */
  datatype DynamicSubmode = SingleColour | MultiColour | UnrecognisedSubmode

  /** The returned triple `(outer_color, inner_color_list, innermost_color_list)`. */
  datatype FinderPalette = FinderPalette(outer: Rgba, inner: seq<Rgba>, innermost: seq<Rgba>)

  predicate NearWhite(c: Rgb) {
    c.r >= BrightnessFilter && c.g >= BrightnessFilter && c.b >= BrightnessFilter
  }

  function NotNearWhite(): Rgb -> bool { c => !NearWhite(c) }

  /** Lines 312-318: not near white, lighter than the threshold, and saturated or very light. */
  predicate BrightSuitable(c: Rgb) {
    var hsl := HslOf(c);
    !NearWhite(c) && hsl.l > LuminosityThreshold && (hsl.s > 20 || hsl.l > 150)
  }

  function IsBrightSuitable(): Rgb -> bool { c => BrightSuitable(c) }

  function LightnessKey(c: Rgb): int { HslOf(c).l }

  /** Lines 319-326: the lightest suitable colour (the first of equals), else white. */
  function SingleColourInner(cs: seq<Rgb>): Rgb {
    var sorted := StableSortDesc(Filter(cs, IsBrightSuitable()), LightnessKey);
    if sorted == [] then White else sorted[0]
  }

  /** Lines 329-341: the colours the innermost layers start from (three, before any darkening). */
  function MultiColourBase(padded: seq<Rgb>): (chosen: seq<Rgb>)
    requires |padded| >= 3
    ensures |chosen| == 3
  {
    var base := Filter(padded, NotNearWhite());
    var base' := if base == [] then padded[..3] else base;
    if |base'| >= 3 then base'[..3] else [base'[0], base'[0], base'[0]]
  }

  /** Lines 342-350: darkened by a quarter when asked to, otherwise left as they are. */
  function Processed(c: Rgb, reduce: bool): Rgb {
    if reduce then Darkened(c, InnermostReduction) else c
  }

  function Triple<T>(x: T): seq<T> { [x, x, x] }

  function WithPatternAlpha(cs: seq<Rgb>, reduce: bool): (r: seq<Rgba>)
    ensures |r| == |cs|
    ensures forall i :: 0 <= i < |cs| ==> r[i] == WithAlpha(Processed(cs[i], reduce), PatternAlpha)
  {
    if cs == [] then [] else [WithAlpha(Processed(cs[0], reduce), PatternAlpha)] + WithPatternAlpha(cs[1..], reduce)
  }

  /**
    determine_finder_colors on a list already padded to at least three
    colours (the padding happens in place, see DetermineFinderColors).
  */
  function FinderColorsOf(padded: seq<Rgb>, mode: FinderColorMode, sub: DynamicSubmode, reduce: bool): FinderPalette
    requires |padded| >= 3
  {
    if mode.DynamicFinder? && sub.SingleColour? then
      FinderPalette(BlackPattern, Triple(WithAlpha(SingleColourInner(padded), PatternAlpha)), Triple(BlackPattern))
    else if mode.DynamicFinder? && sub.MultiColour? then
      FinderPalette(BlackPattern, Triple(WhitePattern), WithPatternAlpha(MultiColourBase(padded), reduce))
    else
      FinderPalette(BlackPattern, Triple(WhitePattern), Triple(BlackPattern))
  }

  /** determine_finder_colors, the caller's list padded first. */
  function FinderColors(cs: seq<Rgb>, mode: FinderColorMode, sub: DynamicSubmode, reduce: bool): FinderPalette {
    PadToThreeShape(cs, Black);
    FinderColorsOf(PadToThree(cs, Black), mode, sub, reduce)
  }

  /**
    Whatever the mode: the outer colour is black at alpha 225, and there
    are exactly three inner and three innermost colours, all at alpha 225.
  */
  lemma FinderColorsShape(cs: seq<Rgb>, mode: FinderColorMode, sub: DynamicSubmode, reduce: bool)
    ensures var p := FinderColors(cs, mode, sub, reduce);
      && p.outer == Rgba(0, 0, 0, 225)
      && |p.inner| == 3 && |p.innermost| == 3
      && (forall i :: 0 <= i < 3 ==> p.inner[i].a == 225 && p.innermost[i].a == 225)
  {
    PadToThreeShape(cs, Black);
  }

  /** Static mode, an unknown mode and an unknown sub-mode: white inner and black innermost layers. */
  lemma StaticFinderColors(cs: seq<Rgb>, mode: FinderColorMode, sub: DynamicSubmode, reduce: bool)
    requires mode.StaticFinder? || mode.UnrecognisedFinderMode? || sub.UnrecognisedSubmode?
    ensures FinderColors(cs, mode, sub, reduce) ==
      FinderPalette(Rgba(0, 0, 0, 225), [WhitePattern, WhitePattern, WhitePattern],
                    [BlackPattern, BlackPattern, BlackPattern])
  {
  }

  /**
    Single-colour mode: the inner colour of all three patterns is the
    suitable colour of greatest lightness, and among colours of that
    lightness the first in list order; white when no colour is suitable.
    Innermost layers stay black.
  */
  lemma SingleColourChoice(cs: seq<Rgb>)
    ensures var inner := SingleColourInner(cs);
      && ((forall i :: 0 <= i < |cs| ==> !BrightSuitable(cs[i])) ==> inner == White)
      && ((exists i :: 0 <= i < |cs| && BrightSuitable(cs[i])) ==>
            exists i :: 0 <= i < |cs| && cs[i] == inner && BrightSuitable(inner)
              && (forall j :: 0 <= j < |cs| && BrightSuitable(cs[j]) ==> LightnessKey(cs[j]) <= LightnessKey(inner))
              && (forall j :: 0 <= j < i && BrightSuitable(cs[j]) ==> LightnessKey(cs[j]) < LightnessKey(inner)))
  {
    if exists i :: 0 <= i < |cs| && BrightSuitable(cs[i]) {
      var i := FirstOfLargest(cs, IsBrightSuitable(), LightnessKey);
    } else {
      FilterNone(cs, IsBrightSuitable());
    }
  }

  /** Single-colour mode as determine_finder_colors returns it: one inner colour three times. */
  lemma SingleColourFinderColors(cs: seq<Rgb>, reduce: bool)
    ensures var p := FinderColors(cs, DynamicFinder, SingleColour, reduce);
      var inner := SingleColourInner(PadToThree(cs, Black));
      && p.inner == [WithAlpha(inner, 225), WithAlpha(inner, 225), WithAlpha(inner, 225)]
      && p.innermost == [BlackPattern, BlackPattern, BlackPattern]
  {
  }

  /** Multi-colour mode keeps the inner layers white. */
  lemma MultiColourInner(padded: seq<Rgb>, reduce: bool)
    requires |padded| >= 3
    ensures FinderColorsOf(padded, DynamicFinder, MultiColour, reduce).inner == [WhitePattern, WhitePattern, WhitePattern]
  {
  }

  /**
    Multi-colour mode with at least three colours that are not near white:
    the innermost layers take the first three of them, in list order, each
    darkened by a quarter when `reduce` is set.
  */
  lemma MultiColourThree(padded: seq<Rgb>, reduce: bool)
    requires |padded| >= 3
    requires |Filter(padded, NotNearWhite())| >= 3
    ensures var innermost := FinderColorsOf(padded, DynamicFinder, MultiColour, reduce).innermost;
      forall i :: 0 <= i < 3 ==>
        innermost[i] == WithAlpha(Processed(Filter(padded, NotNearWhite())[i], reduce), 225)
  {
    assert MultiColourBase(padded) == Filter(padded, NotNearWhite())[..3];
  }

  /**
    Multi-colour mode with one or two colours that are not near white: the
    first of them, in list order, for all three innermost layers.
  */
  lemma MultiColourFew(padded: seq<Rgb>, reduce: bool)
    requires |padded| >= 3
    requires 0 < |Filter(padded, NotNearWhite())| < 3
    ensures var innermost := FinderColorsOf(padded, DynamicFinder, MultiColour, reduce).innermost;
      exists k :: 0 <= k < |padded| && !NearWhite(padded[k])
        && (forall j :: 0 <= j < k ==> NearWhite(padded[j]))
        && innermost == Triple(WithAlpha(Processed(padded[k], reduce), 225))
  {
    var base := Filter(padded, NotNearWhite());
    var chosen := MultiColourBase(padded);
    assert chosen == Triple(base[0]);
    FilterHead(padded, NotNearWhite());
    var k :| 0 <= k < |padded| && padded[k] == base[0] && NotNearWhite()(padded[k]) &&
             forall j :: 0 <= j < k ==> !NotNearWhite()(padded[j]);
    var x := WithAlpha(Processed(padded[k], reduce), 225);
    var innermost := WithPatternAlpha(chosen, reduce);
    assert innermost == Triple(x);
  }

  /**
    Multi-colour mode when every colour is near white: the first three
    colours of the list, as they are or darkened.
  */
  lemma MultiColourNone(padded: seq<Rgb>, reduce: bool)
    requires |padded| >= 3
    requires forall i :: 0 <= i < |padded| ==> NearWhite(padded[i])
    ensures var innermost := FinderColorsOf(padded, DynamicFinder, MultiColour, reduce).innermost;
      forall i :: 0 <= i < 3 ==> innermost[i] == WithAlpha(Processed(padded[i], reduce), 225)
  {
    var base := Filter(padded, NotNearWhite());
    FilterNone(padded, NotNearWhite());
    assert MultiColourBase(padded) == padded[..3];
  }

  /** The caller's list of dominant colours, which determine_finder_colors extends in place. */
  class ColorList {
    var colors: seq<Rgb>

    constructor (cs: seq<Rgb>)
      ensures colors == cs
    {
      colors := cs;
    }

    /** Lines 297-298: extend the list in place to three colours, repeating the last (black when empty). */
    method PadInPlace()
      modifies this
      ensures colors == PadToThree(old(colors), Black)
    {
      while |colors| < 3
        invariant PadToThree(colors, Black) == PadToThree(old(colors), Black)
        decreases 3 - |colors|
      {
        colors := colors + [if colors == [] then Black else colors[|colors| - 1]];
      }
    }

    /**
      determine_finder_colors, lines 290-373: pads the list in place, then
      chooses the colours with the loops of the source.
    */
    method DetermineFinderColors(mode: FinderColorMode, sub: DynamicSubmode, reduce: bool)
      returns (p: FinderPalette)
      modifies this
      ensures colors == PadToThree(old(colors), Black)
      ensures p == FinderColors(old(colors), mode, sub, reduce)
    {
      PadInPlace();
      PadToThreeShape(old(colors), Black);
      p := ColorsFromPadded(colors, mode, sub, reduce);
    }
  }

  /** Lines 300-366: the three strategies applied to the padded list. */
  method ColorsFromPadded(dominant: seq<Rgb>, mode: FinderColorMode, sub: DynamicSubmode, reduce: bool)
    returns (p: FinderPalette)
    requires |dominant| >= 3
    ensures p == FinderColorsOf(dominant, mode, sub, reduce)
  {
    if mode.DynamicFinder? && sub.SingleColour? {
      var bright := CollectBright(dominant);
      var sorted := StableSortDesc(bright, LightnessKey);
      var inner := if sorted == [] then White else sorted[0];
      var innerA := WithAlpha(inner, PatternAlpha);
      p := FinderPalette(BlackPattern, [innerA, innerA, innerA], [BlackPattern, BlackPattern, BlackPattern]);
    } else if mode.DynamicFinder? && sub.MultiColour? {
      var base := CollectNotNearWhite(dominant);
      if base == [] {
        base := dominant[..3];
      }
      var chosen := if |base| >= 3 then base[..3] else [base[0], base[0], base[0]];
      var innermost := InnermostColours(chosen, reduce);
      p := FinderPalette(BlackPattern, [WhitePattern, WhitePattern, WhitePattern], innermost);
    } else {
      p := FinderPalette(BlackPattern, [WhitePattern, WhitePattern, WhitePattern], [BlackPattern, BlackPattern, BlackPattern]);
    }
  }

  /** Lines 307-318: the bright suitable colours, in list order. */
  method CollectBright(dominant: seq<Rgb>) returns (bright: seq<Rgb>)
    ensures bright == Filter(dominant, IsBrightSuitable())
  {
    bright := [];
    for i := 0 to |dominant|
      invariant bright == Filter(dominant[..i], IsBrightSuitable())
    {
      FilterAppend(dominant[..i], dominant[i], IsBrightSuitable());
      assert dominant[..i + 1] == dominant[..i] + [dominant[i]];
      if BrightSuitable(dominant[i]) {
        bright := bright + [dominant[i]];
      }
    }
    assert dominant[..|dominant|] == dominant;
  }

  /** Lines 329-335: the colours that are not near white, in list order. */
  method CollectNotNearWhite(dominant: seq<Rgb>) returns (base: seq<Rgb>)
    ensures base == Filter(dominant, NotNearWhite())
  {
    base := [];
    for i := 0 to |dominant|
      invariant base == Filter(dominant[..i], NotNearWhite())
    {
      FilterAppend(dominant[..i], dominant[i], NotNearWhite());
      assert dominant[..i + 1] == dominant[..i] + [dominant[i]];
      if !NearWhite(dominant[i]) {
        base := base + [dominant[i]];
      }
    }
    assert dominant[..|dominant|] == dominant;
  }

  /** Lines 342-354: each chosen colour, darkened when asked to, at alpha 225. */
  method InnermostColours(chosen: seq<Rgb>, reduce: bool) returns (innermost: seq<Rgba>)
    ensures |innermost| == |chosen|
    ensures forall i :: 0 <= i < |chosen| ==> innermost[i] == WithAlpha(Processed(chosen[i], reduce), PatternAlpha)
  {
    innermost := [];
    for i := 0 to |chosen|
      invariant innermost == WithPatternAlpha(chosen[..i], reduce)
    {
      WithPatternAlphaAppend(chosen[..i], chosen[i], reduce);
      assert chosen[..i + 1] == chosen[..i] + [chosen[i]];
      var rgb := if reduce then Darkened(chosen[i], InnermostReduction) else chosen[i];
      innermost := innermost + [WithAlpha(rgb, PatternAlpha)];
    }
    assert chosen[..|chosen|] == chosen;
    assert innermost == WithPatternAlpha(chosen, reduce);
  }

  lemma {:induction false} WithPatternAlphaAppend(cs: seq<Rgb>, c: Rgb, reduce: bool)
    ensures WithPatternAlpha(cs + [c], reduce) == WithPatternAlpha(cs, reduce) + [WithAlpha(Processed(c, reduce), PatternAlpha)]
  {
    var l := WithPatternAlpha(cs + [c], reduce);
    var r := WithPatternAlpha(cs, reduce) + [WithAlpha(Processed(c, reduce), PatternAlpha)];
    assert |l| == |r|;
    forall i | 0 <= i < |l| ensures l[i] == r[i] {
      if i < |cs| { assert (cs + [c])[i] == cs[i]; }
    }
  }
}
