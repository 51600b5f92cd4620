/**
  Palette extraction and selection in qr_generator.py: the post-quantization
  part of get_dominant_colors, the crop-box arithmetic and pixel fallback of
  get_prominent_color_in_region, and get_contrasting_color.

  Pillow's quantizer is not modelled: its result (the `(count, index)` pairs
  of `getcolors()` and the flat `getpalette()` list) is an input, and so is
  every `getpixel` read.
*/
module Palette {
  import opened Wrappers
  import opened Colors
  import opened Sequences

  /** One `(count, index)` pair of `Image.getcolors()` on a quantized image. */
  datatype CountIndex = CountIndex(count: int, index: nat)

  /**
    What the quantizer stages yield. ConversionFailed stands for
    `img.convert("RGB")` raising. In Quantized, an empty `counts` stands for
    `getcolors()` returning None or [] (or the quantizer raising) and an
    empty `palette` for `getpalette()` returning None or [].
  */
  datatype QuantizerOutput =
    | ConversionFailed
    | Quantized(counts: seq<CountIndex>, palette: seq<int>)

  /** What `Image.getpixel` gives back: a tuple, a single int, or anything else (or it raised). */
  datatype Pixel = PixelTuple(cs: seq<int>) | PixelInt(v: int) | PixelUnreadable

  /** An image as the region sampler sees it: its size, its pixels, and what quantizing a crop yields. */
  datatype Raster = Raster(
    width: int,
    height: int,
    pixelAt: (int, int) -> Pixel,
    quantizeCrop: CropBox -> QuantizerOutput)

  /** `(x0, y0, x1, y1)` as passed to `Image.crop`. */
  datatype CropBox = CropBox(x0: int, y0: int, x1: int, y1: int)

  const Grey := Rgb(128, 128, 128)

  function CountKey(e: CountIndex): int { e.count }

  /** `index * 3 + 3 <= len(palette_list)`: the palette holds a full triple for this index. */
  predicate Fits(e: CountIndex, palette: seq<int>) { e.index * 3 + 3 <= |palette| }

  /** `tuple(palette_list[index * 3:index * 3 + 3])` */
  function PaletteColor(palette: seq<int>, index: nat): Rgb
    requires index * 3 + 3 <= |palette|
  {
    Rgb(palette[index * 3], palette[index * 3 + 1], palette[index * 3 + 2])
  }

  function Indices(s: seq<CountIndex>): set<nat> {
    set e | e in s :: e.index
  }

  predicate AllFit(s: seq<CountIndex>, palette: seq<int>) {
    forall i :: 0 <= i < |s| ==> Fits(s[i], palette)
  }

  predicate DistinctIndices(s: seq<CountIndex>) {
    forall i, j :: 0 <= i < j < |s| ==> s[i].index != s[j].index
  }

  /**
    The selection loop of lines 135-145, from a given state: `seen` is
    `indices_seen` and `acc` the entries whose colours `dom_cols` holds.
    An index already seen is skipped; an index with a full palette triple
    is taken; the loop stops as soon as `k` colours are held.
  */
  function SelectFrom(entries: seq<CountIndex>, palette: seq<int>, k: nat,
                      seen: set<nat>, acc: seq<CountIndex>): seq<CountIndex>
    decreases |entries|
  {
    if entries == [] then acc
    else
      var e := entries[0];
      if e.index in seen then SelectFrom(entries[1..], palette, k, seen, acc)
      else
        var acc' := if Fits(e, palette) then acc + [e] else acc;
        var seen' := if Fits(e, palette) then seen + {e.index} else seen;
        if |acc'| >= k then acc' else SelectFrom(entries[1..], palette, k, seen', acc')
  }

  lemma SelectFromFacts(entries: seq<CountIndex>, palette: seq<int>, k: nat,
                         seen: set<nat>, acc: seq<CountIndex>)
    requires seen == Indices(acc)
    requires DistinctIndices(acc)
    requires AllFit(acc, palette)
    requires |acc| < Max(k, 1)
    ensures var r := SelectFrom(entries, palette, k, seen, acc);
      && |acc| <= |r| <= Max(k, 1)
      && r[..|acc|] == acc
      && IsSubsequence(r[|acc|..], entries)
      && DistinctIndices(r)
      && AllFit(r, palette)
      && (|r| < k ==> forall e :: e in entries && Fits(e, palette) ==> e.index in Indices(r))
      && (SortedDesc(entries, CountKey) ==>
            forall e, c :: e in entries && Fits(e, palette) && e.index !in Indices(r) && c in r[|acc|..] ==>
              e.count <= c.count)
  {
    SelectFromShape(entries, palette, k, seen, acc);
    SelectFromDistinct(entries, palette, k, seen, acc);
    SelectFromComplete(entries, palette, k, seen, acc);
    if SortedDesc(entries, CountKey) {
      SelectFromRanked(entries, palette, k, seen, acc);
    }
  }

  /** The held entries only grow, by entries taken from the input in order, up to `k` (at least one). */
  lemma {:induction false} SelectFromShape(entries: seq<CountIndex>, palette: seq<int>, k: nat,
                                           seen: set<nat>, acc: seq<CountIndex>)
    requires |acc| < Max(k, 1)
    ensures var r := SelectFrom(entries, palette, k, seen, acc);
      && |acc| <= |r| <= Max(k, 1)
      && r[..|acc|] == acc
      && IsSubsequence(r[|acc|..], entries)
    decreases |entries|
  {
    var r := SelectFrom(entries, palette, k, seen, acc);
    if entries == [] {
      assert r[|acc|..] == [];
    } else {
      var e := entries[0];
      var rest := entries[1..];
      if e.index in seen {
        SelectFromShape(rest, palette, k, seen, acc);
      } else {
        var acc' := if Fits(e, palette) then acc + [e] else acc;
        var seen' := if Fits(e, palette) then seen + {e.index} else seen;
        if |acc'| >= k {
          assert r == acc';
          if Fits(e, palette) {
            assert r[|acc|..] == [e];
            NothingIsSubsequence(rest);
          } else {
            assert r[|acc|..] == [];
            NothingIsSubsequence(entries);
          }
        } else {
          SelectFromShape(rest, palette, k, seen', acc');
          assert r == SelectFrom(rest, palette, k, seen', acc');
          assert r[..|acc'|][..|acc|] == r[..|acc|];
          if Fits(e, palette) {
            assert acc'[..|acc|] == acc;
            assert r[|acc|..][0] == e;
            assert r[|acc|..][1..] == r[|acc'|..];
          } else {
            assert r[|acc|..] == r[|acc'|..];
          }
        }
      }
    }
  }

  /** Indices stay distinct and every held entry has a full palette triple. */
  lemma {:induction false} SelectFromDistinct(entries: seq<CountIndex>, palette: seq<int>, k: nat,
                                              seen: set<nat>, acc: seq<CountIndex>)
    requires seen == Indices(acc)
    requires DistinctIndices(acc)
    requires AllFit(acc, palette)
    ensures var r := SelectFrom(entries, palette, k, seen, acc);
      DistinctIndices(r) && AllFit(r, palette)
    decreases |entries|
  {
    if entries != [] {
      var e := entries[0];
      var rest := entries[1..];
      if e.index in seen {
        SelectFromDistinct(rest, palette, k, seen, acc);
      } else {
        var acc' := if Fits(e, palette) then acc + [e] else acc;
        var seen' := if Fits(e, palette) then seen + {e.index} else seen;
        if Fits(e, palette) {
          ColorsOfAppend(acc, e, palette);
          forall i | 0 <= i < |acc| ensures acc[i].index != e.index {
            assert acc[i] in acc;
          }
        }
        assert DistinctIndices(acc');
        if |acc'| < k {
          SelectFromDistinct(rest, palette, k, seen', acc');
        }
      }
    }
  }

  /** Stopping short of `k` means every fitting index of the input was taken. */
  lemma {:induction false} SelectFromComplete(entries: seq<CountIndex>, palette: seq<int>, k: nat,
                                              seen: set<nat>, acc: seq<CountIndex>)
    requires seen == Indices(acc)
    requires |acc| < Max(k, 1)
    ensures var r := SelectFrom(entries, palette, k, seen, acc);
      |r| < k ==> forall e :: e in entries && Fits(e, palette) ==> e.index in Indices(r)
    decreases |entries|
  {
    var r := SelectFrom(entries, palette, k, seen, acc);
    if entries != [] {
      var e := entries[0];
      var rest := entries[1..];
      SelectFromShape(entries, palette, k, seen, acc);
      assert Indices(acc) <= Indices(r) by {
        forall x | x in acc ensures x in r {
          assert x in r[..|acc|];
        }
      }
      if e.index in seen {
        SelectFromComplete(rest, palette, k, seen, acc);
      } else {
        var acc' := if Fits(e, palette) then acc + [e] else acc;
        var seen' := if Fits(e, palette) then seen + {e.index} else seen;
        if Fits(e, palette) {
          IndicesAppend(acc, e);
        }
        if |acc'| < k {
          SelectFromComplete(rest, palette, k, seen', acc');
          SelectFromShape(rest, palette, k, seen', acc');
          assert Indices(acc') <= Indices(r) by {
            forall x | x in acc' ensures x in r {
              assert x in r[..|acc'|];
            }
          }
        }
      }
    }
  }

  /**
    Over a list sorted by count, descending, no fitting entry left out
    (its index not collected) has a larger count than an entry the loop
    collected: the loop takes the highest-ranked colours first.
  */
  lemma {:induction false} SelectFromRanked(entries: seq<CountIndex>, palette: seq<int>, k: nat,
                                            seen: set<nat>, acc: seq<CountIndex>)
    requires seen == Indices(acc)
    requires |acc| < Max(k, 1)
    requires SortedDesc(entries, CountKey)
    ensures var r := SelectFrom(entries, palette, k, seen, acc);
      && |acc| <= |r|
      && forall e, c :: e in entries && Fits(e, palette) && e.index !in Indices(r) && c in r[|acc|..] ==>
           e.count <= c.count
    decreases |entries|
  {
    var r := SelectFrom(entries, palette, k, seen, acc);
    if entries != [] {
      var e0 := entries[0];
      var rest := entries[1..];
      SortedHeadCount(entries);
      SelectFromShape(entries, palette, k, seen, acc);
      assert Indices(acc) <= Indices(r) by {
        forall x | x in acc ensures x in r {
          assert x in r[..|acc|];
        }
      }
      if e0.index in seen {
        SelectFromRanked(rest, palette, k, seen, acc);
      } else {
        var acc' := if Fits(e0, palette) then acc + [e0] else acc;
        var seen' := if Fits(e0, palette) then seen + {e0.index} else seen;
        if Fits(e0, palette) {
          IndicesAppend(acc, e0);
        }
        if |acc'| >= k {
          assert r == acc';
          if Fits(e0, palette) {
            assert r[|acc|..] == [e0];
            assert e0.index in Indices(r);
          } else {
            assert r[|acc|..] == [];
          }
        } else {
          SelectFromRanked(rest, palette, k, seen', acc');
          SelectFromShape(rest, palette, k, seen', acc');
          assert r == SelectFrom(rest, palette, k, seen', acc');
          assert Indices(acc') <= Indices(r) by {
            forall x | x in acc' ensures x in r {
              assert x in r[..|acc'|];
            }
          }
          if Fits(e0, palette) {
            assert r[|acc|..] == [e0] + r[|acc'|..] by {
              assert r[..|acc'|] == acc';
            }
          } else {
            assert r[|acc|..] == r[|acc'|..];
          }
        }
      }
    }
  }

  /** The head of a list sorted by count has the largest count, and the rest stays sorted. */
  lemma SortedHeadCount(entries: seq<CountIndex>)
    requires entries != [] && SortedDesc(entries, CountKey)
    ensures SortedDesc(entries[1..], CountKey)
    ensures forall e :: e in entries ==> e.count <= entries[0].count
  {
    forall e | e in entries ensures e.count <= entries[0].count {
      var j :| 0 <= j < |entries| && entries[j] == e;
      if j > 0 { assert CountKey(entries[0]) >= CountKey(entries[j]); }
    }
  }

  /** The entries whose colours get_dominant_colors collects, in collection order. */
  function Chosen(q: QuantizerOutput, k: nat): (ch: seq<CountIndex>)
    requires q.Quantized?
    ensures AllFit(ch, q.palette)
  {
    if q.counts == [] || q.palette == [] then []
    else
      SelectFromFacts(StableSortDesc(q.counts, CountKey), q.palette, k, {}, []);
      SelectFrom(StableSortDesc(q.counts, CountKey), q.palette, k, {}, [])
  }

  /** The palette colours of the chosen entries. */
  function ColorsOf(ch: seq<CountIndex>, palette: seq<int>): (cols: seq<Rgb>)
    requires AllFit(ch, palette)
    ensures |cols| == |ch|
    ensures forall i :: 0 <= i < |ch| ==> cols[i] == PaletteColor(palette, ch[i].index)
  {
    if ch == [] then [] else [PaletteColor(palette, ch[0].index)] + ColorsOf(ch[1..], palette)
  }

  /** Lines 147-157: the first pixel's colour when nothing was collected, else black. */
  function CornerFallback(corner: Pixel): Rgb {
    match corner
    case PixelTuple(cs) => if |cs| >= 3 then Rgb(cs[0], cs[1], cs[2]) else Black
    case PixelInt(v) => Rgb(v, v, v)
    case PixelUnreadable => Black
  }

  /**
    get_dominant_colors after quantization: the chosen colours (or the
    fallback), padded with the last colour to three, cut to `k`.
  */
  function DominantColors(q: QuantizerOutput, corner: Pixel, k: nat): seq<Rgb> {
    match q
    case ConversionFailed => [Black, Black, Black]
    case Quantized(_, palette) =>
      var ch := Chosen(q, k);
      var base := if ch == [] then [CornerFallback(corner)] else ColorsOf(ch, palette);
      var padded := PadToThree(base, Black);
      padded[..Min(k, |padded|)]
  }

  /**
    The chosen entries are ranked by pixel count, descending; among equal
    counts they keep the quantizer's order (the sort is stable); each
    palette index appears once; each comes from the quantizer's list with a
    full palette triple; and unless `k` were reached, every index with a
    full triple was collected.
  */
  lemma DominantColorsRanked(q: QuantizerOutput, k: nat)
    requires q.Quantized?
    ensures var ch := Chosen(q, k);
      && IsSubsequence(ch, StableSortDesc(q.counts, CountKey))
      && SortedDesc(ch, CountKey)
      && (forall c :: IsSubsequence(Filter(ch, KeyIs(CountKey, c)), Filter(q.counts, KeyIs(CountKey, c))))
      && DistinctIndices(ch)
      && (forall e :: e in ch ==> e in q.counts && Fits(e, q.palette))
      && |ch| <= Max(k, 1)
      && (q.palette != [] && |ch| < k ==>
            forall e :: e in q.counts && Fits(e, q.palette) ==> e.index in Indices(ch))
      && (forall e, c :: e in q.counts && Fits(e, q.palette) && e.index !in Indices(ch) && c in ch ==>
            e.count <= c.count)
  {
    var ch := Chosen(q, k);
    var sorted := StableSortDesc(q.counts, CountKey);
    if q.counts == [] || q.palette == [] {
      assert IsSubsequence(ch, sorted) by {
        if sorted != [] { NothingIsSubsequence(sorted); }
      }
      forall c ensures IsSubsequence(Filter(ch, KeyIs(CountKey, c)), Filter(q.counts, KeyIs(CountKey, c))) {
        NothingIsSubsequence(Filter(q.counts, KeyIs(CountKey, c)));
      }
    } else {
      SelectFromFacts(sorted, q.palette, k, {}, []);
      assert ch[0..] == ch;
      SubsequenceOfSorted(ch, sorted, CountKey);
      SubsequenceMembers(ch, sorted);
      forall e | e in ch ensures e in q.counts {
        assert e in multiset(sorted);
      }
      forall e | e in q.counts ensures e in sorted {
        assert e in multiset(q.counts);
      }
      forall c ensures IsSubsequence(Filter(ch, KeyIs(CountKey, c)), Filter(q.counts, KeyIs(CountKey, c))) {
        SubsequenceOfFilter(ch, sorted, KeyIs(CountKey, c));
        StableSortKeepsTies(q.counts, CountKey, c);
      }
    }
  }

  lemma {:induction false} NothingIsSubsequence<T>(s: seq<T>)
    ensures IsSubsequence([], s)
    decreases |s|
  {
    if s != [] { NothingIsSubsequence(s[1..]); }
  }

  /**
    The returned list: when nothing was collected, the fallback colour three
    times; otherwise the collected colours, padded with the last one to at
    least three entries; in both cases cut to at most `k` entries.
  */
  lemma DominantColorsLayout(q: QuantizerOutput, corner: Pixel, k: nat)
    requires q.Quantized?
    ensures var ch := Chosen(q, k);
      var cols := DominantColors(q, corner, k);
      && (ch == [] ==> cols == [CornerFallback(corner), CornerFallback(corner), CornerFallback(corner)][..Min(k, 3)])
      && (ch != [] ==>
            && |cols| == Min(k, Max(3, |ch|))
            && forall i :: 0 <= i < |cols| ==>
                 cols[i] == PaletteColor(q.palette, ch[Min(i, |ch| - 1)].index))
  {
    var ch := Chosen(q, k);
    if ch == [] {
      var f := CornerFallback(corner);
      PadToThreeShape([f], Black);
      assert PadToThree([f], Black) == [f, f, f];
    } else {
      PaddedColours(ch, q.palette);
    }
  }

  /** The collected colours padded to three: each position past the end repeats the last one. */
  lemma PaddedColours(ch: seq<CountIndex>, palette: seq<int>)
    requires AllFit(ch, palette) && ch != []
    ensures var padded := PadToThree(ColorsOf(ch, palette), Black);
      && |padded| == Max(3, |ch|)
      && forall i :: 0 <= i < |padded| ==> padded[i] == PaletteColor(palette, ch[Min(i, |ch| - 1)].index)
  {
    var base := ColorsOf(ch, palette);
    PadToThreeShape(base, Black);
    var padded := PadToThree(base, Black);
    forall i | 0 <= i < |padded| ensures padded[i] == PaletteColor(palette, ch[Min(i, |ch| - 1)].index) {
      if i < |base| { assert padded[i] == padded[..|base|][i]; }
    }
  }

  /** A quantizer that could not convert the image yields black three times. */
  lemma DominantColorsConversionFailed(corner: Pixel, k: nat)
    ensures DominantColors(ConversionFailed, corner, k) == [Black, Black, Black]
  {
  }

  /** get_dominant_colors, lines 128-163, with its loops. */
  method GetDominantColors(q: QuantizerOutput, corner: Pixel, k: nat) returns (cols: seq<Rgb>)
    ensures cols == DominantColors(q, corner, k)
  {
    if q.ConversionFailed? {
      return [Black, Black, Black];
    }
    var domCols := CollectDominantColors(q, k);
    if |domCols| == 0 {
      domCols := [CornerFallback(corner)];
    }
    ghost var base := domCols;
    while |domCols| < 3
      invariant |domCols| >= 1
      invariant PadToThree(domCols, Black) == PadToThree(base, Black)
      decreases 3 - |domCols|
    {
      domCols := domCols + [domCols[|domCols| - 1]];
    }
    cols := domCols[..Min(k, |domCols|)];
  }

  /** Lines 132-146: the loop over the sorted counts that collects up to `k` distinct palette colours. */
  method CollectDominantColors(q: QuantizerOutput, k: nat) returns (domCols: seq<Rgb>)
    requires q.Quantized?
    ensures domCols == ColorsOf(Chosen(q, k), q.palette)
  {
    domCols := [];
    ghost var chosen: seq<CountIndex> := [];
    if |q.counts| > 0 && |q.palette| > 0 {
      var sorted := StableSortDesc(q.counts, CountKey);
      var palette := q.palette;
      var indicesSeen: set<nat> := {};
      var i := 0;
      while i < |sorted|
        invariant 0 <= i <= |sorted|
        invariant AllFit(chosen, palette)
        invariant indicesSeen == Indices(chosen)
        invariant domCols == ColorsOf(chosen, palette)
        invariant SelectFrom(sorted[i..], palette, k, indicesSeen, chosen) == Chosen(q, k)
        invariant |chosen| < k || (i == 0 && chosen == [])
      {
        var e := sorted[i];
        assert sorted[i..][1..] == sorted[i + 1..];
        if e.index in indicesSeen {
          i := i + 1;
          continue;
        }
        if e.index * 3 + 3 <= |palette| {
          ColorsOfAppend(chosen, e, palette);
          domCols := domCols + [PaletteColor(palette, e.index)];
          chosen := chosen + [e];
          indicesSeen := indicesSeen + {e.index};
        }
        if |domCols| >= k {
          assert chosen == Chosen(q, k);
          break;
        }
        i := i + 1;
      }
      if i == |sorted| {
        assert chosen == Chosen(q, k);
      }
    }
    assert chosen == Chosen(q, k);
  }

  lemma IndicesAppend(ch: seq<CountIndex>, e: CountIndex)
    ensures Indices(ch + [e]) == Indices(ch) + {e.index}
  {
    assert forall x :: x in ch + [e] <==> x in ch || x == e;
  }

  /** Taking one more entry with a full triple: it fits, its index is seen, its colour is appended. */
  lemma {:induction false} ColorsOfAppend(ch: seq<CountIndex>, e: CountIndex, palette: seq<int>)
    requires AllFit(ch, palette)
    requires Fits(e, palette)
    ensures AllFit(ch + [e], palette)
    ensures Indices(ch + [e]) == Indices(ch) + {e.index}
    ensures ColorsOf(ch + [e], palette) == ColorsOf(ch, palette) + [PaletteColor(palette, e.index)]
  {
    assert forall x :: x in ch + [e] <==> x in ch || x == e;
    var l := ColorsOf(ch + [e], palette);
    var r := ColorsOf(ch, palette) + [PaletteColor(palette, e.index)];
    assert |l| == |r|;
    forall i | 0 <= i < |l| ensures l[i] == r[i] {
      if i < |ch| { assert (ch + [e])[i] == ch[i]; }
    }
  }

  /** The colour of the most frequent entry of a quantized crop (lines 194-205), if there is one. */
  function MostFrequent(q: QuantizerOutput): (c: Option<Rgb>)
    ensures c.Some? ==>
      && q.Quantized?
      && exists e :: e in q.counts && Fits(e, q.palette) && c.value == PaletteColor(q.palette, e.index) &&
           forall e' :: e' in q.counts ==> e'.count <= e.count
    ensures (q.Quantized? && q.counts != [] && q.palette != [] &&
             (forall e :: e in q.counts ==> Fits(e, q.palette))) ==> c.Some?
  {
    if q.ConversionFailed? || q.counts == [] || q.palette == [] then None
    else
      var sorted := StableSortDesc(q.counts, CountKey);
      var top := sorted[0];
      assert top in multiset(q.counts);
      assert forall e' :: e' in q.counts ==> e'.count <= top.count by {
        forall e' | e' in q.counts ensures e'.count <= top.count {
          assert e' in multiset(sorted);
          var j :| 0 <= j < |sorted| && sorted[j] == e';
          assert CountKey(sorted[0]) >= CountKey(sorted[j]) || j == 0;
        }
      }
      if Fits(top, q.palette) then Some(PaletteColor(q.palette, top.index)) else None
  }

  /**
    Python's sort is stable, so the entry MostFrequent reads is the first
    entry, in getcolors order, with the largest count.
  */
  lemma MostFrequentIsFirstLargest(q: QuantizerOutput) returns (i: nat)
    requires q.Quantized? && q.counts != [] && q.palette != []
    ensures i < |q.counts|
    ensures forall j :: 0 <= j < |q.counts| ==> q.counts[j].count <= q.counts[i].count
    ensures forall j :: 0 <= j < i ==> q.counts[j].count < q.counts[i].count
    ensures MostFrequent(q) ==
      if Fits(q.counts[i], q.palette) then Some(PaletteColor(q.palette, q.counts[i].index)) else None
  {
    var all: CountIndex -> bool := e => true;
    FilterAll(q.counts, all);
    i := FirstOfLargest(q.counts, all, CountKey);
  }

  function ClampByte(x: int): (y: int)
    ensures IsByte(y)
    ensures IsByte(x) ==> y == x
    ensures x < 0 ==> y == 0
    ensures x > 255 ==> y == 255
  {
    Max(0, Min(255, x))
  }

  /** `v` is `x` pinned to 0..255: `x` itself when a byte, else the nearer end. */
  predicate ClampedTo(v: int, x: int) {
    && (IsByte(x) ==> v == x)
    && (x < 0 ==> v == 0)
    && (x > 255 ==> v == 255)
  }

  /**
    The pixel fallback (lines 172-178 and 209-215): a tuple of at least three
    channels gives its first three, each clamped to 0..255; a single int
    gives that grey; anything else mid-grey.
  */
  function PixelColor(p: Pixel): (c: Rgb)
    ensures p.PixelTuple? && |p.cs| >= 3 ==>
      IsColor(c) && ClampedTo(c.r, p.cs[0]) && ClampedTo(c.g, p.cs[1]) && ClampedTo(c.b, p.cs[2])
    ensures p.PixelInt? ==> c == Rgb(p.v, p.v, p.v)
    ensures !(p.PixelTuple? && |p.cs| >= 3) && !p.PixelInt? ==> c == Grey
  {
    match p
    case PixelTuple(cs) => if |cs| >= 3 then Rgb(ClampByte(cs[0]), ClampByte(cs[1]), ClampByte(cs[2])) else Grey
    case PixelInt(v) => Rgb(v, v, v)
    case PixelUnreadable => Grey
  }

  /**
    Lines 167-168: the square of half-side `radius` around the centre,
    truncated to integers and clipped to the image.
  */
  function RegionBox(width: int, height: int, cx: real, cy: real, radius: int): (b: CropBox)
    ensures 0 <= b.x0 && 0 <= b.y0 && b.x1 <= width && b.y1 <= height
    ensures radius as real <= cx ==> b.x0 as real <= cx - radius as real < b.x0 as real + 1.0
    ensures radius as real <= cy ==> b.y0 as real <= cy - radius as real < b.y0 as real + 1.0
    ensures 0.0 <= cx + radius as real < width as real ==>
      b.x1 as real <= cx + radius as real < b.x1 as real + 1.0
    ensures 0.0 <= cy + radius as real < height as real ==>
      b.y1 as real <= cy + radius as real < b.y1 as real + 1.0
    ensures cx < radius as real ==> b.x0 == 0
    ensures cy < radius as real ==> b.y0 == 0
    ensures cx + radius as real >= width as real ==> b.x1 == width
    ensures cy + radius as real >= height as real ==> b.y1 == height
    ensures cx + radius as real < 0.0 ==>
      b.x1 <= 0 && (b.x1 < width ==> b.x1 as real - 1.0 < cx + radius as real <= b.x1 as real)
    ensures cy + radius as real < 0.0 ==>
      b.y1 <= 0 && (b.y1 < height ==> b.y1 as real - 1.0 < cy + radius as real <= b.y1 as real)
  {
    CropBox(Max(0, Trunc(cx - radius as real)), Max(0, Trunc(cy - radius as real)),
            Min(width, Trunc(cx + radius as real)), Min(height, Trunc(cy + radius as real)))
  }

  /** Line 169: a crop box with no area. */
  predicate IsDegenerate(b: CropBox) { b.x1 <= b.x0 || b.y1 <= b.y0 }

  /** A box that is not degenerate lies inside the image and has positive area. */
  lemma RegionBoxInsideImage(width: int, height: int, cx: real, cy: real, radius: int)
    ensures var b := RegionBox(width, height, cx, cy, radius);
      !IsDegenerate(b) ==> 0 <= b.x0 < b.x1 <= width && 0 <= b.y0 < b.y1 <= height
  {
  }

  /**
    Lines 171 and 208: the pixel containing the centre, moved inside the
    image when the centre lies outside it.
  */
  function NearestPixel(width: int, height: int, cx: real, cy: real): (p: (int, int))
    ensures width >= 1 ==> 0 <= p.0 < width
    ensures height >= 1 ==> 0 <= p.1 < height
    ensures 0.0 <= cx < width as real ==> p.0 as real <= cx < p.0 as real + 1.0
    ensures 0.0 <= cy < height as real ==> p.1 as real <= cy < p.1 as real + 1.0
    ensures cx < 0.0 ==> p.0 == 0
    ensures cy < 0.0 ==> p.1 == 0
    ensures cx >= width as real ==> p.0 == Max(0, width - 1)
    ensures cy >= height as real ==> p.1 == Max(0, height - 1)
  {
    (Max(0, Min(width - 1, Trunc(cx))), Max(0, Min(height - 1, Trunc(cy))))
  }

  /** The fallback colour read at an integer pixel position. */
  function PixelAt(img: Raster, p: (int, int)): Rgb {
    PixelColor(img.pixelAt(p.0, p.1))
  }

  /** `c` is the palette colour of an entry of largest count that has a full triple. */
  predicate IsTopColour(q: QuantizerOutput, c: Rgb) {
    && q.Quantized?
    && exists e :: e in q.counts && Fits(e, q.palette) && c == PaletteColor(q.palette, e.index) &&
         forall e' :: e' in q.counts ==> e'.count <= e.count
  }

  /** The quantizer yielded entries and a palette, and every entry has a full triple. */
  predicate EveryEntryFits(q: QuantizerOutput) {
    q.Quantized? && q.counts != [] && q.palette != [] && forall e :: e in q.counts ==> Fits(e, q.palette)
  }

  /**
    get_prominent_color_in_region: the most frequent colour of the crop
    around the centre; the colour of the pixel nearest the centre when the
    crop has no area or its quantization yields nothing usable.
  */
  function ProminentColor(img: Raster, cx: real, cy: real, radius: int): (c: Rgb)
    ensures var b := RegionBox(img.width, img.height, cx, cy, radius);
      var fallback := PixelAt(img, NearestPixel(img.width, img.height, cx, cy));
      && (IsDegenerate(b) ==> c == fallback)
      && (c == fallback || (!IsDegenerate(b) && IsTopColour(img.quantizeCrop(b), c)))
      && (!IsDegenerate(b) && EveryEntryFits(img.quantizeCrop(b)) ==> IsTopColour(img.quantizeCrop(b), c))
  {
    var b := RegionBox(img.width, img.height, cx, cy, radius);
    var fallback := PixelAt(img, NearestPixel(img.width, img.height, cx, cy));
    if IsDegenerate(b) then fallback
    else match MostFrequent(img.quantizeCrop(b))
      case Some(c) => c
      case None => fallback
  }

  /** The `type` argument of get_contrasting_color: "dark", "light" or any other string. */
  datatype ContrastKind = DarkKind | LightKind | OtherKind

  /** Line 232 for "dark" (lightness below the threshold, not pure black) and line 244 for "light". */
  predicate Suits(c: Rgb, kind: ContrastKind, threshold: int) {
    match kind
    case DarkKind => HslOf(c).l < threshold && c != Black
    case LightKind => HslOf(c).l > threshold && c != White
    case OtherKind => false
  }

  /**
    get_contrasting_color: the first palette colour, in list order, that
    suits the requested kind; otherwise the first three components of the
    kind's fallback; for an unknown kind the dark fallback.
  */
  function ContrastingColor(palette: seq<Rgb>, kind: ContrastKind, threshold: int,
                            darkDefault: Rgba, lightDefault: Rgba): (c: Rgb)
    ensures kind.OtherKind? ==> c == RgbPart(darkDefault)
    ensures (exists i :: 0 <= i < |palette| && Suits(palette[i], kind, threshold)) ==>
      exists i :: 0 <= i < |palette| && c == palette[i] && Suits(palette[i], kind, threshold) &&
        forall j :: 0 <= j < i ==> !Suits(palette[j], kind, threshold)
    ensures (forall i :: 0 <= i < |palette| ==> !Suits(palette[i], kind, threshold)) ==>
      c == (if kind.LightKind? then RgbPart(lightDefault) else RgbPart(darkDefault))
  {
    var fallback := if kind.LightKind? then RgbPart(lightDefault) else RgbPart(darkDefault);
    if kind.OtherKind? then RgbPart(darkDefault)
    else match FindFirst(palette, c => Suits(c, kind, threshold))
      case Some(i) => palette[i]
      case None => fallback
  }
}
