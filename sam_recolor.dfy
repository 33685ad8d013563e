/**
  The product recolouring pipeline of the dashboard: choosing the product
  region among the candidate masks of the segmentation model, parsing the
  target colour, the per-category parameter table, the HSV update of the
  masked pixels, the early exits of the pipeline and the lazily loaded
  segmentation model.

  The segmentation model itself, OpenCV's colour conversions and the
  post-processing after the HSV stage are collaborators passed in as
  functions.  Floating-point channels are exact reals here.
*/
module SamRecolor {
  import opened Wrappers
  import opened Text

  // ===== candidate masks ================================================

  /** One candidate of the mask generator: a height x width boolean raster
      stored row by row, and its reported pixel area. */
  datatype MaskData = MaskData(height: nat, width: nat, segmentation: seq<bool>, area: int)

  /** Every candidate is a raster of the same shape as the first one. */
  predicate WellShaped(masks: seq<MaskData>) {
    |masks| > 0 ==>
      forall m :: m in masks ==>
        m.height == masks[0].height && m.width == masks[0].width
        && |m.segmentation| == m.height * m.width
  }

  /** Every candidate has the shape of an image of the given size. */
  predicate Fits(masks: seq<MaskData>, height: nat, width: nat) {
    forall m :: m in masks ==>
      m.height == height && m.width == width && |m.segmentation| == height * width
  }

  lemma {:induction false} FitsWellShaped(masks: seq<MaskData>, height: nat, width: nat)
    requires Fits(masks, height, width)
    ensures WellShaped(masks)
  {
    if |masks| > 0 {
      assert masks[0] in masks;
    }
  }

  /** A candidate is kept when its area lies strictly between 0.2% and 40% of
      the frame, written without fractions. */
  predicate InWindow(area: int, total: int) {
    5 * area < 2 * total && 500 * area > total
  }

  /** The candidates whose area lies in the window, in their order. */
  function WindowMasks(ms: seq<MaskData>, total: int): (r: seq<MaskData>)
    ensures forall m :: m in r <==> m in ms && InWindow(m.area, total)
  {
    if ms == [] then []
    else (if InWindow(ms[0].area, total) then [ms[0]] else []) + WindowMasks(ms[1..], total)
  }

  // ----- the stable sort by descending area -----------------------------

  predicate DescendingByArea(s: seq<MaskData>) {
    forall i, j :: 0 <= i < j < |s| ==> s[i].area >= s[j].area
  }

  /** Inserts `x`, which came first in the input, in front of every element
      of no larger area: this keeps the sort stable. */
  function InsertByArea(x: MaskData, s: seq<MaskData>): (r: seq<MaskData>)
    ensures multiset(r) == multiset(s) + multiset{x}
    ensures |r| == |s| + 1
  {
    if s == [] || s[0].area <= x.area then [x] + s
    else
      assert s == [s[0]] + s[1..];
      [s[0]] + InsertByArea(x, s[1..])
  }

  lemma {:induction false} InsertByAreaDescending(x: MaskData, s: seq<MaskData>)
    requires DescendingByArea(s)
    ensures DescendingByArea(InsertByArea(x, s))
  {
    if s != [] && s[0].area > x.area {
      var rest := InsertByArea(x, s[1..]);
      InsertByAreaDescending(x, s[1..]);
      forall k | 0 <= k < |rest| ensures rest[k].area <= s[0].area {
        assert rest[k] in multiset(rest);
        if rest[k] != x {
          assert rest[k] in multiset(s[1..]);
          var j :| 0 <= j < |s[1..]| && s[1..][j] == rest[k];
          assert s[1 + j] == rest[k];
        }
      }
      assert InsertByArea(x, s) == [s[0]] + rest;
    }
  }

  /** Python's sorted(masks, key=area, reverse=True): descending area, and
      candidates of equal area keep their input order. */
  function SortByArea(ms: seq<MaskData>): (r: seq<MaskData>)
    ensures multiset(r) == multiset(ms)
    ensures |r| == |ms|
    ensures DescendingByArea(r)
  {
    if ms == [] then []
    else
      assert ms == [ms[0]] + ms[1..];
      var rest := SortByArea(ms[1..]);
      InsertByAreaDescending(ms[0], rest);
      InsertByArea(ms[0], rest)
  }

  /** The index of the first candidate of largest area. */
  function FirstMaxIndex(ms: seq<MaskData>): (k: nat)
    requires |ms| > 0
    ensures k < |ms|
    ensures forall j :: 0 <= j < |ms| ==> ms[j].area <= ms[k].area
    ensures forall j :: 0 <= j < k ==> ms[j].area < ms[k].area
  {
    if |ms| == 1 then 0
    else
      var k := FirstMaxIndex(ms[1..]);
      if ms[0].area >= ms[1 + k].area then 0 else 1 + k
  }

  /** The stable sort puts the first candidate of largest area in front. */
  lemma {:induction false} SortByAreaHead(ms: seq<MaskData>)
    requires |ms| > 0
    ensures SortByArea(ms)[0] == ms[FirstMaxIndex(ms)]
  {
    var rest := SortByArea(ms[1..]);
    if |ms| > 1 {
      SortByAreaHead(ms[1..]);
      var k := FirstMaxIndex(ms[1..]);
      assert rest[0] == ms[1 + k];
      if ms[0].area < ms[1 + k].area {
        assert InsertByArea(ms[0], rest) == [rest[0]] + InsertByArea(ms[0], rest[1..]);
      }
    }
  }

  // ----- combining candidates -------------------------------------------

  /** Pixel p is set in some candidate of `ms`. */
  predicate SetInSome(ms: seq<MaskData>, p: nat) {
    exists m :: m in ms && p < |m.segmentation| && m.segmentation[p]
  }

  /** ORs the rasters of `src` into an all-false raster of n pixels. */
  method CombineMasks(src: seq<MaskData>, n: nat) returns (combined: seq<bool>)
    requires forall m :: m in src ==> |m.segmentation| == n
    ensures |combined| == n
    ensures forall p :: 0 <= p < n ==> (combined[p] <==> SetInSome(src, p))
  {
    combined := seq(n, _ => false);
    var i := 0;
    while i < |src|
      invariant 0 <= i <= |src|
      invariant |combined| == n
      invariant forall p :: 0 <= p < n ==> (combined[p] <==> SetInSome(src[..i], p))
    {
      assert src[i] in src;
      var seg := src[i].segmentation;
      combined := seq(n, p requires 0 <= p < n => combined[p] || seg[p]);
      assert src[..i + 1] == src[..i] + [src[i]];
      forall p | 0 <= p < n
        ensures combined[p] <==> SetInSome(src[..i + 1], p)
      {
        if seg[p] {
          assert src[i] in src[..i + 1];
        }
        if SetInSome(src[..i], p) {
          var m :| m in src[..i] && p < |m.segmentation| && m.segmentation[p];
          assert m in src[..i + 1];
        }
      }
      i := i + 1;
    }
    assert src[..i] == src;
  }

  /** The pixel area of the frame, from the shape of the largest candidate. */
  function FrameArea(masks: seq<MaskData>): int
    requires |masks| > 0
  {
    masks[0].height * masks[0].width
  }

  /** Some candidate lies in the area window. */
  predicate AnyInWindow(masks: seq<MaskData>) {
    |masks| > 0 && exists m :: m in masks && InWindow(m.area, FrameArea(masks))
  }

  /** `m` is the mask PickBestMask makes of the non-empty candidate list
      `masks`: the one candidate's raster, or the union of the candidates in
      the area window, or, with none in the window, the union of all but
      the largest. */
  predicate ChosenMask(masks: seq<MaskData>, m: seq<bool>) {
    && masks != []
    && (|masks| == 1 ==> m == masks[0].segmentation)
    && (|masks| >= 2 ==> |m| == FrameArea(masks))
    && (|masks| >= 2 && AnyInWindow(masks) ==>
          forall p :: 0 <= p < |m| ==> (m[p] <==> SetInWindowed(masks, FrameArea(masks), p)))
    && (|masks| >= 2 && !AnyInWindow(masks) ==>
          forall p :: 0 <= p < |m| ==> (m[p] <==> SetInSome(SortByArea(masks)[1..], p)))
  }

  /** Pixel p is set in some candidate whose area lies in the window. */
  predicate SetInWindowed(masks: seq<MaskData>, total: int, p: nat) {
    exists m :: m in masks && InWindow(m.area, total) && p < |m.segmentation| && m.segmentation[p]
  }

  lemma {:induction false} SortByAreaMembers(ms: seq<MaskData>)
    ensures forall m :: m in SortByArea(ms) <==> m in ms
  {
    var sorted := SortByArea(ms);
    forall m ensures m in sorted <==> m in ms {
      assert m in sorted <==> m in multiset(sorted);
      assert m in ms <==> m in multiset(ms);
    }
  }

  lemma {:induction false} WindowUnion(masks: seq<MaskData>, sorted: seq<MaskData>, total: int, combined: seq<bool>)
    requires forall m :: m in sorted <==> m in masks
    requires |combined| == total
    requires forall p :: 0 <= p < total ==> (combined[p] <==> SetInSome(WindowMasks(sorted, total), p))
    ensures forall p :: 0 <= p < total ==> (combined[p] <==> SetInWindowed(masks, total, p))
  {
    var w := WindowMasks(sorted, total);
    forall p | 0 <= p < total
      ensures combined[p] <==> SetInWindowed(masks, total, p)
    {
      if SetInSome(w, p) {
        var m :| m in w && p < |m.segmentation| && m.segmentation[p];
        assert m in masks;
      }
      if SetInWindowed(masks, total, p) {
        var m :| m in masks && InWindow(m.area, total) && p < |m.segmentation| && m.segmentation[p];
        assert m in w;
      }
    }
  }

  /** The product region: no region without candidates, a single candidate
      as it is, otherwise the union of the candidates in the area window, or,
      when none is, the union of all candidates but the first after the sort. */
  method PickBestMask(masks: seq<MaskData>) returns (r: Option<seq<bool>>)
    requires WellShaped(masks)
    ensures r.None? <==> masks == []
    ensures |masks| == 1 ==> r == Some(masks[0].segmentation)
    ensures |masks| >= 2 ==> r.Some? && |r.value| == FrameArea(masks)
    ensures |masks| >= 2 && AnyInWindow(masks) ==>
      r.Some? && forall p :: 0 <= p < |r.value| ==> (r.value[p] <==> SetInWindowed(masks, FrameArea(masks), p))
    ensures |masks| >= 2 && !AnyInWindow(masks) ==>
      r.Some? && forall p :: 0 <= p < |r.value| ==> (r.value[p] <==> SetInSome(SortByArea(masks)[1..], p))
    ensures r.Some? ==> ChosenMask(masks, r.value)
  {
    if masks == [] {
      return None;
    }
    var sorted := SortByArea(masks);
    if |sorted| < 2 {
      assert sorted == [masks[0]];
      return Some(sorted[0].segmentation);
    }
    SortByAreaMembers(masks);
    assert sorted[0] in masks;
    var totalArea := sorted[0].height * sorted[0].width;
    assert totalArea == FrameArea(masks);
    var productMasks := WindowMasks(sorted, totalArea);
    if productMasks != [] {
      assert productMasks[0] in productMasks;
      var combined := CombineMasks(productMasks, totalArea);
      WindowUnion(masks, sorted, totalArea, combined);
      return Some(combined);
    } else {
      assert !AnyInWindow(masks);
      forall m | m in sorted[1..] ensures |m.segmentation| == totalArea {
        assert m in sorted;
      }
      var combined := CombineMasks(sorted[1..], totalArea);
      return Some(combined);
    }
  }

  // ===== the target colour ==============================================

  /** The string of `n` copies of `c`. */
  function Repeat(c: char, n: nat): (r: string)
    ensures |r| == n && forall i :: 0 <= i < n ==> r[i] == c
  {
    if n == 0 then [] else [c] + Repeat(c, n - 1)
  }

  predicate AllHex(s: string) {
    forall i :: 0 <= i < |s| ==> IsHexDigit(s[i])
  }

  /** The value of a string of hexadecimal digits. */
  function HexValue(s: string): (v: nat)
    requires AllHex(s)
    ensures |s| <= 1 ==> v < 16
    ensures |s| <= 2 ==> v < 256
  {
    if s == [] then 0 else HexValue(s[..|s| - 1]) * 16 + HexDigitValue(s[|s| - 1])
  }

  /** Python's int(s, 16).  Surrounding whitespace and one sign are accepted;
      this is exact for strings of at most two characters, where neither a
      "0x" prefix nor an underscore can be valid. */
  function ParseIntBase16(s: string): (r: Option<int>)
    ensures |s| <= 2 && r.Some? ==> r.value < 256
  {
    var t := PyStrip(s);
    if t == [] then None
    else if t[0] == '+' || t[0] == '-' then
      var d := t[1..];
      if d != [] && AllHex(d) then
        var v: int := HexValue(d);
        Some(if t[0] == '-' then -v else v)
      else None
    else if AllHex(t) then Some(HexValue(t))
    else None
  }

  /** Python's s.lstrip('#'). */
  function LStripHash(s: string): (r: string)
    ensures r == [] || r[0] != '#'
  {
    if s != [] && s[0] == '#' then LStripHash(s[1..]) else s
  }

  /** Python's s[i:i+2], which clamps to the end of s. */
  function Pair(s: string, i: nat): (r: string)
    ensures |r| <= 2
  {
    if i >= |s| then [] else if i + 2 >= |s| then s[i..] else s[i..i + 2]
  }

  datatype HexError =
    | NotHex      // int(..., 16) raised ValueError
    | OutOfByte   // a negative component does not fit the 8-bit colour buffer

  /** A component of the colour: two characters read as an 8-bit value. */
  function ParseComponent(s: string): (r: Result<int, HexError>)
    requires |s| <= 2
    ensures r.Ok? ==> 0 <= r.value < 256
  {
    match ParseIntBase16(s)
    case None => Err(NotHex)
    case Some(v) =>
      if v < 0 then Err(OutOfByte)
      else Ok(v)
  }

  /** The red, green and blue components of a hexadecimal colour: every
      leading '#' is dropped and characters 0-1, 2-3 and 4-5 are read. All
      three int() calls run before the 8-bit buffer is built, so a pair
      that is not hexadecimal wins over a negative one anywhere. */
  function HexToRgb(hex: string): (r: Result<(int, int, int), HexError>)
    ensures r.Ok? ==> 0 <= r.value.0 < 256 && 0 <= r.value.1 < 256 && 0 <= r.value.2 < 256
    ensures r == Err(NotHex) <==>
              || ParseIntBase16(Pair(LStripHash(hex), 0)).None?
              || ParseIntBase16(Pair(LStripHash(hex), 2)).None?
              || ParseIntBase16(Pair(LStripHash(hex), 4)).None?
  {
    var h := LStripHash(hex);
    var red, green, blue := ParseIntBase16(Pair(h, 0)), ParseIntBase16(Pair(h, 2)), ParseIntBase16(Pair(h, 4));
    if red.None? || green.None? || blue.None? then Err(NotHex)
    else
      var x, y, z := ParseComponent(Pair(h, 0)), ParseComponent(Pair(h, 2)), ParseComponent(Pair(h, 4));
      if x.Err? || y.Err? || z.Err? then Err(OutOfByte)
      else Ok((x.value, y.value, z.value))
  }

  /** The upper-case hexadecimal digit of d. */
  function HexDigitChar(d: nat): (c: char)
    requires d < 16
    ensures IsHexDigit(c) && HexDigitValue(c) == d
  {
    if d < 10 then ('0' as int + d) as char else ('A' as int + d - 10) as char
  }

  /** The two-digit upper-case rendering of a byte. */
  function HexByte(x: nat): (s: string)
    requires x < 256
    ensures |s| == 2 && AllHex(s) && HexValue(s) == x
  {
    var s := [HexDigitChar(x / 16), HexDigitChar(x % 16)];
    assert s[..1] == [s[0]];
    assert HexValue(s[..1]) == HexDigitValue(s[0]);
    s
  }

  lemma {:induction false} ParseComponentOfHexByte(x: nat)
    requires x < 256
    ensures ParseComponent(HexByte(x)) == Ok(x)
  {
    var s := HexByte(x);
    assert !IsPyWhitespace(s[0]) && !IsPyWhitespace(s[1]);
    assert StripLeft(s, IsPyWhitespace) == s;
    assert StripRight(s, IsPyWhitespace) == s;
  }

  /** Any number of leading '#', six hexadecimal digits and any trailing
      characters give back the three bytes. */
  lemma {:induction false} HexToRgbRoundTrip(k: nat, red: nat, green: nat, blue: nat, rest: string)
    requires red < 256 && green < 256 && blue < 256
    ensures HexToRgb(Repeat('#', k) + HexByte(red) + HexByte(green) + HexByte(blue) + rest)
         == Ok((red, green, blue))
  {
    var r, g, b := HexByte(red), HexByte(green), HexByte(blue);
    var body := r + g + b + rest;
    var hex := Repeat('#', k) + r + g + b + rest;
    assert hex == Repeat('#', k) + body;
    StripHashes(k, body);
    PairsOfBody(r, g, b, rest);
    ParseComponentOfHexByte(red);
    ParseComponentOfHexByte(green);
    ParseComponentOfHexByte(blue);
    HexToRgbOfPairs(hex, red, green, blue);
  }

  lemma {:induction false} PairsOfBody(r: string, g: string, b: string, rest: string)
    requires |r| == 2 && |g| == 2 && |b| == 2
    ensures Pair(r + g + b + rest, 0) == r
    ensures Pair(r + g + b + rest, 2) == g
    ensures Pair(r + g + b + rest, 4) == b
  {
    var body := r + g + b + rest;
    assert body[0..2] == r;
    assert body[2..4] == g;
    assert body[4..6] == b;
  }

  lemma {:induction false} HexToRgbOfPairs(hex: string, red: int, green: int, blue: int)
    requires ParseComponent(Pair(LStripHash(hex), 0)) == Ok(red)
    requires ParseComponent(Pair(LStripHash(hex), 2)) == Ok(green)
    requires ParseComponent(Pair(LStripHash(hex), 4)) == Ok(blue)
    ensures HexToRgb(hex) == Ok((red, green, blue))
  {
  }

  lemma {:induction false} StripHashes(k: nat, body: string)
    requires body == [] || body[0] != '#'
    ensures LStripHash(Repeat('#', k) + body) == body
  {
    var s := Repeat('#', k) + body;
    if k > 0 {
      assert s[0] == '#';
      assert s[1..] == Repeat('#', k - 1) + body;
      StripHashes(k - 1, body);
    } else {
      assert s == body;
    }
  }

  // ===== the per-category parameters ====================================

  datatype Config = Config(
    saturationMix: real,
    minSaturation: real,
    brightnessBoost: real,
    saturationBrightnessFactor: real,
    shadowPreservation: real,
    contrastEnhancement: real,
    texturePreservation: real,
    edgePreservation: real,
    materialDepthFactor: real,
    lightUniformity: real,
    temperatureAdjustment: real)

  const Zapatos := Config(0.80, 70.0, 1.10, 0.35, 0.85, 0.12, 0.80, 0.90, 0.45, 0.25, 1.01)
  const Ropa := Config(0.75, 60.0, 1.08, 0.40, 0.70, 0.10, 0.60, 0.85, 0.30, 0.22, 1.03)
  const Accesorios := Config(0.85, 80.0, 1.12, 0.30, 0.80, 0.18, 0.75, 0.88, 0.25, 0.20, 0.98)
  const Bolsos := Config(0.78, 65.0, 1.09, 0.38, 0.75, 0.14, 0.70, 0.87, 0.40, 0.23, 1.02)
  const General := Config(0.75, 60.0, 1.08, 0.40, 0.75, 0.12, 0.70, 0.86, 0.35, 0.22, 1.00)

  const CategoryConfigs: map<string, Config> :=
    map["zapatos" := Zapatos, "ropa" := Ropa, "accesorios" := Accesorios,
        "bolsos" := Bolsos, "general" := General]

  /** The parameters of a category; a missing or unknown category uses
      'general'. */
  function ConfigFor(categoria: Option<string>): (cfg: Config)
    ensures categoria.Some? && categoria.value in CategoryConfigs ==> cfg == CategoryConfigs[categoria.value]
    ensures categoria.None? || categoria.value !in CategoryConfigs ==> cfg == General
  {
    if categoria.Some? && categoria.value in CategoryConfigs then CategoryConfigs[categoria.value]
    else CategoryConfigs["general"]
  }

  /** Every entry of the table mixes with weights in [0, 1] and keeps a
      saturation floor inside the 8-bit range. */
  predicate Sensible(cfg: Config) {
    0.0 <= cfg.saturationMix <= 1.0 && 0.0 <= cfg.shadowPreservation <= 1.0
    && 0.0 <= cfg.lightUniformity <= 1.0 && 0.0 <= cfg.minSaturation <= 255.0
  }

  lemma {:induction false} ConfigForSensible(categoria: Option<string>)
    ensures Sensible(ConfigFor(categoria))
  {
  }

  // ===== the HSV stage ==================================================

  /** A pixel in OpenCV's 8-bit HSV layout, held as reals. */
  datatype Hsv = Hsv(h: real, s: real, v: real)

  /** An 8-bit RGB pixel. */
  datatype Rgb = Rgb(r: int, g: int, b: int)

  /** NumPy's clip: max(x, lo), then min with hi. */
  function Clip(x: real, lo: real, hi: real): (r: real)
    ensures r <= hi
    ensures lo <= hi ==> lo <= r
    ensures lo <= x <= hi ==> r == x
  {
    var m := if x < lo then lo else x;
    if m > hi then hi else m
  }

  /** Value of the pixel after the brightness boost and the depth term,
      before the light uniformity step. */
  function Boosted(orig: Hsv, cfg: Config): real {
    orig.v * cfg.brightnessBoost * (1.0 + (orig.v / 255.0 - 0.5) * cfg.materialDepthFactor)
  }

  function NewSaturation(orig: Hsv, target: Hsv, cfg: Config): real {
    var bf := orig.v / 255.0;
    var mixed := target.s * cfg.saturationMix + orig.s * (1.0 - cfg.saturationMix);
    var shaded := mixed * (0.7 + cfg.saturationBrightnessFactor * bf);
    var kept := shaded * cfg.shadowPreservation + orig.s * (1.0 - cfg.shadowPreservation);
    Clip(kept, cfg.minSaturation, 255.0)
  }

  /** The new HSV of one masked pixel, given the mean boosted value over the
      masked region. */
  function UpdatePixel(orig: Hsv, target: Hsv, cfg: Config, mean: real): (q: Hsv)
    ensures q.h == target.h
    ensures q.s <= 255.0 && (cfg.minSaturation <= 255.0 ==> cfg.minSaturation <= q.s)
    ensures 0.0 <= q.v <= 255.0
  {
    var uniform := Boosted(orig, cfg) * (1.0 - cfg.lightUniformity) + mean * cfg.lightUniformity;
    Hsv(target.h, NewSaturation(orig, target, cfg), Clip(uniform, 0.0, 255.0))
  }

  function MaskCount(mask: seq<bool>): (n: nat)
    ensures n <= |mask|
    ensures n > 0 <==> exists i :: 0 <= i < |mask| && mask[i]
  {
    if mask == [] then 0
    else
      var n := MaskCount(mask[..|mask| - 1]);
      assert forall i :: 0 <= i < |mask| - 1 ==> mask[..|mask| - 1][i] == mask[i];
      n + (if mask[|mask| - 1] then 1 else 0)
  }

  /** The sum of the boosted values over the masked pixels. */
  function BoostSum(px: seq<Hsv>, mask: seq<bool>, cfg: Config): real
    requires |px| == |mask|
  {
    if px == [] then 0.0
    else BoostSum(px[..|px| - 1], mask[..|mask| - 1], cfg)
         + (if mask[|mask| - 1] then Boosted(px[|px| - 1], cfg) else 0.0)
  }

  function MaskedMean(px: seq<Hsv>, mask: seq<bool>, cfg: Config): real
    requires |px| == |mask| && MaskCount(mask) > 0
  {
    BoostSum(px, mask, cfg) / (MaskCount(mask) as real)
  }

  /** The HSV image after the stage: masked pixels updated, the others as
      they were. */
  function StagedHsv(px: seq<Hsv>, mask: seq<bool>, target: Hsv, cfg: Config): (r: seq<Hsv>)
    requires |px| == |mask| && MaskCount(mask) > 0
    ensures |r| == |px|
    ensures forall i :: 0 <= i < |px| && !mask[i] ==> r[i] == px[i]
    ensures forall i :: 0 <= i < |px| && mask[i] ==>
      r[i].h == target.h && r[i].s <= 255.0 && 0.0 <= r[i].v <= 255.0
      && (cfg.minSaturation <= 255.0 ==> cfg.minSaturation <= r[i].s)
  {
    var mean := MaskedMean(px, mask, cfg);
    seq(|px|, i requires 0 <= i < |px| =>
      if mask[i] then UpdatePixel(px[i], target, cfg, mean) else px[i])
  }

  /** The in-place update of the masked hue, saturation and value channels. */
  method HsvStage(img: array<Hsv>, mask: seq<bool>, target: Hsv, cfg: Config)
    requires img.Length == |mask| && MaskCount(mask) > 0
    modifies img
    ensures img[..] == StagedHsv(old(img[..]), mask, target, cfg)
  {
    ghost var px := img[..];
    var sum := 0.0;
    var count := 0;
    var i := 0;
    while i < img.Length
      invariant 0 <= i <= img.Length
      invariant sum == BoostSum(px[..i], mask[..i], cfg)
      invariant count == MaskCount(mask[..i])
    {
      assert px[..i + 1][..i] == px[..i];
      assert mask[..i + 1][..i] == mask[..i];
      if mask[i] {
        sum := sum + Boosted(img[i], cfg);
        count := count + 1;
      }
      i := i + 1;
    }
    assert px[..i] == px && mask[..i] == mask;
    var mean := sum / (count as real);
    i := 0;
    while i < img.Length
      invariant 0 <= i <= img.Length
      invariant forall k :: 0 <= k < i ==>
        img[k] == if mask[k] then UpdatePixel(px[k], target, cfg, mean) else px[k]
      invariant forall k :: i <= k < img.Length ==> img[k] == px[k]
    {
      if mask[i] {
        img[i] := UpdatePixel(img[i], target, cfg, mean);
      }
      i := i + 1;
    }
  }

  // ===== the recolouring of one image ===================================

  /** An RGB image stored row by row. */
  datatype Image = Image(height: nat, width: nat, pixels: seq<Rgb>)

  /** The OpenCV collaborators: the RGB to 8-bit HSV conversion of one pixel,
      and the post-processing that turns the staged HSV image back into RGB
      (contrast, texture blending, edge-preserving smoothing, temperature). */
  datatype Cv = Cv(hsvOf: Rgb -> Hsv, post: (seq<Rgb>, seq<Hsv>, Config) -> seq<Rgb>)

  predicate AnyMasked(mask: seq<bool>) {
    exists i :: 0 <= i < |mask| && mask[i]
  }

  /** The target colour as HSV, through OpenCV's conversion of that pixel. */
  function HexToHsv(hex: string, cv: Cv): (r: Result<Hsv, HexError>)
    ensures r.Ok? <==> HexToRgb(hex).Ok?
  {
    match HexToRgb(hex)
    case Err(e) => Err(e)
    case Ok(c) => Ok(cv.hsvOf(Rgb(c.0, c.1, c.2)))
  }

  /** The recoloured image for the target colour `hsv`: the image itself
      when no pixel is masked, otherwise the post-processed staged HSV
      image. */
  function RecolourOf(image: seq<Rgb>, mask: seq<bool>, hsv: Hsv, categoria: Option<string>, cv: Cv): seq<Rgb>
    requires |mask| == |image|
  {
    if MaskCount(mask) == 0 then image
    else
      cv.post(image,
              StagedHsv(seq(|image|, i requires 0 <= i < |image| => cv.hsvOf(image[i])),
                        mask, hsv, ConfigFor(categoria)),
              ConfigFor(categoria))
  }

  /** The recolouring of the masked region: a bad colour fails before the
      mask is looked at, an all-false mask gives back the image itself, and
      otherwise the staged HSV image goes through the post-processing. */
  method RecolorHsvPreserveTexture(image: seq<Rgb>, mask: seq<bool>, targetHex: string,
                                   categoria: Option<string>, cv: Cv)
    returns (r: Result<seq<Rgb>, HexError>)
    requires |mask| == |image|
    ensures r.Err? <==> HexToRgb(targetHex).Err?
    ensures HexToRgb(targetHex).Ok? && !AnyMasked(mask) ==> r == Ok(image)
    ensures HexToRgb(targetHex).Ok? && AnyMasked(mask) ==>
      r == Ok(cv.post(image,
                      StagedHsv(seq(|image|, i requires 0 <= i < |image| => cv.hsvOf(image[i])),
                                mask, HexToHsv(targetHex, cv).value, ConfigFor(categoria)),
                      ConfigFor(categoria)))
    ensures r.Ok? ==> r.value == RecolourOf(image, mask, HexToHsv(targetHex, cv).value, categoria, cv)
  {
    var cfg := ConfigFor(categoria);
    var hsv := seq(|image|, i requires 0 <= i < |image| => cv.hsvOf(image[i]));
    var target := HexToHsv(targetHex, cv);
    if target.Err? {
      return Err(target.error);
    }
    if MaskCount(mask) == 0 {
      return Ok(image);
    }
    var img := new Hsv[|image|](i requires 0 <= i < |image| => hsv[i]);
    assert img[..] == hsv;
    HsvStage(img, mask, target.value, cfg);
    assert cv.post(image, img[..], cfg) == RecolourOf(image, mask, target.value, categoria, cv);
    return Ok(cv.post(image, img[..], cfg));
  }

  // ===== the lazily loaded segmentation model ===========================

  datatype Device = Cpu | Cuda

  /** A loaded checkpoint of the segmentation model. */
  datatype SamModel = SamModel(modelType: string, checkpoint: string, device: Device)

  /** The automatic mask generator and its settings. */
  datatype MaskGenerator = MaskGenerator(
    model: SamModel,
    pointsPerSide: nat,
    predIouThresh: real,
    stabilityScoreThresh: real,
    cropNLayers: nat,
    cropNPointsDownscaleFactor: nat,
    minMaskRegionArea: nat)

  /** What loading depends on: whether the segmentation package imports, the
      process environment, the file system, the model registry (None when
      the model type is unknown or the checkpoint does not load) and whether
      the model could be moved to a GPU. */
  datatype SamEnv = SamEnv(
    importOk: bool,
    environ: map<string, string>,
    pathExists: string -> bool,
    build: (string, string) -> Option<SamModel>,
    cudaMoved: bool)

  datatype SamError =
    | NotInstalled        // SamUnavailableError: the package does not import
    | CheckpointMissing   // SamUnavailableError: no usable SAM_CHECKPOINT
    | LoadFailed          // any other exception while building the model

  predicate IsSamUnavailable(e: SamError) { e.NotInstalled? || e.CheckpointMissing? }

  function EnvGet(environ: map<string, string>, key: string, default: string): string {
    if key in environ then environ[key] else default
  }

  /** The outcome of a load that finds nothing cached. */
  function LoadOutcome(env: SamEnv): (r: Result<(SamModel, MaskGenerator), SamError>)
    ensures !env.importOk ==> r == Err(NotInstalled)
    ensures env.importOk ==>
      (r == Err(CheckpointMissing) <==>
        var ck := EnvGet(env.environ, "SAM_CHECKPOINT", ""); ck == [] || !env.pathExists(ck))
    ensures r.Ok? ==>
      r.value.0.checkpoint == EnvGet(env.environ, "SAM_CHECKPOINT", "") != []
      && r.value.0.modelType == EnvGet(env.environ, "SAM_MODEL_TYPE", "vit_h")
      && r.value.1 == MaskGenerator(r.value.0, 32, 0.70, 0.80, 1, 2, 100)
  {
    if !env.importOk then Err(NotInstalled)
    else
      var checkpoint := EnvGet(env.environ, "SAM_CHECKPOINT", "");
      var modelType := EnvGet(env.environ, "SAM_MODEL_TYPE", "vit_h");
      if checkpoint == [] || !env.pathExists(checkpoint) then Err(CheckpointMissing)
      else
        match env.build(modelType, checkpoint)
        case None => Err(LoadFailed)
        case Some(m) =>
          var sam := SamModel(modelType, checkpoint, if env.cudaMoved then Cuda else Cpu);
          Ok((sam, MaskGenerator(sam, 32, 0.70, 0.80, 1, 2, 100)))
  }

  /** The two module globals holding the model and its mask generator. */
  class SamRuntime {
    var model: Option<SamModel>
    var generator: Option<MaskGenerator>

    constructor()
      ensures model == None && generator == None
    {
      model := None;
      generator := None;
    }

    /** Returns the cached pair once both globals are set; otherwise loads,
        and sets both globals only when loading succeeds. */
    method LoadSam(env: SamEnv) returns (r: Result<(SamModel, MaskGenerator), SamError>)
      modifies this
      ensures old(model).Some? && old(generator).Some? ==>
        r == Ok((old(model).value, old(generator).value))
        && model == old(model) && generator == old(generator)
      ensures !(old(model).Some? && old(generator).Some?) ==> r == LoadOutcome(env)
      ensures !(old(model).Some? && old(generator).Some?) && r.Ok? ==>
        model == Some(r.value.0) && generator == Some(r.value.1)
      ensures r.Err? ==> model == old(model) && generator == old(generator)
    {
      if model.Some? && generator.Some? {
        return Ok((model.value, generator.value));
      }
      r := LoadOutcome(env);
      if r.Ok? {
        model := Some(r.value.0);
        generator := Some(r.value.1);
      }
    }

    /** Runs the mask generator of the (possibly just loaded) model. */
    method GenerateMasksForImage(image: Image, env: SamEnv,
                                 generate: (MaskGenerator, Image) -> seq<MaskData>)
      returns (r: Result<seq<MaskData>, SamError>)
      modifies this
      ensures old(model).Some? && old(generator).Some? ==>
        r == Ok(generate(old(generator).value, image))
        && model == old(model) && generator == old(generator)
      ensures r.Err? ==> model == old(model) && generator == old(generator)
      ensures r.Ok? ==> generator.Some? && model.Some? && r.value == generate(generator.value, image)
    {
      var loaded := LoadSam(env);
      if loaded.Err? {
        return Err(loaded.error);
      }
      return Ok(generate(loaded.value.1, image));
    }

    /** The whole pipeline for one image.  A segmentation failure propagates;
        no candidate masks give back the image unchanged; otherwise the
        chosen region is recoloured. */
    method ProcessImageRecolor(image: Image, targetHex: string, categoria: Option<string>,
                               env: SamEnv, generate: (MaskGenerator, Image) -> seq<MaskData>, cv: Cv)
      returns (r: Result<Image, RecolorError>)
      requires |image.pixels| == image.height * image.width
      requires forall g: MaskGenerator :: Fits(generate(g, image), image.height, image.width)
      modifies this
      ensures !(old(model).Some? && old(generator).Some?) && LoadOutcome(env).Err? ==>
        r == Err(Sam(LoadOutcome(env).error)) && model == old(model) && generator == old(generator)
      ensures (old(model).Some? && old(generator).Some?) || LoadOutcome(env).Ok? ==>
        generator.Some?
        && (generate(generator.value, image) == [] ==> r == Ok(image))
        && (generate(generator.value, image) != [] ==>
              (r.Err? <==> HexToRgb(targetHex).Err?) && (r.Err? ==> r.error.Hex?))
      ensures r.Ok? ==> r.value.height == image.height && r.value.width == image.width
      ensures r.Ok? && generator.Some? && generate(generator.value, image) != [] ==>
        exists m :: ChosenMask(generate(generator.value, image), m) && |m| == |image.pixels|
          && r.value.pixels == RecolourOf(image.pixels, m, HexToHsv(targetHex, cv).value, categoria, cv)
    {
      var loaded := LoadSam(env);
      if loaded.Err? {
        return Err(Sam(loaded.error));
      }
      var masks := GenerateMasksForImage(image, env, generate);
      assert masks.Ok?;  // the second load finds the globals set
      if masks.value == [] {
        return Ok(image);
      }
      FitsWellShaped(masks.value, image.height, image.width);
      var mask := PickBestMask(masks.value);
      if mask.None? {
        return Ok(image);
      }
      assert masks.value[0] in masks.value;
      var recolored := RecolorHsvPreserveTexture(image.pixels, mask.value, targetHex, categoria, cv);
      if recolored.Err? {
        return Err(Hex(recolored.error));
      }
      return Ok(Image(image.height, image.width, recolored.value));
    }
  }

  datatype RecolorError = Sam(sam: SamError) | Hex(hex: HexError)
}
