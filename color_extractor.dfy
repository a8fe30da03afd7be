// Palette extraction from album artwork (NotchApp/Sources/Core/Theme/ColorExtractor.swift):
// every pixel of the thumbnail falls into one of 512 colour buckets, the
// buckets are ordered by how many pixels they hold, near-black and near-white
// buckets are dropped, and the two colours of the palette are picked from
// what is left.
//
// Rendering the image into an RGBA thumbnail is a CoreImage call; the model
// starts from the rendered pixels, row by row, and the thumbnail's size.
// Colour components are exact reals rather than Doubles.
module ColorExtractor {
  import opened Wrappers

  /** One rendered pixel's red, green and blue bytes. */
  datatype Pixel = Pixel(r: int, g: int, b: int)

  predicate IsByte(c: int) { 0 <= c <= 255 }

  predicate IsPixel(p: Pixel) { IsByte(p.r) && IsByte(p.g) && IsByte(p.b) }

  const BucketSize := 32

  /** A colour bucket: the centre of a 32-wide cube and how many pixels fell into it. */
  datatype Bucket = Bucket(r: int, g: int, b: int, count: int)

  // ---------------------------------------------------------------------------
  // Quantisation
  // ---------------------------------------------------------------------------

  /** A channel's bucket centre. */
  function Quantize(c: int): int
  {
    (c / BucketSize) * BucketSize + BucketSize / 2
  }

  /** The eight bucket centres 16, 48, ..., 240. */
  predicate IsLevel(v: int)
  {
    exists k :: 0 <= k < 8 && v == 32 * k + 16
  }

  /**
   * A byte's bucket centre is one of the eight levels, within half a bucket of
   * the byte, and quantising a centre again leaves it where it is.
   */
  lemma QuantizeSpec(c: int)
    requires IsByte(c)
    ensures IsLevel(Quantize(c))
    ensures Quantize(c) - 16 <= c < Quantize(c) + 16
    ensures Quantize(Quantize(c)) == Quantize(c)
  {
    var k := c / 32;
    assert 0 <= k < 8;
    assert Quantize(c) == 32 * k + 16;
    assert (32 * k + 16) / 32 == k;
  }

  /** Whether a bucket has the same centre as a pixel's quantised colour. */
  predicate SameCentre(bucket: Bucket, p: Pixel)
  {
    bucket.r == Quantize(p.r) && bucket.g == Quantize(p.g) && bucket.b == Quantize(p.b)
  }

  /** `firstIndex(where:)` for a pixel's bucket. */
  function FindBucket(buckets: seq<Bucket>, p: Pixel): (r: Option<nat>)
    ensures r.Some? ==> r.value < |buckets| && SameCentre(buckets[r.value], p)
    ensures r.Some? ==> forall j :: 0 <= j < r.value ==> !SameCentre(buckets[j], p)
    ensures r.None? ==> forall j :: 0 <= j < |buckets| ==> !SameCentre(buckets[j], p)
  {
    if buckets == [] then None
    else if SameCentre(buckets[0], p) then Some(0)
    else
      match FindBucket(buckets[1..], p)
      case None => None
      case Some(i) => Some(i + 1)
  }

  /** One pixel counted: its bucket's count goes up, or a new bucket with count 1 is appended. */
  function AddPixel(buckets: seq<Bucket>, p: Pixel): seq<Bucket>
  {
    match FindBucket(buckets, p)
    case Some(i) => buckets[i := buckets[i].(count := buckets[i].count + 1)]
    case None => buckets + [Bucket(Quantize(p.r), Quantize(p.g), Quantize(p.b), 1)]
  }

  /** The buckets after counting `pixels` in order. */
  function BucketsOf(pixels: seq<Pixel>): seq<Bucket>
  {
    if pixels == [] then [] else AddPixel(BucketsOf(pixels[..|pixels| - 1]), pixels[|pixels| - 1])
  }

  // ---------------------------------------------------------------------------
  // What the buckets hold
  // ---------------------------------------------------------------------------

  /** A bucket's centre colour. */
  function Centre(b: Bucket): (int, int, int)
  {
    (b.r, b.g, b.b)
  }

  /** No two buckets share a centre. */
  predicate UniqueCentres(buckets: seq<Bucket>)
  {
    forall i, j :: 0 <= i < j < |buckets| ==> Centre(buckets[i]) != Centre(buckets[j])
  }

  /** A bucket holds at least one pixel and sits on the level grid. */
  predicate GoodBucket(b: Bucket)
  {
    b.count >= 1 && IsLevel(b.r) && IsLevel(b.g) && IsLevel(b.b)
  }

  predicate WellFormed(buckets: seq<Bucket>)
  {
    UniqueCentres(buckets) && forall x :: x in buckets ==> GoodBucket(x)
  }

  /** The pixels counted by a bucket, or by all buckets when `centre` is None. */
  function Counted(bucket: Bucket, centre: Option<Pixel>): int
  {
    if centre.None? || SameCentre(bucket, centre.value) then bucket.count else 0
  }

  function SumCounts(buckets: seq<Bucket>, centre: Option<Pixel>): int
  {
    if buckets == [] then 0
    else SumCounts(buckets[..|buckets| - 1], centre) + Counted(buckets[|buckets| - 1], centre)
  }

  /** How many of `pixels` fall into the same bucket as `p`. */
  function Occurrences(pixels: seq<Pixel>, p: Pixel): nat
  {
    if pixels == [] then 0
    else Occurrences(pixels[..|pixels| - 1], p)
         + if SameCentre(Bucket(Quantize(p.r), Quantize(p.g), Quantize(p.b), 0), pixels[|pixels| - 1]) then 1 else 0
  }

  lemma {:induction false} SumAppend(buckets: seq<Bucket>, b: Bucket, centre: Option<Pixel>)
    ensures SumCounts(buckets + [b], centre) == SumCounts(buckets, centre) + Counted(b, centre)
  {
    assert (buckets + [b])[..|buckets|] == buckets;
  }

  /** Raising one bucket's count by one raises the sums that count that bucket by one. */
  lemma {:induction false} SumIncrement(buckets: seq<Bucket>, i: nat, centre: Option<Pixel>)
    requires i < |buckets|
    ensures var bumped := buckets[i := buckets[i].(count := buckets[i].count + 1)];
      SumCounts(bumped, centre) == SumCounts(buckets, centre) + (if Counted(buckets[i], centre) == buckets[i].count && (centre.None? || SameCentre(buckets[i], centre.value)) then 1 else 0)
    decreases |buckets|
  {
    var bumped := buckets[i := buckets[i].(count := buckets[i].count + 1)];
    var n := |buckets| - 1;
    assert bumped[..n] == if i < n then buckets[..n][i := buckets[i].(count := buckets[i].count + 1)] else buckets[..n];
    if i < n {
      SumIncrement(buckets[..n], i, centre);
    }
  }

  /** Counting a pixel adds one to the total and one to its own bucket's sum, and nothing to the others. */
  lemma AddPixelCounts(buckets: seq<Bucket>, p: Pixel, centre: Option<Pixel>)
    ensures SumCounts(AddPixel(buckets, p), centre) ==
              SumCounts(buckets, centre)
              + if centre.None? || SameCentre(Bucket(Quantize(centre.value.r), Quantize(centre.value.g), Quantize(centre.value.b), 0), p) then 1 else 0
  {
    match FindBucket(buckets, p)
    case Some(i) => SumIncrement(buckets, i, centre);
    case None => SumAppend(buckets, Bucket(Quantize(p.r), Quantize(p.g), Quantize(p.b), 1), centre);
  }

  /** Counting keeps the buckets well formed. */
  lemma AddPixelWellFormed(buckets: seq<Bucket>, p: Pixel)
    requires WellFormed(buckets) && IsPixel(p)
    ensures WellFormed(AddPixel(buckets, p))
  {
    QuantizeSpec(p.r);
    QuantizeSpec(p.g);
    QuantizeSpec(p.b);
    var r := AddPixel(buckets, p);
    match FindBucket(buckets, p)
    case Some(i) =>
      forall x | x in r ensures GoodBucket(x) {
        var k :| 0 <= k < |r| && r[k] == x;
        assert buckets[k] in buckets;
      }
    case None =>
  }

  /**
   * The buckets of a thumbnail are well formed, their counts add up to the
   * number of pixels, and each bucket holds exactly the pixels that quantise
   * to its centre.
   */
  lemma {:induction false} BucketsOfSpec(pixels: seq<Pixel>, p: Pixel)
    requires forall i :: 0 <= i < |pixels| ==> IsPixel(pixels[i])
    ensures WellFormed(BucketsOf(pixels))
    ensures SumCounts(BucketsOf(pixels), None) == |pixels|
    ensures SumCounts(BucketsOf(pixels), Some(p)) == Occurrences(pixels, p)
  {
    if pixels != [] {
      var init := pixels[..|pixels| - 1];
      var last := pixels[|pixels| - 1];
      BucketsOfSpec(init, p);
      AddPixelWellFormed(BucketsOf(init), last);
      AddPixelCounts(BucketsOf(init), last, None);
      AddPixelCounts(BucketsOf(init), last, Some(p));
    }
  }

  // ---------------------------------------------------------------------------
  // Counting the thumbnail, row by row
  // ---------------------------------------------------------------------------

  lemma RowIndex(width: nat, height: nat, x: nat, y: nat)
    requires x < width && y < height
    ensures width * y + x < width * height
  {
    assert width * y + x < width * y + width == width * (y + 1);
    assert width * (y + 1) <= width * height;
  }

  lemma NextRow(width: nat, height: nat, y: nat)
    requires y < height
    ensures width * y + width == width * (y + 1) <= width * height
  {
  }

  /** Counting one more pixel of a prefix. */
  lemma BucketsOfStep(pixels: seq<Pixel>, i: nat)
    requires i < |pixels|
    ensures BucketsOf(pixels[..i + 1]) == AddPixel(BucketsOf(pixels[..i]), pixels[i])
  {
    assert pixels[..i + 1][..i] == pixels[..i];
  }

  /** The loop body: raise the count of the pixel's bucket in place, or append a new bucket. */
  method CountPixel(buckets: seq<Bucket>, p: Pixel) returns (counted: seq<Bucket>)
    ensures counted == AddPixel(buckets, p)
  {
    var br := Quantize(p.r);
    var bg := Quantize(p.g);
    var bb := Quantize(p.b);
    counted := buckets;
    match FindBucket(buckets, p) {
      case Some(idx) =>
        counted := counted[idx := counted[idx].(count := counted[idx].count + 1)];
      case None =>
        counted := counted + [Bucket(br, bg, bb, 1)];
    }
  }

  /** The nested loops over the rows and columns of the thumbnail. */
  method CollectBuckets(pixels: seq<Pixel>, width: nat, height: nat) returns (buckets: seq<Bucket>)
    requires |pixels| == width * height
    ensures buckets == BucketsOf(pixels)
  {
    buckets := [];
    var y := 0;
    var rowStart := 0;
    while y < height
      invariant 0 <= y <= height
      invariant rowStart == width * y <= |pixels|
      invariant buckets == BucketsOf(pixels[..rowStart])
    {
      var x := 0;
      while x < width
        invariant 0 <= x <= width
        invariant rowStart + x <= |pixels|
        invariant buckets == BucketsOf(pixels[..rowStart + x])
      {
        RowIndex(width, height, x, y);
        var p := pixels[rowStart + x];
        BucketsOfStep(pixels, rowStart + x);
        buckets := CountPixel(buckets, p);
        x := x + 1;
      }
      NextRow(width, height, y);
      y := y + 1;
      rowStart := rowStart + width;
    }
    assert pixels[..rowStart] == pixels;
  }

  // ---------------------------------------------------------------------------
  // Ordering by frequency
  // ---------------------------------------------------------------------------

  /** Non-increasing counts. */
  predicate ByFrequency(buckets: seq<Bucket>)
  {
    forall i, j :: 0 <= i < j < |buckets| ==> buckets[i].count >= buckets[j].count
  }

  /** Where a bucket with count `c` goes: after every bucket counting at least `c`. */
  function SplitPoint(sorted: seq<Bucket>, c: int): (k: nat)
    ensures k <= |sorted|
    ensures forall j :: 0 <= j < k ==> sorted[j].count >= c
    ensures k < |sorted| ==> sorted[k].count < c
  {
    if sorted == [] || sorted[0].count < c then 0 else 1 + SplitPoint(sorted[1..], c)
  }

  function InsertByCount(sorted: seq<Bucket>, b: Bucket): seq<Bucket>
  {
    var k := SplitPoint(sorted, b.count);
    sorted[..k] + [b] + sorted[k..]
  }

  /** `sort { $0.count > $1.count }`, as the stable insertion order. */
  function SortByCount(buckets: seq<Bucket>): seq<Bucket>
  {
    if buckets == [] then []
    else InsertByCount(SortByCount(buckets[..|buckets| - 1]), buckets[|buckets| - 1])
  }

  /** Where each element of a splice comes from. */
  lemma SpliceAt(s: seq<Bucket>, k: nat, b: Bucket, i: nat)
    requires k <= |s| && i <= |s|
    ensures (s[..k] + [b] + s[k..])[i] == if i < k then s[i] else if i == k then b else s[i - 1]
  {
  }

  lemma InsertAt(sorted: seq<Bucket>, b: Bucket, i: nat)
    requires i <= |sorted|
    ensures var k := SplitPoint(sorted, b.count);
      InsertByCount(sorted, b)[i] == if i < k then sorted[i] else if i == k then b else sorted[i - 1]
  {
    SpliceAt(sorted, SplitPoint(sorted, b.count), b, i);
  }

  lemma InsertByCountSorted(sorted: seq<Bucket>, b: Bucket)
    requires ByFrequency(sorted)
    ensures ByFrequency(InsertByCount(sorted, b))
  {
    var k := SplitPoint(sorted, b.count);
    var r := InsertByCount(sorted, b);
    forall i, j | 0 <= i < j < |r| ensures r[i].count >= r[j].count {
      InsertAt(sorted, b, i);
      InsertAt(sorted, b, j);
    }
  }

  lemma InsertByCountPermutes(sorted: seq<Bucket>, b: Bucket)
    ensures multiset(InsertByCount(sorted, b)) == multiset(sorted) + multiset{b}
  {
    var k := SplitPoint(sorted, b.count);
    assert sorted == sorted[..k] + sorted[k..];
  }

  /** Keeping the first pairwise-distinct centres through an insertion. */
  lemma InsertByCountUnique(sorted: seq<Bucket>, b: Bucket)
    requires UniqueCentres(sorted)
    requires forall i :: 0 <= i < |sorted| ==> (sorted[i].r, sorted[i].g, sorted[i].b) != (b.r, b.g, b.b)
    ensures UniqueCentres(InsertByCount(sorted, b))
  {
    var r := InsertByCount(sorted, b);
    forall i, j | 0 <= i < j < |r| ensures Centre(r[i]) != Centre(r[j]) {
      InsertAt(sorted, b, i);
      InsertAt(sorted, b, j);
    }
  }

  /** Sorting orders by non-increasing count and only reorders. */
  lemma {:induction false} SortByCountSpec(buckets: seq<Bucket>)
    ensures ByFrequency(SortByCount(buckets))
    ensures multiset(SortByCount(buckets)) == multiset(buckets)
    ensures |SortByCount(buckets)| == |buckets|
  {
    if buckets != [] {
      var init := buckets[..|buckets| - 1];
      SortByCountSpec(init);
      InsertByCountSorted(SortByCount(init), buckets[|buckets| - 1]);
      InsertByCountPermutes(SortByCount(init), buckets[|buckets| - 1]);
      assert buckets == init + [buckets[|buckets| - 1]];
      assert |multiset(SortByCount(buckets))| == |multiset(buckets)|;
    }
  }

  /** Sorting keeps the centres distinct. */
  lemma {:induction false} SortByCountUnique(buckets: seq<Bucket>)
    requires UniqueCentres(buckets)
    ensures UniqueCentres(SortByCount(buckets))
  {
    if buckets != [] {
      var init := buckets[..|buckets| - 1];
      var last := buckets[|buckets| - 1];
      SortByCountUnique(init);
      SortByCountSpec(init);
      var s := SortByCount(init);
      forall i | 0 <= i < |s| ensures Centre(s[i]) != Centre(last) {
        assert s[i] in multiset(init);
        var j :| 0 <= j < |init| && init[j] == s[i];
        assert buckets[j] == init[j];
      }
      InsertByCountUnique(s, last);
    }
  }

  /** Sorting keeps the buckets well formed. */
  lemma SortByCountWellFormed(buckets: seq<Bucket>)
    requires WellFormed(buckets)
    ensures WellFormed(SortByCount(buckets))
  {
    SortByCountUnique(buckets);
    SortByCountSpec(buckets);
    forall x | x in SortByCount(buckets) ensures GoodBucket(x) {
      assert x in multiset(SortByCount(buckets));
    }
  }

  // ---------------------------------------------------------------------------
  // Dropping near-black and near-white
  // ---------------------------------------------------------------------------

  /** A bucket's luminance on the 0-255 scale. */
  function BucketLuminance(b: Bucket): real
  {
    0.299 * b.r as real + 0.587 * b.g as real + 0.114 * b.b as real
  }

  predicate Visible(b: Bucket)
  {
    30.0 < BucketLuminance(b) < 240.0
  }

  /** `filter`: the visible buckets, in order. */
  function VisibleOnly(buckets: seq<Bucket>): (r: seq<Bucket>)
    ensures |r| <= |buckets|
  {
    if buckets == [] then []
    else VisibleOnly(buckets[..|buckets| - 1]) + if Visible(buckets[|buckets| - 1]) then [buckets[|buckets| - 1]] else []
  }

  /** Filtering keeps exactly the visible buckets. */
  lemma {:induction false} VisibleOnlyMembers(buckets: seq<Bucket>)
    ensures forall x :: x in VisibleOnly(buckets) <==> x in buckets && Visible(x)
  {
    if buckets != [] {
      var init := buckets[..|buckets| - 1];
      VisibleOnlyMembers(init);
      assert buckets == init + [buckets[|buckets| - 1]];
    }
  }

  /** Filtering keeps the buckets in their order: every kept bucket comes from a position no earlier in the input. */
  lemma {:induction false} VisibleOnlyOrder(buckets: seq<Bucket>, i: nat, j: nat)
    requires i < j < |VisibleOnly(buckets)|
    ensures exists i', j' :: 0 <= i' < j' < |buckets| && buckets[i'] == VisibleOnly(buckets)[i] && buckets[j'] == VisibleOnly(buckets)[j]
  {
    var init := buckets[..|buckets| - 1];
    var last := buckets[|buckets| - 1];
    var r := VisibleOnly(buckets);
    if j < |VisibleOnly(init)| {
      assert r[i] == VisibleOnly(init)[i] && r[j] == VisibleOnly(init)[j];
      VisibleOnlyOrder(init, i, j);
      var i', j' :| 0 <= i' < j' < |init| && init[i'] == VisibleOnly(init)[i] && init[j'] == VisibleOnly(init)[j];
      assert buckets[i'] == init[i'] && buckets[j'] == init[j'];
    } else {
      assert r[j] == last;
      assert r[i] == VisibleOnly(init)[i];
      VisibleOnlyMembers(init);
      assert r[i] in init;
      var i' :| 0 <= i' < |init| && init[i'] == r[i];
      assert buckets[i'] == init[i'];
    }
  }

  /** The order by count and the well-formedness of the buckets survive the filter. */
  lemma VisibleOnlyKeeps(buckets: seq<Bucket>)
    ensures ByFrequency(buckets) ==> ByFrequency(VisibleOnly(buckets))
    ensures WellFormed(buckets) ==> WellFormed(VisibleOnly(buckets))
  {
    var r := VisibleOnly(buckets);
    forall i, j | 0 <= i < j < |r|
      ensures ByFrequency(buckets) ==> r[i].count >= r[j].count
      ensures UniqueCentres(buckets) ==> (r[i].r, r[i].g, r[i].b) != (r[j].r, r[j].g, r[j].b)
    {
      VisibleOnlyOrder(buckets, i, j);
    }
    VisibleOnlyMembers(buckets);
  }

  // ---------------------------------------------------------------------------
  // Colours
  // ---------------------------------------------------------------------------

  datatype Color = Color(red: real, green: real, blue: real, alpha: real)

  datatype Palette = Palette(dominant: Color, secondary: Color)

  const DefaultPalette := Palette(Color(0.15, 0.15, 0.2, 1.0), Color(0.3, 0.3, 0.4, 1.0))

  /** A bucket's centre as an opaque colour. */
  function ColorOf(b: Bucket): Color
  {
    Color(b.r as real / 255.0, b.g as real / 255.0, b.b as real / 255.0, 1.0)
  }

  /** `NSColor.luminance`. */
  function Luminance(c: Color): real
  {
    0.299 * c.red + 0.587 * c.green + 0.114 * c.blue
  }

  function Clamp(x: real): (r: real)
    ensures 0.0 <= r <= 1.0
    ensures 0.0 <= x <= 1.0 ==> r == x
  {
    if x < 0.0 then 0.0 else if x > 1.0 then 1.0 else x
  }

  /** `adjusted(brightness:)`. */
  function Adjusted(c: Color, delta: real): Color
  {
    Color(Clamp(c.red + delta), Clamp(c.green + delta), Clamp(c.blue + delta), c.alpha)
  }

  /** Adjusting keeps alpha, lands every component in [0, 1], and shifts components that stay in range by exactly `delta`. */
  lemma AdjustedSpec(c: Color, delta: real)
    ensures var a := Adjusted(c, delta);
      a.alpha == c.alpha
      && 0.0 <= a.red <= 1.0 && 0.0 <= a.green <= 1.0 && 0.0 <= a.blue <= 1.0
      && (0.0 <= c.red + delta <= 1.0 ==> a.red == c.red + delta)
      && (0.0 <= c.green + delta <= 1.0 ==> a.green == c.green + delta)
      && (0.0 <= c.blue + delta <= 1.0 ==> a.blue == c.blue + delta)
  {
  }

  /** `Palette.isDark`. */
  predicate IsDark(p: Palette)
  {
    Luminance(p.dominant) < 0.5
  }

  /** A bucket's colour is dark exactly when its luminance is below half of 255; the default palette is dark. */
  lemma IsDarkSpec(b: Bucket, secondary: Color)
    ensures IsDark(Palette(ColorOf(b), secondary)) <==> BucketLuminance(b) < 127.5
    ensures IsDark(DefaultPalette)
  {
    assert Luminance(ColorOf(b)) == BucketLuminance(b) / 255.0;
  }

  // ---------------------------------------------------------------------------
  // Choosing the palette
  // ---------------------------------------------------------------------------

  /** The colour distance the secondary pick uses: the sum of the channel differences. */
  function Distance(a: Bucket, b: Bucket): int
  {
    (if a.r >= b.r then a.r - b.r else b.r - a.r)
    + (if a.g >= b.g then a.g - b.g else b.g - a.g)
    + (if a.b >= b.b then a.b - b.b else b.b - a.b)
  }

  /** `first(where:)` for a bucket further than 60 from `first`. */
  function FirstFar(buckets: seq<Bucket>, first: Bucket): (r: Option<nat>)
    ensures r.Some? ==> r.value < |buckets| && Distance(buckets[r.value], first) > 60
    ensures r.Some? ==> forall j :: 0 <= j < r.value ==> Distance(buckets[j], first) <= 60
    ensures r.None? ==> forall j :: 0 <= j < |buckets| ==> Distance(buckets[j], first) <= 60
  {
    if buckets == [] then None
    else if Distance(buckets[0], first) > 60 then Some(0)
    else
      match FirstFar(buckets[1..], first)
      case None => None
      case Some(i) => Some(i + 1)
  }

  /** The palette picked from the visible buckets, most frequent first. */
  function Pick(filtered: seq<Bucket>): Palette
  {
    if filtered == [] then DefaultPalette
    else
      var first := filtered[0];
      var rest := filtered[1..];
      var second := match FirstFar(rest, first)
        case Some(i) => Some(rest[i])
        case None => if rest != [] then Some(rest[0]) else None;
      var dominant := ColorOf(first);
      Palette(dominant, if second.Some? then ColorOf(second.value) else Adjusted(dominant, 0.3))
  }

  /** `extract(from:)` from the rendered thumbnail. */
  function PaletteOf(pixels: seq<Pixel>, width: nat, height: nat): Palette
  {
    if width == 0 || height == 0 then DefaultPalette
    else Pick(VisibleOnly(SortByCount(BucketsOf(pixels))))
  }

  /** `extract(from:)`: count, sort, filter, pick. */
  method Extract(pixels: seq<Pixel>, width: nat, height: nat) returns (palette: Palette)
    requires |pixels| == width * height
    ensures palette == PaletteOf(pixels, width, height)
  {
    if width == 0 || height == 0 {
      return DefaultPalette;
    }
    var buckets := CollectBuckets(pixels, width, height);
    palette := Pick(VisibleOnly(SortByCount(buckets)));
  }

  /** The head of a list ordered by count counts at least as much as any member. */
  lemma HeadIsMost(s: seq<Bucket>)
    requires ByFrequency(s) && s != []
    ensures forall x :: x in s ==> x.count <= s[0].count
  {
    forall x | x in s ensures x.count <= s[0].count {
      var k :| 0 <= k < |s| && s[k] == x;
      if k > 0 {
        assert s[0].count >= s[k].count;
      }
    }
  }

  /**
   * With visible buckets, the dominant colour is a visible bucket counting at
   * least as many pixels as any other visible bucket; without, the palette
   * is the default one.
   */
  lemma DominantIsMostFrequent(pixels: seq<Pixel>, width: nat, height: nat)
    requires width > 0 && height > 0
    ensures var filtered := VisibleOnly(SortByCount(BucketsOf(pixels)));
      (filtered == [] ==> PaletteOf(pixels, width, height) == DefaultPalette)
      && (filtered != [] ==>
            PaletteOf(pixels, width, height).dominant == ColorOf(filtered[0])
            && Visible(filtered[0]) && filtered[0] in BucketsOf(pixels)
            && forall b :: b in BucketsOf(pixels) && Visible(b) ==> b.count <= filtered[0].count)
  {
    var buckets := BucketsOf(pixels);
    var sorted := SortByCount(buckets);
    var filtered := VisibleOnly(sorted);
    SortByCountSpec(buckets);
    VisibleOnlyMembers(sorted);
    VisibleOnlyKeeps(sorted);
    if filtered != [] {
      assert filtered[0] in filtered;
      assert filtered[0] in multiset(sorted);
      HeadIsMost(filtered);
      forall b | b in buckets && Visible(b) ensures b.count <= filtered[0].count {
        assert b in multiset(buckets);
        assert b in sorted;
      }
    }
  }

  /**
   * The secondary colour is the first later visible bucket further than 60
   * from the dominant one; failing that the second visible bucket; failing
   * that the dominant colour brightened by 0.3.
   */
  lemma SecondaryChoice(filtered: seq<Bucket>)
    requires filtered != []
    ensures var p := Pick(filtered);
      var rest := filtered[1..];
      (forall j :: 0 <= j < |rest| && Distance(rest[j], filtered[0]) > 60 ==>
         exists i :: 0 <= i <= j && p.secondary == ColorOf(rest[i]) && Distance(rest[i], filtered[0]) > 60)
      && ((forall j :: 0 <= j < |rest| ==> Distance(rest[j], filtered[0]) <= 60) && rest != [] ==>
            p.secondary == ColorOf(rest[0]))
      && (rest == [] ==> p.secondary == Adjusted(ColorOf(filtered[0]), 0.3))
  {
    var rest := filtered[1..];
    match FirstFar(rest, filtered[0])
    case Some(i) =>
    case None =>
  }

  /** Bucket centres on the grid give different colours exactly when the centres differ. */
  lemma ColorOfInjective(a: Bucket, b: Bucket)
    ensures ColorOf(a) == ColorOf(b) <==> (a.r, a.g, a.b) == (b.r, b.g, b.b)
  {
  }

  /** For well-formed visible buckets, the secondary colour always differs from the dominant one. */
  lemma SecondaryDiffers(filtered: seq<Bucket>)
    requires filtered != [] && WellFormed(filtered)
    ensures Pick(filtered).secondary != Pick(filtered).dominant
  {
    var first := filtered[0];
    var rest := filtered[1..];
    match FirstFar(rest, first)
    case Some(i) =>
      assert rest[i] == filtered[i + 1];
      ColorOfInjective(rest[i], first);
    case None =>
      if rest != [] {
        assert rest[0] == filtered[1];
        ColorOfInjective(rest[0], first);
      } else {
        assert first in filtered && GoodBucket(first);
        var k :| 0 <= k < 8 && first.r == 32 * k + 16;
        assert first.r as real <= 240.0;
        assert ColorOf(first).red < 1.0;
      }
  }

  /** The palette of any thumbnail: its secondary colour differs from its dominant one. */
  lemma PaletteColorsDiffer(pixels: seq<Pixel>, width: nat, height: nat)
    requires forall i :: 0 <= i < |pixels| ==> IsPixel(pixels[i])
    ensures PaletteOf(pixels, width, height).secondary != PaletteOf(pixels, width, height).dominant
  {
    if width > 0 && height > 0 {
      var buckets := BucketsOf(pixels);
      BucketsOfSpec(pixels, Pixel(0, 0, 0));
      SortByCountWellFormed(buckets);
      VisibleOnlyKeeps(SortByCount(buckets));
      var filtered := VisibleOnly(SortByCount(buckets));
      if filtered != [] {
        SecondaryDiffers(filtered);
      }
    }
  }
}
