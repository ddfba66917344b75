/** Pixel geometry shared by the three collage scripts: image sizes, the A4 page
    at 300 DPI, Python's truncating `int()`, the "small" images of a layout, and
    the boxes that pasted images occupy on the canvas. */
module Geometry {
  import opened Outcomes

  /** Pixel size of an image, PIL's `size` pair. */
  datatype Size = Size(width: nat, height: nat)

  /** One `paste` onto the canvas: input image `image` with its top-left corner at (x, y). */
  datatype Paste = Paste(image: nat, x: int, y: int)

  datatype Orientation = Portrait | Landscape

  /** The axis along which a row (Horizontal) or a column (Vertical) of images runs. */
  datatype Axis = Horizontal | Vertical

  const DPI: nat := 300
  const A4_WIDTH_MM: nat := 210
  const A4_HEIGHT_MM: nat := 297

  function Max(a: int, b: int): int { if a < b then b else a }

  function Min(a: real, b: real): real { if a < b then a else b }

  /** `int(mm * dpi / 25.4)`, computed exactly in tenths of a millimetre. */
  function MillimetresToPixels(mm: nat, dpi: nat): (px: nat)
    ensures px * 254 <= mm * dpi * 10 < px * 254 + 254
  {
    mm * dpi * 10 / 254
  }

  /** The A4 canvas at 300 DPI; landscape swaps the portrait width and height. */
  function A4Page(o: Orientation): (page: Size)
    ensures o == Portrait ==> page == Size(2480, 3507)
    ensures o == Landscape ==> page == Size(3507, 2480)
  {
    var w := MillimetresToPixels(A4_WIDTH_MM, DPI);
    var h := MillimetresToPixels(A4_HEIGHT_MM, DPI);
    if o == Portrait then Size(w, h) else Size(h, w)
  }

  /** The checks both four-image scripts make before any image is opened, in
      their order: the image count, then `large_index`, then the orientation.
      (The file-existence check between the first two is I/O and not modelled.) */
  function ValidateRequest(count: nat, largeIndex: int, orientation: string): (r: Result<Orientation>)
    ensures r == Err(WrongImageCount) <==> count != 4
    ensures r == Err(LargeIndexOutOfRange) <==> count == 4 && !(0 <= largeIndex < 4)
    ensures r == Err(UnknownOrientation) <==>
              count == 4 && 0 <= largeIndex < 4 && orientation != "portrait" && orientation != "landscape"
    ensures r.Ok? <==>
              count == 4 && 0 <= largeIndex < 4 && (orientation == "portrait" || orientation == "landscape")
    ensures r.Ok? ==> (r.value == Portrait <==> orientation == "portrait")
  {
    if count != 4 then Err(WrongImageCount)
    else if !(0 <= largeIndex < 4) then Err(LargeIndexOutOfRange)
    else if orientation == "portrait" then Ok(Portrait)
    else if orientation == "landscape" then Ok(Landscape)
    else Err(UnknownOrientation)
  }

  /** Python's `int()` on a float: truncation toward zero. */
  function Trunc(r: real): (n: int)
    ensures 0.0 <= r ==> 0 <= n && n as real <= r < n as real + 1.0
    ensures r < 0.0 ==> n <= 0 && r <= n as real < r + 1.0
  {
    if r >= 0.0 then r.Floor else -((-r).Floor)
  }

  lemma ProductNonNegative(a: real, b: real)
    requires 0.0 <= a && 0.0 <= b
    ensures 0.0 <= a * b
  {
  }

  /** `(int(w * f), int(h * f))`: an image resized by a non-negative factor. */
  function Scaled(sz: Size, f: real): Size
    requires 0.0 <= f
  {
    ProductNonNegative(sz.width as real, f);
    ProductNonNegative(sz.height as real, f);
    Size(Trunc(sz.width as real * f), Trunc(sz.height as real * f))
  }

  /** Each side of a resized image is the scaled side rounded down to whole pixels. */
  lemma ScaledBounds(sz: Size, f: real)
    requires 0.0 <= f
    ensures var r := Scaled(sz, f);
            r.width as real <= sz.width as real * f < r.width as real + 1.0 &&
            r.height as real <= sz.height as real * f < r.height as real + 1.0
  {
    ProductNonNegative(sz.width as real, f);
    ProductNonNegative(sz.height as real, f);
  }

  lemma ScaleLe(w: real, f: real, g: real)
    requires 0.0 <= w && f <= g
    ensures w * f <= w * g
  {
    assert w * g - w * f == w * (g - f);
  }

  /** Whole numbers at most `x` and above `y - 1` keep the order of `x <= y`. */
  lemma FloorsOrdered(a: int, b: int, x: real, y: real)
    requires a as real <= x <= y < b as real + 1.0
    ensures a <= b
  {
  }

  /** Two sides rounded down from `n * f` and `n * g`, with `0 <= f <= g`, keep their order. */
  lemma SideOrdered(a: int, b: int, n: real, f: real, g: real)
    requires 0.0 <= n && f <= g
    requires a as real <= n * f && n * g < b as real + 1.0
    ensures a <= b
  {
    ScaleLe(n, f, g);
    FloorsOrdered(a, b, n * f, n * g);
  }

  /** A smaller non-negative factor gives a resized image no larger on either side. */
  lemma ScaledMonotone(sz: Size, f: real, g: real)
    requires 0.0 <= f <= g
    ensures Scaled(sz, f).width <= Scaled(sz, g).width
    ensures Scaled(sz, f).height <= Scaled(sz, g).height
  {
    ScaledBounds(sz, f);
    ScaledBounds(sz, g);
    SideOrdered(Scaled(sz, f).width, Scaled(sz, g).width, sz.width as real, f, g);
    SideOrdered(Scaled(sz, f).height, Scaled(sz, g).height, sz.height as real, f, g);
  }

  /** Input index of the j-th small image when the image at `li` is the large one. */
  function SmallIndex(li: nat, j: nat): (i: nat)
    ensures i != li
    ensures j < li ==> i == j
    ensures li <= j ==> i == j + 1
  {
    if j < li then j else j + 1
  }

  /** `[img for i, img in enumerate(images) if i != large_index]`. */
  function Smalls<T>(s: seq<T>, li: nat): (r: seq<T>)
    requires li < |s|
    ensures |r| == |s| - 1
    ensures forall j :: 0 <= j < |r| ==> r[j] == s[SmallIndex(li, j)]
  {
    s[..li] + s[li + 1..]
  }

  function Other(a: Axis): Axis { if a == Horizontal then Vertical else Horizontal }

  /** Extent of an image along an axis: its width along Horizontal, its height along Vertical. */
  function Along(sz: Size, a: Axis): nat { if a == Horizontal then sz.width else sz.height }

  function Across(sz: Size, a: Axis): nat { Along(sz, Other(a)) }

  /** Sum of the extents along `a` of the first k images. */
  function PrefixSum(s: seq<Size>, k: nat, a: Axis): nat
    requires k <= |s|
  {
    if k == 0 then 0 else PrefixSum(s, k - 1, a) + Along(s[k - 1], a)
  }

  /** Sum of the extents along `a`, `sum(img.size[..] for img in s)`. */
  function SumAlong(s: seq<Size>, a: Axis): nat
  {
    PrefixSum(s, |s|, a)
  }

  /** Where the k-th image of a line starts relative to the first: the extents of
      the images before it plus one `pad` after each. */
  function Offset(s: seq<Size>, k: nat, a: Axis, pad: nat): nat
    requires k <= |s|
  {
    if k == 0 then 0 else Offset(s, k - 1, a, pad) + Along(s[k - 1], a) + pad
  }

  lemma {:induction false} OffsetIsSumPlusPads(s: seq<Size>, k: nat, a: Axis, pad: nat)
    requires k <= |s|
    ensures Offset(s, k, a, pad) == PrefixSum(s, k, a) + k * pad
  {
    if k > 0 {
      OffsetIsSumPlusPads(s, k - 1, a, pad);
    }
  }

  /** Offsets grow along the line. */
  lemma {:induction false} OffsetMonotone(s: seq<Size>, k: nat, m: nat, a: Axis, pad: nat)
    requires k <= m <= |s|
    ensures Offset(s, k, a, pad) <= Offset(s, m, a, pad)
    decreases m - k
  {
    if k < m {
      OffsetMonotone(s, k, m - 1, a, pad);
    }
  }

  /** Largest extent along `a` among the first k images. */
  function PrefixMax(s: seq<Size>, k: nat, a: Axis): nat
    requires 0 < k <= |s|
  {
    if k == 1 then Along(s[0], a)
    else if PrefixMax(s, k - 1, a) < Along(s[k - 1], a) then Along(s[k - 1], a)
    else PrefixMax(s, k - 1, a)
  }

  /** Largest extent along `a`, `max(img.size[..] for img in s)`. */
  function MaxAlong(s: seq<Size>, a: Axis): nat
    requires |s| > 0
  {
    PrefixMax(s, |s|, a)
  }

  lemma {:induction false} PrefixMaxIsMaximum(s: seq<Size>, k: nat, a: Axis)
    requires 0 < k <= |s|
    ensures forall i :: 0 <= i < k ==> Along(s[i], a) <= PrefixMax(s, k, a)
    ensures exists i :: 0 <= i < k && Along(s[i], a) == PrefixMax(s, k, a)
  {
    if k > 1 {
      PrefixMaxIsMaximum(s, k - 1, a);
      if PrefixMax(s, k - 1, a) < Along(s[k - 1], a) {
        assert Along(s[k - 1], a) == PrefixMax(s, k, a);
      }
    } else {
      assert Along(s[0], a) == PrefixMax(s, k, a);
    }
  }

  /** MaxAlong bounds every extent and is attained by one of them. */
  lemma MaxAlongIsMaximum(s: seq<Size>, a: Axis)
    requires |s| > 0
    ensures forall i :: 0 <= i < |s| ==> Along(s[i], a) <= MaxAlong(s, a)
    ensures exists i :: 0 <= i < |s| && Along(s[i], a) == MaxAlong(s, a)
  {
    PrefixMaxIsMaximum(s, |s|, a);
  }

  /** A paste whose coordinate along `a` is `along` and across `a` is `across`. */
  function At(image: nat, a: Axis, along: int, across: int): Paste
  {
    if a == Horizontal then Paste(image, along, across) else Paste(image, across, along)
  }

  function AlongOf(p: Paste, a: Axis): int { if a == Horizontal then p.x else p.y }

  function AcrossOf(p: Paste, a: Axis): int { AlongOf(p, Other(a)) }

  /** The image pasted at `p` with size `sz` lies within `margin` of every page edge. */
  predicate Inside(p: Paste, sz: Size, page: Size, margin: int)
  {
    margin <= p.x && p.x + sz.width <= page.width - margin &&
    margin <= p.y && p.y + sz.height <= page.height - margin
  }

  /** The boxes of two pasted images do not overlap (touching edges allowed). */
  predicate Disjoint(p: Paste, sp: Size, q: Paste, sq: Size)
  {
    p.x + sp.width <= q.x || q.x + sq.width <= p.x ||
    p.y + sp.height <= q.y || q.y + sq.height <= p.y
  }

  /** No two of the pasted images overlap; `sizes[i]` is the size of input image i. */
  predicate PairwiseDisjoint(pastes: seq<Paste>, sizes: seq<Size>)
  {
    (forall k :: 0 <= k < |pastes| ==> pastes[k].image < |sizes|) &&
    forall i, j :: 0 <= i < j < |pastes| ==>
      Disjoint(pastes[i], sizes[pastes[i].image], pastes[j], sizes[pastes[j].image])
  }

  /** Every pasted image lies within the page margins. */
  predicate AllInside(pastes: seq<Paste>, sizes: seq<Size>, page: Size, margin: int)
  {
    (forall k :: 0 <= k < |pastes| ==> pastes[k].image < |sizes|) &&
    forall k :: 0 <= k < |pastes| ==> Inside(pastes[k], sizes[pastes[k].image], page, margin)
  }

  /** Each of the input images 0 .. n-1 is pasted exactly once. */
  predicate PastesEachOnce(pastes: seq<Paste>, n: nat)
  {
    |pastes| == n &&
    (forall k :: 0 <= k < n ==> pastes[k].image < n) &&
    (forall i, j :: 0 <= i < j < n ==> pastes[i].image != pastes[j].image)
  }
}
