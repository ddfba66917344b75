/** `combine_images_equal` of the five-image script, without the image I/O: a
    landscape A4 page with two images in a top row and three in a bottom row. Every
    image is resized to fit one common cell, keeping its aspect ratio, and each row
    is centred horizontally; each image is centred vertically in its row. */
module TwoOverThreeCollage {
  import opened Outcomes
  import opened Geometry
  import opened Placement

  /** `int(DPI * 0.6)` and `int(DPI * 0.2)` at 300 DPI. */
  const MARGIN: nat := 180
  const PADDING: nat := 60

  const IMAGE_COUNT: nat := 5
  const TOP_COLUMNS: nat := 2
  const BOTTOM_COLUMNS: nat := 3

  /** The script always draws on a landscape page. */
  function Page(): Size
  {
    A4Page(Landscape)
  }

  /** `(available - (cols - 1) * PADDING) / cols`: the width of each of `cols` equal
      columns separated by `pad`. */
  function ColumnWidth(available: int, pad: nat, cols: nat): (w: real)
    requires cols > 0
    ensures cols as real * w + (cols - 1) as real * pad as real == available as real
  {
    (available - (cols - 1) * pad) as real / cols as real
  }

  /** `min(width_top, width_bottom)`: one cell width that both rows can hold. */
  function CellWidth(available: int, pad: nat): (w: real)
    ensures 2.0 * w + pad as real <= available as real
    ensures 3.0 * w + 2.0 * pad as real <= available as real
    ensures w == ColumnWidth(available, pad, TOP_COLUMNS) || w == ColumnWidth(available, pad, BOTTOM_COLUMNS)
  {
    Min(ColumnWidth(available, pad, TOP_COLUMNS), ColumnWidth(available, pad, BOTTOM_COLUMNS))
  }

  /** `(available_height - PADDING) / rows` with two rows. */
  function RowHeight(available: int, pad: nat): (h: real)
    ensures 2.0 * h + pad as real == available as real
  {
    (available - pad) as real / 2.0
  }

  const AVAILABLE_WIDTH: int := Page().width - 2 * MARGIN
  const AVAILABLE_HEIGHT: int := Page().height - 2 * MARGIN
  const ROW_HEIGHT: real := RowHeight(AVAILABLE_HEIGHT, PADDING)
  const IMG_WIDTH: real := CellWidth(AVAILABLE_WIDTH, PADDING)
  const IMG_HEIGHT: real := ROW_HEIGHT

  /** The cell at 300 DPI: 1009 by 1030 pixels; the bottom row of three cells uses the
      whole available width. */
  lemma CellDimensions()
    ensures Page() == Size(3507, 2480)
    ensures AVAILABLE_WIDTH == 3147 && AVAILABLE_HEIGHT == 2120
    ensures IMG_WIDTH == 1009.0 && ROW_HEIGHT == 1030.0
  {
  }

  lemma MulLe(x: real, y: real, c: real)
    requires x <= y && 0.0 <= c
    ensures x * c <= y * c
  {
    assert y * c - x * c == (y - x) * c;
  }

  lemma MulLt(x: real, y: real, c: real)
    requires x < y && 0.0 < c
    ensures x * c < y * c
  {
    assert y * c - x * c == (y - x) * c;
  }

  lemma Distribute(x: real, c: real)
    ensures (x + 1.0) * c == x * c + c
  {
  }

  /** Two sides rounded down from `bound` and `q`, where `q * w == bound * h`, keep the
      ratio `w : h` up to one unit of each: the rounding error of a resize. */
  lemma FloorAspect(big: real, small: real, w: real, h: real, bound: real, q: real)
    requires 0.0 <= w && 0.0 <= h
    requires big <= bound < big + 1.0
    requires small <= q < small + 1.0
    requires q * w == bound * h
    ensures big * h <= small * w + w
    ensures small * w <= big * h + h
  {
    RoundedDownBelow(big, bound, h, small, q, w);
    RoundedDownBelow(small, q, w, big, bound, h);
  }

  /** `x <= bound` and `q < y + 1` with `bound * h == q * w` give `x * h <= y * w + w`. */
  lemma RoundedDownBelow(x: real, bound: real, h: real, y: real, q: real, w: real)
    requires 0.0 <= w && 0.0 <= h
    requires x <= bound && q <= y + 1.0
    requires q * w == bound * h
    ensures x * h <= y * w + w
  {
    MulLe(x, bound, h);
    MulLe(q, y + 1.0, w);
    Distribute(y, w);
  }

  /** The width-bound case: `q = box_w / ratio` with `ratio = w / h > box_w / box_h`. */
  lemma WidthBoundQuotient(w: real, h: real, boxW: real, boxH: real)
    requires 0.0 < h && 0.0 < boxW && 0.0 < boxH && w / h > boxW / boxH
    ensures 0.0 < w
    ensures var q := boxW / (w / h); 0.0 <= q && q < boxH && q * w == boxW * h
  {
    var ratio := w / h;
    assert ratio * h == w;
    assert (boxW / boxH) * boxH == boxW;
    assert 0.0 < boxW / boxH;
    assert 0.0 < ratio;
    var q := boxW / ratio;
    assert q * ratio == boxW;
    MulLt(boxW / boxH, ratio, boxH);
    assert q * ratio < boxH * ratio;
    if q >= boxH {
      MulLe(boxH, q, ratio);
    }
    assert q * w == q * (ratio * h) == (q * ratio) * h;
  }

  /** The height-bound case: `p = box_h * ratio` with `ratio = w / h <= box_w / box_h`. */
  lemma HeightBoundProduct(w: real, h: real, boxW: real, boxH: real)
    requires 0.0 <= w && 0.0 < h && 0.0 < boxW && 0.0 < boxH && w / h <= boxW / boxH
    ensures var p := boxH * (w / h); 0.0 <= p && p <= boxW && p * h == boxH * w
  {
    var ratio := w / h;
    assert ratio * h == w;
    assert (boxW / boxH) * boxH == boxW;
    MulLe(ratio, boxW / boxH, boxH);
    assert 0.0 <= ratio;
    MulLe(0.0, ratio, boxH);
    assert (boxH * ratio) * h == boxH * (ratio * h);
  }

  /** A `width` by `height` resize of `img` fits the `box_w` by `box_h` cell, fills it
      in at least one direction (up to truncation), and keeps the aspect ratio of `img`
      up to one pixel of rounding on each side. */
  predicate FitsBox(width: int, height: int, img: Size, boxW: real, boxH: real)
  {
    0 <= width && 0 <= height &&
    width as real <= boxW && height as real <= boxH &&
    (width == Trunc(boxW) || height == Trunc(boxH)) &&
    width as real * img.height as real <= height as real * img.width as real + img.width as real &&
    height as real * img.width as real <= width as real * img.height as real + img.height as real
  }

  /** The width-bound branch: the image is relatively wider than the cell. */
  lemma WidthBoundFits(img: Size, boxW: real, boxH: real, width: int, height: int)
    requires img.height > 0 && 0.0 < boxW && 0.0 < boxH
    requires img.width as real / img.height as real > boxW / boxH
    requires width == Trunc(boxW) && height == Trunc(boxW / (img.width as real / img.height as real))
    ensures FitsBox(width, height, img, boxW, boxH)
  {
    var w, h := img.width as real, img.height as real;
    WidthBoundQuotient(w, h, boxW, boxH);
    FloorAspect(width as real, height as real, w, h, boxW, boxW / (w / h));
  }

  /** The height-bound branch: the image is at most as relatively wide as the cell. */
  lemma HeightBoundFits(img: Size, boxW: real, boxH: real, width: int, height: int)
    requires img.height > 0 && 0.0 < boxW && 0.0 < boxH
    requires img.width as real / img.height as real <= boxW / boxH
    requires width == Trunc(boxH * (img.width as real / img.height as real)) && height == Trunc(boxH)
    ensures FitsBox(width, height, img, boxW, boxH)
  {
    var w, h := img.width as real, img.height as real;
    HeightBoundProduct(w, h, boxW, boxH);
    FloorAspect(height as real, width as real, h, w, boxH, boxH * (w / h));
  }

  /** `a5_image_collage_generator_above_2_below_3.py` lines 50-57: resize an image to
      fit a `box_w` by `box_h` cell, keeping its aspect ratio: a relatively wider image
      takes the full cell width, any other the full cell height, and the other side
      follows the ratio; both are truncated. */
  function FitWithin(img: Size, boxW: real, boxH: real): (r: Size)
    requires img.height > 0 && 0.0 < boxW && 0.0 < boxH
    ensures FitsBox(r.width, r.height, img, boxW, boxH)
    ensures var ratio := img.width as real / img.height as real;
            ratio > boxW / boxH ==> r.width == Trunc(boxW) && r.height == Trunc(boxW / ratio)
    ensures var ratio := img.width as real / img.height as real;
            ratio <= boxW / boxH ==> r.height == Trunc(boxH) && r.width == Trunc(boxH * ratio)
  {
    var ratio := img.width as real / img.height as real;
    if ratio > boxW / boxH then
      WidthBoundFits(img, boxW, boxH, Trunc(boxW), Trunc(boxW / ratio));
      Size(Trunc(boxW), Trunc(boxW / ratio))
    else
      HeightBoundFits(img, boxW, boxH, Trunc(boxH * ratio), Trunc(boxH));
      Size(Trunc(boxH * ratio), Trunc(boxH))
  }

  /** No input image has height zero (the script divides by every height). */
  predicate PositiveHeights(images: seq<Size>)
  {
    forall i :: 0 <= i < |images| ==> images[i].height > 0
  }

  /** `a5_image_collage_generator_above_2_below_3.py` lines 48-58: the resize loop;
      every image gets the common cell. */
  method ResizeAll(images: seq<Size>) returns (sizes: seq<Size>)
    requires PositiveHeights(images)
    ensures |sizes| == |images|
    ensures forall i :: 0 <= i < |images| ==> sizes[i] == FitWithin(images[i], IMG_WIDTH, IMG_HEIGHT)
  {
    CellDimensions();
    sizes := [];
    for i := 0 to |images|
      invariant |sizes| == i
      invariant forall j :: 0 <= j < i ==> sizes[j] == FitWithin(images[j], IMG_WIDTH, IMG_HEIGHT)
    {
      var ratio := images[i].width as real / images[i].height as real;
      var fitted;
      if ratio > IMG_WIDTH / IMG_HEIGHT {
        fitted := Size(Trunc(IMG_WIDTH), Trunc(IMG_WIDTH / ratio));
      } else {
        fitted := Size(Trunc(IMG_HEIGHT * ratio), Trunc(IMG_HEIGHT));
      }
      assert fitted == FitWithin(images[i], IMG_WIDTH, IMG_HEIGHT);
      sizes := sizes + [fitted];
    }
  }

  /** `(A4_SIZE[0] - (sum of widths + (n - 1) * PADDING)) // 2`: the left edge of a
      horizontally centred row. */
  function RowStart(pageWidth: int, row: seq<Size>, pad: nat): int
    requires |row| > 0
  {
    (pageWidth - (SumAlong(row, Horizontal) + (|row| - 1) * pad)) / 2
  }

  /** `int(y + (row_height - img.height) / 2)`: the top edge of an image centred
      vertically in a row starting at `rowY`. */
  function CentredTop(rowY: real, rowHeight: real, sz: Size): int
  {
    Trunc(rowY + (rowHeight - sz.height as real) / 2.0)
  }

  /** The k-th paste of a row starting at `start`: image `first + k`, after the
      widths of the images before it and one `pad` after each, centred in the row's
      height. */
  function RowPaste(row: seq<Size>, first: nat, start: int, rowY: real, rowHeight: real, pad: nat, k: nat): Paste
    requires k < |row|
  {
    Paste(first + k, start + Offset(row, k, Horizontal, pad), CentredTop(rowY, rowHeight, row[k]))
  }

  /** The pastes of one centred row. */
  ghost predicate IsRowPlacement(pastes: seq<Paste>, row: seq<Size>, first: nat, pageWidth: int,
                                 rowY: real, rowHeight: real, pad: nat)
    requires |row| > 0
  {
    |pastes| == |row| &&
    forall k :: 0 <= k < |row| ==>
      pastes[k] == RowPaste(row, first, RowStart(pageWidth, row, pad), rowY, rowHeight, pad, k)
  }

  /** `a5_image_collage_generator_above_2_below_3.py` lines 69-74 and 79-84: paste a row
      left to right, advancing x by each width plus `pad`. */
  method PlaceRow(row: seq<Size>, first: nat, pageWidth: int, rowY: real, rowHeight: real, pad: nat)
    returns (pastes: seq<Paste>)
    requires |row| > 0
    ensures IsRowPlacement(pastes, row, first, pageWidth, rowY, rowHeight, pad)
  {
    var start := (pageWidth - (SumAlong(row, Horizontal) + (|row| - 1) * pad)) / 2;
    var x := start;
    pastes := [];
    for k := 0 to |row|
      invariant |pastes| == k
      invariant x == start + Offset(row, k, Horizontal, pad)
      invariant forall j :: 0 <= j < k ==> pastes[j] == RowPaste(row, first, start, rowY, rowHeight, pad, j)
    {
      var yOffset := (rowHeight - row[k].height as real) / 2.0;
      var paste := Paste(first + k, x, Trunc(rowY + yOffset));
      assert paste == RowPaste(row, first, start, rowY, rowHeight, pad, k);
      pastes := pastes + [paste];
      x := x + row[k].width + pad;
    }
    assert start == RowStart(pageWidth, row, pad);
  }

  /** The top edge of the top row, `MARGIN`, and of the bottom row, one row height and
      one padding further down. */
  const TOP_ROW_Y: real := MARGIN as real
  const BOTTOM_ROW_Y: real := TOP_ROW_Y + ROW_HEIGHT + PADDING as real

  /** Images 0 and 1 form the top row and images 2 to 4 the bottom row. */
  ghost predicate IsTwoOverThree(pastes: seq<Paste>, sizes: seq<Size>)
    requires |sizes| == IMAGE_COUNT
  {
    |pastes| == IMAGE_COUNT &&
    IsRowPlacement(pastes[..TOP_COLUMNS], sizes[..TOP_COLUMNS], 0, Page().width, TOP_ROW_Y, ROW_HEIGHT, PADDING) &&
    IsRowPlacement(pastes[TOP_COLUMNS..], sizes[TOP_COLUMNS..], TOP_COLUMNS, Page().width, BOTTOM_ROW_Y,
                   ROW_HEIGHT, PADDING)
  }

  /** `a5_image_collage_generator_above_2_below_3.py` lines 63-84: both rows, the second
      `row_height + PADDING` below the first. */
  method PlaceRows(sizes: seq<Size>) returns (pastes: seq<Paste>)
    requires |sizes| == IMAGE_COUNT
    ensures IsTwoOverThree(pastes, sizes)
  {
    var y := MARGIN as real;
    var top := PlaceRow(sizes[..TOP_COLUMNS], 0, Page().width, y, ROW_HEIGHT, PADDING);
    y := y + ROW_HEIGHT + PADDING as real;
    var bottom := PlaceRow(sizes[TOP_COLUMNS..], TOP_COLUMNS, Page().width, y, ROW_HEIGHT, PADDING);
    pastes := top + bottom;
    assert pastes[..TOP_COLUMNS] == top;
    assert pastes[TOP_COLUMNS..] == bottom;
  }

  /** Every image fits the common cell. */
  predicate FitsCell(sizes: seq<Size>)
  {
    forall i :: 0 <= i < |sizes| ==> sizes[i].width as real <= IMG_WIDTH && sizes[i].height as real <= IMG_HEIGHT
  }

  lemma {:induction false} SumAlongBound(s: seq<Size>, k: nat, a: Axis, bound: nat)
    requires k <= |s|
    requires forall i :: 0 <= i < |s| ==> Along(s[i], a) <= bound
    ensures PrefixSum(s, k, a) <= k * bound
  {
    if k > 0 {
      SumAlongBound(s, k - 1, a, bound);
    }
  }

  /** An image no taller than the row, centred in it, stays within the row. */
  lemma CentredInRow(rowY: real, rowHeight: real, sz: Size)
    requires 0.0 <= rowY && sz.height as real <= rowHeight
    ensures rowY - 1.0 < CentredTop(rowY, rowHeight, sz) as real
    ensures CentredTop(rowY, rowHeight, sz) as real + sz.height as real <= rowY + rowHeight
  {
  }

  /** A centred row whose total width leaves `margin` on both sides keeps every image
      within the margins horizontally. */
  lemma RowInsideMargins(pastes: seq<Paste>, row: seq<Size>, first: nat, pageWidth: int,
                         rowY: real, rowHeight: real, pad: nat, margin: int)
    requires |row| > 0 && IsRowPlacement(pastes, row, first, pageWidth, rowY, rowHeight, pad)
    requires SumAlong(row, Horizontal) + (|row| - 1) * pad <= pageWidth - 2 * margin
    ensures forall k :: 0 <= k < |row| ==> margin <= pastes[k].x && pastes[k].x + row[k].width <= pageWidth - margin
  {
    var n := |row|;
    var start := RowStart(pageWidth, row, pad);
    CentredGaps(pageWidth, SumAlong(row, Horizontal) + (n - 1) * pad);
    OffsetIsSumPlusPads(row, n - 1, Horizontal, pad);
    assert Offset(row, n - 1, Horizontal, pad) + row[n - 1].width == SumAlong(row, Horizontal) + (n - 1) * pad by {
      OffsetIsSumPlusPads(row, n, Horizontal, pad);
    }
    forall k | 0 <= k < n
      ensures margin <= pastes[k].x && pastes[k].x + row[k].width <= pageWidth - margin
    {
      assert pastes[k].x == start + Offset(row, k, Horizontal, pad);
      if k < n - 1 {
        OffsetMonotone(row, k + 1, n - 1, Horizontal, pad);
      }
    }
  }

  /** The images of a row do not overlap: each ends `pad` before the next begins. */
  lemma RowSeparated(pastes: seq<Paste>, row: seq<Size>, first: nat, pageWidth: int,
                     rowY: real, rowHeight: real, pad: nat)
    requires |row| > 0 && IsRowPlacement(pastes, row, first, pageWidth, rowY, rowHeight, pad)
    ensures forall k, m :: 0 <= k < m < |row| ==> pastes[k].x + row[k].width + pad <= pastes[m].x
  {
    var start := RowStart(pageWidth, row, pad);
    forall k, m | 0 <= k < m < |row|
      ensures pastes[k].x + row[k].width + pad <= pastes[m].x
    {
      assert pastes[k].x == start + Offset(row, k, Horizontal, pad);
      assert pastes[m].x == start + Offset(row, m, Horizontal, pad);
      assert Offset(row, k + 1, Horizontal, pad) == Offset(row, k, Horizontal, pad) + row[k].width + pad;
      OffsetMonotone(row, k + 1, m, Horizontal, pad);
    }
  }

  /** At 300 DPI a fitted image is at most 1009 by 1030 pixels. */
  lemma FitsCellPixels(sizes: seq<Size>)
    requires FitsCell(sizes)
    ensures forall i :: 0 <= i < |sizes| ==> sizes[i].width <= 1009 && sizes[i].height <= 1030
  {
    CellDimensions();
  }

  /** The top row: images 0 and 1, inside the margins and ending by y = 1210, the
      bottom of the first row. */
  lemma TopRowPlaced(pastes: seq<Paste>, sizes: seq<Size>)
    requires |sizes| == IMAGE_COUNT && IsTwoOverThree(pastes, sizes) && FitsCell(sizes)
    ensures forall k :: 0 <= k < TOP_COLUMNS ==>
              pastes[k].image == k && Inside(pastes[k], sizes[k], Page(), MARGIN) &&
              pastes[k].y + sizes[k].height <= 1210
    ensures forall k, m :: 0 <= k < m < TOP_COLUMNS ==> pastes[k].x + sizes[k].width <= pastes[m].x
  {
    CellDimensions();
    FitsCellPixels(sizes);
    var row, rowPastes := sizes[..TOP_COLUMNS], pastes[..TOP_COLUMNS];
    SumAlongBound(row, |row|, Horizontal, 1009);
    RowInsideMargins(rowPastes, row, 0, Page().width, TOP_ROW_Y, ROW_HEIGHT, PADDING, MARGIN);
    RowSeparated(rowPastes, row, 0, Page().width, TOP_ROW_Y, ROW_HEIGHT, PADDING);
    forall k | 0 <= k < TOP_COLUMNS
      ensures pastes[k].image == k && Inside(pastes[k], sizes[k], Page(), MARGIN)
      ensures pastes[k].y + sizes[k].height <= 1210
    {
      assert pastes[k] == rowPastes[k] && sizes[k] == row[k];
      CentredInRow(TOP_ROW_Y, ROW_HEIGHT, sizes[k]);
    }
  }

  /** The bottom row: images 2 to 4, inside the margins and starting at y = 1270 or
      lower, below the top row and the padding. */
  lemma BottomRowPlaced(pastes: seq<Paste>, sizes: seq<Size>)
    requires |sizes| == IMAGE_COUNT && IsTwoOverThree(pastes, sizes) && FitsCell(sizes)
    ensures forall k :: TOP_COLUMNS <= k < IMAGE_COUNT ==>
              pastes[k].image == k && Inside(pastes[k], sizes[k], Page(), MARGIN) && 1270 <= pastes[k].y
    ensures forall k, m :: TOP_COLUMNS <= k < m < IMAGE_COUNT ==> pastes[k].x + sizes[k].width <= pastes[m].x
  {
    CellDimensions();
    FitsCellPixels(sizes);
    var row, rowPastes := sizes[TOP_COLUMNS..], pastes[TOP_COLUMNS..];
    SumAlongBound(row, |row|, Horizontal, 1009);
    RowInsideMargins(rowPastes, row, TOP_COLUMNS, Page().width, BOTTOM_ROW_Y, ROW_HEIGHT, PADDING, MARGIN);
    RowSeparated(rowPastes, row, TOP_COLUMNS, Page().width, BOTTOM_ROW_Y, ROW_HEIGHT, PADDING);
    forall k | TOP_COLUMNS <= k < IMAGE_COUNT
      ensures pastes[k].image == k && Inside(pastes[k], sizes[k], Page(), MARGIN) && 1270 <= pastes[k].y
    {
      assert pastes[k] == rowPastes[k - TOP_COLUMNS] && sizes[k] == row[k - TOP_COLUMNS];
      CentredInRow(BOTTOM_ROW_Y, ROW_HEIGHT, sizes[k]);
    }
    forall k, m | TOP_COLUMNS <= k < m < IMAGE_COUNT
      ensures pastes[k].x + sizes[k].width <= pastes[m].x
    {
      assert pastes[k] == rowPastes[k - TOP_COLUMNS] && sizes[k] == row[k - TOP_COLUMNS];
      assert pastes[m] == rowPastes[m - TOP_COLUMNS];
    }
  }

  /** `a5_image_collage_generator_above_2_below_3.py` lines 63-84 with every image
      fitted to the cell: each image pasted once, all within the page margins, none
      overlapping. */
  lemma TwoOverThreeSound(pastes: seq<Paste>, sizes: seq<Size>)
    requires |sizes| == IMAGE_COUNT && IsTwoOverThree(pastes, sizes) && FitsCell(sizes)
    ensures PastesEachOnce(pastes, IMAGE_COUNT)
    ensures AllInside(pastes, sizes, Page(), MARGIN)
    ensures PairwiseDisjoint(pastes, sizes)
  {
    TopRowPlaced(pastes, sizes);
    BottomRowPlaced(pastes, sizes);
    forall i, j | 0 <= i < j < IMAGE_COUNT
      ensures Disjoint(pastes[i], sizes[i], pastes[j], sizes[j])
    {
    }
  }

  /** The collage the script composes. */
  datatype Collage = Collage(page: Size, sizes: seq<Size>, pastes: seq<Paste>)

  /** `combine_images_equal(img_paths)` on the images' sizes: exactly five images,
      each fitted to the common cell, two in the top row and three below, all within
      the margins and none overlapping. */
  method CombineImagesEqual(images: seq<Size>) returns (r: Result<Collage>)
    requires PositiveHeights(images)
    ensures r.Err? <==> |images| != IMAGE_COUNT
    ensures r.Err? ==> r.error == WrongImageCount
    ensures r.Ok? ==>
              var c := r.value;
              && c.page == Page()
              && |c.sizes| == IMAGE_COUNT
              && (forall i :: 0 <= i < IMAGE_COUNT ==> c.sizes[i] == FitWithin(images[i], IMG_WIDTH, IMG_HEIGHT))
              && IsTwoOverThree(c.pastes, c.sizes)
              && PastesEachOnce(c.pastes, IMAGE_COUNT)
              && AllInside(c.pastes, c.sizes, c.page, MARGIN)
              && PairwiseDisjoint(c.pastes, c.sizes)
  {
    if |images| != IMAGE_COUNT {
      return Err(WrongImageCount);
    }
    var sizes := ResizeAll(images);
    CellDimensions();
    assert FitsCell(sizes);
    var pastes := PlaceRows(sizes);
    TwoOverThreeSound(pastes, sizes);
    r := Ok(Collage(Page(), sizes, pastes));
  }
}
