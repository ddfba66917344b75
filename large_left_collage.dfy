/** `combine_images` of the large-plus-three script, without the image I/O: the
    scale comes from a closed formula instead of a search, the large image gets 1.5
    times that scale, and the orientation alone decides the arrangement: portrait
    puts the large image on top with a row of three below it, landscape puts it on
    the left with a column of three to its right. */
module LargeLeftCollage {
  import opened Outcomes
  import opened Geometry
  import opened Scaling
  import opened Placement

  /** `int(DPI * 0.8)` and `int(DPI * 0.1)` at 300 DPI. */
  const MARGIN: nat := 240
  const PADDING: nat := 30

  /** The axis along which the three small images run: a row in portrait, a column
      in landscape. The large image and the band are stacked across it. */
  function BandAxis(o: Orientation): Axis
  {
    if o == Portrait then Horizontal else Vertical
  }

  /** Room across the band: `available_height` in portrait and `available_width` in
      landscape (lines 41 and 52 of
      `a4_image_collage_generator_large_on_left_3_small_on_right.py`); both keep one
      padding back. */
  function StackRoom(o: Orientation): int
  {
    Across(A4Page(o), BandAxis(o)) - 2 * MARGIN - PADDING
  }

  /** Room along the band: `available_width` in portrait, `available_height` in landscape. */
  function LineRoom(o: Orientation): int
  {
    Along(A4Page(o), BandAxis(o)) - 2 * MARGIN
  }

  /** `total_h` (portrait) or `total_w` (landscape): the large image's extent across
      the band at 1.5 times, the largest small extent across it, and one padding. */
  function StackDemand(images: seq<Size>, li: nat, a: Axis): (d: real)
    requires |images| == 4 && li < 4
    ensures d >= PADDING as real
  {
    1.5 * Across(images[li], a) as real + MaxAlong(Smalls(images, li), Other(a)) as real + PADDING as real
  }

  /** `max(large.width, total_small_width / 3)` (portrait) or its transpose. */
  function LineDemand(images: seq<Size>, li: nat, a: Axis): (d: real)
    requires |images| == 4 && li < 4
    ensures d >= Along(images[li], a) as real && d >= 0.0
  {
    var large := Along(images[li], a) as real;
    var third := SumAlong(Smalls(images, li), a) as real / 3.0;
    if large < third then third else large
  }

  /** The line demand, the divisor of the second ratio at lines 48 and 58 of
      `a4_image_collage_generator_large_on_left_3_small_on_right.py`, is zero
      exactly when every image, the large one included, has a zero extent along the
      band. */
  lemma LineDemandZero(images: seq<Size>, li: nat, a: Axis)
    requires |images| == 4 && li < 4
    ensures LineDemand(images, li, a) == 0.0 <==> forall i :: 0 <= i < 4 ==> Along(images[i], a) == 0
  {
    var smalls := Smalls(images, li);
    var sum := SumAlong(smalls, a);
    assert PrefixSum(smalls, 1, a) == Along(smalls[0], a);
    assert PrefixSum(smalls, 2, a) == Along(smalls[0], a) + Along(smalls[1], a);
    assert sum == Along(smalls[0], a) + Along(smalls[1], a) + Along(smalls[2], a);
    if LineDemand(images, li, a) == 0.0 {
      forall i | 0 <= i < 4
        ensures Along(images[i], a) == 0
      {
        if i != li {
          var j := if i < li then i else i - 1;
          assert smalls[j] == images[i];
        }
      }
    }
  }

  /** `a4_image_collage_generator_large_on_left_3_small_on_right.py` lines 37-58:
      `scale = min(room_across / total, room_along / max(...))`, within both ratio
      bounds and equal to one of them. */
  function ClosedFormScale(o: Orientation, images: seq<Size>, li: nat): (scale: real)
    requires |images| == 4 && li < 4 && LineDemand(images, li, BandAxis(o)) > 0.0
    ensures var a := BandAxis(o);
            StackDemand(images, li, a) > 0.0 &&
            scale <= StackRoom(o) as real / StackDemand(images, li, a) &&
            scale <= LineRoom(o) as real / LineDemand(images, li, a) &&
            (scale == StackRoom(o) as real / StackDemand(images, li, a) ||
             scale == LineRoom(o) as real / LineDemand(images, li, a))
    ensures 0.0 < scale
  {
    var a := BandAxis(o);
    var byStack := StackRoom(o) as real / StackDemand(images, li, a);
    var byLine := LineRoom(o) as real / LineDemand(images, li, a);
    QuotientPositive(StackDemand(images, li, a), StackRoom(o) as real);
    QuotientPositive(LineDemand(images, li, a), LineRoom(o) as real);
    Min(byStack, byLine)
  }

  /** A positive dividend over a positive divisor gives a positive quotient. */
  lemma QuotientPositive(d: real, room: real)
    requires d > 0.0 && room > 0.0
    ensures room / d > 0.0
  {
  }

  /** Four equal 1000 x 1000 images. */
  const EQUAL_SQUARES: seq<Size> := [Size(1000, 1000), Size(1000, 1000), Size(1000, 1000), Size(1000, 1000)]

  /** The closed-form scale does not keep the band on the page. Its along-band
      divisor takes the large image unscaled and a third of the small sum, while the
      row of three is laid out at full width. For four equal squares in portrait the
      scale is 2997/2530, so each small image becomes 1184 pixels wide. The centred
      row, 3 * 1184 + 2 * PADDING = 3612 pixels, then starts 566 pixels left of the
      page and ends 566 pixels past its right edge. */
  lemma EqualSquaresBandOffPage()
    ensures LineDemand(EQUAL_SQUARES, 0, Horizontal) == 1000.0
    ensures ClosedFormScale(Portrait, EQUAL_SQUARES, 0) == 2997.0 / 2530.0
    ensures var sizes := ScaledSizes(EQUAL_SQUARES, 0, 2997.0 / 2530.0, DEFAULT_EMPHASIS);
            && (forall i :: 1 <= i < 4 ==> sizes[i] == Size(1184, 1184))
            && BandStart(A4Page(Portrait), sizes, 0, PADDING, Horizontal) == -566
            && forall pastes: seq<Paste> :: IsBandPlacement(pastes, A4Page(Portrait), sizes, 0, MARGIN, PADDING, Horizontal) ==>
                 pastes[1].x == -566 &&
                 pastes[3].x + sizes[pastes[3].image].width == 2480 + 566 &&
                 !AllInside(pastes, sizes, A4Page(Portrait), MARGIN)
  {
    EqualSquaresScale();
    EqualSquaresSmallSizes();
    var sizes := ScaledSizes(EQUAL_SQUARES, 0, 2997.0 / 2530.0, DEFAULT_EMPHASIS);
    forall pastes: seq<Paste> | IsBandPlacement(pastes, A4Page(Portrait), sizes, 0, MARGIN, PADDING, Horizontal)
      ensures pastes[1].x == -566
      ensures pastes[3].x + sizes[pastes[3].image].width == 2480 + 566
      ensures !AllInside(pastes, sizes, A4Page(Portrait), MARGIN)
    {
      BandSteps(pastes, A4Page(Portrait), sizes, 0, MARGIN, PADDING, Horizontal);
      assert pastes[1].image == 1;
      assert !Inside(pastes[1], sizes[1], A4Page(Portrait), MARGIN);
    }
  }

  /** For four equal squares in portrait the line demand is the large width, 1000,
      and the scale is the stack ratio 2997/2530, below the line ratio 2000/1000. */
  lemma EqualSquaresScale()
    ensures LineDemand(EQUAL_SQUARES, 0, Horizontal) == 1000.0
    ensures StackDemand(EQUAL_SQUARES, 0, Horizontal) == 2530.0
    ensures ClosedFormScale(Portrait, EQUAL_SQUARES, 0) == 2997.0 / 2530.0
  {
    var smalls := Smalls(EQUAL_SQUARES, 0);
    assert forall j :: 0 <= j < 3 ==> smalls[j] == Size(1000, 1000);
    assert SumAlong(smalls, Horizontal) == 3000 by {
      assert PrefixSum(smalls, 1, Horizontal) == 1000;
      assert PrefixSum(smalls, 2, Horizontal) == 2000;
    }
    MaxAlongIsMaximum(smalls, Vertical);
    assert MaxAlong(smalls, Vertical) == 1000;
  }

  /** At the scale 2997/2530 each small square truncates to 1184 pixels a side, so
      the row of three with its two paddings is 3612 pixels long. */
  lemma EqualSquaresSmallSizes()
    ensures var sizes := ScaledSizes(EQUAL_SQUARES, 0, 2997.0 / 2530.0, DEFAULT_EMPHASIS);
            && (forall i :: 1 <= i < 4 ==> sizes[i] == Size(1184, 1184))
            && SumAlong(Smalls(sizes, 0), Horizontal) + 2 * PADDING == 3612
  {
    var scale := 2997.0 / 2530.0;
    var sizes := ScaledSizes(EQUAL_SQUARES, 0, scale, DEFAULT_EMPHASIS);
    ScaledSizesBounds(EQUAL_SQUARES, 0, scale, DEFAULT_EMPHASIS);
    forall i | 1 <= i < 4
      ensures sizes[i] == Size(1184, 1184)
    {
      assert FactorFor(i, 0, scale, DEFAULT_EMPHASIS) == scale;
    }
    var bandSmalls := Smalls(sizes, 0);
    assert forall j :: 0 <= j < 3 ==> bandSmalls[j] == Size(1184, 1184);
    assert SumAlong(bandSmalls, Horizontal) == 3552 by {
      assert PrefixSum(bandSmalls, 1, Horizontal) == 1184;
      assert PrefixSum(bandSmalls, 2, Horizontal) == 2368;
    }
  }

  /** The collage the script composes. */
  datatype Collage = Collage(page: Size, scale: real, sizes: seq<Size>, pastes: seq<Paste>)

  /** `a4_image_collage_generator_large_on_left_3_small_on_right.py` lines 69-95:
      portrait pastes the large image centred at the top margin and the others in a
      centred row `PADDING` below it; landscape pastes it at the left margin, centred
      vertically, and the others in a centred column `PADDING` to its right. */
  method Place(o: Orientation, sizes: seq<Size>, li: nat) returns (pastes: seq<Paste>)
    requires |sizes| == 4 && li < 4
    ensures IsBandPlacement(pastes, A4Page(o), sizes, li, MARGIN, PADDING, BandAxis(o))
    ensures PastesEachOnce(pastes, 4) && PairwiseDisjoint(pastes, sizes)
  {
    var page := A4Page(o);
    if o == Portrait {
      pastes := PlaceLargeThenBand(page, sizes, li, MARGIN, PADDING, Horizontal);
    } else {
      pastes := PlaceLargeThenBand(page, sizes, li, MARGIN, PADDING, Vertical);
    }
  }

  /** `combine_images(img_paths, large_index, orientation)` on the images' sizes:
      validation first, then the closed-form scale (a `ZeroDivisionError` when its
      second divisor is zero), the resize (the large image by 1.5 times the scale,
      each side truncated), and the placement. */
  method CombineImages(images: seq<Size>, largeIndex: int, orientation: string) returns (r: Result<Collage>)
    ensures ValidateRequest(|images|, largeIndex, orientation).Err? ==>
              r == Err(ValidateRequest(|images|, largeIndex, orientation).error)
    ensures ValidateRequest(|images|, largeIndex, orientation).Ok? ==>
              var o := ValidateRequest(|images|, largeIndex, orientation).value;
              0 <= largeIndex < 4 &&
              (r.Err? <==> LineDemand(images, largeIndex as nat, BandAxis(o)) == 0.0) &&
              (r.Err? ==> r.error == ZeroScaleDivisor)
    ensures ValidateRequest(|images|, largeIndex, orientation).Ok? && r.Ok? ==>
              var o := ValidateRequest(|images|, largeIndex, orientation).value;
              var li := largeIndex as nat;
              var c := r.value;
              && 0 <= largeIndex < 4 && LineDemand(images, li, BandAxis(o)) > 0.0
              && c.page == A4Page(o)
              && c.scale == ClosedFormScale(o, images, li)
              && c.sizes == ScaledSizes(images, li, c.scale, DEFAULT_EMPHASIS)
              && IsBandPlacement(c.pastes, c.page, c.sizes, li, MARGIN, PADDING, BandAxis(o))
              && PastesEachOnce(c.pastes, 4)
              && PairwiseDisjoint(c.pastes, c.sizes)
  {
    var v := ValidateRequest(|images|, largeIndex, orientation);
    if v.Err? {
      return Err(v.error);
    }
    var o := v.value;
    var li := largeIndex as nat;
    if LineDemand(images, li, BandAxis(o)) == 0.0 {
      return Err(ZeroScaleDivisor);
    }
    var scale := ClosedFormScale(o, images, li);
    var sizes := ResizeWithEmphasis(images, li, scale, DEFAULT_EMPHASIS);
    var pastes := Place(o, sizes, li);
    r := Ok(Collage(A4Page(o), scale, sizes, pastes));
  }
}
