/** `combine_images` of the dynamic-layout script, without the image I/O: validate
    the request, size the page, search the global scale (falling back to smaller
    emphasis multipliers), resize, regenerate the option list, take the option the
    user picks, and place the four images accordingly. */
module DynamicCollage {
  import opened Outcomes
  import opened Geometry
  import opened Scaling
  import opened LayoutOptions
  import opened ScaleSearch
  import opened Placement

  /** `int(DPI * 0.2)` and `int(DPI * 0.1)` at 300 DPI. */
  const PAGE_MARGIN: nat := 60
  const IMAGE_PADDING: nat := 30

  /** The multipliers tried, in order, when the 1.5 search finds nothing. */
  const FALLBACK_EMPHASES: seq<real> := [1.4, 1.3, 1.2, 1.1]

  /** Every multiplier the search may use, the default first. */
  const EMPHASES: seq<real> := [DEFAULT_EMPHASIS, 1.4, 1.3, 1.2, 1.1]

  /** `(A4_SIZE[0] - 2 * PAGE_MARGIN, A4_SIZE[1] - 2 * PAGE_MARGIN)`. */
  function Available(page: Size, margin: nat): (avail: (int, int))
    ensures avail.0 + 2 * margin == page.width && avail.1 + 2 * margin == page.height
  {
    (page.width - 2 * margin, page.height - 2 * margin)
  }

  /** Landscape swaps the available width and height of portrait. */
  lemma AvailableSwapsWithOrientation(margin: nat)
    ensures Available(A4Page(Landscape), margin).0 == Available(A4Page(Portrait), margin).1
    ensures Available(A4Page(Landscape), margin).1 == Available(A4Page(Portrait), margin).0
  {
  }

  /** The problem the scale search closes over for a validated request. */
  function ProblemFor(images: seq<Size>, li: nat, o: Orientation): Problem
  {
    var avail := Available(A4Page(o), PAGE_MARGIN);
    Problem(images, li, avail.0, avail.1, IMAGE_PADDING)
  }

  /** What the search settled on: the multiplier that worked, the sample scale and
      the best option at that scale. */
  datatype Found = Found(emphasis: real, scale: real, layout: LayoutOption)

  /** `calculate_scale_factors(large_scale=e)` as a value. */
  function SearchWith(p: Problem, e: real): Best
    requires WellFormed(p) && e >= 0.0
  {
    Sweep(Tops(p, e, SAMPLES))
  }

  predicate AllNonNegative(es: seq<real>)
  {
    forall i :: 0 <= i < |es| ==> es[i] >= 0.0
  }

  /** Try the multipliers in order and stop at the first whose search finds a layout. */
  function FirstFound(p: Problem, es: seq<real>): Result<Found>
    requires WellFormed(p) && AllNonNegative(es)
  {
    if es == [] then Err(NoLayoutFits)
    else
      var b := SearchWith(p, es[0]);
      if b.layout.Some? then Ok(Found(es[0], b.scale, b.layout.value))
      else FirstFound(p, es[1..])
  }

  /** The multiplier search fails, with `NoLayoutFits`, exactly when every multiplier
      fails. */
  lemma {:induction false} FirstFoundFails(p: Problem, es: seq<real>)
    requires WellFormed(p) && AllNonNegative(es)
    ensures FirstFound(p, es).Err? <==> forall i :: 0 <= i < |es| ==> SearchWith(p, es[i]).layout.None?
    ensures FirstFound(p, es).Err? ==> FirstFound(p, es).error == NoLayoutFits
  {
    if es != [] && SearchWith(p, es[0]).layout.None? {
      FirstFoundFails(p, es[1..]);
      forall i | 1 <= i < |es|
        ensures es[i] == es[1..][i - 1]
      {
      }
    }
  }

  /** The position, in `es`, of the multiplier a successful search reports: the first
      one whose sweep finds a layout. */
  lemma {:induction false} FirstSuccessIndex(p: Problem, es: seq<real>) returns (i: nat)
    requires WellFormed(p) && AllNonNegative(es) && FirstFound(p, es).Ok?
    ensures i < |es| && es[i] == FirstFound(p, es).value.emphasis
    ensures forall j :: 0 <= j < i ==> SearchWith(p, es[j]).layout.None?
    ensures SearchWith(p, es[i]) == Best(FirstFound(p, es).value.scale, Some(FirstFound(p, es).value.layout))
  {
    if SearchWith(p, es[0]).layout.Some? {
      i := 0;
    } else {
      assert FirstFound(p, es) == FirstFound(p, es[1..]);
      var rest := FirstSuccessIndex(p, es[1..]);
      i := rest + 1;
      assert es[i] == es[1..][rest];
      forall j | 1 <= j <= rest
        ensures es[j] == es[1..][j - 1]
      {
      }
    }
  }

  /** A successful multiplier search reports the first multiplier that succeeds, with
      the result of its sweep; every earlier multiplier failed. */
  lemma FirstFoundIsFirstSuccess(p: Problem, es: seq<real>)
    requires WellFormed(p) && AllNonNegative(es)
    ensures FirstFound(p, es).Ok? ==>
              var f := FirstFound(p, es).value;
              exists i :: 0 <= i < |es| && es[i] == f.emphasis &&
                (forall j :: 0 <= j < i ==> SearchWith(p, es[j]).layout.None?) &&
                SearchWith(p, es[i]) == Best(f.scale, Some(f.layout))
  {
    if FirstFound(p, es).Ok? {
      var i := FirstSuccessIndex(p, es);
    }
  }

  /** The scale a successful search reports is one of the positive samples. */
  lemma FoundScaleSampled(p: Problem, es: seq<real>)
    requires WellFormed(p) && AllNonNegative(es)
    ensures FirstFound(p, es).Ok? ==> 0.0 < FirstFound(p, es).value.scale <= 2.0
  {
    if FirstFound(p, es).Ok? {
      var i := FirstSuccessIndex(p, es);
      var k := SweepFirstMaximum(Tops(p, es[i], SAMPLES));
    }
  }

  /** One step of the multiplier search: a multiplier that finds nothing passes the
      search on to the rest; one that finds a layout ends it. */
  lemma FirstFoundStep(p: Problem, es: seq<real>, i: nat)
    requires WellFormed(p) && AllNonNegative(es) && i < |es|
    ensures AllNonNegative(es[i..]) && AllNonNegative(es[i + 1..])
    ensures SearchWith(p, es[i]).layout.None? ==> FirstFound(p, es[i..]) == FirstFound(p, es[i + 1..])
    ensures SearchWith(p, es[i]).layout.Some? ==>
              FirstFound(p, es[i..]) == Ok(Found(es[i], SearchWith(p, es[i]).scale, SearchWith(p, es[i]).layout.value))
  {
    assert es[i..][0] == es[i];
    assert es[i..][1..] == es[i + 1..];
  }

  /** `a4_image_collage_generator_with_dynamic_layouts.py` lines 148-159: search at 1.5;
      only if that finds nothing, retry at 1.4, 1.3, 1.2 and 1.1, stopping at the first
      success; fail when all of them fail. */
  method FindBestLayout(p: Problem) returns (r: Result<Found>)
    requires WellFormed(p)
    ensures r == FirstFound(p, EMPHASES)
  {
    FirstFoundStep(p, EMPHASES, 0);
    assert EMPHASES[1..] == FALLBACK_EMPHASES;
    var bestScale, bestLayout := CalculateScaleFactors(p, DEFAULT_EMPHASIS);
    var emphasis := DEFAULT_EMPHASIS;
    if bestLayout.None? {
      var i := 0;
      while i < |FALLBACK_EMPHASES|
        invariant 0 <= i <= |FALLBACK_EMPHASES|
        invariant bestLayout.None?
        invariant AllNonNegative(FALLBACK_EMPHASES[i..])
        invariant FirstFound(p, EMPHASES) == FirstFound(p, FALLBACK_EMPHASES[i..])
      {
        FirstFoundStep(p, FALLBACK_EMPHASES, i);
        bestScale, bestLayout := CalculateScaleFactors(p, FALLBACK_EMPHASES[i]);
        if bestLayout.Some? {
          emphasis := FALLBACK_EMPHASES[i];
          break;
        }
        i := i + 1;
      }
    }
    if bestLayout.None? {
      r := Err(NoLayoutFits);
    } else {
      r := Ok(Found(emphasis, bestScale, bestLayout.value));
    }
  }

  /** `layouts[int(input(...)) - 1]`: the user types a 1-based number; Python's list
      indexing also accepts negative positions, counted from the end. */
  function SelectOption(layouts: seq<LayoutOption>, choice: int): (r: Result<LayoutOption>)
    ensures r.Ok? <==> -|layouts| <= choice - 1 < |layouts|
    ensures r.Err? ==> r.error == SelectionOutOfRange
    ensures r.Ok? ==> r.value in layouts
    ensures 1 <= choice <= |layouts| ==> r == Ok(layouts[choice - 1])
    ensures -|layouts| < choice <= 0 ==> r == Ok(layouts[|layouts| + choice - 1])
  {
    var selection := choice - 1;
    if 0 <= selection < |layouts| then Ok(layouts[selection])
    else if -|layouts| <= selection < 0 then Ok(layouts[|layouts| + selection])
    else Err(SelectionOutOfRange)
  }

  /** One `paste` of the classic grid, whose anchors are not whole pixels in general. */
  datatype GridPaste = GridPaste(image: nat, x: real, y: real)

  /** `(available - padding) / 2`. */
  function CellExtent(available: int, pad: nat): real
  {
    (available - pad) as real / 2.0
  }

  /** `positions[q]`: the top-left, top-right, bottom-left and bottom-right cells. */
  function Quadrant(q: nat, margin: nat, availWidth: int, availHeight: int, pad: nat): (real, real)
  {
    var right := margin as real + CellExtent(availWidth, pad) + pad as real;
    var below := margin as real + CellExtent(availHeight, pad) + pad as real;
    if q == 0 then (margin as real, margin as real)
    else if q == 1 then (right, margin as real)
    else if q == 2 then (margin as real, below)
    else (right, below)
  }

  function PasteAt(image: nat, q: nat, margin: nat, availWidth: int, availHeight: int, pad: nat): GridPaste
  {
    var pos := Quadrant(q, margin, availWidth, availHeight, pad);
    GridPaste(image, pos.0, pos.1)
  }

  /** The large image in the first quadrant whatever `large_index` is, and the other
      three, in input order, in quadrants 1 to 3. */
  predicate IsGridPlacement(pastes: seq<GridPaste>, li: nat, margin: nat, availWidth: int, availHeight: int, pad: nat)
  {
    |pastes| == 4 &&
    pastes[0] == PasteAt(li, 0, margin, availWidth, availHeight, pad) &&
    forall k :: 1 <= k < 4 ==> pastes[k] == PasteAt(SmallIndex(li, k - 1), k, margin, availWidth, availHeight, pad)
  }

  /** The grid placement loop: paste the large image first, then walk the inputs,
      pasting each other image at the next quadrant. */
  method PlaceGrid(li: nat, margin: nat, availWidth: int, availHeight: int, pad: nat)
    returns (pastes: seq<GridPaste>)
    requires li < 4
    ensures IsGridPlacement(pastes, li, margin, availWidth, availHeight, pad)
    ensures GridPastesEachOnce(pastes)
  {
    var cellWidth := (availWidth - pad) as real / 2.0;
    var cellHeight := (availHeight - pad) as real / 2.0;
    var positions := [
      (margin as real, margin as real),
      (margin as real + cellWidth + pad as real, margin as real),
      (margin as real, margin as real + cellHeight + pad as real),
      (margin as real + cellWidth + pad as real, margin as real + cellHeight + pad as real)
    ];
    assert forall q :: 0 <= q < 4 ==> positions[q] == Quadrant(q, margin, availWidth, availHeight, pad);
    pastes := [GridPaste(li, positions[0].0, positions[0].1)];
    var posIndex := 1;
    for i := 0 to 4
      invariant posIndex == if i <= li then i + 1 else i
      invariant |pastes| == posIndex
      invariant pastes[0] == PasteAt(li, 0, margin, availWidth, availHeight, pad)
      invariant forall k :: 1 <= k < posIndex ==>
                  pastes[k] == PasteAt(SmallIndex(li, k - 1), k, margin, availWidth, availHeight, pad)
    {
      if i != li {
        pastes := pastes + [GridPaste(i, positions[posIndex].0, positions[posIndex].1)];
        posIndex := posIndex + 1;
      }
    }
  }

  /** Each of the four input images is pasted exactly once. */
  predicate GridPastesEachOnce(pastes: seq<GridPaste>)
  {
    |pastes| == 4 &&
    (forall k :: 0 <= k < 4 ==> pastes[k].image < 4) &&
    (forall i, j :: 0 <= i < j < 4 ==> pastes[i].image != pastes[j].image)
  }

  /** The image pasted at `p` with size `sz` lies within `margin` of every page edge. */
  predicate GridInside(p: GridPaste, sz: Size, page: Size, margin: nat)
  {
    margin as real <= p.x && p.x + sz.width as real <= (page.width - margin) as real &&
    margin as real <= p.y && p.y + sz.height as real <= (page.height - margin) as real
  }

  predicate GridDisjoint(p: GridPaste, sp: Size, q: GridPaste, sq: Size)
  {
    p.x + sp.width as real <= q.x || q.x + sq.width as real <= p.x ||
    p.y + sp.height as real <= q.y || q.y + sq.height as real <= p.y
  }

  /** Every image of the grid inside the margins, and no two overlapping. */
  predicate GridSound(pastes: seq<GridPaste>, sizes: seq<Size>, page: Size)
  {
    |pastes| == 4 && |sizes| == 4 &&
    (forall k :: 0 <= k < 4 ==> pastes[k].image < 4 &&
                                GridInside(pastes[k], sizes[pastes[k].image], page, PAGE_MARGIN)) &&
    forall i, j :: 0 <= i < j < 4 ==>
      GridDisjoint(pastes[i], sizes[pastes[i].image], pastes[j], sizes[pastes[j].image])
  }

  /** When every image fits a cell, which is when the grid option is offered, the
      grid placement keeps every image inside the margins and no two overlap. */
  lemma GridPlacementSound(pastes: seq<GridPaste>, sizes: seq<Size>, li: nat, page: Size)
    requires |sizes| == 4 && li < 4
    requires var avail := Available(page, PAGE_MARGIN);
             IsGridPlacement(pastes, li, PAGE_MARGIN, avail.0, avail.1, IMAGE_PADDING) &&
             GridFits(sizes, avail.0, avail.1, IMAGE_PADDING)
    ensures GridSound(pastes, sizes, page)
  {
    var avail := Available(page, PAGE_MARGIN);
    var cw := CellExtent(avail.0, IMAGE_PADDING);
    var ch := CellExtent(avail.1, IMAGE_PADDING);
    forall k | 0 <= k < 4
      ensures pastes[k].image < 4
      ensures pastes[k].x == (if k % 2 == 0 then PAGE_MARGIN as real else PAGE_MARGIN as real + cw + IMAGE_PADDING as real)
      ensures pastes[k].y == (if k < 2 then PAGE_MARGIN as real else PAGE_MARGIN as real + ch + IMAGE_PADDING as real)
      ensures sizes[pastes[k].image].width as real <= cw && sizes[pastes[k].image].height as real <= ch
    {
    }
  }

  /** How the four images were arranged: a large image plus a band of three, or the grid. */
  datatype Arrangement = BandArrangement(bandPastes: seq<Paste>) | GridArrangement(gridPastes: seq<GridPaste>)

  datatype Collage = Collage(page: Size, sizes: seq<Size>, layout: LayoutOption, arrangement: Arrangement)

  /** `a4_image_collage_generator_with_dynamic_layouts.py` lines 188-241: large-top
      pastes the large image centred at the top margin and the others in a centred row
      below; large-left is the transpose; anything else is the classic grid. */
  method Arrange(page: Size, sizes: seq<Size>, li: nat, layout: LayoutOption) returns (a: Arrangement)
    requires |sizes| == 4 && li < 4
    ensures layout.name == LargeTop ==>
              a.BandArrangement? && IsBandPlacement(a.bandPastes, page, sizes, li, PAGE_MARGIN, IMAGE_PADDING, Horizontal)
    ensures layout.name == LargeLeft ==>
              a.BandArrangement? && IsBandPlacement(a.bandPastes, page, sizes, li, PAGE_MARGIN, IMAGE_PADDING, Vertical)
    ensures layout.name == ClassicGrid ==>
              var avail := Available(page, PAGE_MARGIN);
              a.GridArrangement? && IsGridPlacement(a.gridPastes, li, PAGE_MARGIN, avail.0, avail.1, IMAGE_PADDING)
    ensures a.BandArrangement? ==> PastesEachOnce(a.bandPastes, 4) && PairwiseDisjoint(a.bandPastes, sizes)
    ensures a.GridArrangement? ==> GridPastesEachOnce(a.gridPastes)
    ensures layout.name == LargeTop && BandFits(page, sizes, li, PAGE_MARGIN, IMAGE_PADDING, Horizontal) ==>
              AllInside(a.bandPastes, sizes, page, PAGE_MARGIN)
    ensures layout.name == LargeLeft && BandFits(page, sizes, li, PAGE_MARGIN, IMAGE_PADDING, Vertical) ==>
              AllInside(a.bandPastes, sizes, page, PAGE_MARGIN)
    ensures layout.name == ClassicGrid ==>
              var avail := Available(page, PAGE_MARGIN);
              GridFits(sizes, avail.0, avail.1, IMAGE_PADDING) ==> GridSound(a.gridPastes, sizes, page)
  {
    if layout.name == LargeTop {
      var pastes := PlaceLargeThenBand(page, sizes, li, PAGE_MARGIN, IMAGE_PADDING, Horizontal);
      a := BandArrangement(pastes);
    } else if layout.name == LargeLeft {
      var pastes := PlaceLargeThenBand(page, sizes, li, PAGE_MARGIN, IMAGE_PADDING, Vertical);
      a := BandArrangement(pastes);
    } else {
      var avail := Available(page, PAGE_MARGIN);
      var pastes := PlaceGrid(li, PAGE_MARGIN, avail.0, avail.1, IMAGE_PADDING);
      a := GridArrangement(pastes);
      if GridFits(sizes, avail.0, avail.1, IMAGE_PADDING) {
        GridPlacementSound(pastes, sizes, li, page);
      }
    }
  }

  /** An option taken from the list for `sizes` guarantees the room its arrangement
      needs: a band option that its box fits, the grid option that every image fits
      a cell. */
  lemma ListedOptionFits(sizes: seq<Size>, li: nat, page: Size, x: LayoutOption)
    requires |sizes| == 4 && li < 4
    requires var avail := Available(page, PAGE_MARGIN);
             x in Options(sizes, li, avail.0, avail.1, IMAGE_PADDING)
    ensures x.name == LargeTop ==> BandFits(page, sizes, li, PAGE_MARGIN, IMAGE_PADDING, Horizontal)
    ensures x.name == LargeLeft ==> BandFits(page, sizes, li, PAGE_MARGIN, IMAGE_PADDING, Vertical)
    ensures x.name == ClassicGrid ==>
              var avail := Available(page, PAGE_MARGIN);
              GridFits(sizes, avail.0, avail.1, IMAGE_PADDING)
  {
    var avail := Available(page, PAGE_MARGIN);
    var r := Options(sizes, li, avail.0, avail.1, IMAGE_PADDING);
    OptionsDescribed(sizes, li, avail.0, avail.1, IMAGE_PADDING);
    var i :| 0 <= i < |r| && r[i] == x;
    assert Kept(r[i], TopOption(sizes, li, avail.0, avail.1, IMAGE_PADDING),
                LeftOption(sizes, li, avail.0, avail.1, IMAGE_PADDING),
                BoxFits(LargeTopBox(sizes, li, IMAGE_PADDING), avail.0, avail.1),
                BoxFits(LargeLeftBox(sizes, li, IMAGE_PADDING), avail.0, avail.1),
                GridFits(sizes, avail.0, avail.1, IMAGE_PADDING));
  }

  /** The arrangement of the collage keeps every image inside the page margins and
      no two images overlap. */
  predicate Sound(c: Collage)
  {
    match c.arrangement
    case BandArrangement(pastes) =>
      PairwiseDisjoint(pastes, c.sizes) && AllInside(pastes, c.sizes, c.page, PAGE_MARGIN)
    case GridArrangement(pastes) => GridSound(pastes, c.sizes, c.page)
  }

  /** `c` is what the script builds at scale `scale` for the user's `choice`: the
      images resized with the default emphasis, an option picked from the list rebuilt
      for the resized images, arranged as that option says, and soundly so. */
  ghost predicate Composed(c: Collage, page: Size, images: seq<Size>, li: nat, scale: real, choice: int)
  {
    var avail := Available(page, PAGE_MARGIN);
    && |images| == 4 && li < 4 && scale >= 0.0
    && c.page == page
    && c.sizes == ScaledSizes(images, li, scale, DEFAULT_EMPHASIS)
    && |c.sizes| == 4
    && SelectOption(Options(c.sizes, li, avail.0, avail.1, IMAGE_PADDING), choice) == Ok(c.layout)
    && (c.layout.name == LargeTop ==>
          c.arrangement.BandArrangement? &&
          IsBandPlacement(c.arrangement.bandPastes, page, c.sizes, li, PAGE_MARGIN, IMAGE_PADDING, Horizontal))
    && (c.layout.name == LargeLeft ==>
          c.arrangement.BandArrangement? &&
          IsBandPlacement(c.arrangement.bandPastes, page, c.sizes, li, PAGE_MARGIN, IMAGE_PADDING, Vertical))
    && (c.layout.name == ClassicGrid ==>
          c.arrangement.GridArrangement? &&
          IsGridPlacement(c.arrangement.gridPastes, li, PAGE_MARGIN, avail.0, avail.1, IMAGE_PADDING))
    && Sound(c)
  }

  /** The outcome of composing at `scale`: a collage composed as the chosen option
      says exactly when the pick is in range for the option list rebuilt from the
      resized images, and SelectionOutOfRange otherwise. */
  ghost predicate ComposedAt(r: Result<Collage>, page: Size, images: seq<Size>, li: nat, scale: real, choice: int)
  {
    var avail := Available(page, PAGE_MARGIN);
    && |images| == 4 && li < 4 && scale >= 0.0
    && var sizes := ScaledSizes(images, li, scale, DEFAULT_EMPHASIS);
    && (r.Ok? <==> SelectOption(Options(sizes, li, avail.0, avail.1, IMAGE_PADDING), choice).Ok?)
    && (r.Ok? ==> Composed(r.value, page, images, li, scale, choice))
    && (r.Err? ==> r.error == SelectionOutOfRange)
  }

  /** `a4_image_collage_generator_with_dynamic_layouts.py` lines 167-241 at the scale
      the search found: resize (the large image always by 1.5 times the scale), rebuild
      the option list from the resized images, take the option the user picks, and
      arrange the images as it says. */
  method Compose(page: Size, images: seq<Size>, li: nat, scale: real, choice: int) returns (r: Result<Collage>)
    requires |images| == 4 && li < 4 && scale >= 0.0
    ensures ComposedAt(r, page, images, li, scale, choice)
  {
    var sizes := ResizeWithEmphasis(images, li, scale, DEFAULT_EMPHASIS);
    var avail := Available(page, PAGE_MARGIN);
    var layouts := GenerateLayoutOptions(sizes, li, avail.0, avail.1, IMAGE_PADDING);
    var selected := SelectOption(layouts, choice);
    if selected.Err? {
      return Err(SelectionOutOfRange);
    }
    var layout := selected.value;
    var arrangement := Arrange(page, sizes, li, layout);
    var c := Collage(page, sizes, layout, arrangement);
    ListedOptionFits(sizes, li, page, layout);
    r := Ok(c);
  }

  /** What `combine_images` promises once the request is valid, for orientation `o`:
      NoLayoutFits when no multiplier finds a layout; otherwise a scale among the
      samples, and a collage composed at that scale exactly when the pick is in range
      for the option list rebuilt from the resized images, SelectionOutOfRange when
      it is not. */
  ghost predicate SearchedAndComposed(r: Result<Collage>, images: seq<Size>, li: nat, o: Orientation, choice: int)
  {
    var p := ProblemFor(images, li, o);
    var avail := Available(A4Page(o), PAGE_MARGIN);
    && WellFormed(p)
    && (FirstFound(p, EMPHASES).Err? ==> r == Err(NoLayoutFits))
    && (FirstFound(p, EMPHASES).Ok? ==>
          var scale := FirstFound(p, EMPHASES).value.scale;
          0.0 < scale <= 2.0 && ComposedAt(r, A4Page(o), images, li, scale, choice))
  }

  /** `a4_image_collage_generator_with_dynamic_layouts.py` lines 111-241 after
      validation: the multiplier search, then Compose at the scale it found. */
  method SearchThenCompose(images: seq<Size>, li: nat, o: Orientation, choice: int) returns (r: Result<Collage>)
    requires |images| == 4 && li < 4
    requires forall i :: 0 <= i < |images| ==> images[i].height > 0
    ensures SearchedAndComposed(r, images, li, o, choice)
  {
    var page := A4Page(o);
    var avail := Available(page, PAGE_MARGIN);
    var p := Problem(images, li, avail.0, avail.1, IMAGE_PADDING);
    assert p == ProblemFor(images, li, o);
    FoundScaleSampled(p, EMPHASES);
    var found := FindBestLayout(p);
    if found.Err? {
      return Err(NoLayoutFits);
    }
    r := Compose(page, images, li, found.value.scale, choice);
  }

  /** `combine_images(img_paths, large_index, orientation)` on the images' sizes, with
      `choice` the number typed at the layout prompt. Validation comes first and
      fails fast; then the search and the composition. */
  method CombineImages(images: seq<Size>, largeIndex: int, orientation: string, choice: int)
    returns (r: Result<Collage>)
    requires forall i :: 0 <= i < |images| ==> images[i].height > 0
    ensures ValidateRequest(|images|, largeIndex, orientation).Err? ==>
              r == Err(ValidateRequest(|images|, largeIndex, orientation).error)
    ensures ValidateRequest(|images|, largeIndex, orientation).Ok? ==>
              0 <= largeIndex < 4 &&
              SearchedAndComposed(r, images, largeIndex, ValidateRequest(|images|, largeIndex, orientation).value, choice)
  {
    var v := ValidateRequest(|images|, largeIndex, orientation);
    if v.Err? {
      return Err(v.error);
    }
    r := SearchThenCompose(images, largeIndex as nat, v.value, choice);
  }
}
