# A4 collage layout solver

A model of the layout solver behind three collage scripts. The solver does the
integer and rational geometry that decides how large each image becomes and where
its top-left corner goes on an A4 page at 300 DPI. Decoding, resampling, pasting
and saving pixels are not part of it: an image is its `Size(width, height)` and a
placed image is a `Paste(image, x, y)`.

The three scripts:

- **Dynamic layouts** (`a4_image_collage_generator_with_dynamic_layouts.py`),
  for four images, one of which is emphasised. Modules `LayoutOptions`,
  `ScaleSearch` and `DynamicCollage`. The script:
  - builds up to three candidate layouts: large on top, large on the left, and a
    classic 2x2 grid;
  - keeps the candidates whose bounding box fits the available area, scores them,
    and sorts them stably by score, highest first;
  - sweeps a global scale over 0.1, 0.2, ..., 2.0 and keeps the first sample with
    the highest top score;
  - if no sample fits, retries with emphasis 1.4, 1.3, 1.2 and 1.1;
  - resizes the images (the emphasised one always by 1.5 times the scale), lets the
    user pick an option, and places the images.
- **Large plus three** (`a4_image_collage_generator_large_on_left_3_small_on_right.py`),
  module `LargeLeftCollage`. The scale comes from a closed formula, the minimum of
  two ratios. The orientation decides the arrangement:
  - portrait: the large image on top with a row of three below it;
  - landscape: the large image on the left with a column of three to its right.
- **Two over three** (`a5_image_collage_generator_above_2_below_3.py`), module
  `TwoOverThreeCollage`. It handles five images on a landscape page. Every image is
  fitted, aspect preserved, into one common cell. The cell is as wide as a
  bottom-row column and as high as a row. Two images form a centred top row and
  three form a centred bottom row, each image centred vertically in its row.

Shared modules:

- `Geometry`: page size, request validation, truncation, axes, the "small images"
  selection, and the inside and disjoint predicates.
- `Scaling`: the truncated resize by a per-image factor.
- `Placement`: a large image followed by a padded band of three. It serves both
  the dynamic script's large-top and large-left layouts and both orientations of
  the large-plus-three script.
- `Outcomes`: `Option`, `Result` and the failure kinds. The request checks (image
  count, large index, orientation), `NoLayoutFits`, the `IndexError` of an
  out-of-range pick and the large-plus-three script's division by a zero
  `max(...)` become an `Err`. The other exceptions the scripts can raise are
  listed under "Left out".
- `SmallestSample`: what the dynamic script's score implies for its scale sweep.

Loops that update state in the scripts are methods with loop invariants. Each is
proved against a function or predicate that states the result independently:

- the option list: `GenerateLayoutOptions` against `Options` and `Describes`;
- the scale sweep: `CalculateScaleFactors` against `Sweep` and `IsFirstBest`;
- the emphasis fallback: `FindBestLayout` against `FirstFound`;
- the resize loops: `ResizeWithEmphasis` and `ResizeAll`;
- the placement loops: `PlaceLargeThenBand`, `PlaceGrid`, `PlaceRow` and
  `PlaceRows` against `IsBandPlacement`, `IsGridPlacement`, `IsRowPlacement` and
  `IsTwoOverThree`.

## Model

| member | source | states |
|---|---|---|
| Geometry.MillimetresToPixels | a4_image_collage_generator_large_on_left_3_small_on_right.py:8-14 | the pixel count is `mm*dpi/25.4` truncated: `px*254 <= mm*dpi*10 < (px+1)*254` |
| Geometry.A4Page | a4_image_collage_generator_with_dynamic_layouts.py:86-87 | portrait is 2480 x 3507 pixels; landscape is the same pair swapped |
| Geometry.ValidateRequest | a4_image_collage_generator_with_dynamic_layouts.py:92-99 | each error, in the script's order, happens exactly when its check is the first to fail: count not 4, then index outside [0,4), then an orientation other than "portrait"/"landscape"; success exactly when all three pass |
| Geometry.Trunc | a4_image_collage_generator_large_on_left_3_small_on_right.py:64 | Python `int()`: for a non-negative value, the largest integer not above it; for a negative value, rounding toward zero |
| Geometry.ScaledBounds | a4_image_collage_generator_large_on_left_3_small_on_right.py:64 | each resized side is the scaled side rounded down: `new <= side*f < new + 1` |
| Geometry.ScaledMonotone | a4_image_collage_generator_with_dynamic_layouts.py:127-138 | resizing by a smaller non-negative factor gives a size no larger on either side, despite the truncation |
| Geometry.Smalls | a4_image_collage_generator_large_on_left_3_small_on_right.py:35 | the list without the large image has one element fewer, in input order: its j-th entry is input j before the large index and input j+1 from it on (`SmallIndex`), never the large one |
| Geometry.OffsetIsSumPlusPads | a4_image_collage_generator_large_on_left_3_small_on_right.py:79-81 | after k steps of `x += width + PADDING`, the offset is the sum of the first k extents plus k paddings |
| Geometry.OffsetMonotone | a4_image_collage_generator_large_on_left_3_small_on_right.py:79-81 | the stepping position never moves backwards |
| Geometry.PrefixMaxIsMaximum | a4_image_collage_generator_with_dynamic_layouts.py:11 | the running maximum bounds every earlier extent and is reached by one of them |
| Geometry.MaxAlongIsMaximum | a4_image_collage_generator_with_dynamic_layouts.py:11 | `max(...)` over the small images bounds every one of them and equals one of them |
| Scaling.ScaledSizes | a4_image_collage_generator_with_dynamic_layouts.py:168-174 | one resized size per input image |
| Scaling.ScaledSizesBounds | a4_image_collage_generator_with_dynamic_layouts.py:168-174 | image i becomes `(int(w*f), int(h*f))`, where f is `scale*emphasis` for the large image and `scale` for the rest |
| Scaling.ResizeWithEmphasis | a4_image_collage_generator_large_on_left_3_small_on_right.py:61-65 | the resize loop produces exactly the truncated sizes at each image's factor |
| LayoutOptions.InsertByScore | a4_image_collage_generator_with_dynamic_layouts.py:44 | inserting keeps every option and adds the new one (multiset) |
| LayoutOptions.SortedByScore | a4_image_collage_generator_with_dynamic_layouts.py:44 | the sort is a permutation of its input |
| LayoutOptions.InsertKeepsScoreDescending | a4_image_collage_generator_with_dynamic_layouts.py:44 | insertion keeps a highest-score-first list in that order |
| LayoutOptions.SortedIsScoreDescending | a4_image_collage_generator_with_dynamic_layouts.py:44 | `sort(key=score, reverse=True)` yields scores from highest to lowest |
| LayoutOptions.PrependKeepsOrder | a4_image_collage_generator_with_dynamic_layouts.py:44 | an option that precedes every element of an ordered list can head it |
| LayoutOptions.InsertKeepsOrder | a4_image_collage_generator_with_dynamic_layouts.py:44 | inserting an option declared after all others keeps the order "score descending, declaration order among equal scores" |
| LayoutOptions.SortIsStable | a4_image_collage_generator_with_dynamic_layouts.py:43-44 | the sort is stable: among equal scores, large-top comes before large-left, which comes before the grid |
| LayoutOptions.BestOfIsMaximum | a4_image_collage_generator_with_dynamic_layouts.py:44-46 | the first-best option is one of the options and scores at least as high as each of them |
| LayoutOptions.SortedHeadIsBestOf | a4_image_collage_generator_with_dynamic_layouts.py:43-46 | the sorted list is empty exactly when no option was kept; otherwise its head is the first option with the highest score |
| LayoutOptions.FittingBoxScoresNonNegative | a4_image_collage_generator_with_dynamic_layouts.py:13-18 | a box that fits the available area scores `avail_w*avail_h - total_w*total_h >= 0` |
| LayoutOptions.SortFacts | a4_image_collage_generator_with_dynamic_layouts.py:43-46 | sorting the candidates keeps their number and their members, no name twice, and the order above |
| LayoutOptions.SelectionSelects | a4_image_collage_generator_with_dynamic_layouts.py:8-41 | appending the kept options in declaration order keeps exactly the feasible ones, each once, by rank |
| LayoutOptions.ReorderedSelectionListsExactly | a4_image_collage_generator_with_dynamic_layouts.py:43-46 | any duplicate-free reordering of the kept options that is score-descending and stable lists exactly the kept options |
| LayoutOptions.SortedSelectionListsExactly | a4_image_collage_generator_with_dynamic_layouts.py:43-46 | the sorted kept options list exactly the feasible candidates, highest score first, ties in declaration order |
| LayoutOptions.CandidatesAreSelection | a4_image_collage_generator_with_dynamic_layouts.py:6-41 | large-top is appended iff `max(L.w, sum small w + 2*pad) <= avail_w` and `L.h + max small h + 3*pad <= avail_h`; large-left is the mirror; the grid iff every image fits `((avail_w-pad)/2, (avail_h-pad)/2)` |
| LayoutOptions.KeptScoresNonNegative | a4_image_collage_generator_with_dynamic_layouts.py:11-30 | a large-top or large-left option that is kept has a score of at least 0 |
| LayoutOptions.ListedScoresNonNegative | a4_image_collage_generator_with_dynamic_layouts.py:18-40 | every listed option has a score of at least 0 |
| LayoutOptions.OptionsDescribed | a4_image_collage_generator_with_dynamic_layouts.py:6-46 | the option list has at most three entries, each name at most once. Each candidate is present iff its feasibility test holds, with its score. Scores are non-negative and descending, with declaration order among ties |
| LayoutOptions.HeadHasBestScore | a4_image_collage_generator_with_dynamic_layouts.py:43-46 | `layouts[0]` has the highest score of the list |
| LayoutOptions.GenerateLayoutOptions | a4_image_collage_generator_with_dynamic_layouts.py:6-46 | the append-then-sort procedure returns exactly the option list described above |
| ScaleSearch.SampleScale | a4_image_collage_generator_with_dynamic_layouts.py:125 | the k-th sample `(k+1)/10` is positive and at most 2.0 for the twenty samples |
| ScaleSearch.SweepNone | a4_image_collage_generator_with_dynamic_layouts.py:122-146 | the sweep ends with no layout iff no sample had an option, and then keeps scale 1.0 |
| ScaleSearch.SweepFirstMaximum | a4_image_collage_generator_with_dynamic_layouts.py:142-144 | replacing only on a strictly greater score yields the first sample whose top score is maximal over all samples, with that sample's scale |
| ScaleSearch.SweepIsFirstBest | a4_image_collage_generator_with_dynamic_layouts.py:122-146 | the sweep's result is the first best: none and scale 1.0 exactly when nothing fits, otherwise the first maximum |
| ScaleSearch.SampleTop | a4_image_collage_generator_with_dynamic_layouts.py:126-140 | one sample scales the images (the large one by the emphasis too) and takes the head of their option list |
| ScaleSearch.CalculateScaleFactors | a4_image_collage_generator_with_dynamic_layouts.py:112-146 | the loop returns `(best_scale, best_layout)` equal to the sweep over the twenty samples, hence the first best |
| DynamicCollage.AvailableSwapsWithOrientation | a4_image_collage_generator_with_dynamic_layouts.py:86-87 | landscape swaps the available width and height of portrait, the available area (`Available`, lines 108-109) being the page less one margin on each side |
| DynamicCollage.FirstFoundFails | a4_image_collage_generator_with_dynamic_layouts.py:148-159 | the search over the emphases fails exactly when the sweep finds no layout for any of them, and then the error is `NoLayoutFits` |
| DynamicCollage.FirstSuccessIndex | a4_image_collage_generator_with_dynamic_layouts.py:148-156 | a successful search reports the position of the first emphasis whose sweep finds a layout; every earlier emphasis found none, and the reported scale and layout are that sweep's |
| DynamicCollage.FirstFoundIsFirstSuccess | a4_image_collage_generator_with_dynamic_layouts.py:148-156 | the emphases are tried in order and the first that finds a layout is kept, with its sweep's scale and layout; earlier ones all failed |
| DynamicCollage.FoundScaleSampled | a4_image_collage_generator_with_dynamic_layouts.py:125-159 | a successful search reports a scale in (0, 2] |
| DynamicCollage.FirstFoundStep | a4_image_collage_generator_with_dynamic_layouts.py:151-155 | one loop step: an emphasis that finds nothing passes the search on to the rest; one that finds a layout ends it with that emphasis |
| DynamicCollage.FindBestLayout | a4_image_collage_generator_with_dynamic_layouts.py:148-159 | the `for`/`break` over 1.5, then 1.4, 1.3, 1.2, 1.1, returns the first success, or the error |
| DynamicCollage.SelectOption | a4_image_collage_generator_with_dynamic_layouts.py:73-74 | `layouts[int(input) - 1]` with Python indexing: entries 1..n pick the n options; 0 and negatives count from the end; anything else is an `IndexError` |
| DynamicCollage.PlaceGrid | a4_image_collage_generator_with_dynamic_layouts.py:220-241 | the large image goes to the top-left quadrant and the others, in input order, to quadrants 1 to 3; each image is pasted once |
| DynamicCollage.GridPlacementSound | a4_image_collage_generator_with_dynamic_layouts.py:222-230 | when every image fits a cell, the grid keeps each image inside the margins with no overlap |
| DynamicCollage.Arrange | a4_image_collage_generator_with_dynamic_layouts.py:188-241 | the option's name picks the large-top band, the large-left band or the grid. Each image is pasted once, band images never overlap, and every arrangement is inside the margins when its sizes fit |
| DynamicCollage.ListedOptionFits | a4_image_collage_generator_with_dynamic_layouts.py:11-35 | an option in the list has sizes for which its arrangement stays within the page margins |
| DynamicCollage.Compose | a4_image_collage_generator_with_dynamic_layouts.py:167-241 | at a given scale: resize with the fixed 1.5 emphasis, rebuild the option list, take the user's pick and arrange it. The result is `Ok` exactly when the pick is in range for the rebuilt list, and then the images are pasted once each, inside the margins, without overlap; otherwise it is `SelectionOutOfRange` |
| DynamicCollage.SearchThenCompose | a4_image_collage_generator_with_dynamic_layouts.py:111-241 | `NoLayoutFits` when every emphasis fails; otherwise the first successful emphasis's scale, in (0, 2], and the collage composed at that scale, `Ok` exactly when the pick is in range and `SelectionOutOfRange` otherwise |
| DynamicCollage.CombineImages | a4_image_collage_generator_with_dynamic_layouts.py:76-241 | validation errors first, in the script's order. Then `NoLayoutFits` when every emphasis fails. Otherwise the collage composed at the first successful search's scale exactly when the pick is in range for the rebuilt list, and `SelectionOutOfRange` when it is not |
| Placement.CentredGaps | a4_image_collage_generator_large_on_left_3_small_on_right.py:72 | `(total - extent) // 2` leaves gaps before and after that differ by at most one pixel |
| Placement.BandSteps | a4_image_collage_generator_large_on_left_3_small_on_right.py:76-81 | consecutive small images are one padding apart and the band spans its total `sum + 2*PADDING` |
| Placement.BandDisjoint | a4_image_collage_generator_large_on_left_3_small_on_right.py:69-95 | no two placed images overlap |
| Placement.BandInside | a4_image_collage_generator_with_dynamic_layouts.py:188-218 | when the sizes fit the area the option check tests, every image lies within the margins |
| Placement.BandPlacementSound | a4_image_collage_generator_with_dynamic_layouts.py:188-218 | each image is pasted once, none overlap, and all are inside the margins when the sizes fit |
| Placement.PasteBand | a4_image_collage_generator_large_on_left_3_small_on_right.py:76-81 | the band loop pastes small image j at the band start plus the extents of the images before it and j paddings, in input order |
| Placement.PlaceLargeThenBand | a4_image_collage_generator_large_on_left_3_small_on_right.py:69-95 | the large image is centred along the band at the margin. The smalls, in input order, start at the centred band start one padding past it, each step adding extent plus padding. Each image once, no overlap |
| LargeLeftCollage.StackDemand | a4_image_collage_generator_large_on_left_3_small_on_right.py:45-47 | `total_h` (or `total_w`) is at least the padding, so the first ratio never divides by zero |
| LargeLeftCollage.LineDemand | a4_image_collage_generator_large_on_left_3_small_on_right.py:48 | `max(L, sum/3)` is non-negative and at least the large image's extent along the band |
| LargeLeftCollage.LineDemandZero | a4_image_collage_generator_large_on_left_3_small_on_right.py:48 | the second divisor is zero exactly when all four images have a zero extent along the band |
| LargeLeftCollage.ClosedFormScale | a4_image_collage_generator_large_on_left_3_small_on_right.py:37-58 | for a non-zero `max(...)`, the scale is at most `available_across / total` and at most `available_along / max(L, sum/3)`, equals one of the two, and is positive |
| LargeLeftCollage.EqualSquaresScale | a4_image_collage_generator_large_on_left_3_small_on_right.py:37-48 | for four 1000 x 1000 images in portrait, `total_h` is 2530, `max(...)` is 1000, and `min` picks the ratio 2997/2530 |
| LargeLeftCollage.EqualSquaresSmallSizes | a4_image_collage_generator_large_on_left_3_small_on_right.py:60-66 | at that scale each small image truncates to 1184 x 1184, so the row with its two paddings is 3612 pixels long |
| LargeLeftCollage.EqualSquaresBandOffPage | a4_image_collage_generator_large_on_left_3_small_on_right.py:37-95 | for four 1000 x 1000 images in portrait: the line demand is 1000 and the scale 2997/2530. Each small image becomes 1184 x 1184 and the centred row starts at x = -566. Any band placement of those sizes puts its first small image at x = -566 and ends the row at x = 3046, 566 pixels past the page edge, so it is not inside the margins |
| LargeLeftCollage.Place | a4_image_collage_generator_large_on_left_3_small_on_right.py:69-95 | portrait: large centred on top and a centred row below; landscape: the transpose. Each image once, no overlap |
| LargeLeftCollage.CombineImages | a4_image_collage_generator_large_on_left_3_small_on_right.py:19-95 | validation errors in the script's order. Then the `ZeroDivisionError` exactly when `max(...)` is zero. Otherwise the page for the orientation, the closed-form scale, the truncated resize (large by 1.5 times) and the band placement |
| SmallestSample.ScaledSizesMonotone | a4_image_collage_generator_with_dynamic_layouts.py:127-138 | a smaller sample scale gives every image a size no larger on either side |
| SmallestSample.BoxesMonotone | a4_image_collage_generator_with_dynamic_layouts.py:11-23 | smaller images give large-top and large-left bounding boxes no larger on either side |
| SmallestSample.SmallerBoxFitsAndScores | a4_image_collage_generator_with_dynamic_layouts.py:13-29 | a box no larger than one that fits also fits, and scores at least as high, since the score is the available area minus the box area |
| SmallestSample.CandidatesMonotone | a4_image_collage_generator_with_dynamic_layouts.py:6-36 | for every option kept for larger images, smaller images keep an option scoring at least as high |
| SmallestSample.TopAtMonotone | a4_image_collage_generator_with_dynamic_layouts.py:126-141 | when a sample has an option, every smaller sample has one, with a top score at least as high |
| SmallestSample.SearchSettlesOnFirstSample | a4_image_collage_generator_with_dynamic_layouts.py:122-146 | the sweep returns the first sample, scale 0.1, with its top option whenever that sample has one; otherwise no layout and scale 1.0 |
| SmallestSample.FoundScaleIsFirstSample | a4_image_collage_generator_with_dynamic_layouts.py:148-159 | the search fails exactly when no emphasis has an option at scale 0.1; a success always reports scale 0.1 and the first emphasis with such an option |
| TwoOverThreeCollage.CellWidth | a5_image_collage_generator_above_2_below_3.py:42-44 | the column width of `cols` columns (`ColumnWidth`) with `cols - 1` paddings fills the available width exactly; `min(width_top, width_bottom)` is one of the two column widths and fits both rows: `2w + pad <= avail` and `3w + 2 pad <= avail` |
| TwoOverThreeCollage.CellDimensions | a5_image_collage_generator_above_2_below_3.py:7-45 | two rows of `RowHeight` and one padding fill the available height; the page is 3507 x 2480, the available area 3147 x 2120, the cell 1009 x 1030 |
| TwoOverThreeCollage.FloorAspect | a5_image_collage_generator_above_2_below_3.py:52-57 | after truncating both sides, the aspect ratio stays within one pixel in each direction |
| TwoOverThreeCollage.WidthBoundQuotient | a5_image_collage_generator_above_2_below_3.py:52-54 | for a wider image, `img_width / img_ratio` is below the cell height and keeps the ratio |
| TwoOverThreeCollage.HeightBoundProduct | a5_image_collage_generator_above_2_below_3.py:55-57 | otherwise `img_height * img_ratio` is within the cell width and keeps the ratio |
| TwoOverThreeCollage.WidthBoundFits | a5_image_collage_generator_above_2_below_3.py:52-54 | the width-bound branch fits the cell, with `new_width = int(img_width)` |
| TwoOverThreeCollage.HeightBoundFits | a5_image_collage_generator_above_2_below_3.py:55-57 | the height-bound branch fits the cell, with `new_height = int(img_height)` |
| TwoOverThreeCollage.FitWithin | a5_image_collage_generator_above_2_below_3.py:50-57 | the new size is within the cell. The binding side is the truncated cell side: width when the image is relatively wider, height otherwise. The aspect ratio is kept to within a pixel |
| TwoOverThreeCollage.ResizeAll | a5_image_collage_generator_above_2_below_3.py:48-58 | the loop fits every image into the common cell, in order |
| TwoOverThreeCollage.PlaceRow | a5_image_collage_generator_above_2_below_3.py:69-74 | a row starts at `(page_w - (sum w + (n-1) pad)) // 2`, steps by width plus padding, and each image's y is `int(row_y + (row_height - h) / 2)` |
| TwoOverThreeCollage.PlaceRows | a5_image_collage_generator_above_2_below_3.py:64-84 | images 0 and 1 are a row at y = MARGIN; images 2, 3 and 4 are a row, centred on its own, at `MARGIN + row_height + PADDING` |
| TwoOverThreeCollage.CentredInRow | a5_image_collage_generator_above_2_below_3.py:72-73 | an image no taller than the row starts less than a pixel above the row and ends within it |
| TwoOverThreeCollage.RowInsideMargins | a5_image_collage_generator_above_2_below_3.py:69-74 | a row whose total width fits between the margins keeps every image between them |
| TwoOverThreeCollage.RowSeparated | a5_image_collage_generator_above_2_below_3.py:79-84 | images of a row are at least one padding apart |
| TwoOverThreeCollage.FitsCellPixels | a5_image_collage_generator_above_2_below_3.py:45 | fitted images are at most 1009 pixels wide and 1030 high |
| TwoOverThreeCollage.TopRowPlaced | a5_image_collage_generator_above_2_below_3.py:68-74 | top-row images are inside the margins, side by side, and end at or above y = 1210 |
| TwoOverThreeCollage.BottomRowPlaced | a5_image_collage_generator_above_2_below_3.py:77-84 | bottom-row images are inside the margins, side by side, and start at or below y = 1270 |
| TwoOverThreeCollage.TwoOverThreeSound | a5_image_collage_generator_above_2_below_3.py:64-84 | each of the five images is pasted once, all inside the margins, no two overlapping |
| TwoOverThreeCollage.CombineImagesEqual | a5_image_collage_generator_above_2_below_3.py:15-84 | an error exactly when the count is not 5. Otherwise the landscape page, every image fitted into the cell, and the two-over-three placement, inside the margins without overlap |

## Left out

- Image I/O: opening, resampling, pasting, saving and re-saving images. The model
  computes sizes and anchors only.
- The `os.path.isfile` checks. The model has no file system, so `FileNotFoundError`
  is not an outcome.
- Previews, printed messages and the `__main__` blocks. The matplotlib previews of
  `display_layout_options` are dropped. The `input()` answer becomes the `choice`
  parameter of `DynamicCollage.CombineImages`. A choice outside the list is modelled
  as the `IndexError` it raises (`SelectionOutOfRange`), not excluded by a
  precondition. That includes an empty list rebuilt from the 1.5-times sizes.
- Floating point: `np.linspace`, `/ 25.4`, `/ 2`, `/ 3` and the aspect ratios are
  exact reals or integers. The page size is `mm * dpi * 10 / 254` in integers.
- Page height: the code truncates 297 mm at 300 dpi to 3507 pixels, and so does
  the model.
- Large-top box: its height uses three paddings (`3 * padding`), as the code does,
  although only one padding separates the large image from the row below.
- Zero-height images: the dynamic and two-over-three scripts raise
  `ZeroDivisionError` when they compute an aspect ratio. Their models require
  positive heights instead of modelling that exception. (The large-plus-three
  script computes no aspect ratio; its one possible division by zero is modelled.)
- Other exceptions: the `FileNotFoundError` of a missing path and the `ValueError`
  of `int(input())` on a non-numeric answer are not `Err` outcomes. The choice is
  already an integer in the model.
- DynamicCollage.CombineImages: the final resize always uses 1.5, as the code
  does, even when the search succeeded only with a smaller fallback emphasis. The
  rebuilt list may then be empty, and any pick fails.
- Grid anchors: the classic grid computes non-integer coordinates. The model keeps
  them as reals (`GridPaste`). It does not model whether `paste` accepts them;
  Pillow may reject a float box with a `TypeError`.
- LargeLeftCollage.CombineImages: states no within-margin guarantee, because the
  script does not keep one. It reserves margins and reports an "A4-safe layout",
  but checks nothing. Its along-band divisor `max(L, sum / 3)` uses the unscaled
  large extent and a third of the small sum, while the band is laid out at full
  width. Four equal squares already put the band off the page:
  `LargeLeftCollage.EqualSquaresBandOffPage` proves that for four 1000 x 1000
  images in portrait the row starts at x = -566 and ends 566 pixels past the
  right edge. Placement is still proved overlap-free.
- Score: the model keeps the formula as written. Because it rewards smaller
  bounding boxes, the sweep never moves past its first sample: whenever any
  sample has an option, the search reports scale 0.1
  (`SmallestSample.SearchSettlesOnFirstSample`).
- TwoOverThreeCollage.FitWithin: a very thin image can truncate to a zero side,
  as `int()` does in the code. Whether the resize then accepts a zero side is
  image I/O, which the model leaves out.
