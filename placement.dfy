/** Placement of one large image followed by a band of the three others.

    With `a == Horizontal` this is "large on top, three below": the large image is
    centred horizontally at y = margin and the small images form a row, centred
    horizontally, `pad` below it. With `a == Vertical` it is the transpose, "large on
    the left, three on the right". The dynamic-layout script uses it for its
    large-top and large-left options, the large-plus-three script for portrait and
    landscape. */
module Placement {
  import opened Geometry

  /** Start of the band along `a`: `(page - (sum of small extents + 2 * pad)) // 2`. */
  function BandStart(page: Size, sizes: seq<Size>, li: nat, pad: nat, a: Axis): int
    requires |sizes| == 4 && li < 4
  {
    (Along(page, a) - (SumAlong(Smalls(sizes, li), a) + 2 * pad)) / 2
  }

  /** The sizes leave the large image and the band within `margin` of the page edges. */
  predicate BandFits(page: Size, sizes: seq<Size>, li: nat, margin: int, pad: nat, a: Axis)
    requires |sizes| == 4 && li < 4
  {
    var smalls := Smalls(sizes, li);
    Along(sizes[li], a) <= Along(page, a) - 2 * margin &&
    SumAlong(smalls, a) + 2 * pad <= Along(page, a) - 2 * margin &&
    Across(sizes[li], a) + pad + MaxAlong(smalls, Other(a)) <= Across(page, a) - 2 * margin
  }

  lemma SeparatedAlong(p: Paste, sp: Size, q: Paste, sq: Size, a: Axis)
    requires AlongOf(p, a) + Along(sp, a) <= AlongOf(q, a)
    ensures Disjoint(p, sp, q, sq) && Disjoint(q, sq, p, sp)
  {
  }

  /** A centred extent: `start = (total - extent) // 2` leaves gaps before and after
      it that differ by at most one pixel, the larger one after. */
  lemma CentredGaps(total: int, extent: int)
    ensures var start := (total - extent) / 2;
            0 <= (total - (start + extent)) - start <= 1
  {
  }

  /** The pastes put the large image first, centred along `a` at `margin`, and the
      three small images, in input order, on one line `pad` past the large image,
      the k-th starting after the extents of the ones before it plus one `pad` each. */
  ghost predicate IsBandPlacement(pastes: seq<Paste>, page: Size, sizes: seq<Size>, li: nat,
                                  margin: int, pad: nat, a: Axis)
    requires |sizes| == 4 && li < 4
  {
    var smalls := Smalls(sizes, li);
    |pastes| == 4 &&
    pastes[0] == At(li, a, (Along(page, a) - Along(sizes[li], a)) / 2, margin) &&
    forall k :: 1 <= k < 4 ==>
      pastes[k] == At(SmallIndex(li, k - 1), a,
                      BandStart(page, sizes, li, pad, a) + Offset(smalls, k - 1, a, pad),
                      margin + Across(sizes[li], a) + pad)
  }

  /** Consecutive band images are `pad` apart and the band spans exactly its total extent. */
  lemma BandSteps(pastes: seq<Paste>, page: Size, sizes: seq<Size>, li: nat, margin: int, pad: nat, a: Axis)
    requires |sizes| == 4 && li < 4
    requires IsBandPlacement(pastes, page, sizes, li, margin, pad, a)
    ensures forall k :: 1 <= k < 4 ==> sizes[pastes[k].image] == Smalls(sizes, li)[k - 1]
    ensures forall k :: 1 <= k < 3 ==>
              AlongOf(pastes[k + 1], a) == AlongOf(pastes[k], a) + Along(sizes[pastes[k].image], a) + pad
    ensures AlongOf(pastes[3], a) + Along(sizes[pastes[3].image], a)
              == AlongOf(pastes[1], a) + SumAlong(Smalls(sizes, li), a) + 2 * pad
  {
    var smalls := Smalls(sizes, li);
    OffsetIsSumPlusPads(smalls, 3, a, pad);
  }

  /** No two images of a band placement overlap. */
  lemma BandDisjoint(pastes: seq<Paste>, page: Size, sizes: seq<Size>, li: nat, margin: int, pad: nat, a: Axis)
    requires |sizes| == 4 && li < 4
    requires IsBandPlacement(pastes, page, sizes, li, margin, pad, a)
    ensures PairwiseDisjoint(pastes, sizes)
  {
    BandSteps(pastes, page, sizes, li, margin, pad, a);
    forall i, j | 0 <= i < j < 4
      ensures Disjoint(pastes[i], sizes[pastes[i].image], pastes[j], sizes[pastes[j].image])
    {
      if i == 0 {
        // the large image ends `pad` before the band, across `a`
        SeparatedAlong(pastes[0], sizes[li], pastes[j], sizes[pastes[j].image], Other(a));
      } else {
        // band images follow each other along `a`
        assert AlongOf(pastes[i + 1], a) == AlongOf(pastes[i], a) + Along(sizes[pastes[i].image], a) + pad;
        if j == i + 2 {
          assert AlongOf(pastes[j], a) == AlongOf(pastes[i + 1], a) + Along(sizes[pastes[i + 1].image], a) + pad;
        }
        SeparatedAlong(pastes[i], sizes[pastes[i].image], pastes[j], sizes[pastes[j].image], a);
      }
    }
  }

  /** When the sizes satisfy BandFits, every image of a band placement is inside the margins. */
  lemma BandInside(pastes: seq<Paste>, page: Size, sizes: seq<Size>, li: nat, margin: int, pad: nat, a: Axis)
    requires |sizes| == 4 && li < 4
    requires IsBandPlacement(pastes, page, sizes, li, margin, pad, a)
    requires BandFits(page, sizes, li, margin, pad, a)
    ensures AllInside(pastes, sizes, page, margin)
  {
    var smalls := Smalls(sizes, li);
    BandSteps(pastes, page, sizes, li, margin, pad, a);
    MaxAlongIsMaximum(smalls, Other(a));
    forall k | 0 <= k < 4
      ensures Inside(pastes[k], sizes[pastes[k].image], page, margin)
    {
      if k > 0 {
        OffsetMonotone(smalls, k, 3, a, pad);
        OffsetIsSumPlusPads(smalls, 3, a, pad);
        assert Across(sizes[pastes[k].image], a) <= MaxAlong(smalls, Other(a));
      }
    }
  }

  /** What a band placement guarantees: each image pasted once, no overlaps, and
      everything inside the margins whenever the sizes satisfy BandFits. */
  lemma BandPlacementSound(pastes: seq<Paste>, page: Size, sizes: seq<Size>, li: nat,
                           margin: int, pad: nat, a: Axis)
    requires |sizes| == 4 && li < 4
    requires IsBandPlacement(pastes, page, sizes, li, margin, pad, a)
    ensures PastesEachOnce(pastes, 4)
    ensures PairwiseDisjoint(pastes, sizes)
    ensures BandFits(page, sizes, li, margin, pad, a) ==> AllInside(pastes, sizes, page, margin)
  {
    BandDisjoint(pastes, page, sizes, li, margin, pad, a);
    if BandFits(page, sizes, li, margin, pad, a) {
      BandInside(pastes, page, sizes, li, margin, pad, a);
    }
  }

  /** The band loop: step along `a` from `start`, pasting each small image at `across`
      and advancing by its extent plus `pad`. */
  method PasteBand(smalls: seq<Size>, li: nat, a: Axis, start: int, across: int, pad: nat)
    returns (band: seq<Paste>)
    ensures |band| == |smalls|
    ensures forall j {:trigger band[j]} :: 0 <= j < |smalls| ==>
              band[j] == At(SmallIndex(li, j), a, start + Offset(smalls, j, a, pad), across)
  {
    band := [];
    var along := start;
    var k := 0;
    while k < |smalls|
      invariant 0 <= k <= |smalls|
      invariant |band| == k
      invariant forall j {:trigger band[j]} :: 0 <= j < k ==>
                  band[j] == At(SmallIndex(li, j), a, start + Offset(smalls, j, a, pad), across)
      invariant along == start + Offset(smalls, k, a, pad)
    {
      band := band + [At(SmallIndex(li, k), a, along, across)];
      along := along + Along(smalls[k], a) + pad;
      k := k + 1;
    }
  }

  /** The placement: paste the large image, then the band of small images beside it
      across `a`. */
  method PlaceLargeThenBand(page: Size, sizes: seq<Size>, li: nat, margin: int, pad: nat, a: Axis)
    returns (pastes: seq<Paste>)
    requires |sizes| == 4 && li < 4
    ensures IsBandPlacement(pastes, page, sizes, li, margin, pad, a)
    ensures PastesEachOnce(pastes, 4)
    ensures PairwiseDisjoint(pastes, sizes)
    ensures BandFits(page, sizes, li, margin, pad, a) ==> AllInside(pastes, sizes, page, margin)
  {
    var large := sizes[li];
    var smalls := Smalls(sizes, li);
    var start := (Along(page, a) - (SumAlong(smalls, a) + 2 * pad)) / 2;
    var band := PasteBand(smalls, li, a, start, margin + Across(large, a) + pad, pad);
    pastes := [At(li, a, (Along(page, a) - Along(large, a)) / 2, margin)] + band;
    forall k | 1 <= k < 4
      ensures pastes[k] == band[k - 1]
    {
    }
    BandPlacementSound(pastes, page, sizes, li, margin, pad, a);
  }
}
