/** How the score steers the scale search of the dynamic-layout script. The score
    of a candidate is the available area less its bounding box, so shrinking the
    images never removes a candidate and never lowers a score. The sweep therefore
    settles on its first sample, 0.1, whenever any sample has an option at all. */
module SmallestSample {
  import opened Outcomes
  import opened Geometry
  import opened Scaling
  import opened LayoutOptions
  import opened ScaleSearch
  import opened DynamicCollage

  /** Every side of an image in `a` is at most the same side of the image at the
      same position in `b`. */
  predicate NoLarger(a: seq<Size>, b: seq<Size>)
  {
    |a| == |b| &&
    forall i :: 0 <= i < |a| ==> a[i].width <= b[i].width && a[i].height <= b[i].height
  }

  lemma FactorMonotone(i: nat, li: nat, s: real, t: real, emphasis: real)
    requires 0.0 <= s <= t && 0.0 <= emphasis
    ensures 0.0 <= FactorFor(i, li, s, emphasis) <= FactorFor(i, li, t, emphasis)
  {
    FactorNonNegative(i, li, s, emphasis);
    if i == li {
      ScaleLe(emphasis, s, t);
    }
  }

  /** A smaller global scale gives every image sides no larger. */
  lemma ScaledSizesMonotone(images: seq<Size>, li: nat, s: real, t: real, emphasis: real)
    requires 0.0 <= s <= t && 0.0 <= emphasis
    ensures NoLarger(ScaledSizes(images, li, s, emphasis), ScaledSizes(images, li, t, emphasis))
  {
    var a, b := ScaledSizes(images, li, s, emphasis), ScaledSizes(images, li, t, emphasis);
    forall i | 0 <= i < |images|
      ensures a[i].width <= b[i].width && a[i].height <= b[i].height
    {
      FactorMonotone(i, li, s, t, emphasis);
      ScaledMonotone(images[i], FactorFor(i, li, s, emphasis), FactorFor(i, li, t, emphasis));
    }
  }

  lemma SmallsNoLarger(a: seq<Size>, b: seq<Size>, li: nat)
    requires NoLarger(a, b) && li < |a|
    ensures NoLarger(Smalls(a, li), Smalls(b, li))
  {
  }

  lemma AlongNoLarger(a: seq<Size>, b: seq<Size>, i: nat, ax: Axis)
    requires NoLarger(a, b) && i < |a|
    ensures Along(a[i], ax) <= Along(b[i], ax)
  {
  }

  lemma {:induction false} PrefixSumMonotone(a: seq<Size>, b: seq<Size>, k: nat, ax: Axis)
    requires NoLarger(a, b) && k <= |a|
    ensures PrefixSum(a, k, ax) <= PrefixSum(b, k, ax)
  {
    if k > 0 {
      PrefixSumMonotone(a, b, k - 1, ax);
      AlongNoLarger(a, b, k - 1, ax);
    }
  }

  lemma MaxAlongMonotone(a: seq<Size>, b: seq<Size>, ax: Axis)
    requires NoLarger(a, b) && |a| > 0
    ensures MaxAlong(a, ax) <= MaxAlong(b, ax)
  {
    MaxAlongIsMaximum(a, ax);
    MaxAlongIsMaximum(b, ax);
    var i :| 0 <= i < |a| && Along(a[i], ax) == MaxAlong(a, ax);
    AlongNoLarger(a, b, i, ax);
  }

  /** Both bounding boxes of smaller images are no larger on either side. */
  lemma BoxesMonotone(a: seq<Size>, b: seq<Size>, li: nat, pad: nat)
    requires |a| == 4 && li < 4 && NoLarger(a, b)
    ensures var (ta, tb) := (LargeTopBox(a, li, pad), LargeTopBox(b, li, pad));
            0 <= ta.0 <= tb.0 && 0 <= ta.1 <= tb.1
    ensures var (la, lb) := (LargeLeftBox(a, li, pad), LargeLeftBox(b, li, pad));
            0 <= la.0 <= lb.0 && 0 <= la.1 <= lb.1
  {
    var sa, sb := Smalls(a, li), Smalls(b, li);
    SmallsNoLarger(a, b, li);
    PrefixSumMonotone(sa, sb, 3, Horizontal);
    PrefixSumMonotone(sa, sb, 3, Vertical);
    MaxAlongMonotone(sa, sb, Horizontal);
    MaxAlongMonotone(sa, sb, Vertical);
  }

  /** A box no larger on either side still fits and scores at least as high. */
  lemma SmallerBoxFitsAndScores(small: (int, int), big: (int, int), availWidth: int, availHeight: int)
    requires 0 <= small.0 <= big.0 && 0 <= small.1 <= big.1
    requires BoxFits(big, availWidth, availHeight)
    ensures BoxFits(small, availWidth, availHeight)
    ensures BoxScore(small, availWidth, availHeight) >= BoxScore(big, availWidth, availHeight)
  {
    MulMonotone(small.0, small.1, big.0, big.1);
  }

  /** Whatever candidate the larger images have, the smaller images have a candidate
      scoring at least as high. */
  lemma CandidatesMonotone(a: seq<Size>, b: seq<Size>, li: nat, availWidth: int, availHeight: int, pad: nat, x: LayoutOption)
    requires |a| == 4 && li < 4 && NoLarger(a, b)
    requires x in Candidates(b, li, availWidth, availHeight, pad)
    ensures exists y :: y in Candidates(a, li, availWidth, availHeight, pad) && y.score >= x.score
  {
    var ca := Candidates(a, li, availWidth, availHeight, pad);
    BoxesMonotone(a, b, li, pad);
    if x in TopPart(b, li, availWidth, availHeight, pad) {
      SmallerBoxFitsAndScores(LargeTopBox(a, li, pad), LargeTopBox(b, li, pad), availWidth, availHeight);
      assert TopOption(a, li, availWidth, availHeight, pad) in ca;
    } else if x in LeftPart(b, li, availWidth, availHeight, pad) {
      SmallerBoxFitsAndScores(LargeLeftBox(a, li, pad), LargeLeftBox(b, li, pad), availWidth, availHeight);
      assert LeftOption(a, li, availWidth, availHeight, pad) in ca;
    } else {
      assert GridOption in ca;
    }
  }

  /** An earlier sample has an option whenever a later one does, and its top score
      is at least as high. */
  lemma TopAtMonotone(p: Problem, emphasis: real, j: nat, k: nat)
    requires WellFormed(p) && emphasis >= 0.0 && j <= k
    requires TopAt(p, emphasis, k).Some?
    ensures TopAt(p, emphasis, j).Some?
    ensures TopAt(p, emphasis, j).value.score >= TopAt(p, emphasis, k).value.score
  {
    var sj, sk := SampleSizes(p, emphasis, j), SampleSizes(p, emphasis, k);
    ScaledSizesMonotone(p.images, p.li, SampleScale(j), SampleScale(k), emphasis);
    var cj := Candidates(sj, p.li, p.availWidth, p.availHeight, p.pad);
    var ck := Candidates(sk, p.li, p.availWidth, p.availHeight, p.pad);
    BestOfIsMaximum(ck);
    CandidatesMonotone(sj, sk, p.li, p.availWidth, p.availHeight, p.pad, BestOf(ck));
    var y :| y in cj && y.score >= BestOf(ck).score;
    BestOfIsMaximum(cj);
  }

  /** `calculate_scale_factors(large_scale=e)` returns the first sample, scale 0.1,
      with its top option whenever that sample has one, and `(1.0, None)` otherwise:
      no later sample can score strictly higher, and none has an option when the
      first has none. */
  lemma SearchSettlesOnFirstSample(p: Problem, emphasis: real)
    requires WellFormed(p) && emphasis >= 0.0
    ensures SearchWith(p, emphasis) ==
              if TopAt(p, emphasis, 0).Some? then Best(SampleScale(0), TopAt(p, emphasis, 0))
              else Best(1.0, None)
    ensures SampleScale(0) == 0.1
  {
    var tops := Tops(p, emphasis, SAMPLES);
    SweepNone(tops);
    if Sweep(tops).layout.Some? {
      var k := SweepFirstMaximum(tops);
      TopAtMonotone(p, emphasis, 0, k);
      assert k == 0;
    } else {
      assert tops[0] == TopAt(p, emphasis, 0);
    }
  }

  /** The multiplier search of `combine_images` always reports the scale 0.1. It
      stops at the first multiplier whose first sample has an option, with that
      sample's top option, and fails exactly when no multiplier's first sample has
      one. */
  lemma FoundScaleIsFirstSample(p: Problem, es: seq<real>)
    requires WellFormed(p) && AllNonNegative(es)
    ensures FirstFound(p, es).Err? <==> forall i :: 0 <= i < |es| ==> TopAt(p, es[i], 0).None?
    ensures FirstFound(p, es).Ok? ==>
              var f := FirstFound(p, es).value;
              f.scale == 0.1 &&
              exists i :: 0 <= i < |es| && es[i] == f.emphasis &&
                (forall j :: 0 <= j < i ==> TopAt(p, es[j], 0).None?) &&
                TopAt(p, es[i], 0) == Some(f.layout)
  {
    FirstFoundFails(p, es);
    FirstFoundIsFirstSuccess(p, es);
    forall i | 0 <= i < |es|
      ensures SearchWith(p, es[i]) ==
                if TopAt(p, es[i], 0).Some? then Best(0.1, TopAt(p, es[i], 0)) else Best(1.0, None)
    {
      SearchSettlesOnFirstSample(p, es[i]);
    }
  }
}
