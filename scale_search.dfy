/** `calculate_scale_factors` of the dynamic-layout script: sweep the global scale
    over the twenty samples 0.1, 0.2, ..., 2.0, build the option list for the images
    scaled by each sample (the large one further multiplied by the emphasis), and
    keep the sample whose best option scores strictly higher than everything seen
    before it. */
module ScaleSearch {
  import opened Outcomes
  import opened Geometry
  import opened Scaling
  import opened LayoutOptions

  /** The inputs the search closes over in `combine_images`. */
  datatype Problem = Problem(images: seq<Size>, li: nat, availWidth: int, availHeight: int, pad: nat)

  /** Four images, a valid large index, and no image of height zero (the source
      divides by every height to compute aspect ratios). */
  predicate WellFormed(p: Problem)
  {
    |p.images| == 4 && p.li < 4 &&
    forall i :: 0 <= i < |p.images| ==> p.images[i].height > 0
  }

  /** Number of samples of `np.linspace(0.1, 2.0, 20)`. */
  const SAMPLES: nat := 20

  /** The k-th sample of `np.linspace(0.1, 2.0, 20)`. */
  function SampleScale(k: nat): (s: real)
    ensures s > 0.0
    ensures k < SAMPLES ==> s <= 2.0
  {
    (k + 1) as real / 10.0
  }

  /** The images at sample k. */
  function SampleSizes(p: Problem, emphasis: real, k: nat): (sizes: seq<Size>)
    requires WellFormed(p) && emphasis >= 0.0
  {
    ScaledSizes(p.images, p.li, SampleScale(k), emphasis)
  }

  /** The best option at sample k, if any: the first of the feasible candidates
      with the highest score. */
  function TopAt(p: Problem, emphasis: real, k: nat): Option<LayoutOption>
    requires WellFormed(p) && emphasis >= 0.0
  {
    var c := Candidates(SampleSizes(p, emphasis, k), p.li, p.availWidth, p.availHeight, p.pad);
    if c == [] then None else Some(BestOf(c))
  }

  /** `(best_scale, best_layout)`. */
  datatype Best = Best(scale: real, layout: Option<LayoutOption>)

  /** The top options of the first n samples, in sweep order. */
  function Tops(p: Problem, emphasis: real, n: nat): (tops: seq<Option<LayoutOption>>)
    requires WellFormed(p) && emphasis >= 0.0
    ensures |tops| == n
    ensures forall k :: 0 <= k < n ==> tops[k] == TopAt(p, emphasis, k)
  {
    seq(n, k requires 0 <= k < n => TopAt(p, emphasis, k))
  }

  /** One more sample appends its top option. */
  lemma TopsStep(p: Problem, emphasis: real, k: nat)
    requires WellFormed(p) && emphasis >= 0.0
    ensures Tops(p, emphasis, k + 1) == Tops(p, emphasis, k) + [TopAt(p, emphasis, k)]
  {
    var longer, shorter := Tops(p, emphasis, k + 1), Tops(p, emphasis, k) + [TopAt(p, emphasis, k)];
    forall i | 0 <= i < k + 1
      ensures longer[i] == shorter[i]
    {
      if i < k {
        assert shorter[i] == Tops(p, emphasis, k)[i];
      }
    }
    assert |longer| == |shorter|;
  }

  /** `(best_scale, best_layout)` after the samples whose top options are `tops`:
      a sample replaces the current best only when it has an option and its top
      score is strictly greater. */
  function Sweep(tops: seq<Option<LayoutOption>>): Best
  {
    if tops == [] then Best(1.0, None)
    else
      var b := Sweep(tops[..|tops| - 1]);
      var top := tops[|tops| - 1];
      if top.Some? && (b.layout.None? || top.value.score > b.layout.value.score)
      then Best(SampleScale(|tops| - 1), top)
      else b
  }

  /** Sample k has the first maximal top score among the samples. */
  predicate FirstMaximum(tops: seq<Option<LayoutOption>>, k: nat)
  {
    k < |tops| && tops[k].Some? &&
    (forall j :: 0 <= j < k && tops[j].Some? ==> tops[j].value.score < tops[k].value.score) &&
    (forall j :: k <= j < |tops| && tops[j].Some? ==> tops[j].value.score <= tops[k].value.score)
  }

  /** `b` is the result the search promises over the samples: nothing (and scale
      1.0) exactly when no sample has an option; otherwise the top option of the
      first sample whose top score is the largest over all samples, with that
      sample's scale. */
  ghost predicate IsFirstBest(b: Best, tops: seq<Option<LayoutOption>>)
  {
    (b.layout.None? <==> forall k :: 0 <= k < |tops| ==> tops[k].None?) &&
    (b.layout.None? ==> b.scale == 1.0) &&
    (b.layout.Some? ==>
       exists k: nat :: FirstMaximum(tops, k) && b.layout == tops[k] && b.scale == SampleScale(k))
  }

  /** The sweep finds nothing, and keeps scale 1.0, exactly when no sample has an
      option. */
  lemma {:induction false} SweepNone(tops: seq<Option<LayoutOption>>)
    ensures Sweep(tops).layout.None? <==> forall k :: 0 <= k < |tops| ==> tops[k].None?
    ensures Sweep(tops).layout.None? ==> Sweep(tops).scale == 1.0
  {
    if tops != [] {
      var init := tops[..|tops| - 1];
      SweepNone(init);
      assert forall k :: 0 <= k < |init| ==> init[k] == tops[k];
    }
  }

  /** When the sweep finds something, it is the first maximum, with its scale. */
  lemma {:induction false} SweepFirstMaximum(tops: seq<Option<LayoutOption>>) returns (k: nat)
    requires Sweep(tops).layout.Some?
    ensures FirstMaximum(tops, k)
    ensures Sweep(tops).layout == tops[k] && Sweep(tops).scale == SampleScale(k)
    ensures 0.0 < Sweep(tops).scale
  {
    var n := |tops|;
    var init := tops[..n - 1];
    assert forall j :: 0 <= j < |init| ==> init[j] == tops[j];
    var b := Sweep(init);
    var top := tops[n - 1];
    if top.Some? && (b.layout.None? || top.value.score > b.layout.value.score) {
      k := n - 1;
      if b.layout.Some? {
        var k' := SweepFirstMaximum(init);
        forall j | 0 <= j < k && tops[j].Some?
          ensures tops[j].value.score < top.value.score
        {
          if j >= k' {
            assert init[j].value.score <= init[k'].value.score;
          }
        }
      } else {
        SweepNone(init);
      }
    } else {
      k := SweepFirstMaximum(init);
      if top.Some? {
        assert top.value.score <= tops[k].value.score;
      }
    }
  }

  /** The sweep keeps the first maximum. */
  lemma SweepIsFirstBest(tops: seq<Option<LayoutOption>>)
    ensures IsFirstBest(Sweep(tops), tops)
  {
    SweepNone(tops);
    if Sweep(tops).layout.Some? {
      var k := SweepFirstMaximum(tops);
    }
  }

  /** One sample of the sweep: the images scaled by the k-th sample (the large one
      further by `emphasis`) and the head of their option list. */
  method SampleTop(p: Problem, emphasis: real, k: nat) returns (top: Option<LayoutOption>)
    requires WellFormed(p) && emphasis >= 0.0
    ensures top == TopAt(p, emphasis, k)
  {
    var scale := (k + 1) as real / 10.0;
    var sizes := ResizeWithEmphasis(p.images, p.li, scale, emphasis);
    var layouts := GenerateLayoutOptions(sizes, p.li, p.availWidth, p.availHeight, p.pad);
    assert scale == SampleScale(k);
    assert sizes == SampleSizes(p, emphasis, k);
    SortedHeadIsBestOf(Candidates(sizes, p.li, p.availWidth, p.availHeight, p.pad));
    top := if |layouts| > 0 then Some(layouts[0]) else None;
  }

  /** `calculate_scale_factors(large_scale=emphasis)`. */
  method CalculateScaleFactors(p: Problem, emphasis: real) returns (bestScale: real, bestLayout: Option<LayoutOption>)
    requires WellFormed(p) && emphasis >= 0.0
    ensures Best(bestScale, bestLayout) == Sweep(Tops(p, emphasis, SAMPLES))
    ensures IsFirstBest(Best(bestScale, bestLayout), Tops(p, emphasis, SAMPLES))
  {
    ghost var seen: seq<Option<LayoutOption>> := [];
    bestScale := 1.0;
    bestLayout := None;
    var k := 0;
    while k < SAMPLES
      invariant 0 <= k <= SAMPLES
      invariant seen == Tops(p, emphasis, k)
      invariant Best(bestScale, bestLayout) == Sweep(seen)
    {
      var top := SampleTop(p, emphasis, k);
      TopsStep(p, emphasis, k);
      assert (seen + [top])[..k] == seen;
      seen := seen + [top];
      if top.Some? && (bestLayout.None? || top.value.score > bestLayout.value.score) {
        bestScale := SampleScale(k);
        bestLayout := top;
      }
      k := k + 1;
    }
    SweepIsFirstBest(seen);
  }
}
