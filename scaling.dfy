/** Scaling the four input images with one of them emphasised: the image at
    `large_index` is scaled by `scale * emphasis`, the others by `scale`. */
module Scaling {
  import opened Geometry

  /** The emphasis the resize loops of both four-image scripts apply to the large image. */
  const DEFAULT_EMPHASIS: real := 1.5

  /** Factor applied to input image i. */
  function FactorFor(i: nat, li: nat, scale: real, emphasis: real): real
  {
    if i == li then scale * emphasis else scale
  }

  lemma FactorNonNegative(i: nat, li: nat, scale: real, emphasis: real)
    requires 0.0 <= scale && 0.0 <= emphasis
    ensures 0.0 <= FactorFor(i, li, scale, emphasis)
  {
    if i == li { ProductNonNegative(scale, emphasis); }
  }

  /** Sizes of all images after scaling, each truncated to whole pixels. */
  function ScaledSizes(images: seq<Size>, li: nat, scale: real, emphasis: real): (sizes: seq<Size>)
    requires 0.0 <= scale && 0.0 <= emphasis
    ensures |sizes| == |images|
  {
    seq(|images|, i requires 0 <= i < |images| =>
      FactorNonNegative(i, li, scale, emphasis);
      Scaled(images[i], FactorFor(i, li, scale, emphasis)))
  }

  /** Image i of the scaled list is image i scaled by its factor, each side rounded
      down to whole pixels. */
  lemma ScaledSizesBounds(images: seq<Size>, li: nat, scale: real, emphasis: real)
    requires 0.0 <= scale && 0.0 <= emphasis
    ensures |ScaledSizes(images, li, scale, emphasis)| == |images|
    ensures forall i :: 0 <= i < |images| ==>
              var sz := ScaledSizes(images, li, scale, emphasis)[i];
              var f := FactorFor(i, li, scale, emphasis);
              sz.width as real <= images[i].width as real * f < sz.width as real + 1.0 &&
              sz.height as real <= images[i].height as real * f < sz.height as real + 1.0
  {
    forall i | 0 <= i < |images|
      ensures var sz := ScaledSizes(images, li, scale, emphasis)[i];
              var f := FactorFor(i, li, scale, emphasis);
              sz.width as real <= images[i].width as real * f < sz.width as real + 1.0 &&
              sz.height as real <= images[i].height as real * f < sz.height as real + 1.0
    {
      FactorNonNegative(i, li, scale, emphasis);
      ScaledBounds(images[i], FactorFor(i, li, scale, emphasis));
    }
  }

  /** The resize loop: for i in range(len(images)), image i gets
      `(int(w * f), int(h * f))` with f = scale * emphasis for the large image and
      f = scale otherwise. */
  method ResizeWithEmphasis(images: seq<Size>, li: nat, scale: real, emphasis: real)
    returns (sizes: seq<Size>)
    requires 0.0 <= scale && 0.0 <= emphasis
    ensures sizes == ScaledSizes(images, li, scale, emphasis)
  {
    sizes := [];
    for i := 0 to |images|
      invariant |sizes| == i
      invariant forall j :: 0 <= j < i ==> sizes[j] == ScaledSizes(images, li, scale, emphasis)[j]
    {
      FactorNonNegative(i, li, scale, emphasis);
      var f := if i == li then scale * emphasis else scale;
      sizes := sizes + [Scaled(images[i], f)];
    }
  }
}
