/**
 * Centre-crop of a photo to a target aspect ratio, before it is resized to
 * the target size. The ratios are compared and scaled with exact rational
 * arithmetic; for the one target the card uses, 300 by 400, the ratio 0.75
 * is exact in binary floating point and the two agree (see CardPhotoCrop).
 */
module Crop {

  /** The rectangle handed to the image crop: left and top corner, width and height. */
  datatype CropBox = CropBox(left: nat, top: nat, width: nat, height: nat)

  /**
   * `crop_to_aspect` on an image of `width` by `height` pixels for a target
   * of `targetWidth` by `targetHeight`. When the image is wider than the
   * target ratio the full height is kept and the widest box not wider than
   * the ratio is centred horizontally; otherwise the full width is kept and
   * the tallest box not taller than the ratio is centred vertically.
   */
  function CropToAspect(width: nat, height: nat, targetWidth: nat, targetHeight: nat): (b: CropBox)
    requires width >= 1 && height >= 1 && targetWidth >= 1 && targetHeight >= 1
    // the box lies inside the image
    ensures b.left + b.width <= width && b.top + b.height <= height
    // wider than the target: full height, horizontally centred
    ensures width * targetHeight > height * targetWidth ==>
      b.height == height && b.top == 0 && b.left == (width - b.width) / 2 &&
      b.width * targetHeight <= height * targetWidth < (b.width + 1) * targetHeight
    // otherwise: full width, vertically centred
    ensures width * targetHeight <= height * targetWidth ==>
      b.width == width && b.left == 0 && b.top == (height - b.height) / 2 &&
      b.height * targetWidth <= width * targetHeight < (b.height + 1) * targetWidth
  {
    if width * targetHeight > height * targetWidth then
      var newWidth := ScaledSide(height, targetWidth, targetHeight, width);
      CropBox((width - newWidth) / 2, 0, newWidth, height)
    else
      var newHeight := ScaledSide(width, targetHeight, targetWidth, height);
      CropBox(0, (height - newHeight) / 2, width, newHeight)
  }

  /**
   * `int(side * num / den)` for non-negative operands: the largest `n`
   * with `n * den <= side * num`, which stays within `limit` when the
   * ratio does.
   */
  function ScaledSide(side: nat, num: nat, den: nat, limit: nat): (n: nat)
    requires den >= 1 && side * num <= limit * den
    ensures n <= limit
    ensures n * den <= side * num < (n + 1) * den
  {
    var n := side * num / den;
    DivBounds(side * num, den);
    CancelFactor(n, limit, den);
    n
  }

  /** Euclidean division by a positive divisor, spelled out. */
  lemma DivBounds(x: nat, d: nat)
    requires d >= 1
    ensures (x / d) * d <= x < (x / d + 1) * d
  {
  }

  /** Multiplying by a positive factor keeps the order. */
  lemma CancelFactor(a: nat, b: nat, k: nat)
    requires k >= 1
    ensures a * k < b * k <==> a < b
    ensures a * k <= b * k <==> a <= b
  {
  }

  /** Quotient and remainder determine the quotient. */
  lemma DivUnique(x: nat, d: nat, q: nat, r: nat)
    requires d >= 1 && r < d && x == q * d + r
    ensures x / d == q
  {
    var q' := x / d;
    DivBounds(x, d);
    assert q * d <= x < (q + 1) * d by {
      assert (q + 1) * d == q * d + d;
    }
    CancelFactor(q', q + 1, d);
    CancelFactor(q, q' + 1, d);
  }

  lemma ScaledDivision(x: nat, d: nat, k: nat)
    requires d >= 1 && k >= 1
    ensures (x * k) / (d * k) == x / d
  {
    var q, r := x / d, x % d;
    assert x == q * d + r && r < d;
    assert x * k == q * (d * k) + r * k by {
      assert x * k == (q * d + r) * k;
    }
    CancelFactor(r, d, k);
    DivUnique(x * k, d * k, q, r * k);
  }

  /**
   * The crop the card applies to a photo before pasting it into the 300 by
   * 400 frame. It equals the integer forms the floating-point code computes
   * for this target: the comparison `width*4 > height*3`, the new width
   * `floor(height*3/4)` and the new height `floor(width*4/3)`.
   */
  function CardPhotoCrop(width: nat, height: nat): (b: CropBox)
    requires width >= 1 && height >= 1
    ensures b ==
      if width * 4 > height * 3
      then CropBox((width - height * 3 / 4) / 2, 0, height * 3 / 4, height)
      else CropBox(0, (height - width * 4 / 3) / 2, width, width * 4 / 3)
  {
    assert width * 400 > height * 300 <==> width * 4 > height * 3;
    ScaledDivision(height * 3, 4, 100);
    ScaledDivision(width * 4, 3, 100);
    assert height * 300 == (height * 3) * 100;
    assert width * 400 == (width * 4) * 100;
    CropToAspect(width, height, 300, 400)
  }

  /** A one-pixel photo gives an empty crop: zero columns, the one row kept. */
  lemma OnePixelCrop()
    ensures CardPhotoCrop(1, 1) == CropBox(0, 0, 0, 1)
  {
  }
}
