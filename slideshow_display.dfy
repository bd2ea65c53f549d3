// The dimension arithmetic of the slideshow's `resize_image`
// (slideshow/src/slideshow/display.py): the size an image is scaled to so
// that it fits the canvas with its aspect ratio kept. Pixels, resampling and
// brightness are Pillow's and are not modelled; Python's float division is
// exact division on reals here.

module SlideshowDisplay {
  import opened Numbers

  /** A width and a height in pixels. */
  datatype Size = Size(width: nat, height: nat)

  /** `n`, raised to 1 when smaller. */
  function AtLeastOne(n: int): (r: nat)
    ensures r >= 1 && r >= n && (n >= 1 ==> r == n)
  {
    if n < 1 then 1 else n
  }

  /** The target and the original both have positive dimensions. */
  predicate Resizable(original: Size, targetWidth: int, targetHeight: int)
  {
    targetWidth > 0 && targetHeight > 0 && original.width > 0 && original.height > 0
  }

  /** The original is relatively wider than the target. */
  predicate Wider(original: Size, targetWidth: int, targetHeight: int)
  {
    targetHeight * original.width > targetWidth * original.height
  }

  /** `a / b` on floats, for a positive `b`. */
  function Ratio(a: nat, b: nat): real
    requires b > 0
  {
    a as real / b as real
  }

  /** The size `resize_image` gives an image of size `original`. */
  function ResizeDims(original: Size, targetWidth: int, targetHeight: int): (r: Size)
    ensures !Resizable(original, targetWidth, targetHeight) ==> r == original
  {
    if targetWidth <= 0 || targetHeight <= 0 then original
    else if original.width == 0 || original.height == 0 then original
    else
      var imageRatio := Ratio(original.width, original.height);
      var targetRatio := Ratio(targetWidth, targetHeight);
      if imageRatio > targetRatio then
        Size(targetWidth, AtLeastOne(Truncate(targetWidth as real / imageRatio)))
      else
        Size(AtLeastOne(Truncate(targetHeight as real * imageRatio)), targetHeight)
  }

  /** Comparing the two ratios is comparing the cross products. */
  lemma RatioOrder(original: Size, targetWidth: int, targetHeight: int)
    requires Resizable(original, targetWidth, targetHeight)
    ensures Ratio(original.width, original.height) > Ratio(targetWidth, targetHeight)
        <==> Wider(original, targetWidth, targetHeight)
  {
    var ow, oh, tw, th := original.width as real, original.height as real, targetWidth as real, targetHeight as real;
    var x, y := ow / oh, tw / th;
    assert x * (oh * th) == th * ow;
    assert y * (oh * th) == tw * oh;
    assert oh * th > 0.0;
    assert x > y <==> x * (oh * th) > y * (oh * th);
    assert (targetHeight * original.width) as real == th * ow;
    assert (targetWidth * original.height) as real == tw * oh;
  }

  /** Truncating an exact quotient of naturals is integer division. */
  lemma TruncateQuotient(p: nat, q: nat)
    requires q > 0
    ensures Truncate(p as real / q as real) == p / q
  {
    var k, m := p / q, p % q;
    assert p == k * q + m;
    assert p as real == k as real * q as real + m as real;
    var x := p as real / q as real;
    assert x == k as real + m as real / q as real;
    assert 0.0 <= m as real / q as real < 1.0;
  }

  /** `p / q` rounded down, raised to at least 1, against the bounds it came from. */
  lemma QuotientBounds(p: nat, q: nat, limit: int)
    requires q > 0
    ensures var h := p / q;
      h * q <= p < (h + 1) * q
      && (AtLeastOne(h) + 1) * q >= (h + 1) * q
      && (AtLeastOne(h) == 1 || AtLeastOne(h) * q <= p)
      && (p < limit * q ==> h < limit)
      && (p <= limit * q ==> h <= limit)
  {
    var h := p / q;
    assert (AtLeastOne(h) + 1) * q == (h + 1) * q + (AtLeastOne(h) - h) * q;
    assert h * q - limit * q == (h - limit) * q;
  }

  /** Dividing by a ratio of naturals and truncating is integer division. */
  lemma DivideByRatio(a: nat, b: nat, c: nat)
    requires b > 0 && c > 0
    ensures Truncate(a as real / Ratio(b, c)) == a * c / b
  {
    assert a as real / (b as real / c as real) == (a * c) as real / b as real;
    TruncateQuotient(a * c, b);
  }

  /** Multiplying by a ratio of naturals and truncating is integer division. */
  lemma MultiplyByRatio(a: nat, b: nat, c: nat)
    requires b > 0 && c > 0
    ensures Truncate(a as real * Ratio(b, c)) == a * b / c
  {
    assert a as real * (b as real / c as real) == (a * b) as real / c as real;
    TruncateQuotient(a * b, c);
  }

  /** The real-number computation of `ResizeDims`, as integer division. */
  lemma ResizeQuotients(original: Size, targetWidth: int, targetHeight: int)
    requires Resizable(original, targetWidth, targetHeight)
    ensures var ow, oh := original.width, original.height;
      ResizeDims(original, targetWidth, targetHeight)
      == if Wider(original, targetWidth, targetHeight)
         then Size(targetWidth, AtLeastOne(targetWidth * oh / ow))
         else Size(AtLeastOne(targetHeight * ow / oh), targetHeight)
  {
    RatioOrder(original, targetWidth, targetHeight);
    var ow, oh := original.width, original.height;
    if Wider(original, targetWidth, targetHeight) {
      DivideByRatio(targetWidth, ow, oh);
    } else {
      MultiplyByRatio(targetHeight, ow, oh);
    }
  }

  /**
   * A relatively wider image takes the full target width, and its height is
   * the largest one (but at least 1) that does not make it taller than its
   * aspect ratio allows.
   */
  lemma ResizeWider(original: Size, targetWidth: int, targetHeight: int)
    requires Resizable(original, targetWidth, targetHeight)
    requires Wider(original, targetWidth, targetHeight)
    ensures var r := ResizeDims(original, targetWidth, targetHeight);
      var ow, oh := original.width, original.height;
      r.width == targetWidth && 1 <= r.height <= targetHeight
      && (r.height == 1 || r.height * ow <= targetWidth * oh)
      && targetWidth * oh < (r.height + 1) * ow
  {
    ResizeQuotients(original, targetWidth, targetHeight);
    QuotientBounds(targetWidth * original.height, original.width, targetHeight);
  }

  /**
   * An image not relatively wider takes the full target height, and its
   * width is the largest one (but at least 1) that does not make it wider
   * than its aspect ratio allows.
   */
  lemma ResizeTaller(original: Size, targetWidth: int, targetHeight: int)
    requires Resizable(original, targetWidth, targetHeight)
    requires !Wider(original, targetWidth, targetHeight)
    ensures var r := ResizeDims(original, targetWidth, targetHeight);
      var ow, oh := original.width, original.height;
      r.height == targetHeight && 1 <= r.width <= targetWidth
      && (r.width == 1 || r.width * oh <= targetHeight * ow)
      && targetHeight * ow < (r.width + 1) * oh
  {
    ResizeQuotients(original, targetWidth, targetHeight);
    QuotientBounds(targetHeight * original.width, original.height, targetWidth);
  }

  /** A valid resize is at least 1 by 1, fits the target and fills one of its sides. */
  lemma ResizeFits(original: Size, targetWidth: int, targetHeight: int)
    requires Resizable(original, targetWidth, targetHeight)
    ensures var r := ResizeDims(original, targetWidth, targetHeight);
      1 <= r.width <= targetWidth && 1 <= r.height <= targetHeight
      && (r.width == targetWidth || r.height == targetHeight)
  {
    if Wider(original, targetWidth, targetHeight) {
      ResizeWider(original, targetWidth, targetHeight);
    } else {
      ResizeTaller(original, targetWidth, targetHeight);
    }
  }
}
