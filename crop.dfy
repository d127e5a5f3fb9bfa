/**
  The box arithmetic of `cropImage`: a square of side `min(H, W) * scale`
  centred on the frame's midpoint. The extraction of the region itself
  (`img.slice`) is a TensorFlow.js call and is not part of this model.
*/
module Crop {
  /** The begin offsets and side of a square crop, in pixels. */
  datatype Box = Box(beginHeight: real, beginWidth: real, size: real)

  function Min(a: nat, b: nat): (m: nat)
    ensures m <= a && m <= b && (m == a || m == b)
  {
    if a <= b then a else b
  }

  /** The square crop box for a frame of `height` x `width` at `scale`. */
  function CropBox(height: nat, width: nat, scale: real): (b: Box)
    ensures b.beginHeight + b.size / 2.0 == height as real / 2.0
    ensures b.beginWidth + b.size / 2.0 == width as real / 2.0
    ensures b.size == Min(height, width) as real * scale
  {
    var size := Min(height, width) as real * scale;
    var centerHeight := height as real / 2.0;
    var beginHeight := centerHeight - size / 2.0;
    var centerWidth := width as real / 2.0;
    var beginWidth := centerWidth - size / 2.0;
    Box(beginHeight, beginWidth, size)
  }

  /** The box lies inside the frame on both axes. */
  ghost predicate InFrame(b: Box, height: nat, width: nat) {
    0.0 <= b.size
    && 0.0 <= b.beginHeight && b.beginHeight + b.size <= height as real
    && 0.0 <= b.beginWidth && b.beginWidth + b.size <= width as real
  }

  /** Scaling a non-negative length by a factor in [0, 1] does not lengthen it. */
  lemma ScaledWithin(m: real, scale: real, scaled: real)
    requires 0.0 <= m && 0.0 <= scale <= 1.0 && scaled == m * scale
    ensures 0.0 <= scaled <= m
  {
  }

  /** Scaling a positive length by a factor above 1 lengthens it. */
  lemma ScaledBeyond(m: real, scale: real, scaled: real)
    requires 0.0 < m && 1.0 < scale && scaled == m * scale
    ensures m < scaled
  {
  }

  /** For every scale between 0 and 1 the centred box stays inside the frame. */
  lemma CropBoxInFrame(height: nat, width: nat, scale: real)
    requires 0.0 <= scale <= 1.0
    ensures InFrame(CropBox(height, width, scale), height, width)
  {
    var b := CropBox(height, width, scale);
    var m := Min(height, width) as real;
    ScaledWithin(m, scale, b.size);
    assert 0.0 <= b.size <= m <= height as real && m <= width as real;
  }

  /** A scale above 1 on a non-empty frame pushes the box out of the frame. */
  lemma CropBoxLeavesFrame(height: nat, width: nat, scale: real)
    requires 0 < height && 0 < width && 1.0 < scale
    ensures !InFrame(CropBox(height, width, scale), height, width)
  {
    var b := CropBox(height, width, scale);
    var m := Min(height, width) as real;
    ScaledBeyond(m, scale, b.size);
    if Min(height, width) == height {
      assert m == height as real;
      assert b.beginHeight + b.size / 2.0 == m / 2.0;
    } else {
      assert m == width as real;
      assert b.beginWidth + b.size / 2.0 == m / 2.0;
    }
  }
}
