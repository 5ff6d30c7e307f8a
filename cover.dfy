/** Cover-fit geometry shared by the browser viewer and the mini-program page:
    the cover scale (the larger of the two axis ratios) and the centred offset
    of a scaled length inside a viewport length. */
module Cover {

  /** Math.max on two numbers. */
  function Max(a: real, b: real): real { if a >= b then a else b }

  /** Math.min on two numbers. */
  function Min(a: real, b: real): real { if a <= b then a else b }

  /** Length of an image side of length `len` drawn at `scale`. */
  function Scaled(len: real, scale: real): real { len * scale }

  /** Drawing a side at a larger scale never makes it shorter. */
  lemma ScaledIsMonotonic(len: real, a: real, b: real)
    requires 0.0 <= len && a <= b
    ensures Scaled(len, a) <= Scaled(len, b)
  {
    assert Scaled(len, b) - Scaled(len, a) == len * (b - a);
  }

  /** The offset that centres a length `scaled` inside a viewport length `v`. */
  function Centred(v: real, scaled: real): real { (v - scaled) / 2.0 }

  /** `iw * s >= vw` follows from `s >= vw / iw` when `iw` is positive. */
  lemma RatioCovers(vw: real, iw: real, s: real)
    requires iw > 0.0 && s >= vw / iw
    ensures iw * s >= vw
  {
    assert iw * (vw / iw) == vw;
    assert iw * s - iw * (vw / iw) == iw * (s - vw / iw);
  }

  /** Scale that makes an `iw` x `ih` image cover a `vw` x `vh` viewport
      ("cover" fit): the larger axis ratio wins. */
  function CoverScale(vw: real, vh: real, iw: real, ih: real): (s: real)
    requires iw != 0.0 && ih != 0.0
    ensures s >= vw / iw && s >= vh / ih
    ensures s == vw / iw || s == vh / ih
    ensures Scaled(iw, s) == vw || Scaled(ih, s) == vh
    ensures iw > 0.0 && ih > 0.0 ==> Scaled(iw, s) >= vw && Scaled(ih, s) >= vh
    ensures iw > 0.0 && ih > 0.0 && (vw > 0.0 || vh > 0.0) ==> s > 0.0
  {
    var s := Max(vw / iw, vh / ih);
    assert iw > 0.0 && ih > 0.0 ==> iw * s >= vw && ih * s >= vh by {
      if iw > 0.0 && ih > 0.0 {
        RatioCovers(vw, iw, s);
        RatioCovers(vh, ih, s);
      }
    }
    s
  }

  /** No smaller scale covers the viewport: the cover scale is the least
      scale at which the image covers both axes. */
  lemma CoverScaleIsLeast(vw: real, vh: real, iw: real, ih: real, s: real)
    requires iw > 0.0 && ih > 0.0
    requires Scaled(iw, s) >= vw && Scaled(ih, s) >= vh
    ensures s >= CoverScale(vw, vh, iw, ih)
  {
    assert s == (iw * s) / iw;
    assert s == (ih * s) / ih;
    assert (iw * s) / iw - vw / iw == (iw * s - vw) / iw;
    assert (ih * s) / ih - vh / ih == (ih * s - vh) / ih;
  }
}
