/**
 * Which pixels of an image become figure points (`imageDataToFigure`): the
 * RGBA buffer is read in row-major order, and a pixel is picked when its
 * alpha byte is above 127 and its density draw is below `pointDensity`.
 */
module Mask {
  import opened Geometry
  import opened Particle

  newtype byte = b: int | 0 <= b < 256

  /** A pixel by its column and row. */
  datatype Pixel = Pixel(x: nat, y: nat)

  /** The figure position a pixel stands for. */
  function Position(p: Pixel): Vec {
    Vec(p.x as real, p.y as real)
  }

  /**
   * The alpha byte of pixel index p is above 127. A read past the end of
   * the buffer gives `undefined`, which is never above 127.
   */
  predicate Opaque(data: seq<byte>, p: nat) {
    4 * p + 3 < |data| && data[4 * p + 3] > 127
  }

  /** Pixel index p becomes a point: it is opaque and its density draw succeeds. */
  predicate Qualifies(data: seq<byte>, density: nat -> Draw, pointDensity: real, p: nat) {
    Opaque(data, p) && density(p) < pointDensity
  }

  /** Pixel q comes before column x of row y in row-major order. */
  predicate Before(q: Pixel, y: nat, x: nat) {
    q.y < y || (q.y == y && q.x < x)
  }

  /** Strict row-major order of pixels. */
  predicate RowMajorLess(p: Pixel, q: Pixel) {
    Before(p, q.y, q.x)
  }

  /** The pixels of s are in strictly increasing row-major order. */
  predicate Sorted(s: seq<Pixel>) {
    forall i, j :: 0 <= i < j < |s| ==> RowMajorLess(s[i], s[j])
  }

  /**
   * The picked pixels of an image w pixels wide, in scan order, among the
   * pixels before column x of row y.
   */
  function Scan(data: seq<byte>, density: nat -> Draw, pointDensity: real, w: nat, y: nat, x: nat): seq<Pixel>
    requires x <= w
    decreases y, x
  {
    if x == 0 then
      if y == 0 then [] else Scan(data, density, pointDensity, w, y - 1, w)
    else
      Scan(data, density, pointDensity, w, y, x - 1)
      + (if Qualifies(data, density, pointDensity, y * w + x - 1) then [Pixel(x - 1, y)] else [])
  }

  /** The picked pixels of a whole w by h image, in scan order. */
  function Targets(data: seq<byte>, density: nat -> Draw, pointDensity: real, w: nat, h: nat): seq<Pixel> {
    Scan(data, density, pointDensity, w, h, 0)
  }

  /** A pixel of the image is among the scanned ones exactly when it comes earlier and qualifies. */
  lemma {:induction false} ScanMembership(data: seq<byte>, density: nat -> Draw, pointDensity: real,
                                          w: nat, y: nat, x: nat, q: Pixel)
    requires x <= w && q.x < w
    ensures q in Scan(data, density, pointDensity, w, y, x)
            <==> Before(q, y, x) && Qualifies(data, density, pointDensity, q.y * w + q.x)
    decreases y, x
  {
    if x == 0 {
      if y != 0 {
        ScanMembership(data, density, pointDensity, w, y - 1, w, q);
      }
    } else {
      ScanMembership(data, density, pointDensity, w, y, x - 1, q);
    }
  }

  /** The scanned pixels lie in the image, before (x, y), in strictly increasing row-major order. */
  lemma {:induction false} ScanOrdered(data: seq<byte>, density: nat -> Draw, pointDensity: real,
                                       w: nat, y: nat, x: nat)
    requires x <= w
    ensures forall q :: q in Scan(data, density, pointDensity, w, y, x) ==> q.x < w && Before(q, y, x)
    ensures Sorted(Scan(data, density, pointDensity, w, y, x))
    decreases y, x
  {
    if x == 0 {
      if y != 0 {
        ScanOrdered(data, density, pointDensity, w, y - 1, w);
      }
    } else {
      var prev := Scan(data, density, pointDensity, w, y, x - 1);
      ScanOrdered(data, density, pointDensity, w, y, x - 1);
      if Qualifies(data, density, pointDensity, y * w + x - 1) {
        var s := prev + [Pixel(x - 1, y)];
        assert s == Scan(data, density, pointDensity, w, y, x);
        forall i | 0 <= i < |prev|
          ensures RowMajorLess(s[i], s[|prev|])
        {
          assert prev[i] in prev;
        }
      } else {
        assert prev == Scan(data, density, pointDensity, w, y, x);
      }
    }
  }

  /** Over a whole image: exactly the qualifying pixels, each once, in row-major order. */
  lemma TargetsAreQualifyingPixels(data: seq<byte>, density: nat -> Draw, pointDensity: real, w: nat, h: nat)
    ensures var t := Targets(data, density, pointDensity, w, h);
            && (forall q :: q in t ==> q.x < w && q.y < h)
            && Sorted(t)
            && (forall q: Pixel :: q.x < w && q.y < h ==>
                  (q in t <==> Qualifies(data, density, pointDensity, q.y * w + q.x)))
  {
    var t := Targets(data, density, pointDensity, w, h);
    assert t == Scan(data, density, pointDensity, w, h, 0);
    ScanOrdered(data, density, pointDensity, w, h, 0);
    forall q: Pixel | q.x < w && q.y < h
      ensures q in t <==> Qualifies(data, density, pointDensity, q.y * w + q.x)
    {
      ScanMembership(data, density, pointDensity, w, h, 0, q);
    }
  }
}
