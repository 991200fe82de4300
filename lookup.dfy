/** Application of the tone-response table to every pixel: the vectorised form and the per-pixel loop. */
module Lookup {
  import opened Base
  import opened Images

  datatype Channel = R | G | B

  function Component(p: Rgb, c: Channel): Byte {
    match c
    case R => p.r
    case G => p.g
    case B => p.b
  }

  /** Integer luma with weights 0.21, 0.72 and 0.07, truncated; always a valid table index. */
  function Luma(p: Rgb): (l: int)
    ensures 0 <= l < 256
    ensures p == Rgb(255, 255, 255) ==> l == 255
    ensures p == Rgb(0, 0, 0) ==> l == 0
  {
    (21 * p.r + 72 * p.g + 7 * p.b) / 100
  }

  // ---- The vectorised form: whole planes at a time ----

  /** One channel plane of an RGB grid (`np_img[:, :, c]`). */
  function Plane(img: Grid<Rgb>, c: Channel, w: nat, h: nat): Grid<Byte>
    requires Shaped(img, w, h)
  {
    seq(h, y requires 0 <= y < h => seq(w, x requires 0 <= x < w => Component(img[y][x], c)))
  }

  /** The luma plane of an RGB grid. */
  function LumaPlane(img: Grid<Rgb>, w: nat, h: nat): Grid<Byte>
    requires Shaped(img, w, h)
  {
    seq(h, y requires 0 <= y < h => seq(w, x requires 0 <= x < w => Luma(img[y][x]) as Byte))
  }

  /** Advanced indexing `lookup[idx, m]` with two index planes of one shape. */
  function Index(lookup: Table, idx: Grid<Byte>, m: Grid<Byte>, w: nat, h: nat): Grid<int>
    requires IsTable(lookup) && Shaped(idx, w, h) && Shaped(m, w, h)
  {
    seq(h, y requires 0 <= y < h => seq(w, x requires 0 <= x < w => lookup[idx[y][x]][m[y][x]]))
  }

  /** Stacks three planes of one shape into a grid of channel triples. */
  function Stack(r: Grid<int>, g: Grid<int>, b: Grid<int>, w: nat, h: nat): Grid<Triple>
    requires Shaped(r, w, h) && Shaped(g, w, h) && Shaped(b, w, h)
  {
    seq(h, y requires 0 <= y < h => seq(w, x requires 0 <= x < w => Triple(r[y][x], g[y][x], b[y][x])))
  }

  /** The lookup output: in grayscale mode the luma plane indexed against the mask and
      replicated three times, otherwise each channel indexed against its mask channel. */
  function Vectorised(lookup: Table, img: Image, mask: Mask, gray: bool): Grid<Triple>
    requires IsTable(lookup) && Matches(mask, gray, img.width, img.height)
  {
    var w, h := img.width, img.height;
    if gray then
      var g := Index(lookup, LumaPlane(img.pixels, w, h), mask.levels, w, h);
      Stack(g, g, g, w, h)
    else
      Stack(Index(lookup, Plane(img.pixels, R, w, h), Plane(mask.channels, R, w, h), w, h),
            Index(lookup, Plane(img.pixels, G, w, h), Plane(mask.channels, G, w, h), w, h),
            Index(lookup, Plane(img.pixels, B, w, h), Plane(mask.channels, B, w, h), w, h),
            w, h)
  }

  // ---- The per-pixel form: one source pixel and one mask pixel at a time ----

  /** Colour mode: each channel looked up against the same channel of the mask. */
  function ColorPixel(lookup: Table, p: Rgb, m: Rgb): Triple
    requires IsTable(lookup)
  {
    Triple(lookup[p.r][m.r], lookup[p.g][m.g], lookup[p.b][m.b])
  }

  /** Grayscale mode: the luma looked up against the mask level, on all three channels. */
  function GrayPixel(lookup: Table, p: Rgb, m: Byte): Triple
    requires IsTable(lookup)
  {
    var v := lookup[Luma(p)][m];
    Triple(v, v, v)
  }

  function PixelAt(lookup: Table, img: Image, mask: Mask, gray: bool, y: nat, x: nat): Triple
    requires IsTable(lookup) && Matches(mask, gray, img.width, img.height)
    requires y < img.height && x < img.width
  {
    if gray then GrayPixel(lookup, img.pixels[y][x], mask.levels[y][x])
    else ColorPixel(lookup, img.pixels[y][x], mask.channels[y][x])
  }

  /** The vectorised output keeps the working size, and each cell is the per-pixel lookup. */
  lemma VectorisedAt(lookup: Table, img: Image, mask: Mask, gray: bool)
    requires IsTable(lookup) && Matches(mask, gray, img.width, img.height)
    ensures Shaped(Vectorised(lookup, img, mask, gray), img.width, img.height)
    ensures forall y, x :: 0 <= y < img.height && 0 <= x < img.width ==>
      Vectorised(lookup, img, mask, gray)[y][x] == PixelAt(lookup, img, mask, gray, y, x)
  {
  }

  /** Colour mode keeps height and width, and every output channel is
      `lookup[source channel][mask channel]` at the same coordinates. */
  lemma ColourChannels(lookup: Table, img: Image, mask: Mask, y: nat, x: nat)
    requires IsTable(lookup) && Matches(mask, false, img.width, img.height)
    requires y < img.height && x < img.width
    ensures Shaped(Vectorised(lookup, img, mask, false), img.width, img.height)
    ensures var o, p, m := Vectorised(lookup, img, mask, false)[y][x], img.pixels[y][x], mask.channels[y][x];
      o.r == lookup[p.r][m.r] && o.g == lookup[p.g][m.g] && o.b == lookup[p.b][m.b]
  {
  }

  /** Grayscale mode: all three output channels equal `lookup[luma][mask level]`. */
  lemma GrayChannels(lookup: Table, img: Image, mask: Mask, y: nat, x: nat)
    requires IsTable(lookup) && Matches(mask, true, img.width, img.height)
    requires y < img.height && x < img.width
    ensures Shaped(Vectorised(lookup, img, mask, true), img.width, img.height)
    ensures var o := Vectorised(lookup, img, mask, true)[y][x];
      var v := lookup[Luma(img.pixels[y][x])][mask.levels[y][x]];
      o.r == v && o.g == v && o.b == v
  {
  }

  /** The source pixel at a cell of a grid compared with another grid's. */
  predicate SamePixel(a: Image, b: Image, y: nat, x: nat)
    requires y < a.height && x < a.width && y < b.height && x < b.width
  {
    a.pixels[y][x] == b.pixels[y][x]
  }

  predicate SameMaskPixel(m1: Mask, m2: Mask, gray: bool, w: nat, h: nat, y: nat, x: nat)
    requires Matches(m1, gray, w, h) && Matches(m2, gray, w, h) && y < h && x < w
  {
    if gray then m1.levels[y][x] == m2.levels[y][x] else m1.channels[y][x] == m2.channels[y][x]
  }

  /** Each output pixel depends only on the source and mask pixels at its own coordinates. */
  lemma PixelLocality(lookup: Table, img1: Image, mask1: Mask, img2: Image, mask2: Mask,
                      gray: bool, y: nat, x: nat)
    requires IsTable(lookup)
    requires img1.width == img2.width && img1.height == img2.height
    requires Matches(mask1, gray, img1.width, img1.height) && Matches(mask2, gray, img2.width, img2.height)
    requires y < img1.height && x < img1.width
    requires SamePixel(img1, img2, y, x) && SameMaskPixel(mask1, mask2, gray, img1.width, img1.height, y, x)
    ensures Shaped(Vectorised(lookup, img1, mask1, gray), img1.width, img1.height)
    ensures Shaped(Vectorised(lookup, img2, mask2, gray), img2.width, img2.height)
    ensures Vectorised(lookup, img1, mask1, gray)[y][x] == Vectorised(lookup, img2, mask2, gray)[y][x]
  {
  }

  /** The rows of a 2-D array as a grid. */
  function Rows<T>(a: array2<T>): Grid<T>
    reads a
  {
    seq(a.Length0, y requires 0 <= y < a.Length0 reads a =>
      seq(a.Length1, x requires 0 <= x < a.Length1 reads a => a[y, x]))
  }

  /** Fills a fresh array pixel by pixel, row by row; the result is the vectorised output. */
  method ApplyLookup(lookup: Table, img: Image, mask: Mask, gray: bool) returns (out: array2<Triple>)
    requires IsTable(lookup) && Matches(mask, gray, img.width, img.height)
    ensures fresh(out) && out.Length0 == img.height && out.Length1 == img.width
    ensures Rows(out) == Vectorised(lookup, img, mask, gray)
  {
    var h, w := img.height, img.width;
    out := new Triple[h, w];
    var y := 0;
    while y < h
      invariant 0 <= y <= h
      invariant forall j, i :: 0 <= j < y && 0 <= i < w ==> out[j, i] == PixelAt(lookup, img, mask, gray, j, i)
    {
      var x := 0;
      while x < w
        invariant 0 <= x <= w
        invariant forall j, i :: 0 <= j < y && 0 <= i < w ==> out[j, i] == PixelAt(lookup, img, mask, gray, j, i)
        invariant forall i :: 0 <= i < x ==> out[y, i] == PixelAt(lookup, img, mask, gray, y, i)
      {
        var p := img.pixels[y][x];
        if gray {
          out[y, x] := GrayPixel(lookup, p, mask.levels[y][x]);
        } else {
          out[y, x] := ColorPixel(lookup, p, mask.channels[y][x]);
        }
        x := x + 1;
      }
      y := y + 1;
    }
    VectorisedAt(lookup, img, mask, gray);
    GridsEqual(Rows(out), Vectorised(lookup, img, mask, gray), w, h);
  }
}
