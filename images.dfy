/** Pixel, image, mask and lookup-table values handled by the compositor. */
module Images {
  import opened Base

  /** One pixel of the source image after conversion to RGB. */
  datatype Rgb = Rgb(r: Byte, g: Byte, b: Byte)

  /** One pixel of the lookup output, before conversion back to 8 bits;
      the table's entries are not known to lie in [0, 255]. */
  datatype Triple = Triple(r: int, g: int, b: int)

  datatype Picture = Picture(width: nat, height: nat, pixels: Grid<Rgb>)

  /** An RGB image whose pixel grid has the size it reports. */
  type Image = p: Picture | Shaped(p.pixels, p.width, p.height) witness Picture(0, 0, [])

  /** A grain mask: a single-channel image in grayscale mode, an RGB image in colour mode. */
  datatype Mask = GrayMask(levels: Grid<Byte>) | ColorMask(channels: Grid<Rgb>)

  /** The mask has the mode's channel layout and the working image's size. */
  predicate Matches(m: Mask, gray: bool, w: nat, h: nat) {
    if gray then m.GrayMask? && Shaped(m.levels, w, h)
    else m.ColorMask? && Shaped(m.channels, w, h)
  }

  /** The tone-response table, indexed `table[pixel][grain]`. */
  type Table = seq<seq<int>>

  predicate IsTable(t: Table) {
    |t| == 256 && forall i :: 0 <= i < 256 ==> |t[i]| == 256
  }
}
