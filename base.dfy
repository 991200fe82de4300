/** Small shared vocabulary: bytes, optional values, results and 2-D grids. */
module Base {

  /** An 8-bit channel value, as stored in an RGB image or a grain mask. */
  type Byte = x: int | 0 <= x < 256

  datatype Option<T> = None | Some(value: T)

  datatype Result<T, E> = Ok(value: T) | Err(error: E)

  /** A 2-D grid stored row by row: `g[y][x]`. */
  type Grid<T> = seq<seq<T>>

  /** `g` has `h` rows of `w` cells each. */
  predicate Shaped<T>(g: Grid<T>, w: int, h: int) {
    |g| == h && forall y :: 0 <= y < |g| ==> |g[y]| == w
  }

  /** Two grids of one shape that agree cell by cell are the same grid. */
  lemma GridsEqual<T>(a: Grid<T>, b: Grid<T>, w: int, h: int)
    requires Shaped(a, w, h) && Shaped(b, w, h)
    requires forall y, x :: 0 <= y < h && 0 <= x < w ==> a[y][x] == b[y][x]
    ensures a == b
  {
    forall y | 0 <= y < h
      ensures a[y] == b[y]
    {
      assert |a[y]| == w == |b[y]|;
    }
  }
}
