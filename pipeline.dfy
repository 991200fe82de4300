/** The compositing pipeline: optional downscale, tone map, grain mask, lookup, restore, sharpen. */
module Pipeline {
  import opened Base
  import opened Images
  import opened GrainTypes
  import opened MaskCache
  import opened Lookup

  /** Why a run fails. */
  datatype Error =
    | ZeroScale              // `org_width / scale` with scale 0
    | UnknownGrainType(typ: int)
    | ShapeMismatch          // the mask does not have the working image's size and layout

  /** The numeric parameters of one run. */
  datatype Params = Params(
    scale: real, srcGamma: real, grainPower: real, shadows: real, highs: real,
    grainType: int, grainSat: real, grayScale: bool, sharpen: int, seed: int)

  /** The collaborators the pipeline calls but does not define. */
  datatype Env = Env(
    calculate: (real, real, real, real) -> Table,  // the tone-response map from (gamma, power, shadows, highs)
    resize: (Image, int, int) -> Image,            // resampling to (width, height)
    sharpen: Image -> Image,                       // one sharpen filter pass
    cast: int -> Byte)                             // conversion of a table entry to 8 bits

  /** `int(x)` on a real: truncation toward zero. */
  function Trunc(x: real): int {
    if x >= 0.0 then x.Floor else -((-x).Floor)
  }

  /** The working image: the source itself at scale 1, otherwise the source resized by 1/scale. */
  function Downscale(src: Image, scale: real, env: Env): Result<Image, Error> {
    if scale == 1.0 then Ok(src)
    else if scale == 0.0 then Err(ZeroScale)
    else Ok(env.resize(src, Trunc(src.width as real / scale), Trunc(src.height as real / scale)))
  }

  /** The lookup output converted back to an 8-bit image. */
  function CastImage(g: Grid<Triple>, w: nat, h: nat, cast: int -> Byte): Image
    requires Shaped(g, w, h)
  {
    Picture(w, h, seq(h, y requires 0 <= y < h =>
      seq(w, x requires 0 <= x < w => Rgb(cast(g[y][x].r), cast(g[y][x].g), cast(g[y][x].b)))))
  }

  /** `n` sharpen passes, applied one after another; none when `n <= 0`. */
  function Sharpened(f: Image -> Image, n: int, img: Image): Image
    decreases n
  {
    if n <= 0 then img else f(Sharpened(f, n - 1, img))
  }

  /** The grained image at the working size and the mask store afterwards. */
  function Grained(store: map<Key, Mask>, gen: GenArgs -> Mask, img: Image, p: Params, env: Env)
    : (Result<Image, Error>, map<Key, Mask>)
    requires IsTable(env.calculate(p.srcGamma, p.grainPower, p.shadows, p.highs))
  {
    var lookup := env.calculate(p.srcGamma, p.grainPower, p.shadows, p.highs);
    match GrainType(p.grainType)
    case Err(t) => (Err(UnknownGrainType(t)), store)
    case Ok(preset) =>
      var q := MakeRequest(img.width, img.height, p.grainSat, p.grayScale, preset.size, preset.gauss, p.seed);
      var (mask, store') := Fetch(store, gen, q);
      if !Matches(mask, p.grayScale, img.width, img.height) then (Err(ShapeMismatch), store')
      else
        VectorisedAt(lookup, img, mask, p.grayScale);
        (Ok(CastImage(Vectorised(lookup, img, mask, p.grayScale), img.width, img.height, env.cast)), store')
  }

  /** The working image back at the original size when it was scaled, then sharpened. */
  function Finish(lit: Image, p: Params, orgWidth: nat, orgHeight: nat, env: Env): Image {
    var restored := if p.scale != 1.0 then env.resize(lit, orgWidth, orgHeight) else lit;
    Sharpened(env.sharpen, p.sharpen, restored)
  }

  /** The whole run: its outcome and the mask store afterwards. */
  function ProcessSpec(store: map<Key, Mask>, gen: GenArgs -> Mask, src: Image, p: Params, env: Env)
    : (Result<Image, Error>, map<Key, Mask>)
    requires IsTable(env.calculate(p.srcGamma, p.grainPower, p.shadows, p.highs))
  {
    match Downscale(src, p.scale, env)
    case Err(e) => (Err(e), store)
    case Ok(img) =>
      match Grained(store, gen, img, p, env).0
      case Err(e) => (Err(e), Grained(store, gen, img, p, env).1)
      case Ok(lit) => (Ok(Finish(lit, p, src.width, src.height, env)), Grained(store, gen, img, p, env).1)
  }

  /** Loads nothing and saves nothing: takes the decoded source and returns the image to be saved. */
  method Process(cache: Cache, src: Image, p: Params, env: Env) returns (r: Result<Image, Error>)
    requires IsTable(env.calculate(p.srcGamma, p.grainPower, p.shadows, p.highs))
    modifies cache
    ensures (r, cache.store) == ProcessSpec(old(cache.store), cache.gen, src, p, env)
    ensures GrainType(p.grainType).Err? ==> cache.generated == old(cache.generated)
  {
    var orgWidth, orgHeight := src.width, src.height;
    var img := src;
    if p.scale != 1.0 {
      if p.scale == 0.0 {
        return Err(ZeroScale);
      }
      img := env.resize(img, Trunc(orgWidth as real / p.scale), Trunc(orgHeight as real / p.scale));
    }
    var imgWidth, imgHeight := img.width, img.height;
    var lookup := env.calculate(p.srcGamma, p.grainPower, p.shadows, p.highs);
    var preset := GrainType(p.grainType);
    if preset.Err? {
      return Err(UnknownGrainType(preset.error));
    }
    var mask := cache.GetGrainMask(imgWidth, imgHeight, p.grainSat, p.grayScale,
                                   preset.value.size, preset.value.gauss, p.seed);
    if !Matches(mask, p.grayScale, imgWidth, imgHeight) {
      return Err(ShapeMismatch);
    }
    var out := ApplyLookup(lookup, img, mask, p.grayScale);
    VectorisedAt(lookup, img, mask, p.grayScale);
    img := CastImage(Rows(out), imgWidth, imgHeight, env.cast);
    if p.scale != 1.0 {
      img := env.resize(img, orgWidth, orgHeight);
    }
    if p.sharpen > 0 {
      ghost var restored := img;
      var i := 0;
      while i < p.sharpen
        invariant 0 <= i <= p.sharpen
        invariant img == Sharpened(env.sharpen, i, restored)
      {
        img := env.sharpen(img);
        i := i + 1;
      }
    }
    return Ok(img);
  }

  // ---- Properties of the pipeline ----

  /** Sharpening n passes then m passes is m + n passes: the passes run one after another. */
  lemma {:induction false} SharpenedAdd(f: Image -> Image, m: nat, n: nat, img: Image)
    ensures Sharpened(f, m, Sharpened(f, n, img)) == Sharpened(f, m + n, img)
    decreases m
  {
    if m > 0 {
      SharpenedAdd(f, m - 1, n, img);
    }
  }

  /** A pass is applied first to the input: n + 1 passes are n passes of the once-sharpened image. */
  lemma {:induction false} SharpenedFirst(f: Image -> Image, n: nat, img: Image)
    ensures Sharpened(f, n + 1, img) == Sharpened(f, n, f(img))
  {
    SharpenedAdd(f, n, 1, img);
  }

  /** No pass at all when `n <= 0`; otherwise the first pass is applied to the input and
      `n - 1` more follow. */
  lemma SharpenPasses(f: Image -> Image, n: int, img: Image)
    ensures n <= 0 ==> Sharpened(f, n, img) == img
    ensures n > 0 ==> Sharpened(f, n, img) == Sharpened(f, n - 1, f(img))
  {
    if n > 0 {
      SharpenedFirst(f, n - 1, img);
    }
  }

  /** The filter returns an image of its input's size. */
  ghost predicate KeepsSize(f: Image -> Image) {
    forall im: Image :: f(im).width == im.width && f(im).height == im.height
  }

  /** Asked for a size of natural numbers, the resampler returns an image of exactly that size. */
  ghost predicate HonoursTarget(resize: (Image, int, int) -> Image) {
    forall im: Image, w: nat, h: nat :: resize(im, w, h).width == w && resize(im, w, h).height == h
  }

  /** A black image of the requested size, clamped at zero. */
  function Blank(im: Image, w: int, h: int): Image {
    var w', h' := if w < 0 then 0 else w, if h < 0 then 0 else h;
    Picture(w', h', seq(h', y => seq(w', x => Rgb(0, 0, 0))))
  }

  /** Some resampler honours its target, so lemmas that assume it are not vacuous. */
  lemma HonoursTargetSatisfiable()
    ensures HonoursTarget(Blank)
  {
  }

  /** A size-preserving filter applied any number of times preserves the size. */
  lemma {:induction false} SharpenedKeepsSize(f: Image -> Image, n: int, img: Image)
    requires KeepsSize(f)
    ensures Sharpened(f, n, img).width == img.width && Sharpened(f, n, img).height == img.height
    decreases n
  {
    if n > 0 {
      SharpenedKeepsSize(f, n - 1, img);
    }
  }

  /** At scale 1 the resampler is never consulted; a successful run has the source's
      dimensions when no sharpen pass runs, and with a size-preserving sharpen filter always. */
  lemma ScaleOneKeepsSize(store: map<Key, Mask>, gen: GenArgs -> Mask, src: Image, p: Params,
                          env: Env, otherResize: (Image, int, int) -> Image)
    requires p.scale == 1.0
    requires IsTable(env.calculate(p.srcGamma, p.grainPower, p.shadows, p.highs))
    ensures ProcessSpec(store, gen, src, p, env) == ProcessSpec(store, gen, src, p, env.(resize := otherResize))
    ensures KeepsSize(env.sharpen) && ProcessSpec(store, gen, src, p, env).0.Ok? ==>
      && ProcessSpec(store, gen, src, p, env).0.value.width == src.width
      && ProcessSpec(store, gen, src, p, env).0.value.height == src.height
    ensures p.sharpen <= 0 && ProcessSpec(store, gen, src, p, env).0.Ok? ==>
      && ProcessSpec(store, gen, src, p, env).0.value.width == src.width
      && ProcessSpec(store, gen, src, p, env).0.value.height == src.height
  {
    var r := ProcessSpec(store, gen, src, p, env).0;
    if KeepsSize(env.sharpen) && r.Ok? {
      var lit := Grained(store, gen, src, p, env).0.value;
      SharpenedKeepsSize(env.sharpen, p.sharpen, lit);
    }
  }

  /** At any other scale the grained image is resized to exactly the original
      (width, height) before sharpening, so with a resampler that honours its target and a
      size-preserving filter a successful run has the source's dimensions. */
  lemma ScaledRunRestoresSize(store: map<Key, Mask>, gen: GenArgs -> Mask, src: Image, p: Params, env: Env)
    requires p.scale != 1.0
    requires IsTable(env.calculate(p.srcGamma, p.grainPower, p.shadows, p.highs))
    ensures ProcessSpec(store, gen, src, p, env).0.Ok? ==>
      && Downscale(src, p.scale, env).Ok?
      && var img := Downscale(src, p.scale, env).value;
         Grained(store, gen, img, p, env).0.Ok?
         && ProcessSpec(store, gen, src, p, env).0.value
            == Sharpened(env.sharpen, p.sharpen, env.resize(Grained(store, gen, img, p, env).0.value, src.width, src.height))
    ensures HonoursTarget(env.resize) && KeepsSize(env.sharpen) && ProcessSpec(store, gen, src, p, env).0.Ok? ==>
      && ProcessSpec(store, gen, src, p, env).0.value.width == src.width
      && ProcessSpec(store, gen, src, p, env).0.value.height == src.height
  {
    var r := ProcessSpec(store, gen, src, p, env).0;
    if HonoursTarget(env.resize) && KeepsSize(env.sharpen) && r.Ok? {
      var img := Downscale(src, p.scale, env).value;
      var restored := env.resize(Grained(store, gen, img, p, env).0.value, src.width, src.height);
      SharpenedKeepsSize(env.sharpen, p.sharpen, restored);
    }
  }

  /** An unknown grain type fails the run before any mask is fetched, generated or stored
      (unless scale 0 failed it earlier still). */
  lemma UnknownGrainTypeFailsEarly(store: map<Key, Mask>, gen: GenArgs -> Mask, src: Image, p: Params, env: Env)
    requires GrainType(p.grainType).Err? && p.scale != 0.0
    requires IsTable(env.calculate(p.srcGamma, p.grainPower, p.shadows, p.highs))
    ensures ProcessSpec(store, gen, src, p, env) == (Err(UnknownGrainType(p.grainType)), store)
  {
  }

  /** A zero scale fails the run before the grain type is even looked up, leaving the store
      untouched, whatever the grain type. */
  lemma ZeroScaleFailsFirst(store: map<Key, Mask>, gen: GenArgs -> Mask, src: Image, p: Params, env: Env)
    requires p.scale == 0.0
    requires IsTable(env.calculate(p.srcGamma, p.grainPower, p.shadows, p.highs))
    ensures ProcessSpec(store, gen, src, p, env) == (Err(ZeroScale), store)
  {
  }

  /** A run against any store holding only genuine generator output gives the same image as
      a run against an empty store, and leaves the store holding only generator output. */
  lemma CacheTransparent(store: map<Key, Mask>, gen: GenArgs -> Mask, src: Image, p: Params, env: Env)
    requires Coherent(store, gen)
    requires IsTable(env.calculate(p.srcGamma, p.grainPower, p.shadows, p.highs))
    ensures ProcessSpec(store, gen, src, p, env).0 == ProcessSpec(map[], gen, src, p, env).0
    ensures Coherent(ProcessSpec(store, gen, src, p, env).1, gen)
  {
    if Downscale(src, p.scale, env).Ok? && GrainType(p.grainType).Ok? {
      var img := Downscale(src, p.scale, env).value;
      var preset := GrainType(p.grainType).value;
      FetchCoherent(store, gen, img.width, img.height, p.grainSat, p.grayScale, preset.size, preset.gauss, p.seed);
      FetchCoherent(map[], gen, img.width, img.height, p.grainSat, p.grayScale, preset.size, preset.gauss, p.seed);
    }
  }
}
