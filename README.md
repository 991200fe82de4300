# Filmgrainer compositing core and command line, modelled in Dafny

Filmgrainer adds synthetic film grain to a photograph. It picks a grain-type preset, which gives a
grain size and a smoothing strength. It fetches a grain mask from an on-disk cache, or generates and
stores one. It then runs every pixel through a 256×256 tone-response table indexed by
(pixel value, mask value), either per RGB channel or on the pixel's luma in grayscale mode. Around
that sit an optional downscale and restore, and a number of sharpen passes. A small hand-written
option parser feeds the pipeline; `main` turns any parse failure into usage text and exit status -1.

The model is split into modules:

- `Base` (base.dfy): bytes, `Option`, `Result`, row-major grids.
- `Images` (images.dfy): RGB pixels, images whose grid has the size they report, grayscale and colour
  masks, the lookup table.
- `GrainTypes` (grain_types.dfy): the closed preset table.
- `MaskCache` (mask_cache.dfy): the saturation selection and the cache key. The cache is a class
  `Cache` whose `store: map<Key, Mask>` field stands for the mask files on disk. It has a generator
  function fixed when it is built, and a ghost log of the generator calls made.
- `Lookup` (lookup.dfy): the vectorised lookup, plane by plane as the NumPy code does it. Beside it
  are the per-pixel form of the commented-out loops and a method `ApplyLookup` that fills a fresh
  2-D array with nested loops. That method is proved equal to the vectorised form.
- `Pipeline` (pipeline.dfy): `process` as a method `Process` over a `Cache`. It rebinds the working
  image, and a `while` loop applies the sharpen filter. The method is proved equal to a functional
  specification, `ProcessSpec`, and the lemmas are stated about that function.
- `CommandLine` (arguments.dfy): `Arguments` as a class with one field per setting. `Parse` pops
  arguments off the front of a list, one option per `ReadOption` call. `ApplyDefaultOutput` names
  the output, and `Run` is `main`. The parser is proved equal to the recursive specification
  `ParseSpec`.

Collaborators that are not part of this model appear as parameters:

- `graingamma.Map.calculate` is `Env.calculate`, which must produce a 256×256 table. Its entries
  may be any integers.
- `graingen.grainGen` is `Cache.gen`.
- The Lanczos resize is `Env.resize` and one `ImageFilter.SHARPEN` pass is `Env.sharpen`.
- `astype('uint8')` is `Env.cast`.
- `float()` and `int()` on strings are `Conversions.toFloat` and `Conversions.toInt`. Either may
  reject its input.
- Loading and saving images are replaced by passing in the decoded source image and returning the
  image to be saved.

Two behaviours of the code that the model keeps:

- An input file that cannot be opened is not turned into usage text. `process` is called outside
  `main`'s `try`.
- `-h` is only an option while another argument follows it. A lone `-h` becomes the input file
  name (`CommandLine.LoneHelpIsInputFile`).

## Model

| member | source | states |
|---|---|---|
| `GrainTypes.GrainType` | filmgrainer/filmgrainer.py:11-25 | ids 1 to 4 and only those give a preset, every preset has positive size and gauss, any other id is an error carrying that id |
| `GrainTypes.GrainTypeIsTable` | filmgrainer/filmgrainer.py:16-25 | the branching definition equals the data table 1→(0.8,63), 2→(1.0,45), 3→(1.5,50), 4→(1.6666,50), with an error off the table |
| `GrainTypes.CoarserWithId` | filmgrainer/filmgrainer.py:17-23 | a higher grain-type id has a strictly larger grain size (fine, basic fine, coarse, coarser) |
| `MaskCache.SaturationSelection` | filmgrainer/filmgrainer.py:31-39 | grayscale: key says BW and the generator gets -1.0 whatever saturation was passed; colour: both get the given saturation; the other key and generator fields are the request's own |
| `MaskCache.KeyDeterminesGeneration` | filmgrainer/filmgrainer.py:38-44 | the generator call can be recovered from the key, so two requests with one key make the same generator call |
| `MaskCache.FetchHitOrMiss` | filmgrainer/filmgrainer.py:40-49 | a hit returns the stored mask and leaves the store as it was; a miss returns the generated mask and adds exactly that entry |
| `MaskCache.SecondFetchHits` | filmgrainer/filmgrainer.py:40-42 | after one fetch, a second with the same key returns the same mask and leaves the store unchanged |
| `MaskCache.FetchCoherent` | filmgrainer/filmgrainer.py:38-49 | from a store holding only generator output, a fetch returns exactly the generator's mask and the store keeps that property |
| `MaskCache.Cache.constructor` | filmgrainer/filmgrainer.py:27-28 | the cache starts from the masks already stored, with the given generator and no generator calls logged |
| `MaskCache.Cache.GetGrainMask` | filmgrainer/filmgrainer.py:30-49 | returns and stores what `Fetch` specifies; the generator is called (and logged) only on a miss |
| `MaskCache.FetchTwice` | filmgrainer/filmgrainer.py:40-49 | two consecutive requests with one key return the same mask; the store ends as after one `Fetch`, the generator is called once on a miss and never on a hit, so the second request makes no generator call; the mask is the generator's when the store was coherent |
| `Lookup.Luma` | filmgrainer/filmgrainer.py:112 | the grayscale index lies in [0, 255] and black gives 0; in this integer model white gives 255, where the source's floating-point luma truncates white to 254 (see Left out) |
| `Lookup.VectorisedAt` | filmgrainer/filmgrainer.py:86-121 | the vectorised output has the working image's size, and each cell equals the per-pixel computation of the commented-out loops |
| `Lookup.ColourChannels` | filmgrainer/filmgrainer.py:117-121 | colour mode keeps height and width, and each output channel is `lookup[source channel][mask channel]` at the same coordinates |
| `Lookup.GrayChannels` | filmgrainer/filmgrainer.py:110-115 | grayscale mode: all three output channels equal `lookup[luma][mask level]` |
| `Lookup.PixelLocality` | filmgrainer/filmgrainer.py:110-121 | an output pixel depends only on the source pixel and mask pixel at its own coordinates |
| `Lookup.ApplyLookup` | filmgrainer/filmgrainer.py:86-105 | the nested loops fill a fresh array of the working size whose rows equal the vectorised output |
| `Pipeline.Process` | filmgrainer/filmgrainer.py:52-135 | the run's result and the new mask store are those of `ProcessSpec`; an unknown grain type calls no generator |
| `Pipeline.SharpenPasses` | filmgrainer/filmgrainer.py:129-132 | no sharpen pass at all when sharpen <= 0; otherwise the first pass is applied to the input and sharpen - 1 more follow |
| `Pipeline.SharpenedAdd` | filmgrainer/filmgrainer.py:131-132 | n passes followed by m passes are m + n passes |
| `Pipeline.SharpenedFirst` | filmgrainer/filmgrainer.py:131-132 | n + 1 passes are n passes of the once-sharpened image |
| `Pipeline.SharpenedKeepsSize` | filmgrainer/filmgrainer.py:129-132 | any number of passes of a size-preserving filter preserve the size |
| `Pipeline.ScaleOneKeepsSize` | filmgrainer/filmgrainer.py:60-63 | at scale 1.0 the result does not depend on the resampler at all; a successful run has the source's dimensions when sharpen <= 0, and for any sharpen count with a size-preserving sharpen filter |
| `Pipeline.ScaledRunRestoresSize` | filmgrainer/filmgrainer.py:125-127 | at any other scale the grained image is resized to exactly (org_width, org_height) before sharpening, so with a resampler that returns the size asked for (for natural sizes) and a size-preserving filter the output has the source's dimensions |
| `Pipeline.HonoursTargetSatisfiable` | filmgrainer/filmgrainer.py:125-127 | the assumption that the resampler returns the requested size is met by some resampler, so the size clause above is not vacuous |
| `Pipeline.UnknownGrainTypeFailsEarly` | filmgrainer/filmgrainer.py:74-75 | at a non-zero scale, an unknown grain type fails the run with that id, leaving the mask store untouched (at scale 0 the run fails with `ZeroScale` first) |
| `Pipeline.ZeroScaleFailsFirst` | filmgrainer/filmgrainer.py:60-75 | a zero scale fails the run with `ZeroScale` (the source's division of the width by the scale), before the grain type is looked up and with the mask store untouched |
| `Pipeline.CacheTransparent` | filmgrainer/filmgrainer.py:73-75 | a run against a store holding only generator output gives the same result as a run against an empty store, and leaves only generator output stored |
| `CommandLine.Split` | filmgrainer/main.py:49 | `split(",")` always yields at least one piece, so the first part of a --power value always exists |
| `CommandLine.SplitJoin` | filmgrainer/main.py:49 | splitting on commas loses nothing (joining the pieces gives the text back) and no piece contains a comma |
| `CommandLine.SplitFirst` | filmgrainer/main.py:49 | a comma-free prefix followed by a comma is split off as the first piece |
| `CommandLine.SplitWhole` | filmgrainer/main.py:49 | comma-free text is one piece |
| `CommandLine.Arguments.constructor` | filmgrainer/main.py:6-18 | a fresh object holds the default settings |
| `CommandLine.NoOptions` | filmgrainer/main.py:7-18 | with only an input file: gray_scale false, grain_type 1, grain_sat 0.5, grain_power 0.7, shadows 0.2, highs 0.2, scale 1.0, sharpen 0, src_gamma 1.0, seed 1, no file_out |
| `CommandLine.Arguments.Parse` | filmgrainer/main.py:21-60 | the popping loop succeeds exactly when `ParseSpec` does, with the same fields, and fails with the same error |
| `CommandLine.Step` | filmgrainer/main.py:24-58 | one turn of the option loop succeeds exactly for --gray or a valued option whose value is accepted, and then leaves the list with its first one (--gray) or two (a valued option) elements popped |
| `CommandLine.Arguments.ReadOption` | filmgrainer/main.py:24-58 | one turn of the loop assigns the fields and leaves the arguments that one step of the specification leaves |
| `CommandLine.InputIsLast` | filmgrainer/main.py:23-59 | a successful parse had a non-empty list, and its input file is the list's last element |
| `CommandLine.MissingInput` | filmgrainer/main.py:23-59 | an empty list fails for want of an input file; a list of one valued option and its value fails, and when the value converts it fails for want of an input file |
| `CommandLine.GrayConsumesOne` | filmgrainer/main.py:24-58 | --gray consumes exactly one argument |
| `CommandLine.ValuedConsumesTwo` | filmgrainer/main.py:26-58 | each of --gamma, --type, --sat, -o, --seed, --scale, --sharpen and --power consumes itself and exactly one value |
| `CommandLine.UnknownOptionFails` | filmgrainer/main.py:53-57 | in option position, -h asks for usage and anything unrecognised raises an unknown-option error |
| `CommandLine.LoneHelpIsInputFile` | filmgrainer/main.py:23-59 | a lone -h is taken as the input file name, with the output named "-h-grain.png" |
| `CommandLine.PowerOrder` | filmgrainer/main.py:47-52 | `--power a,b,c` sets grain_power to a, highs to b and shadows to c |
| `CommandLine.Overwrite` | filmgrainer/main.py:26-52 | a second assignment of an option replaces the first |
| `CommandLine.RepeatedOptionOverwrites` | filmgrainer/main.py:23-58 | on the whole parse, `flag v1 flag v2 rest` reads as `flag v2 rest` |
| `CommandLine.OutputOnlyFromOption` | filmgrainer/main.py:35-37 | without -o in the list the parse leaves the output name as it started |
| `CommandLine.Arguments.ApplyDefaultOutput` | filmgrainer/main.py:109-110 | the output becomes the input name plus "-grain.png" when unset, and is kept otherwise |
| `CommandLine.Run` | filmgrainer/main.py:102-114 | the entry point's outcome is `MainSpec`: usage and exit -1, or a run with the settings |
| `CommandLine.DefaultRun` | filmgrainer/main.py:109-114 | with only an input file, `process` gets scale 1.0, gamma 1.0, power 0.7, shadows 0.2, highlights 0.2, grain type 1, saturation 0.5, colour mode, sharpen 0 and seed 1 in its positional order, and output name input + "-grain.png" |
| `CommandLine.MainOutcome` | filmgrainer/main.py:102-110 | any parse failure shows usage and exits -1; otherwise the run gets the parsed settings, and the output name is the input name plus "-grain.png" unless -o gave one |

## Left out

- Image decoding and encoding, `convert("RGB")`, saving with quality 97, and the progress messages.
  All of these are I/O or foreign library code. The model takes the decoded image in and returns
  the image to be saved.
- Lanczos resampling, the sharpen filter, `graingamma.Map.calculate` and `graingen.grainGen` are
  foreign or not shown. They are uninterpreted parameters. The table's 256×256 shape is a
  precondition of every run (`Process`, `ProcessSpec`). A resize to the size asked for and a
  size-preserving filter are assumed only by the lemmas that say so.
- `astype('uint8')` is an uninterpreted `int -> Byte` conversion. Its wrap-around is not modelled,
  because it depends on the table's unknown element type.
- A cache write that fails is left out. In the code, an `os.mkdir` or `mask.save` that raises
  aborts `process`; here `Cache.GetGrainMask` always stores the generated mask. A corrupt cache
  entry is not modelled either: a stored mask always reads back as stored.
- The cache's file system is left out: `os.path.isfile`, `mkdir`, the PNG file and the file name
  built with `str()` of floats. The key is a tuple. Reading a file back is taken to give exactly
  the mask that was stored; the entries a store starts with may be arbitrary. Concurrent runs
  sharing the cache directory are not modelled.
- Lookup.Luma: uses the integer formula (21r + 72g + 7b) / 100. The source uses floating point, which can
  come out one lower where the exact value is an integer; white (255, 255, 255) is one such case,
  giving 254 in the source and 255 here.
- `int(org_width / scale)` is modelled as exact rational division truncated toward zero.
  Floating-point rounding is not modelled. A scale of 0 fails as the division does. Sizes that are
  negative or zero are passed on to the resampler, whose errors are not modelled.
- When the mask does not have the working image's size and channel layout, the run fails. NumPy's
  broadcasting of size-1 axes is not modelled.
- `float()` and `int()` on strings are uninterpreted conversions that may fail. Python's NaN and
  infinity have no counterpart in `real`.
- The usage text and `sys.exit` are reduced to the outcome "usage, exit status -1".
- `Pipeline.Process`: the cache contract states only the new store and that an unknown grain type
  calls no generator. The number of generator calls in other runs is left to `GetGrainMask`.
