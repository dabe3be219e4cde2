# Random speaker-embedding anonymizer, modelled in Dafny

This project models `RandomAnonymizer`, the "random" anonymization strategy of
the Voice Privacy Challenge 2024 pipeline. The strategy replaces every speaker
or utterance embedding of a batch with a synthetic vector. It works in one of
two ways:

- **Mask path.** The default. Each vector is multiplied element-wise by fresh
  integer masks drawn from [-40, 40).
- **In-scale path.** Per-dimension (min, max) ranges are read from a statistics
  file. Each output coordinate is then a uniform draw from its own range.

The statistics are loaded lazily. The first read of `scaling_ranges` loads them
and later reads return the cached value.

Files:

- `wrappers.dfy` (module `Wrappers`): `Option`, `Result`, and the exceptions the
  strategy lets escape: `AttributeError`, `FileNotFound`, `NonIntegerKey`
  (`int(key)` fails), `MissingField` (`v["min"]`/`v["max"]` fails) and
  `EmptyStack` (`torch.stack([])`).
- `stats_loader.dfy` (module `StatsLoader`): `_load_scaling_ranges`. This covers
  Python's `int` on the keys, the stable numeric sort, the (min, max) extraction
  and the default file name. The file system is a map from path to the parsed
  JSON object's items in file order.
- `speaker_embeddings.dfy` (module `Embeddings`): the batch record
  (`SpeakerEmbeddings`). It holds identifiers, vectors, genders, speakers and
  the construction arguments.
- `random_anon.dfy` (module `RandomAnon`): the constructor, the lazy-load state
  machine, both batch transforms and the dispatch between them.

Modelling choices:

- **The two attributes behind `scaling_ranges`.** `stats_per_dim_path` and
  `_scaling_ranges` become one field with three states: `Unset`,
  `Pending(path)` and `Loaded(ranges)`. A strategy that is not in scale starts
  in `Loaded(None)`.
- **In scale without a path.** The source then never assigns `_scaling_ranges`,
  so reading the property raises `AttributeError`. The model keeps this
  behaviour. The loader's default file `stats_per_dim.json` is therefore never
  reached through the property, although the docstring at
  `random_anon.py:40-43` promises it.
- **A failed load.** The assignment never happens and the path is not cleared,
  so the state stays `Pending` and the next read calls the loader again.
- **Counting loader calls.** A ghost field `loaderCalls` counts the calls of
  `_load_scaling_ranges`.
- **Randomness.** It is an oracle passed in by the caller:
  - `masks(j, i)` is torch's integer for dimension `i` of the `j`-th vector.
    The lemmas about masked coordinates assume it lies in [-40, 39]; the
    methods take any oracle.
  - `units(j, i)` is the number that numpy's `uniform(low, high)` maps to
    `low + (high - low) * u`. The lemmas about drawn coordinates assume it lies
    in [0, 1).
- **Vectors.** They are `seq<real>`, and products and draws are exact.

The model keeps these behaviours of `random_anon.py`:

- `_anonymize_data_in_scale` (lines 123-126) never compares the input vector's
  length with the number of loaded ranges. Its vectors have one coordinate per
  range, whatever the input dimension.
- `_anonymize_data_in_scale` builds its batch without an `emb_level`
  (line 130). The batch gets the `SpeakerEmbeddings` constructor's default, written `None`.
- Both paths end in `torch.stack` (lines 99 and 133), which refuses an empty
  list. So an empty batch is an error in both paths.
- `_load_scaling_ranges` (lines 112-115) does not compare `min` with `max`.
  For a range with `min > max`, numpy's formula `low + (high - low) * u` gives
  `(max, min]`; numpy itself leaves `high < low` undefined.

## Model

| member | source | states |
|---|---|---|
| `StatsLoader.ParseInt` | anonymization/modules/speaker_embeddings/anonymization/random_anon.py:114 | `int(key)` succeeds iff the key is one or more digits with an optional leading `-` or `+`. An unsigned key reads as a non-negative number |
| `StatsLoader.ParseShowInt` | anonymization/modules/speaker_embeddings/anonymization/random_anon.py:114 | every integer's decimal key reads back as that integer (round trip) |
| `StatsLoader.SignedKey` | anonymization/modules/speaker_embeddings/anonymization/random_anon.py:114 | a `+` in front of a digit string keeps its value and a `-` negates it, leading zeros included ("+5" reads as 5, "-05" as -5, "-0" as 0) |
| `StatsLoader.LeadingZeroIgnored` | anonymization/modules/speaker_embeddings/anonymization/random_anon.py:114 | a leading zero does not change a key's value ("02" and "2" name the same dimension) |
| `StatsLoader.SortByIndex` | anonymization/modules/speaker_embeddings/anonymization/random_anon.py:114 | `sorted(..., key=int(k))` returns the items ordered by integer key and as a permutation of the input |
| `StatsLoader.SortStable` | anonymization/modules/speaker_embeddings/anonymization/random_anon.py:114 | the sort is stable: items with the same integer key keep their file order |
| `StatsLoader.SortedUnique` | anonymization/modules/speaker_embeddings/anonymization/random_anon.py:114 | two sequences sorted by key with the same per-key subsequences are equal, so the stable sort is unique |
| `StatsLoader.KeyAll` | anonymization/modules/speaker_embeddings/anonymization/random_anon.py:114 | every key is read as an integer. The call succeeds iff all keys are integers; otherwise it fails on the first key in file order that is not |
| `StatsLoader.RangesOf` | anonymization/modules/speaker_embeddings/anonymization/random_anon.py:112-113 | one (min, max) pair per item, in order, with keys dropped. The call succeeds iff every item has both fields; otherwise it fails on the first item in sorted order that lacks a field, with "min" when "min" is missing and "max" otherwise |
| `StatsLoader.ParseStats` | anonymization/modules/speaker_embeddings/anonymization/random_anon.py:111-115 | a successful load returns exactly one range per statistics entry. A key that is not an integer raises that key's `NonIntegerKey` (the first in file order), even when an entry also lacks "min" or "max", because `int(key)` runs inside `sorted` before any field is looked up |
| `StatsLoader.LoadScalingRanges` | anonymization/modules/speaker_embeddings/anonymization/random_anon.py:106-111 | no path means `stats_per_dim.json`. A path that is not a file raises `FileNotFound`; otherwise the file's entries are parsed |
| `StatsLoader.ParseStatsOkIff` | anonymization/modules/speaker_embeddings/anonymization/random_anon.py:112-115 | the load succeeds iff every key is an integer and every entry has "min" and "max" (both directions) |
| `StatsLoader.ParseStatsIsStableSort` | anonymization/modules/speaker_embeddings/anonymization/random_anon.py:112-115 | the loaded ranges are the bounds of the entries in the stable order by integer key. Any sorted sequence that keeps the file order of equal keys gives the same ranges |
| `StatsLoader.NumericNotLexicalOrder` | anonymization/modules/speaker_embeddings/anonymization/random_anon.py:112-115 | `{"10": (1,2), "2": (3,4)}` loads as `[(3,4), (1,2)]`: numeric, not string, order |
| `RandomAnon.ModelName` | anonymization/modules/speaker_embeddings/anonymization/random_anon.py:47 | a falsy (absent or empty) model name becomes `"random_" + vec_type`, any other is kept, and the result is never empty |
| `RandomAnon.InitialState` | anonymization/modules/speaker_embeddings/anonymization/random_anon.py:49-53 | not in scale: ranges cached as None. In scale with a path: load pending. In scale without one: nothing assigned |
| `RandomAnon.ReadScalingRanges` | anonymization/modules/speaker_embeddings/anonymization/random_anon.py:55-64 | a read calls the loader exactly when a path is pending. A successful read caches its result and clears the path; a failed one leaves the state unchanged. A cached read returns the cache, and an unassigned one raises `AttributeError` |
| `RandomAnon.ReadIsCached` | anonymization/modules/speaker_embeddings/anonymization/random_anon.py:59-64 | after a successful read, every later read returns the same value, keeps the state and calls no loader, even if the file changed |
| `RandomAnon.FailedLoadIsRetried` | anonymization/modules/speaker_embeddings/anonymization/random_anon.py:59-63 | a failed load keeps the path pending, so the next read calls the loader again |
| `RandomAnon.NotInScaleReadsNone` | anonymization/modules/speaker_embeddings/anonymization/random_anon.py:49-64 | with `in_scale=False` the property yields None, whatever path was given, and calls no loader |
| `RandomAnon.InScaleWithoutPathFails` | anonymization/modules/speaker_embeddings/anonymization/random_anon.py:49-64 | with `in_scale=True` and no path the property raises `AttributeError` and calls no loader, even when `stats_per_dim.json` exists |
| `RandomAnon.MaskVector` | anonymization/modules/speaker_embeddings/anonymization/random_anon.py:84-90 | a masked vector has the input vector's length |
| `RandomAnon.MaskedCoordinate` | anonymization/modules/speaker_embeddings/anonymization/random_anon.py:84-90 | masked coordinate i is input[i] × mask[i] with mask[i] in [-40, 39]. A zero mask gives zero, and the magnitude grows at most 40-fold |
| `RandomAnon.Draw` | anonymization/modules/speaker_embeddings/anonymization/random_anon.py:125 | `np.random.uniform(min, max)` with unit draw u is the point the fraction u of the way from min to max, `(1-u)·min + u·max`; u = 0 gives min |
| `RandomAnon.DrawWithinRange` | anonymization/modules/speaker_embeddings/anonymization/random_anon.py:125 | `uniform(min, max)` lies in [min, max) when min < max, equals min when they are equal, and lies in (max, min] otherwise |
| `RandomAnon.DrawVector` | anonymization/modules/speaker_embeddings/anonymization/random_anon.py:124-126 | an in-scale vector has one coordinate per stored range; `InScaleWithinRanges` pins coordinate i of vector j to `Draw(ranges[i], units(j, i))` |
| `RandomAnon.MaskedBatch` | anonymization/modules/speaker_embeddings/anonymization/random_anon.py:79-104 | mask path: identifiers in input order, one masked vector per entry, genders and speakers passed through, the caller's `emb_level` kept. An empty batch fails in `torch.stack` |
| `RandomAnon.InScaleBatch` | anonymization/modules/speaker_embeddings/anonymization/random_anon.py:117-138 | in-scale path: identifiers in input order, one drawn vector per entry, genders and speakers passed through, no `emb_level`. An empty batch fails in `torch.stack` |
| `RandomAnon.InScaleWithinRanges` | anonymization/modules/speaker_embeddings/anonymization/random_anon.py:123-126 | every in-scale vector has `len(scaling_ranges)` coordinates. Coordinate i of vector j is the fresh draw `Draw(ranges[i], units(j, i))` (one `uniform` per range per vector), and it lies within range i |
| `RandomAnon.InScaleIgnoresInput` | anonymization/modules/speaker_embeddings/anonymization/random_anon.py:123-128 | in-scale vectors do not depend on the input vectors' values or dimension |
| `RandomAnon.UsesScale` | anonymization/modules/speaker_embeddings/anonymization/random_anon.py:75 | `if self.scaling_ranges:` is true exactly when the ranges are neither None nor the empty list |
| `RandomAnon.Dispatch` | anonymization/modules/speaker_embeddings/anonymization/random_anon.py:75-78 | a failed read propagates unchanged. Non-empty ranges give exactly `InScaleBatch` over those ranges; None or `[]` gives exactly `MaskedBatch` with the caller's `emb_level`. Either way identifiers, count, genders and speakers are kept. Vector lengths are `len(ranges)` in scale and the input's when masked |
| `RandomAnon.EmptyStatsFallBackToMask` | anonymization/modules/speaker_embeddings/anonymization/random_anon.py:75-78 | an empty statistics list falls back to masking |
| `RandomAnon.RandomAnonymizer.constructor` | anonymization/modules/speaker_embeddings/anonymization/random_anon.py:20-53 | stores device and `vec_type`, derives the model name, sets the initial cache state, and has made no loader call yet. It keeps the source's defaults: `vec_type="xvector"`, no model name, `in_scale=False`, no path |
| `RandomAnon.RandomAnonymizer.ScalingRanges` | anonymization/modules/speaker_embeddings/anonymization/random_anon.py:55-64 | the property returns what `ReadScalingRanges` gives for the old state, moves to its next state, and adds its loader calls to the count |
| `RandomAnon.RandomAnonymizer.AnonymizeEmbeddings` | anonymization/modules/speaker_embeddings/anonymization/random_anon.py:66-104 | reads `scaling_ranges` once (state and loader count as that read leaves them) and returns `Dispatch` of that read. `emb_level` defaults to `"spk"` |
| `RandomAnon.RandomAnonymizer.AnonymizeMasked` | anonymization/modules/speaker_embeddings/anonymization/random_anon.py:79-104 | its loop builds the parallel identifier and vector lists and returns exactly `MaskedBatch` |
| `RandomAnon.RandomAnonymizer.AnonymizeDataInScale` | anonymization/modules/speaker_embeddings/anonymization/random_anon.py:117-138 | its loop builds the parallel lists from the cached ranges and returns exactly `InScaleBatch` |

## Left out

- Tensor mechanics are not modelled: `torch.zeros(...).random_`, `.to(device)`, `torch.stack` (beyond its refusal of an empty list) and `torch.tensor`. They are foreign library calls; random draws come from the caller's oracles.
- Floating-point rounding is not modelled; products and draws are exact reals. So `uniform` can never return `max` here, while rounding can make it do so in numpy.
- Opening the statistics file and parsing JSON are I/O. The model starts from the parsed object's items in file order. A file that is not valid JSON, a value that is not an object, and a "min" or "max" field that is present but not a number (JSON `null` or a string) are not modelled. Python loads such a field and fails only later, in `uniform`; here a field is either a number or absent.
- `StatsLoader.ParseInt`: accepts an optional sign and ASCII digits only. Python's `int` also strips surrounding whitespace and accepts `_` between digits and non-ASCII digits; those keys are reported as errors here. Recent CPython also raises ValueError on a decimal string of more than 4300 digits; the model accepts keys of any length.
- `RandomAnon.RandomAnonymizer.AnonymizeDataInScale`: reads the cached ranges once per vector from the state. The source re-reads the `scaling_ranges` property, which at that point always returns the cache unchanged.
- `RandomAnon.RandomAnonymizer.constructor`: takes no `**kwargs`, which the source accepts and ignores. `BaseAnonymizer.__init__` is assumed to store `vec_type` and `device`; base_anon.py is not part of this model.
- `RandomAnon.RandomAnonymizer.AnonymizeEmbeddings`: takes its arguments in a different order from the source. The file system and the random oracles come first, so that `emb_level` can come last with its default `"spk"`.
- `SpeakerEmbeddings` internals are not modelled (`speaker_embeddings.py` is not part of this model). A batch is a record; iterating it yields `(identifiers[j], vectors[j])`, and `set_vectors` stores its arguments.
- The `print` on the in-scale path, device selection and HyperPyYAML configuration are output and plumbing.
