# Latent-space distances between participants, strangers and friends

This project is a Dafny model of `batch_distance2.py`. The script reads a table of
participants. For each participant it loads a latent vector in the W+ space and brings it
to the W+ shape (18 layers × 512 values). It then computes the Euclidean distance to
the two "stranger" reference vectors of the participant's sex and, optionally, to a
named friend. The distances go into the row's `u1distance`, `u2distance` and
`fdistance` cells, and four counters record what happened.

Modules, leaf first:

- `Outcomes` (`outcomes.dfy`): `Option`, `Result` and the `Failure` values that stand
  for the exceptions the script raises and catches.
- `Arrays` (`arrays.dfy`): numpy arrays as a shape plus row-major data. The subset
  type `NdArray` requires exactly `Product(shape)` elements. It also holds `squeeze(0)`,
  `tile(w, (18, 1))` and W+ rows.
- `Normaliser` (`normaliser.dfy`): `preprocess_vector`.
- `Metric` (`metric.dfy`): `calculate_euclidean_distance`, kept as the SQUARED distance
  over the reals.
- `Loader` (`loader.dfy`): the dispatch of `load_latent_vector`. The extension picks
  the decoder. A `.pt` payload that is a dictionary yields its first key's value, a
  list yields its first element, and any other value yields itself. The decoders
  are an oracle: a `Disk` maps each existing path to what decoding it gives.
- `Batch` (`batch.dfy`): the body of `main`. It loads the reference set, runs the
  per-row state machine, runs the loop that writes cells in place and keeps the
  four counters, and defines a whole run.

The per-row order follows the code:

1. Check that the participant file exists.
2. Load and normalise the vector.
3. Only then look at the sex value.

So a participant with an unloadable vector and an invalid sex fails as a computation
error. The friend is only looked at once both stranger distances have been written.
The friend's result never changes the success or failure counters.

Behaviour of the code that is easy to miss, and that the model keeps:

- The participant vector is loaded and normalised before the sex value is examined
  (batch_distance2.py:173-186). An unloadable vector with an invalid sex therefore
  counts as a computation failure.
- The friend comparison is only reached on a row whose stranger distances were
  computed (batch_distance2.py:189-222). A row that fails never records a friend
  success or failure.
- An empty list in a `.pt` file fails just as an empty dictionary does:
  `tensor_data[0]` raises an `IndexError`, which is re-raised
  (batch_distance2.py:30-31, 42-44).
- Python dictionaries keep insertion order, so "the first key" is the first key the
  decoded payload lists (`Loader.Enumerate`).

## Model

| member | source | states |
|---|---|---|
| `Arrays.Repeat` | batch_distance2.py:62 | tiling `n` copies of a vector gives `n` times its length |
| `Arrays.RepeatCopy` | batch_distance2.py:62 | copy `i` of a tiled vector is exactly the original vector |
| `Arrays.RepeatAt` | batch_distance2.py:62 | element `k` of repeated copies of a 512-vector is element `k mod 512` of the vector |
| `Arrays.Squeeze` | batch_distance2.py:58 | `squeeze(0)` drops the leading dimension of size 1 and keeps the elements as they are |
| `Arrays.Tile` | batch_distance2.py:62 | `tile(w, (n, 1))` of a 512-vector has shape (n, 512) and element `k` equal to `w[k mod 512]` |
| `Normaliser.Reshape` | batch_distance2.py:57-62 | a (1, a, b) array is squeezed to (a, b) with its elements; a (512,) vector is tiled to (18, 512) with element `k` = `w[k mod 512]`; any other array is left unchanged |
| `Normaliser.Preprocess` | batch_distance2.py:52-68 | every successful result has shape (18, 512) with 9216 elements; every failure is a shape error naming a shape other than (18, 512) |
| `Normaliser.PreprocessAccepts` | batch_distance2.py:57-66 | normalisation succeeds if and only if the input shape is (512,), (18, 512) or (1, 18, 512); any other shape, such as (1, 512), (1, 1, 512) or (2, 18, 512), is rejected |
| `Normaliser.PreprocessTiles` | batch_distance2.py:61-62 | a (512,) vector becomes 18 rows, each exactly equal to the input |
| `Normaliser.PreprocessSqueezes` | batch_distance2.py:57-58 | a (1, 18, 512) array yields its inner (18, 512) matrix with the same elements |
| `Normaliser.PreprocessKeeps` | batch_distance2.py:65-68 | an (18, 512) array is returned unchanged |
| `Normaliser.PreprocessSqueezeEquivalent` | batch_distance2.py:57-68 | normalising a (1, 18, 512) array equals normalising its squeezed (18, 512) form |
| `Normaliser.PreprocessIdempotent` | batch_distance2.py:65-68 | normalising a normalised matrix gives it back |
| `Normaliser.PreprocessRejectsAfterSqueeze` | batch_distance2.py:57-66 | a (1, a, b) array with (a, b) ≠ (18, 512) fails, and the error reports the squeezed shape (a, b) |
| `Metric.SumSquaredDiff` | batch_distance2.py:79 | the sum of squared coordinate differences is never negative |
| `Metric.ConcatRowsIsPrefix` | batch_distance2.py:77-78 | the first `n` rows laid end to end are the first `n`·512 flattened values |
| `Metric.Flatten` | batch_distance2.py:77-78 | flattening a W+ matrix gives 9216 values |
| `Metric.FlattenIsRowMajor` | batch_distance2.py:77-78 | flattening lays rows 0..17 end to end (row index varies slowest), 9216 values in all |
| `Metric.Distance` | batch_distance2.py:71-81 | the squared distance between two W+ matrices is non-negative |
| `Metric.SqPositive` | batch_distance2.py:79 | a non-zero coordinate difference contributes a positive amount |
| `Metric.SumSquaredDiffSelf` | batch_distance2.py:79 | a vector is at distance zero from itself |
| `Metric.SumSquaredDiffSymmetric` | batch_distance2.py:79 | `w2 - w1` and `w1 - w2` give the same sum of squares |
| `Metric.SumSquaredDiffZero` | batch_distance2.py:79 | the sum of squares is zero if and only if the two vectors are equal |
| `Metric.SumSquaredDiffOneCoordinate` | batch_distance2.py:79 | vectors that differ in one coordinate by δ are at squared distance δ² |
| `Metric.DistanceToSelf` | batch_distance2.py:77-79 | distance(a, a) = 0 |
| `Metric.DistanceSymmetric` | batch_distance2.py:77-79 | distance(a, b) = distance(b, a) |
| `Metric.DistanceZeroIffEqual` | batch_distance2.py:77-79 | distance(a, b) = 0 if and only if a = b |
| `Metric.DistanceOneCoordinate` | batch_distance2.py:77-79 | a matrix changed by δ in one flattened coordinate is at squared distance δ² |
| `Loader.HasSuffix` | batch_distance2.py:20-46 | `endswith` holds exactly when the last characters of the path are, one by one, those of the extension |
| `Loader.SelectData` | batch_distance2.py:24-35 | a `.pt` payload fails if and only if it holds no value (empty dictionary or empty list, with the matching error); otherwise the result is the first value in enumeration order |
| `Loader.LoadLatent` | batch_distance2.py:16-49 | a load succeeds only for an existing path ending in `.pt` or `.npy`; any other extension is an unsupported-format error; an absent file with a known extension is a file-not-found error; an existing file that its extension's decoder cannot read is a decode error |
| `Loader.ExtensionsExclusive` | batch_distance2.py:20-46 | no path ends in both `.pt` and `.npy`, so exactly one branch applies |
| `Loader.LoadTorchPayload` | batch_distance2.py:20-40 | a `.pt` file loads if and only if its payload holds a value; it then loads as the array the decoder records for the first value (first key's value, element 0, or the value itself), whether that value is a tensor converted by `.numpy()` or another value coerced by `np.array`; otherwise it fails with the empty-dictionary or empty-list error |
| `Loader.LoadNumpyRoundTrip` | batch_distance2.py:46-47 | an array stored as `.npy` loads back unchanged |
| `Loader.LoadTorchRoundTrip` | batch_distance2.py:20-40 | a tensor stored alone, as a one-element list, or under a dictionary's only key in a `.pt` file loads back as the same array |
| `Batch.LoadNormalised` | batch_distance2.py:173-174 | a vector that loads and normalises exists on disk and has the W+ shape; a missing `.pt` file fails with file-not-found |
| `Batch.ReferenceMap` | batch_distance2.py:132-137 | the reference set has exactly the keys fu1, fu2, mu1 and mu2, each holding a W+ matrix |
| `Batch.PartialReferencesComplete` | batch_distance2.py:133-137 | filling the map one stranger file at a time, in the order fu1, fu2, mu1, mu2, ends with the reference set of the four files |
| `Batch.FindMissingStrangerFile` | batch_distance2.py:109-112 | the existence check finds nothing if and only if all four stranger files exist; otherwise it names the first absent file in the order fu1, fu2, mu1, mu2 |
| `Batch.LoadStrangers` | batch_distance2.py:132-141 | loading succeeds if and only if all four stranger files load and normalise, and then yields their reference set; on failure the error is that of the first file, in the order fu1, fu2, mu1, mu2, that fails |
| `Batch.BuildReferenceSet` | batch_distance2.py:102-141 | the reference set is built if and only if all four stranger files load and normalise, and it is then the set above; a missing stranger file aborts with file-not-found |
| `Batch.Lower` | batch_distance2.py:177-180 | lower-casing keeps the length, leaves no upper-case ASCII letter, maps each upper-case letter to its lower-case partner and leaves every other character as it is |
| `Batch.StrangerPair` | batch_distance2.py:177-186 | a sex value selects a pair exactly when it lower-cases to `f` or `m`, and the pair is two distinct keys of the reference set |
| `Batch.StrangerSelection` | batch_distance2.py:177-186 | `f`/`F` select (fu1, fu2), `m`/`M` select (mu1, mu2), every other value selects nothing (each as an if-and-only-if) |
| `Batch.LowerIsSingle` | batch_distance2.py:177-180 | a string lower-cases to `f` (or `m`) exactly when it is that letter in either case |
| `Batch.LatentPath` | batch_distance2.py:164 | the participant path `ptraw/<name>_01_latent.pt` always ends in `.pt`, so the container branch of the loader is used |
| `Batch.StrangerFilesArePt` | batch_distance2.py:102-107 | every stranger file name ends in `.pt` |
| `Batch.FriendOutcome` | batch_distance2.py:201-221 | the friend is attempted if and only if the table has a friend column and the cell is non-null and non-empty; the friend distance is computed if and only if, in addition, the friend's file loads and normalises, and it is then the distance from the participant's vector to the friend's; a failed attempt carries the friend's load error, file-not-found for a missing file |
| `Batch.ProcessRow` | batch_distance2.py:159-229 | a row computes if and only if its vector loads and normalises and its sex is text selecting a stranger pair; a friend is only tried on a computed row, and there its outcome is the friend comparison from the participant's vector; a missing participant file fails the row with nothing written; a load or shape failure fails the row whatever the sex |
| `Batch.RowFriendDistance` | batch_distance2.py:201-221 | on a computed row with a friend named, the friend cell is the distance from the participant to the friend when the friend's vector loads and normalises, and the friend's error otherwise |
| `Batch.RowDistancesBySex` | batch_distance2.py:177-198 | a computed row's two distances are from the participant's normalised vector to fu1 and fu2 for `f`/`F`, and to mu1 and mu2 for `m`/`M` |
| `Batch.InvalidSexFails` | batch_distance2.py:173-186 | a row whose vector loads but whose sex is not text or not f/F/m/M fails, with no distance and no friend attempt |
| `Batch.FriendIsolated` | batch_distance2.py:201-225 | the friend column never changes a row's status or stranger distances |
| `Batch.IdenticalVectorsGiveZero` | batch_distance2.py:189-194 | when every reference equals the participant's vector, both stranger distances are zero |
| `Batch.U1Cell` | batch_distance2.py:197 | a row's u1distance cell is non-null exactly when the row computed, and then holds its first stranger distance |
| `Batch.U2Cell` | batch_distance2.py:198 | a row's u2distance cell is non-null exactly when the row computed, and then holds its second stranger distance |
| `Batch.FCell` | batch_distance2.py:213 | a row's fdistance cell is non-null exactly when the friend distance was computed, and then holds it |
| `Batch.Count` | batch_distance2.py:168-229 | a computed row adds one to success and leaves failure as it was; any other row adds one to failure and leaves success; a computed friend adds one to friend success, a failed friend one to friend failure, each leaving the other friend counter as it was; a row with no friend attempt leaves both |
| `Batch.Tally` | batch_distance2.py:154-229 | over a whole table, success and failure add up to the number of rows |
| `Batch.TallyFriendsWithinSuccess` | batch_distance2.py:201-225 | friend successes plus friend failures never exceed the successful rows |
| `Batch.ColumnsMatchCounters` | batch_distance2.py:197-215 | the non-null u1distance and u2distance cells are exactly the successful rows, and the non-null fdistance cells exactly the friend successes |
| `Batch.Unfilled` | batch_distance2.py:144-147 | a freshly created distance column has one null cell per row |
| `Batch.FillRow` | batch_distance2.py:159-229 | one pass of the loop extends the finished rows by row `i`: its cells take the row's values, the later cells stay null, and the counters become the tally of rows 0..i |
| `Batch.ProcessRowInPlace` | batch_distance2.py:159-229 | one loop iteration sets row `i`'s three cells (still null beforehand) to that row's result: u1distance and u2distance stay null unless the row computed, fdistance unless the friend succeeded; every other cell is untouched and the counters advance by that row's outcome |
| `Batch.ProcessTable` | batch_distance2.py:143-229 | the loop leaves each column equal to the per-row results (null where nothing was computed) and the counters equal to the tally of those results |
| `Batch.Run` | batch_distance2.py:102-229 | a run completes if and only if the reference set loads, and then yields exactly the per-row columns and counters |
| `Batch.RunAccounting` | batch_distance2.py:154-229 | after a completed run: success + failure = rows, friend attempts ≤ successes, and the non-null cell counts equal the matching counters |

## Left out

- Decoding by `torch.load` and `np.load`, `.detach().cpu().numpy()` and the `np.array` coercion of non-tensor values are foreign library code. A `Disk` records what each file decodes to. A decoder error is `Undecodable`.
- Reading `source.xlsx` and writing `source_with_distances.xlsx` through pandas are file I/O. The table is a sequence of `Row` values, and the result is the three columns. Cell stringification is folded into the row: `Row.name` is the name as the f-string at line 164 renders it, and `Row.fname` is a non-null friend cell as the f-string at line 205 renders it, so a number in the friend column names the file `ptraw/<number>_01_latent.pt`, which is then tried.
- The existence checks of `source.xlsx` and of the `ptraw` folder, `sys.exit`, and the import checks are process plumbing. An aborted run is an `Err` result of `Batch.Run`.
- Console progress lines and the summary statistics block (mean, std, min, max, per-sex groups) are advisory floating-point output.
- Metric.Distance: gives the square of the value `np.linalg.norm` returns, over exact reals. The square root and floating-point rounding are not modelled. Squared distance is zero, symmetric and ordered exactly when the norm is.
- Batch.Lower: `str.lower()` is modelled on ASCII letters only. Non-ASCII letters are left as they are, and the length is always kept, whereas Python lower-cases a few letters (such as `İ`) to two characters.
- Batch.StrangerPair: `str.lower()` is modelled on ASCII letters only. No other character lower-cases to `f` or `m`, so the selection is unaffected.
- Batch.ProcessTable: the `fdistance` column is always returned. When the table has no `fname` column it stays entirely null, where the script does not create it.
- Row: the table is assumed to have `name` and `sex` columns. The script reads both cells at lines 160-161, outside the `try` at line 171, so a table missing either column raises a `KeyError` that ends the run with no output file; the model cannot represent such a table.
- Row identity: the table index from `iterrows` is taken to be the row position.
- Batch.ColumnsMatchCounters: elements are exact reals, so NaN and infinity are not modelled. In the script, a vector holding NaN (or infinities that cancel in `w2 - w1`) makes `np.linalg.norm` return NaN. That row still counts as a success, but pandas reads its NaN cell as missing, so the non-null cells can be fewer than the successes.
- Batch.RunAccounting: the same restriction to finite data applies to its non-null cell counts; success + failure = rows and friend attempts ≤ successes hold for any data.
