# Sliding-window stock dataset iterator, in Dafny

This project models the dataset iterator of a stock-prediction application: `StockDataSetIterator`.
The iterator loads the daily records of one stock symbol and computes per-channel min/max bounds
over them. The five channels are open, close, low, high and volume. It then splits the records
into a training prefix and a held-out evaluation slice. The training prefix can optionally go
through a wavelet denoiser. The iterator hands out batches of fixed-length, min-max-normalised
windows over the training prefix. Each batch pairs an input window with the window one step
later, which is its label.

The iterator is a state value (`StockDataSetIterator.Iterator`). Its queue of window start
offsets is a `seq<nat>`. `Next`, `Reset`, `HasNext`, `TotalExamples` and `Cursor` are pure
functions over that value, and `NextBatch` replays the loops of `next(int)` step by step.
Rows arrive already parsed (`RecordStore.Row`). Values are `real`.

Modules, leaf first:

- `Failures` (failures.dfy): the exceptions the iterator raises, and a `Result` type.
- `StockRecords` (stock_data.dfy): the record, the bounds and min-max normalisation.
- `RecordStore` (record_store.dfy): the symbol filter and the running min/max of `readStockDataFromFile`.
- `Denoising` (denoising.dfy): the wavelet pass, seen as an opaque per-channel filter.
- `Windows` (windows.dfy): normalised windows in time-major and channel-major layout.
- `Offsets` (offsets.dfy): the offset queue that `initializeOffsets` builds.
- `TestDataSet` (test_set.dfy): the evaluation set built by `generateTestDataSet`.
- `StockDataSetIterator` (iterator.dfy): `next`, `reset`, `hasNext`, `totalExamples`, `cursor` and whole epochs.
- `Construction` (construction.dfy): the constructor, meaning load, split, denoise, evaluation set and queue.
- `Scenarios` (scenarios.dfy): one concrete run with ten records.

Notes on how the code behaves where a reader might expect otherwise:

- The queue holds the starts `0 .. N - exampleLength - 2`, where N is the training size. Start
  `N - exampleLength - 1` would still fit an input window and its label window, but it is never
  queued. As a result the last training record is never read (see `Next`, `ds.starts[j] +
  exampleLength + 2 <= |train|`). The evaluation set skips its last possible entry in the same way.
  The code is consistent with itself here: `totalExamples()` equals the size of the queue. The
  model follows the code.
- `totalExamples()` and `cursor()` become negative when the training slice is shorter than
  `exampleLength + 1`. The model keeps this behaviour.
- Bounds come from every loaded record, the evaluation slice included. They are computed before
  the split and before denoising.
- Training examples use the layout [example][channel][time]. Evaluation inputs use
  [time][channel]. The model builds both layouts from one `Windows.TimeWindow`.
- `next(num)` on an empty queue raises NoSuchElementException (`Failures.NoSuchElement`).
- `reset()` always refills the queue, although `resetSupported()` returns false.
- A zero-width channel range is not an error in the code. The division gives NaN for a value equal
  to the bound and an infinity otherwise. The model excludes it instead (see "Left out").
- A kept CSV row with more than five numeric columns makes the parse loop write past its
  five-slot array, and construction fails (`ColumnOverflow`). A row with fewer columns leaves the
  missing channels at 0.0, and those missing channels take no part in the bounds.

## Model

| member | source | states |
|---|---|---|
| `StockRecords.NormalizeRoundTrip` | src/main/java/com/deeplearning/stockprediction/StockPrediction.java:93 | scaling a normalised value back by `max - min` and adding `min`, as the evaluation code does with predictions, gives the raw value |
| `StockRecords.NormalizeRange` | src/main/java/com/deeplearning/stockprediction/StockDataSetIterator.java:81-85 | `min[k]` maps to 0 and `max[k]` to 1; values between the bounds map into [0, 1]; normalisation is strictly increasing |
| `RecordStore.Kept` | src/main/java/com/deeplearning/stockprediction/StockDataSetIterator.java:179-180 | a row is kept exactly when it is in the file and its symbol is the requested one |
| `RecordStore.KeptAppend` | src/main/java/com/deeplearning/stockprediction/StockDataSetIterator.java:179-189 | filtering distributes over concatenation, so the kept rows keep their file order |
| `RecordStore.KeptAll` | src/main/java/com/deeplearning/stockprediction/StockDataSetIterator.java:179-180 | a file holding only the requested symbol is kept whole and in order |
| `RecordStore.Scan` | src/main/java/com/deeplearning/stockprediction/StockDataSetIterator.java:179-188 | the running min/max encloses every value present in the rows; it moves only outward from its start; each bound is either its start value or some row's value |
| `RecordStore.ScanBoundsAsWritten` | src/main/java/com/deeplearning/stockprediction/StockDataSetIterator.java:175-188 | with the sentinels of `readStockDataFromFile` (min from `Double.MAX_VALUE`, max from `Double.MIN_VALUE`), the bounds enclose every value, every min is at most `Double.MAX_VALUE`, and every running max is at least `Double.MIN_VALUE > 0` |
| `RecordStore.ScanBounds` | src/main/java/com/deeplearning/stockprediction/StockDataSetIterator.java:175-188 | with the running max started at `-Double.MAX_VALUE`, the bounds enclose every value; over finite values, some row attains the min and the max of every channel that appears |
| `RecordStore.AsWrittenMaxNotAttained` | src/main/java/com/deeplearning/stockprediction/StockDataSetIterator.java:176 | one row with volume 0.0 leaves the as-written volume max at `Double.MIN_VALUE`, above every value; the corrected scan gives 0.0 |
| `RecordStore.ReadStockData` | src/main/java/com/deeplearning/stockprediction/StockDataSetIterator.java:170-195 | loading fails exactly when a kept row has more than five numeric columns; otherwise there is one record per kept row, in order, with that row's values, and the bounds are the as-written scan of the kept rows (Double.MIN_VALUE start for the max), enclosing every present value |
| `RecordStore.AsWrittenRaisesCorrected` | src/main/java/com/deeplearning/stockprediction/StockDataSetIterator.java:175-188 | the as-written and corrected scans have the same mins; each as-written max is the corrected max raised to `Double.MIN_VALUE`, so the two agree on every channel where some kept row holds a value of at least `Double.MIN_VALUE` |
| `Denoising.Denoise` | src/main/java/com/deeplearning/stockprediction/WaveletProcessor.java:20-89 | each channel series is filtered on its own and written back index-aligned; length, dates and symbols are unchanged |
| `Denoising.ApplySetting` | src/main/java/com/deeplearning/stockprediction/StockDataSetIterator.java:45-46 | the wavelet pass keeps the length of the training slice; with setting `Non` it changes nothing |
| `Denoising.DenoiseIdentity` | src/main/java/com/deeplearning/stockprediction/WaveletProcessor.java:81-89 | a filter that returns its input makes the pass the identity on all five channels |
| `Windows.ChannelMajorIsWindow` | src/main/java/com/deeplearning/stockprediction/StockDataSetIterator.java:71-91 | transposing a time window gives the [channel][time] example `next(int)` fills with `putScalar` |
| `Windows.ShiftByOne` | src/main/java/com/deeplearning/stockprediction/StockDataSetIterator.java:76-92 | the window one step later, at position `c`, holds what the earlier window holds at `c + 1` |
| `Offsets.InitialOffsets` | src/main/java/com/deeplearning/stockprediction/StockDataSetIterator.java:53-59 | the initial queue is strictly increasing; `o` is in it exactly when `o + exampleLength + 1 < N`; it has `N - exampleLength - 1` elements, or none when `N <= exampleLength + 1` |
| `Offsets.SuffixIncreasing` | src/main/java/com/deeplearning/stockprediction/StockDataSetIterator.java:74 | removing offsets from the front keeps the rest strictly increasing and drawn from the original queue |
| `StockDataSetIterator.ValidOffsets` | src/main/java/com/deeplearning/stockprediction/StockDataSetIterator.java:74-79 | every queued start `o` has `o + exampleLength + 1 < N`, so every record the windows read exists |
| `StockDataSetIterator.Next` | src/main/java/com/deeplearning/stockprediction/StockDataSetIterator.java:67-97 | fails with `NoSuchElement` exactly on an empty queue and then changes nothing. Otherwise it draws the first `min(num, queue size)` starts, keeps the remaining queue in order and everything else unchanged, and builds for each start the input window at `o` and the label window at `o + 1`, never reading beyond index `N - 2` |
| `StockDataSetIterator.NextDefault` | src/main/java/com/deeplearning/stockprediction/StockDataSetIterator.java:143 | `next()` draws `min(miniBatchSize, queue size)` examples |
| `StockDataSetIterator.TotalExamples` | src/main/java/com/deeplearning/stockprediction/StockDataSetIterator.java:100 | `totalExamples()` equals the size of a full queue when it is positive; otherwise the full queue is empty |
| `StockDataSetIterator.Cursor` | src/main/java/com/deeplearning/stockprediction/StockDataSetIterator.java:123 | on a valid iterator whose training slice fits a window pair, the cursor lies in `0 .. totalExamples()` and the queue is the full queue from position `cursor` on |
| `StockDataSetIterator.HasNext` | src/main/java/com/deeplearning/stockprediction/StockDataSetIterator.java:140 | on a valid iterator, `hasNext()` holds exactly while the cursor is below `totalExamples()` |
| `StockDataSetIterator.Reset` | src/main/java/com/deeplearning/stockprediction/StockDataSetIterator.java:117 | reset refills the queue with exactly the fitting starts, in strictly increasing order, `max(0, totalExamples())` of them, and changes nothing else |
| `StockDataSetIterator.HasNextIffNextSucceeds` | src/main/java/com/deeplearning/stockprediction/StockDataSetIterator.java:69 | a draw succeeds exactly when `hasNext()` holds |
| `StockDataSetIterator.CursorAdvances` | src/main/java/com/deeplearning/stockprediction/StockDataSetIterator.java:123 | each draw advances the cursor by the number of examples it returns |
| `StockDataSetIterator.ResetRepeatable` | src/main/java/com/deeplearning/stockprediction/StockDataSetIterator.java:117 | a reset after any draw, or after another reset, gives the same state as resetting right away |
| `StockDataSetIterator.LabelIsShiftedFeatures` | src/main/java/com/deeplearning/stockprediction/StockDataSetIterator.java:78-92 | in every drawn example, label position `c` equals input position `c + 1` on every channel |
| `StockDataSetIterator.FillWindows` | src/main/java/com/deeplearning/stockprediction/StockDataSetIterator.java:75-93 | the inner loop, which walks a current and a next record, builds exactly the input and label examples of the start |
| `StockDataSetIterator.NextBatch` | src/main/java/com/deeplearning/stockprediction/StockDataSetIterator.java:68-97 | the loop with `removeFirst` and the early `break` returns what `Next` describes; the break never shortens the batch |
| `StockDataSetIterator.EpochDrainsQueue` | src/main/java/com/deeplearning/stockprediction/StockPrediction.java:60-63 | calling `next()` while `hasNext()` holds hands out the queue exactly, in order |
| `StockDataSetIterator.EpochBatchSizes` | src/main/java/com/deeplearning/stockprediction/StockPrediction.java:60-63 | every batch of an epoch is non-empty and at most the mini-batch size, and all but the last are full |
| `StockDataSetIterator.EpochAfterReset` | src/main/java/com/deeplearning/stockprediction/StockPrediction.java:57-64 | an epoch after reset yields every fitting start exactly once, in strictly increasing order, `max(0, totalExamples())` of them |
| `TestDataSet.GenerateTestDataSet` | src/main/java/com/deeplearning/stockprediction/StockDataSetIterator.java:145-168 | the evaluation set has `max(0, M - exampleLength - 1)` entries; entry `i` holds the normalised records `i .. i + exampleLength - 1` and, unnormalised, record `i + exampleLength` |
| `TestDataSet.BuildTestSet` | src/main/java/com/deeplearning/stockprediction/StockDataSetIterator.java:145-168 | the two nested loops of `generateTestDataSet` build exactly that evaluation set |
| `TestDataSet.LabelIsNextInput` | src/main/java/com/deeplearning/stockprediction/StockDataSetIterator.java:150-164 | the raw label of entry `i` is the record entry `i + 1` ends with: normalising it gives that entry's last input row, and denormalising that row gives the label back |
| `TestDataSet.InputMatchesTrainingWindow` | src/main/java/com/deeplearning/stockprediction/StockDataSetIterator.java:152-156 | evaluation inputs, transposed, are the windows training would build over the same records with the same bounds |
| `Construction.Build` | src/main/java/com/deeplearning/stockprediction/StockDataSetIterator.java:37-51 | the training slice is the wavelet pass applied to the first `firstTestItemNumber` records, keeping their dates; the evaluation set is `generateTestDataSet` of the raw `testItems` records after the split, so it has `max(0, testItems - exampleLength - 1)` entries labelled with those records; the queue is the full queue of the training slice and the cursor is 0 |
| `Construction.Assemble` | src/main/java/com/deeplearning/stockprediction/StockDataSetIterator.java:43-49 | construction succeeds exactly when `0 <= firstTestItemNumber`, `0 <= testItems` and `firstTestItemNumber + testItems <= size`; it fails with IndexOutOfBounds or IllegalArgument in the order `List.subList` checks, training split first |
| `Construction.Construct` | src/main/java/com/deeplearning/stockprediction/StockDataSetIterator.java:37-51 | construction fails on a kept row with too many columns and on a split outside the kept rows, and otherwise succeeds. On success the iterator is `Build` of the loaded records and the as-written bounds of all kept rows: the training slice has `firstTestItemNumber` records, the evaluation set has `max(0, testItems - exampleLength - 1)` entries and the queue is full |
| `Construction.EvaluationLabelsAreRows` | src/main/java/com/deeplearning/stockprediction/StockDataSetIterator.java:159-164 | evaluation entry `i` is labelled with the raw values of the kept row `firstTestItemNumber + i + exampleLength`, a missing column giving 0.0 |
| `Construction.EvaluationIgnoresWavelet` | src/main/java/com/deeplearning/stockprediction/StockDataSetIterator.java:43-49 | only the training slice goes through the denoiser, so the evaluation set and the bounds are the same under every wavelet setting |
| `Construction.EvaluationLabelsWithinBounds` | src/main/java/com/deeplearning/stockprediction/StockDataSetIterator.java:38-49 | the bounds are taken over the evaluation records too, so every evaluation label value lies within them |
| `Scenarios.TenDayQueue` | src/main/java/com/deeplearning/stockprediction/StockDataSetIterator.java:53-59 | for ten records and example length 3, the queue starts as 0 .. 5 |
| `Scenarios.TenDayFirstDraw` | src/main/java/com/deeplearning/stockprediction/StockDataSetIterator.java:67-97 | with mini-batch size 2, the first draw takes starts 0 and 1 and leaves 2 .. 5; reset restores 0 .. 5 |
| `Scenarios.TenDayFirstExample` | src/main/java/com/deeplearning/stockprediction/StockDataSetIterator.java:76-92 | the first example reads the opens 1, 2, 3 and its label the opens 2, 3, 4, normalised against the range 1 .. 10 |
| `Scenarios.NormalizeMidpoint` | src/main/java/com/deeplearning/stockprediction/StockDataSetIterator.java:81 | with bounds 1 and 10, the value 5.5 normalises to 0.5 |

## Findings

| source | as written | input that shows it | evidently intended | confidence | as-written member | corrected member |
|---|---|---|---|---|---|---|
| src/main/java/com/deeplearning/stockprediction/StockDataSetIterator.java:176 | every running max starts at `Double.MIN_VALUE`, the smallest positive double | one kept row with volume 0.0, or any channel whose kept values are all at most 0: its max stays at `Double.MIN_VALUE`, which no row has, so no value normalises to 1 | the running max starts below every value (`-Double.MAX_VALUE`), so that it becomes the channel's largest value | medium, not executed | `RecordStore.AsWrittenMaxNotAttained` | `RecordStore.ScanBounds` |

`RecordStore.ScanBoundsAsWritten` keeps the sentinels of `readStockDataFromFile`, and
`RecordStore.ReadStockData`, and with it the constructor, uses it, so the iterator's bounds are the
program's. `RecordStore.ScanBounds` is the corrected scan, with attainment proved.
`RecordStore.AsWrittenRaisesCorrected` relates the two. The mins are always the same. A max
differs only for a channel where no kept row holds a value of at least `Double.MIN_VALUE`, which
includes a channel missing from every kept row and the case of no kept rows at all.

## Left out

- CSV reading is left out: the model takes already-parsed rows. Also left out are number parsing
  (a non-numeric field raises NumberFormatException) and rows with fewer than two columns.
- The swallowed `IOException`, which yields an empty record list, is left out, because file I/O is not modelled.
- `WaveletProcessor` internals are left out. Wavelet-packet decomposition, the VisuShrink threshold
  and hard thresholding belong to the foreign `jwave` library and to `WaveletCoefHandler`, which
  is not part of this model. The pass is an arbitrary per-channel filter `seq<real> -> seq<real>`.
  Its power-of-two length constraint and the failure for an unknown wavelet name are not modelled.
- The wavelet name is not modelled as a string. Its case-insensitive comparison with "Non" becomes the `WaveletSetting` choice `Non` or `Transform`.
- `Denoising.Denoise`: requires the filter to preserve length. A shorter reconstruction would
  raise ArrayIndexOutOfBoundsException in the Java code; the model does not cover that case.
- IEEE double semantics are left out; values are `real`. Normalisation requires every channel to
  satisfy `max > min`, but only where something is normalised: a non-empty training batch, or an
  evaluation set with entries. Two kinds of channel fail that condition:
  - a constant channel, where the Java code divides by zero and gets NaN for a value equal to the
    bound and an infinity otherwise;
  - a channel missing from every kept row, whose bounds stay at their sentinels, min
    `Double.MAX_VALUE` above max `Double.MIN_VALUE`. The Java code still computes finite
    normalised values there (the 0.0 filler maps to about 1.0).
- `StockDataSetIterator.Next`, `TestDataSet.GenerateTestDataSet`, `Construction.Construct`: both
  kinds of channel above are excluded by `requires`, not given a result.
- Java `int` overflow in `train.size() - window`, in `firstTestItemNumber + testItems` and in the
  array sizes is not modelled; integers are unbounded.
- Negative `exampleLength`, `miniBatchSize` or `num` are not modelled; those parameters are
  `nat`. The Java code passes them into ND4J array shapes, and ND4J's handling of negative
  shapes is not part of this model.
- With `miniBatchSize` 0 (or `num` 0), `Next` draws no starts, returns empty example sequences
  and leaves the queue as it was, which is what the loops of `next(int)` do. Whether ND4J accepts
  the zero dimension in the array shape `{0, 5, exampleLength}` is not part of this model. The epoch lemmas require a mini-batch size of at least 1, because the training
  loop would never end otherwise.
- ND4J tensors, `DataSet`, `Pair` and the 'f' memory order are left out. Batches are nested
  sequences in the Java code's index order.
- The `resetSupported`/`asyncSupported` flags, `inputColumns`, `totalOutcomes`, `batch` and
  `numExamples` are left out. They are constants or aliases with no behaviour beyond what is
  modelled, and `reset` is always valid here.
- The `setPreProcessor`, `getPreProcessor` and `getLabels` stubs are left out; they only throw UnsupportedOperationException.
- The getters `getTestDataSet`, `getMaxNum` and `getMinNum` are the fields `test` and `bounds` of the iterator state.
- `StockPrediction` is left out: network construction, training, model files, RMSE, logging and
  charts. Its training loop appears only as `Epoch`.
- In-place mutation and the aliasing of `subList` views are not modelled. Denoising returns a new
  training slice. The evaluation slice sits at disjoint indices, so it is unaffected in both the
  Java code and the model.
