/** The iterator's constructor: load the symbol's records, split them into a training prefix
    and an evaluation slice, denoise the training prefix, build the evaluation set and fill
    the offset queue. */
module Construction {
  import opened Failures
  import opened StockRecords
  import opened RecordStore
  import opened Denoising
  import opened Offsets
  import opened TestDataSet
  import opened StockDataSetIterator

  /** The split is in range and the evaluation slice is longer than a window pair, so
      construction normalises evaluation inputs. */
  predicate EvaluationNormalises(records: seq<StockData>, exampleLength: nat, firstTestItemNumber: int, testItems: int) {
    && 0 <= firstTestItemNumber
    && 0 <= testItems
    && firstTestItemNumber + testItems <= |records|
    && testItems > exampleLength + 1
  }

  /** The split lies within the kept rows, which all fit the five channels. */
  predicate InRangeSplit(rows: seq<Row>, symbol: string, firstTestItemNumber: int, testItems: int) {
    && FitsVector(Kept(rows, symbol))
    && 0 <= firstTestItemNumber && 0 <= testItems
    && firstTestItemNumber + testItems <= |Kept(rows, symbol)|
  }

  /** The loaded bounds have non-empty ranges wherever construction normalises. */
  predicate NormalisableLoad(rows: seq<Row>, symbol: string, exampleLength: nat, firstTestItemNumber: int, testItems: int) {
    (InRangeSplit(rows, symbol, firstTestItemNumber, testItems) && testItems > exampleLength + 1)
    ==> ScanBoundsAsWritten(Kept(rows, symbol)).Spread()
  }

  /** The iterator built from an in-range split: the training slice is the first
      `firstTestItemNumber` records after the wavelet pass, the evaluation set comes from the
      raw records after them, and the queue is full. */
  function Build(records: seq<StockData>, bounds: Bounds, miniBatchSize: nat, exampleLength: nat,
                 firstTestItemNumber: nat, testItems: nat, wavelet: WaveletSetting): (it: Iterator)
    requires wavelet.Transform? ==> PreservesLength(wavelet.filter)
    requires firstTestItemNumber + testItems <= |records|
    requires testItems > exampleLength + 1 ==> bounds.Spread()
    ensures it.miniBatchSize == miniBatchSize && it.exampleLength == exampleLength
    ensures it.bounds == bounds
    ensures |it.train| == firstTestItemNumber
    ensures forall i :: 0 <= i < firstTestItemNumber ==> it.train[i].date == records[i].date
    ensures wavelet.Non? ==> it.train == records[..firstTestItemNumber]
    ensures it.train == ApplySetting(records[..firstTestItemNumber], wavelet)
    ensures it.test == GenerateTestDataSet(records[firstTestItemNumber..firstTestItemNumber + testItems], exampleLength, bounds)
    ensures it.offsets == InitialOffsets(firstTestItemNumber, exampleLength)
    ensures |it.test| == if testItems > exampleLength + 1 then testItems - exampleLength - 1 else 0
    ensures forall i :: 0 <= i < |it.test| ==>
      it.test[i].target == records[firstTestItemNumber + i + exampleLength].Features()
    ensures Valid(it)
    ensures firstTestItemNumber >= exampleLength + 1 ==> Cursor(it) == 0
    ensures Reset(it) == it
  {
    TrainKeepsDates(records, firstTestItemNumber, wavelet);
    TestLabelsFollowSplit(records, bounds, exampleLength, firstTestItemNumber, testItems);
    var train := ApplySetting(records[..firstTestItemNumber], wavelet);
    var test := GenerateTestDataSet(records[firstTestItemNumber..firstTestItemNumber + testItems], exampleLength, bounds);
    Iterator(miniBatchSize, exampleLength, bounds, train, test, InitialOffsets(|train|, exampleLength))
  }

  /** The wavelet pass keeps the dates of the training prefix. */
  lemma TrainKeepsDates(records: seq<StockData>, firstTestItemNumber: nat, wavelet: WaveletSetting)
    requires wavelet.Transform? ==> PreservesLength(wavelet.filter)
    requires firstTestItemNumber <= |records|
    ensures forall i :: 0 <= i < firstTestItemNumber ==>
      ApplySetting(records[..firstTestItemNumber], wavelet)[i].date == records[i].date
  {
    var raw := records[..firstTestItemNumber];
    assert forall i :: 0 <= i < firstTestItemNumber ==> raw[i] == records[i];
  }

  /** Evaluation entry `i` is labelled with record `firstTestItemNumber + i + exampleLength`. */
  lemma TestLabelsFollowSplit(records: seq<StockData>, bounds: Bounds, exampleLength: nat,
                              firstTestItemNumber: nat, testItems: nat)
    requires firstTestItemNumber + testItems <= |records|
    requires testItems > exampleLength + 1 ==> bounds.Spread()
    ensures var test := GenerateTestDataSet(records[firstTestItemNumber..firstTestItemNumber + testItems], exampleLength, bounds);
      forall i :: 0 <= i < |test| ==> test[i].target == records[firstTestItemNumber + i + exampleLength].Features()
  {
    var slice := records[firstTestItemNumber..firstTestItemNumber + testItems];
    assert forall j :: 0 <= j < |slice| ==> slice[j] == records[firstTestItemNumber + j];
  }

  /** The constructor after loading. Splits outside the record list fail as `List.subList`
      does, the training split being checked first. */
  function Assemble(records: seq<StockData>, bounds: Bounds, miniBatchSize: nat, exampleLength: nat,
                    firstTestItemNumber: int, testItems: int, wavelet: WaveletSetting): (r: Result<Iterator>)
    requires wavelet.Transform? ==> PreservesLength(wavelet.filter)
    requires EvaluationNormalises(records, exampleLength, firstTestItemNumber, testItems) ==> bounds.Spread()
    ensures var first, last := firstTestItemNumber, firstTestItemNumber + testItems;
      && (r.Success? <==> 0 <= first && 0 <= testItems && last <= |records|)
      && (first > |records| ==> r == Failure(IndexOutOfBounds))
      && (first < 0 ==> r == Failure(IllegalArgument))
      && (0 <= first <= |records| < last ==> r == Failure(IndexOutOfBounds))
      && (0 <= first <= |records| && last <= |records| && testItems < 0 ==> r == Failure(IllegalArgument))
    ensures r.Success? ==>
      r.value == Build(records, bounds, miniBatchSize, exampleLength, firstTestItemNumber, testItems, wavelet)
  {
    if firstTestItemNumber > |records| then Failure(IndexOutOfBounds)
    else if firstTestItemNumber < 0 then Failure(IllegalArgument)
    else if firstTestItemNumber + testItems > |records| then Failure(IndexOutOfBounds)
    else if testItems < 0 then Failure(IllegalArgument)
    else Success(Build(records, bounds, miniBatchSize, exampleLength, firstTestItemNumber, testItems, wavelet))
  }

  /** The constructor: loading fails on a kept row with too many columns; otherwise the
      loaded records and bounds are assembled into an iterator. */
  function Construct(rows: seq<Row>, symbol: string, miniBatchSize: nat, exampleLength: nat,
                     firstTestItemNumber: int, testItems: int, wavelet: WaveletSetting): (r: Result<Iterator>)
    requires wavelet.Transform? ==> PreservesLength(wavelet.filter)
    requires NormalisableLoad(rows, symbol, exampleLength, firstTestItemNumber, testItems)
    ensures !FitsVector(Kept(rows, symbol)) ==> r == Failure(ColumnOverflow)
    ensures r.Success? <==>
      && FitsVector(Kept(rows, symbol))
      && 0 <= firstTestItemNumber && 0 <= testItems
      && firstTestItemNumber + testItems <= |Kept(rows, symbol)|
    ensures r.Success? ==>
      && |r.value.train| == firstTestItemNumber
      && r.value.bounds == ScanBoundsAsWritten(Kept(rows, symbol))
      && |r.value.test| == (if testItems > exampleLength + 1 then testItems - exampleLength - 1 else 0)
      && r.value.offsets == InitialOffsets(firstTestItemNumber, exampleLength)
    ensures r.Success? ==>
      r.value == Build(Records(Kept(rows, symbol)), ScanBoundsAsWritten(Kept(rows, symbol)),
                       miniBatchSize, exampleLength, firstTestItemNumber, testItems, wavelet)
  {
    var loaded := ReadStockData(rows, symbol);
    if loaded.Failure? then Failure(loaded.error)
    else
      assert |loaded.value.0| == |Kept(rows, symbol)|;
      Assemble(loaded.value.0, loaded.value.1, miniBatchSize, exampleLength, firstTestItemNumber, testItems, wavelet)
  }

  /** Evaluation labels are the raw values of the kept rows: entry `i` is labelled with the
      row `exampleLength` steps after its window start in the evaluation slice. */
  lemma EvaluationLabelsAreRows(rows: seq<Row>, symbol: string, miniBatchSize: nat, exampleLength: nat,
                                firstTestItemNumber: int, testItems: int, wavelet: WaveletSetting, i: nat, k: nat)
    requires wavelet.Transform? ==> PreservesLength(wavelet.filter)
    requires NormalisableLoad(rows, symbol, exampleLength, firstTestItemNumber, testItems)
    requires InRangeSplit(rows, symbol, firstTestItemNumber, testItems)
    requires i + exampleLength + 1 < testItems
    requires k < VectorSize
    ensures firstTestItemNumber + i + exampleLength < |Kept(rows, symbol)|
    ensures Construct(rows, symbol, miniBatchSize, exampleLength, firstTestItemNumber, testItems, wavelet).Success?
    ensures i < |Construct(rows, symbol, miniBatchSize, exampleLength, firstTestItemNumber, testItems, wavelet).value.test|
    ensures Construct(rows, symbol, miniBatchSize, exampleLength, firstTestItemNumber, testItems, wavelet).value.test[i].target[k]
      == FieldOrZero(Kept(rows, symbol)[firstTestItemNumber + i + exampleLength], k)
  {
  }

  /** Only the training slice goes through the denoiser: the evaluation set and the bounds do
      not depend on the wavelet setting. */
  lemma EvaluationIgnoresWavelet(rows: seq<Row>, symbol: string, miniBatchSize: nat, exampleLength: nat,
                                 firstTestItemNumber: int, testItems: int, w1: WaveletSetting, w2: WaveletSetting)
    requires w1.Transform? ==> PreservesLength(w1.filter)
    requires w2.Transform? ==> PreservesLength(w2.filter)
    requires NormalisableLoad(rows, symbol, exampleLength, firstTestItemNumber, testItems)
    ensures var r1 := Construct(rows, symbol, miniBatchSize, exampleLength, firstTestItemNumber, testItems, w1);
      var r2 := Construct(rows, symbol, miniBatchSize, exampleLength, firstTestItemNumber, testItems, w2);
      && r1.Success? == r2.Success?
      && (r1.Success? ==> r1.value.test == r2.value.test && r1.value.bounds == r2.value.bounds)
  {
  }

  /** Evaluation inputs are normalised with the bounds of all loaded records, including the
      evaluation slice itself: every value an evaluation label holds lies within the bounds. */
  lemma EvaluationLabelsWithinBounds(rows: seq<Row>, symbol: string, miniBatchSize: nat, exampleLength: nat,
                                     firstTestItemNumber: int, testItems: int, wavelet: WaveletSetting, i: nat, k: nat)
    requires wavelet.Transform? ==> PreservesLength(wavelet.filter)
    requires NormalisableLoad(rows, symbol, exampleLength, firstTestItemNumber, testItems)
    requires InRangeSplit(rows, symbol, firstTestItemNumber, testItems)
    requires i + exampleLength + 1 < testItems
    requires k < VectorSize
    ensures Construct(rows, symbol, miniBatchSize, exampleLength, firstTestItemNumber, testItems, wavelet).Success?
    ensures i < |Construct(rows, symbol, miniBatchSize, exampleLength, firstTestItemNumber, testItems, wavelet).value.test|
    ensures var it := Construct(rows, symbol, miniBatchSize, exampleLength, firstTestItemNumber, testItems, wavelet).value;
      k < |Kept(rows, symbol)[firstTestItemNumber + i + exampleLength].fields| ==>
      it.bounds.minNum[k] <= it.test[i].target[k] <= it.bounds.maxNum[k]
  {
    EvaluationLabelsAreRows(rows, symbol, miniBatchSize, exampleLength, firstTestItemNumber, testItems, wavelet, i, k);
  }
}
