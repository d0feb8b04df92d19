/** The sliding-window training iterator: a queue of window starts drawn from the front in
    batches, each start yielding a normalised input window and its one-step-later label window. */
module StockDataSetIterator {
  import opened Failures
  import opened StockRecords
  import opened Windows
  import opened Offsets
  import opened TestDataSet

  /** One batch. `starts` records which window start each example was built from; `features`
      and `labels` hold the examples in [example][channel][time] layout. */
  datatype DataSet = DataSet(starts: seq<nat>, features: seq<Example>, labels: seq<Example>)

  /** The iterator's state: its configuration, the (possibly denoised) training records, the
      bounds, the evaluation set built at construction, and the queue of window starts not yet
      drawn in this epoch. */
  datatype Iterator = Iterator(
    miniBatchSize: nat,
    exampleLength: nat,
    bounds: Bounds,
    train: seq<StockData>,
    test: seq<TestPair>,
    offsets: seq<nat>)

  /** The queue is what remains of the initial queue after draws from its front. */
  predicate Valid(it: Iterator) {
    IsSuffix(it.offsets, InitialOffsets(|it.train|, it.exampleLength))
  }

  /** A draw of `num` examples normalises something only when the batch is non-empty, and
      then every channel needs a non-empty range. */
  predicate CanNormalize(it: Iterator, num: nat) {
    num == 0 || |it.offsets| == 0 || it.bounds.Spread()
  }

  /** Every queued start is in range for both of its windows, and the queue is increasing. */
  lemma ValidOffsets(it: Iterator)
    requires Valid(it)
    ensures StrictlyIncreasing(it.offsets)
    ensures forall i :: 0 <= i < |it.offsets| ==> it.offsets[i] + it.exampleLength + 1 < |it.train|
  {
  }

  /** Dropping `n` more starts from the front of a valid queue leaves a valid queue. */
  lemma DropKeepsValid(it: Iterator, n: nat)
    requires Valid(it) && n <= |it.offsets|
    ensures Valid(it.(offsets := it.offsets[n..]))
  {
  }

  /** The training example drawn for start `o`: records `o .. o + exampleLength - 1`. */
  function InputExample(it: Iterator, o: nat): Example
    requires it.bounds.Spread() && o + it.exampleLength <= |it.train|
  {
    ChannelMajor(TimeWindow(it.train, o, it.exampleLength, it.bounds))
  }

  /** The label drawn for start `o`: records `o + 1 .. o + exampleLength`. */
  function LabelExample(it: Iterator, o: nat): Example
    requires it.bounds.Spread() && o + it.exampleLength + 1 <= |it.train|
  {
    ChannelMajor(TimeWindow(it.train, o + 1, it.exampleLength, it.bounds))
  }

  /** The input examples for the given starts, in order. */
  function InputExamples(it: Iterator, starts: seq<nat>): seq<Example>
    requires |starts| == 0 || it.bounds.Spread()
    requires forall j :: 0 <= j < |starts| ==> starts[j] + it.exampleLength + 1 < |it.train|
  {
    seq(|starts|, j requires 0 <= j < |starts| => InputExample(it, starts[j]))
  }

  /** The label examples for the given starts, in order. */
  function LabelExamples(it: Iterator, starts: seq<nat>): seq<Example>
    requires |starts| == 0 || it.bounds.Spread()
    requires forall j :: 0 <= j < |starts| ==> starts[j] + it.exampleLength + 1 < |it.train|
  {
    seq(|starts|, j requires 0 <= j < |starts| => LabelExample(it, starts[j]))
  }

  /** The examples of batch `ds` are the input and label windows of its starts; no record
      at or after index `|train| - 1` is read. */
  predicate BatchWindows(it: Iterator, ds: DataSet)
    requires it.bounds.Spread()
  {
    && |ds.features| == |ds.starts| && |ds.labels| == |ds.starts|
    && forall j :: 0 <= j < |ds.starts| ==>
         && ds.starts[j] + it.exampleLength + 2 <= |it.train|
         && IsWindow(ds.features[j], it.train, ds.starts[j], it.exampleLength, it.bounds)
         && IsWindow(ds.labels[j], it.train, ds.starts[j] + 1, it.exampleLength, it.bounds)
  }

  /** `next(num)`: fails on an empty queue; otherwise draws `min(num, queue size)` starts from
      the front of the queue, keeps the rest of the queue in order and the rest of the state
      as it was, and builds for each drawn start `o` the normalised window at `o` as input and
      the window at `o + 1` as label. */
  function Next(it: Iterator, num: nat): (r: Result<(DataSet, Iterator)>)
    requires Valid(it) && CanNormalize(it, num)
    ensures r.Failure? <==> |it.offsets| == 0
    ensures r.Failure? ==> r.error == NoSuchElement
    ensures r.Success? ==>
      var (ds, rest) := r.value;
      var n := Min(num, |it.offsets|);
      && ds.starts == it.offsets[..n]
      && rest == it.(offsets := it.offsets[n..])
      && (n > 0 ==> it.bounds.Spread() && BatchWindows(it, ds))
  {
    if |it.offsets| == 0 then Failure(NoSuchElement)
    else
      ValidOffsets(it);
      DropKeepsValid(it, Min(num, |it.offsets|));
      var n := Min(num, |it.offsets|);
      var starts := it.offsets[..n];
      Success((DataSet(starts, InputExamples(it, starts), LabelExamples(it, starts)), it.(offsets := it.offsets[n..])))
  }

  /** `next()`: a draw of the configured mini-batch size. */
  function NextDefault(it: Iterator): (r: Result<(DataSet, Iterator)>)
    requires Valid(it) && CanNormalize(it, it.miniBatchSize)
    ensures r.Success? ==> |r.value.0.starts| == Min(it.miniBatchSize, |it.offsets|)
  {
    Next(it, it.miniBatchSize)
  }

  /** `totalExamples()`: `|train| - exampleLength - 1`, which is the size of a full queue,
      or a non-positive number when the training slice is too short for any window. */
  function TotalExamples(it: Iterator): (r: int)
    ensures |InitialOffsets(|it.train|, it.exampleLength)| == if r > 0 then r else 0
  {
    |it.train| - it.exampleLength - 1
  }

  /** `cursor()`: when the training slice has room for a window pair, the number of starts
      drawn so far this epoch, that is the position in the full queue the remaining queue
      begins at. */
  function Cursor(it: Iterator): (r: int)
    ensures Valid(it) && |it.train| >= it.exampleLength + 1 ==>
      && 0 <= r <= TotalExamples(it)
      && it.offsets == InitialOffsets(|it.train|, it.exampleLength)[r..]
  {
    TotalExamples(it) - |it.offsets|
  }

  /** `hasNext()`: on a valid iterator, true exactly while the cursor has not reached the
      total number of examples. */
  function HasNext(it: Iterator): (r: bool)
    ensures Valid(it) ==> (r <==> Cursor(it) < TotalExamples(it))
  {
    |it.offsets| > 0
  }

  /** `reset()`: refills the queue with every start whose window pair fits, in increasing
      order, and changes nothing else. */
  function Reset(it: Iterator): (r: Iterator)
    ensures Valid(r)
    ensures forall o: nat :: o in r.offsets <==> o + it.exampleLength + 1 < |it.train|
    ensures StrictlyIncreasing(r.offsets)
    ensures |r.offsets| == if TotalExamples(it) > 0 then TotalExamples(it) else 0
    ensures r.(offsets := it.offsets) == it
  {
    it.(offsets := InitialOffsets(|it.train|, it.exampleLength))
  }

  /** A draw succeeds exactly when `hasNext()` holds. */
  lemma HasNextIffNextSucceeds(it: Iterator, num: nat)
    requires Valid(it) && CanNormalize(it, num)
    ensures HasNext(it) <==> Next(it, num).Success?
  {
  }

  /** Each draw advances the cursor by the number of examples it returns. */
  lemma CursorAdvances(it: Iterator, num: nat)
    requires Valid(it) && CanNormalize(it, num) && Next(it, num).Success?
    ensures Cursor(Next(it, num).value.1) == Cursor(it) + |Next(it, num).value.0.starts|
  {
  }

  /** Resetting forgets every draw: after any draw, and after a reset, a reset gives the
      same state as resetting right away. */
  lemma ResetRepeatable(it: Iterator, num: nat)
    requires Valid(it) && CanNormalize(it, num) && Next(it, num).Success?
    ensures Reset(Next(it, num).value.1) == Reset(it)
    ensures Reset(Reset(it)) == Reset(it)
  {
  }

  /** The label window of each drawn example is its input window shifted one step. */
  lemma LabelIsShiftedFeatures(it: Iterator, num: nat, j: nat)
    requires Valid(it) && CanNormalize(it, num) && Next(it, num).Success?
    requires j < |Next(it, num).value.0.starts|
    ensures var ds := Next(it, num).value.0;
      forall k, c :: 0 <= k < VectorSize && 0 <= c < it.exampleLength - 1 ==>
        ds.labels[j][k][c] == ds.features[j][k][c + 1]
  {
  }

  /** The inner loop of `next(num)` for start `startIdx`: walks a current record and the one
      after it, appending one normalised row of each per time step. */
  method FillWindows(it: Iterator, startIdx: nat) returns (inRows: seq<Vector>, labelRows: seq<Vector>)
    requires it.bounds.Spread() && startIdx + it.exampleLength + 1 <= |it.train|
    ensures ChannelMajor(inRows) == InputExample(it, startIdx)
    ensures ChannelMajor(labelRows) == LabelExample(it, startIdx)
  {
    var endIdx := startIdx + it.exampleLength;
    var curData := it.train[startIdx];
    inRows, labelRows := [], [];
    var i := startIdx;
    while i < endIdx
      invariant startIdx <= i <= endIdx
      invariant curData == it.train[i]
      invariant inRows == TimeWindow(it.train, startIdx, i - startIdx, it.bounds)
      invariant labelRows == TimeWindow(it.train, startIdx + 1, i - startIdx, it.bounds)
    {
      var nextData := it.train[i + 1];
      inRows := inRows + [NormalizeVector(it.bounds, curData.Features())];
      labelRows := labelRows + [NormalizeVector(it.bounds, nextData.Features())];
      curData := nextData;
      i := i + 1;
    }
  }

  /** The loops of `next(num)`: starts are removed from the front one at a time, each window
      is filled by walking a current and a next record, and the loop stops early once the
      queue runs dry. The early stop never shortens the batch. */
  method NextBatch(it: Iterator, num: nat) returns (r: Result<(DataSet, Iterator)>)
    requires Valid(it) && CanNormalize(it, num)
    ensures r == Next(it, num)
  {
    if |it.offsets| == 0 {
      return Failure(NoSuchElement);
    }
    ValidOffsets(it);
    var actualMiniBatchSize := Min(num, |it.offsets|);
    var queue := it.offsets;
    var starts: seq<nat> := [];
    var features: seq<Example> := [];
    var labels: seq<Example> := [];
    var index := 0;
    while index < actualMiniBatchSize
      invariant 0 <= index <= actualMiniBatchSize
      invariant queue == it.offsets[index..]
      invariant starts == it.offsets[..index]
      invariant |features| == index && |labels| == index
      invariant forall j :: 0 <= j < index ==>
        features[j] == InputExample(it, starts[j]) && labels[j] == LabelExample(it, starts[j])
    {
      var startIdx := queue[0];
      queue := queue[1..];
      var inRows, labelRows := FillWindows(it, startIdx);
      starts := starts + [startIdx];
      features := features + [ChannelMajor(inRows)];
      labels := labels + [ChannelMajor(labelRows)];
      index := index + 1;
      if |queue| == 0 {
        break;
      }
    }
    assert index == actualMiniBatchSize;
    assert features == InputExamples(it, starts);
    assert labels == LabelExamples(it, starts);
    assert queue == it.offsets[actualMiniBatchSize..];
    var res := Next(it, num);
    assert res.value.0 == DataSet(starts, features, labels);
    assert res.value.1 == it.(offsets := queue);
    return Success((DataSet(starts, features, labels), it.(offsets := queue)));
  }

  /** The starts of a sequence of batches, in draw order. */
  function AllStarts(batches: seq<DataSet>): seq<nat> {
    if |batches| == 0 then [] else batches[0].starts + AllStarts(batches[1..])
  }

  lemma AllStartsCons(ds: DataSet, batches: seq<DataSet>)
    ensures AllStarts([ds] + batches) == ds.starts + AllStarts(batches)
  {
    assert ([ds] + batches)[1..] == batches;
  }

  /** The batches of one epoch: `next()` is called while `hasNext()` holds. */
  function Epoch(it: Iterator): seq<DataSet>
    requires Valid(it) && it.miniBatchSize > 0 && CanNormalize(it, it.miniBatchSize)
    decreases |it.offsets|
  {
    if !HasNext(it) then []
    else
      var (ds, rest) := NextDefault(it).value;
      DropKeepsValid(it, |ds.starts|);
      [ds] + Epoch(rest)
  }

  /** One step of an epoch: the first batch is the `next()` draw, it is non-empty and at most
      the mini-batch size, it is full unless it empties the queue, and the epoch continues from
      the rest of the queue. */
  lemma EpochStep(it: Iterator) returns (ds: DataSet, rest: Iterator)
    requires Valid(it) && it.miniBatchSize > 0 && CanNormalize(it, it.miniBatchSize)
    requires HasNext(it)
    ensures NextDefault(it) == Success((ds, rest))
    ensures Valid(rest) && rest.miniBatchSize == it.miniBatchSize && CanNormalize(rest, it.miniBatchSize)
    ensures |rest.offsets| < |it.offsets|
    ensures it.offsets == ds.starts + rest.offsets
    ensures Epoch(it) == [ds] + Epoch(rest)
    ensures 0 < |ds.starts| <= it.miniBatchSize
    ensures |rest.offsets| > 0 ==> |ds.starts| == it.miniBatchSize
    ensures |Epoch(rest)| > 0 ==> |rest.offsets| > 0
  {
    ds, rest := NextDefault(it).value.0, NextDefault(it).value.1;
    var n := |ds.starts|;
    DropKeepsValid(it, n);
    assert it.offsets == it.offsets[..n] + it.offsets[n..];
  }

  /** An epoch hands out the queue exactly: the starts of its batches, concatenated, are the
      queue in order. */
  lemma {:induction false} EpochDrainsQueue(it: Iterator)
    requires Valid(it) && it.miniBatchSize > 0 && CanNormalize(it, it.miniBatchSize)
    ensures AllStarts(Epoch(it)) == it.offsets
    decreases |it.offsets|
  {
    if HasNext(it) {
      var ds, rest := EpochStep(it);
      EpochDrainsQueue(rest);
      AllStartsCons(ds, Epoch(rest));
    }
  }

  /** Every batch of an epoch is non-empty, none exceeds the mini-batch size, and all but the
      last are full. */
  lemma {:induction false} EpochBatchSizes(it: Iterator)
    requires Valid(it) && it.miniBatchSize > 0 && CanNormalize(it, it.miniBatchSize)
    ensures forall i :: 0 <= i < |Epoch(it)| ==> 0 < |Epoch(it)[i].starts| <= it.miniBatchSize
    ensures forall i :: 0 <= i < |Epoch(it)| - 1 ==> |Epoch(it)[i].starts| == it.miniBatchSize
    decreases |it.offsets|
  {
    if HasNext(it) {
      var ds, rest := EpochStep(it);
      var tail := Epoch(rest);
      var e := Epoch(it);
      EpochBatchSizes(rest);
      forall i | 0 <= i < |e|
        ensures 0 < |e[i].starts| <= it.miniBatchSize
        ensures i < |e| - 1 ==> |e[i].starts| == it.miniBatchSize
      {
        if i > 0 {
          assert e[i] == tail[i - 1];
        }
      }
    }
  }

  /** A full epoch after `reset()` yields every valid start exactly once, in strictly
      increasing order, `totalExamples()` of them when that is positive. */
  lemma EpochAfterReset(it: Iterator)
    requires it.miniBatchSize > 0 && CanNormalize(Reset(it), it.miniBatchSize)
    ensures var s := AllStarts(Epoch(Reset(it)));
      && StrictlyIncreasing(s)
      && (forall o: nat :: o in s <==> o + it.exampleLength + 1 < |it.train|)
      && |s| == if TotalExamples(it) > 0 then TotalExamples(it) else 0
  {
    EpochDrainsQueue(Reset(it));
  }
}
