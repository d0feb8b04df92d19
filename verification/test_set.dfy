/** The evaluation set built once from the held-out records. */
module TestDataSet {
  import opened StockRecords
  import opened Windows

  /** One evaluation entry: a normalised input window in [time][channel] layout and, as its
      label (`target`), the raw feature vector of the record that follows it. */
  datatype TestPair = TestPair(input: seq<Vector>, target: Vector)

  /** The evaluation set of `generateTestDataSet`: one entry per start `i` with
      `i < |data| - (exampleLength + 1)`, pairing the normalised records
      `i .. i + exampleLength - 1` with the unnormalised record `i + exampleLength`. */
  function GenerateTestDataSet(data: seq<StockData>, exampleLength: nat, b: Bounds): (test: seq<TestPair>)
    requires |data| <= exampleLength + 1 || b.Spread()
    ensures |test| == if |data| > exampleLength + 1 then |data| - exampleLength - 1 else 0
    ensures forall i :: 0 <= i < |test| ==>
      && i + exampleLength + 1 < |data|
      && |test[i].input| == exampleLength
      && (forall c, k :: 0 <= c < exampleLength && 0 <= k < VectorSize ==>
            test[i].input[c][k] == Normalize(b, k, data[i + c].Features()[k]))
      && test[i].target == data[i + exampleLength].Features()
  {
    var n := if |data| > exampleLength + 1 then |data| - exampleLength - 1 else 0;
    seq(n, i requires 0 <= i < n =>
      TestPair(TimeWindow(data, i, exampleLength, b), data[i + exampleLength].Features()))
  }

  /** The loops of `generateTestDataSet`: the outer one over window starts, the inner one
      filling the input rows one time step at a time. */
  method BuildTestSet(data: seq<StockData>, exampleLength: nat, b: Bounds) returns (test: seq<TestPair>)
    requires |data| <= exampleLength + 1 || b.Spread()
    ensures test == GenerateTestDataSet(data, exampleLength, b)
  {
    var window := exampleLength + 1;
    test := [];
    var i := 0;
    while i < |data| - window
      invariant 0 <= i
      invariant |data| > window ==> i <= |data| - window
      invariant |data| <= window ==> i == 0
      invariant |test| == i
      invariant forall e :: 0 <= e < i ==>
        test[e] == TestPair(TimeWindow(data, e, exampleLength, b), data[e + exampleLength].Features())
    {
      var input: seq<Vector> := [];
      var j := i;
      while j < i + exampleLength
        invariant i <= j <= i + exampleLength
        invariant input == TimeWindow(data, i, j - i, b)
      {
        input := input + [NormalizeVector(b, data[j].Features())];
        j := j + 1;
      }
      test := test + [TestPair(input, data[i + exampleLength].Features())];
      i := i + 1;
    }
  }

  /** The raw label of entry `i` is the record that entry `i + 1` ends with: normalising the
      label gives that entry's last input row, and denormalising the row gives the label back. */
  lemma LabelIsNextInput(data: seq<StockData>, exampleLength: nat, b: Bounds, i: nat, k: nat)
    requires b.Spread() && exampleLength >= 1 && k < VectorSize
    requires i + 1 < |GenerateTestDataSet(data, exampleLength, b)|
    ensures var test := GenerateTestDataSet(data, exampleLength, b);
      && test[i + 1].input[exampleLength - 1] == NormalizeVector(b, test[i].target)
      && Denormalize(b, k, test[i + 1].input[exampleLength - 1][k]) == test[i].target[k]
  {
    var test := GenerateTestDataSet(data, exampleLength, b);
    assert i + 1 + (exampleLength - 1) == i + exampleLength;
    NormalizeRoundTrip(b, k, test[i].target[k]);
  }

  /** An evaluation input, transposed, is exactly the training example the iterator builds
      at the same start over the same records: both normalise with the same bounds. */
  lemma InputMatchesTrainingWindow(data: seq<StockData>, exampleLength: nat, b: Bounds, i: nat)
    requires b.Spread()
    requires i < |GenerateTestDataSet(data, exampleLength, b)|
    ensures IsWindow(ChannelMajor(GenerateTestDataSet(data, exampleLength, b)[i].input), data, i, exampleLength, b)
  {
  }
}
