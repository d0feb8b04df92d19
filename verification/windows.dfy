/** Normalised windows of consecutive records, in the two layouts the iterator produces. */
module Windows {
  import opened StockRecords

  /** One training example in ND4J's [channel][time] layout. */
  type Example = seq<seq<real>>

  /** `e` is the normalised window of the `len` records of `data` starting at `o`, in
      channel-major layout: `e[k][c]` is channel `k` of record `o + c`, normalised. */
  predicate IsWindow(e: Example, data: seq<StockData>, o: nat, len: nat, b: Bounds)
    requires b.Spread()
  {
    && o + len <= |data|
    && |e| == VectorSize
    && forall k :: 0 <= k < VectorSize ==>
         && |e[k]| == len
         && forall c :: 0 <= c < len ==> e[k][c] == Normalize(b, k, data[o + c].Features()[k])
  }

  /** The normalised records `data[o .. o + len - 1]`, one feature vector per time step. */
  function TimeWindow(data: seq<StockData>, o: nat, len: nat, b: Bounds): (w: seq<Vector>)
    requires b.Spread() && o + len <= |data|
    ensures |w| == len
    ensures forall c :: 0 <= c < len ==> w[c] == NormalizeVector(b, data[o + c].Features())
  {
    var w := seq(len, c requires 0 <= c < len => NormalizeVector(b, data[o + c].Features()));
    forall c | 0 <= c < len
      ensures |w[c]| == VectorSize
    {
      assert w[c] == NormalizeVector(b, data[o + c].Features());
    }
    w
  }

  /** Transposes a time-major window into channel-major layout. */
  function ChannelMajor(w: seq<Vector>): (e: Example)
    ensures |e| == VectorSize
    ensures forall k :: 0 <= k < VectorSize ==>
      |e[k]| == |w| && forall c :: 0 <= c < |w| ==> e[k][c] == w[c][k]
  {
    seq(VectorSize, k requires 0 <= k < VectorSize =>
      seq(|w|, c requires 0 <= c < |w| => w[c][k]))
  }

  /** The channel-major transpose of a time window is that window in the training layout. */
  lemma ChannelMajorIsWindow(data: seq<StockData>, o: nat, len: nat, b: Bounds)
    requires b.Spread() && o + len <= |data|
    ensures IsWindow(ChannelMajor(TimeWindow(data, o, len, b)), data, o, len, b)
  {
  }

  /** The window one step later is the window shifted by one: position `c` of the later
      window holds what position `c + 1` of the earlier one holds. */
  lemma ShiftByOne(input: Example, target: Example, data: seq<StockData>, o: nat, len: nat, b: Bounds)
    requires b.Spread()
    requires IsWindow(input, data, o, len, b) && IsWindow(target, data, o + 1, len, b)
    ensures forall k, c :: 0 <= k < VectorSize && 0 <= c < len - 1 ==> target[k][c] == input[k][c + 1]
  {
  }
}
