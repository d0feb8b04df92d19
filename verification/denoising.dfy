/** The wavelet denoiser seen from the iterator: an opaque per-channel filter whose output
    overwrites the five channels of the training records in place. */
module Denoising {
  import opened StockRecords

  /** The configured wavelet: `Non` skips denoising; otherwise `filter` stands for the
      decompose / threshold / recompose pipeline applied to one channel series. */
  datatype WaveletSetting = Non | Transform(filter: seq<real> -> seq<real>)

  /** The filter returns a series as long as the one it is given. */
  ghost predicate PreservesLength(filter: seq<real> -> seq<real>) {
    forall xs :: |filter(xs)| == |xs|
  }

  /** The series of channel `k` across the records, in time order. */
  function ChannelSeries(data: seq<StockData>, k: nat): (xs: seq<real>)
    requires k < VectorSize
    ensures |xs| == |data|
    ensures forall i :: 0 <= i < |data| ==> xs[i] == data[i].Features()[k]
  {
    seq(|data|, i requires 0 <= i < |data| => data[i].Features()[k])
  }

  /** Filters every channel independently and writes the results back, index-aligned:
      dates and symbols are untouched and channel `k` of the result is the filtered
      channel `k` of the input. */
  function Denoise(data: seq<StockData>, filter: seq<real> -> seq<real>): (r: seq<StockData>)
    requires PreservesLength(filter)
    ensures |r| == |data|
    ensures forall i :: 0 <= i < |data| ==> r[i].date == data[i].date && r[i].symbol == data[i].symbol
    ensures forall k :: 0 <= k < VectorSize ==> ChannelSeries(r, k) == filter(ChannelSeries(data, k))
  {
    var s0, s1, s2, s3, s4 :=
      filter(ChannelSeries(data, 0)), filter(ChannelSeries(data, 1)), filter(ChannelSeries(data, 2)),
      filter(ChannelSeries(data, 3)), filter(ChannelSeries(data, 4));
    var r := seq(|data|, i requires 0 <= i < |data| => data[i].WithFeatures([s0[i], s1[i], s2[i], s3[i], s4[i]]));
    assert ChannelSeries(r, 0) == s0 && ChannelSeries(r, 1) == s1 && ChannelSeries(r, 2) == s2;
    assert ChannelSeries(r, 3) == s3 && ChannelSeries(r, 4) == s4;
    r
  }

  /** The training records after the configured wavelet pass. */
  function ApplySetting(data: seq<StockData>, w: WaveletSetting): (r: seq<StockData>)
    requires w.Transform? ==> PreservesLength(w.filter)
    ensures |r| == |data|
    ensures w.Non? ==> r == data
  {
    match w
    case Non => data
    case Transform(f) => Denoise(data, f)
  }

  /** A filter that returns its input makes the pass the identity on all five channels. */
  lemma DenoiseIdentity(data: seq<StockData>)
    ensures Denoise(data, xs => xs) == data
  {
  }
}
