/** Daily stock records, per-channel bounds and min-max normalisation. */
module StockRecords {

  /** Number of feature channels: open, close, low, high, volume. */
  const VectorSize: nat := 5

  /** A feature vector, one value per channel in the fixed channel order. */
  type Vector = v: seq<real> | |v| == VectorSize witness [0.0, 0.0, 0.0, 0.0, 0.0]

  /** One daily record of one symbol. */
  datatype StockData = StockData(
    date: string,
    symbol: string,
    open: real,
    close: real,
    low: real,
    high: real,
    volume: real)
  {
    /** The record's channels in the order open, close, low, high, volume. */
    function Features(): (v: Vector)
      ensures v[0] == open && v[1] == close && v[2] == low && v[3] == high && v[4] == volume
    {
      [open, close, low, high, volume]
    }

    /** The same record with its five channels replaced by `v`, date and symbol kept. */
    function WithFeatures(v: Vector): (r: StockData)
      ensures r.date == date && r.symbol == symbol
      ensures r.Features() == v
    {
      StockData(date, symbol, v[0], v[1], v[2], v[3], v[4])
    }
  }

  /** Per-channel lower and upper bounds used to normalise every channel value. */
  datatype Bounds = Bounds(minNum: Vector, maxNum: Vector) {
    /** Every channel has a non-empty range, so normalisation divides by a positive width. */
    predicate Spread() {
      forall k :: 0 <= k < VectorSize ==> minNum[k] < maxNum[k]
    }
  }

  /** Min-max normalisation of value `v` on channel `k`. */
  function Normalize(b: Bounds, k: nat, v: real): real
    requires b.Spread() && k < VectorSize
  {
    (v - b.minNum[k]) / (b.maxNum[k] - b.minNum[k])
  }

  /** Maps a normalised value on channel `k` back to the raw scale. */
  function Denormalize(b: Bounds, k: nat, x: real): real
    requires k < VectorSize
  {
    x * (b.maxNum[k] - b.minNum[k]) + b.minNum[k]
  }

  /** Normalises every channel of a feature vector with the same bounds. */
  function NormalizeVector(b: Bounds, v: Vector): (r: Vector)
    requires b.Spread()
    ensures forall k :: 0 <= k < VectorSize ==> r[k] == Normalize(b, k, v[k])
  {
    seq(VectorSize, k requires 0 <= k < VectorSize => Normalize(b, k, v[k]))
  }

  /** Denormalising a normalised value gives back the raw value. */
  lemma NormalizeRoundTrip(b: Bounds, k: nat, v: real)
    requires b.Spread() && k < VectorSize
    ensures Denormalize(b, k, Normalize(b, k, v)) == v
  {
  }

  /** The lower bound of a channel maps to 0, the upper bound to 1, and every value
      between the bounds to a value in [0, 1]; the map is strictly increasing. */
  lemma NormalizeRange(b: Bounds, k: nat, v: real, u: real)
    requires b.Spread() && k < VectorSize
    ensures Normalize(b, k, b.minNum[k]) == 0.0
    ensures Normalize(b, k, b.maxNum[k]) == 1.0
    ensures b.minNum[k] <= v <= b.maxNum[k] ==> 0.0 <= Normalize(b, k, v) <= 1.0
    ensures v < u ==> Normalize(b, k, v) < Normalize(b, k, u)
  {
    var w := b.maxNum[k] - b.minNum[k];
    if b.minNum[k] <= v <= b.maxNum[k] {
      assert (v - b.minNum[k]) / w <= w / w;
    }
    if v < u {
      assert (v - b.minNum[k]) / w < (u - b.minNum[k]) / w;
    }
  }
}
