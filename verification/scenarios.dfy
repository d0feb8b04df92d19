/** Concrete runs of the iterator on small synthetic data. */
module Scenarios {
  import opened Failures
  import opened StockRecords
  import opened Offsets
  import opened StockDataSetIterator

  /** A record whose five channels all hold `v`. */
  function Day(v: real): StockData {
    StockData("day", "SYM", v, v, v, v, v)
  }

  const UnitBounds: Bounds :=
    Bounds([1.0, 1.0, 1.0, 1.0, 1.0], [10.0, 10.0, 10.0, 10.0, 10.0])

  /** Ten records valued 1 .. 10. */
  const TenDays: seq<StockData> :=
    [Day(1.0), Day(2.0), Day(3.0), Day(4.0), Day(5.0), Day(6.0), Day(7.0), Day(8.0), Day(9.0), Day(10.0)]

  /** A fresh iterator over them with mini-batch size 2 and example length 3. */
  const TenDayIterator: Iterator := Iterator(2, 3, UnitBounds, TenDays, [], InitialOffsets(10, 3))

  /** The queue of the fresh iterator is 0 .. 5. */
  lemma TenDayQueue()
    ensures TenDayIterator.offsets == [0, 1, 2, 3, 4, 5]
    ensures Valid(TenDayIterator)
  {
  }

  /** The first `next()` draws starts 0 and 1 and leaves 2 .. 5; a reset restores 0 .. 5. */
  lemma TenDayFirstDraw()
    ensures Valid(TenDayIterator)
    ensures NextDefault(TenDayIterator).Success?
    ensures NextDefault(TenDayIterator).value.0.starts == [0, 1]
    ensures NextDefault(TenDayIterator).value.1.offsets == [2, 3, 4, 5]
    ensures Reset(NextDefault(TenDayIterator).value.1).offsets == [0, 1, 2, 3, 4, 5]
  {
  }

  /** The first example of the first draw reads the opens 1, 2, 3 and its label the opens
      2, 3, 4, normalised against the range 1 .. 10. */
  lemma TenDayFirstExample()
    ensures Valid(TenDayIterator)
    ensures NextDefault(TenDayIterator).Success?
    ensures NextDefault(TenDayIterator).value.0.features[0][0] == [0.0, 1.0 / 9.0, 2.0 / 9.0]
    ensures NextDefault(TenDayIterator).value.0.labels[0][0] == [1.0 / 9.0, 2.0 / 9.0, 3.0 / 9.0]
  {
  }

  /** With every channel bounded by 1 and 10, the value 5.5 normalises to 0.5. */
  lemma NormalizeMidpoint()
    ensures Normalize(UnitBounds, 0, 5.5) == 0.5
  {
  }
}
