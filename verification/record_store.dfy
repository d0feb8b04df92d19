/** Loading the records of one symbol from already-parsed CSV rows, and accumulating the
    per-channel bounds while scanning them. */
module RecordStore {
  import opened Failures
  import opened StockRecords

  /** Java's Double.MIN_VALUE, 2^-1074: the smallest POSITIVE double. */
  const DoubleMinValue: real := 1.0 / 202402253307310618352495346718917307049556649764142118356901358027430339567995346891960383701437124495187077864316811911389808737385793476867013399940738509921517424276566361364466907742093216341239767678472745068562007483424692698618103355649159556340810056512358769552333414615230502532186327508646006263307707741093494784.0

  /** Java's Double.MAX_VALUE, (2 - 2^-52) * 2^1023. */
  const DoubleMaxValue: real := 179769313486231570814527423731704356798070567525844996598917476803157260780028538760589558632766878171540458953514382464234321326889464182768467546703537516986049910576551282076245490090389328944075868508455133942304583236903222948165808559332123348274797826204144723168738177180919299881250404026184124858368.0

  /** A value a finite double can hold. */
  predicate FiniteDouble(v: real) {
    -DoubleMaxValue <= v <= DoubleMaxValue
  }

  /** One CSV row: column 0 is the date, column 1 the symbol, and `fields` holds the
      remaining columns already parsed as numbers. */
  datatype Row = Row(date: string, symbol: string, fields: seq<real>)

  /** The rows of the requested symbol, in file order. */
  function Kept(rows: seq<Row>, symbol: string): (kept: seq<Row>)
    ensures |kept| <= |rows|
    ensures forall r :: r in kept <==> r in rows && r.symbol == symbol
  {
    if |rows| == 0 then []
    else (if rows[0].symbol == symbol then [rows[0]] else []) + Kept(rows[1..], symbol)
  }

  /** Filtering distributes over concatenation: the kept rows of a file are the kept rows
      of its first part followed by those of the rest, so file order is preserved. */
  lemma {:induction false} KeptAppend(a: seq<Row>, b: seq<Row>, symbol: string)
    ensures Kept(a + b, symbol) == Kept(a, symbol) + Kept(b, symbol)
  {
    if |a| == 0 {
      assert a + b == b;
    } else {
      assert (a + b)[1..] == a[1..] + b;
      KeptAppend(a[1..], b, symbol);
    }
  }

  /** A file holding only the requested symbol is kept whole and in order. */
  lemma {:induction false} KeptAll(rows: seq<Row>, symbol: string)
    requires forall j :: 0 <= j < |rows| ==> rows[j].symbol == symbol
    ensures Kept(rows, symbol) == rows
  {
    if |rows| > 0 {
      KeptAll(rows[1..], symbol);
    }
  }

  /** Every kept row has at most five numeric columns. */
  predicate FitsVector(rows: seq<Row>) {
    forall j :: 0 <= j < |rows| ==> |rows[j].fields| <= VectorSize
  }

  /** Channel `k` of a row: its parsed column, or 0.0 when the row is too short to have one. */
  function FieldOrZero(row: Row, k: nat): real {
    if k < |row.fields| then row.fields[k] else 0.0
  }

  /** The record built from a row of at most five numeric columns. */
  function ToStockData(row: Row): (d: StockData)
    requires |row.fields| <= VectorSize
    ensures d.date == row.date && d.symbol == row.symbol
    ensures forall k :: 0 <= k < VectorSize ==> d.Features()[k] == FieldOrZero(row, k)
  {
    StockData(row.date, row.symbol, FieldOrZero(row, 0), FieldOrZero(row, 1),
              FieldOrZero(row, 2), FieldOrZero(row, 3), FieldOrZero(row, 4))
  }

  /** One step of the running min/max: only the channels the row actually has are compared. */
  function Accumulate(b: Bounds, fields: seq<real>): (r: Bounds)
    requires |fields| <= VectorSize
    ensures forall k :: 0 <= k < VectorSize ==> r.minNum[k] <= b.minNum[k] && b.maxNum[k] <= r.maxNum[k]
    ensures forall k :: 0 <= k < |fields| ==> r.minNum[k] <= fields[k] <= r.maxNum[k]
    ensures forall k :: 0 <= k < VectorSize ==> r.minNum[k] == b.minNum[k] || (k < |fields| && r.minNum[k] == fields[k])
    ensures forall k :: 0 <= k < VectorSize ==> r.maxNum[k] == b.maxNum[k] || (k < |fields| && r.maxNum[k] == fields[k])
  {
    Bounds(
      seq(VectorSize, k requires 0 <= k < VectorSize =>
        if k < |fields| && fields[k] < b.minNum[k] then fields[k] else b.minNum[k]),
      seq(VectorSize, k requires 0 <= k < VectorSize =>
        if k < |fields| && fields[k] > b.maxNum[k] then fields[k] else b.maxNum[k]))
  }

  /** The running min/max over the rows, in file order, starting from `start`. Each bound
      encloses every present value, moves only outward from its start, and is either
      still its start value or some row's value. */
  function Scan(rows: seq<Row>, start: Bounds): (r: Bounds)
    requires FitsVector(rows)
    ensures forall j, k :: 0 <= j < |rows| && 0 <= k < |rows[j].fields| ==>
      r.minNum[k] <= rows[j].fields[k] <= r.maxNum[k]
    ensures forall k :: 0 <= k < VectorSize ==>
      r.minNum[k] <= start.minNum[k] && start.maxNum[k] <= r.maxNum[k]
    ensures forall k :: 0 <= k < VectorSize ==>
      r.minNum[k] == start.minNum[k] ||
      exists j :: 0 <= j < |rows| && k < |rows[j].fields| && rows[j].fields[k] == r.minNum[k]
    ensures forall k :: 0 <= k < VectorSize ==>
      r.maxNum[k] == start.maxNum[k] ||
      exists j :: 0 <= j < |rows| && k < |rows[j].fields| && rows[j].fields[k] == r.maxNum[k]
    decreases |rows|
  {
    if |rows| == 0 then start
    else
      var prefix := rows[..|rows| - 1];
      var before := Scan(prefix, start);
      var last := rows[|rows| - 1];
      var r := Accumulate(before, last.fields);
      assert forall j :: 0 <= j < |prefix| ==> prefix[j] == rows[j];
      r
  }

  /** The sentinels `readStockDataFromFile` starts from: Double.MAX_VALUE for every running
      min and Double.MIN_VALUE for every running max. */
  const ReadStart: Bounds :=
    Bounds([DoubleMaxValue, DoubleMaxValue, DoubleMaxValue, DoubleMaxValue, DoubleMaxValue],
           [DoubleMinValue, DoubleMinValue, DoubleMinValue, DoubleMinValue, DoubleMinValue])

  /** The sentinels the running max evidently needs: -Double.MAX_VALUE, below every finite value. */
  const CorrectedStart: Bounds :=
    Bounds([DoubleMaxValue, DoubleMaxValue, DoubleMaxValue, DoubleMaxValue, DoubleMaxValue],
           [-DoubleMaxValue, -DoubleMaxValue, -DoubleMaxValue, -DoubleMaxValue, -DoubleMaxValue])

  /** Some row has a column for channel `k`. */
  predicate HasChannel(rows: seq<Row>, k: nat) {
    exists j :: 0 <= j < |rows| && k < |rows[j].fields|
  }

  /** Every parsed value of every row is a finite double. */
  predicate AllFinite(rows: seq<Row>) {
    forall j, k :: 0 <= j < |rows| && 0 <= k < |rows[j].fields| ==> FiniteDouble(rows[j].fields[k])
  }

  /** The bounds exactly as `readStockDataFromFile` accumulates them. They enclose every
      value, every min starts at Double.MAX_VALUE, and the running max never drops below the
      tiny positive Double.MIN_VALUE. */
  function ScanBoundsAsWritten(rows: seq<Row>): (b: Bounds)
    requires FitsVector(rows)
    ensures forall j, k :: 0 <= j < |rows| && 0 <= k < |rows[j].fields| ==>
      b.minNum[k] <= rows[j].fields[k] <= b.maxNum[k]
    ensures forall k :: 0 <= k < VectorSize ==> b.minNum[k] <= DoubleMaxValue
    ensures forall k :: 0 <= k < VectorSize ==> 0.0 < DoubleMinValue <= b.maxNum[k]
  {
    Scan(rows, ReadStart)
  }

  /** The bounds with the running max started below every finite value. They enclose every
      value and, over finite values, each channel that some row has gets a min and a max that
      some row attains. */
  function ScanBounds(rows: seq<Row>): (b: Bounds)
    requires FitsVector(rows)
    ensures forall j, k :: 0 <= j < |rows| && 0 <= k < |rows[j].fields| ==>
      b.minNum[k] <= rows[j].fields[k] <= b.maxNum[k]
    ensures forall k :: 0 <= k < VectorSize && AllFinite(rows) && HasChannel(rows, k) ==>
      (exists j :: 0 <= j < |rows| && k < |rows[j].fields| && rows[j].fields[k] == b.minNum[k]) &&
      (exists j :: 0 <= j < |rows| && k < |rows[j].fields| && rows[j].fields[k] == b.maxNum[k])
  {
    Scan(rows, CorrectedStart)
  }

  /** One record per row, in order, each with its row's date, symbol and values. */
  function Records(kept: seq<Row>): (records: seq<StockData>)
    requires FitsVector(kept)
    ensures |records| == |kept|
    ensures forall j :: 0 <= j < |kept| ==>
      records[j].date == kept[j].date && records[j].symbol == kept[j].symbol
    ensures forall j, k :: 0 <= j < |kept| && 0 <= k < VectorSize ==>
      records[j].Features()[k] == FieldOrZero(kept[j], k)
  {
    seq(|kept|, j requires 0 <= j < |kept| => ToStockData(kept[j]))
  }

  /** The records of `symbol` and their bounds. Fails when a kept row has more numeric columns
      than there are channels; rows of other symbols are skipped unread. */
  function ReadStockData(rows: seq<Row>, symbol: string): (r: Result<(seq<StockData>, Bounds)>)
    ensures r.Failure? <==> !FitsVector(Kept(rows, symbol))
    ensures r.Failure? ==> r.error == ColumnOverflow
    ensures r.Success? ==>
      var (records, b) := r.value;
      var kept := Kept(rows, symbol);
      && |records| == |kept|
      && (forall j :: 0 <= j < |records| ==>
            records[j].date == kept[j].date && records[j].symbol == symbol)
      && (forall j, k :: 0 <= j < |records| && 0 <= k < VectorSize ==>
            records[j].Features()[k] == FieldOrZero(kept[j], k))
      && (forall j, k :: 0 <= j < |records| && 0 <= k < |kept[j].fields| ==>
            b.minNum[k] <= records[j].Features()[k] <= b.maxNum[k])
      && records == Records(kept)
      && b == ScanBoundsAsWritten(kept)
  {
    var kept := Kept(rows, symbol);
    if !FitsVector(kept) then Failure(ColumnOverflow)
    else
      assert forall j :: 0 <= j < |kept| ==> kept[j] in rows;
      Success((Records(kept), ScanBoundsAsWritten(kept)))
  }

  /** The Double.MIN_VALUE sentinel of `readStockDataFromFile` is a defect: a single row whose volume is 0.0 leaves the running
      max of the volume channel at Double.MIN_VALUE, a value no row has, while the corrected
      scan gives 0.0. */
  lemma AsWrittenMaxNotAttained()
    ensures var rows := [Row("2016-01-04", "GOOG", [743.0, 741.84, 731.26, 744.06, 0.0])];
      && ScanBoundsAsWritten(rows).maxNum[4] == DoubleMinValue
      && rows[0].fields[4] < ScanBoundsAsWritten(rows).maxNum[4]
      && ScanBounds(rows).maxNum[4] == 0.0
  {
  }

  /** Scanning from a higher running-max start: the mins are the same, and the max is the
      lower-start max raised to the higher start when it falls below it. */
  lemma {:induction false} ScanRaisedStart(rows: seq<Row>, low: Bounds, high: Bounds, k: nat)
    requires FitsVector(rows)
    requires k < VectorSize
    requires low.minNum[k] == high.minNum[k]
    requires low.maxNum[k] <= high.maxNum[k]
    ensures Scan(rows, high).minNum[k] == Scan(rows, low).minNum[k]
    ensures Scan(rows, high).maxNum[k] ==
      if Scan(rows, low).maxNum[k] >= high.maxNum[k] then Scan(rows, low).maxNum[k] else high.maxNum[k]
    decreases |rows|
  {
    if |rows| > 0 {
      var prefix := rows[..|rows| - 1];
      assert forall j :: 0 <= j < |prefix| ==> prefix[j] == rows[j];
      ScanRaisedStart(prefix, low, high, k);
    }
  }

  /** How the as-written bounds relate to the corrected ones: the mins are identical, each
      as-written max is the corrected max raised to at least Double.MIN_VALUE, and so the two
      agree on every channel where some row holds a value of at least Double.MIN_VALUE. */
  lemma AsWrittenRaisesCorrected(rows: seq<Row>, k: nat)
    requires FitsVector(rows)
    requires k < VectorSize
    ensures ScanBoundsAsWritten(rows).minNum[k] == ScanBounds(rows).minNum[k]
    ensures ScanBoundsAsWritten(rows).maxNum[k] ==
      if ScanBounds(rows).maxNum[k] >= DoubleMinValue then ScanBounds(rows).maxNum[k] else DoubleMinValue
    ensures (exists j :: 0 <= j < |rows| && k < |rows[j].fields| && rows[j].fields[k] >= DoubleMinValue) ==>
      ScanBoundsAsWritten(rows).maxNum[k] == ScanBounds(rows).maxNum[k]
  {
    ScanRaisedStart(rows, CorrectedStart, ReadStart, k);
  }
}
