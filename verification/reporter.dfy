/** The rows of the exported table (`export_result` in main.py) without the
    file: one row per day with the day, its price, and the short and long
    moving averages aligned to that day, blank before a window first fills. */
module Reporter {
  import opened Wrappers
  import opened PythonList
  import opened RollingAggregator
  import opened Alignment

  datatype Cell = Blank | Value(v: real)

  datatype Row = Row(day: int, price: real, shortCell: Cell, longCell: Cell)

  /** `ma[day - (w - 1)] if day >= w - 1 else ""`; None where the read
      raises IndexError. */
  function AlignedCell(ma: seq<real>, windowSize: int, day: int): Option<Cell>
  {
    if day >= windowSize - 1 then
      var v := Index(ma, DayToIndex(day, windowSize));
      if v.Some? then Some(Value(v.value)) else None
    else Some(Blank)
  }

  /** The rows for days `0` up to `days - 1`, in order. */
  function Rows(data: seq<real>, shortMa: seq<real>, longMa: seq<real>, shortW: int, longW: int, days: nat)
    : Result<seq<Row>>
    requires days <= |data|
  {
    if days == 0 then Ok([])
    else
      var before := Rows(data, shortMa, longMa, shortW, longW, days - 1);
      var day := days - 1;
      var s := AlignedCell(shortMa, shortW, day);
      var l := AlignedCell(longMa, longW, day);
      if before.Err? || s.None? || l.None? then Err(IndexError)
      else Ok(before.value + [Row(day, data[day], s.value, l.value)])
  }

  function ExportRows(data: seq<real>, shortMa: seq<real>, longMa: seq<real>, shortW: int, longW: int)
    : Result<seq<Row>>
  {
    Rows(data, shortMa, longMa, shortW, longW, |data|)
  }

  /** A cell of the table holds the trailing mean of its day once the window
      has filled, and is blank before. */
  predicate CellShowsTrailingMean(data: seq<real>, windowSize: int, day: int, c: Cell)
    requires 1 <= windowSize && 0 <= day < |data|
  {
    if day < windowSize - 1 then c == Blank
    else c == Value(TrailingMean(data, day, windowSize))
  }

  /** A cell read from a series of trailing means never raises: it is blank
      before the window fills and the day's trailing mean after. */
  lemma AlignedCellOfTrailingMeans(data: seq<real>, ma: seq<real>, windowSize: int, day: int)
    requires TrailingMeans(data, ma, windowSize)
    requires 0 <= day < |data|
    ensures var c := AlignedCell(ma, windowSize, day);
      c.Some? && CellShowsTrailingMean(data, windowSize, day, c.value)
  {
    if day >= windowSize - 1 {
      assert ma[DayToIndex(day, windowSize)] == TrailingMean(data, day, windowSize);
    }
  }

  /** Built from two series of trailing means of the same prices, the table
      has one row per day, in day order, with the day's price; every read is
      in range, and each cell is blank before its window fills and the
      trailing mean of the day after. */
  lemma {:induction false} RowsOfTrailingMeans(data: seq<real>, shortMa: seq<real>, longMa: seq<real>,
                                               shortW: int, longW: int, days: nat)
    requires TrailingMeans(data, shortMa, shortW) && TrailingMeans(data, longMa, longW)
    requires days <= |data|
    ensures var r := Rows(data, shortMa, longMa, shortW, longW, days);
      && r.Ok?
      && |r.value| == days
      && forall d :: 0 <= d < days ==>
        && r.value[d].day == d
        && r.value[d].price == data[d]
        && CellShowsTrailingMean(data, shortW, d, r.value[d].shortCell)
        && CellShowsTrailingMean(data, longW, d, r.value[d].longCell)
  {
    if days > 0 {
      var day := days - 1;
      RowsOfTrailingMeans(data, shortMa, longMa, shortW, longW, day);
      AlignedCellOfTrailingMeans(data, shortMa, shortW, day);
      AlignedCellOfTrailingMeans(data, longMa, longW, day);
      var before := Rows(data, shortMa, longMa, shortW, longW, day).value;
      var row := Row(day, data[day], AlignedCell(shortMa, shortW, day).value, AlignedCell(longMa, longW, day).value);
      var rows := Rows(data, shortMa, longMa, shortW, longW, days).value;
      assert rows == before + [row];
      forall d | 0 <= d < days
        ensures rows[d].day == d && rows[d].price == data[d]
        ensures CellShowsTrailingMean(data, shortW, d, rows[d].shortCell)
        ensures CellShowsTrailingMean(data, longW, d, rows[d].longCell)
      {
        if d < day {
          assert rows[d] == before[d];
        } else {
          assert rows[d] == row;
        }
      }
    }
  }

  /** The exported table of a price series and its two moving averages. */
  lemma ExportOfMovingAverages(data: seq<real>, shortW: int, longW: int)
    requires 1 <= shortW && 1 <= longW
    ensures var r := ExportRows(data, MovingAverages(data, shortW).value, MovingAverages(data, longW).value,
                                shortW, longW);
      && r.Ok?
      && |r.value| == |data|
      && forall d :: 0 <= d < |data| ==>
        && r.value[d].day == d
        && r.value[d].price == data[d]
        && CellShowsTrailingMean(data, shortW, d, r.value[d].shortCell)
        && CellShowsTrailingMean(data, longW, d, r.value[d].longCell)
  {
    MovingAveragesAreTrailingMeans(data, shortW);
    MovingAveragesAreTrailingMeans(data, longW);
    RowsOfTrailingMeans(data, MovingAverages(data, shortW).value, MovingAverages(data, longW).value,
                        shortW, longW, |data|);
  }
}
