/** The crossover scan (`buy_sell` in main.py). For each position `i` of the
    short moving-average series it reads the short value and the long value
    `longW - shortW` positions earlier in the long series, at `i - 1` and at
    `i`, and records a buy where the short series moves from at-or-below to
    strictly above the long one, a sell for the mirror image.

    `BuySell` is the code as written: it starts at `max(shortW, longW) - 1`
    and reads with Python's list indexing, so a negative position silently
    reads from the end of the list. `BuySellAligned` starts at the first
    position whose previous day has both averages and never wraps. */
module CrossoverScanner {
  import opened Wrappers
  import opened PythonList
  import opened RollingAggregator
  import opened Alignment

  datatype Points = Points(buy: seq<int>, sell: seq<int>)

  /** The four values the scan compares at one position. */
  datatype Reading = Reading(prevShort: real, prevLong: real, currShort: real, currLong: real)

  datatype Crossing = CrossAbove | CrossBelow | NoCrossing

  /** The buy test comes first; the sell test is the `elif`. */
  function Classify(r: Reading): (c: Crossing)
    ensures c == CrossAbove <==> r.prevShort <= r.prevLong && r.currShort > r.currLong
    ensures c == CrossBelow <==> r.prevShort >= r.prevLong && r.currShort < r.currLong
  {
    if r.prevShort <= r.prevLong && r.currShort > r.currLong then CrossAbove
    else if r.prevShort >= r.prevLong && r.currShort < r.currLong then CrossBelow
    else NoCrossing
  }

  /** Reading one element: with Python's wrap-around, or strictly in range. */
  function Get(s: seq<real>, k: int, wrap: bool): Option<real>
  {
    if wrap then Index(s, k)
    else if 0 <= k < |s| then Some(s[k])
    else None
  }

  function ReadAt(shortMa: seq<real>, longMa: seq<real>, offset: int, i: int, wrap: bool): Option<Reading>
  {
    var prevShort := Get(shortMa, i - 1, wrap);
    var prevLong := Get(longMa, i - 1 - offset, wrap);
    var currShort := Get(shortMa, i, wrap);
    var currLong := Get(longMa, i - offset, wrap);
    if prevShort.Some? && prevLong.Some? && currShort.Some? && currLong.Some? then
      Some(Reading(prevShort.value, prevLong.value, currShort.value, currLong.value))
    else None
  }

  /** What the scan decides at position `i`; None when a read fails. */
  function CrossingAt(shortMa: seq<real>, longMa: seq<real>, offset: int, i: int, wrap: bool): Option<Crossing>
  {
    var r := ReadAt(shortMa, longMa, offset, i, wrap);
    if r.Some? then Some(Classify(r.value)) else None
  }

  function Record(p: Points, i: int, c: Crossing): Points
  {
    match c
    case CrossAbove => Points(p.buy + [i], p.sell)
    case CrossBelow => Points(p.buy, p.sell + [i])
    case NoCrossing => p
  }

  /** The outcome of scanning positions `lo` up to `hi - 1` in order: the
      points found, or IndexError if some read fails. */
  function Scan(shortMa: seq<real>, longMa: seq<real>, offset: int, lo: int, hi: int, wrap: bool): Result<Points>
    decreases hi - lo
  {
    if hi <= lo then Ok(Points([], []))
    else
      var before := Scan(shortMa, longMa, offset, lo, hi - 1, wrap);
      var c := CrossingAt(shortMa, longMa, offset, hi - 1, wrap);
      if before.Err? || c.None? then Err(IndexError)
      else Ok(Record(before.value, hi - 1, c.value))
  }

  /** `max(short_w, long_w) - 1`, the first position `buy_sell` examines. */
  function AsWrittenStart(shortW: int, longW: int): int
  {
    Max(shortW, longW) - 1
  }

  /** The first short-series position whose previous day has both averages:
      day `max(shortW, longW)` converted to a short-series index. */
  function AlignedStart(shortW: int, longW: int): int
  {
    DayToIndex(Max(shortW, longW), shortW)
  }

  method BuySell(shortMa: seq<real>, longMa: seq<real>, shortW: int, longW: int) returns (r: Result<Points>)
    ensures r == Scan(shortMa, longMa, longW - shortW, AsWrittenStart(shortW, longW), |shortMa|, true)
  {
    var buyPoints: seq<int> := [];
    var sellPoints: seq<int> := [];
    var start := Max(shortW, longW) - 1;
    var offset := longW - shortW;
    var i := start;
    while i < |shortMa|
      invariant start <= i
      invariant i == start || i <= |shortMa|
      invariant Scan(shortMa, longMa, offset, start, i, true) == Ok(Points(buyPoints, sellPoints))
      decreases |shortMa| - i
    {
      var prevShort := Index(shortMa, i - 1);
      var prevLong := Index(longMa, i - 1 - offset);
      var currShort := Index(shortMa, i);
      var currLong := Index(longMa, i - offset);
      if prevShort.None? || prevLong.None? || currShort.None? || currLong.None? {
        ScanErrorPersists(shortMa, longMa, offset, start, i + 1, |shortMa|, true);
        return Err(IndexError);
      }
      if prevShort.value <= prevLong.value && currShort.value > currLong.value {
        buyPoints := buyPoints + [i];
      } else if prevShort.value >= prevLong.value && currShort.value < currLong.value {
        sellPoints := sellPoints + [i];
      }
      i := i + 1;
    }
    r := Ok(Points(buyPoints, sellPoints));
  }

  method BuySellAligned(shortMa: seq<real>, longMa: seq<real>, shortW: int, longW: int) returns (r: Result<Points>)
    ensures r == Scan(shortMa, longMa, longW - shortW, AlignedStart(shortW, longW), |shortMa|, false)
  {
    var buyPoints: seq<int> := [];
    var sellPoints: seq<int> := [];
    var start := DayToIndex(Max(shortW, longW), shortW);
    var offset := longW - shortW;
    var i := start;
    while i < |shortMa|
      invariant start <= i
      invariant i == start || i <= |shortMa|
      invariant Scan(shortMa, longMa, offset, start, i, false) == Ok(Points(buyPoints, sellPoints))
      decreases |shortMa| - i
    {
      if !(0 <= i - 1 && 0 <= i - 1 - offset && i - offset < |longMa|) {
        ScanErrorPersists(shortMa, longMa, offset, start, i + 1, |shortMa|, false);
        return Err(IndexError);
      }
      var prevShort, prevLong := shortMa[i - 1], longMa[i - 1 - offset];
      var currShort, currLong := shortMa[i], longMa[i - offset];
      if prevShort <= prevLong && currShort > currLong {
        buyPoints := buyPoints + [i];
      } else if prevShort >= prevLong && currShort < currLong {
        sellPoints := sellPoints + [i];
      }
      i := i + 1;
    }
    r := Ok(Points(buyPoints, sellPoints));
  }

  /** Once a read has failed the scan stays failed. */
  lemma {:induction false} ScanErrorPersists(shortMa: seq<real>, longMa: seq<real>, offset: int,
                                            lo: int, j: int, k: int, wrap: bool)
    requires j <= k
    requires Scan(shortMa, longMa, offset, lo, j, wrap).Err?
    ensures Scan(shortMa, longMa, offset, lo, k, wrap) == Err(IndexError)
    decreases k - j
  {
    if j < k {
      ScanErrorPersists(shortMa, longMa, offset, lo, j, k - 1, wrap);
    }
  }

  /** The scan succeeds exactly when every position in range can be read. */
  lemma {:induction false} ScanOkIff(shortMa: seq<real>, longMa: seq<real>, offset: int,
                                    lo: int, hi: int, wrap: bool)
    ensures Scan(shortMa, longMa, offset, lo, hi, wrap).Ok?
        <==> forall i :: lo <= i < hi ==> ReadAt(shortMa, longMa, offset, i, wrap).Some?
    decreases hi - lo
  {
    if lo < hi {
      ScanOkIff(shortMa, longMa, offset, lo, hi - 1, wrap);
    }
  }

  /** A successful scan lists, in strictly increasing order, exactly the
      positions in range where the short series crosses above (buy) or
      below (sell) the long one. */
  lemma {:induction false} ScanPoints(shortMa: seq<real>, longMa: seq<real>, offset: int,
                                     lo: int, hi: int, wrap: bool)
    requires Scan(shortMa, longMa, offset, lo, hi, wrap).Ok?
    ensures var p := Scan(shortMa, longMa, offset, lo, hi, wrap).value;
      && StrictlyIncreasing(p.buy)
      && StrictlyIncreasing(p.sell)
      && (forall i :: i in p.buy <==> lo <= i < hi && CrossingAt(shortMa, longMa, offset, i, wrap) == Some(CrossAbove))
      && (forall i :: i in p.sell <==> lo <= i < hi && CrossingAt(shortMa, longMa, offset, i, wrap) == Some(CrossBelow))
    decreases hi - lo
  {
    if lo < hi {
      ScanPoints(shortMa, longMa, offset, lo, hi - 1, wrap);
      var before := Scan(shortMa, longMa, offset, lo, hi - 1, wrap).value;
      var c := CrossingAt(shortMa, longMa, offset, hi - 1, wrap).value;
      assert Scan(shortMa, longMa, offset, lo, hi, wrap).value == Record(before, hi - 1, c);
      RecordKeepsOrder(before, hi - 1, c);
    }
  }

  /** Recording a position above every point found so far keeps both lists
      strictly increasing and adds that position to the list of its kind. */
  lemma RecordKeepsOrder(p: Points, x: int, c: Crossing)
    requires StrictlyIncreasing(p.buy) && StrictlyIncreasing(p.sell)
    requires forall y :: y in p.buy || y in p.sell ==> y < x
    ensures var q := Record(p, x, c);
      && StrictlyIncreasing(q.buy) && StrictlyIncreasing(q.sell)
      && (forall y :: y in q.buy <==> y in p.buy || (y == x && c == CrossAbove))
      && (forall y :: y in q.sell <==> y in p.sell || (y == x && c == CrossBelow))
  {
    if c == CrossAbove {
      AppendIncreasing(p.buy, x);
    } else if c == CrossBelow {
      AppendIncreasing(p.sell, x);
    }
  }

  /** No position is both a buy and a sell, and every point lies in the
      scanned range. */
  lemma ScanPointsDisjoint(shortMa: seq<real>, longMa: seq<real>, offset: int,
                           lo: int, hi: int, wrap: bool)
    requires Scan(shortMa, longMa, offset, lo, hi, wrap).Ok?
    ensures var p := Scan(shortMa, longMa, offset, lo, hi, wrap).value;
      && (forall i :: i in p.buy ==> i !in p.sell)
      && (forall i :: i in p.buy || i in p.sell ==> lo <= i < hi)
  {
    ScanPoints(shortMa, longMa, offset, lo, hi, wrap);
  }

  /** Reads that never reach a negative position do not depend on wrapping. */
  lemma {:induction false} ScanWithoutWrap(shortMa: seq<real>, longMa: seq<real>, offset: int, lo: int, hi: int)
    requires hi <= lo || (1 <= lo && 1 + offset <= lo)
    ensures Scan(shortMa, longMa, offset, lo, hi, true) == Scan(shortMa, longMa, offset, lo, hi, false)
    decreases hi - lo
  {
    if lo < hi {
      ScanWithoutWrap(shortMa, longMa, offset, lo, hi - 1);
      assert ReadAt(shortMa, longMa, offset, hi - 1, true) == ReadAt(shortMa, longMa, offset, hi - 1, false);
    }
  }

  /** Series of the lengths `moving_average` produces for windows `shortW`
      and `longW` over `n` prices. */
  predicate MovingAverageShaped(shortMa: seq<real>, longMa: seq<real>, n: int, shortW: int, longW: int)
  {
    && 1 <= shortW <= n && 1 <= longW <= n
    && |shortMa| == n - shortW + 1 && |longMa| == n - longW + 1
  }

  /** All four positions read at `i` are valid, non-negative indices. */
  predicate ReadsInRange(shortMa: seq<real>, longMa: seq<real>, shortW: int, longW: int, i: int)
  {
    && 0 <= i - 1 && i < |shortMa|
    && 0 <= i - 1 - (longW - shortW) && i - (longW - shortW) < |longMa|
  }

  /** From the aligned start every read is in range, whatever the windows. */
  lemma AlignedReadsInBounds(shortMa: seq<real>, longMa: seq<real>, n: int, shortW: int, longW: int)
    requires MovingAverageShaped(shortMa, longMa, n, shortW, longW)
    ensures forall i :: AlignedStart(shortW, longW) <= i < |shortMa| ==>
      ReadsInRange(shortMa, longMa, shortW, longW, i)
    ensures BuySellOutcome(shortMa, longMa, shortW, longW, false).Ok?
  {
    var offset := longW - shortW;
    ScanOkIff(shortMa, longMa, offset, AlignedStart(shortW, longW), |shortMa|, false);
  }

  /** The outcome of the scan as written (`wrap`) or aligned. */
  function BuySellOutcome(shortMa: seq<real>, longMa: seq<real>, shortW: int, longW: int, wrap: bool): Result<Points>
  {
    var start := if wrap then AsWrittenStart(shortW, longW) else AlignedStart(shortW, longW);
    Scan(shortMa, longMa, longW - shortW, start, |shortMa|, wrap)
  }

  /** With a short window of at least 2 the code as written stays in range:
      all four reads hit valid, non-negative positions, so nothing wraps. */
  lemma AsWrittenReadsInBounds(shortMa: seq<real>, longMa: seq<real>, n: int, shortW: int, longW: int)
    requires MovingAverageShaped(shortMa, longMa, n, shortW, longW)
    requires shortW >= 2
    ensures forall i :: AsWrittenStart(shortW, longW) <= i < |shortMa| ==>
      ReadsInRange(shortMa, longMa, shortW, longW, i)
    ensures BuySellOutcome(shortMa, longMa, shortW, longW, true).Ok?
  {
    var offset := longW - shortW;
    var lo := AsWrittenStart(shortW, longW);
    ScanWithoutWrap(shortMa, longMa, offset, lo, |shortMa|);
    ScanOkIff(shortMa, longMa, offset, lo, |shortMa|, false);
  }

  /** With a short window of 1 the first position examined reads the long
      series at -1, which Python turns into its last element; the aligned
      reading at that position does not exist. */
  lemma AsWrittenWrapsAtUnitShortWindow(shortMa: seq<real>, longMa: seq<real>, n: int, longW: int)
    requires MovingAverageShaped(shortMa, longMa, n, 1, longW)
    ensures var i := AsWrittenStart(1, longW);
      && i < |shortMa|
      && i - 1 - (longW - 1) == -1
      && ReadAt(shortMa, longMa, longW - 1, i, true).Some?
      && ReadAt(shortMa, longMa, longW - 1, i, true).value.prevLong == longMa[|longMa| - 1]
      && ReadAt(shortMa, longMa, longW - 1, i, false).None?
  {
  }

  /** With a short window of exactly 2 the code as written and the aligned
      scan agree on every input. */
  lemma ShortWindowTwoAgrees(shortMa: seq<real>, longMa: seq<real>, longW: int)
    ensures BuySellOutcome(shortMa, longMa, 2, longW, true) == BuySellOutcome(shortMa, longMa, 2, longW, false)
  {
    ScanWithoutWrap(shortMa, longMa, longW - 2, AsWrittenStart(2, longW), |shortMa|);
  }

  /** With a short window of at least 2 the code as written reports exactly
      the aligned points from its own, later, start on: the positions before
      it are never examined. */
  lemma AsWrittenIsSuffixOfAligned(shortMa: seq<real>, longMa: seq<real>, n: int, shortW: int, longW: int)
    requires MovingAverageShaped(shortMa, longMa, n, shortW, longW)
    requires shortW >= 2
    ensures AlignedStart(shortW, longW) <= AsWrittenStart(shortW, longW)
    ensures var q := BuySellOutcome(shortMa, longMa, shortW, longW, true);
      var p := BuySellOutcome(shortMa, longMa, shortW, longW, false);
      && q.Ok? && p.Ok?
      && (forall i :: i in q.value.buy <==> i in p.value.buy && i >= AsWrittenStart(shortW, longW))
      && (forall i :: i in q.value.sell <==> i in p.value.sell && i >= AsWrittenStart(shortW, longW))
  {
    var offset := longW - shortW;
    var lo := AsWrittenStart(shortW, longW);
    var alo := AlignedStart(shortW, longW);
    AlignedReadsInBounds(shortMa, longMa, n, shortW, longW);
    AsWrittenReadsInBounds(shortMa, longMa, n, shortW, longW);
    ScanWithoutWrap(shortMa, longMa, offset, lo, |shortMa|);
    ScanPoints(shortMa, longMa, offset, lo, |shortMa|, false);
    ScanPoints(shortMa, longMa, offset, alo, |shortMa|, false);
  }

  /** The short series crosses above the long one on `day`: at or below on
      the day before, strictly above on the day itself. */
  predicate CrossesAbove(data: seq<real>, day: int, shortW: int, longW: int)
    requires 1 <= shortW && 1 <= longW && Max(shortW, longW) <= day < |data|
  {
    && TrailingMean(data, day - 1, shortW) <= TrailingMean(data, day - 1, longW)
    && TrailingMean(data, day, shortW) > TrailingMean(data, day, longW)
  }

  predicate CrossesBelow(data: seq<real>, day: int, shortW: int, longW: int)
    requires 1 <= shortW && 1 <= longW && Max(shortW, longW) <= day < |data|
  {
    && TrailingMean(data, day - 1, shortW) >= TrailingMean(data, day - 1, longW)
    && TrailingMean(data, day, shortW) < TrailingMean(data, day, longW)
  }

  /** The reading of the aligned scan at the position of `day` holds the
      trailing means of both windows on that day and the day before. */
  lemma AlignedReadingAtDay(data: seq<real>, shortMa: seq<real>, longMa: seq<real>,
                            shortW: int, longW: int, day: int)
    requires TrailingMeans(data, shortMa, shortW) && TrailingMeans(data, longMa, longW)
    requires Max(shortW, longW) <= day < |data|
    ensures var r := ReadAt(shortMa, longMa, longW - shortW, DayToIndex(day, shortW), false);
      r == Some(Reading(TrailingMean(data, day - 1, shortW), TrailingMean(data, day - 1, longW),
                        TrailingMean(data, day, shortW), TrailingMean(data, day, longW)))
  {
    var i := DayToIndex(day, shortW);
    var offset := longW - shortW;
    ReadAtDay(data, shortMa, shortW, day - 1, i - 1);
    ReadAtDay(data, shortMa, shortW, day, i);
    ReadAtDay(data, longMa, longW, day - 1, i - 1 - offset);
    ReadAtDay(data, longMa, longW, day, i - offset);
    ReadAtFromGets(shortMa, longMa, offset, i,
                   TrailingMean(data, day - 1, shortW), TrailingMean(data, day - 1, longW),
                   TrailingMean(data, day, shortW), TrailingMean(data, day, longW));
  }

  lemma ReadAtFromGets(shortMa: seq<real>, longMa: seq<real>, offset: int, i: int,
                       prevShort: real, prevLong: real, currShort: real, currLong: real)
    requires Get(shortMa, i - 1, false) == Some(prevShort)
    requires Get(longMa, i - 1 - offset, false) == Some(prevLong)
    requires Get(shortMa, i, false) == Some(currShort)
    requires Get(longMa, i - offset, false) == Some(currLong)
    ensures ReadAt(shortMa, longMa, offset, i, false) == Some(Reading(prevShort, prevLong, currShort, currLong))
  {
  }

  /** Position `k` of a series of trailing means with window `windowSize`
      is read in range and holds the trailing mean of `day`, its day. */
  lemma ReadAtDay(data: seq<real>, ma: seq<real>, windowSize: int, day: int, k: int)
    requires TrailingMeans(data, ma, windowSize)
    requires windowSize - 1 <= day < |data|
    requires k == DayToIndex(day, windowSize)
    ensures Get(ma, k, false) == Some(TrailingMean(data, day, windowSize))
  {
    assert ma[DayToIndex(day, windowSize)] == TrailingMean(data, day, windowSize);
  }

  /** Over two series of trailing means of the same prices, the aligned scan
      reports a buy for the position of `day` exactly when the short trailing
      mean crosses above the long one on that day, and a sell exactly when it
      crosses below; every day with both means on it and on the day before
      is examined. */
  lemma AlignedScanFindsCrossings(data: seq<real>, shortMa: seq<real>, longMa: seq<real>,
                                  shortW: int, longW: int)
    requires TrailingMeans(data, shortMa, shortW) && TrailingMeans(data, longMa, longW)
    requires shortW <= |data| && longW <= |data|
    ensures var r := BuySellOutcome(shortMa, longMa, shortW, longW, false);
      && r.Ok?
      && (forall day :: DayToIndex(day, shortW) in r.value.buy
            <==> Max(shortW, longW) <= day < |data| && CrossesAbove(data, day, shortW, longW))
      && (forall day :: DayToIndex(day, shortW) in r.value.sell
            <==> Max(shortW, longW) <= day < |data| && CrossesBelow(data, day, shortW, longW))
  {
    var offset := longW - shortW;
    var lo := AlignedStart(shortW, longW);
    assert MovingAverageShaped(shortMa, longMa, |data|, shortW, longW);
    AlignedReadsInBounds(shortMa, longMa, |data|, shortW, longW);
    ScanPoints(shortMa, longMa, offset, lo, |shortMa|, false);
    forall day | Max(shortW, longW) <= day < |data|
      ensures CrossingAt(shortMa, longMa, offset, DayToIndex(day, shortW), false) == Some(CrossAbove)
          <==> CrossesAbove(data, day, shortW, longW)
      ensures CrossingAt(shortMa, longMa, offset, DayToIndex(day, shortW), false) == Some(CrossBelow)
          <==> CrossesBelow(data, day, shortW, longW)
    {
      AlignedReadingAtDay(data, shortMa, longMa, shortW, longW, day);
    }
  }

  /** End to end: the aligned scan over the moving averages of a price series
      finds exactly the days on which the short average crosses the long. */
  lemma AlignedScanFindsEveryCrossing(data: seq<real>, shortW: int, longW: int)
    requires 1 <= shortW <= |data| && 1 <= longW <= |data|
    ensures var r := BuySellOutcome(MovingAverages(data, shortW).value, MovingAverages(data, longW).value,
                                    shortW, longW, false);
      && r.Ok?
      && (forall day :: DayToIndex(day, shortW) in r.value.buy
            <==> Max(shortW, longW) <= day < |data| && CrossesAbove(data, day, shortW, longW))
      && (forall day :: DayToIndex(day, shortW) in r.value.sell
            <==> Max(shortW, longW) <= day < |data| && CrossesBelow(data, day, shortW, longW))
  {
    MovingAveragesAreTrailingMeans(data, shortW);
    MovingAveragesAreTrailingMeans(data, longW);
    AlignedScanFindsCrossings(data, MovingAverages(data, shortW).value, MovingAverages(data, longW).value,
                              shortW, longW);
  }
}

/** Worked inputs on which the scan as written and the aligned scan differ. */
module CrossoverExamples {
  import opened Wrappers
  import opened RollingAggregator
  import opened CrossoverScanner

  /** Prices 1, 3, 5 with windows 1 and 2: the first position examined
      compares day 0 with the long average of day 2 (read at -1) against the
      long average of day 1, and reports a buy at position 1 although no
      day before it has a long average; the aligned scan reports nothing. */
  lemma UnitShortWindowSpuriousBuy()
    ensures var data := [1.0, 3.0, 5.0];
      var shortMa, longMa := MovingAverages(data, 1).value, MovingAverages(data, 2).value;
      && BuySellOutcome(shortMa, longMa, 1, 2, true) == Ok(Points([1], []))
      && BuySellOutcome(shortMa, longMa, 1, 2, false) == Ok(Points([], []))
  {
    UnitShortWindowAverages();
    var shortMa, longMa := [1.0, 3.0, 5.0], [2.0, 4.0];
    assert ReadAt(shortMa, longMa, 1, 1, true) == Some(Reading(1.0, 4.0, 3.0, 2.0));
    assert CrossingAt(shortMa, longMa, 1, 1, true) == Some(CrossAbove);
    assert Scan(shortMa, longMa, 1, 1, 1, true) == Ok(Points([], []));
    assert Record(Points([], []), 1, CrossAbove) == Points([1], []) by {
      assert [] + [1] == [1];
    }
    assert Scan(shortMa, longMa, 1, 1, 2, true) == Ok(Points([1], []));
    assert Scan(shortMa, longMa, 1, 2, 3, false) == Ok(Points([], []));
  }

  /** The moving averages of prices 1, 3, 5 with windows 1 and 2. */
  lemma UnitShortWindowAverages()
    ensures MovingAverages([1.0, 3.0, 5.0], 1) == Ok([1.0, 3.0, 5.0])
    ensures MovingAverages([1.0, 3.0, 5.0], 2) == Ok([2.0, 4.0])
  {
    var data := [1.0, 3.0, 5.0];
    assert data[0..1] == [1.0] && data[1..2] == [3.0] && data[2..3] == [5.0];
    assert data[0..2] == [1.0, 3.0] && data[1..3] == [3.0, 5.0];
    assert MovingAverages(data, 1).value == [1.0, 3.0, 5.0];
    assert MovingAverages(data, 2).value == [2.0, 4.0];
  }

  /** Prices 0, 0, 0, 0, 12, 0 with windows 3 and 4: on day 4 the 3-day mean
      (4) rises above the 4-day mean (3) after being equal (0) on day 3. That
      is position 2 of the short series, before the first position the code
      as written examines (3), so only the aligned scan reports it. */
  lemma WideShortWindowMissedBuy()
    ensures var data := [0.0, 0.0, 0.0, 0.0, 12.0, 0.0];
      var shortMa, longMa := MovingAverages(data, 3).value, MovingAverages(data, 4).value;
      && BuySellOutcome(shortMa, longMa, 3, 4, true) == Ok(Points([], []))
      && BuySellOutcome(shortMa, longMa, 3, 4, false) == Ok(Points([2], []))
  {
    WideShortWindowShortAverages();
    WideShortWindowLongAverages();
    var shortMa, longMa := [0.0, 0.0, 4.0, 4.0], [0.0, 3.0, 3.0];
    assert Scan(shortMa, longMa, 1, 3, 4, true) == Ok(Points([], []));
    assert ReadAt(shortMa, longMa, 1, 2, false) == Some(Reading(0.0, 0.0, 4.0, 3.0));
    assert CrossingAt(shortMa, longMa, 1, 2, false) == Some(CrossAbove);
    assert ReadAt(shortMa, longMa, 1, 3, false) == Some(Reading(4.0, 3.0, 4.0, 3.0));
    assert CrossingAt(shortMa, longMa, 1, 3, false) == Some(NoCrossing);
    assert Scan(shortMa, longMa, 1, 2, 2, false) == Ok(Points([], []));
    assert Record(Points([], []), 2, CrossAbove) == Points([2], []) by {
      assert [] + [2] == [2];
    }
    assert Scan(shortMa, longMa, 1, 2, 3, false) == Ok(Points([2], []));
    assert Scan(shortMa, longMa, 1, 2, 4, false) == Ok(Points([2], []));
  }

  /** The 3-day moving average of prices 0, 0, 0, 0, 12, 0. */
  lemma WideShortWindowShortAverages()
    ensures MovingAverages([0.0, 0.0, 0.0, 0.0, 12.0, 0.0], 3) == Ok([0.0, 0.0, 4.0, 4.0])
  {
    var data := [0.0, 0.0, 0.0, 0.0, 12.0, 0.0];
    assert data[0..3] == [0.0, 0.0, 0.0] && data[1..4] == [0.0, 0.0, 0.0];
    assert data[2..5] == [0.0, 0.0, 12.0] && data[3..6] == [0.0, 12.0, 0.0];
    assert MovingAverages(data, 3).value == [0.0, 0.0, 4.0, 4.0];
  }

  /** The 4-day moving average of prices 0, 0, 0, 0, 12, 0. */
  lemma WideShortWindowLongAverages()
    ensures MovingAverages([0.0, 0.0, 0.0, 0.0, 12.0, 0.0], 4) == Ok([0.0, 3.0, 3.0])
  {
    var data := [0.0, 0.0, 0.0, 0.0, 12.0, 0.0];
    assert data[0..4] == [0.0, 0.0, 0.0, 0.0] && data[1..5] == [0.0, 0.0, 0.0, 12.0];
    assert data[2..6] == [0.0, 0.0, 12.0, 0.0];
    assert MovingAverages(data, 4).value == [0.0, 3.0, 3.0];
  }
}
