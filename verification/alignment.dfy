/** Day alignment of moving-average series. Element `i` of a series computed
    with window `w` averages the `w` prices ending at day `i + w - 1`; series
    of different windows are compared by converting through the day. */
module Alignment {
  import opened Wrappers
  import opened RollingAggregator

  /** The day of element `i` of a series with window `windowSize`. */
  function IndexToDay(i: int, windowSize: int): int
  {
    i + windowSize - 1
  }

  /** The element of a series with window `windowSize` that belongs to `day`
      (main.py writes it `day - (window - 1)`). */
  function DayToIndex(day: int, windowSize: int): (i: int)
    ensures IndexToDay(i, windowSize) == day
    ensures DayToIndex(IndexToDay(i, windowSize), windowSize) == i
  {
    day - (windowSize - 1)
  }

  /** Mean of the `windowSize` prices that end at `day`. */
  function TrailingMean(data: seq<real>, day: int, windowSize: int): real
    requires 1 <= windowSize && windowSize - 1 <= day < |data|
  {
    Sum(data[day - windowSize + 1..day + 1]) / windowSize as real
  }

  /** A day has a value in the series of window `windowSize` exactly from day
      `windowSize - 1` on, and that value is the trailing mean ending there. */
  lemma MovingAverageAtDay(data: seq<real>, windowSize: int, day: int)
    requires 1 <= windowSize <= |data|
    requires 0 <= day < |data|
    ensures 0 <= DayToIndex(day, windowSize) < |MovingAverages(data, windowSize).value|
        <==> windowSize - 1 <= day
    ensures windowSize - 1 <= day ==>
      MovingAverages(data, windowSize).value[DayToIndex(day, windowSize)] == TrailingMean(data, day, windowSize)
  {
    MovingAverageShape(data, windowSize);
  }

  /** `ma` is a moving-average series of `data` with window `windowSize`, as
      seen day by day: it has one element per day from `windowSize - 1` on,
      and the element of each such day is that day's trailing mean. */
  predicate TrailingMeans(data: seq<real>, ma: seq<real>, windowSize: int)
  {
    && 1 <= windowSize
    && |ma| == (if windowSize <= |data| then |data| - windowSize + 1 else 0)
    && forall day :: windowSize - 1 <= day < |data| ==>
         ma[DayToIndex(day, windowSize)] == TrailingMean(data, day, windowSize)
  }

  /** The moving average of a series is its series of trailing means. */
  lemma MovingAveragesAreTrailingMeans(data: seq<real>, windowSize: int)
    requires 1 <= windowSize
    ensures TrailingMeans(data, MovingAverages(data, windowSize).value, windowSize)
  {
    if windowSize <= |data| {
      MovingAverageShape(data, windowSize);
      forall day | windowSize - 1 <= day < |data|
        ensures MovingAverages(data, windowSize).value[DayToIndex(day, windowSize)]
             == TrailingMean(data, day, windowSize)
      {
        MovingAverageAtDay(data, windowSize, day);
      }
    } else {
      WindowLongerThanSeries(data, windowSize);
    }
  }
}
