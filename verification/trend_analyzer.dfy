/** Trend direction (`detect_trend`) and trend strength (`trend_strength`)
    from the last two values of a moving-average series. The text labels the
    Python functions return are closed datatypes here. */
module TrendAnalyzer {
  import opened Wrappers
  import opened RollingAggregator

  datatype Trend = Upward | Downward | Sideways | InsufficientTrendData

  datatype Strength = Weak | Moderate | Strong | InsufficientStrengthData

  /** Percentage-change thresholds of `trend_strength`. */
  const WEAK_LIMIT: real := 0.3
  const MODERATE_LIMIT: real := 1.0

  function DetectTrend(averages: seq<real>): (t: Trend)
    ensures t == InsufficientTrendData <==> |averages| < 2
    ensures |averages| >= 2 ==>
      && (t == Upward <==> averages[|averages| - 1] > averages[|averages| - 2])
      && (t == Downward <==> averages[|averages| - 1] < averages[|averages| - 2])
      && (t == Sideways <==> averages[|averages| - 1] == averages[|averages| - 2])
  {
    if |averages| < 2 then InsufficientTrendData
    else
      var last := averages[|averages| - 1];
      var previous := averages[|averages| - 2];
      if last > previous then Upward
      else if last < previous then Downward
      else Sideways
  }

  function Abs(x: real): real
  {
    if x < 0.0 then -x else x
  }

  /** `abs(last - previous) / previous * 100`: the divisor keeps its sign. */
  function ChangePercent(previous: real, last: real): real
    requires previous != 0.0
  {
    Abs(last - previous) / previous * 100.0
  }

  /** Fewer than two values give the insufficient-data label; a zero previous
      value raises ZeroDivisionError; otherwise the change percentage is
      bucketed at 0.3 and 1.0. */
  function TrendStrength(averages: seq<real>): (r: Result<Strength>)
    ensures r == Ok(InsufficientStrengthData) <==> |averages| < 2
    ensures |averages| >= 2 ==> (r == Err(DivisionByZero) <==> averages[|averages| - 2] == 0.0)
    ensures |averages| >= 2 && averages[|averages| - 2] != 0.0 ==>
      var change := ChangePercent(averages[|averages| - 2], averages[|averages| - 1]);
      && (r == Ok(Weak) <==> change < WEAK_LIMIT)
      && (r == Ok(Moderate) <==> WEAK_LIMIT <= change < MODERATE_LIMIT)
      && (r == Ok(Strong) <==> MODERATE_LIMIT <= change)
  {
    if |averages| < 2 then Ok(InsufficientStrengthData)
    else
      var previous := averages[|averages| - 2];
      if previous == 0.0 then Err(DivisionByZero)
      else
        var changePercent := ChangePercent(previous, averages[|averages| - 1]);
        if changePercent < WEAK_LIMIT then Ok(Weak)
        else if changePercent < MODERATE_LIMIT then Ok(Moderate)
        else Ok(Strong)
  }

  /** Order of the strength buckets, for comparing two classifications. */
  function Rank(s: Strength): nat
  {
    match s
    case InsufficientStrengthData => 0
    case Weak => 1
    case Moderate => 2
    case Strong => 3
  }

  /** Swapping the last two values swaps an upward and a downward trend and
      keeps a sideways one. */
  lemma TrendReversal(prefix: seq<real>, previous: real, last: real)
    ensures DetectTrend(prefix + [previous, last]) == Upward
        <==> DetectTrend(prefix + [last, previous]) == Downward
    ensures DetectTrend(prefix + [previous, last]) == Sideways
        <==> DetectTrend(prefix + [last, previous]) == Sideways
  {
    var a := prefix + [previous, last];
    var b := prefix + [last, previous];
    assert a[|a| - 1] == last && a[|a| - 2] == previous;
    assert b[|b| - 1] == previous && b[|b| - 2] == last;
  }

  /** The trend of a moving average is the sign of the newest price minus the
      price that just left the window. */
  lemma MovingAverageTrend(data: seq<real>, windowSize: int)
    requires 1 <= windowSize < |data|
    ensures var t := DetectTrend(MovingAverages(data, windowSize).value);
      var entering := data[|data| - 1];
      var leaving := data[|data| - 1 - windowSize];
      && (t == Upward <==> entering > leaving)
      && (t == Downward <==> entering < leaving)
      && (t == Sideways <==> entering == leaving)
  {
    var d := data[|data| - 1] - data[|data| - 1 - windowSize];
    LastStepOfMovingAverage(data, windowSize);
    TrendFromDifference(MovingAverages(data, windowSize).value, d, windowSize as real);
  }

  /** The last step of a moving average: the newest price minus the price
      that just left the window, over the window size. */
  lemma LastStepOfMovingAverage(data: seq<real>, windowSize: int)
    requires 1 <= windowSize < |data|
    ensures var averages := MovingAverages(data, windowSize).value;
      && |averages| == |data| - windowSize + 1
      && averages[|averages| - 1] - averages[|averages| - 2]
         == (data[|data| - 1] - data[|data| - 1 - windowSize]) / windowSize as real
  {
    var i := |data| - windowSize - 1;
    MovingAverageShape(data, windowSize);
    ConsecutiveAverageDifference(data, windowSize, i);
    LastStepAt(MovingAverages(data, windowSize).value, data, windowSize, i);
  }

  /** Step `i` of a series of `|data| - w + 1` averages is its last step when
      `i` is the last window start but one. */
  lemma LastStepAt(averages: seq<real>, data: seq<real>, w: int, i: int)
    requires 1 <= w < |data| && |averages| == |data| - w + 1
    requires i == |data| - w - 1
    requires averages[i + 1] - averages[i] == (data[i + w] - data[i]) / w as real
    ensures averages[|averages| - 1] - averages[|averages| - 2]
         == (data[|data| - 1] - data[|data| - 1 - w]) / w as real
  {
    assert averages[i + 1] == averages[|averages| - 1];
    assert averages[i] == averages[|averages| - 2];
    assert data[i + w] == data[|data| - 1];
    assert data[i] == data[|data| - 1 - w];
  }

  /** When the last step of a series is `d / w` with `w > 0`, the trend is
      the sign of `d`. */
  lemma TrendFromDifference(averages: seq<real>, d: real, w: real)
    requires |averages| >= 2 && w > 0.0
    requires averages[|averages| - 1] - averages[|averages| - 2] == d / w
    ensures var t := DetectTrend(averages);
      && (t == Upward <==> d > 0.0)
      && (t == Downward <==> d < 0.0)
      && (t == Sideways <==> d == 0.0)
  {
    SignOfQuotient(d, w);
  }

  lemma SignOfQuotient(d: real, w: real)
    requires w > 0.0
    ensures d / w > 0.0 <==> d > 0.0
    ensures d / w < 0.0 <==> d < 0.0
  {
  }

  /** A sideways trend is always weak. */
  lemma SidewaysIsWeak(averages: seq<real>)
    requires DetectTrend(averages) == Sideways
    requires averages[|averages| - 2] != 0.0
    ensures TrendStrength(averages) == Ok(Weak)
  {
  }

  /** A negative previous value makes the change percentage non-positive, so
      the trend is reported weak however large the move. */
  lemma NegativePreviousIsWeak(prefix: seq<real>, previous: real, last: real)
    requires previous < 0.0
    ensures TrendStrength(prefix + [previous, last]) == Ok(Weak)
  {
    var a := prefix + [previous, last];
    assert a[|a| - 1] == last && a[|a| - 2] == previous;
    assert Abs(last - previous) / previous <= 0.0;
  }

  /** Rescaling both values by a positive factor (a change of currency, say)
      does not change the strength. */
  lemma StrengthScaleInvariant(previous: real, last: real, c: real)
    requires previous != 0.0 && c > 0.0
    ensures TrendStrength([c * previous, c * last]) == TrendStrength([previous, last])
  {
    var scaled := [c * previous, c * last];
    assert scaled[|scaled| - 2] == c * previous && scaled[|scaled| - 1] == c * last;
    ChangePercentScale(previous, last, c);
  }

  lemma ChangePercentScale(previous: real, last: real, c: real)
    requires previous != 0.0 && c > 0.0
    ensures ChangePercent(c * previous, c * last) == ChangePercent(previous, last)
  {
    var diff := Abs(last - previous);
    assert Abs(c * last - c * previous) == c * diff by {
      assert c * last - c * previous == c * (last - previous);
    }
    DivideScaled(diff, previous, c);
  }

  lemma DivideScaled(d: real, p: real, c: real)
    requires p != 0.0 && c > 0.0
    ensures (c * d) / (c * p) == d / p
  {
    var q := d / p;
    assert d == q * p;
    assert c * d == q * (c * p);
  }

  /** With a positive previous value, a larger move never gives a weaker
      bucket. */
  lemma StrengthMonotone(previous: real, last1: real, last2: real)
    requires previous > 0.0
    requires Abs(last1 - previous) <= Abs(last2 - previous)
    ensures Rank(TrendStrength([previous, last1]).value) <= Rank(TrendStrength([previous, last2]).value)
  {
    DivideMonotone(Abs(last1 - previous), Abs(last2 - previous), previous);
    assert ChangePercent(previous, last1) <= ChangePercent(previous, last2);
  }

  lemma DivideMonotone(a: real, b: real, p: real)
    requires p > 0.0 && a <= b
    ensures a / p <= b / p
  {
  }

  /** For a moving average of positive prices the division in
      `trend_strength` never fails. */
  lemma PositivePricesStrengthDefined(data: seq<real>, windowSize: int)
    requires 1 <= windowSize <= |data|
    requires forall k :: 0 <= k < |data| ==> data[k] > 0.0
    ensures TrendStrength(MovingAverages(data, windowSize).value).Ok?
  {
    PositivePricesPositiveAverages(data, windowSize);
  }
}
