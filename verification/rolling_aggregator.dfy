/** The rolling-window mean (`moving_average` in main.py): slide a window of
    `windowSize` prices over the series and emit the arithmetic mean of each
    window. Prices are real numbers. */
module RollingAggregator {
  import opened Wrappers
  import opened PythonList

  /** Python's `sum`, a left-to-right fold starting at 0. */
  function Sum(s: seq<real>): real
  {
    SumPrefix(s, |s|)
  }

  /** The sum of the first `n` elements. */
  function SumPrefix(s: seq<real>, n: nat): real
    requires n <= |s|
  {
    if n == 0 then 0.0 else SumPrefix(s, n - 1) + s[n - 1]
  }

  lemma {:induction false} SumPrefixOfAppend(a: seq<real>, b: seq<real>, n: nat)
    requires n <= |a|
    ensures SumPrefix(a + b, n) == SumPrefix(a, n)
  {
    if n > 0 {
      SumPrefixOfAppend(a, b, n - 1);
    }
  }

  lemma {:induction false} SumPrefixAppend(a: seq<real>, b: seq<real>, k: nat)
    requires k <= |b|
    ensures SumPrefix(a + b, |a| + k) == Sum(a) + SumPrefix(b, k)
  {
    if k == 0 {
      SumPrefixOfAppend(a, b, |a|);
    } else {
      SumPrefixAppend(a, b, k - 1);
      assert (a + b)[|a| + k - 1] == b[k - 1];
    }
  }

  lemma SumAppend(a: seq<real>, b: seq<real>)
    ensures Sum(a + b) == Sum(a) + Sum(b)
  {
    SumPrefixAppend(a, b, |b|);
  }

  lemma {:induction false} SumPrefixBounds(s: seq<real>, n: nat, lo: real, hi: real)
    requires n <= |s|
    requires forall k :: 0 <= k < |s| ==> lo <= s[k] <= hi
    ensures n as real * lo <= SumPrefix(s, n) <= n as real * hi
  {
    if n > 0 {
      SumPrefixBounds(s, n - 1, lo, hi);
    }
  }

  lemma SumBounds(s: seq<real>, lo: real, hi: real)
    requires forall k :: 0 <= k < |s| ==> lo <= s[k] <= hi
    ensures |s| as real * lo <= Sum(s) <= |s| as real * hi
  {
    SumPrefixBounds(s, |s|, lo, hi);
  }

  lemma {:induction false} SumPrefixConstant(s: seq<real>, n: nat, x: real)
    requires n <= |s|
    requires forall k :: 0 <= k < |s| ==> s[k] == x
    ensures SumPrefix(s, n) == n as real * x
  {
    if n > 0 {
      SumPrefixConstant(s, n - 1, x);
    }
  }

  lemma SumConstant(s: seq<real>, x: real)
    requires forall k :: 0 <= k < |s| ==> s[k] == x
    ensures Sum(s) == |s| as real * x
  {
    SumPrefixConstant(s, |s|, x);
  }

  lemma {:induction false} SumPrefixPositive(s: seq<real>, n: nat)
    requires 0 < n <= |s|
    requires forall k :: 0 <= k < |s| ==> s[k] > 0.0
    ensures SumPrefix(s, n) > 0.0
  {
    if n > 1 {
      SumPrefixPositive(s, n - 1);
    }
  }

  lemma SumPositive(s: seq<real>)
    requires s != []
    requires forall k :: 0 <= k < |s| ==> s[k] > 0.0
    ensures Sum(s) > 0.0
  {
    SumPrefixPositive(s, |s|);
  }

  /** The mean of the window starting at `i`, as main.py computes it:
      `sum(data[i : i + window_size]) / window_size`. */
  function WindowMean(data: seq<real>, i: int, windowSize: int): real
    requires windowSize != 0
  {
    Sum(Slice(data, i, i + windowSize)) / windowSize as real
  }

  /** The result of `moving_average(data, windowSize)`: one mean per
      `i in range(len(data) - windowSize + 1)`; a zero window divides by zero
      on the first iteration, which always runs. */
  function MovingAverages(data: seq<real>, windowSize: int): Result<seq<real>>
  {
    if windowSize == 0 then Err(DivisionByZero)
    else Ok(seq(RangeLength(|data| - windowSize + 1), i => WindowMean(data, i, windowSize)))
  }

  method MovingAverage(data: seq<real>, windowSize: int) returns (r: Result<seq<real>>)
    ensures r == MovingAverages(data, windowSize)
  {
    var averages: seq<real> := [];
    var count := RangeLength(|data| - windowSize + 1);
    var i := 0;
    while i < count
      invariant 0 <= i <= count
      invariant windowSize == 0 ==> i == 0
      invariant |averages| == i
      invariant forall k :: 0 <= k < i ==> windowSize != 0 && averages[k] == WindowMean(data, k, windowSize)
    {
      var window := Slice(data, i, i + windowSize);
      if windowSize == 0 {
        return Err(DivisionByZero);
      }
      var avg := Sum(window) / windowSize as real;
      averages := averages + [avg];
      i := i + 1;
    }
    if windowSize == 0 {
      return Err(DivisionByZero);
    }
    assert averages == seq(count, k => WindowMean(data, k, windowSize));
    r := Ok(averages);
  }

  /** For a window between 1 and the series length there are exactly
      `|data| - windowSize + 1` averages, each the mean of a full window. */
  lemma MovingAverageShape(data: seq<real>, windowSize: int)
    requires 1 <= windowSize <= |data|
    ensures MovingAverages(data, windowSize).Ok?
    ensures |MovingAverages(data, windowSize).value| == |data| - windowSize + 1
    ensures forall i :: 0 <= i < |data| - windowSize + 1 ==>
      MovingAverages(data, windowSize).value[i] == Sum(data[i..i + windowSize]) / windowSize as real
  {
  }

  /** A window longer than the series yields no averages and no error. */
  lemma WindowLongerThanSeries(data: seq<real>, windowSize: int)
    requires windowSize > |data|
    ensures MovingAverages(data, windowSize) == Ok([])
  {
    assert |MovingAverages(data, windowSize).value| == 0;
  }

  /** Every average lies between any lower and upper bound of the prices. */
  lemma AverageWithinBounds(data: seq<real>, windowSize: int, lo: real, hi: real)
    requires 1 <= windowSize <= |data|
    requires forall k :: 0 <= k < |data| ==> lo <= data[k] <= hi
    ensures forall i :: 0 <= i < |MovingAverages(data, windowSize).value| ==>
      lo <= MovingAverages(data, windowSize).value[i] <= hi
  {
    forall i | 0 <= i < |MovingAverages(data, windowSize).value|
      ensures lo <= MovingAverages(data, windowSize).value[i] <= hi
    {
      WindowMeanWithinBounds(data, windowSize, i, lo, hi);
    }
  }

  lemma WindowMeanWithinBounds(data: seq<real>, windowSize: int, i: int, lo: real, hi: real)
    requires 1 <= windowSize && 0 <= i && i + windowSize <= |data|
    requires forall k :: 0 <= k < |data| ==> lo <= data[k] <= hi
    ensures lo <= WindowMean(data, i, windowSize) <= hi
  {
    var window := data[i..i + windowSize];
    assert |window| == windowSize;
    SumBounds(window, lo, hi);
    DivideWithin(Sum(window), windowSize as real, lo, hi);
  }

  /** Positive prices give positive averages. */
  lemma PositivePricesPositiveAverages(data: seq<real>, windowSize: int)
    requires 1 <= windowSize <= |data|
    requires forall k :: 0 <= k < |data| ==> data[k] > 0.0
    ensures forall i :: 0 <= i < |MovingAverages(data, windowSize).value| ==>
      MovingAverages(data, windowSize).value[i] > 0.0
  {
    forall i | 0 <= i < |MovingAverages(data, windowSize).value|
      ensures MovingAverages(data, windowSize).value[i] > 0.0
    {
      WindowMeanPositive(data, windowSize, i);
    }
  }

  lemma WindowMeanPositive(data: seq<real>, windowSize: int, i: int)
    requires 1 <= windowSize && 0 <= i && i + windowSize <= |data|
    requires forall k :: 0 <= k < |data| ==> data[k] > 0.0
    ensures WindowMean(data, i, windowSize) > 0.0
  {
    var window := data[i..i + windowSize];
    assert |window| == windowSize;
    SumPositive(window);
  }

  /** A constant price series gives a constant series of averages. */
  lemma ConstantSeriesConstantAverages(data: seq<real>, windowSize: int, x: real)
    requires 1 <= windowSize <= |data|
    requires forall k :: 0 <= k < |data| ==> data[k] == x
    ensures MovingAverages(data, windowSize) == Ok(seq(|data| - windowSize + 1, _ => x))
  {
    var averages := MovingAverages(data, windowSize).value;
    var w := windowSize as real;
    forall i | 0 <= i < |averages|
      ensures averages[i] == x
    {
      var window := data[i..i + windowSize];
      assert |window| == windowSize;
      SumConstant(window, x);
      assert Sum(window) == w * x;
      DivideProduct(w, x);
      assert averages[i] == (w * x) / w;
    }
    assert averages == seq(|data| - windowSize + 1, _ => x);
  }

  /** Consecutive averages differ by the price entering the window minus the
      price leaving it, divided by the window size. */
  lemma ConsecutiveAverageDifference(data: seq<real>, windowSize: int, i: int)
    requires 1 <= windowSize <= |data|
    requires 0 <= i < |data| - windowSize
    ensures MovingAverages(data, windowSize).value[i + 1] - MovingAverages(data, windowSize).value[i]
         == (data[i + windowSize] - data[i]) / windowSize as real
  {
    var w := windowSize;
    AverageAt(data, w, i);
    AverageAt(data, w, i + 1);
    WindowMeanStep(data, i, w);
  }

  /** Element `i` of the moving average is the mean of the window at `i`. */
  lemma AverageAt(data: seq<real>, windowSize: int, i: int)
    requires 1 <= windowSize && 0 <= i && i + windowSize <= |data|
    ensures MovingAverages(data, windowSize).Ok?
    ensures i < |MovingAverages(data, windowSize).value|
    ensures MovingAverages(data, windowSize).value[i] == WindowMean(data, i, windowSize)
  {
  }

  lemma WindowMeanStep(data: seq<real>, i: int, w: int)
    requires 0 <= i && 1 <= w && i + w < |data|
    ensures WindowMean(data, i + 1, w) - WindowMean(data, i, w) == (data[i + w] - data[i]) / w as real
  {
    WindowSumStep(data, i, w);
    DivideDifference(Sum(data[i + 1..i + 1 + w]), Sum(data[i..i + w]), w as real);
  }

  /** Sliding a window one step adds the entering price and drops the
      leaving one. */
  lemma WindowSumStep(data: seq<real>, i: int, w: int)
    requires 0 <= i && 1 <= w && i + w < |data|
    ensures Sum(data[i + 1..i + 1 + w]) - Sum(data[i..i + w]) == data[i + w] - data[i]
  {
    var whole := data[i..i + w + 1];
    assert whole == data[i..i + w] + [data[i + w]];
    assert whole == [data[i]] + data[i + 1..i + 1 + w];
    SumAppend(data[i..i + w], [data[i + w]]);
    SumAppend([data[i]], data[i + 1..i + 1 + w]);
    SumSingleton(data[i]);
    SumSingleton(data[i + w]);
  }

  lemma SumSingleton(x: real)
    ensures Sum([x]) == x
  {
    assert SumPrefix([x], 1) == SumPrefix([x], 0) + x;
  }

  lemma DivideWithin(total: real, w: real, lo: real, hi: real)
    requires w > 0.0
    requires w * lo <= total <= w * hi
    ensures lo <= total / w <= hi
  {
  }

  lemma DivideProduct(w: real, x: real)
    requires w > 0.0
    ensures (w * x) / w == x
  {
  }

  lemma DivideDifference(a: real, b: real, w: real)
    requires w > 0.0
    ensures a / w - b / w == (a - b) / w
  {
  }
}
