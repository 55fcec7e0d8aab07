/** The instantaneous trading signal (`signal` in main.py): an empty series
    wins over everything, then the scalar volatility gate, and only then the
    comparison of the latest short and long moving-average values. */
module SignalDetector {

  datatype Signal = BuySignal | SellSignal | Hold | LowVolatilityIgnore | InsufficientSignalData

  /** Default of the `min_vol` parameter. */
  const DEFAULT_MIN_VOLATILITY: real := 1.0

  function Detect(shortMa: seq<real>, longMa: seq<real>, latestVolatility: real, minVolatility: real): (s: Signal)
    ensures s == InsufficientSignalData <==> (|shortMa| == 0 || |longMa| == 0)
    ensures s == LowVolatilityIgnore <==>
      (|shortMa| > 0 && |longMa| > 0 && latestVolatility < minVolatility)
    ensures |shortMa| > 0 && |longMa| > 0 && latestVolatility >= minVolatility ==>
      && (s == BuySignal <==> shortMa[|shortMa| - 1] > longMa[|longMa| - 1])
      && (s == SellSignal <==> shortMa[|shortMa| - 1] < longMa[|longMa| - 1])
      && (s == Hold <==> shortMa[|shortMa| - 1] == longMa[|longMa| - 1])
  {
    if |shortMa| == 0 || |longMa| == 0 then InsufficientSignalData
    else if latestVolatility < minVolatility then LowVolatilityIgnore
    else if shortMa[|shortMa| - 1] > longMa[|longMa| - 1] then BuySignal
    else if shortMa[|shortMa| - 1] < longMa[|longMa| - 1] then SellSignal
    else Hold
  }

  function Mirror(s: Signal): Signal
  {
    match s
    case BuySignal => SellSignal
    case SellSignal => BuySignal
    case _ => s
  }

  /** Exchanging the roles of the short and long series mirrors the signal:
      a buy becomes a sell and the other way round; every other outcome stays. */
  lemma DetectSwapMirrors(shortMa: seq<real>, longMa: seq<real>, latestVolatility: real, minVolatility: real)
    ensures Detect(longMa, shortMa, latestVolatility, minVolatility)
         == Mirror(Detect(shortMa, longMa, latestVolatility, minVolatility))
  {
  }

  /** Only the last value of each series matters: older history never changes
      the signal. */
  lemma DetectUsesLastValuesOnly(shortMa: seq<real>, longMa: seq<real>, shortHistory: seq<real>,
                                 longHistory: seq<real>, latestVolatility: real, minVolatility: real)
    requires |shortMa| > 0 && |longMa| > 0
    ensures Detect(shortHistory + shortMa, longHistory + longMa, latestVolatility, minVolatility)
         == Detect(shortMa, longMa, latestVolatility, minVolatility)
  {
    var s := shortHistory + shortMa;
    var l := longHistory + longMa;
    assert s[|s| - 1] == shortMa[|shortMa| - 1];
    assert l[|l| - 1] == longMa[|longMa| - 1];
  }

  /** Raising the volatility floor can only turn a signal into the ignore
      outcome, never into a different trade. */
  lemma HigherFloorOnlyIgnores(shortMa: seq<real>, longMa: seq<real>, latestVolatility: real,
                               lowFloor: real, highFloor: real)
    requires lowFloor <= highFloor
    ensures var s := Detect(shortMa, longMa, latestVolatility, highFloor);
      s == Detect(shortMa, longMa, latestVolatility, lowFloor) || s == LowVolatilityIgnore
  {
  }
}
