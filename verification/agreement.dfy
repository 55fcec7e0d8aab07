/** How the instant signal and the crossover scan agree when both look at
    the moving averages of the same prices. */
module IndicatorAgreement {
  import opened Wrappers
  import opened CrossoverScanner
  import opened SignalDetector

  /** A crossover on the newest position of the aligned scan fixes the
      instant signal, once the volatility gate lets it through: a buy
      crossover means a buy signal, a sell crossover a sell signal. */
  lemma LastCrossoverDecidesSignal(shortMa: seq<real>, longMa: seq<real>, n: int, shortW: int, longW: int,
                                   latestVolatility: real, minVolatility: real)
    requires MovingAverageShaped(shortMa, longMa, n, shortW, longW)
    requires latestVolatility >= minVolatility
    ensures var r := BuySellOutcome(shortMa, longMa, shortW, longW, false);
      && r.Ok?
      && (|shortMa| - 1 in r.value.buy ==> Detect(shortMa, longMa, latestVolatility, minVolatility) == BuySignal)
      && (|shortMa| - 1 in r.value.sell ==> Detect(shortMa, longMa, latestVolatility, minVolatility) == SellSignal)
  {
    var offset := longW - shortW;
    var lo := AlignedStart(shortW, longW);
    AlignedReadsInBounds(shortMa, longMa, n, shortW, longW);
    ScanPoints(shortMa, longMa, offset, lo, |shortMa|, false);
    assert |shortMa| - 1 - offset == |longMa| - 1;
  }
}
