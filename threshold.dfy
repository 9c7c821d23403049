/** The fixed per-pair notional cutoff below which a trade is not shown. */
module Threshold {

  /** Cutoffs, in USD, of the pairs the tracker offers. */
  const ThresholdTable: map<string, real> := map[
    "BTCUSDT" := 15000.0,
    "ETHUSDT" := 7000.0,
    "SOLUSDT" := 1500.0,
    "BNBUSDT" := 2500.0,
    "XRPUSDT" := 800.0,
    "DOGEUSDT" := 500.0,
    "AVAXUSDT" := 1200.0,
    "ADAUSDT" := 600.0,
    "LINKUSDT" := 1200.0,
    "TRXUSDT" := 500.0
  ]

  /** The pairs of the table, in the order the pair selector lists them. */
  const Pairs: seq<string> := [
    "BTCUSDT", "ETHUSDT", "SOLUSDT", "BNBUSDT", "XRPUSDT",
    "DOGEUSDT", "AVAXUSDT", "ADAUSDT", "LINKUSDT", "TRXUSDT"
  ]

  /** Cutoff of a pair that is not in the table. */
  const DefaultThreshold: real := 2000.0

  /** `thresholdMap[pair] || 2000`: the table value when the pair has a
      truthy (non-zero) entry, the default otherwise. Since no entry is
      zero, this is the table value of every listed pair. */
  function GetThreshold(pair: string): (th: real)
    ensures pair in ThresholdTable ==> th == ThresholdTable[pair]
    ensures pair !in ThresholdTable ==> th == DefaultThreshold
    ensures 500.0 <= th <= 15000.0
  {
    if pair in ThresholdTable && ThresholdTable[pair] != 0.0
    then ThresholdTable[pair]
    else DefaultThreshold
  }

  /** The selector offers exactly the pairs of the table, each once. */
  lemma PairsAreTableKeys()
    ensures forall p :: p in Pairs <==> p in ThresholdTable
    ensures forall i, j :: 0 <= i < j < |Pairs| ==> Pairs[i] != Pairs[j]
  {
  }

  /** The cutoffs of two listed pairs, the smallest one, and the default. */
  lemma ThresholdExamples()
    ensures GetThreshold("BTCUSDT") == 15000.0
    ensures GetThreshold("DOGEUSDT") == 500.0
    ensures GetThreshold("TRXUSDT") == 500.0
    ensures GetThreshold("ETHBTC") == 2000.0
    ensures GetThreshold("btcusdt") == 2000.0
  {
  }
}
