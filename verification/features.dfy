/** The fixed feature-name lookup used to pick the smoothed column. */
module Features {
  import opened Common

  /** The field names in column order. */
  const FeatureNames: seq<string> := [
    "open_time", "open", "high", "low", "close", "volume", "close_time",
    "quote_asset_volume", "number_of_trades", "taker_buy_base_asset_volume",
    "taker_buy_quote_asset_volume", "ignore"
  ]

  /** The name-to-column dictionary as the labeler declares it. */
  const FeatureTable: map<string, nat> := map[
    "open_time" := 0, "open" := 1, "high" := 2, "low" := 3, "close" := 4,
    "volume" := 5, "close_time" := 6, "quote_asset_volume" := 7,
    "number_of_trades" := 8, "taker_buy_base_asset_volume" := 9,
    "taker_buy_quote_asset_volume" := 10, "ignore" := 11
  ]

  /** The column of a feature name, or `None` for a name outside the table. */
  function FeatureColumn(name: string): (c: Option<nat>)
    ensures c.None? <==> name !in FeatureNames
    ensures c.Some? ==> c.value < NumFields && FeatureNames[c.value] == name
  {
    if name in FeatureTable then Some(FeatureTable[name]) else None
  }

  /** Every listed name finds its own column: the lookup inverts the name list. */
  lemma FeatureNamesRoundTrip(c: nat)
    requires c < NumFields
    ensures FeatureColumn(FeatureNames[c]) == Some(c)
  {
  }

  /** Two names that select the same column are the same name. */
  lemma FeatureColumnInjective(a: string, b: string)
    requires FeatureColumn(a).Some? && FeatureColumn(a) == FeatureColumn(b)
    ensures a == b
  {
  }
}
