/** The pieces of calcFees: the next-block rate, the three speed tiers and one tier's quote. */
module Fees {
  import opened Utils
  import opened Electrs
  import opened Foreign

  /** The rate used when the provider gives no usable next-block estimate. */
  const DefaultFeeRate: real := 20.0

  /** The speed tiers in the order the client walks them, with their multipliers. */
  const FeesOptions: seq<(string, real)> := [("fast", 5.0), ("regular", 1.0), ("slow", 0.5)]

  /** One tier's entry of the fee schedule: the rate and the fee it gives. */
  datatype FeeOption = FeeOption(feeRate: real, feeTotal: int)

  /**
   * `estimates['1'] || 20`: the next-block estimate, or the default when it is absent or 0
   * (both falsy), so the rate used is never 0.
   */
  function NextBlockFeeRate(estimates: Estimates): (rate: real)
    ensures rate != 0.0
    ensures "1" in estimates && estimates["1"] != 0.0 ==> rate == estimates["1"]
    ensures "1" !in estimates || estimates["1"] == 0.0 ==> rate == DefaultFeeRate
  {
    if "1" in estimates && estimates["1"] != 0.0 then estimates["1"] else DefaultFeeRate
  }

  /** The quote at `feeRate`: the vault fee for a non-empty memo, the normal fee otherwise. */
  function Quote(lib: Bindings, utxos: seq<UTXO>, memo: string, feeRate: real): FeeOption {
    if memo != "" then FeeOption(feeRate, lib.getVaultFee(utxos, lib.compileMemo(memo), feeRate))
    else FeeOption(feeRate, lib.getNormalFee(utxos, feeRate))
  }
}
