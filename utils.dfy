/** The shapes declared in lib/utils.d.ts: the dust threshold and the UTXO record. */
module Utils {

  newtype byte = x: int | 0 <= x < 256

  /** Change at or below this many satoshis is left to the fee instead of paid back. */
  const DustThreshold: nat := 1000

  /** The output being spent, as a PSBT needs it for a segwit input. */
  datatype Witness = Witness(value: nat, script: seq<byte>)

  /** One spendable output in the wallet's set. */
  datatype UTXO = UTXO(hash: string, index: nat, witnessUtxo: Witness)
}
