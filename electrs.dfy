/**
 * The electrs API as the client sees it: the record shapes it reads and the five requests
 * it makes. A request is a function of the endpoint and its argument: one snapshot of the
 * chain, with rejection as a Failure carrying the error text.
 */
module Electrs {
  import opened Wrappers

  /** One entry of an address's unspent-output list. */
  datatype Utxo = Utxo(txid: string, vout: nat, value: nat)

  datatype VOut = VOut(scriptPubKey: string, value: nat)

  datatype Tx = Tx(txid: string, vout: seq<VOut>)

  datatype ChainStats = ChainStats(fundedTxoSum: int, spentTxoSum: int)

  datatype Address = Address(address: string, chainStats: ChainStats)

  /** Fee rate (satoshi per byte) by confirmation target, keyed '1', '2', ... */
  type Estimates = map<string, real>

  datatype ChainData = ChainData(
    getAddressUtxos: (string, string) -> Result<seq<Utxo>, string>,
    getTxInfo: (string, string) -> Result<Tx, string>,
    getAddressInfo: (string, string) -> Result<Address, string>,
    getFeeEstimates: string -> Result<Estimates, string>,
    broadcastTx: (string, string) -> Result<string, string>)
}
