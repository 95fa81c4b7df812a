/** Worked cases of normalTx on a set holding one output of 100000 satoshis, and both transfers on the empty set. */
module Scenarios {
  import opened Wrappers
  import opened Errors
  import opened Utils
  import opened Networks
  import opened Drafts
  import opened Foreign
  import opened Accounts
  import opened Ledger
  import opened Builder

  /** Sending 50000 at a fee of 226 pays the change, 49774, back to the wallet. */
  lemma SendWithChange(lib: Bindings, net: Network, phrase: string, addressTo: string, u: UTXO)
    requires u.witnessUtxo.value == 100000
    requires AddressValid(lib, net, addressTo) && phrase != "" && lib.btcKeys(net, phrase).Some?
    requires NormalFee(lib, [u], 1) == 226
    ensures NormalTxPlan(lib, net, phrase, [u], addressTo, 50000, 1)
            == Success(Draft(GetNetwork(net), [u],
                             [Regular(addressTo, 50000), Regular(OwnAddress(lib, net, phrase).value, 49774)]))
  {
    BalanceIsSum([u]);
    assert [Regular(addressTo, 50000), Regular(OwnAddress(lib, net, phrase).value, 49774)] + []
        == [Regular(addressTo, 50000), Regular(OwnAddress(lib, net, phrase).value, 49774)];
  }

  /** A leftover of 500 is below the dust threshold: no change output, the miner keeps it. */
  lemma SendAbsorbingDust(lib: Bindings, net: Network, phrase: string, addressTo: string, u: UTXO)
    requires u.witnessUtxo.value == 100000
    requires AddressValid(lib, net, addressTo) && lib.btcKeys(net, phrase).Some?
    requires NormalFee(lib, [u], 1) == 226
    ensures NormalTxPlan(lib, net, phrase, [u], addressTo, 99274, 1)
            == Success(Draft(GetNetwork(net), [u], [Regular(addressTo, 99274)]))
  {
    BalanceIsSum([u]);
    assert [Regular(addressTo, 99274)] + [] == [Regular(addressTo, 99274)];
  }

  /** Sending 99999 fails on the balance as soon as the fee is above 1. */
  lemma SendTooMuch(lib: Bindings, net: Network, phrase: string, addressTo: string, u: UTXO)
    requires u.witnessUtxo.value == 100000
    requires AddressValid(lib, net, addressTo) && lib.btcKeys(net, phrase).Some?
    requires NormalFee(lib, [u], 1) > 1
    ensures NormalTxPlan(lib, net, phrase, [u], addressTo, 99999, 1) == Failure(InsufficientBalance)
  {
  }

  /** With no UTXOs both transfers fail first of all on the empty set. */
  lemma SendFromEmptySet(lib: Bindings, net: Network, phrase: string, address: string, memo: string,
                         valueOut: nat, feeRateWhole: int)
    ensures NormalTxPlan(lib, net, phrase, [], address, valueOut, feeRateWhole) == Failure(NoUtxos)
    ensures VaultTxPlan(lib, net, phrase, [], address, valueOut, memo, feeRateWhole) == Failure(NoUtxos)
  {
  }
}
