/**
 * Assembly of the two transactions the client sends, normalTx and vaultTx, as values: the
 * checks in their fixed order, then every UTXO as an input in set order, then the outputs
 * in their fixed order. Both share one pipeline and differ only in the fee function and
 * the trailing memo output.
 */
module Builder {
  import opened Wrappers
  import opened Errors
  import opened Utils
  import opened Networks
  import opened Electrs
  import opened Drafts
  import opened Foreign
  import opened Accounts
  import opened Ledger

  /** The fee of a plain transfer at an already-rounded rate. */
  function NormalFee(lib: Bindings, utxos: seq<UTXO>, feeRateWhole: int): int {
    lib.getNormalFee(utxos, feeRateWhole as real)
  }

  /** The fee of a memo transfer at an already-rounded rate. */
  function VaultFee(lib: Bindings, utxos: seq<UTXO>, memo: string, feeRateWhole: int): int {
    lib.getVaultFee(utxos, lib.compileMemo(memo), feeRateWhole as real)
  }

  /** The checks made before anything is bound, in the order the client makes them. */
  function Precheck(lib: Bindings, net: Network, phrase: string, utxos: seq<UTXO>,
                    dest: string, valueOut: nat, fee: int): Outcome<Error>
  {
    if |utxos| == 0 then Fail(NoUtxos)
    else if !AddressValid(lib, net, dest) then Fail(InvalidAddress)
    else if lib.btcKeys(net, phrase).None? then Fail(KeyDerivationFailed)
    else if fee + valueOut > Balance(utxos) then Fail(InsufficientBalance)
    else Pass
  }

  /**
   * Binding: all of `utxos` as inputs; then the destination, the change to the wallet's own
   * address when there is any, and the memo output when there is a memo.
   */
  function Assemble(lib: Bindings, net: Network, phrase: string, utxos: seq<UTXO>,
                    dest: string, valueOut: nat, fee: int, memo: Option<seq<byte>>): Result<Draft, Error>
  {
    var change := Change(Balance(utxos), valueOut + fee);
    var trailer := if memo.Some? then [Memo(memo.value)] else [];
    if change > 0 then
      match OwnAddress(lib, net, phrase)
      case Failure(e) => Failure(e)
      case Success(own) => Success(Draft(GetNetwork(net), utxos, [Regular(dest, valueOut), Regular(own, change)] + trailer))
    else
      Success(Draft(GetNetwork(net), utxos, [Regular(dest, valueOut)] + trailer))
  }

  /** normalTx up to the signed transaction. */
  function NormalTxPlan(lib: Bindings, net: Network, phrase: string, utxos: seq<UTXO>,
                        addressTo: string, valueOut: nat, feeRateWhole: int): Result<Draft, Error>
  {
    var fee := NormalFee(lib, utxos, feeRateWhole);
    match Precheck(lib, net, phrase, utxos, addressTo, valueOut, fee)
    case Fail(e) => Failure(e)
    case Pass => Assemble(lib, net, phrase, utxos, addressTo, valueOut, fee, None)
  }

  /** vaultTx up to the signed transaction. */
  function VaultTxPlan(lib: Bindings, net: Network, phrase: string, utxos: seq<UTXO>,
                       addressVault: string, valueOut: nat, memo: string, feeRateWhole: int): Result<Draft, Error>
  {
    var fee := VaultFee(lib, utxos, memo, feeRateWhole);
    match Precheck(lib, net, phrase, utxos, addressVault, valueOut, fee)
    case Fail(e) => Failure(e)
    case Pass => Assemble(lib, net, phrase, utxos, addressVault, valueOut, fee, Some(lib.compileMemo(memo)))
  }

  /** Sign with the key derived during the checks, finalise and serialise the draft, then
      broadcast it; the result is the txid. */
  function Submit(lib: Bindings, chain: ChainData, api: string, keys: KeyPair, d: Draft): Result<string, Error>
  {
    match lib.signAndExtract(keys, d)
    case None => Failure(SigningFailed)
    case Some(txHex) =>
      match chain.broadcastTx(api, txHex)
      case Failure(message) => Failure(ProviderError(message))
      case Success(txid) => Success(txid)
  }

  function NormalTxResult(lib: Bindings, chain: ChainData, net: Network, api: string, phrase: string,
                          utxos: seq<UTXO>, addressTo: string, valueOut: nat, feeRateWhole: int): Result<string, Error>
  {
    match NormalTxPlan(lib, net, phrase, utxos, addressTo, valueOut, feeRateWhole)
    case Failure(e) => Failure(e)
    case Success(d) => Submit(lib, chain, api, lib.btcKeys(net, phrase).value, d)
  }

  function VaultTxResult(lib: Bindings, chain: ChainData, net: Network, api: string, phrase: string,
                         utxos: seq<UTXO>, addressVault: string, valueOut: nat, memo: string,
                         feeRateWhole: int): Result<string, Error>
  {
    match VaultTxPlan(lib, net, phrase, utxos, addressVault, valueOut, memo, feeRateWhole)
    case Failure(e) => Failure(e)
    case Success(d) => Submit(lib, chain, api, lib.btcKeys(net, phrase).value, d)
  }

  // ---------------------------------------------------------------------------------------
  // The shared pipeline

  /** Each check fails exactly when every earlier one passed and its own condition holds. */
  lemma PrecheckOrder(lib: Bindings, net: Network, phrase: string, utxos: seq<UTXO>,
                      dest: string, valueOut: nat, fee: int)
    ensures var c := Precheck(lib, net, phrase, utxos, dest, valueOut, fee);
      (c == Fail(NoUtxos) <==> utxos == [])
      && (c == Fail(InvalidAddress) <==> utxos != [] && !AddressValid(lib, net, dest))
      && (c == Fail(KeyDerivationFailed) <==>
            utxos != [] && AddressValid(lib, net, dest) && lib.btcKeys(net, phrase).None?)
      && (c == Fail(InsufficientBalance) <==>
            utxos != [] && AddressValid(lib, net, dest) && lib.btcKeys(net, phrase).Some?
            && fee + valueOut > Balance(utxos))
      && (c == Pass <==>
            utxos != [] && AddressValid(lib, net, dest) && lib.btcKeys(net, phrase).Some?
            && fee + valueOut <= Balance(utxos))
  {
  }

  /**
   * After the checks pass, binding fails only for want of the own address, which needs a
   * phrase when there is change; otherwise every UTXO becomes an input in set order and the
   * outputs come as destination, optional change, optional memo.
   */
  lemma AssembleShape(lib: Bindings, net: Network, phrase: string, utxos: seq<UTXO>,
                      dest: string, valueOut: nat, fee: int, memo: Option<seq<byte>>)
    requires Precheck(lib, net, phrase, utxos, dest, valueOut, fee) == Pass
    ensures var r := Assemble(lib, net, phrase, utxos, dest, valueOut, fee, memo);
      var change := Change(Balance(utxos), valueOut + fee);
      (r.Failure? <==> change > 0 && phrase == "")
      && (r.Failure? ==> r.error == PhraseNotSet)
      && (r.Success? ==>
            var d := r.value;
            d.network == GetNetwork(net) && d.inputs == utxos
            && |d.outputs| == 1 + (if change > 0 then 1 else 0) + (if memo.Some? then 1 else 0)
            && d.outputs[0] == Regular(dest, valueOut)
            && (change > 0 ==>
                  OwnAddress(lib, net, phrase).Success?
                  && d.outputs[1] == Regular(OwnAddress(lib, net, phrase).value, change))
            && (memo.Some? ==> d.outputs[|d.outputs| - 1] == Memo(memo.value)))
  {
  }

  /**
   * Value accounting of a successful binding: the inputs carry the whole balance; with a
   * change output the outputs and the fee use it up exactly; without one the leftover is at
   * most the dust threshold and goes to the miner; the outputs never exceed the balance
   * unless the fee is negative.
   */
  lemma AssembleValue(lib: Bindings, net: Network, phrase: string, utxos: seq<UTXO>,
                      dest: string, valueOut: nat, fee: int, memo: Option<seq<byte>>)
    requires Precheck(lib, net, phrase, utxos, dest, valueOut, fee) == Pass
    requires Assemble(lib, net, phrase, utxos, dest, valueOut, fee, memo).Success?
    ensures var d := Assemble(lib, net, phrase, utxos, dest, valueOut, fee, memo).value;
      var leftover := TotalValue(d.inputs) - OutputTotal(d.outputs) - fee;
      TotalValue(d.inputs) == Balance(utxos)
      && 0 <= leftover
      && (Change(Balance(utxos), valueOut + fee) > 0 ==> leftover == 0)
      && (Change(Balance(utxos), valueOut + fee) == 0 && Balance(utxos) > 0 ==> leftover <= DustThreshold)
      && (fee >= 0 ==> OutputTotal(d.outputs) <= Balance(utxos))
  {
    BalanceIsSum(utxos);
    var change := Change(Balance(utxos), valueOut + fee);
    var trailer := if memo.Some? then [Memo(memo.value)] else [];
    assert OutputTotal(trailer) == 0 by {
      if memo.Some? { assert trailer[1..] == []; }
    }
    var head := if change > 0 then [Regular(dest, valueOut), Regular(OwnAddress(lib, net, phrase).value, change)]
                else [Regular(dest, valueOut)];
    assert OutputTotal(head) == valueOut + change by {
      if change > 0 { assert head[1..][1..] == []; } else { assert head[1..] == []; }
    }
    OutputTotalAppend(head, trailer);
  }

  // ---------------------------------------------------------------------------------------
  // normalTx

  /** normalTx fails, in this order, on no UTXOs, an invalid address, key derivation and an
      insufficient balance, and then only when change needs an own address and there is no
      phrase. */
  lemma NormalTxChecks(lib: Bindings, net: Network, phrase: string, utxos: seq<UTXO>,
                       addressTo: string, valueOut: nat, feeRateWhole: int)
    ensures var r := NormalTxPlan(lib, net, phrase, utxos, addressTo, valueOut, feeRateWhole);
      var fee := NormalFee(lib, utxos, feeRateWhole);
      (r == Failure(NoUtxos) <==> utxos == [])
      && (r == Failure(InvalidAddress) <==> utxos != [] && !AddressValid(lib, net, addressTo))
      && (r == Failure(KeyDerivationFailed) <==>
            utxos != [] && AddressValid(lib, net, addressTo) && lib.btcKeys(net, phrase).None?)
      && (r == Failure(InsufficientBalance) <==>
            utxos != [] && AddressValid(lib, net, addressTo) && lib.btcKeys(net, phrase).Some?
            && fee + valueOut > Balance(utxos))
      && (r == Failure(PhraseNotSet) <==>
            Precheck(lib, net, phrase, utxos, addressTo, valueOut, fee) == Pass
            && Change(Balance(utxos), valueOut + fee) > 0 && phrase == "")
      && (r.Failure? ==> r.error in {NoUtxos, InvalidAddress, KeyDerivationFailed, InsufficientBalance, PhraseNotSet})
  {
    var fee := NormalFee(lib, utxos, feeRateWhole);
    PrecheckOrder(lib, net, phrase, utxos, addressTo, valueOut, fee);
    if Precheck(lib, net, phrase, utxos, addressTo, valueOut, fee) == Pass {
      AssembleShape(lib, net, phrase, utxos, addressTo, valueOut, fee, None);
    }
  }

  /** A successful normalTx spends every UTXO in order and pays the destination, then the
      change when it is above the dust threshold. */
  lemma NormalTxOutputs(lib: Bindings, net: Network, phrase: string, utxos: seq<UTXO>,
                        addressTo: string, valueOut: nat, feeRateWhole: int)
    requires NormalTxPlan(lib, net, phrase, utxos, addressTo, valueOut, feeRateWhole).Success?
    ensures var d := NormalTxPlan(lib, net, phrase, utxos, addressTo, valueOut, feeRateWhole).value;
      var fee := NormalFee(lib, utxos, feeRateWhole);
      var change := Balance(utxos) - valueOut - fee;
      d.network == GetNetwork(net) && d.inputs == utxos
      && d.outputs[0] == Regular(addressTo, valueOut)
      && (|d.outputs| == 2 <==> Balance(utxos) > 0 && change > DustThreshold)
      && (|d.outputs| == 1 || |d.outputs| == 2)
      && (|d.outputs| == 2 ==> d.outputs[1] == Regular(OwnAddress(lib, net, phrase).value, change))
  {
    var fee := NormalFee(lib, utxos, feeRateWhole);
    AssembleShape(lib, net, phrase, utxos, addressTo, valueOut, fee, None);
  }

  /** A successful normalTx neither creates nor destroys value beyond its fee. */
  lemma NormalTxValue(lib: Bindings, net: Network, phrase: string, utxos: seq<UTXO>,
                      addressTo: string, valueOut: nat, feeRateWhole: int)
    requires NormalTxPlan(lib, net, phrase, utxos, addressTo, valueOut, feeRateWhole).Success?
    ensures var d := NormalTxPlan(lib, net, phrase, utxos, addressTo, valueOut, feeRateWhole).value;
      var fee := NormalFee(lib, utxos, feeRateWhole);
      var leftover := TotalValue(d.inputs) - OutputTotal(d.outputs) - fee;
      TotalValue(d.inputs) == Balance(utxos)
      && (|d.outputs| == 2 ==> leftover == 0)
      && (|d.outputs| == 1 ==> 0 <= leftover && (Balance(utxos) > 0 ==> leftover <= DustThreshold))
      && (fee >= 0 ==> OutputTotal(d.outputs) <= Balance(utxos))
  {
    var fee := NormalFee(lib, utxos, feeRateWhole);
    AssembleShape(lib, net, phrase, utxos, addressTo, valueOut, fee, None);
    AssembleValue(lib, net, phrase, utxos, addressTo, valueOut, fee, None);
  }

  // ---------------------------------------------------------------------------------------
  // vaultTx

  /** vaultTx fails in the same order as normalTx, with the vault fee in the balance check. */
  lemma VaultTxChecks(lib: Bindings, net: Network, phrase: string, utxos: seq<UTXO>,
                      addressVault: string, valueOut: nat, memo: string, feeRateWhole: int)
    ensures var r := VaultTxPlan(lib, net, phrase, utxos, addressVault, valueOut, memo, feeRateWhole);
      var fee := VaultFee(lib, utxos, memo, feeRateWhole);
      (r == Failure(NoUtxos) <==> utxos == [])
      && (r == Failure(InvalidAddress) <==> utxos != [] && !AddressValid(lib, net, addressVault))
      && (r == Failure(KeyDerivationFailed) <==>
            utxos != [] && AddressValid(lib, net, addressVault) && lib.btcKeys(net, phrase).None?)
      && (r == Failure(InsufficientBalance) <==>
            utxos != [] && AddressValid(lib, net, addressVault) && lib.btcKeys(net, phrase).Some?
            && fee + valueOut > Balance(utxos))
      && (r == Failure(PhraseNotSet) <==>
            Precheck(lib, net, phrase, utxos, addressVault, valueOut, fee) == Pass
            && Change(Balance(utxos), valueOut + fee) > 0 && phrase == "")
      && (r.Failure? ==> r.error in {NoUtxos, InvalidAddress, KeyDerivationFailed, InsufficientBalance, PhraseNotSet})
  {
    var fee := VaultFee(lib, utxos, memo, feeRateWhole);
    PrecheckOrder(lib, net, phrase, utxos, addressVault, valueOut, fee);
    if Precheck(lib, net, phrase, utxos, addressVault, valueOut, fee) == Pass {
      AssembleShape(lib, net, phrase, utxos, addressVault, valueOut, fee, Some(lib.compileMemo(memo)));
    }
  }

  /** A successful vaultTx spends every UTXO in order and pays the vault, then the change
      when it is above the dust threshold, then a zero-value OP_RETURN with the memo. */
  lemma VaultTxOutputs(lib: Bindings, net: Network, phrase: string, utxos: seq<UTXO>,
                       addressVault: string, valueOut: nat, memo: string, feeRateWhole: int)
    requires VaultTxPlan(lib, net, phrase, utxos, addressVault, valueOut, memo, feeRateWhole).Success?
    ensures var d := VaultTxPlan(lib, net, phrase, utxos, addressVault, valueOut, memo, feeRateWhole).value;
      var fee := VaultFee(lib, utxos, memo, feeRateWhole);
      var change := Balance(utxos) - valueOut - fee;
      d.network == GetNetwork(net) && d.inputs == utxos
      && d.outputs[0] == Regular(addressVault, valueOut)
      && (|d.outputs| == 3 <==> Balance(utxos) > 0 && change > DustThreshold)
      && (|d.outputs| == 2 || |d.outputs| == 3)
      && (|d.outputs| == 3 ==> d.outputs[1] == Regular(OwnAddress(lib, net, phrase).value, change))
      && d.outputs[|d.outputs| - 1] == Memo(lib.compileMemo(memo))
      && OutputValue(d.outputs[|d.outputs| - 1]) == 0
  {
    var fee := VaultFee(lib, utxos, memo, feeRateWhole);
    AssembleShape(lib, net, phrase, utxos, addressVault, valueOut, fee, Some(lib.compileMemo(memo)));
  }

  /** A successful vaultTx neither creates nor destroys value beyond its fee. */
  lemma VaultTxValue(lib: Bindings, net: Network, phrase: string, utxos: seq<UTXO>,
                     addressVault: string, valueOut: nat, memo: string, feeRateWhole: int)
    requires VaultTxPlan(lib, net, phrase, utxos, addressVault, valueOut, memo, feeRateWhole).Success?
    ensures var d := VaultTxPlan(lib, net, phrase, utxos, addressVault, valueOut, memo, feeRateWhole).value;
      var fee := VaultFee(lib, utxos, memo, feeRateWhole);
      var leftover := TotalValue(d.inputs) - OutputTotal(d.outputs) - fee;
      TotalValue(d.inputs) == Balance(utxos)
      && (|d.outputs| == 3 ==> leftover == 0)
      && (|d.outputs| == 2 ==> 0 <= leftover && (Balance(utxos) > 0 ==> leftover <= DustThreshold))
      && (fee >= 0 ==> OutputTotal(d.outputs) <= Balance(utxos))
  {
    var fee := VaultFee(lib, utxos, memo, feeRateWhole);
    AssembleShape(lib, net, phrase, utxos, addressVault, valueOut, fee, Some(lib.compileMemo(memo)));
    AssembleValue(lib, net, phrase, utxos, addressVault, valueOut, fee, Some(lib.compileMemo(memo)));
  }
}
