/**
 * The Client of src/client.ts: the wallet state (network, phrase, electrs endpoint and UTXO
 * set) and the operations that read and update it. The libraries it calls are its `lib`;
 * the electrs requests it makes go to the `chain` each operation is given.
 */
module Wallet {
  import opened Wrappers
  import opened Errors
  import opened Utils
  import opened Networks
  import opened Electrs
  import opened Drafts
  import opened Foreign
  import opened Accounts
  import opened Ledger
  import opened Fees
  import opened Builder
  import opened Scan

  class Client {
    const lib: Bindings
    var net: Network
    var phrase: string
    var electrsAPI: string
    var utxos: seq<UTXO>

    /** A client on `net` (testnet by default) talking to `electrsAPI`, with no phrase and no UTXOs. */
    constructor (lib: Bindings, net: Network := TEST, electrsAPI: string := "")
      ensures this.lib == lib && this.net == net && this.electrsAPI == electrsAPI
      ensures phrase == "" && utxos == []
    {
      this.lib := lib;
      this.net := net;
      this.electrsAPI := electrsAPI;
      phrase := "";
      utxos := [];
    }

    /** The constructor with an initial phrase: it fails as setPhrase fails on that phrase. */
    static method Create(lib: Bindings, net: Network, electrsAPI: string, initialPhrase: string)
      returns (r: Result<Client, Error>)
      ensures r.Failure? <==> initialPhrase != "" && !lib.validateMnemonic(initialPhrase)
      ensures r.Failure? ==> r.error == InvalidPhrase
      ensures r.Success? ==>
                fresh(r.value) && r.value.lib == lib && r.value.net == net
                && r.value.electrsAPI == electrsAPI && r.value.phrase == initialPhrase
                && r.value.utxos == []
    {
      var client := new Client(lib, net, electrsAPI);
      var outcome := client.SetPhrase(initialPhrase);
      if outcome.Fail? {
        return Failure(outcome.error);
      }
      return Success(client);
    }

    /**
     * setPhrase: an empty phrase changes nothing; a valid one replaces the phrase; an invalid
     * one fails with InvalidPhrase and leaves the phrase as it was.
     */
    method SetPhrase(newPhrase: string) returns (r: Outcome<Error>)
      modifies this`phrase
      ensures r.Pass? <==> newPhrase == "" || ValidatePhrase(lib, newPhrase)
      ensures r.Fail? ==> r.error == InvalidPhrase && phrase == old(phrase)
      ensures newPhrase == "" ==> phrase == old(phrase)
      ensures r.Pass? && newPhrase != "" ==> phrase == newPhrase
    {
      r := Pass;
      if newPhrase != "" {
        if lib.validateMnemonic(newPhrase) {
          phrase := newPhrase;
        } else {
          r := Fail(InvalidPhrase);
        }
      }
    }

    /** purgeClient: forget the phrase and the UTXO set; network and endpoint stay. */
    method PurgeClient()
      modifies this`phrase, this`utxos
      ensures phrase == "" && utxos == []
      ensures net == old(net) && electrsAPI == old(electrsAPI)
    {
      phrase := "";
      utxos := [];
    }

    /** setNetwork: only the network changes. */
    method SetNetwork(newNet: Network)
      modifies this`net
      ensures net == newNet
      ensures phrase == old(phrase) && utxos == old(utxos) && electrsAPI == old(electrsAPI)
    {
      net := newNet;
    }

    /** setBaseUrl: only the electrs endpoint changes. */
    method SetBaseUrl(endpoint: string)
      modifies this`electrsAPI
      ensures electrsAPI == endpoint
      ensures net == old(net) && phrase == old(phrase) && utxos == old(utxos)
    {
      electrsAPI := endpoint;
    }

    /**
     * scanUTXOs: the set is cleared first, then one entry is pushed per reported UTXO. On a
     * failure the error comes back wrapped and the set keeps the entries pushed before it.
     */
    method ScanUTXOs(chain: ChainData, addressOpt: string) returns (r: Outcome<Error>)
      modifies this`utxos
      ensures utxos == Run(lib, chain, net, electrsAPI, phrase, addressOpt).pushed
      ensures r == match Run(lib, chain, net, electrsAPI, phrase, addressOpt).failure
                   case None => Pass
                   case Some(e) => Fail(ScanFailed(e))
    {
      utxos := [];
      var address: string;
      if addressOpt != "" {
        address := addressOpt;
      } else {
        var own := OwnAddress(lib, net, phrase);
        if own.Failure? {
          return Fail(ScanFailed(own.error));
        }
        address := own.value;
      }
      var listed := chain.getAddressUtxos(electrsAPI, address);
      if listed.Failure? {
        return Fail(ScanFailed(ProviderError(listed.error)));
      }
      var reported := listed.value;
      var i := 0;
      while i < |reported|
        invariant 0 <= i <= |reported|
        invariant Collect(lib, chain, electrsAPI, reported[..i]) == ScanProgress(utxos, None)
      {
        var txHash := reported[i].txid;
        var value := reported[i].value;
        var index := reported[i].vout;
        assert reported[..i + 1][..i] == reported[..i];
        var txData := chain.getTxInfo(electrsAPI, txHash);
        if txData.Failure? {
          CollectStopsAtFailure(lib, chain, electrsAPI, reported, i + 1);
          return Fail(ScanFailed(ProviderError(txData.error)));
        }
        if index >= |txData.value.vout| {
          CollectStopsAtFailure(lib, chain, electrsAPI, reported, i + 1);
          return Fail(ScanFailed(OutputIndexOutOfRange));
        }
        var script := txData.value.vout[index].scriptPubKey;
        var witnessUtxo := Witness(value, lib.fromHex(script));
        utxos := utxos + [UTXO(txHash, index, witnessUtxo)];
        i := i + 1;
      }
      assert reported[..i] == reported;
      r := Pass;
    }

    /** getChange: the change the current balance leaves after `valueOut`, by the dust rule. */
    method GetChange(valueOut: int) returns (change: int)
      ensures change == Change(Balance(utxos), valueOut)
    {
      var balance := Balance(utxos);
      change := 0;
      if balance > 0 {
        if balance - valueOut > DustThreshold {
          change := balance - valueOut;
        }
      }
    }

    /** getBalanceForAddress: funded minus spent, for a valid address, as the provider reports. */
    method GetBalanceForAddress(chain: ChainData, address: string) returns (r: Result<int, Error>)
      ensures !AddressValid(lib, net, address) ==> r == Failure(InvalidAddress)
      ensures AddressValid(lib, net, address) && chain.getAddressInfo(electrsAPI, address).Failure? ==>
                r == Failure(ProviderError(chain.getAddressInfo(electrsAPI, address).error))
      ensures AddressValid(lib, net, address) && chain.getAddressInfo(electrsAPI, address).Success? ==>
                var stats := chain.getAddressInfo(electrsAPI, address).value.chainStats;
                r == Success(stats.fundedTxoSum - stats.spentTxoSum)
    {
      if !AddressValid(lib, net, address) {
        return Failure(InvalidAddress);
      }
      var addressInfo := chain.getAddressInfo(electrsAPI, address);
      if addressInfo.Failure? {
        return Failure(ProviderError(addressInfo.error));
      }
      var stats := addressInfo.value.chainStats;
      return Success(stats.fundedTxoSum - stats.spentTxoSum);
    }

    /**
     * calcFees: no UTXOs is an error before the provider is asked; otherwise exactly the
     * tiers fast, regular and slow, at 5, 1 and 0.5 times the next-block rate, each priced
     * with the vault fee when there is a memo and the normal fee when there is none.
     */
    method CalcFees(chain: ChainData, memo: string) returns (r: Result<map<string, FeeOption>, Error>)
      ensures |utxos| == 0 ==> r == Failure(NoUtxos)
      ensures |utxos| > 0 && chain.getFeeEstimates(electrsAPI).Failure? ==>
                r == Failure(ProviderError(chain.getFeeEstimates(electrsAPI).error))
      ensures r.Success? <==> |utxos| > 0 && chain.getFeeEstimates(electrsAPI).Success?
      ensures r.Success? ==>
                var base := NextBlockFeeRate(chain.getFeeEstimates(electrsAPI).value);
                r.value.Keys == {"fast", "regular", "slow"}
                && r.value["fast"].feeRate == 5.0 * base
                && r.value["regular"].feeRate == base
                && r.value["slow"].feeRate == 0.5 * base
                && forall key :: key in r.value ==>
                     r.value[key].feeTotal ==
                       if memo != "" then lib.getVaultFee(utxos, lib.compileMemo(memo), r.value[key].feeRate)
                       else lib.getNormalFee(utxos, r.value[key].feeRate)
    {
      if |utxos| == 0 {
        return Failure(NoUtxos);
      }
      var estimates := chain.getFeeEstimates(electrsAPI);
      if estimates.Failure? {
        return Failure(ProviderError(estimates.error));
      }
      var nextBlockFeeRate := NextBlockFeeRate(estimates.value);
      var calcdFees: map<string, FeeOption> := map[];
      var i := 0;
      while i < |FeesOptions|
        invariant 0 <= i <= |FeesOptions|
        invariant calcdFees.Keys == set k | 0 <= k < i :: FeesOptions[k].0
        invariant forall k :: 0 <= k < i ==>
                    calcdFees[FeesOptions[k].0] == Quote(lib, utxos, memo, nextBlockFeeRate * FeesOptions[k].1)
      {
        var (key, multiplier) := FeesOptions[i];
        calcdFees := calcdFees[key := Quote(lib, utxos, memo, nextBlockFeeRate * multiplier)];
        i := i + 1;
      }
      assert (set k | 0 <= k < 3 :: FeesOptions[k].0) == {"fast", "regular", "slow"} by {
        assert FeesOptions[0].0 == "fast" && FeesOptions[1].0 == "regular" && FeesOptions[2].0 == "slow";
      }
      return Success(calcdFees);
    }

    /**
     * normalTx: the checks, then every UTXO as an input, the destination output and the
     * change output when there is change; the signed transaction is broadcast.
     */
    method NormalTx(chain: ChainData, addressTo: string, valueOut: nat, feeRateWhole: int)
      returns (r: Result<string, Error>)
      ensures r == NormalTxResult(lib, chain, net, electrsAPI, phrase, utxos, addressTo, valueOut, feeRateWhole)
    {
      if |utxos| == 0 {
        return Failure(NoUtxos);
      }
      if !AddressValid(lib, net, addressTo) {
        return Failure(InvalidAddress);
      }
      var balance := Balance(utxos);
      var network := GetNetwork(net);
      var btcKeys := lib.btcKeys(net, phrase);
      if btcKeys.None? {
        return Failure(KeyDerivationFailed);
      }
      var fee := lib.getNormalFee(utxos, feeRateWhole as real);
      if fee + valueOut > balance {
        return Failure(InsufficientBalance);
      }
      var psbt := new Psbt(network);
      var i := 0;
      while i < |utxos|
        invariant 0 <= i <= |utxos|
        invariant psbt.network == network && psbt.inputs == utxos[..i] && psbt.outputs == []
      {
        psbt.AddInput(utxos[i]);
        i := i + 1;
      }
      assert utxos[..i] == utxos;
      psbt.AddOutput(Regular(addressTo, valueOut));
      var change := GetChange(valueOut + fee);
      if change > 0 {
        var own := OwnAddress(lib, net, phrase);
        if own.Failure? {
          return Failure(own.error);
        }
        psbt.AddOutput(Regular(own.value, change));
        assert psbt.outputs == [Regular(addressTo, valueOut), Regular(own.value, change)];
      }
      assert psbt.ToDraft() == NormalTxPlan(lib, net, phrase, utxos, addressTo, valueOut, feeRateWhole).value;
      var txHex := lib.signAndExtract(btcKeys.value, psbt.ToDraft());
      if txHex.None? {
        return Failure(SigningFailed);
      }
      var sent := chain.broadcastTx(electrsAPI, txHex.value);
      if sent.Failure? {
        return Failure(ProviderError(sent.error));
      }
      return Success(sent.value);
    }

    /**
     * vaultTx: the checks (with the vault fee), then every UTXO as an input, the vault
     * output, the change output when there is change and the OP_RETURN memo output; the
     * signed transaction is broadcast.
     */
    method VaultTx(chain: ChainData, addressVault: string, valueOut: nat, memo: string, feeRateWhole: int)
      returns (r: Result<string, Error>)
      ensures r == VaultTxResult(lib, chain, net, electrsAPI, phrase, utxos, addressVault, valueOut, memo, feeRateWhole)
    {
      if |utxos| == 0 {
        return Failure(NoUtxos);
      }
      if !AddressValid(lib, net, addressVault) {
        return Failure(InvalidAddress);
      }
      var balance := Balance(utxos);
      var network := GetNetwork(net);
      var btcKeys := lib.btcKeys(net, phrase);
      if btcKeys.None? {
        return Failure(KeyDerivationFailed);
      }
      var opReturn := lib.compileMemo(memo);
      var fee := lib.getVaultFee(utxos, opReturn, feeRateWhole as real);
      if fee + valueOut > balance {
        return Failure(InsufficientBalance);
      }
      var psbt := new Psbt(network);
      var i := 0;
      while i < |utxos|
        invariant 0 <= i <= |utxos|
        invariant psbt.network == network && psbt.inputs == utxos[..i] && psbt.outputs == []
      {
        psbt.AddInput(utxos[i]);
        i := i + 1;
      }
      assert utxos[..i] == utxos;
      psbt.AddOutput(Regular(addressVault, valueOut));
      var change := GetChange(valueOut + fee);
      if change > 0 {
        var own := OwnAddress(lib, net, phrase);
        if own.Failure? {
          return Failure(own.error);
        }
        psbt.AddOutput(Regular(own.value, change));
        assert psbt.outputs == [Regular(addressVault, valueOut), Regular(own.value, change)];
      }
      psbt.AddOutput(Memo(opReturn));
      assert psbt.ToDraft() == VaultTxPlan(lib, net, phrase, utxos, addressVault, valueOut, memo, feeRateWhole).value;
      var txHex := lib.signAndExtract(btcKeys.value, psbt.ToDraft());
      if txHex.None? {
        return Failure(SigningFailed);
      }
      var sent := chain.broadcastTx(electrsAPI, txHex.value);
      if sent.Failure? {
        return Failure(ProviderError(sent.error));
      }
      return Success(sent.value);
    }
  }
}
