/**
 * scanUTXOs as a value: the address it scans, the entries it pushes (one per reported UTXO,
 * in provider order) and the first failure, after which nothing more is looked up.
 */
module Scan {
  import opened Wrappers
  import opened Errors
  import opened Utils
  import opened Networks
  import opened Electrs
  import opened Foreign
  import opened Accounts

  /** What a scan leaves in the set, and the error it stopped on, if any. */
  datatype ScanProgress = ScanProgress(pushed: seq<UTXO>, failure: Option<Error>)

  /** The set entry for one reported UTXO: its script comes from the output it names. */
  function Lookup(lib: Bindings, chain: ChainData, api: string, u: Utxo): (r: Result<UTXO, Error>)
    ensures r.Success? <==>
              chain.getTxInfo(api, u.txid).Success? && u.vout < |chain.getTxInfo(api, u.txid).value.vout|
    ensures chain.getTxInfo(api, u.txid).Failure? ==>
              r == Failure(ProviderError(chain.getTxInfo(api, u.txid).error))
    ensures chain.getTxInfo(api, u.txid).Success? && u.vout >= |chain.getTxInfo(api, u.txid).value.vout| ==>
              r == Failure(OutputIndexOutOfRange)
    ensures r.Success? ==>
              var tx := chain.getTxInfo(api, u.txid).value;
              chain.getTxInfo(api, u.txid).Success? && u.vout < |tx.vout|
              && r.value.hash == u.txid && r.value.index == u.vout
              && r.value.witnessUtxo.value == u.value
              && r.value.witnessUtxo.script == lib.fromHex(tx.vout[u.vout].scriptPubKey)
  {
    match chain.getTxInfo(api, u.txid)
    case Failure(message) => Failure(ProviderError(message))
    case Success(tx) =>
      if u.vout < |tx.vout| then
        Success(UTXO(u.txid, u.vout, Witness(u.value, lib.fromHex(tx.vout[u.vout].scriptPubKey))))
      else
        Failure(OutputIndexOutOfRange)
  }

  /** The loop over the reported UTXOs: push each entry, stop at the first failed lookup. */
  function Collect(lib: Bindings, chain: ChainData, api: string, reported: seq<Utxo>): ScanProgress
    decreases |reported|
  {
    if reported == [] then ScanProgress([], None)
    else
      var before := Collect(lib, chain, api, reported[..|reported| - 1]);
      if before.failure.Some? then before
      else match Lookup(lib, chain, api, reported[|reported| - 1])
        case Failure(e) => ScanProgress(before.pushed, Some(e))
        case Success(entry) => ScanProgress(before.pushed + [entry], None)
  }

  /** The whole scan: the given address or the wallet's own, its UTXO list, then the loop. */
  function Run(lib: Bindings, chain: ChainData, net: Network, api: string, phrase: string,
               addressOpt: string): ScanProgress
  {
    var address := if addressOpt != "" then Success(addressOpt) else OwnAddress(lib, net, phrase);
    match address
    case Failure(e) => ScanProgress([], Some(e))
    case Success(a) =>
      match chain.getAddressUtxos(api, a)
      case Failure(message) => ScanProgress([], Some(ProviderError(message)))
      case Success(reported) => Collect(lib, chain, api, reported)
  }

  /** Once a prefix of the list has failed, the rest of the list changes nothing. */
  lemma {:induction false} CollectStopsAtFailure(lib: Bindings, chain: ChainData, api: string,
                                                 reported: seq<Utxo>, k: nat)
    requires k <= |reported|
    requires Collect(lib, chain, api, reported[..k]).failure.Some?
    ensures Collect(lib, chain, api, reported) == Collect(lib, chain, api, reported[..k])
    decreases |reported|
  {
    if k < |reported| {
      var shorter := reported[..|reported| - 1];
      assert shorter[..k] == reported[..k];
      CollectStopsAtFailure(lib, chain, api, shorter, k);
    } else {
      assert reported[..k] == reported;
    }
  }

  /**
   * The entries pushed are, in order, the lookups of a prefix of the reported list; without
   * a failure that prefix is the whole list, and with one the failure is the lookup of the
   * next reported UTXO.
   */
  lemma {:induction false} CollectFacts(lib: Bindings, chain: ChainData, api: string, reported: seq<Utxo>)
    ensures var p := Collect(lib, chain, api, reported);
      |p.pushed| <= |reported|
      && (forall k :: 0 <= k < |p.pushed| ==> Lookup(lib, chain, api, reported[k]) == Success(p.pushed[k]))
      && (p.failure.None? ==> |p.pushed| == |reported|)
      && (p.failure.Some? ==>
            |p.pushed| < |reported|
            && Lookup(lib, chain, api, reported[|p.pushed|]) == Failure(p.failure.value))
    decreases |reported|
  {
    if reported != [] {
      var shorter := reported[..|reported| - 1];
      CollectFacts(lib, chain, api, shorter);
      var before := Collect(lib, chain, api, shorter);
      assert forall k :: 0 <= k < |shorter| ==> shorter[k] == reported[k];
    }
  }

  /**
   * A scan that succeeds holds one entry per reported UTXO, in provider order, with
   * hash = txid, index = vout, value = value and the script of the output it names.
   */
  lemma ScanOrder(lib: Bindings, chain: ChainData, api: string, reported: seq<Utxo>)
    requires Collect(lib, chain, api, reported).failure.None?
    ensures var entries := Collect(lib, chain, api, reported).pushed;
      |entries| == |reported|
      && forall k :: 0 <= k < |entries| ==>
           chain.getTxInfo(api, reported[k].txid).Success?
           && var tx := chain.getTxInfo(api, reported[k].txid).value;
           entries[k].hash == reported[k].txid && entries[k].index == reported[k].vout
           && entries[k].witnessUtxo.value == reported[k].value
           && reported[k].vout < |tx.vout|
           && entries[k].witnessUtxo.script == lib.fromHex(tx.vout[reported[k].vout].scriptPubKey)
  {
    CollectFacts(lib, chain, api, reported);
  }
}
