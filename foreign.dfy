/**
 * The libraries the client calls and whose code is not part of this model: bip39, wif and
 * bitcoinjs-lib, and the fee formulas behind lib/utils.d.ts. Each is an uninterpreted total
 * function; a call that can throw returns an Option.
 */
module Foreign {
  import opened Wrappers
  import opened Utils
  import opened Networks
  import opened Drafts

  datatype KeyPair = KeyPair(publicKey: seq<byte>)

  datatype Bindings = Bindings(
    // BIP39.validateMnemonic
    validateMnemonic: string -> bool,
    // getBtcKeys: mnemonicToSeedSync, WIF.encode, ECPair.fromWIF; None when one of them throws
    btcKeys: (Network, string) -> Option<KeyPair>,
    // payments.p2wpkh({pubkey, network}).address
    p2wpkhAddress: (NetworkParams, KeyPair) -> string,
    // address.toOutputScript does not throw
    toOutputScript: (NetworkParams, string) -> bool,
    // Buffer.from(script, 'hex')
    fromHex: string -> seq<byte>,
    // Utils.compileMemo: the OP_RETURN script carrying the memo
    compileMemo: string -> seq<byte>,
    // Utils.getNormalFee(inputs, feeRate)
    getNormalFee: (seq<UTXO>, real) -> int,
    // Utils.getVaultFee(inputs, data, feeRate)
    getVaultFee: (seq<UTXO>, seq<byte>, real) -> int,
    // signAllInputs, finalizeAllInputs, extractTransaction().toHex(); None when one throws
    signAndExtract: (KeyPair, Draft) -> Option<string>)
}
