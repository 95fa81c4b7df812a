/** The wallet's phrase and address checks, on top of the foreign key and address code. */
module Accounts {
  import opened Wrappers
  import opened Errors
  import opened Networks
  import opened Foreign

  /** validatePhrase: an empty phrase is never valid. */
  function ValidatePhrase(lib: Bindings, phrase: string): (valid: bool)
    ensures phrase == "" ==> !valid
    ensures phrase != "" ==> (valid <==> lib.validateMnemonic(phrase))
  {
    phrase != "" && lib.validateMnemonic(phrase)
  }

  /** validateAddress: the address decodes to an output script on the client's network. */
  function AddressValid(lib: Bindings, net: Network, address: string): bool {
    lib.toOutputScript(GetNetwork(net), address)
  }

  /** getAddress: the P2WPKH address of the key derived from the phrase. */
  function OwnAddress(lib: Bindings, net: Network, phrase: string): (r: Result<string, Error>)
    ensures r.Failure? <==> phrase == "" || lib.btcKeys(net, phrase).None?
    ensures phrase == "" ==> r == Failure(PhraseNotSet)
    ensures phrase != "" && lib.btcKeys(net, phrase).None? ==> r == Failure(KeyDerivationFailed)
    ensures r.Success? ==> r.value == lib.p2wpkhAddress(GetNetwork(net), lib.btcKeys(net, phrase).value)
  {
    if phrase == "" then Failure(PhraseNotSet)
    else match lib.btcKeys(net, phrase)
      case None => Failure(KeyDerivationFailed)
      case Some(keys) => Success(lib.p2wpkhAddress(GetNetwork(net), keys))
  }
}
