/** Every way an operation of the client can fail. */
module Errors {

  datatype Error =
    | InvalidPhrase                   // setPhrase: 'Invalid BIP39 phrase'
    | PhraseNotSet                    // getAddress: 'Phrase not set'
    | InvalidAddress                  // 'Invalid address'
    | NoUtxos                         // 'No utxos to send'
    | InsufficientBalance             // 'Balance insufficient for transaction'
    | KeyDerivationFailed             // seed -> WIF -> key pair conversion threw
    | OutputIndexOutOfRange           // a scanned UTXO names an output its transaction lacks
    | SigningFailed                   // signing, finalising or extracting the transaction threw
    | ProviderError(message: string)  // an electrs request was rejected
    | ScanFailed(cause: Error)        // scanUTXOs rethrows whatever went wrong inside it
}
