# Bitcoin client wallet core, modelled in Dafny

This project models the wallet state and transaction assembly of the `Client` class of a
single-address Bitcoin client (`src/client.ts`). The client holds a network, a BIP39 phrase,
an electrs endpoint and the set of UTXOs it has scanned. Its balance is the sum of that set.
It quotes fees in three speed tiers. It builds two kinds of transfer: `normalTx` and
`vaultTx`, the second with a zero-value OP_RETURN memo output. Both spend the whole set.

Layout, one module per file:

- `wrappers.dfy`, `errors.dfy`: `Option`, `Result`, `Outcome`, and the client's errors.
- `utils.dfy`: the `UTXO`/`Witness` records and the dust threshold of `lib/utils.d.ts`.
- `networks.dfy`: `Network` and `getNetwork`.
- `electrs.dfy`: the electrs record shapes and the five requests, as `ChainData`.
- `foreign.dfy`: the libraries the client calls (bip39, wif, bitcoinjs-lib, and the fee
  formulas), as uninterpreted functions in `Bindings`.
- `accounts.dfy`: `validatePhrase`, `validateAddress` and `getAddress` over those bindings.
- `ledger.dfy`: `getBalance` (reduce over the values) against a reference sum, and `getChange`.
- `fees.dfy`: the next-block rate, the tier table and one tier's quote.
- `drafts.dfy`: the outputs, the draft transaction and the `Psbt` object the client fills.
- `builder.dfy`: the checks and the output assembly of `normalTx`/`vaultTx` as functions,
  with their error-order, output-order and value-accounting lemmas.
- `scan.dfy`: `scanUTXOs` as a function, with its ordering and failure lemmas.
- `wallet.dfy`: the `Client` class, with the source's fields and its methods written as the
  source's imperative code. `ScanUTXOs`, `GetChange`, `NormalTx` and `VaultTx` are proved
  equal to the functions above. `SetPhrase`, `PurgeClient`, `SetNetwork`, `SetBaseUrl`,
  `GetBalanceForAddress` and `CalcFees` state the new state or the result directly in
  their ensures.
- `scenarios.dfy`: worked `normalTx` cases on a one-output set, and both transfers on the
  empty set.

The electrs requests are functions of the endpoint and the argument (one chain snapshot);
a rejected request is a `Failure` with its message. Key derivation, address encoding,
address validation, hex decoding, memo compilation, the two fee formulas and signing are
fields of `Bindings`. Nothing in the model constrains them.

Two behaviours of the code are worth stating outright:

- A failed scan keeps the entries pushed before the failure, because the set is cleared
  only at the start and each entry is pushed as soon as it is built
  (src/client.ts:163,185,187-189; `Scan.CollectFacts`, `Wallet.Client.ScanUTXOs`).
- Between the address check and the balance check the code derives the key
  (`getBtcKeys`), which can throw. A change output also needs `getAddress`, which throws
  'Phrase not set' when the phrase is empty. Both failures are modelled where the code
  raises them.

## Model

| member | source | states |
|---|---|---|
| `Networks.GetNetwork` | src/client.ts:111-117 | The test network selects testnet parameters and the main network mainnet ones, in both directions. |
| `Accounts.OwnAddress` | src/client.ts:125-139 | Fails with PhraseNotSet exactly when the phrase is empty, and with KeyDerivationFailed when key derivation throws. Otherwise it returns the P2WPKH address of the derived key. |
| `Accounts.ValidatePhrase` | src/client.ts:92-98 | An empty phrase is never valid. A non-empty one is valid exactly when the uninterpreted BIP39 check accepts it. |
| `Ledger.ReduceAddsTotal` | src/client.ts:195-196 | Reducing the mapped values with `+` from an accumulator adds the reference sum of the set to it. |
| `Ledger.BalanceIsSum` | src/client.ts:193-201 | `Ledger.Balance`, the balance as getBalance computes it, equals the sum of `witnessUtxo.value` over the set. It is never negative and is 0 for the empty set. |
| `Ledger.Change` | src/client.ts:212-221 | Change is `balance - valueOut` exactly when the balance is positive and that difference exceeds the 1000 dust threshold, and 0 otherwise. So it is either 0 or above the threshold. |
| `Wallet.Client.GetChange` | src/client.ts:212-221 | The imperative getChange returns the dust-rule change of the current balance after `valueOut`. |
| `Wallet.Client.constructor` | src/client.ts:70-75 | A new client has the given network (testnet by default) and endpoint (empty by default), an empty phrase and an empty set. |
| `Wallet.Client.Create` | src/client.ts:70-75 | Construction with a phrase fails with InvalidPhrase exactly when the phrase is non-empty and invalid. Otherwise the new client holds that phrase and an empty set. |
| `Wallet.Client.SetPhrase` | src/client.ts:82-90 | An empty phrase changes nothing. A valid one replaces the phrase. An invalid one fails with InvalidPhrase and leaves the phrase unchanged. Only the phrase can change. |
| `Wallet.Client.PurgeClient` | src/client.ts:100-103 | The phrase becomes empty and the set becomes empty. The network and endpoint are unchanged. |
| `Wallet.Client.SetNetwork` | src/client.ts:106-108 | Only the network changes, to the given one. |
| `Wallet.Client.SetBaseUrl` | src/client.ts:119-121 | Only the electrs endpoint changes, to the given one. |
| `Scan.Lookup` | src/client.ts:168-184 | The lookup succeeds exactly when the transaction is found and has an output `vout`. Then the entry has hash = txid, index = vout, value = value and that output's script. It fails with the provider's error when the request fails, and with OutputIndexOutOfRange when the output does not exist. |
| `Scan.CollectStopsAtFailure` | src/client.ts:185-189 | Once a lookup has failed, the rest of the reported list adds nothing and does not change the error. |
| `Scan.CollectFacts` | src/client.ts:167-189 | In `Scan.Collect`, the scan loop as a function, the pushed entries are, in order, the lookups of a prefix of the reported list. Without a failure the prefix is the whole list. With one, the failure is the lookup of the next reported UTXO. |
| `Scan.ScanOrder` | src/client.ts:167-186 | A successful scan holds one entry per reported UTXO in provider order, with each entry's fields taken from its report and its transaction. |
| `Wallet.Client.ScanUTXOs` | src/client.ts:161-190 | The set is cleared first, and then it holds exactly the entries `Scan.Run` (the whole scan as a function) pushes. A failure (no own address, the listing, or a lookup) is rethrown wrapped. Only the set changes. |
| `Wallet.Client.GetBalanceForAddress` | src/client.ts:203-209 | An invalid address fails with InvalidAddress before the provider is asked. Otherwise the result is funded minus spent from the chain stats, or the provider's error. |
| `Fees.NextBlockFeeRate` | src/client.ts:289 | The base rate is the '1' estimate when present and non-zero, and 20 otherwise. It is never 0. |
| `Wallet.Client.CalcFees` | src/client.ts:283-310 | Each tier's entry is `Fees.Quote`, the forEach body. An empty set fails with NoUtxos before the provider is asked, and a provider failure is passed on. Otherwise the result has exactly the keys fast, regular and slow, at 5, 1 and 0.5 times the base rate. Each fee is the vault fee when the memo is non-empty and the normal fee otherwise. |
| `Builder.PrecheckOrder` | src/client.ts:314-328 | The checks fail in a fixed order: no UTXOs, then invalid address, then key derivation, then `fee + valueOut > balance`. Each fails exactly when the earlier ones passed. |
| `Builder.AssembleShape` | src/client.ts:329-344 | After the checks pass, binding fails (PhraseNotSet) exactly when there is change and no phrase. Otherwise the inputs are the whole set in order, and the outputs are the destination, then the change to the own address when there is change, then the memo when there is one. |
| `Builder.AssembleValue` | src/client.ts:326-344 | The inputs carry the whole balance. With a change output, outputs plus fee equal it exactly. Without one, the leftover is at least 0 and, for a positive balance, at most 1000. Outputs never exceed the balance when the fee is non-negative. |
| `Builder.NormalTxChecks` | src/client.ts:352-366 | `Builder.NormalTxPlan`, normalTx up to signing, fails with NoUtxos, InvalidAddress, KeyDerivationFailed, InsufficientBalance, each in turn exactly when its check is the first to fail. After that it fails only with PhraseNotSet, and no other error is possible. |
| `Builder.NormalTxOutputs` | src/client.ts:367-379 | A built normalTx spends every UTXO in order. It pays the destination first, then the change `balance - valueOut - fee` to the own address exactly when the balance is positive and that change exceeds 1000. |
| `Builder.NormalTxValue` | src/client.ts:363-379 | For normalTx, inputs equal the balance. With change, outputs plus fee equal it. Without change, the absorbed leftover lies in [0, 1000]. Outputs never exceed the balance for a non-negative fee. |
| `Builder.VaultTxChecks` | src/client.ts:313-328 | `Builder.VaultTxPlan`, vaultTx up to signing, fails in the same order as normalTx, with the vault fee in the balance check. |
| `Builder.VaultTxOutputs` | src/client.ts:329-344 | A built vaultTx spends every UTXO in order. It pays the vault first, then the change when it exceeds 1000, then a zero-value OP_RETURN output with the compiled memo, last. |
| `Builder.VaultTxValue` | src/client.ts:325-344 | The same value accounting as normalTx, with the memo output counted at 0. |
| `Wallet.Client.NormalTx` | src/client.ts:352-384 | The imperative normalTx (the addInput loop, then the addOutput calls, then signing and broadcast) returns what `Builder.NormalTxPlan` followed by `Builder.Submit` (signing with the key derived in the checks, then broadcast) gives. |
| `Wallet.Client.VaultTx` | src/client.ts:313-349 | The imperative vaultTx returns what `Builder.VaultTxPlan` followed by `Builder.Submit` gives. |
| `Scenarios.SendWithChange` | src/client.ts:352-379 | With one 100000 output and a fee of 226, sending 50000 gives the destination output and a change output of 49774. |
| `Scenarios.SendAbsorbingDust` | src/client.ts:352-379 | With one 100000 output and a fee of 226, sending 99274 leaves 500, which gives no change output. |
| `Scenarios.SendTooMuch` | src/client.ts:352-366 | With one 100000 output, sending 99999 fails with InsufficientBalance whenever the fee exceeds 1. |
| `Scenarios.SendFromEmptySet` | src/client.ts:313-316 | With an empty set, both transfers fail with NoUtxos. |

## Left out

- BIP39 phrase generation (`generatePhrase`) is left out: it draws randomness.
- Mnemonic validation, seed derivation, WIF encoding and the key pair are uninterpreted functions in `Bindings`. So is P2WPKH address encoding.
- `Accounts.AddressValid`: validateAddress is the uninterpreted `toOutputScript` predicate under `GetNetwork(net)`, with no contract of its own.
- The 'address not defined' throw in `getAddress` is not modelled. bitcoinjs always yields an address for a public key.
- `getNormalFee`, `getVaultFee` and `compileMemo` are uninterpreted, because their bodies are not part of this model. So nothing is proved about the size formula, about monotonicity in the rate or the input count, or about the vault fee against the normal fee.
- Signing, finalising, extraction and hex serialisation are one uninterpreted function returning `None` when they throw.
- The electrs requests are inputs (`ChainData`), and the txid returned by broadcast is an opaque string. Network failures are just a `Failure` with a message.
- `getTransactions` is left out: it is a pass-through of one electrs request after the address check, the same pattern `GetBalanceForAddress` models.
- `Number(feeRate.toFixed(0))` is JavaScript float formatting. The builders take the already-rounded integer rate.
- All amounts are unbounded integers and fee rates exact reals, not JavaScript doubles. Rounding in `rate * 5` and a NaN estimate (also falsy in `|| 20`) are not modelled.
- Binding an input or an output to the `Psbt` is a plain append. The checks bitcoinjs makes in `addInput` and `addOutput` (for example, its rejection of a duplicate hash and index) are not modelled, so a set with a duplicate UTXO is bound as it stands.
- `Wallet.Client.NormalTx`: `valueOut` is a `nat`. A negative or fractional output value, which bitcoinjs rejects in `addOutput`, is not modelled.
- `Wallet.Client.VaultTx`: `valueOut` is a `nat`. A negative or fractional output value, which bitcoinjs rejects in `addOutput`, is not modelled.
- Async suspension and concurrent use of one client are not modelled. Each operation runs to completion against one snapshot of the chain.
- `getNetwork` on a value other than the two enum members is not modelled (`Network` has exactly two values).
- The `this.utxos &&` null guard in `getBalance` is not modelled: the set is never null here.
- `arrayAverage` and the commented-out `getBlockTime`/`getTxWeight` are left out: they have no behaviour in the client.
