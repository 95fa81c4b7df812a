/** The client's network setting and the bitcoinjs parameter set it selects. */
module Networks {

  datatype Network = TEST | MAIN

  /** bitcoinjs-lib's `networks.testnet` and `networks.bitcoin`. */
  datatype NetworkParams = Testnet | Bitcoin

  /** getNetwork: the test network selects testnet parameters, anything else mainnet ones. */
  function GetNetwork(net: Network): (params: NetworkParams)
    ensures params.Testnet? <==> net.TEST?
    ensures params.Bitcoin? <==> net.MAIN?
  {
    if net.TEST? then Testnet else Bitcoin
  }
}
