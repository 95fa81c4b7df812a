/**
 * The transaction under construction: bitcoinjs's Psbt as the client drives it, through
 * addInput and addOutput only, and the value it ends up holding.
 */
module Drafts {
  import opened Utils
  import opened Networks

  /** An output is paid to an address, or is the zero-value OP_RETURN carrying a memo script. */
  datatype Output = Regular(address: string, value: int) | Memo(script: seq<byte>)

  function OutputValue(o: Output): int {
    match o
    case Regular(_, value) => value
    case Memo(_) => 0
  }

  /** Sum of the values of `outputs`. */
  function OutputTotal(outputs: seq<Output>): int {
    if outputs == [] then 0 else OutputValue(outputs[0]) + OutputTotal(outputs[1..])
  }

  lemma {:induction false} OutputTotalAppend(a: seq<Output>, b: seq<Output>)
    ensures OutputTotal(a + b) == OutputTotal(a) + OutputTotal(b)
  {
    if a == [] {
      assert a + b == b;
    } else {
      assert (a + b)[1..] == a[1..] + b;
      OutputTotalAppend(a[1..], b);
    }
  }

  /** The inputs and outputs bound so far, on one network. */
  datatype Draft = Draft(network: NetworkParams, inputs: seq<UTXO>, outputs: seq<Output>)

  class Psbt {
    const network: NetworkParams
    var inputs: seq<UTXO>
    var outputs: seq<Output>

    constructor (network: NetworkParams)
      ensures this.network == network && inputs == [] && outputs == []
    {
      this.network := network;
      inputs := [];
      outputs := [];
    }

    method AddInput(input: UTXO)
      modifies this
      ensures inputs == old(inputs) + [input] && outputs == old(outputs)
    {
      inputs := inputs + [input];
    }

    method AddOutput(output: Output)
      modifies this
      ensures outputs == old(outputs) + [output] && inputs == old(inputs)
    {
      outputs := outputs + [output];
    }

    function ToDraft(): Draft
      reads this
    {
      Draft(network, inputs, outputs)
    }
  }
}
