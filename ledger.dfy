/** The balance of a UTXO set and the dust-aware change rule. */
module Ledger {
  import opened Utils

  /** Reference definition: the sum of `witnessUtxo.value` over the set. */
  function TotalValue(utxos: seq<UTXO>): nat {
    if utxos == [] then 0 else utxos[0].witnessUtxo.value + TotalValue(utxos[1..])
  }

  /** `utxos.map((e) => e.witnessUtxo.value)` */
  function Values(utxos: seq<UTXO>): seq<int> {
    seq(|utxos|, i requires 0 <= i < |utxos| => utxos[i].witnessUtxo.value)
  }

  /** `[acc, ...s].reduce((a, b) => a + b)`: adds the elements left to right. */
  function Reduce(acc: int, s: seq<int>): int
    decreases s
  {
    if s == [] then acc else Reduce(acc + s[0], s[1..])
  }

  /** getBalance: reduce over the values of a non-empty set, 0 for the empty set. */
  function Balance(utxos: seq<UTXO>): int {
    if |utxos| > 0 then Reduce(Values(utxos)[0], Values(utxos)[1..]) else 0
  }

  lemma {:induction false} ReduceAddsTotal(acc: int, utxos: seq<UTXO>)
    decreases utxos
    ensures Reduce(acc, Values(utxos)) == acc + TotalValue(utxos)
  {
    if utxos != [] {
      assert Values(utxos)[1..] == Values(utxos[1..]);
      ReduceAddsTotal(acc + utxos[0].witnessUtxo.value, utxos[1..]);
    }
  }

  /** The balance is the sum of the set's values, never negative, and 0 for the empty set. */
  lemma BalanceIsSum(utxos: seq<UTXO>)
    ensures Balance(utxos) == TotalValue(utxos)
    ensures Balance(utxos) >= 0
    ensures utxos == [] ==> Balance(utxos) == 0
  {
    if |utxos| > 0 {
      assert Values(utxos)[1..] == Values(utxos[1..]);
      ReduceAddsTotal(utxos[0].witnessUtxo.value, utxos[1..]);
    }
  }

  /**
   * getChange: what is left of a positive balance after `valueOut`, when that exceeds the
   * dust threshold; otherwise no change at all.
   */
  function Change(balance: int, valueOut: int): (change: int)
    ensures change == 0 || change > DustThreshold
    ensures change != 0 <==> balance > 0 && balance - valueOut > DustThreshold
    ensures change != 0 ==> change == balance - valueOut
  {
    if balance > 0 && balance - valueOut > DustThreshold then balance - valueOut else 0
  }
}
