/** Data: what the system is. An account and the record of its transactions. */
module Data {
  import opened Ledger

  /** An account keeps a ledger of signed transaction amounts. */
  class Account {
    var ledger: seq<int>

    /** An account created with the given entries already on its ledger. */
    constructor (entries: seq<int>)
      ensures ledger == entries
    {
      ledger := entries;
    }

    /** The current balance: the ledger folded from the left, starting at zero. */
    function CurrentBalance(): (balance: int)
      reads this
      ensures balance == Total(ledger)
      ensures ledger == [] ==> balance == 0
    {
      FoldSum(0, ledger)
    }
  }
}
