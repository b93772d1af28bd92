/**
 * Context: what the system does. The Transfer Money use case moves an amount
 * from an account playing the Money Source role to an account playing the
 * Money Destination role. The roles' requirements are met by `Account`; the
 * roles' own methods (`SendTransfer`, `ReceiveTransfer`) are written only in
 * terms of those requirements.
 */
module Context {
  import opened Ledger
  import opened Data

  // ---------------------------------------------------------------------
  // The use case on ledger values
  // ---------------------------------------------------------------------

  /**
   * The ledgers of the source and of the destination after the source sends
   * `amount` to the destination: when the source can cover the amount, the
   * source records `-amount` and the destination records `amount`; otherwise
   * nothing happens and no error is reported.
   */
  function Transferred(source: seq<int>, sink: seq<int>, amount: int): (seq<int>, seq<int>)
  {
    if Total(source) >= amount then (source + [-amount], sink + [amount])
    else (source, sink)
  }

  /**
   * A covered transfer appends exactly one entry to each ledger, keeps the
   * earlier entries, lowers the source's balance by `amount` and raises the
   * destination's by `amount`.
   */
  lemma TransferMovesAmount(source: seq<int>, sink: seq<int>, amount: int)
    requires Total(source) >= amount
    ensures Transferred(source, sink, amount).0 == source + [-amount]
    ensures Transferred(source, sink, amount).1 == sink + [amount]
    ensures Total(Transferred(source, sink, amount).0) == Total(source) - amount
    ensures Total(Transferred(source, sink, amount).1) == Total(sink) + amount
  {
    TotalAppend(source, -amount);
    TotalAppend(sink, amount);
  }

  /**
   * The ledgers change exactly when the source can cover the amount; an
   * uncovered transfer leaves both untouched.
   */
  lemma TransferHappensIff(source: seq<int>, sink: seq<int>, amount: int)
    ensures Transferred(source, sink, amount) != (source, sink) <==> Total(source) >= amount
  {
  }

  /** Money is neither created nor destroyed: the two balances keep their sum. */
  lemma TransferConservesTotal(source: seq<int>, sink: seq<int>, amount: int)
    ensures Total(Transferred(source, sink, amount).0) + Total(Transferred(source, sink, amount).1)
         == Total(source) + Total(sink)
  {
    if Total(source) >= amount {
      TransferMovesAmount(source, sink, amount);
    }
  }

  /**
   * Transferring is not idempotent: running the use case twice, when the
   * source covers both, moves the amount twice.
   */
  lemma TransferTwiceMovesTwice(source: seq<int>, sink: seq<int>, amount: int)
    requires Total(source) >= amount && Total(source) - amount >= amount
    ensures var once := Transferred(source, sink, amount);
            var twice := Transferred(once.0, once.1, amount);
            Total(twice.0) == Total(source) - 2 * amount && Total(twice.1) == Total(sink) + 2 * amount
            && twice.0 == source + [-amount, -amount] && twice.1 == sink + [amount, amount]
  {
    TransferMovesAmount(source, sink, amount);
    var once := Transferred(source, sink, amount);
    TransferMovesAmount(once.0, once.1, amount);
    assert source + [-amount] + [-amount] == source + [-amount, -amount];
    assert sink + [amount] + [amount] == sink + [amount, amount];
  }

  // ---------------------------------------------------------------------
  // Role MoneySource: requirements met by Account, and the role method
  // ---------------------------------------------------------------------

  /** The balance a Money Source can spend: its current balance. */
  function AvailableBalance(account: Account): (balance: int)
    reads account
    ensures balance == Total(account.ledger)
  {
    account.CurrentBalance()
  }

  /** Records a withdrawal of `amount` as the entry `-amount`. */
  method DecreaseBalance(account: Account, amount: int)
    modifies account
    ensures account.ledger == old(account.ledger) + [-amount]
    ensures account.CurrentBalance() == old(account.CurrentBalance()) - amount
  {
    TotalAppend(account.ledger, -amount);
    account.ledger := account.ledger + [-amount];
  }

  /**
   * The Money Source's role method: debit the source and credit the sink
   * when the source's available balance covers the amount, otherwise do
   * nothing. The two accounts are distinct objects.
   */
  method SendTransfer(source: Account, amount: int, sink: Account)
    requires source != sink
    modifies source, sink
    ensures (source.ledger, sink.ledger) == Transferred(old(source.ledger), old(sink.ledger), amount)
    ensures old(AvailableBalance(source)) >= amount ==>
              source.CurrentBalance() == old(source.CurrentBalance()) - amount
              && sink.CurrentBalance() == old(sink.CurrentBalance()) + amount
    ensures old(AvailableBalance(source)) < amount ==>
              source.ledger == old(source.ledger) && sink.ledger == old(sink.ledger)
    ensures source.CurrentBalance() + sink.CurrentBalance()
         == old(source.CurrentBalance()) + old(sink.CurrentBalance())
  {
    TransferConservesTotal(source.ledger, sink.ledger, amount);
    if AvailableBalance(source) >= amount {
      DecreaseBalance(source, amount);
      ReceiveTransfer(sink, amount);
    }
  }

  // ---------------------------------------------------------------------
  // Role MoneyDestination: requirement met by Account, and the role method
  // ---------------------------------------------------------------------

  /** Records a deposit of `amount` as the entry `amount`. */
  method IncreaseBalance(account: Account, amount: int)
    modifies account
    ensures account.ledger == old(account.ledger) + [amount]
    ensures account.CurrentBalance() == old(account.CurrentBalance()) + amount
  {
    TotalAppend(account.ledger, amount);
    account.ledger := account.ledger + [amount];
  }

  /** The Money Destination's role method: accept the amount unconditionally. */
  method ReceiveTransfer(sink: Account, amount: int)
    modifies sink
    ensures sink.ledger == old(sink.ledger) + [amount]
    ensures sink.CurrentBalance() == old(sink.CurrentBalance()) + amount
  {
    IncreaseBalance(sink, amount);
  }

  // ---------------------------------------------------------------------
  // The context object
  // ---------------------------------------------------------------------

  /**
   * The Transfer Money context: it holds the two accounts that play the roles
   * and the amount, and starts the interaction between the roles.
   */
  class TransferMoney {
    const source: Account
    const destination: Account
    const amount: int

    /** The borrow guarantee: source and destination are different accounts. */
    predicate Valid()
    {
      source != destination
    }

    /** The two accounts are exclusive borrows and so never the same object. */
    constructor (source: Account, destination: Account, amount: int)
      requires source != destination
      ensures Valid()
      ensures this.source == source && this.destination == destination && this.amount == amount
    {
      this.source := source;
      this.destination := destination;
      this.amount := amount;
    }

    /** Runs the use case: one `SendTransfer` of the stored amount. */
    method Execute()
      requires Valid()
      modifies source, destination
      ensures (source.ledger, destination.ledger)
           == Transferred(old(source.ledger), old(destination.ledger), amount)
      ensures old(AvailableBalance(source)) >= amount ==>
                source.CurrentBalance() == old(source.CurrentBalance()) - amount
                && destination.CurrentBalance() == old(destination.CurrentBalance()) + amount
      ensures old(AvailableBalance(source)) < amount ==>
                source.ledger == old(source.ledger) && destination.ledger == old(destination.ledger)
      ensures source.CurrentBalance() + destination.CurrentBalance()
           == old(source.CurrentBalance()) + old(destination.CurrentBalance())
    {
      SendTransfer(source, amount, destination);
    }
  }

  // ---------------------------------------------------------------------
  // Clients of the context, with the numbers of the application layer
  // ---------------------------------------------------------------------

  /** 1000 and 100 with a transfer of 200 end as 800 and 300. */
  method TransferMoneyExample() returns (sourceBalance: int, destinationBalance: int)
    ensures sourceBalance == 800 && destinationBalance == 300
  {
    var anAccount := new Account([1000]);
    var anotherAccount := new Account([100]);
    var context := new TransferMoney(anAccount, anotherAccount, 200);
    context.Execute();
    sourceBalance := anAccount.CurrentBalance();
    destinationBalance := anotherAccount.CurrentBalance();
  }

  /** A source holding 50 cannot send 200: both balances stay as they were. */
  method InsufficientFundsExample() returns (sourceBalance: int, destinationBalance: int)
    ensures sourceBalance == 50 && destinationBalance == 100
  {
    var anAccount := new Account([50]);
    var anotherAccount := new Account([100]);
    var context := new TransferMoney(anAccount, anotherAccount, 200);
    context.Execute();
    sourceBalance := anAccount.CurrentBalance();
    destinationBalance := anotherAccount.CurrentBalance();
  }
}
