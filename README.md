# Transfer Money (DCI) in Dafny

A model of the Rust port of the Data-Context-Interaction money-transfer
example. It has three layers.

- **Data** (`Data.Account`). An account holds a ledger of signed
  transaction amounts. Its balance is the left fold of the ledger,
  starting at zero.
- **Roles**. A Money Source must offer `AvailableBalance` and
  `DecreaseBalance`. `DecreaseBalance` appends `-amount`. A Money
  Destination must offer `IncreaseBalance`, which appends `amount`. The
  role methods are written only in terms of these requirements:
  - `ReceiveTransfer` always credits the destination;
  - `SendTransfer` debits the source and credits the destination when the
    available balance covers the amount, and otherwise does nothing.
- **Context** (`Context.TransferMoney`). It holds two distinct accounts and
  an amount. `Execute` runs `SendTransfer` once.

The ledger is a `seq<int>` field that the role methods reassign by
appending, as the Rust code pushes onto its `Vec`. The use case is also
stated on ledger values by `Context.Transferred`. The lemmas about
`Transferred` give the use case's properties:
- a covered transfer moves exactly the amount;
- an uncovered one changes nothing;
- the sum of the two balances is conserved.

`SendTransfer` and `Execute` are proved to produce exactly `Transferred`
of the old ledgers. Their `modifies` clauses name only the two accounts,
so no other object changes.

Amounts are mathematical integers. Any integer amount is accepted,
including a negative one, because the code does not validate amounts.
When the source cannot cover the amount, the model follows the code: the
transfer is a silent no-op that reports no error.

## Model

| member | source | states |
|---|---|---|
| `Ledger.FoldSum` | transfer_money/rust/transfer_money.rs:17-21 | folding the ledger from the left onto an accumulator gives the accumulator plus the sum of all entries |
| `Ledger.TotalAppend` | transfer_money/rust/transfer_money.rs:17-21 | appending one entry to a ledger changes its balance by exactly that entry |
| `Data.Account.constructor` | transfer_money/rust/transfer_money.rs:11-13 | an account starts with exactly the given ledger |
| `Data.Account.CurrentBalance` | transfer_money/rust/transfer_money.rs:16-21 | the balance is the sum of all ledger entries; an empty ledger has balance 0 |
| `Context.AvailableBalance` | transfer_money/rust/transfer_money.rs:148-150 | a Money Source's available balance is the sum of its ledger |
| `Context.DecreaseBalance` | transfer_money/rust/transfer_money.rs:152-154 | appends exactly the entry `-amount`, keeps the earlier entries and lowers the balance by `amount`; only that account changes |
| `Context.IncreaseBalance` | transfer_money/rust/transfer_money.rs:159-161 | appends exactly the entry `amount`, keeps the earlier entries and raises the balance by `amount`; only that account changes |
| `Context.ReceiveTransfer` | transfer_money/rust/transfer_money.rs:95-98 | unconditionally appends `amount` to the destination and raises its balance by `amount` |
| `Context.SendTransfer` | transfer_money/rust/transfer_money.rs:67-75 | for distinct accounts the new ledgers are exactly `Transferred` of the old ones. When the available balance covers the amount, the source drops by `amount` and the sink rises by `amount`; otherwise neither ledger changes. The sum of the two balances is kept in both cases |
| `Context.TransferMovesAmount` | transfer_money/rust/transfer_money.rs:71-74 | when the source covers the amount, each ledger gains exactly one entry and keeps its earlier ones; the source's balance falls by `amount` and the destination's rises by `amount` |
| `Context.TransferHappensIff` | transfer_money/rust/transfer_money.rs:71-75 | the ledgers change if and only if the source's balance is at least the amount; otherwise both are returned unchanged and no error is signalled |
| `Context.TransferConservesTotal` | transfer_money/rust/transfer_money.rs:71-74 | in both branches the sum of the two balances after the transfer equals the sum before |
| `Context.TransferTwiceMovesTwice` | transfer_money/rust/transfer_money.rs:130-132 | running the transfer twice, when the source covers both, appends two debits and two credits and moves twice the amount: a transfer is not idempotent |
| `Context.TransferMoney.constructor` | transfer_money/rust/transfer_money.rs:120-128 | the context stores the given source, destination and amount unchanged, and `Valid()` records that the two accounts are distinct (lines 114-115) |
| `Context.TransferMoney.Execute` | transfer_money/rust/transfer_money.rs:130-132 | one `SendTransfer` of the stored amount from the stored source to the stored destination: the new ledgers are exactly `Transferred` of the old ones; when covered, the source falls and the destination rises by the amount, otherwise neither ledger changes; only those two accounts change, and their total is conserved |
| `Context.TransferMoneyExample` | transfer_money/rust/transfer_money.rs:182-199 | accounts holding 1000 and 100, with a transfer of 200, end at 800 and 300 |
| `Context.InsufficientFundsExample` | transfer_money/rust/transfer_money.rs:71 | a source holding 50 asked to send 200 keeps 50, and the destination keeps 100 |

## Left out

- `f32` arithmetic: amounts are unbounded integers. Rounding, and the fact that a float fold is not associative, are not modelled.
- The application layer's printing and `main` (transfer_money/rust/transfer_money.rs:178-210): they are console output only. Their numbers survive in `Context.TransferMoneyExample`.
- The trait machinery. This covers the requirement traits, the blanket `impl<T>` that gives every conforming type the role methods, and the `dyn` dispatch of the sink. The role methods are plain methods over `Account`, the only type that plays the roles.
- Aliasing of source and destination: the Rust borrow checker forbids it, so `SendTransfer`, `Execute` and the context constructor require two distinct accounts.
- Run-time role binding, locking or transactional retry, and typed errors are not part of this code, so they are not modelled.
