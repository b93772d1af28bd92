/**
 * Ledger arithmetic of an account. An account records every transaction as a
 * signed entry; its balance is never stored, only derived from the entries.
 */
module Ledger {

  /** Reference definition: the sum of all entries of a ledger. */
  function Total(entries: seq<int>): int
  {
    if entries == [] then 0 else entries[0] + Total(entries[1..])
  }

  /**
   * The left fold `entries.iter().fold(acc, |a, b| a + b)`: the entries are
   * added to the accumulator one by one, first entry first.
   */
  function FoldSum(acc: int, entries: seq<int>): (r: int)
    ensures r == acc + Total(entries)
    decreases entries
  {
    if entries == [] then acc else FoldSum(acc + entries[0], entries[1..])
  }

  /** Appending an entry to a ledger changes its sum by exactly that entry. */
  lemma {:induction false} TotalAppend(entries: seq<int>, x: int)
    ensures Total(entries + [x]) == Total(entries) + x
  {
    if entries == [] {
      assert [x][1..] == [];
    } else {
      assert (entries + [x])[1..] == entries[1..] + [x];
      TotalAppend(entries[1..], x);
    }
  }
}
