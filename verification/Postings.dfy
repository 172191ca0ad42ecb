/** What was posted to the checkpoints, and its prefix sums per store, goods and batch. */
module Postings {
  import opened Costing
  import opened Operations

  datatype Account = Account(store: Store, goods: Goods, batch: Batch)

  /** Order of the accounts in a report: by store, goods, batch date and batch id. */
  predicate AccountLess(a: Account, b: Account) {
    if a.store != b.store then a.store < b.store
    else if a.goods != b.goods then a.goods < b.goods
    else if a.batch.date != b.batch.date then a.batch.date < b.batch.date
    else a.batch.id < b.batch.id
  }

  /** One mutation as the checkpoints see it. */
  datatype Posting = Posting(account: Account, date: Time, delta: BalanceDelta)

  /** Sum of everything posted to the account before the date. */
  function SumBefore(history: seq<Posting>, account: Account, date: Time): Balance {
    if history == [] then ZERO
    else
      var last := history[|history| - 1];
      var rest := SumBefore(history[..|history| - 1], account, date);
      if last.account == account && last.date < date then rest.Plus(last.delta) else rest
  }

  lemma SumAppended(history: seq<Posting>, p: Posting, account: Account, date: Time)
    ensures SumBefore(history + [p], account, date) ==
      if p.account == account && p.date < date then SumBefore(history, account, date).Plus(p.delta)
      else SumBefore(history, account, date)
  {
    assert (history + [p])[..|history|] == history;
  }

  /** Once everything posted lies before a date, later prefix sums are the same. */
  lemma {:induction false} SumSaturates(history: seq<Posting>, account: Account, a: Time, b: Time)
    requires forall p | p in history :: p.date < a
    requires a <= b
    ensures SumBefore(history, account, a) == SumBefore(history, account, b)
  {
    if history != [] {
      SumSaturates(history[..|history| - 1], account, a, b);
    }
  }
}
