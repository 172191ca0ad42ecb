/** What the records of a ledger at rest cost, told from the documents and the stock movements before them. */
module Prices {
  import opened Costing
  import opened Operations
  import opened OrderedIndex
  import opened Documents
  import opened Worklist
  import opened Sums
  import opened Books
  import opened Determinism
  import opened Consequences

  /** Every document is stored under its key as it was entered; only the cost of an Auto issue is the ledger's. */
  lemma EntriesAreKept(docs: Docs, index: Index, d: OpKey)
    requires Settled(docs, index) && d in docs
    ensures d in index
    ensures var r, stored := docs[d], index[d].op;
      && stored.id == r.id && stored.date == r.date && stored.store == r.store && stored.goods == r.goods
      && stored.batch == r.batch && stored.storeInto == r.storeInto && !stored.isDependent
      && (r.op.Receive? ==> stored.op == Receive(r.op.qty, r.op.cost))
      && (r.op.Issue? && r.op.mode.Manual? ==> stored.op == Issue(r.op.qty, r.op.cost, Manual))
      && (r.op.Issue? && r.op.mode.Auto? ==> stored.op.Issue? && stored.op.qty == r.op.qty && stored.op.mode.Auto?)
  {
    hide Owned, Chains, Splits, Listed, Transfers, SeenOnce, Echoes, Ordered;
    DocumentAtRest(docs, index, d);
    SettledEverywhere(docs, index, d);
    assert docs[d].Key() == d && Owns(docs[d], d);
    ShapeAtRest(docs, index, d, d);
  }

  /** An Auto issue, entered or split off, costs its share of what everything before it in its chain comes to. */
  lemma AutoIssueCost(docs: Docs, index: Index, k: OpKey)
    requires Settled(docs, index) && Stores(index)
    requires k in index && index[k].op.dependant == [] && index[k].op.op.Issue? && index[k].op.op.mode.Auto?
    ensures var q, cost, stock := index[k].op.op.qty, index[k].op.op.cost, SumOf(ChainBefore(index, k));
      && (stock.qty != 0.0 && q != stock.qty ==>
        -(Abs(q) * 0.000005 + 0.005) <= cost - q * (stock.cost / stock.qty) <= Abs(q) * 0.000005 + 0.005)
      && (stock.qty == 0.0 && q != 0.0 ==> cost == 0.0)
      && (q == stock.qty ==> cost == stock.cost)
      && (q != stock.qty ==> IsPriced(cost, q, stock))
  {
    hide Inv, Stores, SumOf, ChainBefore, Evaluate;
    RunningBalanceIsSum(docs, index, k);
    SettledEverywhere(docs, index, k);
    EvaluateIsRight(BalanceBefore(index, k), index[k].op);
  }
}
