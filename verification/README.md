# Warehouse ledger: a verified model

A model, in Dafny, of the double-indexed warehouse ledger in the `store` crate and of three small cores beside it: the paging of search results, the switching of cameras, and the JSON merge.

The ledger takes documents (receives, issues, transfers) in any date order. Each change is repaired incrementally: a front of operations to be processed, ordered by date, re-evaluates the records that follow in the touched chains, splits issues without a batch over the batches in stock (oldest first), keeps the receiving side of transfers in step, and passes every stock movement on to three secondary indexes and to monthly checkpoints. What is proved is that this agrees with what a reader would compute from the documents alone:

* **Every run ends, at a settled ledger.** `Ledger.Db.MutateOp` is the worklist with its real branches: evaluation with early exit, splitting, deletion of stale dependents, transfers, the `uniq` set. From a settled ledger, entering or changing a document, or deleting one that was not distributed, terminates (a lexicographic measure, `Measure.Descends`) and leaves `Worklist.Settled`: every record follows from the balance before it, every document to be distributed is split first in, first out over exactly the stock before it, every transfer issue has its receive, nothing is orphaned. What such a ledger holds is told from the documents and the stock movements alone: entered payloads are kept (`Prices.EntriesAreKept`), an Auto issue costs its share of what was there before it (`Prices.AutoIssueCost`), a distributed document is issued completely and from the oldest stock first (`Allocation.SplitIsComplete`, `Allocation.SplitIsOldestFirst`), a transfer arrives as it left (`Allocation.TransferArrives`). The secondary indexes and checkpoints agree throughout (`Ledger.Db.Valid`), also when a run stops at a document it cannot read the stock for. Records of other goods, and records before the document's date, are not touched (`Locality.Confined`). Deleting a distributed document never leaves the ledger of the others (`Consequences.DeletionIsCleanExactly`).
* **A settled ledger is determined by its documents exactly when no distributed document reaches a tie** of equally old batches (`Reruns.LedgerIsDeterminedExactly`), whatever was entered, changed and deleted on the way, in whatever order; goods without a tie are determined whatever the others do (`Determinism.GoodsAreDetermined`, `Consequences.HistoriesDoNotMatter`). For plain chains the ledger is a fold from scratch (`Consequences.ChainIsFold`).
* **Reads are sums.** A checkpoint and the records since it give exactly the sum of all movements, at the checkpoint boundary too. The storage report lists exactly the accounts where something was there or moved, with their sums, and prices every Auto issue on the stock of its turn (`StoreReports.GetReportForStorage`).

## How it is laid out

* `Costing`, `Operations`, `Calendar`: money and rounding, operations and keys, months.
* `OrderedIndex`, `Documents`, `Fifo`, `Ties`, `Worklist`: one chain of the primary index; which keys a document owns; the split, and when its outcome is settled beforehand; the invariant `Inv` of the worklist.
* `Propagation`, `Rounds`, `Spreading`, `ConcreteRounds`, `Splitting`, `Cleanup`, `Closing`, `SplitRounds`, `Mutations`, `Deletions`: one round as a function of the state, and why each keeps `Inv`.
* `Measure`, `Termination`: why the worklist ends. `Locality`: what a round leaves alone. `Redistribution`: stale and renewed dependents. `Determinism`, `Reruns`, `Consequences`, `Prices`, `Allocation`: what a ledger at rest promises.
* `Postings`, `Checkpoints`, `Sums`, `Stocks`, `Seeking`, `Books`, `Tails`, `Queueing`, `Runs`, `Ledger`: the objects, with the loops of the code, tied to those functions. `Entries`: from a record's entries to mutations. `Counts`, `CountedStock`: stock counts. `Reports`, `StoreReports`: the storage report. `Keys`: the byte strings.
* `Search`, `Camera`, `JsonMerge`: the small cores.

A column family is a map from the fields of its key; `Keys` proves that the byte strings order and select as those fields do. A scan returns its records in some order, and every result is proved for all of them; the report, whose prices depend on it, reads in the order of its index. Amounts are reals, rounded half to even where the code rounds. Identifiers and instants are natural numbers. Methods carry the documents entered so far as a ghost parameter `docs`.

## What the documents must satisfy

`Documents.ValidDocs`: a document that is to be distributed, or a transfer, shares no timestamp with another document on the same goods and a common store; a transfer joins two stores; a distributed issue has a positive quantity; other issues have a nonzero quantity; a receive is not zero and has a batch. Documents with pairwise distinct dates always meet the first condition, through entries, updates and deletions (`Entries.OrderlyIsAccepted`). `Mutations.MayEnter` adds that an update keeps the destination; `Entries.ReceiveData` shows that callers always do: it splits such a change into a deletion and an insertion, and everything it emits for operations that fit the ledger is accepted by `Ledger.Db.RecordOps`.

## What the model shows about the code

* Equally old batches are drawn on in the order of a hash map, so two runs over the same documents can differ. At one split every order gives the same shares if and only if, wherever two batches in stock are equally old, the older ones cover the quantity (`Ties.SplitIsDetermined`); `Ties.EquallyOldBatchesTie` is an input where they do not. For the whole ledger the condition is that no distributed document meets such a tie; with one, entering that document again unchanged can settle at another ledger (`Reruns.LedgerIsDeterminedExactly`, `Reruns.SplitAgain`). Batches with different dates never tie (`Determinism.DistinctDatesAreUntied`).
* Deleting a distributed document removes its record and leaves its dependents: what is left is the ledger of the remaining documents if and only if the document was not distributed (`Consequences.DeletionIsCleanExactly`). The deletion also posts a difference for a record that was never posted, so the checkpoints no longer sum up the records (`Ledger.Db.RemoveOp`, `Books.PostingDrifts`). Callers pass an empty list of dependents; with a list the code would call itself forever (`Consequences.ListedDeletionRepeats`).
* A distributed issue of zero or negative quantity is given one dependent of that quantity on the oldest batch in stock, or none when there is no stock (`Fifo.NothingToSplit`).
* The reader of checkpoints fails for the store with the zero id in January 1970, because it meets the reserved key of the latest date (`Keys.LatestKeyIsMet`). A round fails exactly on a distributed issue there once anything was posted (`Ledger.Db.Process`), and a run that then enters such a document always does; the books still agree, and everything not yet processed would still be in the front (`Runs.Interrupted`). Reading all balances falls back to an empty checkpoint at the epoch and is still right.
* The latest checkpoint date only grows: postings that cancel out leave no sum behind, but they leave the date (`Checkpoints.PostingTakenBack`). So two histories of the same documents agree in their checkpoints as far as both go, and not in how far they go (`Consequences.HistoriesDoNotMatter`).
* A stock count reaches the counted quantity exactly when the real batches hold what it writes down (`Counts.CountIsReached`). Positive stock in the empty batch counts as stock but is never written down (`Counts.UnbatchedStockStays`). A difference in cost alone counts when the cost was entered, and never when it is left to the ledger; the count's own record is saved exactly when it writes something down, in quantity or in cost alone (`CountedStock.CountIsRight`).
* Paging drops hits for some odd page sizes; the exact condition is `Search.AllServed` (`Search.PagesPartition`, `Search.OddPagesLoseHits`). It divides by zero exactly for a page size of zero, and for a page size of one up to the offset after the number of hits (`Search.Search`).
* A patch that switches a camera on and then cannot be saved leaves it switching on for good, with no task and no way to switch it off (`Camera.LostExactlyWhen`, `Camera.LostForGood`). Without that the phase tells exactly whether there is a connection.
* An entry that kept its place and id but changed its kind would be taken for an update and leave the old document behind (`Entries.AnotherKindStays`); an entry's kind follows from its context, so callers do not do this.
* A comment in the code calls the `uniq` set a workaround; for valid documents it only ever skips a transfer receive whose record is already exactly that receive (`Termination.RepeatIsReceive`, `Mutations.RepeatIsSettled`).

## Model

| member | source | states |
|---|---|---|
| Costing.RoundHalfEven | store/src/balance.rs:24-26 | nearest integer, ties to even: within one half, and even at exactly one half |
| Costing.CostIsNearProportional | store/src/balance.rs:24-53 | rounding the price to five and the cost to two decimals moves the cost of q units by at most 0.000005 per unit plus 0.005 |
| Costing.CostIsPriced | store/src/balance.rs:24-53 | the cost of q units is the nearest hundredth to q times the nearest hundred-thousandth to cost per unit, ties to even, and nothing without stock |
| Operations.EvaluateIsRight | store/src/ordered_topology.rs:425-477 | entered costs stay; an Auto issue of all that is left takes all the cost, any other what its quantity costs; the balance moves by exactly that |
| Calendar.NextMonthIsNext | store/src/elements.rs:63-81 | the next month start is strictly later than the date and no month starts in between; the current one is the last at or before it |
| Calendar.MonthIsUnique | store/src/elements.rs:63-69 | an instant lies in exactly one month |
| Calendar.MonthsAreGregorian | store/src/elements.rs:63-81 | the n-th month starts after 365 days for every year since 1970, the leap days of the Gregorian rule, and the days of the months before it |
| Fifo.SharesAddUp | store/src/ordered_topology.rs:799-857 | the dependent issues of a split add up to the document's quantity |
| Fifo.SharesAreFifo | store/src/ordered_topology.rs:799-840 | a real batch gives what is left after all older positive stock, up to its own stock |
| Fifo.RemainderIsShortage | store/src/ordered_topology.rs:844-857 | the empty batch is charged exactly what positive real stock cannot cover |
| Fifo.SharesAreDistinct | store/src/ordered_topology.rs:799-840 | no batch is drawn on twice |
| Fifo.SharesComeFromQueue | store/src/ordered_topology.rs:800-801 | only real batches with positive stock are drawn on, each for at most its stock: all of it at its cost, a part at its price; what no batch holds costs nothing |
| Fifo.NothingToSplit | store/src/ordered_topology.rs:790-857 | with nothing to split the loop takes that quantity, at its price, from the first batch in stock, or nothing |
| Ties.EquallyOldBatchesTie | store/src/ordered_topology.rs:784-786 | two orders of the same stock, both sorted by date, give different splits |
| Ties.SplitIsDetermined | store/src/ordered_topology.rs:784-840 | every sorted order of the stock gives the same shares if and only if, wherever two batches in stock are equally old, the older ones cover the quantity |
| OrderedIndex.UnaffectedByNeutral | store/src/ordered_topology.rs:192-200 | a change that leaves the balance at its position alone is invisible to every other position: why the early exit is right |
| Propagation.ExtendKeeps | store/src/ordered_topology.rs:415-423 | queueing further stored records keeps the invariant |
| Rounds.DoneKeeps | store/src/ordered_topology.rs:335-374 | finishing an operation whose followers are queued keeps the invariant |
| ConcreteRounds.ConcreteRoundKeeps | store/src/ordered_topology.rs:196-214 | a round on an operation with a batch, or a dependent, keeps the invariant |
| Splitting.QueuedKeepsOpen | store/src/ordered_topology.rs:799-857 | queueing all dependents of a split keeps the invariant of a document in hand |
| Cleanup.CleanedKeeps | store/src/ordered_topology.rs:867-903 | deleting the stale dependents keeps it too |
| Closing.ClosedKeeps | store/src/ordered_topology.rs:859-864 | saving the split document restores the invariant |
| SplitRounds.SplitRoundKeeps | store/src/ordered_topology.rs:190-200 | a round on a distributed issue keeps the invariant, for every order of equally old batches |
| Mutations.SkipKeeps | store/src/ordered_topology.rs:178-188 | passing over an operation met before loses nothing |
| Mutations.EnterStarts | store/src/ordered_topology.rs:163-173 | a run that enters or updates a document starts from the invariant |
| Deletions.DeleteStarts | store/src/ordered_topology.rs:174-176 | a run that deletes a document that was not distributed starts from the invariant of the others |
| Termination.ConcreteRoundDescends | store/src/ordered_topology.rs:180-214 | the measure (dates and documents ahead, open dependents, open receives) drops in such a round |
| Termination.SplitRoundDescends | store/src/ordered_topology.rs:180-200 | it drops in a split |
| Termination.SkipRoundDescends | store/src/ordered_topology.rs:184-188 | it drops when a repeated operation is passed over |
| Locality.ConcreteRoundStays | store/src/ordered_topology.rs:196-214 | a round on a concrete operation touches and queues nothing of other goods and nothing before its date |
| Locality.SplitRoundStays | store/src/ordered_topology.rs:190-200 | neither does a split, with all its dependents and stale ones |
| Redistribution.StaleAreGone | store/src/ordered_topology.rs:867-903 | every listed dependent that is not renewed is gone from index and front, together with its transfer receive |
| Redistribution.RenewedAreQueued | store/src/ordered_topology.rs:652-661 | each new dependent is queued with the quantity just allotted, whatever was queued before |
| Redistribution.GeneratedAreQueued | store/src/ordered_topology.rs:712-762 | each operation a stock count generates is queued, under its own key |
| Determinism.LedgerIsDetermined | store/src/ordered_topology.rs:162-218 | two settled indexes over the same documents are equal, distributed documents and transfers included, when one of them has no tie |
| Determinism.GoodsAreDetermined | store/src/ordered_topology.rs:162-218 | goods without a tie hold the same records in any two settled ledgers that agree on the documents of these goods |
| Determinism.DistinctDatesAreUntied | store/src/ordered_topology.rs:784-786 | batches that all carry different dates never tie |
| Reruns.LedgerIsDeterminedExactly | store/src/ordered_topology.rs:162-218 | a settled ledger is the only one over its documents if and only if no distributed document reaches a tie |
| Reruns.SplitAgain | store/src/ordered_topology.rs:784-865 | for every sorted order of the stock, entering a distributed document again unchanged has a run that ends at a settled ledger split along that order |
| Determinism.BatchHasDocument | store/src/ordered_topology.rs:775-865 | every batch in a settled ledger goes back to a document that carries it |
| Prices.EntriesAreKept | store/src/ordered_topology.rs:335-374 | every document is stored under its key as entered, field by field; only the cost of an Auto issue is computed |
| Prices.AutoIssueCost | store/src/ordered_topology.rs:452-475 | with quantity Q and cost C before it in its chain, a stored Auto issue of q costs C for q = Q, nothing for Q = 0, and otherwise q C / Q up to the two roundings |
| Consequences.TransfersConserve | store/src/operations.rs:223-245 | over all stores the transfers of any goods sum to zero quantity and cost |
| Allocation.TransferArrives | store/src/operations.rs:223-245 | every stored issue with a destination has the receive of the same quantity, cost, batch and date there |
| Consequences.SplitIsFifo | store/src/ordered_topology.rs:775-865 | a distributed document at rest is the oldest-first split of its quantity over exactly the batches in stock before it |
| Allocation.SplitIsOldestFirst | store/src/ordered_topology.rs:775-865 | a real batch gives between nothing and what moved in it before; a newer one, or none, gives only when it is empty |
| Allocation.SplitIsComplete | store/src/ordered_topology.rs:775-865 | the dependents of a distributed document issue exactly its quantity |
| Consequences.NoOrphans | store/src/ordered_topology.rs:867-903 | stored dependents are exactly the listed ones; a receive is stored exactly when its issue is |
| Consequences.DeletionIsCleanExactly | store/src/ordered_topology.rs:376-413 | dropping a document as callers ask for it leaves the invariant of the others if and only if it was not distributed |
| Consequences.ListedDeletionRepeats | store/src/ordered_topology.rs:396-404 | with dependents listed the deletion calls itself for the first of them and from there with the same operation again |
| Consequences.RunningBalanceIsSum | store/src/ordered_topology.rs:425-477 | the running balance is all received less all issued before it, in quantity and cost |
| Consequences.ExhaustionClearsTheCost | store/src/ordered_topology.rs:452-475 | an Auto issue of exactly what is left takes exactly the cost that is left, and the balance is zero |
| Consequences.ReadBalanceIsRunningBalance | store/src/ordered_topology.rs:570-605 | what a reader sums up to a date is the running balance at the end of that date |
| Consequences.ChainIsFold | store/src/ordered_topology.rs:335-374 | a chain of plain documents holds what a fold over the documents gives; each record is its document evaluated, in the sense of `Operations.IsEvaluated`, on the balance the one before it left |
| Consequences.HistoriesDoNotMatter | store/src/db.rs:61-67 | two ledgers over the same documents, one without ties, agree in all four indexes, in every sum of postings, and in every checkpoint entry as far as both go |
| Ledger.PropagationFront.Next | store/src/ordered_topology.rs:672-675 | takes out the operation with the least key in the front's order |
| Ledger.PropagationFront.Enqueue | store/src/ordered_topology.rs:790-857 | the distribution loop queues exactly the shares of the split and lists them, for every quantity |
| Ledger.PropagationFront.DistributionIssue | store/src/ordered_topology.rs:775-865 | reads the stock, splits oldest first, deletes stale dependents and saves the document with its new list; books stay valid for a positive quantity |
| Ledger.PropagationFront.DistributionInventory | store/src/ordered_topology.rs:683-773 | against everything that moved in batches with positive stock: a surplus is queued as one receive with the counted cost or the stock's price, a shortage is written down oldest batch first, the same count does nothing |
| Ledger.PropagationFront.CleanupDependent | store/src/ordered_topology.rs:867-903 | deletes the listed dependents that are not renewed, in order |
| Queueing.SortByDate | store/src/ordered_topology.rs:784-786 | every batch of the map once, oldest first |
| Ledger.Db.BalanceBefore | store/src/topologies/store_batch_date_type_id.rs:86-115 | the record just below in the whole index gives the balance before a position in its chain |
| Ledger.Db.OperationAfter | store/src/topologies/store_batch_date_type_id.rs:196-238 | the record just above in the whole index, if it is of the same chain, is the next of the chain |
| Ledger.Db.Update | store/src/db.rs:45-59 | writes or deletes in each secondary index and posts the mutation to the checkpoints |
| Ledger.Db.SaveOp | store/src/ordered_topology.rs:220-291 | stores the operation, or drops it when it became zero, with its exact effect on the secondary indexes and postings; they stay in step when the stored value it is told of is the true one |
| Ledger.Db.RemoveOp | store/src/ordered_topology.rs:293-333 | drops record and queue entry and returns the balances before and at it; the books stay in step if and only if the operation lists dependents as the record does |
| Ledger.Db.CalculateOp | store/src/ordered_topology.rs:335-374 | evaluates on the balance before (entered costs stay, Auto issues are priced), stores, queues a transfer's receive unless nothing changed |
| Ledger.Db.Propagate | store/src/ordered_topology.rs:415-423 | queues the next record of the chain unless it is queued |
| Ledger.Db.DeleteOp | store/src/ordered_topology.rs:376-413 | drops an operation and a transfer's receive, and propagates where a balance moved; for any operation without a list |
| Ledger.Db.Distribute | store/src/ordered_topology.rs:190-200 | the distribution branch: fails exactly when the reader does, and otherwise is the split round over a sorted list of the stock |
| Ledger.Db.Recalculate | store/src/ordered_topology.rs:200-214 | the other branch is the concrete round: early exit, and the empty chain once more |
| Ledger.Db.Process | store/src/ordered_topology.rs:190-214 | one round of the worklist keeps the invariant, drops the measure and touches only its goods from its date on; it fails exactly on a distributed issue of the zero store in January 1970 once anything was posted |
| Ledger.Db.MutateOp | store/src/ordered_topology.rs:162-218 | from a settled ledger a mutation ends at the settled ledger of the changed documents, and touches only its goods from its date on; after a failed run the books agree and the worklist stands at the unreadable document; entering an unreadable document always fails |
| Ledger.Db.RecordOps | store/src/db.rs:61-67 | so does any sequence of mutations; a failure is that of one of them |
| Ledger.Db.BalancesForStoreGoodsBeforeOperation | store/src/db.rs:69-112 | per batch the nonzero sums of all records up to the operation's position; nothing missed or doubled at the checkpoint |
| Ledger.Db.GetBalanceForAll | store/src/db.rs:318-352 | for every store, goods and batch the sum of all records dated up to the date, up to zero entries |
| Books.StepIsValid | store/src/db.rs:45-59 | writing one record and posting its difference keeps the secondary indexes exactly the concrete records and the checkpoints their sums |
| Books.SavingIsClean | store/src/ordered_topology.rs:220-291 | saving keeps the secondary indexes the concrete records and the postings their sums |
| Books.RemovalIsClean | store/src/ordered_topology.rs:293-333 | removing does so if and only if the operation lists dependents as the record does |
| Sums.PostingStays | store/src/operations.rs:429-448 | the posted differences telescope: they always sum to what is stored |
| Sums.BalanceIsSum | store/src/ordered_topology.rs:425-477 | a chain whose records follow from each other has running balances that are prefix sums |
| Stocks.SumIsStock | store/src/db.rs:69-90 | for a document at the head of the front the reader's sums are the stock its chains show |
| Runs.StockIsFound | store/src/ordered_topology.rs:779-786 | so the sorted list the code splits over is the queue of batches in stock |
| Checkpoints.CheckDateStoreBatch.CheckpointUpdate | store/src/checkpoints/mod.rs:65-125 | keeps every entry the sum of what was posted before its month start and absent when zero; the latest date becomes the later of itself and the next month start |
| Checkpoints.CheckDateStoreBatch.CopyAll | store/src/checkpoints/mod.rs:76-97 | repeats the entries of the latest checkpoint at every month start up to the new one |
| Checkpoints.CheckDateStoreBatch.Raise | store/src/checkpoints/mod.rs:99-119 | adds the difference at every month start after the operation, dropping zero entries, and ends at the latest date |
| Checkpoints.PostingKeepsCheckpoints | store/src/checkpoints/mod.rs:65-125 | repeating and raising together keep the prefix sums, for postings in any date order |
| Checkpoints.PostingTakenBack | store/src/checkpoints/mod.rs:65-125 | a posting and its reversal leave every sum as it was and the latest date later |
| Checkpoints.CheckDateStoreBatch.ReadingDateFits | store/src/checkpoints/check_date_store_batch.rs:266-271 | the reading date is the last month start that is neither after the date nor after the latest checkpoint |
| Checkpoints.CheckDateStoreBatch.BalancesForStoreGoods | store/src/checkpoints/check_date_store_batch.rs:260-312 | the sums before the reading date, by batch; fails exactly when the scan meets the reserved key |
| Checkpoints.CheckDateStoreBatch.CheckpointsForAll | store/src/checkpoints/check_date_store_batch.rs:367-426 | the sums before the reading date, for every account; fails exactly when the scan meets the reserved key |
| Checkpoints.CheckDateStoreBatch.CheckpointsForStorage | store/src/checkpoints/check_date_store_batch.rs:428-476 | one store's sums before the reading date, each account once |
| Checkpoints.CheckDateStoreBatch.EntriesAt | store/src/checkpoints/check_date_store_batch.rs:478-526 | exactly the entries at one date |
| Keys.PrimaryOrder | store/src/topologies/store_batch_date_type_id.rs:347-371 | byte order is the order of store, goods, batch, date, type, id, dependence; strings are distinct |
| Keys.FrontOrder | store/src/ordered_topology.rs:625-639 | the same for the front and the index by date: date, type, store, goods, batch, id, dependence |
| Keys.StoreGoodsOrder | store/src/topologies/store_goods_date_type_id_batch.rs:233-258 | the same for the index by store and goods |
| Keys.StoreDateOrder | store/src/topologies/store_date_type_batch_id.rs:313-337 | the same for the index by store and date: store, date, type, goods, batch, id, dependence |
| Keys.AccountOrder | store/src/aggregations.rs:382-392 | the same for the items of a report: store, goods, batch date, batch id |
| Keys.ChainAgreesWithFront | store/src/ordered_topology.rs:625-639 | within a chain the front's order is the chain's, so what follows in the chain comes later in the front |
| Keys.EmptyChainIsFirst | store/src/topologies/store_batch_date_type_id.rs:347-371 | the chain without a batch comes before all other chains of its goods in the primary index |
| Keys.ReceivesBeforeIssues | store/src/operations.rs:518-554 | at one instant counts come before receives and receives before issues, in the front and within a chain |
| Keys.KeySizes | store/src/topologies/store_goods_date_type_id_batch.rs:233-258 | every key of a column family has the same size, whatever its fields hold |
| Keys.DateScan | store/src/topologies/date_type_store_batch_id.rs:170-215 | the scan by date takes exactly the records from the first through the last date |
| Keys.StorageScan | store/src/topologies/store_date_type_batch_id.rs:104-159 | the scan by store takes exactly the store's records from the first through the last date |
| Keys.GoodsScan | store/src/topologies/store_goods_date_type_id_batch.rs:135-201 | the scan before an operation takes exactly the records of its store and goods since the checkpoint, up to its position |
| Keys.CheckpointScan | store/src/checkpoints/check_date_store_batch.rs:260-290 | a checkpoint scan takes exactly one date's entries of the stores in between, all but the very last key |
| Keys.CheckpointKeyRoundTrip | store/src/checkpoints/check_date_store_batch.rs:38-65 | the fields are read back from the key |
| Keys.CheckpointOrder | store/src/checkpoints/check_date_store_batch.rs:57-65 | byte order is the order of date, store, goods, batch; strings are distinct |
| Keys.LatestKeyIsMet | store/src/checkpoints/check_date_store_batch.rs:86-95 | the reserved key is the lowest entry at date zero; a scan meets it exactly at that date and from the zero store |
| Entries.ReceiveData | store/src/elements.rs:184-210 | an operation whose store, goods, batch, date and destination stay is updated by one mutation, one that moves is deleted and then inserted; together they replace exactly the record's old operations, and for operations that fit the ledger each is accepted |
| Entries.OrderlyIsAccepted | store/src/ordered_topology.rs:162-176 | entries, updates that keep the destination and deletions of plain documents, with no two documents on one date, are accepted one after the other |
| Entries.AnotherKindStays | store/src/elements.rs:188-196 | an operation of another kind in the same place leaves the old document behind |
| Counts.CountIsReached | store/src/ordered_topology.rs:697-766 | stock after the count is the counted quantity exactly when real batches hold what is written down |
| Counts.OrdinaryCountIsReached | store/src/ordered_topology.rs:697-766 | always so for a count of zero or more without positive stock in the empty batch |
| Counts.WriteDownsAreFifo | store/src/ordered_topology.rs:726-762 | a batch gives at most what it holds, and only after all older ones are empty |
| Counts.UnbatchedStockStays | store/src/ordered_topology.rs:697-766 | positive stock in the empty batch alone cannot be counted away |
| CountedStock.StockIsWhatMoved | store/src/ordered_topology.rs:697-705 | the stock a count finds is the sum of all records up to it of the batches whose stock is positive |
| CountedStock.SurplusIsRight | store/src/ordered_topology.rs:712-725 | the queued receive brings the stock to the counted quantity; Manual, to the counted cost; Auto, it costs what as much of the stock does, and nothing without stock |
| CountedStock.ShortageIsRight | store/src/ordered_topology.rs:726-762 | of each batch after all older stock an Auto issue is queued of what is still missing, up to what it holds, at its cost or price |
| CountedStock.CountIsRight | store/src/ordered_topology.rs:705-770 | nothing happens exactly for the counted quantity with the cost left open or equal; the count's own record is untouched by a surplus and kept with a write-down |
| Reports.NewGetAggregations | store/src/aggregations.rs:377-434 | every account's item holds the sums of what was handed over, Auto issues at the price of their turn; the items where one of the eight figures is not zero are listed in the order of their keys, and the row sums them |
| StoreReports.GetReportForStorage | store/src/topologies/store_date_type_batch_id.rs:295-311 | lists, in order, exactly the accounts of the store where something was there or moved, each with the sums of its records before the period, of its receives and of its issues, Auto ones priced on the stock of their turn; the row holds the same sums over the whole store |
| StoreReports.ClosingIsThrough | store/src/aggregations.rs:231-259 | the closing quantity is all that moved through the end of the period, and so is the closing cost when every issue of the period was entered with its cost |
| Reports.ItemStep | store/src/aggregations.rs:231-259 | an item stays the sums of its operations, and close stays open plus received plus issued |
| Reports.RowBalances | store/src/aggregations.rs:196-204 | the store row keeps the items' identity |
| Search.Search | src/text_search/processing.rs:89-180 | the total is the number of different hits; page n shows the stretches of both lists that belong to it, nothing past the last page served; fails exactly for a page size of zero, and of one up to the offset after the number of hits |
| Search.RemoveDuplicates | src/text_search/processing.rs:188-191 | keeps exactly what the other list does not have, in order |
| Search.NothingTwice | src/text_search/processing.rs:93-100 | the two paged lists hold every hit once |
| Search.PhraseHitsComeLast | src/text_search/processing.rs:93-98 | the first list paged: word hits that are no phrase hits in their order, then the phrase hits in theirs |
| Search.TotalIsDistinct | src/text_search/processing.rs:105 | both lists together are as long as there are different hits |
| Search.PageIsHalves | src/text_search/processing.rs:111-126 | while both lists have half a page left, a page is half of one and half of the other, exact hits first |
| Search.ShorterRunsOut | src/text_search/processing.rs:127-148 | the first list with less than half a page left is shown to its end on that page |
| Search.PageGoesOn | src/text_search/processing.rs:120-180 | each page goes on in both lists where the pages before it stopped, exact hits first |
| Search.PagesPartition | src/text_search/processing.rs:102-180 | the pages served show both lists completely, in order, each hit once, exactly when `AllServed`; for even sizes always |
| Search.PageIsFull | src/text_search/processing.rs:118-180 | every page but the last that shows anything is full; only while pages are half and half an odd size leaves one place empty |
| Search.OddPagesLoseHits | src/text_search/processing.rs:107-109 | with three a page and fifty hits in each list some are never shown |
| Camera.State.Request | src/hik/services/cameras.rs:219-248 | phase by phase: a request to switch on moves a camera that is off, one to switch off moves one that is on, nothing else moves; and whether it was on or switching on before |
| Camera.SingleConnection | src/hik/camera.rs:295-327 | in every interleaving at most one task, and the phase only moves on around its circle |
| Camera.PhaseTellsConnection | src/hik/services/cameras.rs:206-279 | between patches the phase is off exactly when there is no task, exactly unless a failed save lost the camera |
| Camera.LoadingReconnects | src/hik/services/cameras.rs:46-69 | on loading, a camera that was on or switching on is switching on with one connection spawned, any other is off |
| Camera.OnConnects | src/hik/services/cameras.rs:219-270 | a saved request to switch on leads, with no other step possible, to one spawned connection |
| Camera.SpawnedStarts | src/hik/camera.rs:310-315 | a spawned connection can always start, which switches the camera on; no other step touches task or phase before |
| Camera.OffStops | src/hik/camera.rs:189-196 | a saved request to switch off lets the connection leave its loop, and its end leaves the camera off with no task |
| Camera.DisablingEnds | src/hik/camera.rs:317-327 | whatever is requested meanwhile, a camera that is switching off can always go on and only ends up off |
| Camera.LeavingFindsDisabling | src/hik/camera.rs:317-322 | a task that leaves its loop finds the camera switching off and switches it off |
| Camera.StartingFindsEnabling | src/hik/camera.rs:311-315 | a task that starts finds the camera switching on and switches it on |
| Camera.LostExactlyWhen | src/hik/services/cameras.rs:242-265 | the camera is lost exactly by a patch that switches it on and cannot be saved |
| Camera.LostForGood | src/hik/services/cameras.rs:219-277 | from then on no patch has an effect and nothing connects |
| JsonMerge.Merge | service/src/utils/json.rs:126-146 | the loop computes MergePatch of section 2 of RFC 7396; a patch that is no object is the result |
| JsonMerge.NamedMembersAreSet | service/src/utils/json.rs:126-146 | at every path the patch names: its value, an object where it holds one, and nothing where it holds null |
| JsonMerge.MergeIsIdempotent | service/src/utils/json.rs:126-146 | merging the same patch again changes nothing |
| JsonMerge.UnnamedMembersStay | service/src/utils/json.rs:126-146 | members the patch does not name keep their values at every depth, and absent ones stay absent |
| JsonMerge.MergeLeavesNoNulls | service/src/utils/json.rs:136-143 | nulls only remove: none is left behind that was not there |

## Left out

- RocksDB, encodings of values, identifiers and clocks: a column family is a map, and reading back what was written is taken for granted.
- Decimal precision and overflow: amounts are reals; the two roundings of the code are modelled, its 28 digits are not.
- Instants finer than a second: keys hold whole seconds, and so do the model's dates.
- Ledger.Db.MutateOp: does not enter inventories; the cost signs of `evaluate`, `apply` and `to_delta` disagree for them (store/src/ordered_topology.rs:427-451, store/src/balance.rs:163-169), so their branch is shown unreachable and the count itself is modelled in `Counts` and `Ledger.PropagationFront.DistributionInventory`. Nor does it delete distributed documents, since what is left is then no settled ledger (`Consequences.DeletionIsCleanExactly`).
- Ledger.Db.DeleteOp: takes no operation that still lists dependents; the code's recursion then never ends (`Consequences.ListedDeletionRepeats`), and no caller asks for it.
- Ledger.PropagationFront.DistributionInventory: starts from a ledger that holds no count; `Ledger.Db.Valid` excludes stored counts, whose balances do not add up.
- Several special documents at one timestamp: excluded by `Documents.ValidDocs`.
- StoreReports.GetReportForStorage: says nothing of a period that ends before it starts.
- Camera.SingleConnection: a task that panics while it creates an event (src/hik/camera.rs:432) ends without resetting the phase; such an end is not a step of the model.
- A scan's range is selected by fields in the objects and by bytes in `Keys`; the one key with all bits set, which an exclusive upper bound would drop, is excluded there.
- `get_balance`, reports for one goods, the unused checkpoint by batch, and the older design in src/animo and src/warehouse.
- Reading entries from JSON, HTTP, websockets, authentication, file storage, imports, camera traffic, and the search engines themselves.
