# Profit-Tracker profit engine in Dafny

This project models the profit engine of Profit-Tracker, a single-page
tracker of purchases and sales (`app.js`). It covers:

- the CNY→RUB rate resolver and the RUB valuation of transactions, with the
  fixed 3% sale commission;
- the chronological order of transactions;
- the three FIFO cost-of-goods-sold passes:
  - the equalized totals for a period;
  - the per-day profit of the selected types;
  - the cached calendar pass, with its `usedPurchases` and `carryoverByDate`
    bookkeeping;
- the result cache and `saveData`'s invalidation of it;
- the ledger edits: add, rename and delete an item type; save and delete a
  rate; edit and delete a transaction; import a file.

All three passes take units from the same queue operation, `Fifo.Withdraw`:
1. A per-item-type queue holds purchase chunks, oldest first.
2. Each take is the smaller of the head's remaining quantity and what is
   still wanted.
3. A head that reaches zero is dropped.
4. When the queue runs dry, the rest of the sale goes unmatched.

The passes differ in how they book what they match:

- The period pass (`Period`) books each match at the sale's unit price, and
  only when the sale's day lies in the period.
- The per-day pass (`Daily`) books the same matches under each day.
- The calendar pass (`Calendar`) books the whole day's sale amount as income,
  matched or not. It books only the matched cost as expense.
  `Calendar.SettleAgainstSellEach` proves the difference exactly, and
  `Calendar.UnmatchedSaleIsIncome` exhibits it on a sale with no stock.

The source's statement loops (`while`, and `forEach` bodies that update
variables or queues) are Dafny `method`s with `while` or `for` loops:
`GetRateForDate`, `Consume`, `EnqueueAll`, `SellDay`, `RecordDay`, `BookDay`,
`PeriodTotalsWithCarryover`, `MatchDay`, `CloseDay`,
`AllDaysProfitWithCarryoverForTypes`, `AllDaysProfitWithCarryover`, `Snap`,
`MatchType`, `SettleSales`, `WriteOff` and `Relabel`. Each is proved equal to a
recursive specification function, and the properties are proved as lemmas
about those functions. The rest of the source's iteration is expressions, and
those are functions:
- the `carryover[type] = []` initialisers (app.js:527-530, 591-594, 903-905)
  are `EmptyQueues`;
- the `reduce` sums (app.js:949-950) are `SoldQty` and `SoldAmount`;
- the `filter` and `map` passes are `Select`, `Scope`, `Positive`, `DatesOf`,
  `Chunks`, `DropDate`, `DropId` and `Stamps`.

The ledger is a `class` (`Ledgers.Ledger`). Its fields are:

- `data`'s four lists;
- the three cache globals.

Its invariant `Valid()` says that a cached calendar is the calendar of the
current data, under the current key. Every edit keeps that invariant by
clearing the cache through `SaveData`.

Module layout, one file each:

- `Dates`: lexicographic string order.
- `Sorting`: a stable insertion sort.
- `Records`: transactions, rates, books.
- `Valuation`: rates and RUB amounts.
- `Ordering`: `sortByDateTime`.
- `Fifo`: the chunk queue.
- `Matching`: selection, enqueueing, per-sale matching, day entries.
- `Period`: `calculatePeriodTotalsWithCarryover`.
- `Daily`: `calculateAllDaysProfitWithCarryoverForTypes`.
- `Usages`: `usedPurchases`.
- `Calendar`: `calculateAllDaysProfitWithCarryover` without its cache.
- `Conservation`: what the calendar's `usedPurchases` records of each purchase.
- `Edits`: the pure parts of the ledger edits.
- `Ledgers`: the `Ledger` class.

How the source's values become Dafny values:

- Dates and times are the stored `YYYY-MM-DD` / `HH:MM` strings, compared by
  character code. For these digit formats, `<=`, `localeCompare` and the
  default `sort()` all agree with that order.
- Money is `real` and quantities are positive naturals.
- A form value that does not parse to a finite number becomes `None`.

## Model

| member | source | states |
|---|---|---|
| Dates.Compare | app.js:867-874 | the three-way comparison is 0 exactly on equal strings, negative exactly when the first is lexicographically smaller, positive exactly when it is larger |
| Dates.LeTotal | app.js:896 | any two date strings are ordered one way or the other (with LeReflexive, LeAntisymmetric and LeTransitive: a total order) |
| Dates.LeTransitive | app.js:533 | the date order `<=` is transitive |
| Dates.LeAntisymmetric | app.js:533 | two dates each `<=` the other are the same date |
| Sorting.Sort | app.js:534 | sorting keeps the length and is a permutation of its input |
| Sorting.SortSorted | app.js:534 | for a strict order, the sorted sequence never has a later element strictly before an earlier one |
| Sorting.InsertSorted | app.js:534 | inserting into a sorted sequence keeps it sorted |
| Sorting.TiesConcat | app.js:534 | the elements tied with a key in two joined sequences are those of the first, then those of the second |
| Sorting.InsertTies | app.js:534 | inserting into a sorted sequence places the new element after every element tied with it, so the ties of any key keep their order |
| Sorting.InsertTiesInFront | app.js:534 | an element inserted in front of a sorted sequence whose head it strictly precedes extends the ties of any key by itself when tied with the key, and by nothing otherwise; the ties already there stay as they were |
| Sorting.InsertTiesBehind | app.js:534 | an element inserted behind the head adds to the ties of a key exactly what it adds to those of the tail |
| Sorting.NoTiesBehindTied | app.js:534 | when an element tied with a key strictly precedes the head of a sorted sequence, no element of that sequence is tied with the key |
| Sorting.PrecedesLater | app.js:534 | under a weak order, strictly preceding the head of a sorted sequence means strictly preceding every element of it |
| Sorting.SortStable | app.js:534 | for an order whose ties behave like equal keys, sorting keeps the elements tied with any key in their input order |
| Valuation.NewerFirstIsStrictOrder | app.js:461 | the comparator "dated later goes first" is a strict order |
| Valuation.FirstOnOrBefore | app.js:464-470 | the scan finds nothing exactly when no rate is dated on or before the day; whatever it finds is one of the rates and is dated on or before the day |
| Valuation.GetRateForDate | app.js:454-474 | the early-return loop over the sorted copy yields the resolver's rate: 1 with no rates, else the first newest-first rate dated on or before the day, else 1 |
| Valuation.LatestIndex | app.js:454-474 | independent reference: none exactly when no rate is on or before the day; otherwise an index dated on or before the day, not older than any such rate, and the first entry of its date |
| Valuation.SortThenScanIsLatest | app.js:461-470 | sorting newest first and scanning finds exactly the rate the reference search picks |
| Valuation.RateForDateIsLatest | app.js:454-474 | the resolver's rate is the reference rate: the latest-dated rate not after the day (the earliest-entered among rates of that date), or 1 |
| Valuation.RateFallsBackToOne | app.js:455-473 | with no rate dated on or before the day, the rate is 1 |
| Valuation.RatePicksLatest | app.js:461-469 | a rate dated on or before the day, with no later-dated such rate and no earlier entry of its date, is the rate used |
| Valuation.RateIgnoresLaterRates | app.js:464-469 | adding a rate dated after the day does not change that day's rate |
| Valuation.ValuationUsesOwnDate | app.js:477-488 | a RUB total is taken unchanged; a total is converted at the reference rate of the transaction's own day; a sale is worth exactly 0.97 of that |
| Valuation.AmountIgnoresLaterRates | app.js:477-488 | a rate entered for a later day changes neither a transaction's RUB amount nor a sale's net amount |
| Ordering.CompareDateTimeMeaning | app.js:867-874 | the comparator is negative exactly when the day is earlier, or the day is equal and the effective time (blank = `00:00`) is earlier; zero exactly when both agree; antisymmetric |
| Ordering.EarlierThanIsStrictOrder | app.js:867-874 | "comparator negative" is a strict order |
| Ordering.SortByDateTimeOrders | app.js:532-537 | sorting with the comparator gives a permutation of the transactions ordered by (day, effective time) |
| Ordering.NotEarlierIsNotLater | app.js:867-874 | a transaction not strictly after another is at most as late in (day, effective time) |
| Ordering.NotLaterTransitive | app.js:867-874 | "at most as late" is transitive |
| Ordering.EarlierThanIsWeakOrder | app.js:867-874 | the comparator's ties behave like equal keys |
| Ordering.TiedIsSameSlot | app.js:867-874 | the comparator ties two transactions exactly when they share day and effective time |
| Ordering.SameSlotIsTies | app.js:867-874 | the transactions of one day and time are the comparator's ties |
| Ordering.SortByDateTimeStable | app.js:532-537 | transactions of the same day and effective time leave the sort in their input order, so of two purchases of one moment the one entered first is consumed first |
| Fifo.Consume | app.js:565-581 | the matching loop leaves the queue and makes the takes that the specification `Withdraw` defines |
| Fifo.WithdrawRound | app.js:565-581 | one loop round (take `min(head, remaining)`, reduce the head, drop it at zero) keeps the loop invariant against `Withdraw` |
| Fifo.WithdrawConserves | app.js:565-581 | the stock left plus the units taken is the stock before, and exactly `min(wanted, stock)` units are taken |
| Fifo.WithdrawKeepsPositive | app.js:576-580 | a queue of non-empty chunks stays a queue of non-empty chunks, and every take is of at least one unit |
| Fifo.WithdrawExhausts | app.js:565-580 | a head with no more than is wanted is taken whole and dropped, then the loop goes on |
| Fifo.WithdrawStopsInHead | app.js:565-580 | a head with more than is wanted gives exactly what is wanted and keeps the rest |
| Fifo.WithdrawIsOldestFirst | app.js:565-567 | the takes come from the queue's chunks in queue order, oldest first |
| Fifo.WithdrawLeavesTail | app.js:574-580 | after the takes the queue is the untouched tail, possibly headed by the last taken chunk holding what it kept |
| Fifo.TailBehindHead | app.js:574-580 | when the head is taken whole, the rest the tail leaves is the rest the whole queue leaves |
| Fifo.StockAppend | app.js:553-558 | pushing a chunk adds its units to the stock |
| Fifo.StockConcat | app.js:553-558 | the stock of two queues joined is the sum of their stocks |
| Fifo.PositiveConcat | app.js:553-558 | joining two queues of non-empty chunks gives a queue of non-empty chunks |
| Fifo.CostPrepend | app.js:573 | the cost and the units of a take put in front add to those of the rest |
| Fifo.CostAppend | app.js:960 | the cost of one more take adds its cost |
| Fifo.SplitTakeCost | app.js:960 | a take of x + y units costs what takes of x and of y units cost |
| Fifo.WithdrawAdditive | app.js:956-977 | taking a units and then b units leaves the same queue as taking a + b at once, at the same total cost |
| Fifo.WithdrawAdditiveHead | app.js:956-977 | the additivity step when the first withdrawal uses up the head chunk |
| Fifo.WithdrawEmptiesHeadLater | app.js:956-977 | the additivity case where only the second withdrawal uses up the head chunk |
| Fifo.WithdrawStaysInHead | app.js:956-977 | the additivity case where both withdrawals stay inside the head chunk |
| Matching.ChunkOf | app.js:552-558 | a purchase's chunk keeps its id, quantity (positive) and day, and its units are worth exactly the purchase's RUB amount |
| Matching.Chunks | app.js:551-559 | one chunk per purchase, in order |
| Matching.ChunksHoldBought | app.js:551-559 | the chunks of the day's purchases hold exactly the units bought, each chunk non-empty |
| Matching.EnqueueAll | app.js:551-559 | pushing the purchases one by one appends their chunks to the queue |
| Matching.Select | app.js:550 | the filter keeps exactly the transactions of that day and that type, each as often as it occurs |
| Matching.Scope | app.js:532-537 | the filter keeps exactly the transactions of the selected types that are not after the cap, each as often as it occurs |
| Matching.SortedScope | app.js:532-537 | filtering then sorting gives each transaction in scope as often as it occurs, no other, in (day, time) order |
| Matching.Prepare | app.js:532-537 | the prepared purchases and sales are the transactions of the selected types not after the cap, each as often as it occurs, in (day, time) order; the rates are kept |
| Matching.SelectNone | app.js:561 | on a day without transactions the filter is empty |
| Matching.Distinct | app.js:539-542 | building the date set keeps exactly the dates present, each once |
| Matching.DatesOf | app.js:540-541 | the dates in transaction order |
| Matching.BeforeIsStrictOrder | app.js:542 | the default string sort's order on dates is strict |
| Matching.AllDatesCoverTransactions | app.js:539-542 | a day is walked exactly when some purchase or sale falls on it |
| Matching.DatesOfMember | app.js:540-541 | a date is listed exactly when a transaction carries it |
| Matching.AllDatesAscending | app.js:539-542 | the walked days strictly ascend, so none repeats |
| Matching.DistinctAfterSort | app.js:542 | sorting a repeat-free list of dates keeps it repeat-free |
| Matching.DistinctCountsOnce | app.js:539-542 | a repeat-free list holds each date at most once |
| Matching.WorthOfShare | app.js:552 | q units at `amount / q` are worth the amount |
| Matching.WorthAdds | app.js:572 | the worth of a + b units at one price is the sum of the two worths |
| Matching.RevenueIsMatchedWorth | app.js:572 | the income of the takes is the units matched times the sale's unit price |
| Matching.RecordDay | app.js:645-647 | the day is recorded as the record rule says |
| Matching.BookedSurvives | app.js:645-647 | recording another day leaves a recorded day's entry as it was |
| Matching.RecordDaysEntries | app.js:609-648 | recording distinct days gives each day the entry its booking calls for (present exactly when income or expense is non-zero, with profit = income − expense), and no other day |
| Matching.SellDay | app.js:626-642 | the loop over one day's sales of a type gives the sequential per-sale matching `SellEach` |
| Matching.SellEachConserves | app.js:562-582 | per sale matching conserves stock, matches `min(sold, held)` units and so no more than either, and keeps every chunk non-empty |
| Matching.SellEachIncomeWhenStocked | app.js:564-574 | with enough stock every unit is matched and the income is the whole net sale amount |
| Matching.SellTypeOnDay | app.js:549-582 | one type on one day: enqueue the day's purchases, then match the day's sales |
| Matching.DaySoldConserves | app.js:549-582 | stock after the day plus units matched is stock before plus units bought that day; no more matched than sold; queues of non-empty chunks stay so |
| Matching.DaySoldWithoutSales | app.js:561-582 | a type without sales that day books neither income nor expense |
| Period.PeriodTotalsWithCarryover | app.js:526-587 | the method's totals are those of the specification walk `PeriodTotals` |
| Period.BookDay | app.js:549-583 | one day of the walk over the types, booking only when the day is in the period |
| Period.OverTypesPositive | app.js:549-583 | a day of matching keeps every queued chunk non-empty |
| Period.OverDatesPositive | app.js:548-584 | the whole walk keeps every queued chunk non-empty |
| Period.OverTypesBooksNothing | app.js:568-574 | with no sale in the period, a day books nothing even though it consumes stock |
| Period.OverDatesBooksNothing | app.js:568-574 | with no sale in the period, the walk books nothing |
| Period.PeriodZeroWithoutSalesInRange | app.js:532-574 | with no sale of the types in the period the totals are zero, whatever purchases were consumed before |
| Period.PeriodEmptyRange | app.js:568 | a period ending before it starts has zero totals |
| Period.OverTypesSplits | app.js:549-583 | a day moves the queues whether or not it lies in the period, and adds its matches to the totals exactly when it does |
| Period.TypeStepSplits | app.js:549-583 | one type's step of that split |
| Period.BookAdd | app.js:570-572 | booking a sale onto a sum is adding it to the second part |
| Period.OverDatesSplits | app.js:548-584 | the walk's queues are those carried through every day, and its totals grow by what the days inside the period match |
| Period.PeriodIsSumOfDays | app.js:526-587 | the totals are the sum, over the walked days inside the period, of each day's income, expense and matched units, every day matched against the queues left by all earlier days, those before `dateFrom` included |
| Period.DayMatchWithinSold | app.js:560-581 | a day matches no more units than its sales of the types carry |
| Period.InPeriodWithinSold | app.js:548-584 | the days inside the period match no more units than their sales carry |
| Period.PeriodMatchedWithinSold | app.js:526-587 | `matchedQtyInRange` is at most the units of the types sold on the walked days of the period |
| Period.StockOverUpdate | app.js:555-578 | with distinct types, replacing one type's queue changes the stock the types hold by exactly the difference |
| Period.StockOverEmpty | app.js:527-530 | the fresh queues hold no stock |
| Period.TypeStepWithinBought | app.js:549-582 | one type's step adds to the types' stock plus the booked units no more than that type's purchases of the day |
| Period.OverTypesWithinBought | app.js:548-584 | a day's walk adds to the types' stock plus the booked units no more than the day's purchases of the walked types |
| Period.OverDatesWithinBought | app.js:548-584 | the walk's stock plus booked units never exceed the start's plus the units bought on the walked days, type by type |
| Period.BoughtOnSplits | app.js:549-553 | a type not among the others adds exactly its own purchases of the day |
| Period.SelectBoughtLast | app.js:549-553 | the last purchase adds its units to a day's selection exactly when it is of that day and type |
| Period.BoughtInSplits | app.js:548-553 | a day not among the others adds exactly its own purchases of the types |
| Period.DayBoughtIsBoughtOn | app.js:549-553 | with distinct types, the type-by-type units bought on a day are the units of the purchases of those types that day |
| Period.BoughtOnDaysIsBoughtIn | app.js:538-553 | with distinct types and days, the day-by-day count is the units of the purchases on those days and of those types |
| Period.BoughtInCovers | app.js:532-553 | days and types that cover every purchase count every unit bought |
| Period.PeriodMatchedWithinBought | app.js:526-587 | with no type selected twice, `matchedQtyInRange` (shown as the period's bought units at app.js:690) is at most the units of the selected types bought up to the period's end |
| Period.PrepareOneEach | app.js:531-537 | one purchase and one sale of the selected type, not after the period's end, are prepared as they are |
| Period.DatesTwo | app.js:539-542 | the walked days of a purchase and a later sale are the two days in order |
| Period.QueueBeforePeriod | app.js:549-559 | on a purchase's day before the period, the purchase is queued and nothing is booked |
| Period.SellWhole | app.js:560-581 | a sale of exactly what the one chunk holds takes all of it, earning the sale's net amount and costing the chunk's worth |
| Period.SellInPeriod | app.js:560-581 | on a sale's day inside the period, the carried purchase is taken and its sale booked |
| Period.PurchaseBeforePeriodFeedsSale | app.js:526-587 | a purchase before the period sold inside it: the totals are the sale's net RUB amount as income, the purchase's RUB amount as expense, and the sold quantity as matched |
| Period.PurchaseBeforePeriodIsExpense | app.js:526-587 | one unit bought on 10 January for 50 RUB and sold on 10 February for 100 RUB: February's totals are 97 income, 50 expense, 1 unit matched |
| Daily.AllDaysProfitWithCarryoverForTypes | app.js:589-651 | the method's result is the specification `DailyProfits` |
| Daily.CloseDay | app.js:609-648 | one day: match all types, then record the day |
| Daily.MatchDay | app.js:613-643 | the loop over the types gives the day's totals `DayTotals` |
| Daily.OverTypesWithoutSales | app.js:625-642 | a day without sales books nothing |
| Daily.OverDatesKeys | app.js:645-647 | only walked days with a sale can appear in the result |
| Daily.DailyOnlySaleDays | app.js:595-647 | a day in the result has a sale of a selected type not after the cap |
| Daily.OverDatesFollowsDays | app.js:609-648 | the walk's result is each day recorded from that day's booking, and its queues are those after the last day |
| Daily.DailyEntries | app.js:589-651 | each walked day is present exactly when its income or expense is non-zero, with profit = income − expense, and no day outside the walk is present |
| Usages.Use | app.js:965-972 | recording a use adds the purchase's id to the keys and leaves every other purchase's usage as it was |
| Usages.SumOnOutside | app.js:968-972 | changing the count of a day outside the days does not change the sum |
| Usages.SumOnAdd | app.js:972 | adding units on one of the days adds them to the sum |
| Usages.UseAddsUp | app.js:965-972 | after a use every `totalUsed` is still the sum of its per-day counts |
| Usages.WalkOn | app.js:913 | a new day adds nothing to any sum |
| Usages.LastIsNew | app.js:893-896 | in a repeat-free list of days, the last day is not among the earlier ones |
| Calendar.AllDaysProfitWithCarryover | app.js:890-990 | the uncached pass yields the specification's result and the state `{usedPurchases, carryover, carryoverByDate}` |
| Calendar.CloseDay | app.js:913-984 | one day: snapshot, match all types, record the day |
| Calendar.Snap | app.js:918-924 | the start-of-day snapshot holds each item type's queue without empty chunks |
| Calendar.MatchDay | app.js:927-979 | the loop over the item types gives the day's totals |
| Calendar.MatchType | app.js:928-978 | one type: enqueue the day's purchases in (day, time) order, then settle the day's sales |
| Calendar.SettleSales | app.js:944-978 | with units sold, the whole net sale amount is income and the bulk withdrawal is written off; without, nothing changes |
| Calendar.WriteOff | app.js:956-977 | the write-off loop leaves the queue, adds the cost and records the uses that a bulk `Withdraw` defines |
| Calendar.Positive | app.js:922 | the filter keeps exactly the chunks with stock |
| Calendar.UseAllAppend | app.js:965-972 | recording one more take adds its use |
| Calendar.UseAllAddsUp | app.js:965-972 | recording a day's takes keeps every `totalUsed` equal to the sum of its per-day counts |
| Calendar.SettleHealthy | app.js:952-977 | settling a type keeps all chunks non-empty and all usages adding up |
| Calendar.TypeStepHealthy | app.js:927-978 | a type's step keeps all chunks non-empty and all usages adding up |
| Calendar.OverTypesHealthy | app.js:927-979 | a day keeps all chunks non-empty and all usages adding up |
| Calendar.OverDatesHealthy | app.js:913-984 | the walk keeps all chunks non-empty and all usages adding up over the walked days |
| Calendar.CalendarStateHealthy | app.js:893-984 | in the final state every carried chunk holds stock, the days are distinct, and each purchase's `totalUsed` is the sum of its `byDate` counts, all for walked days |
| Calendar.PositiveOfPositive | app.js:921-923 | filtering a queue whose chunks all hold stock gives it back unchanged |
| Calendar.SnapshotIsCarryover | app.js:918-924 | the snapshot has exactly the item types as keys, each holding that type's queue |
| Calendar.BulkIsSequential | app.js:949-977 | withdrawing the day's total sold units at once leaves the same queue and costs the same as matching sale by sale |
| Calendar.NoSoldQtyNoSales | app.js:949-952 | the units sold are zero exactly when the day has no sales |
| Calendar.SettleAgainstSellEach | app.js:949-977 | against per-sale matching: same queue, same expense, income is the whole net sale amount, which equals the per-sale income whenever stock suffices |
| Calendar.UnmatchedSaleIsIncome | app.js:949-960 | a 100 RUB sale against an empty queue books 97 as income in the calendar, but 0 in per-sale matching |
| Calendar.TypeStepConserves | app.js:927-978 | after a type's step, stock plus units matched is stock before plus units bought that day, and no more is matched than was sold |
| Calendar.OverDatesFollowsDays | app.js:913-984 | the walk's result is each day recorded from that day's booking, and its queues and usages are those after the last day |
| Calendar.CalendarEntries | app.js:913-984 | each walked day is present exactly when its income or expense is non-zero, with profit = income − expense, and no other day is present |
| Calendar.SelectEmpty | app.js:945-946 | no sale of that type that day: the filter is empty |
| Calendar.OverTypesWithoutSales | app.js:945-978 | a day without sales of the item types books nothing |
| Calendar.OverDatesKeys | app.js:981-983 | only days with a sale of an item type can appear in the result |
| Calendar.CalendarOnlySaleDays | app.js:981-983 | a day in the calendar has a sale of one of the item types |
| Conservation.WithdrawConservesId | app.js:956-977 | a withdrawal moves units of each purchase from the queue into the takes, none lost or made |
| Conservation.IdStockConcat | app.js:933-941 | the units of a purchase in two joined queues are the sum of both |
| Conservation.IdTakenAppend | app.js:958 | one more take adds its units to its own purchase |
| Conservation.UseAdds | app.js:965-972 | one use adds its units to the `totalUsed` of its own purchase and to no other |
| Conservation.UseAllAdds | app.js:965-972 | recording a withdrawal's takes adds to each purchase's `totalUsed` exactly what was taken of it |
| Conservation.ChunksHoldId | app.js:933-941 | the chunks pushed for the day's purchases hold what those purchases bought of each id |
| Conservation.IdBoughtOnce | app.js:929-931 | purchases in which `p` occurs at most once, and no other purchase has its id, bought `p`'s quantity of that id if `p` is among them, else none |
| Conservation.UniqueOccursOnce | app.js:929-931 | with distinct ids, a purchase occurs exactly once |
| Conservation.SameIdIsSame | app.js:929-931 | with distinct ids, the purchase with a given id is unique |
| Conservation.DayPurchasesCount | app.js:929-931 | a day's purchases of a type are purchases, and hold `p` as often as all purchases do on `p`'s day and type, else not at all |
| Conservation.DayPurchasesHoldId | app.js:929-941 | with distinct ids, a day's purchases of a type bring `p`'s quantity of `p`'s id on its day and type, and none otherwise |
| Conservation.SettleMoves | app.js:952-977 | settling a type moves units of a purchase from that type's queue into `totalUsed`, never lowers `totalUsed`, and leaves the other queues alone |
| Conservation.TallyAfterMove | app.js:927-978 | a step that moves units of `p` only between one queue and its `totalUsed` keeps the account of `p` |
| Conservation.TypeStepTally | app.js:927-978 | after a type's step, `p`'s used plus queued units grow by `p`'s quantity on its day and type, and by nothing otherwise |
| Conservation.OverTypesTally | app.js:927-979 | a day adds `p`'s quantity once per occurrence of `p`'s type on `p`'s day |
| Conservation.DayStepTally | app.js:913-984 | one day of the walk adds `p`'s quantity per occurrence of its type when it is `p`'s day, and nothing otherwise |
| Conservation.ShareSplits | app.js:893-896 | with distinct days, `p`'s day is either among the earlier days or the last one, not both |
| Conservation.OverDatesTally | app.js:913-984 | the walk adds `p`'s quantity per occurrence of its type when `p`'s day is walked |
| Conservation.BoughtOverUnique | app.js:901-905 | with each item type listed once, a purchase counts once, under its own type |
| Conservation.DuplicatedTypeCountsTwice | app.js:927-941 | a type listed twice has its purchases queued twice, so a purchase counts twice its quantity |
| Conservation.UsageWithinPurchase | app.js:908-987 | after the pass, a purchase's `totalUsed` plus its units still carried are its quantity times the occurrences of its type, no other type carries any of it, and with distinct item types its `totalUsed` is at most its quantity |
| Edits.TrimStart | app.js:217 | the result is a suffix of the input; only white space was dropped; it does not start with white space |
| Edits.TrimEnd | app.js:217 | the result is a prefix of the input; only white space was dropped; it does not end with white space |
| Edits.TrimShape | app.js:217 | the trimmed name is a stretch of the input, with only white space around it, neither starting nor ending with white space |
| Edits.TrimIdempotent | app.js:217 | trimming a trimmed name changes nothing |
| Edits.AppendUnique | app.js:218-219 | appending a name not yet present keeps the names unique |
| Edits.ReplaceUnique | app.js:299-301 | replacing a name by one not yet present keeps the names unique |
| Edits.Rekey | app.js:304-309 | every transaction of the old type gets the new type; every other transaction is unchanged; length and order are kept |
| Edits.RekeyMovesExactlyOldName | app.js:299-309 | after a rename to a fresh name, a transaction has the new name exactly when it had the old one, nothing but the type changed, and no transaction keeps the old name |
| Edits.DropDate | app.js:1190 | the filter keeps exactly the rates of other days, each as often as it occurs |
| Edits.DropId | app.js:1148-1152 | the filter keeps exactly the transactions with another id, each as often as it occurs |
| Edits.DropDateKeepsOnePerDate | app.js:1232 | deleting a day's rates keeps at most one rate per day |
| Edits.OnePerDatePrefix | app.js:1190 | a prefix of a list with one rate per day has one rate per day |
| Edits.OtherDayBefore | app.js:1190 | in a list with one rate per day, an earlier rate is of another day than the last |
| Edits.OnePerDateAppend | app.js:1190 | appending a rate of a day not yet present keeps one rate per day |
| Edits.SaveRateKeepsOnePerDate | app.js:1190-1192 | after a save the saved rate is the only rate of its day, and a ledger with one rate per day keeps one per day |
| Edits.SavedRateApplies | app.js:1190-1192 | a saved rate becomes the rate used for its own day |
| Edits.FindById | app.js:350-351 | the first transaction with the id, if any: found exactly when some transaction has the id, and no earlier one has it |
| Edits.KeyIgnoresQuantities | app.js:880-884 | the cache key does not see a changed quantity, so only the invalidation in `saveData` keeps the cache current |
| Ledgers.Rejection | app.js:333-348 | the first failing check, in the form's order: no item type, no day, a price not finite and positive, a quantity not finite and positive; none exactly when all pass |
| Ledgers.DayProfitOfCalendar | app.js:994-997 | a day without data shows profit 0; a day with data is a walked day whose booking is non-zero, and shows income − expense |
| Ledgers.Relabel | app.js:304-309 | the `forEach` loop re-keys the transactions as `Rekey` says |
| Ledgers.InitialItemTypesUnique | app.js:3 | the nine initial item types are distinct |
| Ledgers.Ledger.constructor | app.js:2-7 | the initial data: nine item types, no transactions, no rates, every cache empty |
| Ledgers.Ledger.SaveData | app.js:22-28 | the profit cache and its key are cleared; the data and the carryover state are kept |
| Ledgers.Ledger.CalculateAllDaysProfitWithCarryover | app.js:878-991 | the result is the calendar of the current data; on a key match with a cached result it is the cached one and nothing changes; otherwise result, key and state are stored |
| Ledgers.Ledger.Refresh | app.js:890-990 | a miss runs the pass and stores its result, the current key and the state |
| Ledgers.Ledger.CalculateDayProfit | app.js:994-997 | the day's calendar entry, or no data with profit 0 |
| Ledgers.Ledger.AddItemType | app.js:215-225 | a trimmed, non-empty, new name is appended and the cache cleared; otherwise nothing changes; unique names stay unique |
| Ledgers.Ledger.RenameItemType | app.js:295-317 | a trimmed, non-empty, new name replaces the type and re-keys exactly its purchases and sales, and the cache is cleared; otherwise nothing changes |
| Ledgers.Ledger.DeleteItemType | app.js:433-441 | the type at the index goes (an index past the end removes nothing); its transactions stay; the cache is cleared |
| Ledgers.Ledger.SaveRate | app.js:1180-1192 | a missing or zero value, or an empty day, changes nothing; otherwise the day's rates are replaced by the new one, which becomes that day's rate; one rate per day is kept |
| Ledgers.Ledger.DeleteRate | app.js:1232-1233 | no rate of the day is left, the others stay, and the cache is cleared |
| Ledgers.Ledger.DeleteTransaction | app.js:1594-1598 | the sales (`income`) or purchases with the id are removed, the other list unchanged, and the cache cleared |
| Ledgers.Ledger.EditTransaction | app.js:320-360 | the first failing check ends the edit with nothing changed; an unknown id changes nothing, not even the cache; otherwise the first transaction with the id takes the new fields with amount = price × quantity, and the cache is cleared |
| Ledgers.Ledger.Replace | app.js:354-361 | the transaction at the index is replaced in the right list and the cache is cleared |
| Ledgers.Ledger.Import | app.js:154-165 | a file lacking item types, purchases or sales is refused and a declined import changes nothing; otherwise the file's lists replace the data (no rates when it has none), and the cache is cleared |

## Left out

- The DOM, modals, tabs, the calendar grid, the statistics and details markup, and Chart.js are user interface only.
- `localStorage` loading and saving (app.js:15-24) is not modelled. `SaveData` keeps only its cache invalidation.
- `FileReader` reading, JSON parsing and the export Blob are not modelled. An import file arrives already parsed into typed lists. A missing or `null` key is `None`, and an empty list counts as present, as in JavaScript.
- `alert` and `confirm` are not modelled. The answer to the import's confirmation is a parameter.
- `Date`-based arithmetic, locale formatting and `Date.now()` ids are not modelled. They depend on the host clock and time zone. Ids are given naturals.
- The `setHours` manipulation in `getRateForDate` compares only the days. It is modelled as the string order on `YYYY-MM-DD`.
- `parseFloat` and `parseInt` are not modelled. A value that is not a finite number arrives as `None`.
  - SaveRate: `!value` rejects NaN and 0, so a negative rate is accepted, as in the source.
- Money is `real`, not IEEE double. Rounding, `toFixed` and `formatMoney` are left out.
- Ledger.RenameItemType: requires an index of an existing type. The edit button always supplies one. The source's write past the end of an array is not modelled.
- Ledger.DeleteItemType: `splice` with a NaN index (which removes the first type) is not modelled. Every index is a natural.
- The "add purchase" and "add sale" forms are not models of their own. Their records are the `Tx` values the passes read.
- Edits.KeyOf: the key is a structured value. `JSON.stringify` of the concatenated `id + date + time` strings can in principle collide, and that is not modelled. Because every edit clears the cache, the key only matters between edits, and there the data is unchanged.
- Period.PeriodTotals: the per-take check `isInRange` (app.js:568) depends only on the day. It is decided once per type and day, which books the same amounts.
- Calendar walk: the snapshot copies are values. JavaScript's object copies (`{ ...c }`) and the aliasing of `oldest` into the queue are modelled by sequence updates.
- Calendar.CalendarStateHealthy: states that `totalUsed` adds up over the days but not that it stays within the purchase's quantity; app.js promises no such bound, and only the day details, which mark a purchase used up when `usedInThisDay >= tx.quantity` (app.js:1082), take it for granted. Conservation.UsageWithinPurchase proves the bound for distinct purchase ids and distinct item types, and proves what holds without the second: a purchase whose type is listed twice is queued once per listing, so its used plus carried units are twice its quantity (Conservation.DuplicatedTypeCountsTwice). Neither distinctness is enforced by the source: an import can bring duplicates, and `Date.now()` ids can collide.
- Period.PeriodMatchedWithinSold: bounds `matchedQtyInRange` by the units sold, counted day by day and type by type over the walked days of the period. It does not prove that this count is the total quantity of the period's sales, which would need the day-and-type selections to partition the sales. The purchased side is proved in full by `Period.PeriodMatchedWithinBought`, which bounds it by the total units bought.
- Period.PeriodMatchedWithinBought: assumes no type is selected twice. A repeated type puts its purchases into its queue once per listing, so the matched units can then exceed the units bought.
- `formatDate`, `getStatsDateRange`, the chart's date loops, `renderItemStats` and `showDetails` are not part of this model.
