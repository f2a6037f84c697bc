/**
 * The equalized totals of a period (`calculatePeriodTotalsWithCarryover`):
 * every transaction of the selected types up to the end of the period is
 * matched day by day and type by type, so purchases made before the period
 * still feed its sales; only matches on days inside the period are booked.
 */
module Period {
  import opened Dates
  import opened Records
  import opened Sorting
  import opened Valuation
  import opened Ordering
  import opened Fifo
  import opened Matching
  import opened Usages
  import opened Edits

  datatype Totals = Totals(totalIncome: real, totalExpense: real, matchedQtyInRange: nat)

  /** The queues and the totals so far. */
  datatype Walk = Walk(queues: Queues, totals: Totals)

  /** `dateStr >= dateFrom && dateStr <= dateTo`. */
  predicate InRange(date: Date, dateFrom: Date, dateTo: Date)
  {
    Le(dateFrom, date) && Le(date, dateTo)
  }

  function Book(totals: Totals, sold: Sold): Totals
  {
    Totals(totals.totalIncome + sold.income,
           totals.totalExpense + sold.expense,
           totals.matchedQtyInRange + sold.matched)
  }

  /** One type on one day; the day decides whether the matches are booked. */
  function TypeStep(w: Walk, books: Books, date: Date, t: string, dateFrom: Date, dateTo: Date): Walk
  {
    var sold := DaySold(w.queues, books, date, t);
    Walk(w.queues[t := sold.queue],
         if InRange(date, dateFrom, dateTo) then Book(w.totals, sold) else w.totals)
  }

  /** All types on one day, in the order given. */
  function OverTypes(w: Walk, books: Books, date: Date, types: seq<string>, dateFrom: Date, dateTo: Date): Walk
  {
    if |types| == 0 then w
    else TypeStep(OverTypes(w, books, date, types[..|types| - 1], dateFrom, dateTo),
                  books, date, types[|types| - 1], dateFrom, dateTo)
  }

  /** The days one after the other. */
  function OverDates(w: Walk, books: Books, dates: seq<Date>, types: seq<string>, dateFrom: Date, dateTo: Date): Walk
  {
    if |dates| == 0 then w
    else OverTypes(OverDates(w, books, dates[..|dates| - 1], types, dateFrom, dateTo),
                   books, dates[|dates| - 1], types, dateFrom, dateTo)
  }

  function Start(types: seq<string>): Walk
  {
    Walk(EmptyQueues(types), Totals(0.0, 0.0, 0))
  }

  /** The totals of the period [dateFrom, dateTo] for the selected types. */
  function PeriodTotals(all: Books, types: seq<string>, dateFrom: Date, dateTo: Date): Totals
  {
    var books := Prepare(all, types, Some(dateTo));
    OverDates(Start(types), books, AllDates(books.purchases, books.sales), types, dateFrom, dateTo).totals
  }

  method PeriodTotalsWithCarryover(all: Books, types: seq<string>, dateFrom: Date, dateTo: Date)
    returns (totals: Totals)
    ensures totals == PeriodTotals(all, types, dateFrom, dateTo)
  {
    var books := Prepare(all, types, Some(dateTo));
    var dates := AllDates(books.purchases, books.sales);
    var carryover := EmptyQueues(types);
    totals := Totals(0.0, 0.0, 0);
    for i := 0 to |dates|
      invariant Walk(carryover, totals) == OverDates(Start(types), books, dates[..i], types, dateFrom, dateTo)
    {
      OverDatesStep(Start(types), books, dates, types, i, dateFrom, dateTo);
      carryover, totals := BookDay(carryover, totals, books, dates[i], types, dateFrom, dateTo);
    }
    assert dates[..|dates|] == dates;
  }

  /** `types.forEach(...)` for one day of the period walk. */
  method BookDay(queues: Queues, totals: Totals, books: Books, date: Date, types: seq<string>,
                 dateFrom: Date, dateTo: Date)
    returns (carryover: Queues, booked: Totals)
    ensures Walk(carryover, booked) == OverTypes(Walk(queues, totals), books, date, types, dateFrom, dateTo)
  {
    carryover, booked := queues, totals;
    for j := 0 to |types|
      invariant Walk(carryover, booked) == OverTypes(Walk(queues, totals), books, date, types[..j], dateFrom, dateTo)
    {
      var t := types[j];
      OverTypesStep(Walk(queues, totals), books, date, types, j, dateFrom, dateTo);
      var sold := SellTypeOnDay(carryover, books, date, t);
      carryover := carryover[t := sold.queue];
      var isInRange := Le(dateFrom, date) && Le(date, dateTo);
      if isInRange {
        booked := Book(booked, sold);
      }
    }
    assert types[..|types|] == types;
  }

  lemma OverTypesStep(w: Walk, books: Books, date: Date, types: seq<string>, j: nat, dateFrom: Date, dateTo: Date)
    requires j < |types|
    ensures OverTypes(w, books, date, types[..j + 1], dateFrom, dateTo)
      == TypeStep(OverTypes(w, books, date, types[..j], dateFrom, dateTo), books, date, types[j], dateFrom, dateTo)
  {
    assert types[..j + 1][..j] == types[..j];
  }

  lemma OverDatesStep(w: Walk, books: Books, dates: seq<Date>, types: seq<string>, i: nat, dateFrom: Date, dateTo: Date)
    requires i < |dates|
    ensures OverDates(w, books, dates[..i + 1], types, dateFrom, dateTo)
      == OverTypes(OverDates(w, books, dates[..i], types, dateFrom, dateTo), books, dates[i], types, dateFrom, dateTo)
  {
    assert dates[..i + 1][..i] == dates[..i];
  }

  /** The walk keeps every queue made of non-empty chunks. */
  lemma {:induction false} OverTypesPositive(w: Walk, books: Books, date: Date, types: seq<string>, dateFrom: Date, dateTo: Date)
    requires QueuesPositive(w.queues)
    ensures QueuesPositive(OverTypes(w, books, date, types, dateFrom, dateTo).queues)
  {
    if |types| > 0 {
      var prev := OverTypes(w, books, date, types[..|types| - 1], dateFrom, dateTo);
      OverTypesPositive(w, books, date, types[..|types| - 1], dateFrom, dateTo);
      DaySoldConserves(prev.queues, books, date, types[|types| - 1]);
    }
  }

  lemma {:induction false} OverDatesPositive(w: Walk, books: Books, dates: seq<Date>, types: seq<string>, dateFrom: Date, dateTo: Date)
    requires QueuesPositive(w.queues)
    ensures QueuesPositive(OverDates(w, books, dates, types, dateFrom, dateTo).queues)
  {
    if |dates| > 0 {
      OverDatesPositive(w, books, dates[..|dates| - 1], types, dateFrom, dateTo);
      OverTypesPositive(OverDates(w, books, dates[..|dates| - 1], types, dateFrom, dateTo),
                        books, dates[|dates| - 1], types, dateFrom, dateTo);
    }
  }

  /** Days with no sale in the period book nothing. */
  lemma {:induction false} OverTypesBooksNothing(w: Walk, books: Books, date: Date, types: seq<string>, dateFrom: Date, dateTo: Date)
    requires forall x :: x in books.sales ==> !InRange(x.date, dateFrom, dateTo)
    ensures OverTypes(w, books, date, types, dateFrom, dateTo).totals == w.totals
  {
    if |types| > 0 {
      OverTypesBooksNothing(w, books, date, types[..|types| - 1], dateFrom, dateTo);
      if InRange(date, dateFrom, dateTo) {
        SelectNone(books.sales, date, types[|types| - 1]);
      }
    }
  }

  lemma {:induction false} OverDatesBooksNothing(w: Walk, books: Books, dates: seq<Date>, types: seq<string>, dateFrom: Date, dateTo: Date)
    requires forall x :: x in books.sales ==> !InRange(x.date, dateFrom, dateTo)
    ensures OverDates(w, books, dates, types, dateFrom, dateTo).totals == w.totals
  {
    if |dates| > 0 {
      OverDatesBooksNothing(w, books, dates[..|dates| - 1], types, dateFrom, dateTo);
      OverTypesBooksNothing(OverDates(w, books, dates[..|dates| - 1], types, dateFrom, dateTo),
                            books, dates[|dates| - 1], types, dateFrom, dateTo);
    }
  }

  /**
   * Income, expense and matched quantity all stay zero when no sale of a
   * selected type falls inside the period, however many earlier sales and
   * purchases there are.
   */
  lemma PeriodZeroWithoutSalesInRange(all: Books, types: seq<string>, dateFrom: Date, dateTo: Date)
    requires forall s :: s in all.sales && s.itemType in types ==> !InRange(s.date, dateFrom, dateTo)
    ensures PeriodTotals(all, types, dateFrom, dateTo) == Totals(0.0, 0.0, 0)
  {
    var books := Prepare(all, types, Some(dateTo));
    OverDatesBooksNothing(Start(types), books, AllDates(books.purchases, books.sales), types, dateFrom, dateTo);
  }

  /** A period that ends before it starts has zero totals. */
  lemma PeriodEmptyRange(all: Books, types: seq<string>, dateFrom: Date, dateTo: Date)
    requires Lt(dateTo, dateFrom)
    ensures PeriodTotals(all, types, dateFrom, dateTo) == Totals(0.0, 0.0, 0)
  {
    forall s | s in all.sales && s.itemType in types ensures !InRange(s.date, dateFrom, dateTo) {
      if InRange(s.date, dateFrom, dateTo) {
        LeTransitive(dateFrom, s.date, dateTo);
        LeAntisymmetric(dateFrom, dateTo);
      }
    }
    PeriodZeroWithoutSalesInRange(all, types, dateFrom, dateTo);
  }

  // ---------------------------------------------------------------------
  // The totals as a sum over the days of the period

  function Add(a: Totals, b: Totals): Totals
  {
    Totals(a.totalIncome + b.totalIncome, a.totalExpense + b.totalExpense, a.matchedQtyInRange + b.matchedQtyInRange)
  }

  /** One day with every type booked: the queues after the day and what it matched. */
  function DayMatch(queues: Queues, books: Books, date: Date, types: seq<string>): Walk
  {
    if |types| == 0 then Walk(queues, Totals(0.0, 0.0, 0))
    else
      var prev := DayMatch(queues, books, date, types[..|types| - 1]);
      var t := types[|types| - 1];
      var sold := DaySold(prev.queues, books, date, t);
      Walk(prev.queues[t := sold.queue], Book(prev.totals, sold))
  }

  /** The queues after the days, each day matched whether or not it lies in the period. */
  function Carried(queues: Queues, books: Books, dates: seq<Date>, types: seq<string>): Queues
  {
    if |dates| == 0 then queues
    else DayMatch(Carried(queues, books, dates[..|dates| - 1], types), books, dates[|dates| - 1], types).queues
  }

  /**
   * What the days inside the period match, each against the queues that all
   * the days before it left, inside the period or not.
   */
  function InPeriod(queues: Queues, books: Books, dates: seq<Date>, types: seq<string>, dateFrom: Date, dateTo: Date): Totals
  {
    if |dates| == 0 then Totals(0.0, 0.0, 0)
    else
      var n := |dates| - 1;
      var before := InPeriod(queues, books, dates[..n], types, dateFrom, dateTo);
      if InRange(dates[n], dateFrom, dateTo)
      then Add(before, DayMatch(Carried(queues, books, dates[..n], types), books, dates[n], types).totals)
      else before
  }

  /** A day's walk moves the queues as if booking, and books the day's matches exactly when it is in the period. */
  lemma {:induction false} OverTypesSplits(w: Walk, books: Books, date: Date, types: seq<string>, dateFrom: Date, dateTo: Date)
    ensures var day := DayMatch(w.queues, books, date, types);
      OverTypes(w, books, date, types, dateFrom, dateTo)
        == Walk(day.queues, if InRange(date, dateFrom, dateTo) then Add(w.totals, day.totals) else w.totals)
  {
    if |types| > 0 {
      var n := |types| - 1;
      OverTypesSplits(w, books, date, types[..n], dateFrom, dateTo);
      TypeStepSplits(OverTypes(w, books, date, types[..n], dateFrom, dateTo), DayMatch(w.queues, books, date, types[..n]),
                     w.totals, books, date, types[n], dateFrom, dateTo);
    }
  }

  /** One type's step of `OverTypesSplits`. */
  lemma TypeStepSplits(prev: Walk, day: Walk, base: Totals, books: Books, date: Date, t: string, dateFrom: Date, dateTo: Date)
    requires prev.queues == day.queues
    requires prev.totals == if InRange(date, dateFrom, dateTo) then Add(base, day.totals) else base
    ensures var sold := DaySold(day.queues, books, date, t);
      TypeStep(prev, books, date, t, dateFrom, dateTo)
        == Walk(day.queues[t := sold.queue], if InRange(date, dateFrom, dateTo) then Add(base, Book(day.totals, sold)) else base)
  {
    var sold := DaySold(day.queues, books, date, t);
    BookAdd(base, day.totals, sold);
  }

  lemma BookAdd(base: Totals, day: Totals, sold: Sold)
    ensures Book(Add(base, day), sold) == Add(base, Book(day, sold))
  {
  }

  lemma {:induction false} OverDatesSplits(w: Walk, books: Books, dates: seq<Date>, types: seq<string>, dateFrom: Date, dateTo: Date)
    ensures OverDates(w, books, dates, types, dateFrom, dateTo)
      == Walk(Carried(w.queues, books, dates, types), Add(w.totals, InPeriod(w.queues, books, dates, types, dateFrom, dateTo)))
  {
    if |dates| > 0 {
      var n := |dates| - 1;
      OverDatesSplits(w, books, dates[..n], types, dateFrom, dateTo);
      OverTypesSplits(OverDates(w, books, dates[..n], types, dateFrom, dateTo), books, dates[n], types, dateFrom, dateTo);
    }
  }

  /**
   * The period totals are the sum, over the walked days inside the period, of
   * what each day matches type by type, against queues carried through every
   * earlier day, including the days before the period: purchases made before
   * `dateFrom` feed the period's sales.
   */
  lemma PeriodIsSumOfDays(all: Books, types: seq<string>, dateFrom: Date, dateTo: Date)
    ensures var books := Prepare(all, types, Some(dateTo));
      PeriodTotals(all, types, dateFrom, dateTo)
        == InPeriod(EmptyQueues(types), books, AllDates(books.purchases, books.sales), types, dateFrom, dateTo)
  {
    var books := Prepare(all, types, Some(dateTo));
    OverDatesSplits(Start(types), books, AllDates(books.purchases, books.sales), types, dateFrom, dateTo);
  }

  /** Units of the types sold on the day, type by type. */
  function DaySoldQty(books: Books, date: Date, types: seq<string>): nat
  {
    if |types| == 0 then 0
    else DaySoldQty(books, date, types[..|types| - 1]) + SoldQty(Select(books.sales, date, types[|types| - 1]))
  }

  /** Units of the types sold on the days inside the period. */
  function SoldInPeriod(books: Books, dates: seq<Date>, types: seq<string>, dateFrom: Date, dateTo: Date): nat
  {
    if |dates| == 0 then 0
    else
      var n := |dates| - 1;
      SoldInPeriod(books, dates[..n], types, dateFrom, dateTo)
        + (if InRange(dates[n], dateFrom, dateTo) then DaySoldQty(books, dates[n], types) else 0)
  }

  lemma {:induction false} DayMatchWithinSold(queues: Queues, books: Books, date: Date, types: seq<string>)
    ensures DayMatch(queues, books, date, types).totals.matchedQtyInRange <= DaySoldQty(books, date, types)
  {
    if |types| > 0 {
      var n := |types| - 1;
      var t := types[n];
      DayMatchWithinSold(queues, books, date, types[..n]);
      var prev := DayMatch(queues, books, date, types[..n]);
      SellEachConserves(QueueOf(prev.queues, t) + Chunks(Select(books.purchases, date, t), books.rates),
                        Select(books.sales, date, t), books.rates);
    }
  }

  lemma {:induction false} InPeriodWithinSold(queues: Queues, books: Books, dates: seq<Date>, types: seq<string>,
                                              dateFrom: Date, dateTo: Date)
    ensures InPeriod(queues, books, dates, types, dateFrom, dateTo).matchedQtyInRange
         <= SoldInPeriod(books, dates, types, dateFrom, dateTo)
  {
    if |dates| > 0 {
      var n := |dates| - 1;
      InPeriodWithinSold(queues, books, dates[..n], types, dateFrom, dateTo);
      DayMatchWithinSold(Carried(queues, books, dates[..n], types), books, dates[n], types);
    }
  }

  /**
   * `matchedQtyInRange` never exceeds the units of the types sold on the
   * walked days of the period, however much was bought before.
   */
  lemma PeriodMatchedWithinSold(all: Books, types: seq<string>, dateFrom: Date, dateTo: Date)
    ensures var books := Prepare(all, types, Some(dateTo));
      PeriodTotals(all, types, dateFrom, dateTo).matchedQtyInRange
        <= SoldInPeriod(books, AllDates(books.purchases, books.sales), types, dateFrom, dateTo)
  {
    var books := Prepare(all, types, Some(dateTo));
    PeriodIsSumOfDays(all, types, dateFrom, dateTo);
    InPeriodWithinSold(EmptyQueues(types), books, AllDates(books.purchases, books.sales), types, dateFrom, dateTo);
  }

  // ---------------------------------------------------------------------
  // The matched quantity against the units bought

  /** Units held in the queues of the types, type by type. */
  function StockOver(queues: Queues, types: seq<string>): nat
  {
    if |types| == 0 then 0
    else StockOver(queues, types[..|types| - 1]) + Stock(QueueOf(queues, types[|types| - 1]))
  }

  /** Units of the types bought on the day, type by type. */
  function DayBoughtQty(books: Books, date: Date, types: seq<string>): nat
  {
    if |types| == 0 then 0
    else DayBoughtQty(books, date, types[..|types| - 1]) + BoughtQty(Select(books.purchases, date, types[|types| - 1]))
  }

  /** Units of the types bought on the days, day by day. */
  function BoughtOnDays(books: Books, dates: seq<Date>, types: seq<string>): nat
  {
    if |dates| == 0 then 0
    else BoughtOnDays(books, dates[..|dates| - 1], types) + DayBoughtQty(books, dates[|dates| - 1], types)
  }

  lemma {:induction false} StockOverOther(queues: Queues, types: seq<string>, t: string, q: seq<Chunk>)
    requires t !in types
    ensures StockOver(queues[t := q], types) == StockOver(queues, types)
  {
    if |types| > 0 {
      var n := |types| - 1;
      assert types[n] in types;
      StockOverOther(queues, types[..n], t, q);
    }
  }

  /** Replacing the queue of one of the (distinct) types changes their stock by the difference. */
  lemma {:induction false} StockOverUpdate(queues: Queues, types: seq<string>, t: string, q: seq<Chunk>)
    requires Unique(types) && t in types
    ensures StockOver(queues[t := q], types) + Stock(QueueOf(queues, t)) == StockOver(queues, types) + Stock(q)
  {
    var n := |types| - 1;
    var init := types[..n];
    assert types == init + [types[n]];
    assert Unique(init) by {
      forall i, j | 0 <= i < j < |init| ensures init[i] != init[j] {
        assert init[i] == types[i] && init[j] == types[j];
      }
    }
    if types[n] == t {
      assert t !in init by {
        forall k | 0 <= k < n ensures init[k] != t {
          assert init[k] == types[k];
        }
      }
      StockOverOther(queues, init, t, q);
    } else {
      assert t in init;
      StockOverUpdate(queues, init, t, q);
    }
  }

  lemma {:induction false} StockOverEmpty(types: seq<string>, selected: seq<string>)
    ensures StockOver(EmptyQueues(selected), types) == 0
  {
    if |types| > 0 {
      StockOverEmpty(types[..|types| - 1], selected);
    }
  }

  /**
   * One day's walk over some of the types adds to the stock the types hold
   * plus the units booked no more than that day's purchases of the walked
   * types: each unit matched left some queue, and only in-range matches are
   * booked.
   */
  lemma {:induction false} OverTypesWithinBought(w: Walk, books: Books, date: Date, walked: seq<string>,
                                                 types: seq<string>, dateFrom: Date, dateTo: Date)
    requires Unique(types) && forall t :: t in walked ==> t in types
    ensures var after := OverTypes(w, books, date, walked, dateFrom, dateTo);
      StockOver(after.queues, types) + after.totals.matchedQtyInRange
        <= StockOver(w.queues, types) + w.totals.matchedQtyInRange + DayBoughtQty(books, date, walked)
  {
    if |walked| > 0 {
      var n := |walked| - 1;
      var t := walked[n];
      assert t in walked;
      assert forall u :: u in walked[..n] ==> u in walked;
      OverTypesWithinBought(w, books, date, walked[..n], types, dateFrom, dateTo);
      TypeStepWithinBought(OverTypes(w, books, date, walked[..n], dateFrom, dateTo), books, date, t, types, dateFrom, dateTo);
    }
  }

  /** One type's step of `OverTypesWithinBought`. */
  lemma TypeStepWithinBought(prev: Walk, books: Books, date: Date, t: string, types: seq<string>,
                             dateFrom: Date, dateTo: Date)
    requires Unique(types) && t in types
    ensures var next := TypeStep(prev, books, date, t, dateFrom, dateTo);
      StockOver(next.queues, types) + next.totals.matchedQtyInRange
        <= StockOver(prev.queues, types) + prev.totals.matchedQtyInRange + BoughtQty(Select(books.purchases, date, t))
  {
    var sold := DaySold(prev.queues, books, date, t);
    DaySoldConserves(prev.queues, books, date, t);
    StockOverUpdate(prev.queues, types, t, sold.queue);
  }

  lemma {:induction false} OverDatesWithinBought(w: Walk, books: Books, dates: seq<Date>, types: seq<string>,
                                                 dateFrom: Date, dateTo: Date)
    requires Unique(types)
    ensures var after := OverDates(w, books, dates, types, dateFrom, dateTo);
      StockOver(after.queues, types) + after.totals.matchedQtyInRange
        <= StockOver(w.queues, types) + w.totals.matchedQtyInRange + BoughtOnDays(books, dates, types)
  {
    if |dates| > 0 {
      var n := |dates| - 1;
      OverDatesWithinBought(w, books, dates[..n], types, dateFrom, dateTo);
      OverTypesWithinBought(OverDates(w, books, dates[..n], types, dateFrom, dateTo), books, dates[n], types, types,
                            dateFrom, dateTo);
    }
  }

  /** Units bought by the purchases of the types on the day. */
  function BoughtOn(purchases: seq<Tx>, date: Date, types: seq<string>): nat
  {
    if |purchases| == 0 then 0
    else
      var last := purchases[|purchases| - 1];
      BoughtOn(purchases[..|purchases| - 1], date, types)
        + (if last.date == date && last.itemType in types then last.quantity else 0)
  }

  /** Units bought by the purchases of the types on any of the days. */
  function BoughtIn(purchases: seq<Tx>, dates: seq<Date>, types: seq<string>): nat
  {
    if |purchases| == 0 then 0
    else
      var last := purchases[|purchases| - 1];
      BoughtIn(purchases[..|purchases| - 1], dates, types)
        + (if last.date in dates && last.itemType in types then last.quantity else 0)
  }

  /** A type not among the others adds exactly its own purchases of the day. */
  lemma {:induction false} BoughtOnSplits(purchases: seq<Tx>, date: Date, types: seq<string>, others: seq<string>, t: string)
    requires t !in others
    requires forall u :: u in types <==> u in others || u == t
    ensures BoughtOn(purchases, date, types) == BoughtOn(purchases, date, others) + BoughtQty(Select(purchases, date, t))
  {
    if |purchases| > 0 {
      BoughtOnSplits(purchases[..|purchases| - 1], date, types, others, t);
      SelectBoughtLast(purchases, date, t);
    }
  }

  /** The last purchase adds its units to the day's selection exactly when it is of that day and type. */
  lemma SelectBoughtLast(purchases: seq<Tx>, date: Date, t: string)
    requires |purchases| > 0
    ensures var last := purchases[|purchases| - 1];
      BoughtQty(Select(purchases, date, t))
        == BoughtQty(Select(purchases[..|purchases| - 1], date, t)) + (if last.date == date && last.itemType == t then last.quantity else 0)
  {
    var last := purchases[|purchases| - 1];
    var init := Select(purchases[..|purchases| - 1], date, t);
    if last.date == date && last.itemType == t {
      assert Select(purchases, date, t) == init + [last];
      assert (init + [last])[..|init|] == init;
    } else {
      assert Select(purchases, date, t) == init;
    }
  }

  /** A day not among the others adds exactly its own purchases of the types. */
  lemma {:induction false} BoughtInSplits(purchases: seq<Tx>, others: seq<Date>, date: Date, types: seq<string>)
    requires date !in others
    ensures BoughtIn(purchases, others + [date], types)
      == BoughtIn(purchases, others, types) + BoughtOn(purchases, date, types)
  {
    if |purchases| > 0 {
      var last := purchases[|purchases| - 1];
      BoughtInSplits(purchases[..|purchases| - 1], others, date, types);
      assert last.date in others + [date] <==> last.date in others || last.date == date;
    }
  }

  lemma {:induction false} DayBoughtIsBoughtOn(books: Books, date: Date, types: seq<string>)
    requires Unique(types)
    ensures DayBoughtQty(books, date, types) == BoughtOn(books.purchases, date, types)
  {
    if |types| == 0 {
      BoughtOnNone(books.purchases, date);
    } else {
      var n := |types| - 1;
      var init := types[..n];
      assert types == init + [types[n]];
      assert types[n] !in init && Unique(init) by {
        forall i, j | 0 <= i < j < |types| ensures types[i] != types[j] {
        }
        forall k | 0 <= k < n ensures init[k] != types[n] {
          assert init[k] == types[k];
        }
        forall i, j | 0 <= i < j < |init| ensures init[i] != init[j] {
          assert init[i] == types[i] && init[j] == types[j];
        }
      }
      DayBoughtIsBoughtOn(books, date, init);
      BoughtOnSplits(books.purchases, date, types, init, types[n]);
    }
  }

  lemma {:induction false} BoughtOnNone(purchases: seq<Tx>, date: Date)
    ensures BoughtOn(purchases, date, []) == 0
  {
    if |purchases| > 0 {
      BoughtOnNone(purchases[..|purchases| - 1], date);
    }
  }

  lemma {:induction false} BoughtInNone(purchases: seq<Tx>, types: seq<string>)
    ensures BoughtIn(purchases, [], types) == 0
  {
    if |purchases| > 0 {
      BoughtInNone(purchases[..|purchases| - 1], types);
    }
  }

  /** With distinct types and days, the day-by-day, type-by-type count is the count of the purchases they cover. */
  lemma {:induction false} BoughtOnDaysIsBoughtIn(books: Books, dates: seq<Date>, types: seq<string>)
    requires Unique(types) && NoRepeats(dates)
    ensures BoughtOnDays(books, dates, types) == BoughtIn(books.purchases, dates, types)
  {
    if |dates| == 0 {
      BoughtInNone(books.purchases, types);
    } else {
      var n := |dates| - 1;
      LastIsNew(dates);
      assert dates == dates[..n] + [dates[n]];
      BoughtOnDaysIsBoughtIn(books, dates[..n], types);
      DayBoughtIsBoughtOn(books, dates[n], types);
      BoughtInSplits(books.purchases, dates[..n], dates[n], types);
    }
  }

  /** Days and types that cover every purchase count all of them. */
  lemma {:induction false} BoughtInCovers(purchases: seq<Tx>, dates: seq<Date>, types: seq<string>)
    requires forall x :: x in purchases ==> x.date in dates && x.itemType in types
    ensures BoughtIn(purchases, dates, types) == BoughtQty(purchases)
  {
    if |purchases| > 0 {
      var n := |purchases| - 1;
      assert purchases[n] in purchases;
      assert forall x :: x in purchases[..n] ==> x in purchases;
      BoughtInCovers(purchases[..n], dates, types);
    }
  }

  /**
   * `matchedQtyInRange`, shown as the units bought in the period, never
   * exceeds the units of the selected types bought up to the period's end,
   * when no type is selected twice (a type listed twice is walked twice, and
   * its purchases are queued twice).
   */
  lemma PeriodMatchedWithinBought(all: Books, types: seq<string>, dateFrom: Date, dateTo: Date)
    requires Unique(types)
    ensures PeriodTotals(all, types, dateFrom, dateTo).matchedQtyInRange
      <= BoughtQty(Prepare(all, types, Some(dateTo)).purchases)
  {
    var books := Prepare(all, types, Some(dateTo));
    var dates := AllDates(books.purchases, books.sales);
    OverDatesWithinBought(Start(types), books, dates, types, dateFrom, dateTo);
    StockOverEmpty(types, types);
    AllDatesAscending(books.purchases, books.sales);
    assert NoRepeats(dates) by {
      forall i, j | 0 <= i < j < |dates| ensures dates[i] != dates[j] {
        assert Lt(dates[i], dates[j]);
      }
    }
    BoughtOnDaysIsBoughtIn(books, dates, types);
    AllDatesCoverTransactions(books.purchases, books.sales);
    BoughtInCovers(books.purchases, dates, types);
  }

  // A worked case: one purchase before the period, its sale inside it.

  lemma ScopeOne(x: Tx, types: seq<string>, cap: Option<Date>)
    ensures Scope([x], types, cap) == if InScope(x, types, cap) then [x] else []
  {
    assert [x][..0] == [];
  }

  lemma SortOne(x: Tx)
    ensures SortByDateTime([x]) == [x]
  {
    assert [x][..0] == [];
  }

  lemma PrepareOneEach(p: Tx, s: Tx, dateTo: Date)
    requires s.itemType == p.itemType
    requires Le(p.date, dateTo) && Le(s.date, dateTo)
    ensures Prepare(Books([p], [s], []), [p.itemType], Some(dateTo)) == Books([p], [s], [])
  {
    ScopeOne(p, [p.itemType], Some(dateTo));
    ScopeOne(s, [p.itemType], Some(dateTo));
    SortOne(p);
    SortOne(s);
  }

  lemma SortTwo<T>(a: T, b: T, lt: (T, T) -> bool)
    requires !lt(b, a)
    ensures Sort([a, b], lt) == [a, b]
  {
    assert [a, b][..1] == [a];
    assert [a][..0] == [];
    assert Sort([a], lt) == [a];
  }

  lemma DistinctTwo(a: Date, b: Date)
    requires a != b
    ensures Distinct([a, b]) == [a, b]
  {
    assert [a, b][..1] == [a];
    assert [a][..0] == [];
    assert Distinct([a]) == [a];
  }

  lemma DatesTwo(p: Tx, s: Tx)
    requires Lt(p.date, s.date)
    ensures AllDates([p], [s]) == [p.date, s.date]
  {
    assert DatesOf([p]) + DatesOf([s]) == [p.date, s.date] by {
      assert [p][..0] == [] && [s][..0] == [];
    }
    DistinctTwo(p.date, s.date);
    assert !Before(s.date, p.date) by {
      if Lt(s.date, p.date) {
        LtTransitive(p.date, s.date, p.date);
      }
    }
    SortTwo(p.date, s.date, Before);
  }

  lemma OverOneType(w: Walk, books: Books, date: Date, t: string, dateFrom: Date, dateTo: Date)
    ensures OverTypes(w, books, date, [t], dateFrom, dateTo) == TypeStep(w, books, date, t, dateFrom, dateTo)
  {
    assert [t][..0] == [];
  }

  lemma OverTwoDays(w: Walk, books: Books, d1: Date, d2: Date, types: seq<string>, dateFrom: Date, dateTo: Date)
    ensures OverDates(w, books, [d1, d2], types, dateFrom, dateTo)
      == OverTypes(OverTypes(w, books, d1, types, dateFrom, dateTo), books, d2, types, dateFrom, dateTo)
  {
    assert [d1, d2][..1] == [d1];
    assert [d1][..0] == [];
    assert OverDates(w, books, [d1], types, dateFrom, dateTo) == OverTypes(w, books, d1, types, dateFrom, dateTo);
  }

  /** The day of the purchase, before the period: the purchase is queued, nothing is booked. */
  lemma QueueBeforePeriod(p: Tx, s: Tx, dateFrom: Date, dateTo: Date)
    requires s.itemType == p.itemType && p.date != s.date
    requires Lt(p.date, dateFrom)
    ensures TypeStep(Start([p.itemType]), Books([p], [s], []), p.date, p.itemType, dateFrom, dateTo)
      == Walk(map[p.itemType := [ChunkOf(p, [])]], Totals(0.0, 0.0, 0))
  {
    var t := p.itemType;
    assert !InRange(p.date, dateFrom, dateTo) by {
      if Le(dateFrom, p.date) {
        LeAntisymmetric(p.date, dateFrom);
      }
    }
    assert [p][..0] == [] && [s][..0] == [];
    assert Select([p], p.date, t) == [p];
    assert Select([s], p.date, t) == [];
    assert Chunks([p], []) == [ChunkOf(p, [])];
    assert QueueOf(EmptyQueues([t]), t) == [];
    assert EmptyQueues([t])[t := [ChunkOf(p, [])]] == map[t := [ChunkOf(p, [])]];
  }

  /** A sale of exactly what the one chunk holds takes all of it. */
  lemma SellWhole(chunk: Chunk, s: Tx, rates: seq<Rate>)
    requires chunk.qty == s.quantity
    ensures SellEach([chunk], [s], rates)
      == Sold([], SaleAmountInRub(s, rates), Worth(chunk.qty, chunk.costPerUnit), s.quantity)
  {
    var take := Take(chunk.id, chunk.qty, chunk.costPerUnit);
    assert Withdraw([chunk], s.quantity) == Consumed([], [take]) by {
      assert [chunk][1..] == [];
    }
    assert [take][1..] == [];
    WorthOfShare(s.quantity, SaleAmountInRub(s, rates));
    assert Revenue([take], UnitPrice(s, rates)) == SaleAmountInRub(s, rates);
    assert Cost([take]) == Worth(chunk.qty, chunk.costPerUnit);
    assert Matched([take]) == s.quantity;
    assert [s][..0] == [];
    assert SellEach([chunk], [], rates) == Sold([chunk], 0.0, 0.0, 0);
  }

  /** The day of the sale, inside the period: the carried purchase is taken and booked. */
  lemma SellInPeriod(p: Tx, s: Tx, dateFrom: Date, dateTo: Date)
    requires s.itemType == p.itemType && p.date != s.date && s.quantity == p.quantity
    requires InRange(s.date, dateFrom, dateTo)
    ensures TypeStep(Walk(map[p.itemType := [ChunkOf(p, [])]], Totals(0.0, 0.0, 0)), Books([p], [s], []),
                     s.date, p.itemType, dateFrom, dateTo).totals
      == Totals(SaleAmountInRub(s, []), AmountInRub(p, []), s.quantity)
  {
    var t := p.itemType;
    var chunk := ChunkOf(p, []);
    assert [p][..0] == [] && [s][..0] == [];
    assert Select([p], s.date, t) == [];
    assert Select([s], s.date, t) == [s];
    assert QueueOf(map[t := [chunk]], t) + Chunks([], []) == [chunk];
    SellWhole(chunk, s, []);
  }

  /**
   * A purchase made before the period and sold inside it: the period books the
   * sale's income and the purchase's cost, though the purchase is outside it.
   */
  lemma PurchaseBeforePeriodFeedsSale(p: Tx, s: Tx, dateFrom: Date, dateTo: Date)
    requires s.itemType == p.itemType && s.quantity == p.quantity
    requires Lt(p.date, dateFrom) && InRange(s.date, dateFrom, dateTo)
    ensures PeriodTotals(Books([p], [s], []), [p.itemType], dateFrom, dateTo)
      == Totals(SaleAmountInRub(s, []), AmountInRub(p, []), s.quantity)
  {
    LeTransitive(p.date, dateFrom, s.date);
    if p.date == s.date {
      LeAntisymmetric(p.date, dateFrom);
    }
    LeTransitive(p.date, s.date, dateTo);
    PrepareOneEach(p, s, dateTo);
    DatesTwo(p, s);
    var books := Books([p], [s], []);
    var t := p.itemType;
    OverTwoDays(Start([t]), books, p.date, s.date, [t], dateFrom, dateTo);
    OverOneType(Start([t]), books, p.date, t, dateFrom, dateTo);
    QueueBeforePeriod(p, s, dateFrom, dateTo);
    OverOneType(Walk(map[t := [ChunkOf(p, [])]], Totals(0.0, 0.0, 0)), books, s.date, t, dateFrom, dateTo);
    SellInPeriod(p, s, dateFrom, dateTo);
  }

  lemma ExampleDays()
    ensures Lt("2024-01-10", "2024-02-01")
    ensures InRange("2024-02-10", "2024-02-01", "2024-02-29")
  {
  }

  lemma ExampleValues(p: Tx, s: Tx)
    requires p == Tx(1, "A", RUB, 50.0, 1, "2024-01-10", "")
    requires s == Tx(2, "A", RUB, 100.0, 1, "2024-02-10", "")
    ensures AmountInRub(p, []) == 50.0 && SaleAmountInRub(s, []) == 97.0
  {
  }

  /** One unit bought in January at 50 RUB, sold on 10 February for 100 RUB: February books 97 and 50. */
  lemma PurchaseBeforePeriodIsExpense()
    ensures var p := Tx(1, "A", RUB, 50.0, 1, "2024-01-10", "");
      var s := Tx(2, "A", RUB, 100.0, 1, "2024-02-10", "");
      PeriodTotals(Books([p], [s], []), ["A"], "2024-02-01", "2024-02-29") == Totals(97.0, 50.0, 1)
  {
    var p := Tx(1, "A", RUB, 50.0, 1, "2024-01-10", "");
    var s := Tx(2, "A", RUB, 100.0, 1, "2024-02-10", "");
    ExampleDays();
    PurchaseBeforePeriodFeedsSale(p, s, "2024-02-01", "2024-02-29");
    ExampleValues(p, s);
  }
}
