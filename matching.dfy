/**
 * The pieces the three matching passes share: turning a purchase into a queue
 * chunk, picking one day's transactions of one type, the list of days to walk,
 * and matching the sales of one type on one day one sale at a time, which is
 * how the period totals and the per-type daily profits book a sale.
 */
module Matching {
  import opened Dates
  import opened Records
  import opened Sorting
  import opened Valuation
  import opened Ordering
  import opened Fifo

  /** `qty` units at `unit` RUB each. */
  function Worth(qty: nat, unit: real): real
  {
    qty as real * unit
  }

  /** What the queue records for a purchase: its quantity at its RUB cost per unit. */
  function ChunkOf(p: Tx, rates: seq<Rate>): (c: Chunk)
    ensures c.id == p.id && c.qty == p.quantity > 0 && c.date == p.date
    ensures Worth(c.qty, c.costPerUnit) == AmountInRub(p, rates)
  {
    WorthOfShare(p.quantity, AmountInRub(p, rates));
    Chunk(p.id, p.quantity, AmountInRub(p, rates) / p.quantity as real, p.date, EffectiveTime(p.time))
  }

  /** The chunks of the purchases, in their order. */
  function Chunks(purchases: seq<Tx>, rates: seq<Rate>): (r: seq<Chunk>)
    ensures |r| == |purchases|
    ensures forall i :: 0 <= i < |r| ==> r[i] == ChunkOf(purchases[i], rates)
  {
    if |purchases| == 0 then []
    else Chunks(purchases[..|purchases| - 1], rates) + [ChunkOf(purchases[|purchases| - 1], rates)]
  }

  /** Units bought by the purchases. */
  function BoughtQty(purchases: seq<Tx>): nat
  {
    if |purchases| == 0 then 0
    else BoughtQty(purchases[..|purchases| - 1]) + purchases[|purchases| - 1].quantity
  }

  /** The chunks of a list of purchases hold exactly the units bought, each chunk at least one. */
  lemma {:induction false} ChunksHoldBought(purchases: seq<Tx>, rates: seq<Rate>)
    ensures Stock(Chunks(purchases, rates)) == BoughtQty(purchases)
    ensures AllPositive(Chunks(purchases, rates))
  {
    if |purchases| > 0 {
      var n := |purchases| - 1;
      ChunksHoldBought(purchases[..n], rates);
      StockAppend(Chunks(purchases[..n], rates), ChunkOf(purchases[n], rates));
    }
  }

  /** `dayPurchases.forEach(p => carryover[type].push(...))`. */
  method EnqueueAll(queue: seq<Chunk>, purchases: seq<Tx>, rates: seq<Rate>) returns (q: seq<Chunk>)
    ensures q == queue + Chunks(purchases, rates)
  {
    q := queue;
    for i := 0 to |purchases|
      invariant q == queue + Chunks(purchases[..i], rates)
    {
      assert purchases[..i + 1][..i] == purchases[..i];
      q := q + [ChunkOf(purchases[i], rates)];
    }
    assert purchases[..|purchases|] == purchases;
  }

  /** `txs.filter(t => t.date === dateStr && t.itemType === type)`. */
  function Select(txs: seq<Tx>, date: Date, itemType: string): (r: seq<Tx>)
    ensures |r| <= |txs|
    ensures forall x :: x in r <==> x in txs && x.date == date && x.itemType == itemType
    ensures forall x :: multiset(r)[x] == if x.date == date && x.itemType == itemType then multiset(txs)[x] else 0
  {
    if |txs| == 0 then []
    else
      var last := txs[|txs| - 1];
      var init := Select(txs[..|txs| - 1], date, itemType);
      assert txs == txs[..|txs| - 1] + [last];
      assert forall x :: x in txs <==> x in txs[..|txs| - 1] || x == last;
      if last.date == date && last.itemType == itemType then init + [last] else init
  }

  /** A transaction a pass reads: one of the selected types, on or before the cap if there is one. */
  predicate InScope(x: Tx, types: seq<string>, cap: Option<Date>)
  {
    x.itemType in types && (cap.None? || Le(x.date, cap.value))
  }

  /** `txs.filter(t => types.includes(t.itemType) && t.date <= cap)`, keeping the order. */
  function Scope(txs: seq<Tx>, types: seq<string>, cap: Option<Date>): (r: seq<Tx>)
    ensures |r| <= |txs|
    ensures forall x :: x in r <==> x in txs && InScope(x, types, cap)
    ensures forall x :: multiset(r)[x] == if InScope(x, types, cap) then multiset(txs)[x] else 0
  {
    if |txs| == 0 then []
    else
      var last := txs[|txs| - 1];
      var init := Scope(txs[..|txs| - 1], types, cap);
      assert txs == txs[..|txs| - 1] + [last];
      assert forall x :: x in txs <==> x in txs[..|txs| - 1] || x == last;
      if InScope(last, types, cap) then init + [last] else init
  }

  /**
   * `txs.filter(...).sort(sortByDateTime)`: each transaction in scope as often
   * as it occurs, none other, in (day, time) order.
   */
  lemma SortedScope(txs: seq<Tx>, types: seq<string>, cap: Option<Date>)
    ensures var s := SortByDateTime(Scope(txs, types, cap));
      && (forall x :: multiset(s)[x] == if InScope(x, types, cap) then multiset(txs)[x] else 0)
      && (forall x :: x in s <==> x in txs && InScope(x, types, cap))
      && (forall i, j :: 0 <= i < j < |s| ==> NotLater(s[i], s[j]))
  {
    var scoped := Scope(txs, types, cap);
    var s := SortByDateTime(scoped);
    SortByDateTimeOrders(scoped);
    forall x ensures x in s <==> x in scoped {
      assert x in s <==> x in multiset(s);
      assert x in scoped <==> x in multiset(scoped);
    }
  }

  /**
   * `data.purchases.filter(...).sort(sortByDateTime)` and the same for the
   * sales: the transactions in scope, each as often as it occurs, in (day,
   * time) order; the rates as they are.
   */
  function Prepare(all: Books, types: seq<string>, cap: Option<Date>): (books: Books)
    ensures books.rates == all.rates
    ensures forall x :: multiset(books.purchases)[x] == if InScope(x, types, cap) then multiset(all.purchases)[x] else 0
    ensures forall x :: multiset(books.sales)[x] == if InScope(x, types, cap) then multiset(all.sales)[x] else 0
    ensures forall x :: x in books.purchases <==> x in all.purchases && InScope(x, types, cap)
    ensures forall x :: x in books.sales <==> x in all.sales && InScope(x, types, cap)
    ensures forall i, j :: 0 <= i < j < |books.purchases| ==> NotLater(books.purchases[i], books.purchases[j])
    ensures forall i, j :: 0 <= i < j < |books.sales| ==> NotLater(books.sales[i], books.sales[j])
  {
    SortedScope(all.purchases, types, cap);
    SortedScope(all.sales, types, cap);
    Books(SortByDateTime(Scope(all.purchases, types, cap)),
          SortByDateTime(Scope(all.sales, types, cap)),
          all.rates)
  }

  /** The FIFO queue of each item type. */
  type Queues = map<string, seq<Chunk>>

  /** `types.forEach(type => carryover[type] = [])`. */
  function EmptyQueues(types: seq<string>): (m: Queues)
    ensures forall t :: t in m <==> t in types
    ensures forall t :: t in m ==> m[t] == []
  {
    map t | t in types :: []
  }

  /** `carryover[type]`, an absent type reading as an empty queue. */
  function QueueOf(queues: Queues, t: string): seq<Chunk>
  {
    if t in queues then queues[t] else []
  }

  /** Every queue holds only non-empty chunks. */
  ghost predicate QueuesPositive(queues: Queues)
  {
    forall t :: t in queues ==> AllPositive(queues[t])
  }

  /** No transaction on the day, nothing selected. */
  lemma {:induction false} SelectNone(txs: seq<Tx>, date: Date, itemType: string)
    requires forall x :: x in txs ==> x.date != date
    ensures Select(txs, date, itemType) == []
  {
    if |txs| > 0 {
      assert txs[|txs| - 1] in txs;
      SelectNone(txs[..|txs| - 1], date, itemType);
    }
  }

  /** `[...new Set(dates)]`: each date once, at its first occurrence. */
  function Distinct(dates: seq<Date>): (r: seq<Date>)
    ensures forall d :: d in r <==> d in dates
    ensures forall i, j :: 0 <= i < j < |r| ==> r[i] != r[j]
  {
    if |dates| == 0 then []
    else
      var init := Distinct(dates[..|dates| - 1]);
      var last := dates[|dates| - 1];
      assert forall x :: x in dates <==> x in dates[..|dates| - 1] || x == last by {
        assert dates == dates[..|dates| - 1] + [last];
      }
      if last in init then init else init + [last]
  }

  function DatesOf(txs: seq<Tx>): (r: seq<Date>)
    ensures |r| == |txs|
    ensures forall i :: 0 <= i < |r| ==> r[i] == txs[i].date
  {
    if |txs| == 0 then [] else DatesOf(txs[..|txs| - 1]) + [txs[|txs| - 1].date]
  }

  /** `.sort()` without a comparator: ascending string order. */
  predicate Before(a: Date, b: Date)
  {
    Lt(a, b)
  }

  lemma BeforeIsStrictOrder()
    ensures StrictOrder(Before)
  {
    forall a, b, c | Before(a, b) && Before(b, c) ensures Before(a, c) {
      LtTransitive(a, b, c);
    }
  }

  /** The days a pass walks: every day some purchase or sale falls on, once each, ascending. */
  function AllDates(first: seq<Tx>, second: seq<Tx>): seq<Date>
  {
    Sort(Distinct(DatesOf(first) + DatesOf(second)), Before)
  }

  /** The days are exactly the transactions' days. */
  lemma AllDatesCoverTransactions(first: seq<Tx>, second: seq<Tx>)
    ensures forall d :: d in AllDates(first, second) <==>
      (exists x :: x in first && x.date == d) || (exists x :: x in second && x.date == d)
  {
    var all := DatesOf(first) + DatesOf(second);
    var distinct := Distinct(all);
    var r := AllDates(first, second);
    forall d ensures d in r <==> d in distinct {
      assert d in r <==> d in multiset(r);
      assert d in distinct <==> d in multiset(distinct);
    }
    forall d ensures d in all <==>
      (exists x :: x in first && x.date == d) || (exists x :: x in second && x.date == d)
    {
      DatesOfMember(first, d);
      DatesOfMember(second, d);
      assert d in all <==> d in DatesOf(first) || d in DatesOf(second);
    }
  }

  lemma DatesOfMember(txs: seq<Tx>, d: Date)
    ensures d in DatesOf(txs) <==> exists x :: x in txs && x.date == d
  {
    if d in DatesOf(txs) {
      var k :| 0 <= k < |txs| && DatesOf(txs)[k] == d;
      assert txs[k] in txs;
    }
    if exists x :: x in txs && x.date == d {
      var x :| x in txs && x.date == d;
      var k :| 0 <= k < |txs| && txs[k] == x;
      assert DatesOf(txs)[k] == d;
    }
  }

  /** Each day comes once, in strictly ascending order. */
  lemma AllDatesAscending(first: seq<Tx>, second: seq<Tx>)
    ensures forall i, j :: 0 <= i < j < |AllDates(first, second)| ==>
      Lt(AllDates(first, second)[i], AllDates(first, second)[j])
  {
    var distinct := Distinct(DatesOf(first) + DatesOf(second));
    var r := AllDates(first, second);
    BeforeIsStrictOrder();
    SortSorted(distinct, Before);
    forall i, j | 0 <= i < j < |r| ensures Lt(r[i], r[j]) {
      assert !Before(r[j], r[i]);
      DistinctAfterSort(distinct, r, i, j);
      LeTotal(r[i], r[j]);
    }
  }

  lemma DistinctAfterSort(s: seq<Date>, r: seq<Date>, i: int, j: int)
    requires forall a, b :: 0 <= a < b < |s| ==> s[a] != s[b]
    requires multiset(r) == multiset(s)
    requires 0 <= i < j < |r|
    ensures r[i] != r[j]
  {
    if r[i] == r[j] {
      assert multiset(r)[r[i]] >= 2 by {
        assert r == r[..i] + [r[i]] + r[i + 1..j] + [r[j]] + r[j + 1..];
      }
      DistinctCountsOnce(s, r[i]);
    }
  }

  lemma {:induction false} DistinctCountsOnce(s: seq<Date>, d: Date)
    requires forall a, b :: 0 <= a < b < |s| ==> s[a] != s[b]
    ensures multiset(s)[d] <= 1
  {
    if |s| > 0 {
      var init := s[..|s| - 1];
      assert s == init + [s[|s| - 1]];
      DistinctCountsOnce(init, d);
      if s[|s| - 1] == d {
        assert d !in init;
      }
    }
  }

  /** RUB received per unit of a sale. */
  function UnitPrice(sale: Tx, rates: seq<Rate>): real
  {
    SaleAmountInRub(sale, rates) / sale.quantity as real
  }

  /** `q` units at the `q`-th part of an amount are worth that amount. */
  lemma WorthOfShare(q: nat, amount: real)
    requires q > 0
    ensures Worth(q, amount / q as real) == amount
  {
  }

  /** The income of the takes of one sale: each unit taken is worth the sale's unit price. */
  function Revenue(takes: seq<Take>, unit: real): real
  {
    if |takes| == 0 then 0.0 else Worth(takes[0].qty, unit) + Revenue(takes[1..], unit)
  }

  lemma WorthAdds(a: nat, b: nat, unit: real)
    ensures Worth(a + b, unit) == Worth(a, unit) + Worth(b, unit)
  {
    assert (a + b) as real * unit == a as real * unit + b as real * unit;
  }

  /** Income is booked for matched units only: the matched quantity times the unit price. */
  lemma {:induction false} RevenueIsMatchedWorth(takes: seq<Take>, unit: real)
    ensures Revenue(takes, unit) == Worth(Matched(takes), unit)
  {
    if |takes| > 0 {
      RevenueIsMatchedWorth(takes[1..], unit);
      WorthAdds(takes[0].qty, Matched(takes[1..]), unit);
    }
  }

  /** What a day shows: whether anything was booked, and income minus expense. */
  datatype DayProfit = DayProfit(hasData: bool, profit: real)

  /** A day's running `dayIncome` and `dayExpense`. */
  datatype Booking = Booking(income: real, expense: real)

  /** `if (dayIncome !== 0 || dayExpense !== 0) result[dateStr] = { hasData: true, profit: ... }`. */
  function Record(result: map<Date, DayProfit>, date: Date, b: Booking): map<Date, DayProfit>
  {
    if b.income != 0.0 || b.expense != 0.0
    then result[date := DayProfit(true, b.income - b.expense)]
    else result
  }

  /** The statement form of `Record`. */
  method RecordDay(before: map<Date, DayProfit>, date: Date, b: Booking) returns (result: map<Date, DayProfit>)
    ensures result == Record(before, date, b)
  {
    result := before;
    if b.income != 0.0 || b.expense != 0.0 {
      result := result[date := DayProfit(true, b.income - b.expense)];
    }
  }

  /** The day is in `result` iff it booked income or expense, and then shows their difference. */
  ghost predicate Booked(result: map<Date, DayProfit>, date: Date, b: Booking)
  {
    && (date in result <==> b.income != 0.0 || b.expense != 0.0)
    && (date in result ==> result[date] == DayProfit(true, b.income - b.expense))
  }

  /** Each day recorded from its booking, in order. */
  function RecordDays(result: map<Date, DayProfit>, dates: seq<Date>, bookings: seq<Booking>): map<Date, DayProfit>
    requires |bookings| == |dates|
  {
    if |dates| == 0 then result
    else
      var n := |dates| - 1;
      Record(RecordDays(result, dates[..n], bookings[..n]), dates[n], bookings[n])
  }

  /** Recording another day leaves this day's entry as it was. */
  lemma BookedSurvives(result: map<Date, DayProfit>, other: Date, otherBooking: Booking, date: Date, b: Booking)
    requires Booked(result, date, b) && other != date
    ensures Booked(Record(result, other, otherBooking), date, b)
  {
  }

  /**
   * Recording distinct days one after the other gives each day the entry its
   * own booking calls for, and no entry for any other day.
   */
  lemma {:induction false} RecordDaysEntries(dates: seq<Date>, bookings: seq<Booking>)
    requires |bookings| == |dates|
    requires forall i, j :: 0 <= i < j < |dates| ==> dates[i] != dates[j]
    ensures forall i :: 0 <= i < |dates| ==> Booked(RecordDays(map[], dates, bookings), dates[i], bookings[i])
    ensures forall d :: d in RecordDays(map[], dates, bookings) ==> d in dates
  {
    if |dates| > 0 {
      var n := |dates| - 1;
      RecordDaysEntries(dates[..n], bookings[..n]);
      var prev := RecordDays(map[], dates[..n], bookings[..n]);
      forall i | 0 <= i < n ensures Booked(RecordDays(map[], dates, bookings), dates[i], bookings[i]) {
        assert dates[..n][i] == dates[i] && bookings[..n][i] == bookings[i];
        BookedSurvives(prev, dates[n], bookings[n], dates[i], bookings[i]);
      }
      forall d | d in RecordDays(map[], dates, bookings) ensures d in dates {
        if d != dates[n] {
          var k :| 0 <= k < n && dates[..n][k] == d;
          assert dates[k] == d;
        }
      }
    }
  }

  /** The queue after some sales, with what they booked. */
  /** The bookings of the days, in their order. */
  function BookingsOf<D>(days: seq<D>, booking: D -> Booking): (r: seq<Booking>)
    ensures |r| == |days|
    ensures forall i :: 0 <= i < |days| ==> r[i] == booking(days[i])
  {
    seq(|days|, i requires 0 <= i < |days| => booking(days[i]))
  }

  lemma BookingsPrefix<D>(days: seq<D>, booking: D -> Booking, n: nat)
    requires n <= |days|
    ensures BookingsOf(days, booking)[..n] == BookingsOf(days[..n], booking)
  {
  }

  datatype Sold = Sold(queue: seq<Chunk>, income: real, expense: real, matched: nat)

  /**
   * One sale: `min(head, remaining)` units at a time from the head of the
   * queue, each unit taken earning the unit price and costing its chunk's
   * cost; the unmatched rest of the sale books nothing.
   */
  function SellOne(before: Sold, sale: Tx, rates: seq<Rate>): Sold
  {
    var c := Withdraw(before.queue, sale.quantity);
    Sold(c.rest,
         before.income + Revenue(c.takes, UnitPrice(sale, rates)),
         before.expense + Cost(c.takes),
         before.matched + Matched(c.takes))
  }

  /** `daySales.forEach(...)`: the sales one after the other. */
  function SellEach(queue: seq<Chunk>, sales: seq<Tx>, rates: seq<Rate>): Sold
  {
    if |sales| == 0 then Sold(queue, 0.0, 0.0, 0)
    else SellOne(SellEach(queue, sales[..|sales| - 1], rates), sales[|sales| - 1], rates)
  }

  /** The loop over one day's sales of one type. */
  method SellDay(queue: seq<Chunk>, sales: seq<Tx>, rates: seq<Rate>) returns (r: Sold)
    ensures r == SellEach(queue, sales, rates)
  {
    r := Sold(queue, 0.0, 0.0, 0);
    for i := 0 to |sales|
      invariant r == SellEach(queue, sales[..i], rates)
    {
      assert sales[..i + 1][..i] == sales[..i];
      var s := sales[i];
      var rest, takes := Consume(r.queue, s.quantity);
      r := Sold(rest,
                r.income + Revenue(takes, UnitPrice(s, rates)),
                r.expense + Cost(takes),
                r.matched + Matched(takes));
    }
    assert sales[..|sales|] == sales;
  }

  /** Units sold by the sales. */
  function SoldQty(sales: seq<Tx>): nat
  {
    if |sales| == 0 then 0 else SoldQty(sales[..|sales| - 1]) + sales[|sales| - 1].quantity
  }

  /** RUB received for the sales, commission deducted. */
  function SoldAmount(sales: seq<Tx>, rates: seq<Rate>): real
  {
    if |sales| == 0 then 0.0
    else SoldAmount(sales[..|sales| - 1], rates) + SaleAmountInRub(sales[|sales| - 1], rates)
  }

  /**
   * Matching units one sale at a time conserves stock, matches no more than
   * was sold and no more than was held, matches everything when enough is
   * held, and keeps every chunk of the queue non-empty.
   */
  lemma {:induction false} SellEachConserves(queue: seq<Chunk>, sales: seq<Tx>, rates: seq<Rate>)
    ensures Stock(SellEach(queue, sales, rates).queue) + SellEach(queue, sales, rates).matched == Stock(queue)
    ensures SellEach(queue, sales, rates).matched <= SoldQty(sales)
    ensures SellEach(queue, sales, rates).matched == Min(SoldQty(sales), Stock(queue))
    ensures AllPositive(queue) ==> AllPositive(SellEach(queue, sales, rates).queue)
  {
    if |sales| > 0 {
      var n := |sales| - 1;
      SellEachConserves(queue, sales[..n], rates);
      var before := SellEach(queue, sales[..n], rates);
      WithdrawConserves(before.queue, sales[n].quantity);
      if AllPositive(queue) {
        WithdrawKeepsPositive(before.queue, sales[n].quantity);
      }
    }
  }

  /**
   * When the queue holds enough, every sale is matched in full, so the income
   * of the day is the whole RUB amount of its sales.
   */
  lemma {:induction false} SellEachIncomeWhenStocked(queue: seq<Chunk>, sales: seq<Tx>, rates: seq<Rate>)
    requires SoldQty(sales) <= Stock(queue)
    ensures SellEach(queue, sales, rates).income == SoldAmount(sales, rates)
    ensures SellEach(queue, sales, rates).matched == SoldQty(sales)
  {
    SellEachConserves(queue, sales, rates);
    if |sales| > 0 {
      var n := |sales| - 1;
      SellEachIncomeWhenStocked(queue, sales[..n], rates);
      var before := SellEach(queue, sales[..n], rates);
      SellEachConserves(queue, sales[..n], rates);
      var s := sales[n];
      WithdrawConserves(before.queue, s.quantity);
      var c := Withdraw(before.queue, s.quantity);
      assert Matched(c.takes) == s.quantity;
      RevenueIsMatchedWorth(c.takes, UnitPrice(s, rates));
      WorthOfShare(s.quantity, SaleAmountInRub(s, rates));
    }
  }

  /**
   * One type on one day, as the period totals and the per-type daily profits
   * do it: the day's purchases of the type join the end of its queue, then its
   * sales are matched one at a time.
   */
  function DaySold(queues: Queues, books: Books, date: Date, t: string): Sold
  {
    SellEach(QueueOf(queues, t) + Chunks(Select(books.purchases, date, t), books.rates),
             Select(books.sales, date, t), books.rates)
  }

  /** The body of `types.forEach(type => ...)` for one day. */
  method SellTypeOnDay(queues: Queues, books: Books, date: Date, t: string) returns (sold: Sold)
    ensures sold == DaySold(queues, books, date, t)
  {
    var queue := EnqueueAll(QueueOf(queues, t), Select(books.purchases, date, t), books.rates);
    sold := SellDay(queue, Select(books.sales, date, t), books.rates);
  }

  /**
   * Per type and day, what the queue holds afterwards plus what was matched is
   * what it held before plus what was bought that day; no more is matched than
   * was sold; and queues of non-empty chunks stay so.
   */
  lemma DaySoldConserves(queues: Queues, books: Books, date: Date, t: string)
    ensures var sold := DaySold(queues, books, date, t);
      && Stock(sold.queue) + sold.matched
         == Stock(QueueOf(queues, t)) + BoughtQty(Select(books.purchases, date, t))
      && sold.matched <= SoldQty(Select(books.sales, date, t))
      && (QueuesPositive(queues) ==> AllPositive(sold.queue))
  {
    var bought := Chunks(Select(books.purchases, date, t), books.rates);
    ChunksHoldBought(Select(books.purchases, date, t), books.rates);
    StockConcat(QueueOf(queues, t), bought);
    if QueuesPositive(queues) {
      PositiveConcat(QueueOf(queues, t), bought);
    }
    SellEachConserves(QueueOf(queues, t) + bought, Select(books.sales, date, t), books.rates);
  }

  /** Without sales nothing is matched, booked or taken from the queue. */
  lemma DaySoldWithoutSales(queues: Queues, books: Books, date: Date, t: string)
    requires Select(books.sales, date, t) == []
    ensures DaySold(queues, books, date, t).income == 0.0
    ensures DaySold(queues, books, date, t).expense == 0.0
  {
  }
}
