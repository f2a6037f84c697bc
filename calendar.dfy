/**
 * The calendar pass (`calculateAllDaysProfitWithCarryover`): every item type,
 * every day that has a purchase or a sale, no cap. Unlike the other two
 * passes it books a type's whole sale amount of the day as income once
 * anything of it was sold, and matches the day's units in one withdrawal; it
 * also records which purchase was used on which day and what each queue held
 * at the start of each day.
 */
module Calendar {
  import opened Dates
  import opened Records
  import opened Valuation
  import opened Ordering
  import opened Fifo
  import opened Matching
  import opened Usages

  /** `carryoverByDate[day]`: each type's queue at the start of the day. */
  type Snapshot = map<string, seq<Chunk>>

  /** `calendarCarryoverState`. */
  datatype CarryoverState = CarryoverState(
    usedPurchases: UsedPurchases,
    carryover: Queues,
    carryoverByDate: map<Date, Snapshot>)

  /** Every take of a withdrawal recorded, in order. */
  function UseAll(used: UsedPurchases, takes: seq<Take>, date: Date): UsedPurchases
  {
    if |takes| == 0 then used
    else
      var t := takes[|takes| - 1];
      Use(UseAll(used, takes[..|takes| - 1], date), t.id, date, t.qty)
  }

  /** `carryover[type].filter(c => c.qty > 0)`. */
  function Positive(queue: seq<Chunk>): (r: seq<Chunk>)
    ensures AllPositive(r)
    ensures forall c :: c in r <==> c in queue && c.qty > 0
  {
    if |queue| == 0 then []
    else
      var rest := Positive(queue[..|queue| - 1]);
      var c := queue[|queue| - 1];
      if c.qty > 0 then rest + [c] else rest
  }

  /** The snapshot of every item type's queue taken at the start of a day. */
  function SnapshotOf(queues: Queues, types: seq<string>): (m: Snapshot)
  {
    map t | t in types :: Positive(QueueOf(queues, t))
  }

  /** The day's purchases of one type, sorted by time. */
  function DayPurchases(all: Books, date: Date, t: string): seq<Tx>
  {
    SortByDateTime(Select(all.purchases, date, t))
  }

  /** The day's sales of one type, sorted by time. */
  function DaySales(all: Books, date: Date, t: string): seq<Tx>
  {
    SortByDateTime(Select(all.sales, date, t))
  }

  /** The queues, the usage so far and the day's running totals. */
  datatype Day = Day(queues: Queues, used: UsedPurchases, booking: Booking)

  /**
   * One type on one day: its purchases join the queue, then its sales are
   * settled against it.
   */
  function TypeStep(day: Day, all: Books, date: Date, t: string): Day
  {
    Settle(day, t, QueueOf(day.queues, t) + Chunks(DayPurchases(all, date, t), all.rates),
           DaySales(all, date, t), all.rates, date)
  }

  /**
   * `if (soldQty > 0)`: the whole sale amount is income, and the units sold
   * are withdrawn at once, their cost booked as expense and their use
   * recorded; without a sale the queue is only stored back.
   */
  function Settle(day: Day, t: string, queue: seq<Chunk>, sales: seq<Tx>, rates: seq<Rate>, date: Date): Day
  {
    if SoldQty(sales) > 0 then
      var c := Withdraw(queue, SoldQty(sales));
      Day(day.queues[t := c.rest], UseAll(day.used, c.takes, date),
          Booking(day.booking.income + SoldAmount(sales, rates), day.booking.expense + Cost(c.takes)))
    else
      Day(day.queues[t := queue], day.used, day.booking)
  }

  function OverTypes(day: Day, all: Books, date: Date, types: seq<string>): Day
  {
    if |types| == 0 then day
    else TypeStep(OverTypes(day, all, date, types[..|types| - 1]), all, date, types[|types| - 1])
  }

  /** The day's totals, starting from nothing booked. */
  function DayTotals(queues: Queues, used: UsedPurchases, all: Books, date: Date, types: seq<string>): Day
  {
    OverTypes(Day(queues, used, Booking(0.0, 0.0)), all, date, types)
  }

  /** The state of the walk and the per-day results so far. */
  datatype Walk = Walk(queues: Queues, used: UsedPurchases, byDate: map<Date, Snapshot>, result: map<Date, DayProfit>)

  /** One day: snapshot the queues, match every type, record the day if it booked anything. */
  function DayStep(w: Walk, all: Books, date: Date, types: seq<string>): Walk
  {
    var day := DayTotals(w.queues, w.used, all, date, types);
    Walk(day.queues, day.used, w.byDate[date := SnapshotOf(w.queues, types)], Record(w.result, date, day.booking))
  }

  lemma DayStepRecords(w: Walk, all: Books, date: Date, types: seq<string>, day: Day)
    requires day == DayTotals(w.queues, w.used, all, date, types)
    ensures DayStep(w, all, date, types)
      == Walk(day.queues, day.used, w.byDate[date := SnapshotOf(w.queues, types)], Record(w.result, date, day.booking))
  {
  }

  function OverDates(w: Walk, all: Books, dates: seq<Date>, types: seq<string>): Walk
  {
    if |dates| == 0 then w
    else DayStep(OverDates(w, all, dates[..|dates| - 1], types), all, dates[|dates| - 1], types)
  }

  function Start(types: seq<string>): Walk
  {
    Walk(EmptyQueues(types), map[], map[], map[])
  }

  /** The whole pass over all data, every item type in its order. */
  function CalendarWalk(all: Books, types: seq<string>): Walk
  {
    OverDates(Start(types), all, AllDates(all.sales, all.purchases), types)
  }

  /** The profit of each day that booked something. */
  function CalendarProfits(all: Books, types: seq<string>): map<Date, DayProfit>
  {
    CalendarWalk(all, types).result
  }

  /** What the pass leaves for the day details. */
  function CalendarState(all: Books, types: seq<string>): CarryoverState
  {
    var w := CalendarWalk(all, types);
    CarryoverState(w.used, w.queues, w.byDate)
  }

  /** The uncached body of the pass. */
  method AllDaysProfitWithCarryover(all: Books, types: seq<string>)
    returns (result: map<Date, DayProfit>, state: CarryoverState)
    ensures result == CalendarProfits(all, types)
    ensures state == CalendarState(all, types)
  {
    var dates := AllDates(all.sales, all.purchases);
    var carryover := EmptyQueues(types);
    var usedPurchases: UsedPurchases := map[];
    var carryoverByDate: map<Date, Snapshot> := map[];
    result := map[];
    for i := 0 to |dates|
      invariant Walk(carryover, usedPurchases, carryoverByDate, result)
        == OverDates(Start(types), all, dates[..i], types)
    {
      OverDatesStep(Start(types), all, dates, types, i);
      carryover, usedPurchases, carryoverByDate, result :=
        CloseDay(carryover, usedPurchases, carryoverByDate, result, all, dates[i], types);
    }
    assert dates[..|dates|] == dates;
    state := CarryoverState(usedPurchases, carryover, carryoverByDate);
  }

  /** `allDates.forEach(dateStr => ...)` for one day. */
  method CloseDay(queues: Queues, used: UsedPurchases, byDate: map<Date, Snapshot>, before: map<Date, DayProfit>,
                  all: Books, date: Date, types: seq<string>)
    returns (carryover: Queues, usedPurchases: UsedPurchases, carryoverByDate: map<Date, Snapshot>,
             result: map<Date, DayProfit>)
    ensures Walk(carryover, usedPurchases, carryoverByDate, result)
      == DayStep(Walk(queues, used, byDate, before), all, date, types)
  {
    var snapshot := Snap(queues, types);
    carryoverByDate := byDate[date := snapshot];
    var day := MatchDay(queues, used, all, date, types);
    DayStepRecords(Walk(queues, used, byDate, before), all, date, types, day);
    carryover, usedPurchases := day.queues, day.used;
    result := RecordDay(before, date, day.booking);
  }

  /** `carryoverByDate[dateStr][type] = carryover[type].filter(...)` for every type. */
  method Snap(queues: Queues, types: seq<string>) returns (snapshot: Snapshot)
    ensures snapshot == SnapshotOf(queues, types)
  {
    snapshot := map[];
    for j := 0 to |types|
      invariant forall t :: t in snapshot <==> t in types[..j]
      invariant forall t :: t in snapshot ==> snapshot[t] == Positive(QueueOf(queues, t))
    {
      snapshot := snapshot[types[j] := Positive(QueueOf(queues, types[j]))];
      assert types[..j + 1] == types[..j] + [types[j]];
    }
    assert types[..|types|] == types;
  }

  /** `data.itemTypes.forEach(type => ...)` for one day. */
  method MatchDay(queues: Queues, used: UsedPurchases, all: Books, date: Date, types: seq<string>)
    returns (day: Day)
    ensures day == DayTotals(queues, used, all, date, types)
  {
    day := Day(queues, used, Booking(0.0, 0.0));
    for j := 0 to |types|
      invariant day == OverTypes(Day(queues, used, Booking(0.0, 0.0)), all, date, types[..j])
    {
      OverTypesStep(Day(queues, used, Booking(0.0, 0.0)), all, date, types, j);
      day := MatchType(day, all, date, types[j]);
    }
    assert types[..|types|] == types;
  }

  /** One type on one day. */
  method MatchType(day: Day, all: Books, date: Date, t: string) returns (next: Day)
    ensures next == TypeStep(day, all, date, t)
  {
    var queue := EnqueueAll(QueueOf(day.queues, t), DayPurchases(all, date, t), all.rates);
    var daySales := DaySales(all, date, t);
    next := SettleSales(day, t, queue, daySales, all.rates, date);
  }

  /** The day's sales of one type against its queue. */
  method SettleSales(day: Day, t: string, start: seq<Chunk>, daySales: seq<Tx>, rates: seq<Rate>, date: Date)
    returns (next: Day)
    ensures next == Settle(day, t, start, daySales, rates, date)
  {
    var queue := start;
    var soldQty := SoldQty(daySales);
    var soldAmount := SoldAmount(daySales, rates);
    var dayIncome, dayExpense, usedPurchases := day.booking.income, day.booking.expense, day.used;
    if soldQty > 0 {
      dayIncome := dayIncome + soldAmount;
      queue, dayExpense, usedPurchases := WriteOff(queue, soldQty, date, dayExpense, usedPurchases);
    }
    next := Day(day.queues[t := queue], usedPurchases, Booking(dayIncome, dayExpense));
  }

  /**
   * `while (remainingToSell > 0 && carryover[type].length > 0)`: each take
   * costs its units at its chunk's price and is recorded against its purchase
   * and the day.
   */
  method WriteOff(start: seq<Chunk>, soldQty: nat, date: Date, expense: real, used: UsedPurchases)
    returns (queue: seq<Chunk>, dayExpense: real, usedPurchases: UsedPurchases)
    ensures var c := Withdraw(start, soldQty);
      && queue == c.rest
      && dayExpense == expense + Cost(c.takes)
      && usedPurchases == UseAll(used, c.takes, date)
  {
    queue, dayExpense, usedPurchases := start, expense, used;
    ghost var takes: seq<Take> := [];
    var remainingToSell := soldQty;
    while remainingToSell > 0 && |queue| > 0
      invariant Withdraw(start, soldQty)
        == Consumed(Withdraw(queue, remainingToSell).rest, takes + Withdraw(queue, remainingToSell).takes)
      invariant dayExpense == expense + Cost(takes)
      invariant usedPurchases == UseAll(used, takes, date)
      decreases remainingToSell, |queue|
    {
      var oldest := queue[0];
      var takeQty := Min(oldest.qty, remainingToSell);
      var take := Take(oldest.id, takeQty, oldest.costPerUnit);
      ghost var (before, wanted, taken) := (queue, remainingToSell, takes);
      CostAppend(takes, take);
      UseAllAppend(used, takes, take, date);
      dayExpense := dayExpense + TakeCost(take);
      oldest := oldest.(qty := oldest.qty - takeQty);
      remainingToSell := remainingToSell - takeQty;
      usedPurchases := Use(usedPurchases, take.id, date, takeQty);
      takes := takes + [take];
      if oldest.qty == 0 {
        queue := queue[1..];
      } else {
        queue := queue[0 := oldest];
      }
      WithdrawRound(start, soldQty, before, wanted, taken, take, oldest, queue);
    }
    assert Withdraw(queue, remainingToSell) == Consumed(queue, []);
    assert takes + [] == takes;
  }

  lemma UseAllAppend(used: UsedPurchases, takes: seq<Take>, t: Take, date: Date)
    ensures UseAll(used, takes + [t], date) == Use(UseAll(used, takes, date), t.id, date, t.qty)
  {
    assert (takes + [t])[..|takes|] == takes;
  }

  lemma OverTypesStep(day: Day, all: Books, date: Date, types: seq<string>, j: nat)
    requires j < |types|
    ensures OverTypes(day, all, date, types[..j + 1])
      == TypeStep(OverTypes(day, all, date, types[..j]), all, date, types[j])
  {
    assert types[..j + 1][..j] == types[..j];
  }

  lemma OverDatesStep(w: Walk, all: Books, dates: seq<Date>, types: seq<string>, i: nat)
    requires i < |dates|
    ensures OverDates(w, all, dates[..i + 1], types)
      == DayStep(OverDates(w, all, dates[..i], types), all, dates[i], types)
  {
    assert dates[..i + 1][..i] == dates[..i];
  }

  // ---------------------------------------------------------------------
  // What every step keeps

  lemma {:induction false} UseAllAddsUp(used: UsedPurchases, days: seq<Date>, takes: seq<Take>, date: Date)
    requires AddsUp(used, days) && NoRepeats(days) && date in days
    ensures AddsUp(UseAll(used, takes, date), days)
  {
    if |takes| > 0 {
      var t := takes[|takes| - 1];
      UseAllAddsUp(used, days, takes[..|takes| - 1], date);
      UseAddsUp(UseAll(used, takes[..|takes| - 1], date), days, t.id, date, t.qty);
    }
  }

  /**
   * Every queue holds only non-empty chunks, and every usage adds up over the
   * days walked so far.
   */
  ghost predicate Healthy(queues: Queues, used: UsedPurchases, days: seq<Date>)
  {
    QueuesPositive(queues) && AddsUp(used, days)
  }

  lemma SettleHealthy(day: Day, days: seq<Date>, t: string, queue: seq<Chunk>, sales: seq<Tx>, rates: seq<Rate>, date: Date)
    requires Healthy(day.queues, day.used, days) && NoRepeats(days) && date in days && AllPositive(queue)
    ensures Healthy(Settle(day, t, queue, sales, rates, date).queues, Settle(day, t, queue, sales, rates, date).used, days)
  {
    if SoldQty(sales) > 0 {
      WithdrawKeepsPositive(queue, SoldQty(sales));
      UseAllAddsUp(day.used, days, Withdraw(queue, SoldQty(sales)).takes, date);
    }
  }

  lemma TypeStepHealthy(day: Day, days: seq<Date>, all: Books, date: Date, t: string)
    requires Healthy(day.queues, day.used, days) && NoRepeats(days) && date in days
    ensures Healthy(TypeStep(day, all, date, t).queues, TypeStep(day, all, date, t).used, days)
  {
    var bought := Chunks(DayPurchases(all, date, t), all.rates);
    ChunksHoldBought(DayPurchases(all, date, t), all.rates);
    PositiveConcat(QueueOf(day.queues, t), bought);
    SettleHealthy(day, days, t, QueueOf(day.queues, t) + bought, DaySales(all, date, t), all.rates, date);
  }

  lemma {:induction false} OverTypesHealthy(day: Day, days: seq<Date>, all: Books, date: Date, types: seq<string>)
    requires Healthy(day.queues, day.used, days) && NoRepeats(days) && date in days
    ensures Healthy(OverTypes(day, all, date, types).queues, OverTypes(day, all, date, types).used, days)
  {
    if |types| > 0 {
      OverTypesHealthy(day, days, all, date, types[..|types| - 1]);
      TypeStepHealthy(OverTypes(day, all, date, types[..|types| - 1]), days, all, date, types[|types| - 1]);
    }
  }

  lemma {:induction false} OverDatesHealthy(w: Walk, all: Books, dates: seq<Date>, types: seq<string>)
    requires QueuesPositive(w.queues) && AddsUp(w.used, []) && NoRepeats(dates)
    ensures Healthy(OverDates(w, all, dates, types).queues, OverDates(w, all, dates, types).used, dates)
  {
    if |dates| > 0 {
      var n := |dates| - 1;
      var prev := OverDates(w, all, dates[..n], types);
      LastIsNew(dates);
      OverDatesHealthy(w, all, dates[..n], types);
      WalkOn(prev.used, dates[..n], dates[n]);
      assert dates[..n] + [dates[n]] == dates;
      OverTypesHealthy(Day(prev.queues, prev.used, Booking(0.0, 0.0)), dates, all, dates[n], types);
    }
  }

  /**
   * After the pass every queued chunk still holds stock, and every purchase's
   * `totalUsed` is the sum of its per-day counts, each for a different day of
   * the walk.
   */
  lemma CalendarStateHealthy(all: Books, types: seq<string>)
    ensures var dates := AllDates(all.sales, all.purchases);
      var state := CalendarState(all, types);
      && (forall t :: t in state.carryover ==> AllPositive(state.carryover[t]))
      && NoRepeats(dates)
      && (forall id :: id in state.usedPurchases ==>
            && state.usedPurchases[id].totalUsed == SumOn(state.usedPurchases[id].byDate, dates)
            && forall d :: d in state.usedPurchases[id].byDate ==> d in dates)
  {
    var dates := AllDates(all.sales, all.purchases);
    AllDatesAscending(all.sales, all.purchases);
    forall i, j | 0 <= i < j < |dates| ensures dates[i] != dates[j] {
      assert Lt(dates[i], dates[j]);
    }
    OverDatesHealthy(Start(types), all, dates, types);
  }

  /** Filtering out empty chunks changes nothing in a queue that has none. */
  lemma {:induction false} PositiveOfPositive(queue: seq<Chunk>)
    requires AllPositive(queue)
    ensures Positive(queue) == queue
  {
    if |queue| > 0 {
      PositiveOfPositive(queue[..|queue| - 1]);
      assert queue[..|queue| - 1] + [queue[|queue| - 1]] == queue;
    }
  }

  /**
   * The snapshot names every item type, and on queues without empty chunks it
   * is each type's queue as it stands.
   */
  lemma SnapshotIsCarryover(queues: Queues, types: seq<string>)
    requires QueuesPositive(queues)
    ensures forall t :: t in SnapshotOf(queues, types) <==> t in types
    ensures forall t :: t in types ==> SnapshotOf(queues, types)[t] == QueueOf(queues, t)
  {
    forall t | t in types ensures Positive(QueueOf(queues, t)) == QueueOf(queues, t) {
      PositiveOfPositive(QueueOf(queues, t));
    }
  }

  // ---------------------------------------------------------------------
  // One withdrawal for the day against one per sale

  /**
   * Withdrawing the day's units at once leaves the queue that matching the
   * sales one after the other leaves, at the same cost.
   */
  lemma {:induction false} BulkIsSequential(queue: seq<Chunk>, sales: seq<Tx>, rates: seq<Rate>)
    ensures Withdraw(queue, SoldQty(sales)).rest == SellEach(queue, sales, rates).queue
    ensures Cost(Withdraw(queue, SoldQty(sales)).takes) == SellEach(queue, sales, rates).expense
  {
    if |sales| == 0 {
      assert Withdraw(queue, 0) == Consumed(queue, []);
    } else {
      var n := |sales| - 1;
      BulkIsSequential(queue, sales[..n], rates);
      WithdrawAdditive(queue, SoldQty(sales[..n]), sales[n].quantity);
    }
  }

  /** Quantities are positive, so nothing sold means no sales. */
  lemma {:induction false} NoSoldQtyNoSales(sales: seq<Tx>)
    ensures SoldQty(sales) == 0 <==> sales == []
  {
    if |sales| > 0 {
      NoSoldQtyNoSales(sales[..|sales| - 1]);
    }
  }

  /**
   * Against the per-sale matching of the other two passes, a type's day
   * leaves the same queue and books the same expense; it books the whole sale
   * amount as income, which is what the per-sale matching books only when the
   * queue holds enough.
   */
  lemma SettleAgainstSellEach(day: Day, t: string, queue: seq<Chunk>, sales: seq<Tx>, rates: seq<Rate>, date: Date)
    ensures var next := Settle(day, t, queue, sales, rates, date);
      var each := SellEach(queue, sales, rates);
      && next.queues[t] == each.queue
      && next.booking.expense == day.booking.expense + each.expense
      && next.booking.income == day.booking.income + SoldAmount(sales, rates)
      && (SoldQty(sales) <= Stock(queue) ==> next.booking.income == day.booking.income + each.income)
  {
    NoSoldQtyNoSales(sales);
    BulkIsSequential(queue, sales, rates);
    if SoldQty(sales) <= Stock(queue) {
      SellEachIncomeWhenStocked(queue, sales, rates);
    }
  }

  /**
   * A sale that finds the queue empty: the calendar books its 97 RUB as
   * income; the per-sale matching books nothing.
   */
  lemma UnmatchedSaleIsIncome()
    ensures var sale := Tx(1, "A", RUB, 100.0, 1, "2024-01-01", "");
      var day := Day(map[], map[], Booking(0.0, 0.0));
      && Settle(day, "A", [], [sale], [], "2024-01-01").booking.income == 97.0
      && SellEach([], [sale], []).income == 0.0
  {
    var sale := Tx(1, "A", RUB, 100.0, 1, "2024-01-01", "");
    assert [sale][..0] == [];
    assert SaleAmountInRub(sale, []) == 97.0;
    assert Withdraw([], 1) == Consumed([], []);
  }

  /**
   * Per type and day, what the queue holds afterwards plus what was matched is
   * what it held before plus what was bought that day, and no more is matched
   * than was sold.
   */
  lemma TypeStepConserves(day: Day, all: Books, date: Date, t: string)
    ensures var queue := QueueOf(day.queues, t) + Chunks(DayPurchases(all, date, t), all.rates);
      var matched := Min(SoldQty(DaySales(all, date, t)), Stock(queue));
      && Stock(TypeStep(day, all, date, t).queues[t]) + matched
         == Stock(QueueOf(day.queues, t)) + BoughtQty(DayPurchases(all, date, t))
      && matched <= SoldQty(DaySales(all, date, t))
  {
    var bought := Chunks(DayPurchases(all, date, t), all.rates);
    var queue := QueueOf(day.queues, t) + bought;
    ChunksHoldBought(DayPurchases(all, date, t), all.rates);
    StockConcat(QueueOf(day.queues, t), bought);
    WithdrawConserves(queue, SoldQty(DaySales(all, date, t)));
  }

  // ---------------------------------------------------------------------
  // The per-day results

  /** The days' totals in order, each day starting from the state the days before it left. */
  function Days(queues: Queues, used: UsedPurchases, all: Books, dates: seq<Date>, types: seq<string>): (r: seq<Day>)
    ensures |r| == |dates|
  {
    if |dates| == 0 then []
    else
      var prev := Days(queues, used, all, dates[..|dates| - 1], types);
      var last := if |prev| == 0 then Day(queues, used, Booking(0.0, 0.0)) else prev[|prev| - 1];
      prev + [DayTotals(last.queues, last.used, all, dates[|dates| - 1], types)]
  }

  function DayBooking(day: Day): Booking
  {
    day.booking
  }

  /** The walk is the days' totals, recorded. */
  lemma {:induction false} OverDatesFollowsDays(w: Walk, all: Books, dates: seq<Date>, types: seq<string>)
    ensures var days := Days(w.queues, w.used, all, dates, types);
      && OverDates(w, all, dates, types).result == RecordDays(w.result, dates, BookingsOf(days, DayBooking))
      && (|dates| > 0 ==> OverDates(w, all, dates, types).queues == days[|dates| - 1].queues)
      && (|dates| > 0 ==> OverDates(w, all, dates, types).used == days[|dates| - 1].used)
      && (|dates| == 0 ==> OverDates(w, all, dates, types) == w)
  {
    if |dates| > 0 {
      var n := |dates| - 1;
      OverDatesFollowsDays(w, all, dates[..n], types);
      var prev := OverDates(w, all, dates[..n], types);
      var days := Days(w.queues, w.used, all, dates, types);
      assert days[..n] == Days(w.queues, w.used, all, dates[..n], types);
      BookingsPrefix(days, DayBooking, n);
      DayStepRecords(prev, all, dates[n], types, days[n]);
    }
  }

  /**
   * A day is in the calendar iff it booked income or expense, and its profit
   * is its income minus its expense; no other days are in the calendar.
   */
  lemma CalendarEntries(all: Books, types: seq<string>)
    ensures var dates := AllDates(all.sales, all.purchases);
      var days := Days(EmptyQueues(types), map[], all, dates, types);
      && (forall i :: 0 <= i < |dates| ==> Booked(CalendarProfits(all, types), dates[i], days[i].booking))
      && (forall d :: d in CalendarProfits(all, types) ==> d in dates)
  {
    var dates := AllDates(all.sales, all.purchases);
    var days := Days(EmptyQueues(types), map[], all, dates, types);
    AllDatesAscending(all.sales, all.purchases);
    forall i, j | 0 <= i < j < |dates| ensures dates[i] != dates[j] {
      assert Lt(dates[i], dates[j]);
    }
    OverDatesFollowsDays(Start(types), all, dates, types);
    RecordDaysEntries(dates, BookingsOf(days, DayBooking));
  }

  /** Nothing selected when no transaction has that day and type. */
  lemma {:induction false} SelectEmpty(txs: seq<Tx>, date: Date, t: string)
    requires forall x :: x in txs ==> x.date != date || x.itemType != t
    ensures Select(txs, date, t) == []
  {
    if |txs| > 0 {
      assert txs[|txs| - 1] in txs;
      SelectEmpty(txs[..|txs| - 1], date, t);
    }
  }

  /** A type without sales on the day books nothing. */
  lemma {:induction false} OverTypesWithoutSales(day: Day, all: Books, date: Date, types: seq<string>)
    requires forall x :: x in all.sales && x.itemType in types ==> x.date != date
    ensures OverTypes(day, all, date, types).booking == day.booking
  {
    if |types| > 0 {
      var n := |types| - 1;
      OverTypesWithoutSales(day, all, date, types[..n]);
      SelectEmpty(all.sales, date, types[n]);
      assert DaySales(all, date, types[n]) == [];
    }
  }

  lemma {:induction false} OverDatesKeys(w: Walk, all: Books, dates: seq<Date>, types: seq<string>)
    ensures forall d :: d in OverDates(w, all, dates, types).result ==>
      d in w.result || exists x :: x in all.sales && x.itemType in types && x.date == d
  {
    if |dates| > 0 {
      var n := |dates| - 1;
      var prev := OverDates(w, all, dates[..n], types);
      OverDatesKeys(w, all, dates[..n], types);
      var d := dates[n];
      if !exists x :: x in all.sales && x.itemType in types && x.date == d {
        OverTypesWithoutSales(Day(prev.queues, prev.used, Booking(0.0, 0.0)), all, d, types);
      }
    }
  }

  /** A day shows in the calendar only if an item of a listed type was sold on it. */
  lemma CalendarOnlySaleDays(all: Books, types: seq<string>, d: Date)
    requires d in CalendarProfits(all, types)
    ensures exists s :: s in all.sales && s.itemType in types && s.date == d
  {
    OverDatesKeys(Start(types), all, AllDates(all.sales, all.purchases), types);
  }
}
