/**
 * The per-day profit of the selected types with carry-over
 * (`calculateAllDaysProfitWithCarryoverForTypes`), optionally capped at a
 * last day: the same day-by-day, type-by-type matching as the period totals,
 * booking each day's matched income and expense under that day.
 */
module Daily {
  import opened Dates
  import opened Records
  import opened Fifo
  import opened Matching

  /** The queues and the running totals of one day. */
  datatype Day = Day(queues: Queues, booking: Booking)

  /** The queues and the per-day results so far. */
  datatype Walk = Walk(queues: Queues, result: map<Date, DayProfit>)

  function TypeStep(day: Day, books: Books, date: Date, t: string): Day
  {
    var sold := DaySold(day.queues, books, date, t);
    Day(day.queues[t := sold.queue],
        Booking(day.booking.income + sold.income, day.booking.expense + sold.expense))
  }

  lemma TypeStepBooks(day: Day, books: Books, date: Date, t: string, sold: Sold)
    requires sold == DaySold(day.queues, books, date, t)
    ensures TypeStep(day, books, date, t)
      == Day(day.queues[t := sold.queue], Booking(day.booking.income + sold.income, day.booking.expense + sold.expense))
  {
  }

  function OverTypes(day: Day, books: Books, date: Date, types: seq<string>): Day
  {
    if |types| == 0 then day
    else TypeStep(OverTypes(day, books, date, types[..|types| - 1]), books, date, types[|types| - 1])
  }

  /** The day's totals, starting from nothing booked. */
  function DayTotals(queues: Queues, books: Books, date: Date, types: seq<string>): Day
  {
    OverTypes(Day(queues, Booking(0.0, 0.0)), books, date, types)
  }

  /** One day: match every type, then record the day if it booked anything. */
  function DayStep(w: Walk, books: Books, date: Date, types: seq<string>): Walk
  {
    var day := DayTotals(w.queues, books, date, types);
    Walk(day.queues, Record(w.result, date, day.booking))
  }

  lemma DayStepRecords(w: Walk, books: Books, date: Date, types: seq<string>, day: Day)
    requires day == DayTotals(w.queues, books, date, types)
    ensures DayStep(w, books, date, types) == Walk(day.queues, Record(w.result, date, day.booking))
  {
  }

  function OverDates(w: Walk, books: Books, dates: seq<Date>, types: seq<string>): Walk
  {
    if |dates| == 0 then w
    else DayStep(OverDates(w, books, dates[..|dates| - 1], types), books, dates[|dates| - 1], types)
  }

  /** `!maxDateStr || date <= maxDateStr`: no cap, or an empty one, reads everything. */
  function Cap(maxDate: Option<Date>): Option<Date>
  {
    if maxDate.None? || maxDate.value == "" then None else maxDate
  }

  function Start(types: seq<string>): Walk
  {
    Walk(EmptyQueues(types), map[])
  }

  /** The profit of each day that booked something. */
  function DailyProfits(all: Books, types: seq<string>, maxDate: Option<Date>): map<Date, DayProfit>
  {
    var books := Prepare(all, types, Cap(maxDate));
    OverDates(Start(types), books, AllDates(books.purchases, books.sales), types).result
  }

  method AllDaysProfitWithCarryoverForTypes(all: Books, types: seq<string>, maxDate: Option<Date>)
    returns (result: map<Date, DayProfit>)
    ensures result == DailyProfits(all, types, maxDate)
  {
    var books := Prepare(all, types, Cap(maxDate));
    var dates := AllDates(books.purchases, books.sales);
    var carryover := EmptyQueues(types);
    result := map[];
    for i := 0 to |dates|
      invariant Walk(carryover, result) == OverDates(Start(types), books, dates[..i], types)
    {
      OverDatesStep(Start(types), books, dates, types, i);
      carryover, result := CloseDay(carryover, result, books, dates[i], types);
    }
    assert dates[..|dates|] == dates;
  }

  /** One day of the walk: match the types, then record the day's profit if any. */
  method CloseDay(queues: Queues, before: map<Date, DayProfit>, books: Books, date: Date, types: seq<string>)
    returns (carryover: Queues, result: map<Date, DayProfit>)
    ensures Walk(carryover, result) == DayStep(Walk(queues, before), books, date, types)
  {
    var day := MatchDay(queues, books, date, types);
    DayStepRecords(Walk(queues, before), books, date, types, day);
    carryover := day.queues;
    result := RecordDay(before, date, day.booking);
  }

  /** `types.forEach(...)` for one day. */
  method MatchDay(queues: Queues, books: Books, date: Date, types: seq<string>)
    returns (day: Day)
    ensures day == DayTotals(queues, books, date, types)
  {
    var carryover, dayIncome, dayExpense := queues, 0.0, 0.0;
    for j := 0 to |types|
      invariant Day(carryover, Booking(dayIncome, dayExpense))
        == OverTypes(Day(queues, Booking(0.0, 0.0)), books, date, types[..j])
    {
      OverTypesStep(Day(queues, Booking(0.0, 0.0)), books, date, types, j);
      var t := types[j];
      var sold := SellTypeOnDay(carryover, books, date, t);
      TypeStepBooks(Day(carryover, Booking(dayIncome, dayExpense)), books, date, t, sold);
      carryover := carryover[t := sold.queue];
      dayIncome := dayIncome + sold.income;
      dayExpense := dayExpense + sold.expense;
    }
    assert types[..|types|] == types;
    day := Day(carryover, Booking(dayIncome, dayExpense));
  }

  lemma OverTypesStep(day: Day, books: Books, date: Date, types: seq<string>, j: nat)
    requires j < |types|
    ensures OverTypes(day, books, date, types[..j + 1])
      == TypeStep(OverTypes(day, books, date, types[..j]), books, date, types[j])
  {
    assert types[..j + 1][..j] == types[..j];
  }

  lemma OverDatesStep(w: Walk, books: Books, dates: seq<Date>, types: seq<string>, i: nat)
    requires i < |dates|
    ensures OverDates(w, books, dates[..i + 1], types)
      == DayStep(OverDates(w, books, dates[..i], types), books, dates[i], types)
  {
    assert dates[..i + 1][..i] == dates[..i];
  }

  /** A day on which no sale of the types falls books neither income nor expense. */
  lemma {:induction false} OverTypesWithoutSales(day: Day, books: Books, date: Date, types: seq<string>)
    requires forall x :: x in books.sales ==> x.date != date
    ensures OverTypes(day, books, date, types).booking == day.booking
  {
    if |types| > 0 {
      var prev := OverTypes(day, books, date, types[..|types| - 1]);
      OverTypesWithoutSales(day, books, date, types[..|types| - 1]);
      SelectNone(books.sales, date, types[|types| - 1]);
      DaySoldWithoutSales(prev.queues, books, date, types[|types| - 1]);
    }
  }

  /** Every day in the result is one of the days walked and has a sale. */
  lemma {:induction false} OverDatesKeys(w: Walk, books: Books, dates: seq<Date>, types: seq<string>)
    ensures forall d :: d in OverDates(w, books, dates, types).result ==>
      d in w.result || (d in dates && exists x :: x in books.sales && x.date == d)
  {
    if |dates| > 0 {
      var n := |dates| - 1;
      var prev := OverDates(w, books, dates[..n], types);
      OverDatesKeys(w, books, dates[..n], types);
      var d := dates[n];
      if !exists x :: x in books.sales && x.date == d {
        OverTypesWithoutSales(Day(prev.queues, Booking(0.0, 0.0)), books, d, types);
      }
    }
  }

  /**
   * A day appears in the result only if one of the selected types was sold on
   * it (within the cap): days with purchases only show no profit.
   */
  lemma DailyOnlySaleDays(all: Books, types: seq<string>, maxDate: Option<Date>, d: Date)
    requires d in DailyProfits(all, types, maxDate)
    ensures exists s :: s in all.sales && s.date == d && InScope(s, types, Cap(maxDate))
  {
    var books := Prepare(all, types, Cap(maxDate));
    OverDatesKeys(Start(types), books, AllDates(books.purchases, books.sales), types);
  }

  /**
   * Each day's totals in order, every day starting from the queues the days
   * before it left: the walk without its bookkeeping.
   */
  function Days(queues: Queues, books: Books, dates: seq<Date>, types: seq<string>): (r: seq<Day>)
    ensures |r| == |dates|
  {
    if |dates| == 0 then []
    else
      var prev := Days(queues, books, dates[..|dates| - 1], types);
      var carried := if |prev| == 0 then queues else prev[|prev| - 1].queues;
      prev + [DayTotals(carried, books, dates[|dates| - 1], types)]
  }

  function DayBooking(day: Day): Booking
  {
    day.booking
  }

  /** The walk is the days' totals, recorded. */
  lemma {:induction false} OverDatesFollowsDays(w: Walk, books: Books, dates: seq<Date>, types: seq<string>)
    ensures var days := Days(w.queues, books, dates, types);
      && OverDates(w, books, dates, types).result == RecordDays(w.result, dates, BookingsOf(days, DayBooking))
      && OverDates(w, books, dates, types).queues == (if |dates| == 0 then w.queues else days[|dates| - 1].queues)
  {
    if |dates| > 0 {
      var n := |dates| - 1;
      OverDatesFollowsDays(w, books, dates[..n], types);
      var prev := OverDates(w, books, dates[..n], types);
      var days := Days(w.queues, books, dates, types);
      assert days[..n] == Days(w.queues, books, dates[..n], types);
      BookingsPrefix(days, DayBooking, n);
      DayStepRecords(prev, books, dates[n], types, days[n]);
    }
  }

  /**
   * A day is in the result iff it booked income or expense, and its profit is
   * its income minus its expense; no other days are in the result.
   */
  lemma DailyEntries(all: Books, types: seq<string>, maxDate: Option<Date>)
    ensures var books := Prepare(all, types, Cap(maxDate));
      var dates := AllDates(books.purchases, books.sales);
      var days := Days(EmptyQueues(types), books, dates, types);
      && (forall i :: 0 <= i < |dates| ==> Booked(DailyProfits(all, types, maxDate), dates[i], days[i].booking))
      && (forall d :: d in DailyProfits(all, types, maxDate) ==> d in dates)
  {
    var books := Prepare(all, types, Cap(maxDate));
    var dates := AllDates(books.purchases, books.sales);
    var days := Days(EmptyQueues(types), books, dates, types);
    AllDatesAscending(books.purchases, books.sales);
    forall i, j | 0 <= i < j < |dates| ensures dates[i] != dates[j] {
      assert Lt(dates[i], dates[j]);
    }
    OverDatesFollowsDays(Start(types), books, dates, types);
    RecordDaysEntries(dates, BookingsOf(days, DayBooking));
  }
}
