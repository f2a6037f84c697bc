/**
 * The ledger: the item types, transactions and rates the passes read, the
 * edits the screens make to them, and the calendar cache that every edit
 * invalidates through `saveData`.
 */
module Ledgers {
  import opened Dates
  import opened Records
  import opened Valuation
  import opened Matching
  import opened Edits
  import Calendar

  /** The two lists a transaction screen works on: `income` means sales. */
  datatype TxKind = Income | Expense

  /** How an edit of a transaction ends: the first failed check, or the edit. */
  datatype EditOutcome = NoItemType | NoDate | BadPrice | BadQuantity | NotFound | Edited

  /** How an import ends. */
  datatype ImportOutcome = BadFormat | Declined | Imported

  /**
   * The first check of the edit form that fails, in the form's order: item
   * type, date, price, quantity. A price or quantity that does not parse to a
   * finite number is `None`.
   */
  function Rejection(itemType: string, date: Date, price: Option<real>, qty: Option<int>): (r: Option<EditOutcome>)
    ensures r.None? <==> itemType != "" && date != "" && price.Some? && price.value > 0.0 && qty.Some? && qty.value > 0
    ensures r == Some(NoItemType) <==> itemType == ""
    ensures r == Some(NoDate) <==> itemType != "" && date == ""
    ensures r == Some(BadPrice) <==> itemType != "" && date != "" && (price.None? || price.value <= 0.0)
    ensures r.Some? ==> r.value != NotFound && r.value != Edited
  {
    if itemType == "" then Some(NoItemType)
    else if date == "" then Some(NoDate)
    else if price.None? || price.value <= 0.0 then Some(BadPrice)
    else if qty.None? || qty.value <= 0 then Some(BadQuantity)
    else None
  }

  /** `originalAmount = newPricePerUnit * newQty`. */
  function Amount(price: real, qty: Qty): real
  {
    price * (qty as real)
  }

  /** `allProfits[dateStr] || { hasData: false, profit: 0 }`. */
  function DayProfitOn(profits: map<Date, DayProfit>, date: Date): DayProfit
  {
    if date in profits then profits[date] else DayProfit(false, 0.0)
  }

  /**
   * The day profit of a date: a date with data is a day of the calendar with
   * a non-zero income or expense and shows income minus expense; any other
   * date shows no data and a profit of 0.
   */
  lemma DayProfitOfCalendar(all: Books, types: seq<string>, date: Date)
    ensures var r := DayProfitOn(Calendar.CalendarProfits(all, types), date);
      && (!r.hasData ==> r.profit == 0.0)
      && (r.hasData ==> date in AllDates(all.sales, all.purchases))
      && var dates := AllDates(all.sales, all.purchases);
         var days := Calendar.Days(EmptyQueues(types), map[], all, dates, types);
         forall i :: 0 <= i < |dates| && dates[i] == date ==>
           && (r.hasData <==> days[i].booking.income != 0.0 || days[i].booking.expense != 0.0)
           && (r.hasData ==> r.profit == days[i].booking.income - days[i].booking.expense)
  {
    var profits := Calendar.CalendarProfits(all, types);
    Calendar.CalendarEntries(all, types);
    forall d | d in profits ensures profits[d].hasData {
      var dates := AllDates(all.sales, all.purchases);
      var days := Calendar.Days(EmptyQueues(types), map[], all, dates, types);
      var i :| 0 <= i < |dates| && dates[i] == d;
      assert Booked(profits, dates[i], days[i].booking);
    }
  }

  /** `arr.forEach(t => { if (t.itemType === oldName) t.itemType = newName; })`. */
  method Relabel(txs: seq<Tx>, oldName: string, newName: string) returns (r: seq<Tx>)
    ensures r == Rekey(txs, oldName, newName)
  {
    r := txs;
    var i := 0;
    while i < |r|
      invariant 0 <= i <= |r| == |txs|
      invariant forall k :: 0 <= k < i ==> r[k] == Rekey(txs, oldName, newName)[k]
      invariant r[i..] == txs[i..]
    {
      if r[i].itemType == oldName {
        r := r[i := r[i].(itemType := newName)];
      }
      i := i + 1;
    }
  }

  /** The initial item types. */
  const InitialItemTypes: seq<string> := ["Тип 1", "Тип 2", "Тип 3", "Тип 4", "Тип 5", "Тип 6", "Тип 7", "Тип 8", "Тип 9"]

  /** The initial item types are nine different names. */
  lemma InitialItemTypesUnique()
    ensures |InitialItemTypes| == 9 && Unique(InitialItemTypes)
  {
    forall i, j | 0 <= i < j < 9 ensures InitialItemTypes[i] != InitialItemTypes[j] {
      assert InitialItemTypes[i][4] != InitialItemTypes[j][4];
    }
  }

  /**
   * `data` together with the calendar cache. The profit cache, when present,
   * holds the calendar of the current data under the current key; edits
   * keep it so by clearing it.
   */
  class Ledger {
    var itemTypes: seq<string>
    var purchases: seq<Tx>
    var sales: seq<Tx>
    var rates: seq<Rate>
    var calendarProfitCache: Option<map<Date, DayProfit>>
    var calendarProfitCacheKey: Option<CacheKey>
    var calendarCarryoverState: Option<Calendar.CarryoverState>

    /** The transactions and rates the passes read. */
    function Data(): Books
      reads this`purchases, this`sales, this`rates
    {
      Books(purchases, sales, rates)
    }

    ghost predicate Valid()
      reads this
    {
      calendarProfitCache.Some? ==>
        && calendarProfitCacheKey == Some(KeyOf(Data()))
        && calendarProfitCache.value == Calendar.CalendarProfits(Data(), itemTypes)
        && calendarCarryoverState == Some(Calendar.CalendarState(Data(), itemTypes))
    }

    /** The initial `data`, with every cache empty. */
    constructor ()
      ensures itemTypes == InitialItemTypes && Unique(itemTypes)
      ensures purchases == [] && sales == [] && rates == []
      ensures calendarProfitCache.None? && calendarProfitCacheKey.None? && calendarCarryoverState.None?
      ensures Valid()
    {
      itemTypes := InitialItemTypes;
      purchases := [];
      sales := [];
      rates := [];
      calendarProfitCache := None;
      calendarProfitCacheKey := None;
      calendarCarryoverState := None;
      InitialItemTypesUnique();
    }

    /** `saveData`: the data is kept and the profit cache and its key are cleared. */
    method SaveData()
      modifies this
      ensures itemTypes == old(itemTypes) && purchases == old(purchases) && sales == old(sales) && rates == old(rates)
      ensures calendarProfitCache.None? && calendarProfitCacheKey.None?
      ensures calendarCarryoverState == old(calendarCarryoverState)
      ensures Valid()
    {
      calendarProfitCache := None;
      calendarProfitCacheKey := None;
    }

    /**
     * `calculateAllDaysProfitWithCarryover`: the calendar of the current
     * data, from the cache when the key matches and a result is cached,
     * otherwise computed and stored together with its key and state.
     */
    method CalculateAllDaysProfitWithCarryover() returns (result: map<Date, DayProfit>)
      requires Valid()
      modifies this`calendarProfitCache, this`calendarProfitCacheKey, this`calendarCarryoverState
      ensures result == Calendar.CalendarProfits(Data(), itemTypes)
      ensures itemTypes == old(itemTypes) && purchases == old(purchases) && sales == old(sales) && rates == old(rates)
      ensures old(calendarProfitCacheKey) == Some(KeyOf(Data())) && old(calendarProfitCache).Some? ==>
        && result == old(calendarProfitCache).value
        && calendarCarryoverState == old(calendarCarryoverState)
      ensures calendarProfitCache == Some(result) && calendarProfitCacheKey == Some(KeyOf(Data()))
      ensures calendarCarryoverState == Some(Calendar.CalendarState(Data(), itemTypes))
      ensures Valid()
    {
      var books, types := Data(), itemTypes;
      var cacheKey := KeyOf(books);
      if calendarProfitCacheKey == Some(cacheKey) && calendarProfitCache.Some? {
        return calendarProfitCache.value;
      }
      result := Refresh();
    }

    /** The miss path: run the pass and keep its result, its key and its state. */
    method Refresh() returns (result: map<Date, DayProfit>)
      modifies this`calendarProfitCache, this`calendarProfitCacheKey, this`calendarCarryoverState
      ensures result == Calendar.CalendarProfits(Data(), itemTypes)
      ensures calendarProfitCache == Some(result) && calendarProfitCacheKey == Some(KeyOf(Data()))
      ensures calendarCarryoverState == Some(Calendar.CalendarState(Data(), itemTypes))
      ensures Valid()
    {
      var books, types := Data(), itemTypes;
      var state;
      result, state := Calendar.AllDaysProfitWithCarryover(books, types);
      calendarCarryoverState := Some(state);
      calendarProfitCache := Some(result);
      calendarProfitCacheKey := Some(KeyOf(books));
      assert Data() == books && itemTypes == types;
    }

    /** `calculateDayProfit`: the calendar entry of one day, or no data and 0. */
    method CalculateDayProfit(date: Date) returns (r: DayProfit)
      requires Valid()
      modifies this
      ensures r == DayProfitOn(Calendar.CalendarProfits(Data(), itemTypes), date)
      ensures itemTypes == old(itemTypes) && purchases == old(purchases) && sales == old(sales) && rates == old(rates)
      ensures calendarProfitCache == Some(Calendar.CalendarProfits(Data(), itemTypes))
      ensures calendarProfitCacheKey == Some(KeyOf(Data()))
      ensures calendarCarryoverState == Some(Calendar.CalendarState(Data(), itemTypes))
      ensures Valid()
    {
      var allProfits := CalculateAllDaysProfitWithCarryover();
      r := DayProfitOn(allProfits, date);
    }

    /**
     * Adding an item type: the trimmed name is appended when it is not empty
     * and not yet a type; otherwise nothing changes.
     */
    method AddItemType(input: string) returns (added: bool)
      requires Valid()
      modifies this
      ensures added <==> Trim(input) != "" && Trim(input) !in old(itemTypes)
      ensures added ==> itemTypes == old(itemTypes) + [Trim(input)]
      ensures added ==> calendarProfitCache.None? && calendarProfitCacheKey.None?
      ensures !added ==> (itemTypes == old(itemTypes)
        && calendarProfitCache == old(calendarProfitCache) && calendarProfitCacheKey == old(calendarProfitCacheKey))
      ensures purchases == old(purchases) && sales == old(sales) && rates == old(rates) && calendarCarryoverState == old(calendarCarryoverState)
      ensures Unique(old(itemTypes)) ==> Unique(itemTypes)
      ensures Valid()
    {
      var name := Trim(input);
      added := name != "" && name !in itemTypes;
      if added {
        itemTypes := itemTypes + [name];
        SaveData();
      }
    }

    /**
     * Renaming the type at `index`: the trimmed name replaces it when it is
     * not empty and not yet a type, and every purchase and sale of the old
     * type moves to the new one; otherwise nothing changes.
     */
    method RenameItemType(index: nat, input: string) returns (renamed: bool)
      requires Valid() && index < |itemTypes|
      modifies this
      ensures renamed <==> Trim(input) != "" && Trim(input) !in old(itemTypes)
      ensures renamed ==>
        && itemTypes == old(itemTypes)[index := Trim(input)]
        && purchases == Rekey(old(purchases), old(itemTypes)[index], Trim(input))
        && sales == Rekey(old(sales), old(itemTypes)[index], Trim(input))
        && calendarProfitCache.None? && calendarProfitCacheKey.None?
      ensures !renamed ==> (itemTypes == old(itemTypes) && purchases == old(purchases) && sales == old(sales)
        && calendarProfitCache == old(calendarProfitCache) && calendarProfitCacheKey == old(calendarProfitCacheKey))
      ensures rates == old(rates) && calendarCarryoverState == old(calendarCarryoverState)
      ensures Unique(old(itemTypes)) ==> Unique(itemTypes)
      ensures Valid()
    {
      var newName := Trim(input);
      renamed := newName != "" && newName !in itemTypes;
      if renamed {
        var oldName := itemTypes[index];
        if Unique(itemTypes) {
          ReplaceUnique(itemTypes, index, newName);
        }
        itemTypes := itemTypes[index := newName];
        purchases := Relabel(purchases, oldName, newName);
        sales := Relabel(sales, oldName, newName);
        SaveData();
      }
    }

    /** `splice(index, 1)`: the type at `index` goes; its transactions stay. */
    method DeleteItemType(index: nat)
      modifies this
      ensures index < |old(itemTypes)| ==> itemTypes == old(itemTypes)[..index] + old(itemTypes)[index + 1..]
      ensures index >= |old(itemTypes)| ==> itemTypes == old(itemTypes)
      ensures purchases == old(purchases) && sales == old(sales) && rates == old(rates) && calendarCarryoverState == old(calendarCarryoverState)
      ensures calendarProfitCache.None? && calendarProfitCacheKey.None?
      ensures Unique(old(itemTypes)) ==> Unique(itemTypes)
      ensures Valid()
    {
      if index < |itemTypes| {
        itemTypes := itemTypes[..index] + itemTypes[index + 1..];
      }
      SaveData();
    }

    /**
     * Saving a rate: a missing (unparsable) or zero value, or an empty date,
     * changes nothing; otherwise every rate of that day is dropped and the
     * new one appended, so it becomes the rate of that day.
     */
    method SaveRate(value: Option<real>, date: Date) returns (saved: bool)
      requires Valid()
      modifies this
      ensures saved <==> value.Some? && value.value != 0.0 && date != ""
      ensures saved ==> (rates == DropDate(old(rates), date) + [Rate(value.value, date)]
        && RateForDate(rates, date) == value.value
        && calendarProfitCache.None? && calendarProfitCacheKey.None?)
      ensures !saved ==> (rates == old(rates)
        && calendarProfitCache == old(calendarProfitCache) && calendarProfitCacheKey == old(calendarProfitCacheKey))
      ensures OneRatePerDate(old(rates)) ==> OneRatePerDate(rates)
      ensures itemTypes == old(itemTypes) && purchases == old(purchases) && sales == old(sales)
      ensures calendarCarryoverState == old(calendarCarryoverState)
      ensures Valid()
    {
      saved := value.Some? && value.value != 0.0 && date != "";
      if saved {
        var r := Rate(value.value, date);
        SaveRateKeepsOnePerDate(rates, r);
        SavedRateApplies(rates, r);
        rates := DropDate(rates, date) + [r];
        SaveData();
      }
    }

    /** Deleting the rates of a day. */
    method DeleteRate(date: Date)
      modifies this
      ensures rates == DropDate(old(rates), date)
      ensures forall r :: r in rates ==> r.date != date
      ensures OneRatePerDate(old(rates)) ==> OneRatePerDate(rates)
      ensures itemTypes == old(itemTypes) && purchases == old(purchases) && sales == old(sales)
      ensures calendarProfitCache.None? && calendarProfitCacheKey.None?
      ensures calendarCarryoverState == old(calendarCarryoverState)
      ensures Valid()
    {
      if OneRatePerDate(rates) {
        DropDateKeepsOnePerDate(rates, date);
      }
      rates := DropDate(rates, date);
      SaveData();
    }

    /** Deleting every sale (`income`) or purchase with the given id. */
    method DeleteTransaction(kind: TxKind, id: nat)
      modifies this
      ensures kind == Income ==> sales == DropId(old(sales), id) && purchases == old(purchases)
      ensures kind == Expense ==> purchases == DropId(old(purchases), id) && sales == old(sales)
      ensures itemTypes == old(itemTypes) && rates == old(rates)
      ensures calendarProfitCache.None? && calendarProfitCacheKey.None?
      ensures calendarCarryoverState == old(calendarCarryoverState)
      ensures Valid()
    {
      if kind == Income {
        sales := DropId(sales, id);
      } else {
        purchases := DropId(purchases, id);
      }
      SaveData();
    }

    /**
     * Editing a transaction: the form's checks in order; then the first sale
     * (`income`) or purchase with the id, if any, takes the new fields with
     * `originalAmount = price × qty`. A missing id changes nothing, the
     * cache included.
     */
    method EditTransaction(kind: TxKind, id: nat, itemType: string, date: Date, time: string,
                           currency: Currency, price: Option<real>, qty: Option<int>)
      returns (outcome: EditOutcome)
      requires Valid()
      modifies this
      ensures var rejected := Rejection(itemType, date, price, qty);
        var found := FindById(if kind == Income then old(sales) else old(purchases), id);
        && (rejected.Some? ==> outcome == rejected.value)
        && (rejected.None? && found.None? ==> outcome == NotFound)
        && (rejected.None? && found.Some? ==> outcome == Edited)
      ensures outcome != Edited ==> (purchases == old(purchases) && sales == old(sales) && rates == old(rates)
        && calendarProfitCache == old(calendarProfitCache) && calendarProfitCacheKey == old(calendarProfitCacheKey))
      ensures outcome == Edited ==>
        var arr := if kind == Income then old(sales) else old(purchases);
        var k := FindById(arr, id).value;
        var edited := Tx(id, itemType, currency, Amount(price.value, qty.value), qty.value, date, time);
        && (kind == Income ==> sales == arr[k := edited] && purchases == old(purchases))
        && (kind == Expense ==> purchases == arr[k := edited] && sales == old(sales))
        && rates == old(rates)
        && calendarProfitCache.None? && calendarProfitCacheKey.None?
      ensures itemTypes == old(itemTypes) && calendarCarryoverState == old(calendarCarryoverState)
      ensures Valid()
    {
      var rejected := Rejection(itemType, date, price, qty);
      if rejected.Some? {
        return rejected.value;
      }
      var arr := if kind == Income then sales else purchases;
      var found := FindById(arr, id);
      if found.None? {
        return NotFound;
      }
      var quantity: Qty := qty.value;
      Replace(kind, found.value, Tx(id, itemType, currency, Amount(price.value, quantity), quantity, date, time));
      outcome := Edited;
    }

    /** Puts `tx` at index `k` of the sales (`income`) or the purchases, then `saveData`. */
    method Replace(kind: TxKind, k: nat, tx: Tx)
      requires k < |if kind == Income then sales else purchases|
      modifies this
      ensures kind == Income ==> sales == old(sales)[k := tx] && purchases == old(purchases)
      ensures kind == Expense ==> purchases == old(purchases)[k := tx] && sales == old(sales)
      ensures itemTypes == old(itemTypes) && rates == old(rates)
      ensures calendarProfitCache.None? && calendarProfitCacheKey.None?
      ensures calendarCarryoverState == old(calendarCarryoverState)
      ensures Valid()
    {
      if kind == Income {
        sales := sales[k := tx];
      } else {
        purchases := purchases[k := tx];
      }
      SaveData();
    }

    /**
     * Importing a parsed file: a file without item types, purchases or sales
     * is refused, a declined confirmation changes nothing, and otherwise the
     * file's lists replace the data, with no rates when the file has none.
     */
    method Import(file: ImportFile, confirmed: bool) returns (outcome: ImportOutcome)
      requires Valid()
      modifies this
      ensures !ImportShapeOk(file) <==> outcome == BadFormat
      ensures ImportShapeOk(file) && !confirmed <==> outcome == Declined
      ensures outcome != Imported ==> (itemTypes == old(itemTypes) && purchases == old(purchases) && sales == old(sales) && rates == old(rates)
        && calendarProfitCache == old(calendarProfitCache) && calendarProfitCacheKey == old(calendarProfitCacheKey))
      ensures outcome == Imported ==>
        && itemTypes == file.itemTypes.value
        && Data() == Books(file.purchases.value, file.sales.value, ImportedRates(file))
        && calendarProfitCache.None? && calendarProfitCacheKey.None?
      ensures calendarCarryoverState == old(calendarCarryoverState)
      ensures Valid()
    {
      if !ImportShapeOk(file) {
        return BadFormat;
      }
      if !confirmed {
        return Declined;
      }
      itemTypes := file.itemTypes.value;
      purchases := file.purchases.value;
      sales := file.sales.value;
      rates := ImportedRates(file);
      SaveData();
      outcome := Imported;
    }
  }
}
