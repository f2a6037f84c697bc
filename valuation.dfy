/**
 * Rate resolver and valuation: the CNY to RUB rate valid on a transaction's own
 * day, the RUB value of a transaction, and the net value of a sale after the
 * fixed 3% commission.
 */
module Valuation {
  import opened Dates
  import opened Records
  import opened Sorting

  /** The fixed multiplier applied to every sale (a 3% commission). */
  const Commission: real := 0.97

  /**
   * The rate comparator `new Date(b.date) - new Date(a.date)`: it is negative,
   * so `a` goes first, exactly when `a` is dated later than `b`.
   */
  predicate NewerFirst(a: Rate, b: Rate)
  {
    Lt(b.date, a.date)
  }

  lemma NewerFirstIsStrictOrder()
    ensures StrictOrder(NewerFirst)
  {
    forall a: Rate, b: Rate, c: Rate | NewerFirst(a, b) && NewerFirst(b, c)
      ensures NewerFirst(a, c)
    {
      LtTransitive(c.date, b.date, a.date);
    }
  }

  /** The scan of the sorted copy: the first rate dated on or before `target`. */
  function FirstOnOrBefore(sorted: seq<Rate>, target: Date): (r: Option<Rate>)
    ensures r.None? <==> forall i :: 0 <= i < |sorted| ==> !Le(sorted[i].date, target)
    ensures r.Some? ==> r.value in sorted && Le(r.value.date, target)
  {
    if |sorted| == 0 then None
    else if Le(sorted[0].date, target) then Some(sorted[0])
    else
      var r := FirstOnOrBefore(sorted[1..], target);
      assert forall i :: 1 <= i < |sorted| ==> sorted[i] == sorted[1..][i - 1];
      r
  }

  /**
   * The rate used for a day: 1 when there are no rates, otherwise the first
   * rate of the newest-first copy that is dated on or before the day, and 1
   * again if there is none. (Only the day is compared: the program moves the
   * target to the end of its day and each rate to the start of its day.)
   */
  function RateForDate(rates: seq<Rate>, target: Date): real
  {
    if |rates| == 0 then 1.0
    else
      match FirstOnOrBefore(Sort(rates, NewerFirst), target)
      case None => 1.0
      case Some(r) => r.value
  }

  /** The same search as a loop over the sorted copy that returns early. */
  method GetRateForDate(rates: seq<Rate>, target: Date) returns (rate: real)
    ensures rate == RateForDate(rates, target)
  {
    if |rates| == 0 {
      return 1.0;
    }
    var sorted := Sort(rates, NewerFirst);
    for i := 0 to |sorted|
      invariant FirstOnOrBefore(sorted[i..], target) == FirstOnOrBefore(sorted, target)
    {
      assert sorted[i..][1..] == sorted[i + 1..];
      if Le(sorted[i].date, target) {
        return sorted[i].value;
      }
    }
    assert sorted[|sorted|..] == [];
    return 1.0;
  }

  /**
   * Independent reference for the rate search: the index of the latest-dated
   * rate on or before `target`, the earliest entry among rates of that date.
   */
  function LatestIndex(rates: seq<Rate>, target: Date): (r: Option<nat>)
    ensures r.None? <==> forall i :: 0 <= i < |rates| ==> !Le(rates[i].date, target)
    ensures r.Some? ==>
      && r.value < |rates|
      && Le(rates[r.value].date, target)
      && (forall j :: 0 <= j < |rates| && Le(rates[j].date, target) ==> Le(rates[j].date, rates[r.value].date))
      && (forall j :: 0 <= j < r.value ==> rates[j].date != rates[r.value].date)
  {
    if |rates| == 0 then None
    else
      var n := |rates| - 1;
      var prev := LatestIndex(rates[..n], target);
      assert forall j :: 0 <= j < n ==> rates[..n][j] == rates[j];
      if Le(rates[n].date, target) && (prev.None? || Lt(rates[prev.value].date, rates[n].date)) then
        LatestIsLast(rates, target, prev);
        Some(n)
      else
        LatestIsEarlier(rates, target, prev);
        prev
  }

  /** The step of LatestIndex that takes the last entry. */
  lemma LatestIsLast(rates: seq<Rate>, target: Date, prev: Option<nat>)
    requires |rates| > 0
    requires var n := |rates| - 1;
      && (prev.None? <==> forall i :: 0 <= i < n ==> !Le(rates[i].date, target))
      && (prev.Some? ==>
            (prev.value < n && Le(rates[prev.value].date, target)
             && forall j :: 0 <= j < n && Le(rates[j].date, target) ==> Le(rates[j].date, rates[prev.value].date)))
      && Le(rates[n].date, target) && (prev.None? || Lt(rates[prev.value].date, rates[n].date))
    ensures var n := |rates| - 1;
      && (forall j :: 0 <= j < |rates| && Le(rates[j].date, target) ==> Le(rates[j].date, rates[n].date))
      && (forall j :: 0 <= j < n ==> rates[j].date != rates[n].date)
  {
    var n := |rates| - 1;
    LeReflexive(rates[n].date);
    if prev.Some? {
      forall j | 0 <= j < |rates| && Le(rates[j].date, target)
        ensures Le(rates[j].date, rates[n].date)
      {
        if j < n {
          LeTransitive(rates[j].date, rates[prev.value].date, rates[n].date);
        }
      }
      forall j | 0 <= j < n ensures rates[j].date != rates[n].date {
        if Le(rates[j].date, target) {
          LeAntisymmetric(rates[prev.value].date, rates[n].date);
        }
      }
    }
  }

  /** The step of LatestIndex that keeps the earlier answer. */
  lemma LatestIsEarlier(rates: seq<Rate>, target: Date, prev: Option<nat>)
    requires |rates| > 0
    requires var n := |rates| - 1;
      && (prev.Some? ==>
            (prev.value < n && Le(rates[prev.value].date, target)
             && forall j :: 0 <= j < n && Le(rates[j].date, target) ==> Le(rates[j].date, rates[prev.value].date)))
      && !(Le(rates[n].date, target) && (prev.None? || Lt(rates[prev.value].date, rates[n].date)))
    ensures prev.Some? && Le(rates[|rates| - 1].date, target) ==>
      Le(rates[|rates| - 1].date, rates[prev.value].date)
  {
    var n := |rates| - 1;
    if prev.Some? && Le(rates[n].date, target) {
      LeTotal(rates[prev.value].date, rates[n].date);
      LeAntisymmetric(rates[prev.value].date, rates[n].date);
      LeReflexive(rates[n].date);
    }
  }

  /** What the reference search denotes as a rate. */
  function LatestRate(rates: seq<Rate>, target: Date): real
  {
    match LatestIndex(rates, target)
    case None => 1.0
    case Some(i) => rates[i].value
  }

  /** In a newest-first sorted sequence no element is dated after the head. */
  lemma SortedHeadIsNewest(s: seq<Rate>, k: nat)
    requires Sorted(s, NewerFirst)
    requires 0 < k < |s|
    ensures Le(s[k].date, s[0].date)
  {
    assert !NewerFirst(s[k], s[0]);
    LeTotal(s[k].date, s[0].date);
  }

  /** Inserting one more rate into the sorted copy changes the scan's answer only in its favour. */
  lemma {:induction false} InsertThenScan(r: Rate, s: seq<Rate>, target: Date)
    requires Sorted(s, NewerFirst)
    ensures FirstOnOrBefore(Insert(r, s, NewerFirst), target) ==
      var prev := FirstOnOrBefore(s, target);
      if Le(r.date, target) && (prev.None? || Lt(prev.value.date, r.date)) then Some(r) else prev
  {
    var prev := FirstOnOrBefore(s, target);
    if |s| == 0 {
    } else if NewerFirst(r, s[0]) {
      assert Insert(r, s, NewerFirst) == [r] + s;
      assert ([r] + s)[1..] == s;
      if Le(r.date, target) && prev.Some? {
        var k :| 0 <= k < |s| && s[k] == prev.value;
        if k > 0 {
          SortedHeadIsNewest(s, k);
        } else {
          LeReflexive(s[0].date);
        }
        LeLtTransitive(prev.value.date, s[0].date, r.date);
      }
    } else {
      var tail := Insert(r, s[1..], NewerFirst);
      assert Insert(r, s, NewerFirst) == [s[0]] + tail;
      assert ([s[0]] + tail)[1..] == tail;
      assert Sorted(s[1..], NewerFirst) by {
        forall i, j | 0 <= i < j < |s[1..]| ensures !NewerFirst(s[1..][j], s[1..][i]) {
          assert s[1..][j] == s[j + 1] && s[1..][i] == s[i + 1];
        }
      }
      InsertThenScan(r, s[1..], target);
      if Le(s[0].date, target) {
        assert prev == Some(s[0]);
      } else {
        assert prev == FirstOnOrBefore(s[1..], target);
      }
    }
  }

  /** Sorting newest first and scanning finds what the reference search finds. */
  lemma {:induction false} SortThenScanIsLatest(rates: seq<Rate>, target: Date)
    ensures FirstOnOrBefore(Sort(rates, NewerFirst), target) ==
      match LatestIndex(rates, target)
      case None => None
      case Some(i) => Some(rates[i])
  {
    if |rates| > 0 {
      var n := |rates| - 1;
      var init := rates[..n];
      var sortedInit := Sort(init, NewerFirst);
      assert Sort(rates, NewerFirst) == Insert(rates[n], sortedInit, NewerFirst);
      SortThenScanIsLatest(init, target);
      NewerFirstIsStrictOrder();
      SortSorted(init, NewerFirst);
      InsertThenScan(rates[n], sortedInit, target);
      var prev := LatestIndex(init, target);
      var takesLast := Le(rates[n].date, target) && (prev.None? || Lt(rates[prev.value].date, rates[n].date));
      assert LatestIndex(rates, target) == if takesLast then Some(n) else prev;
      if prev.Some? {
        assert init[prev.value] == rates[prev.value];
        assert FirstOnOrBefore(sortedInit, target) == Some(rates[prev.value]);
      } else {
        assert FirstOnOrBefore(sortedInit, target) == None;
      }
    }
  }

  /** The resolver agrees with the reference definition. */
  lemma RateForDateIsLatest(rates: seq<Rate>, target: Date)
    ensures RateForDate(rates, target) == LatestRate(rates, target)
  {
    SortThenScanIsLatest(rates, target);
  }

  /** No rate dated on or before the day: the rate is 1. */
  lemma RateFallsBackToOne(rates: seq<Rate>, target: Date)
    requires forall i :: 0 <= i < |rates| ==> !Le(rates[i].date, target)
    ensures RateForDate(rates, target) == 1.0
  {
    RateForDateIsLatest(rates, target);
  }

  /**
   * Rate `i` is dated on or before the day, no rate on or before the day is
   * dated later, and no earlier entry has the same date: its value is used.
   */
  lemma RatePicksLatest(rates: seq<Rate>, target: Date, i: nat)
    requires i < |rates| && Le(rates[i].date, target)
    requires forall j :: 0 <= j < |rates| && Le(rates[j].date, target) ==> Le(rates[j].date, rates[i].date)
    requires forall j :: 0 <= j < i ==> rates[j].date != rates[i].date
    ensures RateForDate(rates, target) == rates[i].value
  {
    RateForDateIsLatest(rates, target);
    var k := LatestIndex(rates, target).value;
    LeAntisymmetric(rates[i].date, rates[k].date);
    assert rates[i].date == rates[k].date;
    assert !(k < i) && !(i < k);
  }

  /** A rate dated after the day never changes the rate of that day. */
  lemma RateIgnoresLaterRates(rates: seq<Rate>, target: Date, r: Rate)
    requires Lt(target, r.date)
    ensures RateForDate(rates + [r], target) == RateForDate(rates, target)
  {
    RateForDateIsLatest(rates, target);
    RateForDateIsLatest(rates + [r], target);
    assert (rates + [r])[..|rates|] == rates;
    if Le(r.date, target) {
      LeAntisymmetric(r.date, target);
    }
  }

  /** A transaction's total in RUB at a given CNY rate. */
  function Convert(tx: Tx, rate: real): real
  {
    if tx.currency == RUB then tx.originalAmount else tx.originalAmount * rate
  }

  /** The RUB value of a transaction's total: unchanged for RUB, else at its own day's rate. */
  function AmountInRub(tx: Tx, rates: seq<Rate>): real
  {
    Convert(tx, RateForDate(rates, tx.date))
  }

  /** The net RUB value of a sale after commission. */
  function SaleAmountInRub(sale: Tx, rates: seq<Rate>): real
  {
    AmountInRub(sale, rates) * Commission
  }

  /**
   * Valuation in terms of the reference rate: RUB totals are taken as they are,
   * CNY totals at the latest rate on or before the transaction's own day (1 if
   * none), and sales are worth 97% of that.
   */
  lemma ValuationUsesOwnDate(tx: Tx, rates: seq<Rate>)
    ensures tx.currency == RUB ==> AmountInRub(tx, rates) == tx.originalAmount
    ensures AmountInRub(tx, rates) == Convert(tx, LatestRate(rates, tx.date))
    ensures SaleAmountInRub(tx, rates) == Convert(tx, LatestRate(rates, tx.date)) * Commission
  {
    RateForDateIsLatest(rates, tx.date);
  }

  /** Entering a rate for a later day leaves every earlier transaction's value as it was. */
  lemma AmountIgnoresLaterRates(tx: Tx, rates: seq<Rate>, r: Rate)
    requires Lt(tx.date, r.date)
    ensures AmountInRub(tx, rates + [r]) == AmountInRub(tx, rates)
    ensures SaleAmountInRub(tx, rates + [r]) == SaleAmountInRub(tx, rates)
  {
    RateIgnoresLaterRates(rates, tx.date, r);
  }
}
