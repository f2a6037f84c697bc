/**
 * `usedPurchases`, the calendar's record of how many units of each purchase
 * were used, in all and on each day.
 */
module Usages {
  import opened Dates

  /** `usedPurchases[id]`: units used in all, and per day. */
  datatype Usage = Usage(totalUsed: nat, byDate: map<Date, nat>)

  type UsedPurchases = map<nat, Usage>

  /** `qty` units of purchase `id` used on `date`, both counters starting at 0. */
  function Use(used: UsedPurchases, id: nat, date: Date, qty: nat): (r: UsedPurchases)
    ensures r.Keys == used.Keys + {id}
    ensures forall k :: k in used && k != id ==> r[k] == used[k]
  {
    var u := if id in used then used[id] else Usage(0, map[]);
    var prior := if date in u.byDate then u.byDate[date] else 0;
    used[id := Usage(u.totalUsed + qty, u.byDate[date := prior + qty])]
  }

  /** No day occurs twice. */
  ghost predicate NoRepeats(days: seq<Date>)
  {
    forall i, j :: 0 <= i < j < |days| ==> days[i] != days[j]
  }

  /** The last day is not among the earlier ones, and those have no repeats either. */
  lemma LastIsNew(days: seq<Date>)
    requires NoRepeats(days) && |days| > 0
    ensures days[|days| - 1] !in days[..|days| - 1] && NoRepeats(days[..|days| - 1])
  {
    var n := |days| - 1;
    forall k | 0 <= k < n ensures days[..n][k] != days[n] {
      assert days[..n][k] == days[k];
    }
  }

  /** The per-day counts of `byDate` on the given days, a missing day counting 0. */
  function SumOn(byDate: map<Date, nat>, days: seq<Date>): nat
  {
    if |days| == 0 then 0
    else
      var d := days[|days| - 1];
      SumOn(byDate, days[..|days| - 1]) + (if d in byDate then byDate[d] else 0)
  }

  /**
   * Each purchase's `totalUsed` is the sum of its per-day counts, and it has
   * counts only for the given days.
   */
  ghost predicate AddsUp(used: UsedPurchases, days: seq<Date>)
  {
    forall id :: id in used ==>
      && used[id].totalUsed == SumOn(used[id].byDate, days)
      && forall d :: d in used[id].byDate ==> d in days
  }

  lemma {:induction false} SumOnEmpty(days: seq<Date>)
    ensures SumOn(map[], days) == 0
  {
    if |days| > 0 {
      SumOnEmpty(days[..|days| - 1]);
    }
  }

  /** Changing the count of a day that is not among the days changes nothing. */
  lemma {:induction false} SumOnOutside(byDate: map<Date, nat>, days: seq<Date>, date: Date, count: nat)
    requires date !in days
    ensures SumOn(byDate[date := count], days) == SumOn(byDate, days)
  {
    if |days| > 0 {
      var n := |days| - 1;
      assert days[n] in days;
      assert forall d :: d in days[..n] ==> d in days;
      SumOnOutside(byDate, days[..n], date, count);
    }
  }

  /** Adding units to the count of one of the days adds them to the sum. */
  lemma {:induction false} SumOnAdd(byDate: map<Date, nat>, days: seq<Date>, date: Date, prior: nat, qty: nat)
    requires NoRepeats(days) && date in days
    requires prior == if date in byDate then byDate[date] else 0
    ensures SumOn(byDate[date := prior + qty], days) == SumOn(byDate, days) + qty
  {
    var n := |days| - 1;
    var init := days[..n];
    LastIsNew(days);
    if days[n] == date {
      SumOnOutside(byDate, init, date, prior + qty);
    } else {
      assert date in init by {
        var k :| 0 <= k < |days| && days[k] == date;
        assert k < n && init[k] == date;
      }
      SumOnAdd(byDate, init, date, prior, qty);
    }
  }

  /** Recording units on one of the days keeps every usage adding up. */
  lemma UseAddsUp(used: UsedPurchases, days: seq<Date>, id: nat, date: Date, qty: nat)
    requires AddsUp(used, days) && NoRepeats(days) && date in days
    ensures AddsUp(Use(used, id, date, qty), days)
  {
    var r := Use(used, id, date, qty);
    var u := if id in used then used[id] else Usage(0, map[]);
    var prior := if date in u.byDate then u.byDate[date] else 0;
    forall k | k in r
      ensures r[k].totalUsed == SumOn(r[k].byDate, days)
      ensures forall d :: d in r[k].byDate ==> d in days
    {
      if k == id {
        if id !in used {
          SumOnEmpty(days);
        }
        SumOnAdd(u.byDate, days, date, prior, qty);
        assert r[k] == Usage(u.totalUsed + qty, u.byDate[date := prior + qty]);
      } else {
        assert r[k] == used[k];
      }
    }
  }

  /** A day not walked before has no counts yet, so adding it to the days keeps the sums. */
  lemma WalkOn(used: UsedPurchases, days: seq<Date>, date: Date)
    requires AddsUp(used, days) && date !in days
    ensures AddsUp(used, days + [date])
  {
    forall id | id in used
      ensures used[id].totalUsed == SumOn(used[id].byDate, days + [date])
      ensures forall d :: d in used[id].byDate ==> d in days + [date]
    {
      assert (days + [date])[..|days|] == days;
    }
  }
}
